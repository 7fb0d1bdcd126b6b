/** What sync reports about a server is what provisioning decides on it. */
module Agreement {
  import opened Wrappers
  import opened Sequences
  import opened Text
  import opened Uuids
  import opened Directory
  import opened Invariants
  import opened ServerRuns
  import opened Wire
  import opened Protocol
  import opened Reading
  import opened Meaning
  import opened Retry
  import opened Sync

  // ----- What the sync of one server reads ------------------------------------------------

  function SyncedUsers(s: Snapshot): Response<seq<ClientUser>>
  {
    GetUsers(s)
  }

  /** The member grants of one group resource. */
  function SyncedMembers(s: Snapshot, group: string): Response<seq<Grant>>
  {
    match GetGroupMembers(s, group)
    case Err(f) => Err(f)
    case Ok(ms) => Ok(GroupGrants(GroupId(group), ms))
  }

  /** Sync reports that the user holds the member entitlement of the group. */
  predicate MemberSynced(s: Snapshot, group: string, user: string)
  {
    && SyncedMembers(s, group).Ok?
    && Reports(SyncedMembers(s, group).value, ResourceId("group", group), "member", ResourceId("user", user))
  }

  /** permissionBuilder.List, with the server as it is at each of its three requests. */
  function SyncedAcross(s: Snapshot, users: Snapshot, groups: Snapshot): Response<seq<Resource>>
  {
    match GetPermissions(s)
    case Err(f) => Err(f)
    case Ok(ps) =>
      match GetUsers(users)
      case Err(f) => Err(f)
      case Ok(us) => PermissionResources(ps, UsersByUuid(us), GroupsByUuid(GetGroups(groups)))
  }

  /** The same with nobody writing in between. */
  function SyncedPermissions(s: Snapshot): Response<seq<Resource>>
  {
    SyncedAcross(s, s, s)
  }

  // ----- The user list --------------------------------------------------------------------

  lemma {:induction false} ListDecodes(s: Snapshot, row: seq<string>)
    requires Inv(s) && forall k :: k in row ==> k in s.users
    ensures var us := DecodeUsers(LiveUsers(s.users, row));
      us.Some? && |us.value| == |row| && forall i :: 0 <= i < |row| ==> Some(us.value[i]) == DecodeUser(s.users[row[i]])
  {
    hide Inv, DecodeUser;
    var live := LiveUsers(s.users, row);
    LiveUsersAll(s.users, row);
    if DecodeAll(live, DecodeUserRecord).None? {
      var i :| 0 <= i < |live| && DecodeUserRecord(live[i]).None?;
      assert row[i] in row;
      UserDecodes(s, row[i]);
      assert false;
    }
  }

  lemma OrderIsUsers(s: Snapshot)
    requires Inv(s)
    ensures NoDuplicates(s.order) && forall k :: k in s.order <==> k in s.users
  {
    hide CatalogOk, IdsIssued, MembersAgree, RolesAgree, AllUsersComplete, PermissionsIndexed;
  }

  /** The user list is the server's users in the server's order, each once. */
  lemma UserListRead(s: Snapshot)
    requires Inv(s)
    ensures GetUsers(s).Ok?
    ensures var us := GetUsers(s).value;
      |us| == |s.order| && forall i :: 0 <= i < |us| ==>
          s.order[i] in s.users && Some(us[i]) == DecodeUser(s.users[s.order[i]])
  {
    hide Inv, DecodeUser, DecodeUsers, LiveUsers;
    OrderIsUsers(s);
    ListDecodes(s, s.order);
    assert forall i :: 0 <= i < |s.order| ==> s.order[i] in s.order;
  }

  lemma DecodedIdentity(u: User, cu: ClientUser)
    requires DecodeUser(u) == Some(cu)
    ensures cu.id == u.id && cu.uuid == u.uuid && cu.username == u.username && cu.email == u.email
    ensures cu.name == u.name && cu.enabled == u.enabled
    ensures |cu.roles| == |u.rbacRoles| && forall i :: 0 <= i < |cu.roles| ==>
        DecodeRoleRef(u.rbacRoles[i]) == Some(cu.roles[i])
    ensures forall i :: 0 <= i < |cu.roles| ==>
      Parse(u.rbacRoles[i].uuid) == Some(cu.roles[i].uuid) && cu.roles[i].name == u.rbacRoles[i].name
  {
    hide Parse;
  }

  lemma {:induction false} IndexOfUsers(us: seq<ClientUser>)
    requires forall i, j :: 0 <= i < j < |us| ==> us[i].uuid != us[j].uuid
    ensures forall k :: k in UsersByUuid(us) <==> exists i :: 0 <= i < |us| && us[i].uuid == k
    ensures forall i :: 0 <= i < |us| ==> us[i].uuid in UsersByUuid(us) && UsersByUuid(us)[us[i].uuid] == us[i]
  {
    if us != [] {
      var init := us[..|us| - 1];
      IndexOfUsers(init);
      assert forall i :: 0 <= i < |init| ==> init[i] == us[i];
    }
  }

  /** Of users with one UUID the last is kept. */
  lemma {:induction false} LastUserIsKept(us: seq<ClientUser>, i: nat)
    requires i < |us| && forall j :: i < j < |us| ==> us[j].uuid != us[i].uuid
    ensures us[i].uuid in UsersByUuid(us) && UsersByUuid(us)[us[i].uuid] == us[i]
  {
    if i < |us| - 1 { LastUserIsKept(us[..|us| - 1], i); }
  }

  /** usersByUUID holds exactly the server's users. */
  lemma UserIndexRead(s: Snapshot)
    requires Inv(s)
    ensures GetUsers(s).Ok?
    ensures var index := UsersByUuid(GetUsers(s).value);
      && index.Keys == s.users.Keys
      && forall k :: k in s.users ==> index[k].id == s.users[k].id
  {
    hide Inv, GetUsers, DecodeUser, UsersByUuid;
    UserListRead(s);
    OrderIsUsers(s);
    UsersCarryKeys(s);
    var us := GetUsers(s).value;
    forall i | 0 <= i < |us|
      ensures us[i].uuid == s.order[i] && us[i].id == s.users[s.order[i]].id
    {
      DecodedIdentity(s.users[s.order[i]], us[i]);
    }
    IndexOfUsers(us);
    forall k | k in s.users
      ensures k in UsersByUuid(us) && UsersByUuid(us)[k].id == s.users[k].id
    {
      assert k in s.order;
    }
  }

  lemma UsersCarryKeys(s: Snapshot)
    requires Inv(s)
    ensures forall k :: k in s.users ==> s.users[k].uuid == k
  {
    hide CatalogOk, IdsIssued, MembersAgree, RolesAgree, AllUsersComplete, PermissionsIndexed;
  }

  // ----- The group list -------------------------------------------------------------------

  lemma {:induction false} IndexOfGroups(gs: seq<ClientGroup>)
    requires forall i, j :: 0 <= i < j < |gs| ==> gs[i].uuid != gs[j].uuid
    ensures forall k :: k in GroupsByUuid(gs) <==> exists i :: 0 <= i < |gs| && gs[i].uuid == k
    ensures forall i :: 0 <= i < |gs| ==>
        gs[i].uuid in GroupsByUuid(gs) && GroupsByUuid(gs)[gs[i].uuid] == Itoa(gs[i].id)
  {
    hide Itoa;
    if gs != [] {
      var init := gs[..|gs| - 1];
      IndexOfGroups(init);
      assert forall i :: 0 <= i < |init| ==> init[i] == gs[i];
    }
  }

  /** Of groups with one UUID the last is kept. */
  lemma {:induction false} LastGroupIsKept(gs: seq<ClientGroup>, i: nat)
    requires i < |gs| && forall j :: i < j < |gs| ==> gs[j].uuid != gs[i].uuid
    ensures gs[i].uuid in GroupsByUuid(gs) && GroupsByUuid(gs)[gs[i].uuid] == Itoa(gs[i].id)
  {
    hide Itoa;
    if i < |gs| - 1 { LastGroupIsKept(gs[..|gs| - 1], i); }
  }

  /** The group list is the server's groups in the server's order. */
  lemma GroupListRead(s: Snapshot, i: nat)
    requires i < |s.catalog.groupList|
    ensures |GetGroups(s)| == |s.catalog.groupList|
    ensures var g, cg := s.catalog.groupList[i], GetGroups(s)[i];
      cg.id == g.id && cg.uuid == g.uuid && cg.name == g.name
  {}

  /** A user's roles are read off the edge table, and an unknown user is not found. */
  lemma UserRolesRead(s: Snapshot, k: string)
    ensures GetUserRoleUuids(s, k) ==
      if k !in s.users then Err(Refused(NotFound))
      else if k in s.userRoles then Ok(s.userRoles[k]) else Ok([])
  {}

  lemma GroupsDistinct(c: Catalog, i: nat, j: nat)
    requires CatalogOk(c) && i < j < |c.groupList|
    ensures c.groupList[i].uuid != c.groupList[j].uuid
  {
    assert c.groupList[i] in c.groupList && c.groupList[j] in c.groupList;
  }

  lemma CatalogHolds(s: Snapshot)
    requires Inv(s)
    ensures CatalogOk(s.catalog)
  {
    hide CatalogOk, IndexesAgree, IdsIssued, MembersAgree, RolesAgree, AllUsersComplete, PermissionsIndexed;
  }

  /** groupsByUUID holds exactly the server's groups, each with its printed ID. */
  lemma GroupIndexRead(s: Snapshot)
    requires Inv(s)
    ensures var index := GroupsByUuid(GetGroups(s));
      && index.Keys == GroupUuids(s.catalog)
      && forall g :: g in s.catalog.groupList ==> index[g.uuid] == Itoa(g.id)
  {
    hide Inv, CatalogOk, GroupsByUuid, Itoa;
    CatalogHolds(s);
    var gs, list := GetGroups(s), s.catalog.groupList;
    forall i, j | 0 <= i < j < |gs|
      ensures gs[i].uuid != gs[j].uuid
    {
      GroupsDistinct(s.catalog, i, j);
    }
    IndexOfGroups(gs);
    forall g | g in list
      ensures g.uuid in GroupsByUuid(gs) && GroupsByUuid(gs)[g.uuid] == Itoa(g.id)
    {
      var i :| 0 <= i < |list| && list[i] == g;
      assert gs[i].uuid == g.uuid;
    }
    forall k | k in GroupsByUuid(gs)
      ensures k in GroupUuids(s.catalog)
    {
      var i :| 0 <= i < |gs| && gs[i].uuid == k;
      assert list[i] in list;
    }
  }

  // ----- Group memberships ----------------------------------------------------------------

  lemma {:induction false} FindMemberMeans(ms: seq<ClientUser>, user: string)
    ensures FindMember(ms, user).Some? <==> exists i :: 0 <= i < |ms| && Itoa(ms[i].id) == user
  {
    hide Itoa;
    if ms != [] {
      FindMemberMeans(ms[1..], user);
      if Itoa(ms[0].id) != user && FindMember(ms[1..], user).Some? {
        var i :| 0 <= i < |ms[1..]| && Itoa(ms[1..][i].id) == user;
        assert ms[i + 1] == ms[1..][i];
      }
      if exists i :: 0 < i < |ms| && Itoa(ms[i].id) == user {
        var i :| 0 < i < |ms| && Itoa(ms[i].id) == user;
        assert ms[1..][i - 1] == ms[i];
      }
    }
  }

  lemma MemberGrantMeans(group: ResourceId, ms: seq<ClientUser>, user: string)
    ensures MemberGrant(group, user) in GroupGrants(group, ms) <==> FindMember(ms, user).Some?
  {
    hide Itoa, FindMember;
    FindMemberMeans(ms, user);
    var grants := GroupGrants(group, ms);
    if FindMember(ms, user).Some? {
      var i :| 0 <= i < |ms| && Itoa(ms[i].id) == user;
      assert grants[i] == MemberGrant(group, user);
    }
  }

  /** A member grant says that the user holds the group's member entitlement. */
  lemma MembersReported(group: string, ms: seq<ClientUser>, user: string)
    ensures MemberGrant(GroupId(group), user) in GroupGrants(GroupId(group), ms) <==>
            Reports(GroupGrants(GroupId(group), ms), ResourceId("group", group), "member", ResourceId("user", user))
    ensures forall i :: 0 <= i < |ms| ==>
      GroupGrants(GroupId(group), ms)[i] ==
      Grant(ResourceId("group", group), "member", ResourceId("user", Itoa(ms[i].id)), [])
  {
    hide Itoa;
    var grants := GroupGrants(GroupId(group), ms);
    forall i | 0 <= i < |grants|
      ensures Is(grants[i], ResourceId("group", group), "member", ResourceId("user", user)) <==>
              grants[i] == MemberGrant(GroupId(group), user)
    {}
  }

  lemma SyncedMembersAreListed(s: Snapshot, group: string, user: string)
    requires Inv(s) && GroupOf(s, group).Some?
    ensures SyncedMembers(s, group).Ok?
    ensures MemberSynced(s, group, user) <==> Listed(s, group, user)
  {
    hide Inv, GetGroupMembers, FindMember, UserOf, GroupOf, IsDecimal, GroupGrants, Reports, Atoi, Itoa, DecodeUser;
    MemberListRead(s, group, user);
    MembersReported(group, GetGroupMembers(s, group).value, user);
    MemberGrantMeans(GroupId(group), GetGroupMembers(s, group).value, user);
  }

  /** For every existing group, sync reports a membership exactly when Grant finds it already there
      and exactly when Revoke does not find it already gone. */
  lemma GroupSyncAgrees(e: bool, s: Snapshot, group: string, user: string)
    requires Inv(s) && GroupOf(s, group).Some?
    ensures SyncedMembers(s, group).Ok?
    ensures var synced := MemberSynced(s, group, user);
      && (synced <==> Complete(e, GroupGrant(user, group), s).1 == AlreadyExists)
      && (synced <==> Complete(e, GroupRevoke(user, group), s).1 != AlreadyRevoked)
  {
    hide Inv, Complete, Effect, SyncedMembers, Reports, UserOf, GroupOf, IsDecimal, Atoi, Itoa;
    SyncedMembersAreListed(s, group, user);
    CompleteMeans(e, GroupGrant(user, group), s);
    CompleteMeans(e, GroupRevoke(user, group), s);
  }

  // ----- Roles ----------------------------------------------------------------------------

  /** Some user's resource yields a grant that the user is assigned the role. */
  predicate RoleSynced(us: seq<ClientUser>, user: string, role: string)
  {
    exists i :: 0 <= i < |us| && RoleReported(UserResource(us[i]), user, role)
  }

  predicate RoleReported(r: Resource, user: string, role: string)
  {
    Reports(UserGrants(r), ResourceId("role", role), "assigned", ResourceId("user", user))
  }

  lemma RoleGrantsOfUser(cu: ClientUser, user: string, role: string)
    ensures RoleReported(UserResource(cu), user, role) <==> Itoa(cu.id) == user && role in RoleIds(cu.roles)
  {
    hide Itoa, UserGrants, UserResource, Render;
    RolesSurviveTheProfile(cu);
    var ids, grants := RoleIds(cu.roles), UserGrants(UserResource(cu));
    forall i | 0 <= i < |ids|
      ensures Is(grants[i], ResourceId("role", role), "assigned", ResourceId("user", user)) <==>
              Itoa(cu.id) == user && ids[i] == role
    {}
    if Itoa(cu.id) == user && role in ids {
      var i :| 0 <= i < |ids| && ids[i] == role;
      assert Is(grants[i], ResourceId("role", role), "assigned", ResourceId("user", user));
    }
  }

  /** The role IDs that the client reads on a user are the server's edge row. */
  lemma RolesRead(s: Snapshot, k: string, cu: ClientUser)
    requires Inv(s) && k in s.users && DecodeUser(s.users[k]) == Some(cu)
    ensures RoleIds(cu.roles) == Row(s.userRoles, k)
  {
    hide CatalogOk, IndexesAgree, IdsIssued, MembersAgree, RolesAgree, AllUsersComplete, PermissionsIndexed, Parse,
      Render, DecodeUser, Canonical;
    DecodedIdentity(s.users[k], cu);
    var refs := s.users[k].rbacRoles;
    RowAsLong(s, k);
    forall i | 0 <= i < |refs|
      ensures RoleIds(cu.roles)[i] == Row(s.userRoles, k)[i]
    {
      RefsNameRoles(s.catalog.roles, s.users, s.userRoles, k, i);
      RoleKeysCanonical(s.catalog, refs[i].uuid);
      CanonicalParses(refs[i].uuid);
    }
  }

  lemma RowAsLong(s: Snapshot, k: string)
    requires Inv(s) && k in s.users
    ensures |Row(s.userRoles, k)| == |s.users[k].rbacRoles|
  {
    hide CatalogOk, IndexesAgree, IdsIssued, MembersAgree, AllUsersComplete, PermissionsIndexed;
    assert RefsAgree(s.catalog.roles, s.users[k].rbacRoles, Row(s.userRoles, k));
  }

  lemma PrintedIdFinds(s: Snapshot, k: string)
    requires Inv(s) && k in s.users
    ensures UserOf(s, Itoa(s.users[k].id)) == Some(s.users[k]) && s.users[k].uuid == k && IsDecimal(Itoa(s.users[k].id))
  {
    hide Inv, UserOf, IsDecimal, Itoa;
    KeyedByPrintedId(s, k, Itoa(s.users[k].id));
  }

  lemma SyncedRolesAreHeld(s: Snapshot, k: string, role: string)
    requires Inv(s) && k in s.users
    ensures GetUsers(s).Ok?
    ensures RoleSynced(GetUsers(s).value, Itoa(s.users[k].id), role) <==> role in Row(s.userRoles, k)
  {
    hide Inv, GetUsers, DecodeUser, Itoa, RoleReported, UserResource, RoleIds, UserOf, IsDecimal, Row;
    UserListRead(s);
    OrderIsUsers(s);
    var us, user := GetUsers(s).value, Itoa(s.users[k].id);
    forall i | 0 <= i < |us|
      ensures RoleReported(UserResource(us[i]), user, role) <==>
              s.order[i] == k && role in Row(s.userRoles, k)
    {
      var k' := s.order[i];
      RoleGrantsOfUser(us[i], user, role);
      DecodedIdentity(s.users[k'], us[i]);
      RolesRead(s, k', us[i]);
      PrintedIdFinds(s, k);
      PrintedIdFinds(s, k');
    }
    var i :| 0 <= i < |s.order| && s.order[i] == k;
    assert RoleReported(UserResource(us[i]), user, role) <==> role in Row(s.userRoles, k);
  }

  /** For every live user and every role, sync reports the assignment exactly when Grant finds it
      already there and exactly when Revoke does not find it already gone. */
  lemma RoleSyncAgrees(e: bool, s: Snapshot, k: string, role: string)
    requires Inv(s) && k in s.users
    ensures GetUsers(s).Ok?
    ensures var user := Itoa(s.users[k].id);
      var synced := RoleSynced(GetUsers(s).value, user, role);
      && (synced <==> Complete(e, RoleGrant(user, role), s).1 == AlreadyExists)
      && (synced <==> Complete(e, RoleRevoke(user, role), s).1 != AlreadyRevoked)
  {
    hide Inv, Complete, Effect, GetUsers, UserOf, RoleSynced, Floor, IsDecimal, Atoi, Itoa;
    var user := Itoa(s.users[k].id);
    SyncedRolesAreHeld(s, k, role);
    PrintedIdFinds(s, k);
    CompleteMeans(e, RoleGrant(user, role), s);
    CompleteMeans(e, RoleRevoke(user, role), s);
  }
}
