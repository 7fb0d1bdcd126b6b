/** The states a connector can bring the seeded server into. */
module Reachable {
  import opened Text
  import opened Uuids
  import opened Directory
  import opened Invariants
  import opened Wire
  import opened Protocol
  import opened Reading
  import opened Sync
  import opened Subjects
  import opened Agreement
  import opened Typing
  import opened Access
  import opened ConnectorRuns
  import opened SeedUuids
  import opened Tables
  import opened Seeds

  // ----- The seed's subjects --------------------------------------------------------------

  lemma NamedSubjectTyped(s: Snapshot, x: Subject)
    requires Canonical(x.uuid)
    requires (x.typ == "User" && x.uuid in s.users) || (x.typ == "UserGroup" && x.uuid in GroupUuids(s.catalog))
    ensures SubjectTyped(s, x)
  {
    hide Canonical, Parse, Render, Normal;
    CanonicalParses(x.uuid);
    NormalForm(x);
    NotEmpty(x.uuid);
  }

  lemma NotEmpty(uuid: string)
    requires Canonical(uuid)
    ensures uuid != ""
  {}

  lemma ContainerSubjectTyped(s: Snapshot, x: Subject)
    requires x.uuid == "" && x.typ != "User" && x.typ != "UserGroup" && Inv(s)
    ensures SubjectTyped(s, x)
  {
    hide Inv, CatalogOk, Canonical;
    NilIsNoUser(s);
    assert UUID_PREFIX[14] == '4' && ALL_USERS[14] == '0';
  }

  lemma NilIsNoUser(s: Snapshot)
    requires Inv(s)
    ensures ALL_USERS !in s.users
  {
    hide IndexesAgree, MembersAgree, RolesAgree, AllUsersComplete, PermissionsIndexed, Issued, Canonical;
  }

  lemma SeedUserKnown(k: string)
    requires k in OrderOf(USER_LIST)
    ensures k in Seed().users
  {
    hide USER_LIST, MEMBERS, CATALOG, PERMISSIONS;
    SeedIndexesAgree();
  }

  lemma SeedOrder()
    ensures OrderOf(USER_LIST) == [ALICE, BOB, CAROL, DAVE, EVE, FRANK]
    ensures Seed().catalog == CATALOG && Seed().permissions == IndexBy(PERMISSIONS, UuidOfPermission)
  {
    hide ALICE, BOB, CAROL, DAVE, EVE, FRANK, MEMBERS, CATALOG, PERMISSIONS;
  }

  lemma EngineeringIsGroup()
    ensures GROUP_ENG in GroupUuids(CATALOG)
  {
    assert ENGINEERING in GROUP_LIST by { assert GROUP_LIST[1] == ENGINEERING; }
  }

  lemma UnnamedDecodes(o: Subject)
    requires o.uuid == ""
    ensures DecodeObject(o).Some?
  {}

  lemma NamedDecodes(o: Subject)
    requires Canonical(o.uuid)
    ensures DecodeObject(o).Some?
  {
    hide Parse, Render, Canonical;
    CanonicalParses(o.uuid);
  }

  lemma AssetsTyped(s: Snapshot)
    requires ALICE in s.users && GROUP_ENG in GroupUuids(s.catalog)
    ensures PermissionTyped(s, PERMISSIONS[0])
  {
    hide SubjectTyped, DecodeObject, Canonical, GroupUuids, ALICE, GROUP_ENG;
    AliceCanonical();
    GroupEngCanonical();
    UnnamedDecodes(Subject("AllAssets", "", ""));
    NamedSubjectTyped(s, Subject("User", ALICE, "alice@example.com"));
    NamedSubjectTyped(s, Subject("UserGroup", GROUP_ENG, "Engineering"));
  }

  lemma TagTyped(s: Snapshot)
    requires EVE in s.users
    ensures PermissionTyped(s, PERMISSIONS[1])
  {
    hide SubjectTyped, DecodeObject, Canonical, GroupUuids, EVE, TAG_LOCATION;
    EveCanonical();
    TagLocationCanonical();
    NamedDecodes(Subject("Tag", TAG_LOCATION, "Location:Headquarters"));
    NamedSubjectTyped(s, Subject("User", EVE, "eve@example.com"));
  }

  lemma ContainerWideTyped(s: Snapshot)
    requires Inv(s) && BOB in s.users
    ensures PermissionTyped(s, PERMISSIONS[2]) && PermissionTyped(s, PERMISSIONS[3])
  {
    hide Inv, SubjectTyped, DecodeObject, Canonical, GroupUuids, BOB;
    BobCanonical();
    UnnamedDecodes(Subject("AllAssets", "", ""));
    ContainerSubjectTyped(s, Subject("AllUsers", "", ""));
    ContainerSubjectTyped(s, Subject("AllAdmins", "", ""));
    NamedSubjectTyped(s, Subject("User", BOB, "bob@example.com"));
  }

  lemma SeedNames()
    ensures ALICE in Seed().users && BOB in Seed().users && EVE in Seed().users
        && GROUP_ENG in GroupUuids(Seed().catalog)
  {
    hide ALICE, BOB, CAROL, DAVE, EVE, FRANK, GROUP_ENG, USER_LIST, MEMBERS, PERMISSIONS, Seed;
    SeedOrder();
    EngineeringIsGroup();
    SeedUserKnown(ALICE);
    SeedUserKnown(BOB);
    SeedUserKnown(EVE);
  }

  /** In the seed every permission subject means what its type says. */
  lemma SeedPermissionsTyped()
    ensures PermissionsTyped(Seed())
  {
    hide Inv, PermissionTyped, Seed, PERMISSIONS;
    SeedSatisfiesInv();
    SeedNames();
    AssetsTyped(Seed());
    TagTyped(Seed());
    ContainerWideTyped(Seed());
    FourPermissions();
    SeedPermissionIsListed();
  }

  lemma FourPermissions()
    ensures |PERMISSIONS| == 4
  {}

  lemma SeedPermissionIsListed()
    ensures forall p :: p in Seed().permissions ==> exists i ::
        0 <= i < |PERMISSIONS| && Seed().permissions[p] == PERMISSIONS[i]
  {
    hide USER_LIST, MEMBERS, CATALOG, PERMISSIONS;
    PermissionKeysDistinct();
    IndexByLookup(PERMISSIONS, UuidOfPermission);
  }

  // ----- Reachable states -----------------------------------------------------------------

  /** No user holds two roles. */
  predicate AtMostOneRole(s: Snapshot)
  {
    forall k :: k in s.userRoles ==> |s.userRoles[k]| <= 1
  }

  const FRESH_WORLD: World := World(Seed(), [], [])

  /** Some run of the connector, begun on the seeded server, leaves it in this state, with the user
      counter below 16^12. */
  ghost predicate IsReachable(e: bool, s: Snapshot)
  {
    s.nextUserID < CAPACITY && exists events :: Live(e, FRESH_WORLD, events).server == s
  }

  /** The seed is reachable, and from a reachable state every operation leads to a reachable one. */
  lemma OperationsReach(e: bool, s: Snapshot, op: Op)
    requires IsReachable(e, s) && Complete(e, op, s).0.nextUserID < CAPACITY
    ensures IsReachable(e, Seed()) && IsReachable(e, Complete(e, op, s).0)
  {
    hide Live, Seed, Complete;
    SeedIsFresh(e);
    var events :| Live(e, FRESH_WORLD, events).server == s;
    var w := Live(e, FRESH_WORLD, events);
    BegunAndDone(e, w, op);
    var more := [Begin(op)] + Turns(|w.ops|, 6);
    LiveInParts(e, FRESH_WORLD, events, more);
    assert Live(e, FRESH_WORLD, events + more).server == Complete(e, op, s).0;
  }

  lemma SeedIsFresh(e: bool)
    ensures Live(e, FRESH_WORLD, []).server == Seed() && Seed().nextUserID < CAPACITY
  {
    hide USER_LIST, MEMBERS, CATALOG, PERMISSIONS;
  }

  lemma SeedRolesSingle()
    ensures AtMostOneRole(Seed())
  {
    hide MEMBERS, CATALOG, PERMISSIONS, ALICE, BOB, CAROL, DAVE, EVE, FRANK;
    UserKeysDistinct();
    FiledRolesSingle(USER_LIST);
  }

  lemma FiledRolesSingle(list: seq<User>)
    requires KeysDistinct(list, UuidOfUser) && forall u :: u in list ==> |u.rbacRoles| <= 1
    ensures forall k :: k in RoleRowsOf(list) ==> |RoleRowsOf(list)[k]| <= 1
  {
    IndexByLookup(list, UuidOfUser);
  }

  /** Over a run, each user's role list is either untouched or exactly one role. */
  lemma {:induction false} RolesOverRun(e: bool, w: World, events: seq<Event>, k: string)
    requires Sound(w) && Live(e, w, events).server.nextUserID < CAPACITY
    ensures RolesReplaced(w.server, Live(e, w, events).server, k)
    decreases |events|
  {
    hide Inv, PermissionsTyped, PcTyped, Step, ConnectorRequest, Handle, Fits, OnlyGrows;
    if events != [] {
      var next := Happen(e, w, events[0]);
      CounterNeverFalls(e, next, events[1..]);
      HappenKeepsSound(e, w, events[0]);
      RolesOverRun(e, next, events[1..], k);
      if events[0].Proceed? && events[0].i < |w.ops| {
        var i := events[0].i;
        var request := StepRequest(e, w.ops[i], w.pcs[i], w.server);
        if request.Some? { RequestGrows(w.server, w.pcs[i], request.value, k); }
      }
    }
  }

  lemma FreshIsSound()
    ensures Sound(FRESH_WORLD)
  {
    hide Inv, PermissionsTyped, Seed;
    SeedSatisfiesInv();
    SeedPermissionsTyped();
  }

  /** In every reachable state the copies agree, every permission subject is well typed and nobody
      holds two roles. */
  lemma ReachableIsSound(e: bool, s: Snapshot)
    requires IsReachable(e, s)
    ensures Inv(s) && PermissionsTyped(s) && AtMostOneRole(s)
  {
    hide Inv, PermissionsTyped, Live, Seed;
    var events :| Live(e, FRESH_WORLD, events).server == s;
    FreshIsSound();
    LiveKeepsSound(e, FRESH_WORLD, events);
    SeedRolesSingle();
    forall k | k in s.userRoles
      ensures |s.userRoles[k]| <= 1
    {
      RolesOverRun(e, FRESH_WORLD, events, k);
    }
  }

  /** A user who has had a role never drops to none: from any reachable state on, whatever the
      connector does, a user with a role keeps exactly one. */
  lemma RolesNeverDropToNone(e: bool, w: World, events: seq<Event>, k: string)
    requires Sound(w) && AtMostOneRole(w.server) && Live(e, w, events).server.nextUserID < CAPACITY
    requires |Row(w.server.userRoles, k)| == 1
    ensures |Row(Live(e, w, events).server.userRoles, k)| == 1
  {
    hide Sound, Live;
    RolesOverRun(e, w, events, k);
  }

  /** Permission sync is total over a run: the permissions are read at one moment, the users at a later
      one and the groups later still, with any requests of the connector in between, and the list is
      built, with one resource per permission. So are the user list and every group's member list. */
  lemma SyncIsTotal(e: bool, first: seq<Event>, second: seq<Event>, third: seq<Event>, g: Group)
    requires var w := Live(e, FRESH_WORLD, first);
      var later := Live(e, w, second);
      var last := Live(e, later, third);
      last.server.nextUserID < CAPACITY && g in last.server.catalog.groupList
    ensures var w := Live(e, FRESH_WORLD, first);
      var later := Live(e, w, second);
      var last := Live(e, later, third);
      var list := SyncedAcross(w.server, later.server, last.server);
      && list.Ok? && |list.value| == |w.server.permissionOrder|
      && SyncedUsers(last.server).Ok? && |SyncedUsers(last.server).value| == |last.server.order|
      && SyncedMembers(last.server, Itoa(g.id)).Ok?
  {
    hide Inv, PermissionsTyped, PcTyped, SyncedAcross, SyncedMembers, GetUsers, GroupOf, Itoa, Live, Seed;
    var w := Live(e, FRESH_WORLD, first);
    var later := Live(e, w, second);
    var last := Live(e, later, third);
    FreshIsSound();
    CounterNeverFalls(e, later, third);
    CounterNeverFalls(e, w, second);
    LiveKeepsSound(e, FRESH_WORLD, first);
    LiveKeepsSound(e, w, second);
    LiveKeepsSound(e, later, third);
    TypedSyncSucceeds(w.server, later.server, last.server);
    UserListRead(last.server);
    GroupByPrintedId(last.server, g);
    SyncedMembersAreListed(last.server, Itoa(g.id), "");
  }

  /** In every reachable state sync reports a permission for exactly the live users who hold it on the
      server, by their printed IDs. */
  lemma ReachableAccess(e: bool, s: Snapshot, i: nat, user: string)
    requires IsReachable(e, s) && i < |s.permissionOrder|
    ensures SyncedPermissions(s).Ok? && i < |SyncedPermissions(s).value| && s.permissionOrder[i] in s.permissions
    ensures Reported(s, SyncedPermissions(s).value[i], user) <==>
            exists k :: k in s.users && Itoa(s.users[k].id) == user && Holds(s, s.permissionOrder[i], k)
  {
    hide Inv, PermissionsTyped, IsReachable, SyncedPermissions, Reported, Holds, Itoa;
    ReachableIsSound(e, s);
    EffectiveAccess(s, i, user);
  }

  /** In every reachable state sync and provisioning agree on direct grants of permissions. */
  lemma ReachablePermissionSync(e: bool, s: Snapshot, i: nat, k: string)
    requires IsReachable(e, s) && i < |s.permissionOrder| && k in s.users
    ensures SyncedPermissions(s).Ok? && i < |SyncedPermissions(s).value|
    ensures var r, p := SyncedPermissions(s).value[i], s.permissionOrder[i];
      var user := ResourceId("user", Itoa(s.users[k].id));
      var synced := Reports(PermissionGrants(r), r.id, "assigned", user);
      && (synced <==> Complete(e, PermissionGrant(user.typ, user.id, p), s).1 == AlreadyExists)
      && (synced <==> Complete(e, PermissionRevoke(user.typ, user.id, p), s).1 != AlreadyRevoked)
  {
    hide Inv, Reports, PermissionsTyped, IsReachable, SyncedPermissions, PermissionGrants, Complete, Itoa;
    ReachableIsSound(e, s);
    PermissionSyncAgrees(e, s, i, k);
  }

  /** In every reachable state sync and provisioning agree on group memberships and on roles. */
  lemma ReachableMembershipSync(e: bool, s: Snapshot, g: Group, user: string)
    requires IsReachable(e, s) && g in s.catalog.groupList
    ensures SyncedMembers(s, Itoa(g.id)).Ok?
    ensures var group := Itoa(g.id);
      var synced := MemberSynced(s, group, user);
      && (synced <==> Complete(e, GroupGrant(user, group), s).1 == AlreadyExists)
      && (synced <==> Complete(e, GroupRevoke(user, group), s).1 != AlreadyRevoked)
  {
    hide Inv, PermissionsTyped, IsReachable, SyncedMembers, Reports, GroupOf, Complete, Itoa;
    ReachableIsSound(e, s);
    GroupByPrintedId(s, g);
    GroupSyncAgrees(e, s, Itoa(g.id), user);
  }

  lemma ReachableRoleSync(e: bool, s: Snapshot, k: string, role: string)
    requires IsReachable(e, s) && k in s.users
    ensures GetUsers(s).Ok?
    ensures var user := Itoa(s.users[k].id);
      var synced := RoleSynced(GetUsers(s).value, user, role);
      && (synced <==> Complete(e, RoleGrant(user, role), s).1 == AlreadyExists)
      && (synced <==> Complete(e, RoleRevoke(user, role), s).1 != AlreadyRevoked)
  {
    hide Inv, PermissionsTyped, IsReachable, GetUsers, RoleSynced, Complete, Itoa;
    ReachableIsSound(e, s);
    RoleSyncAgrees(e, s, k, role);
  }

  /** The seed itself has a user without a role, so that not every reachable state gives every user
      exactly one. */
  lemma SeedUserWithoutRole()
    ensures FRANK in Seed().users && Row(Seed().userRoles, FRANK) == []
  {
    hide MEMBERS, CATALOG, PERMISSIONS, ALICE, BOB, CAROL, DAVE, EVE, FRANK;
    UserKeysDistinct();
    IndexByLookup(USER_LIST, UuidOfUser);
    assert USER_LIST[5] == FRANK_USER && UuidOfUser(FRANK_USER) == FRANK;
  }
}
