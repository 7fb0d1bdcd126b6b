/** What every request keeps: the redundant copies of the server's facts agree. */
module Invariants {
  import opened Wrappers
  import opened Sequences
  import opened Uuids
  import opened Directory
  import Text

  // ----- The invariant --------------------------------------------------------------------

  /** A group's identifiers: canonical, unlike any UUID that is handed out to a user, and with an
      ID that fits Go's int, so that its decimal text parses back. */
  ghost predicate GroupOk(g: Group)
  {
    && Canonical(g.uuid)
    && !(UUID_PREFIX <= g.uuid)
    && Text.MIN_INT <= g.id <= Text.MAX_INT
    && (g.uuid == ALL_USERS ==> g.membershipFixed)
  }

  ghost predicate CatalogOk(c: Catalog)
  {
    && (forall g :: g in c.groupList ==> g.id in c.groupsByID && c.groupsByID[g.id] == g && GroupOk(g))
    && (forall i :: i in c.groupsByID ==> c.groupsByID[i].id == i && c.groupsByID[i] in c.groupList)
    && (forall g, h :: g in c.groupList && h in c.groupList && g.uuid == h.uuid ==> g == h)
    && NoDuplicates(c.groupList)
    && ALL_USERS in GroupUuids(c)
    && (forall r :: r in c.roleList ==> r.uuid in c.roles && c.roles[r.uuid] == r)
    && (forall k :: k in c.roles ==> c.roles[k].uuid == k && Canonical(k))
  }

  /** users, usersByID and userList hold the same users, keyed by their own UUID and ID. */
  ghost predicate IndexesAgree(users: map<string, User>, byID: map<int, string>, order: seq<string>)
  {
    && (forall k :: k in users ==> users[k].uuid == k && users[k].id in byID && byID[users[k].id] == k)
    && (forall i :: i in byID ==> byID[i] in users && users[byID[i]].id == i)
    && NoDuplicates(order)
    && (forall k :: k in order <==> k in users)
  }

  /** The user's ID has been handed out, and its UUID is either the one made from that ID or one
      that is made from no ID at all. */
  ghost predicate Issued(uuid: string, id: int, next: nat)
  {
    && 0 <= id <= next
    && Canonical(uuid)
    && (uuid == FormatUuid(id) || !(UUID_PREFIX <= uuid))
  }

  ghost predicate IdsIssued(users: map<string, User>, next: nat, groups: set<string>)
  {
    && next < CAPACITY
    && forall k :: k in users ==> Issued(k, users[k].id, next) && k !in groups
  }

  ghost predicate MembersAgree(groups: set<string>, users: map<string, User>, members: map<string, seq<string>>)
  {
    && (forall g :: g in members ==> g in groups && NoDuplicates(members[g]))
    && (forall g, u :: g in members && u in members[g] ==> u in users && g in users[u].groupUUIDs)
    && (forall u :: u in users ==> NoDuplicates(users[u].groupUUIDs))
    && (forall u, g :: u in users && g in users[u].groupUUIDs ==> g in members && u in members[g])
  }

  ghost predicate CountsAgree(s: Snapshot)
  {
    s.counts == MemberCounts(s.catalog, s.members)
  }

  function RoleUuids(refs: seq<RbacRole>): (uuids: seq<string>)
    ensures |uuids| == |refs|
  {
    seq(|refs|, i requires 0 <= i < |refs| => refs[i].uuid)
  }

  /** The role list on the user and the edge table say the same, and name existing roles. */
  ghost predicate RefsAgree(roles: map<string, Role>, refs: seq<RbacRole>, row: seq<string>)
  {
    && RoleUuids(refs) == row
    && forall r :: r in refs ==> r.uuid in roles && roles[r.uuid].name == r.name
  }

  ghost predicate RolesAgree(roles: map<string, Role>, users: map<string, User>, userRoles: map<string, seq<string>>)
  {
    && (forall u :: u in userRoles ==> u in users)
    && (forall u :: u in users ==> RefsAgree(roles, users[u].rbacRoles, Row(userRoles, u)))
  }

  ghost predicate AllUsersComplete(users: map<string, User>, members: map<string, seq<string>>)
  {
    forall u :: u in Row(members, ALL_USERS) <==> u in users
  }

  ghost predicate PermissionsIndexed(permissions: map<string, Permission>, order: seq<string>)
  {
    && (forall p :: p in permissions ==> permissions[p].uuid == p && Canonical(p))
    && NoDuplicates(order)
    && (forall p :: p in order <==> p in permissions)
  }

  ghost predicate Inv(s: Snapshot)
  {
    && CatalogOk(s.catalog)
    && IndexesAgree(s.users, s.byID, s.order)
    && IdsIssued(s.users, s.nextUserID, GroupUuids(s.catalog))
    && MembersAgree(GroupUuids(s.catalog), s.users, s.members)
    && CountsAgree(s)
    && RolesAgree(s.catalog.roles, s.users, s.userRoles)
    && AllUsersComplete(s.users, s.members)
    && PermissionsIndexed(s.permissions, s.permissionOrder)
  }

  // ----- Lookups under the invariant ------------------------------------------------------

  /** Lookup by ID finds a user that is filed under its own UUID and that very ID. */
  lemma UserByIDFound(s: Snapshot, id: int)
    requires IndexesAgree(s.users, s.byID, s.order)
    ensures UserByID(s, id).Some? <==> id in s.byID
    ensures UserByID(s, id).Some? ==>
      var u := UserByID(s, id).value; u.id == id && u.uuid in s.users && s.users[u.uuid] == u && s.byID[id] == u.uuid
  {}

  lemma GroupByIDFound(s: Snapshot, id: int)
    requires CatalogOk(s.catalog)
    ensures GroupByID(s, id).Some? ==>
      var g := GroupByID(s, id).value;
          g.id == id && g.uuid in GroupUuids(s.catalog) && g in s.catalog.groupList && GroupOk(g)
  {}

  // ----- Replacing one user ---------------------------------------------------------------

  ghost predicate SameKeys(users: map<string, User>, u: User)
  {
    u.uuid in users && users[u.uuid].uuid == u.uuid && users[u.uuid].id == u.id
  }

  lemma PutKeepsIndexes(users: map<string, User>, byID: map<int, string>, order: seq<string>, u: User)
    requires IndexesAgree(users, byID, order) && SameKeys(users, u)
    ensures IndexesAgree(users[u.uuid := u], byID, order)
  {}

  lemma PutKeepsIssued(users: map<string, User>, next: nat, groups: set<string>, u: User)
    requires IdsIssued(users, next, groups) && SameKeys(users, u)
    ensures IdsIssued(users[u.uuid := u], next, groups)
  {}

  lemma PutKeepsAllUsers(users: map<string, User>, members: map<string, seq<string>>, u: User)
    requires AllUsersComplete(users, members) && SameKeys(users, u)
    ensures AllUsersComplete(users[u.uuid := u], members)
  {}

  lemma PutKeepsMembers(groups: set<string>, users: map<string, User>, members: map<string, seq<string>>, u: User)
    requires MembersAgree(groups, users, members) && SameKeys(users, u)
    requires users[u.uuid].groupUUIDs == u.groupUUIDs
    ensures MembersAgree(groups, users[u.uuid := u], members)
  {}

  lemma PutKeepsRoles(roles: map<string, Role>, users: map<string, User>, userRoles: map<string, seq<string>>, u: User)
    requires RolesAgree(roles, users, userRoles) && SameKeys(users, u)
    requires users[u.uuid].rbacRoles == u.rbacRoles
    ensures RolesAgree(roles, users[u.uuid := u], userRoles)
  {}

  /** Setting the flag, the name, the email or the permissions touches no shared fact. */
  lemma PutUserKeepsInv(s: Snapshot, u: User)
    requires Inv(s) && SameKeys(s.users, u)
    requires s.users[u.uuid].groupUUIDs == u.groupUUIDs && s.users[u.uuid].rbacRoles == u.rbacRoles
    ensures Inv(PutUser(s, u))
  {
    hide CatalogOk, IndexesAgree, IdsIssued, MembersAgree, RolesAgree, AllUsersComplete, PermissionsIndexed;
    PutKeepsIndexes(s.users, s.byID, s.order, u);
    PutKeepsIssued(s.users, s.nextUserID, GroupUuids(s.catalog), u);
    PutKeepsAllUsers(s.users, s.members, u);
    PutKeepsMembers(GroupUuids(s.catalog), s.users, s.members, u);
    PutKeepsRoles(s.catalog.roles, s.users, s.userRoles, u);
  }

  // ----- CreateUser -----------------------------------------------------------------------

  /** The UUID that CreateUser is about to hand out is in no use while the counter stays below 16^12. */
  lemma NextUuidIsFresh(users: map<string, User>, next: nat, groups: set<string>)
    requires IdsIssued(users, next, groups) && next + 1 < CAPACITY
    ensures FormatUuid(next + 1) !in users
  {
    var uuid := FormatUuid(next + 1);
    if uuid in users {
      assert Issued(uuid, users[uuid].id, next);
      FormatUuidCollision(next + 1, users[uuid].id);
      assert false;
    }
  }

  lemma CreatedUuidIsNoGroup(c: Catalog, n: nat)
    requires CatalogOk(c)
    ensures FormatUuid(n) !in GroupUuids(c)
  {
    assert UUID_PREFIX <= FormatUuid(n);
  }

  lemma IdsAreIssued(users: map<string, User>, byID: map<int, string>, order: seq<string>, next: nat,
      groups: set<string>)
    requires IndexesAgree(users, byID, order) && IdsIssued(users, next, groups)
    ensures forall id :: id in byID ==> 0 <= id <= next
  {
    forall id | id in byID
      ensures 0 <= id <= next
    {
      assert Issued(byID[id], id, next);
    }
  }

  lemma AddKeepsIndexes(users: map<string, User>, byID: map<int, string>, order: seq<string>, u: User)
    requires IndexesAgree(users, byID, order) && u.uuid !in users && u.id !in byID
    ensures IndexesAgree(users[u.uuid := u], byID[u.id := u.uuid], order + [u.uuid])
  {
    NoDuplicatesAppend(order, u.uuid);
  }

  lemma AddKeepsIssued(users: map<string, User>, next: nat, groups: set<string>, u: User)
    requires IdsIssued(users, next, groups) && next + 1 < CAPACITY
    requires u.id == next + 1 && u.uuid == FormatUuid(next + 1) && u.uuid !in groups
    ensures IdsIssued(users[u.uuid := u], next + 1, groups)
  {
    FormatUuidIsCanonical(next + 1);
    forall k | k in users
      ensures Issued(k, users[k].id, next + 1)
    {
      assert Issued(k, users[k].id, next);
    }
  }

  lemma AddKeepsMembers(groups: set<string>, users: map<string, User>, members: map<string, seq<string>>, u: User)
    requires MembersAgree(groups, users, members) && ALL_USERS in groups
    requires u.uuid !in users && u.groupUUIDs == [ALL_USERS]
    ensures MembersAgree(groups, users[u.uuid := u], members[ALL_USERS := Row(members, ALL_USERS) + [u.uuid]])
  {
    assert u.uuid !in Row(members, ALL_USERS);
    NoDuplicatesAppend(Row(members, ALL_USERS), u.uuid);
  }

  lemma AddKeepsRoles(roles: map<string, Role>, users: map<string, User>, userRoles: map<string, seq<string>>, u: User)
    requires RolesAgree(roles, users, userRoles) && u.uuid !in users && u.rbacRoles == []
    ensures RolesAgree(roles, users[u.uuid := u], userRoles)
  {
    assert RoleUuids([]) == [];
  }

  lemma CreateUserKeepsInv(s: Snapshot, username: string, email: string, name: string, permissions: int)
    requires Inv(s) && s.nextUserID + 1 < CAPACITY
    ensures Inv(CreateUser(s, username, email, name, permissions))
  {
    hide CatalogOk, IndexesAgree, IdsIssued, MembersAgree, RolesAgree, PermissionsIndexed, FormatUuid;
    var u := NewUser(s.nextUserID + 1, username, email, name, permissions);
    var groups := GroupUuids(s.catalog);
    NextUuidIsFresh(s.users, s.nextUserID, groups);
    IdsAreIssued(s.users, s.byID, s.order, s.nextUserID, groups);
    CreatedUuidIsNoGroup(s.catalog, s.nextUserID + 1);
    AllUsersIsGroup(s.catalog);
    AddKeepsIndexes(s.users, s.byID, s.order, u);
    AddKeepsIssued(s.users, s.nextUserID, groups, u);
    AddKeepsMembers(groups, s.users, s.members, u);
    AddKeepsRoles(s.catalog.roles, s.users, s.userRoles, u);
  }

  lemma AllUsersIsGroup(c: Catalog)
    requires CatalogOk(c)
    ensures ALL_USERS in GroupUuids(c)
  {}

  // ----- DeleteUser -----------------------------------------------------------------------

  lemma DropKeepsIndexes(users: map<string, User>, byID: map<int, string>, order: seq<string>, u: User)
    requires IndexesAgree(users, byID, order) && u.uuid in users && users[u.uuid] == u
    ensures IndexesAgree(users - {u.uuid}, byID - {u.id}, Without(order, u.uuid))
  {
    WithoutMembers(order, u.uuid);
    WithoutNoDuplicates(order, u.uuid);
  }

  lemma DropKeepsMembers(groups: set<string>, users: map<string, User>, members: map<string, seq<string>>, uuid: string)
    requires MembersAgree(groups, users, members)
    ensures MembersAgree(groups, users - {uuid}, DropFromRows(members, uuid))
  {
    forall g | g in members
      ensures NoDuplicates(DropFromRows(members, uuid)[g])
      ensures forall x :: x in DropFromRows(members, uuid)[g] <==> x in members[g] && x != uuid
    {
      WithoutMembers(members[g], uuid);
      WithoutNoDuplicates(members[g], uuid);
    }
  }

  lemma DropKeepsAllUsers(users: map<string, User>, members: map<string, seq<string>>, uuid: string)
    requires AllUsersComplete(users, members)
    ensures AllUsersComplete(users - {uuid}, DropFromRows(members, uuid))
  {
    WithoutMembers(Row(members, ALL_USERS), uuid);
  }

  lemma DropKeepsRoles(roles: map<string, Role>, users: map<string, User>, userRoles: map<string, seq<string>>,
      uuid: string)
    requires RolesAgree(roles, users, userRoles)
    ensures RolesAgree(roles, users - {uuid}, userRoles - {uuid})
  {}

  lemma DropKeepsIssued(users: map<string, User>, next: nat, groups: set<string>, uuid: string)
    requires IdsIssued(users, next, groups)
    ensures IdsIssued(users - {uuid}, next, groups)
  {}

  lemma DeleteUserKeepsInv(s: Snapshot, id: int)
    requires Inv(s)
    ensures Inv(DeleteUser(s, id).0)
  {
    UserByIDFound(s, id);
    hide CatalogOk, IndexesAgree, IdsIssued, MembersAgree, RolesAgree, AllUsersComplete, PermissionsIndexed;
    if UserByID(s, id).Some? {
      var u := UserByID(s, id).value;
      DropKeepsIndexes(s.users, s.byID, s.order, u);
      DropKeepsIssued(s.users, s.nextUserID, GroupUuids(s.catalog), u.uuid);
      DropKeepsMembers(GroupUuids(s.catalog), s.users, s.members, u.uuid);
      DropKeepsRoles(s.catalog.roles, s.users, s.userRoles, u.uuid);
      DropKeepsAllUsers(s.users, s.members, u.uuid);
    }
  }

  // ----- Memberships ----------------------------------------------------------------------

  lemma JoinKeepsMembers(groups: set<string>, users: map<string, User>, members: map<string, seq<string>>, u: User,
      g: string)
    requires MembersAgree(groups, users, members) && u.uuid in users && users[u.uuid] == u
    requires g in groups && u.uuid !in Row(members, g)
    ensures g !in u.groupUUIDs
    ensures MembersAgree(groups, users[u.uuid := u.(groupUUIDs := u.groupUUIDs + [g])],
                         members[g := Row(members, g) + [u.uuid]])
  {
    NoDuplicatesAppend(Row(members, g), u.uuid);
    NoDuplicatesAppend(u.groupUUIDs, g);
  }

  lemma LeaveKeepsMembers(groups: set<string>, users: map<string, User>, members: map<string, seq<string>>, u: User,
      g: string)
    requires MembersAgree(groups, users, members) && u.uuid in users && users[u.uuid] == u
    requires u.uuid in Row(members, g)
    ensures MembersAgree(groups, users[u.uuid := u.(groupUUIDs := Without(u.groupUUIDs, g))],
                         members[g := Without(Row(members, g), u.uuid)])
  {
    WithoutMembers(members[g], u.uuid);
    WithoutNoDuplicates(members[g], u.uuid);
    WithoutMembers(u.groupUUIDs, g);
    WithoutNoDuplicates(u.groupUUIDs, g);
  }

  lemma JoinKeepsAllUsers(users: map<string, User>, members: map<string, seq<string>>, uuid: string, g: string)
    requires AllUsersComplete(users, members) && uuid in users
    ensures AllUsersComplete(users, members[g := Row(members, g) + [uuid]])
  {}

  lemma OtherRowKeepsAllUsers(users: map<string, User>, members: map<string, seq<string>>, g: string, row: seq<string>)
    requires AllUsersComplete(users, members) && g != ALL_USERS
    ensures AllUsersComplete(users, members[g := row])
  {
    assert Row(members[g := row], ALL_USERS) == Row(members, ALL_USERS);
  }

  lemma AddGroupMemberKeepsInv(s: Snapshot, groupID: int, userID: int)
    requires Inv(s)
    ensures Inv(AddGroupMember(s, groupID, userID).0)
  {
    UserByIDFound(s, userID);
    GroupByIDFound(s, groupID);
    hide CatalogOk, IndexesAgree, IdsIssued, MembersAgree, RolesAgree, AllUsersComplete, PermissionsIndexed;
    var (s', already, found) := AddGroupMember(s, groupID, userID);
    if found && !already {
      var u, g := UserByID(s, userID).value, GroupByID(s, groupID).value;
      var groups := GroupUuids(s.catalog);
      JoinKeepsMembers(groups, s.users, s.members, u, g.uuid);
      var u' := u.(groupUUIDs := u.groupUUIDs + [g.uuid]);
      PutKeepsIndexes(s.users, s.byID, s.order, u');
      PutKeepsIssued(s.users, s.nextUserID, groups, u');
      PutKeepsRoles(s.catalog.roles, s.users, s.userRoles, u');
      PutKeepsAllUsers(s.users, s.members, u');
      JoinKeepsAllUsers(s.users[u'.uuid := u'], s.members, u.uuid, g.uuid);
    }
  }

  lemma RemoveGroupMemberKeepsInv(s: Snapshot, groupID: int, userID: int)
    requires Inv(s) && !MembershipFixed(s, groupID)
    ensures Inv(RemoveGroupMember(s, groupID, userID).0)
  {
    UserByIDFound(s, userID);
    GroupByIDFound(s, groupID);
    hide CatalogOk, IndexesAgree, IdsIssued, MembersAgree, RolesAgree, AllUsersComplete, PermissionsIndexed;
    var (s', already, found) := RemoveGroupMember(s, groupID, userID);
    if found && !already {
      var u, g := UserByID(s, userID).value, GroupByID(s, groupID).value;
      var groups := GroupUuids(s.catalog);
      LeaveKeepsMembers(groups, s.users, s.members, u, g.uuid);
      var u' := u.(groupUUIDs := Without(u.groupUUIDs, g.uuid));
      PutKeepsIndexes(s.users, s.byID, s.order, u');
      PutKeepsIssued(s.users, s.nextUserID, groups, u');
      PutKeepsRoles(s.catalog.roles, s.users, s.userRoles, u');
      PutKeepsAllUsers(s.users, s.members, u');
      OtherRowKeepsAllUsers(s.users[u'.uuid := u'], s.members, g.uuid, s'.members[g.uuid]);
    }
  }

  // ----- Roles and permissions ------------------------------------------------------------

  lemma AssignKeepsRoles(roles: map<string, Role>, users: map<string, User>, userRoles: map<string, seq<string>>,
                         uuid: string, row: seq<string>)
    requires RolesAgree(roles, users, userRoles) && uuid in users
    requires (forall k :: k in roles ==> roles[k].uuid == k) && (forall r :: r in row ==> r in roles)
    ensures RolesAgree(roles, users[uuid := users[uuid].(rbacRoles := RoleRefs(roles, row))], userRoles[uuid := row])
  {
    assert RoleUuids(RoleRefs(roles, row)) == row;
    assert RefsAgree(roles, RoleRefs(roles, row), row);
  }

  lemma RolesKeyed(c: Catalog)
    requires CatalogOk(c)
    ensures forall k :: k in c.roles ==> c.roles[k].uuid == k
  {}

  lemma UsersKeyed(users: map<string, User>, byID: map<int, string>, order: seq<string>, k: string)
    requires IndexesAgree(users, byID, order) && k in users
    ensures users[k].uuid == k
  {}

  lemma SetUserRolesKeepsInv(s: Snapshot, userUUID: string, roleUUIDs: seq<string>)
    requires Inv(s)
    ensures Inv(SetUserRoles(s, userUUID, roleUUIDs).0)
  {
    hide CatalogOk, IndexesAgree, IdsIssued, MembersAgree, RolesAgree, AllUsersComplete, PermissionsIndexed;
    var (s', found) := SetUserRoles(s, userUUID, roleUUIDs);
    if found {
      RolesKeyed(s.catalog);
      UsersKeyed(s.users, s.byID, s.order, userUUID);
      AssignKeepsRoles(s.catalog.roles, s.users, s.userRoles, userUUID, roleUUIDs);
      var u' := s'.users[userUUID];
      PutKeepsIndexes(s.users, s.byID, s.order, u');
      PutKeepsIssued(s.users, s.nextUserID, GroupUuids(s.catalog), u');
      PutKeepsMembers(GroupUuids(s.catalog), s.users, s.members, u');
      PutKeepsAllUsers(s.users, s.members, u');
    }
  }

  lemma UpdatePermissionKeepsInv(s: Snapshot, uuid: string, name: string, actions: seq<string>,
                                 objects: seq<Subject>, subjects: seq<Subject>)
    requires Inv(s)
    ensures Inv(UpdatePermission(s, uuid, name, actions, objects, subjects).0)
  {
    hide CatalogOk, IndexesAgree, IdsIssued, MembersAgree, RolesAgree, AllUsersComplete;
  }

  lemma SetUserEnabledKeepsInv(s: Snapshot, id: int, enabled: bool)
    requires Inv(s)
    ensures Inv(SetUserEnabled(s, id, enabled).0)
  {
    UserByIDFound(s, id);
    hide Inv;
    var (s', u) := SetUserEnabled(s, id, enabled);
    if u.Some? { PutUserKeepsInv(s, u.value); }
  }

  lemma UpdateUserKeepsInv(s: Snapshot, id: int, name: string, permissions: int, email: string, enabled: Option<bool>)
    requires Inv(s)
    ensures Inv(UpdateUser(s, id, name, permissions, email, enabled).0)
  {
    UserByIDFound(s, id);
    hide Inv;
    var (s', u) := UpdateUser(s, id, name, permissions, email, enabled);
    if u.Some? { PutUserKeepsInv(s, u.value); }
  }

  // ----- Every request --------------------------------------------------------------------

  /** Every request of every handler keeps the copies in agreement, while the counter is below 16^12. */
  lemma HandleKeepsInv(s: Snapshot, request: Request)
    requires Inv(s) && Handle(s, request).0.nextUserID < CAPACITY
    ensures Inv(Handle(s, request).0)
  {
    hide Inv, UpdateUser, DeleteUser, SetUserEnabled, AddGroupMember, RemoveGroupMember, SetUserRoles,
      UpdatePermission;
    match request
    case CreateUserRequest(username, password, email, name, permissions) =>
      if username != "" && password != "" {
        CreateUserKeepsInv(s, username, if email == "" then username else email, name,
                           if permissions == 0 then 16 else permissions);
      }
    case UpdateUserRequest(id, name, permissions, email, enabled) =>
      UpdateUserKeepsInv(s, id, name, permissions, email, enabled);
    case DeleteUserRequest(id) => DeleteUserKeepsInv(s, id);
    case SetEnabledRequest(id, enabled) => SetUserEnabledKeepsInv(s, id, enabled);
    case AddMemberRequest(groupID, userID) => AddGroupMemberKeepsInv(s, groupID, userID);
    case RemoveMemberRequest(groupID, userID) =>
      if !MembershipFixed(s, groupID) { RemoveGroupMemberKeepsInv(s, groupID, userID); }
    case SetRolesRequest(userUUID, roleUUIDs) => SetUserRolesKeepsInv(s, userUUID, roleUUIDs);
    case UpdatePermissionRequest(uuid, name, actions, objects, subjects) =>
      UpdatePermissionKeepsInv(s, uuid, name, actions, objects, subjects);
  }
}
