/** Enabling accounts changes no answer and commutes with every write: that is why the account an
    operation re-enables may be re-enabled at any later time. */
module Commutation {
  import opened Sequences
  import opened Text
  import opened Uuids
  import opened Directory
  import opened Invariants
  import opened Wire
  import opened Protocol
  import opened Reading
  import opened Meaning

  /** Equal up to the enabled flag. */
  predicate SameButEnabled(a: User, b: User)
  {
    a == b.(enabled := a.enabled)
  }

  lemma EnabledUserOf(s: Snapshot, ids: set<int>, user: string)
    ensures UserOf(EnableUsers(s, ids), user).Some? <==> UserOf(s, user).Some?
    ensures UserOf(s, user).Some? ==> SameButEnabled(UserOf(EnableUsers(s, ids), user).value, UserOf(s, user).value)
  {
    hide Atoi;
  }

  lemma AnswerIgnoresEnabling(op: Op, s: Snapshot, ids: set<int>)
    requires IsProvisioning(op)
    ensures Answer(op, EnableUsers(s, ids)) == Answer(op, s)
  {
    hide UserOf, Atoi, Itoa, DecodePermission, Floor, HasSubject;
    EnabledUserOf(s, ids, op.user);
  }

  // ----- The three kinds of write ---------------------------------------------------------

  lemma EnabledUserByID(s: Snapshot, ids: set<int>, id: int)
    requires IndexesAgree(s.users, s.byID, s.order)
    ensures var e := UserByID(EnableUsers(s, ids), id);
      && (e.Some? <==> UserByID(s, id).Some?)
      && (e.Some? ==> var u := UserByID(s, id).value;
            e.value == Enabled(u, ids) && u.uuid in s.users && s.users[u.uuid] == u)
  {}

  lemma PutEnabled(users: map<string, User>, ids: set<int>, u: User)
    ensures EnabledUsers(users, ids)[u.uuid := Enabled(u, ids)] == EnabledUsers(users[u.uuid := u], ids)
  {}

  lemma AddCommutes(s: Snapshot, ids: set<int>, groupID: int, userID: int)
    requires IndexesAgree(s.users, s.byID, s.order)
    ensures AddGroupMember(EnableUsers(s, ids), groupID, userID).0 ==
        EnableUsers(AddGroupMember(s, groupID, userID).0, ids)
  {
    hide IndexesAgree, UserByID, MemberCounts, EnabledUsers;
    EnabledUserByID(s, ids, userID);
    if UserByID(s, userID).Some? && GroupByID(s, groupID).Some? {
      var u, g := UserByID(s, userID).value, GroupByID(s, groupID).value;
      var u' := u.(groupUUIDs := if g.uuid in u.groupUUIDs then u.groupUUIDs else u.groupUUIDs + [g.uuid]);
      PutEnabled(s.users, ids, u');
    }
  }

  lemma RemoveCommutes(s: Snapshot, ids: set<int>, groupID: int, userID: int)
    requires IndexesAgree(s.users, s.byID, s.order)
    ensures RemoveGroupMember(EnableUsers(s, ids), groupID, userID).0 ==
            EnableUsers(RemoveGroupMember(s, groupID, userID).0, ids)
  {
    hide IndexesAgree, UserByID, MemberCounts, Without, EnabledUsers;
    EnabledUserByID(s, ids, userID);
    if UserByID(s, userID).Some? && GroupByID(s, groupID).Some? {
      var u, g := UserByID(s, userID).value, GroupByID(s, groupID).value;
      PutEnabled(s.users, ids, u.(groupUUIDs := Without(u.groupUUIDs, g.uuid)));
    }
  }

  lemma PostCommutes(s: Snapshot, ids: set<int>, group: string, user: string)
    requires Inv(s)
    ensures PostGroupMember(EnableUsers(s, ids), group, user).0 == EnableUsers(PostGroupMember(s, group, user).0, ids)
    ensures DeleteGroupMember(EnableUsers(s, ids), group, user).0 ==
        EnableUsers(DeleteGroupMember(s, group, user).0, ids)
  {
    hide CatalogOk, IndexesAgree, IdsIssued, MembersAgree, RolesAgree, AllUsersComplete, PermissionsIndexed, Atoi,
      CreateUser, UpdateUser, DeleteUser, SetUserEnabled, AddGroupMember, RemoveGroupMember, SetUserRoles,
      UpdatePermission, EnableUsers;
    if Atoi(group).Some? && Atoi(user).Some? {
      AddCommutes(s, ids, Atoi(group).value, Atoi(user).value);
      RemoveCommutes(s, ids, Atoi(group).value, Atoi(user).value);
      EnablingKeepsCatalog(s, ids);
    }
  }

  lemma EnablingKeepsCatalog(s: Snapshot, ids: set<int>)
    ensures EnableUsers(s, ids).catalog == s.catalog
  {}

  lemma SetRolesCommutes(s: Snapshot, ids: set<int>, uuid: string, row: seq<string>)
    requires IndexesAgree(s.users, s.byID, s.order)
    ensures SetUserRoles(EnableUsers(s, ids), uuid, row).0 == EnableUsers(SetUserRoles(s, uuid, row).0, ids)
  {
    hide RoleRefs;
    if uuid in s.users && forall r :: r in row ==> r in s.catalog.roles {
      PutEnabled(s.users, ids, s.users[uuid].(rbacRoles := RoleRefs(s.catalog.roles, row)));
    }
  }

  lemma AssignCommutes(s: Snapshot, ids: set<int>, user: string, role: string)
    requires Inv(s)
    ensures Assign(EnableUsers(s, ids), user, role) == EnableUsers(Assign(s, user, role), ids)
  {
    hide CatalogOk, IndexesAgree, IdsIssued, MembersAgree, RolesAgree, AllUsersComplete, PermissionsIndexed, UserOf,
      SetUserRoles, EnableUsers;
    EnabledUserOf(s, ids, user);
    if UserOf(s, user).Some? { SetRolesCommutes(s, ids, UserOf(s, user).value.uuid, [role]); }
  }

  lemma PutPermissionCommutes(s: Snapshot, ids: set<int>, p: ClientPermission)
    ensures PutPermission(EnableUsers(s, ids), p).0 == EnableUsers(PutPermission(s, p).0, ids)
  {
    hide CreateUser, UpdateUser, DeleteUser, SetUserEnabled, AddGroupMember, RemoveGroupMember, SetUserRoles, Render,
      RewriteTags, EncodeObjects;
  }

  lemma PermissionWriteCommutes(op: Op, s: Snapshot, ids: set<int>)
    requires ForPermission(op) && UserOf(s, op.user).Some? && SubjectsOf(s, op.permission).Some?
    ensures UserOf(EnableUsers(s, ids), op.user).Some? && SubjectsOf(EnableUsers(s, ids), op.permission).Some?
    ensures PermissionWrite(op, EnableUsers(s, ids)) == EnableUsers(PermissionWrite(op, s), ids)
  {
    hide UserOf, Parse, PutPermission, Revised, DecodePermission;
    EnabledUserOf(s, ids, op.user);
    var u := UserOf(s, op.user).value;
    if Parse(u.uuid).Some? {
      PutPermissionCommutes(s, ids, Revised(op, SubjectsOf(s, op.permission).value, Parse(u.uuid).value, u.name));
    }
  }

  /** Every write commutes with enabling. */
  lemma WriteCommutes(op: Op, s: Snapshot, ids: set<int>)
    requires Inv(s) && IsProvisioning(op)
    ensures Write(op, EnableUsers(s, ids)) == EnableUsers(Write(op, s), ids)
  {
    hide Inv, EnableUsers, PostGroupMember, DeleteGroupMember, IsDecimal, RoleGrantAnswer, RoleRevokeAnswer,
      PermissionAnswer, Assign, PermissionWrite, Floor;
    AnswerIgnoresEnabling(op, s, ids);
    EnablingKeepsCatalog(s, ids);
    match op
    case GroupGrant(user, group) => PostCommutes(s, ids, group, user);
    case GroupRevoke(user, group) => PostCommutes(s, ids, group, user);
    case RoleGrant(user, role) => AssignCommutes(s, ids, user, role);
    case RoleRevoke(user, role) =>
      if RoleRevokeAnswer(s, user, role) == Applied {
        AppliedHasFloor(s, user, role);
        AssignCommutes(s, ids, user, Floor(s.catalog.roleList).value);
      }
    case PermissionGrant(_, _, _) => PermissionCommutes(op, s, ids);
    case PermissionRevoke(_, _, _) => PermissionCommutes(op, s, ids);
  }

  lemma AppliedHasFloor(s: Snapshot, user: string, role: string)
    requires RoleRevokeAnswer(s, user, role) == Applied
    ensures Floor(s.catalog.roleList).Some?
  {}

  lemma PermissionCommutes(op: Op, s: Snapshot, ids: set<int>)
    requires ForPermission(op)
    ensures PermissionAnswer(op, s) == Applied ==>
      && UserOf(s, op.user).Some? && SubjectsOf(s, op.permission).Some?
      && UserOf(EnableUsers(s, ids), op.user).Some? && SubjectsOf(EnableUsers(s, ids), op.permission).Some?
      && PermissionWrite(op, EnableUsers(s, ids)) == EnableUsers(PermissionWrite(op, s), ids)
  {
    hide EnableUsers, PermissionWrite, UserOf, SubjectsOf;
    if PermissionAnswer(op, s) == Applied { PermissionWriteCommutes(op, s, ids); }
  }

  // ----- Enabling keeps the copies in agreement -------------------------------------------

  lemma EnablingKeepsIndexes(users: map<string, User>, byID: map<int, string>, order: seq<string>, ids: set<int>)
    requires IndexesAgree(users, byID, order)
    ensures IndexesAgree(EnabledUsers(users, ids), byID, order)
  {}

  lemma EnablingKeepsIssued(users: map<string, User>, next: nat, groups: set<string>, ids: set<int>)
    requires IdsIssued(users, next, groups)
    ensures IdsIssued(EnabledUsers(users, ids), next, groups)
  {
    hide Issued;
  }

  lemma EnablingKeepsMembers(groups: set<string>, users: map<string, User>, members: map<string, seq<string>>,
      ids: set<int>)
    requires MembersAgree(groups, users, members)
    ensures MembersAgree(groups, EnabledUsers(users, ids), members)
  {}

  lemma EnablingKeepsRoles(roles: map<string, Role>, users: map<string, User>, userRoles: map<string, seq<string>>,
      ids: set<int>)
    requires RolesAgree(roles, users, userRoles)
    ensures RolesAgree(roles, EnabledUsers(users, ids), userRoles)
  {
    hide RefsAgree;
  }

  lemma EnablingKeepsAllUsers(users: map<string, User>, members: map<string, seq<string>>, ids: set<int>)
    requires AllUsersComplete(users, members)
    ensures AllUsersComplete(EnabledUsers(users, ids), members)
  {}

  lemma EnablingKeepsInv(s: Snapshot, ids: set<int>)
    requires Inv(s)
    ensures Inv(EnableUsers(s, ids))
  {
    hide CatalogOk, IndexesAgree, IdsIssued, MembersAgree, RolesAgree, PermissionsIndexed, AllUsersComplete,
      EnabledUsers;
    EnablingKeepsIndexes(s.users, s.byID, s.order, ids);
    EnablingKeepsIssued(s.users, s.nextUserID, GroupUuids(s.catalog), ids);
    EnablingKeepsMembers(GroupUuids(s.catalog), s.users, s.members, ids);
    EnablingKeepsRoles(s.catalog.roles, s.users, s.userRoles, ids);
    EnablingKeepsAllUsers(s.users, s.members, ids);
  }
}
