/** One request at a time computes the closed form: until an operation's deciding request it has
    written nothing and what it has learnt still holds; the deciding request makes the whole write;
    after it only the re-enabling of one account is left. */
module Linearisation {
  import opened Wrappers
  import opened Text
  import opened Uuids
  import opened Directory
  import opened Invariants
  import opened Wire
  import opened Protocol
  import opened Reading
  import opened Meaning

  /** Past the deciding request. */
  predicate Decided(pc: Pc) { pc.MemberFetch? || pc.Enable? || pc.Done? }

  /** The user that a client record was read from is still there, with the same identity. */
  predicate Describes(cu: ClientUser, s: Snapshot, user: string)
  {
    && UserOf(s, user).Some?
    && var u := UserOf(s, user).value;
       cu.id == u.id && cu.uuid == u.uuid && cu.name == u.name && (cu.enabled ==> u.enabled)
  }

  /** What an undecided membership operation has learnt. With exclusive, nobody else works on the
      same membership, so that its absence or presence is known as well. */
  predicate KnowsGroup(op: Op, pc: Pc, s: Snapshot, exclusive: bool)
    requires ForGroup(op)
  {
    match pc
    case MemberPost =>
      && GroupOf(s, op.group).Some?
      && (exclusive || IsFixed(s, op.group) ==> !Listed(s, op.group, op.user))
    case MemberDelete =>
      && GroupOf(s, op.group).Some? && UserOf(s, op.user).Some? && IsDecimal(op.user)
      && (exclusive || IsFixed(s, op.group) ==> Listed(s, op.group, op.user))
    case _ => true
  }

  predicate HoldsOnly(s: Snapshot, user: string, role: string)
  {
    UserOf(s, user).Some? && Row(s.userRoles, UserOf(s, user).value.uuid) == [role]
  }

  /** What an undecided role operation has learnt. Without exclusive, somebody else may have left the
      user with just the role that this operation is about to assign. */
  predicate KnowsRole(op: Op, pc: Pc, s: Snapshot, exclusive: bool)
    requires ForRole(op)
  {
    match pc
    case RoleRead(cu) => Describes(cu, s, op.user)
    case RolePut(cu) =>
      && Describes(cu, s, op.user)
      && (HoldsRole(s, op.user, op.role) ==> !exclusive && HoldsOnly(s, op.user, op.role))
    case BasicLookup(cu) =>
      && Describes(cu, s, op.user)
      && (!HoldsRole(s, op.user, op.role) ==>
            !exclusive && Floor(s.catalog.roleList).Some?
            && HoldsOnly(s, op.user, Floor(s.catalog.roleList).value))
    case BasicPut(cu, basic) =>
      && Describes(cu, s, op.user) && Floor(s.catalog.roleList) == Some(basic) && basic != op.role
      && (!HoldsRole(s, op.user, op.role) ==> !exclusive && HoldsOnly(s, op.user, basic))
    case _ => true
  }

  /** The stored permission is the one this body leaves behind. */
  predicate Stores(s: Snapshot, permission: string, body: ClientPermission)
  {
    && permission in s.permissions
    && var q := s.permissions[permission];
       && q.name == body.name && q.actions == body.actions
       && q.objects == EncodeObjects(RewriteTags(body.objects)) && q.subjects == EncodeObjects(body.subjects)
  }

  /** Somebody else has put this very body, so that the change is made already. */
  predicate Overtaken(op: Op, body: ClientPermission, s: Snapshot)
    requires ForPermission(op)
  {
    && SubjectsOf(s, op.permission).Some? && SubjectsOf(s, op.permission).value.uuid == body.uuid
    && HasPermission(s, op.user, op.permission) == op.PermissionGrant?
    && Stores(s, op.permission, body)
  }

  /** The permission as it was read is what the next body will be made from, and the change is either
      still to be made or made by somebody else from the same reading. */
  predicate Readable(op: Op, p: ClientPermission, s: Snapshot, exclusive: bool)
    requires ForPermission(op)
  {
    || SubjectsOf(s, op.permission) == Some(p)
    || (&& !exclusive && UserOf(s, op.user).Some?
        && var u := UserOf(s, op.user).value;
           && Parse(u.uuid).Some? && HasSubject(p.subjects, u.uuid) == op.PermissionRevoke?
           && Overtaken(op, Revised(op, p, Parse(u.uuid).value, u.name), s))
  }

  predicate KnowsPermission(op: Op, pc: Pc, s: Snapshot, exclusive: bool)
    requires ForPermission(op)
  {
    match pc
    case PrincipalRead(p) =>
      && op.principalType == USER_TYPE && SubjectsOf(s, op.permission).Some?
      && (Atoi(op.user).Some? ==> Readable(op, p, s, exclusive))
    case PermissionPut(cu, p) =>
      && op.principalType == USER_TYPE && SubjectsOf(s, op.permission).Some?
      && Describes(cu, s, op.user) && Parse(cu.uuid).Some?
      && ((HasPermission(s, op.user, op.permission) == op.PermissionRevoke?
           && p == Revised(op, SubjectsOf(s, op.permission).value, Parse(cu.uuid).value, cu.name))
          || (!exclusive && Overtaken(op, p, s)))
    case _ => true
  }

  predicate Knows(op: Op, pc: Pc, s: Snapshot, exclusive: bool)
    requires IsProvisioning(op)
  {
    if ForGroup(op) then KnowsGroup(op, pc, s, exclusive)
    else if ForRole(op) then KnowsRole(op, pc, s, exclusive)
    else KnowsPermission(op, pc, s, exclusive)
  }

  /** The account still to be re-enabled. */
  function Owed(op: Op, pc: Pc): set<int>
    requires Fits(op, pc)
  {
    match pc
    case MemberFetch => if Atoi(op.user).Some? then {Atoi(op.user).value} else {}
    case Enable(id, _) => {id}
    case _ => {}
  }

  /** The answer a decided operation will give. */
  function Promise(pc: Pc): Outcome
    requires Decided(pc)
  {
    match pc
    case MemberFetch => Applied
    case Enable(_, answer) => answer
    case Done(answer) => answer
  }

  /** What a decided operation needs to find. */
  predicate Settled(e: bool, op: Op, pc: Pc, s: Snapshot)
    requires Fits(op, pc) && Decided(pc)
  {
    match pc
    case MemberFetch => e && UserOf(s, op.user).Some?
    case Enable(id, _) => id in s.byID
    case Done(_) => true
  }

  // ----- Re-enabling ----------------------------------------------------------------------

  lemma EnableTwice(s: Snapshot, a: set<int>, b: set<int>)
    ensures EnableUsers(EnableUsers(s, a), b) == EnableUsers(s, a + b)
  {
    assert EnableUsers(EnableUsers(s, a), b).users == EnableUsers(s, a + b).users;
  }

  lemma EnableNone(s: Snapshot)
    ensures EnableUsers(s, {}) == s
  {
    assert EnableUsers(s, {}).users == s.users;
  }

  /** An account that is enabled already owes nothing. */
  lemma EnableIdle(s: Snapshot, id: int, a: set<int>)
    requires Inv(s) && id in s.byID && s.users[s.byID[id]].enabled
    ensures EnableUsers(s, a + {id}) == EnableUsers(s, a)
  {
    hide CatalogOk, IdsIssued, MembersAgree, RolesAgree, AllUsersComplete, PermissionsIndexed;
    assert EnableUsers(s, a + {id}).users == EnableUsers(s, a).users;
  }

  /** The request that enables one account, in closed form. */
  lemma EnableOne(s: Snapshot, id: int)
    requires Inv(s) && id in s.byID
    ensures SetUserEnabled(s, id, true).0 == EnableUsers(s, {id})
    ensures SetUserEnabled(s, id, true).1.Some?
  {
    hide CatalogOk, IdsIssued, MembersAgree, RolesAgree, AllUsersComplete, PermissionsIndexed;
    UserByIDFound(s, id);
    assert SetUserEnabled(s, id, true).0.users == EnableUsers(s, {id}).users;
  }

  // ----- The deciding request -------------------------------------------------------------

  /** The step has left the server as after the whole write, owes exactly the re-enabling that the
      answer calls for, and promises that answer; without exclusive, an answer of the same kind. */
  predicate Decides(e: bool, op: Op, s': Snapshot, pc: Pc, exclusive: bool, write: Snapshot, answer: Outcome)
  {
    && Fits(op, pc) && Decided(pc)
    && s' == write
    && Settled(e, op, pc, s')
    && EnableUsers(s', Owed(op, pc)) == EnableUsers(s', Target(e, op, answer))
    && (Promise(pc).Failed? <==> answer.Failed?)
    && (exclusive ==> Promise(pc) == answer)
  }

  /** reEnableUserIfNeeded leaves exactly this account owed. */
  lemma ReEnableSettles(e: bool, op: Op, cu: ClientUser, answer: Outcome, s: Snapshot)
    requires Inv(s) && IsGrant(op) && cu.id in s.byID && (cu.enabled ==> s.users[s.byID[cu.id]].enabled)
    ensures var pc := ReEnable(e, cu, answer);
      && Fits(op, pc) && Decided(pc) && Promise(pc) == answer && Settled(e, op, pc, s)
      && EnableUsers(s, Owed(op, pc)) == EnableUsers(s, if e then {cu.id} else {})
  {
    hide Inv, EnableUsers, Itoa, Atoi;
    if e && cu.enabled {
      EnableIdle(s, cu.id, {});
      assert {} + {cu.id} == {cu.id};
    }
  }

  lemma MembershipWriteIdle(s: Snapshot, group: string, user: string)
    ensures !IsMember(s, group, user) ==> DeleteGroupMember(s, group, user).0 == s
    ensures IsMember(s, group, user) || GroupOf(s, group).None? ==> PostGroupMember(s, group, user).0 == s
  {}

  lemma DescribesSelf(s: Snapshot, user: string, cu: ClientUser)
    requires UserOf(s, user).Some? && Some(cu) == DecodeUser(UserOf(s, user).value)
    ensures Describes(cu, s, user) && cu.enabled == UserOf(s, user).value.enabled
  {}

  lemma DescribedUser(s: Snapshot, user: string, cu: ClientUser)
    requires Inv(s) && Describes(cu, s, user)
    ensures cu.id in s.byID && s.byID[cu.id] == cu.uuid && cu.uuid in s.users && Atoi(user) == Some(cu.id)
    ensures s.users[cu.uuid] == UserOf(s, user).value
    ensures cu.enabled ==> s.users[s.byID[cu.id]].enabled
    ensures Parse(cu.uuid).Some? && Render(Parse(cu.uuid).value) == cu.uuid
  {
    UserOfFound(s, user);
    CanonicalParses(cu.uuid);
  }

  lemma GroupGrantStart(e: bool, op: Op, s: Snapshot, exclusive: bool)
    requires Inv(s) && op.GroupGrant?
    ensures var pc := GroupStart(e, op, s);
      if Decided(pc) then
        Decides(e, op, s, pc, exclusive, PostGroupMember(s, op.group, op.user).0,
            GroupGrantAnswer(s, op.user, op.group))
      else KnowsGroup(op, pc, s, exclusive)
  {
    hide Inv, GetGroupMembers, FindMember, UserOf, GroupOf, Itoa, Atoi, PostGroupMember, DeleteGroupMember,
      DecodeUser, EnableUsers, Canonical, IsDecimal;
    MemberListRead(s, op.group, op.user);
    MembershipWriteIdle(s, op.group, op.user);
    if Listed(s, op.group, op.user) {
      var m := FindMember(GetGroupMembers(s, op.group).value, op.user).value;
      DescribesSelf(s, op.user, m);
      DescribedUser(s, op.user, m);
      ReEnableSettles(e, op, m, AlreadyExists, s);
      hide ReEnable;
    }
  }

  lemma GroupRevokeStart(e: bool, op: Op, s: Snapshot, exclusive: bool)
    requires Inv(s) && op.GroupRevoke?
    ensures var pc := GroupStart(e, op, s);
      if Decided(pc) then
        Decides(e, op, s, pc, exclusive, if IsDecimal(op.user) then DeleteGroupMember(s, op.group, op.user).0 else s,
                GroupRevokeAnswer(s, op.user, op.group))
      else KnowsGroup(op, pc, s, exclusive)
  {
    hide Inv, GetGroupMembers, FindMember, UserOf, GroupOf, Itoa, Atoi, PostGroupMember, DeleteGroupMember,
      DecodeUser, EnableUsers, Canonical, IsDecimal;
    MemberListRead(s, op.group, op.user);
    MembershipWriteIdle(s, op.group, op.user);
  }

  // ----- Writes keep the invariant --------------------------------------------------------

  lemma MembershipKeepsInv(s: Snapshot, group: string, user: string)
    requires Inv(s)
    ensures Inv(PostGroupMember(s, group, user).0) && Inv(DeleteGroupMember(s, group, user).0)
  {
    hide Inv, Atoi, CreateUser, UpdateUser, DeleteUser, SetUserEnabled, AddGroupMember, RemoveGroupMember,
      SetUserRoles, UpdatePermission;
    if Atoi(group).Some? && Atoi(user).Some? {
      AddGroupMemberKeepsInv(s, Atoi(group).value, Atoi(user).value);
      if !MembershipFixed(s, Atoi(group).value) {
        RemoveGroupMemberKeepsInv(s, Atoi(group).value, Atoi(user).value);
      }
    }
  }

  lemma PutUserRoleKeepsInv(s: Snapshot, uuid: string, role: string)
    requires Inv(s)
    ensures Inv(PutUserRole(s, uuid, role).0)
  {
    hide Inv, CreateUser, UpdateUser, DeleteUser, SetUserEnabled, AddGroupMember, RemoveGroupMember, SetUserRoles,
      UpdatePermission;
    SetUserRolesKeepsInv(s, uuid, [role]);
  }

  lemma PutPermissionKeepsInv(s: Snapshot, p: ClientPermission)
    requires Inv(s)
    ensures Inv(PutPermission(s, p).0)
  {
    hide Inv, CreateUser, UpdateUser, DeleteUser, SetUserEnabled, AddGroupMember, RemoveGroupMember, SetUserRoles,
      UpdatePermission, Render, RewriteTags, EncodeObjects;
    UpdatePermissionKeepsInv(s, Render(p.uuid), p.name, p.actions, EncodeObjects(RewriteTags(p.objects)),
                             EncodeObjects(p.subjects));
  }

  // ----- Membership writes ----------------------------------------------------------------

  /** What the POST answers, and that the writer finds its user again. */
  lemma PostReply(s: Snapshot, group: string, user: string)
    requires GroupOf(s, group).Some?
    ensures PostGroupMember(s, group, user).1 ==
      if Atoi(user).None? then Err(Refused(BadRequest))
      else if IsFixed(s, group) then Err(Refused(Forbidden))
      else if UserOf(s, user).None? then Err(Refused(NotFound))
      else Ok(())
    ensures UserOf(s, user).Some? ==> UserOf(PostGroupMember(s, group, user).0, user).Some?
  {
    hide SetUserRoles, UpdatePermission, DeleteUser, UpdateUser, SetUserEnabled, CreateUser, RemoveGroupMember, Atoi;
  }

  lemma DeleteReply(s: Snapshot, group: string, user: string)
    requires GroupOf(s, group).Some? && UserOf(s, user).Some?
    ensures DeleteGroupMember(s, group, user).1 == if IsFixed(s, group) then Err(Refused(Forbidden)) else Ok(())
  {
    hide SetUserRoles, UpdatePermission, DeleteUser, UpdateUser, SetUserEnabled, CreateUser, AddGroupMember, Atoi;
  }

  lemma GroupGrantPost(e: bool, op: Op, s: Snapshot, exclusive: bool)
    requires op.GroupGrant? && KnowsGroup(op, MemberPost, s, exclusive)
    ensures var (s', reply) := PostGroupMember(s, op.group, op.user);
      Decides(e, op, s', After(reply, if e then MemberFetch else Done(Applied)), exclusive, s',
              GroupGrantAnswer(s, op.user, op.group))
  {
    hide GroupOf, Itoa, Atoi, PostGroupMember, EnableUsers, IsDecimal;
    PostReply(s, op.group, op.user);
  }

  lemma GroupRevokeDelete(e: bool, op: Op, s: Snapshot, exclusive: bool)
    requires op.GroupRevoke? && KnowsGroup(op, MemberDelete, s, exclusive)
    ensures var (s', reply) := DeleteGroupMember(s, op.group, op.user);
      IsDecimal(op.user) && Decides(e, op, s', After(reply, Done(Applied)), exclusive, s',
          GroupRevokeAnswer(s, op.user, op.group))
  {
    hide UserOf, GroupOf, Itoa, Atoi, DeleteGroupMember, EnableUsers, IsDecimal;
    DeleteReply(s, op.group, op.user);
  }

  // ----- Roles ----------------------------------------------------------------------------

  /** basicRoleUUID reads off the server's list. */
  lemma {:induction false} FirstBasicIsFloor(roles: seq<Role>)
    requires forall i :: 0 <= i < |roles| ==> Canonical(roles[i].uuid)
    ensures DecodeAll(roles, DecodeRole).Some? && FirstBasic(DecodeAll(roles, DecodeRole).value) == Floor(roles)
  {
    hide Canonical, Parse, Render;
    if roles != [] {
      CanonicalParses(roles[0].uuid);
      FirstBasicIsFloor(roles[1..]);
      var rest := DecodeAll(roles[1..], DecodeRole).value;
      var d := DecodeRole(roles[0]).value;
      assert ([d] + rest)[1..] == rest;
    }
  }

  lemma FloorRead(s: Snapshot)
    requires Inv(s)
    ensures GetRoles(s).Ok? && FirstBasic(GetRoles(s).value) == Floor(s.catalog.roleList)
  {
    hide Canonical, CatalogOk, RolesAgree, IndexesAgree, IdsIssued, MembersAgree, AllUsersComplete,
      PermissionsIndexed;
    var roles := s.catalog.roleList;
    forall i | 0 <= i < |roles|
      ensures Canonical(roles[i].uuid)
    {
      RoleListCanonical(s.catalog, i);
    }
    FirstBasicIsFloor(roles);
  }

  lemma {:induction false} FloorListed(roles: seq<Role>)
    ensures Floor(roles).Some? ==>
      exists r :: r in roles && r.typ == "STANDARD" && r.name == "Basic" && r.uuid == Floor(roles).value
  {
    if roles != [] {
      FloorListed(roles[1..]);
      assert forall r :: r in roles[1..] ==> r in roles;
      assert roles[0] in roles;
    }
  }

  lemma FloorIsRole(c: Catalog)
    requires CatalogOk(c) && Floor(c.roleList).Some?
    ensures Floor(c.roleList).value in c.roles
  {
    hide Floor;
    FloorListed(c.roleList);
  }

  lemma FloorKnown(s: Snapshot)
    requires Inv(s) && Floor(s.catalog.roleList).Some?
    ensures Floor(s.catalog.roleList).value in s.catalog.roles
  {
    hide CatalogOk, IndexesAgree, IdsIssued, MembersAgree, RolesAgree, AllUsersComplete, PermissionsIndexed, Floor;
    FloorIsRole(s.catalog);
  }

  /** The role PUT assigns exactly this role, or refuses an unknown one and changes nothing. */
  lemma RolePutReply(s: Snapshot, user: string, cu: ClientUser, role: string)
    requires Inv(s) && Describes(cu, s, user)
    ensures var (s', reply) := PutUserRole(s, cu.uuid, role);
      && s' == Assign(s, user, role)
      && reply == (if role in s.catalog.roles then Ok(()) else Err(Refused(NotFound)))
      && (role !in s.catalog.roles ==> s' == s)
      && s'.byID == s.byID
      && (cu.enabled ==> cu.id in s.byID && s.byID[cu.id] in s'.users && s'.users[s.byID[cu.id]].enabled)
  {
    hide Inv, UserOf, CreateUser, UpdateUser, DeleteUser, SetUserEnabled, AddGroupMember, RemoveGroupMember,
      UpdatePermission, Atoi, Parse, Render;
    DescribedUser(s, user, cu);
    assert role in [role];
  }

  lemma RoleStartKnows(op: Op, s: Snapshot, exclusive: bool)
    requires Inv(s) && ForRole(op)
    ensures var pc := RoleStart(op, s);
      if Decided(pc) then pc == Done(NoSuch(op.user)) && UserOf(s, op.user).None? else KnowsRole(op, pc, s, exclusive)
  {
    hide Inv, UserOf, GetUserDetails, DecodeUser, Atoi;
    UserDetailsRead(s, op.user);
    if UserOf(s, op.user).Some? { DescribesSelf(s, op.user, GetUserDetails(s, op.user).value); }
  }

  lemma RoleReadDecides(e: bool, op: Op, s: Snapshot, cu: ClientUser, exclusive: bool)
    requires Inv(s) && ForRole(op) && KnowsRole(op, RoleRead(cu), s, exclusive)
    ensures var pc := RoleReadStep(e, op, cu, s);
      if Decided(pc) then
        Decides(e, op, s, pc, exclusive, s,
                if op.RoleGrant? then RoleGrantAnswer(s, op.user, op.role) else RoleRevokeAnswer(s, op.user, op.role))
        && (op.RoleGrant? ==> RoleGrantAnswer(s, op.user, op.role) == AlreadyExists)
        && (op.RoleRevoke? ==> RoleRevokeAnswer(s, op.user, op.role) == AlreadyRevoked)
      else KnowsRole(op, pc, s, exclusive)
  {
    hide Inv, UserOf, Floor, Atoi, Itoa, Parse, Render, EnableUsers;
    DescribedUser(s, op.user, cu);
    if op.RoleGrant? {
      ReEnableSettles(e, op, cu, AlreadyExists, s);
      hide ReEnable;
    }
  }

  lemma OneRoleRow(roles: map<string, Role>, users: map<string, User>, userRoles: map<string, seq<string>>, k: string,
      role: string)
    requires RolesAgree(roles, users, userRoles) && (forall r :: r in roles ==> roles[r].uuid == r)
    requires k in users && Row(userRoles, k) == [role]
    ensures role in roles && users[k].rbacRoles == RoleRefs(roles, [role])
  {
    var refs := users[k].rbacRoles;
    assert RefsAgree(roles, refs, [role]);
    assert refs[0] in refs && RoleUuids(refs)[0] == refs[0].uuid;
  }

  lemma SetRolesIdle(s: Snapshot, k: string, role: string)
    requires k in s.users && role in s.catalog.roles && Row(s.userRoles, k) == [role]
    requires s.users[k].rbacRoles == RoleRefs(s.catalog.roles, [role])
    ensures SetUserRoles(s, k, [role]).0 == s
  {}

  /** Assigning the one role that a user holds changes nothing. */
  lemma AssignIdle(s: Snapshot, user: string, role: string)
    requires Inv(s) && HoldsOnly(s, user, role)
    ensures Assign(s, user, role) == s && role in s.catalog.roles
  {
    hide CatalogOk, IdsIssued, MembersAgree, RolesAgree, AllUsersComplete, PermissionsIndexed, Atoi, SetUserRoles,
      RoleRefs;
    var k := UserOf(s, user).value.uuid;
    UserByIDFound(s, Atoi(user).value);
    RolesKeyed(s.catalog);
    OneRoleRow(s.catalog.roles, s.users, s.userRoles, k, role);
    SetRolesIdle(s, k, role);
  }

  lemma RolePutDecides(e: bool, op: Op, s: Snapshot, cu: ClientUser, exclusive: bool)
    requires Inv(s) && op.RoleGrant? && KnowsRole(op, RolePut(cu), s, exclusive)
    ensures var (s', reply) := PutUserRole(s, cu.uuid, op.role);
      var answer := RoleGrantAnswer(s, op.user, op.role);
      Decides(e, op, s', After(reply, ReEnable(e, cu, Applied)), exclusive,
              if answer == Applied then Assign(s, op.user, op.role) else s, answer)
  {
    hide Inv, UserOf, PutUserRole, Assign, EnableUsers, Atoi, Itoa, Parse, Render;
    DescribedUser(s, op.user, cu);
    RolePutReply(s, op.user, cu, op.role);
    if HoldsRole(s, op.user, op.role) {
      AssignIdle(s, op.user, op.role);
    }
    if op.role in s.catalog.roles {
      PutUserRoleKeepsInv(s, cu.uuid, op.role);
      ReEnableSettles(e, op, cu, Applied, PutUserRole(s, cu.uuid, op.role).0);
      hide ReEnable;
    }
  }

  lemma BasicLookupDecides(e: bool, op: Op, s: Snapshot, cu: ClientUser, exclusive: bool)
    requires Inv(s) && op.RoleRevoke? && KnowsRole(op, BasicLookup(cu), s, exclusive)
    ensures var pc := BasicLookupStep(op, cu, s);
      if Decided(pc) then
        Decides(e, op, s, pc, exclusive, s, RoleRevokeAnswer(s, op.user, op.role))
        && RoleRevokeAnswer(s, op.user, op.role).Failed?
      else KnowsRole(op, pc, s, exclusive)
  {
    hide Inv, UserOf, GetRoles, FirstBasic, Floor, EnableUsers, Atoi, Itoa;
    FloorRead(s);
  }

  lemma BasicPutDecides(e: bool, op: Op, s: Snapshot, cu: ClientUser, basic: string, exclusive: bool)
    requires Inv(s) && op.RoleRevoke? && KnowsRole(op, BasicPut(cu, basic), s, exclusive)
    ensures var (s', reply) := PutUserRole(s, cu.uuid, basic);
      var answer := RoleRevokeAnswer(s, op.user, op.role);
      Decides(e, op, s', After(reply, Done(Applied)), exclusive,
              if answer == Applied then Assign(s, op.user, basic) else s, answer)
  {
    hide CatalogOk, IndexesAgree, IdsIssued, MembersAgree, RolesAgree, AllUsersComplete, PermissionsIndexed, UserOf,
      PutUserRole, Assign, Floor, EnableUsers, Atoi, Itoa;
    FloorIsRole(s.catalog);
    RolePutReply(s, op.user, cu, basic);
    if !HoldsRole(s, op.user, op.role) {
      AssignIdle(s, op.user, basic);
    }
  }

  // ----- Permissions ----------------------------------------------------------------------

  lemma PermissionKey(s: Snapshot, permission: string)
    requires Inv(s) && SubjectsOf(s, permission).Some?
    ensures permission in s.permissions && Render(SubjectsOf(s, permission).value.uuid) == permission
  {
    hide CatalogOk, IndexesAgree, IdsIssued, MembersAgree, RolesAgree, AllUsersComplete, Canonical, Parse, Render,
      DecodeAll;
    CanonicalParses(permission);
  }

  /** The permission PUT goes to the permission that was read, and touches no user. */
  lemma PermissionPutReply(s: Snapshot, permission: string, p: ClientPermission)
    requires Inv(s) && SubjectsOf(s, permission).Some? && p.uuid == SubjectsOf(s, permission).value.uuid
    ensures var (s', reply) := PutPermission(s, p);
      reply == Ok(()) && s'.byID == s.byID && s'.users == s.users
  {
    hide Inv, CreateUser, UpdateUser, DeleteUser, SetUserEnabled, AddGroupMember, RemoveGroupMember, SetUserRoles,
      Parse, Render, SubjectsOf, RewriteTags, EncodeObjects;
    PermissionKey(s, permission);
  }

  lemma PermissionStartDecides(e: bool, op: Op, s: Snapshot, exclusive: bool)
    requires ForPermission(op)
    ensures var pc := PermissionStart(op, s);
      if Decided(pc) then
        Decides(e, op, s, pc, exclusive, s, PermissionAnswer(op, s)) && PermissionAnswer(op, s).Failed?
      else KnowsPermission(op, pc, s, exclusive)
  {
    hide UserOf, DecodePermission, EnableUsers, Atoi, Itoa, HasSubject;
  }

  lemma PrincipalReadDecides(e: bool, op: Op, s: Snapshot, p: ClientPermission, exclusive: bool)
    requires Inv(s) && ForPermission(op) && KnowsPermission(op, PrincipalRead(p), s, exclusive)
    ensures var pc := PrincipalReadStep(e, op, p, s);
      if Decided(pc) then
        Decides(e, op, s, pc, exclusive, s, PermissionAnswer(op, s)) && PermissionAnswer(op, s) != Applied
      else KnowsPermission(op, pc, s, exclusive)
  {
    hide Inv, UserOf, GetUserDetails, DecodeUser, DecodePermission, EnableUsers, Atoi, Itoa, HasSubject, Parse,
      Render, Overtaken;
    UserDetailsRead(s, op.user);
    if UserOf(s, op.user).Some? {
      var cu := GetUserDetails(s, op.user).value;
      DescribesSelf(s, op.user, cu);
      DescribedUser(s, op.user, cu);
      if op.PermissionGrant? {
        ReEnableSettles(e, op, cu, AlreadyExists, s);
        hide ReEnable;
      }
    }
  }

  /** Putting a body that is stored already changes nothing. */
  lemma PutIdle(s: Snapshot, permission: string, body: ClientPermission)
    requires Inv(s) && SubjectsOf(s, permission).Some? && body.uuid == SubjectsOf(s, permission).value.uuid
    requires Stores(s, permission, body)
    ensures PutPermission(s, body).0 == s
  {
    hide Inv, CreateUser, UpdateUser, DeleteUser, SetUserEnabled, AddGroupMember, RemoveGroupMember, SetUserRoles,
      Parse, Render, SubjectsOf, RewriteTags, EncodeObjects;
    PermissionKey(s, permission);
  }

  lemma PermissionPutDecides(e: bool, op: Op, s: Snapshot, cu: ClientUser, p: ClientPermission, exclusive: bool)
    requires Inv(s) && ForPermission(op) && KnowsPermission(op, PermissionPut(cu, p), s, exclusive)
    ensures var (s', reply) := PutPermission(s, p);
      var answer := PermissionAnswer(op, s);
      Decides(e, op, s', After(reply, if op.PermissionGrant? then ReEnable(e, cu, Applied) else Done(Applied)),
              exclusive, if answer == Applied then PermissionWrite(op, s) else s, answer)
  {
    hide Inv, UserOf, PutPermission, SubjectsOf, EnableUsers, Atoi, Itoa, HasSubject, Parse, Render, DropSubject,
      Stores;
    DescribedUser(s, op.user, cu);
    PermissionKey(s, op.permission);
    PermissionPutReply(s, op.permission, p);
    if PermissionAnswer(op, s) != Applied {
      PutIdle(s, op.permission, p);
    }
    if op.PermissionGrant? {
      PutPermissionKeepsInv(s, p);
      ReEnableSettles(e, op, cu, Applied, PutPermission(s, p).0);
      hide ReEnable;
    }
  }

  // ----- Every undecided step -------------------------------------------------------------

  /** What one step of an undecided operation does: it only learns, or it decides. */
  predicate Progress(e: bool, op: Op, s: Snapshot, s': Snapshot, pc: Pc, exclusive: bool)
    requires IsProvisioning(op)
  {
    if Decided(pc) then Decides(e, op, s', pc, exclusive, Write(op, s), Answer(op, s))
    else s' == s && Knows(op, pc, s, exclusive)
  }

  lemma GroupProgress(e: bool, op: Op, pc: Pc, s: Snapshot, exclusive: bool)
    requires Inv(s) && ForGroup(op) && Fits(op, pc) && !Decided(pc) && KnowsGroup(op, pc, s, exclusive)
    ensures var (s', pc') := Step(e, op, pc, s); Inv(s') && Progress(e, op, s, s', pc', exclusive)
  {
    hide Inv, KnowsGroup, GroupStart, PostGroupMember, DeleteGroupMember, GroupGrantAnswer, GroupRevokeAnswer,
      IsDecimal, Decides, After;
    MembershipKeepsInv(s, op.group, op.user);
    match pc
    case Start => if op.GroupGrant? { GroupGrantStart(e, op, s, exclusive); } else
        { GroupRevokeStart(e, op, s, exclusive); }
    case MemberPost => GroupGrantPost(e, op, s, exclusive);
    case MemberDelete => GroupRevokeDelete(e, op, s, exclusive);
  }

  lemma RoleProgress(e: bool, op: Op, pc: Pc, s: Snapshot, exclusive: bool)
    requires Inv(s) && ForRole(op) && Fits(op, pc) && !Decided(pc) && KnowsRole(op, pc, s, exclusive)
    ensures var (s', pc') := Step(e, op, pc, s); Inv(s') && Progress(e, op, s, s', pc', exclusive)
  {
    hide Inv, RoleStart, RoleReadStep, BasicLookupStep, PutUserRole, Floor, Assign, UserOf, HoldsRole, Atoi,
      EnableUsers, After, ReEnable;
    match pc
    case Start => RoleStartKnows(op, s, exclusive);
    case RoleRead(cu) => RoleReadDecides(e, op, s, cu, exclusive);
    case RolePut(cu) =>
      PutUserRoleKeepsInv(s, cu.uuid, op.role);
      RolePutDecides(e, op, s, cu, exclusive);
    case BasicLookup(cu) => BasicLookupDecides(e, op, s, cu, exclusive);
    case BasicPut(cu, basic) =>
      PutUserRoleKeepsInv(s, cu.uuid, basic);
      BasicPutDecides(e, op, s, cu, basic, exclusive);
  }

  lemma PermissionProgress(e: bool, op: Op, pc: Pc, s: Snapshot, exclusive: bool)
    requires Inv(s) && ForPermission(op) && Fits(op, pc) && !Decided(pc) && KnowsPermission(op, pc, s, exclusive)
    ensures var (s', pc') := Step(e, op, pc, s); Inv(s') && Progress(e, op, s, s', pc', exclusive)
  {
    hide Inv, KnowsPermission, PermissionStart, PrincipalReadStep, PutPermission, PermissionAnswer, PermissionWrite,
      Decides, After, ReEnable;
    match pc
    case Start => PermissionStartDecides(e, op, s, exclusive);
    case PrincipalRead(p) => PrincipalReadDecides(e, op, s, p, exclusive);
    case PermissionPut(cu, p) =>
      PutPermissionKeepsInv(s, p);
      PermissionPutDecides(e, op, s, cu, p, exclusive);
  }

  lemma UndecidedStep(e: bool, op: Op, pc: Pc, s: Snapshot, exclusive: bool)
    requires Inv(s) && IsProvisioning(op) && Fits(op, pc) && !Decided(pc) && Knows(op, pc, s, exclusive)
    ensures var (s', pc') := Step(e, op, pc, s); Inv(s') && Progress(e, op, s, s', pc', exclusive)
  {
    hide Inv, Step, Progress, Fits, KnowsGroup, KnowsRole, KnowsPermission;
    if ForGroup(op) { GroupProgress(e, op, pc, s, exclusive); }
    else if ForRole(op) { RoleProgress(e, op, pc, s, exclusive); }
    else { PermissionProgress(e, op, pc, s, exclusive); }
  }

  // ----- Every decided step ---------------------------------------------------------------

  lemma EnabledRecord(s: Snapshot, id: int)
    requires Inv(s) && id in s.byID
    ensures PutUserEnabled(s, Itoa(id), true).0 == EnableUsers(s, {id})
    ensures PutUserEnabled(s, Itoa(id), true).1.Ok?
    ensures Inv(EnableUsers(s, {id}))
  {
    hide CatalogOk, MembersAgree, RolesAgree, AllUsersComplete, PermissionsIndexed, Itoa, Atoi, DecodeUser,
      EnableUsers, Canonical, FormatUuid, SetUserEnabled;
    assert Issued(s.byID[id], id, s.nextUserID);
    AtoiOfItoa(id);
    EnableOne(s, id);
    SetUserEnabledKeepsInv(s, id, true);
    EnabledDecodes(s, id);
  }

  lemma EnabledDecodes(s: Snapshot, id: int)
    requires Inv(s) && id in s.byID
    ensures SetUserEnabled(s, id, true).1.Some? && DecodeUser(SetUserEnabled(s, id, true).1.value).Some?
  {
    hide CatalogOk, IdsIssued, MembersAgree, RolesAgree, AllUsersComplete, PermissionsIndexed, DecodeAll;
    UserByIDFound(s, id);
    UserDecodes(s, s.byID[id]);
  }

  /** The rest of a decided operation enables the account it owes, keeps its promise, and never fails. */
  lemma DecidedStep(e: bool, op: Op, pc: Pc, s: Snapshot)
    requires Inv(s) && IsProvisioning(op) && Fits(op, pc) && Decided(pc) && Settled(e, op, pc, s)
    ensures var (s', pc') := Step(e, op, pc, s);
      && Inv(s') && Decided(pc') && Settled(e, op, pc', s') && Promise(pc') == Promise(pc)
      && EnableUsers(s', Owed(op, pc')) == EnableUsers(s, Owed(op, pc))
      && (s' == s || (pc.Enable? && s' == EnableUsers(s, {pc.id})))
  {
    hide Inv, UserOf, GetUserDetails, PutUserEnabled, EnableUsers, Itoa, Atoi, DecodeUser;
    match pc
    case MemberFetch =>
      UserDetailsRead(s, op.user);
      var cu := GetUserDetails(s, op.user).value;
      DescribesSelf(s, op.user, cu);
      DescribedUser(s, op.user, cu);
      ReEnableSettles(e, op, cu, Applied, s);
      hide ReEnable;
    case Enable(id, answer) =>
      EnabledRecord(s, id);
      EnableNone(EnableUsers(s, {id}));
    case Done(_) =>
  }
}
