/** What one operation's write leaves alone, and why what another operation has learnt stays true. */
module Interference {
  import opened Wrappers
  import opened Sequences
  import opened Text
  import opened Uuids
  import opened Directory
  import opened Invariants
  import opened Wire
  import opened Protocol
  import opened Reading
  import opened Meaning
  import opened Linearisation
  import opened Repetition

  predicate SameUser(a: Op, b: Op)
    requires IsProvisioning(a) && IsProvisioning(b)
  {
    Atoi(a.user).Some? && Atoi(a.user) == Atoi(b.user)
  }

  /** The revoke's fallback would replace the role granted in the meantime. */
  predicate FallbackClash(c: Catalog, grant: Op, revoke: Op)
  {
    && grant.RoleGrant? && revoke.RoleRevoke? && SameUser(grant, revoke)
    && grant.role != revoke.role && grant.role in c.roles && Floor(c.roleList) != Some(grant.role)
  }

  /** Both may write the subjects of one permission, and not the same change to them. */
  predicate BodyClash(a: Op, b: Op)
  {
    && ForPermission(a) && ForPermission(b) && a.permission == b.permission
    && a.principalType == USER_TYPE && b.principalType == USER_TYPE && Atoi(a.user).Some? && Atoi(b.user).Some?
    && !(SameUser(a, b) && a.PermissionGrant? == b.PermissionGrant?)
  }

  predicate Clash(c: Catalog, a: Op, b: Op)
  {
    FallbackClash(c, a, b) || FallbackClash(c, b, a) || BodyClash(a, b)
  }

  /** Both work on one user's membership of one group. */
  predicate SameEdge(a: Op, b: Op)
  {
    ForGroup(a) && ForGroup(b) && Atoi(a.group).Some? && Atoi(a.group) == Atoi(b.group) && SameUser(a, b)
  }

  /** Both leave one user with the same role, or may do so. */
  predicate SameRow(a: Op, b: Op)
  {
    && ForRole(a) && ForRole(b) && SameUser(a, b)
    && (if a.RoleGrant? && b.RoleGrant? then a.role == b.role
        else (a.RoleGrant? || b.RoleGrant?) ==> a.role != b.role)
  }

  /** Both make the same change to the subjects of one permission. */
  predicate SameSubjects(a: Op, b: Op)
  {
    && ForPermission(a) && ForPermission(b) && a.permission == b.permission && SameUser(a, b)
    && a.PermissionGrant? == b.PermissionGrant?
  }

  /** Either may find that the other has made its change already. */
  predicate SameChange(a: Op, b: Op)
  {
    SameEdge(a, b) || SameRow(a, b) || SameSubjects(a, b)
  }

  // ----- What every write keeps -----------------------------------------------------------

  predicate SameIdentity(u: User, v: User)
  {
    v.uuid == u.uuid && v.id == u.id && v.name == u.name && (u.enabled ==> v.enabled)
  }

  /** Nobody comes, goes, changes identity or is disabled, and the catalog stays. */
  predicate SamePeople(s: Snapshot, s': Snapshot)
  {
    && s'.catalog == s.catalog && s'.byID == s.byID && s'.users.Keys == s.users.Keys
    && forall k :: k in s.users ==> SameIdentity(s.users[k], s'.users[k])
  }

  /** The user's roles are as they were, or have become one role that the operation can live with. */
  predicate RolesKept(op: Op, s: Snapshot, s': Snapshot, exclusive: bool)
    requires ForRole(op)
  {
    UserOf(s, op.user).Some? ==>
      var row, row' := RoleRow(s, op.user), RoleRow(s', op.user);
      || row' == row
      || (op.RoleGrant? && |row'| == 1 && (exclusive ==> row'[0] != op.role))
      || (op.RoleRevoke? && row' == [op.role])
      || (op.RoleRevoke? && !exclusive && Floor(s.catalog.roleList).Some?
          && row' == [Floor(s.catalog.roleList).value])
  }

  function RoleRow(s: Snapshot, user: string): seq<string>
  {
    if UserOf(s, user).Some? then Row(s.userRoles, UserOf(s, user).value.uuid) else []
  }

  predicate SameRecord(s: Snapshot, s': Snapshot, permission: string)
  {
    && (permission in s'.permissions <==> permission in s.permissions)
    && (permission in s.permissions ==> s'.permissions[permission] == s.permissions[permission])
  }

  /** The permission is as it was, or the operation's own change has been made to it. */
  predicate SubjectsKept(op: Op, s: Snapshot, s': Snapshot, exclusive: bool)
    requires ForPermission(op)
  {
    && (SubjectsOf(s', op.permission).Some? <==> SubjectsOf(s, op.permission).Some?)
    && (op.principalType == USER_TYPE && Atoi(op.user).Some? ==>
          || SameRecord(s, s', op.permission)
          || (!exclusive && PermissionAnswer(op, s) == Applied && s' == PermissionWrite(op, s)))
  }

  /** The facts that this operation has read still hold, as far as it depends on them. */
  predicate Untouched(op: Op, s: Snapshot, s': Snapshot, exclusive: bool)
    requires IsProvisioning(op)
  {
    && SamePeople(s, s')
    && (ForGroup(op) && (exclusive || IsFixed(s, op.group)) ==>
          (IsMember(s', op.group, op.user) <==> IsMember(s, op.group, op.user)))
    && (ForRole(op) ==> RolesKept(op, s, s', exclusive))
    && (ForPermission(op) ==> SubjectsKept(op, s, s', exclusive))
  }

  lemma SamePersonFound(s: Snapshot, s': Snapshot, user: string)
    requires SamePeople(s, s')
    ensures UserOf(s', user).Some? <==> UserOf(s, user).Some?
    ensures UserOf(s, user).Some? ==> SameIdentity(UserOf(s, user).value, UserOf(s', user).value)
  {
    hide Atoi;
  }

  lemma GroupKnowledgeSurvives(op: Op, pc: Pc, s: Snapshot, s': Snapshot, exclusive: bool)
    requires ForGroup(op) && Untouched(op, s, s', exclusive) && KnowsGroup(op, pc, s, exclusive)
    ensures KnowsGroup(op, pc, s', exclusive)
  {
    hide UserOf, Atoi, Itoa;
    SamePersonFound(s, s', op.user);
  }

  lemma RoleKnowledgeSurvives(op: Op, pc: Pc, s: Snapshot, s': Snapshot, exclusive: bool)
    requires ForRole(op) && Fits(op, pc) && Untouched(op, s, s', exclusive) && KnowsRole(op, pc, s, exclusive)
    ensures KnowsRole(op, pc, s', exclusive)
  {
    hide UserOf, Atoi, Itoa, Floor;
    SamePersonFound(s, s', op.user);
    var row' := RoleRow(s', op.user);
    assert |row'| == 1 ==> row' == [row'[0]];
    assert op.role in [op.role];
  }

  /** The same record reads the same. */
  lemma SameRecordReads(s: Snapshot, s': Snapshot, permission: string, user: string)
    requires SamePeople(s, s') && SameRecord(s, s', permission)
    ensures SubjectsOf(s', permission) == SubjectsOf(s, permission)
    ensures HasPermission(s', user, permission) == HasPermission(s, user, permission)
    ensures forall body :: Stores(s, permission, body) ==> Stores(s', permission, body)
  {
    hide DecodePermission, HasSubject, SamePeople, UserOf, EncodeObjects, RewriteTags;
    SamePersonFound(s, s', user);
  }

  /** After its own change has been made by somebody else, the operation has been overtaken. */
  lemma OvertakenByTwin(op: Op, s: Snapshot)
    requires Inv(s) && ForPermission(op) && PermissionAnswer(op, s) == Applied
    ensures UserOf(s, op.user).Some? && Parse(UserOf(s, op.user).value.uuid).Some?
    ensures var u := UserOf(s, op.user).value;
      Overtaken(op, Revised(op, SubjectsOf(s, op.permission).value, Parse(u.uuid).value, u.name),
                PermissionWrite(op, s))
  {
    hide Inv, UserOf, SubjectsOf, PutPermission, HasPermission, Parse, Render, Canonical, Stores, Revised, Atoi;
    AppliedHasUser(op, s);
    PermissionAfter(s, op);
    UserOfFound(s, op.user);
    CanonicalParses(UserOf(s, op.user).value.uuid);
    var u, p := UserOf(s, op.user).value, SubjectsOf(s, op.permission).value;
    var body := Revised(op, p, Parse(u.uuid).value, u.name);
    RevisedKeepsUuid(op, p, Parse(u.uuid).value, u.name);
    PutPermissionReadBack(s, op.permission, body);
    PutStores(s, op.permission, body);
  }

  lemma RevisedKeepsUuid(op: Op, p: ClientPermission, uuid: Uuid, name: string)
    requires ForPermission(op)
    ensures Revised(op, p, uuid, name).uuid == p.uuid
  {
    hide DropSubject;
  }

  lemma PutStores(s: Snapshot, permission: string, body: ClientPermission)
    requires Inv(s) && SubjectsOf(s, permission).Some? && body.uuid == SubjectsOf(s, permission).value.uuid
    ensures Stores(PutPermission(s, body).0, permission, body)
  {
    hide Inv, CreateUser, UpdateUser, DeleteUser, SetUserEnabled, AddGroupMember, RemoveGroupMember, SetUserRoles,
      Parse, Render, SubjectsOf, RewriteTags, EncodeObjects;
    PermissionKey(s, permission);
  }

  lemma AppliedHasUser(op: Op, s: Snapshot)
    requires ForPermission(op) && PermissionAnswer(op, s) == Applied
    ensures UserOf(s, op.user).Some? && SubjectsOf(s, op.permission).Some? && op.principalType == USER_TYPE
    ensures HasPermission(s, op.user, op.permission) == op.PermissionRevoke?
  {
    hide UserOf, DecodePermission, HasSubject;
  }

  lemma PermissionKnowledgeSurvives(op: Op, pc: Pc, s: Snapshot, s': Snapshot, exclusive: bool)
    requires Inv(s) && ForPermission(op) && Untouched(op, s, s', exclusive) && KnowsPermission(op, pc, s, exclusive)
    ensures KnowsPermission(op, pc, s', exclusive)
  {
    hide Inv, SamePeople, UserOf, SubjectsOf, HasPermission, Stores, Parse, Atoi, Revised, PermissionWrite,
      PermissionAnswer, HasSubject;
    SamePersonFound(s, s', op.user);
    UserHasAtoi(s, op.user);
    if SameRecord(s, s', op.permission) {
      SameRecordReads(s, s', op.permission, op.user);
    } else if op.principalType == USER_TYPE && Atoi(op.user).Some? {
      AppliedHasUser(op, s);
      OvertakenByTwin(op, s);
      HasMeans(s, op.user, op.permission);
    }
  }

  lemma HasMeans(s: Snapshot, user: string, permission: string)
    requires UserOf(s, user).Some? && SubjectsOf(s, permission).Some?
    ensures HasPermission(s, user, permission) ==
      HasSubject(SubjectsOf(s, permission).value.subjects, UserOf(s, user).value.uuid)
  {}

  lemma KnowledgeSurvives(op: Op, pc: Pc, s: Snapshot, s': Snapshot, exclusive: bool)
    requires Inv(s) && IsProvisioning(op) && Fits(op, pc)
    requires Untouched(op, s, s', exclusive) && Knows(op, pc, s, exclusive)
    ensures Knows(op, pc, s', exclusive)
  {
    hide Inv, Fits, Untouched, KnowsGroup, KnowsRole, KnowsPermission;
    if ForGroup(op) { GroupKnowledgeSurvives(op, pc, s, s', exclusive); }
    else if ForRole(op) { RoleKnowledgeSurvives(op, pc, s, s', exclusive); }
    else { PermissionKnowledgeSurvives(op, pc, s, s', exclusive); }
  }

  lemma SettlementSurvives(e: bool, op: Op, pc: Pc, s: Snapshot, s': Snapshot)
    requires Fits(op, pc) && Decided(pc) && SamePeople(s, s') && Settled(e, op, pc, s)
    ensures Settled(e, op, pc, s')
  {
    hide UserOf;
    if pc.MemberFetch? { SamePersonFound(s, s', op.user); }
  }

  // ----- Enabling -------------------------------------------------------------------------

  lemma EnablingIsHarmless(op: Op, s: Snapshot, ids: set<int>, exclusive: bool)
    requires IsProvisioning(op)
    ensures Untouched(op, s, EnableUsers(s, ids), exclusive)
  {
    hide UserOf, Atoi, Itoa, DecodePermission, PermissionAnswer, PermissionWrite, Floor;
    EnablingKeepsPeople(s, ids);
    SamePersonFound(s, EnableUsers(s, ids), op.user);
  }

  lemma EnablingKeepsPeople(s: Snapshot, ids: set<int>)
    ensures SamePeople(s, EnableUsers(s, ids))
  {}

  // ----- Membership writes ----------------------------------------------------------------

  lemma UuidsIdentify(s: Snapshot, id: int, id': int)
    requires Inv(s)
    ensures
      var u, v := UserByID(s, id), UserByID(s, id');
      u.Some? && v.Some? && u.value.uuid == v.value.uuid ==> id == id'
    ensures
      var g, h := GroupByID(s, id), GroupByID(s, id');
      g.Some? && h.Some? && g.value.uuid == h.value.uuid ==> id == id'
  {
    hide IdsIssued, MembersAgree, RolesAgree, AllUsersComplete, PermissionsIndexed;
  }

  lemma PutKeepsPeople(s: Snapshot, u: User)
    requires u.uuid in s.users && SameIdentity(s.users[u.uuid], u)
    ensures SamePeople(s, PutUser(s, u))
  {}

  lemma MembershipKeepsPeople(s: Snapshot, groupID: int, userID: int)
    requires IndexesAgree(s.users, s.byID, s.order)
    ensures SamePeople(s, AddGroupMember(s, groupID, userID).0)
    ensures SamePeople(s, RemoveGroupMember(s, groupID, userID).0)
  {
    hide IndexesAgree, MemberCounts, Without, UserByID, PutUser;
    UserByIDFound(s, userID);
    if UserByID(s, userID).Some? && GroupByID(s, groupID).Some? {
      var u, g := UserByID(s, userID).value, GroupByID(s, groupID).value;
      PutKeepsPeople(s, u.(groupUUIDs := if g.uuid in u.groupUUIDs then u.groupUUIDs else u.groupUUIDs + [g.uuid]));
      PutKeepsPeople(s, u.(groupUUIDs := Without(u.groupUUIDs, g.uuid)));
    }
  }

  /** A membership write changes one row, by at most the one user. */
  lemma MembershipChangesOneRow(s: Snapshot, groupID: int, userID: int, group: string, uuid: string)
    requires !(UserByID(s, userID).Some? && GroupByID(s, groupID).Some?
               && uuid == UserByID(s, userID).value.uuid && group == GroupByID(s, groupID).value.uuid)
    ensures uuid in Row(AddGroupMember(s, groupID, userID).0.members, group) <==> uuid in Row(s.members, group)
    ensures uuid in Row(RemoveGroupMember(s, groupID, userID).0.members, group) <==> uuid in Row(s.members, group)
  {
    hide MemberCounts, Without, UserByID, GroupByID;
    if UserByID(s, userID).Some? && GroupByID(s, groupID).Some? {
      WithoutMembers(Row(s.members, GroupByID(s, groupID).value.uuid), UserByID(s, userID).value.uuid);
    }
  }

  /** A membership write leaves every other user's place in every group alone, and every place in a
      group whose membership is fixed. */
  lemma MembershipWriteIsHarmless(s: Snapshot, s': Snapshot, groupID: int, userID: int, group: string, user: string)
    requires Inv(s)
    requires s' == AddGroupMember(s, groupID, userID).0 || s' == RemoveGroupMember(s, groupID, userID).0
    requires Atoi(group) != Some(groupID) || Atoi(user) != Some(userID)
    ensures SamePeople(s, s') && (IsMember(s', group, user) <==> IsMember(s, group, user))
  {
    hide CatalogOk, IndexesAgree, IdsIssued, MembersAgree, RolesAgree, AllUsersComplete, PermissionsIndexed, Atoi,
      AddGroupMember, RemoveGroupMember, UserByID, GroupByID, SamePeople;
    MembershipKeepsPeople(s, groupID, userID);
    SamePersonFound(s, s', user);
    SameCatalog(s, s', group);
    if UserOf(s, user).Some? && GroupOf(s, group).Some? {
      UuidsIdentify(s, Atoi(user).value, userID);
      UuidsIdentify(s, Atoi(group).value, groupID);
      MembershipChangesOneRow(s, groupID, userID, GroupOf(s, group).value.uuid, UserOf(s, user).value.uuid);
    }
  }

  lemma SameCatalog(s: Snapshot, s': Snapshot, group: string)
    requires SamePeople(s, s')
    ensures GroupOf(s', group) == GroupOf(s, group)
  {}

  /** A membership write in terms of the server's two methods. */
  predicate MembershipStep(s: Snapshot, s': Snapshot, groupID: int, userID: int)
  {
    && !MembershipFixed(s, groupID)
    && (s' == AddGroupMember(s, groupID, userID).0 || s' == RemoveGroupMember(s, groupID, userID).0)
  }

  lemma GroupWriteIsStep(other: Op, s: Snapshot)
    requires ForGroup(other)
    ensures var s' := Write(other, s);
      || s' == s
      || (Atoi(other.group).Some? && Atoi(other.user).Some?
          && MembershipStep(s, s', Atoi(other.group).value, Atoi(other.user).value))
  {
    hide CreateUser, UpdateUser, DeleteUser, SetUserEnabled, AddGroupMember, RemoveGroupMember, SetUserRoles,
      UpdatePermission, Atoi, IsDecimal;
  }

  lemma MembershipKeepsRest(s: Snapshot, groupID: int, userID: int)
    ensures var s' := AddGroupMember(s, groupID, userID).0;
        s'.userRoles == s.userRoles && s'.permissions == s.permissions
    ensures var s' := RemoveGroupMember(s, groupID, userID).0;
        s'.userRoles == s.userRoles && s'.permissions == s.permissions
  {
    hide MemberCounts, Without, UserByID, GroupByID;
  }

  lemma GroupWriteIsHarmless(op: Op, s: Snapshot, other: Op, exclusive: bool)
    requires Inv(s) && IsProvisioning(op) && ForGroup(other) && (exclusive ==> !SameChange(op, other))
    ensures Untouched(op, s, Write(other, s), exclusive)
  {
    hide Inv, Write, Atoi, AddGroupMember, RemoveGroupMember, UserByID, GroupByID, SamePeople, IsMember,
      DecodePermission, PermissionAnswer, PermissionWrite, Floor;
    GroupWriteIsStep(other, s);
    var s' := Write(other, s);
    if s' == s {
      NobodyMoved(s);
    } else {
      var g, u := Atoi(other.group).value, Atoi(other.user).value;
      MembershipKeepsRest(s, g, u);
      PeopleKept(s, g, u);
      SamePersonFound(s, s', op.user);
      if ForGroup(op) && (exclusive || IsFixed(s, op.group)) {
        MembershipWriteIsHarmless(s, s', g, u, op.group, op.user);
      }
    }
  }

  lemma PeopleKept(s: Snapshot, groupID: int, userID: int)
    requires Inv(s)
    ensures SamePeople(s, AddGroupMember(s, groupID, userID).0)
        && SamePeople(s, RemoveGroupMember(s, groupID, userID).0)
  {
    hide CatalogOk, IndexesAgree, IdsIssued, MembersAgree, RolesAgree, AllUsersComplete, PermissionsIndexed,
      SamePeople, AddGroupMember, RemoveGroupMember;
    MembershipKeepsPeople(s, groupID, userID);
  }

  lemma NobodyMoved(s: Snapshot)
    ensures SamePeople(s, s)
  {}

  // ----- Role writes ----------------------------------------------------------------------

  lemma RolesChangeOneRow(s: Snapshot, uuid: string, row: seq<string>)
    requires IndexesAgree(s.users, s.byID, s.order)
    ensures var s' := SetUserRoles(s, uuid, row).0;
      && SamePeople(s, s') && s'.members == s.members && s'.permissions == s.permissions
      && forall k :: k != uuid ==> Row(s'.userRoles, k) == Row(s.userRoles, k)
  {
    hide RoleRefs;
  }

  lemma AssignChangesOneUser(s: Snapshot, other: string, role: string, user: string)
    requires Inv(s)
    ensures var s' := Assign(s, other, role);
      && SamePeople(s, s') && s'.members == s.members && s'.permissions == s.permissions
      && (UserOf(s, user).Some? && Atoi(user) != Atoi(other) ==>
            Row(s'.userRoles, UserOf(s, user).value.uuid) == Row(s.userRoles, UserOf(s, user).value.uuid))
  {
    hide CatalogOk, IndexesAgree, IdsIssued, MembersAgree, RolesAgree, AllUsersComplete, PermissionsIndexed,
      SamePeople, SetUserRoles, Atoi, UserByID;
    NobodyMoved(s);
    if UserOf(s, other).Some? {
      RolesChangeOneRow(s, UserOf(s, other).value.uuid, [role]);
      if UserOf(s, user).Some? && Atoi(user) != Atoi(other) { UuidsIdentify(s, Atoi(user).value, Atoi(other).value); }
    }
  }

  /** What a role operation leaves a user with, if it writes. */
  function Assigned(c: Catalog, op: Op): Option<string>
    requires ForRole(op)
  {
    if op.RoleGrant? then Some(op.role) else Floor(c.roleList)
  }

  lemma RoleWriteIsAssign(other: Op, s: Snapshot)
    requires Inv(s) && ForRole(other)
    ensures var s' := Write(other, s);
      s' == s || (UserOf(s, other.user).Some? && Answer(other, s) == Applied && Assigned(s.catalog, other).Some?
                  && Assigned(s.catalog, other).value in s.catalog.roles
                  && s' == Assign(s, other.user, Assigned(s.catalog, other).value))
    ensures Answer(other, s) == Applied ==>
      (other.RoleRevoke? ==> Assigned(s.catalog, other) != Some(other.role))
  {
    hide Inv, UserOf, Floor, Assign, Atoi;
    if other.RoleRevoke? && Floor(s.catalog.roleList).Some? { FloorKnown(s); }
  }

  lemma AssignedRow(s: Snapshot, other: string, role: string, user: string)
    requires Inv(s) && UserOf(s, other).Some? && role in s.catalog.roles && Atoi(user) == Atoi(other)
    ensures RoleRow(Assign(s, other, role), user) == [role]
  {
    hide Inv, UserByID, Assign, Atoi;
    AssignedRole(s, other, role);
  }

  /** A role write leaves a non-clashing role operation something that it can live with. */
  lemma RoleWriteKeepsRoles(op: Op, s: Snapshot, other: Op, exclusive: bool)
    requires Inv(s) && ForRole(op) && ForRole(other) && !Clash(s.catalog, op, other)
    requires exclusive ==> !SameChange(op, other)
    ensures RolesKept(op, s, Write(other, s), exclusive)
  {
    hide Inv, Write, Assign, Answer, Atoi, UserOf, Floor;
    var s' := Write(other, s);
    RoleWriteIsAssign(other, s);
    if s' != s {
      var role := Assigned(s.catalog, other).value;
      AssignChangesOneUser(s, other.user, role, op.user);
      SamePersonFound(s, s', op.user);
      UserHasAtoi(s, op.user);
      UserHasAtoi(s, other.user);
      if Atoi(op.user) == Atoi(other.user) { AssignedRow(s, other.user, role, op.user); }
    }
  }

  lemma RoleWriteIsHarmless(op: Op, s: Snapshot, other: Op, exclusive: bool)
    requires Inv(s) && IsProvisioning(op) && ForRole(other) && !Clash(s.catalog, op, other)
    requires exclusive ==> !SameChange(op, other)
    ensures Untouched(op, s, Write(other, s), exclusive)
  {
    hide Inv, Write, Assign, Answer, Atoi, UserOf, SamePeople, DecodePermission, Floor, RolesKept, Clash, SameChange,
      PermissionAnswer, PermissionWrite;
    NobodyMoved(s);
    RoleWriteIsAssign(other, s);
    if ForRole(op) { RoleWriteKeepsRoles(op, s, other, exclusive); }
    var s' := Write(other, s);
    if s' != s {
      AssignChangesOneUser(s, other.user, Assigned(s.catalog, other).value, op.user);
      SamePersonFound(s, s', op.user);
      if ForGroup(op) { SameCatalog(s, s', op.group); }
    }
  }

  lemma UserHasAtoi(s: Snapshot, user: string)
    ensures UserOf(s, user).Some? ==> Atoi(user).Some?
  {
    hide Atoi, UserByID;
  }

  // ----- Permission writes ----------------------------------------------------------------

  /** What a permission write can leave behind. */
  lemma PermissionWriteTouchesOne(other: Op, s: Snapshot)
    requires Inv(s) && ForPermission(other)
    ensures var s' := Write(other, s);
      && s' == s.(permissions := s'.permissions)
      && (forall q :: q != other.permission ==> SameRecord(s, s', q))
      && (forall q :: SubjectsOf(s', q).Some? <==> SubjectsOf(s, q).Some?)
      && (s' == s || (PermissionAnswer(other, s) == Applied && UserOf(s, other.user).Some?
                      && SubjectsOf(s, other.permission).Some? && s' == PermissionWrite(other, s)))
  {
    hide Inv, Atoi, Itoa, UserOf, PutPermission, DecodePermission, HasSubject, DropSubject, Parse;
    if PermissionAnswer(other, s) == Applied && Parse(UserOf(s, other.user).value.uuid).Some? {
      var u := UserOf(s, other.user).value;
      PutPermissionReadBack(s, other.permission, Revised(other, SubjectsOf(s, other.permission).value,
          Parse(u.uuid).value, u.name));
    }
  }

  /** The same change by another operation of the same kind. */
  lemma TwinWrites(op: Op, other: Op, s: Snapshot)
    requires SameSubjectsTwin(op, other) && PermissionAnswer(other, s) == Applied
    ensures PermissionAnswer(op, s) == Applied && UserOf(s, op.user).Some? && SubjectsOf(s, op.permission).Some?
    ensures UserOf(s, other.user).Some? && PermissionWrite(op, s) == PermissionWrite(other, s)
  {
    hide UserByID, SubjectsOf, Atoi, Parse, PutPermission, HasSubject, DropSubject;
    AppliedHasUser(other, s);
    assert UserOf(s, op.user) == UserOf(s, other.user);
  }

  predicate SameSubjectsTwin(a: Op, b: Op)
  {
    SameSubjects(a, b) && a.principalType == USER_TYPE && b.principalType == USER_TYPE
  }

  lemma PermissionWriteKeepsSubjects(op: Op, s: Snapshot, other: Op, exclusive: bool)
    requires Inv(s) && ForPermission(op) && ForPermission(other) && !Clash(s.catalog, op, other)
    requires exclusive ==> !SameChange(op, other)
    ensures SubjectsKept(op, s, Write(other, s), exclusive)
  {
    hide Inv, Write, Atoi, Itoa, SubjectsOf, UserOf, PermissionAnswer, PermissionWrite;
    PermissionWriteTouchesOne(other, s);
    var s' := Write(other, s);
    if s' != s && op.permission == other.permission && op.principalType == USER_TYPE && Atoi(op.user).Some? {
      AppliedHasUser(other, s);
      UserHasAtoi(s, other.user);
      TwinWrites(op, other, s);
    }
  }

  lemma PermissionWriteIsHarmless(op: Op, s: Snapshot, other: Op, exclusive: bool)
    requires Inv(s) && IsProvisioning(op) && ForPermission(other) && !Clash(s.catalog, op, other)
    requires exclusive ==> !SameChange(op, other)
    ensures Untouched(op, s, Write(other, s), exclusive)
  {
    hide Inv, Write, Atoi, Itoa, SamePeople, SubjectsOf, UserByID, GroupByID, SubjectsKept, Clash, SameChange, Floor;
    PermissionWriteTouchesOne(other, s);
    SamePeopleIfSameUsers(s, Write(other, s));
    SameUsersSameUser(s, Write(other, s), op.user);
    if ForGroup(op) { SameCatalog(s, Write(other, s), op.group); }
    if ForPermission(op) { PermissionWriteKeepsSubjects(op, s, other, exclusive); }
  }

  lemma SamePeopleIfSameUsers(s: Snapshot, s': Snapshot)
    requires s'.catalog == s.catalog && s'.byID == s.byID && s'.users == s.users
    ensures SamePeople(s, s')
  {}

  lemma WriteKeepsCatalog(op: Op, s: Snapshot)
    requires IsProvisioning(op)
    ensures Write(op, s).catalog == s.catalog
  {
    hide Atoi, IsDecimal, UserOf, Answer, RoleGrantAnswer, RoleRevokeAnswer, PermissionAnswer, Floor, RoleRefs,
      MemberCounts, Without, UserByID, GroupByID, DecodePermission, Parse, Render, Revised, CreateUser, UpdateUser,
      DeleteUser, SetUserEnabled;
  }

  /** A write leaves a non-clashing operation with what it has learnt, as far as it depends on it. */
  lemma WriteIsHarmless(op: Op, s: Snapshot, other: Op, exclusive: bool)
    requires Inv(s) && IsProvisioning(op) && IsProvisioning(other) && !Clash(s.catalog, op, other)
    requires exclusive ==> !SameChange(op, other)
    ensures Untouched(op, s, Write(other, s), exclusive)
  {
    hide Inv, Write, Untouched, Clash, SameChange;
    if ForGroup(other) { GroupWriteIsHarmless(op, s, other, exclusive); }
    else if ForRole(other) { RoleWriteIsHarmless(op, s, other, exclusive); }
    else { PermissionWriteIsHarmless(op, s, other, exclusive); }
  }
}
