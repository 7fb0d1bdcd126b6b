/** Doing an operation a second time changes nothing, and what a permission write leaves behind. */
module Repetition {
  import opened Wrappers
  import opened Sequences
  import opened Text
  import opened Uuids
  import opened Directory
  import opened Invariants
  import opened Wire
  import opened Protocol
  import opened Reading
  import opened Meaning
  import opened Linearisation

  // ----- The wire round trip --------------------------------------------------------------

  lemma ObjectRoundTrip(o: TenableObject)
    ensures DecodeObject(EncodeObject(o)) == Some(o)
  {
    hide Parse, Render;
    ParseOfRender(o.uuid);
  }

  lemma EncodedHead(os: seq<TenableObject>)
    requires os != []
    ensures EncodeObjects(os)[0] == EncodeObject(os[0]) && EncodeObjects(os)[1..] == EncodeObjects(os[1..])
  {
    hide EncodeObject;
  }

  /** What the client writes it reads back. */
  lemma {:induction false} ObjectsRoundTrip(os: seq<TenableObject>)
    ensures DecodeAll(EncodeObjects(os), DecodeObject) == Some(os)
  {
    hide Parse, Render, EncodeObject, EncodeObjects;
    if os != [] {
      ObjectRoundTrip(os[0]);
      ObjectsRoundTrip(os[1..]);
      EncodedHead(os);
      assert os == [os[0]] + os[1..];
    }
  }

  /** After the PUT the permission reads back as the body, with its tags rewritten, and nothing else
      on the server has changed. */
  lemma PutPermissionReadBack(s: Snapshot, permission: string, p: ClientPermission)
    requires Inv(s) && SubjectsOf(s, permission).Some? && p.uuid == SubjectsOf(s, permission).value.uuid
    ensures var s' := PutPermission(s, p).0;
      && SubjectsOf(s', permission) == Some(p.(objects := RewriteTags(p.objects)))
      && s' == s.(permissions := s'.permissions) && s'.permissions.Keys == s.permissions.Keys
      && (forall q :: q in s.permissions && q != permission ==> s'.permissions[q] == s.permissions[q])
  {
    hide Inv, CreateUser, UpdateUser, DeleteUser, SetUserEnabled, AddGroupMember, RemoveGroupMember, SetUserRoles,
      Parse, Render, RewriteTags, EncodeObjects, DecodeAll;
    PermissionKey(s, permission);
    ObjectsRoundTrip(RewriteTags(p.objects));
    ObjectsRoundTrip(p.subjects);
    DecodedUuid(s, permission);
  }

  lemma DecodedUuid(s: Snapshot, permission: string)
    requires SubjectsOf(s, permission).Some?
    ensures Parse(s.permissions[permission].uuid) == Some(SubjectsOf(s, permission).value.uuid)
  {}

  // ----- Subject lists --------------------------------------------------------------------

  lemma {:induction false} DropSubjectMembers(subjects: seq<TenableObject>, uuid: Uuid)
    ensures forall x :: x in DropSubject(subjects, uuid) <==> x in subjects && x.uuid != uuid
  {
    if subjects != [] {
      DropSubjectMembers(subjects[1..], uuid);
      assert forall x :: x in subjects <==> x == subjects[0] || x in subjects[1..];
    }
  }

  lemma SubjectDropped(subjects: seq<TenableObject>, uuid: Uuid)
    ensures !HasSubject(DropSubject(subjects, uuid), Render(uuid))
  {
    hide Render;
    var kept := DropSubject(subjects, uuid);
    DropSubjectMembers(subjects, uuid);
    if HasSubject(kept, Render(uuid)) {
      var i :| 0 <= i < |kept| && Render(kept[i].uuid) == Render(uuid);
      assert kept[i] in kept;
      RenderInjective(kept[i].uuid, uuid);
      assert false;
    }
  }

  lemma SubjectAdded(subjects: seq<TenableObject>, x: TenableObject)
    ensures HasSubject(subjects + [x], Render(x.uuid))
  {
    hide Render;
    assert (subjects + [x])[|subjects|] == x;
  }

  // ----- Once is enough -------------------------------------------------------------------

  /** The same failure, or success both times. */
  predicate SameVerdict(a: Outcome, b: Outcome)
  {
    (a.Failed? || b.Failed?) ==> a == b
  }

  /** A second execution finds nothing to write and does not fail where the first did not. */
  predicate Repeatable(op: Op, s: Snapshot)
    requires IsProvisioning(op)
  {
    && Write(op, Write(op, s)) == Write(op, s)
    && SameVerdict(Answer(op, Write(op, s)), Answer(op, s))
  }

  lemma AddedMember(s: Snapshot, groupID: int, userID: int)
    requires IndexesAgree(s.users, s.byID, s.order) && UserByID(s, userID).Some? && GroupByID(s, groupID).Some?
    ensures var s' := AddGroupMember(s, groupID, userID).0;
      && UserByID(s', userID).Some? && s'.catalog == s.catalog
      && UserByID(s', userID).value.uuid in Row(s'.members, GroupByID(s, groupID).value.uuid)
  {
    hide MemberCounts;
    UserByIDFound(s, userID);
  }

  lemma RemovedMember(s: Snapshot, groupID: int, userID: int)
    requires IndexesAgree(s.users, s.byID, s.order) && UserByID(s, userID).Some? && GroupByID(s, groupID).Some?
    ensures var s' := RemoveGroupMember(s, groupID, userID).0;
      && UserByID(s', userID).Some? && s'.catalog == s.catalog
      && UserByID(s', userID).value.uuid !in Row(s'.members, GroupByID(s, groupID).value.uuid)
  {
    hide MemberCounts, Without;
    UserByIDFound(s, userID);
    WithoutMembers(Row(s.members, GroupByID(s, groupID).value.uuid), UserByID(s, userID).value.uuid);
  }

  lemma MembershipAfter(s: Snapshot, group: string, user: string)
    requires Inv(s) && GroupOf(s, group).Some? && UserOf(s, user).Some? && !IsFixed(s, group)
    ensures var s' := PostGroupMember(s, group, user).0;
      IsMember(s', group, user) && GroupOf(s', group) == GroupOf(s, group)
    ensures var s' := DeleteGroupMember(s, group, user).0;
      !IsMember(s', group, user) && GroupOf(s', group) == GroupOf(s, group) && UserOf(s', user).Some?
  {
    hide CatalogOk, IndexesAgree, IdsIssued, MembersAgree, RolesAgree, AllUsersComplete, PermissionsIndexed,
      CreateUser, UpdateUser, DeleteUser, SetUserEnabled, SetUserRoles, UpdatePermission, AddGroupMember,
      RemoveGroupMember, Atoi, UserByID;
    AddedMember(s, Atoi(group).value, Atoi(user).value);
    RemovedMember(s, Atoi(group).value, Atoi(user).value);
  }

  lemma GroupGrantRepeats(s: Snapshot, op: Op)
    requires Inv(s) && op.GroupGrant?
    ensures Repeatable(op, s)
  {
    hide Inv, UserOf, GroupOf, PostGroupMember, DeleteGroupMember, Atoi, Itoa;
    MembershipWriteIdle(s, op.group, op.user);
    PostIdleUnlessApplied(s, op.group, op.user);
    if GroupGrantAnswer(s, op.user, op.group) == Applied {
      MembershipAfter(s, op.group, op.user);
      MembershipWriteIdle(PostGroupMember(s, op.group, op.user).0, op.group, op.user);
    }
  }

  lemma PostIdleUnlessApplied(s: Snapshot, group: string, user: string)
    ensures UserOf(s, user).None? || IsFixed(s, group) || Atoi(user).None? ==>
      PostGroupMember(s, group, user).0 == s && DeleteGroupMember(s, group, user).0 == s
  {
    hide CreateUser, UpdateUser, DeleteUser, SetUserEnabled, SetUserRoles, UpdatePermission, Atoi;
  }

  lemma GroupRevokeRepeats(s: Snapshot, op: Op)
    requires Inv(s) && op.GroupRevoke?
    ensures Repeatable(op, s)
  {
    hide Inv, UserOf, GroupOf, PostGroupMember, DeleteGroupMember, Atoi, Itoa;
    MembershipWriteIdle(s, op.group, op.user);
    PostIdleUnlessApplied(s, op.group, op.user);
    if GroupRevokeAnswer(s, op.user, op.group) == Applied {
      MembershipAfter(s, op.group, op.user);
      MembershipWriteIdle(DeleteGroupMember(s, op.group, op.user).0, op.group, op.user);
    }
  }

  /** After an assignment the user holds that role and no other. */
  lemma AssignedRole(s: Snapshot, user: string, role: string)
    requires Inv(s) && UserOf(s, user).Some? && role in s.catalog.roles
    ensures var s' := Assign(s, user, role);
      && UserOf(s', user).Some? && s'.catalog == s.catalog
      && Row(s'.userRoles, UserOf(s', user).value.uuid) == [role]
  {
    hide Inv, Atoi, Canonical, RoleRefs;
    UserOfFound(s, user);
  }

  lemma AssignKeepsUuid(s: Snapshot, user: string, role: string)
    requires Inv(s) && UserOf(s, user).Some?
    ensures UserOf(Assign(s, user, role), user).Some? && UserOf(Assign(s, user, role), user).value.uuid ==
        UserOf(s, user).value.uuid
  {
    hide Inv, Atoi, Canonical, RoleRefs;
    UserOfFound(s, user);
  }

  lemma RoleRepeats(s: Snapshot, op: Op)
    requires Inv(s) && ForRole(op)
    ensures Repeatable(op, s)
  {
    hide CatalogOk, IndexesAgree, IdsIssued, MembersAgree, RolesAgree, AllUsersComplete, PermissionsIndexed, UserOf,
      Assign, Floor, Atoi, Itoa;
    if op.RoleGrant? {
      if RoleGrantAnswer(s, op.user, op.role) == Applied { AssignedRole(s, op.user, op.role); }
    } else if RoleRevokeAnswer(s, op.user, op.role) == Applied {
      FloorIsRole(s.catalog);
      AssignedRole(s, op.user, Floor(s.catalog.roleList).value);
    }
  }

  /** After a grant the user has the permission, after a revoke it does not. */
  lemma PermissionAfter(s: Snapshot, op: Op)
    requires Inv(s) && ForPermission(op) && PermissionAnswer(op, s) == Applied
    ensures var s' := Write(op, s);
      && UserOf(s', op.user) == UserOf(s, op.user) && UserOf(s, op.user).Some?
      && op.permission in s'.permissions && SubjectsOf(s', op.permission).Some?
      && HasPermission(s', op.user, op.permission) == op.PermissionGrant?
  {
    hide Inv, UserOf, SubjectsOf, PutPermission, HasSubject, DropSubject, Parse, Render, Canonical, RewriteTags, Atoi,
      Itoa;
    UserOfFound(s, op.user);
    var u, p := UserOf(s, op.user).value, SubjectsOf(s, op.permission).value;
    CanonicalParses(u.uuid);
    var uuid := Parse(u.uuid).value;
    var body := Revised(op, p, uuid, u.name);
    PutPermissionReadBack(s, op.permission, body);
    PermissionKey(s, op.permission);
    SameUsersSameUser(s, PutPermission(s, body).0, op.user);
    if op.PermissionGrant? { SubjectAdded(p.subjects, TenableObject(USER_SUBJECT, uuid, u.name)); }
    else { SubjectDropped(p.subjects, uuid); }
  }

  lemma PermissionRepeats(s: Snapshot, op: Op)
    requires Inv(s) && ForPermission(op)
    ensures Repeatable(op, s)
  {
    hide Inv, UserOf, SubjectsOf, PermissionWrite, HasSubject, Atoi, Itoa;
    if PermissionAnswer(op, s) == Applied { PermissionAfter(s, op); }
  }

  lemma SameUsersSameUser(s: Snapshot, s': Snapshot, user: string)
    requires s'.users == s.users && s'.byID == s.byID
    ensures UserOf(s', user) == UserOf(s, user)
  {}

  lemma OnceIsEnough(op: Op, s: Snapshot)
    requires Inv(s) && IsProvisioning(op)
    ensures Repeatable(op, s)
  {
    hide Inv, Repeatable;
    match op
    case GroupGrant(_, _) => GroupGrantRepeats(s, op);
    case GroupRevoke(_, _) => GroupRevokeRepeats(s, op);
    case RoleGrant(_, _) => RoleRepeats(s, op);
    case RoleRevoke(_, _) => RoleRepeats(s, op);
    case PermissionGrant(_, _, _) => PermissionRepeats(s, op);
    case PermissionRevoke(_, _, _) => PermissionRepeats(s, op);
  }
}
