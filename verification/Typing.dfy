/** Permission subjects that mean what their type says, and why the permission sync then cannot fail. */
module Typing {
  import opened Wrappers
  import opened Sequences
  import opened Text
  import opened Uuids
  import opened Directory
  import opened Invariants
  import opened Wire
  import opened Reading
  import opened Meaning
  import opened Subjects
  import opened Sync
  import opened Agreement

  /** A User subject names a live user, a UserGroup subject a group, and a subject of any other kind
      carries a UUID that no user has or will be given (in practice none at all). */
  ghost predicate SubjectTyped(s: Snapshot, x: Subject)
  {
    && DecodeObject(x).Some?
    && var uuid := Normal(x).uuid;
       if x.typ == "User" then uuid in s.users
       else if x.typ == "UserGroup" then uuid in GroupUuids(s.catalog)
       else uuid !in s.users && !(UUID_PREFIX <= uuid)
  }

  ghost predicate PermissionTyped(s: Snapshot, p: Permission)
  {
    && (forall i :: 0 <= i < |p.objects| ==> DecodeObject(p.objects[i]).Some?)
    && (forall i :: 0 <= i < |p.subjects| ==> SubjectTyped(s, p.subjects[i]))
  }

  ghost predicate PermissionsTyped(s: Snapshot)
  {
    forall p :: p in s.permissions ==> PermissionTyped(s, s.permissions[p])
  }

  // ----- Reading the permissions ----------------------------------------------------------

  lemma DecodesIfAllDo(xs: seq<Subject>)
    requires forall i :: 0 <= i < |xs| ==> DecodeObject(xs[i]).Some?
    ensures DecodeAll(xs, DecodeObject).Some?
  {
    hide Parse;
  }

  lemma TypedDecodes(s: Snapshot, p: string)
    requires Inv(s) && p in s.permissions && PermissionTyped(s, s.permissions[p])
    ensures SubjectsOf(s, p).Some?
  {
    hide CatalogOk, IndexesAgree, IdsIssued, MembersAgree, RolesAgree, AllUsersComplete, Parse, Canonical, Normal,
      DecodeAll;
    CanonicalParses(p);
    DecodesIfAllDo(s.permissions[p].objects);
    DecodesIfAllDo(s.permissions[p].subjects);
  }

  lemma PermissionOrder(s: Snapshot)
    requires Inv(s)
    ensures NoDuplicates(s.permissionOrder) && forall p :: p in s.permissionOrder <==> p in s.permissions
  {
    hide CatalogOk, IndexesAgree, IdsIssued, MembersAgree, RolesAgree, AllUsersComplete;
  }

  lemma {:induction false} LivePermissionsAll(permissions: map<string, Permission>, uuids: seq<string>)
    requires forall p :: p in uuids ==> p in permissions
    ensures |LivePermissions(permissions, uuids)| == |uuids|
    ensures forall i :: 0 <= i < |uuids| ==> LivePermissions(permissions, uuids)[i] == permissions[uuids[i]]
  {
    if uuids != [] {
      assert uuids == [uuids[0]] + uuids[1..];
      assert uuids[0] in uuids;
      LivePermissionsAll(permissions, uuids[1..]);
    }
  }

  /** What the server lists, and how each entry reads. */
  lemma ListedPermissions(s: Snapshot)
    requires Inv(s)
    ensures |ListPermissions(s)| == |s.permissionOrder|
    ensures forall i :: 0 <= i < |s.permissionOrder| ==>
      && s.permissionOrder[i] in s.permissions
      && DecodePermissionRecord(ListPermissions(s)[i]) == SubjectsOf(s, s.permissionOrder[i])
    ensures forall p :: p in s.permissions ==> exists i :: 0 <= i < |s.permissionOrder| && s.permissionOrder[i] == p
  {
    hide Inv, DecodePermission, LivePermissions;
    PermissionOrder(s);
    LivePermissionsAll(s.permissions, s.permissionOrder);
    assert forall i :: 0 <= i < |s.permissionOrder| ==> s.permissionOrder[i] in s.permissionOrder;
    forall p | p in s.permissions
      ensures exists i :: 0 <= i < |s.permissionOrder| && s.permissionOrder[i] == p
    {
      assert p in s.permissionOrder;
    }
  }

  /** GET of the permission list decodes exactly when every permission does, and then lists them all
      in the server's order. */
  lemma PermissionListRead(s: Snapshot)
    requires Inv(s)
    ensures GetPermissions(s).Ok? <==> forall p :: p in s.permissions ==> SubjectsOf(s, p).Some?
    ensures GetPermissions(s).Ok? ==>
      var ps := GetPermissions(s).value;
      |ps| == |s.permissionOrder| && forall i :: 0 <= i < |ps| ==> SubjectsOf(s, s.permissionOrder[i]) == Some(ps[i])
  {
    hide Inv, SubjectsOf, DecodePermissionRecord, ListPermissions;
    ListedPermissions(s);
    var live := ListPermissions(s);
    if GetPermissions(s).Err? {
      var i :| 0 <= i < |live| && DecodePermissionRecord(live[i]).None?;
      assert SubjectsOf(s, s.permissionOrder[i]).None?;
    } else {
      forall p | p in s.permissions
        ensures SubjectsOf(s, p).Some?
      {
        var i :| 0 <= i < |s.permissionOrder| && s.permissionOrder[i] == p;
        assert DecodePermissionRecord(live[i]) == SubjectsOf(s, p);
      }
    }
  }

  // ----- When the permission sync fails ---------------------------------------------------

  /** Every user and group subject of this permission is somebody the server knows, users at the time
      of the second request and groups at the time of the third. */
  predicate Resolves(s: Snapshot, users: Snapshot, groups: Snapshot, p: string)
  {
    && SubjectsOf(s, p).Some?
    && forall i :: 0 <= i < |SubjectsOf(s, p).value.subjects| ==>
         Resolvable(users, groups, SubjectsOf(s, p).value.subjects[i])
  }

  predicate Resolvable(users: Snapshot, groups: Snapshot, x: TenableObject)
  {
    && (x.typ == "User" ==> Render(x.uuid) in users.users)
    && (x.typ == "UserGroup" ==> Render(x.uuid) in GroupUuids(groups.catalog))
  }

  lemma KnownMeansResolvable(users: Snapshot, groups: Snapshot, subjects: seq<TenableObject>)
    requires Inv(users) && Inv(groups)
    ensures GetUsers(users).Ok?
    ensures AllKnown(subjects, UsersByUuid(GetUsers(users).value), GroupsByUuid(GetGroups(groups))) <==>
            forall i :: 0 <= i < |subjects| ==> Resolvable(users, groups, subjects[i])
  {
    hide Inv, GetUsers, UsersByUuid, GroupsByUuid, Render, GroupUuids, Itoa;
    UserIndexRead(users);
    GroupIndexRead(groups);
  }

  /** permissionBuilder.List fails exactly when some permission does not decode or has a user or group
      subject that the server does not know when it is asked for them; otherwise it lists every
      permission in order. */
  lemma SyncFailsExactly(s: Snapshot, users: Snapshot, groups: Snapshot)
    requires Inv(s) && Inv(users) && Inv(groups)
    ensures SyncedAcross(s, users, groups).Ok? <==> forall p :: p in s.permissions ==> Resolves(s, users, groups, p)
    ensures SyncedAcross(s, users, groups).Ok? ==>
      GetUsers(users).Ok? && |SyncedAcross(s, users, groups).value| == |s.permissionOrder|
    ensures SyncedAcross(s, users, groups).Ok? ==> forall i :: 0 <= i < |s.permissionOrder| ==>
      SubjectsOf(s, s.permissionOrder[i]).Some? &&
      PermissionResource(SubjectsOf(s, s.permissionOrder[i]).value, UsersByUuid(GetUsers(users).value),
          GroupsByUuid(GetGroups(groups)))
        == Ok(SyncedAcross(s, users, groups).value[i])
  {
    hide Inv, GetUsers, GetPermissions, UsersByUuid, GroupsByUuid, GetGroups, Resolvable, AllKnown,
      PermissionResource, PermissionResources, PlainValues;
    PermissionListRead(s);
    PermissionOrder(s);
    UserIndexRead(users);
    GroupIdsArePlain(GetGroups(groups));
    var order := s.permissionOrder;
    if GetPermissions(s).Ok? {
      var ps := GetPermissions(s).value;
      ListMeans(ps, UsersByUuid(GetUsers(users).value), GroupsByUuid(GetGroups(groups)));
      forall i | 0 <= i < |ps|
        ensures Resolves(s, users, groups, order[i]) <==>
                AllKnown(ps[i].subjects, UsersByUuid(GetUsers(users).value), GroupsByUuid(GetGroups(groups)))
      {
        KnownMeansResolvable(users, groups, ps[i].subjects);
      }
      forall p | p in s.permissions
        ensures exists i :: 0 <= i < |ps| && order[i] == p
      {
        assert p in order;
      }
      assert forall i :: 0 <= i < |ps| ==> order[i] in order;
    } else {
      var p :| p in s.permissions && SubjectsOf(s, p).None?;
      assert !Resolves(s, users, groups, p);
    }
  }
}
