/** Who holds a permission: on the server, according to provisioning, and according to the synced
    grants with group grants expanded. */
module Access {
  import opened Wrappers
  import opened Text
  import opened Uuids
  import opened Directory
  import opened Invariants
  import opened Wire
  import opened Protocol
  import opened Reading
  import opened Meaning
  import opened Linearisation
  import opened Retry
  import opened Subjects
  import opened Sync
  import opened Agreement
  import opened Typing

  // ----- Holding a permission on the server -----------------------------------------------

  predicate Names(x: Subject, typ: string, uuid: string)
  {
    x.typ == typ && Normal(x).uuid == uuid
  }

  /** Named by a User subject. */
  predicate HoldsDirectly(s: Snapshot, p: string, k: string)
    requires p in s.permissions
  {
    exists i :: 0 <= i < |s.permissions[p].subjects| && Names(s.permissions[p].subjects[i], "User", k)
  }

  /** A member of a group that a UserGroup subject names. */
  predicate HoldsThroughGroup(s: Snapshot, p: string, k: string)
    requires p in s.permissions
  {
    exists i :: 0 <= i < |s.permissions[p].subjects| && NamesGroupOf(s, s.permissions[p].subjects[i], k)
  }

  predicate Holds(s: Snapshot, p: string, k: string)
    requires p in s.permissions
  {
    HoldsDirectly(s, p, k) || HoldsThroughGroup(s, p, k)
  }

  predicate NamesGroupOf(s: Snapshot, x: Subject, k: string)
  {
    x.typ == "UserGroup" && k in Row(s.members, Normal(x).uuid)
  }

  // ----- Subjects as the client has them --------------------------------------------------

  lemma SubjectsAligned(s: Snapshot, p: string)
    requires SubjectsOf(s, p).Some?
    ensures p in s.permissions
    ensures var os, xs := SubjectsOf(s, p).value.subjects, s.permissions[p].subjects;
      |os| == |xs| && forall i :: 0 <= i < |os| ==> os[i].typ == xs[i].typ && Render(os[i].uuid) == Normal(xs[i]).uuid
  {
    hide Parse, Render, DecodeAll, Normal, EncodeObjects;
    DecodedParts(s, p);
    var os, xs := SubjectsOf(s, p).value.subjects, s.permissions[p].subjects;
    RoundTripNormalises(xs);
    forall i | 0 <= i < |os|
      ensures os[i].typ == xs[i].typ && Render(os[i].uuid) == Normal(xs[i]).uuid
    {
      NormalKeepsType(xs[i], os[i]);
      EncodedAt(os, i);
    }
  }

  lemma NormalKeepsType(x: Subject, o: TenableObject)
    ensures Normal(x).typ == x.typ && EncodeObject(o).typ == o.typ && EncodeObject(o).uuid == Render(o.uuid)
  {}

  lemma EncodedAt(os: seq<TenableObject>, i: nat)
    requires i < |os|
    ensures EncodeObjects(os)[i] == EncodeObject(os[i])
  {}

  lemma TypedResolves(s: Snapshot, p: string)
    requires Inv(s) && PermissionsTyped(s) && p in s.permissions
    ensures Resolves(s, s, s, p)
  {
    hide Inv, Parse, Render, Normal, DecodeObject, DecodePermission;
    TypedDecodes(s, p);
    SubjectsAligned(s, p);
    var xs := s.permissions[p].subjects;
    assert forall i :: 0 <= i < |xs| ==> SubjectTyped(s, xs[i]);
  }

  /** With every subject well typed, the permission sync succeeds, even if users have been added by the
      time that they are asked for. */
  lemma TypedSyncSucceeds(s: Snapshot, users: Snapshot, groups: Snapshot)
    requires Inv(s) && PermissionsTyped(s) && Inv(users) && Inv(groups)
    requires s.users.Keys <= users.users.Keys && groups.catalog == s.catalog
    ensures SyncedAcross(s, users, groups).Ok? && |SyncedAcross(s, users, groups).value| == |s.permissionOrder|
  {
    hide Inv, PermissionsTyped, Resolves, SyncedAcross, SubjectsOf, PermissionResource;
    forall p | p in s.permissions
      ensures Resolves(s, users, groups, p)
    {
      TypedResolves(s, p);
      LaterResolves(s, users, groups, p);
    }
    SyncFailsExactly(s, users, groups);
  }

  lemma LaterResolves(s: Snapshot, users: Snapshot, groups: Snapshot, p: string)
    requires s.users.Keys <= users.users.Keys && groups.catalog == s.catalog && Resolves(s, s, s, p)
    ensures Resolves(s, users, groups, p)
  {
    hide Render, SubjectsOf;
    var xs := SubjectsOf(s, p).value.subjects;
    assert forall i :: 0 <= i < |xs| ==> Resolvable(s, s, xs[i]);
  }

  lemma UsersAreNoGroups(s: Snapshot, k: string)
    requires Inv(s) && k in s.users
    ensures k !in GroupUuids(s.catalog)
  {
    hide CatalogOk, IndexesAgree, MembersAgree, RolesAgree, AllUsersComplete, PermissionsIndexed, Issued;
  }

  /** Provisioning, which ignores a subject's type, finds exactly the users named by User subjects. */
  lemma HasSubjectIsDirect(s: Snapshot, p: string, k: string)
    requires Inv(s) && PermissionsTyped(s) && p in s.permissions && k in s.users
    ensures SubjectsOf(s, p).Some? && (HasSubject(SubjectsOf(s, p).value.subjects, k) <==> HoldsDirectly(s, p, k))
  {
    hide Inv, Parse, Render, Normal, DecodeObject, DecodePermission, GroupUuids;
    TypedDecodes(s, p);
    SubjectsAligned(s, p);
    UsersAreNoGroups(s, k);
    var xs := s.permissions[p].subjects;
    assert forall i :: 0 <= i < |xs| ==> SubjectTyped(s, xs[i]);
  }

  // ----- The synced grants of one permission ----------------------------------------------

  lemma GrantsOfResource(p: ClientPermission, users: map<string, ClientUser>, groups: map<string, string>, r: Resource)
    requires PlainValues(groups) && PermissionResource(p, users, groups) == Ok(r)
    ensures r.id == ResourceId("permission", Render(p.uuid))
    ensures forall id :: UserSubjectGrant(r.id, id) in PermissionGrants(r) <==> HasUserSubject(p.subjects, users, id)
    ensures forall id :: GroupSubjectGrant(r.id, id) in PermissionGrants(r) <==> HasGroupSubject(p.subjects, groups, id)
  {
    hide Render, Itoa, HasUserSubject, HasGroupSubject, PermissionProfile, PermissionGrants, AllKnown, EntitlementId;
    ResolveMeans(p.subjects, users, groups);
    var ids := ResolveSubjects(p.subjects, users, groups).value;
    SubjectsSurviveTheProfile(p, ids);
    UserGrantsListed(r.id, ids.users, ids.groups);
  }

  lemma UserGrantsListed(permission: ResourceId, users: seq<string>, groups: seq<string>)
    ensures var grants := UserSubjectGrants(permission, users) + GroupSubjectGrants(permission, groups);
      && (forall id :: UserSubjectGrant(permission, id) in grants <==> id in users)
      && (forall id :: GroupSubjectGrant(permission, id) in grants <==> id in groups)
  {
    hide EntitlementId;
    var direct, viaGroup := UserSubjectGrants(permission, users), GroupSubjectGrants(permission, groups);
    assert forall i :: 0 <= i < |users| ==> direct[i] == UserSubjectGrant(permission, users[i]);
    assert forall i :: 0 <= i < |groups| ==> viaGroup[i] == GroupSubjectGrant(permission, groups[i]);
    assert forall id :: id in users ==> UserSubjectGrant(permission, id) in direct;
    assert forall id :: id in groups ==> GroupSubjectGrant(permission, id) in viaGroup;
  }

  lemma SyncedResource(s: Snapshot, i: nat)
    requires Inv(s) && PermissionsTyped(s) && i < |s.permissionOrder|
    ensures SyncedPermissions(s).Ok? && i < |SyncedPermissions(s).value| && GetUsers(s).Ok?
    ensures s.permissionOrder[i] in s.permissions && SubjectsOf(s, s.permissionOrder[i]).Some?
    ensures PermissionResource(SubjectsOf(s, s.permissionOrder[i]).value, UsersByUuid(GetUsers(s).value),
        GroupsByUuid(GetGroups(s)))
            == Ok(SyncedPermissions(s).value[i])
  {
    hide Inv, PermissionsTyped, Resolves, SyncedAcross, SubjectsOf, PermissionResource, GetUsers, UsersByUuid,
      GroupsByUuid;
    TypedSyncSucceeds(s, s, s);
    SyncFailsExactly(s, s, s);
    PermissionOrder(s);
    assert s.permissionOrder[i] in s.permissionOrder;
  }

  lemma UserSubjectIsKey(s: Snapshot, subjects: seq<TenableObject>, k: string)
    requires Inv(s) && k in s.users && GetUsers(s).Ok?
    ensures HasUserSubject(subjects, UsersByUuid(GetUsers(s).value), Itoa(s.users[k].id)) <==>
            exists i :: 0 <= i < |subjects| && subjects[i].typ == "User" && Render(subjects[i].uuid) == k
  {
    hide Inv, GetUsers, UsersByUuid, Render, Itoa, UserOf, IsDecimal;
    UserIndexRead(s);
    PrintedIdFinds(s, k);
    var index := UsersByUuid(GetUsers(s).value);
    forall i | 0 <= i < |subjects| && IsUserSubject(subjects[i], index, Itoa(s.users[k].id))
      ensures Render(subjects[i].uuid) == k
    {
      PrintedIdFinds(s, Render(subjects[i].uuid));
    }
    if i :| 0 <= i < |subjects| && subjects[i].typ == "User" && Render(subjects[i].uuid) == k {
      assert IsUserSubject(subjects[i], index, Itoa(s.users[k].id));
    }
  }

  lemma GrantShapes(r: Resource, g: Grant)
    requires g in PermissionGrants(r)
    ensures (exists id :: g == UserSubjectGrant(r.id, id)) || (exists id :: g == GroupSubjectGrant(r.id, id))
  {
    hide Split, EntitlementId;
  }

  /** A grant says that the user is assigned the permission. */
  predicate DirectlyReported(r: Resource, user: string)
  {
    Reports(PermissionGrants(r), r.id, "assigned", ResourceId("user", user))
  }

  lemma DirectIsUserGrant(r: Resource, user: string)
    ensures DirectlyReported(r, user) <==> UserSubjectGrant(r.id, user) in PermissionGrants(r)
  {
    hide PermissionGrants, EntitlementId;
    var grants := PermissionGrants(r);
    if DirectlyReported(r, user) {
      var i :| 0 <= i < |grants| && Is(grants[i], r.id, "assigned", ResourceId("user", user));
      GrantShapes(r, grants[i]);
    }
    if UserSubjectGrant(r.id, user) in grants {
      var i :| 0 <= i < |grants| && grants[i] == UserSubjectGrant(r.id, user);
      assert Is(grants[i], r.id, "assigned", ResourceId("user", user));
    }
  }

  /** For every permission and every live user, sync reports a direct grant exactly when Grant finds
      it already there and exactly when Revoke does not find it already gone. The operations are asked
      with the principal that the grant names. */
  lemma PermissionSyncAgrees(e: bool, s: Snapshot, i: nat, k: string)
    requires Inv(s) && PermissionsTyped(s) && i < |s.permissionOrder| && k in s.users
    ensures SyncedPermissions(s).Ok? && i < |SyncedPermissions(s).value|
    ensures var r, p := SyncedPermissions(s).value[i], s.permissionOrder[i];
      var user := ResourceId("user", Itoa(s.users[k].id));
      var synced := Reports(PermissionGrants(r), r.id, "assigned", user);
      && r.id == ResourceId("permission", p)
      && (synced <==> Complete(e, PermissionGrant(user.typ, user.id, p), s).1 == AlreadyExists)
      && (synced <==> Complete(e, PermissionRevoke(user.typ, user.id, p), s).1 != AlreadyRevoked)
  {
    hide Inv, Complete, Effect, PermissionsTyped, SyncedPermissions, PermissionResource, PermissionGrants, GetUsers,
      GetGroups, UsersByUuid, GroupsByUuid, HasUserSubject, HasGroupSubject, PlainValues, SubjectsOf, UserOf, Itoa,
      Atoi, IsDecimal, HasSubject, HoldsDirectly, Render, Reports;
    SyncedResource(s, i);
    var r, p, user := SyncedPermissions(s).value[i], s.permissionOrder[i], Itoa(s.users[k].id);
    GroupIdsArePlain(GetGroups(s));
    DirectGrantMeans(s, i, k);
    HasSubjectIsDirect(s, p, k);
    PrintedIdFinds(s, k);
    CompleteMeans(e, PermissionGrant("user", user, p), s);
    CompleteMeans(e, PermissionRevoke("user", user, p), s);
  }

  lemma DirectGrantMeans(s: Snapshot, i: nat, k: string)
    requires Inv(s) && PermissionsTyped(s) && i < |s.permissionOrder| && k in s.users
    ensures SyncedPermissions(s).Ok? && i < |SyncedPermissions(s).value| && s.permissionOrder[i] in s.permissions
    ensures var r, p := SyncedPermissions(s).value[i], s.permissionOrder[i];
      && r.id == ResourceId("permission", p)
      && (DirectlyReported(r, Itoa(s.users[k].id)) <==> HoldsDirectly(s, p, k))
  {
    hide Inv, DirectlyReported, PermissionsTyped, SyncedPermissions, PermissionResource, PermissionGrants,
      GetUsers, GetGroups, UsersByUuid, GroupsByUuid, HasUserSubject, HasGroupSubject, PlainValues, SubjectsOf, Itoa,
      Normal, Render;
    SyncedResource(s, i);
    var r, p := SyncedPermissions(s).value[i], s.permissionOrder[i];
    var cp := SubjectsOf(s, p).value;
    GroupIdsArePlain(GetGroups(s));
    GrantsOfResource(cp, UsersByUuid(GetUsers(s).value), GroupsByUuid(GetGroups(s)), r);
    DirectIsUserGrant(r, Itoa(s.users[k].id));
    PermissionKey(s, p);
    UserSubjectIsKey(s, cp.subjects, k);
    SubjectsAligned(s, p);
    var xs := s.permissions[p].subjects;
    assert forall j :: 0 <= j < |xs| ==> (Names(xs[j], "User", k) <==>
        cp.subjects[j].typ == "User" && Render(cp.subjects[j].uuid) == k);
  }

  // ----- Expanding group grants -----------------------------------------------------------

  /** A synced member grant of some group gives this user this entitlement. */
  predicate MemberOfEntitlement(s: Snapshot, entitlement: string, user: string)
  {
    exists i :: 0 <= i < |s.catalog.groupList| && GroupEntitles(s, s.catalog.groupList[i], entitlement, user)
  }

  predicate GroupEntitles(s: Snapshot, g: Group, entitlement: string, user: string)
  {
    && SyncedMembers(s, Itoa(g.id)).Ok?
    && Entitles(SyncedMembers(s, Itoa(g.id)).value, entitlement, user)
  }

  predicate Entitles(grants: seq<Grant>, entitlement: string, user: string)
  {
    exists i :: 0 <= i < |grants| && GivesTo(grants[i], entitlement, user)
  }

  predicate GivesTo(g: Grant, entitlement: string, user: string)
  {
    EntitlementId(g.resource, g.slug) == entitlement && g.principal == ResourceId("user", user)
  }

  /** The user holds the permission according to its synced grants: one says that the user is assigned it,
      or one expands to an entitlement that the user is synced to hold. */
  ghost predicate Reported(s: Snapshot, r: Resource, user: string)
  {
    || DirectlyReported(r, user)
    || exists g, entitlement :: g in PermissionGrants(r) && g.resource == r.id && g.slug == "assigned"
        && entitlement in g.expandable && MemberOfEntitlement(s, entitlement, user)
  }

  /** All that a group's member grants give is the group's member entitlement. */
  lemma MembersAreEntitled(group: string, ms: seq<ClientUser>, entitlement: string, user: string)
    ensures Entitles(GroupGrants(GroupId(group), ms), entitlement, user) <==>
            && entitlement == EntitlementId(GroupId(group), "member")
            && Reports(GroupGrants(GroupId(group), ms), ResourceId("group", group), "member", ResourceId("user", user))
  {
    hide Itoa, EntitlementId;
    var grants := GroupGrants(GroupId(group), ms);
    forall i | 0 <= i < |grants|
      ensures GivesTo(grants[i], entitlement, user) <==>
              && entitlement == EntitlementId(GroupId(group), "member")
              && Is(grants[i], ResourceId("group", group), "member", ResourceId("user", user))
    {}
  }

  lemma GroupEntitlesMembers(s: Snapshot, g: Group, entitlement: string, user: string)
    ensures GroupEntitles(s, g, entitlement, user) <==>
            entitlement == EntitlementId(GroupId(Itoa(g.id)), "member") && MemberSynced(s, Itoa(g.id), user)
  {
    hide Itoa, EntitlementId, GetGroupMembers, Entitles, Reports, GroupGrants;
    if SyncedMembers(s, Itoa(g.id)).Ok? {
      MembersAreEntitled(Itoa(g.id), GetGroupMembers(s, Itoa(g.id)).value, entitlement, user);
    }
  }

  lemma EntitlementsDiffer(a: string, b: string)
    requires EntitlementId(GroupId(a), "member") == EntitlementId(GroupId(b), "member")
    ensures a == b
  {
    var x, y := EntitlementId(GroupId(a), "member"), EntitlementId(GroupId(b), "member");
    assert |x| == 6 + |a| + 7 && |y| == 6 + |b| + 7;
    assert x[6..6 + |a|] == a && y[6..6 + |b|] == b;
  }

  lemma GroupByPrintedId(s: Snapshot, g: Group)
    requires Inv(s) && g in s.catalog.groupList
    ensures GroupOf(s, Itoa(g.id)) == Some(g)
  {
    hide IndexesAgree, IdsIssued, MembersAgree, RolesAgree, AllUsersComplete, PermissionsIndexed, Itoa, Atoi,
      Canonical;
    GroupInRange(s.catalog, g);
    AtoiOfItoa(g.id);
  }

  lemma GroupInRange(c: Catalog, g: Group)
    requires CatalogOk(c) && g in c.groupList
    ensures MIN_INT <= g.id <= MAX_INT && g.id in c.groupsByID && c.groupsByID[g.id] == g
  {
    hide Canonical;
    assert GroupOk(g);
  }

  /** A group's synced member grants name exactly the users of its row. */
  lemma SyncedMembersAreRow(s: Snapshot, g: Group, k: string)
    requires Inv(s) && g in s.catalog.groupList && k in s.users
    ensures MemberSynced(s, Itoa(g.id), Itoa(s.users[k].id)) <==> k in Row(s.members, g.uuid)
  {
    hide Inv, MemberSynced, UserOf, GroupOf, IsDecimal, Itoa;
    GroupByPrintedId(s, g);
    PrintedIdFinds(s, k);
    SyncedMembersAreListed(s, Itoa(g.id), Itoa(s.users[k].id));
  }

  lemma SameIdSameGroup(s: Snapshot, g: Group, h: Group)
    requires Inv(s) && g in s.catalog.groupList && h in s.catalog.groupList && Itoa(g.id) == Itoa(h.id)
    ensures g == h
  {
    hide Inv, Itoa, GroupOf;
    GroupByPrintedId(s, g);
    GroupByPrintedId(s, h);
  }

  lemma EntitledUsers(s: Snapshot, g: Group, k: string)
    requires Inv(s) && g in s.catalog.groupList && k in s.users
    ensures MemberOfEntitlement(s, EntitlementId(GroupId(Itoa(g.id)), "member"), Itoa(s.users[k].id)) <==>
            k in Row(s.members, g.uuid)
  {
    hide Inv, MemberSynced, GroupEntitles, Itoa, EntitlementId, Row;
    var list, entitlement, user := s.catalog.groupList, EntitlementId(GroupId(Itoa(g.id)), "member"),
      Itoa(s.users[k].id);
    forall i | 0 <= i < |list|
      ensures GroupEntitles(s, list[i], entitlement, user) <==> list[i] == g && k in Row(s.members, g.uuid)
    {
      GroupEntitlesMembers(s, list[i], entitlement, user);
      SyncedMembersAreRow(s, list[i], k);
      if EntitlementId(GroupId(Itoa(list[i].id)), "member") == entitlement {
        EntitlementsDiffer(Itoa(list[i].id), Itoa(g.id));
        SameIdSameGroup(s, list[i], g);
      }
    }
    var i :| 0 <= i < |list| && list[i] == g;
    assert GroupEntitles(s, list[i], entitlement, user) <==> k in Row(s.members, g.uuid);
  }

  /** The member entitlement of a group expands to exactly the users of its row. */
  lemma ExpansionOfGroup(s: Snapshot, g: Group, k: string)
    requires Inv(s) && g in s.catalog.groupList && k in s.users
    ensures MemberOfEntitlement(s, "group:" + Itoa(g.id) + ":member", Itoa(s.users[k].id)) <==>
            k in Row(s.members, g.uuid)
  {
    hide Inv, MemberOfEntitlement, Itoa, EntitlementId, Row;
    MemberEntitlement(Itoa(g.id));
    EntitledUsers(s, g, k);
  }

  /** The group subjects that sync reports are those of the permission, by printed ID. */
  lemma GroupGrantMeans(s: Snapshot, i: nat, id: string)
    requires Inv(s) && PermissionsTyped(s) && i < |s.permissionOrder|
    ensures SyncedPermissions(s).Ok? && i < |SyncedPermissions(s).value| && s.permissionOrder[i] in s.permissions
    ensures var r, p := SyncedPermissions(s).value[i], s.permissionOrder[i];
      GroupSubjectGrant(r.id, id) in PermissionGrants(r) <==>
      exists g :: g in s.catalog.groupList && Itoa(g.id) == id && NamesGroup(s.permissions[p], g.uuid)
  {
    hide Inv, PermissionsTyped, SyncedPermissions, PermissionResource, PermissionGrants, GetUsers, GetGroups,
      UsersByUuid, GroupsByUuid, HasUserSubject, PlainValues, SubjectsOf, Itoa, Normal, Render, EntitlementId;
    SyncedResource(s, i);
    var r, p := SyncedPermissions(s).value[i], s.permissionOrder[i];
    var cp, index := SubjectsOf(s, p).value, GroupsByUuid(GetGroups(s));
    GroupIdsArePlain(GetGroups(s));
    GrantsOfResource(cp, UsersByUuid(GetUsers(s).value), index, r);
    GroupIndexRead(s);
    SubjectsAligned(s, p);
    var xs := s.permissions[p].subjects;
    if HasGroupSubject(cp.subjects, index, id) {
      var j :| 0 <= j < |cp.subjects| && IsGroupSubject(cp.subjects[j], index, id);
      var g :| g in s.catalog.groupList && g.uuid == Render(cp.subjects[j].uuid);
      assert Names(xs[j], "UserGroup", g.uuid) && Itoa(g.id) == id;
    }
    if g :| g in s.catalog.groupList && Itoa(g.id) == id && NamesGroup(s.permissions[p], g.uuid) {
      var j :| 0 <= j < |xs| && Names(xs[j], "UserGroup", g.uuid);
      assert IsGroupSubject(cp.subjects[j], index, id);
    }
  }

  /** A grant says that the group is assigned the permission, and that the members of the group have it too. */
  predicate GroupReported(r: Resource, id: string)
  {
    exists i :: 0 <= i < |PermissionGrants(r)| && IsGroupGrant(PermissionGrants(r)[i], r.id, id)
  }

  predicate IsGroupGrant(g: Grant, resource: ResourceId, id: string)
  {
    Is(g, resource, "assigned", ResourceId("group", id)) && g.expandable == ["group:" + id + ":member"]
  }

  /** For every permission the groups that sync reports are exactly those that a UserGroup subject names. */
  lemma GroupSubjectsSynced(s: Snapshot, i: nat, id: string)
    requires Inv(s) && PermissionsTyped(s) && i < |s.permissionOrder|
    ensures SyncedPermissions(s).Ok? && i < |SyncedPermissions(s).value| && s.permissionOrder[i] in s.permissions
    ensures GroupReported(SyncedPermissions(s).value[i], id) <==>
            exists g :: g in s.catalog.groupList && Itoa(g.id) == id
                && NamesGroup(s.permissions[s.permissionOrder[i]], g.uuid)
  {
    hide Inv, PermissionsTyped, SyncedPermissions, PermissionGrants, EntitlementId, Itoa, NamesGroup, GroupReported;
    GroupGrantMeans(s, i, id);
    GroupGrantReports(SyncedPermissions(s).value[i], id);
  }

  lemma GroupGrantReports(r: Resource, id: string)
    ensures GroupReported(r, id) <==> GroupSubjectGrant(r.id, id) in PermissionGrants(r)
  {
    hide PermissionGrants, EntitlementId;
    MemberEntitlement(id);
    var grants := PermissionGrants(r);
    if GroupReported(r, id) {
      var i :| 0 <= i < |grants| && IsGroupGrant(grants[i], r.id, id);
      GrantShapes(r, grants[i]);
    }
    if GroupSubjectGrant(r.id, id) in grants {
      var i :| 0 <= i < |grants| && grants[i] == GroupSubjectGrant(r.id, id);
      assert IsGroupGrant(grants[i], r.id, id);
    }
  }

  predicate NamesGroup(p: Permission, uuid: string)
  {
    exists j :: 0 <= j < |p.subjects| && Names(p.subjects[j], "UserGroup", uuid)
  }

  /** Holding through a group, by group instead of by subject. */
  lemma ThroughSomeGroup(s: Snapshot, p: string, k: string)
    requires Inv(s) && PermissionsTyped(s) && p in s.permissions
    ensures HoldsThroughGroup(s, p, k) <==>
            exists g :: g in s.catalog.groupList && NamesGroup(s.permissions[p], g.uuid) && k in Row(s.members, g.uuid)
  {
    hide Inv, Normal, DecodeObject, Row;
    var xs := s.permissions[p].subjects;
    if HoldsThroughGroup(s, p, k) {
      var i :| 0 <= i < |xs| && NamesGroupOf(s, xs[i], k);
      assert SubjectTyped(s, xs[i]);
      var g :| g in s.catalog.groupList && g.uuid == Normal(xs[i]).uuid;
      assert Names(xs[i], "UserGroup", g.uuid);
    }
    if g :| g in s.catalog.groupList && NamesGroup(s.permissions[p], g.uuid) && k in Row(s.members, g.uuid) {
      var i :| 0 <= i < |xs| && Names(xs[i], "UserGroup", g.uuid);
      assert NamesGroupOf(s, xs[i], k);
    }
  }

  lemma OnlyGroupGrantsExpand(r: Resource, g: Grant, entitlement: string)
    requires g in PermissionGrants(r) && entitlement in g.expandable
    ensures exists id :: g == GroupSubjectGrant(r.id, id) && entitlement == EntitlementId(GroupId(id), "member")
  {
    hide PermissionGrants, EntitlementId;
    GrantShapes(r, g);
  }

  /** What sync reports for a live user. */
  lemma ReportedUser(s: Snapshot, i: nat, k: string)
    requires Inv(s) && PermissionsTyped(s) && i < |s.permissionOrder| && k in s.users
    ensures SyncedPermissions(s).Ok? && i < |SyncedPermissions(s).value| && s.permissionOrder[i] in s.permissions
    ensures Reported(s, SyncedPermissions(s).value[i], Itoa(s.users[k].id)) <==>
            HoldsDirectly(s, s.permissionOrder[i], k) || HoldsThroughGroup(s, s.permissionOrder[i], k)
  {
    hide Inv, PermissionsTyped, SyncedPermissions, PermissionGrants, Itoa, EntitlementId, DirectlyReported,
      HoldsDirectly, HoldsThroughGroup, MemberOfEntitlement, NamesGroup, Row;
    DirectGrantMeans(s, i, k);
    var r, p, user := SyncedPermissions(s).value[i], s.permissionOrder[i], Itoa(s.users[k].id);
    ThroughSomeGroup(s, p, k);
    if g, entitlement :|
        && g in PermissionGrants(r) && g.resource == r.id && g.slug == "assigned"
        && entitlement in g.expandable && MemberOfEntitlement(s, entitlement, user) {
      OnlyGroupGrantsExpand(r, g, entitlement);
      var id :| g == GroupSubjectGrant(r.id, id) && entitlement == EntitlementId(GroupId(id), "member");
      GroupGrantMeans(s, i, id);
      var h :| h in s.catalog.groupList && Itoa(h.id) == id && NamesGroup(s.permissions[p], h.uuid);
      EntitledUsers(s, h, k);
    }
    if h :| h in s.catalog.groupList && NamesGroup(s.permissions[p], h.uuid) && k in Row(s.members, h.uuid) {
      GroupGrantMeans(s, i, Itoa(h.id));
      EntitledUsers(s, h, k);
      assert GroupSubjectGrant(r.id, Itoa(h.id)).expandable[0] == EntitlementId(GroupId(Itoa(h.id)), "member");
    }
  }

  /** Nobody is reported but live users, by their printed ID. */
  lemma ReportedIsLive(s: Snapshot, i: nat, user: string)
    requires Inv(s) && PermissionsTyped(s) && i < |s.permissionOrder|
    ensures SyncedPermissions(s).Ok? && i < |SyncedPermissions(s).value|
    ensures Reported(s, SyncedPermissions(s).value[i], user) ==> PrintsLiveUser(s, user)
  {
    hide Inv, PermissionsTyped, SyncedPermissions, PermissionGrants, PermissionResource, GetUsers, GetGroups,
      UsersByUuid, GroupsByUuid, HasUserSubject, HasGroupSubject, PlainValues, SubjectsOf, PrintsLiveUser,
      MemberOfEntitlement, DirectlyReported;
    SyncedResource(s, i);
    var r, cp := SyncedPermissions(s).value[i], SubjectsOf(s, s.permissionOrder[i]).value;
    GroupIdsArePlain(GetGroups(s));
    GrantsOfResource(cp, UsersByUuid(GetUsers(s).value), GroupsByUuid(GetGroups(s)), r);
    if DirectlyReported(r, user) {
      DirectIsUserGrant(r, user);
      SubjectIsLive(s, cp.subjects, user);
    } else if Reported(s, r, user) {
      var g, entitlement :|
        g in PermissionGrants(r) && entitlement in g.expandable && MemberOfEntitlement(s, entitlement, user);
      EntitledIsLive(s, entitlement, user);
    }
  }

  lemma EntitledIsLive(s: Snapshot, entitlement: string, user: string)
    requires Inv(s) && MemberOfEntitlement(s, entitlement, user)
    ensures PrintsLiveUser(s, user)
  {
    hide Inv, GroupEntitles, PrintsLiveUser;
    var j :| 0 <= j < |s.catalog.groupList| && GroupEntitles(s, s.catalog.groupList[j], entitlement, user);
    MemberIsLive(s, s.catalog.groupList[j], entitlement, user);
  }

  predicate PrintsLiveUser(s: Snapshot, user: string)
  {
    exists k :: k in s.users && Itoa(s.users[k].id) == user
  }

  lemma SubjectIsLive(s: Snapshot, subjects: seq<TenableObject>, user: string)
    requires Inv(s) && GetUsers(s).Ok? && HasUserSubject(subjects, UsersByUuid(GetUsers(s).value), user)
    ensures PrintsLiveUser(s, user)
  {
    hide Inv, GetUsers, UsersByUuid, Render, Itoa;
    UserIndexRead(s);
    var index := UsersByUuid(GetUsers(s).value);
    var j :| 0 <= j < |subjects| && IsUserSubject(subjects[j], index, user);
    assert Render(subjects[j].uuid) in s.users;
  }

  lemma MemberIsLive(s: Snapshot, g: Group, entitlement: string, user: string)
    requires Inv(s) && g in s.catalog.groupList && GroupEntitles(s, g, entitlement, user)
    ensures PrintsLiveUser(s, user)
  {
    hide Inv, MemberSynced, GroupEntitles, UserOf, GroupOf, Itoa, Atoi, EntitlementId;
    GroupEntitlesMembers(s, g, entitlement, user);
    GroupByPrintedId(s, g);
    SyncedMembersAreListed(s, Itoa(g.id), user);
    UserOfFound(s, user);
    assert UserOf(s, user).value.uuid in s.users;
  }

  /** Effective access: for every permission, the synced grants, with each group grant expanded through
      the synced memberships of its group, report exactly the printed IDs of the live users that the
      server has as a User subject or as a member of a UserGroup subject, and no other principal.
      Subjects of any other kind, such as AllUsers and AllAdmins, contribute nothing. */
  lemma EffectiveAccess(s: Snapshot, i: nat, user: string)
    requires Inv(s) && PermissionsTyped(s) && i < |s.permissionOrder|
    ensures SyncedPermissions(s).Ok? && i < |SyncedPermissions(s).value| && s.permissionOrder[i] in s.permissions
    ensures Reported(s, SyncedPermissions(s).value[i], user) <==>
            exists k :: k in s.users && Itoa(s.users[k].id) == user && Holds(s, s.permissionOrder[i], k)
  {
    hide Inv, PermissionsTyped, SyncedPermissions, Reported, HoldsDirectly, HoldsThroughGroup, Itoa;
    SyncedResource(s, i);
    ReportedIsLive(s, i, user);
    forall k | k in s.users && Itoa(s.users[k].id) == user
      ensures Reported(s, SyncedPermissions(s).value[i], user) <==> Holds(s, s.permissionOrder[i], k)
    {
      ReportedUser(s, i, k);
    }
  }
}
