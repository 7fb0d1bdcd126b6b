/** The connector's sync phase as it is written: loops that fill profiles, indexes and grant lists. */
module Builders {
  import opened Wrappers
  import opened Text
  import opened Uuids
  import opened Wire
  import opened Sync
  import opened Agreement
  import opened Server
  import Client

  // ----- Users ----------------------------------------------------------------------------

  method ParseIntoUserResource(user: ClientUser) returns (r: Resource)
    ensures r == UserResource(user)
  {
    hide Render, Join, Itoa;
    var profile := map["uuid" := user.uuid, "username" := user.username, "email" := user.email];
    if |user.roles| > 0 {
      var roleUUIDs := [];
      for i := 0 to |user.roles|
        invariant roleUUIDs == RoleIds(user.roles[..i])
      {
        roleUUIDs := roleUUIDs + [Render(user.roles[i].uuid)];
      }
      assert user.roles[..|user.roles|] == user.roles;
      profile := profile[ROLE_UUIDS := Join(roleUUIDs, SEPARATOR)];
    }
    r := Resource(UserId(Itoa(user.id)), profile);
  }

  method UserBuilderGrants(r: Resource) returns (grants: seq<Grant>)
    ensures grants == UserGrants(r)
  {
    hide Split;
    var roleUUIDs := if ROLE_UUIDS in r.profile then r.profile[ROLE_UUIDS] else "";
    if roleUUIDs == "" { return []; }
    var pieces := Split(roleUUIDs, SEPARATOR);
    grants := [];
    for i := 0 to |pieces|
      invariant grants == AssignmentGrants(r.id, pieces[..i])
    {
      grants := grants + [AssignmentGrant(r.id, pieces[i])];
    }
    assert pieces[..|pieces|] == pieces;
  }

  method UserBuilderList(server: State) returns (r: Response<seq<Resource>>)
    requires server.Valid()
    ensures r.Ok? <==> SyncedUsers(server.Snap()).Ok?
    ensures r.Ok? ==>
      var us := SyncedUsers(server.Snap()).value;
      |r.value| == |us| && forall i :: 0 <= i < |us| ==> r.value[i] == UserResource(us[i])
  {
    hide State.Valid, State.Snap, Wire.GetUsers, UserResource;
    var users := Client.GetUsers(server);
    if users.Err? { return Err(users.error); }
    var resources := [];
    for i := 0 to |users.value|
      invariant |resources| == i && forall j :: 0 <= j < i ==> resources[j] == UserResource(users.value[j])
    {
      var resource := ParseIntoUserResource(users.value[i]);
      resources := resources + [resource];
    }
    r := Ok(resources);
  }

  // ----- Groups ---------------------------------------------------------------------------

  method GroupBuilderGrants(server: State, group: string) returns (r: Response<seq<Grant>>)
    requires server.Valid()
    ensures r == SyncedMembers(server.Snap(), group)
  {
    hide State.Valid, State.Snap, Wire.GetGroupMembers, Itoa;
    var listed := Client.GetGroupMembers(server, group);
    if listed.Err? { return Err(listed.error); }
    var members := listed.value;
    var grants := [];
    for i := 0 to |members|
      invariant grants == GroupGrants(GroupId(group), members[..i])
    {
      grants := grants + [MemberGrant(GroupId(group), Itoa(members[i].id))];
    }
    assert members[..|members|] == members;
    r := Ok(grants);
  }

  // ----- Permissions ----------------------------------------------------------------------

  lemma UnresolvedStays(subjects: seq<TenableObject>, i: nat, users: map<string, ClientUser>,
                        groups: map<string, string>)
    requires i <= |subjects| && ResolveSubjects(subjects[..i], users, groups).Err?
    ensures ResolveSubjects(subjects, users, groups) == ResolveSubjects(subjects[..i], users, groups)
    decreases |subjects| - i
  {
    hide NextSubject;
    if i < |subjects| {
      assert subjects[..i + 1][..i] == subjects[..i];
      UnresolvedStays(subjects, i + 1, users, groups);
    } else {
      assert subjects[..i] == subjects;
    }
  }

  method ParseIntoPermissionResource(p: ClientPermission, usersByUUID: map<string, ClientUser>,
      groupsByUUID: map<string, string>)
    returns (r: Response<Resource>)
    ensures r == PermissionResource(p, usersByUUID, groupsByUUID)
  {
    hide Render, Join, Itoa;
    var userIDs, groupIDs := [], [];
    var subjects := p.subjects;
    for i := 0 to |subjects|
      invariant ResolveSubjects(subjects[..i], usersByUUID, groupsByUUID) == Ok(SubjectIds(userIDs, groupIDs))
    {
      assert subjects[..i + 1][..i] == subjects[..i];
      var uuid := Render(subjects[i].uuid);
      if subjects[i].typ == "User" {
        if uuid !in usersByUUID {
          UnresolvedStays(subjects, i + 1, usersByUUID, groupsByUUID);
          return Err(UnknownUuid(uuid));
        }
        userIDs := userIDs + [Itoa(usersByUUID[uuid].id)];
      } else if subjects[i].typ == "UserGroup" {
        if uuid !in groupsByUUID {
          UnresolvedStays(subjects, i + 1, usersByUUID, groupsByUUID);
          return Err(UnknownUuid(uuid));
        }
        groupIDs := groupIDs + [groupsByUUID[uuid]];
      }
    }
    assert subjects[..|subjects|] == subjects;
    var profile := map["name" := p.name, "uuid" := Render(p.uuid), "actions" := Join(p.actions, ' ')];
    if |userIDs| > 0 { profile := profile[USER_SUBJECTS := Join(userIDs, SEPARATOR)]; }
    if |groupIDs| > 0 { profile := profile[GROUP_SUBJECTS := Join(groupIDs, SEPARATOR)]; }
    r := Ok(Resource(ResourceId("permission", Render(p.uuid)), profile));
  }

  method IndexUsers(users: seq<ClientUser>) returns (index: map<string, ClientUser>)
    ensures index == UsersByUuid(users)
  {
    index := map[];
    for i := 0 to |users|
      invariant index == UsersByUuid(users[..i])
    {
      assert users[..i + 1][..i] == users[..i];
      index := index[users[i].uuid := users[i]];
    }
    assert users[..|users|] == users;
  }

  method IndexGroups(groups: seq<ClientGroup>) returns (index: map<string, string>)
    ensures index == GroupsByUuid(groups)
  {
    hide Itoa;
    index := map[];
    for i := 0 to |groups|
      invariant index == GroupsByUuid(groups[..i])
    {
      assert groups[..i + 1][..i] == groups[..i];
      index := index[groups[i].uuid := Itoa(groups[i].id)];
    }
    assert groups[..|groups|] == groups;
  }

  lemma FailedStays(ps: seq<ClientPermission>, i: nat, users: map<string, ClientUser>, groups: map<string, string>)
    requires i <= |ps| && PermissionResources(ps[..i], users, groups).Err?
    ensures PermissionResources(ps, users, groups) == PermissionResources(ps[..i], users, groups)
    decreases |ps| - i
  {
    hide PermissionResource;
    if i < |ps| {
      assert ps[..i + 1][..i] == ps[..i];
      FailedStays(ps, i + 1, users, groups);
    } else {
      assert ps[..i] == ps;
    }
  }

  method BuildPermissions(ps: seq<ClientPermission>, usersByUUID: map<string, ClientUser>, groupsByUUID: map<string,
      string>)
    returns (r: Response<seq<Resource>>)
    ensures r == PermissionResources(ps, usersByUUID, groupsByUUID)
  {
    hide PermissionResource;
    var resources := [];
    for i := 0 to |ps|
      invariant PermissionResources(ps[..i], usersByUUID, groupsByUUID) == Ok(resources)
    {
      assert ps[..i + 1][..i] == ps[..i];
      var resource := ParseIntoPermissionResource(ps[i], usersByUUID, groupsByUUID);
      if resource.Err? {
        FailedStays(ps, i + 1, usersByUUID, groupsByUUID);
        return Err(resource.error);
      }
      resources := resources + [resource.value];
    }
    assert ps[..|ps|] == ps;
    r := Ok(resources);
  }

  method PermissionBuilderList(server: State) returns (r: Response<seq<Resource>>)
    requires server.Valid()
    ensures r == SyncedPermissions(server.Snap())
  {
    hide State.Valid, State.Snap, Wire.GetUsers, GetPermissions, GetGroups, UsersByUuid, GroupsByUuid,
      PermissionResources;
    var permissions := Client.ListPermissions(server);
    if permissions.Err? { return Err(permissions.error); }
    var users := Client.GetUsers(server);
    if users.Err? { return Err(users.error); }
    var usersByUUID := IndexUsers(users.value);
    var groups := Client.GetGroups(server);
    var groupsByUUID := IndexGroups(groups);
    r := BuildPermissions(permissions.value, usersByUUID, groupsByUUID);
  }

  method PermissionBuilderGrants(r: Resource) returns (grants: seq<Grant>)
    ensures grants == PermissionGrants(r)
  {
    hide Split, EntitlementId;
    grants := [];
    if USER_SUBJECTS in r.profile {
      var ids := Split(r.profile[USER_SUBJECTS], SEPARATOR);
      for i := 0 to |ids|
        invariant grants == UserSubjectGrants(r.id, ids[..i])
      {
        grants := grants + [UserSubjectGrant(r.id, ids[i])];
      }
      assert ids[..|ids|] == ids;
    }
    if GROUP_SUBJECTS in r.profile {
      var ids := Split(r.profile[GROUP_SUBJECTS], SEPARATOR);
      var before := grants;
      for i := 0 to |ids|
        invariant grants == before + GroupSubjectGrants(r.id, ids[..i])
      {
        grants := grants + [GroupSubjectGrant(r.id, ids[i])];
        assert GroupSubjectGrants(r.id, ids[..i + 1]) == GroupSubjectGrants(r.id, ids[..i]) +
          [GroupSubjectGrant(r.id, ids[i])];
      }
      assert ids[..|ids|] == ids;
    }
  }
}
