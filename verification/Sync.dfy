/** Sync: how the connector flattens what it reads into resource profiles, and rebuilds grants from
    them later without asking the server again. */
module Sync {
  import opened Wrappers
  import opened Text
  import opened Uuids
  import opened Wire

  datatype ResourceId = ResourceId(typ: string, id: string)

  /** A synced resource, with the text fields of its profile. */
  datatype Resource = Resource(id: ResourceId, profile: map<string, string>)

  /** expandable lists the entitlements whose holders have this one too. */
  datatype Grant = Grant(resource: ResourceId, slug: string, principal: ResourceId, expandable: seq<string>)

  const SEPARATOR: char := ','
  const ROLE_UUIDS: string := "role_uuids"
  const USER_SUBJECTS: string := "user_subject_ids"
  const GROUP_SUBJECTS: string := "group_subject_ids"

  function UserId(id: string): ResourceId { ResourceId("user", id) }

  function GroupId(id: string): ResourceId { ResourceId("group", id) }

  /** The text form of a resource's entitlement. */
  function EntitlementId(resource: ResourceId, slug: string): string
  {
    resource.typ + ":" + resource.id + ":" + slug
  }

  // ----- Users and their roles ------------------------------------------------------------

  function RoleIds(roles: seq<ClientRole>): (ids: seq<string>)
    ensures |ids| == |roles|
  {
    seq(|roles|, i requires 0 <= i < |roles| => Render(roles[i].uuid))
  }

  function UserProfile(u: ClientUser): map<string, string>
  {
    var profile := map["uuid" := u.uuid, "username" := u.username, "email" := u.email];
    if u.roles == [] then profile else profile[ROLE_UUIDS := Join(RoleIds(u.roles), SEPARATOR)]
  }

  function UserResource(u: ClientUser): Resource
  {
    Resource(UserId(Itoa(u.id)), UserProfile(u))
  }

  function AssignmentGrant(user: ResourceId, role: string): Grant
  {
    Grant(ResourceId("role", role), "assigned", user, [])
  }

  function AssignmentGrants(user: ResourceId, roles: seq<string>): (grants: seq<Grant>)
    ensures |grants| == |roles|
  {
    seq(|roles|, i requires 0 <= i < |roles| => AssignmentGrant(user, roles[i]))
  }

  /** userBuilder.Grants: an absent field reads as the empty string, and both mean no roles. */
  function UserGrants(r: Resource): seq<Grant>
  {
    var roles := if ROLE_UUIDS in r.profile then r.profile[ROLE_UUIDS] else "";
    if roles == "" then [] else AssignmentGrants(r.id, Split(roles, SEPARATOR))
  }

  // ----- Groups and their members ---------------------------------------------------------

  function MemberGrant(group: ResourceId, user: string): Grant
  {
    Grant(group, "member", UserId(user), [])
  }

  function GroupGrants(group: ResourceId, members: seq<ClientUser>): (grants: seq<Grant>)
    ensures |grants| == |members|
  {
    seq(|members|, i requires 0 <= i < |members| => MemberGrant(group, Itoa(members[i].id)))
  }

  // ----- Permissions and their subjects ---------------------------------------------------

  /** usersByUUID: a later user replaces an earlier one of the same UUID. */
  function UsersByUuid(users: seq<ClientUser>): map<string, ClientUser>
  {
    if users == [] then map[] else UsersByUuid(users[..|users| - 1])[users[|users| - 1].uuid := users[|users| - 1]]
  }

  function GroupsByUuid(groups: seq<ClientGroup>): map<string, string>
  {
    if groups == [] then map[] else GroupsByUuid(groups[..|groups| - 1])[groups[|groups| - 1].uuid :=
      Itoa(groups[|groups| - 1].id)]
  }

  datatype SubjectIds = SubjectIds(users: seq<string>, groups: seq<string>)

  function NextSubject(x: TenableObject, ids: SubjectIds, users: map<string, ClientUser>, groups: map<string, string>)
    : Response<SubjectIds>
  {
    var uuid := Render(x.uuid);
    if x.typ == "User" then
      if uuid in users then Ok(ids.(users := ids.users + [Itoa(users[uuid].id)])) else Err(UnknownUuid(uuid))
    else if x.typ == "UserGroup" then
      if uuid in groups then Ok(ids.(groups := ids.groups + [groups[uuid]])) else Err(UnknownUuid(uuid))
    else Ok(ids)
  }

  /** The resource IDs of the user and the group subjects; the first unknown UUID fails them all. */
  function ResolveSubjects(subjects: seq<TenableObject>, users: map<string, ClientUser>, groups: map<string, string>)
    : Response<SubjectIds>
  {
    if subjects == [] then Ok(SubjectIds([], []))
    else
      match ResolveSubjects(subjects[..|subjects| - 1], users, groups)
      case Err(f) => Err(f)
      case Ok(ids) => NextSubject(subjects[|subjects| - 1], ids, users, groups)
  }

  function WithList(profile: map<string, string>, field: string, ids: seq<string>): map<string, string>
  {
    if ids == [] then profile else profile[field := Join(ids, SEPARATOR)]
  }

  function PermissionProfile(p: ClientPermission, ids: SubjectIds): map<string, string>
  {
    WithList(WithList(map["name" := p.name, "uuid" := Render(p.uuid), "actions" := Join(p.actions, ' ')],
                      USER_SUBJECTS, ids.users), GROUP_SUBJECTS, ids.groups)
  }

  function PermissionResource(p: ClientPermission, users: map<string, ClientUser>, groups: map<string, string>)
    : Response<Resource>
  {
    match ResolveSubjects(p.subjects, users, groups)
    case Err(f) => Err(f)
    case Ok(ids) => Ok(Resource(ResourceId("permission", Render(p.uuid)), PermissionProfile(p, ids)))
  }

  /** permissionBuilder.List, once its three reads have been answered. */
  function PermissionResources(ps: seq<ClientPermission>, users: map<string, ClientUser>, groups: map<string, string>)
    : Response<seq<Resource>>
  {
    if ps == [] then Ok([])
    else
      match PermissionResources(ps[..|ps| - 1], users, groups)
      case Err(f) => Err(f)
      case Ok(rs) =>
        match PermissionResource(ps[|ps| - 1], users, groups)
        case Err(f) => Err(f)
        case Ok(r) => Ok(rs + [r])
  }

  function UserSubjectGrant(permission: ResourceId, user: string): Grant
  {
    Grant(permission, "assigned", UserId(user), [])
  }

  function GroupSubjectGrant(permission: ResourceId, group: string): Grant
  {
    Grant(permission, "assigned", GroupId(group), [EntitlementId(GroupId(group), "member")])
  }

  function UserSubjectGrants(permission: ResourceId, users: seq<string>): (grants: seq<Grant>)
    ensures |grants| == |users|
  {
    seq(|users|, i requires 0 <= i < |users| => UserSubjectGrant(permission, users[i]))
  }

  function GroupSubjectGrants(permission: ResourceId, groups: seq<string>): (grants: seq<Grant>)
    ensures |grants| == |groups|
  {
    seq(|groups|, i requires 0 <= i < |groups| => GroupSubjectGrant(permission, groups[i]))
  }

  /** permissionBuilder.Grants: an absent field means no subjects, a present one is split as it is. */
  function PermissionGrants(r: Resource): seq<Grant>
  {
    (if USER_SUBJECTS in r.profile then UserSubjectGrants(r.id, Split(r.profile[USER_SUBJECTS], SEPARATOR)) else [])
    + (if GROUP_SUBJECTS in r.profile then GroupSubjectGrants(r.id, Split(r.profile[GROUP_SUBJECTS], SEPARATOR)) else
        [])
  }

  // ----- Flattening and rebuilding --------------------------------------------------------

  /** IDs that survive being joined and split. */
  predicate Plain(ids: seq<string>)
  {
    forall i :: 0 <= i < |ids| ==> ids[i] != "" && SEPARATOR !in ids[i]
  }

  lemma PlainRoundTrip(ids: seq<string>)
    requires ids != [] && Plain(ids)
    ensures Split(Join(ids, SEPARATOR), SEPARATOR) == ids && Join(ids, SEPARATOR) != ""
  {
    SplitOfJoin(ids, SEPARATOR);
  }

  lemma UuidsArePlain(roles: seq<ClientRole>)
    ensures Plain(RoleIds(roles))
  {
    hide Render;
    forall i | 0 <= i < |roles|
      ensures SEPARATOR !in Render(roles[i].uuid)
    {
      CanonicalHasNoComma(roles[i].uuid);
    }
  }

  lemma CanonicalHasNoComma(u: Uuid)
    ensures SEPARATOR !in Render(u)
  {
    RenderIsCanonical(u);
  }

  /** Some grant reports that this principal holds the entitlement of this slug on this resource. */
  predicate Reports(grants: seq<Grant>, resource: ResourceId, slug: string, principal: ResourceId)
  {
    exists i :: 0 <= i < |grants| && Is(grants[i], resource, slug, principal)
  }

  predicate Is(g: Grant, resource: ResourceId, slug: string, principal: ResourceId)
  {
    g.resource == resource && g.slug == slug && g.principal == principal
  }

  /** A user's profile rebuilds one grant per role, in order, and none for a user without roles: the user
      is assigned the role. */
  lemma RolesSurviveTheProfile(u: ClientUser)
    ensures UserGrants(UserResource(u)) == AssignmentGrants(UserId(Itoa(u.id)), RoleIds(u.roles))
    ensures |UserGrants(UserResource(u))| == |u.roles|
    ensures forall i :: 0 <= i < |u.roles| ==>
      UserGrants(UserResource(u))[i] ==
      Grant(ResourceId("role", Render(u.roles[i].uuid)), "assigned", ResourceId("user", Itoa(u.id)), [])
  {
    hide Render, Split, Join, Itoa;
    if u.roles != [] {
      UuidsArePlain(u.roles);
      PlainRoundTrip(RoleIds(u.roles));
    }
  }

  /** A permission's profile rebuilds one grant per user subject and then one per group subject, in their
      order, whenever the IDs are nonempty and free of commas. The permission is assigned to the user, or
      to the group and through it to the holders of the group's member entitlement. */
  lemma SubjectsSurviveTheProfile(p: ClientPermission, ids: SubjectIds)
    requires Plain(ids.users) && Plain(ids.groups)
    ensures var r := Resource(ResourceId("permission", Render(p.uuid)), PermissionProfile(p, ids));
      PermissionGrants(r) == UserSubjectGrants(r.id, ids.users) + GroupSubjectGrants(r.id, ids.groups)
  {
    hide Render, Split, Join;
    assert USER_SUBJECTS[0] == 'u' && GROUP_SUBJECTS[0] == 'g' && |USER_SUBJECTS| == 16 && |GROUP_SUBJECTS| == 17;
    if ids.users != [] { PlainRoundTrip(ids.users); }
    if ids.groups != [] { PlainRoundTrip(ids.groups); }
  }

  /** Each of those grants, field by field. */
  lemma SubjectGrantsMean(p: ClientPermission, ids: SubjectIds, i: nat)
    requires Plain(ids.users) && Plain(ids.groups) && i < |ids.users| + |ids.groups|
    ensures var r := Resource(ResourceId("permission", Render(p.uuid)), PermissionProfile(p, ids));
      var grants := PermissionGrants(r);
      && |grants| == |ids.users| + |ids.groups|
      && grants[i] == if i < |ids.users| then Grant(r.id, "assigned", ResourceId("user", ids.users[i]), [])
                      else var group := ids.groups[i - |ids.users|];
                           Grant(r.id, "assigned", ResourceId("group", group), ["group:" + group + ":member"])
  {
    hide Render, PermissionProfile;
    SubjectsSurviveTheProfile(p, ids);
    if i >= |ids.users| { MemberEntitlement(ids.groups[i - |ids.users|]); }
  }

  lemma MemberEntitlement(group: string)
    ensures EntitlementId(GroupId(group), "member") == "group:" + group + ":member"
  {
    assert "group" + ":" == "group:" && ":" + "member" == ":member";
    assert "group" + ":" + group + ":" + "member" == "group:" + group + ":member";
  }

  // ----- Profiles -------------------------------------------------------------------------

  /** The resource of a user carries its UUID, login and email, and its roles if it has any. */
  lemma UserResourceMeans(u: ClientUser)
    ensures var r := UserResource(u);
      && r.id == ResourceId("user", Itoa(u.id))
      && r.profile.Keys == {"uuid", "username", "email"} + (if u.roles == [] then {} else {"role_uuids"})
      && r.profile["uuid"] == u.uuid && r.profile["username"] == u.username && r.profile["email"] == u.email
      && (u.roles != [] ==> Split(r.profile["role_uuids"], ',') == RoleIds(u.roles))
      && forall i :: 0 <= i < |u.roles| ==> RoleIds(u.roles)[i] == Render(u.roles[i].uuid)
  {
    hide Render, Split, Join, Itoa;
    UserFields();
    if u.roles != [] {
      UuidsArePlain(u.roles);
      PlainRoundTrip(RoleIds(u.roles));
    }
  }

  lemma UserFields()
    ensures "uuid" != "username" && "uuid" != "email" && "username" != "email"
    ensures ROLE_UUIDS == "role_uuids" && ROLE_UUIDS !in {"uuid", "username", "email"}
  {
    assert "uuid"[1] == 'u' && "username"[1] == 's' && "email"[0] == 'e' && ROLE_UUIDS[0] == 'r';
  }

  /** The resource of a permission carries its name, its UUID and its actions in one line, and the IDs of its
      user and group subjects if it has any. */
  lemma PermissionResourceMeans(p: ClientPermission, ids: SubjectIds)
    requires Plain(ids.users) && Plain(ids.groups)
    ensures var profile := PermissionProfile(p, ids);
      && profile.Keys == {"name", "uuid", "actions"} + (if ids.users == [] then {} else {"user_subject_ids"})
           + (if ids.groups == [] then {} else {"group_subject_ids"})
      && profile["name"] == p.name && profile["uuid"] == Render(p.uuid)
      && profile["actions"] == Join(p.actions, ' ')
      && (ids.users != [] ==> Split(profile["user_subject_ids"], ',') == ids.users)
      && (ids.groups != [] ==> Split(profile["group_subject_ids"], ',') == ids.groups)
  {
    hide Render, Split, Join;
    PermissionFields();
    if ids.users != [] { PlainRoundTrip(ids.users); }
    if ids.groups != [] { PlainRoundTrip(ids.groups); }
  }

  lemma PermissionFields()
    ensures "name" != "uuid" && "name" != "actions" && "uuid" != "actions"
    ensures USER_SUBJECTS == "user_subject_ids" && USER_SUBJECTS !in {"name", "uuid", "actions"}
    ensures GROUP_SUBJECTS == "group_subject_ids" && GROUP_SUBJECTS !in {"name", "uuid", "actions"}
    ensures USER_SUBJECTS != GROUP_SUBJECTS
  {
    assert "name"[0] == 'n' && "uuid"[1] == 'u' && "actions"[0] == 'a';
    assert USER_SUBJECTS[1] == 's' && GROUP_SUBJECTS[0] == 'g' && USER_SUBJECTS[0] == 'u';
  }

  // ----- Resolving ------------------------------------------------------------------------

  /** A user or group subject is one the maps know; any other kind of subject is passed over. */
  predicate Known(x: TenableObject, users: map<string, ClientUser>, groups: map<string, string>)
  {
    && (x.typ == "User" ==> Render(x.uuid) in users)
    && (x.typ == "UserGroup" ==> Render(x.uuid) in groups)
  }

  predicate AllKnown(subjects: seq<TenableObject>, users: map<string, ClientUser>, groups: map<string, string>)
  {
    forall i :: 0 <= i < |subjects| ==> Known(subjects[i], users, groups)
  }

  predicate HasUserSubject(subjects: seq<TenableObject>, users: map<string, ClientUser>, id: string)
  {
    exists i :: 0 <= i < |subjects| && IsUserSubject(subjects[i], users, id)
  }

  predicate IsUserSubject(x: TenableObject, users: map<string, ClientUser>, id: string)
  {
    x.typ == "User" && Render(x.uuid) in users && Itoa(users[Render(x.uuid)].id) == id
  }

  predicate HasGroupSubject(subjects: seq<TenableObject>, groups: map<string, string>, id: string)
  {
    exists i :: 0 <= i < |subjects| && IsGroupSubject(subjects[i], groups, id)
  }

  predicate IsGroupSubject(x: TenableObject, groups: map<string, string>, id: string)
  {
    x.typ == "UserGroup" && Render(x.uuid) in groups && groups[Render(x.uuid)] == id
  }

  predicate PlainValues(groups: map<string, string>)
  {
    forall k :: k in groups ==> groups[k] != "" && SEPARATOR !in groups[k]
  }

  lemma {:induction false} GroupIdsArePlain(groups: seq<ClientGroup>)
    ensures PlainValues(GroupsByUuid(groups))
  {
    hide Itoa;
    if groups != [] {
      GroupIdsArePlain(groups[..|groups| - 1]);
      ItoaPlain(groups[|groups| - 1].id);
    }
  }

  /** Resolving succeeds exactly when every user and group subject is known, and then yields the IDs
      of exactly those subjects, all of which survive the profile. */
  lemma {:induction false} ResolveMeans(subjects: seq<TenableObject>, users: map<string, ClientUser>,
      groups: map<string, string>)
    requires PlainValues(groups)
    ensures var r := ResolveSubjects(subjects, users, groups);
      && (r.Ok? <==> AllKnown(subjects, users, groups))
      && (r.Ok? ==> Plain(r.value.users) && Plain(r.value.groups))
      && (r.Ok? ==> forall id :: id in r.value.users <==> HasUserSubject(subjects, users, id))
      && (r.Ok? ==> forall id :: id in r.value.groups <==> HasGroupSubject(subjects, groups, id))
  {
    hide Render, Itoa;
    if subjects != [] {
      var init, x := subjects[..|subjects| - 1], subjects[|subjects| - 1];
      ResolveMeans(init, users, groups);
      ExtendSubjects(init, x, users, groups);
      assert subjects == init + [x];
      if x.typ == "User" && Render(x.uuid) in users { ItoaPlain(users[Render(x.uuid)].id); }
    }
  }

  /** Resolving goes through the subjects in their order: two lists one after the other resolve to their IDs one
      after the other. */
  lemma {:induction false} ResolveInOrder(xs: seq<TenableObject>, ys: seq<TenableObject>,
      users: map<string, ClientUser>, groups: map<string, string>)
    requires ResolveSubjects(xs, users, groups).Ok? && ResolveSubjects(ys, users, groups).Ok?
    ensures var before, after := ResolveSubjects(xs, users, groups).value, ResolveSubjects(ys, users, groups).value;
      ResolveSubjects(xs + ys, users, groups)
      == Ok(SubjectIds(before.users + after.users, before.groups + after.groups))
    decreases |ys|
  {
    hide Render, Itoa;
    if ys == [] {
      assert xs + ys == xs;
      var before := ResolveSubjects(xs, users, groups).value;
      assert before.users + [] == before.users && before.groups + [] == before.groups;
    } else {
      var init, y := ys[..|ys| - 1], ys[|ys| - 1];
      assert (xs + ys)[..|xs + ys| - 1] == xs + init && (xs + ys)[|xs + ys| - 1] == y;
      ResolveInOrder(xs, init, users, groups);
      var before, mid := ResolveSubjects(xs, users, groups).value, ResolveSubjects(init, users, groups).value;
      NextAfter(y, before, mid, users, groups);
    }
  }

  lemma NextAfter(y: TenableObject, before: SubjectIds, mid: SubjectIds, users: map<string, ClientUser>,
      groups: map<string, string>)
    requires NextSubject(y, mid, users, groups).Ok?
    ensures var after := NextSubject(y, mid, users, groups).value;
      NextSubject(y, SubjectIds(before.users + mid.users, before.groups + mid.groups), users, groups)
      == Ok(SubjectIds(before.users + after.users, before.groups + after.groups))
  {
    hide Render, Itoa;
    var id := if Render(y.uuid) in users then Itoa(users[Render(y.uuid)].id) else "";
    var group := if Render(y.uuid) in groups then groups[Render(y.uuid)] else "";
    assert before.users + (mid.users + [id]) == before.users + mid.users + [id];
    assert before.groups + (mid.groups + [group]) == before.groups + mid.groups + [group];
  }

  /** What one subject resolves to. */
  lemma ResolveOne(x: TenableObject, users: map<string, ClientUser>, groups: map<string, string>)
    ensures var uuid := Render(x.uuid);
      ResolveSubjects([x], users, groups) ==
        if x.typ == "User" then
          if uuid in users then Ok(SubjectIds([Itoa(users[uuid].id)], [])) else Err(UnknownUuid(uuid))
        else if x.typ == "UserGroup" then
          if uuid in groups then Ok(SubjectIds([], [groups[uuid]])) else Err(UnknownUuid(uuid))
        else Ok(SubjectIds([], []))
  {
    hide Render, Itoa;
    assert [x][..|[x]| - 1] == [] && [x][|[x]| - 1] == x;
    assert ResolveSubjects([x][..0], users, groups) == Ok(SubjectIds([], []));
    assert forall id: string :: [] + [id] == [id];
  }

  lemma ExtendSubjects(init: seq<TenableObject>, x: TenableObject, users: map<string, ClientUser>,
                       groups: map<string, string>)
    ensures AllKnown(init + [x], users, groups) <==> AllKnown(init, users, groups) && Known(x, users, groups)
    ensures forall id :: HasUserSubject(init + [x], users, id) <==>
        HasUserSubject(init, users, id) || IsUserSubject(x, users, id)
    ensures forall id :: HasGroupSubject(init + [x], groups, id) <==>
        HasGroupSubject(init, groups, id) || IsGroupSubject(x, groups, id)
  {
    hide Known, IsUserSubject, IsGroupSubject;
    var all := init + [x];
    assert all[|init|] == x && forall i :: 0 <= i < |init| ==> all[i] == init[i];
  }

  /** The list of permissions fails exactly when some permission has an unknown user or group subject,
      and otherwise has one resource per permission, in order. */
  lemma {:induction false} ListMeans(ps: seq<ClientPermission>, users: map<string, ClientUser>,
                                     groups: map<string, string>)
    requires PlainValues(groups)
    ensures var r := PermissionResources(ps, users, groups);
      && (r.Ok? <==> forall i :: 0 <= i < |ps| ==> AllKnown(ps[i].subjects, users, groups))
      && (r.Ok? ==> |r.value| == |ps| && forall i :: 0 <= i < |ps| ==>
            PermissionResource(ps[i], users, groups) == Ok(r.value[i]))
  {
    hide AllKnown, ResolveSubjects, PermissionProfile, Render;
    if ps != [] {
      ListMeans(ps[..|ps| - 1], users, groups);
      ResolveMeans(ps[|ps| - 1].subjects, users, groups);
    }
  }
}
