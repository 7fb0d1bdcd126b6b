/** The test server's state as a value, and what each of its methods and handlers does to it.

    A Snapshot is State with its pointers read off: a pointer to a user is replaced by the user's
    UUID. The redundancy of the server is kept: three user indexes, memberships on the group and on
    the user, roles on the user and in the edge table, and a member count per group. */
module Directory {
  import opened Wrappers
  import opened Sequences
  import opened Uuids

  // ----- Entities -------------------------------------------------------------------------

  datatype RbacRole = RbacRole(uuid: string, name: string)

  datatype User = User(
    uuid: string, id: int, username: string, email: string, name: string, permissions: int,
    enabled: bool, lastLogin: int, containerUUID: string, groupUUIDs: seq<string>, rbacRoles: seq<RbacRole>)

  /** A group without its member count, which is the one field that ever changes. */
  datatype Group = Group(
    uuid: string, id: int, name: string, containerUUID: string, immutable: bool, membershipFixed: bool)

  datatype Role = Role(
    uuid: string, name: string, description: string, permissionStrings: seq<string>, typ: string, status: string)

  /** PermissionSubject and PermissionObject have the same three fields; an empty uuid is absent on the wire. */
  datatype Subject = Subject(typ: string, uuid: string, name: string)

  datatype Permission = Permission(
    uuid: string, name: string, actions: seq<string>, objects: seq<Subject>, subjects: seq<Subject>,
    createdAt: int, createdBy: string, updatedAt: int, updatedBy: string)

  /** What no method ever changes. */
  datatype Catalog = Catalog(
    groupsByID: map<int, Group>, groupList: seq<Group>, roles: map<string, Role>, roleList: seq<Role>)

  datatype Snapshot = Snapshot(
    catalog: Catalog,
    nextUserID: nat,
    users: map<string, User>,
    byID: map<int, string>,
    order: seq<string>,
    members: map<string, seq<string>>,
    counts: map<string, int>,
    userRoles: map<string, seq<string>>,
    permissions: map<string, Permission>,
    permissionOrder: seq<string>)

  const CONTAINER_UUID: string := "f8973c82-01a7-4aee-9754-4a61e3b3e70e"
  const ALL_USERS: string := "00000000-0000-0000-0000-000000000000"

  /** The All Users group carries the nil UUID. */
  lemma AllUsersIsNil()
    ensures ALL_USERS == Render(NIL) && Canonical(ALL_USERS)
  {
    RenderIsCanonical(NIL);
    assert forall i :: 0 <= i < 36 ==> ALL_USERS[i] == Render(NIL)[i];
  }

  // ----- Lookups --------------------------------------------------------------------------

  /** Indexing the edge table: a missing key reads as the empty list. */
  function Row(table: map<string, seq<string>>, key: string): seq<string>
  {
    if key in table then table[key] else []
  }

  function UserByID(s: Snapshot, id: int): Option<User>
  {
    if id in s.byID && s.byID[id] in s.users then Some(s.users[s.byID[id]]) else None
  }

  function GroupByID(s: Snapshot, id: int): Option<Group>
  {
    if id in s.catalog.groupsByID then Some(s.catalog.groupsByID[id]) else None
  }

  function LiveUsers(users: map<string, User>, uuids: seq<string>): seq<User>
  {
    if uuids == [] then []
    else (if uuids[0] in users then [users[uuids[0]]] else []) + LiveUsers(users, uuids[1..])
  }

  function ListUsers(s: Snapshot): seq<User>
  {
    LiveUsers(s.users, s.order)
  }

  function ListGroupMembers(s: Snapshot, groupID: int): Option<seq<User>>
  {
    match GroupByID(s, groupID)
    case None => None
    case Some(g) => Some(LiveUsers(s.users, Row(s.members, g.uuid)))
  }

  function GetUserRoles(s: Snapshot, userUUID: string): Option<seq<string>>
  {
    if userUUID in s.users then Some(Row(s.userRoles, userUUID)) else None
  }

  function LivePermissions(permissions: map<string, Permission>, uuids: seq<string>): seq<Permission>
  {
    if uuids == [] then []
    else (if uuids[0] in permissions then [permissions[uuids[0]]] else []) + LivePermissions(permissions, uuids[1..])
  }

  function ListPermissions(s: Snapshot): seq<Permission>
  {
    LivePermissions(s.permissions, s.permissionOrder)
  }

  // ----- Methods of State -----------------------------------------------------------------

  function GroupUuids(c: Catalog): set<string>
  {
    set g | g in c.groupList :: g.uuid
  }

  function MemberCounts(c: Catalog, members: map<string, seq<string>>): map<string, int>
  {
    map g | g in GroupUuids(c) :: |Row(members, g)|
  }

  /** recomputeGroupCountsLocked. */
  function Recount(s: Snapshot): Snapshot
  {
    s.(counts := MemberCounts(s.catalog, s.members))
  }

  function NewUser(id: nat, username: string, email: string, name: string, permissions: int): User
  {
    User(FormatUuid(id), id, username, email, name, permissions, true, 0, CONTAINER_UUID, [ALL_USERS], [])
  }

  /** Puts a user under the three indexes and into the All Users group. */
  function FileUser(s: Snapshot, u: User): Snapshot
  {
    Recount(s.(
      users := s.users[u.uuid := u],
      byID := s.byID[u.id := u.uuid],
      order := s.order + [u.uuid],
      members := s.members[ALL_USERS := Row(s.members, ALL_USERS) + [u.uuid]]))
  }

  function CreateUser(s: Snapshot, username: string, email: string, name: string, permissions: int): Snapshot
  {
    FileUser(s.(nextUserID := s.nextUserID + 1), NewUser(s.nextUserID + 1, username, email, name, permissions))
  }

  function DropFromRows(members: map<string, seq<string>>, uuid: string): map<string, seq<string>>
  {
    map g | g in members :: Without(members[g], uuid)
  }

  /** Takes a user out of every index, role row and member row. */
  function UnfileUser(s: Snapshot, uuid: string, id: int): Snapshot
  {
    Recount(s.(
      users := s.users - {uuid},
      byID := s.byID - {id},
      order := Without(s.order, uuid),
      userRoles := s.userRoles - {uuid},
      members := DropFromRows(s.members, uuid)))
  }

  function DeleteUser(s: Snapshot, id: int): (Snapshot, bool)
  {
    match UserByID(s, id)
    case None => (s, false)
    case Some(u) => (UnfileUser(s, u.uuid, id), true)
  }

  function PutUser(s: Snapshot, u: User): Snapshot
  {
    s.(users := s.users[u.uuid := u])
  }

  function SetUserEnabled(s: Snapshot, id: int, enabled: bool): (Snapshot, Option<User>)
  {
    match UserByID(s, id)
    case None => (s, None)
    case Some(u) => var u' := u.(enabled := enabled); (PutUser(s, u'), Some(u'))
  }

  /** An absent or empty field of an edit leaves the user's as it is. */
  function Edited(u: User, name: string, permissions: int, email: string, enabled: Option<bool>): User
  {
    u.(name := if name != "" then name else u.name,
       email := if email != "" then email else u.email,
       permissions := if permissions != 0 then permissions else u.permissions,
       enabled := if enabled.Some? then enabled.value else u.enabled)
  }

  function UpdateUser(s: Snapshot, id: int, name: string, permissions: int, email: string, enabled: Option<bool>)
    : (Snapshot, Option<User>)
  {
    match UserByID(s, id)
    case None => (s, None)
    case Some(u) =>
      var u' := Edited(u, name, permissions, email, enabled);
      (PutUser(s, u'), Some(u'))
  }

  /** The new snapshot, whether the user was a member already, and whether group and user exist. */
  function AddGroupMember(s: Snapshot, groupID: int, userID: int): (Snapshot, bool, bool)
  {
    match (GroupByID(s, groupID), UserByID(s, userID))
    case (Some(g), Some(u)) =>
      if u.uuid in Row(s.members, g.uuid) then (s, true, true)
      else
        var u' := u.(groupUUIDs := if g.uuid in u.groupUUIDs then u.groupUUIDs else u.groupUUIDs + [g.uuid]);
        (Recount(PutUser(s, u').(members := s.members[g.uuid := Row(s.members, g.uuid) + [u.uuid]])), false, true)
    case _ => (s, false, false)
  }

  function RemoveGroupMember(s: Snapshot, groupID: int, userID: int): (Snapshot, bool, bool)
  {
    match (GroupByID(s, groupID), UserByID(s, userID))
    case (Some(g), Some(u)) =>
      if u.uuid !in Row(s.members, g.uuid) then (s, true, true)
      else
        var u' := u.(groupUUIDs := Without(u.groupUUIDs, g.uuid));
        (Recount(PutUser(s, u').(members := s.members[g.uuid := Without(Row(s.members, g.uuid), u.uuid)])), false, true)
    case _ => (s, false, false)
  }

  function RoleRefs(roles: map<string, Role>, roleUUIDs: seq<string>): seq<RbacRole>
    requires forall r :: r in roleUUIDs ==> r in roles
  {
    seq(|roleUUIDs|, i requires 0 <= i < |roleUUIDs| =>
      RbacRole(roles[roleUUIDs[i]].uuid, roles[roleUUIDs[i]].name))
  }

  function SetUserRoles(s: Snapshot, userUUID: string, roleUUIDs: seq<string>): (Snapshot, bool)
  {
    if userUUID !in s.users || exists r :: r in roleUUIDs && r !in s.catalog.roles then (s, false)
    else
      (s.(userRoles := s.userRoles[userUUID := roleUUIDs],
          users := s.users[userUUID := s.users[userUUID].(rbacRoles := RoleRefs(s.catalog.roles, roleUUIDs))]), true)
  }

  function UpdatePermission(s: Snapshot, uuid: string, name: string, actions: seq<string>,
                            objects: seq<Subject>, subjects: seq<Subject>): (Snapshot, bool)
  {
    if uuid !in s.permissions then (s, false)
    else
      var p := s.permissions[uuid].(name := name, actions := actions, objects := objects, subjects := subjects);
      (s.(permissions := s.permissions[uuid := p]), true)
  }

  // ----- Handlers that write --------------------------------------------------------------

  datatype Request =
    | CreateUserRequest(username: string, password: string, email: string, name: string, permissions: int)
    | UpdateUserRequest(id: int, name: string, permissions: int, email: string, enabledField: Option<bool>)
    | DeleteUserRequest(id: int)
    | SetEnabledRequest(id: int, enabled: bool)
    | AddMemberRequest(groupID: int, userID: int)
    | RemoveMemberRequest(groupID: int, userID: int)
    | SetRolesRequest(userUUID: string, roleUUIDs: seq<string>)
    | UpdatePermissionRequest(uuid: string, name: string, actions: seq<string>, objects: seq<Subject>,
        subjects: seq<Subject>)

  datatype Status = Success | BadRequest | NotFound | Forbidden

  function FoundOr404(found: bool): Status
  {
    if found then Success else NotFound
  }

  /** GroupMembershipFixed, as the two membership handlers read it: a missing group is not fixed. */
  predicate MembershipFixed(s: Snapshot, groupID: int)
  {
    GroupByID(s, groupID).Some? && GroupByID(s, groupID).value.membershipFixed
  }

  function Handle(s: Snapshot, request: Request): (Snapshot, Status)
  {
    match request
    case CreateUserRequest(username, password, email, name, permissions) =>
      if username == "" || password == "" then (s, BadRequest)
      else
        (CreateUser(s, username, if email == "" then username else email, name,
                    if permissions == 0 then 16 else permissions), Success)
    case UpdateUserRequest(id, name, permissions, email, enabled) =>
      var (s', u) := UpdateUser(s, id, name, permissions, email, enabled);
      (s', FoundOr404(u.Some?))
    case DeleteUserRequest(id) =>
      var (s', found) := DeleteUser(s, id);
      (s', FoundOr404(found))
    case SetEnabledRequest(id, enabled) =>
      var (s', u) := SetUserEnabled(s, id, enabled);
      (s', FoundOr404(u.Some?))
    case AddMemberRequest(groupID, userID) =>
      if MembershipFixed(s, groupID) then (s, Forbidden)
      else
        var (s', _, found) := AddGroupMember(s, groupID, userID);
        (s', FoundOr404(found))
    case RemoveMemberRequest(groupID, userID) =>
      if MembershipFixed(s, groupID) then (s, Forbidden)
      else
        var (s', _, found) := RemoveGroupMember(s, groupID, userID);
        (s', FoundOr404(found))
    case SetRolesRequest(userUUID, roleUUIDs) =>
      var (s', found) := SetUserRoles(s, userUUID, roleUUIDs);
      (s', FoundOr404(found))
    case UpdatePermissionRequest(uuid, name, actions, objects, subjects) =>
      var (s', found) := UpdatePermission(s, uuid, name, actions, objects, subjects);
      (s', FoundOr404(found))
  }
}
