/** What the client sends and how it reads what comes back: JSON fields reduced to the decoding of
    UUIDs, and each HTTP request reduced to the handler behind it. */
module Wire {
  import opened Wrappers
  import opened Text
  import opened Uuids
  import opened Directory

  // ----- The client's data ----------------------------------------------------------------

  datatype ClientRole = ClientRole(uuid: Uuid, name: string)

  datatype ClientUser = ClientUser(id: int, uuid: string, username: string, email: string, name: string, enabled: bool,
                                   roles: seq<ClientRole>)

  datatype ClientGroup = ClientGroup(id: int, uuid: string, name: string)

  datatype RoleDetails = RoleDetails(uuid: Uuid, name: string, typ: string)

  /** A subject or an object of a permission, with its UUID as a fixed-size value. */
  datatype TenableObject = TenableObject(typ: string, uuid: Uuid, name: string)

  datatype ClientPermission = ClientPermission(
    uuid: Uuid, name: string, actions: seq<string>, objects: seq<TenableObject>, subjects: seq<TenableObject>)

  datatype Failure =
    | Refused(status: Status)
    | Undecodable
    | WrongPrincipalType
    | UnparsableUserUuid
    | NoBasicRole
    | BasicRoleIsFloor
    | UnknownUuid(uuid: string)
    | StatusUnchanged
    | BadProfile(field: string)
    | NoPassword

  type Response<+T> = Result<T, Failure>

  // ----- Decoding and encoding ------------------------------------------------------------

  function DecodeAll<A, B>(xs: seq<A>, decode: A -> Option<B>): (r: Option<seq<B>>)
    ensures r.Some? ==> |r.value| == |xs| && forall i :: 0 <= i < |xs| ==> decode(xs[i]) == Some(r.value[i])
    ensures r.None? ==> exists i :: 0 <= i < |xs| && decode(xs[i]).None?
  {
    if xs == [] then Some([])
    else
      match (decode(xs[0]), DecodeAll(xs[1..], decode))
      case (Some(y), Some(ys)) => Some([y] + ys)
      case _ => None
  }

  const DecodeRoleRef: RbacRole -> Option<ClientRole> := (r: RbacRole) =>
    match Parse(r.uuid) case None => None case Some(u) => Some(ClientRole(u, r.name))

  function DecodeUser(u: User): Option<ClientUser>
  {
    match DecodeAll(u.rbacRoles, DecodeRoleRef)
    case None => None
    case Some(roles) => Some(ClientUser(u.id, u.uuid, u.username, u.email, u.name, u.enabled, roles))
  }

  const DecodeUserRecord: User -> Option<ClientUser> := (u: User) => DecodeUser(u)

  function DecodeUsers(us: seq<User>): Option<seq<ClientUser>>
  {
    DecodeAll(us, DecodeUserRecord)
  }

  const DecodeRole: Role -> Option<RoleDetails> := (r: Role) =>
    match Parse(r.uuid) case None => None case Some(u) => Some(RoleDetails(u, r.name, r.typ))

  /** An absent uuid field leaves the client's fixed-size value at zero. */
  const DecodeObject: Subject -> Option<TenableObject> := (o: Subject) =>
    if o.uuid == "" then Some(TenableObject(o.typ, NIL, o.name))
    else match Parse(o.uuid) case None => None case Some(u) => Some(TenableObject(o.typ, u, o.name))

  /** omitempty never omits a fixed-size array, so the nil UUID is written out. */
  function EncodeObject(o: TenableObject): Subject
  {
    Subject(o.typ, Render(o.uuid), o.name)
  }

  function EncodeObjects(os: seq<TenableObject>): (r: seq<Subject>)
    ensures |r| == |os|
  {
    seq(|os|, i requires 0 <= i < |os| => EncodeObject(os[i]))
  }

  function DecodePermission(p: Permission): Option<ClientPermission>
  {
    match (Parse(p.uuid), DecodeAll(p.objects, DecodeObject), DecodeAll(p.subjects, DecodeObject))
    case (Some(uuid), Some(objects), Some(subjects)) => Some(ClientPermission(uuid, p.name, p.actions, objects,
        subjects))
    case _ => None
  }

  const DecodePermissionRecord: Permission -> Option<ClientPermission> := (p: Permission) => DecodePermission(p)

  /** strings.Replace with a count of one. */
  function ReplaceFirst(s: string, from: char, to: char): string
  {
    if s == "" then ""
    else if s[0] == from then [to] + s[1..]
    else [s[0]] + ReplaceFirst(s[1..], from, to)
  }

  function RewriteTag(o: TenableObject): TenableObject
  {
    if o.typ == "Tag" then o.(name := ReplaceFirst(o.name, ':', ',')) else o
  }

  function RewriteTags(os: seq<TenableObject>): (r: seq<TenableObject>)
    ensures |r| == |os|
  {
    seq(|os|, i requires 0 <= i < |os| => RewriteTag(os[i]))
  }

  // ----- Requests that read ---------------------------------------------------------------

  function Decoded<T>(found: Option<T>): Response<T>
  {
    match found case None => Err(Undecodable) case Some(x) => Ok(x)
  }

  function GetUsers(s: Snapshot): Response<seq<ClientUser>>
  {
    Decoded(DecodeUsers(ListUsers(s)))
  }

  function GetUserDetails(s: Snapshot, userId: string): Response<ClientUser>
  {
    match Atoi(userId)
    case None => Err(Refused(BadRequest))
    case Some(id) =>
      match UserByID(s, id)
      case None => Err(Refused(NotFound))
      case Some(u) => Decoded(DecodeUser(u))
  }

  function GetGroupMembers(s: Snapshot, groupId: string): Response<seq<ClientUser>>
  {
    match Atoi(groupId)
    case None => Err(Refused(BadRequest))
    case Some(id) =>
      match ListGroupMembers(s, id)
      case None => Err(Refused(NotFound))
      case Some(us) => Decoded(DecodeUsers(us))
  }

  function GetGroups(s: Snapshot): seq<ClientGroup>
  {
    seq(|s.catalog.groupList|, i requires 0 <= i < |s.catalog.groupList| =>
      ClientGroup(s.catalog.groupList[i].id, s.catalog.groupList[i].uuid, s.catalog.groupList[i].name))
  }

  function GetUserRoleUuids(s: Snapshot, userUUID: string): Response<seq<string>>
  {
    match GetUserRoles(s, userUUID)
    case None => Err(Refused(NotFound))
    case Some(row) => Ok(row)
  }

  function GetRoles(s: Snapshot): Response<seq<RoleDetails>>
  {
    Decoded(DecodeAll(s.catalog.roleList, DecodeRole))
  }

  function GetPermissions(s: Snapshot): Response<seq<ClientPermission>>
  {
    Decoded(DecodeAll(ListPermissions(s), DecodePermissionRecord))
  }

  function GetPermissionDetails(s: Snapshot, uuid: string): Response<ClientPermission>
  {
    if uuid !in s.permissions then Err(Refused(NotFound)) else Decoded(DecodePermission(s.permissions[uuid]))
  }

  // ----- Requests that write --------------------------------------------------------------

  function Acknowledged(status: Status): Response<()>
  {
    if status == Success then Ok(()) else Err(Refused(status))
  }

  function PostGroupMember(s: Snapshot, groupId: string, userId: string): (Snapshot, Response<()>)
  {
    match (Atoi(groupId), Atoi(userId))
    case (Some(g), Some(u)) =>
      var (s', status) := Handle(s, AddMemberRequest(g, u));
      (s', Acknowledged(status))
    case _ => (s, Err(Refused(BadRequest)))
  }

  function DeleteGroupMember(s: Snapshot, groupId: string, userId: string): (Snapshot, Response<()>)
  {
    match (Atoi(groupId), Atoi(userId))
    case (Some(g), Some(u)) =>
      var (s', status) := Handle(s, RemoveMemberRequest(g, u));
      (s', Acknowledged(status))
    case _ => (s, Err(Refused(BadRequest)))
  }

  /** The body always names exactly one role. */
  function PutUserRole(s: Snapshot, userUUID: string, roleUUID: string): (Snapshot, Response<()>)
  {
    var (s', status) := Handle(s, SetRolesRequest(userUUID, [roleUUID]));
    (s', Acknowledged(status))
  }

  /** EnableUser and DisableUser: the write happens even if the answer cannot be decoded. */
  function PutUserEnabled(s: Snapshot, userId: string, enabled: bool): (Snapshot, Response<ClientUser>)
  {
    match Atoi(userId)
    case None => (s, Err(Refused(BadRequest)))
    case Some(id) =>
      var (s', found) := SetUserEnabled(s, id, enabled);
      (s', if found.None? then Err(Refused(NotFound)) else Decoded(DecodeUser(found.value)))
  }

  /** The body replaces name, actions, objects and subjects together. */
  function PutPermission(s: Snapshot, p: ClientPermission): (Snapshot, Response<()>)
  {
    var (s', status) := Handle(s, UpdatePermissionRequest(Render(p.uuid), p.name, p.actions,
                                                          EncodeObjects(RewriteTags(p.objects)),
                                                              EncodeObjects(p.subjects)));
    (s', Acknowledged(status))
  }

  function PostUser(s: Snapshot, username: string, password: string, email: string, name: string, permissions: int)
    : (Snapshot, Response<()>)
  {
    var (s', status) := Handle(s, CreateUserRequest(username, password, email, name, permissions));
    (s', Acknowledged(status))
  }
}
