/** What an operation does in one piece: the write it makes, the answer it gives and the account it
    re-enables, written without requests or program counters. */
module Meaning {
  import opened Wrappers
  import opened Text
  import opened Uuids
  import opened Directory
  import opened Wire
  import opened Protocol
  import opened Reading

  predicate IsGrant(op: Op) { op.GroupGrant? || op.RoleGrant? || op.PermissionGrant? }

  predicate ForGroup(op: Op) { op.GroupGrant? || op.GroupRevoke? }

  predicate ForRole(op: Op) { op.RoleGrant? || op.RoleRevoke? }

  predicate ForPermission(op: Op) { op.PermissionGrant? || op.PermissionRevoke? }

  predicate IsProvisioning(op: Op) { ForGroup(op) || ForRole(op) || ForPermission(op) }

  function NoSuch(id: string): Outcome
  {
    Failed(Refused(if Atoi(id).None? then BadRequest else NotFound))
  }

  // ----- Groups ---------------------------------------------------------------------------

  /** A member whose resource ID is spelled as the connector spells it. */
  predicate Listed(s: Snapshot, group: string, user: string)
  {
    IsMember(s, group, user) && IsDecimal(user)
  }

  function GroupGrantAnswer(s: Snapshot, user: string, group: string): Outcome
  {
    if GroupOf(s, group).None? then NoSuch(group)
    else if Listed(s, group, user) then AlreadyExists
    else if Atoi(user).None? then Failed(Refused(BadRequest))
    else if IsFixed(s, group) then Failed(Refused(Forbidden))
    else if UserOf(s, user).None? then Failed(Refused(NotFound))
    else Applied
  }

  function GroupRevokeAnswer(s: Snapshot, user: string, group: string): Outcome
  {
    if GroupOf(s, group).None? then NoSuch(group)
    else if !Listed(s, group, user) then AlreadyRevoked
    else if IsFixed(s, group) then Failed(Refused(Forbidden))
    else Applied
  }

  // ----- Roles ----------------------------------------------------------------------------

  /** The role that Revoke falls back to: the first STANDARD role named Basic in the server's list. */
  function Floor(roles: seq<Role>): Option<string>
  {
    if roles == [] then None
    else if roles[0].typ == "STANDARD" && roles[0].name == "Basic" then Some(roles[0].uuid)
    else Floor(roles[1..])
  }

  predicate HoldsRole(s: Snapshot, user: string, role: string)
  {
    UserOf(s, user).Some? && role in Row(s.userRoles, UserOf(s, user).value.uuid)
  }

  function RoleGrantAnswer(s: Snapshot, user: string, role: string): Outcome
  {
    if UserOf(s, user).None? then NoSuch(user)
    else if HoldsRole(s, user, role) then AlreadyExists
    else if role !in s.catalog.roles then Failed(Refused(NotFound))
    else Applied
  }

  function RoleRevokeAnswer(s: Snapshot, user: string, role: string): Outcome
  {
    if UserOf(s, user).None? then NoSuch(user)
    else if !HoldsRole(s, user, role) then AlreadyRevoked
    else
      match Floor(s.catalog.roleList)
      case None => Failed(NoBasicRole)
      case Some(basic) => if basic == role then Failed(BasicRoleIsFloor) else Applied
  }

  /** The user's roles become this one role. */
  function Assign(s: Snapshot, user: string, role: string): Snapshot
  {
    if UserOf(s, user).None? then s else SetUserRoles(s, UserOf(s, user).value.uuid, [role]).0
  }

  // ----- Permissions ----------------------------------------------------------------------

  /** The subjects as the client reads them. */
  function SubjectsOf(s: Snapshot, permission: string): Option<ClientPermission>
  {
    if permission in s.permissions then DecodePermission(s.permissions[permission]) else None
  }

  predicate HasPermission(s: Snapshot, user: string, permission: string)
  {
    && UserOf(s, user).Some? && SubjectsOf(s, permission).Some?
    && HasSubject(SubjectsOf(s, permission).value.subjects, UserOf(s, user).value.uuid)
  }

  function PermissionAnswer(op: Op, s: Snapshot): Outcome
    requires ForPermission(op)
  {
    if op.principalType != USER_TYPE then Failed(WrongPrincipalType)
    else if op.permission !in s.permissions then Failed(Refused(NotFound))
    else if SubjectsOf(s, op.permission).None? then Failed(Undecodable)
    else if UserOf(s, op.user).None? then NoSuch(op.user)
    else if HasPermission(s, op.user, op.permission) then if op.PermissionGrant? then AlreadyExists else Applied
    else if op.PermissionGrant? then Applied else AlreadyRevoked
  }

  /** The body that a permission operation sends, from the permission and the user it has read. */
  function Revised(op: Op, p: ClientPermission, uuid: Uuid, name: string): ClientPermission
    requires ForPermission(op)
  {
    p.(subjects := if op.PermissionGrant? then p.subjects + [TenableObject(USER_SUBJECT, uuid, name)]
                   else DropSubject(p.subjects, uuid))
  }

  function PermissionWrite(op: Op, s: Snapshot): Snapshot
    requires ForPermission(op) && UserOf(s, op.user).Some? && SubjectsOf(s, op.permission).Some?
  {
    var u := UserOf(s, op.user).value;
    match Parse(u.uuid)
    case None => s
    case Some(uuid) => PutPermission(s, Revised(op, SubjectsOf(s, op.permission).value, uuid, u.name)).0
  }

  // ----- Whole operations -----------------------------------------------------------------

  function Answer(op: Op, s: Snapshot): Outcome
    requires IsProvisioning(op)
  {
    match op
    case GroupGrant(user, group) => GroupGrantAnswer(s, user, group)
    case GroupRevoke(user, group) => GroupRevokeAnswer(s, user, group)
    case RoleGrant(user, role) => RoleGrantAnswer(s, user, role)
    case RoleRevoke(user, role) => RoleRevokeAnswer(s, user, role)
    case PermissionGrant(_, _, _) => PermissionAnswer(op, s)
    case PermissionRevoke(_, _, _) => PermissionAnswer(op, s)
  }

  /** The one write. Membership writes are made whatever the answer: they repeat nothing. */
  function Write(op: Op, s: Snapshot): Snapshot
    requires IsProvisioning(op)
  {
    match op
    case GroupGrant(user, group) => PostGroupMember(s, group, user).0
    case GroupRevoke(user, group) => if IsDecimal(user) then DeleteGroupMember(s, group, user).0 else s
    case RoleGrant(user, role) => if RoleGrantAnswer(s, user, role) == Applied then Assign(s, user, role) else s
    case RoleRevoke(user, role) =>
      if RoleRevokeAnswer(s, user, role) == Applied then Assign(s, user, Floor(s.catalog.roleList).value) else s
    case PermissionGrant(_, _, _) => if PermissionAnswer(op, s) == Applied then PermissionWrite(op, s) else s
    case PermissionRevoke(_, _, _) => if PermissionAnswer(op, s) == Applied then PermissionWrite(op, s) else s
  }

  function Enabled(u: User, ids: set<int>): User
  {
    if u.id in ids then u.(enabled := true) else u
  }

  function EnabledUsers(users: map<string, User>, ids: set<int>): map<string, User>
  {
    map k | k in users :: Enabled(users[k], ids)
  }

  /** The accounts with these IDs are enabled. */
  function EnableUsers(s: Snapshot, ids: set<int>): Snapshot
  {
    s.(users := EnabledUsers(s.users, ids))
  }

  /** The account that a successful grant re-enables. */
  function Target(e: bool, op: Op, answer: Outcome): set<int>
  {
    if e && IsGrant(op) && !answer.Failed? && Atoi(op.user).Some? then {Atoi(op.user).value} else {}
  }

  function Effect(e: bool, op: Op, s: Snapshot): Snapshot
    requires IsProvisioning(op)
  {
    EnableUsers(Write(op, s), Target(e, op, Answer(op, s)))
  }
}
