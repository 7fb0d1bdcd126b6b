/** Each provisioning operation of the connector as a sequence of requests, one per step. A program
    counter holds what the operation has learnt so far, so that it can be cut off after any request
    and interleaved with anything else. */
module Protocol {
  import opened Wrappers
  import opened Text
  import opened Uuids
  import opened Directory
  import opened Wire

  datatype Op =
    | GroupGrant(user: string, group: string)
    | GroupRevoke(user: string, group: string)
    | RoleGrant(user: string, role: string)
    | RoleRevoke(user: string, role: string)
    | PermissionGrant(principalType: string, user: string, permission: string)
    | PermissionRevoke(principalType: string, user: string, permission: string)
    | CreateAccount(email: string, name: string, password: string)
    | SetAccountEnabled(user: string, enabled: bool)

  datatype Outcome = Applied | AlreadyExists | AlreadyRevoked | Failed(failure: Failure)

  /** What the operation does next. */
  datatype Pc =
    | Start
    | MemberPost
    | MemberFetch
    | MemberDelete
    | RoleRead(user: ClientUser)
    | RolePut(user: ClientUser)
    | BasicLookup(user: ClientUser)
    | BasicPut(user: ClientUser, basic: string)
    | PrincipalRead(permission: ClientPermission)
    | PermissionPut(user: ClientUser, permission: ClientPermission)
    | Enable(id: int, answer: Outcome)
    | Done(outcome: Outcome)

  predicate Fits(op: Op, pc: Pc)
  {
    match pc
    case Start => true
    case MemberPost => op.GroupGrant?
    case MemberFetch => op.GroupGrant?
    case MemberDelete => op.GroupRevoke?
    case RoleRead(_) => op.RoleGrant? || op.RoleRevoke?
    case RolePut(_) => op.RoleGrant?
    case BasicLookup(_) => op.RoleRevoke?
    case BasicPut(_, _) => op.RoleRevoke?
    case PrincipalRead(_) => op.PermissionGrant? || op.PermissionRevoke?
    case PermissionPut(_, _) => op.PermissionGrant? || op.PermissionRevoke?
    case Enable(_, _) => op.GroupGrant? || op.RoleGrant? || op.PermissionGrant?
    case Done(_) => true
  }

  function Rank(pc: Pc): nat
  {
    match pc
    case Start => 6
    case RoleRead(_) => 5
    case PrincipalRead(_) => 5
    case BasicLookup(_) => 4
    case MemberPost => 3
    case MemberDelete => 3
    case RolePut(_) => 3
    case BasicPut(_, _) => 3
    case PermissionPut(_, _) => 3
    case MemberFetch => 2
    case Enable(_, _) => 1
    case Done(_) => 0
  }

  /** A counter the operation can reach, with at most so many requests ahead of it. */
  predicate Within(op: Op, pc: Pc, rank: nat)
  {
    Fits(op, pc) && Rank(pc) <= rank
  }

  // ----- Local decisions ------------------------------------------------------------------

  /** reEnableUserIfNeeded, as far as the decision goes. */
  function ReEnable(enableOnProvision: bool, user: ClientUser, answer: Outcome): (pc: Pc)
  {
    if !user.enabled && enableOnProvision then Enable(user.id, answer) else Done(answer)
  }

  /** The first listed member whose ID prints as the principal's resource ID. */
  function FindMember(members: seq<ClientUser>, userId: string): Option<ClientUser>
  {
    if members == [] then None
    else if Itoa(members[0].id) == userId then Some(members[0])
    else FindMember(members[1..], userId)
  }

  /** basicRoleUUID: the first role of type STANDARD named Basic. */
  function FirstBasic(roles: seq<RoleDetails>): Option<string>
  {
    if roles == [] then None
    else if roles[0].typ == "STANDARD" && roles[0].name == "Basic" then Some(Render(roles[0].uuid))
    else FirstBasic(roles[1..])
  }

  predicate HasSubject(subjects: seq<TenableObject>, userUUID: string)
  {
    exists i :: 0 <= i < |subjects| && Render(subjects[i].uuid) == userUUID
  }

  /** slices.DeleteFunc by UUID value. */
  function DropSubject(subjects: seq<TenableObject>, uuid: Uuid): seq<TenableObject>
  {
    if subjects == [] then []
    else if subjects[0].uuid == uuid then DropSubject(subjects[1..], uuid)
    else [subjects[0]] + DropSubject(subjects[1..], uuid)
  }

  const USER_TYPE: string := "user"
  const USER_SUBJECT: string := "User"
  const BASIC_USER_ROLE: int := 16

  // ----- One request ----------------------------------------------------------------------

  function GroupStart(e: bool, op: Op, s: Snapshot): (pc: Pc)
    requires op.GroupGrant? || op.GroupRevoke?
    ensures Within(op, pc, 3)
  {
    match GetGroupMembers(s, op.group)
    case Err(f) => Done(Failed(f))
    case Ok(members) =>
      match FindMember(members, op.user)
      case Some(m) => if op.GroupGrant? then ReEnable(e, m, AlreadyExists) else MemberDelete
      case None => if op.GroupGrant? then MemberPost else Done(AlreadyRevoked)
  }

  function RoleStart(op: Op, s: Snapshot): (pc: Pc)
    requires op.RoleGrant? || op.RoleRevoke?
    ensures Within(op, pc, 5)
  {
    match GetUserDetails(s, op.user)
    case Err(f) => Done(Failed(f))
    case Ok(user) => RoleRead(user)
  }

  function PermissionStart(op: Op, s: Snapshot): (pc: Pc)
    requires op.PermissionGrant? || op.PermissionRevoke?
    ensures Within(op, pc, 5)
  {
    if op.principalType != USER_TYPE then Done(Failed(WrongPrincipalType))
    else
      match GetPermissionDetails(s, op.permission)
      case Err(f) => Done(Failed(f))
      case Ok(p) => PrincipalRead(p)
  }

  function RoleReadStep(e: bool, op: Op, user: ClientUser, s: Snapshot): (pc: Pc)
    requires op.RoleGrant? || op.RoleRevoke?
    ensures Within(op, pc, 4)
  {
    match GetUserRoleUuids(s, user.uuid)
    case Err(f) => Done(Failed(f))
    case Ok(roles) =>
      if op.RoleGrant? then
        if op.role in roles then ReEnable(e, user, AlreadyExists) else RolePut(user)
      else
        if op.role in roles then BasicLookup(user) else Done(AlreadyRevoked)
  }

  function BasicLookupStep(op: Op, user: ClientUser, s: Snapshot): (pc: Pc)
    requires op.RoleRevoke?
    ensures Within(op, pc, 3)
  {
    match GetRoles(s)
    case Err(f) => Done(Failed(f))
    case Ok(roles) =>
      match FirstBasic(roles)
      case None => Done(Failed(NoBasicRole))
      case Some(basic) => if op.role == basic then Done(Failed(BasicRoleIsFloor)) else BasicPut(user, basic)
  }

  function PrincipalReadStep(e: bool, op: Op, p: ClientPermission, s: Snapshot): (pc: Pc)
    requires op.PermissionGrant? || op.PermissionRevoke?
    ensures Within(op, pc, 3)
  {
    match GetUserDetails(s, op.user)
    case Err(f) => Done(Failed(f))
    case Ok(user) =>
      if HasSubject(p.subjects, user.uuid) == op.PermissionGrant? then
        if op.PermissionGrant? then ReEnable(e, user, AlreadyExists) else Done(AlreadyRevoked)
      else
        match Parse(user.uuid)
        case None => Done(Failed(UnparsableUserUuid))
        case Some(u) =>
          PermissionPut(user, p.(subjects :=
            if op.PermissionGrant? then p.subjects + [TenableObject(USER_SUBJECT, u, user.name)]
            else DropSubject(p.subjects, u)))
  }

  function MemberFetchStep(e: bool, op: Op, s: Snapshot): (pc: Pc)
    requires op.GroupGrant?
    ensures Within(op, pc, 1)
  {
    match GetUserDetails(s, op.user)
    case Err(f) => Done(Failed(f))
    case Ok(u) => ReEnable(e, u, Applied)
  }

  /** Going on once a write has been answered. */
  function After<T>(reply: Response<T>, next: Pc): (pc: Pc)
    ensures pc == next || pc.Done?
  {
    match reply
    case Err(f) => Done(Failed(f))
    case Ok(_) => next
  }

  function SetAccountStep(op: Op, s: Snapshot): (r: (Snapshot, Pc))
    requires op.SetAccountEnabled?
    ensures r.1.Done?
  {
    var (s', reply) := PutUserEnabled(s, op.user, op.enabled);
    (s', match reply
         case Err(f) => Done(Failed(f))
         case Ok(u) => if u.enabled == op.enabled then Done(Applied) else Done(Failed(StatusUnchanged)))
  }

  function StartStep(e: bool, op: Op, s: Snapshot): (r: (Snapshot, Pc))
    ensures Within(op, r.1, 5)
  {
    match op
    case GroupGrant(_, _) => (s, GroupStart(e, op, s))
    case GroupRevoke(_, _) => (s, GroupStart(e, op, s))
    case RoleGrant(_, _) => (s, RoleStart(op, s))
    case RoleRevoke(_, _) => (s, RoleStart(op, s))
    case PermissionGrant(_, _, _) => (s, PermissionStart(op, s))
    case PermissionRevoke(_, _, _) => (s, PermissionStart(op, s))
    case CreateAccount(email, name, password) =>
      var (s', reply) := PostUser(s, email, password, email, name, BASIC_USER_ROLE);
      (s', After(reply, Done(Applied)))
    case SetAccountEnabled(_, _) => SetAccountStep(op, s)
  }

  /** One request and the decision that follows its answer. */
  function Step(e: bool, op: Op, pc: Pc, s: Snapshot): (r: (Snapshot, Pc))
    requires Fits(op, pc)
    ensures Fits(op, r.1)
    ensures !pc.Done? ==> Rank(r.1) < Rank(pc)
  {
    match pc
    case Start => StartStep(e, op, s)
    case MemberPost =>
      var (s', reply) := PostGroupMember(s, op.group, op.user);
      (s', After(reply, if e then MemberFetch else Done(Applied)))
    case MemberFetch => (s, MemberFetchStep(e, op, s))
    case MemberDelete =>
      var (s', reply) := DeleteGroupMember(s, op.group, op.user);
      (s', After(reply, Done(Applied)))
    case RoleRead(user) => (s, RoleReadStep(e, op, user, s))
    case RolePut(user) =>
      var (s', reply) := PutUserRole(s, user.uuid, op.role);
      (s', After(reply, ReEnable(e, user, Applied)))
    case BasicLookup(user) => (s, BasicLookupStep(op, user, s))
    case BasicPut(user, basic) =>
      var (s', reply) := PutUserRole(s, user.uuid, basic);
      (s', After(reply, Done(Applied)))
    case PrincipalRead(p) => (s, PrincipalReadStep(e, op, p, s))
    case PermissionPut(user, p) =>
      var (s', reply) := PutPermission(s, p);
      (s', After(reply, if op.PermissionGrant? then ReEnable(e, user, Applied) else Done(Applied)))
    case Enable(id, answer) =>
      var (s', reply) := PutUserEnabled(s, Itoa(id), true);
      (s', After(reply, Done(answer)))
    case Done(_) => (s, pc)
  }

  /** Running on from a program counter to the end, with nobody else writing. */
  function Resume(e: bool, op: Op, pc: Pc, s: Snapshot): (Snapshot, Outcome)
    requires Fits(op, pc)
    decreases Rank(pc)
  {
    if pc.Done? then (s, pc.outcome)
    else
      var (s', pc') := Step(e, op, pc, s);
      Resume(e, op, pc', s')
  }

  /** One uninterrupted execution. */
  function Complete(e: bool, op: Op, s: Snapshot): (Snapshot, Outcome)
  {
    Resume(e, op, Start, s)
  }

  /** Where an execution stands after at most k requests. */
  function CutOff(e: bool, op: Op, pc: Pc, s: Snapshot, k: nat): (r: (Snapshot, Pc))
    requires Fits(op, pc)
    ensures Fits(op, r.1)
    decreases k
  {
    if k == 0 then (s, pc)
    else
      var (s', pc') := Step(e, op, pc, s);
      CutOff(e, op, pc', s', k - 1)
  }
}
