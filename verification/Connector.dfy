/** The connector's provisioning operations as they are written, against the server's objects. Each
    is shown to do what the protocol of the same operation does when nobody else writes. */
module Connector {
  import opened Wrappers
  import opened Text
  import opened Uuids
  import opened Directory
  import opened Wire
  import opened Protocol
  import opened Server
  import Client
  import Handlers

  // ----- One request of the protocol ------------------------------------------------------

  lemma GroupOnward(e: bool, op: Op, s: Snapshot)
    requires op.GroupGrant? || op.GroupRevoke?
    ensures Complete(e, op, s) == Resume(e, op, GroupStart(e, op, s), s)
  {
    hide GroupStart;
  }

  lemma PostOnward(e: bool, op: Op, s: Snapshot)
    requires op.GroupGrant?
    ensures var (s', reply) := PostGroupMember(s, op.group, op.user);
      Resume(e, op, MemberPost, s) == Resume(e, op, After(reply, if e then MemberFetch else Done(Applied)), s')
  {
    hide PostGroupMember;
  }

  lemma FetchOnward(e: bool, op: Op, s: Snapshot)
    requires op.GroupGrant?
    ensures Resume(e, op, MemberFetch, s) == Resume(e, op, MemberFetchStep(e, op, s), s)
  {
    hide MemberFetchStep;
  }

  lemma DeleteOnward(e: bool, op: Op, s: Snapshot)
    requires op.GroupRevoke?
    ensures var (s', reply) := DeleteGroupMember(s, op.group, op.user);
      Resume(e, op, MemberDelete, s) == Resume(e, op, After(reply, Done(Applied)), s')
  {
    hide DeleteGroupMember;
  }

  lemma EnableOnward(e: bool, op: Op, id: int, answer: Outcome, s: Snapshot)
    requires op.GroupGrant? || op.RoleGrant? || op.PermissionGrant?
    ensures var (s', reply) := PutUserEnabled(s, Itoa(id), true);
      Resume(e, op, Enable(id, answer), s) == (s', match reply case Err(f) => Failed(f) case Ok(_) => answer)
  {
    hide PutUserEnabled, Itoa;
    var (s', reply) := PutUserEnabled(s, Itoa(id), true);
    assert Step(e, op, Enable(id, answer), s) == (s', After(reply, Done(answer)));
  }

  lemma DoneHere(e: bool, op: Op, outcome: Outcome, s: Snapshot)
    ensures Fits(op, Done(outcome)) && Resume(e, op, Done(outcome), s) == (s, outcome)
  {}

  lemma RoleOnward(e: bool, op: Op, s: Snapshot)
    requires op.RoleGrant? || op.RoleRevoke?
    ensures Complete(e, op, s) == Resume(e, op, RoleStart(op, s), s)
    ensures forall cu :: Resume(e, op, RoleRead(cu), s) == Resume(e, op, RoleReadStep(e, op, cu, s), s)
  {
    hide RoleStart, RoleReadStep;
  }

  lemma RolePutOnward(e: bool, op: Op, cu: ClientUser, s: Snapshot)
    requires op.RoleGrant?
    ensures var (s', reply) := PutUserRole(s, cu.uuid, op.role);
      Resume(e, op, RolePut(cu), s) == Resume(e, op, After(reply, ReEnable(e, cu, Applied)), s')
  {
    hide PutUserRole;
  }

  lemma BasicOnward(e: bool, op: Op, cu: ClientUser, s: Snapshot)
    requires op.RoleRevoke?
    ensures Resume(e, op, BasicLookup(cu), s) == Resume(e, op, BasicLookupStep(op, cu, s), s)
  {
    hide BasicLookupStep;
  }

  lemma BasicPutOnward(e: bool, op: Op, cu: ClientUser, basic: string, s: Snapshot)
    requires op.RoleRevoke?
    ensures var (s', reply) := PutUserRole(s, cu.uuid, basic);
      Resume(e, op, BasicPut(cu, basic), s) == Resume(e, op, After(reply, Done(Applied)), s')
  {
    hide PutUserRole;
  }

  lemma PermissionOnward(e: bool, op: Op, s: Snapshot)
    requires op.PermissionGrant? || op.PermissionRevoke?
    ensures Complete(e, op, s) == Resume(e, op, PermissionStart(op, s), s)
    ensures forall p :: Resume(e, op, PrincipalRead(p), s) == Resume(e, op, PrincipalReadStep(e, op, p, s), s)
  {
    hide PermissionStart, PrincipalReadStep;
  }

  lemma PermissionPutOnward(e: bool, op: Op, cu: ClientUser, p: ClientPermission, s: Snapshot)
    requires op.PermissionGrant? || op.PermissionRevoke?
    ensures var (s', reply) := PutPermission(s, p);
      Resume(e, op, PermissionPut(cu, p), s) ==
      Resume(e, op, After(reply, if op.PermissionGrant? then ReEnable(e, cu, Applied) else Done(Applied)), s')
  {
    hide PutPermission;
  }

  // ----- Helpers --------------------------------------------------------------------------

  lemma FindMemberFrom(members: seq<ClientUser>, i: nat, userId: string)
    requires i < |members|
    ensures FindMember(members[i..], userId) ==
      if Itoa(members[i].id) == userId then Some(members[i]) else FindMember(members[i + 1..], userId)
  {
    assert members[i..][1..] == members[i + 1..];
  }

  /** Any subject of this UUID, in the order the source looks for it. */
  method ContainsSubject(subjects: seq<TenableObject>, userUUID: string) returns (found: bool)
    ensures found == HasSubject(subjects, userUUID)
  {
    found := false;
    for i := 0 to |subjects|
      invariant found == exists j :: 0 <= j < i && Render(subjects[j].uuid) == userUUID
    {
      if Render(subjects[i].uuid) == userUUID { found := true; }
    }
  }

  /** A field of an account profile: a text, or a value of another kind. */
  datatype ProfileValue = TextValue(text: string) | OtherValue

  /** The text under this key, if there is one. */
  function TextIn(profile: map<string, ProfileValue>, field: string): Option<string>
  {
    if field in profile && profile[field].TextValue? then Some(profile[field].text) else None
  }

  /** The connector, with its one setting and the server it talks to. */
  class Connector {
    const enableOnProvision: bool
    const server: State

    constructor (enableOnProvision: bool, server: State)
      ensures this.enableOnProvision == enableOnProvision && this.server == server
    {
      this.enableOnProvision, this.server := enableOnProvision, server;
    }

    /** reEnableUserIfNeeded, and what the operation answers after it. */
    method ReEnableUserIfNeeded(ghost op: Op, user: ClientUser, answer: Outcome) returns (outcome: Outcome)
      requires server.Valid() && (op.GroupGrant? || op.RoleGrant? || op.PermissionGrant?)
      modifies server.Repr
      ensures server.Valid() && server.Repr == old(server.Repr)
      ensures Fits(op, ReEnable(enableOnProvision, user, answer))
      ensures (server.Snap(), outcome) ==
              Resume(enableOnProvision, op, ReEnable(enableOnProvision, user, answer), old(server.Snap()))
    {
      hide State.Valid, State.Snap, Resume, PutUserEnabled, Itoa;
      if !user.enabled && enableOnProvision {
        EnableOnward(enableOnProvision, op, user.id, answer, server.Snap());
        var reply := Client.SetUserEnabled(server, Itoa(user.id), true);
        outcome := match reply case Err(f) => Failed(f) case Ok(_) => answer;
      } else {
        DoneHere(enableOnProvision, op, answer, server.Snap());
        outcome := answer;
      }
    }

    // ----- Groups -------------------------------------------------------------------------

    method GrantMembership(userId: string, groupId: string) returns (outcome: Outcome)
      requires server.Valid()
      modifies server.Repr
      ensures server.Valid() && fresh(server.Repr - old(server.Repr))
      ensures (server.Snap(), outcome) == Complete(enableOnProvision, GroupGrant(userId, groupId), old(server.Snap()))
    {
      hide State.Valid, State.Snap, Complete, Resume, Wire.GetGroupMembers, PostGroupMember, Itoa, FindMember,
        Wire.GetUserDetails, ReEnable;
      ghost var op := GroupGrant(userId, groupId);
      GroupOnward(enableOnProvision, op, server.Snap());
      var listed := Client.GetGroupMembers(server, groupId);
      if listed.Err? {
        DoneHere(enableOnProvision, op, Failed(listed.error), server.Snap());
        return Failed(listed.error);
      }
      var members := listed.value;
      assert members[0..] == members;
      for i := 0 to |members|
        invariant server.Valid() && server.Repr == old(server.Repr) && server.Snap() == old(server.Snap())
        invariant FindMember(members, userId) == FindMember(members[i..], userId)
      {
        FindMemberFrom(members, i, userId);
        if Itoa(members[i].id) == userId {
          outcome := ReEnableUserIfNeeded(op, members[i], AlreadyExists);
          return;
        }
      }
      NobodyLeft(members, userId);
      PostOnward(enableOnProvision, op, server.Snap());
      var posted := Client.CreateUserGroupMembership(server, groupId, userId);
      if posted.Err? {
        DoneHere(enableOnProvision, op, Failed(posted.error), server.Snap());
        return Failed(posted.error);
      }
      if enableOnProvision {
        FetchOnward(enableOnProvision, op, server.Snap());
        var user := Client.GetUserDetails(server, userId);
        if user.Err? {
          DoneHere(enableOnProvision, op, Failed(user.error), server.Snap());
          return Failed(user.error);
        }
        outcome := ReEnableUserIfNeeded(op, user.value, Applied);
        return;
      }
      DoneHere(enableOnProvision, op, Applied, server.Snap());
      outcome := Applied;
    }

    method RevokeMembership(userId: string, groupId: string) returns (outcome: Outcome)
      requires server.Valid()
      modifies server.Repr
      ensures server.Valid() && server.Repr == old(server.Repr)
      ensures (server.Snap(), outcome) == Complete(enableOnProvision, GroupRevoke(userId, groupId), old(server.Snap()))
    {
      hide State.Valid, State.Snap, Complete, Resume, Wire.GetGroupMembers, DeleteGroupMember, Itoa, FindMember;
      ghost var op := GroupRevoke(userId, groupId);
      GroupOnward(enableOnProvision, op, server.Snap());
      var listed := Client.GetGroupMembers(server, groupId);
      if listed.Err? {
        DoneHere(enableOnProvision, op, Failed(listed.error), server.Snap());
        return Failed(listed.error);
      }
      var members := listed.value;
      assert members[0..] == members;
      var isMember := false;
      for i := 0 to |members|
        invariant server.Valid() && server.Repr == old(server.Repr) && server.Snap() == old(server.Snap())
        invariant isMember || FindMember(members, userId) == FindMember(members[i..], userId)
        invariant isMember ==> FindMember(members, userId).Some?
      {
        FindMemberFrom(members, i, userId);
        if Itoa(members[i].id) == userId { isMember := true; }
      }
      NobodyLeft(members, userId);
      if !isMember {
        DoneHere(enableOnProvision, op, AlreadyRevoked, server.Snap());
        return AlreadyRevoked;
      }
      DeleteOnward(enableOnProvision, op, server.Snap());
      var deleted := Client.DeleteUserGroupMembership(server, groupId, userId);
      outcome := match deleted case Err(f) => Failed(f) case Ok(_) => Applied;
      DoneHere(enableOnProvision, op, outcome, server.Snap());
    }

    // ----- Roles --------------------------------------------------------------------------

    method GrantRole(userId: string, roleId: string) returns (outcome: Outcome)
      requires server.Valid()
      modifies server.Repr
      ensures server.Valid() && fresh(server.Repr - old(server.Repr))
      ensures (server.Snap(), outcome) == Complete(enableOnProvision, RoleGrant(userId, roleId), old(server.Snap()))
    {
      hide State.Valid, State.Snap, Complete, Resume, Wire.GetUserDetails, GetUserRoleUuids, PutUserRole, ReEnable;
      ghost var op := RoleGrant(userId, roleId);
      RoleOnward(enableOnProvision, op, server.Snap());
      var user := Client.GetUserDetails(server, userId);
      if user.Err? {
        DoneHere(enableOnProvision, op, Failed(user.error), server.Snap());
        return Failed(user.error);
      }
      var roles := Client.GetUserRoles(server, user.value.uuid);
      if roles.Err? {
        DoneHere(enableOnProvision, op, Failed(roles.error), server.Snap());
        return Failed(roles.error);
      }
      if roleId in roles.value {
        outcome := ReEnableUserIfNeeded(op, user.value, AlreadyExists);
        return;
      }
      RolePutOnward(enableOnProvision, op, user.value, server.Snap());
      var updated := Client.UpdateUserRoles(server, user.value.uuid, roleId);
      if updated.Err? {
        DoneHere(enableOnProvision, op, Failed(updated.error), server.Snap());
        return Failed(updated.error);
      }
      outcome := ReEnableUserIfNeeded(op, user.value, Applied);
    }

    /** basicRoleUUID. */
    method BasicRoleUuid() returns (r: Response<string>)
      requires server.Valid()
      ensures r == match Wire.GetRoles(server.Snap())
                   case Err(f) => Err(f)
                   case Ok(roles) => match FirstBasic(roles) case None => Err(NoBasicRole) case Some(uuid) => Ok(uuid)
    {
      hide State.Valid, State.Snap, Wire.GetRoles, Render;
      var listed := Client.GetRoles(server);
      if listed.Err? { return Err(listed.error); }
      var roles := listed.value;
      assert roles[0..] == roles;
      for i := 0 to |roles|
        invariant FirstBasic(roles) == FirstBasic(roles[i..])
      {
        assert roles[i..][1..] == roles[i + 1..];
        if roles[i].typ == "STANDARD" && roles[i].name == "Basic" { return Ok(Render(roles[i].uuid)); }
      }
      r := Err(NoBasicRole);
    }

    method RevokeRole(userId: string, roleId: string) returns (outcome: Outcome)
      requires server.Valid()
      modifies server.Repr
      ensures server.Valid() && fresh(server.Repr - old(server.Repr))
      ensures (server.Snap(), outcome) == Complete(enableOnProvision, RoleRevoke(userId, roleId), old(server.Snap()))
    {
      hide State.Valid, State.Snap, Complete, Resume, Wire.GetUserDetails, GetUserRoleUuids, Wire.GetRoles,
        FirstBasic, PutUserRole;
      ghost var op := RoleRevoke(userId, roleId);
      RoleOnward(enableOnProvision, op, server.Snap());
      var user := Client.GetUserDetails(server, userId);
      if user.Err? {
        DoneHere(enableOnProvision, op, Failed(user.error), server.Snap());
        return Failed(user.error);
      }
      var roles := Client.GetUserRoles(server, user.value.uuid);
      if roles.Err? {
        DoneHere(enableOnProvision, op, Failed(roles.error), server.Snap());
        return Failed(roles.error);
      }
      if roleId !in roles.value {
        DoneHere(enableOnProvision, op, AlreadyRevoked, server.Snap());
        return AlreadyRevoked;
      }
      BasicOnward(enableOnProvision, op, user.value, server.Snap());
      var basic := BasicRoleUuid();
      if basic.Err? {
        DoneHere(enableOnProvision, op, Failed(basic.error), server.Snap());
        return Failed(basic.error);
      }
      if roleId == basic.value {
        DoneHere(enableOnProvision, op, Failed(BasicRoleIsFloor), server.Snap());
        return Failed(BasicRoleIsFloor);
      }
      BasicPutOnward(enableOnProvision, op, user.value, basic.value, server.Snap());
      var updated := Client.UpdateUserRoles(server, user.value.uuid, basic.value);
      outcome := match updated case Err(f) => Failed(f) case Ok(_) => Applied;
      DoneHere(enableOnProvision, op, outcome, server.Snap());
    }

    // ----- Permissions --------------------------------------------------------------------

    method GrantPermission(principalType: string, userId: string, permissionUUID: string) returns (outcome: Outcome)
      requires server.Valid()
      modifies server.Repr
      ensures server.Valid() && fresh(server.Repr - old(server.Repr))
      ensures (server.Snap(), outcome) ==
              Complete(enableOnProvision, PermissionGrant(principalType, userId, permissionUUID), old(server.Snap()))
    {
      hide State.Valid, State.Snap, Complete, Resume, Wire.GetUserDetails, Wire.GetPermissionDetails, PutPermission,
        HasSubject, ReEnable, Parse;
      ghost var op := PermissionGrant(principalType, userId, permissionUUID);
      PermissionOnward(enableOnProvision, op, server.Snap());
      if principalType != USER_TYPE {
        DoneHere(enableOnProvision, op, Failed(WrongPrincipalType), server.Snap());
        return Failed(WrongPrincipalType);
      }
      var permission := Client.GetPermissionDetails(server, permissionUUID);
      if permission.Err? {
        DoneHere(enableOnProvision, op, Failed(permission.error), server.Snap());
        return Failed(permission.error);
      }
      var user := Client.GetUserDetails(server, userId);
      if user.Err? {
        DoneHere(enableOnProvision, op, Failed(user.error), server.Snap());
        return Failed(user.error);
      }
      var present := ContainsSubject(permission.value.subjects, user.value.uuid);
      if present {
        outcome := ReEnableUserIfNeeded(op, user.value, AlreadyExists);
        return;
      }
      var uuid := Parse(user.value.uuid);
      if uuid.None? {
        DoneHere(enableOnProvision, op, Failed(UnparsableUserUuid), server.Snap());
        return Failed(UnparsableUserUuid);
      }
      var body := permission.value.(
        subjects := permission.value.subjects + [TenableObject(USER_SUBJECT, uuid.value, user.value.name)]);
      PermissionPutOnward(enableOnProvision, op, user.value, body, server.Snap());
      var updated := Client.UpdatePermission(server, body);
      if updated.Err? {
        DoneHere(enableOnProvision, op, Failed(updated.error), server.Snap());
        return Failed(updated.error);
      }
      outcome := ReEnableUserIfNeeded(op, user.value, Applied);
    }

    method RevokePermission(principalType: string, userId: string, permissionUUID: string) returns (outcome: Outcome)
      requires server.Valid()
      modifies server.Repr
      ensures server.Valid() && fresh(server.Repr - old(server.Repr))
      ensures (server.Snap(), outcome) ==
              Complete(enableOnProvision, PermissionRevoke(principalType, userId, permissionUUID), old(server.Snap()))
    {
      hide State.Valid, State.Snap, Complete, Resume, Wire.GetUserDetails, Wire.GetPermissionDetails, PutPermission,
        HasSubject, DropSubject, Parse;
      ghost var op := PermissionRevoke(principalType, userId, permissionUUID);
      PermissionOnward(enableOnProvision, op, server.Snap());
      if principalType != USER_TYPE {
        DoneHere(enableOnProvision, op, Failed(WrongPrincipalType), server.Snap());
        return Failed(WrongPrincipalType);
      }
      var permission := Client.GetPermissionDetails(server, permissionUUID);
      if permission.Err? {
        DoneHere(enableOnProvision, op, Failed(permission.error), server.Snap());
        return Failed(permission.error);
      }
      var user := Client.GetUserDetails(server, userId);
      if user.Err? {
        DoneHere(enableOnProvision, op, Failed(user.error), server.Snap());
        return Failed(user.error);
      }
      var isGranted := ContainsSubject(permission.value.subjects, user.value.uuid);
      if !isGranted {
        DoneHere(enableOnProvision, op, AlreadyRevoked, server.Snap());
        return AlreadyRevoked;
      }
      var uuid := Parse(user.value.uuid);
      if uuid.None? {
        DoneHere(enableOnProvision, op, Failed(UnparsableUserUuid), server.Snap());
        return Failed(UnparsableUserUuid);
      }
      var body := permission.value.(subjects := DropSubject(permission.value.subjects, uuid.value));
      PermissionPutOnward(enableOnProvision, op, user.value, body, server.Snap());
      var updated := Client.UpdatePermission(server, body);
      outcome := match updated case Err(f) => Failed(f) case Ok(_) => Applied;
      DoneHere(enableOnProvision, op, outcome, server.Snap());
    }

    // ----- Accounts -----------------------------------------------------------------------

    /** Delete only disables; the enable and disable actions send the same request. */
    method SetAccount(userId: string, enabled: bool) returns (outcome: Outcome)
      requires server.Valid()
      modifies server.Repr
      ensures server.Valid() && server.Repr == old(server.Repr)
      ensures (server.Snap(), outcome) == Complete(enableOnProvision, SetAccountEnabled(userId, enabled),
          old(server.Snap()))
    {
      hide State.Valid, State.Snap, PutUserEnabled;
      ghost var op := SetAccountEnabled(userId, enabled);
      ghost var s := server.Snap();
      var reply := Client.SetUserEnabled(server, userId, enabled);
      outcome :=
        match reply
        case Err(f) => Failed(f)
        case Ok(user) => if user.enabled == enabled then Applied else Failed(StatusUnchanged);
      assert Step(enableOnProvision, op, Start, s) == (server.Snap(), Done(outcome));
    }

    /** CreateAccount. The profile is whatever came with the request; password is what generating one
        yielded, if anything. A profile without a text for the email or the name, and a password that could
        not be generated, end it before anything is sent. */
    method OpenAccount(profile: map<string, ProfileValue>, password: Option<string>) returns (outcome: Outcome)
      requires server.Valid()
      modifies server.Repr
      ensures fresh(server.Repr - old(server.Repr)) && (CanCreate(old(server.Snap())) ==> server.Valid())
      ensures match (TextIn(profile, "email"), TextIn(profile, "name"), password)
        case (None, _, _) => server.Snap() == old(server.Snap()) && outcome == Failed(BadProfile("email"))
        case (_, None, _) => server.Snap() == old(server.Snap()) && outcome == Failed(BadProfile("name"))
        case (_, _, None) => server.Snap() == old(server.Snap()) && outcome == Failed(NoPassword)
        case (Some(email), Some(name), Some(secret)) =>
          (server.Snap(), outcome)
          == Complete(enableOnProvision, CreateAccount(email, name, secret), old(server.Snap()))
    {
      hide State.Valid, State.Snap, Handle, CanCreate;
      if !("email" in profile && profile["email"].TextValue?) { return Failed(BadProfile("email")); }
      if !("name" in profile && profile["name"].TextValue?) { return Failed(BadProfile("name")); }
      if password.None? { return Failed(NoPassword); }
      var email, name := profile["email"].text, profile["name"].text;
      ghost var op := CreateAccount(email, name, password.value);
      ghost var s := server.Snap();
      var status := Handlers.CreateAccount(server, email, password.value, email, name, BASIC_USER_ROLE);
      outcome := if status == Success then Applied else Failed(Refused(status));
      assert Step(enableOnProvision, op, Start, s) == (server.Snap(), Done(outcome));
    }
  }

  lemma NobodyLeft(members: seq<ClientUser>, userId: string)
    ensures FindMember(members[|members|..], userId) == None
  {}
}
