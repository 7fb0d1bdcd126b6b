/** The HTTP handlers of the test server that write, on the server's objects. */
module Handlers {
  import opened Wrappers
  import opened Directory
  import opened Invariants
  import opened ServerRuns
  import opened Uuids
  import opened Server
  import opened Slices

  /** Answers the two-call guard of the membership handlers: ask whether the group is fixed, then add. */
  method AddMember(state: State, groupID: int, userID: int) returns (status: Status)
    requires state.Valid()
    modifies state.Repr
    ensures state.Valid() && fresh(state.Repr - old(state.Repr))
    ensures (state.Snap(), status) == Handle(old(state.Snap()), AddMemberRequest(groupID, userID))
  {
    hide State.Valid, State.Snap, Directory.AddGroupMember, MembershipFixed;
    var fixed, known := state.GroupMembershipFixed(groupID);
    if known && fixed { return Forbidden; }
    var already, found := state.AddGroupMember(groupID, userID);
    status := FoundOr404(found);
  }

  method RemoveMember(state: State, groupID: int, userID: int) returns (status: Status)
    requires state.Valid()
    modifies state.Repr
    ensures state.Valid() && state.Repr == old(state.Repr)
    ensures (state.Snap(), status) == Handle(old(state.Snap()), RemoveMemberRequest(groupID, userID))
  {
    hide State.Valid, State.Snap, Directory.RemoveGroupMember, MembershipFixed;
    var fixed, known := state.GroupMembershipFixed(groupID);
    if known && fixed { return Forbidden; }
    var already, found := state.RemoveGroupMember(groupID, userID);
    status := FoundOr404(found);
  }

  /** The defaults of a user creation: the username serves as email, and Basic as permissions. */
  method CreateAccount(state: State, username: string, password: string, email: string, name: string, permissions: int)
    returns (status: Status)
    requires state.Valid()
    modifies state.Repr
    ensures fresh(state.Repr - old(state.Repr))
    ensures state.Valid() <==>
      (Creates(CreateUserRequest(username, password, email, name, permissions)) ==> CanCreate(old(state.Snap())))
    ensures (state.Snap(), status) == Handle(old(state.Snap()),
        CreateUserRequest(username, password, email, name, permissions))
  {
    hide State.Valid, State.Snap, Directory.CreateUser, CanCreate;
    if username == "" || password == "" { return BadRequest; }
    var address := email;
    if address == "" { address := username; }
    var perms := permissions;
    if perms == 0 { perms := 16; }
    var user := state.CreateUser(username, address, name, perms);
    status := Success;
  }

  method EditUser(state: State, id: int, name: string, permissions: int, email: string, enabled: Option<bool>)
    returns (status: Status)
    requires state.Valid()
    modifies state.Repr
    ensures state.Valid() && state.Repr == old(state.Repr)
    ensures (state.Snap(), status) == Handle(old(state.Snap()),
        UpdateUserRequest(id, name, permissions, email, enabled))
  {
    hide State.Valid, State.Snap, Directory.UpdateUser;
    var user := state.UpdateUser(id, name, permissions, email, enabled);
    status := FoundOr404(user.Some?);
  }

  method RemoveUser(state: State, id: int) returns (status: Status)
    requires state.Valid()
    modifies state.Repr
    ensures state.Valid() && state.Repr == old(state.Repr)
    ensures (state.Snap(), status) == Handle(old(state.Snap()), DeleteUserRequest(id))
  {
    hide State.Valid, State.Snap, Directory.DeleteUser;
    var found := state.DeleteUser(id);
    status := FoundOr404(found);
  }

  method SetEnabled(state: State, id: int, enabled: bool) returns (status: Status, user: Option<User>)
    requires state.Valid()
    modifies state.Repr
    ensures state.Valid() && state.Repr == old(state.Repr)
    ensures (state.Snap(), status) == Handle(old(state.Snap()), SetEnabledRequest(id, enabled))
    ensures user == SetUserEnabled(old(state.Snap()), id, enabled).1
  {
    hide State.Valid, State.Snap, Directory.SetUserEnabled;
    var copy := state.SetUserEnabled(id, enabled);
    user := match copy case None => None case Some(c) => Some(c.Read());
    status := FoundOr404(user.Some?);
  }

  /** The list of the body is decoded into a slice of the handler's own. */
  method UpdateUserRoles(state: State, userUUID: string, roleUUIDs: seq<string>) returns (status: Status)
    requires state.Valid()
    modifies state.Repr
    ensures state.Valid() && fresh(state.Repr - old(state.Repr))
    ensures (state.Snap(), status) == Handle(old(state.Snap()), SetRolesRequest(userUUID, roleUUIDs))
  {
    hide State.Valid, State.Snap, Directory.SetUserRoles;
    var list := OfList(roleUUIDs);
    var found := state.SetUserRoles(userUUID, list);
    status := FoundOr404(found);
  }

  method ReplacePermission(state: State, uuid: string, name: string, actions: seq<string>, objects: seq<Subject>,
                           subjects: seq<Subject>)
    returns (status: Status)
    requires state.Valid()
    modifies state.Repr
    ensures state.Valid() && fresh(state.Repr - old(state.Repr))
    ensures (state.Snap(), status) == Handle(old(state.Snap()),
        UpdatePermissionRequest(uuid, name, actions, objects, subjects))
  {
    hide State.Valid, State.Snap, Directory.UpdatePermission;
    var a := OfList(actions);
    var o := OfList(objects);
    var s := OfList(subjects);
    var permission := state.UpdatePermission(uuid, name, a, o, s);
    status := FoundOr404(permission.Some?);
  }

  // ----- A run of requests ----------------------------------------------------------------

  method Serve(state: State, request: Request) returns (status: Status)
    requires state.Valid() && (Creates(request) ==> CanCreate(state.Snap()))
    modifies state.Repr
    ensures state.Valid() && fresh(state.Repr - old(state.Repr))
    ensures (state.Snap(), status) == Handle(old(state.Snap()), request)
  {
    hide State.Valid, State.Snap, CanCreate, Handle;
    match request
    case CreateUserRequest(username, password, email, name, permissions) =>
      status := CreateAccount(state, username, password, email, name, permissions);
    case UpdateUserRequest(id, name, permissions, email, enabled) =>
      status := EditUser(state, id, name, permissions, email, enabled);
    case DeleteUserRequest(id) => status := RemoveUser(state, id);
    case SetEnabledRequest(id, enabled) =>
      var user;
      status, user := SetEnabled(state, id, enabled);
    case AddMemberRequest(groupID, userID) => status := AddMember(state, groupID, userID);
    case RemoveMemberRequest(groupID, userID) => status := RemoveMember(state, groupID, userID);
    case SetRolesRequest(userUUID, roleUUIDs) => status := UpdateUserRoles(state, userUUID, roleUUIDs);
    case UpdatePermissionRequest(uuid, name, actions, objects, subjects) =>
      status := ReplacePermission(state, uuid, name, actions, objects, subjects);
  }

  lemma CreateIsSafe(s: Snapshot)
    requires Inv(s) && s.nextUserID + 1 < CAPACITY
    ensures CanCreate(s)
  {
    hide CatalogOk, MembersAgree, RolesAgree, AllUsersComplete, Invariants.PermissionsIndexed, FormatUuid,
      IndexesAgree, IdsIssued;
    NextUuidIsFresh(s.users, s.nextUserID, GroupUuids(s.catalog));
    IdsAreIssued(s.users, s.byID, s.order, s.nextUserID, GroupUuids(s.catalog));
  }

  /** If a run ends below the bound, its first request finds room. */
  lemma StaysInCapacity(s: Snapshot, request: Request, rest: seq<Request>)
    requires Inv(s) && Run(Handle(s, request).0, rest).nextUserID < CAPACITY
    ensures Handle(s, request).0.nextUserID < CAPACITY && (Creates(request) ==> CanCreate(s))
  {
    hide Handle, Inv, CanCreate, CAPACITY;
    HandleFrame(s, request);
    RunFrame(Handle(s, request).0, rest);
    if Creates(request) {
      CreateIsSafe(s);
    }
  }

  /** The objects of the server go through any run of requests as the snapshot does: every index,
      copy and count agrees after each of them, as long as the counter ends below 16^12. */
  method ServeAll(state: State, requests: seq<Request>)
    requires state.Valid() && Inv(state.Snap()) && Run(state.Snap(), requests).nextUserID < CAPACITY
    modifies state.Repr
    ensures state.Valid() && fresh(state.Repr - old(state.Repr))
    ensures state.Snap() == Run(old(state.Snap()), requests) && Inv(state.Snap())
  {
    hide State.Valid, State.Snap, CanCreate, Handle, Inv, CAPACITY;
    ghost var end := Run(state.Snap(), requests);
    assert requests[0..] == requests;
    for i := 0 to |requests|
      invariant state.Valid() && fresh(state.Repr - old(state.Repr)) && Inv(state.Snap())
      invariant Run(state.Snap(), requests[i..]) == end
    {
      assert requests[i..][1..] == requests[i + 1..];
      StaysInCapacity(state.Snap(), requests[i], requests[i + 1..]);
      HandleKeepsInv(state.Snap(), requests[i]);
      var status := Serve(state, requests[i]);
    }
  }
}
