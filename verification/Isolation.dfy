/** Snapshot isolation: nothing the server does later alters what a read has handed out, and nothing a
    caller does with its own lists alters the server. */
module Isolation {
  import opened Wrappers
  import opened Uuids
  import opened Directory
  import opened Invariants
  import opened ServerRuns
  import opened Slices
  import opened Stored
  import opened Server
  import Handlers

  // ----- Later requests do not reach a copy -----------------------------------------------

  /** The user list, as it was read, after any run of requests. */
  method ListUsersThenServe(state: State, requests: seq<Request>) returns (users: seq<UserCopy>)
    requires state.Valid() && Inv(state.Snap()) && Run(state.Snap(), requests).nextUserID < CAPACITY
    modifies state.Repr
    ensures state.Valid() && state.Snap() == Run(old(state.Snap()), requests)
    ensures AllWhole(users) && ReadUsers(users) == ListUsers(old(state.Snap()))
  {
    hide State.Valid, State.Snap, Inv, CAPACITY, ReadUsers, ListUsers;
    users := state.ListUsers();
    Handlers.ServeAll(state, requests);
  }

  method GetUserThenServe(state: State, id: int, requests: seq<Request>) returns (user: Option<UserCopy>)
    requires state.Valid() && Inv(state.Snap()) && Run(state.Snap(), requests).nextUserID < CAPACITY
    modifies state.Repr
    ensures state.Valid() && state.Snap() == Run(old(state.Snap()), requests)
    ensures user.Some? <==> UserByID(old(state.Snap()), id).Some?
    ensures user.Some? ==> user.value.Whole() && Some(user.value.Read()) == UserByID(old(state.Snap()), id)
  {
    hide State.Valid, State.Snap, Inv, CAPACITY, UserByID;
    user := state.GetUserByID(id);
    Handlers.ServeAll(state, requests);
  }

  method ListMembersThenServe(state: State, groupID: int, requests: seq<Request>)
    returns (members: Option<seq<UserCopy>>)
    requires state.Valid() && Inv(state.Snap()) && Run(state.Snap(), requests).nextUserID < CAPACITY
    modifies state.Repr
    ensures state.Valid() && state.Snap() == Run(old(state.Snap()), requests)
    ensures members.Some? <==> ListGroupMembers(old(state.Snap()), groupID).Some?
    ensures members.Some? ==>
      AllWhole(members.value) && Some(ReadUsers(members.value)) == ListGroupMembers(old(state.Snap()), groupID)
  {
    hide State.Valid, State.Snap, Inv, CAPACITY, ReadUsers, ListGroupMembers;
    members := state.ListGroupMembers(groupID);
    Handlers.ServeAll(state, requests);
  }

  method GetRolesThenServe(state: State, userUUID: string, requests: seq<Request>)
    returns (roles: Option<Slice<string>>)
    requires state.Valid() && Inv(state.Snap()) && Run(state.Snap(), requests).nextUserID < CAPACITY
    modifies state.Repr
    ensures state.Valid() && state.Snap() == Run(old(state.Snap()), requests)
    ensures roles.Some? <==> GetUserRoles(old(state.Snap()), userUUID).Some?
    ensures roles.Some? ==> Fits(roles.value) && Some(View(roles.value)) == GetUserRoles(old(state.Snap()), userUUID)
  {
    hide State.Valid, State.Snap, Inv, CAPACITY, GetUserRoles;
    roles := state.GetUserRoles(userUUID);
    Handlers.ServeAll(state, requests);
  }

  method ListPermissionsThenServe(state: State, requests: seq<Request>) returns (permissions: seq<PermissionCopy>)
    requires state.Valid() && Inv(state.Snap()) && Run(state.Snap(), requests).nextUserID < CAPACITY
    modifies state.Repr
    ensures state.Valid() && state.Snap() == Run(old(state.Snap()), requests)
    ensures AllPermissionsWhole(permissions) && ReadPermissions(permissions) == ListPermissions(old(state.Snap()))
  {
    hide State.Valid, State.Snap, Inv, CAPACITY, ReadPermissions, ListPermissions;
    permissions := state.ListPermissions();
    Handlers.ServeAll(state, requests);
  }

  method GetPermissionThenServe(state: State, uuid: string, requests: seq<Request>)
    returns (permission: Option<PermissionCopy>)
    requires state.Valid() && Inv(state.Snap()) && Run(state.Snap(), requests).nextUserID < CAPACITY
    modifies state.Repr
    ensures state.Valid() && state.Snap() == Run(old(state.Snap()), requests)
    ensures permission.Some? <==> uuid in old(state.Snap()).permissions
    ensures permission.Some? ==>
      permission.value.Whole() && permission.value.Read() == old(state.Snap()).permissions[uuid]
  {
    hide State.Valid, State.Snap, Inv, CAPACITY;
    permission := state.GetPermission(uuid);
    Handlers.ServeAll(state, requests);
  }

  // ----- A reader without a clone ---------------------------------------------------------

  lemma NoUserUuidIsEmpty(s: Snapshot, uuid: string)
    requires Inv(s) && uuid in s.users
    ensures uuid != ""
  {
    hide CatalogOk, IndexesAgree, MembersAgree, RolesAgree, AllUsersComplete, Invariants.PermissionsIndexed, FormatUuid;
    assert Issued(uuid, s.users[uuid].id, s.nextUserID);
  }

  /** The stored member row itself, kept while the user is taken off the group: it shows something
      else afterwards exactly when the user was a member. */
  method KeepRowThenRemove(state: State, groupID: int, userID: int) returns (row: Slice<string>)
    requires state.Valid() && Inv(state.Snap())
    requires groupID in state.groupsByID && userID in state.usersByID
    requires state.groupsByID[groupID].group.uuid in state.groupMembers
    modifies state.Repr
    ensures row == old(state.groupMembers[state.groupsByID[groupID].group.uuid])
    ensures Fits(row) && (View(row) != old(View(row)) <==> old(state.usersByID[userID].uuid in View(row)))
  {
    hide State.Sound, State.Snap, Inv, Compacted;
    state.LookupByID(userID);
    state.LookupByUuid(state.usersByID[userID].uuid);
    var g, uuid := state.groupsByID[groupID].group.uuid, state.usersByID[userID].uuid;
    NoUserUuidIsEmpty(state.Snap(), uuid);
    state.MemberRowHolds(g);
    CompactionShows(state.memberRows[g], uuid);
    row := state.groupMembers[g];
    state.LookupGroup(groupID);
    var already, found := state.RemoveGroupMember(groupID, userID);
  }

  // ----- A caller's own list --------------------------------------------------------------

  /** A caller that goes on writing to the list it passed does not reach the stored roles. */
  method SetRolesThenReuse(state: State, userUUID: string, list: Slice<string>, x: string) returns (ok: bool)
    requires state.Valid() && Fits(list) && list.backing !in state.Repr
    modifies state.Repr, list.backing
    ensures state.Valid()
    ensures (state.Snap(), ok) == SetUserRoles(old(state.Snap()), userUUID, old(View(list)))
  {
    hide State.Sound, State.Snap, SetUserRoles;
    ok := state.SetUserRoles(userUUID, list);
    var rest := DeleteAll(list, x);
  }

  method SetPermissionThenReuse(state: State, uuid: string, name: string, actions: Slice<string>,
      objects: Slice<Subject>, subjects: Slice<Subject>, x: Subject)
    returns (permission: Option<PermissionCopy>)
    requires state.Valid() && Fits(actions) && Fits(objects) && Fits(subjects)
    requires subjects.backing !in state.Repr
    modifies state.Repr, subjects.backing
    ensures state.Valid()
    ensures (state.Snap(), permission.Some?) == UpdatePermission(old(state.Snap()), uuid, name, old(View(actions)),
        old(View(objects)), old(View(subjects)))
  {
    hide State.Sound, State.Snap, UpdatePermission;
    permission := state.UpdatePermission(uuid, name, actions, objects, subjects);
    var more := Append(subjects, x);
  }
}
