/** The connector's client: each call is one request to the server's handlers, and the decoding of
    the answer. */
module Client {
  import opened Wrappers
  import opened Text
  import opened Uuids
  import opened Directory
  import opened Wire
  import opened Server
  import opened Slices
  import opened Stored
  import opened Tags
  import Handlers

  // ----- Decoding lists -------------------------------------------------------------------

  /** Decodes a JSON list element by element; one element that does not decode fails the whole. */
  method DecodeList<A, B>(xs: seq<A>, decode: A -> Option<B>) returns (r: Option<seq<B>>)
    ensures r == DecodeAll(xs, decode)
  {
    var ys: seq<B> := [];
    for i := 0 to |xs|
      invariant |ys| == i && forall j :: 0 <= j < i ==> decode(xs[j]) == Some(ys[j])
    {
      match decode(xs[i]) {
        case None => return None;
        case Some(y) => ys := ys + [y];
      }
    }
    r := Some(ys);
    if DecodeAll(xs, decode).Some? { assert DecodeAll(xs, decode).value == ys; }
  }

  // ----- Reads ----------------------------------------------------------------------------

  method GetUserDetails(server: State, userId: string) returns (r: Response<ClientUser>)
    requires server.Valid()
    ensures r == Wire.GetUserDetails(server.Snap(), userId)
  {
    hide State.Valid, State.Snap, DecodeUser, Atoi;
    match Atoi(userId) {
      case None => r := Err(Refused(BadRequest));
      case Some(id) =>
        var user := server.GetUserByID(id);
        r := match user case None => Err(Refused(NotFound)) case Some(u) => Decoded(DecodeUser(u.Read()));
    }
  }

  method GetUsers(server: State) returns (r: Response<seq<ClientUser>>)
    requires server.Valid()
    ensures r == Wire.GetUsers(server.Snap())
  {
    hide State.Valid, State.Snap, DecodeUser;
    var users := server.ListUsers();
    var decoded := DecodeList(ReadUsers(users), DecodeUserRecord);
    r := Decoded(decoded);
  }

  method GetGroupMembers(server: State, groupId: string) returns (r: Response<seq<ClientUser>>)
    requires server.Valid()
    ensures r == Wire.GetGroupMembers(server.Snap(), groupId)
  {
    hide State.Valid, State.Snap, DecodeUser, Atoi;
    match Atoi(groupId) {
      case None => r := Err(Refused(BadRequest));
      case Some(id) =>
        var members := server.ListGroupMembers(id);
        if members.None? { return Err(Refused(NotFound)); }
        var decoded := DecodeList(ReadUsers(members.value), DecodeUserRecord);
        r := Decoded(decoded);
    }
  }

  method GetUserRoles(server: State, userUUID: string) returns (r: Response<seq<string>>)
    requires server.Valid()
    ensures r == GetUserRoleUuids(server.Snap(), userUUID)
  {
    hide State.Valid, State.Snap;
    var row := server.GetUserRoles(userUUID);
    r := match row case None => Err(Refused(NotFound)) case Some(roles) => Ok(View(roles));
  }

  method GetRoles(server: State) returns (r: Response<seq<RoleDetails>>)
    requires server.Valid()
    ensures r == Wire.GetRoles(server.Snap())
  {
    hide State.Valid, State.Snap;
    var roles := server.ListRoles();
    var decoded := DecodeList(roles, DecodeRole);
    r := Decoded(decoded);
  }

  method ListPermissions(server: State) returns (r: Response<seq<ClientPermission>>)
    requires server.Valid()
    ensures r == GetPermissions(server.Snap())
  {
    hide State.Valid, State.Snap, DecodePermission;
    var permissions := server.ListPermissions();
    var decoded := DecodeList(ReadPermissions(permissions), DecodePermissionRecord);
    r := Decoded(decoded);
  }

  method GetPermissionDetails(server: State, uuid: string) returns (r: Response<ClientPermission>)
    requires server.Valid()
    ensures r == Wire.GetPermissionDetails(server.Snap(), uuid)
  {
    hide State.Valid, State.Snap, DecodePermission;
    var permission := server.GetPermission(uuid);
    r := match permission case None => Err(Refused(NotFound)) case Some(p) => Decoded(DecodePermission(p.Read()));
  }

  method GetGroups(server: State) returns (groups: seq<ClientGroup>)
    requires server.Valid()
    ensures groups == Wire.GetGroups(server.Snap())
  {
    hide State.Valid, State.Snap;
    var rows := server.ListGroups();
    groups := seq(|rows|, i requires 0 <= i < |rows| => ClientGroup(rows[i].group.id, rows[i].group.uuid,
        rows[i].group.name));
  }

  // ----- Writes ---------------------------------------------------------------------------

  method CreateUserGroupMembership(server: State, groupId: string, userId: string) returns (r: Response<()>)
    requires server.Valid()
    modifies server.Repr
    ensures server.Valid() && fresh(server.Repr - old(server.Repr))
    ensures (server.Snap(), r) == PostGroupMember(old(server.Snap()), groupId, userId)
  {
    hide State.Valid, State.Snap, Handle, Atoi;
    match (Atoi(groupId), Atoi(userId)) {
      case (Some(g), Some(u)) =>
        var status := Handlers.AddMember(server, g, u);
        r := Acknowledged(status);
      case _ => r := Err(Refused(BadRequest));
    }
  }

  method DeleteUserGroupMembership(server: State, groupId: string, userId: string) returns (r: Response<()>)
    requires server.Valid()
    modifies server.Repr
    ensures server.Valid() && server.Repr == old(server.Repr)
    ensures (server.Snap(), r) == DeleteGroupMember(old(server.Snap()), groupId, userId)
  {
    hide State.Valid, State.Snap, Handle, Atoi;
    match (Atoi(groupId), Atoi(userId)) {
      case (Some(g), Some(u)) =>
        var status := Handlers.RemoveMember(server, g, u);
        r := Acknowledged(status);
      case _ => r := Err(Refused(BadRequest));
    }
  }

  method UpdateUserRoles(server: State, userUUID: string, roleUUID: string) returns (r: Response<()>)
    requires server.Valid()
    modifies server.Repr
    ensures server.Valid() && fresh(server.Repr - old(server.Repr))
    ensures (server.Snap(), r) == PutUserRole(old(server.Snap()), userUUID, roleUUID)
  {
    hide State.Valid, State.Snap, Handle;
    var status := Handlers.UpdateUserRoles(server, userUUID, [roleUUID]);
    r := Acknowledged(status);
  }

  method SetUserEnabled(server: State, userId: string, enabled: bool) returns (r: Response<ClientUser>)
    requires server.Valid()
    modifies server.Repr
    ensures server.Valid() && server.Repr == old(server.Repr)
    ensures (server.Snap(), r) == PutUserEnabled(old(server.Snap()), userId, enabled)
  {
    hide State.Valid, State.Snap, CreateUser, UpdateUser, DeleteUser, Directory.SetUserEnabled, AddGroupMember,
      RemoveGroupMember, SetUserRoles, Directory.UpdatePermission, DecodeUser, Atoi;
    match Atoi(userId) {
      case None => r := Err(Refused(BadRequest));
      case Some(id) =>
        var status, user := Handlers.SetEnabled(server, id, enabled);
        r := match user case None => Err(Refused(NotFound)) case Some(u) => Decoded(DecodeUser(u));
    }
  }

  /** The body holds the whole permission, its tags rewritten in place. */
  method UpdatePermission(server: State, p: ClientPermission) returns (r: Response<()>)
    requires server.Valid()
    modifies server.Repr
    ensures server.Valid() && fresh(server.Repr - old(server.Repr))
    ensures (server.Snap(), r) == PutPermission(old(server.Snap()), p)
  {
    hide State.Valid, State.Snap, Handle, RewriteTags, EncodeObjects, Render;
    var objs := new TenableObject[|p.objects|](i requires 0 <= i < |p.objects| => p.objects[i]);
    assert objs[..] == p.objects;
    ParseTagNames(objs);
    var status := Handlers.ReplacePermission(server, Render(p.uuid), p.name, p.actions, EncodeObjects(objs[..]),
                                             EncodeObjects(p.subjects));
    r := Acknowledged(status);
  }
}
