/** Whole runs of the connector: any number of operations of any kind, begun at any time, their
    requests interleaved in any way, and any of them abandoned half way. */
module ConnectorRuns {
  import opened Wrappers
  import opened Sequences
  import opened Text
  import opened Uuids
  import opened Directory
  import opened Invariants
  import opened ServerRuns
  import opened Wire
  import opened Protocol
  import opened Reading
  import opened Subjects
  import opened Interference
  import opened Meaning
  import opened Linearisation
  import opened Repetition
  import opened Retry
  import opened Typing

  // ----- Runs -----------------------------------------------------------------------------

  datatype Event = Begin(op: Op) | Proceed(i: nat)

  datatype World = World(server: Snapshot, ops: seq<Op>, pcs: seq<Pc>)

  predicate Running(w: World)
  {
    |w.ops| == |w.pcs| && forall i :: 0 <= i < |w.ops| ==> Fits(w.ops[i], w.pcs[i])
  }

  /** An operation begins, or a begun one makes its next request. */
  function Happen(e: bool, w: World, event: Event): (r: World)
    requires Running(w)
    ensures Running(r)
  {
    match event
    case Begin(op) => World(w.server, w.ops + [op], w.pcs + [Start])
    case Proceed(i) =>
      if i < |w.ops| then
        var (s', pc') := Step(e, w.ops[i], w.pcs[i], w.server);
        World(s', w.ops, w.pcs[i := pc'])
      else w
  }

  function Live(e: bool, w: World, events: seq<Event>): (r: World)
    requires Running(w)
    ensures Running(r)
    decreases |events|
  {
    if events == [] then w else Live(e, Happen(e, w, events[0]), events[1..])
  }

  lemma {:induction false} LiveInParts(e: bool, w: World, before: seq<Event>, after: seq<Event>)
    requires Running(w)
    ensures Live(e, w, before + after) == Live(e, Live(e, w, before), after)
    decreases |before|
  {
    hide Happen, Running;
    if before == [] {
      assert before + after == after;
    } else {
      assert (before + after)[1..] == before[1..] + after;
      LiveInParts(e, Happen(e, w, before[0]), before[1..], after);
    }
  }

  /** As many turns of one operation as it takes. */
  function Turns(i: nat, k: nat): (events: seq<Event>)
    ensures |events| == k
  {
    seq(k, _ => Proceed(i))
  }

  lemma {:induction false} TurnsResume(e: bool, w: World, i: nat, k: nat)
    requires Running(w) && i < |w.ops| && Rank(w.pcs[i]) <= k
    ensures var (s', outcome) := Resume(e, w.ops[i], w.pcs[i], w.server);
      Live(e, w, Turns(i, k)) == World(s', w.ops, w.pcs[i := Done(outcome)])
    decreases k
  {
    hide Step, Fits;
    if k == 0 {
      assert w.pcs[i := w.pcs[i]] == w.pcs;
      assert Turns(i, k) == [];
    } else {
      assert Turns(i, k) == [Proceed(i)] + Turns(i, k - 1);
      if w.pcs[i].Done? { DoneIsStill(e, w.ops[i], w.pcs[i], w.server); }
      TurnsResume(e, Happen(e, w, Proceed(i)), i, k - 1);
    }
  }

  /** Begun at any time and then given six turns, an operation does all it does in one piece. */
  lemma BegunAndDone(e: bool, w: World, op: Op)
    requires Running(w)
    ensures var (s', outcome) := Complete(e, op, w.server);
      Live(e, w, [Begin(op)] + Turns(|w.ops|, 6)) == World(s', w.ops + [op], w.pcs + [Done(outcome)])
  {
    hide Step, Fits;
    var events, i := [Begin(op)] + Turns(|w.ops|, 6), |w.ops|;
    assert events[0] == Begin(op) && events[1..] == Turns(i, 6);
    var next := Happen(e, w, Begin(op));
    TurnsResume(e, next, i, 6);
    assert next.pcs[i := Done(Complete(e, op, w.server).1)] == w.pcs + [Done(Complete(e, op, w.server).1)];
  }

  // ----- What one request can do to the server --------------------------------------------

  /** Nobody is removed, and whoever comes carries a freshly made UUID. */
  ghost predicate OnlyGrows(s: Snapshot, s': Snapshot)
  {
    && s'.catalog == s.catalog && s.nextUserID <= s'.nextUserID
    && s.users.Keys <= s'.users.Keys
    && forall k :: k in s'.users ==> k in s.users || UUID_PREFIX <= k
  }

  /** Role lists are only ever replaced by one-element lists. */
  predicate RolesReplaced(s: Snapshot, s': Snapshot, k: string)
  {
    Row(s'.userRoles, k) == Row(s.userRoles, k) || |Row(s'.userRoles, k)| == 1
  }

  /** The requests the connector makes that can write. */
  predicate ConnectorRequest(pc: Pc, request: Request)
  {
    match request
    case CreateUserRequest(_, _, _, _, _) => true
    case AddMemberRequest(_, _) => true
    case RemoveMemberRequest(_, _) => true
    case SetEnabledRequest(_, _) => true
    case SetRolesRequest(_, roles) => |roles| == 1
    case UpdatePermissionRequest(_, _, _, objects, subjects) =>
      pc.PermissionPut? && objects == EncodeObjects(RewriteTags(pc.permission.objects))
      && subjects == EncodeObjects(pc.permission.subjects)
    case _ => false
  }

  predicate ByRequest(s: Snapshot, s': Snapshot, request: Option<Request>)
  {
    s' == if request.None? then s else Handle(s, request.value).0
  }

  lemma StartRequest(e: bool, op: Op, s: Snapshot) returns (request: Option<Request>)
    ensures ByRequest(s, StartStep(e, op, s).0, request)
    ensures request.Some? ==> ConnectorRequest(Start, request.value)
  {
    hide GroupStart, RoleStart, PermissionStart, CreateUser, DecodeUser, Atoi;
    request := None;
    match op
    case CreateAccount(email, name, password) =>
      request := Some(CreateUserRequest(email, password, email, name, BASIC_USER_ROLE));
    case SetAccountEnabled(user, enabled) =>
      if Atoi(user).Some? { request := Some(SetEnabledRequest(Atoi(user).value, enabled)); }
    case _ =>
  }

  lemma StepRequest(e: bool, op: Op, pc: Pc, s: Snapshot) returns (request: Option<Request>)
    requires Fits(op, pc)
    ensures ByRequest(s, Step(e, op, pc, s).0, request)
    ensures request.Some? ==> ConnectorRequest(pc, request.value)
  {
    hide StartStep, MemberFetchStep, RoleReadStep, BasicLookupStep, PrincipalReadStep, DecodeUser, Atoi, Itoa, Render,
      RewriteTags, EncodeObjects, CreateUser, UpdateUser, DeleteUser, SetUserEnabled, AddGroupMember,
      RemoveGroupMember, SetUserRoles, UpdatePermission, MembershipFixed;
    request := None;
    match pc
    case Start => request := StartRequest(e, op, s);
    case MemberPost =>
      if Atoi(op.group).Some? && Atoi(op.user).Some? {
        request := Some(AddMemberRequest(Atoi(op.group).value, Atoi(op.user).value));
      }
    case MemberDelete =>
      if Atoi(op.group).Some? && Atoi(op.user).Some? {
        request := Some(RemoveMemberRequest(Atoi(op.group).value, Atoi(op.user).value));
      }
    case RolePut(user) => request := Some(SetRolesRequest(user.uuid, [op.role]));
    case BasicPut(user, basic) => request := Some(SetRolesRequest(user.uuid, [basic]));
    case PermissionPut(_, p) =>
      request := Some(UpdatePermissionRequest(Render(p.uuid), p.name, p.actions, EncodeObjects(RewriteTags(p.objects)),
                                              EncodeObjects(p.subjects)));
    case Enable(id, _) =>
      if Atoi(Itoa(id)).Some? { request := Some(SetEnabledRequest(Atoi(Itoa(id)).value, true)); }
    case _ =>
  }

  lemma MembershipGrows(s: Snapshot, groupID: int, userID: int)
    requires Inv(s)
    ensures OnlyGrows(s, AddGroupMember(s, groupID, userID).0)
        && AddGroupMember(s, groupID, userID).0.userRoles == s.userRoles
    ensures OnlyGrows(s, RemoveGroupMember(s, groupID, userID).0)
        && RemoveGroupMember(s, groupID, userID).0.userRoles == s.userRoles
  {
    hide Inv, MemberCounts, Without, UserByID, GroupByID;
    PeopleKept(s, groupID, userID);
    MembershipKeepsRest(s, groupID, userID);
  }

  lemma CreateGrows(s: Snapshot, username: string, email: string, name: string, permissions: int)
    ensures OnlyGrows(s, CreateUser(s, username, email, name, permissions))
    ensures CreateUser(s, username, email, name, permissions).userRoles == s.userRoles
  {
    hide MemberCounts, HexFixed;
    assert UUID_PREFIX <= FormatUuid(s.nextUserID + 1);
  }

  lemma EnabledGrows(s: Snapshot, id: int, enabled: bool)
    requires Inv(s)
    ensures OnlyGrows(s, SetUserEnabled(s, id, enabled).0) && SetUserEnabled(s, id, enabled).0.userRoles == s.userRoles
  {
    hide CatalogOk, IdsIssued, MembersAgree, RolesAgree, AllUsersComplete, PermissionsIndexed;
    UserByIDFound(s, id);
  }

  lemma RolesGrow(s: Snapshot, uuid: string, roles: seq<string>, k: string)
    requires |roles| == 1
    ensures OnlyGrows(s, SetUserRoles(s, uuid, roles).0) && RolesReplaced(s, SetUserRoles(s, uuid, roles).0, k)
  {
    hide RoleRefs;
  }

  lemma RequestGrows(s: Snapshot, pc: Pc, request: Request, k: string)
    requires Inv(s) && ConnectorRequest(pc, request)
    ensures OnlyGrows(s, Handle(s, request).0) && RolesReplaced(s, Handle(s, request).0, k)
  {
    hide Inv, OnlyGrows, CreateUser, UpdateUser, DeleteUser, SetUserEnabled, AddGroupMember, RemoveGroupMember,
      SetUserRoles, MembershipFixed, EncodeObjects, RewriteTags;
    StaysGrown(s);
    match request
    case CreateUserRequest(username, password, email, name, permissions) =>
      CreateGrows(s, username, if email == "" then username else email, name,
          if permissions == 0 then 16 else permissions);
    case AddMemberRequest(groupID, userID) => MembershipGrows(s, groupID, userID);
    case RemoveMemberRequest(groupID, userID) => MembershipGrows(s, groupID, userID);
    case SetEnabledRequest(id, enabled) => EnabledGrows(s, id, enabled);
    case SetRolesRequest(uuid, roles) => RolesGrow(s, uuid, roles, k);
    case UpdatePermissionRequest(uuid, name, actions, objects, subjects) =>
      SameUsersGrow(s, UpdatePermission(s, uuid, name, actions, objects, subjects).0);
  }

  lemma StaysGrown(s: Snapshot)
    ensures OnlyGrows(s, s)
  {}

  lemma SameUsersGrow(s: Snapshot, s': Snapshot)
    requires s'.users == s.users && s'.catalog == s.catalog && s'.nextUserID == s.nextUserID
    ensures OnlyGrows(s, s')
  {}

  // ----- Typed subjects survive -----------------------------------------------------------

  /** The subjects that an operation carries are well typed, as they will be stored. */
  ghost predicate PcTyped(s: Snapshot, pc: Pc)
  {
    pc.PrincipalRead? || pc.PermissionPut? ==>
      forall i :: 0 <= i < |pc.permission.subjects| ==> SubjectTyped(s, EncodeObject(pc.permission.subjects[i]))
  }

  lemma TypingSurvives(s: Snapshot, s': Snapshot, x: Subject)
    requires OnlyGrows(s, s') && SubjectTyped(s, x)
    ensures SubjectTyped(s', x)
  {
    hide Normal, DecodeObject, UUID_PREFIX;
  }

  lemma PcTypingSurvives(s: Snapshot, s': Snapshot, pc: Pc)
    requires OnlyGrows(s, s') && PcTyped(s, pc)
    ensures PcTyped(s', pc)
  {
    hide SubjectTyped, OnlyGrows, EncodeObject;
    if pc.PrincipalRead? || pc.PermissionPut? {
      var os := pc.permission.subjects;
      forall i | 0 <= i < |os|
        ensures SubjectTyped(s', EncodeObject(os[i]))
      {
        TypingSurvives(s, s', EncodeObject(os[i]));
      }
    }
  }

  lemma PermissionTypingSurvives(s: Snapshot, s': Snapshot, p: Permission)
    requires OnlyGrows(s, s') && PermissionTyped(s, p)
    ensures PermissionTyped(s', p)
  {
    hide SubjectTyped, OnlyGrows, DecodeObject;
    forall i | 0 <= i < |p.subjects|
      ensures SubjectTyped(s', p.subjects[i])
    {
      TypingSurvives(s, s', p.subjects[i]);
    }
  }

  /** A body of well-typed subjects makes a well-typed permission. */
  lemma BodyTyped(s: Snapshot, p: Permission, objects: seq<TenableObject>, subjects: seq<TenableObject>)
    requires p.objects == EncodeObjects(objects) && p.subjects == EncodeObjects(subjects)
    requires forall i :: 0 <= i < |subjects| ==> SubjectTyped(s, EncodeObject(subjects[i]))
    ensures PermissionTyped(s, p)
  {
    hide SubjectTyped, DecodeObject, EncodeObject;
    forall i | 0 <= i < |objects|
      ensures DecodeObject(p.objects[i]).Some?
    {
      ObjectRoundTrip(objects[i]);
    }
  }

  lemma PermissionsUnlessUpdated(s: Snapshot, pc: Pc, request: Request)
    requires ConnectorRequest(pc, request) && !request.UpdatePermissionRequest?
    ensures Handle(s, request).0.permissions == s.permissions
  {
    hide MemberCounts, Without, FormatUuid, RoleRefs;
  }

  lemma RequestKeepsTyped(s: Snapshot, pc: Pc, request: Request)
    requires Inv(s) && ConnectorRequest(pc, request) && PermissionsTyped(s) && PcTyped(s, pc)
    ensures PermissionsTyped(Handle(s, request).0)
  {
    hide Inv, OnlyGrows, PermissionTyped, SubjectTyped, CreateUser, UpdateUser, DeleteUser, SetUserEnabled,
      AddGroupMember, RemoveGroupMember, SetUserRoles, MembershipFixed, EncodeObjects, EncodeObject, RewriteTags;
    var s' := Handle(s, request).0;
    RequestGrows(s, pc, request, "");
    if !request.UpdatePermissionRequest? { PermissionsUnlessUpdated(s, pc, request); }
    forall p | p in s'.permissions
      ensures PermissionTyped(s', s'.permissions[p])
    {
      if request.UpdatePermissionRequest? && p == request.uuid {
        BodyTyped(s, s'.permissions[p], RewriteTags(pc.permission.objects), pc.permission.subjects);
        PermissionTypingSurvives(s, s', s'.permissions[p]);
      } else {
        PermissionTypingSurvives(s, s', s.permissions[p]);
      }
    }
  }

  lemma NormalTyped(s: Snapshot, x: Subject)
    requires SubjectTyped(s, x)
    ensures SubjectTyped(s, Normal(x))
  {
    hide Parse, Render, UUID_PREFIX, ALL_USERS;
    AllUsersIsNil();
    if x.uuid == "" {
      ParseOfRender(NIL);
    } else {
      ParseOfRender(Parse(x.uuid).value);
    }
    NormalFixed(x);
  }

  lemma NormalFixed(x: Subject)
    ensures Normal(Normal(x)) == Normal(x)
  {
    hide Normal;
    NormalForm(x);
  }

  lemma StartPcTyped(op: Op, s: Snapshot)
    requires Inv(s) && PermissionsTyped(s) && ForPermission(op)
    ensures PcTyped(s, PermissionStart(op, s))
  {
    hide Inv, SubjectTyped, DecodePermission, Normal, EncodeObject, Parse, Render;
    var pc := PermissionStart(op, s);
    if pc.PrincipalRead? {
      var os, xs := pc.permission.subjects, s.permissions[op.permission].subjects;
      assert SubjectsOf(s, op.permission) == Some(pc.permission);
      DecodedParts(s, op.permission);
      RoundTripNormalises(xs);
      forall i | 0 <= i < |os|
        ensures SubjectTyped(s, EncodeObject(os[i]))
      {
        assert SubjectTyped(s, xs[i]);
        NormalTyped(s, xs[i]);
        assert EncodeObjects(os)[i] == EncodeObject(os[i]);
      }
    }
  }

  lemma UserEntryTyped(s: Snapshot, user: string, uuid: Uuid, name: string)
    requires Inv(s) && UserOf(s, user).Some? && Parse(UserOf(s, user).value.uuid) == Some(uuid)
    ensures SubjectTyped(s, EncodeObject(TenableObject(USER_SUBJECT, uuid, name)))
  {
    hide Inv, Atoi, Parse, Render, Canonical;
    UserOfFound(s, user);
    CanonicalParses(UserOf(s, user).value.uuid);
    var o := TenableObject(USER_SUBJECT, uuid, name);
    ObjectRoundTrip(o);
    CanonicalIsItself(EncodeObject(o));
  }

  lemma CanonicalIsItself(x: Subject)
    requires Canonical(x.uuid)
    ensures Normal(x) == x
  {
    NormalForm(x);
  }

  lemma PrincipalPcTyped(e: bool, op: Op, p: ClientPermission, s: Snapshot)
    requires Inv(s) && PcTyped(s, PrincipalRead(p)) && ForPermission(op)
    ensures PcTyped(s, PrincipalReadStep(e, op, p, s))
  {
    hide Inv, SubjectTyped, UserOf, GetUserDetails, DecodeUser, Atoi, Itoa, Parse, Render, HasSubject, EncodeObject,
      DropSubject;
    UserDetailsRead(s, op.user);
    var pc := PrincipalReadStep(e, op, p, s);
    if pc.PermissionPut? {
      var cu := GetUserDetails(s, op.user).value;
      DescribesSelf(s, op.user, cu);
      var uuid := Parse(cu.uuid).value;
      UserEntryTyped(s, op.user, uuid, cu.name);
      DropSubjectMembers(p.subjects, uuid);
      var os := pc.permission.subjects;
      forall i | 0 <= i < |os|
        ensures SubjectTyped(s, EncodeObject(os[i]))
      {
        assert os[i] in os;
        if os[i] in p.subjects {
          var j :| 0 <= j < |p.subjects| && p.subjects[j] == os[i];
        }
      }
    }
  }

  lemma StepPcTyped(e: bool, op: Op, pc: Pc, s: Snapshot)
    requires Inv(s) && PermissionsTyped(s) && PcTyped(s, pc) && Fits(op, pc)
    ensures PcTyped(s, Step(e, op, pc, s).1)
  {
    hide Inv, PermissionsTyped, SubjectTyped, PermissionStart, PrincipalReadStep, GroupStart, RoleStart,
      SetAccountStep, PostUser, PostGroupMember, DeleteGroupMember, PutUserRole, PutPermission, PutUserEnabled, Itoa,
      GetUserDetails;
    match pc
    case Start => if ForPermission(op) { StartPcTyped(op, s); }
    case PrincipalRead(p) => PrincipalPcTyped(e, op, p, s);
    case _ =>
  }

  // ----- The invariant of connector runs --------------------------------------------------

  ghost predicate Sound(w: World)
  {
    && Running(w) && Inv(w.server) && PermissionsTyped(w.server)
    && forall i :: 0 <= i < |w.pcs| ==> PcTyped(w.server, w.pcs[i])
  }

  lemma RequestKeepsInv(s: Snapshot, s': Snapshot, pc: Pc, request: Option<Request>)
    requires Inv(s) && PermissionsTyped(s) && PcTyped(s, pc)
    requires ByRequest(s, s', request) && (request.Some? ==> ConnectorRequest(pc, request.value))
        && s'.nextUserID < CAPACITY
    ensures Inv(s') && PermissionsTyped(s') && OnlyGrows(s, s')
  {
    hide Inv, PermissionsTyped, PcTyped, OnlyGrows, Handle, ConnectorRequest;
    StaysGrown(s);
    if request.Some? {
      HandleKeepsInv(s, request.value);
      RequestKeepsTyped(s, pc, request.value);
      RequestGrows(s, pc, request.value, "");
    }
  }

  lemma HappenKeepsSound(e: bool, w: World, event: Event)
    requires Sound(w) && Happen(e, w, event).server.nextUserID < CAPACITY
    ensures Sound(Happen(e, w, event)) && OnlyGrows(w.server, Happen(e, w, event).server)
  {
    hide Inv, PermissionsTyped, PcTyped, OnlyGrows, Step, Fits, ByRequest, ConnectorRequest;
    StaysGrown(w.server);
    var r := Happen(e, w, event);
    match event
    case Begin(op) => StartIsTyped(w.server);
    case Proceed(i) =>
      if i < |w.ops| {
        var request := StepRequest(e, w.ops[i], w.pcs[i], w.server);
        RequestKeepsInv(w.server, r.server, w.pcs[i], request);
        StepPcTyped(e, w.ops[i], w.pcs[i], w.server);
        forall j | 0 <= j < |r.pcs|
          ensures PcTyped(r.server, r.pcs[j])
        {
          PcTypingSurvives(w.server, r.server, r.pcs[j]);
        }
      }
  }

  lemma StartIsTyped(s: Snapshot)
    ensures PcTyped(s, Start)
  {}

  lemma {:induction false} CounterNeverFalls(e: bool, w: World, events: seq<Event>)
    requires Running(w)
    ensures w.server.nextUserID <= Live(e, w, events).server.nextUserID
    decreases |events|
  {
    hide Step, Fits, Handle, ConnectorRequest;
    if events != [] {
      var next := Happen(e, w, events[0]);
      CounterNeverFalls(e, next, events[1..]);
      if events[0].Proceed? && events[0].i < |w.ops| {
        var i := events[0].i;
        var request := StepRequest(e, w.ops[i], w.pcs[i], w.server);
        if request.Some? { HandleFrame(w.server, request.value); }
      }
    }
  }

  /** Over every run of the connector the server's copies agree, every permission subject stays well
      typed, and nobody is removed. */
  lemma {:induction false} LiveKeepsSound(e: bool, w: World, events: seq<Event>)
    requires Sound(w) && Live(e, w, events).server.nextUserID < CAPACITY
    ensures Sound(Live(e, w, events)) && OnlyGrows(w.server, Live(e, w, events).server)
    decreases |events|
  {
    hide Inv, PermissionsTyped, PcTyped, Happen;
    if events != [] {
      var next := Happen(e, w, events[0]);
      CounterNeverFalls(e, next, events[1..]);
      HappenKeepsSound(e, w, events[0]);
      LiveKeepsSound(e, next, events[1..]);
    }
  }
}
