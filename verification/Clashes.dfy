/** Why clashing operations are left out of serial equivalence: for every kind of clash an interleaving
    of the two that is not explained by the order of their deciding requests. The permission PUT replaces
    the whole subject list and the role PUT the whole role list, so that one of two writes can be lost. */
module Clashes {
  import opened Wrappers
  import opened Text
  import opened Uuids
  import opened Directory
  import opened Invariants
  import opened Wire
  import opened Protocol
  import opened Reading
  import opened Meaning
  import opened Linearisation
  import opened Commutation
  import opened Repetition
  import opened Interference
  import opened Retry
  import opened Serial

  // ----- Interleavings of two operations --------------------------------------------------

  lemma FirstMoves(e: bool, a: Op, b: Op, s: Snapshot, p: Pc, q: Pc, decided: seq<nat>, rest: seq<nat>)
    requires IsProvisioning(a) && IsProvisioning(b) && Fits(a, p) && Fits(b, q) && Indices(rest, 2)
    ensures var (s', p') := Step(e, a, p, s);
      var decided' := if Decided(p') && !Decided(p) then decided + [0] else decided;
      && WellFormed([a, b], System(s, [p, q], decided)) && WellFormed([a, b], System(s', [p', q], decided'))
      && Interleave(e, [a, b], System(s, [p, q], decided), [0] + rest) ==
         Interleave(e, [a, b], System(s', [p', q], decided'), rest)
  {
    hide Step, Fits, IsProvisioning, Decided;
    assert ([0] + rest)[1..] == rest;
    assert [p, q][0 := Step(e, a, p, s).1] == [Step(e, a, p, s).1, q];
  }

  lemma SecondMoves(e: bool, a: Op, b: Op, s: Snapshot, p: Pc, q: Pc, decided: seq<nat>, rest: seq<nat>)
    requires IsProvisioning(a) && IsProvisioning(b) && Fits(a, p) && Fits(b, q) && Indices(rest, 2)
    ensures var (s', q') := Step(e, b, q, s);
      var decided' := if Decided(q') && !Decided(q) then decided + [1] else decided;
      && WellFormed([a, b], System(s, [p, q], decided)) && WellFormed([a, b], System(s', [p, q'], decided'))
      && Interleave(e, [a, b], System(s, [p, q], decided), [1] + rest) ==
         Interleave(e, [a, b], System(s', [p, q'], decided'), rest)
  {
    hide Step, Fits, IsProvisioning, Decided;
    assert ([1] + rest)[1..] == rest;
    assert [p, q][1 := Step(e, b, q, s).1] == [p, Step(e, b, q, s).1];
  }

  lemma StartFits(op: Op)
    ensures Fits(op, Start)
  {}

  lemma NoTurns(e: bool, ops: seq<Op>, sys: System)
    requires WellFormed(ops, sys)
    ensures Interleave(e, ops, sys, []) == sys
  {}

  lemma PairFits(a: Op, b: Op, s: Snapshot)
    requires IsProvisioning(a) && IsProvisioning(b)
    ensures WellFormed([a, b], Initially(s, [a, b])) && Initially(s, [a, b]) == System(s, [Start, Start], [])
  {
    hide IsProvisioning;
    StartFits(a);
    StartFits(b);
  }

  /** Two operations after these turns. */
  function After2(e: bool, a: Op, b: Op, s: Snapshot, turns: seq<nat>): (sys: System)
    requires IsProvisioning(a) && IsProvisioning(b) && Indices(turns, 2)
    ensures WellFormed([a, b], sys)
  {
    PairFits(a, b, s);
    Interleave(e, [a, b], Initially(s, [a, b]), turns)
  }

  /** One operation after the other, each uninterrupted. */
  function InOrder(e: bool, a: Op, b: Op, s: Snapshot): Snapshot
  {
    Complete(e, b, Complete(e, a, s).0).0
  }

  lemma OrdersAreSerial(e: bool, a: Op, b: Op, s: Snapshot)
    ensures Serially(e, [a, b], s, [0, 1]) == InOrder(e, a, b, s)
    ensures Serially(e, [a, b], s, [1, 0]) == InOrder(e, b, a, s)
  {
    hide Complete;
    assert [0, 1][..1] == [0] && [1, 0][..1] == [1] && [0][..0] == [] && [1][..0] == [];
    assert Serially(e, [a, b], s, [0]) == Complete(e, a, s).0;
    assert Serially(e, [a, b], s, [1]) == Complete(e, b, s).0;
  }

  lemma InOrderMeans(e: bool, a: Op, b: Op, s: Snapshot)
    requires Inv(s) && IsProvisioning(a) && IsProvisioning(b)
    ensures InOrder(e, a, b, s) == Effect(e, b, Effect(e, a, s))
  {
    hide Inv, Effect, Complete;
    CompleteMeans(e, a, s);
    CompleteMeans(e, b, Effect(e, a, s));
  }

  // ----- Two changes to one permission ---------------------------------------------------

  lemma EnablingKeepsPermission(s: Snapshot, ids: set<int>, user: string, permission: string)
    ensures HasPermission(EnableUsers(s, ids), user, permission) == HasPermission(s, user, permission)
  {
    hide UserOf, DecodePermission, HasSubject;
    EnabledUserOf(s, ids, user);
  }

  /** The first two requests of the operation only read. */
  predicate ReadsTwice(e: bool, op: Op, s: Snapshot)
  {
    var (s1, pc1) := Step(e, op, Start, s);
    var (s2, pc2) := Step(e, op, pc1, s1);
    s1 == s && s2 == s && !Decided(pc1) && !Decided(pc2)
  }

  /** Where it stands then. */
  function Ready(e: bool, op: Op, s: Snapshot): (pc: Pc)
    ensures Fits(op, pc)
  {
    Step(e, op, Step(e, op, Start, s).1, s).1
  }

  /** Where a permission operation stands just before its PUT. */
  lemma ReadyToPut(e: bool, op: Op, s: Snapshot)
    requires Inv(s) && ForPermission(op) && PermissionAnswer(op, s) == Applied
    ensures ReadsTwice(e, op, s) && Ready(e, op, s).PermissionPut? && KnowsPermission(op, Ready(e, op, s), s, true)
  {
    hide Inv, PermissionAnswer, UserOf, SubjectsOf, DecodeUser, GetUserDetails, GetPermissionDetails, HasSubject,
      KnowsPermission, Parse, Render, Atoi, EnableUsers;
    PermissionStartDecides(e, op, s, true);
    var pc1 := Step(e, op, Start, s).1;
    PrincipalReadDecides(e, op, s, pc1.permission, true);
  }

  /** Both operations make their two reads, and then both write. */
  lemma OverlapIsInterleaving(e: bool, a: Op, b: Op, s: Snapshot) returns (turns: seq<nat>)
    requires IsProvisioning(a) && IsProvisioning(b) && ReadsTwice(e, a, s) && ReadsTwice(e, b, s)
    ensures Indices(turns, 2)
    ensures var (s1, pcA) := Step(e, a, Ready(e, a, s), s);
      var (s2, pcB) := Step(e, b, Ready(e, b, s), s1);
      Decided(pcA) && Decided(pcB) ==> After2(e, a, b, s, turns) == System(s2, [pcA, pcB], [0, 1])
  {
    hide Step, Fits, IsProvisioning, Interleave, WellFormed;
    turns := [0] + ([0] + ([1] + ([1] + ([0] + ([1] + [])))));
    PairFits(a, b, s);
    StartFits(a);
    StartFits(b);
    var a1, b1 := Step(e, a, Start, s).1, Step(e, b, Start, s).1;
    var a2, b2 := Ready(e, a, s), Ready(e, b, s);
    var (s1, pcA) := Step(e, a, a2, s);
    var (s2, pcB) := Step(e, b, b2, s1);
    FirstMoves(e, a, b, s, Start, Start, [], [0] + ([1] + ([1] + ([0] + ([1] + [])))));
    FirstMoves(e, a, b, s, a1, Start, [], [1] + ([1] + ([0] + ([1] + []))));
    SecondMoves(e, a, b, s, a2, Start, [], [1] + ([0] + ([1] + [])));
    SecondMoves(e, a, b, s, a2, b1, [], [0] + ([1] + []));
    FirstMoves(e, a, b, s, a2, b2, [], [1] + []);
    if Decided(pcA) && Decided(pcB) {
      var none: seq<nat> := [];
      assert none + [0] == [0] && [0] + [1] == [0, 1];
      SecondMoves(e, a, b, s1, pcA, b2, [0], []);
      NoTurns(e, [a, b], System(s2, [pcA, pcB], [0, 1]));
    }
  }

  lemma SecondPutWins(s: Snapshot, permission: string, a: ClientPermission, b: ClientPermission, user: string)
    requires Inv(s) && SubjectsOf(s, permission).Some? && UserOf(s, user).Some?
    requires a.uuid == SubjectsOf(s, permission).value.uuid && b.uuid == a.uuid
    ensures var s1 := PutPermission(s, a).0;
      var (s2, reply) := PutPermission(s1, b);
      reply == Ok(()) && HasPermission(s2, user, permission) == HasSubject(b.subjects, UserOf(s, user).value.uuid)
  {
    hide Inv, UserOf, SubjectsOf, PutPermission, HasSubject, RewriteTags;
    var s1 := PutPermission(s, a).0;
    PutPermissionKeepsInv(s, a);
    PutPermissionReadBack(s, permission, a);
    PutPermissionReadBack(s1, permission, b);
    PermissionPutReply(s1, permission, b);
    SameUsersSameUser(s, s1, user);
    SameUsersSameUser(s1, PutPermission(s1, b).0, user);
  }

  lemma DistinctUuids(s: Snapshot, user: string, other: string)
    requires Inv(s) && UserOf(s, user).Some? && UserOf(s, other).Some? && Atoi(user) != Atoi(other)
    ensures UserOf(s, user).value.uuid != UserOf(s, other).value.uuid
  {
    hide Inv, Atoi, Canonical;
    UserOfFound(s, user);
    UserOfFound(s, other);
  }

  /** Somebody else's change to the subjects keeps a user where it is. */
  lemma ChangeKeepsOthers(e: bool, op: Op, s: Snapshot, user: string)
    requires Inv(s) && ForPermission(op) && UserOf(s, user).Some? && Atoi(user) != Atoi(op.user)
    ensures var s' := Effect(e, op, s);
      UserOf(s', user).Some? && HasPermission(s', user, op.permission) == HasPermission(s, user, op.permission)
    ensures SubjectsOf(Effect(e, op, s), op.permission).Some? <==> SubjectsOf(s, op.permission).Some?
  {
    hide Inv, Write, UserOf, SubjectsOf, HasPermission, Atoi, EnableUsers, PermissionAnswer, PermissionWrite;
    var target := Target(e, op, Answer(op, s));
    EnabledUserOf(Write(op, s), target, user);
    EnablingKeepsPermission(Write(op, s), target, user, op.permission);
    EnablingKeepsSubjects(Write(op, s), target, op.permission);
    PermissionWriteTouchesOne(op, s);
    SameUsersSameUser(s, Write(op, s), user);
    if Write(op, s) != s {
      RevisedKeepsOthers(op, s, user);
    }
  }

  lemma EnablingKeepsSubjects(s: Snapshot, ids: set<int>, permission: string)
    ensures SubjectsOf(EnableUsers(s, ids), permission) == SubjectsOf(s, permission)
  {
    hide DecodePermission;
  }

  lemma RevisedKeepsOthers(op: Op, s: Snapshot, user: string)
    requires Inv(s) && ForPermission(op) && PermissionAnswer(op, s) == Applied
    requires UserOf(s, user).Some? && Atoi(user) != Atoi(op.user)
    ensures UserOf(s, op.user).Some? && SubjectsOf(s, op.permission).Some?
    ensures HasPermission(PermissionWrite(op, s), user, op.permission) == HasPermission(s, user, op.permission)
  {
    hide Inv, UserOf, SubjectsOf, PutPermission, HasSubject, Parse, Render, Canonical, RewriteTags, Atoi,
      PermissionAnswer, Revised;
    AppliedHasUser(op, s);
    DistinctUuids(s, user, op.user);
    var u, p := UserOf(s, op.user).value, SubjectsOf(s, op.permission).value;
    UserOfFound(s, op.user);
    CanonicalParses(u.uuid);
    var uuid := Parse(u.uuid).value;
    var body := Revised(op, p, uuid, u.name);
    RevisedKeepsUuid(op, p, uuid, u.name);
    PutPermissionReadBack(s, op.permission, body);
    SameUsersSameUser(s, PutPermission(s, body).0, user);
    RevisedSubjects(op, p, uuid, u.name, UserOf(s, user).value.uuid);
  }

  /** The revised list differs in the one subject only. */
  lemma RevisedSubjects(op: Op, p: ClientPermission, uuid: Uuid, name: string, other: string)
    requires ForPermission(op) && other != Render(uuid)
    ensures HasSubject(Revised(op, p, uuid, name).subjects, other) == HasSubject(p.subjects, other)
  {
    hide Render;
    var after := Revised(op, p, uuid, name).subjects;
    if op.PermissionGrant? {
      assert after[..|p.subjects|] == p.subjects;
      assert forall i :: 0 <= i < |p.subjects| ==> after[i] == p.subjects[i];
    } else {
      DropSubjectMembers(p.subjects, uuid);
      if HasSubject(p.subjects, other) {
        var i :| 0 <= i < |p.subjects| && Render(p.subjects[i].uuid) == other;
        assert p.subjects[i] in p.subjects && p.subjects[i] in after;
      }
      if HasSubject(after, other) {
        var i :| 0 <= i < |after| && Render(after[i].uuid) == other;
        assert after[i] in after && after[i] in p.subjects;
      }
    }
  }

  /** Once applied, a change leaves its user with the permission, or without it. */
  lemma ChangeTakesEffect(e: bool, op: Op, s: Snapshot)
    requires Inv(s) && ForPermission(op) && PermissionAnswer(op, s) == Applied
    ensures UserOf(Effect(e, op, s), op.user).Some?
    ensures HasPermission(Effect(e, op, s), op.user, op.permission) == op.PermissionGrant?
  {
    hide Inv, HasPermission, PermissionAnswer, EnableUsers, Target, UserOf, SubjectsOf;
    PermissionAfter(s, op);
    EnabledUserOf(Write(op, s), Target(e, op, Answer(op, s)), op.user);
    EnablingKeepsPermission(Write(op, s), Target(e, op, Answer(op, s)), op.user, op.permission);
  }

  lemma AnswerAgain(op: Op, s: Snapshot, s': Snapshot)
    requires ForPermission(op) && PermissionAnswer(op, s) == Applied && UserOf(s', op.user).Some?
    requires SubjectsOf(s', op.permission).Some?
    requires HasPermission(s', op.user, op.permission) == HasPermission(s, op.user, op.permission)
    ensures PermissionAnswer(op, s') == Applied
  {
    hide UserOf, DecodePermission, HasSubject, Atoi;
  }

  /** After either serial order both changes stand. */
  lemma OrderKeepsBoth(e: bool, a: Op, b: Op, s: Snapshot)
    requires Inv(s) && ForPermission(a) && ForPermission(b) && a.permission == b.permission
    requires Atoi(a.user) != Atoi(b.user) && PermissionAnswer(a, s) == Applied && PermissionAnswer(b, s) == Applied
    ensures HasPermission(Effect(e, b, Effect(e, a, s)), a.user, a.permission) == a.PermissionGrant?
    ensures HasPermission(Effect(e, a, Effect(e, b, s)), a.user, a.permission) == a.PermissionGrant?
  {
    hide Inv, HasPermission, Effect, PermissionAnswer, UserOf, SubjectsOf, Atoi;
    AppliedHasUser(a, s);
    AppliedHasUser(b, s);
    CompleteMeans(e, a, s);
    CompleteMeans(e, b, s);
    ChangeTakesEffect(e, a, s);
    ChangeKeepsOthers(e, b, Effect(e, a, s), a.user);
    ChangeKeepsOthers(e, b, s, a.user);
    AnswerAgain(a, s, Effect(e, b, s));
    ChangeTakesEffect(e, a, Effect(e, b, s));
  }

  lemma PutBoth(a: Op, b: Op, s: Snapshot, cuA: ClientUser, bodyA: ClientPermission, cuB: ClientUser,
      bodyB: ClientPermission)
    requires Inv(s) && ForPermission(a) && ForPermission(b) && a.permission == b.permission
    requires Atoi(a.user) != Atoi(b.user)
    requires KnowsPermission(a, PermissionPut(cuA, bodyA), s, true)
    requires KnowsPermission(b, PermissionPut(cuB, bodyB), s, true)
    ensures var (s1, replyA) := PutPermission(s, bodyA);
      var (s2, replyB) := PutPermission(s1, bodyB);
      && replyA == Ok(()) && replyB == Ok(())
      && HasPermission(s2, a.user, a.permission) == HasPermission(s, a.user, a.permission)
  {
    hide Inv, UserOf, SubjectsOf, PutPermission, HasSubject, Parse, Render, Atoi, Revised;
    DescribedUser(s, a.user, cuA);
    DescribedUser(s, b.user, cuB);
    DistinctUuids(s, a.user, b.user);
    RevisedKeepsUuid(a, SubjectsOf(s, a.permission).value, Parse(cuA.uuid).value, cuA.name);
    RevisedKeepsUuid(b, SubjectsOf(s, b.permission).value, Parse(cuB.uuid).value, cuB.name);
    PermissionPutReply(s, a.permission, bodyA);
    SecondPutWins(s, a.permission, bodyA, bodyB, a.user);
    RevisedSubjects(b, SubjectsOf(s, b.permission).value, Parse(cuB.uuid).value, cuB.name,
                    UserOf(s, a.user).value.uuid);
  }

  lemma OverlapLoses(e: bool, a: Op, b: Op, s: Snapshot) returns (turns: seq<nat>)
    requires Inv(s) && ForPermission(a) && ForPermission(b) && a.permission == b.permission
    requires Atoi(a.user) != Atoi(b.user) && PermissionAnswer(a, s) == Applied && PermissionAnswer(b, s) == Applied
    ensures Indices(turns, 2) && Inv(After2(e, a, b, s, turns).server)
    ensures var end := After2(e, a, b, s, turns);
      && end.decided == [0, 1] && (forall i :: 0 <= i < 2 ==> Decided(end.pcs[i]) && Promise(end.pcs[i]) == Applied)
      && HasPermission(end.server, a.user, a.permission) == HasPermission(s, a.user, a.permission)
  {
    hide Inv, PermissionAnswer, UserOf, SubjectsOf, PutPermission, HasSubject, Parse, Render, Atoi, StartStep,
      PrincipalReadStep, HasPermission, EnableUsers, After2, Ready, ReadsTwice;
    ReadyToPut(e, a, s);
    ReadyToPut(e, b, s);
    turns := OverlapIsInterleaving(e, a, b, s);
    var pcA, pcB := Ready(e, a, s), Ready(e, b, s);
    PutPermissionKeepsInv(s, pcA.permission);
    PutPermissionKeepsInv(PutPermission(s, pcA.permission).0, pcB.permission);
    PutBoth(a, b, s, pcA.user, pcA.permission, pcB.user, pcB.permission);
  }

  /** Two changes to one permission for different users, grants or revokes, that overlap lose the
      first: both answer that they applied, and the first user is where it was. After either serial
      order both changes stand. */
  lemma OverlapLosesTheFirst(e: bool, a: Op, b: Op, s: Snapshot) returns (turns: seq<nat>)
    requires Inv(s) && ForPermission(a) && ForPermission(b) && a.permission == b.permission
    requires Atoi(a.user) != Atoi(b.user) && PermissionAnswer(a, s) == Applied && PermissionAnswer(b, s) == Applied
    ensures Indices(turns, 2) && Inv(After2(e, a, b, s, turns).server)
    ensures var end := After2(e, a, b, s, turns);
      && end.decided == [0, 1] && (forall i :: 0 <= i < 2 ==> Decided(end.pcs[i]) && Promise(end.pcs[i]) == Applied)
      && HasPermission(end.server, a.user, a.permission) == a.PermissionRevoke?
    ensures HasPermission(InOrder(e, a, b, s), a.user, a.permission) == a.PermissionGrant?
    ensures HasPermission(InOrder(e, b, a, s), a.user, a.permission) == a.PermissionGrant?
  {
    hide Inv, PermissionAnswer, HasPermission, After2, InOrder, Effect, Atoi;
    AppliedHasUser(a, s);
    turns := OverlapLoses(e, a, b, s);
    OrderKeepsBoth(e, a, b, s);
    InOrderMeans(e, a, b, s);
    InOrderMeans(e, b, a, s);
  }

  // ----- A grant and a revoke for one user ------------------------------------------------

  /** An operation that read the permission before somebody else's change goes by what it read. */
  lemma StaleAnswer(e: bool, op: Op, p: ClientPermission, s: Snapshot, s': Snapshot)
    requires Inv(s') && ForPermission(op) && SubjectsOf(s, op.permission) == Some(p)
    requires UserOf(s, op.user).Some? && UserOf(s', op.user) == UserOf(s, op.user)
    requires HasPermission(s, op.user, op.permission) == op.PermissionGrant?
    ensures var pc := PrincipalReadStep(e, op, p, s');
      Decided(pc) && Promise(pc) == if op.PermissionGrant? then AlreadyExists else AlreadyRevoked
  {
    hide Inv, UserOf, GetUserDetails, DecodeUser, DecodePermission, HasSubject, Parse, Atoi;
    UserDetailsRead(s', op.user);
    DescribesSelf(s', op.user, GetUserDetails(s', op.user).value);
  }

  /** The second operation reads the permission, the first runs up to its write, and then the second
      reads its user. */
  lemma StaleIsInterleaving(e: bool, a: Op, b: Op, s: Snapshot) returns (turns: seq<nat>)
    requires IsProvisioning(a) && IsProvisioning(b) && ReadsTwice(e, a, s)
    requires Step(e, b, Start, s).0 == s && !Decided(Step(e, b, Start, s).1)
    ensures Indices(turns, 2)
    ensures var (s1, pcA) := Step(e, a, Ready(e, a, s), s);
      var (s2, pcB) := Step(e, b, Step(e, b, Start, s).1, s1);
      Decided(pcA) && Decided(pcB) ==> After2(e, a, b, s, turns) == System(s2, [pcA, pcB], [0, 1])
  {
    hide Step, Fits, IsProvisioning, Interleave, WellFormed;
    turns := [1] + ([0] + ([0] + ([0] + ([1] + []))));
    PairFits(a, b, s);
    StartFits(a);
    StartFits(b);
    var a1, b1, a2 := Step(e, a, Start, s).1, Step(e, b, Start, s).1, Ready(e, a, s);
    var (s1, pcA) := Step(e, a, a2, s);
    var (s2, pcB) := Step(e, b, b1, s1);
    SecondMoves(e, a, b, s, Start, Start, [], [0] + ([0] + ([0] + ([1] + []))));
    FirstMoves(e, a, b, s, Start, b1, [], [0] + ([0] + ([1] + [])));
    FirstMoves(e, a, b, s, a1, b1, [], [0] + ([1] + []));
    FirstMoves(e, a, b, s, a2, b1, [], [1] + []);
    if Decided(pcA) && Decided(pcB) {
      var none: seq<nat> := [];
      assert none + [0] == [0] && [0] + [1] == [0, 1];
      SecondMoves(e, a, b, s1, pcA, b1, [0], []);
      NoTurns(e, [a, b], System(s2, [pcA, pcB], [0, 1]));
    }
  }

  /** The opposite change for the same user applies once the first has been made. */
  lemma OppositeApplies(e: bool, a: Op, b: Op, s: Snapshot)
    requires Inv(s) && ForPermission(a) && ForPermission(b) && a.permission == b.permission && SameUser(a, b)
    requires a.PermissionGrant? != b.PermissionGrant? && b.principalType == USER_TYPE
    requires PermissionAnswer(a, s) == Applied
    ensures HasPermission(Effect(e, b, Effect(e, a, s)), b.user, b.permission) == b.PermissionGrant?
  {
    hide Inv, HasPermission, UserByID, SubjectsOf, Atoi, Write, EnableUsers, Target, PermissionAnswer;
    CompleteMeans(e, a, s);
    ChangeTakesEffect(e, a, s);
    PermissionAfter(s, a);
    EnablingKeepsSubjects(Write(a, s), Target(e, a, Answer(a, s)), a.permission);
    var s1 := Effect(e, a, s);
    SameUserSameSight(a, b, s1);
    OppositeAnswer(b, s1);
    ChangeTakesEffect(e, b, s1);
  }

  lemma SameUserSameSight(a: Op, b: Op, s: Snapshot)
    requires ForPermission(a) && ForPermission(b) && a.permission == b.permission && SameUser(a, b)
    ensures UserOf(s, b.user) == UserOf(s, a.user)
    ensures HasPermission(s, b.user, b.permission) == HasPermission(s, a.user, a.permission)
  {
    hide UserByID, DecodePermission, HasSubject, Atoi;
  }

  lemma OppositeAnswer(op: Op, s: Snapshot)
    requires ForPermission(op) && op.principalType == USER_TYPE
    requires UserOf(s, op.user).Some? && SubjectsOf(s, op.permission).Some?
    requires HasPermission(s, op.user, op.permission) == op.PermissionRevoke?
    ensures PermissionAnswer(op, s) == Applied
  {
    hide UserOf, DecodePermission, HasSubject, Atoi;
  }

  /** With nothing to do for the second operation, running it first only enables accounts. */
  lemma IdleThenWrite(e: bool, a: Op, b: Op, s: Snapshot) returns (ids: set<int>)
    requires Inv(s) && IsProvisioning(a) && IsProvisioning(b) && Write(b, s) == s
    ensures Effect(e, a, Effect(e, b, s)) == EnableUsers(Write(a, s), ids)
  {
    hide Inv, Write, EnableUsers, Answer, Target;
    var first := Target(e, b, Answer(b, s));
    var second := Target(e, a, Answer(a, Effect(e, b, s)));
    WriteCommutes(a, s, first);
    EnableTwice(Write(a, s), first, second);
    ids := first + second;
  }

  lemma OpposedIsIdle(a: Op, b: Op, s: Snapshot)
    requires ForPermission(a) && ForPermission(b) && a.permission == b.permission && SameUser(a, b)
    requires a.PermissionGrant? != b.PermissionGrant? && PermissionAnswer(a, s) == Applied
    ensures Write(b, s) == s
  {
    hide UserOf, SubjectsOf, HasPermission, PermissionWrite, Atoi;
    AppliedHasUser(a, s);
    SameUserSameSight(a, b, s);
  }

  /** A grant and a revoke of one permission for one user, of which one read the permission before the
      other's write and its user after it: it answers by the old reading and writes nothing, so that the
      state, up to enabled flags, is that of the other order, not of the order of the deciding requests. */
  lemma StaleReadingBreaksTheOrder(e: bool, a: Op, b: Op, s: Snapshot) returns (turns: seq<nat>)
    requires Inv(s) && ForPermission(a) && ForPermission(b) && a.permission == b.permission && SameUser(a, b)
    requires a.PermissionGrant? != b.PermissionGrant? && b.principalType == USER_TYPE
    requires PermissionAnswer(a, s) == Applied
    ensures Indices(turns, 2)
    ensures var end := After2(e, a, b, s, turns);
      && end.decided == [0, 1] && Decided(end.pcs[0]) && Promise(end.pcs[0]) == Applied
      && Decided(end.pcs[1]) && Promise(end.pcs[1]) == (if b.PermissionGrant? then AlreadyExists else AlreadyRevoked)
      && HasPermission(end.server, a.user, a.permission) == a.PermissionGrant?
    ensures HasPermission(InOrder(e, a, b, s), a.user, a.permission) == a.PermissionRevoke?
    ensures exists ids :: InOrder(e, b, a, s) == EnableUsers(After2(e, a, b, s, turns).server, ids)
  {
    hide Inv, PermissionAnswer, UserByID, SubjectsOf, PutPermission, HasPermission, Parse, Atoi, PermissionStart,
      PrincipalReadStep, EnableUsers, After2, Ready, ReadsTwice, Effect, PermissionWrite, InOrder;
    InOrderMeans(e, a, b, s);
    OppositeApplies(e, a, b, s);
    SameUserSameSight(a, b, Effect(e, b, Effect(e, a, s)));
    AppliedHasUser(a, s);
    SameUserSameSight(a, b, s);
    ReadyToPut(e, a, s);
    StartReads(b, s);
    turns := StaleIsInterleaving(e, a, b, s);
    var pcA := Ready(e, a, s);
    PermissionPutDecides(e, a, s, pcA.user, pcA.permission, true);
    PutPermissionKeepsInv(s, pcA.permission);
    PermissionAfter(s, a);
    SameUserSameSight(a, b, Write(a, s));
    StaleAnswer(e, b, SubjectsOf(s, b.permission).value, s, Write(a, s));
    OpposedIsIdle(a, b, s);
    InOrderMeans(e, b, a, s);
    var ids := IdleThenWrite(e, a, b, s);
  }

  lemma StartReads(op: Op, s: Snapshot)
    requires ForPermission(op) && op.principalType == USER_TYPE && SubjectsOf(s, op.permission).Some?
    ensures PermissionStart(op, s) == PrincipalRead(SubjectsOf(s, op.permission).value)
  {
    hide DecodePermission;
  }

  // ----- A role granted inside a revoke ---------------------------------------------------

  lemma ReadyToAssign(e: bool, op: Op, s: Snapshot)
    requires Inv(s) && op.RoleGrant? && RoleGrantAnswer(s, op.user, op.role) == Applied
    ensures ReadsTwice(e, op, s) && Ready(e, op, s).RolePut? && KnowsRole(op, Ready(e, op, s), s, true)
  {
    hide Inv, UserOf, GetUserDetails, GetUserRoleUuids, KnowsRole, Atoi, Itoa, EnableUsers, HoldsRole;
    GrantHasUser(s, op.user, op.role);
    RoleStartKnows(op, s, true);
    RoleReadDecides(e, op, s, Step(e, op, Start, s).1.user, true);
  }

  lemma GrantHasUser(s: Snapshot, user: string, role: string)
    requires RoleGrantAnswer(s, user, role) == Applied
    ensures UserOf(s, user).Some? && role in s.catalog.roles && !HoldsRole(s, user, role)
  {
    hide UserOf, Atoi;
  }

  /** Where a revoke of a role that the user holds stands after its two reads. */
  lemma ReadyToLookUp(e: bool, op: Op, s: Snapshot)
    requires Inv(s) && op.RoleRevoke? && HoldsRole(s, op.user, op.role)
    ensures ReadsTwice(e, op, s) && Ready(e, op, s).BasicLookup? && KnowsRole(op, Ready(e, op, s), s, true)
  {
    hide Inv, UserOf, GetUserDetails, GetUserRoleUuids, KnowsRole, Atoi, Itoa, EnableUsers;
    RoleStartKnows(op, s, true);
    HolderIsUser(s, op.user, op.role);
    RoleReadDecides(e, op, s, Step(e, op, Start, s).1.user, true);
  }

  lemma HolderIsUser(s: Snapshot, user: string, role: string)
    requires HoldsRole(s, user, role)
    ensures UserOf(s, user).Some? && RoleRevokeAnswer(s, user, role) != AlreadyRevoked
  {
    hide UserOf, Floor, Atoi;
  }

  lemma RevokeHasUser(s: Snapshot, user: string, role: string)
    requires RoleRevokeAnswer(s, user, role) == Applied
    ensures UserOf(s, user).Some? && HoldsRole(s, user, role)
    ensures Floor(s.catalog.roleList).Some? && Floor(s.catalog.roleList).value != role
  {
    hide UserOf, Floor, Atoi;
  }

  /** The second operation makes three reads, the first runs up to its write, and the second writes. */
  lemma InsideIsInterleaving(e: bool, a: Op, b: Op, s: Snapshot) returns (turns: seq<nat>)
    requires IsProvisioning(a) && IsProvisioning(b) && ReadsTwice(e, a, s) && ReadsTwice(e, b, s)
    requires Step(e, b, Ready(e, b, s), s).0 == s && !Decided(Step(e, b, Ready(e, b, s), s).1)
    ensures Indices(turns, 2)
    ensures var (s1, pcA) := Step(e, a, Ready(e, a, s), s);
      var (s2, pcB) := Step(e, b, Step(e, b, Ready(e, b, s), s).1, s1);
      Decided(pcA) && Decided(pcB) ==> After2(e, a, b, s, turns) == System(s2, [pcA, pcB], [0, 1])
  {
    hide Step, Fits, IsProvisioning, Interleave, WellFormed;
    turns := [1] + ([1] + ([1] + ([0] + ([0] + ([0] + ([1] + []))))));
    PairFits(a, b, s);
    StartFits(a);
    StartFits(b);
    var a1, a2 := Step(e, a, Start, s).1, Ready(e, a, s);
    var b1, b2 := Step(e, b, Start, s).1, Ready(e, b, s);
    var b3 := Step(e, b, b2, s).1;
    var (s1, pcA) := Step(e, a, a2, s);
    var (s2, pcB) := Step(e, b, b3, s1);
    SecondMoves(e, a, b, s, Start, Start, [], [1] + ([1] + ([0] + ([0] + ([0] + ([1] + []))))));
    SecondMoves(e, a, b, s, Start, b1, [], [1] + ([0] + ([0] + ([0] + ([1] + [])))));
    SecondMoves(e, a, b, s, Start, b2, [], [0] + ([0] + ([0] + ([1] + []))));
    FirstMoves(e, a, b, s, Start, b3, [], [0] + ([0] + ([1] + [])));
    FirstMoves(e, a, b, s, a1, b3, [], [0] + ([1] + []));
    FirstMoves(e, a, b, s, a2, b3, [], [1] + []);
    if Decided(pcA) && Decided(pcB) {
      var none: seq<nat> := [];
      assert none + [0] == [0] && [0] + [1] == [0, 1];
      SecondMoves(e, a, b, s1, pcA, b3, [0], []);
      NoTurns(e, [a, b], System(s2, [pcA, pcB], [0, 1]));
    }
  }

  /** The fallback PUT after a role has been granted leaves the fallback role alone. */
  lemma FallBackWrites(s: Snapshot, user: string, role: string, cu: ClientUser, basic: string)
    requires Inv(s) && UserOf(s, user).Some? && Describes(cu, s, user)
    requires Floor(s.catalog.roleList) == Some(basic) && role in s.catalog.roles
    ensures var s1 := Assign(s, user, role);
      var (s2, reply) := PutUserRole(s1, cu.uuid, basic);
      reply == Ok(()) && UserOf(s2, user).Some? && HoldsOnly(s2, user, basic)
  {
    hide Inv, UserOf, Floor, Assign, PutUserRole, Atoi, SamePeople;
    AssignChangesOneUser(s, user, role, user);
    StillDescribed(s, Assign(s, user, role), user, cu);
    AssignKeepsInv(s, user, role);
    FloorKnown(s);
    SameCatalogHere(s, Assign(s, user, role));
    RolePutReply(Assign(s, user, role), user, cu, basic);
    AssignedRole(Assign(s, user, role), user, basic);
  }

  lemma SameCatalogHere(s: Snapshot, s': Snapshot)
    requires SamePeople(s, s')
    ensures s'.catalog == s.catalog
  {}

  lemma StillDescribed(s: Snapshot, s': Snapshot, user: string, cu: ClientUser)
    requires SamePeople(s, s') && Describes(cu, s, user)
    ensures Describes(cu, s', user)
  {
    hide UserOf;
    SamePersonFound(s, s', user);
  }

  lemma AssignKeepsInv(s: Snapshot, user: string, role: string)
    requires Inv(s)
    ensures Inv(Assign(s, user, role))
  {
    hide Inv, UserOf, SetUserRoles;
    if UserOf(s, user).Some? { SetUserRolesKeepsInv(s, UserOf(s, user).value.uuid, [role]); }
  }

  lemma RolesAfterGrant(e: bool, s: Snapshot, user: string, role: string)
    requires Inv(s) && RoleGrantAnswer(s, user, role) == Applied
    ensures var s' := Effect(e, RoleGrant(user, role), s);
      && UserOf(s, user).Some? && UserOf(s', user).Some? && UserOf(s', user).value.uuid == UserOf(s, user).value.uuid
      && s'.catalog == s.catalog && Row(s'.userRoles, UserOf(s, user).value.uuid) == [role]
  {
    hide Inv, UserOf, Assign, Atoi, EnableUsers;
    AssignedRole(s, user, role);
    AssignKeepsUuid(s, user, role);
    EnabledUserOf(Assign(s, user, role), Target(e, RoleGrant(user, role), RoleGrantAnswer(s, user, role)), user);
    EnablingTouchesUsersOnly(Assign(s, user, role), Target(e, RoleGrant(user, role), RoleGrantAnswer(s, user, role)));
  }

  lemma EnablingTouchesUsersOnly(s: Snapshot, ids: set<int>)
    ensures EnableUsers(s, ids) == s.(users := EnableUsers(s, ids).users)
  {}

  /** A user may be named by any text that reads as its ID. */
  lemma SameSpelling(user: string, spelling: string)
    requires Atoi(user) == Atoi(spelling)
    ensures forall x: Snapshot :: UserOf(x, spelling) == UserOf(x, user)
  {
    hide Atoi, UserByID;
  }

  lemma SpellingOfRevoke(e: bool, s: Snapshot, user: string, spelling: string, role: string)
    requires Atoi(user) == Atoi(spelling)
    ensures Effect(e, RoleRevoke(spelling, role), s) == Effect(e, RoleRevoke(user, role), s)
  {
    hide Atoi, UserByID, Floor, SetUserRoles, EnableUsers;
    SameSpelling(user, spelling);
  }

  lemma RevokeAsSpelled(s: Snapshot, user: string, spelling: string, role: string)
    requires Atoi(user) == Atoi(spelling)
    ensures RoleRevokeAnswer(s, spelling, role) == RoleRevokeAnswer(s, user, role)
    ensures HoldsRole(s, spelling, role) == HoldsRole(s, user, role)
  {
    hide Atoi, UserByID, Floor;
    SameSpelling(user, spelling);
  }

  lemma LostInside(e: bool, grant: Op, revoke: Op, s: Snapshot) returns (turns: seq<nat>)
    requires Inv(s) && grant.RoleGrant? && revoke.RoleRevoke? && SameUser(grant, revoke)
    requires RoleGrantAnswer(s, grant.user, grant.role) == Applied
    requires RoleRevokeAnswer(s, revoke.user, revoke.role) == Applied
    ensures Indices(turns, 2) && Inv(After2(e, grant, revoke, s, turns).server)
    ensures var end := After2(e, grant, revoke, s, turns);
      && end.decided == [0, 1] && (forall i :: 0 <= i < 2 ==> Decided(end.pcs[i]) && Promise(end.pcs[i]) == Applied)
      && Floor(s.catalog.roleList).Some? && HoldsOnly(end.server, revoke.user, Floor(s.catalog.roleList).value)
  {
    hide Inv, UserOf, Floor, RoleRevokeAnswer, RoleGrantAnswer, After2, Ready, ReadsTwice, RoleReadStep, RoleStart,
      BasicLookupStep, PutUserRole, Assign, EnableUsers, Atoi, HoldsOnly, HoldsRole;
    SameSpelling(revoke.user, grant.user);
    AssignAsSpelled(s, revoke.user, grant.user, grant.role);
    RevokeHasUser(s, revoke.user, revoke.role);
    GrantHasUser(s, grant.user, grant.role);
    ReadyToAssign(e, grant, s);
    ReadyToLookUp(e, revoke, s);
    var pcA, pcB := Ready(e, grant, s), Ready(e, revoke, s);
    BasicLookupDecides(e, revoke, s, pcB.user, true);
    turns := InsideIsInterleaving(e, grant, revoke, s);
    RolePutDecides(e, grant, s, pcA.user, true);
    AssignKeepsInv(s, grant.user, grant.role);
    PutUserRoleKeepsInv(Assign(s, grant.user, grant.role), pcB.user.uuid, Floor(s.catalog.roleList).value);
    FallBackWrites(s, revoke.user, grant.role, pcB.user, Floor(s.catalog.roleList).value);
  }

  lemma AssignAsSpelled(s: Snapshot, user: string, spelling: string, role: string)
    requires Atoi(user) == Atoi(spelling)
    ensures Assign(s, spelling, role) == Assign(s, user, role)
  {
    hide Atoi, UserByID, SetUserRoles;
    SameSpelling(user, spelling);
  }

  /** A role granted between the reads and the write of a revoke is overwritten: both answer that they
      applied, yet the user is left with the fallback role alone. In either serial order the user would
      hold the granted role. */
  lemma GrantInsideRevokeIsLost(e: bool, grant: Op, revoke: Op, s: Snapshot) returns (turns: seq<nat>)
    requires Inv(s) && grant.RoleGrant? && revoke.RoleRevoke? && SameUser(grant, revoke)
    requires RoleGrantAnswer(s, grant.user, grant.role) == Applied
    requires RoleRevokeAnswer(s, revoke.user, revoke.role) == Applied
    requires Floor(s.catalog.roleList) != Some(grant.role)
    ensures Indices(turns, 2) && Inv(After2(e, grant, revoke, s, turns).server)
    ensures var end := After2(e, grant, revoke, s, turns);
      && end.decided == [0, 1] && (forall i :: 0 <= i < 2 ==> Decided(end.pcs[i]) && Promise(end.pcs[i]) == Applied)
      && Floor(s.catalog.roleList).Some? && HoldsOnly(end.server, revoke.user, Floor(s.catalog.roleList).value)
      && !HoldsRole(end.server, grant.user, grant.role)
    ensures HoldsRole(InOrder(e, grant, revoke, s), grant.user, grant.role)
    ensures HoldsRole(InOrder(e, revoke, grant, s), grant.user, grant.role)
  {
    hide Inv, Effect, UserOf, Floor, RoleRevokeAnswer, RoleGrantAnswer, After2, InOrder, Atoi, HoldsOnly, HoldsRole;
    turns := LostInside(e, grant, revoke, s);
    OnlyThatRole(After2(e, grant, revoke, s, turns).server, revoke.user, Floor(s.catalog.roleList).value, grant.role);
    RevokeAsSpelled(After2(e, grant, revoke, s, turns).server, grant.user, revoke.user, grant.role);
    RevokeAsSpelled(s, grant.user, revoke.user, revoke.role);
    KeptOutside(e, s, grant.user, revoke.role, grant.role);
    SpellingOfRevoke(e, s, grant.user, revoke.user, revoke.role);
    SpellingOfRevoke(e, Effect(e, grant, s), grant.user, revoke.user, revoke.role);
    InOrderMeans(e, grant, revoke, s);
    InOrderMeans(e, revoke, grant, s);
  }

  lemma OnlyThatRole(s: Snapshot, user: string, role: string, other: string)
    requires HoldsOnly(s, user, role) && role != other
    ensures !HoldsRole(s, user, other)
  {
    hide UserOf;
  }

  lemma KeptOutside(e: bool, s: Snapshot, user: string, role: string, other: string)
    requires Inv(s) && RoleRevokeAnswer(s, user, role) == Applied && RoleGrantAnswer(s, user, other) == Applied
    requires Floor(s.catalog.roleList) != Some(other)
    ensures HoldsRole(Effect(e, RoleGrant(user, other), Effect(e, RoleRevoke(user, role), s)), user, other)
    ensures HoldsRole(Effect(e, RoleRevoke(user, role), Effect(e, RoleGrant(user, other), s)), user, other)
  {
    hide Inv, UserOf, Floor, Assign, Atoi, EnableUsers;
    var grant, revoke := RoleGrant(user, other), RoleRevoke(user, role);
    RevokeHasUser(s, user, role);
    var basic := Floor(s.catalog.roleList).value;
    CompleteMeans(e, grant, s);
    CompleteMeans(e, revoke, s);
    RolesAfterGrant(e, s, user, other);
    EnableNone(Effect(e, grant, s));
    var fallen := Assign(s, user, basic);
    FloorKnown(s);
    AssignedRole(s, user, basic);
    EnableNone(fallen);
    RolesAfterGrant(e, fallen, user, other);
  }

  /** A revoke that cannot fall back, of which the lookup comes after a grant: it is refused, although
      by then, after the grant, the role is no longer held and there is nothing to revoke. */
  lemma RefusalComesLate(e: bool, grant: Op, revoke: Op, s: Snapshot) returns (turns: seq<nat>)
    requires Inv(s) && grant.RoleGrant? && revoke.RoleRevoke? && SameUser(grant, revoke)
    requires RoleGrantAnswer(s, grant.user, grant.role) == Applied
    requires HoldsRole(s, revoke.user, revoke.role) && RoleRevokeAnswer(s, revoke.user, revoke.role) != Applied
    ensures Indices(turns, 2)
    ensures var end := After2(e, grant, revoke, s, turns);
      && end.decided == [0, 1] && (forall i :: 0 <= i < 2 ==> Decided(end.pcs[i]))
      && Promise(end.pcs[0]) == Applied && Promise(end.pcs[1]) == RoleRevokeAnswer(s, revoke.user, revoke.role)
    ensures RoleRevokeAnswer(s, revoke.user, revoke.role).Failed?
    ensures Complete(e, revoke, Complete(e, grant, s).0).1 == AlreadyRevoked
  {
    hide Inv, Effect, UserOf, Floor, RoleGrantAnswer, RoleRevokeAnswer, After2, Complete, Ready, ReadsTwice,
      RoleReadStep, RoleStart, PutUserRole, Assign, EnableUsers, Atoi, GetRoles, FirstBasic, HoldsRole;
    GrantHasUser(s, grant.user, grant.role);
    HolderIsUser(s, revoke.user, revoke.role);
    RevokeAsSpelled(s, grant.user, revoke.user, revoke.role);
    ReadyToAssign(e, grant, s);
    ReadyToLookUp(e, revoke, s);
    var pcA, pcB := Ready(e, grant, s), Ready(e, revoke, s);
    turns := OverlapIsInterleaving(e, grant, revoke, s);
    RolePutDecides(e, grant, s, pcA.user, true);
    AssignKeepsCatalog(s, grant.user, grant.role);
    LookUpRefuses(s, Assign(s, grant.user, grant.role), revoke, pcB.user);
    RolesAfterGrant(e, s, grant.user, grant.role);
    CompleteMeans(e, grant, s);
    CompleteMeans(e, revoke, Effect(e, grant, s));
    NothingToRevoke(s, Effect(e, grant, s), grant, revoke);
  }

  lemma AssignKeepsCatalog(s: Snapshot, user: string, role: string)
    ensures Assign(s, user, role).catalog == s.catalog
  {
    hide UserOf, RoleRefs;
  }

  /** After the grant the revoked role is not held. */
  lemma NothingToRevoke(s: Snapshot, s': Snapshot, grant: Op, revoke: Op)
    requires grant.RoleGrant? && revoke.RoleRevoke? && Atoi(grant.user) == Atoi(revoke.user)
    requires HoldsRole(s, revoke.user, revoke.role) && !HoldsRole(s, grant.user, grant.role)
    requires HoldsOnly(s', grant.user, grant.role)
    ensures RoleRevokeAnswer(s', revoke.user, revoke.role) == AlreadyRevoked
  {
    hide UserByID, Floor, Atoi;
    SameSpelling(grant.user, revoke.user);
  }

  /** The lookup reads nothing but the catalog. */
  lemma LookUpRefuses(s: Snapshot, s': Snapshot, op: Op, cu: ClientUser)
    requires Inv(s) && op.RoleRevoke? && HoldsRole(s, op.user, op.role)
    requires s'.catalog == s.catalog
    requires RoleRevokeAnswer(s, op.user, op.role) != Applied
    ensures BasicLookupStep(op, cu, s') == Done(RoleRevokeAnswer(s, op.user, op.role))
    ensures RoleRevokeAnswer(s, op.user, op.role).Failed?
  {
    hide Inv, UserOf, Floor, FirstBasic, RoleRefs, Atoi;
    FloorRead(s);
  }

  // ----- Every clash is real --------------------------------------------------------------

  /** In this state both operations find something to do, the first at once. */
  predicate BothAct(a: Op, b: Op, s: Snapshot)
  {
    if BodyClash(a, b) then PermissionAnswer(a, s) == Applied && (SameUser(a, b) || PermissionAnswer(b, s) == Applied)
    else
      && a.RoleGrant? && b.RoleRevoke?
      && RoleGrantAnswer(s, a.user, a.role) == Applied && HoldsRole(s, b.user, b.role)
  }

  lemma PermissionTells(e: bool, a: Op, b: Op, s: Snapshot, sys: System, user: string, permission: string)
    requires WellFormed([a, b], sys) && sys.decided == [0, 1]
    requires HasPermission(sys.server, user, permission) != HasPermission(InOrder(e, a, b, s), user, permission)
    ensures !SerialSoFar(e, [a, b], s, sys)
  {
    hide HasPermission, Complete, EnableUsers, AllOwed, Truthful, InOrder, Serially;
    OrdersAreSerial(e, a, b, s);
    EnablingKeepsPermission(sys.server, AllOwed([a, b], sys.pcs), user, permission);
  }

  lemma EnablingKeepsHolding(s: Snapshot, ids: set<int>, user: string, role: string)
    ensures HoldsRole(EnableUsers(s, ids), user, role) == HoldsRole(s, user, role)
  {
    hide UserOf;
    EnabledUserOf(s, ids, user);
  }

  lemma RoleTells(e: bool, a: Op, b: Op, s: Snapshot, sys: System, user: string, role: string)
    requires WellFormed([a, b], sys) && sys.decided == [0, 1]
    requires HoldsRole(sys.server, user, role) != HoldsRole(InOrder(e, a, b, s), user, role)
    ensures !SerialSoFar(e, [a, b], s, sys)
  {
    hide HoldsRole, Complete, EnableUsers, AllOwed, Truthful, InOrder, Serially;
    OrdersAreSerial(e, a, b, s);
    EnablingKeepsHolding(sys.server, AllOwed([a, b], sys.pcs), user, role);
  }

  lemma AnswerTells(e: bool, a: Op, b: Op, s: Snapshot, sys: System)
    requires WellFormed([a, b], sys) && sys.decided == [0, 1] && Decided(sys.pcs[1])
    requires Promise(sys.pcs[1]).Failed? && !Complete(e, b, Complete(e, a, s).0).1.Failed?
    ensures !SerialSoFar(e, [a, b], s, sys)
  {
    hide Complete, EnableUsers, AllOwed, Explained;
    assert [0, 1][..1] == [0] && [0][..0] == [];
    assert Serially(e, [a, b], s, [0]) == Complete(e, a, s).0;
    assert sys.decided[..1] == [0] && sys.decided[1] == 1;
  }

  /** Every clash is real: two clashing operations that both find something to do have an interleaving
      whose state or answers are not those of the order of their deciding requests. */
  lemma ClashIsReal(e: bool, a: Op, b: Op, s: Snapshot) returns (turns: seq<nat>)
    requires Inv(s) && (FallbackClash(s.catalog, a, b) || BodyClash(a, b)) && BothAct(a, b, s)
    ensures Indices(turns, 2) && !SerialSoFar(e, [a, b], s, After2(e, a, b, s, turns))
  {
    hide Inv, PermissionAnswer, RoleGrantAnswer, RoleRevokeAnswer, HasPermission, HoldsRole, Complete, After2, InOrder,
      Atoi, SerialSoFar, Floor, WellFormed;
    if BodyClash(a, b) {
      if SameUser(a, b) {
        turns := StaleReadingBreaksTheOrder(e, a, b, s);
      } else {
        turns := OverlapLosesTheFirst(e, a, b, s);
      }
      PermissionTells(e, a, b, s, After2(e, a, b, s, turns), a.user, a.permission);
    } else if RoleRevokeAnswer(s, b.user, b.role) == Applied {
      turns := GrantInsideRevokeIsLost(e, a, b, s);
      RoleTells(e, a, b, s, After2(e, a, b, s, turns), a.user, a.role);
    } else {
      turns := RefusalComesLate(e, a, b, s);
      AnswerTells(e, a, b, s, After2(e, a, b, s, turns));
    }
  }
}
