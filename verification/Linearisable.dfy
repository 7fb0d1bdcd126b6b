/** Linearisability. An operation that answers by an old reading takes its place in the order when it
    reads and not when it answers. With that, the pairs of operations that the order of the deciding
    requests does not explain fall into two kinds: those that some order respecting real time still
    explains, and those that no order explains. */
module Linearisable {
  import opened Wrappers
  import opened Sequences
  import opened Text
  import opened Uuids
  import opened Directory
  import opened Invariants
  import opened Wire
  import opened Protocol
  import opened Reading
  import opened Meaning
  import opened Linearisation
  import opened Interference
  import opened Serial
  import opened Clashes

  // ----- When an answer is settled --------------------------------------------------------

  /** The permission was read with the change made already, and the user to be read next is there. */
  predicate Stale(op: Op, pc: Pc, s: Snapshot)
  {
    && ForPermission(op) && pc.PrincipalRead? && UserOf(s, op.user).Some?
    && HasSubject(pc.permission.subjects, UserOf(s, op.user).value.uuid) == op.PermissionGrant?
  }

  /** A revoke that cannot fall back: there is no fallback role, or it is the one to be revoked. */
  predicate NoWayBack(c: Catalog, op: Op)
  {
    op.RoleRevoke? && (Floor(c.roleList).None? || Floor(c.roleList) == Some(op.role))
  }

  /** The role was found held, and the lookup of a fallback is bound to refuse. */
  predicate Doomed(op: Op, pc: Pc, s: Snapshot)
  {
    pc.BasicLookup? && NoWayBack(s.catalog, op)
  }

  /** Where the operation stands, taken as decided as soon as its answer is settled. */
  function Bound(e: bool, op: Op, pc: Pc, s: Snapshot): (r: Pc)
    requires Fits(op, pc)
    ensures Fits(op, r)
  {
    if Stale(op, pc, s) then
      if op.PermissionRevoke? then Done(AlreadyRevoked)
      else if e then Enable(UserOf(s, op.user).value.id, AlreadyExists)
      else Done(AlreadyExists)
    else if Doomed(op, pc, s) then
      Done(Failed(if Floor(s.catalog.roleList).None? then NoBasicRole else BasicRoleIsFloor))
    else pc
  }

  lemma BoundKept(e: bool, op: Op, pc: Pc, s: Snapshot, s': Snapshot)
    requires Fits(op, pc) && SamePeople(s, s')
    ensures Bound(e, op, pc, s') == Bound(e, op, pc, s)
  {
    hide UserOf, HasSubject, Floor;
    if ForPermission(op) { SamePersonFound(s, s', op.user); }
  }

  lemma DecidedIsBound(e: bool, op: Op, pc: Pc, s: Snapshot)
    requires Fits(op, pc) && Decided(pc)
    ensures Bound(e, op, pc, s) == pc
  {}

  /** The step has only carried out what was settled before it. */
  predicate Follows(e: bool, op: Op, s: Snapshot, b: Pc, pc: Pc)
  {
    && Fits(op, b) && Fits(op, pc) && Decided(b) && Decided(pc) && Promise(pc) == Promise(b)
    && Settled(e, op, pc, s) && EnableUsers(s, Owed(op, pc)) == EnableUsers(s, Owed(op, b))
  }

  lemma StaleFollows(e: bool, op: Op, pc: Pc, s: Snapshot)
    requires Inv(s) && Fits(op, pc) && Stale(op, pc, s)
    ensures Follows(e, op, s, Bound(e, op, pc, s), PrincipalReadStep(e, op, pc.permission, s))
  {
    hide Inv, UserOf, GetUserDetails, DecodeUser, HasSubject, EnableUsers, Parse, Atoi;
    UserDetailsRead(s, op.user);
    var cu := GetUserDetails(s, op.user).value;
    DescribesSelf(s, op.user, cu);
    DescribedUser(s, op.user, cu);
    if op.PermissionGrant? { ReEnableSettles(e, op, cu, AlreadyExists, s); }
  }

  lemma DoomedFollows(e: bool, op: Op, pc: Pc, s: Snapshot)
    requires Inv(s) && Fits(op, pc) && Doomed(op, pc, s)
    ensures Follows(e, op, s, Bound(e, op, pc, s), BasicLookupStep(op, pc.user, s))
  {
    hide Inv, FirstBasic, Floor, GetRoles, EnableUsers;
    FloorRead(s);
  }

  lemma BoundFollows(e: bool, op: Op, pc: Pc, s: Snapshot)
    requires Inv(s) && Fits(op, pc) && Bound(e, op, pc, s) != pc
    ensures Step(e, op, pc, s).0 == s && Follows(e, op, s, Bound(e, op, pc, s), Step(e, op, pc, s).1)
  {
    hide Inv, Stale, Doomed, Follows, PrincipalReadStep, BasicLookupStep;
    if Stale(op, pc, s) { StaleFollows(e, op, pc, s); StaleReads(op, pc, s); } else
      { DoomedFollows(e, op, pc, s); DoomedLooks(op, pc, s); }
  }

  lemma StaleReads(op: Op, pc: Pc, s: Snapshot)
    requires Stale(op, pc, s)
    ensures pc.PrincipalRead?
  {}

  lemma DoomedLooks(op: Op, pc: Pc, s: Snapshot)
    requires Doomed(op, pc, s)
    ensures pc.BasicLookup?
  {}

  // ----- The request that settles the answer ----------------------------------------------

  lemma StaleAtOnce(e: bool, op: Op, s: Snapshot, exclusive: bool)
    requires Inv(s) && ForPermission(op) && Stale(op, PermissionStart(op, s), s)
    ensures Decides(e, op, s, Bound(e, op, PermissionStart(op, s), s), exclusive, s, PermissionAnswer(op, s))
    ensures PermissionAnswer(op, s) != Applied
  {
    hide Inv, UserOf, DecodePermission, EnableUsers, Atoi, HasSubject;
    UserOfFound(s, op.user);
  }

  lemma DoomedAtOnce(e: bool, op: Op, s: Snapshot, cu: ClientUser, exclusive: bool)
    requires Inv(s) && op.RoleRevoke? && Describes(cu, s, op.user) && Doomed(op, RoleReadStep(e, op, cu, s), s)
    ensures Decides(e, op, s, Bound(e, op, RoleReadStep(e, op, cu, s), s), exclusive, s,
                    RoleRevokeAnswer(s, op.user, op.role))
    ensures RoleRevokeAnswer(s, op.user, op.role).Failed?
  {
    hide Inv, UserOf, RoleReadStep, EnableUsers, Atoi, Floor, Describes;
    RoleReadDecides(e, op, s, cu, true);
    HolderIsUser(s, op.user, op.role);
  }

  /** Only the first request reads the permission, and only the reading of the roles leads to the lookup. */
  lemma ComesFrom(e: bool, op: Op, pc: Pc, s: Snapshot)
    requires Fits(op, pc) && IsProvisioning(op)
    ensures var pc' := Step(e, op, pc, s).1;
      && (pc'.PrincipalRead? ==> ForPermission(op) && pc == Start && pc' == PermissionStart(op, s))
      && (pc'.BasicLookup? ==> op.RoleRevoke? && pc.RoleRead? && pc' == RoleReadStep(e, op, pc.user, s))
      && (pc'.PrincipalRead? || pc'.BasicLookup? ==> Step(e, op, pc, s).0 == s)
  {
    hide GroupStart, GetUserDetails, PermissionStart, PrincipalReadStep, BasicLookupStep, RoleReadStep, MemberFetchStep,
      PostGroupMember, DeleteGroupMember, PutUserRole, PutPermission, PutUserEnabled, Itoa;
  }

  lemma SettlesAtOnce(e: bool, op: Op, pc: Pc, s: Snapshot, exclusive: bool)
    requires Inv(s) && IsProvisioning(op) && Fits(op, pc) && Knows(op, pc, s, exclusive)
    requires var (s', pc') := Step(e, op, pc, s); Bound(e, op, pc', s') != pc'
    ensures var (s', pc') := Step(e, op, pc, s);
      s' == s && !Decided(pc) && Decides(e, op, s, Bound(e, op, pc', s), exclusive, Write(op, s), Answer(op, s))
  {
    hide Inv, Step, Decides, PermissionStart, RoleReadStep, PermissionAnswer, RoleRevokeAnswer, Describes, UserOf,
      HasSubject, Floor;
    ComesFrom(e, op, pc, s);
    if pc == Start {
      StaleAtOnce(e, op, s, exclusive);
    } else {
      DoomedAtOnce(e, op, s, pc.user, exclusive);
    }
  }

  // ----- One request ----------------------------------------------------------------------

  lemma BoundStep(e: bool, op: Op, pc: Pc, s: Snapshot, exclusive: bool) returns (ids: set<int>)
    requires Inv(s) && IsProvisioning(op) && Fits(op, pc) && InStep(e, op, Bound(e, op, pc, s), s, exclusive)
    ensures var (s', pc') := Step(e, op, pc, s);
      var b, b' := Bound(e, op, pc, s), Bound(e, op, pc', s');
      && Inv(s') && InStep(e, op, b', s', exclusive) && Moved(op, s, s', ids) && s'.catalog == s.catalog
      && (Decided(b) ==> Decided(b') && Promise(b') == Promise(b))
  {
    hide Inv, Step, Bound, Knows, Settled, Write, Answer, EnableUsers, Owed, Decided, Promise, Fits;
    ids := {};
    var (s', pc') := Step(e, op, pc, s);
    if Bound(e, op, pc, s) != pc {
      BoundFollows(e, op, pc, s);
      DecidedIsBound(e, op, pc', s);
    } else {
      ids := StepMoves(e, op, pc, s, exclusive);
      if Decided(pc) {
        DecidedIsBound(e, op, pc', s');
      } else if Bound(e, op, pc', s') != pc' {
        SettlesAtOnce(e, op, pc, s, exclusive);
      }
    }
  }

  lemma BoundExplained(e: bool, op: Op, pc: Pc, s: Snapshot, exclusive: bool, others: set<int>)
    requires Inv(s) && IsProvisioning(op) && Fits(op, pc) && InStep(e, op, Bound(e, op, pc, s), s, exclusive)
    ensures var (s', pc') := Step(e, op, pc, s);
      Explains(e, op, s, Bound(e, op, pc, s), s', Bound(e, op, pc', s'), exclusive, others)
  {
    hide Inv, Step, Bound, Knows, Settled, Write, Answer, EnableUsers, Owed, Decided, Promise, Fits, Complete,
      AnswerExplained;
    var (s', pc') := Step(e, op, pc, s);
    if Bound(e, op, pc, s) != pc {
      BoundFollows(e, op, pc, s);
      DecidedIsBound(e, op, pc', s);
      SameDebt(op, s, Bound(e, op, pc, s), pc', others);
    } else if Bound(e, op, pc', s') == pc' {
      StepExplained(e, op, pc, s, exclusive, others);
    } else {
      if Decided(pc) {
        var ids := StepMoves(e, op, pc, s, exclusive);
        DecidedIsBound(e, op, pc', s');
      }
      SettlesAtOnce(e, op, pc, s, exclusive);
      UndecidedOwesNothing(op, pc);
      assert others + {} == others;
      DecisionExplained(e, op, s, others, s, Bound(e, op, pc', s), exclusive);
    }
  }

  lemma SameDebt(op: Op, s: Snapshot, b: Pc, pc: Pc, others: set<int>)
    requires Fits(op, b) && Fits(op, pc) && EnableUsers(s, Owed(op, pc)) == EnableUsers(s, Owed(op, b))
    ensures EnableUsers(s, others + Owed(op, pc)) == EnableUsers(s, others + Owed(op, b))
  {
    hide EnableUsers, Owed;
    EnableTwice(s, Owed(op, pc), others);
    EnableTwice(s, Owed(op, b), others);
    assert others + Owed(op, b) == Owed(op, b) + others;
    assert others + Owed(op, pc) == Owed(op, pc) + others;
  }

  // ----- Clashes that an order explains, and clashes that none does -------------------------

  /** No order explains these: a role granted while a revoke with a fallback is under way, and changes to
      one permission for two users. */
  predicate HardClash(c: Catalog, a: Op, b: Op)
  {
    || (FallbackClash(c, a, b) && !NoWayBack(c, b))
    || (FallbackClash(c, b, a) && !NoWayBack(c, a))
    || (BodyClash(a, b) && !SameUser(a, b))
  }

  /** No two operations clash in that way, and beside a grant and a revoke of one permission for one user
      there is no further one of either kind. */
  predicate Orderly(c: Catalog, ops: seq<Op>)
  {
    forall i, j :: 0 <= i < |ops| && 0 <= j < |ops| && i != j ==>
      !HardClash(c, ops[i], ops[j]) && (BodyClash(ops[i], ops[j]) ==> Alone(ops, i))
  }

  lemma MoveKeepsPeople(op: Op, s: Snapshot, s': Snapshot, ids: set<int>)
    requires Inv(s) && IsProvisioning(op) && Moved(op, s, s', ids)
    ensures SamePeople(s, s')
  {
    hide Inv, Write, EnableUsers, SamePeople, Atoi, Floor;
    NobodyMoved(s);
    EnablingKeepsPeople(s, ids);
    WriteIsHarmless(op, s, op, false);
    UntouchedPeople(op, s, Write(op, s), false);
  }

  /** While one of two opposite changes is under way and still to be made, the other has nothing to do. */
  lemma UnderWayBlocks(op: Op, pc: Pc, s: Snapshot, other: Op)
    requires Fits(op, pc) && BodyClash(op, other) && SameUser(op, other) && KnowsPermission(op, pc, s, true)
    requires pc != Start && !Decided(pc) && !Stale(op, pc, s)
    ensures Write(other, s) == s
  {
    hide UserOf, SubjectsOf, HasSubject, PermissionWrite, Atoi, Parse, Revised, HasPermission, Describes;
    SameUserSameSight(op, other, s);
    if UserOf(s, op.user).Some? {
      HasMeans(s, op.user, op.permission);
      OppositeAnswer(op, s);
      OpposedIsIdle(op, other, s);
    } else {
      NobodyToChange(other, s);
    }
  }

  lemma NobodyToChange(op: Op, s: Snapshot)
    requires ForPermission(op) && UserOf(s, op.user).None?
    ensures Write(op, s) == s
  {
    hide UserOf, SubjectsOf;
  }

  lemma NoWayBackIsIdle(op: Op, s: Snapshot)
    requires NoWayBack(s.catalog, op)
    ensures Write(op, s) == s
  {
    hide UserOf, Floor, Assign;
  }

  /** A revoke without a fallback has learnt its user and nothing else until its answer is settled. */
  lemma NoWayBackKnows(e: bool, op: Op, pc: Pc, s: Snapshot, s': Snapshot, exclusive: bool)
    requires Fits(op, pc) && !Decided(pc) && Bound(e, op, pc, s) == pc
    requires NoWayBack(s.catalog, op) && SamePeople(s, s') && KnowsRole(op, pc, s, exclusive)
    ensures KnowsRole(op, pc, s', exclusive)
  {
    hide Floor, Describes, SamePeople, HoldsRole, HoldsOnly;
    if pc.RoleRead? { StillDescribed(s, s', op.user, pc.user); }
  }

  lemma SoftWriteIsHarmless(e: bool, op: Op, pc: Pc, s: Snapshot, exclusive: bool, other: Op)
    requires Inv(s) && IsProvisioning(op) && IsProvisioning(other) && Fits(op, pc) && !Decided(pc)
    requires Bound(e, op, pc, s) == pc && Knows(op, pc, s, exclusive)
    requires Clash(s.catalog, op, other) && !HardClash(s.catalog, op, other) && (BodyClash(op, other) ==> exclusive)
    requires SamePeople(s, Write(other, s))
    ensures Knows(op, pc, Write(other, s), exclusive)
  {
    hide Inv, Write, KnowsPermission, KnowsRole, SamePeople, NoWayBack, Atoi, Floor;
    if pc == Start {
      StartKnows(op, Write(other, s), exclusive);
    } else if BodyClash(op, other) {
      NotStale(e, op, pc, s);
      UnderWayBlocks(op, pc, s, other);
    } else if op.RoleGrant? {
      NoWayBackIsIdle(other, s);
    } else {
      NoWayBackKnows(e, op, pc, s, Write(other, s), exclusive);
    }
  }

  lemma NotStale(e: bool, op: Op, pc: Pc, s: Snapshot)
    requires Fits(op, pc) && Bound(e, op, pc, s) == pc && !Decided(pc)
    ensures !Stale(op, pc, s)
  {
    hide Stale, Floor;
  }

  lemma OtherStaysBound(e: bool, op: Op, pc: Pc, s: Snapshot, s': Snapshot, exclusive: bool, other: Op, ids: set<int>)
    requires Inv(s) && IsProvisioning(op) && Fits(op, pc) && InStep(e, op, Bound(e, op, pc, s), s, exclusive)
    requires IsProvisioning(other) && Moved(other, s, s', ids) && !HardClash(s.catalog, op, other)
    requires (exclusive ==> !SameChange(op, other)) && (BodyClash(op, other) ==> exclusive)
    ensures InStep(e, op, Bound(e, op, pc, s'), s', exclusive)
  {
    hide Inv, Write, EnableUsers, Knows, Settled, SamePeople, Untouched, Clash, HardClash, SameChange, IsProvisioning,
      Fits, Decided, Bound, BodyClash;
    MoveKeepsPeople(other, s, s', ids);
    BoundKept(e, op, pc, s, s');
    var b := Bound(e, op, pc, s);
    if !Clash(s.catalog, op, other) {
      OtherStaysInStep(e, op, b, s, s', exclusive, other, ids);
    } else if Decided(b) {
      SettlementSurvives(e, op, b, s, s');
    } else if s' == EnableUsers(s, ids) {
      EnablingIsHarmless(op, s, ids, exclusive);
      KnowledgeSurvives(op, b, s, s', exclusive);
    } else if s' != s {
      UndecidedBound(e, op, pc, s);
      SoftWriteIsHarmless(e, op, pc, s, exclusive, other);
    }
  }

  lemma UndecidedBound(e: bool, op: Op, pc: Pc, s: Snapshot)
    requires Fits(op, pc) && !Decided(Bound(e, op, pc, s))
    ensures Bound(e, op, pc, s) == pc && !Decided(pc)
  {
    hide Stale, Doomed, Floor;
  }

  // ----- Interleavings --------------------------------------------------------------------

  /** The system with every operation taken as decided as soon as its answer is settled. */
  function Settling(e: bool, ops: seq<Op>, sys: System, order: seq<nat>): (r: System)
    requires WellFormed(ops, sys)
    ensures WellFormed(ops, r)
  {
    System(sys.server, seq(|ops|, i requires 0 <= i < |ops| => Bound(e, ops[i], sys.pcs[i], sys.server)), order)
  }

  /** The operations whose answers are settled, in the order in which that happened, after one more turn. */
  function Placed(e: bool, ops: seq<Op>, sys: System, i: nat, order: seq<nat>): seq<nat>
    requires WellFormed(ops, sys) && i < |ops|
  {
    var next := Turn(e, ops, sys, i);
    if Decided(Bound(e, ops[i], next.pcs[i], next.server)) && !Decided(Bound(e, ops[i], sys.pcs[i], sys.server))
    then order + [i] else order
  }

  /** The order at the end of an interleaving. */
  function Order(e: bool, ops: seq<Op>, sys: System, order: seq<nat>, turns: seq<nat>): seq<nat>
    requires WellFormed(ops, sys) && Indices(turns, |ops|)
    decreases |turns|
  {
    if turns == [] then order
    else Order(e, ops, Turn(e, ops, sys, turns[0]), Placed(e, ops, sys, turns[0], order), turns[1..])
  }

  lemma TurnKeepsBounds(e: bool, ops: seq<Op>, sys: System, i: nat, order: seq<nat>)
    requires WellFormed(ops, sys) && i < |ops| && Orderly(sys.server.catalog, ops)
    requires Inv(sys.server) && AllInStep(e, ops, Settling(e, ops, sys, order))
    ensures var next := Turn(e, ops, sys, i);
      var b := Bound(e, ops[i], next.pcs[i], next.server);
      && Settling(e, ops, next, Placed(e, ops, sys, i, order))
         == Advance(Settling(e, ops, sys, order), i, next.server, b)
      && Inv(next.server) && AllInStep(e, ops, Settling(e, ops, next, Placed(e, ops, sys, i, order)))
      && next.server.catalog == sys.server.catalog
      && (Decided(Settling(e, ops, sys, order).pcs[i]) ==>
            Decided(b) && Promise(b) == Promise(Settling(e, ops, sys, order).pcs[i]))
  {
    hide Inv, Step, InStep, Bound, Write, EnableUsers, HardClash, BodyClash, SameChange, Fits, IsProvisioning, Decided,
      Promise, Moved, SamePeople;
    var before, next := Settling(e, ops, sys, order), Turn(e, ops, sys, i);
    assert forall j :: 0 <= j < |ops| ==> InStep(e, ops[j], before.pcs[j], sys.server, Alone(ops, j));
    var ids := BoundStep(e, ops[i], sys.pcs[i], sys.server, Alone(ops, i));
    MoveKeepsPeople(ops[i], sys.server, next.server, ids);
    forall j | 0 <= j < |ops|
      ensures InStep(e, ops[j], Bound(e, ops[j], next.pcs[j], next.server), next.server, Alone(ops, j))
      ensures j != i ==> Bound(e, ops[j], next.pcs[j], next.server) == before.pcs[j]
    {
      if j != i {
        OtherStaysBound(e, ops[j], sys.pcs[j], sys.server, next.server, Alone(ops, j), ops[i], ids);
        BoundKept(e, ops[j], sys.pcs[j], sys.server, next.server);
      }
    }
  }

  lemma TurnKeepsSettling(e: bool, ops: seq<Op>, s: Snapshot, sys: System, i: nat, order: seq<nat>)
    requires WellFormed(ops, sys) && i < |ops| && Orderly(sys.server.catalog, ops)
    requires Coherent(e, ops, s, Settling(e, ops, sys, order))
    ensures Coherent(e, ops, s, Settling(e, ops, Turn(e, ops, sys, i), Placed(e, ops, sys, i, order)))
    ensures Turn(e, ops, sys, i).server.catalog == sys.server.catalog
    ensures order <= Placed(e, ops, sys, i, order)
  {
    hide Inv, Step, InStep, Bound, Recorded, Explained, Truthful, Explains, Fits, IsProvisioning, Decided, Alone,
      Promise, Orderly;
    TurnKeepsBounds(e, ops, sys, i, order);
    var before, next := Settling(e, ops, sys, order), Turn(e, ops, sys, i);
    var b := Bound(e, ops[i], next.pcs[i], next.server);
    forall others
      ensures Explains(e, ops[i], sys.server, before.pcs[i], next.server, b, Alone(ops, i), others)
    {
      assert InStep(e, ops[i], before.pcs[i], sys.server, Alone(ops, i));
      BoundExplained(e, ops[i], sys.pcs[i], sys.server, Alone(ops, i), others);
    }
    AdvanceKeepsCoherent(e, ops, s, before, i, next.server, b);
  }

  lemma {:induction false} InterleavingSettles(e: bool, ops: seq<Op>, s: Snapshot, sys: System, order: seq<nat>,
      turns: seq<nat>)
    requires WellFormed(ops, sys) && Orderly(sys.server.catalog, ops) && Indices(turns, |ops|)
    requires Coherent(e, ops, s, Settling(e, ops, sys, order))
    ensures var end := Interleave(e, ops, sys, turns);
      Coherent(e, ops, s, Settling(e, ops, end, Order(e, ops, sys, order, turns)))
      && end.server.catalog == sys.server.catalog
    ensures order <= Order(e, ops, sys, order, turns)
    decreases |turns|
  {
    hide Coherent, Settling, Turn, Placed, WellFormed, Orderly;
    if turns != [] {
      TurnKeepsSettling(e, ops, s, sys, turns[0], order);
      InterleavingSettles(e, ops, s, Turn(e, ops, sys, turns[0]), Placed(e, ops, sys, turns[0], order), turns[1..]);
    }
  }

  lemma StartsSettling(e: bool, ops: seq<Op>, s: Snapshot)
    requires Inv(s) && forall i :: 0 <= i < |ops| ==> IsProvisioning(ops[i])
    ensures WellFormed(ops, Initially(s, ops)) && Coherent(e, ops, s, Settling(e, ops, Initially(s, ops), []))
  {
    hide Inv, AllInStep, Recorded, Explained, Truthful, IsProvisioning;
    StartsCoherent(e, ops, s);
    assert Settling(e, ops, Initially(s, ops), []).pcs == Initially(s, ops).pcs;
    assert Settling(e, ops, Initially(s, ops), []) == Initially(s, ops);
  }

  /** Linearisability. Take any provisioning operations of which no two clash hard, and any interleaving
      of their requests. Once all are done, the server is exactly as after running them one at a time in
      the order in which their answers were settled; each stands in that order once; and each gives the
      answer it gives in that run, if no other may make its change for it. */
  lemma Linearisability(e: bool, ops: seq<Op>, s: Snapshot, turns: seq<nat>)
    requires Inv(s) && Orderly(s.catalog, ops) && Indices(turns, |ops|)
    requires forall i :: 0 <= i < |ops| ==> IsProvisioning(ops[i])
    ensures WellFormed(ops, Initially(s, ops))
    ensures var end, order := Interleave(e, ops, Initially(s, ops), turns), Order(e, ops, Initially(s, ops), [], turns);
      AllDone(end) ==>
        && Indices(order, |ops|) && end.server == Serially(e, ops, s, order)
        && NoDuplicates(order) && (forall i: nat :: i in order <==> i < |ops|)
        && forall k :: 0 <= k < |order| ==>
             AnswerExplained(end.pcs[order[k]].outcome,
                 Complete(e, ops[order[k]], Serially(e, ops, s, order[..k])).1, Alone(ops, order[k]))
  {
    hide Inv, EnableUsers, Complete, Interleave, Order, Alone, AllInStep, AllOwed, AllDone, Fits, IsProvisioning,
      Orderly, Bound;
    StartsSettling(e, ops, s);
    InterleavingSettles(e, ops, s, Initially(s, ops), [], turns);
    var end, order := Interleave(e, ops, Initially(s, ops), turns), Order(e, ops, Initially(s, ops), [], turns);
    if AllDone(end) {
      DoneIsSettled(e, ops, end, order);
      FinishedOwesNothing(ops, Settling(e, ops, end, order));
      EnableNone(end.server);
    }
  }

  lemma DoneIsSettled(e: bool, ops: seq<Op>, sys: System, order: seq<nat>)
    requires WellFormed(ops, sys) && AllDone(sys)
    ensures Settling(e, ops, sys, order).pcs == sys.pcs && AllDone(Settling(e, ops, sys, order))
  {
    hide Bound, Fits;
    forall i | 0 <= i < |ops|
      ensures Bound(e, ops[i], sys.pcs[i], sys.server) == sys.pcs[i]
    {
      DecidedIsBound(e, ops[i], sys.pcs[i], sys.server);
    }
  }

  lemma {:induction false} OrderInParts(e: bool, ops: seq<Op>, sys: System, order: seq<nat>, before: seq<nat>,
      after: seq<nat>)
    requires WellFormed(ops, sys) && Indices(before, |ops|) && Indices(after, |ops|)
    ensures Order(e, ops, sys, order, before + after)
         == Order(e, ops, Interleave(e, ops, sys, before), Order(e, ops, sys, order, before), after)
    decreases |before|
  {
    hide Turn, WellFormed, Placed;
    if before == [] {
      assert before + after == after;
    } else {
      assert (before + after)[1..] == before[1..] + after;
      OrderInParts(e, ops, Turn(e, ops, sys, before[0]), Placed(e, ops, sys, before[0], order), before[1..], after);
    }
  }

  /** That order respects real time: an operation that was done before another made its first request
      comes before it. */
  lemma LinearOrderRespectsTime(e: bool, ops: seq<Op>, s: Snapshot, before: seq<nat>, after: seq<nat>, a: nat, b: nat,
      p: nat, q: nat)
    requires Inv(s) && Orderly(s.catalog, ops) && Indices(before, |ops|) && Indices(after, |ops|)
    requires (forall i :: 0 <= i < |ops| ==> IsProvisioning(ops[i])) && a < |ops| && b < |ops|
    requires var midway := Interleave(e, ops, Initially(s, ops), before); midway.pcs[a].Done? && midway.pcs[b] == Start
    requires var order := Order(e, ops, Initially(s, ops), [], before + after);
      p < |order| && q < |order| && order[p] == a && order[q] == b
    ensures p < q
  {
    hide Inv, Interleave, Order, AllInStep, Explained, Truthful, Orderly, Bound;
    StartsSettling(e, ops, s);
    InterleavingSettles(e, ops, s, Initially(s, ops), [], before);
    var midway, part := Interleave(e, ops, Initially(s, ops), before), Order(e, ops, Initially(s, ops), [], before);
    InterleavingSettles(e, ops, s, midway, part, after);
    OrderInParts(e, ops, Initially(s, ops), [], before, after);
    var end, order := Interleave(e, ops, midway, after), Order(e, ops, midway, part, after);
    DecidedIsBound(e, ops[a], midway.pcs[a], midway.server);
    StartIsUnbound(e, ops[b], midway.server);
    var k :| 0 <= k < |part| && part[k] == a;
    assert order[k] == a && k == p;
    assert b !in part;
    assert forall m :: 0 <= m < |part| ==> order[m] == part[m];
  }

  lemma StartIsUnbound(e: bool, op: Op, s: Snapshot)
    ensures Fits(op, Start) && !Decided(Bound(e, op, Start, s))
  {}
}
