/** Many operations at once, their requests interleaved in any way. Every interleaving ends in the
    state of running the operations one after another, in the order of their deciding requests. */
module Serial {
  import opened Sequences
  import opened Directory
  import opened Invariants
  import opened Protocol
  import opened Meaning
  import opened Linearisation
  import opened Commutation
  import opened Interference
  import opened Retry

  // ----- Interleaved executions -----------------------------------------------------------

  /** The server, where each operation stands, and the operations that have decided, in that order. */
  datatype System = System(server: Snapshot, pcs: seq<Pc>, decided: seq<nat>)

  predicate WellFormed(ops: seq<Op>, sys: System)
  {
    && |sys.pcs| == |ops|
    && forall i :: 0 <= i < |ops| ==> IsProvisioning(ops[i]) && Fits(ops[i], sys.pcs[i])
  }

  /** Operation i has got on from where it stood, and the server with it. */
  function Advance(sys: System, i: nat, s': Snapshot, pc': Pc): System
    requires i < |sys.pcs|
  {
    System(s', sys.pcs[i := pc'], if Decided(pc') && !Decided(sys.pcs[i]) then sys.decided + [i] else sys.decided)
  }

  /** Operation i makes its next request. */
  function Turn(e: bool, ops: seq<Op>, sys: System, i: nat): (r: System)
    requires WellFormed(ops, sys) && i < |ops|
    ensures WellFormed(ops, r)
  {
    var (s', pc') := Step(e, ops[i], sys.pcs[i], sys.server);
    Advance(sys, i, s', pc')
  }

  predicate Indices(order: seq<nat>, n: nat)
  {
    forall k :: 0 <= k < |order| ==> order[k] < n
  }

  function Interleave(e: bool, ops: seq<Op>, sys: System, turns: seq<nat>): (r: System)
    requires WellFormed(ops, sys) && Indices(turns, |ops|)
    ensures WellFormed(ops, r)
    decreases |turns|
  {
    if turns == [] then sys else Interleave(e, ops, Turn(e, ops, sys, turns[0]), turns[1..])
  }

  function Initially(s: Snapshot, ops: seq<Op>): System
  {
    System(s, seq(|ops|, i => Start), [])
  }

  /** The operations run one at a time, each uninterrupted, in the given order. */
  function Serially(e: bool, ops: seq<Op>, s: Snapshot, order: seq<nat>): Snapshot
    requires Indices(order, |ops|)
    decreases |order|
  {
    if order == [] then s
    else Complete(e, ops[order[|order| - 1]], Serially(e, ops, s, order[..|order| - 1])).0
  }

  /** Six turns in a row take an operation to its end, from wherever it stood. */
  lemma {:induction false} TurnsComplete(e: bool, ops: seq<Op>, sys: System, i: nat, k: nat)
    requires WellFormed(ops, sys) && i < |ops| && Rank(sys.pcs[i]) <= k
    ensures var end := Interleave(e, ops, sys, seq(k, _ => i));
      var (s', outcome) := Resume(e, ops[i], sys.pcs[i], sys.server);
      end.server == s' && end.pcs == sys.pcs[i := Done(outcome)]
    decreases k
  {
    hide Step, Fits, IsProvisioning;
    var turns := seq(k, _ => i);
    if k == 0 {
      assert sys.pcs[i := sys.pcs[i]] == sys.pcs;
    } else {
      assert turns[1..] == seq(k - 1, _ => i);
      if sys.pcs[i].Done? { DoneIsStill(e, ops[i], sys.pcs[i], sys.server); }
      TurnsComplete(e, ops, Turn(e, ops, sys, i), i, k - 1);
    }
  }

  // ----- The invariant of an interleaved execution ----------------------------------------

  predicate NoClash(c: Catalog, ops: seq<Op>)
  {
    forall i, j :: 0 <= i < |ops| && 0 <= j < |ops| && i != j ==> !Clash(c, ops[i], ops[j])
  }

  /** Nobody else works on the same membership. */
  predicate Alone(ops: seq<Op>, i: nat)
    requires i < |ops|
  {
    forall j :: 0 <= j < |ops| && j != i ==> !SameChange(ops[i], ops[j])
  }

  function AllOwed(ops: seq<Op>, pcs: seq<Pc>): (ids: set<int>)
    requires |ops| == |pcs| && forall i :: 0 <= i < |ops| ==> Fits(ops[i], pcs[i])
    ensures forall id :: id in ids <==> exists i :: 0 <= i < |pcs| && id in Owed(ops[i], pcs[i])
  {
    if pcs == [] then {}
    else
      var ids := AllOwed(ops[1..], pcs[1..]) + Owed(ops[0], pcs[0]);
      assert forall i :: 1 <= i < |pcs| ==> ops[i] == ops[1..][i - 1] && pcs[i] == pcs[1..][i - 1];
      ids
  }

  /** What one operation knows, or needs. */
  predicate InStep(e: bool, op: Op, pc: Pc, s: Snapshot, exclusive: bool)
    requires IsProvisioning(op) && Fits(op, pc)
  {
    if Decided(pc) then Settled(e, op, pc, s) else Knows(op, pc, s, exclusive)
  }

  predicate AllInStep(e: bool, ops: seq<Op>, sys: System)
    requires WellFormed(ops, sys)
  {
    forall i :: 0 <= i < |ops| ==> InStep(e, ops[i], sys.pcs[i], sys.server, Alone(ops, i))
  }

  /** The order lists exactly the operations that have decided, once each. */
  ghost predicate Recorded(sys: System)
  {
    && NoDuplicates(sys.decided)
    && forall i: nat :: i in sys.decided <==> i < |sys.pcs| && Decided(sys.pcs[i])
  }

  /** The answer given is the one of the serial run; when others work on the same membership it is
      at least a success where that is a success, and a failure where that is a failure. */
  predicate AnswerExplained(given: Outcome, serial: Outcome, alone: bool)
  {
    && (given.Failed? <==> serial.Failed?)
    && (alone ==> given == serial)
  }

  predicate Truthful(e: bool, ops: seq<Op>, s: Snapshot, sys: System)
    requires WellFormed(ops, sys)
  {
    && Indices(sys.decided, |ops|)
    && forall k :: 0 <= k < |sys.decided| ==>
         && Decided(sys.pcs[sys.decided[k]])
         && AnswerExplained(Promise(sys.pcs[sys.decided[k]]),
                            Complete(e, ops[sys.decided[k]], Serially(e, ops, s, sys.decided[..k])).1,
                            Alone(ops, sys.decided[k]))
  }

  predicate Explained(e: bool, ops: seq<Op>, s: Snapshot, sys: System)
    requires WellFormed(ops, sys) && Indices(sys.decided, |ops|)
  {
    EnableUsers(sys.server, AllOwed(ops, sys.pcs)) == Serially(e, ops, s, sys.decided)
  }

  /** The state and the answers so far are those of a serial run in the order of the deciding requests. */
  ghost predicate SerialSoFar(e: bool, ops: seq<Op>, s: Snapshot, sys: System)
    requires WellFormed(ops, sys)
  {
    Indices(sys.decided, |ops|) && Explained(e, ops, s, sys) && Truthful(e, ops, s, sys)
  }

  ghost predicate Coherent(e: bool, ops: seq<Op>, s: Snapshot, sys: System)
  {
    && WellFormed(ops, sys) && Indices(sys.decided, |ops|)
    && Inv(sys.server)
    && AllInStep(e, ops, sys)
    && Recorded(sys)
    && Explained(e, ops, s, sys)
    && Truthful(e, ops, s, sys)
  }

  // ----- One operation among others -------------------------------------------------------

  /** A deciding request has the effect of the whole operation on the server as it will be once
      everything owed has been re-enabled. */
  lemma DecisionExplained(e: bool, op: Op, s: Snapshot, others: set<int>, s': Snapshot, pc: Pc, exclusive: bool)
    requires Inv(s) && IsProvisioning(op) && Decides(e, op, s', pc, exclusive, Write(op, s), Answer(op, s))
    ensures Complete(e, op, EnableUsers(s, others)).0 == EnableUsers(s', others + Owed(op, pc))
    ensures AnswerExplained(Promise(pc), Complete(e, op, EnableUsers(s, others)).1, exclusive)
  {
    hide Inv, Complete, EnableUsers, Write, Answer, Target, Owed, Settled;
    var target := Target(e, op, Answer(op, s));
    EnablingKeepsInv(s, others);
    CompleteMeans(e, op, EnableUsers(s, others));
    WriteCommutes(op, s, others);
    AnswerIgnoresEnabling(op, s, others);
    EnableTwice(s', others, target);
    EnableTwice(s', target, others);
    assert others + target == target + others;
    EnableTwice(s', Owed(op, pc), others);
    assert others + Owed(op, pc) == Owed(op, pc) + others;
  }

  lemma FollowUpExplained(e: bool, op: Op, pc: Pc, s: Snapshot, others: set<int>)
    requires Inv(s) && IsProvisioning(op) && Fits(op, pc) && Decided(pc) && Settled(e, op, pc, s)
    ensures var (s', pc') := Step(e, op, pc, s);
      EnableUsers(s', others + Owed(op, pc')) == EnableUsers(s, others + Owed(op, pc))
  {
    hide Inv, Step, EnableUsers, Owed, Settled;
    DecidedStep(e, op, pc, s);
    var (s', pc') := Step(e, op, pc, s);
    EnableTwice(s', Owed(op, pc'), others);
    EnableTwice(s, Owed(op, pc), others);
    assert others + Owed(op, pc) == Owed(op, pc) + others;
    assert others + Owed(op, pc') == Owed(op, pc') + others;
  }

  lemma OwedSplit(ops: seq<Op>, pcs: seq<Pc>, i: nat)
    requires |ops| == |pcs| && (forall k :: 0 <= k < |ops| ==> Fits(ops[k], pcs[k])) && i < |ops|
    ensures AllOwed(ops, pcs) == AllOwed(ops, pcs[i := Done(Applied)]) + Owed(ops[i], pcs[i])
  {
    hide Fits;
    DoneFits(ops[i]);
    var rest := pcs[i := Done(Applied)];
    assert forall k :: 0 <= k < |pcs| && k != i ==> rest[k] == pcs[k];
    assert rest[i] == Done(Applied) && Owed(ops[i], Done(Applied)) == {};
  }

  lemma DoneFits(op: Op)
    ensures Fits(op, Done(Applied))
  {}

  lemma UndecidedOwesNothing(op: Op, pc: Pc)
    requires Fits(op, pc) && !Decided(pc)
    ensures Owed(op, pc) == {}
  {}

  // ----- One turn -------------------------------------------------------------------------

  /** The server after one request, seen from outside: nothing, the operation's write, or accounts enabled. */
  predicate Moved(op: Op, s: Snapshot, s': Snapshot, ids: set<int>)
    requires IsProvisioning(op)
  {
    s' == s || s' == Write(op, s) || s' == EnableUsers(s, ids)
  }

  lemma MoveIsHarmless(op: Op, s: Snapshot, s': Snapshot, exclusive: bool, other: Op, ids: set<int>)
    requires Inv(s) && IsProvisioning(op) && IsProvisioning(other) && Moved(other, s, s', ids)
    requires !Clash(s.catalog, op, other) && (exclusive ==> !SameChange(op, other)) && s' != s
    ensures Untouched(op, s, s', exclusive)
  {
    hide Inv, Write, EnableUsers, Untouched, Clash, SameChange;
    if s' == Write(other, s) { WriteIsHarmless(op, s, other, exclusive); } else
      { EnablingIsHarmless(op, s, ids, exclusive); }
  }

  lemma OtherStaysInStep(e: bool, op: Op, pc: Pc, s: Snapshot, s': Snapshot, exclusive: bool, other: Op, ids: set<int>)
    requires Inv(s) && IsProvisioning(op) && Fits(op, pc) && InStep(e, op, pc, s, exclusive)
    requires IsProvisioning(other) && Moved(other, s, s', ids) && !Clash(s.catalog, op, other)
        && (exclusive ==> !SameChange(op, other))
    ensures InStep(e, op, pc, s', exclusive)
  {
    hide Inv, Moved, Knows, Settled, Untouched, Clash, SameChange, IsProvisioning, Fits, Decided;
    if s' != s {
      MoveIsHarmless(op, s, s', exclusive, other, ids);
      UntouchedPeople(op, s, s', exclusive);
      if Decided(pc) { SettlementSurvives(e, op, pc, s, s'); } else { KnowledgeSurvives(op, pc, s, s', exclusive); }
    }
  }

  lemma UntouchedPeople(op: Op, s: Snapshot, s': Snapshot, exclusive: bool)
    requires IsProvisioning(op) && Untouched(op, s, s', exclusive)
    ensures SamePeople(s, s')
  {}

  /** The step of one operation, whatever it knows. */
  lemma StepMoves(e: bool, op: Op, pc: Pc, s: Snapshot, exclusive: bool) returns (ids: set<int>)
    requires Inv(s) && IsProvisioning(op) && Fits(op, pc) && InStep(e, op, pc, s, exclusive)
    ensures var (s', pc') := Step(e, op, pc, s);
      && Inv(s') && InStep(e, op, pc', s', exclusive) && Moved(op, s, s', ids) && s'.catalog == s.catalog
      && (Decided(pc) ==> Decided(pc') && Promise(pc') == Promise(pc))
  {
    hide Inv, Step, Write, Answer, EnableUsers, Knows, Settled, Owed, Target;
    ids := {};
    WriteKeepsCatalog(op, s);
    if Decided(pc) {
      DecidedStep(e, op, pc, s);
      if pc.Enable? {
        ids := {pc.id};
        EnablingKeepsCatalog(s, ids);
      }
    } else {
      UndecidedStep(e, op, pc, s, exclusive);
    }
  }

  /** Once everything owed has been re-enabled, the way from pc to pc' has the effect and the answer of the
      whole operation if it decided on it, and no effect otherwise. */
  predicate Explains(e: bool, op: Op, s: Snapshot, pc: Pc, s': Snapshot, pc': Pc, exclusive: bool, others: set<int>)
    requires Fits(op, pc) && Fits(op, pc')
  {
    if Decided(pc') && !Decided(pc) then
      var serial := Complete(e, op, EnableUsers(s, others + Owed(op, pc)));
      EnableUsers(s', others + Owed(op, pc')) == serial.0 && AnswerExplained(Promise(pc'), serial.1, exclusive)
    else EnableUsers(s', others + Owed(op, pc')) == EnableUsers(s, others + Owed(op, pc))
  }

  lemma StepExplained(e: bool, op: Op, pc: Pc, s: Snapshot, exclusive: bool, others: set<int>)
    requires Inv(s) && IsProvisioning(op) && Fits(op, pc) && InStep(e, op, pc, s, exclusive)
    ensures var (s', pc') := Step(e, op, pc, s); Explains(e, op, s, pc, s', pc', exclusive, others)
  {
    hide Inv, Step, Write, Answer, EnableUsers, Knows, Settled, Owed, Target, Complete, Decides;
    if Decided(pc) {
      FollowUpExplained(e, op, pc, s, others);
    } else {
      UndecidedStep(e, op, pc, s, exclusive);
      UndecidedOwesNothing(op, pc);
      var (s', pc') := Step(e, op, pc, s);
      if Decided(pc') {
        assert others + {} == others;
        DecisionExplained(e, op, s, others, s', pc', exclusive);
      } else {
        UndecidedOwesNothing(op, pc');
      }
    }
  }

  lemma TurnKeepsStep(e: bool, ops: seq<Op>, sys: System, i: nat)
    requires WellFormed(ops, sys) && i < |ops| && NoClash(sys.server.catalog, ops)
    requires Inv(sys.server) && AllInStep(e, ops, sys)
    ensures Inv(Turn(e, ops, sys, i).server) && AllInStep(e, ops, Turn(e, ops, sys, i))
    ensures Turn(e, ops, sys, i).server.catalog == sys.server.catalog
    ensures Decided(sys.pcs[i]) ==>
      Decided(Turn(e, ops, sys, i).pcs[i]) && Promise(Turn(e, ops, sys, i).pcs[i]) == Promise(sys.pcs[i])
  {
    hide Inv, Step, InStep, Write, EnableUsers, Clash, SameChange, Fits, IsProvisioning, Decided, Promise, Moved;
    var r := Turn(e, ops, sys, i);
    var ids := StepMoves(e, ops[i], sys.pcs[i], sys.server, Alone(ops, i));
    forall j | 0 <= j < |ops|
      ensures InStep(e, ops[j], r.pcs[j], r.server, Alone(ops, j))
    {
      if j != i {
        OtherStaysInStep(e, ops[j], sys.pcs[j], sys.server, r.server, Alone(ops, j), ops[i], ids);
      }
    }
  }

  lemma AdvanceKeepsRecord(sys: System, i: nat, s': Snapshot, pc': Pc)
    requires i < |sys.pcs| && Recorded(sys) && (Decided(sys.pcs[i]) ==> Decided(pc'))
    ensures Recorded(Advance(sys, i, s', pc'))
  {
    hide Decided;
    if !Decided(sys.pcs[i]) { NoDuplicatesAppend(sys.decided, i); }
  }

  lemma AdvanceKeepsExplained(e: bool, ops: seq<Op>, s: Snapshot, sys: System, i: nat, s': Snapshot, pc': Pc)
    requires WellFormed(ops, sys) && i < |ops| && Fits(ops[i], pc') && WellFormed(ops, Advance(sys, i, s', pc'))
    requires Indices(sys.decided, |ops|) && Explained(e, ops, s, sys)
    requires forall others :: Explains(e, ops[i], sys.server, sys.pcs[i], s', pc', Alone(ops, i), others)
    ensures Explained(e, ops, s, Advance(sys, i, s', pc'))
    ensures Decided(pc') && !Decided(sys.pcs[i]) ==>
      AnswerExplained(Promise(pc'), Complete(e, ops[i], Serially(e, ops, s, sys.decided)).1, Alone(ops, i))
  {
    hide EnableUsers, Complete, Fits, IsProvisioning, Decided, Promise, Owed, AllOwed, Alone, AnswerExplained;
    var r := Advance(sys, i, s', pc');
    var rest := sys.pcs[i := Done(Applied)];
    DoneFits(ops[i]);
    assert r.pcs[i := Done(Applied)] == rest;
    var others := AllOwed(ops, rest);
    OwedSplit(ops, sys.pcs, i);
    OwedSplit(ops, r.pcs, i);
    assert Explains(e, ops[i], sys.server, sys.pcs[i], s', pc', Alone(ops, i), others);
    if Decided(pc') && !Decided(sys.pcs[i]) {
      assert (sys.decided + [i])[..|sys.decided|] == sys.decided;
    }
  }

  lemma AdvanceKeepsTruthful(e: bool, ops: seq<Op>, s: Snapshot, sys: System, i: nat, s': Snapshot, pc': Pc)
    requires WellFormed(ops, sys) && i < |ops| && Fits(ops[i], pc') && WellFormed(ops, Advance(sys, i, s', pc'))
    requires Truthful(e, ops, s, sys)
    requires if Decided(sys.pcs[i]) then Decided(pc') && Promise(pc') == Promise(sys.pcs[i])
      else Decided(pc') ==>
        AnswerExplained(Promise(pc'), Complete(e, ops[i], Serially(e, ops, s, sys.decided)).1, Alone(ops, i))
    ensures Truthful(e, ops, s, Advance(sys, i, s', pc'))
  {
    hide Complete, Fits, IsProvisioning, Decided, Promise, Alone, AnswerExplained, Serially;
    var r := Advance(sys, i, s', pc');
    forall k | 0 <= k < |r.decided|
      ensures Decided(r.pcs[r.decided[k]])
      ensures AnswerExplained(Promise(r.pcs[r.decided[k]]),
                              Complete(e, ops[r.decided[k]], Serially(e, ops, s, r.decided[..k])).1,
                              Alone(ops, r.decided[k]))
    {
      assert r.decided[..k] == sys.decided[..k];
    }
  }

  /** What it takes for one operation to get on without breaking the invariant. */
  lemma AdvanceKeepsCoherent(e: bool, ops: seq<Op>, s: Snapshot, sys: System, i: nat, s': Snapshot, pc': Pc)
    requires Coherent(e, ops, s, sys) && i < |ops| && WellFormed(ops, Advance(sys, i, s', pc'))
    requires Inv(s') && AllInStep(e, ops, Advance(sys, i, s', pc'))
    requires Decided(sys.pcs[i]) ==> Decided(pc') && Promise(pc') == Promise(sys.pcs[i])
    requires Fits(ops[i], pc')
    requires forall others :: Explains(e, ops[i], sys.server, sys.pcs[i], s', pc', Alone(ops, i), others)
    ensures Coherent(e, ops, s, Advance(sys, i, s', pc'))
  {
    hide Inv, AllInStep, Recorded, Explained, Truthful, Fits, IsProvisioning, Decided, Explains, Complete, Promise,
      Alone, Serially, AnswerExplained;
    AdvanceKeepsRecord(sys, i, s', pc');
    AdvanceKeepsExplained(e, ops, s, sys, i, s', pc');
    AdvanceKeepsTruthful(e, ops, s, sys, i, s', pc');
  }

  // ----- Whole interleavings --------------------------------------------------------------

  lemma TurnKeepsCoherent(e: bool, ops: seq<Op>, s: Snapshot, sys: System, i: nat)
    requires Coherent(e, ops, s, sys) && i < |ops| && NoClash(sys.server.catalog, ops)
    ensures Coherent(e, ops, s, Turn(e, ops, sys, i))
    ensures Turn(e, ops, sys, i).server.catalog == sys.server.catalog
    ensures sys.decided <= Turn(e, ops, sys, i).decided
  {
    hide Inv, Step, InStep, Recorded, Explained, Truthful, Explains, Fits, IsProvisioning, Decided, NoClash, Alone,
      Promise;
    TurnKeepsStep(e, ops, sys, i);
    var (s', pc') := Step(e, ops[i], sys.pcs[i], sys.server);
    forall others
      ensures Explains(e, ops[i], sys.server, sys.pcs[i], s', pc', Alone(ops, i), others)
    {
      StepExplained(e, ops[i], sys.pcs[i], sys.server, Alone(ops, i), others);
    }
    AdvanceKeepsCoherent(e, ops, s, sys, i, s', pc');
  }

  lemma {:induction false} InterleavingCoherent(e: bool, ops: seq<Op>, s: Snapshot, sys: System, turns: seq<nat>)
    requires Coherent(e, ops, s, sys) && NoClash(sys.server.catalog, ops) && Indices(turns, |ops|)
    ensures Coherent(e, ops, s, Interleave(e, ops, sys, turns))
    ensures sys.decided <= Interleave(e, ops, sys, turns).decided
    ensures Interleave(e, ops, sys, turns).server.catalog == sys.server.catalog
    decreases |turns|
  {
    hide Inv, Turn, AllInStep, Recorded, Explained, Truthful, WellFormed, NoClash;
    if turns != [] {
      TurnKeepsCoherent(e, ops, s, sys, turns[0]);
      var next := Turn(e, ops, sys, turns[0]);
      WellFormedNow(e, ops, s, next);
      InterleavingCoherent(e, ops, s, next, turns[1..]);
    }
  }

  lemma WellFormedNow(e: bool, ops: seq<Op>, s: Snapshot, sys: System)
    requires Coherent(e, ops, s, sys)
    ensures WellFormed(ops, sys)
  {}

  lemma StartsCoherent(e: bool, ops: seq<Op>, s: Snapshot)
    requires Inv(s) && forall i :: 0 <= i < |ops| ==> IsProvisioning(ops[i])
    ensures Coherent(e, ops, s, Initially(s, ops))
  {
    hide Inv, EnableUsers, Knows, Complete, IsProvisioning, Clash, SameChange;
    var sys := Initially(s, ops);
    forall i | 0 <= i < |ops|
      ensures InStep(e, ops[i], sys.pcs[i], s, Alone(ops, i)) && Owed(ops[i], sys.pcs[i]) == {}
    {
      StartKnows(ops[i], s, Alone(ops, i));
    }
    assert AllOwed(ops, sys.pcs) == {};
    EnableNone(s);
  }

  lemma StartKnows(op: Op, s: Snapshot, exclusive: bool)
    requires IsProvisioning(op)
    ensures Knows(op, Start, s, exclusive)
  {}

  predicate AllDone(sys: System)
  {
    forall i :: 0 <= i < |sys.pcs| ==> sys.pcs[i].Done?
  }

  /** Serial equivalence. Take any provisioning operations of which no two clash, and any interleaving
      of their requests. Once all are done, the server is exactly as after running them one at a time in
      the order of their deciding requests; each operation stands in that order once; and each gives the
      answer it gives in that serial run, if no other may make its change for it. */
  lemma SerialEquivalence(e: bool, ops: seq<Op>, s: Snapshot, turns: seq<nat>)
    requires Inv(s) && NoClash(s.catalog, ops) && Indices(turns, |ops|)
    requires forall i :: 0 <= i < |ops| ==> IsProvisioning(ops[i])
    ensures var end := Interleave(e, ops, Initially(s, ops), turns);
      AllDone(end) ==>
        && Indices(end.decided, |ops|)
        && end.server == Serially(e, ops, s, end.decided)
        && NoDuplicates(end.decided) && (forall i: nat :: i in end.decided <==> i < |ops|)
        && forall k :: 0 <= k < |end.decided| ==>
             var i := end.decided[k];
             AnswerExplained(end.pcs[i].outcome, Complete(e, ops[i], Serially(e, ops, s, end.decided[..k])).1,
                 Alone(ops, i))
  {
    hide Inv, EnableUsers, Complete, Interleave, Alone, AllInStep, AllOwed, AllDone, Fits, IsProvisioning, NoClash;
    StartsCoherent(e, ops, s);
    InterleavingCoherent(e, ops, s, Initially(s, ops), turns);
    var end := Interleave(e, ops, Initially(s, ops), turns);
    if AllDone(end) {
      FinishedOwesNothing(ops, end);
      EnableNone(end.server);
    }
  }

  lemma FinishedOwesNothing(ops: seq<Op>, sys: System)
    requires WellFormed(ops, sys) && AllDone(sys)
    ensures AllOwed(ops, sys.pcs) == {}
    ensures forall i :: 0 <= i < |ops| ==> Decided(sys.pcs[i]) && Promise(sys.pcs[i]) == sys.pcs[i].outcome
  {
    assert forall i :: 0 <= i < |ops| ==> Owed(ops[i], sys.pcs[i]) == {};
  }

  /** At every moment of an interleaving the server's copies agree, enabling the accounts still owed
      gives the serial state of the operations that have decided, and each of those will give the
      answer of that serial run. */
  lemma SerialAtEveryMoment(e: bool, ops: seq<Op>, s: Snapshot, turns: seq<nat>)
    requires Inv(s) && NoClash(s.catalog, ops) && Indices(turns, |ops|)
    requires forall i :: 0 <= i < |ops| ==> IsProvisioning(ops[i])
    ensures var now := Interleave(e, ops, Initially(s, ops), turns);
      Inv(now.server) && SerialSoFar(e, ops, s, now)
  {
    hide Inv, EnableUsers, Complete, Interleave, Alone, AllInStep, Explained, Truthful, Recorded;
    StartsCoherent(e, ops, s);
    InterleavingCoherent(e, ops, s, Initially(s, ops), turns);
  }

  lemma {:induction false} InterleaveInParts(e: bool, ops: seq<Op>, sys: System, before: seq<nat>, after: seq<nat>)
    requires WellFormed(ops, sys) && Indices(before, |ops|) && Indices(after, |ops|)
    ensures Interleave(e, ops, sys, before + after) == Interleave(e, ops, Interleave(e, ops, sys, before), after)
    decreases |before|
  {
    hide Turn, WellFormed;
    if before == [] {
      assert before + after == after;
    } else {
      assert (before + after)[1..] == before[1..] + after;
      InterleaveInParts(e, ops, Turn(e, ops, sys, before[0]), before[1..], after);
    }
  }

  /** The serial order respects real time: an operation that was done before another made its first
      request comes before it. */
  lemma OrderRespectsTime(e: bool, ops: seq<Op>, s: Snapshot, before: seq<nat>, after: seq<nat>, a: nat, b: nat,
      p: nat, q: nat)
    requires Inv(s) && NoClash(s.catalog, ops) && Indices(before, |ops|) && Indices(after, |ops|)
    requires (forall i :: 0 <= i < |ops| ==> IsProvisioning(ops[i])) && a < |ops| && b < |ops|
    requires var midway := Interleave(e, ops, Initially(s, ops), before); midway.pcs[a].Done? && midway.pcs[b] == Start
    requires var end := Interleave(e, ops, Initially(s, ops), before + after);
      p < |end.decided| && q < |end.decided| && end.decided[p] == a && end.decided[q] == b
    ensures p < q
  {
    hide Inv, Interleave, AllInStep, Explained, Truthful;
    StartsCoherent(e, ops, s);
    InterleavingCoherent(e, ops, s, Initially(s, ops), before);
    var midway := Interleave(e, ops, Initially(s, ops), before);
    InterleavingCoherent(e, ops, s, midway, after);
    InterleaveInParts(e, ops, Initially(s, ops), before, after);
    var end := Interleave(e, ops, Initially(s, ops), before + after);
    var k :| 0 <= k < |midway.decided| && midway.decided[k] == a;
    assert end.decided[k] == a && k == p;
    assert b !in midway.decided;
    assert forall m :: 0 <= m < |midway.decided| ==> end.decided[m] == midway.decided[m];
  }
}
