/** Two operations at once. Of two that clash and both find something to do, every interleaving is
    explained by one of the two orders if and only if they do not clash hard. */
module Pairs {
  import opened Wrappers
  import opened Sequences
  import opened Text
  import opened Directory
  import opened Invariants
  import opened Wire
  import opened Protocol
  import opened Reading
  import opened Meaning
  import opened Linearisation
  import opened Interference
  import opened Serial
  import opened Clashes
  import opened Linearisable

  /** First a and then b, each in one piece, ends in this state with these answers. */
  predicate LikeOrder(e: bool, a: Op, b: Op, s: Snapshot, server: Snapshot, x: Outcome, y: Outcome)
    requires IsProvisioning(a) && IsProvisioning(b)
  {
    && server == InOrder(e, a, b, s)
    && AnswerExplained(x, Complete(e, a, s).1, !SameChange(a, b))
    && AnswerExplained(y, Complete(e, b, Complete(e, a, s).0).1, !SameChange(a, b))
  }

  /** One of the two orders explains the state and the answers. */
  predicate InSomeOrder(e: bool, a: Op, b: Op, s: Snapshot, end: System)
    requires IsProvisioning(a) && IsProvisioning(b) && WellFormed([a, b], end) && AllDone(end)
  {
    || LikeOrder(e, a, b, s, end.server, end.pcs[0].outcome, end.pcs[1].outcome)
    || LikeOrder(e, b, a, s, end.server, end.pcs[1].outcome, end.pcs[0].outcome)
  }

  // ----- An order for every interleaving --------------------------------------------------

  lemma PairAlone(a: Op, b: Op)
    requires IsProvisioning(a) && IsProvisioning(b)
    ensures Alone([a, b], 0) == !SameChange(a, b) && Alone([a, b], 1) == !SameChange(a, b)
    ensures SameChange(a, b) == SameChange(b, a) && (BodyClash(a, b) && SameUser(a, b) ==> !SameChange(a, b))
  {
    hide Atoi;
    assert [a, b][0] == a && [a, b][1] == b;
  }

  lemma PairOrderly(c: Catalog, a: Op, b: Op)
    requires IsProvisioning(a) && IsProvisioning(b) && !HardClash(c, a, b)
    ensures Orderly(c, [a, b])
  {
    hide Floor, Atoi, SameChange, Alone, NoWayBack;
    PairAlone(a, b);
    assert !HardClash(c, b, a) && BodyClash(a, b) == BodyClash(b, a);
  }

  lemma OrderOfTwo(order: seq<nat>)
    requires NoDuplicates(order) && forall i: nat :: i in order <==> i < 2
    ensures order == [0, 1] || order == [1, 0]
  {
    assert 0 in order && 1 in order;
    NoDuplicatesLength(order, {0, 1});
  }

  /** Two operations that do not clash hard: some order explains every interleaving. */
  lemma PairHasOrder(e: bool, a: Op, b: Op, s: Snapshot, turns: seq<nat>)
    requires Inv(s) && IsProvisioning(a) && IsProvisioning(b) && !HardClash(s.catalog, a, b) && Indices(turns, 2)
    ensures var end := After2(e, a, b, s, turns); AllDone(end) ==> InSomeOrder(e, a, b, s, end)
  {
    hide Inv, Complete, Interleave, Order, HardClash, Orderly, SameChange, Alone, AnswerExplained;
    PairOrderly(s.catalog, a, b);
    PairAlone(a, b);
    PairFits(a, b, s);
    Linearisability(e, [a, b], s, turns);
    var end, order := After2(e, a, b, s, turns), Order(e, [a, b], Initially(s, [a, b]), [], turns);
    if AllDone(end) {
      OrderOfTwo(order);
      OrdersAreSerial(e, a, b, s);
      FirstOfTwo(e, a, b, s);
      assert order[..0] == [] && order[..1] == [order[0]] && order[0] < 2 && order[1] < 2;
      assert [a, b][0] == a && [a, b][1] == b;
      assert AnswerExplained(end.pcs[order[0]].outcome, Complete(e, [a, b][order[0]], s).1, !SameChange(a, b));
      assert AnswerExplained(end.pcs[order[1]].outcome,
                             Complete(e, [a, b][order[1]], Serially(e, [a, b], s, order[..1])).1, !SameChange(a, b));
    }
  }

  lemma FirstOfTwo(e: bool, a: Op, b: Op, s: Snapshot)
    ensures Serially(e, [a, b], s, []) == s
    ensures Serially(e, [a, b], s, [0]) == Complete(e, a, s).0 && Serially(e, [a, b], s, [1]) == Complete(e, b, s).0
  {
    hide Complete;
    assert [0][..0] == [] && [1][..0] == [];
  }

  // ----- No order for some interleaving ---------------------------------------------------

  /** The follow-up of a decided role or permission operation enables accounts, and it is done. */
  lemma FollowUpEnds(e: bool, op: Op, pc: Pc, s: Snapshot) returns (ids: set<int>)
    requires Inv(s) && Fits(op, pc) && Decided(pc) && !pc.MemberFetch?
    ensures Step(e, op, pc, s).1.Done? && Inv(Step(e, op, pc, s).0) && Step(e, op, pc, s).0 == EnableUsers(s, ids)
  {
    hide Inv, EnableUsers, Itoa, Atoi, DecodeUser, SetUserEnabled;
    ids := {};
    EnableNone(s);
    if pc.Enable? && Atoi(Itoa(pc.id)).Some? {
      var id := Atoi(Itoa(pc.id)).value;
      SetUserEnabledKeepsInv(s, id, true);
      ids := FlagIsEnabling(s, id);
    }
  }

  lemma FlagIsEnabling(s: Snapshot, id: int) returns (ids: set<int>)
    requires Inv(s)
    ensures Directory.SetUserEnabled(s, id, true).0 == EnableUsers(s, ids)
  {
    hide CatalogOk, IdsIssued, MembersAgree, RolesAgree, AllUsersComplete, PermissionsIndexed, EnableUsers;
    UserByIDFound(s, id);
    EnableNone(s);
    ids := {};
    if id in s.byID {
      EnableOne(s, id);
      ids := {id};
    }
  }

  /** Two decided operations run to their ends. */
  lemma BothEnd(e: bool, a: Op, b: Op, s: Snapshot, before: seq<nat>) returns (turns: seq<nat>, ids: set<int>)
    requires IsProvisioning(a) && IsProvisioning(b) && !ForGroup(a) && !ForGroup(b) && Indices(before, 2)
    requires var now := After2(e, a, b, s, before); Inv(now.server) && Decided(now.pcs[0]) && Decided(now.pcs[1])
    ensures Indices(turns, 2) && AllDone(After2(e, a, b, s, turns))
    ensures After2(e, a, b, s, turns).server == EnableUsers(After2(e, a, b, s, before).server, ids)
  {
    hide Inv, Step, EnableUsers, Interleave;
    var now := After2(e, a, b, s, before);
    var p, q := now.pcs[0], now.pcs[1];
    turns := before + ([0] + ([1] + []));
    PairFits(a, b, s);
    InterleaveInParts(e, [a, b], Initially(s, [a, b]), before, [0] + ([1] + []));
    var first := FollowUpEnds(e, a, p, now.server);
    var (s1, p') := Step(e, a, p, now.server);
    var second := FollowUpEnds(e, b, q, s1);
    var (s2, q') := Step(e, b, q, s1);
    assert now == System(now.server, [p, q], now.decided);
    FirstMoves(e, a, b, now.server, p, q, now.decided, [1] + []);
    SecondMoves(e, a, b, s1, p', q, now.decided, []);
    NoTurns(e, [a, b], System(s2, [p', q'], now.decided));
    EnableTwice(now.server, first, second);
    ids := first + second;
  }

  lemma FallbackApplies(c: Catalog, a: Op, b: Op, s: Snapshot)
    requires FallbackClash(c, a, b) && !NoWayBack(c, b) && s.catalog == c && HoldsRole(s, b.user, b.role)
    ensures RoleRevokeAnswer(s, b.user, b.role) == Applied && Floor(c.roleList) != Some(a.role)
  {
    hide UserOf, Floor, Atoi;
  }

  /** Every hard clash is real: of two operations that both find something to do, some interleaving ends
      in the state of neither order. */
  lemma HardClashIsReal(e: bool, a: Op, b: Op, s: Snapshot) returns (turns: seq<nat>)
    requires Inv(s) && (FallbackClash(s.catalog, a, b) || BodyClash(a, b)) && BothAct(a, b, s)
    requires HardClash(s.catalog, a, b)
    ensures Indices(turns, 2) && AllDone(After2(e, a, b, s, turns))
    ensures After2(e, a, b, s, turns).server != InOrder(e, a, b, s)
    ensures After2(e, a, b, s, turns).server != InOrder(e, b, a, s)
  {
    hide Inv, PermissionAnswer, RoleGrantAnswer, RoleRevokeAnswer, HasPermission, HoldsRole, After2, InOrder, Atoi,
      Floor, NoWayBack, EnableUsers;
    var ids;
    if BodyClash(a, b) {
      var before := OverlapLosesTheFirst(e, a, b, s);
      turns, ids := BothEnd(e, a, b, s, before);
      EnablingKeepsPermission(After2(e, a, b, s, before).server, ids, a.user, a.permission);
    } else {
      FallbackApplies(s.catalog, a, b, s);
      var before := GrantInsideRevokeIsLost(e, a, b, s);
      turns, ids := BothEnd(e, a, b, s, before);
      EnablingKeepsHolding(After2(e, a, b, s, before).server, ids, a.user, a.role);
    }
  }

  /** For two clashing operations that both find something to do: one of the two orders explains every
      interleaving if and only if they do not clash hard. */
  lemma OrderIffNoHardClash(e: bool, a: Op, b: Op, s: Snapshot)
    requires Inv(s) && (FallbackClash(s.catalog, a, b) || BodyClash(a, b)) && BothAct(a, b, s)
    ensures (forall turns :: Indices(turns, 2) && AllDone(After2(e, a, b, s, turns)) ==>
      InSomeOrder(e, a, b, s, After2(e, a, b, s, turns))) <==> !HardClash(s.catalog, a, b)
  {
    hide Inv, BothAct, After2, InOrder, HardClash, Complete, AnswerExplained, SameChange, Atoi, Floor, AllDone;
    if HardClash(s.catalog, a, b) {
      var turns := HardClashIsReal(e, a, b, s);
    } else {
      forall turns | Indices(turns, 2)
        ensures AllDone(After2(e, a, b, s, turns)) ==> InSomeOrder(e, a, b, s, After2(e, a, b, s, turns))
      {
        PairHasOrder(e, a, b, s, turns);
      }
    }
  }
}
