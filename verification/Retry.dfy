/** An operation that is cut off after any request and run again ends where one uninterrupted run ends. */
module Retry {
  import opened Wrappers
  import opened Text
  import opened Uuids
  import opened Directory
  import opened Invariants
  import opened Wire
  import opened Protocol
  import opened Reading
  import opened Meaning
  import opened Linearisation
  import opened Commutation
  import opened Repetition

  // ----- Uninterrupted runs ---------------------------------------------------------------

  lemma {:induction false} DecidedRun(e: bool, op: Op, pc: Pc, s: Snapshot)
    requires Inv(s) && IsProvisioning(op) && Fits(op, pc) && Decided(pc) && Settled(e, op, pc, s)
    ensures Resume(e, op, pc, s) == (EnableUsers(s, Owed(op, pc)), Promise(pc))
    ensures Inv(Resume(e, op, pc, s).0)
    decreases Rank(pc)
  {
    hide Inv, Step, EnableUsers, Settled, UserOf, Atoi;
    DecidedStep(e, op, pc, s);
    if pc.Done? {
      EnableNone(s);
    } else {
      var (s', pc') := Step(e, op, pc, s);
      DecidedRun(e, op, pc', s');
    }
  }

  /** Running on from any point before the decision does what the closed form says. */
  lemma {:induction false} UndecidedRun(e: bool, op: Op, pc: Pc, s: Snapshot)
    requires Inv(s) && IsProvisioning(op) && Fits(op, pc) && !Decided(pc) && Knows(op, pc, s, true)
    ensures Resume(e, op, pc, s) == (Effect(e, op, s), Answer(op, s))
    ensures Inv(Effect(e, op, s))
    decreases Rank(pc)
  {
    hide Inv, Step, EnableUsers, Knows, Write, Answer, Target, Settled, Owed, Atoi;
    UndecidedStep(e, op, pc, s, true);
    var (s', pc') := Step(e, op, pc, s);
    if Decided(pc') { DecidedRun(e, op, pc', s'); } else { UndecidedRun(e, op, pc', s'); }
  }

  /** An uninterrupted execution, request by request, is the closed form. */
  lemma CompleteMeans(e: bool, op: Op, s: Snapshot)
    requires Inv(s) && IsProvisioning(op)
    ensures Complete(e, op, s) == (Effect(e, op, s), Answer(op, s))
    ensures Inv(Effect(e, op, s))
  {
    hide Inv, Effect, Answer;
    StartKnowsNothing(op, s);
    UndecidedRun(e, op, Start, s);
  }

  lemma StartKnowsNothing(op: Op, s: Snapshot)
    requires IsProvisioning(op)
    ensures Knows(op, Start, s, true) && Fits(op, Start) && !Decided(Start)
  {}

  // ----- Cutting a run off ----------------------------------------------------------------

  /** Where a cut can leave the server: untouched, after the write, or after the re-enabling too. */
  predicate Partway(e: bool, op: Op, s: Snapshot, cut: Snapshot)
    requires IsProvisioning(op)
  {
    cut == s || cut == Write(op, s) || cut == Effect(e, op, s)
  }

  lemma {:induction false} DecidedCut(e: bool, op: Op, pc: Pc, s: Snapshot, k: nat)
    requires Inv(s) && IsProvisioning(op) && Fits(op, pc) && Decided(pc) && Settled(e, op, pc, s)
    ensures var cut := CutOff(e, op, pc, s, k).0;
      Inv(cut) && (cut == s || cut == EnableUsers(s, Owed(op, pc)))
    decreases k
  {
    hide Inv, Step, EnableUsers, Settled, UserOf, Atoi;
    if k != 0 {
      DecidedStep(e, op, pc, s);
      var (s', pc') := Step(e, op, pc, s);
      DecidedCut(e, op, pc', s', k - 1);
      EnableTwice(s, Owed(op, pc), Owed(op, pc'));
      EnablingStep(e, op, pc, s);
    }
  }

  /** Once the owed account is enabled, nothing more is owed. */
  lemma EnablingStep(e: bool, op: Op, pc: Pc, s: Snapshot)
    requires Inv(s) && IsProvisioning(op) && Fits(op, pc) && Decided(pc) && Settled(e, op, pc, s)
    ensures var (s', pc') := Step(e, op, pc, s); s' == s || s' == EnableUsers(s, Owed(op, pc))
  {
    hide Inv, Step, EnableUsers, Settled, UserOf, Atoi;
    DecidedStep(e, op, pc, s);
  }

  lemma {:induction false} UndecidedCut(e: bool, op: Op, pc: Pc, s: Snapshot, k: nat)
    requires Inv(s) && IsProvisioning(op) && Fits(op, pc) && !Decided(pc) && Knows(op, pc, s, true)
    ensures var cut := CutOff(e, op, pc, s, k).0; Inv(cut) && Partway(e, op, s, cut)
    decreases k
  {
    hide Inv, Step, EnableUsers, Knows, Write, Answer, Target, Settled, Owed, Atoi;
    if k != 0 {
      UndecidedStep(e, op, pc, s, true);
      var (s', pc') := Step(e, op, pc, s);
      if Decided(pc') { DecidedCut(e, op, pc', s', k - 1); } else { UndecidedCut(e, op, pc', s', k - 1); }
    }
  }

  /** A cut run has made its requests: running on from where it was cut off, on the server that it left, is the
      uninterrupted run, and every request up to the cut has brought it nearer to the end. */
  lemma {:induction false} CutResumes(e: bool, op: Op, pc: Pc, s: Snapshot, k: nat)
    requires Fits(op, pc)
    ensures var cut := CutOff(e, op, pc, s, k);
      Resume(e, op, cut.1, cut.0) == Resume(e, op, pc, s) && (cut.1.Done? || Rank(cut.1) + k <= Rank(pc))
    decreases k
  {
    hide Step;
    if k != 0 {
      var (s', pc') := Step(e, op, pc, s);
      if pc.Done? { DoneIsStill(e, op, pc, s); }
      CutResumes(e, op, pc', s', k - 1);
    }
  }

  lemma DoneIsStill(e: bool, op: Op, pc: Pc, s: Snapshot)
    requires Fits(op, pc) && pc.Done?
    ensures Step(e, op, pc, s) == (s, pc)
  {}

  /** After six requests every operation is done, and has done all it does. */
  lemma CutAtTheEnd(e: bool, op: Op, s: Snapshot, k: nat)
    requires k >= 6
    ensures CutOff(e, op, Start, s, k).1.Done?
    ensures (CutOff(e, op, Start, s, k).0, CutOff(e, op, Start, s, k).1.outcome) == Complete(e, op, s)
    ensures AfterCuts(e, op, s, [k]) == Complete(e, op, s).0
  {
    hide Step;
    CutResumes(e, op, Start, s, k);
    var cut := CutOff(e, op, Start, s, k).0;
    assert [k][0] == k && [k][1..] == [];
    assert AfterCuts(e, op, cut, []) == cut;
  }

  // ----- Running it again -----------------------------------------------------------------

  /** A rerun from wherever the cut left the server comes to the same end, and fails only where the
      uninterrupted run fails. */
  lemma RerunFromPartway(e: bool, op: Op, s: Snapshot, cut: Snapshot)
    requires Inv(s) && IsProvisioning(op) && Partway(e, op, s, cut)
    ensures Effect(e, op, cut) == Effect(e, op, s) && SameVerdict(Answer(op, cut), Answer(op, s))
  {
    hide Inv, Write, Answer, EnableUsers, Target;
    if cut != s {
      var target := Target(e, op, Answer(op, s));
      var w := Write(op, s);
      OnceIsEnough(op, s);
      WriteKeepsInv(op, s);
      SameTarget(e, op, Answer(op, s), Answer(op, w));
      if cut == Effect(e, op, s) {
        WriteCommutes(op, w, target);
        AnswerIgnoresEnabling(op, w, target);
        EnableTwice(w, target, target);
        assert target + target == target;
      }
    }
  }

  lemma SameTarget(e: bool, op: Op, a: Outcome, b: Outcome)
    requires SameVerdict(a, b)
    ensures Target(e, op, a) == Target(e, op, b)
  {}

  lemma WriteKeepsInv(op: Op, s: Snapshot)
    requires Inv(s) && IsProvisioning(op)
    ensures Inv(Write(op, s))
  {
    hide Inv, PostGroupMember, DeleteGroupMember, SetUserRoles, PutPermission, Floor, IsDecimal, UserOf;
    match op
    case GroupGrant(user, group) => MembershipKeepsInv(s, group, user);
    case GroupRevoke(user, group) => MembershipKeepsInv(s, group, user);
    case RoleGrant(user, role) =>
      if RoleGrantAnswer(s, user, role) == Applied { SetUserRolesKeepsInv(s, UserOf(s, user).value.uuid, [role]); }
    case RoleRevoke(user, role) =>
      if RoleRevokeAnswer(s, user, role) == Applied {
        SetUserRolesKeepsInv(s, UserOf(s, user).value.uuid, [Floor(s.catalog.roleList).value]);
      }
    case PermissionGrant(_, _, _) => PermissionWriteKeepsInv(op, s);
    case PermissionRevoke(_, _, _) => PermissionWriteKeepsInv(op, s);
  }

  lemma PermissionWriteKeepsInv(op: Op, s: Snapshot)
    requires Inv(s) && ForPermission(op)
    ensures PermissionAnswer(op, s) == Applied ==>
      UserOf(s, op.user).Some? && SubjectsOf(s, op.permission).Some? && Inv(PermissionWrite(op, s))
  {
    hide Inv, UserOf, SubjectsOf, PutPermission, Revised, Atoi;
    if PermissionAnswer(op, s) == Applied && Parsed(UserOf(s, op.user).value).Some? {
      var u := UserOf(s, op.user).value;
      PutPermissionKeepsInv(s, Revised(op, SubjectsOf(s, op.permission).value, Parsed(u).value, u.name));
    }
  }

  function Parsed(u: User): Option<Uuid>
  {
    Parse(u.uuid)
  }

  // ----- The theorem ----------------------------------------------------------------------

  /** Any number of executions, each cut off after some number of requests. */
  function AfterCuts(e: bool, op: Op, s: Snapshot, cuts: seq<nat>): Snapshot
    decreases |cuts|
  {
    if cuts == [] then s else AfterCuts(e, op, CutOff(e, op, Start, s, cuts[0]).0, cuts[1..])
  }

  /** Each execution starts on the server that the one before it left. */
  lemma {:induction false} AttemptsFollowEachOther(e: bool, op: Op, s: Snapshot, cuts: seq<nat>, k: nat)
    ensures AfterCuts(e, op, s, cuts + [k]) == CutOff(e, op, Start, AfterCuts(e, op, s, cuts), k).0
    decreases |cuts|
  {
    hide CutOff;
    if cuts == [] {
      var cut := CutOff(e, op, Start, s, k).0;
      assert [] + [k] == [k] && [k][1..] == [];
      assert AfterCuts(e, op, cut, []) == cut;
    } else {
      assert (cuts + [k])[1..] == cuts[1..] + [k];
      AttemptsFollowEachOther(e, op, CutOff(e, op, Start, s, cuts[0]).0, cuts[1..], k);
    }
  }

  /** Retry convergence for the six provisioning operations: after any series of cut-off attempts,
      wherever each was cut and whether or not the reply to its last write arrived, one more
      execution leaves the server exactly as a single uninterrupted execution would have, and it
      fails only if, and as, that one would have failed. */
  lemma {:induction false} RetryConverges(e: bool, op: Op, s: Snapshot, cuts: seq<nat>)
    requires Inv(s) && IsProvisioning(op)
    ensures Complete(e, op, AfterCuts(e, op, s, cuts)).0 == Complete(e, op, s).0
    ensures SameVerdict(Complete(e, op, AfterCuts(e, op, s, cuts)).1, Complete(e, op, s).1)
    decreases |cuts|
  {
    hide Inv, Complete, Effect, Answer, Knows, Partway;
    if cuts != [] {
      var cut := CutOff(e, op, Start, s, cuts[0]).0;
      StartKnowsNothing(op, s);
      UndecidedCut(e, op, Start, s, cuts[0]);
      RerunFromPartway(e, op, s, cut);
      CompleteMeans(e, op, s);
      CompleteMeans(e, op, cut);
      RetryConverges(e, op, cut, cuts[1..]);
    }
  }

  lemma SetTwice(s: Snapshot, user: string, enabled: bool)
    requires Inv(s)
    ensures PutUserEnabled(PutUserEnabled(s, user, enabled).0, user, enabled) == PutUserEnabled(s, user, enabled)
    ensures Inv(PutUserEnabled(s, user, enabled).0)
  {
    hide CatalogOk, IdsIssued, MembersAgree, RolesAgree, AllUsersComplete, PermissionsIndexed, Atoi, DecodeUser;
    if Atoi(user).Some? {
      var id := Atoi(user).value;
      UserByIDFound(s, id);
      SetUserEnabledKeepsInv(s, id, enabled);
      if UserByID(s, id).Some? {
        var u := UserByID(s, id).value.(enabled := enabled);
        assert s.users[u.uuid := u][u.uuid := u] == s.users[u.uuid := u];
      }
    }
  }

  lemma {:induction false} DoneStaysDone(e: bool, op: Op, pc: Pc, s: Snapshot, k: nat)
    requires pc.Done? && Fits(op, pc)
    ensures CutOff(e, op, pc, s, k) == (s, pc)
  {
    if k != 0 { DoneStaysDone(e, op, pc, s, k - 1); }
  }

  lemma SetAccountCut(e: bool, op: Op, s: Snapshot, k: nat)
    requires Inv(s) && op.SetAccountEnabled?
    ensures var cut := CutOff(e, op, Start, s, k).0; Inv(cut) && Complete(e, op, cut) == Complete(e, op, s)
  {
    hide Inv, PutUserEnabled;
    SetTwice(s, op.user, op.enabled);
    if k != 0 {
      var (s', pc') := Step(e, op, Start, s);
      DoneStaysDone(e, op, pc', s', k - 1);
    }
  }

  /** Switching an account on or off converges as well: its one request sets the flag outright. */
  lemma {:induction false} SetAccountConverges(e: bool, op: Op, s: Snapshot, cuts: seq<nat>)
    requires Inv(s) && op.SetAccountEnabled?
    ensures Complete(e, op, AfterCuts(e, op, s, cuts)) == Complete(e, op, s)
    decreases |cuts|
  {
    hide Inv, Complete, PutUserEnabled;
    if cuts != [] {
      SetAccountCut(e, op, s, cuts[0]);
      SetAccountConverges(e, op, CutOff(e, op, Start, s, cuts[0]).0, cuts[1..]);
    }
  }
}
