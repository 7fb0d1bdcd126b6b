/** The rewriting of tag names that every permission update makes. */
module Tags {
  import opened Uuids
  import opened Directory
  import opened Invariants
  import opened Wire
  import opened Protocol
  import opened Meaning
  import opened Subjects
  import opened Retry

  // ----- One name -------------------------------------------------------------------------

  function Colons(s: string): nat
  {
    if s == "" then 0 else (if s[0] == ':' then 1 else 0) + Colons(s[1..])
  }

  function Rewrite(s: string): string { ReplaceFirst(s, ':', ',') }

  function RewriteTimes(s: string, k: nat): string
  {
    if k == 0 then s else Rewrite(RewriteTimes(s, k - 1))
  }

  /** The first k colons are commas, and every other character is as it was. */
  function Commas(s: string, k: nat): (r: string)
    ensures |r| == |s|
  {
    if s == "" then ""
    else if s[0] == ':' && k > 0 then [','] + Commas(s[1..], k - 1)
    else [s[0]] + Commas(s[1..], k)
  }

  /** Position by position: a colon becomes a comma exactly when fewer than k colons stand before it. */
  lemma {:induction false} CommasAt(s: string, k: nat, i: nat)
    requires i < |s|
    ensures Commas(s, k)[i] == if s[i] == ':' && Colons(s[..i]) < k then ',' else s[i]
  {
    if i > 0 {
      CommasAt(s[1..], if s[0] == ':' && k > 0 then k - 1 else k, i - 1);
      assert s[..i][1..] == s[1..][..i - 1];
    }
  }

  lemma {:induction false} OneMore(s: string, k: nat)
    ensures Rewrite(Commas(s, k)) == Commas(s, k + 1)
  {
    if s != "" {
      OneMore(s[1..], if s[0] == ':' && k > 0 then k - 1 else k);
      if s[0] == ':' && k == 0 { NoneYet(s[1..]); }
      var rest := Commas(s[1..], if s[0] == ':' && k > 0 then k - 1 else k);
      assert Commas(s, k)[1..] == rest;
    }
  }

  lemma {:induction false} NoneYet(s: string)
    ensures Commas(s, 0) == s
  {
    if s != "" { NoneYet(s[1..]); }
  }

  /** After k rewritings the first k colons of a name, or all if there are fewer, are commas. */
  lemma {:induction false} RewrittenTimes(s: string, k: nat)
    ensures RewriteTimes(s, k) == Commas(s, k)
  {
    if k == 0 {
      NoneYet(s);
    } else {
      RewrittenTimes(s, k - 1);
      OneMore(s, k - 1);
    }
  }

  lemma {:induction false} RewriteColons(s: string)
    ensures Colons(Rewrite(s)) == if Colons(s) == 0 then 0 else Colons(s) - 1
    ensures Rewrite(s) == s <==> Colons(s) == 0
  {
    if s != "" && s[0] != ':' {
      RewriteColons(s[1..]);
      assert Rewrite(s)[1..] == Rewrite(s[1..]);
      assert s == [s[0]] + s[1..];
    }
  }

  /** Rewriting twice is the same as rewriting once exactly on names with at most one colon. */
  lemma RewriteIdempotent(s: string)
    ensures Rewrite(Rewrite(s)) == Rewrite(s) <==> Colons(s) <= 1
  {
    RewriteColons(s);
    RewriteColons(Rewrite(s));
  }

  // ----- A list of objects, in place ------------------------------------------------------

  /** parseTagNames overwrites the names of the Tag objects where they stand. */
  method ParseTagNames(objs: array<TenableObject>)
    modifies objs
    ensures objs[..] == RewriteTags(old(objs[..]))
  {
    var i := 0;
    while i < objs.Length
      invariant 0 <= i <= objs.Length
      invariant forall j :: 0 <= j < i ==> objs[j] == RewriteTag(old(objs[j]))
      invariant forall j :: i <= j < objs.Length ==> objs[j] == old(objs[j])
    {
      var obj := objs[i];
      if obj.typ == "Tag" {
        objs[i] := objs[i].(name := ReplaceFirst(obj.name, ':', ','));
      }
      i := i + 1;
    }
  }

  // ----- Repeated updates -----------------------------------------------------------------

  function RetaggedTimes(xs: seq<Subject>, k: nat): seq<Subject>
  {
    if k == 0 then xs else RetaggedAll(RetaggedTimes(xs, k - 1))
  }

  lemma {:induction false} RetaggedTimesLength(xs: seq<Subject>, k: nat)
    ensures |RetaggedTimes(xs, k)| == |xs|
  {
    if k > 0 { RetaggedTimesLength(xs, k - 1); }
  }

  lemma RetaggedName(x: Subject)
    ensures Retagged(x).typ == x.typ
    ensures Retagged(x).uuid == Normal(x).uuid
    ensures Retagged(x).name == if x.typ == "Tag" then Rewrite(x.name) else x.name
  {}

  /** After k updates of its permission an object has its normalised UUID and its own type; the name
      of a Tag has its first k colons turned into commas, and any other object its own name. */
  lemma {:induction false} ObjectAfterUpdates(xs: seq<Subject>, k: nat, i: nat)
    requires i < |xs| && k > 0
    ensures |RetaggedTimes(xs, k)| == |xs|
    ensures var x, y := xs[i], RetaggedTimes(xs, k)[i];
      y == Subject(x.typ, Normal(x).uuid, if x.typ == "Tag" then Commas(x.name, k) else x.name)
  {
    hide Normal, Commas, RewriteTimes, Rewrite, Retagged;
    RetaggedTimesLength(xs, k - 1);
    var before := RetaggedTimes(xs, k - 1);
    assert RetaggedTimes(xs, k)[i] == Retagged(before[i]);
    RetaggedName(before[i]);
    NoneYet(xs[i].name);
    OneMore(xs[i].name, k - 1);
    if k > 1 {
      ObjectAfterUpdates(xs, k - 1, i);
      NormalUuidFixed(xs[i], before[i]);
    }
  }

  lemma NormalUuidFixed(x: Subject, y: Subject)
    requires y.uuid == Normal(x).uuid
    ensures Normal(y).uuid == Normal(x).uuid
  {
    hide Parse, Render, ALL_USERS;
    NormalForm(x);
  }

  /** Any number of permission operations, one after another, each run to its end. */
  function RunAll(e: bool, ops: seq<Op>, s: Snapshot): Snapshot
    decreases |ops|
  {
    if ops == [] then s else RunAll(e, ops[1..], Complete(e, ops[0], s).0)
  }

  /** How many of them answer that they applied. */
  function Updates(e: bool, ops: seq<Op>, s: Snapshot): nat
    decreases |ops|
  {
    if ops == [] then 0
    else (if Complete(e, ops[0], s).1 == Applied then 1 else 0) + Updates(e, ops[1..], Complete(e, ops[0], s).0)
  }

  /** What one of them does to the permission. */
  lemma OneUpdate(e: bool, op: Op, s: Snapshot)
    requires Inv(s) && ForPermission(op) && op.permission in s.permissions
    ensures var (s', answer) := Complete(e, op, s);
      && Inv(s') && op.permission in s'.permissions
      && var p, q := s.permissions[op.permission], s'.permissions[op.permission];
         && q.objects == (if answer == Applied then RetaggedAll(p.objects) else p.objects)
         && q.name == p.name && q.actions == p.actions
  {
    hide Inv, Complete, Effect, RetaggedAll, NormalAll, WithoutSubject;
    CompleteMeans(e, op, s);
    PermissionEffect(e, op, s);
  }

  /** Over any operations on one permission, its objects are rewritten once per applied operation,
      and its name and actions stay. */
  lemma {:induction false} ObjectsAfterRun(e: bool, ops: seq<Op>, s: Snapshot, permission: string)
    requires Inv(s) && permission in s.permissions
    requires forall i :: 0 <= i < |ops| ==> ForPermission(ops[i]) && ops[i].permission == permission
    ensures permission in RunAll(e, ops, s).permissions
    ensures var p, q := s.permissions[permission], RunAll(e, ops, s).permissions[permission];
      && q.objects == RetaggedTimes(p.objects, Updates(e, ops, s))
      && q.name == p.name && q.actions == p.actions
    decreases |ops|
  {
    hide Inv, Complete, RetaggedAll;
    if ops != [] {
      var s' := Complete(e, ops[0], s).0;
      OneUpdate(e, ops[0], s);
      ObjectsAfterRun(e, ops[1..], s', permission);
      TimesCommute(s.permissions[permission].objects, Updates(e, ops[1..], s'));
    }
  }

  lemma {:induction false} TimesCommute(xs: seq<Subject>, k: nat)
    ensures RetaggedTimes(RetaggedAll(xs), k) == RetaggedTimes(xs, k + 1)
  {
    hide RetaggedAll;
    if k > 0 { TimesCommute(xs, k - 1); }
  }
}
