/** Go slices with their backing arrays, and the functions of package slices that the server uses. */
module Slices {
  import opened Sequences

  /** A slice: a backing array and how much of it is in use; the rest is spare capacity. */
  datatype Slice<T> = Slice(backing: array<T>, len: nat)

  predicate Fits<T>(s: Slice<T>)
  {
    s.len <= s.backing.Length
  }

  function View<T>(s: Slice<T>): seq<T>
    requires Fits(s)
    reads s.backing
  {
    s.backing[..s.len]
  }

  /** slices.Clone: a new array. */
  method Clone<T>(s: Slice<T>) returns (r: Slice<T>)
    requires Fits(s)
    ensures fresh(r.backing) && Fits(r) && View(r) == View(s)
  {
    var a := new T[s.len](i requires 0 <= i < s.len && Fits(s) reads s.backing => s.backing[i]);
    r := Slice(a, s.len);
  }

  /** A slice literal, and the list a request body is decoded into. */
  method OfList<T>(xs: seq<T>) returns (r: Slice<T>)
    ensures fresh(r.backing) && Fits(r) && View(r) == xs
  {
    var a := new T[|xs|](i requires 0 <= i < |xs| => xs[i]);
    r := Slice(a, |xs|);
  }

  /** append of one element: in place if there is spare capacity, else into a larger new array. */
  method Append<T(0)>(s: Slice<T>, x: T) returns (r: Slice<T>)
    requires Fits(s)
    modifies s.backing
    ensures Fits(r) && View(r) == old(View(s)) + [x]
    ensures r.backing == s.backing || fresh(r.backing)
  {
    if s.len < s.backing.Length {
      s.backing[s.len] := x;
      r := Slice(s.backing, s.len + 1);
      assert View(r)[..s.len] == old(View(s));
      assert View(r) == View(r)[..s.len] + [x];
    } else {
      var capacity :| capacity > s.len;
      var a := new T[capacity];
      for i := 0 to s.len
        invariant View(s) == old(View(s)) && forall j :: 0 <= j < i ==> a[j] == s.backing[j]
      {
        a[i] := s.backing[i];
      }
      a[s.len] := x;
      r := Slice(a, s.len + 1);
      assert View(r)[..s.len] == View(s);
      assert View(r) == View(r)[..s.len] + [x];
    }
  }

  function Blanks(n: nat): (s: seq<string>)
    ensures |s| == n && forall i :: 0 <= i < n ==> s[i] == ""
  {
    seq(n, i => "")
  }

  lemma {:induction false} WithoutShrinks(list: seq<string>, x: string)
    ensures |Without(list, x)| <= |list|
  {
    if list != [] { WithoutShrinks(list[1..], x); }
  }

  /** What the old slice shows after its array has been compacted: the kept entries, then zeroes. */
  function Compacted(list: seq<string>, x: string): (r: seq<string>)
    ensures |r| == |list|
  {
    WithoutShrinks(list, x);
    Without(list, x) + Blanks(|list| - |Without(list, x)|)
  }

  /** slices.DeleteFunc by equality: keeps the others at the front of the same array and zeroes what
      the shortened slice leaves behind, so that the slice it was given now shows something else. */
  method DeleteAll(s: Slice<string>, x: string) returns (r: Slice<string>)
    requires Fits(s)
    modifies s.backing
    ensures Fits(r) && r.backing == s.backing && View(r) == Without(old(View(s)), x)
    ensures View(s) == Compacted(old(View(s)), x)
  {
    ghost var before := View(s);
    var kept := 0;
    for i := 0 to s.len
      invariant 0 <= kept <= i
      invariant s.backing[..kept] == Without(before[..i], x)
      invariant forall j :: i <= j < s.len ==> s.backing[j] == before[j]
    {
      assert before[..i + 1] == before[..i] + [before[i]];
      WithoutConcat(before[..i], [before[i]], x);
      if s.backing[i] != x {
        s.backing[kept] := s.backing[i];
        kept := kept + 1;
      }
    }
    assert before[..s.len] == before;
    for j := kept to s.len
      invariant s.backing[..kept] == Without(before, x)
      invariant forall m :: kept <= m < j ==> s.backing[m] == ""
    {
      s.backing[j] := "";
    }
    r := Slice(s.backing, kept);
    assert View(s) == Without(before, x) + Blanks(s.len - kept);
  }

  lemma NothingCompacted(list: seq<string>, x: string)
    requires x !in list
    ensures Compacted(list, x) == list
  {
    WithoutAbsent(list, x);
  }

  /** Without a clone a reader would see the removal: its list changes exactly when the removed value
      was in it. */
  lemma CompactionShows(list: seq<string>, x: string)
    requires x != ""
    ensures Compacted(list, x) != list <==> x in list
  {
    WithoutMembers(list, x);
    WithoutShrinks(list, x);
    if x in list {
      assert x !in Compacted(list, x);
    } else {
      NothingCompacted(list, x);
    }
  }
}
