/** Lists without repetition, and slices.DeleteFunc for one value. */
module Sequences {
  ghost predicate NoDuplicates<T>(s: seq<T>)
  {
    forall i, j :: 0 <= i < j < |s| ==> s[i] != s[j]
  }

  /** slices.DeleteFunc with an equality test: the other elements stay, in order. */
  function Without<T(==)>(s: seq<T>, x: T): seq<T>
  {
    if s == [] then []
    else if s[0] == x then Without(s[1..], x)
    else [s[0]] + Without(s[1..], x)
  }

  lemma {:induction false} WithoutMembers<T>(s: seq<T>, x: T)
    ensures forall y :: y in Without(s, x) <==> y in s && y != x
  {
    if s != [] {
      WithoutMembers(s[1..], x);
      assert s == [s[0]] + s[1..];
    }
  }

  lemma {:induction false} WithoutAbsent<T>(s: seq<T>, x: T)
    requires x !in s
    ensures Without(s, x) == s
  {
    if s != [] {
      WithoutAbsent(s[1..], x);
    }
  }

  lemma {:induction false} WithoutConcat<T>(s: seq<T>, t: seq<T>, x: T)
    ensures Without(s + t, x) == Without(s, x) + Without(t, x)
  {
    if s == [] {
      assert s + t == t;
    } else {
      assert (s + t)[1..] == s[1..] + t;
      WithoutConcat(s[1..], t, x);
    }
  }

  lemma NoDuplicatesTail<T>(s: seq<T>)
    requires s != [] && NoDuplicates(s)
    ensures NoDuplicates(s[1..]) && s[0] !in s[1..]
  {}

  lemma NoDuplicatesAppend<T>(s: seq<T>, x: T)
    requires NoDuplicates(s) && x !in s
    ensures NoDuplicates(s + [x])
  {}

  lemma {:induction false} WithoutNoDuplicates<T>(s: seq<T>, x: T)
    requires NoDuplicates(s)
    ensures NoDuplicates(Without(s, x))
  {
    if s != [] {
      NoDuplicatesTail(s);
      WithoutNoDuplicates(s[1..], x);
      WithoutMembers(s[1..], x);
    }
  }

  /** A repetition-free list is as long as the set of its elements is large. */
  lemma {:induction false} NoDuplicatesLength<T>(s: seq<T>, elements: set<T>)
    requires NoDuplicates(s)
    requires forall x :: x in elements <==> x in s
    ensures |s| == |elements|
  {
    if s == [] {
      assert elements == {};
    } else {
      NoDuplicatesTail(s);
      assert s == [s[0]] + s[1..];
      assert s[0] in elements;
      NoDuplicatesLength(s[1..], elements - {s[0]});
    }
  }
}
