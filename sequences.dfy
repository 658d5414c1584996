/** Sequence facts shared by the containers: distinct elements, and Python's
    `list.remove`, which deletes the first element equal to its argument. */
module Sequences {

  predicate Distinct<T(==)>(s: seq<T>) {
    forall i, j :: 0 <= i < j < |s| ==> s[i] != s[j]
  }

  /** `list.remove(x)` when `x` is present; the list itself when it is not
      (where Python raises, and callers catch it). */
  function RemoveFirst<T(==)>(s: seq<T>, x: T): (r: seq<T>)
    ensures x !in s ==> r == s
    ensures x in s ==> |r| == |s| - 1
  {
    if s == [] then []
    else if s[0] == x then s[1..]
    else [s[0]] + RemoveFirst(s[1..], x)
  }

  /** The index of the first element equal to `x`. */
  function FirstIndex<T(==)>(s: seq<T>, x: T): (i: nat)
    requires x in s
    ensures i < |s| && s[i] == x
    ensures forall j :: 0 <= j < i ==> s[j] != x
  {
    if s[0] == x then 0 else 1 + FirstIndex(s[1..], x)
  }

  /** Removing the first occurrence cuts exactly the element at its index. */
  lemma RemoveFirstCutsFirstIndex<T>(s: seq<T>, x: T, i: nat)
    requires x in s && i == FirstIndex(s, x)
    ensures RemoveFirst(s, x) == s[..i] + s[i + 1..]
    ensures multiset(RemoveFirst(s, x)) == multiset(s) - multiset{x}
  {
    RemoveFirstCuts(s, x, i);
    CutMultiset(s, i);
  }

  lemma {:induction false} RemoveFirstCuts<T>(s: seq<T>, x: T, i: nat)
    requires x in s && i == FirstIndex(s, x)
    ensures RemoveFirst(s, x) == s[..i] + s[i + 1..]
  {
    if s[0] != x {
      var t := s[1..];
      assert x in t;
      RemoveFirstCuts(t, x, i - 1);
      assert t[..i - 1] == s[1..i];
      assert t[i..] == s[i + 1..];
      assert [s[0]] + s[1..i] == s[..i];
    }
  }

  /** Cutting out the element at `i` takes one copy of it out of the
      multiset. */
  lemma CutMultiset<T>(s: seq<T>, i: nat)
    requires i < |s|
    ensures multiset(s[..i] + s[i + 1..]) == multiset(s) - multiset{s[i]}
  {
    assert s == s[..i] + [s[i]] + s[i + 1..];
  }

  /** Removing the only occurrence of a key from a list of distinct keys keeps
      the others distinct and drops exactly that key. */
  lemma {:induction false} RemoveFirstOfDistinct<T>(s: seq<T>, x: T)
    requires Distinct(s)
    ensures Distinct(RemoveFirst(s, x))
    ensures forall y :: y in RemoveFirst(s, x) <==> y in s && y != x
  {
    if s != [] {
      RemoveFirstOfDistinct(s[1..], x);
      if s[0] != x {
        assert s[0] !in s[1..];
      }
    }
  }

  /** Inserting `x` at position `p` and cutting it out again. */
  lemma Splice<T>(s: seq<T>, p: nat, x: T)
    requires p <= |s|
    ensures var r := s[..p] + [x] + s[p..];
      && |r| == |s| + 1 && r[p] == x && r[..p] + r[p + 1..] == s
      && multiset(r) == multiset(s) + multiset{x}
  {
    var r := s[..p] + [x] + s[p..];
    assert r[..p] == s[..p] && r[p + 1..] == s[p..];
    assert s == s[..p] + s[p..];
  }

  /** A list without repeats has as many elements as the set of its elements. */
  lemma {:induction false} DistinctSize<T>(s: seq<T>, elems: set<T>)
    requires Distinct(s)
    requires forall x :: x in elems <==> x in s
    ensures |elems| == |s|
  {
    if s != [] {
      var n := |s|;
      assert s[n - 1] !in s[..n - 1];
      DistinctSize(s[..n - 1], elems - {s[n - 1]});
    }
  }
}
