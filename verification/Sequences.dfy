/** Facts about sequences that several components share. */
module Sequences {

  predicate Distinct<T(==)>(s: seq<T>) {
    forall i, j | 0 <= i < j < |s| :: s[i] != s[j]
  }

  function Elements<T(!new)>(s: seq<T>): (e: set<T>)
    ensures forall x :: x in e <==> x in s
  {
    set x | x in s
  }

  lemma DistinctTail<T>(s: seq<T>, from: nat)
    requires Distinct(s) && from <= |s|
    ensures Distinct(s[from..])
  {
  }

  lemma {:induction false} DistinctSize<T(!new)>(s: seq<T>)
    requires Distinct(s)
    ensures |Elements(s)| == |s|
  {
    if s == [] {
      assert Elements(s) == {};
    } else {
      DistinctSize(s[1..]);
      assert s == [s[0]] + s[1..];
      assert Elements(s) == {s[0]} + Elements(s[1..]);
    }
  }

  lemma WithoutOne<T>(a: seq<T>, k: nat)
    requires k < |a|
    ensures multiset(a[..k] + a[k + 1..]) == multiset(a) - multiset{a[k]}
  {
    assert a == a[..k] + [a[k]] + a[k + 1..];
  }

  lemma SameMembers<T>(a: seq<T>, b: seq<T>, x: T)
    requires multiset(a) == multiset(b) && x in b
    ensures x in a
  {
    assert x in multiset(b);
  }

  /** What the first `n` parts give when only those at `i` and `j` are not empty. */
  function TwoParts<T>(a: seq<T>, b: seq<T>, i: nat, j: nat, n: nat): seq<T> {
    if n <= i then [] else if n <= j then a else a + b
  }

  lemma TwoPartsStep<T>(a: seq<T>, b: seq<T>, i: nat, j: nat, n: nat)
    requires i < j
    ensures TwoParts(a, b, i, j, n + 1) == TwoParts(a, b, i, j, n) + if n == i then a else if n == j then b else []
  {
  }
}
