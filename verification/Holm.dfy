/** Holm's step-down adjustment of p-values. */
module Holm {
  import opened Sequences

  type PValues = int -> real

  predicate Ascending(ordered: seq<int>, p: PValues) {
    forall i, j | 0 <= i < j < |ordered| :: p(ordered[i]) <= p(ordered[j])
  }

  function Larger(a: real, b: real): real {
    if a >= b then a else b
  }

  function Smaller(a: real, b: real): real {
    if a <= b then a else b
  }

  function Times(n: nat, x: real): real {
    n as real * x
  }

  /** `running` after the first `k` ranks. */
  function Running(ordered: seq<int>, p: PValues, k: nat): real
    requires k <= |ordered|
  {
    if k == 0 then 0.0
    else Larger(Running(ordered, p, k - 1), Times(|ordered| - (k - 1), p(ordered[k - 1])))
  }

  /** The dictionary of adjusted values after the first `k` ranks. */
  predicate AdjustedUpTo(adjusted: map<int, real>, ordered: seq<int>, p: PValues, k: nat)
    requires k <= |ordered|
  {
    && adjusted.Keys == Elements(ordered[..k])
    && forall i | 0 <= i < k ::
         ordered[i] in adjusted && adjusted[ordered[i]] == Smaller(1.0, Running(ordered, p, i + 1))
  }

  /** `holm`, over one arrangement of the contexts. */
  method Adjust(ordered: seq<int>, p: PValues) returns (adjusted: map<int, real>)
    requires Distinct(ordered)
    ensures AdjustedUpTo(adjusted, ordered, p, |ordered|)
  {
    adjusted := map[];
    var running := 0.0;
    var count := |ordered|;
    for rank := 0 to count
      invariant running == Running(ordered, p, rank)
      invariant AdjustedUpTo(adjusted, ordered, p, rank)
    {
      var context := ordered[rank];
      running := Larger(running, Times(count - rank, p(context)));
      adjusted := adjusted[context := Smaller(1.0, running)];
    }
  }

  lemma {:induction false} RunningCovers(ordered: seq<int>, p: PValues, j: nat, k: nat)
    requires j < k <= |ordered|
    ensures Running(ordered, p, k) >= Times(|ordered| - j, p(ordered[j]))
    ensures Running(ordered, p, k) >= Running(ordered, p, j + 1)
  {
    if j < k - 1 {
      RunningCovers(ordered, p, j, k - 1);
    }
  }

  lemma {:induction false} RunningAttained(ordered: seq<int>, p: PValues, k: nat)
    requires k <= |ordered|
    ensures Running(ordered, p, k) >= 0.0
    ensures Running(ordered, p, k) == 0.0
            || exists j :: 0 <= j < k && Running(ordered, p, k) == Times(|ordered| - j, p(ordered[j]))
  {
    if k > 0 {
      RunningAttained(ordered, p, k - 1);
    }
  }

  // ---- A definition without an order ---------------------------------------------------------

  /** The contexts whose p-value is at least that of `d`. */
  function AtLeast(contexts: set<int>, p: PValues, d: int): set<int> {
    set e | e in contexts && p(e) >= p(d)
  }

  function Weight(contexts: set<int>, p: PValues, d: int): real {
    Times(|AtLeast(contexts, p, d)|, p(d))
  }

  /** `m` is the largest weight among the contexts whose p-value is at most `x`, and not below zero. */
  ghost predicate IsPeak(contexts: set<int>, p: PValues, x: real, m: real) {
    && m >= 0.0
    && (forall d | d in contexts && p(d) <= x :: Weight(contexts, p, d) <= m)
    && (m == 0.0 || exists d :: d in contexts && p(d) <= x && Weight(contexts, p, d) == m)
  }

  /** The first rank with the same p-value. */
  function FirstOfTie(ordered: seq<int>, p: PValues, j: nat): (r: nat)
    requires j < |ordered| && Ascending(ordered, p)
    ensures r <= j && p(ordered[r]) == p(ordered[j])
    ensures forall i | 0 <= i < r :: p(ordered[i]) < p(ordered[j])
  {
    if j == 0 || p(ordered[j - 1]) != p(ordered[j]) then j else FirstOfTie(ordered, p, j - 1)
  }

  /** From the first rank of a tie on, and only there, the p-values are at least as large. */
  lemma {:induction false} TieStartsAt(ordered: seq<int>, p: PValues, j: nat, i: nat)
    requires j < |ordered| && i < |ordered| && Ascending(ordered, p)
    ensures p(ordered[i]) >= p(ordered[j]) <==> i >= FirstOfTie(ordered, p, j)
  {
    var r := FirstOfTie(ordered, p, j);
    if i > r {
      assert p(ordered[r]) <= p(ordered[i]);
    }
  }

  lemma TailMember(ordered: seq<int>, r: nat, i: nat)
    requires r <= i < |ordered|
    ensures ordered[i] in Elements(ordered[r..])
  {
    assert ordered[r..][i - r] == ordered[i];
  }

  lemma {:induction false} AtLeastFromTie(ordered: seq<int>, p: PValues, j: nat, e: int)
    requires j < |ordered| && Ascending(ordered, p)
    ensures e in AtLeast(Elements(ordered), p, ordered[j]) <==> e in Elements(ordered[FirstOfTie(ordered, p, j)..])
  {
    var r := FirstOfTie(ordered, p, j);
    if e in ordered {
      if i :| r <= i < |ordered| && ordered[i] == e {
        TieStartsAt(ordered, p, j, i);
        TailMember(ordered, r, i);
      } else {
        var i :| 0 <= i < |ordered| && ordered[i] == e;
        TieStartsAt(ordered, p, j, i);
      }
    }
  }

  /** With ties broken any way, the weight of a context is read off at the first rank of its tie. */
  lemma WeightAtRank(ordered: seq<int>, p: PValues, j: nat)
    requires j < |ordered| && Ascending(ordered, p) && Distinct(ordered)
    ensures var r := FirstOfTie(ordered, p, j);
            Weight(Elements(ordered), p, ordered[j]) == Times(|ordered| - r, p(ordered[r]))
  {
    var r := FirstOfTie(ordered, p, j);
    forall e
      ensures e in AtLeast(Elements(ordered), p, ordered[j]) <==> e in Elements(ordered[r..])
    {
      AtLeastFromTie(ordered, p, j, e);
    }
    assert AtLeast(Elements(ordered), p, ordered[j]) == Elements(ordered[r..]);
    DistinctTail(ordered, r);
    DistinctSize(ordered[r..]);
  }

  lemma TimesOrder(a: nat, b: nat, x: real)
    requires a <= b
    ensures x >= 0.0 ==> Times(a, x) <= Times(b, x)
    ensures x <= 0.0 ==> Times(a, x) <= 0.0
  {
    assert Times(b, x) - Times(a, x) == (b - a) as real * x;
  }

  lemma PeakBound(ordered: seq<int>, p: PValues, i: nat, j: nat)
    requires i < |ordered| && j < |ordered| && Ascending(ordered, p) && Distinct(ordered)
    requires p(ordered[j]) <= p(ordered[i])
    ensures Weight(Elements(ordered), p, ordered[j]) <= Running(ordered, p, i + 1)
  {
    WeightAtRank(ordered, p, j);
    var r := FirstOfTie(ordered, p, j);
    assert r <= i;
    RunningCovers(ordered, p, r, i + 1);
  }

  lemma TieAttains(ordered: seq<int>, p: PValues, i: nat, j: nat)
    requires j <= i < |ordered| && Ascending(ordered, p) && Distinct(ordered)
    requires Running(ordered, p, i + 1) == Times(|ordered| - j, p(ordered[j])) > 0.0
    ensures Weight(Elements(ordered), p, ordered[j]) == Running(ordered, p, i + 1)
    ensures p(ordered[j]) <= p(ordered[i])
  {
    var r := FirstOfTie(ordered, p, j);
    WeightAtRank(ordered, p, j);
    TimesOrder(|ordered| - j, |ordered| - r, p(ordered[j]));
    PeakBound(ordered, p, i, j);
  }

  lemma PeakAttained(ordered: seq<int>, p: PValues, i: nat)
    requires i < |ordered| && Ascending(ordered, p) && Distinct(ordered)
    ensures Running(ordered, p, i + 1) == 0.0
            || exists d :: d in Elements(ordered) && p(d) <= p(ordered[i])
                           && Weight(Elements(ordered), p, d) == Running(ordered, p, i + 1)
  {
    var m := Running(ordered, p, i + 1);
    RunningAttained(ordered, p, i + 1);
    if m != 0.0 {
      var j :| 0 <= j < i + 1 && m == Times(|ordered| - j, p(ordered[j]));
      TieAttains(ordered, p, i, j);
      assert ordered[j] in Elements(ordered);
    }
  }

  /** The running maximum is the peak, a notion that mentions no order at all. */
  lemma RunningIsPeak(ordered: seq<int>, p: PValues, i: nat)
    requires i < |ordered| && Ascending(ordered, p) && Distinct(ordered)
    ensures IsPeak(Elements(ordered), p, p(ordered[i]), Running(ordered, p, i + 1))
  {
    RunningAttained(ordered, p, i + 1);
    forall d | d in Elements(ordered) && p(d) <= p(ordered[i])
      ensures Weight(Elements(ordered), p, d) <= Running(ordered, p, i + 1)
    {
      var j :| 0 <= j < |ordered| && ordered[j] == d;
      PeakBound(ordered, p, i, j);
    }
    PeakAttained(ordered, p, i);
  }

  /** The value that the adjustment gives the context at one rank. */
  function Adjusted(ordered: seq<int>, p: PValues, i: nat): real
    requires i < |ordered|
  {
    Smaller(1.0, Running(ordered, p, i + 1))
  }

  /** However ties are broken, a context gets the same adjusted value. */
  lemma TieOrderIsIrrelevant(a: seq<int>, b: seq<int>, p: PValues, i: nat, j: nat)
    requires Ascending(a, p) && Distinct(a) && Ascending(b, p) && Distinct(b) && Elements(a) == Elements(b)
    requires i < |a| && j < |b| && a[i] == b[j]
    ensures Adjusted(a, p, i) == Adjusted(b, p, j)
  {
    RunningIsPeak(a, p, i);
    RunningIsPeak(b, p, j);
  }

  /** A smaller p-value never gets a larger adjusted one, and equal ones get equal ones. */
  lemma AdjustmentIsMonotone(ordered: seq<int>, p: PValues, i: nat, j: nat)
    requires Ascending(ordered, p) && Distinct(ordered) && i < |ordered| && j < |ordered|
    requires p(ordered[i]) <= p(ordered[j])
    ensures Adjusted(ordered, p, i) <= Adjusted(ordered, p, j)
  {
    RunningIsPeak(ordered, p, i);
    RunningIsPeak(ordered, p, j);
  }

  /** The adjustment never makes a p-value smaller and stays a probability. */
  lemma AdjustmentIsConservative(ordered: seq<int>, p: PValues, i: nat)
    requires i < |ordered| && 0.0 <= p(ordered[i]) <= 1.0
    ensures p(ordered[i]) <= Adjusted(ordered, p, i) <= 1.0
  {
    RunningCovers(ordered, p, i, i + 1);
    TimesOrder(1, |ordered| - i, p(ordered[i]));
  }

  // ---- The textbook procedure ---------------------------------------------------------------

  /** How many hypotheses the step-down procedure rejects: it stops at the first p-value above its bound. */
  function Rejections(ordered: seq<int>, p: PValues, alpha: real, k: nat): (r: nat)
    requires k <= |ordered|
    ensures k <= r <= |ordered|
    ensures forall i | k <= i < r :: p(ordered[i]) <= alpha / (|ordered| - i) as real
    ensures r < |ordered| ==> p(ordered[r]) > alpha / (|ordered| - r) as real
    decreases |ordered| - k
  {
    if k == |ordered| || p(ordered[k]) > alpha / (|ordered| - k) as real then k
    else Rejections(ordered, p, alpha, k + 1)
  }

  lemma StepBound(x: real, alpha: real, n: nat)
    requires n > 0
    ensures x <= alpha / n as real <==> Times(n, x) <= alpha
  {
    var bound := alpha / n as real;
    assert bound * n as real == alpha;
    assert (bound - x) * n as real == alpha - Times(n, x);
    if x <= bound {
      assert (bound - x) * n as real >= 0.0;
    } else {
      assert (x - bound) * n as real > 0.0;
    }
  }

  lemma {:induction false} RunningWithin(ordered: seq<int>, p: PValues, alpha: real, k: nat)
    requires 0.0 <= alpha && k <= |ordered|
    ensures Running(ordered, p, k) <= alpha
            <==> forall i | 0 <= i < k :: p(ordered[i]) <= alpha / (|ordered| - i) as real
  {
    if k > 0 {
      RunningWithin(ordered, p, alpha, k - 1);
      StepBound(p(ordered[k - 1]), alpha, |ordered| - (k - 1));
    }
  }

  /**
   At every level from zero to below one, comparing the adjusted value with the level decides exactly
   as the step-down procedure does. From level one on the comparison accepts everything.
   */
  lemma AdjustmentDecidesStepDown(ordered: seq<int>, p: PValues, alpha: real, i: nat)
    requires 0.0 <= alpha && i < |ordered|
    ensures alpha < 1.0 ==> (Adjusted(ordered, p, i) <= alpha <==> i < Rejections(ordered, p, alpha, 0))
    ensures alpha >= 1.0 ==> Adjusted(ordered, p, i) <= alpha
  {
    RunningWithin(ordered, p, alpha, i + 1);
    var r := Rejections(ordered, p, alpha, 0);
    if i >= r {
      assert p(ordered[r]) > alpha / (|ordered| - r) as real;
    }
  }
}
