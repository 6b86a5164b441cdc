/**
 Distribution functions read off a list of quantiles, as three scripts compute them. Each is shown
 to be monotone and bounded, and the two that treat the tails alike are compared point by point.
 */
module QuantileCdf {
  import opened Wrappers

  /** The value of the quantile at probability `q`. */
  datatype Point = Point(q: real, v: real)

  /** Probabilities strictly increase inside the open unit interval; there are at least two. */
  predicate Grid(ps: seq<Point>) {
    && |ps| >= 2
    && (forall i | 0 <= i < |ps| :: 0.0 < ps[i].q < 1.0)
    && forall i, j | 0 <= i < j < |ps| :: ps[i].q < ps[j].q
  }

  /** Values do not cross. */
  predicate Ordered(ps: seq<Point>) {
    forall i, j | 0 <= i < j < |ps| :: ps[i].v <= ps[j].v
  }

  /** `searchsorted(side="right")`: the first index whose value exceeds `x`. */
  function SearchRight(ps: seq<Point>, x: real): (i: nat)
    ensures i <= |ps|
    ensures forall k | 0 <= k < i :: ps[k].v <= x
    ensures i < |ps| ==> ps[i].v > x
  {
    if ps == [] || ps[0].v > x then 0 else
      var rest := SearchRight(ps[1..], x);
      assert forall k | 1 <= k < 1 + rest :: ps[k] == ps[1..][k - 1];
      1 + rest
  }

  /** Linear interpolation between the points `l` and `l + 1`. */
  function Between(ps: seq<Point>, l: nat, x: real): real
    requires l + 1 < |ps| && ps[l].v < ps[l + 1].v
  {
    ps[l].q + (x - ps[l].v) / (ps[l + 1].v - ps[l].v) * (ps[l + 1].q - ps[l].q)
  }

  /** Interpolation on the segment that `searchsorted` finds. */
  function Inside(ps: seq<Point>, x: real): real
    requires Grid(ps) && Ordered(ps) && ps[0].v <= x < ps[|ps| - 1].v
  {
    Between(ps, SearchRight(ps, x) - 1, x)
  }

  // ---- The three functions -----------------------------------------------------------------

  /** The CDF inside `probability_up`; its `width <= 0` case cannot arise on ordered values. */
  function UpCdf(ps: seq<Point>, x: real): real
    requires Grid(ps) && Ordered(ps)
  {
    if x < ps[0].v then 0.0
    else if x >= ps[|ps| - 1].v then 1.0
    else Inside(ps, x)
  }

  function ProbabilityUp(ps: seq<Point>, x: real): real
    requires Grid(ps) && Ordered(ps)
  {
    1.0 - UpCdf(ps, x)
  }

  /** Where `cdfProbability` stops: the first index from one on whose value reaches `x`. */
  function Stop(ps: seq<Point>, x: real, from: nat): (i: nat)
    requires 1 <= from < |ps| && x < ps[|ps| - 1].v
    ensures from <= i < |ps| && x <= ps[i].v
    ensures forall k | from <= k < i :: ps[k].v < x
    decreases |ps| - from
  {
    if x <= ps[from].v then from else Stop(ps, x, from + 1)
  }

  /** `cdfProbability` of the policy comparison. */
  function LoopCdf(ps: seq<Point>, x: real): real
    requires Grid(ps) && Ordered(ps)
  {
    if x < ps[0].v then 0.0
    else if x >= ps[|ps| - 1].v then 1.0
    else
      var i := Stop(ps, x, 1);
      if ps[i].v == ps[i - 1].v then ps[i].q else Between(ps, i - 1, x)
  }

  method CdfProbability(ps: seq<Point>, x: real) returns (p: real)
    requires Grid(ps) && Ordered(ps)
    ensures p == LoopCdf(ps, x)
  {
    if x < ps[0].v {
      return 0.0;
    }
    if x >= ps[|ps| - 1].v {
      return 1.0;
    }
    ghost var stop := Stop(ps, x, 1);
    for index := 1 to |ps|
      invariant index <= stop
    {
      var left, right := ps[index - 1], ps[index];
      if x > right.v {
        continue;
      }
      assert index == stop;
      if right.v == left.v {
        return right.q;
      }
      return left.q + (x - left.v) / (right.v - left.v) * (right.q - left.q);
    }
    return 1.0;
  }

  /** `maximum.accumulate`: crossing values are lifted to the running maximum. */
  function Lifted(ps: seq<Point>): (r: seq<Point>)
    ensures |r| == |ps| && forall i | 0 <= i < |ps| :: r[i].q == ps[i].q && r[i].v >= ps[i].v
    ensures Ordered(r)
  {
    if |ps| <= 1 then ps else
      var front := Lifted(ps[..|ps| - 1]);
      var last, top := ps[|ps| - 1], front[|front| - 1].v;
      front + [Point(last.q, if last.v >= top then last.v else top)]
  }

  function Clamped(r: seq<Point>, x: real): real
    requires Grid(r) && Ordered(r)
  {
    if x <= r[0].v then r[0].q
    else if x >= r[|r| - 1].v then r[|r| - 1].q
    else Inside(r, x)
  }

  /** `quantile_cdf` of the cadence benchmark: flat outside the outermost probabilities. */
  function TailClampedCdf(ps: seq<Point>, x: real): real
    requires Grid(ps)
  {
    Clamped(Lifted(ps), x)
  }

  // ---- Interpolation -----------------------------------------------------------------------

  lemma Ratio(a: real, b: real, width: real, rise: real)
    requires 0.0 <= a <= b <= width && width > 0.0 && rise > 0.0
    ensures 0.0 <= a / width * rise <= b / width * rise <= rise
    ensures b == width ==> b / width * rise == rise
    ensures a == 0.0 ==> a / width * rise == 0.0
  {
    assert 0.0 / width == 0.0 && width / width == 1.0;
    Scale(0.0, a / width, rise);
    Scale(a / width, b / width, rise);
    Scale(b / width, 1.0, rise);
  }

  lemma Scale(s: real, t: real, rise: real)
    requires s <= t && rise >= 0.0
    ensures s * rise <= t * rise
  {
    assert (t - s) * rise >= 0.0;
  }

  lemma BetweenBounds(ps: seq<Point>, l: nat, x: real, y: real)
    requires Grid(ps) && l + 1 < |ps| && ps[l].v < ps[l + 1].v && ps[l].v <= x <= y <= ps[l + 1].v
    ensures ps[l].q <= Between(ps, l, x) <= Between(ps, l, y) <= ps[l + 1].q
    ensures x == ps[l].v ==> Between(ps, l, x) == ps[l].q
    ensures y == ps[l + 1].v ==> Between(ps, l, y) == ps[l + 1].q
  {
    Ratio(x - ps[l].v, y - ps[l].v, ps[l + 1].v - ps[l].v, ps[l + 1].q - ps[l].q);
  }

  lemma InsideUp(ps: seq<Point>, x: real) returns (l: nat)
    requires Grid(ps) && Ordered(ps) && ps[0].v <= x < ps[|ps| - 1].v
    ensures l + 1 == SearchRight(ps, x) && l + 1 < |ps| && ps[l].v <= x < ps[l + 1].v
  {
    l := SearchRight(ps, x) - 1;
  }

  // ---- Monotone and bounded ----------------------------------------------------------------

  lemma InsideMonotone(ps: seq<Point>, x: real, y: real)
    requires Grid(ps) && Ordered(ps) && ps[0].v <= x <= y < ps[|ps| - 1].v
    ensures ps[0].q <= Inside(ps, x) <= Inside(ps, y) <= ps[|ps| - 1].q
  {
    var l := InsideUp(ps, x);
    var m := InsideUp(ps, y);
    BetweenBounds(ps, l, x, x);
    BetweenBounds(ps, m, y, y);
    if l == m {
      BetweenBounds(ps, l, x, y);
    }
  }

  /** `probability_up` is a probability, and it does not grow with the threshold. */
  lemma ProbabilityUpMonotone(ps: seq<Point>, x: real, y: real)
    requires Grid(ps) && Ordered(ps) && x <= y
    ensures 0.0 <= ProbabilityUp(ps, y) <= ProbabilityUp(ps, x) <= 1.0
  {
    var last := ps[|ps| - 1].v;
    if ps[0].v <= x < last {
      InsideMonotone(ps, x, if y < last then y else x);
    } else if ps[0].v <= y < last {
      InsideMonotone(ps, y, y);
    }
  }

  /** Even for crossing quantiles, `quantile_cdf` is monotone and stays between the outermost probabilities. */
  lemma TailClampedCdfMonotone(ps: seq<Point>, x: real, y: real)
    requires Grid(ps) && x <= y
    ensures ps[0].q <= TailClampedCdf(ps, x) <= TailClampedCdf(ps, y) <= ps[|ps| - 1].q
  {
    ClampedMonotone(Lifted(ps), x, y);
  }

  lemma ClampedMonotone(r: seq<Point>, x: real, y: real)
    requires Grid(r) && Ordered(r) && x <= y
    ensures r[0].q <= Clamped(r, x) <= Clamped(r, y) <= r[|r| - 1].q
  {
    var last := r[|r| - 1].v;
    if r[0].v < x < last {
      InsideMonotone(r, x, if y < last then y else x);
    } else if r[0].v < y < last {
      InsideMonotone(r, y, y);
    }
  }

  // ---- The two CDFs with open tails ---------------------------------------------------------

  /** `x` is a value that two neighbouring quantiles share, the first pair aside. */
  ghost predicate OnPlateau(ps: seq<Point>, x: real) {
    exists i :: 1 <= i < |ps| - 1 && ps[i].v == x && ps[i + 1].v == x
  }

  lemma LoopAtStop(ps: seq<Point>, x: real) returns (i: nat)
    requires Grid(ps) && Ordered(ps) && ps[0].v <= x < ps[|ps| - 1].v
    ensures i == Stop(ps, x, 1) && 1 <= i < |ps| && ps[i - 1].v <= x <= ps[i].v
    ensures ps[i - 1].q <= LoopCdf(ps, x) <= ps[i].q
    ensures x == ps[i].v ==> LoopCdf(ps, x) == ps[i].q
    ensures x < ps[i].v ==> SearchRight(ps, x) == i && LoopCdf(ps, x) == UpCdf(ps, x)
  {
    i := Stop(ps, x, 1);
    if ps[i - 1].v < ps[i].v {
      BetweenBounds(ps, i - 1, x, x);
    }
  }

  /**
   The search loop and `probability_up` read the same distribution, except inside a plateau: there the
   loop returns the lowest of the shared probabilities and `searchsorted` the highest.
   */
  lemma LoopAgreesIffOffPlateau(ps: seq<Point>, x: real)
    requires Grid(ps) && Ordered(ps)
    ensures LoopCdf(ps, x) == UpCdf(ps, x) <==> (x >= ps[|ps| - 1].v || !OnPlateau(ps, x))
    ensures LoopCdf(ps, x) <= UpCdf(ps, x)
  {
    if ps[0].v <= x < ps[|ps| - 1].v {
      var i := LoopAtStop(ps, x);
      if x == ps[i].v {
        AtValue(ps, x, i);
      }
    }
  }

  lemma AtValue(ps: seq<Point>, x: real, i: nat)
    requires Grid(ps) && Ordered(ps) && ps[0].v <= x < ps[|ps| - 1].v && i == Stop(ps, x, 1) && ps[i].v == x
    ensures ps[i].q == UpCdf(ps, x) <==> !OnPlateau(ps, x)
    ensures ps[i].q <= UpCdf(ps, x)
  {
    var l := InsideUp(ps, x);
    assert i <= l && ps[l].v == x;
    BetweenBounds(ps, l, x, x);
    assert UpCdf(ps, x) == ps[l].q;
    if i < l {
      assert ps[i + 1].v == x;
    }
  }

  lemma StopMonotone(ps: seq<Point>, x: real, y: real)
    requires |ps| > 1 && x <= y < ps[|ps| - 1].v
    ensures Stop(ps, x, 1) <= Stop(ps, y, 1)
  {
  }

  lemma LoopInsideBounds(ps: seq<Point>, x: real)
    requires Grid(ps) && Ordered(ps) && ps[0].v <= x < ps[|ps| - 1].v
    ensures 0.0 <= LoopCdf(ps, x) <= 1.0
  {
    var i := LoopAtStop(ps, x);
  }

  lemma LoopInsideMonotone(ps: seq<Point>, x: real, y: real)
    requires Grid(ps) && Ordered(ps) && ps[0].v <= x <= y < ps[|ps| - 1].v
    ensures LoopCdf(ps, x) <= LoopCdf(ps, y)
  {
    var i := LoopAtStop(ps, x);
    var j := LoopAtStop(ps, y);
    StopMonotone(ps, x, y);
    if i < j {
      LoopAcross(ps, i, j, LoopCdf(ps, x), LoopCdf(ps, y));
    } else if x < ps[i].v {
      LoopInsideCell(ps, i, x, y);
    }
  }

  /** Across a point. */
  lemma LoopAcross(ps: seq<Point>, i: nat, j: nat, p: real, q: real)
    requires Grid(ps) && 1 <= i < j < |ps| && p <= ps[i].q && ps[j - 1].q <= q
    ensures p <= q
  {
  }

  /** Between two neighbouring points. */
  lemma LoopInsideCell(ps: seq<Point>, i: nat, x: real, y: real)
    requires Grid(ps) && Ordered(ps) && 1 <= i < |ps| && ps[0].v <= x <= y < ps[|ps| - 1].v
    requires i == Stop(ps, x, 1) == Stop(ps, y, 1) && ps[i - 1].v <= x < ps[i].v && y <= ps[i].v
    ensures LoopCdf(ps, x) <= LoopCdf(ps, y)
  {
    BetweenBounds(ps, i - 1, x, y);
  }

  /** `cdfProbability` is a probability too, and it does not fall. */
  lemma LoopCdfMonotone(ps: seq<Point>, x: real, y: real)
    requires Grid(ps) && Ordered(ps) && x <= y
    ensures 0.0 <= LoopCdf(ps, x) <= LoopCdf(ps, y) <= 1.0
  {
    var last := ps[|ps| - 1].v;
    if ps[0].v <= x < last {
      LoopInsideBounds(ps, x);
    }
    if ps[0].v <= y < last {
      LoopInsideBounds(ps, y);
      if ps[0].v <= x {
        LoopInsideMonotone(ps, x, y);
      }
    }
  }

  // ---- The seven policy quantiles -----------------------------------------------------------

  const FIXED_QUANTILES: seq<real> := [0.05, 0.1, 0.25, 0.5, 0.75, 0.9, 0.95]

  /** `projectedPoints`: seven policy quantiles from a row of a mean and nine deciles. */
  function ProjectedPoints(native: seq<real>): Option<seq<Point>> {
    if |native| != 10 then None else
      var prices := [native[1], native[1], (native[2] + native[3]) / 2.0, native[5],
                     (native[7] + native[8]) / 2.0, native[9], native[9]];
      if (exists i :: 0 <= i < 7 && prices[i] <= 0.0) || (exists i :: 0 < i < 7 && prices[i] < prices[i - 1]) then None
      else Some(seq(7, i requires 0 <= i < 7 => Point(FIXED_QUANTILES[i], prices[i])))
  }

  /** A row of ordered deciles projects if and only if its lowest decile is positive, and then to a usable grid. */
  lemma ProjectionIffPositive(native: seq<real>)
    requires |native| == 10 && forall i, j | 1 <= i < j < 10 :: native[i] <= native[j]
    ensures ProjectedPoints(native).Some? <==> native[1] > 0.0
    ensures ProjectedPoints(native).Some? ==>
              Grid(ProjectedPoints(native).value) && Ordered(ProjectedPoints(native).value)
  {
    var prices := [native[1], native[1], (native[2] + native[3]) / 2.0, native[5],
                   (native[7] + native[8]) / 2.0, native[9], native[9]];
    assert prices[0] == native[1];
    assert forall i, j | 0 <= i < j < 7 :: prices[i] <= prices[j];
  }
}
