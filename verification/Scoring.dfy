/** Quantile scores of one context window, and the selection of a context by them. */
module Scoring {
  import opened Wrappers

  const GRID: seq<real> :=
    [0.01, 0.05, 0.10, 0.15, 0.20, 0.25, 0.30, 0.35, 0.40, 0.45, 0.50,
     0.55, 0.60, 0.65, 0.70, 0.75, 0.80, 0.85, 0.90, 0.95, 0.99]

  const MEDIAN: nat := 10

  function Larger(a: real, b: real): real {
    if a >= b then a else b
  }

  function Abs(x: real): real {
    if x >= 0.0 then x else -x
  }

  function Times(a: real, b: real): real {
    a * b
  }

  // ---- Pinball loss ------------------------------------------------------------------------

  function Pinball(q: real, actual: real, forecast: real): real {
    Larger(Times(q, actual - forecast), Times(q - 1.0, actual - forecast))
  }

  /** The pinball loss charges q per unit above the forecast and 1 - q per unit below it. */
  lemma PinballCharges(q: real, actual: real, forecast: real)
    ensures Pinball(q, actual, forecast) == Times(q, actual - forecast) + Larger(0.0, forecast - actual)
  {
    assert Times(q - 1.0, actual - forecast) == Times(q, actual - forecast) - (actual - forecast);
  }

  /** The losses at the grid positions from `lo` to below `hi`. */
  function PinballSum(grid: seq<real>, forecast: seq<real>, actual: real, lo: nat, hi: nat): real
    requires |grid| == |forecast| && lo <= hi <= |grid|
    decreases hi - lo
  {
    if lo == hi then 0.0 else Pinball(grid[lo], actual, forecast[lo]) + PinballSum(grid, forecast, actual, lo + 1, hi)
  }

  lemma {:induction false} PinballSumLast(grid: seq<real>, forecast: seq<real>, actual: real, lo: nat, hi: nat)
    requires |grid| == |forecast| && lo < hi <= |grid|
    ensures PinballSum(grid, forecast, actual, lo, hi)
            == PinballSum(grid, forecast, actual, lo, hi - 1) + Pinball(grid[hi - 1], actual, forecast[hi - 1])
    decreases hi - lo
  {
    if lo < hi - 1 {
      PinballSumLast(grid, forecast, actual, lo + 1, hi);
    }
  }

  // ---- Weighted interval score --------------------------------------------------------------

  /** `math.isclose` with its default relative tolerance. */
  predicate Close(a: real, b: real) {
    Abs(a - b) <= 0.000000001 * Larger(Abs(a), Abs(b))
  }

  function Interval(alpha: real, actual: real, low: real, high: real): real
    requires alpha > 0.0
  {
    high - low
    + (if actual < low then Times(2.0 / alpha, low - actual) else 0.0)
    + (if actual > high then Times(2.0 / alpha, actual - high) else 0.0)
  }

  lemma Unscale(q: real, d: real)
    requires q > 0.0
    ensures Times(q, Times(2.0 / (2.0 * q), d)) == d
  {
    assert 2.0 / (2.0 * q) * q == 1.0;
    assert q * (2.0 / (2.0 * q) * d) == (q * (2.0 / (2.0 * q))) * d;
  }

  lemma TimesPlus(q: real, a: real, b: real, c: real)
    ensures Times(q, a + b + c) == Times(q, a) + Times(q, b) + Times(q, c)
    ensures Times(q, 0.0) == 0.0
    ensures Times(q, a - b) == Times(q, a) - Times(q, b)
    ensures Times(1.0 - q, a) == a - Times(q, a)
  {
  }

  /** One central interval scores what the pinball losses at its two ends add up to, crossed or not. */
  lemma IntervalIsTwoPinballs(q: real, actual: real, low: real, high: real)
    requires q > 0.0
    ensures Times(q, Interval(2.0 * q, actual, low, high)) == Pinball(q, actual, low) + Pinball(1.0 - q, actual, high)
  {
    var below := if actual < low then Times(2.0 / (2.0 * q), low - actual) else 0.0;
    var above := if actual > high then Times(2.0 / (2.0 * q), actual - high) else 0.0;
    TimesPlus(q, high - low, below, above);
    Unscale(q, low - actual);
    Unscale(q, actual - high);
    PinballCharges(q, actual, low);
    PinballCharges(1.0 - q, actual, high);
    TimesPlus(q, actual - low, actual - high, 0.0);
    TimesPlus(q, actual - high, 0.0, 0.0);
  }

  /** The grid positions below the median that have a partner on the other side. */
  predicate IsPair(grid: seq<real>, lower: nat)
    requires lower < |grid|
  {
    Close(grid[lower] + grid[|grid| - 1 - lower], 1.0)
  }

  function Pairs(grid: seq<real>, k: nat): (n: nat)
    requires k <= |grid|
  {
    if k == 0 then 0 else Pairs(grid, k - 1) + if IsPair(grid, k - 1) then 1 else 0
  }

  /** The pinball losses at both ends of the first `k` intervals that count. */
  function PairSum(grid: seq<real>, forecast: seq<real>, actual: real, k: nat): real
    requires |grid| == |forecast| && k <= |grid|
  {
    if k == 0 then 0.0 else
      var lower, upper := k - 1, |grid| - k;
      PairSum(grid, forecast, actual, k - 1)
      + if IsPair(grid, lower)
        then Pinball(grid[lower], actual, forecast[lower]) + Pinball(1.0 - grid[lower], actual, forecast[upper])
        else 0.0
  }

  /** The score in terms of pinball losses only. */
  function Wis(grid: seq<real>, forecast: seq<real>, actual: real, median: nat): real
    requires |grid| == |forecast| && median < |grid|
  {
    (Pinball(0.5, actual, forecast[median]) + PairSum(grid, forecast, actual, median))
    / (Pairs(grid, median) as real + 0.5)
  }

  lemma MedianIsPinball(actual: real, forecast: real)
    ensures 0.5 * Abs(actual - forecast) == Pinball(0.5, actual, forecast)
  {
  }

  /** `wis_losses` for one observation, interval by interval. */
  method WisLoss(grid: seq<real>, forecast: seq<real>, actual: real, median: nat) returns (loss: real)
    requires |grid| == |forecast| && median < |grid|
    requires forall i | 0 <= i < |grid| :: grid[i] > 0.0
    ensures loss == Wis(grid, forecast, actual, median)
  {
    MedianIsPinball(actual, forecast[median]);
    var weighted := 0.5 * Abs(actual - forecast[median]);
    var pairs := 0;
    for lower := 0 to median
      invariant pairs == Pairs(grid, lower)
      invariant weighted == Pinball(0.5, actual, forecast[median]) + PairSum(grid, forecast, actual, lower)
    {
      var upper := |grid| - lower - 1;
      if Close(grid[lower] + grid[upper], 1.0) {
        IntervalIsTwoPinballs(grid[lower], actual, forecast[lower], forecast[upper]);
        var alpha := 2.0 * grid[lower];
        assert alpha / 2.0 == grid[lower];
        weighted := weighted + Times(alpha / 2.0, Interval(alpha, actual, forecast[lower], forecast[upper]));
        pairs := pairs + 1;
      }
    }
    loss := weighted / (pairs as real + 0.5);
  }

  predicate Symmetric(grid: seq<real>, median: nat) {
    && |grid| == 2 * median + 1 && grid[median] == 0.5
    && forall i | 0 <= i < |grid| :: grid[i] + grid[|grid| - 1 - i] == 1.0
  }

  lemma {:induction false} PairsCoverEnds(grid: seq<real>, forecast: seq<real>, actual: real, median: nat, k: nat)
    requires |grid| == |forecast| && Symmetric(grid, median) && k <= median
    ensures Pairs(grid, k) == k
    ensures PairSum(grid, forecast, actual, k) + PinballSum(grid, forecast, actual, k, |grid| - k)
            == PinballSum(grid, forecast, actual, 0, |grid|)
  {
    if k > 0 {
      PairsCoverEnds(grid, forecast, actual, median, k - 1);
      assert grid[k - 1] + grid[|grid| - 1 - (k - 1)] == 1.0;
      assert 1.0 - grid[k - 1] == grid[|grid| - k];
      PinballSumLast(grid, forecast, actual, k - 1, |grid| - k + 1);
      PinballSumLast(grid, forecast, actual, k, |grid| - k + 1);
    }
  }

  function MeanPinball(grid: seq<real>, forecast: seq<real>, actual: real): real
    requires |grid| == |forecast| && |grid| > 0
  {
    PinballSum(grid, forecast, actual, 0, |grid|) / (|grid| as real)
  }

  lemma TwiceTheMean(sum: real, m: nat)
    ensures sum / (m as real + 0.5) == 2.0 * (sum / ((2 * m + 1) as real))
  {
    assert (2 * m + 1) as real == 2.0 * (m as real + 0.5);
  }

  /**
   On every symmetric grid with a median, the weighted interval score of every observation is exactly
   twice its mean pinball loss, even when the quantiles of the forecast cross.
   */
  lemma WisIsTwiceMeanPinball(grid: seq<real>, forecast: seq<real>, actual: real, median: nat)
    requires |grid| == |forecast| && Symmetric(grid, median)
    ensures Wis(grid, forecast, actual, median) == 2.0 * MeanPinball(grid, forecast, actual)
  {
    PairsCoverEnds(grid, forecast, actual, median, median);
    assert PinballSum(grid, forecast, actual, median, median + 1)
           == Pinball(0.5, actual, forecast[median]) + PinballSum(grid, forecast, actual, median + 1, median + 1);
    TwiceTheMean(PinballSum(grid, forecast, actual, 0, |grid|), median);
  }

  lemma GridIsSymmetric()
    ensures Symmetric(GRID, MEDIAN)
    ensures forall i | 0 <= i < |GRID| :: GRID[i] > 0.0
  {
  }

  datatype Observation = Observation(actual: real, forecast: seq<real>)

  predicate OnGrid(observations: seq<Observation>) {
    forall o | o in observations :: |o.forecast| == |GRID|
  }

  function TotalWis(observations: seq<Observation>): real
    requires OnGrid(observations)
  {
    if observations == [] then 0.0 else
      var o := observations[|observations| - 1];
      TotalWis(observations[..|observations| - 1]) + Wis(GRID, o.forecast, o.actual, MEDIAN)
  }

  function TotalPinball(observations: seq<Observation>): real
    requires OnGrid(observations)
  {
    if observations == [] then 0.0 else
      var o := observations[|observations| - 1];
      TotalPinball(observations[..|observations| - 1]) + MeanPinball(GRID, o.forecast, o.actual)
  }

  lemma {:induction false} TotalsAreTwice(observations: seq<Observation>)
    requires OnGrid(observations)
    ensures TotalWis(observations) == 2.0 * TotalPinball(observations)
  {
    if observations != [] {
      var o := observations[|observations| - 1];
      TotalsAreTwice(observations[..|observations| - 1]);
      GridIsSymmetric();
      WisIsTwiceMeanPinball(GRID, o.forecast, o.actual, MEDIAN);
    }
  }

  // ---- Selection ---------------------------------------------------------------------------

  datatype Key = MeanPinballLoss | WisScore | MedianError | Brier

  datatype Score = Score(pinball: real, wis: real, mae: real, brier: real)

  type Metrics = int -> Score

  const KEYS: seq<Key> := [MeanPinballLoss, WisScore, MedianError, Brier]

  function Read(metrics: Metrics, key: Key, context: int): real {
    match key
    case MeanPinballLoss => metrics(context).pinball
    case WisScore => metrics(context).wis
    case MedianError => metrics(context).mae
    case Brier => metrics(context).brier
  }

  function Scale(a: real, b: real): real {
    Larger(Larger(Abs(a), Abs(b)), 0.000000000001)
  }

  predicate Near(left: real, right: real) {
    Abs(left - right) / Scale(left, right) <= 0.001
  }

  lemma NearIff(left: real, right: real)
    ensures Near(left, right) <==> Abs(left - right) <= 0.001 * Scale(left, right)
  {
    RatioAtMost(Abs(left - right), Scale(left, right), 0.001);
  }

  lemma RatioAtMost(d: real, s: real, bound: real)
    requires s > 0.0
    ensures d / s <= bound <==> d <= bound * s
  {
    var ratio := d / s;
    assert ratio * s == d;
    assert (bound - ratio) * s == bound * s - d;
    if ratio <= bound {
      assert (bound - ratio) * s >= 0.0;
    } else {
      assert (ratio - bound) * s > 0.0;
    }
  }

  /** The smallest value of a key. */
  function Best(metrics: Metrics, key: Key, contexts: seq<int>): real
    requires contexts != []
  {
    var last := Read(metrics, key, contexts[|contexts| - 1]);
    if |contexts| == 1 then last else
      var rest := Best(metrics, key, contexts[..|contexts| - 1]);
      if rest <= last then rest else last
  }

  function KeepNear(metrics: Metrics, key: Key, contexts: seq<int>, best: real): seq<int> {
    if contexts == [] then [] else
      var last := contexts[|contexts| - 1];
      KeepNear(metrics, key, contexts[..|contexts| - 1], best)
      + if Near(Read(metrics, key, last), best) then [last] else []
  }

  lemma {:induction false} BestIsLeast(metrics: Metrics, key: Key, contexts: seq<int>)
    requires contexts != []
    ensures forall c | c in contexts :: Best(metrics, key, contexts) <= Read(metrics, key, c)
    ensures exists c :: c in contexts && Read(metrics, key, c) == Best(metrics, key, contexts)
  {
    var before, last := contexts[..|contexts| - 1], contexts[|contexts| - 1];
    assert contexts == before + [last];
    if before == [] {
      assert last in contexts;
    } else {
      BestIsLeast(metrics, key, before);
      var c :| c in before && Read(metrics, key, c) == Best(metrics, key, before);
      assert c in contexts && last in contexts;
    }
  }

  lemma {:induction false} KeepNearElements(metrics: Metrics, key: Key, contexts: seq<int>, best: real)
    ensures forall c ::
              c in KeepNear(metrics, key, contexts, best) <==> c in contexts && Near(Read(metrics, key, c), best)
  {
    if contexts != [] {
      var before, last := contexts[..|contexts| - 1], contexts[|contexts| - 1];
      assert contexts == before + [last];
      KeepNearElements(metrics, key, before, best);
    }
  }

  function Survivors(metrics: Metrics, key: Key, contexts: seq<int>): (kept: seq<int>)
    requires contexts != []
    ensures kept != []
  {
    BestIsLeast(metrics, key, contexts);
    KeepNearElements(metrics, key, contexts, Best(metrics, key, contexts));
    NearSelf(Best(metrics, key, contexts));
    KeepNear(metrics, key, contexts, Best(metrics, key, contexts))
  }

  lemma NearSelf(x: real)
    ensures Near(x, x)
  {
    NearIff(x, x);
  }

  /** The contexts left after narrowing by each key in turn. */
  function Narrow(metrics: Metrics, keys: seq<Key>, contexts: seq<int>): (left: seq<int>)
    requires contexts != []
    ensures left != []
    decreases |keys|
  {
    if keys == [] then contexts else Narrow(metrics, keys[1..], Survivors(metrics, keys[0], contexts))
  }

  function Smallest(contexts: seq<int>): (m: int)
    requires contexts != []
    ensures m in contexts && forall c | c in contexts :: m <= c
  {
    if |contexts| == 1 then contexts[0] else
      var rest := Smallest(contexts[1..]);
      assert contexts == [contexts[0]] + contexts[1..];
      if contexts[0] <= rest then contexts[0] else rest
  }

  lemma SurvivorOfOne(metrics: Metrics, key: Key, context: int)
    ensures Survivors(metrics, key, [context]) == [context]
  {
    NearSelf(Read(metrics, key, context));
    assert KeepNear(metrics, key, [], Best(metrics, key, [context])) == [];
    assert [context][..0] == [];
  }

  lemma {:induction false} OneIsLeft(metrics: Metrics, keys: seq<Key>, context: int)
    ensures Narrow(metrics, keys, [context]) == [context]
    decreases |keys|
  {
    if keys != [] {
      SurvivorOfOne(metrics, keys[0], context);
      OneIsLeft(metrics, keys[1..], context);
    }
  }

  /** `select`: narrow by each key until one context is left; among equals the shortest context wins. */
  method Select(metrics: Metrics, eligible: seq<int>) returns (r: Result<int>)
    ensures eligible == [] ==> r.Err?
    ensures eligible != [] ==> r == Ok(Smallest(Narrow(metrics, KEYS, eligible)))
  {
    if eligible == [] {
      return Err("no context has a qualifying batch/backend");
    }
    var candidates := eligible;
    for k := 0 to |KEYS|
      invariant candidates != []
      invariant Narrow(metrics, KEYS[k..], candidates) == Narrow(metrics, KEYS, eligible)
    {
      assert KEYS[k..][1..] == KEYS[k + 1..];
      var best := Best(metrics, KEYS[k], candidates);
      candidates := KeepNear(metrics, KEYS[k], candidates, best);
      assert candidates != [] by {
        BestIsLeast(metrics, KEYS[k], candidates);
      }
      if |candidates| == 1 {
        OneIsLeft(metrics, KEYS[k + 1..], candidates[0]);
        assert candidates == [candidates[0]];
        break;
      }
    }
    return Ok(Smallest(candidates));
  }

  ghost predicate SameElements(a: seq<int>, b: seq<int>) {
    forall c :: c in a <==> c in b
  }

  lemma SurvivorsOfSameElements(metrics: Metrics, key: Key, a: seq<int>, b: seq<int>)
    requires a != [] && b != [] && SameElements(a, b)
    ensures SameElements(Survivors(metrics, key, a), Survivors(metrics, key, b))
  {
    BestIsLeast(metrics, key, a);
    BestIsLeast(metrics, key, b);
    assert Best(metrics, key, a) == Best(metrics, key, b);
    KeepNearElements(metrics, key, a, Best(metrics, key, a));
    KeepNearElements(metrics, key, b, Best(metrics, key, b));
  }

  lemma {:induction false} NarrowOfSameElements(metrics: Metrics, keys: seq<Key>, a: seq<int>, b: seq<int>)
    requires a != [] && b != [] && SameElements(a, b)
    ensures SameElements(Narrow(metrics, keys, a), Narrow(metrics, keys, b))
    decreases |keys|
  {
    if keys != [] {
      SurvivorsOfSameElements(metrics, keys[0], a, b);
      NarrowOfSameElements(metrics, keys[1..], Survivors(metrics, keys[0], a), Survivors(metrics, keys[0], b));
    }
  }

  /** The choice is a function of the set of eligible contexts. */
  lemma SelectionIgnoresOrder(metrics: Metrics, a: seq<int>, b: seq<int>)
    requires a != [] && b != [] && SameElements(a, b)
    ensures Smallest(Narrow(metrics, KEYS, a)) == Smallest(Narrow(metrics, KEYS, b))
  {
    NarrowOfSameElements(metrics, KEYS, a, b);
  }

  lemma {:induction false} NarrowKeeps(metrics: Metrics, keys: seq<Key>, contexts: seq<int>)
    requires contexts != []
    ensures forall c | c in Narrow(metrics, keys, contexts) :: c in contexts
    decreases |keys|
  {
    if keys != [] {
      KeepNearElements(metrics, keys[0], contexts, Best(metrics, keys[0], contexts));
      NarrowKeeps(metrics, keys[1..], Survivors(metrics, keys[0], contexts));
    }
  }

  /** The chosen context is eligible, and its loss is within one per mille of the best loss. */
  lemma SelectionIsNearBest(metrics: Metrics, eligible: seq<int>)
    requires eligible != []
    ensures var chosen := Smallest(Narrow(metrics, KEYS, eligible));
            chosen in eligible
            && Near(Read(metrics, MeanPinballLoss, chosen), Best(metrics, MeanPinballLoss, eligible))
  {
    var kept := Survivors(metrics, MeanPinballLoss, eligible);
    KeepNearElements(metrics, MeanPinballLoss, eligible, Best(metrics, MeanPinballLoss, eligible));
    NarrowKeeps(metrics, KEYS[1..], kept);
  }

  // ---- What the second key is for -----------------------------------------------------------

  /** The loss is outside the interval in which the second key can separate. */
  predicate OffInterval(loss: real) {
    loss <= 0.0000000000000005 || loss >= 0.000000000001
  }

  /** The second key separates a loss `a` from no better loss that the first key let pass. */
  ghost predicate NeverSeparated(a: real) {
    forall b: real | 0.0 <= b <= a && Near(a, b) :: Near(2.0 * a, 2.0 * b)
  }

  /**
   The score is twice the loss, so the second key repeats the first, except that the floor of the
   scale is absolute: it separates losses strictly between 5e-16 and 1e-12, and only those.
   */
  lemma SecondKeySeparatesIff(a: real)
    requires a >= 0.0
    ensures NeverSeparated(a) <==> OffInterval(a)
  {
    if OffInterval(a) {
      forall b: real | 0.0 <= b <= a && Near(a, b) ensures Near(2.0 * a, 2.0 * b) {
        NearIff(a, b);
        NearIff(2.0 * a, 2.0 * b);
      }
    } else {
      var b := if a <= 0.000000000000001 then 0.0 else a - 0.000000000000001;
      NearIff(a, b);
      NearIff(2.0 * a, 2.0 * b);
    }
  }

  lemma NotSeparated(a: real, b: real)
    requires 0.0 <= b <= a && Near(a, b)
    requires OffInterval(a)
    ensures Near(2.0 * a, 2.0 * b)
  {
    SecondKeySeparatesIff(a);
  }

  const KEYS_WITHOUT_WIS: seq<Key> := [MeanPinballLoss, MedianError, Brier]

  lemma BestWisIsTwice(metrics: Metrics, contexts: seq<int>, kept: seq<int>)
    requires contexts != [] && kept == Survivors(metrics, MeanPinballLoss, contexts)
    requires forall c | c in contexts :: metrics(c).wis == 2.0 * metrics(c).pinball
    ensures Best(metrics, WisScore, kept) == 2.0 * Best(metrics, MeanPinballLoss, contexts)
  {
    var best := Best(metrics, MeanPinballLoss, contexts);
    BestIsLeast(metrics, MeanPinballLoss, contexts);
    KeepNearElements(metrics, MeanPinballLoss, contexts, best);
    BestIsLeast(metrics, WisScore, kept);
    var c :| c in contexts && Read(metrics, MeanPinballLoss, c) == best;
    NearSelf(best);
    assert c in kept && Read(metrics, WisScore, c) == 2.0 * best;
  }

  ghost predicate AllNear(metrics: Metrics, key: Key, contexts: seq<int>, best: real) {
    forall i | 0 <= i < |contexts| :: Near(Read(metrics, key, contexts[i]), best)
  }

  lemma {:induction false} KeepAll(metrics: Metrics, key: Key, contexts: seq<int>, best: real)
    requires AllNear(metrics, key, contexts, best)
    ensures KeepNear(metrics, key, contexts, best) == contexts
  {
    if contexts != [] {
      var front, last := contexts[..|contexts| - 1], contexts[|contexts| - 1];
      assert Near(Read(metrics, key, last), best);
      KeepAll(metrics, key, front, best);
      assert contexts == front + [last];
    }
  }

  lemma KeptIsNear(metrics: Metrics, eligible: seq<int>, c: int)
    requires eligible != [] && c in Survivors(metrics, MeanPinballLoss, eligible)
    requires forall e | e in eligible :: metrics(e).pinball >= 0.0
    requires metrics(c).wis == 2.0 * metrics(c).pinball
    requires OffInterval(metrics(c).pinball)
    ensures Near(Read(metrics, WisScore, c), 2.0 * Best(metrics, MeanPinballLoss, eligible))
  {
    var best := Best(metrics, MeanPinballLoss, eligible);
    KeepNearElements(metrics, MeanPinballLoss, eligible, best);
    BestIsLeast(metrics, MeanPinballLoss, eligible);
    var b :| b in eligible && Read(metrics, MeanPinballLoss, b) == best;
    NotSeparated(Read(metrics, MeanPinballLoss, c), best);
  }

  lemma AllKeptAreNear(metrics: Metrics, eligible: seq<int>, kept: seq<int>)
    requires eligible != [] && kept == Survivors(metrics, MeanPinballLoss, eligible)
    requires forall c | c in eligible :: metrics(c).wis == 2.0 * metrics(c).pinball && metrics(c).pinball >= 0.0
    requires forall c | c in eligible :: OffInterval(metrics(c).pinball)
    ensures forall c | c in kept :: Near(Read(metrics, WisScore, c), 2.0 * Best(metrics, MeanPinballLoss, eligible))
  {
    KeepNearElements(metrics, MeanPinballLoss, eligible, Best(metrics, MeanPinballLoss, eligible));
    forall c | c in kept ensures Near(Read(metrics, WisScore, c), 2.0 * Best(metrics, MeanPinballLoss, eligible)) {
      KeptIsNear(metrics, eligible, c);
    }
  }

  /** The second key keeps every context that the first one kept. */
  lemma SecondKeyKeepsAll(metrics: Metrics, eligible: seq<int>, kept: seq<int>)
    requires eligible != [] && kept == Survivors(metrics, MeanPinballLoss, eligible)
    requires forall c | c in eligible :: metrics(c).wis == 2.0 * metrics(c).pinball && metrics(c).pinball >= 0.0
    requires forall c | c in eligible :: OffInterval(metrics(c).pinball)
    ensures Survivors(metrics, WisScore, kept) == kept
  {
    BestWisIsTwice(metrics, eligible, kept);
    AllKeptAreNear(metrics, eligible, kept);
    KeepAll(metrics, WisScore, kept, 2.0 * Best(metrics, MeanPinballLoss, eligible));
  }

  lemma NarrowByTwo(metrics: Metrics, first: Key, second: Key, rest: seq<Key>, contexts: seq<int>)
    requires contexts != []
    ensures Narrow(metrics, [first, second] + rest, contexts)
            == Narrow(metrics, rest, Survivors(metrics, second, Survivors(metrics, first, contexts)))
    ensures Narrow(metrics, [first] + rest, contexts) == Narrow(metrics, rest, Survivors(metrics, first, contexts))
  {
    assert ([first, second] + rest)[1..] == [second] + rest;
    assert ([second] + rest)[1..] == rest;
    assert ([first] + rest)[1..] == rest;
  }

  /** Outside that interval the second key never changes the choice. */
  lemma SelectionIgnoresWis(metrics: Metrics, eligible: seq<int>)
    requires eligible != []
    requires forall c | c in eligible :: metrics(c).wis == 2.0 * metrics(c).pinball && metrics(c).pinball >= 0.0
    requires forall c | c in eligible :: OffInterval(metrics(c).pinball)
    ensures Narrow(metrics, KEYS, eligible) == Narrow(metrics, KEYS_WITHOUT_WIS, eligible)
  {
    SecondKeyKeepsAll(metrics, eligible, Survivors(metrics, MeanPinballLoss, eligible));
    assert KEYS == [MeanPinballLoss, WisScore] + [MedianError, Brier];
    assert KEYS_WITHOUT_WIS == [MeanPinballLoss] + [MedianError, Brier];
    NarrowByTwo(metrics, MeanPinballLoss, WisScore, [MedianError, Brier], eligible);
  }

  // ---- Metrics of observations ---------------------------------------------------------------

  lemma ProductSign(a: real, b: real)
    requires a >= 0.0 && b >= 0.0
    ensures a * b >= 0.0
  {
  }

  lemma PinballSign(q: real, actual: real, forecast: real)
    requires 0.0 < q < 1.0
    ensures Pinball(q, actual, forecast) >= 0.0
  {
    var d := actual - forecast;
    if d >= 0.0 {
      ProductSign(q, d);
    } else {
      ProductSign(1.0 - q, -d);
      assert Times(q - 1.0, d) == (1.0 - q) * -d;
    }
  }

  lemma {:induction false} PinballSumSign(grid: seq<real>, forecast: seq<real>, actual: real, lo: nat, hi: nat)
    requires |grid| == |forecast| && lo <= hi <= |grid| && forall i | 0 <= i < |grid| :: 0.0 < grid[i] < 1.0
    ensures PinballSum(grid, forecast, actual, lo, hi) >= 0.0
    decreases hi - lo
  {
    if lo < hi {
      PinballSign(grid[lo], actual, forecast[lo]);
      PinballSumSign(grid, forecast, actual, lo + 1, hi);
    }
  }

  lemma GridInside()
    ensures forall i | 0 <= i < |GRID| :: 0.0 < GRID[i] < 1.0
  {
  }

  lemma {:induction false} TotalPinballSign(observations: seq<Observation>)
    requires OnGrid(observations)
    ensures TotalPinball(observations) >= 0.0
  {
    if observations != [] {
      var o := observations[|observations| - 1];
      TotalPinballSign(observations[..|observations| - 1]);
      GridInside();
      PinballSumSign(GRID, o.forecast, o.actual, 0, |GRID|);
    }
  }

  function TotalError(observations: seq<Observation>): real
    requires OnGrid(observations)
  {
    if observations == [] then 0.0 else
      var o := observations[|observations| - 1];
      TotalError(observations[..|observations| - 1]) + Abs(o.forecast[MEDIAN] - o.actual)
  }

  /** Non-empty observations, all on the grid of the program. */
  type Data = o: seq<Observation> | o != [] && OnGrid(o) witness [Observation(0.0, GRID)]

  /** `metric_bundle`, as far as the selection reads it; the Brier score is some function of the data. */
  function ScoreOf(brier: Data -> real, observations: Data): Score {
    var n := |observations| as real;
    Score(TotalPinball(observations) / n, TotalWis(observations) / n, TotalError(observations) / n, brier(observations))
  }

  function Measured(brier: Data -> real, data: int -> Data): Metrics {
    (context: int) => ScoreOf(brier, data(context))
  }

  /** On measured data the score is twice the loss, and neither is negative. */
  lemma MeasuredIsTwice(brier: Data -> real, observations: Data)
    ensures var s := ScoreOf(brier, observations); s.wis == 2.0 * s.pinball && s.pinball >= 0.0
  {
    TotalsAreTwice(observations);
    TotalPinballSign(observations);
    var sum, n := TotalPinball(observations), |observations| as real;
    assert 2.0 * sum / n == 2.0 * (sum / n);
  }

  /**
   Whatever was observed: unless the mean pinball loss of an eligible context lies strictly between 5e-16
   and 1e-12, selecting without the weighted interval score chooses from the same contexts.
   */
  lemma MeasuredSelectionIgnoresWis(brier: Data -> real, data: int -> Data, eligible: seq<int>)
    requires eligible != [] && forall c | c in eligible :: OffInterval(ScoreOf(brier, data(c)).pinball)
    ensures Narrow(Measured(brier, data), KEYS, eligible) == Narrow(Measured(brier, data), KEYS_WITHOUT_WIS, eligible)
  {
    var metrics := Measured(brier, data);
    forall c | c in eligible
      ensures metrics(c).wis == 2.0 * metrics(c).pinball && metrics(c).pinball >= 0.0
      ensures OffInterval(metrics(c).pinball)
    {
      MeasuredIsTwice(brier, data(c));
      assert OffInterval(ScoreOf(brier, data(c)).pinball);
    }
    SelectionIgnoresWis(metrics, eligible);
  }
}
