/** Compounded equity, its one-pass drawdown, and what that drawdown means. */
module EquityCurve {

  function Max(a: real, b: real): real {
    if a >= b then a else b
  }

  function Grow(equity: real, rate: real): real {
    equity * (1.0 + rate)
  }

  /** Equity after compounding every rate of return, starting from one. */
  function Compound(rates: seq<real>): real {
    if rates == [] then 1.0 else Grow(Compound(rates[..|rates| - 1]), rates[|rates| - 1])
  }

  /** The running peak of the equity, the starting capital included. */
  function Peak(rates: seq<real>): (p: real)
    ensures p >= 1.0 && p >= Compound(rates)
  {
    if rates == [] then 1.0 else Max(Peak(rates[..|rates| - 1]), Compound(rates))
  }

  function Loss(from: real, to: real): real
    requires from > 0.0
  {
    (from - to) / from
  }

  /** The drawdown that the one-pass loops accumulate. */
  function Drawdown(rates: seq<real>): (d: real)
    ensures d >= 0.0
  {
    if rates == [] then 0.0
    else Max(Drawdown(rates[..|rates| - 1]), Loss(Peak(rates), Compound(rates)))
  }

  /** Equity at time `i`. */
  function Equity(rates: seq<real>, i: nat): real
    requires i <= |rates|
  {
    Compound(rates[..i])
  }

  /** `d` is the largest relative loss from any time to any later time. */
  ghost predicate IsMaximumLoss(rates: seq<real>, d: real) {
    && (forall i: nat, j: nat | i <= j <= |rates| && Equity(rates, i) > 0.0 ::
          Loss(Equity(rates, i), Equity(rates, j)) <= d)
    && (exists i: nat, j: nat :: i <= j <= |rates| && Equity(rates, i) > 0.0 &&
          Loss(Equity(rates, i), Equity(rates, j)) == d)
  }

  /** No single return loses more than everything. */
  predicate Solvent(rates: seq<real>) {
    forall k | 0 <= k < |rates| :: 1.0 + rates[k] >= 0.0
  }

  // ---- The running peak --------------------------------------------------------------------

  lemma Prefixes(rates: seq<real>, i: nat)
    requires rates != [] && i < |rates|
    ensures rates[..i] == rates[..|rates| - 1][..i]
    ensures rates[..|rates|] == rates
  {
  }

  lemma {:induction false} PeakIsMaximum(rates: seq<real>, i: nat)
    requires i <= |rates|
    ensures Equity(rates, i) <= Peak(rates)
  {
    if i < |rates| {
      Prefixes(rates, i);
      PeakIsMaximum(rates[..|rates| - 1], i);
    } else {
      assert rates[..i] == rates;
    }
  }

  lemma {:induction false} PeakIsReached(rates: seq<real>) returns (i: nat)
    ensures i <= |rates| && Equity(rates, i) == Peak(rates)
  {
    if rates == [] {
      i := 0;
    } else if Peak(rates) == Compound(rates) {
      i := |rates|;
      assert rates[..i] == rates;
    } else {
      i := PeakIsReached(rates[..|rates| - 1]);
      Prefixes(rates, i);
    }
  }

  lemma {:induction false} SolventEquity(rates: seq<real>)
    requires Solvent(rates)
    ensures Compound(rates) >= 0.0
  {
    if rates != [] {
      SolventEquity(rates[..|rates| - 1]);
      ProductOrder(0.0, Compound(rates[..|rates| - 1]), 0.0, 1.0 + rates[|rates| - 1]);
    }
  }

  // ---- Drawdown ----------------------------------------------------------------------------

  /** A loss to a non-negative value is largest when it starts from the highest value. */
  lemma LossGrows(low: real, high: real, to: real)
    requires 0.0 < low <= high && to >= 0.0
    ensures Loss(low, to) <= Loss(high, to)
  {
    LossForm(low, to);
    LossForm(high, to);
    Reciprocal(low, high, to);
  }

  lemma LossForm(from: real, to: real)
    requires from > 0.0
    ensures Loss(from, to) == 1.0 - to / from
  {
    var q := to / from;
    assert from - to == from * (1.0 - q);
    Quotient(from - to, from, 1.0 - q);
  }

  lemma Quotient(x: real, d: real, q: real)
    requires d > 0.0 && x == d * q
    ensures x / d == q
  {
  }

  lemma Reciprocal(low: real, high: real, to: real)
    requires 0.0 < low <= high && to >= 0.0
    ensures to / low >= to / high
  {
    var q := to / low;
    assert q * high >= q * low == to;
  }

  lemma {:induction false} DrawdownBounds(rates: seq<real>, i: nat, j: nat)
    requires Solvent(rates) && i <= j <= |rates| && Equity(rates, i) > 0.0
    ensures Loss(Equity(rates, i), Equity(rates, j)) <= Drawdown(rates)
  {
    if rates == [] {
      assert rates[..0] == [];
    } else if j < |rates| {
      Prefixes(rates, i);
      Prefixes(rates, j);
      DrawdownBounds(rates[..|rates| - 1], i, j);
    } else {
      assert rates[..j] == rates;
      PeakIsMaximum(rates, i);
      SolventEquity(rates);
      LossGrows(Equity(rates, i), Peak(rates), Compound(rates));
    }
  }

  lemma {:induction false} DrawdownIsReached(rates: seq<real>) returns (i: nat, j: nat)
    ensures i <= j <= |rates| && Equity(rates, i) > 0.0
    ensures Loss(Equity(rates, i), Equity(rates, j)) == Drawdown(rates)
  {
    if rates == [] {
      i, j := 0, 0;
      assert rates[..0] == [];
    } else if Drawdown(rates) == Loss(Peak(rates), Compound(rates)) {
      i := PeakIsReached(rates);
      j := |rates|;
      assert rates[..j] == rates;
    } else {
      i, j := DrawdownIsReached(rates[..|rates| - 1]);
      Prefixes(rates, i);
      Prefixes(rates, j);
    }
  }

  /** With no return below minus one, the one-pass drawdown is the maximum loss over all pairs of times. */
  lemma DrawdownIsMaximumLoss(rates: seq<real>)
    requires Solvent(rates)
    ensures IsMaximumLoss(rates, Drawdown(rates))
  {
    forall i: nat, j: nat | i <= j <= |rates| && Equity(rates, i) > 0.0
      ensures Loss(Equity(rates, i), Equity(rates, j)) <= Drawdown(rates)
    {
      DrawdownBounds(rates, i, j);
    }
    var i, j := DrawdownIsReached(rates);
  }

  /**
   The guard is exact: a next return keeps the law after every solvent history if and only if it does
   not lose more than everything.
   */
  lemma DrawdownLawIffSolvent(r: real)
    ensures 1.0 + r >= 0.0
            <==> forall history | Solvent(history) :: IsMaximumLoss(history + [r], Drawdown(history + [r]))
  {
    if 1.0 + r >= 0.0 {
      forall history | Solvent(history)
        ensures IsMaximumLoss(history + [r], Drawdown(history + [r]))
      {
        DrawdownIsMaximumLoss(history + [r]);
      }
    } else {
      InsolventBreaksLaw(r);
      assert Solvent([-0.5]);
    }
  }

  lemma InsolventBreaksLaw(r: real)
    requires 1.0 + r < 0.0
    ensures !IsMaximumLoss([-0.5] + [r], Drawdown([-0.5] + [r]))
  {
    var s := [-0.5] + [r];
    var none: seq<real> := [];
    assert s[..0] == none && s[..1] == [-0.5] && s[..2] == s && s[..|s| - 1] == [-0.5] && [-0.5][..0] == none;
    assert Compound([-0.5]) == 0.5 && Peak([-0.5]) == 1.0 && Drawdown([-0.5]) == 0.5;
    assert Compound(s) == 0.5 * (1.0 + r) && Peak(s) == 1.0;
    assert Drawdown(s) == 1.0 - 0.5 * (1.0 + r);
    assert Equity(s, 1) == 0.5 && Equity(s, 2) == 0.5 * (1.0 + r);
    assert Loss(0.5, 0.5 * (1.0 + r)) == 1.0 - (1.0 + r);
  }

  // ---- Costs -------------------------------------------------------------------------------

  /** Net equity never exceeds gross equity when costs are not negative and no net return is below minus one. */
  lemma {:induction false} NetBelowGross(gross: seq<real>, net: seq<real>)
    requires |gross| == |net| && Solvent(net)
    requires forall k | 0 <= k < |net| :: net[k] <= gross[k]
    ensures 0.0 <= Compound(net) <= Compound(gross)
  {
    if net != [] {
      var n := |net| - 1;
      NetBelowGross(gross[..n], net[..n]);
      ProductOrder(Compound(net[..n]), Compound(gross[..n]), 1.0 + net[n], 1.0 + gross[n]);
    }
  }

  lemma ProductOrder(a: real, b: real, x: real, y: real)
    requires 0.0 <= a <= b && 0.0 <= x <= y
    ensures 0.0 <= a * x <= b * y
  {
    assert a * x <= b * x <= b * y;
  }

  // ---- The accumulating state of the policy comparison --------------------------------------

  const ROUND_TRIP_COST_RATE: real := 0.0012

  function Sum(s: seq<real>): real {
    if s == [] then 0.0 else s[0] + Sum(s[1..])
  }

  function Mean(s: seq<real>): real
    requires s != []
  {
    Sum(s) / |s| as real
  }

  function Shifted(s: seq<real>, shift: real): (t: seq<real>)
    ensures |t| == |s| && forall i | 0 <= i < |s| :: t[i] == s[i] - shift
  {
    seq(|s|, i requires 0 <= i < |s| => s[i] - shift)
  }

  lemma {:induction false} SumShifted(s: seq<real>, shift: real)
    ensures Sum(Shifted(s, shift)) == Sum(s) - |s| as real * shift
  {
    if s != [] {
      assert Shifted(s, shift)[1..] == Shifted(s[1..], shift);
      SumShifted(s[1..], shift);
    }
  }

  /** Subtracting the cost from every execution subtracts it from the mean. */
  lemma MeanShifted(s: seq<real>, shift: real)
    requires s != []
    ensures Mean(Shifted(s, shift)) == Mean(s) - shift
  {
    var n := |s| as real;
    SumShifted(s, shift);
    assert (Sum(s) - n * shift) / n == Sum(s) / n - shift;
  }

  function Wins(s: seq<real>): nat {
    if s == [] then 0 else (if s[0] - ROUND_TRIP_COST_RATE > 0.0 then 1 else 0) + Wins(s[1..])
  }

  class ReturnState {
    var equity: real
    var peak: real
    var maximumDrawdown: real
    var tradeCount: nat
    var winningTrades: nat
    var grossEquity: real
    ghost var periods: seq<real>
    ghost var grossPeriods: seq<real>

    constructor ()
      ensures Valid() && periods == [] && grossPeriods == [] && tradeCount == winningTrades == 0
    {
      equity, peak, maximumDrawdown, tradeCount, winningTrades, grossEquity := 1.0, 1.0, 0.0, 0, 0, 1.0;
      periods, grossPeriods := [], [];
    }

    ghost predicate Valid()
      reads this
    {
      && equity == Compound(periods) && peak == Peak(periods) && maximumDrawdown == Drawdown(periods)
      && grossEquity == Compound(grossPeriods) && winningTrades <= tradeCount
    }

    method Accumulate(net: real, gross: real)
      requires Valid()
      modifies `equity, `peak, `maximumDrawdown, `grossEquity, `periods, `grossPeriods
      ensures Valid() && periods == old(periods) + [net] && grossPeriods == old(grossPeriods) + [gross]
    {
      equity, grossEquity := Grow(equity, net), Grow(grossEquity, gross);
      peak := Max(peak, equity);
      LossForm(peak, equity);
      maximumDrawdown := Max(maximumDrawdown, if peak > 0.0 then 1.0 - equity / peak else 0.0);
      periods, grossPeriods := periods + [net], grossPeriods + [gross];
    }

    /** Adds one period; a period without executions returns nothing and costs nothing. */
    method Update(targetAllocationRate: real, executionReturns: seq<real>) returns (netPeriodReturn: real)
      requires Valid()
      modifies this
      ensures Valid() && periods == old(periods) + [netPeriodReturn]
      ensures executionReturns == [] ==> netPeriodReturn == 0.0 && grossPeriods == old(grossPeriods) + [0.0]
      ensures executionReturns != [] ==>
                grossPeriods == old(grossPeriods) + [targetAllocationRate * Mean(executionReturns)]
                && netPeriodReturn
                   == targetAllocationRate * Mean(executionReturns) - targetAllocationRate * ROUND_TRIP_COST_RATE
      ensures tradeCount == old(tradeCount) + |executionReturns|
      ensures winningTrades == old(winningTrades) + Wins(executionReturns)
    {
      var gross, net := 0.0, 0.0;
      if executionReturns != [] {
        MeanShifted(executionReturns, ROUND_TRIP_COST_RATE);
        gross := targetAllocationRate * Mean(executionReturns);
        net := targetAllocationRate * Mean(Shifted(executionReturns, ROUND_TRIP_COST_RATE));
      }
      Accumulate(net, gross);
      tradeCount := tradeCount + |executionReturns|;
      WinsBound(executionReturns);
      winningTrades := winningTrades + Wins(executionReturns);
      netPeriodReturn := net;
    }
  }

  lemma {:induction false} WinsBound(s: seq<real>)
    ensures Wins(s) <= |s|
  {
    if s != [] {
      WinsBound(s[1..]);
    }
  }
}
