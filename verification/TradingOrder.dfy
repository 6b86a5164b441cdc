/**
 What the order of a plan does to the online figures: the exact condition under which the accumulator
 and the batch function report the same, for every content of the records.
 */
module TradingOrder {
  import opened Wrappers
  import opened Sequences
  import opened StableSort
  import opened EquityCurve
  import opened QuantileCdf
  import opened Trading

  // ---- Plans and what is logged for them ---------------------------------------------------

  const HORIZONS: seq<int> := [5, 15, 30, 60]
  const FIXED_QUANTILES: seq<real> := [0.05, 0.1, 0.25, 0.5, 0.75, 0.9, 0.95]

  /** Every origin for both symbols, as the runner lists its tasks. */
  function PlanOf(origins: seq<int>): (plan: seq<Key>)
    ensures |plan| == 2 * |origins|
  {
    seq(2 * |origins|, i requires 0 <= i < 2 * |origins| =>
      Key(if i % 2 == 0 then BTCUSDT else ETHUSDT, origins[i / 2]))
  }

  ghost predicate Matches(tasks: seq<seq<Record>>, plan: seq<Key>) {
    |tasks| == |plan| && forall i | 0 <= i < |plan| :: Block(tasks[i]) && tasks[i][0].key == plan[i]
  }

  /**
   The records of one task: a record for each horizon, over the same fill candle and funding rate. A record
   whose target candle or whose whole task is missing is not available.
   */
  ghost predicate Produced(task: seq<Record>, k: Key) {
    && |task| == |HORIZONS|
    && forall h | 0 <= h < |HORIZONS| ::
         && task[h].key == k && task[h].horizon == HORIZONS[h]
         && task[h].nextBarClose == task[0].nextBarClose && task[h].fundingRate == task[0].fundingRate
         && (task[h].available <==> task[h].targetClose.Some?)
         && (task[h].available ==>
               (task[h].executable <==> task[h].nextBarClose.Some?) && Levels(task[h].quantiles) == FIXED_QUANTILES)
  }

  function Levels(ps: seq<Point>): (qs: seq<real>)
    ensures |qs| == |ps|
  {
    seq(|ps|, i requires 0 <= i < |ps| => ps[i].q)
  }

  /** The tasks hold what the runner logs for a plan. */
  ghost predicate Logged(tasks: seq<seq<Record>>, plan: seq<Key>) {
    |tasks| == |plan| && forall i | 0 <= i < |plan| :: Produced(tasks[i], plan[i])
  }

  /** The keys of a plan: distinct, at non-negative times. */
  predicate ValidPlan(plan: seq<Key>) {
    && (forall i | 0 <= i < |plan| :: plan[i].origin >= 0)
    && forall i, j | 0 <= i < j < |plan| :: plan[i] != plan[j]
  }

  predicate Ascending(plan: seq<Key>) {
    forall i, j | 0 <= i < j < |plan| :: plan[i].origin <= plan[j].origin
  }

  predicate ValidOrigins(origins: seq<int>) {
    && (forall i | 0 <= i < |origins| :: origins[i] >= 0)
    && forall i, j | 0 <= i < j < |origins| :: origins[i] != origins[j]
  }

  predicate AscendingOrigins(origins: seq<int>) {
    forall i, j | 0 <= i < j < |origins| :: origins[i] < origins[j]
  }

  lemma LoggedMatches(tasks: seq<seq<Record>>, plan: seq<Key>)
    requires Logged(tasks, plan)
    ensures Matches(tasks, plan)
  {
    assert forall i | 0 <= i < |plan| :: Produced(tasks[i], plan[i]);
  }

  lemma MatchingBlocks(tasks: seq<seq<Record>>, plan: seq<Key>)
    requires Matches(tasks, plan) && ValidPlan(plan)
    ensures TaskBlocks(tasks)
    ensures Ascending(plan) ==> InOriginOrder(tasks)
  {
  }

  lemma PlanIsValid(origins: seq<int>)
    requires ValidOrigins(origins)
    ensures ValidPlan(PlanOf(origins))
    ensures AscendingOrigins(origins) ==> Ascending(PlanOf(origins))
  {
    var plan := PlanOf(origins);
    forall i, j | 0 <= i < j < |plan|
      ensures plan[i] != plan[j] && (AscendingOrigins(origins) ==> plan[i].origin <= plan[j].origin)
    {
      assert i / 2 <= j / 2;
      assert i / 2 == j / 2 ==> i % 2 != j % 2;
    }
  }

  lemma PlanAt(origins: seq<int>, i: nat)
    requires i < |origins|
    ensures PlanOf(origins)[2 * i] == Key(BTCUSDT, origins[i])
  {
    assert 2 * i % 2 == 0 && 2 * i / 2 == i;
  }

  // ---- The figures that are reported -------------------------------------------------------

  datatype Figures = Figures(grossReturn: real, netReturn: real, sharpe: Option<real>, maxDrawdown: real,
                             winRate: Option<real>, tradeCount: nat, turnover: real,
                             averageHolding: Option<real>, costDrag: real)

  function Total(s: seq<int>): int {
    if s == [] then 0 else s[0] + Total(s[1..])
  }

  /** `summary`; the Sharpe ratio is some function of the list of net returns. */
  function Summary(sharpe: seq<real> -> Option<real>, l: Ledger): Figures {
    var n := |l.netReturns|;
    Figures(l.grossEquity - 1.0, l.equity - 1.0, sharpe(l.netReturns), l.drawdown,
            if n == 0 then None else Some(l.wins as real / n as real), n, l.turnover,
            if l.holding == [] then None else Some(Total(l.holding) as real / |l.holding| as real),
            Max(0.0, l.grossEquity - l.equity))
  }

  function OnlineFigures(sharpe: seq<real> -> Option<real>, tasks: seq<seq<Record>>, costScale: real): Figures {
    Summary(sharpe, AddTasks(OPENING, tasks, costScale).ledger)
  }

  function BatchFigures(sharpe: seq<real> -> Option<real>, tasks: seq<seq<Record>>, costScale: real): Figures {
    Summary(sharpe, BatchLedger(Flatten(tasks), costScale))
  }

  // ---- Contents that tell the two apart ----------------------------------------------------

  /** Equal quantiles, high enough to clear every gate. */
  function Flat(v: real): (ps: seq<Point>)
    ensures Levels(ps) == FIXED_QUANTILES && forall i | 0 <= i < |ps| :: ps[i].v == v
  {
    seq(|FIXED_QUANTILES|, i requires 0 <= i < |FIXED_QUANTILES| => Point(FIXED_QUANTILES[i], v))
  }

  function Sample(k: Key, target: Price, costScale: real): Record {
    Record(k, 5, true, true, Some(1.0), Some(target), Flat(BaseCost(costScale) + 1.0), None)
  }

  /** A record whose target candle is missing. */
  function Unsettled(k: Key, horizon: int): Record {
    Record(k, horizon, false, false, Some(1.0), None, Flat(0.0), None)
  }

  /** A record of a task that could not be prepared; it says nothing about execution, which reads as available. */
  function Unprepared(k: Key, horizon: int): Record {
    Record(k, horizon, false, true, None, None, [], None)
  }

  /** A task that can be traded at its shortest horizon only. */
  function Traded(k: Key, target: Price, costScale: real): seq<Record> {
    [Sample(k, target, costScale), Unsettled(k, 15), Unsettled(k, 30), Unsettled(k, 60)]
  }

  function Untraded(k: Key): seq<Record> {
    [Unprepared(k, 5), Unprepared(k, 15), Unprepared(k, 30), Unprepared(k, 60)]
  }

  /** Only the tasks at `i` and `j` can be traded. */
  function Witness(plan: seq<Key>, i: nat, j: nat, costScale: real): (tasks: seq<seq<Record>>)
    ensures |tasks| == |plan|
  {
    seq(|plan|, n requires 0 <= n < |plan| =>
      if n == i then Traded(plan[n], 3.0, costScale)
      else if n == j then Traded(plan[n], 2.0, costScale)
      else Untraded(plan[n]))
  }

  lemma WitnessLogged(plan: seq<Key>, i: nat, j: nat, costScale: real)
    ensures Logged(Witness(plan, i, j, costScale), plan)
  {
    var tasks := Witness(plan, i, j, costScale);
    forall n | 0 <= n < |plan|
      ensures Produced(tasks[n], plan[n])
    {
      TaskIsProduced(plan[n], 3.0, costScale);
      TaskIsProduced(plan[n], 2.0, costScale);
    }
  }

  lemma TaskIsProduced(k: Key, target: Price, costScale: real)
    ensures Produced(Traded(k, target, costScale), k) && Produced(Untraded(k), k)
  {
  }

  lemma FlatIsGrid(v: real)
    ensures TradingGrid(Flat(v))
  {
    var ps := Flat(v);
    assert forall i | 0 <= i < |ps| :: ps[i].q == FIXED_QUANTILES[i];
    assert ps[1].q == 0.1 && ps[3].q == 0.5 && ps[5].q == 0.9;
  }

  lemma {:induction false} FlatLevel(ps: seq<Point>, q: real, v: real)
    requires HasLevel(ps, q) && forall i | 0 <= i < |ps| :: ps[i].v == v
    ensures Level(ps, q) == v
  {
    if ps[0].q != q {
      var i :| 0 <= i < |ps| && ps[i].q == q;
      assert ps[1..][i - 1] == ps[i];
      FlatLevel(ps[1..], q, v);
    }
  }

  lemma SampleProposes(k: Key, target: Price, costScale: real)
    requires costScale >= 0.0
    ensures Usable(Sample(k, target, costScale))
    ensures var p := Proposal(Sample(k, target, costScale), costScale);
            p.Some? && p.value.horizon == 5 && p.value.long && p.value.threshold == BaseCost(costScale)
  {
    var r, v := Sample(k, target, costScale), BaseCost(costScale) + 1.0;
    FlatIsGrid(v);
    FlatLevel(r.quantiles, 0.1, v);
    FlatLevel(r.quantiles, 0.5, v);
    FlatLevel(r.quantiles, 0.9, v);
    assert Threshold(r, costScale) == BaseCost(costScale);
    FlatTail(v, BaseCost(costScale));
    FlatTail(v, -BaseCost(costScale));
  }

  lemma FlatTail(v: real, x: real)
    requires x <= v
    ensures Grid(Flat(v)) && TailClampedCdf(Flat(v), x) == 0.05
  {
    FlatIsGrid(v);
    assert Flat(v)[0].q == FIXED_QUANTILES[0];
  }

  /** A task with a single tradable record is traded exactly when its symbol is free. */
  lemma SampleTrades(clock: Clock, k: Key, target: Price, costScale: real)
    requires costScale >= 0.0
    ensures AllUsable([Sample(k, target, costScale)])
    ensures Decide(clock, [Sample(k, target, costScale)], costScale)
            == if k.origin < NextAvailable(clock, k.symbol) then None
               else Some(SampleTrade(k, target, costScale))
  {
    var r := Sample(k, target, costScale);
    SampleProposes(k, target, costScale);
    assert [r][..0] == [];
    assert BestOf([r], costScale) == Proposal(r, costScale);
    assert target / 1.0 == target;
  }

  function SampleTrade(k: Key, target: Price, costScale: real): Trade {
    Trade(k, 5, target - 1.0, target - 1.0 - BaseCost(costScale))
  }

  lemma TradedReduces(k: Key, target: Price, costScale: real)
    ensures Tradable(Traded(k, target, costScale)) == [Sample(k, target, costScale)]
    ensures Tradable(Untraded(k)) == []
  {
    FlatIsGrid(BaseCost(costScale) + 1.0);
    SampleFirst(Traded(k, target, costScale));
    NoneTradable(Untraded(k));
  }

  lemma {:induction false} NoneTradable(rs: seq<Record>)
    requires forall i | 0 <= i < |rs| :: !Usable(rs[i])
    ensures Tradable(rs) == []
  {
    if rs != [] {
      NoneTradable(rs[..|rs| - 1]);
    }
  }

  lemma {:induction false} SampleFirst(rs: seq<Record>)
    requires rs != [] && Usable(rs[0]) && forall i | 1 <= i < |rs| :: !Usable(rs[i])
    ensures Tradable(rs) == [rs[0]]
  {
    if |rs| > 1 {
      SampleFirst(rs[..|rs| - 1]);
    } else {
      assert rs[..0] == [];
    }
  }

  lemma WitnessTradable(plan: seq<Key>, i: nat, j: nat, costScale: real, n: nat)
    requires i < j < |plan| && n < |plan|
    ensures Tradable(Witness(plan, i, j, costScale)[n]) ==
            if n == i then [Sample(plan[i], 3.0, costScale)]
            else if n == j then [Sample(plan[j], 2.0, costScale)]
            else []
  {
    TradedReduces(plan[n], 3.0, costScale);
    TradedReduces(plan[n], 2.0, costScale);
  }

  /** What a task contributes to the reduced tasks. */
  function Contribution(task: seq<Record>): seq<seq<Record>> {
    if Tradable(task) == [] then [] else [Tradable(task)]
  }

  lemma ReduceStep(tasks: seq<seq<Record>>, n: nat)
    requires n < |tasks|
    ensures Reduce(tasks[..n + 1]) == Reduce(tasks[..n]) + Contribution(tasks[n])
  {
    assert tasks[..n + 1][..n] == tasks[..n];
  }

  lemma ReducedToTwoStep(tasks: seq<seq<Record>>, a: seq<seq<Record>>, b: seq<seq<Record>>, i: nat, j: nat, n: nat)
    requires i < j && n < |tasks| && Reduce(tasks[..n]) == TwoParts(a, b, i, j, n)
    requires Contribution(tasks[n]) == if n == i then a else if n == j then b else []
    ensures Reduce(tasks[..n + 1]) == TwoParts(a, b, i, j, n + 1)
  {
    ReduceStep(tasks, n);
    TwoPartsStep(a, b, i, j, n);
  }

  lemma {:induction false} ReducedToTwo(tasks: seq<seq<Record>>, a: seq<seq<Record>>, b: seq<seq<Record>>,
                                        i: nat, j: nat, n: nat)
    requires i < j < |tasks| && n <= |tasks|
    requires forall m | 0 <= m < |tasks| :: Contribution(tasks[m]) == if m == i then a else if m == j then b else []
    ensures Reduce(tasks[..n]) == TwoParts(a, b, i, j, n)
  {
    if n > 0 {
      ReducedToTwo(tasks, a, b, i, j, n - 1);
      ReducedToTwoStep(tasks, a, b, i, j, n - 1);
    }
  }

  lemma WitnessReduced(plan: seq<Key>, i: nat, j: nat, costScale: real)
    requires i < j < |plan|
    ensures Reduce(Witness(plan, i, j, costScale))
            == [[Sample(plan[i], 3.0, costScale)], [Sample(plan[j], 2.0, costScale)]]
  {
    var tasks := Witness(plan, i, j, costScale);
    var a, b := [[Sample(plan[i], 3.0, costScale)]], [[Sample(plan[j], 2.0, costScale)]];
    forall m | 0 <= m < |tasks|
      ensures Contribution(tasks[m]) == if m == i then a else if m == j then b else []
    {
      WitnessTradable(plan, i, j, costScale, m);
    }
    ReducedToTwo(tasks, a, b, i, j, |tasks|);
    assert tasks[..|tasks|] == tasks;
  }

  // ---- Two tasks in either order -----------------------------------------------------------

  lemma TradesOfOne(a: seq<Record>, t: Trade, costScale: real)
    requires a != [] && AllUsable(a) && Decide(map[], a, costScale) == Some(t)
    ensures GroupsUsable([a]) && Trades([a], costScale) == ([t], Tick(map[], t))
  {
    var groups := [a];
    assert groups[..0] == [];
    assert Trades(groups[..0], costScale) == ([], map[]);
    assert [] + [t] == [t];
  }

  lemma TradesOfTwo(a: seq<Record>, b: seq<Record>, t: Trade, costScale: real)
    requires a != [] && AllUsable(a) && b != [] && AllUsable(b) && Decide(map[], a, costScale) == Some(t)
    ensures GroupsUsable([a, b])
    ensures var next := Decide(Tick(map[], t), b, costScale);
            Trades([a, b], costScale).0 == [t] + if next.Some? then [next.value] else []
  {
    var groups := [a, b];
    assert groups[..1] == [a];
    TradesOfOne(a, t, costScale);
  }

  lemma SortTwo(a: seq<Record>, b: seq<Record>)
    requires Origin(a) > Origin(b)
    ensures Sort(Origin, [a, b]) == [b, a]
  {
    assert [a, b][1..] == [b] && [b][1..] == [];
    assert Sort(Origin, [b]) == [b];
    assert Insert(Origin, a, [b]) == [b] + Insert(Origin, a, [b][1..]);
  }

  /** The accumulator trades the first of two tasks first, the batch function the earlier one. */
  lemma InversionLedgers(plan: seq<Key>, i: nat, j: nat, costScale: real)
    requires ValidPlan(plan) && i < j < |plan| && plan[i].origin > plan[j].origin
    ensures var tasks := Witness(plan, i, j, costScale);
            var a, b := [Sample(plan[i], 3.0, costScale)], [Sample(plan[j], 2.0, costScale)];
            && GroupsUsable([a, b]) && GroupsUsable([b, a])
            && AddTasks(OPENING, tasks, costScale).ledger == Account(Trades([a, b], costScale).0)
            && BatchLedger(Flatten(tasks), costScale) == Account(Trades([b, a], costScale).0)
  {
    var tasks := Witness(plan, i, j, costScale);
    var a, b := [Sample(plan[i], 3.0, costScale)], [Sample(plan[j], 2.0, costScale)];
    WitnessLogged(plan, i, j, costScale);
    LoggedMatches(tasks, plan);
    MatchingBlocks(tasks, plan);
    WitnessReduced(plan, i, j, costScale);
    OnePassIsTwoPass(tasks, costScale);
    BatchOfTasks(tasks, costScale);
    SortTwo(a, b);
  }

  /** For one symbol the accumulator drops the earlier task; the batch function trades it, and trades it first. */
  lemma SameSymbolTrades(k: Key, m: Key, costScale: real)
    requires k.symbol == m.symbol && 0 <= m.origin < k.origin && costScale >= 0.0
    ensures var a, b := [Sample(k, 3.0, costScale)], [Sample(m, 2.0, costScale)];
            && GroupsUsable([a, b]) && GroupsUsable([b, a])
            && Trades([a, b], costScale).0 == [SampleTrade(k, 3.0, costScale)]
            && Trades([b, a], costScale).0
               == [SampleTrade(m, 2.0, costScale)]
                  + if k.origin < m.origin + 300000 then [] else [SampleTrade(k, 3.0, costScale)]
  {
    var a, b := [Sample(k, 3.0, costScale)], [Sample(m, 2.0, costScale)];
    var t, u := SampleTrade(k, 3.0, costScale), SampleTrade(m, 2.0, costScale);
    SampleTrades(map[], k, 3.0, costScale);
    SampleTrades(map[], m, 2.0, costScale);
    SampleTrades(Tick(map[], u), k, 3.0, costScale);
    SampleTrades(Tick(map[], t), m, 2.0, costScale);
    TradesOfTwo(a, b, t, costScale);
    TradesOfTwo(b, a, u, costScale);
  }

  lemma CompoundOne(r: real)
    ensures Compound([r]) == 1.0 + r
  {
    assert [r][..0] == [];
  }

  /** One trade and two are counted differently, and different single trades return differently. */
  lemma FiguresDiffer(sharpe: seq<real> -> Option<real>, t: Trade, trades: seq<Trade>)
    requires |trades| == 2 || (|trades| == 1 && trades[0].net != t.net)
    ensures Summary(sharpe, Account([t])) != Summary(sharpe, Account(trades))
  {
    if |trades| == 1 {
      CompoundOne(t.net);
      CompoundOne(trades[0].net);
      assert Account([t]).netReturns == [t.net] && Account(trades).netReturns == [trades[0].net];
    } else {
      assert Summary(sharpe, Account(trades)).tradeCount == 2;
    }
  }

  /** Two tasks of one symbol in the wrong order are enough to report different figures. */
  lemma InversionChangesFigures(sharpe: seq<real> -> Option<real>, plan: seq<Key>, i: nat, j: nat, costScale: real)
    requires ValidPlan(plan) && costScale >= 0.0
    requires i < j < |plan| && plan[i].symbol == plan[j].symbol && plan[i].origin > plan[j].origin
    ensures var tasks := Witness(plan, i, j, costScale);
            OnlineFigures(sharpe, tasks, costScale) != BatchFigures(sharpe, tasks, costScale)
  {
    InversionLedgers(plan, i, j, costScale);
    SameSymbolTrades(plan[i], plan[j], costScale);
    var a, b := [Sample(plan[i], 3.0, costScale)], [Sample(plan[j], 2.0, costScale)];
    FiguresDiffer(sharpe, SampleTrade(plan[i], 3.0, costScale), Trades([b, a], costScale).0);
  }

  // ---- The exact conditions ----------------------------------------------------------------

  lemma FlattenOne<T>(part: seq<T>)
    ensures Flatten([part]) == part
  {
    assert [part][..0] == [];
    assert Flatten<T>([]) + part == part;
  }

  lemma AscendingAgrees(tasks: seq<seq<Record>>, plan: seq<Key>, costScale: real)
    requires ValidPlan(plan) && Ascending(plan) && Matches(tasks, plan)
    ensures AddTasks(OPENING, tasks, costScale).ledger == BatchLedger(Flatten(tasks), costScale)
  {
    MatchingBlocks(tasks, plan);
    FlattenOne(tasks);
    OnlineEqualsBatch([tasks], costScale);
    CallsAreTasks(OPENING, [tasks], costScale);
  }

  /**
   For the plans of the runner: the accumulator reports the figures of the batch function for every
   content of the records if and only if the origins are listed in increasing order.
   */
  lemma FiguresAgreeIffAscending(sharpe: seq<real> -> Option<real>, origins: seq<int>, costScale: real)
    requires ValidOrigins(origins) && costScale >= 0.0
    ensures AscendingOrigins(origins)
            <==> forall tasks | Logged(tasks, PlanOf(origins)) ::
                   OnlineFigures(sharpe, tasks, costScale) == BatchFigures(sharpe, tasks, costScale)
  {
    var plan := PlanOf(origins);
    PlanIsValid(origins);
    if AscendingOrigins(origins) {
      forall tasks | Logged(tasks, plan)
        ensures OnlineFigures(sharpe, tasks, costScale) == BatchFigures(sharpe, tasks, costScale)
      {
        LoggedMatches(tasks, plan);
        AscendingAgrees(tasks, plan, costScale);
      }
    } else {
      var i, j :| 0 <= i < j < |origins| && origins[i] >= origins[j];
      PlanAt(origins, i);
      PlanAt(origins, j);
      WitnessLogged(plan, 2 * i, 2 * j, costScale);
      InversionChangesFigures(sharpe, plan, 2 * i, 2 * j, costScale);
    }
  }

  lemma OrderMatters(k: Key, m: Key, costScale: real)
    requires k.origin >= 0 && m.origin >= 0 && costScale >= 0.0
    ensures var a, b := [Sample(k, 3.0, costScale)], [Sample(m, 2.0, costScale)];
            && GroupsUsable([a, b]) && GroupsUsable([b, a])
            && Account(Trades([a, b], costScale).0) != Account(Trades([b, a], costScale).0)
  {
    var a, b := [Sample(k, 3.0, costScale)], [Sample(m, 2.0, costScale)];
    SampleTrades(map[], k, 3.0, costScale);
    SampleTrades(map[], m, 2.0, costScale);
    TradesOfTwo(a, b, SampleTrade(k, 3.0, costScale), costScale);
    TradesOfTwo(b, a, SampleTrade(m, 2.0, costScale), costScale);
    assert Account(Trades([a, b], costScale).0).netReturns[0] == 2.0 - BaseCost(costScale);
    assert Account(Trades([b, a], costScale).0).netReturns[0] == 1.0 - BaseCost(costScale);
  }

  /**
   For any plan, whatever its symbols: the two keep the same ledger, lists of returns included, for every
   content of the records if and only if the plan is in nondecreasing origin order.
   */
  lemma OnlineEqualsBatchIffAscending(plan: seq<Key>, costScale: real)
    requires ValidPlan(plan) && costScale >= 0.0
    ensures Ascending(plan)
            <==> forall tasks | Matches(tasks, plan) ::
                   AddTasks(OPENING, tasks, costScale).ledger == BatchLedger(Flatten(tasks), costScale)
  {
    if Ascending(plan) {
      forall tasks | Matches(tasks, plan)
        ensures AddTasks(OPENING, tasks, costScale).ledger == BatchLedger(Flatten(tasks), costScale)
      {
        AscendingAgrees(tasks, plan, costScale);
      }
    } else {
      var i, j :| 0 <= i < j < |plan| && plan[i].origin > plan[j].origin;
      WitnessLogged(plan, i, j, costScale);
      LoggedMatches(Witness(plan, i, j, costScale), plan);
      InversionLedgers(plan, i, j, costScale);
      OrderMatters(plan[i], plan[j], costScale);
    }
  }
}
