/** The objects and loops that compute the trading metrics, each proved against its definition in `Trading`. */
module TradingAccumulators {
  import opened Wrappers
  import opened StableSort
  import opened EquityCurve
  import opened Trading

  /** From the candidates of one task to its trade: skip a busy symbol, scan, price the chosen horizon. */
  method DecideTask(clock: Clock, candidates: seq<Record>, costScale: real) returns (trade: Option<Trade>)
    requires candidates != [] && AllUsable(candidates)
    ensures Decided(clock, candidates, costScale, trade)
    ensures trade == Decide(clock, candidates, costScale)
  {
    DecisionMeaning(clock, candidates, costScale, Decide(clock, candidates, costScale));
    var symbol, origin := candidates[0].key.symbol, candidates[0].key.origin;
    if origin < NextAvailable(clock, symbol) {
      return None;
    }
    var best := FindBest(candidates, costScale);
    if best == None {
      return None;
    }
    return Some(PricedTrade(candidates, best.value));
  }

  class OnlineTradingAccumulator {
    const costScale: real
    var nextAvailable: Clock
    var netReturns: seq<real>
    var grossReturns: seq<real>
    var holding: seq<int>
    var turnover: real
    var equity: real
    var grossEquity: real
    var peak: real
    var drawdown: real
    var wins: nat

    constructor (costScale: real)
      ensures View() == OPENING && Valid() && this.costScale == costScale
    {
      this.costScale := costScale;
      nextAvailable, netReturns, grossReturns, holding := map[], [], [], [];
      turnover, equity, grossEquity, peak, drawdown, wins := 0.0, 1.0, 1.0, 1.0, 0.0, 0;
    }

    function View(): Book
      reads this
    {
      Book(nextAvailable,
           Ledger(grossReturns, netReturns, holding, turnover, grossEquity, equity, peak, drawdown, wins))
    }

    predicate Valid()
      reads this
    {
      peak >= 1.0
    }

    /** Appends one trade to every figure. */
    method PostTrade(t: Trade)
      requires Valid()
      modifies this
      ensures Valid() && View() == Book(Tick(old(View()).clock, t), Post(old(View()).ledger, t))
    {
      grossReturns := grossReturns + [t.gross];
      netReturns := netReturns + [t.net];
      holding := holding + [t.horizon];
      turnover := turnover + 2.0;
      nextAvailable := nextAvailable[t.key.symbol := t.key.origin + t.horizon * 60000];
      grossEquity := Grow(grossEquity, t.gross);
      equity := Grow(equity, t.net);
      peak := Max(peak, equity);
      drawdown := Max(drawdown, Loss(peak, equity));
      wins := wins + if t.net > 0.0 then 1 else 0;
    }

    method AddTask(candidates: seq<Record>)
      requires Valid()
      modifies this
      ensures Valid() && View() == Trading.AddTask(old(View()), candidates, costScale)
    {
      var available := Tradable(candidates);
      if available == [] {
        return;
      }
      var trade := DecideTask(nextAvailable, available, costScale);
      if trade.Some? {
        PostTrade(trade.value);
      }
    }
  }

  /** `grouped.setdefault(key, []).append(record)`. */
  method AppendToGroup(groups: seq<seq<Record>>, r: Record) returns (result: seq<seq<Record>>)
    ensures result == AddToGroups(groups, r)
  {
    var at := 0;
    assert groups[0..] == groups && groups[..0] == [];
    while at < |groups| && !(groups[at] != [] && groups[at][0].key == r.key)
      invariant 0 <= at <= |groups|
      invariant AddToGroups(groups, r) == groups[..at] + AddToGroups(groups[at..], r)
    {
      PassGroup(groups, at, r);
      at := at + 1;
    }
    if at < |groups| {
      assert groups[at..][1..] == groups[at + 1..];
      return groups[at := groups[at] + [r]];
    }
    return groups + [[r]];
  }

  lemma PassGroup(groups: seq<seq<Record>>, at: nat, r: Record)
    requires at < |groups| && !(groups[at] != [] && groups[at][0].key == r.key)
    ensures groups[..at] + AddToGroups(groups[at..], r) == groups[..at + 1] + AddToGroups(groups[at + 1..], r)
  {
    assert groups[at..][1..] == groups[at + 1..];
    assert AddToGroups(groups[at..], r) == [groups[at]] + AddToGroups(groups[at + 1..], r);
    assert groups[..at + 1] == groups[..at] + [groups[at]];
  }

  method GroupRecords(rs: seq<Record>) returns (groups: seq<seq<Record>>)
    ensures groups == Group(rs)
  {
    groups := [];
    for i := 0 to |rs|
      invariant groups == Group(rs[..i])
    {
      assert rs[..i + 1][..i] == rs[..i];
      groups := AppendToGroup(groups, rs[i]);
    }
    assert rs[..|rs|] == rs;
  }

  class PartialMetricsAccumulator {
    const base: OnlineTradingAccumulator
    const stressed: OnlineTradingAccumulator
    const doubled: OnlineTradingAccumulator

    ghost predicate Valid()
      reads this, base, stressed, doubled
    {
      && base != stressed && stressed != doubled && doubled != base
      && base.Valid() && stressed.Valid() && doubled.Valid()
    }

    constructor ()
      ensures Valid() && fresh(base) && fresh(stressed) && fresh(doubled)
      ensures base.View() == stressed.View() == doubled.View() == OPENING
      ensures base.costScale == 1.0 && stressed.costScale == 1.5 && doubled.costScale == 2.0
    {
      base := new OnlineTradingAccumulator(1.0);
      stressed := new OnlineTradingAccumulator(1.5);
      doubled := new OnlineTradingAccumulator(2.0);
    }

    /** Feeds one call's records, group by group, to the accumulators of all three cost scales. */
    method Add(records: seq<Record>)
      requires Valid()
      modifies base, stressed, doubled
      ensures Valid()
      ensures base.View() == AddRecords(old(base.View()), records, base.costScale)
      ensures stressed.View() == AddRecords(old(stressed.View()), records, stressed.costScale)
      ensures doubled.View() == AddRecords(old(doubled.View()), records, doubled.costScale)
    {
      var groups := GroupRecords(records);
      for i := 0 to |groups|
        invariant Valid()
        invariant base.View() == AddTasks(old(base.View()), groups[..i], base.costScale)
        invariant stressed.View() == AddTasks(old(stressed.View()), groups[..i], stressed.costScale)
        invariant doubled.View() == AddTasks(old(doubled.View()), groups[..i], doubled.costScale)
      {
        AddTasksStep(old(base.View()), groups, i, base.costScale);
        AddTasksStep(old(stressed.View()), groups, i, stressed.costScale);
        AddTasksStep(old(doubled.View()), groups, i, doubled.costScale);
        base.AddTask(groups[i]);
        stressed.AddTask(groups[i]);
        doubled.AddTask(groups[i]);
      }
      assert groups[..|groups|] == groups;
    }
  }

  /** The second loop of `trading_metrics`: equity and drawdown over the finished lists of returns. */
  method CompoundReturns(gross: seq<real>, net: seq<real>)
    returns (grossEquity: real, equity: real, peak: real, drawdown: real)
    requires |gross| == |net|
    ensures grossEquity == Compound(gross) && equity == Compound(net)
    ensures peak == Peak(net) && drawdown == Drawdown(net)
  {
    grossEquity, equity, peak, drawdown := 1.0, 1.0, 1.0, 0.0;
    for i := 0 to |net|
      invariant grossEquity == Compound(gross[..i]) && equity == Compound(net[..i])
      invariant peak == Peak(net[..i]) && drawdown == Drawdown(net[..i])
    {
      assert gross[..i + 1] == gross[..i] + [gross[i]] && net[..i + 1] == net[..i] + [net[i]];
      grossEquity := Grow(grossEquity, gross[i]);
      equity := Grow(equity, net[i]);
      peak := Max(peak, equity);
      drawdown := Max(drawdown, Loss(peak, equity));
    }
    assert gross[..|net|] == gross && net[..|net|] == net;
  }

  /** The first loop of `trading_metrics`: the trades of groups in origin order. */
  method CollectTrades(groups: seq<seq<Record>>, costScale: real) returns (trades: seq<Trade>)
    requires GroupsUsable(groups)
    ensures trades == Trades(groups, costScale).0
  {
    trades := [];
    var clock: Clock := map[];
    for i := 0 to |groups|
      invariant GroupsUsable(groups[..i]) && (trades, clock) == Trades(groups[..i], costScale)
    {
      TradesStep(groups, i, costScale);
      var trade := DecideTask(clock, groups[i], costScale);
      if trade.Some? {
        trades := trades + [trade.value];
        clock := Tick(clock, trade.value);
      }
    }
    assert groups[..|groups|] == groups;
  }

  method TradingMetrics(records: seq<Record>, costScale: real) returns (ledger: Ledger)
    ensures ledger == BatchLedger(records, costScale)
  {
    var available := Tradable(records);
    var grouped := GroupRecords(available);
    GroupUsable(available);
    SortedUsable(grouped);
    var trades := CollectTrades(Sort(Origin, grouped), costScale);
    var summary := Account(trades);
    var grossEquity, equity, peak, drawdown := CompoundReturns(summary.grossReturns, summary.netReturns);
    ledger := Ledger(summary.grossReturns, summary.netReturns, summary.holding, summary.turnover,
                     grossEquity, equity, peak, drawdown, summary.wins);
  }
}
