/**
 The trading metrics of one combination, twice: accumulated task by task while records arrive, and
 recomputed from the whole list of records.
 */
module Trading {
  import opened Wrappers
  import opened StableSort
  import opened EquityCurve
  import opened QuantileCdf

  datatype Symbol = BTCUSDT | ETHUSDT

  datatype Key = Key(symbol: Symbol, origin: int)

  type Price = x: real | x > 0.0 witness 1.0

  predicate HasLevel(ps: seq<Point>, q: real) {
    exists i :: 0 <= i < |ps| && ps[i].q == q
  }

  predicate TradingGrid(ps: seq<Point>) {
    Grid(ps) && HasLevel(ps, 0.1) && HasLevel(ps, 0.5) && HasLevel(ps, 0.9)
  }

  /** One forecast record; origins are milliseconds, horizons minutes. */
  datatype Record = Record(key: Key, horizon: int, available: bool, executable: bool,
                           nextBarClose: Option<Price>, targetClose: Option<Price>,
                           quantiles: seq<Point>, fundingRate: Option<real>)

  function Level(ps: seq<Point>, q: real): real
    requires HasLevel(ps, q)
  {
    if ps[0].q == q then ps[0].v else
      assert forall i | 1 <= i < |ps| :: ps[i] == ps[1..][i - 1];
      Level(ps[1..], q)
  }

  /** What the worker contract and the candle checks guarantee of a record that can be traded. */
  predicate WellFormed(r: Record) {
    TradingGrid(r.quantiles) && r.horizon > 0
  }

  predicate Usable(r: Record) {
    WellFormed(r) && r.available && r.executable && r.nextBarClose.Some? && r.targetClose.Some?
  }

  predicate AllUsable(rs: seq<Record>) {
    forall i | 0 <= i < |rs| :: Usable(rs[i])
  }

  function Tradable(rs: seq<Record>): (t: seq<Record>)
    ensures AllUsable(t)
  {
    if rs == [] then []
    else Tradable(rs[..|rs| - 1]) + if Usable(rs[|rs| - 1]) then [rs[|rs| - 1]] else []
  }

  // ---- One decision ------------------------------------------------------------------------

  datatype Best = Best(score: real, horizon: int, long: bool, threshold: real)

  datatype Trade = Trade(key: Key, horizon: int, gross: real, net: real)

  function Abs(x: real): real {
    if x < 0.0 then -x else x
  }

  function BaseCost(costScale: real): real {
    14.0 / 10000.0 * costScale
  }

  function Threshold(r: Record, costScale: real): real {
    BaseCost(costScale) + Abs(if r.fundingRate.Some? then r.fundingRate.value else 0.0) * r.horizon as real / 480.0
  }

  /** The trade that one record proposes, if it clears the probability and cost gates. */
  function Proposal(r: Record, costScale: real): Option<Best>
    requires Usable(r)
  {
    var threshold := Threshold(r, costScale);
    var longProbability := 1.0 - TailClampedCdf(r.quantiles, threshold);
    var shortProbability := TailClampedCdf(r.quantiles, -threshold);
    var long := longProbability >= shortProbability;
    var probability := Max(longProbability, shortProbability);
    var expectedNet := Abs(Level(r.quantiles, 0.5)) - threshold;
    var tail := Max(0.000000001, if long then -Level(r.quantiles, 0.1) else Level(r.quantiles, 0.9));
    if probability >= 0.62 && expectedNet > 0.0
    then Some(Best(expectedNet / tail * probability, r.horizon, long, threshold))
    else None
  }

  function Better(best: Option<Best>, next: Option<Best>): Option<Best> {
    if next.Some? && (best.None? || next.value.score > best.value.score) then next else best
  }

  predicate HasHorizon(rs: seq<Record>, horizon: int) {
    exists i :: 0 <= i < |rs| && rs[i].horizon == horizon
  }

  function BestOf(rs: seq<Record>, costScale: real): (b: Option<Best>)
    requires AllUsable(rs)
    ensures b.Some? ==> HasHorizon(rs, b.value.horizon)
  {
    if rs == [] then None
    else Better(BestOf(rs[..|rs| - 1], costScale), Proposal(rs[|rs| - 1], costScale))
  }

  function FirstWithHorizon(rs: seq<Record>, horizon: int): (r: Record)
    requires AllUsable(rs) && HasHorizon(rs, horizon)
    ensures Usable(r) && r.horizon == horizon
  {
    if rs[0].horizon == horizon then rs[0] else
      assert forall i | 1 <= i < |rs| :: rs[i] == rs[1..][i - 1];
      FirstWithHorizon(rs[1..], horizon)
  }

  type Clock = map<Symbol, int>

  /** When a symbol can be traded again; minus one before its first trade. */
  function NextAvailable(clock: Clock, s: Symbol): int {
    if s in clock then clock[s] else -1
  }

  function Gross(entry: Price, exit: Price, long: bool): real {
    if long then exit / entry - 1.0 else entry / exit - 1.0
  }

  /** The trade of the chosen horizon, priced from the next bar to the target. */
  function PricedTrade(rs: seq<Record>, best: Best): Trade
    requires rs != [] && AllUsable(rs) && HasHorizon(rs, best.horizon)
  {
    var selected := FirstWithHorizon(rs, best.horizon);
    var gross := Gross(selected.nextBarClose.value, selected.targetClose.value, best.long);
    Trade(rs[0].key, best.horizon, gross, gross - best.threshold)
  }

  /** The trade that the records of one task lead to. */
  function Decide(clock: Clock, rs: seq<Record>, costScale: real): Option<Trade>
    requires rs != [] && AllUsable(rs)
  {
    var best := BestOf(rs, costScale);
    if rs[0].key.origin < NextAvailable(clock, rs[0].key.symbol) || best.None? then None
    else Some(PricedTrade(rs, best.value))
  }

  function Tick(clock: Clock, t: Trade): Clock {
    clock[t.key.symbol := t.key.origin + t.horizon * 60000]
  }

  // ---- What a decision is ------------------------------------------------------------------

  function Proposals(rs: seq<Record>, costScale: real): (ps: seq<Option<Best>>)
    requires AllUsable(rs)
    ensures |ps| == |rs| && forall i | 0 <= i < |rs| :: ps[i] == Proposal(rs[i], costScale)
  {
    seq(|rs|, i requires 0 <= i < |rs| => Proposal(rs[i], costScale))
  }

  /** There is a proposal at `i`; none scores higher, and none before it scores as high. */
  predicate Leads(ps: seq<Option<Best>>, i: nat) {
    && i < |ps| && ps[i].Some?
    && forall j | 0 <= j < |ps| && ps[j].Some? ::
         ps[j].value.score <= ps[i].value.score && (j < i ==> ps[j].value.score < ps[i].value.score)
  }

  predicate NothingProposed(ps: seq<Option<Best>>) {
    forall j | 0 <= j < |ps| :: ps[j].None?
  }

  /** `best` is the leading proposal, or there is none. */
  ghost predicate IsLeading(ps: seq<Option<Best>>, best: Option<Best>) {
    if best.None? then NothingProposed(ps) else exists i: nat :: Leads(ps, i) && ps[i] == best
  }

  lemma LeadingStep(ps: seq<Option<Best>>, best: Option<Best>, next: Option<Best>)
    requires IsLeading(ps, best)
    ensures IsLeading(ps + [next], Better(best, next))
  {
    var longer := ps + [next];
    if Better(best, next) == next && next.Some? && (best.None? || next.value.score > best.value.score) {
      if best.Some? {
        var i: nat :| Leads(ps, i) && ps[i] == best;
      }
      assert Leads(longer, |ps|);
    } else if best.Some? {
      var i: nat :| Leads(ps, i) && ps[i] == best;
      assert longer[i] == best;
      assert Leads(longer, i);
    }
  }

  /** The fold over the candidates, once their proposals are known. */
  function Foremost(ps: seq<Option<Best>>): Option<Best> {
    if ps == [] then None else Better(Foremost(ps[..|ps| - 1]), ps[|ps| - 1])
  }

  lemma {:induction false} ForemostLeads(ps: seq<Option<Best>>)
    ensures IsLeading(ps, Foremost(ps))
  {
    if ps != [] {
      var front, last := ps[..|ps| - 1], ps[|ps| - 1];
      ForemostLeads(front);
      LeadingStep(front, Foremost(front), last);
      assert ps == front + [last];
    }
  }

  lemma {:induction false} BestIsForemost(rs: seq<Record>, costScale: real)
    requires AllUsable(rs)
    ensures BestOf(rs, costScale) == Foremost(Proposals(rs, costScale))
  {
    if rs != [] {
      BestIsForemost(rs[..|rs| - 1], costScale);
      assert Proposals(rs, costScale)[..|rs| - 1] == Proposals(rs[..|rs| - 1], costScale);
    }
  }

  /** The scan ends with the leading proposal, if any record proposes at all. */
  lemma BestLeads(rs: seq<Record>, costScale: real)
    requires AllUsable(rs)
    ensures IsLeading(Proposals(rs, costScale), BestOf(rs, costScale))
  {
    BestIsForemost(rs, costScale);
    ForemostLeads(Proposals(rs, costScale));
  }

  /** The first record with the horizon of the record at `i`. */
  predicate FirstAlike(rs: seq<Record>, i: nat, s: nat) {
    s <= i < |rs| && rs[s].horizon == rs[i].horizon && forall j | 0 <= j < s :: rs[j].horizon != rs[i].horizon
  }

  /**
   The leading proposal is the one at `i`, and `t` takes it: its side and its threshold, at the prices of
   the first record with its horizon, which is the one at `s`.
   */
  predicate TakesLeader(rs: seq<Record>, costScale: real, t: Trade, i: nat, s: nat)
    requires AllUsable(rs)
  {
    && Leads(Proposals(rs, costScale), i) && FirstAlike(rs, i, s)
    && t.key == rs[0].key && t.horizon == rs[i].horizon
    && t.gross == Gross(rs[s].nextBarClose.value, rs[s].targetClose.value, Proposal(rs[i], costScale).value.long)
    && t.net == t.gross - Threshold(rs[i], costScale)
  }

  ghost predicate Taken(rs: seq<Record>, costScale: real, t: Trade)
    requires AllUsable(rs)
  {
    exists i: nat, s: nat :: TakesLeader(rs, costScale, t, i, s)
  }

  /** What a decision means: no trade for a busy symbol or without a proposal, else the leading proposal. */
  ghost predicate Decided(clock: Clock, rs: seq<Record>, costScale: real, decision: Option<Trade>)
    requires rs != [] && AllUsable(rs)
  {
    var busy := rs[0].key.origin < NextAvailable(clock, rs[0].key.symbol);
    match decision
    case None => busy || NothingProposed(Proposals(rs, costScale))
    case Some(t) => !busy && Taken(rs, costScale, t)
  }

  lemma {:induction false} FirstIsAlike(rs: seq<Record>, i: nat) returns (s: nat)
    requires AllUsable(rs) && i < |rs|
    ensures FirstAlike(rs, i, s) && rs[s] == FirstWithHorizon(rs, rs[i].horizon)
  {
    if rs[0].horizon == rs[i].horizon {
      s := 0;
    } else {
      s := FirstIsAlike(rs[1..], i - 1);
      s := s + 1;
    }
  }

  lemma TakenIsPriced(rs: seq<Record>, costScale: real, t: Trade, i: nat, s: nat)
    requires AllUsable(rs) && TakesLeader(rs, costScale, t, i, s)
    ensures t == PricedTrade(rs, Proposal(rs[i], costScale).value)
  {
    var first := FirstIsAlike(rs, i);
    assert first == s;
  }

  lemma LeadsOnce(ps: seq<Option<Best>>, best: Option<Best>, i: nat)
    requires Leads(ps, i) && IsLeading(ps, best)
    ensures best == ps[i]
  {
    if best.Some? {
      var j: nat :| Leads(ps, j) && ps[j] == best;
      assert i == j;
    }
  }

  lemma LeaderIsTaken(rs: seq<Record>, costScale: real, i: nat)
    requires AllUsable(rs) && Leads(Proposals(rs, costScale), i)
    ensures Taken(rs, costScale, PricedTrade(rs, Proposal(rs[i], costScale).value))
  {
    var s := FirstIsAlike(rs, i);
    assert TakesLeader(rs, costScale, PricedTrade(rs, Proposal(rs[i], costScale).value), i, s);
  }

  lemma BestIsTaken(rs: seq<Record>, costScale: real)
    requires AllUsable(rs) && BestOf(rs, costScale).Some?
    ensures Taken(rs, costScale, PricedTrade(rs, BestOf(rs, costScale).value))
  {
    BestLeads(rs, costScale);
    var ps := Proposals(rs, costScale);
    var i: nat :| Leads(ps, i) && ps[i] == BestOf(rs, costScale);
    LeaderIsTaken(rs, costScale, i);
  }

  /** Whoever takes the leading proposal makes the trade of the fold. */
  lemma TakenIsBest(rs: seq<Record>, costScale: real, t: Trade)
    requires AllUsable(rs) && Taken(rs, costScale, t)
    ensures BestOf(rs, costScale).Some? && t == PricedTrade(rs, BestOf(rs, costScale).value)
  {
    BestLeads(rs, costScale);
    var ps := Proposals(rs, costScale);
    var i: nat, s: nat :| TakesLeader(rs, costScale, t, i, s);
    LeadsOnce(ps, BestOf(rs, costScale), i);
    TakenIsPriced(rs, costScale, t, i, s);
  }

  lemma NothingIffNone(rs: seq<Record>, costScale: real)
    requires AllUsable(rs)
    ensures NothingProposed(Proposals(rs, costScale)) <==> BestOf(rs, costScale).None?
  {
    BestLeads(rs, costScale);
  }

  lemma TakenIff(rs: seq<Record>, costScale: real, t: Trade)
    requires AllUsable(rs)
    ensures Taken(rs, costScale, t)
            <==> BestOf(rs, costScale).Some? && t == PricedTrade(rs, BestOf(rs, costScale).value)
  {
    if BestOf(rs, costScale).Some? {
      BestIsTaken(rs, costScale);
    }
    if Taken(rs, costScale, t) {
      TakenIsBest(rs, costScale, t);
    }
  }

  /** The code decides exactly what `Decided` says, and nothing else fits that description. */
  lemma DecisionMeaning(clock: Clock, rs: seq<Record>, costScale: real, decision: Option<Trade>)
    requires rs != [] && AllUsable(rs)
    ensures decision == Decide(clock, rs, costScale) <==> Decided(clock, rs, costScale, decision)
  {
    match decision
    case None => NothingIffNone(rs, costScale);
    case Some(t) => TakenIff(rs, costScale, t);
  }

  /** The scan over candidates that both implementations contain: it keeps the leading proposal. */
  method FindBest(rs: seq<Record>, costScale: real) returns (best: Option<Best>)
    requires AllUsable(rs)
    ensures IsLeading(Proposals(rs, costScale), best)
    ensures best == BestOf(rs, costScale)
  {
    best := None;
    for i := 0 to |rs|
      invariant best == BestOf(rs[..i], costScale)
    {
      assert rs[..i + 1][..i] == rs[..i];
      var proposal := Proposal(rs[i], costScale);
      if proposal.Some? && (best.None? || proposal.value.score > best.value.score) {
        best := proposal;
      }
    }
    assert rs[..|rs|] == rs;
    BestLeads(rs, costScale);
  }

  // ---- The ledger --------------------------------------------------------------------------

  datatype Ledger = Ledger(grossReturns: seq<real>, netReturns: seq<real>, holding: seq<int>, turnover: real,
                           grossEquity: real, equity: real, peak: real, drawdown: real, wins: nat)

  datatype Book = Book(clock: Clock, ledger: Ledger)

  const OPENING: Book := Book(map[], Ledger([], [], [], 0.0, 1.0, 1.0, 1.0, 0.0, 0))

  function WinCount(nets: seq<real>): nat {
    if nets == [] then 0 else WinCount(nets[..|nets| - 1]) + if nets[|nets| - 1] > 0.0 then 1 else 0
  }

  /** The ledger of a list of trades, each figure by its own definition over the whole list. */
  function Account(trades: seq<Trade>): Ledger {
    var gross := seq(|trades|, i requires 0 <= i < |trades| => trades[i].gross);
    var net := seq(|trades|, i requires 0 <= i < |trades| => trades[i].net);
    var holding := seq(|trades|, i requires 0 <= i < |trades| => trades[i].horizon);
    Ledger(gross, net, holding, 2.0 * |trades| as real,
           Compound(gross), Compound(net), Peak(net), Drawdown(net), WinCount(net))
  }

  /** What the accumulator does to its ledger for one more trade. */
  function Post(l: Ledger, t: Trade): Ledger {
    var equity := Grow(l.equity, t.net);
    var peak := Max(l.peak, equity);
    Ledger(l.grossReturns + [t.gross], l.netReturns + [t.net], l.holding + [t.horizon], l.turnover + 2.0,
           Grow(l.grossEquity, t.gross), equity, peak,
           Max(l.drawdown, if peak > 0.0 then Loss(peak, equity) else 0.0),
           l.wins + if t.net > 0.0 then 1 else 0)
  }

  lemma AccountPost(trades: seq<Trade>, t: Trade)
    ensures Account(trades + [t]) == Post(Account(trades), t)
  {
    var a, b := Account(trades), Account(trades + [t]);
    assert b.grossReturns == a.grossReturns + [t.gross];
    assert b.netReturns == a.netReturns + [t.net];
    assert b.holding == a.holding + [t.horizon];
    assert (a.netReturns + [t.net])[..|a.netReturns|] == a.netReturns;
  }

  // ---- Task by task ------------------------------------------------------------------------

  function Step(book: Book, rs: seq<Record>, costScale: real): Book
    requires rs != [] && AllUsable(rs)
  {
    match Decide(book.clock, rs, costScale)
    case None => book
    case Some(t) => Book(Tick(book.clock, t), Post(book.ledger, t))
  }

  /** `add_task`: a task without a tradable record changes nothing. */
  function AddTask(book: Book, candidates: seq<Record>, costScale: real): Book {
    if Tradable(candidates) == [] then book else Step(book, Tradable(candidates), costScale)
  }

  function AddTasks(book: Book, tasks: seq<seq<Record>>, costScale: real): Book {
    if tasks == [] then book
    else AddTask(AddTasks(book, tasks[..|tasks| - 1], costScale), tasks[|tasks| - 1], costScale)
  }

  lemma AddTasksStep(book: Book, tasks: seq<seq<Record>>, i: nat, costScale: real)
    requires i < |tasks|
    ensures AddTasks(book, tasks[..i + 1], costScale)
            == AddTask(AddTasks(book, tasks[..i], costScale), tasks[i], costScale)
  {
    assert tasks[..i + 1][..i] == tasks[..i];
  }

  // ---- Grouping ----------------------------------------------------------------------------

  /** `setdefault(key, []).append(record)` on an insertion-ordered dictionary. */
  function AddToGroups(groups: seq<seq<Record>>, r: Record): seq<seq<Record>> {
    if groups == [] then [[r]]
    else if groups[0] != [] && groups[0][0].key == r.key then [groups[0] + [r]] + groups[1..]
    else [groups[0]] + AddToGroups(groups[1..], r)
  }

  function AddAll(groups: seq<seq<Record>>, rs: seq<Record>): seq<seq<Record>> {
    if rs == [] then groups else AddToGroups(AddAll(groups, rs[..|rs| - 1]), rs[|rs| - 1])
  }

  function Group(rs: seq<Record>): seq<seq<Record>> {
    AddAll([], rs)
  }

  function Flatten<T>(parts: seq<seq<T>>): seq<T> {
    if parts == [] then [] else Flatten(parts[..|parts| - 1]) + parts[|parts| - 1]
  }

  /** One `add` call: group the records, then feed the groups. */
  function AddRecords(book: Book, rs: seq<Record>, costScale: real): Book {
    AddTasks(book, Group(rs), costScale)
  }

  function AddCalls(book: Book, calls: seq<seq<seq<Record>>>, costScale: real): Book {
    if calls == [] then book
    else AddRecords(AddCalls(book, calls[..|calls| - 1], costScale), Flatten(calls[|calls| - 1]), costScale)
  }

  // ---- All at once -------------------------------------------------------------------------

  function Origin(task: seq<Record>): int {
    if task == [] then 0 else task[0].key.origin
  }

  /** No group is empty, and every record in a group can be traded. */
  predicate GroupsUsable(groups: seq<seq<Record>>) {
    forall i | 0 <= i < |groups| :: groups[i] != [] && AllUsable(groups[i])
  }

  /** The first loop of `trading_metrics`, over groups in origin order. */
  function Trades(groups: seq<seq<Record>>, costScale: real): (seq<Trade>, Clock)
    requires GroupsUsable(groups)
  {
    if groups == [] then ([], map[]) else
      var (trades, clock) := Trades(groups[..|groups| - 1], costScale);
      match Decide(clock, groups[|groups| - 1], costScale)
      case None => (trades, clock)
      case Some(t) => (trades + [t], Tick(clock, t))
  }

  lemma TradesStep(groups: seq<seq<Record>>, i: nat, costScale: real)
    requires GroupsUsable(groups) && i < |groups|
    ensures GroupsUsable(groups[..i]) && GroupsUsable(groups[..i + 1])
    ensures var (trades, clock) := Trades(groups[..i], costScale);
            Trades(groups[..i + 1], costScale) ==
            match Decide(clock, groups[i], costScale)
            case None => (trades, clock)
            case Some(t) => (trades + [t], Tick(clock, t))
  {
    assert groups[..i + 1][..i] == groups[..i];
  }

  lemma {:induction false} AddToGroupsUsable(groups: seq<seq<Record>>, r: Record)
    requires Usable(r) && GroupsUsable(groups)
    ensures GroupsUsable(AddToGroups(groups, r))
  {
    if groups != [] && groups[0][0].key != r.key {
      AddToGroupsUsable(groups[1..], r);
    }
  }

  lemma {:induction false} GroupUsable(rs: seq<Record>)
    requires AllUsable(rs)
    ensures GroupsUsable(Group(rs))
  {
    if rs != [] {
      GroupUsable(rs[..|rs| - 1]);
      AddToGroupsUsable(Group(rs[..|rs| - 1]), rs[|rs| - 1]);
    }
  }

  lemma SortedUsable(groups: seq<seq<Record>>)
    requires GroupsUsable(groups)
    ensures GroupsUsable(Sort(Origin, groups))
  {
    forall i | 0 <= i < |Sort(Origin, groups)|
      ensures Sort(Origin, groups)[i] != [] && AllUsable(Sort(Origin, groups)[i])
    {
      SortElements(Origin, groups, i);
    }
  }

  /** The trades of `trading_metrics`: filter, group, sort by origin (stably), decide. */
  function BatchTrades(rs: seq<Record>, costScale: real): (seq<Trade>, Clock) {
    var groups := Group(Tradable(rs));
    GroupUsable(Tradable(rs));
    SortedUsable(groups);
    Trades(Sort(Origin, groups), costScale)
  }

  function BatchLedger(rs: seq<Record>, costScale: real): Ledger {
    Account(BatchTrades(rs, costScale).0)
  }

  // ---- Filtering and grouping a plan of tasks ------------------------------------------------

  /** Every task is a non-empty block of records with one key, and no two tasks share a key. */
  ghost predicate TaskBlocks(tasks: seq<seq<Record>>) {
    && (forall i | 0 <= i < |tasks| :: Block(tasks[i]))
    && forall i, j | 0 <= i < j < |tasks| :: tasks[i][0].key != tasks[j][0].key
  }

  ghost predicate Block(task: seq<Record>) {
    task != [] && forall k | 0 <= k < |task| :: task[k].key == task[0].key
  }

  lemma {:induction false} TradableAppend(a: seq<Record>, b: seq<Record>)
    ensures Tradable(a + b) == Tradable(a) + Tradable(b)
  {
    if b == [] {
      assert a + b == a;
    } else {
      assert (a + b)[..|a + b| - 1] == a + b[..|b| - 1];
      TradableAppend(a, b[..|b| - 1]);
    }
  }

  lemma {:induction false} TradableKeys(task: seq<Record>)
    requires Block(task)
    ensures forall k | 0 <= k < |Tradable(task)| :: Tradable(task)[k].key == task[0].key
  {
    if |task| > 1 {
      TradableKeys(task[..|task| - 1]);
    } else {
      assert Tradable(task[..0]) == [];
    }
  }

  /** The tasks that have tradable records, reduced to those records. */
  function Reduce(tasks: seq<seq<Record>>): seq<seq<Record>> {
    if tasks == [] then []
    else Reduce(tasks[..|tasks| - 1])
         + if Tradable(tasks[|tasks| - 1]) == [] then [] else [Tradable(tasks[|tasks| - 1])]
  }

  lemma {:induction false} TradableFlatten(tasks: seq<seq<Record>>)
    ensures Tradable(Flatten(tasks)) == Flatten(Reduce(tasks))
  {
    if tasks != [] {
      var front, last := tasks[..|tasks| - 1], tasks[|tasks| - 1];
      TradableFlatten(front);
      TradableAppend(Flatten(front), last);
      if Tradable(last) == [] {
        assert Reduce(front) + [] == Reduce(front);
      } else {
        assert (Reduce(front) + [Tradable(last)])[..|Reduce(front)|] == Reduce(front);
      }
    }
  }

  ghost predicate HasKey(tasks: seq<seq<Record>>, k: Key) {
    exists i :: 0 <= i < |tasks| && tasks[i] != [] && tasks[i][0].key == k
  }

  lemma DropBlock(tasks: seq<seq<Record>>)
    requires TaskBlocks(tasks) && tasks != []
    ensures TaskBlocks(tasks[..|tasks| - 1]) && Block(tasks[|tasks| - 1])
    ensures !HasKey(tasks[..|tasks| - 1], tasks[|tasks| - 1][0].key)
  {
  }

  lemma KeyOfFront(tasks: seq<seq<Record>>, k: Key)
    requires tasks != [] && !HasKey(tasks, k)
    ensures !HasKey(tasks[..|tasks| - 1], k)
    ensures tasks[|tasks| - 1] == [] || tasks[|tasks| - 1][0].key != k
  {
    assert forall i | 0 <= i < |tasks| - 1 :: tasks[..|tasks| - 1][i] == tasks[i];
  }

  lemma KeyOfLonger(tasks: seq<seq<Record>>, group: seq<Record>, k: Key)
    requires !HasKey(tasks, k) && (group == [] || group[0].key != k)
    ensures !HasKey(tasks + [group], k)
  {
    assert forall i | 0 <= i < |tasks| :: (tasks + [group])[i] == tasks[i];
  }

  lemma {:induction false} ReduceKeys(tasks: seq<seq<Record>>, k: Key)
    requires TaskBlocks(tasks) && !HasKey(tasks, k)
    ensures !HasKey(Reduce(tasks), k)
  {
    if tasks != [] {
      var n := |tasks| - 1;
      DropBlock(tasks);
      KeyOfFront(tasks, k);
      ReduceKeys(tasks[..n], k);
      TradableKeys(tasks[n]);
      KeyOfLonger(Reduce(tasks[..n]), Tradable(tasks[n]), k);
    }
  }

  ghost predicate UsableBlocks(groups: seq<seq<Record>>) {
    TaskBlocks(groups) && GroupsUsable(groups)
  }

  lemma OneMoreBlock(groups: seq<seq<Record>>, group: seq<Record>)
    requires UsableBlocks(groups) && Block(group) && AllUsable(group) && !HasKey(groups, group[0].key)
    ensures UsableBlocks(groups + [group])
  {
  }

  lemma {:induction false} ReduceBlocks(tasks: seq<seq<Record>>)
    requires TaskBlocks(tasks)
    ensures UsableBlocks(Reduce(tasks))
  {
    if tasks != [] {
      var front, last := tasks[..|tasks| - 1], tasks[|tasks| - 1];
      DropBlock(tasks);
      ReduceBlocks(front);
      TradableKeys(last);
      if Tradable(last) != [] {
        ReduceKeys(front, last[0].key);
        OneMoreBlock(Reduce(front), Tradable(last));
      }
    }
  }

  /** A record whose key is new opens a group; one whose key is the last group's joins it. */
  lemma {:induction false} AddToGroupsEnd(groups: seq<seq<Record>>, last: seq<Record>, r: Record)
    requires !HasKey(groups, r.key) && (forall i | 0 <= i < |groups| :: groups[i] != [])
    ensures AddToGroups(groups, r) == groups + [[r]]
    ensures last != [] && last[0].key == r.key ==> AddToGroups(groups + [last], r) == groups + [last + [r]]
  {
    if groups == [] {
      assert groups + [last] == [last];
    } else {
      assert forall i | 0 <= i < |groups[1..]| :: groups[1..][i] == groups[i + 1];
      AddToGroupsEnd(groups[1..], last, r);
      assert (groups + [last])[1..] == groups[1..] + [last];
      assert groups == [groups[0]] + groups[1..];
    }
  }

  lemma {:induction false} AddBlock(groups: seq<seq<Record>>, task: seq<Record>)
    requires Block(task) && !HasKey(groups, task[0].key) && (forall i | 0 <= i < |groups| :: groups[i] != [])
    ensures AddAll(groups, task) == groups + [task]
  {
    var n := |task| - 1;
    if n == 0 {
      AddToGroupsEnd(groups, [], task[0]);
      assert AddAll(groups, task[..0]) == groups && task == [task[0]];
    } else {
      AddBlock(groups, task[..n]);
      AddToGroupsEnd(groups, task[..n], task[n]);
      assert task[..n] + [task[n]] == task;
    }
  }

  lemma {:induction false} AddAllAppend(groups: seq<seq<Record>>, a: seq<Record>, b: seq<Record>)
    ensures AddAll(groups, a + b) == AddAll(AddAll(groups, a), b)
  {
    if b == [] {
      assert a + b == a;
    } else {
      assert (a + b)[..|a + b| - 1] == a + b[..|b| - 1];
      AddAllAppend(groups, a, b[..|b| - 1]);
    }
  }

  /** Grouping records that arrive task by task gives the tasks back. */
  lemma {:induction false} GroupFlatten(tasks: seq<seq<Record>>)
    requires TaskBlocks(tasks)
    ensures Group(Flatten(tasks)) == tasks
  {
    if tasks != [] {
      var front, last := tasks[..|tasks| - 1], tasks[|tasks| - 1];
      DropBlock(tasks);
      GroupFlatten(front);
      AddAllAppend([], Flatten(front), last);
      AddBlock(front, last);
      assert front + [last] == tasks;
    }
  }

  // ---- Feeding tasks, in any split into calls ------------------------------------------------

  lemma {:induction false} AddTasksAppend(book: Book, a: seq<seq<Record>>, b: seq<seq<Record>>, costScale: real)
    ensures AddTasks(book, a + b, costScale) == AddTasks(AddTasks(book, a, costScale), b, costScale)
  {
    if b == [] {
      assert a + b == a;
    } else {
      assert (a + b)[..|a + b| - 1] == a + b[..|b| - 1];
      AddTasksAppend(book, a, b[..|b| - 1], costScale);
    }
  }

  lemma SplitBlocks(a: seq<seq<Record>>, b: seq<seq<Record>>)
    requires TaskBlocks(a + b)
    ensures TaskBlocks(a) && TaskBlocks(b)
  {
    assert forall i | 0 <= i < |a| :: a[i] == (a + b)[i];
    assert forall i | 0 <= i < |b| :: b[i] == (a + b)[|a| + i];
  }

  /** However tasks are split into `add` calls, the accumulator sees the same sequence of tasks. */
  lemma {:induction false} CallsAreTasks(book: Book, calls: seq<seq<seq<Record>>>, costScale: real)
    requires TaskBlocks(Flatten(calls))
    ensures AddCalls(book, calls, costScale) == AddTasks(book, Flatten(calls), costScale)
  {
    if calls != [] {
      var front, last := calls[..|calls| - 1], calls[|calls| - 1];
      SplitBlocks(Flatten(front), last);
      CallsAreTasks(book, front, costScale);
      GroupFlatten(last);
      AddTasksAppend(book, Flatten(front), last, costScale);
    }
  }

  // ---- One pass against two ------------------------------------------------------------------

  /** Feeding tasks one by one keeps exactly the book of the trades that the batch loop makes. */
  lemma {:induction false} OnePassIsTwoPass(tasks: seq<seq<Record>>, costScale: real)
    requires TaskBlocks(tasks)
    ensures GroupsUsable(Reduce(tasks))
    ensures var (trades, clock) := Trades(Reduce(tasks), costScale);
            AddTasks(OPENING, tasks, costScale) == Book(clock, Account(trades))
  {
    ReduceBlocks(tasks);
    if tasks == [] {
    } else {
      var front, last := tasks[..|tasks| - 1], tasks[|tasks| - 1];
      DropBlock(tasks);
      OnePassIsTwoPass(front, costScale);
      var (trades, clock) := Trades(Reduce(front), costScale);
      if Tradable(last) != [] {
        assert Reduce(tasks)[..|Reduce(front)|] == Reduce(front);
        var decision := Decide(clock, Tradable(last), costScale);
        if decision.Some? {
          AccountPost(trades, decision.value);
        }
      } else {
        assert Reduce(tasks) == Reduce(front);
      }
    }
  }

  ghost predicate InOriginOrder(tasks: seq<seq<Record>>) {
    Sorted(Origin, tasks)
  }

  /** In order, and none of them later than some time. */
  ghost predicate InOrderUntil(tasks: seq<seq<Record>>, latest: int) {
    InOriginOrder(tasks) && forall i | 0 <= i < |tasks| :: Origin(tasks[i]) <= latest
  }

  lemma InOrderFront(tasks: seq<seq<Record>>, latest: int)
    requires tasks != [] && InOrderUntil(tasks, latest)
    ensures InOrderUntil(tasks[..|tasks| - 1], Origin(tasks[|tasks| - 1])) && Origin(tasks[|tasks| - 1]) <= latest
  {
  }

  lemma InOrderAppend(tasks: seq<seq<Record>>, group: seq<Record>, latest: int)
    requires InOrderUntil(tasks, Origin(group)) && Origin(group) <= latest
    ensures InOrderUntil(tasks + [group], latest)
  {
  }

  lemma InOrderLater(tasks: seq<seq<Record>>, earlier: int, latest: int)
    requires InOrderUntil(tasks, earlier) && earlier <= latest
    ensures InOrderUntil(tasks, latest)
  {
  }

  lemma {:induction false} ReduceInOrder(tasks: seq<seq<Record>>, latest: int)
    requires TaskBlocks(tasks) && InOrderUntil(tasks, latest)
    ensures InOrderUntil(Reduce(tasks), latest)
  {
    if tasks != [] {
      var front, last := tasks[..|tasks| - 1], tasks[|tasks| - 1];
      DropBlock(tasks);
      InOrderFront(tasks, latest);
      ReduceInOrder(front, Origin(last));
      TradableKeys(last);
      if Tradable(last) != [] {
        InOrderAppend(Reduce(front), Tradable(last), latest);
      } else {
        InOrderLater(Reduce(front), Origin(last), latest);
        assert Reduce(tasks) == Reduce(front);
      }
    }
  }

  /** What the batch function trades, for any list of tasks. */
  lemma BatchOfTasks(tasks: seq<seq<Record>>, costScale: real)
    requires TaskBlocks(tasks)
    ensures Group(Tradable(Flatten(tasks))) == Reduce(tasks) && GroupsUsable(Sort(Origin, Reduce(tasks)))
    ensures BatchTrades(Flatten(tasks), costScale) == Trades(Sort(Origin, Reduce(tasks)), costScale)
  {
    TradableFlatten(tasks);
    ReduceBlocks(tasks);
    GroupFlatten(Reduce(tasks));
    SortedUsable(Reduce(tasks));
  }

  /**
   Fed whole tasks in nondecreasing origin order, under any split into calls, the accumulator ends with
   the ledger of the sort-and-group function over all records.
   */
  lemma OnlineEqualsBatch(calls: seq<seq<seq<Record>>>, costScale: real)
    requires TaskBlocks(Flatten(calls)) && InOriginOrder(Flatten(calls))
    ensures AddCalls(OPENING, calls, costScale).ledger == BatchLedger(Flatten(Flatten(calls)), costScale)
  {
    var tasks := Flatten(calls);
    CallsAreTasks(OPENING, calls, costScale);
    OnePassIsTwoPass(tasks, costScale);
    ReduceInOrder(tasks, if tasks == [] then 0 else Origin(tasks[|tasks| - 1]));
    SortSorted(Origin, Reduce(tasks));
    BatchOfTasks(tasks, costScale);
  }

  /** Tasks that reach the accumulator behind a later trade of their symbol are dropped without a trace. */
  lemma {:induction false} LateTasksAreDropped(book: Book, tasks: seq<seq<Record>>, costScale: real)
    requires forall i | 0 <= i < |tasks| ::
               Block(tasks[i]) && Origin(tasks[i]) < NextAvailable(book.clock, tasks[i][0].key.symbol)
    ensures AddTasks(book, tasks, costScale) == book
  {
    if tasks != [] {
      LateTasksAreDropped(book, tasks[..|tasks| - 1], costScale);
      TradableKeys(tasks[|tasks| - 1]);
    }
  }

  // ---- What the trades satisfy ---------------------------------------------------------------

  predicate Apart(t: Trade, u: Trade) {
    t.key.symbol == u.key.symbol ==> t.key.origin + t.horizon * 60000 <= u.key.origin
  }

  ghost predicate NonOverlapping(trades: seq<Trade>, clock: Clock) {
    && (forall i, j | 0 <= i < j < |trades| :: Apart(trades[i], trades[j]))
    && forall i | 0 <= i < |trades| ::
         trades[i].key.origin + trades[i].horizon * 60000 <= NextAvailable(clock, trades[i].key.symbol)
  }

  lemma TickKeepsApart(trades: seq<Trade>, clock: Clock, t: Trade)
    requires NonOverlapping(trades, clock) && t.horizon > 0 && NextAvailable(clock, t.key.symbol) <= t.key.origin
    ensures NonOverlapping(trades + [t], Tick(clock, t))
  {
  }

  /** In whatever order groups arrive, the holding intervals of one symbol never overlap. */
  lemma {:induction false} TradesNeverOverlap(groups: seq<seq<Record>>, costScale: real)
    requires GroupsUsable(groups)
    ensures var (trades, clock) := Trades(groups, costScale); NonOverlapping(trades, clock)
  {
    if groups != [] {
      TradesNeverOverlap(groups[..|groups| - 1], costScale);
      var (trades, clock) := Trades(groups[..|groups| - 1], costScale);
      var decision := Decide(clock, groups[|groups| - 1], costScale);
      if decision.Some? {
        TickKeepsApart(trades, clock, decision.value);
      }
    }
  }

  /** With non-negative costs every trade nets no more than it grosses. */
  lemma {:induction false} TradesPayCosts(groups: seq<seq<Record>>, costScale: real)
    requires GroupsUsable(groups) && costScale >= 0.0
    ensures forall i | 0 <= i < |Trades(groups, costScale).0| ::
              Trades(groups, costScale).0[i].net <= Trades(groups, costScale).0[i].gross
  {
    if groups != [] {
      TradesPayCosts(groups[..|groups| - 1], costScale);
      BestPaysCosts(groups[|groups| - 1], costScale);
    }
  }

  lemma {:induction false} BestPaysCosts(rs: seq<Record>, costScale: real)
    requires AllUsable(rs) && costScale >= 0.0
    ensures BestOf(rs, costScale).Some? ==> BestOf(rs, costScale).value.threshold >= 0.0
  {
    if rs != [] {
      BestPaysCosts(rs[..|rs| - 1], costScale);
      ThresholdSign(rs[|rs| - 1], costScale);
    }
  }

  lemma ThresholdSign(r: Record, costScale: real)
    requires r.horizon > 0 && costScale >= 0.0
    ensures Threshold(r, costScale) >= 0.0
  {
    var funding := Abs(if r.fundingRate.Some? then r.fundingRate.value else 0.0);
    assert funding * r.horizon as real >= 0.0;
  }

  /**
   What the reported figures mean: when no trade loses more than everything, the drawdown is the largest
   relative loss between any two times, and the cost drag is the plain difference of the two equities.
   */
  lemma LedgerMeaning(rs: seq<Record>, costScale: real)
    requires costScale >= 0.0 && Solvent(BatchLedger(rs, costScale).netReturns)
    ensures var l := BatchLedger(rs, costScale);
            IsMaximumLoss(l.netReturns, l.drawdown) && 0.0 <= l.equity <= l.grossEquity
  {
    var groups := Group(Tradable(rs));
    GroupUsable(Tradable(rs));
    SortedUsable(groups);
    TradesPayCosts(Sort(Origin, groups), costScale);
    var l := BatchLedger(rs, costScale);
    DrawdownIsMaximumLoss(l.netReturns);
    NetBelowGross(l.grossReturns, l.netReturns);
  }
}
