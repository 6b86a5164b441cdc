/** The screening gates: every decision that compares one combination's summary with another's. */
module ScreeningGates {
  import opened Wrappers

  // ---- Combinations ------------------------------------------------------------------------

  /** The twenty cells of the matrix; C2048S5 is `chronos2-c2048-s5`, F512S60 is `fincast-c512-s60`. */
  datatype Id =
    | F512S60 | F512S30 | F512S15 | F512S5
    | C1024S60 | C1024S30 | C1024S15 | C1024S5
    | C2048S60 | C2048S30 | C2048S15 | C2048S5
    | C4096S60 | C4096S30 | C4096S15 | C4096S5
    | C8192S60 | C8192S30 | C8192S15 | C8192S5

  /** The matrix in the order in which its cells are created. */
  const MATRIX: seq<Id> :=
    [F512S60, F512S30, F512S15, F512S5,
     C1024S60, C1024S30, C1024S15, C1024S5, C2048S60, C2048S30, C2048S15, C2048S5,
     C4096S60, C4096S30, C4096S15, C4096S5, C8192S60, C8192S30, C8192S15, C8192S5]

  const STATIC_IDS: seq<Id> := [F512S5, C1024S5, C8192S5]

  const DEFAULT_IDS: seq<Id> :=
    [F512S60, F512S30, F512S15, C1024S60, C1024S30, C1024S15, C2048S60, C2048S30, C4096S60, C4096S15]

  const CONDITIONAL_IDS: seq<Id> := [C2048S5, C4096S5, C2048S15, C4096S30, C8192S60, C8192S30, C8192S15]

  function Dependencies(id: Id): seq<Id> {
    match id
    case C4096S5 => [C2048S5]
    case C8192S60 => [C4096S60]
    case C8192S30 => [C4096S30]
    case C8192S15 => [C4096S30]
    case _ => []
  }

  function Comparators(id: Id): seq<Id> {
    match id
    case C2048S5 => [C1024S15, C4096S15]
    case C4096S5 => [C2048S5, C4096S15]
    case C2048S15 => [C1024S30]
    case C4096S30 => [C2048S60, C2048S30]
    case C8192S60 => [C4096S60]
    case C8192S30 => [C4096S60, C4096S30]
    case C8192S15 => [C4096S30, C2048S60]
    case _ => []
  }

  /** The position of a combination's name in lexicographic order: "15" < "30" < "5" < "60". */
  function NameRank(id: Id): nat {
    match id
    case C1024S15 => 0 case C1024S30 => 1 case C1024S5 => 2 case C1024S60 => 3
    case C2048S15 => 4 case C2048S30 => 5 case C2048S5 => 6 case C2048S60 => 7
    case C4096S15 => 8 case C4096S30 => 9 case C4096S5 => 10 case C4096S60 => 11
    case C8192S15 => 12 case C8192S30 => 13 case C8192S5 => 14 case C8192S60 => 15
    case F512S15 => 16 case F512S30 => 17 case F512S5 => 18 case F512S60 => 19
  }

  // ---- Summaries ---------------------------------------------------------------------------

  /** A JSON value where a number is expected: absent or null, something else (NaN too), or a number. */
  datatype Raw = Absent | Malformed | Number(value: real)

  function Finite(r: Raw): Option<real> {
    if r.Number? then Some(r.value) else None
  }

  datatype Prediction = Prediction(count: Raw, wis: Raw, pinball: Raw, direction: Raw)

  datatype TradingFigures = TradingFigures(netReturn: Raw, sharpe: Raw, maxDrawdown: Raw)

  datatype Window = Window(prediction: Option<Prediction>, trading: Option<TradingFigures>)

  datatype HorizonFigures = HorizonFigures(wis: Raw, pinball: Raw)

  /** One entry of the metrics file; `windows` by regime (low, medium, high), `horizons` by 5, 15, 30, 60 minutes. */
  datatype Summary = Summary(technicalFailure: bool, availableRatio: Raw,
                             prediction: Option<Prediction>, trading: Option<TradingFigures>,
                             windows: seq<Option<Window>>, horizons: seq<Option<HorizonFigures>>, latencyP95: Raw)

  type Metrics = map<Id, Summary>

  function Lookup(metrics: Metrics, id: Id): Option<Summary> {
    if id in metrics then Some(metrics[id]) else None
  }

  function PredictionMetric(p: Option<Prediction>, f: Prediction -> Raw): Option<real> {
    if p.Some? then Finite(f(p.value)) else None
  }

  function TradingMetric(t: Option<TradingFigures>, f: TradingFigures -> Raw): Option<real> {
    if t.Some? then Finite(f(t.value)) else None
  }

  function Wis(p: Option<Prediction>): Option<real> { PredictionMetric(p, (x: Prediction) => x.wis) }

  function Pinball(p: Option<Prediction>): Option<real> { PredictionMetric(p, (x: Prediction) => x.pinball) }

  function Direction(p: Option<Prediction>): Option<real> { PredictionMetric(p, (x: Prediction) => x.direction) }

  function Net(t: Option<TradingFigures>): Option<real> { TradingMetric(t, (x: TradingFigures) => x.netReturn) }

  function Sharpe(t: Option<TradingFigures>): Option<real> { TradingMetric(t, (x: TradingFigures) => x.sharpe) }

  function Drawdown(t: Option<TradingFigures>): Option<real> { TradingMetric(t, (x: TradingFigures) => x.maxDrawdown) }

  // ---- Comparison --------------------------------------------------------------------------

  function Improvement(candidate: Option<real>, comparator: Option<real>): Option<real> {
    if candidate.None? || comparator.None? || comparator.value <= 0.0 then None
    else Some((comparator.value - candidate.value) / comparator.value)
  }

  function Delta(candidate: Option<real>, comparator: Option<real>): Option<real> {
    if candidate.None? || comparator.None? then None else Some(candidate.value - comparator.value)
  }

  predicate AtLeast(x: Option<real>, bound: real) {
    x.Some? && x.value >= bound
  }

  predicate MoreThan(x: Option<real>, bound: real) {
    x.Some? && x.value > bound
  }

  predicate AtMost(x: Option<real>, bound: real) {
    x.Some? && x.value <= bound
  }

  /** The sentinel 1e100 that stands for a missing loss, and negated for a missing improvement. */
  const UNRANKED: real :=
    10000000000000000000000000000000000000000000000000000000000000000000000000000000000000000000000000000.0

  /** `max` over the values that are not missing, with -1e100 when both are. */
  function BestOf(a: Option<real>, b: Option<real>): real {
    if a.Some? && b.Some? then (if a.value >= b.value then a.value else b.value)
    else if a.Some? then a.value
    else if b.Some? then b.value
    else -UNRANKED
  }

  predicate TechnicalOk(summary: Option<Summary>) {
    && summary.Some? && !summary.value.technicalFailure
    && MoreThan(Finite(summary.value.availableRatio), 0.0)
    && summary.value.prediction.Some? && MoreThan(Finite(summary.value.prediction.value.count), 0.0)
    && !summary.value.prediction.value.pinball.Malformed? && !summary.value.prediction.value.wis.Malformed?
    && !summary.value.prediction.value.direction.Malformed?
    && summary.value.trading.Some?
    && !summary.value.trading.value.netReturn.Malformed? && !summary.value.trading.value.sharpe.Malformed?
    && !summary.value.trading.value.maxDrawdown.Malformed?
  }

  datatype Evidence = Evidence(
    wis: Option<real>, pinball: Option<real>, direction: Option<real>, net: Option<real>, sharpe: Option<real>,
    drawdownWithinTenPercent: bool, notWorseOnePercent: bool,
    predictionWindows: nat, tradingWindows: nat, worseWindows: nat, comparableWindows: nat,
    predictionHorizons: nat, latencyRatio: Option<real>)

  function At<T>(s: seq<Option<T>>, i: nat): Option<T> {
    if i < |s| then s[i] else None
  }

  function One(b: bool): nat {
    if b then 1 else 0
  }

  predicate WindowComparable(a: Option<Window>, b: Option<Window>) {
    a.Some? && b.Some?
  }

  predicate WindowPredictionImproved(a: Option<Window>, b: Option<Window>) {
    a.Some? && b.Some? &&
    (AtLeast(Improvement(Wis(a.value.prediction), Wis(b.value.prediction)), 0.01)
     || AtLeast(Improvement(Pinball(a.value.prediction), Pinball(b.value.prediction)), 0.01))
  }

  predicate WindowTradingImproved(a: Option<Window>, b: Option<Window>) {
    a.Some? && b.Some? &&
    MoreThan(Delta(Net(a.value.trading), Net(b.value.trading)), 0.0)
    && AtLeast(Delta(Sharpe(a.value.trading), Sharpe(b.value.trading)), 0.1)
  }

  predicate WindowWorse(a: Option<Window>, b: Option<Window>) {
    a.Some? && b.Some? &&
    (AtMost(Improvement(Wis(a.value.prediction), Wis(b.value.prediction)), -0.03)
     || AtMost(Improvement(Pinball(a.value.prediction), Pinball(b.value.prediction)), -0.03))
  }

  predicate HorizonImproved(a: Option<HorizonFigures>, b: Option<HorizonFigures>) {
    a.Some? && b.Some? &&
    (AtLeast(Improvement(Finite(a.value.wis), Finite(b.value.wis)), 0.01)
     || AtLeast(Improvement(Finite(a.value.pinball), Finite(b.value.pinball)), 0.01))
  }

  /** How many of the first `n` positions satisfy a test on both sides. */
  function Tally<T>(test: (Option<T>, Option<T>) -> bool, a: seq<Option<T>>, b: seq<Option<T>>, n: nat): (t: nat)
    ensures t <= n
  {
    if n == 0 then 0 else Tally(test, a, b, n - 1) + One(test(At(a, n - 1), At(b, n - 1)))
  }

  function Larger(a: real, b: real): real {
    if a >= b then a else b
  }

  /** `compare_summaries`. */
  function Compare(a: Summary, b: Summary): Evidence {
    var wis := Improvement(Wis(a.prediction), Wis(b.prediction));
    var pinball := Improvement(Pinball(a.prediction), Pinball(b.prediction));
    var drawdownA, drawdownB := Drawdown(a.trading), Drawdown(b.trading);
    var latencyA, latencyB := Finite(a.latencyP95), Finite(b.latencyP95);
    Evidence(
      wis, pinball, Delta(Direction(a.prediction), Direction(b.prediction)),
      Delta(Net(a.trading), Net(b.trading)), Delta(Sharpe(a.trading), Sharpe(b.trading)),
      drawdownA.None? || drawdownB.None?
        || drawdownA.value <= Larger(drawdownB.value * 1.1, drawdownB.value + 0.000000001),
      (wis.None? || wis.value >= -0.01) && (pinball.None? || pinball.value >= -0.01),
      Tally(WindowPredictionImproved, a.windows, b.windows, 3),
      Tally(WindowTradingImproved, a.windows, b.windows, 3),
      Tally(WindowWorse, a.windows, b.windows, 3),
      Tally(WindowComparable, a.windows, b.windows, 3),
      Tally(HorizonImproved, a.horizons, b.horizons, 4),
      if latencyA.Some? && MoreThan(latencyB, 0.0) then Some(latencyA.value / latencyB.value) else None)
  }

  // ---- Gates -------------------------------------------------------------------------------

  datatype Decision = Passed | Borderline | Excluded

  datatype Reason =
    | CandidateTechnical | ComparatorTechnical | NoComparator
    | PredictionPath | TradingPath | AllWindowsWorse | CostWithoutGain | OneWindowOnly | NoImprovement | Undecided
    | FiveSecond | NotFiveSecond | NotBest15 | Context8192 | NotContext8192 | NotScreened

  datatype Gate = Gate(decision: Decision, reason: Reason, comparator: Option<Id>, evidence: Option<Evidence>) {
    /** `include` accompanies every decision but an exclusion. */
    predicate Include() {
      decision != Excluded
    }
  }

  function MaxNat(a: nat, b: nat): nat {
    if a >= b then a else b
  }

  predicate PredictionPathPassed(e: Evidence) {
    && BestOf(e.wis, e.pinball) >= 0.01
    && AtLeast(e.direction, -0.003)
    && !(e.net.Some? && e.net.value < 0.0 && e.sharpe.Some? && e.sharpe.value < 0.0)
    && e.predictionWindows >= 2 && e.predictionHorizons >= 2
  }

  predicate TradingPathPassed(e: Evidence) {
    && MoreThan(e.net, 0.0) && AtLeast(e.sharpe, 0.1)
    && e.drawdownWithinTenPercent && e.notWorseOnePercent && e.tradingWindows >= 2
  }

  predicate NothingImproved(e: Evidence) {
    && (e.direction.None? || e.direction.value <= 0.0)
    && (e.net.None? || e.net.value <= 0.0)
    && (e.sharpe.None? || e.sharpe.value <= 0.0)
  }

  predicate AnyImproved(e: Evidence) {
    || MoreThan(e.wis, 0.0) || MoreThan(e.pinball, 0.0) || MoreThan(e.direction, 0.0)
    || MoreThan(e.net, 0.0) || MoreThan(e.sharpe, 0.0)
  }

  /** The cascade of `common_screening_gate`, once both sides ran. */
  function CommonDecision(e: Evidence): (Decision, Reason) {
    if PredictionPathPassed(e) then (Passed, PredictionPath)
    else if TradingPathPassed(e) then (Passed, TradingPath)
    else if e.comparableWindows == 3 && e.worseWindows == 3 && NothingImproved(e) then (Excluded, AllWindowsWorse)
    else if AtLeast(e.latencyRatio, 2.0) && BestOf(e.wis, e.pinball) < 0.01 then (Excluded, CostWithoutGain)
    else if MaxNat(e.predictionWindows, e.tradingWindows) == 1 && AnyImproved(e) then (Excluded, OneWindowOnly)
    else if BestOf(e.wis, e.pinball) <= 0.0 && NothingImproved(e) then (Excluded, NoImprovement)
    else (Borderline, Undecided)
  }

  /** `common_screening_gate`. */
  function CommonGate(candidate: Option<Summary>, comparator: Option<Summary>): Gate {
    if !TechnicalOk(candidate) then Gate(Excluded, CandidateTechnical, None, None)
    else if !TechnicalOk(comparator) then Gate(Excluded, ComparatorTechnical, None, None)
    else
      var e := Compare(candidate.value, comparator.value);
      var (decision, reason) := CommonDecision(e);
      Gate(decision, reason, None, Some(e))
  }

  predicate FiveSecondSignal(e: Evidence) {
    || BestOf(e.wis, e.pinball) >= 0.01
    || (AtLeast(e.direction, 0.005) && e.notWorseOnePercent)
    || (MoreThan(e.net, 0.0) && AtLeast(e.sharpe, 0.1) && e.drawdownWithinTenPercent)
  }

  /** `five_second_screening_gate`. */
  function FiveSecondGate(candidate: Option<Summary>, comparator: Option<Summary>): Gate {
    var common := CommonGate(candidate, comparator);
    if common.decision == Excluded then common else
      var e := common.evidence.value;
      var consistent := MaxNat(e.predictionWindows, e.tradingWindows) >= 2 && e.predictionHorizons >= 2;
      if FiveSecondSignal(e) && consistent then Gate(Passed, FiveSecond, None, Some(e))
      else Gate(Excluded, NotFiveSecond, None, Some(e))
  }

  predicate Strong8192Signal(e: Evidence) {
    || BestOf(e.wis, e.pinball) >= 0.015
    || AtLeast(e.direction, 0.0075)
    || (MoreThan(e.net, 0.0) && MoreThan(e.sharpe, 0.0) && e.notWorseOnePercent)
  }

  /** `context_8192_screening_gate`. */
  function Context8192Gate(candidate: Option<Summary>, comparator: Option<Summary>): Gate {
    var common := CommonGate(candidate, comparator);
    if common.decision == Excluded then common else
      var e := common.evidence.value;
      if common.decision == Passed && Strong8192Signal(e) then Gate(Passed, Context8192, None, Some(e))
      else Gate(Excluded, NotContext8192, None, Some(e))
  }

  // ---- Choosing the comparator --------------------------------------------------------------

  function OrElse(x: Option<real>, default: real): real {
    if x.Some? then x.value else default
  }

  /** The key that the best comparator minimises: WIS, then pinball loss, then its name. */
  predicate ScoresBefore(metrics: Metrics, a: Id, b: Id) {
    var pa := if a in metrics then metrics[a].prediction else None;
    var pb := if b in metrics then metrics[b].prediction else None;
    var (wa, wb) := (OrElse(Wis(pa), UNRANKED), OrElse(Wis(pb), UNRANKED));
    var (la, lb) := (OrElse(Pinball(pa), UNRANKED), OrElse(Pinball(pb), UNRANKED));
    wa < wb || (wa == wb && (la < lb || (la == lb && NameRank(a) < NameRank(b))))
  }

  /** `best_comparator_id`: the first minimum over the candidates that ran. */
  function BestComparator(metrics: Metrics, ids: seq<Id>): Option<Id> {
    if ids == [] then None else
      var rest := BestComparator(metrics, ids[..|ids| - 1]);
      var id := ids[|ids| - 1];
      if !TechnicalOk(Lookup(metrics, id)) then rest
      else if rest.None? || ScoresBefore(metrics, id, rest.value) then Some(id)
      else rest
  }

  /** The first candidate that ran. */
  function FirstOk(metrics: Metrics, ids: seq<Id>): Option<Id> {
    if ids == [] then None
    else if TechnicalOk(Lookup(metrics, ids[0])) then Some(ids[0])
    else FirstOk(metrics, ids[1..])
  }

  const FIFTEEN_SECOND_IDS: seq<Id> := [C1024S15, C4096S15]

  function ComparatorOf(id: Id, metrics: Metrics): Option<Id> {
    if id == C2048S5 then BestComparator(metrics, Comparators(id)) else FirstOk(metrics, Comparators(id))
  }

  /** `candidate_gate`. */
  function CandidateGate(id: Id, metrics: Metrics): Gate {
    var comparatorId := ComparatorOf(id, metrics);
    if comparatorId.None? then Gate(Excluded, NoComparator, None, None) else
      var candidate, comparator := Lookup(metrics, id), Lookup(metrics, comparatorId.value);
      var result :=
        match id
        case C2048S5 => FiveSecondGate(candidate, comparator)
        case C4096S5 => Against15(FiveSecondGate(candidate, comparator), candidate, metrics)
        case C8192S60 => Context8192Gate(candidate, comparator)
        case C8192S30 => Context8192Gate(candidate, comparator)
        case C8192S15 => Context8192Gate(candidate, comparator)
        case _ => CommonGate(candidate, comparator);
      result.(comparator := comparatorId)
  }

  /** The second comparison of 4096 by 5 seconds, against the best 15-second combination. */
  function Against15(first: Gate, candidate: Option<Summary>, metrics: Metrics): Gate {
    var best15 := BestComparator(metrics, FIFTEEN_SECOND_IDS);
    if first.decision == Passed && best15.Some?
       && FiveSecondGate(candidate, Lookup(metrics, best15.value)).decision != Passed
    then Gate(Excluded, NotBest15, None, first.evidence)
    else first
  }

  // ---- Triggers ----------------------------------------------------------------------------

  /** `materially_better`; without evidence when one side did not run. */
  function MateriallyBetter(candidate: Option<Summary>, comparator: Option<Summary>): (bool, Option<Evidence>) {
    if !TechnicalOk(candidate) || !TechnicalOk(comparator) then (false, None) else
      var e := Compare(candidate.value, comparator.value);
      (BestOf(e.wis, e.pinball) >= 0.01 || AtLeast(e.direction, 0.005)
       || (MoreThan(e.net, 0.0) && AtLeast(e.sharpe, 0.1)), Some(e))
  }

  predicate Within(x: Option<real>, best: Option<real>) {
    x.Some? && best.Some? && x.value <= best.value * 1.01
  }

  /** `within_one_percent_of_best`. */
  predicate NearBest(id: Id, metrics: Metrics, ids: seq<Id>) {
    var bestId := BestComparator(metrics, ids);
    var candidate := Lookup(metrics, id);
    TechnicalOk(candidate) && bestId.Some? && TechnicalOk(Lookup(metrics, bestId.value)) &&
    var p, b := candidate.value.prediction, Lookup(metrics, bestId.value).value.prediction;
    Within(Wis(p), Wis(b)) || Within(Pinball(p), Pinball(b))
  }

  const DEFAULT_CHRONOS_IDS: seq<Id> := [C1024S60, C1024S30, C1024S15, C2048S60, C2048S30, C4096S60, C4096S15]

  type Decisions = map<Id, Decision>

  predicate DependencyPassed(decisions: Decisions, id: Id) {
    id in decisions && decisions[id] == Passed
  }

  /** The Boolean of `conditional_trigger`. */
  predicate Trigger(id: Id, metrics: Metrics, decisions: Decisions) {
    match id
    case C2048S5 => 720 <= 16 * 64
    case C4096S5 => DependencyPassed(decisions, C2048S5)
    case C2048S15 =>
      || MateriallyBetter(Lookup(metrics, C1024S15), Lookup(metrics, C1024S30)).0
      || NearBest(C4096S15, metrics, DEFAULT_CHRONOS_IDS)
      || MateriallyBetter(Lookup(metrics, C4096S15), Lookup(metrics, C2048S30)).0
    case C4096S30 =>
      || MateriallyBetter(Lookup(metrics, C2048S30), Lookup(metrics, C2048S60)).0
      || NearBest(C2048S30, metrics, [C1024S30, C2048S30])
      || MateriallyBetter(Lookup(metrics, C2048S30), Lookup(metrics, C1024S60)).0
    case C8192S60 =>
      var (trend, evidence) := MateriallyBetter(Lookup(metrics, C4096S60), Lookup(metrics, C2048S60));
      trend && evidence.Some? && evidence.value.predictionHorizons >= 2
    case C8192S30 =>
      && DependencyPassed(decisions, C4096S30)
      && MateriallyBetter(Lookup(metrics, C4096S30), Lookup(metrics, C2048S30)).0
      && MateriallyBetter(Lookup(metrics, C4096S60), Lookup(metrics, C2048S60)).0
    case C8192S15 =>
      && DependencyPassed(decisions, C4096S30)
      && MateriallyBetter(Lookup(metrics, C4096S15), Lookup(metrics, C1024S15)).0
      && NearBest(C4096S15, metrics, DEFAULT_CHRONOS_IDS)
    case _ => false
  }

  /** The dependency whose decision a skipped combination reports, if its trigger has one. */
  function ReportedDependency(id: Id): Option<Id> {
    match id
    case C4096S5 => Some(C2048S5)
    case C8192S30 => Some(C4096S30)
    case C8192S15 => Some(C4096S30)
    case _ => None
  }

  // ---- Laws of the gates -------------------------------------------------------------------

  /** Both special gates only ever tighten: they pass what the common gate did not exclude. */
  lemma SpecialGatesTighten(candidate: Option<Summary>, comparator: Option<Summary>)
    ensures Context8192Gate(candidate, comparator).decision == Passed ==>
              CommonGate(candidate, comparator).decision == Passed
    ensures FiveSecondGate(candidate, comparator).decision == Passed ==>
              CommonGate(candidate, comparator).decision != Excluded
    ensures FiveSecondGate(candidate, comparator).decision != Borderline
    ensures Context8192Gate(candidate, comparator).decision != Borderline
  {
  }

  /** No gate lets anything through unless both sides ran. */
  lemma GatesNeedBothSides(candidate: Option<Summary>, comparator: Option<Summary>)
    requires !TechnicalOk(candidate) || !TechnicalOk(comparator)
    ensures !CommonGate(candidate, comparator).Include()
    ensures !FiveSecondGate(candidate, comparator).Include()
    ensures !Context8192Gate(candidate, comparator).Include()
  {
  }

  lemma {:induction false} TallyNone<T>(test: (Option<T>, Option<T>) -> bool, a: seq<Option<T>>, n: nat)
    requires forall i: nat | i < n :: !test(At(a, i), At(a, i))
    ensures Tally(test, a, a, n) == 0
  {
    if n > 0 {
      TallyNone(test, a, n - 1);
    }
  }

  lemma SelfImprovement(x: Option<real>)
    ensures Improvement(x, x).None? || Improvement(x, x) == Some(0.0)
    ensures Delta(x, x).None? || Delta(x, x) == Some(0.0)
  {
  }

  predicate NotPositive(x: Option<real>) {
    x.None? || x.value == 0.0
  }

  /** The evidence of a comparison that shows no gain at all. */
  predicate Gainless(e: Evidence) {
    && NotPositive(e.wis) && NotPositive(e.pinball) && NotPositive(e.direction)
    && NotPositive(e.net) && NotPositive(e.sharpe)
    && e.predictionWindows == 0 && e.tradingWindows == 0
  }

  lemma SelfTallies(s: Summary)
    ensures Tally(WindowPredictionImproved, s.windows, s.windows, 3) == 0
    ensures Tally(WindowTradingImproved, s.windows, s.windows, 3) == 0
  {
    forall i: nat | i < 3
      ensures !WindowTradingImproved(At(s.windows, i), At(s.windows, i))
      ensures !WindowPredictionImproved(At(s.windows, i), At(s.windows, i))
    {
      var w := At(s.windows, i);
      if w.Some? {
        SelfImprovement(Wis(w.value.prediction));
        SelfImprovement(Pinball(w.value.prediction));
        SelfImprovement(Net(w.value.trading));
      }
    }
    TallyNone(WindowTradingImproved, s.windows, 3);
    TallyNone(WindowPredictionImproved, s.windows, 3);
  }

  lemma SelfIsGainless(s: Summary)
    ensures Gainless(Compare(s, s))
  {
    SelfTallies(s);
    SelfImprovement(Wis(s.prediction));
    SelfImprovement(Pinball(s.prediction));
    SelfImprovement(Direction(s.prediction));
    SelfImprovement(Net(s.trading));
    SelfImprovement(Sharpe(s.trading));
  }

  lemma GainlessExcludes(e: Evidence)
    requires Gainless(e)
    ensures CommonDecision(e).0 == Excluded
    ensures BestOf(e.wis, e.pinball) <= 0.0
  {
  }

  /** A combination never gets past a gate by being compared with an equal one, whatever is missing from it. */
  lemma EqualNeverImproves(s: Summary)
    ensures !CommonGate(Some(s), Some(s)).Include()
    ensures !FiveSecondGate(Some(s), Some(s)).Include()
    ensures !Context8192Gate(Some(s), Some(s)).Include()
    ensures !MateriallyBetter(Some(s), Some(s)).0
  {
    SelfIsGainless(s);
    GainlessExcludes(Compare(s, s));
  }

  // ---- Better figures ----------------------------------------------------------------------

  function Level(d: Decision): nat {
    match d
    case Excluded => 0
    case Borderline => 1
    case Passed => 2
  }

  predicate Up(x: Option<real>, y: Option<real>) {
    x.Some? == y.Some? && (x.Some? ==> x.value <= y.value)
  }

  /** The second evidence is the first with figures that are at least as good; the windows are the same. */
  predicate AtLeastAsGood(e: Evidence, f: Evidence) {
    && Up(e.wis, f.wis) && Up(e.pinball, f.pinball) && Up(e.direction, f.direction)
    && Up(e.net, f.net) && Up(e.sharpe, f.sharpe)
    && (e.drawdownWithinTenPercent ==> f.drawdownWithinTenPercent) && (e.notWorseOnePercent ==> f.notWorseOnePercent)
    && e.predictionWindows == f.predictionWindows && e.tradingWindows == f.tradingWindows
    && e.worseWindows == f.worseWindows && e.comparableWindows == f.comparableWindows
    && e.predictionHorizons == f.predictionHorizons && e.latencyRatio == f.latencyRatio
  }

  lemma BestOfUp(e: Evidence, f: Evidence)
    requires AtLeastAsGood(e, f)
    ensures BestOf(e.wis, e.pinball) <= BestOf(f.wis, f.pinball)
  {
  }

  /** Without any improved figure the common gate can only exclude. */
  lemma NothingImprovedExcludes(e: Evidence)
    requires !AnyImproved(e)
    ensures CommonDecision(e).0 == Excluded
  {
  }

  lemma CommonDecisionUp(e: Evidence, f: Evidence)
    requires AtLeastAsGood(e, f)
    ensures Level(CommonDecision(e).0) <= Level(CommonDecision(f).0)
  {
    BestOfUp(e, f);
    if !AnyImproved(e) {
      NothingImprovedExcludes(e);
    }
  }

  /** The same run with overall figures that are at least as good. */
  predicate Outperforms(s: Summary, t: Summary) {
    && t == s.(prediction := t.prediction, trading := t.trading)
    && t.prediction.Some? == s.prediction.Some? && t.trading.Some? == s.trading.Some?
    && (s.prediction.Some? ==>
          && t.prediction.value.count == s.prediction.value.count
          && Lower(t.prediction.value.wis, s.prediction.value.wis)
          && Lower(t.prediction.value.pinball, s.prediction.value.pinball)
          && Lower(s.prediction.value.direction, t.prediction.value.direction))
    && (s.trading.Some? ==>
          && Lower(s.trading.value.netReturn, t.trading.value.netReturn)
          && Lower(s.trading.value.sharpe, t.trading.value.sharpe)
          && Lower(t.trading.value.maxDrawdown, s.trading.value.maxDrawdown))
  }

  predicate Lower(x: Raw, y: Raw) {
    x == y || (x.Number? && y.Number? && x.value <= y.value)
  }

  lemma ImprovementUp(x: Option<real>, y: Option<real>, comparator: Option<real>)
    requires Up(x, y)
    ensures Up(Improvement(y, comparator), Improvement(x, comparator))
  {
    if x.Some? && comparator.Some? && comparator.value > 0.0 {
      DividedOrder(comparator.value - y.value, comparator.value - x.value, comparator.value);
    }
  }

  lemma DividedOrder(a: real, b: real, c: real)
    requires a <= b && c > 0.0
    ensures a / c <= b / c
  {
    assert b / c - a / c == (b - a) / c;
  }

  lemma OverallUp(s: Summary, t: Summary)
    requires Outperforms(s, t)
    ensures Up(Wis(t.prediction), Wis(s.prediction)) && Up(Pinball(t.prediction), Pinball(s.prediction))
    ensures Up(Direction(s.prediction), Direction(t.prediction))
    ensures Up(Net(s.trading), Net(t.trading)) && Up(Sharpe(s.trading), Sharpe(t.trading))
    ensures Up(Drawdown(t.trading), Drawdown(s.trading))
  {
  }

  lemma EvidenceUp(s: Summary, t: Summary, comparator: Summary)
    requires Outperforms(s, t)
    ensures AtLeastAsGood(Compare(s, comparator), Compare(t, comparator))
  {
    OverallUp(s, t);
    ImprovementUp(Wis(t.prediction), Wis(s.prediction), Wis(comparator.prediction));
    ImprovementUp(Pinball(t.prediction), Pinball(s.prediction), Pinball(comparator.prediction));
  }

  lemma OutperformsTechnically(s: Summary, t: Summary)
    requires Outperforms(s, t)
    ensures TechnicalOk(Some(s)) == TechnicalOk(Some(t))
  {
  }

  /** The decision of the five-second gate in terms of the evidence. */
  function FiveSecondDecision(e: Evidence): Decision {
    if CommonDecision(e).0 != Excluded && FiveSecondSignal(e)
       && MaxNat(e.predictionWindows, e.tradingWindows) >= 2 && e.predictionHorizons >= 2
    then Passed else Excluded
  }

  /** The decision of the gate for 8192 in terms of the evidence. */
  function Context8192Decision(e: Evidence): Decision {
    if CommonDecision(e).0 == Passed && Strong8192Signal(e) then Passed else Excluded
  }

  lemma GatesOfEvidence(s: Summary, comparator: Summary)
    requires TechnicalOk(Some(s)) && TechnicalOk(Some(comparator))
    ensures var e := Compare(s, comparator);
            && CommonGate(Some(s), Some(comparator)).decision == CommonDecision(e).0
            && FiveSecondGate(Some(s), Some(comparator)).decision == FiveSecondDecision(e)
            && Context8192Gate(Some(s), Some(comparator)).decision == Context8192Decision(e)
  {
  }

  lemma SignalsUp(e: Evidence, f: Evidence)
    requires AtLeastAsGood(e, f)
    ensures FiveSecondSignal(e) ==> FiveSecondSignal(f)
    ensures Strong8192Signal(e) ==> Strong8192Signal(f)
  {
    BestOfUp(e, f);
  }

  lemma DecisionsUp(e: Evidence, f: Evidence)
    requires AtLeastAsGood(e, f)
    ensures Level(CommonDecision(e).0) <= Level(CommonDecision(f).0)
    ensures Level(FiveSecondDecision(e)) <= Level(FiveSecondDecision(f))
    ensures Level(Context8192Decision(e)) <= Level(Context8192Decision(f))
  {
    CommonDecisionUp(e, f);
    SignalsUp(e, f);
  }

  /**
   The gates are monotone: better overall figures of the candidate, with everything else equal, never
   lower its decision by any of the three gates.
   */
  lemma BetterFiguresNeverHurt(s: Summary, t: Summary, comparator: Option<Summary>)
    requires Outperforms(s, t)
    ensures Level(CommonGate(Some(s), comparator).decision) <= Level(CommonGate(Some(t), comparator).decision)
    ensures Level(FiveSecondGate(Some(s), comparator).decision) <= Level(FiveSecondGate(Some(t), comparator).decision)
    ensures Level(Context8192Gate(Some(s), comparator).decision) <= Level(Context8192Gate(Some(t), comparator).decision)
  {
    OutperformsTechnically(s, t);
    if TechnicalOk(Some(s)) && TechnicalOk(comparator) {
      EvidenceUp(s, t, comparator.value);
      DecisionsUp(Compare(s, comparator.value), Compare(t, comparator.value));
      GatesOfEvidence(s, comparator.value);
      GatesOfEvidence(t, comparator.value);
    }
  }

  /**
   The windows are not monotone. One more window with an improved prediction lowers the decision of the
   common gate exactly when the candidate was borderline without any improved window: it is then excluded.
   */
  lemma ExtraWindowHurtsIff(e: Evidence)
    ensures var f := e.(predictionWindows := e.predictionWindows + 1);
            Level(CommonDecision(f).0) < Level(CommonDecision(e).0)
            <==> CommonDecision(e).0 == Borderline && e.predictionWindows == 0 && e.tradingWindows == 0
  {
    if !AnyImproved(e) {
      NothingImprovedExcludes(e);
    }
  }

  // ---- Two summaries that show it ------------------------------------------------------------

  function Figures(wis: real): Option<Prediction> {
    Some(Prediction(Number(1.0), Number(wis), Number(1.0), Number(0.5)))
  }

  const FLAT_TRADING: Option<TradingFigures> := Some(TradingFigures(Number(0.0), Number(0.0), Number(0.0)))

  /** A run that went well technically, with an overall score and the score of its first window. */
  function RunWith(wis: real, firstWindow: real): Summary {
    Summary(false, Number(1.0), Figures(wis), FLAT_TRADING,
            [Some(Window(Figures(firstWindow), FLAT_TRADING)), Some(Window(Figures(1.0), FLAT_TRADING)),
             Some(Window(Figures(1.0), FLAT_TRADING))],
            [], Absent)
  }

  lemma TallyThree<T>(test: (Option<T>, Option<T>) -> bool, a: seq<Option<T>>, b: seq<Option<T>>)
    requires |a| == |b| == 3
    ensures Tally(test, a, b, 3) == One(test(a[0], b[0])) + One(test(a[1], b[1])) + One(test(a[2], b[2]))
  {
    assert Tally(test, a, b, 1) == One(test(a[0], b[0]));
    assert Tally(test, a, b, 2) == Tally(test, a, b, 1) + One(test(a[1], b[1]));
  }

  /** How a run compares with one whose scores are all one. */
  lemma RunEvidence(wis: real, firstWindow: real)
    requires 0.97 < firstWindow <= 1.0
    ensures var e := Compare(RunWith(wis, firstWindow), RunWith(1.0, 1.0));
            && e.wis == Some(1.0 - wis) && e.pinball == Some(0.0)
            && e.direction == e.net == e.sharpe == Some(0.0) && e.latencyRatio == None
            && e.predictionWindows == One(firstWindow <= 0.99) && e.tradingWindows == 0 && e.worseWindows == 0
  {
    var a, b := RunWith(wis, firstWindow), RunWith(1.0, 1.0);
    TallyThree(WindowPredictionImproved, a.windows, b.windows);
    TallyThree(WindowTradingImproved, a.windows, b.windows);
    TallyThree(WindowWorse, a.windows, b.windows);
  }

  /**
   Two candidates that differ in nothing but one window, in which the second is two per cent better: the
   first is borderline and goes on, the second is excluded.
   */
  lemma BetterWindowExcludes()
    ensures var s, t, comparator := RunWith(0.995, 1.0), RunWith(0.995, 0.98), Some(RunWith(1.0, 1.0));
            && t == s.(windows := t.windows) && t.windows[1..] == s.windows[1..]
            && WindowPredictionImproved(t.windows[0], s.windows[0])
            && CommonGate(Some(s), comparator).decision == Borderline
            && CommonGate(Some(t), comparator).decision == Excluded
  {
    RunEvidence(0.995, 1.0);
    RunEvidence(0.995, 0.98);
    assert RunWith(0.995, 0.98).windows[1..] == RunWith(0.995, 1.0).windows[1..];
  }
}
