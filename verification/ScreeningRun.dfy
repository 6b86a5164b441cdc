/** The screening phase: one pass over the experiment graph, and the decisions rebuilt from what it left behind. */
module ScreeningRun {
  import opened Wrappers
  import opened ScreeningGates
  import opened Sequences

  // ---- The order of the pass ----------------------------------------------------------------

  /** The combinations in the order in which the pass reaches them: the default ten, then the conditional seven. */
  const ORDER: seq<Id> := DEFAULT_IDS + CONDITIONAL_IDS

  /** The position in the pass; the three combinations that are never screened come after its end. */
  function Rank(id: Id): nat {
    match id
    case F512S60 => 0 case F512S30 => 1 case F512S15 => 2
    case C1024S60 => 3 case C1024S30 => 4 case C1024S15 => 5
    case C2048S60 => 6 case C2048S30 => 7 case C4096S60 => 8 case C4096S15 => 9
    case C2048S5 => 10 case C4096S5 => 11 case C2048S15 => 12 case C4096S30 => 13
    case C8192S60 => 14 case C8192S30 => 15 case C8192S15 => 16
    case _ => 17
  }

  predicate IsStatic(id: Id) { Rank(id) == 17 }

  predicate IsDefault(id: Id) { Rank(id) < 10 }

  predicate IsConditional(id: Id) { 10 <= Rank(id) < 17 }

  function Nth(k: nat): (id: Id)
    requires k < 17
    ensures Rank(id) == k
  {
    ORDER[k]
  }

  lemma RankIsPosition(id: Id)
    ensures !IsStatic(id) ==> Nth(Rank(id)) == id
    ensures IsStatic(id) ==> id !in ORDER
  {
  }

  // ---- What a gate and a trigger read -------------------------------------------------------

  function GateInputs(id: Id): seq<Id> {
    [id] + Comparators(id) + if id == C4096S5 then FIFTEEN_SECOND_IDS else []
  }

  predicate SameAt(m: Metrics, n: Metrics, ids: seq<Id>) {
    forall id | id in ids :: Lookup(m, id) == Lookup(n, id)
  }

  predicate SameBefore(m: Metrics, n: Metrics, rank: nat) {
    forall id | Rank(id) < rank :: Lookup(m, id) == Lookup(n, id)
  }

  /** Every comparator that a gate reads comes before the combination it decides. */
  lemma InputsComeFirst(id: Id)
    requires IsConditional(id)
    ensures forall x | x in GateInputs(id) :: Rank(x) <= Rank(id)
    ensures forall d | d in Dependencies(id) :: Rank(d) < Rank(id)
  {
  }

  lemma {:induction false} BestFrame(m: Metrics, n: Metrics, ids: seq<Id>)
    requires SameAt(m, n, ids)
    ensures BestComparator(m, ids) == BestComparator(n, ids)
    ensures BestComparator(m, ids).Some? ==> BestComparator(m, ids).value in ids
  {
    if ids != [] {
      var before, id := ids[..|ids| - 1], ids[|ids| - 1];
      assert forall x | x in before :: x in ids;
      BestFrame(m, n, before);
      var rest := BestComparator(m, before);
      assert Lookup(m, id) == Lookup(n, id);
      if rest.Some? {
        assert rest.value in ids;
        assert Lookup(m, rest.value) == Lookup(n, rest.value);
        assert ScoresBefore(m, id, rest.value) == ScoresBefore(n, id, rest.value);
      }
    }
  }

  lemma {:induction false} FirstOkFrame(m: Metrics, n: Metrics, ids: seq<Id>)
    requires SameAt(m, n, ids)
    ensures FirstOk(m, ids) == FirstOk(n, ids)
    ensures FirstOk(m, ids).Some? ==> FirstOk(m, ids).value in ids
  {
    if ids != [] {
      assert forall x | x in ids[1..] :: x in ids;
      FirstOkFrame(m, n, ids[1..]);
    }
  }

  lemma ComparatorFrame(id: Id, m: Metrics, n: Metrics)
    requires SameAt(m, n, Comparators(id))
    ensures ComparatorOf(id, m) == ComparatorOf(id, n)
    ensures ComparatorOf(id, m).Some? ==> ComparatorOf(id, m).value in Comparators(id)
  {
    BestFrame(m, n, Comparators(id));
    FirstOkFrame(m, n, Comparators(id));
  }

  lemma Against15Frame(first: Gate, candidate: Option<Summary>, m: Metrics, n: Metrics)
    requires SameAt(m, n, FIFTEEN_SECOND_IDS)
    ensures Against15(first, candidate, m) == Against15(first, candidate, n)
  {
    BestFrame(m, n, FIFTEEN_SECOND_IDS);
  }

  /** A gate reads the candidate and its comparators, and nothing else. */
  lemma GateFrame(id: Id, m: Metrics, n: Metrics)
    requires SameAt(m, n, GateInputs(id))
    ensures CandidateGate(id, m) == CandidateGate(id, n)
  {
    assert id in GateInputs(id);
    assert forall x | x in Comparators(id) :: x in GateInputs(id);
    ComparatorFrame(id, m, n);
    var c := ComparatorOf(id, m);
    if id == C4096S5 {
      assert forall x | x in FIFTEEN_SECOND_IDS :: x in GateInputs(id);
      Against15Frame(FiveSecondGate(Lookup(m, id), if c.Some? then Lookup(m, c.value) else None), Lookup(m, id), m, n);
    }
  }

  lemma NearBestFrame(id: Id, m: Metrics, n: Metrics, ids: seq<Id>)
    requires SameAt(m, n, ids) && Lookup(m, id) == Lookup(n, id)
    ensures NearBest(id, m, ids) == NearBest(id, n, ids)
  {
    BestFrame(m, n, ids);
  }

  lemma EarlierInputs(m: Metrics, n: Metrics, rank: nat)
    requires 10 <= rank && SameBefore(m, n, rank)
    ensures SameAt(m, n, DEFAULT_CHRONOS_IDS) && SameAt(m, n, [C1024S30, C2048S30])
    ensures forall id | IsDefault(id) :: Lookup(m, id) == Lookup(n, id)
  {
  }

  /** The summaries of the default combinations that a trigger compares. */
  predicate SameCompared(m: Metrics, n: Metrics) {
    && Lookup(m, C1024S15) == Lookup(n, C1024S15) && Lookup(m, C1024S30) == Lookup(n, C1024S30)
    && Lookup(m, C1024S60) == Lookup(n, C1024S60) && Lookup(m, C2048S30) == Lookup(n, C2048S30)
    && Lookup(m, C2048S60) == Lookup(n, C2048S60) && Lookup(m, C4096S15) == Lookup(n, C4096S15)
    && Lookup(m, C4096S60) == Lookup(n, C4096S60)
  }

  predicate SameBests(m: Metrics, n: Metrics) {
    && NearBest(C4096S15, m, DEFAULT_CHRONOS_IDS) == NearBest(C4096S15, n, DEFAULT_CHRONOS_IDS)
    && NearBest(C2048S30, m, [C1024S30, C2048S30]) == NearBest(C2048S30, n, [C1024S30, C2048S30])
  }

  lemma DefaultsCompared(m: Metrics, n: Metrics, rank: nat)
    requires 10 <= rank && SameBefore(m, n, rank)
    ensures SameCompared(m, n)
  {
    EarlierInputs(m, n, rank);
    assert IsDefault(C1024S15) && IsDefault(C1024S30) && IsDefault(C1024S60) && IsDefault(C2048S30);
    assert IsDefault(C2048S60) && IsDefault(C4096S15) && IsDefault(C4096S60);
  }

  lemma DefaultsBest(m: Metrics, n: Metrics, rank: nat)
    requires 10 <= rank && SameBefore(m, n, rank)
    ensures SameBests(m, n)
  {
    EarlierInputs(m, n, rank);
    NearBestFrame(C4096S15, m, n, DEFAULT_CHRONOS_IDS);
    NearBestFrame(C2048S30, m, n, [C1024S30, C2048S30]);
  }

  lemma TriggerReads(id: Id, m: Metrics, n: Metrics, decisions: Decisions)
    requires SameCompared(m, n) && SameBests(m, n)
    requires id == C8192S30 ==> Lookup(m, C4096S30) == Lookup(n, C4096S30)
    ensures Trigger(id, m, decisions) == Trigger(id, n, decisions)
  {
  }

  /** A trigger reads only combinations that the pass has already left behind. */
  lemma TriggerFrame(id: Id, m: Metrics, n: Metrics, decisions: Decisions)
    requires IsConditional(id) && SameBefore(m, n, Rank(id))
    ensures Trigger(id, m, decisions) == Trigger(id, n, decisions)
  {
    DefaultsCompared(m, n, Rank(id));
    DefaultsBest(m, n, Rank(id));
    if id == C8192S30 {
      assert Rank(C4096S30) < Rank(id);
    }
    TriggerReads(id, m, n, decisions);
  }

  // ---- The pass ----------------------------------------------------------------------------

  datatype Status = Waiting | NotRequired | FollowUpOnly | Completed | Failed | NotTriggered | DependencyFailed

  /** The metrics file, the gate results, and `screeningStatus` of every combination. */
  datatype Screen = Screen(metrics: Metrics, gates: map<Id, Gate>, status: map<Id, Status>)

  /** The entry of a combination that did not run: no records and no available ratio. */
  const NOT_RUN: Summary := Summary(false, Number(0.0), None, None, [], [], Absent)

  const NOT_SCREENED: Gate := Gate(Excluded, NotScreened, None, None)

  function StaticStatus(id: Id): Status {
    if id == C8192S5 then FollowUpOnly else NotRequired
  }

  function DecisionsOf(gates: map<Id, Gate>): Decisions {
    map id | id in gates :: gates[id].decision
  }

  /** What a step writes for one combination; the default ones get no gate. */
  datatype Entry = Entry(summary: Summary, status: Status, gate: Option<Gate>)

  function Filed(s: Screen, id: Id, entry: Entry): Screen {
    Screen(s.metrics[id := entry.summary],
           if entry.gate.Some? then s.gates[id := entry.gate.value] else s.gates,
           s.status[id := entry.status])
  }

  predicate Triggered(s: Screen, id: Id) {
    Trigger(id, s.metrics, DecisionsOf(s.gates))
  }

  /** The status after `screen_one`. */
  function RunStatus(summary: Summary): Status {
    if TechnicalOk(Some(summary)) then Completed else Failed
  }

  /** The status after `skip_screen`: the trigger may report a dependency that did not pass. */
  function SkipStatus(gates: map<Id, Gate>, id: Id): Status {
    var d := ReportedDependency(id);
    if d.Some? && d.value in gates && gates[d.value].decision != Passed then DependencyFailed else NotTriggered
  }

  function NewEntry(s: Screen, id: Id, outcome: Id -> Summary): Entry {
    if IsDefault(id) then Entry(outcome(id), RunStatus(outcome(id)), None)
    else if Triggered(s, id) then
      Entry(outcome(id), RunStatus(outcome(id)), Some(CandidateGate(id, s.metrics[id := outcome(id)])))
    else Entry(NOT_RUN, SkipStatus(s.gates, id), Some(NOT_SCREENED))
  }

  function Step(s: Screen, id: Id, outcome: Id -> Summary): Screen {
    Filed(s, id, NewEntry(s, id, outcome))
  }

  /** The start of the phase: whatever an earlier attempt left in the files, with the static entries written over it. */
  function Start(leftMetrics: Metrics, leftStatus: map<Id, Status>): Screen {
    Screen(leftMetrics[F512S5 := NOT_RUN][C1024S5 := NOT_RUN][C8192S5 := NOT_RUN], map[],
           leftStatus[F512S5 := NotRequired][C1024S5 := NotRequired][C8192S5 := FollowUpOnly])
  }

  /** The state after the first `k` combinations. */
  function After(k: nat, start: Screen, outcome: Id -> Summary): Screen
    requires k <= 17
  {
    if k == 0 then start else Step(After(k - 1, start, outcome), Nth(k - 1), outcome)
  }

  // ---- What the pass settles ----------------------------------------------------------------

  function Find<K, V>(m: map<K, V>, key: K): Option<V> {
    if key in m then Some(m[key]) else None
  }

  lemma UpdateFrame<K, V>(m: map<K, V>, key: K, value: V, other: K)
    requires other != key
    ensures Find(m[key := value], other) == Find(m, other)
  {
  }

  predicate SameEntry(s: Screen, t: Screen, id: Id) {
    && Lookup(s.metrics, id) == Lookup(t.metrics, id) && Find(s.gates, id) == Find(t.gates, id)
    && Find(s.status, id) == Find(t.status, id)
  }

  lemma FiledFrame(s: Screen, id: Id, entry: Entry, other: Id)
    requires other != id
    ensures SameEntry(s, Filed(s, id, entry), other)
  {
    UpdateFrame(s.metrics, id, entry.summary, other);
    UpdateFrame(s.status, id, entry.status, other);
    if entry.gate.Some? {
      UpdateFrame(s.gates, id, entry.gate.value, other);
    }
    assert Lookup(s.metrics, other) == Find(s.metrics, other);
    assert Lookup(s.metrics[id := entry.summary], other) == Find(s.metrics[id := entry.summary], other);
  }

  lemma StepFrame(s: Screen, id: Id, outcome: Id -> Summary, other: Id)
    requires other != id
    ensures SameEntry(s, Step(s, id, outcome), other)
  {
    FiledFrame(s, id, NewEntry(s, id, outcome), other);
  }

  /** Once the pass has gone by a combination, nothing about it changes any more. */
  lemma {:induction false} Settled(id: Id, k: nat, n: nat, start: Screen, outcome: Id -> Summary)
    requires Rank(id) < k <= n <= 17 || (IsStatic(id) && k <= n <= 17)
    ensures SameEntry(After(k, start, outcome), After(n, start, outcome), id)
    decreases n
  {
    if k < n {
      Settled(id, k, n - 1, start, outcome);
      StepFrame(After(n - 1, start, outcome), Nth(n - 1), outcome, id);
    }
  }

  lemma SettledBefore(rank: nat, n: nat, start: Screen, outcome: Id -> Summary)
    requires rank <= n <= 17
    ensures SameBefore(After(rank, start, outcome).metrics, After(n, start, outcome).metrics, rank)
  {
    forall id | Rank(id) < rank
      ensures Lookup(After(rank, start, outcome).metrics, id) == Lookup(After(n, start, outcome).metrics, id)
    {
      Settled(id, rank, n, start, outcome);
    }
  }

  /** The whole phase. */
  function Screening(leftMetrics: Metrics, leftStatus: map<Id, Status>, outcome: Id -> Summary): Screen {
    After(17, Start(leftMetrics, leftStatus), outcome)
  }

  predicate Skip(status: map<Id, Status>, id: Id) {
    id in status && (status[id] == NotTriggered || status[id] == DependencyFailed)
  }

  /** The gate as the decision phase computes it, from the final files alone. */
  function ReplayedGate(id: Id, metrics: Metrics, status: map<Id, Status>): Gate {
    if Skip(status, id) then NOT_SCREENED else CandidateGate(id, metrics)
  }

  lemma FiledReads(s: Screen, id: Id, entry: Entry)
    ensures var t := Filed(s, id, entry);
            Lookup(t.metrics, id) == Some(entry.summary) && Find(t.status, id) == Some(entry.status)
            && Find(t.gates, id) == (if entry.gate.Some? then entry.gate else Find(s.gates, id))
            && t.metrics == s.metrics[id := entry.summary]
  {
  }

  lemma EntryDecides(s: Screen, id: Id, outcome: Id -> Summary)
    requires IsConditional(id)
    ensures var e := NewEntry(s, id, outcome);
            if Triggered(s, id)
            then e.summary == outcome(id) && e.gate == Some(CandidateGate(id, s.metrics[id := e.summary]))
              && e.status != NotTriggered && e.status != DependencyFailed
            else e.gate == Some(NOT_SCREENED) && (e.status == NotTriggered || e.status == DependencyFailed)
  {
  }

  lemma ReplayedAtOnce(id: Id, s: Screen, outcome: Id -> Summary)
    requires IsConditional(id)
    ensures var t := Step(s, id, outcome);
            Find(t.gates, id) == Some(ReplayedGate(id, t.metrics, t.status)) && Skip(t.status, id) == !Triggered(s, id)
  {
    var e := NewEntry(s, id, outcome);
    EntryDecides(s, id, outcome);
    FiledReads(s, id, e);
  }

  lemma OwnStep(id: Id, start: Screen, outcome: Id -> Summary)
    requires !IsStatic(id)
    ensures After(Rank(id) + 1, start, outcome) == Step(After(Rank(id), start, outcome), id, outcome)
  {
    RankIsPosition(id);
  }

  lemma ReplayCarries(id: Id, s: Screen, t: Screen)
    requires IsConditional(id) && SameEntry(s, t, id) && SameBefore(s.metrics, t.metrics, Rank(id) + 1)
    ensures ReplayedGate(id, s.metrics, s.status) == ReplayedGate(id, t.metrics, t.status)
  {
    InputsComeFirst(id);
    assert SameAt(s.metrics, t.metrics, GateInputs(id));
    GateFrame(id, s.metrics, t.metrics);
    assert Find(s.status, id) == Find(t.status, id);
  }

  /**
   Replay equality. The gate that the pass stored for a conditional combination, computed from the
   metrics of that moment, is the gate that the decision phase computes from the final metrics.
   */
  lemma GatesReplay(id: Id, leftMetrics: Metrics, leftStatus: map<Id, Status>, outcome: Id -> Summary)
    requires IsConditional(id)
    ensures var s := Screening(leftMetrics, leftStatus, outcome);
            Find(s.gates, id) == Some(ReplayedGate(id, s.metrics, s.status))
  {
    var start, k := Start(leftMetrics, leftStatus), Rank(id);
    OwnStep(id, start, outcome);
    ReplayedAtOnce(id, After(k, start, outcome), outcome);
    Settled(id, k + 1, 17, start, outcome);
    SettledBefore(k + 1, 17, start, outcome);
    ReplayCarries(id, After(k + 1, start, outcome), After(17, start, outcome));
  }

  // ---- Decisions ---------------------------------------------------------------------------

  datatype PlanStatus = Queued | DroppedFromPlan | BrokenDependency | KeptAsFollowUp

  /** What `apply_decision` writes for one combination. */
  datatype Verdict = Verdict(chosen: bool, status: PlanStatus, gate: Option<Gate>)

  function PlanStatusOf(id: Id, chosen: bool, status: map<Id, Status>): PlanStatus {
    if chosen then Queued
    else if id == C8192S5 then KeptAsFollowUp
    else if id in status && status[id] == DependencyFailed then BrokenDependency
    else DroppedFromPlan
  }

  function VerdictOf(id: Id, metrics: Metrics, status: map<Id, Status>): Verdict {
    var gate := if IsConditional(id) then Some(ReplayedGate(id, metrics, status)) else None;
    var chosen := if IsStatic(id) then false
                   else if IsDefault(id) then TechnicalOk(Lookup(metrics, id))
                   else gate.value.Include();
    Verdict(chosen, PlanStatusOf(id, chosen, status), gate)
  }

  const DECISION_ORDER: seq<Id> := STATIC_IDS + ORDER

  lemma DecisionOrderIsMatrix(id: Id)
    ensures |DECISION_ORDER| == |MATRIX| == 20
    ensures id in DECISION_ORDER && id in MATRIX
  {
    RankIsPosition(id);
    if IsStatic(id) {
      assert id in STATIC_IDS;
    } else {
      assert id == DECISION_ORDER[3 + Rank(id)];
    }
  }

  lemma DecisionOrderDistinct()
    ensures Distinct(DECISION_ORDER)
  {
    forall i: nat, j: nat | i < j < |DECISION_ORDER| ensures DECISION_ORDER[i] != DECISION_ORDER[j] {
      if i >= 3 {
        assert DECISION_ORDER[i] == Nth(i - 3);
      }
      if j >= 3 {
        assert DECISION_ORDER[j] == Nth(j - 3);
      }
    }
  }

  /** The included ones among some combinations, in their order. */
  function Chosen(ids: seq<Id>, verdictOf: Id -> Verdict): seq<Id> {
    if ids == [] then [] else
      var last := ids[|ids| - 1];
      Chosen(ids[..|ids| - 1], verdictOf) + if verdictOf(last).chosen then [last] else []
  }

  lemma {:induction false} ChosenAreTheIncluded(ids: seq<Id>, verdictOf: Id -> Verdict)
    requires Distinct(ids)
    ensures Distinct(Chosen(ids, verdictOf))
    ensures forall id :: id in Chosen(ids, verdictOf) <==> id in ids && verdictOf(id).chosen
  {
    if ids != [] {
      var before, last := ids[..|ids| - 1], ids[|ids| - 1];
      ChosenAreTheIncluded(before, verdictOf);
      assert ids == before + [last];
      ExtendChosen(before, last, Chosen(before, verdictOf), verdictOf(last).chosen);
    }
  }

  lemma ExtendChosen(before: seq<Id>, last: Id, chosen: seq<Id>, take: bool)
    requires Distinct(before + [last]) && Distinct(chosen) && forall id | id in chosen :: id in before
    ensures Distinct(chosen + if take then [last] else [])
    ensures last !in before
  {
    forall i | 0 <= i < |before| ensures before[i] != last {
      assert (before + [last])[i] != (before + [last])[|before|];
    }
    if take {
      var all := chosen + [last];
      forall i, j | 0 <= i < j < |all| ensures all[i] != all[j] {
        assert all[i] == chosen[i] && chosen[i] in before;
      }
    }
  }

  predicate VerdictsFor(ids: seq<Id>, verdicts: map<Id, Verdict>, verdictOf: Id -> Verdict) {
    forall id | id in ids :: id in verdicts && verdicts[id] == verdictOf(id)
  }

  lemma OneMoreVerdict(ids: seq<Id>, last: Id, verdicts: map<Id, Verdict>, verdictOf: Id -> Verdict)
    requires VerdictsFor(ids, verdicts, verdictOf)
    ensures VerdictsFor(ids + [last], verdicts[last := verdictOf(last)], verdictOf)
    ensures Chosen(ids + [last], verdictOf) == Chosen(ids, verdictOf) + if verdictOf(last).chosen then [last] else []
  {
    assert (ids + [last])[..|ids|] == ids;
  }

  lemma AllDecided(verdicts: map<Id, Verdict>, verdictOf: Id -> Verdict)
    requires VerdictsFor(DECISION_ORDER, verdicts, verdictOf)
    ensures forall id: Id :: id in verdicts && verdicts[id] == verdictOf(id)
    ensures forall id: Id :: id in Chosen(DECISION_ORDER, verdictOf) <==> verdictOf(id).chosen
    ensures Distinct(Chosen(DECISION_ORDER, verdictOf))
  {
    DecisionOrderDistinct();
    ChosenAreTheIncluded(DECISION_ORDER, verdictOf);
    forall id: Id
      ensures id in verdicts && verdicts[id] == verdictOf(id)
      ensures id in Chosen(DECISION_ORDER, verdictOf) <==> verdictOf(id).chosen
    {
      DecisionOrderIsMatrix(id);
    }
  }

  /** `apply_decision` for some combinations in turn. */
  method ApplyDecisions(order: seq<Id>, verdictOf: Id -> Verdict)
    returns (verdicts: map<Id, Verdict>, selected: seq<Id>)
    ensures VerdictsFor(order, verdicts, verdictOf) && selected == Chosen(order, verdictOf)
  {
    verdicts, selected := map[], [];
    for k := 0 to |order|
      invariant VerdictsFor(order[..k], verdicts, verdictOf) && selected == Chosen(order[..k], verdictOf)
    {
      var verdict := verdictOf(order[k]);
      OneMoreVerdict(order[..k], order[k], verdicts, verdictOf);
      assert order[..k + 1] == order[..k] + [order[k]];
      verdicts := verdicts[order[k] := verdict];
      if verdict.chosen {
        selected := selected + [order[k]];
      }
    }
    assert order[..|order|] == order;
  }

  /**
   `build_screening_decisions`: every combination of the matrix gets exactly one verdict, and the
   selected list holds each included combination once, whatever the files say.
   */
  method BuildScreeningDecisions(metrics: Metrics, status: map<Id, Status>)
    returns (verdicts: map<Id, Verdict>, selected: seq<Id>)
    ensures forall id: Id :: id in verdicts && verdicts[id] == VerdictOf(id, metrics, status)
    ensures forall id: Id :: id in selected <==> VerdictOf(id, metrics, status).chosen
    ensures Distinct(selected)
  {
    var verdictOf := (id: Id) => VerdictOf(id, metrics, status);
    verdicts, selected := ApplyDecisions(DECISION_ORDER, verdictOf);
    AllDecided(verdicts, verdictOf);
    assert forall id: Id :: verdictOf(id) == VerdictOf(id, metrics, status);
  }

  predicate Selected(s: Screen, id: Id) {
    VerdictOf(id, s.metrics, s.status).chosen
  }

  lemma SelectedIsNotSkipped(id: Id, s: Screen, t: Screen)
    requires IsConditional(id) && Selected(t, id) && SameEntry(s, t, id)
    ensures !Skip(s.status, id)
  {
    assert Find(s.status, id) == Find(t.status, id);
  }

  lemma SelectedWasTriggered(id: Id, leftMetrics: Metrics, leftStatus: map<Id, Status>, outcome: Id -> Summary)
    requires IsConditional(id) && Selected(Screening(leftMetrics, leftStatus, outcome), id)
    ensures Triggered(After(Rank(id), Start(leftMetrics, leftStatus), outcome), id)
  {
    var start, k := Start(leftMetrics, leftStatus), Rank(id);
    OwnStep(id, start, outcome);
    ReplayedAtOnce(id, After(k, start, outcome), outcome);
    Settled(id, k + 1, 17, start, outcome);
    SelectedIsNotSkipped(id, After(k + 1, start, outcome), After(17, start, outcome));
  }

  lemma OnlyConditionalsDepend(id: Id, d: Id)
    requires d in Dependencies(id)
    ensures IsConditional(id) && (IsConditional(d) || IsDefault(d))
  {
  }

  lemma DefaultDependency(s: Screen, id: Id, d: Id)
    requires IsConditional(id) && Triggered(s, id) && d in Dependencies(id) && IsDefault(d)
    ensures TechnicalOk(Lookup(s.metrics, d))
  {
  }

  lemma DefaultIsSelected(id: Id, s: Screen)
    requires IsDefault(id) && TechnicalOk(Lookup(s.metrics, id))
    ensures Selected(s, id)
  {
  }

  lemma PassedIsSelected(id: Id, s: Screen)
    requires IsConditional(id) && ReplayedGate(id, s.metrics, s.status).decision == Passed
    ensures Selected(s, id)
  {
  }

  lemma ConditionalDependency(s: Screen, id: Id, d: Id)
    requires IsConditional(id) && Triggered(s, id) && d in Dependencies(id) && IsConditional(d)
    ensures d in s.gates && s.gates[d].decision == Passed
  {
  }

  /**
   Dependency closure. Over every run, whatever the workers return and whatever an earlier attempt
   left behind, a selected combination has all its dependencies selected.
   */
  lemma SelectedIsClosed(id: Id, d: Id, leftMetrics: Metrics, leftStatus: map<Id, Status>, outcome: Id -> Summary)
    requires d in Dependencies(id)
    requires Selected(Screening(leftMetrics, leftStatus, outcome), id)
    ensures Selected(Screening(leftMetrics, leftStatus, outcome), d)
  {
    OnlyConditionalsDepend(id, d);
    InputsComeFirst(id);
    SelectedWasTriggered(id, leftMetrics, leftStatus, outcome);
    var s := After(Rank(id), Start(leftMetrics, leftStatus), outcome);
    Settled(d, Rank(id), 17, Start(leftMetrics, leftStatus), outcome);
    if IsConditional(d) {
      ConditionalDependency(s, id, d);
      GatesReplay(d, leftMetrics, leftStatus, outcome);
      PassedIsSelected(d, Screening(leftMetrics, leftStatus, outcome));
    } else {
      DefaultDependency(s, id, d);
      DefaultIsSelected(d, Screening(leftMetrics, leftStatus, outcome));
    }
  }

  lemma SelectedIsNeverStatic(s: Screen, id: Id)
    requires Selected(s, id)
    ensures id !in STATIC_IDS
  {
  }

  /** A summary on which every technical check succeeds. */
  function Ran(wis: real): Summary {
    var p := Prediction(Number(1.0), Number(wis), Number(wis), Number(0.5));
    var w := Some(Window(Some(p), None));
    var h := Some(HorizonFigures(Number(wis), Number(wis)));
    Summary(false, Number(1.0), Some(p), Some(TradingFigures(Number(0.0), Number(0.0), Number(0.0))), [w, w, w],
            [h, h, h, h], Absent)
  }

  lemma RanBeats()
    ensures FiveSecondGate(Some(Ran(0.5)), Some(Ran(1.0))).decision == Passed
  {
    var a, b := Ran(0.5), Ran(1.0);
    var e := Compare(a, b);
    assert e.wis == Some(0.5);
    assert Tally(WindowPredictionImproved, a.windows, b.windows, 1) == 1;
    assert Tally(WindowPredictionImproved, a.windows, b.windows, 2) == 2;
    assert e.predictionWindows == 3;
    assert Tally(HorizonImproved, a.horizons, b.horizons, 1) == 1;
    assert Tally(HorizonImproved, a.horizons, b.horizons, 2) == 2;
    assert Tally(HorizonImproved, a.horizons, b.horizons, 3) == 3;
    assert e.predictionHorizons == 4;
  }

  /** A metrics file that no pass writes: 4096 by 5 seconds and one of its comparators, and nothing else. */
  const ALONE: Metrics := map[C4096S5 := Ran(0.5), C4096S15 := Ran(1.0)]

  lemma AloneLookups()
    ensures Lookup(ALONE, C4096S5) == Some(Ran(0.5)) && Lookup(ALONE, C4096S15) == Some(Ran(1.0))
    ensures Lookup(ALONE, C1024S15) == None && Lookup(ALONE, C2048S5) == None
    ensures TechnicalOk(Lookup(ALONE, C4096S15)) && !TechnicalOk(Lookup(ALONE, C1024S15))
  {
  }

  lemma AloneBest()
    ensures BestComparator(ALONE, FIFTEEN_SECOND_IDS) == Some(C4096S15)
  {
    AloneLookups();
    assert BestComparator(ALONE, []) == None;
    assert FIFTEEN_SECOND_IDS[..1] == [C1024S15];
    assert [C1024S15][..0] == [];
    assert BestComparator(ALONE, [C1024S15]) == None;
  }

  lemma AloneComparator()
    ensures ComparatorOf(C4096S5, ALONE) == Some(C4096S15)
  {
    AloneLookups();
    assert FirstOk(ALONE, [C4096S15]) == Some(C4096S15);
    assert Comparators(C4096S5)[1..] == [C4096S15];
  }

  /**
   The closure comes from the pass and not from the decision phase: on a metrics file that no pass
   writes, the decision phase selects 4096 by 5 seconds without 2048 by 5 seconds.
   */
  lemma DecisionsAloneAreNotClosed()
    ensures C2048S5 in Dependencies(C4096S5)
    ensures VerdictOf(C4096S5, ALONE, map[]).chosen && !VerdictOf(C2048S5, ALONE, map[]).chosen
  {
    RanBeats();
    AloneLookups();
    AloneBest();
    AloneComparator();
  }

  // ---- Restarting the phase -----------------------------------------------------------------

  predicate SamePast(s: Screen, t: Screen, k: nat) {
    s.gates == t.gates && forall id | Rank(id) < k :: SameEntry(s, t, id)
  }

  lemma StepAgrees(s: Screen, t: Screen, id: Id, outcome: Id -> Summary)
    requires IsConditional(id) && SamePast(s, t, Rank(id))
    ensures Triggered(s, id) == Triggered(t, id)
    ensures CandidateGate(id, s.metrics[id := outcome(id)]) == CandidateGate(id, t.metrics[id := outcome(id)])
  {
    assert SameBefore(s.metrics, t.metrics, Rank(id));
    TriggerFrame(id, s.metrics, t.metrics, DecisionsOf(s.gates));
    SameAfterFiling(s.metrics, t.metrics, id, outcome(id));
    GateFrame(id, s.metrics[id := outcome(id)], t.metrics[id := outcome(id)]);
  }

  lemma SameAfterFiling(m: Metrics, n: Metrics, id: Id, summary: Summary)
    requires IsConditional(id) && SameBefore(m, n, Rank(id))
    ensures SameAt(m[id := summary], n[id := summary], GateInputs(id))
  {
    InputsComeFirst(id);
    forall x | x in GateInputs(id) ensures Lookup(m[id := summary], x) == Lookup(n[id := summary], x) {
      RankIsPosition(x);
      RankIsPosition(id);
      assert Rank(x) <= Rank(id);
    }
  }

  lemma SameStep(s: Screen, t: Screen, id: Id, outcome: Id -> Summary)
    requires !IsStatic(id) && SamePast(s, t, Rank(id))
    ensures NewEntry(s, id, outcome) == NewEntry(t, id, outcome)
  {
    if IsConditional(id) {
      StepAgrees(s, t, id, outcome);
    }
  }

  lemma FiledAlike(s: Screen, t: Screen, id: Id, entry: Entry)
    requires s.gates == t.gates
    ensures Filed(s, id, entry).gates == Filed(t, id, entry).gates
    ensures SameEntry(Filed(s, id, entry), Filed(t, id, entry), id)
  {
  }

  lemma StepForgets(s: Screen, t: Screen, k: nat, outcome: Id -> Summary)
    requires k < 17 && SamePast(s, t, k)
    ensures SamePast(Step(s, Nth(k), outcome), Step(t, Nth(k), outcome), k + 1)
  {
    var id := Nth(k);
    SameStep(s, t, id, outcome);
    FiledAlike(s, t, id, NewEntry(s, id, outcome));
    forall x | Rank(x) < k + 1 ensures SameEntry(Step(s, id, outcome), Step(t, id, outcome), x) {
      if x != id {
        RankIsPosition(x);
        StepFrame(s, id, outcome, x);
        StepFrame(t, id, outcome, x);
      }
    }
  }

  lemma {:induction false} PassForgets(s: Screen, t: Screen, k: nat, outcome: Id -> Summary)
    requires k <= 17 && s.gates == t.gates
    ensures SamePast(After(k, s, outcome), After(k, t, outcome), k)
  {
    if k > 0 {
      PassForgets(s, t, k - 1, outcome);
      StepForgets(After(k - 1, s, outcome), After(k - 1, t, outcome), k - 1, outcome);
    }
  }

  predicate StaticFiled(s: Screen, id: Id) {
    && Lookup(s.metrics, id) == Some(NOT_RUN) && Find(s.status, id) == Some(StaticStatus(id))
    && Find(s.gates, id) == None
  }

  lemma StaticAtStart(id: Id, leftMetrics: Metrics, leftStatus: map<Id, Status>)
    requires IsStatic(id)
    ensures StaticFiled(Start(leftMetrics, leftStatus), id)
  {
  }

  lemma StaticStays(id: Id, n: nat, start: Screen, outcome: Id -> Summary)
    requires IsStatic(id) && n <= 17 && StaticFiled(start, id)
    ensures StaticFiled(After(n, start, outcome), id)
  {
    Settled(id, 0, n, start, outcome);
  }

  lemma StaticEntries(id: Id, leftMetrics: Metrics, leftStatus: map<Id, Status>, outcome: Id -> Summary)
    requires IsStatic(id)
    ensures StaticFiled(Screening(leftMetrics, leftStatus, outcome), id)
  {
    StaticAtStart(id, leftMetrics, leftStatus);
    StaticStays(id, 17, Start(leftMetrics, leftStatus), outcome);
  }

  lemma StaticAgree(id: Id, s: Screen, t: Screen)
    requires StaticFiled(s, id) && StaticFiled(t, id)
    ensures SameEntry(s, t, id)
  {
  }

  lemma PassedAgree(id: Id, n: nat, s: Screen, t: Screen, outcome: Id -> Summary)
    requires Rank(id) < n <= 17 && s.gates == t.gates
    ensures SameEntry(After(n, s, outcome), After(n, t, outcome), id)
  {
    PassForgets(s, t, n, outcome);
  }

  /**
   A restarted phase forgets the attempt before it: what a crashed attempt left in the metrics file
   and in the statuses changes no entry of the finished phase, so no verdict either.
   */
  lemma RestartForgets(id: Id, left1: Metrics, status1: map<Id, Status>, left2: Metrics, status2: map<Id, Status>,
                       outcome: Id -> Summary)
    ensures SameEntry(Screening(left1, status1, outcome), Screening(left2, status2, outcome), id)
  {
    if IsStatic(id) {
      StaticEntries(id, left1, status1, outcome);
      StaticEntries(id, left2, status2, outcome);
      StaticAgree(id, Screening(left1, status1, outcome), Screening(left2, status2, outcome));
    } else {
      RankIsPosition(id);
      PassedAgree(id, 17, Start(left1, status1), Start(left2, status2), outcome);
    }
  }

  /** The finished metrics file covers the whole matrix, so the check that follows the pass cannot fail. */
  lemma MetricsCoverMatrix(id: Id, leftMetrics: Metrics, leftStatus: map<Id, Status>, outcome: Id -> Summary)
    ensures Lookup(Screening(leftMetrics, leftStatus, outcome).metrics, id).Some?
  {
    if IsStatic(id) {
      StaticEntries(id, leftMetrics, leftStatus, outcome);
    } else {
      RankIsPosition(id);
      var s := After(Rank(id), Start(leftMetrics, leftStatus), outcome);
      FiledReads(s, id, NewEntry(s, id, outcome));
      Settled(id, Rank(id) + 1, 17, Start(leftMetrics, leftStatus), outcome);
    }
  }

  // ---- The phase as it updates its files -----------------------------------------------------

  class ScreeningPhase {
    var metrics: Metrics
    var gateResults: map<Id, Gate>
    var status: map<Id, Status>

    function State(): Screen
      reads this
    {
      Screen(metrics, gateResults, status)
    }

    constructor (leftMetrics: Metrics, leftStatus: map<Id, Status>)
      ensures State() == Start(leftMetrics, leftStatus)
    {
      metrics := leftMetrics[F512S5 := NOT_RUN][C1024S5 := NOT_RUN][C8192S5 := NOT_RUN];
      gateResults := map[];
      status := leftStatus[F512S5 := NotRequired][C1024S5 := NotRequired][C8192S5 := FollowUpOnly];
    }

    method ScreenOne(id: Id, summary: Summary)
      modifies this
      ensures State() == Filed(old(State()), id, Entry(summary, RunStatus(summary), None))
    {
      metrics := metrics[id := summary];
      if TechnicalOk(Some(summary)) {
        status := status[id := Completed];
      } else {
        status := status[id := Failed];
      }
    }

    method SkipScreen(id: Id)
      modifies this
      ensures State() == Filed(old(State()), id, Entry(NOT_RUN, SkipStatus(old(gateResults), id), None))
    {
      var dependency := ReportedDependency(id);
      if dependency.Some? && dependency.value in gateResults && gateResults[dependency.value].decision != Passed {
        status := status[id := DependencyFailed];
      } else {
        status := status[id := NotTriggered];
      }
      metrics := metrics[id := NOT_RUN];
    }

    method ScreenConditional(id: Id, outcome: Id -> Summary)
      requires !IsDefault(id)
      modifies this
      ensures State() == Step(old(State()), id, outcome)
    {
      if Trigger(id, metrics, DecisionsOf(gateResults)) {
        ScreenOne(id, outcome(id));
        gateResults := gateResults[id := CandidateGate(id, metrics)];
      } else {
        SkipScreen(id);
        gateResults := gateResults[id := NOT_SCREENED];
      }
    }

    method Run(outcome: Id -> Summary)
      modifies this
      ensures State() == After(17, old(State()), outcome)
    {
      for k := 0 to 10
        invariant State() == After(k, old(State()), outcome)
      {
        ScreenOne(Nth(k), outcome(Nth(k)));
      }
      for k := 10 to 17
        invariant State() == After(k, old(State()), outcome)
      {
        ScreenConditional(Nth(k), outcome);
      }
    }
  }
}
