/** The qualification state file: locked commands from several processes, any of which may die at any point. */
module QualificationState {
  import opened Wrappers

  // ---- The state file ----------------------------------------------------------------------

  datatype StepStatus = Pending | Running | Completed | Failed | Skipped

  datatype StepRecord = StepRecord(id: string, status: StepStatus)

  datatype RunStatus = InProgress | Ended(status: string)

  datatype Progress = Progress(completed: nat, failed: nat, skipped: nat, total: nat, percent: real,
                               activePercent: Option<real>)

  datatype State = State(status: RunStatus, active: Option<string>, progress: Progress, steps: seq<StepRecord>)

  const CONTEXT_STEPS: seq<string> :=
    ["preflight", "runtime", "prepare-source", "origin-parity", "pilot-artifacts", "pilot-benchmark", "pilot-gate",
     "full-artifacts", "full-benchmark", "full-generation", "accuracy-analysis", "finalize"]

  const PILOT_STEPS: seq<string> :=
    ["preflight", "runtime", "prepare-input", "chronos-artifacts", "pilot-inference", "pilot-comparison", "eta"]

  /** The experiment and the mode together choose the steps; the steps of a full comparison cannot be built. */
  datatype Kind = ContextWindow | PilotComparison | FullComparison

  function StepIds(kind: Kind): Option<seq<string>> {
    match kind
    case ContextWindow => Some(CONTEXT_STEPS)
    case PilotComparison => Some(PILOT_STEPS)
    case FullComparison => None
  }

  function Fresh(ids: seq<string>): (steps: seq<StepRecord>)
    ensures |steps| == |ids| && forall i | 0 <= i < |ids| :: steps[i] == StepRecord(ids[i], Pending)
  {
    seq(|ids|, i requires 0 <= i < |ids| => StepRecord(ids[i], Pending))
  }

  function Count(steps: seq<StepRecord>, status: StepStatus): (n: nat)
    ensures n <= |steps|
  {
    if steps == [] then 0
    else Count(steps[..|steps| - 1], status) + if steps[|steps| - 1].status == status then 1 else 0
  }

  function Percent(done: nat, total: nat): real {
    if total == 0 then 0.0 else
      var p := done as real / total as real * 100.0;
      if p < 100.0 then p else 100.0
  }

  /** `progress`. */
  function ProgressOf(steps: seq<StepRecord>, active: Option<string>): Progress {
    var (c, f, k) := (Count(steps, Completed), Count(steps, Failed), Count(steps, Skipped));
    Progress(c, f, k, |steps|, Percent(c + f + k, |steps|), if active.Some? then Some(0.0) else None)
  }

  function Refreshed(s: State): State {
    s.(progress := ProgressOf(s.steps, s.active))
  }

  /** The first step with an id; the number of steps when there is none. */
  function IndexOf(steps: seq<StepRecord>, id: string): (i: nat)
    ensures i <= |steps|
    ensures i < |steps| ==> steps[i].id == id
    ensures forall j | 0 <= j < i :: steps[j].id != id
  {
    if steps == [] || steps[0].id == id then 0 else 1 + IndexOf(steps[1..], id)
  }

  predicate OtherRunning(steps: seq<StepRecord>, id: string) {
    exists i | 0 <= i < |steps| :: steps[i].status == Running && steps[i].id != id
  }

  function WithStatus(s: State, i: nat, status: StepStatus): State
    requires i < |s.steps|
  {
    s.(steps := s.steps[i := s.steps[i].(status := status)])
  }

  // ---- Commands ----------------------------------------------------------------------------

  datatype Command =
    | Init(kind: Kind)
    | Start(id: string)
    | Complete(id: string)
    | Fail(id: string)
    | Refresh
    | ContextResult(percent: real)
    | Finish(status: string)

  function StartStep(s: State, id: string): Option<State> {
    var i := IndexOf(s.steps, id);
    if i == |s.steps| || s.steps[i].status == Completed || s.steps[i].status == Skipped || OtherRunning(s.steps, id)
    then None
    else Some(Refreshed(WithStatus(s, i, Running).(status := InProgress, active := Some(id))))
  }

  function EndStep(s: State, id: string, status: StepStatus): Option<State> {
    var i := IndexOf(s.steps, id);
    if i == |s.steps| || s.steps[i].status != Running then None
    else Some(Refreshed(WithStatus(s, i, status).(active := None)))
  }

  /** What a command writes, given the file that it read; `None` when it raises. */
  function Execute(command: Command, file: Option<State>): Option<State> {
    match command
    case Init(kind) =>
      var ids := StepIds(kind);
      if file.Some? || ids.None? then None
      else Some(Refreshed(State(InProgress, None, Progress(0, 0, 0, 0, 0.0, None), Fresh(ids.value))))
    case _ =>
      if file.None? then None else
        var s := file.value;
        match command
        case Start(id) => StartStep(s, id)
        case Complete(id) => EndStep(s, id, Completed)
        case Fail(id) => EndStep(s, id, Failed)
        case ContextResult(percent) =>
          var t := Refreshed(s);
          Some(if s.active.Some? then t.(progress := t.progress.(activePercent := Some(percent))) else t)
        case Finish(status) => Some(Refreshed(s.(status := Ended(status), active := None)))
        case _ => Some(Refreshed(s))
  }

  // ---- What every state satisfies ------------------------------------------------------------

  predicate DistinctIds(steps: seq<StepRecord>) {
    forall i, j | 0 <= i < j < |steps| :: steps[i].id != steps[j].id
  }

  predicate OneRunning(steps: seq<StepRecord>) {
    forall i, j | 0 <= i < j < |steps| :: !(steps[i].status == Running && steps[j].status == Running)
  }

  predicate NamesRunning(steps: seq<StepRecord>, id: string) {
    exists i | 0 <= i < |steps| :: steps[i].id == id && steps[i].status == Running
  }

  predicate NoneRunning(steps: seq<StepRecord>) {
    forall i | 0 <= i < |steps| :: steps[i].status != Running
  }

  /** The active step names the one running step, and while the run is in progress it is missing only if none runs. */
  predicate ActiveFits(s: State) {
    && (s.active.Some? ==> s.status == InProgress && NamesRunning(s.steps, s.active.value))
    && (s.active.None? && s.status == InProgress ==> NoneRunning(s.steps))
  }

  predicate CountsFit(s: State) {
    && s.progress.completed == Count(s.steps, Completed) && s.progress.failed == Count(s.steps, Failed)
    && s.progress.skipped == Count(s.steps, Skipped) && s.progress.total == |s.steps|
    && s.progress.completed + s.progress.failed + s.progress.skipped <= s.progress.total
    && 0.0 <= s.progress.percent <= 100.0
  }

  predicate Good(s: State) {
    |s.steps| > 0 && DistinctIds(s.steps) && OneRunning(s.steps) && ActiveFits(s) && CountsFit(s)
  }

  lemma {:induction false} CountsAreDisjoint(steps: seq<StepRecord>)
    ensures Count(steps, Completed) + Count(steps, Failed) + Count(steps, Skipped) <= |steps|
  {
    if steps != [] {
      CountsAreDisjoint(steps[..|steps| - 1]);
    }
  }

  lemma PercentInRange(done: nat, total: nat)
    requires done <= total
    ensures 0.0 <= Percent(done, total) <= 100.0
  {
  }

  lemma RefreshedCounts(s: State)
    ensures CountsFit(Refreshed(s))
  {
    CountsAreDisjoint(s.steps);
    PercentInRange(Count(s.steps, Completed) + Count(s.steps, Failed) + Count(s.steps, Skipped), |s.steps|);
  }

  lemma IndexIsUnique(steps: seq<StepRecord>, i: nat)
    requires DistinctIds(steps) && i < |steps|
    ensures IndexOf(steps, steps[i].id) == i
  {
  }

  lemma StartKeepsGood(s: State, id: string)
    requires Good(s) && StartStep(s, id).Some?
    ensures Good(StartStep(s, id).value)
  {
    var i := IndexOf(s.steps, id);
    var t := WithStatus(s, i, Running).(status := InProgress, active := Some(id));
    RefreshedCounts(t);
    assert t.steps[i].id == id && t.steps[i].status == Running;
    forall j, k | 0 <= j < k < |t.steps| ensures !(t.steps[j].status == Running && t.steps[k].status == Running) {
      assert j != i ==> s.steps[j].id != id;
      assert k != i ==> s.steps[k].id != id;
    }
  }

  lemma OthersRest(steps: seq<StepRecord>, i: nat, j: nat)
    requires OneRunning(steps) && i < |steps| && j < |steps| && i != j && steps[i].status == Running
    ensures steps[j].status != Running
  {
  }

  lemma EndKeepsGood(s: State, id: string, status: StepStatus)
    requires Good(s) && status != Running && EndStep(s, id, status).Some?
    ensures Good(EndStep(s, id, status).value)
  {
    var i := IndexOf(s.steps, id);
    var t := WithStatus(s, i, status).(active := None);
    RefreshedCounts(t);
    forall j: nat | j < |t.steps| ensures t.steps[j].status != Running {
      if j != i {
        OthersRest(s.steps, i, j);
      }
    }
  }

  predicate DistinctNames(ids: seq<string>) {
    forall i, j | 0 <= i < j < |ids| :: ids[i] != ids[j]
  }

  lemma ContextNames()
    ensures CONTEXT_STEPS != [] && DistinctNames(CONTEXT_STEPS)
  {
  }

  lemma PilotNames()
    ensures PILOT_STEPS != [] && DistinctNames(PILOT_STEPS)
  {
  }

  lemma FreshIsGood(ids: seq<string>, progress: Progress)
    requires ids != [] && DistinctNames(ids)
    ensures Good(Refreshed(State(InProgress, None, progress, Fresh(ids))))
  {
    RefreshedCounts(State(InProgress, None, progress, Fresh(ids)));
  }

  lemma InitIsGood(kind: Kind)
    requires Execute(Init(kind), None).Some?
    ensures Good(Execute(Init(kind), None).value)
  {
    var ids := StepIds(kind).value;
    assert ids != [] && DistinctNames(ids) by {
      if kind == ContextWindow {
        ContextNames();
      } else {
        PilotNames();
      }
    }
    FreshIsGood(ids, Progress(0, 0, 0, 0, 0.0, None));
  }

  /** Every command that writes at all writes a good state over a good one. */
  lemma ExecuteKeepsGood(command: Command, file: Option<State>)
    requires file.Some? ==> Good(file.value)
    requires Execute(command, file).Some?
    ensures Good(Execute(command, file).value)
  {
    match command {
      case Init(kind) => InitIsGood(kind);
      case Start(id) => StartKeepsGood(file.value, id);
      case Complete(id) => EndKeepsGood(file.value, id, Completed);
      case Fail(id) => EndKeepsGood(file.value, id, Failed);
      case Refresh => RefreshedCounts(file.value);
      case ContextResult(_) => RefreshedCounts(file.value);
      case Finish(status) => RefreshedCounts(file.value.(status := Ended(status), active := None));
    }
  }

  /** The same steps, and every completed one still completed. */
  predicate Succeeds(s: State, t: State) {
    && |s.steps| == |t.steps|
    && forall i | 0 <= i < |s.steps| ::
         s.steps[i].id == t.steps[i].id && (s.steps[i].status == Completed ==> t.steps[i].status == Completed)
  }

  lemma ExecuteSucceeds(command: Command, s: State)
    requires Execute(command, Some(s)).Some?
    ensures Succeeds(s, Execute(command, Some(s)).value)
  {
  }

  // ---- Events ------------------------------------------------------------------------------

  datatype Event = Event(sequence: nat, kind: string, stepId: Option<string>, percent: real)

  /** One line of the event file; a torn or glued line cannot be read. */
  datatype Line = Whole(event: Event) | Damaged

  /** The file, and whether its last line lacks the line end. */
  datatype Log = Log(lines: seq<Line>, open: bool)

  datatype Planned = Planned(kind: string, stepId: Option<string>)

  function EventsFor(command: Command): seq<Planned> {
    match command
    case Init(_) => [Planned("run_created", None), Planned("run_started", None)]
    case Start(id) => [Planned("step_started", Some(id))]
    case Complete(id) => [Planned("step_completed", Some(id))]
    case Fail(id) => [Planned("step_failed", Some(id))]
    case Finish(_) => [Planned("run_completed", None)]
    case _ => []
  }

  /** `append_event`: the sequence number is one more than the number of lines, and an open last line is glued to. */
  function Appended(log: Log, p: Planned, percent: real): Log {
    if log.open then Log(Front(log.lines) + [Damaged], false)
    else Log(log.lines + [Whole(Event(|log.lines| + 1, p.kind, p.stepId, percent))], false)
  }

  function Front(lines: seq<Line>): seq<Line> {
    if lines == [] then [] else lines[..|lines| - 1]
  }

  /** How much of an append survives a crash. */
  datatype Torn = Nothing | Part | AllButLineEnd

  function TornAppend(log: Log, p: Planned, percent: real, torn: Torn): Log {
    match torn
    case Nothing => log
    case Part => Log(if log.open then Appended(log, p, percent).lines else log.lines + [Damaged], true)
    case AllButLineEnd => Log(Appended(log, p, percent).lines, true)
  }

  /** Every line that can be read carries its own position, counted from one. */
  predicate Numbered(log: Log) {
    && (log.open ==> log.lines != [])
    && forall i | 0 <= i < |log.lines| && log.lines[i].Whole? :: log.lines[i].event.sequence == i + 1
  }

  lemma AppendKeepsNumbers(log: Log, p: Planned, percent: real, torn: Torn)
    requires Numbered(log)
    ensures Numbered(Appended(log, p, percent)) && Numbered(TornAppend(log, p, percent, torn))
  {
  }

  // ---- Several processes --------------------------------------------------------------------

  /** Where a process is inside its locked command. */
  datatype Phase =
    | Holding(command: Command)
    | Ready(command: Command, next: State)
    | Logging(left: seq<Planned>, percent: real)

  datatype World = World(file: Option<State>, log: Log, lock: Option<nat>, procs: map<nat, Phase>)

  /** What the scheduler can make a process do next. */
  datatype Action = Begin(command: Command) | Read | Write | Append | Release | Crash(torn: Torn)

  function Left(w: World, pid: nat): World {
    w.(lock := None, procs := w.procs - {pid})
  }

  function At(w: World, pid: nat, phase: Phase): World {
    w.(procs := w.procs[pid := phase])
  }

  /** One step of one process. A step that it cannot take changes nothing: it waits. */
  function Act(w: World, pid: nat, action: Action): World {
    if pid !in w.procs then
      if action.Begin? && w.lock.None? then At(w.(lock := Some(pid)), pid, Holding(action.command)) else w
    else
      match (w.procs[pid], action)
      case (Holding(command), Read) =>
        var next := Execute(command, w.file);
        if next.None? then Left(w, pid) else At(w, pid, Ready(command, next.value))
      case (Ready(command, next), Write) =>
        At(w.(file := Some(next)), pid, Logging(EventsFor(command), next.progress.percent))
      case (Logging(left, percent), Append) =>
        if left == [] then w else At(w.(log := Appended(w.log, left[0], percent)), pid, Logging(left[1..], percent))
      case (Logging(left, percent), Release) => if left == [] then Left(w, pid) else w
      case (Logging(left, percent), Crash(torn)) =>
        if left == [] then Left(w, pid) else Left(w.(log := TornAppend(w.log, left[0], percent, torn)), pid)
      case (_, Crash(_)) => Left(w, pid)
      case _ => w
  }

  datatype Turn = Turn(pid: nat, action: Action)

  const EMPTY: World := World(None, Log([], false), None, map[])

  /** Any interleaving of the actions of any number of processes. */
  function After(turns: seq<Turn>): World {
    if turns == [] then EMPTY else
      var last := turns[|turns| - 1];
      Act(After(turns[..|turns| - 1]), last.pid, last.action)
  }

  predicate Exclusive(w: World) {
    forall pid | pid in w.procs :: w.lock == Some(pid)
  }

  /** What a process is about to write still follows from the file on disk. */
  predicate UpToDate(w: World) {
    forall pid | pid in w.procs && w.procs[pid].Ready? ::
      Execute(w.procs[pid].command, w.file) == Some(w.procs[pid].next)
  }

  predicate FileGood(w: World) {
    w.file.Some? ==> Good(w.file.value)
  }

  predicate Invariant(w: World) {
    Exclusive(w) && UpToDate(w) && FileGood(w) && Numbered(w.log)
  }

  predicate FileSucceeds(v: World, w: World) {
    v.file.Some? ==> w.file.Some? && Succeeds(v.file.value, w.file.value)
  }

  lemma LeftKeeps(w: World, pid: nat)
    requires Exclusive(w) && pid in w.procs
    ensures Left(w, pid).procs == map[] && Exclusive(Left(w, pid)) && UpToDate(Left(w, pid))
  {
    forall p | p in w.procs ensures p == pid {
      assert w.lock == Some(p) && w.lock == Some(pid);
    }
  }

  lemma AtKeeps(w: World, pid: nat, phase: Phase)
    requires Exclusive(w) && w.lock == Some(pid)
    requires phase.Ready? ==> Execute(phase.command, w.file) == Some(phase.next)
    ensures Exclusive(At(w, pid, phase)) && UpToDate(At(w, pid, phase))
  {
    forall p | p in At(w, pid, phase).procs ensures p == pid {
      if p in w.procs {
        assert w.lock == Some(p);
      }
    }
  }

  lemma WriteKeeps(w: World, pid: nat)
    requires Invariant(w) && pid in w.procs && w.procs[pid].Ready?
    ensures Good(w.procs[pid].next) && (w.file.Some? ==> Succeeds(w.file.value, w.procs[pid].next))
  {
    var phase := w.procs[pid];
    ExecuteKeepsGood(phase.command, w.file);
    if w.file.Some? {
      ExecuteSucceeds(phase.command, w.file.value);
    }
  }

  lemma OnlyWritesReplace(w: World, pid: nat, action: Action)
    ensures var file := Act(w, pid, action).file;
            file == w.file || (pid in w.procs && w.procs[pid].Ready? && file == Some(w.procs[pid].next))
  {
  }

  lemma SucceedsItself(s: State)
    ensures Succeeds(s, s)
  {
  }

  lemma ActFile(w: World, pid: nat, action: Action)
    requires Invariant(w)
    ensures FileGood(Act(w, pid, action)) && FileSucceeds(w, Act(w, pid, action))
  {
    OnlyWritesReplace(w, pid, action);
    if Act(w, pid, action).file != w.file {
      WriteKeeps(w, pid);
    } else if w.file.Some? {
      SucceedsItself(w.file.value);
    }
  }

  lemma ActLog(w: World, pid: nat, action: Action)
    requires Invariant(w)
    ensures Numbered(Act(w, pid, action).log)
  {
    if pid in w.procs && w.procs[pid].Logging? && w.procs[pid].left != [] {
      var p, percent := w.procs[pid].left[0], w.procs[pid].percent;
      AppendKeepsNumbers(w.log, p, percent, if action.Crash? then action.torn else Nothing);
    }
  }

  lemma ActLock(w: World, pid: nat, action: Action)
    requires Invariant(w)
    ensures Exclusive(Act(w, pid, action)) && UpToDate(Act(w, pid, action))
  {
    if pid !in w.procs {
      if action.Begin? && w.lock.None? {
        NobodyInside(w);
        AtKeeps(w.(lock := Some(pid)), pid, Holding(action.command));
      }
    } else {
      assert w.lock == Some(pid);
      LeftKeeps(w, pid);
      var phase := w.procs[pid];
      if phase.Holding? && action.Read? && Execute(phase.command, w.file).Some? {
        AtKeeps(w, pid, Ready(phase.command, Execute(phase.command, w.file).value));
      } else if phase.Ready? && action.Write? {
        AtKeeps(w.(file := Some(phase.next)), pid, Logging(EventsFor(phase.command), phase.next.progress.percent));
      } else if phase.Logging? && action.Append? && phase.left != [] {
        AtKeeps(w.(log := Appended(w.log, phase.left[0], phase.percent)), pid, Logging(phase.left[1..], phase.percent));
      } else if phase.Logging? && action.Crash? && phase.left != [] {
        LeftKeeps(w.(log := TornAppend(w.log, phase.left[0], phase.percent, action.torn)), pid);
      }
    }
  }

  lemma NobodyInside(w: World)
    requires Exclusive(w) && w.lock.None?
    ensures w.procs == map[]
  {
    assert forall p :: p !in w.procs;
  }

  /** Every action of every process, a crash included, keeps the invariant. */
  lemma ActKeepsInvariant(w: World, pid: nat, action: Action)
    requires Invariant(w)
    ensures Invariant(Act(w, pid, action)) && FileSucceeds(w, Act(w, pid, action))
  {
    ActFile(w, pid, action);
    ActLog(w, pid, action);
    ActLock(w, pid, action);
  }

  /**
   Safety over every interleaving of locked commands, with crashes anywhere: the state file is good
   whenever it exists, one process at a time is inside a command, and readable events are numbered by
   their lines.
   */
  lemma {:induction false} RunsAreSafe(turns: seq<Turn>)
    ensures Invariant(After(turns))
  {
    if turns != [] {
      RunsAreSafe(turns[..|turns| - 1]);
      ActKeepsInvariant(After(turns[..|turns| - 1]), turns[|turns| - 1].pid, turns[|turns| - 1].action);
    }
  }

  lemma SucceedsThrough(u: World, v: World, w: World)
    requires FileSucceeds(u, v) && FileSucceeds(v, w)
    ensures FileSucceeds(u, w)
  {
  }

  /** Over every run the steps stay the same and a completed step never leaves that status. */
  lemma {:induction false} CompletedStaysCompleted(turns: seq<Turn>, k: nat)
    requires k <= |turns|
    ensures FileSucceeds(After(turns[..k]), After(turns))
  {
    if k == |turns| {
      assert turns[..k] == turns;
    } else {
      var before, last := turns[..|turns| - 1], turns[|turns| - 1];
      CompletedStaysCompleted(before, k);
      assert before[..k] == turns[..k];
      RunsAreSafe(before);
      ActKeepsInvariant(After(before), last.pid, last.action);
      SucceedsThrough(After(turns[..k]), After(before), After(turns));
    }
  }

  /** Finishing a run does not stop a running step: it stays running, and nothing names it any more. */
  lemma FinishLeavesStepRunning(s: State, id: string, status: string)
    requires Good(s) && s.active == Some(id)
    ensures var t := Execute(Finish(status), Some(s)).value;
            t.active.None? && NamesRunning(t.steps, id) && EndStep(t, id, Completed).Some?
  {
    var i :| 0 <= i < |s.steps| && s.steps[i].id == id && s.steps[i].status == Running;
    IndexIsUnique(s.steps, i);
  }

  // ---- The commands as they update the dictionary ---------------------------------------------

  class StateFile {
    var status: RunStatus
    var active: Option<string>
    var progress: Progress
    var steps: seq<StepRecord>

    function View(): State
      reads this
    {
      State(status, active, progress, steps)
    }

    constructor (ids: seq<string>)
      ensures View() == Refreshed(State(InProgress, None, Progress(0, 0, 0, 0, 0.0, None), Fresh(ids)))
    {
      status, active := InProgress, None;
      progress := Progress(0, 0, 0, 0, 0.0, None);
      steps := Fresh(ids);
      new;
      UpdateProgress();
    }

    /** `progress`, counting in one pass. */
    method UpdateProgress()
      modifies this`progress
      ensures View() == Refreshed(old(View()))
    {
      var completed, failed, skipped := 0, 0, 0;
      for i := 0 to |steps|
        invariant completed == Count(steps[..i], Completed) && failed == Count(steps[..i], Failed)
        invariant skipped == Count(steps[..i], Skipped)
      {
        assert steps[..i + 1][..i] == steps[..i];
        match steps[i].status {
          case Completed => completed := completed + 1;
          case Failed => failed := failed + 1;
          case Skipped => skipped := skipped + 1;
          case _ =>
        }
      }
      assert steps[..|steps|] == steps;
      progress := Progress(completed, failed, skipped, |steps|, Percent(completed + failed + skipped, |steps|),
                           if active.Some? then Some(0.0) else None);
    }

    method ResolveStep(id: string) returns (i: nat)
      ensures i == IndexOf(steps, id)
    {
      i := 0;
      while i < |steps| && steps[i].id != id
        invariant i <= |steps| && IndexOf(steps, id) == i + IndexOf(steps[i..], id)
      {
        assert steps[i..][1..] == steps[i + 1..];
        i := i + 1;
      }
    }

    method AnotherRuns(id: string) returns (other: bool)
      ensures other == OtherRunning(steps, id)
    {
      for i := 0 to |steps|
        invariant forall j | 0 <= j < i :: !(steps[j].status == Running && steps[j].id != id)
      {
        if steps[i].status == Running && steps[i].id != id {
          return true;
        }
      }
      return false;
    }

    /** `command_step` with the action `start`. */
    method StartCommand(id: string) returns (ok: bool)
      modifies this
      ensures ok == StartStep(old(View()), id).Some?
      ensures View() == if ok then StartStep(old(View()), id).value else old(View())
    {
      var i := ResolveStep(id);
      if i == |steps| || steps[i].status == Completed || steps[i].status == Skipped {
        return false;
      }
      var other := AnotherRuns(id);
      if other {
        return false;
      }
      steps := steps[i := steps[i].(status := Running)];
      status, active := InProgress, Some(id);
      UpdateProgress();
      return true;
    }

    /** `command_step` with the actions `complete` and `fail`. */
    method EndCommand(id: string, outcome: StepStatus) returns (ok: bool)
      modifies this
      ensures ok == EndStep(old(View()), id, outcome).Some?
      ensures View() == if ok then EndStep(old(View()), id, outcome).value else old(View())
    {
      var i := ResolveStep(id);
      if i == |steps| || steps[i].status != Running {
        return false;
      }
      steps := steps[i := steps[i].(status := outcome)];
      active := None;
      UpdateProgress();
      return true;
    }

    /** `command_finish`. */
    method FinishCommand(outcome: string)
      modifies this
      ensures Execute(Finish(outcome), Some(old(View()))) == Some(View())
    {
      status, active := Ended(outcome), None;
      UpdateProgress();
    }
  }
}
