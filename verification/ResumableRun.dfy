/**
 The crash-safe runner of one combination: an append-only prediction log and an atomically replaced
 checkpoint cursor. The process can die after any prefix of an append and between any two steps.
 */
module ResumableRun {
  import opened Wrappers
  import opened JsonLines

  datatype Task = Task(symbol: string, origin: int, window: Option<string>)

  datatype Key = Key(symbol: string, origin: int)

  datatype Record = Record(symbol: string, origin: int, horizon: int, payload: string)

  datatype Plan = Plan(id: string, tasks: seq<Task>)

  /** SHA-256 over the joined task keys is taken to be injective, so the digest is the keys. */
  datatype Checkpoint =
    | Cursor(id: string, completed: int, lastKey: Option<Key>, digest: seq<Key>)
    | Legacy(id: string, completedKeys: set<Key>)

  datatype Disk = Disk(log: string, checkpoint: Option<Checkpoint>, summary: Option<seq<Record>>)

  const HORIZONS: seq<int> := [5, 15, 30, 60]

  function TaskKey(t: Task): Key {
    Key(t.symbol, t.origin)
  }

  function RecordKey(r: Record): Key {
    Key(r.symbol, r.origin)
  }

  function Keys(tasks: seq<Task>): (ks: seq<Key>)
    ensures |ks| == |tasks| && forall i | 0 <= i < |tasks| :: ks[i] == TaskKey(tasks[i])
  {
    seq(|tasks|, i requires 0 <= i < |tasks| => TaskKey(tasks[i]))
  }

  // ---- Checkpoints -------------------------------------------------------------------------

  function WriteCheckpoint(plan: Plan, completed: nat): Checkpoint
    requires completed <= |plan.tasks|
  {
    Cursor(plan.id,
           completed,
           if completed > 0 then Some(TaskKey(plan.tasks[completed - 1])) else None,
           Keys(plan.tasks[..completed]))
  }

  /** How many leading tasks have a key in `keys`. */
  function LegacyCount(tasks: seq<Task>, keys: set<Key>): (n: nat)
    ensures n <= |tasks|
    ensures forall i | 0 <= i < n :: TaskKey(tasks[i]) in keys
    ensures n < |tasks| ==> TaskKey(tasks[n]) !in keys
  {
    if tasks == [] || TaskKey(tasks[0]) !in keys then 0 else 1 + LegacyCount(tasks[1..], keys)
  }

  ghost predicate KeysOf(keys: set<Key>, tasks: seq<Task>) {
    && (forall i | 0 <= i < |tasks| :: TaskKey(tasks[i]) in keys)
    && (forall k | k in keys :: exists i :: 0 <= i < |tasks| && TaskKey(tasks[i]) == k)
  }

  /** The cursor of a checkpoint file that the plan accepts; `None` when the run rejects it. */
  function CompletedCount(plan: Plan, checkpoint: Option<Checkpoint>): (n: Option<nat>)
    ensures n.Some? ==> n.value <= |plan.tasks|
  {
    match checkpoint
    case None => Some(0)
    case Some(Cursor(id, completed, lastKey, digest)) =>
      if id != plan.id || !(0 <= completed <= |plan.tasks|) || digest != Keys(plan.tasks[..completed]) then None
      else if lastKey != (if completed > 0 then Some(TaskKey(plan.tasks[completed - 1])) else None) then None
      else Some(completed)
    case Some(Legacy(id, keys)) =>
      if id != plan.id then None
      else
        var n := LegacyCount(plan.tasks, keys);
        var unexpected := keys - set k | k in Keys(plan.tasks[..n]);
        if unexpected != {} then None else Some(n)
  }

  /** The `while` loop that turns a v1 checkpoint into a cursor. */
  method LegacyCompletedCount(tasks: seq<Task>, keys: set<Key>) returns (n: nat)
    ensures n == LegacyCount(tasks, keys)
  {
    n := 0;
    assert tasks[0..] == tasks;
    while n < |tasks| && TaskKey(tasks[n]) in keys
      invariant n <= |tasks|
      invariant LegacyCount(tasks, keys) == n + LegacyCount(tasks[n..], keys)
    {
      assert tasks[n..][1..] == tasks[n + 1..];
      n := n + 1;
    }
  }

  /** A checkpoint is accepted exactly by the plans that share its id and its completed prefix. */
  lemma CheckpointAcceptedIff(writer: Plan, completed: nat, plan: Plan)
    requires completed <= |writer.tasks|
    ensures CompletedCount(plan, Some(WriteCheckpoint(writer, completed))) ==
            if writer.id == plan.id && completed <= |plan.tasks|
               && Keys(writer.tasks[..completed]) == Keys(plan.tasks[..completed])
            then Some(completed) else None
  {
    if completed <= |plan.tasks| && completed > 0 && Keys(writer.tasks[..completed]) == Keys(plan.tasks[..completed]) {
      assert Keys(plan.tasks[..completed])[completed - 1] == TaskKey(plan.tasks[completed - 1]);
      assert Keys(writer.tasks[..completed])[completed - 1] == TaskKey(writer.tasks[completed - 1]);
    }
  }

  lemma LegacyAcceptedIsPrefix(plan: Plan, keys: set<Key>)
    requires CompletedCount(plan, Some(Legacy(plan.id, keys))).Some?
    ensures KeysOf(keys, plan.tasks[..LegacyCount(plan.tasks, keys)])
  {
    var g := LegacyCount(plan.tasks, keys);
    var prefix := Keys(plan.tasks[..g]);
    var known := set q | q in prefix;
    assert forall k | k in keys :: k !in known ==> k in keys - known;
    forall k | k in keys
      ensures exists i :: 0 <= i < |plan.tasks[..g]| && TaskKey(plan.tasks[..g][i]) == k
    {
      assert k in prefix;
      var i :| 0 <= i < |prefix| && prefix[i] == k;
      assert TaskKey(plan.tasks[..g][i]) == k;
    }
  }

  lemma LegacyPrefixAccepted(plan: Plan, keys: set<Key>, n: nat)
    requires n <= |plan.tasks| && KeysOf(keys, plan.tasks[..n])
    ensures CompletedCount(plan, Some(Legacy(plan.id, keys))).Some?
  {
    var g := LegacyCount(plan.tasks, keys);
    var prefix := Keys(plan.tasks[..g]);
    assert forall i | 0 <= i < n :: plan.tasks[i] == plan.tasks[..n][i];
    assert n <= g;
    forall k | k in keys
      ensures k in prefix
    {
      var i :| 0 <= i < n && TaskKey(plan.tasks[..n][i]) == k;
      assert prefix[i] == k;
    }
  }

  /** A v1 checkpoint is accepted if and only if its keys are those of some prefix of the plan. */
  lemma LegacyAcceptedIff(plan: Plan, keys: set<Key>)
    ensures CompletedCount(plan, Some(Legacy(plan.id, keys))).Some?
            <==> exists n :: 0 <= n <= |plan.tasks| && KeysOf(keys, plan.tasks[..n])
  {
    if CompletedCount(plan, Some(Legacy(plan.id, keys))).Some? {
      LegacyAcceptedIsPrefix(plan, keys);
    }
    if n :| 0 <= n <= |plan.tasks| && KeysOf(keys, plan.tasks[..n]) {
      LegacyPrefixAccepted(plan, keys, n);
    }
  }

  // ---- The prediction log against the plan --------------------------------------------------

  /** Record `i` of the log belongs to task `i / 4` and carries horizon `i % 4`. */
  predicate InPlan(tasks: seq<Task>, r: Record, i: nat) {
    i / 4 < |tasks| && RecordKey(r) == TaskKey(tasks[i / 4]) && r.horizon == HORIZONS[i % 4]
  }

  /** The records are the plan's first record groups, in order and once each; the last may be partial. */
  predicate Aligned(tasks: seq<Task>, rs: seq<Record>) {
    forall i: nat | i < |rs| :: InPlan(tasks, rs[i], i)
  }

  predicate WholePlan(tasks: seq<Task>, rs: seq<Record>) {
    |rs| == 4 * |tasks| && Aligned(tasks, rs)
  }

  /** How many whole tasks the records cover; `None` when the run rejects them. */
  function RecordCount(tasks: seq<Task>, rs: seq<Record>): Option<nat> {
    if |rs| % 4 == 0 && |rs| / 4 <= |tasks| && Aligned(tasks, rs) then Some(|rs| / 4) else None
  }

  /** The two tests of one record group: its set of task keys and its tuple of horizons. */
  predicate GroupMatches(group: seq<Record>, expected: Key)
    requires |group| == 4
  {
    && (set r | r in group :: RecordKey(r)) == {expected}
    && [group[0].horizon, group[1].horizon, group[2].horizon, group[3].horizon] == HORIZONS
  }

  lemma GroupMatchesIff(group: seq<Record>, expected: Key)
    requires |group| == 4
    ensures GroupMatches(group, expected)
            <==> forall k | 0 <= k < 4 :: RecordKey(group[k]) == expected && group[k].horizon == HORIZONS[k]
  {
    var keys := set r | r in group :: RecordKey(r);
    assert forall k | 0 <= k < 4 :: RecordKey(group[k]) in keys;
    if forall k | 0 <= k < 4 :: RecordKey(group[k]) == expected {
      assert group[0] in group;
      assert keys == {expected};
    }
  }

  lemma GroupAligned(tasks: seq<Task>, rs: seq<Record>, index: nat)
    requires index < |tasks| && 4 * index + 4 <= |rs|
    requires GroupMatches(rs[4 * index..4 * index + 4], TaskKey(tasks[index]))
    ensures forall i: nat | 4 * index <= i < 4 * index + 4 :: InPlan(tasks, rs[i], i)
  {
    var group := rs[4 * index..4 * index + 4];
    GroupMatchesIff(group, TaskKey(tasks[index]));
    forall i: nat | 4 * index <= i < 4 * index + 4
      ensures InPlan(tasks, rs[i], i)
    {
      assert rs[i] == group[i - 4 * index];
    }
  }

  lemma GroupMisaligned(tasks: seq<Task>, rs: seq<Record>, index: nat)
    requires index < |tasks| && 4 * index + 4 <= |rs|
    requires !GroupMatches(rs[4 * index..4 * index + 4], TaskKey(tasks[index]))
    ensures !Aligned(tasks, rs)
  {
    var group := rs[4 * index..4 * index + 4];
    GroupMatchesIff(group, TaskKey(tasks[index]));
    var k :| 0 <= k < 4 && !(RecordKey(group[k]) == TaskKey(tasks[index]) && group[k].horizon == HORIZONS[k]);
    assert !InPlan(tasks, rs[4 * index + k], 4 * index + k);
  }

  /** The group-by-group validation loop over records read back from disk. */
  method CompletedTaskCountFromRecords(tasks: seq<Task>, rs: seq<Record>) returns (count: Option<nat>)
    ensures count == RecordCount(tasks, rs)
  {
    if |rs| % |HORIZONS| != 0 || |rs| / |HORIZONS| > |tasks| {
      return None;
    }
    var completed := |rs| / 4;
    for index := 0 to completed
      invariant forall i: nat | i < 4 * index :: InPlan(tasks, rs[i], i)
    {
      if !GroupMatches(rs[4 * index..4 * index + 4], TaskKey(tasks[index])) {
        GroupMisaligned(tasks, rs, index);
        return None;
      }
      GroupAligned(tasks, rs, index);
    }
    return Some(completed);
  }

  // ---- Restart -----------------------------------------------------------------------------

  datatype Resumed =
    | Rejected
    | AlreadyComplete(summary: seq<Record>)
    | Ready(completed: nat, records: seq<Record>)

  function Resume(c: Codec<Record>, plan: Plan, disk: Disk): Resumed {
    match CompletedCount(plan, disk.checkpoint)
    case None => Rejected
    case Some(cursor) =>
      if cursor == |plan.tasks| && disk.summary.Some? then AlreadyComplete(disk.summary.value)
      else match Read(c, disk.log)
        case None => Rejected
        case Some(records) =>
          match RecordCount(plan.tasks, records)
          case None => Rejected
          case Some(n) => if n < cursor then Rejected else Ready(n, records)
  }

  lemma ResumeBound(c: Codec<Record>, plan: Plan, disk: Disk)
    ensures Resume(c, plan, disk).Ready? ==> Resume(c, plan, disk).completed <= |plan.tasks|
  {
  }

  /** The cursor is replaced on restart only when the log is ahead of it. */
  function Advanced(plan: Plan, checkpoint: Option<Checkpoint>, completed: nat): Option<Checkpoint>
    requires completed <= |plan.tasks|
  {
    if CompletedCount(plan, checkpoint) == Some(completed) then checkpoint else Some(WriteCheckpoint(plan, completed))
  }

  // ---- The transition system ---------------------------------------------------------------

  datatype Process =
    | Idle
    | Running(completed: nat, records: seq<Record>)
    | Appended(completed: nat, records: seq<Record>)

  datatype System = System(disk: Disk, process: Process)

  datatype Step =
    | Start
    | Append(produced: seq<Record>)
    | TornAppend(produced: seq<Record>, written: string)
    | WriteCursor
    | Finish
    | Die

  /** A non-empty batch of whole record groups for the tasks after the first `completed`. */
  predicate Produces(tasks: seq<Task>, completed: nat, produced: seq<Record>) {
    && produced != [] && |produced| % 4 == 0 && 4 * completed + |produced| <= 4 * |tasks|
    && forall i: nat | i < |produced| :: InPlan(tasks, produced[i], 4 * completed + i)
  }

  ghost predicate NextStep(c: Codec<Record>, plan: Plan, s: System, t: System, step: Step) {
    match step
    case Start =>
      s.process.Idle? &&
      (match Resume(c, plan, s.disk)
       case Ready(n, rs) =>
         n <= |plan.tasks| && t == System(s.disk.(checkpoint := Advanced(plan, s.disk.checkpoint, n)), Running(n, rs))
       case _ => t == s)
    case Append(produced) =>
      s.process.Running? && Produces(plan.tasks, s.process.completed, produced) &&
      t == System(s.disk.(log := s.disk.log + Log(c, produced)),
                  Appended(s.process.completed + |produced| / 4, s.process.records + produced))
    case TornAppend(produced, written) =>
      s.process.Running? && Produces(plan.tasks, s.process.completed, produced) && written <= Log(c, produced) &&
      t == System(s.disk.(log := s.disk.log + written), Idle)
    case WriteCursor =>
      s.process.Appended? && s.process.completed <= |plan.tasks| &&
      t == System(s.disk.(checkpoint := Some(WriteCheckpoint(plan, s.process.completed))),
                  Running(s.process.completed, s.process.records))
    case Finish =>
      s.process.Running? && s.process.completed == |plan.tasks| &&
      t == System(s.disk.(summary := Some(s.process.records)), Idle)
    case Die =>
      t == s.(process := Idle)
  }

  ghost predicate Next(c: Codec<Record>, plan: Plan, s: System, t: System) {
    exists step :: NextStep(c, plan, s, t, step)
  }

  ghost function Transition(c: Codec<Record>, plan: Plan): (System, System) -> bool {
    (s, t) => Next(c, plan, s, t)
  }

  ghost predicate Chain(next: (System, System) -> bool, trace: seq<System>) {
    trace != [] && (|trace| == 1 || (Chain(next, trace[..|trace| - 1]) && next(trace[|trace| - 2], trace[|trace| - 1])))
  }

  ghost predicate Run(c: Codec<Record>, plan: Plan, trace: seq<System>) {
    Chain(Transition(c, plan), trace)
  }

  ghost predicate Linked(next: (System, System) -> bool, s: System, t: System, steps: nat)
    decreases steps
  {
    if steps == 0 then s == t
    else exists m :: Linked(next, s, m, steps - 1) && next(m, t)
  }

  ghost predicate Connected(next: (System, System) -> bool, s: System, t: System) {
    exists steps: nat :: Linked(next, s, t, steps)
  }

  /** Some run leads from one state to the other. */
  ghost predicate Reaches(c: Codec<Record>, plan: Plan, s: System, t: System) {
    Connected(Transition(c, plan), s, t)
  }

  lemma {:induction false} ChainStep(next: (System, System) -> bool, trace: seq<System>, i: nat)
    requires Chain(next, trace) && 0 < i < |trace|
    ensures next(trace[i - 1], trace[i])
    decreases |trace|
  {
    if i + 1 < |trace| {
      ChainStep(next, trace[..|trace| - 1], i);
    }
  }

  lemma RunStep(c: Codec<Record>, plan: Plan, trace: seq<System>, i: nat)
    requires Run(c, plan, trace) && 0 < i < |trace|
    ensures Next(c, plan, trace[i - 1], trace[i])
  {
    ChainStep(Transition(c, plan), trace, i);
  }

  lemma ReachesSelf(c: Codec<Record>, plan: Plan, s: System)
    ensures Reaches(c, plan, s, s)
  {
    assert Linked(Transition(c, plan), s, s, 0);
  }

  lemma ConnectedStep(next: (System, System) -> bool, s: System, t: System, u: System)
    requires Connected(next, s, t) && next(t, u)
    ensures Connected(next, s, u)
  {
    var steps: nat :| Linked(next, s, t, steps);
    assert Linked(next, s, u, steps + 1);
  }

  lemma ReachesStep(c: Codec<Record>, plan: Plan, s: System, t: System, u: System, step: Step)
    requires Reaches(c, plan, s, t) && NextStep(c, plan, t, u, step)
    ensures Reaches(c, plan, s, u)
  {
    assert Next(c, plan, t, u);
    ConnectedStep(Transition(c, plan), s, t, u);
  }

  lemma {:induction false} LinkedChain(next: (System, System) -> bool, s: System, t: System, steps: nat)
    returns (trace: seq<System>)
    requires Linked(next, s, t, steps)
    ensures Chain(next, trace) && trace[0] == s && trace[|trace| - 1] == t
    decreases steps
  {
    if steps == 0 {
      trace := [s];
    } else {
      var m :| Linked(next, s, m, steps - 1) && next(m, t);
      var shorter := LinkedChain(next, s, m, steps - 1);
      trace := shorter + [t];
      assert trace[..|trace| - 1] == shorter;
    }
  }

  /** Reachability is the existence of a run. */
  lemma ReachesRun(c: Codec<Record>, plan: Plan, s: System, t: System) returns (trace: seq<System>)
    requires Reaches(c, plan, s, t)
    ensures Run(c, plan, trace) && trace[0] == s && trace[|trace| - 1] == t
  {
    var next := Transition(c, plan);
    var steps: nat :| Linked(next, s, t, steps);
    trace := LinkedChain(next, s, t, steps);
  }

  // ---- The invariant -----------------------------------------------------------------------

  /** Lines `rs` in plan order, at least as many as the cursor says, then perhaps a torn tail. */
  ghost predicate Durable(c: Codec<Record>, plan: Plan, disk: Disk, rs: seq<Record>, ps: seq<string>) {
    && Torn(c, disk.log, rs, ps) && Aligned(plan.tasks, rs)
    && CompletedCount(plan, disk.checkpoint).Some? && 4 * CompletedCount(plan, disk.checkpoint).value <= |rs|
  }

  ghost predicate DiskInv(c: Codec<Record>, plan: Plan, disk: Disk) {
    && CompletedCount(plan, disk.checkpoint).Some?
    && (disk.summary.Some? ==> WholePlan(plan.tasks, disk.summary.value))
    && (Poisoned(c, disk.log) || exists rs, ps :: Durable(c, plan, disk, rs, ps))
  }

  /** What a live process holds in memory: a whole number of groups, the ones on disk if it is readable. */
  ghost predicate MemoryInv(c: Codec<Record>, plan: Plan, disk: Disk, completed: nat, records: seq<Record>) {
    && |records| == 4 * completed && Aligned(plan.tasks, records)
    && CompletedCount(plan, disk.checkpoint).Some? && CompletedCount(plan, disk.checkpoint).value <= completed
    && (Poisoned(c, disk.log) || exists ps :: Torn(c, disk.log, records, ps))
  }

  ghost predicate Inv(c: Codec<Record>, plan: Plan, s: System) {
    && DiskInv(c, plan, s.disk)
    && (!s.process.Idle? ==> MemoryInv(c, plan, s.disk, s.process.completed, s.process.records))
  }

  const EMPTY: System := System(Disk("", None, None), Idle)

  lemma EmptyInv(c: Codec<Record>, plan: Plan)
    ensures Inv(c, plan, EMPTY)
  {
    assert Durable(c, plan, EMPTY.disk, [], []);
  }

  lemma AlignedLength(tasks: seq<Task>, rs: seq<Record>)
    requires Aligned(tasks, rs)
    ensures |rs| <= 4 * |tasks|
  {
    if rs != [] {
      assert InPlan(tasks, rs[|rs| - 1], |rs| - 1);
    }
  }

  lemma AlignedAppend(tasks: seq<Task>, rs: seq<Record>, completed: nat, produced: seq<Record>, j: nat)
    requires Aligned(tasks, rs) && |rs| == 4 * completed && Produces(tasks, completed, produced) && j <= |produced|
    ensures Aligned(tasks, rs + produced[..j])
  {
    forall i: nat | i < |rs| + j
      ensures InPlan(tasks, (rs + produced[..j])[i], i)
    {
      if i >= |rs| {
        assert InPlan(tasks, produced[i - |rs|], 4 * completed + (i - |rs|));
      }
    }
  }

  /** What a restart makes of a log that is not poisoned: it reads all of its whole lines, or rejects. */
  lemma ResumeTorn(c: Codec<Record>, plan: Plan, disk: Disk, rs: seq<Record>, ps: seq<string>)
    requires DiskInv(c, plan, disk) && Durable(c, plan, disk, rs, ps) && Read(c, disk.log) == Some(rs)
    ensures var r := Resume(c, plan, disk); match r
      case Ready(n, records) => MemoryInv(c, plan, disk, n, records) && records == rs && n <= |plan.tasks|
      case AlreadyComplete(summary) => WholePlan(plan.tasks, summary)
      case Rejected => |rs| % 4 != 0
  {
    AlignedLength(plan.tasks, rs);
  }

  lemma ResumeUnreadable(c: Codec<Record>, plan: Plan, disk: Disk)
    requires DiskInv(c, plan, disk) && Read(c, disk.log) == None
    ensures var r := Resume(c, plan, disk);
            r.Rejected? || (r.AlreadyComplete? && WholePlan(plan.tasks, r.summary))
  {
  }

  lemma ResumeCases(c: Codec<Record>, plan: Plan, disk: Disk)
    requires Faithful(c) && DiskInv(c, plan, disk)
    ensures var r := Resume(c, plan, disk); match r
      case Ready(n, rs) =>
        MemoryInv(c, plan, disk, n, rs) && Read(c, disk.log) == Some(rs) && n <= |plan.tasks|
      case AlreadyComplete(summary) => WholePlan(plan.tasks, summary)
      case Rejected =>
        Read(c, disk.log) == None || (Read(c, disk.log).Some? && |Read(c, disk.log).value| % 4 != 0)
  {
    if Read(c, disk.log) == None {
      ResumeUnreadable(c, plan, disk);
    } else if Poisoned(c, disk.log) {
      ReadPoisoned(c, disk.log, "");
    } else {
      var rs, ps :| Durable(c, plan, disk, rs, ps);
      ReadableTorn(c, disk.log, rs, ps);
      ResumeTorn(c, plan, disk, rs, ps);
    }
  }

  lemma WrittenCursor(plan: Plan, n: nat)
    requires n <= |plan.tasks|
    ensures CompletedCount(plan, Some(WriteCheckpoint(plan, n))) == Some(n)
  {
  }

  lemma StartKeepsInv(c: Codec<Record>, plan: Plan, s: System, t: System)
    requires Faithful(c) && Inv(c, plan, s) && NextStep(c, plan, s, t, Start)
    ensures Inv(c, plan, t)
  {
    ResumeCases(c, plan, s.disk);
    match Resume(c, plan, s.disk)
    case Ready(n, rs) =>
      WrittenCursor(plan, n);
      if !Poisoned(c, t.disk.log) {
        var ps :| Torn(c, s.disk.log, rs, ps);
        assert Torn(c, t.disk.log, rs, ps);
        assert Durable(c, plan, t.disk, rs, ps);
      }
    case _ =>
  }

  /** Behind a log of whole lines. */
  lemma CleanAppendKeepsDisk(c: Codec<Record>, plan: Plan, s: System, produced: seq<Record>, w: string)
    requires Faithful(c) && Inv(c, plan, s) && s.process.Running? && s.disk.log == Log(c, s.process.records)
    requires Produces(plan.tasks, s.process.completed, produced) && w <= Log(c, produced)
    ensures DiskInv(c, plan, s.disk.(log := s.disk.log + w))
    ensures w == Log(c, produced) ==> exists ps :: Torn(c, s.disk.log + w, s.process.records + produced, ps)
  {
    var rs := s.process.records;
    var j, qs := AppendClean(c, rs, produced, w);
    AlignedAppend(plan.tasks, rs, s.process.completed, produced, j);
    assert Durable(c, plan, s.disk.(log := s.disk.log + w), rs + produced[..j], qs);
    assert produced[..|produced|] == produced;
  }

  /** Behind a torn tail. */
  lemma TornAppendKeepsDisk(c: Codec<Record>, plan: Plan, s: System, ps: seq<string>, produced: seq<Record>, w: string)
    requires Faithful(c) && Inv(c, plan, s) && s.process.Running? && Torn(c, s.disk.log, s.process.records, ps)
    requires Produces(plan.tasks, s.process.completed, produced) && w <= Log(c, produced) && ps != []
    ensures DiskInv(c, plan, s.disk.(log := s.disk.log + w))
    ensures w == Log(c, produced) ==> Poisoned(c, s.disk.log + w)
  {
    var rs, disk := s.process.records, s.disk.(log := s.disk.log + w);
    AppendBehindTear(c, s.disk.log, rs, ps, produced, w);
    if !Poisoned(c, disk.log) {
      var qs :| Torn(c, disk.log, rs, qs);
      assert Durable(c, plan, disk, rs, qs);
    }
  }

  /** Any prefix of an append, whole or torn. */
  lemma AppendKeepsDisk(c: Codec<Record>, plan: Plan, s: System, produced: seq<Record>, w: string)
    requires Faithful(c) && Inv(c, plan, s) && s.process.Running?
    requires Produces(plan.tasks, s.process.completed, produced) && w <= Log(c, produced)
    ensures DiskInv(c, plan, s.disk.(log := s.disk.log + w))
    ensures var log := s.disk.log + w;
            w == Log(c, produced) ==>
              Poisoned(c, log) || exists ps :: Torn(c, log, s.process.records + produced, ps)
  {
    if Poisoned(c, s.disk.log) {
      ReadPoisoned(c, s.disk.log, w);
    } else {
      var ps :| Torn(c, s.disk.log, s.process.records, ps);
      if ps == [] {
        CleanAppendKeepsDisk(c, plan, s, produced, w);
      } else {
        TornAppendKeepsDisk(c, plan, s, ps, produced, w);
      }
    }
  }

  lemma CursorKeepsInv(c: Codec<Record>, plan: Plan, s: System, t: System)
    requires Inv(c, plan, s) && NextStep(c, plan, s, t, WriteCursor)
    ensures Inv(c, plan, t)
  {
    var rs, n := s.process.records, s.process.completed;
    WrittenCursor(plan, n);
    if !Poisoned(c, s.disk.log) {
      var ps :| Torn(c, s.disk.log, rs, ps);
      assert Torn(c, t.disk.log, rs, ps);
      assert Durable(c, plan, t.disk, rs, ps);
    }
  }

  lemma FinishKeepsInv(c: Codec<Record>, plan: Plan, s: System, t: System)
    requires Inv(c, plan, s) && NextStep(c, plan, s, t, Finish)
    ensures Inv(c, plan, t)
  {
    if !Poisoned(c, s.disk.log) {
      var rs, ps :| Durable(c, plan, s.disk, rs, ps);
      assert Durable(c, plan, t.disk, rs, ps);
    }
  }

  lemma ExtendsTransitive<R>(a: seq<R>, b: seq<R>, d: seq<R>)
    ensures Extends(a, b) && Extends(b, d) ==> Extends(a, d)
  {
    if Extends(a, b) && Extends(b, d) {
      assert d[..|b|][..|a|] == d[..|a|];
    }
  }

  ghost predicate LogGrows(c: Codec<Record>, s: System, t: System) {
    Grows(Read(c, s.disk.log), Read(c, t.disk.log))
  }

  lemma GrowsTransitive(a: Option<seq<Record>>, b: Option<seq<Record>>, d: Option<seq<Record>>)
    ensures Grows(a, b) && Grows(b, d) ==> Grows(a, d)
  {
    if a.Some? && b.Some? && d.Some? {
      ExtendsTransitive(a.value, b.value, d.value);
    }
  }

  lemma StepKeepsInv(c: Codec<Record>, plan: Plan, s: System, t: System)
    requires Faithful(c) && Inv(c, plan, s) && Next(c, plan, s, t)
    ensures Inv(c, plan, t)
  {
    var step :| NextStep(c, plan, s, t, step);
    match step
    case Start => StartKeepsInv(c, plan, s, t);
    case Append(produced) =>
      AppendKeepsDisk(c, plan, s, produced, Log(c, produced));
      AlignedAppend(plan.tasks, s.process.records, s.process.completed, produced, |produced|);
      assert produced[..|produced|] == produced;
    case TornAppend(produced, w) => AppendKeepsDisk(c, plan, s, produced, w);
    case WriteCursor => CursorKeepsInv(c, plan, s, t);
    case Finish => FinishKeepsInv(c, plan, s, t);
    case Die =>
  }

  lemma {:induction false} ChainKeeps(next: (System, System) -> bool, inv: System -> bool, trace: seq<System>, i: nat)
    requires Chain(next, trace) && inv(trace[0]) && i < |trace|
    requires forall s, t | inv(s) && next(s, t) :: inv(t)
    ensures inv(trace[i])
  {
    if i > 0 {
      ChainKeeps(next, inv, trace, i - 1);
      ChainStep(next, trace, i);
    }
  }

  ghost function Invariant(c: Codec<Record>, plan: Plan): System -> bool {
    s => Inv(c, plan, s)
  }

  lemma StepsKeepInv(c: Codec<Record>, plan: Plan)
    requires Faithful(c)
    ensures forall s, t | Invariant(c, plan)(s) && Transition(c, plan)(s, t) :: Invariant(c, plan)(t)
  {
    forall s, t | Invariant(c, plan)(s) && Transition(c, plan)(s, t)
      ensures Invariant(c, plan)(t)
    {
      StepKeepsInv(c, plan, s, t);
    }
  }

  lemma RunFromEmptyInv(c: Codec<Record>, plan: Plan, trace: seq<System>, i: nat)
    requires Faithful(c) && Run(c, plan, trace) && trace[0] == EMPTY && i < |trace|
    ensures Inv(c, plan, trace[i])
  {
    EmptyInv(c, plan);
    StepsKeepInv(c, plan);
    ChainKeeps(Transition(c, plan), Invariant(c, plan), trace, i);
  }

  // ---- Safety over every run ---------------------------------------------------------------

  /** The text holds a character, other than a line feed, at which Python ends a line. */
  predicate FurtherSeparator(s: string) {
    exists i :: 0 <= i < |s| && IsBreak(s[i]) && s[i] != '\n'
  }

  lemma SeparatorIn(a: string, line: string, b: string)
    requires !OneLine(line) && '\n' !in line
    ensures FurtherSeparator(a + line + b)
  {
    var i :| 0 <= i < |line| && IsBreak(line[i]);
    assert (a + line + b)[|a| + i] == line[i];
  }

  /** A torn log is rejected only for a further separator in it. */
  lemma TornUnreadable(c: Codec<Record>, log: string, rs: seq<Record>, ps: seq<string>)
    requires Faithful(c) && Torn(c, log, rs, ps) && Read(c, log) == None
    ensures FurtherSeparator(log)
  {
    ReadTorn(c, log, rs, ps);
    CatText(c, ps);
    if AllOneLine(c, rs) {
      assert IsBreak(Cat(ps)[First(IsBreak, Cat(ps))]);
      SeparatorIn(Log(c, rs), Cat(ps), "");
      assert Log(c, rs) + Cat(ps) + "" == log;
    } else {
      var k :| 0 <= k < |rs| && !OneLine(c.encode(rs[k]));
      LineText(c, rs[k]);
      LogAround(c, rs, k);
      SeparatorIn(Log(c, rs[..k]), c.encode(rs[k]), "\n" + Log(c, rs[k + 1..]) + Cat(ps));
      Regroup(Log(c, rs[..k]), c.encode(rs[k]), "\n" + Log(c, rs[k + 1..]), Cat(ps));
    }
  }

  lemma LogAround(c: Codec<Record>, rs: seq<Record>, k: nat)
    requires k < |rs|
    ensures Log(c, rs) == Log(c, rs[..k]) + c.encode(rs[k]) + ("\n" + Log(c, rs[k + 1..]))
  {
    LogAppend(c, rs[..k], rs[k..]);
    assert rs[..k] + rs[k..] == rs && rs[k..][1..] == rs[k + 1..];
  }

  lemma Regroup(a: string, b: string, d: string, e: string)
    ensures (a + b + d) + e == a + b + (d + e)
  {
  }

  /**
   Wherever a run from an empty directory stops, a restart skips a finished plan, or resumes behind
   exactly the plan's first record groups and never behind its cursor, or rejects; it rejects only
   an unreadable log, which is poisoned or holds a further separator, or one that ends inside a record group.
   */
  lemma RecoveryIsExactPrefixOrRejection(c: Codec<Record>, plan: Plan, trace: seq<System>, i: nat)
    requires Faithful(c) && Run(c, plan, trace) && trace[0] == EMPTY && i < |trace|
    ensures var disk := trace[i].disk; match Resume(c, plan, disk)
      case Ready(n, rs) =>
        && |rs| == 4 * n && n <= |plan.tasks| && Aligned(plan.tasks, rs) && Read(c, disk.log) == Some(rs)
        && CompletedCount(plan, disk.checkpoint).Some? && CompletedCount(plan, disk.checkpoint).value <= n
      case AlreadyComplete(summary) => WholePlan(plan.tasks, summary)
      case Rejected =>
        match Read(c, disk.log)
        case None => Poisoned(c, disk.log) || FurtherSeparator(disk.log)
        case Some(rs) => Aligned(plan.tasks, rs) && |rs| % 4 != 0
  {
    RunFromEmptyInv(c, plan, trace, i);
    var disk := trace[i].disk;
    ResumeCases(c, plan, disk);
    if !Poisoned(c, disk.log) {
      var rs, ps :| Durable(c, plan, disk, rs, ps);
      if Read(c, disk.log).Some? {
        ReadableTorn(c, disk.log, rs, ps);
      } else {
        TornUnreadable(c, disk.log, rs, ps);
      }
    } else {
      ReadPoisoned(c, disk.log, "");
    }
  }

  lemma FinishOutcome(c: Codec<Record>, plan: Plan, s: System, t: System)
    requires Faithful(c) && Inv(c, plan, s) && NextStep(c, plan, s, t, Finish)
    ensures t.disk.summary.Some? && WholePlan(plan.tasks, t.disk.summary.value)
    ensures Read(c, t.disk.log) == None || Read(c, t.disk.log) == t.disk.summary
  {
    if Poisoned(c, s.disk.log) {
      ReadPoisoned(c, s.disk.log, "");
    } else {
      var ps :| Torn(c, s.disk.log, s.process.records, ps);
      ReadTorn(c, s.disk.log, s.process.records, ps);
    }
  }

  /** A run that finishes holds the whole plan exactly once, and so does the log it leaves if it is readable. */
  lemma FinishedRunHoldsWholePlan(c: Codec<Record>, plan: Plan, trace: seq<System>, i: nat)
    requires Faithful(c) && Run(c, plan, trace) && trace[0] == EMPTY && i + 1 < |trace|
    requires NextStep(c, plan, trace[i], trace[i + 1], Finish)
    ensures var disk := trace[i + 1].disk;
            && disk.summary.Some? && WholePlan(plan.tasks, disk.summary.value)
            && (Read(c, disk.log) == None || Read(c, disk.log) == disk.summary)
  {
    RunFromEmptyInv(c, plan, trace, i);
    FinishOutcome(c, plan, trace[i], trace[i + 1]);
  }

  /** What a reader of the log sees along a run. */
  ghost function Reads(c: Codec<Record>, trace: seq<System>): (views: seq<Option<seq<Record>>>)
    ensures |views| == |trace| && forall k | 0 <= k < |trace| :: views[k] == Read(c, trace[k].disk.log)
  {
    seq(|trace|, k requires 0 <= k < |trace| => Read(c, trace[k].disk.log))
  }

  lemma {:induction false} GrowsAlong(views: seq<Option<seq<Record>>>, i: nat, j: nat)
    requires i <= j < |views| && forall k | 0 < k < |views| :: Grows(views[k - 1], views[k])
    ensures Grows(views[i], views[j])
    decreases j
  {
    if i < j {
      GrowsAlong(views, i, j - 1);
      GrowsTransitive(views[i], views[j - 1], views[j]);
    }
  }

  /** One step never loses or changes a record that a reader could already see, whatever the state. */
  lemma StepGrowsLog(c: Codec<Record>, plan: Plan, s: System, t: System)
    requires Next(c, plan, s, t)
    ensures LogGrows(c, s, t)
  {
    var step :| NextStep(c, plan, s, t, step);
    var w := match step case Append(produced) => Log(c, produced) case TornAppend(_, written) => written case _ => "";
    assert s.disk.log + "" == s.disk.log;
    assert t.disk.log == s.disk.log + w;
    ReadGrows(c, s.disk.log, w);
  }

  /** Over any run, what a later reader sees extends what an earlier one saw; a rejected log stays rejected. */
  lemma ReadableRecordsOnlyGrow(c: Codec<Record>, plan: Plan, trace: seq<System>, i: nat, j: nat)
    requires Run(c, plan, trace) && i <= j < |trace|
    ensures LogGrows(c, trace[i], trace[j])
  {
    var views := Reads(c, trace);
    forall k | 0 < k < |views|
      ensures Grows(views[k - 1], views[k])
    {
      RunStep(c, plan, trace, k);
      StepGrowsLog(c, plan, trace[k - 1], trace[k]);
    }
    GrowsAlong(views, i, j);
  }

  /**
   The runner does not cut a torn tail off before it appends. A batch is readable after its append if
   and only if the log was readable before it and ended with a line feed (or was empty), and no record of
   the batch holds a further separator.
   */
  lemma BatchReadableIff(c: Codec<Record>, plan: Plan, s: System, produced: seq<Record>)
    requires Faithful(c) && Inv(c, plan, s) && s.process.Running?
    requires Produces(plan.tasks, s.process.completed, produced)
    ensures var log := s.disk.log;
            Read(c, log + Log(c, produced)) == Some(s.process.records + produced)
            <==> Read(c, log).Some? && (log == "" || log[|log| - 1] == '\n') && AllOneLine(c, produced)
    ensures Read(c, s.disk.log + Log(c, produced)).Some? ==>
              Read(c, s.disk.log + Log(c, produced)) == Some(s.process.records + produced)
  {
    var log, rs := s.disk.log, s.process.records;
    if Poisoned(c, log) {
      ReadPoisoned(c, log, Log(c, produced));
      ReadPoisoned(c, log + Log(c, produced), "");
    } else {
      var ps :| Torn(c, log, rs, ps);
      TornBatch(c, log, rs, ps, produced);
    }
  }

  lemma TornBatch(c: Codec<Record>, log: string, rs: seq<Record>, ps: seq<string>, produced: seq<Record>)
    requires Faithful(c) && Torn(c, log, rs, ps) && produced != []
    ensures Read(c, log + Log(c, produced))
            == if Read(c, log).Some? && (log == "" || log[|log| - 1] == '\n') && AllOneLine(c, produced)
               then Some(rs + produced) else None
  {
    ReadTorn(c, log, rs, ps);
    AppendReadableIffUntorn(c, log, rs, ps, produced);
    OneLineParts(c, rs, produced);
  }

  lemma OneLineParts(c: Codec<Record>, a: seq<Record>, b: seq<Record>)
    ensures AllOneLine(c, a + b) <==> AllOneLine(c, a) && AllOneLine(c, b)
  {
    if AllOneLine(c, a + b) {
      assert forall i | 0 <= i < |a| :: a[i] == (a + b)[i];
      assert forall i | 0 <= i < |b| :: b[i] == (a + b)[|a| + i];
    }
  }

  // ---- The runner itself -------------------------------------------------------------------

  datatype Outcome = RejectedRun | SkippedRun(summary: seq<Record>) | Died | Finished(records: seq<Record>)

  /** The record groups that a worker answering with `forecast` yields for some tasks. */
  function Groups(tasks: seq<Task>, forecast: (Task, int) -> string): (rs: seq<Record>)
    ensures |rs| == 4 * |tasks|
    ensures forall i: nat | i < |rs| ::
              rs[i] == Record(tasks[i / 4].symbol, tasks[i / 4].origin, HORIZONS[i % 4],
                              forecast(tasks[i / 4], HORIZONS[i % 4]))
  {
    seq(4 * |tasks|, i requires 0 <= i < 4 * |tasks| =>
      Record(tasks[i / 4].symbol, tasks[i / 4].origin, HORIZONS[i % 4], forecast(tasks[i / 4], HORIZONS[i % 4])))
  }

  lemma GroupIndex(completed: nat, i: nat)
    ensures (4 * completed + i) / 4 == completed + i / 4 && (4 * completed + i) % 4 == i % 4
  {
  }

  lemma GroupInPlan(tasks: seq<Task>, completed: nat, batch: seq<Task>, forecast: (Task, int) -> string, i: nat)
    requires i < 4 * |batch| && completed + i / 4 < |tasks| && batch[i / 4] == tasks[completed + i / 4]
    ensures InPlan(tasks, Groups(batch, forecast)[i], 4 * completed + i)
  {
    GroupIndex(completed, i);
  }

  lemma GroupsProduce(tasks: seq<Task>, completed: nat, size: nat, forecast: (Task, int) -> string)
    requires size > 0 && completed + size <= |tasks|
    ensures Produces(tasks, completed, Groups(tasks[completed..completed + size], forecast))
  {
    var batch := tasks[completed..completed + size];
    var rs := Groups(batch, forecast);
    forall i: nat | i < |rs|
      ensures InPlan(tasks, rs[i], 4 * completed + i)
    {
      GroupInPlan(tasks, completed, batch, forecast, i);
    }
  }

  /** How far one pass of the batch loop got before the process went on or died. */
  datatype BatchFate = Untouched | TornAfter(written: nat) | LogOnly | Committed

  function BatchDisk(c: Codec<Record>, plan: Plan, disk: Disk, completed: nat, produced: seq<Record>,
                     fate: BatchFate): Disk
    requires completed <= |plan.tasks|
    requires fate.TornAfter? ==> fate.written <= |Log(c, produced)|
  {
    match fate
    case Untouched => disk
    case TornAfter(n) => disk.(log := disk.log + Log(c, produced)[..n])
    case LogOnly => disk.(log := disk.log + Log(c, produced))
    case Committed =>
      disk.(log := disk.log + Log(c, produced), checkpoint := Some(WriteCheckpoint(plan, completed)))
  }

  /** The directory and the process after a batch; a process that dies holds nothing. */
  function AfterBatch(c: Codec<Record>, plan: Plan, disk: Disk, completed: nat, records: seq<Record>,
                      produced: seq<Record>, fate: BatchFate): System
    requires completed <= |plan.tasks|
    requires fate.TornAfter? ==> fate.written <= |Log(c, produced)|
  {
    System(BatchDisk(c, plan, disk, completed, produced, fate),
           if fate.Committed? then Running(completed, records + produced) else Idle)
  }

  /** Every fate of a batch is two steps of the transition system; dying a second time changes nothing. */
  lemma BatchSteps(c: Codec<Record>, plan: Plan, disk: Disk, completed: nat, records: seq<Record>, size: nat,
                   produced: seq<Record>, fate: BatchFate)
    returns (middle: System, first: Step, second: Step)
    requires |produced| == 4 * size && Produces(plan.tasks, completed, produced) && completed + size <= |plan.tasks|
    requires fate.TornAfter? ==> fate.written <= |Log(c, produced)|
    ensures NextStep(c, plan, System(disk, Running(completed, records)), middle, first)
    ensures NextStep(c, plan, middle, AfterBatch(c, plan, disk, completed + size, records, produced, fate), second)
  {
    var n, rs := completed + size, records + produced;
    assert |produced| / 4 == size;
    match fate
    case Untouched =>
      middle, first, second := System(disk, Idle), Die, Die;
    case TornAfter(k) =>
      var w := Log(c, produced)[..k];
      middle, first, second := System(disk.(log := disk.log + w), Idle), TornAppend(produced, w), Die;
    case LogOnly =>
      middle := System(disk.(log := disk.log + Log(c, produced)), Appended(n, rs));
      first, second := Append(produced), Die;
    case Committed =>
      middle := System(disk.(log := disk.log + Log(c, produced)), Appended(n, rs));
      first, second := Append(produced), WriteCursor;
  }

  /** Every fate of a batch is a run of the transition system. */
  lemma BatchReaches(c: Codec<Record>, plan: Plan, start: System, disk: Disk, completed: nat, records: seq<Record>,
                     size: nat, produced: seq<Record>, fate: BatchFate)
    requires |produced| == 4 * size && Produces(plan.tasks, completed, produced) && completed + size <= |plan.tasks|
    requires fate.TornAfter? ==> fate.written <= |Log(c, produced)|
    requires Reaches(c, plan, start, System(disk, Running(completed, records)))
    ensures Reaches(c, plan, start, AfterBatch(c, plan, disk, completed + size, records, produced, fate))
  {
    var middle, first, second := BatchSteps(c, plan, disk, completed, records, size, produced, fate);
    ReachesStep(c, plan, start, System(disk, Running(completed, records)), middle, first);
    ReachesStep(c, plan, start, middle, AfterBatch(c, plan, disk, completed + size, records, produced, fate), second);
  }

  lemma GroupsReach(c: Codec<Record>, plan: Plan, start: System, disk: Disk, completed: nat, records: seq<Record>,
                    size: nat, forecast: (Task, int) -> string, fate: BatchFate, after: System)
    requires size > 0 && completed + size <= |plan.tasks|
    requires var produced := Groups(plan.tasks[completed..completed + size], forecast);
             && (fate.TornAfter? ==> fate.written <= |Log(c, produced)|)
             && after == AfterBatch(c, plan, disk, completed + size, records, produced, fate)
    requires Reaches(c, plan, start, System(disk, Running(completed, records)))
    ensures Reaches(c, plan, start, after)
  {
    var produced := Groups(plan.tasks[completed..completed + size], forecast);
    GroupsProduce(plan.tasks, completed, size, forecast);
    BatchReaches(c, plan, start, disk, completed, records, size, produced, fate);
  }

  lemma StartReaches(c: Codec<Record>, plan: Plan, disk: Disk, completed: nat, records: seq<Record>)
    requires Resume(c, plan, disk) == Ready(completed, records) && completed <= |plan.tasks|
    ensures Reaches(c, plan, System(disk, Idle),
                    System(disk.(checkpoint := Advanced(plan, disk.checkpoint, completed)),
                           Running(completed, records)))
  {
    var s := System(disk, Idle);
    ReachesSelf(c, plan, s);
    ReachesStep(c, plan, s, s,
      System(disk.(checkpoint := Advanced(plan, disk.checkpoint, completed)), Running(completed, records)), Start);
  }

  /** The last step of a run that finishes. */
  ghost predicate Finishes(c: Codec<Record>, plan: Plan, before: Disk, after: Disk, records: seq<Record>) {
    exists last: Disk ::
      && Reaches(c, plan, System(before, Idle), System(last, Running(|plan.tasks|, records)))
      && after == last.(summary := Some(records))
  }

  lemma FinishReaches(c: Codec<Record>, plan: Plan, before: Disk, last: Disk, records: seq<Record>)
    requires Reaches(c, plan, System(before, Idle), System(last, Running(|plan.tasks|, records)))
    ensures Finishes(c, plan, before, last.(summary := Some(records)), records)
    ensures Reaches(c, plan, System(before, Idle), System(last.(summary := Some(records)), Idle))
  {
    ReachesStep(c, plan, System(before, Idle), System(last, Running(|plan.tasks|, records)),
                System(last.(summary := Some(records)), Idle), Finish);
  }

  lemma DieReaches(c: Codec<Record>, plan: Plan, start: System, last: Disk, completed: nat, records: seq<Record>)
    requires Reaches(c, plan, start, System(last, Running(completed, records)))
    ensures Reaches(c, plan, start, System(last, Idle))
  {
    ReachesStep(c, plan, start, System(last, Running(completed, records)), System(last, Idle), Die);
  }

  // ---- A run that finishes behind a tear -----------------------------------------------------

  lemma TornBrace(c: Codec<Record>)
    requires Piece(c, "{")
    ensures Torn(c, "{", [], ["{"]) && Cat(["{"]) == "{"
  {
    CatAppend([], "{");
  }

  lemma ReadEmpty(c: Codec<Record>)
    requires Faithful(c)
    ensures Read(c, "") == Some([])
  {
    var none: seq<Record> := [];
    ReadTorn(c, "", none, []);
  }

  lemma ReadBrace(c: Codec<Record>)
    requires Faithful(c) && Piece(c, "{")
    ensures Read(c, "{") == Some([])
  {
    var none: seq<Record> := [];
    TornBrace(c);
    ReadTorn(c, "{", none, ["{"]);
  }

  /** Without a cursor and a readable record a run starts from the first task. */
  lemma ResumesFresh(c: Codec<Record>, plan: Plan, log: string)
    requires plan.tasks != [] && Read(c, log) == Some([])
    ensures Resume(c, plan, Disk(log, None, None)) == Ready(0, [])
  {
    var none: seq<Record> := [];
    assert Aligned(plan.tasks, none);
    assert RecordCount(plan.tasks, none) == Some(0);
  }

  lemma BraceIsPiece(c: Codec<Record>, produced: seq<Record>)
    requires Faithful(c) && produced != []
    ensures Piece(c, "{") && "{" <= Log(c, produced)
  {
    LineText(c, produced[0]);
    assert "{" <= c.encode(produced[0]);
  }

  lemma BehindBrace(c: Codec<Record>, produced: seq<Record>)
    requires Faithful(c) && produced != [] && Piece(c, "{")
    ensures Poisoned(c, "{" + Log(c, produced)) && Read(c, "{" + Log(c, produced)) == None
  {
    TornBrace(c);
    AppendBehindTear(c, "{", [], ["{"], produced, Log(c, produced));
    ReadPoisoned(c, "{" + Log(c, produced), "");
  }

  /** Where the torn run ends: the whole plan behind a brace, the last cursor and the summary. */
  function TornEnd(c: Codec<Record>, plan: Plan, produced: seq<Record>): System {
    System(Disk("{" + Log(c, produced), Some(WriteCheckpoint(plan, |plan.tasks|)), Some(produced)), Idle)
  }

  lemma TornRunExists(c: Codec<Record>, plan: Plan, produced: seq<Record>) returns (trace: seq<System>)
    requires Faithful(c) && plan.tasks != []
    requires Produces(plan.tasks, 0, produced) && |produced| == 4 * |plan.tasks|
    ensures Run(c, plan, trace) && trace[0] == EMPTY && trace[|trace| - 1] == TornEnd(c, plan, produced)
  {
    BraceIsPiece(c, produced);
    ReadEmpty(c);
    ReadBrace(c);
    ResumesFresh(c, plan, "");
    ResumesFresh(c, plan, "{");
    TornRunReaches(c, plan, produced);
    trace := ReachesRun(c, plan, EMPTY, TornEnd(c, plan, produced));
  }

  lemma WholePlanProduced(tasks: seq<Task>, forecast: (Task, int) -> string)
    requires tasks != []
    ensures Produces(tasks, 0, Groups(tasks, forecast)) && |Groups(tasks, forecast)| == 4 * |tasks|
  {
    GroupsProduce(tasks, 0, |tasks|, forecast);
    assert tasks[0..|tasks|] == tasks;
  }

  /**
   Every plan has a run that is torn once, starts again, finishes with the whole plan in memory, and leaves
   a log that every later start rejects.
   */
  lemma TornRunFinishesUnreadable(c: Codec<Record>, plan: Plan, forecast: (Task, int) -> string)
    returns (trace: seq<System>)
    requires Faithful(c) && plan.tasks != []
    ensures Run(c, plan, trace) && trace[0] == EMPTY
    ensures var last := trace[|trace| - 1];
            && last.process == Idle && last.disk.summary == Some(Groups(plan.tasks, forecast))
            && Poisoned(c, last.disk.log) && Read(c, last.disk.log) == None
  {
    var produced := Groups(plan.tasks, forecast);
    WholePlanProduced(plan.tasks, forecast);
    BraceIsPiece(c, produced);
    BehindBrace(c, produced);
    trace := TornRunExists(c, plan, produced);
  }

  lemma StartIsStep(c: Codec<Record>, plan: Plan, log: string)
    requires Resume(c, plan, Disk(log, None, None)) == Ready(0, [])
    ensures NextStep(c, plan, System(Disk(log, None, None), Idle), System(Disk(log, None, None), Running(0, [])), Start)
  {
  }

  lemma TornIsStep(c: Codec<Record>, plan: Plan, s: System, produced: seq<Record>, k: nat, t: System)
    requires s.process.Running? && Produces(plan.tasks, s.process.completed, produced) && k <= |Log(c, produced)|
    requires t == System(s.disk.(log := s.disk.log + Log(c, produced)[..k]), Idle)
    ensures NextStep(c, plan, s, t, TornAppend(produced, Log(c, produced)[..k]))
  {
  }

  lemma TornRunReaches(c: Codec<Record>, plan: Plan, produced: seq<Record>)
    requires Produces(plan.tasks, 0, produced) && |produced| == 4 * |plan.tasks| && "{" <= Log(c, produced)
    requires Resume(c, plan, Disk("", None, None)) == Ready(0, [])
    requires Resume(c, plan, Disk("{", None, None)) == Ready(0, [])
    ensures Reaches(c, plan, EMPTY, TornEnd(c, plan, produced))
  {
    var s, t := System(Disk("", None, None), Running(0, [])), System(Disk("{", None, None), Idle);
    ReachesSelf(c, plan, EMPTY);
    StartIsStep(c, plan, "");
    ReachesStep(c, plan, EMPTY, EMPTY, s, Start);
    assert Log(c, produced)[..1] == "{" && "" + "{" == "{";
    TornIsStep(c, plan, s, produced, 1, t);
    ReachesStep(c, plan, EMPTY, s, t, TornAppend(produced, Log(c, produced)[..1]));
    StartIsStep(c, plan, "{");
    ReachesStep(c, plan, EMPTY, t, System(t.disk, Running(0, [])), Start);
    WholeBatchReaches(c, plan, EMPTY, t.disk, produced);
  }

  /** One batch of the whole plan, its cursor and the summary. */
  lemma WholeBatchReaches(c: Codec<Record>, plan: Plan, start: System, disk: Disk, produced: seq<Record>)
    requires Produces(plan.tasks, 0, produced) && |produced| == 4 * |plan.tasks|
    requires Reaches(c, plan, start, System(disk, Running(0, [])))
    ensures Reaches(c, plan, start, System(Disk(disk.log + Log(c, produced), Some(WriteCheckpoint(plan, |plan.tasks|)),
                                                Some(produced)), Idle))
  {
    var n := |plan.tasks|;
    var none: seq<Record> := [];
    assert none + produced == produced;
    BatchReaches(c, plan, start, disk, 0, none, n, produced, Committed);
    var done := BatchDisk(c, plan, disk, n, produced, Committed);
    ReachesStep(c, plan, start, System(done, Running(n, produced)), System(done.(summary := Some(produced)), Idle),
                Finish);
  }

  class RunDirectory {
    var log: string
    var checkpoint: Option<Checkpoint>
    var summary: Option<seq<Record>>

    constructor ()
      ensures View() == EMPTY.disk
    {
      log, checkpoint, summary := "", None, None;
    }

    function View(): Disk
      reads this
    {
      Disk(log, checkpoint, summary)
    }

    /** Everything a run checks before it does any work. */
    method LoadProgress(c: Codec<Record>, plan: Plan) returns (r: Resumed)
      ensures r == Resume(c, plan, View())
    {
      var cursor := CompletedCount(plan, checkpoint);
      if cursor == None {
        return Rejected;
      }
      if cursor.value == |plan.tasks| && summary.Some? {
        return AlreadyComplete(summary.value);
      }
      var records := ReadJsonl(c, log);
      if records == None {
        return Rejected;
      }
      var completed := CompletedTaskCountFromRecords(plan.tasks, records.value);
      if completed == None || completed.value < cursor.value {
        return Rejected;
      }
      return Ready(completed.value, records.value);
    }

    /** One pass of the batch loop: append the batch, then replace the cursor. */
    method RunBatch(c: Codec<Record>, plan: Plan, completed: nat, produced: seq<Record>) returns (fate: BatchFate)
      requires completed <= |plan.tasks|
      modifies this`log, this`checkpoint
      ensures fate.TornAfter? ==> fate.written <= |Log(c, produced)|
      ensures View() == BatchDisk(c, plan, old(View()), completed, produced, fate)
    {
      if * {
        return Untouched;
      }
      var bytes := Log(c, produced);
      if * {
        var n :| 0 <= n <= |bytes|;
        log := log + bytes[..n];
        return TornAfter(n);
      }
      log := log + bytes;
      if * {
        return LogOnly;
      }
      checkpoint := Some(WriteCheckpoint(plan, completed));
      return Committed;
    }

    /** The next batch of the plan, from its preparation to its checkpoint. */
    method NextBatch(c: Codec<Record>, plan: Plan, completed: nat, records: seq<Record>, batchSize: nat,
                     forecast: (Task, int) -> string, ghost start: System)
      returns (alive: bool, n: nat, rs: seq<Record>)
      requires batchSize >= 1 && completed < |plan.tasks|
      requires Reaches(c, plan, start, System(View(), Running(completed, records)))
      modifies this`log, this`checkpoint
      ensures alive ==> completed < n <= |plan.tasks| && Reaches(c, plan, start, System(View(), Running(n, rs)))
      ensures !alive ==> Reaches(c, plan, start, System(View(), Idle))
    {
      ghost var disk := View();
      var size := if batchSize <= |plan.tasks| - completed then batchSize else |plan.tasks| - completed;
      var produced := Groups(plan.tasks[completed..completed + size], forecast);
      var fate := RunBatch(c, plan, completed + size, produced);
      alive, n, rs := fate.Committed?, completed + size, records + produced;
      ghost var after := AfterBatch(c, plan, disk, n, records, produced, fate);
      assert after == System(View(), if alive then Running(n, rs) else Idle);
      GroupsReach(c, plan, start, disk, completed, records, size, forecast, fate, after);
    }

    /** The batch loop, which may die in any batch. */
    method RunBatches(c: Codec<Record>, plan: Plan, completed: nat, records: seq<Record>, batchSize: nat,
                      forecast: (Task, int) -> string, ghost start: System)
      returns (alive: bool, all: seq<Record>)
      requires batchSize >= 1 && completed <= |plan.tasks|
      requires Reaches(c, plan, start, System(View(), Running(completed, records)))
      modifies this`log, this`checkpoint
      ensures alive ==> Reaches(c, plan, start, System(View(), Running(|plan.tasks|, all)))
      ensures !alive ==> Reaches(c, plan, start, System(View(), Idle))
    {
      var n;
      n, all := completed, records;
      while n < |plan.tasks|
        invariant n <= |plan.tasks|
        invariant Reaches(c, plan, start, System(View(), Running(n, all)))
      {
        alive, n, all := NextBatch(c, plan, n, all, batchSize, forecast, start);
        if !alive {
          return;
        }
      }
      alive := true;
    }

    /**
     One invocation. It may die (a stop marker, a failed worker, a killed process) before any step
     and after any prefix of an append. Whatever it does is a run of the transition system.
     */
    method RunCombination(c: Codec<Record>, plan: Plan, batchSize: nat, forecast: (Task, int) -> string)
      returns (outcome: Outcome)
      requires batchSize >= 1
      modifies this
      ensures Reaches(c, plan, System(old(View()), Idle), System(View(), Idle))
      ensures outcome.RejectedRun? ==> Resume(c, plan, old(View())).Rejected? && View() == old(View())
      ensures outcome.SkippedRun? ==>
                Resume(c, plan, old(View())) == AlreadyComplete(outcome.summary) && View() == old(View())
      ensures outcome.Finished? ==> Finishes(c, plan, old(View()), View(), outcome.records)
    {
      ghost var before := View();
      var progress := LoadProgress(c, plan);
      ReachesSelf(c, plan, System(before, Idle));
      match progress {
        case Rejected => return RejectedRun;
        case AlreadyComplete(s) => return SkippedRun(s);
        case Ready(_, _) =>
      }
      if * {
        return Died;
      }
      var completed, records := progress.completed, progress.records;
      ResumeBound(c, plan, before);
      StartReaches(c, plan, before, completed, records);
      checkpoint := Advanced(plan, checkpoint, completed);
      var alive;
      alive, records := RunBatches(c, plan, completed, records, batchSize, forecast, System(before, Idle));
      if !alive {
        return Died;
      }
      if * {
        DieReaches(c, plan, System(before, Idle), View(), |plan.tasks|, records);
        return Died;
      }
      FinishReaches(c, plan, before, View(), records);
      summary := Some(records);
      return Finished(records);
    }
  }
}
