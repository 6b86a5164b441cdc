/** One model batch: prepared tasks, one worker request, and the records that are logged for them. */
module BatchInference {
  import opened Wrappers
  import opened ResumableRun

  /** One series of a worker response. */
  datatype Series = Series(instrument: Option<Key>, available: bool, body: string)

  datatype Response = NoResponse | WorkerUnavailable | WrongModel | Reply(series: seq<Series>)

  /**
   What surrounds a batch. `prepared` says whether the context of a task is complete, `answer` is the
   deterministic worker, `valid` checks the horizons and target times of a series, and `fill` and `gap`
   write the record of one horizon without its latency and batch size.
   */
  datatype World = World(prepared: Key -> bool, answer: Key -> string, valid: (Task, string) -> bool,
                         fill: (Task, int, string) -> string, gap: (Task, int) -> string)

  predicate Prepared(w: World, t: Task) {
    w.prepared(TaskKey(t))
  }

  function Payload(w: World, t: Task, horizon: int, body: string): string {
    if Prepared(w, t) then w.fill(t, horizon, body) else w.gap(t, horizon)
  }

  /** The four records of one task. */
  function TaskRecords(w: World, t: Task, body: string): seq<Record> {
    seq(4, i requires 0 <= i < 4 => Record(t.symbol, t.origin, HORIZONS[i], Payload(w, t, HORIZONS[i], body)))
  }

  /** The records of a task that is sent to the worker on its own. */
  function Alone(w: World, t: Task): seq<Record> {
    TaskRecords(w, t, w.answer(TaskKey(t)))
  }

  predicate Servable(w: World, t: Task) {
    Prepared(w, t) ==> w.valid(t, w.answer(TaskKey(t)))
  }

  /** The records of all tasks, one task at a time. */
  function OneByOne(w: World, tasks: seq<Task>): seq<Record> {
    if tasks == [] then [] else OneByOne(w, tasks[..|tasks| - 1]) + Alone(w, tasks[|tasks| - 1])
  }

  predicate AllServable(w: World, tasks: seq<Task>) {
    forall t | t in tasks :: Servable(w, t)
  }

  predicate DistinctKeys(tasks: seq<Task>) {
    forall i, j | 0 <= i < j < |tasks| :: TaskKey(tasks[i]) != TaskKey(tasks[j])
  }

  function KeySet(tasks: seq<Task>): (ks: set<Key>)
    ensures forall k :: k in ks <==> exists t :: t in tasks && TaskKey(t) == k
  {
    set t | t in tasks :: TaskKey(t)
  }

  // ---- The batch as it is computed ----------------------------------------------------------

  function Available(w: World, tasks: seq<Task>): seq<Task> {
    if tasks == [] then [] else
      var last := tasks[|tasks| - 1];
      Available(w, tasks[..|tasks| - 1]) + if Prepared(w, last) then [last] else []
  }

  /** `by_instrument`: the last series of each instrument key. */
  function Keyed(series: seq<Series>): map<Key, Series> {
    if series == [] then map[] else
      var before, last := Keyed(series[..|series| - 1]), series[|series| - 1];
      if last.instrument.None? then before else before[last.instrument.value := last]
  }

  /** The positional dictionary for responses without distinct instrument keys. */
  function Zipped(tasks: seq<Task>, series: seq<Series>): map<Key, Series>
    requires |tasks| == |series|
  {
    if tasks == [] then map[] else
      Zipped(tasks[..|tasks| - 1], series[..|tasks| - 1])[TaskKey(tasks[|tasks| - 1]) := series[|tasks| - 1]]
  }

  function ByInstrument(tasks: seq<Task>, series: seq<Series>): map<Key, Series>
    requires |tasks| == |series|
  {
    if |Keyed(series)| != |series| then Zipped(tasks, series) else Keyed(series)
  }

  type Produced = map<Key, seq<Record>>

  function Gaps(w: World, tasks: seq<Task>): Produced {
    if tasks == [] then map[] else
      var before, last := Gaps(w, tasks[..|tasks| - 1]), tasks[|tasks| - 1];
      if Prepared(w, last) then before else before[TaskKey(last) := TaskRecords(w, last, "")]
  }

  /** What one available task adds to the produced records. */
  function ServeOne(w: World, t: Task, found: map<Key, Series>, produced: Produced): Result<Produced> {
    if TaskKey(t) !in found then Err("worker returned misaligned batch instrument keys")
    else if !found[TaskKey(t)].available then Err("series unavailable")
    else if !w.valid(t, found[TaskKey(t)].body) then Err("worker returned a mismatched horizon")
    else Ok(produced[TaskKey(t) := TaskRecords(w, t, found[TaskKey(t)].body)])
  }

  function Serve(w: World, tasks: seq<Task>, found: map<Key, Series>, produced: Produced): Result<Produced> {
    if tasks == [] then Ok(produced) else
      var before := Serve(w, tasks[..|tasks| - 1], found, produced);
      if before.Err? then before else ServeOne(w, tasks[|tasks| - 1], found, before.value)
  }

  function Receive(w: World, available: seq<Task>, response: Response, produced: Produced): Result<Produced> {
    match response
    case NoResponse => Err("worker request failed after retries")
    case WorkerUnavailable => Err("worker returned unavailable")
    case WrongModel => Err("worker returned the wrong model lane")
    case Reply(series) =>
      if |series| != |available| then Err("worker returned a mismatched series batch size")
      else Serve(w, available, ByInstrument(available, series), produced)
  }

  /** The dictionary of produced records once the response has been read; without available tasks none is sent. */
  function Answered(w: World, tasks: seq<Task>, response: Response): Result<Produced> {
    var available := Available(w, tasks);
    if available == [] then Ok(Gaps(w, tasks)) else Receive(w, available, response, Gaps(w, tasks))
  }

  predicate Holds(produced: Produced, tasks: seq<Task>) {
    forall t | t in tasks :: TaskKey(t) in produced
  }

  function Collect(tasks: seq<Task>, produced: Produced): seq<Record>
    requires Holds(produced, tasks)
  {
    if tasks == [] then [] else
      Collect(tasks[..|tasks| - 1], produced) + produced[TaskKey(tasks[|tasks| - 1])]
  }

  lemma {:induction false} GapsHold(w: World, tasks: seq<Task>, t: Task)
    requires t in tasks && !Prepared(w, t)
    ensures TaskKey(t) in Gaps(w, tasks)
  {
    var before, last := tasks[..|tasks| - 1], tasks[|tasks| - 1];
    assert tasks == before + [last];
    if t != last {
      GapsHold(w, before, t);
    }
  }

  lemma {:induction false} ServeHolds(w: World, tasks: seq<Task>, found: map<Key, Series>, produced: Produced)
    requires Serve(w, tasks, found, produced).Ok?
    ensures produced.Keys <= Serve(w, tasks, found, produced).value.Keys
    ensures Holds(Serve(w, tasks, found, produced).value, tasks)
  {
    if tasks != [] {
      var before, last := tasks[..|tasks| - 1], tasks[|tasks| - 1];
      assert tasks == before + [last];
      ServeHolds(w, before, found, produced);
    }
  }

  /** No task of a batch is without records once the response has been read. */
  lemma AnsweredHolds(w: World, tasks: seq<Task>, response: Response)
    requires Answered(w, tasks, response).Ok?
    ensures Holds(Answered(w, tasks, response).value, tasks)
  {
    var available := Available(w, tasks);
    AvailableSubset(w, tasks);
    if available != [] {
      ServeHolds(w, available, ByInstrument(available, response.series), Gaps(w, tasks));
    }
    forall t | t in tasks ensures TaskKey(t) in Answered(w, tasks, response).value {
      if !Prepared(w, t) {
        GapsHold(w, tasks, t);
      }
    }
  }

  /** The records of one batch, or why the run fails on it. */
  function BatchRecords(w: World, tasks: seq<Task>, response: Response): Result<seq<Record>> {
    var answered := Answered(w, tasks, response);
    if answered.Err? then Err(answered.reason) else
      AnsweredHolds(w, tasks, response);
      Ok(Collect(tasks, answered.value))
  }

  /** The response lists the series of every request in some order, whatever that order is. */
  predicate Permutes(w: World, tasks: seq<Task>, series: seq<Series>) {
    multiset(series) == multiset(Expected(w, tasks))
  }

  function Expected(w: World, tasks: seq<Task>): (s: seq<Series>)
    ensures |s| == |tasks|
  {
    seq(|tasks|, i requires 0 <= i < |tasks| =>
      Series(Some(TaskKey(tasks[i])), true, w.answer(TaskKey(tasks[i]))))
  }

  // ---- Reading the response -----------------------------------------------------------------

  lemma {:induction false} AvailableSubset(w: World, tasks: seq<Task>)
    ensures forall t :: t in Available(w, tasks) <==> t in tasks && Prepared(w, t)
    ensures DistinctKeys(tasks) ==> DistinctKeys(Available(w, tasks))
  {
    if tasks != [] {
      var before, last := tasks[..|tasks| - 1], tasks[|tasks| - 1];
      AvailableSubset(w, before);
      assert tasks == before + [last];
      if DistinctKeys(tasks) {
        assert DistinctKeys(before);
        var a := Available(w, before);
        forall i | 0 <= i < |a| ensures TaskKey(a[i]) != TaskKey(last) {
          assert a[i] in before;
        }
      }
    }
  }

  lemma {:induction false} KeyedReads(series: seq<Series>, key: Key)
    ensures key in Keyed(series) <==> exists s :: s in series && s.instrument == Some(key)
    ensures key in Keyed(series) ==> Keyed(series)[key] in series && Keyed(series)[key].instrument == Some(key)
  {
    if series != [] {
      var before, last := series[..|series| - 1], series[|series| - 1];
      KeyedReads(before, key);
      assert series == before + [last];
    }
  }

  lemma {:induction false} KeySetSize(tasks: seq<Task>)
    ensures |KeySet(tasks)| <= |tasks|
    ensures |KeySet(tasks)| == |tasks| <==> DistinctKeys(tasks)
  {
    if tasks != [] {
      var before, last := tasks[..|tasks| - 1], tasks[|tasks| - 1];
      KeySetSize(before);
      assert tasks == before + [last];
      assert KeySet(tasks) == KeySet(before) + {TaskKey(last)};
      LastKey(before, last);
    }
  }

  lemma LastKey(before: seq<Task>, last: Task)
    ensures DistinctKeys(before + [last]) <==> DistinctKeys(before) && TaskKey(last) !in KeySet(before)
  {
    var tasks := before + [last];
    if DistinctKeys(tasks) {
      forall i, j | 0 <= i < j < |before| ensures TaskKey(before[i]) != TaskKey(before[j]) {
        assert tasks[i] == before[i] && tasks[j] == before[j];
      }
      forall i | 0 <= i < |before| ensures TaskKey(before[i]) != TaskKey(last) {
        assert tasks[i] == before[i] && tasks[|before|] == last;
      }
    }
  }

  lemma ExpectedMember(w: World, tasks: seq<Task>, series: seq<Series>, s: Series)
    requires Permutes(w, tasks, series) && s in series
    ensures s.instrument.Some? && s.instrument.value in KeySet(tasks)
    ensures s.available && s.body == w.answer(s.instrument.value)
  {
    assert s in multiset(Expected(w, tasks));
    var i :| 0 <= i < |tasks| && Expected(w, tasks)[i] == s;
    assert tasks[i] in tasks;
  }

  lemma TaskAnswered(w: World, tasks: seq<Task>, series: seq<Series>, t: Task)
    requires Permutes(w, tasks, series) && t in tasks
    ensures Series(Some(TaskKey(t)), true, w.answer(TaskKey(t))) in series
  {
    var i :| 0 <= i < |tasks| && tasks[i] == t;
    assert Expected(w, tasks)[i] in multiset(Expected(w, tasks));
  }

  /** In any order of the response, the dictionary gives every key its own answer. */
  lemma KeyedAnswer(w: World, tasks: seq<Task>, series: seq<Series>, key: Key)
    requires Permutes(w, tasks, series)
    ensures key in Keyed(series) <==> key in KeySet(tasks)
    ensures key in Keyed(series) ==> Keyed(series)[key].available && Keyed(series)[key].body == w.answer(key)
  {
    KeyedReads(series, key);
    if key in Keyed(series) {
      ExpectedMember(w, tasks, series, Keyed(series)[key]);
    }
    if key in KeySet(tasks) {
      var t :| t in tasks && TaskKey(t) == key;
      TaskAnswered(w, tasks, series, t);
    }
  }

  lemma KeyedSize(w: World, tasks: seq<Task>, series: seq<Series>)
    requires Permutes(w, tasks, series)
    ensures |series| == |tasks|
    ensures |Keyed(series)| == |series| <==> DistinctKeys(tasks)
  {
    assert |multiset(series)| == |series| && |multiset(Expected(w, tasks))| == |tasks|;
    forall key ensures key in Keyed(series) <==> key in KeySet(tasks) {
      KeyedAnswer(w, tasks, series, key);
    }
    assert Keyed(series).Keys == KeySet(tasks);
    assert |Keyed(series)| == |Keyed(series).Keys|;
    KeySetSize(tasks);
  }

  predicate Answers(w: World, tasks: seq<Task>, found: map<Key, Series>) {
    forall t | t in tasks ::
      TaskKey(t) in found && found[TaskKey(t)].available && found[TaskKey(t)].body == w.answer(TaskKey(t))
  }

  lemma DistinctAnswers(w: World, tasks: seq<Task>, series: seq<Series>)
    requires Permutes(w, tasks, series) && DistinctKeys(tasks)
    ensures |series| == |tasks| && Answers(w, tasks, ByInstrument(tasks, series))
  {
    KeyedSize(w, tasks, series);
    forall t | t in tasks
      ensures TaskKey(t) in Keyed(series) && Keyed(series)[TaskKey(t)].available
              && Keyed(series)[TaskKey(t)].body == w.answer(TaskKey(t))
    {
      KeyedAnswer(w, tasks, series, TaskKey(t));
    }
  }

  // ---- When the order of the response does not matter ----------------------------------------

  predicate SameAnswers(w: World, tasks: seq<Task>) {
    forall t, u | t in tasks && u in tasks :: w.answer(TaskKey(t)) == w.answer(TaskKey(u))
  }

  lemma {:induction false} ZippedReads(tasks: seq<Task>, series: seq<Series>, i: nat)
    requires |tasks| == |series| && i < |tasks|
    requires forall j | i < j < |tasks| :: TaskKey(tasks[j]) != TaskKey(tasks[i])
    ensures TaskKey(tasks[i]) in Zipped(tasks, series) && Zipped(tasks, series)[TaskKey(tasks[i])] == series[i]
  {
    if i < |tasks| - 1 {
      ZippedReads(tasks[..|tasks| - 1], series[..|tasks| - 1], i);
    }
  }

  /** The last position of a task's key. */
  function LastWithKey(tasks: seq<Task>, i: nat): (last: nat)
    requires i < |tasks|
    ensures i <= last < |tasks| && TaskKey(tasks[last]) == TaskKey(tasks[i])
    ensures forall j | last < j < |tasks| :: TaskKey(tasks[j]) != TaskKey(tasks[i])
  {
    if TaskKey(tasks[|tasks| - 1]) == TaskKey(tasks[i]) then |tasks| - 1
    else LastWithKey(tasks[..|tasks| - 1], i)
  }

  lemma ZippedTask(tasks: seq<Task>, series: seq<Series>, i: nat)
    requires |tasks| == |series| && i < |tasks|
    ensures TaskKey(tasks[i]) in Zipped(tasks, series)
    ensures Zipped(tasks, series)[TaskKey(tasks[i])] == series[LastWithKey(tasks, i)]
  {
    ZippedReads(tasks, series, LastWithKey(tasks, i));
  }

  lemma SameAnswersZip(w: World, tasks: seq<Task>, series: seq<Series>)
    requires Permutes(w, tasks, series) && SameAnswers(w, tasks) && |series| == |tasks|
    ensures Answers(w, tasks, Zipped(tasks, series))
  {
    forall t | t in tasks
      ensures TaskKey(t) in Zipped(tasks, series) && Zipped(tasks, series)[TaskKey(t)].available
              && Zipped(tasks, series)[TaskKey(t)].body == w.answer(TaskKey(t))
    {
      var i :| 0 <= i < |tasks| && tasks[i] == t;
      ZippedTask(tasks, series, i);
      var s := series[LastWithKey(tasks, i)];
      assert s in series;
      ExpectedMember(w, tasks, series, s);
      var u :| u in tasks && TaskKey(u) == s.instrument.value;
    }
  }

  function Swapped(s: seq<Series>, i: nat, j: nat): seq<Series>
    requires i < |s| && j < |s|
  {
    s[i := s[j]][j := s[i]]
  }

  /** The response that shows the mix-up: the answer of another task stands in the repeated task's place. */
  lemma RepeatedKeyMixesUp(w: World, tasks: seq<Task>, i: nat, k: nat)
    requires i < |tasks| && k < |tasks| && !DistinctKeys(tasks)
    requires w.answer(TaskKey(tasks[k])) != w.answer(TaskKey(tasks[i]))
    ensures exists series ::
              Permutes(w, tasks, series) && |series| == |tasks| && !Answers(w, tasks, ByInstrument(tasks, series))
  {
    var last := LastWithKey(tasks, i);
    var series := Swapped(Expected(w, tasks), last, k);
    assert Permutes(w, tasks, series);
    KeyedSize(w, tasks, series);
    ZippedTask(tasks, series, i);
    assert tasks[i] in tasks;
    assert series[last].body == w.answer(TaskKey(tasks[k]));
  }

  /**
   The dictionary is right for every order of the response exactly when the keys of the batch are
   distinct, or when no two answers differ. With a repeated key the code silently falls back to
   positions, and a permuted response is then filed under the wrong tasks.
   */
  lemma EveryOrderSafeIff(w: World, tasks: seq<Task>)
    ensures (forall series | Permutes(w, tasks, series) ::
               |series| == |tasks| && Answers(w, tasks, ByInstrument(tasks, series)))
            <==> DistinctKeys(tasks) || SameAnswers(w, tasks)
  {
    if DistinctKeys(tasks) {
      forall series | Permutes(w, tasks, series)
        ensures |series| == |tasks| && Answers(w, tasks, ByInstrument(tasks, series))
      {
        DistinctAnswers(w, tasks, series);
      }
    } else if SameAnswers(w, tasks) {
      forall series | Permutes(w, tasks, series)
        ensures |series| == |tasks| && Answers(w, tasks, ByInstrument(tasks, series))
      {
        KeyedSize(w, tasks, series);
        SameAnswersZip(w, tasks, series);
      }
    } else {
      var t, u :| t in tasks && u in tasks && w.answer(TaskKey(t)) != w.answer(TaskKey(u));
      var i :| 0 <= i < |tasks| && tasks[i] == t;
      var k :| 0 <= k < |tasks| && tasks[k] == u;
      RepeatedKeyMixesUp(w, tasks, i, k);
    }
  }

  // ---- A batch equals its tasks one by one ---------------------------------------------------

  predicate Files(w: World, produced: Produced, t: Task) {
    TaskKey(t) in produced && produced[TaskKey(t)] == Alone(w, t)
  }

  lemma {:induction false} GapsFile(w: World, tasks: seq<Task>, t: Task)
    requires DistinctKeys(tasks) && t in tasks && !Prepared(w, t)
    ensures Files(w, Gaps(w, tasks), t)
  {
    var before, last := tasks[..|tasks| - 1], tasks[|tasks| - 1];
    assert tasks == before + [last];
    if t != last {
      GapsFile(w, before, t);
      DifferentKeys(before, last, t);
    }
  }

  lemma DifferentKeys(before: seq<Task>, last: Task, t: Task)
    requires DistinctKeys(before + [last]) && t in before
    ensures TaskKey(t) != TaskKey(last)
  {
    LastKey(before, last);
  }

  lemma ServeOneFiles(w: World, t: Task, found: map<Key, Series>, produced: Produced)
    requires Prepared(w, t) && Answers(w, [t], found)
    ensures ServeOne(w, t, found, produced) ==
            if Servable(w, t) then Ok(produced[TaskKey(t) := Alone(w, t)])
            else Err("worker returned a mismatched horizon")
  {
    assert t in [t];
  }

  lemma {:induction false} ServeFiles(w: World, tasks: seq<Task>, found: map<Key, Series>, produced: Produced)
    requires DistinctKeys(tasks) && Answers(w, tasks, found) && forall t | t in tasks :: Prepared(w, t)
    ensures Serve(w, tasks, found, produced).Ok? <==> AllServable(w, tasks)
    ensures Serve(w, tasks, found, produced).Ok? ==>
              forall t | t in tasks :: Files(w, Serve(w, tasks, found, produced).value, t)
  {
    if tasks != [] {
      var before, last := tasks[..|tasks| - 1], tasks[|tasks| - 1];
      assert tasks == before + [last];
      LastKey(before, last);
      ServeFiles(w, before, found, produced);
      if Serve(w, before, found, produced).Ok? {
        ServeOneFiles(w, last, found, Serve(w, before, found, produced).value);
      }
    }
  }

  lemma {:induction false} ServeKeeps(w: World, tasks: seq<Task>, found: map<Key, Series>, produced: Produced, key: Key)
    requires key in produced && forall t | t in tasks :: TaskKey(t) != key
    ensures Serve(w, tasks, found, produced).Ok? ==>
              key in Serve(w, tasks, found, produced).value
              && Serve(w, tasks, found, produced).value[key] == produced[key]
  {
    if tasks != [] {
      ServeKeeps(w, tasks[..|tasks| - 1], found, produced, key);
    }
  }

  lemma {:induction false} CollectFiles(w: World, tasks: seq<Task>, produced: Produced)
    requires forall t | t in tasks :: Files(w, produced, t)
    ensures Holds(produced, tasks) && Collect(tasks, produced) == OneByOne(w, tasks)
  {
    if tasks != [] {
      CollectFiles(w, tasks[..|tasks| - 1], produced);
      assert tasks[|tasks| - 1] in tasks;
    }
  }

  lemma SameKeySameTask(tasks: seq<Task>, t: Task, u: Task)
    requires DistinctKeys(tasks) && t in tasks && u in tasks && TaskKey(t) == TaskKey(u)
    ensures t == u
  {
    var i :| 0 <= i < |tasks| && tasks[i] == t;
    var j :| 0 <= j < |tasks| && tasks[j] == u;
  }

  /** A response to the available tasks of a batch: their series, in any order. */
  predicate Faithful(w: World, tasks: seq<Task>, response: Response) {
    Available(w, tasks) != [] ==> response.Reply? && Permutes(w, Available(w, tasks), response.series)
  }

  lemma ReceiveFiles(w: World, tasks: seq<Task>, response: Response, produced: Produced)
    requires DistinctKeys(tasks) && Faithful(w, tasks, response) && Available(w, tasks) != []
    ensures var r := Receive(w, Available(w, tasks), response, produced);
            (r.Ok? <==> AllServable(w, Available(w, tasks)))
            && (r.Ok? ==> forall t | t in Available(w, tasks) :: Files(w, r.value, t))
  {
    AvailableSubset(w, tasks);
    DistinctAnswers(w, Available(w, tasks), response.series);
    ServeFiles(w, Available(w, tasks), ByInstrument(Available(w, tasks), response.series), produced);
  }

  lemma ReceiveKeeps(w: World, tasks: seq<Task>, response: Response, produced: Produced, t: Task)
    requires DistinctKeys(tasks) && t in tasks && !Prepared(w, t) && Files(w, produced, t)
    ensures var r := Receive(w, Available(w, tasks), response, produced); r.Ok? ==> Files(w, r.value, t)
  {
    AvailableSubset(w, tasks);
    forall u | u in Available(w, tasks) ensures TaskKey(u) != TaskKey(t) {
      if TaskKey(u) == TaskKey(t) {
        SameKeySameTask(tasks, t, u);
      }
    }
    if response.Reply? && |response.series| == |Available(w, tasks)| {
      ServeKeeps(w, Available(w, tasks), ByInstrument(Available(w, tasks), response.series), produced, TaskKey(t));
    }
  }

  lemma ServableAvailable(w: World, tasks: seq<Task>)
    ensures AllServable(w, Available(w, tasks)) <==> AllServable(w, tasks)
  {
    AvailableSubset(w, tasks);
  }

  lemma AnsweredFiles(w: World, tasks: seq<Task>, response: Response, t: Task)
    requires DistinctKeys(tasks) && Faithful(w, tasks, response) && t in tasks
    requires Answered(w, tasks, response).Ok?
    ensures Files(w, Answered(w, tasks, response).value, t)
  {
    AvailableSubset(w, tasks);
    if Prepared(w, t) {
      ReceiveFiles(w, tasks, response, Gaps(w, tasks));
    } else {
      GapsFile(w, tasks, t);
      ReceiveKeeps(w, tasks, response, Gaps(w, tasks), t);
    }
  }

  /**
   Batching is transparent. With distinct keys and a deterministic worker, a batch succeeds exactly
   when every task would succeed alone, and its records are those of its tasks one by one: whatever
   the order of the response and wherever the unavailable tasks stand.
   */
  lemma BatchIsOneByOne(w: World, tasks: seq<Task>, response: Response)
    requires DistinctKeys(tasks) && Faithful(w, tasks, response)
    ensures BatchRecords(w, tasks, response).Ok? <==> AllServable(w, tasks)
    ensures BatchRecords(w, tasks, response).Ok? ==> BatchRecords(w, tasks, response).value == OneByOne(w, tasks)
  {
    ServableAvailable(w, tasks);
    if Available(w, tasks) != [] {
      ReceiveFiles(w, tasks, response, Gaps(w, tasks));
    }
    if Answered(w, tasks, response).Ok? {
      forall t | t in tasks ensures Files(w, Answered(w, tasks, response).value, t) {
        AnsweredFiles(w, tasks, response, t);
      }
      CollectFiles(w, tasks, Answered(w, tasks, response).value);
    }
  }

  // ---- The runner's batch loop --------------------------------------------------------------

  method ReadResponse(tasks: seq<Task>, series: seq<Series>) returns (found: map<Key, Series>)
    requires |tasks| == |series|
    ensures found == ByInstrument(tasks, series)
  {
    found := map[];
    for i := 0 to |series|
      invariant found == Keyed(series[..i])
    {
      assert series[..i + 1][..i] == series[..i];
      if series[i].instrument.Some? {
        found := found[series[i].instrument.value := series[i]];
      }
    }
    assert series[..|series|] == series;
    if |found| != |series| {
      found := map[];
      for i := 0 to |series|
        invariant found == Zipped(tasks[..i], series[..i])
      {
        assert series[..i + 1][..i] == series[..i] && tasks[..i + 1][..i] == tasks[..i];
        found := found[TaskKey(tasks[i]) := series[i]];
      }
      assert tasks[..|tasks|] == tasks;
    }
  }

  method Prepare(w: World, tasks: seq<Task>) returns (available: seq<Task>, produced: Produced)
    ensures available == Available(w, tasks) && produced == Gaps(w, tasks)
  {
    available, produced := [], map[];
    for i := 0 to |tasks|
      invariant available == Available(w, tasks[..i]) && produced == Gaps(w, tasks[..i])
    {
      assert tasks[..i + 1][..i] == tasks[..i];
      if w.prepared(TaskKey(tasks[i])) {
        available := available + [tasks[i]];
      } else {
        produced := produced[TaskKey(tasks[i]) := TaskRecords(w, tasks[i], "")];
      }
    }
    assert tasks[..|tasks|] == tasks;
  }

  /** The request and the loop over the available tasks. */
  method Request(w: World, available: seq<Task>, response: Response, gaps: Produced) returns (r: Result<Produced>)
    ensures r == Receive(w, available, response, gaps)
  {
    match response {
      case NoResponse => return Err("worker request failed after retries");
      case WorkerUnavailable => return Err("worker returned unavailable");
      case WrongModel => return Err("worker returned the wrong model lane");
      case Reply(series) =>
        if |series| != |available| {
          return Err("worker returned a mismatched series batch size");
        }
        var found := ReadResponse(available, series);
        r := Ok(gaps);
        for i := 0 to |available|
          invariant r == Serve(w, available[..i], found, gaps)
        {
          assert available[..i + 1][..i] == available[..i];
          if r.Ok? {
            r := ServeOne(w, available[i], found, r.value);
          }
        }
        assert available[..|available|] == available;
    }
  }

  /** One batch of the runner, from its prepared tasks to the records that are appended to the log. */
  method RunTaskBatch(w: World, tasks: seq<Task>, response: Response) returns (r: Result<seq<Record>>)
    ensures r == BatchRecords(w, tasks, response)
  {
    var available, gaps := Prepare(w, tasks);
    var answered := Ok(gaps);
    if available != [] {
      answered := Request(w, available, response, gaps);
    }
    if answered.Err? {
      return Err(answered.reason);
    }
    AnsweredHolds(w, tasks, response);
    var records: seq<Record> := [];
    for i := 0 to |tasks|
      invariant Holds(answered.value, tasks[..i]) && records == Collect(tasks[..i], answered.value)
    {
      assert tasks[..i + 1][..i] == tasks[..i];
      records := records + answered.value[TaskKey(tasks[i])];
    }
    assert tasks[..|tasks|] == tasks;
    return Ok(records);
  }

  lemma {:induction false} OneByOneConcat(w: World, a: seq<Task>, b: seq<Task>)
    ensures OneByOne(w, a + b) == OneByOne(w, a) + OneByOne(w, b)
  {
    if b == [] {
      assert a + b == a;
    } else {
      assert (a + b)[..|a + b| - 1] == a + b[..|b| - 1];
      OneByOneConcat(w, a, b[..|b| - 1]);
    }
  }

  function Least(a: nat, b: nat): nat {
    if a <= b then a else b
  }

  /** All batches of the pending tasks in turn; the first failure ends the run. */
  function Batches(run: Runner, tasks: seq<Task>, size: nat): Result<seq<Record>>
    requires size >= 1
  {
    if tasks == [] then Ok([]) else
      var end := Least(size, |tasks|);
      var first := run(tasks[..end]);
      if first.Err? then first else Prepend(first.value, Batches(run, tasks[end..], size))
  }

  /** What one batch yields. */
  type Runner = seq<Task> -> Result<seq<Record>>

  function RunnerOf(w: World, worker: seq<Task> -> Response): Runner {
    (batch: seq<Task>) => BatchRecords(w, batch, worker(batch))
  }

  function Prepend(records: seq<Record>, rest: Result<seq<Record>>): Result<seq<Record>> {
    if rest.Err? then rest else Ok(records + rest.value)
  }

  /** A worker that answers every batch of these tasks. */
  predicate FaithfulWorker(w: World, tasks: seq<Task>, worker: seq<Task> -> Response) {
    forall i, j | 0 <= i <= j <= |tasks| :: Faithful(w, tasks[i..j], worker(tasks[i..j]))
  }

  lemma PartOfPart(tasks: seq<Task>, end: nat, i: nat, j: nat)
    requires end <= |tasks| && i <= j <= |tasks| - end
    ensures tasks[end..][i..j] == tasks[end + i..end + j]
  {
  }

  lemma FaithfulParts(w: World, tasks: seq<Task>, worker: seq<Task> -> Response, end: nat)
    requires FaithfulWorker(w, tasks, worker) && end <= |tasks|
    ensures Faithful(w, tasks[..end], worker(tasks[..end])) && FaithfulWorker(w, tasks[end..], worker)
  {
    assert tasks[..end] == tasks[0..end];
    forall i, j | 0 <= i <= j <= |tasks[end..]| ensures Faithful(w, tasks[end..][i..j], worker(tasks[end..][i..j])) {
      PartOfPart(tasks, end, i, j);
    }
  }

  lemma ServableParts(w: World, tasks: seq<Task>, end: nat)
    requires end <= |tasks|
    ensures AllServable(w, tasks) <==> AllServable(w, tasks[..end]) && AllServable(w, tasks[end..])
  {
    assert tasks == tasks[..end] + tasks[end..];
  }

  /**
   Every batch size gives the same records. With distinct keys and a deterministic worker the pending
   batches succeed exactly when every task would succeed alone, and they log the tasks one by one.
   */
  lemma {:induction false} BatchesAreOneByOne(w: World, tasks: seq<Task>, size: nat, worker: seq<Task> -> Response)
    requires size >= 1 && DistinctKeys(tasks) && FaithfulWorker(w, tasks, worker)
    ensures Batches(RunnerOf(w, worker), tasks, size).Ok? <==> AllServable(w, tasks)
    ensures Batches(RunnerOf(w, worker), tasks, size).Ok? ==>
              Batches(RunnerOf(w, worker), tasks, size).value == OneByOne(w, tasks)
  {
    if tasks != [] {
      var end := Least(size, |tasks|);
      DistinctParts(tasks, end);
      FaithfulParts(w, tasks, worker, end);
      ServableParts(w, tasks, end);
      BatchIsOneByOne(w, tasks[..end], worker(tasks[..end]));
      BatchesAreOneByOne(w, tasks[end..], size, worker);
      OneByOneParts(w, tasks, end);
    }
  }

  lemma DistinctParts(tasks: seq<Task>, end: nat)
    requires DistinctKeys(tasks) && end <= |tasks|
    ensures DistinctKeys(tasks[..end]) && DistinctKeys(tasks[end..])
  {
  }

  lemma OneByOneParts(w: World, tasks: seq<Task>, end: nat)
    requires end <= |tasks|
    ensures OneByOne(w, tasks) == OneByOne(w, tasks[..end]) + OneByOne(w, tasks[end..])
  {
    OneByOneConcat(w, tasks[..end], tasks[end..]);
    assert tasks == tasks[..end] + tasks[end..];
  }

  lemma PrependTwice(a: seq<Record>, b: seq<Record>, rest: Result<seq<Record>>)
    ensures Prepend(a, Prepend(b, rest)) == Prepend(a + b, rest)
  {
    if rest.Ok? {
      assert a + (b + rest.value) == (a + b) + rest.value;
    }
  }

  lemma PrependNothing(rest: Result<seq<Record>>)
    ensures Prepend([], rest) == rest
  {
    if rest.Ok? {
      assert [] + rest.value == rest.value;
    }
  }

  /** The batches from one offset on, given the records of the batch at that offset. */
  lemma BatchesStep(run: Runner, tasks: seq<Task>, size: nat, offset: nat, end: nat)
    requires size >= 1 && offset < |tasks| && end == offset + Least(size, |tasks| - offset)
    ensures var first := run(tasks[offset..end]);
            Batches(run, tasks[offset..], size)
            == if first.Err? then first else Prepend(first.value, Batches(run, tasks[end..], size))
  {
    assert tasks[offset..][..end - offset] == tasks[offset..end];
    assert tasks[offset..][end - offset..] == tasks[end..];
  }

  lemma BatchesAdvance(run: Runner, tasks: seq<Task>, size: nat, offset: nat, end: nat,
                       records: seq<Record>, total: Result<seq<Record>>)
    requires size >= 1 && offset < |tasks| && end == offset + Least(size, |tasks| - offset)
    requires Prepend(records, Batches(run, tasks[offset..], size)) == total
    ensures var first := run(tasks[offset..end]);
            if first.Err? then first == total
            else Prepend(records + first.value, Batches(run, tasks[end..], size)) == total
  {
    BatchesStep(run, tasks, size, offset, end);
    var first := run(tasks[offset..end]);
    if first.Ok? {
      PrependTwice(records, first.value, Batches(run, tasks[end..], size));
    }
  }

  /** The loop over the pending batches. */
  method RunPendingBatches(w: World, tasks: seq<Task>, batchSize: nat, worker: seq<Task> -> Response)
    returns (r: Result<seq<Record>>)
    requires batchSize >= 1
    ensures r == Batches(RunnerOf(w, worker), tasks, batchSize)
  {
    ghost var run := RunnerOf(w, worker);
    ghost var total := Batches(run, tasks, batchSize);
    var offset := 0;
    var records: seq<Record> := [];
    assert tasks[0..] == tasks;
    PrependNothing(total);
    while offset < |tasks|
      invariant offset <= |tasks|
      invariant Prepend(records, Batches(run, tasks[offset..], batchSize)) == total
    {
      var end := offset + Least(batchSize, |tasks| - offset);
      var batch := tasks[offset..end];
      BatchesAdvance(run, tasks, batchSize, offset, end, records, total);
      var produced := RunTaskBatch(w, batch, worker(batch));
      assert produced == run(batch);
      if produced.Err? {
        return produced;
      }
      records := records + produced.value;
      offset := end;
    }
    assert tasks[offset..] == [] && records + [] == records;
    return Ok(records);
  }

  /** The records of the tasks one by one are the record groups that the resumable run logs and validates. */
  lemma {:induction false} OneByOneIsGroups(w: World, tasks: seq<Task>, forecast: (Task, int) -> string)
    requires forall t, h :: forecast(t, h) == Payload(w, t, h, w.answer(TaskKey(t)))
    ensures OneByOne(w, tasks) == Groups(tasks, forecast)
  {
    if tasks != [] {
      var before, last := tasks[..|tasks| - 1], tasks[|tasks| - 1];
      OneByOneIsGroups(w, before, forecast);
      var gs := Groups(tasks, forecast);
      forall i: nat | i < |gs| ensures gs[i] == (Groups(before, forecast) + Alone(w, last))[i] {
        if i < 4 * |before| {
          assert tasks[i / 4] == before[i / 4];
        } else {
          assert i / 4 == |before| && i % 4 == i - 4 * |before|;
        }
      }
    }
  }
}
