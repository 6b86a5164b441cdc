/**
 The Rust evidence cache of the backtest: a recoverable JSON-lines file keyed by symbol and origin.
 Batches are appended in task order; a run that gets through all tasks rewrites the file, sorted.
 The rewrite truncates the file and writes it in place, so a crash can leave any prefix of it.
 */
module RustCache {
  import opened Wrappers
  import opened JsonLines
  import opened RecoverableLog
  import opened Sequences

  datatype Key = Key(symbol: string, originAt: string)

  datatype Row = Row(key: Key, payload: string)

  // ---- Keys of rows ------------------------------------------------------------------------

  lemma DistinctAppend(a: seq<Key>, b: seq<Key>)
    ensures Elements(a + b) == Elements(a) + Elements(b)
    ensures Distinct(a) && Distinct(b) && Elements(a) !! Elements(b) ==> Distinct(a + b)
  {
    var s := a + b;
    if Distinct(a) && Distinct(b) && Elements(a) !! Elements(b) {
      forall i, j | 0 <= i < j < |s|
        ensures s[i] != s[j]
      {
        if i < |a| <= j {
          assert s[i] in Elements(a) && s[j] in Elements(b);
        }
      }
    }
  }

  function Keys(rows: seq<Row>): (ks: seq<Key>)
    ensures |ks| == |rows| && forall i | 0 <= i < |rows| :: ks[i] == rows[i].key
  {
    seq(|rows|, i requires 0 <= i < |rows| => rows[i].key)
  }

  lemma KeysAppend(a: seq<Row>, b: seq<Row>)
    ensures Keys(a + b) == Keys(a) + Keys(b)
  {
  }

  // ---- Promises -----------------------------------------------------------------------------

  /** Distinct tasks of the plan, in any order. */
  ghost predicate Owned(tasks: seq<Key>, done: seq<Key>) {
    Distinct(done) && Elements(done) <= Elements(tasks)
  }

  /** The first tasks, in order; or all of them, in any order. */
  ghost predicate Covered(tasks: seq<Key>, done: seq<Key>) {
    || (|done| <= |tasks| && done == tasks[..|done|])
    || (|done| == |tasks| && Owned(tasks, done))
  }

  /** What the cached rows can be counted on to be. */
  datatype Promise = AnyTasks | TaskPrefix | TaskOrder

  ghost predicate Kept(promise: Promise, tasks: seq<Key>, done: seq<Key>) {
    match promise
    case AnyTasks => Owned(tasks, done)
    case TaskPrefix => Covered(tasks, done)
    case TaskOrder => done <= tasks
  }

  ghost function Promised(promise: Promise, tasks: seq<Key>): seq<Row> -> bool {
    rows => Kept(promise, tasks, Keys(rows))
  }

  /** A covered set of tasks is the set of the first tasks of the plan. */
  lemma CoveredIsPrefix(tasks: seq<Key>, done: seq<Key>)
    requires Distinct(tasks) && Covered(tasks, done)
    ensures |done| <= |tasks| && Elements(done) == Elements(tasks[..|done|])
  {
    if done != tasks[..|done|] {
      AllOwned(tasks, done);
      assert tasks[..|done|] == tasks;
    }
  }

  lemma AllOwned(tasks: seq<Key>, done: seq<Key>)
    requires Distinct(tasks) && Owned(tasks, done) && |done| == |tasks|
    ensures Elements(done) == Elements(tasks)
  {
    DistinctSize(tasks);
    DistinctSize(done);
    SubsetOfEqualSize(Elements(done), Elements(tasks));
  }

  lemma SubsetOfEqualSize(a: set<Key>, b: set<Key>)
    requires a <= b && |a| == |b|
    ensures a == b
  {
    assert b == a + (b - a);
  }

  // ---- Pending tasks -----------------------------------------------------------------------

  /** The tasks whose key is not cached yet, in plan order. */
  function Pending(tasks: seq<Key>, done: set<Key>): (p: seq<Key>)
    ensures forall k :: k in p <==> k in tasks && k !in done
  {
    if tasks == [] then []
    else if tasks[0] in done then Pending(tasks[1..], done)
    else [tasks[0]] + Pending(tasks[1..], done)
  }

  lemma {:induction false} PendingDistinct(tasks: seq<Key>, done: set<Key>)
    requires Distinct(tasks)
    ensures Distinct(Pending(tasks, done))
  {
    if tasks != [] {
      PendingDistinct(tasks[1..], done);
      assert tasks[0] !in tasks[1..];
    }
  }

  lemma {:induction false} PendingSplit(a: seq<Key>, b: seq<Key>, done: set<Key>)
    ensures Pending(a + b, done) == Pending(a, done) + Pending(b, done)
  {
    if a == [] {
      assert a + b == b;
    } else {
      assert (a + b)[1..] == a[1..] + b;
      PendingSplit(a[1..], b, done);
    }
  }

  lemma {:induction false} PendingAllOrNone(tasks: seq<Key>, done: set<Key>)
    ensures Elements(tasks) <= done ==> Pending(tasks, done) == []
    ensures Elements(tasks) !! done ==> Pending(tasks, done) == tasks
  {
    if tasks != [] {
      PendingAllOrNone(tasks[1..], done);
      assert tasks[0] in Elements(tasks) && Elements(tasks[1..]) <= Elements(tasks);
    }
  }

  lemma DisjointParts(a: seq<Key>, b: seq<Key>)
    requires Distinct(a + b)
    ensures Elements(b) !! Elements(a)
  {
    forall k | k in a
      ensures k !in b
    {
      var i :| 0 <= i < |a| && a[i] == k;
      assert (a + b)[i] == k;
      assert forall j | 0 <= j < |b| :: (a + b)[|a| + j] == b[j];
    }
  }

  lemma PendingOfRest(a: seq<Key>, b: seq<Key>)
    requires Distinct(a + b)
    ensures Pending(a + b, Elements(a)) == b
  {
    DisjointParts(a, b);
    PendingSplit(a, b, Elements(a));
    PendingAllOrNone(a, Elements(a));
    PendingAllOrNone(b, Elements(a));
  }

  /** What is left after a prefix is exactly the rest of the plan. */
  lemma PendingAfterPrefix(tasks: seq<Key>, n: nat)
    requires Distinct(tasks) && n <= |tasks|
    ensures Pending(tasks, Elements(tasks[..n])) == tasks[n..]
  {
    assert tasks == tasks[..n] + tasks[n..];
    PendingOfRest(tasks[..n], tasks[n..]);
  }

  lemma KeptIsOwned(p: Promise, tasks: seq<Key>, done: seq<Key>)
    requires Distinct(tasks) && Kept(p, tasks, done)
    ensures Owned(tasks, done)
  {
    if done <= tasks {
      assert forall k | k in done :: k in tasks;
    }
  }

  lemma PendingIsOwned(tasks: seq<Key>, done: seq<Key>, j: nat)
    requires Distinct(tasks) && Owned(tasks, done) && j <= |Pending(tasks, Elements(done))|
    ensures Owned(tasks, done + Pending(tasks, Elements(done))[..j])
  {
    var pending := Pending(tasks, Elements(done));
    PendingDistinct(tasks, Elements(done));
    assert forall k | k in pending[..j] :: k in pending;
    DistinctAppend(done, pending[..j]);
  }

  /** However many pending tasks a run gets through, the promise holds. */
  lemma PendingKeepsPromise(p: Promise, tasks: seq<Key>, done: seq<Key>, j: nat)
    requires Distinct(tasks) && Kept(p, tasks, done) && j <= |Pending(tasks, Elements(done))|
    ensures Kept(p, tasks, done + Pending(tasks, Elements(done))[..j])
  {
    if p == AnyTasks {
      PendingIsOwned(tasks, done, j);
    } else if done <= tasks {
      PendingAfterPrefix(tasks, |done|);
      assert tasks[..|done|] == done;
      assert done + tasks[|done|..][..j] == tasks[..|done| + j];
    } else {
      AllOwned(tasks, done);
      PendingAllOrNone(tasks, Elements(done));
      assert done + Pending(tasks, Elements(done))[..j] == done;
    }
  }

  /** Done and pending tasks are together all of the plan. */
  lemma PendingCompletes(p: Promise, tasks: seq<Key>, done: seq<Key>)
    requires Distinct(tasks) && Kept(p, tasks, done)
    ensures var all := done + Pending(tasks, Elements(done)); Owned(tasks, all) && |all| == |tasks|
  {
    var pending := Pending(tasks, Elements(done));
    KeptIsOwned(p, tasks, done);
    PendingIsOwned(tasks, done, |pending|);
    assert pending[..|pending|] == pending;
    SameSize(tasks, done, pending);
  }

  lemma SameSize(tasks: seq<Key>, done: seq<Key>, pending: seq<Key>)
    requires Distinct(tasks) && Distinct(done + pending) && Elements(done) <= Elements(tasks)
    requires pending == Pending(tasks, Elements(done))
    ensures |done + pending| == |tasks|
  {
    DistinctAppend(done, pending);
    assert Elements(done + pending) == Elements(tasks);
    DistinctSize(tasks);
    DistinctSize(done + pending);
  }

  // ---- The final rewrite -------------------------------------------------------------------

  function Insert(leq: (Key, Key) -> bool, r: Row, rows: seq<Row>): seq<Row> {
    if rows == [] || leq(r.key, rows[0].key) then [r] + rows else [rows[0]] + Insert(leq, r, rows[1..])
  }

  function Sort(leq: (Key, Key) -> bool, rows: seq<Row>): seq<Row> {
    if rows == [] then [] else Insert(leq, rows[0], Sort(leq, rows[1..]))
  }

  lemma {:induction false} InsertKeys(leq: (Key, Key) -> bool, r: Row, rows: seq<Row>)
    requires Distinct(Keys(rows)) && r.key !in Keys(rows)
    ensures Distinct(Keys(Insert(leq, r, rows)))
    ensures Elements(Keys(Insert(leq, r, rows))) == Elements(Keys(rows)) + {r.key}
    ensures |Insert(leq, r, rows)| == |rows| + 1
  {
    if rows == [] || leq(r.key, rows[0].key) {
      KeysAppend([r], rows);
      DistinctAppend([r.key], Keys(rows));
      assert Keys([r]) == [r.key];
    } else {
      HeadKey(rows);
      InsertKeys(leq, r, rows[1..]);
      var rest := Insert(leq, r, rows[1..]);
      KeysAppend([rows[0]], rest);
      assert Keys([rows[0]]) == [rows[0].key];
      DistinctAppend([rows[0].key], Keys(rows[1..]));
      DistinctAppend([rows[0].key], Keys(rest));
    }
  }

  lemma HeadKey(rows: seq<Row>)
    requires rows != []
    ensures Keys(rows) == [rows[0].key] + Keys(rows[1..])
    ensures Distinct(Keys(rows)) ==> Distinct(Keys(rows[1..])) && rows[0].key !in Keys(rows[1..])
  {
    assert Keys(rows)[1..] == Keys(rows[1..]);
  }

  lemma {:induction false} SortKeys(leq: (Key, Key) -> bool, rows: seq<Row>)
    requires Distinct(Keys(rows))
    ensures Distinct(Keys(Sort(leq, rows))) && Elements(Keys(Sort(leq, rows))) == Elements(Keys(rows))
    ensures |Sort(leq, rows)| == |rows|
  {
    if rows != [] {
      HeadKey(rows);
      DistinctAppend([rows[0].key], Keys(rows[1..]));
      SortKeys(leq, rows[1..]);
      InsertKeys(leq, rows[0], Sort(leq, rows[1..]));
    }
  }

  /** The plan is in the order of the file. */
  predicate InFileOrder(leq: (Key, Key) -> bool, tasks: seq<Key>) {
    forall i | 0 <= i < |tasks| - 1 :: leq(tasks[i], tasks[i + 1])
  }

  /** Sorting leaves rows where they are exactly when each may stand before the next. */
  lemma {:induction false} SortKeepsIff(leq: (Key, Key) -> bool, rows: seq<Row>)
    requires Distinct(Keys(rows))
    ensures Keys(Sort(leq, rows)) == Keys(rows) <==> InFileOrder(leq, Keys(rows))
  {
    if rows != [] {
      var rest := Sort(leq, rows[1..]);
      HeadKey(rows);
      SortKeepsIff(leq, rows[1..]);
      SortKeys(leq, rows[1..]);
      InFileOrderTail(leq, Keys(rows));
      if |rows| > 1 {
        InsertedFirst(leq, rows[0], rest);
      }
    }
  }

  lemma InFileOrderTail(leq: (Key, Key) -> bool, keys: seq<Key>)
    requires keys != []
    ensures InFileOrder(leq, keys)
            <==> InFileOrder(leq, keys[1..]) && (|keys| > 1 ==> leq(keys[0], keys[1]))
  {
    if InFileOrder(leq, keys[1..]) && (|keys| > 1 ==> leq(keys[0], keys[1])) {
      forall i | 0 <= i < |keys| - 1
        ensures leq(keys[i], keys[i + 1])
      {
        assert i > 0 ==> keys[1..][i - 1] == keys[i] && keys[1..][i] == keys[i + 1];
      }
    }
  }

  /** A new row comes first exactly when it may stand before the first row there is. */
  lemma InsertedFirst(leq: (Key, Key) -> bool, r: Row, rows: seq<Row>)
    requires rows != [] && r.key !in Keys(rows)
    ensures leq(r.key, rows[0].key) ==> Keys(Insert(leq, r, rows)) == [r.key] + Keys(rows)
    ensures !leq(r.key, rows[0].key) ==> Insert(leq, r, rows) != [] && Keys(Insert(leq, r, rows))[0] != r.key
  {
    assert rows[0].key == Keys(rows)[0];
  }

  /** `atomicJsonLines` joins the rows and adds one line break, so no rows at all give a blank line. */
  function RewriteText(c: Codec<Row>, rows: seq<Row>): string {
    if rows == [] then "\n" else Log(c, rows)
  }

  /** The file between runs. */
  ghost predicate CacheInv(c: Codec<Row>, p: Promise, tasks: seq<Key>, log: string) {
    (tasks == [] && log == "\n") || LogInv(c, Promised(p, tasks), log)
  }

  /** A whole rewrite keeps every promise that its rows keep; a torn one is safe if all their prefixes are. */
  lemma RewriteKeepsInv(c: Codec<Row>, p: Promise, tasks: seq<Key>, rows: seq<Row>, w: string)
    requires Faithful(c) && w <= RewriteText(c, rows) && |rows| == |tasks|
    requires if p == TaskOrder then Keys(rows) == tasks else Owned(tasks, Keys(rows))
    requires p == TaskPrefix ==> w == RewriteText(c, rows)
    ensures CacheInv(c, p, tasks, w)
  {
    var good := Promised(p, tasks);
    if rows == [] {
      assert w == "" || w == "\n";
      if w == "" {
        assert good(rows) && w == Log(c, rows);
      }
    } else if w == Log(c, rows) {
      assert good(rows);
    } else {
      PrefixesAreKept(p, tasks, rows);
      AppendToClean(c, good, [], rows, w);
      assert Log(c, []) + w == w;
    }
  }

  lemma PrefixesAreKept(p: Promise, tasks: seq<Key>, rows: seq<Row>)
    requires |rows| == |tasks| && p != TaskPrefix
    requires if p == TaskOrder then Keys(rows) == tasks else Owned(tasks, Keys(rows))
    ensures forall j: nat | j <= |rows| :: GoodWith(Promised(p, tasks), [], rows, j)
  {
    forall j: nat | j <= |rows|
      ensures GoodWith(Promised(p, tasks), [], rows, j)
    {
      assert Keys([] + rows[..j]) == Keys(rows)[..j];
    }
  }

  /** The invariant says what recovery returns. */
  lemma RecoveredRows(c: Codec<Row>, p: Promise, tasks: seq<Key>, log: string)
    requires Faithful(c) && CacheInv(c, p, tasks, log)
    ensures Recover(c, log).Some? ==> Kept(p, tasks, Keys(Recover(c, log).value))
    ensures Recover(c, log).Some? ==>
              (tasks == [] && log == "\n") || LiveInv(c, Promised(p, tasks), log, Recover(c, log).value)
  {
    RecoverNothing(c);
    if !(tasks == [] && log == "\n") {
      RecoveryIsGoodOrRejection(c, Promised(p, tasks), log);
    } else {
      assert Keys([]) == [];
    }
  }

  // ---- What one invocation does to the file --------------------------------------------------

  /**
   How an invocation leaves the file: unread and rejected; with part of the evidence of the pending tasks
   appended; or, once all of it was appended, replaced by part of the sorted text. `added` is the evidence
   of all pending tasks, `written` the part that reached the disk.
   */
  datatype Visit = Refused | Appended(added: seq<Row>, written: string) | Rewritten(added: seq<Row>, written: string)

  function SortedText(c: Codec<Row>, leq: (Key, Key) -> bool, rows: seq<Row>): string {
    RewriteText(c, Sort(leq, rows))
  }

  ghost predicate Possible(c: Codec<Row>, tasks: seq<Key>, leq: (Key, Key) -> bool, log: string, v: Visit) {
    match Recover(c, log)
    case None => v.Refused?
    case Some(rows) =>
      && !v.Refused? && Keys(v.added) == Pending(tasks, Elements(Keys(rows)))
      && v.written <= if v.Appended? then Log(c, v.added) else SortedText(c, leq, rows + v.added)
  }

  /** The sorted text reached the disk as a whole. */
  ghost predicate Whole(c: Codec<Row>, leq: (Key, Key) -> bool, log: string, v: Visit) {
    v.Rewritten? && Recover(c, log).Some? && v.written == SortedText(c, leq, Recover(c, log).value + v.added)
  }

  function FileAfter(log: string, v: Visit): string {
    match v
    case Refused => log
    case Appended(_, written) => log + written
    case Rewritten(_, written) => written
  }

  /** Rows for the known tasks and any number of pending ones are good. */
  lemma PendingIsGood(p: Promise, tasks: seq<Key>, rows: seq<Row>, added: seq<Row>)
    requires Distinct(tasks) && Kept(p, tasks, Keys(rows)) && Keys(added) == Pending(tasks, Elements(Keys(rows)))
    ensures forall j: nat | j <= |added| :: GoodWith(Promised(p, tasks), rows, added, j)
  {
    forall j: nat | j <= |added|
      ensures GoodWith(Promised(p, tasks), rows, added, j)
    {
      KeysAppend(rows, added[..j]);
      assert Keys(added[..j]) == Keys(added)[..j];
      PendingKeepsPromise(p, tasks, Keys(rows), j);
    }
  }

  lemma AppendedKeepsInv(c: Codec<Row>, p: Promise, tasks: seq<Key>, log: string, rows: seq<Row>, added: seq<Row>,
                         written: string)
    requires Faithful(c) && Distinct(tasks) && CacheInv(c, p, tasks, log) && Recover(c, log) == Some(rows)
    requires Keys(added) == Pending(tasks, Elements(Keys(rows))) && written <= Log(c, added)
    ensures CacheInv(c, p, tasks, log + written)
  {
    RecoveredRows(c, p, tasks, log);
    if tasks == [] && log == "\n" {
      assert added == [];
      assert log + written == log;
    } else {
      PendingIsGood(p, tasks, rows, added);
      AppendKeepsInv(c, Promised(p, tasks), log, rows, added, written);
    }
  }

  /** What is sorted in the end: one row for every task, and in task order if that is how the file was. */
  lemma SortedRows(p: Promise, tasks: seq<Key>, leq: (Key, Key) -> bool, rows: seq<Row>, added: seq<Row>)
    requires Distinct(tasks) && Kept(p, tasks, Keys(rows)) && Keys(added) == Pending(tasks, Elements(Keys(rows)))
    ensures var sorted := Sort(leq, rows + added); Owned(tasks, Keys(sorted)) && |sorted| == |tasks|
    ensures p == TaskOrder && InFileOrder(leq, tasks) ==> Keys(Sort(leq, rows + added)) == tasks
  {
    var all := rows + added;
    KeysAppend(rows, added);
    PendingCompletes(p, tasks, Keys(rows));
    SortKeys(leq, all);
    if p == TaskOrder {
      PendingAfterPrefix(tasks, |rows|);
      assert tasks[..|rows|] == Keys(rows);
      assert Keys(rows) + tasks[|rows|..] == tasks;
      SortKeepsIff(leq, all);
    }
  }

  /** An invocation that leaves the file kept: no torn rewrite for the second promise, a sorted plan for the third. */
  ghost predicate Safe(c: Codec<Row>, p: Promise, tasks: seq<Key>, leq: (Key, Key) -> bool, log: string, v: Visit) {
    match p
    case AnyTasks => true
    case TaskPrefix => v.Rewritten? ==> Whole(c, leq, log, v)
    case TaskOrder => InFileOrder(leq, tasks)
  }

  lemma VisitKeepsInv(c: Codec<Row>, p: Promise, tasks: seq<Key>, leq: (Key, Key) -> bool, log: string, v: Visit)
    requires Faithful(c) && Distinct(tasks) && CacheInv(c, p, tasks, log)
    requires Possible(c, tasks, leq, log, v) && Safe(c, p, tasks, leq, log, v)
    ensures CacheInv(c, p, tasks, FileAfter(log, v))
  {
    if v.Appended? {
      AppendedKeepsInv(c, p, tasks, log, Recover(c, log).value, v.added, v.written);
    } else if v.Rewritten? {
      var rows := Recover(c, log).value;
      RecoveredRows(c, p, tasks, log);
      SortedRows(p, tasks, leq, rows, v.added);
      RewriteKeepsInv(c, p, tasks, Sort(leq, rows + v.added), v.written);
    }
  }

  // ---- Whole histories -----------------------------------------------------------------------

  /** The file after a history of invocations, which starts without a file. */
  function FileOf(history: seq<Visit>): string {
    if history == [] then "" else FileAfter(FileOf(history[..|history| - 1]), history[|history| - 1])
  }

  ghost predicate PossibleHistory(c: Codec<Row>, tasks: seq<Key>, leq: (Key, Key) -> bool, history: seq<Visit>) {
    forall i | 0 <= i < |history| :: Possible(c, tasks, leq, FileOf(history[..i]), history[i])
  }

  /** No rewrite of the history was cut short. */
  ghost predicate Untorn(c: Codec<Row>, leq: (Key, Key) -> bool, history: seq<Visit>) {
    forall i | 0 <= i < |history| && history[i].Rewritten? :: Whole(c, leq, FileOf(history[..i]), history[i])
  }

  lemma NoFile(c: Codec<Row>, p: Promise, tasks: seq<Key>)
    ensures CacheInv(c, p, tasks, "")
  {
    var none: seq<Row> := [];
    assert Keys(none) == [];
    assert Promised(p, tasks)(none) && Log(c, none) == "";
  }

  lemma FrontOf(c: Codec<Row>, tasks: seq<Key>, leq: (Key, Key) -> bool, history: seq<Visit>)
    requires history != [] && PossibleHistory(c, tasks, leq, history)
    ensures var n := |history| - 1;
            && PossibleHistory(c, tasks, leq, history[..n])
            && Possible(c, tasks, leq, FileOf(history[..n]), history[n])
            && (Untorn(c, leq, history) ==> Untorn(c, leq, history[..n]))
  {
    var n := |history| - 1;
    forall i | 0 <= i < n
      ensures history[..n][..i] == history[..i] && history[..n][i] == history[i]
    {
    }
  }

  lemma {:induction false} HistoryKeepsInv(c: Codec<Row>, p: Promise, tasks: seq<Key>, leq: (Key, Key) -> bool,
                                           history: seq<Visit>)
    requires Faithful(c) && Distinct(tasks) && PossibleHistory(c, tasks, leq, history)
    requires p == TaskPrefix ==> Untorn(c, leq, history)
    requires p == TaskOrder ==> InFileOrder(leq, tasks)
    ensures CacheInv(c, p, tasks, FileOf(history))
  {
    if history == [] {
      NoFile(c, p, tasks);
    } else {
      var n := |history| - 1;
      FrontOf(c, tasks, leq, history);
      HistoryKeepsInv(c, p, tasks, leq, history[..n]);
      VisitKeepsInv(c, p, tasks, leq, FileOf(history[..n]), history[n]);
    }
  }

  /** Recovery rejects, or its rows are exactly the first tasks of the plan. */
  ghost predicate Resumable(c: Codec<Row>, tasks: seq<Key>, log: string) {
    Recover(c, log).Some? ==> CoversFirst(tasks, Keys(Recover(c, log).value))
  }

  ghost predicate CoversFirst(tasks: seq<Key>, done: seq<Key>) {
    |done| <= |tasks| && Distinct(done) && Elements(done) == Elements(tasks[..|done|])
  }

  /** After every history of invocations and crashes, recovery rejects or returns rows of distinct tasks. */
  lemma EveryHistoryKeepsTasks(c: Codec<Row>, tasks: seq<Key>, leq: (Key, Key) -> bool, history: seq<Visit>)
    requires Faithful(c) && Distinct(tasks) && PossibleHistory(c, tasks, leq, history)
    ensures Recover(c, FileOf(history)).Some? ==> Owned(tasks, Keys(Recover(c, FileOf(history)).value))
  {
    HistoryKeepsInv(c, AnyTasks, tasks, leq, history);
    RecoveredRows(c, AnyTasks, tasks, FileOf(history));
  }

  /** After every history in which no rewrite was cut short, recovery rejects or covers a prefix of the plan. */
  lemma UntornHistoriesAreResumable(c: Codec<Row>, tasks: seq<Key>, leq: (Key, Key) -> bool, history: seq<Visit>)
    requires Faithful(c) && Distinct(tasks) && PossibleHistory(c, tasks, leq, history) && Untorn(c, leq, history)
    ensures Resumable(c, tasks, FileOf(history))
  {
    HistoryKeepsInv(c, TaskPrefix, tasks, leq, history);
    RecoveredRows(c, TaskPrefix, tasks, FileOf(history));
    if Recover(c, FileOf(history)).Some? {
      CoveredIsPrefix(tasks, Keys(Recover(c, FileOf(history)).value));
      KeptIsOwned(TaskPrefix, tasks, Keys(Recover(c, FileOf(history)).value));
    }
  }

  // ---- Torn rewrites -------------------------------------------------------------------------

  /** Recovery of a cut file of whole lines returns some of its first records. */
  lemma RecoverCut(c: Codec<Row>, rows: seq<Row>, w: string) returns (m: nat)
    requires Faithful(c) && w <= Log(c, rows)
    ensures m <= |rows| && Recover(c, w) == Some(rows[..m])
  {
    var j, qs := AppendClean(c, [], rows, w);
    assert Log(c, []) + w == w && [] + rows[..j] == rows[..j];
    if qs == [] {
      m := j;
      RecoverWhole(c, rows[..j]);
      assert w == Log(c, rows[..j]) + "" == Log(c, rows[..j]);
    } else {
      m := RecoverCutLine(c, rows, w, j, qs);
    }
  }

  lemma RecoverCutLine(c: Codec<Row>, rows: seq<Row>, w: string, j: nat, qs: seq<string>) returns (m: nat)
    requires Faithful(c) && j < |rows| && |qs| == 1 && Torn(c, w, rows[..j], qs) && qs[0] <= c.encode(rows[j])
    ensures m <= |rows| && Recover(c, w) == Some(rows[..m])
  {
    RecoverTail(c, rs => true, w, rows[..j], qs, rows[j]);
    assert rows[..j] + [rows[j]] == rows[..j + 1];
    m := if Recover(c, w) == Some(rows[..j]) then j else j + 1;
  }

  lemma RecoverWhole(c: Codec<Row>, rows: seq<Row>)
    requires Faithful(c)
    ensures Recover(c, Log(c, rows)) == Some(rows)
  {
    RecoverNothing(c);
    RecoverLog(c, rows, "");
    assert Log(c, rows) + "" == Log(c, rows) && rows + [] == rows;
  }

  lemma LogOfFirst(c: Codec<Row>, rows: seq<Row>, j: nat)
    requires j <= |rows|
    ensures Log(c, rows[..j]) <= Log(c, rows)
  {
    LogAppend(c, rows[..j], rows[j..]);
    assert rows[..j] + rows[j..] == rows;
  }

  /** Every number of first rows is what some cut of the file recovers to. */
  lemma CutAt(c: Codec<Row>, rows: seq<Row>, j: nat) returns (w: string)
    requires Faithful(c) && j <= |rows|
    ensures w <= Log(c, rows) && Recover(c, w) == Some(rows[..j])
  {
    w := Log(c, rows[..j]);
    RecoverWhole(c, rows[..j]);
    LogOfFirst(c, rows, j);
  }

  lemma FirstKeys(rows: seq<Row>, j: nat)
    requires j <= |rows|
    ensures Keys(rows[..j]) == Keys(rows)[..j]
  {
  }

  /** Rows that cover the first tasks at every length are in task order. */
  lemma PrefixesDecideOrder(tasks: seq<Key>, sorted: seq<Key>)
    requires Distinct(tasks) && Distinct(sorted) && |sorted| == |tasks|
    requires forall j: nat | j <= |tasks| :: Elements(sorted[..j]) == Elements(tasks[..j])
    ensures sorted == tasks
  {
    forall j | 0 <= j < |tasks|
      ensures sorted[j] == tasks[j]
    {
      assert sorted[..j + 1] == sorted[..j] + [sorted[j]] && tasks[..j + 1] == tasks[..j] + [tasks[j]];
      assert sorted[j] in Elements(sorted[..j + 1]) && Elements(sorted[..j + 1]) == Elements(tasks[..j + 1]);
      assert sorted[j] !in sorted[..j] && sorted[j] !in Elements(sorted[..j]);
      assert Elements(sorted[..j]) == Elements(tasks[..j]);
    }
  }

  lemma OrderedCutsAreResumable(c: Codec<Row>, tasks: seq<Key>, rows: seq<Row>, w: string)
    requires Faithful(c) && Distinct(tasks) && Keys(rows) == tasks && w <= Log(c, rows)
    ensures Resumable(c, tasks, w)
  {
    var m := RecoverCut(c, rows, w);
    FirstKeys(rows, m);
  }

  /** The cuts of a file that is out of task order include one that recovers to something else than a prefix. */
  lemma DisorderedCut(c: Codec<Row>, tasks: seq<Key>, rows: seq<Row>) returns (w: string)
    requires Faithful(c) && Distinct(tasks) && Distinct(Keys(rows)) && |rows| == |tasks| && Keys(rows) != tasks
    ensures w <= Log(c, rows) && !Resumable(c, tasks, w)
  {
    if forall j: nat | j <= |tasks| :: Elements(Keys(rows)[..j]) == Elements(tasks[..j]) {
      PrefixesDecideOrder(tasks, Keys(rows));
    }
    var j: nat :| j <= |tasks| && Elements(Keys(rows)[..j]) != Elements(tasks[..j]);
    w := CutAt(c, rows, j);
    FirstKeys(rows, j);
  }

  /**
   A crash inside the rewrite leaves part of the sorted text. Every such file is rejected or covers a
   prefix of the plan if and only if the rows were written in plan order.
   */
  lemma TornRewriteResumableIff(c: Codec<Row>, tasks: seq<Key>, rows: seq<Row>)
    requires Faithful(c) && Distinct(tasks) && Distinct(Keys(rows)) && |rows| == |tasks|
    ensures (forall w | w <= Log(c, rows) :: Resumable(c, tasks, w)) <==> Keys(rows) == tasks
  {
    if Keys(rows) == tasks {
      forall w | w <= Log(c, rows)
        ensures Resumable(c, tasks, w)
      {
        OrderedCutsAreResumable(c, tasks, rows, w);
      }
    } else {
      var w := DisorderedCut(c, tasks, rows);
    }
  }

  function RowsFor(keys: seq<Key>, analyze: Key -> string): (rows: seq<Row>)
    ensures Keys(rows) == keys
  {
    seq(|keys|, i requires 0 <= i < |keys| => Row(keys[i], analyze(keys[i])))
  }

  /** A first run that gets through all tasks and leaves any part of the sorted text. */
  lemma FirstRun(c: Codec<Row>, tasks: seq<Key>, leq: (Key, Key) -> bool, rows: seq<Row>, w: string)
    requires Keys(rows) == tasks && w <= SortedText(c, leq, rows)
    ensures PossibleHistory(c, tasks, leq, [Rewritten(rows, w)]) && FileOf([Rewritten(rows, w)]) == w
  {
    var v, none: seq<Row> := Rewritten(rows, w), [];
    RecoverNothing(c);
    PendingAllOrNone(tasks, Elements(Keys(none)));
    assert none + rows == rows && [v][..0] == [];
    assert Possible(c, tasks, leq, "", v);
  }

  /** A plan that is not in file order: one first run, killed inside its rewrite, leaves a gap. */
  lemma DisorderLeavesGap(c: Codec<Row>, tasks: seq<Key>, leq: (Key, Key) -> bool, analyze: Key -> string)
    returns (v: Visit)
    requires Faithful(c) && Distinct(tasks) && !InFileOrder(leq, tasks)
    ensures PossibleHistory(c, tasks, leq, [v]) && !Resumable(c, tasks, FileOf([v]))
  {
    var rows := RowsFor(tasks, analyze);
    SortKeepsIff(leq, rows);
    SortKeys(leq, rows);
    var w := DisorderedCut(c, tasks, Sort(leq, rows));
    FirstRun(c, tasks, leq, rows, w);
    v := Rewritten(rows, w);
  }

  /**
   Whatever runs and crashes happen, recovery rejects or covers a prefix of the plan, if and only if the
   plan lists its tasks in the order of the sorted file.
   */
  lemma EveryHistoryResumableIff(c: Codec<Row>, tasks: seq<Key>, leq: (Key, Key) -> bool)
    requires Faithful(c) && Distinct(tasks)
    ensures (forall history | PossibleHistory(c, tasks, leq, history) :: Resumable(c, tasks, FileOf(history)))
            <==> InFileOrder(leq, tasks)
  {
    if InFileOrder(leq, tasks) {
      forall history | PossibleHistory(c, tasks, leq, history)
        ensures Resumable(c, tasks, FileOf(history))
      {
        HistoryKeepsInv(c, TaskOrder, tasks, leq, history);
        RecoveredRows(c, TaskOrder, tasks, FileOf(history));
        PrefixIsResumable(c, tasks, FileOf(history));
      }
    } else {
      var v := DisorderLeavesGap(c, tasks, leq, k => "");
    }
  }

  lemma PrefixIsResumable(c: Codec<Row>, tasks: seq<Key>, log: string)
    requires Distinct(tasks) && (Recover(c, log).Some? ==> Keys(Recover(c, log).value) <= tasks)
    ensures Resumable(c, tasks, log)
  {
    if Recover(c, log).Some? {
      var done := Keys(Recover(c, log).value);
      assert done == tasks[..|done|];
    }
  }

  // ---- One run -----------------------------------------------------------------------------

  datatype Outcome = Rejected | Died | TornRewrite | Finished(rows: seq<Row>)

  lemma CutOfBatches(c: Codec<Row>, before: seq<Row>, batch: seq<Row>, after: seq<Row>, written: string)
    requires written <= Log(c, batch)
    ensures Log(c, before) + written <= Log(c, before + batch + after)
    ensures Log(c, before) + Log(c, batch) == Log(c, before + batch)
  {
    LogAppend(c, before, batch);
    LogAppend(c, before + batch, after);
  }

  lemma KeysOfBatches(pending: seq<Key>, before: seq<Row>, batch: seq<Row>, after: seq<Row>)
    requires |before + batch| <= |pending| && Keys(before) == pending[..|before|]
    requires Keys(batch) == pending[|before|..|before + batch|] && Keys(after) == pending[|before + batch|..]
    ensures Keys(before + batch) == pending[..|before + batch|] && Keys(before + batch + after) == pending
  {
    var n := |before + batch|;
    KeysAppend(before, batch);
    KeysAppend(before + batch, after);
    assert pending[..|before|] + pending[|before|..n] == pending[..n] && pending[..n] + pending[n..] == pending;
  }

  /** A visit cut short in `batch`, which comes after the rows `before` and would be followed by `after`. */
  lemma CutVisit(c: Codec<Row>, file: string, pending: seq<Key>, before: seq<Row>, batch: seq<Row>, after: seq<Row>,
                 written: string)
    requires |before + batch| <= |pending| && Keys(before) == pending[..|before|] && written <= Log(c, batch)
    requires Keys(batch) == pending[|before|..|before + batch|] && Keys(after) == pending[|before + batch|..]
    ensures var v := Appended(before + batch + after, Log(c, before) + written);
            && Keys(v.added) == pending && v.written <= Log(c, v.added)
            && FileAfter(file, v) == file + Log(c, before) + written
    ensures Keys(before + batch) == pending[..|before + batch|]
    ensures written == Log(c, batch) ==> file + Log(c, before) + written == file + Log(c, before + batch)
  {
    CutOfBatches(c, before, batch, after, written);
    KeysOfBatches(pending, before, batch, after);
    assert file + Log(c, before) + written == file + (Log(c, before) + written);
  }

  class CacheFile {
    const tasks: seq<Key>
    var log: string

    /** The file starts out missing. */
    constructor (tasks: seq<Key>)
      ensures log == FileOf([]) && this.tasks == tasks
    {
      this.tasks, log := tasks, "";
    }

    /** One commit; the process may die after any prefix of it. */
    method AppendBatch(c: Codec<Row>, batch: seq<Row>) returns (alive: bool, ghost written: string)
      modifies this
      ensures log == old(log) + written && written <= Log(c, batch)
      ensures alive ==> written == Log(c, batch)
    {
      var bytes := Log(c, batch);
      var n :| 0 <= n <= |bytes|;
      log := log + bytes[..n];
      alive, written := n == |bytes|, bytes[..n];
      if * {
        alive := false;
      }
    }

    /** `atomicJsonLines`: the file is truncated and written in place. */
    method Rewrite(c: Codec<Row>, sorted: seq<Row>) returns (whole: bool)
      modifies this
      ensures log <= RewriteText(c, sorted)
      ensures whole <==> log == RewriteText(c, sorted)
    {
      var text := RewriteText(c, sorted);
      var n :| 0 <= n <= |text|;
      log := text[..n];
      whole := n == |text|;
    }

    /** The next batch of pending tasks: analysed, then committed in task order. */
    method NextBatch(c: Codec<Row>, pending: seq<Key>, added: seq<Row>, concurrency: nat, analyze: Key -> string,
                     ghost before: string)
      returns (alive: bool, longer: seq<Row>, ghost v: Visit)
      requires concurrency >= 1 && |added| < |pending| && Keys(added) == pending[..|added|]
      requires log == before + Log(c, added)
      modifies this
      ensures v.Appended? && Keys(v.added) == pending && v.written <= Log(c, v.added)
      ensures log == FileAfter(before, v)
      ensures alive ==> |added| < |longer| <= |pending| && Keys(longer) == pending[..|longer|]
      ensures alive ==> log == before + Log(c, longer)
    {
      var start := |added|;
      var end := if start + concurrency <= |pending| then start + concurrency else |pending|;
      var batch := RowsFor(pending[start..end], analyze);
      ghost var rest := RowsFor(pending[end..], analyze);
      ghost var written;
      alive, written := AppendBatch(c, batch);
      longer := added + batch;
      v := Appended(added + batch + rest, Log(c, added) + written);
      CutVisit(c, before, pending, added, batch, rest, written);
    }

    /**
     Loads the cache, appends the evidence of the pending tasks batch by batch, then rewrites the file
     sorted; the process may die anywhere. What it does to the file is one of the visits above.
     */
    method EvaluateEvidence(c: Codec<Row>, concurrency: nat, analyze: Key -> string, leq: (Key, Key) -> bool)
      returns (outcome: Outcome, ghost v: Visit)
      requires Faithful(c) && Distinct(tasks) && concurrency >= 1 && CacheInv(c, AnyTasks, tasks, log)
      modifies this
      ensures Possible(c, tasks, leq, old(log), v) && log == FileAfter(old(log), v)
      ensures CacheInv(c, AnyTasks, tasks, log)
      ensures outcome.Rejected? <==> v.Refused?
      ensures outcome.Died? ==> v.Appended?
      ensures outcome.TornRewrite? ==> v.Rewritten? && !Whole(c, leq, old(log), v)
      ensures outcome.Finished? ==>
                && Whole(c, leq, old(log), v) && log == RewriteText(c, outcome.rows)
                && Owned(tasks, Keys(outcome.rows)) && |outcome.rows| == |tasks|
    {
      v := Refused;
      var existing := ParseRecoverableJsonLines(c, log);
      if existing == None {
        return Rejected, v;
      }
      var rows, added: seq<Row> := existing.value, [];
      var pending := Pending(tasks, Elements(Keys(rows)));
      v := Appended(RowsFor(pending, analyze), "");
      while |added| < |pending|
        invariant |added| <= |pending| && Keys(added) == pending[..|added|]
        invariant log == old(log) + Log(c, added) && log == FileAfter(old(log), v)
        invariant Possible(c, tasks, leq, old(log), v) && v.Appended?
        invariant CacheInv(c, AnyTasks, tasks, log)
        decreases |pending| - |added|
      {
        if * {
          return Died, v;
        }
        var alive;
        alive, added, v := NextBatch(c, pending, added, concurrency, analyze, old(log));
        VisitKeepsInv(c, AnyTasks, tasks, leq, old(log), v);
        if !alive {
          return Died, v;
        }
      }
      if * {
        return Died, v;
      }
      var sorted := Sort(leq, rows + added);
      var whole := Rewrite(c, sorted);
      RecoveredRows(c, AnyTasks, tasks, old(log));
      SortedRows(AnyTasks, tasks, leq, rows, added);
      v := Rewritten(added, log);
      VisitKeepsInv(c, AnyTasks, tasks, leq, old(log), v);
      return if whole then Finished(sorted) else TornRewrite, v;
    }
  }
}
