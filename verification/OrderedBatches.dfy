/** Bounded concurrency that commits in input order, whatever order the work completes in. */
module OrderedBatches {
  import opened Wrappers

  const MINIMUM := 1
  const MAXIMUM := 32

  /** The mapper's outcome for one item; `None` is a rejected promise. */
  type Mapper<!T, !U> = (T, nat) -> Option<U>

  datatype Entry<+U> = Entry(index: nat, value: U)

  datatype Verdict = InvalidConcurrency | MapperRejected | Completed

  ghost predicate EntryOf<T, U>(values: seq<T>, mapper: Mapper<T, U>, e: Entry<U>, i: nat) {
    i < |values| && e.index == i && mapper(values[i], i) == Some(e.value)
  }

  /** The results of consecutive items from `start` on. */
  ghost predicate Results<T, U>(values: seq<T>, mapper: Mapper<T, U>, entries: seq<Entry<U>>, start: nat) {
    forall k | 0 <= k < |entries| :: EntryOf(values, mapper, entries[k], start + k)
  }

  ghost predicate Rejects<T, U>(values: seq<T>, mapper: Mapper<T, U>, i: nat) {
    i < |values| && mapper(values[i], i) == None
  }

  function Concat<U>(parts: seq<seq<U>>): seq<U> {
    if parts == [] then [] else Concat(parts[..|parts| - 1]) + parts[|parts| - 1]
  }

  function Indices(start: nat, end: nat): (s: set<nat>)
    requires start <= end
    ensures forall i: nat :: i in s <==> start <= i < end
    ensures |s| == end - start
    decreases end - start
  {
    if start == end then {} else {start} + Indices(start + 1, end)
  }

  /** `Promise.all` over one batch: the pending items settle in any order the scheduler likes. */
  method MapBatch<T, U>(values: seq<T>, start: nat, end: nat, mapper: Mapper<T, U>)
    returns (mapped: Option<seq<Entry<U>>>, peak: nat)
    requires start < end <= |values|
    ensures peak <= end - start
    ensures mapped.Some? ==> |mapped.value| == end - start && Results(values, mapper, mapped.value, start)
    ensures mapped.None? ==> exists i :: start <= i < end && Rejects(values, mapper, i)
  {
    var inFlight := Indices(start, end);
    var settled: map<nat, U> := map[];
    peak := |inFlight|;
    while inFlight != {}
      invariant inFlight <= Indices(start, end)
      invariant forall i: nat | start <= i < end && i !in inFlight ::
                  i in settled && EntryOf(values, mapper, Entry(i, settled[i]), i)
      invariant peak <= end - start
      decreases inFlight
    {
      var i :| i in inFlight;
      var outcome := mapper(values[i], i);
      if outcome.None? {
        assert Rejects(values, mapper, i);
        return None, peak;
      }
      inFlight := inFlight - {i};
      settled := settled[i := outcome.value];
    }
    var results: seq<Entry<U>> := [];
    for i := start to end
      invariant |results| == i - start && Results(values, mapper, results, start)
    {
      results := results + [Entry(i, settled[i])];
    }
    return Some(results), peak;
  }

  /** Every part has `size` elements, except that the last may be shorter; none is empty. */
  ghost predicate Chunked<U>(size: nat, parts: seq<seq<U>>) {
    && (forall b | 0 <= b < |parts| :: 1 <= |parts[b]| <= size)
    && forall b | 0 <= b < |parts| - 1 :: |parts[b]| == size
  }

  lemma OneMorePart(size: nat, n: nat)
    ensures size * n + size == size * (n + 1)
  {
  }

  lemma {:induction false} ChunkedLength<U>(size: nat, parts: seq<seq<U>>)
    requires Chunked(size, parts) && parts != []
    ensures |Concat(parts)| == size * (|parts| - 1) + |parts[|parts| - 1]|
  {
    var front, n := parts[..|parts| - 1], |parts|;
    assert |Concat(parts)| == |Concat(front)| + |parts[n - 1]|;
    if n > 1 {
      ChunkedLength(size, front);
      assert |front[n - 2]| == size;
      OneMorePart(size, n - 2);
    }
  }

  /**
   `processInOrderedBatches`: every commit is one whole batch of consecutive results. Nothing of a
   batch with a rejected item is committed, and at most `concurrency` items are ever in flight.
   */
  method ProcessInOrderedBatches<T, U>(values: seq<T>, concurrency: int, mapper: Mapper<T, U>)
    returns (verdict: Verdict, commits: seq<seq<Entry<U>>>, peak: nat)
    ensures verdict.InvalidConcurrency? <==> !(MINIMUM <= concurrency <= MAXIMUM)
    ensures verdict.InvalidConcurrency? ==> commits == []
    ensures !verdict.InvalidConcurrency? ==> peak <= concurrency && Chunked(concurrency, commits)
    ensures Results(values, mapper, Concat(commits), 0)
    ensures verdict.Completed? ==> |Concat(commits)| == |values|
    ensures verdict.MapperRejected? ==>
              var done := |Concat(commits)|;
              (forall b | 0 <= b < |commits| :: |commits[b]| == concurrency) &&
              exists i :: done <= i < done + concurrency && Rejects(values, mapper, i)
  {
    commits, peak := [], 0;
    if !(MINIMUM <= concurrency <= MAXIMUM) {
      return InvalidConcurrency, commits, peak;
    }
    var start: nat := 0;
    while start < |values|
      invariant peak <= concurrency && Chunked(concurrency, commits)
      invariant Results(values, mapper, Concat(commits), 0)
      invariant |Concat(commits)| == if start <= |values| then start else |values|
      invariant start < |values| ==> forall b | 0 <= b < |commits| :: |commits[b]| == concurrency
      decreases |values| - start
    {
      var end := if start + concurrency <= |values| then start + concurrency else |values|;
      var mapped, used := MapBatch(values, start, end, mapper);
      peak := if used > peak then used else peak;
      if mapped.None? {
        return MapperRejected, commits, peak;
      }
      assert (commits + [mapped.value])[..|commits|] == commits;
      commits := commits + [mapped.value];
      start := start + concurrency;
    }
    return Completed, commits, peak;
  }

  /** Completion order cannot matter: two runs that commit equally many results make the same commits. */
  lemma CommitsAreDetermined<T, U>(values: seq<T>, mapper: Mapper<T, U>, concurrency: nat,
                                   first: seq<seq<Entry<U>>>, second: seq<seq<Entry<U>>>)
    requires concurrency > 0 && Chunked(concurrency, first) && Chunked(concurrency, second)
    requires Results(values, mapper, Concat(first), 0) && Results(values, mapper, Concat(second), 0)
    requires |Concat(first)| == |Concat(second)|
    ensures first == second
  {
    forall i | 0 <= i < |Concat(first)|
      ensures Concat(first)[i] == Concat(second)[i]
    {
      assert EntryOf(values, mapper, Concat(first)[i], 0 + i) && EntryOf(values, mapper, Concat(second)[i], 0 + i);
    }
    SamePartition(concurrency, first, second);
  }

  lemma {:induction false} SamePartition<U>(size: nat, first: seq<seq<U>>, second: seq<seq<U>>)
    requires size > 0 && Chunked(size, first) && Chunked(size, second) && Concat(first) == Concat(second)
    ensures first == second
    decreases |first|
  {
    if first != [] {
      ChunkedLength(size, first);
    }
    if second != [] {
      ChunkedLength(size, second);
    }
    if first != [] && second != [] {
      var m, n := |first| - 1, |second| - 1;
      SameQuotient(size, m, |first[m]|, n, |second[n]|);
      SplitLast(Concat(first[..m]), first[m], Concat(second[..n]), second[n]);
      SamePartition(size, first[..m], second[..n]);
      assert first == first[..m] + [first[m]] && second == second[..n] + [second[n]];
    }
  }

  lemma SplitLast<U>(a: seq<U>, x: seq<U>, b: seq<U>, y: seq<U>)
    requires a + x == b + y && |x| == |y|
    ensures a == b && x == y
  {
    assert a == (a + x)[..|a|] && b == (b + y)[..|b|];
    assert x == (a + x)[|a|..] && y == (b + y)[|b|..];
  }

  lemma SameQuotient(size: nat, a: nat, r: nat, b: nat, s: nat)
    requires size > 0 && 1 <= r <= size && 1 <= s <= size && size * a + r == size * b + s
    ensures a == b && r == s
  {
    assert size * (a - b) == s - r && size * (b - a) == r - s;
    assert a - b >= 1 ==> size * (a - b) >= size;
    assert b - a >= 1 ==> size * (b - a) >= size;
  }
}
