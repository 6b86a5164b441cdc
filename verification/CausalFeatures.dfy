/** Features as of an origin: bar contexts, as-of values, volatility regimes and volatility baselines. */
module CausalFeatures {
  import opened Wrappers
  import opened Sequences
  import opened StableSort

  // ---- Bar contexts ------------------------------------------------------------------------

  datatype Bar = Bar(openTime: int, closeTime: int)

  predicate InOrder(bars: seq<Bar>) {
    forall i, j | 0 <= i < j < |bars| :: bars[i].closeTime <= bars[j].closeTime
  }

  /** How many leading bars are closed at `origin`. */
  function Closed(bars: seq<Bar>, origin: int): (n: nat)
    ensures n <= |bars|
    ensures forall i | 0 <= i < n :: bars[i].closeTime <= origin
    ensures n < |bars| ==> bars[n].closeTime > origin
  {
    if bars == [] || bars[0].closeTime > origin then 0 else 1 + Closed(bars[1..], origin)
  }

  function Greater(a: int, b: int): int {
    if a >= b then a else b
  }

  /** The last bars that are closed at the origin. */
  function Recent(bars: seq<Bar>, origin: int, maximum: nat): seq<Bar> {
    var left := Closed(bars, origin);
    bars[Greater(0, left - maximum)..left]
  }

  predicate EndsAt(bars: seq<Bar>, origin: int) {
    bars != [] && bars[|bars| - 1].closeTime == origin
  }

  /** The last bars of a context, provided one of them closes at the origin. */
  function ContextAt(bars: seq<Bar>, origin: int, maximum: nat): Result<seq<Bar>> {
    var output := Recent(bars, origin, maximum);
    if EndsAt(output, origin) then Ok(output) else Err("no finalized one-minute bar at the origin")
  }

  lemma ClosedIs(bars: seq<Bar>, origin: int, n: nat)
    requires n <= |bars| && (forall i | 0 <= i < n :: bars[i].closeTime <= origin)
    requires forall i | n <= i < |bars| :: bars[i].closeTime > origin
    ensures Closed(bars, origin) == n
  {
    var m := Closed(bars, origin);
    assert m < |bars| ==> bars[m].closeTime > origin;
    assert n < |bars| ==> bars[n].closeTime > origin;
  }

  method UpperBound(bars: seq<Bar>, origin: int) returns (left: nat)
    requires InOrder(bars)
    ensures left == Closed(bars, origin)
  {
    left := 0;
    var right := |bars|;
    while left < right
      invariant left <= right <= |bars|
      invariant forall i | 0 <= i < left :: bars[i].closeTime <= origin
      invariant forall i | right <= i < |bars| :: bars[i].closeTime > origin
    {
      var middle := (left + right) / 2;
      if bars[middle].closeTime <= origin {
        left := middle + 1;
      } else {
        right := middle;
      }
    }
    ClosedIs(bars, origin, left);
  }

  /** `sliceBarsAt`, by binary search. */
  method SliceBarsAt(bars: seq<Bar>, origin: int, maximum: nat) returns (r: Result<seq<Bar>>)
    requires InOrder(bars)
    ensures r == ContextAt(bars, origin, maximum)
  {
    var left := UpperBound(bars, origin);
    var output := bars[Greater(0, left - maximum)..left];
    assert output == Recent(bars, origin, maximum);
    if output == [] || output[|output| - 1].closeTime != origin {
      return Err("no finalized one-minute bar at the origin");
    }
    return Ok(output);
  }

  const MINUTE: int := 60000

  predicate OneMinuteOpens(bars: seq<Bar>) {
    forall i | 1 <= i < |bars| :: bars[i].openTime - bars[i - 1].openTime == MINUTE
  }

  function Strict(values: seq<Bar>, origin: int, count: nat): Result<seq<Bar>> {
    if |values| != count then Err("too few context bars")
    else if !EndsAt(values, origin) then Err("origin is not a finalized one-minute close")
    else if !OneMinuteOpens(values) then Err("context contains a one-minute gap")
    else Ok(values)
  }

  /** The context that the repository hands out: exactly `count` bars, the last at the origin, no gap. */
  function StrictContextAt(bars: seq<Bar>, origin: int, count: nat): Result<seq<Bar>> {
    Strict(Recent(bars, origin, count), origin, count)
  }

  method HasNoGap(values: seq<Bar>) returns (ok: bool)
    requires values != []
    ensures ok == OneMinuteOpens(values)
  {
    for index := 1 to |values|
      invariant forall i | 1 <= i < index :: values[i].openTime - values[i - 1].openTime == MINUTE
    {
      if values[index].openTime - values[index - 1].openTime != MINUTE {
        return false;
      }
    }
    return true;
  }

  /** `Repository.slice`. */
  method Slice(bars: seq<Bar>, origin: int, count: nat) returns (r: Result<seq<Bar>>)
    requires InOrder(bars)
    ensures r == StrictContextAt(bars, origin, count)
  {
    var right := UpperBound(bars, origin);
    var values := bars[Greater(0, right - count)..right];
    assert values == Recent(bars, origin, count);
    if |values| != count {
      return Err("too few context bars");
    }
    if values == [] || values[|values| - 1].closeTime != origin {
      return Err("origin is not a finalized one-minute close");
    }
    var whole := HasNoGap(values);
    if !whole {
      return Err("context contains a one-minute gap");
    }
    return Ok(values);
  }

  lemma ClosedIgnoresLater(known: seq<Bar>, later: seq<Bar>, origin: int)
    requires InOrder(known) && forall b | b in later :: b.closeTime > origin
    ensures Closed(known + later, origin) == Closed(known, origin)
  {
    var n, all := Closed(known, origin), known + later;
    forall i | n <= i < |all| ensures all[i].closeTime > origin {
      if i < |known| {
        assert known[n].closeTime <= known[i].closeTime;
      } else {
        assert all[i] in later;
      }
    }
    ClosedIs(all, origin, n);
  }

  /** No lookahead: bars that close after the origin change no context, whichever loader cuts it. */
  lemma ContextsIgnoreLaterBars(known: seq<Bar>, later: seq<Bar>, origin: int, count: nat)
    requires InOrder(known) && forall b | b in later :: b.closeTime > origin
    ensures ContextAt(known + later, origin, count) == ContextAt(known, origin, count)
    ensures StrictContextAt(known + later, origin, count) == StrictContextAt(known, origin, count)
  {
    RecentIgnoresLater(known, later, origin, count);
  }

  lemma RecentIgnoresLater(known: seq<Bar>, later: seq<Bar>, origin: int, count: nat)
    requires InOrder(known) && forall b | b in later :: b.closeTime > origin
    ensures Recent(known + later, origin, count) == Recent(known, origin, count)
  {
    ClosedIgnoresLater(known, later, origin);
    FrontSlice(known, later, Greater(0, Closed(known, origin) - count), Closed(known, origin));
  }

  lemma FrontSlice<T>(a: seq<T>, b: seq<T>, lo: nat, hi: nat)
    requires lo <= hi <= |a|
    ensures (a + b)[lo..hi] == a[lo..hi]
  {
  }

  lemma RecentIsClosed(bars: seq<Bar>, origin: int, count: nat)
    ensures |Recent(bars, origin, count)| <= count
    ensures forall b | b in Recent(bars, origin, count) :: b.closeTime <= origin
  {
    var n := Closed(bars, origin);
    forall b | b in bars[Greater(0, n - count)..n] ensures b.closeTime <= origin {
      var i :| Greater(0, n - count) <= i < n && bars[i] == b;
    }
  }

  /** Both loaders end at the origin and hold nothing that closes after it. */
  lemma ContextsEndAtOrigin(bars: seq<Bar>, origin: int, count: nat)
    requires InOrder(bars)
    ensures StrictContextAt(bars, origin, count).Ok? ==>
              ContextAt(bars, origin, count) == StrictContextAt(bars, origin, count)
    ensures ContextAt(bars, origin, count).Ok? ==>
              var c := ContextAt(bars, origin, count).value;
              c != [] && |c| <= count && c[|c| - 1].closeTime == origin && forall b | b in c :: b.closeTime <= origin
  {
    RecentIsClosed(bars, origin, count);
  }

  // ---- Rules that look back ----------------------------------------------------------------

  /** `volatility` is `None` for NaN, infinities and missing evidence. */
  datatype Candidate = Candidate(symbol: string, volatility: Option<real>)

  datatype Origin = Origin(at: int, candidates: seq<Candidate>)

  datatype Key = Key(symbol: string, at: int)

  datatype Entry = Entry(key: Key, volatility: Option<real>)

  function EntriesOf(o: Origin): (es: seq<Entry>)
    ensures |es| == |o.candidates|
    ensures forall e | e in es :: e.key.at == o.at
  {
    seq(|o.candidates|, i requires 0 <= i < |o.candidates| =>
      Entry(Key(o.candidates[i].symbol, o.at), o.candidates[i].volatility))
  }

  function Entries(origins: seq<Origin>): seq<Entry> {
    if origins == [] then [] else Entries(origins[..|origins| - 1]) + EntriesOf(origins[|origins| - 1])
  }

  datatype State<H, R> = State(history: H, output: map<Key, R>)

  /** A rule reads the history and one entry; it may answer for the entry's key, and it extends the history. */
  type Rule<!H, !R> = (H, Entry) -> (H, Option<R>)

  function Apply<H, R>(rule: Rule<H, R>, s: State<H, R>, e: Entry): State<H, R> {
    var (history, answer) := rule(s.history, e);
    State(history, if answer.Some? then s.output[e.key := answer.value] else s.output)
  }

  function Run<H, R>(rule: Rule<H, R>, start: State<H, R>, entries: seq<Entry>): State<H, R> {
    if entries == [] then start else Apply(rule, Run(rule, start, entries[..|entries| - 1]), entries[|entries| - 1])
  }

  lemma {:induction false} RunConcat<H, R>(rule: Rule<H, R>, start: State<H, R>, a: seq<Entry>, b: seq<Entry>)
    ensures Run(rule, start, a + b) == Run(rule, Run(rule, start, a), b)
  {
    if b == [] {
      assert a + b == a;
    } else {
      RunConcat(rule, start, a, b[..|b| - 1]);
      assert (a + b)[..|a + b| - 1] == a + b[..|b| - 1];
    }
  }

  function Answer<R>(output: map<Key, R>, key: Key): Option<R> {
    if key in output then Some(output[key]) else None
  }

  lemma {:induction false} LaterEntriesAnswerLater<H, R>(rule: Rule<H, R>, start: State<H, R>,
                                                           entries: seq<Entry>, key: Key)
    requires forall e | e in entries :: e.key.at > key.at
    ensures Answer(Run(rule, start, entries).output, key) == Answer(start.output, key)
  {
    if entries != [] {
      var before, last := entries[..|entries| - 1], entries[|entries| - 1];
      assert forall e | e in before :: e in entries;
      LaterEntriesAnswerLater(rule, start, before, key);
      assert last in entries && last.key != key;
    }
  }

  lemma Associates<T>(a: seq<T>, b: seq<T>, c: seq<T>)
    ensures (a + b) + c == a + (b + c)
  {
  }

  lemma {:induction false} EntriesConcat(a: seq<Origin>, b: seq<Origin>)
    ensures Entries(a + b) == Entries(a) + Entries(b)
  {
    if b == [] {
      assert a + b == a;
    } else {
      var before, last := b[..|b| - 1], b[|b| - 1];
      EntriesConcat(a, before);
      assert (a + b)[..|a + b| - 1] == a + before && (a + b)[|a + b| - 1] == last;
      Associates(Entries(a), Entries(before), EntriesOf(last));
    }
  }

  lemma {:induction false} EntriesAreLater(origins: seq<Origin>, t: int)
    requires forall o | o in origins :: o.at > t
    ensures forall e | e in Entries(origins) :: e.key.at > t
  {
    if origins != [] {
      assert forall o | o in origins[..|origins| - 1] :: o in origins;
      assert origins[|origins| - 1] in origins;
      EntriesAreLater(origins[..|origins| - 1], t);
    }
  }

  /** What lies after the key's time in a list changes nothing about the key. */
  lemma RunIgnoresLater<H, R>(rule: Rule<H, R>, start: State<H, R>, known: seq<Origin>, later: seq<Origin>, key: Key)
    requires forall o | o in later :: o.at > key.at
    ensures Answer(Run(rule, start, Entries(known + later)).output, key)
            == Answer(Run(rule, start, Entries(known)).output, key)
  {
    EntriesConcat(known, later);
    EntriesAreLater(later, key.at);
    RunConcat(rule, start, Entries(known), Entries(later));
    LaterEntriesAnswerLater(rule, Run(rule, start, Entries(known)), Entries(later), key);
  }

  // ---- Regimes -----------------------------------------------------------------------------

  type Histories = map<string, seq<real>>

  function HistoryOf(h: Histories, symbol: string): seq<real> {
    if symbol in h then h[symbol] else []
  }

  function Last(s: seq<real>, n: nat): seq<real> {
    if |s| <= n then s else s[|s| - n..]
  }

  /** Seven days of quarter hours. */
  const REGIME_HISTORY: nat := 672

  /** `classifyCausalVolatilityRegime`, as a parameter. */
  type Classifier<!R> = (seq<real>, Option<real>) -> R

  function Recorded(h: Histories, e: Entry): Histories {
    if e.volatility.Some? && e.volatility.value >= 0.0
    then h[e.key.symbol := HistoryOf(h, e.key.symbol) + [e.volatility.value]] else h
  }

  function RegimeRule<R>(classify: Classifier<R>): Rule<Histories, R> {
    (h: Histories, e: Entry) =>
      (Recorded(h, e), Some(classify(Last(HistoryOf(h, e.key.symbol), REGIME_HISTORY), e.volatility)))
  }

  function OriginTime(o: Origin): int {
    o.at
  }

  /** The regimes of all candidates: the origins are sorted by time first. */
  function Regimes<R>(classify: Classifier<R>, origins: seq<Origin>): map<Key, R> {
    Run(RegimeRule(classify), State(map[], map[]), Entries(Sort(OriginTime, origins))).output
  }

  /** The candidates of one origin in turn. */
  method OriginRegimes<R>(classify: Classifier<R>, entries: seq<Entry>, before: Histories, known: map<Key, R>)
    returns (history: Histories, output: map<Key, R>)
    ensures State(history, output) == Run(RegimeRule(classify), State(before, known), entries)
  {
    history, output := before, known;
    for j := 0 to |entries|
      invariant State(history, output) == Run(RegimeRule(classify), State(before, known), entries[..j])
    {
      assert entries[..j + 1][..j] == entries[..j];
      var e := entries[j];
      var values := HistoryOf(history, e.key.symbol);
      output := output[e.key := classify(Last(values, REGIME_HISTORY), e.volatility)];
      if e.volatility.Some? && e.volatility.value >= 0.0 {
        history := history[e.key.symbol := values + [e.volatility.value]];
      }
    }
    assert entries[..|entries|] == entries;
  }

  /** `causalSourceVolatilityRegimes`. */
  method CausalSourceVolatilityRegimes<R>(classify: Classifier<R>, origins: seq<Origin>) returns (output: map<Key, R>)
    ensures output == Regimes(classify, origins)
  {
    var sorted := Sort(OriginTime, origins);
    ghost var rule, start := RegimeRule(classify), State(map[], map[]);
    var history: Histories := map[];
    output := map[];
    for i := 0 to |sorted|
      invariant State(history, output) == Run(rule, start, Entries(sorted[..i]))
    {
      history, output := OriginRegimes(classify, EntriesOf(sorted[i]), history, output);
      RunConcat(rule, start, Entries(sorted[..i]), EntriesOf(sorted[i]));
      assert sorted[..i + 1][..i] == sorted[..i];
    }
    assert sorted[..|sorted|] == sorted;
  }

  /**
   No lookahead. Two lists of origins, in any order, that agree on the origins up to some time give the
   same regime at every key up to that time.
   */
  lemma RegimesAreCausal<R>(classify: Classifier<R>, a: seq<Origin>, b: seq<Origin>, key: Key)
    requires UpTo(OriginTime, a, key.at) == UpTo(OriginTime, b, key.at)
    ensures Answer(Regimes(classify, a), key) == Answer(Regimes(classify, b), key)
  {
    RegimesUpTo(classify, a, key);
    RegimesUpTo(classify, b, key);
  }

  lemma RegimesUpTo<R>(classify: Classifier<R>, origins: seq<Origin>, key: Key)
    ensures Answer(Regimes(classify, origins), key) == Answer(Regimes(classify, UpTo(OriginTime, origins, key.at)), key)
  {
    var late := After(OriginTime, origins, key.at);
    SortSplits(OriginTime, origins, key.at);
    forall o | o in Sort(OriginTime, late) ensures o.at > key.at {
      var i :| 0 <= i < |Sort(OriginTime, late)| && Sort(OriginTime, late)[i] == o;
      SortElements(OriginTime, late, i);
      assert OriginTime(o) > key.at;
    }
    RunIgnoresLater(RegimeRule(classify), State(map[], map[]), Sort(OriginTime, UpTo(OriginTime, origins, key.at)),
                    Sort(OriginTime, late), key);
  }

  /** The usable values of one symbol, in order: what its history should be. */
  function Past(entries: seq<Entry>, symbol: string): seq<real> {
    if entries == [] then [] else
      var e := entries[|entries| - 1];
      Past(entries[..|entries| - 1], symbol)
      + if e.key.symbol == symbol && e.volatility.Some? && e.volatility.value >= 0.0 then [e.volatility.value] else []
  }

  lemma RecordedReads(h: Histories, e: Entry, symbol: string)
    ensures HistoryOf(Recorded(h, e), symbol)
            == HistoryOf(h, symbol)
               + if e.key.symbol == symbol && e.volatility.Some? && e.volatility.value >= 0.0
                 then [e.volatility.value] else []
  {
    assert HistoryOf(h, symbol) + [] == HistoryOf(h, symbol);
  }

  lemma {:induction false} HistoryIsPast<R>(classify: Classifier<R>, entries: seq<Entry>, symbol: string)
    ensures HistoryOf(Run(RegimeRule(classify), State(map[], map[]), entries).history, symbol) == Past(entries, symbol)
  {
    if entries != [] {
      var before, e := entries[..|entries| - 1], entries[|entries| - 1];
      HistoryIsPast(classify, before, symbol);
      RecordedReads(Run(RegimeRule(classify), State(map[], map[]), before).history, e, symbol);
    }
  }

  /** Each answer classifies the entry against the last week of its own symbol's earlier values. */
  lemma RegimeIsOfThePast<R>(classify: Classifier<R>, entries: seq<Entry>, e: Entry)
    ensures Answer(Run(RegimeRule(classify), State(map[], map[]), entries + [e]).output, e.key)
            == Some(classify(Last(Past(entries, e.key.symbol), REGIME_HISTORY), e.volatility))
  {
    HistoryIsPast(classify, entries, e.key.symbol);
    assert (entries + [e])[..|entries|] == entries;
  }

  // ---- Baselines ---------------------------------------------------------------------------

  datatype Shared = Shared(all: seq<real>, bySymbol: Histories)

  const BASELINE_HISTORY: nat := 96

  /** What a baseline is taken from: the symbol's own values once there are eight, all values once there are sixteen. */
  function Reference(h: Shared, symbol: string): seq<real> {
    if |HistoryOf(h.bySymbol, symbol)| >= 8 then Last(HistoryOf(h.bySymbol, symbol), BASELINE_HISTORY)
    else if |h.all| >= 16 then Last(h.all, BASELINE_HISTORY)
    else []
  }

  function Noted(h: Shared, symbol: string, value: real): Shared {
    Shared(h.all + [value], h.bySymbol[symbol := HistoryOf(h.bySymbol, symbol) + [value]])
  }

  function InsertValue(v: real, sorted: seq<real>): (r: seq<real>)
    ensures |r| == |sorted| + 1
  {
    if sorted == [] || v <= sorted[0] then [v] + sorted else [sorted[0]] + InsertValue(v, sorted[1..])
  }

  function SortValues(values: seq<real>): (r: seq<real>)
    ensures |r| == |values|
  {
    if values == [] then [] else InsertValue(values[0], SortValues(values[1..]))
  }

  predicate Increasing(values: seq<real>) {
    forall i, j | 0 <= i < j < |values| :: values[i] <= values[j]
  }

  lemma {:induction false} InsertValueKeeps(v: real, sorted: seq<real>)
    ensures multiset(InsertValue(v, sorted)) == multiset(sorted) + multiset{v}
  {
    if sorted != [] && v > sorted[0] {
      InsertValueKeeps(v, sorted[1..]);
      assert sorted == [sorted[0]] + sorted[1..];
    }
  }

  lemma IncreasingCons(first: real, rest: seq<real>)
    requires Increasing(rest) && (rest == [] || first <= rest[0])
    ensures Increasing([first] + rest)
  {
  }

  lemma {:induction false} InsertValueOrdered(v: real, sorted: seq<real>)
    requires Increasing(sorted)
    ensures Increasing(InsertValue(v, sorted))
    ensures InsertValue(v, sorted)[0] == v || (sorted != [] && InsertValue(v, sorted)[0] == sorted[0])
  {
    if sorted == [] || v <= sorted[0] {
      IncreasingCons(v, sorted);
    } else {
      InsertValueOrdered(v, sorted[1..]);
      IncreasingCons(sorted[0], InsertValue(v, sorted[1..]));
    }
  }

  lemma {:induction false} SortValuesOrdered(values: seq<real>)
    ensures Increasing(SortValues(values)) && multiset(SortValues(values)) == multiset(values)
  {
    if values != [] {
      SortValuesOrdered(values[1..]);
      InsertValueOrdered(values[0], SortValues(values[1..]));
      InsertValueKeeps(values[0], SortValues(values[1..]));
      assert values == [values[0]] + values[1..];
    }
  }

  /** The middle of the sorted values, or the mean of the two middle ones. */
  function Median(values: seq<real>): real
    requires values != []
  {
    var sorted, middle := SortValues(values), |values| / 2;
    if |values| % 2 == 0 then (sorted[middle - 1] + sorted[middle]) / 2.0 else sorted[middle]
  }

  lemma MedianOfOnes(values: seq<real>)
    requires values != [] && forall v | v in values :: v == 1.0
    ensures Median(values) == 1.0
  {
    var sorted := SortValues(values);
    SortValuesOrdered(values);
    forall i | 0 <= i < |sorted|
      ensures sorted[i] == 1.0
    {
      SameMembers(values, sorted, sorted[i]);
    }
  }

  /** The median of the reference, if it is positive. */
  function BaselineOf(h: Shared, symbol: string): Option<real> {
    var reference := Reference(h, symbol);
    if reference != [] && Median(reference) > 0.0 then Some(Median(reference)) else None
  }

  function BaselineRule(): Rule<Shared, real> {
    (h: Shared, e: Entry) =>
      if e.volatility.None? then (h, None)
      else (Noted(h, e.key.symbol, e.volatility.value), BaselineOf(h, e.key.symbol))
  }

  /** The baselines of all candidates, in the order in which the origins are listed. */
  function Baselines(origins: seq<Origin>): map<Key, real> {
    Run(BaselineRule(), State(Shared([], map[]), map[]), Entries(origins)).output
  }

  /** `causalRustVolatilityBaselines`. */
  method CausalRustVolatilityBaselines(origins: seq<Origin>) returns (output: map<Key, real>)
    ensures output == Baselines(origins)
  {
    ghost var rule: Rule<Shared, real>, start := BaselineRule(), State(Shared([], map[]), map[]);
    var all: seq<real> := [];
    var bySymbol: Histories := map[];
    output := map[];
    for i := 0 to |origins|
      invariant State(Shared(all, bySymbol), output) == Run(rule, start, Entries(origins[..i]))
    {
      ghost var before := State(Shared(all, bySymbol), output);
      var entries := EntriesOf(origins[i]);
      for j := 0 to |entries|
        invariant State(Shared(all, bySymbol), output) == Run(rule, before, entries[..j])
      {
        assert entries[..j + 1][..j] == entries[..j];
        var e := entries[j];
        if e.volatility.Some? {
          var own := HistoryOf(bySymbol, e.key.symbol);
          var baseline := BaselineOf(Shared(all, bySymbol), e.key.symbol);
          if baseline.Some? {
            output := output[e.key := baseline.value];
          }
          bySymbol := bySymbol[e.key.symbol := own + [e.volatility.value]];
          all := all + [e.volatility.value];
        }
      }
      assert entries[..|entries|] == entries;
      RunConcat(rule, start, Entries(origins[..i]), entries);
      assert origins[..i + 1][..i] == origins[..i];
    }
    assert origins[..|origins|] == origins;
  }

  /** What is appended after a list of origins changes no earlier baseline. */
  lemma BaselinesIgnoreLaterSuffix(known: seq<Origin>, later: seq<Origin>, key: Key)
    requires forall o | o in later :: o.at > key.at
    ensures Answer(Baselines(known + later), key) == Answer(Baselines(known), key)
  {
    RunIgnoresLater(BaselineRule(), State(Shared([], map[]), map[]), known, later, key);
  }

  /** No origin after `t` is listed before one at or before `t`. */
  predicate Settled(times: seq<int>, t: int) {
    forall i, j | 0 <= i < j < |times| && times[j] <= t :: times[i] <= t
  }

  function Times(origins: seq<Origin>): (ts: seq<int>)
    ensures |ts| == |origins| && forall i | 0 <= i < |origins| :: ts[i] == origins[i].at
  {
    seq(|origins|, i requires 0 <= i < |origins| => origins[i].at)
  }

  lemma AscendingIsSettled(times: seq<int>, t: int)
    requires forall i, j | 0 <= i < j < |times| :: times[i] <= times[j]
    ensures Settled(times, t)
  {
  }

  lemma {:induction false} AllLater(origins: seq<Origin>, t: int)
    requires forall i | 0 <= i < |origins| :: origins[i].at > t
    ensures UpTo(OriginTime, origins, t) == [] && After(OriginTime, origins, t) == origins
  {
    if origins != [] {
      AllLater(origins[1..], t);
      assert origins == [origins[0]] + origins[1..];
    }
  }

  lemma SettledTail(origins: seq<Origin>, t: int)
    requires origins != [] && Settled(Times(origins), t)
    ensures Settled(Times(origins[1..]), t)
    ensures origins[0].at > t ==> forall i | 0 <= i < |origins| :: origins[i].at > t
  {
    var times := Times(origins);
    assert Times(origins[1..]) == times[1..];
    forall i | 0 <= i < |origins| && origins[0].at > t
      ensures origins[i].at > t
    {
      assert times[0] > t && times[i] == origins[i].at;
    }
  }

  lemma FirstIsEarly(origins: seq<Origin>, t: int)
    requires origins != [] && origins[0].at <= t
    requires origins[1..] == UpTo(OriginTime, origins[1..], t) + After(OriginTime, origins[1..], t)
    ensures origins == UpTo(OriginTime, origins, t) + After(OriginTime, origins, t)
  {
    var first, early, late := [origins[0]], UpTo(OriginTime, origins[1..], t), After(OriginTime, origins[1..], t);
    assert UpTo(OriginTime, origins, t) == first + early && After(OriginTime, origins, t) == [] + late == late;
    assert origins == first + origins[1..];
    Associates(first, early, late);
  }

  /** A settled list is its early origins followed by its late ones. */
  lemma {:induction false} SettledSplits(origins: seq<Origin>, t: int)
    requires Settled(Times(origins), t)
    ensures origins == UpTo(OriginTime, origins, t) + After(OriginTime, origins, t)
  {
    if origins != [] {
      SettledTail(origins, t);
      if origins[0].at > t {
        AllLater(origins, t);
        assert [] + origins == origins;
      } else {
        SettledSplits(origins[1..], t);
        FirstIsEarly(origins, t);
      }
    }
  }

  lemma BaselinesUpTo(origins: seq<Origin>, t: int, key: Key)
    requires Settled(Times(origins), t) && key.at <= t
    ensures Answer(Baselines(origins), key) == Answer(Baselines(UpTo(OriginTime, origins, t)), key)
  {
    SettledSplits(origins, t);
    assert forall o | o in After(OriginTime, origins, t) :: OriginTime(o) > t;
    BaselinesIgnoreLaterSuffix(UpTo(OriginTime, origins, t), After(OriginTime, origins, t), key);
  }

  /**
   No lookahead. Two lists that agree on the origins up to some time, and list none of those behind a
   later one, give the same baseline at every key up to that time.
   */
  lemma BaselinesAreCausal(a: seq<Origin>, b: seq<Origin>, t: int, key: Key)
    requires UpTo(OriginTime, a, t) == UpTo(OriginTime, b, t) && key.at <= t
    requires Settled(Times(a), t) && Settled(Times(b), t)
    ensures Answer(Baselines(a), key) == Answer(Baselines(b), key)
  {
    BaselinesUpTo(a, t, key);
    BaselinesUpTo(b, t, key);
  }

  /** Lists in ascending order are as causal as the regimes, which are sorted first. */
  lemma AscendingBaselinesAreCausal(a: seq<Origin>, b: seq<Origin>, t: int, key: Key)
    requires UpTo(OriginTime, a, t) == UpTo(OriginTime, b, t) && key.at <= t
    requires Sorted(OriginTime, a) && Sorted(OriginTime, b)
    ensures Answer(Baselines(a), key) == Answer(Baselines(b), key)
  {
    AscendingIsSettled(Times(a), t);
    AscendingIsSettled(Times(b), t);
    BaselinesAreCausal(a, b, t, key);
  }

  // ---- Lookahead in lists that are not sorted ------------------------------------------------

  function Cross(n: nat): string {
    seq(n, _ => 'x')
  }

  /** Sixteen symbols, enough for the fallback on all symbols. */
  function Crowd(at: int): Origin {
    Origin(at, seq(16, i requires 0 <= i < 16 => Candidate(Cross(i), Some(1.0))))
  }

  function Lone(at: int): Origin {
    Origin(at, [Candidate("S", Some(1.0))])
  }

  /** A crowded origin at `i`, a single candidate at `j`, and nothing anywhere else. */
  function Lookahead(times: seq<int>, i: nat, j: nat): (origins: seq<Origin>)
    ensures Times(origins) == times
  {
    seq(|times|, n requires 0 <= n < |times| =>
      if n == i then Crowd(times[n]) else if n == j then Lone(times[n]) else Origin(times[n], []))
  }

  lemma EntriesOfOne(o: Origin)
    ensures Entries([o]) == EntriesOf(o)
  {
    assert [o][..0] == [];
    assert Entries([o][..0]) + EntriesOf(o) == EntriesOf(o);
  }

  lemma EntriesStep(origins: seq<Origin>, n: nat)
    requires n < |origins|
    ensures Entries(origins[..n + 1]) == Entries(origins[..n]) + EntriesOf(origins[n])
  {
    assert origins[..n + 1][..n] == origins[..n];
  }

  /** Only two of the origins have candidates. */
  ghost predicate OnlyTwo(origins: seq<Origin>, a: seq<Entry>, b: seq<Entry>, i: nat, j: nat) {
    forall m | 0 <= m < |origins| :: EntriesOf(origins[m]) == if m == i then a else if m == j then b else []
  }

  lemma EntriesOfTwoStep(origins: seq<Origin>, a: seq<Entry>, b: seq<Entry>, i: nat, j: nat, n: nat)
    requires i < j && n < |origins| && Entries(origins[..n]) == TwoParts(a, b, i, j, n)
    requires OnlyTwo(origins, a, b, i, j)
    ensures Entries(origins[..n + 1]) == TwoParts(a, b, i, j, n + 1)
  {
    EntriesStep(origins, n);
    assert EntriesOf(origins[n]) == if n == i then a else if n == j then b else [];
    TwoPartsStep(a, b, i, j, n);
  }

  lemma {:induction false} EntriesOfTwo(origins: seq<Origin>, a: seq<Entry>, b: seq<Entry>, i: nat, j: nat, n: nat)
    requires i < j < |origins| && n <= |origins| && OnlyTwo(origins, a, b, i, j)
    ensures Entries(origins[..n]) == TwoParts(a, b, i, j, n)
  {
    if n > 0 {
      EntriesOfTwo(origins, a, b, i, j, n - 1);
      EntriesOfTwoStep(origins, a, b, i, j, n - 1);
    }
  }

  lemma LookaheadEntries(times: seq<int>, i: nat, j: nat)
    requires i < j < |times|
    ensures Entries(Lookahead(times, i, j)) == EntriesOf(Crowd(times[i])) + EntriesOf(Lone(times[j]))
  {
    var origins := Lookahead(times, i, j);
    EntriesOfTwo(origins, EntriesOf(Crowd(times[i])), EntriesOf(Lone(times[j])), i, j, |origins|);
    assert origins[..|origins|] == origins;
  }

  function Early(es: seq<Entry>, t: int): seq<Entry> {
    if es == [] then [] else (if es[0].key.at <= t then [es[0]] else []) + Early(es[1..], t)
  }

  lemma EarlyCons(e: Entry, rest: seq<Entry>, t: int)
    ensures Early([e] + rest, t) == (if e.key.at <= t then [e] else []) + Early(rest, t)
  {
    assert ([e] + rest)[1..] == rest;
  }

  lemma {:induction false} EarlyConcat(a: seq<Entry>, b: seq<Entry>, t: int)
    ensures Early(a + b, t) == Early(a, t) + Early(b, t)
  {
    if a == [] {
      assert a + b == b;
    } else {
      EarlyConcat(a[1..], b, t);
      assert a + b == [a[0]] + (a[1..] + b);
      EarlyCons(a[0], a[1..] + b, t);
      Associates(if a[0].key.at <= t then [a[0]] else [], Early(a[1..], t), Early(b, t));
    }
  }

  lemma {:induction false} EarlyAllOrNone(es: seq<Entry>, t: int)
    ensures (forall e | e in es :: e.key.at <= t) ==> Early(es, t) == es
    ensures (forall e | e in es :: e.key.at > t) ==> Early(es, t) == []
  {
    if es != [] {
      EarlyAllOrNone(es[1..], t);
      assert es == [es[0]] + es[1..];
    }
  }

  lemma EarlyEntriesOf(o: Origin, t: int)
    ensures Early(EntriesOf(o), t) == if o.at <= t then EntriesOf(o) else []
  {
    EarlyAllOrNone(EntriesOf(o), t);
  }

  lemma EntriesCons(o: Origin, rest: seq<Origin>)
    ensures Entries([o] + rest) == EntriesOf(o) + Entries(rest)
  {
    EntriesConcat([o], rest);
    EntriesOfOne(o);
  }

  lemma EarlyEntriesCons(o: Origin, rest: seq<Origin>, t: int)
    ensures Early(Entries([o] + rest), t) == (if o.at <= t then EntriesOf(o) else []) + Early(Entries(rest), t)
  {
    EntriesCons(o, rest);
    EarlyConcat(EntriesOf(o), Entries(rest), t);
    EarlyEntriesOf(o, t);
  }

  lemma UpToCons(o: Origin, rest: seq<Origin>, t: int)
    ensures UpTo(OriginTime, [o] + rest, t)
            == if o.at <= t then [o] + UpTo(OriginTime, rest, t) else UpTo(OriginTime, rest, t)
  {
    assert ([o] + rest)[1..] == rest;
    assert [] + UpTo(OriginTime, rest, t) == UpTo(OriginTime, rest, t);
  }

  lemma EntriesUpToCons(o: Origin, rest: seq<Origin>, t: int)
    requires Entries(UpTo(OriginTime, rest, t)) == Early(Entries(rest), t)
    ensures Entries(UpTo(OriginTime, [o] + rest, t)) == Early(Entries([o] + rest), t)
  {
    var early := UpTo(OriginTime, rest, t);
    UpToCons(o, rest, t);
    EarlyEntriesCons(o, rest, t);
    EntriesCons(o, early);
    assert [] + Entries(early) == Entries(early);
  }

  /** The entries of the early origins are the early entries. */
  lemma {:induction false} EntriesUpTo(origins: seq<Origin>, t: int)
    ensures Entries(UpTo(OriginTime, origins, t)) == Early(Entries(origins), t)
  {
    if origins != [] {
      EntriesUpTo(origins[1..], t);
      EntriesUpToCons(origins[0], origins[1..], t);
      assert origins == [origins[0]] + origins[1..];
    }
  }

  /** After any part of a crowd every value on record is one, and none of them is of the lone symbol. */
  ghost predicate OnlyOnes(h: Shared, n: nat) {
    |h.all| == n && (forall v | v in h.all :: v == 1.0) && "S" !in h.bySymbol
  }

  lemma {:induction false} CrowdHistory(at: int, n: nat)
    requires n <= 16
    ensures OnlyOnes(Run(BaselineRule(), State(Shared([], map[]), map[]), EntriesOf(Crowd(at))[..n]).history, n)
  {
    if n > 0 {
      var es := EntriesOf(Crowd(at));
      CrowdHistory(at, n - 1);
      assert es[..n][..n - 1] == es[..n - 1] && es[..n][n - 1] == es[n - 1];
      CrossIsNotLone(n - 1);
      NotedOne(Run(BaselineRule(), State(Shared([], map[]), map[]), es[..n - 1]).history, n - 1, Cross(n - 1));
    }
  }

  lemma CrossIsNotLone(n: nat)
    ensures Cross(n) != "S"
  {
    if n == 1 {
      assert Cross(n)[0] == 'x';
    }
  }

  lemma NotedOne(h: Shared, n: nat, symbol: string)
    requires OnlyOnes(h, n) && symbol != "S"
    ensures OnlyOnes(Noted(h, symbol, 1.0), n + 1)
  {
  }

  lemma LoneBaseline(h: Shared)
    requires OnlyOnes(h, 16) || h == Shared([], map[])
    ensures BaselineOf(h, "S") == if h == Shared([], map[]) then None else Some(1.0)
  {
    if h != Shared([], map[]) {
      MedianOfOnes(h.all);
    }
  }

  lemma LoneAnswer(before: seq<Entry>, at: int)
    ensures var start := State(Shared([], map[]), map[]);
            var s := Run(BaselineRule(), start, before);
            Run(BaselineRule(), start, before + EntriesOf(Lone(at))).output
            == match BaselineOf(s.history, "S")
               case None => s.output
               case Some(b) => s.output[Key("S", at) := b]
  {
    var es := before + EntriesOf(Lone(at));
    assert EntriesOf(Lone(at)) == [Entry(Key("S", at), Some(1.0))];
    assert es[..|es| - 1] == before;
  }

  lemma LookaheadUpTo(times: seq<int>, i: nat, j: nat, t: int)
    requires i < j < |times| && times[j] <= t < times[i]
    ensures Entries(UpTo(OriginTime, Lookahead(times, i, j), t)) == EntriesOf(Lone(times[j]))
  {
    var crowd, lone := EntriesOf(Crowd(times[i])), EntriesOf(Lone(times[j]));
    LookaheadEntries(times, i, j);
    EntriesUpTo(Lookahead(times, i, j), t);
    EarlyConcat(crowd, lone, t);
    EarlyEntriesOf(Crowd(times[i]), t);
    EarlyEntriesOf(Lone(times[j]), t);
    assert [] + lone == lone;
  }

  /** Behind a crowd the lone candidate has a baseline. */
  lemma CrowdedAnswer(before: int, at: int)
    ensures var es := EntriesOf(Crowd(before)) + EntriesOf(Lone(at));
            Answer(Run(BaselineRule(), State(Shared([], map[]), map[]), es).output, Key("S", at)) == Some(1.0)
  {
    var crowd := EntriesOf(Crowd(before));
    LoneAnswer(crowd, at);
    CrowdHistory(before, 16);
    assert crowd[..16] == crowd;
    LoneBaseline(Run(BaselineRule(), State(Shared([], map[]), map[]), crowd).history);
  }

  lemma UncrowdedAnswer(at: int)
    ensures Answer(Run(BaselineRule(), State(Shared([], map[]), map[]), EntriesOf(Lone(at))).output, Key("S", at))
            == None
  {
    LoneAnswer([], at);
    LoneBaseline(Shared([], map[]));
    assert [] + EntriesOf(Lone(at)) == EntriesOf(Lone(at));
  }

  /** A late origin listed before an early one changes the baseline of the early one. */
  lemma LateOriginIsSeen(times: seq<int>, i: nat, j: nat, t: int)
    requires i < j < |times| && times[j] <= t < times[i]
    ensures var origins, key := Lookahead(times, i, j), Key("S", times[j]);
            && Answer(Baselines(origins), key) == Some(1.0)
            && Answer(Baselines(UpTo(OriginTime, origins, t)), key) == None
  {
    LookaheadEntries(times, i, j);
    LookaheadUpTo(times, i, j, t);
    CrowdedAnswer(times[i], times[j]);
    UncrowdedAnswer(times[j]);
  }

  /**
   The exact condition: for every content of origins at given times the baselines up to `t` depend on the
   origins up to `t` only, if and only if no later origin is listed before one of those.
   */
  lemma BaselinesAreCausalIff(times: seq<int>, t: int)
    ensures Settled(times, t)
            <==> forall origins, key: Key | Times(origins) == times && key.at <= t ::
                   Answer(Baselines(origins), key) == Answer(Baselines(UpTo(OriginTime, origins, t)), key)
  {
    if Settled(times, t) {
      forall origins, key: Key | Times(origins) == times && key.at <= t
        ensures Answer(Baselines(origins), key) == Answer(Baselines(UpTo(OriginTime, origins, t)), key)
      {
        BaselinesUpTo(origins, t, key);
      }
    } else {
      var i, j :| 0 <= i < j < |times| && times[j] <= t && times[i] > t;
      LateOriginIsSeen(times, i, j, t);
    }
  }
}
