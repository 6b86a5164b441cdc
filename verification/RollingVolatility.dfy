/** Rolling features of a candle series: by prefix sums, and by a cache that is warmed once. */
module RollingVolatility {
  import opened Wrappers

  // ---- Direct definitions ------------------------------------------------------------------

  /** Candles by close time in milliseconds, and the logarithms of their closes. */
  datatype Candles = Candles(times: seq<int>, logs: seq<real>)

  predicate Aligned(c: Candles) {
    |c.times| == |c.logs|
  }

  function Product(a: real, b: real): real {
    a * b
  }

  /** The squared return into a candle; nothing leads into the first one. */
  function Square(logs: seq<real>, i: nat): (s: real)
    requires i < |logs|
  {
    if i == 0 then 0.0 else Product(logs[i] - logs[i - 1], logs[i] - logs[i - 1])
  }

  predicate Continues(times: seq<int>, cadence: nat, i: nat)
    requires i < |times|
  {
    i == 0 || times[i] - times[i - 1] == cadence * 1000
  }

  /** The sum of the squared returns into the candles from `lo` to below `hi`. */
  function SquareSum(logs: seq<real>, lo: nat, hi: nat): real
    requires lo <= hi <= |logs|
  {
    if lo == hi then 0.0 else SquareSum(logs, lo, hi - 1) + Square(logs, hi - 1)
  }

  predicate Unbroken(times: seq<int>, cadence: nat, lo: nat, hi: nat)
    requires hi <= |times|
  {
    forall i: nat | lo <= i < hi :: Continues(times, cadence, i)
  }

  /** The root of the mean square over the `window` candles that end at `i`, if every step into them is one cadence. */
  function Rolling(c: Candles, cadence: nat, window: nat, root: real -> real, i: nat): Option<real>
    requires Aligned(c) && i < |c.times| && window >= 1
  {
    if i + 1 >= window && Unbroken(c.times, cadence, i + 1 - window, i + 1)
    then Some(root(SquareSum(c.logs, i + 1 - window, i + 1) / window as real))
    else None
  }

  // ---- Prefix sums -------------------------------------------------------------------------

  lemma {:induction false} SquareSumSplits(logs: seq<real>, lo: nat, mid: nat, hi: nat)
    requires lo <= mid <= hi <= |logs|
    ensures SquareSum(logs, lo, hi) == SquareSum(logs, lo, mid) + SquareSum(logs, mid, hi)
  {
    if mid < hi {
      SquareSumSplits(logs, lo, mid, hi - 1);
    }
  }

  lemma {:induction false} SquareSumNotNegative(logs: seq<real>, lo: nat, hi: nat)
    requires lo <= hi <= |logs|
    ensures SquareSum(logs, lo, hi) >= 0.0
  {
    if lo < hi {
      SquareSumNotNegative(logs, lo, hi - 1);
      if hi - 1 > 0 {
        SquareNotNegative(logs[hi - 1] - logs[hi - 2]);
      }
    }
  }

  lemma SquareNotNegative(x: real)
    ensures Product(x, x) >= 0.0
  {
  }

  /** How many of the first `k` candles are not reached by one cadence. */
  function Breaks(times: seq<int>, cadence: nat, k: nat): nat
    requires k <= |times|
  {
    if k == 0 then 0 else Breaks(times, cadence, k - 1) + if Continues(times, cadence, k - 1) then 0 else 1
  }

  lemma {:induction false} NoBreaksIff(times: seq<int>, cadence: nat, lo: nat, hi: nat)
    requires lo <= hi <= |times|
    ensures Breaks(times, cadence, hi) >= Breaks(times, cadence, lo)
    ensures Breaks(times, cadence, hi) == Breaks(times, cadence, lo) <==> Unbroken(times, cadence, lo, hi)
  {
    if lo < hi {
      NoBreaksIff(times, cadence, lo, hi - 1);
    }
  }

  function NotBelowZero(x: real): real {
    if x > 0.0 then x else 0.0
  }

  /** The two prefix differences give the direct value, and the guard against negative sums never acts. */
  lemma PrefixIsDirect(c: Candles, cadence: nat, window: nat, root: real -> real, i: nat)
    requires Aligned(c) && window >= 1 && window <= i + 1 <= |c.times|
    ensures var lo := i + 1 - window;
            var mean := (SquareSum(c.logs, 0, i + 1) - SquareSum(c.logs, 0, lo)) / window as real;
            Rolling(c, cadence, window, root, i)
            == if Breaks(c.times, cadence, i + 1) - Breaks(c.times, cadence, lo) == 0
               then Some(root(NotBelowZero(mean))) else None
  {
    var lo := i + 1 - window;
    SquareSumSplits(c.logs, 0, lo, i + 1);
    SquareSumNotNegative(c.logs, lo, i + 1);
    NoBreaksIff(c.times, cadence, lo, i + 1);
  }

  predicate SumsOf(cumulative: seq<real>, logs: seq<real>, n: nat) {
    n <= |logs| && |cumulative| == n + 1 && forall k: nat | k <= n :: cumulative[k] == SquareSum(logs, 0, k)
  }

  predicate BreaksOf(breaks: seq<nat>, times: seq<int>, cadence: nat, n: nat) {
    n <= |times| && |breaks| == n + 1 && forall k: nat | k <= n :: breaks[k] == Breaks(times, cadence, k)
  }

  /** `cumsum` of the squared returns, with a zero in front. */
  method Cumulative(logs: seq<real>) returns (cumulative: seq<real>)
    ensures SumsOf(cumulative, logs, |logs|)
  {
    cumulative := [0.0];
    for i := 0 to |logs|
      invariant SumsOf(cumulative, logs, i)
    {
      var squared := if i == 0 then 0.0 else Product(logs[i] - logs[i - 1], logs[i] - logs[i - 1]);
      assert squared == Square(logs, i);
      cumulative := cumulative + [cumulative[i] + squared];
    }
  }

  /** `cumsum` of the steps that are not one cadence, with a zero in front. */
  method BreakCounts(times: seq<int>, cadence: nat) returns (breaks: seq<nat>)
    ensures BreaksOf(breaks, times, cadence, |times|)
  {
    breaks := [0];
    for i := 0 to |times|
      invariant BreaksOf(breaks, times, cadence, i)
    {
      var contiguous := i == 0 || times[i] - times[i - 1] == cadence * 1000;
      breaks := breaks + [breaks[i] + if contiguous then 0 else 1];
    }
  }

  /** The value that the prefix sums give for the window that starts at `j`. */
  function FromPrefix(cumulative: seq<real>, breaks: seq<nat>, window: nat, root: real -> real, j: nat): Option<real>
    requires window >= 1 && |cumulative| == |breaks| && j + window < |cumulative|
  {
    if breaks[j + window] - breaks[j] as int == 0
    then Some(root(NotBelowZero((cumulative[j + window] - cumulative[j]) / window as real))) else None
  }

  lemma FromPrefixIsRolling(c: Candles, cadence: nat, window: nat, root: real -> real,
                            cumulative: seq<real>, breaks: seq<nat>, j: nat)
    requires Aligned(c) && window >= 1 && j + window <= |c.times|
    requires SumsOf(cumulative, c.logs, |c.logs|) && BreaksOf(breaks, c.times, cadence, |c.times|)
    ensures FromPrefix(cumulative, breaks, window, root, j) == Rolling(c, cadence, window, root, j + window - 1)
  {
    PrefixIsDirect(c, cadence, window, root, j + window - 1);
  }

  /** Fills the column from the prefix sums, window by window; candles before the first window have no value. */
  method FillColumn(n: nat, window: nat, root: real -> real, cumulative: seq<real>, breaks: seq<nat>,
                    ghost value: nat --> Option<real>)
    returns (rv: array<Option<real>>)
    requires 1 <= window <= n && |cumulative| == |breaks| == n + 1 && forall i: nat | i < n :: value.requires(i)
    requires forall i: nat | i + 1 < window :: value(i) == None
    requires forall j: nat | j + window <= n :: FromPrefix(cumulative, breaks, window, root, j) == value(j + window - 1)
    ensures rv.Length == n && forall i: nat | i < n :: rv[i] == value(i)
  {
    rv := new Option<real>[n](_ => None);
    for j := 0 to n - window + 1
      invariant forall i: nat | i < j + window - 1 && i < n :: rv[i] == value(i)
      invariant forall i: nat | j + window - 1 <= i < n :: rv[i] == None
    {
      rv[j + window - 1] := FromPrefix(cumulative, breaks, window, root, j);
    }
  }

  method PrefixColumn(c: Candles, cadence: nat, window: nat, root: real -> real) returns (rv: array<Option<real>>)
    requires Aligned(c) && window >= 1
    ensures rv.Length == |c.times|
    ensures forall i: nat | i < |c.times| :: rv[i] == Rolling(c, cadence, window, root, i)
  {
    var n := |c.times|;
    if n < window {
      return new Option<real>[n](_ => None);
    }
    var cumulative := Cumulative(c.logs);
    var breaks := BreakCounts(c.times, cadence);
    forall j: nat | j + window <= n
      ensures FromPrefix(cumulative, breaks, window, root, j) == Rolling(c, cadence, window, root, j + window - 1)
    {
      FromPrefixIsRolling(c, cadence, window, root, cumulative, breaks, j);
    }
    rv := FillColumn(n, window, root, cumulative, breaks,
                     i requires 0 <= i < n => Rolling(c, cadence, window, root, i));
  }

  /**
   The volatility column of `return_features`. One hour of candles per value: the prefix sums give, at
   every candle, the direct root mean square, which is defined exactly on unbroken windows.
   */
  method RealizedColumn(c: Candles, cadence: nat, root: real -> real) returns (rv: array<Option<real>>)
    requires Aligned(c) && 1 <= cadence <= 3600
    ensures rv.Length == |c.times|
    ensures forall i: nat | i < |c.times| :: rv[i] == Rolling(c, cadence, 3600 / cadence, root, i)
  {
    rv := PrefixColumn(c, cadence, 3600 / cadence, root);
  }

  /** The two break counts agree exactly where there is a value. */
  lemma RollingDefinedIff(c: Candles, cadence: nat, window: nat, root: real -> real, i: nat)
    requires Aligned(c) && i < |c.times| && window >= 1
    ensures Rolling(c, cadence, window, root, i).Some? <==>
              i + 1 >= window && Breaks(c.times, cadence, i + 1) == Breaks(c.times, cadence, i + 1 - window)
  {
    if i + 1 >= window {
      NoBreaksIff(c.times, cadence, i + 1 - window, i + 1);
    }
  }

  // ---- Five-minute returns -----------------------------------------------------------------

  predicate Ascending(times: seq<int>) {
    forall i, j | 0 <= i < j < |times| :: times[i] < times[j]
  }

  /** `searchsorted`: the first position whose time is not before `x`. */
  method SearchSorted(times: seq<int>, x: int) returns (at: nat)
    requires Ascending(times)
    ensures at <= |times|
    ensures forall i | 0 <= i < at :: times[i] < x
    ensures forall i | at <= i < |times| :: times[i] >= x
  {
    var low, high := 0, |times|;
    while low < high
      invariant 0 <= low <= high <= |times|
      invariant forall i | 0 <= i < low :: times[i] < x
      invariant forall i | high <= i < |times| :: times[i] >= x
    {
      var mid := (low + high) / 2;
      if times[mid] < x {
        low := mid + 1;
      } else {
        high := mid;
      }
    }
    return low;
  }

  const FIVE_MINUTES: int := 300000

  /** What the short return of a candle is measured from. */
  ghost predicate IsFiveMinutesEarlier(times: seq<int>, i: nat, j: nat) {
    i < |times| && j < |times| && times[j] == times[i] - FIVE_MINUTES
  }

  /** The short column: the return since the candle exactly five minutes earlier, where there is one. */
  method ShortColumn(c: Candles) returns (short: array<Option<real>>)
    requires Aligned(c) && Ascending(c.times)
    ensures short.Length == |c.times|
    ensures forall i: nat, j: nat | IsFiveMinutesEarlier(c.times, i, j) :: short[i] == Some(c.logs[i] - c.logs[j])
    ensures forall i: nat | i < |c.times| && short[i].Some? :: exists j :: IsFiveMinutesEarlier(c.times, i, j)
  {
    short := new Option<real>[|c.times|](_ => None);
    for k := 0 to |c.times|
      invariant forall i: nat, j: nat | i < k && IsFiveMinutesEarlier(c.times, i, j) ::
                  short[i] == Some(c.logs[i] - c.logs[j])
      invariant forall i: nat | i < k && short[i].Some? :: exists j :: IsFiveMinutesEarlier(c.times, i, j)
      invariant forall i: nat | k <= i < |c.times| :: short[i] == None
    {
      var at := SearchSorted(c.times, c.times[k] - FIVE_MINUTES);
      if at < |c.times| && c.times[at] == c.times[k] - FIVE_MINUTES {
        assert IsFiveMinutesEarlier(c.times, k, at);
        short[k] := Some(c.logs[k] - c.logs[at]);
      }
    }
  }

  // ---- The warmed core cache ---------------------------------------------------------------

  const MINUTE: int := 60000

  datatype Bar = Bar(closeTime: int, close: real)

  /** The parts of the standard library that the features use. */
  datatype Library = Library(logRatio: (real, real) -> real, stdev: seq<real> -> real)

  function Window61(bars: seq<Bar>): seq<Bar> {
    if |bars| <= 61 then bars else bars[|bars| - 61..]
  }

  /** The returns of a window, without the ones that start at a close that is not positive. */
  function Returns(lib: Library, window: seq<Bar>): seq<real> {
    if |window| <= 1 then [] else
      var n := |window|;
      Returns(lib, window[..n - 1])
      + if window[n - 2].close > 0.0 then [lib.logRatio(window[n - 1].close, window[n - 2].close)] else []
  }

  function RealizedVolatility(lib: Library, bars: seq<Bar>): real {
    var returns_ := Returns(lib, Window61(bars));
    if |returns_| >= 2 then lib.stdev(returns_) else 0.0
  }

  /** The one comparison that decides whether a value is stored. */
  predicate EndpointsFit(bars: seq<Bar>, i: nat)
    requires i < |bars|
  {
    i >= 60 && bars[i].closeTime - bars[i - 60].closeTime == 60 * MINUTE
  }

  predicate InOrder(bars: seq<Bar>) {
    forall i, j | 0 <= i < j < |bars| :: bars[i].closeTime < bars[j].closeTime
  }

  predicate OnMinuteGrid(bars: seq<Bar>) {
    forall i | 0 <= i < |bars| :: bars[i].closeTime % MINUTE == bars[0].closeTime % MINUTE
  }

  /** Every one of the `count` steps that end at bar `i` takes exactly one minute. */
  predicate GapFree(bars: seq<Bar>, i: nat, count: nat)
    requires count <= i < |bars|
  {
    forall k | i - count < k <= i :: bars[k].closeTime - bars[k - 1].closeTime == MINUTE
  }

  predicate MinuteApart(bars: seq<Bar>, i: nat, count: nat)
    requires count <= i < |bars|
  {
    forall k | i - count < k <= i :: bars[k].closeTime - bars[k - 1].closeTime >= MINUTE
  }

  lemma {:induction false} StepsAddUp(bars: seq<Bar>, i: nat, count: nat)
    requires count <= i < |bars| && MinuteApart(bars, i, count)
    ensures bars[i].closeTime - bars[i - count].closeTime >= count * MINUTE
    ensures bars[i].closeTime - bars[i - count].closeTime == count * MINUTE <==> GapFree(bars, i, count)
  {
    if count > 0 {
      StepsAddUp(bars, i, count - 1);
    }
  }

  /** One comparison of the end points stands for all sixty steps exactly when no step is shorter than a minute. */
  lemma EndpointCheckIff(bars: seq<Bar>, i: nat)
    requires i < |bars| && EndpointsFit(bars, i)
    ensures GapFree(bars, i, 60) <==> MinuteApart(bars, i, 60)
  {
    if MinuteApart(bars, i, 60) {
      StepsAddUp(bars, i, 60);
    }
  }

  /** On strictly increasing closes of one minute grid, a value is stored only for sixty gap-free steps. */
  lemma GridCloses(bars: seq<Bar>, i: nat)
    requires i < |bars| && InOrder(bars) && OnMinuteGrid(bars)
    ensures EndpointsFit(bars, i) <==> i >= 60 && GapFree(bars, i, 60)
  {
    if i >= 60 {
      assert MinuteApart(bars, i, 60);
      StepsAddUp(bars, i, 60);
    }
  }

  /** Off the grid the comparison lets a gap pass: two bars thirty seconds apart make up for a missing minute. */
  function Uneven(): seq<Bar> {
    seq(61, k => Bar(if k == 1 then MINUTE / 2 else k * MINUTE, 1.0))
  }

  lemma UnevenPasses()
    ensures InOrder(Uneven()) && EndpointsFit(Uneven(), 60) && !GapFree(Uneven(), 60, 60)
  {
    assert Uneven()[1].closeTime - Uneven()[0].closeTime == MINUTE / 2;
  }

  /** The stored value is what the direct computation gives for any context that ends at the bar. */
  lemma CachedIsDirect(lib: Library, bars: seq<Bar>, i: nat, start: nat)
    requires 60 <= i < |bars| && start <= i - 60
    ensures RealizedVolatility(lib, bars[i - 60..i + 1]) == RealizedVolatility(lib, bars[start..i + 1])
  {
    assert Window61(bars[start..i + 1]) == bars[i - 60..i + 1];
    assert Window61(bars[i - 60..i + 1]) == bars[i - 60..i + 1];
  }

  function Find<V>(m: map<int, V>, t: int): Option<V> {
    if t in m then Some(m[t]) else None
  }

  /** `bar_by_time.get`: the last bar with that close time. */
  function BarAt(bars: seq<Bar>, t: int): Option<Bar> {
    if bars == [] then None
    else if bars[|bars| - 1].closeTime == t then Some(bars[|bars| - 1])
    else BarAt(bars[..|bars| - 1], t)
  }

  lemma {:induction false} BarAtReads(bars: seq<Bar>, i: nat)
    requires InOrder(bars) && i < |bars|
    ensures BarAt(bars, bars[i].closeTime) == Some(bars[i])
  {
    if i < |bars| - 1 {
      BarAtReads(bars[..|bars| - 1], i);
    }
  }

  method BarsByTime(bars: seq<Bar>) returns (byTime: map<int, Bar>)
    ensures forall t :: Find(byTime, t) == BarAt(bars, t)
  {
    byTime := map[];
    for k := 0 to |bars|
      invariant forall t :: Find(byTime, t) == BarAt(bars[..k], t)
    {
      assert bars[..k + 1][..k] == bars[..k];
      byTime := byTime[bars[k].closeTime := bars[k]];
    }
    assert bars[..|bars|] == bars;
  }

  /** The dictionary holds, under the close of each of the first `k` bars, what `value` says of it, and nothing else. */
  ghost predicate Tabulates(m: map<int, real>, bars: seq<Bar>, value: nat -> Option<real>, k: nat) {
    && k <= |bars|
    && (forall t | t in m :: exists i: nat :: i < k && bars[i].closeTime == t)
    && (forall i: nat | i < k :: Find(m, bars[i].closeTime) == value(i))
  }

  function With(m: map<int, real>, t: int, value: Option<real>): map<int, real> {
    if value.Some? then m[t := value.value] else m
  }

  lemma TabulatesNext(m: map<int, real>, bars: seq<Bar>, value: nat -> Option<real>, k: nat)
    requires InOrder(bars) && k < |bars| && Tabulates(m, bars, value, k)
    ensures Tabulates(With(m, bars[k].closeTime, value(k)), bars, value, k + 1)
  {
    var t := bars[k].closeTime;
    assert t !in m;
    var n := With(m, t, value(k));
    forall u | u in n ensures exists i: nat :: i < k + 1 && bars[i].closeTime == u {
      if u in m {
        var i: nat :| i < k && bars[i].closeTime == u;
      }
    }
    forall i: nat | i < k + 1 ensures Find(n, bars[i].closeTime) == value(i) {
      if i < k {
        assert bars[i].closeTime < t;
        assert Find(m, bars[i].closeTime) == value(i);
      }
    }
  }

  /** What is stored for a bar: the volatility of its hour, if the end points fit. */
  function StoredVolatility(lib: Library, bars: seq<Bar>, i: nat): Option<real> {
    if i < |bars| && EndpointsFit(bars, i) then Some(RealizedVolatility(lib, bars[i - 60..i + 1])) else None
  }

  /** What is stored for a bar: the return since the bar exactly five minutes earlier, if its close is positive. */
  function StoredReturn(lib: Library, bars: seq<Bar>, i: nat): Option<real> {
    if i >= |bars| then None else
      var previous := BarAt(bars, bars[i].closeTime - FIVE_MINUTES);
      if previous.Some? && previous.value.close > 0.0
      then Some(lib.logRatio(bars[i].close, previous.value.close)) else None
  }

  /** `_warm_core_feature_cache` for one symbol. */
  method WarmCoreFeatureCache(lib: Library, bars: seq<Bar>) returns (short: map<int, real>, volatility: map<int, real>)
    requires InOrder(bars)
    ensures Tabulates(short, bars, (i: nat) => StoredReturn(lib, bars, i), |bars|)
    ensures Tabulates(volatility, bars, (i: nat) => StoredVolatility(lib, bars, i), |bars|)
  {
    ghost var returnAt := (i: nat) => StoredReturn(lib, bars, i);
    ghost var volatilityAt := (i: nat) => StoredVolatility(lib, bars, i);
    var byTime := BarsByTime(bars);
    short, volatility := map[], map[];
    for k := 0 to |bars|
      invariant Tabulates(short, bars, returnAt, k) && Tabulates(volatility, bars, volatilityAt, k)
    {
      TabulatesNext(short, bars, returnAt, k);
      TabulatesNext(volatility, bars, volatilityAt, k);
      var at := bars[k].closeTime;
      assert Find(byTime, at - FIVE_MINUTES) == BarAt(bars, at - FIVE_MINUTES);
      var shortReturn := if at - FIVE_MINUTES in byTime && byTime[at - FIVE_MINUTES].close > 0.0
                         then Some(lib.logRatio(bars[k].close, byTime[at - FIVE_MINUTES].close)) else None;
      var realized := if k >= 60 && at - bars[k - 60].closeTime == 60 * MINUTE
                      then Some(RealizedVolatility(lib, bars[k - 60..k + 1])) else None;
      assert shortReturn == returnAt(k) && realized == volatilityAt(k);
      short := With(short, at, shortReturn);
      volatility := With(volatility, at, realized);
    }
  }

  /**
   The warmed cache refines direct computation: on the minute grid it answers exactly at the bars that
   end sixty gap-free minutes, and with what any longer context that ends there would give.
   */
  lemma CacheRefinesDirect(lib: Library, bars: seq<Bar>, volatility: map<int, real>, i: nat, start: nat)
    requires InOrder(bars) && OnMinuteGrid(bars) && i < |bars|
    requires Tabulates(volatility, bars, (j: nat) => StoredVolatility(lib, bars, j), |bars|)
    ensures bars[i].closeTime in volatility <==> i >= 60 && GapFree(bars, i, 60)
    ensures bars[i].closeTime in volatility && start <= i - 60 ==>
              volatility[bars[i].closeTime] == RealizedVolatility(lib, bars[start..i + 1])
  {
    GridCloses(bars, i);
    assert Find(volatility, bars[i].closeTime) == StoredVolatility(lib, bars, i);
    if EndpointsFit(bars, i) && start <= i - 60 {
      CachedIsDirect(lib, bars, i, start);
    }
  }
}
