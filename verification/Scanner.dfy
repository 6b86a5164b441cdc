/** The candidate scanner: who is eligible, how the eligible are scored, and how they are ranked. */
module Scanner {
  import opened Wrappers
  import opened Sequences

  /** One observed symbol; `medianSpread` is `None` when it is not finite. */
  datatype Observation = Observation(
    symbol: string, observedAt: int, listingAt: int, missingRate: real, amount: real, tradeCount: real,
    medianSpread: Option<real>, p95Spread: real, depth: real, abnormalGap: bool,
    funding: Option<real>, basis: Option<real>,
    volatility: real, atr: real, range: real, bollinger: real, relativeVolume: real, liquidity: real)

  const DAY: int := 86400000
  const CORE_SYMBOLS: set<string> := {"BTCUSDT", "ETHUSDT"}
  const MINIMUM_DEPTH: real := 250000.0

  // ---- Eligibility -------------------------------------------------------------------------

  datatype Reason =
    | FutureObservation | CoreAssetExcluded | NotYetListed | ListingAgeTooShort | MissingData | TradingAmountTooLow
    | SpreadUnavailable | SpreadTooWide | DepthTooLow | StaleQuote | AbnormalGap | ExtremeFunding | ExtremeBasis

  function If(condition: bool, reason: Reason): seq<Reason> {
    if condition then [reason] else []
  }

  function Abs(x: real): real {
    if x >= 0.0 then x else -x
  }

  function SpreadReasons(o: Observation): seq<Reason> {
    if o.medianSpread.None? then [SpreadUnavailable]
    else If(o.medianSpread.value > 12.0 || o.p95Spread > 24.0, SpreadTooWide)
  }

  function ReasonsFor(o: Observation, origin: int): seq<Reason> {
    If(o.observedAt > origin, FutureObservation)
    + If(o.symbol in CORE_SYMBOLS, CoreAssetExcluded)
    + If(o.listingAt > origin, NotYetListed)
    + If(origin - o.listingAt < 90 * DAY, ListingAgeTooShort)
    + If(o.missingRate > 0.02, MissingData)
    + If(o.amount < 25000000.0, TradingAmountTooLow)
    + SpreadReasons(o)
    + If(o.depth < MINIMUM_DEPTH, DepthTooLow)
    + If(origin - o.observedAt > 60000, StaleQuote)
    + If(o.abnormalGap, AbnormalGap)
    + If(o.funding.Some? && Abs(o.funding.value) > 0.001, ExtremeFunding)
    + If(o.basis.Some? && Abs(o.basis.value) > 0.02, ExtremeBasis)
  }

  predicate IsEligible(o: Observation, origin: int) {
    ReasonsFor(o, origin) == []
  }

  /** What holds of every eligible row; a listing in the future is already a listing that is too young. */
  lemma EligibleIff(o: Observation, origin: int)
    ensures IsEligible(o, origin) <==>
              && 0 <= origin - o.observedAt <= 60000 && origin - o.listingAt >= 90 * DAY && o.symbol !in CORE_SYMBOLS
              && o.missingRate <= 0.02 && o.amount >= 25000000.0 && o.depth >= MINIMUM_DEPTH && !o.abnormalGap
              && o.medianSpread.Some? && o.medianSpread.value <= 12.0 && o.p95Spread <= 24.0
              && (o.funding.None? || Abs(o.funding.value) <= 0.001) && (o.basis.None? || Abs(o.basis.value) <= 0.02)
  {
    var parts := [If(o.observedAt > origin, FutureObservation), If(o.symbol in CORE_SYMBOLS, CoreAssetExcluded)];
    assert IsEligible(o, origin) <==> |ReasonsFor(o, origin)| == 0;
  }

  type Test = Observation -> bool

  function Kept(test: Test, rows: seq<Observation>): seq<Observation> {
    if rows == [] then [] else
      var last := rows[|rows| - 1];
      Kept(test, rows[..|rows| - 1]) + if test(last) then [last] else []
  }

  function EligibleAt(origin: int): Test {
    (o: Observation) => IsEligible(o, origin)
  }

  function Eligible(observations: seq<Observation>, origin: int): seq<Observation> {
    Kept(EligibleAt(origin), observations)
  }

  lemma {:induction false} KeptMembers(test: Test, rows: seq<Observation>, o: Observation)
    ensures o in Kept(test, rows) <==> o in rows && test(o)
  {
    if rows != [] {
      KeptMembers(test, rows[..|rows| - 1], o);
      assert rows == rows[..|rows| - 1] + [rows[|rows| - 1]];
    }
  }

  lemma {:induction false} KeptConcat(test: Test, a: seq<Observation>, b: seq<Observation>)
    ensures Kept(test, a + b) == Kept(test, a) + Kept(test, b)
  {
    if b == [] {
      assert a + b == a;
    } else {
      KeptConcat(test, a, b[..|b| - 1]);
      assert (a + b)[..|a + b| - 1] == a + b[..|b| - 1];
    }
  }

  lemma {:induction false} KeptCounts(test: Test, a: seq<Observation>, o: Observation)
    ensures multiset(Kept(test, a))[o] == if test(o) then multiset(a)[o] else 0
  {
    if a != [] {
      KeptCounts(test, a[..|a| - 1], o);
      assert a == a[..|a| - 1] + [a[|a| - 1]];
    }
  }

  // ---- Scores ------------------------------------------------------------------------------

  type Field = Observation -> real

  function Least(f: Field, rows: seq<Observation>): real
    requires rows != []
  {
    if |rows| == 1 then f(rows[0]) else
      var rest := Least(f, rows[1..]);
      if f(rows[0]) <= rest then f(rows[0]) else rest
  }

  function Most(f: Field, rows: seq<Observation>): real
    requires rows != []
  {
    if |rows| == 1 then f(rows[0]) else
      var rest := Most(f, rows[1..]);
      if f(rows[0]) >= rest then f(rows[0]) else rest
  }

  /** `minmax` of one row's value among all values of the field. */
  function MinMax(f: Field, rows: seq<Observation>, value: real, inverted: bool): real {
    if rows == [] then 0.0 else
      var low, high := Least(f, rows), Most(f, rows);
      var scaled := if low == high then 0.5 else (value - low) / (high - low);
      if inverted then 1.0 - scaled else scaled
  }

  function SpreadOf(o: Observation): real {
    if o.medianSpread.Some? then o.medianSpread.value else 0.0
  }

  function Scaled(f: Field, rows: seq<Observation>, o: Observation, inverted: bool): real {
    MinMax(f, rows, f(o), inverted)
  }

  function DepthPenalty(o: Observation): real {
    1.0 - if o.depth / MINIMUM_DEPTH < 1.0 then o.depth / MINIMUM_DEPTH else 1.0
  }

  /** The weighted score of a row among the eligible rows, with `log1p` as a parameter. */
  function Score(log1p: real -> real, rows: seq<Observation>, o: Observation): real {
    0.10 * Scaled((x: Observation) => log1p(x.amount), rows, o, false)
    + 0.06 * Scaled((x: Observation) => log1p(x.tradeCount), rows, o, false)
    + 0.16 * Scaled((x: Observation) => x.volatility, rows, o, false)
    + 0.14 * Scaled((x: Observation) => x.atr, rows, o, false)
    + 0.10 * Scaled((x: Observation) => x.range, rows, o, false)
    + 0.10 * Scaled((x: Observation) => x.bollinger, rows, o, false)
    + 0.12 * Scaled((x: Observation) => x.relativeVolume, rows, o, false)
    + 0.14 * Scaled((x: Observation) => x.liquidity, rows, o, false)
    + 0.08 * Scaled(SpreadOf, rows, o, true)
    - DepthPenalty(o) * 0.08
  }

  lemma {:induction false} LeastIs(f: Field, rows: seq<Observation>)
    requires rows != []
    ensures forall o | o in rows :: Least(f, rows) <= f(o)
    ensures exists o :: o in rows && f(o) == Least(f, rows)
  {
    if |rows| == 1 {
      assert rows[0] in rows;
    } else {
      LeastIs(f, rows[1..]);
      assert rows == [rows[0]] + rows[1..];
      var o :| o in rows[1..] && f(o) == Least(f, rows[1..]);
      assert rows[0] in rows && o in rows;
    }
  }

  lemma {:induction false} MostIs(f: Field, rows: seq<Observation>)
    requires rows != []
    ensures forall o | o in rows :: f(o) <= Most(f, rows)
    ensures exists o :: o in rows && f(o) == Most(f, rows)
  {
    if |rows| == 1 {
      assert rows[0] in rows;
    } else {
      MostIs(f, rows[1..]);
      assert rows == [rows[0]] + rows[1..];
      var o :| o in rows[1..] && f(o) == Most(f, rows[1..]);
      assert rows[0] in rows && o in rows;
    }
  }

  lemma Quotient(x: real, y: real)
    requires 0.0 <= x <= y && y > 0.0
    ensures 0.0 <= x / y <= 1.0
  {
  }

  lemma ScaledInUnit(f: Field, rows: seq<Observation>, o: Observation, inverted: bool)
    requires o in rows
    ensures 0.0 <= Scaled(f, rows, o, inverted) <= 1.0
  {
    LeastIs(f, rows);
    MostIs(f, rows);
    var low, high := Least(f, rows), Most(f, rows);
    if low != high {
      Quotient(f(o) - low, high - low);
    }
  }

  /** The depth penalty never acts: a row that is ranked has passed the depth test. */
  lemma PenaltyIsIdle(o: Observation, origin: int)
    requires IsEligible(o, origin)
    ensures DepthPenalty(o) == 0.0
  {
    EligibleIff(o, origin);
    assert o.depth / MINIMUM_DEPTH >= 1.0;
  }

  /** Every score is between zero and one. */
  lemma ScoreInUnit(log1p: real -> real, rows: seq<Observation>, o: Observation, origin: int)
    requires o in rows && IsEligible(o, origin)
    ensures 0.0 <= Score(log1p, rows, o) <= 1.0
  {
    PenaltyIsIdle(o, origin);
    ScaledInUnit((x: Observation) => log1p(x.amount), rows, o, false);
    ScaledInUnit((x: Observation) => log1p(x.tradeCount), rows, o, false);
    ScaledInUnit((x: Observation) => x.volatility, rows, o, false);
    ScaledInUnit((x: Observation) => x.atr, rows, o, false);
    ScaledInUnit((x: Observation) => x.range, rows, o, false);
    ScaledInUnit((x: Observation) => x.bollinger, rows, o, false);
    ScaledInUnit((x: Observation) => x.relativeVolume, rows, o, false);
    ScaledInUnit((x: Observation) => x.liquidity, rows, o, false);
    ScaledInUnit(SpreadOf, rows, o, true);
  }

  ghost predicate SameRows(a: seq<Observation>, b: seq<Observation>) {
    forall o :: o in a <==> o in b
  }

  lemma ScaledOfSameRows(f: Field, a: seq<Observation>, b: seq<Observation>, o: Observation, inverted: bool)
    requires SameRows(a, b)
    ensures Scaled(f, a, o, inverted) == Scaled(f, b, o, inverted)
  {
    assert a != [] ==> a[0] in a;
    assert b != [] ==> b[0] in b;
    if a != [] && b != [] {
      LeastIs(f, a);
      LeastIs(f, b);
      MostIs(f, a);
      MostIs(f, b);
    }
  }

  lemma ScoreOfSameRows(log1p: real -> real, a: seq<Observation>, b: seq<Observation>, o: Observation)
    requires SameRows(a, b)
    ensures Score(log1p, a, o) == Score(log1p, b, o)
  {
    ScaledOfSameRows((x: Observation) => log1p(x.amount), a, b, o, false);
    ScaledOfSameRows((x: Observation) => log1p(x.tradeCount), a, b, o, false);
    ScaledOfSameRows((x: Observation) => x.volatility, a, b, o, false);
    ScaledOfSameRows((x: Observation) => x.atr, a, b, o, false);
    ScaledOfSameRows((x: Observation) => x.range, a, b, o, false);
    ScaledOfSameRows((x: Observation) => x.bollinger, a, b, o, false);
    ScaledOfSameRows((x: Observation) => x.relativeVolume, a, b, o, false);
    ScaledOfSameRows((x: Observation) => x.liquidity, a, b, o, false);
    ScaledOfSameRows(SpreadOf, a, b, o, true);
  }

  // ---- Ranking -----------------------------------------------------------------------------

  predicate NameBefore(a: string, b: string) {
    if b == [] then false
    else if a == [] then true
    else a[0] < b[0] || (a[0] == b[0] && NameBefore(a[1..], b[1..]))
  }

  lemma {:induction false} NameOrder(a: string, b: string)
    ensures !(NameBefore(a, b) && NameBefore(b, a))
    ensures a != b ==> NameBefore(a, b) || NameBefore(b, a)
    ensures a == b ==> !NameBefore(a, b)
  {
    if a != [] && b != [] {
      NameOrder(a[1..], b[1..]);
      assert a == [a[0]] + a[1..] && b == [b[0]] + b[1..];
    }
  }

  lemma {:induction false} NameTransitive(a: string, b: string, c: string)
    requires NameBefore(a, b) && NameBefore(b, c)
    ensures NameBefore(a, c)
  {
    if a != [] && a[0] == b[0] && b[0] == c[0] {
      NameTransitive(a[1..], b[1..], c[1..]);
    }
  }

  /** The order of the ranking: higher score, then higher amount, then the name. */
  predicate Before(score: Field, a: Observation, b: Observation) {
    score(a) > score(b)
    || (score(a) == score(b) && (a.amount > b.amount || (a.amount == b.amount && NameBefore(a.symbol, b.symbol))))
  }

  lemma BeforeOrder(score: Field, a: Observation, b: Observation)
    ensures !(Before(score, a, b) && Before(score, b, a))
    ensures a.symbol != b.symbol ==> Before(score, a, b) || Before(score, b, a)
  {
    NameOrder(a.symbol, b.symbol);
  }

  lemma BeforeTransitive(score: Field, a: Observation, b: Observation, c: Observation)
    requires Before(score, a, b) && Before(score, b, c)
    ensures Before(score, a, c)
  {
    if NameBefore(a.symbol, b.symbol) && NameBefore(b.symbol, c.symbol) {
      NameTransitive(a.symbol, b.symbol, c.symbol);
    }
  }

  function Insert(score: Field, x: Observation, s: seq<Observation>): seq<Observation> {
    if s == [] || !Before(score, s[0], x) then [x] + s else [s[0]] + Insert(score, x, s[1..])
  }

  /** The stable sort of the rows. */
  function Ranked(score: Field, rows: seq<Observation>): seq<Observation> {
    if rows == [] then [] else Insert(score, rows[0], Ranked(score, rows[1..]))
  }

  predicate Descending(score: Field, s: seq<Observation>) {
    forall i, j | 0 <= i < j < |s| :: Before(score, s[i], s[j])
  }

  predicate DistinctSymbols(rows: seq<Observation>) {
    forall i, j | 0 <= i < j < |rows| :: rows[i].symbol != rows[j].symbol
  }

  lemma {:induction false} InsertMultiset(score: Field, x: Observation, s: seq<Observation>)
    ensures multiset(Insert(score, x, s)) == multiset(s) + multiset{x}
  {
    if s != [] && Before(score, s[0], x) {
      InsertMultiset(score, x, s[1..]);
      assert s == [s[0]] + s[1..];
    }
  }

  lemma {:induction false} RankedMultiset(score: Field, rows: seq<Observation>)
    ensures multiset(Ranked(score, rows)) == multiset(rows)
  {
    if rows != [] {
      RankedMultiset(score, rows[1..]);
      InsertMultiset(score, rows[0], Ranked(score, rows[1..]));
      assert rows == [rows[0]] + rows[1..];
    }
  }

  lemma InsertMembers(score: Field, x: Observation, s: seq<Observation>, y: Observation)
    requires y in Insert(score, x, s)
    ensures y == x || y in s
  {
    InsertMultiset(score, x, s);
    assert y in multiset(Insert(score, x, s));
  }

  lemma {:induction false} InsertDescends(score: Field, x: Observation, s: seq<Observation>)
    requires Descending(score, s) && forall o | o in s :: o.symbol != x.symbol
    ensures Descending(score, Insert(score, x, s))
  {
    if s == [] {
    } else if !Before(score, s[0], x) {
      BeforeOrder(score, x, s[0]);
      forall i | 0 <= i < |s| ensures Before(score, x, s[i]) {
        if i > 0 {
          BeforeTransitive(score, x, s[0], s[i]);
        }
      }
    } else {
      var rest := Insert(score, x, s[1..]);
      InsertDescends(score, x, s[1..]);
      forall i | 0 <= i < |rest| ensures Before(score, s[0], rest[i]) {
        InsertMembers(score, x, s[1..], rest[i]);
      }
    }
  }

  lemma RankedMembers(score: Field, rows: seq<Observation>, o: Observation)
    ensures o in Ranked(score, rows) <==> o in rows
  {
    RankedMultiset(score, rows);
    assert o in multiset(Ranked(score, rows)) <==> o in multiset(rows);
  }

  lemma {:induction false} RankedDescends(score: Field, rows: seq<Observation>)
    requires DistinctSymbols(rows)
    ensures Descending(score, Ranked(score, rows))
  {
    if rows != [] {
      RankedDescends(score, rows[1..]);
      forall o | o in Ranked(score, rows[1..]) ensures o.symbol != rows[0].symbol {
        RankedMembers(score, rows[1..], o);
      }
      InsertDescends(score, rows[0], Ranked(score, rows[1..]));
    }
  }

  lemma TailMultisets<T>(a: seq<T>, b: seq<T>)
    requires a != [] && b != [] && a[0] == b[0] && multiset(a) == multiset(b)
    ensures multiset(a[1..]) == multiset(b[1..])
  {
    assert a == [a[0]] + a[1..] && b == [b[0]] + b[1..];
    assert multiset(a[1..]) == multiset(a) - multiset{a[0]};
    assert multiset(b[1..]) == multiset(b) - multiset{b[0]};
  }

  lemma SameHead(score: Field, a: seq<Observation>, b: seq<Observation>)
    requires a != [] && b != [] && multiset(a) == multiset(b) && Descending(score, a) && Descending(score, b)
    ensures a[0] == b[0]
  {
    assert a[0] in multiset(b) && b[0] in multiset(a);
    var i :| 0 <= i < |b| && b[i] == a[0];
    var j :| 0 <= j < |a| && a[j] == b[0];
    BeforeOrder(score, a[0], b[0]);
  }

  /** Two descending arrangements of the same rows are the same. */
  lemma {:induction false} DescendingIsUnique(score: Field, a: seq<Observation>, b: seq<Observation>)
    requires multiset(a) == multiset(b) && Descending(score, a) && Descending(score, b)
    ensures a == b
  {
    assert |multiset(a)| == |a| && |multiset(b)| == |b|;
    if a != [] {
      SameHead(score, a, b);
      TailMultisets(a, b);
      DescendingIsUnique(score, a[1..], b[1..]);
      assert a == [a[0]] + a[1..] && b == [b[0]] + b[1..];
    }
  }

  lemma {:induction false} InsertBySameScore(f: Field, g: Field, x: Observation, s: seq<Observation>)
    requires forall o :: f(o) == g(o)
    ensures Insert(f, x, s) == Insert(g, x, s)
  {
    if s != [] {
      InsertBySameScore(f, g, x, s[1..]);
    }
  }

  lemma {:induction false} RankedBySameScore(f: Field, g: Field, rows: seq<Observation>)
    requires forall o :: f(o) == g(o)
    ensures Ranked(f, rows) == Ranked(g, rows)
  {
    if rows != [] {
      RankedBySameScore(f, g, rows[1..]);
      InsertBySameScore(f, g, rows[0], Ranked(g, rows[1..]));
    }
  }

  function ScoreAmong(log1p: real -> real, rows: seq<Observation>): Field {
    (o: Observation) => Score(log1p, rows, o)
  }

  /** The eligible observations, best first. */
  function Ranking(log1p: real -> real, observations: seq<Observation>, origin: int): seq<Observation> {
    var rows := Eligible(observations, origin);
    Ranked(ScoreAmong(log1p, rows), rows)
  }

  lemma RestMultisets(a: seq<Observation>, x: nat, b: seq<Observation>)
    requires x < |a| && b != [] && a[x] == b[0] && multiset(a) == multiset(b)
    ensures multiset(a[..x] + a[x + 1..]) == multiset(b[1..])
  {
    WithoutOne(a, x);
    assert b == [b[0]] + b[1..];
  }

  lemma {:induction false} DistinctByMultiset(a: seq<Observation>, b: seq<Observation>)
    requires multiset(a) == multiset(b) && DistinctSymbols(a)
    ensures DistinctSymbols(b)
  {
    if b != [] {
      SameMembers(a, b, b[0]);
      var x :| 0 <= x < |a| && a[x] == b[0];
      var rest := a[..x] + a[x + 1..];
      RestMultisets(a, x, b);
      DistinctByMultiset(rest, b[1..]);
      forall o | o in b[1..] ensures o.symbol != b[0].symbol {
        SameMembers(rest, b[1..], o);
      }
    }
  }

  /** One set of rows has one ranking, whatever order it is listed in and however its scores are computed. */
  lemma OneRanking(f: Field, g: Field, a: seq<Observation>, b: seq<Observation>)
    requires multiset(a) == multiset(b) && DistinctSymbols(a) && forall o :: f(o) == g(o)
    ensures Ranked(f, a) == Ranked(g, b)
  {
    RankedBySameScore(f, g, b);
    DistinctByMultiset(a, b);
    RankedDescends(f, a);
    RankedDescends(f, b);
    RankedMultiset(f, a);
    RankedMultiset(f, b);
    DescendingIsUnique(f, Ranked(f, a), Ranked(f, b));
  }

  lemma SameScores(log1p: real -> real, a: seq<Observation>, b: seq<Observation>)
    requires multiset(a) == multiset(b)
    ensures forall o :: ScoreAmong(log1p, a)(o) == ScoreAmong(log1p, b)(o)
  {
    forall o ensures o in a <==> o in b {
      assert o in multiset(a) <==> o in multiset(b);
    }
    forall o ensures ScoreAmong(log1p, a)(o) == ScoreAmong(log1p, b)(o) {
      ScoreOfSameRows(log1p, a, b, o);
    }
  }

  /**
   The ranking is a function of the set of eligible rows: neither the order of the observations nor any
   ineligible one among them can be seen in it, nor in any score.
   */
  lemma RankingIsOfEligibleRows(log1p: real -> real, a: seq<Observation>, b: seq<Observation>, origin: int)
    requires multiset(Eligible(a, origin)) == multiset(Eligible(b, origin)) && DistinctSymbols(Eligible(a, origin))
    ensures Ranking(log1p, a, origin) == Ranking(log1p, b, origin)
    ensures forall o :: ScoreAmong(log1p, Eligible(a, origin))(o) == ScoreAmong(log1p, Eligible(b, origin))(o)
  {
    SameScores(log1p, Eligible(a, origin), Eligible(b, origin));
    OneRanking(ScoreAmong(log1p, Eligible(a, origin)), ScoreAmong(log1p, Eligible(b, origin)),
               Eligible(a, origin), Eligible(b, origin));
  }

  lemma KeptWithout(test: Test, a: seq<Observation>, x: Observation, b: seq<Observation>)
    requires !test(x)
    ensures Kept(test, a + [x] + b) == Kept(test, a + b)
  {
    KeptConcat(test, a + [x], b);
    KeptConcat(test, a, [x]);
    KeptConcat(test, a, b);
    assert [x][..0] == [] && Kept(test, [x]) == [];
  }

  /** An ineligible row may stand anywhere, or not at all. */
  lemma IneligibleRowIsInvisible(log1p: real -> real, a: seq<Observation>, x: Observation, b: seq<Observation>,
                                origin: int)
    requires !IsEligible(x, origin)
    ensures Eligible(a + [x] + b, origin) == Eligible(a + b, origin)
    ensures Ranking(log1p, a + [x] + b, origin) == Ranking(log1p, a + b, origin)
  {
    KeptWithout(EligibleAt(origin), a, x, b);
  }

  lemma KeptOfPermutation(test: Test, a: seq<Observation>, b: seq<Observation>)
    requires multiset(a) == multiset(b)
    ensures multiset(Kept(test, a)) == multiset(Kept(test, b))
  {
    forall o ensures multiset(Kept(test, a))[o] == multiset(Kept(test, b))[o] {
      KeptCounts(test, a, o);
      KeptCounts(test, b, o);
    }
  }

  /** Observations may arrive in any order. */
  lemma RankingIgnoresOrder(log1p: real -> real, a: seq<Observation>, b: seq<Observation>, origin: int)
    requires multiset(a) == multiset(b) && DistinctSymbols(Eligible(a, origin))
    ensures Ranking(log1p, a, origin) == Ranking(log1p, b, origin)
  {
    KeptOfPermutation(EligibleAt(origin), a, b);
    RankingIsOfEligibleRows(log1p, a, b, origin);
  }

  // ---- The scan ----------------------------------------------------------------------------

  /** One evaluated row as the scan reports it. */
  datatype Row = Row(observation: Observation, reasons: seq<Reason>, score: Option<real>, rank: Option<nat>)

  /** The rank that the dictionary of ranks gives a symbol. */
  function RankOf(ranking: seq<Observation>, symbol: string): Option<nat> {
    if ranking == [] then None
    else if ranking[|ranking| - 1].symbol == symbol then Some(|ranking|)
    else RankOf(ranking[..|ranking| - 1], symbol)
  }

  /** The score of the first ranked row with that symbol. */
  function ScoreOf(score: Field, ranking: seq<Observation>, symbol: string): Option<real> {
    if ranking == [] then None
    else if ranking[0].symbol == symbol then Some(score(ranking[0]))
    else ScoreOf(score, ranking[1..], symbol)
  }

  type Reasons = Observation -> seq<Reason>

  function ReasonsAt(origin: int): Reasons {
    (o: Observation) => ReasonsFor(o, origin)
  }

  function RowFor(reasons: Reasons, score: Field, ranking: seq<Observation>, o: Observation): Row {
    Row(o, reasons(o), if reasons(o) == [] then ScoreOf(score, ranking, o.symbol) else None, RankOf(ranking, o.symbol))
  }

  method Ranks(ranking: seq<Observation>) returns (ranks: map<string, nat>)
    ensures forall s ::
              (s in ranks <==> RankOf(ranking, s).Some?) && (s in ranks ==> RankOf(ranking, s) == Some(ranks[s]))
  {
    ranks := map[];
    for index := 0 to |ranking|
      invariant forall s :: (s in ranks <==> RankOf(ranking[..index], s).Some?)
                            && (s in ranks ==> RankOf(ranking[..index], s) == Some(ranks[s]))
    {
      assert ranking[..index + 1][..index] == ranking[..index];
      ranks := ranks[ranking[index].symbol := index + 1];
    }
    assert ranking[..|ranking|] == ranking;
  }

  method FirstScore(score: Field, ranking: seq<Observation>, symbol: string) returns (r: Option<real>)
    ensures r == ScoreOf(score, ranking, symbol)
  {
    for i := 0 to |ranking|
      invariant ScoreOf(score, ranking, symbol) == ScoreOf(score, ranking[i..], symbol)
    {
      assert ranking[i..][1..] == ranking[i + 1..];
      if ranking[i].symbol == symbol {
        return Some(score(ranking[i]));
      }
    }
    return None;
  }

  method CollectEligible(observations: seq<Observation>, origin: int, ghost test: Test)
    returns (eligible: seq<Observation>)
    requires test == EligibleAt(origin)
    ensures eligible == Kept(test, observations)
  {
    eligible := [];
    for k := 0 to |observations|
      invariant eligible == Kept(test, observations[..k])
    {
      assert observations[..k + 1][..k] == observations[..k];
      var reasons := ReasonsFor(observations[k], origin);
      assert test(observations[k]) == (reasons == []);
      if reasons == [] {
        eligible := eligible + [observations[k]];
      }
    }
    assert observations[..|observations|] == observations;
  }

  method ReportRows(reasons: Reasons, score: Field, ranking: seq<Observation>, observations: seq<Observation>)
    returns (rows: seq<Row>)
    ensures |rows| == |observations|
    ensures forall i | 0 <= i < |rows| :: rows[i] == RowFor(reasons, score, ranking, observations[i])
  {
    var ranks := Ranks(ranking);
    rows := [];
    for k := 0 to |observations|
      invariant |rows| == k && forall i | 0 <= i < k :: rows[i] == RowFor(reasons, score, ranking, observations[i])
    {
      var o := observations[k];
      var first := FirstScore(score, ranking, o.symbol);
      rows := rows + [Row(o, reasons(o), if reasons(o) == [] then first else None,
                          if o.symbol in ranks then Some(ranks[o.symbol]) else None)];
    }
  }

  /** `scan_candidates`: the evaluated rows in the order of the observations, and the selected symbols. */
  method ScanCandidates(log1p: real -> real, observations: seq<Observation>, origin: int, symbolCount: nat)
    returns (rows: seq<Row>, selected: seq<string>)
    ensures var ranking := Ranking(log1p, observations, origin);
            var score := ScoreAmong(log1p, Eligible(observations, origin));
            && |rows| == |observations|
            && (forall i | 0 <= i < |rows| :: rows[i] == RowFor(ReasonsAt(origin), score, ranking, observations[i]))
            && |selected| == (if symbolCount <= |ranking| then symbolCount else |ranking|)
            && forall i | 0 <= i < |selected| :: selected[i] == ranking[i].symbol
  {
    var eligible := CollectEligible(observations, origin, EligibleAt(origin));
    var score := ScoreAmong(log1p, eligible);
    var ranking := Ranked(score, eligible);
    rows := ReportRows(ReasonsAt(origin), score, ranking, observations);
    selected := Symbols(ranking, if symbolCount <= |ranking| then symbolCount else |ranking|);
  }

  method Symbols(ranking: seq<Observation>, count: nat) returns (selected: seq<string>)
    requires count <= |ranking|
    ensures |selected| == count && forall i | 0 <= i < count :: selected[i] == ranking[i].symbol
  {
    selected := [];
    for k := 0 to count
      invariant |selected| == k && forall i | 0 <= i < k :: selected[i] == ranking[i].symbol
    {
      selected := selected + [ranking[k].symbol];
    }
  }

  lemma {:induction false} RankReads(ranking: seq<Observation>, i: nat)
    requires DistinctSymbols(ranking) && i < |ranking|
    ensures RankOf(ranking, ranking[i].symbol) == Some(i + 1)
  {
    if i < |ranking| - 1 {
      RankReads(ranking[..|ranking| - 1], i);
    }
  }

  lemma {:induction false} ScoreReads(score: Field, ranking: seq<Observation>, i: nat)
    requires DistinctSymbols(ranking) && i < |ranking|
    ensures ScoreOf(score, ranking, ranking[i].symbol) == Some(score(ranking[i]))
  {
    if i > 0 {
      ScoreReads(score, ranking[1..], i - 1);
    }
  }

  lemma RankPlace(score: Field, rows: seq<Observation>, o: Observation) returns (i: nat)
    requires DistinctSymbols(rows) && o in rows
    ensures |Ranked(score, rows)| == |rows| && i < |rows| && Ranked(score, rows)[i] == o
    ensures RankOf(Ranked(score, rows), o.symbol) == Some(i + 1)
    ensures ScoreOf(score, Ranked(score, rows), o.symbol) == Some(score(o))
    ensures forall j | i < j < |rows| :: Before(score, o, Ranked(score, rows)[j])
  {
    var ranking := Ranked(score, rows);
    RankedMultiset(score, rows);
    assert |multiset(ranking)| == |ranking| && |multiset(rows)| == |rows|;
    RankedMembers(score, rows, o);
    i :| 0 <= i < |ranking| && ranking[i] == o;
    DistinctByMultiset(rows, ranking);
    RankedDescends(score, rows);
    RankReads(ranking, i);
    ScoreReads(score, ranking, i);
  }

  /**
   Ranks are a bijection: every eligible row gets one rank from one to the number of eligible rows, and
   the row of every such rank is eligible and reports that rank.
   */
  lemma RanksAreBijective(log1p: real -> real, observations: seq<Observation>, origin: int)
    requires DistinctSymbols(Eligible(observations, origin))
    ensures var ranking := Ranking(log1p, observations, origin);
            && |ranking| == |Eligible(observations, origin)|
            && (forall o :: o in ranking <==> o in Eligible(observations, origin))
            && (forall i: nat | i < |ranking| :: RankOf(ranking, ranking[i].symbol) == Some(i + 1))
            && DistinctSymbols(ranking)
  {
    var rows := Eligible(observations, origin);
    var score := ScoreAmong(log1p, rows);
    var ranking := Ranked(score, rows);
    RankedMultiset(score, rows);
    assert |multiset(ranking)| == |ranking| && |multiset(rows)| == |rows|;
    DistinctByMultiset(rows, ranking);
    forall o ensures o in ranking <==> o in rows {
      RankedMembers(score, rows, o);
    }
    forall i: nat | i < |ranking| ensures RankOf(ranking, ranking[i].symbol) == Some(i + 1) {
      RankReads(ranking, i);
    }
  }

  /** What the scan reports of an eligible row: its own score, and a rank before every row that it beats. */
  lemma EligibleRowIsReported(log1p: real -> real, observations: seq<Observation>, origin: int, o: Observation)
    requires DistinctSymbols(Eligible(observations, origin)) && o in observations && IsEligible(o, origin)
    ensures var rows := Eligible(observations, origin);
            var row := RowFor(ReasonsAt(origin), ScoreAmong(log1p, rows), Ranking(log1p, observations, origin), o);
            && row.score == Some(Score(log1p, rows, o)) && 0.0 <= row.score.value <= 1.0
            && row.rank.Some? && 1 <= row.rank.value <= |rows|
  {
    KeptMembers(EligibleAt(origin), observations, o);
    var rows := Eligible(observations, origin);
    var i := RankPlace(ScoreAmong(log1p, rows), rows, o);
    ScoreInUnit(log1p, rows, o, origin);
  }
}
