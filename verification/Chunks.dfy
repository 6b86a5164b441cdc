/** Assembling a row array from chunks: by a bitmap in any order, or by contiguous ranges in order. */
module Chunks {
  import opened Wrappers
  import opened Sequences

  /** The rows of one binary file and the range that its metadata claims for them. */
  datatype Chunk<T> = Chunk(start: int, end: int, values: seq<T>)

  predicate InRange<T>(c: Chunk<T>, rows: nat) {
    0 <= c.start < c.end <= rows
  }

  /** A chunk that every per-chunk check accepts; a file of another length cannot be reshaped. */
  predicate Valid<T>(c: Chunk<T>, rows: nat) {
    InRange(c, rows) && |c.values| == c.end - c.start
  }

  predicate Covers<T>(c: Chunk<T>, row: int) {
    c.start <= row < c.end
  }

  /** How many chunks claim a row. */
  function Claims<T>(chunks: seq<Chunk<T>>, row: int): (n: nat)
    ensures n <= |chunks|
  {
    if chunks == [] then 0
    else Claims(chunks[..|chunks| - 1], row) + if Covers(chunks[|chunks| - 1], row) then 1 else 0
  }

  /** The chunks are valid and claim every row exactly once. */
  ghost predicate Partition<T>(chunks: seq<Chunk<T>>, rows: nat) {
    && (forall c | c in chunks :: Valid(c, rows))
    && (forall row | 0 <= row < rows :: Claims(chunks, row) == 1)
  }

  /** The array holds what a chunk says about its rows. */
  ghost predicate HoldsOne<T>(output: seq<T>, c: Chunk<T>) {
    && |c.values| == c.end - c.start
    && forall row | Covers(c, row) :: 0 <= row < |output| && output[row] == c.values[row - c.start]
  }

  ghost predicate Holds<T>(output: seq<T>, chunks: seq<Chunk<T>>) {
    forall c | c in chunks :: HoldsOne(output, c)
  }

  lemma {:induction false} ClaimsGrow<T>(chunks: seq<Chunk<T>>, k: nat, row: int)
    requires k <= |chunks|
    ensures Claims(chunks[..k], row) <= Claims(chunks, row)
  {
    if k < |chunks| {
      ClaimsGrow(chunks[..|chunks| - 1], k, row);
      assert chunks[..|chunks| - 1][..k] == chunks[..k];
    } else {
      assert chunks[..k] == chunks;
    }
  }

  lemma ClaimsStep<T>(chunks: seq<Chunk<T>>, k: nat, row: int)
    requires k < |chunks|
    ensures Claims(chunks[..k + 1], row) == Claims(chunks[..k], row) + if Covers(chunks[k], row) then 1 else 0
  {
    assert chunks[..k + 1][..k] == chunks[..k];
  }

  lemma {:induction false} ClaimedBySome<T>(chunks: seq<Chunk<T>>, row: int) returns (k: nat)
    requires Claims(chunks, row) > 0
    ensures k < |chunks| && Covers(chunks[k], row)
  {
    if Covers(chunks[|chunks| - 1], row) {
      k := |chunks| - 1;
    } else {
      k := ClaimedBySome(chunks[..|chunks| - 1], row);
    }
  }

  lemma {:induction false} ClaimedBy<T>(chunks: seq<Chunk<T>>, k: nat, row: int)
    requires k < |chunks| && Covers(chunks[k], row)
    ensures Claims(chunks, row) > 0
  {
    if k < |chunks| - 1 {
      ClaimedBy(chunks[..|chunks| - 1], k, row);
    }
  }

  // ---- By bitmap ---------------------------------------------------------------------------

  /** `seen[start:end].any()`. */
  method AnySeen(seen: array<bool>, start: nat, end: nat) returns (any: bool)
    requires start <= end <= seen.Length
    ensures any <==> exists row :: start <= row < end && seen[row]
  {
    for row := start to end
      invariant forall r | start <= r < row :: !seen[r]
    {
      if seen[row] {
        return true;
      }
    }
    return false;
  }

  /** `output[start:end] = values` and `seen[start:end] = 1`. */
  method CopyRows<T>(output: array<T>, seen: array<bool>, c: Chunk<T>)
    requires Valid(c, output.Length) && seen.Length == output.Length && (seen as object) != output
    modifies output, seen
    ensures forall row | 0 <= row < output.Length ::
              seen[row] == (old(seen[row]) || Covers(c, row))
              && output[row] == if Covers(c, row) then c.values[row - c.start] else old(output[row])
  {
    for row := c.start to c.end
      invariant forall r | 0 <= r < output.Length ::
                  seen[r] == (old(seen[r]) || c.start <= r < row)
                  && output[r] == if c.start <= r < row then c.values[r - c.start] else old(output[r])
    {
      output[row] := c.values[row - c.start];
      seen[row] := true;
    }
  }

  ghost predicate SeenIs<T>(seen: seq<bool>, chunks: seq<Chunk<T>>) {
    forall row | 0 <= row < |seen| :: Claims(chunks, row) <= 1 && seen[row] == (Claims(chunks, row) == 1)
  }

  lemma SeenStep<T>(before: seq<bool>, after: seq<bool>, chunks: seq<Chunk<T>>, k: nat)
    requires k < |chunks| && |before| == |after| && SeenIs(before, chunks[..k])
    requires forall row | 0 <= row < |before| && Covers(chunks[k], row) :: !before[row]
    requires forall row | 0 <= row < |before| :: after[row] == (before[row] || Covers(chunks[k], row))
    ensures SeenIs(after, chunks[..k + 1])
  {
    forall row | 0 <= row < |after|
      ensures Claims(chunks[..k + 1], row) <= 1 && after[row] == (Claims(chunks[..k + 1], row) == 1)
    {
      ClaimsStep(chunks, k, row);
      assert Claims(chunks[..k], row) <= 1;
    }
  }

  lemma HoldsStep<T>(before: seq<T>, after: seq<T>, seen: seq<bool>, chunks: seq<Chunk<T>>, k: nat)
    requires k < |chunks| && |before| == |after| == |seen| && Holds(before, chunks[..k]) && SeenIs(seen, chunks[..k])
    requires Valid(chunks[k], |before|)
    requires forall row | 0 <= row < |before| && Covers(chunks[k], row) :: !seen[row]
    requires forall row | 0 <= row < |before| ::
               after[row] == if Covers(chunks[k], row) then chunks[k].values[row - chunks[k].start] else before[row]
    ensures Holds(after, chunks[..k + 1])
  {
    assert chunks[..k + 1] == chunks[..k] + [chunks[k]];
    assert HoldsOne(after, chunks[k]);
    forall c | c in chunks[..k] ensures HoldsOne(after, c) {
      forall row | Covers(c, row) ensures 0 <= row < |after| && after[row] == c.values[row - c.start] {
        var j :| 0 <= j < k && chunks[..k][j] == c;
        ClaimedBy(chunks[..k], j, row);
        assert HoldsOne(before, c);
        assert Claims(chunks[..k], row) <= 1 && seen[row];
      }
    }
  }

  lemma OverlapIsNoPartition<T>(seen: seq<bool>, chunks: seq<Chunk<T>>, k: nat, row: nat)
    requires k < |chunks| && row < |seen| && SeenIs(seen, chunks[..k]) && seen[row] && Covers(chunks[k], row)
    ensures !Partition(chunks, |seen|)
  {
    ClaimsStep(chunks, k, row);
    ClaimsGrow(chunks, k + 1, row);
  }

  /** Every row of every file passes the check on its values. */
  ghost predicate SoundValues<T>(chunks: seq<Chunk<T>>, sound: T -> bool) {
    forall c | c in chunks :: SoundFile(c, sound)
  }

  ghost predicate SoundFile<T>(c: Chunk<T>, sound: T -> bool) {
    forall i | 0 <= i < |c.values| :: sound(c.values[i])
  }

  /** Checking the rows of the array is checking the rows of the files. */
  lemma SoundRows<T>(output: seq<T>, chunks: seq<Chunk<T>>, sound: T -> bool)
    requires Partition(chunks, |output|) && Holds(output, chunks)
    ensures SoundValues(chunks, sound) <==> forall row | 0 <= row < |output| :: sound(output[row])
  {
    if SoundValues(chunks, sound) {
      forall row | 0 <= row < |output|
        ensures sound(output[row])
      {
        var k := ClaimedBySome(chunks, row);
        assert HoldsOne(output, chunks[k]) && SoundFile(chunks[k], sound);
        assert output[row] == chunks[k].values[row - chunks[k].start];
      }
    }
    if forall row | 0 <= row < |output| :: sound(output[row]) {
      forall c, i | c in chunks && 0 <= i < |c.values|
        ensures sound(c.values[i])
      {
        assert HoldsOne(output, c) && Covers(c, c.start + i);
      }
    }
  }

  /** `seen.all()`, once every chunk is marked. */
  method AllSeen<T>(seen: array<bool>, chunks: seq<Chunk<T>>) returns (all: bool)
    requires SeenIs(seen[..], chunks)
    ensures all <==> forall row | 0 <= row < seen.Length :: Claims(chunks, row) == 1
  {
    for row := 0 to seen.Length
      invariant forall r | 0 <= r < row :: seen[r]
    {
      if !seen[row] {
        assert !seen[..][row];
        assert Claims(chunks, row) != 1;
        return false;
      }
    }
    forall row | 0 <= row < seen.Length
      ensures Claims(chunks, row) == 1
    {
      assert seen[..][row];
    }
    return true;
  }

  /** The last check, on the values of the whole array. */
  method CheckRows<T>(output: array<T>, chunks: seq<Chunk<T>>, sound: T -> bool) returns (passed: bool)
    requires Partition(chunks, output.Length) && Holds(output[..], chunks)
    ensures passed <==> SoundValues(chunks, sound)
  {
    SoundRows(output[..], chunks, sound);
    for row := 0 to output.Length
      invariant forall r | 0 <= r < row :: sound(output[..][r])
    {
      if !sound(output[row]) {
        assert output[..][row] == output[row];
        return false;
      }
    }
    return true;
  }

  /** One pass of the loop over the chunks: the checks, then the copy. */
  method PlaceChunk<T>(output: array<T>, seen: array<bool>, chunks: seq<Chunk<T>>, k: nat)
    returns (error: Option<string>)
    requires k < |chunks| && seen.Length == output.Length && (seen as object) != output
    requires SeenIs(seen[..], chunks[..k]) && Holds(output[..], chunks[..k])
    modifies output, seen
    ensures error.Some? ==> !Partition(chunks, output.Length)
    ensures error.None? ==>
              Valid(chunks[k], output.Length) && SeenIs(seen[..], chunks[..k + 1]) && Holds(output[..], chunks[..k + 1])
  {
    var c, rows := chunks[k], output.Length;
    assert c in chunks;
    if c.start < 0 || c.end <= c.start || c.end > rows {
      return Some("context output chunk range is invalid");
    }
    if |c.values| != c.end - c.start {
      return Some("cannot reshape the chunk");
    }
    var overlap := AnySeen(seen, c.start, c.end);
    if overlap {
      ghost var row :| c.start <= row < c.end && seen[row];
      OverlapIsNoPartition(seen[..], chunks, k, row);
      return Some("context output chunks overlap");
    }
    ghost var before, marks := output[..], seen[..];
    CopyRows(output, seen, c);
    SeenStep(marks, seen[..], chunks, k);
    HoldsStep(before, output[..], marks, chunks, k);
    return None;
  }

  /**
   The bitmap assembler. It accepts exactly the chunk lists that partition the rows, in whatever order
   they are listed, and whose rows are all finite and in order (`sound`); every row then holds what its
   chunk says.
   */
  method Assemble<T>(rows: nat, chunks: seq<Chunk<T>>, blank: T, sound: T -> bool) returns (r: Result<seq<T>>)
    ensures r.Ok? <==> Partition(chunks, rows) && SoundValues(chunks, sound)
    ensures r.Ok? ==> |r.value| == rows && Holds(r.value, chunks)
  {
    var output := new T[rows](_ => blank);
    var seen := new bool[rows](_ => false);
    for k := 0 to |chunks|
      invariant forall j | 0 <= j < k :: Valid(chunks[j], rows)
      invariant SeenIs(seen[..], chunks[..k]) && Holds(output[..], chunks[..k])
    {
      var error := PlaceChunk(output, seen, chunks, k);
      if error.Some? {
        return Err(error.value);
      }
    }
    assert chunks[..|chunks|] == chunks;
    var complete := AllSeen(seen, chunks);
    if !complete {
      return Err("context output chunks omit rows");
    }
    var passed := CheckRows(output, chunks, sound);
    if !passed {
      return Err("context output contains non-finite or non-monotone quantiles");
    }
    assert Partition(chunks, rows) && SoundValues(chunks, sound);
    return Ok(output[..]);
  }

  // ---- The order of the chunks ---------------------------------------------------------------

  lemma ClaimsSplit<T>(a: seq<Chunk<T>>, k: nat, row: int)
    requires k < |a|
    ensures Claims(a, row) == Claims(a[..k] + a[k + 1..], row) + if Covers(a[k], row) then 1 else 0
    decreases |a|
  {
    if k == |a| - 1 {
      assert a[..k] + a[k + 1..] == a[..k];
    } else {
      var before := a[..|a| - 1];
      ClaimsSplit(before, k, row);
      assert (a[..k] + a[k + 1..])[..|a| - 2] == before[..k] + before[k + 1..];
    }
  }

  lemma {:induction false} ClaimsIgnoreOrder<T>(a: seq<Chunk<T>>, b: seq<Chunk<T>>, row: int)
    requires multiset(a) == multiset(b)
    ensures Claims(a, row) == Claims(b, row)
  {
    if b == [] {
      assert |multiset(a)| == 0;
    } else {
      var last := b[|b| - 1];
      assert b[..|b| - 1] + b[|b|..] == b[..|b| - 1];
      WithoutOne(b, |b| - 1);
      assert last in multiset(a);
      var k :| 0 <= k < |a| && a[k] == last;
      WithoutOne(a, k);
      ClaimsSplit(a, k, row);
      ClaimsIgnoreOrder(a[..k] + a[k + 1..], b[..|b| - 1], row);
    }
  }

  lemma HoldsIgnoresOrder<T>(output: seq<T>, a: seq<Chunk<T>>, b: seq<Chunk<T>>)
    requires multiset(a) == multiset(b) && Holds(output, a)
    ensures Holds(output, b)
  {
    forall c | c in b ensures HoldsOne(output, c) {
      SameMembers(a, b, c);
    }
  }

  lemma HeldArrayIsUnique<T>(x: seq<T>, y: seq<T>, chunks: seq<Chunk<T>>, rows: nat)
    requires Partition(chunks, rows) && |x| == |y| == rows && Holds(x, chunks) && Holds(y, chunks)
    ensures x == y
  {
    forall row | 0 <= row < rows ensures x[row] == y[row] {
      var k := ClaimedBySome(chunks, row);
      assert HoldsOne(x, chunks[k]) && HoldsOne(y, chunks[k]);
    }
  }

  lemma PartitionIgnoresOrder<T>(a: seq<Chunk<T>>, b: seq<Chunk<T>>, rows: nat)
    requires multiset(a) == multiset(b) && Partition(a, rows)
    ensures Partition(b, rows)
  {
    forall row | 0 <= row < rows
      ensures Claims(b, row) == 1
    {
      ClaimsIgnoreOrder(a, b, row);
    }
    forall c | c in b
      ensures Valid(c, rows)
    {
      SameMembers(a, b, c);
    }
  }

  lemma SoundIgnoresOrder<T>(a: seq<Chunk<T>>, b: seq<Chunk<T>>, sound: T -> bool)
    requires multiset(a) == multiset(b) && SoundValues(a, sound)
    ensures SoundValues(b, sound)
  {
    forall c | c in b
      ensures SoundFile(c, sound)
    {
      SameMembers(a, b, c);
    }
  }

  /** Listing the same chunks in another order changes neither acceptance nor the array. */
  lemma AssemblyIgnoresOrder<T>(a: seq<Chunk<T>>, b: seq<Chunk<T>>, rows: nat, sound: T -> bool, x: seq<T>, y: seq<T>)
    requires multiset(a) == multiset(b)
    ensures Partition(a, rows) && SoundValues(a, sound) ==> Partition(b, rows) && SoundValues(b, sound)
    ensures Partition(a, rows) && |x| == |y| == rows && Holds(x, a) && Holds(y, b) ==> x == y
  {
    if Partition(a, rows) {
      PartitionIgnoresOrder(a, b, rows);
      if SoundValues(a, sound) {
        SoundIgnoresOrder(a, b, sound);
      }
      if |x| == |y| == rows && Holds(x, a) && Holds(y, b) {
        HoldsIgnoresOrder(x, a, b);
        HeldArrayIsUnique(x, y, b, rows);
      }
    }
  }

  // ---- In contiguous order -------------------------------------------------------------------

  /** The ranges follow one another from row zero to `rows`. */
  predicate Contiguous<T>(chunks: seq<Chunk<T>>, rows: nat) {
    if chunks == [] then rows == 0 else
      var last := chunks[|chunks| - 1];
      && 0 <= last.start < last.end == rows && |last.values| == last.end - last.start
      && Contiguous(chunks[..|chunks| - 1], last.start)
  }

  function Joined<T>(chunks: seq<Chunk<T>>): seq<T> {
    if chunks == [] then [] else Joined(chunks[..|chunks| - 1]) + chunks[|chunks| - 1].values
  }

  lemma {:induction false} ContiguousClaims<T>(chunks: seq<Chunk<T>>, rows: nat, row: int)
    requires Contiguous(chunks, rows)
    ensures Claims(chunks, row) == if 0 <= row < rows then 1 else 0
  {
    if chunks != [] {
      ContiguousClaims(chunks[..|chunks| - 1], chunks[|chunks| - 1].start, row);
    }
  }

  lemma HoldsInFront<T>(front: seq<T>, more: seq<T>, c: Chunk<T>)
    requires HoldsOne(front, c)
    ensures HoldsOne(front + more, c)
  {
    forall row | Covers(c, row) ensures 0 <= row < |front + more| && (front + more)[row] == c.values[row - c.start] {
      assert front[row] == c.values[row - c.start];
    }
  }

  lemma {:induction false} ContiguousHolds<T>(chunks: seq<Chunk<T>>, rows: nat)
    requires Contiguous(chunks, rows)
    ensures |Joined(chunks)| == rows && Holds(Joined(chunks), chunks)
    ensures forall c | c in chunks :: Valid(c, rows)
  {
    if chunks != [] {
      var before, last := chunks[..|chunks| - 1], chunks[|chunks| - 1];
      assert chunks == before + [last];
      ContiguousHolds(before, last.start);
      forall c | c in before ensures HoldsOne(Joined(chunks), c) {
        HoldsInFront(Joined(before), last.values, c);
      }
    }
  }

  /** Contiguous chunks pass the bitmap assembler, and the array that holds them is their values joined. */
  lemma ContiguousIsPartition<T>(chunks: seq<Chunk<T>>, rows: nat, output: seq<T>)
    requires Contiguous(chunks, rows)
    ensures Partition(chunks, rows)
    ensures |output| == rows && Holds(output, chunks) ==> output == Joined(chunks)
  {
    ContiguousHolds(chunks, rows);
    forall row | 0 <= row < rows ensures Claims(chunks, row) == 1 {
      ContiguousClaims(chunks, rows, row);
    }
    if |output| == rows && Holds(output, chunks) {
      HeldArrayIsUnique(output, Joined(chunks), chunks, rows);
    }
  }
}
