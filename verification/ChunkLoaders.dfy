/** The two chunk loaders compared: what the contiguous loop loads, the bitmap assembler assembles. */
module ChunkLoaders {
  import opened Wrappers
  import opened Chunks
  import opened FincastInput
  import opened PolicyConversion

  /** The forty cells of one row. */
  type Row = Cells

  function RowsOf(cells: Cells, rows: nat): (r: seq<Row>)
    requires |cells| == 40 * rows
    ensures |r| == rows && forall i | 0 <= i < rows :: r[i] == cells[40 * i..40 * i + 40]
  {
    seq(rows, i requires 0 <= i < rows => cells[40 * i..40 * i + 40])
  }

  /** A reader that yields as many cells as its rows take, and at least one row. */
  ghost predicate RowReader(read: Reader) {
    forall next: nat, name: string | read(next, name).Ok? :: WholeRows(read, next, name)
  }

  ghost predicate WholeRows(read: Reader, next: nat, name: string)
    requires read(next, name).Ok?
  {
    read(next, name).value.end > next && |read(next, name).value.cells| == 40 * (read(next, name).value.end - next)
  }

  lemma ReadsWholeRows(hash: Hash, readable: Readable, artifact: Artifact)
    ensures RowReader(Reads(hash, readable, artifact))
  {
  }

  /** The chunks that the loop has read when it has read `k` names. */
  function ChunksTo(read: Reader, names: seq<string>, k: nat): seq<Chunk<Row>>
    requires k <= |names|
  {
    if k == 0 then [] else
      var before := ChunksTo(read, names, k - 1);
      var l := LoadTo(read, names, k - 1);
      if l.Err? then before else before + ChunkOf(read, l.value.next, names[k - 1])
  }

  function ChunkOf(read: Reader, next: nat, name: string): seq<Chunk<Row>> {
    match read(next, name)
    case Err(_) => []
    case Ok(piece) =>
      if piece.end > next && |piece.cells| == 40 * (piece.end - next)
      then [Chunk(next, piece.end, RowsOf(piece.cells, piece.end - next))] else []
  }

  lemma RowsConcat(a: Cells, b: Cells, m: nat, n: nat)
    requires |a| == 40 * m && |b| == 40 * n
    ensures RowsOf(a + b, m + n) == RowsOf(a, m) + RowsOf(b, n)
  {
    forall i | 0 <= i < m + n
      ensures RowsOf(a + b, m + n)[i] == (RowsOf(a, m) + RowsOf(b, n))[i]
    {
      RowOfConcat(a, b, m, n, i);
    }
  }

  lemma RowOfConcat(a: Cells, b: Cells, m: nat, n: nat, i: nat)
    requires |a| == 40 * m && |b| == 40 * n && i < m + n
    ensures (a + b)[40 * i..40 * i + 40]
            == if i < m then a[40 * i..40 * i + 40] else b[40 * (i - m)..40 * (i - m) + 40]
  {
    if i < m {
      assert 40 * i + 40 <= 40 * m;
    } else {
      assert 40 * i == 40 * m + 40 * (i - m);
    }
  }

  lemma AppendContiguous(chunks: seq<Chunk<Row>>, c: Chunk<Row>)
    requires 0 <= c.start < c.end && |c.values| == c.end - c.start && Contiguous(chunks, c.start)
    ensures Contiguous(chunks + [c], c.end) && Joined(chunks + [c]) == Joined(chunks) + c.values
  {
    assert (chunks + [c])[..|chunks|] == chunks;
  }

  /** Contiguous chunks that are the rows of some cells. */
  ghost predicate HoldsRows(chunks: seq<Chunk<Row>>, l: Loaded) {
    && |l.cells| == 40 * l.next && Contiguous(chunks, l.next) && Joined(chunks) == RowsOf(l.cells, l.next)
  }

  lemma HoldsMoreRows(chunks: seq<Chunk<Row>>, l: Loaded, piece: Piece)
    requires HoldsRows(chunks, l) && piece.end > l.next && |piece.cells| == 40 * (piece.end - l.next)
    ensures HoldsRows(chunks + [Chunk(l.next, piece.end, RowsOf(piece.cells, piece.end - l.next))],
                      Loaded(piece.end, l.cells + piece.cells))
  {
    AppendContiguous(chunks, Chunk(l.next, piece.end, RowsOf(piece.cells, piece.end - l.next)));
    RowsConcat(l.cells, piece.cells, l.next, piece.end - l.next);
  }

  lemma ChunksStep(read: Reader, names: seq<string>, k: nat, before: Loaded)
    requires RowReader(read) && 0 < k <= |names| && LoadTo(read, names, k - 1) == Ok(before)
    requires read(before.next, names[k - 1]).Ok?
    ensures var piece := read(before.next, names[k - 1]).value;
            && piece.end > before.next && |piece.cells| == 40 * (piece.end - before.next)
            && ChunksTo(read, names, k)
               == ChunksTo(read, names, k - 1)
                  + [Chunk(before.next, piece.end, RowsOf(piece.cells, piece.end - before.next))]
            && LoadTo(read, names, k) == Ok(Loaded(piece.end, before.cells + piece.cells))
  {
    assert WholeRows(read, before.next, names[k - 1]);
  }

  lemma ContiguousStep(read: Reader, names: seq<string>, k: nat, before: Loaded)
    requires RowReader(read) && 0 < k <= |names| && LoadTo(read, names, k - 1) == Ok(before)
    requires read(before.next, names[k - 1]).Ok? && HoldsRows(ChunksTo(read, names, k - 1), before)
    ensures LoadTo(read, names, k).Ok? && HoldsRows(ChunksTo(read, names, k), LoadTo(read, names, k).value)
  {
    ChunksStep(read, names, k, before);
    HoldsMoreRows(ChunksTo(read, names, k - 1), before, read(before.next, names[k - 1]).value);
  }

  /** Whenever the loop of the loader succeeds, its chunks are contiguous, and its cells are their rows. */
  lemma {:induction false} LoadedIsContiguous(read: Reader, names: seq<string>, k: nat)
    requires RowReader(read) && k <= |names| && LoadTo(read, names, k).Ok?
    ensures HoldsRows(ChunksTo(read, names, k), LoadTo(read, names, k).value)
  {
    if k > 0 {
      LoadedIsContiguous(read, names, k - 1);
      ContiguousStep(read, names, k, LoadTo(read, names, k - 1).value);
    }
  }

  /**
   What the loader of the policy comparison loads from an artifact, the bitmap assembler accepts, whatever
   order it finds the chunks in, and every array that holds those chunks is the loaded one.
   */
  lemma LoadedIsAssembled(hash: Hash, sizes: Sizes, input: Input, artifact: Artifact, listed: seq<Chunk<Row>>,
                          output: seq<Row>)
    requires LoadedArray(hash, sizes, input, artifact).Ok?
    requires var names := artifact.manifest.chunks;
             multiset(listed) == multiset(ChunksTo(Reads(hash, ReadableBy(sizes), artifact), names, |names|))
    ensures input.rows >= 0 && Partition(listed, input.rows)
    ensures |LoadedArray(hash, sizes, input, artifact).value| == 40 * input.rows
    ensures |output| == input.rows && Holds(output, listed) ==>
              output == RowsOf(LoadedArray(hash, sizes, input, artifact).value, input.rows)
  {
    var read, names := Reads(hash, ReadableBy(sizes), artifact), artifact.manifest.chunks;
    var l, chunks := LoadTo(read, names, |names|).value, ChunksTo(read, names, |names|);
    ReadsWholeRows(hash, ReadableBy(sizes), artifact);
    LoadedIsContiguous(read, names, |names|);
    ContiguousIsPartition(chunks, l.next, output);
    PartitionIgnoresOrder(chunks, listed, l.next);
    if |output| == input.rows && Holds(output, listed) {
      HoldsIgnoresOrder(output, listed, chunks);
    }
  }
}
