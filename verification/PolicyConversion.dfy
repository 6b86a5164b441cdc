/**
 The round trip between two languages: the Python converter projects a Chronos-2 run into the
 interchange shape, and the TypeScript loader reads it back.
 */
module PolicyConversion {
  import opened Wrappers
  import opened ChunkNames
  import opened FincastInput
  import opened JsonValues

  /** A float of a binary file; `None` is NaN or an infinity. */
  type Cell = Option<real>

  type Cells = seq<Cell>

  /** SHA-256 of a binary payload, as a parameter. */
  type Hash = Cells -> string

  const HORIZONS: nat := 4
  const SOURCE_COLUMNS: nat := 22
  const POLICY_COLUMNS: nat := 10

  const SOURCE_QUANTILES: seq<real> :=
    [0.01, 0.05, 0.1, 0.15, 0.2, 0.25, 0.3, 0.35, 0.4, 0.45, 0.5,
     0.55, 0.6, 0.65, 0.7, 0.75, 0.8, 0.85, 0.9, 0.95, 0.99]

  // ---- Projection --------------------------------------------------------------------------

  /** The source column of a policy column: the mean, then the column of each decile. */
  function Column(k: nat): (c: nat)
    requires k < POLICY_COLUMNS
    ensures c < SOURCE_COLUMNS
  {
    if k == 0 then 0 else 2 * k + 1
  }

  /** The columns are found by looking the deciles up among the quantiles of the source. */
  lemma ColumnsAreDeciles(k: nat)
    requires 1 <= k < POLICY_COLUMNS
    ensures SOURCE_QUANTILES[Column(k) - 1] == k as real / 10.0
    ensures forall i | 0 <= i < Column(k) - 1 :: SOURCE_QUANTILES[i] < k as real / 10.0
  {
  }

  function At(values: Cells, line: nat, c: nat): Cell
    requires 22 * line + c < |values|
  {
    values[22 * line + c]
  }

  predicate InOrder(low: Cell, high: Cell) {
    low.Some? && high.Some? && low.value <= high.value
  }

  /** One (row, horizon) line of 22 columns: finite everywhere, the quantile columns not decreasing. */
  predicate SoundLine(values: Cells, line: nat)
    requires 22 * line + 22 <= |values|
  {
    && (forall c: nat | c < 22 :: At(values, line, c).Some?)
    && (forall c: nat | 1 <= c < 21 :: InOrder(At(values, line, c), At(values, line, c + 1)))
  }

  predicate Sound(values: Cells) {
    |values| % 22 == 0 && forall line: nat | line < |values| / 22 :: SoundLine(values, line)
  }

  function Projected(values: Cells): (out: Cells)
    ensures |out| == |values| / 22 * 10
  {
    seq(|values| / 22 * 10, i requires 0 <= i < |values| / 22 * 10 => values[22 * (i / 10) + Column(i % 10)])
  }

  method LineIsSound(values: Cells, line: nat) returns (sound: bool)
    requires 22 * line + 22 <= |values|
    ensures sound == SoundLine(values, line)
  {
    for c := 0 to 22
      invariant forall i: nat | i < c :: At(values, line, i).Some?
    {
      if At(values, line, c).None? {
        return false;
      }
    }
    for c := 1 to 21
      invariant forall i: nat | 1 <= i < c :: InOrder(At(values, line, i), At(values, line, i + 1))
    {
      if At(values, line, c).value > At(values, line, c + 1).value {
        assert !InOrder(At(values, line, c), At(values, line, c + 1));
        return false;
      }
    }
    return true;
  }

  method CopyLine(values: Cells, line: nat, out: array<Cell>)
    requires 22 * line + 22 <= |values| && 10 * line + 10 <= out.Length
    modifies out
    ensures forall i | 0 <= i < out.Length ::
              out[i] == if 10 * line <= i < 10 * line + 10
                        then values[22 * line + Column(i - 10 * line)] else old(out[i])
  {
    for k := 0 to 10
      invariant forall i | 0 <= i < out.Length ::
                  out[i] == if 10 * line <= i < 10 * line + k
                            then values[22 * line + Column(i - 10 * line)] else old(out[i])
    {
      out[10 * line + k] := values[22 * line + Column(k)];
    }
  }

  lemma ProjectedLine(values: Cells, line: nat, k: nat)
    requires |values| % 22 == 0 && line < |values| / 22 && k < 10
    ensures Projected(values)[10 * line + k] == values[22 * line + Column(k)]
  {
    assert (10 * line + k) / 10 == line && (10 * line + k) % 10 == k;
  }

  ghost predicate CopiedLines(out: Cells, values: Cells, lines: nat)
    requires |values| % 22 == 0 && |out| == |values| / 22 * 10
  {
    forall i | 0 <= i < 10 * lines && i < |out| :: out[i] == Projected(values)[i]
  }

  lemma CopiedOneMore(before: Cells, after: Cells, values: Cells, line: nat)
    requires |values| % 22 == 0 && line < |values| / 22 && |before| == |after| == |values| / 22 * 10
    requires CopiedLines(before, values, line)
    requires forall i | 0 <= i < |after| ::
               after[i] == if 10 * line <= i < 10 * line + 10
                           then values[22 * line + Column(i - 10 * line)] else before[i]
    ensures CopiedLines(after, values, line + 1)
  {
    forall i | 0 <= i < 10 * (line + 1) && i < |after| ensures after[i] == Projected(values)[i] {
      if i >= 10 * line {
        ProjectedLine(values, line, i - 10 * line);
      }
    }
  }

  /** `project`: all checks first, then the mean and the deciles of every line. */
  method Project(values: Cells) returns (r: Result<Cells>)
    requires |values| % 22 == 0
    ensures r == if Sound(values) then Ok(Projected(values))
                 else Err("Chronos-2 output fails finite or monotonicity checks")
  {
    var lines := |values| / 22;
    for line := 0 to lines
      invariant forall l: nat | l < line :: SoundLine(values, l)
    {
      var sound := LineIsSound(values, line);
      if !sound {
        return Err("Chronos-2 output fails finite or monotonicity checks");
      }
    }
    var out := new Cell[10 * lines](_ => None);
    for line := 0 to lines
      invariant CopiedLines(out[..], values, line)
    {
      ghost var before := out[..];
      CopyLine(values, line, out);
      CopiedOneMore(before, out[..], values, line);
    }
    assert out[..] == Projected(values);
    return Ok(out[..]);
  }

  /** The projection keeps the order of the quantiles. */
  lemma ProjectionKeepsOrder(values: Cells, line: nat, k: nat)
    requires Sound(values) && line < |values| / 22 && 1 <= k < 9
    ensures InOrder(Projected(values)[10 * line + k], Projected(values)[10 * line + k + 1])
  {
    ProjectedLine(values, line, k);
    ProjectedLine(values, line, k + 1);
    assert SoundLine(values, line);
    var c := Column(k);
    assert InOrder(At(values, line, c), At(values, line, c + 1))
           && InOrder(At(values, line, c + 1), At(values, line, c + 2));
  }

  lemma ProjectedConcat(a: Cells, b: Cells)
    requires |a| % 22 == 0 && |b| % 22 == 0
    ensures |a + b| % 22 == 0 && Projected(a + b) == Projected(a) + Projected(b)
  {
    var lines := |a| / 22;
    assert |a + b| == 22 * (lines + |b| / 22);
    forall i | 0 <= i < |Projected(a + b)| ensures Projected(a + b)[i] == (Projected(a) + Projected(b))[i] {
      var line, k := i / 10, i % 10;
      ProjectedLine(a + b, line, k);
      if line < lines {
        ProjectedLine(a, line, k);
      } else {
        ProjectedLine(b, line - lines, k);
      }
    }
  }

  // ---- The converter -----------------------------------------------------------------------

  datatype SourceMeta = SourceMeta(start: int, end: int, shape: seq<int>, binary: string, size: int, digest: string,
                                   latency: Json, telemetry: Json)

  /**
   A Chronos-2 run: the fields of its manifests that are checked or handed on, and its chunk files.
   `provenance` comes from the output manifest, `profile` from the input manifest.
   */
  datatype SourceRun = SourceRun(known: bool, complete: bool, sameOrigins: bool, completedRows: int, rowCount: int,
                                 shape: seq<int>, backend: string, batch: int, provenance: Json, profile: Json,
                                 chunks: seq<string>, metadata: map<string, SourceMeta>, binaries: map<string, Cells>)

  /** The provenance of a written document: the run's, with some fields replaced. */
  datatype Provenance =
    | ForChunk(run: Json, chunkDigest: string)
    | ForManifest(run: Json, profile: Json, outputDigest: string)

  datatype PolicyMeta = PolicyMeta(start: int, end: int, binary: string, size: int, digest: string, backend: string,
                                   batch: int, provenance: Provenance, latency: Json, telemetry: Json)

  datatype PolicyManifest = PolicyManifest(inputDigest: string, artifactDigest: string, cadence: int, seed: int,
                                           backend: string, batch: int, chunks: seq<string>, completedRows: int,
                                           complete: bool, provenance: Provenance)

  datatype Artifact = Artifact(manifest: PolicyManifest, metadata: map<string, PolicyMeta>,
                               binaries: map<string, Cells>)

  /** How many bytes the written JSON documents take, as parameters. */
  datatype Sizes = Sizes(manifest: PolicyManifest -> nat, meta: PolicyMeta -> nat)

  predicate SourceContract(input: Input, run: SourceRun) {
    && run.known && run.complete && run.sameOrigins && run.completedRows == input.rows && run.rowCount == input.rows
    && run.shape == [input.rows, HORIZONS, SOURCE_COLUMNS] && run.chunks != []
  }

  datatype Piece = Piece(end: nat, cells: Cells)

  /** The checks of one source chunk and its file; a file whose size does not fit its shape cannot be reshaped. */
  function OpenChunk(hash: Hash, run: SourceRun, next: nat, name: string): (r: Result<Piece>)
    ensures r.Ok? ==> r.value.end > next && |r.value.cells| == 88 * (r.value.end - next)
    ensures r.Ok? ==> name in run.metadata && r.value.cells == SourceCells(run, name)
  {
    if !SafeName(name, ".json") then Err("Chronos-2 chunk path is unsafe")
    else if name !in run.metadata then Err("Chronos-2 chunk is missing")
    else
      var meta := run.metadata[name];
      if meta.start != next || meta.end <= meta.start || meta.shape != [meta.end - meta.start, HORIZONS, SOURCE_COLUMNS]
      then Err("Chronos-2 chunks are not one contiguous range")
      else if !SafeName(meta.binary, ".f32") || meta.size < 1 then Err("Chronos-2 chunk output is invalid")
      else if meta.binary !in run.binaries || 4 * |run.binaries[meta.binary]| != meta.size
              || hash(run.binaries[meta.binary]) != meta.digest
      then Err("Chronos-2 prediction chunk differs from its manifest")
      else if |run.binaries[meta.binary]| != 88 * (meta.end - meta.start) then Err("cannot reshape the chunk")
      else Ok(Piece(meta.end, run.binaries[meta.binary]))
  }

  /** The binary of a source chunk. */
  function SourceCells(run: SourceRun, name: string): Cells {
    if name in run.metadata && run.metadata[name].binary in run.binaries
    then run.binaries[run.metadata[name].binary] else []
  }

  /** Everything that can go wrong with one chunk, given the rows done so far and the chunk's name. */
  function CheckChunk(hash: Hash, run: SourceRun, next: nat, name: string): (r: Result<Piece>)
    ensures r.Ok? ==> name in run.metadata && r.value.cells == SourceCells(run, name)
  {
    var piece := OpenChunk(hash, run, next, name);
    if piece.Ok? && !Sound(piece.value.cells)
    then Err("Chronos-2 output fails finite or monotonicity checks") else piece
  }

  datatype Progress = Progress(next: nat, chunks: seq<string>, metadata: map<string, PolicyMeta>,
                               binaries: map<string, Cells>)

  const NOTHING: Progress := Progress(0, [], map[], map[])

  function Backend(run: SourceRun): string {
    "chronos2_" + run.backend
  }

  function MetaName(start: nat, end: nat): string {
    Name(start, end, ".json")
  }

  function BinaryName(start: nat, end: nat): string {
    Name(start, end, ".f32")
  }

  function MetaFor(hash: Hash, run: SourceRun, source: SourceMeta, start: nat, end: nat, projected: Cells): PolicyMeta {
    PolicyMeta(start, end, BinaryName(start, end), 4 * |projected|, hash(projected), Backend(run), run.batch,
               ForChunk(run.provenance, source.digest), source.latency, source.telemetry)
  }

  /** The files that one converted chunk adds. */
  function Extended(hash: Hash, run: SourceRun, source: SourceMeta, p: Progress, end: nat, projected: Cells): Progress {
    Progress(end, p.chunks + [MetaName(p.next, end)],
             p.metadata[MetaName(p.next, end) := MetaFor(hash, run, source, p.next, end, projected)],
             p.binaries[BinaryName(p.next, end) := projected])
  }

  /** One pass of the converter's loop: the progress so far and the name of the next chunk. */
  type Step = (Progress, string) -> Result<Progress>

  function StepOf(hash: Hash, run: SourceRun, p: Progress, name: string): Result<Progress> {
    var piece := CheckChunk(hash, run, p.next, name);
    if piece.Err? then Err(piece.reason)
    else Ok(Extended(hash, run, run.metadata[name], p, piece.value.end, Projected(piece.value.cells)))
  }

  function Steps(hash: Hash, run: SourceRun): Step {
    (p: Progress, name: string) => StepOf(hash, run, p, name)
  }

  function ConvertTo(step: Step, names: seq<string>, k: nat): Result<Progress>
    requires k <= |names|
  {
    if k == 0 then Ok(NOTHING) else
      var before := ConvertTo(step, names, k - 1);
      if before.Err? then before else step(before.value, names[k - 1])
  }

  /** The whole source array. */
  function SourceArray(run: SourceRun, k: nat): Cells
    requires k <= |run.chunks|
  {
    if k == 0 then [] else SourceArray(run, k - 1) + SourceCells(run, run.chunks[k - 1])
  }

  function ManifestFor(hash: Hash, input: Input, run: SourceRun, chunks: seq<string>): PolicyManifest {
    PolicyManifest(input.manifestDigest, input.artifactDigest, input.cadence, input.seed, Backend(run), run.batch,
                   chunks, input.rows, true,
                   ForManifest(run.provenance, run.profile, hash(SourceArray(run, |run.chunks|))))
  }

  function Finished(hash: Hash, input: Input, run: SourceRun, p: Progress): Result<Artifact> {
    if p.next != input.rows then Err("Chronos-2 chunks do not cover all rows")
    else Ok(Artifact(ManifestFor(hash, input, run, p.chunks), p.metadata, p.binaries))
  }

  /** `main` of the converter. */
  function Converted(hash: Hash, input: Input, run: SourceRun): Result<Artifact> {
    if !ConverterTakes(input) then Err("FinCast input manifest contract is invalid")
    else if !SourceContract(input, run) then Err("Chronos-2 output is incomplete or malformed")
    else
      var p := ConvertTo(Steps(hash, run), run.chunks, |run.chunks|);
      if p.Err? then Err(p.reason) else Finished(hash, input, run, p.value)
  }

  lemma {:induction false} ConvertStuck(step: Step, names: seq<string>, k: nat, n: nat)
    requires k <= n <= |names| && ConvertTo(step, names, k).Err?
    ensures ConvertTo(step, names, n) == ConvertTo(step, names, k)
  {
    if k < n {
      ConvertStuck(step, names, k, n - 1);
    }
  }

  /** The last of the first `k` steps. */
  lemma LastStep(step: Step, names: seq<string>, k: nat)
    requires 0 < k <= |names| && ConvertTo(step, names, k).Ok?
    ensures ConvertTo(step, names, k - 1).Ok?
    ensures step(ConvertTo(step, names, k - 1).value, names[k - 1]) == ConvertTo(step, names, k)
  {
  }

  lemma OneMoreStep(step: Step, names: seq<string>, k: nat, p: Progress, next: Result<Progress>)
    requires k < |names| && ConvertTo(step, names, k) == Ok(p) && step(p, names[k]) == next
    ensures ConvertTo(step, names, k + 1) == next
    ensures next.Err? ==> ConvertTo(step, names, |names|) == next
  {
    if next.Err? {
      ConvertStuck(step, names, k + 1, |names|);
    }
  }

  lemma StepOfPiece(hash: Hash, run: SourceRun, p: Progress, name: string, piece: Piece)
    requires OpenChunk(hash, run, p.next, name) == Ok(piece)
    ensures StepOf(hash, run, p, name)
            == if Sound(piece.cells)
               then Ok(Extended(hash, run, run.metadata[name], p, piece.end, Projected(piece.cells)))
               else Err("Chronos-2 output fails finite or monotonicity checks")
  {
  }

  /** Names and describes the two files of a converted chunk. */
  method WriteChunk(hash: Hash, run: SourceRun, source: SourceMeta, p: Progress, end: nat, projected: Cells)
    returns (q: Progress)
    ensures q == Extended(hash, run, source, p, end, projected)
  {
    var meta, binary := MetaName(p.next, end), BinaryName(p.next, end);
    q := Progress(end, p.chunks + [meta], p.metadata[meta := MetaFor(hash, run, source, p.next, end, projected)],
                  p.binaries[binary := projected]);
  }

  /** One pass of the converter's loop. */
  method ConvertChunk(hash: Hash, run: SourceRun, p: Progress, name: string) returns (r: Result<Progress>)
    ensures r == StepOf(hash, run, p, name)
  {
    var piece := OpenChunk(hash, run, p.next, name);
    if piece.Err? {
      return Err(piece.reason);
    }
    StepOfPiece(hash, run, p, name, piece.value);
    var projected := Project(piece.value.cells);
    if projected.Err? {
      return Err(projected.reason);
    }
    var q := WriteChunk(hash, run, run.metadata[name], p, piece.value.end, projected.value);
    return Ok(q);
  }

  method Convert(hash: Hash, input: Input, run: SourceRun) returns (r: Result<Artifact>)
    ensures r == Converted(hash, input, run)
  {
    if !ConverterTakes(input) {
      return Err("FinCast input manifest contract is invalid");
    }
    if !SourceContract(input, run) {
      return Err("Chronos-2 output is incomplete or malformed");
    }
    var p := ConvertChunks(hash, run);
    if p.Err? {
      return Err(p.reason);
    }
    if p.value.next != input.rows {
      return Err("Chronos-2 chunks do not cover all rows");
    }
    return Ok(Artifact(ManifestFor(hash, input, run, p.value.chunks), p.value.metadata, p.value.binaries));
  }

  /** The next chunk of the loop. */
  method ConvertNext(hash: Hash, run: SourceRun, p: Progress, k: nat) returns (next: Result<Progress>)
    requires k < |run.chunks| && ConvertTo(Steps(hash, run), run.chunks, k) == Ok(p)
    ensures next == ConvertTo(Steps(hash, run), run.chunks, k + 1)
    ensures next.Err? ==> next == ConvertTo(Steps(hash, run), run.chunks, |run.chunks|)
  {
    next := ConvertChunk(hash, run, p, run.chunks[k]);
    OneMoreStep(Steps(hash, run), run.chunks, k, p, next);
  }

  /** The loop over the source chunks. */
  method ConvertChunks(hash: Hash, run: SourceRun) returns (r: Result<Progress>)
    ensures r == ConvertTo(Steps(hash, run), run.chunks, |run.chunks|)
  {
    hide Steps;
    var p := NOTHING;
    for k := 0 to |run.chunks|
      invariant ConvertTo(Steps(hash, run), run.chunks, k) == Ok(p)
    {
      var next := ConvertNext(hash, run, p, k);
      if next.Err? {
        return next;
      }
      p := next.value;
    }
    return Ok(p);
  }

  // ---- The loader --------------------------------------------------------------------------

  const PROJECTION: Json := Text("native-q10-through-q90-exact-selection/v1")

  /** The fields of the run's provenance that are replaced. */
  function Replaced(p: Provenance): map<string, Json> {
    match p
    case ForChunk(_, digest) =>
      map["model_family" := Text("chronos-2"), "policy_projection" := PROJECTION, "source_chunk_sha256" := Text(digest)]
    case ForManifest(_, profile, digest) =>
      map["model_family" := Text("chronos-2"), "input_profile" := profile, "source_output_digest" := Text(digest),
          "policy_projection" := PROJECTION]
  }

  /** The provenance as it is written. */
  function Document(p: Provenance): Json {
    Merged(p.run, Replaced(p))
  }

  predicate FitsBound(bytes: nat) {
    2 <= bytes <= LOADER_JSON_BYTES
  }

  /** `boundedJson` on the metadata of a chunk. */
  predicate ReadableMeta(sizes: Sizes, meta: PolicyMeta) {
    FitsBound(sizes.meta(meta)) && Strict(Document(meta.provenance)) && Strict(meta.latency) && Strict(meta.telemetry)
  }

  /** Which metadata documents the loader can read. */
  type Readable = PolicyMeta -> bool

  function ReadableBy(sizes: Sizes): Readable {
    (meta: PolicyMeta) => ReadableMeta(sizes, meta)
  }

  /** `boundedJson` on the manifest. */
  predicate ReadableManifest(sizes: Sizes, m: PolicyManifest) {
    FitsBound(sizes.manifest(m)) && Strict(Document(m.provenance))
  }

  datatype Loaded = Loaded(next: nat, cells: Cells)

  /** The checks of one chunk against the rows that are already there, and its cells. */
  function ReadChunk(hash: Hash, readable: Readable, artifact: Artifact, next: nat, name: string): (r: Result<Piece>)
    ensures r.Ok? ==> r.value.end > next && |r.value.cells| == 40 * (r.value.end - next)
    ensures !SafeName(name, ".json") ==> r.Err?
    ensures name in artifact.metadata && !readable(artifact.metadata[name]) ==> r.Err?
  {
    if !SafeName(name, ".json") then Err("chunk path is unsafe")
    else if name !in artifact.metadata then Err("chunk is missing")
    else
      var meta := artifact.metadata[name];
      if !readable(meta) then Err("chunk metadata is not bounded JSON")
      else if !IntegerField(meta.start) || !IntegerField(meta.end) then Err("chunk range is invalid")
      else if meta.start != next || meta.end <= meta.start || meta.backend != artifact.manifest.backend
              || meta.batch != artifact.manifest.batch
      then Err("chunk breaks the contiguous output contract")
      else if !SafeName(meta.binary, ".f32") then Err("chunk binary path is unsafe")
      else if meta.binary !in artifact.binaries then Err("chunk binary is missing")
      else
        var binary := artifact.binaries[meta.binary];
        if 4 * |binary| != 160 * (meta.end - meta.start) || meta.size != 160 * (meta.end - meta.start)
           || hash(binary) != meta.digest
        then Err("chunk binary digest or shape differs")
        else Ok(Piece(meta.end, binary))
  }

  /** How one chunk is read, given the rows that are there and its name. */
  type Reader = (nat, string) -> Result<Piece>

  function Reads(hash: Hash, readable: Readable, artifact: Artifact): Reader {
    (next: nat, name: string) => ReadChunk(hash, readable, artifact, next, name)
  }

  predicate ManifestContract(input: Input, m: PolicyManifest) {
    && m.complete && m.completedRows == input.rows && m.inputDigest == input.manifestDigest
    && m.artifactDigest == input.artifactDigest && m.cadence == input.cadence && m.seed == input.seed
  }

  function LoadTo(read: Reader, chunks: seq<string>, k: nat): (r: Result<Loaded>)
    requires k <= |chunks|
  {
    if k == 0 then Ok(Loaded(0, [])) else
      var before := LoadTo(read, chunks, k - 1);
      if before.Err? then before else
        var piece := read(before.value.next, chunks[k - 1]);
        if piece.Err? then Err(piece.reason) else Ok(Loaded(piece.value.end, before.value.cells + piece.value.cells))
  }

  function Covering(input: Input, l: Loaded): Result<Cells> {
    if l.next != input.rows then Err("raw output chunks do not cover every row exactly once") else Ok(l.cells)
  }

  /** `loadOutput`: the array it fills, one chunk after the other. */
  function LoadedArray(hash: Hash, sizes: Sizes, input: Input, artifact: Artifact): Result<Cells> {
    var m := artifact.manifest;
    if !ReadableManifest(sizes, m) then Err("raw output manifest is not bounded JSON")
    else if !ManifestContract(input, m) then Err("raw output does not match the complete input artifact")
    else if m.backend == "" then Err("raw output backend is invalid")
    else if !IntegerField(m.batch) then Err("raw output batch size is invalid")
    else if m.chunks == [] then Err("raw output has no chunks")
    else
      var l := LoadTo(Reads(hash, ReadableBy(sizes), artifact), m.chunks, |m.chunks|);
      if l.Err? then Err(l.reason) else Covering(input, l.value)
  }

  /** `loadInput`, then `loadOutput`. */
  function LoadedRun(hash: Hash, sizes: Sizes, input: Input, artifact: Artifact): Result<Cells> {
    if !LoaderTakes(input) then Err("raw input is invalid") else LoadedArray(hash, sizes, input, artifact)
  }

  /** Writes of a typed array outside its bounds are ignored, as they are in JavaScript. */
  method FillChunk(predictions: array<Cell>, at: nat, cells: Cells)
    modifies predictions
    ensures forall i | 0 <= i < predictions.Length ::
              predictions[i] == if at <= i < at + |cells| then cells[i - at] else old(predictions[i])
  {
    for offset := 0 to |cells|
      invariant forall i | 0 <= i < predictions.Length ::
                  predictions[i] == if at <= i < at + offset then cells[i - at] else old(predictions[i])
    {
      if at + offset < predictions.Length {
        predictions[at + offset] := cells[offset];
      }
    }
  }

  ghost predicate Filled(predictions: Cells, cells: Cells) {
    forall i | 0 <= i < |predictions| && i < |cells| :: predictions[i] == cells[i]
  }

  lemma FilledMore(before: Cells, after: Cells, done: Cells, cells: Cells)
    requires |before| == |after| && Filled(before, done)
    requires forall i | 0 <= i < |after| ::
               after[i] == if |done| <= i < |done| + |cells| then cells[i - |done|] else before[i]
    ensures Filled(after, done + cells)
  {
  }

  method FillNext(predictions: array<Cell>, at: nat, cells: Cells, ghost done: Cells)
    requires |done| == at && Filled(predictions[..], done)
    modifies predictions
    ensures Filled(predictions[..], done + cells)
  {
    ghost var before := predictions[..];
    FillChunk(predictions, at, cells);
    FilledMore(before, predictions[..], done, cells);
  }

  lemma FilledUp(predictions: Cells, cells: Cells)
    requires |predictions| == |cells| && Filled(predictions, cells)
    ensures predictions == cells
  {
  }

  lemma {:induction false} LoadStuck(read: Reader, chunks: seq<string>, k: nat, n: nat)
    requires k <= n <= |chunks| && LoadTo(read, chunks, k).Err?
    ensures LoadTo(read, chunks, n) == LoadTo(read, chunks, k)
  {
    if k < n {
      LoadStuck(read, chunks, k, n - 1);
    }
  }

  lemma OneMoreLoad(read: Reader, chunks: seq<string>, k: nat, l: Loaded, piece: Result<Piece>)
    requires k < |chunks| && LoadTo(read, chunks, k) == Ok(l) && read(l.next, chunks[k]) == piece
    ensures piece.Ok? ==>
              LoadTo(read, chunks, k + 1) == Ok(Loaded(piece.value.end, l.cells + piece.value.cells))
    ensures piece.Err? ==> LoadTo(read, chunks, |chunks|) == Err(piece.reason)
  {
    if piece.Err? {
      LoadStuck(read, chunks, k + 1, |chunks|);
    }
  }

  /** One pass of the loader's loop: the checks, then the copy behind the rows that are there. */
  method LoadNext(hash: Hash, readable: Readable, artifact: Artifact, next: nat, name: string,
                  predictions: array<Cell>, ghost done: Cells)
    returns (piece: Result<Piece>)
    requires |done| == 40 * next && Filled(predictions[..], done)
    modifies predictions
    ensures piece == ReadChunk(hash, readable, artifact, next, name)
    ensures piece.Ok? ==> Filled(predictions[..], done + piece.value.cells)
    ensures piece.Ok? ==> |done + piece.value.cells| == 40 * piece.value.end
  {
    piece := ReadChunk(hash, readable, artifact, next, name);
    if piece.Ok? {
      FillNext(predictions, next * 40, piece.value.cells, done);
    }
  }

  /** The loop of the loader, over an array for all rows. */
  method LoadChunks(hash: Hash, readable: Readable, input: Input, artifact: Artifact, ghost read: Reader)
    returns (r: Result<Cells>)
    requires input.rows >= 0 && read == Reads(hash, readable, artifact)
    ensures var l := LoadTo(read, artifact.manifest.chunks, |artifact.manifest.chunks|);
            r == if l.Err? then Err(l.reason) else Covering(input, l.value)
  {
    var chunks := artifact.manifest.chunks;
    var predictions := new Cell[input.rows * 40](_ => Some(0.0));
    var nextRow: nat := 0;
    ghost var cells: Cells := [];
    for k := 0 to |chunks|
      invariant LoadTo(read, chunks, k) == Ok(Loaded(nextRow, cells))
      invariant |cells| == 40 * nextRow && Filled(predictions[..], cells)
    {
      var piece := LoadNext(hash, readable, artifact, nextRow, chunks[k], predictions, cells);
      OneMoreLoad(read, chunks, k, Loaded(nextRow, cells), piece);
      if piece.Err? {
        return Err(piece.reason);
      }
      cells := cells + piece.value.cells;
      nextRow := piece.value.end;
    }
    if nextRow != input.rows {
      return Err("raw output chunks do not cover every row exactly once");
    }
    FilledUp(predictions[..], cells);
    return Ok(predictions[..]);
  }

  method LoadOutput(hash: Hash, sizes: Sizes, input: Input, artifact: Artifact) returns (r: Result<Cells>)
    requires input.rows >= 0
    ensures r == LoadedArray(hash, sizes, input, artifact)
  {
    var m := artifact.manifest;
    if !ReadableManifest(sizes, m) {
      return Err("raw output manifest is not bounded JSON");
    }
    if !ManifestContract(input, m) {
      return Err("raw output does not match the complete input artifact");
    }
    if m.backend == "" {
      return Err("raw output backend is invalid");
    }
    if !IntegerField(m.batch) {
      return Err("raw output batch size is invalid");
    }
    if m.chunks == [] {
      return Err("raw output has no chunks");
    }
    r := LoadChunks(hash, ReadableBy(sizes), input, artifact, Reads(hash, ReadableBy(sizes), artifact));
  }

  // ---- The files of a conversion -------------------------------------------------------------

  /** Every file written so far starts before `next`. */
  predicate NamesBelow(names: set<string>, next: nat) {
    forall name | name in names :: |name| >= 23 && StartOf(name) < next
  }

  predicate Written(p: Progress) {
    NamesBelow(p.metadata.Keys, p.next) && NamesBelow(p.binaries.Keys, p.next)
  }

  lemma NameStart(start: nat, end: nat, extension: string)
    requires start < end < TEN_DIGITS
    ensures var name := Name(start, end, extension);
            SafeName(name, extension) && |name| >= 23 && StartOf(name) == start
  {
    NameIsSafeIff(start, end, extension);
  }

  predicate Within<V(==)>(m: map<string, V>, n: map<string, V>) {
    forall name | name in m :: name in n && n[name] == m[name]
  }

  predicate Keeps(p: Progress, metadata: map<string, PolicyMeta>, binaries: map<string, Cells>) {
    Within(p.metadata, metadata) && Within(p.binaries, binaries)
  }

  lemma AddedBelow<V>(m: map<string, V>, next: nat, name: string, value: V, end: nat)
    requires NamesBelow(m.Keys, next) && |name| >= 23 && StartOf(name) == next < end
    ensures NamesBelow(m[name := value].Keys, end) && name !in m
  {
  }

  /** A converted chunk overwrites no file of an earlier one. */
  lemma ExtendedKeeps(hash: Hash, run: SourceRun, source: SourceMeta, p: Progress, end: nat, projected: Cells,
                      metadata: map<string, PolicyMeta>, binaries: map<string, Cells>)
    requires p.next < end < TEN_DIGITS && Written(p)
    ensures Written(Extended(hash, run, source, p, end, projected))
    ensures Keeps(Extended(hash, run, source, p, end, projected), metadata, binaries) ==> Keeps(p, metadata, binaries)
  {
    var name, binary := MetaName(p.next, end), BinaryName(p.next, end);
    NameStart(p.next, end, ".json");
    NameStart(p.next, end, ".f32");
    AddedBelow(p.metadata, p.next, name, MetaFor(hash, run, source, p.next, end, projected), end);
    AddedBelow(p.binaries, p.next, binary, projected, end);
    WithinFewer(p.metadata, name, MetaFor(hash, run, source, p.next, end, projected), metadata);
    WithinFewer(p.binaries, binary, projected, binaries);
  }

  lemma WithinFewer<V>(m: map<string, V>, name: string, value: V, n: map<string, V>)
    requires name !in m
    ensures Within(m[name := value], n) ==> Within(m, n)
    ensures Within(m[name := value], n) ==> name in n && n[name] == value
  {
    if Within(m[name := value], n) {
      assert name in m[name := value];
      forall other | other in m ensures other in n && n[other] == m[other] {
        assert other in m[name := value] && m[name := value][other] == m[other];
      }
    }
  }

  // ---- The round trip ----------------------------------------------------------------------

  /** What one conversion step does to the numbers: one more name, and the sound rows of that chunk. */
  ghost predicate AdvancesAt(run: SourceRun, step: Step, p: Progress, name: string) {
    step(p, name).Ok? ==>
      var q := step(p, name).value;
      && q.next > p.next && |q.chunks| == |p.chunks| + 1
      && |SourceCells(run, name)| == 88 * (q.next - p.next) && Sound(SourceCells(run, name))
  }

  ghost predicate Advances(run: SourceRun, step: Step) {
    forall p, name :: AdvancesAt(run, step, p, name)
  }

  lemma StepsAdvance(hash: Hash, run: SourceRun)
    ensures Advances(run, Steps(hash, run))
  {
  }

  lemma SoundConcat(a: Cells, b: Cells)
    requires Sound(a) && Sound(b)
    ensures Sound(a + b)
  {
    var lines := |a| / 22;
    assert |a + b| == 22 * (lines + |b| / 22);
    forall line: nat | line < |a + b| / 22
      ensures SoundLine(a + b, line)
    {
      if line < lines {
        LineOfFront(a, b, line);
      } else {
        LineOfBack(a, b, line - lines);
      }
    }
  }

  lemma LineOfFront(a: Cells, b: Cells, line: nat)
    requires 22 * line + 22 <= |a| && SoundLine(a, line)
    ensures SoundLine(a + b, line)
  {
    assert forall c: nat | c < 22 :: At(a + b, line, c) == At(a, line, c);
  }

  lemma LineOfBack(a: Cells, b: Cells, line: nat)
    requires |a| % 22 == 0 && 22 * line + 22 <= |b| && SoundLine(b, line)
    ensures SoundLine(a + b, |a| / 22 + line)
  {
    var at := |a| / 22 + line;
    assert 22 * at == |a| + 22 * line;
    assert forall c: nat | c < 22 :: At(a + b, at, c) == At(b, line, c);
  }

  lemma {:induction false} ConvertShape(run: SourceRun, step: Step, k: nat)
    requires k <= |run.chunks| && Advances(run, step) && ConvertTo(step, run.chunks, k).Ok?
    ensures |ConvertTo(step, run.chunks, k).value.chunks| == k
    ensures k > 0 ==> ConvertTo(step, run.chunks, k).value.next > 0
    ensures |SourceArray(run, k)| == 88 * ConvertTo(step, run.chunks, k).value.next
    ensures Sound(SourceArray(run, k))
  {
    if k > 0 {
      ConvertShape(run, step, k - 1);
      assert AdvancesAt(run, step, ConvertTo(step, run.chunks, k - 1).value, run.chunks[k - 1]);
      SoundConcat(SourceArray(run, k - 1), SourceCells(run, run.chunks[k - 1]));
    }
  }

  type Property = Progress -> bool

  /** Whether the loader can read what a source chunk, the first name, was converted to, the second. */
  type Takes = (string, string) -> bool

  /** While the row numbers have ten digits, every file that a step writes has a new name. */
  ghost predicate PreservesAt(step: Step, written: Property, p: Progress, name: string) {
    step(p, name).Ok? && written(p) && p.next < step(p, name).value.next < TEN_DIGITS ==> written(step(p, name).value)
  }

  ghost predicate Preserves(step: Step, written: Property) {
    written(NOTHING) && forall p, name :: PreservesAt(step, written, p, name)
  }

  ghost predicate Refuses(read: Reader, name: string) {
    forall next: nat :: read(next, name).Err?
  }

  /** What is read of one converted chunk, if the loader takes it. */
  ghost predicate ReadsAs(read: Reader, taken: bool, chunk: string, next: nat, end: nat, cells: Cells) {
    if taken then read(next, chunk) == Ok(Piece(end, cells)) else Refuses(read, chunk)
  }

  /** What one conversion step leaves in the finished artifact can be read back from it if the loader takes it. */
  ghost predicate LinkedAt(run: SourceRun, step: Step, read: Reader, takes: Takes, chunks: seq<string>,
                           written: Property, prefix: Property, p: Progress, name: string)
  {
    step(p, name).Ok? && written(p) && prefix(step(p, name).value) ==>
      && step(p, name).value.next < TEN_DIGITS && prefix(p) && |p.chunks| < |chunks|
      && ReadsAs(read, takes(name, chunks[|p.chunks|]), chunks[|p.chunks|], p.next, step(p, name).value.next,
                 Projected(SourceCells(run, name)))
  }

  ghost predicate Linked(run: SourceRun, step: Step, read: Reader, takes: Takes, chunks: seq<string>,
                         written: Property, prefix: Property)
  {
    forall p, name :: LinkedAt(run, step, read, takes, chunks, written, prefix, p, name)
  }

  lemma LoadStep(read: Reader, chunks: seq<string>, k: nat, before: Loaded, piece: Piece)
    requires k < |chunks| && LoadTo(read, chunks, k) == Ok(before) && read(before.next, chunks[k]) == Ok(piece)
    ensures LoadTo(read, chunks, k + 1) == Ok(Loaded(piece.end, before.cells + piece.cells))
  {
  }

  lemma WholeLines(rows: nat)
    ensures 88 * rows % 22 == 0
  {
    assert 88 * rows == 22 * (4 * rows);
  }

  lemma LoadProjected(read: Reader, chunks: seq<string>, k: nat, next: nat, end: nat, source: Cells, cells: Cells)
    requires k < |chunks| && next < end && |source| == 88 * next && |cells| == 88 * (end - next)
    requires LoadTo(read, chunks, k) == Ok(Loaded(next, Projected(source)))
    requires read(next, chunks[k]) == Ok(Piece(end, Projected(cells)))
    ensures LoadTo(read, chunks, k + 1) == Ok(Loaded(end, Projected(source + cells)))
  {
    LoadStep(read, chunks, k, Loaded(next, Projected(source)), Piece(end, Projected(cells)));
    WholeLines(next);
    WholeLines(end - next);
    ProjectedConcat(source, cells);
  }

  lemma {:induction false} ConvertWrites(run: SourceRun, step: Step, written: Property, k: nat)
    requires k <= |run.chunks| && Advances(run, step) && Preserves(step, written)
    requires ConvertTo(step, run.chunks, k).Ok? && ConvertTo(step, run.chunks, k).value.next < TEN_DIGITS
    ensures written(ConvertTo(step, run.chunks, k).value)
  {
    if k > 0 {
      var p, name := ConvertTo(step, run.chunks, k - 1).value, run.chunks[k - 1];
      assert AdvancesAt(run, step, p, name);
      ConvertWrites(run, step, written, k - 1);
      assert PreservesAt(step, written, p, name);
    }
  }

  /** What the last step so far says about the artifact. */
  lemma LastLink(run: SourceRun, step: Step, read: Reader, takes: Takes, chunks: seq<string>,
                 written: Property, prefix: Property, k: nat)
    requires Advances(run, step) && Preserves(step, written) && Linked(run, step, read, takes, chunks, written, prefix)
    requires 0 < k <= |run.chunks| && ConvertTo(step, run.chunks, k).Ok? && prefix(ConvertTo(step, run.chunks, k).value)
    requires ConvertTo(step, run.chunks, k).value.next < TEN_DIGITS
    ensures ConvertTo(step, run.chunks, k - 1).Ok? && k - 1 < |chunks|
    ensures var p, q := ConvertTo(step, run.chunks, k - 1).value, ConvertTo(step, run.chunks, k).value;
            && prefix(p) && p.next < q.next && |SourceArray(run, k - 1)| == 88 * p.next
            && |SourceCells(run, run.chunks[k - 1])| == 88 * (q.next - p.next)
            && ReadsAs(read, takes(run.chunks[k - 1], chunks[k - 1]), chunks[k - 1], p.next, q.next,
                       Projected(SourceCells(run, run.chunks[k - 1])))
  {
    var p, name := ConvertTo(step, run.chunks, k - 1).value, run.chunks[k - 1];
    ConvertShape(run, step, k - 1);
    assert AdvancesAt(run, step, p, name);
    ConvertWrites(run, step, written, k - 1);
    assert LinkedAt(run, step, read, takes, chunks, written, prefix, p, name);
  }

  ghost predicate AllTaken(run: SourceRun, takes: Takes, chunks: seq<string>, k: nat)
    requires k <= |run.chunks| && k <= |chunks|
  {
    forall j | 0 <= j < k :: takes(run.chunks[j], chunks[j])
  }

  /** The loader reads back every chunk that it takes; one that it does not take stops it. */
  lemma {:induction false} LoadsBack(run: SourceRun, step: Step, read: Reader, takes: Takes, chunks: seq<string>,
                                     written: Property, prefix: Property, k: nat)
    requires Advances(run, step) && Preserves(step, written) && Linked(run, step, read, takes, chunks, written, prefix)
    requires k <= |run.chunks| && k <= |chunks|
    requires ConvertTo(step, run.chunks, k).Ok? && prefix(ConvertTo(step, run.chunks, k).value)
    requires ConvertTo(step, run.chunks, k).value.next < TEN_DIGITS
    ensures if AllTaken(run, takes, chunks, k)
            then LoadTo(read, chunks, k)
                 == Ok(Loaded(ConvertTo(step, run.chunks, k).value.next, Projected(SourceArray(run, k))))
            else LoadTo(read, chunks, k).Err?
  {
    if k == 0 {
      assert Projected([]) == [];
    } else {
      LastLink(run, step, read, takes, chunks, written, prefix, k);
      LoadsBack(run, step, read, takes, chunks, written, prefix, k - 1);
      LoadsOneMore(run, step, read, takes, chunks, k);
    }
  }

  lemma LoadsOneMore(run: SourceRun, step: Step, read: Reader, takes: Takes, chunks: seq<string>, k: nat)
    requires 0 < k <= |run.chunks| && k <= |chunks|
    requires ConvertTo(step, run.chunks, k - 1).Ok? && ConvertTo(step, run.chunks, k).Ok?
    requires var p, q := ConvertTo(step, run.chunks, k - 1).value, ConvertTo(step, run.chunks, k).value;
             var name := run.chunks[k - 1];
             && p.next < q.next && |SourceArray(run, k - 1)| == 88 * p.next
             && |SourceCells(run, name)| == 88 * (q.next - p.next)
             && ReadsAs(read, takes(name, chunks[k - 1]), chunks[k - 1], p.next, q.next,
                        Projected(SourceCells(run, name)))
             && (if AllTaken(run, takes, chunks, k - 1)
                 then LoadTo(read, chunks, k - 1) == Ok(Loaded(p.next, Projected(SourceArray(run, k - 1))))
                 else LoadTo(read, chunks, k - 1).Err?)
    ensures if AllTaken(run, takes, chunks, k)
            then LoadTo(read, chunks, k)
                 == Ok(Loaded(ConvertTo(step, run.chunks, k).value.next, Projected(SourceArray(run, k))))
            else LoadTo(read, chunks, k).Err?
  {
    var p, q, name := ConvertTo(step, run.chunks, k - 1).value, ConvertTo(step, run.chunks, k).value, run.chunks[k - 1];
    assert AllTaken(run, takes, chunks, k) <==> AllTaken(run, takes, chunks, k - 1) && takes(name, chunks[k - 1]);
    if AllTaken(run, takes, chunks, k) {
      LoadProjected(read, chunks, k - 1, p.next, q.next, SourceArray(run, k - 1), SourceCells(run, name));
    }
  }

  /** The conversion so far is part of the finished artifact. */
  predicate Prefix(p: Progress, artifact: Artifact) {
    Keeps(p, artifact.metadata, artifact.binaries) && p.chunks <= artifact.manifest.chunks && p.next < TEN_DIGITS
  }

  lemma PrefixBefore(hash: Hash, run: SourceRun, source: SourceMeta, p: Progress, end: nat, projected: Cells,
                     artifact: Artifact)
    requires p.next < end && Prefix(Extended(hash, run, source, p, end, projected), artifact) && Written(p)
    ensures Prefix(p, artifact)
  {
    ExtendedKeeps(hash, run, source, p, end, projected, artifact.metadata, artifact.binaries);
    assert p.chunks <= p.chunks + [MetaName(p.next, end)];
  }

  lemma NextName(hash: Hash, run: SourceRun, source: SourceMeta, p: Progress, end: nat, projected: Cells,
                 chunks: seq<string>)
    requires Extended(hash, run, source, p, end, projected).chunks <= chunks
    ensures |p.chunks| < |chunks| && chunks[|p.chunks|] == MetaName(p.next, end)
  {
    assert (p.chunks + [MetaName(p.next, end)])[|p.chunks|] == MetaName(p.next, end);
  }

  /** The artifact holds the files of one converted chunk, under safe names. */
  predicate HasFiles(hash: Hash, run: SourceRun, source: SourceMeta, start: nat, end: nat, projected: Cells,
                     artifact: Artifact)
  {
    var name, binary := MetaName(start, end), BinaryName(start, end);
    && SafeName(name, ".json") && SafeName(binary, ".f32")
    && name in artifact.metadata && binary in artifact.binaries && artifact.binaries[binary] == projected
    && artifact.metadata[name] == MetaFor(hash, run, source, start, end, projected)
  }

  /** The artifact is of this run. */
  predicate Of(run: SourceRun, artifact: Artifact) {
    artifact.manifest.backend == Backend(run) && artifact.manifest.batch == run.batch
  }

  lemma ReadsFiles(hash: Hash, readable: Readable, run: SourceRun, source: SourceMeta, artifact: Artifact, next: nat,
                   end: nat, cells: Cells)
    requires RowsBetween(next, end, cells) && Of(run, artifact)
    requires HasFiles(hash, run, source, next, end, cells, artifact)
    ensures var read := ReadChunk(hash, readable, artifact, next, MetaName(next, end));
            if readable(artifact.metadata[MetaName(next, end)]) then read == Ok(Piece(end, cells)) else read.Err?
  {
  }

  /** The files of one converted chunk, in a finished artifact. */
  lemma KeptFiles(hash: Hash, run: SourceRun, source: SourceMeta, p: Progress, end: nat, projected: Cells,
                  artifact: Artifact)
    requires p.next < end < TEN_DIGITS && Written(p)
    requires Keeps(Extended(hash, run, source, p, end, projected), artifact.metadata, artifact.binaries)
    ensures HasFiles(hash, run, source, p.next, end, projected, artifact)
  {
    var name, binary := MetaName(p.next, end), BinaryName(p.next, end);
    NameStart(p.next, end, ".json");
    NameStart(p.next, end, ".f32");
    var meta := MetaFor(hash, run, source, p.next, end, projected);
    AddedBelow(p.metadata, p.next, name, meta, end);
    AddedBelow(p.binaries, p.next, binary, projected, end);
    WithinFewer(p.metadata, name, meta, artifact.metadata);
    WithinFewer(p.binaries, binary, projected, artifact.binaries);
  }

  // ---- What the loader can read --------------------------------------------------------------

  const CHUNK_KEYS: set<string> := {"model_family", "policy_projection", "source_chunk_sha256"}
  const MANIFEST_KEYS: set<string> := {"model_family", "input_profile", "source_output_digest", "policy_projection"}

  /** What a run hands on to the metadata of a chunk is JSON. */
  predicate StrictChunk(run: SourceRun, name: string) {
    && StrictBut(run.provenance, CHUNK_KEYS)
    && (name in run.metadata ==> Strict(run.metadata[name].latency) && Strict(run.metadata[name].telemetry))
  }

  /** Everything that a run hands on is JSON, leaving aside the fields of its provenance that are replaced. */
  predicate StrictRun(run: SourceRun) {
    && StrictBut(run.provenance, MANIFEST_KEYS) && Strict(run.profile)
    && forall k | 0 <= k < |run.chunks| :: StrictChunk(run, run.chunks[k])
  }

  /** The written documents are within the loader's size bound. */
  predicate Bounded(sizes: Sizes, artifact: Artifact) {
    && FitsBound(sizes.manifest(artifact.manifest))
    && forall name | name in artifact.manifest.chunks && name in artifact.metadata ::
         FitsBound(sizes.meta(artifact.metadata[name]))
  }

  lemma ProvenanceStrictIff(p: Provenance)
    ensures Strict(Document(p))
            <==> match p
                 case ForChunk(run, _) => StrictBut(run, CHUNK_KEYS)
                 case ForManifest(run, profile, _) => StrictBut(run, MANIFEST_KEYS) && Strict(profile)
  {
    var over := Replaced(p);
    MergedStrictIff(p.run, over);
    if p.ForManifest? {
      assert over.Keys == MANIFEST_KEYS && over["input_profile"] == p.profile;
    } else {
      assert over.Keys == CHUNK_KEYS;
    }
  }

  /** The metadata of a converted chunk is strict exactly when what the run hands on to it is. */
  lemma MetaStrictIff(hash: Hash, run: SourceRun, name: string, start: nat, end: nat, projected: Cells)
    requires name in run.metadata
    ensures var meta := MetaFor(hash, run, run.metadata[name], start, end, projected);
            Strict(Document(meta.provenance)) && Strict(meta.latency) && Strict(meta.telemetry)
            <==> StrictChunk(run, name)
  {
    ProvenanceStrictIff(ForChunk(run.provenance, run.metadata[name].digest));
  }

  lemma ManifestStrictIff(hash: Hash, input: Input, run: SourceRun, chunks: seq<string>)
    ensures Strict(Document(ManifestFor(hash, input, run, chunks).provenance))
            <==> StrictBut(run.provenance, MANIFEST_KEYS) && Strict(run.profile)
  {
    ProvenanceStrictIff(ManifestFor(hash, input, run, chunks).provenance);
  }

  function Taking(sizes: Sizes, run: SourceRun, artifact: Artifact): Takes {
    (name: string, written: string) =>
      StrictChunk(run, name) && (written in artifact.metadata ==> FitsBound(sizes.meta(artifact.metadata[written])))
  }

  lemma UnreadableRefused(hash: Hash, readable: Readable, artifact: Artifact, chunk: string)
    requires chunk in artifact.metadata && !readable(artifact.metadata[chunk])
    ensures Refuses(Reads(hash, readable, artifact), chunk)
  {
  }

  /** The loader takes a converted chunk exactly when its metadata is readable. */
  lemma TakingIff(hash: Hash, sizes: Sizes, run: SourceRun, name: string, start: nat, end: nat, projected: Cells,
                  artifact: Artifact)
    requires name in run.metadata && HasFiles(hash, run, run.metadata[name], start, end, projected, artifact)
    ensures Taking(sizes, run, artifact)(name, MetaName(start, end))
            <==> ReadableBy(sizes)(artifact.metadata[MetaName(start, end)])
  {
    MetaStrictIff(hash, run, name, start, end, projected);
  }

  /** How the loader sees an artifact of a run. */
  ghost predicate LoaderOf(sizes: Sizes, run: SourceRun, artifact: Artifact, readable: Readable, takes: Takes) {
    readable == ReadableBy(sizes) && takes == Taking(sizes, run, artifact) && Of(run, artifact)
  }

  /** The cells of some rows that have numbers of ten digits. */
  predicate RowsBetween(start: nat, end: nat, cells: Cells) {
    start < end < TEN_DIGITS && |cells| == 40 * (end - start)
  }

  /** Reading back one chunk of a finished artifact. */
  lemma ReadsBack(hash: Hash, sizes: Sizes, run: SourceRun, name: string, start: nat, end: nat, projected: Cells,
                  artifact: Artifact, readable: Readable, takes: Takes)
    requires LoaderOf(sizes, run, artifact, readable, takes)
    requires RowsBetween(start, end, projected)
    requires name in run.metadata && HasFiles(hash, run, run.metadata[name], start, end, projected, artifact)
    ensures var chunk := MetaName(start, end);
            ReadsAs(Reads(hash, readable, artifact), takes(name, chunk), chunk, start, end, projected)
  {
    var chunk := MetaName(start, end);
    TakingIff(hash, sizes, run, name, start, end, projected, artifact);
    if takes(name, chunk) {
      ReadsFiles(hash, readable, run, run.metadata[name], artifact, start, end, projected);
    } else {
      UnreadableRefused(hash, readable, artifact, chunk);
    }
  }

  lemma KeptReads(hash: Hash, sizes: Sizes, run: SourceRun, name: string, artifact: Artifact, p: Progress, end: nat,
                  projected: Cells, readable: Readable, takes: Takes)
    requires LoaderOf(sizes, run, artifact, readable, takes)
    requires RowsBetween(p.next, end, projected) && name in run.metadata && Written(p)
    requires Keeps(Extended(hash, run, run.metadata[name], p, end, projected), artifact.metadata, artifact.binaries)
    ensures var chunk := MetaName(p.next, end);
            ReadsAs(Reads(hash, readable, artifact), takes(name, chunk), chunk, p.next, end, projected)
  {
    KeptFiles(hash, run, run.metadata[name], p, end, projected, artifact);
    ReadsBack(hash, sizes, run, name, p.next, end, projected, artifact, readable, takes);
  }

  lemma ExtendedLinks(hash: Hash, sizes: Sizes, run: SourceRun, name: string, artifact: Artifact, p: Progress, end: nat,
                      projected: Cells, readable: Readable, takes: Takes)
    requires LoaderOf(sizes, run, artifact, readable, takes)
    requires p.next < end && |projected| == 40 * (end - p.next) && name in run.metadata
    requires Written(p) && Prefix(Extended(hash, run, run.metadata[name], p, end, projected), artifact)
    ensures end < TEN_DIGITS && Prefix(p, artifact) && |p.chunks| < |artifact.manifest.chunks|
    ensures var chunk := artifact.manifest.chunks[|p.chunks|];
            ReadsAs(Reads(hash, readable, artifact), takes(name, chunk), chunk, p.next, end, projected)
  {
    PrefixBefore(hash, run, run.metadata[name], p, end, projected, artifact);
    NextName(hash, run, run.metadata[name], p, end, projected, artifact.manifest.chunks);
    KeptReads(hash, sizes, run, name, artifact, p, end, projected, readable, takes);
  }

  lemma StepExtends(hash: Hash, run: SourceRun, p: Progress, name: string) returns (end: nat, projected: Cells)
    requires Steps(hash, run)(p, name).Ok?
    ensures name in run.metadata
    ensures Steps(hash, run)(p, name).value == Extended(hash, run, run.metadata[name], p, end, projected)
    ensures p.next < end && |projected| == 40 * (end - p.next) && projected == Projected(SourceCells(run, name))
  {
    var piece := CheckChunk(hash, run, p.next, name).value;
    end, projected := piece.end, Projected(piece.cells);
  }

  lemma OneLink(hash: Hash, sizes: Sizes, run: SourceRun, artifact: Artifact, p: Progress, name: string,
                readable: Readable, takes: Takes)
    requires LoaderOf(sizes, run, artifact, readable, takes)
    requires Steps(hash, run)(p, name).Ok? && Written(p) && Prefix(Steps(hash, run)(p, name).value, artifact)
    ensures var q := Steps(hash, run)(p, name).value;
            q.next < TEN_DIGITS && Prefix(p, artifact) && |p.chunks| < |artifact.manifest.chunks|
    ensures var chunk, q := artifact.manifest.chunks[|p.chunks|], Steps(hash, run)(p, name).value;
            ReadsAs(Reads(hash, readable, artifact), takes(name, chunk), chunk, p.next, q.next,
                    Projected(SourceCells(run, name)))
  {
    var end, projected := StepExtends(hash, run, p, name);
    ExtendedLinks(hash, sizes, run, name, artifact, p, end, projected, readable, takes);
  }

  lemma StepsLinked(hash: Hash, sizes: Sizes, run: SourceRun, artifact: Artifact, readable: Readable, takes: Takes,
                    written: Property, prefix: Property)
    requires LoaderOf(sizes, run, artifact, readable, takes)
    requires written == ((p: Progress) => Written(p)) && prefix == ((p: Progress) => Prefix(p, artifact))
    ensures Linked(run, Steps(hash, run), Reads(hash, readable, artifact), takes, artifact.manifest.chunks,
                   written, prefix)
  {
    var step, read, chunks := Steps(hash, run), Reads(hash, readable, artifact), artifact.manifest.chunks;
    forall p: Progress, name: string
      ensures LinkedAt(run, step, read, takes, chunks, written, prefix, p, name)
    {
      if step(p, name).Ok? && written(p) && prefix(step(p, name).value) {
        OneLink(hash, sizes, run, artifact, p, name, readable, takes);
      }
    }
  }

  lemma StepsPreserve(hash: Hash, run: SourceRun, written: Property)
    requires written == ((p: Progress) => Written(p))
    ensures Preserves(Steps(hash, run), written)
  {
    forall p: Progress, name: string
      ensures PreservesAt(Steps(hash, run), written, p, name)
    {
      if Steps(hash, run)(p, name).Ok? && written(p) && p.next < Steps(hash, run)(p, name).value.next < TEN_DIGITS {
        var end, projected := StepExtends(hash, run, p, name);
        ExtendedKeeps(hash, run, run.metadata[name], p, end, projected, map[], map[]);
      }
    }
  }

  /** Beyond ten digits the last chunk's own name is refused. */
  lemma LastNameRefused(hash: Hash, readable: Readable, run: SourceRun, artifact: Artifact, p: Progress, name: string)
    requires Steps(hash, run)(p, name).Ok? && Steps(hash, run)(p, name).value.next >= TEN_DIGITS
    requires Steps(hash, run)(p, name).value.chunks == artifact.manifest.chunks
    ensures artifact.manifest.chunks != []
    ensures LoadTo(Reads(hash, readable, artifact), artifact.manifest.chunks, |artifact.manifest.chunks|).Err?
  {
    var end, projected := StepExtends(hash, run, p, name);
    NextName(hash, run, run.metadata[name], p, end, projected, artifact.manifest.chunks);
    NameIsSafeIff(p.next, end, ".json");
    LastReadFails(hash, readable, artifact);
  }

  lemma LastReadFails(hash: Hash, readable: Readable, artifact: Artifact)
    requires artifact.manifest.chunks != []
    requires !SafeName(artifact.manifest.chunks[|artifact.manifest.chunks| - 1], ".json")
    ensures LoadTo(Reads(hash, readable, artifact), artifact.manifest.chunks, |artifact.manifest.chunks|).Err?
  {
  }

  lemma FewRows(hash: Hash, sizes: Sizes, input: Input, run: SourceRun, artifact: Artifact, p: Progress,
                readable: Readable, takes: Takes)
    requires readable == ReadableBy(sizes) && takes == Taking(sizes, run, artifact)
    requires ConvertTo(Steps(hash, run), run.chunks, |run.chunks|) == Ok(p) && p.next < TEN_DIGITS
    requires Finished(hash, input, run, p) == Ok(artifact) && |p.chunks| == |run.chunks|
    ensures |artifact.manifest.chunks| == |run.chunks|
    ensures var l := LoadTo(Reads(hash, readable, artifact), artifact.manifest.chunks, |artifact.manifest.chunks|);
            if AllTaken(run, takes, artifact.manifest.chunks, |run.chunks|)
            then l == Ok(Loaded(p.next, Projected(SourceArray(run, |run.chunks|)))) else l.Err?
  {
    var step, read := Steps(hash, run), Reads(hash, readable, artifact);
    var written := (p: Progress) => Written(p);
    var prefix := (p: Progress) => Prefix(p, artifact);
    FinalPrefix(hash, input, run, p, artifact);
    StepsAdvance(hash, run);
    StepsPreserve(hash, run, written);
    StepsLinked(hash, sizes, run, artifact, readable, takes, written, prefix);
    LoadsBack(run, step, read, takes, artifact.manifest.chunks, written, prefix, |run.chunks|);
  }

  lemma FinalPrefix(hash: Hash, input: Input, run: SourceRun, p: Progress, artifact: Artifact)
    requires Finished(hash, input, run, p) == Ok(artifact) && p.next < TEN_DIGITS
    ensures Prefix(p, artifact)
  {
  }

  /** Every chunk is taken when what the run hands on is JSON and every document is within the bound. */
  lemma TakenIff(hash: Hash, sizes: Sizes, input: Input, run: SourceRun, p: Progress, artifact: Artifact)
    requires Finished(hash, input, run, p) == Ok(artifact) && |p.chunks| == |run.chunks|
    ensures |artifact.manifest.chunks| == |run.chunks|
    ensures AllTaken(run, Taking(sizes, run, artifact), artifact.manifest.chunks, |run.chunks|)
            && ReadableManifest(sizes, artifact.manifest)
            <==> StrictRun(run) && Bounded(sizes, artifact)
  {
    ManifestStrictIff(hash, input, run, p.chunks);
    ChunksTakenIff(sizes, run, artifact);
  }

  lemma ChunksTakenIff(sizes: Sizes, run: SourceRun, artifact: Artifact)
    requires |artifact.manifest.chunks| == |run.chunks|
    ensures AllTaken(run, Taking(sizes, run, artifact), artifact.manifest.chunks, |run.chunks|)
            <==> && (forall k | 0 <= k < |run.chunks| :: StrictChunk(run, run.chunks[k]))
                 && (forall name | name in artifact.manifest.chunks && name in artifact.metadata ::
                       FitsBound(sizes.meta(artifact.metadata[name])))
  {
    var takes, chunks := Taking(sizes, run, artifact), artifact.manifest.chunks;
    if AllTaken(run, takes, chunks, |run.chunks|) {
      forall k | 0 <= k < |run.chunks|
        ensures StrictChunk(run, run.chunks[k])
      {
        assert takes(run.chunks[k], chunks[k]);
      }
      forall name | name in chunks && name in artifact.metadata
        ensures FitsBound(sizes.meta(artifact.metadata[name]))
      {
        var k :| 0 <= k < |chunks| && chunks[k] == name;
        assert takes(run.chunks[k], chunks[k]);
      }
    }
  }

  lemma ManyRows(hash: Hash, readable: Readable, input: Input, run: SourceRun, artifact: Artifact, p: Progress)
    requires run.chunks != [] && ConvertTo(Steps(hash, run), run.chunks, |run.chunks|) == Ok(p) && p.next >= TEN_DIGITS
    requires Finished(hash, input, run, p) == Ok(artifact)
    ensures LoadTo(Reads(hash, readable, artifact), artifact.manifest.chunks, |artifact.manifest.chunks|).Err?
  {
    LastStep(Steps(hash, run), run.chunks, |run.chunks|);
    FinalChunks(hash, input, run, p, artifact);
    LastNameRefused(hash, readable, run, artifact, ConvertTo(Steps(hash, run), run.chunks, |run.chunks| - 1).value,
                    run.chunks[|run.chunks| - 1]);
  }

  lemma FinalChunks(hash: Hash, input: Input, run: SourceRun, p: Progress, artifact: Artifact)
    requires Finished(hash, input, run, p) == Ok(artifact)
    ensures artifact.manifest.chunks == p.chunks
  {
  }

  /** The loop of the loader on a finished artifact. */
  lemma LoadsIff(hash: Hash, sizes: Sizes, input: Input, run: SourceRun, artifact: Artifact, p: Progress,
                 readable: Readable, takes: Takes)
    requires readable == ReadableBy(sizes) && takes == Taking(sizes, run, artifact)
    requires run.chunks != [] && ConvertTo(Steps(hash, run), run.chunks, |run.chunks|) == Ok(p)
    requires Finished(hash, input, run, p) == Ok(artifact) && |p.chunks| == |run.chunks|
    ensures |artifact.manifest.chunks| == |run.chunks|
    ensures var l := LoadTo(Reads(hash, readable, artifact), artifact.manifest.chunks, |artifact.manifest.chunks|);
            if input.rows < TEN_DIGITS && AllTaken(run, takes, artifact.manifest.chunks, |run.chunks|)
            then l == Ok(Loaded(input.rows, Projected(SourceArray(run, |run.chunks|)))) else l.Err?
  {
    if input.rows < TEN_DIGITS {
      FewRows(hash, sizes, input, run, artifact, p, readable, takes);
    } else {
      ManyRows(hash, readable, input, run, artifact, p);
    }
  }

  lemma ArtifactPasses(hash: Hash, input: Input, run: SourceRun, p: Progress, artifact: Artifact)
    requires Finished(hash, input, run, p) == Ok(artifact)
    ensures ManifestContract(input, artifact.manifest) && artifact.manifest.backend != ""
            && artifact.manifest.batch == run.batch
  {
    assert |Backend(run)| > 0;
  }

  /**
   The round trip. Whatever run the converter accepts, the loader accepts the artifact exactly when it takes
   the FinCast input, the batch size is a safe non-negative integer, the rows can be numbered with ten digits,
   what the run hands on is strict JSON and every document is within the size bound. It then loads the
   projection of the whole source array.
   */
  lemma RoundTripIff(hash: Hash, sizes: Sizes, input: Input, run: SourceRun, artifact: Artifact)
    requires Converted(hash, input, run) == Ok(artifact)
    ensures |SourceArray(run, |run.chunks|)| == 88 * input.rows
    ensures LoadedRun(hash, sizes, input, artifact).Ok?
            <==> && LoaderTakes(input) && IntegerField(run.batch) && input.rows < TEN_DIGITS
                 && StrictRun(run) && Bounded(sizes, artifact)
    ensures LoadedRun(hash, sizes, input, artifact).Ok? ==>
              LoadedRun(hash, sizes, input, artifact).value == Projected(SourceArray(run, |run.chunks|))
  {
    var step := Steps(hash, run);
    var p := ConvertTo(step, run.chunks, |run.chunks|).value;
    StepsAdvance(hash, run);
    ConvertShape(run, step, |run.chunks|);
    LoadsIff(hash, sizes, input, run, artifact, p, ReadableBy(sizes), Taking(sizes, run, artifact));
    TakenIff(hash, sizes, input, run, p, artifact);
    ArtifactPasses(hash, input, run, p, artifact);
  }

  /** In every loaded line, from the first row of the first chunk to the last of the last, the deciles are in order. */
  lemma LoadedDecilesInOrder(hash: Hash, sizes: Sizes, input: Input, run: SourceRun, artifact: Artifact,
                             line: nat, k: nat)
    requires Converted(hash, input, run) == Ok(artifact) && LoadedRun(hash, sizes, input, artifact).Ok?
    requires line < 4 * input.rows && 1 <= k < 9
    ensures |LoadedRun(hash, sizes, input, artifact).value| == 40 * input.rows
    ensures var loaded := LoadedRun(hash, sizes, input, artifact).value;
            InOrder(loaded[10 * line + k], loaded[10 * line + k + 1])
  {
    RoundTripIff(hash, sizes, input, run, artifact);
    StepsAdvance(hash, run);
    ConvertShape(run, Steps(hash, run), |run.chunks|);
    ProjectionKeepsOrder(SourceArray(run, |run.chunks|), line, k);
  }
}
