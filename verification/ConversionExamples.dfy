/** Runs of one row, which show that the conditions of the round trip can hold and can fail. */
module ConversionExamples {
  import opened Wrappers
  import opened ChunkNames
  import opened FincastInput
  import opened JsonValues
  import opened PolicyConversion

  function Digest(): (d: string)
    ensures |d| == 64 && forall i | 0 <= i < 64 :: d[i] == '0'
  {
    seq(64, i => '0')
  }

  /** Every payload has the same digest. */
  function Same(cells: Cells): string {
    Digest()
  }

  /** Every document takes two bytes. */
  function Small(): Sizes {
    Sizes((m: PolicyManifest) => 2, (m: PolicyMeta) => 2)
  }

  function Zeros(): (cells: Cells)
    ensures |cells| == 88 && forall i | 0 <= i < 88 :: cells[i] == Some(0.0)
  {
    seq(88, i => Some(0.0))
  }

  const LINE: OriginLine := OriginLine(0, Some("BTC"), Some("2026-01-01T00:00:00Z"), Some(60), Some("BTC"), true, true)

  function OneRow(seed: int): Input {
    Input(true, true, 2, 1, 60, seed, Some(1),
          FileSpec("contexts.f32", 2048, Digest()), FileSpec("origins.jsonl", 1, Digest()),
          File(2048, Digest()), File(1, Digest()), [LINE], "m", "a")
  }

  function JsonName(): string {
    Name(0, 1, ".json")
  }

  function FloatName(): string {
    Name(0, 1, ".f32")
  }

  function OneRowMeta(): SourceMeta {
    SourceMeta(0, 1, [1, 4, 22], FloatName(), 352, Digest(), Object(map[]), Object(map[]))
  }

  function OneRowRun(batch: int, provenance: Json): SourceRun {
    SourceRun(true, true, true, 1, 1, [1, 4, 22], "cuda", batch, provenance, Null, [JsonName()],
              map[JsonName() := OneRowMeta()], map[FloatName() := Zeros()])
  }

  lemma FilesAreTaken()
    ensures Sha256(Digest())
    ensures LoaderName("contexts.f32") && '/' !in "contexts.f32"
    ensures LoaderName("origins.jsonl") && '/' !in "origins.jsonl"
  {
  }

  lemma InputConverts(seed: int)
    ensures ConverterTakes(OneRow(seed))
  {
    FilesAreTaken();
  }

  lemma InputIsTaken(seed: int)
    ensures ConverterTakes(OneRow(seed))
    ensures LoaderTakes(OneRow(seed)) <==> IntegerField(seed)
  {
    InputConverts(seed);
    FilesAreTaken();
    LoaderTakesIff(OneRow(seed));
  }

  lemma ZerosAreSound()
    ensures Sound(Zeros())
  {
    forall line: nat | line < 4
      ensures SoundLine(Zeros(), line)
    {
      assert forall c: nat | c < 22 :: At(Zeros(), line, c) == Some(0.0);
    }
  }

  lemma NamesAreSafe()
    ensures SafeName(JsonName(), ".json") && SafeName(FloatName(), ".f32")
  {
    NameIsSafeIff(0, 1, ".json");
    NameIsSafeIff(0, 1, ".f32");
  }

  lemma ChunkOpens(batch: int, provenance: Json)
    ensures OpenChunk(Same, OneRowRun(batch, provenance), 0, JsonName()) == Ok(Piece(1, Zeros()))
  {
    NamesAreSafe();
  }

  lemma ChunkIsTaken(batch: int, provenance: Json)
    ensures CheckChunk(Same, OneRowRun(batch, provenance), 0, JsonName()) == Ok(Piece(1, Zeros()))
  {
    ChunkOpens(batch, provenance);
    ZerosAreSound();
  }

  /** The converter accepts the run whatever its batch size, its provenance and the seed of the input. */
  lemma OneRowConverts(seed: int, batch: int, provenance: Json) returns (artifact: Artifact)
    ensures Converted(Same, OneRow(seed), OneRowRun(batch, provenance)) == Ok(artifact)
    ensures Bounded(Small(), artifact)
  {
    var input, run := OneRow(seed), OneRowRun(batch, provenance);
    InputIsTaken(seed);
    ChunkIsTaken(batch, provenance);
    var step := Steps(Same, run);
    var p := Extended(Same, run, run.metadata[JsonName()], NOTHING, 1, Projected(Zeros()));
    assert step(NOTHING, JsonName()) == Ok(p);
    assert ConvertTo(step, run.chunks, 0) == Ok(NOTHING);
    assert ConvertTo(step, run.chunks, 1) == Ok(p);
    artifact := Finished(Same, input, run, p).value;
  }

  lemma StrictOneRow(batch: int, provenance: Json)
    ensures StrictRun(OneRowRun(batch, provenance))
            <==> StrictBut(provenance, MANIFEST_KEYS) && StrictBut(provenance, CHUNK_KEYS)
  {
    assert OneRowRun(batch, provenance).chunks[0] == JsonName();
  }

  /**
   Runs of one row that the converter accepts: the loader accepts what it wrote exactly when the seed and the
   batch size are safe non-negative integers and the provenance that is handed on is JSON.
   */
  lemma OneRowLoadsIff(seed: int, batch: int, provenance: Json) returns (artifact: Artifact)
    ensures Converted(Same, OneRow(seed), OneRowRun(batch, provenance)) == Ok(artifact)
    ensures LoadedRun(Same, Small(), OneRow(seed), artifact).Ok?
            <==> && IntegerField(seed) && IntegerField(batch)
                 && StrictBut(provenance, MANIFEST_KEYS) && StrictBut(provenance, CHUNK_KEYS)
  {
    artifact := OneRowConverts(seed, batch, provenance);
    InputIsTaken(seed);
    StrictOneRow(batch, provenance);
    RoundTripIff(Same, Small(), OneRow(seed), OneRowRun(batch, provenance), artifact);
  }

  /** A field that holds a NaN and is not replaced on the way. */
  const NOT_A_NUMBER: Json := Object(map["score" := Number(None)])

  lemma EmptyIsStrict()
    ensures StrictBut(Object(map[]), MANIFEST_KEYS) && StrictBut(Object(map[]), CHUNK_KEYS)
  {
  }

  lemma NotANumberIsNotStrict()
    ensures !StrictBut(NOT_A_NUMBER, MANIFEST_KEYS)
  {
    assert "score" in Fields(NOT_A_NUMBER) && "score" !in MANIFEST_KEYS;
  }

  /** One accepted round trip, and three that the loader refuses: for the batch size, the provenance, the seed. */
  lemma RoundTripsDiffer() returns (loaded: Artifact, batch: Artifact, provenance: Artifact, seed: Artifact)
    ensures Converted(Same, OneRow(0), OneRowRun(1, Object(map[]))) == Ok(loaded)
    ensures LoadedRun(Same, Small(), OneRow(0), loaded).Ok?
    ensures Converted(Same, OneRow(0), OneRowRun(-1, Object(map[]))) == Ok(batch)
    ensures LoaderTakes(OneRow(0)) && LoadedRun(Same, Small(), OneRow(0), batch).Err?
    ensures Converted(Same, OneRow(0), OneRowRun(1, NOT_A_NUMBER)) == Ok(provenance)
    ensures LoadedRun(Same, Small(), OneRow(0), provenance).Err?
    ensures Converted(Same, OneRow(-1), OneRowRun(1, Object(map[]))) == Ok(seed)
    ensures LoadedRun(Same, Small(), OneRow(-1), seed).Err?
  {
    EmptyIsStrict();
    NotANumberIsNotStrict();
    InputIsTaken(0);
    loaded := OneRowLoadsIff(0, 1, Object(map[]));
    batch := OneRowLoadsIff(0, -1, Object(map[]));
    provenance := OneRowLoadsIff(0, 1, NOT_A_NUMBER);
    seed := OneRowLoadsIff(-1, 1, Object(map[]));
  }
}
