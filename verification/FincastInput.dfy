/** The FinCast input: what the Python converter demands of it, and what the TypeScript loader does. */
module FincastInput {
  import opened Wrappers

  const CONTEXT_BARS: nat := 512
  const MAX_SAFE_INTEGER: int := 9007199254740991
  const LOADER_JSON_BYTES: nat := 4194304
  const CONVERTER_JSON_BYTES: nat := 1048576

  /** `integerField`. */
  predicate IntegerField(n: int) {
    0 <= n <= MAX_SAFE_INTEGER
  }

  datatype FileSpec = FileSpec(name: string, size: int, digest: string)

  /** The file that a spec names. */
  datatype File = File(size: nat, digest: string)

  /**
   One line of the origins. A field that is missing or has another type is `None`; `timed` says that its
   times are ISO-8601 with a zone, `strict` that all its numbers are finite.
   */
  datatype OriginLine = OriginLine(rowId: int, instrumentKey: Option<string>, origin: Option<string>,
                                   futureTimestamps: Option<nat>, symbol: Option<string>, timed: bool, strict: bool)

  /** The manifest, with the size of its text, and the two files that it names. */
  datatype Input = Input(known: bool, strict: bool, bytes: nat, rows: int, cadence: int, seed: int,
                         durationHours: Option<int>, contexts: FileSpec, origins: FileSpec,
                         contextFile: File, originFile: File, lines: seq<OriginLine>,
                         manifestDigest: string, artifactDigest: string)

  predicate Matches(spec: FileSpec, file: File) {
    file.size == spec.size && file.digest == spec.digest
  }

  // ---- The converter -----------------------------------------------------------------------

  predicate HexDigit(ch: char) {
    '0' <= ch <= '9' || 'a' <= ch <= 'f'
  }

  predicate Sha256(digest: string) {
    |digest| == 64 && forall i | 0 <= i < 64 :: HexDigit(digest[i])
  }

  /** `file_spec` and `verified_member`. */
  predicate ConverterTakesFile(spec: FileSpec, file: File) {
    spec.name != "" && '/' !in spec.name && spec.size >= 1 && Sha256(spec.digest) && Matches(spec, file)
  }

  predicate ConverterTakesLine(line: OriginLine, row: int) {
    line.rowId == row && line.instrumentKey.Some? && line.futureTimestamps.Some? && line.timed
  }

  /** `fincast_contract`, the origins and their number included. */
  predicate ConverterTakes(input: Input) {
    && 2 <= input.bytes <= CONVERTER_JSON_BYTES && input.known && input.rows >= 1 && input.cadence == 60
    && ConverterTakesFile(input.contexts, input.contextFile) && ConverterTakesFile(input.origins, input.originFile)
    && |input.lines| == input.rows
    && forall i | 0 <= i < |input.lines| :: ConverterTakesLine(input.lines[i], i)
  }

  // ---- The loader --------------------------------------------------------------------------

  predicate NameStart(ch: char) {
    'a' <= ch <= 'z' || '0' <= ch <= '9'
  }

  predicate NameCharacter(ch: char) {
    NameStart(ch) || ch == '.' || ch == '-'
  }

  /** The pattern that `verifiedPayload` demands of a file name. */
  predicate LoaderName(name: string) {
    1 <= |name| <= 128 && NameStart(name[0]) && forall i | 1 <= i < |name| :: NameCharacter(name[i])
  }

  predicate LoaderTakesFile(spec: FileSpec, file: File) {
    LoaderName(spec.name) && IntegerField(spec.size) && spec.digest != "" && Matches(spec, file)
  }

  predicate LoaderTakesLine(line: OriginLine, row: int) {
    && line.strict && line.rowId == row && line.instrumentKey.Some? && line.origin.Some?
    && line.futureTimestamps.Some? && line.futureTimestamps.value >= 60 && line.symbol.Some?
  }

  /** `loadInput`. */
  predicate LoaderTakes(input: Input) {
    && 2 <= input.bytes <= LOADER_JSON_BYTES && input.strict && input.known && IntegerField(input.rows)
    && input.durationHours.Some? && 1 <= input.durationHours.value <= 840
    && LoaderTakesFile(input.contexts, input.contextFile) && LoaderTakesFile(input.origins, input.originFile)
    && input.contextFile.size == input.rows * CONTEXT_BARS * 4
    && |input.lines| == input.rows
    && (forall i | 0 <= i < |input.lines| :: LoaderTakesLine(input.lines[i], i))
    && IntegerField(input.cadence) && IntegerField(input.seed)
  }

  /** What the loader asks of a line beyond the converter. */
  predicate LoadableLine(line: OriginLine) {
    && line.strict && line.origin.Some? && line.symbol.Some?
    && line.futureTimestamps.Some? && line.futureTimestamps.value >= 60
  }

  /** What the loader asks of an input that the converter takes. */
  lemma LoaderTakesIff(input: Input)
    requires ConverterTakes(input)
    ensures LoaderTakes(input)
            <==> && input.strict && input.rows <= MAX_SAFE_INTEGER && IntegerField(input.seed)
                 && input.durationHours.Some? && 1 <= input.durationHours.value <= 840
                 && LoaderName(input.contexts.name) && LoaderName(input.origins.name)
                 && input.contexts.size == input.rows * CONTEXT_BARS * 4 <= MAX_SAFE_INTEGER
                 && input.origins.size <= MAX_SAFE_INTEGER
                 && forall i | 0 <= i < |input.lines| :: LoadableLine(input.lines[i])
  {
    assert forall i | 0 <= i < |input.lines| :: ConverterTakesLine(input.lines[i], i);
    if LoaderTakes(input) {
      assert forall i | 0 <= i < |input.lines| :: LoaderTakesLine(input.lines[i], i);
    }
  }
}
