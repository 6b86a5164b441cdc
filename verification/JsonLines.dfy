/**
 Append-only JSON-lines files, and the two readers that recover them after a crash.

 JSON itself stays abstract: a `Codec` turns a record into one line and back, and `Faithful` lists
 the facts about JSON objects that the pipelines rely on. A line may hold characters at which Python's
 `splitlines` breaks, other than the line feed that ends it: the encoder writes some of them as they are.
 A file is the text that is really on disk, so a process can die after any prefix of an append.
 */
module JsonLines {
  import opened Wrappers

  datatype Codec<!R> = Codec(encode: R -> string, decode: string -> Option<R>)

  predicate Blank(s: string) {
    forall i | 0 <= i < |s| :: s[i] == ' ' || s[i] == '\t' || s[i] == '\r' || s[i] == '\n'
  }

  /** The text of one JSON object written without separators. */
  predicate ObjectText(s: string) {
    s != "" && s[0] == '{' && '\n' !in s
  }

  /** Where Python's `splitlines` ends a line. JSON escapes the control characters, but not the last three. */
  predicate IsBreak(ch: char) {
    || ch == '\n' || ch == '\r' || ch == '\U{0B}' || ch == '\U{0C}'
    || ch == '\U{1C}' || ch == '\U{1D}' || ch == '\U{1E}'
    || ch == '\U{85}' || ch == '\U{2028}' || ch == '\U{2029}'
  }

  /** The characters at which a reader ends a line. */
  type Stop = char -> bool

  predicate Without(stop: Stop, s: string) {
    forall i | 0 <= i < |s| :: !stop(s[i])
  }

  /** Python does not split the text. */
  predicate OneLine(s: string) {
    Without(IsBreak, s)
  }

  /** What an interrupted append can leave of one line, the line break excluded. */
  ghost predicate Piece<R(!new)>(c: Codec<R>, p: string) {
    p != "" && exists r :: p <= c.encode(r)
  }

  ghost predicate Pieces<R(!new)>(c: Codec<R>, ps: seq<string>) {
    forall i | 0 <= i < |ps| :: Piece(c, ps[i])
  }

  function Cat(ps: seq<string>): string {
    if ps == [] then "" else Cat(ps[..|ps| - 1]) + ps[|ps| - 1]
  }

  /** Decoding inverts encoding, a cut line does not decode, and neither do pieces glued together. */
  ghost predicate Faithful<R(!new)>(c: Codec<R>) {
    && (forall r :: ObjectText(c.encode(r)))
    && (forall r :: c.decode(c.encode(r)) == Some(r))
    && (forall r, n | 0 <= n < |c.encode(r)| :: c.decode(c.encode(r)[..n]) == None)
    && (forall ps | Pieces(c, ps) && |ps| >= 2 :: c.decode(Cat(ps)) == None)
  }

  /** The text that appending these records writes. */
  function Log<R>(c: Codec<R>, rs: seq<R>): string {
    if rs == [] then "" else c.encode(rs[0]) + "\n" + Log(c, rs[1..])
  }

  function FirstNewline(s: string): (n: nat)
    ensures n <= |s| && '\n' !in s[..n]
    ensures n < |s| ==> s[n] == '\n'
  {
    if s == "" || s[0] == '\n' then 0 else
      assert s[..1 + FirstNewline(s[1..])] == [s[0]] + s[1..][..FirstNewline(s[1..])];
      1 + FirstNewline(s[1..])
  }

  function FirstFrom(stop: Stop, s: string, from: nat): (n: nat)
    requires from <= |s|
    ensures from <= n <= |s| && forall i | from <= i < n :: !stop(s[i])
    ensures n < |s| ==> stop(s[n])
    decreases |s| - from
  {
    if from == |s| || stop(s[from]) then from else FirstFrom(stop, s, from + 1)
  }

  /** The first position at which a line ends. */
  function First(stop: Stop, s: string): (n: nat)
    ensures n <= |s| && forall i | 0 <= i < n :: !stop(s[i])
    ensures n < |s| ==> stop(s[n])
  {
    FirstFrom(stop, s, 0)
  }

  /**
   Python's `splitlines`, on text in which reading has already turned every `\r` and `\r\n` into `\n`:
   no entry after a final line break.
   */
  function SplitLines(stop: Stop, s: string): (lines: seq<string>)
    ensures s != "" ==> lines != []
  {
    if s == "" then [] else
      var n := First(stop, s);
      if n == |s| then [s] else [s[..n]] + SplitLines(stop, s[n + 1..])
  }

  /** JavaScript's `split("\n")`: always an entry after the last line break. */
  function SplitAll(s: string): (lines: seq<string>)
    ensures lines != []
  {
    var n := FirstNewline(s);
    if n == |s| then [s] else [s[..n]] + SplitAll(s[n + 1..])
  }

  /** Records already read, followed by the outcome of reading the rest. */
  function Then<R>(rs: seq<R>, rest: Option<seq<R>>): Option<seq<R>> {
    match rest
    case None => None
    case Some(tail) => Some(rs + tail)
  }

  lemma ThenThen<R>(a: seq<R>, b: seq<R>, rest: Option<seq<R>>)
    ensures Then(a, Then(b, rest)) == Then(a + b, rest)
    ensures Then([], rest) == rest
  {
    if rest.Some? {
      assert a + (b + rest.value) == (a + b) + rest.value;
      assert [] + rest.value == rest.value;
    }
  }

  function ParseLines<R>(c: Codec<R>, lines: seq<string>): Option<seq<R>> {
    if lines == [] then Some([])
    else if Blank(lines[0]) then ParseLines(c, lines[1..])
    else match c.decode(lines[0])
      case None => None
      case Some(r) => Then([r], ParseLines(c, lines[1..]))
  }

  /** The text does not end with a line feed. */
  predicate Open(s: string) {
    s != "" && s[|s| - 1] != '\n'
  }

  /** The lines that `read_jsonl` keeps: it drops the last one unless the file ends with a line feed. */
  function CompleteLines(stop: Stop, s: string): seq<string> {
    if Open(s) then SplitLines(stop, s)[..|SplitLines(stop, s)| - 1] else SplitLines(stop, s)
  }

  /** What `read_jsonl` returns; `None` when a line does not decode. */
  function Read<R>(c: Codec<R>, raw: string): Option<seq<R>> {
    ParseLines(c, CompleteLines(IsBreak, raw))
  }

  /** The loop of `read_jsonl`. */
  method ReadJsonl<R>(c: Codec<R>, raw: string) returns (records: Option<seq<R>>)
    ensures records == Read(c, raw)
  {
    var lines := SplitLines(IsBreak, raw);
    if raw != "" && raw[|raw| - 1] != '\n' {
      lines := lines[..|lines| - 1];
    }
    var output: seq<R> := [];
    ThenThen(output, [], Read(c, raw));
    assert lines[0..] == lines;
    for i := 0 to |lines|
      invariant Read(c, raw) == Then(output, ParseLines(c, lines[i..]))
    {
      assert lines[i..][0] == lines[i] && lines[i..][1..] == lines[i + 1..];
      if !Blank(lines[i]) {
        var value := c.decode(lines[i]);
        if value == None {
          return None;
        }
        ThenThen(output, [value.value], ParseLines(c, lines[i + 1..]));
        output := output + [value.value];
      }
    }
    assert lines[|lines|..] == [] && output + [] == output;
    return Some(output);
  }

  predicate AllBlank(lines: seq<string>) {
    forall i | 0 <= i < |lines| :: Blank(lines[i])
  }

  /** What `parseRecoverableJsonLines` returns over split lines; `None` when it throws. */
  function ParseRecoverable<R>(c: Codec<R>, lines: seq<string>): Option<seq<R>> {
    if lines == [] then Some([])
    else if Blank(lines[0]) then ParseRecoverable(c, lines[1..])
    else match c.decode(lines[0])
      case None => if AllBlank(lines[1..]) then Some([]) else None
      case Some(r) => Then([r], ParseRecoverable(c, lines[1..]))
  }

  function Recover<R>(c: Codec<R>, source: string): Option<seq<R>> {
    ParseRecoverable(c, SplitAll(source))
  }

  /** `findLastIndex` over non-empty trimmed lines; -1 when there is none. */
  method FinalNonEmptyIndex(lines: seq<string>) returns (index: int)
    ensures -1 <= index < |lines|
    ensures index >= 0 ==> !Blank(lines[index])
    ensures AllBlank(lines[index + 1..])
  {
    index := |lines| - 1;
    while index >= 0 && Blank(lines[index])
      invariant -1 <= index < |lines|
      invariant AllBlank(lines[index + 1..])
    {
      assert lines[index..] == [lines[index]] + lines[index + 1..];
      index := index - 1;
    }
  }

  /** The loop of `parseRecoverableJsonLines`: only the final non-empty line may fail to parse. */
  method ParseRecoverableJsonLines<R>(c: Codec<R>, source: string) returns (rows: Option<seq<R>>)
    ensures rows == Recover(c, source)
  {
    var lines := SplitAll(source);
    var finalNonEmptyIndex := FinalNonEmptyIndex(lines);
    var parsed: seq<R> := [];
    ThenThen(parsed, [], Recover(c, source));
    assert lines[0..] == lines;
    for i := 0 to |lines|
      invariant Recover(c, source) == Then(parsed, ParseRecoverable(c, lines[i..]))
    {
      assert lines[i..][0] == lines[i] && lines[i..][1..] == lines[i + 1..];
      if Blank(lines[i]) {
        continue;
      }
      assert forall k | finalNonEmptyIndex < k < |lines| ::
        lines[k] == lines[finalNonEmptyIndex + 1..][k - finalNonEmptyIndex - 1];
      assert i < finalNonEmptyIndex ==> lines[i + 1..][finalNonEmptyIndex - i - 1] == lines[finalNonEmptyIndex];
      var value := c.decode(lines[i]);
      if value == None {
        if i == finalNonEmptyIndex {
          assert parsed + [] == parsed;
          return Some(parsed);
        }
        return None;
      }
      ThenThen(parsed, [value.value], ParseRecoverable(c, lines[i + 1..]));
      parsed := parsed + [value.value];
    }
    assert lines[|lines|..] == [] && parsed + [] == parsed;
    return Some(parsed);
  }

  // ---- Lemmas about text -------------------------------------------------------------------

  lemma FirstNewlineAt(line: string, rest: string)
    requires '\n' !in line
    ensures FirstNewline(line + "\n" + rest) == |line|
  {
    var s := line + "\n" + rest;
    var n := FirstNewline(s);
    assert s[|line|] == '\n';
    assert forall i | 0 <= i < n :: s[i] == s[..n][i];
    assert forall i | 0 <= i < |line| :: s[i] == line[i];
  }

  lemma NoNewline(t: string)
    requires '\n' !in t
    ensures FirstNewline(t) == |t|
  {
    var n := FirstNewline(t);
  }

  lemma FirstAt(stop: Stop, line: string, rest: string)
    requires stop('\n') && Without(stop, line)
    ensures First(stop, line + "\n" + rest) == |line|
  {
    var s := line + "\n" + rest;
    assert s[|line|] == '\n';
    assert forall i | 0 <= i < |line| :: s[i] == line[i];
  }

  lemma {:induction false} LogAppend<R>(c: Codec<R>, a: seq<R>, b: seq<R>)
    ensures Log(c, a + b) == Log(c, a) + Log(c, b)
  {
    if a == [] {
      assert a + b == b;
    } else {
      assert (a + b)[1..] == a[1..] + b;
      LogAppend(c, a[1..], b);
    }
  }

  lemma {:induction false} CatAppend(ps: seq<string>, p: string)
    ensures Cat(ps + [p]) == Cat(ps) + p
  {
    assert (ps + [p])[..|ps|] == ps;
  }

  /** Pieces never contain a line break, and together they start like an object. */
  lemma {:induction false} CatText<R(!new)>(c: Codec<R>, ps: seq<string>)
    requires Faithful(c) && Pieces(c, ps)
    ensures '\n' !in Cat(ps)
    ensures ps != [] ==> Cat(ps) != "" && Cat(ps)[0] == '{'
  {
    if ps != [] {
      var front, p := ps[..|ps| - 1], ps[|ps| - 1];
      assert Piece(c, p);
      var r :| p <= c.encode(r);
      assert ObjectText(c.encode(r));
      assert forall i | 0 <= i < |p| :: p[i] == c.encode(r)[i];
      CatText(c, front);
    }
  }

  lemma PieceStarts<R(!new)>(c: Codec<R>, p: string)
    requires Faithful(c) && Piece(c, p)
    ensures p[0] == '{'
  {
    var r :| p <= c.encode(r);
    assert ObjectText(c.encode(r));
    assert p[0] == c.encode(r)[0];
  }

  lemma PiecePrefix<R(!new)>(c: Codec<R>, p: string, n: nat)
    requires Piece(c, p) && 0 < n <= |p|
    ensures Piece(c, p[..n])
  {
    var r :| p <= c.encode(r);
    assert p[..n] <= c.encode(r);
  }

  lemma CutPiece<R(!new)>(c: Codec<R>, p: string, n: nat)
    requires Faithful(c) && Piece(c, p) && n < |p|
    ensures c.decode(p[..n]) == None
  {
    var r :| p <= c.encode(r);
    assert p[..n] == c.encode(r)[..n];
  }

  /** Two or more pieces, the last of them cut. */
  lemma CutLast<R(!new)>(c: Codec<R>, front: seq<string>, p: string, n: nat)
    requires Faithful(c) && Pieces(c, front) && front != [] && Piece(c, p) && 0 < n <= |p|
    ensures c.decode(Cat(front) + p[..n]) == None
  {
    PiecePrefix(c, p, n);
    CatAppend(front, p[..n]);
    assert Pieces(c, front + [p[..n]]);
  }

  /** Glued pieces that are cut before anything but the start of a piece do not decode. */
  lemma {:induction false} CutPieces<R(!new)>(c: Codec<R>, ps: seq<string>, n: nat)
    requires Faithful(c) && Pieces(c, ps) && 0 < n < |Cat(ps)| && Cat(ps)[n] != '{'
    ensures c.decode(Cat(ps)[..n]) == None
  {
    var front, p := ps[..|ps| - 1], ps[|ps| - 1];
    var at := |Cat(front)|;
    assert Piece(c, p);
    PieceStarts(c, p);
    if n < at {
      assert Cat(ps)[..n] == Cat(front)[..n];
      CutPieces(c, front, n);
    } else {
      assert Cat(ps)[at] == p[0];
      assert Cat(ps)[..n] == Cat(front) + p[..n - at];
      if front == [] {
        assert Cat(front) + p[..n] == p[..n];
        CutPiece(c, p, n);
      } else {
        CutLast(c, front, p, n - at);
      }
    }
  }

  // ---- Reading one line at a time ----------------------------------------------------------

  lemma DropLast(first: string, lines: seq<string>)
    requires lines != []
    ensures ([first] + lines)[..|lines|] == [first] + lines[..|lines| - 1]
  {
  }

  lemma SplitStep(stop: Stop, s: string, n: nat)
    requires n == First(stop, s) && n < |s|
    ensures SplitLines(stop, s) == [s[..n]] + SplitLines(stop, s[n + 1..])
  {
  }

  lemma OpenStep(s: string, n: nat)
    requires n + 1 < |s|
    ensures Open(s) <==> Open(s[n + 1..])
  {
    assert s[|s| - 1] == s[n + 1..][|s| - n - 2];
  }

  /** The last character is the only one that ends a line. */
  lemma LastLine(stop: Stop, s: string)
    requires First(stop, s) + 1 == |s|
    ensures CompleteLines(stop, s) == if s[|s| - 1] == '\n' then [s[..|s| - 1]] else []
  {
    var n := |s| - 1;
    SplitStep(stop, s, n);
    assert s[n + 1..] == "";
    assert SplitLines(stop, s) == [s[..n]];
  }

  lemma NoLine(stop: Stop, s: string)
    requires stop('\n') && First(stop, s) == |s|
    ensures CompleteLines(stop, s) == []
  {
    if s != "" {
      assert SplitLines(stop, s) == [s];
      assert !stop(s[|s| - 1]);
    }
  }

  /** A line that ends before the last character comes off the front. */
  lemma FrontLine(stop: Stop, s: string, n: nat)
    requires n == First(stop, s) && n + 1 < |s|
    ensures CompleteLines(stop, s) == [s[..n]] + CompleteLines(stop, s[n + 1..])
  {
    var rest := s[n + 1..];
    SplitStep(stop, s, n);
    OpenStep(s, n);
    DropLast(s[..n], SplitLines(stop, rest));
  }

  /** A line that ends before the last character, or with a line feed, comes off the front. */
  lemma CompleteLinesStep(stop: Stop, s: string, n: nat)
    requires stop('\n') && n == First(stop, s) && n < |s| && (n + 1 < |s| || s[n] == '\n')
    ensures CompleteLines(stop, s) == [s[..n]] + CompleteLines(stop, s[n + 1..])
  {
    if n + 1 < |s| {
      FrontLine(stop, s, n);
    } else {
      LastLine(stop, s);
      assert s[n + 1..] == "";
      NoLine(stop, "");
    }
  }

  lemma LineFront(stop: Stop, line: string, rest: string)
    requires stop('\n') && Without(stop, line)
    ensures CompleteLines(stop, line + "\n" + rest) == [line] + CompleteLines(stop, rest)
  {
    var s := line + "\n" + rest;
    FirstAt(stop, line, rest);
    CompleteLinesStep(stop, s, |line|);
    assert s[..|line|] == line && s[|line| + 1..] == rest;
  }

  lemma ReadLine<R>(c: Codec<R>, line: string, rest: string)
    requires OneLine(line) && !Blank(line)
    ensures Read(c, line + "\n" + rest) == match c.decode(line)
      case None => None
      case Some(r) => Then([r], Read(c, rest))
  {
    LineFront(IsBreak, line, rest);
    assert ([line] + CompleteLines(IsBreak, rest))[1..] == CompleteLines(IsBreak, rest);
  }

  lemma RecoverLine<R>(c: Codec<R>, line: string, rest: string)
    requires '\n' !in line && !Blank(line)
    ensures Recover(c, line + "\n" + rest) == match c.decode(line)
      case None => if AllBlank(SplitAll(rest)) then Some([]) else None
      case Some(r) => Then([r], Recover(c, rest))
  {
    var s := line + "\n" + rest;
    FirstNewlineAt(line, rest);
    assert s[..|line|] == line && s[|line| + 1..] == rest;
    assert SplitAll(s) == [line] + SplitAll(rest);
    assert ([line] + SplitAll(rest))[1..] == SplitAll(rest);
  }

  lemma LogCons<R>(c: Codec<R>, rs: seq<R>, rest: string)
    requires rs != []
    ensures Log(c, rs) + rest == c.encode(rs[0]) + "\n" + (Log(c, rs[1..]) + rest)
  {
  }

  lemma LineText<R(!new)>(c: Codec<R>, r: R)
    requires Faithful(c)
    ensures ObjectText(c.encode(r)) && !Blank(c.encode(r)) && c.decode(c.encode(r)) == Some(r)
  {
    assert ObjectText(c.encode(r));
  }

  lemma HeadAndTail<R>(rs: seq<R>)
    requires rs != []
    ensures [rs[0]] + rs[1..] == rs
  {
  }

  ghost predicate AllOneLine<R>(c: Codec<R>, rs: seq<R>) {
    forall i | 0 <= i < |rs| :: OneLine(c.encode(rs[i]))
  }

  /** A first line that starts like an object and does not decode stops the reader. */
  lemma ReadStops<R>(c: Codec<R>, s: string, n: nat)
    requires n == First(IsBreak, s) && 0 < n < |s| && (n + 1 < |s| || s[n] == '\n')
    requires s[0] == '{' && c.decode(s[..n]) == None
    ensures Read(c, s) == None
  {
    CompleteLinesStep(IsBreak, s, n);
    assert s[..n][0] == '{';
    assert !Blank(s[..n]);
  }

  lemma FirstInside(stop: Stop, line: string, rest: string)
    requires !Without(stop, line)
    ensures First(stop, line) < |line| && First(stop, line + "\n" + rest) == First(stop, line)
    ensures (line + "\n" + rest)[..First(stop, line)] == line[..First(stop, line)]
  {
    var s, n := line + "\n" + rest, First(stop, line);
    assert forall i | 0 <= i < |line| :: s[i] == line[i];
    assert stop(s[n]);
    assert s[..n] == line[..n];
  }

  /** A record whose line holds a further separator is cut there, and the part before it does not decode. */
  lemma SeparatorStopsReader<R(!new)>(c: Codec<R>, r: R, rest: string)
    requires Faithful(c) && !OneLine(c.encode(r))
    ensures Read(c, c.encode(r) + "\n" + rest) == None
  {
    var line := c.encode(r);
    LineText(c, r);
    FirstInside(IsBreak, line, rest);
    ReadStops(c, line + "\n" + rest, First(IsBreak, line));
  }

  lemma ReadFront<R(!new)>(c: Codec<R>, r: R, more: string)
    requires Faithful(c)
    ensures Read(c, c.encode(r) + "\n" + more) == if OneLine(c.encode(r)) then Then([r], Read(c, more)) else None
  {
    LineText(c, r);
    if OneLine(c.encode(r)) {
      ReadLine(c, c.encode(r), more);
    } else {
      SeparatorStopsReader(c, r, more);
    }
  }

  lemma AllOneLineCons<R>(c: Codec<R>, rs: seq<R>)
    requires rs != []
    ensures AllOneLine(c, rs) <==> OneLine(c.encode(rs[0])) && AllOneLine(c, rs[1..])
  {
    assert forall i | 1 <= i < |rs| :: rs[i] == rs[1..][i - 1];
  }

  /** The Python reader sees whole lines first, unless one of them holds a further separator. */
  lemma {:induction false} ReadLog<R(!new)>(c: Codec<R>, rs: seq<R>, rest: string)
    requires Faithful(c)
    ensures Read(c, Log(c, rs) + rest) == if AllOneLine(c, rs) then Then(rs, Read(c, rest)) else None
  {
    if rs == [] {
      assert Log(c, rs) + rest == rest;
      ThenThen([], [], Read(c, rest));
    } else {
      ReadLog(c, rs[1..], rest);
      ReadFront(c, rs[0], Log(c, rs[1..]) + rest);
      LogCons(c, rs, rest);
      AllOneLineCons(c, rs);
      HeadAndTail(rs);
      ThenThen([rs[0]], rs[1..], Read(c, rest));
    }
  }

  /** The Python reader gets a whole log back if no line of it holds a further separator, and rejects it otherwise. */
  lemma LogReadableIffOneLine<R(!new)>(c: Codec<R>, rs: seq<R>)
    requires Faithful(c)
    ensures Read(c, Log(c, rs)) == if AllOneLine(c, rs) then Some(rs) else None
  {
    ReadLog(c, rs, "");
    assert Log(c, rs) + "" == Log(c, rs) && rs + [] == rs;
  }

  lemma RecoverRecord<R(!new)>(c: Codec<R>, r: R, more: string, rs: seq<R>, outcome: Option<seq<R>>)
    requires Faithful(c) && Recover(c, more) == Then(rs, outcome)
    ensures Recover(c, c.encode(r) + "\n" + more) == Then([r] + rs, outcome)
  {
    LineText(c, r);
    RecoverLine(c, c.encode(r), more);
    ThenThen([r], rs, outcome);
  }

  lemma {:induction false} RecoverLog<R(!new)>(c: Codec<R>, rs: seq<R>, rest: string)
    requires Faithful(c)
    ensures Recover(c, Log(c, rs) + rest) == Then(rs, Recover(c, rest))
  {
    if rs == [] {
      assert Log(c, rs) + rest == rest;
      ThenThen([], [], Recover(c, rest));
    } else {
      HeadAndTail(rs);
      RecoverLog(c, rs[1..], rest);
      RecoverRecord(c, rs[0], Log(c, rs[1..]) + rest, rs[1..], Recover(c, rest));
      LogCons(c, rs, rest);
    }
  }

  // ---- What is on disk ---------------------------------------------------------------------

  /** Complete lines `rs`, then whatever interrupted appends left without a line break. */
  ghost predicate Torn<R(!new)>(c: Codec<R>, text: string, rs: seq<R>, ps: seq<string>) {
    Pieces(c, ps) && text == Log(c, rs) + Cat(ps)
  }

  /** A complete line of several pieces, followed by anything at all. */
  ghost predicate Poisoned<R(!new)>(c: Codec<R>, text: string) {
    exists rs, qs, rest :: GluedAt(c, text, rs, qs, rest)
  }

  ghost predicate GluedAt<R(!new)>(c: Codec<R>, text: string, rs: seq<R>, qs: seq<string>, rest: string) {
    Pieces(c, qs) && |qs| >= 2 && text == Log(c, rs) + Cat(qs) + "\n" + rest
  }

  /** No line of an unterminated tail is complete before its end. */
  predicate Hidden(tail: string) {
    First(IsBreak, tail) + 1 >= |tail|
  }

  lemma HiddenLines(t: string)
    requires '\n' !in t && Hidden(t)
    ensures CompleteLines(IsBreak, t) == []
  {
    if First(IsBreak, t) == |t| {
      NoLine(IsBreak, t);
    } else {
      LastLine(IsBreak, t);
    }
  }

  lemma ReadTail<R(!new)>(c: Codec<R>, ps: seq<string>)
    requires Faithful(c) && Pieces(c, ps)
    ensures Read(c, Cat(ps)) == if Hidden(Cat(ps)) then Some([]) else None
  {
    CatText(c, ps);
    if Hidden(Cat(ps)) {
      HiddenLines(Cat(ps));
    } else {
      TailStops(c, ps);
    }
  }

  lemma TailStops<R(!new)>(c: Codec<R>, ps: seq<string>)
    requires Faithful(c) && Pieces(c, ps) && !Hidden(Cat(ps))
    ensures Read(c, Cat(ps)) == None
  {
    var t := Cat(ps);
    var n := First(IsBreak, t);
    CatText(c, ps);
    assert IsBreak(t[n]);
    CutPieces(c, ps, n);
    ReadStops(c, t, n);
  }

  lemma ThenNothing<R>(rs: seq<R>)
    ensures Then(rs, Some([])) == Some(rs) && Then(rs, None) == None
  {
    assert rs + [] == rs;
  }

  /**
   The Python reader drops an unterminated tail unread, and sees exactly the lines before it, unless a
   further separator in them or inside the tail makes it reject the file.
   */
  lemma ReadTorn<R(!new)>(c: Codec<R>, text: string, rs: seq<R>, ps: seq<string>)
    requires Faithful(c) && Torn(c, text, rs, ps)
    ensures Read(c, text) == if AllOneLine(c, rs) && Hidden(Cat(ps)) then Some(rs) else None
  {
    ReadTail(c, ps);
    ReadLog(c, rs, Cat(ps));
    ThenNothing(rs);
  }

  lemma ReadableTorn<R(!new)>(c: Codec<R>, text: string, rs: seq<R>, ps: seq<string>)
    requires Faithful(c) && Torn(c, text, rs, ps) && Read(c, text).Some?
    ensures Read(c, text) == Some(rs)
  {
    ReadTorn(c, text, rs, ps);
  }

  /** Wherever Python splits a complete line of several pieces, it does not get past it. */
  lemma ReadGlued<R(!new)>(c: Codec<R>, qs: seq<string>, rest: string)
    requires Faithful(c) && Pieces(c, qs) && |qs| >= 2
    ensures Read(c, Cat(qs) + "\n" + rest) == None
  {
    var bad := Cat(qs);
    CatText(c, qs);
    if OneLine(bad) {
      assert !Blank(bad);
      ReadLine(c, bad, rest);
    } else {
      FirstInside(IsBreak, bad, rest);
      CutPieces(c, qs, First(IsBreak, bad));
      ReadStops(c, bad + "\n" + rest, First(IsBreak, bad));
    }
  }

  lemma GluedMore<R(!new)>(c: Codec<R>, text: string, more: string, rs: seq<R>, qs: seq<string>, rest: string)
    requires GluedAt(c, text, rs, qs, rest)
    ensures GluedAt(c, text + more, rs, qs, rest + more)
  {
    assert text + more == Log(c, rs) + Cat(qs) + "\n" + (rest + more);
  }

  lemma Regroup(a: string, b: string, rest: string)
    ensures a + b + "\n" + rest == a + (b + "\n" + rest)
  {
  }

  lemma ReadBehind<R(!new)>(c: Codec<R>, rs: seq<R>, rest: string)
    requires Faithful(c) && Read(c, rest) == None
    ensures Read(c, Log(c, rs) + rest) == None
  {
    ReadLog(c, rs, rest);
  }

  lemma GluedRead<R(!new)>(c: Codec<R>, text: string, rs: seq<R>, qs: seq<string>, rest: string)
    requires Faithful(c) && GluedAt(c, text, rs, qs, rest)
    ensures Read(c, text) == None
  {
    ReadGlued(c, qs, rest);
    ReadBehind(c, rs, Cat(qs) + "\n" + rest);
    Regroup(Log(c, rs), Cat(qs), rest);
  }

  /** No later append repairs a poisoned file for the Python reader. */
  lemma ReadPoisoned<R(!new)>(c: Codec<R>, text: string, more: string)
    requires Faithful(c) && Poisoned(c, text)
    ensures Poisoned(c, text + more)
    ensures Read(c, text) == None
  {
    var rs, qs, rest :| GluedAt(c, text, rs, qs, rest);
    GluedMore(c, text, more, rs, qs, rest);
    GluedRead(c, text, rs, qs, rest);
  }

  /** A prefix of an append is some whole lines and at most one piece. */
  lemma {:induction false} LogPrefix<R(!new)>(c: Codec<R>, added: seq<R>, w: string)
    returns (j: nat, p: string, rest: string)
    requires w <= Log(c, added)
    ensures j <= |added| && w == Log(c, added[..j]) + p
    ensures p == "" || (j < |added| && p <= c.encode(added[j]) && Piece(c, p))
    ensures w == Log(c, added) ==> j == |added| && p == ""
    ensures j > 0 ==> w == c.encode(added[0]) + "\n" + rest
  {
    if added == [] || |w| <= |c.encode(added[0])| {
      j, p, rest := 0, w, "";
      assert w == Log(c, added[..0]) + w;
      if added != [] {
        assert w <= c.encode(added[0]);
      }
    } else {
      var line := c.encode(added[0]) + "\n";
      assert Log(c, added)[..|line|] == line && Log(c, added)[|line|..] == Log(c, added[1..]);
      assert w[..|line|] == line;
      rest := w[|line|..];
      var i, q, _ := LogPrefix(c, added[1..], rest);
      j, p := i + 1, q;
      assert added[..j][1..] == added[1..][..i];
      assert w == line + rest;
      LogCons(c, added[..j], p);
    }
  }

  /** Appending behind a torn tail: either the tail only grows, or the file is poisoned. */
  lemma AppendBehindTear<R(!new)>(c: Codec<R>, text: string, rs: seq<R>, ps: seq<string>, added: seq<R>, w: string)
    requires Faithful(c) && Torn(c, text, rs, ps) && ps != [] && w <= Log(c, added)
    ensures Poisoned(c, text + w) || exists qs :: Torn(c, text + w, rs, qs)
    ensures w == Log(c, added) && added != [] ==> Poisoned(c, text + w)
  {
    var i, p, rest := LogPrefix(c, added, w);
    if i == 0 {
      TailGrows(c, text, rs, ps, p);
      assert Log(c, added[..0]) == "" && w == p;
    } else {
      var qs := GluedLineAt(c, text, rs, ps, added[0], rest);
      assert GluedAt(c, text + w, rs, qs, rest);
    }
  }

  lemma MorePieces<R(!new)>(c: Codec<R>, ps: seq<string>, p: string) returns (qs: seq<string>)
    requires Pieces(c, ps) && (p == "" || Piece(c, p))
    ensures Pieces(c, qs) && Cat(qs) == Cat(ps) + p
  {
    qs := ps;
    if p != "" {
      qs := ps + [p];
      CatAppend(ps, p);
    }
  }

  lemma TailGrows<R(!new)>(c: Codec<R>, text: string, rs: seq<R>, ps: seq<string>, p: string)
    requires Torn(c, text, rs, ps) && (p == "" || Piece(c, p))
    ensures exists qs :: Torn(c, text + p, rs, qs)
  {
    var qs := MorePieces(c, ps, p);
    assert text + p == Log(c, rs) + (Cat(ps) + p);
    assert Torn(c, text + p, rs, qs);
  }

  /** A whole line written behind a torn tail. */
  lemma GluedLineAt<R(!new)>(c: Codec<R>, text: string, rs: seq<R>, ps: seq<string>, r: R, rest: string)
    returns (qs: seq<string>)
    requires Faithful(c) && Torn(c, text, rs, ps) && ps != []
    ensures GluedAt(c, text + (c.encode(r) + "\n" + rest), rs, qs, rest)
  {
    var first := c.encode(r);
    LineText(c, r);
    assert Piece(c, first);
    qs := ps + [first];
    CatAppend(ps, first);
    Glue(Log(c, rs), Cat(ps), first, rest);
  }

  lemma Glue(a: string, b: string, first: string, rest: string)
    ensures (a + b) + (first + "\n" + rest) == a + (b + first) + "\n" + rest
  {
  }

  /** Appending to a file that ends with a line break leaves whole lines and at most one piece. */
  lemma AppendClean<R(!new)>(c: Codec<R>, rs: seq<R>, added: seq<R>, w: string)
    returns (j: nat, qs: seq<string>)
    requires Faithful(c) && w <= Log(c, added)
    ensures j <= |added| && |qs| <= 1 && Torn(c, Log(c, rs) + w, rs + added[..j], qs)
    ensures qs != [] ==> j < |added| && qs[0] <= c.encode(added[j])
    ensures w == Log(c, added) ==> j == |added| && qs == []
  {
    var i, p, _ := LogPrefix(c, added, w);
    j := i;
    LogAppendPiece(c, rs, added[..j], p);
    qs := OnePiece(c, rs + added[..j], p);
  }

  lemma OnePiece<R(!new)>(c: Codec<R>, rs: seq<R>, p: string) returns (qs: seq<string>)
    requires p == "" || Piece(c, p)
    ensures qs == (if p == "" then [] else [p]) && Torn(c, Log(c, rs) + p, rs, qs)
  {
    qs := if p == "" then [] else [p];
    CatAppend([], p);
    assert Cat(qs) == p;
  }

  lemma LogAppendPiece<R>(c: Codec<R>, rs: seq<R>, added: seq<R>, p: string)
    ensures Log(c, rs) + (Log(c, added) + p) == Log(c, rs + added) + p
  {
    LogAppend(c, rs, added);
    assert Log(c, rs) + (Log(c, added) + p) == (Log(c, rs) + Log(c, added)) + p;
  }

  lemma EndsCleanIff<R(!new)>(c: Codec<R>, text: string, rs: seq<R>, ps: seq<string>)
    requires Faithful(c) && Torn(c, text, rs, ps)
    ensures text == "" || text[|text| - 1] == '\n' <==> ps == []
  {
    CatText(c, ps);
    LogEnds(c, rs);
    if ps == [] {
      assert text == Log(c, rs);
    } else {
      assert text[|text| - 1] == Cat(ps)[|Cat(ps)| - 1];
    }
  }

  /**
   After a whole append the Python reader sees exactly the old lines and the new ones if the file had no
   torn tail and no line holds a further separator; otherwise it rejects the file.
   */
  lemma AppendReadableIffUntorn<R(!new)>(c: Codec<R>, text: string, rs: seq<R>, ps: seq<string>, added: seq<R>)
    requires Faithful(c) && Torn(c, text, rs, ps) && added != []
    ensures text == "" || text[|text| - 1] == '\n' <==> ps == []
    ensures Read(c, text + Log(c, added)) == if ps == [] && AllOneLine(c, rs + added) then Some(rs + added) else None
  {
    EndsCleanIff(c, text, rs, ps);
    if ps == [] {
      assert text == Log(c, rs);
      LogAppend(c, rs, added);
      LogReadableIffOneLine(c, rs + added);
    } else {
      AppendBehindTear(c, text, rs, ps, added, Log(c, added));
      ReadPoisoned(c, text + Log(c, added), "");
    }
  }

  lemma {:induction false} LogEnds<R>(c: Codec<R>, rs: seq<R>)
    ensures Log(c, rs) == "" || Log(c, rs)[|Log(c, rs)| - 1] == '\n'
  {
    if rs != [] {
      LogEnds(c, rs[1..]);
    }
  }

  // ---- Files that only grow ----------------------------------------------------------------

  predicate Extends<R(==)>(shorter: seq<R>, longer: seq<R>) {
    |shorter| <= |longer| && longer[..|shorter|] == shorter
  }

  /** A later reader sees at least what an earlier one saw, and never anything after a rejection. */
  predicate Grows<R(==)>(earlier: Option<seq<R>>, later: Option<seq<R>>) {
    later == None || (earlier.Some? && Extends(earlier.value, later.value))
  }

  lemma ConsPrefix(x: string, a: seq<string>, b: seq<string>)
    requires a <= b
    ensures [x] + a <= [x] + b
  {
  }

  /** The first line of a text that goes on behind it, and of any longer text. */
  lemma LongerFront(stop: Stop, s: string, w: string, front: string, rest: string)
    requires First(stop, s) < |s| && front == s[..First(stop, s)] && rest == s[First(stop, s) + 1..] && rest + w != ""
    ensures CompleteLines(stop, s + w) == [front] + CompleteLines(stop, rest + w)
  {
    LongerFirst(stop, s, w);
    FrontLine(stop, s + w, First(stop, s));
  }

  lemma GrowFront(stop: Stop, s: string, w: string, front: string, rest: string)
    requires First(stop, s) < |s| && front == s[..First(stop, s)] && rest == s[First(stop, s) + 1..] && rest != ""
    requires CompleteLines(stop, rest) <= CompleteLines(stop, rest + w)
    ensures CompleteLines(stop, s) <= CompleteLines(stop, s + w)
  {
    FrontLine(stop, s, First(stop, s));
    LongerFront(stop, s, w, front, rest);
    ConsPrefix(front, CompleteLines(stop, rest), CompleteLines(stop, rest + w));
  }

  lemma GrowLast(stop: Stop, s: string, w: string)
    requires First(stop, s) + 1 == |s| && w != ""
    ensures CompleteLines(stop, s) <= CompleteLines(stop, s + w)
  {
    var front := s[..|s| - 1];
    LastLine(stop, s);
    assert s[First(stop, s) + 1..] == "" && "" + w == w;
    LongerFront(stop, s, w, front, "");
    ConsPrefix(front, [], CompleteLines(stop, w));
  }

  /** More text leaves the lines alone that are kept of the text before it. */
  lemma {:induction false} CompleteLinesGrow(stop: Stop, s: string, w: string)
    requires stop('\n')
    ensures CompleteLines(stop, s) <= CompleteLines(stop, s + w)
  {
    if w == "" {
      assert s + w == s;
    } else if First(stop, s) == |s| {
      NoLine(stop, s);
    } else if First(stop, s) + 1 == |s| {
      GrowLast(stop, s, w);
    } else {
      var rest := s[First(stop, s) + 1..];
      CompleteLinesGrow(stop, rest, w);
      GrowFront(stop, s, w, s[..First(stop, s)], rest);
    }
  }

  lemma LongerFirst(stop: Stop, s: string, w: string)
    requires First(stop, s) < |s|
    ensures var n := First(stop, s);
            First(stop, s + w) == n && (s + w)[..n] == s[..n] && (s + w)[n + 1..] == s[n + 1..] + w
  {
    var n := First(stop, s);
    assert forall i | 0 <= i < |s| :: (s + w)[i] == s[i];
    assert stop((s + w)[n]);
  }

  lemma {:induction false} ParseGrows<R>(c: Codec<R>, a: seq<string>, b: seq<string>)
    ensures Grows(ParseLines(c, a), ParseLines(c, a + b))
  {
    if a == [] {
      assert a + b == b;
    } else {
      assert (a + b)[1..] == a[1..] + b;
      ParseGrows(c, a[1..], b);
    }
  }

  /** Whatever is appended to any file, the Python reader goes on seeing what it saw, or rejects from then on. */
  lemma ReadGrows<R>(c: Codec<R>, raw: string, more: string)
    ensures Grows(Read(c, raw), Read(c, raw + more))
  {
    var a, b := CompleteLines(IsBreak, raw), CompleteLines(IsBreak, raw + more);
    CompleteLinesGrow(IsBreak, raw, more);
    assert b == a + b[|a|..];
    ParseGrows(c, a, b[|a|..]);
  }

  // ---- The assumptions can be met ----------------------------------------------------------

  function Repeat(filler: char, n: nat): (s: string)
    ensures |s| == n && forall i | 0 <= i < n :: s[i] == filler
  {
    seq(n, i => filler)
  }

  /** Numbers in unary between braces: a brace closes a line, and only at its end. */
  function Unary(filler: char): Codec<nat> {
    Codec(n => EncodeUnary(filler, n), s => DecodeUnary(filler, s))
  }

  function EncodeUnary(filler: char, n: nat): string {
    "{" + Repeat(filler, n) + "}"
  }

  function DecodeUnary(filler: char, s: string): Option<nat> {
    if |s| >= 2 && s == EncodeUnary(filler, |s| - 2) then Some(|s| - 2) else None
  }

  /** A character that is neither a brace nor a line feed. */
  predicate Filler(ch: char) {
    ch != '{' && ch != '}' && ch != '\n'
  }

  lemma UnaryLine(filler: char, n: nat)
    requires Filler(filler)
    ensures ObjectText(EncodeUnary(filler, n)) && DecodeUnary(filler, EncodeUnary(filler, n)) == Some(n)
    ensures OneLine(EncodeUnary(filler, n)) <==> n == 0 || !IsBreak(filler)
  {
    var s := EncodeUnary(filler, n);
    assert forall i | 0 <= i < |s| :: s[i] == if i == 0 then '{' else if i <= n then filler else '}';
    if n > 0 {
      assert s[1] == filler;
    }
  }

  lemma UnaryCut(filler: char, n: nat, k: nat)
    requires Filler(filler) && k < |EncodeUnary(filler, n)|
    ensures DecodeUnary(filler, EncodeUnary(filler, n)[..k]) == None
  {
    var s := EncodeUnary(filler, n)[..k];
    if k >= 2 {
      assert s[k - 1] == filler;
      assert EncodeUnary(filler, k - 2)[k - 1] == '}';
    }
  }

  /** A second piece starts with a brace, which no line has in its middle. */
  lemma UnaryGlue(filler: char, ps: seq<string>)
    requires Filler(filler) && Pieces(Unary(filler), ps) && |ps| >= 2
    ensures DecodeUnary(filler, Cat(ps)) == None
  {
    var c, front, p := Unary(filler), ps[..|ps| - 1], ps[|ps| - 1];
    assert Piece(c, p) && Piece(c, front[|front| - 1]);
    var n :| p <= c.encode(n);
    assert p[0] == c.encode(n)[0] == '{';
    var s, at := Cat(ps), |Cat(front)|;
    assert at >= 1 && s[at] == '{';
    UnaryInside(filler, |s| - 2, at);
  }

  lemma UnaryInside(filler: char, n: nat, at: nat)
    requires Filler(filler) && 1 <= at < n + 2
    ensures EncodeUnary(filler, n)[at] != '{'
  {
    assert EncodeUnary(filler, n)[at] == if at <= n then filler else '}';
  }

  /**
   The assumptions on the encoding are consistent, for a type with infinitely many records, and whether or
   not the lines hold further separators.
   */
  lemma FaithfulCodecExists(filler: char)
    requires Filler(filler)
    ensures Faithful(Unary(filler))
    ensures forall n: nat :: OneLine(Unary(filler).encode(n)) <==> n == 0 || !IsBreak(filler)
  {
    var c := Unary(filler);
    forall n: nat
      ensures ObjectText(c.encode(n)) && c.decode(c.encode(n)) == Some(n)
      ensures OneLine(c.encode(n)) <==> n == 0 || !IsBreak(filler)
    {
      UnaryLine(filler, n);
    }
    forall n: nat, k | 0 <= k < |c.encode(n)|
      ensures c.decode(c.encode(n)[..k]) == None
    {
      UnaryCut(filler, n, k);
    }
    forall ps | Pieces(c, ps) && |ps| >= 2
      ensures c.decode(Cat(ps)) == None
    {
      UnaryGlue(filler, ps);
    }
  }
}
