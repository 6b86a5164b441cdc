/**
 A JSON-lines file whose reader forgives an undecodable final line, under appends and in-place
 rewrites that a crash can cut short. `good` is what the owner of the file promises of its records.
 */
module RecoverableLog {
  import opened Wrappers
  import opened JsonLines

  // ---- Shapes of the file ------------------------------------------------------------------

  /** Complete records, then pieces without a line break; a lone piece may already be a whole record. */
  ghost predicate Tail<R(!new)>(c: Codec<R>, good: seq<R> -> bool, log: string, rs: seq<R>, ps: seq<string>, next: R) {
    && Torn(c, log, rs, ps) && good(rs)
    && (|ps| == 1 ==> ps[0] <= c.encode(next) && good(rs + [next]))
  }

  /** Complete records, a complete line that cannot decode, then anything at all. */
  ghost predicate PoisonedAt<R>(c: Codec<R>, text: string, rs: seq<R>, bad: string, rest: string) {
    text == Log(c, rs) + bad + "\n" + rest && ObjectText(bad) && c.decode(bad) == None
  }

  lemma GluedIsPoisoned<R(!new)>(c: Codec<R>, text: string, rs: seq<R>, qs: seq<string>, rest: string)
    requires Faithful(c) && GluedAt(c, text, rs, qs, rest)
    ensures PoisonedAt(c, text, rs, Cat(qs), rest)
  {
    CatText(c, qs);
  }

  /** Complete records, then one last line that does not decode. */
  ghost predicate Glued<R>(c: Codec<R>, good: seq<R> -> bool, log: string, rs: seq<R>, bad: string) {
    PoisonedAt(c, log, rs, bad, "") && good(rs)
  }

  /** An undecodable line with more text behind it. */
  ghost predicate BrokenAt<R>(c: Codec<R>, log: string, rs: seq<R>, bad: string, rest: string) {
    PoisonedAt(c, log, rs, bad, rest) && rest != "" && rest[0] == '{'
  }

  /** Something other than whole lines is at the end of the file. */
  ghost predicate Dirty<R(!new)>(c: Codec<R>, good: seq<R> -> bool, log: string) {
    || (exists rs, ps, next :: ps != [] && Tail(c, good, log, rs, ps, next))
    || (exists rs, bad :: Glued(c, good, log, rs, bad))
    || (exists rs, bad, rest :: BrokenAt(c, log, rs, bad, rest))
  }

  ghost predicate Clean<R(!new)>(c: Codec<R>, good: seq<R> -> bool, log: string) {
    exists rs :: good(rs) && log == Log(c, rs)
  }

  ghost predicate LogInv<R(!new)>(c: Codec<R>, good: seq<R> -> bool, log: string) {
    Clean(c, good, log) || Dirty(c, good, log)
  }

  /** A live writer knows every record of a clean file. */
  ghost predicate LiveInv<R(!new)>(c: Codec<R>, good: seq<R> -> bool, log: string, rs: seq<R>) {
    good(rs) && (log == Log(c, rs) || Dirty(c, good, log))
  }

  // ---- Recovery ----------------------------------------------------------------------------

  lemma RecoverNothing<R>(c: Codec<R>)
    ensures Recover(c, "") == Some([])
    ensures Recover(c, "\n") == Some([])
  {
    var none: seq<string> := [];
    var lines: seq<string> := [""];
    assert SplitAll("") == lines && Blank(lines[0]) && lines[1..] == none;
    assert ParseRecoverable(c, lines) == ParseRecoverable(c, none);
    assert FirstNewline("\n") == 0 && "\n"[..0] == "" && "\n"[1..] == "";
    assert SplitAll("\n") == [""] + SplitAll("");
    assert ([""] + SplitAll(""))[1..] == SplitAll("");
  }

  lemma RecoverPiece<R>(c: Codec<R>, t: string)
    requires ObjectText(t)
    ensures Recover(c, t) == if c.decode(t).Some? then Some([c.decode(t).value]) else Some([])
  {
    NoNewline(t);
    assert SplitAll(t) == [t] && !Blank(t);
    var none: seq<string> := [];
    assert [t][1..] == none;
    if c.decode(t).Some? {
      var value := c.decode(t).value;
      assert Then([value], ParseRecoverable(c, none)) == Some([value] + []);
      assert [value] + [] == [value];
    }
  }

  lemma RecoverTail<R(!new)>(c: Codec<R>, good: seq<R> -> bool, log: string, rs: seq<R>, ps: seq<string>, next: R)
    requires Faithful(c) && ps != [] && Tail(c, good, log, rs, ps, next)
    ensures Recover(c, log) == Some(rs) || (Recover(c, log) == Some(rs + [next]) && |ps| == 1)
  {
    CatText(c, ps);
    RecoverLog(c, rs, Cat(ps));
    RecoverPiece(c, Cat(ps));
    assert rs + [] == rs;
    if |ps| == 1 {
      LonePiece(c, ps, next);
    }
  }

  lemma LonePiece<R(!new)>(c: Codec<R>, ps: seq<string>, next: R)
    requires Faithful(c) && |ps| == 1 && ps[0] <= c.encode(next)
    ensures c.decode(Cat(ps)) == None || c.decode(Cat(ps)) == Some(next)
  {
    assert ps[..0] == [];
    assert Cat(ps) == ps[0];
    PrefixDecodes(c, next, ps[0]);
  }

  lemma PrefixDecodes<R(!new)>(c: Codec<R>, r: R, q: string)
    requires Faithful(c) && q <= c.encode(r)
    ensures c.decode(q) == None || c.decode(q) == Some(r)
  {
    assert q == c.encode(r)[..|q|];
    if |q| == |c.encode(r)| {
      LineText(c, r);
      assert q == c.encode(r);
    }
  }

  lemma RecoverGlued<R(!new)>(c: Codec<R>, good: seq<R> -> bool, log: string, rs: seq<R>, bad: string)
    requires Faithful(c) && Glued(c, good, log, rs, bad)
    ensures Recover(c, log) == Some(rs)
  {
    var line := bad + "\n" + "";
    assert log == Log(c, rs) + line;
    assert !Blank(bad);
    RecoverLine(c, bad, "");
    assert SplitAll("") == [""];
    RecoverLog(c, rs, line);
    assert rs + [] == rs;
  }

  lemma RecoverBroken<R(!new)>(c: Codec<R>, log: string, rs: seq<R>, bad: string, rest: string)
    requires Faithful(c) && BrokenAt(c, log, rs, bad, rest)
    ensures Recover(c, log) == None
  {
    assert log == Log(c, rs) + (bad + "\n" + rest);
    assert !Blank(bad);
    var first := rest[..FirstNewline(rest)];
    assert SplitAll(rest)[0] == first && first[0] == '{';
    assert !Blank(first);
    RecoverLine(c, bad, rest);
    RecoverLog(c, rs, bad + "\n" + rest);
  }

  /** On any file that satisfies the invariant, recovery rejects or returns good records. */
  lemma RecoveryIsGoodOrRejection<R(!new)>(c: Codec<R>, good: seq<R> -> bool, log: string)
    requires Faithful(c) && LogInv(c, good, log)
    ensures Recover(c, log).Some? ==> LiveInv(c, good, log, Recover(c, log).value)
    ensures Recover(c, log) == None ==> exists rs, bad, rest :: BrokenAt(c, log, rs, bad, rest)
  {
    if rs :| good(rs) && log == Log(c, rs) {
      RecoverNothing(c);
      RecoverLog(c, rs, "");
      assert Log(c, rs) + "" == log && rs + [] == rs;
    } else if rs, ps, next :| ps != [] && Tail(c, good, log, rs, ps, next) {
      RecoverTail(c, good, log, rs, ps, next);
    } else if rs, bad :| Glued(c, good, log, rs, bad) {
      RecoverGlued(c, good, log, rs, bad);
    } else {
      var rs, bad, rest :| BrokenAt(c, log, rs, bad, rest);
      RecoverBroken(c, log, rs, bad, rest);
    }
  }

  // ---- Appending ---------------------------------------------------------------------------

  lemma RestStarts<R(!new)>(c: Codec<R>, added: seq<R>, w: string, rest: string)
    requires Faithful(c) && added != [] && w <= Log(c, added)
    requires w == c.encode(added[0]) + "\n" + rest && rest != ""
    ensures rest[0] == '{'
  {
    var line := c.encode(added[0]) + "\n";
    assert Log(c, added)[|line|..] == Log(c, added[1..]);
    assert rest == w[|line|..] <= Log(c, added)[|line|..];
  }

  /** The records stay good when the first `j` of `added` join them. */
  ghost predicate GoodWith<R>(good: seq<R> -> bool, rs: seq<R>, added: seq<R>, j: nat)
    requires j <= |added|
  {
    good(rs + added[..j])
  }

  lemma AppendToClean<R(!new)>(c: Codec<R>, good: seq<R> -> bool, rs: seq<R>, added: seq<R>, w: string)
    requires Faithful(c) && w <= Log(c, added)
    requires forall j: nat | j <= |added| :: GoodWith(good, rs, added, j)
    ensures LogInv(c, good, Log(c, rs) + w)
  {
    var j, qs := AppendClean(c, rs, added, w);
    assert GoodWith(good, rs, added, j);
    if qs == [] {
      TornNothing(c, good, Log(c, rs) + w, rs + added[..j]);
    } else {
      assert GoodWith(good, rs, added, j + 1);
      TakeOneMore(rs, added, j);
      TornOnce(c, good, Log(c, rs) + w, rs + added[..j], qs, added[j]);
    }
  }

  lemma TakeOneMore<R>(rs: seq<R>, added: seq<R>, j: nat)
    requires j < |added|
    ensures rs + added[..j + 1] == (rs + added[..j]) + [added[j]]
  {
  }

  lemma TornOnce<R(!new)>(c: Codec<R>, good: seq<R> -> bool, log: string, rs: seq<R>, ps: seq<string>, next: R)
    requires Torn(c, log, rs, ps) && |ps| == 1 && ps[0] <= c.encode(next) && good(rs) && good(rs + [next])
    ensures Dirty(c, good, log)
  {
    assert Tail(c, good, log, rs, ps, next);
  }

  lemma TornNothing<R(!new)>(c: Codec<R>, good: seq<R> -> bool, log: string, rs: seq<R>)
    requires Torn(c, log, rs, []) && good(rs)
    ensures Clean(c, good, log)
  {
    assert log == Log(c, rs) + "" == Log(c, rs);
  }

  lemma AppendToTail<R(!new)>(c: Codec<R>, good: seq<R> -> bool, log: string, rs: seq<R>, ps: seq<string>, next: R,
                              added: seq<R>, w: string)
    requires Faithful(c) && w <= Log(c, added) && ps != [] && Tail(c, good, log, rs, ps, next)
    ensures Dirty(c, good, log + w)
  {
    var i, q, rest := LogPrefix(c, added, w);
    if i == 0 {
      assert Log(c, added[..0]) == "" && w == q;
      LongerTail(c, good, log, rs, ps, next, q);
    } else {
      var qs := GluedLineAt(c, log, rs, ps, added[0], rest);
      var bad := Cat(qs);
      GluedIsPoisoned(c, log + w, rs, qs, rest);
      if rest == "" {
        assert Glued(c, good, log + w, rs, bad);
      } else {
        RestStarts(c, added, w, rest);
        assert BrokenAt(c, log + w, rs, bad, rest);
      }
    }
  }

  lemma LongerTail<R(!new)>(c: Codec<R>, good: seq<R> -> bool, log: string, rs: seq<R>, ps: seq<string>,
                                next: R, q: string)
    requires ps != [] && Tail(c, good, log, rs, ps, next) && (q == "" || Piece(c, q))
    ensures Dirty(c, good, log + q)
  {
    if q == "" {
      assert log + q == log;
    } else {
      CatAppend(ps, q);
      assert log + q == Log(c, rs) + Cat(ps + [q]);
      assert Tail(c, good, log + q, rs, ps + [q], next);
    }
  }

  lemma AppendToBad<R(!new)>(c: Codec<R>, log: string, rs: seq<R>, bad: string, rest: string, w: string)
    requires PoisonedAt(c, log, rs, bad, rest) && w != ""
    requires (if rest == "" then w[0] else rest[0]) == '{'
    ensures BrokenAt(c, log + w, rs, bad, rest + w)
  {
    var front := Log(c, rs) + bad + "\n";
    assert log + w == front + (rest + w);
  }

  lemma AppendToDirty<R(!new)>(c: Codec<R>, good: seq<R> -> bool, log: string, added: seq<R>, w: string)
    requires Faithful(c) && Dirty(c, good, log) && w <= Log(c, added) && w != ""
    ensures Dirty(c, good, log + w)
  {
    if rs, ps, next :| ps != [] && Tail(c, good, log, rs, ps, next) {
      AppendToTail(c, good, log, rs, ps, next, added, w);
    } else if rs, bad :| Glued(c, good, log, rs, bad) {
      AppendToBad(c, log, rs, bad, "", w);
    } else {
      var rs, bad, rest :| BrokenAt(c, log, rs, bad, rest);
      AppendToBad(c, log, rs, bad, rest, w);
    }
  }

  /** Any prefix of an append keeps the invariant; a whole append keeps the writer in step with the file. */
  lemma AppendKeepsInv<R(!new)>(c: Codec<R>, good: seq<R> -> bool, log: string, rs: seq<R>, added: seq<R>, w: string)
    requires Faithful(c) && LiveInv(c, good, log, rs) && w <= Log(c, added)
    requires forall j: nat | j <= |added| :: GoodWith(good, rs, added, j)
    ensures LogInv(c, good, log + w)
    ensures w == Log(c, added) ==> LiveInv(c, good, log + w, rs + added)
  {
    if log == Log(c, rs) {
      AppendToClean(c, good, rs, added, w);
      LogAppend(c, rs, added);
    } else if w == "" {
      assert log + w == log;
    } else {
      AppendToDirty(c, good, log, added, w);
    }
    assert GoodWith(good, rs, added, |added|);
    assert rs + added[..|added|] == rs + added;
  }
}
