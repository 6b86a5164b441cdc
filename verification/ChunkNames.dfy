/** Chunk file names: two row numbers, padded to ten digits. */
module ChunkNames {

  const TEN_DIGITS: nat := 10000000000

  function Digit(d: nat): (c: char)
    requires d < 10
    ensures '0' <= c <= '9' && DigitValue(c) == d
  {
    ('0' as int + d) as char
  }

  function DigitValue(c: char): int {
    c as int - '0' as int
  }

  function Digits(n: nat): string {
    if n < 10 then [Digit(n)] else Digits(n / 10) + [Digit(n % 10)]
  }

  function Zeros(k: nat): string {
    seq(k, _ => '0')
  }

  /** The format `:010d`. A number of more than ten digits is written in full. */
  function Padded(n: nat): (s: string)
    ensures |s| >= 10
  {
    var digits := Digits(n);
    if |digits| >= 10 then digits else Zeros(10 - |digits|) + digits
  }

  predicate AllDigits(s: string) {
    forall i | 0 <= i < |s| :: '0' <= s[i] <= '9'
  }

  function Value(s: string): int {
    if s == [] then 0 else 10 * Value(s[..|s| - 1]) + DigitValue(s[|s| - 1])
  }

  function Power(k: nat): nat {
    if k == 0 then 1 else 10 * Power(k - 1)
  }

  lemma {:induction false} DigitsValue(n: nat)
    ensures Value(Digits(n)) == n && AllDigits(Digits(n)) && |Digits(n)| >= 1
  {
    if n < 10 {
      assert [Digit(n)][..0] == [];
    } else {
      DigitsValue(n / 10);
      assert Digits(n)[..|Digits(n)| - 1] == Digits(n / 10);
    }
  }

  lemma {:induction false} DigitsLength(n: nat, k: nat)
    requires k >= 1
    ensures |Digits(n)| <= k <==> n < Power(k)
  {
    if k == 1 {
      assert Power(1) == 10 * Power(0);
      if n >= 10 {
        DigitsValue(n / 10);
      }
    } else {
      PowerAtLeastTen(k);
      if n >= 10 {
        DigitsLength(n / 10, k - 1);
      }
    }
  }

  lemma {:induction false} PowerAtLeastTen(k: nat)
    requires k >= 1
    ensures Power(k) >= 10 && Power(k) == 10 * Power(k - 1)
  {
    if k > 1 {
      PowerAtLeastTen(k - 1);
    }
  }

  lemma {:induction false} LeadingZeros(k: nat, s: string)
    ensures Value(Zeros(k) + s) == Value(s)
    decreases k, |s|
  {
    if s == [] {
      assert Zeros(k) + s == Zeros(k);
      if k > 0 {
        assert Zeros(k)[..k - 1] == Zeros(k - 1) + [];
        LeadingZeros(k - 1, []);
      }
    } else {
      LeadingZeros(k, s[..|s| - 1]);
      assert (Zeros(k) + s)[..k + |s| - 1] == Zeros(k) + s[..|s| - 1];
    }
  }

  /** Ten digits are enough exactly for the numbers below ten to the ten, and they can be read back. */
  lemma PaddedReads(n: nat)
    ensures |Padded(n)| == 10 <==> n < TEN_DIGITS
    ensures Value(Padded(n)) == n && AllDigits(Padded(n))
  {
    DigitsLength(n, 10);
    DigitsValue(n);
    if |Digits(n)| < 10 {
      LeadingZeros(10 - |Digits(n)|, Digits(n));
    }
  }

  const PREFIX := "chunks/chunk-"

  function Name(start: nat, end: nat, extension: string): string {
    PREFIX + Padded(start) + "-" + Padded(end) + extension
  }

  /** The pattern that every reader demands: the prefix, ten digits, a dash, ten digits, the extension. */
  predicate SafeName(name: string, extension: string) {
    && |name| == 34 + |extension|
    && name[..13] == PREFIX && AllDigits(name[13..23]) && name[23] == '-' && AllDigits(name[24..34])
    && name[34..] == extension
  }

  function StartOf(name: string): int
    requires |name| >= 23
  {
    Value(name[13..23])
  }

  lemma NameParts(p: string, q: string, extension: string)
    requires |p| == 10 && |q| == 10
    ensures var name := PREFIX + p + "-" + q + extension;
            |name| == 34 + |extension| && name[..13] == PREFIX && name[13..23] == p && name[23] == '-'
            && name[24..34] == q && name[34..] == extension
  {
    var name := PREFIX + p + "-" + q + extension;
    assert name == PREFIX + (p + "-" + q + extension);
    assert name == (PREFIX + p) + ("-" + q + extension);
    assert name == (PREFIX + p + "-") + (q + extension);
  }

  /** A written name matches the pattern exactly when both row numbers fit into ten digits. */
  lemma NameIsSafeIff(start: nat, end: nat, extension: string)
    ensures SafeName(Name(start, end, extension), extension) <==> start < TEN_DIGITS && end < TEN_DIGITS
    ensures start < TEN_DIGITS && end < TEN_DIGITS ==> StartOf(Name(start, end, extension)) == start
  {
    PaddedReads(start);
    PaddedReads(end);
    if start < TEN_DIGITS && end < TEN_DIGITS {
      NameParts(Padded(start), Padded(end), extension);
    } else {
      assert |Name(start, end, extension)| == 14 + |Padded(start)| + |Padded(end)| + |extension|;
    }
  }
}
