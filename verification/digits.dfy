/**
 Decimal digit strings: the zero-padded fields `%02d`/`%04d` that `strftime`
 and `isoformat` write, the unpadded integer part `str(n)`, and reading a run
 of digits back to its value.
 */
module Digits {
  import opened Results

  predicate IsDigit(c: char) {
    '0' <= c <= '9'
  }

  predicate AllDigits(s: string) {
    forall i :: 0 <= i < |s| ==> IsDigit(s[i])
  }

  function DigitValue(c: char): (v: nat)
    requires IsDigit(c)
    ensures v < 10
  {
    (c as int) - ('0' as int)
  }

  function DigitChar(v: nat): (c: char)
    requires v < 10
    ensures IsDigit(c) && DigitValue(c) == v
  {
    (('0' as int) + v) as char
  }

  /** The value of a digit string, most significant digit first. */
  function Value(s: string): nat
    requires AllDigits(s)
    decreases |s|
  {
    if |s| == 0 then 0 else Value(s[..|s| - 1]) * 10 + DigitValue(s[|s| - 1])
  }

  /** Reads a non-empty run of digits; `None` for anything else. */
  function ReadDigits(s: string): (r: Option<nat>)
    ensures r.Some? <==> |s| > 0 && AllDigits(s)
  {
    if |s| > 0 && AllDigits(s) then Some(Value(s)) else None
  }

  /** `%02d` for a value below 100. */
  function Pad2(n: nat): (s: string)
    requires n < 100
    ensures |s| == 2 && AllDigits(s)
  {
    [DigitChar(n / 10), DigitChar(n % 10)]
  }

  /** `%04d` for a value below 10000. */
  function Pad4(n: nat): (s: string)
    requires n < 10000
    ensures |s| == 4 && AllDigits(s)
  {
    Pad2(n / 100) + Pad2(n % 100)
  }

  /** `str(n)` for a natural number: its digits without leading zeros. */
  function Decimal(n: nat): (s: string)
    ensures |s| >= 1 && AllDigits(s)
    ensures |s| > 1 ==> s[0] != '0'
    decreases n
  {
    if n < 10 then [DigitChar(n)] else Decimal(n / 10) + [DigitChar(n % 10)]
  }

  /** Appending a digit multiplies the value by ten and adds the digit. */
  lemma ValueSnoc(s: string, c: char)
    requires AllDigits(s) && IsDigit(c)
    ensures AllDigits(s + [c]) && Value(s + [c]) == Value(s) * 10 + DigitValue(c)
  {
    assert (s + [c])[..|s|] == s;
  }

  lemma ValuePair(a: char, b: char)
    requires IsDigit(a) && IsDigit(b)
    ensures Value([a, b]) == DigitValue(a) * 10 + DigitValue(b)
  {
    assert [a, b][..1] == [a];
    assert [a][..0] == [];
    assert Value([a]) == DigitValue(a);
  }

  lemma DivModTen(q: nat, r: nat)
    requires r < 10
    ensures (q * 10 + r) / 10 == q && (q * 10 + r) % 10 == r
  {
  }

  lemma DivModHundred(q: nat, r: nat)
    requires r < 100
    ensures (q * 100 + r) / 100 == q && (q * 100 + r) % 100 == r
  {
  }

  lemma ReadPad2(n: nat)
    requires n < 100
    ensures ReadDigits(Pad2(n)) == Some(n)
  {
    ValuePair(DigitChar(n / 10), DigitChar(n % 10));
  }

  /** Two digits read back and padded again give the same two characters. */
  lemma Pad2OfValue(s: string)
    requires |s| == 2 && AllDigits(s)
    ensures Value(s) < 100 && Pad2(Value(s)) == s
  {
    assert s == [s[0], s[1]];
    ValuePair(s[0], s[1]);
    DivModTen(DigitValue(s[0]), DigitValue(s[1]));
    assert DigitChar(DigitValue(s[0])) == s[0];
    assert DigitChar(DigitValue(s[1])) == s[1];
  }

  /** Reading `hi` followed by two more digits `lo` gives a hundred times `hi` plus `lo`. */
  lemma ValueAppendPair(hi: string, lo: string)
    requires AllDigits(hi) && |lo| == 2 && AllDigits(lo)
    ensures AllDigits(hi + lo) && Value(hi + lo) == Value(hi) * 100 + Value(lo)
  {
    ValueSnoc(hi, lo[0]);
    ValueSnoc(hi + [lo[0]], lo[1]);
    assert hi + [lo[0]] + [lo[1]] == hi + lo;
    ValuePair(lo[0], lo[1]);
    assert lo == [lo[0], lo[1]];
  }

  lemma ReadPad4(n: nat)
    requires n < 10000
    ensures ReadDigits(Pad4(n)) == Some(n)
  {
    ReadPad2(n / 100);
    ReadPad2(n % 100);
    ValueAppendPair(Pad2(n / 100), Pad2(n % 100));
  }

  /** Four digits read back and padded again give the same four characters. */
  lemma Pad4OfValue(s: string)
    requires |s| == 4 && AllDigits(s)
    ensures Value(s) < 10000 && Pad4(Value(s)) == s
  {
    var hi, lo := s[..2], s[2..];
    Pad2OfValue(hi);
    Pad2OfValue(lo);
    assert hi + lo == s;
    ValueAppendPair(hi, lo);
    DivModHundred(Value(hi), Value(lo));
  }

  lemma {:induction false} ReadDecimal(n: nat)
    ensures ReadDigits(Decimal(n)) == Some(n)
    decreases n
  {
    if n < 10 {
      ValueSnoc([], DigitChar(n));
      assert [] + [DigitChar(n)] == [DigitChar(n)];
    } else {
      ReadDecimal(n / 10);
      ValueSnoc(Decimal(n / 10), DigitChar(n % 10));
    }
  }
}
