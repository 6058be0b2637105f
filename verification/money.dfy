/**
 Amounts of US dollars held as whole cents (the value `round(x, 2)` stands
 for), and their text `f"{x:.2f}"`: an optional minus sign, the dollars
 without leading zeros, a point and exactly two digits of cents.
 */
module Money {
  import opened Results
  import opened Digits

  /** The text of a non-negative number of cents: dollars, a point, two digits. */
  function Magnitude(m: nat): (s: string)
    ensures |s| >= 4 && s[|s| - 3] == '.'
    ensures AllDigits(s[..|s| - 3]) && AllDigits(s[|s| - 2..])
    ensures IsDigit(s[0])
    ensures |s| > 4 ==> s[0] != '0'
  {
    var s := Decimal(m / 100) + "." + Pad2(m % 100);
    assert s[..|s| - 3] == Decimal(m / 100);
    assert s[|s| - 2..] == Pad2(m % 100);
    s
  }

  /** `f"{x:.2f}"` for the amount of `c` cents. */
  function FormatCents(c: int): (s: string)
    ensures |s| >= 4
    ensures (s[0] == '-') <==> c < 0
    ensures var m := if c < 0 then s[1..] else s; |m| > 4 ==> m[0] != '0'
  {
    if c < 0 then "-" + Magnitude(-c) else Magnitude(c)
  }

  /** Reads `D.CC` back to its number of cents. */
  function ReadMagnitude(s: string): (r: Option<nat>)
  {
    if |s| < 4 || s[|s| - 3] != '.' then None
    else match (ReadDigits(s[..|s| - 3]), ReadDigits(s[|s| - 2..]))
      case (Some(dollars), Some(cents)) => Some(dollars * 100 + cents)
      case _ => None
  }

  /** Reads an amount written as `f"{x:.2f}"` back to cents. */
  function ReadCents(s: string): (r: Option<int>)
  {
    if |s| > 0 && s[0] == '-' then
      match ReadMagnitude(s[1..])
      case Some(m) => Some(-(m as int))
      case None => None
    else match ReadMagnitude(s)
      case Some(m) => Some(m as int)
      case None => None
  }

  lemma ReadMagnitudeOfMagnitude(m: nat)
    ensures ReadMagnitude(Magnitude(m)) == Some(m)
  {
    var s := Magnitude(m);
    assert s[..|s| - 3] == Decimal(m / 100);
    assert s[|s| - 2..] == Pad2(m % 100);
    ReadDecimal(m / 100);
    ReadPad2(m % 100);
  }

  lemma ReadSignedMagnitude(m: nat)
    ensures ReadCents("-" + Magnitude(m)) == Some(-(m as int))
  {
    ReadMagnitudeOfMagnitude(m);
    var s := "-" + Magnitude(m);
    assert s[0] == '-' && s[1..] == Magnitude(m);
  }

  lemma ReadUnsignedMagnitude(m: nat)
    ensures ReadCents(Magnitude(m)) == Some(m as int)
  {
    ReadMagnitudeOfMagnitude(m);
    assert Magnitude(m)[0] != '-';
  }

  /** The formatted amount reads back to the same number of cents. */
  lemma ReadCentsOfFormat(c: int)
    ensures ReadCents(FormatCents(c)) == Some(c)
  {
    if c < 0 {
      assert FormatCents(c) == "-" + Magnitude(-c);
      ReadSignedMagnitude(-c);
    } else {
      assert FormatCents(c) == Magnitude(c);
      ReadUnsignedMagnitude(c);
    }
  }

  /** Different amounts are never written the same way. */
  lemma FormatCentsInjective(a: int, b: int)
    ensures FormatCents(a) == FormatCents(b) <==> a == b
  {
    ReadCentsOfFormat(a);
    ReadCentsOfFormat(b);
  }

  /** `f"{x:.2f} USD"`, the amount label of a service. */
  function Label(c: int): (s: string)
    ensures |s| >= 8 && s[|s| - 4..] == " USD"
  {
    FormatCents(c) + " USD"
  }

  /** Reads an amount label back to cents. */
  function ReadLabel(s: string): (r: Option<int>)
  {
    if |s| >= 4 && s[|s| - 4..] == " USD" then ReadCents(s[..|s| - 4]) else None
  }

  /** An amount label reads back to the amount it was written from. */
  lemma ReadLabelOfLabel(c: int)
    ensures ReadLabel(Label(c)) == Some(c)
  {
    assert Label(c)[..|Label(c)| - 4] == FormatCents(c);
    ReadCentsOfFormat(c);
  }

  /** Two amount labels are equal exactly when the amounts are. */
  lemma LabelInjective(a: int, b: int)
    ensures Label(a) == Label(b) <==> a == b
  {
    ReadLabelOfLabel(a);
    ReadLabelOfLabel(b);
  }

  lemma Decimal10()
    ensures Decimal(10) == "10"
  {
    assert Decimal(1) == "1";
  }

  lemma Decimal123()
    ensures Decimal(123) == "123"
  {
    assert Decimal(12) == "12";
  }

  lemma Amount12346()
    ensures FormatCents(12346) == "123.46"
  {
    Decimal123();
    assert Pad2(46) == "46";
  }

  lemma Amount1000()
    ensures Label(1000) == "10.00 USD"
  {
    Decimal10();
    assert Pad2(0) == "00";
    assert Magnitude(1000) == "10.00";
  }

  lemma Amount501()
    ensures Label(501) == "5.01 USD"
  {
    assert Decimal(5) == "5";
    assert Pad2(1) == "01";
    assert Magnitude(501) == "5.01";
  }

  /** Amounts as the message shows them. */
  lemma AmountExamples()
    ensures FormatCents(12346) == "123.46"
    ensures Label(1000) == "10.00 USD"
    ensures Label(501) == "5.01 USD"
  {
    Amount12346();
    Amount1000();
    Amount501();
  }
}
