/**
 Dates as text: `date.isoformat()` (`YYYY-MM-DD`), its reverse
 `datetime.strptime(s, "%Y-%m-%d")`, and `strftime("%m/%d")`.
 */
module DateText {
  import opened Results
  import opened Digits
  import opened Calendar

  /** `d.isoformat()`. */
  function Iso(d: Date): (s: string)
    requires Valid(d)
    ensures |s| == 10 && s[4] == '-' && s[7] == '-'
  {
    Pad4(d.year) + "-" + Pad2(d.month) + "-" + Pad2(d.day)
  }

  /**
   `datetime.strptime(s, "%Y-%m-%d")`, on the zero-padded form: four year
   digits, two month digits and two day digits separated by dashes, naming an
   existing date; anything else raises `ValueError`.
   */
  function ParseIso(s: string): (r: Result<Date, Failure>)
    ensures r.Ok? ==> Valid(r.value)
    ensures r.Err? ==> r.error == ValueError(s)
  {
    if |s| != 10 || s[4] != '-' || s[7] != '-'
       || !AllDigits(s[..4]) || !AllDigits(s[5..7]) || !AllDigits(s[8..])
    then Err(ValueError(s))
    else
      var d := Date(Value(s[..4]), Value(s[5..7]), Value(s[8..]));
      if Valid(d) then Ok(d) else Err(ValueError(s))
  }

  /** `strftime("%m/%d")`: the month and the day, each as two digits, around a slash. */
  function MonthDay(d: Date): (s: string)
    requires Valid(d)
    ensures |s| == 5 && s[2] == '/'
    ensures ReadDigits(s[..2]) == Some(d.month) && ReadDigits(s[3..]) == Some(d.day)
  {
    ReadPad2(d.month);
    ReadPad2(d.day);
    var s := Pad2(d.month) + "/" + Pad2(d.day);
    assert s[..2] == Pad2(d.month) && s[3..] == Pad2(d.day);
    s
  }

  /** Parsing what `isoformat` wrote gives the date back. */
  lemma ParseIsoOfIso(d: Date)
    requires Valid(d)
    ensures ParseIso(Iso(d)) == Ok(d)
  {
    var s := Iso(d);
    assert s[..4] == Pad4(d.year);
    assert s[5..7] == Pad2(d.month);
    assert s[8..] == Pad2(d.day);
    ReadPad4(d.year);
    ReadPad2(d.month);
    ReadPad2(d.day);
  }

  /** Whatever `strptime` accepts is exactly what `isoformat` writes for the date it yields. */
  lemma IsoOfParseIso(s: string)
    requires ParseIso(s).Ok?
    ensures Iso(ParseIso(s).value) == s
  {
    Pad4OfValue(s[..4]);
    Pad2OfValue(s[5..7]);
    Pad2OfValue(s[8..]);
    assert s == s[..4] + "-" + s[5..7] + "-" + s[8..];
  }

  /** Distinct dates have distinct ISO strings, so comparing the strings compares the dates. */
  lemma IsoInjective(a: Date, b: Date)
    requires Valid(a) && Valid(b)
    ensures Iso(a) == Iso(b) <==> a == b
  {
    if Iso(a) == Iso(b) {
      ParseIsoOfIso(a);
      ParseIsoOfIso(b);
    }
  }

  /** The period texts of the June 2023 report parse to their dates. */
  lemma JuneReportDates()
    ensures ParseIso("2023-06-01") == Ok(Date(2023, 6, 1))
    ensures ParseIso("2023-07-01") == Ok(Date(2023, 7, 1))
  {
    assert Pad4(2023) == "2023";
    assert Pad2(6) == "06";
    assert Pad2(7) == "07";
    assert Pad2(1) == "01";
    assert Iso(Date(2023, 6, 1)) == "2023-06-01";
    ParseIsoOfIso(Date(2023, 6, 1));
    assert Iso(Date(2023, 7, 1)) == "2023-07-01";
    ParseIsoOfIso(Date(2023, 7, 1));
  }
}
