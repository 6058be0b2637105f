/**
 The message formatter `get_message`: a title naming the billed period and
 the total, and a detail text with one line per service whose rounded amount
 is not zero, in the order Cost Explorer returned the services.
 */
module Message {
  import opened Results
  import opened Calendar
  import opened DateText
  import opened Money
  import opened Seqs

  /** One group of the per-service query: the service and its amount in cents. */
  datatype ServiceBilling = ServiceBilling(serviceName: string, cents: int)

  /** The total query's result: the period Cost Explorer reports (ISO texts) and the total in cents. */
  datatype TotalBilling = TotalBilling(start: string, end: string, cents: int)

  /** A service is listed only when its rounded amount is not `0.0`. */
  predicate IsBilled(s: ServiceBilling) {
    s.cents != 0
  }

  /** The services that are listed, in input order. */
  function Billed(services: seq<ServiceBilling>): (r: seq<ServiceBilling>)
    ensures forall i :: 0 <= i < |r| ==> r[i].cents != 0
  {
    FilterSelects(IsBilled, services);
    Filter(IsBilled, services)
  }

  const Bullet := "　・"
  const TitleSeparator := "～"
  const TitleMiddle := "の請求額は、"
  const TitleTail := " USDです。"

  /** `f"　・{service_name}: {billing:.2f} USD"`. */
  function DetailLine(s: ServiceBilling): string {
    Bullet + s.serviceName + ": " + Label(s.cents)
  }

  /** The lines of the detail text, before joining. */
  function DetailLines(services: seq<ServiceBilling>): seq<string> {
    Map(DetailLine, Billed(services))
  }

  /** `"\n".join(lines)`. */
  function Join(lines: seq<string>): string
    decreases |lines|
  {
    if |lines| == 0 then ""
    else if |lines| == 1 then lines[0]
    else lines[0] + "\n" + Join(lines[1..])
  }

  /** `text.split("\n")`, the reading a consumer of the detail text applies. */
  function Split(text: string): (r: seq<string>)
    ensures |r| >= 1
    decreases |text|
  {
    if |text| == 0 then [""]
    else
      var rest := Split(text[1..]);
      if text[0] == '\n' then [""] + rest else [[text[0]] + rest[0]] + rest[1..]
  }

  /** `f"{start}～{end_yesterday}の請求額は、{total:.2f} USDです。"`. */
  function Title(start: Date, lastDay: Date, total: int): string
    requires Valid(start) && Valid(lastDay)
  {
    MonthDay(start) + TitleSeparator + MonthDay(lastDay) + TitleMiddle + FormatCents(total) + TitleTail
  }

  /**
   `get_message(total_billing, service_billings)`. The start and end texts are
   parsed as `%Y-%m-%d` (a `ValueError` otherwise), the end is shown as the day
   before it because Cost Explorer's end is exclusive (an `OverflowError` when
   the end is 0001-01-01), and the detail text joins the lines of the billed
   services.
   */
  function GetMessage(total: TotalBilling, services: seq<ServiceBilling>): (r: Result<(string, string), Failure>)
  {
    match ParseIso(total.start)
    case Err(e) => Err(e)
    case Ok(start) =>
      match ParseIso(total.end)
      case Err(e) => Err(e)
      case Ok(end) =>
        match PrevDay(end)
        case None => Err(OverflowError)
        case Some(endYesterday) =>
          Ok((Title(start, endYesterday, total.cents), Join(DetailLines(services))))
  }

  /** The loop of `get_message` that collects the detail lines, skipping services billed `0.0`. */
  method CollectDetails(services: seq<ServiceBilling>) returns (details: seq<string>)
    ensures details == Map(DetailLine, Filter(IsBilled, services))
  {
    details := CollectWhere(DetailLine, IsBilled, services);
  }

  // ---- Properties ----

  /** Splitting a newline-free prefix off: it joins the first piece of the rest. */
  lemma {:induction false} SplitPrefix(a: string, t: string)
    requires '\n' !in a
    ensures Split(a + t) == [a + Split(t)[0]] + Split(t)[1..]
    decreases |a|
  {
    if |a| > 0 {
      assert (a + t)[0] == a[0];
      assert (a + t)[1..] == a[1..] + t;
      SplitPrefix(a[1..], t);
      assert [a[0]] + (a[1..] + Split(t)[0]) == a + Split(t)[0];
    } else {
      assert a + t == t;
      assert a + Split(t)[0] == Split(t)[0];
      HeadTail(Split(t));
    }
  }

  /** Joining lines that contain no newline and splitting the result gives the lines back. */
  lemma {:induction false} SplitJoin(lines: seq<string>)
    requires |lines| >= 1
    requires forall i :: 0 <= i < |lines| ==> '\n' !in lines[i]
    ensures Split(Join(lines)) == lines
    decreases |lines|
  {
    if |lines| == 1 {
      SplitPrefix(lines[0], "");
      assert lines[0] + "" == lines[0];
    } else {
      SplitJoin(lines[1..]);
      var rest := Join(lines[1..]);
      assert lines[0] + "\n" + rest == lines[0] + ("\n" + rest);
      SplitPrefix(lines[0], "\n" + rest);
      assert ("\n" + rest)[0] == '\n';
      assert ("\n" + rest)[1..] == rest;
      assert Split("\n" + rest) == [""] + lines[1..];
      assert lines[0] + "" == lines[0];
      HeadTail(lines);
    }
  }

  /** The joined text is empty exactly when there are no lines, provided no line is empty. */
  lemma {:induction false} JoinEmpty(lines: seq<string>)
    requires forall i :: 0 <= i < |lines| ==> |lines[i]| > 0
    ensures Join(lines) == "" <==> |lines| == 0
  {
    if |lines| > 1 {
      assert |Join(lines)| >= |lines[0]|;
    }
  }

  /** The detail text is empty exactly when no service is billed: every detail line starts with the bullet. */
  lemma DetailTextEmpty(services: seq<ServiceBilling>)
    ensures Join(DetailLines(services)) == "" <==> Billed(services) == []
  {
    var lines := DetailLines(services);
    forall i | 0 <= i < |lines|
      ensures |lines[i]| > 0
    {
      assert lines[i] == DetailLine(Billed(services)[i]);
    }
    JoinEmpty(lines);
  }

  /**
   The detail text has exactly one line per billed service, in input order:
   when some service is billed and no service name contains a newline, splitting
   the text on newlines gives the line of each billed service and nothing else.
   */
  lemma DetailTextLines(services: seq<ServiceBilling>)
    requires forall i :: 0 <= i < |services| ==> '\n' !in services[i].serviceName
    ensures Billed(services) != [] ==>
      && Split(Join(DetailLines(services))) == DetailLines(services)
      && |Split(Join(DetailLines(services)))| == |Billed(services)|
  {
    var lines := DetailLines(services);
    var billed := Billed(services);
    FilterSelects(IsBilled, services);
    forall i | 0 <= i < |lines|
      ensures '\n' !in lines[i]
    {
      var s := billed[i];
      assert s in services;
      assert lines[i] == Bullet + s.serviceName + ": " + Label(s.cents);
      LabelHasNoNewline(s.cents);
      NoNewlineConcat(Bullet, s.serviceName, ": ", Label(s.cents));
    }
    if billed != [] {
      SplitJoin(lines);
    }
  }

  lemma NoNewlineConcat(a: string, b: string, c: string, d: string)
    requires '\n' !in a && '\n' !in b && '\n' !in c && '\n' !in d
    ensures '\n' !in a + b + c + d
  {
  }

  lemma LabelHasNoNewline(c: int)
    ensures '\n' !in Label(c)
  {
    var m: nat := if c < 0 then -c else c;
    var t := Magnitude(m);
    forall i | 0 <= i < |t|
      ensures t[i] != '\n'
    {
      if i < |t| - 3 {
        assert t[i] == t[..|t| - 3][i];
      } else if i > |t| - 3 {
        assert t[i] == t[|t| - 2..][i - (|t| - 2)];
      }
    }
    assert FormatCents(c) == (if c < 0 then "-" + t else t);
  }
  /** `get_message` fails exactly when a period text is not a date, or the end is 0001-01-01 and has no previous day. */
  lemma GetMessageFailures(total: TotalBilling, services: seq<ServiceBilling>)
    ensures GetMessage(total, services).Ok? <==>
      && ParseIso(total.start).Ok?
      && ParseIso(total.end).Ok?
      && ParseIso(total.end).value != MinDate
    ensures ParseIso(total.start).Err? ==> GetMessage(total, services) == Err(ValueError(total.start))
    ensures ParseIso(total.start).Ok? && ParseIso(total.end).Err? ==> GetMessage(total, services) == Err(ValueError(total.end))
    ensures ParseIso(total.start).Ok? && ParseIso(total.end).Ok? && ParseIso(total.end).value == MinDate ==>
      GetMessage(total, services) == Err(OverflowError)
    ensures GetMessage(total, services).Ok? ==> GetMessage(total, services).value.1 == Join(DetailLines(services))
  {
  }

  /**
   The title names the period and the total: it starts with the start date as
   `MM/DD`, then `～`, then as `MM/DD` the last day the period covers (the day
   whose next day is the exclusive end), and the amount it shows reads back to
   the total.
   */
  lemma TitleFields(total: TotalBilling, services: seq<ServiceBilling>)
    ensures GetMessage(total, services).Ok? ==>
      var title := GetMessage(total, services).value.0;
      var start := ParseIso(total.start).value;
      var end := ParseIso(total.end).value;
      && end != MinDate
      && |title| >= 28
      && title[..5] == MonthDay(start)
      && title[5..6] == TitleSeparator
      && title[6..11] == MonthDay(PrevDay(end).value)
      && NextDay(PrevDay(end).value) == Some(end)
      && title[11..17] == TitleMiddle
      && title[17..|title| - 7] == FormatCents(total.cents)
      && ReadCents(title[17..|title| - 7]) == Some(total.cents)
      && title[|title| - 7..] == TitleTail
  {
    if GetMessage(total, services).Ok? {
      var start := ParseIso(total.start).value;
      var end := ParseIso(total.end).value;
      var last := PrevDay(end).value;
      PrevThenNext(end);
      var amount := FormatCents(total.cents);
      var title := MonthDay(start) + TitleSeparator + MonthDay(last) + TitleMiddle + amount + TitleTail;
      assert title == GetMessage(total, services).value.0;
      SixPieces(MonthDay(start), TitleSeparator, MonthDay(last), TitleMiddle, amount, TitleTail);
      ReadCentsOfFormat(total.cents);
    }
  }

  /** The end label shows the day before the exclusive end, across a month end and a leap day. */
  lemma EndLabelMonthEnds()
    ensures MonthDay(PrevDay(Date(2023, 7, 1)).value) == "06/30"
    ensures MonthDay(PrevDay(Date(2024, 1, 1)).value) == "12/31"
  {
  }

  /** The day before March 1st is February 29th in a leap year and February 28th otherwise. */
  lemma EndLabelFebruary()
    ensures MonthDay(PrevDay(Date(2024, 3, 1)).value) == "02/29"
    ensures MonthDay(PrevDay(Date(2023, 3, 1)).value) == "02/28"
  {
  }

  lemma JuneReportMessage()
    ensures GetMessage(TotalBilling("2023-06-01", "2023-07-01", 12346), []) ==
      Ok((Title(Date(2023, 6, 1), Date(2023, 6, 30), 12346), ""))
  {
    JuneReportDates();
    assert PrevDay(Date(2023, 7, 1)) == Some(Date(2023, 6, 30));
    assert Billed([]) == [];
  }

  lemma JuneReportTitle()
    ensures Title(Date(2023, 6, 1), Date(2023, 6, 30), 12346) == "06/01～06/30の請求額は、123.46 USDです。"
  {
    Amount12346();
    assert MonthDay(Date(2023, 6, 1)) == "06/01";
    assert MonthDay(Date(2023, 6, 30)) == "06/30";
    var t1 := "06/01" + TitleSeparator;
    assert t1 == "06/01～";
    var t2 := t1 + "06/30";
    assert t2 == "06/01～06/30";
    var t3 := t2 + TitleMiddle;
    assert t3 == "06/01～06/30の請求額は、";
    var t4 := t3 + "123.46";
    assert t4 == "06/01～06/30の請求額は、123.46";
    assert t4 + TitleTail == "06/01～06/30の請求額は、123.46 USDです。";
  }

  /** The title of the June 2023 report, total 123.46 USD. */
  lemma TitleExample()
    ensures GetMessage(TotalBilling("2023-06-01", "2023-07-01", 12346), []) ==
      Ok(("06/01～06/30の請求額は、123.46 USDです。", ""))
  {
    JuneReportMessage();
    JuneReportTitle();
  }

  lemma BilledExample()
    ensures Billed([ServiceBilling("EC2", 1000), ServiceBilling("S3", 0), ServiceBilling("RDS", 501)])
      == [ServiceBilling("EC2", 1000), ServiceBilling("RDS", 501)]
  {
    var s := [ServiceBilling("EC2", 1000), ServiceBilling("S3", 0), ServiceBilling("RDS", 501)];
    HeadTail(s);
    HeadTail(s[1..]);
    assert s[1..][1..] == [ServiceBilling("RDS", 501)];
  }

  lemma DetailLineEc2()
    ensures DetailLine(ServiceBilling("EC2", 1000)) == "　・EC2: 10.00 USD"
  {
    Amount1000();
  }

  lemma DetailLineRds()
    ensures DetailLine(ServiceBilling("RDS", 501)) == "　・RDS: 5.01 USD"
  {
    Amount501();
  }

  lemma JoinTwo(a: string, b: string)
    ensures Join([a, b]) == a + "\n" + b
  {
    assert [a, b][1..] == [b];
  }

  /** Services billed zero are dropped; the others keep their order, one line each. */
  lemma DetailExample()
    ensures Join(DetailLines([ServiceBilling("EC2", 1000), ServiceBilling("S3", 0), ServiceBilling("RDS", 501)]))
      == "　・EC2: 10.00 USD" + "\n" + "　・RDS: 5.01 USD"
  {
    BilledExample();
    MapTwo(DetailLine, ServiceBilling("EC2", 1000), ServiceBilling("RDS", 501));
    DetailLineEc2();
    DetailLineRds();
    JoinTwo("　・EC2: 10.00 USD", "　・RDS: 5.01 USD");
  }

  /**
   The billed services are exactly the services with a non-zero amount, in
   input order: the k-th billed service sits at the k-th of a strictly
   increasing list of input positions, and a position is on that list exactly
   when its service's amount is not zero.
   */
  lemma BilledInInputOrder(services: seq<ServiceBilling>)
    ensures var idx := Selected(IsBilled, services, 0);
      && |idx| == |Billed(services)|
      && (forall k :: 0 <= k < |idx| ==> idx[k] < |services| && Billed(services)[k] == services[idx[k]])
      && (forall k, l :: 0 <= k < l < |idx| ==> idx[k] < idx[l])
      && (forall i :: 0 <= i < |services| ==> (services[i].cents != 0 <==> i in idx))
  {
    FilterSelects(IsBilled, services);
  }
}
