/**
 The reporting window: from the date "today" (an explicit parameter instead of
 the system clock) the half-open period `[start, end)` that both Cost Explorer
 queries ask for. Normally it runs from the first of the current month to
 today; on the first of a month, when that would make start and end equal
 (which the API rejects), it covers the whole previous month instead.
 */
module DateRange {
  import opened Results
  import opened Calendar
  import opened DateText

  /** A billing period `[start, end)`. */
  datatype Period = Period(start: Date, end: Date)

  /**
   The window computed on dates. Only `today == 0001-01-01` fails: stepping
   back one day from it raises `OverflowError`.
   */
  function Window(today: Date): (r: Result<Period, Failure>)
    requires Valid(today)
    ensures r.Ok? <==> today != MinDate
    ensures r.Err? ==> r.error == OverflowError
    ensures r.Ok? ==> r.value.end == today
    ensures r.Ok? ==> Valid(r.value.start) && r.value.start.day == 1 && Before(r.value.start, r.value.end)
  {
    var start := FirstOfMonth(today);
    if start == today then
      match PrevDay(start)
      case None => Err(OverflowError)
      case Some(endOfPrevMonth) => Ok(Period(FirstOfMonth(endOfPrevMonth), today))
    else Ok(Period(start, today))
  }

  /** `get_begin_of_month()` with today given: the ISO text of the first of today's month. */
  function BeginOfMonth(today: Date): (s: string)
    requires Valid(today)
    ensures ParseIso(s) == Ok(FirstOfMonth(today))
  {
    ParseIsoOfIso(FirstOfMonth(today));
    Iso(FirstOfMonth(today))
  }

  /** `get_today()` with today given: its ISO text. */
  function TodayText(today: Date): (s: string)
    requires Valid(today)
    ensures ParseIso(s) == Ok(today)
  {
    ParseIsoOfIso(today);
    Iso(today)
  }

  /**
   `get_total_cost_date_range()` as the source writes it: on strings, comparing
   the two ISO texts, and on equality parsing the start back, stepping one day
   back and taking the first of that month.
   */
  function TotalCostDateRange(today: Date): (r: Result<(string, string), Failure>)
    requires Valid(today)
  {
    var startDate := BeginOfMonth(today);
    var endDate := TodayText(today);
    if startDate == endDate then
      match ParseIso(startDate)
      case Err(e) => Err(e)
      case Ok(start) =>
        match PrevDay(start)
        case None => Err(OverflowError)
        case Some(endOfMonth) => Ok((Iso(FirstOfMonth(endOfMonth)), endDate))
    else Ok((startDate, endDate))
  }

  /** The string-level resolver returns exactly the ISO texts of the date-level window, and fails exactly when it does. */
  lemma TotalCostDateRangeIsWindow(today: Date)
    requires Valid(today)
    ensures Window(today).Err? ==> TotalCostDateRange(today) == Err(Window(today).error)
    ensures Window(today).Ok? ==>
      TotalCostDateRange(today) == Ok((Iso(Window(today).value.start), Iso(Window(today).value.end)))
  {
    IsoInjective(FirstOfMonth(today), today);
  }

  /** Past the first of the month the window runs from the first of this month to today. */
  lemma WindowMidMonth(today: Date)
    requires Valid(today) && today.day != 1
    ensures Window(today) == Ok(Period(Date(today.year, today.month, 1), today))
  {
  }

  /**
   On the first of a month the window is the whole previous month: from the
   first of the previous month to today, reaching back into December of the
   previous year when today is January 1st.
   */
  lemma WindowFirstOfMonth(today: Date)
    requires Valid(today) && today.day == 1 && today != MinDate
    ensures today.month > 1 ==> Window(today) == Ok(Period(Date(today.year, today.month - 1, 1), today))
    ensures today.month == 1 ==> Window(today) == Ok(Period(Date(today.year - 1, 12, 1), today))
  {
  }

  /**
   The window covers whole days exactly: counting `n` days forward from its
   start reaches its end, where `n` is the number of days of this month
   before today, or on the first of a month the length of the previous month.
   */
  lemma WindowLength(today: Date)
    requires Valid(today) && today != MinDate
    ensures var w := Window(today).value;
      && (today.day != 1 ==> AddDays(w.start, today.day - 1) == Some(today))
      && (today.day == 1 ==> AddDays(w.start, DaysInMonth(w.start.year, w.start.month)) == Some(today))
  {
    var w := Window(today).value;
    if today.day != 1 {
      AddDaysInMonth(today.year, today.month, 1, today.day - 1);
    } else {
      var s := w.start;
      AddDaysInMonth(s.year, s.month, 1, DaysInMonth(s.year, s.month));
      NextThenPrev(Date(s.year, s.month, DaysInMonth(s.year, s.month)));
    }
  }

  /** The window spans at least one day and at most a month: between 1 and 31 days. */
  lemma WindowSpan(today: Date)
    requires Valid(today) && today != MinDate
    ensures exists n: nat :: 1 <= n <= 31 && AddDays(Window(today).value.start, n) == Some(today)
  {
    WindowLength(today);
    var w := Window(today).value;
    if today.day != 1 {
      assert AddDays(w.start, today.day - 1) == Some(today);
    } else {
      assert AddDays(w.start, DaysInMonth(w.start.year, w.start.month)) == Some(today);
    }
  }
}
