/**
 Calendar arithmetic on proleptic Gregorian dates, as Python's `datetime.date`
 performs it: `replace(day=1)`, adding or subtracting `timedelta(days=1)`, and
 chronological comparison. Dates live in the range year 1 .. year 9999; stepping
 outside that range raises `OverflowError`, modelled as `None`.
 */
module Calendar {
  import opened Results

  datatype Date = Date(year: int, month: int, day: int)

  const MinYear := 1
  const MaxYear := 9999
  const MinDate := Date(MinYear, 1, 1)
  const MaxDate := Date(MaxYear, 12, 31)

  predicate IsLeapYear(y: int) {
    y % 4 == 0 && (y % 100 != 0 || y % 400 == 0)
  }

  function DaysInMonth(y: int, m: int): (n: int)
    requires 1 <= m <= 12
    ensures 28 <= n <= 31
    ensures m == 2 ==> (n == 29 <==> IsLeapYear(y))
  {
    if m == 2 then (if IsLeapYear(y) then 29 else 28)
    else if m == 4 || m == 6 || m == 9 || m == 11 then 30
    else 31
  }

  /** The dates a `datetime.date` can hold. */
  predicate Valid(d: Date) {
    && MinYear <= d.year <= MaxYear
    && 1 <= d.month <= 12
    && 1 <= d.day <= DaysInMonth(d.year, d.month)
  }

  /** Chronological order, `a < b` on `datetime.date`. */
  predicate Before(a: Date, b: Date) {
    || a.year < b.year
    || (a.year == b.year && a.month < b.month)
    || (a.year == b.year && a.month == b.month && a.day < b.day)
  }

  /** `d.replace(day=1)`: the first day of the month `d` lies in. */
  function FirstOfMonth(d: Date): (r: Date)
    requires Valid(d)
    ensures Valid(r) && r.day == 1
    ensures r.year == d.year && r.month == d.month
    ensures r == d || Before(r, d)
  {
    d.(day := 1)
  }

  /** `d - timedelta(days=1)`; `None` where Python raises `OverflowError`. */
  function PrevDay(d: Date): (r: Option<Date>)
    requires Valid(d)
    ensures r.None? <==> d == MinDate
    ensures r.Some? ==> Valid(r.value) && Before(r.value, d)
  {
    if d.day > 1 then Some(d.(day := d.day - 1))
    else if d.month > 1 then Some(Date(d.year, d.month - 1, DaysInMonth(d.year, d.month - 1)))
    else if d.year > MinYear then Some(Date(d.year - 1, 12, 31))
    else None
  }

  /** `d + timedelta(days=1)`; `None` where Python raises `OverflowError`. */
  function NextDay(d: Date): (r: Option<Date>)
    requires Valid(d)
    ensures r.None? <==> d == MaxDate
    ensures r.Some? ==> Valid(r.value) && Before(d, r.value)
  {
    if d.day < DaysInMonth(d.year, d.month) then Some(d.(day := d.day + 1))
    else if d.month < 12 then Some(Date(d.year, d.month + 1, 1))
    else if d.year < MaxYear then Some(Date(d.year + 1, 1, 1))
    else None
  }

  /** The previous day is undone by the next day. */
  lemma PrevThenNext(d: Date)
    requires Valid(d) && d != MinDate
    ensures NextDay(PrevDay(d).value) == Some(d)
  {
  }

  /** The next day is undone by the previous day. */
  lemma NextThenPrev(d: Date)
    requires Valid(d) && d != MaxDate
    ensures PrevDay(NextDay(d).value) == Some(d)
  {
  }

  /** The previous day is the latest valid date strictly before `d`: no date lies between the two. */
  lemma PrevDayIsLatestBefore(d: Date, x: Date)
    requires Valid(d) && d != MinDate && Valid(x)
    requires Before(x, d)
    ensures x == PrevDay(d).value || Before(x, PrevDay(d).value)
  {
  }

  /** `d + timedelta(days=n)`, one day at a time; `None` once the range is left. */
  function AddDays(d: Date, n: nat): (r: Option<Date>)
    requires Valid(d)
    ensures r.Some? ==> Valid(r.value)
    decreases n
  {
    if n == 0 then Some(d)
    else match NextDay(d)
      case None => None
      case Some(e) => AddDays(e, n - 1)
  }

  /**
   Counting forward from day `j` of a month: `k` days later is day `j + k` of
   the same month while it exists, and the first day after that month when
   `j + k` is one past its last day.
   */
  lemma {:induction false} AddDaysInMonth(y: int, m: int, j: int, k: nat)
    requires Valid(Date(y, m, j))
    requires j + k <= DaysInMonth(y, m) + 1
    ensures j + k <= DaysInMonth(y, m) ==> AddDays(Date(y, m, j), k) == Some(Date(y, m, j + k))
    ensures j + k == DaysInMonth(y, m) + 1 ==> AddDays(Date(y, m, j), k) == NextDay(Date(y, m, DaysInMonth(y, m)))
    decreases k
  {
    if k > 0 {
      if j == DaysInMonth(y, m) {
        assert k == 1;
        match NextDay(Date(y, m, j))
        case None =>
        case Some(e) =>
          assert AddDays(Date(y, m, j), 1) == AddDays(e, 0);
      } else {
        assert NextDay(Date(y, m, j)) == Some(Date(y, m, j + 1));
        AddDaysInMonth(y, m, j + 1, k - 1);
      }
    }
  }
}
