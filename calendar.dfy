/** Proleptic Gregorian calendar dates, numbered the way Python's
    `datetime.date.toordinal` numbers them: 0001-01-01 is day 1.
    The difference of two day numbers is what `(a - b).days` gives
    for two `date` values, and the weekday is Python's `date.weekday()`. */
module Calendar {

  datatype Date = Date(year: int, month: int, day: int)

  predicate IsLeapYear(y: int) {
    y % 4 == 0 && (y % 100 != 0 || y % 400 == 0)
  }

  function DaysInYear(y: int): int {
    if IsLeapYear(y) then 366 else 365
  }

  function DaysInMonth(y: int, m: int): (n: int)
    requires 1 <= m <= 12
    ensures 28 <= n <= 31
    ensures n == 29 <==> m == 2 && IsLeapYear(y)
  {
    if m == 2 && IsLeapYear(y) then 29
    else [31, 28, 31, 30, 31, 30, 31, 31, 30, 31, 30, 31][m - 1]
  }

  /** A date Python's `date` type accepts (the model sets no upper bound on the year). */
  predicate Valid(d: Date) {
    1 <= d.year && 1 <= d.month <= 12 && 1 <= d.day <= DaysInMonth(d.year, d.month)
  }

  /** Number of days in the years before `y`. */
  function DaysBeforeYear(y: int): int
    requires 1 <= y
  {
    if y == 1 then 0 else DaysBeforeYear(y - 1) + DaysInYear(y - 1)
  }

  /** Number of days in year `y` before the first of month `m`. */
  function DaysBeforeMonth(y: int, m: int): int
    requires 1 <= m <= 12
  {
    [0, 31, 59, 90, 120, 151, 181, 212, 243, 273, 304, 334][m - 1]
    + (if m > 2 && IsLeapYear(y) then 1 else 0)
  }

  /** Every date of year `y` is numbered after the days of earlier years and
      no later than the last day of `y`. */
  function DayNumber(d: Date): (n: int)
    requires Valid(d)
    ensures DaysBeforeYear(d.year) < n <= DaysBeforeYear(d.year) + DaysInYear(d.year)
  {
    MonthStep(d.year, d.month);
    MonthStep(d.year, 12);
    if d.month < 12 then
      MonthsAfter(d.year, d.month, 12);
      DaysBeforeYear(d.year) + DaysBeforeMonth(d.year, d.month) + d.day
    else
      DaysBeforeYear(d.year) + DaysBeforeMonth(d.year, d.month) + d.day
  }

  /** The calendar day after `d`, across month and year boundaries. */
  function NextDay(d: Date): (e: Date)
    requires Valid(d)
    ensures Valid(e)
    ensures e.year == d.year || (e.year == d.year + 1 && e.month == 1 && e.day == 1)
  {
    if d.day < DaysInMonth(d.year, d.month) then Date(d.year, d.month, d.day + 1)
    else if d.month < 12 then Date(d.year, d.month + 1, 1)
    else Date(d.year + 1, 1, 1)
  }

  lemma MonthStep(y: int, m: int)
    requires 1 <= m <= 12
    ensures DaysBeforeMonth(y, m) + DaysInMonth(y, m)
            == if m < 12 then DaysBeforeMonth(y, m + 1) else DaysInYear(y)
  {
  }

  lemma MonthsAfter(y: int, m1: int, m2: int)
    requires 1 <= m1 < m2 <= 12
    ensures DaysBeforeMonth(y, m1) + DaysInMonth(y, m1) <= DaysBeforeMonth(y, m2)
  {
  }

  /** Going from `p` to `p + 1` raises `p / k` by one exactly at multiples of `k`
      (for the three divisors of the leap-year rule). */
  lemma DivStep(p: int)
    requires 0 <= p
    ensures (p + 1) / 4 == p / 4 + (if (p + 1) % 4 == 0 then 1 else 0)
    ensures (p + 1) / 100 == p / 100 + (if (p + 1) % 100 == 0 then 1 else 0)
    ensures (p + 1) / 400 == p / 400 + (if (p + 1) % 400 == 0 then 1 else 0)
    ensures (p + 1) % 400 == 0 ==> (p + 1) % 100 == 0
    ensures (p + 1) % 100 == 0 ==> (p + 1) % 4 == 0
  {
  }

  /** The same count in closed form, as Python's `_days_before_year` computes it. */
  lemma {:induction false} DaysBeforeYearClosedForm(y: int)
    requires 1 <= y
    ensures DaysBeforeYear(y) == (y - 1) * 365 + (y - 1) / 4 - (y - 1) / 100 + (y - 1) / 400
  {
    if y > 1 {
      var p := y - 2;
      DaysBeforeYearClosedForm(y - 1);
      DivStep(p);
      assert DaysBeforeYear(y) == DaysBeforeYear(y - 1) + DaysInYear(y - 1);
      assert DaysInYear(y - 1) == 365 + (p + 1) / 4 - p / 4 - ((p + 1) / 100 - p / 100) + ((p + 1) / 400 - p / 400);
    }
  }

  lemma {:induction false} YearsAfter(y1: int, y2: int)
    requires 1 <= y1 < y2
    ensures DaysBeforeYear(y1) + DaysInYear(y1) <= DaysBeforeYear(y2)
    decreases y2 - y1
  {
    if y1 + 1 < y2 {
      YearsAfter(y1 + 1, y2);
    }
  }

  /** Distinct dates have distinct day numbers. */
  lemma DayNumberInjective(a: Date, b: Date)
    requires Valid(a) && Valid(b)
    requires DayNumber(a) == DayNumber(b)
    ensures a == b
  {
    if a.year < b.year {
      YearsAfter(a.year, b.year);
    } else if b.year < a.year {
      YearsAfter(b.year, a.year);
    }
    assert a.year == b.year;
    if a.month < b.month {
      MonthsAfter(a.year, a.month, b.month);
    } else if b.month < a.month {
      MonthsAfter(a.year, b.month, a.month);
    }
  }

  lemma NextDayNumber(d: Date)
    requires Valid(d)
    ensures DayNumber(NextDay(d)) == DayNumber(d) + 1
  {
    MonthStep(d.year, d.month);
  }

  /** A date is exactly one day after `t` precisely when it is the calendar's next day. */
  lemma DayAfterIsNextDay(t: Date, d: Date)
    requires Valid(t) && Valid(d)
    ensures DayNumber(d) == DayNumber(t) + 1 <==> d == NextDay(t)
  {
    NextDayNumber(t);
    if DayNumber(d) == DayNumber(t) + 1 {
      DayNumberInjective(d, NextDay(t));
    }
  }

  /** Python's `date.weekday()`: 0 is Monday, 6 is Sunday. */
  function WeekdayIndex(d: Date): (w: int)
    requires Valid(d)
    ensures 0 <= w < 7
  {
    (DayNumber(d) + 6) % 7
  }

  /** What `strftime("%a")` prints in the C locale, indexed by `WeekdayIndex`. */
  const ENGLISH_ABBRS: seq<string> := ["Mon", "Tue", "Wed", "Thu", "Fri", "Sat", "Sun"]

  function EnglishAbbr(d: Date): (s: string)
    requires Valid(d)
    ensures s in ENGLISH_ABBRS
  {
    ENGLISH_ABBRS[WeekdayIndex(d)]
  }

  /** Consecutive dates have consecutive weekdays. */
  lemma WeekdayAdvances(d: Date)
    requires Valid(d)
    ensures WeekdayIndex(NextDay(d)) == (WeekdayIndex(d) + 1) % 7
  {
    NextDayNumber(d);
    ModSevenStep(DayNumber(d) + 6);
  }

  lemma ModSevenStep(n: int)
    ensures (n + 1) % 7 == (n % 7 + 1) % 7
  {
  }

  /** An anchor: 28 September 2025 fell on a Sunday. */
  lemma KnownSunday()
    ensures Valid(Date(2025, 9, 28)) && EnglishAbbr(Date(2025, 9, 28)) == "Sun"
  {
    DaysBeforeYearClosedForm(2025);
    assert DayNumber(Date(2025, 9, 28)) == 739522;
  }
}
