/** A proleptic Gregorian calendar on integer day numbers, standing in for
    Python's `datetime` dates. Day 1 is 0001-01-01, as in Python's
    `date.toordinal()`, and `Weekday` numbers Monday as 0 and Sunday as 6. */
module Calendar {

  datatype Date = Date(year: int, month: int, day: int)

  predicate IsLeapYear(year: int) {
    year % 4 == 0 && (year % 100 != 0 || year % 400 == 0)
  }

  function DaysInYear(year: int): int {
    if IsLeapYear(year) then 366 else 365
  }

  function DaysInMonth(year: int, month: int): int
    requires 1 <= month <= 12
  {
    if month == 2 then (if IsLeapYear(year) then 29 else 28)
    else if month == 4 || month == 6 || month == 9 || month == 11 then 30
    else 31
  }

  predicate IsValidDate(d: Date) {
    1 <= d.month <= 12 && 1 <= d.day <= DaysInMonth(d.year, d.month)
  }

  /** Number of days in all years before `year`. */
  function DaysBeforeYear(year: int): int {
    var y := year - 1;
    y * 365 + y / 4 - y / 100 + y / 400
  }

  /** Number of days in the months of `year` before `month`. */
  function DaysBeforeMonth(year: int, month: int): int
    requires 1 <= month <= 12
  {
    [0, 31, 59, 90, 120, 151, 181, 212, 243, 273, 304, 334][month - 1]
      + if month > 2 && IsLeapYear(year) then 1 else 0
  }

  /** The day number of a calendar date. */
  function ToOrdinal(d: Date): int
    requires 1 <= d.month <= 12
  {
    DaysBeforeYear(d.year) + DaysBeforeMonth(d.year, d.month) + d.day
  }

  /** Date comparison as `datetime` does it: by year, then month, then day. */
  predicate Before(a: Date, b: Date) {
    a.year < b.year
    || (a.year == b.year && a.month < b.month)
    || (a.year == b.year && a.month == b.month && a.day < b.day)
  }

  /** Months counted from a fixed origin, so that consecutive months differ by one. */
  function MonthIndex(d: Date): int {
    d.year * 12 + d.month
  }

  /** Day of the week, Monday = 0 .. Sunday = 6. */
  function Weekday(n: int): (w: int)
    ensures 0 <= w < 7
  {
    (n + 6) % 7
  }

  /** Moving `k` days forward moves the weekday `k` places around the week. */
  lemma WeekdayAdvance(d: int, k: int)
    ensures Weekday(d + k) == (Weekday(d) + k) % 7
  {
  }

  /** The distance from `d` to the next day (on or after `d`) with the given weekday. */
  lemma WeekdayAlign(d: int, weekday: int)
    ensures var k := (weekday - Weekday(d) + 7) % 7;
      0 <= k < 7 && Weekday(d + k) == weekday % 7
  {
  }

  /** Whole weeks do not change the weekday. */
  lemma WeekdayAfterWeeks(d: int, weeks: int)
    ensures Weekday(d + 7 * weeks) == Weekday(d)
  {
  }

  lemma DivisionStep(a: int, k: int)
    requires k == 4 || k == 100 || k == 400
    ensures a / k - (a - 1) / k == if a % k == 0 then 1 else 0
  {
  }

  lemma CenturyIsLeapCandidate(year: int)
    ensures year % 100 == 0 ==> year % 4 == 0
  {
    if year % 100 == 0 {
      var q := 25 * (year / 100);
      assert year == 4 * q;
    }
  }

  lemma QuadricentennialIsCentury(year: int)
    ensures year % 400 == 0 ==> year % 100 == 0
  {
    if year % 400 == 0 {
      var q := 4 * (year / 400);
      assert year == 100 * q;
    }
  }

  lemma DaysBeforeYearStep(year: int)
    ensures DaysBeforeYear(year + 1) == DaysBeforeYear(year) + DaysInYear(year)
  {
    DivisionStep(year, 4);
    DivisionStep(year, 100);
    DivisionStep(year, 400);
    CenturyIsLeapCandidate(year);
    QuadricentennialIsCentury(year);
  }

  lemma {:induction false} DaysBeforeYearMonotonic(a: int, b: int)
    requires a <= b
    ensures DaysBeforeYear(a) + 365 * (b - a) <= DaysBeforeYear(b)
    decreases b - a
  {
    if a < b {
      DaysBeforeYearMonotonic(a, b - 1);
      DaysBeforeYearStep(b - 1);
    }
  }

  lemma DaysBeforeMonthStep(year: int, month: int)
    requires 1 <= month <= 12
    ensures month < 12 ==> DaysBeforeMonth(year, month + 1) == DaysBeforeMonth(year, month) + DaysInMonth(year, month)
    ensures month == 12 ==> DaysBeforeMonth(year, month) + DaysInMonth(year, month) == DaysInYear(year)
  {
  }

  lemma {:induction false} DaysBeforeMonthMonotonic(year: int, a: int, b: int)
    requires 1 <= a <= b <= 12
    ensures DaysBeforeMonth(year, a) + 28 * (b - a) <= DaysBeforeMonth(year, b)
    decreases b - a
  {
    if a < b {
      DaysBeforeMonthMonotonic(year, a, b - 1);
      DaysBeforeMonthStep(year, b - 1);
    }
  }

  /** The year whose days contain day number `n`, searched from `guess`. */
  function YearContaining(n: int, guess: int): (year: int)
    ensures DaysBeforeYear(year) < n <= DaysBeforeYear(year + 1)
    decreases if n <= DaysBeforeYear(guess) then 1 else 0,
              if n <= DaysBeforeYear(guess) then DaysBeforeYear(guess) - n else n - DaysBeforeYear(guess)
  {
    DaysBeforeYearStep(guess - 1);
    DaysBeforeYearStep(guess);
    if n <= DaysBeforeYear(guess) then YearContaining(n, guess - 1)
    else if DaysBeforeYear(guess + 1) < n then YearContaining(n, guess + 1)
    else guess
  }

  /** The calendar date of a day number: the inverse of `ToOrdinal`. The year
      is searched from an estimate, the month walked back from December. */
  function FromOrdinal(n: int): (d: Date)
    ensures IsValidDate(d) && ToOrdinal(d) == n
  {
    var year := YearContaining(n, n / 366);
    DaysBeforeYearStep(year);
    DaysBeforeMonthStep(year, 12);
    DateOnOrBefore(n, year, 12)
  }

  /** Every valid date survives the trip to a day number and back. */
  lemma OrdinalRoundTrip(d: Date)
    requires IsValidDate(d)
    ensures FromOrdinal(ToOrdinal(d)) == d
  {
    OrdinalInjective(FromOrdinal(ToOrdinal(d)), d);
  }

  /** Day number of the first day of a month. */
  function FirstOfMonth(year: int, month: int): int
    requires 1 <= month <= 12
  {
    ToOrdinal(Date(year, month, 1))
  }

  /** Day number of the last calendar day of a month. */
  function LastOfMonth(year: int, month: int): int
    requires 1 <= month <= 12
  {
    ToOrdinal(Date(year, month, DaysInMonth(year, month)))
  }

  lemma MonthLength(year: int, month: int)
    requires 1 <= month <= 12
    ensures LastOfMonth(year, month) == FirstOfMonth(year, month) + DaysInMonth(year, month) - 1
    ensures 28 <= DaysInMonth(year, month) <= 31
  {
  }

  /** A day number between the first and the last day of a month is the
      date of that month at the matching offset. */
  lemma FromOrdinalInMonth(n: int, year: int, month: int)
    requires 1 <= month <= 12
    requires FirstOfMonth(year, month) <= n <= LastOfMonth(year, month)
    ensures FromOrdinal(n) == Date(year, month, n - FirstOfMonth(year, month) + 1)
  {
    OrdinalInjective(FromOrdinal(n), Date(year, month, n - FirstOfMonth(year, month) + 1));
  }

  /** The first day after the last day of a month is the first day of the
      following month (of the following year after December). */
  lemma MonthBoundary(year: int, month: int)
    requires 1 <= month <= 12
    ensures month < 12 ==> LastOfMonth(year, month) + 1 == FirstOfMonth(year, month + 1)
    ensures month == 12 ==> LastOfMonth(year, month) + 1 == FirstOfMonth(year + 1, 1)
  {
    DaysBeforeMonthStep(year, month);
    DaysBeforeYearStep(year);
  }

  /** The date of day number `n`, found by walking back month by month from
      (year, month); `n` must not lie after that month. */
  function DateOnOrBefore(n: int, year: int, month: int): (d: Date)
    requires 1 <= month <= 12 && n <= LastOfMonth(year, month)
    ensures IsValidDate(d) && ToOrdinal(d) == n
    decreases FirstOfMonth(year, month) - n
  {
    MonthLength(year, month);
    if FirstOfMonth(year, month) <= n then
      Date(year, month, n - FirstOfMonth(year, month) + 1)
    else if month == 1 then
      MonthBoundary(year - 1, 12);
      MonthLength(year - 1, 12);
      DateOnOrBefore(n, year - 1, 12)
    else
      MonthBoundary(year, month - 1);
      MonthLength(year, month - 1);
      DateOnOrBefore(n, year, month - 1)
  }

  /** The last day of a month is at most the last day of its year. */
  lemma EndOfMonthInYear(year: int, month: int)
    requires 1 <= month <= 12
    ensures DaysBeforeMonth(year, month) + DaysInMonth(year, month) <= DaysInYear(year)
  {
    DaysBeforeMonthStep(year, month);
    if month < 12 {
      DaysBeforeMonthMonotonic(year, month + 1, 12);
      DaysBeforeMonthStep(year, 12);
    }
  }

  lemma BeforeHasSmallerOrdinal(a: Date, b: Date)
    requires IsValidDate(a) && IsValidDate(b)
    requires Before(a, b)
    ensures ToOrdinal(a) < ToOrdinal(b)
  {
    if a.year < b.year {
      EndOfMonthInYear(a.year, a.month);
      DaysBeforeYearStep(a.year);
      DaysBeforeYearMonotonic(a.year + 1, b.year);
    } else if a.month < b.month {
      DaysBeforeMonthStep(a.year, a.month);
      DaysBeforeMonthMonotonic(a.year, a.month + 1, b.month);
    }
  }

  /** For valid dates, the field-by-field comparison agrees with the order of
      day numbers. */
  lemma BeforeIsOrdinalOrder(a: Date, b: Date)
    requires IsValidDate(a) && IsValidDate(b)
    ensures Before(a, b) <==> ToOrdinal(a) < ToOrdinal(b)
  {
    if Before(a, b) {
      BeforeHasSmallerOrdinal(a, b);
    } else if Before(b, a) {
      BeforeHasSmallerOrdinal(b, a);
    }
  }

  /** Distinct valid dates have distinct day numbers. */
  lemma OrdinalInjective(a: Date, b: Date)
    requires IsValidDate(a) && IsValidDate(b)
    requires ToOrdinal(a) == ToOrdinal(b)
    ensures a == b
  {
    BeforeIsOrdinalOrder(a, b);
    BeforeIsOrdinalOrder(b, a);
  }
}
