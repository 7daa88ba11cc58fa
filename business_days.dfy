/** Holiday calendar and business-day arithmetic (business_days.py). */
module BusinessDays {
  import opened Results
  import opened Calendar

  // ---------------------------------------------------------------------------
  // Calendar helpers of business_days.py
  // ---------------------------------------------------------------------------

  /** The first `weekday` of the month: it falls on one of the days 1 to 7.
      Python's `%` on a positive divisor agrees with Dafny's. */
  function FirstOccurrence(year: int, month: int, weekday: int): (r: int)
    requires 1 <= month <= 12
    ensures FirstOfMonth(year, month) <= r < FirstOfMonth(year, month) + 7
    ensures Weekday(r) == weekday % 7
  {
    var firstDay := FirstOfMonth(year, month);
    var firstWeekday := Weekday(firstDay);
    var daysUntilWeekday := (weekday - firstWeekday + 7) % 7;
    WeekdayAlign(firstDay, weekday);
    firstDay + daysUntilWeekday
  }

  /** The day number of the date `n - 1` weeks after the first `weekday` of
      the month; for `n <= 0`, the last `weekday` of the month: the fifth
      occurrence when it is still in the month, otherwise the fourth.
      "Still in the month" is tested on day numbers; `FifthOccurrenceInMonth`
      shows that this is the test on the date's month number. */
  function NthWeekday(year: int, month: int, weekday: int, n: int): (r: int)
    requires 1 <= month <= 12
    ensures Weekday(r) == weekday % 7
    ensures n > 0 ==> r == FirstOccurrence(year, month, weekday) + 7 * (n - 1)
  {
    var firstOccurrence := FirstOccurrence(year, month, weekday);
    WeekdayAfterWeeks(firstOccurrence, n - 1);
    WeekdayAfterWeeks(firstOccurrence, 4);
    WeekdayAfterWeeks(firstOccurrence, 3);
    if n > 0 then
      firstOccurrence + 7 * (n - 1)
    else
      var fifthOccurrence := firstOccurrence + 7 * 4;
      if fifthOccurrence <= LastOfMonth(year, month) then fifthOccurrence
      else firstOccurrence + 7 * 3
  }

  /** The fifth occurrence carries the month's number exactly when it is no
      later than the month's last day. */
  lemma FifthOccurrenceInMonth(year: int, month: int, weekday: int)
    requires 1 <= month <= 12
    ensures var fifth := FirstOccurrence(year, month, weekday) + 7 * 4;
      FromOrdinal(fifth).month == month <==> fifth <= LastOfMonth(year, month)
  {
    var fifth := FirstOccurrence(year, month, weekday) + 7 * 4;
    MonthLength(year, month);
    if fifth <= LastOfMonth(year, month) {
      FromOrdinalInMonth(fifth, year, month);
    } else {
      DayInFollowingMonth(year, month, fifth);
    }
  }

  /** For `n <= 0` the result is the last occurrence of the weekday in the
      month: it lies in the month and one week later does not. */
  lemma NthWeekdayIsLastOccurrence(year: int, month: int, weekday: int, n: int)
    requires 1 <= month <= 12
    requires n <= 0
    ensures var r := NthWeekday(year, month, weekday, n);
      FirstOfMonth(year, month) <= r <= LastOfMonth(year, month) < r + 7
  {
    MonthLength(year, month);
  }

  /** A day after the end of a month but less than five weeks after its
      first day lies in the following month, so it carries another month
      number. */
  lemma DayInFollowingMonth(year: int, month: int, d: int)
    requires 1 <= month <= 12
    requires LastOfMonth(year, month) < d < FirstOfMonth(year, month) + 35
    ensures FromOrdinal(d).month != month
  {
    MonthLength(year, month);
    MonthBoundary(year, month);
    if month == 12 {
      MonthLength(year + 1, 1);
      FromOrdinalInMonth(d, year + 1, 1);
    } else {
      MonthLength(year, month + 1);
      FromOrdinalInMonth(d, year, month + 1);
    }
  }

  /** Day number of the first day of the month after (year, month), rolling
      December over into January of the next year. */
  function FirstOfFollowingMonth(year: int, month: int): int
    requires 1 <= month <= 12
  {
    if month == 12 then ToOrdinal(Date(year + 1, 1, 1))
    else ToOrdinal(Date(year, month + 1, 1))
  }

  /** The last calendar day of a month: the day before the first of the
      following month. */
  function MonthEnd(year: int, month: int): (r: int)
    requires 1 <= month <= 12
    ensures r == LastOfMonth(year, month)
  {
    MonthBoundary(year, month);
    FirstOfFollowingMonth(year, month) - 1
  }

  predicate IsPeriodEndConvention(convention: string) {
    convention == "last_business_day" || convention == "calendar_month_end"
  }

  /** The end of the accrual period that falls in (year, month). */
  function PeriodEndDate(year: int, month: int, holidays: seq<int>, convention: string): (r: Result<int>)
    requires 1 <= month <= 12
    ensures r.Success? <==> IsPeriodEndConvention(convention)
    ensures r.Failure? ==> r.error == InvalidPeriodEndConvention
    ensures convention == "calendar_month_end" ==> r.value == LastOfMonth(year, month)
    ensures convention == "last_business_day" ==>
      && r.value <= LastOfMonth(year, month)
      && IsBusinessDay(r.value, holidays)
      && forall d :: r.value < d <= LastOfMonth(year, month) ==> !IsBusinessDay(d, holidays)
  {
    if convention == "last_business_day" then
      Success(LastBusinessDayOfMonth(year, month, holidays))
    else if convention == "calendar_month_end" then
      Success(MonthEnd(year, month))
    else
      Failure(InvalidPeriodEndConvention)
  }

  // ---------------------------------------------------------------------------
  // US bank holidays
  // ---------------------------------------------------------------------------

  /** Holiday `i` of `year` before weekend observance: five fixed dates,
      then MLK Day, Presidents Day, Memorial Day, Labor Day, Thanksgiving. */
  function NominalHoliday(year: int, i: int): int
    requires 0 <= i < 10
  {
    if i == 0 then ToOrdinal(Date(year, 1, 1))          // New Year's Day
    else if i == 1 then ToOrdinal(Date(year, 6, 19))    // Juneteenth
    else if i == 2 then ToOrdinal(Date(year, 7, 4))     // Independence Day
    else if i == 3 then ToOrdinal(Date(year, 11, 11))   // Veterans Day
    else if i == 4 then ToOrdinal(Date(year, 12, 25))   // Christmas
    else if i == 5 then NthWeekday(year, 1, 0, 3)       // third Monday of January
    else if i == 6 then NthWeekday(year, 2, 0, 3)       // third Monday of February
    else if i == 7 then NthWeekday(year, 5, 0, -1)      // last Monday of May
    else if i == 8 then NthWeekday(year, 9, 0, 1)       // first Monday of September
    else NthWeekday(year, 11, 3, 4)                     // fourth Thursday of November
  }

  /** The ten holidays of `year` before weekend observance, in list order. */
  function NominalHolidays(year: int): seq<int> {
    seq(10, i requires 0 <= i < 10 => NominalHoliday(year, i))
  }

  /** The day on which a holiday is observed: a Saturday holiday on the
      Friday before, a Sunday holiday on the Monday after. */
  function ObservedDate(holiday: int): (r: int)
    ensures Weekday(r) < 5
    ensures holiday - 1 <= r <= holiday + 1
    ensures r == holiday <==> Weekday(holiday) < 5
  {
    if Weekday(holiday) == 5 then holiday - 1
    else if Weekday(holiday) == 6 then holiday + 1
    else holiday
  }

  /** The observed US bank holidays of `year`, in the order of `NominalHolidays`. */
  function UsBankHolidays(year: int): seq<int> {
    var nominal := NominalHolidays(year);
    seq(|nominal|, i requires 0 <= i < |nominal| => ObservedDate(nominal[i]))
  }

  /** Builds the observed list by appending one adjusted date per nominal holiday. */
  method GetUsBankHolidays(year: int) returns (observedHolidays: seq<int>)
    ensures observedHolidays == UsBankHolidays(year)
  {
    var holidays := NominalHolidays(year);
    observedHolidays := [];
    for i := 0 to |holidays|
      invariant |observedHolidays| == i
      invariant forall k :: 0 <= k < i ==> observedHolidays[k] == ObservedDate(holidays[k])
    {
      var holiday := holidays[i];
      if Weekday(holiday) == 5 {
        observedHolidays := observedHolidays + [holiday - 1];
      } else if Weekday(holiday) == 6 {
        observedHolidays := observedHolidays + [holiday + 1];
      } else {
        observedHolidays := observedHolidays + [holiday];
      }
    }
  }

  /** Every year has exactly ten observed holidays; each is a weekday within
      one day of its nominal date. */
  lemma UsBankHolidaysObserved(year: int)
    ensures |UsBankHolidays(year)| == 10
    ensures forall i :: 0 <= i < 10 ==>
      && Weekday(UsBankHolidays(year)[i]) < 5
      && NominalHolidays(year)[i] - 1 <= UsBankHolidays(year)[i] <= NominalHolidays(year)[i] + 1
  {
  }

  /** The floating holidays follow their nth-weekday rules. */
  lemma FloatingHolidays(year: int)
    ensures var h := NominalHolidays(year);
      && Weekday(h[5]) == 0 && FirstOfMonth(year, 1) + 14 <= h[5] < FirstOfMonth(year, 1) + 21
      && Weekday(h[6]) == 0 && FirstOfMonth(year, 2) + 14 <= h[6] < FirstOfMonth(year, 2) + 21
      && Weekday(h[7]) == 0 && h[7] <= LastOfMonth(year, 5) < h[7] + 7
      && Weekday(h[8]) == 0 && FirstOfMonth(year, 9) <= h[8] < FirstOfMonth(year, 9) + 7
      && Weekday(h[9]) == 3 && FirstOfMonth(year, 11) + 21 <= h[9] < FirstOfMonth(year, 11) + 28
  {
    NthWeekdayIsLastOccurrence(year, 5, 0, -1);
  }

  // ---------------------------------------------------------------------------
  // Business days
  // ---------------------------------------------------------------------------

  /** Monday to Friday and not in the holiday list. */
  predicate IsBusinessDay(d: int, holidays: seq<int>) {
    Weekday(d) < 5 && d !in holidays
  }

  /** Number of entries of `holidays` on or before day `d`. */
  function CountAtOrBefore(holidays: seq<int>, d: int): (c: nat)
    ensures c <= |holidays|
  {
    if holidays == [] then 0
    else (if holidays[0] <= d then 1 else 0) + CountAtOrBefore(holidays[1..], d)
  }

  /** Stepping over a listed holiday lowers the count; stepping over any
      other day leaves it unchanged. */
  lemma {:induction false} CountAtOrBeforeStep(holidays: seq<int>, d: int)
    ensures d in holidays ==> CountAtOrBefore(holidays, d - 1) < CountAtOrBefore(holidays, d)
    ensures d !in holidays ==> CountAtOrBefore(holidays, d - 1) == CountAtOrBefore(holidays, d)
  {
    if holidays != [] {
      assert holidays == [holidays[0]] + holidays[1..];
      CountAtOrBeforeStep(holidays[1..], d);
    }
  }

  /** Number of weekend days immediately before day `d`. */
  function WeekendRunBefore(d: int): nat {
    if Weekday(d) == 0 then 2 else if Weekday(d) == 6 then 1 else 0
  }

  /** Number of weekend days immediately after day `d`. */
  function WeekendRunAfter(d: int): nat {
    if Weekday(d) == 4 then 2 else if Weekday(d) == 5 then 1 else 0
  }

  /** The latest business day on or before `d`: the backward search of
      get_last_business_day_of_month. It ends because only the finitely
      many listed holidays and at most two weekend days in a row are skipped. */
  function LastBusinessDayOnOrBefore(d: int, holidays: seq<int>): (r: int)
    ensures r <= d && IsBusinessDay(r, holidays)
    ensures forall x :: r < x <= d ==> !IsBusinessDay(x, holidays)
    decreases CountAtOrBefore(holidays, d), WeekendRunBefore(d + 1)
  {
    if IsBusinessDay(d, holidays) then d
    else
      CountAtOrBeforeStep(holidays, d);
      LastBusinessDayOnOrBefore(d - 1, holidays)
  }

  function LastBusinessDayOfMonth(year: int, month: int, holidays: seq<int>): int
    requires 1 <= month <= 12
  {
    LastBusinessDayOnOrBefore(MonthEnd(year, month), holidays)
  }

  /** Walks back from the last calendar day of the month to the first
      weekday that is not a holiday. */
  method GetLastBusinessDayOfMonth(year: int, month: int, holidays: seq<int>) returns (lastDay: int)
    requires 1 <= month <= 12
    ensures lastDay == LastBusinessDayOfMonth(year, month, holidays)
  {
    lastDay := MonthEnd(year, month);
    while !(Weekday(lastDay) < 5 && lastDay !in holidays)
      invariant LastBusinessDayOnOrBefore(lastDay, holidays) == LastBusinessDayOfMonth(year, month, holidays)
      decreases CountAtOrBefore(holidays, lastDay), WeekendRunBefore(lastDay + 1)
    {
      CountAtOrBeforeStep(holidays, lastDay);
      WeekdayAdvance(lastDay, 1);
      lastDay := lastDay - 1;
    }
  }

  /** Number of business days in the half-open interval [lo, hi). */
  function BusinessDaysIn(lo: int, hi: int, holidays: seq<int>): nat
    decreases hi - lo
  {
    if hi <= lo then 0
    else (if IsBusinessDay(lo, holidays) then 1 else 0) + BusinessDaysIn(lo + 1, hi, holidays)
  }

  lemma {:induction false} BusinessDaysInSplitLast(lo: int, hi: int, holidays: seq<int>)
    requires lo < hi
    ensures BusinessDaysIn(lo, hi, holidays)
            == BusinessDaysIn(lo, hi - 1, holidays) + (if IsBusinessDay(hi - 1, holidays) then 1 else 0)
    decreases hi - lo
  {
    if lo < hi - 1 {
      BusinessDaysInSplitLast(lo + 1, hi, holidays);
    }
  }

  /** Holidays still ahead of `current` when walking in direction `step`. */
  function HolidaysAhead(holidays: seq<int>, current: int, step: int): nat {
    if step > 0 then |holidays| - CountAtOrBefore(holidays, current)
    else CountAtOrBefore(holidays, current - 1)
  }

  /** Weekend days directly ahead of `current` when walking in direction `step`. */
  function WeekendRunAhead(current: int, step: int): nat {
    if step > 0 then WeekendRunAfter(current) else WeekendRunBefore(current)
  }

  /** The loop of add_business_days: move one calendar day in direction
      `step`, and count the move when it lands on a business day, until
      `remaining` moves have counted. */
  function StepBusinessDays(current: int, remaining: nat, step: int, holidays: seq<int>): int
    requires step == 1 || step == -1
    decreases remaining, HolidaysAhead(holidays, current, step), WeekendRunAhead(current, step)
  {
    if remaining == 0 then current
    else
      var next := current + step;
      CountAtOrBeforeStep(holidays, next);
      if IsBusinessDay(next, holidays) then StepBusinessDays(next, remaining - 1, step, holidays)
      else StepBusinessDays(next, remaining, step, holidays)
  }

  /** The date `days` business days after (before, when negative) `startDate`. */
  function BusinessDayOffset(startDate: int, days: int, holidays: seq<int>): int {
    StepBusinessDays(startDate, if days >= 0 then days else -days, if days >= 0 then 1 else -1, holidays)
  }

  lemma {:induction false} StepBusinessDaysCounts(current: int, remaining: nat, step: int, holidays: seq<int>)
    requires step == 1 || step == -1
    ensures var r := StepBusinessDays(current, remaining, step, holidays);
      && (remaining == 0 ==> r == current)
      && (remaining > 0 ==> IsBusinessDay(r, holidays) && (if step == 1 then current < r else r < current))
      && (step == 1 && current <= r ==> BusinessDaysIn(current + 1, r + 1, holidays) == remaining)
      && (step == -1 && r <= current ==> BusinessDaysIn(r, current, holidays) == remaining)
    decreases remaining, HolidaysAhead(holidays, current, step), WeekendRunAhead(current, step)
  {
    if remaining > 0 {
      var next := current + step;
      CountAtOrBeforeStep(holidays, next);
      var r := StepBusinessDays(current, remaining, step, holidays);
      if IsBusinessDay(next, holidays) {
        StepBusinessDaysCounts(next, remaining - 1, step, holidays);
      } else {
        StepBusinessDaysCounts(next, remaining, step, holidays);
      }
      if step == -1 {
        BusinessDaysInSplitLast(r, current, holidays);
      }
    }
  }

  /** add_business_days: zero days is the start date itself; otherwise the
      result is a business day on the side given by the sign of `days`, and
      exactly |days| business days lie from the start (exclusive) to the
      result (inclusive). */
  lemma BusinessDayOffsetSpec(startDate: int, days: int, holidays: seq<int>)
    ensures var r := BusinessDayOffset(startDate, days, holidays);
      && (days == 0 ==> r == startDate)
      && (days > 0 ==>
            startDate < r && IsBusinessDay(r, holidays) && BusinessDaysIn(startDate + 1, r + 1, holidays) == days)
      && (days < 0 ==>
            r < startDate && IsBusinessDay(r, holidays) && BusinessDaysIn(r, startDate, holidays) == -days)
  {
    StepBusinessDaysCounts(startDate, if days >= 0 then days else -days, if days >= 0 then 1 else -1, holidays);
  }

  /** Steps one calendar day at a time, counting only business days. */
  method AddBusinessDays(startDate: int, days: int, holidays: seq<int>) returns (currentDate: int)
    ensures currentDate == BusinessDayOffset(startDate, days, holidays)
  {
    currentDate := startDate;
    var step := if days >= 0 then 1 else -1;
    var daysRemaining: nat := if days >= 0 then days else -days;
    while daysRemaining > 0
      invariant StepBusinessDays(currentDate, daysRemaining, step, holidays) == BusinessDayOffset(startDate, days, holidays)
      decreases daysRemaining, HolidaysAhead(holidays, currentDate, step), WeekendRunAhead(currentDate, step)
    {
      currentDate := currentDate + step;
      CountAtOrBeforeStep(holidays, currentDate);
      if Weekday(currentDate) < 5 && currentDate !in holidays {
        daysRemaining := daysRemaining - 1;
      }
    }
  }
}
