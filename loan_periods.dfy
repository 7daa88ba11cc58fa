/** Splitting a loan's life into numbered monthly accrual periods (loan_periods.py). */
module LoanPeriods {
  import opened Results
  import opened Calendar
  import opened BusinessDays

  /** One accrual period; `days` counts both the start and the end date. */
  datatype Period = Period(periodNumber: int, startDate: int, endDate: int, paymentDueDate: int, days: int)

  /** The period numbered `number` from `startDate` to `endDate`, due on its end date. */
  function MakePeriod(number: int, startDate: int, endDate: int): Period {
    Period(number, startDate, endDate, endDate, endDate - startDate + 1)
  }

  /** The month-advance step: the first day of the following month, rolling
      December over into January of the next year. */
  function NextMonthFirst(d: Date): Date {
    if d.month == 12 then Date(d.year + 1, 1, 1) else Date(d.year, d.month + 1, 1)
  }

  /** The date of the day after `periodEnd`, a day no later than the last day
      of the month of `d`. */
  function DayAfter(d: Date, periodEnd: int): (r: Date)
    requires 1 <= d.month <= 12 && periodEnd <= LastOfMonth(d.year, d.month)
    ensures IsValidDate(r) && ToOrdinal(r) == periodEnd + 1
  {
    var next := NextMonthFirst(d);
    MonthBoundary(d.year, d.month);
    MonthLength(next.year, next.month);
    DateOnOrBefore(periodEnd + 1, next.year, next.month)
  }

  /** The periods generated from loop state (`current`, `periodNumber`) on:
      one period per month while `current` is before the first day of the
      maturity month, then the final period from `current` to maturity. */
  function LaterPeriods(current: Date, periodNumber: int, maturity: Date,
                        holidays: seq<int>, convention: string): seq<Period>
    requires IsPeriodEndConvention(convention)
    requires 1 <= current.month <= 12 && 1 <= current.day && 1 <= maturity.month <= 12
    decreases MonthIndex(maturity) - MonthIndex(current)
  {
    if Before(current, Date(maturity.year, maturity.month, 1)) then
      var currentEnd := PeriodEndDate(current.year, current.month, holidays, convention).value;
      [MakePeriod(periodNumber, ToOrdinal(current), currentEnd)]
        + LaterPeriods(NextMonthFirst(current), periodNumber + 1, maturity, holidays, convention)
    else
      [MakePeriod(periodNumber, ToOrdinal(current), ToOrdinal(maturity))]
  }

  /** The periods of a loan from origination to maturity. */
  function InterestPeriods(origination: Date, maturity: Date,
                           holidays: seq<int>, convention: string := "last_business_day"): (r: Result<seq<Period>>)
    requires IsValidDate(origination) && IsValidDate(maturity)
    ensures r.Success? <==> IsPeriodEndConvention(convention)
    ensures r.Failure? ==> r.error == InvalidPeriodEndConvention
  {
    match PeriodEndDate(origination.year, origination.month, holidays, convention)
    case Failure(e) => Failure(e)
    case Success(firstPeriodEnd) =>
      if origination.year == maturity.year && origination.month == maturity.month then
        Success([MakePeriod(1, ToOrdinal(origination), ToOrdinal(maturity))])
      else
        Success([MakePeriod(1, ToOrdinal(origination), firstPeriodEnd)]
                + LaterPeriods(DayAfter(origination, firstPeriodEnd), 2, maturity, holidays, convention))
  }

  /** generate_interest_periods: the first period, the single-month
      replacement, the middle periods and the final period. */
  method GenerateInterestPeriods(originationDate: Date, maturityDate: Date,
                                 holidays: seq<int>, periodEndConvention: string := "last_business_day")
    returns (r: Result<seq<Period>>)
    requires IsValidDate(originationDate) && IsValidDate(maturityDate)
    ensures r == InterestPeriods(originationDate, maturityDate, holidays, periodEndConvention)
  {
    var periods: seq<Period> := [];
    var periodNumber := 1;
    var origination := originationDate;
    var firstPeriodEnd :- PeriodEndDate(origination.year, origination.month, holidays, periodEndConvention);
    var originationDay := ToOrdinal(originationDate);
    var firstPeriod := MakePeriod(periodNumber, originationDay, firstPeriodEnd);
    periods := periods + [firstPeriod];
    assert periods == [firstPeriod];
    periodNumber := periodNumber + 1;

    var maturity := maturityDate;
    var maturityDay := ToOrdinal(maturityDate);
    if origination.year == maturity.year && origination.month == maturity.month {
      periods := periods[0 := MakePeriod(1, originationDay, maturityDay)];
      assert periods == [MakePeriod(1, originationDay, maturityDay)];
      SingleMonthLoan(originationDate, maturityDate, holidays, periodEndConvention);
      return Success(periods);
    }

    var currentStartDate := DayAfter(origination, firstPeriodEnd);
    ghost var expected := [firstPeriod] + LaterPeriods(currentStartDate, periodNumber, maturity, holidays, periodEndConvention);
    periods, periodNumber, currentStartDate :=
      AppendMiddlePeriods(periods, periodNumber, currentStartDate, maturity, holidays, periodEndConvention);

    LaterPeriodsFinal(currentStartDate, periodNumber, maturity, holidays, periodEndConvention);
    var lastPeriodStart := ToOrdinal(currentStartDate);
    periods := periods + [MakePeriod(periodNumber, lastPeriodStart, maturityDay)];
    assert periods == expected;
    MultiMonthResult(originationDate, maturityDate, holidays, periodEndConvention, periods);
    r := Success(periods);
  }

  /** The middle-period loop of generate_interest_periods: one period per
      month while `currentStartDate` is before the first day of the maturity
      month. The periods built so far followed by those still to come stay
      the same, so on exit only the final period is missing. */
  method AppendMiddlePeriods(periods0: seq<Period>, periodNumber0: int, currentStartDate0: Date, maturity: Date,
                             holidays: seq<int>, periodEndConvention: string)
    returns (periods: seq<Period>, periodNumber: int, currentStartDate: Date)
    requires IsPeriodEndConvention(periodEndConvention)
    requires 1 <= currentStartDate0.month <= 12 && 1 <= currentStartDate0.day && 1 <= maturity.month <= 12
    ensures 1 <= currentStartDate.month <= 12 && 1 <= currentStartDate.day
    ensures !Before(currentStartDate, Date(maturity.year, maturity.month, 1))
    ensures periods + LaterPeriods(currentStartDate, periodNumber, maturity, holidays, periodEndConvention)
            == periods0 + LaterPeriods(currentStartDate0, periodNumber0, maturity, holidays, periodEndConvention)
  {
    periods, periodNumber, currentStartDate := periods0, periodNumber0, currentStartDate0;
    var maturityMonthStart := Date(maturity.year, maturity.month, 1);
    while Before(currentStartDate, maturityMonthStart)
      invariant 1 <= currentStartDate.month <= 12 && 1 <= currentStartDate.day
      invariant periods + LaterPeriods(currentStartDate, periodNumber, maturity, holidays, periodEndConvention)
                == periods0 + LaterPeriods(currentStartDate0, periodNumber0, maturity, holidays, periodEndConvention)
      decreases MonthIndex(maturity) - MonthIndex(currentStartDate)
    {
      // The convention was accepted for the first period, so this call cannot fail.
      var currentEndDate := PeriodEndDate(currentStartDate.year, currentStartDate.month,
                                          holidays, periodEndConvention).value;
      var middlePeriod := MakePeriod(periodNumber, ToOrdinal(currentStartDate), currentEndDate);
      MonthLoopStep(periods, currentStartDate, periodNumber, maturity, holidays, periodEndConvention);
      ghost var next := NextMonthFirst(currentStartDate);
      periods := periods + [middlePeriod];
      periodNumber := periodNumber + 1;
      if currentStartDate.month == 12 {
        currentStartDate := Date(currentStartDate.year + 1, 1, 1);
      } else {
        currentStartDate := Date(currentStartDate.year, currentStartDate.month + 1, 1);
      }
      assert currentStartDate == next;
    }
  }

  // ---------------------------------------------------------------------------
  // Properties of the generated periods
  // ---------------------------------------------------------------------------

  /** Periods numbered `first`, `first + 1`, ... with no gap, each due on its
      end date and counting both ends in `days`. */
  predicate NumberedFrom(periods: seq<Period>, first: int) {
    forall i :: 0 <= i < |periods| ==>
      && periods[i].periodNumber == first + i
      && periods[i].paymentDueDate == periods[i].endDate
      && periods[i].days == periods[i].endDate - periods[i].startDate + 1
  }

  /** Each period starts the day after the previous one ends. */
  predicate Contiguous(periods: seq<Period>) {
    forall i :: 0 <= i < |periods| - 1 ==> periods[i + 1].startDate == periods[i].endDate + 1
  }

  function SumDays(periods: seq<Period>): int {
    if periods == [] then 0 else periods[0].days + SumDays(periods[1..])
  }

  lemma AppendAssociates(done: seq<Period>, p: Period, rest: seq<Period>)
    ensures (done + [p]) + rest == done + ([p] + rest)
  {
  }

  lemma ConsNumbered(p: Period, rest: seq<Period>, first: int)
    requires NumberedFrom([p], first) && NumberedFrom(rest, first + 1)
    ensures NumberedFrom([p] + rest, first)
  {
    var ps := [p] + rest;
    forall i | 0 <= i < |ps|
      ensures ps[i].periodNumber == first + i
    {
      if i > 0 {
        assert ps[i] == rest[i - 1];
      }
    }
  }

  lemma ConsContiguous(p: Period, rest: seq<Period>)
    requires Contiguous(rest) && |rest| >= 1 && rest[0].startDate == p.endDate + 1
    ensures Contiguous([p] + rest)
  {
    var ps := [p] + rest;
    forall i | 0 <= i < |ps| - 1
      ensures ps[i + 1].startDate == ps[i].endDate + 1
    {
      if i > 0 {
        assert ps[i] == rest[i - 1] && ps[i + 1] == rest[i];
      }
    }
  }

  lemma ConsSumDays(p: Period, rest: seq<Period>)
    ensures SumDays([p] + rest) == p.days + SumDays(rest)
  {
    assert ([p] + rest)[1..] == rest;
  }

  /** One step of the month loop: while `current` is before the maturity
      month, it contributes the period up to its month's period end. */
  lemma LaterPeriodsStep(current: Date, periodNumber: int, maturity: Date,
                         holidays: seq<int>, convention: string)
    requires IsPeriodEndConvention(convention)
    requires 1 <= current.month <= 12 && 1 <= current.day && 1 <= maturity.month <= 12
    requires Before(current, Date(maturity.year, maturity.month, 1))
    ensures LaterPeriods(current, periodNumber, maturity, holidays, convention)
            == [MakePeriod(periodNumber, ToOrdinal(current),
                           PeriodEndDate(current.year, current.month, holidays, convention).value)]
               + LaterPeriods(NextMonthFirst(current), periodNumber + 1, maturity, holidays, convention)
  {
  }

  /** The loop exit: the final period runs from `current` to maturity. */
  lemma LaterPeriodsFinal(current: Date, periodNumber: int, maturity: Date,
                          holidays: seq<int>, convention: string)
    requires IsPeriodEndConvention(convention)
    requires 1 <= current.month <= 12 && 1 <= current.day && 1 <= maturity.month <= 12
    requires !Before(current, Date(maturity.year, maturity.month, 1))
    ensures LaterPeriods(current, periodNumber, maturity, holidays, convention)
            == [MakePeriod(periodNumber, ToOrdinal(current), ToOrdinal(maturity))]
  {
  }

  /** A run of periods from `start` to `end`, numbered from `first`. */
  predicate Spans(periods: seq<Period>, start: int, end: int, first: int) {
    && |periods| >= 1
    && periods[0].startDate == start
    && periods[|periods| - 1].endDate == end
    && NumberedFrom(periods, first)
  }

  lemma ConsSpans(p: Period, rest: seq<Period>, restStart: int, end: int, first: int)
    requires p.periodNumber == first && p.paymentDueDate == p.endDate && p.days == p.endDate - p.startDate + 1
    requires Spans(rest, restStart, end, first + 1)
    ensures Spans([p] + rest, p.startDate, end, first)
  {
    ConsNumbered(p, rest, first);
    assert ([p] + rest)[|rest|] == rest[|rest| - 1];
  }

  /** One turn of the month loop keeps the periods built so far followed by
      the periods still to come unchanged. */
  lemma MonthLoopStep(done: seq<Period>, current: Date, periodNumber: int, maturity: Date,
                      holidays: seq<int>, convention: string)
    requires IsPeriodEndConvention(convention)
    requires 1 <= current.month <= 12 && 1 <= current.day && 1 <= maturity.month <= 12
    requires Before(current, Date(maturity.year, maturity.month, 1))
    ensures var currentEnd := PeriodEndDate(current.year, current.month, holidays, convention).value;
      (done + [MakePeriod(periodNumber, ToOrdinal(current), currentEnd)])
        + LaterPeriods(NextMonthFirst(current), periodNumber + 1, maturity, holidays, convention)
      == done + LaterPeriods(current, periodNumber, maturity, holidays, convention)
  {
    LaterPeriodsStep(current, periodNumber, maturity, holidays, convention);
    var currentEnd := PeriodEndDate(current.year, current.month, holidays, convention).value;
    AppendAssociates(done, MakePeriod(periodNumber, ToOrdinal(current), currentEnd),
                     LaterPeriods(NextMonthFirst(current), periodNumber + 1, maturity, holidays, convention));
  }

  lemma {:induction false} LaterPeriodsShape(current: Date, periodNumber: int, maturity: Date,
                                             holidays: seq<int>, convention: string)
    requires IsPeriodEndConvention(convention)
    requires 1 <= current.month <= 12 && 1 <= current.day && 1 <= maturity.month <= 12
    ensures Spans(LaterPeriods(current, periodNumber, maturity, holidays, convention),
                  ToOrdinal(current), ToOrdinal(maturity), periodNumber)
    decreases MonthIndex(maturity) - MonthIndex(current)
  {
    if Before(current, Date(maturity.year, maturity.month, 1)) {
      var next := NextMonthFirst(current);
      LaterPeriodsStep(current, periodNumber, maturity, holidays, convention);
      LaterPeriodsShape(next, periodNumber + 1, maturity, holidays, convention);
      var currentEnd := PeriodEndDate(current.year, current.month, holidays, convention).value;
      var rest := LaterPeriods(next, periodNumber + 1, maturity, holidays, convention);
      ConsSpans(MakePeriod(periodNumber, ToOrdinal(current), currentEnd), rest, ToOrdinal(next), ToOrdinal(maturity), periodNumber);
    } else {
      LaterPeriodsFinal(current, periodNumber, maturity, holidays, convention);
      assert NumberedFrom([MakePeriod(periodNumber, ToOrdinal(current), ToOrdinal(maturity))], periodNumber);
    }
  }

  /** Periods that tile the days from `start` to `end`: each starts the day
      after the previous one ends, and their day counts add up to the
      inclusive span. */
  predicate Tiles(periods: seq<Period>, start: int, end: int) {
    Contiguous(periods) && SumDays(periods) == end - start + 1
  }

  lemma ConsTiles(p: Period, rest: seq<Period>, restStart: int, end: int, first: int)
    requires p.days == p.endDate - p.startDate + 1 && restStart == p.endDate + 1
    requires Spans(rest, restStart, end, first) && Tiles(rest, restStart, end)
    ensures Tiles([p] + rest, p.startDate, end)
  {
    ConsContiguous(p, rest);
    ConsSumDays(p, rest);
  }

  /** The first of the next month is the day after the current month's last day. */
  lemma NextMonthFirstFollows(current: Date)
    requires 1 <= current.month <= 12
    ensures ToOrdinal(NextMonthFirst(current)) == LastOfMonth(current.year, current.month) + 1
  {
    MonthBoundary(current.year, current.month);
  }

  lemma {:induction false} LaterPeriodsTile(current: Date, periodNumber: int, maturity: Date, holidays: seq<int>)
    requires 1 <= current.month <= 12 && 1 <= current.day && 1 <= maturity.month <= 12
    ensures Tiles(LaterPeriods(current, periodNumber, maturity, holidays, "calendar_month_end"),
                  ToOrdinal(current), ToOrdinal(maturity))
    decreases MonthIndex(maturity) - MonthIndex(current)
  {
    var convention := "calendar_month_end";
    if Before(current, Date(maturity.year, maturity.month, 1)) {
      var next := NextMonthFirst(current);
      LaterPeriodsStep(current, periodNumber, maturity, holidays, convention);
      LaterPeriodsTile(next, periodNumber + 1, maturity, holidays);
      LaterPeriodsShape(next, periodNumber + 1, maturity, holidays, convention);
      NextMonthFirstFollows(current);
      var currentEnd := PeriodEndDate(current.year, current.month, holidays, convention).value;
      var rest := LaterPeriods(next, periodNumber + 1, maturity, holidays, convention);
      ConsTiles(MakePeriod(periodNumber, ToOrdinal(current), currentEnd), rest, ToOrdinal(next), ToOrdinal(maturity),
                periodNumber + 1);
    } else {
      LaterPeriodsFinal(current, periodNumber, maturity, holidays, convention);
      assert Contiguous([MakePeriod(periodNumber, ToOrdinal(current), ToOrdinal(maturity))]);
    }
  }

  /** Origination and maturity in the same month give exactly one period,
      from origination to maturity. */
  lemma SingleMonthLoan(origination: Date, maturity: Date, holidays: seq<int>, convention: string)
    requires IsValidDate(origination) && IsValidDate(maturity)
    requires IsPeriodEndConvention(convention)
    requires origination.year == maturity.year && origination.month == maturity.month
    ensures var start := ToOrdinal(origination);
      var end := ToOrdinal(maturity);
      InterestPeriods(origination, maturity, holidays, convention) == Success([Period(1, start, end, end, end - start + 1)])
  {
  }

  /** Origination and maturity in different months: the first period runs to
      the origination month's period end, and the month loop starts the day
      after it. */
  lemma MultiMonthLoan(origination: Date, maturity: Date, holidays: seq<int>, convention: string)
    requires IsValidDate(origination) && IsValidDate(maturity)
    requires IsPeriodEndConvention(convention)
    requires !(origination.year == maturity.year && origination.month == maturity.month)
    ensures var firstPeriodEnd := PeriodEndDate(origination.year, origination.month, holidays, convention).value;
      InterestPeriods(origination, maturity, holidays, convention).value
      == [MakePeriod(1, ToOrdinal(origination), firstPeriodEnd)]
         + LaterPeriods(DayAfter(origination, firstPeriodEnd), 2, maturity, holidays, convention)
  {
  }

  /** The result of a multi-month loan, in the form the month loop builds it. */
  lemma MultiMonthResult(origination: Date, maturity: Date, holidays: seq<int>, convention: string,
                         periods: seq<Period>)
    requires IsValidDate(origination) && IsValidDate(maturity)
    requires IsPeriodEndConvention(convention)
    requires !(origination.year == maturity.year && origination.month == maturity.month)
    requires var firstPeriodEnd := PeriodEndDate(origination.year, origination.month, holidays, convention).value;
      periods == [MakePeriod(1, ToOrdinal(origination), firstPeriodEnd)]
                 + LaterPeriods(DayAfter(origination, firstPeriodEnd), 2, maturity, holidays, convention)
    ensures InterestPeriods(origination, maturity, holidays, convention) == Success(periods)
  {
    MultiMonthLoan(origination, maturity, holidays, convention);
  }

  /** Under "last_business_day", when the origination month ends on
      non-business days, the month loop starts the day after that month's
      period end, which is still in the origination month: the second period
      runs from that day back to the same period end and counts zero days. */
  lemma LastBusinessDayStubRepeatsMonth(origination: Date, maturity: Date, holidays: seq<int>)
    requires IsValidDate(origination) && IsValidDate(maturity)
    requires MonthIndex(origination) < MonthIndex(maturity)
    requires var periodEnd := PeriodEndDate(origination.year, origination.month, holidays, "last_business_day").value;
      FirstOfMonth(origination.year, origination.month) <= periodEnd < LastOfMonth(origination.year, origination.month)
    ensures var periodEnd := PeriodEndDate(origination.year, origination.month, holidays, "last_business_day").value;
      var ps := InterestPeriods(origination, maturity, holidays, "last_business_day").value;
      && |ps| >= 2
      && ps[0].endDate == periodEnd
      && ps[1] == Period(2, periodEnd + 1, periodEnd, periodEnd, 0)
  {
    var convention := "last_business_day";
    var periodEnd := PeriodEndDate(origination.year, origination.month, holidays, convention).value;
    MultiMonthLoan(origination, maturity, holidays, convention);
    DayAfterInSameMonth(origination, periodEnd);
    LaterPeriodsStep(DayAfter(origination, periodEnd), 2, maturity, holidays, convention);
  }

  /** The day after a day before the end of a month is in that month. */
  lemma DayAfterInSameMonth(d: Date, periodEnd: int)
    requires 1 <= d.month <= 12
    requires FirstOfMonth(d.year, d.month) <= periodEnd < LastOfMonth(d.year, d.month)
    ensures DayAfter(d, periodEnd).year == d.year && DayAfter(d, periodEnd).month == d.month
  {
    var same := Date(d.year, d.month, periodEnd + 1 - FirstOfMonth(d.year, d.month) + 1);
    FromOrdinalInMonth(periodEnd + 1, d.year, d.month);
    OrdinalInjective(DayAfter(d, periodEnd), same);
  }

  lemma MultiMonthShape(origination: Date, maturity: Date, holidays: seq<int>, convention: string)
    requires IsValidDate(origination) && IsValidDate(maturity)
    requires IsPeriodEndConvention(convention)
    requires !(origination.year == maturity.year && origination.month == maturity.month)
    ensures Spans(InterestPeriods(origination, maturity, holidays, convention).value,
                  ToOrdinal(origination), ToOrdinal(maturity), 1)
  {
    MultiMonthLoan(origination, maturity, holidays, convention);
    var firstPeriodEnd := PeriodEndDate(origination.year, origination.month, holidays, convention).value;
    var current := DayAfter(origination, firstPeriodEnd);
    LaterPeriodsShape(current, 2, maturity, holidays, convention);
    var rest := LaterPeriods(current, 2, maturity, holidays, convention);
    ConsSpans(MakePeriod(1, ToOrdinal(origination), firstPeriodEnd), rest, ToOrdinal(current), ToOrdinal(maturity), 1);
  }

  /** Period 1 starts at origination, the last period ends at maturity, and
      the periods are numbered 1..n, each due on its end date with an
      inclusive day count. */
  lemma InterestPeriodsShape(origination: Date, maturity: Date, holidays: seq<int>, convention: string)
    requires IsValidDate(origination) && IsValidDate(maturity)
    requires IsPeriodEndConvention(convention)
    ensures Spans(InterestPeriods(origination, maturity, holidays, convention).value,
                  ToOrdinal(origination), ToOrdinal(maturity), 1)
  {
    if origination.year == maturity.year && origination.month == maturity.month {
      SingleMonthLoan(origination, maturity, holidays, convention);
      var start := ToOrdinal(origination);
      var end := ToOrdinal(maturity);
      assert NumberedFrom([Period(1, start, end, end, end - start + 1)], 1);
    } else {
      MultiMonthShape(origination, maturity, holidays, convention);
    }
  }

  lemma MultiMonthTile(origination: Date, maturity: Date, holidays: seq<int>)
    requires IsValidDate(origination) && IsValidDate(maturity)
    requires !(origination.year == maturity.year && origination.month == maturity.month)
    ensures Tiles(InterestPeriods(origination, maturity, holidays, "calendar_month_end").value,
                  ToOrdinal(origination), ToOrdinal(maturity))
  {
    var convention := "calendar_month_end";
    MultiMonthLoan(origination, maturity, holidays, convention);
    var firstPeriodEnd := PeriodEndDate(origination.year, origination.month, holidays, convention).value;
    var current := DayAfter(origination, firstPeriodEnd);
    LaterPeriodsTile(current, 2, maturity, holidays);
    LaterPeriodsShape(current, 2, maturity, holidays, convention);
    var rest := LaterPeriods(current, 2, maturity, holidays, convention);
    ConsTiles(MakePeriod(1, ToOrdinal(origination), firstPeriodEnd), rest, ToOrdinal(current), ToOrdinal(maturity), 2);
  }

  /** Under "calendar_month_end" the periods tile the loan: each starts the
      day after the previous one ends, and the day counts add up to the
      inclusive span from origination to maturity. */
  lemma CalendarMonthEndPeriodsTile(origination: Date, maturity: Date, holidays: seq<int>)
    requires IsValidDate(origination) && IsValidDate(maturity)
    ensures Tiles(InterestPeriods(origination, maturity, holidays, "calendar_month_end").value,
                  ToOrdinal(origination), ToOrdinal(maturity))
  {
    if origination.year == maturity.year && origination.month == maturity.month {
      SingleMonthLoan(origination, maturity, holidays, "calendar_month_end");
      var start := ToOrdinal(origination);
      var end := ToOrdinal(maturity);
      assert SumDays([Period(1, start, end, end, end - start + 1)]) == end - start + 1;
    } else {
      MultiMonthTile(origination, maturity, holidays);
    }
  }
}
