# Floating-rate loan interest schedule

A Dafny model of the interest-schedule pipeline of a floating-rate,
interest-only loan:

- the US bank-holiday calendar and business-day arithmetic (`business_days.py`);
- the split of a loan's life into numbered monthly accrual periods under the
  "last_business_day" or "calendar_month_end" period-end convention
  (`loan_periods.py`);
- the index rate clamped to a floor and an optional ceiling plus the margin,
  and simple interest under actual/360, actual/365 or 30/360
  (`interest_calculations.py`);
- the `Loan` class, which derives its holidays and periods when it is
  created and prices each period at the index rate fixed two business days
  before the period starts (`loan.py`).

Dates are day numbers with 0001-01-01 as day 1, the numbering of Python's
`date.toordinal()`. Weekdays run from Monday = 0 to Sunday = 6.
`calendar.dfy` (module `Calendar`) replaces Python's `datetime` with:

- the proleptic Gregorian day numbering;
- its inverse, `FromOrdinal`, with the round trip proved;
- the weekday;
- first and last days of months;
- date order.

Money and rates are exact `real`s. A missing ceiling (Python's
`float('inf')` default) is `None`. Every `ValueError` that the code's own
`raise` statements produce is a `Failure` of a `Result` (`results.dfy`),
whose error names the cause. Errors that Python's `datetime` raises at the
ends of its date range are not modelled (see "## Left out").

The code's default arguments are default values of the Dafny parameters:

- `Loan` and `Loan.Create`: floor `0.0`, no ceiling (`None`), convention `"last_business_day"`;
- `InterestPeriods` and `GenerateInterestPeriods`: convention `"last_business_day"`;
- `EffectiveRate`: floor `0.0`, no ceiling (`None`);
- `PeriodInterest`: convention `"actual/360"`;
- `Loan.CalculateInterestScheduleFromRates`: `raiseOnMissing` is `true`.

Each loop of the code is a method whose `ensures` ties its result to a
recursive or comprehension-defined function. The properties are proved
about that function:

| method | function |
|---|---|
| `GetUsBankHolidays` | `UsBankHolidays` |
| `GetLastBusinessDayOfMonth` | `LastBusinessDayOfMonth` |
| `AddBusinessDays` | `BusinessDayOffset` |
| `GenerateInterestPeriods` | `InterestPeriods` |
| `Loan.GetRelevantHolidays` | `RelevantHolidays` |
| `Loan.CalculateInterestSchedule` | `InterestSchedule` |
| `Loan.GetRequiredSofrDates` | `RequiredSofrDates` |

`Loan` is a class whose fields the constructor sets, as `__init__` does.
Its `Valid()` invariant says four things:

- both dates are valid calendar dates;
- the period-end convention is one of the two known ones;
- the holidays are those of every year the loan covers;
- the periods are the ones generated from the loan's own dates, holidays and convention.

`scenarios.dfy` works through the repository's own unit-test cases for 2025.

## Model

| member | source | states |
|---|---|---|
| BusinessDays.FirstOccurrence | business_days.py:7-10 | The first occurrence of the weekday lies on days 1 to 7 of the month and has the requested weekday. |
| BusinessDays.NthWeekday | business_days.py:5-20 | The result always has the requested weekday. For n > 0 it is the first occurrence plus 7·(n−1) days. |
| BusinessDays.NthWeekdayIsLastOccurrence | business_days.py:14-20 | For n ≤ 0 the result is the last occurrence: it lies in the month, and the same weekday one week later is past the month's last day. |
| BusinessDays.FifthOccurrenceInMonth | business_days.py:15-18 | The fifth occurrence's date has the month's number exactly when its day number is at most the month's last day. So the model's day-number test is the code's `.month == month` test. |
| BusinessDays.MonthEnd | business_days.py:26-31 | The day before the first of the following month is the last day of the month, with December rolling over to January of the next year. |
| BusinessDays.PeriodEndDate | business_days.py:22-33 | It succeeds exactly for the two known conventions; any other convention fails with the invalid-convention error. "calendar_month_end" gives the month's last day. "last_business_day" gives a business day no later than the month's end, and no later day of the month is a business day. |
| BusinessDays.ObservedDate | business_days.py:56-62 | An observed holiday is a weekday within one day of its nominal date. It is unchanged exactly when the nominal date is a weekday. |
| BusinessDays.GetUsBankHolidays | business_days.py:36-64 | The observance loop returns the nominal list with each date moved to its observed day, in order. |
| BusinessDays.UsBankHolidaysObserved | business_days.py:39-64 | Every year has exactly ten observed holidays. Each is Monday–Friday and lies within one day of the nominal holiday at the same position. |
| BusinessDays.FloatingHolidays | business_days.py:48-52 | MLK Day and Presidents Day are Mondays on days 15–21. Memorial Day is the month's last Monday. Labor Day is a Monday on days 1–7. Thanksgiving is a Thursday on days 22–28. |
| BusinessDays.LastBusinessDayOnOrBefore | business_days.py:76-79 | The backward search returns a business day no later than its start, with no business day between the two. |
| BusinessDays.GetLastBusinessDayOfMonth | business_days.py:67-79 | The decrementing loop returns the last business day of the month. |
| BusinessDays.StepBusinessDaysCounts | business_days.py:89-92 | The stepping loop ends on a business day on the side of the step. It crosses exactly the requested number of business days. |
| BusinessDays.BusinessDayOffsetSpec | business_days.py:83-94 | Zero days returns the start date. Otherwise the result is a business day strictly after (days > 0) or before (days < 0) the start. Exactly abs(days) business days lie from the start (exclusive) to the result (inclusive). |
| BusinessDays.AddBusinessDays | business_days.py:83-94 | The loop returns the business-day offset of the start date. |
| LoanPeriods.DayAfter | loan_periods.py:43 | The day after a period end, as a date, is valid and has the next day number. |
| LoanPeriods.InterestPeriods | loan_periods.py:6-75 | Period generation succeeds exactly for a known period-end convention; otherwise it fails with the invalid-convention error. |
| LoanPeriods.GenerateInterestPeriods | loan_periods.py:6-75 | The method returns exactly the periods the model defines: first period, single-month replacement, middle periods, final period. |
| LoanPeriods.AppendMiddlePeriods | loan_periods.py:44-61 | The middle-period loop stops at the first start no earlier than the maturity month. The built periods plus those still to come stay the same throughout. |
| LoanPeriods.LaterPeriodsStep | loan_periods.py:44-56 | While the start is before the maturity month, the next period runs from the start to the start month's period end. |
| LoanPeriods.LaterPeriodsFinal | loan_periods.py:63-73 | Once the start reaches the maturity month, the final period runs from the start to maturity. |
| LoanPeriods.MonthLoopStep | loan_periods.py:44-61 | One loop turn keeps the built periods followed by the remaining ones unchanged. |
| LoanPeriods.NextMonthFirstFollows | loan_periods.py:58-61 | The month-advance step lands on the day after the current month's last day. |
| LoanPeriods.LaterPeriodsShape | loan_periods.py:44-73 | The periods from the loop on form a run from the loop's start to maturity. They are numbered consecutively, each is due on its end date, and each counts both ends in `days`. |
| LoanPeriods.LaterPeriodsTile | loan_periods.py:44-73 | Under "calendar_month_end" the periods from the loop on are contiguous, and their days add up to the span from the loop's start to maturity. |
| LoanPeriods.SingleMonthLoan | loan_periods.py:30-39 | Origination and maturity in the same month give exactly one period, from origination to maturity. |
| LoanPeriods.MultiMonthLoan | loan_periods.py:17-64 | Otherwise the first period runs from origination to the origination month's period end. The month loop starts the next day with period number 2. |
| LoanPeriods.MultiMonthResult | loan_periods.py:17-75 | The first period followed by the loop's periods is the successful result. |
| LoanPeriods.LastBusinessDayStubRepeatsMonth | loan_periods.py:43-53 | Under "last_business_day", suppose the origination month ends after its last business day and maturity is in a later month. Then the second period starts the day after period 1 ends, ends on the same day as period 1, and counts 0 days. |
| LoanPeriods.DayAfterInSameMonth | loan_periods.py:43 | The day after a day that precedes the month's last day is still in that month. |
| LoanPeriods.MultiMonthShape | loan_periods.py:17-73 | For loans over several months, period 1 starts at origination, the last period ends at maturity, and the periods are numbered 1..n. |
| LoanPeriods.InterestPeriodsShape | loan_periods.py:14-73 | For every loan, period 1 starts at origination and the last period ends at maturity. Periods are numbered 1..n with no gap, each is due on its end date, and `days` = end − start + 1. |
| LoanPeriods.MultiMonthTile | loan_periods.py:17-73 | Under "calendar_month_end" with several months, the periods are contiguous and their days sum to maturity − origination + 1. |
| LoanPeriods.CalendarMonthEndPeriodsTile | loan_periods.py:30-73 | Under "calendar_month_end" every loan's periods are contiguous, and their days sum to maturity − origination + 1. |
| InterestCalculations.EffectiveRate | interest_calculations.py:4-17 | The rate is at least floor + margin. When floor ≤ ceiling it is at most ceiling + margin; when floor > ceiling it is floor + margin. Inside the bounds the index passes through; below the floor or above the ceiling it is replaced by that bound. |
| InterestCalculations.PeriodInterest | interest_calculations.py:20-56 | It succeeds exactly for the three day-count conventions; any other fails with the unsupported-convention error. actual/360 and 30/360 give principal · rate · days / 360, and actual/365 gives the same over 365. |
| InterestCalculations.ThirtyThreeSixtyIsActualThreeSixty | interest_calculations.py:46-54 | 30/360 gives the same interest as actual/360. |
| InterestCalculations.NoDaysNoInterest | interest_calculations.py:46-54 | A period of zero days accrues zero interest. |
| InterestCalculations.InterestAdditiveInPrincipal | interest_calculations.py:47 | Interest is additive in the principal. |
| InterestCalculations.InterestAdditiveInDays | interest_calculations.py:47 | Interest is additive in the day count. |
| InterestCalculations.EffectiveRateExamples | test_loan_system.py:75-88 | 4.5% inside [0%, 8%] plus 2.5% is 7%. 0.5% under a 1% floor gives 3.5%. 9% over an 8% ceiling gives 10.5%. With no ceiling, 9% gives 11.5%. |
| InterestCalculations.PeriodInterestExamples | test_loan_system.py:90-98 | $1,000,000 at 7% under actual/360 is 5833.33 to the cent for 30 days and 3305.56 for 17 days. |
| Loans.RelevantHolidaysStep | loan.py:57-58 | Covering one more year appends that year's observed holidays. |
| Loans.EveryYearHasTenHolidays | business_days.py:39-64 | Each year contributes ten holidays. |
| Loans.RelevantHolidaysLength | loan.py:54-59 | The loan's holiday list has ten entries per covered year, and none when maturity's year is before origination's. |
| Loans.RelevantHolidaysOfYear | loan.py:54-59 | Entries 10·k to 10·k + 9 are the observed holidays of the k-th covered year. |
| Loans.ResetDateBeforeStart | loan.py:81-85 | A period's reset date is a business day strictly before its start. Exactly two business days lie from the reset date up to the start. |
| Loans.ScheduleSucceedsIffRatesPresent | loan.py:79-92 | The schedule exists exactly when every period's reset date has a rate. |
| Loans.ScheduleEntries | loan.py:79-121 | A successful schedule has one entry per period, in period order. Each entry keeps its period, carries its reset date and the rate for it, and uses the effective rate from floor, ceiling and margin. Its interest is principal · effective rate · days / 360. |
| Loans.MissingRateFails | loan.py:89-92 | The first period whose reset date has no rate makes the schedule fail with that date. |
| Loans.MissingDates | loan.py:148 | The missing dates are exactly the required dates that have no rate. |
| Loans.ScheduleSucceedsIffNoneMissing | loan.py:147-150 | The schedule exists exactly when no required reset date is missing. |
| Loans.Loan.constructor | loan.py:11-51 | The loan stores its terms unchanged. Its holidays cover the years from origination to maturity, and its periods are generated from its dates, holidays and convention. |
| Loans.Loan.Create | loan.py:11-51 | Creation succeeds exactly for a known period-end convention; otherwise it fails with the invalid-convention error. A created loan is valid and keeps all its terms: id, borrower, principal, margin, both dates, floor, ceiling and convention. |
| Loans.Loan.GetRelevantHolidays | loan.py:54-59 | The year loop returns the observed holidays of each covered year, in year order. |
| Loans.Loan.GeneratePeriods | loan.py:62-69 | Returns the periods generated from the loan's dates, holidays and convention. |
| Loans.Loan.CalculateInterestSchedule | loan.py:72-123 | The loop returns the schedule of the loan's periods, or fails at the first reset date with no rate. |
| Loans.Loan.GetRequiredSofrDates | loan.py:160-176 | Returns each period's reset date, in period order. |
| Loans.Loan.CalculateInterestScheduleFromRates | loan.py:126-158 | With no missing dates it returns the schedule. With missing dates it always fails: with all of them when raise_on_missing is set, and otherwise through the schedule's own missing-rate error. |
| Scenarios.MlkDay2025 | test_loan_system.py:59-63 | The third Monday of January 2025 is January 20. |
| Scenarios.PresidentsDay2025 | business_days.py:49 | The third Monday of February 2025 is February 17. |
| Scenarios.MemorialDay2025 | test_loan_system.py:65-69 | The last Monday of May 2025 is May 26. |
| Scenarios.LaborDay2025 | business_days.py:51 | The first Monday of September 2025 is September 1. |
| Scenarios.Thanksgiving2025 | business_days.py:52 | The fourth Thursday of November 2025 is November 27. |
| Scenarios.NominalHolidays2025 | business_days.py:39-52 | The ten nominal holidays of 2025, in list order. |
| Scenarios.UsBankHolidays2025 | test_loan_system.py:24-33 | 2025 has ten observed holidays, equal to the nominal ones, and January 20 is among them. |
| Scenarios.LastBusinessDayJanuary2025 | test_loan_system.py:35-39 | The last business day of January 2025 is January 31. |
| Scenarios.PeriodEndJanuary2025 | business_days.py:24-25 | Under "last_business_day", January 2025's period ends on January 31. |
| Scenarios.LastBusinessDayAugust2025 | test_loan_system.py:41-45 | August 31, 2025 is a Sunday, so August's last business day is the 29th. |
| Scenarios.BusinessDaysForward2025 | test_loan_system.py:47-51 | Two business days after January 31, 2025 is February 4. |
| Scenarios.BusinessDaysBackward2025 | test_loan_system.py:53-57 | Two business days before February 3, 2025 is January 30. |
| Scenarios.DayAfterJanuary2025 | loan_periods.py:43 | The day after January 31, 2025 is February 1. |
| Scenarios.MidMonthStartLoop2025 | test_loan_system.py:108-126 | For a loan from January 15 to March 31, 2025, the month loop gives February 1–28 as period 2 and March 1–31 as period 3. |
| Scenarios.SingleMonth2025 | test_loan_system.py:128-139 | A loan from January 15 to January 31, 2025 has the single period January 15–31. |

## Left out

- Python `datetime` itself:
  - dates are plain (year, month, day) values and day numbers, with no time of day;
  - the range limit of years 1 to 9999 is not modelled: at year 9999, `datetime(year + 1, 1, 1)` (business_days.py:29, business_days.py:71, loan_periods.py:59) raises `ValueError`, and `timedelta` arithmetic past either end raises `OverflowError`; neither is a `Failure` in the model;
  - holidays are compared as day numbers, which matches comparing midnight `datetime`s.
- Binary floating point: rates and amounts are exact reals. The unit tests' two-decimal checks become interval bounds.
- The text of `ValueError` messages and the date formatting inside them. Each error is a `Result` failure naming its cause and, for missing rates, the dates.
- `calculate_interest_schedule_from_file`:
  - the CSV load (`sofr_rates.py`) is replaced by a map passed in;
  - the warning `print` on the non-raising path is not modelled.
- Loans.Loan.constructor: requires a known period-end convention. The raising path of `__init__`, where period generation rejects the convention, is `Loans.Loan.Create`.
- LoanPeriods.CalendarMonthEndPeriodsTile: contiguity and the day-count sum are proved only under "calendar_month_end", because the code does not guarantee them under "last_business_day":
  - after each middle period that ends before the month's last day, the next period starts on the 1st;
  - a short second period is possible, as `LoanPeriods.LastBusinessDayStubRepeatsMonth` shows.
- BusinessDays.NthWeekday: tests whether the fifth occurrence is still in the month by comparing day numbers, not through the month of the date. `BusinessDays.FifthOccurrenceInMonth` proves the two tests agree.
- LoanPeriods.GenerateInterestPeriods: the middle-period loop sits in its own method, `LoanPeriods.AppendMiddlePeriods`, so that each proof stays small. The statements and their order are the code's.
- Scenarios.MidMonthStartLoop2025: the three-period test for January 15 to March 31, 2025 is proved in parts. `Scenarios.PeriodEndJanuary2025` gives the 17-day first period. `Scenarios.DayAfterJanuary2025` gives the loop start of February 1. `Scenarios.MidMonthStartLoop2025` gives the loop's periods. `LoanPeriods.MultiMonthResult` states how these compose. No single lemma states the generated list for these literal dates, because that proof exceeds the solver budget.
- PIK interest, interest prepayment, principal-prepayment segments and payment status are not in the `Loan` class of `loan.py`, which takes none of these terms. `payments.py`, `pik_elections.py`, `sofr_rates.py`, `loan_export.py`, `cli.py` and `main.py` (file I/O, printing, clock reads) are not part of this model.
- The loan id and borrower name are stored and never used, as in the code.
