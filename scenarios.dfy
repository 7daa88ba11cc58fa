/** Concrete dates of 2025 worked through the model: the holiday list, the
    weekday search, business-day stepping and period generation. Dates are
    written as day numbers (those of Python's `date.toordinal()`);
    `DayNumbers2025` ties each one used here to its calendar date. */
module Scenarios {
  import opened Results
  import opened Calendar
  import opened BusinessDays
  import opened LoanPeriods

  /** The observed holidays of 2025, none of which falls on a weekend:
      New Year's Day, Juneteenth, Independence Day, Veterans Day, Christmas,
      MLK Day, Presidents Day, Memorial Day, Labor Day, Thanksgiving. */
  const Holidays2025: seq<int> :=
    [739252, 739421, 739436, 739566, 739610, 739271, 739299, 739397, 739495, 739582]

  /** The calendar dates behind the day numbers used below; 2025-01-01 is a
      Wednesday. */
  lemma DayNumbers2025()
    ensures ToOrdinal(Date(2025, 1, 1)) == 739252 && Weekday(739252) == 2
    ensures ToOrdinal(Date(2025, 1, 15)) == 739266
    ensures ToOrdinal(Date(2025, 1, 20)) == 739271 && Weekday(739271) == 0
    ensures ToOrdinal(Date(2025, 1, 30)) == 739281
    ensures ToOrdinal(Date(2025, 1, 31)) == 739282
    ensures ToOrdinal(Date(2025, 2, 1)) == 739283
    ensures ToOrdinal(Date(2025, 2, 3)) == 739285
    ensures ToOrdinal(Date(2025, 2, 4)) == 739286
    ensures ToOrdinal(Date(2025, 2, 28)) == 739310
    ensures ToOrdinal(Date(2025, 3, 1)) == 739311
    ensures ToOrdinal(Date(2025, 3, 31)) == 739341
    ensures ToOrdinal(Date(2025, 5, 26)) == 739397
    ensures ToOrdinal(Date(2025, 8, 29)) == 739492
  {
  }

  /** MLK Day 2025 is the third Monday of January, January 20. */
  lemma MlkDay2025()
    ensures NthWeekday(2025, 1, 0, 3) == 739271
  {
    assert FirstOfMonth(2025, 1) == 739252;
    assert Weekday(739252) == 2;
    assert FirstOccurrence(2025, 1, 0) == 739257;
  }

  /** Presidents Day 2025 is the third Monday of February, February 17. */
  lemma PresidentsDay2025()
    ensures NthWeekday(2025, 2, 0, 3) == 739299
  {
    assert FirstOfMonth(2025, 2) == 739283;
    assert Weekday(739283) == 5;
    assert FirstOccurrence(2025, 2, 0) == 739285;
  }

  /** Memorial Day 2025 is the last Monday of May, May 26: the fifth Monday
      would be June 2. */
  lemma MemorialDay2025()
    ensures NthWeekday(2025, 5, 0, -1) == 739397
  {
    assert FirstOfMonth(2025, 5) == 739372;
    assert Weekday(739372) == 3;
    assert FirstOccurrence(2025, 5, 0) == 739376;
    assert LastOfMonth(2025, 5) == 739402;
  }

  /** Labor Day 2025 is September 1, itself a Monday. */
  lemma LaborDay2025()
    ensures NthWeekday(2025, 9, 0, 1) == 739495
  {
    assert FirstOfMonth(2025, 9) == 739495;
    assert Weekday(739495) == 0;
    assert FirstOccurrence(2025, 9, 0) == 739495;
  }

  /** Thanksgiving 2025 is the fourth Thursday of November, November 27. */
  lemma Thanksgiving2025()
    ensures NthWeekday(2025, 11, 3, 4) == 739582
  {
    assert FirstOfMonth(2025, 11) == 739556;
    assert Weekday(739556) == 5;
    assert FirstOccurrence(2025, 11, 3) == 739561;
  }

  /** The five fixed-date holidays of 2025. */
  lemma FixedHolidays2025()
    ensures NominalHoliday(2025, 0) == 739252 && NominalHoliday(2025, 1) == 739421
    ensures NominalHoliday(2025, 2) == 739436 && NominalHoliday(2025, 3) == 739566
    ensures NominalHoliday(2025, 4) == 739610
  {
  }

  /** The 2025 holidays before weekend observance. */
  lemma NominalHolidays2025()
    ensures NominalHolidays(2025) == Holidays2025
  {
    forall i | 0 <= i < 10
      ensures NominalHolidays(2025)[i] == Holidays2025[i]
    {
      if i < 5 {
        FixedHolidays2025();
      } else if i == 5 {
        MlkDay2025();
      } else if i == 6 {
        PresidentsDay2025();
      } else if i == 7 {
        MemorialDay2025();
      } else if i == 8 {
        LaborDay2025();
      } else if i == 9 {
        Thanksgiving2025();
      }
    }
  }

  /** No 2025 holiday falls on a weekend, so the observed list is the
      nominal one; it has ten entries, MLK Day among them. */
  lemma UsBankHolidays2025()
    ensures UsBankHolidays(2025) == Holidays2025
    ensures |UsBankHolidays(2025)| == 10 && 739271 in UsBankHolidays(2025)
  {
    NominalHolidays2025();
    forall i | 0 <= i < 10
      ensures UsBankHolidays(2025)[i] == Holidays2025[i]
    {
      assert Weekday(Holidays2025[i]) < 5;
    }
  }

  /** January 31, 2025 is a Friday and the last business day of January. */
  lemma LastBusinessDayJanuary2025(h: seq<int>)
    requires h == Holidays2025
    ensures LastBusinessDayOfMonth(2025, 1, h) == 739282
  {
    assert MonthEnd(2025, 1) == 739282;
    assert IsBusinessDay(739282, h);
  }

  /** Under "last_business_day" the January 2025 period ends on January 31. */
  lemma PeriodEndJanuary2025(h: seq<int>)
    requires h == Holidays2025
    ensures PeriodEndDate(2025, 1, h, "last_business_day") == Success(739282)
  {
    LastBusinessDayJanuary2025(h);
  }

  /** August 31, 2025 is a Sunday, so the last business day of August is
      Friday the 29th. */
  lemma LastBusinessDayAugust2025(h: seq<int>)
    requires h == Holidays2025
    ensures LastBusinessDayOfMonth(2025, 8, h) == 739492
  {
    assert MonthEnd(2025, 8) == 739494;
    assert Weekday(739494) == 6 && Weekday(739493) == 5;
    assert IsBusinessDay(739492, h);
    assert LastBusinessDayOnOrBefore(739492, h) == 739492;
    assert LastBusinessDayOnOrBefore(739493, h) == 739492;
  }

  /** Two business days after Friday January 31 is Tuesday February 4. */
  lemma BusinessDaysForward2025(h: seq<int>)
    requires h == Holidays2025
    ensures BusinessDayOffset(739282, 2, h) == 739286
  {
    assert Weekday(739283) == 5 && Weekday(739284) == 6;
    assert IsBusinessDay(739285, h) && IsBusinessDay(739286, h);
    assert StepBusinessDays(739285, 1, 1, h) == 739286;
    assert StepBusinessDays(739284, 2, 1, h) == 739286;
    assert StepBusinessDays(739283, 2, 1, h) == 739286;
  }

  /** Two business days before Monday February 3 is Thursday January 30. */
  lemma BusinessDaysBackward2025(h: seq<int>)
    requires h == Holidays2025
    ensures BusinessDayOffset(739285, -2, h) == 739281
  {
    assert Weekday(739283) == 5 && Weekday(739284) == 6;
    assert IsBusinessDay(739282, h) && IsBusinessDay(739281, h);
    assert StepBusinessDays(739282, 1, -1, h) == 739281;
    assert StepBusinessDays(739283, 2, -1, h) == 739281;
    assert StepBusinessDays(739284, 2, -1, h) == 739281;
  }

  /** The month loop of the January 15 to March 31, 2025 loan: a February
      period, then the final March period. */
  lemma MidMonthStartLoop2025(h: seq<int>)
    requires h == Holidays2025
    ensures LaterPeriods(Date(2025, 2, 1), 2, Date(2025, 3, 31), h, "last_business_day")
            == [MakePeriod(2, 739283, 739310), MakePeriod(3, 739311, 739341)]
  {
    assert MonthEnd(2025, 2) == 739310 && IsBusinessDay(739310, h);
    assert PeriodEndDate(2025, 2, h, "last_business_day").value == 739310;
    LaterPeriodsStep(Date(2025, 2, 1), 2, Date(2025, 3, 31), h, "last_business_day");
    LaterPeriodsFinal(Date(2025, 3, 1), 3, Date(2025, 3, 31), h, "last_business_day");
    assert ToOrdinal(Date(2025, 2, 1)) == 739283 && ToOrdinal(Date(2025, 3, 1)) == 739311;
    assert ToOrdinal(Date(2025, 3, 31)) == 739341;
  }

  /** The day after January 31, 2025 is February 1. */
  lemma DayAfterJanuary2025(periodEnd: int)
    requires periodEnd == 739282
    ensures DayAfter(Date(2025, 1, 15), periodEnd) == Date(2025, 2, 1)
  {
    assert ToOrdinal(Date(2025, 2, 1)) == 739283;
    OrdinalInjective(DayAfter(Date(2025, 1, 15), periodEnd), Date(2025, 2, 1));
  }

  /** A loan from January 15 to January 31, 2025 has, under the default
      period-end convention, the single period January 15 to January 31. */
  lemma SingleMonth2025(h: seq<int>)
    requires h == Holidays2025
    ensures InterestPeriods(Date(2025, 1, 15), Date(2025, 1, 31), h)
            == Success([MakePeriod(1, 739266, 739282)])
  {
    LastBusinessDayJanuary2025(h);
    assert ToOrdinal(Date(2025, 1, 15)) == 739266 && ToOrdinal(Date(2025, 1, 31)) == 739282;
  }
}
