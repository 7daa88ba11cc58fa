/** The floating-rate loan and its interest schedule (loan.py): holidays for
    every year of the loan, the monthly periods, a rate-reset date two
    business days before each period start, and one schedule entry per
    period priced from a map of reset dates to index rates. */
module Loans {
  import opened Results
  import opened Calendar
  import opened BusinessDays
  import opened LoanPeriods
  import opened InterestCalculations

  // ---------------------------------------------------------------------------
  // Holidays for the years a loan covers
  // ---------------------------------------------------------------------------

  /** The lists `yearly(firstYear)` through `yearly(lastYear)` joined in year
      order; empty when `firstYear` is after `lastYear`. */
  function YearByYear(yearly: int -> seq<int>, firstYear: int, lastYear: int): seq<int>
    decreases lastYear - firstYear
  {
    if lastYear < firstYear then []
    else YearByYear(yearly, firstYear, lastYear - 1) + yearly(lastYear)
  }

  /** With `n` entries per year, the joined list has `n` per covered year. */
  lemma {:induction false} YearByYearLength(yearly: int -> seq<int>, n: nat, firstYear: int, lastYear: int)
    requires forall y :: |yearly(y)| == n
    ensures |YearByYear(yearly, firstYear, lastYear)| == if lastYear < firstYear then 0 else n * (lastYear - firstYear + 1)
    decreases lastYear - firstYear
  {
    if firstYear <= lastYear {
      YearByYearLength(yearly, n, firstYear, lastYear - 1);
    }
  }

  /** Each year's list sits, unchanged, right after the lists of the years
      before it. */
  lemma {:induction false} YearByYearBlock(yearly: int -> seq<int>, firstYear: int, lastYear: int, year: int)
    requires firstYear <= year <= lastYear
    ensures var hs := YearByYear(yearly, firstYear, lastYear);
      var i := |YearByYear(yearly, firstYear, year - 1)|;
      i + |yearly(year)| <= |hs| && hs[i..i + |yearly(year)|] == yearly(year)
    decreases lastYear - firstYear
  {
    var earlier := YearByYear(yearly, firstYear, lastYear - 1);
    if year < lastYear {
      YearByYearBlock(yearly, firstYear, lastYear - 1, year);
      var i := |YearByYear(yearly, firstYear, year - 1)|;
      assert (earlier + yearly(lastYear))[i..i + |yearly(year)|] == earlier[i..i + |yearly(year)|];
    } else {
      assert (earlier + yearly(lastYear))[|earlier|..|earlier| + |yearly(year)|] == yearly(lastYear);
    }
  }

  /** The observed holidays of `firstYear` through `lastYear`, year after year. */
  function RelevantHolidays(firstYear: int, lastYear: int): seq<int> {
    YearByYear(UsBankHolidays, firstYear, lastYear)
  }

  /** One more year appends that year's holidays. */
  lemma RelevantHolidaysStep(firstYear: int, year: int)
    requires firstYear <= year
    ensures RelevantHolidays(firstYear, year) == RelevantHolidays(firstYear, year - 1) + UsBankHolidays(year)
  {
  }

  lemma EveryYearHasTenHolidays()
    ensures forall y :: |UsBankHolidays(y)| == 10
  {
    forall y ensures |UsBankHolidays(y)| == 10 {
      UsBankHolidaysObserved(y);
    }
  }

  /** Ten holidays per year covered. */
  lemma RelevantHolidaysLength(firstYear: int, lastYear: int)
    ensures |RelevantHolidays(firstYear, lastYear)| == if lastYear < firstYear then 0 else 10 * (lastYear - firstYear + 1)
  {
    EveryYearHasTenHolidays();
    YearByYearLength(UsBankHolidays, 10, firstYear, lastYear);
  }

  /** The holidays of each covered year occupy their own block of ten, in
      year order. */
  lemma RelevantHolidaysOfYear(firstYear: int, lastYear: int, year: int)
    requires firstYear <= year <= lastYear
    ensures var hs := RelevantHolidays(firstYear, lastYear);
      var i := 10 * (year - firstYear);
      i + 10 <= |hs| && hs[i..i + 10] == UsBankHolidays(year)
  {
    EveryYearHasTenHolidays();
    YearByYearLength(UsBankHolidays, 10, firstYear, year - 1);
    assert |YearByYear(UsBankHolidays, firstYear, year - 1)| == 10 * (year - firstYear);
    YearByYearBlock(UsBankHolidays, firstYear, lastYear, year);
  }

  // ---------------------------------------------------------------------------
  // Rate-reset dates and schedule entries
  // ---------------------------------------------------------------------------

  /** The index-rate reset date of a period: two business days before its start. */
  function ResetDate(startDate: int, holidays: seq<int>): int {
    BusinessDayOffset(startDate, -2, holidays)
  }

  /** The reset date is a business day before the period start, with exactly
      two business days from it up to the start. */
  lemma ResetDateBeforeStart(startDate: int, holidays: seq<int>)
    ensures var r := ResetDate(startDate, holidays);
      r < startDate && IsBusinessDay(r, holidays) && BusinessDaysIn(r, startDate, holidays) == 2
  {
    BusinessDayOffsetSpec(startDate, -2, holidays);
  }

  /** The reset dates of all periods, in period order. */
  function RequiredSofrDates(periods: seq<Period>, holidays: seq<int>): seq<int> {
    seq(|periods|, i requires 0 <= i < |periods| => ResetDate(periods[i].startDate, holidays))
  }

  /** A period together with its reset date, index rate, effective rate and
      interest amount. */
  datatype ScheduleEntry = ScheduleEntry(period: Period, sofrResetDate: int, sofrRate: real,
                                         effectiveRate: real, interestAmount: real)

  /** The entry of `period` priced at index rate `sofrRate`, with interest on
      the full principal under actual/360. */
  function ScheduleEntryFor(period: Period, resetDate: int, sofrRate: real,
                            principal: real, margin: real, floor: real, ceiling: Option<real>): ScheduleEntry
  {
    var effectiveRate := EffectiveRate(sofrRate, margin, floor, ceiling);
    ScheduleEntry(period, resetDate, sofrRate, effectiveRate,
                  PeriodInterest(principal, effectiveRate, period.days, "actual/360").value)
  }

  /** The schedule of `periods`: their entries in order, or the first reset
      date missing from `sofrRates`. */
  function InterestSchedule(periods: seq<Period>, holidays: seq<int>, sofrRates: map<int, real>,
                            principal: real, margin: real, floor: real, ceiling: Option<real>)
    : Result<seq<ScheduleEntry>>
    decreases |periods|
  {
    if periods == [] then Success([])
    else
      var earlier :- InterestSchedule(periods[..|periods| - 1], holidays, sofrRates, principal, margin, floor, ceiling);
      var period := periods[|periods| - 1];
      var resetDate := ResetDate(period.startDate, holidays);
      if resetDate !in sofrRates then Failure(MissingSofrRate(resetDate))
      else Success(earlier + [ScheduleEntryFor(period, resetDate, sofrRates[resetDate], principal, margin, floor, ceiling)])
  }

  /** The schedule exists exactly when every period's reset date has a rate. */
  lemma {:induction false} ScheduleSucceedsIffRatesPresent(periods: seq<Period>, holidays: seq<int>,
                                                           sofrRates: map<int, real>, principal: real,
                                                           margin: real, floor: real, ceiling: Option<real>)
    ensures InterestSchedule(periods, holidays, sofrRates, principal, margin, floor, ceiling).Success?
            <==> forall i :: 0 <= i < |periods| ==> ResetDate(periods[i].startDate, holidays) in sofrRates
    decreases |periods|
  {
    if periods != [] {
      var earlier := periods[..|periods| - 1];
      ScheduleSucceedsIffRatesPresent(earlier, holidays, sofrRates, principal, margin, floor, ceiling);
      assert forall i :: 0 <= i < |earlier| ==> earlier[i] == periods[i];
    }
  }

  /** `entry` is the entry of `period`: the period unchanged, reset two
      business days before the period start at a rate present in the map,
      and accruing the principal times the clamped rate plus margin over
      the period's days on a 360-day year. */
  predicate IsEntryOf(entry: ScheduleEntry, period: Period, holidays: seq<int>, sofrRates: map<int, real>,
                      principal: real, margin: real, floor: real, ceiling: Option<real>)
  {
    && entry.period == period
    && entry.sofrResetDate == ResetDate(period.startDate, holidays)
    && entry.sofrResetDate in sofrRates
    && entry.sofrRate == sofrRates[entry.sofrResetDate]
    && entry.effectiveRate == EffectiveRate(entry.sofrRate, margin, floor, ceiling)
    && entry.interestAmount * 360.0 == principal * entry.effectiveRate * period.days as real
  }

  /** A successful schedule has one entry per period, in period order. */
  lemma {:induction false} ScheduleEntries(periods: seq<Period>, holidays: seq<int>, sofrRates: map<int, real>,
                                           principal: real, margin: real, floor: real, ceiling: Option<real>)
    requires InterestSchedule(periods, holidays, sofrRates, principal, margin, floor, ceiling).Success?
    ensures var entries := InterestSchedule(periods, holidays, sofrRates, principal, margin, floor, ceiling).value;
      && |entries| == |periods|
      && forall i :: 0 <= i < |periods| ==>
           IsEntryOf(entries[i], periods[i], holidays, sofrRates, principal, margin, floor, ceiling)
    decreases |periods|
  {
    if periods != [] {
      var n := |periods| - 1;
      var earlier := periods[..n];
      ScheduleEntries(earlier, holidays, sofrRates, principal, margin, floor, ceiling);
      var earlierEntries := InterestSchedule(earlier, holidays, sofrRates, principal, margin, floor, ceiling).value;
      var resetDate := ResetDate(periods[n].startDate, holidays);
      var last := ScheduleEntryFor(periods[n], resetDate, sofrRates[resetDate], principal, margin, floor, ceiling);
      assert InterestSchedule(periods, holidays, sofrRates, principal, margin, floor, ceiling).value
             == earlierEntries + [last];
      assert IsEntryOf(last, periods[n], holidays, sofrRates, principal, margin, floor, ceiling);
      forall i | 0 <= i < n
        ensures IsEntryOf((earlierEntries + [last])[i], periods[i], holidays, sofrRates, principal, margin, floor, ceiling)
      {
        assert earlier[i] == periods[i];
      }
    }
  }

  /** Once the period at `missing` lacks a rate, every longer prefix of the
      periods fails with that period's reset date. */
  lemma {:induction false} MissingRateFails(periods: seq<Period>, missing: int, upTo: int, holidays: seq<int>,
                                            sofrRates: map<int, real>, principal: real, margin: real,
                                            floor: real, ceiling: Option<real>)
    requires 0 <= missing < upTo <= |periods|
    requires InterestSchedule(periods[..missing], holidays, sofrRates, principal, margin, floor, ceiling).Success?
    requires ResetDate(periods[missing].startDate, holidays) !in sofrRates
    ensures InterestSchedule(periods[..upTo], holidays, sofrRates, principal, margin, floor, ceiling)
            == Failure(MissingSofrRate(ResetDate(periods[missing].startDate, holidays)))
    decreases upTo
  {
    assert periods[..upTo][..upTo - 1] == periods[..upTo - 1];
    if missing < upTo - 1 {
      MissingRateFails(periods, missing, upTo - 1, holidays, sofrRates, principal, margin, floor, ceiling);
    }
  }

  /** The reset dates among `dates` that have no rate, in their order. */
  function MissingDates(dates: seq<int>, sofrRates: map<int, real>): (missing: seq<int>)
    ensures |missing| <= |dates|
    ensures forall d :: d in missing <==> d in dates && d !in sofrRates
  {
    if dates == [] then []
    else
      var rest := MissingDates(dates[1..], sofrRates);
      if dates[0] in sofrRates then rest else [dates[0]] + rest
  }

  /** The schedule exists exactly when no required reset date is missing. */
  lemma ScheduleSucceedsIffNoneMissing(periods: seq<Period>, holidays: seq<int>, sofrRates: map<int, real>,
                                       principal: real, margin: real, floor: real, ceiling: Option<real>)
    ensures InterestSchedule(periods, holidays, sofrRates, principal, margin, floor, ceiling).Success?
            <==> MissingDates(RequiredSofrDates(periods, holidays), sofrRates) == []
  {
    ScheduleSucceedsIffRatesPresent(periods, holidays, sofrRates, principal, margin, floor, ceiling);
    var required := RequiredSofrDates(periods, holidays);
    var missing := MissingDates(required, sofrRates);
    if missing != [] {
      assert missing[0] in missing;
    } else {
      forall i | 0 <= i < |periods|
        ensures ResetDate(periods[i].startDate, holidays) in sofrRates
      {
        assert required[i] in required;
      }
    }
  }

  // ---------------------------------------------------------------------------
  // The loan
  // ---------------------------------------------------------------------------

  class Loan {
    var loanId: string
    var borrower: string
    var principal: real
    var margin: real
    var originationDate: Date
    var maturityDate: Date
    var sofrFloor: real
    var sofrCeiling: Option<real>
    var periodEndConvention: string
    var holidays: seq<int>
    var periods: seq<Period>

    /** The holidays cover the loan's years and the periods are those
        generated from the loan's dates, holidays and convention. */
    predicate Valid()
      reads this
    {
      && IsValidDate(originationDate) && IsValidDate(maturityDate)
      && IsPeriodEndConvention(periodEndConvention)
      && holidays == RelevantHolidays(originationDate.year, maturityDate.year)
      && InterestPeriods(originationDate, maturityDate, holidays, periodEndConvention) == Success(periods)
    }

    /** Stores the terms, then derives the holidays and the periods. */
    constructor(loanId: string, borrower: string, principal: real, margin: real,
                originationDate: Date, maturityDate: Date, sofrFloor: real := 0.0, sofrCeiling: Option<real> := None,
                periodEndConvention: string := "last_business_day")
      requires IsValidDate(originationDate) && IsValidDate(maturityDate)
      requires IsPeriodEndConvention(periodEndConvention)
      ensures Valid()
      ensures this.loanId == loanId && this.borrower == borrower
      ensures this.principal == principal && this.margin == margin
      ensures this.originationDate == originationDate && this.maturityDate == maturityDate
      ensures this.sofrFloor == sofrFloor && this.sofrCeiling == sofrCeiling
      ensures this.periodEndConvention == periodEndConvention
    {
      this.loanId := loanId;
      this.borrower := borrower;
      this.principal := principal;
      this.margin := margin;
      this.originationDate := originationDate;
      this.maturityDate := maturityDate;
      this.sofrFloor := sofrFloor;
      this.sofrCeiling := sofrCeiling;
      this.periodEndConvention := periodEndConvention;
      new;
      holidays := GetRelevantHolidays();
      var generated := GeneratePeriods();
      periods := generated.value;
    }

    /** Loan creation as the caller sees it: an unknown period-end convention
        makes period generation, and so the whole construction, fail. */
    static method Create(loanId: string, borrower: string, principal: real, margin: real,
                         originationDate: Date, maturityDate: Date, sofrFloor: real := 0.0, sofrCeiling: Option<real> := None,
                         periodEndConvention: string := "last_business_day")
      returns (r: Result<Loan>)
      requires IsValidDate(originationDate) && IsValidDate(maturityDate)
      ensures r.Success? <==> IsPeriodEndConvention(periodEndConvention)
      ensures r.Failure? ==> r.error == InvalidPeriodEndConvention
      ensures r.Success? ==> fresh(r.value) && r.value.Valid()
      ensures r.Success? ==> r.value.loanId == loanId && r.value.borrower == borrower
      ensures r.Success? ==> r.value.principal == principal && r.value.margin == margin
                             && r.value.originationDate == originationDate && r.value.maturityDate == maturityDate
                             && r.value.sofrFloor == sofrFloor && r.value.sofrCeiling == sofrCeiling
                             && r.value.periodEndConvention == periodEndConvention
    {
      if !IsPeriodEndConvention(periodEndConvention) {
        return Failure(InvalidPeriodEndConvention);
      }
      var loan := new Loan(loanId, borrower, principal, margin, originationDate, maturityDate,
                           sofrFloor, sofrCeiling, periodEndConvention);
      r := Success(loan);
    }

    /** Extends the list with each covered year's observed holidays. */
    method GetRelevantHolidays() returns (hs: seq<int>)
      ensures hs == RelevantHolidays(originationDate.year, maturityDate.year)
    {
      hs := [];
      var year := originationDate.year;
      while year < maturityDate.year + 1
        invariant originationDate.year <= year
        invariant year == originationDate.year || year <= maturityDate.year + 1
        invariant hs == RelevantHolidays(originationDate.year, year - 1)
        decreases maturityDate.year + 1 - year
      {
        var yearHolidays := GetUsBankHolidays(year);
        RelevantHolidaysStep(originationDate.year, year);

        hs := hs + yearHolidays;
        year := year + 1;
      }
    }

    method GeneratePeriods() returns (r: Result<seq<Period>>)
      requires IsValidDate(originationDate) && IsValidDate(maturityDate)
      ensures r == InterestPeriods(originationDate, maturityDate, holidays, periodEndConvention)
    {
      r := GenerateInterestPeriods(originationDate, maturityDate, holidays, periodEndConvention);
    }

    /** Prices each period in order at the rate of its reset date; the first
        reset date without a rate makes the whole calculation fail. */
    method CalculateInterestSchedule(sofrRates: map<int, real>) returns (r: Result<seq<ScheduleEntry>>)
      requires Valid()
      ensures r == InterestSchedule(periods, holidays, sofrRates, principal, margin, sofrFloor, sofrCeiling)
    {
      var schedule: seq<ScheduleEntry> := [];
      for i := 0 to |periods|
        invariant InterestSchedule(periods[..i], holidays, sofrRates, principal, margin, sofrFloor, sofrCeiling)
                  == Success(schedule)
      {
        var period := periods[i];
        var sofrResetDate := AddBusinessDays(period.startDate, -2, holidays);
        if sofrResetDate !in sofrRates {
          MissingRateFails(periods, i, |periods|, holidays, sofrRates, principal, margin, sofrFloor, sofrCeiling);
          assert periods[..|periods|] == periods;
          return Failure(MissingSofrRate(sofrResetDate));
        }
        var sofrRate := sofrRates[sofrResetDate];
        var effectiveRate := EffectiveRate(sofrRate, margin, sofrFloor, sofrCeiling);
        var interestAmount := PeriodInterest(principal, effectiveRate, period.days, "actual/360").value;
        schedule := schedule + [ScheduleEntry(period, sofrResetDate, sofrRate, effectiveRate, interestAmount)];
        assert periods[..i + 1][..i] == periods[..i];
      }
      assert periods[..|periods|] == periods;
      r := Success(schedule);
    }

    /** The reset date of every period, in period order. */
    method GetRequiredSofrDates() returns (resetDates: seq<int>)
      requires Valid()
      ensures resetDates == RequiredSofrDates(periods, holidays)
    {
      resetDates := [];
      for i := 0 to |periods|
        invariant |resetDates| == i
        invariant forall k :: 0 <= k < i ==> resetDates[k] == ResetDate(periods[k].startDate, holidays)
      {
        var resetDate := AddBusinessDays(periods[i].startDate, -2, holidays);
        resetDates := resetDates + [resetDate];
      }
    }

    /** The rate check of the file-based calculation, with the rates given
        as a map: missing required dates fail with the full list when
        `raiseOnMissing` is set; otherwise the calculation goes ahead and
        fails on the first missing date itself. */
    method CalculateInterestScheduleFromRates(sofrRates: map<int, real>, raiseOnMissing: bool := true)
      returns (r: Result<seq<ScheduleEntry>>)
      requires Valid()
      ensures var missing := MissingDates(RequiredSofrDates(periods, holidays), sofrRates);
        && (missing == [] ==>
              r.Success? && r == InterestSchedule(periods, holidays, sofrRates, principal, margin, sofrFloor, sofrCeiling))
        && (missing != [] ==> r.Failure?)
        && (missing != [] && raiseOnMissing ==> r.error == MissingSofrRates(missing))
        && (missing != [] && !raiseOnMissing ==>
              r == InterestSchedule(periods, holidays, sofrRates, principal, margin, sofrFloor, sofrCeiling))
    {
      var requiredDates := GetRequiredSofrDates();
      var missingDates := MissingDates(requiredDates, sofrRates);
      ScheduleSucceedsIffNoneMissing(periods, holidays, sofrRates, principal, margin, sofrFloor, sofrCeiling);
      if |missingDates| > 0 && raiseOnMissing {
        return Failure(MissingSofrRates(missingDates));
      }
      r := CalculateInterestSchedule(sofrRates);
    }
  }
}
