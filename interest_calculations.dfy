/** Floating-rate arithmetic (interest_calculations.py): the index clamped to
    a floor and an optional ceiling plus the margin, and simple interest
    under a day-count convention. Amounts and rates are exact reals. */
module InterestCalculations {
  import opened Results

  /** The index rate clamped into [floor, ceiling] (a `None` ceiling is the
      unbounded default), plus the margin. When the floor lies above the
      ceiling the floor wins, because it is applied last. */
  function EffectiveRate(sofrRate: real, margin: real, floor: real := 0.0, ceiling: Option<real> := None): (r: real)
    ensures floor + margin <= r
    ensures ceiling.Some? && floor <= ceiling.value ==> r <= ceiling.value + margin
    ensures ceiling.Some? && ceiling.value < floor ==> r == floor + margin
    ensures floor <= sofrRate && (ceiling.None? || sofrRate <= ceiling.value) ==> r == sofrRate + margin
    ensures sofrRate < floor ==> r == floor + margin
    ensures ceiling.Some? && floor <= ceiling.value < sofrRate ==> r == ceiling.value + margin
  {
    var capped := if ceiling.Some? && ceiling.value < sofrRate then ceiling.value else sofrRate;
    var adjusted := if floor < capped then capped else floor;
    adjusted + margin
  }

  predicate IsDayCountConvention(convention: string) {
    convention == "actual/360" || convention == "actual/365" || convention == "30/360"
  }

  /** The day-count basis: 365 days for "actual/365", 360 for the other two. */
  function YearBasis(convention: string): (basis: real)
    requires IsDayCountConvention(convention)
    ensures basis > 0.0
  {
    if convention == "actual/365" then 365.0 else 360.0
  }

  /** Simple interest on `principal` at `annualRate` for `days` days. */
  function PeriodInterest(principal: real, annualRate: real, days: int, convention: string := "actual/360"): (r: Result<real>)
    ensures r.Success? <==> IsDayCountConvention(convention)
    ensures r.Failure? ==> r.error == UnsupportedDayCountConvention(convention)
    ensures (convention == "actual/360" || convention == "30/360") ==>
              r.value * 360.0 == principal * annualRate * days as real
    ensures convention == "actual/365" ==> r.value * 365.0 == principal * annualRate * days as real
  {
    if convention == "actual/360" then
      Success(principal * annualRate * (days as real / 360.0))
    else if convention == "actual/365" then
      Success(principal * annualRate * (days as real / 365.0))
    else if convention == "30/360" then
      Success(principal * annualRate * (days as real / 360.0))
    else
      Failure(UnsupportedDayCountConvention(convention))
  }

  /** "30/360" is computed exactly as "actual/360": both divide the actual
      day count by 360. */
  lemma ThirtyThreeSixtyIsActualThreeSixty(principal: real, annualRate: real, days: int)
    ensures PeriodInterest(principal, annualRate, days, "30/360")
            == PeriodInterest(principal, annualRate, days, "actual/360")
  {
  }

  /** A period of no days accrues nothing. */
  lemma NoDaysNoInterest(principal: real, annualRate: real, convention: string)
    requires IsDayCountConvention(convention)
    ensures PeriodInterest(principal, annualRate, 0, convention).value == 0.0
  {
  }

  /** Interest is additive in the principal. */
  lemma InterestAdditiveInPrincipal(p1: real, p2: real, annualRate: real, days: int, convention: string)
    requires IsDayCountConvention(convention)
    ensures PeriodInterest(p1 + p2, annualRate, days, convention).value
            == PeriodInterest(p1, annualRate, days, convention).value
               + PeriodInterest(p2, annualRate, days, convention).value
  {
    var basis := YearBasis(convention);
    assert (p1 + p2) * annualRate * (days as real / basis)
           == p1 * annualRate * (days as real / basis) + p2 * annualRate * (days as real / basis);
  }

  /** Interest is additive in the day count: splitting a period into two
      adjacent ones does not change the total. */
  lemma InterestAdditiveInDays(principal: real, annualRate: real, d1: int, d2: int, convention: string)
    requires IsDayCountConvention(convention)
    ensures PeriodInterest(principal, annualRate, d1 + d2, convention).value
            == PeriodInterest(principal, annualRate, d1, convention).value
               + PeriodInterest(principal, annualRate, d2, convention).value
  {
    var basis := YearBasis(convention);
    assert (d1 + d2) as real / basis == d1 as real / basis + d2 as real / basis;
    assert principal * annualRate * ((d1 + d2) as real / basis)
           == principal * annualRate * (d1 as real / basis) + principal * annualRate * (d2 as real / basis);
  }

  /** Rates inside the bounds pass through; a rate below the floor is
      raised to it and one above the ceiling is cut to it. With the default
      floor and ceiling only the margin is added. */
  lemma EffectiveRateExamples()
    ensures EffectiveRate(0.045, 0.025, 0.0, Some(0.08)) == 0.07
    ensures EffectiveRate(0.005, 0.025, 0.01, Some(0.08)) == 0.035
    ensures EffectiveRate(0.09, 0.025, 0.0, Some(0.08)) == 0.105
    ensures EffectiveRate(0.09, 0.025) == 0.115
  {
  }

  /** $1,000,000 at 7% under actual/360 accrues 5833.33 (rounded to cents)
      in 30 days and 3305.56 in 17 days; actual/360 is the default. */
  lemma PeriodInterestExamples()
    ensures var r := PeriodInterest(1000000.0, 0.07, 30).value;
      5833.325 <= r < 5833.335
    ensures var r := PeriodInterest(1000000.0, 0.07, 17).value;
      3305.555 <= r < 3305.565
  {
  }
}
