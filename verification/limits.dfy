/** Statutory constants, the replacement rate, the floor/ceiling clamp on the
    daily benefit and the minimum insured-duration gate. */
module BenefitLimits {

  /** Fraction of the average daily wage paid as benefit. */
  const BenefitRate: real := 0.6
  /** Ceiling on the daily benefit. */
  const UpperLimit: real := 66000.0
  /** Hourly minimum wage the floor is derived from. */
  const MinimumWage: int := 9860
  /** Shortest insured duration, in months, that can qualify. */
  const MinimumInsuranceMonths: int := 6
  /** Floor on the daily benefit: 80% of eight hours at the minimum wage. */
  const LowerLimit: real := MinimumWage as real * 8.0 * 0.8

  lemma LimitValues()
    ensures LowerLimit == 63104.0
    ensures LowerLimit < UpperLimit
  {
  }

  /** The replacement rate applied to an average daily wage. */
  function ApplyRate(dailyAvgWage: real): (r: real)
    ensures 0.0 <= dailyAvgWage ==> 0.0 <= r <= dailyAvgWage
    ensures r == 0.0 <==> dailyAvgWage == 0.0
    ensures r * 5.0 == dailyAvgWage * 3.0
  {
    dailyAvgWage * BenefitRate
  }

  /** A larger wage never yields a smaller rated amount. */
  lemma ApplyRateMonotone(a: real, b: real)
    requires a <= b
    ensures ApplyRate(a) <= ApplyRate(b)
  {
  }

  /** Bring a daily benefit into [LowerLimit, UpperLimit]; the ceiling test
      comes first, then the floor. */
  function ApplyLimits(dailyBenefit: real): (r: real)
    ensures LowerLimit <= r <= UpperLimit
    ensures LowerLimit <= dailyBenefit <= UpperLimit ==> r == dailyBenefit
    ensures dailyBenefit > UpperLimit ==> r == UpperLimit
    ensures dailyBenefit < LowerLimit ==> r == LowerLimit
  {
    if dailyBenefit > UpperLimit then UpperLimit
    else if dailyBenefit < LowerLimit then LowerLimit
    else dailyBenefit
  }

  function Min(a: real, b: real): real { if a <= b then a else b }
  function Max(a: real, b: real): real { if a <= b then b else a }

  /** The clamp is the usual max(floor, min(ceiling, x)). */
  lemma ApplyLimitsIsMaxMin(x: real)
    ensures ApplyLimits(x) == Max(LowerLimit, Min(UpperLimit, x))
  {
  }

  lemma ApplyLimitsIdempotent(x: real)
    ensures ApplyLimits(ApplyLimits(x)) == ApplyLimits(x)
  {
  }

  lemma ApplyLimitsMonotone(a: real, b: real)
    requires a <= b
    ensures ApplyLimits(a) <= ApplyLimits(b)
  {
  }

  /** The eligibility gate on insured duration: six whole months, which the
      refusal message presents as 180 days at 30 days a month. */
  predicate MeetsMinimumPeriod(months: int)
    ensures MeetsMinimumPeriod(months) <==> months * 30 >= 180
  {
    months >= MinimumInsuranceMonths
  }
}
