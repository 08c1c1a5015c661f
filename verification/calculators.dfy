/** The three benefit calculators (regular employees, daily-wage workers,
    self-employed), each a single pure step from a claimant record to a
    closed two-variant result. */
module Calculators {
  import opened Dates
  import opened PaymentSchedule
  import opened BenefitLimits
  import opened Wages

  /** Why a claim is refused. */
  datatype Reason =
    | ShortInsurance   // insured duration under the six-month minimum
    | NoValidWorkDays  // daily-wage worker whose average daily wage comes out as 0

  /** The user-facing text for each reason. */
  function Message(reason: Reason): (text: string)
    ensures |text| > 0
  {
    match reason
    case ShortInsurance => "가입 기간이 180일(약 6개월) 미만입니다."
    case NoValidWorkDays => "유효한 근무 일수가 없습니다."
  }

  /** Distinct reasons never share a text, so the message identifies the
      reason. */
  lemma MessageInjective(a: Reason, b: Reason)
    requires Message(a) == Message(b)
    ensures a == b
  {
  }

  datatype BenefitResult =
    | Ineligible(reason: Reason)
    | Eligible(dailyBenefit: real, paymentDays: int, totalBenefit: real)

  /** What every award satisfies: the daily amount is within the statutory
      limits, the day count comes from the table, and the total is their
      product. */
  predicate WellFormed(r: BenefitResult) {
    r.Eligible? ==>
      && LowerLimit <= r.dailyBenefit <= UpperLimit
      && r.paymentDays in PaymentDayValues
      && r.totalBenefit == r.dailyBenefit * r.paymentDays as real
  }

  datatype RegularInput = RegularInput(
    birthDate: BirthCode,
    isDisabled: bool,
    startDate: Date,
    endDate: Date,
    wages: WageTriple)

  datatype DailyInput = DailyInput(
    birthDate: BirthCode,
    isDisabled: bool,
    years: int,
    months: int,
    lastWorkDate: Date,
    wages: WageTriple,
    workDays: DayTriple)

  datatype SelfEmployedInput = SelfEmployedInput(
    startDate: Date,
    endDate: Date,
    grade: int)

  /** The stages every category shares once its average daily wage is known:
      replacement rate, clamp, then total over the payment days. */
  function Award(dailyAvgWage: real, paymentDays: int): (r: BenefitResult)
    requires paymentDays in PaymentDayValues
    ensures r.Eligible? && WellFormed(r)
    ensures r.paymentDays == paymentDays
    ensures r.dailyBenefit == ApplyLimits(ApplyRate(dailyAvgWage))
    ensures LowerLimit * 120.0 <= r.totalBenefit <= UpperLimit * 270.0
  {
    var dailyBenefit := ApplyLimits(ApplyRate(dailyAvgWage));
    Eligible(dailyBenefit, paymentDays, dailyBenefit * paymentDays as real)
  }

  function RegularInsuredMonths(input: RegularInput): int {
    MonthsBetween(input.startDate, input.endDate)
  }

  /** Regular employee: months between the insurance dates, then the mean of
      the three monthly wages over 30 days, age taken at the end date. */
  function RegularBenefit(input: RegularInput): (r: BenefitResult)
    ensures WellFormed(r)
    ensures r.Ineligible? <==> RegularInsuredMonths(input) < MinimumInsuranceMonths
    ensures r.Ineligible? ==> r.reason == ShortInsurance
    ensures r.Eligible? ==>
      r.dailyBenefit == ApplyLimits((input.wages[0] + input.wages[1] + input.wages[2]) / 150.0)
    ensures r.Eligible? ==>
      r.paymentDays == PaymentDays(Age(input.birthDate, input.endDate), RegularInsuredMonths(input), input.isDisabled)
  {
    var insuranceMonths := RegularInsuredMonths(input);
    if !MeetsMinimumPeriod(insuranceMonths) then
      Ineligible(ShortInsurance)
    else
      var age := Age(input.birthDate, input.endDate);
      var dailyAvgWage := RegularDailyWage(input.wages);
      Award(dailyAvgWage, PaymentDays(age, insuranceMonths, input.isDisabled))
  }

  /** Insured months from the stated whole years and extra months. With the
      extra months in 0..11 the two fields are recovered from the total. */
  function DailyInsuredMonths(input: DailyInput): (m: int)
    ensures 0 <= input.months < 12 ==> m / 12 == input.years && m % 12 == input.months
  {
    input.years * 12 + input.months
  }

  /** Daily-wage worker: insured months from the stated years and months,
      then the days-weighted mean wage, age taken at the last work date. A
      zero average (no positive total of days, or no pay) is refused. */
  function DailyBenefit(input: DailyInput): (r: BenefitResult)
    ensures WellFormed(r)
    ensures r == Ineligible(ShortInsurance) <==> DailyInsuredMonths(input) < MinimumInsuranceMonths
    ensures r == Ineligible(NoValidWorkDays) <==>
      && DailyInsuredMonths(input) >= MinimumInsuranceMonths
      && (DaySum(input.workDays) <= 0 || WeightedSum(input.wages, input.workDays) == 0.0)
    ensures r.Eligible? ==>
      && DaySum(input.workDays) > 0
      && r.dailyBenefit
         == ApplyLimits(ApplyRate(WeightedSum(input.wages, input.workDays) / DaySum(input.workDays) as real))
    ensures r.Eligible? ==>
      r.paymentDays == PaymentDays(Age(input.birthDate, input.lastWorkDate), DailyInsuredMonths(input), input.isDisabled)
  {
    var insuranceMonths := DailyInsuredMonths(input);
    if !MeetsMinimumPeriod(insuranceMonths) then
      Ineligible(ShortInsurance)
    else
      var age := Age(input.birthDate, input.lastWorkDate);
      var dailyAvgWage := DailyAverageWage(input.wages, input.workDays);
      if dailyAvgWage == 0.0 then
        Ineligible(NoValidWorkDays)
      else
        Award(dailyAvgWage, PaymentDays(age, insuranceMonths, input.isDisabled))
  }

  function SelfEmployedInsuredMonths(input: SelfEmployedInput): int {
    MonthsBetween(input.startDate, input.endDate)
  }

  /** Age the self-employed calculator assumes for the duration table. */
  const SelfEmployedAge: int := 50

  /** Self-employed: months between the insurance dates, base pay from the
      grade over 30 days, and the payment days of the non-disabled
      50-and-over column whatever the claimant's circumstances. */
  function SelfEmployedBenefit(input: SelfEmployedInput): (r: BenefitResult)
    ensures WellFormed(r)
    ensures r.Ineligible? <==> SelfEmployedInsuredMonths(input) < MinimumInsuranceMonths
    ensures r.Ineligible? ==> r.reason == ShortInsurance
    ensures r.Eligible? ==>
      var m := SelfEmployedInsuredMonths(input);
      r.paymentDays == (if m < 12 then 120 else 150 + 30 * DurationBracket(m))
    ensures r.Eligible? ==>
      r.dailyBenefit == (if input.grade == 6 || input.grade == 7 then UpperLimit else LowerLimit)
  {
    var insuranceMonths := SelfEmployedInsuredMonths(input);
    if !MeetsMinimumPeriod(insuranceMonths) then
      Ineligible(ShortInsurance)
    else
      var dailyAvgWage := SelfEmployedDailyWage(input.grade);
      Award(dailyAvgWage, PaymentDays(SelfEmployedAge, insuranceMonths, false))
  }

  // ---------------------------------------------------------------------
  // Properties relating several calls
  // ---------------------------------------------------------------------

  /** Below the minimum duration nothing else in the record matters: two
      regular claims with the same short duration get the same refusal. */
  lemma RegularShortDurationIgnoresRest(a: RegularInput, b: RegularInput)
    requires RegularInsuredMonths(a) < MinimumInsuranceMonths
    requires RegularInsuredMonths(b) < MinimumInsuranceMonths
    ensures RegularBenefit(a) == RegularBenefit(b) == Ineligible(ShortInsurance)
  {
  }

  lemma DailyShortDurationIgnoresRest(a: DailyInput, b: DailyInput)
    requires DailyInsuredMonths(a) < MinimumInsuranceMonths
    requires DailyInsuredMonths(b) < MinimumInsuranceMonths
    ensures DailyBenefit(a) == DailyBenefit(b) == Ineligible(ShortInsurance)
  {
  }

  lemma SelfEmployedShortDurationIgnoresRest(a: SelfEmployedInput, b: SelfEmployedInput)
    requires SelfEmployedInsuredMonths(a) < MinimumInsuranceMonths
    requires SelfEmployedInsuredMonths(b) < MinimumInsuranceMonths
    ensures SelfEmployedBenefit(a) == SelfEmployedBenefit(b) == Ineligible(ShortInsurance)
  {
  }

  /** Higher wages never lower a regular employee's daily benefit. */
  lemma RegularMonotoneInWages(a: RegularInput, b: RegularInput)
    requires a.startDate == b.startDate && a.endDate == b.endDate
    requires forall i :: 0 <= i < 3 ==> a.wages[i] <= b.wages[i]
    ensures RegularBenefit(a).Eligible? <==> RegularBenefit(b).Eligible?
    ensures RegularBenefit(a).Eligible? ==> RegularBenefit(a).dailyBenefit <= RegularBenefit(b).dailyBenefit
  {
  }

  /** For a daily-wage worker with no negative day counts, the daily benefit
      is bounded by the clamped benefit of the lowest and the highest wage. */
  lemma DailyBenefitBetweenWages(input: DailyInput, lo: real, hi: real)
    requires NoNegativeDays(input.workDays) && WagesWithin(input.wages, lo, hi)
    requires DailyBenefit(input).Eligible?
    ensures ApplyLimits(ApplyRate(lo)) <= DailyBenefit(input).dailyBenefit <= ApplyLimits(ApplyRate(hi))
  {
    var avg := DailyAverageWage(input.wages, input.workDays);
    DailyAverageWageBounds(input.wages, input.workDays, lo, hi);
    ApplyRateMonotone(lo, avg);
    ApplyRateMonotone(avg, hi);
    ApplyLimitsMonotone(ApplyRate(lo), ApplyRate(avg));
    ApplyLimitsMonotone(ApplyRate(avg), ApplyRate(hi));
  }

  /** The self-employed calculator ignores age and disability: its days equal
      what a disabled claimant of any age would get for the same duration. */
  lemma SelfEmployedDaysAsDisabled(input: SelfEmployedInput, age: int)
    requires SelfEmployedBenefit(input).Eligible?
    ensures SelfEmployedBenefit(input).paymentDays == PaymentDays(age, SelfEmployedInsuredMonths(input), true)
  {
  }
}
