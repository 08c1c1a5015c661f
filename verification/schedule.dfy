/** The payment-duration table: how many days benefit is paid, keyed by the
    insured-duration bracket, the age bracket and the disability flag. */
module PaymentSchedule {

  /** Every number of payment days the table can produce. */
  const PaymentDayValues: set<int> := {120, 150, 180, 210, 240, 270}

  /** Insured-duration bracket: 0 for under 12 months, then 12-35, 36-59,
      60-119 and 120 or more. */
  function DurationBracket(months: int): (b: int)
    ensures 0 <= b <= 4
    ensures b == 0 <==> months < 12
    ensures b == 4 <==> months >= 120
  {
    if months < 12 then 0
    else if months < 36 then 1
    else if months < 60 then 2
    else if months < 120 then 3
    else 4
  }

  /** Age bracket: 0 for under 30, 1 for 30-49, 2 for 50 and over. */
  function AgeBracket(age: int): (b: int)
    ensures 0 <= b <= 2
    ensures b == 0 <==> age < 30
    ensures b == 2 <==> age >= 50
  {
    if age < 30 then 0 else if age < 50 then 1 else 2
  }

  /** Days for a disabled claimant, which depend on insured duration only:
      120 under a year, then 180, 210, 240, 270 by bracket. */
  function DisabilityPaymentDays(months: int): (r: int)
    ensures r in PaymentDayValues
    ensures r == (if months < 12 then 120 else 150 + 30 * DurationBracket(months))
  {
    if months < 12 then 120
    else if months < 36 then 180
    else if months < 60 then 210
    else if months < 120 then 240
    else 270
  }

  /** Days for any claimant. Outside the shortest bracket each step up in
      duration or in age adds 30 days to the 120-day base. */
  function PaymentDays(age: int, months: int, isDisabled: bool): (r: int)
    ensures r in PaymentDayValues
    ensures months < 12 ==> r == 120
    ensures isDisabled ==> r == DisabilityPaymentDays(months)
    ensures !isDisabled ==>
      r == (if months < 12 then 120 else 90 + 30 * DurationBracket(months) + 30 * AgeBracket(age))
  {
    if isDisabled then DisabilityPaymentDays(months)
    else if months < 12 then 120
    else if months < 36 then (if age < 30 then 120 else if age < 50 then 150 else 180)
    else if months < 60 then (if age < 30 then 150 else if age < 50 then 180 else 210)
    else if months < 120 then (if age < 30 then 180 else if age < 50 then 210 else 240)
    else (if age < 30 then 210 else if age < 50 then 240 else 270)
  }

  /** With the disability flag set, age plays no part. */
  lemma DisabledIgnoresAge(age1: int, age2: int, months: int)
    ensures PaymentDays(age1, months, true) == PaymentDays(age2, months, true)
  {
  }

  /** The disability table coincides with the 50-and-over column. */
  lemma DisabilityIsSeniorColumn(age: int, months: int)
    ensures PaymentDays(age, months, true) == PaymentDays(50, months, false)
  {
  }

  /** Being flagged disabled never shortens the payment period. */
  lemma DisabilityNeverShortens(age: int, months: int)
    ensures PaymentDays(age, months, false) <= PaymentDays(age, months, true)
  {
  }

  /** A longer insured duration never shortens the payment period. */
  lemma MonotoneInMonths(age: int, m1: int, m2: int, isDisabled: bool)
    requires m1 <= m2
    ensures PaymentDays(age, m1, isDisabled) <= PaymentDays(age, m2, isDisabled)
  {
  }

  /** An older claimant never gets fewer days. */
  lemma MonotoneInAge(a1: int, a2: int, months: int, isDisabled: bool)
    requires a1 <= a2
    ensures PaymentDays(a1, months, isDisabled) <= PaymentDays(a2, months, isDisabled)
  {
  }
}
