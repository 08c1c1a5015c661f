# Unemployment benefit calculator: a Dafny model

This project models the calculation engine of an unemployment-insurance benefit calculator. There are three claimant categories: regular employees, daily-wage workers and the self-employed. Each calculator is one pure step from a claimant record to a closed result. The result is either `Ineligible(reason)` or `Eligible(dailyBenefit, paymentDays, totalBenefit)`.

All three calculators run the same pipeline:

1. Compute the insured duration in whole months, then apply the six-month gate.
2. Work out an average daily wage. Regular employees use the mean of three monthly wages over 30 days. Daily-wage workers use the days-weighted mean of three daily wages. The self-employed use a base pay looked up by grade, over 30 days.
3. Apply the 60% replacement rate.
4. Clamp the result into [9,860 × 8 × 0.8 = 63,104, 66,000].
5. Look up the payment days by duration bracket, age bracket and disability flag.
6. Multiply the daily benefit by the payment days to get the total.

Modules, one per component of `docs/calculator.js`:

- `Dates` (`dates.dfy`): whole-month duration and its inverse `AddMonths`; the two-digit-year pivot; age at a reference date; the six-character YYMMDD birth code.
- `PaymentSchedule` (`schedule.dfy`): the payment-days table.
- `BenefitLimits` (`limits.dfy`): the constants, the replacement rate, the floor/ceiling clamp and the minimum-duration gate.
- `Wages` (`wages.dfy`): the three wage aggregations. It includes the daily-worker accumulation loop as a method with invariants.
- `Calculators` (`calculators.dfy`): the input records, the result type and the three calculators.
- `Scenarios` (`scenarios.dfy`): worked examples.

Money is Dafny `real`, which is exact rational arithmetic. Dates are already-split `(year, month, day)` integers with months numbered 1..12. The JavaScript month numbering 0..11 only ever appears as a difference, so it makes no difference here. Birth dates are already-split `BirthCode(yy, mm, dd)` fields, and `Dates.ParseBirthCode` models the character-level split of the six-digit text.

Two behaviours of the code are easy to miss:

- The daily-wage calculator refuses with "no valid worked days" whenever the average daily wage comes out as exactly 0. That covers a zero total of days, and also a positive total of days with zero total pay, such as all wages 0. It also covers a negative total of days.
- The duration gate counts calendar months and ignores the day of month. So 31 January to 1 July counts as 6 months, even though the refusal message speaks of 180 days.

## Model

| member | source | states |
|---|---|---|
| Dates.MonthsBetween | docs/calculator.js:29-37 | the duration is the difference of the absolute month numbers of the two dates |
| Dates.MonthsBetweenSameMonth | docs/calculator.js:33-36 | two dates in the same year and month are 0 months apart |
| Dates.MonthsBetweenAntisymmetric | docs/calculator.js:33-36 | swapping the two dates negates the duration |
| Dates.MonthsBetweenAdditive | docs/calculator.js:33-36 | durations chain: a→b plus b→c equals a→c |
| Dates.MonthsBetweenIgnoresDay | docs/calculator.js:33-36 | moving either date within its month leaves the duration unchanged |
| Dates.MonthsBetweenAddMonths | docs/calculator.js:29-37 | adding k calendar months to a date and measuring back gives k |
| Dates.AddMonthsBetween | docs/calculator.js:29-37 | adding the measured duration to the start date lands in the end date's year and month |
| Dates.BirthYear | docs/calculator.js:49 | a two-digit year 0..99 maps to the year in 1926..2025 that ends in those two digits |
| Dates.BirthYearUnique | docs/calculator.js:49 | no other year in 1926..2025 ends in the same two digits, so the pivot is that window |
| Dates.BirthDate | docs/calculator.js:49-51 | the birth date of a code with a two-digit year 0..99 falls in a year of 1926..2025 ending in those digits, and, for real calendar dates, keeps the code's month and day |
| Dates.Age | docs/calculator.js:42-61 | the age is the number of whole years whose anniversary of the birth date falls on or before the reference date |
| Dates.AgeUnique | docs/calculator.js:54-61 | any year count satisfying the anniversary characterisation equals the computed age |
| Dates.AgeBirthdayRule | docs/calculator.js:54-59 | age is the year difference, minus one exactly when the reference month/day is earlier than the birth month/day |
| Dates.ParseBirthCode | docs/calculator.js:44-46 | a six-digit code splits into three two-digit fields, each in 0..99 |
| Dates.ParseFormatBirthCode | docs/calculator.js:44-46 | splitting the zero-padded text of a birth code gives back the code |
| Dates.FormatParseBirthCode | docs/calculator.js:44-46 | writing back the fields split from a six-digit code reproduces the text |
| PaymentSchedule.DisabilityPaymentDays | docs/calculator.js:96-102 | disabled claimants get 120 days under 12 months, then 150 + 30 per duration bracket (180, 210, 240, 270) |
| PaymentSchedule.PaymentDays | docs/calculator.js:67-91 | the result is one of 120..270 in steps of 30; under 12 months it is 120 for any age or flag; the disability flag delegates to the disability table; otherwise it is 90 + 30·duration bracket + 30·age bracket |
| PaymentSchedule.DisabledIgnoresAge | docs/calculator.js:68-70 | with the disability flag set, the age does not change the result |
| PaymentSchedule.DisabilityIsSeniorColumn | docs/calculator.js:67-102 | the disability table equals the non-disabled 50-and-over column |
| PaymentSchedule.DisabilityNeverShortens | docs/calculator.js:67-102 | the disability flag never lowers the payment days |
| PaymentSchedule.MonotoneInMonths | docs/calculator.js:72-90 | a longer insured duration never lowers the payment days |
| PaymentSchedule.MonotoneInAge | docs/calculator.js:72-90 | an older claimant never gets fewer payment days |
| BenefitLimits.LimitValues | docs/calculator.js:115 | the floor 9,860 × 8 × 0.8 is 63,104, below the 66,000 ceiling |
| BenefitLimits.ApplyRate | docs/calculator.js:107-109 | the rated amount is three fifths of the wage: between 0 and the wage for a non-negative wage, and 0 exactly when the wage is 0 |
| BenefitLimits.ApplyRateMonotone | docs/calculator.js:107-109 | a larger wage never gives a smaller rated amount |
| BenefitLimits.ApplyLimits | docs/calculator.js:114-124 | the result lies in [63,104, 66,000]; an input already in range is returned unchanged; above the ceiling gives the ceiling and below the floor gives the floor |
| BenefitLimits.ApplyLimitsIsMaxMin | docs/calculator.js:114-124 | the clamp equals max(floor, min(ceiling, x)) |
| BenefitLimits.ApplyLimitsIdempotent | docs/calculator.js:114-124 | clamping twice equals clamping once |
| BenefitLimits.ApplyLimitsMonotone | docs/calculator.js:114-124 | clamping preserves order |
| BenefitLimits.MeetsMinimumPeriod | docs/calculator.js:129-131 | the gate passes exactly when the duration is at least 6 months, which at 30 days a month is at least the 180 days the refusal message names |
| Wages.RegularDailyWage | docs/calculator.js:162-167 | the regular daily wage is one ninetieth of the three wages' sum |
| Wages.Total | docs/calculator.js:163 | the wage total of three wages is their sum, and is never negative when no wage is |
| Wages.RegularDailyWageUniform | docs/calculator.js:162-167 | three equal wages w give a daily wage of w/30 |
| Wages.RegularDailyWageBounds | docs/calculator.js:162-167 | the daily wage lies between the smallest and largest monthly wage over 30 |
| Wages.WeightedTotals | docs/calculator.js:208-214 | the accumulation loop yields Σ wage·days and Σ days over the three months, equal to the recursive definitions |
| Wages.DaySum | docs/calculator.js:211-214 | the day total over the three months is the sum of the three day counts |
| Wages.WeightedSumOfThree | docs/calculator.js:211-214 | the total pay over the three months is the sum of the three wage-times-days products |
| Wages.DailyAverageWage | docs/calculator.js:216-217 | with a positive day total the average times the day total is the total pay; otherwise it is 0; it is 0 exactly when the day total is not positive or the total pay is 0 |
| Wages.WeightedSumBounds | docs/calculator.js:211-214 | with no negative day counts, the total pay lies between the lowest and highest wage times the day total |
| Wages.UniformWeightedSum | docs/calculator.js:211-214 | if every wage is w, the total pay is w times the day total, however the days are spread |
| Wages.DailyAverageWageBounds | docs/calculator.js:216-217 | with no negative day counts, the weighted average lies between the lowest and highest wage |
| Wages.DailyAverageWageUniform | docs/calculator.js:216-217 | if every wage is w, the weighted average is w however the days are spread |
| Wages.BasePay | docs/calculator.js:262 | grades 1..7 give 1,000,000 + 500,000·(grade − 1); any other grade gives 2,000,000 |
| Wages.BasePayTableShape | docs/calculator.js:11-19 | the base-pay table has exactly the grades 1..7, and grade g is listed at 500,000·(g + 1) |
| Wages.SelfEmployedDailyWage | docs/calculator.js:262-265 | the self-employed daily wage is the base pay over 30, between 1,000,000/30 and 4,000,000/30 |
| Calculators.Award | docs/calculator.js:170-186 | once a daily wage is known the result is eligible; the daily benefit is that wage rated at 60% and clamped into the limits; the total equals daily benefit × days, between 63,104·120 and 66,000·270 |
| Calculators.Message | docs/calculator.js:222 | every refusal reason has a non-empty user-facing text |
| Calculators.MessageInjective | docs/calculator.js:155 | the short-duration text differs from the no-valid-days text, so the message identifies the reason |
| Calculators.RegularBenefit | docs/calculator.js:147-187 | refused (short duration) exactly when under 6 months; otherwise the daily benefit is the clamp of one 150th of the wage sum, and the days come from the table at the age on the end date |
| Calculators.DailyInsuredMonths | docs/calculator.js:194 | with extra months in 0..11, the total's quotient and remainder by 12 give back the stated years and months |
| Calculators.DailyBenefit | docs/calculator.js:192-244 | refused for a short duration exactly when under 6 months; refused for no valid days exactly when the duration passes and the day total is not positive or the total pay is 0; otherwise the clamped rated weighted average, days from the table at the age on the last work date |
| Calculators.SelfEmployedBenefit | docs/calculator.js:249-285 | refused exactly when under 6 months; otherwise the days are those of the 50-and-over non-disabled column, and the daily benefit is the 66,000 ceiling for grades 6 and 7 and the 63,104 floor for every other grade |
| Calculators.RegularShortDurationIgnoresRest | docs/calculator.js:149-157 | any two regular claims under 6 months get the same short-duration refusal, whatever the wages, age or flag |
| Calculators.DailyShortDurationIgnoresRest | docs/calculator.js:194-202 | any two daily-wage claims under 6 months get the same short-duration refusal, whatever the wages or days |
| Calculators.SelfEmployedShortDurationIgnoresRest | docs/calculator.js:251-259 | any two self-employed claims under 6 months get the same short-duration refusal, whatever the grade |
| Calculators.RegularMonotoneInWages | docs/calculator.js:162-173 | raising wages never changes eligibility and never lowers the regular daily benefit |
| Calculators.DailyBenefitBetweenWages | docs/calculator.js:208-230 | with no negative day counts, the daily-wage benefit lies between the clamped rated lowest and highest wage |
| Calculators.SelfEmployedDaysAsDisabled | docs/calculator.js:273-274 | the self-employed payment days equal those of a disabled claimant of any age with the same duration |
| Scenarios.RegularWorkedExample | docs/calculator.js:147-187 | 12 months, wages 3,000,000 ×3, age 28: 60,000 is raised to 63,104, for 120 days, total 7,572,480 |
| Scenarios.RegularShortExample | docs/calculator.js:149-157 | four insured months are refused whatever the wages |
| Scenarios.DailyNoWorkDaysExample | docs/calculator.js:216-224 | a valid duration with work days 0, 0, 0 is refused for no valid worked days |
| Scenarios.SelfEmployedWorkedExample | docs/calculator.js:249-285 | grade 3, 24 months: 40,000 is raised to 63,104, for 180 days, total 11,358,720 |
| Scenarios.PivotBoundary | docs/calculator.js:49 | two-digit year 25 reads as 2025 and 26 as 1926 |

## Left out

- The user interface is not modelled. That covers tab switching, form reset, result display and the form submit handlers (`docs/calculator.js:291-420`). It is presentation and event plumbing, including the handler's use of the ambient `event` object.
- `formatCurrency` (`docs/calculator.js:136-138`) is not modelled. It delegates to the host's locale formatting, which is not visible.
- Date-string parsing is not modelled. The model takes calendar fields as given, because the JavaScript `Date` results depend on the engine and the time zone. For example, a `YYYY-MM-DD` text is read as UTC midnight, but its year/month/day are then read in local time.
- Dates.Age: the birth month and day are compared as given. So on impossible dates such as 31 February the result can differ from the source's, whose `Date` constructor rolls such a day into the next month.
- Dates.BirthDate: the month and day fields are kept as given. The source's `Date` constructor rolls impossible fields over instead: day 31 of February moves into March, and month 0 moves into December of the year before.
- Dates.ParseBirthCode: requires exactly six decimal digits. On shorter or non-digit text, the source's `parseInt` yields NaN or a prefix value, and NaN handling is not modelled.
- IEEE-754 behaviour is not modelled: rounding of `/ 3`, `/ 30` and `× 0.6`, and NaN from empty numeric fields. NaN would pass unchanged through the clamp's final branch. The model uses exact rationals with finite inputs.
- Wage and work-day inputs are exactly three values each, by their types. The source's regular calculator divides by 3 whatever the array length.
