/** Worked examples of the three calculators, and the boundary of the
    two-digit-year pivot. */
module Scenarios {
  import opened Dates
  import opened Calculators
  import Wages

  /** Regular employee, 12 insured months, three wages of 3,000,000, age 28:
      the rated 60,000 rises to the 63,104 floor, for 120 days. */
  lemma RegularWorkedExample()
    ensures var input := RegularInput(BirthCode(96, 3, 15), false, Date(2023, 12, 1), Date(2024, 12, 31),
                                      [3000000.0, 3000000.0, 3000000.0]);
            && Age(input.birthDate, input.endDate) == 28
            && RegularBenefit(input) == Eligible(63104.0, 120, 7572480.0)
  {
    var input := RegularInput(BirthCode(96, 3, 15), false, Date(2023, 12, 1), Date(2024, 12, 31),
                              [3000000.0, 3000000.0, 3000000.0]);
    assert Age(input.birthDate, input.endDate) == 28;
    assert Wages.RegularDailyWage(input.wages) == 100000.0;
    assert RegularBenefit(input) == Award(100000.0, 120);
    assert Award(100000.0, 120) == Eligible(63104.0, 120, 7572480.0);
  }

  /** Regular employee with four insured months is refused whatever the wages. */
  lemma RegularShortExample(wages: Wages.WageTriple)
    ensures RegularBenefit(RegularInput(BirthCode(90, 1, 1), false, Date(2024, 1, 1), Date(2024, 5, 1), wages))
            == Ineligible(ShortInsurance)
  {
  }

  /** Daily-wage worker with a valid duration but no days worked. */
  lemma DailyNoWorkDaysExample()
    ensures DailyBenefit(DailyInput(BirthCode(85, 6, 1), false, 1, 0, Date(2024, 6, 30),
                                    [150000.0, 150000.0, 150000.0], [0, 0, 0]))
            == Ineligible(NoValidWorkDays)
  {
  }

  /** Self-employed, grade 3, 24 insured months: 2,000,000 / 30 rated to
      40,000, raised to the 63,104 floor, for the 180 days of the 50-and-over
      column. */
  lemma SelfEmployedWorkedExample()
    ensures SelfEmployedBenefit(SelfEmployedInput(Date(2022, 1, 1), Date(2024, 1, 1), 3))
            == Eligible(63104.0, 180, 11358720.0)
  {
  }

  /** Two-digit year 25 is read as 2025, 26 as 1926. */
  lemma PivotBoundary()
    ensures BirthYear(25) == 2025 && BirthYear(26) == 1926
  {
  }
}
