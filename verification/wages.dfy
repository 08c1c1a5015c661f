/** Wage aggregation for the three claimant categories: the plain mean of
    three monthly wages, the days-weighted mean of daily wages, and the
    self-employed base-pay grade table. */
module Wages {

  /** The three most recent monthly (or daily) wages. */
  type WageTriple = s: seq<real> | |s| == 3 witness [0.0, 0.0, 0.0]
  /** Days worked in each of the three most recent months, paired by position
      with the wages. */
  type DayTriple = s: seq<int> | |s| == 3 witness [0, 0, 0]

  predicate NonNegativeWages(ws: seq<real>) {
    forall i :: 0 <= i < |ws| ==> 0.0 <= ws[i]
  }

  /** Sum of a sequence of wages, accumulated left to right: the last wage is
      added last. */
  function Total(s: seq<real>): (r: real)
    ensures |s| == 3 ==> r == s[0] + s[1] + s[2]
    ensures NonNegativeWages(s) ==> 0.0 <= r
  {
    if |s| == 0 then 0.0
    else
      var n := |s| - 1;
      assert NonNegativeWages(s) ==> NonNegativeWages(s[..n]) && 0.0 <= s[n];
      assert n == 2 ==> Total(s[..n]) == Total(s[..n][..1]) + s[1];
      assert n == 2 ==> Total(s[..n][..1]) == s[0];
      Total(s[..n]) + s[n]
  }

  /** Daily figure for a regular worker: the mean of the three monthly
      wages, over a 30-day month. */
  function RegularDailyWage(wages: WageTriple): (r: real)
    ensures r * 90.0 == wages[0] + wages[1] + wages[2]
  {
    var avgMonthlyWage := Total(wages) / 3.0;
    avgMonthlyWage / 30.0
  }

  /** Equal wages average to themselves. */
  lemma RegularDailyWageUniform(wages: WageTriple, w: real)
    requires wages[0] == w && wages[1] == w && wages[2] == w
    ensures RegularDailyWage(wages) == w / 30.0
  {
  }

  /** The regular daily figure lies between the smallest and largest monthly
      wage, each spread over 30 days. */
  lemma RegularDailyWageBounds(wages: WageTriple, lo: real, hi: real)
    requires forall i :: 0 <= i < 3 ==> lo <= wages[i] <= hi
    ensures lo / 30.0 <= RegularDailyWage(wages) <= hi / 30.0
  {
  }

  // ---------------------------------------------------------------------
  // Daily-wage workers
  // ---------------------------------------------------------------------

  predicate NoNegativeDays(ds: seq<int>) {
    forall i :: 0 <= i < |ds| ==> 0 <= ds[i]
  }

  /** Total days worked, accumulated left to right: the last entry is added
      last. For the three observed months it is their plain sum. */
  function DaySum(ds: seq<int>): (r: int)
    ensures |ds| == 3 ==> r == ds[0] + ds[1] + ds[2]
  {
    if |ds| == 0 then 0
    else
      var n := |ds| - 1;
      assert n == 2 ==> DaySum(ds[..n]) == DaySum(ds[..n][..1]) + ds[1];
      assert n == 2 ==> DaySum(ds[..n][..1]) == ds[0];
      DaySum(ds[..n]) + ds[n]
  }

  /** One month's pay: the daily wage times the days worked. */
  function Pay(wage: real, days: int): real {
    wage * days as real
  }

  /** Total pay: each wage times its worked days, accumulated left to right. */
  function WeightedSum(ws: seq<real>, ds: seq<int>): real
    requires |ws| == |ds|
  {
    if |ws| == 0 then 0.0
    else WeightedSum(ws[..|ws| - 1], ds[..|ds| - 1]) + Pay(ws[|ws| - 1], ds[|ds| - 1])
  }

  /** For the three observed months the total pay is the sum of the three
      wage-times-days products. */
  lemma WeightedSumOfThree(wages: WageTriple, workDays: DayTriple)
    ensures WeightedSum(wages, workDays)
            == wages[0] * workDays[0] as real + wages[1] * workDays[1] as real + wages[2] * workDays[2] as real
  {
    var w2, d2 := wages[..2], workDays[..2];
    var w1, d1 := w2[..1], d2[..1];
    assert WeightedSum(w1, d1) == wages[0] * workDays[0] as real;
    assert WeightedSum(w2, d2) == WeightedSum(w1, d1) + wages[1] * workDays[1] as real;
  }

  /** The accumulation loop over the three months: total pay and total days. */
  method WeightedTotals(wages: WageTriple, workDays: DayTriple) returns (totalWage: real, totalDays: int)
    ensures totalWage == wages[0] * workDays[0] as real + wages[1] * workDays[1] as real
                         + wages[2] * workDays[2] as real
    ensures totalDays == workDays[0] + workDays[1] + workDays[2]
    ensures totalWage == WeightedSum(wages, workDays) && totalDays == DaySum(workDays)
  {
    totalWage := 0.0;
    totalDays := 0;
    var i := 0;
    while i < 3
      invariant 0 <= i <= 3
      invariant totalWage == WeightedSum(wages[..i], workDays[..i])
      invariant totalDays == DaySum(workDays[..i])
    {
      assert wages[..i + 1][..i] == wages[..i];
      assert workDays[..i + 1][..i] == workDays[..i];
      totalWage := totalWage + wages[i] * workDays[i] as real;
      totalDays := totalDays + workDays[i];
      i := i + 1;
    }
    assert wages[..3] == wages;
    assert workDays[..3] == workDays;
    WeightedSumOfThree(wages, workDays);
  }

  /** Average daily wage of a daily-wage worker: total pay over total days,
      or 0 when no positive number of days was worked. */
  function DailyAverageWage(wages: WageTriple, workDays: DayTriple): (r: real)
    ensures DaySum(workDays) > 0 ==> r * DaySum(workDays) as real == WeightedSum(wages, workDays)
    ensures DaySum(workDays) <= 0 ==> r == 0.0
    ensures r == 0.0 <==> DaySum(workDays) <= 0 || WeightedSum(wages, workDays) == 0.0
  {
    var totalWage := WeightedSum(wages, workDays);
    var totalDays := DaySum(workDays);
    if totalDays > 0 then totalWage / totalDays as real else 0.0
  }

  predicate WagesWithin(ws: seq<real>, lo: real, hi: real) {
    forall i :: 0 <= i < |ws| ==> lo <= ws[i] <= hi
  }

  /** Each month's pay at the one wage `k`, summed: what the total pay would
      be if every wage were `k`. */
  function ScaledDays(k: real, ds: seq<int>): real {
    if |ds| == 0 then 0.0 else ScaledDays(k, ds[..|ds| - 1]) + Pay(k, ds[|ds| - 1])
  }

  lemma {:induction false} ScaledDaysIsProduct(k: real, ds: seq<int>)
    ensures ScaledDays(k, ds) == Pay(k, DaySum(ds))
  {
    if |ds| > 0 {
      var n := |ds| - 1;
      ScaledDaysIsProduct(k, ds[..n]);
      assert DaySum(ds) == DaySum(ds[..n]) + ds[n];
      PayAdditive(k, DaySum(ds[..n]), ds[n]);
    }
  }

  /** Pay for two stretches of days at one wage adds up. */
  lemma PayAdditive(k: real, a: int, b: int)
    ensures Pay(k, a + b) == Pay(k, a) + Pay(k, b)
  {
    assert (a + b) as real == a as real + b as real;
  }

  /** Total pay is at least what it would be if every wage were `lo`. */
  lemma {:induction false} WeightedSumAbove(ws: seq<real>, ds: seq<int>, lo: real, hi: real)
    requires |ws| == |ds|
    requires NoNegativeDays(ds) && WagesWithin(ws, lo, hi)
    ensures ScaledDays(lo, ds) <= WeightedSum(ws, ds)
  {
    if |ws| > 0 {
      var n := |ws| - 1;
      PrefixWithin(ws, ds, lo, hi, n);
      WeightedSumAbove(ws[..n], ds[..n], lo, hi);
      WeightedSumLast(ws, ds);
      assert lo <= ws[n] <= hi && 0 <= ds[n];
      ScaleBounds(ws[n], ds[n], lo, hi);
    }
  }

  /** Total pay is at most what it would be if every wage were `hi`. */
  lemma {:induction false} WeightedSumBelow(ws: seq<real>, ds: seq<int>, lo: real, hi: real)
    requires |ws| == |ds|
    requires NoNegativeDays(ds) && WagesWithin(ws, lo, hi)
    ensures WeightedSum(ws, ds) <= ScaledDays(hi, ds)
  {
    if |ws| > 0 {
      var n := |ws| - 1;
      PrefixWithin(ws, ds, lo, hi, n);
      WeightedSumBelow(ws[..n], ds[..n], lo, hi);
      WeightedSumLast(ws, ds);
      assert lo <= ws[n] <= hi && 0 <= ds[n];
      ScaleBounds(ws[n], ds[n], lo, hi);
    }
  }

  /** With no negative day counts, total pay lies between the pay for all the
      days at the smallest wage and the pay for them at the largest. */
  lemma WeightedSumBounds(ws: seq<real>, ds: seq<int>, lo: real, hi: real)
    requires |ws| == |ds|
    requires NoNegativeDays(ds) && WagesWithin(ws, lo, hi)
    ensures Pay(lo, DaySum(ds)) <= WeightedSum(ws, ds) <= Pay(hi, DaySum(ds))
  {
    WeightedSumAbove(ws, ds, lo, hi);
    WeightedSumBelow(ws, ds, lo, hi);
    ScaledDaysIsProduct(lo, ds);
    ScaledDaysIsProduct(hi, ds);
  }

  /** The last month's pay is added onto that of the months before. */
  lemma WeightedSumLast(ws: seq<real>, ds: seq<int>)
    requires |ws| == |ds| > 0
    ensures WeightedSum(ws, ds) == WeightedSum(ws[..|ws| - 1], ds[..|ds| - 1]) + Pay(ws[|ws| - 1], ds[|ds| - 1])
  {
  }

  /** Prefixes keep the day and wage bounds of the whole. */
  lemma PrefixWithin(ws: seq<real>, ds: seq<int>, lo: real, hi: real, n: int)
    requires |ws| == |ds| && 0 <= n <= |ws|
    requires NoNegativeDays(ds) && WagesWithin(ws, lo, hi)
    ensures NoNegativeDays(ds[..n]) && WagesWithin(ws[..n], lo, hi)
  {
  }

  /** For a non-negative day count, pay is monotone in the wage. */
  lemma ScaleBounds(w: real, d: int, lo: real, hi: real)
    requires 0 <= d && lo <= w <= hi
    ensures Pay(lo, d) <= Pay(w, d) <= Pay(hi, d)
  {
  }

  /** Multiplying by a positive factor reflects order. */
  lemma CancelPositive(x: real, y: real, t: real)
    requires 0.0 < t && x * t <= y * t
    ensures x <= y
  {
  }

  /** An average `a` over `days` whose total pay is bounded by the pay at
      `lo` and at `hi` lies between lo and hi. */
  lemma QuotientBounds(s: real, days: int, a: real, lo: real, hi: real)
    requires 0 < days && a * days as real == s
    requires Pay(lo, days) <= s <= Pay(hi, days)
    ensures lo <= a <= hi
  {
    var t := days as real;
    assert lo * t <= a * t;
    CancelPositive(lo, a, t);
    assert a * t <= hi * t;
    CancelPositive(a, hi, t);
  }

  /** A days-weighted average lies between the smallest and largest wage. */
  lemma DailyAverageWageBounds(wages: WageTriple, workDays: DayTriple, lo: real, hi: real)
    requires NoNegativeDays(workDays) && WagesWithin(wages, lo, hi)
    requires DaySum(workDays) > 0
    ensures lo <= DailyAverageWage(wages, workDays) <= hi
  {
    WeightedSumBounds(wages, workDays, lo, hi);
    QuotientBounds(WeightedSum(wages, workDays), DaySum(workDays), DailyAverageWage(wages, workDays), lo, hi);
  }

  /** If every wage is w, the weighted average is w however the days fall. */
  lemma DailyAverageWageUniform(wages: WageTriple, workDays: DayTriple, w: real)
    requires WagesWithin(wages, w, w)
    requires DaySum(workDays) > 0
    ensures DailyAverageWage(wages, workDays) == w
  {
    UniformWeightedSum(wages, workDays, w);
    QuotientBounds(WeightedSum(wages, workDays), DaySum(workDays), DailyAverageWage(wages, workDays), w, w);
  }

  lemma {:induction false} UniformWeightedSum(ws: seq<real>, ds: seq<int>, w: real)
    requires |ws| == |ds| && WagesWithin(ws, w, w)
    ensures WeightedSum(ws, ds) == Pay(w, DaySum(ds))
  {
    if |ws| > 0 {
      var n := |ws| - 1;
      assert WagesWithin(ws[..n], w, w);
      UniformWeightedSum(ws[..n], ds[..n], w);
      WeightedSumLast(ws, ds);
      assert ws[n] == w;
      assert DaySum(ds) == DaySum(ds[..n]) + ds[n];
      PayAdditive(w, DaySum(ds[..n]), ds[n]);
    }
  }

  // ---------------------------------------------------------------------
  // Self-employed base pay
  // ---------------------------------------------------------------------

  /** Monthly base pay by grade, grades 1 to 7. */
  const SelfEmployedBasePay: map<int, real> := map[
    1 := 1000000.0,
    2 := 1500000.0,
    3 := 2000000.0,
    4 := 2500000.0,
    5 := 3000000.0,
    6 := 3500000.0,
    7 := 4000000.0]

  /** The table covers exactly grades 1 to 7, rising by 500,000 per grade. */
  lemma BasePayTableShape(grade: int)
    ensures grade in SelfEmployedBasePay <==> 1 <= grade <= 7
    ensures grade in SelfEmployedBasePay ==> SelfEmployedBasePay[grade] == 500000.0 * (grade + 1) as real
  {
  }

  /** Base pay used when the grade is not in the table. */
  const DefaultBasePay: real := 2000000.0

  /** Monthly base pay: 1,000,000 for grade 1 rising by 500,000 per grade to
      grade 7; any other grade falls back to the default. */
  function BasePay(grade: int): (r: real)
    ensures 1 <= grade <= 7 ==> r == 1000000.0 + 500000.0 * (grade - 1) as real
    ensures !(1 <= grade <= 7) ==> r == DefaultBasePay
  {
    if grade in SelfEmployedBasePay then SelfEmployedBasePay[grade] else DefaultBasePay
  }

  /** Daily figure for a self-employed claimant: base pay over a 30-day month. */
  function SelfEmployedDailyWage(grade: int): (r: real)
    ensures r * 30.0 == BasePay(grade)
    ensures 1000000.0 / 30.0 <= r <= 4000000.0 / 30.0
  {
    BasePay(grade) / 30.0
  }
}
