/** Calendar arithmetic used by the benefit calculator: whole-month insured
    duration between two dates, and age at a reference date from a six-digit
    YYMMDD birth code with a two-digit year. */
module Dates {

  /** A calendar date already split into its fields; `month` is 1..12 for a
      real date. */
  datatype Date = Date(year: int, month: int, day: int)

  predicate ValidMonth(d: Date) {
    1 <= d.month <= 12
  }

  /** Absolute month number: months elapsed since January of year 0. */
  function MonthIndex(d: Date): int {
    d.year * 12 + (d.month - 1)
  }

  /** Whole months from `start` to `end`, counted on year and month only; the
      day of month plays no part and the result may be zero or negative. */
  function MonthsBetween(start: Date, end: Date): (r: int)
    ensures r == MonthIndex(end) - MonthIndex(start)
  {
    var yearDiff := end.year - start.year;
    var monthDiff := end.month - start.month;
    yearDiff * 12 + monthDiff
  }

  /** The date `k` calendar months after `d` (before it when `k` is negative),
      keeping the day field: the inverse of `MonthsBetween`. */
  function AddMonths(d: Date, k: int): (r: Date)
    ensures ValidMonth(r)
    ensures r.day == d.day
  {
    var i := d.month - 1 + k;
    Date(d.year + i / 12, i % 12 + 1, d.day)
  }

  predicate SameMonth(a: Date, b: Date) {
    a.year == b.year && a.month == b.month
  }

  lemma MonthsBetweenSameMonth(start: Date, end: Date)
    requires SameMonth(start, end)
    ensures MonthsBetween(start, end) == 0
  {
  }

  lemma MonthsBetweenAntisymmetric(a: Date, b: Date)
    ensures MonthsBetween(a, b) == -MonthsBetween(b, a)
  {
  }

  /** Durations chain: the months from a to b plus those from b to c. */
  lemma MonthsBetweenAdditive(a: Date, b: Date, c: Date)
    ensures MonthsBetween(a, b) + MonthsBetween(b, c) == MonthsBetween(a, c)
  {
  }

  /** Only year and month matter: moving either date within its month
      leaves the duration unchanged. */
  lemma MonthsBetweenIgnoresDay(s1: Date, e1: Date, s2: Date, e2: Date)
    requires SameMonth(s1, s2) && SameMonth(e1, e2)
    ensures MonthsBetween(s1, e1) == MonthsBetween(s2, e2)
  {
  }

  /** Adding k months and measuring the distance back gives k. */
  lemma MonthsBetweenAddMonths(start: Date, k: int)
    requires ValidMonth(start)
    ensures MonthsBetween(start, AddMonths(start, k)) == k
  {
  }

  /** Adding the measured duration to the start lands in the end's month. */
  lemma AddMonthsBetween(start: Date, end: Date)
    requires ValidMonth(start) && ValidMonth(end)
    ensures SameMonth(AddMonths(start, MonthsBetween(start, end)), end)
  {
  }

  // ---------------------------------------------------------------------
  // Birth codes and age
  // ---------------------------------------------------------------------

  /** A YYMMDD birth code split into its three two-digit fields. */
  datatype BirthCode = BirthCode(yy: int, mm: int, dd: int)

  /** Two-digit years up to this value belong to the 2000s, later ones to the 1900s. */
  const CenturyPivot: int := 25

  /** Four-digit birth year for a two-digit year: the one year in 1926..2025
      whose last two digits are `yy`. */
  function BirthYear(yy: int): (y: int)
    ensures 0 <= yy <= 99 ==> 1926 <= y <= 2025 && y % 100 == yy
  {
    if yy <= CenturyPivot then 2000 + yy else 1900 + yy
  }

  /** No other year in the window ends in the same two digits. */
  lemma BirthYearUnique(yy: int, y: int)
    requires 0 <= yy <= 99
    requires 1926 <= y <= 2025 && y % 100 == yy
    ensures y == BirthYear(yy)
  {
  }

  /** The birth date a code stands for: the pivoted year, with the month and
      day fields kept as given. */
  function BirthDate(b: BirthCode): (d: Date)
    ensures 0 <= b.yy <= 99 ==> 1926 <= d.year <= 2025 && d.year % 100 == b.yy
    ensures d.month == b.mm && d.day == b.dd
  {
    Date(BirthYear(b.yy), b.mm, b.dd)
  }

  /** Calendar order on (year, month, day). */
  predicate OnOrBefore(a: Date, b: Date) {
    a.year < b.year
    || (a.year == b.year && a.month < b.month)
    || (a.year == b.year && a.month == b.month && a.day <= b.day)
  }

  /** The n-th birthday of someone born on `d`. */
  function Anniversary(d: Date, n: int): Date {
    Date(d.year + n, d.month, d.day)
  }

  /** Age in whole years at `ref`: the last anniversary of the birth date
      falling on or before `ref`. */
  function Age(birth: BirthCode, ref: Date): (age: int)
    ensures OnOrBefore(Anniversary(BirthDate(birth), age), ref)
    ensures !OnOrBefore(Anniversary(BirthDate(birth), age + 1), ref)
  {
    var birthDate := BirthDate(birth);
    var years := ref.year - birthDate.year;
    var monthDiff := ref.month - birthDate.month;
    if monthDiff < 0 || (monthDiff == 0 && ref.day < birthDate.day) then years - 1 else years
  }

  /** The anniversary characterisation pins the age down: any n satisfying it is the age. */
  lemma AgeUnique(birth: BirthCode, ref: Date, n: int)
    requires OnOrBefore(Anniversary(BirthDate(birth), n), ref)
    requires !OnOrBefore(Anniversary(BirthDate(birth), n + 1), ref)
    ensures n == Age(birth, ref)
  {
  }

  /** Year difference, reduced by one exactly when the reference month/day is
      earlier in the year than the birth month/day. */
  lemma AgeBirthdayRule(birth: BirthCode, ref: Date)
    ensures var before := ref.month < birth.mm || (ref.month == birth.mm && ref.day < birth.dd);
            Age(birth, ref) == ref.year - BirthYear(birth.yy) - (if before then 1 else 0)
  {
  }

  // ---------------------------------------------------------------------
  // The six-character YYMMDD text
  // ---------------------------------------------------------------------

  predicate IsDigit(c: char) {
    '0' <= c <= '9'
  }

  predicate IsSixDigits(s: string) {
    |s| == 6 && forall i :: 0 <= i < 6 ==> IsDigit(s[i])
  }

  function DigitValue(c: char): (v: int)
    requires IsDigit(c)
    ensures 0 <= v <= 9
  {
    c as int - '0' as int
  }

  function DigitChar(v: int): (c: char)
    requires 0 <= v <= 9
    ensures IsDigit(c) && DigitValue(c) == v
  {
    ('0' as int + v) as char
  }

  /** Value of a two-character decimal field. */
  function TwoDigits(hi: char, lo: char): (v: int)
    requires IsDigit(hi) && IsDigit(lo)
    ensures 0 <= v <= 99
  {
    DigitValue(hi) * 10 + DigitValue(lo)
  }

  /** Split a YYMMDD code into its year, month and day fields. */
  function ParseBirthCode(s: string): (b: BirthCode)
    requires IsSixDigits(s)
    ensures 0 <= b.yy <= 99 && 0 <= b.mm <= 99 && 0 <= b.dd <= 99
  {
    BirthCode(TwoDigits(s[0], s[1]), TwoDigits(s[2], s[3]), TwoDigits(s[4], s[5]))
  }

  predicate FieldsInRange(b: BirthCode) {
    0 <= b.yy <= 99 && 0 <= b.mm <= 99 && 0 <= b.dd <= 99
  }

  /** The YYMMDD text of a birth code, each field zero-padded to two digits. */
  function FormatBirthCode(b: BirthCode): (s: string)
    requires FieldsInRange(b)
    ensures IsSixDigits(s)
  {
    [DigitChar(b.yy / 10), DigitChar(b.yy % 10),
     DigitChar(b.mm / 10), DigitChar(b.mm % 10),
     DigitChar(b.dd / 10), DigitChar(b.dd % 10)]
  }

  lemma ParseFormatBirthCode(b: BirthCode)
    requires FieldsInRange(b)
    ensures ParseBirthCode(FormatBirthCode(b)) == b
  {
  }

  lemma FormatParseBirthCode(s: string)
    requires IsSixDigits(s)
    ensures FormatBirthCode(ParseBirthCode(s)) == s
  {
    assert IsDigit(s[0]) && IsDigit(s[1]) && IsDigit(s[2]);
    assert IsDigit(s[3]) && IsDigit(s[4]) && IsDigit(s[5]);
    TwoDigitsSplit(s[0], s[1]);
    TwoDigitsSplit(s[2], s[3]);
    TwoDigitsSplit(s[4], s[5]);
    var t := FormatBirthCode(ParseBirthCode(s));
    assert t == [s[0], s[1], s[2], s[3], s[4], s[5]];
  }

  /** A two-digit field's tens and units digits are the characters it came from. */
  lemma TwoDigitsSplit(hi: char, lo: char)
    requires IsDigit(hi) && IsDigit(lo)
    ensures DigitChar(TwoDigits(hi, lo) / 10) == hi
    ensures DigitChar(TwoDigits(hi, lo) % 10) == lo
  {
  }
}
