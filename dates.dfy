/**
 * Proleptic Gregorian calendar dates as Python's `datetime.date` holds them,
 * with the two shifts the report uses from `dateutil.relativedelta`, the day
 * count of `date.toordinal()` and the ISO 8601 text of `date.isoformat()`.
 */
module Dates {
  import opened Wrappers

  datatype Date = Date(year: int, month: int, day: int)

  predicate IsLeapYear(y: int) {
    y % 4 == 0 && (y % 100 != 0 || y % 400 == 0)
  }

  function DaysInMonth(y: int, m: int): (n: int)
    requires 1 <= m <= 12
    ensures 28 <= n <= 31
    ensures m == 2 ==> (n == 29 <==> IsLeapYear(y))
  {
    if m == 2 then (if IsLeapYear(y) then 29 else 28)
    else if m == 4 || m == 6 || m == 9 || m == 11 then 30
    else 31
  }

  /** A date Python can represent: years 1 (MINYEAR) to 9999 (MAXYEAR). */
  predicate Valid(d: Date) {
    1 <= d.year <= 9999 && 1 <= d.month <= 12 && 1 <= d.day <= DaysInMonth(d.year, d.month)
  }

  /** Months elapsed since January of year 0; one calendar month is one step. */
  function MonthIndex(d: Date): int {
    d.year * 12 + d.month - 1
  }

  function Min(a: int, b: int): int {
    if a <= b then a else b
  }

  // ---------------------------------------------------------------- day count

  /** Days of year `y` that lie before the first of month `m` (m == 13: the whole year). */
  function DaysBeforeMonth(y: int, m: int): nat
    requires 1 <= m <= 13
  {
    if m == 1 then 0 else DaysBeforeMonth(y, m - 1) + DaysInMonth(y, m - 1)
  }

  /** Days before January 1st of year `y`, in the closed form of CPython's `_days_before_year`. */
  function DaysBeforeYear(y: int): int
    requires y >= 1
  {
    var p := y - 1;
    p * 365 + p / 4 - p / 100 + p / 400
  }

  /** Consecutive year starts are one year length apart. */
  lemma DaysBeforeYearStep(y: int)
    requires y >= 2
    ensures DaysBeforeYear(y) == DaysBeforeYear(y - 1) + DaysBeforeMonth(y - 1, 13)
  {
    YearLength(y - 1);
    var q := y - 2;
    assert (q + 1) / 4 == q / 4 + (if (q + 1) % 4 == 0 then 1 else 0);
    assert (q + 1) / 100 == q / 100 + (if (q + 1) % 100 == 0 then 1 else 0);
    assert (q + 1) / 400 == q / 400 + (if (q + 1) % 400 == 0 then 1 else 0);
  }

  /** The day number of `date.toordinal()`: 0001-01-01 is day 1. */
  function Ordinal(d: Date): int
    requires Valid(d)
  {
    DaysBeforeYear(d.year) + DaysBeforeMonth(d.year, d.month) + d.day
  }

  lemma YearLength(y: int)
    ensures DaysBeforeMonth(y, 13) == if IsLeapYear(y) then 366 else 365
  {
    assert DaysBeforeMonth(y, 2) == DaysBeforeMonth(y, 1) + DaysInMonth(y, 1);
    assert DaysBeforeMonth(y, 3) == DaysBeforeMonth(y, 2) + DaysInMonth(y, 2);
    assert DaysBeforeMonth(y, 4) == DaysBeforeMonth(y, 3) + DaysInMonth(y, 3);
    assert DaysBeforeMonth(y, 5) == DaysBeforeMonth(y, 4) + DaysInMonth(y, 4);
    assert DaysBeforeMonth(y, 6) == DaysBeforeMonth(y, 5) + DaysInMonth(y, 5);
    assert DaysBeforeMonth(y, 7) == DaysBeforeMonth(y, 6) + DaysInMonth(y, 6);
    assert DaysBeforeMonth(y, 8) == DaysBeforeMonth(y, 7) + DaysInMonth(y, 7);
    assert DaysBeforeMonth(y, 9) == DaysBeforeMonth(y, 8) + DaysInMonth(y, 8);
    assert DaysBeforeMonth(y, 10) == DaysBeforeMonth(y, 9) + DaysInMonth(y, 9);
    assert DaysBeforeMonth(y, 11) == DaysBeforeMonth(y, 10) + DaysInMonth(y, 10);
    assert DaysBeforeMonth(y, 12) == DaysBeforeMonth(y, 11) + DaysInMonth(y, 11);
    assert DaysBeforeMonth(y, 13) == DaysBeforeMonth(y, 12) + DaysInMonth(y, 12);
  }

  // ------------------------------------------------------------------ shifts

  /**
   * `d - relativedelta(months=+1)`: the same day one calendar month earlier,
   * clamped to the length of that month (2021-03-31 gives 2021-02-28).
   * Python raises ValueError when this leaves year 1, hence the requires.
   */
  function MinusMonth(d: Date): (r: Date)
    requires Valid(d) && (d.year > 1 || d.month > 1)
    ensures Valid(r)
    ensures MonthIndex(r) == MonthIndex(d) - 1
    ensures r.day <= d.day
    ensures r.day == d.day || r.day == DaysInMonth(r.year, r.month)
  {
    var y := if d.month == 1 then d.year - 1 else d.year;
    var m := if d.month == 1 then 12 else d.month - 1;
    Date(y, m, Min(d.day, DaysInMonth(y, m)))
  }

  /**
   * `d - relativedelta(days=+1)`: the previous calendar day.
   * Python raises OverflowError before 0001-01-01, hence the requires.
   */
  function MinusDay(d: Date): (r: Date)
    requires Valid(d) && (d.year > 1 || d.month > 1 || d.day > 1)
    ensures Valid(r)
    ensures Ordinal(r) == Ordinal(d) - 1
  {
    if d.day > 1 then Date(d.year, d.month, d.day - 1)
    else if d.month > 1 then Date(d.year, d.month - 1, DaysInMonth(d.year, d.month - 1))
    else
      DaysBeforeYearStep(d.year);
      Date(d.year - 1, 12, 31)
  }

  /** Stepping from the first of a month back to the first of the month before spans that earlier month. */
  lemma MonthBackFromFirst(d: Date)
    requires Valid(d) && d.day == 1 && (d.year > 1 || d.month > 1)
    ensures MinusMonth(d).day == 1
    ensures Ordinal(d) - Ordinal(MinusMonth(d)) == DaysInMonth(MinusMonth(d).year, MinusMonth(d).month)
  {
    if d.month == 1 {
      DaysBeforeYearStep(d.year);
    }
  }

  // -------------------------------------------------------------- ISO 8601

  function Digit(n: int): char
    requires 0 <= n <= 9
  {
    (48 + n) as char
  }

  predicate IsDigit(c: char) {
    '0' <= c <= '9'
  }

  function DigitValue(c: char): int
    requires IsDigit(c)
  {
    c as int - 48
  }

  function Pad2(n: int): string
    requires 0 <= n <= 99
  {
    [Digit(n / 10), Digit(n % 10)]
  }

  function Pad4(n: int): string
    requires 0 <= n <= 9999
  {
    Pad2(n / 100) + Pad2(n % 100)
  }

  /** The value of the two decimal digits at `s[lo]`, `s[lo + 1]`. */
  function Num2(s: string, lo: int): int
    requires 0 <= lo && lo + 2 <= |s| && IsDigit(s[lo]) && IsDigit(s[lo + 1])
  {
    DigitValue(s[lo]) * 10 + DigitValue(s[lo + 1])
  }

  lemma Pad2Canonical(s: string, lo: int)
    requires 0 <= lo && lo + 2 <= |s| && IsDigit(s[lo]) && IsDigit(s[lo + 1])
    ensures Pad2(Num2(s, lo)) == s[lo..lo + 2]
  {
  }

  /** `date.isoformat()`: YYYY-MM-DD with zero padding. */
  function IsoFormat(d: Date): (s: string)
    requires Valid(d)
    ensures |s| == 10 && s[4] == '-' && s[7] == '-'
    ensures forall k :: 0 <= k < 10 && k != 4 && k != 7 ==> IsDigit(s[k])
  {
    Pad4(d.year) + "-" + Pad2(d.month) + "-" + Pad2(d.day)
  }

  /** `date.fromisoformat(s)` restricted to the YYYY-MM-DD form; None where Python raises ValueError. */
  function FromIsoFormat(s: string): Option<Date> {
    if |s| == 10 && s[4] == '-' && s[7] == '-'
       && (forall k :: 0 <= k < 10 && k != 4 && k != 7 ==> IsDigit(s[k]))
    then
      var d := Date(Num2(s, 0) * 100 + Num2(s, 2), Num2(s, 5), Num2(s, 8));
      if Valid(d) then Some(d) else None
    else None
  }

  /** Every date's ISO text reads back as that date. */
  lemma IsoRoundTrip(d: Date)
    requires Valid(d)
    ensures FromIsoFormat(IsoFormat(d)) == Some(d)
  {
  }

  /** Every text that reads as a date is exactly that date's ISO text. */
  lemma IsoCanonical(s: string, d: Date)
    requires FromIsoFormat(s) == Some(d)
    ensures IsoFormat(d) == s
  {
    Pad2Canonical(s, 0);
    Pad2Canonical(s, 2);
    Pad2Canonical(s, 5);
    Pad2Canonical(s, 8);
    assert d.year / 100 == Num2(s, 0) && d.year % 100 == Num2(s, 2);
    assert s == s[0..2] + s[2..4] + "-" + s[5..7] + "-" + s[8..10];
  }
}
