/** The proleptic Gregorian calendar and seconds since the Epoch. */
module Calendar {
  datatype Date = Date(year: int, month: int, day: int)    // month 1..12

  predicate Leap(y: int) { y % 4 == 0 && (y % 100 != 0 || y % 400 == 0) }

  function YearLength(y: int): int { if Leap(y) then 366 else 365 }

  function MonthLength(y: int, m: int): int {
    if m == 2 then (if Leap(y) then 29 else 28)
    else if m == 4 || m == 6 || m == 9 || m == 11 then 30
    else 31
  }

  predicate Valid(d: Date) {
    1970 <= d.year && 1 <= d.month <= 12 && 1 <= d.day <= MonthLength(d.year, d.month)
  }

  /** Days from 1 January 1970 to 1 January of `y`, the year terms of the formula in section 4.16 of POSIX.1-2017 (Base
      Definitions), where tm_year is y - 1900. */
  function DaysBeforeYear(y: int): int
    requires y >= 1970
  {
    (y - 1970) * 365 + (y - 1969) / 4 - (y - 1901) / 100 + (y - 1601) / 400
  }

  function {:induction false} DaysBeforeMonth(y: int, m: int): int
    requires 1 <= m
    decreases m
  {
    if m == 1 then 0 else DaysBeforeMonth(y, m - 1) + MonthLength(y, m - 1)
  }

  /** Days since the Epoch; the day of the month need not be in range. */
  function DayNumber(d: Date): int
    requires d.year >= 1970 && 1 <= d.month
  {
    DaysBeforeYear(d.year) + DaysBeforeMonth(d.year, d.month) + d.day - 1
  }

  /** Seconds since the Epoch of a UTC date and time of day: timegm. */
  function SecondsSinceEpoch(d: Date, hour: int, minute: int, second: int): int
    requires d.year >= 1970 && 1 <= d.month
  {
    DayNumber(d) * 86400 + hour * 3600 + minute * 60 + second
  }

  lemma YearsAddUp(y: int)
    requires y >= 1970
    ensures DaysBeforeYear(y + 1) == DaysBeforeYear(y) + YearLength(y)
  {
    // each quotient steps up exactly at the multiples of its divisor
    assert (y - 1968) / 4 == (y - 1969) / 4 + if y % 4 == 0 then 1 else 0;
    assert (y - 1900) / 100 == (y - 1901) / 100 + if y % 100 == 0 then 1 else 0;
    assert (y - 1600) / 400 == (y - 1601) / 400 + if y % 400 == 0 then 1 else 0;
  }

  lemma MonthsAddUp(y: int)
    ensures DaysBeforeMonth(y, 13) == YearLength(y)
  {
    assert DaysBeforeMonth(y, 2) == 31;
    var f := if Leap(y) then 29 else 28;
    assert DaysBeforeMonth(y, 3) == 31 + f;
    assert DaysBeforeMonth(y, 5) == 31 + f + 31 + 30;
    assert DaysBeforeMonth(y, 7) == 31 + f + 31 + 30 + 31 + 30;
    assert DaysBeforeMonth(y, 9) == 31 + f + 31 + 30 + 31 + 30 + 31 + 31;
    assert DaysBeforeMonth(y, 11) == 31 + f + 31 + 30 + 31 + 30 + 31 + 31 + 30 + 31;
    assert DaysBeforeMonth(y, 13) == 31 + f + 31 + 30 + 31 + 30 + 31 + 31 + 30 + 31 + 30 + 31;
  }

  // ---- From a day number to its date ----

  function YearFrom(n: int, y: int): (r: int)
    requires y >= 1970 && DaysBeforeYear(y) <= n
    ensures r >= y && DaysBeforeYear(r) <= n < DaysBeforeYear(r) + YearLength(r)
    decreases n - DaysBeforeYear(y)
  {
    YearsAddUp(y);
    if n < DaysBeforeYear(y) + YearLength(y) then y else YearFrom(n, y + 1)
  }

  function MonthFrom(n: int, y: int, m: int): (r: int)
    requires 1 <= m <= 12 && DaysBeforeMonth(y, m) <= n < YearLength(y)
    ensures m <= r <= 12 && DaysBeforeMonth(y, r) <= n < DaysBeforeMonth(y, r) + MonthLength(y, r)
    decreases 12 - m
  {
    MonthsAddUp(y);
    if n < DaysBeforeMonth(y, m) + MonthLength(y, m) then m else MonthFrom(n, y, m + 1)
  }

  /** The date of a day: the date part of gmtime_r. */
  function DateOf(n: int): (d: Date)
    requires n >= 0
    ensures Valid(d) && DayNumber(d) == n
  {
    assert DaysBeforeYear(1970) == 0;
    var y := YearFrom(n, 1970);
    var left := n - DaysBeforeYear(y);
    var m := MonthFrom(left, y, 1);
    Date(y, m, left - DaysBeforeMonth(y, m) + 1)
  }

  /** mktime on a date whose day may be one beyond the end of its month. */
  function Normalise(d: Date): Date {
    if d.day <= MonthLength(d.year, d.month) then d
    else if d.month < 12 then Date(d.year, d.month + 1, d.day - MonthLength(d.year, d.month))
    else Date(d.year + 1, 1, d.day - MonthLength(d.year, d.month))
  }

  function NextDay(d: Date): Date { Normalise(d.(day := d.day + 1)) }

  /** Normalising the day after a date gives the date of the next day number, across months, years and leap days. */
  lemma NextDayIsNextNumber(d: Date)
    requires Valid(d)
    ensures Valid(NextDay(d)) && DayNumber(NextDay(d)) == DayNumber(d) + 1
  {
    if d.day == MonthLength(d.year, d.month) && d.month == 12 {
      MonthsAddUp(d.year);
      YearsAddUp(d.year);
      assert DaysBeforeMonth(d.year, 13) == DaysBeforeMonth(d.year, 12) + MonthLength(d.year, 12);
    }
  }

  lemma {:induction false} MonthsIncrease(y: int, m: int, n: int)
    requires 1 <= m < n
    ensures DaysBeforeMonth(y, m) + MonthLength(y, m) <= DaysBeforeMonth(y, n)
    decreases n
  {
    if m < n - 1 { MonthsIncrease(y, m, n - 1); }
  }

  lemma {:induction false} YearsIncrease(y: int, z: int)
    requires 1970 <= y < z
    ensures DaysBeforeYear(y) + YearLength(y) <= DaysBeforeYear(z)
    decreases z
  {
    YearsAddUp(z - 1);
    if y < z - 1 { YearsIncrease(y, z - 1); }
  }

  lemma InYear(d: Date)
    requires Valid(d)
    ensures DaysBeforeYear(d.year) <= DayNumber(d) < DaysBeforeYear(d.year) + YearLength(d.year)
    ensures DaysBeforeMonth(d.year, d.month) >= 0
  {
    MonthsAddUp(d.year);
    MonthsIncrease(d.year, d.month, 13);
    if d.month > 1 { MonthsIncrease(d.year, 1, d.month); }
  }

  /** Dates and day numbers correspond one to one. */
  lemma DateOfDayNumber(d: Date)
    requires Valid(d)
    ensures DayNumber(d) >= 0 && DateOf(DayNumber(d)) == d
  {
    InYear(d);
    if d.year > 1970 { YearsIncrease(1970, d.year); }
    var e := DateOf(DayNumber(d));
    InYear(e);
    if d.year < e.year { YearsIncrease(d.year, e.year); }
    if e.year < d.year { YearsIncrease(e.year, d.year); }
    if d.month < e.month { MonthsIncrease(d.year, d.month, e.month); }
    if e.month < d.month { MonthsIncrease(d.year, e.month, d.month); }
  }
}
