/** The proleptic Gregorian calendar: civil dates, day numbers and weekdays counted from Monday. */
module Calendar {
  import opened Domain

  datatype Date = Date(year: int, month: int, day: int)

  const MAX_YEAR := 9999

  predicate Leap(y: int) { y % 4 == 0 && (y % 100 != 0 || y % 400 == 0) }

  function DaysInMonth(y: int, m: int): int {
    if m == 2 then if Leap(y) then 29 else 28
    else if m in {4, 6, 9, 11} then 30
    else 31
  }

  /** A date of the calendar; the representable ones end with the year 9999. */
  predicate Valid(d: Date) { d.year >= 1 && 1 <= d.month <= 12 && 1 <= d.day <= DaysInMonth(d.year, d.month) }

  predicate Representable(d: Date) { Valid(d) && d.year <= MAX_YEAR }

  predicate Less(a: Date, b: Date) {
    a.year < b.year || (a.year == b.year && (a.month < b.month || (a.month == b.month && a.day < b.day)))
  }

  function NextDay(d: Date): (r: Date)
    requires Valid(d)
    ensures Valid(r) && Less(d, r)
  {
    if d.day < DaysInMonth(d.year, d.month) then d.(day := d.day + 1)
    else if d.month < 12 then Date(d.year, d.month + 1, 1)
    else Date(d.year + 1, 1, 1)
  }

  // ----- day numbers -----

  function BeforeYear(y: int): int
    requires y >= 1
  {
    (y - 1) * 365 + (y - 1) / 4 - (y - 1) / 100 + (y - 1) / 400
  }

  function BeforeMonth(y: int, m: int): int
    requires 1 <= m <= 13
    decreases m
  {
    if m == 1 then 0 else BeforeMonth(y, m - 1) + DaysInMonth(y, m - 1)
  }

  /** Day 1 is the first of January of the year 1. */
  function DayNumber(d: Date): int
    requires Valid(d)
  {
    BeforeYear(d.year) + BeforeMonth(d.year, d.month) + d.day
  }

  lemma YearStep(y: int)
    requires y >= 1
    ensures BeforeYear(y + 1) == BeforeYear(y) + (if Leap(y) then 366 else 365)
  {
    assert y / 4 == (y - 1) / 4 + (if y % 4 == 0 then 1 else 0);
    assert y / 100 == (y - 1) / 100 + (if y % 100 == 0 then 1 else 0);
    assert y / 400 == (y - 1) / 400 + (if y % 400 == 0 then 1 else 0);
  }

  lemma YearLength(y: int)
    ensures BeforeMonth(y, 13) == if Leap(y) then 366 else 365
  {
    assert BeforeMonth(y, 4) == 31 + DaysInMonth(y, 2) + 31;
    assert BeforeMonth(y, 7) == BeforeMonth(y, 4) + 30 + 31 + 30;
    assert BeforeMonth(y, 10) == BeforeMonth(y, 7) + 31 + 31 + 30;
    assert BeforeMonth(y, 13) == BeforeMonth(y, 10) + 31 + 30 + 31;
  }

  /** The next day has the next number. */
  lemma NextNumber(d: Date)
    requires Valid(d)
    ensures DayNumber(NextDay(d)) == DayNumber(d) + 1
  {
    hide BeforeYear, Leap;
    YearStep(d.year);
    YearLength(d.year);
    assert BeforeMonth(d.year, d.month + 1) == BeforeMonth(d.year, d.month) + DaysInMonth(d.year, d.month);
    assert BeforeMonth(d.year + 1, 1) == 0;
  }

  lemma {:induction false} MonthsGrow(y: int, m: int, n: int)
    requires 1 <= m <= n <= 13
    ensures BeforeMonth(y, m) <= BeforeMonth(y, n)
    ensures m < n ==> BeforeMonth(y, m) + DaysInMonth(y, m) <= BeforeMonth(y, n)
    decreases n
  {
    if m < n { MonthsGrow(y, m, n - 1); }
  }

  lemma {:induction false} YearsGrow(y: int, z: int)
    requires 1 <= y <= z
    ensures BeforeYear(y) <= BeforeYear(z)
    decreases z
  {
    hide BeforeYear;
    if y < z {
      YearsGrow(y, z - 1);
      YearStep(z - 1);
    }
  }

  lemma WithinYear(d: Date)
    requires Valid(d)
    ensures BeforeYear(d.year) < DayNumber(d) <= BeforeYear(d.year + 1)
  {
    hide BeforeYear, Leap;
    MonthsGrow(d.year, d.month, 13);
    MonthsGrow(d.year, 1, d.month);
    YearLength(d.year);
    YearStep(d.year);
  }

  /** Day numbers order dates as the calendar does. */
  lemma NumbersOrder(a: Date, b: Date)
    requires Valid(a) && Valid(b)
    ensures Less(a, b) <==> DayNumber(a) < DayNumber(b)
    ensures a == b <==> DayNumber(a) == DayNumber(b)
  {
    if Less(a, b) { NumbersGrow(a, b); }
    if Less(b, a) { NumbersGrow(b, a); }
  }

  lemma NumbersGrow(a: Date, b: Date)
    requires Valid(a) && Valid(b) && Less(a, b)
    ensures DayNumber(a) < DayNumber(b)
  {
    hide BeforeYear, Leap;
    if a.year < b.year {
      WithinYear(a);
      WithinYear(b);
      YearsGrow(a.year + 1, b.year);
    } else if a.month < b.month {
      MonthsGrow(a.year, a.month, b.month);
    }
  }

  // ----- and back -----

  /** The date with a given number. */
  function FromNumber(n: int): (d: Date)
    requires n >= 1
    ensures Valid(d)
    decreases n
  {
    if n == 1 then Date(1, 1, 1) else NextDay(FromNumber(n - 1))
  }

  lemma {:induction false} NumberOf(n: int)
    requires n >= 1
    ensures DayNumber(FromNumber(n)) == n
    decreases n
  {
    hide BeforeYear;
    if n == 1 { assert BeforeYear(1) == 0 by { FirstYear(); } } else { NumberOf(n - 1); NextNumber(FromNumber(n - 1)); }
  }

  lemma FirstYear()
    ensures BeforeYear(1) == 0
  {
  }

  /** Day numbers and civil dates determine each other. */
  lemma Bijection(d: Date, n: int)
    requires Valid(d) && n >= 1
    ensures DayNumber(d) >= 1 && FromNumber(DayNumber(d)) == d
    ensures DayNumber(FromNumber(n)) == n
  {
    WithinYear(d);
    YearsGrow(1, d.year);
    FirstYear();
    NumberOf(n);
    NumberOf(DayNumber(d));
    NumbersOrder(FromNumber(DayNumber(d)), d);
  }

  /** The number of the last representable day. */
  const LAST := 3_652_059

  lemma LastDay()
    ensures DayNumber(Date(9999, 12, 31)) == LAST
  {
    YearLength(9999);
    assert BeforeMonth(9999, 13) == BeforeMonth(9999, 12) + 31;
  }

  /** Adding days fails outside the representable dates. */
  function Add(d: Date, days: int): Option<Date>
    requires Valid(d)
  {
    if 1 <= DayNumber(d) + days <= LAST then Some(FromNumber(DayNumber(d) + days)) else None
  }

  lemma AddExactly(d: Date, days: int)
    requires Valid(d)
    ensures Add(d, days).Some? <==> 1 <= DayNumber(d) + days <= LAST
    ensures Add(d, days).Some? ==>
              && Representable(Add(d, days).value) && DayNumber(Add(d, days).value) == DayNumber(d) + days
  {
    hide DayNumber, FromNumber;
    if Add(d, days).Some? {
      NumberOf(DayNumber(d) + days);
      LastDay();
      NumbersOrder(Date(9999, 12, 31), Add(d, days).value);
    }
  }

  /** Monday is 0. */
  function Weekday(d: Date): (w: int)
    requires Valid(d)
    ensures 0 <= w <= 6
  {
    (DayNumber(d) + 6) % 7
  }
}
