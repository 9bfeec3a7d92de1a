/**
 * Gregorian calendar arithmetic behind the training log: the month lengths
 * that `new Date(y, m + 1, 0).getDate()` yields, a day number that turns
 * "consecutive calendar days" into "consecutive integers", stepping one day
 * backward (the streak walk) and forward (the weekly plan), and the weekday
 * that `Date.getDay()` reports (0 = Sunday).
 *
 * A `Date` is a local calendar date `(year, month, day)` with `month` in
 * 1..12, so the source's 0-based `getMonth()` is `month - 1`.
 */
module Dates {

  datatype Date = Date(year: int, month: int, day: int)

  predicate IsLeapYear(y: int) {
    y % 4 == 0 && (y % 100 != 0 || y % 400 == 0)
  }

  /** Last day of month `m` of year `y`, i.e. `new Date(y, m, 0).getDate()`. */
  function DaysInMonth(y: int, m: int): (n: int)
    requires 1 <= m <= 12
    ensures 28 <= n <= 31
    ensures n == 29 <==> m == 2 && IsLeapYear(y)
    ensures n == 28 <==> m == 2 && !IsLeapYear(y)
  {
    if m == 2 then (if IsLeapYear(y) then 29 else 28)
    else if m == 4 || m == 6 || m == 9 || m == 11 then 30
    else 31
  }

  predicate ValidDate(d: Date) {
    1 <= d.month <= 12 && 1 <= d.day <= DaysInMonth(d.year, d.month)
  }

  /** Days from 0001-01-01 (day 0, a Monday) to January 1st of year `y`. */
  function DaysBeforeYear(y: int): int {
    365 * (y - 1) + (y - 1) / 4 - (y - 1) / 100 + (y - 1) / 400
  }

  /** Days before the first of each month in a common year; entry 12 is the whole year. */
  const CommonDaysBefore: seq<int> := [0, 31, 59, 90, 120, 151, 181, 212, 243, 273, 304, 334, 365]

  /** Days from January 1st to the first of month `m` (13 means the next January 1st). */
  function DaysBeforeMonth(y: int, m: int): int
    requires 1 <= m <= 13
  {
    CommonDaysBefore[m - 1] + (if m > 2 && IsLeapYear(y) then 1 else 0)
  }

  /** The number of days between 0001-01-01 and `d` in the proleptic Gregorian calendar. */
  function DayNumber(d: Date): int
    requires 1 <= d.month <= 12
  {
    DaysBeforeYear(d.year) + DaysBeforeMonth(d.year, d.month) + d.day - 1
  }

  /** `Date.getDay()`: 0 is Sunday, 6 is Saturday. */
  function Weekday(d: Date): (w: int)
    requires 1 <= d.month <= 12
    ensures 0 <= w < 7
  {
    (DayNumber(d) + 1) % 7
  }

  lemma MonthStep(y: int, m: int)
    requires 1 <= m <= 12
    ensures DaysBeforeMonth(y, m + 1) == DaysBeforeMonth(y, m) + DaysInMonth(y, m)
  {
  }

  /** A year has 366 days exactly when it is a leap year. */
  lemma YearLength(y: int)
    ensures DaysBeforeYear(y + 1) == DaysBeforeYear(y) + DaysBeforeMonth(y, 13)
  {
    DivStep4(y);
    DivStep100(y);
    DivStep400(y);
    LeapFactors(y);
  }

  /** Multiples of 400 are multiples of 100, and multiples of 100 are multiples of 4. */
  lemma LeapFactors(y: int)
    ensures y % 400 == 0 ==> y % 100 == 0
    ensures y % 100 == 0 ==> y % 4 == 0
  {
    if y % 400 == 0 {
      var k := y / 400;
      assert y == 400 * k;
      TimesHundred(4 * k);
    }
    if y % 100 == 0 {
      var k := y / 100;
      assert y == 100 * k;
      TimesFour(25 * k);
    }
  }

  lemma TimesHundred(m: int)
    ensures (100 * m) % 100 == 0
  {
  }

  lemma TimesFour(m: int)
    ensures (4 * m) % 4 == 0
  {
  }

  /** Going from `y - 1` to `y` raises `y / 4` by one exactly when 4 divides `y`; likewise for 100 and 400. */
  lemma DivStep4(y: int)
    ensures y / 4 - (y - 1) / 4 == if y % 4 == 0 then 1 else 0
  {
  }

  lemma DivStep100(y: int)
    ensures y / 100 - (y - 1) / 100 == if y % 100 == 0 then 1 else 0
  {
  }

  lemma DivStep400(y: int)
    ensures y / 400 - (y - 1) / 400 == if y % 400 == 0 then 1 else 0
  {
  }

  lemma {:induction false} DaysBeforeYearMonotone(a: int, b: int)
    requires a <= b
    ensures DaysBeforeYear(a) <= DaysBeforeYear(b)
    decreases b - a
  {
    if a < b {
      YearLength(a);
      DaysBeforeYearMonotone(a + 1, b);
    }
  }

  /** The day number of a valid date lies within its year and its month. */
  lemma DayNumberWithin(d: Date)
    requires ValidDate(d)
    ensures DaysBeforeYear(d.year) + DaysBeforeMonth(d.year, d.month) <= DayNumber(d)
    ensures DayNumber(d) < DaysBeforeYear(d.year) + DaysBeforeMonth(d.year, d.month + 1)
    ensures DayNumber(d) < DaysBeforeYear(d.year + 1)
  {
    MonthStep(d.year, d.month);
    YearLength(d.year);
  }

  /** Later months start later in the year. */
  lemma DaysBeforeMonthMonotone(y: int, m1: int, m2: int)
    requires 1 <= m1 <= m2 <= 13
    ensures DaysBeforeMonth(y, m1) <= DaysBeforeMonth(y, m2)
  {
    assert forall i, j :: 0 <= i <= j < 13 ==> CommonDaysBefore[i] <= CommonDaysBefore[j];
  }

  /** Distinct valid dates have distinct day numbers. */
  lemma DayNumberInjective(a: Date, b: Date)
    requires ValidDate(a) && ValidDate(b)
    requires DayNumber(a) == DayNumber(b)
    ensures a == b
  {
    if a.year < b.year {
      EarlierYear(a, b);
      assert false;
    } else if b.year < a.year {
      EarlierYear(b, a);
      assert false;
    } else if a.month < b.month {
      EarlierMonth(a, b);
      assert false;
    } else if b.month < a.month {
      EarlierMonth(b, a);
      assert false;
    }
  }

  /** A date in an earlier year has a smaller day number. */
  lemma EarlierYear(a: Date, b: Date)
    requires ValidDate(a) && ValidDate(b) && a.year < b.year
    ensures DayNumber(a) < DayNumber(b)
  {
    DayNumberWithin(a);
    DayNumberWithin(b);
    DaysBeforeYearMonotone(a.year + 1, b.year);
  }

  /** A date in an earlier month of the same year has a smaller day number. */
  lemma EarlierMonth(a: Date, b: Date)
    requires ValidDate(a) && ValidDate(b) && a.year == b.year && a.month < b.month
    ensures DayNumber(a) < DayNumber(b)
  {
    DayNumberWithin(a);
    DaysBeforeMonthMonotone(a.year, a.month + 1, b.month);
  }

  /** The last day of a month comes right before the first of the next. */
  lemma MonthBoundary(y: int, m: int)
    requires 1 <= m < 12
    ensures DayNumber(Date(y, m, DaysInMonth(y, m))) + 1 == DayNumber(Date(y, m + 1, 1))
  {
    MonthStep(y, m);
  }

  /** December 31st comes right before January 1st of the next year. */
  lemma YearBoundary(y: int)
    ensures DayNumber(Date(y, 12, 31)) + 1 == DayNumber(Date(y + 1, 1, 1))
  {
    YearLength(y);
  }

  /** The previous calendar day, as `date.setDate(date.getDate() - 1)` yields it. */
  function PrevDay(d: Date): (p: Date)
    requires ValidDate(d)
    ensures ValidDate(p)
    ensures DayNumber(p) == DayNumber(d) - 1
  {
    if d.day > 1 then Date(d.year, d.month, d.day - 1)
    else if d.month > 1 then
      MonthBoundary(d.year, d.month - 1);
      Date(d.year, d.month - 1, DaysInMonth(d.year, d.month - 1))
    else
      YearBoundary(d.year - 1);
      Date(d.year - 1, 12, 31)
  }

  /** The next calendar day, as `date.setDate(date.getDate() + 1)` yields it. */
  function NextDay(d: Date): (n: Date)
    requires ValidDate(d)
    ensures ValidDate(n)
    ensures DayNumber(n) == DayNumber(d) + 1
  {
    if d.day < DaysInMonth(d.year, d.month) then Date(d.year, d.month, d.day + 1)
    else if d.month < 12 then
      MonthBoundary(d.year, d.month);
      Date(d.year, d.month + 1, 1)
    else
      YearBoundary(d.year);
      Date(d.year + 1, 1, 1)
  }

  /** `d` moved `n` days forward. */
  function AddDays(d: Date, n: nat): (r: Date)
    requires ValidDate(d)
    ensures ValidDate(r)
    ensures DayNumber(r) == DayNumber(d) + n
    decreases n
  {
    if n == 0 then d else AddDays(NextDay(d), n - 1)
  }

  /** `d` moved `n` days backward. */
  function StepBack(d: Date, n: nat): (r: Date)
    requires ValidDate(d)
    ensures ValidDate(r)
    ensures DayNumber(r) == DayNumber(d) - n
    decreases n
  {
    if n == 0 then d else PrevDay(StepBack(d, n - 1))
  }

  lemma ModSevenShift(x: int, n: int)
    ensures (x + n) % 7 == (x % 7 + n) % 7
  {
  }

  /** Days one apart in number are one apart in weekday. */
  lemma WeekdayOfAddDays(d: Date, n: nat)
    requires ValidDate(d)
    ensures Weekday(AddDays(d, n)) == (Weekday(d) + n) % 7
  {
    WeekdayShift(d, AddDays(d, n), n);
  }

  /** Weekdays follow day numbers round the week. */
  lemma WeekdayShift(a: Date, b: Date, n: int)
    requires 1 <= a.month <= 12 && 1 <= b.month <= 12
    requires DayNumber(b) == DayNumber(a) + n
    ensures Weekday(b) == (Weekday(a) + n) % 7
  {
    ModSevenShift(DayNumber(a) + 1, n);
  }

  /** 2025-06-01 was a Sunday: the day-number epoch agrees with `getDay()`. */
  lemma WeekdayAnchor()
    ensures Weekday(Date(2025, 6, 1)) == 0
  {
  }
}
