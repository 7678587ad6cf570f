/**
 * Proleptic Gregorian calendar arithmetic: the part of JavaScript's `Date`
 * that the interpolation of a lunar new year relies on (building a civil date
 * and moving it by a whole number of days with `setDate`).
 *
 * Dates are numbered by `DayNumber`, the count of days since 1 January of
 * year 1; `AddDays` walks a date day by day and is proved to move its number
 * by exactly the requested amount.
 */
module Gregorian {

  /** A civil date (year, month 1..12, day of month), without time or zone. */
  datatype Date = Date(year: int, month: int, day: int)

  predicate IsLeapYear(y: int) {
    y % 4 == 0 && (y % 100 != 0 || y % 400 == 0)
  }

  function DaysInMonth(y: int, m: int): (n: int)
    requires 1 <= m <= 12
    ensures 28 <= n <= 31
    ensures m == 2 ==> (n == 29 <==> IsLeapYear(y))
  {
    if m == 2 then (if IsLeapYear(y) then 29 else 28)
    else if m == 4 || m == 6 || m == 9 || m == 11 then 30
    else 31
  }

  predicate ValidDate(d: Date) {
    1 <= d.month <= 12 && 1 <= d.day <= DaysInMonth(d.year, d.month)
  }

  function YearLength(y: int): int {
    if IsLeapYear(y) then 366 else 365
  }

  /** Days from 1 January of year 1 to 1 January of year `y` (negative before year 1). */
  function DaysBeforeYear(y: int): int {
    365 * (y - 1) + (y - 1) / 4 - (y - 1) / 100 + (y - 1) / 400
  }

  /** Days from 1 January of year `y` to the first day of month `m`. */
  function DaysBeforeMonth(y: int, m: int): int
    requires 1 <= m <= 12
  {
    var common := [0, 31, 59, 90, 120, 151, 181, 212, 243, 273, 304, 334][m - 1];
    if m > 2 && IsLeapYear(y) then common + 1 else common
  }

  function DayNumber(d: Date): int
    requires ValidDate(d)
  {
    DaysBeforeYear(d.year) + DaysBeforeMonth(d.year, d.month) + d.day - 1
  }

  /** Crossing year `y` adds one multiple of `n` to the count exactly when `n` divides `y`. */
  lemma FloorStep(y: int, n: int)
    requires n == 4 || n == 100 || n == 400
    ensures y / n - (y - 1) / n == if y % n == 0 then 1 else 0
  {
    var q, r := (y - 1) / n, (y - 1) % n;
    assert y - 1 == n * q + r && 0 <= r < n;
    if r == n - 1 {
      assert y == n * (q + 1);
    } else {
      assert y == n * q + (r + 1) && 0 <= r + 1 < n;
    }
  }

  lemma Multiple400IsMultiple100(y: int)
    requires y % 400 == 0
    ensures y % 100 == 0
  {
    var q := y / 400;
    assert y == 400 * q;
    assert y / 100 == 4 * q;
  }

  lemma Multiple100IsMultiple4(y: int)
    requires y % 100 == 0
    ensures y % 4 == 0
  {
    var q := y / 100;
    assert y == 100 * q;
    assert y / 4 == 25 * q;
  }

  lemma YearStep(y: int)
    ensures DaysBeforeYear(y + 1) == DaysBeforeYear(y) + YearLength(y)
  {
    FloorStep(y, 4);
    FloorStep(y, 100);
    FloorStep(y, 400);
    if y % 400 == 0 {
      Multiple400IsMultiple100(y);
    }
    if y % 100 == 0 {
      Multiple100IsMultiple4(y);
    }
    var a, b, c := y / 4 - (y - 1) / 4, y / 100 - (y - 1) / 100, y / 400 - (y - 1) / 400;
    assert DaysBeforeYear(y + 1) - DaysBeforeYear(y) == 365 + a - b + c;
  }

  lemma MonthStep(y: int, m: int)
    requires 1 <= m < 12
    ensures DaysBeforeMonth(y, m + 1) == DaysBeforeMonth(y, m) + DaysInMonth(y, m)
  {
  }

  /** The date after `d`, rolling over month and year ends. */
  function NextDay(d: Date): (r: Date)
    requires ValidDate(d)
    ensures ValidDate(r) && DayNumber(r) == DayNumber(d) + 1
  {
    if d.day < DaysInMonth(d.year, d.month) then d.(day := d.day + 1)
    else if d.month < 12 then MonthStep(d.year, d.month); Date(d.year, d.month + 1, 1)
    else YearStep(d.year); Date(d.year + 1, 1, 1)
  }

  /** The date before `d`, rolling back over month and year starts. */
  function PrevDay(d: Date): (r: Date)
    requires ValidDate(d)
    ensures ValidDate(r) && DayNumber(r) == DayNumber(d) - 1
  {
    if d.day > 1 then d.(day := d.day - 1)
    else if d.month > 1 then
      MonthStep(d.year, d.month - 1);
      Date(d.year, d.month - 1, DaysInMonth(d.year, d.month - 1))
    else YearStep(d.year - 1); Date(d.year - 1, 12, 31)
  }

  /**
   * The date `k` days after `d` (before it when `k` is negative): what
   * `date.setDate(date.getDate() + k)` leaves in a JavaScript `Date`.
   */
  function AddDays(d: Date, k: int): (r: Date)
    requires ValidDate(d)
    ensures ValidDate(r) && DayNumber(r) == DayNumber(d) + k
    decreases if k < 0 then -k else k
  {
    if k == 0 then d
    else if k > 0 then AddDays(NextDay(d), k - 1)
    else AddDays(PrevDay(d), k + 1)
  }

  /** Every valid date of year `y` is numbered inside that year's span. */
  lemma DayNumberWithinYear(d: Date)
    requires ValidDate(d)
    ensures DaysBeforeYear(d.year) <= DayNumber(d) < DaysBeforeYear(d.year + 1)
  {
    YearStep(d.year);
  }

  lemma {:induction false} DaysBeforeYearMonotonic(a: int, b: int)
    requires a <= b
    ensures DaysBeforeYear(a) <= DaysBeforeYear(b)
    decreases b - a
  {
    if a < b {
      YearStep(a);
      DaysBeforeYearMonotonic(a + 1, b);
    }
  }

  /** Two valid dates with the same number are the same date. */
  lemma DayNumberInjective(d1: Date, d2: Date)
    requires ValidDate(d1) && ValidDate(d2)
    requires DayNumber(d1) == DayNumber(d2)
    ensures d1 == d2
  {
    DayNumberWithinYear(d1);
    DayNumberWithinYear(d2);
    if d1.year < d2.year {
      DaysBeforeYearMonotonic(d1.year + 1, d2.year);
    } else if d2.year < d1.year {
      DaysBeforeYearMonotonic(d2.year + 1, d1.year);
    }
    if d1.month < d2.month {
      MonthsAfter(d1.year, d1.month, d2.month);
    } else if d2.month < d1.month {
      MonthsAfter(d1.year, d2.month, d1.month);
    }
  }

  /** A later month of the same year starts after every day of an earlier one. */
  lemma MonthsAfter(y: int, m1: int, m2: int)
    requires 1 <= m1 < m2 <= 12
    ensures DaysBeforeMonth(y, m1) + DaysInMonth(y, m1) <= DaysBeforeMonth(y, m2)
  {
  }

  /** `AddDays(d, k)` is the one valid date numbered `k` after `d`. */
  lemma AddDaysUnique(d: Date, k: int, e: Date)
    requires ValidDate(d) && ValidDate(e)
    ensures AddDays(d, k) == e <==> DayNumber(e) == DayNumber(d) + k
  {
    if DayNumber(e) == DayNumber(d) + k {
      DayNumberInjective(AddDays(d, k), e);
    }
  }

}
