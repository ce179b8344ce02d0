/**
 * Gregorian calendar arithmetic: the part of JavaScript's Date that the
 * application relies on, in one time zone. A date is the triple that the
 * getters getFullYear / getMonth()+1 / getDate() return; its ordinal is the
 * number of days since 0001-01-01 of the proleptic Gregorian calendar.
 */
module Dates {

  type Month = m: int | 1 <= m <= 12 witness 1
  type DayOfMonth = d: int | 1 <= d <= 31 witness 1

  datatype Date = Date(year: int, month: Month, day: DayOfMonth)

  predicate IsLeap(y: int) {
    y % 4 == 0 && (y % 100 != 0 || y % 400 == 0)
  }

  function DaysInMonth(y: int, m: Month): (n: int)
    ensures 28 <= n <= 31
    ensures n == 28 <==> m == 2 && !IsLeap(y)
    ensures n == 29 <==> m == 2 && IsLeap(y)
  {
    if m == 2 then (if IsLeap(y) then 29 else 28)
    else if m == 4 || m == 6 || m == 9 || m == 11 then 30
    else 31
  }

  function DaysInYear(y: int): int {
    if IsLeap(y) then 366 else 365
  }

  /** A triple that names a real calendar day. */
  predicate Valid(d: Date) {
    d.day <= DaysInMonth(d.year, d.month)
  }

  /** Days of year y that lie before the first of month m (m == 13: the whole year). */
  function DaysBeforeMonth(y: int, m: int): int
    requires 1 <= m <= 13
  {
    var leap := if m > 2 && IsLeap(y) then 1 else 0;
    leap + (
      if m == 1 then 0 else if m == 2 then 31 else if m == 3 then 59
      else if m == 4 then 90 else if m == 5 then 120 else if m == 6 then 151
      else if m == 7 then 181 else if m == 8 then 212 else if m == 9 then 243
      else if m == 10 then 273 else if m == 11 then 304 else if m == 12 then 334
      else 365)
  }

  /** Days from 0001-01-01 to the first of January of year y. */
  function DaysBeforeYear(y: int): int {
    var p := y - 1;
    365 * p + p / 4 - p / 100 + p / 400
  }

  function Ordinal(d: Date): int {
    DaysBeforeYear(d.year) + DaysBeforeMonth(d.year, d.month) + d.day - 1
  }

  /** Day of the week as Date.getDay() numbers it: 0 is Sunday (0001-01-01 was a Monday). */
  function Weekday(d: Date): (w: int)
    ensures 0 <= w < 7
  {
    (Ordinal(d) + 1) % 7
  }

  function NextDay(d: Date): Date {
    if d.day < DaysInMonth(d.year, d.month) then Date(d.year, d.month, d.day + 1)
    else if d.month < 12 then Date(d.year, d.month + 1, 1)
    else Date(d.year + 1, 1, 1)
  }

  function PrevDay(d: Date): Date {
    if d.day > 1 then Date(d.year, d.month, d.day - 1)
    else if d.month > 1 then Date(d.year, d.month - 1, DaysInMonth(d.year, d.month - 1))
    else Date(d.year - 1, 12, 31)
  }

  /** The day n days after d (before it when n is negative), as Date.setDate normalises it. */
  function AddDays(d: Date, n: int): Date
    decreases if n >= 0 then n else -n
  {
    if n == 0 then d
    else if n > 0 then AddDays(NextDay(d), n - 1)
    else AddDays(PrevDay(d), n + 1)
  }

  /**
   * The JavaScript constructor `new Date(y, monthIndex, day)` (years below 100
   * aside): monthIndex counts from 0 and may overflow into other years, day
   * counts from 1 and may overflow into other months (day 0 is the last day of
   * the previous month).
   */
  function JsDate(y: int, monthIndex: int, day: int): Date {
    AddDays(Date(y + monthIndex / 12, monthIndex % 12 + 1, 1), day - 1)
  }

  /** Lexicographic comparison of (year, month, day), as -1, 0 or 1. */
  function DateCompare(a: Date, b: Date): (c: int)
    ensures c == 0 <==> a == b
    ensures c == -1 || c == 0 || c == 1
  {
    if a.year != b.year then (if a.year < b.year then -1 else 1)
    else if a.month != b.month then (if a.month < b.month then -1 else 1)
    else if a.day != b.day then (if a.day < b.day then -1 else 1)
    else 0
  }

  // ---------------------------------------------------------------------
  // Ordinal arithmetic

  lemma YearStep(y: int)
    ensures DaysBeforeYear(y + 1) == DaysBeforeYear(y) + DaysInYear(y)
  {
    var p := y - 1;
    assert y / 4 - p / 4 == (if y % 4 == 0 then 1 else 0);
    assert y / 100 - p / 100 == (if y % 100 == 0 then 1 else 0);
    assert y / 400 - p / 400 == (if y % 400 == 0 then 1 else 0);
  }

  lemma MonthStep(y: int, m: Month)
    ensures DaysBeforeMonth(y, m + 1) == DaysBeforeMonth(y, m) + DaysInMonth(y, m)
  {
  }

  /** The successor of a valid date is the valid date one ordinal later. */
  lemma NextDayOrdinal(d: Date)
    requires Valid(d)
    ensures Valid(NextDay(d)) && Ordinal(NextDay(d)) == Ordinal(d) + 1
  {
    MonthStep(d.year, d.month);
    if d.day == DaysInMonth(d.year, d.month) && d.month == 12 {
      YearStep(d.year);
    }
  }

  lemma PrevDayOrdinal(d: Date)
    requires Valid(d)
    ensures Valid(PrevDay(d)) && NextDay(PrevDay(d)) == d && Ordinal(PrevDay(d)) == Ordinal(d) - 1
  {
    if d.day == 1 {
      if d.month > 1 {
        MonthStep(d.year, d.month - 1);
      } else {
        YearStep(d.year - 1);
      }
    }
    NextDayOrdinal(PrevDay(d));
  }

  lemma {:induction false} AddDaysOrdinal(d: Date, n: int)
    requires Valid(d)
    ensures Valid(AddDays(d, n)) && Ordinal(AddDays(d, n)) == Ordinal(d) + n
    decreases if n >= 0 then n else -n
  {
    if n > 0 {
      NextDayOrdinal(d);
      AddDaysOrdinal(NextDay(d), n - 1);
    } else if n < 0 {
      PrevDayOrdinal(d);
      AddDaysOrdinal(PrevDay(d), n + 1);
    }
  }

  /** Moving forward inside one month only changes the day. */
  lemma {:induction false} AddDaysWithinMonth(d: Date, n: nat)
    requires d.day + n <= DaysInMonth(d.year, d.month)
    ensures AddDays(d, n) == Date(d.year, d.month, d.day + n)
    decreases n
  {
    if n > 0 {
      AddDaysWithinMonth(NextDay(d), n - 1);
    }
  }

  /** Moving backward inside one month only changes the day. */
  lemma {:induction false} SubDaysWithinMonth(d: Date, n: int)
    requires 0 <= n && d.day - n >= 1
    ensures AddDays(d, -n) == Date(d.year, d.month, d.day - n)
    decreases n
  {
    if n > 0 {
      SubDaysWithinMonth(PrevDay(d), n - 1);
    }
  }

  /** The constructor agrees with the triple on every valid date. */
  lemma JsDateOfValid(y: int, m: Month, day: DayOfMonth)
    requires Valid(Date(y, m, day))
    ensures JsDate(y, m - 1, day) == Date(y, m, day)
  {
    AddDaysWithinMonth(Date(y, m, 1), day - 1);
  }

  function FirstOfMonth(y: int, m: Month): Date { Date(y, m, 1) }

  function LastOfMonth(y: int, m: Month): Date { Date(y, m, DaysInMonth(y, m)) }

  function PrevMonthYear(y: int, m: Month): (int, Month) {
    if m == 1 then (y - 1, 12) else (y, m - 1)
  }

  function NextMonthYear(y: int, m: Month): (int, Month) {
    if m == 12 then (y + 1, 1) else (y, m + 1)
  }

  lemma MonthBoundaries(y: int, m: Month)
    ensures NextDay(LastOfMonth(y, m)) == FirstOfMonth(NextMonthYear(y, m).0, NextMonthYear(y, m).1)
    ensures PrevDay(FirstOfMonth(y, m)) == LastOfMonth(PrevMonthYear(y, m).0, PrevMonthYear(y, m).1)
    ensures Ordinal(LastOfMonth(y, m)) == Ordinal(FirstOfMonth(y, m)) + DaysInMonth(y, m) - 1
  {
    NextDayOrdinal(LastOfMonth(y, m));
    assert LastOfMonth(y, m) == Date(y, m, 1 + (DaysInMonth(y, m) - 1));
  }

  /**
   * `new Date(y, mi, 1)` and `new Date(y, mi + 1, 0)` are the first and the
   * last day of one month, whatever month index mi overflows to.
   */
  lemma JsMonthSpan(y: int, mi: int)
    ensures JsDate(y, mi, 1) == FirstOfMonth(y + mi / 12, mi % 12 + 1)
    ensures JsDate(y, mi + 1, 0) == LastOfMonth(y + mi / 12, mi % 12 + 1)
  {
    var ym, m: Month := y + mi / 12, mi % 12 + 1;
    var next := NextMonthYear(ym, m);
    if m == 12 {
      assert (mi + 1) / 12 == mi / 12 + 1 && (mi + 1) % 12 == 0;
    } else {
      assert (mi + 1) / 12 == mi / 12 && (mi + 1) % 12 == mi % 12 + 1;
    }
    var first := Date(y + (mi + 1) / 12, (mi + 1) % 12 + 1, 1);
    assert first == FirstOfMonth(next.0, next.1);
    assert AddDays(first, -1) == AddDays(PrevDay(first), 0) == PrevDay(first);
    MonthBoundaries(next.0, next.1);
    assert PrevMonthYear(next.0, next.1) == (ym, m);
  }

  // ---------------------------------------------------------------------
  // Order

  lemma {:induction false} YearsMonotone(y1: int, y2: int)
    requires y1 < y2
    ensures DaysBeforeYear(y1) + DaysInYear(y1) <= DaysBeforeYear(y2)
    decreases y2 - y1
  {
    YearStep(y1);
    if y1 + 1 < y2 {
      YearsMonotone(y1 + 1, y2);
    }
  }

  lemma MonthsMonotone(y: int, m1: Month, m2: Month)
    requires m1 < m2
    ensures DaysBeforeMonth(y, m1) + DaysInMonth(y, m1) <= DaysBeforeMonth(y, m2)
  {
  }

  lemma OrdinalInYear(d: Date)
    requires Valid(d)
    ensures DaysBeforeYear(d.year) <= Ordinal(d) < DaysBeforeYear(d.year) + DaysInYear(d.year)
  {
    MonthStep(d.year, d.month);
    assert DaysBeforeMonth(d.year, d.month + 1) <= DaysBeforeMonth(d.year, 13);
  }

  /** On valid dates the triple order and the ordinal order agree. */
  lemma OrdinalOrder(a: Date, b: Date)
    requires Valid(a) && Valid(b)
    ensures DateCompare(a, b) < 0 <==> Ordinal(a) < Ordinal(b)
    ensures a == b <==> Ordinal(a) == Ordinal(b)
  {
    OrdinalInYear(a);
    OrdinalInYear(b);
    if a.year < b.year {
      YearsMonotone(a.year, b.year);
    } else if b.year < a.year {
      YearsMonotone(b.year, a.year);
    } else if a.month < b.month {
      MonthsMonotone(a.year, a.month, b.month);
    } else if b.month < a.month {
      MonthsMonotone(a.year, b.month, a.month);
    }
  }

  /** A valid date lies in a month exactly when its ordinal lies between the month's first and last. */
  lemma InMonthByOrdinal(d: Date, y: int, m: Month)
    requires Valid(d)
    ensures d.year == y && d.month == m
        <==> Ordinal(FirstOfMonth(y, m)) <= Ordinal(d) <= Ordinal(LastOfMonth(y, m))
  {
    OrdinalOrder(d, FirstOfMonth(y, m));
    OrdinalOrder(LastOfMonth(y, m), d);
  }

  /** Two valid dates with the same ordinal are the same date. */
  lemma OrdinalInjective(a: Date, b: Date)
    requires Valid(a) && Valid(b) && Ordinal(a) == Ordinal(b)
    ensures a == b
  {
    OrdinalOrder(a, b);
  }
}
