/**
 * The calendar helpers of src/lib/utils/calendar.ts: the grid of whole weeks,
 * Sunday to Saturday, around a month; the balance shown on a cell; the
 * month test that greys out the cells of other months.
 */
module Calendar {
  import opened Wrappers
  import opened Dates
  import opened Format
  import opened Transactions

  /** `new Date(year, month - 1, 1)`. */
  function FirstDay(year: int, month: int): Date {
    JsLocalDate(year, month - 1, 1)
  }

  /** `new Date(year, month, 0)`. */
  function LastDay(year: int, month: int): Date {
    JsLocalDate(year, month, 0)
  }

  /** The year and month the grid shows: the constructor's reading of (year, month). */
  function ShownMonth(year: int, month: int): (int, Month) {
    var y := if 0 <= year <= 99 then 1900 + year else year;
    (y + (month - 1) / 12, (month - 1) % 12 + 1)
  }

  /** A month number from 1 to 12 of a year outside 0..99 is shown as itself. */
  lemma ShownPlain(year: int, month: int)
    requires !(0 <= year <= 99) && 1 <= month <= 12
    ensures ShownMonth(year, month) == (year, month)
  {
    assert (month - 1) / 12 == 0;
  }

  /** Leading cells, the month's days, trailing cells. */
  function GridSize(year: int, month: int): nat {
    Weekday(FirstDay(year, month)) + LastDay(year, month).day + (6 - Weekday(LastDay(year, month)))
  }

  /** Cell k of the grid: the day k places after the Sunday that starts it. */
  function Grid(year: int, month: int): seq<Date> {
    var first := FirstDay(year, month);
    seq(GridSize(year, month), k requires 0 <= k < GridSize(year, month) => AddDays(first, k - Weekday(first)))
  }

  /** `getDaysInMonth`: unshift the days before the 1st, push the month's days, push the days after. */
  method GetDaysInMonth(year: int, month: int) returns (days: seq<Date>)
    ensures days == Grid(year, month)
  {
    var firstDay := JsLocalDate(year, month - 1, 1);
    var lastDay := JsLocalDate(year, month, 0);
    days := [];
    ghost var n := GridSize(year, month);
    MonthSpan(year, month);

    var startDay := Weekday(firstDay);
    var i := 0;
    while i < startDay
      invariant 0 <= i <= startDay
      invariant days == seq(i, k requires 0 <= k < i => AddDays(firstDay, k - i))
    {
      var prevDate := JsLocalDate(year, month - 1, -i);
      ghost var before := days;
      days := [prevDate] + days;
      i := i + 1;
      assert forall k :: 0 < k < i ==> days[k] == before[k - 1];
    }

    var day := 1;
    while day <= lastDay.day
      invariant 1 <= day <= lastDay.day + 1
      invariant days == Grid(year, month)[..startDay + day - 1]
    {
      days := days + [JsLocalDate(year, month - 1, day)];
      day := day + 1;
    }

    var endDay := Weekday(lastDay);
    i := 1;
    while i < 7 - endDay
      invariant 1 <= i <= 7 - endDay
      invariant days == Grid(year, month)[..startDay + lastDay.day + i - 1]
    {
      TrailingDay(year, month, i);
      days := days + [JsLocalDate(year, month, i)];
      i := i + 1;
    }
    assert days == Grid(year, month)[..n];
  }

  /**
   * `getBalanceForDate`: the first balance dated on the cell's day, if any.
   * The source compares ISO strings; equal ISO strings are equal dates
   * (`IsoSameDay`).
   */
  function GetBalanceForDate(date: Date, balances: seq<DailyBalance>): (r: Option<DailyBalance>)
    ensures r.None? <==> forall i :: 0 <= i < |balances| ==> balances[i].date != date
    ensures r.Some? ==> (r.value.date == date
        && exists i :: 0 <= i < |balances| && balances[i] == r.value && forall j :: 0 <= j < i ==> balances[j].date != date)
  {
    if balances == [] then None
    else if balances[0].date == date then Some(balances[0])
    else
      var r := GetBalanceForDate(date, balances[1..]);
      assert forall i :: 0 < i < |balances| ==> balances[i] == balances[1..][i - 1];
      r
  }

  lemma IsoSameDay(a: Date, b: Date)
    ensures FormatISODate(a) == FormatISODate(b) <==> a == b
  {
    if FormatISODate(a) == FormatISODate(b) {
      IsoInjective(a, b);
    }
  }

  /** `isSameMonth`: the month number alone, whatever the year. */
  function IsSameMonth(date: Date, currentMonth: int): bool {
    date.month == currentMonth
  }

  // ---------------------------------------------------------------------
  // The month the grid is built around

  lemma MonthSpan(year: int, month: int)
    ensures FirstDay(year, month) == FirstOfMonth(ShownMonth(year, month).0, ShownMonth(year, month).1)
    ensures LastDay(year, month) == LastOfMonth(ShownMonth(year, month).0, ShownMonth(year, month).1)
    ensures Valid(FirstDay(year, month)) && Valid(LastDay(year, month))
    ensures Ordinal(LastDay(year, month)) == Ordinal(FirstDay(year, month)) + LastDay(year, month).day - 1
    ensures Weekday(LastDay(year, month)) == (Weekday(FirstDay(year, month)) + LastDay(year, month).day - 1) % 7
  {
    var y := if 0 <= year <= 99 then 1900 + year else year;
    JsMonthSpan(y, month - 1);
    var m := ShownMonth(year, month);
    MonthBoundaries(m.0, m.1);
    WeekdayShift(FirstDay(year, month), LastDay(year, month), LastDay(year, month).day - 1);
  }

  lemma WeekdayShift(a: Date, b: Date, n: nat)
    requires Ordinal(b) == Ordinal(a) + n
    ensures Weekday(b) == (Weekday(a) + n) % 7
  {
    Mod7Shift(Ordinal(a) + 1, n);
  }

  lemma Mod7Shift(o: int, n: nat)
    ensures (o + n) % 7 == (o % 7 + n) % 7
  {
    var q := o / 7;
    assert o == 7 * q + o % 7;
    assert o + n == 7 * q + (o % 7 + n);
  }

  /** Cell k of the grid is a real day, k days after the first cell. */
  lemma GridCell(year: int, month: int, k: nat)
    requires k < GridSize(year, month)
    ensures Valid(Grid(year, month)[k])
    ensures Ordinal(Grid(year, month)[k]) == Ordinal(FirstDay(year, month)) - Weekday(FirstDay(year, month)) + k
  {
    MonthSpan(year, month);
    var first := FirstDay(year, month);
    AddDaysOrdinal(first, k - Weekday(first));
  }

  /** The constructor's day overflow lands on the grid's trailing cells. */
  lemma TrailingDay(year: int, month: int, i: int)
    requires 1 <= i < 7 - Weekday(LastDay(year, month))
    ensures var k := Weekday(FirstDay(year, month)) + LastDay(year, month).day + i - 1;
      k < GridSize(year, month) && JsLocalDate(year, month, i) == Grid(year, month)[k]
  {
    MonthSpan(year, month);
    var k := Weekday(FirstDay(year, month)) + LastDay(year, month).day + i - 1;
    var start := JsLocalDate(year, month, 1);
    NextMonthStart(year, month);
    assert JsLocalDate(year, month, i) == AddDays(start, i - 1);
    AddDaysOrdinal(start, i - 1);
    GridCell(year, month, k);
    OrdinalInjective(JsLocalDate(year, month, i), Grid(year, month)[k]);
  }

  /** `new Date(year, month, 1)` is the day after `new Date(year, month, 0)`. */
  lemma NextMonthStart(year: int, month: int)
    ensures Valid(JsLocalDate(year, month, 1))
    ensures Ordinal(JsLocalDate(year, month, 1)) == Ordinal(LastDay(year, month)) + 1
  {
    var y := if 0 <= year <= 99 then 1900 + year else year;
    var next := Date(y + month / 12, month % 12 + 1, 1);
    assert JsLocalDate(year, month, 1) == next;
    assert LastDay(year, month) == AddDays(next, -1) == AddDays(PrevDay(next), 0);
    PrevDayOrdinal(next);
  }

  // ---------------------------------------------------------------------
  // Properties of the grid

  /** Whole weeks: 4 to 6 of them, padded by the 1st's weekday in front and up to Saturday behind. */
  lemma GridShape(year: int, month: int)
    ensures |Grid(year, month)| % 7 == 0 && 28 <= |Grid(year, month)| <= 42
    ensures |Grid(year, month)| == Weekday(FirstDay(year, month)) + LastDay(year, month).day + 6 - Weekday(LastDay(year, month))
  {
    MonthSpan(year, month);
    var ym := ShownMonth(year, month);
    assert LastDay(year, month).day == DaysInMonth(ym.0, ym.1);
    WeekArith(Weekday(FirstDay(year, month)), LastDay(year, month).day, Weekday(LastDay(year, month)));
  }

  lemma WeekArith(wf: int, dim: int, wl: int)
    requires 0 <= wf < 7 && 28 <= dim <= 31 && wl == (wf + dim - 1) % 7
    ensures (wf + dim + 6 - wl) % 7 == 0 && 28 <= wf + dim + 6 - wl <= 42
  {
    var q := (wf + dim - 1) / 7;
    assert wf + dim - 1 == 7 * q + wl;
    assert wf + dim + 6 - wl == 7 * (q + 1);
  }

  lemma WeekOffset(o: int, w: int, k: int)
    requires w == (o + 1) % 7
    ensures (o - w + k + 1) % 7 == k % 7
  {
    var q := (o + 1) / 7;
    assert o + 1 == 7 * q + w;
    assert o - w + k + 1 == 7 * q + k;
  }

  /** Cell k falls on weekday k mod 7. */
  lemma GridWeekday(year: int, month: int, k: nat)
    requires k < |Grid(year, month)|
    ensures Weekday(Grid(year, month)[k]) == k % 7
  {
    var first := FirstDay(year, month);
    GridCell(year, month, k);
    WeekOffset(Ordinal(first), Weekday(first), k);
  }

  /** The grid starts on a Sunday and ends on a Saturday. */
  lemma GridWeekdays(year: int, month: int)
    ensures Weekday(Grid(year, month)[0]) == 0
    ensures Weekday(Grid(year, month)[|Grid(year, month)| - 1]) == 6
  {
    GridShape(year, month);
    GridWeekday(year, month, 0);
    var n := |Grid(year, month)|;
    GridWeekday(year, month, n - 1);
    assert n == 7 * (n / 7);
    assert n - 1 == 7 * (n / 7 - 1) + 6;
  }

  /** Each cell is the day after the one before it. */
  lemma GridConsecutive(year: int, month: int, k: nat)
    requires 0 < k < |Grid(year, month)|
    ensures Grid(year, month)[k] == NextDay(Grid(year, month)[k - 1])
  {
    GridCell(year, month, k);
    GridCell(year, month, k - 1);
    NextDayOrdinal(Grid(year, month)[k - 1]);
    OrdinalInjective(Grid(year, month)[k], NextDay(Grid(year, month)[k - 1]));
  }

  /** The leading cells are days of the previous month. */
  lemma GridLeading(year: int, month: int, k: nat)
    requires k < Weekday(FirstDay(year, month))
    ensures (Grid(year, month)[k].year, Grid(year, month)[k].month)
      == PrevMonthYear(ShownMonth(year, month).0, ShownMonth(year, month).1)
  {
    MonthSpan(year, month);
    var ym := ShownMonth(year, month);
    var p := PrevMonthYear(ym.0, ym.1);
    MonthBoundaries(ym.0, ym.1);
    PrevDayOrdinal(FirstDay(year, month));
    MonthBoundaries(p.0, p.1);
    GridShape(year, month);
    GridCell(year, month, k);
    InMonthByOrdinal(Grid(year, month)[k], p.0, p.1);
  }

  /** The last leading cell is the last day of the previous month. */
  lemma GridLeadingEnd(year: int, month: int)
    requires Weekday(FirstDay(year, month)) > 0
    ensures var p := PrevMonthYear(ShownMonth(year, month).0, ShownMonth(year, month).1);
      Grid(year, month)[Weekday(FirstDay(year, month)) - 1] == LastOfMonth(p.0, p.1)
  {
    MonthSpan(year, month);
    var ym := ShownMonth(year, month);
    MonthBoundaries(ym.0, ym.1);
    PrevDayOrdinal(FirstDay(year, month));
    GridShape(year, month);
    var k := Weekday(FirstDay(year, month)) - 1;
    GridCell(year, month, k);
    OrdinalInjective(Grid(year, month)[k], PrevDay(FirstDay(year, month)));
  }

  /** The cells after the leading ones are the month's days 1 to last, in order. */
  lemma GridMonthDay(year: int, month: int, k: nat)
    requires Weekday(FirstDay(year, month)) <= k < Weekday(FirstDay(year, month)) + LastDay(year, month).day
    ensures k < |Grid(year, month)|
    ensures Grid(year, month)[k]
      == Date(ShownMonth(year, month).0, ShownMonth(year, month).1, k - Weekday(FirstDay(year, month)) + 1)
  {
    MonthSpan(year, month);
    GridShape(year, month);
    AddDaysWithinMonth(FirstDay(year, month), k - Weekday(FirstDay(year, month)));
  }

  /** The trailing cells are days of the next month. */
  lemma GridTrailing(year: int, month: int, k: nat)
    requires Weekday(FirstDay(year, month)) + LastDay(year, month).day <= k < |Grid(year, month)|
    ensures (Grid(year, month)[k].year, Grid(year, month)[k].month)
      == NextMonthYear(ShownMonth(year, month).0, ShownMonth(year, month).1)
  {
    MonthSpan(year, month);
    var ym := ShownMonth(year, month);
    var nx := NextMonthYear(ym.0, ym.1);
    MonthBoundaries(ym.0, ym.1);
    NextDayOrdinal(LastDay(year, month));
    MonthBoundaries(nx.0, nx.1);
    GridShape(year, month);
    GridCell(year, month, k);
    InMonthByOrdinal(Grid(year, month)[k], nx.0, nx.1);
  }

  /**
   * For a month number from 1 to 12, `isSameMonth` marks exactly the cells
   * of the month itself, though it looks at the month number only.
   */
  lemma GridSameMonth(year: int, month: int, k: nat)
    requires 1 <= month <= 12 && k < |Grid(year, month)|
    ensures IsSameMonth(Grid(year, month)[k], month)
        <==> Weekday(FirstDay(year, month)) <= k < Weekday(FirstDay(year, month)) + LastDay(year, month).day
  {
    if k < Weekday(FirstDay(year, month)) {
      GridLeadingOther(year, month, k);
    } else if k < Weekday(FirstDay(year, month)) + LastDay(year, month).day {
      GridMonthDay(year, month, k);
      ShownMonthNumber(year, month);
    } else {
      GridTrailingOther(year, month, k);
    }
  }

  lemma GridLeadingOther(year: int, month: int, k: nat)
    requires 1 <= month <= 12 && k < Weekday(FirstDay(year, month))
    ensures k < |Grid(year, month)| && Grid(year, month)[k].month != month
  {
    GridLeading(year, month, k);
    ShownMonthNumber(year, month);
  }

  lemma GridTrailingOther(year: int, month: int, k: nat)
    requires 1 <= month <= 12 && Weekday(FirstDay(year, month)) + LastDay(year, month).day <= k < |Grid(year, month)|
    ensures Grid(year, month)[k].month != month
  {
    GridTrailing(year, month, k);
    ShownMonthNumber(year, month);
  }

  /** A month number from 1 to 12 is shown as itself, whatever the year. */
  lemma ShownMonthNumber(year: int, month: int)
    requires 1 <= month <= 12
    ensures ShownMonth(year, month).1 == month
  {
  }
}
