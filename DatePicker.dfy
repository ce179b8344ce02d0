/**
 * The date picker of src/components/ui/DatePicker.tsx: a pop-up month grid
 * with the month shown as a year and a zero-based month index, arrows that
 * move it by one month, and a day button that hands the parent the chosen
 * day as a "YYYY-MM-DD" string and closes the pop-up. `new Date()` is the
 * parameter `today`; the parent's `onChange` is the string a method returns.
 */
module DatePicker {
  import opened Wrappers
  import opened Dates
  import opened Format
  import opened Calendar

  datatype Direction = Prev | Next

  /** `currentMonth`: a year and a month index from 0 (January) to 11. */
  datatype MonthView = MonthView(year: int, month: int)

  predicate ValidView(v: MonthView) {
    0 <= v.month <= 11
  }

  /** The months elapsed since January of year 0: the arrows move this by one. */
  function MonthCount(v: MonthView): int {
    12 * v.year + v.month
  }

  /** `navigateMonth`: the month before or after, wrapping December and January across years. */
  function Navigate(v: MonthView, dir: Direction): (r: MonthView)
    ensures ValidView(v) ==> ValidView(r)
    ensures ValidView(v) ==> MonthCount(r) == MonthCount(v) + (if dir == Next then 1 else -1)
  {
    match dir
    case Prev => if v.month == 0 then MonthView(v.year - 1, 11) else MonthView(v.year, v.month - 1)
    case Next => if v.month == 11 then MonthView(v.year + 1, 0) else MonthView(v.year, v.month + 1)
  }

  /** `getDaysInMonth`: the day of `new Date(year, month + 1, 0)`. */
  function DaysInShownMonth(v: MonthView): int {
    JsLocalDate(v.year, v.month + 1, 0).day
  }

  /** `getFirstDayOfMonth`: the weekday of `new Date(year, month, 1)`, Sunday being 0. */
  function FirstWeekday(v: MonthView): int {
    Weekday(JsLocalDate(v.year, v.month, 1))
  }

  /** `days`: an empty cell per weekday before the 1st, then the day numbers 1 to the last. */
  function Days(v: MonthView): seq<Option<int>> {
    seq(FirstWeekday(v), _ => None)
    + seq(DaysInShownMonth(v), i requires 0 <= i < DaysInShownMonth(v) => Some(i + 1))
  }

  /** What `handleDateSelect(day)` emits: `formatISODate(new Date(year, month, day))`. */
  function Selection(v: MonthView, day: int): string {
    FormatISODate(JsLocalDate(v.year, v.month, day))
  }

  /** The pop-up's state; `value` is the string the parent last received. */
  class Picker {
    var view: MonthView
    var isOpen: bool
    var value: string

    predicate Valid()
      reads this
    {
      ValidView(view)
    }

    /** The initial state: closed, showing the month of the starting date. */
    constructor (start: Date, initial: string)
      requires 1 <= start.month <= 12
      ensures Valid() && view == MonthView(start.year, start.month - 1) && !isOpen && value == initial
    {
      view := MonthView(start.year, start.month - 1);
      isOpen := false;
      value := initial;
    }

    /** The trigger button flips the pop-up. */
    method Toggle()
      requires Valid()
      modifies this
      ensures Valid()
      ensures isOpen == !old(isOpen) && view == old(view) && value == old(value)
    {
      isOpen := !isOpen;
    }

    method NavigateMonth(dir: Direction)
      requires Valid()
      modifies this
      ensures Valid() && view == Navigate(old(view), dir)
      ensures MonthCount(view) == MonthCount(old(view)) + (if dir == Next then 1 else -1)
      ensures isOpen == old(isOpen) && value == old(value)
    {
      view := Navigate(view, dir);
    }

    /** A day button: the parent receives the day's date string and the pop-up closes. */
    method HandleDateSelect(day: int) returns (emitted: string)
      requires Valid()
      modifies this
      ensures Valid()
      ensures emitted == Selection(old(view), day) && value == emitted
      ensures !isOpen && view == old(view)
    {
      emitted := FormatISODate(JsLocalDate(view.year, view.month, day));
      value := emitted;
      isOpen := false;
    }

    /** "Hoje": show today's month, hand the parent today's date string, close. */
    method GoToToday(today: Date) returns (emitted: string)
      requires 1 <= today.month <= 12
      modifies this
      ensures Valid() && view == MonthView(today.year, today.month - 1)
      ensures emitted == FormatISODate(today) && value == emitted && !isOpen
    {
      view := MonthView(today.year, today.month - 1);
      emitted := FormatISODate(today);
      value := emitted;
      isOpen := false;
    }
  }

  // ---------------------------------------------------------------------
  // Navigation

  /** Going back then forward, or forward then back, returns to the same month. */
  lemma NavigateInverse(v: MonthView)
    requires ValidView(v)
    ensures Navigate(Navigate(v, Prev), Next) == v
    ensures Navigate(Navigate(v, Next), Prev) == v
  {
  }

  /** The arrows step to the calendar's next and previous month. */
  lemma NavigateIsMonthStep(v: MonthView)
    requires ValidView(v)
    ensures var n := NextMonthYear(v.year, v.month + 1); Navigate(v, Next) == MonthView(n.0, n.1 - 1)
    ensures var p := PrevMonthYear(v.year, v.month + 1); Navigate(v, Prev) == MonthView(p.0, p.1 - 1)
  {
  }

  // ---------------------------------------------------------------------
  // The grid of days

  /** The picker's month is the calendar's month number month + 1. */
  lemma PickerMonthSpan(v: MonthView)
    ensures JsLocalDate(v.year, v.month, 1) == FirstDay(v.year, v.month + 1)
    ensures JsLocalDate(v.year, v.month + 1, 0) == LastDay(v.year, v.month + 1)
  {
  }

  /**
   * The grid has one cell per weekday before the 1st and one per day of the
   * month; the numbered cells sit exactly where the month's days sit in the
   * calendar's week grid of the same month, and number the date there.
   */
  lemma DaysMatchGrid(v: MonthView, k: nat)
    requires k < |Days(v)|
    ensures |Days(v)| == FirstWeekday(v) + DaysInMonth(ShownMonth(v.year, v.month + 1).0, ShownMonth(v.year, v.month + 1).1)
    ensures k < |Grid(v.year, v.month + 1)|
    ensures Days(v)[k] == None <==> k < FirstWeekday(v)
    ensures Days(v)[k].Some? ==>
      Grid(v.year, v.month + 1)[k] == Date(ShownMonth(v.year, v.month + 1).0, ShownMonth(v.year, v.month + 1).1, Days(v)[k].value)
  {
    PickerMonthSpan(v);
    MonthSpan(v.year, v.month + 1);
    GridShape(v.year, v.month + 1);
    if k >= FirstWeekday(v) {
      GridMonthDay(v.year, v.month + 1, k);
    }
  }

  /** A numbered cell emits the string of the very date the calendar shows in it. */
  lemma SelectionOfCell(v: MonthView, k: nat)
    requires k < |Days(v)| && Days(v)[k].Some?
    ensures var ym := ShownMonth(v.year, v.month + 1);
      Valid(Date(ym.0, ym.1, Days(v)[k].value))
      && Selection(v, Days(v)[k].value) == FormatISODate(Date(ym.0, ym.1, Days(v)[k].value))
  {
    var d := Days(v)[k].value;
    var ym := ShownMonth(v.year, v.month + 1);
    PickerMonthSpan(v);
    MonthSpan(v.year, v.month + 1);
    assert 1 <= d <= DaysInShownMonth(v);
    AddDaysWithinMonth(FirstDay(v.year, v.month + 1), d - 1);
  }

  /**
   * For a month index from 0 to 11 of a four-digit year, the string a cell
   * emits parses back to that day of the month shown.
   */
  lemma SelectionRoundTrip(v: MonthView, k: nat, native: string -> Date)
    requires ValidView(v) && 1000 <= v.year <= 9999
    requires k < |Days(v)| && Days(v)[k].Some?
    ensures ParseDateStringToLocal(Selection(v, Days(v)[k].value), native) == Date(v.year, v.month + 1, Days(v)[k].value)
  {
    var d := Days(v)[k].value;
    CellDate(v, k);
    ParseBack(Selection(v, d), Date(v.year, v.month + 1, d), native);
  }

  /** Outside years 0..99 the cell's date is the day of month index + 1 of the same year. */
  lemma CellDate(v: MonthView, k: nat)
    requires ValidView(v) && !(0 <= v.year <= 99)
    requires k < |Days(v)| && Days(v)[k].Some?
    ensures var d := Days(v)[k].value;
      Valid(Date(v.year, v.month + 1, d)) && Selection(v, d) == FormatISODate(Date(v.year, v.month + 1, d))
  {
    var d := Days(v)[k].value;
    var ym := ShownMonth(v.year, v.month + 1);
    ShownPlain(v.year, v.month + 1);
    assert Date(ym.0, ym.1, d) == Date(v.year, v.month + 1, d);
    SelectionOfCell(v, k);
  }

  /** A string that is the ISO form of a valid four-digit date parses back to that date. */
  lemma ParseBack(s: string, date: Date, native: string -> Date)
    requires Valid(date) && 1000 <= date.year <= 9999 && s == FormatISODate(date)
    ensures ParseDateStringToLocal(s, native) == date
  {
    ParseOfFormat(date, native);
  }

  /** After "Hoje", today's day number is among the cells. */
  lemma TodayShown(today: Date)
    requires Valid(today) && !(0 <= today.year <= 99)
    ensures var v := MonthView(today.year, today.month - 1);
      exists k :: 0 <= k < |Days(v)| && Days(v)[k] == Some(today.day)
  {
    var v := MonthView(today.year, today.month - 1);
    PickerMonthSpan(v);
    MonthSpan(v.year, v.month + 1);
    ShownPlain(v.year, v.month + 1);
    var k := FirstWeekday(v) + today.day - 1;
    assert Days(v)[k] == Some(today.day);
  }
}
