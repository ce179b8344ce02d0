/**
 * The day list of src/components/DayList.tsx: one row per day of the month,
 * split into the days already past and the rest; the past days are shown
 * only on request. The clock (`new Date()`) is a parameter: the current day
 * and the milliseconds elapsed since its midnight.
 */
module DayList {
  import opened Wrappers
  import opened Dates
  import opened Format
  import opened Seqs
  import opened Transactions
  import opened Calendar

  datatype Clock = Clock(today: Date, msOfDay: int)

  datatype DayRow = DayRow(day: int, date: Date, balance: Option<DailyBalance>, isToday: bool, isPast: bool, dateStr: string)

  /** `date < today`: the midnight that starts the day is earlier than the current instant. */
  predicate BeforeNow(d: Date, clock: Clock) {
    Ordinal(d) < Ordinal(clock.today) || (Ordinal(d) == Ordinal(clock.today) && clock.msOfDay > 0)
  }

  /** The row for day i + 1. */
  function Row(year: int, month: int, balances: seq<DailyBalance>, clock: Clock, i: int): DayRow {
    var day := i + 1;
    var date := JsLocalDate(year, month - 1, day);
    var isCurrentMonth := clock.today.year == year && clock.today.month == month;
    var isToday := isCurrentMonth && clock.today.day == day;
    DayRow(day, date, GetBalanceForDate(date, balances), isToday, BeforeNow(date, clock) && !isToday, FormatISODate(date))
  }

  /** `allDays`: `daysInMonth` is the day of `new Date(year, month, 0)`. */
  function AllDays(year: int, month: int, balances: seq<DailyBalance>, clock: Clock): seq<DayRow> {
    seq(LastDay(year, month).day, i requires 0 <= i < LastDay(year, month).day => Row(year, month, balances, clock, i))
  }

  function IsPast(d: DayRow): bool { d.isPast }

  function NotPast(d: DayRow): bool { !d.isPast }

  function FutureDays(year: int, month: int, balances: seq<DailyBalance>, clock: Clock): seq<DayRow> {
    Filter(AllDays(year, month, balances, clock), NotPast)
  }

  function PastDays(year: int, month: int, balances: seq<DailyBalance>, clock: Clock): seq<DayRow> {
    Filter(AllDays(year, month, balances, clock), IsPast)
  }

  /** `days`: the past days first when expanded, the future days alone when collapsed. */
  function ShownDays(showPastDays: bool, year: int, month: int, balances: seq<DailyBalance>, clock: Clock): seq<DayRow> {
    var future := FutureDays(year, month, balances, clock);
    if showPastDays then PastDays(year, month, balances, clock) + future else future
  }

  /** Whether the "view past days" button is rendered. */
  function ShowsViewPastButton(showPastDays: bool, year: int, month: int, balances: seq<DailyBalance>, clock: Clock): bool {
    !showPastDays && |PastDays(year, month, balances, clock)| > 0
  }

  /** The status labels, by their translation keys `status.good`, `status.regular`, `status.bad`, `status.notConfigured`. */
  datatype StatusText = Good | Regular | Bad | NotConfigured

  /** The label shown under a day's balance. */
  function StatusLabel(status: Option<BalanceStatus>): (text: StatusText)
    ensures text == Good <==> status == Some(Green)
    ensures text == Regular <==> status == Some(Yellow)
    ensures text == Bad <==> status == Some(Red)
    ensures text == NotConfigured <==> status == None || status == Some(Unconfigured)
  {
    match status
    case Some(Green) => Good
    case Some(Yellow) => Regular
    case Some(Red) => Bad
    case _ => NotConfigured
  }

  // ---------------------------------------------------------------------
  // Properties

  /** Row i is day i + 1 of the month the list shows, with the first balance on that day. */
  lemma AllDaysRow(year: int, month: int, balances: seq<DailyBalance>, clock: Clock, i: nat)
    requires i < |AllDays(year, month, balances, clock)|
    ensures var r := AllDays(year, month, balances, clock)[i];
      r.day == i + 1 && r.date == Date(ShownMonth(year, month).0, ShownMonth(year, month).1, i + 1)
      && Valid(r.date) && r.balance == GetBalanceForDate(r.date, balances) && r.dateStr == FormatISODate(r.date)
  {
    MonthSpan(year, month);
    AddDaysWithinMonth(FirstDay(year, month), i);
  }

  /** The list has one row per day of the month. */
  lemma AllDaysLength(year: int, month: int, balances: seq<DailyBalance>, clock: Clock)
    ensures |AllDays(year, month, balances, clock)| == DaysInMonth(ShownMonth(year, month).0, ShownMonth(year, month).1)
  {
    MonthSpan(year, month);
  }

  /** A day before a past day is past. */
  lemma PastMonotone(year: int, month: int, balances: seq<DailyBalance>, clock: Clock, i: nat, j: nat)
    requires Valid(clock.today)
    requires i < j < |AllDays(year, month, balances, clock)| && AllDays(year, month, balances, clock)[j].isPast
    ensures AllDays(year, month, balances, clock)[i].isPast
  {
    var all := AllDays(year, month, balances, clock);
    AllDaysRow(year, month, balances, clock, i);
    AllDaysRow(year, month, balances, clock, j);
    OrdinalOrder(all[i].date, all[j].date);
    if all[i].isToday {
      OrdinalOrder(all[i].date, clock.today);
    }
  }

  /** The past days are a prefix, so the expanded list is the whole month in order. */
  lemma ExpandedIsAllDays(year: int, month: int, balances: seq<DailyBalance>, clock: Clock)
    requires Valid(clock.today)
    ensures ShownDays(true, year, month, balances, clock) == AllDays(year, month, balances, clock)
    ensures multiset(PastDays(year, month, balances, clock)) + multiset(FutureDays(year, month, balances, clock))
      == multiset(AllDays(year, month, balances, clock))
  {
    var all := AllDays(year, month, balances, clock);
    forall i, j | 0 <= i < j < |all| && IsPast(all[j])
      ensures IsPast(all[i])
    {
      PastMonotone(year, month, balances, clock, i, j);
    }
    FilterPrefixSplit(all, IsPast, NotPast);
  }

  /** Collapsed, the list shows exactly the days that are not past. */
  lemma CollapsedShowsFuture(year: int, month: int, balances: seq<DailyBalance>, clock: Clock, d: DayRow)
    ensures d in ShownDays(false, year, month, balances, clock) <==> d in AllDays(year, month, balances, clock) && !d.isPast
  {
    FilterMember(AllDays(year, month, balances, clock), NotPast, d);
  }

  /** The button appears exactly when the list is collapsed and some day of the month is past. */
  lemma ButtonShown(showPastDays: bool, year: int, month: int, balances: seq<DailyBalance>, clock: Clock)
    ensures ShowsViewPastButton(showPastDays, year, month, balances, clock)
        <==> !showPastDays && exists i :: 0 <= i < |AllDays(year, month, balances, clock)| && AllDays(year, month, balances, clock)[i].isPast
  {
    var all := AllDays(year, month, balances, clock);
    var past := PastDays(year, month, balances, clock);
    if i :| 0 <= i < |all| && all[i].isPast {
      FilterMember(all, IsPast, all[i]);
    }
    if |past| > 0 {
      FilterMember(all, IsPast, past[0]);
    }
  }

  /**
   * In the current month (of a year the constructor does not shift), today's
   * row is marked today and is not past, and every earlier day is past.
   */
  lemma CurrentMonthDays(year: int, month: int, balances: seq<DailyBalance>, clock: Clock, i: nat)
    requires Valid(clock.today) && !(0 <= year <= 99)
    requires clock.today.year == year && clock.today.month == month
    requires i < |AllDays(year, month, balances, clock)|
    ensures var r := AllDays(year, month, balances, clock)[i];
      (r.day == clock.today.day ==> r.isToday && !r.isPast)
      && (r.day < clock.today.day ==> r.isPast && !r.isToday)
      && (r.day > clock.today.day ==> !r.isPast && !r.isToday)
  {
    var r := AllDays(year, month, balances, clock)[i];
    AllDaysRow(year, month, balances, clock, i);
    ShownPlain(year, month);
    assert r.date == Date(clock.today.year, clock.today.month, r.day);
    if r.day < clock.today.day {
      OrdinalOrder(r.date, clock.today);
    } else if r.day > clock.today.day {
      OrdinalOrder(clock.today, r.date);
    }
  }
}
