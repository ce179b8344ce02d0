/**
 * The month picker of src/components/ui/MonthPicker.tsx: a pop-up of the
 * twelve months of a displayed year, arrows that step the year, and month
 * buttons that hand the parent a "YYYY-MM" string and close the pop-up. The
 * parent's `value` is read back with `split('-')` and `parseInt`; the
 * displayed year is NaN when the value's year part holds no digits.
 */
module MonthPicker {
  import opened Wrappers
  import opened Strings
  import opened Numbers
  import opened Dates
  import opened Format

  datatype Direction = Prev | Next

  /** The initial `currentYear`: the value's year part, or the current year when there is no value. */
  function InitialYear(value: string, todayYear: int): Num {
    if value != "" then ParseInt(Split(value, '-')[0]) else Finite(todayYear)
  }

  /** `selectedMonth`: null without a value, else the month part read as a number, minus one. */
  function SelectedMonth(value: string): Option<Num> {
    if value == "" then None
    else
      var parts := Split(value, '-');
      Some(if |parts| > 1 then Plus(ParseInt(parts[1]), -1) else NaN)
  }

  /** What `handleMonthSelect(monthIndex)` emits: the displayed year, '-', the month number in two digits. */
  function MonthValue(year: Num, monthIndex: nat): string {
    NumToString(year) + "-" + Pad2(monthIndex + 1)
  }

  /** `navigateYear`. */
  function StepYear(year: Num, dir: Direction): (r: Num)
    ensures r.NaN? <==> year.NaN?
    ensures year.Finite? ==> r.value == year.value + (if dir == Next then 1 else -1)
  {
    Plus(year, if dir == Next then 1 else -1)
  }

  /** `isSelected` for the button of month index i. */
  predicate IsSelected(value: string, currentYear: Num, i: int) {
    SelectedMonth(value) == Some(Finite(i)) && StartsWith(value, NumToString(currentYear) + "-")
  }

  class Picker {
    var currentYear: Num
    var isOpen: bool
    var value: string

    constructor (initial: string, todayYear: int)
      ensures currentYear == InitialYear(initial, todayYear) && !isOpen && value == initial
    {
      currentYear := InitialYear(initial, todayYear);
      isOpen := false;
      value := initial;
    }

    method Toggle()
      modifies this
      ensures isOpen == !old(isOpen) && currentYear == old(currentYear) && value == old(value)
    {
      isOpen := !isOpen;
    }

    /** A month button, for the indices 0 to 11 the buttons carry. */
    method HandleMonthSelect(monthIndex: nat) returns (emitted: string)
      requires monthIndex <= 11
      modifies this
      ensures emitted == MonthValue(old(currentYear), monthIndex) && value == emitted
      ensures !isOpen && currentYear == old(currentYear)
    {
      var monthStr := PadStart(NatToString(monthIndex + 1), 2, '0');
      emitted := NumToString(currentYear) + "-" + monthStr;
      value := emitted;
      isOpen := false;
    }

    method NavigateYear(dir: Direction)
      modifies this
      ensures currentYear == StepYear(old(currentYear), dir)
      ensures isOpen == old(isOpen) && value == old(value)
    {
      currentYear := Plus(currentYear, if dir == Next then 1 else -1);
    }

    /** "Mês atual": display today's year, hand the parent today's month key, close. */
    method GoToCurrentMonth(today: Date) returns (emitted: string)
      modifies this
      ensures currentYear == Finite(today.year)
      ensures emitted == MonthKey(today.year, today.month) && value == emitted && !isOpen
    {
      currentYear := Finite(today.year);
      var monthStr := PadStart(NatToString(today.month - 1 + 1), 2, '0');
      emitted := IntToString(today.year) + "-" + monthStr;
      value := emitted;
      isOpen := false;
    }
  }

  // ---------------------------------------------------------------------
  // Properties

  /** Stepping the year back and forth returns to it. */
  lemma NavigateYearInverse(year: Num)
    ensures StepYear(StepYear(year, Next), Prev) == year
    ensures StepYear(StepYear(year, Prev), Next) == year
  {
  }

  /** The emitted value is the month key of the displayed year and month. */
  lemma MonthValueIsKey(year: int, monthIndex: nat)
    requires monthIndex <= 11
    ensures MonthValue(Finite(year), monthIndex) == MonthKey(year, monthIndex + 1)
  {
  }

  lemma MonthValueSplit(year: nat, monthIndex: nat)
    requires monthIndex <= 11
    ensures Split(MonthValue(Finite(year), monthIndex), '-') == [NatToString(year), Pad2(monthIndex + 1)]
  {
    Pad2Shape(monthIndex + 1);
    var a, b := NatToString(year), Pad2(monthIndex + 1);
    assert forall i :: 0 <= i < |a| ==> a[i] != '-' by {
      assert forall i :: 0 <= i < |a| ==> IsDigit(a[i]);
    }
    assert forall i :: 0 <= i < |b| ==> b[i] != '-' by {
      assert forall i :: 0 <= i < |b| ==> IsDigit(b[i]);
    }
    SplitTwo(a, b, '-');
  }

  /** Reading back an emitted value of a year from 0 gives that year and that month index. */
  lemma MonthValueRoundTrip(year: nat, monthIndex: nat, todayYear: int)
    requires monthIndex <= 11
    ensures InitialYear(MonthValue(Finite(year), monthIndex), todayYear) == Finite(year)
    ensures SelectedMonth(MonthValue(Finite(year), monthIndex)) == Some(Finite(monthIndex))
  {
    var v := MonthValue(Finite(year), monthIndex);
    var a, b := NatToString(year), Pad2(monthIndex + 1);
    MonthValueSplit(year, monthIndex);
    assert v != "" && Split(v, '-')[0] == a && Split(v, '-')[1] == b;
    ParseIntOfNat(year);
    Pad2Shape(monthIndex + 1);
    assert ParseInt(b) == Finite(monthIndex + 1) by {
      ParseIntOfDigits(b, []);
      assert b + [] == b;
    }
  }

  /**
   * After emitting month i of a year from 0, the only button marked
   * selected is month i, and only while that year is displayed.
   */
  lemma SelectedExactly(year: nat, monthIndex: nat, shown: Num, j: int)
    requires monthIndex <= 11
    ensures IsSelected(MonthValue(Finite(year), monthIndex), shown, j) <==> shown == Finite(year) && j == monthIndex
  {
    var v := MonthValue(Finite(year), monthIndex);
    MonthValueRoundTrip(year, monthIndex, 0);
    if StartsWith(v, NumToString(shown) + "-") {
      YearPrefix(year, monthIndex, shown);
    }
  }

  /** The only displayed year whose "year-" prefix an emitted value starts with is its own. */
  lemma YearPrefix(year: nat, monthIndex: nat, shown: Num)
    requires monthIndex <= 11
    requires StartsWith(MonthValue(Finite(year), monthIndex), NumToString(shown) + "-")
    ensures shown == Finite(year)
  {
    var a := NatToString(year);
    var v, p := MonthValue(Finite(year), monthIndex), NumToString(shown) + "-";
    assert v[0] == a[0] && v[0] == p[0];
    DigitHead(shown);
    DashPrefix(a, Pad2(monthIndex + 1), NatToString(shown.value));
  }

  /** Only a number from 0 prints with a digit first. */
  lemma DigitHead(x: Num)
    ensures |NumToString(x)| >= 1
    ensures IsDigit(NumToString(x)[0]) ==> x.Finite? && x.value >= 0 && NumToString(x) == NatToString(x.value)
  {
  }

  /** Of two digit strings, one followed by '-' starts a string the other heads only when they are equal. */
  lemma DashPrefix(a: string, r: string, b: string)
    requires AllDigits(a) && AllDigits(b)
    requires StartsWith(a + "-" + r, b + "-")
    ensures a == b
  {
    var v, p := a + "-" + r, b + "-";
    IndexAfterDigits(a, '-', r);
    IndexAfterDigits(b, '-', []);
    assert b + "-" + [] == p;
    IndexOfCharPrefix(v, p, '-');
    assert a == v[..|a|] && b == p[..|b|];
  }
}
