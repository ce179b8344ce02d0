/**
 * Date formatting and parsing of src/lib/utils/format.ts, plus the
 * "YYYY-MM" month keys the pages build with the same template, and the facts
 * that let the rest of the model compare dates as triples where the source
 * compares their "YYYY-MM-DD" strings.
 */
module Format {
  import opened Strings
  import opened Dates

  /** `formatISODate`: year, then month and day padded to two digits. */
  function FormatISODate(d: Date): string {
    IntToString(d.year) + "-" + Pad2(d.month) + "-" + Pad2(d.day)
  }

  /** `formatDate` of a Date: dd-MM-yyyy. */
  function FormatDate(d: Date): string {
    Pad2(d.day) + "-" + Pad2(d.month) + "-" + IntToString(d.year)
  }

  /** The month key `${year}-${String(month).padStart(2, '0')}`. */
  function MonthKey(year: int, month: Month): string {
    IntToString(year) + "-" + Pad2(month)
  }

  /** The test `/^\d{4}-\d{2}-\d{2}$/`. */
  predicate IsIsoDateOnly(s: string) {
    |s| == 10 && AllDigits(s[..4]) && s[4] == '-' && AllDigits(s[5..7]) && s[7] == '-' && AllDigits(s[8..])
  }

  /** `Number` of one part of a split; only the split of a matching string is ever converted. */
  function PartNumber(parts: seq<string>, i: nat): int
    requires i < |parts| && AllDigits(parts[i])
  {
    Val(parts[i])
  }

  /** `new Date(y, monthIndex, day)`, which reads a year from 0 to 99 as 1900 to 1999. */
  function JsLocalDate(y: int, monthIndex: int, day: int): Date {
    JsDate(if 0 <= y <= 99 then 1900 + y else y, monthIndex, day)
  }

  /**
   * `parseDateStringToLocal`: a date-only string is split at '-' and built
   * with the local constructor; anything else goes to the native parser,
   * which is a parameter here.
   */
  function ParseDateStringToLocal(s: string, native: string -> Date): (r: Date)
    ensures !IsIsoDateOnly(s) ==> r == native(s)
    ensures IsIsoDateOnly(s) ==> r == JsLocalDate(Val(s[..4]), Val(s[5..7]) - 1, Val(s[8..]))
  {
    if IsIsoDateOnly(s) then
      var parts := Split(s, '-');
      SplitIsoDateOnly(s);
      JsLocalDate(PartNumber(parts, 0), PartNumber(parts, 1) - 1, PartNumber(parts, 2))
    else native(s)
  }

  /** `formatDate` of a string. */
  function FormatDateString(s: string, native: string -> Date): string {
    FormatDate(ParseDateStringToLocal(s, native))
  }

  lemma SplitIsoDateOnly(s: string)
    requires IsIsoDateOnly(s)
    ensures Split(s, '-') == [s[..4], s[5..7], s[8..]]
  {
    assert IndexOfChar(s, '-') == 4 by {
      assert forall j :: 0 <= j < 4 ==> s[j] == s[..4][j];
    }
    var r1 := s[5..];
    assert IndexOfChar(r1, '-') == 2 by {
      assert r1[0] == s[5..7][0] && r1[1] == s[5..7][1];
    }
    var r2 := r1[3..];
    assert r2 == s[8..];
    assert IndexOfChar(r2, '-') == 2 by {
      assert forall j :: 0 <= j < 2 ==> r2[j] == s[8..][j];
    }
    assert r1[..2] == s[5..7];
    assert Split(r2, '-') == [r2];
    assert Split(r1, '-') == [r1[..2]] + Split(r2, '-');
    assert Split(s, '-') == [s[..4]] + Split(r1, '-');
  }

  // ---------------------------------------------------------------------
  // Shape of the formatted strings

  /** A date whose year has four digits formats as a date-only string whose parts are the fields. */
  lemma IsoShape(d: Date)
    requires 1000 <= d.year <= 9999
    ensures IsIsoDateOnly(FormatISODate(d))
    ensures FormatISODate(d)[..4] == NatToString(d.year) && Val(FormatISODate(d)[..4]) == d.year
    ensures FormatISODate(d)[5..7] == Pad2(d.month) && Val(FormatISODate(d)[5..7]) == d.month
    ensures FormatISODate(d)[8..] == Pad2(d.day) && Val(FormatISODate(d)[8..]) == d.day
    ensures FormatISODate(d)[..7] == MonthKey(d.year, d.month)
  {
    FourDigits(d.year);
    Pad2Shape(d.month);
    Pad2Shape(d.day);
    var y, m, dd := NatToString(d.year), Pad2(d.month), Pad2(d.day);
    var s := FormatISODate(d);
    assert s == y + "-" + m + "-" + dd;
    assert s[..4] == y;
    assert s[5..7] == m;
    assert s[8..] == dd;
    assert s[..7] == y + "-" + m;
  }

  /** On four-digit years, comparing the ISO strings is comparing the triples. */
  lemma IsoCompare(a: Date, b: Date)
    requires 1000 <= a.year <= 9999 && 1000 <= b.year <= 9999
    ensures LexCompare(FormatISODate(a), FormatISODate(b)) == DateCompare(a, b)
  {
    FourDigits(a.year);
    FourDigits(b.year);
    Pad2Shape(a.month);
    Pad2Shape(b.month);
    Pad2Shape(a.day);
    Pad2Shape(b.day);
    var ya, ma, da := NatToString(a.year), Pad2(a.month), Pad2(a.day);
    var yb, mb, db := NatToString(b.year), Pad2(b.month), Pad2(b.day);
    DigitsCompare(ya, yb);
    DigitsCompare(ma, mb);
    DigitsCompare(da, db);
    LexCompareFields(ya, ma, da, yb, mb, db, '-');
  }

  /** Comparing two strings made of three fields, the first two of matching lengths, joined by one separator. */
  lemma LexCompareFields(a1: string, a2: string, a3: string, b1: string, b2: string, b3: string, c: char)
    requires |a1| == |b1| && |a2| == |b2|
    ensures LexCompare(a1 + [c] + a2 + [c] + a3, b1 + [c] + b2 + [c] + b3)
      == if LexCompare(a1, b1) != 0 then LexCompare(a1, b1)
         else if LexCompare(a2, b2) != 0 then LexCompare(a2, b2)
         else LexCompare(a3, b3)
  {
    assert a1 + [c] + a2 + [c] + a3 == a1 + ([c] + (a2 + ([c] + a3)));
    assert b1 + [c] + b2 + [c] + b3 == b1 + ([c] + (b2 + ([c] + b3)));
    LexCompareAppend(a1, [c] + (a2 + ([c] + a3)), b1, [c] + (b2 + ([c] + b3)));
    LexCompareAppend([c], a2 + ([c] + a3), [c], b2 + ([c] + b3));
    LexCompareZero([c], [c]);
    LexCompareAppend(a2, [c] + a3, b2, [c] + b3);
    LexCompareAppend([c], a3, [c], b3);
  }

  /** On four-digit years, comparing month keys is comparing (year, month). */
  lemma MonthKeyCompare(y1: int, m1: Month, y2: int, m2: Month)
    requires 1000 <= y1 <= 9999 && 1000 <= y2 <= 9999
    ensures LexCompare(MonthKey(y1, m1), MonthKey(y2, m2)) == DateCompare(Date(y1, m1, 1), Date(y2, m2, 1))
  {
    FourDigits(y1);
    FourDigits(y2);
    Pad2Shape(m1);
    Pad2Shape(m2);
    DigitsCompare(NatToString(y1), NatToString(y2));
    DigitsCompare(Pad2(m1), Pad2(m2));
    assert MonthKey(y1, m1) == NatToString(y1) + ['-'] + Pad2(m1);
    assert MonthKey(y2, m2) == NatToString(y2) + ['-'] + Pad2(m2);
    LexCompareTwoFields(NatToString(y1), Pad2(m1), NatToString(y2), Pad2(m2), '-');
    assert Cmp(Val(NatToString(y1)), Val(NatToString(y2))) == Cmp(y1, y2);
    assert Cmp(Val(Pad2(m1)), Val(Pad2(m2))) == Cmp(m1, m2);
  }

  lemma LexCompareTwoFields(a1: string, a2: string, b1: string, b2: string, c: char)
    requires |a1| == |b1|
    ensures LexCompare(a1 + [c] + a2, b1 + [c] + b2)
      == if LexCompare(a1, b1) != 0 then LexCompare(a1, b1) else LexCompare(a2, b2)
  {
    assert a1 + [c] + a2 == a1 + ([c] + a2);
    assert b1 + [c] + b2 == b1 + ([c] + b2);
    LexCompareAppend(a1, [c] + a2, b1, [c] + b2);
    LexCompareAppend([c], a2, [c], b2);
    LexCompareZero([c], [c]);
  }

  /** Three fields joined by one separator, the last two of fixed lengths, can be read back. */
  lemma FieldsInjective(a1: string, a2: string, a3: string, b1: string, b2: string, b3: string, c: char)
    requires |a2| == |b2| && |a3| == |b3|
    requires a1 + [c] + a2 + [c] + a3 == b1 + [c] + b2 + [c] + b3
    ensures a1 == b1 && a2 == b2 && a3 == b3
  {
    var x, y := a1 + [c] + a2 + [c] + a3, b1 + [c] + b2 + [c] + b3;
    assert |a1| == |b1|;
    assert a1 == x[..|a1|] && b1 == y[..|b1|];
    assert a2 == x[|a1| + 1..|a1| + 1 + |a2|] && b2 == y[|b1| + 1..|b1| + 1 + |b2|];
    assert a3 == x[|x| - |a3|..] && b3 == y[|y| - |b3|..];
  }

  /** Different dates never print the same ISO string. */
  lemma IsoInjective(a: Date, b: Date)
    requires FormatISODate(a) == FormatISODate(b)
    ensures a == b
  {
    Pad2Shape(a.month);
    Pad2Shape(b.month);
    Pad2Shape(a.day);
    Pad2Shape(b.day);
    FieldsInjective(IntToString(a.year), Pad2(a.month), Pad2(a.day), IntToString(b.year), Pad2(b.month), Pad2(b.day), '-');
    IntToStringInjective(a.year, b.year);
  }

  lemma IntToStringInjective(i: int, j: int)
    requires IntToString(i) == IntToString(j)
    ensures i == j
  {
    if i < 0 && j < 0 {
      assert NatToString(-i) == IntToString(i)[1..] == IntToString(j)[1..] == NatToString(-j);
    }
  }

  // ---------------------------------------------------------------------
  // Round trips

  /** Parsing a formatted valid date of a four-digit year gives the date back. */
  lemma ParseOfFormat(d: Date, native: string -> Date)
    requires Valid(d) && 1000 <= d.year <= 9999
    ensures ParseDateStringToLocal(FormatISODate(d), native) == d
  {
    IsoShape(d);
    JsDateOfValid(d.year, d.month, d.day);
  }

  /** Formatting a parsed date-only string that names a valid day of a year from 1000 gives the string back. */
  lemma FormatOfParse(s: string, native: string -> Date)
    requires IsIsoDateOnly(s)
    requires 1000 <= Val(s[..4]) && 1 <= Val(s[5..7]) <= 12 && 1 <= Val(s[8..]) <= 31
    requires Valid(Date(Val(s[..4]), Val(s[5..7]), Val(s[8..])))
    ensures FormatISODate(ParseDateStringToLocal(s, native)) == s
    ensures FormatDateString(s, native) == s[8..] + "-" + s[5..7] + "-" + s[..4]
  {
    var d := Date(Val(s[..4]), Val(s[5..7]), Val(s[8..]));
    JsDateOfValid(d.year, d.month, d.day);
    assert ParseDateStringToLocal(s, native) == d;
    assert s[..4][0] != '0' by {
      if s[..4][0] == '0' {
        LeadingZeroBound(s[..4]);
      }
    }
    NatToStringOfVal(s[..4]);
    Pad2OfVal(s[5..7]);
    Pad2OfVal(s[8..]);
    assert s == s[..4] + "-" + s[5..7] + "-" + s[8..];
  }

  lemma LeadingZeroBound(s: string)
    requires AllDigits(s) && |s| == 4 && s[0] == '0'
    ensures Val(s) < 1000
  {
    var a, b, c := s[..1], s[..2], s[..3];
    assert a[..0] == [] && a[0] == s[0];
    assert Val(a) == 0;
    assert b[..1] == a && b[1] == s[1];
    assert Val(b) <= 9;
    assert c[..2] == b && c[2] == s[2];
    assert Val(c) <= 99;
    assert s[..3] == c;
  }

  /** A date-only string whose year is below 100 is read as a date of the twentieth century. */
  lemma TwoDigitYearShift(s: string, native: string -> Date)
    requires IsIsoDateOnly(s) && Val(s[..4]) <= 99 && 1 <= Val(s[5..7]) <= 12 && 1 <= Val(s[8..]) <= 31
    requires Valid(Date(1900 + Val(s[..4]), Val(s[5..7]), Val(s[8..])))
    ensures ParseDateStringToLocal(s, native) == Date(1900 + Val(s[..4]), Val(s[5..7]), Val(s[8..]))
  {
    JsDateOfValid(1900 + Val(s[..4]), Val(s[5..7]), Val(s[8..]));
  }
}
