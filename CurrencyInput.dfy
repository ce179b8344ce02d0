/**
 * The text side of src/components/CurrencyInput.tsx: what the field keeps
 * of each keystroke (digits and at most one comma with at most two digits
 * after it) and the string `parseValue` hands to `parseFloat` (dots, the
 * thousands separators, dropped; the first comma made the decimal point).
 * `parseFloat` itself is a parameter.
 */
module CurrencyInput {
  import opened Wrappers
  import opened Strings
  import opened Seqs

  function IsDigitOrComma(c: char): bool {
    IsDigit(c) || c == ','
  }

  function NotDot(c: char): bool {
    c != '.'
  }

  function IsDigitChar(c: char): bool {
    IsDigit(c)
  }

  /** `slice(0, n)`. */
  function Take(s: string, n: nat): (r: string)
    ensures |r| <= n && |r| <= |s| && r == s[..|r|]
    ensures |s| <= n ==> r == s
  {
    if |s| <= n then s else s[..n]
  }

  /** `input.replace(/[^\d,]/g, "")`: the dots go too. */
  function Cleaned(input: string): string {
    Filter(input, IsDigitOrComma)
  }

  /** `handleChange`: the text before the first comma, and up to two characters of the text between it and the next. */
  function Sanitize(input: string): string {
    var parts := Split(Cleaned(input), ',');
    if |parts| > 1 then parts[0] + "," + Take(parts[1], 2) else parts[0]
  }

  /** Digits, then optionally one comma and at most two digits. */
  predicate IsMoneyText(r: string) {
    var k := IndexOfChar(r, ',');
    AllDigits(r[..k]) && (k < |r| ==> AllDigits(r[k + 1..]) && |r| - k - 1 <= 2)
  }

  /** `s.replace(c, d)` with a one-character string pattern: only the first occurrence. */
  function ReplaceFirst(s: string, c: char, d: char): (r: string)
    ensures |r| == |s|
    ensures forall i :: 0 <= i < |s| ==> r[i] == if i == IndexOfChar(s, c) then d else s[i]
  {
    var i := IndexOfChar(s, c);
    if i == |s| then s else s[..i] + [d] + s[i + 1..]
  }

  /** The string `parseValue` gives `parseFloat`, or None where it returns 0 straight away. */
  function ParseText(str: string): Option<string> {
    if Trim(str) == [] then None else Some(ReplaceFirst(Filter(str, NotDot), ',', '.'))
  }

  /** `parseValue`, with `parseFloat` as a parameter (None for NaN). */
  function ParseValue(str: string, parseFloat: string -> Option<real>): real {
    match ParseText(str)
    case None => 0.0
    case Some(t) => match parseFloat(t) case None => 0.0 case Some(x) => x
  }

  /** Digits, then optionally one point and at most two digits. */
  predicate IsDecimalText(t: string) {
    var k := IndexOfChar(t, '.');
    AllDigits(t[..k]) && (k < |t| ==> AllDigits(t[k + 1..]) && |t| - k - 1 <= 2)
  }

  // ---------------------------------------------------------------------
  // The sanitizer

  /** A money text holds only digits and a single comma. */
  lemma MoneyTextChars(r: string)
    requires IsMoneyText(r)
    ensures forall i :: 0 <= i < |r| ==> IsDigit(r[i]) || (r[i] == ',' && i == IndexOfChar(r, ','))
  {
    var k := IndexOfChar(r, ',');
    forall i | 0 <= i < |r|
      ensures IsDigit(r[i]) || (r[i] == ',' && i == k)
    {
      if i < k {
        assert r[i] == r[..k][i];
      } else if i > k {
        assert r[i] == r[k + 1..][i - k - 1];
      }
    }
  }

  /** Whatever is typed, the field holds a money text. */
  lemma SanitizeShape(input: string)
    ensures IsMoneyText(Sanitize(input))
  {
    var cl := Cleaned(input);
    var parts := Split(cl, ',');
    SplitParts(cl, ',');
    var k := IndexOfChar(cl, ',');
    var p0 := parts[0];
    assert AllDigits(p0) by {
      forall i | 0 <= i < |p0|
        ensures IsDigit(p0[i])
      {
        assert p0[i] == cl[i] && IsDigitOrComma(cl[i]);
      }
    }
    if |parts| > 1 {
      var t := cl[k + 1..];
      var f := Take(parts[1], 2);
      assert AllDigits(f) by {
        forall i | 0 <= i < |f|
          ensures IsDigit(f[i])
        {
          assert f[i] == t[i] && t[i] == cl[k + 1 + i] && IsDigitOrComma(cl[k + 1 + i]);
        }
      }
      var r := p0 + "," + f;
      IndexAfterDigits(p0, ',', f);
      assert r[..|p0|] == p0 && r[|p0| + 1..] == f;
    }
  }

  /** The field keeps the digits typed before the first comma, in order. */
  lemma SanitizeIntegerPart(input: string)
    ensures var r := Sanitize(input);
      r[..IndexOfChar(r, ',')] == Filter(input[..IndexOfChar(input, ',')], IsDigitChar)
  {
    var cl := Cleaned(input);
    var parts := Split(cl, ',');
    SplitParts(cl, ',');
    CleanedPrefix(input);
    if |parts| > 1 {
      SanitizeShape(input);
      var r := Sanitize(input);
      var f := Take(parts[1], 2);
      assert AllDigits(parts[0]) by {
        assert forall i :: 0 <= i < |parts[0]| ==> parts[0][i] in Filter(input[..IndexOfChar(input, ',')], IsDigitChar);
      }
      IndexAfterDigits(parts[0], ',', f);
    } else {
      var r := Sanitize(input);
      assert r == parts[0];
      assert IndexOfChar(r, ',') == |r|;
    }
  }

  /** The part of the cleaned text before its first comma is the input's digits before its first comma. */
  lemma {:induction false} CleanedPrefix(input: string)
    ensures var cl := Cleaned(input);
      cl[..IndexOfChar(cl, ',')] == Filter(input[..IndexOfChar(input, ',')], IsDigitChar)
    decreases |input|
  {
    if input != [] {
      var c, rest := input[0], input[1..];
      var cl, clr := Cleaned(input), Cleaned(rest);
      assert cl == (if IsDigitOrComma(c) then [c] else []) + clr;
      if c == ',' {
        assert IndexOfChar(cl, ',') == 0 && IndexOfChar(input, ',') == 0;
      } else {
        CleanedPrefix(rest);
        var j := IndexOfChar(rest, ',');
        assert IndexOfChar(input, ',') == j + 1;
        assert input[..j + 1] == [c] + rest[..j];
        assert input[..j + 1][1..] == rest[..j];
        if IsDigit(c) {
          assert cl[0] == c && cl[1..] == clr;
          assert IndexOfChar(cl, ',') == IndexOfChar(clr, ',') + 1;
          assert cl[..IndexOfChar(cl, ',')] == [c] + clr[..IndexOfChar(clr, ',')];
        } else {
          assert cl == clr;
        }
      }
    }
  }

  /** A money text passes through the sanitizer unchanged. */
  lemma MoneyTextFixed(r: string)
    requires IsMoneyText(r)
    ensures Sanitize(r) == r
  {
    MoneyTextChars(r);
    FilterAll(r, IsDigitOrComma);
    var k := IndexOfChar(r, ',');
    if k < |r| {
      MoneyTextComma(r, k);
    } else {
      SplitParts(r, ',');
      assert r[..k] == r;
    }
  }

  /** The comma case: the split gives the digits before and after the comma. */
  lemma MoneyTextComma(r: string, k: nat)
    requires IsMoneyText(r) && k == IndexOfChar(r, ',') && k < |r|
    ensures var parts := Split(r, ','); |parts| > 1 && parts[0] + "," + Take(parts[1], 2) == r
  {
    SplitParts(r, ',');
    var t := r[k + 1..];
    assert AllDigits(t);
    assert IndexOfChar(t, ',') == |t|;
    assert t[..|t|] == t;
    assert r == r[..k] + "," + t;
  }

  /** Sanitizing twice is sanitizing once. */
  lemma SanitizeIdempotent(input: string)
    ensures Sanitize(Sanitize(input)) == Sanitize(input)
  {
    SanitizeShape(input);
    MoneyTextFixed(Sanitize(input));
  }

  // ---------------------------------------------------------------------
  // parseValue

  /** Blank text is 0 without calling `parseFloat`. */
  lemma ParseTextBlank(str: string, parseFloat: string -> Option<real>)
    ensures ParseText(str).None? <==> forall i :: 0 <= i < |str| ==> IsSpace(str[i])
    ensures ParseText(str).None? ==> ParseValue(str, parseFloat) == 0.0
  {
    TrimEmpty(str);
  }

  /**
   * Every dot of the text is dropped, and the first comma of what is left,
   * if any, becomes the only point; the rest is kept in order.
   */
  lemma ParseTextPoint(str: string)
    requires ParseText(str).Some?
    ensures var d, t := Filter(str, NotDot), ParseText(str).value;
      |t| == |d|
      && (forall i :: 0 <= i < |t| ==> (t[i] == '.' <==> i == IndexOfChar(d, ',')))
      && (forall i :: 0 <= i < |t| && i != IndexOfChar(d, ',') ==> t[i] == d[i])
  {
    var d := Filter(str, NotDot);
    assert forall i :: 0 <= i < |d| ==> d[i] != '.' by {
      assert forall i :: 0 <= i < |d| ==> NotDot(d[i]);
    }
  }

  /** What the field holds, when non-empty, reaches `parseFloat` as a decimal with the same integer part. */
  lemma SanitizedParse(r: string)
    requires IsMoneyText(r) && r != []
    ensures ParseText(r).Some? && IsDecimalText(ParseText(r).value)
    ensures var t := ParseText(r).value; t[..IndexOfChar(t, '.')] == r[..IndexOfChar(r, ',')]
  {
    MoneyTextChars(r);
    assert forall i :: 0 <= i < |r| ==> r[i] != '.';
    assert Trim(r) != [] by {
      TrimEmpty(r);
      assert !IsSpace(r[0]);
    }
    assert Filter(r, NotDot) == r by {
      FilterAll(r, NotDot);
    }
    var t := ReplaceFirst(r, ',', '.');
    assert ParseText(r) == Some(t);
    var k := IndexOfChar(r, ',');
    ReplaceFirstFresh(r, ',', '.');
    assert IndexOfChar(t, '.') == k;
    assert AllDigits(t[..k]);
  }

  /** Replacing the first c by a character d the text lacks puts the first d where the first c was. */
  lemma ReplaceFirstFresh(s: string, c: char, d: char)
    requires c != d && forall i :: 0 <= i < |s| ==> s[i] != d
    ensures var t, k := ReplaceFirst(s, c, d), IndexOfChar(s, c);
      IndexOfChar(t, d) == k && t[..k] == s[..k] && (k < |s| ==> t[k + 1..] == s[k + 1..])
  {
    var t, k := ReplaceFirst(s, c, d), IndexOfChar(s, c);
    assert t[..k] == s[..k];
    if k < |s| {
      assert t[k] == d;
      assert t[k + 1..] == s[k + 1..];
    }
  }
}
