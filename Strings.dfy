/**
 * The JavaScript string operations the application uses, on `seq<char>`:
 * decimal digits and `String(n)`, `padStart`, code-unit comparison (`<`,
 * `>=`, and `localeCompare` on the digit-and-hyphen keys the application
 * sorts), `startsWith`, `includes`, `split`, `trim`, `toLowerCase`.
 */
module Strings {

  predicate IsDigit(c: char) {
    '0' <= c <= '9'
  }

  predicate AllDigits(s: string) {
    forall i :: 0 <= i < |s| ==> IsDigit(s[i])
  }

  function DigitChar(n: int): (c: char)
    requires 0 <= n < 10
    ensures IsDigit(c)
  {
    (48 + n) as char
  }

  function DigitValue(c: char): (n: int)
    requires IsDigit(c)
    ensures 0 <= n < 10 && DigitChar(n) == c
  {
    c as int - 48
  }

  /** The number a string of decimal digits denotes (`Number("0042")` is 42). */
  function Val(s: string): nat
    requires AllDigits(s)
  {
    if s == [] then 0 else 10 * Val(s[..|s| - 1]) + DigitValue(s[|s| - 1])
  }

  function Pow10(k: nat): nat {
    if k == 0 then 1 else 10 * Pow10(k - 1)
  }

  /** `String(n)` for a natural number: its decimal digits, no leading zero. */
  function NatToString(n: nat): (s: string)
    ensures AllDigits(s) && |s| >= 1
    ensures Val(s) == n
    ensures s[0] == '0' <==> n == 0
    ensures Pow10(|s| - 1) <= n || n == 0
    ensures n < Pow10(|s|)
  {
    if n < 10 then [DigitChar(n)]
    else
      var s := NatToString(n / 10) + [DigitChar(n % 10)];
      assert s[..|s| - 1] == NatToString(n / 10);
      s
  }

  /** `String(i)` for an integer. */
  function IntToString(i: int): string {
    if i < 0 then "-" + NatToString(-i) else NatToString(i)
  }

  /** `s.padStart(len, c)`. */
  function PadStart(s: string, len: nat, c: char): (r: string)
    ensures |r| == if |s| >= len then |s| else len
    ensures r[|r| - |s|..] == s
    ensures forall i :: 0 <= i < |r| - |s| ==> r[i] == c
  {
    if |s| >= len then s else seq(len - |s|, _ => c) + s
  }

  /** `String(n).padStart(2, '0')`. */
  function Pad2(n: nat): string {
    PadStart(NatToString(n), 2, '0')
  }

  lemma Pad2Shape(n: nat)
    requires n < 100
    ensures |Pad2(n)| == 2 && AllDigits(Pad2(n)) && Val(Pad2(n)) == n
  {
    var s := NatToString(n);
    if n < 10 {
      assert |s| == 1;
      assert Pad2(n) == ['0'] + s;
      assert Pad2(n)[..1] == ['0'];
    } else {
      assert |s| == 2;
    }
  }

  lemma {:induction false} Pow10Grows(j: nat, k: nat)
    requires j <= k
    ensures Pow10(j) <= Pow10(k)
    decreases k - j
  {
    if j < k {
      Pow10Grows(j, k - 1);
    }
  }

  /** Every four-digit number prints as four characters. */
  lemma FourDigits(n: nat)
    requires 1000 <= n <= 9999
    ensures |NatToString(n)| == 4
  {
    var k := |NatToString(n)|;
    if k < 4 {
      Pow10Grows(k, 3);
    } else if k > 4 {
      Pow10Grows(4, k - 1);
    }
  }

  /** A digit string without a leading zero is what `String` prints for its value. */
  lemma {:induction false} NatToStringOfVal(s: string)
    requires AllDigits(s) && |s| >= 1 && (s[0] != '0' || |s| == 1)
    ensures NatToString(Val(s)) == s
    decreases |s|
  {
    if |s| > 1 {
      var init := s[..|s| - 1];
      assert init[0] == s[0];
      NatToStringOfVal(init);
      ValPositive(init);
      assert Val(s) / 10 == Val(init) && Val(s) % 10 == DigitValue(s[|s| - 1]);
      assert s == init + [s[|s| - 1]];
    }
  }

  lemma ValPositive(s: string)
    requires AllDigits(s) && |s| >= 1 && s[0] != '0'
    ensures Val(s) >= 1
  {
    if |s| > 1 {
      var init := s[..|s| - 1];
      assert init[0] == s[0];
      ValPositive(init);
    }
  }

  /** Two-character digit strings are exactly what Pad2 prints. */
  lemma Pad2OfVal(s: string)
    requires AllDigits(s) && |s| == 2
    ensures Val(s) < 100 && Pad2(Val(s)) == s
  {
    var a := s[..1];
    assert a[..0] == [] && a[0] == s[0];
    assert Val(a) == DigitValue(s[0]);
    if s[0] == '0' {
      assert Val(s) == DigitValue(s[1]);
      NatToStringOfVal(s[1..]);
      assert s[1..] == [s[1]];
    } else {
      NatToStringOfVal(s);
    }
  }

  // ---------------------------------------------------------------------
  // Code-unit comparison

  function Cmp(a: int, b: int): int {
    if a < b then -1 else if a > b then 1 else 0
  }

  /** JavaScript's relational comparison of two strings, as -1, 0 or 1. */
  function LexCompare(s: string, t: string): (c: int)
    ensures c == -1 || c == 0 || c == 1
  {
    if s == [] then (if t == [] then 0 else -1)
    else if t == [] then 1
    else if s[0] != t[0] then Cmp(s[0] as int, t[0] as int)
    else LexCompare(s[1..], t[1..])
  }

  /** `s < t` on strings. */
  predicate LexLess(s: string, t: string) {
    LexCompare(s, t) < 0
  }

  /** `s <= t` on strings. */
  predicate LexLessEq(s: string, t: string) {
    LexCompare(s, t) <= 0
  }

  lemma {:induction false} LexCompareZero(s: string, t: string)
    ensures LexCompare(s, t) == 0 <==> s == t
    decreases |s|
  {
    if s != [] && t != [] && s[0] == t[0] {
      LexCompareZero(s[1..], t[1..]);
      assert s == [s[0]] + s[1..] && t == [t[0]] + t[1..];
    }
  }

  lemma {:induction false} LexCompareAntisymmetric(s: string, t: string)
    ensures LexCompare(s, t) == -LexCompare(t, s)
    decreases |s|
  {
    if s != [] && t != [] && s[0] == t[0] {
      LexCompareAntisymmetric(s[1..], t[1..]);
    }
  }

  lemma {:induction false} LexCompareTransitive(a: string, b: string, c: string)
    requires LexCompare(a, b) <= 0 && LexCompare(b, c) <= 0
    ensures LexCompare(a, c) <= 0
    decreases |a|
  {
    if a != [] && b != [] && c != [] && a[0] == b[0] && b[0] == c[0] {
      LexCompareTransitive(a[1..], b[1..], c[1..]);
    }
  }

  /** Comparing two concatenations whose first parts have the same length. */
  lemma {:induction false} LexCompareAppend(a: string, b: string, c: string, d: string)
    requires |a| == |c|
    ensures LexCompare(a + b, c + d) == if LexCompare(a, c) != 0 then LexCompare(a, c) else LexCompare(b, d)
    decreases |a|
  {
    if a == [] {
      assert a + b == b && c + d == d;
    } else {
      assert (a + b)[0] == a[0] && (c + d)[0] == c[0];
      assert (a + b)[1..] == a[1..] + b && (c + d)[1..] == c[1..] + d;
      LexCompareAppend(a[1..], b, c[1..], d);
    }
  }

  /** On digit strings of one length, code-unit order is numeric order. */
  lemma {:induction false} DigitsCompare(s: string, t: string)
    requires AllDigits(s) && AllDigits(t) && |s| == |t|
    ensures LexCompare(s, t) == Cmp(Val(s), Val(t))
    decreases |s|
  {
    if s != [] {
      var n := |s| - 1;
      var s', t' := s[..n], t[..n];
      DigitsCompare(s', t');
      assert s == s' + [s[n]] && t == t' + [t[n]];
      LexCompareAppend(s', [s[n]], t', [t[n]]);
      LexCompareZero(s', t');
      assert LexCompare([s[n]], [t[n]]) == Cmp(s[n] as int, t[n] as int) by {
        assert [s[n]][1..] == [] && [t[n]][1..] == [];
      }
    }
  }

  // ---------------------------------------------------------------------
  // Searching, splitting, trimming, case

  /** `s.startsWith(p)`. */
  predicate StartsWith(s: string, p: string) {
    |p| <= |s| && s[..|p|] == p
  }

  /** `s.includes(p)`. */
  predicate Contains(s: string, p: string)
    decreases |s|
  {
    StartsWith(s, p) || (|s| > 0 && Contains(s[1..], p))
  }

  /** `/w1|w2|.../.test(s)`, or `s.includes(w1) || s.includes(w2) || ...`. */
  predicate ContainsAny(s: string, words: seq<string>)
    decreases |words|
  {
    words != [] && (Contains(s, words[0]) || ContainsAny(s, words[1..]))
  }

  lemma {:induction false} ContainsAnyExists(s: string, words: seq<string>)
    ensures ContainsAny(s, words) <==> exists i :: 0 <= i < |words| && Contains(s, words[i])
    decreases |words|
  {
    if words != [] {
      ContainsAnyExists(s, words[1..]);
      if exists i :: 1 <= i < |words| && Contains(s, words[i]) {
        var i :| 1 <= i < |words| && Contains(s, words[i]);
        assert words[1..][i - 1] == words[i];
      }
    }
  }

  /** A string that contains p + q contains q. */
  lemma {:induction false} ContainsSuffix(s: string, p: string, q: string)
    requires Contains(s, p + q)
    ensures Contains(s, q)
    decreases |s|
  {
    if StartsWith(s, p + q) {
      StartsWithShift(s, p, q);
    } else {
      ContainsSuffix(s[1..], p, q);
      ContainsShift(s, q);
    }
  }

  lemma {:induction false} StartsWithShift(s: string, p: string, q: string)
    requires StartsWith(s, p + q)
    ensures Contains(s, q)
    decreases |p|
  {
    if p != [] {
      assert s[1..][..|p[1..] + q|] == (p + q)[1..] == p[1..] + q;
      StartsWithShift(s[1..], p[1..], q);
      ContainsShift(s, q);
    }
  }

  lemma ContainsShift(s: string, q: string)
    requires |s| > 0 && Contains(s[1..], q)
    ensures Contains(s, q)
  {
  }

  /** Index of the first occurrence of character c, or |s| when there is none. */
  function IndexOfChar(s: string, c: char): (i: nat)
    ensures i <= |s|
    ensures i < |s| ==> s[i] == c
    ensures forall j :: 0 <= j < i ==> s[j] != c
  {
    if s == [] then 0 else if s[0] == c then 0 else 1 + IndexOfChar(s[1..], c)
  }

  /** `s.split(sep)` for a one-character separator. */
  function Split(s: string, sep: char): (parts: seq<string>)
    ensures |parts| >= 1
    decreases |s|
  {
    var i := IndexOfChar(s, sep);
    if i == |s| then [s] else [s[..i]] + Split(s[i + 1..], sep)
  }

  /** Splitting two separator-free strings joined by the separator gives them back. */
  lemma SplitTwo(a: string, b: string, sep: char)
    requires forall i :: 0 <= i < |a| ==> a[i] != sep
    requires forall i :: 0 <= i < |b| ==> b[i] != sep
    ensures Split(a + [sep] + b, sep) == [a, b]
  {
    var s := a + [sep] + b;
    assert s[|a|] == sep;
    assert IndexOfChar(s, sep) == |a| by {
      assert forall j :: 0 <= j < |a| ==> s[j] == a[j];
    }
    assert s[..|a|] == a && s[|a| + 1..] == b;
    assert IndexOfChar(b, sep) == |b|;
  }

  /** In digits followed by c, the first c is the one after the digits. */
  lemma IndexAfterDigits(a: string, c: char, r: string)
    requires AllDigits(a) && !IsDigit(c)
    ensures IndexOfChar(a + [c] + r, c) == |a|
  {
    var s := a + [c] + r;
    assert s[|a|] == c;
    assert forall j :: 0 <= j < |a| ==> s[j] == a[j];
  }

  /** A prefix that already holds c locates the first c of the whole string. */
  lemma IndexOfCharPrefix(v: string, p: string, c: char)
    requires StartsWith(v, p) && IndexOfChar(p, c) < |p|
    ensures IndexOfChar(v, c) == IndexOfChar(p, c)
  {
    assert forall j :: 0 <= j < |p| ==> v[j] == p[j];
  }

  /** The first two parts of a split: up to the first separator, then up to the next. */
  lemma SplitParts(s: string, sep: char)
    ensures Split(s, sep)[0] == s[..IndexOfChar(s, sep)]
    ensures |Split(s, sep)| > 1 <==> IndexOfChar(s, sep) < |s|
    ensures IndexOfChar(s, sep) < |s| ==>
      var t := s[IndexOfChar(s, sep) + 1..]; Split(s, sep)[1] == t[..IndexOfChar(t, sep)]
  {
  }

  /** The characters that `trim()` removes (the Unicode space separators beyond these are not modelled). */
  predicate IsSpace(c: char) {
    c == ' ' || c == '\t' || c == '\n' || c == '\r' || c == '\U{000B}' || c == '\U{000C}'
    || c == '\U{00A0}' || c == '\U{FEFF}'
  }

  function TrimStart(s: string): (r: string)
    ensures |r| <= |s| && r == s[|s| - |r|..]
    ensures r != [] ==> !IsSpace(r[0])
    ensures forall i :: 0 <= i < |s| - |r| ==> IsSpace(s[i])
  {
    if s != [] && IsSpace(s[0]) then TrimStart(s[1..]) else s
  }

  function TrimEnd(s: string): (r: string)
    ensures |r| <= |s| && r == s[..|r|]
    ensures r != [] ==> !IsSpace(r[|r| - 1])
    ensures forall i :: |r| <= i < |s| ==> IsSpace(s[i])
  {
    if s != [] && IsSpace(s[|s| - 1]) then TrimEnd(s[..|s| - 1]) else s
  }

  /** `s.trim()`. */
  function Trim(s: string): string {
    TrimEnd(TrimStart(s))
  }

  lemma TrimEmpty(s: string)
    ensures Trim(s) == [] <==> forall i :: 0 <= i < |s| ==> IsSpace(s[i])
  {
    var a := TrimStart(s);
    if a != [] {
      assert !IsSpace(a[0]);
      assert TrimEnd(a) != [];
      assert s[|s| - |a|] == a[0];
    }
  }

  /** Trimming only removes characters. */
  lemma TrimMember(s: string)
    ensures forall c :: c in Trim(s) ==> c in s
  {
    var a := TrimStart(s);
    forall c | c in a
      ensures c in s
    {
      var i :| 0 <= i < |a| && a[i] == c;
      assert s[|s| - |a| + i] == c;
    }
    var b := TrimEnd(a);
    forall c | c in b
      ensures c in a
    {
      var i :| 0 <= i < |b| && b[i] == c;
      assert a[i] == c;
    }
  }

  /** `toLowerCase()` on ASCII and Latin-1 letters (other scripts are not modelled). */
  function LowerChar(c: char): char {
    if 'A' <= c <= 'Z' || ('\U{00C0}' <= c <= '\U{00DE}' && c != '\U{00D7}') then (c as int + 32) as char else c
  }

  function Lower(s: string): (r: string)
    ensures |r| == |s| && forall i :: 0 <= i < |s| ==> r[i] == LowerChar(s[i])
  {
    seq(|s|, i requires 0 <= i < |s| => LowerChar(s[i]))
  }
}
