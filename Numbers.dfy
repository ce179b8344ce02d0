/**
 * JavaScript numbers as far as the application's integer parsing needs them:
 * a number is NaN or an integer, `parseInt` reads an optional sign and the
 * leading decimal digits after white space, and a number prints in decimal
 * or as "NaN".
 */
module Numbers {
  import opened Strings

  datatype Num = NaN | Finite(value: int)

  /** `x + d`: NaN stays NaN. */
  function Plus(x: Num, d: int): (r: Num)
    ensures r.NaN? <==> x.NaN?
    ensures x.Finite? ==> r.value == x.value + d
  {
    match x
    case NaN => NaN
    case Finite(n) => Finite(n + d)
  }

  /** `String(x)` / `${x}`. */
  function NumToString(x: Num): string {
    match x
    case NaN => "NaN"
    case Finite(n) => IntToString(n)
  }

  /** The longest prefix of decimal digits. */
  function LeadingDigits(s: string): (d: string)
    ensures AllDigits(d) && |d| <= |s| && d == s[..|d|]
    ensures |d| < |s| ==> !IsDigit(s[|d|])
  {
    if s != [] && IsDigit(s[0]) then [s[0]] + LeadingDigits(s[1..]) else []
  }

  /** `parseInt(s)` in base 10: white space, an optional sign, then at least one digit. */
  function ParseInt(s: string): Num {
    var t := TrimStart(s);
    var negative := t != [] && t[0] == '-';
    var rest := if t != [] && (t[0] == '-' || t[0] == '+') then t[1..] else t;
    var digits := LeadingDigits(rest);
    var n: int := if digits == [] then 0 else Val(digits);
    if digits == [] then NaN
    else if negative then Finite(-n)
    else Finite(n)
  }

  // ---------------------------------------------------------------------
  // Properties

  /** parseInt reads the digits of a string that starts with them, up to the first non-digit. */
  lemma ParseIntOfDigits(d: string, rest: string)
    requires AllDigits(d) && |d| >= 1
    requires rest != [] ==> !IsDigit(rest[0])
    ensures ParseInt(d + rest) == Finite(Val(d))
  {
    var s := d + rest;
    assert s[0] == d[0];
    NoSpaceTrim(s);
    LeadingPrefix(d, rest);
  }

  lemma NoSpaceTrim(s: string)
    requires s != [] && IsDigit(s[0])
    ensures ParseInt(s) == (if LeadingDigits(s) == [] then NaN else Finite(Val(LeadingDigits(s))))
  {
    assert !IsSpace(s[0]);
    assert TrimStart(s) == s;
    assert !(s[0] == '-' || s[0] == '+');
  }

  lemma {:induction false} LeadingPrefix(d: string, rest: string)
    requires AllDigits(d)
    requires rest != [] ==> !IsDigit(rest[0])
    ensures LeadingDigits(d + rest) == d
    decreases |d|
  {
    if d != [] {
      assert (d + rest)[0] == d[0] && (d + rest)[1..] == d[1..] + rest;
      LeadingPrefix(d[1..], rest);
    } else {
      assert d + rest == rest;
    }
  }

  /** parseInt reads back what String prints for a natural number. */
  lemma ParseIntOfNat(n: nat)
    ensures ParseInt(NatToString(n)) == Finite(n)
  {
    ParseIntOfDigits(NatToString(n), []);
    assert NatToString(n) + [] == NatToString(n);
  }

  /** parseInt yields NaN exactly when no digit follows the white space and the sign. */
  lemma ParseIntNaN(s: string)
    ensures ParseInt(s).NaN? <==>
      var t := TrimStart(s);
      var rest := if t != [] && (t[0] == '-' || t[0] == '+') then t[1..] else t;
      rest == [] || !IsDigit(rest[0])
  {
  }
}
