/**
 * The countdown badge of src/components/PreviewCountdown.tsx: the time left
 * as "m:ss" or "Ns", and the colour tier, with the pulsing "!" of the last
 * ten seconds. The seconds left are an integer here: `Math.floor` of a
 * division by 60 is Dafny's division by a positive divisor, while `%`
 * keeps the sign of the dividend as JavaScript's does.
 */
module PreviewCountdown {
  import opened Strings

  /** JavaScript's `a % 60`: truncating, so a negative dividend leaves a non-positive remainder. */
  function JsRem60(a: int): (r: int)
    ensures -60 < r < 60
    ensures a >= 0 ==> r >= 0
    ensures a <= 0 ==> r <= 0
  {
    if a >= 0 then a % 60 else -((-a) % 60)
  }

  /** `Math.floor(secondsRemaining / 60)`. */
  function Minutes(secondsRemaining: int): int {
    secondsRemaining / 60
  }

  function Seconds(secondsRemaining: int): int {
    JsRem60(secondsRemaining)
  }

  /** `displayTime`. */
  function DisplayTime(secondsRemaining: int): string {
    var minutes, seconds := Minutes(secondsRemaining), Seconds(secondsRemaining);
    if minutes > 0 then IntToString(minutes) + ":" + PadStart(IntToString(seconds), 2, '0')
    else IntToString(seconds) + "s"
  }

  datatype Tier = Red | Orange | Yellow

  /** `getColorClasses`, by the colour it picks. */
  function ColorTier(secondsRemaining: int): (t: Tier)
    ensures t == Red <==> secondsRemaining <= 10
    ensures t == Orange <==> 11 <= secondsRemaining <= 30
    ensures t == Yellow <==> secondsRemaining > 30
  {
    if secondsRemaining <= 10 then Red
    else if secondsRemaining <= 30 then Orange
    else Yellow
  }

  /** Whether the "!" marker (and the shaking, pulsing clock) is shown. */
  predicate ShowsMarker(secondsRemaining: int) {
    secondsRemaining <= 10
  }

  function Urgency(t: Tier): nat {
    match t
    case Yellow => 0
    case Orange => 1
    case Red => 2
  }

  // ---------------------------------------------------------------------
  // Properties

  /** For a non-negative count, minutes and seconds are its quotient and remainder by 60. */
  lemma MinutesSeconds(secondsRemaining: int)
    requires secondsRemaining >= 0
    ensures 0 <= Seconds(secondsRemaining) < 60 && Minutes(secondsRemaining) >= 0
    ensures 60 * Minutes(secondsRemaining) + Seconds(secondsRemaining) == secondsRemaining
    ensures Minutes(secondsRemaining) > 0 <==> secondsRemaining >= 60
  {
  }

  /** From a minute up, the display is "m:ss" and reading its two parts back gives the count. */
  lemma DisplayWithMinutes(secondsRemaining: int)
    requires secondsRemaining >= 60
    ensures var parts := Split(DisplayTime(secondsRemaining), ':');
      |parts| == 2 && parts[0] == NatToString(Minutes(secondsRemaining))
      && parts[1] == Pad2(Seconds(secondsRemaining)) && |parts[1]| == 2
      && AllDigits(parts[0]) && AllDigits(parts[1])
      && 60 * Val(parts[0]) + Val(parts[1]) == secondsRemaining
  {
    var m, s := Minutes(secondsRemaining), Seconds(secondsRemaining);
    MinutesSeconds(secondsRemaining);
    Pad2Shape(s);
    var a, b := NatToString(m), Pad2(s);
    assert DisplayTime(secondsRemaining) == a + [':'] + b;
    assert forall i :: 0 <= i < |a| ==> a[i] != ':' by {
      assert forall i :: 0 <= i < |a| ==> IsDigit(a[i]);
    }
    assert forall i :: 0 <= i < |b| ==> b[i] != ':' by {
      assert forall i :: 0 <= i < |b| ==> IsDigit(b[i]);
    }
    SplitTwo(a, b, ':');
  }

  /** Under a minute, the display is the number of seconds and an "s". */
  lemma DisplayUnderMinute(secondsRemaining: int)
    requires 0 <= secondsRemaining < 60
    ensures DisplayTime(secondsRemaining) == NatToString(secondsRemaining) + "s"
  {
    assert Minutes(secondsRemaining) == 0 && Seconds(secondsRemaining) == secondsRemaining;
  }

  /** A negative count shows its truncated remainder: -65 shows "-5s". */
  lemma DisplayNegative(secondsRemaining: int)
    requires secondsRemaining < 0
    ensures DisplayTime(secondsRemaining) == IntToString(-((-secondsRemaining) % 60)) + "s"
  {
  }

  /** The marker appears exactly with the red tier. */
  lemma MarkerIsRed(secondsRemaining: int)
    ensures ShowsMarker(secondsRemaining) <==> ColorTier(secondsRemaining) == Red
  {
  }

  /** As time runs out the tier only gets more urgent. */
  lemma TierMonotone(earlier: int, later: int)
    requires later <= earlier
    ensures Urgency(ColorTier(earlier)) <= Urgency(ColorTier(later))
  {
  }
}
