/**
 * The two display helpers of js/utils.js: `formatTime` renders a second count
 * as `MM:SS`, and `clamp` bounds a number to a closed range.
 */
module Utils {
  import opened JsValues

  /** `String(n).padStart(2, '0')`: one leading zero for one-character strings. */
  function Pad2(s: string): (r: string)
    ensures |s| < 2 ==> r == ['0'] + s
    ensures |s| >= 2 ==> r == s
  {
    if |s| < 2 then ['0'] + s else s
  }

  /**
   * `formatTime(seconds)`: the floored minutes and the truncated remainder,
   * each padded to two characters and joined by a colon. For a negative count
   * the pieces carry their own minus signs, exactly as the source prints them.
   */
  function FormatTime(seconds: int): (r: string)
    ensures |r| >= 5
    ensures seconds >= 0 ==> r[|r| - 3] == ':'
  {
    var minutes := Pad2(IntToString(seconds / 60));
    var secs := Pad2(IntToString(JsRem(seconds, 60)));
    assert seconds >= 0 ==> |secs| == 2 by {
      if seconds >= 0 {
        DigitsWidth(seconds % 60);
      }
    }
    minutes + ":" + secs
  }

  /** A leading zero does not change the value of a digit string. */
  lemma {:induction false} LeadingZeroValue(d: string)
    requires forall i :: 0 <= i < |d| ==> IsDigit(d[i])
    ensures var z := ['0'] + d;
      (forall i :: 0 <= i < |z| ==> IsDigit(z[i])) && DigitsValue(z) == DigitsValue(d)
  {
    var z := ['0'] + d;
    if d != [] {
      assert z[..|z| - 1] == ['0'] + d[..|d| - 1];
      LeadingZeroValue(d[..|d| - 1]);
    }
  }

  /** Padding a digit string keeps it a digit string of the same value. */
  lemma PadDigits(d: string)
    requires IsDigits(d)
    ensures IsDigits(Pad2(d)) && DigitsValue(Pad2(d)) == DigitsValue(d)
    ensures |Pad2(d)| == if |d| < 2 then 2 else |d|
  {
    if |d| < 2 {
      LeadingZeroValue(d);
    }
  }

  /** The seconds field of a non-negative count: always two digits, 00 to 59. */
  lemma SecondsField(seconds: nat)
    ensures var t := FormatTime(seconds);
      |t| >= 5 && t[|t| - 3] == ':' &&
      IsDigits(t[|t| - 2..]) && DigitsValue(t[|t| - 2..]) == seconds % 60 < 60
  {
    var m := Pad2(IntToString(seconds / 60));
    var s := Pad2(IntToString(JsRem(seconds, 60)));
    PadDigits(NatToString(seconds / 60));
    PadDigits(NatToString(seconds % 60));
    var t := m + ":" + s;
    assert |s| == 2;
    assert t[|t| - 2..] == s;
  }

  /**
   * Reading a rendered non-negative count back: the minutes field times 60
   * plus the seconds field is the original count, so nothing is truncated.
   */
  lemma FormatTimeRoundTrip(seconds: nat)
    ensures var t := FormatTime(seconds);
      |t| >= 5 && t[|t| - 3] == ':' &&
      IsDigits(t[..|t| - 3]) && IsDigits(t[|t| - 2..]) &&
      60 * DigitsValue(t[..|t| - 3]) + DigitsValue(t[|t| - 2..]) == seconds
  {
    var m := Pad2(IntToString(seconds / 60));
    var s := Pad2(IntToString(JsRem(seconds, 60)));
    PadDigits(NatToString(seconds / 60));
    PadDigits(NatToString(seconds % 60));
    var t := m + ":" + s;
    assert t[..|t| - 3] == m;
    assert t[|t| - 2..] == s;
  }

  /**
   * The rendering is five characters exactly when the minutes fit in two
   * digits; from 100 minutes on the minutes field widens.
   */
  lemma FormatTimeWidth(seconds: nat)
    ensures |FormatTime(seconds)| == 5 <==> seconds < 6000
    ensures seconds >= 6000 ==> |FormatTime(seconds)| > 5
  {
    PadDigits(NatToString(seconds / 60));
    PadDigits(NatToString(seconds % 60));
    var d := NatToString(seconds / 60);
    if seconds >= 6000 && |d| <= 2 {
      DigitsBound(d);
    } else if seconds < 6000 {
      DigitsWidth(seconds / 60);
    }
  }

  /** A digit string of at most two characters is worth less than 100. */
  lemma DigitsBound(d: string)
    requires IsDigits(d) && |d| <= 2
    ensures DigitsValue(d) < 100
  {
    var head := d[..|d| - 1];
    assert head == [] || head[..|head| - 1] == [];
  }

  /** Numbers below 100 print with at most two digits. */
  lemma DigitsWidth(n: nat)
    requires n < 100
    ensures |NatToString(n)| <= 2
  {
  }

  /**
   * `clamp(value, min, max)`, as `Math.max(min, Math.min(max, value))`. With a
   * non-empty range the result lies in it and values inside it pass; an empty
   * range (`lo > hi`) always yields the lower bound.
   */
  function Clamp(value: int, lo: int, hi: int): (r: int)
    ensures lo <= hi ==> lo <= r <= hi
    ensures lo <= hi ==> (lo <= value <= hi <==> r == value)
    ensures lo > hi ==> r == lo
  {
    Max(lo, Min(hi, value))
  }

  /** The same helper over fractional numbers, as the percentage bars use it. */
  function ClampReal(value: real, lo: real, hi: real): (r: real)
    ensures lo <= hi ==> lo <= r <= hi
    ensures lo <= hi ==> (lo <= value <= hi <==> r == value)
    ensures lo > hi ==> r == lo
  {
    if lo >= (if hi <= value then hi else value) then lo
    else if hi <= value then hi else value
  }

  function Min(a: int, b: int): int
  {
    if a <= b then a else b
  }

  function Max(a: int, b: int): int
  {
    if a >= b then a else b
  }

  /** Clamping is monotone in the value. */
  lemma ClampMonotone(a: int, b: int, lo: int, hi: int)
    requires a <= b
    ensures Clamp(a, lo, hi) <= Clamp(b, lo, hi)
  {
  }

  /** On whole numbers the two clamps agree. */
  lemma ClampRealAgrees(value: int, lo: int, hi: int)
    ensures ClampReal(value as real, lo as real, hi as real) == Clamp(value, lo, hi) as real
  {
  }
}
