/**
 * The pieces of JavaScript's value semantics that the core relies on:
 * JSON values as `JSON.parse` returns them, the `Number(x)` coercion,
 * truthiness (`x || fallback`), `Number.prototype.toString` on integers and
 * the truncating remainder operator `%`.
 *
 * Numbers are integers here: fractions, exponents, `Infinity` and surrounding
 * white space in numeric strings are not modelled.
 */
module JsValues {
  import opened Wrappers

  /** A JSON document after `JSON.parse`, with integer numbers only. */
  datatype Json =
    | JNull
    | JBool(b: bool)
    | JNum(n: int)
    | JStr(s: string)
    | JArr(items: seq<Json>)
    | JObj(fields: map<string, Json>)

  /** The result of `Number(x)`: an integer or NaN. */
  datatype Num = Finite(value: int) | NaN

  /** Property lookup `obj.key`; `None` stands for `undefined`. */
  function Field(v: Json, key: string): Option<Json>
  {
    if v.JObj? && key in v.fields then Some(v.fields[key]) else None
  }

  /**
   * JavaScript truthiness of a JSON value: the falsy values are exactly `null`,
   * `false`, `0` and the empty string; every array and object is truthy.
   */
  predicate Truthy(v: Json)
    ensures Truthy(v) <==> v != JNull && v != JBool(false) && v != JNum(0) && v != JStr("")
  {
    match v
    case JNull => false
    case JBool(b) => b
    case JNum(n) => n != 0
    case JStr(s) => s != ""
    case JArr(_) => true
    case JObj(_) => true
  }

  predicate IsDigit(c: char)
  {
    '0' <= c <= '9'
  }

  predicate IsDigits(s: string)
  {
    |s| > 0 && forall i :: 0 <= i < |s| ==> IsDigit(s[i])
  }

  /** The value of a string of decimal digits, most significant first. */
  function DigitsValue(s: string): nat
    requires forall i :: 0 <= i < |s| ==> IsDigit(s[i])
  {
    if s == [] then 0 else DigitsValue(s[..|s| - 1]) * 10 + DigitOf(s[|s| - 1])
  }

  function DigitOf(c: char): nat
    requires IsDigit(c)
  {
    c as int - '0' as int
  }

  function DigitChar(d: nat): (c: char)
    requires d < 10
    ensures IsDigit(c) && DigitOf(c) == d
  {
    ('0' as int + d) as char
  }

  /** `n.toString()` for a non-negative integer: its shortest decimal digits. */
  function NatToString(n: nat): (s: string)
    ensures IsDigits(s) && DigitsValue(s) == n
    ensures n < 10 <==> |s| == 1
    ensures |s| == 1 || s[0] != '0'
  {
    if n < 10 then [DigitChar(n)]
    else
      var p := NatToString(n / 10);
      var s := p + [DigitChar(n % 10)];
      assert s[..|s| - 1] == p;
      s
  }

  /** `n.toString()` for any integer. */
  function IntToString(n: int): string
  {
    if n < 0 then "-" + NatToString(-n) else NatToString(n)
  }

  /**
   * `Number(s)` for a string: the empty string is 0, an optionally signed run
   * of decimal digits is its value, anything else is NaN.
   */
  function StringToNumber(s: string): (r: Num)
    ensures IsDigits(s) ==> r == Finite(DigitsValue(s))
    ensures r.Finite? && s != "" ==> IsDigits(s) || (|s| > 1 && s[0] in "+-" && IsDigits(s[1..]))
  {
    if s == "" then Finite(0)
    else if s[0] == '-' && IsDigits(s[1..]) then Finite(0 - DigitsValue(s[1..]))
    else if s[0] == '+' && IsDigits(s[1..]) then Finite(DigitsValue(s[1..]))
    else if IsDigits(s) then Finite(DigitsValue(s))
    else NaN
  }

  /**
   * `Number(v)` for a JSON value: a number is itself, an object is NaN, and so
   * is an array of two or more items, whose joined text holds a comma.
   */
  function NumberOfValue(v: Json): (r: Num)
    ensures v.JNum? ==> r == Finite(v.n)
    ensures v.JObj? ==> r == NaN
    ensures v.JArr? && |v.items| >= 2 ==> r == NaN
    decreases v
  {
    match v
    case JNull => Finite(0)
    case JBool(b) => Finite(if b then 1 else 0)
    case JNum(n) => Finite(n)
    case JStr(s) => StringToNumber(s)
    case JObj(_) => NaN
    case JArr(items) =>
      // An array converts through `items.join(",")`: empty gives "", two or
      // more items always contain a comma, and a lone `true`/`false` gives a
      // word rather than a digit string.
      if |items| == 0 then Finite(0)
      else if |items| >= 2 || items[0].JBool? then NaN
      else NumberOfValue(items[0])
  }

  /** `Number(x)` where `x` may be `undefined` (`None`), which gives NaN. */
  function NumberOf(v: Option<Json>): Num
  {
    match v
    case None => NaN
    case Some(x) => NumberOfValue(x)
  }

  /** `Number(String(n))` is `n`: an integer's text converts back to it. */
  lemma IntToStringRoundTrip(n: int)
    ensures StringToNumber(IntToString(n)) == Finite(n)
    ensures NumberOfValue(JStr(IntToString(n))) == Finite(n)
  {
    if n < 0 {
      var s := IntToString(n);
      assert s[1..] == NatToString(-n);
    } else {
      var d := NatToString(n);
      assert !IsDigits(d[1..]) || d[0] != '-';
    }
  }

  /** A coerced number that `|| fallback` keeps: finite and non-zero. */
  predicate Usable(n: Num)
  {
    n.Finite? && n.value != 0
  }

  /** `Number(x) || fallback`: NaN and 0 are falsy and give the fallback. */
  function OrDefault(n: Num, fallback: int): (r: int)
    ensures n.Finite? && n.value != 0 ==> r == n.value
    ensures n == NaN || n == Finite(0) ==> r == fallback
  {
    if n.NaN? || n.value == 0 then fallback else n.value
  }

  /**
   * JavaScript's `a % b` on integers: the remainder takes the sign of `a`, and
   * the sign of `b` does not matter.
   */
  function JsRem(a: int, b: int): (r: int)
    requires b != 0
    ensures a >= 0 ==> r == a % Abs(b)
    ensures -Abs(b) < r < Abs(b)
    ensures a < 0 ==> r <= 0
  {
    if a >= 0 then a % Abs(b) else -((-a) % Abs(b))
  }

  /**
   * `Math.round(x)`: the nearest integer, halves going up. It is the one
   * integer in the half-open interval (x - 1/2, x + 1/2].
   */
  function MathRound(x: real): (r: int)
    ensures x - 0.5 < r as real <= x + 0.5
  {
    (x + 0.5).Floor
  }

  /** Rounding never reverses the order of two numbers. */
  lemma MathRoundMonotone(x: real, y: real)
    requires x <= y
    ensures MathRound(x) <= MathRound(y)
  {
  }

  function Abs(x: int): (r: int)
    ensures r >= 0
  {
    if x < 0 then -x else x
  }
}
