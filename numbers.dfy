/**
 * Python numbers as the recipe normalizer sees them: a quantity is an `int` or a
 * `float`, and the difference shows in the exported JSON (`5` versus `5.0`).
 * A float is modelled by its exact real value.
 */
module Numbers {
  import opened Text

  datatype Number = Int(i: int) | Float(x: real)

  /** The numeric value of a Python number. */
  function Value(n: Number): real {
    match n
    case Int(i) => i as real
    case Float(x) => x
  }

  predicate IsWhole(x: real) {
    x == x.Floor as real
  }

  /** A value with at most two decimal places. */
  predicate IsCents(x: real) {
    IsWhole(x * 100.0)
  }

  /** Python's `int(x)` on a float: truncation toward zero. */
  function TruncateToInt(x: real): (n: int)
    ensures x >= 0.0 ==> n as real <= x < n as real + 1.0
    ensures x < 0.0 ==> n as real - 1.0 < x <= n as real
  {
    if x >= 0.0 || IsWhole(x) then x.Floor else x.Floor + 1
  }

  /** `int(x) == x` holds exactly for whole values. */
  lemma TruncateWhole(x: real)
    ensures (TruncateToInt(x) as real == x) <==> IsWhole(x)
  {
  }

  /** Python's `round(x)`: to the nearest integer, ties to the even one. */
  function RoundHalfEven(x: real): (n: int)
    ensures x - 0.5 <= n as real <= x + 0.5
    ensures (n as real - x == 0.5 || x - n as real == 0.5) ==> n % 2 == 0
  {
    var f := x.Floor;
    var d := x - f as real;
    if d < 0.5 then f
    else if d > 0.5 then f + 1
    else if f % 2 == 0 then f
    else f + 1
  }

  /** Rounding a whole value gives that value back. */
  lemma RoundHalfEvenOfWhole(k: int)
    ensures RoundHalfEven(k as real) == k
  {
  }

  /** Python's `round(x, 2)`: to the nearest hundredth, ties to the even one. */
  function RoundCents(x: real): (r: real)
    ensures IsCents(r)
    ensures x - 0.005 <= r <= x + 0.005
  {
    RoundHalfEven(x * 100.0) as real / 100.0
  }

  /** Rounding to hundredths leaves a value that has at most two decimals unchanged. */
  lemma RoundCentsOfCents(x: real)
    requires IsCents(x)
    ensures RoundCents(x) == x
  {
    RoundHalfEvenOfWhole((x * 100.0).Floor);
  }

  /** The first `n` decimal digits of a fraction `0 <= f < 1`. */
  function FractionDigits(f: real, n: nat): (s: string)
    requires 0.0 <= f < 1.0
    ensures |s| == n && AllDigits(s)
    decreases n
  {
    if n == 0 then []
    else
      var d := (f * 10.0).Floor;
      [DigitChar(d)] + FractionDigits(f * 10.0 - d as real, n - 1)
  }

  function DropTrailingZeros(s: string): (r: string)
    ensures |r| <= |s| && r == s[..|r|]
    ensures r == [] || r[|r| - 1] != '0'
  {
    if s != [] && s[|s| - 1] == '0' then DropTrailingZeros(s[..|s| - 1]) else s
  }

  /**
   * `str(x)` for a float in positional notation: the whole part, a point, and the
   * fraction's digits (at most 17, trailing zeros dropped, at least one digit).
   */
  function FloatRepr(x: real): string {
    var a := if x < 0.0 then -x else x;
    var whole := a.Floor;
    var digits := DropTrailingZeros(FractionDigits(a - whole as real, 17));
    (if x < 0.0 then "-" else "") + NatToString(whole) + "." + (if digits == [] then "0" else digits)
  }
}
