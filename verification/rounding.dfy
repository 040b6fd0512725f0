/**
 * Python's numeric conversions used by the formatters, on exact reals:
 * `round(x)` (ties to even), `int(x)` (truncation toward zero) and the
 * fixed-point rendering `f"{x:.Nf}"`.
 */
module Rounding {
  import opened Text

  /** `round(x)`: the nearest integer, ties going to the even neighbour. */
  function RoundHalfEven(x: real): (n: int)
    ensures -0.5 <= n as real - x <= 0.5
    ensures (n as real - x == 0.5 || x - n as real == 0.5) ==> n % 2 == 0
  {
    var f := x.Floor;
    var d := x - f as real;
    if d < 0.5 then f
    else if d > 0.5 then f + 1
    else if f % 2 == 0 then f
    else f + 1
  }

  /** The two properties of `RoundHalfEven` determine its value. */
  lemma RoundHalfEvenUnique(x: real, n: int)
    requires -0.5 <= n as real - x <= 0.5
    requires (n as real - x == 0.5 || x - n as real == 0.5) ==> n % 2 == 0
    ensures n == RoundHalfEven(x)
  {
  }

  /** Adding an even integer `2 · j` commutes with rounding (the tie rule looks at parity). */
  lemma RoundShiftEven(j: int, y: real)
    ensures RoundHalfEven((2 * j) as real + y) == 2 * j + RoundHalfEven(y)
  {
    var r := RoundHalfEven(y);
    assert (2 * j + r) % 2 == r % 2;
    RoundHalfEvenUnique((2 * j) as real + y, 2 * j + r);
  }

  /** `int(x)`: truncation toward zero. */
  function Trunc(x: real): (n: int)
    ensures 0.0 <= x ==> n as real <= x < n as real + 1.0
    ensures x < 0.0 ==> n as real - 1.0 < x <= n as real
  {
    if x >= 0.0 then x.Floor else -((-x).Floor)
  }

  function Abs(x: real): (a: real)
    ensures a >= 0.0 && (a == x || a == -x)
  {
    if x < 0.0 then -x else x
  }

  /** `s` left-padded with zeros to `width` characters. */
  function ZeroPad(s: string, width: nat): (r: string)
    ensures |r| == if |s| < width then width else |s|
    ensures r[|r| - |s|..] == s
    ensures forall k :: 0 <= k < |r| - |s| ==> r[k] == '0'
  {
    if |s| < width then
      var pad := seq(width - |s|, _ => '0');
      assert (pad + s)[|pad|..] == s;
      pad + s
    else s
  }

  /** `f"{x:.0f}"`: the magnitude rounded to an integer (ties to even), with a minus sign for a negative value. */
  function Fixed0(x: real): string {
    (if x < 0.0 then "-" else "") + NatStr(RoundHalfEven(Abs(x)))
  }

  /** `f"{x:.2f}"`: the magnitude rounded to hundredths (ties to even), with a minus sign for a negative value. */
  function Fixed2(x: real): string {
    var n := RoundHalfEven(Abs(x) * 100.0);
    (if x < 0.0 then "-" else "") + NatStr(n / 100) + "." + ZeroPad(NatStr(n % 100), 2)
  }
}
