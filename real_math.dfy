/** The `Math` helpers the gesture handlers use, over exact reals. */
module RealMath {

  /** `Math.abs`. */
  function Abs(x: real): (r: real)
    ensures r >= 0.0 && (r == x || r == -x)
  {
    if x < 0.0 then -x else x
  }

  /** `Math.sign`: -1, 0 or 1. */
  function Sign(x: real): (r: real)
    ensures r * Abs(x) == x
    ensures (r == 1.0 <==> x > 0.0) && (r == -1.0 <==> x < 0.0) && (r == 0.0 <==> x == 0.0)
  {
    if x > 0.0 then 1.0 else if x < 0.0 then -1.0 else 0.0
  }

  /** `Math.min` of two numbers. */
  function Min(a: real, b: real): (r: real)
    ensures r <= a && r <= b && (r == a || r == b)
  {
    if a <= b then a else b
  }

  /** `Math.max` of two numbers. */
  function Max(a: real, b: real): (r: real)
    ensures r >= a && r >= b && (r == a || r == b)
  {
    if a >= b then a else b
  }
}
