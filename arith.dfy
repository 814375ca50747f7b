/** Arithmetic on `real` standing for the JavaScript `Math` helpers the
    pipeline uses: `Math.abs`, `Math.sign`, `Math.min`, `Math.max`, and the
    clamp `Math.max(-1, Math.min(1, v))`. IEEE NaN and infinities are not
    modelled here. */
module Arith {

  function Abs(v: real): (r: real)
    ensures r >= 0.0
    ensures r == v || r == -v
  {
    if v < 0.0 then -v else v
  }

  /** `Math.sign`: -1, 0 or 1 with the sign of its argument. */
  function Sign(v: real): (r: real)
    ensures r == -1.0 || r == 0.0 || r == 1.0
    ensures r > 0.0 <==> v > 0.0
    ensures r < 0.0 <==> v < 0.0
    ensures r * Abs(v) == v
  {
    if v > 0.0 then 1.0 else if v < 0.0 then -1.0 else 0.0
  }

  function Min(a: real, b: real): (r: real)
    ensures r <= a && r <= b
    ensures r == a || r == b
  {
    if a <= b then a else b
  }

  function Max(a: real, b: real): (r: real)
    ensures r >= a && r >= b
    ensures r == a || r == b
  {
    if a >= b then a else b
  }

  /** `Math.max(-1, Math.min(1, v))`: the nearest point of [-1, 1]. */
  function ClampUnit(v: real): (r: real)
    ensures -1.0 <= r <= 1.0
    ensures -1.0 <= v <= 1.0 ==> r == v
    ensures v > 1.0 ==> r == 1.0
    ensures v < -1.0 ==> r == -1.0
  {
    Max(-1.0, Min(1.0, v))
  }
}
