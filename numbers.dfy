/** Python's conversions and bounds on floats, with `real` standing for `float`. */
module Numbers {
  /** `int(x)`: `x` truncated toward zero. */
  function Trunc(x: real): (r: int)
    ensures x >= 0.0 ==> r >= 0 && r as real <= x < r as real + 1.0
    ensures x < 0.0 ==> r <= 0 && x <= r as real < x + 1.0
  {
    if x >= 0.0 then x.Floor else -((-x).Floor)
  }

  /** `max(lo, min(hi, x))`. */
  function Clamp(x: real, lo: real, hi: real): (r: real)
    requires lo <= hi
    ensures lo <= r <= hi
    ensures lo <= x <= hi ==> r == x
    ensures x < lo ==> r == lo
    ensures x > hi ==> r == hi
  {
    if x < lo then lo else if x > hi then hi else x
  }

  /** `round(x, 2)` on the exact value: to the nearest hundredth, ties to the even hundredth. */
  function RoundHundredths(x: real): (r: real)
    ensures -0.005 <= r - x <= 0.005
    ensures 0.0 <= x <= 1.0 ==> 0.0 <= r <= 1.0
  {
    var y := x * 100.0;
    var f := y.Floor;
    var frac := y - f as real;
    var n := if frac > 0.5 then f + 1 else if frac < 0.5 then f else if f % 2 == 0 then f else f + 1;
    assert 0.0 <= x <= 1.0 ==> 0 <= n <= 100;
    n as real / 100.0
  }
}
