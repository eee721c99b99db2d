/**
 The JavaScript number operations the simulator uses (`Math.max`, `Math.min`,
 `Math.round`, and `parseFloat(x.toFixed(d))`), stated over exact reals.
 Binary floating-point representation error is not modelled: a `real` here is
 the exact value the double is meant to hold.
 */
module JsMath {

  /** `Math.max(a, b)`. */
  function Max(a: real, b: real): (m: real)
    ensures m >= a && m >= b
    ensures m == a || m == b
  {
    if a >= b then a else b
  }

  /** `Math.min(a, b)`. */
  function Min(a: real, b: real): (m: real)
    ensures m <= a && m <= b
    ensures m == a || m == b
  {
    if a <= b then a else b
  }

  /** `Math.round(x)`: the nearest integer, a half rounded up towards +infinity. */
  function Round(x: real): (n: int)
    ensures x - 0.5 < n as real <= x + 0.5
  {
    (x + 0.5).Floor
  }

  /** `Math.round` never reverses the order of two numbers. */
  lemma RoundMonotone(x: real, y: real)
    requires x <= y
    ensures Round(x) <= Round(y)
  {
  }

  /**
   The whole number nearest v, a half rounded away from zero: what `toFixed`
   does to a number already scaled by 10^d (it rounds the magnitude up on a
   tie and puts the sign back in front).
   */
  function RoundHalfAway(v: real): (n: int)
    ensures v >= 0.0 ==> v - 0.5 < n as real <= v + 0.5
    ensures v < 0.0 ==> v - 0.5 <= n as real < v + 0.5
    ensures v >= 0.0 ==> n >= 0
  {
    if v >= 0.0 then (v + 0.5).Floor else -((-v) + 0.5).Floor
  }

  /** Rounding half away from zero never reverses the order of two numbers. */
  lemma RoundHalfAwayMonotone(v: real, w: real)
    requires v <= w
    ensures RoundHalfAway(v) <= RoundHalfAway(w)
  {
  }

  /**
   `parseFloat(x.toFixed(1))`: the whole number of tenths nearest x, a tie
   going to the larger magnitude.
   */
  function ToFixed1(x: real): (y: real)
    ensures (y * 10.0).Floor as real == y * 10.0
    ensures x >= 0.0 ==> x - 0.05 < y <= x + 0.05
    ensures x < 0.0 ==> x - 0.05 <= y < x + 0.05
    ensures x >= 0.0 ==> y >= 0.0
  {
    RoundHalfAway(x * 10.0) as real / 10.0
  }

  /**
   `parseFloat(x.toFixed(2))`: the whole number of hundredths nearest x, a
   tie going to the larger magnitude.
   */
  function ToFixed2(x: real): (y: real)
    ensures (y * 100.0).Floor as real == y * 100.0
    ensures x >= 0.0 ==> x - 0.005 < y <= x + 0.005
    ensures x < 0.0 ==> x - 0.005 <= y < x + 0.005
    ensures x >= 0.0 ==> y >= 0.0
  {
    RoundHalfAway(x * 100.0) as real / 100.0
  }
}
