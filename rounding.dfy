/** JavaScript's `Math.round` and `Math.ceil` on exact (real) numbers. */
module Rounding {

  /** `Math.round`: the nearest integer, halves rounded up. */
  function Round(x: real): (r: int)
    ensures x - 0.5 < r as real <= x + 0.5
  {
    (x + 0.5).Floor
  }

  /** `Math.ceil`: the least integer not below `x`. */
  function Ceil(x: real): (r: int)
    ensures x <= r as real < x + 1.0
  {
    -((-x).Floor)
  }

  /** Rounding an integer gives it back. */
  lemma RoundInteger(n: int)
    ensures Round(n as real) == n
  {
  }

  /** A deviation of at most one half, scaled by a positive `n`, is at most `n / 2`. */
  lemma ScaleHalfBand(a: real, n: real)
    requires n > 0.0 && -0.5 < a <= 0.5
    ensures -(n / 2.0) < a * n <= n / 2.0
  {
    assert (a + 0.5) * n > 0.0;
    assert (0.5 - a) * n >= 0.0;
  }

  /** If `x * n == t` for a positive `n`, rounding `x` and scaling back by `n` moves `t` by at most `n / 2`. */
  lemma RoundScaled(x: real, n: real, t: real)
    requires n > 0.0 && x * n == t
    ensures t - n / 2.0 < Round(x) as real * n <= t + n / 2.0
  {
    var r := Round(x) as real;
    var a := r - x;
    ScaleHalfBand(a, n);
    assert r * n == t + a * n by {
      assert (r - x) * n == r * n - x * n;
    }
    var d := a * n;
    assert -(n / 2.0) < d <= n / 2.0;
    assert r * n == t + d;
  }

  /** `Ceil` is the least integer at or above `x`. */
  lemma CeilLeast(x: real, n: int)
    requires x <= n as real
    ensures Ceil(x) <= n
  {
  }
}
