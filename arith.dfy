// Integer arithmetic behind the averages: sums and `Math.round` of a mean.
module Arith {

  /**
   * `Math.round(sum / n)` computed exactly: the nearest integer to the mean, with
   * halves rounded up (towards positive infinity), as JavaScript does.
   */
  function RoundedMean(sum: int, n: int): (r: int)
    requires n > 0
    ensures 2 * n * r - n <= 2 * sum < 2 * n * r + n
  {
    var q := (2 * sum + n) / (2 * n);
    DivBounds(2 * sum + n, 2 * n);
    q
  }

  lemma DivBounds(a: int, d: int)
    requires d > 0
    ensures d * (a / d) <= a < d * (a / d) + d
  {
  }

  /** The rounded mean of values that all lie in [lo, hi] lies in [lo, hi]. */
  lemma RoundedMeanBounds(sum: int, n: int, lo: int, hi: int)
    requires n > 0 && lo * n <= sum <= hi * n
    ensures lo <= RoundedMean(sum, n) <= hi
  {
    var r := RoundedMean(sum, n);
    assert 2 * n * r < 2 * n * (hi + 1);
    MulCancel(2 * n, r, hi + 1);
    assert 2 * n * (lo - 1) < 2 * n * r;
    MulCancel(2 * n, lo - 1, r);
  }

  /** A positive factor can be cancelled from a strict inequality. */
  lemma MulCancel(n: int, a: int, b: int)
    requires n > 0 && n * a < n * b
    ensures a < b
  {
    MulMono(n, b, a);
  }

  lemma MulMono(n: int, b: int, a: int)
    requires n > 0
    ensures b <= a ==> n * b <= n * a
  {
    assert n * a - n * b == n * (a - b);
  }

  /** The rounded mean of `n` copies of `v` is `v`. */
  lemma RoundedMeanExact(v: int, n: int)
    requires n > 0
    ensures RoundedMean(v * n, n) == v
  {
    RoundedMeanBounds(v * n, n, v, v);
  }
}
