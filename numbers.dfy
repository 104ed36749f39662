/**
 * JavaScript numbers where the client computes them: ratios of counts
 * rounded with `Math.round`, and the `NaN` that `0 / 0` produces.
 */
module Numbers {

  /** A JavaScript number that is either `NaN` or an integer. */
  datatype Num = NaN | Value(v: int)

  /**
   * `Math.round(p / q)` for `q > 0`: the integer nearest to `p / q`, halves
   * rounded up.
   */
  function RoundDiv(p: int, q: int): (r: int)
    requires q > 0
    ensures 2 * q * r <= 2 * p + q < 2 * q * r + 2 * q
  {
    (2 * p + q) / (2 * q)
  }

  /** No other integer is that close: the rounded value is unique. */
  lemma RoundDivUnique(p: int, q: int, r: int)
    requires q > 0
    requires 2 * q * r <= 2 * p + q < 2 * q * r + 2 * q
    ensures r == RoundDiv(p, q)
  {
    var s := RoundDiv(p, q);
    if r < s {
      MulMono(2 * q, r + 1, s);
    } else if r > s {
      MulMono(2 * q, s + 1, r);
    }
  }

  lemma MulMono(k: int, a: int, b: int)
    requires k >= 0 && a <= b
    ensures k * a <= k * b
  {
  }

  /** Rounding a ratio is monotone in the numerator. */
  lemma RoundDivMono(p1: int, p2: int, q: int)
    requires q > 0 && p1 <= p2
    ensures RoundDiv(p1, q) <= RoundDiv(p2, q)
  {
    var r1, r2 := RoundDiv(p1, q), RoundDiv(p2, q);
    if r1 > r2 {
      MulMono(2 * q, r2 + 1, r1);
      assert false;
    }
  }

  /**
   * `Math.round(k / n * 100)`: the percentage of `n` that `k` makes up, the
   * integer nearest to `100 k / n` with halves rounded up.
   */
  function Percent(k: int, n: int): (r: int)
    requires n > 0
    ensures 2 * n * r <= 200 * k + n < 2 * n * r + 2 * n
    ensures 0 <= k <= n ==> 0 <= r <= 100
    ensures k == n ==> r == 100
    ensures k == 0 ==> r == 0
  {
    PercentBounds(k, n);
    RoundDiv(100 * k, n)
  }

  lemma PercentBounds(k: int, n: int)
    requires n > 0
    ensures 0 <= k <= n ==> 0 <= RoundDiv(100 * k, n) <= 100
    ensures k == n ==> RoundDiv(100 * k, n) == 100
    ensures k == 0 ==> RoundDiv(100 * k, n) == 0
  {
    if k == n {
      RoundDivUnique(100 * k, n, 100);
    }
    if k == 0 {
      RoundDivUnique(0, n, 0);
    }
    if 0 <= k <= n {
      RoundDivMono(0, 100 * k, n);
      RoundDivMono(100 * k, 100 * n, n);
      RoundDivUnique(100 * n, n, 100);
      RoundDivUnique(0, n, 0);
    }
  }

  /** A ratio between 0 and 100 rounds to a value between 0 and 100, the ends to themselves. */
  lemma RoundDivWithin(p: int, q: int)
    requires q > 0 && 0 <= p <= 100 * q
    ensures 0 <= RoundDiv(p, q) <= 100
    ensures p == 100 * q ==> RoundDiv(p, q) == 100
    ensures p == 0 ==> RoundDiv(p, q) == 0
  {
    RoundDivMono(0, p, q);
    RoundDivMono(p, 100 * q, q);
    RoundDivUnique(100 * q, q, 100);
    RoundDivUnique(0, q, 0);
  }
}
