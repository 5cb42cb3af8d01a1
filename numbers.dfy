/**
 * Numeric helpers shared by the analyser: JavaScript's `Math.round`, the
 * `Math.max(0, Math.min(100, ...))` clamp used by every percentage score, and
 * sums and means of real-valued sequences.
 *
 * JavaScript numbers are IEEE doubles; here they are exact reals.
 */
module Numbers {

  /** `Math.round(x)`: the nearest integer, a tie rounded towards +infinity. */
  function Round(x: real): (r: int)
    ensures r as real - 0.5 <= x < r as real + 0.5
  {
    (x + 0.5).Floor
  }

  /** `Math.max(0, Math.min(100, n))`. */
  function Clamp(n: int): (r: int)
    ensures 0 <= r <= 100
    ensures 0 <= n <= 100 ==> r == n
    ensures n < 0 ==> r == 0
    ensures n > 100 ==> r == 100
  {
    if n < 0 then 0 else if n > 100 then 100 else n
  }

  /**
   * `r` is a percentage for the raw value `x`: an integer in 0..100, 0 for
   * anything below one half, 100 from 99.5 on, and the nearest integer to `x`
   * in between.
   */
  predicate IsPercentOf(x: real, r: int)
  {
    && 0 <= r <= 100
    && (x < 0.5 ==> r == 0)
    && (x >= 99.5 ==> r == 100)
    && (0.5 <= x < 99.5 ==> r as real - 0.5 <= x < r as real + 0.5)
  }

  /** `Math.max(0, Math.min(100, Math.round(x)))`. */
  function Percent(x: real): (r: int)
    ensures IsPercentOf(x, r)
  {
    Clamp(Round(x))
  }

  lemma RoundMonotone(x: real, y: real)
    requires x <= y
    ensures Round(x) <= Round(y)
  {
  }

  lemma PercentMonotone(x: real, y: real)
    requires x <= y
    ensures Percent(x) <= Percent(y)
  {
    RoundMonotone(x, y);
  }

  /** The sum of a sequence, added up from the left as `reduce` and `forEach` do. */
  function Sum(xs: seq<real>): real
  {
    if |xs| == 0 then 0.0 else Sum(xs[..|xs| - 1]) + xs[|xs| - 1]
  }

  /** If every element lies in [lo, hi], the sum lies in [n*lo, n*hi]. */
  lemma {:induction false} SumWithin(xs: seq<real>, lo: real, hi: real)
    requires forall i :: 0 <= i < |xs| ==> lo <= xs[i] <= hi
    ensures |xs| as real * lo <= Sum(xs) <= |xs| as real * hi
  {
    if |xs| > 0 {
      SumWithin(xs[..|xs| - 1], lo, hi);
    }
  }

  /** A mean of values in [lo, hi] lies in [lo, hi]. */
  lemma MeanWithin(xs: seq<real>, lo: real, hi: real)
    requires |xs| > 0
    requires forall i :: 0 <= i < |xs| ==> lo <= xs[i] <= hi
    ensures lo <= Sum(xs) / |xs| as real <= hi
  {
    SumWithin(xs, lo, hi);
    QuotientWithin(Sum(xs), |xs| as real, lo, hi);
  }

  lemma QuotientWithin(total: real, n: real, lo: real, hi: real)
    requires n > 0.0 && n * lo <= total <= n * hi
    ensures lo <= total / n <= hi
  {
    DivideMonotone(n * lo, total, n);
    DivideMonotone(total, n * hi, n);
    CancelFactor(lo, n);
    CancelFactor(hi, n);
  }

  lemma DivideMonotone(a: real, b: real, n: real)
    requires n > 0.0 && a <= b
    ensures a / n <= b / n
  {
  }

  lemma CancelFactor(x: real, n: real)
    requires n > 0.0
    ensures (n * x) / n == x
  {
  }
}
