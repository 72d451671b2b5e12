/// Money arithmetic in whole cents.
///
/// Every amount the discount function handles is counted here in integer
/// cents. The source rounds with `toFixed(2)` followed by `parseFloat`;
/// on a non-negative amount measured in cents that is rounding the rational
/// amount to the nearest integer, with an exact half going up.

module Money {

  /** The smaller of two integers (`Math.min`). */
  function Min(a: int, b: int): (r: int)
    ensures r <= a && r <= b
    ensures r == a || r == b
  {
    if a <= b then a else b
  }

  /** Rounds the non-negative rational `num / den` to the nearest whole number,
      an exact half rounding up. `r` lies within half a unit of `num / den`:
      at most half a unit above it and strictly less than half a unit below it. */
  function RoundHalfUp(num: nat, den: nat): (r: nat)
    requires den > 0
    ensures 2 * den * r <= 2 * num + den
    ensures 2 * num + den < 2 * den * (r + 1)
  {
    (2 * num + den) / (2 * den)
  }

  /** The two inequalities of RoundHalfUp determine its result. */
  lemma RoundHalfUpUnique(num: nat, den: nat, r: int)
    requires den > 0
    requires 2 * den * r <= 2 * num + den < 2 * den * (r + 1)
    ensures r == RoundHalfUp(num, den)
  {
    var q := RoundHalfUp(num, den);
    if r < q {
      // 2den(r + 1) <= 2den q <= 2num + den, contradicting the upper bound on r
      MulMonotone(2 * den, r + 1, q);
    } else if r > q {
      MulMonotone(2 * den, q + 1, r);
    }
  }

  /** Rounding is monotone in the numerator. */
  lemma RoundHalfUpMonotone(a: nat, b: nat, den: nat)
    requires den > 0
    requires a <= b
    ensures RoundHalfUp(a, den) <= RoundHalfUp(b, den)
  {
    var ra, rb := RoundHalfUp(a, den), RoundHalfUp(b, den);
    if ra > rb {
      MulMonotone(2 * den, rb + 1, ra);
    }
  }

  /** A whole number of cents is left as it is. */
  lemma RoundHalfUpExact(n: nat, den: nat)
    requires den > 0
    ensures RoundHalfUp(n * den, den) == n
  {
    RoundHalfUpUnique(n * den, den, n);
  }

  /** Floor division: `n / q` whole copies of `q` fit in `n`, one more does not. */
  lemma FloorDiv(n: nat, q: nat)
    requires q > 0
    ensures n / q >= 0
    ensures (n / q) * q <= n < (n / q + 1) * q
  {
    assert n == (n / q) * q + n % q;
    assert (n / q + 1) * q == (n / q) * q + q;
  }

  lemma MulMonotone(c: nat, x: int, y: int)
    requires x <= y
    ensures c * x <= c * y
  {
    assert c * y - c * x == c * (y - x);
  }
}
