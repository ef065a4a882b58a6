/** Facts about natural-number multiplication and division that the schedule proofs rely on. */
module Arith {

  lemma MulMonotone(a: nat, b: nat, c: nat)
    requires a <= b
    ensures a * c <= b * c
  {
  }

  lemma MulDistributes(x: nat, p: nat, y: nat, k: nat)
    ensures (x * p + y) * k == x * (p * k) + y * k
  {
  }

  /** Multiplying by a positive factor preserves a strict order, so it may be cancelled. */
  lemma MulCancelStrict(s: nat, q: nat, a: nat)
    requires a > 0 && s * a < q * a
    ensures s < q
  {
  }

  /** The quotient of `x` by `a` is the largest `q` with `q * a <= x`. */
  lemma QuotientBounds(x: nat, a: nat)
    requires a > 0
    ensures (x / a) * a <= x < (x / a + 1) * a
  {
  }

  lemma DivMonotone(a: nat, b: nat, c: nat)
    requires a <= b && c > 0
    ensures a / c <= b / c
  {
    var qa, qb := a / c, b / c;
    QuotientBounds(a, c);
    QuotientBounds(b, c);
    assert qa * c <= a <= b < (qb + 1) * c;
    MulCancelStrict(qa, qb + 1, c);
  }

  /** If `s` copies of `a` fit in `x`, the quotient is at least `s`. */
  lemma DivAtLeast(x: nat, a: nat, s: nat)
    requires a > 0 && a * s <= x
    ensures x / a >= s
  {
    QuotientBounds(x, a);
    MulCancelStrict(s, x / a + 1, a);
  }

  /** If `x` is below `k + 1` copies of `a`, the quotient is at most `k`. */
  lemma DivAtMost(x: nat, a: nat, k: nat)
    requires a > 0 && x < (k + 1) * a
    ensures x / a <= k
  {
    QuotientBounds(x, a);
    if x / a > k {
      MulMonotone(k + 1, x / a, a);
    }
  }

  /** The quotient of `x` by `d` is the `k` whose multiple lies within `d` below `x`. */
  lemma DivUnique(x: nat, d: nat, k: nat)
    requires d > 0 && k * d <= x < k * d + d
    ensures x / d == k
  {
    assert d * k == k * d;
    DivAtLeast(x, d, k);
    assert (k + 1) * d == k * d + d;
    DivAtMost(x, d, k);
  }

  /** A digit below `b` in base `a`, followed by a remainder below `a`, stays below `b * a`. */
  lemma DigitBound(lo: nat, r: nat, a: nat, b: nat)
    requires lo < b && r < a
    ensures lo * a + r < b * a
  {
    MulMonotone(lo + 1, b, a);
  }

  /** Dividing by `a` and then by `b` is dividing by `a * b`. */
  lemma DivDiv(t: nat, a: nat, b: nat)
    requires a > 0 && b > 0
    ensures t / (a * b) == (t / a) / b
  {
    var q, r := t / a, t % a;
    var hi, lo := q / b, q % b;
    assert t == q * a + r;
    assert q == hi * b + lo;
    MulDistributes(hi, b, lo, a);
    DigitBound(lo, r, a, b);
    DivUnique(t, b * a, hi);
    assert a * b == b * a;
  }

  /** `p * t / s` does not exceed `t` when `p <= s`. */
  lemma ScaledAtMost(p: nat, t: nat, s: nat)
    requires 0 < s && p <= s
    ensures p * t / s <= t
  {
    MulMonotone(p, s, t);
    assert p * t < (t + 1) * s;
    DivAtMost(p * t, s, t);
  }

  /** `p * t / s` stays below `t` when `p < s` and `t` is positive. */
  lemma ScaledBelow(p: nat, t: nat, s: nat)
    requires p < s && 0 < t
    ensures p * t / s < t
  {
    MulMonotone(p + 1, s, t);
    assert p * t + t <= s * t;
    assert s * t == t * s;
    DivAtMost(p * t, s, t - 1);
  }
}
