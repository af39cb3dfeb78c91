/**
 * Facts about multiplication and division of reals that the solver does not
 * find by itself once other terms are around; each is proved on plain numbers.
 */
module RealArith {

  /** Multiplying both sides of `a < b` by a positive number keeps the order. */
  lemma MultiplyStrict(a: real, b: real, c: real)
    requires a < b && c > 0.0
    ensures a * c < b * c
  {
  }

  /** Multiplying both sides of `a <= b` by a non-negative number keeps the order. */
  lemma MultiplyMonotone(a: real, b: real, c: real)
    requires a <= b && c >= 0.0
    ensures a * c <= b * c
  {
  }

  /** The product of two non-negative numbers is non-negative. */
  lemma MultiplyNonNegative(a: real, b: real)
    requires a >= 0.0 && b >= 0.0
    ensures a * b >= 0.0
  {
  }

  /** A square is never negative. */
  lemma SquareNonNegative(x: real)
    ensures x * x >= 0.0
  {
    if x < 0.0 {
      MultiplyNonNegative(-x, -x);
    }
  }

  /** For a positive divisor, `x / d <= k` exactly when `x <= k * d`. */
  lemma DivideAtMost(x: real, d: real, k: real)
    requires d > 0.0
    ensures x / d <= k <==> x <= k * d
  {
    var q := x / d;
    assert q * d == x;
    if q < k {
      MultiplyStrict(q, k, d);
    } else if q > k {
      MultiplyStrict(k, q, d);
    }
  }

  /** Dividing both sides of `a <= b` by a positive number keeps the order. */
  lemma DivideMonotone(a: real, b: real, d: real)
    requires a <= b && d > 0.0
    ensures a / d <= b / d
  {
    DivideAtMost(a, d, b / d);
    assert (b / d) * d == b;
  }

  /** A value within `e` of `x * d` is, divided by `d`, within `e / d` of `x`. */
  lemma DivideWithin(x: real, d: real, y: real, e: real)
    requires d > 0.0 && x * d - e <= y <= x * d + e
    ensures x - e / d <= y / d <= x + e / d
  {
    DivideMonotone(x * d - e, y, d);
    DivideMonotone(y, x * d + e, d);
    assert (x * d - e) / d == x - e / d;
    assert (x * d + e) / d == x + e / d;
  }

  /** A value of `[0, b / d]` times a positive `d` lies in `[0, b]`. */
  lemma ScaleWithin(x: real, d: real, b: real)
    requires d > 0.0 && 0.0 <= x <= b / d
    ensures 0.0 <= x * d <= b
  {
    MultiplyNonNegative(x, d);
    MultiplyMonotone(x, b / d, d);
    assert (b / d) * d == b;
  }
}
