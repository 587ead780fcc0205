/** Order facts about real products, each proved in isolation so that callers
    reason about products without the solver's nonlinear search. */
module RealArith {

  lemma ProductPositive(x: real, y: real)
    requires 0.0 < x && 0.0 < y
    ensures 0.0 < x * y
  {
  }

  lemma ProductNonNegative(x: real, y: real)
    requires 0.0 <= x && 0.0 <= y
    ensures 0.0 <= x * y
  {
  }

  lemma SquareNonNegative(x: real)
    ensures 0.0 <= x * x
  {
    if x < 0.0 {
      ProductPositive(-x, -x);
    }
  }

  /** Squaring is monotone on the non-negative reals. */
  lemma SquareMonotone(a: real, b: real)
    requires 0.0 <= a <= b
    ensures a * a <= b * b
    ensures a < b ==> a * a < b * b
  {
    ProductNonNegative(b - a, b + a);
    if a < b {
      ProductPositive(b - a, b + a);
    }
    assert (b - a) * (b + a) == b * b - a * a;
  }

  lemma SquareOfProduct(a: real, s: real)
    ensures (a * s) * (a * s) == (a * a) * (s * s)
  {
  }

  lemma Excess(lo: real, A: real, B: real, s2: real, c2: real)
    requires s2 + c2 == 1.0
    ensures A * s2 + B * c2 - lo == (A - lo) * s2 + (B - lo) * c2
  {
    assert lo == lo * (s2 + c2);
  }

  lemma Deficit(hi: real, A: real, B: real, s2: real, c2: real)
    requires s2 + c2 == 1.0
    ensures hi - (A * s2 + B * c2) == (hi - A) * s2 + (hi - B) * c2
  {
    assert hi == hi * (s2 + c2);
  }

  /** A convex combination of two values in [lo, hi) stays in [lo, hi). */
  lemma ConvexBounds(lo: real, hi: real, A: real, B: real, s2: real, c2: real)
    requires lo <= A < hi && lo <= B < hi
    requires 0.0 <= s2 && 0.0 <= c2 && s2 + c2 == 1.0
    ensures lo <= A * s2 + B * c2 < hi
  {
    Excess(lo, A, B, s2, c2);
    ProductNonNegative(A - lo, s2);
    ProductNonNegative(B - lo, c2);
    Deficit(hi, A, B, s2, c2);
    ProductNonNegative(hi - A, s2);
    ProductNonNegative(hi - B, c2);
    if 0.0 < s2 {
      ProductPositive(hi - A, s2);
    } else {
      ProductPositive(hi - B, c2);
    }
  }

  /** A non-negative number inherits bounds on its square. */
  lemma RootBounds(d: real, lo: real, hi: real)
    requires 0.0 <= d && 0.0 <= lo && 0.0 <= hi
    requires lo * lo <= d * d < hi * hi
    ensures lo <= d < hi
  {
    if d < lo {
      SquareMonotone(d, lo);
    }
    if hi <= d {
      SquareMonotone(hi, d);
    }
  }

  /** Scaling a draw in [0, 1) by a positive width stays in [0, width). */
  lemma ScaledDraw(width: real, u: real)
    requires 0.0 < width && 0.0 <= u < 1.0
    ensures 0.0 <= width * u < width
  {
    ProductNonNegative(width, u);
    ProductPositive(width, 1.0 - u);
  }
}
