/** Real-number helpers shared by the three fatigue-check stages. */
module RealMath {

  /** Absolute value, as pandas' `Series.abs()` computes it row by row. */
  function Abs(x: real): (r: real)
    ensures 0.0 <= r
    ensures r == x || r == -x
    ensures r * r == x * x
  {
    if x < 0.0 then -x else x
  }

  /** The smaller of two values. */
  function Min(a: real, b: real): (m: real)
    ensures m <= a && m <= b
    ensures m == a || m == b
  {
    if a <= b then a else b
  }

  /** s is the non-negative square root of x. */
  predicate IsSqrt(x: real, s: real)
  {
    0.0 <= s && s * s == x
  }

  /** The floating-point power `x ** 0.5`, idealised: on every non-negative
      argument it returns the non-negative square root. Real square roots
      cannot be constructed in Dafny, so the stages that take a root receive
      such a function as a parameter. */
  ghost predicate IsSqrtFunction(sqrt: real -> real)
  {
    forall x :: 0.0 <= x ==> IsSqrt(x, sqrt(x))
  }

  /** A square is never negative. */
  lemma SquareNonNegative(x: real)
    ensures 0.0 <= x * x
  {
    if x < 0.0 { assert x * x == (-x) * (-x); }
  }

  /** Equal numerators over equal nonzero denominators give equal quotients
      (the solver does not always see this through nested divisions). */
  lemma QuotientsAgree(a: real, b: real, c: real, d: real)
    requires b != 0.0 && a == c && b == d
    ensures a / b == c / d
  {
  }

  /** |a b| = |a| |b|. */
  lemma AbsOfProduct(a: real, b: real)
    ensures Abs(a * b) == Abs(a) * Abs(b)
  {
    if a < 0.0 {
      if b < 0.0 { assert a * b == (-a) * (-b); } else { assert a * b <= 0.0; }
    } else {
      if b < 0.0 { assert a * b <= 0.0; } else { assert a * b >= 0.0; }
    }
  }

  /** Scaling by a positive factor keeps the sign: if c d = n with d > 0,
      then c and n are both positive, both negative or both zero. */
  lemma SignUnderPositiveScale(c: real, d: real, n: real)
    requires 0.0 < d && c * d == n
    ensures 0.0 < c <==> 0.0 < n
    ensures c < 0.0 <==> n < 0.0
  {
    if 0.0 < c { assert 0.0 < c * d; }
    if c < 0.0 { assert (-c) * d > 0.0; }
    if c == 0.0 { assert c * d == 0.0; }
  }

  /** Dividing by a positive d undoes multiplication by d and keeps the
      order: t <= c gives t / d <= c / d. */
  lemma DivideByPositive(t: real, c: real, d: real)
    requires 0.0 < d && t <= c
    ensures (t / d) * d == t
    ensures t / d <= c / d
  {
    assert (c / d - t / d) * d == c - t;
    SignUnderPositiveScale(c / d - t / d, d, c - t);
  }

  /** A positive factor cancels: x d = y d with d > 0 gives x = y. */
  lemma CancelPositive(x: real, y: real, d: real)
    requires 0.0 < d && x * d == y * d
    ensures x == y
  {
    assert (x - y) * d == x * d - y * d;
    SignUnderPositiveScale(x - y, d, x * d - y * d);
  }

  /** Two values that scale to the same n, one by |p| > 0 and one by p,
      have the same magnitude. */
  lemma SameMagnitude(c: real, e: real, p: real, n: real)
    requires p != 0.0 && c * Abs(p) == n && e * p == n
    ensures Abs(c) == Abs(e)
  {
    var d := Abs(p);
    assert Abs(d) == d;
    AbsOfProduct(c, d);
    AbsOfProduct(e, p);
    assert Abs(n) == Abs(c) * d;
    assert Abs(n) == Abs(e) * d;
    CancelPositive(Abs(c), Abs(e), d);
  }

  /** Subtracting a term c that has the sign of p from a + b + t: the
      result is below the sum when p > 0, above it when p < 0 and equal to
      it when p = 0. */
  lemma SubtractedBySign(a: real, b: real, t: real, c: real, r: real, p: real)
    requires r == a + b - c + t
    requires 0.0 < c <==> 0.0 < p
    requires c < 0.0 <==> p < 0.0
    ensures 0.0 < p ==> r < a + b + t
    ensures p < 0.0 ==> a + b + t < r
    ensures p == 0.0 ==> r == a + b + t
  {
  }

  /** With |cross| = |a b|, a^2 + b^2 - cross + t^2 is at least
      (a^2 + b^2) / 2 + t^2, and so never negative. */
  lemma CombinedLowerBound(a: real, b: real, t: real, cross: real)
    requires Abs(cross) == Abs(a * b)
    ensures (a * a + b * b) / 2.0 + t * t <= a * a + b * b - cross + t * t
    ensures 0.0 <= (a * a + b * b) / 2.0 + t * t
  {
    SquaresDominateProduct(a, b);
    SquareNonNegative(a);
    SquareNonNegative(b);
    SquareNonNegative(t);
    assert cross <= Abs(cross);
  }

  /** a^2 + b^2 - |a b| >= (a^2 + b^2) / 2, the inequality behind the
      non-negativity of the combined ratio. */
  lemma SquaresDominateProduct(a: real, b: real)
    ensures a * a + b * b - Abs(a * b) >= (a * a + b * b) / 2.0
  {
    AbsOfProduct(a, b);
    var x, y := Abs(a), Abs(b);
    var d := x - y;
    SquareNonNegative(d);
    assert d * d == x * x + y * y - 2.0 * (x * y);
  }
}
