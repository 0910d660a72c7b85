/** Small facts of real and integer arithmetic, each one step, that the solver does not find on its own. */
module Arith {

  /** x * (y + z) == x * y + x * z. */
  lemma Distribute(x: real, y: real, z: real)
    ensures x * (y + z) == x * y + x * z
  {
  }

  /** The product of two non-negative numbers is non-negative. */
  lemma MulNonNegative(u: real, v: real)
    requires 0.0 <= u && 0.0 <= v
    ensures 0.0 <= u * v
  {
  }

  /** The product of two positive numbers is positive. */
  lemma MulPositive(u: real, v: real)
    requires 0.0 < u && 0.0 < v
    ensures 0.0 < u * v
  {
  }

  /** Multiplying by a non-negative number keeps <=. */
  lemma MulLeftLeq(a: real, b: real, c: real)
    requires 0.0 <= a && b <= c
    ensures a * b <= a * c
  {
    MulNonNegative(a, c - b);
    Distribute(a, c - b, b);
  }

  /** Dividing a product by its non-zero factor gives back the other factor. */
  lemma MulDiv(x: real, s: real)
    requires s != 0.0
    ensures (x * s) / s == x && (x / s) * s == x
  {
  }

  /** Two non-negative numbers with equal squares are equal: a square root is unique. */
  lemma RootUnique(u: real, v: real)
    requires 0.0 <= u && 0.0 <= v && u * u == v * v
    ensures u == v
  {
    var d, s := u - v, u + v;
    assert d * s == u * u - v * v;
    if s != 0.0 {
      MulDiv(d, s);
    }
  }

  /** A product of two non-zero numbers is non-zero. */
  lemma MulNonZero(u: real, v: real)
    requires u != 0.0 && v != 0.0
    ensures u * v != 0.0
  {
  }

  /** Cancelling a positive integer factor. */
  lemma Cancel(a: int, b: int, m: int)
    requires m > 0 && a * m == b * m
    ensures a == b
  {
    var d := a - b;
    assert d * m == a * m - b * m;
    assert (d as real) * (m as real) == 0.0;
    MulDiv(d as real, m as real);
  }

  /** The integer cast commutes with multiplication. */
  lemma CastMul(a: int, b: int)
    ensures (a * b) as real == (a as real) * (b as real)
  {
  }

  /** A non-negative number divided by a positive one is non-negative. */
  lemma DivNonNegative(x: real, d: real)
    requires 0.0 <= x && 0.0 < d
    ensures 0.0 <= x / d
  {
  }

  /** The product of two positive integers is positive. */
  lemma IntMulPositive(a: int, b: int)
    requires a > 0 && b > 0
    ensures a * b > 0
  {
  }

  /** Pascal's rule on factorial products: if a (k-1)! (j y) and b (k x) y both equal f, then
      (a + b) (k x) (j y) equals (k + j) f. */
  lemma PascalProducts(a: int, b: int, x: int, y: int, k: int, j: int, f: int)
    requires a * x * (j * y) == f && b * (k * x) * y == f
    ensures (a + b) * (k * x) * (j * y) == (k + j) * f
  {
    calc {
      (a + b) * (k * x) * (j * y);
      k * (a * x * (j * y)) + j * (b * (k * x) * y);
      k * f + j * f;
    }
  }

  /** From c0 i! (q r!) == f == c1 (p i!) r! with positive factorials: c1 p == c0 q. */
  lemma StepProducts(c0: int, c1: int, p: int, q: int, fi: int, fr: int, f: int)
    requires fi > 0 && fr > 0
    requires c0 * fi * (q * fr) == f && c1 * (p * fi) * fr == f
    ensures c1 * p == c0 * q
  {
    IntMulPositive(fi, fr);
    assert (c1 * p) * (fi * fr) == c1 * (p * fi) * fr;
    assert (c0 * q) * (fi * fr) == c0 * fi * (q * fr);
    Cancel(c1 * p, c0 * q, fi * fr);
  }

  /** One step of a multiplicative formula in the reals: if x is c0 and c1 p == c0 q, then x q / p is c1. */
  lemma DivStep(x: real, c0: int, c1: int, p: int, q: int)
    requires p > 0 && c1 * p == c0 * q && x == c0 as real
    ensures x * (q as real) / (p as real) == c1 as real
  {
    CastMul(c1, p);
    CastMul(c0, q);
    assert x * (q as real) == (c1 as real) * (p as real);
    MulDiv(c1 as real, p as real);
  }

  /** If r (sx sy) == c and the sums are sx^2 d, sy^2 d and c d, then r^2 Sxx Syy == Sxy^2. */
  lemma SquaredRatio(r: real, c: real, sx: real, sy: real, d: real, sxx: real, syy: real, sxy: real)
    requires r * (sx * sy) == c
    requires (sx * sx) * d == sxx && (sy * sy) * d == syy && c * d == sxy
    ensures r * r * sxx * syy == sxy * sxy
  {
    calc {
      r * r * sxx * syy;
      r * r * ((sx * sx) * d) * ((sy * sy) * d);
      (r * (sx * sy)) * (r * (sx * sy)) * (d * d);
      c * c * (d * d);
      (c * d) * (c * d);
    }
  }

  /** a u v == f == b v u with positive u, v: a == b. */
  lemma SwapCancel(a: int, b: int, u: int, v: int, f: int)
    requires u > 0 && v > 0 && a * u * v == f && b * v * u == f
    ensures a == b
  {
    IntMulPositive(u, v);
    assert a * (u * v) == f;
    assert b * (u * v) == f;
    Cancel(a, b, u * v);
  }

  /** A factor whose product with a positive number is non-negative is non-negative. */
  lemma NonNegativeFactor(x: real, y: real)
    requires y > 0.0 && x * y >= 0.0
    ensures x >= 0.0
  {
    MulDiv(x, y);
    DivNonNegative(x * y, y);
  }

  /** Squaring is monotone on the non-negative reals. */
  lemma SquareMonotone(u: real, v: real)
    requires 0.0 <= u <= v
    ensures u * u <= v * v
  {
    MulLeftLeq(u, u, v);
    MulLeftLeq(v, u, v);
  }

  /** Between non-negative numbers, a smaller square means a smaller number. */
  lemma RootMonotone(u: real, v: real)
    requires 0.0 <= u && 0.0 <= v && u * u <= v * v
    ensures u <= v
  {
    assert (v - u) * (v + u) == v * v - u * u;
    if v + u > 0.0 {
      NonNegativeFactor(v - u, v + u);
    }
  }

  /** A ratio times its reciprocal is one. */
  lemma Reciprocal(a: real, b: real)
    requires a != 0.0 && b != 0.0
    ensures (b / a) * (a / b) == 1.0
  {
  }

  /** A product of two ones is one; the factors may be any terms. */
  lemma OneTimesOne(x: real, y: real)
    requires x == 1.0 && y == 1.0
    ensures x * y == 1.0
  {
  }

  /** The square of a non-zero number is positive. */
  lemma SquarePositive(u: real)
    requires u != 0.0
    ensures u * u > 0.0
  {
    if u < 0.0 {
      MulPositive(-u, -u);
    } else {
      MulPositive(u, u);
    }
  }

  /** Equal factors give equal products; the factors may be any terms. */
  lemma MulEqual(d: real, a: real, b: real)
    requires a == b
    ensures d * a == d * b && a * d == b * d
  {
  }

  /** With sx^2 d == sxx, sy^2 d == syy, c d == sxy and r == c / (sx sy): r^2 Sxx Syy == Sxy^2. */
  lemma CorrelationAlgebra(r: real, c: real, sx: real, sy: real, d: real, sxx: real, syy: real, sxy: real)
    requires sx != 0.0 && sy != 0.0 && r == c / (sx * sy)
    requires (sx * sx) * d == sxx && (sy * sy) * d == syy && c * d == sxy
    ensures r * r * sxx * syy == sxy * sxy
  {
    MulNonZero(sx, sy);
    MulDiv(c, sx * sy);
    SquaredRatio(r, c, sx, sy, d, sxx, syy, sxy);
  }

  /** Regrouping an integer product: if m g == f then (a m) g == a f. */
  lemma Regroup(a: int, m: int, g: int, f: int)
    requires m * g == f
    ensures (a * m) * g == a * f
  {
  }

  /** Solving c 4! 6! == 10! for c: c is 210. */
  lemma SolveTenFour(c: int, a: int, b: int, f: int)
    requires a == 24 && b == 720 && f == 3628800 && c * a * b == f
    ensures c == 210
  {
    assert c * 17280 == 210 * 17280;
  }

  /** s is the weighted pair q a + p b. Stated as a predicate so that facts about it are used
      as they stand, without rewriting inside the products. */
  predicate Weighted(s: real, a: real, b: real, p: real, q: real)
  {
    s == q * a + p * b
  }

  /** Weighted pairs add up: (q a + p b) + (q x + p y) == q u + p w for u == a + x, w == b + y. */
  lemma RegroupWeighted(s: real, t: real, a: real, b: real, x: real, y: real, u: real, w: real, p: real, q: real)
    requires Weighted(s, a, b, p, q) && Weighted(t, x, y, p, q) && u == a + x && w == b + y
    ensures Weighted(s + t, u, w, p, q)
  {
    Distribute(q, a, x);
    Distribute(p, b, y);
  }

  /** A weighted pair of two equal values r is r (p + q). */
  lemma WeightedEqual(s: real, a: real, b: real, r: real, p: real, q: real)
    requires Weighted(s, a, b, p, q) && a == r && b == r
    ensures s == r * (p + q)
  {
  }

  /** Pascal's rule on the terms of a binomial expansion: with c == a + b, P == u p and
      Q == Q' == v q, c P Q == q (a P v) + p (b u Q'). */
  lemma PascalTermProducts(c: real, a: real, b: real, pk: real, qk: real, qk': real, u: real, v: real, p: real, q: real)
    requires c == a + b && pk == u * p && qk == v * q && qk' == qk
    ensures Weighted(c * pk * qk, a * pk * v, b * u * qk', p, q)
  {
    calc {
      c * pk * qk;
      a * pk * qk + b * pk * qk;
      a * pk * (v * q) + b * (u * p) * qk;
      q * (a * pk * v) + p * (b * u * qk);
    }
  }

  /** The first term of an expansion: with c == a and Q == v q, c P Q == q (a P v) + p 0. */
  lemma FirstTermProducts(c: real, a: real, pk: real, qk: real, v: real, p: real, q: real)
    requires c == a && qk == v * q
    ensures Weighted(c * pk * qk, a * pk * v, 0.0, p, q)
  {
  }

  /** The last term of an expansion: with c == a == 1, Q == 1 and P == u p, c P Q == q 0 + p (a u Q). */
  lemma LastTermProducts(c: real, a: real, pk: real, qk: real, u: real, p: real, q: real)
    requires c == 1.0 && a == 1.0 && qk == 1.0 && pk == u * p
    ensures Weighted(c * pk * qk, 0.0, a * u * qk, p, q)
  {
  }

  /** Anything times zero is zero. */
  lemma TimesZero(k: real, v: real)
    requires v == 0.0
    ensures k * v == 0.0
  {
  }

  /** Cancelling a positive divisor: if v' d' == s', v d == s, d' == d > 0 and s' == k s, then v' == k v. */
  lemma ScaleCancel(v': real, v: real, d': real, d: real, s': real, s: real, k: real)
    requires d > 0.0 && d' == d && v' * d' == s' && v * d == s && s' == k * s
    ensures v' == k * v
  {
    assert v' * d == (k * v) * d;
    MulDiv(v', d);
    MulDiv(k * v, d);
  }

  /** The root of a scaled square: if s'^2 == v', s^2 == v, v' == a^2 v with a, s, s' >= 0, then s' == a s. */
  lemma ScaledRoot(s': real, s: real, v': real, v: real, a: real)
    requires a > 0.0 && s' >= 0.0 && s >= 0.0 && s' * s' == v' && s * s == v && v' == (a * a) * v
    ensures s' == a * s
  {
    assert (a * s) * (a * s) == (a * a) * (s * s);
    MulNonNegative(a, s);
    RootUnique(s', a * s);
  }

  /** c / (s t), or 0 when s or t is 0. */
  function RatioOrZero(c: real, s: real, t: real): real
  {
    if s == 0.0 || t == 0.0 then 0.0 else c / (s * t)
  }

  /** Scaling c and s by the same a > 0 leaves the ratio c / (s t) unchanged. */
  lemma RatioOrZeroScaled(c: real, s: real, t: real, a: real)
    requires a > 0.0
    ensures RatioOrZero(a * c, a * s, t) == RatioOrZero(c, s, t)
  {
    if s != 0.0 && t != 0.0 {
      MulNonZero(s, t);
      MulNonZero(a, s * t);
      assert (a * s) * t == a * (s * t);
      MulDiv(c / (s * t), a * (s * t));
      assert (c / (s * t)) * (a * (s * t)) == a * c;
    }
  }
}
