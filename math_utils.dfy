/**
 * The numeric library every module imports: descriptive statistics, combinatorics,
 * the binomial and Poisson mass functions and decimal rounding.
 *
 * Numbers are exact reals (no IEEE-754 doubles). Where the library would divide
 * by zero and produce NaN or Infinity, the operation requires a non-zero divisor.
 * `Math.sqrt`, `Math.exp` are parameters whose defining property is stated as a
 * predicate (`IsSqrt`) or left open.
 */
module MathUtils {
  import opened Arith

  // ---------------------------------------------------------------------------
  // Sums and means
  // ---------------------------------------------------------------------------

  /** `sum`: the left fold `((0 + v0) + v1) + ...` that `reduce` performs. */
  function Sum(values: seq<real>): real
  {
    if values == [] then 0.0 else Sum(values[..|values| - 1]) + values[|values| - 1]
  }

  /** Appending a value adds it to the sum. */
  lemma SumAppend(values: seq<real>, x: real)
    ensures Sum(values + [x]) == Sum(values) + x
  {
    assert (values + [x])[..|values|] == values;
  }

  /** The sums of short literal lists, for worked examples. */
  lemma SumLiterals(a: real, b: real, c: real, d: real, e: real)
    ensures Sum([a, b]) == a + b
    ensures Sum([a, b, c, d]) == a + b + c + d
    ensures Sum([a, b, c, d, e]) == a + b + c + d + e
  {
    SumAppend([], a);
    SumAppend([a], b);
    SumAppend([a, b], c);
    SumAppend([a, b, c], d);
    SumAppend([a, b, c, d], e);
    assert [a] + [b] == [a, b];
    assert [a, b] + [c] == [a, b, c];
    assert [a, b, c] + [d] == [a, b, c, d];
    assert [a, b, c, d] + [e] == [a, b, c, d, e];
  }

  /** A sum of non-negative terms is non-negative. */
  lemma {:induction false} SumNonNegative(values: seq<real>)
    requires forall i :: 0 <= i < |values| ==> values[i] >= 0.0
    ensures Sum(values) >= 0.0
  {
    if values != [] {
      var n := |values| - 1;
      assert forall i :: 0 <= i < n ==> values[..n][i] >= 0.0;
      SumNonNegative(values[..n]);
    }
  }

  /** Sums are linear: a sequence built pointwise as `alpha*a + beta*b + gamma` sums accordingly. */
  lemma {:induction false} SumAffine(a: seq<real>, b: seq<real>, c: seq<real>, alpha: real, beta: real, gamma: real)
    requires |a| == |b| == |c|
    requires forall i :: 0 <= i < |c| ==> c[i] == alpha * a[i] + beta * b[i] + gamma
    ensures Sum(c) == alpha * Sum(a) + beta * Sum(b) + gamma * |c| as real
  {
    if c != [] {
      var n := |c| - 1;
      var a', b', c' := a[..n], b[..n], c[..n];
      assert forall i :: 0 <= i < |c'| ==> c'[i] == alpha * a'[i] + beta * b'[i] + gamma;
      SumAffine(a', b', c', alpha, beta, gamma);
      var sa, sb, sc := Sum(a'), Sum(b'), Sum(c');
      assert Sum(a) == sa + a[n];
      assert Sum(b) == sb + b[n];
      assert Sum(c) == sc + c[n];
      assert c[n] == alpha * a[n] + beta * b[n] + gamma;
      Distribute(alpha, sa, a[n]);
      Distribute(beta, sb, b[n]);
      Distribute(gamma, n as real, 1.0);
    }
  }

  /** Scaling every term by k scales the sum by k. */
  lemma {:induction false} SumScaled(a: seq<real>, c: seq<real>, k: real)
    requires |a| == |c|
    requires forall i :: 0 <= i < |c| ==> c[i] == k * a[i]
    ensures Sum(c) == k * Sum(a)
  {
    if c != [] {
      var n := |c| - 1;
      assert forall i :: 0 <= i < n ==> c[..n][i] == k * a[..n][i];
      SumScaled(a[..n], c[..n], k);
      Distribute(k, Sum(a[..n]), a[n]);
    }
  }

  /** A sum of non-negative terms is at least each of its terms. */
  lemma {:induction false} SumBoundsTerm(values: seq<real>, k: int)
    requires forall i :: 0 <= i < |values| ==> values[i] >= 0.0
    requires 0 <= k < |values|
    ensures values[k] <= Sum(values)
  {
    var n := |values| - 1;
    assert forall i :: 0 <= i < n ==> values[..n][i] >= 0.0;
    if k < n {
      SumBoundsTerm(values[..n], k);
    } else {
      SumNonNegative(values[..n]);
    }
  }

  /** A sum of non-negative terms one of which is positive is positive. */
  lemma SumPositive(values: seq<real>, k: int)
    requires forall i :: 0 <= i < |values| ==> values[i] >= 0.0
    requires 0 <= k < |values| && values[k] > 0.0
    ensures Sum(values) > 0.0
  {
    SumBoundsTerm(values, k);
  }

  /** `mean`: 0 for no values, otherwise the value that, taken |values| times, gives the sum. */
  function Mean(values: seq<real>): (m: real)
    ensures values == [] ==> m == 0.0
    ensures m * |values| as real == Sum(values)
  {
    if |values| == 0 then 0.0
    else
      MulDiv(Sum(values), |values| as real);
      Sum(values) / |values| as real
  }

  /** The deviations `v - mean(values)`, in order. */
  function Deviations(values: seq<real>): (d: seq<real>)
    ensures |d| == |values|
  {
    var m := Mean(values);
    seq(|values|, i requires 0 <= i < |values| => values[i] - m)
  }

  /** The squares `d * d` (`Math.pow(d, 2)`), in order. */
  function Squares(d: seq<real>): (sq: seq<real>)
    ensures |sq| == |d|
    ensures forall i :: 0 <= i < |d| ==> sq[i] >= 0.0
  {
    seq(|d|, i requires 0 <= i < |d| => d[i] * d[i])
  }

  /** The pointwise products `a[i] * b[i]`. */
  function Products(a: seq<real>, b: seq<real>): (p: seq<real>)
    requires |a| == |b|
    ensures |p| == |a|
  {
    seq(|a|, i requires 0 <= i < |a| => a[i] * b[i])
  }

  /** Deviations from the mean always sum to zero. */
  lemma DeviationsSumToZero(values: seq<real>)
    ensures Sum(Deviations(values)) == 0.0
  {
    var d := Deviations(values);
    SumAffine(values, values, d, 1.0, 0.0, -Mean(values));
  }

  // ---------------------------------------------------------------------------
  // Variance, standard deviation, covariance, correlation
  // ---------------------------------------------------------------------------

  /** The divisor `variance` uses: n - 1 for a sample, n for a population. */
  function VarianceDivisor(n: nat, sample: bool): real
  {
    if sample then (n - 1) as real else n as real
  }

  /** `variance`: 0 for at most one value, otherwise the squared deviations over the divisor. */
  function Variance(values: seq<real>, sample: bool): (v: real)
    ensures |values| <= 1 ==> v == 0.0
    ensures v >= 0.0
    ensures |values| > 1 ==> v * VarianceDivisor(|values|, sample) == Sum(Squares(Deviations(values)))
  {
    if |values| <= 1 then 0.0
    else
      var squares := Squares(Deviations(values));
      var divisor := VarianceDivisor(|values|, sample);
      SumNonNegative(squares);
      DivNonNegative(Sum(squares), divisor);
      MulDiv(Sum(squares), divisor);
      Sum(squares) / divisor
  }

  /** The defining property of `Math.sqrt` on the non-negative reals. */
  ghost predicate IsSqrt(sqrt: real -> real)
  {
    forall x :: 0.0 <= x ==> 0.0 <= sqrt(x) && sqrt(x) * sqrt(x) == x
  }

  /** `standardDeviation`: the non-negative root of the variance; 0 exactly when the variance is 0. */
  function StandardDeviation(values: seq<real>, sample: bool, sqrt: real -> real): (s: real)
    requires IsSqrt(sqrt)
    ensures 0.0 <= s && s * s == Variance(values, sample)
    ensures s == 0.0 <==> Variance(values, sample) == 0.0
  {
    var v := Variance(values, sample);
    var s := sqrt(v);
    if v == 0.0 then
      RootUnique(s, 0.0);
      s
    else
      s
  }

  /** `covariance`: 0 for series of different or zero length, otherwise the cross deviations over n - 1.
      Two series of length one would divide 0 by 0. */
  function Covariance(x: seq<real>, y: seq<real>): (c: real)
    requires |x| != |y| || |x| != 1
    ensures |x| != |y| || |x| == 0 ==> c == 0.0
    ensures |x| == |y| && |x| >= 2 ==>
      c * (|x| - 1) as real == Sum(Products(Deviations(x), Deviations(y)))
  {
    if |x| != |y| || |x| == 0 then 0.0
    else
      MulDiv(Sum(Products(Deviations(x), Deviations(y))), (|x| - 1) as real);
      Sum(Products(Deviations(x), Deviations(y))) / (|x| - 1) as real
  }

  /** Covariance does not depend on the order of its arguments. */
  lemma CovarianceSymmetric(x: seq<real>, y: seq<real>)
    requires |x| != |y| || |x| != 1
    ensures Covariance(x, y) == Covariance(y, x)
  {
    if |x| == |y| && |x| >= 2 {
      assert Products(Deviations(x), Deviations(y)) == Products(Deviations(y), Deviations(x));
    }
  }

  /** The covariance of a series with itself is its sample variance. */
  lemma CovarianceSelf(x: seq<real>)
    requires |x| != 1
    ensures Covariance(x, x) == Variance(x, true)
  {
    if |x| >= 2 {
      assert Products(Deviations(x), Deviations(x)) == Squares(Deviations(x));
    }
  }

  /** Sxx: the sum of squared deviations of a series. */
  function SumSquaredDeviations(x: seq<real>): (s: real)
    ensures s >= 0.0
  {
    SumNonNegative(Squares(Deviations(x)));
    Sum(Squares(Deviations(x)))
  }

  /** Sxy: the sum of cross deviations of two series of equal length. */
  function SumCrossDeviations(x: seq<real>, y: seq<real>): real
    requires |x| == |y|
  {
    Sum(Products(Deviations(x), Deviations(y)))
  }

  /** `correlation`: 0 when either series has zero standard deviation, otherwise the covariance over
      the product of the standard deviations. The covariance is only needed in the second case. */
  function Correlation(x: seq<real>, y: seq<real>, sqrt: real -> real): (r: real)
    requires IsSqrt(sqrt)
    ensures Variance(x, true) == 0.0 || Variance(y, true) == 0.0 ==> r == 0.0
    ensures |x| != |y| ==> r == 0.0
  {
    var stdX := StandardDeviation(x, true, sqrt);
    var stdY := StandardDeviation(y, true, sqrt);
    if stdX == 0.0 || stdY == 0.0 then 0.0
    else Covariance(x, y) / (stdX * stdY)
  }

  /** Squared, the correlation is Sxy^2 / (Sxx * Syy): the n - 1 divisors cancel. */
  lemma CorrelationSquared(x: seq<real>, y: seq<real>, sqrt: real -> real)
    requires IsSqrt(sqrt)
    requires |x| == |y| >= 2
    requires SumSquaredDeviations(x) > 0.0 && SumSquaredDeviations(y) > 0.0
    ensures var r := Correlation(x, y, sqrt);
      r * r * SumSquaredDeviations(x) * SumSquaredDeviations(y)
        == SumCrossDeviations(x, y) * SumCrossDeviations(x, y)
  {
    var d := (|x| - 1) as real;
    var stdX, stdY := StandardDeviation(x, true, sqrt), StandardDeviation(y, true, sqrt);
    var vx, vy := Variance(x, true), Variance(y, true);
    MulEqual(d, stdX * stdX, vx);
    MulEqual(d, stdY * stdY, vy);
    CorrelationAlgebra(Correlation(x, y, sqrt), Covariance(x, y), stdX, stdY, d,
      SumSquaredDeviations(x), SumSquaredDeviations(y), SumCrossDeviations(x, y));
  }

  // ---------------------------------------------------------------------------
  // Scaled and shifted series
  // ---------------------------------------------------------------------------

  /** If s == d sx + c n, the means satisfy mv == c + d mx. */
  lemma AffineMean(mv: real, mx: real, sv: real, sx: real, c: real, d: real, n: real)
    requires n > 0.0 && mv * n == sv && mx * n == sx && sv == d * sx + 0.0 * sx + c * n
    ensures mv == c + d * mx
  {
    assert (c + d * mx) * n == c * n + d * (mx * n);
    MulDiv(mv, n);
    MulDiv(c + d * mx, n);
  }

  /** A deviation of an exactly linear value is the slope times the deviation of its X. */
  lemma ScaledDeviation(y: real, x: real, my: real, mx: real, c: real, d: real)
    requires y == c + d * x && my == c + d * mx
    ensures y - my == d * (x - mx)
  {
  }

  /** x (d x) == d (x x). */
  lemma ScaledSquare(x: real, y: real, d: real)
    requires y == d * x
    ensures x * y == d * (x * x) + 0.0 * (x * x) + 0.0
  {
  }

  /** If every dy[i] is d dx[i], then Σ dx dy == d Σ dx². */
  lemma ScaledProducts(dx: seq<real>, dy: seq<real>, d: real)
    requires |dx| == |dy|
    requires forall i :: 0 <= i < |dx| ==> dy[i] == d * dx[i]
    ensures Sum(Products(dx, dy)) == d * Sum(Squares(dx))
  {
    var sq, pr := Squares(dx), Products(dx, dy);
    forall i | 0 <= i < |dx|
      ensures pr[i] == d * sq[i] + 0.0 * sq[i] + 0.0
    {
      ScaledSquare(dx[i], dy[i], d);
    }
    SumAffine(sq, sq, pr, d, 0.0, 0.0);
  }

  /** Deviations of an exactly linear series are the slope times the deviations of X, so Sxy == d Sxx. */
  lemma ScaledDeviations(xs: seq<real>, ys: seq<real>, c: real, d: real)
    requires |xs| == |ys|
    requires forall i :: 0 <= i < |xs| ==> ys[i] == c + d * xs[i]
    requires Mean(ys) == c + d * Mean(xs)
    ensures SumCrossDeviations(xs, ys) == d * SumSquaredDeviations(xs)
  {
    var dx, dy := Deviations(xs), Deviations(ys);
    forall i | 0 <= i < |xs|
      ensures dy[i] == d * dx[i]
    {
      DeviationScaled(xs, ys, c, d, i);
    }
    ScaledProducts(dx, dy, d);
    MulEqual(d, Sum(Squares(dx)), SumSquaredDeviations(xs));
  }

  /** One deviation of an exactly linear series is the slope times the deviation of its X. */
  lemma DeviationScaled(xs: seq<real>, ys: seq<real>, c: real, d: real, i: int)
    requires |xs| == |ys| && 0 <= i < |xs|
    requires ys[i] == c + d * xs[i] && Mean(ys) == c + d * Mean(xs)
    ensures Deviations(ys)[i] == d * Deviations(xs)[i]
  {
    ScaledDeviation(ys[i], xs[i], Mean(ys), Mean(xs), c, d);
  }

  /** y (= d x) squared is d^2 x^2. */
  lemma SquareOfScaled(x: real, y: real, d: real)
    requires y == d * x
    ensures y * y == (d * d) * (x * x)
  {
  }

  /** If every dy[i] is d dx[i], then Σ dy² == d² Σ dx². */
  lemma ScaledSquares(dx: seq<real>, dy: seq<real>, d: real)
    requires |dx| == |dy|
    requires forall i :: 0 <= i < |dx| ==> dy[i] == d * dx[i]
    ensures Sum(Squares(dy)) == (d * d) * Sum(Squares(dx))
  {
    var sx, sy := Squares(dx), Squares(dy);
    assert forall i :: 0 <= i < |sy| ==> sy[i] == (d * d) * sx[i] by {
      forall i | 0 <= i < |dx|
        ensures sy[i] == (d * d) * sx[i]
      {
        SquareOfScaled(dx[i], dy[i], d);
      }
    }
    SumScaled(sx, sy, d * d);
  }

  /** If every dx'[i] is d dx[i], then Σ dx' dy == d Σ dx dy. */
  lemma ScaledCross(dx: seq<real>, dx': seq<real>, dy: seq<real>, d: real)
    requires |dx| == |dx'| == |dy|
    requires forall i :: 0 <= i < |dx| ==> dx'[i] == d * dx[i]
    ensures Sum(Products(dx', dy)) == d * Sum(Products(dx, dy))
  {
    var pr, pr' := Products(dx, dy), Products(dx', dy);
    assert forall i :: 0 <= i < |pr'| ==> pr'[i] == d * pr[i];
    SumScaled(pr, pr', d);
  }

  /** The series b + a x, term by term. */
  function AffineImage(x: seq<real>, a: real, b: real): (y: seq<real>)
    ensures |y| == |x| && forall i :: 0 <= i < |x| ==> y[i] == b + a * x[i]
  {
    seq(|x|, i requires 0 <= i < |x| => b + a * x[i])
  }

  /** The mean moves with the series: mean(b + a x) == b + a mean(x). */
  lemma MeanOfAffine(x: seq<real>, a: real, b: real)
    requires |x| >= 1
    ensures Mean(AffineImage(x, a, b)) == b + a * Mean(x)
  {
    MeanOfPointwiseAffine(AffineImage(x, a, b), x, a, b);
  }

  /** The mean of a series y with y[i] == b + a x[i] is b + a mean(x). */
  lemma MeanOfPointwiseAffine(y: seq<real>, x: seq<real>, a: real, b: real)
    requires |y| == |x| >= 1 && forall i :: 0 <= i < |x| ==> y[i] == b + a * x[i]
    ensures Mean(y) == b + a * Mean(x)
  {
    assert Sum(y) == a * Sum(x) + 0.0 * Sum(x) + b * |y| as real by {
      assert forall i :: 0 <= i < |y| ==> y[i] == a * x[i] + 0.0 * x[i] + b;
      SumAffine(x, x, y, a, 0.0, b);
    }
    MeansOfScaledSums(y, x, a, b);
  }

  /** Two series of one length whose sums satisfy Σy == a Σx + b n have means related the same way. */
  lemma MeansOfScaledSums(y: seq<real>, x: seq<real>, a: real, b: real)
    requires |y| == |x| >= 1
    requires Sum(y) == a * Sum(x) + 0.0 * Sum(x) + b * |y| as real
    ensures Mean(y) == b + a * Mean(x)
  {
    AffineMean(Mean(y), Mean(x), Sum(y), Sum(x), b, a, |y| as real);
  }

  /** The deviations of a series y with y[i] == b + a x[i] are a times the deviations of x. */
  lemma DeviationsOfPointwiseAffine(y: seq<real>, x: seq<real>, a: real, b: real)
    requires |y| == |x| >= 1 && forall i :: 0 <= i < |x| ==> y[i] == b + a * x[i]
    ensures forall i :: 0 <= i < |x| ==> Deviations(y)[i] == a * Deviations(x)[i]
  {
    MeanOfPointwiseAffine(y, x, a, b);
    forall i | 0 <= i < |x|
      ensures Deviations(y)[i] == a * Deviations(x)[i]
    {
      DeviationScaled(x, y, b, a, i);
    }
  }

  /** Shifting leaves the variance alone and scaling by a multiplies it by a^2. */
  lemma VarianceOfAffine(x: seq<real>, a: real, b: real, sample: bool)
    ensures Variance(AffineImage(x, a, b), sample) == (a * a) * Variance(x, sample)
  {
    SquaredDeviationsOfPointwiseAffine(AffineImage(x, a, b), x, a, b);
    VariancesOfScaledSquares(AffineImage(x, a, b), x, sample, a * a);
  }

  /** The squared deviations of a series y with y[i] == b + a x[i] sum to a^2 times those of x. */
  lemma SquaredDeviationsOfPointwiseAffine(y: seq<real>, x: seq<real>, a: real, b: real)
    requires |y| == |x| && forall i :: 0 <= i < |x| ==> y[i] == b + a * x[i]
    ensures SumSquaredDeviations(y) == (a * a) * SumSquaredDeviations(x)
  {
    if |x| >= 1 {
      DeviationsOfPointwiseAffine(y, x, a, b);
    }
    ScaledSquares(Deviations(x), Deviations(y), a);
    MulEqual(a * a, Sum(Squares(Deviations(x))), SumSquaredDeviations(x));
  }

  /** Two series of one length whose squared deviations sum in ratio k have variances in ratio k. */
  lemma VariancesOfScaledSquares(y: seq<real>, x: seq<real>, sample: bool, k: real)
    requires |y| == |x|
    requires SumSquaredDeviations(y) == k * SumSquaredDeviations(x)
    ensures Variance(y, sample) == k * Variance(x, sample)
  {
    if |x| <= 1 {
      TimesZero(k, Variance(x, sample));
    } else {
        ScaleCancel(Variance(y, sample), Variance(x, sample),
        VarianceDivisor(|y|, sample), VarianceDivisor(|x|, sample),
        SumSquaredDeviations(y), SumSquaredDeviations(x), k);
    }
  }

  /** Scaling by a > 0 multiplies the standard deviation by a; shifting leaves it alone. */
  lemma StandardDeviationOfAffine(x: seq<real>, a: real, b: real, sample: bool, sqrt: real -> real)
    requires IsSqrt(sqrt) && a > 0.0
    ensures StandardDeviation(AffineImage(x, a, b), sample, sqrt) == a * StandardDeviation(x, sample, sqrt)
  {
    VarianceOfAffine(x, a, b, sample);
    RootsOfScaledVariances(AffineImage(x, a, b), x, sample, sqrt, a);
  }

  /** If one variance is a^2 times another (a > 0), its standard deviation is a times the other's. */
  lemma RootsOfScaledVariances(y: seq<real>, x: seq<real>, sample: bool, sqrt: real -> real, a: real)
    requires IsSqrt(sqrt) && a > 0.0
    requires Variance(y, sample) == (a * a) * Variance(x, sample)
    ensures StandardDeviation(y, sample, sqrt) == a * StandardDeviation(x, sample, sqrt)
  {
    ScaledRoot(StandardDeviation(y, sample, sqrt), StandardDeviation(x, sample, sqrt),
      Variance(y, sample), Variance(x, sample), a);
  }

  /** Shifting leaves the covariance alone and scaling one series by a multiplies it by a. */
  lemma CovarianceOfAffine(x: seq<real>, y: seq<real>, a: real, b: real)
    requires |x| == |y| >= 2
    ensures Covariance(AffineImage(x, a, b), y) == a * Covariance(x, y)
  {
    CovarianceOfPointwiseAffine(AffineImage(x, a, b), x, y, a, b);
  }

  /** The covariance with y of a series x' with x'[i] == b + a x[i] is a times that of x. */
  lemma CovarianceOfPointwiseAffine(x': seq<real>, x: seq<real>, y: seq<real>, a: real, b: real)
    requires |x'| == |x| == |y| >= 2 && forall i :: 0 <= i < |x| ==> x'[i] == b + a * x[i]
    ensures Covariance(x', y) == a * Covariance(x, y)
  {
    assert SumCrossDeviations(x', y) == a * SumCrossDeviations(x, y) by {
      DeviationsOfPointwiseAffine(x', x, a, b);
      ScaledCross(Deviations(x), Deviations(x'), Deviations(y), a);
      MulEqual(a, Sum(Products(Deviations(x), Deviations(y))), SumCrossDeviations(x, y));
    }
    CovariancesOfScaledCross(x', x, y, a);
  }

  /** If the cross deviations of x' with y sum to k times those of x with y, so do the covariances. */
  lemma CovariancesOfScaledCross(x': seq<real>, x: seq<real>, y: seq<real>, k: real)
    requires |x'| == |x| == |y| >= 2
    requires SumCrossDeviations(x', y) == k * SumCrossDeviations(x, y)
    ensures Covariance(x', y) == k * Covariance(x, y)
  {
    ScaleCancel(Covariance(x', y), Covariance(x, y), (|x'| - 1) as real, (|x| - 1) as real,
      SumCrossDeviations(x', y), SumCrossDeviations(x, y), k);
  }

  /** Correlation does not depend on the order of the two series. */
  lemma CorrelationSymmetric(x: seq<real>, y: seq<real>, sqrt: real -> real)
    requires IsSqrt(sqrt)
    ensures Correlation(x, y, sqrt) == Correlation(y, x, sqrt)
  {
    var sx, sy := StandardDeviation(x, true, sqrt), StandardDeviation(y, true, sqrt);
    if |x| == |y| && sx != 0.0 && sy != 0.0 {
      CovarianceSymmetric(x, y);
      assert sx * sy == sy * sx;
    }
  }

  /** Correlation is unchanged when the first series is scaled by a > 0 and shifted by any b. */
  lemma CorrelationOfAffine(x: seq<real>, y: seq<real>, a: real, b: real, sqrt: real -> real)
    requires IsSqrt(sqrt) && a > 0.0
    ensures Correlation(AffineImage(x, a, b), y, sqrt) == Correlation(x, y, sqrt)
  {
    var x' := AffineImage(x, a, b);
    if |x| == |y| && |x| >= 2 {
      StandardDeviationOfAffine(x, a, b, true, sqrt);
      CovarianceOfAffine(x, y, a, b);
      ScaledCorrelations(x', x, y, a, sqrt);
    } else {
      ShortCorrelation(x', y, sqrt);
      ShortCorrelation(x, y, sqrt);
    }
  }

  /** If x' has a (> 0) times the standard deviation of x and a times its covariance with y,
      the two correlations with y agree. */
  lemma ScaledCorrelations(x': seq<real>, x: seq<real>, y: seq<real>, a: real, sqrt: real -> real)
    requires IsSqrt(sqrt) && a > 0.0 && |x'| == |x| == |y| >= 2
    requires StandardDeviation(x', true, sqrt) == a * StandardDeviation(x, true, sqrt)
    requires Covariance(x', y) == a * Covariance(x, y)
    ensures Correlation(x', y, sqrt) == Correlation(x, y, sqrt)
  {
    CorrelationAsRatio(x', y, sqrt);
    CorrelationAsRatio(x, y, sqrt);
    RatioOrZeroScaled(Covariance(x, y), StandardDeviation(x, true, sqrt), StandardDeviation(y, true, sqrt), a);
  }

  /** For series of one length (at least two), the correlation is the covariance over the product of the
      standard deviations, or 0 when either is 0. */
  lemma CorrelationAsRatio(x: seq<real>, y: seq<real>, sqrt: real -> real)
    requires IsSqrt(sqrt) && |x| == |y| >= 2
    ensures Correlation(x, y, sqrt)
      == RatioOrZero(Covariance(x, y), StandardDeviation(x, true, sqrt), StandardDeviation(y, true, sqrt))
  {
  }

  /** Series of different lengths, or of fewer than two values, have correlation 0. */
  lemma ShortCorrelation(x: seq<real>, y: seq<real>, sqrt: real -> real)
    requires IsSqrt(sqrt)
    ensures |x| != |y| || |x| < 2 ==> Correlation(x, y, sqrt) == 0.0
  {
  }

  /** Correlation is unchanged when either series is scaled by a > 0 and shifted by any b. */
  lemma CorrelationOfAffineSecond(x: seq<real>, y: seq<real>, a: real, b: real, sqrt: real -> real)
    requires IsSqrt(sqrt) && a > 0.0
    ensures Correlation(x, AffineImage(y, a, b), sqrt) == Correlation(x, y, sqrt)
  {
    CorrelationSymmetric(x, AffineImage(y, a, b), sqrt);
    CorrelationOfAffine(y, x, a, b, sqrt);
    CorrelationSymmetric(y, x, sqrt);
  }

  /** `Math.abs`. */
  function Abs(x: real): (a: real)
    ensures a >= 0.0 && (a == x || a == -x)
  {
    if x < 0.0 then -x else x
  }

  /** Equal numbers are at distance zero. */
  lemma AbsOfEqual(x: real, y: real)
    requires x == y
    ensures Abs(x - y) == 0.0
  {
  }

  // ---------------------------------------------------------------------------
  // Combinatorics
  // ---------------------------------------------------------------------------

  /** n!, the mathematical factorial. */
  function Fact(n: nat): (f: nat)
    ensures f >= 1
  {
    if n == 0 then 1 else n * Fact(n - 1)
  }

  /** `factorial`: 0 for negative input (the library's convention), otherwise n!, by a loop over 2..n. */
  method Factorial(n: int) returns (result: int)
    ensures n < 0 ==> result == 0
    ensures n >= 0 ==> result == Fact(n)
  {
    if n < 0 {
      return 0;
    }
    if n == 0 || n == 1 {
      return 1;
    }
    result := 1;
    var i := 2;
    while i <= n
      invariant 2 <= i <= n + 1
      invariant result == Fact(i - 1)
    {
      result := result * i;
      i := i + 1;
    }
  }

  /** The binomial coefficient, by Pascal's rule. */
  function Choose(n: nat, k: nat): nat
  {
    if k == 0 then 1 else if n == 0 then 0 else Choose(n - 1, k - 1) + Choose(n - 1, k)
  }

  /** More chosen than available: no way. */
  lemma {:induction false} ChooseAbove(n: nat, k: nat)
    requires k > n
    ensures Choose(n, k) == 0
  {
    if n > 0 {
      ChooseAbove(n - 1, k - 1);
      ChooseAbove(n - 1, k);
    }
  }

  /** Choosing everything: one way. */
  lemma {:induction false} ChooseAll(n: nat)
    ensures Choose(n, n) == 1
  {
    if n > 0 {
      ChooseAll(n - 1);
      ChooseAbove(n - 1, n);
    }
  }

  /** C(n, k) * k! * (n - k)! == n!, for k <= n. */
  lemma {:induction false} ChooseFactorials(n: nat, k: nat)
    requires k <= n
    ensures Choose(n, k) * Fact(k) * Fact(n - k) == Fact(n)
  {
    if k == 0 {
    } else if k == n {
      ChooseAll(n);
    } else {
      ChooseFactorials(n - 1, k - 1);
      ChooseFactorials(n - 1, k);
      var a, b := Choose(n - 1, k - 1), Choose(n - 1, k);
      var x, y, f := Fact(k - 1), Fact(n - 1 - k), Fact(n - 1);
      var j := n - k;
      assert Fact(k) == k * x;
      assert Fact(j) == j * y;
      assert a * x * Fact(j) == f;
      assert a * x * (j * y) == f;
      assert b * Fact(k) * y == f;
      assert b * (k * x) * y == f;
      PascalProducts(a, b, x, y, k, j, f);
      assert Choose(n, k) == a + b;
      assert Fact(n) == n * f;
    }
  }

  /** C(n, k) == C(n, n - k). */
  lemma ChooseSymmetric(n: nat, k: nat)
    requires k <= n
    ensures Choose(n, k) == Choose(n, n - k)
  {
    ChooseFactorials(n, k);
    ChooseFactorials(n, n - k);
    assert n - (n - k) == k;
    SwapCancel(Choose(n, k), Choose(n, n - k), Fact(k), Fact(n - k), Fact(n));
  }

  /** One step of the multiplicative formula: C(n, i+1) * (i+1) == C(n, i) * (n - i). */
  lemma ChooseStep(n: nat, i: nat)
    requires i < n
    ensures Choose(n, i + 1) * (i + 1) == Choose(n, i) * (n - i)
  {
    ChooseFactorials(n, i);
    ChooseFactorials(n, i + 1);
    var c0, c1 := Choose(n, i), Choose(n, i + 1);
    var fi, fr, f := Fact(i), Fact(n - i - 1), Fact(n);
    assert Fact(i + 1) == (i + 1) * fi;
    assert Fact(n - i) == (n - i) * fr;
    assert c0 * fi * ((n - i) * fr) == f;
    assert c1 * ((i + 1) * fi) * fr == f;
    StepProducts(c0, c1, i + 1, n - i, fi, fr, f);
  }

  /** `Math.round`: the nearest integer, ties going toward +infinity (`Math.round(-2.5) == -2`). */
  function MathRound(x: real): (k: int)
    ensures x - 0.5 < k as real <= x + 0.5
  {
    (x + 0.5).Floor
  }

  /** A whole number is its own `Math.round`. */
  lemma MathRoundWhole(k: int)
    ensures MathRound(k as real) == k
  {
  }

  /** `combination`: 0 outside 0 <= r <= n, otherwise C(n, r) = n! / (r! (n-r)!). The loop runs
      the multiplicative formula over min(r, n - r) steps; every step stays on C(n, i+1), so the
      final `Math.round` does not change the value. */
  method Combination(n: int, r: int) returns (c: int)
    ensures r < 0 || r > n ==> c == 0
    ensures 0 <= r <= n ==> c == Choose(n, r)
  {
    if r < 0 || r > n {
      return 0;
    }
    if r == 0 || r == n {
      ChooseAll(n);
      return 1;
    }
    var k := r;
    if k > n - k {
      k := n - k;
    }
    ChooseSymmetric(n, r);
    var result := MultiplicativeChoose(n, k);
    MathRoundWhole(Choose(n, k));
    c := MathRound(result);
  }

  /** The loop of `combination`: result * (n - i) / (i + 1) for i from 0 below k, which is C(n, k). */
  method MultiplicativeChoose(n: int, k: int) returns (result: real)
    requires 0 <= k <= n
    ensures result == Choose(n, k) as real
  {
    result := 1.0;
    for i := 0 to k
      invariant result == Choose(n, i) as real
    {
      var c0, c1, p, q := Choose(n, i), Choose(n, i + 1), i + 1, n - i;
      ChooseStep(n, i);
      DivStep(result, c0, c1, p, q);
      result := result * q as real / p as real;
    }
  }

  /** The falling factorial n (n-1) ... (n-k+1). */
  function Falling(n: int, k: nat): int
  {
    if k == 0 then 1 else Falling(n, k - 1) * (n - k + 1)
  }

  /** P(n, k) * (n - k)! == n!. */
  lemma {:induction false} FallingFactorials(n: nat, k: nat)
    requires k <= n
    ensures Falling(n, k) * Fact(n - k) == Fact(n)
  {
    if k > 0 {
      FallingFactorials(n, k - 1);
      var m := n - k + 1;
      assert Fact(m) == m * Fact(n - k);
      Regroup(Falling(n, k - 1), m, Fact(n - k), Fact(m));
    }
  }

  /** P(n, k) == C(n, k) * k!. */
  lemma FallingChoose(n: nat, k: nat)
    requires k <= n
    ensures Falling(n, k) == Choose(n, k) * Fact(k)
  {
    FallingFactorials(n, k);
    ChooseFactorials(n, k);
    Cancel(Falling(n, k), Choose(n, k) * Fact(k), Fact(n - k));
  }

  /** `permutation`: 0 outside 0 <= r <= n, otherwise n (n-1) ... (n-r+1) = n! / (n-r)! = C(n,r) r!. */
  method Permutation(n: int, r: int) returns (p: int)
    ensures r < 0 || r > n ==> p == 0
    ensures 0 <= r <= n ==> p * Fact(n - r) == Fact(n)
    ensures 0 <= r <= n ==> p == Choose(n, r) * Fact(r)
  {
    if r < 0 || r > n {
      return 0;
    }
    FallingFactorials(n, r);
    FallingChoose(n, r);
    if r == 0 {
      return 1;
    }
    p := 1;
    for i := 0 to r
      invariant p == Falling(n, i)
    {
      p := p * (n - i);
    }
  }

  // ---------------------------------------------------------------------------
  // Probability mass functions
  // ---------------------------------------------------------------------------

  /** `Math.pow(x, k)` for a whole exponent. */
  function Pow(x: real, k: nat): (r: real)
    ensures 0.0 <= x ==> 0.0 <= r
  {
    if k == 0 then 1.0
    else
      var r := Pow(x, k - 1);
      if 0.0 <= x then
        MulNonNegative(r, x);
        r * x
      else
        r * x
  }

  /** Powers of ten are at least one. */
  lemma {:induction false} PowTenAtLeastOne(d: nat)
    ensures Pow(10.0, d) >= 1.0
  {
    if d > 0 {
      PowTenAtLeastOne(d - 1);
    }
  }

  /** `binomialPMF`: 0 for k < 0, k > n or p outside [0, 1], otherwise C(n,k) p^k (1-p)^(n-k). */
  function BinomialPmf(k: int, n: int, p: real): (prob: real)
    ensures k < 0 || k > n || p < 0.0 || p > 1.0 ==> prob == 0.0
    ensures prob >= 0.0
  {
    if k > n || k < 0 || p < 0.0 || p > 1.0 then 0.0
    else
      var c, a, b := Choose(n, k) as real, Pow(p, k), Pow(1.0 - p, n - k);
      MulNonNegative(c, a);
      MulNonNegative(c * a, b);
      c * a * b
  }

  /** The masses `binomialPMF(k, n, p)` for k = 0, 1, ..., n, in order. */
  function BinomialMasses(n: nat, p: real): (m: seq<real>)
    ensures |m| == n + 1
    ensures forall k :: 0 <= k <= n ==> m[k] == BinomialPmf(k, n, p)
  {
    seq(n + 1, k requires 0 <= k <= n => BinomialPmf(k, n, p))
  }

  /** The term C(n, k) p^k q^(n-k) of the expansion of (p + q)^n; zero beyond k = n. */
  function BinomialTerm(n: nat, k: nat, p: real, q: real): real
  {
    if k <= n then Choose(n, k) as real * Pow(p, k) * Pow(q, n - k) else 0.0
  }

  /** The terms k = 0 .. m - 1 of the expansion of (p + q)^n, summed. */
  function TermSum(n: nat, m: nat, p: real, q: real): real
  {
    if m == 0 then 0.0 else TermSum(n, m - 1, p, q) + BinomialTerm(n, m - 1, p, q)
  }

  /** Pascal's rule on terms: term k of (p + q)^(n+1) is q times term k plus p times term k - 1
      of (p + q)^n (no term k - 1 when k is 0). */
  lemma PascalTerm(n: nat, k: nat, p: real, q: real)
    requires k <= n + 1
    ensures k == 0 ==> Weighted(BinomialTerm(n + 1, k, p, q), BinomialTerm(n, k, p, q), 0.0, p, q)
    ensures k >= 1 ==> Weighted(BinomialTerm(n + 1, k, p, q), BinomialTerm(n, k, p, q), BinomialTerm(n, k - 1, p, q), p, q)
  {
    if k == 0 {
      FirstTermProducts(Choose(n + 1, k) as real, Choose(n, k) as real, Pow(p, k), Pow(q, n + 1 - k), Pow(q, n - k), p, q);
    } else if k <= n {
      PascalTermProducts(Choose(n + 1, k) as real, Choose(n, k) as real, Choose(n, k - 1) as real,
        Pow(p, k), Pow(q, n + 1 - k), Pow(q, n - (k - 1)), Pow(p, k - 1), Pow(q, n - k), p, q);
    } else {
      ChooseAll(n + 1);
      ChooseAll(n);
      LastTermProducts(Choose(n + 1, k) as real, Choose(n, k - 1) as real, Pow(p, k), Pow(q, n + 1 - k), Pow(p, k - 1), p, q);
    }
  }

  /** Pascal's rule on partial sums: the first m terms of (p + q)^(n+1) are q times the first m
      plus p times the first m - 1 terms of (p + q)^n. */
  lemma {:induction false} PascalSum(n: nat, m: nat, p: real, q: real)
    requires 1 <= m <= n + 2
    ensures Weighted(TermSum(n + 1, m, p, q), TermSum(n, m, p, q), TermSum(n, m - 1, p, q), p, q)
  {
    PascalTerm(n, m - 1, p, q);
    if m == 1 {
      RegroupWeighted(TermSum(n + 1, m - 1, p, q), BinomialTerm(n + 1, m - 1, p, q),
        TermSum(n, m - 1, p, q), 0.0, BinomialTerm(n, m - 1, p, q), 0.0,
        TermSum(n, m, p, q), TermSum(n, m - 1, p, q), p, q);
    } else {
      PascalSum(n, m - 1, p, q);
      RegroupWeighted(TermSum(n + 1, m - 1, p, q), BinomialTerm(n + 1, m - 1, p, q),
        TermSum(n, m - 1, p, q), TermSum(n, m - 1 - 1, p, q),
        BinomialTerm(n, m - 1, p, q), BinomialTerm(n, m - 1 - 1, p, q),
        TermSum(n, m, p, q), TermSum(n, m - 1, p, q), p, q);
    }
  }

  /** The binomial theorem: the terms of the expansion of (p + q)^n sum to (p + q)^n. */
  lemma {:induction false} BinomialTheorem(n: nat, p: real, q: real)
    ensures TermSum(n, n + 1, p, q) == Pow(p + q, n)
  {
    if n > 0 {
      assert TermSum(n - 1, n - 1 + 2, p, q) == Pow(p + q, n - 1) by {
        BinomialTheorem(n - 1, p, q);
      }
      assert Weighted(TermSum(n - 1 + 1, n - 1 + 2, p, q), TermSum(n - 1, n - 1 + 2, p, q),
        TermSum(n - 1, n - 1 + 2 - 1, p, q), p, q) by {
        PascalSum(n - 1, n - 1 + 2, p, q);
      }
      WeightedEqual(TermSum(n - 1 + 1, n - 1 + 2, p, q), TermSum(n - 1, n - 1 + 2, p, q),
        TermSum(n - 1, n - 1 + 2 - 1, p, q), Pow(p + q, n - 1), p, q);
    }
  }

  /** The first m masses are the first m terms of the expansion of (p + (1 - p))^n. */
  lemma {:induction false} MassesPrefixSum(n: nat, p: real, m: nat)
    requires 0.0 <= p <= 1.0 && m <= n + 1
    ensures Sum(BinomialMasses(n, p)[..m]) == TermSum(n, m, p, 1.0 - p)
  {
    if m > 0 {
      var s := BinomialMasses(n, p);
      assert s[..m][..m - 1] == s[..m - 1];
      assert Sum(s[..m]) == Sum(s[..m - 1]) + s[m - 1];
      MassesPrefixSum(n, p, m - 1);
      MassIsTerm(n, m - 1, p);
    }
  }

  /** On its support a binomial mass is the matching term of the expansion of (p + (1 - p))^n. */
  lemma MassIsTerm(n: nat, k: nat, p: real)
    requires 0.0 <= p <= 1.0 && k <= n
    ensures BinomialPmf(k, n, p) == BinomialTerm(n, k, p, 1.0 - p)
  {
  }

  /** Every power of one is one. */
  lemma {:induction false} PowOne(k: nat)
    ensures Pow(1.0, k) == 1.0
  {
    if k > 0 {
      PowOne(k - 1);
    }
  }

  /** `binomialPMF(k, n, p)` is a distribution over k = 0 .. n: the masses sum to one for p in
      [0, 1]; outside that range every mass is 0. */
  lemma BinomialSumsToOne(n: nat, p: real)
    ensures 0.0 <= p <= 1.0 ==> Sum(BinomialMasses(n, p)) == 1.0
    ensures p < 0.0 || p > 1.0 ==> Sum(BinomialMasses(n, p)) == 0.0
  {
    var s := BinomialMasses(n, p);
    if 0.0 <= p <= 1.0 {
      assert s[..n + 1] == s;
      MassesPrefixSum(n, p, n + 1);
      BinomialTheorem(n, p, 1.0 - p);
      assert p + (1.0 - p) == 1.0;
      PowOne(n);
    } else {
      SumAffine(s, s, s, 0.0, 0.0, 0.0);
    }
  }

  /** `poissonPMF`: 0 for k < 0 or rate (lambda) < 0, otherwise rate^k e^-rate / k!.
      `exp` stands for `Math.exp`. */
  function PoissonPmf(k: int, rate: real, exp: real -> real): (prob: real)
    ensures k < 0 || rate < 0.0 ==> prob == 0.0
    ensures k >= 0 && rate >= 0.0 ==> prob * Fact(k) as real == Pow(rate, k) * exp(-rate)
  {
    if k < 0 || rate < 0.0 then 0.0
    else
      MulDiv(Pow(rate, k) * exp(-rate), Fact(k) as real);
      Pow(rate, k) * exp(-rate) / Fact(k) as real
  }

  /** With a positive `exp`, the Poisson mass is positive on its support. */
  lemma PoissonPositive(k: nat, rate: real, exp: real -> real)
    requires rate > 0.0 && exp(-rate) > 0.0
    ensures PoissonPmf(k, rate, exp) > 0.0
  {
    PowPositive(rate, k);
    MulPositive(Pow(rate, k), exp(-rate));
  }

  /** A positive number has positive powers. */
  lemma {:induction false} PowPositive(x: real, k: nat)
    requires x > 0.0
    ensures Pow(x, k) > 0.0
  {
    if k > 0 {
      PowPositive(x, k - 1);
      MulPositive(Pow(x, k - 1), x);
    }
  }

  // ---------------------------------------------------------------------------
  // Rounding
  // ---------------------------------------------------------------------------

  /** r is a whole number of 1/scale steps. */
  predicate WholeSteps(r: real, scale: real)
  {
    (r * scale).Floor as real == r * scale
  }

  /** r is the whole number of 1/scale steps within half a step of x, a tie taking the upper step. */
  predicate RoundsTo(x: real, scale: real, r: real)
  {
    x * scale - 0.5 < r * scale <= x * scale + 0.5 && WholeSteps(r, scale)
  }

  /** `Math.round(x * scale) / scale` is such a step multiple. */
  lemma RoundsToMathRound(x: real, scale: real)
    requires scale > 0.0
    ensures RoundsTo(x, scale, MathRound(x * scale) as real / scale)
  {
    var k := MathRound(x * scale);
    MulDiv(k as real, scale);
  }

  /** There is only one such step multiple. */
  lemma RoundsToUnique(x: real, scale: real, r1: real, r2: real)
    requires scale > 0.0 && RoundsTo(x, scale, r1) && RoundsTo(x, scale, r2)
    ensures r1 == r2
  {
    var a, b := r1 * scale, r2 * scale;
    assert a.Floor == b.Floor;
    MulDiv(r1, scale);
    MulDiv(r2, scale);
  }

  /** `round(num, decimals)`: `Math.round(num * 10^decimals) / 10^decimals`, the multiple of
      10^-decimals nearest to `num`, ties rounding up. */
  function Round(num: real, decimals: nat): (r: real)
    ensures RoundsTo(num, Pow(10.0, decimals), r)
  {
    PowTenAtLeastOne(decimals);
    RoundsToMathRound(num, Pow(10.0, decimals));
    MathRound(num * Pow(10.0, decimals)) as real / Pow(10.0, decimals)
  }

  /** A number that is already a whole number of steps is left as it is. */
  lemma RoundNear(x: real, decimals: nat)
    requires WholeSteps(x, Pow(10.0, decimals))
    ensures Round(x, decimals) == x
  {
    PowTenAtLeastOne(decimals);
    assert RoundsTo(x, Pow(10.0, decimals), x);
    RoundsToUnique(x, Pow(10.0, decimals), x, Round(x, decimals));
  }

  /** Rounding a rounded number changes nothing. */
  lemma RoundIdempotent(num: real, decimals: nat)
    ensures Round(Round(num, decimals), decimals) == Round(num, decimals)
  {
    RoundNear(Round(num, decimals), decimals);
  }

  /** 10^d is a whole number. */
  lemma {:induction false} PowTenWhole(d: nat)
    ensures Pow(10.0, d).Floor as real == Pow(10.0, d)
  {
    if d > 0 {
      PowTenWhole(d - 1);
      var m := Pow(10.0, d - 1).Floor;
      assert Pow(10.0, d) == (m * 10) as real;
    }
  }

  /** An integer is a whole number of steps of any size 1/s with s whole. */
  lemma WholeTimesWhole(a: int, s: real)
    requires s.Floor as real == s
    ensures WholeSteps(a as real, s)
  {
    var m := s.Floor;
    CastMul(a, m);
    assert (a as real) * s == (a * m) as real;
  }

  /** A whole number is left as it is by rounding. */
  lemma RoundWhole(k: int, decimals: nat)
    ensures Round(k as real, decimals) == k as real
  {
    PowTenWhole(decimals);
    WholeTimesWhole(k, Pow(10.0, decimals));
    RoundNear(k as real, decimals);
  }

  /** 5! = 120 and P(8,3) = 336. */
  lemma WorkedFactorials()
    ensures Fact(5) == 120
    ensures Falling(8, 3) == 336
  {
  }

  /** The factorials C(10, 4) is made of. The arguments are named rather than literal so that the
      proof of C(10, 4) goes through n! rather than an evaluation of Pascal's rule. */
  lemma WorkedFactorialsOfTenFour()
    ensures Fact(10) == 3628800 && Fact(4) == 24 && Fact(6) == 720
  {
    assert Fact(10) == 3628800 && Fact(4) == 24 && Fact(6) == 720;
  }
  lemma WorkedChoose()
    ensures Choose(10, 4) == 210
  {
    var c, a, b, f := Choose(10, 4), Fact(4), Fact(6), Fact(10);
    ChooseFactorials(10, 4);
    WorkedFactorialsOfTenFour();
    SolveTenFour(c, a, b, f);
  }
}
