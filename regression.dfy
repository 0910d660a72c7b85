/**
 * Two-line regression of paired observations: the means, the sums of squared and cross
 * deviations (Sxx, Syy, Sxy), the correlation coefficient, the slopes bYX = Sxy / Sxx and
 * bXY = Sxy / Syy, the regression lines of Y on X and of X on Y through the means, and the two
 * property checks the calculator reports (r² = bYX bXY and slopes of one sign).
 */
module Regression {
  import opened Arith
  import opened MathUtils

  /** One observed pair. */
  datatype Point = Point(x: real, y: real)

  /** A regression line through (fromMean, toMean): predict(v) = toMean + slope (v - fromMean). */
  datatype RegressionLine = RegressionLine(fromMean: real, toMean: real, slope: real)
  {
    function Predict(v: real): real
    {
      toMean + slope * (v - fromMean)
    }
  }

  /** One row of the details table: the pair and its deviations, squares and product, rounded. */
  datatype DetailRow = DetailRow(x: real, y: real, xDev: real, yDev: real, xDevSq: real, yDevSq: real, xyDev: real)

  /** The results: the count, rounded summaries, the two property checks and the two lines. */
  datatype RegressionResult = RegressionResult(
    n: nat, xMean: real, yMean: real, sumX: real, sumY: real,
    sumXDev2: real, sumYDev2: real, sumXYDev: real, r: real, bYX: real, bXY: real,
    rSquaredCheck: bool, slopeSignCheck: bool,
    yOnX: RegressionLine, xOnY: RegressionLine, details: seq<DetailRow>)

  function XValues(data: seq<Point>): (xs: seq<real>)
    ensures |xs| == |data| && forall i :: 0 <= i < |data| ==> xs[i] == data[i].x
  {
    seq(|data|, i requires 0 <= i < |data| => data[i].x)
  }

  function YValues(data: seq<Point>): (ys: seq<real>)
    ensures |ys| == |data| && forall i :: 0 <= i < |data| ==> ys[i] == data[i].y
  {
    seq(|data|, i requires 0 <= i < |data| => data[i].y)
  }

  /** Both variables vary, so neither slope divides by zero. */
  predicate Spread(data: seq<Point>)
  {
    SumSquaredDeviations(XValues(data)) > 0.0 && SumSquaredDeviations(YValues(data)) > 0.0
  }

  /** bYX, the slope of the regression of Y on X. */
  function SlopeYOnX(data: seq<Point>): (b: real)
    requires Spread(data)
    ensures b * SumSquaredDeviations(XValues(data)) == SumCrossDeviations(XValues(data), YValues(data))
  {
    MulDiv(SumCrossDeviations(XValues(data), YValues(data)), SumSquaredDeviations(XValues(data)));
    SumCrossDeviations(XValues(data), YValues(data)) / SumSquaredDeviations(XValues(data))
  }

  /** bXY, the slope of the regression of X on Y. */
  function SlopeXOnY(data: seq<Point>): (b: real)
    requires Spread(data)
    ensures b * SumSquaredDeviations(YValues(data)) == SumCrossDeviations(XValues(data), YValues(data))
  {
    MulDiv(SumCrossDeviations(XValues(data), YValues(data)), SumSquaredDeviations(YValues(data)));
    SumCrossDeviations(XValues(data), YValues(data)) / SumSquaredDeviations(YValues(data))
  }

  /** The regression line of Y on X passes through the means. */
  function LineYOnX(data: seq<Point>): (l: RegressionLine)
    requires Spread(data)
    ensures l.Predict(Mean(XValues(data))) == Mean(YValues(data))
    ensures l.slope == SlopeYOnX(data)
  {
    RegressionLine(Mean(XValues(data)), Mean(YValues(data)), SlopeYOnX(data))
  }

  /** The regression line of X on Y passes through the means. */
  function LineXOnY(data: seq<Point>): (l: RegressionLine)
    requires Spread(data)
    ensures l.Predict(Mean(YValues(data))) == Mean(XValues(data))
    ensures l.slope == SlopeXOnY(data)
  {
    RegressionLine(Mean(YValues(data)), Mean(XValues(data)), SlopeXOnY(data))
  }

  /** The arithmetic of r² = bYX bXY: r² Sxx Syy == Sxy² and the slopes times their sums are Sxy. */
  lemma SlopesProduct(r: real, b1: real, b2: real, sxx: real, syy: real, sxy: real)
    requires sxx > 0.0 && syy > 0.0
    requires r * r * sxx * syy == sxy * sxy && b1 * sxx == sxy && b2 * syy == sxy
    ensures r * r == b1 * b2
  {
    assert (b1 * b2) * (sxx * syy) == sxy * sxy;
    assert (r * r) * (sxx * syy) == sxy * sxy;
    MulPositive(sxx, syy);
    MulDiv(r * r, sxx * syy);
    MulDiv(b1 * b2, sxx * syy);
  }

  /** The square of the correlation coefficient is the product of the two slopes. */
  lemma CorrelationSquaredIsSlopeProduct(data: seq<Point>, sqrt: real -> real)
    requires IsSqrt(sqrt) && |data| >= 2 && Spread(data)
    ensures Correlation(XValues(data), YValues(data), sqrt) * Correlation(XValues(data), YValues(data), sqrt)
      == SlopeYOnX(data) * SlopeXOnY(data)
  {
    CorrelationSquared(XValues(data), YValues(data), sqrt);
    SquaredSlopes(Correlation(XValues(data), YValues(data), sqrt), data);
  }

  /** Any r with r^2 Sxx Syy == Sxy^2 has r^2 equal to the product of the slopes. */
  lemma SquaredSlopes(r: real, data: seq<Point>)
    requires Spread(data)
    requires r * r * SumSquaredDeviations(XValues(data)) * SumSquaredDeviations(YValues(data))
      == SumCrossDeviations(XValues(data), YValues(data)) * SumCrossDeviations(XValues(data), YValues(data))
    ensures r * r == SlopeYOnX(data) * SlopeXOnY(data)
  {
    SlopesProduct(r, SlopeYOnX(data), SlopeXOnY(data), SumSquaredDeviations(XValues(data)),
      SumSquaredDeviations(YValues(data)), SumCrossDeviations(XValues(data), YValues(data)));
  }

  /** A ratio with a positive divisor has the sign of its dividend. */
  lemma SignOfRatio(a: real, b: real)
    requires b > 0.0
    ensures (a / b > 0.0 <==> a > 0.0) && (a / b < 0.0 <==> a < 0.0)
  {
    MulDiv(a, b);
    if a / b > 0.0 {
      MulPositive(a / b, b);
    } else if a / b < 0.0 {
      MulPositive(-(a / b), b);
    }
  }

  /** Both slopes have the sign of Sxy. */
  lemma SlopesShareSign(data: seq<Point>)
    requires Spread(data)
    ensures SlopeYOnX(data) > 0.0 <==> SumCrossDeviations(XValues(data), YValues(data)) > 0.0
    ensures SlopeYOnX(data) < 0.0 <==> SumCrossDeviations(XValues(data), YValues(data)) < 0.0
    ensures SlopeXOnY(data) > 0.0 <==> SumCrossDeviations(XValues(data), YValues(data)) > 0.0
    ensures SlopeXOnY(data) < 0.0 <==> SumCrossDeviations(XValues(data), YValues(data)) < 0.0
  {
    var sxy := SumCrossDeviations(XValues(data), YValues(data));
    SignOfRatio(sxy, SumSquaredDeviations(XValues(data)));
    SignOfRatio(sxy, SumSquaredDeviations(YValues(data)));
  }

  /** A details row for point p with deviations xDev and yDev: the pair itself, then the two
      deviations, their squares and their product, each rounded to two decimals. */
  predicate PointDetailOf(p: Point, xDev: real, yDev: real, row: DetailRow)
  {
    row.x == p.x && row.y == p.y &&
    RoundsTo(xDev, 100.0, row.xDev) && RoundsTo(yDev, 100.0, row.yDev) &&
    RoundsTo(xDev * xDev, 100.0, row.xDevSq) && RoundsTo(yDev * yDev, 100.0, row.yDevSq) &&
    RoundsTo(xDev * yDev, 100.0, row.xyDev)
  }

  /** One row of the details table. */
  function Detail(p: Point, xDev: real, yDev: real): (row: DetailRow)
    ensures PointDetailOf(p, xDev, yDev, row)
  {
    assert Pow(10.0, 2) == 100.0;
    DetailRow(p.x, p.y, Round(xDev, 2), Round(yDev, 2), Round(xDev * xDev, 2), Round(yDev * yDev, 2),
      Round(xDev * yDev, 2))
  }

  /** `calculateRegression`, run for two or more points: the summaries rounded to two decimals, the
      correlation, both slopes and lines, the property checks and one details row per point in
      order. Both sums of squared deviations must be non-zero, or a slope divides by zero. */
  function CalculateRegression(data: seq<Point>, sqrt: real -> real): (res: RegressionResult)
    requires IsSqrt(sqrt) && |data| >= 2 && Spread(data)
    ensures res.n == |data|
    ensures res.yOnX.Predict(Mean(XValues(data))) == Mean(YValues(data))
    ensures res.xOnY.Predict(Mean(YValues(data))) == Mean(XValues(data))
    ensures res.yOnX == LineYOnX(data) && res.xOnY == LineXOnY(data)
    ensures RoundsTo(Mean(XValues(data)), 100.0, res.xMean) && RoundsTo(Mean(YValues(data)), 100.0, res.yMean)
    ensures RoundsTo(SumSquaredDeviations(XValues(data)), 100.0, res.sumXDev2)
    ensures RoundsTo(SumSquaredDeviations(YValues(data)), 100.0, res.sumYDev2)
    ensures RoundsTo(SumCrossDeviations(XValues(data), YValues(data)), 100.0, res.sumXYDev)
    ensures RoundsTo(Correlation(XValues(data), YValues(data), sqrt), 100.0, res.r)
    ensures RoundsTo(SlopeYOnX(data), 100.0, res.bYX) && RoundsTo(SlopeXOnY(data), 100.0, res.bXY)
    ensures RoundsTo(Sum(XValues(data)), 100.0, res.sumX) && RoundsTo(Sum(YValues(data)), 100.0, res.sumY)
    ensures |res.details| == |data|
    ensures forall i :: 0 <= i < |data| ==>
      PointDetailOf(data[i], Deviations(XValues(data))[i], Deviations(YValues(data))[i], res.details[i])
  {
    var xs, ys := XValues(data), YValues(data);
    var xDev, yDev := Deviations(xs), Deviations(ys);
    var r := Correlation(xs, ys, sqrt);
    var bYX, bXY := SlopeYOnX(data), SlopeXOnY(data);
    RegressionResult(
      |data|, Round(Mean(xs), 2), Round(Mean(ys), 2), Round(Sum(xs), 2), Round(Sum(ys), 2),
      Round(SumSquaredDeviations(xs), 2), Round(SumSquaredDeviations(ys), 2),
      Round(SumCrossDeviations(xs, ys), 2), Round(r, 2), Round(bYX, 2), Round(bXY, 2),
      Abs(r * r - bYX * bXY) < 0.001,
      (bYX > 0.0 && bXY > 0.0) || (bYX < 0.0 && bXY < 0.0),
      LineYOnX(data), LineXOnY(data),
      seq(|data|, i requires 0 <= i < |data| => Detail(data[i], xDev[i], yDev[i])))
  }

  /** In exact arithmetic the r² check always passes, and the sign check passes exactly when
      Sxy is non-zero. */
  lemma PropertyChecks(data: seq<Point>, sqrt: real -> real)
    requires IsSqrt(sqrt) && |data| >= 2 && Spread(data)
    ensures CalculateRegression(data, sqrt).rSquaredCheck
    ensures CalculateRegression(data, sqrt).slopeSignCheck <==> SumCrossDeviations(XValues(data), YValues(data)) != 0.0
  {
    var xs, ys := XValues(data), YValues(data);
    var r := Correlation(xs, ys, sqrt);
    CorrelationSquaredIsSlopeProduct(data, sqrt);
    AbsOfEqual(r * r, SlopeYOnX(data) * SlopeXOnY(data));
    SlopesShareSign(data);
  }

  /** The deviations of each variable sum to zero. */
  lemma DeviationsBalance(data: seq<Point>)
    ensures Sum(Deviations(XValues(data))) == 0.0 && Sum(Deviations(YValues(data))) == 0.0
  {
    DeviationsSumToZero(XValues(data));
    DeviationsSumToZero(YValues(data));
  }

  /** The worked example: X = 2, 4, 6, 8, 10 and Y = 4, 5, 7, 8, 11. */
  function WorkedData(): seq<Point>
  {
    [Point(2.0, 4.0), Point(4.0, 5.0), Point(6.0, 7.0), Point(8.0, 8.0), Point(10.0, 11.0)]
  }

  lemma WorkedMeans()
    ensures XValues(WorkedData()) == [2.0, 4.0, 6.0, 8.0, 10.0]
    ensures YValues(WorkedData()) == [4.0, 5.0, 7.0, 8.0, 11.0]
    ensures Mean(XValues(WorkedData())) == 6.0 && Mean(YValues(WorkedData())) == 7.0
  {
    assert XValues(WorkedData()) == [2.0, 4.0, 6.0, 8.0, 10.0];
    assert YValues(WorkedData()) == [4.0, 5.0, 7.0, 8.0, 11.0];
    SumLiterals(2.0, 4.0, 6.0, 8.0, 10.0);
    SumLiterals(4.0, 5.0, 7.0, 8.0, 11.0);
  }

  lemma WorkedDeviations()
    ensures Deviations(XValues(WorkedData())) == [-4.0, -2.0, 0.0, 2.0, 4.0]
    ensures Deviations(YValues(WorkedData())) == [-3.0, -2.0, 0.0, 1.0, 4.0]
  {
    WorkedMeans();
  }

  /** Sxx = 40, Syy = 30, Sxy = 34. */
  lemma WorkedSums()
    ensures SumSquaredDeviations(XValues(WorkedData())) == 40.0
    ensures SumSquaredDeviations(YValues(WorkedData())) == 30.0
    ensures SumCrossDeviations(XValues(WorkedData()), YValues(WorkedData())) == 34.0
  {
    var dx, dy := Deviations(XValues(WorkedData())), Deviations(YValues(WorkedData()));
    WorkedDeviations();
    assert Squares(dx) == [16.0, 4.0, 0.0, 4.0, 16.0];
    assert Squares(dy) == [9.0, 4.0, 0.0, 1.0, 16.0];
    assert Products(dx, dy) == [12.0, 4.0, 0.0, 2.0, 16.0];
    SumLiterals(16.0, 4.0, 0.0, 4.0, 16.0);
    SumLiterals(9.0, 4.0, 0.0, 1.0, 16.0);
    SumLiterals(12.0, 4.0, 0.0, 2.0, 16.0);
  }

  /** bYX = 34 / 40 = 0.85, and the line of Y on X is Y = 0.85 X + 1.9. */
  lemma WorkedRegression()
    ensures Spread(WorkedData())
    ensures SlopeYOnX(WorkedData()) == 0.85
    ensures LineYOnX(WorkedData()).Predict(0.0) == 1.9
  {
    WorkedSums();
    WorkedMeans();
  }
}
