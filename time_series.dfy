/**
 * Time-series analysis of a list of observations (at least four): a trend line by
 * semi-averages or by least squares, centred moving averages with empty edges,
 * ratio-to-moving-average seasonal indices and deseasonalised values, and forecasts
 * that continue the trend and apply a seasonal index.
 */
module TimeSeries {
  import opened Wrappers
  import opened Arith
  import opened MathUtils

  /** One observation: a period label and its value. */
  datatype Observation = Observation(period: string, value: real)

  datatype TrendMethod = SemiAverages | LeastSquares

  /** The trend line Y = intercept + slope * X. */
  datatype Line = Line(intercept: real, slope: real)
  {
    function At(x: real): real
    {
      intercept + slope * x
    }
  }

  function Values(data: seq<Observation>): (v: seq<real>)
    ensures |v| == |data|
    ensures forall i :: 0 <= i < |data| ==> v[i] == data[i].value
  {
    seq(|data|, i requires 0 <= i < |data| => data[i].value)
  }

  // ---------------------------------------------------------------------------
  // Trend by semi-averages
  // ---------------------------------------------------------------------------

  /** (s * m) / 2 == s * (m / 2). */
  lemma HalfProduct(s: real, m: real)
    ensures s * m / 2.0 == s * (m / 2.0)
  {
  }

  /** The semi-average line: the two halves' means (the second half takes the middle value when
      the count is odd), a slope of their difference over half the count, and an intercept that
      puts the first mean at the first half's centre, X = (mid - 1) / 2 with X counted from 0.
      The line passes through the first mean there and through the second mean mid steps later. */
  function SemiAverageLine(values: seq<real>): (l: Line)
    requires |values| >= 2
    ensures l.At((|values| / 2 - 1) as real / 2.0) == Mean(values[..|values| / 2])
    ensures l.At((|values| / 2 - 1) as real / 2.0 + (|values| / 2) as real) == Mean(values[|values| / 2..])
  {
    var mid := |values| / 2;
    var firstMean := Mean(values[..mid]);
    var secondMean := Mean(values[mid..]);
    var slope := (secondMean - firstMean) / mid as real;
    HalfProduct(slope, (mid - 1) as real);
    MulDiv(secondMean - firstMean, mid as real);
    Distribute(slope, (mid - 1) as real / 2.0, mid as real);
    Line(firstMean - slope * (mid - 1) as real / 2.0, slope)
  }

  // ---------------------------------------------------------------------------
  // Trend by least squares
  // ---------------------------------------------------------------------------

  /** The coded periods X = 1, 2, ..., n. */
  function Xs(n: nat): (xs: seq<real>)
    ensures |xs| == n
    ensures forall i :: 0 <= i < n ==> xs[i] == (i + 1) as real
  {
    seq(n, i requires 0 <= i < n => (i + 1) as real)
  }

  /** 1 + 2 + ... + n == n (n + 1) / 2. */
  lemma {:induction false} SumXs(n: nat)
    ensures Sum(Xs(n)) * 2.0 == (n * (n + 1)) as real
  {
    if n > 0 {
      assert Xs(n)[..n - 1] == Xs(n - 1);
      SumXs(n - 1);
    }
  }

  /** The mean of 1..n is (n + 1) / 2. */
  lemma MeanXs(n: nat)
    requires n >= 1
    ensures Mean(Xs(n)) == (n + 1) as real / 2.0
  {
    SumXs(n);
    var m := Mean(Xs(n));
    CastMul(n, n + 1);
    assert m * n as real * 2.0 == (n as real) * ((n + 1) as real);
    assert (m * 2.0) * n as real == ((n + 1) as real) * n as real;
    MulDiv(m * 2.0, n as real);
    MulDiv((n + 1) as real, n as real);
  }

  /** With at least two periods, the coded periods vary: Σ(X - X̄)² > 0. */
  lemma SpreadOfXs(n: nat)
    requires n >= 2
    ensures SumSquaredDeviations(Xs(n)) > 0.0
  {
    MeanXs(n);
    var d := Deviations(Xs(n));
    assert d[0] == 1.0 - (n + 1) as real / 2.0;
    SquarePositive(d[0]);
    SumPositive(Squares(d), 0);
  }

  /** The least-squares line over X = 1..n: b = Σ(X - X̄)(Y - Ȳ) / Σ(X - X̄)², a = Ȳ - b X̄.
      It satisfies the normal equation and passes through the means. */
  function LeastSquaresLine(values: seq<real>): (l: Line)
    requires |values| >= 2
    ensures l.slope * SumSquaredDeviations(Xs(|values|)) == SumCrossDeviations(Xs(|values|), values)
    ensures l.At(Mean(Xs(|values|))) == Mean(values)
  {
    var xs := Xs(|values|);
    SpreadOfXs(|values|);
    var b := SumCrossDeviations(xs, values) / SumSquaredDeviations(xs);
    MulDiv(SumCrossDeviations(xs, values), SumSquaredDeviations(xs));
    Line(Mean(values) - b * Mean(xs), b)
  }

  /** Exactly linear data Y = c + d X have the mean c + d X̄. */
  lemma LinearMean(values: seq<real>, c: real, d: real)
    requires |values| >= 1
    requires forall i :: 0 <= i < |values| ==> values[i] == c + d * Xs(|values|)[i]
    ensures Mean(values) == c + d * Mean(Xs(|values|))
  {
    var xs := Xs(|values|);
    assert forall i :: 0 <= i < |values| ==> values[i] == d * xs[i] + 0.0 * xs[i] + c;
    SumAffine(xs, xs, values, d, 0.0, c);
    AffineMean(Mean(values), Mean(xs), Sum(values), Sum(xs), c, d, |values| as real);
  }

  /** Exactly linear data Y = c + d X have Σ(X - X̄)(Y - Ȳ) == d Σ(X - X̄)². */
  lemma LinearCross(values: seq<real>, c: real, d: real)
    requires |values| >= 1
    requires forall i :: 0 <= i < |values| ==> values[i] == c + d * Xs(|values|)[i]
    ensures SumCrossDeviations(Xs(|values|), values) == d * SumSquaredDeviations(Xs(|values|))
  {
    var xs := Xs(|values|);
    LinearMean(values, c, d);
    ScaledDeviations(xs, values, c, d);
  }

  /** Exactly linear data Y = c + d X are reproduced by the least-squares line. */
  lemma LeastSquaresReproducesLine(values: seq<real>, c: real, d: real)
    requires |values| >= 2
    requires forall i :: 0 <= i < |values| ==> values[i] == c + d * Xs(|values|)[i]
    ensures LeastSquaresLine(values) == Line(c, d)
  {
    var xs := Xs(|values|);
    var line, sxx, sxy, mx, my := LeastSquaresLine(values), SumSquaredDeviations(xs), SumCrossDeviations(xs, values), Mean(xs), Mean(values);
    LinearMean(values, c, d);
    LinearCross(values, c, d);
    SpreadOfXs(|values|);
    LineFromMoments(line, c, d, sxx, sxy, mx, my);
  }

  /** A line satisfying the normal equation of data with slope d and passing through their means,
      which lie on c + d X, is the line c + d X. */
  lemma LineFromMoments(line: Line, c: real, d: real, sxx: real, sxy: real, mx: real, my: real)
    requires sxx > 0.0 && line.slope * sxx == sxy && sxy == d * sxx
    requires line.At(mx) == my && my == c + d * mx
    ensures line == Line(c, d)
  {
    MulDiv(line.slope, sxx);
    MulDiv(d, sxx);
    MulEqual(mx, line.slope, d);
  }

  /** The practice series 120, 135, 150, 165 has the trend Y = 105 + 15 X. */
  lemma PracticeTrend()
    ensures LeastSquaresLine([120.0, 135.0, 150.0, 165.0]) == Line(105.0, 15.0)
  {
    LeastSquaresReproducesLine([120.0, 135.0, 150.0, 165.0], 105.0, 15.0);
  }

  /** An exactly linear series Y = c + d X over X = 1..n has the mean c + d (n + 1) / 2. */
  lemma ProgressionMean(values: seq<real>, c: real, d: real)
    requires |values| >= 1
    requires forall i :: 0 <= i < |values| ==> values[i] == c + d * Xs(|values|)[i]
    ensures Mean(values) == c + d * ((|values| + 1) as real / 2.0)
  {
    LinearMean(values, c, d);
    MeanXs(|values|);
    MulEqual(d, Mean(Xs(|values|)), (|values| + 1) as real / 2.0);
  }

  /** Re-basing a linear value: c + d x with x == m + x' is (c + d m) + d x'. */
  lemma Rebase(y: real, c: real, d: real, m: real, x: real, x': real)
    requires y == c + d * x && x == m + x'
    ensures y == (c + d * m) + d * x'
  {
  }

  /** A slice lo..hi of an exactly linear series Y = c + d X is a progression starting one step
      after c + d lo, so its mean is (c + d lo) + d (hi - lo + 1) / 2. */
  lemma ProgressionSlice(values: seq<real>, c: real, d: real, lo: nat, hi: nat)
    requires lo < hi <= |values|
    requires forall i :: 0 <= i < |values| ==> values[i] == c + d * Xs(|values|)[i]
    ensures Mean(values[lo..hi]) == (c + d * lo as real) + d * ((hi - lo + 1) as real / 2.0)
  {
    var w := values[lo..hi];
    forall k | 0 <= k < hi - lo
      ensures w[k] == (c + d * lo as real) + d * Xs(hi - lo)[k]
    {
      Rebase(values[lo + k], c, d, lo as real, Xs(|values|)[lo + k], Xs(hi - lo)[k]);
    }
    ProgressionMean(w, c + d * lo as real, d);
  }

  /** The arithmetic of a semi-average line through the two half-means of a linear series. */
  lemma SemiLineCore(m1: real, m2: real, c: real, d: real, midr: real, lowr: real, ce1: real, ce2: real)
    requires midr > 0.0 && lowr == midr - 1.0 && ce1 == (midr + 1.0) / 2.0 && ce2 == ce1
    requires m1 == (c + d * 0.0) + d * ce1 && m2 == (c + d * midr) + d * ce2
    ensures (m2 - m1) / midr == d
    ensures m1 - (m2 - m1) / midr * lowr / 2.0 == c + d
  {
    assert m2 - m1 == d * midr;
    MulDiv(d, midr);
  }

  /** For an even number of observations, the semi-average line reproduces an exactly linear
      series: with X counted from 0 it is Y = (c + d) + d X. */
  lemma SemiAveragesReproduceLine(values: seq<real>, c: real, d: real)
    requires |values| >= 2 && |values| % 2 == 0
    requires forall i :: 0 <= i < |values| ==> values[i] == c + d * Xs(|values|)[i]
    ensures SemiAverageLine(values) == Line(c + d, d)
  {
    var n, mid := |values|, |values| / 2;
    ProgressionSlice(values, c, d, 0, mid);
    ProgressionSlice(values, c, d, mid, n);
    assert values[0..mid] == values[..mid];
    assert values[mid..n] == values[mid..];
    SemiLineCore(Mean(values[..mid]), Mean(values[mid..]), c, d, mid as real, (mid - 1) as real,
      (mid - 0 + 1) as real / 2.0, (n - mid + 1) as real / 2.0);
  }

  /** With an odd number of observations the middle one joins the second half, whose centre is then
      half a period further out than the divisor mid assumes: the series 1, 2, 3, 4, 5 lies on
      Y = X, yet its semi-average slope is 1.25, not 1. */
  lemma SemiAveragesOddCount()
    ensures LeastSquaresLine([1.0, 2.0, 3.0, 4.0, 5.0]) == Line(0.0, 1.0)
    ensures SemiAverageLine([1.0, 2.0, 3.0, 4.0, 5.0]).slope == 1.25
  {
    var values := [1.0, 2.0, 3.0, 4.0, 5.0];
    LeastSquaresReproducesLine(values, 0.0, 1.0);
    assert values[..2] == [1.0, 2.0];
    assert values[2..] == [3.0, 4.0, 5.0];
    SumLiterals(1.0, 2.0, 3.0, 4.0, 5.0);
    SumLiterals(3.0, 4.0, 5.0, 0.0, 0.0);
    assert Sum([3.0, 4.0, 5.0]) == 12.0 by {
      assert [3.0, 4.0, 5.0][..2] == [3.0, 4.0];
    }
  }

  // ---------------------------------------------------------------------------
  // Trend values
  // ---------------------------------------------------------------------------

  /** The trend line of the chosen method. */
  function TrendLine(kind: TrendMethod, values: seq<real>): Line
    requires |values| >= 2
  {
    match kind
    case SemiAverages => SemiAverageLine(values)
    case LeastSquares => LeastSquaresLine(values)
  }

  /** The abscissa of period p (counted from 1): the semi-average line counts X from 0,
      the least-squares line from 1. */
  function Position(kind: TrendMethod, period: int): real
  {
    match kind
    case SemiAverages => (period - 1) as real
    case LeastSquares => period as real
  }

  /** The values of a trend line at periods 1 .. n. */
  function ValuesOnLine(kind: TrendMethod, line: Line, n: nat): (t: seq<real>)
    ensures |t| == n
  {
    seq(n, i requires 0 <= i < n => line.At(Position(kind, i + 1)))
  }

  /** The trend value of every observed period. */
  function TrendValues(kind: TrendMethod, values: seq<real>): (t: seq<real>)
    requires |values| >= 2
    ensures |t| == |values|
  {
    ValuesOnLine(kind, TrendLine(kind, values), |values|)
  }

  /** The trend line of an exactly linear series Y = c + d X (with X counted from 1): the
      least-squares line is the series' own line; for an even number of observations so is the
      semi-average line, written with X counted from 0. */
  lemma LinearTrendLine(kind: TrendMethod, values: seq<real>, c: real, d: real)
    requires |values| >= 2 && (kind == LeastSquares || |values| % 2 == 0)
    requires forall i :: 0 <= i < |values| ==> values[i] == c + d * Xs(|values|)[i]
    ensures TrendLine(kind, values) == if kind == LeastSquares then Line(c, d) else Line(c + d, d)
  {
    if kind == LeastSquares {
      LeastSquaresReproducesLine(values, c, d);
    } else {
      SemiAveragesReproduceLine(values, c, d);
    }
  }

  /** Both methods give back an exactly linear series as its own trend (the semi-average method
      when the number of observations is even). */
  lemma TrendReproducesLinear(kind: TrendMethod, values: seq<real>, c: real, d: real)
    requires |values| >= 2 && (kind == LeastSquares || |values| % 2 == 0)
    requires forall i :: 0 <= i < |values| ==> values[i] == c + d * Xs(|values|)[i]
    ensures TrendValues(kind, values) == values
  {
    LinearTrendLine(kind, values, c, d);
    LineValues(kind, TrendLine(kind, values), c, d, values);
  }

  /** A series on the line c + d X has, read off that line, its own values. */
  lemma LineValues(kind: TrendMethod, line: Line, c: real, d: real, values: seq<real>)
    requires line == if kind == LeastSquares then Line(c, d) else Line(c + d, d)
    requires forall i :: 0 <= i < |values| ==> values[i] == c + d * Xs(|values|)[i]
    ensures ValuesOnLine(kind, line, |values|) == values
  {
    var t := ValuesOnLine(kind, line, |values|);
    forall i | 0 <= i < |values|
      ensures t[i] == values[i]
    {
      MulEqual(d, Xs(|values|)[i], (i + 1) as real);
      LinearAt(kind, line, c, d, i + 1, values[i]);
    }
  }

  /** The series' own line, read at a period's abscissa, gives the value on that line. */
  lemma LinearAt(kind: TrendMethod, line: Line, c: real, d: real, p: int, y: real)
    requires line == if kind == LeastSquares then Line(c, d) else Line(c + d, d)
    requires y == c + d * (p as real)
    ensures line.At(Position(kind, p)) == y
  {
    if kind == SemiAverages {
      Rebase(y, c, d, 1.0, p as real, (p - 1) as real);
    }
  }

  // ---------------------------------------------------------------------------
  // Moving averages
  // ---------------------------------------------------------------------------

  /** The moving-average window sizes on offer. */
  datatype Window = Three | Five | Seven
  {
    function Size(): nat
    {
      match this
      case Three => 3
      case Five => 5
      case Seven => 7
    }
  }

  /** The centred moving average at observation i: none within half a window of either end,
      otherwise the mean of the window of `window` values starting half a window before i.
      The window always lies inside the series. */
  function MovingAverageAt(values: seq<real>, window: nat, i: nat): (r: Option<real>)
    requires i < |values|
    ensures r.Some? <==> window / 2 <= i < |values| - window / 2
    ensures r.Some? ==> i - window / 2 + window <= |values|
    ensures r.Some? ==> r.value * window as real == Sum(values[i - window / 2 .. i - window / 2 + window])
  {
    var half := window / 2;
    if i < half || i >= |values| - half then None
    else Some(Mean(values[i - half .. i - half + window]))
  }

  /** The moving averages of all observations, in order. */
  method MovingAverages(values: seq<real>, window: nat) returns (ma: seq<Option<real>>)
    ensures |ma| == |values|
    ensures forall i :: 0 <= i < |values| ==> ma[i] == MovingAverageAt(values, window, i)
  {
    ma := [];
    var half := window / 2;
    for i := 0 to |values|
      invariant |ma| == i
      invariant forall j :: 0 <= j < i ==> ma[j] == MovingAverageAt(values, window, j)
    {
      if i < half || i >= |values| - half {
        ma := ma + [None];
      } else {
        var start := i - half;
        var end := start + window;
        ma := ma + [Some(Mean(values[start..end]))];
      }
    }
  }

  /** The mean of a non-empty constant series is that constant. */
  lemma MeanOfConstant(values: seq<real>, c: real)
    requires |values| >= 1
    requires forall i :: 0 <= i < |values| ==> values[i] == c
    ensures Mean(values) == c
  {
    assert forall i :: 0 <= i < |values| ==> values[i] == 0.0 * values[i] + 0.0 * values[i] + c;
    SumAffine(values, values, values, 0.0, 0.0, c);
    MulDiv(Mean(values), |values| as real);
    MulDiv(c, |values| as real);
  }

  /** A constant series is its own moving average wherever one exists. */
  lemma MovingAverageOfConstant(values: seq<real>, window: nat, i: nat, c: real)
    requires window >= 1 && i < |values|
    requires forall j :: 0 <= j < |values| ==> values[j] == c
    ensures MovingAverageAt(values, window, i) == None || MovingAverageAt(values, window, i) == Some(c)
  {
    var half := window / 2;
    if !(i < half || i >= |values| - half) {
      MeanOfConstant(values[i - half .. i - half + window], c);
    }
  }

  /** A centred moving average of odd width reproduces an exactly linear series: where it exists,
      the average at i is the observation at i. */
  lemma MovingAverageOfLinear(values: seq<real>, window: nat, i: nat, c: real, d: real)
    requires window % 2 == 1 && i < |values|
    requires forall j :: 0 <= j < |values| ==> values[j] == c + d * Xs(|values|)[j]
    ensures MovingAverageAt(values, window, i) == None || MovingAverageAt(values, window, i) == Some(values[i])
  {
    var half := window / 2;
    if !(i < half || i >= |values| - half) {
      var start := i - half;
      ProgressionSlice(values, c, d, start, start + window);
      assert Xs(|values|)[i] == start as real + (start + window - start + 1) as real / 2.0;
      CentreOfWindow(values[i], c, d, start as real, (start + window - start + 1) as real / 2.0, Xs(|values|)[i]);
      assert Mean(values[start..start + window]) == values[i];
    }
  }

  /** The mean of a window starting at s with centre offset h' lies at s + h'. */
  lemma CentreOfWindow(y: real, c: real, d: real, s: real, h': real, x: real)
    requires y == c + d * x && x == s + h'
    ensures (c + d * s) + d * h' == y
  {
  }

  // ---------------------------------------------------------------------------
  // Seasonal indices and deseasonalised values
  // ---------------------------------------------------------------------------

  /** The ratio-to-moving-average arithmetic: the index times the average is 100 times the value,
      and dividing the value by the index (as a fraction) gives back the average. */
  lemma RatioToAverage(v: real, m: real)
    requires v != 0.0 && m != 0.0
    ensures ((v / m) * 100.0) * m == v * 100.0
    ensures v / (((v / m) * 100.0) / 100.0) == m
  {
    assert ((v / m) * 100.0) / 100.0 == v / m;
  }

  /** Seasonal indices and deseasonalised values agree with the moving averages: where there is a
      moving average the index is 100 times the value over the average and the deseasonalised
      value is the average itself; elsewhere the index is 100 and the value is kept. */
  predicate SeasonallyAdjusted(values: seq<real>, ma: seq<Option<real>>, indices: seq<real>, deseasonalized: seq<real>)
  {
    && |ma| == |values| && |indices| == |values| && |deseasonalized| == |values|
    && (forall i :: 0 <= i < |values| && ma[i].None? ==> indices[i] == 100.0 && deseasonalized[i] == values[i])
    && (forall i :: 0 <= i < |values| && ma[i].Some? ==> indices[i] * ma[i].value == values[i] * 100.0)
    && (forall i :: 0 <= i < |values| && ma[i].Some? ==> deseasonalized[i] == ma[i].value)
  }

  /** The ratio-to-moving-average seasonal indices and deseasonalised values. A zero average, or a
      zero value beside an average, would divide by zero. */
  method SeasonalAdjustment(values: seq<real>, ma: seq<Option<real>>) returns (indices: seq<real>, deseasonalized: seq<real>)
    requires |ma| == |values|
    requires forall i :: 0 <= i < |values| && ma[i].Some? ==> ma[i].value != 0.0 && values[i] != 0.0
    ensures SeasonallyAdjusted(values, ma, indices, deseasonalized)
  {
    indices, deseasonalized := [], [];
    for i := 0 to |values|
      invariant |indices| == i && |deseasonalized| == i
      invariant forall j :: 0 <= j < i && ma[j].None? ==> indices[j] == 100.0 && deseasonalized[j] == values[j]
      invariant forall j :: 0 <= j < i && ma[j].Some? ==> indices[j] * ma[j].value == values[j] * 100.0
      invariant forall j :: 0 <= j < i && ma[j].Some? ==> deseasonalized[j] == ma[j].value
    {
      if ma[i].Some? {
        var ratio := (values[i] / ma[i].value) * 100.0;
        RatioToAverage(values[i], ma[i].value);
        indices := indices + [ratio];
        deseasonalized := deseasonalized + [values[i] / (ratio / 100.0)];
      } else {
        indices := indices + [100.0];
        deseasonalized := deseasonalized + [values[i]];
      }
    }
  }

  /** An exactly linear series has no seasonal component: with a centred moving average of odd
      width every seasonal index is 100 and every deseasonalised value is the observation. */
  lemma LinearHasNoSeason(values: seq<real>, window: nat, ma: seq<Option<real>>, indices: seq<real>,
                          deseasonalized: seq<real>, c: real, d: real)
    requires window % 2 == 1
    requires forall j :: 0 <= j < |values| ==> values[j] == c + d * Xs(|values|)[j] && values[j] != 0.0
    requires |ma| == |values| && forall j :: 0 <= j < |values| ==> ma[j] == MovingAverageAt(values, window, j)
    requires SeasonallyAdjusted(values, ma, indices, deseasonalized)
    ensures forall j :: 0 <= j < |values| ==> indices[j] == 100.0 && deseasonalized[j] == values[j]
  {
    forall j | 0 <= j < |values|
      ensures indices[j] == 100.0 && deseasonalized[j] == values[j]
    {
      MovingAverageOfLinear(values, window, j, c, d);
      if ma[j].Some? {
        MulEqual(indices[j], ma[j].value, values[j]);
        MulDiv(indices[j], values[j]);
        MulDiv(100.0, values[j]);
      }
    }
  }

  // ---------------------------------------------------------------------------
  // Forecasts
  // ---------------------------------------------------------------------------

  /** The seasonal index applied to forecast i: the index of observation i mod 4, or 100 when that
      index is missing or zero. It is never zero. */
  function SeasonalFactor(seasonal: seq<real>, i: nat): (f: real)
    ensures f != 0.0
    ensures f == 100.0 || (i % 4 < |seasonal| && f == seasonal[i % 4])
  {
    if i % 4 < |seasonal| && seasonal[i % 4] != 0.0 then seasonal[i % 4] else 100.0
  }

  /** Forecast i (from 1) after n observations: the trend line continued to period n + i, times
      the seasonal factor as a fraction. */
  function ForecastValue(kind: TrendMethod, line: Line, n: nat, seasonal: seq<real>, i: nat): real
  {
    line.At(Position(kind, n + i)) * (SeasonalFactor(seasonal, i) / 100.0)
  }

  /** Continuing a line from its values at 0 and at span: the slope between them is the line's
      slope and the first value is its intercept. */
  lemma LineFromTwoValues(a: real, b: real, first: real, last: real, zero: real, span: real, x: real)
    requires zero == 0.0 && span > 0.0 && first == a + b * zero && last == a + b * span
    ensures first + (last - first) / span * x == a + b * x
  {
    assert last - first == b * span;
    MulDiv(b, span);
  }

  /** The semi-average forecast step, which rebuilds the line from the first and last trend
      values, continues the semi-average line. */
  lemma SemiContinuation(line: Line, trend: seq<real>, n: int, x: real)
    requires n == |trend| >= 2 && trend == ValuesOnLine(SemiAverages, line, n)
    ensures trend[0] + (trend[n - 1] - trend[0]) / (n - 1) as real * x == line.At(x)
  {
    assert trend[0] == line.At(Position(SemiAverages, 0 + 1));
    assert trend[n - 1] == line.At(Position(SemiAverages, n - 1 + 1));
    LineFromTwoValues(line.intercept, line.slope, trend[0], trend[n - 1], (0 + 1 - 1) as real, (n - 1 + 1 - 1) as real, x);
  }

  /** The trend value of a future period: the semi-average branch rebuilds the line from the first
      and last trend values, the least-squares branch refits the line; both continue the trend line. */
  method ContinueTrend(kind: TrendMethod, values: seq<real>, trend: seq<real>, futureX: int) returns (trendValue: real)
    requires |values| >= 2 && trend == TrendValues(kind, values)
    ensures trendValue == TrendLine(kind, values).At(Position(kind, futureX))
  {
    var n := |values|;
    if kind == SemiAverages {
      var x := (futureX - 1) as real;
      SemiContinuation(TrendLine(kind, values), trend, n, x);
      var slope := (trend[n - 1] - trend[0]) / (n - 1) as real;
      var intercept := trend[0];
      trendValue := intercept + slope * x;
    } else {
      var line := LeastSquaresLine(values);
      trendValue := line.intercept + line.slope * futureX as real;
      assert line == TrendLine(kind, values);
    }
  }

  /** The forecasts for periods n + 1 .. n + periods (none when periods <= 0): the continued
      trend times the seasonal factor. */
  method Forecasts(kind: TrendMethod, values: seq<real>, trend: seq<real>, seasonal: seq<real>, periods: int)
    returns (forecasts: seq<real>)
    requires |values| >= 2 && trend == TrendValues(kind, values)
    ensures |forecasts| == if periods > 0 then periods else 0
    ensures forall k :: 0 <= k < |forecasts| ==> forecasts[k] == ForecastValue(kind, TrendLine(kind, values), |values|, seasonal, k + 1)
  {
    var n := |values|;
    forecasts := [];
    var i := 1;
    while i <= periods
      invariant 1 <= i <= (if periods > 0 then periods + 1 else 1)
      invariant |forecasts| == i - 1
      invariant forall k :: 0 <= k < |forecasts| ==> forecasts[k] == ForecastValue(kind, TrendLine(kind, values), |values|, seasonal, k + 1)
    {
      var futureX := n + i;
      var trendValue := ContinueTrend(kind, values, trend, futureX);
      var factor := SeasonalFactor(seasonal, i);
      ForecastOf(kind, TrendLine(kind, values), n, seasonal, i, trendValue, factor);
      forecasts := forecasts + [trendValue * (factor / 100.0)];
      i := i + 1;
    }
  }

  /** The continued trend value times the seasonal factor is the forecast. */
  lemma ForecastOf(kind: TrendMethod, line: Line, n: nat, seasonal: seq<real>, i: nat, trendValue: real, factor: real)
    requires trendValue == line.At(Position(kind, n + i)) && factor == SeasonalFactor(seasonal, i)
    ensures trendValue * (factor / 100.0) == ForecastValue(kind, line, n, seasonal, i)
  {
    MulEqual(factor / 100.0, trendValue, line.At(Position(kind, n + i)));
  }

  /** Forecasts of an exactly linear series continue its line, scaled by the seasonal factor. */
  lemma LinearForecast(kind: TrendMethod, values: seq<real>, seasonal: seq<real>, i: nat, c: real, d: real)
    requires |values| >= 2 && (kind == LeastSquares || |values| % 2 == 0)
    requires forall j :: 0 <= j < |values| ==> values[j] == c + d * Xs(|values|)[j]
    ensures ForecastValue(kind, TrendLine(kind, values), |values|, seasonal, i)
      == (c + d * (|values| + i) as real) * (SeasonalFactor(seasonal, i) / 100.0)
  {
    var line := TrendLine(kind, values);
    assert line == if kind == LeastSquares then Line(c, d) else Line(c + d, d) by {
      LinearTrendLine(kind, values, c, d);
    }
    LineForecast(kind, line, |values|, seasonal, i, c, d);
  }

  /** Forecasts off the line c + d X are that line continued, scaled by the seasonal factor. */
  lemma LineForecast(kind: TrendMethod, line: Line, n: nat, seasonal: seq<real>, i: nat, c: real, d: real)
    requires line == if kind == LeastSquares then Line(c, d) else Line(c + d, d)
    ensures ForecastValue(kind, line, n, seasonal, i) == (c + d * (n + i) as real) * (SeasonalFactor(seasonal, i) / 100.0)
  {
    var t := c + d * (n + i) as real;
    LinearAt(kind, line, c, d, n + i, t);
    ForecastOf(kind, line, n, seasonal, i, t, SeasonalFactor(seasonal, i));
    MulEqual(SeasonalFactor(seasonal, i) / 100.0, t, c + d * (n + i) as real);
  }

  // ---------------------------------------------------------------------------
  // The whole analysis
  // ---------------------------------------------------------------------------

  /** One row of the analysis table: trend, seasonal index and deseasonalised value rounded to two
      decimals; the moving average rounded too, shown only when it exists and is non-zero. */
  datatype AnalysisRow = AnalysisRow(period: string, actual: real, trend: real, movingAverage: Option<real>,
                                     seasonalIndex: real, deseasonalized: real)

  datatype Analysis = Analysis(trendValues: seq<real>, movingAverages: seq<Option<real>>,
                               seasonalIndices: seq<real>, deseasonalized: seq<real>,
                               forecasts: seq<real>, table: seq<AnalysisRow>)

  function TableRow(item: Observation, trend: real, ma: Option<real>, index: real, deseasonalized: real): (row: AnalysisRow)
    ensures row.period == item.period && row.actual == item.value
    ensures RoundsTo(trend, 100.0, row.trend) && RoundsTo(index, 100.0, row.seasonalIndex)
    ensures RoundsTo(deseasonalized, 100.0, row.deseasonalized)
    ensures row.movingAverage.Some? <==> ma.Some? && ma.value != 0.0
    ensures row.movingAverage.Some? ==> RoundsTo(ma.value, 100.0, row.movingAverage.value)
  {
    assert Pow(10.0, 2) == 100.0;
    AnalysisRow(item.period, item.value, Round(trend, 2),
                if ma.Some? && ma.value != 0.0 then Some(Round(ma.value, 2)) else None,
                Round(index, 2), Round(deseasonalized, 2))
  }

  /** The seasonal computation at observation i divides by nothing that is zero: where there is a
      moving average, neither it nor the observation is zero. */
  predicate RatioDefined(values: seq<real>, window: nat, i: nat)
    requires i < |values|
  {
    match MovingAverageAt(values, window, i)
    case None => true
    case Some(m) => m != 0.0 && values[i] != 0.0
  }

  /** Where every observation's ratio is defined, no moving average beside it is zero. */
  lemma NoZeroRatios(values: seq<real>, window: nat, ma: seq<Option<real>>)
    requires |ma| == |values|
    requires forall i :: 0 <= i < |values| ==> ma[i] == MovingAverageAt(values, window, i)
    requires forall i :: 0 <= i < |values| ==> RatioDefined(values, window, i)
    ensures forall i :: 0 <= i < |values| && ma[i].Some? ==> ma[i].value != 0.0 && values[i] != 0.0
  {
    forall i | 0 <= i < |values| && ma[i].Some?
      ensures ma[i].value != 0.0 && values[i] != 0.0
    {
      assert RatioDefined(values, window, i);
    }
  }

  /** The analysis of at least four observations: trend values, moving averages, seasonal indices,
      deseasonalised values, forecasts and the rounded table; nothing for fewer observations. */
  method AnalyzeTimeSeries(data: seq<Observation>, kind: TrendMethod, window: Window, periods: int)
    returns (r: Option<Analysis>)
    requires forall i :: 0 <= i < |data| ==> RatioDefined(Values(data), window.Size(), i)
    ensures r.None? <==> |data| < 4
    ensures r.Some? ==> r.value.trendValues == TrendValues(kind, Values(data))
    ensures r.Some? ==> |r.value.movingAverages| == |data|
    ensures r.Some? ==> forall i :: 0 <= i < |data| ==>
      r.value.movingAverages[i] == MovingAverageAt(Values(data), window.Size(), i)
    ensures r.Some? ==> SeasonallyAdjusted(Values(data), r.value.movingAverages, r.value.seasonalIndices,
                                           r.value.deseasonalized)
    ensures r.Some? ==> |r.value.forecasts| == if periods > 0 then periods else 0
    ensures r.Some? ==> forall k :: 0 <= k < |r.value.forecasts| ==>
      r.value.forecasts[k] == ForecastValue(kind, TrendLine(kind, Values(data)), |data|, r.value.seasonalIndices, k + 1)
    ensures r.Some? ==> |r.value.table| == |data|
    ensures r.Some? ==> forall i :: 0 <= i < |data| ==>
      r.value.table[i] == TableRow(data[i], r.value.trendValues[i], r.value.movingAverages[i],
                                   r.value.seasonalIndices[i], r.value.deseasonalized[i])
  {
    if |data| < 4 {
      return None;
    }
    var values := Values(data);
    var trend := TrendValues(kind, values);
    var ma := MovingAverages(values, window.Size());
    NoZeroRatios(values, window.Size(), ma);
    var indices, deseasonalized := SeasonalAdjustment(values, ma);
    var forecasts := Forecasts(kind, values, trend, indices, periods);
    var table := seq(|data|, i requires 0 <= i < |data| =>
      TableRow(data[i], trend[i], ma[i], indices[i], deseasonalized[i]));
    r := Some(Analysis(trend, ma, indices, deseasonalized, forecasts, table));
  }
}
