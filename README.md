# Statistics learning app: verified model of the calculators

This project is a Dafny model of the computing core of a statistics teaching web application.
The modelled parts are these:

- The numeric library: mean, sum, variance, standard deviation, covariance, correlation,
  factorial, combinations, permutations, the binomial and Poisson mass functions, and rounding to
  decimals.
- The index-number calculator: simple aggregative, simple average of relatives, Laspeyres,
  Paasche, Marshall–Edgeworth and Fisher, with the time- and factor-reversal tests and the details
  table.
- The time-series analysis:
  - a trend by semi-averages or by least squares;
  - centred moving averages;
  - ratio-to-moving-average seasonal indices and deseasonalised values;
  - seasonal forecasts;
  - the rounded analysis table.
- Two-variable regression: deviations, Sxx/Syy/Sxy, the two regression lines and their property
  checks.
- The probability calculator:
  - the permutation and combination gate;
  - Bayes' theorem;
  - editing the hypothesis list.
- The binomial and Poisson distribution pages: the guarded probabilities and the chart points.
- The shared data table:
  - adding, removing and editing rows, and clearing the table;
  - the CSV text offered for download;
  - parsing of pasted CSV text.

Numbers are exact reals, not IEEE-754 doubles. Wherever the application would divide by zero and
show NaN or Infinity, the operation requires a non-zero divisor.

Three JavaScript built-ins have no exact counterpart in Dafny, so they are parameters:

- `Math.sqrt` is a parameter `sqrt` constrained by the predicate `IsSqrt`.
- `Math.exp` is an unconstrained parameter `exp`.
- `parseFloat` is a parameter `parse: string -> Option<real>`, where `None` stands for NaN.

Number-to-string conversion in the CSV export is a parameter `show`.

`Math.round` is modelled as the code uses it: ⌊x + ½⌋, so halves go toward +∞.

Code that updates state step by step is imperative Dafny, with loop invariants:

- the factorial, combination and permutation loops;
- the moving-average, seasonal and forecast loops;
- the chart-point loops;
- the data table's row operations. The table's rows are objects (`DataTable.Row`), because a cell
  edit writes into the shared row object in place.

The rest is functions and lemmas.

Modules:

- `Wrappers`: `Option`.
- `Lists`: removal by index, shared by the hypothesis list and the data table.
- `Arith`: one-step arithmetic facts.
- `MathUtils`
- `IndexNumbers`
- `TimeSeries`
- `Regression`
- `Probability`
- `Distributions`
- `Strings`: JavaScript `split`, `join` and `trim`.
- `DataTable`

Two facts about the behaviour:

- Rounding follows `Math.round`: halves go toward +∞.
- The sample data's Laspeyres index is 9980/8450 × 100 ≈ 118.11 (`IndexNumbers.SampleLaspeyres`).

## Model

| member | source | states |
|---|---|---|
| MathUtils.SumAppend | project/src/utils/math.ts:8-10 | `sum` is a left fold: appending a value adds it to the sum |
| MathUtils.Sum | project/src/utils/math.ts:8-10 | `sum`: the values added in order, starting from 0 (its properties are the lemmas below) |
| MathUtils.SumNonNegative | project/src/utils/math.ts:8-10 | a sum of non-negative values is non-negative |
| MathUtils.SumAffine | project/src/utils/math.ts:8-10 | sums are linear in pointwise affine combinations |
| MathUtils.SumBoundsTerm | project/src/utils/math.ts:8-10 | each non-negative term is at most the sum |
| MathUtils.SumPositive | project/src/utils/math.ts:8-10 | non-negative terms with one positive term have a positive sum |
| MathUtils.SumScaled | project/src/utils/math.ts:8-10 | scaling every term by k scales the sum by k |
| MathUtils.Mean | project/src/utils/math.ts:3-6 | `mean([])` is 0, and `mean(v) * |v| = sum(v)` |
| MathUtils.Deviations | project/src/utils/math.ts:15 | one deviation from the mean per value, in order |
| MathUtils.DeviationsSumToZero | project/src/utils/math.ts:3-10 | deviations from the mean sum to zero |
| MathUtils.Variance | project/src/utils/math.ts:12-18 | 0 for at most one value; otherwise ≥ 0, with variance × (n−1 if sample else n) equal to the sum of squared deviations |
| MathUtils.StandardDeviation | project/src/utils/math.ts:20-22 | a non-negative number whose square is the variance; zero exactly when the variance is zero |
| MathUtils.Covariance | project/src/utils/math.ts:24-30 | 0 on length mismatch or empty input; for n ≥ 2, covariance × (n−1) is the sum of products of deviations; length 1 is excluded (0/0) |
| MathUtils.CovarianceSymmetric | project/src/utils/math.ts:24-30 | covariance(x, y) = covariance(y, x) |
| MathUtils.CovarianceSelf | project/src/utils/math.ts:12-30 | covariance(x, x) is the sample variance of x |
| MathUtils.Correlation | project/src/utils/math.ts:32-38 | 0 when either series has zero variance or the lengths differ |
| MathUtils.CorrelationSquared | project/src/utils/math.ts:32-38 | r² · Sxx · Syy = Sxy²: the n−1 divisors cancel |
| MathUtils.SumSquaredDeviations | project/src/utils/math.ts:15-17 | the sum of squared deviations is never negative |
| MathUtils.ScaledProducts | src/modules/TimeSeries.tsx:89-93 | deviations scaled by d give Sxy = d · Sxx |
| MathUtils.ScaledDeviations | src/modules/TimeSeries.tsx:87-93 | for y = c + dx, Sxy = d · Sxx |
| MathUtils.MeanOfAffine | project/src/utils/math.ts:3-6 | mean(b + a·x) = b + a · mean(x) |
| MathUtils.DeviationsOfPointwiseAffine | project/src/utils/math.ts:3-6 | the deviations of b + a·x are a times the deviations of x |
| MathUtils.VarianceOfAffine | project/src/utils/math.ts:12-18 | var(b + a·x) = a² · var(x), in both the sample and the population form |
| MathUtils.StandardDeviationOfAffine | project/src/utils/math.ts:20-22 | for a > 0, sd(b + a·x) = a · sd(x) |
| MathUtils.CovarianceOfAffine | project/src/utils/math.ts:24-30 | for series of one length n ≥ 2, cov(b + a·x, y) = a · cov(x, y) |
| MathUtils.CorrelationSymmetric | project/src/utils/math.ts:32-38 | correlation(x, y) = correlation(y, x) |
| MathUtils.CorrelationOfAffine | project/src/utils/math.ts:32-38 | for a > 0 and any b, correlation(b + a·x, y) = correlation(x, y), including the zero cases |
| MathUtils.CorrelationOfAffineSecond | project/src/utils/math.ts:32-38 | for a > 0 and any b, correlation(x, b + a·y) = correlation(x, y) |
| MathUtils.Factorial | project/src/utils/math.ts:40-49 | the loop returns 0 for negative n and n! otherwise |
| MathUtils.ChooseAbove | project/src/utils/math.ts:51-53 | C(n, k) = 0 for k > n |
| MathUtils.ChooseAll | project/src/utils/math.ts:51-53 | C(n, n) = 1 |
| MathUtils.ChooseFactorials | project/src/utils/math.ts:51-63 | C(n, k) · k! · (n−k)! = n! |
| MathUtils.ChooseSymmetric | project/src/utils/math.ts:55-56 | C(n, k) = C(n, n−k), the swap the loop relies on |
| MathUtils.ChooseStep | project/src/utils/math.ts:58-61 | C(n, i+1)(i+1) = C(n, i)(n−i): each loop step keeps the running value a binomial coefficient |
| MathUtils.MultiplicativeChoose | project/src/utils/math.ts:58-61 | the loop `result * (n − i) / (i + 1)` for i below k ends with exactly C(n, k); its invariant is that the running value is C(n, i) |
| MathUtils.MathRound | project/src/utils/math.ts:62 | `Math.round` lands within ½ of x, with ties going up |
| MathUtils.MathRoundWhole | project/src/utils/math.ts:62 | rounding a whole number returns it, so the final `Math.round` is the identity |
| MathUtils.Combination | project/src/utils/math.ts:51-63 | 0 outside 0 ≤ r ≤ n; otherwise C(n, r) |
| MathUtils.FallingFactorials | project/src/utils/math.ts:65-74 | n(n−1)…(n−k+1) · (n−k)! = n! |
| MathUtils.FallingChoose | project/src/utils/math.ts:65-74 | P(n, k) = C(n, k) · k! |
| MathUtils.Permutation | project/src/utils/math.ts:65-74 | 0 outside 0 ≤ r ≤ n; otherwise P · (n−r)! = n! and P = C(n, r) · r! |
| MathUtils.Pow | project/src/utils/math.ts:108 | a power of a non-negative base is non-negative |
| MathUtils.PowTenAtLeastOne | project/src/utils/math.ts:118-120 | 10^d ≥ 1 |
| MathUtils.BinomialPmf | project/src/utils/math.ts:105-109 | 0 outside 0 ≤ k ≤ n or 0 ≤ p ≤ 1; never negative |
| MathUtils.BinomialMasses | project/src/utils/math.ts:106-109 | the masses `binomialPMF(k, n, p)` for k = 0..n, in order |
| MathUtils.BinomialTheorem | project/src/utils/math.ts:106-109 | the terms C(n, k) p^k q^(n−k), k = 0..n, sum to (p + q)^n |
| MathUtils.BinomialSumsToOne | project/src/utils/math.ts:106-109 | for 0 ≤ p ≤ 1 the masses `binomialPMF(k, n, p)`, k = 0..n, sum to 1; for p outside [0, 1] they are all 0 |
| MathUtils.PoissonPmf | project/src/utils/math.ts:111-115 | 0 for k < 0 or λ < 0; otherwise prob · k! = λ^k · exp(−λ) |
| MathUtils.PoissonPositive | project/src/utils/math.ts:111-115 | positive when λ > 0 and exp(−λ) > 0 |
| MathUtils.PowPositive | project/src/utils/math.ts:108 | a power of a positive base is positive |
| MathUtils.RoundsToMathRound | project/src/utils/math.ts:118-120 | ⌊x·s + ½⌋/s is a rounding of x to steps of 1/s |
| MathUtils.RoundsToUnique | project/src/utils/math.ts:118-120 | the rounding of x to steps of 1/s is unique |
| MathUtils.Round | project/src/utils/math.ts:118-120 | `round(x, d)` is a whole number of 10^−d steps, within half a step of x, ties going up |
| MathUtils.RoundNear | project/src/utils/math.ts:118-120 | a value already on the 10^−d grid rounds to itself |
| MathUtils.RoundIdempotent | project/src/utils/math.ts:118-120 | rounding twice is rounding once |
| MathUtils.PowTenWhole | project/src/utils/math.ts:118-120 | 10^d is a whole number |
| MathUtils.WholeTimesWhole | project/src/utils/math.ts:118-120 | a whole number times a whole scale lies on the grid |
| MathUtils.RoundWhole | project/src/utils/math.ts:118-120 | whole numbers round to themselves |
| MathUtils.WorkedFactorials | project/src/modules/Probability.tsx:299 | 5! = 120 (and P(8, 3) = 336) |
| MathUtils.WorkedFactorialsOfTenFour | project/src/modules/Probability.tsx:392 | 10! = 3628800, 4! = 24, 6! = 720 |
| MathUtils.WorkedChoose | project/src/modules/Probability.tsx:392 | C(10, 4) = 210 |
| IndexNumbers.ItemColumn | project/src/modules/IndexNumbers.tsx:42-45 | the per-item product column holds each item's product, in order |
| IndexNumbers.PriceRelatives | project/src/modules/IndexNumbers.tsx:46 | relative · p0 = p1 · 100 for every item |
| IndexNumbers.AggregatesOf | project/src/modules/IndexNumbers.tsx:42-51 | the four totals ΣP0Q0, ΣP1Q0, ΣP0Q1, ΣP1Q1 of the per-item products |
| IndexNumbers.SimpleAggregativeIndex | project/src/modules/IndexNumbers.tsx:60-61 | I · ΣP0 = ΣP1 · 100 |
| IndexNumbers.SimpleAverageIndex | project/src/modules/IndexNumbers.tsx:66-67 | I · n = the sum of the price relatives |
| IndexNumbers.LaspeyresIndex | project/src/modules/IndexNumbers.tsx:72-76 | L · ΣP0Q0 = ΣP1Q0 · 100 |
| IndexNumbers.PaascheIndex | project/src/modules/IndexNumbers.tsx:78-82 | P · ΣP0Q1 = ΣP1Q1 · 100 |
| IndexNumbers.MarshallEdgeworthIndex | project/src/modules/IndexNumbers.tsx:84-87 | I · ΣP0(Q0+Q1) = ΣP1(Q0+Q1) · 100 |
| IndexNumbers.IndexValue | project/src/modules/IndexNumbers.tsx:59-98 | the index of the chosen method; each case is one of the functions above, Fisher the geometric mean |
| IndexNumbers.ValueIndex | project/src/modules/IndexNumbers.tsx:115 | V · ΣP0Q0 = ΣP1Q1 · 100 |
| IndexNumbers.FisherIndex | project/src/modules/IndexNumbers.tsx:92-98 | F ≥ 0 and F² = Laspeyres · Paasche |
| IndexNumbers.FisherReversed | project/src/modules/IndexNumbers.tsx:107 | the reversed Fisher index is non-negative |
| IndexNumbers.FisherQuantity | project/src/modules/IndexNumbers.tsx:114 | the Fisher quantity index is non-negative |
| IndexNumbers.PositiveDefined | project/src/modules/IndexNumbers.tsx:92-115 | positive aggregates make every Fisher quantity defined |
| IndexNumbers.TimeRatios | project/src/modules/IndexNumbers.tsx:107-109 | L · P · (reversed ratio) = 10000 |
| IndexNumbers.FactorRatios | project/src/modules/IndexNumbers.tsx:114-117 | L · P · (quantity ratio) = V² |
| IndexNumbers.TimeReversalPasses | project/src/modules/IndexNumbers.tsx:105-111 | the time-reversal test: (F/100)(F_reversed/100) within 0.01 of 1 |
| IndexNumbers.FactorReversalPasses | project/src/modules/IndexNumbers.tsx:113-119 | the factor-reversal test: (F/100)(F_quantity/100) within 0.01 of V/100 |
| IndexNumbers.TimeReversal | project/src/modules/IndexNumbers.tsx:105-111 | with positive aggregates, (F/100) · (F_reversed/100) = 1, so the time-reversal test passes |
| IndexNumbers.FactorReversal | project/src/modules/IndexNumbers.tsx:113-119 | with positive aggregates, (F/100) · (F_quantity/100) = V/100, so the factor-reversal test passes |
| IndexNumbers.FisherBetween | project/src/modules/IndexNumbers.tsx:92-95 | the Fisher index lies between Laspeyres and Paasche |
| IndexNumbers.GeometricMeanBetween | project/src/modules/IndexNumbers.tsx:95 | a geometric mean lies between its two factors |
| IndexNumbers.CalculateIndex | project/src/modules/IndexNumbers.tsx:39-150 | nothing for no items; otherwise the rounded index of the chosen method, a details row per item copying its fields with rounded products and relative, rounded totals, and reversal tests exactly for Fisher |
| IndexNumbers.ItemDetail | project/src/modules/IndexNumbers.tsx:126-137 | a details row copies the item and its prices and quantities, and holds its four products and its price relative rounded to two decimals |
| IndexNumbers.DetailOf | project/src/modules/IndexNumbers.tsx:126-137 | what a details row must hold: the item's own fields, then its products and price relative rounded to two decimals |
| IndexNumbers.Details | project/src/modules/IndexNumbers.tsx:126-137 | one details row per item, in order, each as above |
| IndexNumbers.TotalsOf | project/src/modules/IndexNumbers.tsx:138-146 | the totals row: ΣP0 and ΣP1 as summed, the four product sums and the mean price relative rounded to two decimals |
| IndexNumbers.FisherTestsPass | project/src/modules/IndexNumbers.tsx:101-120 | with positive aggregates, both Fisher tests report true |
| IndexNumbers.UnchangedPriceColumns | project/src/modules/IndexNumbers.tsx:42-53 | unchanged prices make every current-price total equal its base-price total |
| IndexNumbers.UnchangedPriceRelatives | project/src/modules/IndexNumbers.tsx:66-67 | unchanged prices give an average relative of 100 |
| IndexNumbers.UnitTest | project/src/modules/IndexNumbers.tsx:256 | when current prices equal base prices, every method yields 100 |
| IndexNumbers.SameQuantityColumns | project/src/modules/IndexNumbers.tsx:42-45 | with q1 = q0 the Q1 product columns equal the Q0 ones |
| IndexNumbers.DoubledColumn | project/src/modules/IndexNumbers.tsx:85-86 | with q1 = q0 the Marshall–Edgeworth totals are twice the Q0 totals |
| IndexNumbers.SameQuantities | project/src/modules/IndexNumbers.tsx:72-90 | with unchanged quantities, Marshall–Edgeworth, Laspeyres and Paasche agree |
| IndexNumbers.PracticeIndices | project/src/modules/IndexNumbers.tsx:397-403 | the practice data give totals 250/340/305/416, Laspeyres 136 and Paasche 136.39 |
| IndexNumbers.SampleAggregates | src/utils/sampleData.ts:11-17 | the sample data give ΣP1Q0 = 9980 and ΣP0Q0 = 8450 |
| IndexNumbers.SampleLaspeyres | src/utils/sampleData.ts:11-17 | the sample's Laspeyres index is 118.11 |
| TimeSeries.Values | src/modules/TimeSeries.tsx:43 | the observed values, in order |
| TimeSeries.SemiAverageLine | src/modules/TimeSeries.tsx:50-61 | the semi-average line passes through the first half's mean at its centre and the second half's mean `mid` steps later |
| TimeSeries.SumXs | src/modules/TimeSeries.tsx:83 | 1 + 2 + … + n = n(n+1)/2 |
| TimeSeries.MeanXs | src/modules/TimeSeries.tsx:83-84 | the mean of 1..n is (n+1)/2 |
| TimeSeries.SpreadOfXs | src/modules/TimeSeries.tsx:90-95 | Sxx of 1..n is positive for n ≥ 2, so b is defined |
| TimeSeries.LeastSquaresLine | src/modules/TimeSeries.tsx:82-98 | the normal equation b · Sxx = Sxy holds, and the line passes through (mean X, mean Y) |
| TimeSeries.TrendLine | src/modules/TimeSeries.tsx:50-98 | the trend line of the chosen method, semi-averages or least squares |
| TimeSeries.LinearMean | src/modules/TimeSeries.tsx:84-85 | values on a line c + dX have mean c + d · mean X |
| TimeSeries.LinearCross | src/modules/TimeSeries.tsx:87-93 | for values on a line over X = 1..n, Sxy = d · Sxx |
| TimeSeries.LeastSquaresReproducesLine | src/modules/TimeSeries.tsx:82-98 | values exactly on c + dX give the least-squares line (c, d) |
| TimeSeries.PracticeTrend | src/modules/TimeSeries.tsx:373-374 | the practice data 120, 135, 150, 165 give Y = 105 + 15X |
| TimeSeries.ProgressionMean | src/modules/TimeSeries.tsx:55-56 | the mean of an arithmetic progression is its middle value |
| TimeSeries.ProgressionSlice | src/modules/TimeSeries.tsx:52-56 | the mean of a slice of a progression is the value at the slice's centre |
| TimeSeries.SemiLineCore | src/modules/TimeSeries.tsx:58-59 | half-means of a line give back its slope and intercept |
| TimeSeries.SemiAveragesReproduceLine | src/modules/TimeSeries.tsx:50-61 | for an even count of values on c + dX (X from 1), the semi-average line is (c + d, d), the same line with X counted from 0 |
| TimeSeries.SemiAveragesOddCount | src/modules/TimeSeries.tsx:51-58 | for 1..5 least squares gives slope 1 but semi-averages give 1.25: with an odd count the half centres are mid + ½ apart, yet the code divides by mid |
| TimeSeries.TrendValues | src/modules/TimeSeries.tsx:61 | one trend value per observation |
| TimeSeries.LinearTrendLine | src/modules/TimeSeries.tsx:50-98 | each method recovers a line from values exactly on it |
| TimeSeries.TrendReproducesLinear | src/modules/TimeSeries.tsx:50-98 | values exactly on a line are their own trend values |
| TimeSeries.LineValues | src/modules/TimeSeries.tsx:61 | reading the line c + dX (in each method's own X) at periods 1..n gives back values lying on it |
| TimeSeries.MovingAverages | src/modules/TimeSeries.tsx:120-131 | one entry per observation: none within half a window of either end, else the mean of the centred window |
| TimeSeries.MovingAverageAt | src/modules/TimeSeries.tsx:122-130 | defined exactly from half a window after the start to half a window before the end; there, the average times the window is the sum of the centred window |
| TimeSeries.MeanOfConstant | src/modules/TimeSeries.tsx:129 | the mean of constant values is that value |
| TimeSeries.MovingAverageOfConstant | src/modules/TimeSeries.tsx:120-131 | a constant series has that constant as every moving average |
| TimeSeries.MovingAverageOfLinear | src/modules/TimeSeries.tsx:120-131 | on a linear series, an odd centred window averages to the centre value |
| TimeSeries.CentreOfWindow | src/modules/TimeSeries.tsx:126-128 | the window's centre value is the line's value at the centre |
| TimeSeries.RatioToAverage | src/modules/TimeSeries.tsx:139-141 | ratio · ma = v · 100, and v / (ratio/100) = ma |
| TimeSeries.SeasonalAdjustment | src/modules/TimeSeries.tsx:133-146 | index 100 and the raw value where there is no moving average; elsewhere index · ma = value · 100 and the deseasonalised value is the moving average |
| TimeSeries.LinearHasNoSeason | src/modules/TimeSeries.tsx:120-146 | a linear series has every seasonal index 100 and is its own deseasonalised series |
| TimeSeries.SeasonalFactor | src/modules/TimeSeries.tsx:172 | the index of position i mod 4, or 100 when it is missing or zero; never zero |
| TimeSeries.ForecastValue | src/modules/TimeSeries.tsx:168-173 | the trend line continued to period n + i, times the seasonal factor as a fraction |
| TimeSeries.LineFromTwoValues | src/modules/TimeSeries.tsx:155-157 | a line is recovered from its values at 0 and at a positive span |
| TimeSeries.SemiContinuation | src/modules/TimeSeries.tsx:155-157 | rebuilding the line from the first and last trend values gives the semi-average line |
| TimeSeries.ContinueTrend | src/modules/TimeSeries.tsx:151-169 | both branches give the trend line's value at the future period |
| TimeSeries.Forecasts | src/modules/TimeSeries.tsx:148-175 | one forecast per period (none if periods ≤ 0); forecast i is the continued trend times the seasonal factor |
| TimeSeries.LinearForecast | src/modules/TimeSeries.tsx:148-175 | a linear series' forecast is the line continued, times the seasonal factor |
| TimeSeries.LineForecast | src/modules/TimeSeries.tsx:148-175 | a forecast off the line c + dX at period n + i is c + d(n + i), times the seasonal factor as a fraction |
| TimeSeries.NoZeroRatios | src/modules/TimeSeries.tsx:137-141 | where ratios are defined, no moving average or value used as a divisor is zero |
| TimeSeries.TableRow | src/modules/TimeSeries.tsx:185-192 | period and value copied; trend, index and deseasonalised value rounded to two decimals; the moving average rounded, and shown exactly when it exists and is non-zero |
| TimeSeries.AnalyzeTimeSeries | src/modules/TimeSeries.tsx:39-194 | nothing for fewer than 4 observations; otherwise trend values, moving averages, seasonal indices and deseasonalised values, forecasts, and a rounded table whose moving average is shown only when present and non-zero |
| Regression.XValues | project/src/modules/Regression.tsx:36 | the x values, in order |
| Regression.YValues | project/src/modules/Regression.tsx:37 | the y values, in order |
| Regression.SlopeYOnX | project/src/modules/Regression.tsx:57 | bYX · Sxx = Sxy |
| Regression.SlopeXOnY | project/src/modules/Regression.tsx:58 | bXY · Syy = Sxy |
| Regression.LineYOnX | project/src/modules/Regression.tsx:61 | Y on X passes through (x̄, ȳ) with slope bYX |
| Regression.LineXOnY | project/src/modules/Regression.tsx:62 | X on Y passes through (ȳ, x̄) with slope bXY |
| Regression.SlopesProduct | project/src/modules/Regression.tsx:65 | r² = bYX · bXY from the normal equations |
| Regression.SquaredSlopes | project/src/modules/Regression.tsx:65 | any r with r² Sxx Syy = Sxy² has r² = bYX · bXY |
| Regression.CorrelationSquaredIsSlopeProduct | project/src/modules/Regression.tsx:56-65 | r² equals bYX · bXY exactly |
| Regression.SlopesShareSign | project/src/modules/Regression.tsx:66 | each slope is positive (negative) exactly when Sxy is |
| Regression.CalculateRegression | project/src/modules/Regression.tsx:35-93 | n; both lines through the means and equal to the reference lines; the means, Σx, Σy, Sxx, Syy, Sxy, r and both slopes each rounded to two decimals; one details row per point, in order, holding that point's rounded deviations, squares and product |
| Regression.Detail | project/src/modules/Regression.tsx:84-91 | a details row copies the point and holds its deviations, their squares and their product, each rounded to two decimals |
| Regression.PropertyChecks | project/src/modules/Regression.tsx:64-66 | the r² check always holds; the sign check holds exactly when Sxy ≠ 0 |
| Regression.DeviationsBalance | project/src/modules/Regression.tsx:43-44 | x and y deviations each sum to zero |
| Regression.WorkedMeans | src/utils/sampleData.ts:3-9 | the sample gives x̄ = 6 and ȳ = 7 |
| Regression.WorkedDeviations | src/utils/sampleData.ts:3-9 | the sample's deviations are −4, −2, 0, 2, 4 and −3, −2, 0, 1, 4 |
| Regression.WorkedSums | src/utils/sampleData.ts:3-9 | the sample gives Sxx = 40, Syy = 30 and Sxy = 34 |
| Regression.WorkedRegression | src/utils/sampleData.ts:3-9 | the sample gives bYX = 0.85 and the line Y = 1.9 + 0.85X |
| Probability.Priors | project/src/modules/Probability.tsx:130 | the priors, in order |
| Probability.Weights | project/src/modules/Probability.tsx:132 | prior × likelihood per hypothesis |
| Probability.Marginal | project/src/modules/Probability.tsx:132 | P(E): the sum of the weights prior × likelihood |
| Probability.PosteriorOf | project/src/modules/Probability.tsx:133-136 | copies the hypothesis; posterior × P(E) = prior × likelihood |
| Probability.Bayes | project/src/modules/Probability.tsx:129-158 | a result exactly when the priors sum to 1 within 0.001; one posterior per hypothesis; P(E) rounded to 4 decimals |
| Probability.PosteriorValues | project/src/modules/Probability.tsx:133-136 | the posteriors, in order |
| Probability.PosteriorsSumToOne | project/src/modules/Probability.tsx:129-136 | the posteriors sum to 1 |
| Probability.WeightBounds | project/src/modules/Probability.tsx:132 | each weight lies between 0 and P(E) |
| Probability.PosteriorsAreProbabilities | project/src/modules/Probability.tsx:129-136 | with non-negative inputs every posterior lies in [0, 1] |
| Probability.DefaultBayes | project/src/modules/Probability.tsx:28-32 | the default hypotheses give P(E) = 0.72 and posteriors 1/3, 5/12, 1/4 |
| Probability.CalculateResults | project/src/modules/Probability.tsx:57-166 | permutation/combination results exactly when 0 ≤ r ≤ n ≤ 200, equal to P(n, r) and C(n, r); Bayes as above; nothing for Monte Carlo |
| Probability.CountsAllowed | project/src/modules/Probability.tsx:64 | the counts are computed only for 0 ≤ r ≤ n ≤ 200 |
| Probability.CountOrZero | project/src/modules/Probability.tsx:62-63 | `parseInt(text) || 0`: an unparsable count reads as 0 |
| Probability.WithField | project/src/modules/Probability.tsx:223 | only the edited field changes |
| Probability.UpdateBayesData | project/src/modules/Probability.tsx:221-225 | only the row at the index changes, and only in the edited field |
| Probability.NatToString | project/src/modules/Probability.tsx:228 | the decimal numeral of n is a non-empty string of digits |
| Probability.NatToStringRoundTrip | project/src/modules/Probability.tsx:228 | reading the numeral back gives n |
| Probability.AddBayesHypothesis | project/src/modules/Probability.tsx:227-229 | appends one row named H(n+1), with prior 0.1 and likelihood 0.5; earlier rows are kept |
| Probability.RemoveBayesHypothesis | project/src/modules/Probability.tsx:231-235 | drops exactly the indexed row when there are more than two; otherwise no change; at least two rows always remain |
| Distributions.CalculateBinomial | src/modules/Distributions.tsx:34-39 | 0 outside the domain, never negative |
| Distributions.BinomialAgreesWithLibrary | src/modules/Distributions.tsx:34-39 | the page's binomial equals the library's `binomialPMF` |
| Distributions.VarianceWithinMean | src/modules/Distributions.tsx:44-45 | 0 ≤ np(1−p) ≤ np |
| Distributions.BinomialMean | src/modules/Distributions.tsx:44 | the binomial mean np |
| Distributions.BinomialVariance | src/modules/Distributions.tsx:45 | the binomial variance np(1−p) |
| Distributions.CalculatePoisson | src/modules/Distributions.tsx:49-52 | 0 when λ ≤ 0 or k < 0; otherwise prob · k! = λ^k · exp(−λ) |
| Distributions.PoissonAgreesWithLibrary | src/modules/Distributions.tsx:49-52 | equals the library's `poissonPMF` for λ ≠ 0; at λ = 0 the page gives 0 and the library exp(0) |
| Distributions.GenerateBinomialData | src/modules/Distributions.tsx:102-111 | the points k = 0..min(n, 20) in order, each with the binomial probability; none for n < 0 |
| Distributions.PoissonPointCount | src/modules/Distributions.tsx:115 | the first whole number above min(3λ, 20) (0 when that bound is negative): the number of points the loop emits |
| Distributions.GeneratePoissonData | src/modules/Distributions.tsx:113-122 | the points k = 0, 1, … while k ≤ min(3λ, 20), in order, each with the Poisson probability |
| Strings.Split | src/components/DataTable.tsx:59 | `split` gives at least one piece, none holding the separator |
| Strings.SplitWithoutSeparator | src/components/DataTable.tsx:59 | a string without the separator splits into itself |
| Strings.SplitAfterPiece | src/components/DataTable.tsx:66 | a separator-free piece then the separator splits off as one piece |
| Strings.SplitJoin | src/components/DataTable.tsx:42-45 | splitting a join of separator-free parts gives the parts back |
| Strings.JoinSplit | src/components/DataTable.tsx:42-45 | joining the pieces of a split gives the string back |
| Strings.Join | src/components/DataTable.tsx:43-45 | `join`: the parts with one separator between each two |
| Strings.FirstNonSpace | src/components/DataTable.tsx:59 | the first index not holding white space |
| Strings.EndOfNonSpace | src/components/DataTable.tsx:59 | the end of the text without its trailing white space |
| Strings.Trim | src/components/DataTable.tsx:68 | the result neither begins nor ends with white space |
| Strings.TrimDropsOnlySpace | src/components/DataTable.tsx:68 | `trim` removes only white space at the two ends |
| Strings.TrimUntouched | src/components/DataTable.tsx:68 | text without white space at its ends is its own trim |
| Strings.TrimIdempotent | src/components/DataTable.tsx:68 | trimming twice is trimming once |
| DataTable.FindColumn | src/components/DataTable.tsx:32 | the first column with the key, and none exactly when no column has it |
| DataTable.EnteredCell | src/components/DataTable.tsx:33 | in a number column: empty input stays empty text, otherwise `parseFloat(v) || 0`; any other column (or an unknown key) keeps the text |
| DataTable.Labels | src/components/DataTable.tsx:43 | the column labels, in order |
| DataTable.Fields | src/components/DataTable.tsx:44 | a row's cells in column order, with a missing key as empty text |
| DataTable.CsvLines | src/components/DataTable.tsx:42-45 | the header line of labels, then one comma-joined line per row |
| DataTable.CsvText | src/components/DataTable.tsx:42-45 | the CSV lines joined by newlines |
| DataTable.CsvSplitsIntoLines | src/components/DataTable.tsx:42-45 | without newlines in the fields, the CSV text splits back into exactly the header and one line per row |
| DataTable.JoinWithout | src/components/DataTable.tsx:42-45 | joining with another separator adds no newline |
| DataTable.PastedRow | src/components/DataTable.tsx:65-71 | a pasted row has exactly the column keys |
| DataTable.FieldValue | src/components/DataTable.tsx:68 | `values[index]?.trim() || ''`: the trimmed field, or empty text when the line is short |
| DataTable.PastedCell | src/components/DataTable.tsx:68-69 | `parseFloat(value) || 0` in a number column, the text otherwise |
| DataTable.HasHeader | src/components/DataTable.tsx:62 | the first line is a header exactly when its first field does not parse as a number |
| DataTable.PastedRowCells | src/components/DataTable.tsx:67-71 | under each key: the trimmed field at that column's index, `''` when the line is short, and for number columns `parseFloat(v) || 0` |
| DataTable.ParsePaste | src/components/DataTable.tsx:56-76 | ignored unless the trimmed text has more than one line; the first line is dropped exactly when its first field is not a number; every other line becomes one row |
| DataTable.JoinFirst | src/components/DataTable.tsx:45 | a join begins with its first part |
| DataTable.JoinLast | src/components/DataTable.tsx:45 | a join ends with its last part |
| DataTable.PlainLine | src/components/DataTable.tsx:44 | a line of plain fields splits back into them and each trims to itself |
| DataTable.CellRoundTrip | src/components/DataTable.tsx:68-69 | a plain cell read back from its CSV field is itself |
| DataTable.RowRoundTrip | src/components/DataTable.tsx:65-71 | a row read back from its own CSV line is the row |
| DataTable.RowCellRoundTrip | src/components/DataTable.tsx:67-71 | each cell of a row survives export and paste |
| DataTable.ExportedRow | src/components/DataTable.tsx:44 | an exported row line has no newline and pastes back as the row |
| DataTable.HeaderBegins | src/components/DataTable.tsx:43 | the header line starts with the first label's first character |
| DataTable.RowLineEnds | src/components/DataTable.tsx:44 | a row line ends with its last field's last character |
| DataTable.JoinedLinesTrimmed | src/components/DataTable.tsx:59 | lines without outer white space join into text that `trim` leaves alone |
| DataTable.ExportedTextTrimmed | src/components/DataTable.tsx:42-59 | exported CSV text is unchanged by the paste's `trim` |
| DataTable.ExportedLines | src/components/DataTable.tsx:42-71 | exported text splits into its lines, and each row line pastes back as its row |
| DataTable.ExportedEnds | src/components/DataTable.tsx:42-59 | exported text of at least one row is its own trim |
| DataTable.ExportedHeader | src/components/DataTable.tsx:62 | the exported header is recognised as a header |
| DataTable.HeaderedPaste | src/components/DataTable.tsx:59-74 | a header line plus one line per row pastes as exactly those rows |
| DataTable.CsvPasteRoundTrip | src/components/DataTable.tsx:41-76 | exporting a table of plain fields whose first label is not numeric, then pasting the text, gives back the same rows |
| DataTable.HeaderLeads | src/components/DataTable.tsx:42-45 | the first line of the CSV text is the header |
| DataTable.Table.Contents | src/components/DataTable.tsx:5 | the cells of the row objects, in order |
| DataTable.BlankCells | src/components/DataTable.tsx:18-21 | the empty text under every column key |
| DataTable.Table.AddRow | src/components/DataTable.tsx:17-23 | appends one new row object holding `''` under every column key; earlier rows are unchanged |
| DataTable.Table.RemoveRow | src/components/DataTable.tsx:25-28 | drops exactly the row at the index and keeps the others in order; an out-of-range index changes nothing |
| DataTable.Table.UpdateCell | src/components/DataTable.tsx:30-35 | writes the entered cell into the shared row object; no other row or key changes |
| DataTable.Table.ClearData | src/components/DataTable.tsx:37-39 | no rows remain |
| DataTable.Table.Csv | src/components/DataTable.tsx:41-45 | the CSV text's first line is the header, unless a label contains a newline |
| DataTable.Table.HandlePaste | src/components/DataTable.tsx:56-76 | a parsed paste replaces all rows with new row objects holding the parsed cells; an ignored paste changes nothing |
| DataTable.NewRows | src/components/DataTable.tsx:65-73 | one new, distinct row object per parsed row, holding that row's cells, in order |
| Lists.RemoveAt | project/src/modules/Probability.tsx:233 | `filter((_, i) => i !== index)`: drops exactly the indexed element, keeping order; an out-of-range index keeps everything |

## Left out

- `erf`, `normalCDF` and `zScore`, the normal-distribution page, normal fitting and the χ² test:
  these are floating-point approximations of transcendental functions with no exact-real meaning.
- The Monte Carlo simulation: it is driven by unseeded `Math.random`. The calculator's
  Monte Carlo branch is modelled as producing no result.
- IEEE-754 effects: rounding drift in `combination`'s division, overflow of large factorials, and
  NaN/Infinity from zero divisors. Zero divisors are preconditions instead.
- IndexNumbers.FisherDefined: requires L·P, the reversed ratio and the quantity ratio to be non-negative. With
  negative prices or quantities the application takes `Math.sqrt` of a negative number and shows NaN; here such an
  argument is a precondition.
- IndexNumbers.CalculateIndex: for the Fisher method it inherits that precondition, so the NaN index and the NaN
  reversal tests of negative square-root arguments are not modelled.
- `Math.sqrt`, `Math.exp`, `parseFloat`, `parseInt` and number-to-string conversion are
  parameters, not implementations. `parseInt(...) || 0` appears as an already-parsed `Option<int>`.
- Formula, calculation and step strings, `toFixed` formatting, charts and JSX.
- The trend equation text and the trend step explanations are not modelled.
- The regression practice solution text is not modelled.
- Local-storage persistence, authentication, routing and theme are not part of this model.
- The download itself (Blob, object URL, DOM anchor click) is not modelled. Only the CSV text is.
- Strings.Trim: removes ASCII white space only. The Unicode spaces and line terminators that
  JavaScript's `trim` also removes are not modelled.
- DataTable.Table.Csv: its contract states only the header line. The full line structure is stated
  by DataTable.CsvSplitsIntoLines and DataTable.CsvPasteRoundTrip.
- DataTable.CsvPasteRoundTrip: requires every field to be non-empty, without commas, newlines or
  surrounding white space. It also requires number cells to print as text that `parse` reads back
  as the same number. Other tables do not survive export and paste unchanged; for example, an empty
  last cell is lost to `trim`.
- Mutation through the previous data array: in the application the old row list and the new one
  share the edited row object. The model keeps the row list unchanged and mutates only that object;
  it does not model the page's two lists separately.
