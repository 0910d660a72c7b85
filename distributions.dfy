/**
 * The discrete distributions page: the binomial probability with its guard, mean and variance,
 * the Poisson probability with its stricter guard, and the points plotted for each chart.
 * `exp` stands for `Math.exp`.
 */
module Distributions {
  import opened Arith
  import opened MathUtils

  /** One bar of a chart: k and its probability. */
  datatype DataPoint = DataPoint(k: int, probability: real)

  function Min(a: int, b: int): int
  {
    if a <= b then a else b
  }

  function MinReal(a: real, b: real): real
  {
    if a <= b then a else b
  }

  /** `calculateBinomial`: 0 when n < 0, k < 0, k > n or p lies outside [0, 1]; otherwise
      C(n, k) p^k (1 - p)^(n - k). */
  function CalculateBinomial(n: int, k: int, p: real): (prob: real)
    ensures n < 0 || k < 0 || k > n || p < 0.0 || p > 1.0 ==> prob == 0.0
    ensures prob >= 0.0
  {
    if n < 0 || k < 0 || k > n || p < 0.0 || p > 1.0 then 0.0
    else
      var c, a, b := Choose(n, k) as real, Pow(p, k), Pow(1.0 - p, n - k);
      MulNonNegative(c, a);
      MulNonNegative(c * a, b);
      c * a * b
  }

  /** The page's own guard adds n < 0 to the library's, but that case is already covered by
      k < 0 or k > n: the two binomial functions agree everywhere. */
  lemma BinomialAgreesWithLibrary(n: int, k: int, p: real)
    ensures CalculateBinomial(n, k, p) == BinomialPmf(k, n, p)
  {
  }

  /** The binomial mean n p. */
  function BinomialMean(n: int, p: real): real
  {
    n as real * p
  }

  /** The binomial variance n p (1 - p). */
  function BinomialVariance(n: int, p: real): real
  {
    n as real * p * (1.0 - p)
  }

  /** For n >= 0 and p in [0, 1], the variance lies between 0 and the mean. */
  lemma VarianceWithinMean(n: int, p: real)
    requires n >= 0 && 0.0 <= p <= 1.0
    ensures 0.0 <= BinomialVariance(n, p) <= BinomialMean(n, p)
  {
    var m := n as real * p;
    MulNonNegative(n as real, p);
    MulNonNegative(m, 1.0 - p);
    MulLeftLeq(m, 1.0 - p, 1.0);
  }

  /** `calculatePoisson`: 0 when the rate (lambda) is <= 0 or k < 0, otherwise rate^k e^-rate / k!. */
  function CalculatePoisson(rate: real, k: int, exp: real -> real): (prob: real)
    ensures rate <= 0.0 || k < 0 ==> prob == 0.0
    ensures rate > 0.0 && k >= 0 ==> prob * Fact(k) as real == Pow(rate, k) * exp(-rate)
  {
    if rate <= 0.0 || k < 0 then 0.0
    else
      MulDiv(Pow(rate, k) * exp(-rate), Fact(k) as real);
      (Pow(rate, k) * exp(-rate)) / Fact(k) as real
  }

  /** The page's Poisson guard is stricter than the library's: they agree except at rate = 0,
      where the page gives 0 and the library gives e^0 for k = 0. */
  lemma PoissonAgreesWithLibrary(rate: real, k: int, exp: real -> real)
    ensures rate != 0.0 ==> CalculatePoisson(rate, k, exp) == PoissonPmf(k, rate, exp)
    ensures CalculatePoisson(0.0, 0, exp) == 0.0 && PoissonPmf(0, 0.0, exp) == exp(0.0)
  {
    assert Pow(0.0, 0) == 1.0;
    assert -0.0 == 0.0;
  }

  /** `generateBinomialData`: one point for each k = 0 .. min(n, 20), in order; none when n < 0. */
  method GenerateBinomialData(n: int, p: real) returns (data: seq<DataPoint>)
    ensures |data| == if n < 0 then 0 else Min(n, 20) + 1
    ensures forall j :: 0 <= j < |data| ==> data[j] == DataPoint(j, CalculateBinomial(n, j, p))
  {
    data := [];
    var k := 0;
    while k <= Min(n, 20)
      invariant 0 <= k <= (if n < 0 then 0 else Min(n, 20) + 1)
      invariant |data| == k
      invariant forall j :: 0 <= j < k ==> data[j] == DataPoint(j, CalculateBinomial(n, j, p))
    {
      data := data + [DataPoint(k, CalculateBinomial(n, k, p))];
      k := k + 1;
    }
  }

  /** The number of Poisson points: the whole numbers k >= 0 with k <= min(3 rate, 20). */
  function PoissonPointCount(rate: real): (count: nat)
    ensures count as real > MinReal(rate * 3.0, 20.0)
    ensures count == 0 || (count - 1) as real <= MinReal(rate * 3.0, 20.0)
  {
    var bound := MinReal(rate * 3.0, 20.0);
    if bound < 0.0 then 0 else bound.Floor + 1
  }

  /** `generatePoissonData`: one point for each k = 0, 1, ... while k <= min(3 rate, 20). */
  method GeneratePoissonData(rate: real, exp: real -> real) returns (data: seq<DataPoint>)
    ensures |data| == PoissonPointCount(rate) <= 21
    ensures forall j :: 0 <= j < |data| ==> data[j] == DataPoint(j, CalculatePoisson(rate, j, exp))
    ensures forall j :: 0 <= j < |data| ==> data[j].k as real <= MinReal(rate * 3.0, 20.0)
  {
    data := [];
    var k := 0;
    while k as real <= MinReal(rate * 3.0, 20.0)
      invariant 0 <= k <= 21
      invariant k > 0 ==> (k - 1) as real <= MinReal(rate * 3.0, 20.0)
      invariant |data| == k
      invariant forall j :: 0 <= j < k ==> data[j] == DataPoint(j, CalculatePoisson(rate, j, exp))
      decreases 21 - k
    {
      data := data + [DataPoint(k, CalculatePoisson(rate, k, exp))];
      k := k + 1;
    }
  }
}
