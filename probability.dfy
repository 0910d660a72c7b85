/**
 * The probability calculator: permutations and combinations of n things taken r at a time for
 * 0 <= r <= n <= 200, Bayes' theorem over a list of hypotheses whose priors sum to one, and the
 * edits of that list (change one field, add a hypothesis, remove one while more than two remain).
 */
module Probability {
  import opened Wrappers
  import opened Arith
  import opened MathUtils
  import Lists

  /** A hypothesis with its prior P(H) and the likelihood P(E | H) of the evidence under it. */
  datatype Hypothesis = Hypothesis(hypothesis: string, prior: real, likelihood: real)

  /** A hypothesis with its posterior P(H | E). */
  datatype Posterior = Posterior(hypothesis: string, prior: real, likelihood: real, posterior: real)

  datatype CalculatorType = PermutationCalculator | CombinationCalculator | BayesCalculator | MonteCarloCalculator

  /** The results shown: nothing, a count, or the posteriors with the marginal likelihood rounded
      to four decimals. */
  datatype Results =
    | NoResults
    | PermutationResult(count: int)
    | CombinationResult(count: int)
    | BayesResult(posteriors: seq<Posterior>, marginalLikelihood: real)

  // ---------------------------------------------------------------------------
  // Permutations and combinations
  // ---------------------------------------------------------------------------

  /** The counts are computed only for 0 <= r <= n <= 200. */
  predicate CountsAllowed(n: int, r: int)
  {
    n >= 0 && r >= 0 && r <= n && n <= 200
  }

  // ---------------------------------------------------------------------------
  // Bayes' theorem
  // ---------------------------------------------------------------------------

  function Priors(data: seq<Hypothesis>): (p: seq<real>)
    ensures |p| == |data| && forall i :: 0 <= i < |data| ==> p[i] == data[i].prior
  {
    seq(|data|, i requires 0 <= i < |data| => data[i].prior)
  }

  /** The joint weights P(H) P(E | H). */
  function Weights(data: seq<Hypothesis>): (w: seq<real>)
    ensures |w| == |data| && forall i :: 0 <= i < |data| ==> w[i] == data[i].prior * data[i].likelihood
  {
    seq(|data|, i requires 0 <= i < |data| => data[i].prior * data[i].likelihood)
  }

  /** The marginal likelihood P(E) = Σ P(H) P(E | H). */
  function Marginal(data: seq<Hypothesis>): real
  {
    Sum(Weights(data))
  }

  /** The priors sum to one within 0.001. */
  predicate PriorsSumToOne(data: seq<Hypothesis>)
  {
    Abs(Sum(Priors(data)) - 1.0) < 0.001
  }

  /** The posterior of one hypothesis: its weight over the marginal likelihood. */
  function PosteriorOf(h: Hypothesis, marginal: real): (p: Posterior)
    requires marginal != 0.0
    ensures p.hypothesis == h.hypothesis && p.prior == h.prior && p.likelihood == h.likelihood
    ensures p.posterior * marginal == h.prior * h.likelihood
  {
    MulDiv(h.prior * h.likelihood, marginal);
    Posterior(h.hypothesis, h.prior, h.likelihood, (h.prior * h.likelihood) / marginal)
  }

  /** The Bayes branch: nothing unless the priors sum to one; then each hypothesis, in order, with
      its posterior, and the marginal likelihood rounded to four decimals. A zero marginal
      likelihood would divide by zero. */
  function Bayes(data: seq<Hypothesis>): (res: Results)
    requires PriorsSumToOne(data) ==> Marginal(data) != 0.0
    ensures res.BayesResult? <==> PriorsSumToOne(data)
    ensures res.NoResults? <==> !PriorsSumToOne(data)
    ensures res.BayesResult? ==> |res.posteriors| == |data|
    ensures res.BayesResult? ==> forall i :: 0 <= i < |data| ==>
      res.posteriors[i] == PosteriorOf(data[i], Marginal(data))
    ensures res.BayesResult? ==> RoundsTo(Marginal(data), 10000.0, res.marginalLikelihood)
  {
    if !PriorsSumToOne(data) then NoResults
    else
      var marginal := Marginal(data);
      var posteriors := seq(|data|, i requires 0 <= i < |data| => PosteriorOf(data[i], marginal));
      BayesResult(posteriors, Round(marginal, 4))
  }

  function PosteriorValues(posteriors: seq<Posterior>): (v: seq<real>)
    ensures |v| == |posteriors| && forall i :: 0 <= i < |posteriors| ==> v[i] == posteriors[i].posterior
  {
    seq(|posteriors|, i requires 0 <= i < |posteriors| => posteriors[i].posterior)
  }

  /** A posterior p with p m == w is the weight w scaled by 1 / m. */
  lemma ScaledWeight(p: real, w: real, m: real)
    requires m != 0.0 && p * m == w
    ensures p == (1.0 / m) * w
  {
    MulDiv(p, m);
  }

  /** With a non-zero marginal likelihood the posteriors sum to one. */
  lemma PosteriorsSumToOne(data: seq<Hypothesis>)
    requires PriorsSumToOne(data) && Marginal(data) != 0.0
    ensures Sum(PosteriorValues(Bayes(data).posteriors)) == 1.0
  {
    var m, w, v := Marginal(data), Weights(data), PosteriorValues(Bayes(data).posteriors);
    ScaledPosteriors(data, m, w, v);
    NormalisedSum(w, v, m);
  }

  /** Weights each scaled by one over their total sum to one. */
  lemma NormalisedSum(w: seq<real>, v: seq<real>, m: real)
    requires m != 0.0 && m == Sum(w) && |v| == |w|
    requires forall i :: 0 <= i < |v| ==> v[i] == (1.0 / m) * w[i]
    ensures Sum(v) == 1.0
  {
    SumScaled(w, v, 1.0 / m);
    UnitTotal(Sum(v), Sum(w), m);
  }

  /** Each posterior is its weight scaled by one over the marginal likelihood. */
  lemma ScaledPosteriors(data: seq<Hypothesis>, m: real, w: seq<real>, v: seq<real>)
    requires PriorsSumToOne(data) && m == Marginal(data) && m != 0.0
    requires w == Weights(data) && v == PosteriorValues(Bayes(data).posteriors)
    ensures |v| == |w| && forall i :: 0 <= i < |v| ==> v[i] == (1.0 / m) * w[i]
  {
    forall i | 0 <= i < |v|
      ensures v[i] == (1.0 / m) * w[i]
    {
      ScaledWeight(v[i], w[i], m);
    }
  }

  /** One over a total, times that total, is one. */
  lemma UnitTotal(total: real, s: real, m: real)
    requires m != 0.0 && s == m && total == (1.0 / m) * s
    ensures total == 1.0
  {
    MulDiv(1.0, m);
  }

  /** Every weight lies between zero and the marginal likelihood when priors and likelihoods are
      non-negative. */
  lemma WeightBounds(data: seq<Hypothesis>, i: int)
    requires 0 <= i < |data|
    requires forall j :: 0 <= j < |data| ==> data[j].prior >= 0.0 && data[j].likelihood >= 0.0
    ensures 0.0 <= Weights(data)[i] <= Marginal(data)
  {
    var w := Weights(data);
    forall j | 0 <= j < |data|
      ensures w[j] >= 0.0
    {
      MulNonNegative(data[j].prior, data[j].likelihood);
    }
    SumBoundsTerm(w, i);
  }

  /** A ratio of a number between 0 and m to a positive m lies in [0, 1]. */
  lemma UnitRatio(p: real, w: real, m: real)
    requires m > 0.0 && 0.0 <= w <= m && p * m == w
    ensures 0.0 <= p <= 1.0
  {
    NonNegativeFactor(p, m);
    if p > 1.0 {
      MulPositive(p - 1.0, m);
    }
  }

  /** With non-negative priors and likelihoods and a positive marginal likelihood, every posterior
      is a probability. */
  lemma PosteriorsAreProbabilities(data: seq<Hypothesis>)
    requires PriorsSumToOne(data) && Marginal(data) > 0.0
    requires forall j :: 0 <= j < |data| ==> data[j].prior >= 0.0 && data[j].likelihood >= 0.0
    ensures forall i :: 0 <= i < |data| ==> 0.0 <= Bayes(data).posteriors[i].posterior <= 1.0
  {
    var m := Marginal(data);
    forall i | 0 <= i < |data|
      ensures 0.0 <= Bayes(data).posteriors[i].posterior <= 1.0
    {
      WeightBounds(data, i);
      UnitRatio(Bayes(data).posteriors[i].posterior, Weights(data)[i], m);
    }
  }

  /** The calculator's default hypotheses: priors 0.3, 0.5, 0.2 and likelihoods 0.8, 0.6, 0.9. */
  function DefaultHypotheses(): seq<Hypothesis>
  {
    [Hypothesis("H1", 0.3, 0.8), Hypothesis("H2", 0.5, 0.6), Hypothesis("H3", 0.2, 0.9)]
  }

  /** For the default hypotheses P(E) = 0.72 and the posteriors are 1/3, 5/12 and 1/4. */
  lemma DefaultBayes()
    ensures PriorsSumToOne(DefaultHypotheses()) && Marginal(DefaultHypotheses()) == 0.72
    ensures Bayes(DefaultHypotheses()).marginalLikelihood == 0.72
    ensures Bayes(DefaultHypotheses()).posteriors[0].posterior == 1.0 / 3.0
    ensures Bayes(DefaultHypotheses()).posteriors[1].posterior == 5.0 / 12.0
    ensures Bayes(DefaultHypotheses()).posteriors[2].posterior == 0.25
  {
    var data := DefaultHypotheses();
    assert Priors(data) == [0.3, 0.5, 0.2];
    assert Weights(data) == [0.24, 0.3, 0.18];
    SumLiterals(0.3, 0.5, 0.2, 0.0, 0.0);
    SumLiterals(0.24, 0.3, 0.18, 0.0, 0.0);
    assert Sum([0.3, 0.5, 0.2]) == 1.0 by {
      assert [0.3, 0.5, 0.2][..2] == [0.3, 0.5];
    }
    assert Sum([0.24, 0.3, 0.18]) == 0.72 by {
      assert [0.24, 0.3, 0.18][..2] == [0.24, 0.3];
    }
    assert RoundsTo(0.72, 10000.0, 0.72);
    RoundsToUnique(0.72, 10000.0, Bayes(data).marginalLikelihood, 0.72);
  }

  // ---------------------------------------------------------------------------
  // The calculator
  // ---------------------------------------------------------------------------

  /** `parseInt(text) || 0`: an unparsable count (None here) reads as 0. */
  function CountOrZero(parsed: Option<int>): int
  {
    parsed.GetOr(0)
  }

  /** `calculateResults`: permutations and combinations within the allowed counts, the Bayes branch,
      and no results for the simulation, whose random trials are not part of this model. */
  method CalculateResults(kind: CalculatorType, n: Option<int>, r: Option<int>, data: seq<Hypothesis>)
    returns (res: Results)
    requires kind == BayesCalculator && PriorsSumToOne(data) ==> Marginal(data) != 0.0
    ensures kind == PermutationCalculator ==>
      (res.PermutationResult? <==> CountsAllowed(CountOrZero(n), CountOrZero(r))) &&
      (res.NoResults? <==> !CountsAllowed(CountOrZero(n), CountOrZero(r)))
    ensures kind == PermutationCalculator && CountsAllowed(CountOrZero(n), CountOrZero(r)) ==>
      res.count * Fact(CountOrZero(n) - CountOrZero(r)) == Fact(CountOrZero(n)) &&
      res.count == Choose(CountOrZero(n), CountOrZero(r)) * Fact(CountOrZero(r))
    ensures kind == CombinationCalculator ==>
      (res.CombinationResult? <==> CountsAllowed(CountOrZero(n), CountOrZero(r))) &&
      (res.NoResults? <==> !CountsAllowed(CountOrZero(n), CountOrZero(r)))
    ensures kind == CombinationCalculator && CountsAllowed(CountOrZero(n), CountOrZero(r)) ==>
      res.count == Choose(CountOrZero(n), CountOrZero(r))
    ensures kind == BayesCalculator ==> res == Bayes(data)
    ensures kind == MonteCarloCalculator ==> res == NoResults
  {
    var nVal, rVal := CountOrZero(n), CountOrZero(r);
    match kind
    case PermutationCalculator =>
      if CountsAllowed(nVal, rVal) {
        var p := Permutation(nVal, rVal);
        res := PermutationResult(p);
      } else {
        res := NoResults;
      }
    case CombinationCalculator =>
      if CountsAllowed(nVal, rVal) {
        var c := Combination(nVal, rVal);
        res := CombinationResult(c);
      } else {
        res := NoResults;
      }
    case BayesCalculator =>
      res := Bayes(data);
    case MonteCarloCalculator =>
      res := NoResults;
  }

  // ---------------------------------------------------------------------------
  // Editing the hypotheses
  // ---------------------------------------------------------------------------

  /** A new value for one field of a hypothesis. */
  datatype HypothesisField = HypothesisName(name: string) | PriorValue(prior: real) | LikelihoodValue(likelihood: real)

  /** The hypothesis with one field replaced and the other two kept. */
  function WithField(h: Hypothesis, f: HypothesisField): (r: Hypothesis)
    ensures r.hypothesis == (if f.HypothesisName? then f.name else h.hypothesis)
    ensures r.prior == (if f.PriorValue? then f.prior else h.prior)
    ensures r.likelihood == (if f.LikelihoodValue? then f.likelihood else h.likelihood)
  {
    match f
    case HypothesisName(name) => h.(hypothesis := name)
    case PriorValue(prior) => h.(prior := prior)
    case LikelihoodValue(likelihood) => h.(likelihood := likelihood)
  }

  /** `updateBayesData`: only the named field of the chosen row changes. The editor only offers
      rows that exist. */
  function UpdateBayesData(data: seq<Hypothesis>, index: int, f: HypothesisField): (r: seq<Hypothesis>)
    requires 0 <= index < |data|
    ensures |r| == |data|
    ensures forall j :: 0 <= j < |data| && j != index ==> r[j] == data[j]
    ensures r[index] == WithField(data[index], f)
  {
    data[index := WithField(data[index], f)]
  }

  /** The decimal digit d as a character. */
  function DigitChar(d: nat): char
    requires d < 10
  {
    (48 + d) as char
  }

  predicate IsDigit(c: char)
  {
    48 <= c as int <= 57
  }

  /** The decimal numeral of n, without leading zeros. */
  function NatToString(n: nat): (s: string)
    ensures |s| >= 1 && forall i :: 0 <= i < |s| ==> IsDigit(s[i])
    ensures n > 0 ==> s[0] != '0'
    decreases n
  {
    if n < 10 then [DigitChar(n)] else NatToString(n / 10) + [DigitChar(n % 10)]
  }

  /** The value of a string of decimal digits. */
  function DigitsValue(s: string): nat
    requires forall i :: 0 <= i < |s| ==> IsDigit(s[i])
  {
    if s == [] then 0
    else
      assert IsDigit(s[|s| - 1]);
      DigitsValue(s[..|s| - 1]) * 10 + (s[|s| - 1] as int - 48)
  }

  /** Reading the numeral back gives the number. */
  lemma {:induction false} NatToStringRoundTrip(n: nat)
    ensures DigitsValue(NatToString(n)) == n
  {
    var s := NatToString(n);
    if n < 10 {
      assert s[..0] == [];
    } else {
      assert s[..|s| - 1] == NatToString(n / 10);
      NatToStringRoundTrip(n / 10);
    }
  }

  /** A name "H" followed by the decimal numeral of k. */
  predicate NumberedName(name: string, k: nat)
  {
    |name| >= 2 && name[0] == 'H' && (forall i :: 1 <= i < |name| ==> IsDigit(name[i])) &&
    (|name| == 2 || name[1] != '0') && DigitsValue(name[1..]) == k
  }

  /** `addBayesHypothesis`: one row named H followed by the new count, with prior 0.1 and
      likelihood 0.5, is appended; the others are unchanged. */
  function AddBayesHypothesis(data: seq<Hypothesis>): (r: seq<Hypothesis>)
    ensures |r| == |data| + 1 && r[..|data|] == data
    ensures NumberedName(r[|data|].hypothesis, |data| + 1)
    ensures r[|data|].prior == 0.1 && r[|data|].likelihood == 0.5
  {
    NatToStringRoundTrip(|data| + 1);
    var name := "H" + NatToString(|data| + 1);
    assert name[1..] == NatToString(|data| + 1);
    data + [Hypothesis(name, 0.1, 0.5)]
  }

  /** `removeBayesHypothesis`: while more than two rows remain, the row at the index (if any) is
      dropped and the others keep their order; otherwise nothing changes. The list therefore never
      drops below two rows. */
  function RemoveBayesHypothesis(data: seq<Hypothesis>, index: int): (r: seq<Hypothesis>)
    ensures |data| <= 2 ==> r == data
    ensures |data| > 2 && 0 <= index < |data| ==>
      |r| == |data| - 1 && r[..index] == data[..index] && r[index..] == data[index + 1..]
    ensures !(0 <= index < |data|) ==> r == data
    ensures |data| >= 2 ==> |r| >= 2
  {
    if |data| > 2 then Lists.RemoveAt(data, index) else data
  }
}
