/**
 * The index-number engine: for a list of commodities with base and current prices and
 * quantities, the simple aggregative, simple average, Laspeyres, Paasche,
 * Marshall-Edgeworth and Fisher price indices, the per-item details table and its
 * totals, and, for Fisher, the time-reversal and factor-reversal tests.
 */
module IndexNumbers {
  import opened Wrappers
  import opened Arith
  import opened MathUtils

  /** One row of input: base price and quantity, current price and quantity. */
  datatype Commodity = Commodity(item: string, p0: real, q0: real, p1: real, q1: real)

  datatype IndexMethod =
    | SimpleAggregative
    | SimpleAverage
    | Laspeyres
    | Paasche
    | MarshallEdgeworth
    | Fisher

  /** The per-item quantities the engine sums. */
  datatype Term = P0 | P1 | P0Q0 | P1Q0 | P0Q1 | P1Q1 | P1Q0Q1 | P0Q0Q1

  function TermOf(d: Commodity, t: Term): real
  {
    match t
    case P0 => d.p0
    case P1 => d.p1
    case P0Q0 => d.p0 * d.q0
    case P1Q0 => d.p1 * d.q0
    case P0Q1 => d.p0 * d.q1
    case P1Q1 => d.p1 * d.q1
    case P1Q0Q1 => d.p1 * (d.q0 + d.q1)
    case P0Q0Q1 => d.p0 * (d.q0 + d.q1)
  }

  /** The term `t` of every item, in input order (`data.map(...)`). */
  function ItemColumn(data: seq<Commodity>, t: Term): (c: seq<real>)
    ensures |c| == |data|
    ensures forall i :: 0 <= i < |data| ==> c[i] == TermOf(data[i], t)
  {
    seq(|data|, i requires 0 <= i < |data| => TermOf(data[i], t))
  }

  /** The column total, e.g. ΣP1Q0. */
  function Total(data: seq<Commodity>, t: Term): real
  {
    Sum(ItemColumn(data, t))
  }

  predicate NonZeroBasePrices(data: seq<Commodity>)
  {
    forall i :: 0 <= i < |data| ==> data[i].p0 != 0.0
  }

  /** The price relatives (P1 / P0) * 100, in input order. */
  function PriceRelatives(data: seq<Commodity>): (r: seq<real>)
    requires NonZeroBasePrices(data)
    ensures |r| == |data|
    ensures forall i :: 0 <= i < |data| ==> r[i] * data[i].p0 == data[i].p1 * 100.0
  {
    seq(|data|, i requires 0 <= i < |data| => (data[i].p1 / data[i].p0) * 100.0)
  }

  // ---------------------------------------------------------------------------
  // The weighted indices, on the four aggregates ΣP0Q0, ΣP1Q0, ΣP0Q1, ΣP1Q1
  // ---------------------------------------------------------------------------

  datatype Aggregates = Aggregates(p0q0: real, p1q0: real, p0q1: real, p1q1: real)

  function AggregatesOf(data: seq<Commodity>): Aggregates
  {
    Aggregates(Total(data, P0Q0), Total(data, P1Q0), Total(data, P0Q1), Total(data, P1Q1))
  }

  /** Laspeyres: current prices over base prices, both weighted by base quantities. */
  function LaspeyresIndex(s: Aggregates): (l: real)
    requires s.p0q0 != 0.0
    ensures l * s.p0q0 == s.p1q0 * 100.0
  {
    MulDiv(s.p1q0, s.p0q0);
    (s.p1q0 / s.p0q0) * 100.0
  }

  /** Paasche: current prices over base prices, both weighted by current quantities. */
  function PaascheIndex(s: Aggregates): (p: real)
    requires s.p0q1 != 0.0
    ensures p * s.p0q1 == s.p1q1 * 100.0
  {
    MulDiv(s.p1q1, s.p0q1);
    (s.p1q1 / s.p0q1) * 100.0
  }

  /** The value index ΣP1Q1 / ΣP0Q0 * 100. */
  function ValueIndex(s: Aggregates): (v: real)
    requires s.p0q0 != 0.0
    ensures v * s.p0q0 == s.p1q1 * 100.0
  {
    MulDiv(s.p1q1, s.p0q0);
    (s.p1q1 / s.p0q0) * 100.0
  }

  /** The argument of the square root in the reversed Fisher index (periods swapped). */
  function ReversedRatio(s: Aggregates): real
    requires s.p1q1 != 0.0 && s.p1q0 != 0.0
  {
    (s.p0q1 / s.p1q1) * (s.p0q0 / s.p1q0)
  }

  /** The argument of the square root in the Fisher quantity index (prices and quantities swapped). */
  function QuantityRatio(s: Aggregates): real
    requires s.p0q0 != 0.0 && s.p1q0 != 0.0
  {
    (s.p0q1 / s.p0q0) * (s.p1q1 / s.p1q0)
  }

  /** What Fisher needs to be a real number: no aggregate is zero and no square root is taken
      of a negative number. */
  predicate FisherDefined(s: Aggregates)
  {
    s.p0q0 != 0.0 && s.p1q0 != 0.0 && s.p0q1 != 0.0 && s.p1q1 != 0.0 &&
    LaspeyresIndex(s) * PaascheIndex(s) >= 0.0 &&
    ReversedRatio(s) >= 0.0 && QuantityRatio(s) >= 0.0
  }

  /** Fisher's ideal index, the geometric mean of Laspeyres and Paasche. */
  function FisherIndex(s: Aggregates, sqrt: real -> real): (f: real)
    requires IsSqrt(sqrt) && FisherDefined(s)
    ensures f >= 0.0 && f * f == LaspeyresIndex(s) * PaascheIndex(s)
  {
    sqrt(LaspeyresIndex(s) * PaascheIndex(s))
  }

  /** Fisher with base and current periods swapped. */
  function FisherReversed(s: Aggregates, sqrt: real -> real): (f: real)
    requires IsSqrt(sqrt) && FisherDefined(s)
    ensures f >= 0.0
  {
    sqrt(ReversedRatio(s)) * 100.0
  }

  /** Fisher's quantity index. */
  function FisherQuantity(s: Aggregates, sqrt: real -> real): (f: real)
    requires IsSqrt(sqrt) && FisherDefined(s)
    ensures f >= 0.0
  {
    sqrt(QuantityRatio(s)) * 100.0
  }

  /** Time reversal test: P01 * P10 is within 0.01 of 1. */
  function TimeReversalPasses(s: Aggregates, sqrt: real -> real): bool
    requires IsSqrt(sqrt) && FisherDefined(s)
  {
    Abs((FisherIndex(s, sqrt) / 100.0) * (FisherReversed(s, sqrt) / 100.0) - 1.0) < 0.01
  }

  /** Factor reversal test: price index times quantity index is within 0.01 of the value index. */
  function FactorReversalPasses(s: Aggregates, sqrt: real -> real): bool
    requires IsSqrt(sqrt) && FisherDefined(s)
  {
    Abs((FisherIndex(s, sqrt) / 100.0) * (FisherQuantity(s, sqrt) / 100.0) - ValueIndex(s) / 100.0) < 0.01
  }

  /** Every aggregate is positive, as it is for positive prices and quantities. */
  predicate AllPositive(s: Aggregates)
  {
    s.p0q0 > 0.0 && s.p1q0 > 0.0 && s.p0q1 > 0.0 && s.p1q1 > 0.0
  }

  /** A ratio of positive numbers is positive. */
  lemma RatioPositive(x: real, y: real)
    requires x > 0.0 && y > 0.0
    ensures x / y > 0.0
  {
  }

  /** Positive aggregates make every Fisher quantity a real number. */
  lemma PositiveDefined(s: Aggregates)
    requires AllPositive(s)
    ensures FisherDefined(s)
  {
    RatioPositive(s.p1q0, s.p0q0);
    RatioPositive(s.p1q1, s.p0q1);
    MulPositive(LaspeyresIndex(s), PaascheIndex(s));
    RatioPositive(s.p0q1, s.p1q1);
    RatioPositive(s.p0q0, s.p1q0);
    MulPositive(s.p0q1 / s.p1q1, s.p0q0 / s.p1q0);
    RatioPositive(s.p0q1, s.p0q0);
    RatioPositive(s.p1q1, s.p1q0);
    MulPositive(s.p0q1 / s.p0q0, s.p1q1 / s.p1q0);
  }

  /** Laspeyres * Paasche * reversed ratio == 10000: the ratios cancel in pairs. */
  lemma TimeRatios(a: real, b: real, c: real, d: real, l: real, p: real, r: real)
    requires a != 0.0 && b != 0.0 && c != 0.0 && d != 0.0
    requires l == (b / a) * 100.0 && p == (d / c) * 100.0 && r == (c / d) * (a / b)
    ensures l * p * r == 10000.0
  {
    var u, u', v, v' := b / a, a / b, d / c, c / d;
    Reciprocal(a, b);
    Reciprocal(c, d);
    assert (u * 100.0) * (v * 100.0) * (v' * u') == 10000.0 * ((u * u') * (v * v'));
    OneTimesOne(u * u', v * v');
  }

  /** Laspeyres * Paasche * quantity ratio == value index squared. */
  lemma FactorRatios(a: real, b: real, c: real, d: real, l: real, p: real, q: real, v: real)
    requires a != 0.0 && b != 0.0 && c != 0.0 && d != 0.0
    requires l == (b / a) * 100.0 && p == (d / c) * 100.0 && q == (c / a) * (d / b) && v == (d / a) * 100.0
    ensures l * p * q == v * v
  {
    var x, y, z, w := b / a, d / c, c / a, d / b;
    assert x * w == d / a;
    assert y * z == d / a;
    assert (x * 100.0) * (y * 100.0) * (z * w) == ((x * w) * 100.0) * ((y * z) * 100.0);
  }

  /** Two roots multiply to the root of the product. */
  lemma ProductOfSquares(f: real, g: real, x: real, y: real)
    requires f * f == x && g * g == y
    ensures (f * g) * (f * g) == x * y
  {
    assert (f * g) * (f * g) == (f * f) * (g * g);
  }

  /** From f g == w and h == g * 100: (f / 100) * (h / 100) == w / 100. */
  lemma ScaledProduct(f: real, g: real, h: real, w: real)
    requires f * g == w && h == g * 100.0
    ensures (f / 100.0) * (h / 100.0) == w / 100.0
  {
  }

  /** The reversed Fisher index is 100 times a root of the reversed ratio. */
  lemma ReversedRoot(s: Aggregates, sqrt: real -> real) returns (g: real)
    requires IsSqrt(sqrt) && FisherDefined(s)
    ensures g >= 0.0 && g * g == ReversedRatio(s) && FisherReversed(s, sqrt) == g * 100.0
  {
    g := sqrt(ReversedRatio(s));
  }

  /** The Fisher quantity index is 100 times a root of the quantity ratio. */
  lemma QuantityRoot(s: Aggregates, sqrt: real -> real) returns (g: real)
    requires IsSqrt(sqrt) && FisherDefined(s)
    ensures g >= 0.0 && g * g == QuantityRatio(s) && FisherQuantity(s, sqrt) == g * 100.0
  {
    g := sqrt(QuantityRatio(s));
  }

  /** The time reversal identity on plain numbers: f and g the roots of l p and r. */
  lemma TimeReversalCore(a: real, b: real, c: real, d: real, l: real, p: real, r: real, f: real, g: real, h: real)
    requires a > 0.0 && b > 0.0 && c > 0.0 && d > 0.0
    requires l == (b / a) * 100.0 && p == (d / c) * 100.0 && r == (c / d) * (a / b)
    requires f >= 0.0 && f * f == l * p && g >= 0.0 && g * g == r && h == g * 100.0
    ensures (f / 100.0) * (h / 100.0) == 1.0
  {
    ProductOfSquares(f, g, l * p, r);
    TimeRatios(a, b, c, d, l, p, r);
    MulNonNegative(f, g);
    RootUnique(f * g, 100.0);
    ScaledProduct(f, g, h, 100.0);
  }

  /** Time reversal: with positive aggregates, Fisher for (0 -> 1) times Fisher for (1 -> 0) is
      exactly 1, so the test always passes. */
  lemma TimeReversal(s: Aggregates, sqrt: real -> real)
    requires IsSqrt(sqrt) && AllPositive(s)
    ensures FisherDefined(s)
    ensures (FisherIndex(s, sqrt) / 100.0) * (FisherReversed(s, sqrt) / 100.0) == 1.0
    ensures TimeReversalPasses(s, sqrt)
  {
    PositiveDefined(s);
    var r := ReversedRatio(s);
    var g := ReversedRoot(s, sqrt);
    TimeReversalCore(s.p0q0, s.p1q0, s.p0q1, s.p1q1, LaspeyresIndex(s), PaascheIndex(s), r,
      FisherIndex(s, sqrt), g, FisherReversed(s, sqrt));
    AbsOfEqual((FisherIndex(s, sqrt) / 100.0) * (FisherReversed(s, sqrt) / 100.0), 1.0);
  }

  /** The factor reversal identity on plain numbers: f and g the roots of l p and q. */
  lemma FactorReversalCore(a: real, b: real, c: real, d: real, l: real, p: real, q: real, v: real,
                           f: real, g: real, h: real)
    requires a > 0.0 && b > 0.0 && c > 0.0 && d > 0.0
    requires l == (b / a) * 100.0 && p == (d / c) * 100.0 && q == (c / a) * (d / b) && v == (d / a) * 100.0
    requires f >= 0.0 && f * f == l * p && g >= 0.0 && g * g == q && h == g * 100.0
    ensures (f / 100.0) * (h / 100.0) == v / 100.0
  {
    ProductOfSquares(f, g, l * p, q);
    FactorRatios(a, b, c, d, l, p, q, v);
    MulNonNegative(f, g);
    RatioPositive(d, a);
    RootUnique(f * g, v);
    ScaledProduct(f, g, h, v);
  }

  /** Factor reversal: with positive aggregates, the Fisher price index times the Fisher quantity
      index is exactly the value index, so the test always passes. */
  lemma FactorReversal(s: Aggregates, sqrt: real -> real)
    requires IsSqrt(sqrt) && AllPositive(s)
    ensures FisherDefined(s)
    ensures (FisherIndex(s, sqrt) / 100.0) * (FisherQuantity(s, sqrt) / 100.0) == ValueIndex(s) / 100.0
    ensures FactorReversalPasses(s, sqrt)
  {
    PositiveDefined(s);
    var q, v := QuantityRatio(s), ValueIndex(s);
    var g := QuantityRoot(s, sqrt);
    FactorReversalCore(s.p0q0, s.p1q0, s.p0q1, s.p1q1, LaspeyresIndex(s), PaascheIndex(s), q, v,
      FisherIndex(s, sqrt), g, FisherQuantity(s, sqrt));
    AbsOfEqual((FisherIndex(s, sqrt) / 100.0) * (FisherQuantity(s, sqrt) / 100.0), ValueIndex(s) / 100.0);
  }

  /** Fisher lies between Laspeyres and Paasche when both are non-negative. */
  lemma FisherBetween(s: Aggregates, sqrt: real -> real)
    requires IsSqrt(sqrt) && FisherDefined(s)
    requires LaspeyresIndex(s) >= 0.0 && PaascheIndex(s) >= 0.0
    ensures LaspeyresIndex(s) <= PaascheIndex(s) ==>
      LaspeyresIndex(s) <= FisherIndex(s, sqrt) <= PaascheIndex(s)
    ensures PaascheIndex(s) <= LaspeyresIndex(s) ==>
      PaascheIndex(s) <= FisherIndex(s, sqrt) <= LaspeyresIndex(s)
  {
    var l, p, f := LaspeyresIndex(s), PaascheIndex(s), FisherIndex(s, sqrt);
    GeometricMeanBetween(l, p, f);
    GeometricMeanBetween(p, l, f);
  }

  /** A non-negative f with f * f == lo * hi lies between lo and hi. */
  lemma GeometricMeanBetween(lo: real, hi: real, f: real)
    requires 0.0 <= f && 0.0 <= lo && 0.0 <= hi
    requires f * f == lo * hi || f * f == hi * lo
    ensures lo <= hi ==> lo <= f <= hi
  {
    if lo <= hi {
      MulLeftLeq(lo, lo, hi);
      MulLeftLeq(hi, lo, hi);
      RootMonotone(lo, f);
      RootMonotone(f, hi);
    }
  }

  // ---------------------------------------------------------------------------
  // The index of the chosen method, and the whole calculation
  // ---------------------------------------------------------------------------

  /** What the chosen method divides by is non-zero (and, for Fisher, no root of a negative). */
  predicate IndexDefined(data: seq<Commodity>, kind: IndexMethod)
  {
    match kind
    case SimpleAggregative => Total(data, P0) != 0.0
    case SimpleAverage => |data| > 0 && NonZeroBasePrices(data)
    case Laspeyres => Total(data, P0Q0) != 0.0
    case Paasche => Total(data, P0Q1) != 0.0
    case MarshallEdgeworth => Total(data, P0Q0Q1) != 0.0
    case Fisher => FisherDefined(AggregatesOf(data))
  }

  /** Simple aggregative: the current price total over the base price total. */
  function SimpleAggregativeIndex(data: seq<Commodity>): (v: real)
    requires Total(data, P0) != 0.0
    ensures v * Total(data, P0) == Total(data, P1) * 100.0
  {
    MulDiv(Total(data, P1), Total(data, P0));
    (Total(data, P1) / Total(data, P0)) * 100.0
  }

  /** Simple average of relatives: the mean of the price relatives. */
  function SimpleAverageIndex(data: seq<Commodity>): (v: real)
    requires |data| > 0 && NonZeroBasePrices(data)
    ensures v * |data| as real == Sum(PriceRelatives(data))
  {
    MulDiv(Sum(PriceRelatives(data)), |data| as real);
    Sum(PriceRelatives(data)) / |data| as real
  }

  /** Marshall–Edgeworth: current prices over base prices, both weighted by q0 + q1. */
  function MarshallEdgeworthIndex(data: seq<Commodity>): (v: real)
    requires Total(data, P0Q0Q1) != 0.0
    ensures v * Total(data, P0Q0Q1) == Total(data, P1Q0Q1) * 100.0
  {
    MulDiv(Total(data, P1Q0Q1), Total(data, P0Q0Q1));
    (Total(data, P1Q0Q1) / Total(data, P0Q0Q1)) * 100.0
  }

  /** The unrounded index value of each method. */
  function IndexValue(data: seq<Commodity>, kind: IndexMethod, sqrt: real -> real): real
    requires IsSqrt(sqrt) && IndexDefined(data, kind)
  {
    match kind
    case SimpleAggregative => SimpleAggregativeIndex(data)
    case SimpleAverage => SimpleAverageIndex(data)
    case Laspeyres => LaspeyresIndex(AggregatesOf(data))
    case Paasche => PaascheIndex(AggregatesOf(data))
    case MarshallEdgeworth => MarshallEdgeworthIndex(data)
    case Fisher => FisherIndex(AggregatesOf(data), sqrt)
  }

  /** One row of the details table: the input, its four products and its price relative, the
      last five rounded to two decimals. */
  datatype ItemDetailRow = ItemDetailRow(
    item: string, p0: real, q0: real, p1: real, q1: real,
    p0q0: real, p1q0: real, p0q1: real, p1q1: real, priceRelative: real)

  /** The totals row: ΣP0 and ΣP1 as summed, the product sums and the mean price relative rounded. */
  datatype Totals = Totals(
    sumP0: real, sumP1: real, sumP0Q0: real, sumP1Q0: real, sumP0Q1: real, sumP1Q1: real,
    avgPriceRelative: real)

  /** The results: the index rounded to two decimals, the details and totals, and for Fisher
      whether the two reversal tests pass. */
  datatype IndexResult = IndexResult(
    indexValue: real, details: seq<ItemDetailRow>, totals: Totals,
    timeReversal: Option<bool>, factorReversal: Option<bool>)

  /** Pow(10, 2) is 100: rounding to two decimals works on steps of 1/100. */
  lemma HundredthSteps()
    ensures Pow(10.0, 2) == 100.0
  {
  }

  /** A details row for item d: d's own fields, then its four products and its price relative,
      each rounded to two decimals. */
  predicate DetailOf(d: Commodity, row: ItemDetailRow)
    requires d.p0 != 0.0
  {
    row.item == d.item && row.p0 == d.p0 && row.q0 == d.q0 && row.p1 == d.p1 && row.q1 == d.q1 &&
    RoundsTo(d.p0 * d.q0, 100.0, row.p0q0) && RoundsTo(d.p1 * d.q0, 100.0, row.p1q0) &&
    RoundsTo(d.p0 * d.q1, 100.0, row.p0q1) && RoundsTo(d.p1 * d.q1, 100.0, row.p1q1) &&
    RoundsTo((d.p1 / d.p0) * 100.0, 100.0, row.priceRelative)
  }

  /** One row of the details table. */
  function ItemDetail(d: Commodity): (row: ItemDetailRow)
    requires d.p0 != 0.0
    ensures DetailOf(d, row)
  {
    HundredthSteps();
    ItemDetailRow(d.item, d.p0, d.q0, d.p1, d.q1,
      Round(d.p0 * d.q0, 2), Round(d.p1 * d.q0, 2), Round(d.p0 * d.q1, 2), Round(d.p1 * d.q1, 2),
      Round((d.p1 / d.p0) * 100.0, 2))
  }

  /** The details table: each item's input, its four products and its price relative, the last
      five rounded to two decimals. */
  function Details(data: seq<Commodity>): (rows: seq<ItemDetailRow>)
    requires NonZeroBasePrices(data)
    ensures |rows| == |data|
    ensures forall i :: 0 <= i < |data| ==> DetailOf(data[i], rows[i])
  {
    seq(|data|, i requires 0 <= i < |data| => ItemDetail(data[i]))
  }

  /** The totals row: ΣP0 and ΣP1 as summed; the product sums and the mean price relative rounded
      to two decimals. */
  function TotalsOf(data: seq<Commodity>): (t: Totals)
    requires data != [] && NonZeroBasePrices(data)
    ensures t.sumP0 == Total(data, P0) && t.sumP1 == Total(data, P1)
    ensures RoundsTo(Total(data, P0Q0), 100.0, t.sumP0Q0) && RoundsTo(Total(data, P1Q0), 100.0, t.sumP1Q0)
    ensures RoundsTo(Total(data, P0Q1), 100.0, t.sumP0Q1) && RoundsTo(Total(data, P1Q1), 100.0, t.sumP1Q1)
    ensures RoundsTo(Mean(PriceRelatives(data)), 100.0, t.avgPriceRelative)
  {
    HundredthSteps();
    var relatives := PriceRelatives(data);
    Totals(
      Total(data, P0), Total(data, P1),
      Round(Total(data, P0Q0), 2), Round(Total(data, P1Q0), 2),
      Round(Total(data, P0Q1), 2), Round(Total(data, P1Q1), 2),
      Round(Sum(relatives) / |relatives| as real, 2))
  }

  /** `calculateIndex`: nothing for no data; otherwise the index of the chosen method, the details
      table (one row per item, in input order), the totals and, for Fisher only, the reversal tests.
      Price relatives are computed for every method, so every base price must be non-zero. */
  function CalculateIndex(data: seq<Commodity>, kind: IndexMethod, sqrt: real -> real): (r: Option<IndexResult>)
    requires IsSqrt(sqrt)
    requires data != [] ==> NonZeroBasePrices(data) && IndexDefined(data, kind)
    ensures r.None? <==> data == []
    ensures r.Some? ==> r.value.indexValue == Round(IndexValue(data, kind, sqrt), 2)
    ensures r.Some? ==> |r.value.details| == |data|
    ensures r.Some? ==> forall i :: 0 <= i < |data| ==> DetailOf(data[i], r.value.details[i])
    ensures r.Some? ==>
      r.value.totals.sumP0 == Total(data, P0) && r.value.totals.sumP1 == Total(data, P1) &&
      RoundsTo(Total(data, P0Q0), 100.0, r.value.totals.sumP0Q0) &&
      RoundsTo(Total(data, P1Q0), 100.0, r.value.totals.sumP1Q0) &&
      RoundsTo(Total(data, P0Q1), 100.0, r.value.totals.sumP0Q1) &&
      RoundsTo(Total(data, P1Q1), 100.0, r.value.totals.sumP1Q1) &&
      RoundsTo(Mean(PriceRelatives(data)), 100.0, r.value.totals.avgPriceRelative)
    ensures r.Some? ==> (r.value.timeReversal.Some? <==> kind == Fisher)
    ensures r.Some? ==> (r.value.factorReversal.Some? <==> kind == Fisher)
    ensures r.Some? && kind == Fisher ==>
      r.value.timeReversal == Some(TimeReversalPasses(AggregatesOf(data), sqrt)) &&
      r.value.factorReversal == Some(FactorReversalPasses(AggregatesOf(data), sqrt))
  {
    if data == [] then None
    else
      var s := AggregatesOf(data);
      var details, totals := Details(data), TotalsOf(data);
      var timeReversal := if kind == Fisher then Some(TimeReversalPasses(s, sqrt)) else None;
      var factorReversal := if kind == Fisher then Some(FactorReversalPasses(s, sqrt)) else None;
      Some(IndexResult(Round(IndexValue(data, kind, sqrt), 2), details, totals, timeReversal, factorReversal))
  }

  // ---------------------------------------------------------------------------
  // Properties of the calculation
  // ---------------------------------------------------------------------------

  /** With positive aggregates, both Fisher tests report a pass. */
  lemma FisherTestsPass(data: seq<Commodity>, sqrt: real -> real)
    requires IsSqrt(sqrt) && data != [] && NonZeroBasePrices(data) && AllPositive(AggregatesOf(data))
    ensures IndexDefined(data, Fisher)
    ensures CalculateIndex(data, Fisher, sqrt).Some?
    ensures CalculateIndex(data, Fisher, sqrt).value.timeReversal == Some(true)
    ensures CalculateIndex(data, Fisher, sqrt).value.factorReversal == Some(true)
  {
    TimeReversal(AggregatesOf(data), sqrt);
    FactorReversal(AggregatesOf(data), sqrt);
  }

  /** x / x * 100 == 100. */
  lemma SelfRatio(x: real, y: real)
    requires x != 0.0 && x == y
    ensures (y / x) * 100.0 == 100.0
  {
  }

  /** When every current price equals its base price, each current-price column repeats the
      matching base-price column. */
  lemma UnchangedPriceColumns(data: seq<Commodity>)
    requires forall i :: 0 <= i < |data| ==> data[i].p1 == data[i].p0
    ensures Total(data, P1) == Total(data, P0)
    ensures Total(data, P1Q0) == Total(data, P0Q0)
    ensures Total(data, P1Q1) == Total(data, P0Q1)
    ensures Total(data, P1Q0Q1) == Total(data, P0Q0Q1)
  {
    forall i | 0 <= i < |data|
      ensures ItemColumn(data, P1Q0)[i] == ItemColumn(data, P0Q0)[i]
      ensures ItemColumn(data, P1Q1)[i] == ItemColumn(data, P0Q1)[i]
      ensures ItemColumn(data, P1Q0Q1)[i] == ItemColumn(data, P0Q0Q1)[i]
    {
      var d := data[i];
      SameProduct(d.q0, d.p0, d.p1);
      SameProduct(d.q1, d.p0, d.p1);
      SameProduct(d.q0 + d.q1, d.p0, d.p1);
    }
    assert ItemColumn(data, P1) == ItemColumn(data, P0);
    assert ItemColumn(data, P1Q0) == ItemColumn(data, P0Q0);
    assert ItemColumn(data, P1Q1) == ItemColumn(data, P0Q1);
    assert ItemColumn(data, P1Q0Q1) == ItemColumn(data, P0Q0Q1);
  }

  /** When every current price equals its base price, every price relative is 100 and so is
      their mean. */
  lemma UnchangedPriceRelatives(data: seq<Commodity>)
    requires |data| > 0 && NonZeroBasePrices(data)
    requires forall i :: 0 <= i < |data| ==> data[i].p1 == data[i].p0
    ensures Sum(PriceRelatives(data)) / |data| as real == 100.0
  {
    var r := PriceRelatives(data);
    forall i | 0 <= i < |r|
      ensures r[i] == 0.0 * r[i] + 0.0 * r[i] + 100.0
    {
      SelfRatio(data[i].p0, data[i].p1);
    }
    SumAffine(r, r, r, 0.0, 0.0, 100.0);
    MulDiv(100.0, |data| as real);
  }

  /** The root of 100 * 100 is 100. */
  lemma RootOfTenThousand(f: real, l: real, p: real)
    requires f >= 0.0 && f * f == l * p && l == 100.0 && p == 100.0
    ensures f == 100.0
  {
    RootUnique(f, 100.0);
  }

  /** Unit test: when every current price equals its base price, every method gives 100. */
  lemma UnitTest(data: seq<Commodity>, kind: IndexMethod, sqrt: real -> real)
    requires IsSqrt(sqrt) && IndexDefined(data, kind)
    requires forall i :: 0 <= i < |data| ==> data[i].p1 == data[i].p0
    ensures IndexValue(data, kind, sqrt) == 100.0
  {
    UnchangedPriceColumns(data);
    var s := AggregatesOf(data);
    match kind {
      case SimpleAggregative =>
        SelfRatio(Total(data, P0), Total(data, P1));
      case SimpleAverage =>
        UnchangedPriceRelatives(data);
      case Laspeyres =>
        SelfRatio(s.p0q0, s.p1q0);
      case Paasche =>
        SelfRatio(s.p0q1, s.p1q1);
      case MarshallEdgeworth =>
        SelfRatio(Total(data, P0Q0Q1), Total(data, P1Q0Q1));
      case Fisher =>
        SelfRatio(s.p0q0, s.p1q0);
        SelfRatio(s.p0q1, s.p1q1);
        RootOfTenThousand(FisherIndex(s, sqrt), LaspeyresIndex(s), PaascheIndex(s));
    }
  }

  /** p (q + q') == 2 (p q) when q' == q. */
  lemma Doubled(p: real, q: real, q': real)
    requires q' == q
    ensures p * (q + q') == 2.0 * (p * q)
  {
  }

  /** Equal factors give equal products, in either order. */
  lemma SameProduct(p: real, q: real, q': real)
    requires q' == q
    ensures p * q' == p * q && q' * p == q * p
  {
  }

  /** (2 x) / (2 y) == x / y. */
  lemma DoubledRatio(x: real, y: real, x2: real, y2: real)
    requires y != 0.0 && x2 == 2.0 * x && y2 == 2.0 * y
    ensures (x2 / y2) * 100.0 == (x / y) * 100.0
  {
  }

  /** When quantities do not change, the current-quantity columns repeat the base ones. */
  lemma SameQuantityColumns(data: seq<Commodity>)
    requires forall i :: 0 <= i < |data| ==> data[i].q1 == data[i].q0
    ensures ItemColumn(data, P0Q1) == ItemColumn(data, P0Q0)
    ensures ItemColumn(data, P1Q1) == ItemColumn(data, P1Q0)
  {
    forall i | 0 <= i < |data|
      ensures ItemColumn(data, P0Q1)[i] == ItemColumn(data, P0Q0)[i]
      ensures ItemColumn(data, P1Q1)[i] == ItemColumn(data, P1Q0)[i]
    {
      SameProduct(data[i].p0, data[i].q0, data[i].q1);
      SameProduct(data[i].p1, data[i].q0, data[i].q1);
    }
  }

  /** When quantities do not change, the Marshall-Edgeworth weights are twice the base ones. */
  lemma DoubledColumn(data: seq<Commodity>, t: Term, base: Term)
    requires forall i :: 0 <= i < |data| ==> data[i].q1 == data[i].q0
    requires (t == P0Q0Q1 && base == P0Q0) || (t == P1Q0Q1 && base == P1Q0)
    ensures Total(data, t) == 2.0 * Total(data, base)
  {
    var b := ItemColumn(data, base);
    forall i | 0 <= i < |data|
      ensures ItemColumn(data, t)[i] == 2.0 * b[i] + 0.0 * b[i] + 0.0
    {
      var d := data[i];
      if t == P0Q0Q1 {
        Doubled(d.p0, d.q0, d.q1);
      } else {
        Doubled(d.p1, d.q0, d.q1);
      }
    }
    SumAffine(b, b, ItemColumn(data, t), 2.0, 0.0, 0.0);
  }

  /** When quantities do not change, Marshall-Edgeworth, Laspeyres and Paasche coincide. */
  lemma SameQuantities(data: seq<Commodity>)
    requires forall i :: 0 <= i < |data| ==> data[i].q1 == data[i].q0
    requires IndexDefined(data, MarshallEdgeworth)
    ensures AggregatesOf(data).p0q0 != 0.0 && AggregatesOf(data).p0q1 != 0.0
    ensures (Total(data, P1Q0Q1) / Total(data, P0Q0Q1)) * 100.0 == LaspeyresIndex(AggregatesOf(data))
    ensures LaspeyresIndex(AggregatesOf(data)) == PaascheIndex(AggregatesOf(data))
  {
    SameQuantityColumns(data);
    DoubledColumn(data, P0Q0Q1, P0Q0);
    DoubledColumn(data, P1Q0Q1, P1Q0);
    DoubledRatio(Total(data, P1Q0), Total(data, P0Q0), Total(data, P1Q0Q1), Total(data, P0Q0Q1));
  }

  // ---------------------------------------------------------------------------
  // Worked examples
  // ---------------------------------------------------------------------------

  /** The practice problem: items X and Y. */
  const PracticeData: seq<Commodity> :=
    [Commodity("X", 5.0, 20.0, 8.0, 25.0), Commodity("Y", 10.0, 15.0, 12.0, 18.0)]

  /** Its aggregates are 250, 340, 305 and 416; Laspeyres is 136 and Paasche rounds to 136.39. */
  lemma PracticeIndices()
    ensures AggregatesOf(PracticeData) == Aggregates(250.0, 340.0, 305.0, 416.0)
    ensures LaspeyresIndex(AggregatesOf(PracticeData)) == 136.0
    ensures Round(PaascheIndex(AggregatesOf(PracticeData)), 2) == 136.39
  {
    assert ItemColumn(PracticeData, P0Q0) == [100.0, 150.0];
    assert ItemColumn(PracticeData, P1Q0) == [160.0, 180.0];
    assert ItemColumn(PracticeData, P0Q1) == [125.0, 180.0];
    assert ItemColumn(PracticeData, P1Q1) == [200.0, 216.0];
    SumLiterals(100.0, 150.0, 0.0, 0.0, 0.0);
    SumLiterals(160.0, 180.0, 0.0, 0.0, 0.0);
    SumLiterals(125.0, 180.0, 0.0, 0.0, 0.0);
    SumLiterals(200.0, 216.0, 0.0, 0.0, 0.0);
  }

  /** The sample data set of five items. */
  const SampleData: seq<Commodity> := [
    Commodity("A", 10.0, 100.0, 12.0, 105.0),
    Commodity("B", 20.0, 80.0, 25.0, 85.0),
    Commodity("C", 15.0, 120.0, 18.0, 115.0),
    Commodity("D", 30.0, 60.0, 35.0, 65.0),
    Commodity("E", 25.0, 90.0, 28.0, 95.0)]

  /** Its aggregates ΣP1Q0 and ΣP0Q0 are 9980 and 8450. */
  lemma SampleAggregates()
    ensures Total(SampleData, P1Q0) == 9980.0 && Total(SampleData, P0Q0) == 8450.0
  {
    assert ItemColumn(SampleData, P1Q0) == [1200.0, 2000.0, 2160.0, 2100.0, 2520.0];
    assert ItemColumn(SampleData, P0Q0) == [1000.0, 1600.0, 1800.0, 1800.0, 2250.0];
    SumLiterals(1200.0, 2000.0, 2160.0, 2100.0, 2520.0);
    SumLiterals(1000.0, 1600.0, 1800.0, 1800.0, 2250.0);
  }

  /** Its Laspeyres index is 9980 / 8450 * 100, reported as 118.11. */
  lemma SampleLaspeyres(sqrt: real -> real)
    requires IsSqrt(sqrt)
    ensures NonZeroBasePrices(SampleData) && IndexDefined(SampleData, Laspeyres)
    ensures CalculateIndex(SampleData, Laspeyres, sqrt).Some?
    ensures CalculateIndex(SampleData, Laspeyres, sqrt).value.indexValue == 118.11
  {
    SampleAggregates();
    assert LaspeyresIndex(AggregatesOf(SampleData)) == (9980.0 / 8450.0) * 100.0;
    assert Round((9980.0 / 8450.0) * 100.0, 2) == 118.11;
  }
}
