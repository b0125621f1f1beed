/**
 * Pricing estimate (lib/analysis/pricing.ts).
 *
 * A tier's base monthly and implementation ranges are scaled by a complexity
 * multiplier `1 + overall / 200` and by an integration (monthly) or migration
 * (implementation) adjustment, then rounded with `Math.round`. The confidence
 * label comes from the population variance of the four sub-scores and from
 * whether the budget and investment timeline answers are definite.
 *
 * Prices are computed here over exact reals; see the README for where the
 * source's doubles can round differently.
 */
module Pricing {
  import opened Numeric
  import opened QuoteTypes

  datatype PriceRange = PriceRange(min: int, max: int)

  /** Monthly base range of each tier. */
  function BasePricing(tier: ServiceTier): (range: PriceRange)
    ensures 0 < range.min < range.max
  {
    match tier
    case Starter => PriceRange(2500, 5000)
    case Growth => PriceRange(5000, 10000)
    case Scale => PriceRange(10000, 25000)
    case Enterprise => PriceRange(25000, 75000)
  }

  /** Implementation base range of each tier. */
  function ImplementationPricing(tier: ServiceTier): (range: PriceRange)
    ensures 0 < range.min < range.max
  {
    match tier
    case Starter => PriceRange(5000, 15000)
    case Growth => PriceRange(15000, 35000)
    case Scale => PriceRange(35000, 75000)
    case Enterprise => PriceRange(75000, 200000)
  }

  /** Each tier's base ranges start where the previous tier's end. */
  lemma BaseRangesAreContiguous(t: ServiceTier, u: ServiceTier)
    requires u.Rank() == t.Rank() + 1
    ensures BasePricing(t).max == BasePricing(u).min
    ensures ImplementationPricing(t).max == ImplementationPricing(u).min
  {
  }

  /** Monthly factor for integration needs; an unlisted answer gives 1.0. */
  function IntegrationAdjustment(c: Coded<IntegrationNeeds>): (factor: real)
    ensures 1.0 <= factor <= 1.5
    ensures c.Unknown? ==> factor == 1.0
  {
    match c
    case Known(NoIntegration) => 1.0
    case Known(BasicIntegration) => 1.1
    case Known(ModerateIntegration) => 1.25
    case Known(ComplexIntegration) => 1.5
    case Unknown(_) => 1.0
  }

  /** Implementation factor for data migration; an unlisted answer gives 1.0. */
  function MigrationAdjustment(c: Coded<DataMigration>): (factor: real)
    ensures 1.0 <= factor <= 1.6
    ensures c.Unknown? ==> factor == 1.0
  {
    match c
    case Known(NoMigration) => 1.0
    case Known(SmallMigration) => 1.1
    case Known(MediumMigration) => 1.25
    case Known(LargeMigration) => 1.4
    case Known(EnterpriseMigration) => 1.6
    case Unknown(_) => 1.0
  }

  /** `1 + overall / 200`: between 1 and 1.5 for an overall score in [0, 100]. */
  function ComplexityMultiplier(overall: int): (m: real)
    ensures 0 <= overall <= 100 ==> 1.0 <= m <= 1.5
    ensures overall >= -200 ==> m >= 0.0
  {
    1.0 + overall as real / 200.0
  }

  /** `Math.round(base * multiplier * adjustment)`. */
  function ScaledPrice(base: int, multiplier: real, adjustment: real): int {
    Round(base as real * multiplier * adjustment)
  }

  /** Products of non-negative factors grow with each factor. */
  lemma ProductMonotone(a: real, a': real, b: real, b': real)
    requires 0.0 <= a <= a' && 0.0 <= b <= b'
    ensures a * b <= a' * b'
  {
    assert a * b <= a' * b;
    assert a' * b <= a' * b';
  }

  /** A scaled price grows with the base and with the multiplier. */
  lemma ScaledPriceMonotone(base: int, base': int, m: real, m': real, adjustment: real)
    requires 0 <= base <= base' && 0.0 <= m <= m' && adjustment >= 0.0
    ensures ScaledPrice(base, m, adjustment) <= ScaledPrice(base', m', adjustment)
  {
    ProductMonotone(base as real, base' as real, m, m');
    ProductMonotone(base as real * m, base' as real * m', adjustment, adjustment);
    RoundMonotone(base as real * m * adjustment, base' as real * m' * adjustment);
  }

  // ---- Confidence ----

  /** `values.reduce((sum, v) => sum + v, 0)`. */
  function Sum(values: seq<real>): real {
    if values == [] then 0.0 else Sum(values[..|values| - 1]) + values[|values| - 1]
  }

  /** `values.reduce((sum, v) => sum + (v - mean) ** 2, 0)`. */
  function SumSquaredDeviation(values: seq<real>, mean: real): real {
    if values == [] then 0.0
    else
      var d := values[|values| - 1] - mean;
      SumSquaredDeviation(values[..|values| - 1], mean) + d * d
  }

  /** The population variance of a non-empty list. */
  function Variance(values: seq<real>): real
    requires |values| > 0
  {
    var mean := Sum(values) / |values| as real;
    SumSquaredDeviation(values, mean) / |values| as real
  }

  function Square(x: int): (sq: int)
    ensures sq >= 0
  {
    if x >= 0 then x * x else (-x) * (-x)
  }

  /** 64 times the variance of the four sub-scores, as an integer: the sum of (4v - S)^2. */
  function ScoreSpread(s: ComplexityScores): (spread: int)
    ensures spread >= 0
  {
    var total := s.revenue + s.customer + s.operational + s.technology;
    Square(4 * s.revenue - total) + Square(4 * s.customer - total)
      + Square(4 * s.operational - total) + Square(4 * s.technology - total)
  }

  function SubScores(s: ComplexityScores): seq<real> {
    [s.revenue as real, s.customer as real, s.operational as real, s.technology as real]
  }

  /** The sum and the squared deviations of a four-element list, written out. */
  lemma {:induction false} FourTermSums(a: real, b: real, c: real, d: real, mean: real)
    ensures Sum([a, b, c, d]) == a + b + c + d
    ensures SumSquaredDeviation([a, b, c, d], mean)
         == (a - mean) * (a - mean) + (b - mean) * (b - mean) + (c - mean) * (c - mean) + (d - mean) * (d - mean)
  {
    assert [a][..0] == [];
    assert Sum([a]) == a;
    assert [a, b][..1] == [a];
    assert Sum([a, b]) == a + b;
    assert [a, b, c][..2] == [a, b];
    assert Sum([a, b, c]) == a + b + c;
    assert [a, b, c, d][..3] == [a, b, c];
    assert SumSquaredDeviation([a], mean) == (a - mean) * (a - mean);
    assert SumSquaredDeviation([a, b], mean) == (a - mean) * (a - mean) + (b - mean) * (b - mean);
    assert SumSquaredDeviation([a, b, c], mean)
        == (a - mean) * (a - mean) + (b - mean) * (b - mean) + (c - mean) * (c - mean);
  }

  /** The variance of the four sub-scores is their spread over 64. */
  lemma VarianceOfSubScores(s: ComplexityScores)
    ensures Variance(SubScores(s)) == ScoreSpread(s) as real / 64.0
  {
    var t := s.revenue + s.customer + s.operational + s.technology;
    var mean := t as real / 4.0;
    VarianceOfFour(s.revenue as real, s.customer as real, s.operational as real, s.technology as real);
    SquareOfQuarter(s.revenue, t);
    SquareOfQuarter(s.customer, t);
    SquareOfQuarter(s.operational, t);
    SquareOfQuarter(s.technology, t);
    var sq := Square(4 * s.revenue - t) as real + Square(4 * s.customer - t) as real
      + Square(4 * s.operational - t) as real + Square(4 * s.technology - t) as real;
    assert Variance(SubScores(s)) == (sq / 16.0) / 4.0;
  }

  /** The variance of four values: the mean squared deviation from their mean. */
  lemma VarianceOfFour(a: real, b: real, c: real, d: real)
    ensures var mean := (a + b + c + d) / 4.0;
      Variance([a, b, c, d])
      == ((a - mean) * (a - mean) + (b - mean) * (b - mean) + (c - mean) * (c - mean) + (d - mean) * (d - mean)) / 4.0
  {
    FourTermSums(a, b, c, d, (a + b + c + d) / 4.0);
  }

  lemma SquareOfQuarter(v: int, total: int)
    ensures (v as real - total as real / 4.0) * (v as real - total as real / 4.0) == Square(4 * v - total) as real / 16.0
  {
    var k := 4 * v - total;
    var x := v as real - total as real / 4.0;
    assert x == k as real / 4.0;
    assert Square(k) == k * k;
    assert (k * k) as real == k as real * k as real;
  }

  function BudgetKnown(r: QuoteResponses): bool {
    r.budget.budgetRange != Known(BudgetUnsure)
  }

  function TimelineKnown(r: QuoteResponses): bool {
    r.budget.investmentTimeline != Known(InvestExploring)
  }

  /**
   * High when the sub-scores agree (variance below 200) and budget and timeline
   * are both definite; medium when either the variance is below 400 or both
   * answers are definite; low otherwise. Stated here through the integer spread.
   */
  function DetermineConfidence(r: QuoteResponses, s: ComplexityScores): (c: Confidence)
    ensures c == High <==> ScoreSpread(s) < 12800 && BudgetKnown(r) && TimelineKnown(r)
    ensures c == Medium <==> c != High && (ScoreSpread(s) < 25600 || (BudgetKnown(r) && TimelineKnown(r)))
    ensures c == Low <==> ScoreSpread(s) >= 25600 && !(BudgetKnown(r) && TimelineKnown(r))
  {
    var scoreVariance := Variance(SubScores(s));
    VarianceOfSubScores(s);
    var budgetKnown := BudgetKnown(r);
    var timelineKnown := TimelineKnown(r);
    if scoreVariance < 200.0 && budgetKnown && timelineKnown then High
    else if scoreVariance < 400.0 || (budgetKnown && timelineKnown) then Medium
    else Low
  }

  // ---- The estimate ----

  function CalculatePricing(r: QuoteResponses, s: ComplexityScores, tier: ServiceTier): (p: PricingEstimate)
    ensures p.tier == tier && p.confidence == DetermineConfidence(r, s)
    ensures s.overall >= -200 ==> p.monthlyMin <= p.monthlyMax && p.implementationMin <= p.implementationMax
    ensures 0 <= s.overall <= 100 ==>
      && BasePricing(tier).min <= p.monthlyMin
      && p.monthlyMax <= Round(BasePricing(tier).max as real * 2.25)
      && ImplementationPricing(tier).min <= p.implementationMin
      && p.implementationMax <= Round(ImplementationPricing(tier).max as real * 2.4)
  {
    var basePricing := BasePricing(tier);
    var implementationBase := ImplementationPricing(tier);
    var complexityMultiplier := ComplexityMultiplier(s.overall);
    var integrationAdjustment := IntegrationAdjustment(r.technology.integrationNeeds);
    var migrationAdjustment := MigrationAdjustment(r.technology.dataMigration);
    var p := PricingEstimate(
      tier,
      ScaledPrice(basePricing.min, complexityMultiplier, integrationAdjustment),
      ScaledPrice(basePricing.max, complexityMultiplier, integrationAdjustment),
      ScaledPrice(implementationBase.min, complexityMultiplier, migrationAdjustment),
      ScaledPrice(implementationBase.max, complexityMultiplier, migrationAdjustment),
      DetermineConfidence(r, s));
    PricingBounds(basePricing, complexityMultiplier, integrationAdjustment, 1.5);
    PricingBounds(implementationBase, complexityMultiplier, migrationAdjustment, 1.6);
    p
  }

  /** The scaled bounds of one range: ordered, and within base..base * 1.5 * topAdjustment. */
  lemma PricingBounds(range: PriceRange, m: real, adjustment: real, topAdjustment: real)
    requires 0 < range.min < range.max && 1.0 <= adjustment <= topAdjustment
    ensures m >= 0.0 ==> ScaledPrice(range.min, m, adjustment) <= ScaledPrice(range.max, m, adjustment)
    ensures 1.0 <= m <= 1.5 ==>
      && range.min <= ScaledPrice(range.min, m, adjustment)
      && ScaledPrice(range.max, m, adjustment) <= Round(range.max as real * (1.5 * topAdjustment))
  {
    if m >= 0.0 {
      ScaledPriceMonotone(range.min, range.max, m, m, adjustment);
    }
    if 1.0 <= m <= 1.5 {
      ScaledPriceAtLeastBase(range.min, m, adjustment);
      ScaledPriceAtMost(range.max, m, adjustment, topAdjustment);
    }
  }

  lemma ScaledPriceAtLeastBase(base: int, m: real, adjustment: real)
    requires base > 0 && m >= 1.0 && adjustment >= 1.0
    ensures base <= ScaledPrice(base, m, adjustment)
  {
    var x := base as real;
    ProductMonotone(x, x, 1.0, m);
    ProductMonotone(x, x * m, 1.0, adjustment);
    assert x <= x * m * adjustment;
    RoundMonotone(x, x * m * adjustment);
    assert Round(x) == base;
  }

  lemma ScaledPriceAtMost(base: int, m: real, adjustment: real, topAdjustment: real)
    requires base > 0 && 0.0 <= m <= 1.5 && 0.0 <= adjustment <= topAdjustment
    ensures ScaledPrice(base, m, adjustment) <= Round(base as real * (1.5 * topAdjustment))
  {
    var x := base as real;
    ProductMonotone(x, x, m, 1.5);
    ProductMonotone(x * m, x * 1.5, adjustment, topAdjustment);
    assert x * 1.5 * topAdjustment == x * (1.5 * topAdjustment);
    RoundMonotone(x * m * adjustment, x * (1.5 * topAdjustment));
  }

  /** For a fixed tier and answers, every price bound is non-decreasing in the overall complexity. */
  lemma PricesMonotoneInComplexity(r: QuoteResponses, s: ComplexityScores, s': ComplexityScores, tier: ServiceTier)
    requires -200 <= s.overall <= s'.overall
    ensures var p, p' := CalculatePricing(r, s, tier), CalculatePricing(r, s', tier);
      && p.monthlyMin <= p'.monthlyMin && p.monthlyMax <= p'.monthlyMax
      && p.implementationMin <= p'.implementationMin && p.implementationMax <= p'.implementationMax
  {
    var m, m' := ComplexityMultiplier(s.overall), ComplexityMultiplier(s'.overall);
    var ia := IntegrationAdjustment(r.technology.integrationNeeds);
    var ma := MigrationAdjustment(r.technology.dataMigration);
    ScaledPriceMonotone(BasePricing(tier).min, BasePricing(tier).min, m, m', ia);
    ScaledPriceMonotone(BasePricing(tier).max, BasePricing(tier).max, m, m', ia);
    ScaledPriceMonotone(ImplementationPricing(tier).min, ImplementationPricing(tier).min, m, m', ma);
    ScaledPriceMonotone(ImplementationPricing(tier).max, ImplementationPricing(tier).max, m, m', ma);
  }
}
