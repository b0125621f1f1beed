/**
 * The quote analysis (lib/analysis/index.ts): the complexity scores are
 * computed once and that same record is handed to the tier, pricing, pattern
 * and qualification steps, in that order.
 */
module Analysis {
  import opened QuoteTypes
  import opened Scores
  import opened Tiers
  import opened Pricing
  import opened Patterns
  import opened Qualification
  import opened Schema
  import opened Numeric

  datatype QuoteAnalysis = QuoteAnalysis(
    scores: ComplexityScores,
    tier: ServiceTier,
    pricing: PricingEstimate,
    patterns: seq<Pattern>,
    qualificationScore: int,
    isQualified: bool)

  /** The analysis of one questionnaire record. */
  function AnalyzeQuote(r: QuoteResponses): (a: QuoteAnalysis)
    ensures a.scores == CalculateAllScores(r)
    ensures a.tier == DetermineTier(r, a.scores) && a.pricing == CalculatePricing(r, a.scores, a.tier)
    ensures a.patterns == Detected(r, a.scores)
    ensures a.qualificationScore == Qualification.Qualification(r, a.scores, a.tier).score
    ensures a.pricing.tier == a.tier
    ensures a.isQualified <==> a.qualificationScore >= 50
    ensures 15 <= a.qualificationScore <= 100
    ensures |a.patterns| <= 7
  {
    var scores := CalculateAllScores(r);
    var tier := DetermineTier(r, scores);
    var pricing := CalculatePricing(r, scores, tier);
    var patterns := Detected(r, scores);
    var qualification := Qualification.Qualification(r, scores, tier);
    QualificationBounds(r, scores, tier);
    QuoteAnalysis(scores, tier, pricing, patterns, qualification.score, qualification.isQualified)
  }

  /** The source's sequence of calls, through the step-by-step implementations, gives the same analysis. */
  method RunAnalysis(r: QuoteResponses) returns (a: QuoteAnalysis)
    ensures a == AnalyzeQuote(r)
  {
    var revenue := CalculateRevenueComplexity(r);
    var customer := CalculateCustomerComplexity(r);
    var operational := CalculateOperationalComplexity(r);
    var technology := CalculateTechnologyComplexity(r);
    var overall := (revenue + customer + operational + technology + 2) / 4;
    var scores := ComplexityScores(revenue, customer, operational, technology, overall);
    assert scores == CalculateAllScores(r);
    var tier := DetermineTier(r, scores);
    var pricing := CalculatePricing(r, scores, tier);
    var patterns := DetectPatterns(r, scores);
    var qualification := CalculateQualification(r, scores, tier);
    a := QuoteAnalysis(scores, tier, pricing, patterns, qualification.score, qualification.isQualified);
  }

  /** A pattern is reported exactly when its rule fires on the analysis' own scores, each at most once, in rule order. */
  lemma ReportedPatterns(r: QuoteResponses, id: PatternId)
    ensures var a := AnalyzeQuote(r);
      && (Pattern(id) in a.patterns <==> Fires(id, r, a.scores))
      && InRuleOrder(a.patterns)
  {
    var a := AnalyzeQuote(r);
    PatternReportedIffRuleFires(r, a.scores, id);
    DetectedInRuleOrder(r, a.scores);
  }

  /**
   * For a well-formed record: every sub-score lies in [0, 100], with floors set
   * by the required answers; the price ranges are ordered and lie within the
   * tier's base ranges scaled by the largest multipliers; the qualification
   * score is at least 23, every factor above its unknown-code fallback.
   */
  lemma ValidAnalysisBounds(r: QuoteResponses)
    requires Valid(r)
    ensures var a := AnalyzeQuote(r);
      && 35 <= a.scores.revenue <= 100 && 15 <= a.scores.customer <= 100
      && 0 <= a.scores.operational <= 100 && 8 <= a.scores.technology <= 100
      && 15 <= a.scores.overall <= 100
    ensures var a := AnalyzeQuote(r);
      && a.pricing.monthlyMin <= a.pricing.monthlyMax
      && a.pricing.implementationMin <= a.pricing.implementationMax
      && BasePricing(a.tier).min <= a.pricing.monthlyMin
      && a.pricing.monthlyMax <= Round(BasePricing(a.tier).max as real * 2.25)
      && ImplementationPricing(a.tier).min <= a.pricing.implementationMin
      && a.pricing.implementationMax <= Round(ImplementationPricing(a.tier).max as real * 2.4)
    ensures 23 <= AnalyzeQuote(r).qualificationScore
  {
    var a := AnalyzeQuote(r);
    ScoresInRange(r);
    assert Count(r.revenue.pricingModels) >= 1 && Count(r.revenue.billingFrequencies) >= 1;
    assert Count(r.technology.currentTools) >= 1;
    ValidQualificationFloor(r, a.scores, a.tier);
  }

  lemma ValidQualificationFloor(r: QuoteResponses, s: ComplexityScores, tier: ServiceTier)
    requires Valid(r)
    ensures Qualification.Qualification(r, s, tier).score >= 23
  {
    var fs := Factors(r, tier);
    TotalsOfFive(fs[0], fs[1], fs[2], fs[3], fs[4]);
    assert fs[0].score >= 5 && fs[1].score >= 3 && fs[2].score >= 5 && fs[3].score >= 5 && fs[4].score >= 5;
  }
}
