/**
 * Complexity scores (lib/analysis/scores.ts).
 *
 * Each of the four sub-scores adds table points and list counts into an
 * accumulator and caps the total at 100; the overall score is the rounded
 * quarter of their sum. The `Calculate*Complexity` methods follow the
 * source's accumulation step by step; the functions of the same name without
 * `Calculate` state the score they reach, and the rest of the engine uses those.
 */
module Scores {
  import opened Wrappers
  import opened Numeric
  import opened QuoteTypes

  // ---- Lookup tables; an unlisted code contributes 0 ----

  /** Less recurring revenue means more billing work, so the bonus falls as the share rises. */
  function RecurringBonus(c: Coded<RecurringShare>): (points: int)
    ensures 0 <= points <= 30
    ensures c.Unknown? ==> points == 0
  {
    match c
    case Known(Recurring75To100) => 0
    case Known(Recurring50To75) => 10
    case Known(Recurring25To50) => 20
    case Known(Recurring0To25) => 30
    case Unknown(_) => 0
  }

  function CustomerCountPoints(c: Coded<CustomerCount>): (points: int)
    ensures 0 <= points <= 80
    ensures c.Known? ==> 10 <= points
    ensures c.Unknown? ==> points == 0
  {
    match c
    case Known(Customers1To50) => 10
    case Known(Customers51To200) => 25
    case Known(Customers201To500) => 40
    case Known(Customers501To2000) => 60
    case Known(Customers2000Plus) => 80
    case Unknown(_) => 0
  }

  function ContractPoints(c: Coded<ContractComplexity>): (points: int)
    ensures 0 <= points <= 40
    ensures points == 0 <==> c.Unknown? || c == Known(StandardContracts)
  {
    match c
    case Known(StandardContracts) => 0
    case Known(SemiCustomContracts) => 15
    case Known(MixedContracts) => 25
    case Known(FullyCustomContracts) => 40
    case Unknown(_) => 0
  }

  function SalesCyclePoints(c: Coded<SalesCycle>): (points: int)
    ensures 0 <= points <= 40
    ensures c.Unknown? ==> points == 0
  {
    match c
    case Known(CycleUnder1Month) => 0
    case Known(Cycle1To3Months) => 10
    case Known(Cycle3To6Months) => 20
    case Known(Cycle6To12Months) => 30
    case Known(CycleOver12Months) => 40
    case Unknown(_) => 0
  }

  function LocationPoints(c: Coded<Locations>): (points: int)
    ensures 0 <= points <= 50
    ensures points == 0 <==> c.Unknown? || c == Known(OneLocation)
  {
    match c
    case Known(OneLocation) => 0
    case Known(Locations2To5) => 15
    case Known(Locations6To10) => 30
    case Known(Locations10Plus) => 50
    case Unknown(_) => 0
  }

  function CurrencyPoints(c: Coded<Currencies>): (points: int)
    ensures 0 <= points <= 50
    ensures points == 0 <==> c.Unknown? || c == Known(OneCurrency)
  {
    match c
    case Known(OneCurrency) => 0
    case Known(Currencies2To3) => 15
    case Known(Currencies4To10) => 30
    case Known(Currencies10Plus) => 50
    case Unknown(_) => 0
  }

  function EntityPoints(c: Coded<LegalEntities>): (points: int)
    ensures 0 <= points <= 40
    ensures points == 0 <==> c.Unknown? || c == Known(OneEntity)
  {
    match c
    case Known(OneEntity) => 0
    case Known(Entities2To3) => 15
    case Known(Entities4To5) => 25
    case Known(Entities5Plus) => 40
    case Unknown(_) => 0
  }

  function IntegrationPoints(c: Coded<IntegrationNeeds>): (points: int)
    ensures 0 <= points <= 60
    ensures points == 0 <==> c.Unknown? || c == Known(NoIntegration)
  {
    match c
    case Known(NoIntegration) => 0
    case Known(BasicIntegration) => 15
    case Known(ModerateIntegration) => 35
    case Known(ComplexIntegration) => 60
    case Unknown(_) => 0
  }

  function MigrationPoints(c: Coded<DataMigration>): (points: int)
    ensures 0 <= points <= 60
    ensures points == 0 <==> c.Unknown? || c == Known(NoMigration)
  {
    match c
    case Known(NoMigration) => 0
    case Known(SmallMigration) => 10
    case Known(MediumMigration) => 25
    case Known(LargeMigration) => 40
    case Known(EnterpriseMigration) => 60
    case Unknown(_) => 0
  }

  // ---- The four sub-scores and what they reach ----

  function RevenueComplexity(r: QuoteResponses): (score: int)
    ensures score <= 100
    ensures r.revenue.revenueStreams >= 0 ==> score >= 0
  {
    Min(100, 10 * r.revenue.revenueStreams + 15 * Count(r.revenue.pricingModels)
             + RecurringBonus(r.revenue.recurringShare) + 10 * Count(r.revenue.billingFrequencies))
  }

  function CustomerComplexity(r: QuoteResponses): (score: int)
    ensures score <= 100
    ensures r.customer.customerSegments >= 0 ==> score >= 0
  {
    Min(100, CustomerCountPoints(r.customer.customerCount) + 5 * r.customer.customerSegments
             + ContractPoints(r.customer.contractComplexity) + SalesCyclePoints(r.customer.salesCycle))
  }

  function OperationalComplexity(r: QuoteResponses): (score: int)
    ensures 0 <= score <= 100
  {
    Min(100, LocationPoints(r.operational.locations) + CurrencyPoints(r.operational.currencies)
             + EntityPoints(r.operational.legalEntities) + 8 * Count(r.operational.complianceRequirements))
  }

  function TechnologyComplexity(r: QuoteResponses): (score: int)
    ensures 0 <= score <= 100
  {
    Min(100, 8 * Count(r.technology.currentTools) + IntegrationPoints(r.technology.integrationNeeds)
             + MigrationPoints(r.technology.dataMigration))
  }

  // ---- The source's accumulating implementations ----

  method CalculateRevenueComplexity(r: QuoteResponses) returns (score: int)
    ensures score == RevenueComplexity(r)
  {
    score := 0;
    score := score + r.revenue.revenueStreams * 10;
    var pricingModels := Count(r.revenue.pricingModels);
    score := score + pricingModels * 15;
    score := score + RecurringBonus(r.revenue.recurringShare);
    var billingFrequencies := Count(r.revenue.billingFrequencies);
    score := score + billingFrequencies * 10;
    score := Min(100, score);
  }

  method CalculateCustomerComplexity(r: QuoteResponses) returns (score: int)
    ensures score == CustomerComplexity(r)
  {
    score := 0;
    score := score + CustomerCountPoints(r.customer.customerCount);
    score := score + r.customer.customerSegments * 5;
    score := score + ContractPoints(r.customer.contractComplexity);
    score := score + SalesCyclePoints(r.customer.salesCycle);
    score := Min(100, score);
  }

  method CalculateOperationalComplexity(r: QuoteResponses) returns (score: int)
    ensures score == OperationalComplexity(r)
  {
    score := 0;
    score := score + LocationPoints(r.operational.locations);
    score := score + CurrencyPoints(r.operational.currencies);
    score := score + EntityPoints(r.operational.legalEntities);
    var complianceCount := Count(r.operational.complianceRequirements);
    score := score + complianceCount * 8;
    score := Min(100, score);
  }

  method CalculateTechnologyComplexity(r: QuoteResponses) returns (score: int)
    ensures score == TechnologyComplexity(r)
  {
    score := 0;
    var toolCount := Count(r.technology.currentTools);
    score := score + toolCount * 8;
    score := score + IntegrationPoints(r.technology.integrationNeeds);
    score := score + MigrationPoints(r.technology.dataMigration);
    score := Min(100, score);
  }

  // ---- All scores ----

  /** The smallest and the largest of the four sub-scores. */
  function LeastSubScore(s: ComplexityScores): int {
    Min(Min(s.revenue, s.customer), Min(s.operational, s.technology))
  }

  function GreatestSubScore(s: ComplexityScores): int {
    Max(Max(s.revenue, s.customer), Max(s.operational, s.technology))
  }

  /**
   * The four sub-scores and `Math.round` of their equally weighted sum. Each
   * weight 0.25 is exact, so the overall score is the rounded mean, which is
   * an integer division of the sum.
   */
  function CalculateAllScores(r: QuoteResponses): (s: ComplexityScores)
    ensures s.revenue == RevenueComplexity(r) && s.customer == CustomerComplexity(r)
    ensures s.operational == OperationalComplexity(r) && s.technology == TechnologyComplexity(r)
    ensures s.overall == (s.revenue + s.customer + s.operational + s.technology + 2) / 4
    ensures LeastSubScore(s) <= s.overall <= GreatestSubScore(s) <= 100
  {
    var revenue := RevenueComplexity(r);
    var customer := CustomerComplexity(r);
    var operational := OperationalComplexity(r);
    var technology := TechnologyComplexity(r);
    var overall := Round(revenue as real * 0.25 + customer as real * 0.25
                         + operational as real * 0.25 + technology as real * 0.25);
    var s := ComplexityScores(revenue, customer, operational, technology, overall);
    OverallIsRoundedMean(revenue, customer, operational, technology);
    s
  }

  /** The overall formula: rounded mean as integer division, and between the least and largest sub-score. */
  lemma OverallIsRoundedMean(a: int, b: int, c: int, d: int)
    ensures Round(a as real * 0.25 + b as real * 0.25 + c as real * 0.25 + d as real * 0.25) == (a + b + c + d + 2) / 4
    ensures Min(Min(a, b), Min(c, d)) <= (a + b + c + d + 2) / 4 <= Max(Max(a, b), Max(c, d))
  {
    var sum := a + b + c + d;
    assert a as real * 0.25 + b as real * 0.25 + c as real * 0.25 + d as real * 0.25 == sum as real / 4.0;
    RoundQuarter(sum);
  }

  /** Sub-scores and overall lie in [0, 100] once the two sliders are non-negative. */
  lemma ScoresInRange(r: QuoteResponses)
    requires r.revenue.revenueStreams >= 0 && r.customer.customerSegments >= 0
    ensures var s := CalculateAllScores(r);
      && 0 <= s.revenue <= 100 && 0 <= s.customer <= 100
      && 0 <= s.operational <= 100 && 0 <= s.technology <= 100
      && 0 <= s.overall <= 100
  {
    var s := CalculateAllScores(r);
    assert 0 <= LeastSubScore(s);
  }

  // ---- Table shape: each bonus grows with the band it rewards ----

  function RecurringRank(s: RecurringShare): nat {
    match s
    case Recurring0To25 => 0
    case Recurring25To50 => 1
    case Recurring50To75 => 2
    case Recurring75To100 => 3
  }

  /** The recurring bonus is 30 - 10 * rank: strictly inverse to the recurring share. */
  lemma RecurringBonusIsInverse(a: RecurringShare, b: RecurringShare)
    ensures RecurringBonus(Known(a)) == 30 - 10 * RecurringRank(a)
    ensures RecurringRank(a) < RecurringRank(b) ==> RecurringBonus(Known(a)) > RecurringBonus(Known(b))
  {
  }

  // ---- Monotonicity in list answers ----

  /** One more compliance requirement never lowers the operational score, and adds 8 below the cap. */
  lemma OperationalMonotoneInCompliance(r: QuoteResponses, item: string)
    ensures var items := r.operational.complianceRequirements.GetOr([]);
      var r' := r.(operational := r.operational.(complianceRequirements := Some(items + [item])));
      && OperationalComplexity(r) <= OperationalComplexity(r')
      && (OperationalComplexity(r') < 100 ==> OperationalComplexity(r') == OperationalComplexity(r) + 8)
  {
  }

  /** One more pricing model never lowers the revenue score. */
  lemma RevenueMonotoneInPricingModels(r: QuoteResponses, model: string)
    ensures var models := r.revenue.pricingModels.GetOr([]);
      var r' := r.(revenue := r.revenue.(pricingModels := Some(models + [model])));
      RevenueComplexity(r) <= RevenueComplexity(r')
  {
  }

  /** An absent list scores exactly as an empty one. */
  lemma AbsentListsCountAsEmpty(r: QuoteResponses)
    ensures var r' := r.(revenue := r.revenue.(pricingModels := None, billingFrequencies := None));
      var r'' := r.(revenue := r.revenue.(pricingModels := Some([]), billingFrequencies := Some([])));
      RevenueComplexity(r') == RevenueComplexity(r'')
    ensures var r' := r.(operational := r.operational.(complianceRequirements := None));
      var r'' := r.(operational := r.operational.(complianceRequirements := Some([])));
      OperationalComplexity(r') == OperationalComplexity(r'')
  {
  }
}
