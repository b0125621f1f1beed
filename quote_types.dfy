/**
 * The questionnaire record and the analysis result (lib/types/quote.ts).
 *
 * Every categorical answer is a `Coded<E>`: either one of the listed codes of
 * its enumeration, or `Unknown(raw)` for any other string that reached the
 * engine. The tables below give each listed code its wire spelling, and
 * `Decode` turns a raw string into a `Coded` value; `Unknown(raw)` therefore
 * never holds a string that is one of the listed codes.
 */
module QuoteTypes {
  import opened Wrappers

  datatype Coded<E> = Known(value: E) | Unknown(raw: string)

  /** Turns a wire string into a categorical answer, through a table of (code, value) pairs. */
  function Decode<E(==)>(table: seq<(string, E)>, raw: string): (c: Coded<E>)
    ensures c.Known? <==> exists i :: 0 <= i < |table| && table[i].0 == raw
    ensures c.Known? ==> (raw, c.value) in table
    ensures c.Unknown? ==> c.raw == raw
  {
    if table == [] then Unknown(raw)
    else if table[0].0 == raw then Known(table[0].1)
    else
      var c := Decode(table[1..], raw);
      assert forall i :: 0 < i < |table| ==> table[i] == table[1..][i - 1];
      c
  }

  /** `c` is what `Decode` gives for its raw string: an unlisted answer holds no listed code. */
  predicate Decoded<E(==)>(table: seq<(string, E)>, c: Coded<E>) {
    c.Unknown? ==> forall i :: 0 <= i < |table| ==> table[i].0 != c.raw
  }

  /** Decoding always gives a decoded answer, and a decoded unlisted answer decodes to itself. */
  lemma DecodeIsDecoded<E>(table: seq<(string, E)>, raw: string)
    ensures Decoded(table, Decode(table, raw))
    ensures Decoded(table, Unknown(raw)) ==> Decode(table, raw) == Unknown(raw)
  {
  }

  // ---- Enumerations of the questionnaire, in the order the schema lists them ----

  datatype BusinessModel = B2B | B2C | B2B2C | Marketplace | HybridModel
  const BusinessModelCodes: seq<(string, BusinessModel)> :=
    [("b2b", B2B), ("b2c", B2C), ("b2b2c", B2B2C), ("marketplace", Marketplace), ("hybrid", HybridModel)]

  datatype AnnualRevenue =
    PreRevenue | RevenueUnder500k | Revenue500kTo2m | Revenue2mTo5m | Revenue5mTo10m | Revenue10mPlus
  const AnnualRevenueCodes: seq<(string, AnnualRevenue)> :=
    [("pre_revenue", PreRevenue), ("0_500k", RevenueUnder500k), ("500k_2m", Revenue500kTo2m),
     ("2m_5m", Revenue2mTo5m), ("5m_10m", Revenue5mTo10m), ("10m_plus", Revenue10mPlus)]

  datatype EmployeeCount =
    Employees1To5 | Employees6To15 | Employees16To30 | Employees31To50 | Employees51To100 | Employees100Plus
  const EmployeeCountCodes: seq<(string, EmployeeCount)> :=
    [("1_5", Employees1To5), ("6_15", Employees6To15), ("16_30", Employees16To30),
     ("31_50", Employees31To50), ("51_100", Employees51To100), ("100_plus", Employees100Plus)]

  datatype RecurringShare = Recurring0To25 | Recurring25To50 | Recurring50To75 | Recurring75To100
  const RecurringShareCodes: seq<(string, RecurringShare)> :=
    [("0_25", Recurring0To25), ("25_50", Recurring25To50), ("50_75", Recurring50To75), ("75_100", Recurring75To100)]

  datatype CustomerCount =
    Customers1To50 | Customers51To200 | Customers201To500 | Customers501To2000 | Customers2000Plus
  const CustomerCountCodes: seq<(string, CustomerCount)> :=
    [("1_50", Customers1To50), ("51_200", Customers51To200), ("201_500", Customers201To500),
     ("501_2000", Customers501To2000), ("2000_plus", Customers2000Plus)]

  datatype ContractComplexity = StandardContracts | SemiCustomContracts | FullyCustomContracts | MixedContracts
  const ContractComplexityCodes: seq<(string, ContractComplexity)> :=
    [("standard", StandardContracts), ("semi_custom", SemiCustomContracts),
     ("fully_custom", FullyCustomContracts), ("mixed", MixedContracts)]

  datatype SalesCycle =
    CycleUnder1Month | Cycle1To3Months | Cycle3To6Months | Cycle6To12Months | CycleOver12Months
  const SalesCycleCodes: seq<(string, SalesCycle)> :=
    [("under_1_month", CycleUnder1Month), ("1_3_months", Cycle1To3Months), ("3_6_months", Cycle3To6Months),
     ("6_12_months", Cycle6To12Months), ("over_12_months", CycleOver12Months)]

  datatype Locations = OneLocation | Locations2To5 | Locations6To10 | Locations10Plus
  const LocationsCodes: seq<(string, Locations)> :=
    [("1", OneLocation), ("2_5", Locations2To5), ("6_10", Locations6To10), ("10_plus", Locations10Plus)]

  datatype Currencies = OneCurrency | Currencies2To3 | Currencies4To10 | Currencies10Plus
  const CurrenciesCodes: seq<(string, Currencies)> :=
    [("1", OneCurrency), ("2_3", Currencies2To3), ("4_10", Currencies4To10), ("10_plus", Currencies10Plus)]

  datatype LegalEntities = OneEntity | Entities2To3 | Entities4To5 | Entities5Plus
  const LegalEntitiesCodes: seq<(string, LegalEntities)> :=
    [("1", OneEntity), ("2_3", Entities2To3), ("4_5", Entities4To5), ("5_plus", Entities5Plus)]

  datatype IntegrationNeeds = NoIntegration | BasicIntegration | ModerateIntegration | ComplexIntegration
  const IntegrationNeedsCodes: seq<(string, IntegrationNeeds)> :=
    [("none", NoIntegration), ("basic", BasicIntegration), ("moderate", ModerateIntegration),
     ("complex", ComplexIntegration)]

  datatype DataMigration = NoMigration | SmallMigration | MediumMigration | LargeMigration | EnterpriseMigration
  const DataMigrationCodes: seq<(string, DataMigration)> :=
    [("none", NoMigration), ("small", SmallMigration), ("medium", MediumMigration),
     ("large", LargeMigration), ("enterprise", EnterpriseMigration)]

  /** Finance (q21) and operations (q22) team sizes share one scale. */
  datatype TeamSize = NoStaff | Staff1To2 | Staff3To5 | Staff6To10 | Staff10Plus
  const TeamSizeCodes: seq<(string, TeamSize)> :=
    [("0", NoStaff), ("1_2", Staff1To2), ("3_5", Staff3To5), ("6_10", Staff6To10), ("10_plus", Staff10Plus)]

  datatype TechnicalCapability = LimitedCapability | ModerateCapability | StrongCapability | ExpertCapability
  const TechnicalCapabilityCodes: seq<(string, TechnicalCapability)> :=
    [("limited", LimitedCapability), ("moderate", ModerateCapability), ("strong", StrongCapability),
     ("expert", ExpertCapability)]

  datatype ChangeManagement = MinimalChange | SomeChange | SignificantChange | ExtensiveChange
  const ChangeManagementCodes: seq<(string, ChangeManagement)> :=
    [("minimal", MinimalChange), ("some", SomeChange), ("significant", SignificantChange),
     ("extensive", ExtensiveChange)]

  datatype ManualHours = HoursUnder10 | Hours10To20 | Hours20To40 | Hours40Plus
  const ManualHoursCodes: seq<(string, ManualHours)> :=
    [("under_10_hrs", HoursUnder10), ("10_20_hrs", Hours10To20), ("20_40_hrs", Hours20To40),
     ("40_plus_hrs", Hours40Plus)]

  datatype TimelinePressure = FlexibleTimeline | ModerateTimeline | UrgentTimeline | CriticalTimeline
  const TimelinePressureCodes: seq<(string, TimelinePressure)> :=
    [("flexible", FlexibleTimeline), ("moderate", ModerateTimeline), ("urgent", UrgentTimeline),
     ("critical", CriticalTimeline)]

  datatype BudgetRange =
    BudgetUnder5k | Budget5kTo10k | Budget10kTo25k | Budget25kTo50k | Budget50kTo100k | Budget100kPlus | BudgetUnsure
  const BudgetRangeCodes: seq<(string, BudgetRange)> :=
    [("under_5k", BudgetUnder5k), ("5k_10k", Budget5kTo10k), ("10k_25k", Budget10kTo25k),
     ("25k_50k", Budget25kTo50k), ("50k_100k", Budget50kTo100k), ("100k_plus", Budget100kPlus),
     ("unsure", BudgetUnsure)]

  datatype InvestmentTimeline =
    InvestThisQuarter | InvestNextQuarter | InvestThisYear | InvestNextYear | InvestExploring
  const InvestmentTimelineCodes: seq<(string, InvestmentTimeline)> :=
    [("this_quarter", InvestThisQuarter), ("next_quarter", InvestNextQuarter), ("this_year", InvestThisYear),
     ("next_year", InvestNextYear), ("exploring", InvestExploring)]

  datatype DecisionProcess = SoleDecision | SmallTeamDecision | CommitteeDecision | BoardDecision
  const DecisionProcessCodes: seq<(string, DecisionProcess)> :=
    [("sole", SoleDecision), ("small_team", SmallTeamDecision), ("committee", CommitteeDecision),
     ("board", BoardDecision)]

  datatype ImplementationReadiness =
    ReadyNow | Ready1To3Months | Ready3To6Months | Ready6PlusMonths | StillEvaluating
  const ImplementationReadinessCodes: seq<(string, ImplementationReadiness)> :=
    [("ready_now", ReadyNow), ("1_3_months", Ready1To3Months), ("3_6_months", Ready3To6Months),
     ("6_plus_months", Ready6PlusMonths), ("evaluating", StillEvaluating)]

  datatype NextStep = DetailedQuote | Demo | Consultation | MoreInfo | InternalReview
  const NextStepCodes: seq<(string, NextStep)> :=
    [("detailed_quote", DetailedQuote), ("demo", Demo), ("consultation", Consultation),
     ("more_info", MoreInfo), ("internal_review", InternalReview)]

  // ---- The questionnaire record: one sub-record per form section ----

  datatype ContactInfo = ContactInfo(name: string, email: string, companyName: string, role: string, phone: Option<string>)

  datatype CompanyOverview = CompanyOverview(
    industry: string,                          // q1
    businessModel: Coded<BusinessModel>,       // q2
    annualRevenue: Coded<AnnualRevenue>,       // q3
    employeeCount: Coded<EmployeeCount>)       // q4

  datatype RevenueAnswers = RevenueAnswers(
    revenueStreams: int,                       // q5, a 1..10 slider
    pricingModels: Option<seq<string>>,        // q6
    recurringShare: Coded<RecurringShare>,     // q7
    billingFrequencies: Option<seq<string>>)   // q8

  datatype CustomerAnswers = CustomerAnswers(
    customerCount: Coded<CustomerCount>,             // q9
    customerSegments: int,                           // q10, a 1..10 slider
    contractComplexity: Coded<ContractComplexity>,   // q11
    salesCycle: Coded<SalesCycle>)                   // q12

  datatype OperationalAnswers = OperationalAnswers(
    locations: Coded<Locations>,                     // q13
    currencies: Coded<Currencies>,                   // q14
    legalEntities: Coded<LegalEntities>,             // q15
    complianceRequirements: Option<seq<string>>)     // q16, optional

  datatype TechnologyAnswers = TechnologyAnswers(
    currentTools: Option<seq<string>>,               // q17
    integrationNeeds: Coded<IntegrationNeeds>,       // q18
    dataMigration: Coded<DataMigration>,             // q19
    customRequirements: Option<string>)              // q20, optional

  datatype TeamAnswers = TeamAnswers(
    financeTeamSize: Coded<TeamSize>,                  // q21
    opsTeamSize: Coded<TeamSize>,                      // q22
    technicalCapability: Coded<TechnicalCapability>,   // q23
    changeManagement: Coded<ChangeManagement>)         // q24

  datatype PainPointAnswers = PainPointAnswers(
    primaryChallenges: seq<string>,            // q25
    manualHours: Coded<ManualHours>,           // q26
    reportingGaps: Option<string>,             // q27, optional
    biggestBottleneck: string)                 // q28

  datatype GoalAnswers = GoalAnswers(
    primaryGoals: Option<seq<string>>,               // q29
    successMetrics: seq<string>,                     // q30
    timelinePressure: Coded<TimelinePressure>,       // q31
    roiExpectations: Option<string>)                 // q32, optional

  datatype BudgetAnswers = BudgetAnswers(
    budgetRange: Coded<BudgetRange>,                 // q33
    investmentTimeline: Coded<InvestmentTimeline>,   // q34
    decisionProcess: Coded<DecisionProcess>,         // q35
    previousInvestments: Option<seq<string>>)        // q36, optional

  datatype ReadinessAnswers = ReadinessAnswers(
    implementationReadiness: Coded<ImplementationReadiness>,   // q37
    preferredNextStep: Coded<NextStep>)                        // q38

  datatype QuoteResponses = QuoteResponses(
    contact: ContactInfo,
    companyOverview: CompanyOverview,
    revenue: RevenueAnswers,
    customer: CustomerAnswers,
    operational: OperationalAnswers,
    technology: TechnologyAnswers,
    team: TeamAnswers,
    painPoints: PainPointAnswers,
    goals: GoalAnswers,
    budget: BudgetAnswers,
    readiness: ReadinessAnswers)

  /** `xs?.length || 0`: the number of entries of an answer list, an absent list counting as empty. */
  function Count(xs: Option<seq<string>>): (n: nat)
    ensures xs.None? ==> n == 0
    ensures xs.Some? ==> n == |xs.value|
  {
    match xs
    case Some(items) => |items|
    case None => 0
  }

  // ---- The analysis result ----

  datatype ComplexityScores = ComplexityScores(
    revenue: int, customer: int, operational: int, technology: int, overall: int)

  /** The four service tiers, in increasing order. */
  datatype ServiceTier = Starter | Growth | Scale | Enterprise {
    /** The position of the tier in the order starter < growth < scale < enterprise. */
    function Rank(): nat {
      match this
      case Starter => 0
      case Growth => 1
      case Scale => 2
      case Enterprise => 3
    }

    /** The tier's wire spelling. */
    function Code(): string {
      match this
      case Starter => "starter"
      case Growth => "growth"
      case Scale => "scale"
      case Enterprise => "enterprise"
    }
  }

  datatype Confidence = Low | Medium | High

  datatype PricingEstimate = PricingEstimate(
    tier: ServiceTier,
    monthlyMin: int, monthlyMax: int,
    implementationMin: int, implementationMax: int,
    confidence: Confidence)
}
