/**
 * Well-formed questionnaire records (lib/validation/schema.ts).
 *
 * One predicate per section of the schema, and `Valid` as their conjunction.
 * A categorical answer is admitted when it is one of its listed codes, that is
 * `Known`; the e-mail format check is not part of this model. Text lengths are
 * counted in characters.
 */
module Schema {
  import opened Wrappers
  import opened QuoteTypes

  /** A required multi-select answer: present, with at least one entry. */
  predicate NonEmptyList(xs: Option<seq<string>>) {
    xs.Some? && |xs.value| >= 1
  }

  /** An optional text answer of at most `limit` characters. */
  predicate OptionalTextWithin(t: Option<string>, limit: nat) {
    t.None? || |t.value| <= limit
  }

  /** Name, company and role are required; the phone is optional. */
  predicate ValidContact(c: ContactInfo) {
    |c.name| >= 1 && |c.companyName| >= 1 && |c.role| >= 1
  }

  /** The industry is free text, only required to be non-empty; the other three are listed codes. */
  predicate ValidCompanyOverview(c: CompanyOverview) {
    && |c.industry| >= 1
    && c.businessModel.Known? && c.annualRevenue.Known? && c.employeeCount.Known?
  }

  /** q5 is a number in [1, 10]; q6 and q8 need at least one entry each. */
  predicate ValidRevenue(a: RevenueAnswers) {
    && 1 <= a.revenueStreams <= 10
    && NonEmptyList(a.pricingModels)
    && a.recurringShare.Known?
    && NonEmptyList(a.billingFrequencies)
  }

  /** q10 is a number in [1, 10]. */
  predicate ValidCustomer(a: CustomerAnswers) {
    && a.customerCount.Known?
    && 1 <= a.customerSegments <= 10
    && a.contractComplexity.Known? && a.salesCycle.Known?
  }

  /** q16 is optional and its entries are unconstrained. */
  predicate ValidOperational(a: OperationalAnswers) {
    a.locations.Known? && a.currencies.Known? && a.legalEntities.Known?
  }

  /** q17 needs at least one tool; q20 is optional, at most 500 characters. */
  predicate ValidTechnology(a: TechnologyAnswers) {
    && NonEmptyList(a.currentTools)
    && a.integrationNeeds.Known? && a.dataMigration.Known?
    && OptionalTextWithin(a.customRequirements, 500)
  }

  predicate ValidTeam(a: TeamAnswers) {
    && a.financeTeamSize.Known? && a.opsTeamSize.Known?
    && a.technicalCapability.Known? && a.changeManagement.Known?
  }

  /** One to three challenges; q27 at most 400 characters; q28 required, at most 400. */
  predicate ValidPainPoints(a: PainPointAnswers) {
    && 1 <= |a.primaryChallenges| <= 3
    && a.manualHours.Known?
    && OptionalTextWithin(a.reportingGaps, 400)
    && 1 <= |a.biggestBottleneck| <= 400
  }

  /** q29 and q30 need at least one entry; q32 at most 400 characters. */
  predicate ValidGoals(a: GoalAnswers) {
    && NonEmptyList(a.primaryGoals)
    && |a.successMetrics| >= 1
    && a.timelinePressure.Known?
    && OptionalTextWithin(a.roiExpectations, 400)
  }

  /** q36 is optional and its entries are unconstrained. */
  predicate ValidBudget(a: BudgetAnswers) {
    a.budgetRange.Known? && a.investmentTimeline.Known? && a.decisionProcess.Known?
  }

  predicate ValidReadiness(a: ReadinessAnswers) {
    a.implementationReadiness.Known? && a.preferredNextStep.Known?
  }

  /** The complete record: every section well formed. */
  predicate Valid(r: QuoteResponses) {
    && ValidContact(r.contact)
    && ValidCompanyOverview(r.companyOverview)
    && ValidRevenue(r.revenue)
    && ValidCustomer(r.customer)
    && ValidOperational(r.operational)
    && ValidTechnology(r.technology)
    && ValidTeam(r.team)
    && ValidPainPoints(r.painPoints)
    && ValidGoals(r.goals)
    && ValidBudget(r.budget)
    && ValidReadiness(r.readiness)
  }

  /**
   * The optional lists q16 and q36, the contact's phone and the list entries
   * themselves are not constrained: replacing any of them keeps validity.
   */
  lemma OptionalAnswersUnconstrained(r: QuoteResponses, compliance: Option<seq<string>>,
                                     investments: Option<seq<string>>, phone: Option<string>,
                                     pricingModel: string, tool: string)
    ensures Valid(r) <==> Valid(r.(operational := r.operational.(complianceRequirements := compliance)))
    ensures Valid(r) <==> Valid(r.(budget := r.budget.(previousInvestments := investments)))
    ensures Valid(r) <==> Valid(r.(contact := r.contact.(phone := phone)))
    ensures Valid(r) ==> Valid(r.(revenue := r.revenue.(pricingModels := Some([pricingModel]))))
    ensures Valid(r) ==> Valid(r.(technology := r.technology.(currentTools := Some([tool]))))
  {
  }

  /** A valid record never carries an unlisted code in the answers the engine's tables read. */
  lemma ValidAnswersAreListedCodes(r: QuoteResponses)
    requires Valid(r)
    ensures r.companyOverview.annualRevenue.Known? && r.companyOverview.employeeCount.Known?
    ensures r.revenue.recurringShare.Known? && r.customer.customerCount.Known?
    ensures r.budget.budgetRange.Known? && r.budget.investmentTimeline.Known?
    ensures r.technology.integrationNeeds.Known? && r.technology.dataMigration.Known?
  {
  }

  /** Too many challenges, an empty bottleneck or a slider outside [1, 10] each make a record invalid. */
  lemma ValidRejects(r: QuoteResponses)
    ensures |r.painPoints.primaryChallenges| > 3 ==> !Valid(r)
    ensures r.painPoints.biggestBottleneck == [] ==> !Valid(r)
    ensures !(1 <= r.revenue.revenueStreams <= 10) ==> !Valid(r)
    ensures !(1 <= r.customer.customerSegments <= 10) ==> !Valid(r)
    ensures r.technology.currentTools.None? ==> !Valid(r)
  {
  }
}
