/**
 * Pattern detection (lib/analysis/patterns.ts).
 *
 * Seven independent rules, each guarded by boolean helpers over the answers
 * and the scores, append a fixed advisory record when they fire. Every field
 * of such a record (id, name, description, severity, recommendations) is a
 * constant of its rule, so a record is represented by the rule that emits it
 * and the fields are functions of that rule. `DetectPatterns` pushes the
 * records one after the other; `Detected` states the outcome as the firing
 * rules of the fixed rule order, and the lemmas below say what that order
 * guarantees.
 */
module Patterns {
  import opened Wrappers
  import opened QuoteTypes

  // ---- The ten helper predicates ----

  predicate IsLowTeamCapacity(r: QuoteResponses) {
    r.team.financeTeamSize == Known(NoStaff) || r.team.financeTeamSize == Known(Staff1To2)
  }

  /** More than one currency, legal entity or location: any answer other than "1". */
  predicate IsMultiNational(r: QuoteResponses) {
    r.operational.currencies != Known(OneCurrency)
    || r.operational.legalEntities != Known(OneEntity)
    || r.operational.locations != Known(OneLocation)
  }

  predicate IsEnterpriseTool(tool: string) {
    tool == "netsuite" || tool == "sage" || tool == "other_erp"
  }

  /** Some current tool is an ERP; an absent tool list has none. */
  predicate HasEnterpriseTools(r: QuoteResponses) {
    match r.technology.currentTools
    case Some(tools) => exists i :: 0 <= i < |tools| && IsEnterpriseTool(tools[i])
    case None => false
  }

  predicate IsHighManualWork(r: QuoteResponses) {
    r.painPoints.manualHours == Known(Hours20To40) || r.painPoints.manualHours == Known(Hours40Plus)
  }

  predicate IsUrgentTimeline(r: QuoteResponses) {
    r.goals.timelinePressure == Known(UrgentTimeline) || r.goals.timelinePressure == Known(CriticalTimeline)
  }

  predicate NeedsComplexIntegrations(r: QuoteResponses) {
    r.technology.integrationNeeds == Known(ComplexIntegration)
  }

  predicate HasLimitedTechCapability(r: QuoteResponses) {
    r.team.technicalCapability == Known(LimitedCapability)
  }

  predicate HasStandardContracts(r: QuoteResponses) {
    r.customer.contractComplexity == Known(StandardContracts)
  }

  /** "scale" among the goals (an absent list has none), overall below 60, revenue 2m..10m. */
  predicate HasScaleIndicators(r: QuoteResponses, s: ComplexityScores) {
    var goals := r.goals.primaryGoals.GetOr([]);
    && "scale" in goals
    && s.overall < 60
    && (r.companyOverview.annualRevenue == Known(Revenue2mTo5m)
        || r.companyOverview.annualRevenue == Known(Revenue5mTo10m))
  }

  predicate HasSignificantCompliance(r: QuoteResponses) {
    Count(r.operational.complianceRequirements) >= 3
  }

  // ---- The seven rules and their records ----

  datatype Severity = Info | Warning | Critical

  datatype PatternId =
    | RevenueTeamMismatch
    | MultinationalToolsGap
    | UrgencyAutomationNeed
    | IntegrationCapabilityGap
    | CustomerContractOpportunity
    | ScaleReadiness
    | ComplianceFocus

  /** An emitted advisory record, identified by the rule that emits it. */
  datatype Pattern = Pattern(rule: PatternId)
  {
    function Id(): string {
      match rule
      case RevenueTeamMismatch => "revenue_team_mismatch"
      case MultinationalToolsGap => "multinational_tools_gap"
      case UrgencyAutomationNeed => "urgency_automation_need"
      case IntegrationCapabilityGap => "integration_capability_gap"
      case CustomerContractOpportunity => "customer_contract_opportunity"
      case ScaleReadiness => "scale_readiness"
      case ComplianceFocus => "compliance_focus"
    }

    function Severity(): Severity {
      match rule
      case RevenueTeamMismatch => Warning
      case MultinationalToolsGap => Critical
      case UrgencyAutomationNeed => Critical
      case IntegrationCapabilityGap => Warning
      case CustomerContractOpportunity => Info
      case ScaleReadiness => Info
      case ComplianceFocus => Warning
    }

    function Name(): string {
      match rule
      case RevenueTeamMismatch => "Revenue Complexity Gap"
      case MultinationalToolsGap => "International Operations Gap"
      case UrgencyAutomationNeed => "Urgent Automation Need"
      case IntegrationCapabilityGap => "Integration Capability Gap"
      case CustomerContractOpportunity => "Contract Standardization Opportunity"
      case ScaleReadiness => "Scale Readiness"
      case ComplianceFocus => "Compliance Complexity"
    }

    function Description(): string {
      match rule
      case RevenueTeamMismatch => "Your revenue model is complex but team capacity is limited."
      case MultinationalToolsGap => "Operating across currencies or entities without enterprise-grade tools."
      case UrgencyAutomationNeed => "Significant manual work combined with urgent timeline pressure."
      case IntegrationCapabilityGap => "Complex integration needs but limited internal technical capability."
      case CustomerContractOpportunity => "Complex customer base with potential for more standardized offerings."
      case ScaleReadiness => "Your organization shows signs of preparing for significant growth."
      case ComplianceFocus => "Multiple compliance requirements require systematic approach."
    }

    function Recommendations(): seq<string> {
      match rule
      case RevenueTeamMismatch =>
        ["Consider automating billing and invoicing processes",
         "Implement self-service capabilities for customers",
         "Evaluate adding finance operations support"]
      case MultinationalToolsGap =>
        ["Implement multi-currency accounting software",
         "Consider consolidation tools for multi-entity reporting",
         "Ensure compliance with local regulations"]
      case UrgencyAutomationNeed =>
        ["Prioritize quick-win automations",
         "Consider phased implementation approach",
         "Identify processes with highest ROI for automation"]
      case IntegrationCapabilityGap =>
        ["Consider managed integration services",
         "Prioritize tools with pre-built connectors",
         "Plan for ongoing technical support"]
      case CustomerContractOpportunity =>
        ["Consider tiered pricing packages",
         "Develop standard contract templates",
         "Implement customer self-service options"]
      case ScaleReadiness =>
        ["Build scalable processes before they become bottlenecks",
         "Invest in automation and self-service capabilities",
         "Document and standardize key workflows"]
      case ComplianceFocus =>
        ["Implement audit-ready documentation practices",
         "Consider compliance automation tools",
         "Plan for regular compliance reviews"]
    }
  }

  /** Distinct rules emit distinct ids, so the id of a record names its rule. */
  lemma PatternIdsDistinct(p: Pattern, q: Pattern)
    ensures p.Id() == q.Id() <==> p == q
  {
    if p != q {
      var a, b := p.Id(), q.Id();
      assert |a| != |b| || a[|a| - 1] != b[|b| - 1] by {
        match p.rule
        case RevenueTeamMismatch => assert |a| == 21 && a[20] == 'h';
        case MultinationalToolsGap => assert |a| == 23 && a[22] == 'p';
        case UrgencyAutomationNeed => assert |a| == 23 && a[22] == 'd';
        case IntegrationCapabilityGap => assert |a| == 26;
        case CustomerContractOpportunity => assert |a| == 29;
        case ScaleReadiness => assert |a| == 15;
        case ComplianceFocus => assert |a| == 16;
      }
    }
  }

  /** Two rules are critical, three are warnings and two are informational. */
  lemma SeverityTable(p: Pattern)
    ensures p.Severity() == Critical <==> p.rule == MultinationalToolsGap || p.rule == UrgencyAutomationNeed
    ensures p.Severity() == Info <==> p.rule == CustomerContractOpportunity || p.rule == ScaleReadiness
    ensures p.Severity() == Warning <==>
      p.rule == RevenueTeamMismatch || p.rule == IntegrationCapabilityGap || p.rule == ComplianceFocus
  {
  }

  /** The order in which the rules are evaluated and their records emitted. */
  const RuleOrder: seq<PatternId> := [
    RevenueTeamMismatch, MultinationalToolsGap, UrgencyAutomationNeed, IntegrationCapabilityGap,
    CustomerContractOpportunity, ScaleReadiness, ComplianceFocus]

  /** The position of each rule in the rule order. */
  function Position(id: PatternId): (k: nat)
    ensures k < |RuleOrder| && RuleOrder[k] == id
  {
    match id
    case RevenueTeamMismatch => 0
    case MultinationalToolsGap => 1
    case UrgencyAutomationNeed => 2
    case IntegrationCapabilityGap => 3
    case CustomerContractOpportunity => 4
    case ScaleReadiness => 5
    case ComplianceFocus => 6
  }

  /** The rule order lists every rule exactly once. */
  lemma PositionOfRule(k: nat)
    requires k < |RuleOrder|
    ensures Position(RuleOrder[k]) == k
  {
  }

  /** The condition of each rule. */
  predicate Fires(id: PatternId, r: QuoteResponses, s: ComplexityScores) {
    match id
    case RevenueTeamMismatch => s.revenue > 60 && IsLowTeamCapacity(r)
    case MultinationalToolsGap => IsMultiNational(r) && !HasEnterpriseTools(r)
    case UrgencyAutomationNeed => IsHighManualWork(r) && IsUrgentTimeline(r)
    case IntegrationCapabilityGap => NeedsComplexIntegrations(r) && HasLimitedTechCapability(r)
    case CustomerContractOpportunity => s.customer > 50 && HasStandardContracts(r)
    case ScaleReadiness => HasScaleIndicators(r, s)
    case ComplianceFocus => HasSignificantCompliance(r)
  }

  // ---- What detection returns ----

  /** The records of the rules among the first `n` of the rule order that fire, in rule order. */
  function DetectedUpTo(n: nat, r: QuoteResponses, s: ComplexityScores): (ps: seq<Pattern>)
    requires n <= |RuleOrder|
    ensures |ps| <= n
  {
    if n == 0 then []
    else
      var id := RuleOrder[n - 1];
      DetectedUpTo(n - 1, r, s) + (if Fires(id, r, s) then [Pattern(id)] else [])
  }

  /** The records of every firing rule, in rule order, neither filtered further nor sorted. */
  function Detected(r: QuoteResponses, s: ComplexityScores): (ps: seq<Pattern>)
    ensures |ps| <= 7
  {
    DetectedUpTo(|RuleOrder|, r, s)
  }

  /** The source's evaluation: seven guarded appends to a local list. */
  method DetectPatterns(r: QuoteResponses, s: ComplexityScores) returns (patterns: seq<Pattern>)
    ensures patterns == Detected(r, s)
  {
    patterns := [];
    if s.revenue > 60 && IsLowTeamCapacity(r) {
      patterns := patterns + [Pattern(RevenueTeamMismatch)];
    }
    assert patterns == DetectedUpTo(1, r, s);
    if IsMultiNational(r) && !HasEnterpriseTools(r) {
      patterns := patterns + [Pattern(MultinationalToolsGap)];
    }
    assert patterns == DetectedUpTo(2, r, s);
    if IsHighManualWork(r) && IsUrgentTimeline(r) {
      patterns := patterns + [Pattern(UrgencyAutomationNeed)];
    }
    assert patterns == DetectedUpTo(3, r, s);
    if NeedsComplexIntegrations(r) && HasLimitedTechCapability(r) {
      patterns := patterns + [Pattern(IntegrationCapabilityGap)];
    }
    assert patterns == DetectedUpTo(4, r, s);
    if s.customer > 50 && HasStandardContracts(r) {
      patterns := patterns + [Pattern(CustomerContractOpportunity)];
    }
    assert patterns == DetectedUpTo(5, r, s);
    if HasScaleIndicators(r, s) {
      patterns := patterns + [Pattern(ScaleReadiness)];
    }
    assert patterns == DetectedUpTo(6, r, s);
    if HasSignificantCompliance(r) {
      patterns := patterns + [Pattern(ComplianceFocus)];
    }
  }

  /** A rule's record is among the first `n` emitted exactly when the rule is among the first `n` and fires. */
  lemma {:induction false} DetectedUpToMembers(n: nat, r: QuoteResponses, s: ComplexityScores, id: PatternId)
    requires n <= |RuleOrder|
    ensures Pattern(id) in DetectedUpTo(n, r, s) <==> Position(id) < n && Fires(id, r, s)
  {
    if n > 0 {
      DetectedUpToMembers(n - 1, r, s, id);
      PositionOfRule(n - 1);
    }
  }

  /** A pattern is reported exactly when its rule fires. */
  lemma PatternReportedIffRuleFires(r: QuoteResponses, s: ComplexityScores, id: PatternId)
    ensures Pattern(id) in Detected(r, s) <==> Fires(id, r, s)
  {
    DetectedUpToMembers(|RuleOrder|, r, s, id);
  }

  /** The rule positions strictly increase along `ps`. */
  predicate InRuleOrder(ps: seq<Pattern>) {
    forall k, l :: 0 <= k < l < |ps| ==> Position(ps[k].rule) < Position(ps[l].rule)
  }

  lemma {:induction false} DetectedUpToInRuleOrder(n: nat, r: QuoteResponses, s: ComplexityScores)
    requires n <= |RuleOrder|
    ensures InRuleOrder(DetectedUpTo(n, r, s))
    ensures forall k :: 0 <= k < |DetectedUpTo(n, r, s)| ==> Position(DetectedUpTo(n, r, s)[k].rule) < n
  {
    if n > 0 {
      DetectedUpToInRuleOrder(n - 1, r, s);
      PositionOfRule(n - 1);
    }
  }

  /** Reported patterns appear in rule order, so no two share an id. */
  lemma DetectedInRuleOrder(r: QuoteResponses, s: ComplexityScores)
    ensures InRuleOrder(Detected(r, s))
    ensures forall k, l :: 0 <= k < l < |Detected(r, s)| ==> Detected(r, s)[k].Id() != Detected(r, s)[l].Id()
  {
    var ps := Detected(r, s);
    DetectedUpToInRuleOrder(|RuleOrder|, r, s);
    forall k, l | 0 <= k < l < |ps|
      ensures ps[k].Id() != ps[l].Id()
    {
      PatternIdsDistinct(ps[k], ps[l]);
    }
  }

  // ---- The rules, one by one ----

  lemma RevenueTeamMismatchRule(r: QuoteResponses, s: ComplexityScores)
    ensures Fires(RevenueTeamMismatch, r, s)
       <==> s.revenue > 60 && r.team.financeTeamSize in {Known(NoStaff), Known(Staff1To2)}
  {
  }

  /** A missing tool list counts as having no enterprise tool. */
  lemma MultinationalToolsGapRule(r: QuoteResponses, s: ComplexityScores)
    ensures Fires(MultinationalToolsGap, r, s)
       <==> IsMultiNational(r)
            && forall tool :: tool in r.technology.currentTools.GetOr([]) ==> !IsEnterpriseTool(tool)
  {
  }

  lemma UrgencyAutomationNeedRule(r: QuoteResponses, s: ComplexityScores)
    ensures Fires(UrgencyAutomationNeed, r, s)
       <==> r.painPoints.manualHours in {Known(Hours20To40), Known(Hours40Plus)}
            && r.goals.timelinePressure in {Known(UrgentTimeline), Known(CriticalTimeline)}
  {
  }

  lemma IntegrationCapabilityGapRule(r: QuoteResponses, s: ComplexityScores)
    ensures Fires(IntegrationCapabilityGap, r, s)
       <==> r.technology.integrationNeeds == Known(ComplexIntegration)
            && r.team.technicalCapability == Known(LimitedCapability)
  {
  }

  lemma CustomerContractOpportunityRule(r: QuoteResponses, s: ComplexityScores)
    ensures Fires(CustomerContractOpportunity, r, s)
       <==> s.customer > 50 && r.customer.contractComplexity == Known(StandardContracts)
  {
  }

  /** Scale readiness fires only for companies at 2m..10m revenue with the scale goal and overall below 60. */
  lemma ScaleReadinessRule(r: QuoteResponses, s: ComplexityScores)
    ensures Fires(ScaleReadiness, r, s)
       <==> "scale" in r.goals.primaryGoals.GetOr([]) && s.overall < 60
            && r.companyOverview.annualRevenue in {Known(Revenue2mTo5m), Known(Revenue5mTo10m)}
    ensures r.companyOverview.annualRevenue == Known(Revenue10mPlus) ==> !Fires(ScaleReadiness, r, s)
  {
  }

  /** Compliance focus needs three requirements; an absent list never fires it. */
  lemma ComplianceFocusRule(r: QuoteResponses, s: ComplexityScores)
    ensures Fires(ComplianceFocus, r, s) <==> Count(r.operational.complianceRequirements) >= 3
    ensures r.operational.complianceRequirements.None? ==> !Fires(ComplianceFocus, r, s)
  {
  }
}
