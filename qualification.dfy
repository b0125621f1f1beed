/**
 * Lead qualification (lib/analysis/qualification.ts).
 *
 * Five factor scores — budget alignment (at most 25), timeline readiness (20),
 * decision authority (15), problem urgency (20) and engagement interest (20) —
 * are collected into a list and summed; a lead with a total of 50 or more is
 * qualified. Each factor record's name, maximum and description are constants
 * of its kind, so a record is represented by its kind and its score.
 */
module Qualification {
  import opened Numeric
  import opened QuoteTypes

  // ---- Budget alignment ----

  /** The six priced budget bands in ascending order; "unsure" is not among them. */
  const AllBudgets: seq<BudgetRange> :=
    [BudgetUnder5k, Budget5kTo10k, Budget10kTo25k, Budget25kTo50k, Budget50kTo100k, Budget100kPlus]

  /** The budget bands that fit each tier. */
  function TierBudgets(tier: ServiceTier): (bands: seq<BudgetRange>)
    ensures |bands| > 0
  {
    match tier
    case Starter => [BudgetUnder5k, Budget5kTo10k]
    case Growth => [Budget5kTo10k, Budget10kTo25k]
    case Scale => [Budget10kTo25k, Budget25kTo50k]
    case Enterprise => [Budget25kTo50k, Budget50kTo100k, Budget100kPlus]
  }

  /** `Array.prototype.indexOf`: the first position of `x`, or -1. */
  function IndexOf<T(==)>(xs: seq<T>, x: T): (i: int)
    ensures -1 <= i < |xs|
    ensures i == -1 <==> x !in xs
    ensures 0 <= i ==> xs[i] == x && x !in xs[..i]
  {
    if xs == [] then -1
    else if xs[0] == x then 0
    else
      var j := IndexOf(xs[1..], x);
      assert j >= 0 ==> xs[..j + 1] == [xs[0]] + xs[1..][..j];
      if j == -1 then -1 else j + 1
  }

  /** The smallest element of a non-empty list (`Math.min(...xs)`). */
  function SeqMin(xs: seq<int>): (m: int)
    requires |xs| > 0
    ensures m in xs && forall k :: 0 <= k < |xs| ==> m <= xs[k]
  {
    if |xs| == 1 then xs[0]
    else
      var rest := SeqMin(xs[1..]);
      assert forall k :: 1 <= k < |xs| ==> xs[k] == xs[1..][k - 1];
      Min(xs[0], rest)
  }

  /** The largest element of a non-empty list (`Math.max(...xs)`). */
  function SeqMax(xs: seq<int>): (m: int)
    requires |xs| > 0
    ensures m in xs && forall k :: 0 <= k < |xs| ==> xs[k] <= m
  {
    if |xs| == 1 then xs[0]
    else
      var rest := SeqMax(xs[1..]);
      assert forall k :: 1 <= k < |xs| ==> xs[k] == xs[1..][k - 1];
      Max(xs[0], rest)
  }

  /** The position of a priced band in ascending order. */
  function BandPosition(b: BudgetRange): nat {
    match b
    case BudgetUnder5k => 0
    case Budget5kTo10k => 1
    case Budget10kTo25k => 2
    case Budget25kTo50k => 3
    case Budget50kTo100k => 4
    case Budget100kPlus => 5
    case BudgetUnsure => 6
  }

  /** The position of an answer among the priced bands; -1 for "unsure" and for an unlisted code. */
  function BudgetIndex(budget: Coded<BudgetRange>): (i: int)
    ensures -1 <= i < |AllBudgets|
  {
    match budget
    case Known(b) => if b == BudgetUnsure then -1 else BandPosition(b)
    case Unknown(_) => -1
  }

  function TierIndices(tier: ServiceTier): (indices: seq<int>)
    ensures |indices| == |TierBudgets(tier)| > 0
    ensures forall k :: 0 <= k < |indices| ==> indices[k] == BudgetIndex(Known(TierBudgets(tier)[k]))
  {
    var bands := TierBudgets(tier);
    seq(|bands|, k requires 0 <= k < |bands| => BudgetIndex(Known(bands[k])))
  }

  /**
   * "unsure" is neutral (10); a band of the tier aligns perfectly (25); the
   * band just below the tier's lowest or just above its highest is close (15);
   * anything else is misaligned (5).
   */
  function BudgetAlignment(budget: Coded<BudgetRange>, tier: ServiceTier): (score: int)
    ensures score == 5 || score == 10 || score == 15 || score == 25
    ensures score == 10 <==> budget == Known(BudgetUnsure)
    ensures score == 25 <==> budget.Known? && budget.value in TierBudgets(tier)
  {
    if budget == Known(BudgetUnsure) then 10
    else if budget.Known? && budget.value in TierBudgets(tier) then 25
    else
      var budgetIndex := BudgetIndex(budget);
      var indices := TierIndices(tier);
      if budgetIndex == SeqMin(indices) - 1 || budgetIndex == SeqMax(indices) + 1 then 15
      else 5
  }

  /** Each tier's bands are a contiguous run of the priced bands, from `lo` to `hi`. */
  function TierBandRange(tier: ServiceTier): (int, int) {
    match tier
    case Starter => (0, 1)
    case Growth => (1, 2)
    case Scale => (2, 3)
    case Enterprise => (3, 5)
  }

  /** Reference scoring by distance from the tier's run of bands. */
  function AlignmentByDistance(i: int, lo: int, hi: int): int {
    if lo <= i <= hi then 25 else if i == lo - 1 || i == hi + 1 then 15 else 5
  }

  /** Each priced band sits at its position in the list of bands, and "unsure" is not listed. */
  lemma PricedBandPositions()
    ensures |AllBudgets| == 6 && BudgetUnsure !in AllBudgets
    ensures forall k :: 0 <= k < |AllBudgets| ==> BandPosition(AllBudgets[k]) == k
  {
  }

  /** The band index is `indexOf` over the priced bands: each band at its position, "unsure" missing. */
  lemma BudgetIndexIsIndexOf(b: BudgetRange)
    ensures BudgetIndex(Known(b)) == IndexOf(AllBudgets, b)
  {
    var i := IndexOf(AllBudgets, b);
    PricedBandPositions();
    if b != BudgetUnsure {
      assert AllBudgets[BandPosition(b)] == b;
      assert 0 <= i && AllBudgets[i] == b;
      assert BandPosition(AllBudgets[i]) == i;
    }
  }

  /** The lowest and highest index of a tier's bands are the ends of its run. */
  lemma TierIndicesSpan(tier: ServiceTier)
    ensures SeqMin(TierIndices(tier)) == TierBandRange(tier).0
    ensures SeqMax(TierIndices(tier)) == TierBandRange(tier).1
  {
    var indices := TierIndices(tier);
    match tier
    case Starter =>
      assert indices == [0, 1];
    case Growth =>
      assert indices == [1, 2];
    case Scale =>
      assert indices == [2, 3];
    case Enterprise =>
      assert indices == [3, 4, 5];
  }

  /** A tier's bands are exactly the priced bands whose positions lie in its run. */
  lemma TierBudgetsAreRun(tier: ServiceTier, b: BudgetRange)
    ensures b in TierBudgets(tier) <==>
      b != BudgetUnsure && TierBandRange(tier).0 <= BandPosition(b) <= TierBandRange(tier).1
  {
  }

  /**
   * Apart from "unsure", budget alignment is the distance score of the band's
   * index against the tier's run. An unlisted code has index -1, which is
   * "one below" the starter run: it scores 15 for starter and 5 otherwise.
   */
  lemma BudgetAlignmentIsDistance(budget: Coded<BudgetRange>, tier: ServiceTier)
    requires budget != Known(BudgetUnsure)
    ensures BudgetAlignment(budget, tier)
         == AlignmentByDistance(BudgetIndex(budget), TierBandRange(tier).0, TierBandRange(tier).1)
  {
    TierIndicesSpan(tier);
    if budget.Known? {
      TierBudgetsAreRun(tier, budget.value);
    }
  }

  lemma UnknownBudgetAlignment(raw: string, tier: ServiceTier)
    requires Decoded(BudgetRangeCodes, Unknown(raw))
    ensures BudgetAlignment(Unknown(raw), tier) == (if tier == Starter then 15 else 5)
  {
    BudgetAlignmentIsDistance(Unknown(raw), tier);
  }

  /** Every tier has a perfectly aligned band and a close one. */
  lemma EveryTierHasAlignedBands(tier: ServiceTier)
    ensures exists b :: BudgetAlignment(Known(b), tier) == 25
    ensures exists b :: BudgetAlignment(Known(b), tier) == 15
  {
    TierIndicesSpan(tier);
    var b := TierBudgets(tier)[0];
    assert BudgetAlignment(Known(b), tier) == 25;
    var c := match tier
      case Starter => Budget10kTo25k
      case Growth => BudgetUnder5k
      case Scale => Budget5kTo10k
      case Enterprise => Budget10kTo25k;
    BudgetAlignmentIsDistance(Known(c), tier);
    assert BudgetAlignment(Known(c), tier) == 15;
  }

  // ---- The other four factors ----

  function ReadinessPoints(c: Coded<ImplementationReadiness>): (p: int)
    ensures 0 <= p <= 20 && (c.Unknown? ==> p == 0)
    ensures c.Known? ==> p >= 3
  {
    match c
    case Known(ReadyNow) => 20
    case Known(Ready1To3Months) => 16
    case Known(Ready3To6Months) => 10
    case Known(Ready6PlusMonths) => 5
    case Known(StillEvaluating) => 3
    case Unknown(_) => 0
  }

  function InvestmentPoints(c: Coded<InvestmentTimeline>): (p: int)
    ensures 0 <= p <= 20 && (c.Unknown? ==> p == 0)
    ensures c.Known? ==> p >= 3
  {
    match c
    case Known(InvestThisQuarter) => 20
    case Known(InvestNextQuarter) => 16
    case Known(InvestThisYear) => 10
    case Known(InvestNextYear) => 5
    case Known(InvestExploring) => 3
    case Unknown(_) => 0
  }

  /** The rounded mean of the readiness and investment-timeline points. */
  function TimelineReadiness(r: QuoteResponses): (score: int)
    ensures score == (ReadinessPoints(r.readiness.implementationReadiness)
                      + InvestmentPoints(r.budget.investmentTimeline) + 1) / 2
    ensures 0 <= score <= 20
  {
    var sum := ReadinessPoints(r.readiness.implementationReadiness) + InvestmentPoints(r.budget.investmentTimeline);
    RoundHalf(sum);
    Round(sum as real / 2.0)
  }

  /** Sole authority 15, small team 12, committee 8, board 5; an unlisted code counts as 5. */
  function DecisionAuthority(r: QuoteResponses): (score: int)
    ensures 5 <= score <= 15
    ensures r.budget.decisionProcess.Unknown? ==> score == 5
  {
    match r.budget.decisionProcess
    case Known(SoleDecision) => 15
    case Known(SmallTeamDecision) => 12
    case Known(CommitteeDecision) => 8
    case Known(BoardDecision) => 5
    case Unknown(_) => 5
  }

  function PressurePoints(c: Coded<TimelinePressure>): (p: int)
    ensures 0 <= p <= 12 && (c.Unknown? ==> p == 0)
    ensures c.Known? ==> p >= 3
  {
    match c
    case Known(CriticalTimeline) => 12
    case Known(UrgentTimeline) => 10
    case Known(ModerateTimeline) => 6
    case Known(FlexibleTimeline) => 3
    case Unknown(_) => 0
  }

  function ManualWorkPoints(c: Coded<ManualHours>): (p: int)
    ensures 0 <= p <= 8 && (c.Unknown? ==> p == 0)
    ensures c.Known? ==> p >= 2
  {
    match c
    case Known(Hours40Plus) => 8
    case Known(Hours20To40) => 6
    case Known(Hours10To20) => 4
    case Known(HoursUnder10) => 2
    case Unknown(_) => 0
  }

  function Urgency(r: QuoteResponses): (score: int)
    ensures 0 <= score <= 20
  {
    PressurePoints(r.goals.timelinePressure) + ManualWorkPoints(r.painPoints.manualHours)
  }

  /** Detailed quote 20, consultation 18, demo 15, more info 8, internal review 5; an unlisted code counts as 5. */
  function EngagementInterest(r: QuoteResponses): (score: int)
    ensures 5 <= score <= 20
    ensures r.readiness.preferredNextStep.Unknown? ==> score == 5
  {
    match r.readiness.preferredNextStep
    case Known(DetailedQuote) => 20
    case Known(Consultation) => 18
    case Known(Demo) => 15
    case Known(MoreInfo) => 8
    case Known(InternalReview) => 5
    case Unknown(_) => 5
  }

  /** A more pressing timeline or more manual hours never lowers urgency. */
  lemma UrgencyRanks(a: TimelinePressure, b: TimelinePressure, x: ManualHours, y: ManualHours)
    ensures PressureRank(a) <= PressureRank(b) ==> PressurePoints(Known(a)) <= PressurePoints(Known(b))
    ensures HoursRank(x) <= HoursRank(y) ==> ManualWorkPoints(Known(x)) <= ManualWorkPoints(Known(y))
  {
  }

  function PressureRank(p: TimelinePressure): nat {
    match p
    case FlexibleTimeline => 0
    case ModerateTimeline => 1
    case UrgentTimeline => 2
    case CriticalTimeline => 3
  }

  function HoursRank(h: ManualHours): nat {
    match h
    case HoursUnder10 => 0
    case Hours10To20 => 1
    case Hours20To40 => 2
    case Hours40Plus => 3
  }

  // ---- Factors and their total ----

  datatype FactorKind =
    | BudgetAlignmentFactor
    | TimelineReadinessFactor
    | DecisionAuthorityFactor
    | ProblemUrgencyFactor
    | EngagementInterestFactor
  {
    function Name(): string {
      match this
      case BudgetAlignmentFactor => "Budget Alignment"
      case TimelineReadinessFactor => "Timeline Readiness"
      case DecisionAuthorityFactor => "Decision Authority"
      case ProblemUrgencyFactor => "Problem Urgency"
      case EngagementInterestFactor => "Engagement Interest"
    }

    function MaxScore(): int {
      match this
      case BudgetAlignmentFactor => 25
      case TimelineReadinessFactor => 20
      case DecisionAuthorityFactor => 15
      case ProblemUrgencyFactor => 20
      case EngagementInterestFactor => 20
    }

    function Description(): string {
      match this
      case BudgetAlignmentFactor => "How well budget expectations align with recommended tier"
      case TimelineReadinessFactor => "Readiness to implement based on timeline"
      case DecisionAuthorityFactor => "Level of decision-making authority"
      case ProblemUrgencyFactor => "Urgency of addressing current challenges"
      case EngagementInterestFactor => "Interest level in moving forward"
    }
  }

  datatype QualificationFactor = QualificationFactor(kind: FactorKind, score: int)

  datatype QualificationResult = QualificationResult(score: int, isQualified: bool, factors: seq<QualificationFactor>)

  /** The five factors in the order they are collected. */
  function Factors(r: QuoteResponses, tier: ServiceTier): seq<QualificationFactor> {
    [QualificationFactor(BudgetAlignmentFactor, BudgetAlignment(r.budget.budgetRange, tier)),
     QualificationFactor(TimelineReadinessFactor, TimelineReadiness(r)),
     QualificationFactor(DecisionAuthorityFactor, DecisionAuthority(r)),
     QualificationFactor(ProblemUrgencyFactor, Urgency(r)),
     QualificationFactor(EngagementInterestFactor, EngagementInterest(r))]
  }

  /** The sum of the factor scores, from the first factor on. */
  function TotalScore(factors: seq<QualificationFactor>): int {
    if factors == [] then 0 else TotalScore(factors[..|factors| - 1]) + factors[|factors| - 1].score
  }

  function TotalMax(factors: seq<QualificationFactor>): int {
    if factors == [] then 0 else TotalMax(factors[..|factors| - 1]) + factors[|factors| - 1].kind.MaxScore()
  }

  lemma TotalsOfFive(a: QualificationFactor, b: QualificationFactor, c: QualificationFactor,
                     d: QualificationFactor, e: QualificationFactor)
    ensures TotalScore([a, b, c, d, e]) == a.score + b.score + c.score + d.score + e.score
    ensures TotalMax([a, b, c, d, e]) == a.kind.MaxScore() + b.kind.MaxScore() + c.kind.MaxScore()
                                         + d.kind.MaxScore() + e.kind.MaxScore()
  {
    var five := [a, b, c, d, e];
    assert five[..4] == [a, b, c, d] && [a, b, c, d][..3] == [a, b, c];
    assert [a, b, c][..2] == [a, b] && [a, b][..1] == [a] && [a][..0] == [];
    assert TotalScore([a]) == a.score;
    assert TotalScore([a, b]) == TotalScore([a]) + b.score;
    assert TotalScore([a, b, c]) == TotalScore([a, b]) + c.score;
    assert TotalScore([a, b, c, d]) == TotalScore([a, b, c]) + d.score;
    assert TotalScore(five) == TotalScore([a, b, c, d]) + e.score;
    assert TotalMax([a]) == a.kind.MaxScore();
    assert TotalMax([a, b]) == TotalMax([a]) + b.kind.MaxScore();
    assert TotalMax([a, b, c]) == TotalMax([a, b]) + c.kind.MaxScore();
    assert TotalMax([a, b, c, d]) == TotalMax([a, b, c]) + d.kind.MaxScore();
  }

  /** What `calculateQualification` returns; the complexity scores are not consulted. */
  function Qualification(r: QuoteResponses, s: ComplexityScores, tier: ServiceTier): (q: QualificationResult)
    ensures q.isQualified <==> q.score >= 50
  {
    var factors := Factors(r, tier);
    var total := TotalScore(factors);
    QualificationResult(total, total >= 50, factors)
  }

  /** Collects the five factors, then folds their scores into the total. */
  method CalculateQualification(r: QuoteResponses, s: ComplexityScores, tier: ServiceTier)
    returns (result: QualificationResult)
    ensures result == Qualification(r, s, tier)
  {
    var factors: seq<QualificationFactor> := [];
    var budgetScore := BudgetAlignment(r.budget.budgetRange, tier);
    factors := factors + [QualificationFactor(BudgetAlignmentFactor, budgetScore)];
    var timelineScore := TimelineReadiness(r);
    factors := factors + [QualificationFactor(TimelineReadinessFactor, timelineScore)];
    var authorityScore := DecisionAuthority(r);
    factors := factors + [QualificationFactor(DecisionAuthorityFactor, authorityScore)];
    var urgencyScore := Urgency(r);
    factors := factors + [QualificationFactor(ProblemUrgencyFactor, urgencyScore)];
    var engagementScore := EngagementInterest(r);
    factors := factors + [QualificationFactor(EngagementInterestFactor, engagementScore)];

    assert factors == Factors(r, tier);

    var totalScore := 0;
    var i := 0;
    while i < |factors|
      invariant 0 <= i <= |factors|
      invariant totalScore == TotalScore(factors[..i])
    {
      assert factors[..i + 1][..i] == factors[..i];
      totalScore := totalScore + factors[i].score;
      i := i + 1;
    }
    assert factors[..i] == factors;
    var isQualified := totalScore >= 50;
    result := QualificationResult(totalScore, isQualified, factors);
  }

  /** Each factor lies between 0 and its maximum, and the maxima add up to 100. */
  lemma FactorsWithinMaxima(r: QuoteResponses, tier: ServiceTier)
    ensures forall k :: 0 <= k < 5 ==> 0 <= Factors(r, tier)[k].score <= Factors(r, tier)[k].kind.MaxScore()
    ensures TotalMax(Factors(r, tier)) == 100
  {
    var fs := Factors(r, tier);
    TotalsOfFive(fs[0], fs[1], fs[2], fs[3], fs[4]);
  }

  /** The total lies between 15 (every factor at its floor) and 100. */
  lemma QualificationBounds(r: QuoteResponses, s: ComplexityScores, tier: ServiceTier)
    ensures 15 <= Qualification(r, s, tier).score <= 100
  {
    var fs := Factors(r, tier);
    TotalsOfFive(fs[0], fs[1], fs[2], fs[3], fs[4]);
    assert fs[0].score >= 5 && fs[2].score >= 5 && fs[4].score >= 5;
  }

  /** A decisive lead with a matching budget, immediate readiness and a request for a quote qualifies, whatever its urgency. */
  lemma DecisiveAlignedLeadQualifies(r: QuoteResponses, s: ComplexityScores, tier: ServiceTier)
    requires r.budget.budgetRange.Known? && r.budget.budgetRange.value in TierBudgets(tier)
    requires r.readiness.implementationReadiness == Known(ReadyNow)
    requires r.budget.investmentTimeline == Known(InvestThisQuarter)
    requires r.budget.decisionProcess == Known(SoleDecision)
    requires r.readiness.preferredNextStep == Known(DetailedQuote)
    ensures Qualification(r, s, tier).score >= 80
    ensures Qualification(r, s, tier).isQualified
  {
    var fs := Factors(r, tier);
    TotalsOfFive(fs[0], fs[1], fs[2], fs[3], fs[4]);
  }

  /** Without a matching budget, readiness or authority, a lead that only asks for information is not qualified. */
  lemma DisengagedLeadNotQualified(r: QuoteResponses, s: ComplexityScores, tier: ServiceTier)
    requires r.budget.budgetRange == Known(BudgetUnsure)
    requires r.readiness.implementationReadiness == Known(StillEvaluating)
    requires r.budget.investmentTimeline == Known(InvestExploring)
    requires r.budget.decisionProcess == Known(BoardDecision)
    requires r.readiness.preferredNextStep == Known(MoreInfo)
    ensures !Qualification(r, s, tier).isQualified
  {
    var fs := Factors(r, tier);
    TotalsOfFive(fs[0], fs[1], fs[2], fs[3], fs[4]);
  }
}
