/**
 * Service tier (lib/analysis/tiers.ts).
 *
 * The overall complexity is averaged with a company-size score, itself the
 * mean of a revenue level and an employee level, and three strict thresholds
 * (25, 50, 75) pick the tier. Every quantity involved is a multiple of 1/4, so
 * the source's floating-point comparisons are exact and each one is an integer
 * comparison of 2 * overall + revenue level + employee level.
 */
module Tiers {
  import opened QuoteTypes

  /** Revenue band as a size level; an unlisted band counts as 30. */
  function RevenueLevel(c: Coded<AnnualRevenue>): (level: int)
    ensures 10 <= level <= 90
    ensures c.Unknown? ==> level == 30
  {
    match c
    case Known(PreRevenue) => 10
    case Known(RevenueUnder500k) => 20
    case Known(Revenue500kTo2m) => 35
    case Known(Revenue2mTo5m) => 50
    case Known(Revenue5mTo10m) => 70
    case Known(Revenue10mPlus) => 90
    case Unknown(_) => 30
  }

  /** Head-count band as a size level; an unlisted band counts as 30. */
  function EmployeeLevel(c: Coded<EmployeeCount>): (level: int)
    ensures 10 <= level <= 90
    ensures c.Unknown? ==> level == 30
  {
    match c
    case Known(Employees1To5) => 10
    case Known(Employees6To15) => 25
    case Known(Employees16To30) => 40
    case Known(Employees31To50) => 55
    case Known(Employees51To100) => 70
    case Known(Employees100Plus) => 90
    case Unknown(_) => 30
  }

  /** The position of a revenue band in its listed order. */
  function RevenueRank(b: AnnualRevenue): nat {
    match b
    case PreRevenue => 0
    case RevenueUnder500k => 1
    case Revenue500kTo2m => 2
    case Revenue2mTo5m => 3
    case Revenue5mTo10m => 4
    case Revenue10mPlus => 5
  }

  function EmployeeRank(b: EmployeeCount): nat {
    match b
    case Employees1To5 => 0
    case Employees6To15 => 1
    case Employees16To30 => 2
    case Employees31To50 => 3
    case Employees51To100 => 4
    case Employees100Plus => 5
  }

  /** Both size tables grow strictly with the band, from 10 at the smallest to 90 at the largest. */
  lemma SizeLevelsIncrease(a: AnnualRevenue, b: AnnualRevenue, e: EmployeeCount, f: EmployeeCount)
    ensures RevenueRank(a) < RevenueRank(b) ==> RevenueLevel(Known(a)) < RevenueLevel(Known(b))
    ensures EmployeeRank(e) < EmployeeRank(f) ==> EmployeeLevel(Known(e)) < EmployeeLevel(Known(f))
    ensures RevenueLevel(Known(PreRevenue)) == 10 && RevenueLevel(Known(Revenue10mPlus)) == 90
    ensures EmployeeLevel(Known(Employees1To5)) == 10 && EmployeeLevel(Known(Employees100Plus)) == 90
  {
  }

  /** `(overall + (revenueLevel + employeeLevel) / 2) / 2`, exactly. */
  function CombinedScore(overall: int, revenueLevel: int, employeeLevel: int): real {
    var sizeScore := (revenueLevel + employeeLevel) as real / 2.0;
    (overall as real + sizeScore) / 2.0
  }

  /** Tier from a combined score, as the source's if/else-if chain. */
  function TierOf(combined: real): ServiceTier {
    if combined < 25.0 then Starter
    else if combined < 50.0 then Growth
    else if combined < 75.0 then Scale
    else Enterprise
  }

  /**
   * Independent integer reference: the tier from the integer sum
   * `2 * overall + revenueLevel + employeeLevel`, four times the combined score.
   */
  function TierOfQuadrupled(q: int): ServiceTier {
    if q < 100 then Starter else if q < 200 then Growth else if q < 300 then Scale else Enterprise
  }

  function DetermineTier(r: QuoteResponses, s: ComplexityScores): (tier: ServiceTier)
    ensures tier == TierOfQuadrupled(2 * s.overall + RevenueLevel(r.companyOverview.annualRevenue)
                                     + EmployeeLevel(r.companyOverview.employeeCount))
  {
    var revenueLevel := RevenueLevel(r.companyOverview.annualRevenue);
    var employeeLevel := EmployeeLevel(r.companyOverview.employeeCount);
    var combined := CombinedScore(s.overall, revenueLevel, employeeLevel);
    CombinedIsQuarterOfSum(s.overall, revenueLevel, employeeLevel);
    TierOf(combined)
  }

  /** The combined score is a quarter of the integer sum, so each threshold test is an integer test. */
  lemma CombinedIsQuarterOfSum(overall: int, revenueLevel: int, employeeLevel: int)
    ensures CombinedScore(overall, revenueLevel, employeeLevel) == (2 * overall + revenueLevel + employeeLevel) as real / 4.0
    ensures TierOf(CombinedScore(overall, revenueLevel, employeeLevel))
         == TierOfQuadrupled(2 * overall + revenueLevel + employeeLevel)
  {
  }

  /** Boundary values 25, 50 and 75 of the combined score go to the higher tier. */
  lemma BoundariesGoUp()
    ensures TierOf(25.0) == Growth && TierOf(50.0) == Scale && TierOf(75.0) == Enterprise
    ensures TierOf(24.75) == Starter && TierOf(49.75) == Growth && TierOf(74.75) == Scale
  {
  }

  /** With the company-size answers fixed, a higher overall complexity never gives a lower tier. */
  lemma TierMonotoneInComplexity(r: QuoteResponses, s: ComplexityScores, s': ComplexityScores)
    requires s.overall <= s'.overall
    ensures DetermineTier(r, s).Rank() <= DetermineTier(r, s').Rank()
  {
  }

  /** A larger combined score never gives a lower tier. */
  lemma TierMonotoneInCombined(x: real, y: real)
    requires x <= y
    ensures TierOf(x).Rank() <= TierOf(y).Rank()
  {
  }

  datatype TierInfo = TierInfo(name: string, description: string)

  function UpperAscii(c: char): (u: char)
    ensures 'a' <= c <= 'z' ==> 'A' <= u <= 'Z' && u as int == c as int - 32
    ensures !('a' <= c <= 'z') ==> u == c
  {
    if 'a' <= c <= 'z' then (c as int - 32) as char else c
  }

  /** The display entry of each tier: its name is the wire code with a capital initial. */
  function GetTierInfo(tier: ServiceTier): (info: TierInfo)
    ensures |info.name| == |tier.Code()| > 0
    ensures info.name[0] == UpperAscii(tier.Code()[0]) && info.name[1..] == tier.Code()[1..]
    ensures |info.description| > 0
  {
    match tier
    case Starter => TierInfo("Starter", "Ideal for early-stage companies with straightforward operations")
    case Growth => TierInfo("Growth", "For scaling companies with increasing operational complexity")
    case Scale => TierInfo("Scale", "For established companies with significant operational needs")
    case Enterprise => TierInfo("Enterprise", "For large organizations with complex, multi-faceted operations")
  }
}
