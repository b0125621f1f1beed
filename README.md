# Fulcrum quote engine: a Dafny model

This project models the quote engine of the Fulcrum questionnaire. A prospect
answers 38 questions in eleven sections. The engine turns those answers into:

- four complexity scores (revenue, customer, operational, technology) and their rounded mean;
- a service tier (starter, growth, scale, enterprise);
- a price estimate with a confidence level;
- the advisory patterns whose rules fire;
- a lead-qualification score out of 100, qualified from 50 up.

Beside the engine the model covers:

- the schema that a complete set of answers must satisfy;
- the questionnaire form's state reducer, its per-section validation and its question numbering;
- the multi-select widget's click handling;
- the two computed strings of the outgoing e-mails: the PDF attachment's file name and the notification subject.

The modules follow the source files:

| module | file | form |
|---|---|---|
| `QuoteTypes` | answer records, answer codes, scores, tiers | datatypes |
| `Scores` | `lib/analysis/scores.ts` | functions, plus the four step-by-step score methods proved equal to them |
| `Tiers` | `lib/analysis/tiers.ts` | functions |
| `Pricing` | `lib/analysis/pricing.ts` | functions over exact reals |
| `Patterns` | `lib/analysis/patterns.ts` | a rule table and a method that appends records in rule order |
| `Qualification` | `lib/analysis/qualification.ts` | functions, plus a method that pushes the five factors and sums them |
| `Analysis` | `lib/analysis/index.ts` | the pipeline as a function and as the source's sequence of calls |
| `Schema` | `lib/validation/schema.ts` | the validity predicate |
| `Questions` | `lib/questions.ts` | the section table: ids, widgets, required flags, limits |
| `QuoteForm` | `components/quote/QuoteForm.tsx` | the reducer, the numbering loop and the validation loop |
| `CheckboxGroup` | `components/ui/CheckboxGroup.tsx` | functions |
| `EmailSend` | `lib/email/send.ts` | functions |

Each categorical answer is a `Coded<E>`. It is either one of the listed codes (`Known`) or some other string
(`Unknown`). Each lookup table's `|| 0`, `|| 5` or `|| 30` fallback is therefore an explicit case. Lists the
source reads through `?.length || 0` are `Option<seq<string>>`.

`Math.round` is `Round(x) = floor(x + 0.5)`. Two facts are proved about it: the overall score is
`(sum + 2) / 4` and the timeline score is `(sum + 1) / 2`.

The confidence level compares a variance with 200 and 400. It is proved equal to comparing the integer spread
`sum of (4v - S)^2` with 12800 and 25600.

Each imperative computation is a `method` proved against the function the rest of the model uses:

- the four score computations, each a sequence of `+=` steps;
- pattern detection, a sequence of guarded appends;
- the qualification factors, pushed one by one and summed;
- the question numbering, a loop;
- the section validation, a loop.

## Model

| member | source | states |
|---|---|---|
| `QuoteTypes.Decode` | lib/validation/schema.ts:15-17 | an answer is a listed code exactly when the code table holds it; otherwise the raw string is kept |
| `QuoteTypes.DecodeIsDecoded` | lib/validation/schema.ts:15-17 | decoding never yields an unlisted answer holding a listed code, and an unlisted string decodes to itself |
| `QuoteTypes.Count` | lib/analysis/scores.ts:11 | an absent list counts 0 entries, a present one its length |
| `Numeric.Round` | lib/analysis/scores.ts:145-150 | the result is the integer nearest to x, halves rounding up |
| `Numeric.RoundMonotone` | lib/analysis/pricing.ts:38-47 | rounding preserves order |
| `Numeric.RoundQuarter` | lib/analysis/scores.ts:145-150 | rounding a quarter of an integer sum is `(s + 2) / 4` |
| `Numeric.RoundHalf` | lib/analysis/qualification.ts:128-130 | rounding half an integer sum is `(s + 1) / 2` |
| `Scores.RecurringBonus` | lib/analysis/scores.ts:15-21 | 0..30 points; an unlisted share gives 0 |
| `Scores.CustomerCountPoints` | lib/analysis/scores.ts:35-42 | 0..80 points; a listed count gives at least 10, an unlisted one 0 |
| `Scores.ContractPoints` | lib/analysis/scores.ts:48-54 | 0..40 points; 0 exactly for standard contracts or an unlisted code |
| `Scores.SalesCyclePoints` | lib/analysis/scores.ts:57-64 | 0..40 points; an unlisted cycle gives 0 |
| `Scores.LocationPoints` | lib/analysis/scores.ts:74-80 | 0..50 points; 0 exactly for one location or an unlisted code |
| `Scores.CurrencyPoints` | lib/analysis/scores.ts:83-89 | 0..50 points; 0 exactly for one currency or an unlisted code |
| `Scores.EntityPoints` | lib/analysis/scores.ts:92-98 | 0..40 points; 0 exactly for one entity or an unlisted code |
| `Scores.IntegrationPoints` | lib/analysis/scores.ts:116-122 | 0..60 points; 0 exactly for no integration or an unlisted code |
| `Scores.MigrationPoints` | lib/analysis/scores.ts:125-132 | 0..60 points; 0 exactly for no migration or an unlisted code |
| `Scores.RevenueComplexity` | lib/analysis/scores.ts:4-28 | capped at 100; non-negative when the slider is |
| `Scores.CustomerComplexity` | lib/analysis/scores.ts:31-67 | capped at 100; non-negative when the slider is |
| `Scores.OperationalComplexity` | lib/analysis/scores.ts:70-105 | within 0..100 |
| `Scores.TechnologyComplexity` | lib/analysis/scores.ts:108-135 | within 0..100 |
| `Scores.CalculateRevenueComplexity` | lib/analysis/scores.ts:4-28 | the step-by-step accumulation equals the revenue score |
| `Scores.CalculateCustomerComplexity` | lib/analysis/scores.ts:31-67 | the step-by-step accumulation equals the customer score |
| `Scores.CalculateOperationalComplexity` | lib/analysis/scores.ts:70-105 | the step-by-step accumulation equals the operational score |
| `Scores.CalculateTechnologyComplexity` | lib/analysis/scores.ts:108-135 | the step-by-step accumulation equals the technology score |
| `Scores.CalculateAllScores` | lib/analysis/scores.ts:138-159 | the overall score is the rounded mean of the four and lies between the least and the greatest of them, at most 100 |
| `Scores.OverallIsRoundedMean` | lib/analysis/scores.ts:145-150 | rounding the four quarter-weighted scores gives `(sum + 2) / 4`, which lies between their minimum and maximum |
| `Scores.ScoresInRange` | lib/analysis/scores.ts:138-159 | with non-negative sliders, all five scores lie in 0..100 |
| `Scores.RecurringBonusIsInverse` | lib/analysis/scores.ts:15-21 | the less recurring the revenue, the larger the bonus: 30 - 10 per band |
| `Scores.OperationalMonotoneInCompliance` | lib/analysis/scores.ts:101-104 | one more compliance requirement never lowers the operational score, and adds 8 below the cap |
| `Scores.RevenueMonotoneInPricingModels` | lib/analysis/scores.ts:11-12 | one more pricing model never lowers the revenue score |
| `Scores.AbsentListsCountAsEmpty` | lib/analysis/scores.ts:11-25 | an absent list scores as an empty one |
| `Tiers.RevenueLevel` | lib/analysis/tiers.ts:27-37 | 10..90; an unlisted band gives 30 |
| `Tiers.EmployeeLevel` | lib/analysis/tiers.ts:39-49 | 10..90; an unlisted band gives 30 |
| `Tiers.SizeLevelsIncrease` | lib/analysis/tiers.ts:27-49 | both size tables increase strictly with the band, from 10 to 90 |
| `Tiers.DetermineTier` | lib/analysis/tiers.ts:4-25 | the tier is the one an integer reference assigns to four times the combined score (cut at 100, 200, 300) |
| `Tiers.CombinedIsQuarterOfSum` | lib/analysis/tiers.ts:12-24 | the combined score is a quarter of `2 * overall + revenue level + employee level`, and both tier rules agree |
| `Tiers.BoundariesGoUp` | lib/analysis/tiers.ts:16-24 | a combined score of exactly 25, 50 or 75 already gets the higher tier |
| `Tiers.TierMonotoneInComplexity` | lib/analysis/tiers.ts:4-25 | a higher overall complexity never gives a lower tier |
| `Tiers.TierMonotoneInCombined` | lib/analysis/tiers.ts:16-24 | the tier rank grows with the combined score |
| `Tiers.GetTierInfo` | lib/analysis/tiers.ts:52-73 | the display name is the tier's code with its first letter upper-cased; the description is non-empty |
| `Pricing.BasePricing` | lib/analysis/pricing.ts:4-9 | each monthly range is positive and non-empty |
| `Pricing.ImplementationPricing` | lib/analysis/pricing.ts:12-17 | each implementation range is positive and non-empty |
| `Pricing.BaseRangesAreContiguous` | lib/analysis/pricing.ts:4-17 | each tier's range starts where the previous tier's ends |
| `Pricing.IntegrationAdjustment` | lib/analysis/pricing.ts:62-70 | 1.0..1.5; an unlisted need gives 1.0 |
| `Pricing.MigrationAdjustment` | lib/analysis/pricing.ts:72-81 | 1.0..1.6; an unlisted migration gives 1.0 |
| `Pricing.ComplexityMultiplier` | lib/analysis/pricing.ts:29 | 1.0..1.5 for an overall score in 0..100 |
| `Pricing.ScaledPriceMonotone` | lib/analysis/pricing.ts:38-47 | a rounded price grows with its base and its multiplier |
| `Pricing.FourTermSums` | lib/analysis/pricing.ts:107-110 | the two reductions over four values, written out |
| `Pricing.VarianceOfSubScores` | lib/analysis/pricing.ts:107-110 | the variance of the four scores is their integer spread over 64 |
| `Pricing.DetermineConfidence` | lib/analysis/pricing.ts:83-105 | high exactly for variance below 200 with budget and timeline known; medium exactly for variance below 400 or both known (and not high); low exactly otherwise |
| `Pricing.CalculatePricing` | lib/analysis/pricing.ts:20-60 | the estimate carries the tier and the confidence level; its ranges are ordered; for a score in 0..100 each bound lies between the tier's base and the base scaled by the largest multipliers |
| `Pricing.PricingBounds` | lib/analysis/pricing.ts:38-47 | a range scaled by one multiplier stays ordered, above its base and below its ceiling |
| `Pricing.ScaledPriceAtLeastBase` | lib/analysis/pricing.ts:38-47 | multipliers of at least 1 never lower a price below its base |
| `Pricing.ScaledPriceAtMost` | lib/analysis/pricing.ts:38-47 | a price never exceeds its base times the largest multipliers |
| `Pricing.PricesMonotoneInComplexity` | lib/analysis/pricing.ts:29-47 | a higher overall score never lowers any of the four prices |
| `Patterns.PatternIdsDistinct` | lib/analysis/patterns.ts:10-100 | two records have the same id exactly when they come from the same rule |
| `Patterns.SeverityTable` | lib/analysis/patterns.ts:13-103 | which rules are critical, which warnings and which informational |
| `Patterns.Position` | lib/analysis/patterns.ts:4-112 | every rule has its place in the order of the checks |
| `Patterns.PositionOfRule` | lib/analysis/patterns.ts:4-112 | the place of the k-th rule is k |
| `Patterns.DetectedUpTo` | lib/analysis/patterns.ts:4-112 | the first n checks emit at most n records |
| `Patterns.Detected` | lib/analysis/patterns.ts:4-112 | at most seven records |
| `Patterns.DetectPatterns` | lib/analysis/patterns.ts:4-112 | the seven checks, appending in turn, return the records of the rules that fire, in rule order |
| `Patterns.DetectedUpToMembers` | lib/analysis/patterns.ts:4-112 | a record is among the first n exactly when its rule is among the first n checks and fires |
| `Patterns.PatternReportedIffRuleFires` | lib/analysis/patterns.ts:4-112 | a record is reported exactly when its rule fires |
| `Patterns.DetectedUpToInRuleOrder` | lib/analysis/patterns.ts:4-112 | records come out strictly in rule order |
| `Patterns.DetectedInRuleOrder` | lib/analysis/patterns.ts:4-112 | the report is in rule order and no id appears twice |
| `Patterns.RevenueTeamMismatchRule` | lib/analysis/patterns.ts:8-20 | fires exactly for revenue complexity above 60 with a finance team of 0 to 2 |
| `Patterns.MultinationalToolsGapRule` | lib/analysis/patterns.ts:23-35 | fires exactly when any of currencies, entities or locations is not "1" and no current tool is an ERP |
| `Patterns.UrgencyAutomationNeedRule` | lib/analysis/patterns.ts:38-50 | fires exactly for 20+ manual hours with an urgent or critical timeline |
| `Patterns.IntegrationCapabilityGapRule` | lib/analysis/patterns.ts:53-65 | fires exactly for complex integrations with limited technical capability |
| `Patterns.CustomerContractOpportunityRule` | lib/analysis/patterns.ts:68-80 | fires exactly for customer complexity above 50 with standard contracts |
| `Patterns.ScaleReadinessRule` | lib/analysis/patterns.ts:164-172 | fires exactly for a "scale" goal, overall below 60 and revenue 2m to 10m; never for revenue above 10m |
| `Patterns.ComplianceFocusRule` | lib/analysis/patterns.ts:174-176 | fires exactly for three or more compliance requirements; never when the list is absent |
| `Qualification.TierBudgets` | lib/analysis/qualification.ts:83-88 | every tier lists at least one budget band |
| `Qualification.IndexOf` | lib/analysis/qualification.ts:96 | the first position of x, or -1 exactly when x is absent |
| `Qualification.SeqMin` | lib/analysis/qualification.ts:98 | an element of the list no larger than any other |
| `Qualification.SeqMax` | lib/analysis/qualification.ts:99 | an element of the list no smaller than any other |
| `Qualification.BudgetIndex` | lib/analysis/qualification.ts:94-96 | a position among the six priced bands, or -1 |
| `Qualification.TierIndices` | lib/analysis/qualification.ts:97 | the position of each of the tier's bands, in order |
| `Qualification.BudgetAlignment` | lib/analysis/qualification.ts:79-106 | one of 5, 10, 15, 25; 10 exactly for "unsure"; 25 exactly for a band of the tier |
| `Qualification.PricedBandPositions` | lib/analysis/qualification.ts:94 | the six priced bands sit at positions 0 to 5; "unsure" is not among them |
| `Qualification.BudgetIndexIsIndexOf` | lib/analysis/qualification.ts:94-96 | the band position is `indexOf` in the list of priced bands |
| `Qualification.TierIndicesSpan` | lib/analysis/qualification.ts:97-99 | the least and greatest positions of the tier's bands |
| `Qualification.TierBudgetsAreRun` | lib/analysis/qualification.ts:83-94 | each tier's bands are exactly a contiguous run of priced bands |
| `Qualification.BudgetAlignmentIsDistance` | lib/analysis/qualification.ts:90-105 | apart from "unsure", the score is 25 inside the tier's run, 15 next to it, and 5 further away |
| `Qualification.UnknownBudgetAlignment` | lib/analysis/qualification.ts:90-105 | a budget string that is none of the listed codes scores 15 for the starter tier (position -1 is next to 0) and 5 otherwise |
| `Qualification.EveryTierHasAlignedBands` | lib/analysis/qualification.ts:83-105 | every tier has a band scoring 25 and one scoring 15 |
| `Qualification.ReadinessPoints` | lib/analysis/qualification.ts:112-118 | 3..20 points for a listed answer, 0 otherwise |
| `Qualification.InvestmentPoints` | lib/analysis/qualification.ts:120-126 | 3..20 points for a listed answer, 0 otherwise |
| `Qualification.TimelineReadiness` | lib/analysis/qualification.ts:108-131 | the rounded mean of the two point values, within 0..20 |
| `Qualification.DecisionAuthority` | lib/analysis/qualification.ts:133-144 | 5..15; an unlisted process gives 5 |
| `Qualification.PressurePoints` | lib/analysis/qualification.ts:150-155 | 3..12 points for a listed pressure, 0 otherwise |
| `Qualification.ManualWorkPoints` | lib/analysis/qualification.ts:157-162 | 2..8 points for a listed answer, 0 otherwise |
| `Qualification.Urgency` | lib/analysis/qualification.ts:146-165 | within 0..20 |
| `Qualification.EngagementInterest` | lib/analysis/qualification.ts:167-179 | 5..20; an unlisted next step gives 5 |
| `Qualification.UrgencyRanks` | lib/analysis/qualification.ts:150-162 | more timeline pressure or more manual hours never scores fewer points |
| `Qualification.TotalsOfFive` | lib/analysis/qualification.ts:69 | the sum over five factors, written out |
| `Qualification.Qualification` | lib/analysis/qualification.ts:17-77 | qualified exactly when the total is at least 50 |
| `Qualification.CalculateQualification` | lib/analysis/qualification.ts:17-77 | pushing the five factors in turn and summing them gives the qualification |
| `Qualification.FactorsWithinMaxima` | lib/analysis/qualification.ts:24-67 | each factor lies between 0 and its stated maximum, and the maxima add up to 100 |
| `Qualification.QualificationBounds` | lib/analysis/qualification.ts:69-70 | the total lies in 15..100 |
| `Qualification.DecisiveAlignedLeadQualifies` | lib/analysis/qualification.ts:69-70 | an aligned budget, readiness now, this quarter, a sole decision maker and a quote request score at least 80 and qualify |
| `Qualification.DisengagedLeadNotQualified` | lib/analysis/qualification.ts:69-70 | an unsure budget, still evaluating, exploring, a board decision and a request for more information do not qualify |
| `Schema.OptionalAnswersUnconstrained` | lib/validation/schema.ts:4-103 | the phone, q16, q36 and the entries of the lists do not affect validity |
| `Schema.ValidAnswersAreListedCodes` | lib/validation/schema.ts:13-88 | a valid record holds only listed codes |
| `Schema.ValidRejects` | lib/validation/schema.ts:21-66 | more than three challenges, an empty bottleneck, a slider outside 1..10 or no tool list make a record invalid |
| `Analysis.AnalyzeQuote` | lib/analysis/index.ts:15-39 | each step receives the same scores and the chosen tier; the price carries that tier; qualified exactly from 50; the score lies in 15..100; at most seven patterns |
| `Analysis.RunAnalysis` | lib/analysis/index.ts:15-39 | the source's sequence of calls, through the step-by-step methods, gives that analysis |
| `Analysis.ReportedPatterns` | lib/analysis/index.ts:26 | a pattern is reported exactly when its rule fires on the analysis's own scores, in rule order |
| `Analysis.ValidAnalysisBounds` | lib/analysis/index.ts:15-39 | a valid record gets scores within their floors and 100, ordered prices within the tier's bounds, and a qualification score of at least 23 |
| `Analysis.ValidQualificationFloor` | lib/analysis/qualification.ts:17-77 | on a valid record every factor is above its fallback, so the total is at least 23 |
| `Questions.SectionSizes` | lib/questions.ts:3-620 | eleven sections: contact with five questions, then nine of four and one of two |
| `QuoteForm.FormReducer` | components/quote/QuoteForm.tsx:31-58 | each action changes only its own fields; the section stays non-negative unless a negative one is loaded |
| `QuoteForm.SetResponseEffect` | components/quote/QuoteForm.tsx:33-38 | the answer is stored and its error cleared; no other answer, error or field changes |
| `QuoteForm.ClearErrorEffect` | components/quote/QuoteForm.tsx:45-46 | the one error is cleared, nothing else changes |
| `QuoteForm.NavigationRoundTrip` | components/quote/QuoteForm.tsx:39-42 | back from the first section stays there; forward then back, or back then forward from section 1 on, restores the state |
| `QuoteForm.SectionNeverNegative` | components/quote/QuoteForm.tsx:31-58 | no sequence of actions without a negative load makes the section negative |
| `QuoteForm.ForwardSteps` | components/quote/QuoteForm.tsx:39-40 | n forward steps advance the section by n |
| `QuoteForm.ForwardPastLastSection` | components/quote/QuoteForm.tsx:39-40 | eleven forward steps from the start reach index 11, one past the last section, as the reducer does not clamp |
| `QuoteForm.SubmitLifecycle` | components/quote/QuoteForm.tsx:47-52 | starting clears the error and sets the flag; success and failure clear the flag; failure records its message |
| `QuoteForm.LoadSavedReplacesOnly` | components/quote/QuoteForm.tsx:53-56 | loading replaces the answers and the section only; any other action type leaves the state unchanged |
| `QuoteForm.StartingQuestionNumber` | components/quote/QuoteForm.tsx:108-115 | none for the contact section; otherwise one more than the number of questions in the numbered sections before it |
| `QuoteForm.QuestionNumbering` | components/quote/QuoteForm.tsx:108-115 | section k starts at question 4k - 3, and the last section ends at question 38 |
| `QuoteForm.Trim` | components/quote/QuoteForm.tsx:136 | the result is no longer and neither starts nor ends with white space |
| `QuoteForm.TrimEmptyIffBlank` | components/quote/QuoteForm.tsx:136 | trimming gives the empty text exactly for an all-white-space text |
| `QuoteForm.EmailExamples` | components/quote/QuoteForm.tsx:148 | "a@b.c" is an address; "a@b" and " " are not |
| `QuoteForm.DecimalDigits` | components/quote/QuoteForm.tsx:149 | at least one digit, no leading zero |
| `QuoteForm.DecimalDigitsRoundTrip` | components/quote/QuoteForm.tsx:149 | reading a printed number back gives the number |
| `QuoteForm.RequiredCheck` | components/quote/QuoteForm.tsx:125-144 | an optional question never fails this check; a required unanswered one always does |
| `QuoteForm.QuestionError` | components/quote/QuoteForm.tsx:121-166 | no error exactly when every check passes; otherwise the message of the last failing check: too long, else too many, else the address, else the required check's own message |
| `QuoteForm.CheckQuestion` | components/quote/QuoteForm.tsx:122-166 | the four checks, each overwriting the entry, leave the question's error |
| `QuoteForm.ValidateQuestions` | components/quote/QuoteForm.tsx:117-170 | the loop over the questions gives the errors of the section |
| `QuoteForm.ValidateSection` | components/quote/QuoteForm.tsx:117-170 | the errors of the current section |
| `QuoteForm.FlaggedIffSomeQuestionFails` | components/quote/QuoteForm.tsx:117-170 | an id is flagged exactly when some question with that id fails |
| `QuoteForm.FlaggedMessageIsLastFailure` | components/quote/QuoteForm.tsx:117-170 | a flagged id carries the message of the last failing question with that id |
| `QuoteForm.UnansweredRequiredIsFlagged` | components/quote/QuoteForm.tsx:125-144 | an unanswered required question is flagged by its required check |
| `QuoteForm.ChallengesLimit` | components/quote/QuoteForm.tsx:154-159 | for q25, no choice asks for one, three pass, four exceed the limit of 3 |
| `QuoteForm.BlankEmailReportedAsInvalid` | components/quote/QuoteForm.tsx:141-152 | a blank e-mail fails the required check, but the later address check overwrites its message |
| `CheckboxGroup.Without` | components/ui/CheckboxGroup.tsx:25 | the option is gone; every other entry stays |
| `CheckboxGroup.HandleChange` | components/ui/CheckboxGroup.tsx:18-27 | checking is ignored exactly at the limit and otherwise appends; unchecking removes every occurrence |
| `CheckboxGroup.IsDisabled` | components/ui/CheckboxGroup.tsx:29-31 | disabled exactly when a limit is set and reached and the option is not selected |
| `CheckboxGroup.WithoutDistributes` | components/ui/CheckboxGroup.tsx:25 | removal distributes over concatenation, which keeps the order |
| `CheckboxGroup.WithoutCounts` | components/ui/CheckboxGroup.tsx:25 | removal zeroes the option's count and keeps every other count |
| `CheckboxGroup.CheckThenUncheck` | components/ui/CheckboxGroup.tsx:18-27 | check then uncheck equals uncheck alone, and restores a selection that lacked the option |
| `CheckboxGroup.SelectionStaysWithinLimit` | components/ui/CheckboxGroup.tsx:18-27 | a selection within a positive limit stays within it |
| `CheckboxGroup.DisabledMeansBlocked` | components/ui/CheckboxGroup.tsx:18-31 | a disabled option cannot be checked; an enabled unselected one can |
| `CheckboxGroup.CheckingDuplicates` | components/ui/CheckboxGroup.tsx:23 | with no limit, checking a selected option appends it again |
| `EmailSend.Sanitize` | lib/email/send.ts:34 | same length; each character kept if an ASCII letter or digit, otherwise "_" |
| `EmailSend.SanitizeIsIdempotent` | lib/email/send.ts:34 | the output holds only letters, digits and "_", and sanitising again changes nothing |
| `EmailSend.SanitizeFixesFileNames` | lib/email/send.ts:34 | a name that is already safe is unchanged |
| `EmailSend.SanitizeMerges` | lib/email/send.ts:34 | different company names can give the same file name |
| `EmailSend.AttachmentFilename` | lib/email/send.ts:34 | the sanitised name followed by the fixed suffix |
| `EmailSend.AttachmentFilenameShape` | lib/email/send.ts:34 | the name ends in ".pdf" and its part before the suffix is safe |
| `EmailSend.NotificationSubject` | lib/email/send.ts:72 | the fixed prefix, then the company name verbatim |
| `EmailSend.SubjectNamesStatus` | lib/email/send.ts:72 | the subject ends in "Qualified" exactly for a qualified lead and in "Review Needed" exactly otherwise |

## Left out

- Rendering, React hooks, routing, `localStorage` persistence, the submit request and `handleNext`/`handleSubmit` are not modelled. Validation results are stated as `FieldError` values whose texts are given by `FieldError.Message`. Turning them into the `SET_ERRORS` map is not modelled.
- Sending e-mail, the HTML templates, the prospect's subject line and PDF generation are not modelled. Only the two computed strings named above are.
- `formatCurrency` is not modelled. It is locale formatting by the runtime.
- Floating point: prices use exact reals, so a double that rounds differently at a .5 boundary is not captured. Scores, the tier, the variance and the timeline score are exact for integer inputs.
- Strings are sequences of characters. JavaScript's `length` and the sanitiser count UTF-16 code units, so characters outside the basic plane count differently.
- Answer codes that name properties of `Object.prototype` (such as "constructor") are treated like any unlisted code. In the source, a table lookup would return an inherited function instead of falling back.
- The sliders q5 and q10 are integers, as the slider widget produces. The schema also admits fractional values in 1..10.
- The schema's e-mail format check is not part of `Schema.Valid`. The form's own address pattern is modelled in `QuoteForm.IsEmailAddress`.
- A `null` answer is not modelled. A missing key stands for an unanswered question.
- `calculateVariance` is only called on the four sub-scores. Its result on an empty list is not modelled.
- The scores argument of `calculateQualification` is accepted and ignored, as in the source.
- Question titles, help texts, option lists and the pattern and factor texts are held as constants or member functions. No property is stated about their wording.
- `QuoteForm.QuestionError`: requires `Readable`, which says a required text area with a non-empty answer holds a text. The source fails on `trim` for any other value.
- `QuoteTypes.Coded`: an `Unknown` answer is meant to hold a string that is none of the listed codes, as `Decode` produces. The type does not enforce this. Lemmas about unlisted answers require `Decoded`; for a hand-built `Unknown` holding a listed code the model and the source disagree (the model's band position is -1 where `indexOf` finds the code).
- `QuoteForm.StartingQuestionNumber`: requires a section index of at most the number of sections. Beyond that the source reads `sections[i].questions` of an undefined entry and throws a TypeError, which is not modelled.
- `QuoteForm.ValidateSection`: requires a section index below the number of sections. For a larger index, which the unclamped reducer can reach, the source throws a TypeError, which is not modelled.
- `CheckboxGroup.HandleChange`: a limit of 0 stands for an absent `maxSelections`. The source's truthiness test treats both alike.
- `Scores.ScoresInRange`: requires non-negative sliders. The source does not guard negative slider values.
