# AutoVest scoring engine and ledger, modelled in Dafny

AutoVest rounds every purchase up and invests the spare change. How much of
it is invested depends on the user's financial health. This project models
the three parts of the app that hold that logic, and proves what they
promise:

- **The statistics helpers** (`src/utils/helpers.ts`):
  - mean, population standard deviation, coefficient of variation;
  - the clamp `normalizeScore` and the day difference;
  - month bucketing;
  - the spare-change round-up;
  - the four-band risk profile and the aggression multiplier.
- **The scoring engine** (`src/services/financialScoring.ts`):
  - subscription detection from recurring charges;
  - monthly spending totals;
  - the financial health score: four clamped sub-scores weighted
    0.30 / 0.35 / 0.20 / 0.15, a risk band and ordered advice;
  - subscription health: per-subscription usage, cost and affordability,
    the cancel rule, and the waste total;
  - the investment decision: base multiplier times a confidence boost,
    capped at 1;
  - the score label and colour.
- **The ledger** (`src/contexts/AppContext.tsx`):
  - the provider's single state record;
  - the four actions that replace it: invest the spare change, add a
    manual investment, add a purchase, change a setting;
  - the sum of spare change not yet invested;
  - the effect that turns ledger lines into engine transactions and stores
    the scores.

There are five modules, one per file:

- `Financial` (`financial.dfy`) holds the data shapes.
- `Helpers` (`helpers.dfy`) holds the helpers.
- `Detection` (`detection.dfy`) holds subscription detection.
- `Scoring` (`scoring.dfy`) holds the rest of the engine.
- `Ledger` (`ledger.dfy`) holds the app state.

**How the model is structured.**

- Pure computations are functions.
- Code that builds a map, loops over gaps, or pushes advice lines step by
  step is a method with loop invariants. Each such method is proved equal to
  a specification function. The properties are then proved about that
  function.
- The provider is the class `Ledger.AppProvider` with one `state` field.
  Each action method replaces it with the record its updater function
  computes.

**Numbers.**

- Money and scores are reals.
- `Math.round` is `(x + 0.5).Floor` and `Math.ceil` is its mirror.
- `toFixed(2)` read back by `parseFloat` rounds to the nearest hundredth.
- Dates carry the instant in milliseconds plus the calendar year and month
  the host reports.

**Where the weighting and flagging follow the code.**

- The weighted health total uses the unrounded sub-scores
  (`financialScoring.ts:54-59`).
- The risk profile is read from the unrounded total
  (`financialScoring.ts:61`).
- A subscription is flagged from its unrounded health
  (`financialScoring.ts:194`).
- The code divides by income and expenses without a guard; positive
  values are preconditions here.

**A behaviour the model makes precise.** Adding a purchase raises the
invested totals by its round-up, but leaves the purchase's
spare-change-invested flag unset (`AppContext.tsx:241-259`). The next
spare-change investment therefore moves that same round-up from the balance
and adds it to the invested total again (`AppContext.tsx:285-318`).
`Ledger.RoundUpCountedTwice` states the resulting totals.

## Model

| member | source | states |
|---|---|---|
| Helpers.MeanBounds | src/utils/helpers.ts:8-11 | the mean of a non-empty list lies between any lower and upper bound of its elements |
| Helpers.VarianceNonNegative | src/utils/helpers.ts:16-22 | the population variance (mean of squared deviations from the mean) is never negative |
| Helpers.StandardDeviationIsRootOfVariance | src/utils/helpers.ts:16-22 | the standard deviation is non-negative and its square is the population variance |
| Helpers.ConstantListHasNoVariation | src/utils/helpers.ts:29-34 | a non-empty list of equal values has that value as mean, zero variance, zero deviation and zero variation |
| Helpers.VariationBelowThreshold | src/utils/helpers.ts:29-34 | with a positive mean the variation is non-negative, and it is below t exactly when the variance is below (t·mean)² |
| Helpers.NormalizeScore | src/utils/helpers.ts:39-41 | the result lies in [min, max] when min ≤ max, is the value itself when already in range, min below the range and max above it |
| Helpers.Clamp | src/utils/helpers.ts:39-41 | with the default range the result lies in [0, 100] and leaves in-range values unchanged |
| Helpers.NormalizeScoreIdempotent | src/utils/helpers.ts:39-41 | clamping twice is clamping once |
| Helpers.NormalizeScoreMonotone | src/utils/helpers.ts:39-41 | clamping preserves order |
| Helpers.DaysBetween | src/utils/helpers.ts:46-49 | the result is the least whole number of days covering the absolute difference, and is 0 exactly for equal instants |
| Helpers.DaysBetweenSymmetric | src/utils/helpers.ts:46-49 | the day difference does not depend on argument order |
| Helpers.MonthOrderMembers | src/utils/helpers.ts:54-64 | the month keys are distinct and are exactly the months some transaction falls in |
| Helpers.GroupByMonth | src/utils/helpers.ts:54-64 | the map's keys are the months in order of first appearance, and each maps to the total amount of that month |
| Helpers.RoundUpDistance | src/utils/helpers.ts:71-72 | the distance up to the next multiple of the cap lies in [0, cap) and completes the amount to a multiple of the cap |
| Helpers.RoundUpDistanceZero | src/utils/helpers.ts:71-73 | the distance is 0 exactly when the amount is already a multiple of the cap |
| Helpers.CalculateSpareChange | src/utils/helpers.ts:70-74 | the spare change lies in [0, cap] for any amount |
| Helpers.SpareChangeOfWholeCents | src/utils/helpers.ts:70-74 | for whole-cent amounts the spare change lies in [0, cap), is 0 exactly for multiples of the cap, and amount plus spare change is a multiple of the cap |
| Helpers.SpareChangeExamples | src/utils/helpers.ts:70-74 | 143 at cap 10 gives 7, 150 at cap 10 gives 0, 45.5 at cap 50 gives 4.5 |
| Helpers.GetRiskProfile | src/utils/helpers.ts:89-94 | aggressive exactly from 80, moderate exactly on [60, 80), conservative exactly on [40, 60), minimal exactly below 40 |
| Helpers.RiskProfileMonotone | src/utils/helpers.ts:89-94 | a higher score never gets a lower band |
| Helpers.GetAggressionMultiplier | src/utils/helpers.ts:99-102 | 0.3 at score 0, 1.0 at score 100, within [0.3, 1.0] for scores in [0, 100] |
| Helpers.AggressionMultiplierIncreasing | src/utils/helpers.ts:99-102 | the multiplier is strictly increasing in the score |
| Detection.ChargesAreRecurring | src/services/financialScoring.ts:120-125 | every grouped charge of a merchant is a recurring transaction of that merchant from the input |
| Detection.RecurringMerchantsFacts | src/services/financialScoring.ts:117-125 | the grouped merchants are distinct and are exactly those with at least one recurring charge |
| Detection.GroupRecurring | src/services/financialScoring.ts:117-125 | the grouping loop yields the merchants in first-charge order, each keyed to its recurring charges in list order |
| Detection.InsertByTime | src/services/financialScoring.ts:135 | inserting into a time-sorted list keeps it sorted and adds exactly the one date |
| Detection.SortByTime | src/services/financialScoring.ts:135 | the dates come out sorted by time and are a permutation of the input |
| Detection.LastIsLatest | src/services/financialScoring.ts:135-147 | the last sorted date is one of the charge dates and no charge date is later |
| Detection.GapsOf | src/services/financialScoring.ts:136-139 | n dates give n − 1 gaps |
| Detection.ChargeGaps | src/services/financialScoring.ts:136-139 | the gap loop pushes the day difference of each consecutive pair of dates |
| Detection.GapsBracketSpan | src/services/financialScoring.ts:136-140 | over sorted dates the gaps, in days, cover the whole span and exceed it by less than one day per gap |
| Detection.FrequencyOf | src/services/financialScoring.ts:142-145 | weekly exactly for an average gap ≤ 7, yearly exactly above 300, monthly otherwise; daily never |
| Detection.PatternConfidence | src/services/financialScoring.ts:148 | the confidence is min(100, 30·count), so at least 60 for two or more charges |
| Detection.SubscriptionId | src/services/financialScoring.ts:151 | the id is "sub-" followed by one character per merchant character: '-' for each whitespace character, the lower-case letter for each upper-case ASCII letter, every other character kept |
| Detection.SummarizeCharges | src/services/financialScoring.ts:130-158 | the per-merchant body yields the summary: mean amount, frequency of the mean gap, last charge, confidence, days since the last charge |
| Detection.SummaryFacts | src/services/financialScoring.ts:130-158 | the summary's amount lies between the charges' bounds, its last charge is the latest charge date, its confidence is min(100, 30·count) in [60, 100], and it is never daily |
| Detection.PushIfRecurring | src/services/financialScoring.ts:130-158 | a group is summarised and pushed exactly when it has two or more charges |
| Detection.SubscriptionsForSound | src/services/financialScoring.ts:129-160 | every emitted subscription belongs to a listed merchant with two or more charges and is that merchant's summary |
| Detection.SubscriptionsForComplete | src/services/financialScoring.ts:129-160 | every listed merchant with two or more charges is emitted |
| Detection.SubscriptionsForDistinct | src/services/financialScoring.ts:129-160 | distinct merchants give subscriptions with distinct merchants |
| Detection.DetectedSubscriptions | src/services/financialScoring.ts:116-163 | exactly one subscription per merchant with at least two recurring charges, none for any other, each the summary of its charges |
| Detection.GroupingIgnoresNonRecurring | src/services/financialScoring.ts:120-125 | dropping non-recurring transactions leaves the merchant order and every merchant's charges unchanged |
| Detection.DetectionIgnoresNonRecurring | src/services/financialScoring.ts:116-163 | non-recurring transactions have no influence on the detected subscriptions |
| Detection.DetectSubscriptions | src/services/financialScoring.ts:116-163 | the two loops return exactly the detected subscriptions in merchant first-charge order |
| Scoring.CalculateMonthlySpending | src/services/financialScoring.ts:324-334 | the bucketing returns one total per month, in first-appearance order |
| Scoring.MonthlySpendingConserves | src/services/financialScoring.ts:324-334 | the monthly totals sum to the sum of all transaction amounts |
| Scoring.MonthlySpendingPerMonth | src/services/financialScoring.ts:324-334 | there is exactly one total per distinct month some transaction falls in |
| Scoring.StabilityScore | src/services/financialScoring.ts:37-38 | in [0, 100]; 100 exactly for no variation, 0 exactly from variation 1, under 60 exactly above 0.4 |
| Scoring.BufferScore | src/services/financialScoring.ts:41-42 | in [0, 100]; 100 exactly from four months of expenses, under 50 exactly below two months |
| Scoring.BurdenScore | src/services/financialScoring.ts:45-48 | in [0, 100]; 0 exactly from 50% of income, under 70 exactly above 15% |
| Scoring.MarketScore | src/services/financialScoring.ts:51 | in [0, 100]; 0 exactly from volatility 0.2, under 60 exactly above 0.08 |
| Scoring.WeightedTotal | src/services/financialScoring.ts:54-59 | the weighted total lies in [0, 100] and, for sub-scores in range, between the smallest and the largest sub-score |
| Scoring.BreakdownOf | src/services/financialScoring.ts:80-107 | the displayed sub-scores lie in [0, 100] and the weights sum to 1 |
| Scoring.PushHealthTip | src/services/financialScoring.ts:64-76 | a conditional push adds the line exactly when its condition holds and keeps the lines in rank order |
| Scoring.HealthTips | src/services/financialScoring.ts:64-76 | each of the four advice lines is present exactly when its flag is set, in the fixed order |
| Scoring.MeasureProfile | src/services/financialScoring.ts:33-51 | the measurements are the variation of monthly spending, months of expenses saved, detected subscription cost and share, and volatility (0.15 by default) |
| Scoring.ScoreFactors | src/services/financialScoring.ts:53-110 | total = round of the weighted unrounded sub-scores, in [0, 100]; risk band of the unrounded total; each advice line exactly when its measurement crosses its threshold |
| Scoring.CalculateFinancialHealthScore | src/services/financialScoring.ts:30-111 | the health score of a profile as above, the emergency-fund advice exactly when savings are under two months of expenses |
| Scoring.HealthScoreMonotoneInSavings | src/services/financialScoring.ts:41-59 | more liquid savings never lower the buffer score, the unrounded total or the rounded total |
| Scoring.ExampleSpending | src/services/financialScoring.ts:324-334 | three bills of 1000 in three months give totals [1000, 1000, 1000] |
| Scoring.ExampleNoSubscriptions | src/services/financialScoring.ts:116-163 | transactions with no recurring charge yield no subscription |
| Scoring.ExampleProfile | src/services/financialScoring.ts:30-79 | income 5000, savings 8000, expenses 3200, even spending: sub-scores 100 / 62.5 / 100 / 25, total 75.625, shown as 76, moderate |
| Scoring.UsageConfidence | src/services/financialScoring.ts:176-177 | in [0, 100]; 0 after 60 idle days, otherwise 100 less the idle days |
| Scoring.CostBurdenScore | src/services/financialScoring.ts:180-181 | in [0, 100]; under 50 exactly for a cost above 10% of income |
| Scoring.Affordability | src/services/financialScoring.ts:184 | 100 exactly under 20, 50 exactly from 50, and 70 for amounts in [20, 50) |
| Scoring.RawSubscriptionHealth | src/services/financialScoring.ts:187-191 | in [0, 100], and at most 60 after 60 idle days |
| Scoring.CancelReasonFor | src/services/financialScoring.ts:198-207 | no activity exactly after 60 idle days; high cost burden, quoting the share, exactly when active and above 5% of income; actively used exactly when active, at most 5% and health above 70; monitor usage exactly in the remaining case |
| Scoring.AnalyzeSubscription | src/services/financialScoring.ts:174-220 | the displayed health, usage and cost-burden scores are the rounded raw scores; flagged exactly when idle over 60 days or unrounded health under 40; a flagged subscription saves its amount with cancel confidence round(100 − health) ≥ 40, an unflagged one saves nothing with confidence 0; the reason is the first match of the reason chain |
| Scoring.HealthFallsWithIdleDays | src/services/financialScoring.ts:176-191 | staying idle longer never raises a subscription's health |
| Scoring.HealthFallsWithAmount | src/services/financialScoring.ts:180-191 | a dearer subscription is never healthier |
| Scoring.AnalyzeAll | src/services/financialScoring.ts:174-221 | one analysis per detected subscription, in order |
| Scoring.SubscriptionTotal | src/services/financialScoring.ts:224-226 | exactly 100 with no subscriptions, and within [0, 100] whenever every subscription's score is |
| Scoring.WasteIsFlaggedCost | src/services/financialScoring.ts:228-230 | the monthly waste is the total amount of the flagged subscriptions and is non-zero only if one is flagged |
| Scoring.SubscriptionTips | src/services/financialScoring.ts:232-241 | the saving line exactly when waste is positive and quoting it, the cheaper-alternatives and review lines exactly on their flags, in order |
| Scoring.ScoreAnalyses | src/services/financialScoring.ts:223-248 | the aggregate of the analyses: rounded mean or 100, waste total, advice lines in order |
| Scoring.CalculateSubscriptionHealthScore | src/services/financialScoring.ts:168-249 | the analyses of the detected subscriptions, a total in [0, 100] that is 100 with none, waste equal to the flagged cost, and the advice lines |
| Scoring.ConfidenceBoost | src/services/financialScoring.ts:262-278 | the boost lies in [1.0, 1.30] and exceeds 1.15 exactly with the savings boost plus one other |
| Scoring.MeasureBoost | src/services/financialScoring.ts:262-278 | the step-by-step boost equals the boost of the profile's measurements |
| Scoring.FinalMultiplier | src/services/financialScoring.ts:259-280 | the multiplier is the capped product: at most 1, at most base·boost, and at least 0.3 for scores in [0, 100] |
| Scoring.InvestmentTips | src/services/financialScoring.ts:298-307 | each investment advice line is present exactly on its flag, in the fixed order |
| Scoring.ToCents | src/services/financialScoring.ts:311 | the amount is a whole number of cents within half a cent of the exact product |
| Scoring.Decide | src/services/financialScoring.ts:280-318 | invest exactly when score ≥ 35 and savings exceed expenses; amount to the cent; reasoning paused exactly when not investing, else following the risk band and quoting the rate, and the strong-health reason quoting the score |
| Scoring.DetermineInvestmentMode | src/services/financialScoring.ts:254-319 | the decision for a profile: multiplier in [0.3, 1] for scores in range, the invest rule, the amount in whole cents within half a cent, the reasoning quoting the rate (and the score when strong), and the advice, where discipline needs more than three months saved plus steady spending or light subscriptions |
| Scoring.DisciplineCondition | src/services/financialScoring.ts:262-307 | the boost exceeds 1.15 exactly when savings exceed three months of expenses and spending is steady or subscriptions cost under a tenth of income |
| Scoring.FundAndDisciplineExclusive | src/services/financialScoring.ts:302-307 | the emergency-fund advice and the discipline advice never appear together |
| Scoring.HealthScoreLabel | src/services/financialScoring.ts:349-354 | Excellent / Good / Fair / Poor exactly on the four risk bands |
| Scoring.HealthScoreColor | src/services/financialScoring.ts:339-344 | green / blue / yellow / red exactly on the four risk bands |
| Ledger.SpareOf | src/contexts/AppContext.tsx:285-288 | a line contributes spare change in [0, cap], and none once invested |
| Ledger.PendingSpareChange | src/contexts/AppContext.tsx:166-169 | the pending spare change is never negative |
| Ledger.PendingPositive | src/contexts/AppContext.tsx:285-291 | something is pending exactly when some uninvested line has spare change |
| Ledger.NothingPendingOnceInvested | src/contexts/AppContext.tsx:306-311 | a list whose lines are all marked invested has nothing pending |
| Ledger.MarkAllInvested | src/contexts/AppContext.tsx:306-311 | every line is kept, marked invested |
| Ledger.InvestSpareChangeNext | src/contexts/AppContext.tsx:282-321 | nothing pending: state unchanged; otherwise balance down and invested total up by the pending total, one investment line prepended, every line invested, lines otherwise kept, nothing else changed; balance plus invested total is always conserved |
| Ledger.InvestSpareChangeTwice | src/contexts/AppContext.tsx:285-311 | investing twice in a row is investing once |
| Ledger.AddManualInvestmentNext | src/contexts/AppContext.tsx:263-280 | balance down and invested total up by the amount, a fully invested line prepended, pending spare change unchanged, nothing else changed |
| Ledger.RoundedToTen | src/contexts/AppContext.tsx:239-240 | the round-up is a multiple of 10 within [amount, amount + 10) |
| Ledger.AddTransactionNext | src/contexts/AppContext.tsx:238-261 | the purchase is prepended with its round-up in [0, 10); lock on exactly when the buffer is under 5000; totals grow by the round-up only when unlocked; pending grows by the purchase's spare change; balance and all else unchanged |
| Ledger.RoundUpIsSpareChange | src/contexts/AppContext.tsx:239-240 | for whole-cent amounts the recorded round-up is the spare change at cap 10 |
| Ledger.RoundUpCountedTwice | src/contexts/AppContext.tsx:238-321 | adding a purchase while unlocked and then investing raises the invested total by the pending total plus twice the round-up, while the balance falls by the pending total plus the round-up once |
| Ledger.UpdateSettingNext | src/contexts/AppContext.tsx:323-328 | the key takes the value, every other setting and every other field is unchanged |
| Ledger.LastSettingWins | src/contexts/AppContext.tsx:323-328 | of two updates to the same key the later wins |
| Ledger.SettingsCommute | src/contexts/AppContext.tsx:323-328 | updates to different keys commute |
| Ledger.SeedDataConsistent | src/contexts/AppContext.tsx:79-85 | every demo purchase records its round-up to ten and its spare change at cap 10, and they total the 21 shown as invested today |
| Ledger.ToFinancialTransaction | src/contexts/AppContext.tsx:145-153 | a line is recurring exactly in the Entertainment or Utilities category, its description is the merchant, the other fields carry over |
| Ledger.ToFinancial | src/contexts/AppContext.tsx:145-153 | the lines are converted one for one, in order |
| Ledger.RecurringLines | src/contexts/AppContext.tsx:145-153 | the selected lines are ledger lines in a recurring category carrying the description, as many as there are such lines |
| Ledger.ChargesOfLedger | src/contexts/AppContext.tsx:145-153 | the engine's charges for a merchant are exactly the recurring-category lines with that description, converted, in list order |
| Ledger.LedgerSubscriptions | src/contexts/AppContext.tsx:145-165 | a description is a subscription exactly when at least two lines carry it in a recurring category |
| Ledger.SeedRecurringEntries | src/contexts/AppContext.tsx:79-85 | in the demo ledger only Netflix and the electricity bill are recurring, once each |
| Ledger.SeedHasNoSubscriptions | src/contexts/AppContext.tsx:79-85 | the engine finds no subscription in the demo ledger |
| Ledger.ProfileOf | src/contexts/AppContext.tsx:155-161 | the scored profile: the state's income, the emergency buffer as savings, expenses 3200, volatility 0.15 |
| Ledger.InvestmentModeName | src/contexts/AppContext.tsx:183-184 | Balanced exactly for the moderate band, the capitalised band name otherwise |
| Ledger.ScoredStateFacts | src/contexts/AppContext.tsx:178-192 | after scoring, health score and leak risk lie in [0, 100], the rate in [30, 100], colour and mode follow the stored score's band, the four explanation fields hold the given texts, and only the seven score fields and the four explanation fields change |
| Ledger.ScoreState | src/contexts/AppContext.tsx:137-192 | the effect's three engine calls and its single store produce exactly the scored state, with the given explanation texts stored |
| Ledger.HealthOfProfile | src/contexts/AppContext.tsx:164-182 | the stored health score in [0, 100] and its risk band |
| Ledger.SubscriptionLeak | src/contexts/AppContext.tsx:165-187 | the leak risk is 100 less the subscription score, in [0, 100]; the savings are the flagged cost |
| Ledger.InvestmentRate | src/contexts/AppContext.tsx:167-185 | the investment rate is the rounded multiplier in percent, within [30, 100], and the band of the score |
| Ledger.AppProvider.constructor | src/contexts/AppContext.tsx:102-133 | the provider starts from the demo state |
| Ledger.AppProvider.InvestSpareChange | src/contexts/AppContext.tsx:282-321 | the state becomes the spare-change investment of the old state |
| Ledger.AppProvider.AddManualInvestment | src/contexts/AppContext.tsx:263-280 | the state becomes the manual investment of the old state |
| Ledger.AppProvider.AddTransaction | src/contexts/AppContext.tsx:238-261 | the state becomes the old state with the purchase added |
| Ledger.AppProvider.UpdateSetting | src/contexts/AppContext.tsx:323-328 | the state becomes the old state with the setting changed |
| Ledger.AppProvider.RefreshScores | src/contexts/AppContext.tsx:137-192 | the state becomes the scored old state, with the given explanation texts stored |

## Left out

**Host environment, taken as parameters.**

- Square root: `Math.sqrt` is the parameter `sqrt`. Lemmas about it
  assume only that it returns the non-negative root (`Helpers.IsSqrt`).
- Clock: the current instant is the parameter `now`. The host calendar and
  time zone that relate an instant to its year and month are not modelled.
- Date strings: `new Date(...)` parsing of ledger date strings is the
  parameter `parse`.
- Timestamps: ids from `Date.now()` are the `stamp` parameter.
- Display dates: `toLocaleDateString` and `toISOString` dates are the
  `today` parameter.

**Floating point.** Numbers are exact reals, not IEEE-754 doubles.

- Scoring.DisciplineCondition and Scoring.FundAndDisciplineExclusive hold
  over the reals, where 1 + 0.10 + 0.05 equals 1.15. In doubles that sum
  is 1.1500000000000001, which passes the `> 1.15` test. Take steady
  spending, subscriptions under a tenth of income and savings of at most
  three months. Here the source shows both the emergency-fund advice and
  the discipline advice.
- Helpers.CalculateSpareChange: the bound is [0, cap] rather than
  [0, cap). A difference a fraction of a cent below the cap rounds up to
  the cap at two decimals. The exact properties are proved for whole-cent
  amounts, in Helpers.SpareChangeOfWholeCents.

**Division by zero.** Positive `monthlyIncome` and `monthlyExpenses` are
preconditions of the members that divide by them. The source divides
without a guard and would propagate Infinity or NaN.

- Ledger.AppProvider.RefreshScores requires positive income. The state
  starts at 5000, and no modelled action changes it.

**Strings.**

- Lower-casing in subscription ids covers ASCII letters only.
- Templated messages are datatype constructors carrying the numbers they
  quote. Their text formatting (`toFixed(1)`, `toFixed(2)`, the currency
  sign) is not modelled.
- Fixed messages keep their exact text.

**Ledger representation.**

- Ledger.UpdateSettingNext requires that the value's kind fits the key
  (`Ledger.Fits`). The source accepts any value, and values of the wrong
  type are not modelled.
- The optional `spareChangeInvested` flag is always present here. A
  missing flag reads as false.

**React plumbing in `AppContext.tsx`.** The effect's dependency tracking
(when it re-runs) is not modelled, and neither is its try/catch fallback.
The `createContext`/`useApp` hooks, the rendered provider and
`login`/`register`/`logout` are left out too.

**Other files.** `src/services/aiExplanations.ts` is not part of this
model.

- Ledger.ScoreState, Ledger.ScoredState and Ledger.AppProvider.RefreshScores
  take the four explanation texts as a parameter (`Ledger.Explanations`)
  and store them. How the texts are generated from the scores is not
  modelled.

Also left out:

- the pages and visual components;
- `src/AutoVestForm.tsx` (a network call);
- mock data generation;
- `formatCurrency` (an `Intl.NumberFormat` wrapper).
