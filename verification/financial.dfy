/** The data shapes the scoring engine consumes and produces. */
module Financial {

  datatype Option<T> = None | Some(value: T)

  /** An instant as the host's Date object reports it: `time` is getTime()
      (milliseconds since the epoch), `year` is getFullYear() and `month` is
      getMonth(), counted from 0 for January. The host's calendar and time
      zone that relate the three are not part of this model. */
  datatype Date = Date(time: int, year: int, month: int)

  /** The "YYYY-MM" bucket key of a month, with the month counted from 1. */
  datatype MonthKey = MonthKey(year: int, month: int)

  function MonthKeyOf(d: Date): MonthKey
  {
    MonthKey(d.year, d.month + 1)
  }

  datatype Transaction = Transaction(
    id: string,
    date: Date,
    amount: real,
    merchant: string,
    category: string,
    description: string,
    isRecurring: bool)

  datatype Frequency = Daily | Weekly | Monthly | Yearly

  datatype Subscription = Subscription(
    id: string,
    merchant: string,
    amount: real,
    frequency: Frequency,
    lastCharge: Date,
    detectedPattern: int,
    daysSinceLastUse: int)

  datatype RiskProfile = Aggressive | Moderate | Conservative | Minimal

  /** The caller-supplied profile; `marketVolatility` is optional and
      defaults to 0.15 where it is read. */
  datatype UserFinancialProfile = UserFinancialProfile(
    monthlyIncome: real,
    liquidSavings: real,
    monthlyExpenses: real,
    transactions: seq<Transaction>,
    marketVolatility: Option<real>)

  datatype StabilityComponent = StabilityComponent(
    score: int, weight: real, coefficientOfVariation: real, interpretation: string)

  datatype BufferComponent = BufferComponent(
    score: int, weight: real, monthsOfExpenses: real, liquidSavings: real, interpretation: string)

  datatype BurdenComponent = BurdenComponent(
    score: int, weight: real, percentageOfIncome: real, totalSubscriptionCost: real, interpretation: string)

  datatype MarketComponent = MarketComponent(
    score: int, weight: real, volatilityIndex: real, interpretation: string)

  datatype Breakdown = Breakdown(
    spendingStability: StabilityComponent,
    emergencyBuffer: BufferComponent,
    subscriptionBurden: BurdenComponent,
    marketRisk: MarketComponent)

  /** The four advice lines of the health score, in the order they are appended. */
  datatype HealthTip = BudgetTip | EmergencyFundTip | SubscriptionReviewTip | VolatilityTip
  {
    function Rank(): nat
    {
      match this
      case BudgetTip => 0
      case EmergencyFundTip => 1
      case SubscriptionReviewTip => 2
      case VolatilityTip => 3
    }

    function Text(): string
    {
      match this
      case BudgetTip => "Consider creating a monthly budget to stabilize spending patterns"
      case EmergencyFundTip => "Build emergency fund to at least 2 months of expenses"
      case SubscriptionReviewTip => "Review and cancel unused subscriptions to reduce financial burden"
      case VolatilityTip => "Consider more conservative investments during high volatility"
    }
  }

  datatype FinancialBehaviorScore = FinancialBehaviorScore(
    totalScore: int,
    breakdown: Breakdown,
    riskProfile: RiskProfile,
    recommendations: seq<HealthTip>)

  /** Why a subscription is (or is not) flagged; the numbers are the ones the
      message template shows. */
  datatype CancelReason =
    | NoActivity(days: int)
    | HighCostBurden(costPercentage: real)
    | ActivelyUsed
    | MonitorUsage

  datatype SubscriptionAnalysis = SubscriptionAnalysis(
    subscription: Subscription,
    healthScore: int,
    usageConfidence: int,
    costBurden: int,
    shouldCancel: bool,
    cancelConfidence: int,
    reasoning: CancelReason,
    potentialSavings: real)

  datatype SubscriptionTip = CancelUnused(monthlySaving: real) | CheaperAlternatives | ReviewAll
  {
    function Rank(): nat
    {
      match this
      case CancelUnused(_) => 0
      case CheaperAlternatives => 1
      case ReviewAll => 2
    }
  }

  datatype SubscriptionHealthScore = SubscriptionHealthScore(
    totalScore: int,
    subscriptions: seq<SubscriptionAnalysis>,
    totalMonthlyWaste: real,
    recommendations: seq<SubscriptionTip>)

  /** The reasoning line of an investment decision; `percent` is the
      investment rate the template shows. */
  datatype InvestmentReasoning =
    | Paused
    | StrongHealth(healthScore: real, percent: int)
    | GoodPosition(percent: int)
    | ConservativeApproach(percent: int)

  datatype InvestmentTip = ImproveHealth | BuildThreeMonthFund | ExcellentDiscipline
  {
    function Rank(): nat
    {
      match this
      case ImproveHealth => 0
      case BuildThreeMonthFund => 1
      case ExcellentDiscipline => 2
    }

    function Text(): string
    {
      match this
      case ImproveHealth => "Focus on improving financial health score for better returns"
      case BuildThreeMonthFund => "Prioritize building 3-month emergency fund"
      case ExcellentDiscipline => "Excellent financial discipline - maximizing investment potential"
    }
  }

  datatype InvestmentDecision = InvestmentDecision(
    shouldInvest: bool,
    amount: real,
    aggression: int,
    reasoning: InvestmentReasoning,
    spareChange: real,
    aggressionMultiplier: real,
    riskLevel: RiskProfile,
    recommendations: seq<InvestmentTip>)
}
