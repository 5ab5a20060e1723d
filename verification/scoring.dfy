/** The scoring and decision engine: monthly spending, the financial health
    score, subscription health and the investment decision. */
module Scoring {
  import opened Financial
  import opened Helpers
  import opened Detection

  // ---------------------------------------------------------------------
  // Small facts about the reals

  /** Dividing by a positive number preserves a strict bound. */
  lemma QuotientBelowBound(x: real, d: real, t: real)
    requires d > 0.0
    ensures x / d < t <==> x < t * d
  {
    var q := x / d;
    assert x == q * d;
    if q < t {
      MultiplyByNonNegative(q, t, d);
      calc {
        x;
      ==
        q * d;
      <
        t * d;
      }
    } else {
      MultiplyByNonNegative(t, q, d);
      calc {
        t * d;
      <=
        q * d;
      ==
        x;
      }
    }
  }

  /** The same comparison from above. */
  lemma QuotientAboveBound(x: real, d: real, t: real)
    requires d > 0.0
    ensures x / d > t <==> x > t * d
  {
    var q := x / d;
    assert x == q * d;
    if q > t {
      MultiplyByNonNegative(t, q, d);
      calc {
        t * d;
      <
        q * d;
      ==
        x;
      }
    } else {
      MultiplyByNonNegative(q, t, d);
      calc {
        x;
      ==
        q * d;
      <=
        t * d;
      }
    }
  }

  /** Dividing by a positive number preserves order. */
  lemma QuotientMonotone(x: real, y: real, d: real)
    requires d > 0.0 && x <= y
    ensures x / d <= y / d
  {
    var p, q := x / d, y / d;
    assert p * d == x && q * d == y;
    if q < p {
      MultiplyByNonNegative(q, p, d);
    }
  }

  function Min(a: real, b: real): real
  {
    if a <= b then a else b
  }

  function Max(a: real, b: real): real
  {
    if a <= b then b else a
  }

  // ---------------------------------------------------------------------
  // calculateMonthlySpending

  /** The totals of the months in `keys`, in that order. */
  function TotalsFor(keys: seq<MonthKey>, txs: seq<Transaction>): (r: seq<real>)
    ensures |r| == |keys|
    ensures forall i :: 0 <= i < |keys| ==> r[i] == MonthTotal(txs, keys[i])
  {
    seq(|keys|, i requires 0 <= i < |keys| => MonthTotal(txs, keys[i]))
  }

  /** One total per calendar month, in order of the month's first
      transaction (`Array.from(monthlyTotals.values())`). */
  function MonthlySpending(txs: seq<Transaction>): seq<real>
  {
    TotalsFor(MonthOrder(txs), txs)
  }

  /** The month bucketing (the same forEach as groupByMonth), then the
      Map's values in insertion order. */
  method CalculateMonthlySpending(txs: seq<Transaction>) returns (totals: seq<real>)
    ensures totals == MonthlySpending(txs)
  {
    var byMonth, keys := GroupByMonth(txs);
    totals := [];
    var i := 0;
    while i < |keys|
      invariant 0 <= i <= |keys|
      invariant totals == TotalsFor(keys[..i], txs)
    {
      assert keys[..i + 1] == keys[..i] + [keys[i]];
      totals := totals + [byMonth[keys[i]]];
      i := i + 1;
    }
    assert keys[..|keys|] == keys;
  }

  /** One more transaction raises the total over a list of distinct months
      by its amount when its month is listed, and leaves it alone otherwise. */
  lemma {:induction false} TotalsForAppend(keys: seq<MonthKey>, txs: seq<Transaction>, t: Transaction)
    requires Distinct(keys)
    ensures Sum(TotalsFor(keys, txs + [t]))
         == Sum(TotalsFor(keys, txs)) + (if MonthKeyOf(t.date) in keys then t.amount else 0.0)
  {
    if keys != [] {
      var n := |keys| - 1;
      var prefix := keys[..n];
      assert keys == prefix + [keys[n]];
      assert Distinct(prefix);
      TotalsForAppend(prefix, txs, t);
      assert TotalsFor(keys, txs + [t])[..n] == TotalsFor(prefix, txs + [t]);
      assert TotalsFor(keys, txs)[..n] == TotalsFor(prefix, txs);
      assert (txs + [t])[..|txs|] == txs;
    }
  }

  /** The monthly totals together account for every transaction exactly
      once: they sum to the sum of all amounts. */
  lemma {:induction false} MonthlySpendingConserves(txs: seq<Transaction>)
    ensures Sum(MonthlySpending(txs)) == Sum(AmountsOf(txs))
  {
    if txs != [] {
      var n := |txs| - 1;
      var prefix := txs[..n];
      var t := txs[n];
      assert txs == prefix + [t];
      MonthlySpendingConserves(prefix);
      MonthOrderMembers(prefix);
      var keys := MonthOrder(prefix);
      TotalsForAppend(keys, prefix, t);
      assert AmountsOf(txs)[..n] == AmountsOf(prefix);
      var k := MonthKeyOf(t.date);
      if k !in keys {
        MonthTotalOfAbsentMonth(prefix, k);
        assert TotalsFor(keys + [k], txs)[..|keys|] == TotalsFor(keys, txs);
      }
    }
  }

  /** There is one total per distinct month some transaction falls in. */
  lemma MonthlySpendingPerMonth(txs: seq<Transaction>)
    ensures |MonthlySpending(txs)| == |MonthOrder(txs)|
    ensures Distinct(MonthOrder(txs))
    ensures forall k :: k in MonthOrder(txs) <==> exists i :: 0 <= i < |txs| && MonthKeyOf(txs[i].date) == k
  {
    MonthOrderMembers(txs);
  }

  // ---------------------------------------------------------------------
  // calculateFinancialHealthScore

  /** The profile's market volatility, 0.15 when it is not given. */
  function VolatilityOf(p: UserFinancialProfile): real
  {
    match p.marketVolatility
    case Some(v) => v
    case None => 0.15
  }

  function SubscriptionAmounts(subs: seq<Subscription>): (r: seq<real>)
    ensures |r| == |subs|
    ensures forall i :: 0 <= i < |subs| ==> r[i] == subs[i].amount
  {
    seq(|subs|, i requires 0 <= i < |subs| => subs[i].amount)
  }

  /** The four measurements the health score is computed from. */
  datatype HealthFactors = HealthFactors(
    cv: real,
    monthsOfExpenses: real,
    subscriptionCost: real,
    subscriptionPercentage: real,
    volatility: real)

  function FactorsOf(p: UserFinancialProfile, now: Date, sqrt: real -> real): HealthFactors
    requires p.monthlyIncome > 0.0 && p.monthlyExpenses > 0.0
  {
    var cost := Sum(SubscriptionAmounts(Detected(p.transactions, now)));
    HealthFactors(
      CoefficientOfVariation(MonthlySpending(p.transactions), sqrt),
      p.liquidSavings / p.monthlyExpenses,
      cost,
      (cost / p.monthlyIncome) * 100.0,
      VolatilityOf(p))
  }

  /** Spending stability: 100 for perfectly even months, one point lost per
      0.01 of variation, 0 from a variation of 1 up. */
  function StabilityScore(cv: real): (r: real)
    ensures 0.0 <= r <= 100.0
    ensures r == 100.0 <==> cv <= 0.0
    ensures r == 0.0 <==> cv >= 1.0
    ensures r < 60.0 <==> cv > 0.4
  {
    Clamp(100.0 - cv * 100.0)
  }

  /** Emergency buffer: 25 points per month of expenses saved, so four
      months or more score 100. */
  function BufferScore(months: real): (r: real)
    ensures 0.0 <= r <= 100.0
    ensures r == 100.0 <==> months >= 4.0
    ensures r == 0.0 <==> months <= 0.0
    ensures r < 50.0 <==> months < 2.0
  {
    Clamp(months * 25.0)
  }

  /** Subscription burden: two points lost per percent of income. */
  function BurdenScore(percentage: real): (r: real)
    ensures 0.0 <= r <= 100.0
    ensures r == 100.0 <==> percentage <= 0.0
    ensures r == 0.0 <==> percentage >= 50.0
    ensures r < 70.0 <==> percentage > 15.0
  {
    Clamp(100.0 - percentage * 2.0)
  }

  /** Market risk: five points lost per 0.01 of volatility. */
  function MarketScore(volatility: real): (r: real)
    ensures 0.0 <= r <= 100.0
    ensures r == 100.0 <==> volatility <= 0.0
    ensures r == 0.0 <==> volatility >= 0.2
    ensures r < 60.0 <==> volatility > 0.08
  {
    Clamp(100.0 - volatility * 500.0)
  }

  /** The weighted total 0.30 / 0.35 / 0.20 / 0.15 of the unrounded
      sub-scores. The weights sum to 1, so for sub-scores in [0, 100] the
      clamp never acts and the total lies between the smallest and the
      largest sub-score. */
  function WeightedTotal(stability: real, buffer: real, burden: real, market: real): (r: real)
    ensures 0.0 <= r <= 100.0
    ensures 0.0 <= stability <= 100.0 && 0.0 <= buffer <= 100.0 && 0.0 <= burden <= 100.0 && 0.0 <= market <= 100.0
      ==> Min(Min(stability, buffer), Min(burden, market)) <= r <= Max(Max(stability, buffer), Max(burden, market))
  {
    Clamp(stability * 0.30 + buffer * 0.35 + burden * 0.20 + market * 0.15)
  }

  /** The unrounded total the risk profile is read from. */
  function RawHealthTotal(f: HealthFactors): real
  {
    WeightedTotal(StabilityScore(f.cv), BufferScore(f.monthsOfExpenses),
                  BurdenScore(f.subscriptionPercentage), MarketScore(f.volatility))
  }

  function StabilityInterpretation(cv: real): string
  {
    if cv < 0.2 then "Very stable" else if cv < 0.4 then "Moderately stable" else "Unstable"
  }

  function BufferInterpretation(months: real): string
  {
    if months >= 3.0 then "Excellent" else if months >= 2.0 then "Good" else "Needs improvement"
  }

  function BurdenInterpretation(percentage: real): string
  {
    if percentage < 10.0 then "Healthy" else if percentage < 20.0 then "Moderate" else "High burden"
  }

  function MarketInterpretation(volatility: real): string
  {
    if volatility < 0.15 then "Low risk" else if volatility < 0.25 then "Moderate risk" else "High risk"
  }

  /** The breakdown record: each sub-score rounded for display, with its
      weight, its measurement and its interpretation. The displayed scores
      lie in [0, 100] and the weights sum to 1. */
  function BreakdownOf(f: HealthFactors, liquidSavings: real): (b: Breakdown)
    ensures 0 <= b.spendingStability.score <= 100 && 0 <= b.emergencyBuffer.score <= 100
    ensures 0 <= b.subscriptionBurden.score <= 100 && 0 <= b.marketRisk.score <= 100
    ensures b.spendingStability.weight + b.emergencyBuffer.weight + b.subscriptionBurden.weight + b.marketRisk.weight == 1.0
  {
    RoundInRange(StabilityScore(f.cv), 0, 100);
    RoundInRange(BufferScore(f.monthsOfExpenses), 0, 100);
    RoundInRange(BurdenScore(f.subscriptionPercentage), 0, 100);
    RoundInRange(MarketScore(f.volatility), 0, 100);
    Breakdown(
      StabilityComponent(Round(StabilityScore(f.cv)), 0.30, f.cv, StabilityInterpretation(f.cv)),
      BufferComponent(Round(BufferScore(f.monthsOfExpenses)), 0.35, f.monthsOfExpenses, liquidSavings,
                      BufferInterpretation(f.monthsOfExpenses)),
      BurdenComponent(Round(BurdenScore(f.subscriptionPercentage)), 0.20, f.subscriptionPercentage,
                      f.subscriptionCost, BurdenInterpretation(f.subscriptionPercentage)),
      MarketComponent(Round(MarketScore(f.volatility)), 0.15, f.volatility, MarketInterpretation(f.volatility)))
  }

  predicate HealthTipsInOrder(tips: seq<HealthTip>)
  {
    forall i, j :: 0 <= i < j < |tips| ==> tips[i].Rank() < tips[j].Rank()
  }

  /** `if (flag) recommendations.push(t)`: the list gains t exactly when
      the flag is set, and stays ordered when t outranks all it holds. */
  function PushHealthTip(tips: seq<HealthTip>, flag: bool, t: HealthTip): (r: seq<HealthTip>)
    ensures forall x :: x in r <==> x in tips || (flag && x == t)
    ensures HealthTipsInOrder(tips) && (forall x :: x in tips ==> x.Rank() < t.Rank()) ==> HealthTipsInOrder(r)
  {
    if flag then tips + [t] else tips
  }

  /** The advice lines whose conditions hold, in their fixed order. */
  function HealthTips(budget: bool, fund: bool, review: bool, volatility: bool): (tips: seq<HealthTip>)
    ensures BudgetTip in tips <==> budget
    ensures EmergencyFundTip in tips <==> fund
    ensures SubscriptionReviewTip in tips <==> review
    ensures VolatilityTip in tips <==> volatility
    ensures HealthTipsInOrder(tips)
  {
    var a := PushHealthTip([], budget, BudgetTip);
    assert HealthTipsInOrder(a) && forall x :: x in a ==> x.Rank() < 1;
    var b := PushHealthTip(a, fund, EmergencyFundTip);
    assert HealthTipsInOrder(b) && forall x :: x in b ==> x.Rank() < 2;
    var c := PushHealthTip(b, review, SubscriptionReviewTip);
    assert HealthTipsInOrder(c) && forall x :: x in c ==> x.Rank() < 3;
    PushHealthTip(c, volatility, VolatilityTip)
  }

  /** The measurements of a profile, taken as the source takes them:
      the monthly spending and the subscriptions by their own procedures. */
  method MeasureProfile(p: UserFinancialProfile, now: Date, sqrt: real -> real) returns (f: HealthFactors)
    requires p.monthlyIncome > 0.0 && p.monthlyExpenses > 0.0
    ensures f == FactorsOf(p, now, sqrt)
  {
    var spending := CalculateMonthlySpending(p.transactions);
    var cv := CoefficientOfVariation(spending, sqrt);
    var months := p.liquidSavings / p.monthlyExpenses;
    var subs := DetectSubscriptions(p.transactions, now);
    var cost := Sum(SubscriptionAmounts(subs));
    var percentage := (cost / p.monthlyIncome) * 100.0;
    f := HealthFactors(cv, months, cost, percentage, VolatilityOf(p));
  }

  /** The scoring half of calculateFinancialHealthScore: the weighted total
      of the unrounded sub-scores, its risk band, and the advice lines
      pushed in a fixed order, each exactly when its measurement crosses its
      threshold. */
  method ScoreFactors(f: HealthFactors, liquidSavings: real) returns (r: FinancialBehaviorScore)
    ensures r.totalScore == Round(RawHealthTotal(f))
    ensures r.riskProfile == GetRiskProfile(RawHealthTotal(f))
    ensures r.breakdown == BreakdownOf(f, liquidSavings)
    ensures 0 <= r.totalScore <= 100
    ensures r.recommendations ==
      HealthTips(f.cv > 0.4, f.monthsOfExpenses < 2.0, f.subscriptionPercentage > 15.0, f.volatility > 0.08)
  {
    var stability := StabilityScore(f.cv);
    var buffer := BufferScore(f.monthsOfExpenses);
    var burden := BurdenScore(f.subscriptionPercentage);
    var market := MarketScore(f.volatility);

    var total := WeightedTotal(stability, buffer, burden, market);
    var riskProfile := GetRiskProfile(total);

    var tips: seq<HealthTip> := [];
    ghost var before := tips;
    if stability < 60.0 {
      tips := tips + [BudgetTip];
    }
    assert tips == PushHealthTip(before, stability < 60.0, BudgetTip);
    before := tips;
    if buffer < 50.0 {
      tips := tips + [EmergencyFundTip];
    }
    assert tips == PushHealthTip(before, buffer < 50.0, EmergencyFundTip);
    before := tips;
    if burden < 70.0 {
      tips := tips + [SubscriptionReviewTip];
    }
    assert tips == PushHealthTip(before, burden < 70.0, SubscriptionReviewTip);
    before := tips;
    if market < 60.0 {
      tips := tips + [VolatilityTip];
    }
    assert tips == PushHealthTip(before, market < 60.0, VolatilityTip);
    assert tips == HealthTips(stability < 60.0, buffer < 50.0, burden < 70.0, market < 60.0);
    assert (stability < 60.0) == (f.cv > 0.4) && (buffer < 50.0) == (f.monthsOfExpenses < 2.0);
    assert (burden < 70.0) == (f.subscriptionPercentage > 15.0) && (market < 60.0) == (f.volatility > 0.08);
    RoundInRange(total, 0, 100);
    r := FinancialBehaviorScore(Round(total), BreakdownOf(f, liquidSavings), riskProfile, tips);
  }

  /** calculateFinancialHealthScore. Each advice line appears exactly when
      its measurement crosses its threshold: spending variation above 0.4,
      savings under two months of expenses, subscriptions above 15% of
      income, volatility above 0.08. */
  method CalculateFinancialHealthScore(p: UserFinancialProfile, now: Date, sqrt: real -> real)
    returns (r: FinancialBehaviorScore)
    requires p.monthlyIncome > 0.0 && p.monthlyExpenses > 0.0
    ensures var f := FactorsOf(p, now, sqrt);
      && r.totalScore == Round(RawHealthTotal(f))
      && r.riskProfile == GetRiskProfile(RawHealthTotal(f))
      && r.breakdown == BreakdownOf(f, p.liquidSavings)
    ensures 0 <= r.totalScore <= 100
    ensures r.recommendations == HealthTips(
      FactorsOf(p, now, sqrt).cv > 0.4, p.liquidSavings < 2.0 * p.monthlyExpenses,
      FactorsOf(p, now, sqrt).subscriptionPercentage > 15.0, VolatilityOf(p) > 0.08)
  {
    var f := MeasureProfile(p, now, sqrt);
    QuotientBelowBound(p.liquidSavings, p.monthlyExpenses, 2.0);
    ghost var fund := p.liquidSavings < 2.0 * p.monthlyExpenses;
    assert (f.monthsOfExpenses < 2.0) == fund;
    r := ScoreFactors(f, p.liquidSavings);
    assert r.recommendations == HealthTips(f.cv > 0.4, fund, f.subscriptionPercentage > 15.0, f.volatility > 0.08);
  }

  /** More liquid savings never lower the emergency-buffer score, the
      unrounded total or the rounded total. */
  lemma HealthScoreMonotoneInSavings(p: UserFinancialProfile, savings: real, now: Date, sqrt: real -> real)
    requires p.monthlyIncome > 0.0 && p.monthlyExpenses > 0.0
    requires p.liquidSavings <= savings
    ensures var f, g := FactorsOf(p, now, sqrt), FactorsOf(p.(liquidSavings := savings), now, sqrt);
      && BufferScore(f.monthsOfExpenses) <= BufferScore(g.monthsOfExpenses)
      && RawHealthTotal(f) <= RawHealthTotal(g)
      && Round(RawHealthTotal(f)) <= Round(RawHealthTotal(g))
  {
    var q := p.(liquidSavings := savings);
    QuotientMonotone(p.liquidSavings, savings, p.monthlyExpenses);
    var f, g := FactorsOf(p, now, sqrt), FactorsOf(q, now, sqrt);
    assert f.cv == g.cv && f.subscriptionPercentage == g.subscriptionPercentage && f.volatility == g.volatility;
    NormalizeScoreMonotone(f.monthsOfExpenses * 25.0, g.monthsOfExpenses * 25.0, 0.0, 100.0);
    var s, b1, b2, u, m :=
      StabilityScore(f.cv), BufferScore(f.monthsOfExpenses), BufferScore(g.monthsOfExpenses),
      BurdenScore(f.subscriptionPercentage), MarketScore(f.volatility);
    NormalizeScoreMonotone(s * 0.30 + b1 * 0.35 + u * 0.20 + m * 0.15, s * 0.30 + b2 * 0.35 + u * 0.20 + m * 0.15, 0.0, 100.0);
  }

  /** Three grocery bills of 1000, one in each of the first three months of
      2024, none of them recurring. */
  function ExampleTransactions(): seq<Transaction>
  {
    [Transaction("t1", Date(0, 2024, 0), 1000.0, "Grocer", "Food", "Grocer", false),
     Transaction("t2", Date(2678400000, 2024, 1), 1000.0, "Grocer", "Food", "Grocer", false),
     Transaction("t3", Date(5184000000, 2024, 2), 1000.0, "Grocer", "Food", "Grocer", false)]
  }

  /** The example spends 1000 in each of its three months. */
  lemma ExampleSpending()
    ensures MonthlySpending(ExampleTransactions()) == [1000.0, 1000.0, 1000.0]
  {
    var txs := ExampleTransactions();
    var s1, s2 := txs[..1], txs[..2];
    assert s1[..0] == [] && s2[..1] == s1 && txs[..2] == s2;
    var k1, k2, k3 := MonthKey(2024, 1), MonthKey(2024, 2), MonthKey(2024, 3);
    assert MonthOrder(s1) == [k1];
    assert MonthOrder(s2) == [k1, k2];
    assert MonthOrder(txs) == [k1, k2, k3];
    assert MonthTotal(s1, k1) == 1000.0;
    assert MonthTotal(s2, k1) == 1000.0;
    assert MonthTotal(txs, k1) == 1000.0;
    assert MonthTotal(s1, k2) == 0.0;
    assert MonthTotal(s2, k2) == 1000.0;
    assert MonthTotal(txs, k2) == 1000.0;
    assert MonthTotal(s2, k3) == MonthTotal(s1, k3) == 0.0;
    assert MonthTotal(txs, k3) == 1000.0;
  }

  /** The example has no recurring charge, so no subscription. */
  lemma ExampleNoSubscriptions(now: Date)
    ensures Detected(ExampleTransactions(), now) == []
  {
    var txs := ExampleTransactions();
    var s1, s2 := txs[..1], txs[..2];
    assert s1[..0] == [] && s2[..1] == s1 && txs[..2] == s2;
    assert RecurringMerchants(s1) == [];
    assert RecurringMerchants(s2) == [];
    assert RecurringMerchants(txs) == [];
  }

  /** A profile earning 5000 with 8000 saved against 3200 of monthly
      expenses, the example spending and volatility 0.15: stability 100,
      buffer 62.5, burden 100, market 25, total 75.625, shown as 76 and
      banded moderate. */
  lemma ExampleProfile(now: Date, sqrt: real -> real)
    requires IsSqrt(sqrt)
    ensures var f := FactorsOf(UserFinancialProfile(5000.0, 8000.0, 3200.0, ExampleTransactions(), Some(0.15)), now, sqrt);
      && StabilityScore(f.cv) == 100.0 && BufferScore(f.monthsOfExpenses) == 62.5
      && BurdenScore(f.subscriptionPercentage) == 100.0 && MarketScore(f.volatility) == 25.0
      && RawHealthTotal(f) == 75.625 && Round(RawHealthTotal(f)) == 76
      && GetRiskProfile(RawHealthTotal(f)) == Moderate
  {
    ExampleSpending();
    ConstantListHasNoVariation(MonthlySpending(ExampleTransactions()), sqrt);
    ExampleNoSubscriptions(now);
  }

  // ---------------------------------------------------------------------
  // calculateSubscriptionHealthScore

  /** Usage confidence: one point lost per idle day, and none at all after
      60 idle days. */
  function UsageConfidence(days: int): (r: real)
    ensures 0.0 <= r <= 100.0
    ensures days > 60 ==> r == 0.0
    ensures 0 <= days <= 60 ==> r == 100.0 - days as real
  {
    if days > 60 then 0.0 else Clamp(100.0 - days as real)
  }

  /** The subscription's monthly cost as a percentage of income. */
  function CostPercentage(amount: real, income: real): real
    requires income > 0.0
  {
    (amount / income) * 100.0
  }

  /** Cost burden: five points lost per percent of income, so a
      subscription above 10% of income scores under 50. */
  function CostBurdenScore(costPercentage: real): (r: real)
    ensures 0.0 <= r <= 100.0
    ensures r == 100.0 <==> costPercentage <= 0.0
    ensures r == 0.0 <==> costPercentage >= 20.0
    ensures r < 50.0 <==> costPercentage > 10.0
  {
    Clamp(100.0 - costPercentage * 5.0)
  }

  /** The affordability heuristic: cheaper subscriptions score higher. */
  function Affordability(amount: real): (r: real)
    ensures 50.0 <= r <= 100.0
    ensures r == 100.0 <==> amount < 20.0
    ensures r == 50.0 <==> amount >= 50.0
    ensures 20.0 <= amount < 50.0 ==> r == 70.0
  {
    if amount < 20.0 then 100.0 else if amount < 50.0 then 70.0 else 50.0
  }

  /** The unrounded health of one subscription: 0.40 usage, 0.35 cost,
      0.25 affordability. */
  function RawSubscriptionHealth(sub: Subscription, income: real): (r: real)
    requires income > 0.0
    ensures 0.0 <= r <= 100.0
    ensures sub.daysSinceLastUse > 60 ==> r <= 60.0
  {
    Clamp(UsageConfidence(sub.daysSinceLastUse) * 0.40
          + CostBurdenScore(CostPercentage(sub.amount, income)) * 0.35
          + Affordability(sub.amount) * 0.25)
  }

  /** The first matching reason: no activity for 60 days, a cost above 5%
      of income, a healthy score above 70, otherwise keep monitoring. */
  function CancelReasonFor(days: int, costPercentage: real, health: real): (r: CancelReason)
    ensures r == NoActivity(days) <==> days > 60
    ensures r == HighCostBurden(costPercentage) <==> days <= 60 && costPercentage > 5.0
    ensures r == ActivelyUsed <==> days <= 60 && costPercentage <= 5.0 && health > 70.0
    ensures r == MonitorUsage <==> days <= 60 && costPercentage <= 5.0 && health <= 70.0
  {
    if days > 60 then NoActivity(days)
    else if costPercentage > 5.0 then HighCostBurden(costPercentage)
    else if health > 70.0 then ActivelyUsed
    else MonitorUsage
  }

  /** The per-subscription analysis. The displayed figures are the rounded
      usage, cost-burden and health scores. A subscription is flagged
      exactly when it has been idle more than 60 days or its unrounded
      health is under 40; a flagged subscription carries a cancel
      confidence of 100 less its health, at least 40, and saves its whole
      amount, an unflagged one neither. The reason is the first that
      matches. A subscription reported as actively used is never flagged. */
  function AnalyzeSubscription(sub: Subscription, income: real): (a: SubscriptionAnalysis)
    requires income > 0.0
    ensures a.subscription == sub
    ensures a.healthScore == Round(RawSubscriptionHealth(sub, income))
    ensures a.usageConfidence == Round(UsageConfidence(sub.daysSinceLastUse))
    ensures a.costBurden == Round(CostBurdenScore(CostPercentage(sub.amount, income)))
    ensures a.cancelConfidence == (if a.shouldCancel then Round(Clamp(100.0 - RawSubscriptionHealth(sub, income))) else 0)
    ensures 0 <= a.healthScore <= 100 && 0 <= a.usageConfidence <= 100
    ensures 0 <= a.costBurden <= 100 && 0 <= a.cancelConfidence <= 100
    ensures sub.daysSinceLastUse > 60 ==> a.usageConfidence == 0 && a.healthScore <= 60
    ensures a.shouldCancel <==> RawSubscriptionHealth(sub, income) < 40.0 || sub.daysSinceLastUse > 60
    ensures a.shouldCancel ==> 40 <= a.cancelConfidence && a.potentialSavings == sub.amount
    ensures !a.shouldCancel ==> a.cancelConfidence == 0 && a.potentialSavings == 0.0
    ensures a.reasoning == CancelReasonFor(sub.daysSinceLastUse, CostPercentage(sub.amount, income),
                                           RawSubscriptionHealth(sub, income))
    ensures sub.daysSinceLastUse > 60 <==> a.reasoning == NoActivity(sub.daysSinceLastUse)
    ensures a.reasoning.HighCostBurden? ==> CostPercentage(sub.amount, income) > 5.0
    ensures a.reasoning == ActivelyUsed ==> !a.shouldCancel && CostPercentage(sub.amount, income) <= 5.0
    ensures a.reasoning == MonitorUsage ==> sub.daysSinceLastUse <= 60 && RawSubscriptionHealth(sub, income) <= 70.0
  {
    var days := sub.daysSinceLastUse;
    var usage := UsageConfidence(days);
    var costPercentage := CostPercentage(sub.amount, income);
    var costBurden := CostBurdenScore(costPercentage);
    var health := RawSubscriptionHealth(sub, income);
    var shouldCancel := health < 40.0 || days > 60;
    var cancelConfidence := if shouldCancel then Clamp(100.0 - health) else 0.0;
    RoundInRange(health, 0, 100);
    RoundInRange(usage, 0, 100);
    RoundInRange(costBurden, 0, 100);
    RoundInRange(cancelConfidence, 0, 100);
    SubscriptionAnalysis(
      sub,
      Round(health),
      Round(usage),
      Round(costBurden),
      shouldCancel,
      Round(cancelConfidence),
      CancelReasonFor(days, costPercentage, health),
      if shouldCancel then sub.amount else 0.0)
  }

  /** Staying idle longer never raises a subscription's health. */
  lemma HealthFallsWithIdleDays(sub: Subscription, days: int, income: real)
    requires income > 0.0 && sub.daysSinceLastUse <= days
    ensures RawSubscriptionHealth(sub.(daysSinceLastUse := days), income) <= RawSubscriptionHealth(sub, income)
  {
    var later := sub.(daysSinceLastUse := days);
    NormalizeScoreMonotone(100.0 - days as real, 100.0 - sub.daysSinceLastUse as real, 0.0, 100.0);
    var c := CostBurdenScore(CostPercentage(sub.amount, income)) * 0.35 + Affordability(sub.amount) * 0.25;
    NormalizeScoreMonotone(UsageConfidence(days) * 0.40 + c, UsageConfidence(sub.daysSinceLastUse) * 0.40 + c, 0.0, 100.0);
  }

  /** A dearer subscription is never healthier. */
  lemma HealthFallsWithAmount(sub: Subscription, amount: real, income: real)
    requires income > 0.0 && sub.amount <= amount
    ensures RawSubscriptionHealth(sub.(amount := amount), income) <= RawSubscriptionHealth(sub, income)
  {
    QuotientMonotone(sub.amount, amount, income);
    var pa, pb := CostPercentage(sub.amount, income), CostPercentage(amount, income);
    NormalizeScoreMonotone(100.0 - pb * 5.0, 100.0 - pa * 5.0, 0.0, 100.0);
    var u := UsageConfidence(sub.daysSinceLastUse) * 0.40;
    NormalizeScoreMonotone(u + CostBurdenScore(pb) * 0.35 + Affordability(amount) * 0.25,
                           u + CostBurdenScore(pa) * 0.35 + Affordability(sub.amount) * 0.25, 0.0, 100.0);
  }

  /** The `map` over the detected subscriptions. */
  function AnalyzeAll(subs: seq<Subscription>, income: real): (r: seq<SubscriptionAnalysis>)
    requires income > 0.0
    ensures |r| == |subs|
    ensures forall i :: 0 <= i < |subs| ==> r[i] == AnalyzeSubscription(subs[i], income)
  {
    seq(|subs|, i requires 0 <= i < |subs| => AnalyzeSubscription(subs[i], income))
  }

  lemma AnalysesInRange(subs: seq<Subscription>, income: real)
    requires income > 0.0
    ensures forall i :: 0 <= i < |subs| ==> 0 <= AnalyzeAll(subs, income)[i].healthScore <= 100
  {
    forall i | 0 <= i < |subs|
      ensures 0 <= AnalyzeAll(subs, income)[i].healthScore <= 100
    {
      var a := AnalyzeSubscription(subs[i], income);
    }
  }

  function HealthScoresOf(analyses: seq<SubscriptionAnalysis>): (r: seq<real>)
    ensures |r| == |analyses|
    ensures forall i :: 0 <= i < |analyses| ==> r[i] == analyses[i].healthScore as real
  {
    seq(|analyses|, i requires 0 <= i < |analyses| => analyses[i].healthScore as real)
  }

  /** The rounded mean of the (rounded) per-subscription scores, or 100 when
      there is nothing to score; within [0, 100] whenever the scores are. */
  function SubscriptionTotal(analyses: seq<SubscriptionAnalysis>): (r: int)
    ensures |analyses| == 0 ==> r == 100
    ensures (forall i :: 0 <= i < |analyses| ==> 0 <= analyses[i].healthScore <= 100) ==> 0 <= r <= 100
  {
    if |analyses| > 0 then
      var scores := HealthScoresOf(analyses);
      ScoresInRange(analyses);
      Round(Mean(scores))
    else 100
  }

  lemma ScoresInRange(analyses: seq<SubscriptionAnalysis>)
    requires |analyses| > 0
    ensures (forall i :: 0 <= i < |analyses| ==> 0 <= analyses[i].healthScore <= 100) ==>
      0 <= Round(Mean(HealthScoresOf(analyses))) <= 100
  {
    if forall i :: 0 <= i < |analyses| ==> 0 <= analyses[i].healthScore <= 100 {
      MeanBounds(HealthScoresOf(analyses), 0.0, 100.0);
    }
  }

  /** The `filter(shouldCancel)` then `reduce` of the potential savings. */
  function MonthlyWaste(analyses: seq<SubscriptionAnalysis>): real
  {
    if analyses == [] then 0.0
    else
      var last := analyses[|analyses| - 1];
      MonthlyWaste(analyses[..|analyses| - 1]) + (if last.shouldCancel then last.potentialSavings else 0.0)
  }

  /** The sum of the amounts of the flagged subscriptions. */
  function FlaggedCost(analyses: seq<SubscriptionAnalysis>): real
  {
    if analyses == [] then 0.0
    else
      var last := analyses[|analyses| - 1];
      FlaggedCost(analyses[..|analyses| - 1]) + (if last.shouldCancel then last.subscription.amount else 0.0)
  }

  /** The monthly waste is what the flagged subscriptions cost; with no
      flagged subscription it is 0, and it is positive only if some
      subscription is flagged. */
  lemma {:induction false} WasteIsFlaggedCost(subs: seq<Subscription>, income: real)
    requires income > 0.0
    ensures MonthlyWaste(AnalyzeAll(subs, income)) == FlaggedCost(AnalyzeAll(subs, income))
    ensures MonthlyWaste(AnalyzeAll(subs, income)) != 0.0 ==>
      exists i :: 0 <= i < |subs| && AnalyzeAll(subs, income)[i].shouldCancel
  {
    if subs != [] {
      var n := |subs| - 1;
      WasteIsFlaggedCost(subs[..n], income);
      assert AnalyzeAll(subs, income)[..n] == AnalyzeAll(subs[..n], income);
    }
  }

  predicate SubscriptionTipsInOrder(tips: seq<SubscriptionTip>)
  {
    forall i, j :: 0 <= i < j < |tips| ==> tips[i].Rank() < tips[j].Rank()
  }

  /** The subscription advice lines whose conditions hold, in their fixed
      order; the saving line quotes the waste. */
  function SubscriptionTips(waste: real, cheaper: bool, review: bool): (tips: seq<SubscriptionTip>)
    ensures CancelUnused(waste) in tips <==> waste > 0.0
    ensures forall t :: t in tips && t.CancelUnused? ==> t.monthlySaving == waste
    ensures CheaperAlternatives in tips <==> cheaper
    ensures ReviewAll in tips <==> review
    ensures SubscriptionTipsInOrder(tips)
  {
    (if waste > 0.0 then [CancelUnused(waste)] else []) + (if cheaper then [CheaperAlternatives] else [])
      + (if review then [ReviewAll] else [])
  }

  /** The `some` test of the cheaper-alternatives advice: a subscription
      whose cost-burden score is under 50. */
  predicate AnyCostly(analyses: seq<SubscriptionAnalysis>)
  {
    exists i :: 0 <= i < |analyses| && analyses[i].costBurden < 50
  }

  /** The aggregation half of calculateSubscriptionHealthScore, over the
      analyses of the detected subscriptions. */
  method ScoreAnalyses(analyses: seq<SubscriptionAnalysis>) returns (r: SubscriptionHealthScore)
    ensures r.subscriptions == analyses
    ensures r.totalScore == SubscriptionTotal(analyses)
    ensures r.totalMonthlyWaste == MonthlyWaste(analyses)
    ensures r.recommendations == SubscriptionTips(r.totalMonthlyWaste, AnyCostly(analyses), r.totalScore < 60)
  {
    var totalScore := SubscriptionTotal(analyses);
    var waste := MonthlyWaste(analyses);

    var tips: seq<SubscriptionTip> := [];
    ghost var saving := if waste > 0.0 then [CancelUnused(waste)] else [];
    if waste > 0.0 {
      tips := tips + [CancelUnused(waste)];
    }
    assert tips == saving;
    var cheaper := AnyCostly(analyses);
    ghost var alternatives := if cheaper then [CheaperAlternatives] else [];
    if cheaper {
      tips := tips + [CheaperAlternatives];
    }
    assert tips == saving + alternatives;
    if totalScore < 60 {
      tips := tips + [ReviewAll];
    }
    assert tips == SubscriptionTips(waste, cheaper, totalScore < 60);
    r := SubscriptionHealthScore(totalScore, analyses, waste, tips);
  }

  /** calculateSubscriptionHealthScore: analyse every detected subscription,
      average their scores (100 when there are none), total the waste of the
      flagged ones, and push the advice lines in a fixed order. */
  method CalculateSubscriptionHealthScore(p: UserFinancialProfile, now: Date) returns (r: SubscriptionHealthScore)
    requires p.monthlyIncome > 0.0
    ensures r.subscriptions == AnalyzeAll(Detected(p.transactions, now), p.monthlyIncome)
    ensures r.totalScore == SubscriptionTotal(r.subscriptions)
    ensures 0 <= r.totalScore <= 100
    ensures Detected(p.transactions, now) == [] ==> r.totalScore == 100
    ensures r.totalMonthlyWaste == FlaggedCost(r.subscriptions)
    ensures r.recommendations == SubscriptionTips(r.totalMonthlyWaste, AnyCostly(r.subscriptions), r.totalScore < 60)
  {
    var subs := DetectSubscriptions(p.transactions, now);
    AnalysesInRange(subs, p.monthlyIncome);
    WasteIsFlaggedCost(subs, p.monthlyIncome);
    r := ScoreAnalyses(AnalyzeAll(subs, p.monthlyIncome));
  }

  // ---------------------------------------------------------------------
  // determineInvestmentMode

  /** Three or more months of spending whose variation is under 0.2. */
  predicate SteadySpending(spending: seq<real>, sqrt: real -> real)
  {
    |spending| >= 3 && CoefficientOfVariation(spending, sqrt) < 0.2
  }

  /** The confidence boost: +0.10 for steady spending, +0.15 for more than
      three months of expenses saved, +0.05 for subscriptions under a tenth
      of income. It exceeds 1.15 exactly when the savings boost is earned
      together with one of the others. */
  function ConfidenceBoost(steady: bool, months: real, subscriptionShare: real): (r: real)
    ensures 1.0 <= r <= 1.30
    ensures r > 1.15 <==> months > 3.0 && (steady || subscriptionShare < 0.10)
  {
    1.0 + (if steady then 0.10 else 0.0) + (if months > 3.0 then 0.15 else 0.0)
        + (if subscriptionShare < 0.10 then 0.05 else 0.0)
  }

  function BoostOf(p: UserFinancialProfile, now: Date, sqrt: real -> real): real
    requires p.monthlyIncome > 0.0 && p.monthlyExpenses > 0.0
  {
    ConfidenceBoost(
      SteadySpending(MonthlySpending(p.transactions), sqrt),
      p.liquidSavings / p.monthlyExpenses,
      Sum(SubscriptionAmounts(Detected(p.transactions, now))) / p.monthlyIncome)
  }

  /** `Math.min(base * boost, 1.0)`: never above 1, and never below the
      base multiplier 0.3 for a health score in [0, 100]. */
  function FinalMultiplier(healthScore: real, boost: real): (r: real)
    ensures r <= 1.0
    ensures r <= GetAggressionMultiplier(healthScore) * boost
    ensures r == 1.0 || r == GetAggressionMultiplier(healthScore) * boost
    ensures 0.0 <= healthScore <= 100.0 && 1.0 <= boost ==> 0.3 <= r
  {
    var base := GetAggressionMultiplier(healthScore);
    BoostNeverLowers(base, boost);
    var product := base * boost;
    if product <= 1.0 then product else 1.0
  }

  lemma BoostNeverLowers(base: real, boost: real)
    ensures 0.0 <= base && 1.0 <= boost ==> base <= base * boost
  {
    if 0.0 <= base && 1.0 <= boost {
      MultiplyByNonNegative(1.0, boost, base);
    }
  }

  predicate InvestmentTipsInOrder(tips: seq<InvestmentTip>)
  {
    forall i, j :: 0 <= i < j < |tips| ==> tips[i].Rank() < tips[j].Rank()
  }

  /** The investment advice lines whose conditions hold, in their fixed
      order. */
  function InvestmentTips(improve: bool, fund: bool, discipline: bool): (tips: seq<InvestmentTip>)
    ensures ImproveHealth in tips <==> improve
    ensures BuildThreeMonthFund in tips <==> fund
    ensures ExcellentDiscipline in tips <==> discipline
    ensures InvestmentTipsInOrder(tips)
  {
    (if improve then [ImproveHealth] else []) + (if fund then [BuildThreeMonthFund] else [])
      + (if discipline then [ExcellentDiscipline] else [])
  }

  /** `Math.round(x * 100) / 100`: a whole number of cents, within half a
      cent of x. */
  function ToCents(x: real): (r: real)
    ensures x - 0.005 < r <= x + 0.005
    ensures (r * 100.0).Floor as real == r * 100.0
  {
    var cents := Round(x * 100.0);
    assert x * 100.0 - 0.5 < cents as real <= x * 100.0 + 0.5;
    cents as real / 100.0
  }

  /** The spare change scaled by the final multiplier. */
  function InvestmentAmount(spareChange: real, multiplier: real): real
  {
    spareChange * multiplier
  }

  /** The confidence boost of determineInvestmentMode, accumulated step by
      step, with the two measurements the advice reads. */
  method MeasureBoost(p: UserFinancialProfile, now: Date, sqrt: real -> real)
    returns (confidenceBoost: real, months: real, subCost: real)
    requires p.monthlyIncome > 0.0 && p.monthlyExpenses > 0.0
    ensures confidenceBoost == BoostOf(p, now, sqrt)
    ensures months == p.liquidSavings / p.monthlyExpenses
    ensures subCost == Sum(SubscriptionAmounts(Detected(p.transactions, now)))
  {
    confidenceBoost := 1.0;
    var spending := CalculateMonthlySpending(p.transactions);
    if |spending| >= 3 {
      var cv := CoefficientOfVariation(spending, sqrt);
      if cv < 0.2 {
        confidenceBoost := confidenceBoost + 0.10;
      }
    }
    months := p.liquidSavings / p.monthlyExpenses;
    if months > 3.0 {
      confidenceBoost := confidenceBoost + 0.15;
    }
    var subs := DetectSubscriptions(p.transactions, now);
    subCost := Sum(SubscriptionAmounts(subs));
    if subCost / p.monthlyIncome < 0.10 {
      confidenceBoost := confidenceBoost + 0.05;
    }
  }

  /** Investing is paused exactly when the reasoning says so; otherwise the
      reasoning follows the risk band and quotes the multiplier as a
      percentage. */
  predicate ReasoningMatchesRisk(d: InvestmentDecision)
  {
    && (!d.shouldInvest <==> d.reasoning == Paused)
    && (d.shouldInvest ==>
      && (d.reasoning.StrongHealth? <==> d.riskLevel == Aggressive)
      && (d.reasoning.GoodPosition? <==> d.riskLevel == Moderate)
      && (d.reasoning.ConservativeApproach? <==> d.riskLevel == Conservative || d.riskLevel == Minimal)
      && d.reasoning.percent == Round(d.aggressionMultiplier * 100.0))
  }

  /** The discipline advice: more than three months of expenses saved, and
      steady spending or subscriptions under a tenth of income. */
  predicate DisciplineEarned(p: UserFinancialProfile, now: Date, sqrt: real -> real)
  {
    && p.liquidSavings > 3.0 * p.monthlyExpenses
    && (SteadySpending(MonthlySpending(p.transactions), sqrt)
        || Sum(SubscriptionAmounts(Detected(p.transactions, now))) < 0.10 * p.monthlyIncome)
  }

  /** The decision half of determineInvestmentMode, from the health score,
      the spare change, the boost and the months of expenses saved. */
  method Decide(healthScore: real, spareChange: real, confidenceBoost: real, months: real, liquidSavings: real, monthlyExpenses: real)
    returns (d: InvestmentDecision)
    ensures d.aggressionMultiplier == FinalMultiplier(healthScore, confidenceBoost)
    ensures d.shouldInvest <==> healthScore >= 35.0 && liquidSavings > monthlyExpenses
    ensures d.amount == ToCents(InvestmentAmount(spareChange, d.aggressionMultiplier))
    ensures d.aggression == Round(healthScore) && d.spareChange == spareChange
    ensures d.riskLevel == GetRiskProfile(healthScore)
    ensures ReasoningMatchesRisk(d)
    ensures d.reasoning.StrongHealth? ==> d.reasoning.healthScore == healthScore
    ensures d.recommendations == InvestmentTips(healthScore < 60.0, months < 3.0, confidenceBoost > 1.15)
  {
    var finalMultiplier := FinalMultiplier(healthScore, confidenceBoost);
    var investmentAmount := InvestmentAmount(spareChange, finalMultiplier);
    var riskLevel := GetRiskProfile(healthScore);
    var shouldInvest := healthScore >= 35.0 && liquidSavings > monthlyExpenses;

    var percent := Round(finalMultiplier * 100.0);
    var reasoning;
    if !shouldInvest {
      reasoning := Paused;
    } else if healthScore >= 80.0 {
      reasoning := StrongHealth(healthScore, percent);
    } else if healthScore >= 60.0 {
      reasoning := GoodPosition(percent);
    } else {
      reasoning := ConservativeApproach(percent);
    }

    var tips: seq<InvestmentTip> := [];
    ghost var improve := if healthScore < 60.0 then [ImproveHealth] else [];
    ghost var fund := if months < 3.0 then [BuildThreeMonthFund] else [];
    if healthScore < 60.0 {
      tips := tips + [ImproveHealth];
    }
    assert tips == improve;
    if months < 3.0 {
      tips := tips + [BuildThreeMonthFund];
    }
    assert tips == improve + fund;
    if confidenceBoost > 1.15 {
      tips := tips + [ExcellentDiscipline];
    }
    assert tips == InvestmentTips(healthScore < 60.0, months < 3.0, confidenceBoost > 1.15);

    d := InvestmentDecision(shouldInvest, ToCents(investmentAmount), Round(healthScore),
                            reasoning, spareChange, finalMultiplier, riskLevel, tips);
  }

  /** determineInvestmentMode: the base multiplier of the health score,
      times the boost, capped at 1. Investing is on exactly when the score
      is at least 35 and savings exceed one month of expenses; the
      reasoning follows the risk band of the score; the amount is the spare
      change times the multiplier to the nearest cent; the discipline advice
      needs more than three months saved plus steady spending or light
      subscriptions. */
  method DetermineInvestmentMode(healthScore: real, spareChange: real, p: UserFinancialProfile, now: Date, sqrt: real -> real)
    returns (d: InvestmentDecision)
    requires p.monthlyIncome > 0.0 && p.monthlyExpenses > 0.0
    ensures d.aggressionMultiplier == FinalMultiplier(healthScore, BoostOf(p, now, sqrt))
    ensures d.aggressionMultiplier <= 1.0
    ensures 0.0 <= healthScore <= 100.0 ==> 0.3 <= d.aggressionMultiplier
    ensures d.shouldInvest <==> healthScore >= 35.0 && p.liquidSavings > p.monthlyExpenses
    ensures d.amount == ToCents(InvestmentAmount(spareChange, d.aggressionMultiplier))
    ensures InvestmentAmount(spareChange, d.aggressionMultiplier) - 0.005 < d.amount
         <= InvestmentAmount(spareChange, d.aggressionMultiplier) + 0.005
    ensures d.aggression == Round(healthScore) && d.spareChange == spareChange
    ensures d.riskLevel == GetRiskProfile(healthScore)
    ensures ReasoningMatchesRisk(d)
    ensures d.reasoning.StrongHealth? ==> d.reasoning.healthScore == healthScore
    ensures d.recommendations == InvestmentTips(
              healthScore < 60.0, p.liquidSavings < 3.0 * p.monthlyExpenses, DisciplineEarned(p, now, sqrt))
  {
    var confidenceBoost, months, subCost := MeasureBoost(p, now, sqrt);
    QuotientBelowBound(p.liquidSavings, p.monthlyExpenses, 3.0);
    DisciplineCondition(p, now, sqrt);
    ghost var fund := p.liquidSavings < 3.0 * p.monthlyExpenses;
    ghost var discipline := DisciplineEarned(p, now, sqrt);
    assert (months < 3.0) == fund && (confidenceBoost > 1.15) == discipline;
    d := Decide(healthScore, spareChange, confidenceBoost, months, p.liquidSavings, p.monthlyExpenses);
    assert d.recommendations == InvestmentTips(healthScore < 60.0, fund, discipline);
  }

  /** The boost passes 1.15 exactly when savings exceed three months of
      expenses and, besides, spending is steady or subscriptions cost less
      than a tenth of income. */
  lemma DisciplineCondition(p: UserFinancialProfile, now: Date, sqrt: real -> real)
    requires p.monthlyIncome > 0.0 && p.monthlyExpenses > 0.0
    ensures BoostOf(p, now, sqrt) > 1.15 <==> DisciplineEarned(p, now, sqrt)
  {
    var steady := SteadySpending(MonthlySpending(p.transactions), sqrt);
    var subCost := Sum(SubscriptionAmounts(Detected(p.transactions, now)));
    var months := p.liquidSavings / p.monthlyExpenses;
    var share := subCost / p.monthlyIncome;
    assert BoostOf(p, now, sqrt) == ConfidenceBoost(steady, months, share);
    QuotientAboveBound(p.liquidSavings, p.monthlyExpenses, 3.0);
    QuotientBelowBound(subCost, p.monthlyIncome, 0.10);
  }

  /** The emergency-fund advice and the discipline advice never appear
      together. */
  lemma FundAndDisciplineExclusive(steady: bool, months: real, share: real)
    requires ConfidenceBoost(steady, months, share) > 1.15
    ensures !(months < 3.0)
  {
  }

  // ---------------------------------------------------------------------
  // getHealthScoreLabel and getHealthScoreColor

  /** The label of a score; its bands are exactly the risk-profile bands. */
  function HealthScoreLabel(score: real): (r: string)
    ensures r == "Excellent" <==> GetRiskProfile(score) == Aggressive
    ensures r == "Good" <==> GetRiskProfile(score) == Moderate
    ensures r == "Fair" <==> GetRiskProfile(score) == Conservative
    ensures r == "Poor" <==> GetRiskProfile(score) == Minimal
  {
    if score >= 80.0 then "Excellent"
    else if score >= 60.0 then "Good"
    else if score >= 40.0 then "Fair"
    else "Poor"
  }

  /** The colour of a score: green, blue, yellow, red over the same bands. */
  function HealthScoreColor(score: real): (r: string)
    ensures r == "hsl(142, 71%, 45%)" <==> GetRiskProfile(score) == Aggressive
    ensures r == "hsl(193, 100%, 50%)" <==> GetRiskProfile(score) == Moderate
    ensures r == "hsl(38, 92%, 50%)" <==> GetRiskProfile(score) == Conservative
    ensures r == "hsl(0, 84%, 60%)" <==> GetRiskProfile(score) == Minimal
  {
    if score >= 80.0 then "hsl(142, 71%, 45%)"
    else if score >= 60.0 then "hsl(193, 100%, 50%)"
    else if score >= 40.0 then "hsl(38, 92%, 50%)"
    else "hsl(0, 84%, 60%)"
  }
}
