/** Subscription detection: recurring charges grouped by merchant, with the
    billing frequency inferred from the gaps between charge dates. */
module Detection {
  import opened Financial
  import opened Helpers

  // ---------------------------------------------------------------------
  // Grouping recurring charges by merchant

  /** The recurring transactions of one merchant, in list order. */
  function ChargesOf(txs: seq<Transaction>, merchant: string): seq<Transaction>
  {
    if txs == [] then []
    else
      var last := txs[|txs| - 1];
      ChargesOf(txs[..|txs| - 1], merchant) + (if last.isRecurring && last.merchant == merchant then [last] else [])
  }

  /** The merchants of the recurring transactions, each once, in order of
      their first recurring charge (the insertion order of the source's Map). */
  function RecurringMerchants(txs: seq<Transaction>): seq<string>
  {
    if txs == [] then []
    else
      var merchants := RecurringMerchants(txs[..|txs| - 1]);
      var last := txs[|txs| - 1];
      if last.isRecurring && last.merchant !in merchants then merchants + [last.merchant] else merchants
  }

  /** Every charge of a merchant is a recurring transaction of that merchant
      taken from the list. */
  lemma {:induction false} ChargesAreRecurring(txs: seq<Transaction>, merchant: string)
    ensures forall t :: t in ChargesOf(txs, merchant) ==> t in txs && t.isRecurring && t.merchant == merchant
  {
    if txs != [] {
      ChargesAreRecurring(txs[..|txs| - 1], merchant);
    }
  }

  /** The merchant list has no repeats, and a merchant is on it exactly when
      it has at least one recurring charge. */
  lemma {:induction false} RecurringMerchantsFacts(txs: seq<Transaction>)
    ensures Distinct(RecurringMerchants(txs))
    ensures forall m :: m in RecurringMerchants(txs) <==> |ChargesOf(txs, m)| > 0
  {
    if txs != [] {
      RecurringMerchantsFacts(txs[..|txs| - 1]);
    }
  }

  lemma {:induction false} NoChargesOfAbsentMerchant(txs: seq<Transaction>, merchant: string)
    requires merchant !in RecurringMerchants(txs)
    ensures ChargesOf(txs, merchant) == []
  {
    if txs != [] {
      NoChargesOfAbsentMerchant(txs[..|txs| - 1], merchant);
    }
  }

  // ---------------------------------------------------------------------
  // Sorting charge dates

  ghost predicate SortedByTime(ds: seq<Date>)
  {
    forall i, j :: 0 <= i < j < |ds| ==> ds[i].time <= ds[j].time
  }

  function InsertByTime(d: Date, ds: seq<Date>): (r: seq<Date>)
    requires SortedByTime(ds)
    ensures SortedByTime(r)
    ensures multiset(r) == multiset(ds) + multiset{d}
    ensures |r| > 0 && (r[0] == d || (ds != [] && r[0] == ds[0]))
  {
    if ds == [] then [d]
    else if d.time < ds[0].time then
      ConsSorted(d, ds);
      [d] + ds
    else
      var rest := InsertByTime(d, ds[1..]);
      assert ds == [ds[0]] + ds[1..];
      ConsSorted(ds[0], rest);
      [ds[0]] + rest
  }

  /** A date no later than the head of a sorted list can go in front. */
  lemma ConsSorted(d: Date, ds: seq<Date>)
    requires SortedByTime(ds) && (ds == [] || d.time <= ds[0].time)
    ensures SortedByTime([d] + ds)
  {
    var r := [d] + ds;
    forall i, j | 0 <= i < j < |r|
      ensures r[i].time <= r[j].time
    {
      if i == 0 && j > 1 {
        assert ds[0].time <= ds[j - 1].time;
      }
    }
  }

  /** The dates ordered by time, as `sort((a, b) => a.getTime() - b.getTime())`
      orders them. */
  function SortByTime(ds: seq<Date>): (r: seq<Date>)
    ensures SortedByTime(r)
    ensures multiset(r) == multiset(ds)
    ensures |r| == |ds|
  {
    if ds == [] then []
    else
      var n := |ds| - 1;
      assert ds == ds[..n] + [ds[n]];
      var r := InsertByTime(ds[n], SortByTime(ds[..n]));
      assert |r| == |multiset(r)|;
      r
  }

  // ---------------------------------------------------------------------
  // Gaps, frequency, confidence

  /** The whole-day gaps between consecutive dates. */
  function GapsOf(dates: seq<Date>): (r: seq<real>)
    ensures |dates| > 0 ==> |r| == |dates| - 1
  {
    if |dates| == 0 then []
    else seq(|dates| - 1, i requires 0 <= i < |dates| - 1 => DaysBetween(dates[i], dates[i + 1]) as real)
  }

  /** The `for` loop that pushes one gap per consecutive pair of dates. */
  method ChargeGaps(dates: seq<Date>) returns (gaps: seq<real>)
    ensures gaps == GapsOf(dates)
  {
    gaps := [];
    var i := 1;
    while i < |dates|
      invariant 1 <= i && (i <= |dates| || i == 1)
      invariant |gaps| == i - 1
      invariant forall k :: 0 <= k < i - 1 ==> gaps[k] == DaysBetween(dates[k], dates[k + 1]) as real
    {
      gaps := gaps + [DaysBetween(dates[i - 1], dates[i]) as real];
      i := i + 1;
    }
  }

  /** Over time-sorted dates, the gaps sum to the whole span in days, each
      gap rounded up: the span is at most the sum, and more than the sum
      less one day per gap (a day is 86 400 000 ms, `MsPerDay`). */
  lemma {:induction false} GapsBracketSpan(dates: seq<Date>)
    requires |dates| > 0 && SortedByTime(dates)
    ensures var span := (dates[|dates| - 1].time - dates[0].time) as real;
      && span <= Sum(GapsOf(dates)) * 86400000.0
      && (|dates| == 1 || (Sum(GapsOf(dates)) - (|dates| - 1) as real) * 86400000.0 < span)
  {
    var n := |dates|;
    if n > 1 {
      var prefix := dates[..n - 1];
      assert SortedByTime(prefix);
      GapsBracketSpan(prefix);
      var g := DaysBetween(dates[n - 2], dates[n - 1]);
      var d := dates[n - 1].time - dates[n - 2].time;
      assert 0 <= d && (g - 1) * MsPerDay < d <= g * MsPerDay;
      GapInDays(g, d);
      SumOfGapsSnoc(dates);
      assert prefix[0] == dates[0] && prefix[n - 2] == dates[n - 2];
      AddGap((dates[n - 2].time - dates[0].time) as real, Sum(GapsOf(prefix)), n - 1, g as real, d as real);
    }
  }

  /** Appending a date adds its gap from the previous one to the total. */
  lemma SumOfGapsSnoc(dates: seq<Date>)
    requires |dates| > 1
    ensures var prefix := dates[..|dates| - 1];
      && Sum(GapsOf(dates)) == Sum(GapsOf(prefix)) + DaysBetween(dates[|dates| - 2], dates[|dates| - 1]) as real
      && (|dates| == 2 ==> Sum(GapsOf(prefix)) == 0.0)
  {
    var n := |dates|;
    var prefix := dates[..n - 1];
    var gaps := GapsOf(dates);
    assert gaps[..n - 2] == GapsOf(prefix);
  }

  lemma GapInDays(g: int, d: int)
    requires (g - 1) * MsPerDay < d <= g * MsPerDay
    ensures (g as real - 1.0) * 86400000.0 < d as real <= g as real * 86400000.0
  {
  }

  lemma AddGap(spanBefore: real, before: real, k: int, g: real, d: real)
    requires k >= 1
    requires k == 1 ==> before == 0.0 && spanBefore == 0.0
    requires spanBefore <= before * 86400000.0
    requires k == 1 || (before - (k - 1) as real) * 86400000.0 < spanBefore
    requires (g - 1.0) * 86400000.0 < d <= g * 86400000.0
    ensures spanBefore + d <= (before + g) * 86400000.0
    ensures (before + g - k as real) * 86400000.0 < spanBefore + d
  {
  }

  /** The frequency band of an average gap; 'daily' is never produced. */
  function FrequencyOf(avgGap: real): (f: Frequency)
    ensures f != Daily
    ensures f == Weekly <==> avgGap <= 7.0
    ensures f == Monthly <==> 7.0 < avgGap <= 300.0
    ensures f == Yearly <==> 300.0 < avgGap
  {
    if avgGap <= 7.0 then Weekly
    else if avgGap <= 35.0 then Monthly
    else if avgGap > 300.0 then Yearly
    else Monthly
  }

  /** `Math.min(100, count * 30)`: a saturating heuristic confidence. */
  function PatternConfidence(count: nat): (r: int)
    ensures r <= 100 && r <= 30 * count
    ensures r == 100 || r == 30 * count
    ensures count >= 2 ==> 60 <= r
  {
    if count * 30 < 100 then count * 30 else 100
  }

  // ---------------------------------------------------------------------
  // Subscription ids

  /** The characters JavaScript's `\s` matches. */
  predicate IsWhitespace(c: char)
  {
    c == ' ' || c == '\t' || c == '\n' || c == '\r' || c == '\U{000B}' || c == '\U{000C}'
    || c == '\U{00A0}' || c == '\U{1680}' || ('\U{2000}' <= c <= '\U{200A}')
    || c == '\U{2028}' || c == '\U{2029}' || c == '\U{202F}' || c == '\U{205F}'
    || c == '\U{3000}' || c == '\U{FEFF}'
  }

  function LowerAscii(c: char): char
  {
    if 'A' <= c <= 'Z' then (c as int + 32) as char else c
  }

  /** `"sub-" + merchant.toLowerCase().replace(/\s/g, '-')`, with
      lower-casing limited to ASCII letters. */
  function SubscriptionId(merchant: string): (r: string)
    ensures |r| == |merchant| + 4 && r[..4] == "sub-"
    ensures forall i :: 4 <= i < |r| ==> !IsWhitespace(r[i]) && !('A' <= r[i] <= 'Z')
    ensures forall i :: 0 <= i < |merchant| && IsWhitespace(merchant[i]) ==> r[4 + i] == '-'
    ensures forall i :: 0 <= i < |merchant| && 'A' <= merchant[i] <= 'Z' ==>
      r[4 + i] as int == merchant[i] as int + 32
    ensures forall i :: 0 <= i < |merchant| && !IsWhitespace(merchant[i]) && !('A' <= merchant[i] <= 'Z') ==>
      r[4 + i] == merchant[i]
  {
    "sub-" + seq(|merchant|, i requires 0 <= i < |merchant| =>
      if IsWhitespace(merchant[i]) then '-' else LowerAscii(merchant[i]))
  }

  // ---------------------------------------------------------------------
  // One merchant's subscription

  function AmountsOf(txs: seq<Transaction>): (r: seq<real>)
    ensures |r| == |txs|
    ensures forall i :: 0 <= i < |txs| ==> r[i] == txs[i].amount
  {
    seq(|txs|, i requires 0 <= i < |txs| => txs[i].amount)
  }

  function DatesOf(txs: seq<Transaction>): (r: seq<Date>)
    ensures |r| == |txs|
    ensures forall i :: 0 <= i < |txs| ==> r[i] == txs[i].date
  {
    seq(|txs|, i requires 0 <= i < |txs| => txs[i].date)
  }

  /** The subscription inferred from two or more charges of one merchant. */
  function Summarize(merchant: string, charges: seq<Transaction>, now: Date): Subscription
    requires |charges| >= 2
  {
    var dates := SortByTime(DatesOf(charges));
    var lastCharge := dates[|dates| - 1];
    Subscription(
      SubscriptionId(merchant),
      merchant,
      Mean(AmountsOf(charges)),
      FrequencyOf(Mean(GapsOf(dates))),
      lastCharge,
      PatternConfidence(|charges|),
      DaysBetween(lastCharge, now))
  }

  /** The body of the per-merchant callback: average amount, sorted dates,
      the gap loop, the frequency chosen step by step. */
  method SummarizeCharges(merchant: string, charges: seq<Transaction>, now: Date) returns (sub: Subscription)
    requires |charges| >= 2
    ensures sub == Summarize(merchant, charges, now)
  {
    var avgAmount := Mean(AmountsOf(charges));
    var dates := SortByTime(DatesOf(charges));
    var gaps := ChargeGaps(dates);
    var avgGap := Mean(gaps);
    var frequency := Monthly;
    if avgGap <= 7.0 {
      frequency := Weekly;
    } else if avgGap <= 35.0 {
      frequency := Monthly;
    } else if avgGap > 300.0 {
      frequency := Yearly;
    }
    var lastCharge := dates[|dates| - 1];
    var confidence := PatternConfidence(|charges|);
    sub := Subscription(SubscriptionId(merchant), merchant, avgAmount, frequency, lastCharge, confidence,
                        DaysBetween(lastCharge, now));
  }

  /** The last of the time-sorted dates is one of the dates and is no
      earlier than any of them. */
  lemma LastIsLatest(ds: seq<Date>)
    requires |ds| > 0
    ensures var sorted := SortByTime(ds);
      && sorted[|sorted| - 1] in ds
      && forall i :: 0 <= i < |ds| ==> ds[i].time <= sorted[|sorted| - 1].time
  {
    LastOfSortedPermutation(ds, SortByTime(ds));
  }

  lemma LastOfSortedPermutation(ds: seq<Date>, sorted: seq<Date>)
    requires |ds| > 0 && |sorted| == |ds|
    requires SortedByTime(sorted) && multiset(sorted) == multiset(ds)
    ensures sorted[|sorted| - 1] in ds
    ensures forall i :: 0 <= i < |ds| ==> ds[i].time <= sorted[|sorted| - 1].time
  {
    var n := |sorted|;
    SameElements(sorted, ds, sorted[n - 1]);
    forall i | 0 <= i < |ds|
      ensures ds[i].time <= sorted[n - 1].time
    {
      SameElements(ds, sorted, ds[i]);
      var j :| 0 <= j < n && sorted[j] == ds[i];
      SortedLast(sorted, j);
    }
  }

  /** Sequences with the same multiset have the same members. */
  lemma SameElements<T>(a: seq<T>, b: seq<T>, x: T)
    requires multiset(a) == multiset(b) && x in a
    ensures x in b
  {
    assert x in multiset(a);
  }

  lemma SortedLast(ds: seq<Date>, j: int)
    requires SortedByTime(ds) && 0 <= j < |ds|
    ensures ds[j].time <= ds[|ds| - 1].time
  {
    if j < |ds| - 1 {
      assert ds[j].time <= ds[|ds| - 1].time;
    }
  }

  /** The amount is the mean of the charges, so it lies between their
      smallest and largest amount; the last charge is the latest charge
      date; the confidence is min(100, 30 * count), between 60 and 100; the
      staleness is the whole days from the last charge to now. */
  lemma SummaryFacts(merchant: string, charges: seq<Transaction>, now: Date, lo: real, hi: real)
    requires |charges| >= 2
    requires forall i :: 0 <= i < |charges| ==> lo <= charges[i].amount <= hi
    ensures var s := Summarize(merchant, charges, now);
      && s.merchant == merchant
      && lo <= s.amount <= hi
      && s.lastCharge in DatesOf(charges)
      && (forall i :: 0 <= i < |charges| ==> charges[i].date.time <= s.lastCharge.time)
      && 60 <= s.detectedPattern <= 100
      && s.detectedPattern == (if 30 * |charges| < 100 then 30 * |charges| else 100)
      && s.frequency != Daily
      && s.daysSinceLastUse == DaysBetween(s.lastCharge, now)
  {
    MeanBounds(AmountsOf(charges), lo, hi);
    LastIsLatest(DatesOf(charges));
  }

  // ---------------------------------------------------------------------
  // All subscriptions

  /** One subscription per listed merchant with two or more recurring
      charges, in list order. */
  function SubscriptionsFor(merchants: seq<string>, txs: seq<Transaction>, now: Date): seq<Subscription>
  {
    if merchants == [] then []
    else
      var m := merchants[|merchants| - 1];
      var charges := ChargesOf(txs, m);
      SubscriptionsFor(merchants[..|merchants| - 1], txs, now)
        + (if |charges| >= 2 then [Summarize(m, charges, now)] else [])
  }

  /** One more merchant adds its subscription, if it has one, at the end. */
  lemma SubscriptionsForSnoc(merchants: seq<string>, m: string, txs: seq<Transaction>, now: Date)
    ensures var charges := ChargesOf(txs, m);
      SubscriptionsFor(merchants + [m], txs, now)
        == SubscriptionsFor(merchants, txs, now) + (if |charges| >= 2 then [Summarize(m, charges, now)] else [])
  {
    assert (merchants + [m])[..|merchants|] == merchants;
  }

  /** What detectSubscriptions returns. */
  function Detected(txs: seq<Transaction>, now: Date): seq<Subscription>
  {
    SubscriptionsFor(RecurringMerchants(txs), txs, now)
  }

  function MerchantsOf(subs: seq<Subscription>): (r: seq<string>)
    ensures |r| == |subs|
    ensures forall i :: 0 <= i < |subs| ==> r[i] == subs[i].merchant
  {
    seq(|subs|, i requires 0 <= i < |subs| => subs[i].merchant)
  }

  /** Each emitted subscription summarises a listed merchant with two or
      more recurring charges. */
  lemma {:induction false} SubscriptionsForSound(merchants: seq<string>, txs: seq<Transaction>, now: Date)
    ensures forall s :: s in SubscriptionsFor(merchants, txs, now) ==>
      s.merchant in merchants && |ChargesOf(txs, s.merchant)| >= 2
      && s == Summarize(s.merchant, ChargesOf(txs, s.merchant), now)
  {
    if merchants != [] {
      var prefix := merchants[..|merchants| - 1];
      SubscriptionsForSound(prefix, txs, now);
      assert forall m :: m in prefix ==> m in merchants;
    }
  }

  /** Every listed merchant with two or more recurring charges is emitted. */
  lemma {:induction false} SubscriptionsForComplete(merchants: seq<string>, txs: seq<Transaction>, now: Date)
    ensures forall m :: m in merchants && |ChargesOf(txs, m)| >= 2 ==> m in MerchantsOf(SubscriptionsFor(merchants, txs, now))
  {
    if merchants != [] {
      var n := |merchants| - 1;
      var prefix := merchants[..n];
      SubscriptionsForComplete(prefix, txs, now);
      var before := SubscriptionsFor(prefix, txs, now);
      var all := SubscriptionsFor(merchants, txs, now);
      assert merchants == prefix + [merchants[n]];
      forall m | m in merchants && |ChargesOf(txs, m)| >= 2
        ensures m in MerchantsOf(all)
      {
        if m in prefix {
          var i :| 0 <= i < |before| && MerchantsOf(before)[i] == m;
          assert all[i] == before[i];
        } else {
          assert all[|all| - 1].merchant == m;
        }
      }
    }
  }

  /** Distinct merchants give subscriptions with distinct merchants. */
  lemma {:induction false} SubscriptionsForDistinct(merchants: seq<string>, txs: seq<Transaction>, now: Date)
    requires Distinct(merchants)
    ensures Distinct(MerchantsOf(SubscriptionsFor(merchants, txs, now)))
  {
    if merchants != [] {
      var n := |merchants| - 1;
      var prefix, m := merchants[..n], merchants[n];
      assert merchants == prefix + [m];
      assert Distinct(prefix) && m !in prefix;
      SubscriptionsForDistinct(prefix, txs, now);
      SubscriptionsForSound(prefix, txs, now);
      var before := SubscriptionsFor(prefix, txs, now);
      assert m !in MerchantsOf(before) by {
        forall i | 0 <= i < |before|
          ensures before[i].merchant != m
        {
          assert before[i] in before;
        }
      }
      SubscriptionsForSnoc(prefix, m, txs, now);
      var charges := ChargesOf(txs, m);
      if |charges| >= 2 {
        var s := Summarize(m, charges, now);
        MerchantsOfSnoc(before, s);
        DistinctSnoc(MerchantsOf(before), m);
      }
    }
  }

  lemma MerchantsOfSnoc(subs: seq<Subscription>, s: Subscription)
    ensures MerchantsOf(subs + [s]) == MerchantsOf(subs) + [s.merchant]
  {
  }

  lemma DistinctSnoc<T>(xs: seq<T>, x: T)
    requires Distinct(xs) && x !in xs
    ensures Distinct(xs + [x])
  {
  }

  /** detectSubscriptions emits exactly one subscription per merchant that
      has two or more recurring transactions and none for any other
      merchant; each is the summary of that merchant's recurring charges. */
  lemma DetectedSubscriptions(txs: seq<Transaction>, now: Date)
    ensures forall m :: m in MerchantsOf(Detected(txs, now)) <==> |ChargesOf(txs, m)| >= 2
    ensures Distinct(MerchantsOf(Detected(txs, now)))
    ensures forall s :: s in Detected(txs, now) ==>
      |ChargesOf(txs, s.merchant)| >= 2 && s == Summarize(s.merchant, ChargesOf(txs, s.merchant), now)
  {
    var merchants := RecurringMerchants(txs);
    RecurringMerchantsFacts(txs);
    SubscriptionsForSound(merchants, txs, now);
    SubscriptionsForComplete(merchants, txs, now);
    SubscriptionsForDistinct(merchants, txs, now);
    var subs := Detected(txs, now);
    forall m | m in MerchantsOf(subs)
      ensures |ChargesOf(txs, m)| >= 2
    {
      var i :| 0 <= i < |subs| && MerchantsOf(subs)[i] == m;
      assert subs[i] in subs;
    }
  }

  /** The recurring transactions of the list, in order. */
  function RecurringOnly(txs: seq<Transaction>): seq<Transaction>
  {
    if txs == [] then []
    else RecurringOnly(txs[..|txs| - 1]) + (if txs[|txs| - 1].isRecurring then [txs[|txs| - 1]] else [])
  }

  lemma {:induction false} GroupingIgnoresNonRecurring(txs: seq<Transaction>)
    ensures RecurringMerchants(RecurringOnly(txs)) == RecurringMerchants(txs)
    ensures forall m :: ChargesOf(RecurringOnly(txs), m) == ChargesOf(txs, m)
  {
    if txs != [] {
      var prefix := txs[..|txs| - 1];
      GroupingIgnoresNonRecurring(prefix);
      var last := txs[|txs| - 1];
      var kept := RecurringOnly(txs);
      if last.isRecurring {
        assert kept == RecurringOnly(prefix) + [last];
        assert kept[..|kept| - 1] == RecurringOnly(prefix) && kept[|kept| - 1] == last;
      } else {
        assert kept == RecurringOnly(prefix) + [];
        assert kept == RecurringOnly(prefix);
        forall m
          ensures ChargesOf(txs, m) == ChargesOf(prefix, m)
        {
          assert ChargesOf(txs, m) == ChargesOf(prefix, m) + [];
        }
      }
    }
  }

  /** Non-recurring transactions have no influence on detection. */
  lemma DetectionIgnoresNonRecurring(txs: seq<Transaction>, now: Date)
    ensures Detected(RecurringOnly(txs), now) == Detected(txs, now)
  {
    GroupingIgnoresNonRecurring(txs);
    SubscriptionsForSameCharges(RecurringMerchants(txs), RecurringOnly(txs), txs, now);
  }

  lemma {:induction false} SubscriptionsForSameCharges(merchants: seq<string>, a: seq<Transaction>, b: seq<Transaction>, now: Date)
    requires forall m :: ChargesOf(a, m) == ChargesOf(b, m)
    ensures SubscriptionsFor(merchants, a, now) == SubscriptionsFor(merchants, b, now)
  {
    if merchants != [] {
      SubscriptionsForSameCharges(merchants[..|merchants| - 1], a, b, now);
    }
  }

  /** The Map-building forEach of detectSubscriptions: the recurring
      charges of each merchant, with the merchants in insertion order. */
  method GroupRecurring(txs: seq<Transaction>) returns (groups: map<string, seq<Transaction>>, order: seq<string>)
    ensures order == RecurringMerchants(txs)
    ensures forall m :: m in groups <==> m in order
    ensures forall m :: m in groups ==> groups[m] == ChargesOf(txs, m)
  {
    groups, order := map[], [];
    var i := 0;
    while i < |txs|
      invariant 0 <= i <= |txs|
      invariant order == RecurringMerchants(txs[..i])
      invariant forall m :: m in groups <==> m in order
      invariant forall m :: m in groups ==> groups[m] == ChargesOf(txs[..i], m)
    {
      var tx := txs[i];
      assert txs[..i + 1][..i] == txs[..i];
      if tx.isRecurring {
        if tx.merchant !in groups {
          NoChargesOfAbsentMerchant(txs[..i], tx.merchant);
        }
        var existing := if tx.merchant in groups then groups[tx.merchant] else [];
        if tx.merchant !in groups {
          order := order + [tx.merchant];
        }
        groups := groups[tx.merchant := existing + [tx]];
      }
      i := i + 1;
    }
    assert txs[..|txs|] == txs;
  }

  /** The loop body over one group: a group of two or more charges is
      summarised and pushed. */
  method PushIfRecurring(subs: seq<Subscription>, merchant: string, charges: seq<Transaction>, now: Date)
    returns (r: seq<Subscription>)
    ensures r == subs + (if |charges| >= 2 then [Summarize(merchant, charges, now)] else [])
  {
    r := subs;
    if |charges| >= 2 {
      var sub := SummarizeCharges(merchant, charges, now);
      r := r + [sub];
    }
  }

  /** detectSubscriptions: group the recurring charges, then one pass over
      the groups in insertion order pushing a subscription per group of two
      or more charges. */
  method DetectSubscriptions(txs: seq<Transaction>, now: Date) returns (subs: seq<Subscription>)
    ensures subs == Detected(txs, now)
  {
    var groups, order := GroupRecurring(txs);
    subs := [];
    var j := 0;
    while j < |order|
      invariant 0 <= j <= |order|
      invariant subs == SubscriptionsFor(order[..j], txs, now)
    {
      var m := order[j];
      assert order[..j + 1] == order[..j] + [m];
      SubscriptionsForSnoc(order[..j], m, txs, now);
      subs := PushIfRecurring(subs, m, groups[m], now);
      j := j + 1;
    }
    assert order[..|order|] == order;
  }
}
