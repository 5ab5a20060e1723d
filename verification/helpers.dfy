/** Statistics and classification helpers shared by the scoring engine and
    the app state. Money and scores are modelled as reals. */
module Helpers {
  import opened Financial

  // ---------------------------------------------------------------------
  // Rounding as JavaScript's Math does it, on the reals

  /** Math.round: the nearest integer, halves rounded up. */
  function Round(x: real): (r: int)
    ensures x - 0.5 < r as real <= x + 0.5
  {
    (x + 0.5).Floor
  }

  /** Math.ceil: the least integer not below x. */
  function Ceil(x: real): (r: int)
    ensures x <= r as real < x + 1.0
  {
    -((-x).Floor)
  }

  lemma RoundInRange(x: real, lo: int, hi: int)
    requires lo as real <= x <= hi as real
    ensures lo <= Round(x) <= hi
  {
  }

  // ---------------------------------------------------------------------
  // mean, standard deviation, coefficient of variation

  /** The `reduce((sum, v) => sum + v, 0)` fold, left to right. */
  function Sum(s: seq<real>): real
  {
    if s == [] then 0.0 else Sum(s[..|s| - 1]) + s[|s| - 1]
  }

  /** Arithmetic mean; 0 for an empty list rather than an error. */
  function Mean(s: seq<real>): real
  {
    if |s| == 0 then 0.0 else Sum(s) / (|s| as real)
  }

  lemma {:induction false} SumAtLeast(s: seq<real>, lo: real)
    requires forall i :: 0 <= i < |s| ==> lo <= s[i]
    ensures (|s| as real) * lo <= Sum(s)
  {
    if s != [] {
      SumAtLeast(s[..|s| - 1], lo);
    }
  }

  lemma {:induction false} SumAtMost(s: seq<real>, hi: real)
    requires forall i :: 0 <= i < |s| ==> s[i] <= hi
    ensures Sum(s) <= (|s| as real) * hi
  {
    if s != [] {
      SumAtMost(s[..|s| - 1], hi);
    }
  }

  /** The sum of a concatenation is the sum of the parts. */
  lemma {:induction false} SumAppend(a: seq<real>, b: seq<real>)
    ensures Sum(a + b) == Sum(a) + Sum(b)
  {
    if b == [] {
      assert a + b == a;
    } else {
      assert (a + b)[..|a + b| - 1] == a + b[..|b| - 1];
      SumAppend(a, b[..|b| - 1]);
    }
  }

  /** The mean of a non-empty list lies between any bounds of its elements;
      in particular between its minimum and its maximum. */
  lemma MeanBounds(s: seq<real>, lo: real, hi: real)
    requires |s| > 0
    requires forall i :: 0 <= i < |s| ==> lo <= s[i] <= hi
    ensures lo <= Mean(s) <= hi
  {
    SumAtLeast(s, lo);
    SumAtMost(s, hi);
    var n := |s| as real;
    DivideBounds(Sum(s), n, lo, hi);
  }

  lemma DivideBounds(total: real, n: real, lo: real, hi: real)
    requires n > 0.0
    requires n * lo <= total <= n * hi
    ensures lo <= total / n <= hi
  {
    var q := total / n;
    assert q * n == total;
  }

  lemma MeanAtLeast(s: seq<real>, lo: real)
    requires |s| > 0
    requires forall i :: 0 <= i < |s| ==> lo <= s[i]
    ensures lo <= Mean(s)
  {
    SumAtLeast(s, lo);
    var n := |s| as real;
    var q := Sum(s) / n;
    assert q * n == Sum(s);
    if q < lo {
      assert q * n < lo * n;
    }
  }

  function SquaredDeviations(s: seq<real>, avg: real): (r: seq<real>)
    ensures |r| == |s|
    ensures forall i :: 0 <= i < |s| ==> r[i] == (s[i] - avg) * (s[i] - avg)
  {
    seq(|s|, i requires 0 <= i < |s| => (s[i] - avg) * (s[i] - avg))
  }

  /** Population variance: the mean of the squared deviations from the mean
      (dividing by N, not N - 1). */
  function Variance(s: seq<real>): real
  {
    Mean(SquaredDeviations(s, Mean(s)))
  }

  lemma VarianceNonNegative(s: seq<real>)
    ensures Variance(s) >= 0.0
  {
    var sq := SquaredDeviations(s, Mean(s));
    if |sq| > 0 {
      forall i | 0 <= i < |sq|
        ensures 0.0 <= sq[i]
      {
        var d := s[i] - Mean(s);
        assert sq[i] == d * d;
      }
      MeanAtLeast(sq, 0.0);
    }
  }

  /** Math.sqrt is the host's; the model takes it as a parameter and this
      predicate says what is assumed of it. */
  ghost predicate IsSqrt(sqrt: real -> real)
  {
    forall x :: 0.0 <= x ==> 0.0 <= sqrt(x) && sqrt(x) * sqrt(x) == x
  }

  function StandardDeviation(s: seq<real>, sqrt: real -> real): real
  {
    if |s| == 0 then 0.0 else sqrt(Variance(s))
  }

  /** The standard deviation is the non-negative square root of the
      population variance (and 0 for an empty list). */
  lemma StandardDeviationIsRootOfVariance(s: seq<real>, sqrt: real -> real)
    requires IsSqrt(sqrt)
    ensures StandardDeviation(s, sqrt) >= 0.0
    ensures StandardDeviation(s, sqrt) * StandardDeviation(s, sqrt) == Variance(s)
  {
    VarianceNonNegative(s);
  }

  /** Standard deviation divided by the mean; 0 when the mean is 0. */
  function CoefficientOfVariation(s: seq<real>, sqrt: real -> real): real
  {
    var avg := Mean(s);
    if avg == 0.0 then 0.0 else StandardDeviation(s, sqrt) / avg
  }

  /** A list whose elements are all equal has mean equal to that value,
      no deviation and no variation. */
  lemma ConstantListHasNoVariation(s: seq<real>, sqrt: real -> real)
    requires IsSqrt(sqrt)
    requires |s| > 0
    requires forall i :: 0 <= i < |s| ==> s[i] == s[0]
    ensures Mean(s) == s[0]
    ensures Variance(s) == 0.0
    ensures StandardDeviation(s, sqrt) == 0.0
    ensures CoefficientOfVariation(s, sqrt) == 0.0
  {
    MeanBounds(s, s[0], s[0]);
    var sq := SquaredDeviations(s, Mean(s));
    MeanBounds(sq, 0.0, 0.0);
    assert Variance(s) == 0.0;
    var r := sqrt(0.0);
    assert r == 0.0 by {
      assert 0.0 <= r && r * r == 0.0;
      SquareMonotone(0.0, r);
    }
    assert StandardDeviation(s, sqrt) == r;
  }

  /** With a positive mean the variation is non-negative, and it is below a
      threshold t >= 0 exactly when the variance is below (t * mean)^2. */
  lemma VariationBelowThreshold(s: seq<real>, sqrt: real -> real, t: real)
    requires IsSqrt(sqrt)
    requires Mean(s) > 0.0 && t >= 0.0
    ensures CoefficientOfVariation(s, sqrt) >= 0.0
    ensures CoefficientOfVariation(s, sqrt) < t <==> Variance(s) < (t * Mean(s)) * (t * Mean(s))
  {
    StandardDeviationIsRootOfVariance(s, sqrt);
    var avg := Mean(s);
    var sd := StandardDeviation(s, sqrt);
    QuotientBelow(sd, avg, t);
    var b := t * avg;
    MultiplyByNonNegative(0.0, t, avg);
    if sd < b {
      SquareMonotone(sd, b);
    } else {
      SquareMonotone(b, sd);
    }
  }

  lemma QuotientBelow(x: real, d: real, t: real)
    requires d > 0.0 && x >= 0.0
    ensures x / d >= 0.0
    ensures x / d < t <==> x < t * d
  {
    var q := x / d;
    assert q * d == x;
    if q < t {
      MultiplyByNonNegative(q, t, d);
    } else {
      MultiplyByNonNegative(t, q, d);
    }
  }

  lemma MultiplyByNonNegative(a: real, b: real, c: real)
    requires a <= b && c >= 0.0
    ensures a * c <= b * c
    ensures a < b && c > 0.0 ==> a * c < b * c
  {
    var d := b - a;
    assert b * c - a * c == d * c;
  }

  lemma SquareMonotone(x: real, y: real)
    requires 0.0 <= x <= y
    ensures x * x <= y * y
    ensures x < y ==> x * x < y * y
  {
    MultiplyByNonNegative(x, y, x);
    MultiplyByNonNegative(x, y, y);
    if x < y {
      calc {
        x * x;
      <=
        y * x;
      ==
        x * y;
      <
        y * y;
      }
    }
  }

  // ---------------------------------------------------------------------
  // normalizeScore

  /** `Math.max(min, Math.min(max, value))`. */
  function NormalizeScore(value: real, min: real, max: real): (r: real)
    ensures min <= max ==> min <= r <= max
    ensures min <= value <= max ==> r == value
    ensures value < min ==> r == min
    ensures min <= max < value ==> r == max
  {
    var upper := if max < value then max else value;
    if min > upper then min else upper
  }

  /** normalizeScore with its default range [0, 100]. */
  function Clamp(value: real): (r: real)
    ensures 0.0 <= r <= 100.0
    ensures 0.0 <= value <= 100.0 ==> r == value
  {
    NormalizeScore(value, 0.0, 100.0)
  }

  lemma NormalizeScoreIdempotent(value: real, min: real, max: real)
    requires min <= max
    ensures NormalizeScore(NormalizeScore(value, min, max), min, max) == NormalizeScore(value, min, max)
  {
  }

  lemma NormalizeScoreMonotone(a: real, b: real, min: real, max: real)
    requires a <= b
    ensures NormalizeScore(a, min, max) <= NormalizeScore(b, min, max)
  {
  }

  // ---------------------------------------------------------------------
  // daysBetween

  const MsPerDay: int := 1000 * 60 * 60 * 24

  /** Whole days between two instants, rounded up, in either order. */
  function DaysBetween(d1: Date, d2: Date): (r: nat)
    ensures var diff := if d2.time >= d1.time then d2.time - d1.time else d1.time - d2.time;
      (r - 1) * MsPerDay < diff <= r * MsPerDay
    ensures r == 0 <==> d1.time == d2.time
  {
    var diff := if d2.time >= d1.time then d2.time - d1.time else d1.time - d2.time;
    var days := Ceil(diff as real / MsPerDay as real);
    assert (days - 1) * MsPerDay < diff <= days * MsPerDay;
    days
  }

  lemma DaysBetweenSymmetric(d1: Date, d2: Date)
    ensures DaysBetween(d1, d2) == DaysBetween(d2, d1)
  {
  }

  // ---------------------------------------------------------------------
  // groupByMonth

  /** The month keys of the transactions, each once, in order of first
      appearance (the insertion order of the source's Map). */
  function MonthOrder(txs: seq<Transaction>): seq<MonthKey>
  {
    if txs == [] then []
    else
      var keys := MonthOrder(txs[..|txs| - 1]);
      var k := MonthKeyOf(txs[|txs| - 1].date);
      if k in keys then keys else keys + [k]
  }

  /** The sum of the amounts of the transactions dated in month k. */
  function MonthTotal(txs: seq<Transaction>, k: MonthKey): real
  {
    if txs == [] then 0.0
    else
      var last := txs[|txs| - 1];
      MonthTotal(txs[..|txs| - 1], k) + (if MonthKeyOf(last.date) == k then last.amount else 0.0)
  }

  ghost predicate Distinct<T>(s: seq<T>)
  {
    forall i, j :: 0 <= i < j < |s| ==> s[i] != s[j]
  }

  /** The month keys are distinct and are exactly the months some
      transaction falls in. */
  lemma {:induction false} MonthOrderMembers(txs: seq<Transaction>)
    ensures Distinct(MonthOrder(txs))
    ensures forall k :: k in MonthOrder(txs) <==> exists i :: 0 <= i < |txs| && MonthKeyOf(txs[i].date) == k
  {
    if txs != [] {
      var prefix := txs[..|txs| - 1];
      MonthOrderMembers(prefix);
      forall k
        ensures k in MonthOrder(txs) <==> exists i :: 0 <= i < |txs| && MonthKeyOf(txs[i].date) == k
      {
        if k in MonthOrder(txs) && k !in MonthOrder(prefix) {
          assert MonthKeyOf(txs[|txs| - 1].date) == k;
        }
        if exists i :: 0 <= i < |txs| && MonthKeyOf(txs[i].date) == k {
          var i :| 0 <= i < |txs| && MonthKeyOf(txs[i].date) == k;
          if i < |txs| - 1 {
            assert prefix[i] == txs[i];
          }
        }
      }
    }
  }

  /** A month no transaction falls in has total 0. */
  lemma {:induction false} MonthTotalOfAbsentMonth(txs: seq<Transaction>, k: MonthKey)
    requires k !in MonthOrder(txs)
    ensures MonthTotal(txs, k) == 0.0
  {
    if txs != [] {
      MonthTotalOfAbsentMonth(txs[..|txs| - 1], k);
    }
  }

  /** Buckets the transaction amounts by calendar month: the keys in order
      of first appearance, and for each key the total of that month. */
  method GroupByMonth(txs: seq<Transaction>) returns (totals: map<MonthKey, real>, keys: seq<MonthKey>)
    ensures keys == MonthOrder(txs)
    ensures totals.Keys == set k | k in keys
    ensures forall k :: k in totals ==> totals[k] == MonthTotal(txs, k)
  {
    totals, keys := map[], [];
    var i := 0;
    while i < |txs|
      invariant 0 <= i <= |txs|
      invariant keys == MonthOrder(txs[..i])
      invariant totals.Keys == set k | k in keys
      invariant forall k :: k in totals ==> totals[k] == MonthTotal(txs[..i], k)
    {
      var tx := txs[i];
      var k := MonthKeyOf(tx.date);
      assert txs[..i + 1][..i] == txs[..i];
      if k !in totals {
        MonthTotalOfAbsentMonth(txs[..i], k);
      }
      var current := if k in totals then totals[k] else 0.0;
      totals := totals[k := current + tx.amount];
      if k !in keys {
        keys := keys + [k];
      }
      i := i + 1;
    }
    assert txs[..|txs|] == txs;
  }

  // ---------------------------------------------------------------------
  // calculateSpareChange

  /** The round-up caps the app offers. */
  type Cap = c: int | c == 10 || c == 50 || c == 100 witness 10

  /** `x.toFixed(2)` read back by parseFloat, for x >= 0: the nearest
      hundredth, halves rounded up. */
  function ToHundredths(x: real): real
  {
    ((x * 100.0 + 0.5).Floor as real) / 100.0
  }

  /** An amount with no fraction of a cent. */
  predicate IsWholeCents(x: real)
  {
    (x * 100.0).Floor as real == x * 100.0
  }

  /** x is a whole multiple of cap. */
  predicate IsMultipleOf(x: real, cap: Cap)
  {
    (x / cap as real).Floor as real * cap as real == x
  }

  /** The exact distance from amount up to the next multiple of cap. */
  function RoundUpDistance(amount: real, cap: Cap): (r: real)
    ensures 0.0 <= r < cap as real
    ensures IsMultipleOf(amount + r, cap)
  {
    var c := cap as real;
    var q := Ceil(amount / c);
    assert amount / c * c == amount;
    assert (q as real * c) / c == q as real;
    q as real * c - amount
  }

  /** The distance from amount up to the next multiple of cap, kept to two
      decimals; exactly 0 when amount is already a multiple. */
  function CalculateSpareChange(amount: real, cap: Cap): (r: real)
    ensures 0.0 <= r <= cap as real
  {
    var spare := RoundUpDistance(amount, cap);
    if spare == 0.0 then 0.0 else ToHundredths(spare)
  }

  lemma ToHundredthsOfWholeCents(x: real)
    requires IsWholeCents(x)
    ensures ToHundredths(x) == x
  {
    var n := (x * 100.0).Floor;
    assert (x * 100.0 + 0.5).Floor == n;
  }

  lemma RoundUpDistanceOfWholeCents(amount: real, cap: Cap)
    requires IsWholeCents(amount)
    ensures IsWholeCents(RoundUpDistance(amount, cap))
  {
    var c := cap as real;
    var q := Ceil(amount / c);
    var cents := (amount * 100.0).Floor;
    var m := if cap == 10 then q * 1000 - cents else if cap == 50 then q * 5000 - cents else q * 10000 - cents;
    assert RoundUpDistance(amount, cap) * 100.0 == m as real;
  }

  lemma RoundUpDistanceZero(amount: real, cap: Cap)
    ensures RoundUpDistance(amount, cap) == 0.0 <==> IsMultipleOf(amount, cap)
  {
    var c := cap as real;
    if IsMultipleOf(amount, cap) {
      var k := (amount / c).Floor;
      assert amount / c == k as real;
      assert Ceil(amount / c) == k;
    }
  }

  /** For whole-cent amounts the spare change is exact: it lies in [0, cap),
      it is 0 exactly for multiples of cap, and amount plus spare change is
      a multiple of cap. */
  lemma SpareChangeOfWholeCents(amount: real, cap: Cap)
    requires IsWholeCents(amount)
    ensures 0.0 <= CalculateSpareChange(amount, cap) < cap as real
    ensures CalculateSpareChange(amount, cap) == 0.0 <==> IsMultipleOf(amount, cap)
    ensures IsMultipleOf(amount + CalculateSpareChange(amount, cap), cap)
  {
    RoundUpDistanceOfWholeCents(amount, cap);
    ToHundredthsOfWholeCents(RoundUpDistance(amount, cap));
    RoundUpDistanceZero(amount, cap);
  }

  /** The seed transaction of 143 at cap 10 yields 7; 150 at cap 10 yields
      0 and 45.5 at cap 50 yields 4.5. */
  lemma SpareChangeExamples()
    ensures CalculateSpareChange(143.0, 10) == 7.0
    ensures CalculateSpareChange(150.0, 10) == 0.0
    ensures CalculateSpareChange(45.5, 50) == 4.5
  {
    assert Ceil(143.0 / 10.0) == 15;
    assert Ceil(150.0 / 10.0) == 15;
    assert Ceil(45.5 / 50.0) == 1;
    assert ToHundredths(7.0) == 7.0;
    assert ToHundredths(4.5) == 4.5;
  }

  // ---------------------------------------------------------------------
  // getRiskProfile and getAggressionMultiplier

  /** The shared four-band classification, lower bounds inclusive. */
  function GetRiskProfile(score: real): (r: RiskProfile)
    ensures r == Aggressive <==> 80.0 <= score
    ensures r == Moderate <==> 60.0 <= score < 80.0
    ensures r == Conservative <==> 40.0 <= score < 60.0
    ensures r == Minimal <==> score < 40.0
  {
    if score >= 80.0 then Aggressive
    else if score >= 60.0 then Moderate
    else if score >= 40.0 then Conservative
    else Minimal
  }

  /** The bands ordered from minimal (0) to aggressive (3). */
  function Band(r: RiskProfile): nat
  {
    match r
    case Minimal => 0
    case Conservative => 1
    case Moderate => 2
    case Aggressive => 3
  }

  lemma RiskProfileMonotone(a: real, b: real)
    requires a <= b
    ensures Band(GetRiskProfile(a)) <= Band(GetRiskProfile(b))
  {
  }

  /** The linear map from a score in [0, 100] to a multiplier in [0.3, 1.0]. */
  function GetAggressionMultiplier(score: real): (r: real)
    ensures score == 0.0 ==> r == 0.3
    ensures score == 100.0 ==> r == 1.0
    ensures 0.0 <= score <= 100.0 ==> 0.3 <= r <= 1.0
  {
    0.3 + (score / 100.0) * 0.7
  }

  lemma AggressionMultiplierIncreasing(a: real, b: real)
    requires a < b
    ensures GetAggressionMultiplier(a) < GetAggressionMultiplier(b)
  {
  }
}
