/** The app's ledger: the one state record the provider keeps, the updaters
    its actions apply to that record, the spare change still waiting to be
    invested, and the translation of ledger lines into the transactions the
    scoring engine reads. */
module Ledger {
  import opened Financial
  import opened Helpers
  import opened Detection
  import opened Scoring

  // ---------------------------------------------------------------------
  // State

  /** A ledger line. The date is the app's date string. The source leaves
      `spareChangeInvested` out on ordinary purchases and reads the missing
      flag as false; here it is always present. */
  datatype LedgerTransaction = LedgerTransaction(
    id: string,
    description: string,
    amount: real,
    roundedTo: real,
    invested: real,
    date: string,
    category: string,
    spareChangeInvested: bool)

  datatype Goal = Goal(id: string, name: string, icon: string, target: real, current: real)

  datatype User = User(name: string, email: string)

  datatype InsightLevel = Basic | Advanced | Full

  datatype Settings = Settings(
    biometrics: bool,
    encryption: bool,
    privacyMode: bool,
    aiInsightLevel: InsightLevel,
    roundUpCap: Cap)

  datatype AppState = AppState(
    isAuthenticated: bool,
    user: User,
    balance: real,
    emergencyBuffer: real,
    totalInvested: real,
    portfolioGrowth: real,
    todayInvested: real,
    safetyLockActive: bool,
    transactions: seq<LedgerTransaction>,
    goals: seq<Goal>,
    settings: Settings,
    financialHealthScore: int,
    healthScoreColor: string,
    healthScoreLabel: string,
    investmentMode: string,
    investmentPercentage: int,
    subscriptionLeakRisk: int,
    potentialMonthlySavings: real,
    aiHealthExplanation: string,
    aiSubscriptionExplanation: string,
    aiInvestmentExplanation: string,
    aiDashboardSummary: string,
    monthlyIncome: real)

  /** The five demo purchases the app starts with, newest first. */
  function SeedTransactions(): seq<LedgerTransaction>
  {
    [LedgerTransaction("1", "Coffee Shop", 143.0, 150.0, 7.0, "2024-01-15", "Food", false),
     LedgerTransaction("2", "Uber Ride", 287.0, 290.0, 3.0, "2024-01-15", "Transport", false),
     LedgerTransaction("3", "Grocery Store", 1234.0, 1240.0, 6.0, "2024-01-14", "Groceries", false),
     LedgerTransaction("4", "Netflix", 649.0, 650.0, 1.0, "2024-01-14", "Entertainment", false),
     LedgerTransaction("5", "Electricity Bill", 1876.0, 1880.0, 4.0, "2024-01-13", "Utilities", false)]
  }

  function SeedGoals(): seq<Goal>
  {
    [Goal("1", "House", "\U{1F3E0}", 500000.0, 125000.0),
     Goal("2", "Travel", "\U{2708}\U{FE0F}", 100000.0, 42000.0),
     Goal("3", "Growth", "\U{1F4C8}", 200000.0, 78000.0)]
  }

  /** The state the provider starts from. */
  function InitialState(): AppState
  {
    AppState(
      false, User("", ""),
      12450.0, 8000.0, 4450.0, 12.4, 21.0, false,
      SeedTransactions(), SeedGoals(),
      Settings(true, true, false, Advanced, 10),
      0, "", "", "Balanced", 50, 0, 0.0,
      "", "", "", "",
      5000.0)
  }

  // ---------------------------------------------------------------------
  // Spare change waiting to be invested

  /** The spare change a line still contributes: none once it is marked
      invested. */
  function SpareOf(tx: LedgerTransaction, cap: Cap): (r: real)
    ensures 0.0 <= r <= cap as real
    ensures tx.spareChangeInvested ==> r == 0.0
  {
    if tx.spareChangeInvested then 0.0 else CalculateSpareChange(tx.amount, cap)
  }

  /** The `filter(!spareChangeInvested)` then `reduce` of the spare change
      of each line at the current round-up cap. */
  function PendingSpareChange(txs: seq<LedgerTransaction>, cap: Cap): (r: real)
    ensures r >= 0.0
  {
    if txs == [] then 0.0 else SpareOf(txs[0], cap) + PendingSpareChange(txs[1..], cap)
  }

  /** Something is pending exactly when some line not yet invested has
      spare change. */
  lemma {:induction false} PendingPositive(txs: seq<LedgerTransaction>, cap: Cap)
    ensures PendingSpareChange(txs, cap) > 0.0 <==>
      exists i :: 0 <= i < |txs| && !txs[i].spareChangeInvested && CalculateSpareChange(txs[i].amount, cap) > 0.0
  {
    if txs != [] {
      PendingPositive(txs[1..], cap);
      if PendingSpareChange(txs[1..], cap) > 0.0 {
        var i :| 0 <= i < |txs[1..]| && !txs[1..][i].spareChangeInvested
          && CalculateSpareChange(txs[1..][i].amount, cap) > 0.0;
        assert txs[i + 1] == txs[1..][i];
      }
      forall i | 1 <= i < |txs|
        ensures txs[i] == txs[1..][i - 1]
      {
      }
    }
  }

  /** Every line's spare change has been invested. */
  predicate AllInvested(txs: seq<LedgerTransaction>)
  {
    forall i :: 0 <= i < |txs| ==> txs[i].spareChangeInvested
  }

  /** The two lists agree line by line except, perhaps, for the invested flag. */
  predicate SameButFlag(a: seq<LedgerTransaction>, b: seq<LedgerTransaction>)
  {
    |a| == |b| && forall i :: 0 <= i < |a| ==> a[i].(spareChangeInvested := b[i].spareChangeInvested) == b[i]
  }

  /** A list whose every line is marked invested has nothing pending. */
  lemma {:induction false} NothingPendingOnceInvested(txs: seq<LedgerTransaction>, cap: Cap)
    requires AllInvested(txs)
    ensures PendingSpareChange(txs, cap) == 0.0
  {
    if txs != [] {
      NothingPendingOnceInvested(txs[1..], cap);
    }
  }

  /** The `map` that marks every line invested, keeping the rest of it. */
  function MarkAllInvested(txs: seq<LedgerTransaction>): (r: seq<LedgerTransaction>)
    ensures |r| == |txs|
    ensures forall i :: 0 <= i < |txs| ==> r[i] == txs[i].(spareChangeInvested := true)
  {
    seq(|txs|, i requires 0 <= i < |txs| => txs[i].(spareChangeInvested := true))
  }

  // ---------------------------------------------------------------------
  // The updaters

  /** The investment line `investSpareChange` prepends; `stamp` is the
      clock reading that makes its id, `today` the date it shows. */
  function SpareChangeEntry(total: real, stamp: string, today: string): LedgerTransaction
  {
    LedgerTransaction("sc-" + stamp, "Spare Change Investment", total, total, total, today, "Investment", true)
  }

  /** investSpareChange: with nothing pending the state is returned as it
      was; otherwise the pending total moves from the balance to the
      invested total, every line is marked invested, one investment line is
      prepended, and nothing else changes. */
  function InvestSpareChangeNext(prev: AppState, stamp: string, today: string): (r: AppState)
    ensures PendingSpareChange(prev.transactions, prev.settings.roundUpCap) <= 0.0 ==> r == prev
    ensures var total := PendingSpareChange(prev.transactions, prev.settings.roundUpCap);
      total > 0.0 ==>
        && r.balance == prev.balance - total
        && r.totalInvested == prev.totalInvested + total
        && |r.transactions| == |prev.transactions| + 1
        && r.transactions[0] == SpareChangeEntry(total, stamp, today)
    ensures PendingSpareChange(prev.transactions, prev.settings.roundUpCap) > 0.0 ==>
      && AllInvested(r.transactions)
      && SameButFlag(r.transactions[1..], prev.transactions)
      && r.(balance := prev.balance, totalInvested := prev.totalInvested, transactions := prev.transactions) == prev
    ensures r.balance + r.totalInvested == prev.balance + prev.totalInvested
  {
    var total := PendingSpareChange(prev.transactions, prev.settings.roundUpCap);
    if total <= 0.0 then prev
    else
      var marked := MarkAllInvested(prev.transactions);
      var txs := [SpareChangeEntry(total, stamp, today)] + marked;
      assert txs[1..] == marked;
      assert AllInvested(txs);
      assert SameButFlag(marked, prev.transactions);
      prev.(transactions := txs, balance := prev.balance - total, totalInvested := prev.totalInvested + total)
  }

  /** Investing the spare change a second time changes nothing: the first
      call left no line uninvested. */
  lemma InvestSpareChangeTwice(s: AppState, stamp1: string, today1: string, stamp2: string, today2: string)
    ensures var once := InvestSpareChangeNext(s, stamp1, today1);
      InvestSpareChangeNext(once, stamp2, today2) == once
  {
    var once := InvestSpareChangeNext(s, stamp1, today1);
    if PendingSpareChange(s.transactions, s.settings.roundUpCap) > 0.0 {
      NothingPendingOnceInvested(once.transactions, once.settings.roundUpCap);
    }
  }

  /** addManualInvestment: the amount moves from the balance to the invested
      total, and a line invested in full and already marked invested is
      prepended, so the pending spare change is unchanged. */
  function AddManualInvestmentNext(prev: AppState, description: string, amount: real, category: string,
                                   stamp: string, today: string): (r: AppState)
    ensures r.balance == prev.balance - amount
    ensures r.totalInvested == prev.totalInvested + amount
    ensures |r.transactions| == |prev.transactions| + 1 && r.transactions[1..] == prev.transactions
    ensures var tx := r.transactions[0];
      && tx.id == stamp && tx.description == description && tx.category == category && tx.date == today
      && tx.amount == amount && tx.roundedTo == amount && tx.invested == amount && tx.spareChangeInvested
    ensures PendingSpareChange(r.transactions, r.settings.roundUpCap)
         == PendingSpareChange(prev.transactions, prev.settings.roundUpCap)
    ensures r.(balance := prev.balance, totalInvested := prev.totalInvested,
               transactions := prev.transactions) == prev
  {
    var tx := LedgerTransaction(stamp, description, amount, amount, amount, today, category, true);
    assert ([tx] + prev.transactions)[1..] == prev.transactions;
    prev.(transactions := [tx] + prev.transactions,
          balance := prev.balance - amount,
          totalInvested := prev.totalInvested + amount)
  }

  /** The `Math.ceil(amount / 10) * 10` of addTransaction: the round-up to
      the next multiple of 10, less than 10 above the amount. */
  function RoundedToTen(amount: real): (r: real)
    ensures amount <= r < amount + 10.0
    ensures IsMultipleOf(r, 10)
    ensures r - amount == RoundUpDistance(amount, 10)
  {
    var q := Ceil(amount / 10.0);
    assert amount / 10.0 * 10.0 == amount;
    assert (q as real * 10.0) / 10.0 == q as real;
    q as real * 10.0
  }

  /** addTransaction: the purchase is prepended with its round-up to ten;
      the safety lock is on exactly when the emergency buffer is under 5000;
      the invested totals grow by the round-up only while the lock is off;
      the balance and everything else stay as they were. */
  function AddTransactionNext(prev: AppState, description: string, amount: real, category: string,
                              stamp: string, today: string): (r: AppState)
    ensures |r.transactions| == |prev.transactions| + 1 && r.transactions[1..] == prev.transactions
    ensures var tx := r.transactions[0];
      && tx.id == stamp && tx.description == description && tx.category == category && tx.date == today
      && tx.amount == amount && !tx.spareChangeInvested
      && tx.roundedTo == amount + tx.invested && 0.0 <= tx.invested < 10.0
      && IsMultipleOf(tx.roundedTo, 10)
    ensures r.safetyLockActive <==> prev.emergencyBuffer < 5000.0
    ensures r.safetyLockActive ==> r.totalInvested == prev.totalInvested && r.todayInvested == prev.todayInvested
    ensures !r.safetyLockActive ==>
      && r.totalInvested == prev.totalInvested + r.transactions[0].invested
      && r.todayInvested == prev.todayInvested + r.transactions[0].invested
    ensures PendingSpareChange(r.transactions, r.settings.roundUpCap)
         == PendingSpareChange(prev.transactions, prev.settings.roundUpCap)
            + CalculateSpareChange(amount, prev.settings.roundUpCap)
    ensures r.(transactions := prev.transactions, totalInvested := prev.totalInvested,
               todayInvested := prev.todayInvested, safetyLockActive := prev.safetyLockActive) == prev
  {
    var roundedTo := RoundedToTen(amount);
    var invested := roundedTo - amount;
    var tx := LedgerTransaction(stamp, description, amount, roundedTo, invested, today, category, false);
    var locked := prev.emergencyBuffer < 5000.0;
    assert ([tx] + prev.transactions)[1..] == prev.transactions;
    prev.(transactions := [tx] + prev.transactions,
          totalInvested := if locked then prev.totalInvested else prev.totalInvested + invested,
          todayInvested := if locked then prev.todayInvested else prev.todayInvested + invested,
          safetyLockActive := locked)
  }

  /** For a purchase in whole cents, the round-up addTransaction records is
      the spare change at a cap of 10. */
  lemma RoundUpIsSpareChange(amount: real)
    requires IsWholeCents(amount)
    ensures RoundedToTen(amount) - amount == CalculateSpareChange(amount, 10)
  {
    RoundUpDistanceOfWholeCents(amount, 10);
    ToHundredthsOfWholeCents(RoundUpDistance(amount, 10));
  }

  /** A purchase's round-up is counted twice: addTransaction adds it to the
      invested total (while the lock is off) but leaves the line uninvested,
      so the next investSpareChange moves it from the balance and adds it to
      the invested total again. Balance plus invested total therefore grows
      by the round-up over the two actions. */
  lemma RoundUpCountedTwice(prev: AppState, description: string, amount: real, category: string,
                            stamp: string, today: string, stamp2: string, today2: string)
    requires IsWholeCents(amount) && prev.settings.roundUpCap == 10 && prev.emergencyBuffer >= 5000.0
    ensures var spare := CalculateSpareChange(amount, 10);
      var pending := PendingSpareChange(prev.transactions, 10);
      var after := InvestSpareChangeNext(AddTransactionNext(prev, description, amount, category, stamp, today), stamp2, today2);
      pending + spare > 0.0 ==>
        && after.totalInvested == prev.totalInvested + pending + 2.0 * spare
        && after.balance == prev.balance - pending - spare
        && after.balance + after.totalInvested == prev.balance + prev.totalInvested + spare
  {
    RoundUpIsSpareChange(amount);
    var added := AddTransactionNext(prev, description, amount, category, stamp, today);
    assert added.settings == prev.settings;
  }

  datatype SettingKey = Biometrics | Encryption | PrivacyMode | AiInsightLevel | RoundUpCap

  datatype SettingValue = Flag(flag: bool) | Level(level: InsightLevel) | CapValue(cap: Cap)

  /** `settings[key]`. */
  function Get(s: Settings, key: SettingKey): SettingValue
  {
    match key
    case Biometrics => Flag(s.biometrics)
    case Encryption => Flag(s.encryption)
    case PrivacyMode => Flag(s.privacyMode)
    case AiInsightLevel => Level(s.aiInsightLevel)
    case RoundUpCap => CapValue(s.roundUpCap)
  }

  /** A key with a value of the kind the settings record declares for it. */
  predicate Fits(key: SettingKey, value: SettingValue)
  {
    match key
    case Biometrics => value.Flag?
    case Encryption => value.Flag?
    case PrivacyMode => value.Flag?
    case AiInsightLevel => value.Level?
    case RoundUpCap => value.CapValue?
  }

  /** updateSetting: `settings[key]` becomes the value, every other setting
      and every other field stays as it was. */
  function UpdateSettingNext(prev: AppState, key: SettingKey, value: SettingValue): (r: AppState)
    requires Fits(key, value)
    ensures Get(r.settings, key) == value
    ensures forall k :: k != key ==> Get(r.settings, k) == Get(prev.settings, k)
    ensures r.(settings := prev.settings) == prev
  {
    var s := prev.settings;
    prev.(settings :=
      match key
      case Biometrics => s.(biometrics := value.flag)
      case Encryption => s.(encryption := value.flag)
      case PrivacyMode => s.(privacyMode := value.flag)
      case AiInsightLevel => s.(aiInsightLevel := value.level)
      case RoundUpCap => s.(roundUpCap := value.cap))
  }

  /** Two settings records that agree on every key are the same record. */
  lemma SettingsByKeys(s: Settings, t: Settings)
    requires forall k :: Get(s, k) == Get(t, k)
    ensures s == t
  {
    assert Get(s, Biometrics) == Get(t, Biometrics) && Get(s, Encryption) == Get(t, Encryption);
    assert Get(s, PrivacyMode) == Get(t, PrivacyMode) && Get(s, AiInsightLevel) == Get(t, AiInsightLevel);
    assert Get(s, RoundUpCap) == Get(t, RoundUpCap);
  }

  /** Of two updates to the same key, the later one wins. */
  lemma {:induction false} LastSettingWins(s: AppState, key: SettingKey, v1: SettingValue, v2: SettingValue)
    requires Fits(key, v1) && Fits(key, v2)
    ensures UpdateSettingNext(UpdateSettingNext(s, key, v1), key, v2) == UpdateSettingNext(s, key, v2)
  {
    var a, b := UpdateSettingNext(UpdateSettingNext(s, key, v1), key, v2), UpdateSettingNext(s, key, v2);
    SettingsByKeys(a.settings, b.settings);
  }

  /** Updates to different keys commute. */
  lemma {:induction false} SettingsCommute(s: AppState, k1: SettingKey, v1: SettingValue, k2: SettingKey, v2: SettingValue)
    requires k1 != k2 && Fits(k1, v1) && Fits(k2, v2)
    ensures UpdateSettingNext(UpdateSettingNext(s, k1, v1), k2, v2)
         == UpdateSettingNext(UpdateSettingNext(s, k2, v2), k1, v1)
  {
    var a, b := UpdateSettingNext(UpdateSettingNext(s, k1, v1), k2, v2),
                UpdateSettingNext(UpdateSettingNext(s, k2, v2), k1, v1);
    SettingsByKeys(a.settings, b.settings);
  }

  // ---------------------------------------------------------------------
  // The seed data

  /** Every demo purchase is recorded with its round-up to ten, and the
      round-up is its spare change at the initial cap of 10; their total,
      21, is the amount the app starts out showing as invested today. */
  lemma SeedDataConsistent()
    ensures forall i :: 0 <= i < |SeedTransactions()| ==>
      && SeedTransactions()[i].roundedTo == RoundedToTen(SeedTransactions()[i].amount)
      && SeedTransactions()[i].invested == CalculateSpareChange(SeedTransactions()[i].amount, 10)
    ensures PendingSpareChange(SeedTransactions(), InitialState().settings.roundUpCap) == InitialState().todayInvested
  {
    var seed := SeedTransactions();
    assert Ceil(143.0 / 10.0) == 15 && Ceil(287.0 / 10.0) == 29 && Ceil(1234.0 / 10.0) == 124;
    assert Ceil(649.0 / 10.0) == 65 && Ceil(1876.0 / 10.0) == 188;
    assert ToHundredths(7.0) == 7.0 && ToHundredths(3.0) == 3.0 && ToHundredths(6.0) == 6.0;
    assert ToHundredths(1.0) == 1.0 && ToHundredths(4.0) == 4.0;
    assert seed[1..][1..][1..][1..][1..] == [];
  }

  // ---------------------------------------------------------------------
  // What the scoring effect hands to the engine

  /** The categories the effect treats as recurring bills. */
  predicate IsRecurringCategory(category: string)
  {
    category == "Entertainment" || category == "Utilities"
  }

  /** One ledger line as the engine sees it: the description doubles as the
      merchant, and the line is recurring exactly when its category is
      Entertainment or Utilities. `parse` is the host's date parser. */
  function ToFinancialTransaction(tx: LedgerTransaction, parse: string -> Date): (r: Transaction)
    ensures r.isRecurring <==> IsRecurringCategory(tx.category)
    ensures r.merchant == tx.description && r.description == tx.description
    ensures r.id == tx.id && r.amount == tx.amount && r.category == tx.category && r.date == parse(tx.date)
  {
    Transaction(tx.id, parse(tx.date), tx.amount, tx.description, tx.category, tx.description,
                tx.category == "Entertainment" || tx.category == "Utilities")
  }

  function ToFinancial(txs: seq<LedgerTransaction>, parse: string -> Date): (r: seq<Transaction>)
    ensures |r| == |txs|
    ensures forall i :: 0 <= i < |txs| ==> r[i] == ToFinancialTransaction(txs[i], parse)
  {
    seq(|txs|, i requires 0 <= i < |txs| => ToFinancialTransaction(txs[i], parse))
  }

  /** The number of ledger lines with this description in a recurring
      category. */
  function RecurringEntries(txs: seq<LedgerTransaction>, description: string): nat
  {
    if txs == [] then 0
    else
      var last := txs[|txs| - 1];
      RecurringEntries(txs[..|txs| - 1], description)
        + (if IsRecurringCategory(last.category) && last.description == description then 1 else 0)
  }

  /** The ledger lines with this description in a recurring category, in
      list order. */
  function RecurringLines(txs: seq<LedgerTransaction>, description: string): (r: seq<LedgerTransaction>)
    ensures |r| == RecurringEntries(txs, description)
    ensures forall i :: 0 <= i < |r| ==>
      r[i] in txs && IsRecurringCategory(r[i].category) && r[i].description == description
  {
    if txs == [] then []
    else
      var last := txs[|txs| - 1];
      RecurringLines(txs[..|txs| - 1], description)
        + (if IsRecurringCategory(last.category) && last.description == description then [last] else [])
  }

  /** The engine's charges for a merchant are the recurring ledger lines
      with that description, converted, in list order. */
  lemma {:induction false} ChargesOfLedger(txs: seq<LedgerTransaction>, parse: string -> Date, m: string)
    ensures ChargesOf(ToFinancial(txs, parse), m) == ToFinancial(RecurringLines(txs, m), parse)
    ensures |ChargesOf(ToFinancial(txs, parse), m)| == RecurringEntries(txs, m)
  {
    if txs != [] {
      var n := |txs| - 1;
      var last := txs[n];
      ChargesOfLedger(txs[..n], parse, m);
      assert ToFinancial(txs, parse)[..n] == ToFinancial(txs[..n], parse);
      if IsRecurringCategory(last.category) && last.description == m {
        var before := RecurringLines(txs[..n], m);
        assert RecurringLines(txs, m) == before + [last];
        assert ToFinancial(before + [last], parse) == ToFinancial(before, parse) + [ToFinancialTransaction(last, parse)];
      }
    }
  }

  /** A description is reported as a subscription exactly when at least two
      ledger lines carry it in the Entertainment or Utilities category. */
  lemma LedgerSubscriptions(txs: seq<LedgerTransaction>, parse: string -> Date, now: Date)
    ensures forall m :: m in MerchantsOf(Detected(ToFinancial(txs, parse), now)) <==> RecurringEntries(txs, m) >= 2
  {
    DetectedSubscriptions(ToFinancial(txs, parse), now);
    forall m
      ensures |ChargesOf(ToFinancial(txs, parse), m)| == RecurringEntries(txs, m)
    {
      ChargesOfLedger(txs, parse, m);
    }
  }

  /** The profile the effect scores: the state's income, the emergency
      buffer as liquid savings, fixed expenses of 3200 and volatility 0.15. */
  function ProfileOf(s: AppState, parse: string -> Date): (p: UserFinancialProfile)
    ensures p.monthlyExpenses == 3200.0 && p.liquidSavings == s.emergencyBuffer
    ensures p.monthlyIncome == s.monthlyIncome && p.marketVolatility == Some(0.15)
    ensures p.transactions == ToFinancial(s.transactions, parse)
  {
    UserFinancialProfile(s.monthlyIncome, s.emergencyBuffer, 3200.0, ToFinancial(s.transactions, parse), Some(0.15))
  }

  /** In the demo ledger only Netflix and the electricity bill are in a
      recurring category, once each. */
  lemma SeedRecurringEntries(m: string)
    ensures RecurringEntries(SeedTransactions(), m)
         == (if m == "Netflix" then 1 else 0) + (if m == "Electricity Bill" then 1 else 0)
  {
    var seed := SeedTransactions();
    assert seed[..4][..3] == seed[..3] && seed[..3][..2] == seed[..2] && seed[..2][..1] == seed[..1];
    assert seed[..1][..0] == [] && seed[..5] == seed;
    assert RecurringEntries(seed[..1], m) == 0;
    assert RecurringEntries(seed[..2], m) == 0;
    assert RecurringEntries(seed[..3], m) == 0;
  }

  /** So the engine finds no subscription in the demo ledger. */
  lemma SeedHasNoSubscriptions(parse: string -> Date, now: Date)
    ensures Detected(ToFinancial(SeedTransactions(), parse), now) == []
  {
    var seed := SeedTransactions();
    var merchants := MerchantsOf(Detected(ToFinancial(seed, parse), now));
    LedgerSubscriptions(seed, parse, now);
    assert |merchants| == 0 || merchants[0] in merchants;
    if |merchants| > 0 {
      SeedRecurringEntries(merchants[0]);
    }
  }

  // ---------------------------------------------------------------------
  // The provider

  /** The label the effect stores: the risk profile's own lower-case name. */
  function RiskProfileName(r: RiskProfile): string
  {
    match r
    case Aggressive => "aggressive"
    case Moderate => "moderate"
    case Conservative => "conservative"
    case Minimal => "minimal"
  }

  /** The investment mode the effect stores: the moderate band is shown as
      Balanced, the others under their capitalised names. */
  function InvestmentModeName(r: RiskProfile): (name: string)
    ensures name == "Balanced" <==> r == Moderate
    ensures name == "Aggressive" <==> r == Aggressive
    ensures name == "Conservative" <==> r == Conservative
    ensures name == "Minimal" <==> r == Minimal
  {
    match r
    case Aggressive => "Aggressive"
    case Moderate => "Balanced"
    case Conservative => "Conservative"
    case Minimal => "Minimal"
  }

  /** The four explanation texts the effect stores beside the scores:
      health, subscriptions, investment and the dashboard summary. */
  datatype Explanations = Explanations(health: string, subscription: string, investment: string, dashboard: string)

  /** The `setState` of the scoring effect: the score fields take the
      engine's results, the colour and the two names follow from them, the
      four explanation fields take the texts, and every other field is
      kept. */
  function WithScores(s: AppState, score: int, riskProfile: RiskProfile, riskLevel: RiskProfile,
                      percentage: int, leakRisk: int, waste: real, texts: Explanations): AppState
  {
    s.(financialHealthScore := score,
       healthScoreColor := HealthScoreColor(score as real),
       healthScoreLabel := RiskProfileName(riskProfile),
       investmentMode := InvestmentModeName(riskLevel),
       investmentPercentage := percentage,
       subscriptionLeakRisk := leakRisk,
       potentialMonthlySavings := waste,
       aiHealthExplanation := texts.health,
       aiSubscriptionExplanation := texts.subscription,
       aiInvestmentExplanation := texts.investment,
       aiDashboardSummary := texts.dashboard)
  }

  /** The provider's single state cell; each action replaces the record
      with the one its updater computes. The clock readings and dates the
      actions take from the host are parameters. */
  class AppProvider {
    var state: AppState

    constructor ()
      ensures state == InitialState()
    {
      state := InitialState();
    }

    method InvestSpareChange(stamp: string, today: string)
      modifies this
      ensures state == InvestSpareChangeNext(old(state), stamp, today)
    {
      state := InvestSpareChangeNext(state, stamp, today);
    }

    method AddManualInvestment(description: string, amount: real, category: string, stamp: string, today: string)
      modifies this
      ensures state == AddManualInvestmentNext(old(state), description, amount, category, stamp, today)
    {
      state := AddManualInvestmentNext(state, description, amount, category, stamp, today);
    }

    method AddTransaction(description: string, amount: real, category: string, stamp: string, today: string)
      modifies this
      ensures state == AddTransactionNext(old(state), description, amount, category, stamp, today)
    {
      state := AddTransactionNext(state, description, amount, category, stamp, today);
    }

    method UpdateSetting(key: SettingKey, value: SettingValue)
      requires Fits(key, value)
      modifies this
      ensures state == UpdateSettingNext(old(state), key, value)
    {
      state := UpdateSettingNext(state, key, value);
    }

    /** The scoring effect, run on the current state. */
    method RefreshScores(now: Date, sqrt: real -> real, parse: string -> Date, texts: Explanations)
      requires state.monthlyIncome > 0.0
      modifies this
      ensures state == ScoredState(old(state), now, sqrt, parse, texts)
    {
      state := ScoreState(state, now, sqrt, parse, texts);
    }
  }

  /** What the scoring effect leaves in the state: with no ledger lines the
      state as it was; otherwise the engine's results for the profile of the
      state in the score fields: the health score and its colour, the risk
      label, the investment mode and rate, the leak risk (100 less the
      subscription score) and the monthly waste, and the given explanation
      texts in the four explanation fields. */
  function ScoredState(s: AppState, now: Date, sqrt: real -> real, parse: string -> Date, texts: Explanations): AppState
    requires s.monthlyIncome > 0.0
  {
    if s.transactions == [] then s
    else
      var p := ProfileOf(s, parse);
      var f := FactorsOf(p, now, sqrt);
      var score := Round(RawHealthTotal(f));
      var analyses := AnalyzeAll(Detected(p.transactions, now), p.monthlyIncome);
      WithScores(s, score, GetRiskProfile(RawHealthTotal(f)), GetRiskProfile(score as real),
                 Round(FinalMultiplier(score as real, BoostOf(p, now, sqrt)) * 100.0),
                 100 - SubscriptionTotal(analyses), FlaggedCost(analyses), texts)
  }

  /** After the effect the health score and the leak risk lie in [0, 100]
      and the investment rate in [30, 100]; the colour and the mode follow
      the band of the stored score; the explanation fields hold the given
      texts; only the seven score fields and the four explanation fields
      change. */
  lemma ScoredStateFacts(s: AppState, now: Date, sqrt: real -> real, parse: string -> Date, texts: Explanations)
    requires s.monthlyIncome > 0.0 && s.transactions != []
    ensures var r := ScoredState(s, now, sqrt, parse, texts);
      && 0 <= r.financialHealthScore <= 100
      && 0 <= r.subscriptionLeakRisk <= 100
      && 30 <= r.investmentPercentage <= 100
      && r.healthScoreColor == HealthScoreColor(r.financialHealthScore as real)
      && (r.investmentMode == "Balanced" <==> 60 <= r.financialHealthScore < 80)
      && r.aiHealthExplanation == texts.health && r.aiSubscriptionExplanation == texts.subscription
      && r.aiInvestmentExplanation == texts.investment && r.aiDashboardSummary == texts.dashboard
      && r.(financialHealthScore := s.financialHealthScore, healthScoreColor := s.healthScoreColor,
            healthScoreLabel := s.healthScoreLabel, investmentMode := s.investmentMode,
            investmentPercentage := s.investmentPercentage, subscriptionLeakRisk := s.subscriptionLeakRisk,
            potentialMonthlySavings := s.potentialMonthlySavings,
            aiHealthExplanation := s.aiHealthExplanation, aiSubscriptionExplanation := s.aiSubscriptionExplanation,
            aiInvestmentExplanation := s.aiInvestmentExplanation, aiDashboardSummary := s.aiDashboardSummary) == s
  {
    var p := ProfileOf(s, parse);
    var f := FactorsOf(p, now, sqrt);
    var total := RawHealthTotal(f);
    RoundInRange(total, 0, 100);
    var score := Round(total);
    var subs := Detected(p.transactions, now);
    AnalysesInRange(subs, p.monthlyIncome);
    var boost := BoostOf(p, now, sqrt);
    var multiplier := FinalMultiplier(score as real, boost);
    RoundInRange(multiplier * 100.0, 30, 100);
  }

  /** The scoring effect on a state record: the three engine calls, then
      the one `setState`. */
  method ScoreState(s: AppState, now: Date, sqrt: real -> real, parse: string -> Date, texts: Explanations)
    returns (r: AppState)
    requires s.monthlyIncome > 0.0
    ensures r == ScoredState(s, now, sqrt, parse, texts)
  {
    if s.transactions == [] {
      return s;
    }
    var p := ProfileOf(s, parse);
    var score, riskProfile := HealthOfProfile(p, now, sqrt);
    var leakRisk, waste := SubscriptionLeak(p, now);
    var spareChange := PendingSpareChange(s.transactions, s.settings.roundUpCap);
    var riskLevel, percentage := InvestmentRate(score, spareChange, p, now, sqrt);
    r := WithScores(s, score, riskProfile, riskLevel, percentage, leakRisk, waste, texts);
    ScoredStateIs(s, now, sqrt, parse, texts, score, riskProfile, riskLevel, percentage, leakRisk, waste);
  }

  /** The scored state is the store of the engine's results for the profile
      of the state. */
  lemma ScoredStateIs(s: AppState, now: Date, sqrt: real -> real, parse: string -> Date, texts: Explanations,
                      score: int, riskProfile: RiskProfile, riskLevel: RiskProfile,
                      percentage: int, leakRisk: int, waste: real)
    requires s.monthlyIncome > 0.0 && s.transactions != []
    requires var p := ProfileOf(s, parse);
      && score == Round(RawHealthTotal(FactorsOf(p, now, sqrt)))
      && riskProfile == GetRiskProfile(RawHealthTotal(FactorsOf(p, now, sqrt)))
      && riskLevel == GetRiskProfile(score as real)
      && percentage == Round(FinalMultiplier(score as real, BoostOf(p, now, sqrt)) * 100.0)
      && leakRisk == 100 - SubscriptionTotal(AnalyzeAll(Detected(p.transactions, now), p.monthlyIncome))
      && waste == FlaggedCost(AnalyzeAll(Detected(p.transactions, now), p.monthlyIncome))
    ensures ScoredState(s, now, sqrt, parse, texts)
         == WithScores(s, score, riskProfile, riskLevel, percentage, leakRisk, waste, texts)
  {
  }

  /** The two parts of calculateFinancialHealthScore the effect stores. */
  method HealthOfProfile(p: UserFinancialProfile, now: Date, sqrt: real -> real) returns (score: int, riskProfile: RiskProfile)
    requires p.monthlyIncome > 0.0 && p.monthlyExpenses > 0.0
    ensures score == Round(RawHealthTotal(FactorsOf(p, now, sqrt))) && 0 <= score <= 100
    ensures riskProfile == GetRiskProfile(RawHealthTotal(FactorsOf(p, now, sqrt)))
  {
    var health := CalculateFinancialHealthScore(p, now, sqrt);
    score, riskProfile := health.totalScore, health.riskProfile;
  }

  /** The leak risk (100 less the subscription score) and the monthly waste
      of calculateSubscriptionHealthScore. */
  method SubscriptionLeak(p: UserFinancialProfile, now: Date) returns (leakRisk: int, waste: real)
    requires p.monthlyIncome > 0.0
    ensures var analyses := AnalyzeAll(Detected(p.transactions, now), p.monthlyIncome);
      && leakRisk == 100 - SubscriptionTotal(analyses) && 0 <= leakRisk <= 100
      && waste == FlaggedCost(analyses)
  {
    var subscriptionHealth := CalculateSubscriptionHealthScore(p, now);
    leakRisk, waste := 100 - subscriptionHealth.totalScore, subscriptionHealth.totalMonthlyWaste;
  }

  /** The risk band and the investment rate, in percent, of
      determineInvestmentMode. */
  method InvestmentRate(score: int, spareChange: real, p: UserFinancialProfile, now: Date, sqrt: real -> real)
    returns (riskLevel: RiskProfile, percentage: int)
    requires p.monthlyIncome > 0.0 && p.monthlyExpenses > 0.0
    requires 0 <= score <= 100
    ensures riskLevel == GetRiskProfile(score as real)
    ensures percentage == Round(FinalMultiplier(score as real, BoostOf(p, now, sqrt)) * 100.0)
    ensures 30 <= percentage <= 100
  {
    var decision := DetermineInvestmentMode(score as real, spareChange, p, now, sqrt);
    RoundInRange(decision.aggressionMultiplier * 100.0, 30, 100);
    riskLevel, percentage := decision.riskLevel, Round(decision.aggressionMultiplier * 100.0);
  }
}
