/**
 * Customer profiler: one behavioural profile per account that sends or receives,
 * a five-factor heuristic risk score and a HIGH / MEDIUM / LOW classification.
 */
module CustomerProfiling {
  import opened Outcomes
  import opened Transactions

  datatype RiskClass = HIGH | MEDIUM | LOW

  /** The statistics gathered for one account. */
  datatype Profile = Profile(
    account: string,
    totalTransactions: nat,
    sentTransactions: nat,
    receivedTransactions: nat,
    totalVolume: real,
    sentVolume: real,
    receivedVolume: real,
    avgTransaction: real,
    maxTransaction: real,
    minTransaction: real,
    suspiciousTransactions: nat,
    crossBorderCount: nat,
    highRiskCountries: nat,
    structuringIndicators: nat,
    rapidTransactions: nat,
    currenciesUsed: nat,
    paymentTypesUsed: nat,
    uniqueCounterparties: nat)

  /** A profile with the two columns the scoring pass adds to it. */
  datatype ScoredProfile = ScoredProfile(profile: Profile, riskScore: real, riskClassification: RiskClass)

  // ---------------------------------------------------------------------------
  // Per-account selections
  // ---------------------------------------------------------------------------

  function SentBy(account: string): Txn -> bool { (t: Txn) => t.sender == account }
  function ReceivedBy(account: string): Txn -> bool { (t: Txn) => t.receiver == account }

  function SentTxns(df: seq<Txn>, account: string): seq<Txn> {
    Filter(df, SentBy(account))
  }

  function ReceivedTxns(df: seq<Txn>, account: string): seq<Txn> {
    Filter(df, ReceivedBy(account))
  }

  /** Sent rows followed by received rows: a self-transfer appears twice. */
  function AccountTxns(df: seq<Txn>, account: string): seq<Txn> {
    SentTxns(df, account) + ReceivedTxns(df, account)
  }

  /** An account has activity exactly when it appears as a sender or a receiver. */
  lemma {:induction false} AccountTxnsNonEmpty(df: seq<Txn>, account: string)
    ensures |AccountTxns(df, account)| > 0 <==> account in AllAccounts(df)
  {
    AllAccountsMembers(df, account);
    CountIfZero(df, SentBy(account));
    CountIfZero(df, ReceivedBy(account));
  }

  // ---------------------------------------------------------------------------
  // The counting helpers
  // ---------------------------------------------------------------------------

  /** Cross-border rows among the sent rows plus those among the received rows. */
  function CountCrossBorder(sent: seq<Txn>, received: seq<Txn>): (n: nat)
    ensures n <= |sent| + |received|
  {
    CountIf(sent, IsCrossBorder) + CountIf(received, IsCrossBorder)
  }

  function CountHighRiskLocations(txns: seq<Txn>): nat {
    CountIf(txns, TouchesHighRiskLocation)
  }

  predicate IsStructuringTxn(t: Txn) { InStructuringBand(t.amount) }
  predicate IsSuspicious(t: Txn) { t.isLaundering }

  function CountStructuring(txns: seq<Txn>): nat {
    CountIf(txns, IsStructuringTxn)
  }

  function OnDate(d: Date): Txn -> bool { (t: Txn) => t.date == d }

  /** Number of rows sharing the date `d`. */
  function SameDateCount(txns: seq<Txn>, d: Date): nat {
    CountIf(txns, OnDate(d))
  }

  /** Largest same-date group size among the dates of the rows `within` (groupby('Date').size().max()). */
  function LargestDateGroup(txns: seq<Txn>, within: seq<Txn>): (m: nat)
    requires |within| > 0
    ensures exists i :: 0 <= i < |within| && m == SameDateCount(txns, within[i].date)
    ensures forall i :: 0 <= i < |within| ==> SameDateCount(txns, within[i].date) <= m
  {
    var here := SameDateCount(txns, within[0].date);
    if |within| == 1 then here
    else
      var rest := LargestDateGroup(txns, within[1..]);
      assert forall i :: 1 <= i < |within| ==> within[i] == within[1..][i - 1];
      if here >= rest then here else rest
  }

  /** Same-day activity: 0 below two rows, else the largest same-date group minus one. */
  function CountRapid(txns: seq<Txn>): (n: nat)
    ensures |txns| > 0 ==> n < |txns|
  {
    if |txns| < 2 then 0
    else
      var m := LargestDateGroup(txns, txns);
      CountIfPositive(txns, OnDate(txns[0].date), 0);
      m - 1
  }

  /** Receivers of the sent rows together with senders of the received rows. */
  function Counterparties(sent: seq<Txn>, received: seq<Txn>): set<string> {
    Image(sent, ReceiverOf) + Image(received, SenderOf)
  }

  function CountUniqueCounterparties(sent: seq<Txn>, received: seq<Txn>): (n: nat)
    ensures n <= |sent| + |received|
  {
    ImageSize(sent, ReceiverOf);
    ImageSize(received, SenderOf);
    |Counterparties(sent, received)|
  }

  function PaymentCurrencyOf(t: Txn): string { t.paymentCurrency }
  function PaymentTypeOf(t: Txn): string { t.paymentType }

  // ---------------------------------------------------------------------------
  // One profile
  // ---------------------------------------------------------------------------

  /** The statistics of `account` from its sent and received rows (at least one row in all). */
  function BuildProfile(account: string, sent: seq<Txn>, received: seq<Txn>): Profile
    requires |sent| + |received| > 0
  {
    var all := sent + received;
    Profile(
      account := account,
      totalTransactions := |all|,
      sentTransactions := |sent|,
      receivedTransactions := |received|,
      totalVolume := SumAmounts(all),
      sentVolume := SumAmounts(sent),
      receivedVolume := SumAmounts(received),
      avgTransaction := SumAmounts(all) / |all| as real,
      maxTransaction := MaxAmount(all),
      minTransaction := MinAmount(all),
      suspiciousTransactions := CountIf(all, IsSuspicious),
      crossBorderCount := CountCrossBorder(sent, received),
      highRiskCountries := CountHighRiskLocations(all),
      structuringIndicators := CountStructuring(all),
      rapidTransactions := CountRapid(all),
      currenciesUsed := |Image(all, PaymentCurrencyOf)|,
      paymentTypesUsed := |Image(all, PaymentTypeOf)|,
      uniqueCounterparties := CountUniqueCounterparties(sent, received))
  }

  /**
   * The profile of one account, or None when the account has no transaction at all.
   */
  function CreateProfile(df: seq<Txn>, account: string): (r: Option<Profile>)
    ensures r.None? <==> account !in AllAccounts(df)
    ensures r.Some? ==> r.value.account == account
  {
    var sent := SentTxns(df, account);
    var received := ReceivedTxns(df, account);
    AccountTxnsNonEmpty(df, account);
    if |sent| + |received| == 0 then None
    else Some(BuildProfile(account, sent, received))
  }

  /** What every profile built from a table satisfies: the facts the scoring relies on. */
  ghost predicate WellFormed(p: Profile) {
    && p.totalTransactions >= 1
    && p.totalTransactions == p.sentTransactions + p.receivedTransactions
    && p.totalVolume == p.sentVolume + p.receivedVolume
    && p.suspiciousTransactions <= p.totalTransactions
    && p.crossBorderCount <= p.totalTransactions
    && p.highRiskCountries <= p.totalTransactions
    && p.structuringIndicators <= p.totalTransactions
    && p.rapidTransactions < p.totalTransactions
    && p.uniqueCounterparties <= p.totalTransactions
  }

  /**
   * Counts and volumes add up over the sent and received sides, and no count exceeds the
   * number of rows of the account.
   */
  lemma BuildProfileIsWellFormed(account: string, sent: seq<Txn>, received: seq<Txn>)
    requires |sent| + |received| > 0
    ensures WellFormed(BuildProfile(account, sent, received))
  {
    SumAmountsAppend(sent, received);
  }

  lemma ProfileIsWellFormed(df: seq<Txn>, account: string)
    requires CreateProfile(df, account).Some?
    ensures WellFormed(CreateProfile(df, account).value)
  {
    BuildProfileIsWellFormed(account, SentTxns(df, account), ReceivedTxns(df, account));
  }

  /** The structuring count is additive over the sent and the received rows. */
  lemma StructuringSplits(account: string, sent: seq<Txn>, received: seq<Txn>)
    requires |sent| + |received| > 0
    ensures BuildProfile(account, sent, received).structuringIndicators
         == CountStructuring(sent) + CountStructuring(received)
  {
    CountIfAppend(sent, received, IsStructuringTxn);
  }

  /** Counting cross-border rows per side is the same as counting them over all rows. */
  lemma CrossBorderOverAll(account: string, sent: seq<Txn>, received: seq<Txn>)
    requires |sent| + |received| > 0
    ensures BuildProfile(account, sent, received).crossBorderCount == CountIf(sent + received, IsCrossBorder)
  {
    CountIfAppend(sent, received, IsCrossBorder);
  }

  /** The high-risk count is positive exactly when some row of the account names AE-DXB or HK-HKG on either side. */
  lemma HighRiskIffLocation(account: string, sent: seq<Txn>, received: seq<Txn>)
    requires |sent| + |received| > 0
    ensures var all := sent + received;
      BuildProfile(account, sent, received).highRiskCountries > 0 <==>
        exists i :: 0 <= i < |all| &&
          (all[i].senderLocation in ["AE-DXB", "HK-HKG"] || all[i].receiverLocation in ["AE-DXB", "HK-HKG"])
  {
    CountIfZero(sent + received, TouchesHighRiskLocation);
  }

  /** A counterparty is the receiver of a sent row or the sender of a received row, and nothing else. */
  lemma CounterpartyMembers(sent: seq<Txn>, received: seq<Txn>, c: string)
    ensures c in Counterparties(sent, received) <==>
      (exists i :: 0 <= i < |sent| && sent[i].receiver == c) || (exists i :: 0 <= i < |received| && received[i].sender == c)
  {
    ImageMembers(sent, ReceiverOf, c);
    ImageMembers(received, SenderOf, c);
  }

  /** Two distinct rows satisfying `p` exist exactly when the count reaches two. */
  lemma {:induction false} CountIfTwo<T>(s: seq<T>, p: T -> bool)
    ensures CountIf(s, p) >= 2 <==> exists i, j :: 0 <= i < j < |s| && p(s[i]) && p(s[j])
  {
    if s != [] {
      CountIfTwo(s[1..], p);
      var rest := s[1..];
      assert forall i :: 1 <= i < |s| ==> s[i] == rest[i - 1];
      if CountIf(s, p) >= 2 {
        if p(s[0]) {
          assert CountIf(rest, p) >= 1;
          CountIfZero(rest, p);
          var k :| 0 <= k < |rest| && p(rest[k]);
          assert p(s[0]) && p(s[k + 1]);
        } else {
          var i, j :| 0 <= i < j < |rest| && p(rest[i]) && p(rest[j]);
          assert p(s[i + 1]) && p(s[j + 1]);
        }
      }
      if exists i, j :: 0 <= i < j < |s| && p(s[i]) && p(s[j]) {
        var i, j :| 0 <= i < j < |s| && p(s[i]) && p(s[j]);
        if i == 0 {
          CountIfPositive(rest, p, j - 1);
        } else {
          assert p(rest[i - 1]) && p(rest[j - 1]);
        }
      }
    }
  }

  /** Rapid activity is reported exactly when two of the account's rows fall on the same date. */
  lemma RapidIffSharedDate(txns: seq<Txn>)
    requires |txns| >= 2
    ensures CountRapid(txns) > 0 <==> exists i, j :: 0 <= i < j < |txns| && txns[i].date == txns[j].date
  {
    if CountRapid(txns) > 0 {
      RapidShowsSharedDate(txns);
    }
    if exists i, j :: 0 <= i < j < |txns| && txns[i].date == txns[j].date {
      var i, j :| 0 <= i < j < |txns| && txns[i].date == txns[j].date;
      SharedDateShowsRapid(txns, i, j);
    }
  }

  lemma RapidShowsSharedDate(txns: seq<Txn>)
    requires |txns| >= 2 && CountRapid(txns) > 0
    ensures exists i, j :: 0 <= i < j < |txns| && txns[i].date == txns[j].date
  {
    var m := LargestDateGroup(txns, txns);
    var k :| 0 <= k < |txns| && m == SameDateCount(txns, txns[k].date);
    var d := txns[k].date;
    CountIfTwo(txns, OnDate(d));
    var i, j :| 0 <= i < j < |txns| && OnDate(d)(txns[i]) && OnDate(d)(txns[j]);
    assert txns[i].date == txns[j].date;
  }

  lemma SharedDateShowsRapid(txns: seq<Txn>, i: nat, j: nat)
    requires i < j < |txns| && txns[i].date == txns[j].date
    ensures CountRapid(txns) > 0
  {
    var d := txns[i].date;
    assert OnDate(d)(txns[i]) && OnDate(d)(txns[j]);
    CountIfTwo(txns, OnDate(d));
    assert SameDateCount(txns, txns[i].date) >= 2;
  }

  // ---------------------------------------------------------------------------
  // Scoring
  // ---------------------------------------------------------------------------

  /** Ratio of a count to the row count, guarding the division with max(total, 1). */
  function Ratio(count: nat, total: nat): (r: real)
    ensures 0.0 <= r
  {
    count as real / (if total > 1 then total else 1) as real
  }

  lemma RatioAtMostOne(count: nat, total: nat)
    requires count <= total
    ensures 0.0 <= Ratio(count, total) <= 1.0
  {
    var d := (if total > 1 then total else 1) as real;
    assert count as real <= d;
  }

  /** +20 above 50000 on average, +10 above 20000, nothing otherwise. */
  function AmountTier(avg: real): (r: real)
    ensures avg > 50000.0 ==> r == 20.0
    ensures 20000.0 < avg <= 50000.0 ==> r == 10.0
    ensures avg <= 20000.0 ==> r == 0.0
  {
    if avg > 50000.0 then 20.0 else if avg > 20000.0 then 10.0 else 0.0
  }

  /** Five points per high-risk row, capped at 15. */
  function HighRiskFactor(count: nat): (r: real)
    ensures 0.0 <= r <= 15.0
    ensures count <= 3 ==> r == 5.0 * count as real
  {
    var v := 5.0 * count as real;
    if v < 15.0 then v else 15.0
  }

  /** Ten points per structuring row, capped at 15. */
  function StructuringFactor(count: nat): (r: real)
    ensures 0.0 <= r <= 15.0
    ensures count == 0 ==> r == 0.0
    ensures count >= 1 ==> r >= 10.0
  {
    var v := 10.0 * count as real;
    if v < 15.0 then v else 15.0
  }

  /** The sum of the five factors before the cap. */
  function RawRiskSum(p: Profile): real {
    Ratio(p.suspiciousTransactions, p.totalTransactions) * 30.0
    + AmountTier(p.avgTransaction)
    + Ratio(p.crossBorderCount, p.totalTransactions) * 20.0
    + HighRiskFactor(p.highRiskCountries)
    + StructuringFactor(p.structuringIndicators)
  }

  /** The factor sum capped at 100. */
  function RiskScore(p: Profile): (r: real)
    ensures 0.0 <= r <= 100.0
    ensures r <= RawRiskSum(p)
  {
    var s := RawRiskSum(p);
    if s < 100.0 then s else 100.0
  }

  /** HIGH from 70, MEDIUM from 40, LOW below. */
  function Classify(score: real): (c: RiskClass)
    ensures c == HIGH <==> score >= HighRiskThreshold
    ensures c == MEDIUM <==> MediumRiskThreshold <= score < HighRiskThreshold
    ensures c == LOW <==> score < MediumRiskThreshold
  {
    if score >= HighRiskThreshold then HIGH
    else if score >= MediumRiskThreshold then MEDIUM
    else LOW
  }

  function ScoreProfile(p: Profile): ScoredProfile {
    var s := RiskScore(p);
    ScoredProfile(p, s, Classify(s))
  }

  /** The exact boundary values. */
  lemma ClassificationBoundaries()
    ensures Classify(70.0) == HIGH && Classify(69.999) == MEDIUM
    ensures Classify(40.0) == MEDIUM && Classify(39.999) == LOW
    ensures Classify(100.0) == HIGH && Classify(0.0) == LOW
  {
  }

  /** For a profile built from a table the five capped factors never exceed 100, so the cap never applies. */
  lemma RiskCapNeverBinds(p: Profile)
    requires WellFormed(p)
    ensures RawRiskSum(p) <= 100.0
    ensures RiskScore(p) == RawRiskSum(p)
  {
    RatioAtMostOne(p.suspiciousTransactions, p.totalTransactions);
    RatioAtMostOne(p.crossBorderCount, p.totalTransactions);
  }

  /**
   * Two well-formed profiles that differ only in structuring: one with no row in the band,
   * one with at least one. The second scores at least 10 points higher.
   */
  lemma StructuringRaisesScore(p: Profile, q: Profile)
    requires WellFormed(p) && WellFormed(q)
    requires p.structuringIndicators == 0 && q.structuringIndicators >= 1
    requires q == p.(structuringIndicators := q.structuringIndicators)
    ensures RiskScore(q) >= RiskScore(p) + 10.0
  {
    RiskCapNeverBinds(p);
    RiskCapNeverBinds(q);
  }

  // ---------------------------------------------------------------------------
  // The whole table
  // ---------------------------------------------------------------------------

  /** A profile table for `df`: one scored row per active account, each row the account's profile. */
  ghost predicate IsProfileTable(df: seq<Txn>, rows: seq<ScoredProfile>) {
    && (forall i, j :: 0 <= i < j < |rows| ==> rows[i].profile.account != rows[j].profile.account)
    && (forall a :: a in AllAccounts(df) <==> exists i :: 0 <= i < |rows| && rows[i].profile.account == a)
    && (forall i :: 0 <= i < |rows| ==>
          CreateProfile(df, rows[i].profile.account) == Some(rows[i].profile)
          && rows[i] == ScoreProfile(rows[i].profile))
  }

  /** The scoring pass: score and classify every profile, in order. */
  method CalculateRiskScores(profiles: seq<Profile>) returns (rows: seq<ScoredProfile>)
    ensures |rows| == |profiles|
    ensures forall i :: 0 <= i < |rows| ==> rows[i] == ScoreProfile(profiles[i])
  {
    rows := [];
    var k := 0;
    while k < |profiles|
      invariant 0 <= k <= |profiles|
      invariant |rows| == k
      invariant forall i :: 0 <= i < k ==> rows[i] == ScoreProfile(profiles[i])
    {
      var p := profiles[k];
      var score := RiskScore(p);
      var cls := Classify(score);
      rows := rows + [ScoredProfile(p, score, cls)];
      k := k + 1;
    }
  }

  /** Distinct accounts in a table give exactly as many rows as accounts. */
  lemma {:induction false} DistinctAccountsCount(rows: seq<ScoredProfile>, accounts: set<string>)
    requires forall i, j :: 0 <= i < j < |rows| ==> rows[i].profile.account != rows[j].profile.account
    requires forall a :: a in accounts <==> exists i :: 0 <= i < |rows| && rows[i].profile.account == a
    ensures |rows| == |accounts|
  {
    if rows != [] {
      var last := rows[|rows| - 1];
      var init := rows[..|rows| - 1];
      var a := last.profile.account;
      assert forall i :: 0 <= i < |init| ==> init[i] == rows[i];
      var rest := accounts - {a};
      forall b ensures b in rest <==> exists i :: 0 <= i < |init| && init[i].profile.account == b {
        if b in rest {
          var i :| 0 <= i < |rows| && rows[i].profile.account == b;
          assert i < |init|;
        }
      }
      DistinctAccountsCount(init, rest);
      assert a in accounts;
    } else {
      assert accounts == {};
    }
  }

  /** Every active account has exactly one profile, and there are no others. */
  lemma ProfileTableSize(df: seq<Txn>, rows: seq<ScoredProfile>)
    requires IsProfileTable(df, rows)
    ensures |rows| == |AllAccounts(df)|
  {
    DistinctAccountsCount(rows, AllAccounts(df));
  }

  /** A profile table has no rows exactly when the transaction table has none. */
  lemma ProfileTableEmpty(df: seq<Txn>, rows: seq<ScoredProfile>)
    requires IsProfileTable(df, rows)
    ensures rows == [] <==> df == []
  {
    ProfileTableSize(df, rows);
    if df != [] {
      assert df[0].sender in AllAccounts(df);
    }
  }

  /** Looking up an account in a profile table finds its own profile. */
  lemma ProfileTableLookup(df: seq<Txn>, rows: seq<ScoredProfile>, i: nat, j: nat)
    requires IsProfileTable(df, rows)
    requires i < |rows| && j < |rows| && rows[i].profile.account == rows[j].profile.account
    ensures i == j
  {
  }

  /** `p` is the profile the table gives its account. */
  ghost predicate ProfileOf(df: seq<Txn>, p: Profile) {
    CreateProfile(df, p.account) == Some(p)
  }

  /** The profiles of a table before scoring: one per active account, in no particular order. */
  ghost predicate IsProfileList(df: seq<Txn>, built: seq<Profile>) {
    && (forall i, j :: 0 <= i < j < |built| ==> built[i].account != built[j].account)
    && (forall a :: a in AllAccounts(df) <==> exists i :: 0 <= i < |built| && built[i].account == a)
    && (forall i :: 0 <= i < |built| ==> ProfileOf(df, built[i]))
  }

  /** Every profile in the list is the one its account gets. */
  ghost predicate ProfilesOf(df: seq<Txn>, built: seq<Profile>) {
    forall i :: 0 <= i < |built| ==> ProfileOf(df, built[i])
  }

  lemma ProfilesOfAppend(df: seq<Txn>, built: seq<Profile>, p: Profile)
    requires ProfilesOf(df, built) && ProfileOf(df, p)
    ensures ProfilesOf(df, built + [p])
  {
    EveryAppend(built, p, q => ProfileOf(df, q));
  }

  lemma EveryAppend<T>(s: seq<T>, x: T, f: T -> bool)
    requires (forall i :: 0 <= i < |s| ==> f(s[i])) && f(x)
    ensures forall i :: 0 <= i < |s + [x]| ==> f((s + [x])[i])
  {
    assert forall i :: 0 <= i < |s| ==> (s + [x])[i] == s[i];
  }

  /** What the profiling loop keeps: `visited` and `remaining` split `accounts`, each visited account has one profile. */
  ghost predicate CollectInvariant(accounts: set<string>, remaining: set<string>, visited: set<string>, built: seq<Profile>) {
    && remaining <= accounts && visited <= accounts
    && (forall a :: a in accounts ==> a in visited || a in remaining)
    && (forall i :: 0 <= i < |built| ==> built[i].account in visited && built[i].account !in remaining)
    && (forall a :: a in visited ==> exists i :: 0 <= i < |built| && built[i].account == a)
    && (forall i, j :: 0 <= i < j < |built| ==> built[i].account != built[j].account)
  }

  /** One iteration of the profiling loop keeps its invariant. */
  lemma CollectStep(accounts: set<string>, remaining: set<string>, visited: set<string>, built: seq<Profile>, p: Profile)
    requires CollectInvariant(accounts, remaining, visited, built)
    requires p.account in remaining
    ensures CollectInvariant(accounts, remaining - {p.account}, visited + {p.account}, built + [p])
  {
    var next := built + [p];
    assert forall i :: 0 <= i < |built| ==> next[i] == built[i];
    forall a | a in visited + {p.account} ensures exists i :: 0 <= i < |next| && next[i].account == a {
      if a == p.account {
        assert next[|built|].account == a;
      } else {
        var i :| 0 <= i < |built| && built[i].account == a;
        assert next[i].account == a;
      }
    }
  }

  /** The loop's exit: nothing remains, so the visited accounts are all of them. */
  lemma CollectDone(df: seq<Txn>, visited: set<string>, built: seq<Profile>)
    requires CollectInvariant(AllAccounts(df), {}, visited, built) && ProfilesOf(df, built)
    ensures IsProfileList(df, built)
  {
  }

  /** Visits every account of the table once (set order) and keeps the profiles that exist. */
  method CollectProfiles(df: seq<Txn>) returns (built: seq<Profile>)
    ensures IsProfileList(df, built)
  {
    var accounts := AllAccounts(df);
    var remaining := accounts;
    ghost var visited: set<string> := {};
    built := [];
    while remaining != {}
      invariant CollectInvariant(accounts, remaining, visited, built)
      invariant ProfilesOf(df, built)
      decreases remaining
    {
      var account :| account in remaining;
      var profile := CreateProfile(df, account);
      if profile.Some? {
        CollectStep(accounts, remaining, visited, built, profile.value);
        ProfilesOfAppend(df, built, profile.value);
        built := built + [profile.value];
      } else {
        assert false;
      }
      remaining := remaining - {account};
      visited := visited + {account};
    }
    CollectDone(df, visited, built);
  }

  lemma ScoringKeepsTable(df: seq<Txn>, built: seq<Profile>, table: seq<ScoredProfile>)
    requires IsProfileList(df, built)
    requires |table| == |built| && forall i :: 0 <= i < |table| ==> table[i] == ScoreProfile(built[i])
    ensures IsProfileTable(df, table)
  {
    assert forall i :: 0 <= i < |table| ==> table[i].profile == built[i];
  }

  class CustomerProfiler {
    const df: seq<Txn>
    var profiles: Option<seq<ScoredProfile>>

    /** A stored table is the profile table of the profiler's frame. */
    ghost predicate Valid()
      reads this
    {
      profiles.Some? ==> IsProfileTable(df, profiles.value)
    }

    constructor (df: seq<Txn>)
      ensures this.df == df && profiles == None
    {
      this.df := df;
      profiles := None;
    }

    /**
     * Profiles every account that appears as sender or receiver, scores them
     * and stores the table. A table without accounts is stored as a frame with
     * no columns, and the display step then fails looking up its risk column.
     */
    method AnalyzeCustomers() returns (r: Result<seq<ScoredProfile>>)
      modifies this
      ensures profiles.Some? && IsProfileTable(df, profiles.value) && Valid()
      ensures r.Failure? <==> df == []
      ensures r.Failure? ==> r.error == NoProfileColumns && profiles == Some([])
      ensures r.Success? ==> profiles == Some(r.value)
    {
      var built := CollectProfiles(df);
      var table := CalculateRiskScores(built);
      ScoringKeepsTable(df, built, table);
      ProfileTableEmpty(df, table);
      profiles := Some(table);
      if table == [] {
        return Failure(NoProfileColumns);
      }
      return Success(table);
    }
  }
}
