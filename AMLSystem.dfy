/**
 * The orchestrator: loads a transaction table, hands it to the customer
 * profiler, the anomaly detector and the predictor, runs the analysis pipeline,
 * and answers the per-account, per-batch and summary queries.
 */
module AMLSystem {
  import opened Outcomes
  import opened Transactions
  import opened CustomerProfiling
  import opened AnomalyDetection
  import opened ModelSelection
  import opened Persistence
  import opened MLPredictor

  /** The default held-out fraction of `train_compliance_model`. */
  const DefaultTestSize: real := 0.3

  const NotFoundPrefix: string := "No profile found for account: "

  const UnderDevelopment: string := "Feature under development"

  // ---------------------------------------------------------------------------
  // Profile lookup
  // ---------------------------------------------------------------------------

  /** The index of the first row of `table` for `account`, if any (`profiles[profiles['account'] == id].iloc[0]`). */
  function FirstRowOf(table: seq<ScoredProfile>, account: string): (r: Option<nat>)
    ensures r.Some? ==> r.value < |table| && table[r.value].profile.account == account
    ensures r.Some? ==> forall k :: 0 <= k < r.value ==> table[k].profile.account != account
    ensures r.None? <==> forall k :: 0 <= k < |table| ==> table[k].profile.account != account
  {
    if table == [] then None
    else if table[0].profile.account == account then Some(0)
    else
      var rest := FirstRowOf(table[1..], account);
      assert forall k :: 1 <= k < |table| ==> table[k] == table[1..][k - 1];
      if rest.Some? then Some(rest.value + 1) else None
  }

  /** What `get_customer_risk_profile` answers once profiling has run. */
  datatype ProfileLookup = Found(row: ScoredProfile) | NotFound(message: string)

  function Lookup(table: seq<ScoredProfile>, account: string): (r: ProfileLookup)
    ensures r.NotFound? ==> r.message == NotFoundPrefix + account
  {
    var k := FirstRowOf(table, account);
    if k.Some? then Found(table[k.value]) else NotFound(NotFoundPrefix + account)
  }

  /** On a profile table, an account is found exactly when it is active, and its row is its own scored profile. */
  lemma LookupInTable(df: seq<Txn>, table: seq<ScoredProfile>, account: string)
    requires IsProfileTable(df, table)
    ensures Lookup(table, account).Found? <==> account in AllAccounts(df)
    ensures Lookup(table, account).Found? ==>
      && CreateProfile(df, account).Some?
      && Lookup(table, account).row == ScoreProfile(CreateProfile(df, account).value)
  {
    var k := FirstRowOf(table, account);
    if account in AllAccounts(df) {
      var i :| 0 <= i < |table| && table[i].profile.account == account;
      assert k.Some?;
    }
  }

  // ---------------------------------------------------------------------------
  // Summary report
  // ---------------------------------------------------------------------------

  predicate Laundered(t: Txn) { t.isLaundering }

  /** `Date.min()`: the earliest date of a non-empty table. */
  function EarliestDate(df: seq<Txn>): (d: Date)
    requires |df| > 0
    ensures exists i :: 0 <= i < |df| && df[i].date == d
    ensures forall i :: 0 <= i < |df| ==> DateLe(d, df[i].date)
  {
    if |df| == 1 then df[0].date
    else
      var rest := EarliestDate(df[1..]);
      assert forall i :: 1 <= i < |df| ==> df[i] == df[1..][i - 1];
      if DateLe(df[0].date, rest) then df[0].date else rest
  }

  /** `Date.max()`: the latest date of a non-empty table. */
  function LatestDate(df: seq<Txn>): (d: Date)
    requires |df| > 0
    ensures exists i :: 0 <= i < |df| && df[i].date == d
    ensures forall i :: 0 <= i < |df| ==> DateLe(df[i].date, d)
  {
    if |df| == 1 then df[0].date
    else
      var rest := LatestDate(df[1..]);
      assert forall i :: 1 <= i < |df| ==> df[i] == df[1..][i - 1];
      if DateLe(rest, df[0].date) then df[0].date else rest
  }

  predicate IsHigh(r: ScoredProfile) { r.riskClassification == HIGH }
  predicate IsMedium(r: ScoredProfile) { r.riskClassification == MEDIUM }
  predicate IsLow(r: ScoredProfile) { r.riskClassification == LOW }

  datatype RiskCounts = RiskCounts(high: nat, medium: nat, low: nat)

  /**
   * The executive summary. The rate, the date range and the mean are NaN on an
   * empty table in pandas; here they are absent.
   */
  datatype Summary = Summary(
    totalTransactions: nat,
    suspiciousTransactions: nat,
    suspicionRate: Option<real>,
    dateRange: Option<(Date, Date)>,
    uniqueAccounts: nat,
    totalVolume: real,
    averageAmount: Option<real>,
    riskCounts: Option<RiskCounts>)

  function ClassCounts(table: seq<ScoredProfile>): (c: RiskCounts)
    ensures c.high + c.medium + c.low == |table|
  {
    ClassCountsPartition(table);
    RiskCounts(CountIf(table, IsHigh), CountIf(table, IsMedium), CountIf(table, IsLow))
  }

  /** Every scored profile has exactly one of the three classes. */
  lemma {:induction false} ClassCountsPartition(table: seq<ScoredProfile>)
    ensures CountIf(table, IsHigh) + CountIf(table, IsMedium) + CountIf(table, IsLow) == |table|
  {
    if table != [] {
      ClassCountsPartition(table[1..]);
    }
  }

  /** `r` percent of `n` rows is `count` rows. */
  predicate IsPercentage(r: real, count: nat, n: nat) {
    r * n as real == 100.0 * count as real
  }

  /** `r` is the mean of `n` values summing to `total`. */
  predicate IsMean(r: real, total: real, n: nat) {
    r * n as real == total
  }

  /** `mask.mean() * 100` of a mask with `count` ones among `n > 0` rows. */
  function Percentage(count: nat, n: nat): (r: real)
    requires count <= n && n > 0
    ensures 0.0 <= r <= 100.0
    ensures IsPercentage(r, count, n)
  {
    var q := count as real / n as real;
    assert q * n as real == count as real;
    CancelFactor(q, 1.0, n);
    q * 100.0
  }

  /** A positive factor can be cancelled from both sides of an inequality. */
  lemma CancelFactor(a: real, b: real, n: nat)
    requires n > 0 && a * n as real <= b * n as real
    ensures a <= b
  {
    assert (b - a) * n as real == b * n as real - a * n as real;
  }

  /** The mean of `n > 0` values summing to `total`. */
  function Mean(total: real, n: nat): (r: real)
    requires n > 0
    ensures IsMean(r, total, n)
  {
    total / n as real
  }

  /** `n` copies of `x` added up. */
  function Times(x: real, n: nat): real {
    if n == 0 then 0.0 else x + Times(x, n - 1)
  }

  lemma {:induction false} TimesIsProduct(x: real, n: nat)
    ensures Times(x, n) == x * n as real
  {
    if n > 0 {
      TimesIsProduct(x, n - 1);
    }
  }

  /** A total between `n` times `lo` and `n` times `hi` has its mean between `lo` and `hi`. */
  lemma MeanBetween(total: real, n: nat, lo: real, hi: real)
    requires n > 0 && Times(lo, n) <= total <= Times(hi, n)
    ensures lo <= Mean(total, n) <= hi
  {
    TimesIsProduct(lo, n);
    TimesIsProduct(hi, n);
    MeanAtLeast(total, n, lo);
    MeanAtMost(total, n, hi);
  }

  lemma MeanAtLeast(total: real, n: nat, lo: real)
    requires n > 0 && lo * n as real <= total
    ensures lo <= Mean(total, n)
  {
    var m := Mean(total, n);
    assert IsMean(m, total, n);
    CancelFactor(lo, m, n);
  }

  lemma MeanAtMost(total: real, n: nat, hi: real)
    requires n > 0 && total <= hi * n as real
    ensures Mean(total, n) <= hi
  {
    var m := Mean(total, n);
    assert IsMean(m, total, n);
    CancelFactor(m, hi, n);
  }


  function SummaryOf(df: seq<Txn>, profiles: Option<seq<ScoredProfile>>): (s: Summary)
    ensures s.totalTransactions == |df| && s.suspiciousTransactions <= s.totalTransactions
    ensures s.suspiciousTransactions == CountIf(df, Laundered)
    ensures s.suspiciousTransactions == 0 <==> forall i :: 0 <= i < |df| ==> !df[i].isLaundering
    ensures s.suspicionRate.Some? <==> |df| > 0
    ensures s.suspicionRate.Some? ==> 0.0 <= s.suspicionRate.value <= 100.0
    ensures s.suspicionRate.Some? ==> IsPercentage(s.suspicionRate.value, s.suspiciousTransactions, |df|)
    ensures s.dateRange.Some? <==> |df| > 0
    ensures s.dateRange.Some? ==> s.dateRange.value == (EarliestDate(df), LatestDate(df))
    ensures s.dateRange.Some? ==>
      && (exists i :: 0 <= i < |df| && df[i].date == s.dateRange.value.0)
      && (exists i :: 0 <= i < |df| && df[i].date == s.dateRange.value.1)
    ensures s.dateRange.Some? ==> forall i :: 0 <= i < |df| ==>
      DateLe(s.dateRange.value.0, df[i].date) && DateLe(df[i].date, s.dateRange.value.1)
    ensures s.uniqueAccounts == |AllAccounts(df)| && s.uniqueAccounts <= 2 * |df|
    ensures s.totalVolume == SumAmounts(df)
    ensures s.averageAmount.Some? <==> |df| > 0
    ensures s.averageAmount.Some? ==> IsMean(s.averageAmount.value, s.totalVolume, |df|)
    ensures s.averageAmount.Some? ==> MinAmount(df) <= s.averageAmount.value <= MaxAmount(df)
    ensures s.riskCounts.Some? <==> profiles.Some?
    ensures s.riskCounts.Some? ==> s.riskCounts.value.high + s.riskCounts.value.medium + s.riskCounts.value.low == |profiles.value|
  {
    var n := |df|;
    var suspicious := CountIf(df, Laundered);
    CountIfZero(df, Laundered);
    ImageSize(df, SenderOf);
    ImageSize(df, ReceiverOf);
    var total := SumAmounts(df);
    if n > 0 then
      MeanAmountWithinRange(df);
      Summary(
        n, suspicious, Some(Percentage(suspicious, n)), Some((EarliestDate(df), LatestDate(df))),
        |AllAccounts(df)|, total, Some(Mean(total, n)), RiskCountsOf(profiles))
    else
      Summary(n, suspicious, None, None, |AllAccounts(df)|, total, None, RiskCountsOf(profiles))
  }

  function RiskCountsOf(profiles: Option<seq<ScoredProfile>>): (c: Option<RiskCounts>)
    ensures c.Some? <==> profiles.Some?
    ensures c.Some? ==> c.value.high + c.value.medium + c.value.low == |profiles.value|
  {
    if profiles.Some? then Some(ClassCounts(profiles.value)) else None
  }

  /** The mean amount lies between the smallest and the largest amount. */
  lemma MeanAmountWithinRange(df: seq<Txn>)
    requires |df| > 0
    ensures MinAmount(df) <= Mean(SumAmounts(df), |df|) <= MaxAmount(df)
  {
    var lo, hi, total := MinAmount(df), MaxAmount(df), SumAmounts(df);
    SumBetween(df, lo, hi);
    MeanBetween(total, |df|, lo, hi);
  }

  lemma {:induction false} SumBetween(df: seq<Txn>, lo: real, hi: real)
    requires forall i :: 0 <= i < |df| ==> lo <= df[i].amount <= hi
    ensures Times(lo, |df|) <= SumAmounts(df) <= Times(hi, |df|)
  {
    if df != [] {
      assert forall i :: 0 <= i < |df| - 1 ==> df[1..][i] == df[i + 1];
      SumBetween(df[1..], lo, hi);
    }
  }


  /** After profiling, the three class counts add up to the number of distinct accounts. */
  lemma ClassCountsCoverAccounts(df: seq<Txn>, table: seq<ScoredProfile>)
    requires IsProfileTable(df, table)
    ensures var s := SummaryOf(df, Some(table));
      s.riskCounts.value.high + s.riskCounts.value.medium + s.riskCounts.value.low == s.uniqueAccounts
  {
    ProfileTableSize(df, table);
  }

  // ---------------------------------------------------------------------------
  // The system object
  // ---------------------------------------------------------------------------

  /** What `run_complete_analysis` returns. */
  datatype Analysis = Analysis(
    customerProfiles: seq<ScoredProfile>,
    anomalies: seq<AnomalyRow>,
    model: Option<Model>,
    metrics: map<string, Metrics>)

  class AMLComplianceSystem {
    var dataPath: Option<string>
    var df: Option<seq<Txn>>
    var profiler: CustomerProfiler?
    var detector: AnomalyDetector?
    var predictor: Predictor?

    /** The components exist exactly once data is loaded, and all work on the loaded table. */
    ghost predicate Valid()
      reads this, profiler
    {
      && (df.None? <==> profiler == null)
      && (df.None? <==> detector == null)
      && (df.None? <==> predictor == null)
      && (df.Some? ==> profiler.df == df.value && detector.df == df.value && predictor.df == df.value)
      && (df.Some? ==> profiler.Valid())
    }

    constructor (dataPath: Option<string>)
      ensures this.dataPath == dataPath && df == None
      ensures profiler == null && detector == null && predictor == null
      ensures Valid()
    {
      this.dataPath := dataPath;
      df := None;
      profiler := null;
      detector := null;
      predictor := null;
    }

    /**
     * `load_data`: a non-empty path replaces the stored one; the table `read`
     * returns for the stored path is shared by three fresh components.
     */
    method LoadData(path: Option<string>, read: Option<string> -> seq<Txn>) returns (loaded: seq<Txn>)
      modifies this
      ensures dataPath == if path.Some? && path.value != "" then path else old(dataPath)
      ensures loaded == read(dataPath) && df == Some(loaded)
      ensures fresh(profiler) && fresh(detector) && fresh(predictor)
      ensures profiler.profiles == None && detector.anomalies == None && predictor.State() == InitialState
      ensures Valid()
    {
      if path.Some? && path.value != "" {
        dataPath := path;
      }
      loaded := read(dataPath);
      df := Some(loaded);
      profiler := new CustomerProfiler(loaded);
      detector := new AnomalyDetector(loaded);
      predictor := new Predictor(loaded);
    }

    /**
     * `run_complete_analysis`: profiles the customers, detects anomalies, then
     * uses the saved model when all five files load and trains (and saves) a new
     * one otherwise. On a table without rows the profiling step fails, and
     * nothing after it runs.
     */
    method RunCompleteAnalysis(out: DetectorOutputs, lib: MLLibrary, store: ModelStore, timestamp: string)
      returns (r: Result<Analysis>)
      requires Valid()
      modifies profiler, detector, predictor, store
      ensures df.None? ==> r == Failure(DataNotLoaded) && store.dirs == old(store.dirs)
      ensures df.Some? ==> && Valid()
                           && profiler.profiles.Some?
                           && IsProfileTable(df.value, profiler.profiles.value)
      ensures df.Some? && df.value == [] ==>
        && r == Failure(NoProfileColumns)
        && profiler.profiles == Some([])
        && detector.anomalies == old(detector.anomalies)
        && predictor.State() == old(predictor.State())
        && store.dirs == old(store.dirs)
      ensures df.Some? && df.value != [] ==> detector.anomalies == Some(Detect(df.value, out))
      ensures df.Some? && df.value != [] ==>
        var (loadedState, ok) := Load(old(predictor.State()), old(store.DirAt(DefaultModelDir)));
        if ok then
          && predictor.State() == loadedState
          && store.dirs == old(store.dirs)
          && r == Success(Analysis(profiler.profiles.value, detector.anomalies.value, loadedState.model, loadedState.modelMetrics))
        else
          && predictor.State() == TrainState(loadedState, df.value, lib, DefaultTestSize)
          && (r.Failure? <==> predictor.model.None?)
          && (r.Failure? ==> r.error == NoModelToSave && store.dirs == old(store.dirs))
          && (r.Success? ==>
                && r.value == Analysis(profiler.profiles.value, detector.anomalies.value, predictor.model, predictor.modelMetrics)
                && store.dirs == old(store.dirs)[DefaultModelDir := SavedDir(predictor.State(), timestamp)])
    {
      if df.None? {
        return Failure(DataNotLoaded);
      }
      var profiles := profiler.AnalyzeCustomers();
      if profiles.Failure? {
        return Failure(profiles.error);
      }
      var anomalies := detector.DetectAnomalies(out);
      var model := ObtainModel(lib, store, timestamp);
      if model.Failure? {
        return Failure(model.error);
      }
      return Success(Analysis(profiles.value, anomalies, model.value, predictor.modelMetrics));
    }

    /** Step 3 of the analysis: the saved model when it loads completely, a newly trained and saved one otherwise. */
    method ObtainModel(lib: MLLibrary, store: ModelStore, timestamp: string) returns (r: Result<Option<Model>>)
      requires predictor != null
      modifies predictor, store
      ensures var (loadedState, ok) := Load(old(predictor.State()), old(store.DirAt(DefaultModelDir)));
        if ok then
          predictor.State() == loadedState && store.dirs == old(store.dirs) && r == Success(loadedState.model)
        else
          && predictor.State() == TrainState(loadedState, predictor.df, lib, DefaultTestSize)
          && r == (if predictor.model.None? then Failure(NoModelToSave) else Success(predictor.model))
          && store.dirs == if predictor.model.Some? then old(store.dirs)[DefaultModelDir := SavedDir(predictor.State(), timestamp)]
                           else old(store.dirs)
    {
      var loaded := predictor.LoadModelFromDisk(store, DefaultModelDir);
      if !loaded {
        r := predictor.TrainComplianceModel(lib, DefaultTestSize, true, store, DefaultModelDir, timestamp);
      } else {
        r := Success(predictor.model);
      }
    }

    /** `predict_compliance_risk`: the predictor's own answer once it exists. */
    method PredictComplianceRisk(lib: MLLibrary, batch: seq<Txn>) returns (r: Result<Prediction>)
      ensures predictor == null ==> r == Failure(ModelNotTrained)
      ensures predictor != null ==> r == Predict(predictor.State(), batch, lib)
      ensures r == Failure(ModelNotTrained) <==> predictor == null || predictor.model.None?
    {
      if predictor == null || predictor.model.None? {
        return Failure(ModelNotTrained);
      }
      r := predictor.PredictRisk(lib, batch);
    }

    /** `train_new_model`: trains (and, when asked, saves) a new model. */
    method TrainNewModel(lib: MLLibrary, save: bool, store: ModelStore, timestamp: string) returns (r: Result<Option<Model>>)
      modifies predictor, store
      ensures predictor == null ==> r == Failure(PredictorNotInitialized) && store.dirs == old(store.dirs)
      ensures predictor != null ==>
        && predictor.State() == TrainState(old(predictor.State()), predictor.df, lib, DefaultTestSize)
        && r == (if save && predictor.model.None? then Failure(NoModelToSave) else Success(predictor.model))
        && store.dirs == if save && predictor.model.Some? then old(store.dirs)[DefaultModelDir := SavedDir(predictor.State(), timestamp)]
                         else old(store.dirs)
    {
      if predictor == null {
        return Failure(PredictorNotInitialized);
      }
      r := predictor.TrainComplianceModel(lib, DefaultTestSize, save, store, DefaultModelDir, timestamp);
    }

    /** `load_saved_model`: whether all five files of `dir` loaded. */
    method LoadSavedModel(store: ModelStore, dir: string) returns (r: Result<bool>)
      modifies predictor
      ensures predictor == null ==> r == Failure(PredictorNotInitialized)
      ensures predictor != null ==> r.Success? && (predictor.State(), r.value) == Load(old(predictor.State()), store.DirAt(dir))
    {
      if predictor == null {
        return Failure(PredictorNotInitialized);
      }
      var ok := predictor.LoadModelFromDisk(store, dir);
      return Success(ok);
    }

    /** `save_current_model`: the five files of the current model, or a ValueError when there is none. */
    method SaveCurrentModel(store: ModelStore, dir: string, timestamp: string) returns (r: Result<()>)
      modifies store
      ensures predictor == null || predictor.model.None? ==> r == Failure(NoModelToSave) && store.dirs == old(store.dirs)
      ensures predictor != null && predictor.model.Some? ==>
        r == Success(()) && store.dirs == old(store.dirs)[dir := SavedDir(predictor.State(), timestamp)]
    {
      if predictor == null || predictor.model.None? {
        return Failure(NoModelToSave);
      }
      r := predictor.SaveModelToDisk(store, dir, timestamp);
    }

    /**
     * `get_customer_risk_profile`: the account's first row, or a message when it
     * has none; the column lookup fails on the column-less frame of a table
     * without accounts.
     */
    method GetCustomerRiskProfile(account: string) returns (r: Result<ProfileLookup>)
      requires Valid()
      ensures profiler == null || profiler.profiles.None? ==> r == Failure(ProfilingNotCompleted)
      ensures profiler != null && profiler.profiles.Some? ==> (r == Failure(NoProfileColumns) <==> profiler.df == [])
      ensures profiler != null && profiler.profiles.Some? && profiler.profiles.value != [] ==>
        && r == Success(Lookup(profiler.profiles.value, account))
        && (r.value.Found? <==> account in AllAccounts(profiler.df))
        && (r.value.Found? ==> r.value.row == ScoreProfile(CreateProfile(profiler.df, account).value))
    {
      if profiler == null || profiler.profiles.None? {
        return Failure(ProfilingNotCompleted);
      }
      ProfileTableEmpty(profiler.df, profiler.profiles.value);
      if profiler.profiles.value == [] {
        return Failure(NoProfileColumns);
      }
      LookupInTable(profiler.df, profiler.profiles.value, account);
      return Success(Lookup(profiler.profiles.value, account));
    }

    /** `detect_transaction_anomalies`: a placeholder status once the detector exists. */
    method DetectTransactionAnomalies(batch: seq<Txn>) returns (r: Result<string>)
      ensures detector == null ==> r == Failure(DetectorNotInitialized)
      ensures detector != null ==> r == Success(UnderDevelopment)
    {
      if detector == null {
        return Failure(DetectorNotInitialized);
      }
      return Success(UnderDevelopment);
    }

    /**
     * `generate_summary_report`: the summary of the loaded table, with class
     * counts once profiling has run; counting classes fails on the column-less
     * profile frame of a table without accounts.
     */
    method GenerateSummaryReport() returns (r: Result<Summary>)
      requires Valid()
      ensures df.None? ==> r == Failure(NoDataForSummary)
      ensures df.Some? && profiler.profiles == Some([]) ==> r == Failure(NoProfileColumns)
      ensures df.Some? && profiler.profiles.Some? ==> (r.Failure? <==> df.value == [])
      ensures df.Some? && profiler.profiles != Some([]) ==> r == Success(SummaryOf(df.value, profiler.profiles))
      ensures df.Some? && profiler.profiles.Some? && r.Success? ==>
        r.value.riskCounts.value.high + r.value.riskCounts.value.medium + r.value.riskCounts.value.low == r.value.uniqueAccounts
    {
      if df.None? {
        return Failure(NoDataForSummary);
      }
      if profiler.profiles == Some([]) {
        ProfileTableEmpty(df.value, []);
        return Failure(NoProfileColumns);
      }
      if profiler.profiles.Some? {
        ProfileTableEmpty(df.value, profiler.profiles.value);
        ClassCountsCoverAccounts(df.value, profiler.profiles.value);
      }
      return Success(SummaryOf(df.value, profiler.profiles));
    }
  }
}
