/**
 * The anomaly detector: two statistical rules (an amount z-score above 3 and a
 * transaction outside 05:00-22:00), the isolation-forest verdict taken as given,
 * and their element-wise combination into a composite flag and a 0-100 score.
 */
module AnomalyDetection {
  import opened Outcomes
  import opened Transactions

  /** A 0/1 indicator column (`astype(int)` of a boolean mask). */
  type Bit = b: int | 0 <= b <= 1

  function BitOf(b: bool): (r: Bit)
    ensures r == 1 <==> b
  {
    if b then 1 else 0
  }

  function Abs(x: real): (r: real)
    ensures r >= 0.0
    ensures r == x || r == -x
  {
    if x < 0.0 then -x else x
  }

  /** `np.clip(x, lo, hi)`. */
  function Clip(x: real, lo: real, hi: real): (r: real)
    requires lo <= hi
    ensures lo <= r <= hi
    ensures lo <= x <= hi ==> r == x
  {
    if x < lo then lo else if x > hi then hi else x
  }

  // ---------------------------------------------------------------------------
  // Statistical rules
  // ---------------------------------------------------------------------------

  /** Minutes since midnight of a 'HH:MM:SS' time; the seconds are dropped. */
  function TimeMinutes(c: Clock): (m: int)
    ensures 0 <= m <= 1439
    ensures m / 60 == c.hour && m % 60 == c.minute
  {
    c.hour * 60 + c.minute
  }

  /** Very early (before 05:00) or very late (after 22:00) transactions. */
  predicate IsTimeAnomaly(c: Clock) {
    TimeMinutes(c) < EarlyMinutes || TimeMinutes(c) > LateMinutes
  }

  /** The time rule read on the clock: hours 0-4, 22:01-22:59 and hour 23. */
  lemma TimeAnomalyByHour(c: Clock)
    ensures IsTimeAnomaly(c) <==> c.hour < 5 || (c.hour == 22 && c.minute > 0) || c.hour == 23
  {
  }

  /** 02:30 is anomalous whatever the seconds; 22:00 exactly and 05:00 exactly are not. */
  lemma TimeAnomalyExamples(s: Sixty)
    ensures IsTimeAnomaly(Clock(2, 30, s))
    ensures !IsTimeAnomaly(Clock(22, 0, s)) && IsTimeAnomaly(Clock(22, 1, s))
    ensures !IsTimeAnomaly(Clock(5, 0, s)) && IsTimeAnomaly(Clock(4, 59, s))
  {
  }

  /** The amount rule on an absolute z-score. */
  predicate IsAmountAnomaly(absZ: real) {
    absZ > ZScoreThreshold
  }

  /** The statistical flag: either rule fires. */
  function StatisticalFlag(t: Txn, z: real): (b: Bit)
    ensures b == 1 <==> IsAmountAnomaly(Abs(z)) || IsTimeAnomaly(t.time)
  {
    BitOf(IsAmountAnomaly(Abs(z)) || IsTimeAnomaly(t.time))
  }

  /** The isolation-forest flag: label -1 marks an outlier. */
  function IsolationFlag(verdict: int): (b: Bit)
    ensures b == 1 <==> verdict == -1
  {
    BitOf(verdict == -1)
  }

  // ---------------------------------------------------------------------------
  // Per-method result frames
  // ---------------------------------------------------------------------------

  /**
   * What the fitted algorithms produce for row `i` of the table: the isolation
   * forest's label and `score_samples` value, and the standardised amount
   * (amount - mean) / std.
   */
  datatype DetectorOutputs = DetectorOutputs(forestLabel: nat -> int, score: nat -> real, zscore: nat -> real)

  datatype IsolationRow = IsolationRow(txn: Txn, isolationAnomaly: Bit, isolationScore: real)

  datatype StatisticalRow = StatisticalRow(txn: Txn, statisticalAnomaly: Bit, amountZscore: real)

  datatype AnomalyRow = AnomalyRow(
    txn: Txn,
    isolationAnomaly: Bit,
    isolationScore: real,
    statisticalAnomaly: Bit,
    amountZscore: real,
    compositeAnomaly: Bit,
    anomalyRiskScore: real)

  /** A copy of the table with the isolation-forest columns added. */
  function IsolationDetection(df: seq<Txn>, out: DetectorOutputs): (r: seq<IsolationRow>)
    ensures |r| == |df|
    ensures forall i :: 0 <= i < |r| ==>
      r[i].txn == df[i] && (r[i].isolationAnomaly == 1 <==> out.forestLabel(i) == -1) && r[i].isolationScore == out.score(i)
  {
    seq(|df|, i requires 0 <= i < |df| => IsolationRow(df[i], IsolationFlag(out.forestLabel(i)), out.score(i)))
  }

  /** A copy of the table with the statistical columns added. */
  function StatisticalDetection(df: seq<Txn>, out: DetectorOutputs): (r: seq<StatisticalRow>)
    ensures |r| == |df|
    ensures forall i :: 0 <= i < |r| ==>
      && r[i].txn == df[i]
      && r[i].amountZscore == Abs(out.zscore(i))
      && (r[i].statisticalAnomaly == 1 <==> IsAmountAnomaly(r[i].amountZscore) || IsTimeAnomaly(df[i].time))
  {
    seq(|df|, i requires 0 <= i < |df| => StatisticalRow(df[i], StatisticalFlag(df[i], out.zscore(i)), Abs(out.zscore(i))))
  }

  // ---------------------------------------------------------------------------
  // Combination
  // ---------------------------------------------------------------------------

  /** 50 for an isolation outlier, 30 for a statistical one, plus up to 20 from the isolation score. */
  function AnomalyRiskScore(iso: Bit, stat: Bit, score: real): (r: real)
    ensures 0.0 <= r <= 100.0
    ensures iso == 1 || stat == 1 ==> r >= 30.0
    ensures iso == 0 && stat == 0 ==> r <= 20.0
    ensures iso == 1 ==> r >= 50.0
  {
    (iso * 50) as real + (stat * 30) as real + Clip(-score * 100.0, 0.0, 20.0)
  }

  function CombineRow(iso: IsolationRow, stat: StatisticalRow): (r: AnomalyRow)
    ensures r.txn == iso.txn && r.isolationAnomaly == iso.isolationAnomaly && r.isolationScore == iso.isolationScore
    ensures r.statisticalAnomaly == stat.statisticalAnomaly && r.amountZscore == stat.amountZscore
    ensures r.compositeAnomaly == 1 <==> iso.isolationAnomaly == 1 || stat.statisticalAnomaly == 1
    ensures 0.0 <= r.anomalyRiskScore <= 100.0
    ensures r.compositeAnomaly == 1 ==> r.anomalyRiskScore >= 30.0
    ensures r.compositeAnomaly == 0 ==> r.anomalyRiskScore <= 20.0
  {
    AnomalyRow(
      iso.txn, iso.isolationAnomaly, iso.isolationScore,
      stat.statisticalAnomaly, stat.amountZscore,
      BitOf(iso.isolationAnomaly == 1 || stat.statisticalAnomaly == 1),
      AnomalyRiskScore(iso.isolationAnomaly, stat.statisticalAnomaly, iso.isolationScore))
  }

  /** The isolation frame with the statistical columns copied over and the two composite columns added. */
  function CombineAnomalyResults(iso: seq<IsolationRow>, stat: seq<StatisticalRow>): (r: seq<AnomalyRow>)
    requires |iso| == |stat|
    ensures |r| == |iso|
    ensures forall i :: 0 <= i < |r| ==> r[i] == CombineRow(iso[i], stat[i])
  {
    seq(|iso|, i requires 0 <= i < |iso| => CombineRow(iso[i], stat[i]))
  }

  /** The whole pipeline on a table. */
  function Detect(df: seq<Txn>, out: DetectorOutputs): seq<AnomalyRow> {
    CombineAnomalyResults(IsolationDetection(df, out), StatisticalDetection(df, out))
  }

  /** One row per transaction, in order, flagged exactly when a rule or the forest flags it. */
  lemma DetectRows(df: seq<Txn>, out: DetectorOutputs, i: nat)
    requires i < |df|
    ensures |Detect(df, out)| == |df|
    ensures Detect(df, out)[i].txn == df[i]
    ensures Detect(df, out)[i].compositeAnomaly == 1 <==>
      out.forestLabel(i) == -1 || Abs(out.zscore(i)) > ZScoreThreshold || IsTimeAnomaly(df[i].time)
    ensures Detect(df, out)[i].amountZscore == Abs(out.zscore(i))
    ensures Detect(df, out)[i].isolationScore == out.score(i)
  {
    var iso := IsolationDetection(df, out);
    var stat := StatisticalDetection(df, out);
    assert Detect(df, out)[i] == CombineRow(iso[i], stat[i]);
  }

  // ---------------------------------------------------------------------------
  // Summary counts
  // ---------------------------------------------------------------------------

  predicate IsComposite(r: AnomalyRow) { r.compositeAnomaly == 1 }
  predicate IsIsolation(r: AnomalyRow) { r.isolationAnomaly == 1 }
  predicate IsStatistical(r: AnomalyRow) { r.statisticalAnomaly == 1 }

  /** Rows whose composite flag matches the OR of the two method flags. */
  ghost predicate CompositeIsOr(rows: seq<AnomalyRow>) {
    forall i :: 0 <= i < |rows| ==> (IsComposite(rows[i]) <==> IsIsolation(rows[i]) || IsStatistical(rows[i]))
  }

  /** The combined anomaly count lies between each method's count and their sum. */
  lemma {:induction false} CompositeCountBounds(rows: seq<AnomalyRow>)
    requires CompositeIsOr(rows)
    ensures CountIf(rows, IsIsolation) <= CountIf(rows, IsComposite)
    ensures CountIf(rows, IsStatistical) <= CountIf(rows, IsComposite)
    ensures CountIf(rows, IsComposite) <= CountIf(rows, IsIsolation) + CountIf(rows, IsStatistical)
  {
    if rows != [] {
      assert forall i :: 0 <= i < |rows| - 1 ==> rows[1..][i] == rows[i + 1];
      CompositeCountBounds(rows[1..]);
    }
  }

  lemma DetectCompositeIsOr(df: seq<Txn>, out: DetectorOutputs)
    ensures CompositeIsOr(Detect(df, out))
  {
  }

  // ---------------------------------------------------------------------------
  // The detector object
  // ---------------------------------------------------------------------------

  class AnomalyDetector {
    const df: seq<Txn>
    var anomalies: Option<seq<AnomalyRow>>

    constructor (df: seq<Txn>)
      ensures this.df == df && anomalies == None
    {
      this.df := df;
      anomalies := None;
    }

    /** Runs both methods, combines them and keeps the combined frame. */
    method DetectAnomalies(out: DetectorOutputs) returns (result: seq<AnomalyRow>)
      modifies this
      ensures result == Detect(df, out)
      ensures anomalies == Some(result)
    {
      var iso := IsolationDetection(df, out);
      var stat := StatisticalDetection(df, out);
      result := CombineAnomalyResults(iso, stat);
      anomalies := Some(result);
    }
  }
}
