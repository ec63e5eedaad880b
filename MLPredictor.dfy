/**
 * The compliance-risk predictor: the prediction frame built from a batch of
 * transactions, `predict_risk`, the training pipeline of
 * `train_compliance_model`, and the predictor object holding the model, the
 * scaler, the label encoders, the feature names and the recorded metrics.
 */
module MLPredictor {
  import opened Outcomes
  import opened Transactions
  import opened Columns
  import opened FeatureLayout
  import opened ColumnKinds
  import opened MLFeatures
  import opened Scaling
  import opened ModelSelection
  import opened Persistence

  type Probability = p: real | 0.0 <= p <= 1.0

  /** `train_test_split` of (X, y). */
  datatype Split = Split(xTrain: seq<seq<real>>, xTest: seq<seq<real>>, yTrain: seq<int>, yTest: seq<int>)

  /**
   * The numerical and learning library the predictor calls: `np.log1p`, the
   * scaler's per-column estimates, the split, model fitting, the test-split
   * metrics, and a fitted classifier's `predict_proba(...)[:, 1]` and `predict`
   * on one scaled row.
   */
  datatype MLLibrary = MLLibrary(
    log1p: real -> real,
    estimate: seq<real> -> Stat,
    split: (real, seq<seq<real>>, seq<int>) -> Split,
    learner: Learner,
    score: (Model, seq<seq<real>>, seq<int>) -> Metrics,
    proba: (Model, seq<real>) -> Probability,
    predictClass: (Model, seq<real>) -> int)

  datatype RiskLabel = HighRisk | LowRisk

  /** The dict `predict_risk` returns. */
  datatype Prediction = Prediction(riskProbability: real, riskLabel: RiskLabel, riskScore: real)

  // ---------------------------------------------------------------------------
  // The prediction frame
  // ---------------------------------------------------------------------------

  /** The columns of a batch after feature engineering and encoding with `encoders`. */
  function PredictionLayout(encoders: map<ColumnName, Encoder>): seq<Column> {
    EncodeLayout(EngineeredColumns, CategoricalFeatures, encoders.Keys)
  }

  /** The value of column `n` in row `i`: an encoded category's code, a number, or text. */
  function ColumnCell(batch: seq<Txn>, rows: seq<EngineeredRow>, encoders: map<ColumnName, Encoder>, i: nat, n: ColumnName): Cell
    requires i < |batch| == |rows|
  {
    if n.Encoded? && n.base in CategoricalFeatures && n.base in encoders then
      Num(EncodeColumn(encoders[n.base], CategoryColumn(batch, n.base))[i] as real)
    else
      match RowValue(rows[i], n)
      case Some(v) => Num(v)
      case None => Str
  }

  /** The columns `names` of the engineered and encoded batch, in that order. */
  function FeatureFrame(batch: seq<Txn>, rows: seq<EngineeredRow>, encoders: map<ColumnName, Encoder>, names: seq<ColumnName>): (f: seq<seq<Cell>>)
    requires |rows| == |batch|
    ensures |f| == |batch|
    ensures forall i :: 0 <= i < |f| ==> |f[i]| == |names|
    ensures forall i, j :: 0 <= i < |f| && 0 <= j < |names| ==> f[i][j] == ColumnCell(batch, rows, encoders, i, names[j])
  {
    seq(|batch|, i requires 0 <= i < |batch| =>
      seq(|names|, j requires 0 <= j < |names| => ColumnCell(batch, rows, encoders, i, names[j])))
  }

  /** The first of `names[from..]` that `present` lacks. */
  function FirstMissing(names: seq<ColumnName>, present: seq<ColumnName>, from: nat): (r: Option<nat>)
    requires from <= |names|
    ensures r.Some? ==> from <= r.value < |names| && names[r.value] !in present
    ensures r.Some? ==> forall k :: from <= k < r.value ==> names[k] in present
    ensures r.None? ==> forall k :: from <= k < |names| ==> names[k] in present
    decreases |names| - from
  {
    if from == |names| then None
    else if names[from] !in present then Some(from)
    else FirstMissing(names, present, from + 1)
  }

  /** `features[self.feature_names]` on the engineered and encoded batch; a missing column is a KeyError. */
  function SelectFeatures(batch: seq<Txn>, log1p: real -> real, encoders: map<ColumnName, Encoder>, names: seq<ColumnName>)
    : (r: Result<seq<seq<Cell>>>)
    ensures r.Failure? ==>
      r.error.MissingFeature? && r.error.column in names && r.error.column !in ColumnNames(PredictionLayout(encoders))
    ensures r.Success? <==> forall n :: n in names ==> n in ColumnNames(PredictionLayout(encoders))
    ensures r.Success? ==> r.value == FeatureFrame(batch, EngineerFeatures(batch, log1p), encoders, names)
  {
    var present := ColumnNames(PredictionLayout(encoders));
    var missing := FirstMissing(names, present, 0);
    if missing.Some? then Failure(MissingFeature(names[missing.value]))
    else Success(FeatureFrame(batch, EngineerFeatures(batch, log1p), encoders, names))
  }

  /**
   * `predict_risk`: the model check, feature selection, scaling, and the first
   * row's class-1 probability and class; the score is the probability in percent.
   */
  function Predict(s: PredictorState, batch: seq<Txn>, lib: MLLibrary): (r: Result<Prediction>)
    ensures r == Failure(ModelNotTrained) <==> s.model.None?
    ensures |batch| == 0 ==> r.Failure?
    ensures r.Success? ==> s.model.Some? && s.model.value.kind != IsolationForest
    ensures r.Success? ==>
      && 0.0 <= r.value.riskProbability <= 1.0
      && r.value.riskScore == r.value.riskProbability * 100.0
      && 0.0 <= r.value.riskScore <= 100.0
  {
    if s.model.None? then Failure(ModelNotTrained)
    else
      var frame :- SelectFeatures(batch, lib.log1p, s.labelEncoders, s.featureNames);
      var scaled :- Transform(s.scaler, s.featureNames, frame);
      var m := s.model.value;
      if m.kind == IsolationForest then Failure(NoProbabilities)
      else
        var p := lib.proba(m, scaled[0]);
        Success(Prediction(p, if lib.predictClass(m, scaled[0]) == 1 then HighRisk else LowRisk, p * 100.0))
  }

  /** When every step succeeds, the label is the model's class for the first scaled row. */
  lemma PredictLabel(s: PredictorState, batch: seq<Txn>, lib: MLLibrary)
    requires Predict(s, batch, lib).Success?
    ensures var frame := SelectFeatures(batch, lib.log1p, s.labelEncoders, s.featureNames).value;
      var x := Transform(s.scaler, s.featureNames, frame).value;
      |x| > 0
      && Predict(s, batch, lib).value.riskProbability == lib.proba(s.model.value, x[0])
      && (Predict(s, batch, lib).value.riskLabel == HighRisk <==> lib.predictClass(s.model.value, x[0]) == 1)
  {
  }

  /** The conditions under which a prediction is returned rather than an exception raised. */
  lemma PredictSucceeds(s: PredictorState, batch: seq<Txn>, lib: MLLibrary)
    ensures Predict(s, batch, lib).Success? <==>
      && s.model.Some? && s.model.value.kind != IsolationForest
      && (forall n :: n in s.featureNames ==> n in ColumnNames(PredictionLayout(s.labelEncoders)))
      && s.scaler.Fitted? && s.scaler.names == s.featureNames && |batch| > 0
      && AllNumeric(FeatureFrame(batch, EngineerFeatures(batch, lib.log1p), s.labelEncoders, s.featureNames))
  {
  }

  /** One unseen category in the batch sets that encoded column to 0 in every row. */
  lemma UnseenCategoryIsZero(batch: seq<Txn>, log1p: real -> real, encoders: map<ColumnName, Encoder>, names: seq<ColumnName>,
                             c: ColumnName, j: nat, bad: nat, i: nat)
    requires c in CategoricalFeatures && c in encoders && j < |names| && names[j] == Encoded(c)
    requires bad < |batch| && CategoryOf(batch[bad], c) !in encoders[c].classes && i < |batch|
    ensures FeatureFrame(batch, EngineerFeatures(batch, log1p), encoders, names)[i][j] == Num(0.0)
  {
    UnseenZeroesColumn(encoders[c], CategoryColumn(batch, c), bad, i);
  }

  /** When every value of the column is known, each row holds the code of its own category. */
  lemma KnownCategoryIsCoded(batch: seq<Txn>, log1p: real -> real, encoders: map<ColumnName, Encoder>, names: seq<ColumnName>,
                             c: ColumnName, j: nat, i: nat)
    requires c in CategoricalFeatures && c in encoders && j < |names| && names[j] == Encoded(c)
    requires forall k :: 0 <= k < |batch| ==> CategoryOf(batch[k], c) in encoders[c].classes
    requires i < |batch|
    ensures exists code: nat ::
      && code < |encoders[c].classes| && encoders[c].classes[code] == CategoryOf(batch[i], c)
      && FeatureFrame(batch, EngineerFeatures(batch, log1p), encoders, names)[i][j] == Num(code as real)
  {
    var col := CategoryColumn(batch, c);
    assert AllSeen(encoders[c], col);
    var code := EncodeColumn(encoders[c], col)[i];
    assert encoders[c].classes[code] == CategoryOf(batch[i], c);
  }

  /** In any layout, a column holds numbers exactly when it is not a text column. */
  lemma LayoutCellKind(batch: seq<Txn>, log1p: real -> real, encoders: map<ColumnName, Encoder>, i: nat, col: Column)
    requires col in PredictionLayout(encoders) && i < |batch|
    ensures ColumnCell(batch, EngineerFeatures(batch, log1p), encoders, i, col.name).Num? <==> col.kind != Text
  {
    EncodeLayoutMembers(EngineeredColumns, CategoricalFeatures, encoders.Keys, col);
    if col in EngineeredColumns {
      EngineeredColumnKind(col);
      RowValueDefined(EngineerFeatures(batch, log1p)[i], col);
    }
  }

  /** The numeric columns of any layout hold numbers in every row. */
  lemma FeatureFrameNumeric(batch: seq<Txn>, log1p: real -> real, encoders: map<ColumnName, Encoder>)
    ensures AllNumeric(FeatureFrame(batch, EngineerFeatures(batch, log1p), encoders, FeatureNames(PredictionLayout(encoders))))
  {
    var layout := PredictionLayout(encoders);
    var names := FeatureNames(layout);
    var frame: seq<seq<Cell>> := FeatureFrame(batch, EngineerFeatures(batch, log1p), encoders, names);
    forall i, j | 0 <= i < |frame| && 0 <= j < |frame[i]| ensures frame[i][j].Num? {
      FeatureNamesSound(layout, names[j]);
      var k :| 0 <= k < |layout| && layout[k].name == names[j] && layout[k].kind == Number;
      LayoutCellKind(batch, log1p, encoders, i, layout[k]);
    }
  }

  /** Every feature name of a layout is one of its columns. */
  lemma FeatureNamesPresent(encoders: map<ColumnName, Encoder>)
    ensures forall n :: n in FeatureNames(PredictionLayout(encoders)) ==> n in ColumnNames(PredictionLayout(encoders))
  {
    var layout := PredictionLayout(encoders);
    forall n | n in FeatureNames(layout) ensures n in ColumnNames(layout) {
      FeatureNamesSound(layout, n);
      var k :| 0 <= k < |layout| && layout[k].name == n && layout[k].kind == Number;
      assert ColumnNames(layout)[k] == n;
    }
  }

  // ---------------------------------------------------------------------------
  // Training
  // ---------------------------------------------------------------------------

  /** The encoders after fitting one per category of `cats`, in order, over `encoders`. */
  function FitEncoders(encoders: map<ColumnName, Encoder>, df: seq<Txn>, cats: seq<ColumnName>): map<ColumnName, Encoder>
    requires forall k :: 0 <= k < |cats| ==> cats[k] in CategoricalFeatures
    decreases |cats|
  {
    if cats == [] then encoders
    else FitEncoders(encoders[cats[0] := FitEncoder(CategoryColumn(df, cats[0]))], df, cats[1..])
  }

  /** Fitting replaces the encoders of the listed categories and keeps all others. */
  lemma {:induction false} FitEncodersEntries(encoders: map<ColumnName, Encoder>, df: seq<Txn>, cats: seq<ColumnName>, c: ColumnName)
    requires forall k :: 0 <= k < |cats| ==> cats[k] in CategoricalFeatures
    ensures c in FitEncoders(encoders, df, cats) <==> c in encoders || c in cats
    ensures c in cats ==> FitEncoders(encoders, df, cats)[c] == FitEncoder(CategoryColumn(df, c))
    ensures c !in cats && c in encoders ==> FitEncoders(encoders, df, cats)[c] == encoders[c]
    decreases |cats|
  {
    if cats != [] {
      FitEncodersEntries(encoders[cats[0] := FitEncoder(CategoryColumn(df, cats[0]))], df, cats[1..], c);
      assert c in cats <==> c == cats[0] || c in cats[1..];
    }
  }

  /** The categories still to encode: known categorical columns with encoders to fit, in an encodable layout. */
  ghost predicate Encodable(cats: seq<ColumnName>, cols: seq<Column>, keys: set<ColumnName>) {
    && (forall f :: f in cats ==> f in CategoricalFeatures && f in keys)
    && EncodableLayout(cols, cats)
  }

  /** One pass of the encoding loop: the next category is in the frame, and the rest stay encodable. */
  lemma EncodeLoopStep(cats: seq<ColumnName>, cols: seq<Column>, keys: set<ColumnName>)
    requires cats != [] && Encodable(cats, cols, keys)
    ensures cats[0] in ColumnNames(cols)
    ensures Encodable(cats[1..], DropColumn(cols + [Column(Encoded(cats[0]), Number)], cats[0]), keys)
    ensures EncodeLayout(cols, cats, keys) == EncodeLayout(DropColumn(cols + [Column(Encoded(cats[0]), Number)], cats[0]), cats[1..], keys)
  {
    EncodableHead(cols, cats);
    EncodeLayoutUnfold(cols, cats, keys);
    EncodeStepLayout(cols, cats);
  }

  /** The label encoders after the encoding loop: one fitted per categorical column, the others kept. */
  function TrainingEncoders(encoders0: map<ColumnName, Encoder>, df: seq<Txn>): (e: map<ColumnName, Encoder>)
    ensures forall c :: c in CategoricalFeatures ==> c in e && e[c] == FitEncoder(CategoryColumn(df, c))
    ensures forall c :: c !in CategoricalFeatures ==> (c in e <==> c in encoders0)
    ensures forall c :: c !in CategoricalFeatures && c in e ==> e[c] == encoders0[c]
  {
    var e := FitEncoders(encoders0, df, CategoricalFeatures);
    forall c ensures (c in e <==> c in encoders0 || c in CategoricalFeatures)
      && (c in CategoricalFeatures ==> e[c] == FitEncoder(CategoryColumn(df, c)))
      && (c !in CategoricalFeatures && c in encoders0 ==> e[c] == encoders0[c])
    {
      FitEncodersEntries(encoders0, df, CategoricalFeatures, c);
    }
    e
  }

  /** What `_prepare_ml_features` computes. */
  datatype Prepared = Prepared(
    encoders: map<ColumnName, Encoder>,
    names: seq<ColumnName>,
    scaler: ValidScaler,
    raw: seq<seq<real>>,
    x: seq<seq<real>>,
    y: seq<int>)

  /** The 0/1 target column. */
  function Labels(df: seq<Txn>): (y: seq<int>)
    ensures |y| == |df| && forall i :: 0 <= i < |df| ==> (y[i] == 1 <==> df[i].isLaundering) && (y[i] == 0 <==> !df[i].isLaundering)
  {
    seq(|df|, i requires 0 <= i < |df| => if df[i].isLaundering then 1 else 0)
  }

  /** Column `j` of a matrix whose rows all have at least `j + 1` entries. */
  function MatrixColumn(m: seq<seq<real>>, j: nat): (c: seq<real>)
    requires forall i :: 0 <= i < |m| ==> j < |m[i]|
    ensures |c| == |m| && forall i :: 0 <= i < |m| ==> c[i] == m[i][j]
  {
    seq(|m|, i requires 0 <= i < |m| => m[i][j])
  }

  /** The numeric matrix of a frame of numbers. */
  function NumberRows(frame: seq<seq<Cell>>, width: nat): (m: seq<seq<real>>)
    requires AllNumeric(frame) && forall i :: 0 <= i < |frame| ==> |frame[i]| == width
    ensures |m| == |frame| && forall i :: 0 <= i < |m| ==> |m[i]| == width && forall j :: 0 <= j < width ==> frame[i][j] == Num(m[i][j])
  {
    seq(|frame|, i requires 0 <= i < |frame| && AllNumeric(frame) => Numbers(frame[i]))
  }

  /** The feature matrix of a batch: the numbers in the feature columns of its layout. */
  function FeatureMatrix(batch: seq<Txn>, log1p: real -> real, encoders: map<ColumnName, Encoder>): (m: seq<seq<real>>)
    ensures |m| == |batch| && forall i :: 0 <= i < |m| ==> |m[i]| == |FeatureNames(PredictionLayout(encoders))|
  {
    var names := FeatureNames(PredictionLayout(encoders));
    FeatureFrameNumeric(batch, log1p, encoders);
    NumberRows(FeatureFrame(batch, EngineerFeatures(batch, log1p), encoders, names), |names|)
  }

  /** Each entry of the feature matrix is the number in the same cell of the feature frame. */
  lemma FeatureMatrixCells(batch: seq<Txn>, log1p: real -> real, encoders: map<ColumnName, Encoder>, i: nat, j: nat)
    requires i < |batch| && j < |FeatureNames(PredictionLayout(encoders))|
    ensures var names := FeatureNames(PredictionLayout(encoders));
      FeatureFrame(batch, EngineerFeatures(batch, log1p), encoders, names)[i][j] == Num(FeatureMatrix(batch, log1p, encoders)[i][j])
  {
    FeatureFrameNumeric(batch, log1p, encoders);
  }

  /** `StandardScaler.fit` on a matrix whose columns are `names`. */
  function FitScaler(names: seq<ColumnName>, m: seq<seq<real>>, estimate: seq<real> -> Stat): (s: ValidScaler)
    requires forall i :: 0 <= i < |m| ==> |m[i]| == |names|
    ensures s.Fitted? && s.names == names && |s.stats| == |names|
    ensures forall j :: 0 <= j < |names| ==> s.stats[j] == estimate(MatrixColumn(m, j))
  {
    Fit(names, seq(|names|, j requires 0 <= j < |names| => MatrixColumn(m, j)), estimate)
  }

  /** `transform` of every row of a matrix. */
  function ScaleRows(stats: seq<Stat>, m: seq<seq<real>>): (r: seq<seq<real>>)
    requires forall i :: 0 <= i < |m| ==> |m[i]| == |stats|
    ensures |r| == |m| && forall i :: 0 <= i < |m| ==> r[i] == ScaleRow(stats, m[i])
  {
    seq(|m|, i requires 0 <= i < |m| => ScaleRow(stats, m[i]))
  }

  /** Encoding, feature selection, the target, and `fit_transform` of the scaler. */
  function Prepare(encoders0: map<ColumnName, Encoder>, df: seq<Txn>, lib: MLLibrary): Prepared {
    PrepareWith(TrainingEncoders(encoders0, df), df, lib)
  }

  /** Feature selection, the target and the scaler once the encoders are fitted. */
  function PrepareWith(encoders: map<ColumnName, Encoder>, df: seq<Txn>, lib: MLLibrary): Prepared {
    var names := FeatureNames(PredictionLayout(encoders));
    var raw := FeatureMatrix(df, lib.log1p, encoders);
    var scaler := FitScaler(names, raw, lib.estimate);
    Prepared(encoders, names, scaler, raw, ScaleRows(scaler.stats, raw), Labels(df))
  }

  /** The metrics of a model on the test split. */
  function Evaluator(lib: MLLibrary, sp: Split): Model -> Metrics {
    m => lib.score(m, sp.xTest, sp.yTest)
  }

  /** The split, the trained candidates and the evaluator of one training run. */
  datatype Run = Run(sp: Split, trained: seq<Trained>, evaluate: Model -> Metrics)

  function RunOf(p: Prepared, lib: MLLibrary, testSize: real): Run {
    var sp := lib.split(testSize, p.x, p.y);
    Run(sp, TrainedCandidates(lib.learner, sp.xTrain, sp.yTrain), Evaluator(lib, sp))
  }

  /** The state after selecting among the candidates of `run`, trained on `p`. */
  function Selected(metrics0: map<string, Metrics>, p: Prepared, run: Run): PredictorState
    requires |run.trained| == |Candidates|
  {
    var k := BestUpTo(run.trained, run.evaluate, |run.trained|);
    PredictorState(
      if k.Some? then Some(run.trained[k.value].model) else None,
      p.scaler, p.encoders, p.names,
      MetricsUpTo(metrics0, run.trained, run.evaluate, |run.trained|))
  }

  /** The predictor state after `train_compliance_model`, before any saving. */
  function TrainState(s: PredictorState, df: seq<Txn>, lib: MLLibrary, testSize: real): PredictorState {
    var p := Prepare(s.labelEncoders, df, lib);
    Selected(s.modelMetrics, p, RunOf(p, lib, testSize))
  }

  /** Training always yields the fifteen features, a scaler fitted on them and one encoder per categorical column. */
  lemma TrainedLayout(s: PredictorState, df: seq<Txn>, lib: MLLibrary, testSize: real)
    ensures var t := TrainState(s, df, lib, testSize);
      && t.featureNames == TrainingFeatureList
      && t.scaler.Fitted? && t.scaler.names == TrainingFeatureList
      && (forall c :: c in CategoricalFeatures ==> c in t.labelEncoders && t.labelEncoders[c] == FitEncoder(CategoryColumn(df, c)))
      && (forall c :: c !in CategoricalFeatures && c in s.labelEncoders ==> c in t.labelEncoders && t.labelEncoders[c] == s.labelEncoders[c])
  {
    var e := TrainingEncoders(s.labelEncoders, df);
    TrainingFeatureNamesValue(e.Keys);
  }

  /** The scaled training rows standardise the rows of the feature frame, which unscaling recovers. */
  lemma TrainingRowsRecoverable(encoders0: map<ColumnName, Encoder>, df: seq<Txn>, lib: MLLibrary, i: nat)
    requires i < |df|
    ensures var p := Prepare(encoders0, df, lib);
      var frame := FeatureFrame(df, EngineerFeatures(df, lib.log1p), p.encoders, p.names);
      && |p.scaler.stats| == |p.names|
      && UnscaleRow(p.scaler.stats, p.x[i]) == p.raw[i]
      && forall j :: 0 <= j < |p.names| ==> frame[i][j] == Num(p.raw[i][j])
  {
    var p := Prepare(encoders0, df, lib);
    ScaleRowRoundTrip(p.scaler.stats, p.raw[i]);
    forall j | 0 <= j < |p.names| {
      FeatureMatrixCells(df, lib.log1p, p.encoders, i, j);
    }
  }

  /**
   * The trained model is the best supervised candidate on the test split, or none
   * when no supervised F1 is positive; it is never the isolation forest.
   */
  lemma TrainedModel(s: PredictorState, df: seq<Txn>, lib: MLLibrary, testSize: real)
    ensures var run := RunOf(Prepare(s.labelEncoders, df, lib), lib, testSize);
      var t := TrainState(s, df, lib, testSize);
      && (t.model.None? <==> F1(run.evaluate, run.trained[0]) <= 0.0 && F1(run.evaluate, run.trained[1]) <= 0.0)
      && (t.model.Some? ==> t.model.value.kind != IsolationForest)
      && (t.model.Some? ==> exists k :: 0 <= k < 2 && IsBest(run.trained, run.evaluate, 3, k) && t.model == Some(run.trained[k].model))
  {
    var run := RunOf(Prepare(s.labelEncoders, df, lib), lib, testSize);
    CandidatesSelected(lib.learner, run.sp.xTrain, run.sp.yTrain, run.evaluate);
  }

  /** Training records the two supervised candidates' metrics and keeps every other entry. */
  lemma TrainedMetrics(s: PredictorState, df: seq<Txn>, lib: MLLibrary, testSize: real, name: string)
    ensures var run := RunOf(Prepare(s.labelEncoders, df, lib), lib, testSize);
      var m := TrainState(s, df, lib, testSize).modelMetrics;
      && RandomForestName in m && m[RandomForestName] == run.evaluate(run.trained[0].model)
      && GradientBoostingName in m && m[GradientBoostingName] == run.evaluate(run.trained[1].model)
      && (name != RandomForestName && name != GradientBoostingName ==>
            (name in m <==> name in s.modelMetrics) && (name in m ==> m[name] == s.modelMetrics[name]))
  {
    var run := RunOf(Prepare(s.labelEncoders, df, lib), lib, testSize);
    CandidatesRecorded(s.modelMetrics, lib.learner, run.sp.xTrain, run.sp.yTrain, run.evaluate, name);
  }

  /** Right after training, a model predicts on every non-empty batch, whatever its categories. */
  lemma TrainThenPredict(s: PredictorState, df: seq<Txn>, lib: MLLibrary, testSize: real, batch: seq<Txn>)
    requires TrainState(s, df, lib, testSize).model.Some?
    ensures Predict(TrainState(s, df, lib, testSize), batch, lib).Success? <==> |batch| > 0
  {
    var t := TrainState(s, df, lib, testSize);
    TrainedModel(s, df, lib, testSize);
    FeatureNamesPresent(t.labelEncoders);
    FeatureFrameNumeric(batch, lib.log1p, t.labelEncoders);
    PredictSucceeds(t, batch, lib);
  }

  // ---------------------------------------------------------------------------
  // The predictor object
  // ---------------------------------------------------------------------------

  class Predictor {
    const df: seq<Txn>
    var model: Option<Model>
    var scaler: ValidScaler
    var labelEncoders: map<ColumnName, Encoder>
    var featureNames: seq<ColumnName>
    var modelMetrics: map<string, Metrics>

    function State(): PredictorState
      reads this
    {
      PredictorState(model, scaler, labelEncoders, featureNames, modelMetrics)
    }

    constructor (df: seq<Txn>)
      ensures this.df == df && State() == InitialState
    {
      this.df := df;
      model := None;
      scaler := Unfitted;
      labelEncoders := map[];
      featureNames := [];
      modelMetrics := map[];
    }

    /**
     * The encoding loop of `_prepare_ml_features`: each categorical column still
     * in the frame gets a fitted encoder and is replaced by its `_encoded` column.
     */
    method EncodeCategoricals() returns (layout: seq<Column>)
      modifies this
      ensures labelEncoders == TrainingEncoders(old(labelEncoders), df)
      ensures layout == PredictionLayout(labelEncoders)
      ensures model == old(model) && scaler == old(scaler) && featureNames == old(featureNames) && modelMetrics == old(modelMetrics)
    {
      CategoricalEncodable();
      ghost var target := TrainingEncoders(labelEncoders, df);
      assert Encodable(CategoricalFeatures, EngineeredColumns, target.Keys);
      layout := EncodeEach(CategoricalFeatures, EngineeredColumns, target.Keys);
      assert labelEncoders == target;
    }

    /** The loop itself, over the categories `cats` and the frame's columns `cols`. */
    method EncodeEach(cats: seq<ColumnName>, cols: seq<Column>, ghost keys: set<ColumnName>) returns (layout: seq<Column>)
      requires Encodable(cats, cols, keys)
      modifies this
      ensures labelEncoders == FitEncoders(old(labelEncoders), df, cats)
      ensures layout == EncodeLayout(cols, cats, keys)
      ensures model == old(model) && scaler == old(scaler) && featureNames == old(featureNames) && modelMetrics == old(modelMetrics)
    {
      ghost var encoders0 := labelEncoders;
      layout := cols;
      var rest := cats;
      while rest != []
        invariant Encodable(rest, layout, keys)
        invariant FitEncoders(labelEncoders, df, rest) == FitEncoders(encoders0, df, cats)
        invariant EncodeLayout(layout, rest, keys) == EncodeLayout(cols, cats, keys)
        invariant model == old(model) && scaler == old(scaler) && featureNames == old(featureNames) && modelMetrics == old(modelMetrics)
        decreases |rest|
      {
        var f := rest[0];
        EncodeLoopStep(rest, layout, keys);
        if f in ColumnNames(layout) {
          var le := FitEncoder(CategoryColumn(df, f));
          labelEncoders := labelEncoders[f := le];
          layout := DropColumn(layout + [Column(Encoded(f), Number)], f);
        }
        rest := rest[1..];
      }
    }

    /**
     * `_prepare_ml_features`: encodes the categorical columns, records the
     * feature names, and fits the scaler on the feature matrix.
     */
    method PrepareFeatures(lib: MLLibrary) returns (p: Prepared)
      modifies this
      ensures p == Prepare(old(labelEncoders), df, lib)
      ensures State() == old(State()).(scaler := p.scaler, labelEncoders := p.encoders, featureNames := p.names)
    {
      var layout := EncodeCategoricals();
      p := SelectAndScale(layout, lib);
    }

    /** The numeric columns of the encoded frame become the features, and the scaler is fitted on them. */
    method SelectAndScale(layout: seq<Column>, lib: MLLibrary) returns (p: Prepared)
      requires layout == PredictionLayout(labelEncoders)
      modifies this
      ensures p == PrepareWith(old(labelEncoders), df, lib)
      ensures State() == old(State()).(scaler := p.scaler, featureNames := p.names)
    {
      featureNames := FeatureNames(layout);
      var raw := FeatureMatrix(df, lib.log1p, labelEncoders);
      var fitted := FitScaler(featureNames, raw, lib.estimate);
      scaler := fitted;
      p := Prepared(labelEncoders, featureNames, fitted, raw, ScaleRows(fitted.stats, raw), Labels(df));
    }

    /** `train_compliance_model`: prepares, splits, trains, selects, and saves when asked. */
    method TrainComplianceModel(lib: MLLibrary, testSize: real, saveModel: bool, store: ModelStore, dir: string, timestamp: string)
      returns (r: Result<Option<Model>>)
      modifies this, store
      ensures State() == TrainState(old(State()), df, lib, testSize)
      ensures r == if saveModel && model.None? then Failure(NoModelToSave) else Success(model)
      ensures store.dirs == if saveModel && model.Some? then old(store.dirs)[dir := SavedDir(State(), timestamp)] else old(store.dirs)
    {
      TrainAndSelect(lib, testSize);
      if saveModel {
        var saved := SaveModelToDisk(store, dir, timestamp);
        if saved.Failure? {
          return Failure(saved.error);
        }
      }
      return Success(model);
    }

    /** The training steps of `train_compliance_model`: prepare, split, train the candidates, keep the best. */
    method TrainAndSelect(lib: MLLibrary, testSize: real)
      modifies this
      ensures State() == TrainState(old(State()), df, lib, testSize)
    {
      var p := PrepareFeatures(lib);
      SelectModel(p, lib, testSize);
    }

    /** Split the prepared data, train both candidates, evaluate them and keep the best. */
    method SelectModel(p: Prepared, lib: MLLibrary, testSize: real)
      requires scaler == p.scaler && labelEncoders == p.encoders && featureNames == p.names
      modifies this
      ensures State() == Selected(old(modelMetrics), p, RunOf(p, lib, testSize))
    {
      var sp := lib.split(testSize, p.x, p.y);
      var trained := TrainMultipleModels(lib.learner, sp.xTrain, sp.yTrain);
      var evaluate := Evaluator(lib, sp);
      var best, metrics := EvaluateModels(trained, evaluate, modelMetrics);
      modelMetrics := metrics;
      model := best;
    }

    /** `save_model_to_disk`: the five files, or a ValueError when there is no model. */
    method SaveModelToDisk(store: ModelStore, dir: string, timestamp: string) returns (r: Result<()>)
      modifies store
      ensures model.None? ==> r == Failure(NoModelToSave) && store.dirs == old(store.dirs)
      ensures model.Some? ==> r == Success(()) && store.dirs == old(store.dirs)[dir := SavedDir(State(), timestamp)]
    {
      if model.None? {
        return Failure(NoModelToSave);
      }
      store.WriteDir(dir, SavedDir(State(), timestamp));
      return Success(());
    }

    /** `load_model_from_disk`: assigns the files in order and reports whether all five loaded. */
    method LoadModelFromDisk(store: ModelStore, dir: string) returns (ok: bool)
      modifies this
      ensures (State(), ok) == Load(old(State()), store.DirAt(dir))
    {
      var d := store.DirAt(dir);
      if !d.model.Stored? {
        return false;
      }
      model := Some(d.model.value);
      if !d.scaler.Stored? {
        return false;
      }
      scaler := d.scaler.value;
      if !d.encoders.Stored? {
        return false;
      }
      labelEncoders := d.encoders.value;
      if !d.features.Stored? {
        return false;
      }
      featureNames := d.features.value;
      if !d.metadata.Stored? {
        return false;
      }
      var md := d.metadata.value;
      modelMetrics := if md.modelMetrics.Some? then md.modelMetrics.value else map[];
      return true;
    }

    /** `model_exists`. */
    method ModelExists(store: ModelStore, dir: string) returns (b: bool)
      ensures b <==> !store.DirAt(dir).model.Missing?
    {
      b := store.ModelExists(dir);
    }

    /** `predict_risk` on the current state. */
    method PredictRisk(lib: MLLibrary, batch: seq<Txn>) returns (r: Result<Prediction>)
      ensures r == Predict(State(), batch, lib)
      ensures r == Failure(ModelNotTrained) <==> model.None?
    {
      r := Predict(State(), batch, lib);
    }
  }
}
