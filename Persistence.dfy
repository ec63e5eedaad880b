/**
 * The five artifacts the predictor saves and loads (fraud_model.pkl,
 * scaler.pkl, label_encoders.pkl, feature_names.pkl, model_metadata.pkl) and
 * the directory store standing in for the file system.
 */
module Persistence {
  import opened Outcomes
  import opened Columns
  import opened MLFeatures
  import opened Scaling
  import opened ModelSelection

  /** The predictor's mutable state, as one value. */
  datatype PredictorState = PredictorState(
    model: Option<Model>,
    scaler: ValidScaler,
    labelEncoders: map<ColumnName, Encoder>,
    featureNames: seq<ColumnName>,
    modelMetrics: map<string, Metrics>)

  /** A fresh predictor: no model, an unfitted scaler, empty encoders, names and metrics. */
  const InitialState: PredictorState := PredictorState(None, Unfitted, map[], [], map[])

  /** One artifact file: absent, present but not loadable, or holding a value. */
  datatype Slot<T> = Missing | Unreadable | Stored(value: T)

  /** The contents of model_metadata.pkl; `model_metrics` may be absent from the dict. */
  datatype Metadata = Metadata(modelMetrics: Option<map<string, Metrics>>, timestamp: string, featureCount: nat)

  datatype ModelDir = ModelDir(
    model: Slot<Model>,
    scaler: Slot<ValidScaler>,
    encoders: Slot<map<ColumnName, Encoder>>,
    features: Slot<seq<ColumnName>>,
    metadata: Slot<Metadata>)

  const EmptyDir: ModelDir := ModelDir(Missing, Missing, Missing, Missing, Missing)

  /** The default `model_dir`. */
  const DefaultModelDir: string := "models"

  /** What `save_model_to_disk` writes for a state holding a model. */
  function SavedDir(s: PredictorState, timestamp: string): (d: ModelDir)
    requires s.model.Some?
    ensures d.model == Stored(s.model.value) && d.scaler == Stored(s.scaler)
    ensures d.encoders == Stored(s.labelEncoders) && d.features == Stored(s.featureNames)
    ensures d.metadata == Stored(Metadata(Some(s.modelMetrics), timestamp, |s.featureNames|))
  {
    ModelDir(
      Stored(s.model.value), Stored(s.scaler), Stored(s.labelEncoders), Stored(s.featureNames),
      Stored(Metadata(Some(s.modelMetrics), timestamp, |s.featureNames|)))
  }

  /**
   * `load_model_from_disk`: the five files in order, each assigned as soon as it
   * loads; the first missing or unreadable file ends the load with False and
   * keeps what was assigned before it.
   */
  function Load(s: PredictorState, d: ModelDir): (PredictorState, bool) {
    if !d.model.Stored? then (s, false)
    else
      var s1 := s.(model := Some(d.model.value));
      if !d.scaler.Stored? then (s1, false)
      else
        var s2 := s1.(scaler := d.scaler.value);
        if !d.encoders.Stored? then (s2, false)
        else
          var s3 := s2.(labelEncoders := d.encoders.value);
          if !d.features.Stored? then (s3, false)
          else
            var s4 := s3.(featureNames := d.features.value);
            if !d.metadata.Stored? then (s4, false)
            else
              var md := d.metadata.value;
              (s4.(modelMetrics := if md.modelMetrics.Some? then md.modelMetrics.value else map[]), true)
  }

  predicate Complete(d: ModelDir) {
    d.model.Stored? && d.scaler.Stored? && d.encoders.Stored? && d.features.Stored? && d.metadata.Stored?
  }

  /** Loading reports success exactly when all five files load, whatever the state before. */
  lemma LoadSucceedsIffComplete(s: PredictorState, d: ModelDir)
    ensures Load(s, d).1 <==> Complete(d)
  {
  }

  /** A successful load replaces the whole state with the files' contents. */
  lemma LoadComplete(s: PredictorState, d: ModelDir)
    requires Complete(d)
    ensures Load(s, d).0 == PredictorState(
      Some(d.model.value), d.scaler.value, d.encoders.value, d.features.value,
      if d.metadata.value.modelMetrics.Some? then d.metadata.value.modelMetrics.value else map[])
  {
  }

  /** Without a loadable model file nothing changes. */
  lemma LoadWithoutModel(s: PredictorState, d: ModelDir)
    requires !d.model.Stored?
    ensures Load(s, d) == (s, false)
  {
  }

  /** A failure after the model file leaves the model replaced: the load is not atomic. */
  lemma LoadPartial(s: PredictorState, d: ModelDir)
    requires d.model.Stored? && !d.scaler.Stored?
    ensures Load(s, d) == (s.(model := Some(d.model.value)), false)
  {
  }

  /** Loading what was saved restores the saved state exactly, from any state. */
  lemma LoadAfterSave(s: PredictorState, t: PredictorState, timestamp: string)
    requires s.model.Some?
    ensures Load(t, SavedDir(s, timestamp)) == (s, true)
  {
  }

  /** The metadata records as many features as the feature file holds. */
  lemma SavedFeatureCount(s: PredictorState, timestamp: string)
    requires s.model.Some?
    ensures SavedDir(s, timestamp).metadata.value.featureCount == |SavedDir(s, timestamp).features.value|
  {
  }

  /** The directories of the file system the predictor reads and writes. */
  /** The directory at `path` among `dirs`: one that was never created has none of the five files. */
  function DirOf(dirs: map<string, ModelDir>, path: string): ModelDir {
    if path in dirs then dirs[path] else EmptyDir
  }

  class ModelStore {
    var dirs: map<string, ModelDir>

    constructor (dirs: map<string, ModelDir>)
      ensures this.dirs == dirs
    {
      this.dirs := dirs;
    }

    function DirAt(path: string): ModelDir
      reads this
    {
      DirOf(dirs, path)
    }

    /** `os.path.exists` of fraud_model.pkl: the file is there, loadable or not. */
    function ModelExists(path: string): (b: bool)
      reads this
      ensures b <==> !DirAt(path).model.Missing?
    {
      !DirAt(path).model.Missing?
    }

    /** Writes the five files into `path`, creating the directory when needed. */
    method WriteDir(path: string, d: ModelDir)
      modifies this
      ensures dirs == old(dirs)[path := d]
      ensures DirAt(path) == d && (ModelExists(path) <==> !d.model.Missing?)
      ensures forall other :: other != path ==> DirAt(other) == old(DirAt(other))
    {
      dirs := dirs[path := d];
    }
  }

  /**
   * Saving into a directory makes the model exist there, holding the saved
   * files, and leaves every other directory as it was, contents included.
   */
  lemma SaveThenExists(old_dirs: map<string, ModelDir>, path: string, s: PredictorState, timestamp: string)
    requires s.model.Some?
    ensures var dirs := old_dirs[path := SavedDir(s, timestamp)];
      && DirOf(dirs, path) == SavedDir(s, timestamp)
      && DirOf(dirs, path).model == Stored(s.model.value)
      && !DirOf(dirs, path).model.Missing?
      && forall other :: other != path ==> DirOf(dirs, other) == DirOf(old_dirs, other)
  {
  }
}
