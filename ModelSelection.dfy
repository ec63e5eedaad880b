/**
 * The three candidate models and the evaluation loop that picks one of them:
 * the first supervised candidate whose test-set F1 is strictly greater than
 * every earlier one and than 0. The isolation forest is trained and scored
 * but never recorded and never chosen.
 */
module ModelSelection {
  import opened Outcomes

  datatype ModelKind = RandomForest | GradientBoosting | IsolationForest

  /** A fitted estimator: its class and the parameters the library learned. */
  datatype Model = Model(kind: ModelKind, learned: seq<real>)

  datatype Metrics = Metrics(accuracy: real, precision: real, recall: real, f1Score: real)

  const RandomForestName: string := "random_forest"
  const GradientBoostingName: string := "gradient_boosting"
  const IsolationForestName: string := "isolation_forest_classifier"

  /** The candidates in the order of the source's dict literal. */
  const Candidates: seq<(string, ModelKind)> := [
    (RandomForestName, RandomForest),
    (GradientBoostingName, GradientBoosting),
    (IsolationForestName, IsolationForest)]

  /** A trained candidate, under its dict key. */
  datatype Trained = Trained(name: string, model: Model)

  /** Every candidate but the isolation forest is evaluated as a classifier. */
  predicate Supervised(t: Trained) {
    t.name != IsolationForestName
  }

  // ---------------------------------------------------------------------------
  // Training all candidates
  // ---------------------------------------------------------------------------

  /**
   * The learning library, on the training split: the parameters a supervised fit
   * of the named classifier learns from (X, y), and those the isolation forest
   * learns from X alone.
   */
  datatype Learner = Learner(
    fitClassifier: (ModelKind, seq<seq<real>>, seq<int>) -> seq<real>,
    fitOutliers: seq<seq<real>> -> seq<real>)

  /** Fits one candidate: the isolation forest without labels, the classifiers with them. */
  function TrainCandidate(c: (string, ModelKind), learner: Learner, x: seq<seq<real>>, y: seq<int>): (t: Trained)
    ensures t.name == c.0 && t.model.kind == c.1
    ensures t.name == IsolationForestName ==> t.model.learned == learner.fitOutliers(x)
    ensures t.name != IsolationForestName ==> t.model.learned == learner.fitClassifier(c.1, x, y)
  {
    if c.0 == IsolationForestName then Trained(c.0, Model(c.1, learner.fitOutliers(x)))
    else Trained(c.0, Model(c.1, learner.fitClassifier(c.1, x, y)))
  }

  /** The three candidates, each trained on the same split. */
  function TrainedCandidates(learner: Learner, x: seq<seq<real>>, y: seq<int>): (t: seq<Trained>)
    ensures |t| == |Candidates| && forall k :: 0 <= k < |t| ==> t[k] == TrainCandidate(Candidates[k], learner, x, y)
  {
    seq(|Candidates|, k requires 0 <= k < |Candidates| => TrainCandidate(Candidates[k], learner, x, y))
  }

  /** `_train_multiple_models`: one trained model per candidate, in candidate order. */
  method TrainMultipleModels(learner: Learner, x: seq<seq<real>>, y: seq<int>) returns (trained: seq<Trained>)
    ensures trained == TrainedCandidates(learner, x, y)
  {
    trained := [];
    var i := 0;
    while i < |Candidates|
      invariant 0 <= i <= |Candidates|
      invariant trained == TrainedCandidates(learner, x, y)[..i]
    {
      trained := trained + [TrainCandidate(Candidates[i], learner, x, y)];
      i := i + 1;
    }
  }

  /** The trained candidates carry the three dict keys, in order. */
  lemma TrainedNames(trained: seq<Trained>, learner: Learner, x: seq<seq<real>>, y: seq<int>)
    requires |trained| == |Candidates|
    requires forall k :: 0 <= k < |trained| ==> trained[k] == TrainCandidate(Candidates[k], learner, x, y)
    ensures trained[0].name == RandomForestName && Supervised(trained[0]) && trained[0].model.kind == RandomForest
    ensures trained[1].name == GradientBoostingName && Supervised(trained[1]) && trained[1].model.kind == GradientBoosting
    ensures trained[2].name == IsolationForestName && !Supervised(trained[2]) && trained[2].model.kind == IsolationForest
  {
    assert trained[0] == TrainCandidate(Candidates[0], learner, x, y);
    assert trained[1] == TrainCandidate(Candidates[1], learner, x, y);
    assert trained[2] == TrainCandidate(Candidates[2], learner, x, y);
  }

  // ---------------------------------------------------------------------------
  // Selection
  // ---------------------------------------------------------------------------

  function F1(evaluate: Model -> Metrics, t: Trained): real {
    evaluate(t.model).f1Score
  }

  /** The candidate `n` may displace: supervised, with F1 above 0 and above every earlier supervised F1. */
  ghost predicate IsBest(trained: seq<Trained>, evaluate: Model -> Metrics, n: nat, k: nat)
    requires n <= |trained|
  {
    && k < n
    && Supervised(trained[k])
    && F1(evaluate, trained[k]) > 0.0
    && (forall j :: 0 <= j < n && Supervised(trained[j]) ==> F1(evaluate, trained[j]) <= F1(evaluate, trained[k]))
    && (forall j :: 0 <= j < k && Supervised(trained[j]) ==> F1(evaluate, trained[j]) < F1(evaluate, trained[k]))
  }

  /**
   * The position of `best_model` after the first `n` candidates: the first
   * supervised candidate with the strictly greatest positive F1, or none.
   */
  function BestUpTo(trained: seq<Trained>, evaluate: Model -> Metrics, n: nat): (r: Option<nat>)
    requires n <= |trained|
    ensures r.None? <==> forall j :: 0 <= j < n && Supervised(trained[j]) ==> F1(evaluate, trained[j]) <= 0.0
    ensures r.Some? ==> IsBest(trained, evaluate, n, r.value)
  {
    if n == 0 then None
    else
      var prev := BestUpTo(trained, evaluate, n - 1);
      var score := if prev.Some? then F1(evaluate, trained[prev.value]) else 0.0;
      var t := trained[n - 1];
      if Supervised(t) && F1(evaluate, t) > score then Some(n - 1) else prev
  }

  /** `best_score` after the first `n` candidates. */
  function ScoreOf(trained: seq<Trained>, evaluate: Model -> Metrics, best: Option<nat>): real
    requires best.Some? ==> best.value < |trained|
  {
    if best.Some? then F1(evaluate, trained[best.value]) else 0.0
  }

  /** At most one candidate is the best: the selection is determined by the scores. */
  lemma BestIsUnique(trained: seq<Trained>, evaluate: Model -> Metrics, n: nat, k: nat, k': nat)
    requires n <= |trained|
    requires IsBest(trained, evaluate, n, k) && IsBest(trained, evaluate, n, k')
    ensures k == k'
  {
  }

  /** The selected candidate is exactly the best one, and none exists exactly when no supervised F1 is positive. */
  lemma BestUpToExact(trained: seq<Trained>, evaluate: Model -> Metrics, n: nat, k: nat)
    requires n <= |trained|
    ensures BestUpTo(trained, evaluate, n) == Some(k) <==> IsBest(trained, evaluate, n, k)
  {
    var r := BestUpTo(trained, evaluate, n);
    if IsBest(trained, evaluate, n, k) {
      assert r.Some?;
      BestIsUnique(trained, evaluate, n, k, r.value);
    }
  }

  /** F1 ties keep the earlier candidate. */
  lemma TieKeepsEarlier(trained: seq<Trained>, evaluate: Model -> Metrics, i: nat, j: nat)
    requires i < j < |trained|
    requires Supervised(trained[i]) && Supervised(trained[j])
    requires F1(evaluate, trained[i]) == F1(evaluate, trained[j])
    ensures BestUpTo(trained, evaluate, |trained|) != Some(j)
  {
  }

  /** The isolation forest is never the selected model. */
  lemma IsolationNeverSelected(trained: seq<Trained>, evaluate: Model -> Metrics, k: nat)
    requires k < |trained| && trained[k].name == IsolationForestName
    ensures BestUpTo(trained, evaluate, |trained|) != Some(k)
  {
  }

  // ---------------------------------------------------------------------------
  // Recorded metrics
  // ---------------------------------------------------------------------------

  /** `model_metrics` after the first `n` candidates: every supervised one writes its entry. */
  function MetricsUpTo(metrics0: map<string, Metrics>, trained: seq<Trained>, evaluate: Model -> Metrics, n: nat): map<string, Metrics>
    requires n <= |trained|
  {
    if n == 0 then metrics0
    else
      var prev := MetricsUpTo(metrics0, trained, evaluate, n - 1);
      var t := trained[n - 1];
      if Supervised(t) then prev[t.name := evaluate(t.model)] else prev
  }

  /** The recorded names are the old ones and those of the supervised candidates. */
  lemma {:induction false} MetricsKeys(metrics0: map<string, Metrics>, trained: seq<Trained>, evaluate: Model -> Metrics, n: nat, name: string)
    requires n <= |trained|
    ensures name in MetricsUpTo(metrics0, trained, evaluate, n) <==>
      name in metrics0 || exists k :: 0 <= k < n && Supervised(trained[k]) && trained[k].name == name
  {
    if n > 0 {
      MetricsKeys(metrics0, trained, evaluate, n - 1, name);
    }
  }

  /** The entry of a supervised candidate holds its own metrics when no later candidate shares its name. */
  lemma {:induction false} MetricsOwnEntry(metrics0: map<string, Metrics>, trained: seq<Trained>, evaluate: Model -> Metrics, n: nat, k: nat)
    requires k < n <= |trained| && Supervised(trained[k])
    requires forall j :: k < j < n ==> trained[j].name != trained[k].name
    ensures trained[k].name in MetricsUpTo(metrics0, trained, evaluate, n)
    ensures MetricsUpTo(metrics0, trained, evaluate, n)[trained[k].name] == evaluate(trained[k].model)
  {
    if k < n - 1 {
      MetricsOwnEntry(metrics0, trained, evaluate, n - 1, k);
    }
  }

  /** An entry that no supervised candidate writes keeps its old value. */
  lemma {:induction false} MetricsUntouched(metrics0: map<string, Metrics>, trained: seq<Trained>, evaluate: Model -> Metrics, n: nat, name: string)
    requires n <= |trained| && name in metrics0
    requires forall k :: 0 <= k < n && Supervised(trained[k]) ==> trained[k].name != name
    ensures name in MetricsUpTo(metrics0, trained, evaluate, n)
    ensures MetricsUpTo(metrics0, trained, evaluate, n)[name] == metrics0[name]
  {
    if n > 0 {
      MetricsUntouched(metrics0, trained, evaluate, n - 1, name);
    }
  }

  /** One more candidate: the selection either moves to it or stays. */
  lemma BestStep(trained: seq<Trained>, evaluate: Model -> Metrics, i: nat)
    requires i < |trained|
    ensures var prev := BestUpTo(trained, evaluate, i);
      BestUpTo(trained, evaluate, i + 1) ==
        if Supervised(trained[i]) && F1(evaluate, trained[i]) > ScoreOf(trained, evaluate, prev) then Some(i) else prev
  {
  }

  lemma MetricsStep(metrics0: map<string, Metrics>, trained: seq<Trained>, evaluate: Model -> Metrics, i: nat)
    requires i < |trained|
    ensures var prev := MetricsUpTo(metrics0, trained, evaluate, i);
      MetricsUpTo(metrics0, trained, evaluate, i + 1) ==
        if Supervised(trained[i]) then prev[trained[i].name := evaluate(trained[i].model)] else prev
  {
  }

  // ---------------------------------------------------------------------------
  // The evaluation loop
  // ---------------------------------------------------------------------------

  /**
   * `_evaluate_models`: scores every candidate on the test split, records the
   * supervised ones' metrics over `metrics0`, and returns the selected model.
   */
  method EvaluateModels(trained: seq<Trained>, evaluate: Model -> Metrics, metrics0: map<string, Metrics>)
    returns (best: Option<Model>, metrics: map<string, Metrics>)
    ensures var k := BestUpTo(trained, evaluate, |trained|);
      best == if k.Some? then Some(trained[k.value].model) else None
    ensures metrics == MetricsUpTo(metrics0, trained, evaluate, |trained|)
  {
    best := None;
    var bestScore := 0.0;
    ghost var bestIndex: Option<nat> := None;
    metrics := metrics0;
    var i := 0;
    while i < |trained|
      invariant 0 <= i <= |trained|
      invariant bestIndex == BestUpTo(trained, evaluate, i)
      invariant bestScore == ScoreOf(trained, evaluate, bestIndex)
      invariant best == if bestIndex.Some? then Some(trained[bestIndex.value].model) else None
      invariant metrics == MetricsUpTo(metrics0, trained, evaluate, i)
    {
      var t := trained[i];
      BestStep(trained, evaluate, i);
      MetricsStep(metrics0, trained, evaluate, i);
      if t.name != IsolationForestName {
        var m := evaluate(t.model);
        metrics := metrics[t.name := m];
        if m.f1Score > bestScore {
          bestScore := m.f1Score;
          best := Some(t.model);
          bestIndex := Some(i);
        }
      }
      i := i + 1;
    }
  }

  /** On the three candidates: the forest wins unless boosting is strictly better; all-zero F1 selects nothing. */
  lemma CandidateSelection(trained: seq<Trained>, evaluate: Model -> Metrics)
    requires |trained| == 3
    requires trained[0].name == RandomForestName && trained[1].name == GradientBoostingName
    requires trained[2].name == IsolationForestName
    ensures var rf, gb := F1(evaluate, trained[0]), F1(evaluate, trained[1]);
      BestUpTo(trained, evaluate, 3) ==
        if rf <= 0.0 && gb <= 0.0 then None
        else if gb > rf then Some(1)
        else Some(0)
  {
  }

  /** On the three candidates the metrics gain exactly the two supervised entries. */
  lemma CandidateMetrics(trained: seq<Trained>, evaluate: Model -> Metrics)
    requires |trained| == 3
    requires trained[0].name == RandomForestName && trained[1].name == GradientBoostingName
    requires trained[2].name == IsolationForestName
    ensures MetricsUpTo(map[], trained, evaluate, 3) ==
      map[RandomForestName := evaluate(trained[0].model), GradientBoostingName := evaluate(trained[1].model)]
  {
    assert MetricsUpTo(map[], trained, evaluate, 0) == map[];
    var m1 := MetricsUpTo(map[], trained, evaluate, 1);
    assert m1 == map[RandomForestName := evaluate(trained[0].model)];
    var m2 := MetricsUpTo(map[], trained, evaluate, 2);
    assert m2 == m1[GradientBoostingName := evaluate(trained[1].model)];
  }

  /**
   * Training and selecting among the three candidates: nothing is selected when
   * neither classifier has a positive F1; otherwise the best classifier is, and
   * never the isolation forest.
   */
  lemma CandidatesSelected(learner: Learner, x: seq<seq<real>>, y: seq<int>, evaluate: Model -> Metrics)
    ensures var t := TrainedCandidates(learner, x, y);
      var k := BestUpTo(t, evaluate, |t|);
      && (k.None? <==> F1(evaluate, t[0]) <= 0.0 && F1(evaluate, t[1]) <= 0.0)
      && (k.Some? ==> k.value < 2 && IsBest(t, evaluate, 3, k.value) && t[k.value].model.kind != IsolationForest)
  {
    var t := TrainedCandidates(learner, x, y);
    TrainedNames(t, learner, x, y);
    IsolationNeverSelected(t, evaluate, 2);
  }

  /** The metrics after evaluating the three candidates: both classifiers' entries written, every other entry kept. */
  lemma CandidatesRecorded(metrics0: map<string, Metrics>, learner: Learner, x: seq<seq<real>>, y: seq<int>,
                           evaluate: Model -> Metrics, name: string)
    ensures var t := TrainedCandidates(learner, x, y);
      var m := MetricsUpTo(metrics0, t, evaluate, |t|);
      && RandomForestName in m && m[RandomForestName] == evaluate(t[0].model)
      && GradientBoostingName in m && m[GradientBoostingName] == evaluate(t[1].model)
      && (name != RandomForestName && name != GradientBoostingName ==>
            (name in m <==> name in metrics0) && (name in m ==> m[name] == metrics0[name]))
  {
    var t := TrainedCandidates(learner, x, y);
    TrainedNames(t, learner, x, y);
    MetricsOwnEntry(metrics0, t, evaluate, 3, 0);
    MetricsOwnEntry(metrics0, t, evaluate, 3, 1);
    MetricsKeys(metrics0, t, evaluate, 3, name);
    if name != RandomForestName && name != GradientBoostingName && name in metrics0 {
      MetricsUntouched(metrics0, t, evaluate, 3, name);
    }
  }
}
