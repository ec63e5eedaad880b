/** Option and Result values, and the exceptions the risk engine raises itself. */
module Outcomes {
  import opened Columns

  datatype Option<+T> = None | Some(value: T)

  /** The ValueErrors (and lookups) the orchestrator and the predictor raise with their own messages. */
  datatype Error =
    | DataNotLoaded            // the full analysis asked for before any table was loaded
    | NoDataForSummary         // the summary report asked for before any table was loaded
    | ModelNotTrained          // a prediction asked of a predictor without a model
    | PredictorNotInitialized  // training or loading asked for before the predictor exists
    | DetectorNotInitialized   // anomaly detection asked for before the detector exists
    | NoModelToSave            // saving asked for while no model is held
    | ProfilingNotCompleted    // a profile lookup asked for before profiling ran
    | NoProfileColumns         // a column of the profile frame of a table without accounts, which has no columns (KeyError)
    | MissingFeature(column: ColumnName)    // selecting a feature column the frame does not hold (KeyError)
    | ScalerNotFitted                       // StandardScaler.transform before fit (NotFittedError)
    | FeatureNamesMismatch                  // the scaler was fitted on other feature names (ValueError)
    | EmptyBatch                            // a prediction frame with no rows (ValueError)
    | NonNumericFeature(column: ColumnName) // a text column handed to the scaler (ValueError)
    | NoProbabilities                       // the stored model has no predict_proba (an isolation forest)

  datatype Result<+T> = Success(value: T) | Failure(error: Error) {
    predicate IsFailure() { Failure? }
    function PropagateFailure<U>(): Result<U>
      requires Failure?
    {
      Failure(error)
    }
    function Extract(): T
      requires Success?
    {
      value
    }
  }
}
