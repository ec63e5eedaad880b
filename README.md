# AML risk engine, modelled in Dafny

This project models the risk engine of an anti-money-laundering compliance system. The model covers four parts:

- **Customer profiler**: builds one behavioural profile for every account that sends or receives money. Each profile adds up five capped factors into a risk score between 0 and 100, then classifies it HIGH, MEDIUM or LOW.
- **Anomaly detector**: flags single transactions. It uses two fixed statistical rules (an amount z-score above 3, and a time before 05:00 or after 22:00) together with the verdict of an isolation forest. The flags are combined into a composite flag and a 0-100 anomaly score.
- **ML predictor**:
  - engineers features, label-encodes the categorical columns and selects the numeric features;
  - trains three candidate models and keeps the best one by F1;
  - saves the model package to five files and loads it back;
  - scores new transactions with a "High Risk" or "Low Risk" label and a 0-100 score.
- **Orchestrator** (`AMLComplianceSystem`): a state machine. Loading a table creates the three components, and every public operation first checks that the step it depends on has run.

The learning and numerical library is a parameter of the model:

| library part | passed as |
|---|---|
| isolation-forest labels and scores | `DetectorOutputs` |
| amount z-scores | `DetectorOutputs` |
| `np.log1p` | part of `MLLibrary` |
| column statistics behind `StandardScaler` | part of `MLLibrary` |
| `train_test_split` | part of `MLLibrary` |
| classifier fitting | part of `MLLibrary` |
| test-split metrics | part of `MLLibrary` |
| `predict_proba` and `predict` | part of `MLLibrary` |

Everything the engine computes itself is modelled exactly:

- counting and summing;
- thresholds and flags;
- the `LabelEncoder` vocabulary (sorted distinct values) and `transform`, with its unseen-category fallback;
- `StandardScaler.transform` and its errors;
- feature-name selection;
- the selection loop;
- the load/save lifecycle of the five artifacts;
- the summary report.

The disk is a `ModelStore` object. It maps each directory to five slots, and each slot is missing, present but unreadable, or holds a value.

Modules, leaf first:

| module | contents |
|---|---|
| `Outcomes` | `Option`, `Result`, and the exceptions the engine raises itself |
| `Transactions` | the transaction record, the shared thresholds, counting and summing |
| `Columns`, `ColumnKinds`, `FeatureLayout` | the columns of the engineered frame, their dtypes, and the feature names `select_dtypes` keeps |
| `CustomerProfiling` | the profiler |
| `AnomalyDetection` | the detector |
| `MLFeatures` | feature engineering and label encoding |
| `Scaling` | the scaler |
| `ModelSelection` | the candidates and the selection loop |
| `Persistence` | the five artifacts and the disk |
| `MLPredictor` | the prediction frame, `predict_risk`, training, and the `Predictor` class |
| `AMLSystem` | the summary report and the `AMLComplianceSystem` class |

Five behaviours of the code that the model keeps:

- **No model when every F1 is 0.** `best_score` starts at 0 and only a strictly greater F1 replaces it, so `best_model` stays `None`. `train_compliance_model(save_model=True)` then raises "No model to save" (`src/modules/ml_predictor.py:154-187`, `205-206`). `ModelSelection.CandidateSelection` and `MLPredictor.Predictor.TrainComplianceModel` state this.
- **`is_weekend` is not a feature.** Feature engineering adds an `is_weekend` column, but `select_dtypes(include=[np.number])` drops the boolean `is_weekend` column, so the fifteen training features do not include it (`FeatureLayout.TrainingFeatureListFacts`).
- **Loading is not atomic.** `load_model_from_disk` assigns the fields one after another, so a failure part-way leaves the earlier fields replaced (`Persistence.LoadPartial`).
- **An unseen category zeroes the whole column.** At prediction time, one unseen category zeroes the encoded column for every row of the batch, not just that row's value (`MLFeatures.UnseenZeroesColumn`). Code 0 is also the code of the first known class.
- **A table without rows stops the analysis at profiling.** Its profile list is empty, so `pd.DataFrame(profile_list)` has no columns, and looking up `risk_classification` to display it raises a `KeyError` (`src/modules/customer_profiler.py:38-41`, `159`). The column-less frame is already stored, so a later profile lookup or summary report fails the same way (`CustomerProfiling.CustomerProfiler.AnalyzeCustomers`, `AMLSystem.AMLComplianceSystem.RunCompleteAnalysis`).

## Model

| member | source | states |
|---|---|---|
| Transactions.AllAccountsMembers | src/modules/customer_profiler.py:27 | an account is in the set of all accounts exactly when some row has it as sender or as receiver |
| CustomerProfiling.AccountTxnsNonEmpty | src/modules/customer_profiler.py:51-58 | the account's sent-plus-received rows are non-empty exactly when the account appears in the table, so no account of the set is ever dropped |
| CustomerProfiling.CreateProfile | src/modules/customer_profiler.py:51-79 | no profile exactly for an account with no transaction; otherwise the profile belongs to that account |
| CustomerProfiling.BuildProfileIsWellFormed | src/modules/customer_profiler.py:60-79 | total count = sent + received and total volume = sent + received volume (a self-transfer counts on both sides); every count is at most the number of rows; the rapid count stays below it |
| CustomerProfiling.ProfileIsWellFormed | src/modules/customer_profiler.py:51-79 | every profile produced from a table satisfies those invariants |
| CustomerProfiling.CountCrossBorder | src/modules/customer_profiler.py:81-85 | the cross-border count never exceeds the number of sent and received rows |
| CustomerProfiling.CrossBorderOverAll | src/modules/customer_profiler.py:81-85 | counting cross-border rows per side and adding equals counting them over all of the account's rows |
| CustomerProfiling.HighRiskIffLocation | src/modules/customer_profiler.py:87-91 | the high-risk count is positive exactly when some row of the account has AE-DXB or HK-HKG as sender or receiver location |
| CustomerProfiling.StructuringSplits | src/modules/customer_profiler.py:93-95 | the structuring count (amounts in [9000, 10000)) is the sent rows' count plus the received rows' count |
| CustomerProfiling.LargestDateGroup | src/modules/customer_profiler.py:101 | the result is the size of some date's group and no date's group is larger: the maximum of `groupby('Date').size()` |
| CustomerProfiling.CountRapid | src/modules/customer_profiler.py:97-101 | the rapid count of a non-empty account is below its number of rows (and never negative) |
| CustomerProfiling.RapidIffSharedDate | src/modules/customer_profiler.py:97-101 | with two or more rows, the rapid count is positive exactly when two rows fall on the same date |
| CustomerProfiling.RapidShowsSharedDate | src/modules/customer_profiler.py:97-101 | a positive rapid count exhibits two rows with the same date |
| CustomerProfiling.SharedDateShowsRapid | src/modules/customer_profiler.py:97-101 | two rows with the same date make the rapid count positive |
| CustomerProfiling.CountUniqueCounterparties | src/modules/customer_profiler.py:103-107 | the number of distinct counterparties never exceeds the number of the account's rows |
| CustomerProfiling.CounterpartyMembers | src/modules/customer_profiler.py:105-107 | a counterparty is exactly a receiver of a sent row or a sender of a received row |
| CustomerProfiling.Ratio | src/modules/customer_profiler.py:118 | the guarded ratio count / max(total, 1) is never negative |
| CustomerProfiling.RatioAtMostOne | src/modules/customer_profiler.py:118-119 | a count that does not exceed the total gives a ratio in [0, 1] |
| CustomerProfiling.AmountTier | src/modules/customer_profiler.py:122-125 | 20 above an average of 50000, 10 above 20000 up to 50000, 0 otherwise |
| CustomerProfiling.HighRiskFactor | src/modules/customer_profiler.py:132 | the factor lies in [0, 15] and is five points per row up to three rows |
| CustomerProfiling.StructuringFactor | src/modules/customer_profiler.py:135 | the factor lies in [0, 15]: 0 without structuring rows, at least 10 with one |
| CustomerProfiling.RiskScore | src/modules/customer_profiler.py:115-138 | the score lies in [0, 100] and never exceeds the uncapped factor sum |
| CustomerProfiling.RiskCapNeverBinds | src/modules/customer_profiler.py:117-138 | for a profile built from a table the five factors add up to at most 100, so the cap at 100 never changes the score |
| CustomerProfiling.StructuringRaisesScore | src/modules/customer_profiler.py:135-138 | of two profiles that differ only in structuring, the one with at least one structuring row scores at least 10 more |
| CustomerProfiling.Classify | src/modules/customer_profiler.py:141-146 | HIGH exactly from 70, MEDIUM exactly on [40, 70), LOW exactly below 40 |
| CustomerProfiling.ClassificationBoundaries | src/modules/customer_profiler.py:141-146 | 70 is HIGH and 69.999 MEDIUM; 40 is MEDIUM and 39.999 LOW |
| CustomerProfiling.CalculateRiskScores | src/modules/customer_profiler.py:109-152 | the loop produces one scored row per profile, in order, each row the profile with its score and class |
| CustomerProfiling.CollectStep | src/modules/customer_profiler.py:29-32 | one pass of the account loop keeps the loop invariant: visited and remaining accounts partition the set, and each visited account has exactly one profile |
| CustomerProfiling.CollectProfiles | src/modules/customer_profiler.py:27-32 | the loop collects exactly one profile per active account, each the account's own profile |
| CustomerProfiling.ScoringKeepsTable | src/modules/customer_profiler.py:35-38 | scoring that list gives the profile table: distinct accounts, exactly the active ones, each row its account's scored profile |
| CustomerProfiling.ProfileTableSize | src/modules/customer_profiler.py:27-38 | a profile table has as many rows as there are distinct accounts |
| CustomerProfiling.ProfileTableEmpty | src/modules/customer_profiler.py:27-38 | a profile table is empty exactly when the transaction table is |
| CustomerProfiling.ProfileTableLookup | src/modules/customer_profiler.py:27-38 | no account has two rows in a profile table |
| CustomerProfiling.CustomerProfiler.constructor | src/modules/customer_profiler.py:16-18 | the profiler holds the table and no profiles |
| CustomerProfiling.CustomerProfiler.AnalyzeCustomers | src/modules/customer_profiler.py:20-49 | the stored table is the profile table of the profiler's frame; it fails with `NoProfileColumns` exactly on a table without rows (the empty, column-less profile frame is stored first), and otherwise returns the stored table |
| AnomalyDetection.TimeMinutes | src/modules/anomaly_detector.py:117-118 | minutes since midnight lie in [0, 1439] and give back the hour and the minute |
| AnomalyDetection.TimeAnomalyByHour | src/modules/anomaly_detector.py:117-120 | the minute rule read on the clock: any time in hours 0-4, 22:01-22:59 or hour 23 |
| AnomalyDetection.TimeAnomalyExamples | src/modules/anomaly_detector.py:119-120 | 02:30 is anomalous; 22:00 and 05:00 exactly are not, 22:01 and 04:59 are |
| AnomalyDetection.StatisticalFlag | src/modules/anomaly_detector.py:113-125 | the 0/1 flag is 1 exactly when the absolute z-score exceeds 3 or the time rule fires |
| AnomalyDetection.IsolationFlag | src/modules/anomaly_detector.py:100 | the 0/1 flag is 1 exactly for forest label -1 |
| AnomalyDetection.IsolationDetection | src/modules/anomaly_detector.py:98-101 | one row per transaction, in order, carrying the isolation flag and the raw score |
| AnomalyDetection.StatisticalDetection | src/modules/anomaly_detector.py:110-126 | one row per transaction, in order, carrying the absolute z-score and the statistical flag |
| AnomalyDetection.AnomalyRiskScore | src/modules/anomaly_detector.py:142-146 | the score lies in [0, 100], is at least 30 when either flag is set, at least 50 with the isolation flag, at most 20 with neither |
| AnomalyDetection.CombineRow | src/modules/anomaly_detector.py:133-146 | the row keeps both methods' columns, the composite flag is their OR, and the score bounds follow the composite flag |
| AnomalyDetection.CombineAnomalyResults | src/modules/anomaly_detector.py:131-148 | row i of the combined frame combines row i of both frames |
| AnomalyDetection.DetectRows | src/modules/anomaly_detector.py:24-41 | the combined frame has one row per transaction, in order; a row is anomalous exactly when the forest says -1, the absolute z-score exceeds 3, or the time rule fires |
| AnomalyDetection.DetectCompositeIsOr | src/modules/anomaly_detector.py:138-139 | every row of the detector's result has composite = isolation OR statistical |
| AnomalyDetection.CompositeCountBounds | src/modules/anomaly_detector.py:138-139 | the number of composite anomalies is at least each method's count and at most their sum |
| AnomalyDetection.AnomalyDetector.constructor | src/modules/anomaly_detector.py:19-21 | the detector holds the table and no anomalies |
| AnomalyDetection.AnomalyDetector.DetectAnomalies | src/modules/anomaly_detector.py:24-52 | the stored and returned frame is the combined detection over the detector's table |
| MLFeatures.EngineerRow | src/modules/ml_predictor.py:102-121 | hour of the time; weekend exactly for weekday >= 5; night exactly for hour >= 22 or <= 5; round exactly for multiples of 1000; structuring exactly on [9000, 10000); cross-border and currency mismatch exactly when the two sides differ; both frequencies between 1 and the batch size |
| MLFeatures.RoundAmountIsMultiple | src/modules/ml_predictor.py:111 | an amount flagged round is 1000 times an integer |
| MLFeatures.RoundAmountMultiples | src/modules/ml_predictor.py:111 | every integer multiple of 1000 is flagged round |
| MLFeatures.EngineerFeatures | src/modules/ml_predictor.py:102-121 | one engineered row per input row, in order, each keeping its transaction |
| MLFeatures.FrequencyCounts | src/modules/ml_predictor.py:119-120 | the sender (receiver) frequency is the number of rows of the batch with that sender (receiver), equal across rows sharing it |
| MLFeatures.SenderFrequencyOne | src/modules/ml_predictor.py:119 | a sender frequency of 1 means no other row has that sender, and conversely |
| MLFeatures.TimeAnomalyIsNight | src/modules/ml_predictor.py:107 | every time the detector's minute rule flags lies in the predictor's night window |
| MLFeatures.NightRulesDiffer | src/modules/ml_predictor.py:107 | 05:30 and 22:00 are night for the predictor but no anomaly for the detector |
| MLFeatures.Encode | src/modules/ml_predictor.py:311 | a code is returned exactly for a known class, and it is that class's position |
| MLFeatures.EncodeDecode | src/modules/ml_predictor.py:311 | decoding undoes encoding; on distinct classes encoding undoes decoding |
| MLFeatures.EncodeColumn | src/modules/ml_predictor.py:310-316 | with every value known, each row gets its own value's code; with one unknown, every row gets 0 |
| MLFeatures.UnseenZeroesColumn | src/modules/ml_predictor.py:313-316 | one unseen value sets the encoded column to 0 in every row |
| MLFeatures.FitEncoder | src/modules/ml_predictor.py:78-79 | the fitted vocabulary is sorted and holds exactly the column's values |
| MLFeatures.InsertSorted | src/modules/ml_predictor.py:78-79 | inserting a value keeps the vocabulary sorted |
| MLFeatures.SortedDistinct | src/modules/ml_predictor.py:78-79 | a sorted vocabulary has no class twice |
| MLFeatures.StrLtTransitive | src/modules/ml_predictor.py:78-79 | Python's string order is transitive |
| MLFeatures.StrLtTotal | src/modules/ml_predictor.py:78-79 | two different strings are ordered one way or the other |
| MLFeatures.FitTransformExact | src/modules/ml_predictor.py:79 | `fit_transform` of a column: every value is known, each code decodes to its own value, and two rows get the same code exactly when their values agree |
| MLFeatures.KnownCategoriesEncoded | src/modules/ml_predictor.py:308-312 | a batch whose categories all occurred in training is encoded exactly, with no fallback |
| MLFeatures.FittedRoundTrip | src/modules/ml_predictor.py:78-79 | on a fitted encoder, encoding then decoding and decoding then encoding are the identity |
| MLFeatures.RowValueDefined | src/modules/ml_predictor.py:84 | a row has a number for exactly the numeric and boolean columns of the engineered frame |
| Columns.FeatureNamesSound | src/modules/ml_predictor.py:84-89 | a name is a feature exactly when it is a numeric column of the frame other than the target `Is_laundering` |
| Columns.EncodeStepFeatures | src/modules/ml_predictor.py:79-81 | one encoding step appends the `_encoded` name at the end of the feature names |
| Columns.EncodeLayoutFeatures | src/modules/ml_predictor.py:76-89 | encoding every categorical column appends their `_encoded` names, in the order of the list, to the feature names |
| Columns.EncodeLayoutMembers | src/modules/ml_predictor.py:76-81 | every column after encoding was there before or is the numeric encoding of an encoded category |
| FeatureLayout.SourceFeatureNames | src/modules/ml_predictor.py:84-89 | of the twelve source columns only Amount is a feature |
| FeatureLayout.AddedFeatureNames | src/modules/ml_predictor.py:84-89 | of the ten engineered columns all but the boolean `is_weekend` are features |
| FeatureLayout.CategoricalEncodable | src/modules/ml_predictor.py:73-77 | every categorical column is a text column of the engineered frame, so the encoding loop handles each of them |
| FeatureLayout.TrainingFeatureNamesValue | src/modules/ml_predictor.py:76-89 | with every categorical column encoded, the features are the fifteen-name training list, in order |
| FeatureLayout.TrainingFeatureListFacts | src/modules/ml_predictor.py:84-89 | fifteen features, among them neither `is_weekend` nor the target |
| ColumnKinds.EngineeredColumnKind | src/modules/ml_predictor.py:102-120 | every engineered column has the dtype its name fixes, and no name occurs with two dtypes |
| Scaling.Fit | src/modules/ml_predictor.py:96 | the fitted scaler records the feature names and one statistic per column, estimated from that column |
| Scaling.StandardiseRoundTrip | src/modules/ml_predictor.py:96-97 | standardising and unstandardising undo each other |
| Scaling.StandardiseMonotone | src/modules/ml_predictor.py:96-97 | standardising preserves order and maps the mean to 0 |
| Scaling.ScaleRowRoundTrip | src/modules/ml_predictor.py:96-97 | scaling a row and unscaling it, in either order, gives the row back |
| Scaling.FirstTextColumn | src/modules/ml_predictor.py:320 | a reported column holds text in some row; none is reported only when every cell of the columns is a number |
| Scaling.Transform | src/modules/ml_predictor.py:320 | an unfitted scaler, other feature names, an empty batch or a text column each raise their own error; otherwise every row is standardised and unscaling recovers it |
| ModelSelection.TrainCandidate | src/modules/ml_predictor.py:136-146 | the isolation forest is fitted on X alone and the classifiers on (X, y), each under its own name |
| ModelSelection.TrainMultipleModels | src/modules/ml_predictor.py:124-148 | the loop trains the three candidates in dict order on the same split |
| ModelSelection.TrainedNames | src/modules/ml_predictor.py:128-132 | the candidates are random forest, gradient boosting and the isolation forest, and only the first two are evaluated as classifiers |
| ModelSelection.BestUpTo | src/modules/ml_predictor.py:154-187 | nothing is selected exactly when no supervised F1 is positive; a selected candidate is supervised, beats 0 and every earlier F1 strictly, and no F1 beats it |
| ModelSelection.BestIsUnique | src/modules/ml_predictor.py:185-187 | at most one candidate satisfies the selection condition |
| ModelSelection.BestUpToExact | src/modules/ml_predictor.py:154-187 | the selection is exactly the candidate satisfying the condition, in both directions |
| ModelSelection.TieKeepsEarlier | src/modules/ml_predictor.py:185 | of two supervised candidates with equal F1 the later is never selected |
| ModelSelection.IsolationNeverSelected | src/modules/ml_predictor.py:158-162 | the isolation forest is never selected |
| ModelSelection.MetricsKeys | src/modules/ml_predictor.py:176-182 | the recorded names are the earlier ones plus those of the supervised candidates, never the isolation forest's |
| ModelSelection.MetricsOwnEntry | src/modules/ml_predictor.py:176-182 | a supervised candidate's entry holds its own metrics |
| ModelSelection.MetricsUntouched | src/modules/ml_predictor.py:176-182 | an entry no candidate writes keeps its earlier value |
| ModelSelection.EvaluateModels | src/modules/ml_predictor.py:150-190 | the loop returns the selected candidate's model (or none) and leaves the metrics as specified |
| ModelSelection.CandidateSelection | src/modules/ml_predictor.py:154-187 | on the three candidates: none when both F1 are at most 0; gradient boosting only when strictly better than the forest; the random forest otherwise |
| ModelSelection.CandidateMetrics | src/modules/ml_predictor.py:176-182 | from empty metrics, training records exactly the two classifiers' entries |
| ModelSelection.CandidatesSelected | src/modules/ml_predictor.py:44-47 | after training the three candidates, nothing is selected exactly when neither classifier has a positive F1, and the selection is never the isolation forest |
| ModelSelection.CandidatesRecorded | src/modules/ml_predictor.py:176-182 | after training, both classifiers' entries are written and every other entry is kept |
| MLPredictor.FeatureFrame | src/modules/ml_predictor.py:319 | one row per transaction and one cell per requested name, each cell the row's value in that column |
| MLPredictor.FirstMissing | src/modules/ml_predictor.py:319 | the reported name is the first requested name the frame lacks, and none is reported exactly when all are present |
| MLPredictor.SelectFeatures | src/modules/ml_predictor.py:319 | selection fails exactly when a requested feature is not a column of the frame, naming such a column; otherwise it is the frame of those columns, in the requested order |
| MLPredictor.TrainingEncoders | src/modules/ml_predictor.py:76-80 | after the encoding loop every categorical column has an encoder fitted on that column, and every other encoder is kept |
| MLPredictor.FitEncodersEntries | src/modules/ml_predictor.py:76-80 | fitting replaces the encoders of the listed columns and keeps all others |
| MLPredictor.EncodeLoopStep | src/modules/ml_predictor.py:76-81 | each pass of the encoding loop finds its column in the frame and leaves the rest encodable |
| MLPredictor.Labels | src/modules/ml_predictor.py:93 | the target is 1 exactly for laundering rows and 0 exactly for the others |
| MLPredictor.FeatureMatrixCells | src/modules/ml_predictor.py:92 | each entry of X is the number in the same cell of the selected feature columns |
| MLPredictor.FitScaler | src/modules/ml_predictor.py:96 | the scaler is fitted on the feature names, one statistic per column of X |
| MLPredictor.ScaleRows | src/modules/ml_predictor.py:96 | row i of the scaled matrix standardises row i of X |
| MLPredictor.FeatureFrameNumeric | src/modules/ml_predictor.py:84-92 | the feature columns hold numbers in every row |
| MLPredictor.FeatureNamesPresent | src/modules/ml_predictor.py:89-92 | every feature name is a column of the frame, so selecting the training features cannot fail |
| MLPredictor.LayoutCellKind | src/modules/ml_predictor.py:308-320 | in any encoded frame a column holds numbers exactly when it is not a text column |
| MLPredictor.TrainedLayout | src/modules/ml_predictor.py:62-100 | training stores the fifteen training features, a scaler fitted on them, and an encoder fitted per categorical column, keeping other encoders |
| MLPredictor.TrainingRowsRecoverable | src/modules/ml_predictor.py:92-97 | each scaled training row unscales to the row of X, which holds the numbers of the selected feature columns |
| MLPredictor.TrainedModel | src/modules/ml_predictor.py:37-50 | the stored model is the best supervised candidate on the test split, none exactly when no classifier has a positive F1, and never the isolation forest |
| MLPredictor.TrainedMetrics | src/modules/ml_predictor.py:176-182 | training records both classifiers' metrics and keeps every other entry |
| MLPredictor.Predict | src/modules/ml_predictor.py:290-330 | `ModelNotTrained` exactly without a model; an empty batch fails; a prediction has probability in [0, 1] and score = probability x 100 in [0, 100] |
| MLPredictor.PredictLabel | src/modules/ml_predictor.py:319-328 | the probability and the label are the model's class-1 probability and class for the first scaled row, "High Risk" exactly for class 1 |
| MLPredictor.PredictSucceeds | src/modules/ml_predictor.py:292-329 | a prediction is returned exactly when a classifier is held, every feature column exists, the scaler was fitted on those names, the batch is non-empty and the features are numeric |
| MLPredictor.UnseenCategoryIsZero | src/modules/ml_predictor.py:313-316 | one unseen category sets that encoded feature to 0 in every row of the prediction frame |
| MLPredictor.KnownCategoryIsCoded | src/modules/ml_predictor.py:308-312 | with every value known, each row holds the code of its own category |
| MLPredictor.TrainThenPredict | src/modules/ml_predictor.py:290-330 | right after training with a model, every non-empty batch is scored, whatever its categories |
| MLPredictor.Predictor.constructor | src/modules/ml_predictor.py:22-28 | no model, an unfitted scaler, and empty encoders, names and metrics |
| MLPredictor.Predictor.EncodeCategoricals | src/modules/ml_predictor.py:73-81 | the encoders become the training encoders and the frame's layout is the encoded one; nothing else changes |
| MLPredictor.Predictor.EncodeEach | src/modules/ml_predictor.py:76-81 | the loop fits one encoder per listed column, in order, and drops each encoded column |
| MLPredictor.Predictor.PrepareFeatures | src/modules/ml_predictor.py:62-100 | the returned features and the new scaler, encoders and names are those of the preparation specification |
| MLPredictor.Predictor.SelectAndScale | src/modules/ml_predictor.py:84-97 | the features are the numeric columns of the encoded frame and the scaler is fitted on them |
| MLPredictor.Predictor.SelectModel | src/modules/ml_predictor.py:40-50 | the state after splitting, training and selecting is the selection specification |
| MLPredictor.Predictor.TrainAndSelect | src/modules/ml_predictor.py:37-50 | the new state is the training specification, whose properties `TrainedModel`, `TrainedMetrics` and `TrainedLayout` state |
| MLPredictor.Predictor.TrainComplianceModel | src/modules/ml_predictor.py:30-60 | trains as specified; with saving asked and no model it raises `NoModelToSave` and writes nothing; with a model it writes the five files |
| MLPredictor.Predictor.SaveModelToDisk | src/modules/ml_predictor.py:203-244 | raises `NoModelToSave` without a model and writes nothing; otherwise writes the five files into that directory only |
| MLPredictor.Predictor.LoadModelFromDisk | src/modules/ml_predictor.py:246-283 | the new state and the answer are those of loading the directory's files in order |
| MLPredictor.Predictor.ModelExists | src/modules/ml_predictor.py:285-288 | true exactly when the model file is there, loadable or not |
| MLPredictor.Predictor.PredictRisk | src/modules/ml_predictor.py:290-330 | the answer is the prediction specification on the current state; `ModelNotTrained` exactly without a model |
| Persistence.SavedDir | src/modules/ml_predictor.py:214-237 | the five files hold the model, scaler, encoders, feature names, and metadata with the metrics, the timestamp and the feature count |
| Persistence.SavedFeatureCount | src/modules/ml_predictor.py:234 | the metadata's feature count equals the number of saved feature names |
| Persistence.LoadSucceedsIffComplete | src/modules/ml_predictor.py:248-283 | loading reports success exactly when all five files load, whatever the earlier state |
| Persistence.LoadComplete | src/modules/ml_predictor.py:249-275 | a successful load replaces the whole state with the files' contents |
| Persistence.LoadWithoutModel | src/modules/ml_predictor.py:248-283 | without a loadable model file the state is unchanged and the answer is false |
| Persistence.LoadPartial | src/modules/ml_predictor.py:248-283 | a model that loads followed by a scaler that does not leaves the new model in place and answers false |
| Persistence.LoadAfterSave | src/modules/ml_predictor.py:203-275 | loading what was saved restores the saved state exactly and answers true, from any earlier state |
| Persistence.ModelStore.ModelExists | src/modules/ml_predictor.py:287-288 | the model file exists in a directory exactly when its slot is not missing |
| Persistence.ModelStore.WriteDir | src/modules/ml_predictor.py:209-237 | the written directory is the one found at `path`, its model file exists exactly when the written one holds one, and every other directory keeps its contents |
| Persistence.SaveThenExists | src/modules/ml_predictor.py:203-237 | after saving, the directory holds the saved files, so its model file exists, and every other directory keeps its contents |
| AMLSystem.FirstRowOf | src/aml_system.py:150-157 | the first row whose account matches, or none exactly when no row matches |
| AMLSystem.Lookup | src/aml_system.py:150-157 | the not-found answer is the message with the account appended |
| AMLSystem.LookupInTable | src/aml_system.py:145-157 | on a profile table an account is found exactly when it is active, and the row found is its own scored profile |
| AMLSystem.EarliestDate | src/aml_system.py:178 | the earliest date occurs in the table and precedes or equals every date |
| AMLSystem.LatestDate | src/aml_system.py:178 | the latest date occurs in the table and follows or equals every date |
| AMLSystem.ClassCounts | src/aml_system.py:186-190 | the three class counts of a profile table add up to its number of rows |
| AMLSystem.ClassCountsPartition | src/aml_system.py:186-190 | every profile is counted in exactly one of the three classes |
| AMLSystem.Percentage | src/aml_system.py:177 | the suspicion rate lies in [0, 100] and is that percentage of the rows |
| AMLSystem.MeanBetween | src/aml_system.py:181 | a total between n times lo and n times hi has its mean between lo and hi |
| AMLSystem.MeanAmountWithinRange | src/aml_system.py:181 | the average amount lies between the smallest and the largest amount |
| AMLSystem.SummaryOf | src/aml_system.py:174-190 | totals; the suspicious count is the number of laundering rows, at most the total and 0 exactly without them; rate, date range and average exactly for a non-empty table, the rate a percentage, the range the earliest and the latest date (both occur and bound every date), the average a mean between the extremes; unique accounts = the size of senders U receivers, at most twice the rows; class counts exactly once profiled, adding up to the number of profiles |
| AMLSystem.RiskCountsOf | src/aml_system.py:184-190 | class counts are present exactly once profiling ran, adding up to the number of profiles |
| AMLSystem.ClassCountsCoverAccounts | src/aml_system.py:179-190 | after profiling, high + medium + low = unique accounts |
| AMLSystem.AMLComplianceSystem.constructor | src/aml_system.py:27-35 | the path is kept; no table and no component |
| AMLSystem.AMLComplianceSystem.LoadData | src/aml_system.py:49-65 | a non-empty path replaces the stored one; fresh components share the loaded table; no profiles, anomalies or model yet |
| AMLSystem.AMLComplianceSystem.RunCompleteAnalysis | src/aml_system.py:67-114 | `DataNotLoaded` without a table; the profile table is stored; on a table without rows it fails with `NoProfileColumns` with the detector, the predictor and the disk untouched; otherwise the detection is stored, then the saved model is used when all five files load and a new one is trained and saved otherwise, failing with `NoModelToSave` when training selects nothing |
| AMLSystem.AMLComplianceSystem.ObtainModel | src/aml_system.py:86-91 | a complete load keeps the loaded state and writes nothing; otherwise training as specified from the partially loaded state, saving to the default directory |
| AMLSystem.AMLComplianceSystem.PredictComplianceRisk | src/aml_system.py:116-121 | `ModelNotTrained` exactly without a predictor or a model; otherwise the predictor's own answer |
| AMLSystem.AMLComplianceSystem.TrainNewModel | src/aml_system.py:123-129 | `PredictorNotInitialized` without a predictor; otherwise training with the requested saving |
| AMLSystem.AMLComplianceSystem.LoadSavedModel | src/aml_system.py:131-136 | `PredictorNotInitialized` without a predictor; otherwise the load's answer and state |
| AMLSystem.AMLComplianceSystem.SaveCurrentModel | src/aml_system.py:138-143 | `NoModelToSave` without a predictor or a model; otherwise the five files are written to the directory |
| AMLSystem.AMLComplianceSystem.GetCustomerRiskProfile | src/aml_system.py:145-157 | `ProfilingNotCompleted` before profiling; `NoProfileColumns` exactly when the profiled table had no rows; otherwise found exactly for an active account, with its own scored profile, and the not-found message for any other |
| AMLSystem.AMLComplianceSystem.DetectTransactionAnomalies | src/aml_system.py:159-167 | `DetectorNotInitialized` without a detector; otherwise the placeholder status |
| AMLSystem.AMLComplianceSystem.GenerateSummaryReport | src/aml_system.py:169-192 | `NoDataForSummary` without a table; after profiling a table without rows, `NoProfileColumns`; otherwise the summary of the table, whose class counts add up to the unique accounts once profiled |

## Left out

- Console output, the CSV files written when `save_results` is set, and feature-importance printing (`src/modules/ml_predictor.py:192-201`): output only. The one effect the profiling display has, its `KeyError` on the column-less profile frame of a table without rows, is modelled as `NoProfileColumns`.
- Steps 4 and 5 of `run_complete_analysis`, the visualizer and its dashboard and report: chart rendering. The visualizer and data-manager fields of the orchestrator are not modelled. `src/modules/visualizer.py` is not part of this model.
- Reading the table (`DataManager.load_data`): the reader is a parameter of `LoadData`. `src/modules/data_manager.py` is not part of this model.
- The isolation forest, its feature preparation (`_prepare_features`, which only feeds the forest) and the pandas z-score: their outputs are the parameter `DetectorOutputs`. The `anomaly_scores` field is never assigned after construction and is not modelled.
- `LabelEncoder.fit` beyond its vocabulary, `StandardScaler` statistics, `train_test_split` (including `stratify` and `random_state`), model fitting, `cross_val_score` (printed only), the metrics, `predict_proba`/`predict` and `np.log1p`: foreign library calls, passed as the parameter `MLLibrary`.
- Exceptions raised inside the library on degenerate data (a single-class split, an empty table given to a fit): not modelled. Only the engine's own errors, the feature-selection `KeyError` and the scaler's `transform` errors are modelled.
- Floating point: amounts, ratios and scores are exact reals. `0.1`-style rounding, NaN and infinity are not modelled. The mean, the rate and the date range of an empty table (NaN in pandas, printed as `nan to nan` for the range) are modelled as absent values.
- joblib serialisation, compression and file paths: a directory is five typed slots. Any exception while loading is one "unreadable" state. The timestamp of `save_model_to_disk` is a parameter.
- The iteration order of Python's account set: `CollectProfiles` promises a profile table in no particular order, which is all the source fixes.
- `predict_risk` with a dict or a frame lacking some of the twelve source columns: a batch is a sequence of complete transaction records, so a missing source column (a `KeyError` in feature engineering) is not modelled.
- Account identifiers are strings, as in the generated data. A numeric account column would itself become a feature and is not modelled.
- Where several errors could apply at once, only the order in which the source's steps run is modelled (the model check comes first, then selection, then scaling).
- MLFeatures.EngineerRow: `log_amount` is the given `log1p` of the amount, so no fact about its value is stated.
- Transactions.Weekday: states only that the weekday lies in 0..6. The Gregorian computation is its body, and dates are assumed valid calendar dates.
