# Self-improving classifier: a Dafny model of the feedback loop

This project models the control core of a small self-improving classification
pipeline and proves properties of that model. The pipeline trains a
logistic-regression base model on synthetic data. A critic judges each
prediction by the Shannon entropy of its class probabilities. Test samples
that are misclassified or judged low quality go into a feedback buffer.
Once the buffer holds enough samples, the model is retrained on the
canonical data plus the buffer, and the buffer is emptied.

Modules, one per source file, plus `Sorting` for the ordering facts the two margin versions share; `Wrappers` holds the `Option`, `Result` and `Outcome` datatypes and `Configuration` the configuration record:

- `Uncertainty` (`uncertainty.dfy`) models the Python entropy and margin
  measures. Entropy clips each probability to [1e-15, 1] and sums
  -p·log2 p per row. Margin sorts each row ascending and subtracts the
  second-to-last entry from the last. The base-2 logarithm is a parameter
  `log2`; lemmas that need its values state them as hypotheses.
- `Sorting` (`sorting.dfy`) holds the facts both margin versions rely on:
  the ascending sort as a function, the uniqueness of an ascending order,
  and the largest and second-largest entries of a row.
- `RustUncertainty` (`uncertainty_rs.dfy`) models the Rust twin. It splits
  a flat slice into chunks of `num_classes` values. Entropy skips entries
  that are not positive instead of clipping them. Margin copies each chunk
  into an array, sorts it in place in descending order, and subtracts; a
  single-value chunk returns its value.
- `CriticModel` (`critic_model.dfy`) models the quality gate. The entropy
  threshold is `1.0 - critic_threshold`, and a row passes when its entropy
  does not exceed it.
- `BaseModels` (`base_model.dfy`) models `BaseModel` as a class. It holds
  the classifier field and a `Disk` whose `files` map stands for the file
  system. Its methods are proved against value-level transition functions
  (`Trained`, `Saved`, `Loaded`, `Predictions`, `Probabilities`).
- `Retraining` (`retrainer.dfy`) models `np.vstack`/`np.hstack` as
  `Combine`, and `Retrainer.Retrain` as combine, then train, then save.
- `FeedbackLoop` (`feedback_loop.dfy`) holds the value-level specification
  `Run` of the whole script, and the script itself as `RunFeedbackLoop`.
  That method has the outer iteration loop; `CollectFeedback` has the inner
  per-sample loop. It is proved to end with the disk, reports and fault
  that `Run` describes.

The classifier is opaque. A trained classifier is the record of its
constructor arguments and the data it was fitted on. Its `predict` and
`predict_proba` behaviour is a pair of function values, the `Learner`. The
data generator (`make_classification` over the data section of the
configuration) and the train/test split are function parameters too, so the
same configuration always yields the same dataset and the same test set.

Where the code and its comments disagree, the model follows the code. The
comment at models/critic_model.py:10 describes the entropy threshold as
`H_max · (1 - t)`, where `H_max` is the maximal entropy, log2 of the
number of classes. The code fixes `H_max` at 1.0, the binary value, for any
number of classes, and so does the model (`ThresholdIgnoresClassCount`).
A critic_threshold of 0.86 gives an entropy threshold of 0.14. The row
(0.98, 0.02) has entropy of about 0.1414, so it is flagged low quality
(`ThresholdPoint86RejectsSkewedRow`). The regression test's expectation
holds for thresholds up to 0.85 (`RegressionCritic`).

## Model

| member | source | states |
|---|---|---|
| Uncertainty.Clip | models/uncertainty.py:23 | a clipped probability lies in [1e-15, 1.0]; a value already there is unchanged; values below go to 1e-15 and values above go to 1.0 |
| Uncertainty.ClipRow | models/uncertainty.py:23 | np.clip applied entry by entry: same length, entry i is Clip of entry i |
| Uncertainty.ClipRowInRange | models/uncertainty.py:23 | after clipping, every entry of a row lies in [1e-15, 1.0] |
| Uncertainty.ClipRowIdentity | models/uncertainty.py:23 | clipping leaves a row whose entries already lie in [1e-15, 1.0] unchanged |
| Uncertainty.RowEntropy | models/uncertainty.py:23-24 | the entropy of one row: minus the sum of p·log2 p over the clipped entries; its bounds and special values are the lemmas below |
| Uncertainty.ShannonEntropy | models/uncertainty.py:23-25 | one entropy per input row: the negated sum of p·log2 p over that row's clipped entries |
| Uncertainty.BinaryEntropy | models/uncertainty.py:10-24 | for a row (p, 1-p) with both entries at least 1e-15, entropy equals the docstring's binary formula -[p log2 p + (1-p) log2(1-p)] |
| Uncertainty.UniformEntropy | models/uncertainty.py:23-24 | k equal entries 1/k (k up to 10^15) have entropy -log2(1/k) |
| Uncertainty.EntropyNonNegative | models/uncertainty.py:23-24 | entropy is never negative for any log2 that is non-positive on (0, 1] |
| Uncertainty.CertainBinaryEntropy | models/uncertainty.py:23-24 | because of clipping, the certain row (1, 0) has entropy -(1e-15·log2 1e-15), not exactly 0 |
| Uncertainty.UniformBinaryEntropy | models/uncertainty.py:23-24 | the row (0.5, 0.5) has entropy exactly 1 when log2(0.5) = -1 |
| Uncertainty.RowMargin | models/uncertainty.py:32-33 | the last entry minus the second-to-last of the ascending sort is the largest entry minus the second-largest, and is never negative |
| Uncertainty.MarginZeroIff | models/uncertainty.py:32-33 | the margin is 0 exactly when the largest value occurs at least twice in the row |
| Uncertainty.MarginOrderIndependent | models/uncertainty.py:32 | rows that are permutations of each other have the same margin |
| Uncertainty.MarginUncertainty | models/uncertainty.py:32-34 | fails (IndexError) exactly when rows have fewer than two columns; otherwise one value per row, the largest entry minus the second-largest, never negative |
| Sorting.SortAscending | models/uncertainty.py:32 | np.sort of a row is ascending and a permutation of the row |
| Sorting.AscendingUnique | models/uncertainty.py:32 | two ascending permutations of the same row are equal, so the sorted row is determined by its entries |
| Sorting.SecondMaxBounds | models/uncertainty.py:33 | the second-largest entry is at most the largest, and equal to it exactly when the largest occurs at least twice |
| Sorting.AscendingTopTwo | models/uncertainty.py:32-33 | an ascending permutation of a row ends with its second-largest and then its largest entry |
| Sorting.DescendingTopTwo | src_rust/src/lib.rs:23-25 | a descending permutation of a row starts with its largest and then its second-largest entry |
| RustUncertainty.Chunks | src_rust/src/lib.rs:5 | slice::chunks(n): consecutive non-empty pieces of at most n values; count, positions and concatenation are the three lemmas below |
| RustUncertainty.ChunksCount | src_rust/src/lib.rs:4-5 | chunks(n) yields ceil(len / n) chunks |
| RustUncertainty.ChunkAt | src_rust/src/lib.rs:4-5 | chunk i is the slice from i·n to min((i+1)·n, len), and it starts inside the slice |
| RustUncertainty.ChunksFlatten | src_rust/src/lib.rs:4-5 | the chunks concatenated give back the slice: nothing is lost, repeated or reordered |
| RustUncertainty.ChunkEntropy | src_rust/src/lib.rs:7-11 | the sum of -p·log2 p over the chunk's strictly positive entries, skipping the rest; related to the Python entropy by AgreesWithPythonEntropy |
| RustUncertainty.ShannonEntropy | src_rust/src/lib.rs:3-14 | ceil(len / num_classes) results; result i is the positive-entries entropy of the i-th slice of num_classes values |
| RustUncertainty.NonPositiveEntryIgnored | src_rust/src/lib.rs:9-11 | an entry that is zero or negative contributes nothing to its chunk's entropy, wherever it stands |
| RustUncertainty.NoPositiveEntryZero | src_rust/src/lib.rs:9-11 | a chunk with no positive entry has entropy 0 |
| RustUncertainty.AgreesWithPythonEntropy | src_rust/src/lib.rs:7-11 | on entries in [1e-15, 1.0] the Rust and Python entropies are equal |
| RustUncertainty.EntropyUnitTest | src_rust/src/lib.rs:38-42 | [0.5, 0.5, 0.98, 0.02] with two classes gives two entropies, exactly 1 and below 0.2, under the stated log2 bounds |
| RustUncertainty.ChunkMarginValue | src_rust/src/lib.rs:22-28 | the margin of a chunk: largest minus second-largest for two or more values, the value itself for one; ChunkMargin is proved to compute it |
| RustUncertainty.ChunkMarginNonNegative | src_rust/src/lib.rs:24-25 | a chunk of two or more values has a non-negative margin |
| RustUncertainty.ChunkMarginOrderIndependent | src_rust/src/lib.rs:22-23 | permuting a chunk does not change its margin |
| RustUncertainty.AgreesWithPythonMargin | src_rust/src/lib.rs:22-28 | on chunks of two or more values the Rust margin equals the Python margin |
| RustUncertainty.SortDescending | src_rust/src/lib.rs:23 | sorting in place leaves the array descending and a permutation of its old contents |
| RustUncertainty.ChunkMargin | src_rust/src/lib.rs:22-28 | on a copy of the chunk: largest minus second-largest for two or more values, the value itself for a single value |
| RustUncertainty.MarginUncertainty | src_rust/src/lib.rs:18-31 | ceil(len / num_classes) margins; margin i is the margin of the i-th slice of num_classes values |
| CriticModel.NewCritic | models/critic_model.py:9-12 | the critic keeps critic_threshold, and its entropy threshold plus critic_threshold is exactly 1 |
| CriticModel.ThresholdIgnoresClassCount | models/critic_model.py:10-12 | configurations with the same critic_threshold and different class counts give the same critic (H_max fixed at 1.0) |
| CriticModel.Evaluate | models/critic_model.py:14-21 | one flag per row, true exactly when the row's entropy is at most the entropy threshold |
| CriticModel.BoundaryPasses | models/critic_model.py:21 | a row whose entropy equals the threshold exactly is high quality |
| CriticModel.StricterThresholdOnlyRejects | models/critic_model.py:12-21 | a row accepted under a higher critic_threshold is accepted under every lower one, so raising the threshold only turns flags from true to false |
| CriticModel.MaximallyUncertainPassesIff | models/critic_model.py:12-21 | the row (0.5, 0.5) passes exactly when critic_threshold is at most 0 |
| CriticModel.SkewedRowEntropyBounds | evaluation/regression_tests.py:22-23 | the entropy of (0.98, 0.02) lies in [0.14122, 0.1434] under two-sided bounds on log2(0.98) and log2(0.02) |
| CriticModel.RegressionCritic | evaluation/regression_tests.py:24-27 | [[0.98, 0.02], [0.5, 0.5]] evaluates to [true, false] for every critic_threshold in (0, 0.85] |
| CriticModel.ThresholdPoint86RejectsSkewedRow | models/critic_model.py:12-21 | with critic_threshold 0.86 (entropy threshold 0.14) the row (0.98, 0.02) is flagged low quality |
| BaseModels.Fit | models/base_model.py:27-31 | the new classifier takes max_iter and random_state from the training section and is fitted on exactly the given X and y |
| BaseModels.Predictions | models/base_model.py:33-35 | fails exactly when no classifier is held; otherwise one label per row, each depending only on the classifier and that row |
| BaseModels.Probabilities | models/base_model.py:37-39 | fails exactly when no classifier is held; otherwise one probability row per input row |
| BaseModels.Trained | models/base_model.py:25-31 | train on the abstract state: the held classifier becomes Fit of the given data, the disk is untouched |
| BaseModels.Saved | models/base_model.py:41-44 | save on the abstract state: the path maps to the held classifier (None included), everything else as before |
| BaseModels.Loaded | models/base_model.py:46-50 | load on the abstract state: the stored value replaces the held classifier when the path exists, otherwise nothing changes |
| BaseModels.TrainForgetsPrevious | models/base_model.py:25-31 | after train, the held classifier is the same whatever was held before, is fitted on the given data only, and the disk is unchanged |
| BaseModels.SaveOverwrites | models/base_model.py:41-44 | save stores the held classifier at the path, discarding whatever was stored there; afterwards the paths are the old ones plus this one, and every other path keeps its value |
| BaseModels.LoadWithoutArtifact | models/base_model.py:46-50 | load with no file at the path changes nothing |
| BaseModels.LoadRestoresSaved | models/base_model.py:41-50 | load after save restores exactly the saved classifier, whatever is held in between |
| BaseModels.SaveLoadPredictions | models/base_model.py:33-50 | predictions after a save/load round trip are the predictions before it |
| BaseModels.BaseModel.constructor | models/base_model.py:9-13 | a new instance holds no classifier and uses the fixed path models/base_model.pkl |
| BaseModels.BaseModel.GenerateData | models/base_model.py:15-23 | the dataset is the generator applied to the data section alone, so every call returns the same dataset |
| BaseModels.BaseModel.Train | models/base_model.py:25-31 | the new state is Trained of the old: the held classifier is replaced by a fresh fit, and the disk is untouched |
| BaseModels.BaseModel.Predict | models/base_model.py:33-35 | returns Predictions for the held classifier |
| BaseModels.BaseModel.PredictProba | models/base_model.py:37-39 | returns Probabilities for the held classifier |
| BaseModels.BaseModel.Save | models/base_model.py:41-44 | the new state is Saved of the old: the held classifier, None included, overwrites the artifact |
| BaseModels.BaseModel.Load | models/base_model.py:46-50 | the new state is Loaded of the old: the artifact replaces the held classifier if the path exists, and otherwise nothing changes |
| BaseModels.FreshModelCannotPredict | models/base_model.py:9-39 | on a newly constructed instance, predict and predict_proba both fail before any train or load |
| Retraining.FeedbackBlock | pipeline/feedback_loop.py:47-49 | an empty buffer reaches vstack as one row of width 0; a non-empty buffer reaches it as its rows |
| Retraining.Combine | models/retrainer.py:14-17 | fails exactly when some feedback row is not as wide as the canonical matrix; otherwise the rows are the canonical rows then the feedback block, and the labels the canonical labels then the feedback labels |
| Retraining.CombineAppends | models/retrainer.py:16-17 | for a canonical width above 0, a successful combine had a non-empty buffer; the combined rows are the canonical rows then the feedback rows, and the combined set is longer than the canonical one |
| Retraining.CombineSucceeds | models/retrainer.py:16 | a non-empty buffer of rows as wide as the canonical matrix always combines |
| Retraining.EmptyFeedbackFails | models/retrainer.py:16 | an empty buffer fails against a canonical matrix of positive width |
| Retraining.CombineKeepsPairs | models/retrainer.py:16-17 | aligned, rectangular parts give an aligned, rectangular combination in which feedback row i still carries feedback label i |
| Retraining.Retrained | models/retrainer.py:14-21 | retrain on the abstract state: fails with the combination's fault when vstack fails (nothing trained or saved), otherwise Saved of Trained on the combined data |
| Retraining.RetrainedStoresNewClassifier | models/retrainer.py:19-21 | after a successful retrain the held classifier is fitted on the combined data, and the stored artifact is that classifier |
| Retraining.RetrainedFailsIff | models/retrainer.py:16-21 | retrain fails exactly when the combination fails, and then with a shape mismatch |
| Retraining.Retrainer.constructor | models/retrainer.py:7-9 | the retrainer keeps the configuration it is given, which the loop reads for retrain_batch_size (pipeline/feedback_loop.py:47) |
| Retraining.Retrainer.Retrain | models/retrainer.py:11-21 | on a shape mismatch the model and disk are untouched and the fault is returned; otherwise the new state is trained on the combination and then saved |
| FeedbackLoop.CountEqual | pipeline/feedback_loop.py:44 | the number of agreeing positions is at most the length, and equals it exactly when the two vectors are equal |
| FeedbackLoop.Accuracy | pipeline/feedback_loop.py:44 | no value for an empty test set; otherwise a fraction in [0, 1], equal to 1 exactly when every prediction is correct |
| FeedbackLoop.Indices | pipeline/feedback_loop.py:39-40 | the marked positions, strictly increasing, each one marked, and every marked position present |
| FeedbackLoop.PickedAt | pipeline/feedback_loop.py:39-42 | the picked entries are as many as the marked positions, and the j-th is the entry at the j-th marked position |
| FeedbackLoop.Flags | pipeline/feedback_loop.py:40 | a sample is marked exactly when its quality flag is false or its prediction differs from its label |
| FeedbackLoop.Keep | pipeline/feedback_loop.py:34-40 | test sample i goes to the buffer exactly when its entropy exceeds 1 - critic_threshold or its predicted label is wrong |
| FeedbackLoop.Canonical | pipeline/feedback_loop.py:21-26 | the dataset generate_data returns: the generator applied to the data section alone, so the calls at lines 21 and 26 and in retrain (models/retrainer.py:14) all see the same one |
| FeedbackLoop.TestSet | pipeline/feedback_loop.py:26-27 | the test half of the fixed split of the canonical data; Run and RunFeedbackLoop compute it once and pass that same test set to all five iterations |
| FeedbackLoop.Bootstrap | pipeline/feedback_loop.py:20-23 | the initial train on the canonical data and save, applied only when the path is absent |
| FeedbackLoop.Collect | pipeline/feedback_loop.py:33-44 | first half of an iteration with a loaded classifier: both buffers extended by the samples Keep marks, one report appended |
| FeedbackLoop.RetrainStep | pipeline/feedback_loop.py:47-52 | second half: when the buffer holds at least retrain_batch_size samples, Retrained on it and empty buffers (Abort on a shape mismatch); otherwise no change |
| FeedbackLoop.Iteration | pipeline/feedback_loop.py:32-52 | one pass: load, Abort with NoModel when nothing is held, otherwise Collect then RetrainStep |
| FeedbackLoop.RunFrom | pipeline/feedback_loop.py:32-52 | iterations k to 4 in order, stopping at the first Abort |
| FeedbackLoop.Run | pipeline/feedback_loop.py:13-52 | the whole script from a disk: Bootstrap, then RunFrom iteration 0 with empty buffers and no reports |
| FeedbackLoop.BootstrapOnlyWhenAbsent | pipeline/feedback_loop.py:20-23 | the initial train-and-save runs only when nothing is stored, and then stores the classifier fitted on the canonical data |
| FeedbackLoop.IterationReloads | pipeline/feedback_loop.py:32-34 | when a model is stored, an iteration's outcome does not depend on the classifier held on entry |
| FeedbackLoop.CollectAppends | pipeline/feedback_loop.py:39-42 | collection keeps the old buffer as a prefix and appends, in index order, exactly the marked test samples with their true labels |
| FeedbackLoop.IterationReport | pipeline/feedback_loop.py:44 | a completed iteration appends exactly one report, carrying its iteration number |
| FeedbackLoop.RetrainIffThreshold | pipeline/feedback_loop.py:47-52 | retrain runs exactly when the buffer after collection holds at least retrain_batch_size samples; the buffer is then empty and the artifact is the classifier fitted on canonical plus buffer; otherwise the state carries over unchanged |
| FeedbackLoop.RepeatedFlagsDuplicate | pipeline/feedback_loop.py:39-42 | with no retrain in between, two iterations append the same samples twice (no de-duplication) |
| FeedbackLoop.IterationKeepsBufferAligned | pipeline/feedback_loop.py:39-52 | feedback_X and feedback_y keep equal lengths through an iteration |
| FeedbackLoop.RunFromReports | pipeline/feedback_loop.py:32-44 | a completed run from iteration k appends one report for each of iterations k to 4, in order, and keeps the buffers aligned |
| FeedbackLoop.RunFiveReports | pipeline/feedback_loop.py:32-44 | a completed run prints exactly five reports, numbered 0 to 4 |
| FeedbackLoop.IterationCompletes | pipeline/feedback_loop.py:32-52 | in a well-formed setting, an iteration that starts with a stored classifier completes and keeps one stored |
| FeedbackLoop.RunFromCompletes | pipeline/feedback_loop.py:32-52 | in a well-formed setting, the remaining iterations complete |
| FeedbackLoop.RunCompletes | pipeline/feedback_loop.py:13-52 | in a well-formed setting (a non-empty test set aligned with its labels, test rows as wide as the canonical rows, positive width, retrain_batch_size at least 1), starting from a disk that holds a classifier or nothing at the path, the run raises nothing and prints five reports |
| FeedbackLoop.CollectFeedback | pipeline/feedback_loop.py:39-42 | the inner loop extends both buffers by exactly the flagged samples and labels, in index order |
| FeedbackLoop.RunIteration | pipeline/feedback_loop.py:32-52 | one outer-loop pass on the objects ends in the state Iteration gives, and raises exactly when Iteration aborts |
| FeedbackLoop.RunFeedbackLoop | pipeline/feedback_loop.py:13-52 | the script ends with the disk, the reports and the fault that Run gives for the initial disk |

## Left out

- Floating point: probabilities, entropies and accuracies are reals. The base-2 logarithm is a parameter; lemmas that need its values take bounds on them as hypotheses. NaN and rounding are not modelled, so the `partial_cmp(...).unwrap()` panic on NaN in the Rust sort cannot arise.
- scikit-learn: fitting is the record of its inputs (`Fit`); `predict`, `predict_proba`, `make_classification` and `train_test_split` are opaque function parameters. Errors they raise (inconsistent lengths or feature counts passed to `fit` or `predict`) are not modelled.
- `RunFeedbackLoop` requires that the split returns as many test labels as test rows, as train_test_split always does.
- pickle, YAML and files: the file system is a map from paths to pickled values. Corrupt, unreadable or unwritable files are not modelled: `Save` always succeeds, whereas opening models/base_model.pkl for writing raises when the path cannot be written (for example without a models/ directory). config/config.yaml is not part of this model, so the configuration is a parameter, and the critic regression test is proved for every critic_threshold in (0, 0.85].
- Progress output: the printed lines become `Report` values (iteration number, accuracy, buffer size); their formatting is not modelled.
- `Accuracy` of an empty test set: the model gives no value (`None`) and the loop continues. The script never gets that far: train_test_split with test_size=0.2 never returns an empty test part, and scikit-learn's predict raises ValueError on 0 samples at pipeline/feedback_loop.py:34, before the mean at line 44 (which would be NaN). The model does not capture that exception.
- `RustUncertainty.MarginUncertainty`: the iterator chain `chunks().map().collect()` is modelled as a loop over chunk start positions. The sort keeps the Rust flavour, a local array sorted in place.
- Rust entry points: `num_classes = 0` is excluded by a precondition, because `chunks(0)` panics.
- evaluation/metrics.py, the plotting scripts, pipeline/infer.py and pipeline/train.py are not part of this model.
- The test split is drawn once from the canonical dataset. Its training half is unused by the loop and is not modelled.

