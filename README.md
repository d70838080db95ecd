# Unbiased accuracy by nested cross-validation: a Dafny model

This project models the bookkeeping and decision logic of
`UnbiasedAccuracyGetter` from AZOrange
(`azorange/AZutilities/getUnbiasedAccuracy.py`). The getter estimates how
well one or more learners predict a data set. It runs an outer
cross-validation, optionally tunes each learner on an inner
cross-validation, and turns each learner's per-fold results into a
statistics object with a stability verdict. When several learners are
given, it builds a consensus of the stable ones.

The model treats examples as records. Each record has a class index and
its attribute values. Learners are names that carry a `specialType` flag.
The data library, the learners, the sampler, the hyperparameter optimiser
and the metric functions are collaborators. They are given as functions
(`Engine.World`, `Statistics.Metrics`), and metric values are opaque reals.

Modules, one file each:

- `Common` (common.dfy): `Option`, `Result`, the abstract `Dataset`, sums,
  and Python's floor division.
- `FoldLabels` (fold_labels.dfy): `__init__`. Group mode gives 0/1 labels
  from a permitted-value list. Predefined mode reads integer fold labels
  and counts them per fold (`foldsCounter`). Either mode then removes the
  control attribute.
- `Partition` (partition.dfy): the train/test split by fold label, the list
  of test folds, and the in-place group-controlled ("VarCtrlCV") shift.
- `Validator` (validator.dfy): `__checkTrainData`, in its hard and soft modes.
- `Statistics` (statistics.dfy): `createStatObj`. It covers the placeholder
  record, the summed confusion matrix, the combined CA, and the stability
  threshold and verdict.
- `Consensus` (consensus.dfy): consensus pool selection, the weighted vote
  and the weighted average.
- `Engine` (engine.dfy): `getAcc`. It checks the inputs, labels the folds,
  runs the pre-flight check and the `dontOptimize` decision, orders the
  learners (PLS first), runs the per-learner folds with failure isolation
  and progress, and runs the consensus stage.

The loops that fill the fold lists, count classes, sum confusion
matrices, shift labels and run the learners and the consensus folds are
`method`s with `while` loops. Each is proved equal to a recursive
specification function, and lemmas state the properties of that
function. The shift of the fold labels works in place on an `array<int>`,
as the source overwrites `DataIdxs`. The loops that only build a value
are functions: the pool selection and exclusion (a dictionary built by a
loop) and the consensus expression strings, which the model represents by
the vote and the weighted average they encode.

`GetAccSpec` and `GetAcc` follow the code as written, including at the
four places listed in the Findings table at the end: the combined CA
divided by `nExtFolds`, the shift counter with one slot per test fold,
the pool exclusion that reads `models[name][0]`, and the consensus test
set of label `foldN + 1`. The corrected definitions are stated and proved
beside them, with lemmas saying where the two agree.

Where the documented design and the code disagree, the model follows the
code:

- Vote ties go to the FIRST class value, because the code compares with `>=`
  and picks `values[0]`.
- In `dontOptimize`, a discrete response never takes the size shortcut.
- A failure while building the consensus escapes `getAcc` (`Raised`). The
  consensus stage runs outside the per-learner `try`.
- `userAlert` is modelled as the list of folds that were not optimised.
  The source keeps the text of the corresponding log lines.

## Model

| member | source | states |
|---|---|---|
| `FoldLabels.GroupLabels` | azorange/AZutilities/getUnbiasedAccuracy.py:44-48 | exactly one label per example: 1 iff the example's control value is in the permitted list, 0 iff it is not |
| `FoldLabels.PredefinedLabels` | azorange/AZutilities/getUnbiasedAccuracy.py:53-64 | succeeds iff every control value reads as a number, otherwise fails on a value that does not; each label is the truncation toward zero of the value; the counter has exactly the labels that occur, each with its number of occurrences, and its counts sum to the number of examples |
| `FoldLabels.TruncToInt` | azorange/AZutilities/getUnbiasedAccuracy.py:59 | `int(float(v))` truncates toward zero: the result is within one of `v`, on the side of zero |
| `FoldLabels.RemoveAttr` | azorange/AZutilities/getUnbiasedAccuracy.py:73 | the control attribute leaves the domain and every example; examples, their order and their classes are kept |
| `FoldLabels.Init` | azorange/AZutilities/getUnbiasedAccuracy.py:36-78 | with the attribute in the data: a non-empty permitted list gives group mode with group labels; no list gives predefined mode, which fails iff some value is not a number; any other filter fails; either mode removes the attribute. Without the attribute the data is unchanged and neither mode is on |
| `Validator.CheckTrainData` | azorange/AZutilities/getUnbiasedAccuracy.py:82-108 | the soft mode returns true iff the set has at least 20 examples and, for a discrete response, at least 10 of every class; the hard mode raises exactly when that fails, naming the classes that fall short |
| `Validator.LowClassesMembers` | azorange/AZutilities/getUnbiasedAccuracy.py:91-100 | a class is reported short iff the set has at least 20 examples, the response is discrete and that class has fewer than 10 examples (the class check is the `elif` of the size check) |
| `Validator.NoLowClasses` | azorange/AZutilities/getUnbiasedAccuracy.py:93-100 | on a large enough set, no class is short iff every class has at least 10 examples |
| `Validator.CountClasses` | azorange/AZutilities/getUnbiasedAccuracy.py:94-96 | the counting loop gives, for every class, the number of examples of that class |
| `Validator.ClassesBelowMinimum` | azorange/AZutilities/getUnbiasedAccuracy.py:97-100 | the loop over the counts lists exactly the classes with fewer than 10 examples (taken in class-index order; see Left out) |
| `Validator.ClassCountsSum` | azorange/AZutilities/getUnbiasedAccuracy.py:94-96 | the per-class counts add up to the size of the set |
| `Partition.Picked` | azorange/AZutilities/getUnbiasedAccuracy.py:334-335 | `select(labels, f, negate)` keeps, in ascending order, exactly the positions whose label is f (or is not f, with negate) |
| `Partition.Select` | azorange/AZutilities/getUnbiasedAccuracy.py:334-335 | a selection holds only examples of the data |
| `Partition.SelectAt` | azorange/AZutilities/getUnbiasedAccuracy.py:334-335 | the k-th selected example is the example at the k-th picked position |
| `Partition.TrainTestPartition` | azorange/AZutilities/getUnbiasedAccuracy.py:334-335 | for every fold, train and test split the data: their sizes add up, and together they hold each example as often as the data does |
| `Partition.TestSize` | azorange/AZutilities/getUnbiasedAccuracy.py:335 | the test set of fold f has one example per occurrence of label f |
| `Partition.BiasAlwaysTrains` | azorange/AZutilities/getUnbiasedAccuracy.py:271-274 | an example labelled 0 is in the training set of every test fold |
| `Partition.Folds` | azorange/AZutilities/getUnbiasedAccuracy.py:271-272 | the test folds are the distinct non-zero labels, in ascending order |
| `Partition.FoldsOfOneToK` | azorange/AZutilities/getUnbiasedAccuracy.py:500-529 | when the labels are exactly 0..K with every 1..K present, the folds are 1, .., K; so position `foldN` of the consensus loop pairs with label `foldN + 1` |
| `Partition.ConsensusPairingLeaks` | azorange/AZutilities/getUnbiasedAccuracy.py:500-529 | with fold labels [2, 3] the folds are [2, 3]; the consensus test of position 1 is the example labelled 2, which trained the models of position 1; position 0 tests nothing and the example labelled 3 is never tested |
| `Partition.ConsensusTestLabel` | azorange/AZutilities/getUnbiasedAccuracy.py:500-529 | the corrected test label of position k is a label that occurs, is not 0, and comes after the folds of earlier positions |
| `Partition.ConsensusTestLabelSound` | azorange/AZutilities/getUnbiasedAccuracy.py:500-529 | with the corrected pairing no test example is in the training set of the models it tests, and every example outside the train bias is tested at exactly one position |
| `Partition.ConsensusTestLabelOfOneToK` | azorange/AZutilities/getUnbiasedAccuracy.py:500-529 | when the labels are exactly 1..K the corrected label of position k is `k + 1`, the label the code uses |
| `Partition.ShiftAsWritten` | azorange/AZutilities/getUnbiasedAccuracy.py:275-281 | the shift with `nFolds` counter slots indexed by the raw label: completes iff every moved example's label is a valid index, then equals the intended shift with counts summing to the number moved; otherwise stops at the first moved example whose label is out of range |
| `Partition.ShiftOverflowsOnLastFold` | azorange/AZutilities/getUnbiasedAccuracy.py:276-280 | with labels 1..K, a non-permitted example sampled into fold K makes the shift as written fail |
| `Partition.ShiftOverflowExample` | azorange/AZutilities/getUnbiasedAccuracy.py:276-280 | a two-example instance of that failure |
| `Partition.Shift` | azorange/AZutilities/getUnbiasedAccuracy.py:275-281 | in place: every example with `preDefIndices` 0 gets label 0 and every other label is unchanged; the counter of fold f holds the number of examples moved out of f, and the counters sum to the number of moved examples |
| `Partition.NumMovedIsChanged` | azorange/AZutilities/getUnbiasedAccuracy.py:277-281 | the number of moved examples is the number of entries the shift changes |
| `Partition.ShiftedKeepsPermitted` | azorange/AZutilities/getUnbiasedAccuracy.py:277-281 | after the shift every test example is a permitted one that keeps its sampled fold |
| `Statistics.Placeholder` | azorange/AZutilities/getUnbiasedAccuracy.py:166-194 | with an input missing: every metric and the per-fold breakdown are None, `stable` and `selected` are false, `userAlert` is kept |
| `Statistics.ConfusionSum` | azorange/AZutilities/getUnbiasedAccuracy.py:200-205 | the combined matrix exists iff every later fold matrix fits inside the first; it then has the first matrix's shape, and each entry is the sum of that entry over all folds |
| `Statistics.ConfusionSumOfSameShape` | azorange/AZutilities/getUnbiasedAccuracy.py:200-205 | for fold matrices of equal shape, each combined entry is the plain element-wise sum over the folds |
| `Statistics.SumConfusion` | azorange/AZutilities/getUnbiasedAccuracy.py:200-205 | the nested loops that add every later matrix into a copy of the first compute the combined matrix, or hit the IndexError exactly when it does not exist |
| `Statistics.CAAsWrittenIsNotMean` | azorange/AZutilities/getUnbiasedAccuracy.py:199 | dividing the CA sum by `nExtFolds` differs from the mean when the fold count differs: two folds of CA 1.0 with `nExtFolds` 5 give 0.4 |
| `Statistics.CAAsWrittenIsMeanOnEveryFold` | azorange/AZutilities/getUnbiasedAccuracy.py:199 | when there is one result per outer fold, the sum divided by `nExtFolds` is the mean |
| `Statistics.MeanCAOfConstant` | azorange/AZutilities/getUnbiasedAccuracy.py:199 | the combined CA of folds that all have CA c is c |
| `Statistics.Stable` | azorange/AZutilities/getUnbiasedAccuracy.py:229-243 | the verdict is true iff a stability value exists and is below the threshold chosen by response type and by whether the mean test size exceeds 50; averaging an empty list of test sizes is an error |
| `Statistics.StatObjOf` | azorange/AZutilities/getUnbiasedAccuracy.py:166-245 | with an input missing, the placeholder; otherwise the response type and the alert are kept, nothing is selected, the per-fold sizes are recorded, and `stable` holds iff the stability value is below the threshold; for a discrete response every fold result is a (CA, matrix) pair and CA is the sum of the fold CAs divided by `nExtFolds` |
| `Statistics.CreateStatObj` | azorange/AZutilities/getUnbiasedAccuracy.py:166-245 | equals `StatObjOf`; for a discrete response there are fold results, CA is the sum of the fold CAs divided by `nExtFolds`, and the matrix has the first fold's shape and holds the entry-wise sum of the fold matrices; for a continuous response Q2 and RMSE come from the pooled pairs |
| `Consensus.StableSet` | azorange/AZutilities/getUnbiasedAccuracy.py:470-473 | exactly the learners with a stability value that are stable |
| `Consensus.Candidates` | azorange/AZutilities/getUnbiasedAccuracy.py:470-480 | the stable learners when there are at least two, otherwise every learner |
| `Consensus.CandidatesAtLeastTwo` | azorange/AZutilities/getUnbiasedAccuracy.py:477-480 | with at least two learners there are always at least two candidates |
| `Consensus.ExcludeSpecialAsWritten` | azorange/AZutilities/getUnbiasedAccuracy.py:483-488 | the exclusion fails iff some candidate has no model; otherwise it keeps exactly the candidates whose first model has `specialType` of at most 0 |
| `Consensus.ExcludeSpecial` | azorange/AZutilities/getUnbiasedAccuracy.py:483-488 | keeps exactly the candidates that have a model whose first model has `specialType` of at most 0 |
| `Consensus.ExclusionAgrees` | azorange/AZutilities/getUnbiasedAccuracy.py:483-488 | wherever the exclusion as written succeeds, it agrees with the intended one |
| `Consensus.FailedLearnerBreaksFallback` | azorange/AZutilities/getUnbiasedAccuracy.py:477-486 | two unstable learners, one of which failed before its first model: the fallback takes both, and the exclusion as written fails |
| `Consensus.Pool` | azorange/AZutilities/getUnbiasedAccuracy.py:469-490 | fails (IndexError) iff some candidate has no model; otherwise a learner is a member iff it has a model, its first model is not of a special type, and it is stable or was taken in the fallback (at most one learner stable); the members are those of the intended exclusion |
| `Consensus.InOrder` | azorange/AZutilities/getUnbiasedAccuracy.py:506-507 | the members listed in the learners' iteration order, each one that is in the pool |
| `Consensus.IfZeroOne` | azorange/AZutilities/getUnbiasedAccuracy.py:508-511 | `IF0(n, 1)` is at least 1 and leaves a non-zero count unchanged |
| `Consensus.Vote` | azorange/AZutilities/getUnbiasedAccuracy.py:502-521 | the consensus class is one of the first two class values; it is the first iff its score is at least the second's |
| `Consensus.ScoreWithoutSupport` | azorange/AZutilities/getUnbiasedAccuracy.py:505-511 | a class no member predicts scores 0 |
| `Consensus.ScoreIsMeanWeight` | azorange/AZutilities/getUnbiasedAccuracy.py:505-511 | a predicted class scores the mean weight of the members predicting it |
| `Consensus.TieGoesToFirst` | azorange/AZutilities/getUnbiasedAccuracy.py:521 | equal scores go to the first class value |
| `Consensus.OtherClassesIgnored` | azorange/AZutilities/getUnbiasedAccuracy.py:502-503 | a member predicting a third class value does not change the vote |
| `Consensus.UnanimousVote` | azorange/AZutilities/getUnbiasedAccuracy.py:505-521 | members that all predict the same one of the first two values with positive weights make the consensus predict it |
| `Consensus.Average` | azorange/AZutilities/getUnbiasedAccuracy.py:523-527 | the weighted sum of predictions divided by the fold's total weight; a total of zero is a division by zero |
| `Consensus.AverageOfAgreeing` | azorange/AZutilities/getUnbiasedAccuracy.py:523-527 | members that agree make the average agree with them |
| `Consensus.AverageBetween` | azorange/AZutilities/getUnbiasedAccuracy.py:523-527 | with non-negative weights the average lies between the smallest and the largest prediction |
| `Engine.InputsBound` | azorange/AZutilities/getUnbiasedAccuracy.py:129-144 | accepted inputs have between 1 and `len(data)` outer folds (`len(data)/nExtFolds >= 1` with Python 2 integer division) |
| `Engine.ShortForInnerInIntegers` | azorange/AZutilities/getUnbiasedAccuracy.py:353 | `len*(1-1/nInner) < 20` iff `len*(nInner-1) < 20*nInner` for a positive inner fold count |
| `Engine.DontOptimize` | azorange/AZutilities/getUnbiasedAccuracy.py:352-359 | a continuous response whose training set is too small for the inner folds is not optimised; otherwise optimisation is skipped iff the inner training set (without inner fold 1) fails the soft check; a discrete response never takes the size shortcut |
| `Engine.SmallRegressionNotOptimised` | azorange/AZutilities/getUnbiasedAccuracy.py:353-354 | the size shortcut in integers |
| `Engine.DecideDontOptimize` | azorange/AZutilities/getUnbiasedAccuracy.py:352-359 | the decision as computed with the soft validator equals `DontOptimize` |
| `Engine.Tune` | azorange/AZutilities/getUnbiasedAccuracy.py:362-413 | without optimisation the weight is a cross-validated accuracy; the learner fails iff it is optimised externally and the optimiser does not optimise it; a self-optimising learner on a discrete response takes the accuracy and the model `optimizePars` returns; an externally optimised learner on a discrete response takes the optimiser's first tuned value; a continuous response always weighs by cross-validation |
| `Engine.IndexOfName` | azorange/AZutilities/getUnbiasedAccuracy.py:312-313 | the position of the first learner with that name, or None when none has it |
| `Engine.PlsFirst` | azorange/AZutilities/getUnbiasedAccuracy.py:311-314 | the learners reordered, the same multiset: unchanged without "PLS", else "PLS" first and the others in their order |
| `Engine.LearnerOrder` | azorange/AZutilities/getUnbiasedAccuracy.py:293-314 | one entry per learner, one for a single learner |
| `Engine.Progress` | azorange/AZutilities/getUnbiasedAccuracy.py:434-436 | `(100*stepsDone)/nTotalSteps` lies in 0..100 while steps do not exceed the total, and is 100 at the total |
| `Engine.FoldStepShape` | azorange/AZutilities/getUnbiasedAccuracy.py:330-349 | one fold appends one entry to every per-learner list, the two set sizes adding up to the data; a fold that fails adds no model and no weight |
| `Engine.RunFoldsShape` | azorange/AZutilities/getUnbiasedAccuracy.py:323-439 | a completed learner has one model, weight, result and size pair per fold, with each test size the number of examples in that fold; a failed learner has fewer models than folds |
| `Engine.PooledPairs` | azorange/AZutilities/getUnbiasedAccuracy.py:425-433 | the pairs of the first k folds have as many entries as those folds' test sets together |
| `Engine.RunFoldsPairs` | azorange/AZutilities/getUnbiasedAccuracy.py:421-433 | a completed regression run's `exp_pred` is, in fold order, each fold's test set predicted by that fold's model, and each fold's result is the RMSE and R^2 of exactly those pairs; a classification run pools nothing, and each fold's result is the CA and confusion matrix of that fold's model's predictions on that fold's test set |
| `Engine.FoldStepPairs` | azorange/AZutilities/getUnbiasedAccuracy.py:421-433 | a fold that goes on appends its model and, for a continuous response, that model's pairs on the fold's test set and their RMSE and R^2; for a discrete response it pools nothing and appends the CA and confusion matrix of that model's predictions on the test set |
| `Engine.PooledPairsPrefix` | azorange/AZutilities/getUnbiasedAccuracy.py:425-433 | the pooled pairs of the first k folds depend only on the first k models |
| `Engine.LearnerStat` | azorange/AZutilities/getUnbiasedAccuracy.py:440-458 | a learner that failed, or whose statistics raise, gets the placeholder; otherwise it gets the statistics of its own lists, with its response type, its alert and its test sizes |
| `Engine.RunLearnersKeys` | azorange/AZutilities/getUnbiasedAccuracy.py:318-458 | unless cancelled, exactly the learners run so far have statistics, models and weights, with one weight per model |
| `Engine.LearnerKeepsOwnResult` | azorange/AZutilities/getUnbiasedAccuracy.py:440-458 | unless cancelled, every learner ends with the statistics `LearnerStat` gives its own run (the placeholder when it failed or `createStatObj` raised, its own statistics otherwise) and its own models and weights, whatever the learners after it do |
| `Engine.RunLearnersAddsLast` | azorange/AZutilities/getUnbiasedAccuracy.py:440-458 | the learner just run is recorded with the statistics, models and weights of its own run |
| `Engine.RunLearnersKeepsOthers` | azorange/AZutilities/getUnbiasedAccuracy.py:440-458 | running one more learner leaves every other learner's entries as they were |
| `Engine.FailedLearnerGetsPlaceholder` | azorange/AZutilities/getUnbiasedAccuracy.py:450-458 | a learner that fails on any fold ends with the placeholder statistics |
| `Engine.ConsensusFold` | azorange/AZutilities/getUnbiasedAccuracy.py:500-555 | a consensus fold succeeds only if every member has a model and a weight at position `foldN`; it then appends the size of the test set of label `foldN + 1`, one result, and the consensus classifier's training size from the members' models at position `foldN` |
| `Engine.ConsensusFoldOutcome` | azorange/AZutilities/getUnbiasedAccuracy.py:500-555 | a consensus fold fails exactly when there are fewer than two class values, a member lacks a model or weight at position `foldN`, or (continuous response) some test example's weights sum to zero; otherwise every example of label `foldN + 1` is predicted by the weighted vote (discrete) or weighted average (continuous) of the members' position-`foldN` models weighted by their `optAcc` at `foldN`, and the fold result is the CA and confusion matrix, or the RMSE and R^2 of the pooled pairs, of those predictions |
| `Engine.ConsensusFolds` | azorange/AZutilities/getUnbiasedAccuracy.py:500-555 | a completed consensus has one result per outer fold, and every member has a model and weight for every position |
| `Engine.ConsensusNeedsEveryFold` | azorange/AZutilities/getUnbiasedAccuracy.py:539 | a completed consensus needs at least `nExtFolds` models per member |
| `Engine.ConsensusStage` | azorange/AZutilities/getUnbiasedAccuracy.py:464-560 | a failing pool exclusion raises; with fewer than two members the statistics are unchanged; otherwise a successful stage adds exactly "Consensus", leaves every learner's own statistics unchanged, and its individual statistics are the members' own |
| `Engine.UsedLabels` | azorange/AZutilities/getUnbiasedAccuracy.py:266-281 | raises iff the mode is group-controlled and some moved example's label is not a valid index into a counter with one slot per test fold; otherwise one label per example, the sampled ones, with every example outside the permitted groups moved to label 0 in group-controlled mode |
| `Engine.SampledLabels` | azorange/AZutilities/getUnbiasedAccuracy.py:266-269 | one label per example, before the shift |
| `Engine.GatherPairs` | azorange/AZutilities/getUnbiasedAccuracy.py:425-433 | one (observed, predicted) pair per test example, in order |
| `Engine.EvaluateFold` | azorange/AZutilities/getUnbiasedAccuracy.py:421-433 | appends the fold's (CA, matrix) or (RMSE, Q2), and for a continuous response the fold's pairs |
| `Engine.RunFold` | azorange/AZutilities/getUnbiasedAccuracy.py:330-438 | one fold of one learner computes `FoldStep` |
| `Engine.RunLearner` | azorange/AZutilities/getUnbiasedAccuracy.py:318-439 | the fold loop computes `RunFolds`: it stops at the first failure or cancellation |
| `Engine.PreFlight` | azorange/AZutilities/getUnbiasedAccuracy.py:304-307 | passes iff the training set of every test fold passes the hard check |
| `Engine.StatOfRun` | azorange/AZutilities/getUnbiasedAccuracy.py:440-458 | the learner's statistics, computed through `CreateStatObj` |
| `Engine.RunAllLearners` | azorange/AZutilities/getUnbiasedAccuracy.py:316-460 | the learner loop computes `RunLearners` |
| `Engine.RunConsensusFolds` | azorange/AZutilities/getUnbiasedAccuracy.py:500-555 | the consensus fold loop computes `ConsensusFolds` |
| `Engine.RunConsensus` | azorange/AZutilities/getUnbiasedAccuracy.py:464-561 | the consensus stage computes `ConsensusStage` |
| `Engine.LabelFolds` | azorange/AZutilities/getUnbiasedAccuracy.py:266-281 | the predefined or sampled labels, shifted in place in group-controlled mode with one counter slot per test fold; equals `UsedLabels`, raising where it raises |
| `Engine.GetAcc` | azorange/AZutilities/getUnbiasedAccuracy.py:247-568 | equals `GetAccSpec`: None for rejected inputs; raises when the shift raises; a result only when every test fold's training set passed the hard check |
| `Engine.SingleLearnerResult` | azorange/AZutilities/getUnbiasedAccuracy.py:564-568 | with one learner and checked folds, `getAcc` returns that learner's statistics, the placeholder when it failed |

## Left out

- Orange tables, domains and `select` are sequences of records and label lists.
- The sampler (`SeedDataSampler`) is a function. It is assumed to return
  one label in 0..k per example.
- Fold order: `foldsN` follows Python 2 dictionary order. The model visits
  the folds in ascending label order, which is that order for small integers.
- SMILES attribute selection and deselection per fold (lines 336-346, 530-534)
  are not modelled. They only change the attributes, never the examples.
- Hyperparameter optimisation (`getOptParam`, scratch directories, saving
  the training set, queue backends), `optimizePars` and cross-validation
  are functions of `World`. The optimiser changes the learner object in
  place between folds. The model does not carry that state, so `fit`
  sees the same learner on every fold.
- Training, prediction, the consensus classifier's evaluation of its
  expression string, and all metrics (`calcMCC`, `calcRMSE`, `calcRsqrt`,
  `stability`, CA, R2) are functions. Their values are opaque reals.
  `IF0(x, 1)` is taken to map 0 to 1.
- Any failure while training, predicting or scoring a learner is modelled
  by two paths only: the optimiser reporting "not optimised", and
  `createStatObj` raising. Collaborator functions are total.
- `__areInputsOK`: the lookups in `AZLearnersParamsConfig`, the learner-name
  string slicing and the check of `paramList` against the learner's
  parameters are not modelled. The `sampler` and `classVar` truthiness
  checks reduce to the class variable being present.
- Logging, `__writeResults` (pickle snapshots), `time` and the
  `runningTime` field, `random.randint` seeds, `pprint`, and
  `callBackWithFoldModel` are left out. They are I/O or timing.
- `userAlert` holds the folds that were not optimised, not the log text.
- FoldLabels.TruncToInt: the predefined fold values are read as exact
  decimals; Python 2's `str(float)` keeps 12 significant digits, so a value
  such as 2.9999999999999 reads as 3 in the source and as 2 here.
- Validator.ClassesBelowMinimum: the source counts in a dictionary keyed by
  `str(value)` (lines 94-100), so it names the short classes in dictionary
  order; the model names them in class-index order. Only the order of the
  names in the error text differs. An example whose class is not one of the
  class values would raise KeyError at line 96; well-formed data excludes it.
- Consensus.Model: a trained model is assumed to carry its learner's
  `specialType`; line 485 reads it from the learner's first classifier,
  `models[name][0].specialType`, which the model takes from the learner.
- Engine.Tune: a learner with `dontOptimize` still reaches
  cross-validation, which in the source may raise. In the model it
  cannot fail.

## Findings

| source | as written | input that shows it | evidently intended | confidence | as-written member | corrected member |
|---|---|---|---|---|---|---|
| azorange/AZutilities/getUnbiasedAccuracy.py:276-280 | `nShifted` has one slot per test fold but is indexed by the raw fold label | labels 1..K from the sampler and a non-permitted example sampled into fold K: `nShifted[K]` raises IndexError | one counter per fold label, so every move is counted | high (not executed) | `Partition.ShiftAsWritten`, `Partition.ShiftOverflowExample` (used by `Engine.LabelFolds`) | `Partition.Shift` |
| azorange/AZutilities/getUnbiasedAccuracy.py:477-486 | the fallback pool holds every learner, and the exclusion reads `models[name][0]` | two unstable learners, one failing on its first fold: its model list is empty and the exclusion raises, so `getAcc` raises | a learner without models cannot join the consensus | high (not executed) | `Consensus.ExcludeSpecialAsWritten`, `Consensus.FailedLearnerBreaksFallback` (used by `Consensus.Pool`) | `Consensus.ExcludeSpecial`, `Consensus.ExclusionAgrees` |
| azorange/AZutilities/getUnbiasedAccuracy.py:199 | CA is the sum of the fold CAs divided by `nExtFolds` | predefined folds giving two folds of CA 1.0 with `nExtFolds` 5: CA is 0.4 | the mean over the fold results | medium (not executed) | `Statistics.CAAsWritten`, `Statistics.CAAsWrittenIsNotMean` (used by `Statistics.StatObjOf`) | `Statistics.MeanCA`, `Statistics.CAAsWrittenIsMeanOnEveryFold` |
| azorange/AZutilities/getUnbiasedAccuracy.py:529 | the consensus models of position `foldN` are tested on the examples labelled `foldN + 1` | predefined fold labels 2 and 3 only, at least 20 examples with each label (so the training sets pass the check at lines 305-307, and for a discrete response at least 10 per class in each), `nExtFolds` 2: position 1's models were trained on the examples labelled 2, which are then their test set; the examples labelled 3 are never tested | test the models of position k on the fold they were held out from, `foldsN[k]` | high (not executed) | `Engine.ConsensusFold`, `Partition.ConsensusPairingLeaks` | `Partition.ConsensusTestLabel`, `Partition.ConsensusTestLabelSound` |
