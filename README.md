# Uncertainty predictors of chemprop, modelled in Dafny

This project models the core of chemprop's uncertainty estimation,
`chemprop/uncertainty/uncertainty_predictor.py`. It covers three parts:

- **The seven predictors.** These are MVE, evidential total, aleatoric and epistemic, ensemble, dropout, and classification.
  - Constructing one runs its applicability check (`raise_argument_errors`).
  - It then runs its inference loop over the models (or the dropout samples), reduces the accumulators and stores the uncalibrated outputs.
  - Each loop iteration first re-normalises the shared evaluation dataset with that model's scalers when its tuple has a feature, atom-descriptor or bond-feature scaler; otherwise the data keeps the previous model's normalisation.
- **The accessors** that return the stored outputs.
- **The builder** (`uncertainty_predictor_builder`). It infers a method name when none is given, looks it up in its table and constructs the predictor.

Layout, one module per file:

- `wrappers.dfy` (`Wrappers`): `Option` and `Result`.
- `moments.dfy` (`Moments`):
  - the accumulated sums and the reduction formulas;
  - the evidential per-model variance formulas;
  - the algebra relating them: the ensemble formula is a mean squared deviation, and the MVE formula is the law of total variance.
- `applicability.dfy` (`Applicability`):
  - the predictors (`Variant`);
  - the errors, one per distinct `raise` or implicit Python error;
  - each predictor's check;
  - the labels.
- `shared_dataset.dfy` (`SharedDataset`):
  - the evaluation dataset shared with the caller, as a class with `reset_features_and_targets` and `normalize_features`;
  - the scaling step at the head of each iteration (`ApplyScalers`).
- `predictors.dfy` (`Predictors`):
  - the specification of one loop as functions of its calls (`Run`, `CallAt`, `Preds`, `Vars`, `Accumulated`, `Aggregate`);
  - the predictor class;
  - its loop (`RunModels`, one `Pass` per iteration) and `CalculatePredictions`;
  - construction (`NewPredictor`).
- `predictor_properties.dfy` (`PredictorProperties`): what the stored outputs mean, and which data each `predict` call sees.
- `factory.dfy` (`Factory`): the builder.

The seven predictor classes share their attributes, their accessors and the
shape of their loop. They differ in their check, in the loop bound and the
model and tuple index (dropout draws `dropout_sampling_size` samples from
model 0 with tuple 0, lines 338, 339 and 349), in what they ask `predict` for,
in their reduction, in their label and in `get_uncal_output`. The model
therefore has one class with a `variant`, and its loop, reduction, label and
primary output branch where the classes differ.

The loop and the dataset are modelled imperatively, as in the source:
- the loop is a `while` loop;
- the dataset is an object whose fields the loop updates.

Every method is proved against the specification functions. The properties
are lemmas about those functions.

Where the code does less or more than its own messages and names suggest, the model follows the code:

- **Dropout with zero models.** The error message at line 335 says dropout "should be used for a single model", but the check (line 334) rejects only more than one, so zero models pass it. The loop then fails:
  - with an `UnboundLocalError` when no sample is drawn (`dropout_sampling_size` ≤ 0);
  - otherwise with an `IndexError`: on `self.scalers[0]` (line 339), before any scaling step, when the tuple list is empty as well, which is the usual case with one tuple per model;
  - or on `self.models[0]` (line 349), after the first scaling step, when a tuple is present.
- **Builder inference with at most one model.** When the loss function is neither `mve` nor `evidential`, the builder infers `dropout` for a regression dataset whenever there is at most one model, including none (lines 422-430).
- **Ensemble with zero models.** An ensemble of zero models passes its check (line 294 rejects exactly one model). The loop then runs no iteration and fails with an `UnboundLocalError` (`NothingAccumulated` here).
- **`individual_vars` for dropout.** The dropout predictor draws several samples but never sets `individual_vars` (lines 337-361), so it stays `None` as the base constructor left it.
- **Unknown method names.** An unrecognised explicit method name and an inferred name missing from the table (`sigmoid`, or none) raise the same `NotImplementedError`, naming the method (lines 448-451). Only `spectra` raises a `ValueError` (line 436). Here both are `UnsupportedMethod(name)`, told apart only by the name.
- **When the label is set.** The label is set after the base constructor returns (line 79 and its counterparts), that is, after the loop.

## Model

| member | source | states |
|---|---|---|
| Applicability.MveArgumentErrors | chemprop/uncertainty/uncertainty_predictor.py:81-84 | MVE: fails, with the MVE-loss error, exactly when the loss function is not `mve` |
| Applicability.EvidentialArgumentErrors | chemprop/uncertainty/uncertainty_predictor.py:130-135 | evidential (the same check at 184-189 and 238-243): passes exactly when the loss is `evidential` and the dataset `regression`; a wrong loss is reported before a wrong dataset type |
| Applicability.EnsembleArgumentErrors | chemprop/uncertainty/uncertainty_predictor.py:292-295 | ensemble: fails exactly when there is exactly one model |
| Applicability.DropoutArgumentErrors | chemprop/uncertainty/uncertainty_predictor.py:332-335 | dropout: passes exactly when there is at most one model |
| Applicability.ClassArgumentErrors | chemprop/uncertainty/uncertainty_predictor.py:375-378 | classification: passes exactly when the dataset type is `classification` or `multiclass` |
| Applicability.RaiseArgumentErrors | chemprop/uncertainty/uncertainty_predictor.py:36 | the check the constructor runs is the predictor's own; every failure is a configuration error, and the per-predictor conditions hold as above |
| Applicability.ModelCountMattersOnlyForSampling | chemprop/uncertainty/uncertainty_predictor.py:81-84 | the checks other than ensemble and dropout give the same answer whatever the model count |
| Applicability.EnsembleAndDropoutSplitModelCounts | chemprop/uncertainty/uncertainty_predictor.py:292-295 | the ensemble check (294) and the dropout check (334) both pass only for zero models |
| Applicability.Label | chemprop/uncertainty/uncertainty_predictor.py:79 | each label ends in `_uncal_var` for the regression predictors (79, 128, 182, 236, 290, 330) and in `_uncal_confidence` for classification (373) |
| Applicability.LabelsDistinct | chemprop/uncertainty/uncertainty_predictor.py:373 | no two predictors share a label |
| SharedDataset.EvaluationData.ResetFeaturesAndTargets | chemprop/uncertainty/uncertainty_predictor.py:91 | the dataset is back to raw inputs and the reset is logged |
| SharedDataset.EvaluationData.NormalizeFeatures | chemprop/uncertainty/uncertainty_predictor.py:92-97 | one normalisation is applied on top of the current ones and logged |
| SharedDataset.ApplyScalers | chemprop/uncertainty/uncertainty_predictor.py:89-97 | after the scaling step the dataset holds `Prepared(before, tuple)` and the log grows by exactly `ScalingEvents(tuple)` |
| SharedDataset.NormalisationsMatchTuple | chemprop/uncertainty/uncertainty_predictor.py:89-97 | a normalisation is applied exactly when the tuple holds that scaler in that slot |
| SharedDataset.NormalisationsOrdered | chemprop/uncertainty/uncertainty_predictor.py:92-97 | features come before atom descriptors, which come before bond features, each at most once |
| SharedDataset.ResetOnlyBeforeNormalising | chemprop/uncertainty/uncertainty_predictor.py:90-91 | the dataset is reset exactly when some normalisation follows, and the reset comes first |
| SharedDataset.PreparedIdempotent | chemprop/uncertainty/uncertainty_predictor.py:339-347 | repeating a scaling step with the same tuple changes nothing more |
| SharedDataset.Normalisations | chemprop/uncertainty/uncertainty_predictor.py:92-97 | a tuple asks for at least one normalisation exactly when it has an input scaler, and for at most three |
| SharedDataset.ScalingEvents | chemprop/uncertainty/uncertainty_predictor.py:90-97 | a step logs nothing without an input scaler, otherwise one reset and one event per normalisation |
| SharedDataset.ReplayScalingEvents | chemprop/uncertainty/uncertainty_predictor.py:90-97 | replaying the events a step logs on the data held before gives exactly what the step leaves (`Prepared`): the log accounts for the state |
| Predictors.CallCount | chemprop/uncertainty/uncertainty_predictor.py:87 | the loop runs `num_models` iterations, or for dropout `dropout_sampling_size` (338), none when that is not positive |
| Predictors.ModelOf | chemprop/uncertainty/uncertainty_predictor.py:349 | call `i` uses model `i` (99-100), or model 0 for dropout; never a model beyond `i` |
| Predictors.TupleOf | chemprop/uncertainty/uncertainty_predictor.py:89 | call `i` unpacks tuple `i`, or tuple 0 for dropout (339); it is one of the given tuples |
| Predictors.ItemVariance | chemprop/uncertainty/uncertainty_predictor.py:108-109 | MVE: the variance `predict` returns; evidential (158, 212, 266): non-negative on evidential-head outputs; 0.0 where a formula would divide by zero |
| Predictors.CallAt | chemprop/uncertainty/uncertainty_predictor.py:99-104 | call `i` is the `i`-th of the loop and uses model `i`, or model 0 for dropout (349) |
| Predictors.PredsInCallOrder | chemprop/uncertainty/uncertainty_predictor.py:105-111 | entry `k` of the accumulated predictions is the prediction of call `k` |
| Predictors.VarsInCallOrder | chemprop/uncertainty/uncertainty_predictor.py:108-114 | entry `k` of `individual_vars` is the variance of call `k` |
| Predictors.RunError | chemprop/uncertainty/uncertainty_predictor.py:86-119 | a loop ends without error exactly when it runs at least one iteration and every iteration finds its tuple and model; `UnboundLocalError` exactly when it runs none; otherwise `IndexError` |
| Predictors.ScaledCalls | chemprop/uncertainty/uncertainty_predictor.py:87-97 | a loop runs at most one scaling step per iteration, each finding its tuple, and one that stops short ends in `IndexError` |
| Predictors.ScaledCallsCovered | chemprop/uncertainty/uncertainty_predictor.py:87-89 | every scaling step a loop runs finds its scaler tuple; a loop without error runs all its calls, at least one |
| Predictors.FailureShape | chemprop/uncertainty/uncertainty_predictor.py:339 | a missing tuple or model ends the loop with `IndexError`, after the scaling steps that ran (for dropout, `models[0]` at 349 fails after the step) |
| Predictors.CompletionShape | chemprop/uncertainty/uncertainty_predictor.py:116 | a loop that runs every iteration ends without error exactly when it ran at least one |
| Predictors.Aggregate | chemprop/uncertainty/uncertainty_predictor.py:116-119 | the stored prediction is the mean of the calls' predictions; a variance exactly for the regression predictors, a confidence equal to the prediction exactly for classification (401-402), `individual_vars` with one entry per call exactly for MVE and evidential |
| Predictors.Reduce | chemprop/uncertainty/uncertainty_predictor.py:116-119 | the prediction is Σp/N; a variance is stored exactly for the regression predictors (117, 171, 225, 279, 321, 361); a confidence exactly for classification (402); `individual_vars` exactly for MVE and evidential |
| Predictors.ReduceAccumulated | chemprop/uncertainty/uncertainty_predictor.py:116-117 | reducing the accumulators of `n` calls gives `Aggregate`: the mean, and the MVE or ensemble variance of the per-call values |
| Predictors.Accumulate | chemprop/uncertainty/uncertainty_predictor.py:105-114 | one iteration adds the call's prediction to Σp (binding it on the first call) and grows `individual_vars` by one; classification keeps no Σp² (397-400), ensemble, dropout and classification no Σv or `individual_vars` |
| Predictors.AccumulatedPreds | chemprop/uncertainty/uncertainty_predictor.py:105-112 | after `n` calls the accumulators hold Σp and (but for classification, 397-400) Σp² of those calls |
| Predictors.AccumulatedVars | chemprop/uncertainty/uncertainty_predictor.py:108-114 | MVE and evidential: after `n` calls the accumulators hold the per-call variances in order and their sum |
| Predictors.UncertaintyPredictor.constructor | chemprop/uncertainty/uncertainty_predictor.py:21-34 | the configuration is stored and every output attribute is `None` |
| Predictors.UncertaintyPredictor.GetUncalPreds | chemprop/uncertainty/uncertainty_predictor.py:56-58 | returns the stored `uncal_preds` |
| Predictors.UncertaintyPredictor.GetUncalVars | chemprop/uncertainty/uncertainty_predictor.py:60-62 | returns the stored `uncal_vars` |
| Predictors.UncertaintyPredictor.GetUncalConfidence | chemprop/uncertainty/uncertainty_predictor.py:64-66 | returns the stored `uncal_confidence` |
| Predictors.UncertaintyPredictor.GetIndividualVars | chemprop/uncertainty/uncertainty_predictor.py:68-70 | returns the stored `individual_vars` |
| Predictors.UncertaintyPredictor.GetUncalOutput | chemprop/uncertainty/uncertainty_predictor.py:121-122 | the variance for the six regression predictors, the confidence for classification (404-405) |
| Predictors.UncertaintyPredictor.Pass | chemprop/uncertainty/uncertainty_predictor.py:89-114 | one iteration. It fails with `IndexError` exactly when call `i`'s tuple or model is missing. A present tuple runs its scaling step, so the dataset and log are those after call `i`. On success the accumulators are those of the first `i + 1` calls |
| Predictors.UncertaintyPredictor.RunModels | chemprop/uncertainty/uncertainty_predictor.py:87-114 | the loop ends in exactly the error `RunError` names. The dataset and its log are those after the scaling steps that ran. On success the accumulators are those of all calls |
| Predictors.UncertaintyPredictor.CalculatePredictions | chemprop/uncertainty/uncertainty_predictor.py:86-119 | on success it stores exactly `Aggregate` of the loop's calls and leaves the attributes the predictor does not compute unchanged; on failure no output changes |
| Predictors.NewPredictor | chemprop/uncertainty/uncertainty_predictor.py:36-42 | a failing check raises before the dataset is touched. Otherwise the loop's error is raised, or a fresh predictor with the label (79) and the aggregate of its calls is returned |
| PredictorProperties.StoredPredictionIsMean | chemprop/uncertainty/uncertainty_predictor.py:116 | the stored prediction times N gives back the sum of the per-call predictions |
| PredictorProperties.EnsembleVarianceIsDispersion | chemprop/uncertainty/uncertainty_predictor.py:321 | ensemble and dropout (361): the stored variance is the mean squared deviation of the predictions from their mean, so it is non-negative |
| PredictorProperties.StoredOutputsIgnoreCallOrder | chemprop/uncertainty/uncertainty_predictor.py:116-117 | two runs of one predictor whose calls return the same predictions and variances in another order store the same prediction, variance and confidence (also 320-321, 360-361, 401-402) |
| PredictorProperties.AgreeingCallsGiveZeroVariance | chemprop/uncertainty/uncertainty_predictor.py:320-321 | ensemble and dropout: calls that all predict `c` give prediction `c` and variance 0 |
| PredictorProperties.MveVarianceIsTotalVariance | chemprop/uncertainty/uncertainty_predictor.py:117 | MVE and evidential: the stored variance is the mean of the per-model variances plus the ensemble dispersion |
| PredictorProperties.MveVarianceAtLeastModelVariance | chemprop/uncertainty/uncertainty_predictor.py:117 | MVE: with non-negative model variances the stored variance is at least their mean, which is non-negative |
| PredictorProperties.EvidentialVarianceNonNegative | chemprop/uncertainty/uncertainty_predictor.py:158 | evidential (158, 212, 266): when every call of the run returns evidential-head outputs (λ > 0, α > 1, β ≥ 0) the stored variance is non-negative |
| PredictorProperties.SameCallsAcrossVariants | chemprop/uncertainty/uncertainty_predictor.py:87-97 | two non-dropout predictors on the same scalers and dataset make the same calls on the same data |
| PredictorProperties.EvidentialTotalSplits | chemprop/uncertainty/uncertainty_predictor.py:171 | for the three evidential predictors on the same models and data, total variance plus ensemble dispersion equals aleatoric plus epistemic variance |
| PredictorProperties.IndividualVarsInModelOrder | chemprop/uncertainty/uncertainty_predictor.py:119 | `individual_vars` holds one variance per model, the `k`-th from model `k`'s call |
| PredictorProperties.PrimaryOutput | chemprop/uncertainty/uncertainty_predictor.py:121-122 | a constructed regression predictor's primary output is its variance, always present; classification's is its confidence, equal to its prediction (402), with no variance; `individual_vars` exists exactly for MVE and evidential |
| PredictorProperties.CallData | chemprop/uncertainty/uncertainty_predictor.py:89-104 | a call whose tuple has an input scaler sees exactly its own normalisations; otherwise it sees what the previous call saw, or the dataset as given |
| PredictorProperties.DropoutSamplesSeeSameData | chemprop/uncertainty/uncertainty_predictor.py:338-353 | every dropout sample sees the same data: the dataset as given, prepared with the first tuple |
| PredictorProperties.UnscaledModelsLeaveDataUntouched | chemprop/uncertainty/uncertainty_predictor.py:90 | when no tuple has an input scaler, the loop never resets or normalises the dataset |
| Moments.MeanOf | chemprop/uncertainty/uncertainty_predictor.py:116 | the mean times the count gives back the accumulated sum; a non-negative sum gives a non-negative mean |
| Moments.EnsembleVarianceOf | chemprop/uncertainty/uncertainty_predictor.py:321 | Σp²/N − (Σp)²/N² is the mean of the squares less the square of the mean (also 361) |
| Moments.MveVarianceOf | chemprop/uncertainty/uncertainty_predictor.py:117 | (Σv + Σp²)/N − (Σp/N)² is the mean of the variances plus the ensemble formula |
| Moments.EvidentialTotalVariance | chemprop/uncertainty/uncertainty_predictor.py:158 | β(1 + 1/λ)/(α − 1) is the aleatoric (212) plus the epistemic (266) variance, and non-negative for λ > 0, α > 1, β ≥ 0 |
| Moments.EvidentialAleatoricVariance | chemprop/uncertainty/uncertainty_predictor.py:212 | β/(α − 1) times α − 1 gives back β; non-negative for α > 1, β ≥ 0 |
| Moments.EvidentialEpistemicVariance | chemprop/uncertainty/uncertainty_predictor.py:266 | β/(λ(α − 1)) times λ gives the aleatoric variance; non-negative for λ > 0, α > 1, β ≥ 0 |
| Moments.SumsIgnoreOrder | chemprop/uncertainty/uncertainty_predictor.py:105-114 | Σx and Σx² accumulated in any order of the same values are equal |
| Moments.ReductionsIgnoreOrder | chemprop/uncertainty/uncertainty_predictor.py:116-117 | the mean, the ensemble formula (321) and the MVE formula depend only on the multisets of predictions and variances, not on the order of the models |
| Moments.EnsembleVarianceIsSpread | chemprop/uncertainty/uncertainty_predictor.py:321 | Σp²/N − (Σp)²/N² equals the mean squared deviation from the mean |
| Moments.EnsembleVarianceNonNegative | chemprop/uncertainty/uncertainty_predictor.py:361 | the ensemble/dropout formula is never negative in exact arithmetic |
| Moments.EnsembleVarianceZeroWhenAgree | chemprop/uncertainty/uncertainty_predictor.py:320-321 | equal predictions give that value as the mean and variance zero |
| Moments.MveVarianceDecomposes | chemprop/uncertainty/uncertainty_predictor.py:117 | (Σv + Σp²)/N − (Σp/N)² equals mean(v) plus the ensemble formula |
| Moments.MveVarianceAtLeastMeanVariance | chemprop/uncertainty/uncertainty_predictor.py:117 | with non-negative model variances the MVE formula is at least their mean |
| Moments.MveWithoutOwnVarianceIsEnsemble | chemprop/uncertainty/uncertainty_predictor.py:117 | with all model variances zero the MVE formula (117) equals the ensemble formula (321) |
| Moments.MveVarianceSplitsOverComponents | chemprop/uncertainty/uncertainty_predictor.py:225 | when each model variance is the sum of two parts, the MVE formula on the sums plus the ensemble dispersion equals the MVE formulas on the parts |
| Moments.TwoModelExample | chemprop/uncertainty/uncertainty_predictor.py:320-321 | predictions 1.0 and 3.0 give mean 2.0 and variance 1.0 |
| Factory.InferMethodName | chemprop/uncertainty/uncertainty_predictor.py:421-436 | an explicit method is kept. Without one the only failure is `spectra` with a non-MVE loss, a `ValueError` (436) |
| Factory.InferenceTable | chemprop/uncertainty/uncertainty_predictor.py:421-435 | the inferred name for each combination of loss, dataset type and model count, including `sigmoid` for multiclass and no name for unlisted types |
| Factory.MethodName | chemprop/uncertainty/uncertainty_predictor.py:438-446 | every predictor has a key in the table that maps back to it |
| Factory.TableIsOneToOne | chemprop/uncertainty/uncertainty_predictor.py:438-446 | each key of the table is the name of the predictor it selects |
| Factory.LookupPredictor | chemprop/uncertainty/uncertainty_predictor.py:448-451 | a name in the table selects its predictor. Any other name, or none, raises `NotImplementedError` naming what was asked for |
| Factory.SelectPredictor | chemprop/uncertainty/uncertainty_predictor.py:421-451 | an explicit method succeeds exactly when it is in the table, selecting the predictor of that name, and otherwise fails naming it |
| Factory.InferredPredictorIsApplicable | chemprop/uncertainty/uncertainty_predictor.py:421-434 | every predictor the builder infers by itself passes its own check |
| Factory.InferenceFailures | chemprop/uncertainty/uncertainty_predictor.py:431-451 | without a method the builder fails exactly for a non-MVE loss on a dataset that is neither regression nor classification: spectra with `ValueError`, multiclass as unknown `sigmoid`, others as unknown `None` |
| Factory.UncertaintyPredictorBuilder | chemprop/uncertainty/uncertainty_predictor.py:408-463 | a selection error is raised before the dataset is touched. Otherwise the selected predictor's check, then its loop, decides the result. A success is a fresh predictor of the selected kind with its label and the aggregate of its calls |

## Left out

- `predict`, the models and the scalers are collaborators:
  - `predict` is a function from the call (its index, the model, the dataset's normalisations) to one cell's output;
  - models are known only by their count;
  - scalers are known only by their identity.
- What a normalisation does to the molecules, and how `predict` batches them, is not modelled. The dataset is a record of the normalisations applied since its last reset, plus a log of resets and normalisations.
- `MoleculeDataLoader`, `batch_size` and `num_workers` (lines 37-41) only feed `predict` and are not modelled. The same goes for the `erf` import (line 4).
- Arrays: numpy works element-wise, so one cell (one molecule and task) stands for the whole `(examples × tasks)` arrays. `.tolist()` (lines 118, 172, 226, 280), which only changes the container, is not modelled.
- Floating point: values are exact reals. Rounding, overflow, inf and nan are not modelled, so the ensemble variance is non-negative here but may be slightly negative in floats.
- Predictors.ItemVariance: where an evidential formula would divide by zero (α = 1, or λ = 0 for total and epistemic), numpy yields inf or nan. The reals have no such value, so the model yields 0.0 instead.
- The attribute `uncal_output` (line 31) is set to `None` and never read or written again, so it is not modelled.
- Python's dynamic errors are folded into the error datatype:
  - `NothingAccumulated` stands for the `UnboundLocalError` of a loop with no iteration;
  - `IndexOutOfRange` stands for the `IndexError` of a missing tuple or model.
  - The model does not record the partial accumulation done before such an error, because the error escapes the constructor and no predictor is returned.
- Predictors.NewPredictor: the evidential and classification constructors (lines 126, 180, 234, 371) take no `dropout_sampling_size`, yet their `super().__init__` calls pass one argument fewer than the base constructor needs (lines 127, 181, 235, 372). Constructing them therefore raises a `TypeError` as the code is written. The model constructs them with the attributes the base constructor would set.
- Factory.UncertaintyPredictorBuilder: likewise, the builder passes `dropout_sampling_size` to every constructor (line 461), which the evidential and classification constructors do not accept. The model builds those predictors instead of raising that `TypeError`.
- PredictorProperties.AgreeingCallsGiveZeroVariance: the converse (zero variance only when all predictions agree) is not stated; it needs a real square root argument that the properties here do not use.
- PredictorProperties.StoredOutputsIgnoreCallOrder: order independence is stated on the multisets of the per-call outputs, not on a permutation of the models; `individual_vars` is a list in call order, so it is excluded.
- `predict` calls are not entries of the dataset's log, and a `Call` carries neither the target scaler (the first element of the tuple) nor the `return_unc_parameters` flag (lines 99-104). That a failed check calls no model follows from `predict` being a pure function of its call, and is not stated as an event count.
