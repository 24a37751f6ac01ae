/**
  `uncertainty_predictor_builder`: settle on a method name (the requested one,
  or one inferred from the loss function, the dataset type and the model
  count), look it up in the table of the seven supported predictors, and
  construct that predictor.
*/
module Factory {
  import opened Wrappers
  import opened Applicability
  import opened SharedDataset
  import opened Predictors

  /** The method name the builder settles on; `Success(None)` when no method is requested and the dataset type is unlisted. */
  function InferMethodName(requested: Option<string>, lossFunction: string, datasetType: string, numModels: nat)
    : (r: Result<Option<string>, Error>)
    ensures requested.Some? ==> r == Success(requested)
    ensures r.Failure? <==> requested.None? && lossFunction != "mve" && datasetType == "spectra"
    ensures r.Failure? ==> r.error == SpectraUnsupported
  {
    if requested.Some? then Success(requested)
    else if lossFunction == "mve" then Success(Some("mve"))
    else if datasetType == "regression" then
      if lossFunction == "evidential" then Success(Some("evidential_epistemic"))
      else if numModels > 1 then Success(Some("ensemble"))
      else Success(Some("dropout"))
    else if datasetType == "classification" then Success(Some("classification"))
    else if datasetType == "multiclass" then Success(Some("sigmoid"))
    else if datasetType == "spectra" then Failure(SpectraUnsupported)
    else Success(None)
  }

  /** The inference table for a builder called without a method. */
  lemma InferenceTable(lossFunction: string, datasetType: string, numModels: nat)
    ensures var r := InferMethodName(None, lossFunction, datasetType, numModels);
      && (lossFunction == "mve" ==> r == Success(Some("mve")))
      && (lossFunction == "evidential" && datasetType == "regression" ==> r == Success(Some("evidential_epistemic")))
      && (lossFunction !in ["mve", "evidential"] && datasetType == "regression" && numModels > 1 ==> r == Success(Some("ensemble")))
      && (lossFunction !in ["mve", "evidential"] && datasetType == "regression" && numModels <= 1 ==> r == Success(Some("dropout")))
      && (lossFunction != "mve" && datasetType == "classification" ==> r == Success(Some("classification")))
      && (lossFunction != "mve" && datasetType == "multiclass" ==> r == Success(Some("sigmoid")))
      && (lossFunction != "mve" && datasetType !in ["regression", "classification", "multiclass", "spectra"] ==> r == Success(None))
  {
  }

  /** `supported_predictors`: the seven method names and the predictor each selects. */
  const SupportedPredictors: map<string, Variant> := map[
    "mve" := Mve,
    "ensemble" := Ensemble,
    "classification" := Class,
    "evidential_total" := EvidentialTotal,
    "evidential_epistemic" := EvidentialEpistemic,
    "evidential_aleatoric" := EvidentialAleatoric,
    "dropout" := Dropout]

  /** The table key of each predictor. */
  function MethodName(v: Variant): (name: string)
    ensures name in SupportedPredictors && SupportedPredictors[name] == v
  {
    match v
    case Mve => "mve"
    case Ensemble => "ensemble"
    case Class => "classification"
    case EvidentialTotal => "evidential_total"
    case EvidentialEpistemic => "evidential_epistemic"
    case EvidentialAleatoric => "evidential_aleatoric"
    case Dropout => "dropout"
  }

  /** Each key of the table is the name of the predictor it selects: the table is one-to-one and covers every predictor. */
  lemma TableIsOneToOne(name: string)
    requires name in SupportedPredictors
    ensures MethodName(SupportedPredictors[name]) == name
  {
  }

  /** `supported_predictors.get`: the predictor of a name, or `NotImplementedError` naming what was asked for (including `None`). */
  function LookupPredictor(name: Option<string>): (r: Result<Variant, Error>)
    ensures r.Success? <==> name.Some? && name.value in SupportedPredictors
    ensures r.Success? ==> name == Some(MethodName(r.value))
    ensures r.Failure? ==> r.error == UnsupportedMethod(name)
  {
    if name.Some? && name.value in SupportedPredictors then
      TableIsOneToOne(name.value);
      Success(SupportedPredictors[name.value])
    else
      Failure(UnsupportedMethod(name))
  }

  /** The predictor the builder constructs, or the error it raises before constructing one. */
  function SelectPredictor(requested: Option<string>, lossFunction: string, datasetType: string, numModels: nat)
    : (r: Result<Variant, Error>)
    ensures requested.Some? ==> (r.Success? <==> requested.value in SupportedPredictors)
    ensures requested.Some? && r.Success? ==> MethodName(r.value) == requested.value
    ensures requested.Some? && r.Failure? ==> r.error == UnsupportedMethod(requested)
  {
    var name :- InferMethodName(requested, lossFunction, datasetType, numModels);
    LookupPredictor(name)
  }

  /** Every predictor the builder infers by itself passes its own applicability check. */
  lemma InferredPredictorIsApplicable(lossFunction: string, datasetType: string, numModels: nat)
    requires SelectPredictor(None, lossFunction, datasetType, numModels).Success?
    ensures RaiseArgumentErrors(SelectPredictor(None, lossFunction, datasetType, numModels).value,
                                lossFunction, datasetType, numModels).None?
  {
    InferenceTable(lossFunction, datasetType, numModels);
  }

  /**
    Without a requested method the builder fails exactly for a non-MVE loss on
    a dataset that is neither regression nor classification: spectra with a
    `ValueError`, multiclass because the inferred `sigmoid` is not in the
    table, any other type because the name stays `None`.
  */
  lemma InferenceFailures(lossFunction: string, datasetType: string, numModels: nat)
    ensures var r := SelectPredictor(None, lossFunction, datasetType, numModels);
      && (r.Failure? <==> lossFunction != "mve" && datasetType != "regression" && datasetType != "classification")
      && (r.Failure? && datasetType == "spectra" ==> r.error == SpectraUnsupported)
      && (r.Failure? && datasetType == "multiclass" ==> r.error == UnsupportedMethod(Some("sigmoid")))
      && (r.Failure? && datasetType != "spectra" && datasetType != "multiclass" ==> r.error == UnsupportedMethod(None))
  {
    InferenceTable(lossFunction, datasetType, numModels);
    assert "sigmoid" !in SupportedPredictors;
  }

  /**
    `uncertainty_predictor_builder`: select the predictor, then construct it
    (which runs its check and its loop). A selection error is raised before
    anything touches the dataset.
  */
  method UncertaintyPredictorBuilder(requested: Option<string>, testData: EvaluationData, numModels: nat,
                                     scalers: seq<ScalerTuple>, datasetType: string, lossFunction: string,
                                     dropoutSamplingSize: int, infer: Call -> Inference)
    returns (p: Result<UncertaintyPredictor, Error>)
    modifies testData
    ensures var s := SelectPredictor(requested, lossFunction, datasetType, numModels);
      s.Failure? ==> p == Failure(s.error) && unchanged(testData)
    ensures var s := SelectPredictor(requested, lossFunction, datasetType, numModels);
      s.Success? ==>
        var check := RaiseArgumentErrors(s.value, lossFunction, datasetType, numModels);
        var e := RunError(s.value, numModels, |scalers|, dropoutSamplingSize);
        && (check.Some? ==> p == Failure(check.value) && unchanged(testData))
        && (check.None? && e.Some? ==> p == Failure(e.value))
        && (check.None? && e.None? ==> p.Success?)
    ensures var s := SelectPredictor(requested, lossFunction, datasetType, numModels);
      s.Success? && RaiseArgumentErrors(s.value, lossFunction, datasetType, numModels).None? ==>
        var run := Run(s.value, scalers, old(testData.applied), infer);
        var k := ScaledCalls(s.value, numModels, |scalers|, dropoutSamplingSize);
        && ScalersCover(run, k)
        && testData.log == old(testData.log) + Trace(run, k)
        && testData.applied == AppliedAfter(run, k)
    ensures p.Success? ==>
      var v := SelectPredictor(requested, lossFunction, datasetType, numModels).value;
      var n := CallCount(v, numModels, dropoutSamplingSize);
      var run := Run(v, scalers, old(testData.applied), infer);
      && fresh(p.value)
      && p.value.variant == v && p.value.predictorLabel == Some(Label(v))
      && p.value.testData == testData && p.value.numModels == numModels && p.value.scalers == scalers
      && p.value.datasetType == datasetType && p.value.lossFunction == lossFunction
      && p.value.dropoutSamplingSize == dropoutSamplingSize
      && n > 0 && ScalersCover(run, n)
      && p.value.uncalPreds.Some? && p.value.Stored() == Aggregate(run, n)
  {
    var selected := SelectPredictor(requested, lossFunction, datasetType, numModels);
    if selected.Failure? {
      return Failure(selected.error);
    }
    p := NewPredictor(selected.value, testData, numModels, scalers, datasetType, lossFunction, dropoutSamplingSize, infer);
  }
}
