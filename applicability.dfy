/**
  The seven uncertainty predictors, the errors the core reports, and each
  predictor's applicability check (`raise_argument_errors`), which the
  constructor runs before any inference.
*/
module Applicability {
  import opened Wrappers

  /** One constructor per predictor class. */
  datatype Variant =
    | Mve
    | EvidentialTotal
    | EvidentialAleatoric
    | EvidentialEpistemic
    | Ensemble
    | Dropout
    | Class
  {
    predicate IsEvidential()
    {
      this == EvidentialTotal || this == EvidentialAleatoric || this == EvidentialEpistemic
    }

    /** The variants that ask `predict` for a per-model variance and keep `individual_vars`. */
    predicate TracksOwnVariance()
    {
      this == Mve || IsEvidential()
    }

    /** Every variant but the classification one reports a variance. */
    predicate ReportsVariance()
    {
      this != Class
    }
  }

  /** The failures of the core, one per distinct raise (or implicit Python error) in the source. */
  datatype Error =
    // ValueError from raise_argument_errors
    | NeedsMveLoss
    | NeedsEvidentialLoss
    | EvidentialNeedsRegression
    | EnsembleNeedsSeveralModels
    | DropoutNeedsSingleModel
    | ClassNeedsClassification
    // ValueError from the builder when no method is given for a spectra dataset
    | SpectraUnsupported
    // NotImplementedError from the builder, naming the method it could not find
    | UnsupportedMethod(requested: Option<string>)
    // UnboundLocalError: the loop ran no iteration, so the accumulators were never bound
    | NothingAccumulated
    // IndexError: `scalers[i]` or `models[0]` past the end of its list
    | IndexOutOfRange

  /** The errors `raise_argument_errors` can raise (a configuration error, before any inference). */
  predicate IsArgumentError(e: Error)
  {
    e.NeedsMveLoss? || e.NeedsEvidentialLoss? || e.EvidentialNeedsRegression?
    || e.EnsembleNeedsSeveralModels? || e.DropoutNeedsSingleModel? || e.ClassNeedsClassification?
  }

  /** `MVEPredictor.raise_argument_errors`: the models must have been trained with the MVE loss. */
  function MveArgumentErrors(lossFunction: string): (r: Option<Error>)
    ensures r.None? <==> lossFunction == "mve"
    ensures r.Some? ==> r.value == NeedsMveLoss
  {
    if lossFunction != "mve" then Some(NeedsMveLoss) else None
  }

  /** The evidential predictors' `raise_argument_errors`: evidential loss first, then a regression dataset. */
  function EvidentialArgumentErrors(lossFunction: string, datasetType: string): (r: Option<Error>)
    ensures r.None? <==> lossFunction == "evidential" && datasetType == "regression"
    ensures lossFunction != "evidential" ==> r == Some(NeedsEvidentialLoss)
    ensures lossFunction == "evidential" && r.Some? ==> r.value == EvidentialNeedsRegression
  {
    if lossFunction != "evidential" then Some(NeedsEvidentialLoss)
    else if datasetType != "regression" then Some(EvidentialNeedsRegression)
    else None
  }

  /** `EnsemblePredictor.raise_argument_errors`: refuses exactly one model (and nothing else). */
  function EnsembleArgumentErrors(numModels: nat): (r: Option<Error>)
    ensures r.None? <==> numModels != 1
    ensures r.Some? ==> r.value == EnsembleNeedsSeveralModels
  {
    if numModels == 1 then Some(EnsembleNeedsSeveralModels) else None
  }

  /** `DropoutPredictor.raise_argument_errors`: refuses more than one model. */
  function DropoutArgumentErrors(numModels: nat): (r: Option<Error>)
    ensures r.None? <==> numModels <= 1
    ensures r.Some? ==> r.value == DropoutNeedsSingleModel
  {
    if numModels > 1 then Some(DropoutNeedsSingleModel) else None
  }

  /** `ClassPredictor.raise_argument_errors`: a classification or multiclass dataset. */
  function ClassArgumentErrors(datasetType: string): (r: Option<Error>)
    ensures r.None? <==> datasetType == "classification" || datasetType == "multiclass"
    ensures r.Some? ==> r.value == ClassNeedsClassification
  {
    if datasetType !in ["classification", "multiclass"] then Some(ClassNeedsClassification) else None
  }

  /**
    The `raise_argument_errors` the constructor calls, dispatched on the
    predictor: the first check that fails, or `None` when the predictor may
    run on models trained with `lossFunction` for a dataset of `datasetType`.
    `numModels` is `len(models)`.
  */
  function RaiseArgumentErrors(v: Variant, lossFunction: string, datasetType: string, numModels: nat): (r: Option<Error>)
    ensures r.Some? ==> IsArgumentError(r.value)
    ensures v == Mve ==> (r.None? <==> lossFunction == "mve")
    ensures v.IsEvidential() ==> (r.None? <==> lossFunction == "evidential" && datasetType == "regression")
    ensures v.IsEvidential() && lossFunction != "evidential" ==> r == Some(NeedsEvidentialLoss)
    ensures v == Ensemble ==> (r.None? <==> numModels != 1)
    ensures v == Dropout ==> (r.None? <==> numModels <= 1)
    ensures v == Class ==> (r.None? <==> datasetType in ["classification", "multiclass"])
  {
    match v
    case Mve => MveArgumentErrors(lossFunction)
    case EvidentialTotal | EvidentialAleatoric | EvidentialEpistemic => EvidentialArgumentErrors(lossFunction, datasetType)
    case Ensemble => EnsembleArgumentErrors(numModels)
    case Dropout => DropoutArgumentErrors(numModels)
    case Class => ClassArgumentErrors(datasetType)
  }

  /** The check reads the model count only for the ensemble and dropout predictors. */
  lemma ModelCountMattersOnlyForSampling(v: Variant, lossFunction: string, datasetType: string, n1: nat, n2: nat)
    requires v != Ensemble && v != Dropout
    ensures RaiseArgumentErrors(v, lossFunction, datasetType, n1) == RaiseArgumentErrors(v, lossFunction, datasetType, n2)
  {
  }

  /** The ensemble and dropout checks accept disjoint model counts apart from zero models, which both accept. */
  lemma EnsembleAndDropoutSplitModelCounts(lossFunction: string, datasetType: string, n: nat)
    ensures RaiseArgumentErrors(Ensemble, lossFunction, datasetType, n).None?
         && RaiseArgumentErrors(Dropout, lossFunction, datasetType, n).None?
        <==> n == 0
  {
  }

  /** The quantity the label names: a variance for the regression predictors, a confidence for the classification one. */
  function LabelSuffix(v: Variant): string
  {
    if v.ReportsVariance() then "_uncal_var" else "_uncal_confidence"
  }

  /** The `label` each predictor sets once it is constructed: the method, then the quantity it reports. */
  function Label(v: Variant): (r: string)
    ensures |r| > |LabelSuffix(v)| && r[|r| - |LabelSuffix(v)|..] == LabelSuffix(v)
  {
    var stem := match v
      case Mve => "mve"
      case EvidentialTotal => "evidential_total"
      case EvidentialAleatoric => "evidential_aleatoric"
      case EvidentialEpistemic => "evidential_epistemic"
      case Ensemble => "ensemble"
      case Dropout => "dropout"
      case Class => "classification";
    assert |stem| > 0;
    stem + LabelSuffix(v)
  }

  /** No two predictors share a label, so the label identifies the predictor. */
  lemma LabelsDistinct(v: Variant, w: Variant)
    ensures Label(v) == Label(w) ==> v == w
  {
  }
}
