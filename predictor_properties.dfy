/**
  What the stored outputs of a predictor mean, and which data each `predict`
  call sees, stated on the specification functions of `Predictors`.
*/
module PredictorProperties {
  import opened Wrappers
  import opened Moments
  import opened Applicability
  import opened SharedDataset
  import opened Predictors

  // ---------------------------------------------------------------------------
  // The stored outputs

  /** The stored prediction, the mean of the per-call predictions, times the count gives back their sum. */
  lemma StoredPredictionIsMean(r: Run, n: nat)
    requires n > 0 && ScalersCover(r, n)
    ensures Aggregate(r, n).preds * (n as real) == Sum(Preds(r, n))
  {
    hide *;
    var ps := Preds(r, n);
    assert |ps| == n;
    assert Aggregate(r, n).preds == Mean(ps);
    MeanTimesLength(ps);
  }

  /**
    Ensemble and dropout: the stored variance is the mean squared deviation of
    the per-call predictions from their mean, hence never negative.
  */
  lemma EnsembleVarianceIsDispersion(r: Run, n: nat)
    requires r.variant == Ensemble || r.variant == Dropout
    requires n > 0 && ScalersCover(r, n)
    ensures Aggregate(r, n).vars == Some(MeanSquaredDeviation(Preds(r, n)))
    ensures Aggregate(r, n).vars.value >= 0.0
  {
    EnsembleVarianceIsSpread(Preds(r, n));
    EnsembleVarianceNonNegative(Preds(r, n));
  }

  /**
    The stored prediction, variance and confidence depend only on the
    multisets of the per-call predictions and variances: two runs of one
    predictor whose calls return the same values in another order store the
    same outputs.
  */
  lemma StoredOutputsIgnoreCallOrder(r1: Run, r2: Run, n: nat)
    requires r1.variant == r2.variant
    requires n > 0 && ScalersCover(r1, n) && ScalersCover(r2, n)
    requires multiset(Preds(r1, n)) == multiset(Preds(r2, n))
    requires r1.variant.TracksOwnVariance() ==> multiset(Vars(r1, n)) == multiset(Vars(r2, n))
    ensures Aggregate(r1, n).preds == Aggregate(r2, n).preds
    ensures Aggregate(r1, n).vars == Aggregate(r2, n).vars
    ensures Aggregate(r1, n).confidence == Aggregate(r2, n).confidence
  {
    hide ItemVariance;
    if r1.variant.TracksOwnVariance() {
      ReductionsIgnoreOrder(Preds(r1, n), Vars(r1, n), Preds(r2, n), Vars(r2, n));
    } else {
      ReductionsIgnoreOrder(Preds(r1, n), Preds(r1, n), Preds(r2, n), Preds(r2, n));
    }
  }

  /** Ensemble and dropout: calls that all predict `c` give the prediction `c` and variance zero. */
  lemma AgreeingCallsGiveZeroVariance(r: Run, n: nat, c: real)
    requires r.variant == Ensemble || r.variant == Dropout
    requires n > 0 && ScalersCover(r, n)
    requires forall k :: 0 <= k < n ==> OutputAt(r, k).pred == c
    ensures Aggregate(r, n).preds == c
    ensures Aggregate(r, n).vars == Some(0.0)
  {
    PredsInCallOrder(r, n);
    EnsembleVarianceZeroWhenAgree(Preds(r, n), c);
  }

  /**
    MVE and evidential: the stored variance is the mean of the per-model
    variances plus the ensemble dispersion of the predictions.
  */
  lemma MveVarianceIsTotalVariance(r: Run, n: nat)
    requires r.variant.TracksOwnVariance()
    requires n > 0 && ScalersCover(r, n)
    ensures Aggregate(r, n).vars == Some(Mean(Vars(r, n)) + EnsembleVariance(Preds(r, n)))
  {
    MveVarianceDecomposes(Preds(r, n), Vars(r, n));
  }

  /** MVE: when every model reports a non-negative variance, the stored variance is at least their mean, itself non-negative. */
  lemma MveVarianceAtLeastModelVariance(r: Run, n: nat)
    requires r.variant == Mve
    requires n > 0 && ScalersCover(r, n)
    requires forall k :: 0 <= k < n ==> OutputAt(r, k).variance >= 0.0
    ensures Aggregate(r, n).vars.value >= Mean(Vars(r, n)) >= 0.0
  {
    VarsInCallOrder(r, n);
    MveVarianceAtLeastMeanVariance(Preds(r, n), Vars(r, n));
  }

  /** Evidential: on the outputs of an evidential head the stored variance is non-negative, whichever of the three it is. */
  lemma EvidentialVarianceNonNegative(r: Run, n: nat)
    requires r.variant.IsEvidential()
    requires n > 0 && ScalersCover(r, n)
    requires forall k :: 0 <= k < n ==> EvidentialHead(OutputAt(r, k))
    ensures Aggregate(r, n).vars.value >= 0.0
  {
    var vs := Vars(r, n);
    VarsInCallOrder(r, n);
    assert forall k :: 0 <= k < n ==> vs[k] >= 0.0;
    MveVarianceAtLeastMeanVariance(Preds(r, n), vs);
  }

  /** Runs that differ only in the (non-dropout) predictor make the same calls and see the same data. */
  lemma {:induction false} SameCallsAcrossVariants(r1: Run, r2: Run, n: nat)
    requires r1.variant != Dropout && r2.variant != Dropout
    requires r1.scalers == r2.scalers && r1.start == r2.start
    requires ScalersCover(r1, n)
    ensures ScalersCover(r2, n)
    ensures AppliedAfter(r1, n) == AppliedAfter(r2, n)
    decreases n
  {
    if n > 0 {
      SameCallsAcrossVariants(r1, r2, n - 1);
    }
  }

  /**
    For the three evidential predictors run on the same models and data, the
    total variance plus the ensemble dispersion of the predictions equals the
    aleatoric plus the epistemic variance.
  */
  lemma EvidentialTotalSplits(scalers: seq<ScalerTuple>, start: seq<Normalisation>, infer: Call -> Inference, n: nat)
    requires forall c :: FormulaDefined(EvidentialTotal, infer(c))
    requires 0 < n <= |scalers|
    ensures
      var total := Run(EvidentialTotal, scalers, start, infer);
      var aleatoric := Run(EvidentialAleatoric, scalers, start, infer);
      var epistemic := Run(EvidentialEpistemic, scalers, start, infer);
      Aggregate(total, n).vars.value + EnsembleVariance(Preds(total, n))
        == Aggregate(aleatoric, n).vars.value + Aggregate(epistemic, n).vars.value
  {
    var total := Run(EvidentialTotal, scalers, start, infer);
    var aleatoric := Run(EvidentialAleatoric, scalers, start, infer);
    var epistemic := Run(EvidentialEpistemic, scalers, start, infer);
    var ps := Preds(total, n);
    forall k | 0 <= k < n
      ensures OutputAt(aleatoric, k) == OutputAt(total, k) && OutputAt(epistemic, k) == OutputAt(total, k)
    {
      SameCallsAcrossVariants(total, aleatoric, k + 1);
      SameCallsAcrossVariants(total, epistemic, k + 1);
    }
    PredsInCallOrder(total, n);
    PredsInCallOrder(aleatoric, n);
    PredsInCallOrder(epistemic, n);
    assert Preds(aleatoric, n) == ps;
    assert Preds(epistemic, n) == ps;
    var vt, va, ve := Vars(total, n), Vars(aleatoric, n), Vars(epistemic, n);
    VarsInCallOrder(total, n);
    VarsInCallOrder(aleatoric, n);
    VarsInCallOrder(epistemic, n);
    assert forall k :: 0 <= k < n ==> vt[k] == va[k] + ve[k];
    MveVarianceSplitsOverComponents(ps, vt, va, ve);
  }

  /** MVE and evidential: `individual_vars` holds one variance per model, the k-th from model k's call. */
  lemma IndividualVarsInModelOrder(r: Run, n: nat)
    requires r.variant.TracksOwnVariance()
    requires n > 0 && ScalersCover(r, n)
    ensures Aggregate(r, n).individualVars.Some?
    ensures |Aggregate(r, n).individualVars.value| == n
    ensures forall k :: 0 <= k < n ==>
      CallAt(r, k).model == k && Aggregate(r, n).individualVars.value[k] == ItemVariance(r.variant, r.infer(CallAt(r, k)))
  {
    VarsInCallOrder(r, n);
  }

  /**
    The primary output of a constructed predictor: its variance for the
    regression predictors (always present), its confidence, equal to its
    prediction, for the classification one.
  */
  lemma PrimaryOutput(p: UncertaintyPredictor, r: Run, n: nat)
    requires n > 0 && ScalersCover(r, n)
    requires p.variant == r.variant && p.uncalPreds.Some? && p.Stored() == Aggregate(r, n)
    ensures p.variant.ReportsVariance() ==> p.GetUncalOutput().Some? && p.GetUncalOutput() == p.GetUncalVars()
    ensures p.variant == Class ==> p.GetUncalOutput() == p.GetUncalPreds() && p.GetUncalVars() == None
    ensures p.GetIndividualVars().Some? <==> p.variant.TracksOwnVariance()
  {
  }

  // ---------------------------------------------------------------------------
  // The data each call sees

  /** A call whose tuple has an input scaler sees exactly its own normalisations; otherwise it sees what the previous call saw. */
  lemma CallData(r: Run, i: nat)
    requires ScalersCover(r, i + 1)
    ensures AnyInputScaler(TupleOf(r, i)) ==> CallAt(r, i).data == Normalisations(TupleOf(r, i))
    ensures !AnyInputScaler(TupleOf(r, i)) && i > 0 ==> CallAt(r, i).data == CallAt(r, i - 1).data
    ensures !AnyInputScaler(TupleOf(r, i)) && i == 0 ==> CallAt(r, i).data == r.start
  {
    assert CallAt(r, i).data == Prepared(AppliedAfter(r, i), TupleOf(r, i));
  }

  /** Every dropout sample is drawn on the same data: the start, prepared once with the first tuple. */
  lemma {:induction false} DropoutSamplesSeeSameData(r: Run, i: nat)
    requires r.variant == Dropout && ScalersCover(r, i + 1)
    ensures CallAt(r, i).data == Prepared(r.start, r.scalers[0])
    decreases i
  {
    assert CallAt(r, i).data == Prepared(AppliedAfter(r, i), r.scalers[0]);
    if i > 0 {
      DropoutSamplesSeeSameData(r, i - 1);
      PreparedIdempotent(r.start, r.scalers[0]);
    }
  }

  /** When no tuple has an input scaler, the loop never touches the dataset and every call sees it as it was. */
  lemma {:induction false} UnscaledModelsLeaveDataUntouched(r: Run, n: nat)
    requires ScalersCover(r, n)
    requires forall i :: 0 <= i < n ==> !AnyInputScaler(TupleOf(r, i))
    ensures Trace(r, n) == []
    ensures AppliedAfter(r, n) == r.start
    decreases n
  {
    if n > 0 {
      UnscaledModelsLeaveDataUntouched(r, n - 1);
    }
  }
}
