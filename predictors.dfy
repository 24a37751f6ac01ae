/**
  The uncertainty predictors: the inference loop each one runs at
  construction, the reduction of its accumulators, and the accessors.

  The seven predictor classes of the source share their attributes, their
  accessors and the shape of their loop. They differ in their check, in the
  loop bound and the model and tuple index (dropout draws its samples from
  model 0 with tuple 0), in what they ask `predict` for, in their reduction,
  in their label and in their primary output, so they are one class here with
  a `variant` that the loop, the reduction and the accessors branch on. `predict` is a collaborator: a function from the call
  (its position in the loop, the model it uses, and the normalisations the
  shared dataset holds when it is made) to what it returns for one cell. The
  numpy arrays are element-wise, so one cell stands for all of them.
*/
module Predictors {
  import opened Wrappers
  import opened Moments
  import opened Applicability
  import opened SharedDataset

  /**
    What one `predict` call returns for the cell: the prediction and, when the
    predictor asks for uncertainty parameters, the model's own variance (an MVE
    model) or its λ, α and β (an evidential model). A predictor ignores the
    fields it does not ask for.
  */
  datatype Inference = Inference(pred: real, variance: real, lambda: real, alpha: real, beta: real)

  /** One `predict` call: its position in the loop, the model, the dataset's normalisations at that moment. */
  datatype Call = Call(index: nat, model: nat, data: seq<Normalisation>)

  /** One inference loop: the predictor, the scaler tuples, the dataset's normalisations before the loop, and `predict`. */
  datatype Run = Run(variant: Variant, scalers: seq<ScalerTuple>, start: seq<Normalisation>, infer: Call -> Inference)

  /** The accumulators after the loop; those a variant does not keep stay at zero. */
  datatype Accumulators = Accumulators(sumPreds: real, sumSquared: real, sumVars: real, individualVars: seq<real>)

  /** The uncalibrated outputs a predictor stores, `None` where the source leaves the attribute `None`. */
  datatype Uncalibrated = Uncalibrated(
    preds: real,
    vars: Option<real>,
    confidence: Option<real>,
    individualVars: Option<seq<real>>)

  // ---------------------------------------------------------------------------
  // The calls of the loop

  /** The number of loop iterations: `range(dropout_sampling_size)` for dropout, `range(num_models)` otherwise. */
  function CallCount(v: Variant, numModels: nat, samplingSize: int): (n: nat)
    ensures v != Dropout ==> n == numModels
    ensures v == Dropout ==> (n == 0 <==> samplingSize <= 0) && (samplingSize > 0 ==> n == samplingSize)
  {
    if v == Dropout then (if samplingSize < 0 then 0 else samplingSize) else numModels
  }

  /** The model (and scaler tuple) used by call `i`: always the first for dropout, the i-th otherwise. */
  function ModelOf(v: Variant, i: nat): (m: nat)
    ensures m <= i
    ensures v != Dropout ==> m == i
    ensures v == Dropout ==> m == 0
  {
    if v == Dropout then 0 else i
  }

  /** Every call below `n` finds its scaler tuple. */
  predicate ScalersCover(r: Run, n: nat)
  {
    n == 0 || ModelOf(r.variant, n - 1) < |r.scalers|
  }

  /** The scaler tuple of call `i`: the one at the index of the call's model. */
  function TupleOf(r: Run, i: nat): (t: ScalerTuple)
    requires ScalersCover(r, i + 1)
    ensures t in r.scalers
    ensures r.variant == Dropout ==> t == r.scalers[0]
    ensures r.variant != Dropout ==> t == r.scalers[i]
  {
    r.scalers[ModelOf(r.variant, i)]
  }

  /** The dataset's normalisations after the scaling steps of the first `n` calls. */
  function AppliedAfter(r: Run, n: nat): seq<Normalisation>
    requires ScalersCover(r, n)
  {
    if n == 0 then r.start else Prepared(AppliedAfter(r, n - 1), TupleOf(r, n - 1))
  }

  /** Call `i`, made once its own scaling step has run. */
  function CallAt(r: Run, i: nat): (c: Call)
    requires ScalersCover(r, i + 1)
    ensures c.index == i && c.model == ModelOf(r.variant, i)
  {
    Call(i, ModelOf(r.variant, i), AppliedAfter(r, i + 1))
  }

  function OutputAt(r: Run, i: nat): Inference
    requires ScalersCover(r, i + 1)
  {
    r.infer(CallAt(r, i))
  }

  /** The events the first `n` scaling steps leave in the dataset's log. */
  function Trace(r: Run, n: nat): seq<DataEvent>
    requires ScalersCover(r, n)
  {
    if n == 0 then [] else Trace(r, n - 1) + ScalingEvents(TupleOf(r, n - 1))
  }

  // ---------------------------------------------------------------------------
  // The per-call values and what the loop accumulates

  /** What an evidential head outputs: λ > 0, α > 1, β ≥ 0. */
  predicate EvidentialHead(o: Inference)
  {
    o.lambda > 0.0 && o.alpha > 1.0 && o.beta >= 0.0
  }

  /** The variant's variance formula has no zero divisor on this output: α ≠ 1, and λ ≠ 0 but for the aleatoric formula. */
  predicate FormulaDefined(v: Variant, o: Inference)
  {
    v.IsEvidential() ==> o.alpha != 1.0 && (v == EvidentialAleatoric || o.lambda != 0.0)
  }

  /**
    The variance one call contributes to `sum_vars` and `individual_vars`. The
    evidential formulas divide by α − 1 and (but for the aleatoric one) by λ;
    where a divisor is zero numpy yields inf or nan, which the reals lack, and
    the model yields 0.0.
  */
  function ItemVariance(v: Variant, o: Inference): (x: real)
    requires v.TracksOwnVariance()
    ensures v == Mve ==> x == o.variance
    ensures v.IsEvidential() && EvidentialHead(o) ==> FormulaDefined(v, o) && x >= 0.0
    ensures !FormulaDefined(v, o) ==> x == 0.0
  {
    if !FormulaDefined(v, o) then 0.0
    else match v
    case Mve => o.variance
    case EvidentialTotal => EvidentialTotalVariance(o.lambda, o.alpha, o.beta)
    case EvidentialAleatoric => EvidentialAleatoricVariance(o.alpha, o.beta)
    case EvidentialEpistemic => EvidentialEpistemicVariance(o.lambda, o.alpha, o.beta)
  }

  /** The predictions of the first `n` calls, in call order. */
  function Preds(r: Run, n: nat): (ps: seq<real>)
    requires ScalersCover(r, n)
    ensures |ps| == n
  {
    if n == 0 then [] else Preds(r, n - 1) + [OutputAt(r, n - 1).pred]
  }

  /** The per-model variances of the first `n` calls, in call order: `individual_vars`. */
  function Vars(r: Run, n: nat): (vs: seq<real>)
    requires r.variant.TracksOwnVariance()
    requires ScalersCover(r, n)
    ensures |vs| == n
  {
    if n == 0 then [] else Vars(r, n - 1) + [ItemVariance(r.variant, OutputAt(r, n - 1))]
  }

  /** Entry k of the predictions is the prediction of call k. */
  lemma {:induction false} PredsInCallOrder(r: Run, n: nat)
    requires ScalersCover(r, n)
    ensures forall k :: 0 <= k < n ==> Preds(r, n)[k] == OutputAt(r, k).pred
    decreases n
  {
    if n > 0 {
      PredsInCallOrder(r, n - 1);
    }
  }

  /** Entry k of the variances is the variance of call k. */
  lemma {:induction false} VarsInCallOrder(r: Run, n: nat)
    requires r.variant.TracksOwnVariance()
    requires ScalersCover(r, n)
    ensures forall k :: 0 <= k < n ==> Vars(r, n)[k] == ItemVariance(r.variant, OutputAt(r, k))
    decreases n
  {
    if n > 0 {
      VarsInCallOrder(r, n - 1);
    }
  }

  /** The accumulators after the first `n` calls, built the way the loop builds them. */
  function Accumulated(r: Run, n: nat): Accumulators
    requires ScalersCover(r, n)
  {
    if n == 0 then Accumulators(0.0, 0.0, 0.0, [])
    else Accumulate(r.variant, Accumulated(r, n - 1), OutputAt(r, n - 1), n == 1)
  }

  // ---------------------------------------------------------------------------
  // How a loop ends

  /**
    The error a loop ends in: `UnboundLocalError` when it runs no iteration,
    `IndexError` when a call's scaler tuple (or, for dropout, the model) is
    missing.
  */
  function RunError(v: Variant, numModels: nat, scalerCount: nat, samplingSize: int): (e: Option<Error>)
    ensures var n := CallCount(v, numModels, samplingSize);
      e.None? <==> n > 0 && ModelOf(v, n - 1) < scalerCount && ModelOf(v, n - 1) < numModels
    ensures e == Some(NothingAccumulated) <==> CallCount(v, numModels, samplingSize) == 0
    ensures e.Some? ==> e.value in {NothingAccumulated, IndexOutOfRange}
  {
    var n := CallCount(v, numModels, samplingSize);
    if v == Dropout then
      if n == 0 then Some(NothingAccumulated)
      else if scalerCount == 0 || numModels == 0 then Some(IndexOutOfRange)
      else None
    else if scalerCount < numModels then Some(IndexOutOfRange)
    else if n == 0 then Some(NothingAccumulated)
    else None
  }

  /** How many scaling steps a loop runs before it ends, successfully or not. */
  function ScaledCalls(v: Variant, numModels: nat, scalerCount: nat, samplingSize: int): (k: nat)
    ensures k <= CallCount(v, numModels, samplingSize)
    ensures k > 0 ==> ModelOf(v, k - 1) < scalerCount
    ensures k < CallCount(v, numModels, samplingSize) ==> RunError(v, numModels, scalerCount, samplingSize) == Some(IndexOutOfRange)
  {
    var n := CallCount(v, numModels, samplingSize);
    if v == Dropout then
      if n == 0 || scalerCount == 0 then 0 else if numModels == 0 then 1 else n
    else if scalerCount < numModels then scalerCount
    else n
  }

  /** A loop either fails or runs every call's scaling step, and the scaling steps it runs all find their tuples. */
  lemma ScaledCallsCovered(r: Run, numModels: nat, samplingSize: int)
    ensures ScalersCover(r, ScaledCalls(r.variant, numModels, |r.scalers|, samplingSize))
    ensures RunError(r.variant, numModels, |r.scalers|, samplingSize).None? ==>
      ScaledCalls(r.variant, numModels, |r.scalers|, samplingSize) == CallCount(r.variant, numModels, samplingSize) > 0
  {
  }

  /** A pass that fails ends the loop with an `IndexError`, after the scaling steps that ran. */
  lemma FailureShape(v: Variant, numModels: nat, scalerCount: nat, samplingSize: int, i: nat)
    requires i < CallCount(v, numModels, samplingSize)
    requires i > 0 ==> ModelOf(v, i - 1) < numModels && ModelOf(v, i - 1) < scalerCount
    requires ModelOf(v, i) >= scalerCount || ModelOf(v, i) >= numModels
    ensures RunError(v, numModels, scalerCount, samplingSize) == Some(IndexOutOfRange)
    ensures ScaledCalls(v, numModels, scalerCount, samplingSize) == if ModelOf(v, i) < scalerCount then i + 1 else i
  {
  }

  /** A loop that runs every pass ends without error exactly when it ran at least one. */
  lemma CompletionShape(v: Variant, numModels: nat, scalerCount: nat, samplingSize: int)
    requires var n := CallCount(v, numModels, samplingSize);
      n > 0 ==> ModelOf(v, n - 1) < numModels && ModelOf(v, n - 1) < scalerCount
    ensures ScaledCalls(v, numModels, scalerCount, samplingSize) == CallCount(v, numModels, samplingSize)
    ensures RunError(v, numModels, scalerCount, samplingSize)
         == if CallCount(v, numModels, samplingSize) == 0 then Some(NothingAccumulated) else None
  {
  }

  // ---------------------------------------------------------------------------
  // The reduction

  /** What the predictor stores after `n > 0` calls, stated on the per-call values. */
  function Aggregate(r: Run, n: nat): (u: Uncalibrated)
    requires n > 0 && ScalersCover(r, n)
    ensures u.preds == Mean(Preds(r, n))
    ensures u.vars.Some? <==> r.variant.ReportsVariance()
    ensures u.confidence.Some? <==> r.variant == Class
    ensures u.confidence.Some? ==> u.confidence.value == u.preds
    ensures u.individualVars.Some? <==> r.variant.TracksOwnVariance()
    ensures u.individualVars.Some? ==> |u.individualVars.value| == n
  {
    var ps := Preds(r, n);
    if r.variant.TracksOwnVariance() then
      Uncalibrated(Mean(ps), Some(MveVariance(ps, Vars(r, n))), None, Some(Vars(r, n)))
    else if r.variant == Class then
      Uncalibrated(Mean(ps), None, Some(Mean(ps)), None)
    else
      Uncalibrated(Mean(ps), Some(EnsembleVariance(ps)), None, None)
  }

  /** The reduction the source applies to its accumulators after `n > 0` calls. */
  function Reduce(v: Variant, acc: Accumulators, n: nat): (u: Uncalibrated)
    requires n > 0
    ensures u.preds == MeanOf(acc.sumPreds, n)
    ensures u.vars.Some? <==> v.ReportsVariance()
    ensures u.confidence.Some? <==> v == Class
    ensures u.individualVars.Some? <==> v.TracksOwnVariance()
  {
    var preds := MeanOf(acc.sumPreds, n);
    match v
    case Mve | EvidentialTotal | EvidentialAleatoric | EvidentialEpistemic =>
      Uncalibrated(preds, Some(MveVarianceOf(acc.sumVars, acc.sumSquared, acc.sumPreds, n)), None, Some(acc.individualVars))
    case Ensemble | Dropout =>
      Uncalibrated(preds, Some(EnsembleVarianceOf(acc.sumSquared, acc.sumPreds, n)), None, None)
    case Class =>
      Uncalibrated(preds, None, Some(preds), None)
  }

  /** Reducing the accumulators of a loop gives the aggregate of its per-call values. */
  lemma ReduceAccumulated(r: Run, n: nat)
    requires n > 0 && ScalersCover(r, n)
    ensures Reduce(r.variant, Accumulated(r, n), n) == Aggregate(r, n)
  {
    hide ItemVariance;
    AccumulatedPreds(r, n);
    if r.variant.TracksOwnVariance() {
      AccumulatedVars(r, n);
    }
  }

  // ---------------------------------------------------------------------------
  // One more call

  lemma LogStep(log0: seq<DataEvent>, r: Run, i: nat)
    requires ScalersCover(r, i + 1)
    ensures log0 + Trace(r, i + 1) == log0 + Trace(r, i) + ScalingEvents(TupleOf(r, i))
  {
  }

  lemma SumsStep(r: Run, i: nat)
    requires ScalersCover(r, i + 1)
    ensures Sum(Preds(r, i + 1)) == Sum(Preds(r, i)) + OutputAt(r, i).pred
    ensures SumSquares(Preds(r, i + 1)) == SumSquares(Preds(r, i)) + Square(OutputAt(r, i).pred)
  {
    assert Preds(r, i + 1)[..i] == Preds(r, i);
  }

  lemma VarsStep(r: Run, i: nat)
    requires r.variant.TracksOwnVariance()
    requires ScalersCover(r, i + 1)
    ensures Vars(r, i + 1) == Vars(r, i) + [ItemVariance(r.variant, OutputAt(r, i))]
    ensures Sum(Vars(r, i + 1)) == Sum(Vars(r, i)) + ItemVariance(r.variant, OutputAt(r, i))
  {
    assert Vars(r, i + 1)[..i] == Vars(r, i);
  }

  /**
    One iteration's accumulation: the first call binds the accumulators, later
    calls add to them; Σp² is kept but for the classification predictor, Σv and
    the variances only by the MVE and evidential ones.
  */
  function Accumulate(v: Variant, acc: Accumulators, o: Inference, first: bool): (next: Accumulators)
    ensures next.sumPreds - (if first then 0.0 else acc.sumPreds) == o.pred
    ensures !v.ReportsVariance() ==> next.sumSquared == acc.sumSquared
    ensures !v.TracksOwnVariance() ==> next.sumVars == acc.sumVars && next.individualVars == acc.individualVars
    ensures v.TracksOwnVariance() && !first ==> |next.individualVars| == |acc.individualVars| + 1
  {
    var p := o.pred;
    Accumulators(
      if first then p else acc.sumPreds + p,
      if !v.ReportsVariance() then acc.sumSquared
      else if first then Square(p) else acc.sumSquared + Square(p),
      if !v.TracksOwnVariance() then acc.sumVars
      else if first then ItemVariance(v, o) else acc.sumVars + ItemVariance(v, o),
      if !v.TracksOwnVariance() then acc.individualVars
      else if first then [ItemVariance(v, o)] else acc.individualVars + [ItemVariance(v, o)])
  }

  /** The accumulators after `n` calls hold Σp and, but for the classification predictor, Σp² of those calls. */
  lemma {:induction false} AccumulatedPreds(r: Run, n: nat)
    requires ScalersCover(r, n)
    ensures Accumulated(r, n).sumPreds == Sum(Preds(r, n))
    ensures Accumulated(r, n).sumSquared == if r.variant.ReportsVariance() then SumSquares(Preds(r, n)) else 0.0
    decreases n
  {
    hide ItemVariance;
    if n > 0 {
      AccumulatedPreds(r, n - 1);
      SumsStep(r, n - 1);
    }
  }

  /** MVE and evidential: the accumulators after `n` calls hold the per-call variances of those calls and their sum. */
  lemma {:induction false} AccumulatedVars(r: Run, n: nat)
    requires r.variant.TracksOwnVariance()
    requires ScalersCover(r, n)
    ensures Accumulated(r, n).sumVars == Sum(Vars(r, n))
    ensures Accumulated(r, n).individualVars == Vars(r, n)
    decreases n
  {
    hide ItemVariance;
    if n > 0 {
      AccumulatedVars(r, n - 1);
      VarsStep(r, n - 1);
    }
  }

  // ---------------------------------------------------------------------------
  // The predictor object

  class UncertaintyPredictor {
    const variant: Variant
    const testData: EvaluationData
    const numModels: nat
    const scalers: seq<ScalerTuple>
    const datasetType: string
    const lossFunction: string
    const dropoutSamplingSize: int
    var uncalPreds: Option<real>
    var uncalVars: Option<real>
    var uncalConfidence: Option<real>
    var individualVars: Option<seq<real>>
    var predictorLabel: Option<string>

    /** The attributes as `__init__` sets them before it runs the check and the loop. */
    constructor (variant: Variant, testData: EvaluationData, numModels: nat, scalers: seq<ScalerTuple>,
                 datasetType: string, lossFunction: string, dropoutSamplingSize: int)
      ensures this.variant == variant && this.testData == testData && this.numModels == numModels
      ensures this.scalers == scalers && this.datasetType == datasetType && this.lossFunction == lossFunction
      ensures this.dropoutSamplingSize == dropoutSamplingSize
      ensures uncalPreds == None && uncalVars == None && uncalConfidence == None && individualVars == None
      ensures predictorLabel == None
    {
      this.variant := variant;
      this.testData := testData;
      this.numModels := numModels;
      this.scalers := scalers;
      this.datasetType := datasetType;
      this.lossFunction := lossFunction;
      this.dropoutSamplingSize := dropoutSamplingSize;
      uncalPreds := None;
      uncalVars := None;
      uncalConfidence := None;
      individualVars := None;
      predictorLabel := None;
    }

    /** `raise_argument_errors` on this predictor's configuration. */
    function ArgumentErrors(): Option<Error>
    {
      RaiseArgumentErrors(variant, lossFunction, datasetType, numModels)
    }

    /** The loop this predictor runs when the dataset holds `start`. */
    function RunFrom(start: seq<Normalisation>, infer: Call -> Inference): Run
    {
      Run(variant, scalers, start, infer)
    }

    function Calls(): nat
    {
      CallCount(variant, numModels, dropoutSamplingSize)
    }

    function Outcome(): Option<Error>
    {
      RunError(variant, numModels, |scalers|, dropoutSamplingSize)
    }

    function Scaled(): nat
    {
      ScaledCalls(variant, numModels, |scalers|, dropoutSamplingSize)
    }

    /** What the predictor currently stores. */
    function Stored(): (u: Uncalibrated)
      reads this
      requires uncalPreds.Some?
      ensures u.preds == uncalPreds.value && u.vars == uncalVars
      ensures u.confidence == uncalConfidence && u.individualVars == individualVars
    {
      Uncalibrated(uncalPreds.value, uncalVars, uncalConfidence, individualVars)
    }

    function GetUncalPreds(): (r: Option<real>)
      reads this
      ensures r == uncalPreds
    {
      uncalPreds
    }

    function GetUncalVars(): (r: Option<real>)
      reads this
      ensures r == uncalVars
    {
      uncalVars
    }

    function GetUncalConfidence(): (r: Option<real>)
      reads this
      ensures r == uncalConfidence
    {
      uncalConfidence
    }

    function GetIndividualVars(): (r: Option<seq<real>>)
      reads this
      ensures r == individualVars
    {
      individualVars
    }

    /** The primary output: the variance for the regression predictors, the confidence for the classification one. */
    function GetUncalOutput(): (r: Option<real>)
      reads this
      ensures variant.ReportsVariance() ==> r == uncalVars
      ensures !variant.ReportsVariance() ==> r == uncalConfidence
    {
      if variant == Class then uncalConfidence else uncalVars
    }

    /**
      One pass of the loop of `calculate_predictions`: the scaling step for
      call `i`, the `predict` call and the accumulation. It fails, as the
      source does with an `IndexError`, when the call's scaler tuple or model
      is missing; a missing model is noticed after the scaling step.
    */
    method Pass(ghost r: Run, ghost log0: seq<DataEvent>, infer: Call -> Inference, i: nat, acc: Accumulators)
      returns (err: Option<Error>, next: Accumulators)
      requires r.variant == variant && r.scalers == scalers && r.infer == infer
      requires ScalersCover(r, i) && testData.applied == AppliedAfter(r, i) && acc == Accumulated(r, i)
      requires testData.log == log0 + Trace(r, i)
      modifies testData
      ensures err.None? <==> ModelOf(variant, i) < |scalers| && ModelOf(variant, i) < numModels
      ensures err.Some? ==> err == Some(IndexOutOfRange)
      ensures ModelOf(variant, i) >= |scalers| ==> testData.applied == old(testData.applied) && testData.log == old(testData.log)
      ensures ModelOf(variant, i) < |scalers| ==>
        && ScalersCover(r, i + 1)
        && testData.applied == AppliedAfter(r, i + 1)
        && testData.log == log0 + Trace(r, i + 1)
      ensures err.None? ==> next == Accumulated(r, i + 1)
    {
      hide ItemVariance;
      next := acc;
      var m := ModelOf(variant, i);
      if m >= |scalers| {
        return Some(IndexOutOfRange), next;
      }
      ApplyScalers(testData, scalers[m]);
      LogStep(log0, r, i);
      if m >= numModels {
        return Some(IndexOutOfRange), next;
      }
      var out := infer(Call(i, m, testData.applied));
      next := Accumulate(variant, acc, out, i == 0);
      err := None;
    }

    /**
      The loop of `calculate_predictions`: one pass per call, `num_models`
      calls (`dropout_sampling_size` for dropout); no call at all leaves the
      accumulators unbound.
    */
    method RunModels(infer: Call -> Inference) returns (err: Option<Error>, acc: Accumulators)
      modifies testData
      ensures err == Outcome()
      ensures ScalersCover(RunFrom(old(testData.applied), infer), Scaled())
      ensures testData.applied == AppliedAfter(RunFrom(old(testData.applied), infer), Scaled())
      ensures testData.log == old(testData.log) + Trace(RunFrom(old(testData.applied), infer), Scaled())
      ensures err.None? ==> Calls() > 0 && ScalersCover(RunFrom(old(testData.applied), infer), Calls())
      ensures err.None? ==> acc == Accumulated(RunFrom(old(testData.applied), infer), Calls())
    {
      hide ItemVariance;
      ghost var r := RunFrom(testData.applied, infer);
      ScaledCallsCovered(r, numModels, dropoutSamplingSize);
      var n := Calls();
      acc := Accumulators(0.0, 0.0, 0.0, []);
      var i := 0;
      while i < n
        invariant 0 <= i <= n && ScalersCover(r, i)
        invariant i > 0 ==> ModelOf(variant, i - 1) < numModels && ModelOf(variant, i - 1) < |scalers|
        invariant testData.applied == AppliedAfter(r, i)
        invariant testData.log == old(testData.log) + Trace(r, i)
        invariant acc == Accumulated(r, i)
      {
        err, acc := Pass(r, old(testData.log), infer, i, acc);
        if err.Some? {
          FailureShape(variant, numModels, |scalers|, dropoutSamplingSize, i);
          return;
        }
        i := i + 1;
      }
      CompletionShape(variant, numModels, |scalers|, dropoutSamplingSize);
      if n == 0 {
        return Some(NothingAccumulated), acc;
      }
      err := None;
    }

    /**
      `calculate_predictions`: run the loop, then reduce the accumulators and
      store the results. The attributes a variant does not compute keep their
      value.
    */
    method CalculatePredictions(infer: Call -> Inference) returns (err: Option<Error>)
      modifies this, testData
      ensures err == Outcome()
      ensures ScalersCover(RunFrom(old(testData.applied), infer), Scaled())
      ensures testData.applied == AppliedAfter(RunFrom(old(testData.applied), infer), Scaled())
      ensures testData.log == old(testData.log) + Trace(RunFrom(old(testData.applied), infer), Scaled())
      ensures predictorLabel == old(predictorLabel)
      ensures err.Some? ==> uncalPreds == old(uncalPreds) && uncalVars == old(uncalVars)
      ensures err.Some? ==> uncalConfidence == old(uncalConfidence) && individualVars == old(individualVars)
      ensures err.None? ==> Calls() > 0 && ScalersCover(RunFrom(old(testData.applied), infer), Calls())
      ensures err.None? ==>
        var u := Aggregate(RunFrom(old(testData.applied), infer), Calls());
        && uncalPreds == Some(u.preds)
        && uncalVars == (if u.vars.Some? then u.vars else old(uncalVars))
        && uncalConfidence == (if u.confidence.Some? then u.confidence else old(uncalConfidence))
        && individualVars == (if u.individualVars.Some? then u.individualVars else old(individualVars))
    {
      hide ItemVariance;
      ghost var r := RunFrom(testData.applied, infer);
      var acc;
      err, acc := RunModels(infer);
      if err.Some? {
        return;
      }
      var n := Calls();
      ReduceAccumulated(r, n);
      var u := Reduce(variant, acc, n);
      uncalPreds := Some(u.preds);
      if u.vars.Some? {
        uncalVars := u.vars;
      }
      if u.confidence.Some? {
        uncalConfidence := u.confidence;
      }
      if u.individualVars.Some? {
        individualVars := u.individualVars;
      }
    }
  }

  // ---------------------------------------------------------------------------
  // Construction

  /**
    A predictor's `__init__`: set the attributes, run `raise_argument_errors`
    (a failure there leaves the dataset untouched and calls no model), then
    the loop, then set the label. Any error is raised out of the constructor,
    so no predictor is returned.
  */
  method NewPredictor(variant: Variant, testData: EvaluationData, numModels: nat, scalers: seq<ScalerTuple>,
                      datasetType: string, lossFunction: string, dropoutSamplingSize: int,
                      infer: Call -> Inference)
    returns (p: Result<UncertaintyPredictor, Error>)
    modifies testData
    ensures RaiseArgumentErrors(variant, lossFunction, datasetType, numModels).Some? ==>
      p == Failure(RaiseArgumentErrors(variant, lossFunction, datasetType, numModels).value)
      && unchanged(testData)
    ensures RaiseArgumentErrors(variant, lossFunction, datasetType, numModels).None? ==>
      var e := RunError(variant, numModels, |scalers|, dropoutSamplingSize);
      var run := Run(variant, scalers, old(testData.applied), infer);
      var k := ScaledCalls(variant, numModels, |scalers|, dropoutSamplingSize);
      && (e.Some? ==> p == Failure(e.value))
      && (e.None? ==> p.Success?)
      && ScalersCover(run, k)
      && testData.log == old(testData.log) + Trace(run, k)
      && testData.applied == AppliedAfter(run, k)
    ensures p.Success? ==>
      var n := CallCount(variant, numModels, dropoutSamplingSize);
      var run := Run(variant, scalers, old(testData.applied), infer);
      && fresh(p.value)
      && p.value.variant == variant && p.value.testData == testData && p.value.numModels == numModels
      && p.value.scalers == scalers && p.value.datasetType == datasetType && p.value.lossFunction == lossFunction
      && p.value.dropoutSamplingSize == dropoutSamplingSize
      && p.value.predictorLabel == Some(Label(variant))
      && n > 0 && ScalersCover(run, n)
      && p.value.uncalPreds.Some? && p.value.Stored() == Aggregate(run, n)
  {
    hide ItemVariance;
    var predictor := new UncertaintyPredictor(variant, testData, numModels, scalers, datasetType, lossFunction, dropoutSamplingSize);
    var check := predictor.ArgumentErrors();
    if check.Some? {
      return Failure(check.value);
    }
    var err := predictor.CalculatePredictions(infer);
    if err.Some? {
      return Failure(err.value);
    }
    predictor.predictorLabel := Some(Label(variant));
    p := Success(predictor);
  }
}
