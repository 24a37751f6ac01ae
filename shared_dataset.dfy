/**
  The evaluation dataset that every predictor shares with its caller, and the
  per-model scaling step at the head of each inference loop.

  What a normalisation does to the molecules belongs to the dataset and the
  scaler and is not modelled: the dataset is an abstract record of the
  normalisations applied since its last reset, plus a log of every reset and
  normalisation in call order.
*/
module SharedDataset {
  import opened Wrappers

  /** Scalers are opaque; a scaler is known by its identity. */
  type ScalerId = nat

  /** The three input-side kinds of scaling, in the order the predictors apply them. */
  datatype ScalerKind = Features | AtomDescriptors | BondFeatures

  /**
    The tuple a predictor unpacks for each model: the target scaler handed to
    `predict`, then the feature, atom-descriptor and bond-feature scalers, each
    possibly absent.
  */
  datatype ScalerTuple = ScalerTuple(
    target: Option<ScalerId>,
    features: Option<ScalerId>,
    atomDescriptors: Option<ScalerId>,
    bondFeatures: Option<ScalerId>)

  datatype Normalisation = Normalisation(kind: ScalerKind, scaler: ScalerId)

  datatype DataEvent = Reset | Normalise(step: Normalisation)

  /** At least one of the input-side scalers is present. */
  predicate AnyInputScaler(t: ScalerTuple)
  {
    t.features.Some? || t.atomDescriptors.Some? || t.bondFeatures.Some?
  }

  /** The present scaler of a kind, as a normalisation step: one element, or none. */
  function StepFor(kind: ScalerKind, s: Option<ScalerId>): seq<Normalisation>
  {
    if s.Some? then [Normalisation(kind, s.value)] else []
  }

  /** The normalisations a tuple asks for: the present scalers, features first, then atom descriptors, then bond features. */
  function Normalisations(t: ScalerTuple): (steps: seq<Normalisation>)
    ensures |steps| > 0 <==> AnyInputScaler(t)
    ensures |steps| <= 3
  {
    StepFor(Features, t.features) + StepFor(AtomDescriptors, t.atomDescriptors) + StepFor(BondFeatures, t.bondFeatures)
  }

  /**
    What the dataset holds after the scaling step: a fresh set of
    normalisations when the tuple has an input scaler, otherwise what it held
    before.
  */
  function Prepared(before: seq<Normalisation>, t: ScalerTuple): (after: seq<Normalisation>)
  {
    if AnyInputScaler(t) then Normalisations(t) else before
  }

  /** The events of one scaling step: nothing, or a reset followed by one normalisation per present scaler. */
  function ScalingEvents(t: ScalerTuple): (events: seq<DataEvent>)
    ensures |events| == if AnyInputScaler(t) then |Normalisations(t)| + 1 else 0
  {
    if AnyInputScaler(t) then [Reset] + NormaliseAll(Normalisations(t)) else []
  }

  function NormaliseAll(steps: seq<Normalisation>): (r: seq<DataEvent>)
    ensures |r| == |steps|
    ensures forall i :: 0 <= i < |r| ==> r[i] == Normalise(steps[i])
  {
    if |steps| == 0 then [] else [Normalise(steps[0])] + NormaliseAll(steps[1..])
  }

  /** The normalisations a dataset holds after the logged `events`, starting from `applied`. */
  function Replay(applied: seq<Normalisation>, events: seq<DataEvent>): seq<Normalisation>
    decreases |events|
  {
    if |events| == 0 then applied
    else Replay(if events[0].Reset? then [] else applied + [events[0].step], events[1..])
  }

  lemma {:induction false} ReplayNormaliseAll(applied: seq<Normalisation>, steps: seq<Normalisation>)
    ensures Replay(applied, NormaliseAll(steps)) == applied + steps
    decreases |steps|
  {
    if |steps| > 0 {
      assert NormaliseAll(steps)[1..] == NormaliseAll(steps[1..]);
      ReplayNormaliseAll(applied + [steps[0]], steps[1..]);
      assert applied + [steps[0]] + steps[1..] == applied + steps;
    }
  }

  /** The dataset after a scaling step is what replaying the events the step logs gives: the log accounts for the state. */
  lemma ReplayScalingEvents(before: seq<Normalisation>, t: ScalerTuple)
    ensures Replay(before, ScalingEvents(t)) == Prepared(before, t)
  {
    if AnyInputScaler(t) {
      var events := ScalingEvents(t);
      assert events[1..] == NormaliseAll(Normalisations(t));
      ReplayNormaliseAll([], Normalisations(t));
    }
  }

  function KindRank(k: ScalerKind): nat
  {
    match k
    case Features => 0
    case AtomDescriptors => 1
    case BondFeatures => 2
  }

  /** A tuple asks for a normalisation exactly when it holds that scaler in that slot. */
  lemma NormalisationsMatchTuple(t: ScalerTuple, n: Normalisation)
    ensures n in Normalisations(t) <==>
      match n.kind
      case Features => t.features == Some(n.scaler)
      case AtomDescriptors => t.atomDescriptors == Some(n.scaler)
      case BondFeatures => t.bondFeatures == Some(n.scaler)
  {
  }

  /** The normalisations come in the fixed kind order, each kind at most once. */
  lemma NormalisationsOrdered(t: ScalerTuple)
    ensures forall i, j :: 0 <= i < j < |Normalisations(t)| ==>
      KindRank(Normalisations(t)[i].kind) < KindRank(Normalisations(t)[j].kind)
  {
  }

  /** The dataset is reset exactly when some normalisation follows. */
  lemma ResetOnlyBeforeNormalising(t: ScalerTuple)
    ensures ScalingEvents(t) != [] <==> |Normalisations(t)| > 0
    ensures ScalingEvents(t) != [] ==> ScalingEvents(t)[0] == Reset
  {
  }

  /** Repeating a scaling step changes nothing more. */
  lemma PreparedIdempotent(before: seq<Normalisation>, t: ScalerTuple)
    ensures Prepared(Prepared(before, t), t) == Prepared(before, t)
  {
  }

  /**
    The evaluation dataset, shared with the caller: its current normalisations
    (`applied`, since the last reset) and the record of every reset and
    normalisation made on it (`log`).
  */
  class EvaluationData {
    var applied: seq<Normalisation>
    var log: seq<DataEvent>

    constructor (applied: seq<Normalisation>)
      ensures this.applied == applied && log == []
    {
      this.applied := applied;
      log := [];
    }

    /** `reset_features_and_targets`: back to the raw inputs. */
    method ResetFeaturesAndTargets()
      modifies this
      ensures applied == [] && log == old(log) + [Reset]
    {
      applied := [];
      log := log + [Reset];
    }

    /** `normalize_features` with one scaler of one kind. */
    method NormalizeFeatures(step: Normalisation)
      modifies this
      ensures applied == old(applied) + [step] && log == old(log) + [Normalise(step)]
    {
      applied := applied + [step];
      log := log + [Normalise(step)];
    }
  }

  /**
    The scaling step at the head of each loop iteration: reset and re-normalise
    only when an input scaler is present, then apply the present ones in the
    fixed order.
  */
  method ApplyScalers(data: EvaluationData, t: ScalerTuple)
    modifies data
    ensures data.applied == Prepared(old(data.applied), t)
    ensures data.log == old(data.log) + ScalingEvents(t)
  {
    if AnyInputScaler(t) {
      data.ResetFeaturesAndTargets();
      if t.features.Some? {
        data.NormalizeFeatures(Normalisation(Features, t.features.value));
      }
      if t.atomDescriptors.Some? {
        data.NormalizeFeatures(Normalisation(AtomDescriptors, t.atomDescriptors.value));
      }
      if t.bondFeatures.Some? {
        data.NormalizeFeatures(Normalisation(BondFeatures, t.bondFeatures.value));
      }
    }
  }
}
