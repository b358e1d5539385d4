/** The contributor-anomaly wrapper: an isolation forest's decision scores,
    min-max normalised across the batch with an epsilon-guarded range and
    inverted so that higher means more anomalous. */
module Anomaly {
  import opened Common
  import opened Artifacts

  const NumFeatures: nat := 3

  /** The estimator's input validation rejects an array without rows before
      any score is computed. */
  const NoRows: Error := NoSamples(NumFeatures, "IsolationForest")

  /** Added to the range so that a batch of equal scores divides by a
      positive number. */
  const Epsilon: real := 0.0000000001

  /** A fitted isolation forest, seen from outside: its decision score for a
      row (higher means more normal). */
  datatype IsolationForest = IsolationForest(decision: seq<real> -> real)

  function Min(s: seq<real>): (m: real)
    requires |s| > 0
    ensures m in s && forall i :: 0 <= i < |s| ==> m <= s[i]
  {
    if |s| == 1 then s[0]
    else
      var rest := Min(s[1..]);
      if s[0] <= rest then s[0] else rest
  }

  function Max(s: seq<real>): (m: real)
    requires |s| > 0
    ensures m in s && forall i :: 0 <= i < |s| ==> s[i] <= m
  {
    if |s| == 1 then s[0]
    else
      var rest := Max(s[1..]);
      if s[0] >= rest then s[0] else rest
  }

  /** `(raw - raw.min()) / (raw.max() - raw.min() + 1e-10)`. */
  function Normalised(raw: seq<real>): (r: seq<real>)
    requires |raw| > 0
    ensures |r| == |raw|
  {
    var lo, hi := Min(raw), Max(raw);
    seq(|raw|, i requires 0 <= i < |raw| => (raw[i] - lo) / (hi - lo + Epsilon))
  }

  /** `1 - normalised`. */
  function AnomalyScores(raw: seq<real>): (r: seq<real>)
    requires |raw| > 0
    ensures |r| == |raw|
  {
    var n := Normalised(raw);
    seq(|raw|, i requires 0 <= i < |raw| => 1.0 - n[i])
  }

  function DecisionScores(f: IsolationForest, rows: seq<seq<real>>): (r: seq<real>)
    ensures |r| == |rows|
  {
    seq(|rows|, i requires 0 <= i < |rows| => f.decision(rows[i]))
  }

  /** `scores > threshold`, element by element. */
  function Flags(scores: seq<real>, threshold: real): (r: seq<bool>)
    ensures |r| == |scores|
  {
    seq(|scores|, i requires 0 <= i < |scores| => scores[i] > threshold)
  }

  // Properties of the normalisation

  /** Normalised scores lie in [0, 1); anomaly scores in (0, 1]. */
  lemma ScoresBounded(raw: seq<real>)
    requires |raw| > 0
    ensures forall i :: 0 <= i < |raw| ==> 0.0 <= Normalised(raw)[i] < 1.0
    ensures forall i :: 0 <= i < |raw| ==> 0.0 < AnomalyScores(raw)[i] <= 1.0
  {
    var lo, hi := Min(raw), Max(raw);
    var d := hi - lo + Epsilon;
    forall i | 0 <= i < |raw| ensures 0.0 <= Normalised(raw)[i] < 1.0 {
      assert 0.0 <= raw[i] - lo < d;
      DivideBelowOne(raw[i] - lo, d);
    }
  }

  lemma DivideBelowOne(x: real, d: real)
    requires 0.0 <= x < d
    ensures 0.0 <= x / d < 1.0
  {
    assert x / d * d == x;
  }

  /** A batch of equal raw scores: every normalised score is 0 and every
      anomaly score exactly 1. */
  lemma DegenerateBatch(raw: seq<real>)
    requires |raw| > 0
    requires forall i :: 0 <= i < |raw| ==> raw[i] == raw[0]
    ensures forall i :: 0 <= i < |raw| ==> Normalised(raw)[i] == 0.0 && AnomalyScores(raw)[i] == 1.0
  {
    var lo := Min(raw);
    assert lo == raw[0];
  }

  /** The row of lowest raw score is the most anomalous: its score is 1. */
  lemma MinimumIsMostAnomalous(raw: seq<real>, k: nat)
    requires k < |raw| && forall i :: 0 <= i < |raw| ==> raw[k] <= raw[i]
    ensures AnomalyScores(raw)[k] == 1.0
  {
    MinimumAttained(raw, k);
    var d := Max(raw) - Min(raw) + Epsilon;
    assert Normalised(raw)[k] == (raw[k] - Min(raw)) / d;
    ZeroOver(raw[k] - Min(raw), d);
  }

  lemma ZeroOver(x: real, d: real)
    requires x == 0.0 && d != 0.0
    ensures x / d == 0.0
  {
  }

  lemma MinimumAttained(raw: seq<real>, k: nat)
    requires k < |raw| && forall i :: 0 <= i < |raw| ==> raw[k] <= raw[i]
    ensures Min(raw) == raw[k]
  {
    var lo := Min(raw);
    var j :| 0 <= j < |raw| && raw[j] == lo;
    assert raw[k] <= raw[j];
  }

  /** The mapping reverses order: a lower raw score gives a score at least
      as anomalous. */
  lemma OrderReversed(raw: seq<real>, i: nat, j: nat)
    requires i < |raw| && j < |raw| && raw[i] <= raw[j]
    ensures AnomalyScores(raw)[i] >= AnomalyScores(raw)[j]
  {
    var lo, hi := Min(raw), Max(raw);
    var d := hi - lo + Epsilon;
    assert d > 0.0;
    DivideMonotone(raw[i] - lo, raw[j] - lo, d);
  }

  lemma DivideMonotone(x: real, y: real, d: real)
    requires x <= y && d > 0.0
    ensures x / d <= y / d
  {
  }

  /** A higher threshold flags a subset. */
  lemma FlagsMonotone(scores: seq<real>, low: real, high: real, i: nat)
    requires low <= high && i < |scores|
    ensures Flags(scores, high)[i] ==> Flags(scores, low)[i]
  {
  }

  /** Below a threshold of 1 the most anomalous row is always flagged, and in
      a degenerate batch every row is. */
  lemma MostAnomalousFlagged(raw: seq<real>, threshold: real)
    requires |raw| > 0 && threshold < 1.0
    ensures exists i :: 0 <= i < |raw| && Flags(AnomalyScores(raw), threshold)[i]
    ensures (forall i :: 0 <= i < |raw| ==> raw[i] == raw[0]) ==>
              forall i :: 0 <= i < |raw| ==> Flags(AnomalyScores(raw), threshold)[i]
  {
    var lo := Min(raw);
    var k :| 0 <= k < |raw| && raw[k] == lo;
    MinimumIsMostAnomalous(raw, k);
    assert Flags(AnomalyScores(raw), threshold)[k];
    if forall i :: 0 <= i < |raw| ==> raw[i] == raw[0] {
      DegenerateBatch(raw);
    }
  }

  // The stateful wrapper

  const ArtifactName: string := "anomaly_model.joblib"

  class AnomalyModel {
    /** The model directory. */
    const store: Store<IsolationForest>
    /** The forest that fitting on the seeded synthetic data produces. */
    const synthetic: IsolationForest

    var model: Option<IsolationForest>
    var isTrained: bool

    ghost predicate Valid()
      reads this
    {
      isTrained <==> model.Some?
    }

    /** The state `load_or_train` leaves, given what the store held before. */
    ghost predicate AdoptedOrTrained(loaded: Option<IsolationForest>, before: map<string, Blob<IsolationForest>>)
      reads this, store
    {
      isTrained &&
      match loaded
      case Some(e) => model == Some(e) && store.blobs == before
      case None => model == Some(synthetic) && store.blobs == before[ArtifactName := Serialized(synthetic)]
    }

    constructor (store: Store<IsolationForest>, synthetic: IsolationForest)
      ensures Valid() && !isTrained
      ensures this.store == store && this.synthetic == synthetic
    {
      this.store := store;
      this.synthetic := synthetic;
      model := None;
      isTrained := false;
    }

    method LoadOrTrain()
      requires Valid()
      modifies this, store
      ensures Valid()
      ensures AdoptedOrTrained(old(store.Loaded(ArtifactName)), old(store.blobs))
    {
      var loaded := store.Loaded(ArtifactName);
      if loaded.Some? {
        model := loaded;
        isTrained := true;
        return;
      }
      TrainSynthetic();
    }

    method TrainSynthetic()
      requires Valid()
      modifies this, store
      ensures Valid() && isTrained && model == Some(synthetic)
      ensures store.blobs == old(store.blobs)[ArtifactName := Serialized(synthetic)]
    {
      model := Some(synthetic);
      isTrained := true;
      store.Save(ArtifactName, synthetic);
    }

    /** Lazy initialisation (only when untrained), the arity check, then the
        inverted normalised decision scores; `decision_function` rejects an
        empty batch. */
    method Predict(features: Batch) returns (r: Result<seq<real>>)
      requires Valid()
      modifies this, store
      ensures Valid() && isTrained
      ensures old(isTrained) ==> unchanged(this) && store.blobs == old(store.blobs)
      ensures !old(isTrained) ==> AdoptedOrTrained(old(store.Loaded(ArtifactName)), old(store.blobs))
      ensures features.width != NumFeatures ==> r == Err(ArityMismatch(NumFeatures, features.width))
      ensures features.width == NumFeatures && |features.rows| == 0 ==> r == Err(NoRows)
      ensures features.width == NumFeatures && |features.rows| > 0 ==>
        r == Ok(AnomalyScores(DecisionScores(model.value, features.rows)))
    {
      if !isTrained {
        LoadOrTrain();
      }
      if features.width != NumFeatures {
        return Err(ArityMismatch(NumFeatures, features.width));
      }
      if |features.rows| == 0 {
        return Err(NoRows);
      }
      var raw := DecisionScores(model.value, features.rows);
      r := Ok(AnomalyScores(raw));
    }

    /** Lazy initialisation, then exactly `predict`. */
    method PredictBatch(features: Batch) returns (r: Result<seq<real>>)
      requires Valid()
      modifies this, store
      ensures Valid() && isTrained
      ensures old(isTrained) ==> unchanged(this) && store.blobs == old(store.blobs)
      ensures !old(isTrained) ==> AdoptedOrTrained(old(store.Loaded(ArtifactName)), old(store.blobs))
      ensures features.width != NumFeatures ==> r == Err(ArityMismatch(NumFeatures, features.width))
      ensures features.width == NumFeatures && |features.rows| == 0 ==> r == Err(NoRows)
      ensures features.width == NumFeatures && |features.rows| > 0 ==>
        r == Ok(AnomalyScores(DecisionScores(model.value, features.rows)))
    {
      if !isTrained {
        LoadOrTrain();
      }
      r := Predict(features);
    }

    /** `predict`, then `scores > threshold`. */
    method FlagAnomalies(features: Batch, threshold: real := 0.7) returns (r: Result<seq<bool>>)
      requires Valid()
      modifies this, store
      ensures Valid() && isTrained
      ensures old(isTrained) ==> unchanged(this) && store.blobs == old(store.blobs)
      ensures !old(isTrained) ==> AdoptedOrTrained(old(store.Loaded(ArtifactName)), old(store.blobs))
      ensures features.width != NumFeatures ==> r == Err(ArityMismatch(NumFeatures, features.width))
      ensures features.width == NumFeatures && |features.rows| == 0 ==> r == Err(NoRows)
      ensures features.width == NumFeatures && |features.rows| > 0 ==>
        r == Ok(Flags(AnomalyScores(DecisionScores(model.value, features.rows)), threshold))
    {
      var scores := Predict(features);
      if scores.Err? {
        return Err(scores.error);
      }
      r := Ok(Flags(scores.value, threshold));
    }
  }
}
