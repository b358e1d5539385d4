/** The file-churn wrapper: a random-forest regressor whose predictions are
    clipped to [0, 1]. */
module Churn {
  import opened Common
  import opened Artifacts

  /** additions, deletions, modifications, churn history. */
  const NumFeatures: nat := 4

  /** A fitted regressor, seen from outside: its prediction for a row. */
  datatype Regressor = Regressor(predict: seq<real> -> real)

  /** `np.clip(x, 0, 1)`. */
  function Clip(x: real): (c: real)
    ensures 0.0 <= c <= 1.0
    ensures 0.0 <= x <= 1.0 ==> c == x
    ensures x < 0.0 ==> c == 0.0
    ensures x > 1.0 ==> c == 1.0
  {
    if x < 0.0 then 0.0 else if x > 1.0 then 1.0 else x
  }

  function Predictions(m: Regressor, rows: seq<seq<real>>): (r: seq<real>)
    ensures |r| == |rows|
  {
    seq(|rows|, i requires 0 <= i < |rows| => m.predict(rows[i]))
  }

  /** Element-wise clip. */
  function ClipAll(s: seq<real>): (r: seq<real>)
    ensures |r| == |s|
    ensures forall i :: 0 <= i < |s| ==> r[i] == Clip(s[i])
  {
    seq(|s|, i requires 0 <= i < |s| => Clip(s[i]))
  }

  /** Clipping is idempotent and order-preserving. */
  lemma ClipIdempotentMonotone(x: real, y: real)
    ensures Clip(Clip(x)) == Clip(x)
    ensures x <= y ==> Clip(x) <= Clip(y)
  {
  }

  /** Every clipped prediction is a probability, and a prediction already in
      [0, 1] passes through unchanged. */
  lemma ClipAllBounded(s: seq<real>)
    ensures forall i :: 0 <= i < |s| ==> 0.0 <= ClipAll(s)[i] <= 1.0
    ensures (forall i :: 0 <= i < |s| ==> 0.0 <= s[i] <= 1.0) ==> ClipAll(s) == s
    ensures ClipAll(ClipAll(s)) == ClipAll(s)
  {
  }

  const ArtifactName: string := "churn_model.joblib"

  class ChurnModel {
    /** The model directory. */
    const store: Store<Regressor>
    /** The regressor that fitting on the seeded synthetic data produces. */
    const synthetic: Regressor

    var model: Option<Regressor>
    var isTrained: bool

    ghost predicate Valid()
      reads this
    {
      isTrained <==> model.Some?
    }

    /** The state `load_or_train` leaves, given what the store held before. */
    ghost predicate AdoptedOrTrained(loaded: Option<Regressor>, before: map<string, Blob<Regressor>>)
      reads this, store
    {
      isTrained &&
      match loaded
      case Some(e) => model == Some(e) && store.blobs == before
      case None => model == Some(synthetic) && store.blobs == before[ArtifactName := Serialized(synthetic)]
    }

    constructor (store: Store<Regressor>, synthetic: Regressor)
      ensures Valid() && !isTrained
      ensures this.store == store && this.synthetic == synthetic
    {
      this.store := store;
      this.synthetic := synthetic;
      model := None;
      isTrained := false;
    }

    method LoadOrTrain()
      requires Valid()
      modifies this, store
      ensures Valid()
      ensures AdoptedOrTrained(old(store.Loaded(ArtifactName)), old(store.blobs))
    {
      var loaded := store.Loaded(ArtifactName);
      if loaded.Some? {
        model := loaded;
        isTrained := true;
        return;
      }
      TrainSynthetic();
    }

    method TrainSynthetic()
      requires Valid()
      modifies this, store
      ensures Valid() && isTrained && model == Some(synthetic)
      ensures store.blobs == old(store.blobs)[ArtifactName := Serialized(synthetic)]
    {
      model := Some(synthetic);
      isTrained := true;
      store.Save(ArtifactName, synthetic);
    }

    /** Lazy initialisation (only when untrained), the arity check, then the
        clipped regression. */
    method Predict(features: Batch) returns (r: Result<seq<real>>)
      requires Valid()
      modifies this, store
      ensures Valid() && isTrained
      ensures old(isTrained) ==> unchanged(this) && store.blobs == old(store.blobs)
      ensures !old(isTrained) ==> AdoptedOrTrained(old(store.Loaded(ArtifactName)), old(store.blobs))
      ensures features.width != NumFeatures ==> r == Err(ArityMismatch(NumFeatures, features.width))
      ensures features.width == NumFeatures ==> r == Ok(ClipAll(Predictions(model.value, features.rows)))
    {
      if !isTrained {
        LoadOrTrain();
      }
      if features.width != NumFeatures {
        return Err(ArityMismatch(NumFeatures, features.width));
      }
      r := Ok(ClipAll(Predictions(model.value, features.rows)));
    }

    /** Lazy initialisation and the clipped regression, without the arity
        check. */
    method PredictBatch(features: Batch) returns (r: seq<real>)
      requires Valid()
      modifies this, store
      ensures Valid() && isTrained
      ensures old(isTrained) ==> unchanged(this) && store.blobs == old(store.blobs)
      ensures !old(isTrained) ==> AdoptedOrTrained(old(store.Loaded(ArtifactName)), old(store.blobs))
      ensures r == ClipAll(Predictions(model.value, features.rows))
    {
      if !isTrained {
        LoadOrTrain();
      }
      r := ClipAll(Predictions(model.value, features.rows));
    }
  }
}
