/** The persisted model store: one named blob per model file
    (`models/<name>.joblib`).  A blob either deserialises to an estimator
    or is unreadable; a missing file is a name absent from the map. */
module Artifacts {
  import opened Common

  datatype Blob<E> = Corrupt | Serialized(estimator: E)

  class Store<E> {
    var blobs: map<string, Blob<E>>

    constructor (initial: map<string, Blob<E>>)
      ensures blobs == initial
    {
      blobs := initial;
    }

    /** What `joblib.load` yields for a name: the estimator when the file
        exists and deserialises, nothing otherwise. */
    function Loaded(name: string): (r: Option<E>)
      reads this
      ensures r.Some? <==> name in blobs && blobs[name].Serialized?
      ensures r.Some? ==> blobs[name] == Serialized(r.value)
    {
      if name in blobs && blobs[name].Serialized? then Some(blobs[name].estimator) else None
    }

    /** `joblib.dump`: (over)writes the named file. */
    method Save(name: string, e: E)
      modifies this
      ensures blobs == old(blobs)[name := Serialized(e)]
    {
      blobs := blobs[name := Serialized(e)];
    }
  }
}
