/** An object in the API server, whose version changes with every write. */
module StoredObjects {

  /** How the API server treats a write: it answers, it fails, or it stores and the answer is lost. */
  datatype Reply = Answered | Rejected | Lost

  /** The history has every value that the object ever held, indexed by version. */
  class StoredObject<T> {
    var version: nat
    var value: T
    ghost var history: seq<T>

    ghost predicate Valid()
      reads this
    {
      |history| == version + 1 && history[version] == value
    }

    constructor (v: T)
      ensures Valid() && history == [v]
    {
      version, value, history := 0, v, [v];
    }

    method Store(v: T)
      requires Valid()
      modifies this
      ensures Valid() && history == old(history) + [v]
    {
      version, value, history := version + 1, v, history + [v];
    }

    /** Writes by other parties that land now. */
    method Interfere(writes: seq<T>)
      requires Valid()
      modifies this
      ensures Valid() && history == old(history) + writes
    {
      for i := 0 to |writes|
        invariant Valid() && history == old(history) + writes[..i]
      {
        Store(writes[i]);
      }
      assert writes[..|writes|] == writes;
    }
  }
}
