/** The multi-valued reference fields (mediaTag, minister, mediaChannel,
    mediaCategory, thumbnailLink) and the rule by which an update combines
    the value a request supplies with the value a document holds. */
module AssociationMerge {

  /** A multi-valued field as a request body supplies it or a document holds
      it. Absent stands for every falsy value (undefined, null, ""); One is a
      truthy value that is not an array; Many is an array, and an array is
      truthy even when it is empty. */
  datatype Assoc<T> = Absent | One(value: T) | Many(values: seq<T>)

  /** The references a field holds, in order. A scalar stored into an array
      path is the one-element array holding it. */
  function Values<T>(a: Assoc<T>): seq<T> {
    match a
    case Absent => []
    case One(v) => [v]
    case Many(vs) => vs
  }

  /** The value an update computes for one field (the `item...` variable):
      a supplied array replaces the stored value; a supplied scalar is pushed
      onto a stored array, or joins a stored scalar in a new two-element
      array, or stands alone when nothing is stored; a falsy supplied value
      gives a falsy result. */
  function Merge<T>(stored: Assoc<T>, supplied: Assoc<T>): (r: Assoc<T>)
    ensures supplied.Many? ==> r == supplied
    ensures supplied.One? ==> Values(r) == Values(stored) + [supplied.value]
    ensures supplied.One? && !stored.Absent? ==> r.Many?
    ensures supplied.Absent? ==> r.Absent?
  {
    if supplied.Many? then supplied
    else if supplied.One? && stored.Many? then Many(stored.values + [supplied.value])
    else if supplied.One? && stored.One? then Many([stored.value, supplied.value])
    else supplied
  }

  /** `item ? (existing.field = item) : ""`: a falsy merged value leaves the
      stored value in place. */
  function Assign<T>(stored: Assoc<T>, merged: Assoc<T>): Assoc<T> {
    if merged.Absent? then stored else merged
  }

  /** The merge reads the stored value exactly when a truthy non-array value
      is supplied; with no stored document that read fails. */
  predicate ReadsStored<T>(supplied: Assoc<T>) {
    supplied.One?
  }

  /** The stored value of a field after an update that supplied `supplied`:
      append semantics unless a whole array is supplied, and nothing changes
      when nothing is supplied. */
  function UpdateField<T>(stored: Assoc<T>, supplied: Assoc<T>): (r: Assoc<T>)
    ensures supplied.Many? ==> Values(r) == supplied.values
    ensures supplied.One? ==> Values(r) == Values(stored) + [supplied.value]
    ensures supplied.Absent? ==> r == stored
  {
    Assign(stored, Merge(stored, supplied))
  }

  /** An update that supplies a scalar keeps every reference the field held,
      in the same order, and adds exactly one at the end. */
  lemma AppendKeepsOrder<T>(stored: Assoc<T>, v: T)
    ensures var r := Values(UpdateField(stored, One(v)));
      |r| == |Values(stored)| + 1 && r[..|Values(stored)|] == Values(stored) && r[|r| - 1] == v
  {
    var r := Values(UpdateField(stored, One(v)));
    assert r == Values(stored) + [v];
  }

  /** Supplying the same array twice is the same as supplying it once. */
  lemma ArrayUpdateIdempotent<T>(stored: Assoc<T>, vs: seq<T>)
    ensures UpdateField(UpdateField(stored, Many(vs)), Many(vs)) == UpdateField(stored, Many(vs))
  {
  }

  /** Supplying the same scalar twice stores it twice: the update is not idempotent. */
  lemma {:induction false} ScalarUpdateTwice<T>(stored: Assoc<T>, v: T)
    ensures Values(UpdateField(UpdateField(stored, One(v)), One(v))) == Values(stored) + [v, v]
  {
    var once := UpdateField(stored, One(v));
    assert Values(once) == Values(stored) + [v];
    assert Values(UpdateField(once, One(v))) == Values(once) + [v];
  }
}
