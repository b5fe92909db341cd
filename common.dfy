/** Value wrappers shared by every module of the model. */
module Common {

  /** java.util.Optional: a value that is present or empty. */
  datatype Option<+T> = None | Some(value: T)

  /**
   * A Java reference that may hold null. Kept apart from Option so that the
   * places where the source turns a null into an Optional stay visible.
   */
  datatype Nullable<+T> = Null | Ref(get: T)

  /** An operation that either yields a value or raises an error. */
  datatype Result<+T, +E> = Success(value: T) | Failure(error: E)

  /** A Java byte (signed, 8 bits). */
  newtype Byte = b: int | -128 <= b < 128

  /** Map.get: the value under a key, or nothing. */
  function Lookup<K, V>(m: map<K, V>, k: K): (r: Option<V>)
    ensures r.Some? <==> k in m
    ensures r.Some? ==> r.value == m[k]
  {
    if k in m then Some(m[k]) else None
  }

  /** Optional.ofNullable: empty exactly for null, otherwise present with the same value. */
  function OfNullable<T>(x: Nullable<T>): (r: Option<T>)
    ensures r.Some? <==> x.Ref?
    ensures r.Some? ==> r.value == x.get
  {
    if x.Null? then None else Some(x.get)
  }

  /** Optional.orElse(null): the way back from OfNullable. */
  function OrNull<T>(o: Option<T>): (r: Nullable<T>)
    ensures r.Ref? <==> o.Some?
    ensures r.Ref? ==> r.get == o.value
  {
    if o.None? then Null else Ref(o.value)
  }

  /** OfNullable loses nothing: OrNull undoes it, and it undoes OrNull. */
  lemma OfNullableRoundTrip<T>(x: Nullable<T>, o: Option<T>)
    ensures OrNull(OfNullable(x)) == x
    ensures OfNullable(OrNull(o)) == o
  {
  }
}
