/** Small failure-carrying datatypes shared by the whole model. */
module Wrappers {

  /** A value that may be absent: JavaScript's `null` / `undefined`. */
  datatype Option<+T> = None | Some(value: T) {
    function GetOr(default: T): T {
      match this
      case Some(v) => v
      case None => default
    }
  }

  /** The outcome of a call that may throw: `Ok` with its value or `Err` with the thrown error. */
  datatype Result<+R, +E> = Ok(value: R) | Err(error: E)

  /** The outcome of a call that returns nothing but may throw. */
  datatype Outcome<+E> = Pass | Fail(error: E)

  /** Looks a key up in a map, as a `get` on a key-indexed store does. */
  function Get<K, V>(m: map<K, V>, k: K): (r: Option<V>)
    ensures r.Some? <==> k in m
    ensures r.Some? ==> r.value == m[k]
  {
    if k in m then Some(m[k]) else None
  }

  /**
   * A filter button: clicking the active choice clears the selection, clicking
   * any other choice selects it.
   */
  function Toggle<T(==)>(current: Option<T>, clicked: T): (r: Option<T>)
    ensures r.None? <==> current == Some(clicked)
    ensures r.Some? ==> r.value == clicked
  {
    if current == Some(clicked) then None else Some(clicked)
  }
}
