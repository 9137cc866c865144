/** Failure-carrying values used for the dictionary look-ups and exceptions of
    the simulator. */
module Wrappers {

  /** A value that may be missing: a dictionary look-up that can miss. */
  datatype Option<+T> = None | Some(value: T)

  /** Either a computed value or the error the simulator raises instead. */
  datatype Result<+T, +E> = Success(value: T) | Failure(error: E)

  /** The Python dictionary subscript `m[k]`, with the KeyError as `None`. */
  function Lookup<K, V>(m: map<K, V>, k: K): (r: Option<V>)
    ensures r.Some? <==> k in m
    ensures r.Some? ==> r.value == m[k]
  {
    if k in m then Some(m[k]) else None
  }
}
