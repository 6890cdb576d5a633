/** Failure-carrying wrappers shared by every module of the model.

    - `Option<T>` stands for Python values that may be `None`.
    - `Result<T, E>` stands for a computation that either yields a value or
      fails with an error of type `E`.
 */
module Base {

  datatype Option<+T> = None | Some(value: T)

  datatype Result<+T, +E> = Ok(value: T) | Err(error: E)

  /** The value of an optional mapping entry, or `None` when the key is absent. */
  function Lookup<K, V>(m: map<K, V>, k: K): (r: Option<V>)
    ensures r.Some? <==> k in m
    ensures r.Some? ==> r.value == m[k]
  {
    if k in m then Some(m[k]) else None
  }
}
