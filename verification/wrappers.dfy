/** The two failure-carrying datatypes of the model: `Option` stands for a
    Python value that may be `None`, `Result` for a call that may raise. */
module Wrappers {

  datatype Option<T> = None | Some(value: T)

  /** `x if x is not None else fallback` */
  function OrElse<T>(o: Option<T>, fallback: T): (r: T)
    ensures o.Some? ==> r == o.value
    ensures o.None? ==> r == fallback
  {
    if o.Some? then o.value else fallback
  }

  datatype Result<R, E> = Success(value: R) | Failure(error: E)

  /** Dictionary lookup that reports a missing key as `None` (Python's `d.get(k)`). */
  function Get<K, V>(m: map<K, V>, k: K): (r: Option<V>)
    ensures r.Some? <==> k in m
    ensures r.Some? ==> m[k] == r.value
  {
    if k in m then Some(m[k]) else None
  }
}
