/** Optional values and fallible results, plus the two dictionary lookups
    (`get(k)` and `get(k, default)`) that the integration uses throughout. */
module Wrappers {

  datatype Option<T> = None | Some(value: T)
  {
    predicate IsSome() { Some? }

    /** `x if x is not None else d` */
    function GetOr(d: T): (r: T)
      ensures Some? ==> r == value
      ensures None? ==> r == d
    {
      match this
      case Some(v) => v
      case None => d
    }
  }

  datatype Result<T, E> = Ok(value: T) | Err(error: E)

  /** `m.get(k)`: the value stored at `k`, or nothing. */
  function Get<K, V>(m: map<K, V>, k: K): (r: Option<V>)
    ensures r.Some? <==> k in m
    ensures k in m ==> r.value == m[k]
  {
    if k in m then Some(m[k]) else None
  }

  /** `m.get(k, d)`: the value stored at `k`, or the default. */
  function GetOr<K, V>(m: map<K, V>, k: K, d: V): (r: V)
    ensures k in m ==> r == m[k]
    ensures k !in m ==> r == d
  {
    if k in m then m[k] else d
  }
}
