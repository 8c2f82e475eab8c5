/** The usual optional value, standing for Kotlin's nullable types. */
module Options {
  datatype Option<+T> = None | Some(value: T)

  /** Kotlin's `map[key]`: the value stored under `k`, or none. */
  function Lookup<K, V>(m: map<K, V>, k: K): (r: Option<V>)
    ensures r.Some? <==> k in m
    ensures r.Some? ==> r.value == m[k]
  {
    if k in m then Some(m[k]) else None
  }
}
