/** The optional value used for lookups that may miss and parses that may fail. */
module Wrappers {
  datatype Option<+T> = None | Some(value: T)

  /** The entry stored under `k`, if any: a table lookup by primary key. */
  function Lookup<K, V>(m: map<K, V>, k: K): (r: Option<V>)
    ensures r.Some? <==> k in m
    ensures r.Some? ==> r.value == m[k]
  {
    if k in m then Some(m[k]) else None
  }
}
