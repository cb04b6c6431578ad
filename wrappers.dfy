/** The optional value used wherever the source holds `None` or a value. */
module Wrappers {

  datatype Option<+T> = None | Some(value: T)

  /** The value stored under `key`, or `None` when the key is missing (Python's `dict.get(key, None)`). */
  function Get<K, V>(m: map<K, V>, key: K): (r: Option<V>)
    ensures r.Some? <==> key in m
    ensures r.Some? ==> r.value == m[key]
  {
    if key in m then Some(m[key]) else None
  }
}
