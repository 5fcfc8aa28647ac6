/** The optional value used throughout, in place of Go's nil pointers and Python's None. */
module Wrappers {

  datatype Option<+T> = None | Some(value: T)

  /** Map lookup as an optional value. */
  function Lookup<K, V>(m: map<K, V>, k: K): Option<V> {
    if k in m then Some(m[k]) else None
  }
}
