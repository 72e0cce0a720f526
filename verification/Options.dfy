/** Optional values, and dictionaries read with a default. */
module Options {
  datatype Option<+T> = None | Some(value: T)

  function Lookup<K, V>(m: map<K, V>, key: K): Option<V> {
    if key in m then Some(m[key]) else None
  }

  function GetOr<K, V>(m: map<K, V>, key: K, default: V): V {
    var found := Lookup(m, key);
    if found.Some? then found.value else default
  }

  function Put<K(!new), V>(m: map<K, V>, key: K, value: V): (r: map<K, V>)
    ensures forall k :: Lookup(r, k) == if k == key then Some(value) else Lookup(m, k)
  {
    m[key := value]
  }

  function Drop<K(!new), V>(m: map<K, V>, key: K): (r: map<K, V>)
    ensures forall k :: Lookup(r, k) == if k == key then None else Lookup(m, k)
  {
    m - {key}
  }
}
