/** Small shared vocabulary. */
module Common {

  datatype Option<+T> = None | Some(value: T)

  /** The map without one key; the map itself when the key is absent. */
  function Without<K, V>(m: map<K, V>, key: K): (r: map<K, V>)
    ensures r.Keys == m.Keys - {key}
    ensures forall k :: k in r ==> r[k] == m[k]
  {
    map k | k in m && k != key :: m[k]
  }

  lemma CardWithout<K, V>(m: map<K, V>, key: K)
    requires key in m
    ensures |Without(m, key)| < |m|
  {
  }

  lemma CardUpdate<K, V>(m: map<K, V>, key: K, value: V)
    ensures |m[key := value]| == if key in m then |m| else |m| + 1
  {
  }

  lemma CardWithoutAtMost<K, V>(m: map<K, V>, key: K)
    ensures |Without(m, key)| <= |m|
  {
  }

  lemma WithoutAdded<K, V>(m: map<K, V>, key: K, value: V)
    requires key !in m
    ensures Without(m[key := value], key) == m
  {
  }
}
