/** Read-only accessors over a dictionary of stored data. */
module DataManager {
  import opened Wrappers

  /** get_data_with_key: `data.get(key, None)`. */
  function GetDataWithKey<K, V>(key: K, data: map<K, V>): (r: Option<V>)
    ensures r.Some? <==> key in data
    ensures key in data ==> r == Some(data[key])
  {
    if key in data then Some(data[key]) else None
  }

  /** get_data_with_keys: one entry per requested key, None where the key is absent. */
  function GetDataWithKeys<K, V>(keys: seq<K>, data: map<K, V>): (r: map<K, Option<V>>)
    ensures r.Keys == set k | k in keys
    ensures forall k :: k in keys ==> r[k] == GetDataWithKey(k, data)
    ensures forall k :: k in keys && k in data ==> r[k] == Some(data[k])
    ensures forall k :: k in keys && k !in data ==> r[k] == None
  {
    map k | k in keys :: GetDataWithKey(k, data)
  }

  /** create_data_getter: a closure over `key` that reads it from any dictionary. */
  function CreateDataGetter<K(!new), V(!new)>(key: K): (getter: map<K, V> -> Option<V>)
    ensures forall data :: getter(data) == GetDataWithKey(key, data)
    ensures forall data :: getter(data).Some? <==> key in data
  {
    data => GetDataWithKey(key, data)
  }
}
