/** Python's dict as the session stores use it: a map that remembers insertion order. */
module Dicts {
  import opened Wrappers

  predicate Distinct<T(==)>(s: seq<T>) {
    forall i, j :: 0 <= i < j < |s| ==> s[i] != s[j]
  }

  /** Removing one position from a sequence without repeats leaves one without repeats. */
  lemma DistinctRemove<T>(s: seq<T>, n: nat)
    requires Distinct(s) && n < |s|
    ensures Distinct(s[..n] + s[n + 1..])
    ensures forall x :: x in s[..n] + s[n + 1..] <==> x in s && x != s[n]
  {
    var t := s[..n] + s[n + 1..];
    forall x | x in s && x != s[n] ensures x in t {
      var i :| 0 <= i < |s| && s[i] == x;
      if i < n { assert t[i] == x; } else { assert t[i - 1] == x; }
    }
  }

  /** The first i + 1 elements are the first i followed by element i. */
  lemma TakeSnoc<T>(s: seq<T>, i: nat)
    requires i < |s|
    ensures s[..i + 1] == s[..i] + [s[i]]
  {
  }

  /** The values stored under `ks`, in the order of `ks`. */
  function Project<K, V>(ks: seq<K>, m: map<K, V>): (vs: seq<V>)
    requires forall k :: k in ks ==> k in m
    ensures |vs| == |ks|
    ensures forall i :: 0 <= i < |ks| ==> vs[i] == m[ks[i]]
  {
    if ks == [] then [] else [m[ks[0]]] + Project(ks[1..], m)
  }

  /** A dictionary object: `keys` is the insertion order, `entries` the key-value pairs. */
  class OrderedDict<K(==,!new), V> {
    var keys: seq<K>
    var entries: map<K, V>

    ghost predicate Valid()
      reads this
    {
      Distinct(keys) && forall k :: k in entries <==> k in keys
    }

    /** `{}` */
    constructor ()
      ensures Valid() && keys == [] && entries == map[]
    {
      keys := [];
      entries := map[];
    }

    /** list(d.values()), in insertion order. */
    function Values(): (vs: seq<V>)
      requires Valid()
      reads this
      ensures |vs| == |keys|
      ensures forall i :: 0 <= i < |keys| ==> vs[i] == entries[keys[i]]
    {
      Project(keys, entries)
    }

    /** list(d.values())[-1]: the most recently inserted key's value; IndexError when empty. */
    function LastValue(): (r: Result<V>)
      requires Valid()
      reads this
      ensures r.Ok? <==> |keys| > 0
      ensures r.Err? ==> r.error == IndexError
      ensures r.Ok? ==> r.value == entries[keys[|keys| - 1]]
    {
      if |keys| == 0 then Err(IndexError) else Ok(entries[keys[|keys| - 1]])
    }

    /** `d[k] = v`: a new key goes last, an existing key keeps its position. */
    method Put(k: K, v: V)
      requires Valid()
      modifies this
      ensures Valid()
      ensures entries == old(entries)[k := v]
      ensures keys == if k in old(keys) then old(keys) else old(keys) + [k]
    {
      if k !in keys {
        keys := keys + [k];
      }
      entries := entries[k := v];
    }

    /** `del d[list(d.keys())[n]]`: removes the n-th key in insertion order, IndexError past the end. */
    method DeleteAt(n: nat) returns (r: Result<K>)
      requires Valid()
      modifies this
      ensures Valid()
      ensures r.Ok? <==> n < |old(keys)|
      ensures r.Err? ==> r.error == IndexError && keys == old(keys) && entries == old(entries)
      ensures r.Ok? ==> (r.value == old(keys)[n]
                         && keys == old(keys)[..n] + old(keys)[n + 1..]
                         && entries == old(entries) - {old(keys)[n]})
    {
      if n >= |keys| {
        return Err(IndexError);
      }
      var key := keys[n];
      DistinctRemove(keys, n);
      keys := keys[..n] + keys[n + 1..];
      entries := entries - {key};
      r := Ok(key);
    }
  }
}
