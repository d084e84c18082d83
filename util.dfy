/** The two keyed maps of the layer utilities, single-threaded: the mutex
    is not modelled. A pointer into the map is modelled by the value it
    points at, read when it is dereferenced; the maps keep their values at
    stable addresses, so a pointer handed out earlier sees later overwrites. */
module Util {
  import opened Wrappers

  /** `ProtectedMap`: a map whose `put` never overwrites. */
  class ProtectedMap<K(==), V> {
    var entries: map<K, V>

    constructor ()
      ensures entries == map[]
    {
      entries := map[];
    }

    /** `count`: 1 exactly when the key is present. */
    method Count(key: K) returns (n: nat)
      ensures n <= 1 && (n == 1 <==> key in entries)
    {
      n := if key in entries then 1 else 0;
    }

    /** `get`: the stored value, or `None` (a null pointer) for an absent key. */
    method Get(key: K) returns (r: Option<V>)
      ensures r.Some? <==> key in entries
      ensures r.Some? ==> r.value == entries[key]
    {
      r := if key in entries then Some(entries[key]) else None;
    }

    /** `put` is `emplace`: it inserts only when the key is absent, reports
        whether it did, and never replaces a stored value. */
    method Put(key: K, value: V) returns (inserted: bool)
      modifies this
      ensures inserted <==> key !in old(entries)
      ensures entries == if inserted then old(entries)[key := value] else old(entries)
    {
      inserted := key !in entries;
      if inserted {
        entries := entries[key := value];
      }
    }

    /** Writing through the pointer that `get` returned: the stored value is
        replaced in place and every other entry is left alone. */
    method Update(key: K, value: V)
      requires key in entries
      modifies this
      ensures entries == old(entries)[key := value]
    {
      entries := entries[key := value];
    }

    /** `access()->erase(key)`: the amber-scoop layer removes an entry
        through the unprotected map that `access` returns. */
    method Erase(key: K)
      modifies this
      ensures entries == old(entries) - {key}
    {
      entries := entries - {key};
    }
  }

  /** The first `put` for a key wins: a second `put` with another value
      neither inserts nor changes what `get` returns. */
  method FirstPutWins<K(==), V>(key: K, first: V, second: V) returns (again: bool, r: Option<V>)
    ensures !again && r == Some(first)
  {
    var m := new ProtectedMap<K, V>();
    var inserted := m.Put(key, first);
    again := m.Put(key, second);
    r := m.Get(key);
  }

  /** `ProtectedTinyStaleMap`: `put` overwrites, nothing is ever removed, and
      `get` goes through a one-entry cache of the last key it looked up and
      the pointer it found (which may be null). */
  class ProtectedTinyStaleMap<K(==), V> {
    var entries: map<K, V>
    var cacheKey: K
    /** Whether the cached pointer is non-null. */
    var cacheHit: bool

    /** A non-null cached pointer points into the map: entries are never
        removed, so it stays valid. */
    ghost predicate Valid()
      reads this
    {
      cacheHit ==> cacheKey in entries
    }

    /** The cache starts value-initialised: the zero key with a null pointer. */
    constructor (zeroKey: K)
      ensures Valid() && entries == map[] && cacheKey == zeroKey && !cacheHit
    {
      entries := map[];
      cacheKey := zeroKey;
      cacheHit := false;
    }

    /** `get`: a cache hit answers without looking in the map; a miss looks
        the key up and caches the key with what it found, null included. */
    method Get(key: K) returns (r: Option<V>)
      requires Valid()
      modifies this`cacheKey, this`cacheHit
      ensures Valid() && entries == old(entries)
      ensures old(cacheKey) == key ==> cacheKey == old(cacheKey) && cacheHit == old(cacheHit)
      ensures old(cacheKey) == key ==> (r.Some? <==> old(cacheHit))
      ensures old(cacheKey) != key ==> cacheKey == key && (cacheHit <==> key in entries) && (r.Some? <==> key in entries)
      ensures r.Some? ==> key in entries && r.value == entries[key]
    {
      if cacheKey == key {
        return if cacheHit then Some(entries[key]) else None;
      }
      cacheKey := key;
      cacheHit := key in entries;
      r := if cacheHit then Some(entries[key]) else None;
    }

    /** `put`: `map_[key] = value`, overwriting in place. */
    method Put(key: K, value: V)
      requires Valid()
      modifies this`entries
      ensures Valid() && entries == old(entries)[key := value]
    {
      entries := entries[key := value];
    }
  }

  /** The stale null: once `get` has cached a miss for a key, a later `put`
      of that key stays invisible to `get` until another key is looked up. */
  method StaleMissAfterPut<K(==), V>(zeroKey: K, key: K, value: V) returns (before: Option<V>, after: Option<V>)
    ensures before == None && after == None
  {
    var m := new ProtectedTinyStaleMap<K, V>(zeroKey);
    before := m.Get(key);
    m.Put(key, value);
    after := m.Get(key);
  }

  /** Looking up another key in between refreshes the cache. */
  method PutVisibleAfterOtherLookup<K(==), V>(zeroKey: K, key: K, other: K, value: V)
    returns (after: Option<V>)
    requires other != key
    ensures after == Some(value)
  {
    var m := new ProtectedTinyStaleMap<K, V>(zeroKey);
    var before := m.Get(key);
    m.Put(key, value);
    var _ := m.Get(other);
    after := m.Get(key);
  }
}
