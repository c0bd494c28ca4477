/**
 * The versioned key/value cache the gate is built on: every entry is stored
 * under a (version, key) pair; a call that passes no version (or `None`) uses
 * the cache's default version.  Only the operations the core calls are
 * modelled: get, set, add, incr, set_many and delete.
 */
module VersionedCache {
  import opened Wrappers
  import opened Keys

  type Version = int

  /** Django's default cache VERSION; `version=None` resolves to it. */
  const DefaultVersion: Version := 1

  /** (version, key) */
  type CacheKey = (Version, string)

  /** Where the counter `django:tos:key_version` lives. */
  const CounterSlot: CacheKey := (DefaultVersion, KeyVersionKey)

  /** The values the core stores: the counter and the cached booleans. */
  datatype Value = Int(n: int) | Bool(b: bool)

  type Entries = map<CacheKey, Value>

  datatype CacheError = KeyNotFound(key: string)

  /** Python truthiness of a cached value. */
  predicate Truthy(v: Value)
  {
    match v
    case Int(n) => n != 0
    case Bool(b) => b
  }

  /** The value Python's `+` sees: True is 1 and False is 0. */
  function Numeric(v: Value): int
  {
    match v
    case Int(n) => n
    case Bool(b) => if b then 1 else 0
  }

  function Resolve(version: Option<Version>): Version
  {
    if version.Some? then version.value else DefaultVersion
  }

  function Lookup(e: Entries, version: Version, key: string): Option<Value>
  {
    if (version, key) in e then Some(e[(version, key)]) else None
  }

  /** `cache.get(key, False, version=version)` is truthy. */
  predicate FoundTruthy(e: Entries, version: Version, key: string)
  {
    (version, key) in e && Truthy(e[(version, key)])
  }

  /** Every writer of the counter writes an integer. */
  predicate CounterValid(e: Entries)
  {
    CounterSlot in e ==> e[CounterSlot].Int?
  }

  /** `cache.get('django:tos:key_version')` */
  function Counter(e: Entries): Option<int>
    requires CounterValid(e)
  {
    if CounterSlot in e then Some(e[CounterSlot].n) else None
  }

  /** The version every derived key is read and written at. */
  function CurrentVersion(e: Entries): Version
    requires CounterValid(e)
  {
    Resolve(Counter(e))
  }

  /**
   * The generation invariant: no derived entry (any key but the counter) is
   * stored above the current version.
   */
  ghost predicate NoDerivedAboveCurrent(e: Entries)
    requires CounterValid(e)
  {
    forall k :: k in e && k.1 != KeyVersionKey ==> k.0 <= CurrentVersion(e)
  }

  /** `add`: store only if the slot is empty. */
  function Added(e: Entries, slot: CacheKey, value: Value): Entries
  {
    if slot in e then e else e[slot := value]
  }

  /** `incr`: add one to the stored number; an empty slot is left alone (and the call fails). */
  function Incremented(e: Entries, slot: CacheKey): Entries
  {
    if slot in e then e[slot := Int(Numeric(e[slot]) + 1)] else e
  }

  /** `set_many(mapping, version=version)` */
  function SetManyEntries(e: Entries, version: Version, mapping: map<string, Value>): Entries
  {
    e + map k | k in mapping :: (version, k) := mapping[k]
  }

  /** A bulk write changes exactly the mapped keys at the given version. */
  lemma SetManyLookup(e: Entries, version: Version, mapping: map<string, Value>, at: Version, key: string)
    ensures Lookup(SetManyEntries(e, version, mapping), at, key) ==
      if at == version && key in mapping then Some(mapping[key]) else Lookup(e, at, key)
  {
  }

  class Cache {
    var entries: Entries

    predicate Valid()
      reads this
    {
      CounterValid(entries)
    }

    constructor ()
      ensures Valid() && entries == map[]
    {
      entries := map[];
    }

    method Get(key: string, version: Option<Version>) returns (r: Option<Value>)
      ensures r.Some? <==> (Resolve(version), key) in entries
      ensures r.Some? ==> r.value == entries[(Resolve(version), key)]
    {
      var slot := (Resolve(version), key);
      if slot in entries {
        r := Some(entries[slot]);
      } else {
        r := None;
      }
    }

    method Set(key: string, value: Value, version: Option<Version>)
      requires Valid()
      requires (Resolve(version), key) == CounterSlot ==> value.Int?
      modifies this
      ensures Valid()
      ensures entries == old(entries)[(Resolve(version), key) := value]
    {
      entries := entries[(Resolve(version), key) := value];
    }

    method Add(key: string, value: Value, version: Option<Version>) returns (added: bool)
      requires Valid()
      requires (Resolve(version), key) == CounterSlot ==> value.Int?
      modifies this
      ensures Valid()
      ensures added <==> (Resolve(version), key) !in old(entries)
      ensures entries == Added(old(entries), (Resolve(version), key), value)
    {
      var slot := (Resolve(version), key);
      added := slot !in entries;
      if added {
        entries := entries[slot := value];
      }
    }

    method Incr(key: string, version: Option<Version>) returns (r: Result<int, CacheError>)
      requires Valid()
      modifies this
      ensures Valid()
      ensures r.Err? <==> (Resolve(version), key) !in old(entries)
      ensures r.Err? ==> r.error == KeyNotFound(key)
      ensures r.Ok? ==> r.value == Numeric(old(entries)[(Resolve(version), key)]) + 1
      ensures entries == Incremented(old(entries), (Resolve(version), key))
    {
      var slot := (Resolve(version), key);
      if slot !in entries {
        return Err(KeyNotFound(key));
      }
      var n := Numeric(entries[slot]) + 1;
      entries := entries[slot := Int(n)];
      r := Ok(n);
    }

    method SetMany(mapping: map<string, Value>, version: Option<Version>)
      requires Valid()
      requires Resolve(version) == DefaultVersion && KeyVersionKey in mapping ==> mapping[KeyVersionKey].Int?
      modifies this
      ensures Valid()
      ensures entries == SetManyEntries(old(entries), Resolve(version), mapping)
    {
      entries := SetManyEntries(entries, Resolve(version), mapping);
    }

    method Delete(key: string, version: Option<Version>)
      requires Valid()
      modifies this
      ensures Valid()
      ensures entries == old(entries) - {(Resolve(version), key)}
    {
      entries := entries - {(Resolve(version), key)};
    }
  }
}
