/**
 * A Redis-like key-value store with optional expiry, as the dedup guards
 * use it: `get` sees a key until its expiry time, `set` overwrites the
 * value and the expiry.
 */
module KeyValue {
  import opened Wrappers

  datatype Entry = Entry(value: string, expiresAt: Option<int>)

  /** An entry is visible at `now` until (not including) its expiry. */
  predicate Live(e: Entry, now: int) {
    e.expiresAt.None? || now < e.expiresAt.value
  }

  /** What `get(key)` answers at `now`. */
  function Lookup(entries: map<string, Entry>, key: string, now: int): (v: Option<string>)
    ensures v.Some? <==> key in entries && Live(entries[key], now)
    ensures v.Some? ==> v.value == entries[key].value
  {
    if key in entries && Live(entries[key], now) then Some(entries[key].value) else None
  }

  /** The entry `set(key, value, ex=ttl)` writes at `now`. */
  function Written(value: string, ttl: Option<int>, now: int): Entry {
    Entry(value, if ttl.Some? then Some(now + ttl.value) else None)
  }

  /** A value written with a TTL is visible for exactly that many seconds. */
  lemma WrittenVisibleForTtl(entries: map<string, Entry>, key: string, value: string, ttl: int, now: int, later: int)
    requires now <= later
    ensures Lookup(entries[key := Written(value, Some(ttl), now)], key, later) == (if later < now + ttl then Some(value) else None)
  {
  }

  class KeyValueStore {
    var entries: map<string, Entry>

    constructor (entries: map<string, Entry>)
      ensures this.entries == entries
    {
      this.entries := entries;
    }

    /** `get(key)`: the live value, if any. */
    method Get(key: string, now: int) returns (v: Option<string>)
      ensures v == Lookup(entries, key, now)
    {
      if key in entries && Live(entries[key], now) {
        v := Some(entries[key].value);
      } else {
        v := None;
      }
    }

    /** `set(key, value, ex=ttl)`. */
    method Set(key: string, value: string, ttl: Option<int>, now: int)
      modifies this`entries
      ensures entries == old(entries)[key := Written(value, ttl, now)]
      ensures Lookup(entries, key, now) == (if ttl.None? || ttl.value > 0 then Some(value) else None)
    {
      entries := entries[key := Written(value, ttl, now)];
    }
  }
}
