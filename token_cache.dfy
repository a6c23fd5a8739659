/** The process-wide session-token cache (a node-cache instance with a
    standard TTL of 590 seconds). Time is an explicit `now` in milliseconds,
    as `Date.now()` gives it. */
module TokenCaching {
  import opened JsValues

  /** `stdTTL: 10 * 59`, in seconds. */
  const StdTtlSeconds := 10 * 59
  const TtlMillis := StdTtlSeconds * 1000

  /** A stored value and the instant after which it has expired. */
  datatype CacheEntry = CacheEntry(value: Value, expiresAt: int)

  /** An entry is alive up to and including its expiry instant. */
  predicate Alive(entries: map<string, CacheEntry>, key: string, now: int)
  {
    key in entries && now <= entries[key].expiresAt
  }

  /** What `get(key)` answers at `now`: the stored value while it is alive,
      and `undefined` otherwise. */
  function CachedValue(entries: map<string, CacheEntry>, key: string, now: int): Value
  {
    if Alive(entries, key, now) then entries[key].value else Undefined
  }

  /** The entries after `get(key)` at `now`: an expired entry read is deleted. */
  function AfterGet(entries: map<string, CacheEntry>, key: string, now: int): map<string, CacheEntry>
  {
    if key in entries && !Alive(entries, key, now) then entries - {key} else entries
  }

  /** The entries after `set(key, value)` at `now`. */
  function AfterSet(entries: map<string, CacheEntry>, key: string, value: Value, now: int): map<string, CacheEntry>
  {
    entries[key := CacheEntry(value, now + TtlMillis)]
  }

  /** A value set at `now` is returned by every read of its key during the
      following 590 seconds and by none after. */
  lemma SetThenGet(entries: map<string, CacheEntry>, key: string, value: Value, now: int, later: int)
    requires now <= later
    ensures CachedValue(AfterSet(entries, key, value, now), key, later) ==
      if later <= now + 590000 then value else Undefined
  {
  }

  /** Reads never change what any later read at the same instant sees. */
  lemma GetIsInvisible(entries: map<string, CacheEntry>, key: string, now: int, other: string)
    ensures CachedValue(AfterGet(entries, key, now), other, now) == CachedValue(entries, other, now)
  {
  }

  class TokenCache {
    var entries: map<string, CacheEntry>

    constructor ()
      ensures entries == map[]
    {
      entries := map[];
    }

    method Get(key: string, now: int) returns (v: Value)
      modifies this
      ensures v == CachedValue(old(entries), key, now)
      ensures entries == AfterGet(old(entries), key, now)
    {
      if key in entries && now <= entries[key].expiresAt {
        v := entries[key].value;
      } else {
        v := Undefined;
        if key in entries {
          entries := entries - {key};
        }
      }
    }

    method Set(key: string, value: Value, now: int)
      modifies this
      ensures entries == AfterSet(old(entries), key, value, now)
      ensures forall k :: k != key ==> CachedValue(entries, k, now) == CachedValue(old(entries), k, now)
    {
      entries := entries[key := CacheEntry(value, now + TtlMillis)];
    }
  }
}
