/** The in-memory TTL cache (server/src/lib/cache.ts). Entries are keyed by
    the lower-cased, trimmed city name, expire lazily on the read that finds
    them stale, and every hit reports its remaining lifetime. The clock is
    the `now` argument (milliseconds), where the source reads `Date.now()`. */
module Cache {
  import opened Wrappers
  import opened JsString
  import opened SharedTypes

  /** A stored result with the time it was stored. */
  datatype CacheEntry = CacheEntry(data: CityRanking, timestamp: int)

  /** `getCacheKey`: lower-case, then trim. A key has no upper-case letter
      and neither starts nor ends with white space. */
  function CacheKey(city: string): (key: string)
    ensures forall i :: 0 <= i < |key| ==> !IsAsciiUpper(key[i])
    ensures key == [] || (!IsSpace(key[0]) && !IsSpace(key[|key| - 1]))
  {
    Trim(Lower(city))
  }

  /** `Math.floor((ttlMs - elapsed) / 1000)`: whole seconds left of the
      lifetime after `elapsed` milliseconds, rounded down. */
  function SecondsLeft(ttlMs: int, elapsed: int): (secs: int)
    ensures secs * 1000 <= ttlMs - elapsed < secs * 1000 + 1000
  {
    (ttlMs - elapsed) / 1000
  }

  /** The staleness test: strictly more than the lifetime has passed. */
  predicate IsExpired(entry: CacheEntry, ttlMs: int, now: int)
  {
    now - entry.timestamp > ttlMs
  }

  /** What `get` returns, as a function of the map before the call. */
  function Lookup(entries: map<string, CacheEntry>, ttlMs: int, city: string, now: int): Option<CityRanking>
  {
    var key := CacheKey(city);
    if key !in entries || IsExpired(entries[key], ttlMs, now) then
      None
    else
      var entry := entries[key];
      Some(entry.data.(cache := CacheMeta(true, SecondsLeft(ttlMs, now - entry.timestamp))))
  }

  /** The map after `get`: the stale entry it found, if any, is gone. */
  function AfterLookup(entries: map<string, CacheEntry>, ttlMs: int, city: string, now: int): map<string, CacheEntry>
  {
    var key := CacheKey(city);
    if key in entries && IsExpired(entries[key], ttlMs, now) then entries - {key} else entries
  }

  /** The map after `set`. */
  function Stored(entries: map<string, CacheEntry>, ttlMs: int, city: string, data: CityRanking, now: int): map<string, CacheEntry>
  {
    entries[CacheKey(city) := CacheEntry(data.(cache := CacheMeta(false, ttlMs / 1000)), now)]
  }

  class CacheManager {
    var entries: map<string, CacheEntry>
    const ttlMs: int

    constructor (ttlMs: int)
      ensures this.ttlMs == ttlMs && entries == map[]
    {
      this.ttlMs := ttlMs;
      entries := map[];
    }

    /** `get`: a copy of the fresh entry with hit metadata, or `None`;
        a stale entry is deleted. */
    method Get(city: string, now: int) returns (r: Option<CityRanking>)
      modifies this
      ensures r == Lookup(old(entries), ttlMs, city, now)
      ensures entries == AfterLookup(old(entries), ttlMs, city, now)
    {
      var key := CacheKey(city);
      if key !in entries {
        return None;
      }
      var entry := entries[key];
      var isExpired := now - entry.timestamp > ttlMs;
      if isExpired {
        entries := entries - {key};
        return None;
      }
      r := Some(entry.data.(cache := CacheMeta(true, (ttlMs - (now - entry.timestamp)) / 1000)));
    }

    /** `set`: stores `data` with miss metadata and the full lifetime,
        replacing any entry under the same key. */
    method Set(city: string, data: CityRanking, now: int)
      modifies this
      ensures entries == Stored(old(entries), ttlMs, city, data, now)
    {
      var key := CacheKey(city);
      entries := entries[key := CacheEntry(data.(cache := CacheMeta(false, ttlMs / 1000)), now)];
    }

    method Clear()
      modifies this
      ensures entries == map[]
    {
      entries := map[];
    }

    method Size() returns (n: nat)
      ensures n == |entries|
    {
      n := |entries|;
    }
  }

  /** Normalizing a key that is already normalized changes nothing. */
  lemma CacheKeyIdempotent(city: string)
    ensures CacheKey(CacheKey(city)) == CacheKey(city)
  {
  }

  /** White space around a name does not change its key. */
  lemma KeyIgnoresPadding(pre: string, name: string, post: string)
    requires forall i :: 0 <= i < |pre| ==> IsSpace(pre[i])
    requires forall i :: 0 <= i < |post| ==> IsSpace(post[i])
    requires name == [] || (!IsSpace(name[0]) && !IsSpace(name[|name| - 1]))
    ensures CacheKey(pre + name + post) == Lower(name)
  {
    LowerConcat(pre + name, post);
    LowerConcat(pre, name);
    TrimPadded(Lower(pre), Lower(name), Lower(post));
  }

  lemma LowerLondon()
    ensures Lower("LONDON") == "london" && Lower("London") == "london"
  {
  }

  /** Case and surrounding white space do not change the key. */
  lemma LondonKeys()
    ensures CacheKey("  LONDON  ") == CacheKey("London") == "london"
  {
    LowerLondon();
    assert "  " + "LONDON" + "  " == "  LONDON  ";
    assert [] + "London" + [] == "London";
    KeyIgnoresPadding("  ", "LONDON", "  ");
    KeyIgnoresPadding([], "London", []);
  }

  /** A key with no entry: `get` misses and changes nothing. */
  lemma LookupMissing(entries: map<string, CacheEntry>, ttlMs: int, city: string, now: int)
    requires CacheKey(city) !in entries
    ensures Lookup(entries, ttlMs, city, now) == None
    ensures AfterLookup(entries, ttlMs, city, now) == entries
  {
  }

  /** A stale entry: `get` misses, removes exactly that key, and the size
      drops by one. An age equal to the lifetime is not stale. */
  lemma LookupExpired(entries: map<string, CacheEntry>, ttlMs: int, city: string, now: int)
    requires CacheKey(city) in entries
    requires now - entries[CacheKey(city)].timestamp > ttlMs
    ensures Lookup(entries, ttlMs, city, now) == None
    ensures AfterLookup(entries, ttlMs, city, now).Keys == entries.Keys - {CacheKey(city)}
    ensures forall k :: k in AfterLookup(entries, ttlMs, city, now) ==> AfterLookup(entries, ttlMs, city, now)[k] == entries[k]
    ensures |AfterLookup(entries, ttlMs, city, now)| == |entries| - 1
  {
  }

  /** A fresh entry: `get` returns the stored data with hit metadata and
      leaves the stored entry as it was. */
  lemma LookupFresh(entries: map<string, CacheEntry>, ttlMs: int, city: string, now: int)
    requires CacheKey(city) in entries
    requires now - entries[CacheKey(city)].timestamp <= ttlMs
    ensures var e := entries[CacheKey(city)];
      Lookup(entries, ttlMs, city, now) ==
        Some(e.data.(cache := CacheMeta(true, (ttlMs - (now - e.timestamp)) / 1000)))
    ensures AfterLookup(entries, ttlMs, city, now) == entries
  {
  }

  /** Within the lifetime the reported seconds lie in [0, ttlMs / 1000]. */
  lemma SecondsLeftBounds(ttlMs: int, timestamp: int, now: int)
    requires timestamp <= now <= timestamp + ttlMs
    ensures 0 <= SecondsLeft(ttlMs, now - timestamp) <= ttlMs / 1000
  {
  }

  /** `set` overwrites the key's entry with miss metadata and `now`, and
      leaves every other key as it was. */
  lemma StoredEntry(entries: map<string, CacheEntry>, ttlMs: int, city: string, data: CityRanking, now: int)
    ensures var m := Stored(entries, ttlMs, city, data, now);
      && m.Keys == entries.Keys + {CacheKey(city)}
      && m[CacheKey(city)].timestamp == now
      && m[CacheKey(city)].data.cache == CacheMeta(false, ttlMs / 1000)
      && m[CacheKey(city)].data.(cache := data.cache) == data
      && (forall k :: k in entries && k != CacheKey(city) ==> m[k] == entries[k])
  {
  }

  /** Any two names with the same key address the same entry: after `set`,
      a `get` within the lifetime hits and returns the stored data. */
  lemma SetThenGet(entries: map<string, CacheEntry>, ttlMs: int,
                                      setCity: string, getCity: string,
                                      data: CityRanking, setAt: int, now: int)
    requires CacheKey(setCity) == CacheKey(getCity)
    requires setAt <= now <= setAt + ttlMs
    ensures var r := Lookup(Stored(entries, ttlMs, setCity, data, setAt), ttlMs, getCity, now);
      && r.Some?
      && r.value.(cache := data.cache) == data
      && r.value.cache.hit
      && 0 <= r.value.cache.ttlSeconds <= ttlMs / 1000
  {
  }

  /** A `get` at the very time of the `set` reports the full lifetime. */
  lemma ImmediateGetHits(entries: map<string, CacheEntry>, ttlMs: nat,
                         setCity: string, getCity: string, data: CityRanking, now: int)
    requires CacheKey(setCity) == CacheKey(getCity)
    ensures Lookup(Stored(entries, ttlMs, setCity, data, now), ttlMs, getCity, now)
      == Some(data.(cache := CacheMeta(true, ttlMs / 1000)))
  {
  }

  /** The scenario of the design notes, stated on the class:
      `set("London", r)` then `get("  LONDON  ")` hits. */
  method SetLondonGetLondonUpper(ttlMs: nat, data: CityRanking, now: int) returns (r: Option<CityRanking>)
    ensures r == Some(data.(cache := CacheMeta(true, ttlMs / 1000)))
  {
    var cache := new CacheManager(ttlMs);
    cache.Set("London", data, now);
    LondonKeys();
    ImmediateGetHits(map[], ttlMs, "London", "  LONDON  ", data, now);
    r := cache.Get("  LONDON  ", now);
  }
}
