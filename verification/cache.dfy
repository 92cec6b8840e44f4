/** The cache layer (src/cache/interface.py): `MockCache`, an in-memory store
    with a per-key expiry time, and `CacheManager`, which files query results,
    site data, product data and search results under derived keys. The clock
    is the parameter `now` (seconds), the ISO timestamp written into each
    entry is the parameter `timestamp`, and the md5 digest is a function
    `digest` fixed when the manager is made. */
module Cache {
  import opened Common

  // ---------------------------------------------------------------------
  // The store, as a value

  /** The store's two dictionaries and its default lifetime. */
  datatype CacheState<V> = CacheState(cache: map<string, V>, expiry: map<string, real>, ttlDefault: int)

  /** The store's invariant: every value has an expiry time and vice versa. */
  predicate Aligned<V>(st: CacheState<V>) {
    st.cache.Keys == st.expiry.Keys
  }

  /** `ttl or self.ttl_default`: a missing or zero lifetime means the default. */
  function EffectiveTtl(ttl: Option<int>, ttlDefault: int): (t: int)
    ensures ttl.Some? && ttl.value != 0 ==> t == ttl.value
    ensures (ttl.None? || ttl == Some(0)) ==> t == ttlDefault
  {
    match ttl
    case None => ttlDefault
    case Some(t) => if t == 0 then ttlDefault else t
  }

  /** `time.time() > self.expiry_times[key]`. */
  predicate Expired<V>(st: CacheState<V>, key: string, now: real) {
    key in st.expiry && now > st.expiry[key]
  }

  /** Both dictionaries without `key`. */
  function Purge<V>(st: CacheState<V>, key: string): (st': CacheState<V>)
    ensures key !in st'.cache && key !in st'.expiry
  {
    st.(cache := st.cache - {key}, expiry := st.expiry - {key})
  }

  /** `set(key, value, ttl)` at time `now`. */
  function SetSpec<V>(st: CacheState<V>, key: string, value: V, ttl: Option<int>, now: real): CacheState<V> {
    st.(cache := st.cache[key := value], expiry := st.expiry[key := now + EffectiveTtl(ttl, st.ttlDefault) as real])
  }

  /** `get(key)` at time `now`: the answer and the store afterwards, an expired
      key being purged. */
  function GetSpec<V>(st: CacheState<V>, key: string, now: real): (Option<V>, CacheState<V>) {
    if key !in st.cache then (None, st)
    else if Expired(st, key, now) then (None, Purge(st, key))
    else (Some(st.cache[key]), st)
  }

  /** `exists(key)` at time `now`. */
  function ExistsSpec<V>(st: CacheState<V>, key: string, now: real): (bool, CacheState<V>) {
    if key !in st.cache then (false, st)
    else if Expired(st, key, now) then (false, Purge(st, key))
    else (true, st)
  }

  /** `clear()`. */
  function ClearSpec<V>(st: CacheState<V>): (st': CacheState<V>)
    ensures st'.cache == map[] && st'.expiry == map[] && st'.ttlDefault == st.ttlDefault
  {
    st.(cache := map[], expiry := map[])
  }

  // ---------------------------------------------------------------------
  // Properties of the store

  /** Every operation keeps the two dictionaries on the same keys. */
  lemma OperationsKeepAligned<V>(st: CacheState<V>, key: string, value: V, ttl: Option<int>, now: real)
    requires Aligned(st)
    ensures Aligned(SetSpec(st, key, value, ttl, now))
    ensures Aligned(GetSpec(st, key, now).1)
    ensures Aligned(ExistsSpec(st, key, now).1)
    ensures Aligned(Purge(st, key))
    ensures Aligned(ClearSpec(st))
  {
  }

  /** A stored value is returned until its lifetime has passed, and never after. */
  lemma SetThenGet<V>(st: CacheState<V>, key: string, value: V, ttl: Option<int>, now: real, later: real)
    ensures GetSpec(SetSpec(st, key, value, ttl, now), key, later).0
         == if later <= now + EffectiveTtl(ttl, st.ttlDefault) as real then Some(value) else None
  {
  }

  /** Reading an expired key answers `None` and removes the key from both
      dictionaries, leaving every other key as it was. */
  lemma GetPurgesExpired<V>(st: CacheState<V>, key: string, now: real)
    requires key in st.cache && Expired(st, key, now)
    ensures GetSpec(st, key, now).0 == None
    ensures var st' := GetSpec(st, key, now).1;
      key !in st'.cache && key !in st'.expiry
      && (forall k :: k != key && k in st.cache ==> k in st'.cache && st'.cache[k] == st.cache[k])
  {
  }

  /** `exists` and `get` agree on the answer and on the store they leave. */
  lemma ExistsAgreesWithGet<V>(st: CacheState<V>, key: string, now: real)
    ensures ExistsSpec(st, key, now).0 <==> GetSpec(st, key, now).0.Some?
    ensures ExistsSpec(st, key, now).1 == GetSpec(st, key, now).1
  {
  }

  /** After `delete(key)` the key reads as absent; other keys read as before. */
  lemma DeleteThenGet<V>(st: CacheState<V>, key: string, other: string, now: real)
    requires other != key
    ensures GetSpec(Purge(st, key), key, now).0 == None
    ensures GetSpec(Purge(st, key), other, now).0 == GetSpec(st, other, now).0
  {
  }

  /** Storing under one key does not change what another key reads. */
  lemma SetLeavesOthers<V>(st: CacheState<V>, key: string, value: V, ttl: Option<int>, now: real, other: string, later: real)
    requires other != key
    ensures GetSpec(SetSpec(st, key, value, ttl, now), other, later).0 == GetSpec(st, other, later).0
  {
  }

  // ---------------------------------------------------------------------
  // `MockCache`

  class MockCache<V> {
    var cache: map<string, V>
    var expiryTimes: map<string, real>
    const ttlDefault: int

    ghost predicate Valid()
      reads this
    {
      cache.Keys == expiryTimes.Keys
    }

    function State(): CacheState<V>
      reads this
    {
      CacheState(cache, expiryTimes, ttlDefault)
    }

    /** `MockCache(ttl_default)`: empty. */
    constructor(ttlDefault: int)
      ensures Valid()
      ensures cache == map[] && expiryTimes == map[] && this.ttlDefault == ttlDefault
    {
      cache := map[];
      expiryTimes := map[];
      this.ttlDefault := ttlDefault;
    }

    method Get(key: string, now: real) returns (r: Option<V>)
      requires Valid()
      modifies this
      ensures Valid()
      ensures (r, State()) == GetSpec(old(State()), key, now)
    {
      if key !in cache {
        return None;
      }
      if key in expiryTimes && now > expiryTimes[key] {
        cache := cache - {key};
        expiryTimes := expiryTimes - {key};
        return None;
      }
      return Some(cache[key]);
    }

    method Set(key: string, value: V, ttl: Option<int>, now: real) returns (ok: bool)
      requires Valid()
      modifies this
      ensures Valid()
      ensures ok
      ensures State() == SetSpec(old(State()), key, value, ttl, now)
    {
      cache := cache[key := value];
      var t := if ttl.None? || ttl.value == 0 then ttlDefault else ttl.value;
      expiryTimes := expiryTimes[key := now + t as real];
      return true;
    }

    method Delete(key: string) returns (ok: bool)
      requires Valid()
      modifies this
      ensures Valid()
      ensures ok
      ensures State() == Purge(old(State()), key)
    {
      if key in cache {
        cache := cache - {key};
      }
      if key in expiryTimes {
        expiryTimes := expiryTimes - {key};
      }
      return true;
    }

    method Exists(key: string, now: real) returns (r: bool)
      requires Valid()
      modifies this
      ensures Valid()
      ensures (r, State()) == ExistsSpec(old(State()), key, now)
    {
      if key !in cache {
        return false;
      }
      if key in expiryTimes && now > expiryTimes[key] {
        cache := cache - {key};
        expiryTimes := expiryTimes - {key};
        return false;
      }
      return true;
    }

    method Clear() returns (ok: bool)
      requires Valid()
      modifies this
      ensures Valid()
      ensures ok
      ensures State() == ClearSpec(old(State()))
    {
      cache := map[];
      expiryTimes := map[];
      return true;
    }
  }

  // ---------------------------------------------------------------------
  // `CacheManager`

  /** A value filed in an entry: product records, one record, a list of URLs,
      or text. */
  datatype Payload = Records(records: seq<Record>) | Dict(dict: Record) | Urls(urls: seq<string>) | Text(text: string)

  /** What the manager stores under a key: a dictionary of payloads. */
  type Entry = map<string, Payload>

  /** `_generate_key(*args)`: "priceiq:" and the digest of the arguments joined
      with ':'. */
  function GenerateKey(digest: string -> string, args: seq<string>): (key: string)
    ensures StartsWith(key, "priceiq:")
  {
    "priceiq" + ":" + digest(Join(":", args))
  }

  function QueryKey(digest: string -> string, query: string, country: string): string {
    GenerateKey(digest, ["query_results", query, country])
  }

  function SiteKey(digest: string -> string, site: string, category: string, country: string): string {
    GenerateKey(digest, ["site_data", site, category, country])
  }

  function ProductKey(digest: string -> string, url: string): string {
    GenerateKey(digest, ["product_data", url])
  }

  function SearchKey(digest: string -> string, query: string, site: string): string {
    GenerateKey(digest, ["search_results", query, site])
  }

  /** `cached_data = get(key); if cached_data: return cached_data.get(field)`:
      an empty entry is falsy and answers `None`, like a missing one. */
  function Fetch(st: CacheState<Entry>, key: string, field: string, now: real): (Option<Payload>, CacheState<Entry>) {
    var (cached, st') := GetSpec(st, key, now);
    if cached.Some? && cached.value != map[] && field in cached.value then (Some(cached.value[field]), st')
    else (None, st')
  }

  /** The manager's default lifetimes, in seconds. */
  const QueryTtl := 1800
  const SiteTtl := 3600
  const ProductTtl := 7200
  const SearchTtl := 1800

  class CacheManager {
    const store: MockCache<Entry>
    const digest: string -> string

    ghost predicate Valid()
      reads this, store
    {
      store.Valid()
    }

    /** `CacheManager(cache_impl)`. */
    constructor(store: MockCache<Entry>, digest: string -> string)
      ensures this.store == store && this.digest == digest
    {
      this.store := store;
      this.digest := digest;
    }

    method CacheQueryResults(query: string, country: string, results: seq<Record>, ttl: int, now: real, timestamp: string)
      returns (ok: bool)
      requires Valid()
      modifies store
      ensures Valid() && ok
      ensures store.State() == SetSpec(old(store.State()), QueryKey(digest, query, country),
        map["results" := Records(results), "timestamp" := Text(timestamp), "query" := Text(query), "country" := Text(country)],
        Some(ttl), now)
    {
      var key := GenerateKey(digest, ["query_results", query, country]);
      ok := store.Set(key, map["results" := Records(results), "timestamp" := Text(timestamp),
                               "query" := Text(query), "country" := Text(country)], Some(ttl), now);
    }

    method GetCachedQueryResults(query: string, country: string, now: real) returns (r: Option<Payload>)
      requires Valid()
      modifies store
      ensures Valid()
      ensures (r, store.State()) == Fetch(old(store.State()), QueryKey(digest, query, country), "results", now)
    {
      var key := GenerateKey(digest, ["query_results", query, country]);
      r := FetchField(key, "results", now);
    }

    method CacheSiteData(site: string, category: string, country: string, data: Record, ttl: int, now: real, timestamp: string)
      returns (ok: bool)
      requires Valid()
      modifies store
      ensures Valid() && ok
      ensures store.State() == SetSpec(old(store.State()), SiteKey(digest, site, category, country),
        map["data" := Dict(data), "timestamp" := Text(timestamp), "site" := Text(site),
            "category" := Text(category), "country" := Text(country)],
        Some(ttl), now)
    {
      var key := GenerateKey(digest, ["site_data", site, category, country]);
      ok := store.Set(key, map["data" := Dict(data), "timestamp" := Text(timestamp), "site" := Text(site),
                               "category" := Text(category), "country" := Text(country)], Some(ttl), now);
    }

    method GetCachedSiteData(site: string, category: string, country: string, now: real) returns (r: Option<Payload>)
      requires Valid()
      modifies store
      ensures Valid()
      ensures (r, store.State()) == Fetch(old(store.State()), SiteKey(digest, site, category, country), "data", now)
    {
      var key := GenerateKey(digest, ["site_data", site, category, country]);
      r := FetchField(key, "data", now);
    }

    method CacheProductData(url: string, productData: Record, ttl: int, now: real, timestamp: string)
      returns (ok: bool)
      requires Valid()
      modifies store
      ensures Valid() && ok
      ensures store.State() == SetSpec(old(store.State()), ProductKey(digest, url),
        map["product_data" := Dict(productData), "timestamp" := Text(timestamp), "url" := Text(url)],
        Some(ttl), now)
    {
      var key := GenerateKey(digest, ["product_data", url]);
      ok := store.Set(key, map["product_data" := Dict(productData), "timestamp" := Text(timestamp),
                               "url" := Text(url)], Some(ttl), now);
    }

    method GetCachedProductData(url: string, now: real) returns (r: Option<Payload>)
      requires Valid()
      modifies store
      ensures Valid()
      ensures (r, store.State()) == Fetch(old(store.State()), ProductKey(digest, url), "product_data", now)
    {
      var key := GenerateKey(digest, ["product_data", url]);
      r := FetchField(key, "product_data", now);
    }

    method CacheSearchResults(query: string, site: string, results: seq<string>, ttl: int, now: real, timestamp: string)
      returns (ok: bool)
      requires Valid()
      modifies store
      ensures Valid() && ok
      ensures store.State() == SetSpec(old(store.State()), SearchKey(digest, query, site),
        map["results" := Urls(results), "timestamp" := Text(timestamp), "query" := Text(query), "site" := Text(site)],
        Some(ttl), now)
    {
      var key := GenerateKey(digest, ["search_results", query, site]);
      ok := store.Set(key, map["results" := Urls(results), "timestamp" := Text(timestamp),
                               "query" := Text(query), "site" := Text(site)], Some(ttl), now);
    }

    method GetCachedSearchResults(query: string, site: string, now: real) returns (r: Option<Payload>)
      requires Valid()
      modifies store
      ensures Valid()
      ensures (r, store.State()) == Fetch(old(store.State()), SearchKey(digest, query, site), "results", now)
    {
      var key := GenerateKey(digest, ["search_results", query, site]);
      r := FetchField(key, "results", now);
    }

    method InvalidateQueryCache(query: string, country: string) returns (ok: bool)
      requires Valid()
      modifies store
      ensures Valid() && ok
      ensures store.State() == Purge(old(store.State()), QueryKey(digest, query, country))
    {
      var key := GenerateKey(digest, ["query_results", query, country]);
      ok := store.Delete(key);
    }

    method InvalidateSiteCache(site: string, category: string, country: string) returns (ok: bool)
      requires Valid()
      modifies store
      ensures Valid() && ok
      ensures store.State() == Purge(old(store.State()), SiteKey(digest, site, category, country))
    {
      var key := GenerateKey(digest, ["site_data", site, category, country]);
      ok := store.Delete(key);
    }

    /** The mock branch of `get_cache_stats`. */
    function CacheStats(): (stats: CacheStatsValue)
      reads this, store
      ensures stats.entries == |store.cache|
    {
      CacheStatsValue("mock", |store.cache|, true)
    }

    /** The read shared by the four `get_cached_*` methods. */
    method FetchField(key: string, field: string, now: real) returns (r: Option<Payload>)
      requires Valid()
      modifies store
      ensures Valid()
      ensures (r, store.State()) == Fetch(old(store.State()), key, field, now)
    {
      var cached := store.Get(key, now);
      if cached.Some? && cached.value != map[] && field in cached.value {
        r := Some(cached.value[field]);
      } else {
        r := None;
      }
    }
  }

  /** `{'type': ..., 'entries': ..., 'connected': ...}`. */
  datatype CacheStatsValue = CacheStatsValue(kind: string, entries: nat, connected: bool)

  /** `modules.cache`: the `use_mock` flag and `ttl_default`. */
  datatype CacheConfig = CacheConfig(useMock: Option<bool>, ttlDefault: Option<int>)

  /** `create_cache_manager`, mock branch: a manager over an empty `MockCache`
      whose default lifetime is `ttl_default`, 3600 when absent. */
  method CreateCacheManager(config: CacheConfig, digest: string -> string) returns (m: CacheManager)
    requires UseMock(config.useMock)
    ensures fresh(m) && fresh(m.store) && m.Valid()
    ensures m.store.State() == CacheState(map[], map[], config.ttlDefault.GetOr(3600))
    ensures m.digest == digest
  {
    var store := new MockCache<Entry>(config.ttlDefault.GetOr(3600));
    m := new CacheManager(store, digest);
  }

  // ---------------------------------------------------------------------
  // Properties of the manager

  /** Query results stored at `now` are fetched back unchanged until their
      lifetime has passed. */
  lemma QueryRoundTrip(st: CacheState<Entry>, digest: string -> string, query: string, country: string,
                       results: seq<Record>, ttl: int, now: real, timestamp: string, later: real)
    requires later <= now + EffectiveTtl(Some(ttl), st.ttlDefault) as real
    ensures var key := QueryKey(digest, query, country);
      var entry := map["results" := Records(results), "timestamp" := Text(timestamp),
                       "query" := Text(query), "country" := Text(country)];
      Fetch(SetSpec(st, key, entry, Some(ttl), now), key, "results", later).0 == Some(Records(results))
  {
    var key := QueryKey(digest, query, country);
    var entry := map["results" := Records(results), "timestamp" := Text(timestamp),
                     "query" := Text(query), "country" := Text(country)];
    assert "results" in entry;
    SetThenGet(st, key, entry, Some(ttl), now, later);
  }

  /** With the default query lifetime of 1800 seconds, cached query results
      read back for exactly that long and as `None` afterwards. */
  lemma QueryDefaultLifetime(st: CacheState<Entry>, digest: string -> string, query: string, country: string,
                             results: seq<Record>, now: real, timestamp: string, later: real)
    ensures var key := QueryKey(digest, query, country);
      var entry := map["results" := Records(results), "timestamp" := Text(timestamp),
                       "query" := Text(query), "country" := Text(country)];
      Fetch(SetSpec(st, key, entry, Some(QueryTtl), now), key, "results", later).0
        == if later <= now + 1800.0 then Some(Records(results)) else None
  {
    var key := QueryKey(digest, query, country);
    var entry := map["results" := Records(results), "timestamp" := Text(timestamp),
                     "query" := Text(query), "country" := Text(country)];
    assert "results" in entry;
    SetThenGet(st, key, entry, Some(QueryTtl), now, later);
  }

  /** After `invalidate_query_cache` the query's results read as `None`. */
  lemma InvalidatedQueryIsGone(st: CacheState<Entry>, digest: string -> string, query: string, country: string, now: real)
    ensures Fetch(Purge(st, QueryKey(digest, query, country)), QueryKey(digest, query, country), "results", now).0 == None
  {
  }

  /** Keys join their parts with ':', so parts that contain ':' can collide:
      results filed for query "a:b" in country "c" are found under query "a"
      in country "b:c". */
  lemma QueryKeyCollision(digest: string -> string)
    ensures QueryKey(digest, "a:b", "c") == QueryKey(digest, "a", "b:c")
  {
    assert Join(":", ["query_results", "a:b", "c"]) == "query_results:a:b:c";
    assert Join(":", ["query_results", "a", "b:c"]) == "query_results:a:b:c";
  }
}
