/** The generic tier cascade of pkg/routes/routes.go: a lookup that probes
    the in-process map, the shared tier and blob storage in that order,
    skipping absent tiers, and a write that stores an upstream answer in
    every present tier. GetXNoVersion and GetX put the two around a call to
    an upstream handler; GetX also records the module's version.

    The key function (`hash.GetListPath`), the shared tier's `Get`/`Set` and
    blob storage's `Get`/`Put` are not part of the repository as shown: the
    key function is a parameter and the two tiers are key-value classes
    below. An absent tier is `null`. */
module Routes {
  import opened Base
  import opened Tiers
  import opened Database

  /** Durations in seconds. */
  const OneMinute := 60
  const ThirtySeconds := 30

  /** The shared tier as routes.go uses it: a key-value store with a TTL per
      key (expiry itself is not modelled) that may be unreachable. */
  class SharedKv {
    var entries: map<string, Bytes>
    var ttls: map<string, int>
    const reachable: bool

    constructor (entries: map<string, Bytes>, ttls: map<string, int>, reachable: bool)
      ensures this.entries == entries && this.ttls == ttls && this.reachable == reachable
    {
      this.entries := entries;
      this.ttls := ttls;
      this.reachable := reachable;
    }

    /** `Get(key)` reports found. */
    predicate Holds(key: string)
      reads this
    {
      reachable && key in entries
    }

    method Set(key: string, value: Bytes, ttl: int) returns (err: bool)
      modifies this
      ensures err <==> !reachable
      ensures entries == if reachable then old(entries)[key := value] else old(entries)
      ensures ttls == if reachable then old(ttls)[key := ttl] else old(ttls)
    {
      if !reachable {
        return true;
      }
      entries := entries[key := value];
      ttls := ttls[key := ttl];
      err := false;
    }
  }

  /** Blob storage as routes.go uses it: a key-value store that may be
      unreachable. */
  class BlobKv {
    var entries: map<string, Bytes>
    const reachable: bool

    constructor (entries: map<string, Bytes>, reachable: bool)
      ensures this.entries == entries && this.reachable == reachable
    {
      this.entries := entries;
      this.reachable := reachable;
    }

    predicate Holds(key: string)
      reads this
    {
      reachable && key in entries
    }

    method Put(key: string, value: Bytes) returns (err: bool)
      modifies this
      ensures err <==> !reachable
      ensures entries == if reachable then old(entries)[key := value] else old(entries)
    {
      if !reachable {
        return true;
      }
      entries := entries[key := value];
      err := false;
    }
  }

  /** `hash.GetListPath`. */
  type KeyOf = string -> string

  /** What an upstream handler returns: body, whether it failed, status. */
  datatype HandlerReply = HandlerReply(body: Bytes, failed: bool, status: int)

  /** The error GetX and GetXNoVersion return with a nil body. */
  datatype RouteError = UpstreamFailed | UpstreamStatus(status: int, body: Bytes)

  datatype Answer = Answer(body: Option<Bytes>, err: Option<RouteError>, status: int)

  // ---------------------------------------------------------------------
  // CachedLookup

  /** Whether a present tier holds the key, tier by tier. */
  predicate InMemory(key: string, memcache: MemoryTier?)
    reads memcache
  {
    memcache != null && key in memcache.entries
  }

  predicate InShared(key: string, cacheX: SharedKv?)
    reads cacheX
  {
    cacheX != null && cacheX.Holds(key)
  }

  predicate InBlob(key: string, blob: BlobKv?)
    reads blob
  {
    blob != null && blob.Holds(key)
  }

  /** CachedLookup as intended: the first present tier that holds the key,
      probing memory, then the shared tier, then blob storage. */
  function CachedLookup(key: string, memcache: MemoryTier?, cacheX: SharedKv?, blob: BlobKv?): (r: Option<Bytes>)
    reads memcache, cacheX, blob
    ensures r.Some? <==> InMemory(key, memcache) || InShared(key, cacheX) || InBlob(key, blob)
    ensures InMemory(key, memcache) ==> r == Some(memcache.entries[key])
    ensures !InMemory(key, memcache) && InShared(key, cacheX) ==> r == Some(cacheX.entries[key])
    ensures !InMemory(key, memcache) && !InShared(key, cacheX) && InBlob(key, blob) ==> r == Some(blob.entries[key])
  {
    if memcache != null && key in memcache.entries then Some(memcache.entries[key])
    else if cacheX != null && cacheX.Holds(key) then Some(cacheX.entries[key])
    else if blob != null && blob.Holds(key) then Some(blob.entries[key])
    else None
  }

  /** CachedLookup as written: when memcache is present it reads the global
      ListExpireMap instead of memcache. */
  function CachedLookupAsWritten(key: string, memcache: MemoryTier?, listExpireMap: MemoryTier,
                                 cacheX: SharedKv?, blob: BlobKv?): (r: Option<Bytes>)
    reads memcache, listExpireMap, cacheX, blob
    ensures memcache == listExpireMap || memcache == null ==> r == CachedLookup(key, memcache, cacheX, blob)
  {
    if memcache != null && key in listExpireMap.entries then Some(listExpireMap.entries[key])
    else if cacheX != null && cacheX.Holds(key) then Some(cacheX.entries[key])
    else if blob != null && blob.Holds(key) then Some(blob.entries[key])
    else None
  }

  /** A memcache other than ListExpireMap (GetLatest is handed one) holding
      the key is never read: as written the lookup misses, as intended it
      hits. */
  method WrongMapCounterexample() returns (asWritten: Option<Bytes>, intended: Option<Bytes>)
    ensures asWritten == None
    ensures intended == Some([1])
  {
    var latestExpireMap := new MemoryTier(map["k" := [1]]);
    var listExpireMap := new MemoryTier(map[]);
    asWritten := CachedLookupAsWritten("k", latestExpireMap, listExpireMap, null, null);
    intended := CachedLookup("k", latestExpireMap, null, null);
  }

  // ---------------------------------------------------------------------
  // SetCache

  /** The TTL SetCache means to use: the one given, or one minute. */
  function EffectiveTtl(ttl: Option<int>): (t: int)
    ensures ttl.Some? ==> t == ttl.value
    ensures ttl.None? ==> t == OneMinute
  {
    if ttl.Some? then ttl.value else OneMinute
  }

  /** SetCache as intended: every present tier stores the value under the
      key; the shared tier with the TTL given, or one minute when none is.
      Write failures are only logged. */
  method SetCache(key: string, value: Bytes, memcache: MemoryTier?, cacheX: SharedKv?, blob: BlobKv?, ttl: Option<int>)
    modifies memcache, cacheX, blob
    ensures memcache != null ==> memcache.entries == old(memcache.entries)[key := value]
    ensures cacheX != null ==>
              && cacheX.entries == (if cacheX.reachable then old(cacheX.entries)[key := value] else old(cacheX.entries))
              && cacheX.ttls == (if cacheX.reachable then old(cacheX.ttls)[key := EffectiveTtl(ttl)] else old(cacheX.ttls))
    ensures blob != null ==> blob.entries == if blob.reachable then old(blob.entries)[key := value] else old(blob.entries)
  {
    if memcache != null {
      memcache.Set(key, value);
    }
    if cacheX != null {
      var _ := cacheX.Set(key, value, EffectiveTtl(ttl));
    }
    if blob != null {
      var _ := blob.Put(key, value);
    }
  }

  /** After SetCache, the lookup finds the value whenever memory is present,
      or the shared tier is present and reachable, or blob storage is
      present and reachable: an earlier tier that missed before the write
      still misses or now holds the value. */
  method SetThenLookup(key: string, value: Bytes, memcache: MemoryTier?, cacheX: SharedKv?, blob: BlobKv?, ttl: Option<int>)
    returns (r: Option<Bytes>)
    requires memcache != null || (cacheX != null && cacheX.reachable) || (blob != null && blob.reachable)
    modifies memcache, cacheX, blob
    ensures r == Some(value)
  {
    SetCache(key, value, memcache, cacheX, blob, ttl);
    r := CachedLookup(key, memcache, cacheX, blob);
  }

  /** SetCache as written: a non-nil TTL is replaced by one minute, and a nil
      TTL is dereferenced when the shared tier is present, after memcache has
      already been written; `panicked` reports that. */
  method SetCacheAsWritten(key: string, value: Bytes, memcache: MemoryTier?, cacheX: SharedKv?, blob: BlobKv?, ttl: Option<int>)
    returns (panicked: bool)
    modifies memcache, cacheX, blob
    ensures panicked <==> cacheX != null && ttl.None?
    ensures memcache != null ==> memcache.entries == old(memcache.entries)[key := value]
    ensures cacheX != null && !panicked ==>
              && cacheX.entries == (if cacheX.reachable then old(cacheX.entries)[key := value] else old(cacheX.entries))
              && cacheX.ttls == (if cacheX.reachable then old(cacheX.ttls)[key := OneMinute] else old(cacheX.ttls))
    ensures cacheX != null && panicked ==> cacheX.entries == old(cacheX.entries) && cacheX.ttls == old(cacheX.ttls)
    ensures blob != null ==>
              blob.entries == if !panicked && blob.reachable then old(blob.entries)[key := value] else old(blob.entries)
  {
    if memcache != null {
      memcache.Set(key, value);
    }
    if cacheX != null {
      var cacheTtl := ttl;
      if cacheTtl.Some? {
        cacheTtl := Some(OneMinute);
      }
      if cacheTtl.None? {
        return true;
      }
      var _ := cacheX.Set(key, value, cacheTtl.value);
    }
    if blob != null {
      var _ := blob.Put(key, value);
    }
    panicked := false;
  }

  /** GetLatest's thirty seconds become one minute as written, and a nil TTL
      with a shared tier panics; as intended the thirty seconds are kept and
      nil means one minute. */
  method TtlCounterexample() returns (asWritten: int, intended: int, nilPanics: bool, nilIntended: int)
    ensures asWritten == OneMinute && intended == ThirtySeconds
    ensures nilPanics && nilIntended == OneMinute
  {
    var c1 := new SharedKv(map[], map[], true);
    var p := SetCacheAsWritten("k", [], null, c1, null, Some(ThirtySeconds));
    asWritten := c1.ttls["k"];
    var c2 := new SharedKv(map[], map[], true);
    SetCache("k", [], null, c2, null, Some(ThirtySeconds));
    intended := c2.ttls["k"];
    var c3 := new SharedKv(map[], map[], true);
    nilPanics := SetCacheAsWritten("k", [], null, c3, null, None);
    var c4 := new SharedKv(map[], map[], true);
    SetCache("k", [], null, c4, null, None);
    nilIntended := c4.ttls["k"];
  }

  // ---------------------------------------------------------------------
  // GetXNoVersion and GetX

  /** The intended cascade: CachedLookup over the tiers it is handed, then
      the handler, then SetCache. GetXNoVersionAsWritten below is the code
      as written. */
  method GetXNoVersion(uri: string, handler: string -> HandlerReply, listPath: KeyOf,
                       memcache: MemoryTier?, cacheX: SharedKv?, blob: BlobKv?, ttl: Option<int>)
    returns (a: Answer)
    modifies memcache, cacheX, blob
    // A hit is returned as a 200 without asking the upstream handler.
    ensures old(CachedLookup(listPath(uri), memcache, cacheX, blob)).Some? ==>
              && a == Answer(old(CachedLookup(listPath(uri), memcache, cacheX, blob)), None, 200)
              && (memcache != null ==> memcache.entries == old(memcache.entries))
              && (cacheX != null ==> cacheX.entries == old(cacheX.entries) && cacheX.ttls == old(cacheX.ttls))
              && (blob != null ==> blob.entries == old(blob.entries))
    ensures old(CachedLookup(listPath(uri), memcache, cacheX, blob)).None? ==>
              var h := handler(uri);
              // an upstream failure or a non-200 returns no body and writes no tier
              && (h.failed ==> a == Answer(None, Some(UpstreamFailed), h.status))
              && (!h.failed && h.status != 200 ==> a == Answer(None, Some(UpstreamStatus(h.status, h.body)), h.status))
              && (h.failed || h.status != 200 ==>
                    && (memcache != null ==> memcache.entries == old(memcache.entries))
                    && (cacheX != null ==> cacheX.entries == old(cacheX.entries) && cacheX.ttls == old(cacheX.ttls))
                    && (blob != null ==> blob.entries == old(blob.entries)))
              // a 200 is stored in every present tier and returned
              && (!h.failed && h.status == 200 ==>
                    && a == Answer(Some(h.body), None, 200)
                    && (memcache != null ==> memcache.entries == old(memcache.entries)[listPath(uri) := h.body])
                    && (cacheX != null ==>
                          && cacheX.entries == (if cacheX.reachable then old(cacheX.entries)[listPath(uri) := h.body] else old(cacheX.entries))
                          && cacheX.ttls == (if cacheX.reachable then old(cacheX.ttls)[listPath(uri) := EffectiveTtl(ttl)] else old(cacheX.ttls)))
                    && (blob != null ==> blob.entries == if blob.reachable then old(blob.entries)[listPath(uri) := h.body] else old(blob.entries)))
  {
    var cacheKey := listPath(uri);
    var list := CachedLookup(cacheKey, memcache, cacheX, blob);
    if list.Some? {
      return Answer(list, None, 200);
    }
    var h := handler(uri);
    if h.failed {
      return Answer(None, Some(UpstreamFailed), h.status);
    }
    if h.status != 200 {
      return Answer(None, Some(UpstreamStatus(h.status, h.body)), h.status);
    }
    SetCache(cacheKey, h.body, memcache, cacheX, blob, ttl);
    a := Answer(Some(h.body), None, h.status);
  }

  /** The intended GetX: the cascade of GetXNoVersion, then the upsert of
      (uri, version). GetXAsWritten below is the code as written. */
  method GetX(uri: string, version: string, handler: (string, string) -> HandlerReply, listPath: KeyOf,
              memcache: MemoryTier?, cacheX: SharedKv?, blob: BlobKv?, ttl: Option<int>, db: ModuleDb?)
    returns (a: Answer)
    modifies memcache, cacheX, blob, db
    ensures old(CachedLookup(listPath(uri), memcache, cacheX, blob)).Some? ==>
              && a == Answer(old(CachedLookup(listPath(uri), memcache, cacheX, blob)), None, 200)
              && (memcache != null ==> memcache.entries == old(memcache.entries))
              && (cacheX != null ==> cacheX.entries == old(cacheX.entries) && cacheX.ttls == old(cacheX.ttls))
              && (blob != null ==> blob.entries == old(blob.entries))
              && (db != null ==> db.records == old(db.records))
    ensures old(CachedLookup(listPath(uri), memcache, cacheX, blob)).None? ==>
              var h := handler(uri, version);
              && (h.failed ==> a == Answer(None, Some(UpstreamFailed), h.status))
              && (!h.failed && h.status != 200 ==> a == Answer(None, Some(UpstreamStatus(h.status, h.body)), h.status))
              && (h.failed || h.status != 200 ==>
                    && (memcache != null ==> memcache.entries == old(memcache.entries))
                    && (cacheX != null ==> cacheX.entries == old(cacheX.entries) && cacheX.ttls == old(cacheX.ttls))
                    && (blob != null ==> blob.entries == old(blob.entries))
                    && (db != null ==> db.records == old(db.records)))
              && (!h.failed && h.status == 200 ==>
                    // the upsert's failure does not change the answer
                    && a == Answer(Some(h.body), None, 200)
                    && (memcache != null ==> memcache.entries == old(memcache.entries)[listPath(uri) := h.body])
                    && (cacheX != null ==>
                          && cacheX.entries == (if cacheX.reachable then old(cacheX.entries)[listPath(uri) := h.body] else old(cacheX.entries))
                          && cacheX.ttls == (if cacheX.reachable then old(cacheX.ttls)[listPath(uri) := EffectiveTtl(ttl)] else old(cacheX.ttls)))
                    && (blob != null ==> blob.entries == if blob.reachable then old(blob.entries)[listPath(uri) := h.body] else old(blob.entries))
                    && (db != null ==> db.records == if uri in db.writeFails then old(db.records) else old(db.records)[uri := version]))
  {
    var cacheKey := listPath(uri);
    var list := CachedLookup(cacheKey, memcache, cacheX, blob);
    if list.Some? {
      return Answer(list, None, 200);
    }
    var h := handler(uri, version);
    if h.failed {
      return Answer(None, Some(UpstreamFailed), h.status);
    }
    if h.status != 200 {
      return Answer(None, Some(UpstreamStatus(h.status, h.body)), h.status);
    }
    SetCache(cacheKey, h.body, memcache, cacheX, blob, ttl);
    if db != null {
      var _ := db.UpsertGoModule(GoModule(uri, version));
    }
    a := Answer(Some(h.body), None, h.status);
  }

  /** GetXNoVersion as written: the lookup is CachedLookupAsWritten (the
      memory probe reads `listExpireMap`) and the write is SetCacheAsWritten
      (a given TTL becomes one minute; a nil TTL with a shared tier panics
      after memcache has been written). */
  method GetXNoVersionAsWritten(uri: string, handler: string -> HandlerReply, listPath: KeyOf,
                                memcache: MemoryTier?, listExpireMap: MemoryTier, cacheX: SharedKv?, blob: BlobKv?,
                                ttl: Option<int>)
    returns (a: Answer, panicked: bool)
    modifies memcache, cacheX, blob
    ensures old(CachedLookupAsWritten(listPath(uri), memcache, listExpireMap, cacheX, blob)).Some? ==>
              && !panicked
              && a == Answer(old(CachedLookupAsWritten(listPath(uri), memcache, listExpireMap, cacheX, blob)), None, 200)
              && (memcache != null ==> memcache.entries == old(memcache.entries))
              && (cacheX != null ==> cacheX.entries == old(cacheX.entries) && cacheX.ttls == old(cacheX.ttls))
              && (blob != null ==> blob.entries == old(blob.entries))
    ensures old(CachedLookupAsWritten(listPath(uri), memcache, listExpireMap, cacheX, blob)).None? ==>
              var h := handler(uri);
              && (h.failed ==> !panicked && a == Answer(None, Some(UpstreamFailed), h.status))
              && (!h.failed && h.status != 200 ==> !panicked && a == Answer(None, Some(UpstreamStatus(h.status, h.body)), h.status))
              && (h.failed || h.status != 200 ==>
                    && (memcache != null ==> memcache.entries == old(memcache.entries))
                    && (cacheX != null ==> cacheX.entries == old(cacheX.entries) && cacheX.ttls == old(cacheX.ttls))
                    && (blob != null ==> blob.entries == old(blob.entries)))
              && (!h.failed && h.status == 200 ==>
                    && (panicked <==> cacheX != null && ttl.None?)
                    && (!panicked ==> a == Answer(Some(h.body), None, 200))
                    && (memcache != null ==> memcache.entries == old(memcache.entries)[listPath(uri) := h.body])
                    && (cacheX != null && !panicked ==>
                          && cacheX.entries == (if cacheX.reachable then old(cacheX.entries)[listPath(uri) := h.body] else old(cacheX.entries))
                          && cacheX.ttls == (if cacheX.reachable then old(cacheX.ttls)[listPath(uri) := OneMinute] else old(cacheX.ttls)))
                    && (cacheX != null && panicked ==> cacheX.entries == old(cacheX.entries) && cacheX.ttls == old(cacheX.ttls))
                    && (blob != null ==>
                          blob.entries == if !panicked && blob.reachable then old(blob.entries)[listPath(uri) := h.body] else old(blob.entries)))
  {
    var cacheKey := listPath(uri);
    var list := CachedLookupAsWritten(cacheKey, memcache, listExpireMap, cacheX, blob);
    if list.Some? {
      return Answer(list, None, 200), false;
    }
    var h := handler(uri);
    if h.failed {
      return Answer(None, Some(UpstreamFailed), h.status), false;
    }
    if h.status != 200 {
      return Answer(None, Some(UpstreamStatus(h.status, h.body)), h.status), false;
    }
    panicked := SetCacheAsWritten(cacheKey, h.body, memcache, cacheX, blob, ttl);
    a := if panicked then Answer(None, None, 0) else Answer(Some(h.body), None, h.status);
  }

  /** GetX as written: the same lookup and write as GetXNoVersionAsWritten,
      then the upsert of (uri, version), which a panic in the write never
      reaches. */
  method GetXAsWritten(uri: string, version: string, handler: (string, string) -> HandlerReply, listPath: KeyOf,
                       memcache: MemoryTier?, listExpireMap: MemoryTier, cacheX: SharedKv?, blob: BlobKv?,
                       ttl: Option<int>, db: ModuleDb?)
    returns (a: Answer, panicked: bool)
    modifies memcache, cacheX, blob, db
    ensures old(CachedLookupAsWritten(listPath(uri), memcache, listExpireMap, cacheX, blob)).Some? ==>
              && !panicked
              && a == Answer(old(CachedLookupAsWritten(listPath(uri), memcache, listExpireMap, cacheX, blob)), None, 200)
              && (memcache != null ==> memcache.entries == old(memcache.entries))
              && (cacheX != null ==> cacheX.entries == old(cacheX.entries) && cacheX.ttls == old(cacheX.ttls))
              && (blob != null ==> blob.entries == old(blob.entries))
              && (db != null ==> db.records == old(db.records))
    ensures old(CachedLookupAsWritten(listPath(uri), memcache, listExpireMap, cacheX, blob)).None? ==>
              var h := handler(uri, version);
              && (h.failed ==> !panicked && a == Answer(None, Some(UpstreamFailed), h.status))
              && (!h.failed && h.status != 200 ==> !panicked && a == Answer(None, Some(UpstreamStatus(h.status, h.body)), h.status))
              && (h.failed || h.status != 200 ==>
                    && (memcache != null ==> memcache.entries == old(memcache.entries))
                    && (cacheX != null ==> cacheX.entries == old(cacheX.entries) && cacheX.ttls == old(cacheX.ttls))
                    && (blob != null ==> blob.entries == old(blob.entries))
                    && (db != null ==> db.records == old(db.records)))
              && (!h.failed && h.status == 200 ==>
                    && (panicked <==> cacheX != null && ttl.None?)
                    && (!panicked ==> a == Answer(Some(h.body), None, 200))
                    && (memcache != null ==> memcache.entries == old(memcache.entries)[listPath(uri) := h.body])
                    && (cacheX != null && !panicked ==>
                          && cacheX.entries == (if cacheX.reachable then old(cacheX.entries)[listPath(uri) := h.body] else old(cacheX.entries))
                          && cacheX.ttls == (if cacheX.reachable then old(cacheX.ttls)[listPath(uri) := OneMinute] else old(cacheX.ttls)))
                    && (cacheX != null && panicked ==> cacheX.entries == old(cacheX.entries) && cacheX.ttls == old(cacheX.ttls))
                    && (blob != null ==>
                          blob.entries == if !panicked && blob.reachable then old(blob.entries)[listPath(uri) := h.body] else old(blob.entries))
                    && (db != null ==>
                          db.records == if panicked || uri in db.writeFails then old(db.records) else old(db.records)[uri := version]))
  {
    var cacheKey := listPath(uri);
    var list := CachedLookupAsWritten(cacheKey, memcache, listExpireMap, cacheX, blob);
    if list.Some? {
      return Answer(list, None, 200), false;
    }
    var h := handler(uri, version);
    if h.failed {
      return Answer(None, Some(UpstreamFailed), h.status), false;
    }
    if h.status != 200 {
      return Answer(None, Some(UpstreamStatus(h.status, h.body)), h.status), false;
    }
    panicked := SetCacheAsWritten(cacheKey, h.body, memcache, cacheX, blob, ttl);
    if panicked {
      return Answer(None, None, 0), true;
    }
    if db != null {
      var _ := db.UpsertGoModule(GoModule(uri, version));
    }
    a := Answer(Some(h.body), None, h.status);
  }

  /** GetX's key depends on the URI alone. In the configuration GetInfo,
      GetMod and GetZip use (blob storage only, no TTL), once one version of
      a module has been fetched and stored, a request for any other version
      of the same URI returns the first version's bytes, whatever upstream
      would say about the second. */
  method KeyIgnoresVersion(uri: string, v1: string, v2: string, handler: (string, string) -> HandlerReply, listPath: KeyOf,
                           listExpireMap: MemoryTier, blob: BlobKv, db: ModuleDb?)
    returns (first: Answer, second: Answer)
    requires blob.reachable && listPath(uri) !in blob.entries
    requires !handler(uri, v1).failed && handler(uri, v1).status == 200
    modifies blob, db
    ensures first == Answer(Some(handler(uri, v1).body), None, 200)
    ensures second == first
  {
    var p1, p2;
    first, p1 := GetXAsWritten(uri, v1, handler, listPath, null, listExpireMap, null, blob, None, db);
    second, p2 := GetXAsWritten(uri, v2, handler, listPath, null, listExpireMap, null, blob, None, db);
  }

  /** GetList: GetXNoVersion with a TTL of one minute, which SetCache as
      written keeps, so it never panics. */
  method GetList(uri: string, handler: string -> HandlerReply, listPath: KeyOf,
                 memcache: MemoryTier?, listExpireMap: MemoryTier, cacheX: SharedKv?, blob: BlobKv?) returns (a: Answer)
    modifies memcache, cacheX, blob
    ensures old(CachedLookupAsWritten(listPath(uri), memcache, listExpireMap, cacheX, blob)).Some? ==>
              && a == Answer(old(CachedLookupAsWritten(listPath(uri), memcache, listExpireMap, cacheX, blob)), None, 200)
              && (memcache != null ==> memcache.entries == old(memcache.entries))
              && (cacheX != null ==> cacheX.entries == old(cacheX.entries) && cacheX.ttls == old(cacheX.ttls))
              && (blob != null ==> blob.entries == old(blob.entries))
    ensures old(CachedLookupAsWritten(listPath(uri), memcache, listExpireMap, cacheX, blob)).None? ==>
              var h := handler(uri);
              && (h.failed ==> a == Answer(None, Some(UpstreamFailed), h.status))
              && (!h.failed && h.status != 200 ==> a == Answer(None, Some(UpstreamStatus(h.status, h.body)), h.status))
              && (h.failed || h.status != 200 ==>
                    && (memcache != null ==> memcache.entries == old(memcache.entries))
                    && (cacheX != null ==> cacheX.entries == old(cacheX.entries) && cacheX.ttls == old(cacheX.ttls))
                    && (blob != null ==> blob.entries == old(blob.entries)))
              && (!h.failed && h.status == 200 ==>
                    && a == Answer(Some(h.body), None, 200)
                    && (memcache != null ==> memcache.entries == old(memcache.entries)[listPath(uri) := h.body])
                    && (cacheX != null ==>
                          && cacheX.entries == (if cacheX.reachable then old(cacheX.entries)[listPath(uri) := h.body] else old(cacheX.entries))
                          && cacheX.ttls == (if cacheX.reachable then old(cacheX.ttls)[listPath(uri) := OneMinute] else old(cacheX.ttls)))
                    && (blob != null ==>
                          blob.entries == if blob.reachable then old(blob.entries)[listPath(uri) := h.body] else old(blob.entries)))
  {
    var panicked;
    a, panicked := GetXNoVersionAsWritten(uri, handler, listPath, memcache, listExpireMap, cacheX, blob, Some(OneMinute));
  }

  /** GetLatest: GetXNoVersion with thirty seconds and no blob tier. As
      written its memory probe reads `listExpireMap` rather than the map it
      is handed, and the thirty seconds are stored as one minute; with a TTL
      given it never panics. */
  method GetLatest(uri: string, handler: string -> HandlerReply, listPath: KeyOf,
                   memcache: MemoryTier?, listExpireMap: MemoryTier, cacheX: SharedKv?) returns (a: Answer)
    modifies memcache, cacheX
    ensures old(CachedLookupAsWritten(listPath(uri), memcache, listExpireMap, cacheX, null)).Some? ==>
              && a == Answer(old(CachedLookupAsWritten(listPath(uri), memcache, listExpireMap, cacheX, null)), None, 200)
              && (memcache != null ==> memcache.entries == old(memcache.entries))
              && (cacheX != null ==> cacheX.entries == old(cacheX.entries) && cacheX.ttls == old(cacheX.ttls))
    ensures old(CachedLookupAsWritten(listPath(uri), memcache, listExpireMap, cacheX, null)).None? ==>
              var h := handler(uri);
              && (h.failed ==> a == Answer(None, Some(UpstreamFailed), h.status))
              && (!h.failed && h.status != 200 ==> a == Answer(None, Some(UpstreamStatus(h.status, h.body)), h.status))
              && (h.failed || h.status != 200 ==>
                    && (memcache != null ==> memcache.entries == old(memcache.entries))
                    && (cacheX != null ==> cacheX.entries == old(cacheX.entries) && cacheX.ttls == old(cacheX.ttls)))
              && (!h.failed && h.status == 200 ==>
                    && a == Answer(Some(h.body), None, 200)
                    && (memcache != null ==> memcache.entries == old(memcache.entries)[listPath(uri) := h.body])
                    && (cacheX != null ==>
                          && cacheX.entries == (if cacheX.reachable then old(cacheX.entries)[listPath(uri) := h.body] else old(cacheX.entries))
                          && cacheX.ttls == (if cacheX.reachable then old(cacheX.ttls)[listPath(uri) := OneMinute] else old(cacheX.ttls))))
  {
    var panicked;
    a, panicked := GetXNoVersionAsWritten(uri, handler, listPath, memcache, listExpireMap, cacheX, null, Some(ThirtySeconds));
  }

  /** What GetLatest misses as written: a key held by the map it is handed
      but not by ListExpireMap, with no shared tier, goes upstream and is
      written to the handed map again, where the intended lookup would have
      answered from memory. */
  method LatestMissesOwnMap(uri: string, handler: string -> HandlerReply, listPath: KeyOf,
                            latestExpireMap: MemoryTier, listExpireMap: MemoryTier) returns (a: Answer)
    requires latestExpireMap != listExpireMap
    requires listPath(uri) in latestExpireMap.entries && listPath(uri) !in listExpireMap.entries
    requires !handler(uri).failed && handler(uri).status == 200
    modifies latestExpireMap
    ensures CachedLookup(listPath(uri), latestExpireMap, null, null).Some?
    ensures a == Answer(Some(handler(uri).body), None, 200)
  {
    a := GetLatest(uri, handler, listPath, latestExpireMap, listExpireMap, null);
  }
}
