/** HandleList (pkg/routes/list.go): a module's version list is answered
    from the in-process listMap, then the shared tier, then the Go module
    proxy; an upstream answer must be stored in the shared tier before it is
    sent, and every answer but a memory hit is then copied into listMap. */
module ListRoute {
  import opened Base
  import opened Hash
  import opened Upstream
  import opened Tiers

  /** The listMap key: the raw 32-byte digest of the coordinate as a string. */
  function ListMemoryKey(cX: SharedCache, domain: string, user: string, repo: string): (k: string)
    ensures |k| == 32
  {
    BytesStr(GetHash(cX.sha, domain, user, repo))
  }

  method HandleList(domain: string, user: string, repo: string, listMap: MemoryTier, cX: SharedCache,
                    up: UpstreamClient, net: Network) returns (o: Outcome)
    modifies cX`entries, up`responseMap
    // A memory hit answers from listMap and defers a shared-tier write only.
    ensures ListMemoryKey(cX, domain, user, repo) in listMap.entries ==>
              var list := listMap.entries[ListMemoryKey(cX, domain, user, repo)];
              && o == Outcome(Written(200, HitHeaders("memory"), TextPlainUtf8, list),
                              [WriteBacks([SetListShared(domain, user, repo, list)])], [Memory], [])
              && cX.entries == old(cX.entries) && up.responseMap == old(up.responseMap)
    // A shared hit answers from the shared tier and then sets listMap.
    ensures ListMemoryKey(cX, domain, user, repo) !in listMap.entries
            && old(cX.Lookup(cX.ListKey(domain, user, repo))).Success? ==>
              var list := old(cX.Lookup(cX.ListKey(domain, user, repo))).value;
              && o == Outcome(Written(200, HitHeaders("cache"), TextPlainUtf8, list),
                              [WriteBacks([SetMemory(ListMemoryKey(cX, domain, user, repo), list)])], [Memory, Shared], [])
              && cX.entries == old(cX.entries) && up.responseMap == old(up.responseMap)
    // Any shared-tier error is a miss and leads to exactly one upstream call.
    ensures ListMemoryKey(cX, domain, user, repo) !in listMap.entries
            && old(cX.Lookup(cX.ListKey(domain, user, repo))).Failure? ==>
              var r := ProxyAnswer(up.xxh, old(up.responseMap), net, ListUrl(domain, user, repo), false);
              && o.probes == [Memory, Shared, Origin]
              && o.upstreamCalls == [ListUrl(domain, user, repo)]
              && up.responseMap == ProxyCacheAfter(up.xxh, old(up.responseMap), net, ListUrl(domain, user, repo), false)
              && (r.err.Some? ==> o.resp == Aborted(500) && o.deferred == [] && cX.entries == old(cX.entries))
              && (r.err == None && r.status != 200 ==>
                    && o.resp == Written(r.status, map[], TextPlainUtf8, r.body)
                    && o.deferred == Refetches(r.refresh) && cX.entries == old(cX.entries))
              // SetList fails exactly when the shared tier is down: 500, and listMap is not set
              && (r.err == None && r.status == 200 && !cX.reachable ==>
                    o.resp == Aborted(500) && o.deferred == Refetches(r.refresh) && cX.entries == old(cX.entries))
              && (r.err == None && r.status == 200 && cX.reachable ==>
                    && cX.entries == old(cX.entries)[cX.ListKey(domain, user, repo) := r.body]
                    && o.resp == Written(200, MissHeaders(), TextPlainUtf8, r.body)
                    && o.deferred == Refetches(r.refresh) + [WriteBacks([SetMemory(ListMemoryKey(cX, domain, user, repo), r.body)])])
  {
    var key := ListMemoryKey(cX, domain, user, repo);
    if key in listMap.entries {
      var listX := listMap.entries[key];
      return Outcome(Written(200, HitHeaders("memory"), TextPlainUtf8, listX),
                     [WriteBacks([SetListShared(domain, user, repo, listX)])], [Memory], []);
    }

    var list: Bytes;
    var headers: map<string, string>;
    var deferred: seq<Goroutine> := [];
    var probes := [Memory, Shared];
    var calls: seq<string> := [];
    var cached := cX.GetList(domain, user, repo);
    if cached.Failure? {
      probes := probes + [Origin];
      calls := [ListUrl(domain, user, repo)];
      var r := up.CallUpstreamList(domain, user, repo, net);
      if r.err.Some? {
        return Outcome(Aborted(500), [], probes, calls);
      }
      deferred := Refetches(r.refresh);
      if r.status != 200 {
        return Outcome(Written(r.status, map[], TextPlainUtf8, r.body), deferred, probes, calls);
      }
      var err := cX.SetList(domain, user, repo, r.body);
      if err.Some? {
        return Outcome(Aborted(500), deferred, probes, calls);
      }
      list := r.body;
      headers := MissHeaders();
    } else {
      list := cached.value;
      headers := HitHeaders("cache");
    }

    o := Outcome(Written(200, headers, TextPlainUtf8, list), deferred + [WriteBacks([SetMemory(key, list)])], probes, calls);
  }

  /** Once a list has been answered with 200 and the goroutines that request
      started have run, the same request is a listMap hit with the same
      bytes and does not go upstream. */
  method RepeatListServedFromMemory(domain: string, user: string, repo: string, listMap: MemoryTier, cX: SharedCache,
                                    bX: BlobStorage.Blobstore, up: UpstreamClient, net: Network, later: Network)
    returns (first: Outcome, second: Outcome)
    modifies listMap, cX`entries, bX`objects, up`responseMap
    ensures first.resp.Written? && first.resp.status == 200 ==>
              && second.resp == Written(200, HitHeaders("memory"), TextPlainUtf8, first.resp.body)
              && second.upstreamCalls == [] && second.probes == [Memory]
  {
    var key := ListMemoryKey(cX, domain, user, repo);
    var wasHit := key in listMap.entries;
    first := HandleList(domain, user, repo, listMap, cX, up, net);
    var ok := first.resp.Written? && first.resp.status == 200;
    RunListGoroutines(first.deferred, ok, wasHit, key, domain, user, repo, if ok then first.resp.body else [],
                      listMap, cX, bX, up, net);
    second := HandleList(domain, user, repo, listMap, cX, up, later);
  }

  /** Runs the goroutines a list request started, in order. When the request
      answered `body` with 200, listMap ends up holding `body` at `key`:
      either it already did (a memory hit, whose only goroutine writes the
      shared tier), or the last goroutine sets it after the refetches. */
  method RunListGoroutines(gs: seq<Goroutine>, ok: bool, wasHit: bool, key: string,
                           domain: string, user: string, repo: string, body: Bytes,
                           listMap: MemoryTier, cX: SharedCache, bX: BlobStorage.Blobstore,
                           up: UpstreamClient, net: Network)
    modifies listMap, cX`entries, bX`objects, up`responseMap
    requires ok && wasHit ==> key in listMap.entries && listMap.entries[key] == body
                              && gs == [WriteBacks([SetListShared(domain, user, repo, body)])]
    requires ok && !wasHit ==> |gs| > 0 && (forall j | 0 <= j < |gs| - 1 :: gs[j].Refetch?)
                               && gs[|gs| - 1] == WriteBacks([SetMemory(key, body)])
    ensures ok ==> key in listMap.entries && listMap.entries[key] == body
  {
    var k := 0;
    while k < |gs|
      invariant k <= |gs|
      invariant ok && k == |gs| ==> key in listMap.entries && listMap.entries[key] == body
      invariant ok && wasHit ==> key in listMap.entries && listMap.entries[key] == body
      invariant ok && !wasHit && k < |gs| ==> listMap.entries == old(listMap.entries)
    {
      var g := gs[k];
      var _ := RunGoroutine(g, listMap, cX, bX, up, net);
      if g.WriteBacks? && g.steps == [SetMemory(key, body)] {
        assert g.steps[..1] == g.steps && g.steps[..1][..0] == [];
      }
      k := k + 1;
    }
  }
}
