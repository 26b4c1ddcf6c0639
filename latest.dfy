/** HandleLatest (pkg/routes/latest.go): the `@latest` answer lives only in
    the in-process cacheMap; a miss goes to the Go module proxy and a 200 is
    stored in cacheMap before it is sent. No shared or blob tier is involved,
    and the handler takes neither. */
module LatestRoute {
  import opened Base
  import opened Hash
  import opened Upstream
  import opened Tiers

  method HandleLatest(sha: Sha256, domain: string, user: string, repo: string, cacheMap: MemoryTier,
                      up: UpstreamClient, net: Network) returns (o: Outcome)
    modifies cacheMap, up`responseMap
    ensures LatestHash(sha, domain, user, repo) in old(cacheMap.entries) ==>
              && o == Outcome(Written(200, HitHeaders("memory"), TextPlainUtf8, old(cacheMap.entries)[LatestHash(sha, domain, user, repo)]),
                              [], [Memory], [])
              && cacheMap.entries == old(cacheMap.entries) && up.responseMap == old(up.responseMap)
    ensures LatestHash(sha, domain, user, repo) !in old(cacheMap.entries) ==>
              var r := ProxyAnswer(up.xxh, old(up.responseMap), net, LatestUrl(domain, user, repo), false);
              && o.probes == [Memory, Origin]
              && o.upstreamCalls == [LatestUrl(domain, user, repo)]
              && up.responseMap == ProxyCacheAfter(up.xxh, old(up.responseMap), net, LatestUrl(domain, user, repo), false)
              && (r.err.Some? ==> o.resp == Aborted(500) && o.deferred == [] && cacheMap.entries == old(cacheMap.entries))
              && (r.err == None && r.status != 200 ==>
                    && o.resp == Written(r.status, map[], TextPlainUtf8, r.body)
                    && o.deferred == Refetches(r.refresh) && cacheMap.entries == old(cacheMap.entries))
              && (r.err == None && r.status == 200 ==>
                    && o.resp == Written(200, MissHeaders(), TextPlainUtf8, r.body)
                    && o.deferred == Refetches(r.refresh)
                    && cacheMap.entries == old(cacheMap.entries)[LatestHash(sha, domain, user, repo) := r.body])
    // Only cacheMap and upstream are ever consulted.
    ensures forall t | t in o.probes :: t == Memory || t == Origin
  {
    var hashX := LatestHash(sha, domain, user, repo);
    if hashX in cacheMap.entries {
      return Outcome(Written(200, HitHeaders("memory"), TextPlainUtf8, cacheMap.entries[hashX]), [], [Memory], []);
    }

    var probes, calls := [Memory, Origin], [LatestUrl(domain, user, repo)];
    var r := up.CallUpstreamLatest(domain, user, repo, net);
    if r.err.Some? {
      return Outcome(Aborted(500), [], probes, calls);
    }
    if r.status != 200 {
      return Outcome(Written(r.status, map[], TextPlainUtf8, r.body), Refetches(r.refresh), probes, calls);
    }
    cacheMap.Set(hashX, r.body);
    o := Outcome(Written(200, MissHeaders(), TextPlainUtf8, r.body), Refetches(r.refresh), probes, calls);
  }

  /** A 200 from upstream is stored before it is sent, so the next request
      for the same coordinate is a cacheMap hit with the same bytes, with no
      goroutine having to run first. */
  method RepeatLatestServedFromMemory(sha: Sha256, domain: string, user: string, repo: string, cacheMap: MemoryTier,
                                      up: UpstreamClient, net: Network, later: Network)
    returns (first: Outcome, second: Outcome)
    modifies cacheMap, up`responseMap
    ensures first.resp.Written? && first.resp.status == 200 ==>
              && second.resp == Written(200, HitHeaders("memory"), TextPlainUtf8, first.resp.body)
              && second.upstreamCalls == []
  {
    first := HandleLatest(sha, domain, user, repo, cacheMap, up, net);
    second := HandleLatest(sha, domain, user, repo, cacheMap, up, later);
  }
}
