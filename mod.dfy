/** HandleMod (pkg/routes/mod.go): a `.mod` file is answered from blob
    storage, or fetched from the Go module proxy and stored in blob storage
    before it is sent. The response carries no cache headers. */
module ModRoute {
  import opened Base
  import opened Hash
  import opened BlobStorage
  import opened Upstream
  import opened Tiers

  method HandleMod(domain: string, user: string, repo: string, version: string, bX: Blobstore,
                   up: UpstreamClient, net: Network) returns (o: Outcome)
    modifies bX`objects, up`responseMap
    // A blob error is a 500 with no upstream call.
    ensures old(bX.ModLookup(domain, user, repo, version)).err.Some? ==>
              && o == Outcome(Aborted(500), [], [Blob], [])
              && bX.objects == old(bX.objects) && up.responseMap == old(up.responseMap)
    // Found: 200 with the stored bytes, no upstream call, no cache headers.
    ensures old(bX.ModLookup(domain, user, repo, version)).found ==>
              && o == Outcome(Written(200, map[], TextPlainUtf8, old(bX.ReadObject(ModPath(bX.sha, domain, user, repo, version))).value),
                              [], [Blob], [])
              && bX.objects == old(bX.objects) && up.responseMap == old(up.responseMap)
    // Miss: the upstream answer decides, and only a 200 is stored.
    ensures old(bX.ReadObject(ModPath(bX.sha, domain, user, repo, version))) == Failure(NoSuchKey) ==>
              var r := ProxyAnswer(up.xxh, old(up.responseMap), net, ModUrl(domain, user, repo, version), false);
              && o.probes == [Blob, Origin]
              && o.upstreamCalls == [ModUrl(domain, user, repo, version)]
              && up.responseMap == ProxyCacheAfter(up.xxh, old(up.responseMap), net, ModUrl(domain, user, repo, version), false)
              && (r.err.Some? ==> o.resp == Aborted(500) && o.deferred == [] && bX.objects == old(bX.objects))
              && (r.err == None && r.status != 200 ==>
                    && o.resp == Written(r.status, map[], TextPlainUtf8, r.body)
                    && o.deferred == Refetches(r.refresh) && bX.objects == old(bX.objects))
              && (r.err == None && r.status == 200 ==>
                    && o.deferred == Refetches(r.refresh)
                    && bX.objects == (if bX.reachable then old(bX.objects)[ModPath(bX.sha, domain, user, repo, version) := Tagged(bX.sha, r.body, OctetStream)]
                                      else old(bX.objects))
                    && o.resp == (if bX.reachable then Written(200, map[], TextPlainUtf8, r.body) else Aborted(500)))
  {
    var l := bX.GetModObject(domain, user, repo, version);
    if l.err.Some? {
      return Outcome(Aborted(500), [], [Blob], []);
    }
    var mod: Bytes;
    var deferred: seq<Goroutine> := [];
    var probes := [Blob];
    var calls: seq<string> := [];
    if !l.found {
      probes, calls := [Blob, Origin], [ModUrl(domain, user, repo, version)];
      var r := up.CallUpstreamMod(domain, user, repo, version, net);
      if r.err.Some? {
        return Outcome(Aborted(500), [], probes, calls);
      }
      deferred := Refetches(r.refresh);
      if r.status != 200 {
        return Outcome(Written(r.status, map[], TextPlainUtf8, r.body), deferred, probes, calls);
      }
      var err := bX.PutModObject(domain, user, repo, version, r.body);
      if err.Some? {
        return Outcome(Aborted(500), deferred, probes, calls);
      }
      mod := r.body;
    } else {
      mod := l.item.value;
    }
    o := Outcome(Written(200, map[], TextPlainUtf8, mod), deferred, probes, calls);
  }

  /** After a successful miss the bytes are in blob storage under the
      module's `.mod` path, so the same request is answered from blob with
      the same bytes and does not go upstream. */
  method RepeatModServedFromBlob(domain: string, user: string, repo: string, version: string, bX: Blobstore,
                                 up: UpstreamClient, net: Network, later: Network)
    returns (first: Outcome, second: Outcome)
    modifies bX`objects, up`responseMap
    ensures first.resp.Written? && first.resp.status == 200 ==>
              && second.resp == first.resp
              && second.upstreamCalls == [] && second.probes == [Blob]
  {
    first := HandleMod(domain, user, repo, version, bX, up, net);
    if first.resp.Written? && first.resp.status == 200 && first.upstreamCalls != [] {
      ReadAfterPut(bX.sha, old(bX.objects), ModPath(bX.sha, domain, user, repo, version), first.resp.body, OctetStream);
    }
    second := HandleMod(domain, user, repo, version, bX, up, later);
  }
}
