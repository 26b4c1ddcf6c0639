/** HandleZip and DownloadZip (pkg/routes/zip.go): a module's source
    archive is answered from blob storage, or fetched from the Go module
    proxy and stored before it is sent; DownloadZip preloads an archive and
    stores whatever the fetch returned. */
module ZipRoute {
  import opened Base
  import opened Hash
  import opened BlobStorage
  import opened Upstream
  import opened Tiers

  method HandleZip(domain: string, user: string, repo: string, version: string, bX: Blobstore,
                   up: UpstreamClient, net: Network) returns (o: Outcome)
    modifies bX`objects, up`responseMap
    // A blob error is a 500 with no upstream call.
    ensures old(bX.ZipLookup(domain, user, repo, version)).err.Some? ==>
              && o == Outcome(Aborted(500), [], [Blob], [])
              && bX.objects == old(bX.objects) && up.responseMap == old(up.responseMap)
    // Found: 200 application/zip, served from blob, no upstream call.
    ensures old(bX.ZipLookup(domain, user, repo, version)).found ==>
              && o == Outcome(Written(200, HitHeaders("blob"), ApplicationZip,
                                      old(bX.ReadObject(ZipPath(bX.sha, domain, user, repo, version))).value),
                              [], [Blob], [])
              && bX.objects == old(bX.objects) && up.responseMap == old(up.responseMap)
    // Miss: the upstream answer decides, and only a 200 is stored.
    ensures old(bX.ReadObject(ZipPath(bX.sha, domain, user, repo, version))) == Failure(NoSuchKey) ==>
              var r := ProxyAnswer(up.xxh, old(up.responseMap), net, ModuleSourceUrl(domain, user, repo, version), false);
              && o.probes == [Blob, Origin]
              && o.upstreamCalls == [ModuleSourceUrl(domain, user, repo, version)]
              && up.responseMap == ProxyCacheAfter(up.xxh, old(up.responseMap), net, ModuleSourceUrl(domain, user, repo, version), false)
              && (r.err.Some? ==> o.resp == Aborted(500) && o.deferred == [] && bX.objects == old(bX.objects))
              && (r.err == None && r.status != 200 ==>
                    && o.resp == Written(r.status, map[], TextPlainUtf8, r.body)
                    && o.deferred == Refetches(r.refresh) && bX.objects == old(bX.objects))
              && (r.err == None && r.status == 200 ==>
                    && o.deferred == Refetches(r.refresh)
                    && bX.objects == (if bX.reachable then old(bX.objects)[ZipPath(bX.sha, domain, user, repo, version) := Tagged(bX.sha, r.body, OctetStream)]
                                      else old(bX.objects))
                    && o.resp == (if bX.reachable then Written(200, MissHeaders(), ApplicationZip, r.body) else Aborted(500)))
  {
    var l := bX.GetModuleSourceObject(domain, user, repo, version);
    if l.err.Some? {
      return Outcome(Aborted(500), [], [Blob], []);
    }
    var mod: Bytes;
    var headers: map<string, string>;
    var deferred: seq<Goroutine> := [];
    var probes := [Blob];
    var calls: seq<string> := [];
    if !l.found {
      probes, calls := [Blob, Origin], [ModuleSourceUrl(domain, user, repo, version)];
      var r := up.CallUpstreamModuleSource(domain, user, repo, version, net);
      if r.err.Some? {
        return Outcome(Aborted(500), [], probes, calls);
      }
      deferred := Refetches(r.refresh);
      if r.status != 200 {
        return Outcome(Written(r.status, map[], TextPlainUtf8, r.body), deferred, probes, calls);
      }
      var err := bX.PutModuleSourceObject(domain, user, repo, version, r.body);
      if err.Some? {
        return Outcome(Aborted(500), deferred, probes, calls);
      }
      mod := r.body;
      headers := MissHeaders();
    } else {
      mod := l.item.value;
      headers := HitHeaders("blob");
    }
    o := Outcome(Written(200, headers, ApplicationZip, mod), deferred, probes, calls);
  }

  /** DownloadZip: fetch the archive of (domain, user) with an empty repo and
      store it under the coordinate (domain, user, "", version), whatever the
      fetch returned. A body-read failure stores an empty archive, and a
      non-200 stores the error body; both are only logged. A miss that fails
      at the transport level panics inside callProxy (upstream.go:38) before
      anything is stored; `crashed` reports that. */
  method DownloadZip(domain: string, user: string, version: string, bX: Blobstore,
                     up: UpstreamClient, net: Network) returns (refresh: seq<Goroutine>, crashed: bool)
    modifies bX`objects, up`responseMap
    ensures crashed <==> ProxyAnswerAsWritten(up.xxh, old(up.responseMap), net, ModuleSourceUrl(domain, user, "", version), false)
                         == NilDereference
    ensures crashed ==> bX.objects == old(bX.objects) && up.responseMap == old(up.responseMap) && refresh == []
    ensures !crashed ==>
              var r := ProxyAnswer(up.xxh, old(up.responseMap), net, ModuleSourceUrl(domain, user, "", version), false);
              && up.responseMap == ProxyCacheAfter(up.xxh, old(up.responseMap), net, ModuleSourceUrl(domain, user, "", version), false)
              && refresh == Refetches(r.refresh)
              && bX.objects == if bX.reachable then old(bX.objects)[ZipPath(bX.sha, domain, user, "", version) := Tagged(bX.sha, r.body, OctetStream)]
                               else old(bX.objects)
  {
    var a := up.CallProxyAsWritten(ModuleSourceUrl(domain, user, "", version), false, net);
    if a.NilDereference? {
      return [], true;
    }
    var r := a.reply;
    var _ := bX.PutModuleSourceObject(domain, user, "", version, r.body);
    refresh := Refetches(r.refresh);
    crashed := false;
  }

  /** A body-read failure during a preload leaves an empty archive in blob
      storage, which a later request for that coordinate serves as a 200. */
  method FailedPreloadServesEmptyArchive(domain: string, user: string, version: string, bX: Blobstore,
                                         up: UpstreamClient, net: Network, later: Network)
    returns (o: Outcome)
    requires bX.reachable
    requires net(ModuleSourceUrl(domain, user, "", version)).BodyReadFailure?
    requires UrlKey(up.xxh, ModuleSourceUrl(domain, user, "", version)) !in up.responseMap
    modifies bX`objects, up`responseMap
    ensures o.resp == Written(200, HitHeaders("blob"), ApplicationZip, [])
    ensures o.upstreamCalls == []
  {
    var _, crashed := DownloadZip(domain, user, version, bX, up, net);
    ReadAfterPut(bX.sha, old(bX.objects), ZipPath(bX.sha, domain, user, "", version), [], OctetStream);
    o := HandleZip(domain, user, "", version, bX, up, later);
  }

  /** A transport failure during a preload stores nothing: the preload
      crashes, and a later request for that coordinate still misses blob
      storage and goes upstream. */
  method UnreachablePreloadStoresNothing(domain: string, user: string, version: string, bX: Blobstore,
                                         up: UpstreamClient, net: Network, later: Network)
    returns (crashed: bool, o: Outcome)
    requires bX.ReadObject(ZipPath(bX.sha, domain, user, "", version)) == Failure(NoSuchKey)
    requires net(ModuleSourceUrl(domain, user, "", version)).TransportFailure?
    requires UrlKey(up.xxh, ModuleSourceUrl(domain, user, "", version)) !in up.responseMap
    modifies bX`objects, up`responseMap
    ensures crashed
    ensures o.upstreamCalls == [ModuleSourceUrl(domain, user, "", version)]
  {
    var refresh;
    refresh, crashed := DownloadZip(domain, user, version, bX, up, net);
    o := HandleZip(domain, user, "", version, bX, up, later);
  }
}
