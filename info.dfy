/** HandleInfo (pkg/routes/info.go): a version's `.info` document is
    answered from blob storage or fetched from the Go module proxy; either
    way it is decoded, annotated with a "source" key saying where it came
    from, and sent as JSON. What is stored is the raw upstream body. JSON
    decoding and encoding are parameters. */
module InfoRoute {
  import opened Base
  import opened Hash
  import opened BlobStorage
  import opened Upstream
  import opened Tiers

  const SourceKey := "source"

  /** The document sent back: the decoded map with "source" set. */
  function Annotated(info: InfoMap, source: string): (m: InfoMap)
    ensures SourceKey in m && m[SourceKey] == JString(source)
    ensures forall k | k in info && k != SourceKey :: k in m && m[k] == info[k]
    ensures m.Keys == info.Keys + {SourceKey}
  {
    info[SourceKey := JString(source)]
  }

  /** `panicked` reports the nil-map assignment Go makes when the document
      is JSON `null`: the handler has written nothing by then. */
  method HandleInfo(domain: string, user: string, repo: string, version: string, bX: Blobstore,
                    up: UpstreamClient, net: Network, decode: Bytes -> Decoded, encode: InfoMap -> Bytes)
    returns (o: Outcome, panicked: bool)
    modifies bX`objects, up`responseMap
    ensures panicked ==> o.resp == NothingWritten
    // A blob error, including a stored object that does not decode, is a 500.
    ensures old(bX.InfoLookup(domain, user, repo, version, decode)).err.Some? ==>
              && o == Outcome(Aborted(500), [], [Blob], []) && !panicked
              && bX.objects == old(bX.objects) && up.responseMap == old(up.responseMap)
    // Found: 200 JSON of the stored document with "source" = "blob"; a stored `null` panics.
    ensures var l := old(bX.InfoLookup(domain, user, repo, version, decode));
            l.found && l.err == None ==>
              && bX.objects == old(bX.objects) && up.responseMap == old(up.responseMap)
              && (l.item.Some? ==> !panicked && o == Outcome(Written(200, map[], ApplicationJsonUtf8, encode(Annotated(l.item.value, "blob"))), [], [Blob], []))
              && (l.item == None ==> panicked && o == Outcome(NothingWritten, [], [Blob], []))
    // Miss: the upstream answer decides; a 200 that is an object or `null` is stored raw.
    ensures old(bX.ReadObject(InfoPath(bX.sha, domain, user, repo, version))) == Failure(NoSuchKey) ==>
              var r := ProxyAnswer(up.xxh, old(up.responseMap), net, InfoUrl(domain, user, repo, version), false);
              var d := decode(r.body);
              && o.probes == [Blob, Origin]
              && o.upstreamCalls == [InfoUrl(domain, user, repo, version)]
              && up.responseMap == ProxyCacheAfter(up.xxh, old(up.responseMap), net, InfoUrl(domain, user, repo, version), false)
              && (r.err.Some? ==> o.resp == Aborted(500) && !panicked && o.deferred == [] && bX.objects == old(bX.objects))
              && (r.err == None && r.status != 200 ==>
                    && o.resp == Written(r.status, map[], TextPlainUtf8, r.body) && !panicked
                    && o.deferred == Refetches(r.refresh) && bX.objects == old(bX.objects))
              && (r.err == None && r.status == 200 && d.Invalid? ==>
                    o.resp == Aborted(500) && !panicked && o.deferred == Refetches(r.refresh) && bX.objects == old(bX.objects))
              && (r.err == None && r.status == 200 && !d.Invalid? ==>
                    && o.deferred == Refetches(r.refresh)
                    && bX.objects == (if bX.reachable then old(bX.objects)[InfoPath(bX.sha, domain, user, repo, version) := Tagged(bX.sha, r.body, OctetStream)]
                                      else old(bX.objects))
                    && (panicked <==> bX.reachable && d.Null?)
                    && o.resp == (if !bX.reachable then Aborted(500)
                                  else if d.Null? then NothingWritten
                                  else Written(200, map[], ApplicationJsonUtf8, encode(Annotated(d.m, "upstream")))))
  {
    panicked := false;
    var l := bX.GetInfoObject(domain, user, repo, version, decode);
    if l.err.Some? {
      return Outcome(Aborted(500), [], [Blob], []), false;
    }
    var info: InfoMap;
    var deferred: seq<Goroutine> := [];
    var probes := [Blob];
    var calls: seq<string> := [];
    if !l.found {
      probes, calls := [Blob, Origin], [InfoUrl(domain, user, repo, version)];
      var r := up.CallUpstreamInfo(domain, user, repo, version, net);
      if r.err.Some? {
        return Outcome(Aborted(500), [], probes, calls), false;
      }
      deferred := Refetches(r.refresh);
      if r.status != 200 {
        return Outcome(Written(r.status, map[], TextPlainUtf8, r.body), deferred, probes, calls), false;
      }
      var decoded := decode(r.body);
      if decoded.Invalid? {
        return Outcome(Aborted(500), deferred, probes, calls), false;
      }
      var err := bX.PutInfoObject(domain, user, repo, version, r.body);
      if err.Some? {
        return Outcome(Aborted(500), deferred, probes, calls), false;
      }
      if decoded.Null? {
        return Outcome(NothingWritten, deferred, probes, calls), true;
      }
      info := Annotated(decoded.m, "upstream");
    } else if l.item == None {
      return Outcome(NothingWritten, deferred, probes, calls), true;
    } else {
      info := Annotated(l.item.value, "blob");
    }
    o := Outcome(Written(200, map[], ApplicationJsonUtf8, encode(info)), deferred, probes, calls);
  }

  /** After a successful miss the raw body is in blob storage, so the same
      request is answered from blob with the same document, now marked
      "blob" instead of "upstream", and does not go upstream. */
  method RepeatInfoServedFromBlob(domain: string, user: string, repo: string, version: string, bX: Blobstore,
                                  up: UpstreamClient, net: Network, later: Network,
                                  decode: Bytes -> Decoded, encode: InfoMap -> Bytes)
    returns (first: Outcome, second: Outcome)
    requires bX.ReadObject(InfoPath(bX.sha, domain, user, repo, version)) == Failure(NoSuchKey)
    modifies bX`objects, up`responseMap
    ensures first.resp.Written? && first.resp.status == 200 ==>
              var body := ProxyAnswer(up.xxh, old(up.responseMap), net, InfoUrl(domain, user, repo, version), false).body;
              && decode(body).Obj?
              && first.resp.body == encode(Annotated(decode(body).m, "upstream"))
              && second.resp == Written(200, map[], ApplicationJsonUtf8, encode(Annotated(decode(body).m, "blob")))
              && second.upstreamCalls == []
  {
    var panicked;
    first, panicked := HandleInfo(domain, user, repo, version, bX, up, net, decode, encode);
    var r := ProxyAnswer(up.xxh, old(up.responseMap), net, InfoUrl(domain, user, repo, version), false);
    if first.resp.Written? && first.resp.status == 200 {
      ReadAfterPut(bX.sha, old(bX.objects), InfoPath(bX.sha, domain, user, repo, version), r.body, OctetStream);
    }
    second, panicked := HandleInfo(domain, user, repo, version, bX, up, later, decode, encode);
  }

  /** An upstream 200 whose body is JSON `null` is stored before the
      handler panics, so every later request for that version is a blob hit
      that panics again and never goes back upstream. */
  method NullInfoPanicsForGood(domain: string, user: string, repo: string, version: string, bX: Blobstore,
                               up: UpstreamClient, net: Network, later: Network,
                               decode: Bytes -> Decoded, encode: InfoMap -> Bytes)
    returns (first: Outcome, firstPanicked: bool, second: Outcome, secondPanicked: bool)
    requires bX.ReadObject(InfoPath(bX.sha, domain, user, repo, version)) == Failure(NoSuchKey)
    modifies bX`objects, up`responseMap
    ensures var r := ProxyAnswer(up.xxh, old(up.responseMap), net, InfoUrl(domain, user, repo, version), false);
            r.err == None && r.status == 200 && decode(r.body).Null? && bX.reachable ==>
              && firstPanicked && first.upstreamCalls == [InfoUrl(domain, user, repo, version)]
              && secondPanicked && second == Outcome(NothingWritten, [], [Blob], [])
  {
    first, firstPanicked := HandleInfo(domain, user, repo, version, bX, up, net, decode, encode);
    var r := ProxyAnswer(up.xxh, old(up.responseMap), net, InfoUrl(domain, user, repo, version), false);
    if r.err == None && r.status == 200 && decode(r.body).Null? && bX.reachable {
      ReadAfterPut(bX.sha, old(bX.objects), InfoPath(bX.sha, domain, user, repo, version), r.body, OctetStream);
    }
    second, secondPanicked := HandleInfo(domain, user, repo, version, bX, up, later, decode, encode);
  }
}
