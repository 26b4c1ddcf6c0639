/** SumDBRouter (pkg/routes/sumdb.go): a checksum-database request is
    answered from the in-process sumMap, then the shared tier, then blob
    storage, then the checksum database itself, and each hit starts a
    goroutine that copies the answer into other tiers. */
module SumDbRoute {
  import opened Base
  import opened Hash
  import opened BlobStorage
  import opened Upstream
  import opened Tiers

  /** The sumMap key, used both for the lookup and for the final write-back. */
  function SumMemoryKey(bX: Blobstore, domain: string, trail: string): string {
    SumPath(bX.sha, domain, trail)
  }

  predicate MemoryHit(mem: MemoryTier, bX: Blobstore, domain: string, trail: string)
    reads mem
  {
    SumMemoryKey(bX, domain, trail) in mem.entries
  }

  method SumDBRouter(domain: string, trail: string, mem: MemoryTier, cX: SharedCache, bX: Blobstore,
                     up: UpstreamClient, net: Network) returns (o: Outcome)
    modifies up`responseMap
    // A memory hit answers from sumMap and defers a blob write, then a shared write.
    ensures MemoryHit(mem, bX, domain, trail) ==>
              var sum := mem.entries[SumMemoryKey(bX, domain, trail)];
              o == Outcome(Written(200, HitHeaders("memory"), TextPlainUtf8, sum),
                           [WriteBacks([PutSumBlob(domain, trail, sum), SetSumShared(domain, trail, sum)])],
                           [Memory], [])
    // A shared hit answers from the shared tier and defers a shared write, then a blob write.
    ensures !MemoryHit(mem, bX, domain, trail) && cX.Lookup(cX.SumKey(domain, trail)).Success? ==>
              var sum := cX.Lookup(cX.SumKey(domain, trail)).value;
              o == Outcome(Written(200, HitHeaders("cache"), TextPlainUtf8, sum),
                           [WriteBacks([SetSumShared(domain, trail, sum), PutSumBlob(domain, trail, sum)])],
                           [Memory, Shared], [])
    // A blob error writes nothing and starts nothing.
    ensures !MemoryHit(mem, bX, domain, trail) && cX.Lookup(cX.SumKey(domain, trail)).Failure?
            && bX.SumLookup(domain, trail).err.Some? ==>
              o == Outcome(NothingWritten, [], [Memory, Shared, Blob], [])
    // A blob hit answers from blob and defers a shared write, then the sumMap write.
    ensures !MemoryHit(mem, bX, domain, trail) && cX.Lookup(cX.SumKey(domain, trail)).Failure?
            && bX.SumLookup(domain, trail).found ==>
              var db := bX.ReadObject(SumPath(bX.sha, domain, trail)).value;
              o == Outcome(Written(200, HitHeaders("blob"), TextPlainUtf8, db),
                           [WriteBacks([SetSumShared(domain, trail, db), SetMemory(SumMemoryKey(bX, domain, trail), db)])],
                           [Memory, Shared, Blob], [])
    // No cache tier answered: the upstream call decides.
    ensures !MemoryHit(mem, bX, domain, trail) && cX.Lookup(cX.SumKey(domain, trail)).Failure?
            && bX.ReadObject(SumPath(bX.sha, domain, trail)) == Failure(NoSuchKey) ==>
              var r := ProxyAnswer(up.xxh, old(up.responseMap), net, SumDbUrl(domain, trail), false);
              && o.probes == [Memory, Shared, Blob, Origin]
              && o.upstreamCalls == [SumDbUrl(domain, trail)]
              && up.responseMap == ProxyCacheAfter(up.xxh, old(up.responseMap), net, SumDbUrl(domain, trail), false)
              && (r.err.Some? ==> o.resp == Aborted(500) && o.deferred == [])
              && (r.err == None && r.status != 200 ==>
                    o.resp == Written(r.status, map[], TextPlainUtf8, r.body) && o.deferred == Refetches(r.refresh))
              && (r.err == None && r.status == 200 ==>
                    o.resp == Written(200, MissHeaders(), TextPlainUtf8, r.body)
                    && o.deferred == Refetches(r.refresh) + [WriteBacks([PutSumBlob(domain, trail, r.body),
                                                                        SetSumShared(domain, trail, r.body),
                                                                        SetMemory(SumMemoryKey(bX, domain, trail), r.body)])])
    // Every 200 starts exactly one write-back goroutine, after any refreshes.
    ensures o.resp.Written? && o.resp.status == 200 ==>
              && |o.deferred| > 0 && o.deferred[|o.deferred| - 1].WriteBacks?
              && forall j | 0 <= j < |o.deferred| - 1 :: o.deferred[j].Refetch?
    // Upstream is asked only when every cache tier missed.
    ensures o.upstreamCalls != [] ==> bX.ReadObject(SumPath(bX.sha, domain, trail)) == Failure(NoSuchKey)
    ensures o.upstreamCalls == [] ==> up.responseMap == old(up.responseMap)
  {
    var key := SumMemoryKey(bX, domain, trail);
    if key in mem.entries {
      var sum := mem.entries[key];
      return Outcome(Written(200, HitHeaders("memory"), TextPlainUtf8, sum),
                     [WriteBacks([PutSumBlob(domain, trail, sum), SetSumShared(domain, trail, sum)])],
                     [Memory], []);
    }

    var shared := cX.GetSumObj(domain, trail);
    if shared.Success? {
      var sum := shared.value;
      return Outcome(Written(200, HitHeaders("cache"), TextPlainUtf8, sum),
                     [WriteBacks([SetSumShared(domain, trail, sum), PutSumBlob(domain, trail, sum)])],
                     [Memory, Shared], []);
    }

    var blob := bX.GetSumObject(domain, trail);
    if blob.err.Some? {
      return Outcome(NothingWritten, [], [Memory, Shared, Blob], []);
    }
    if blob.found {
      var db := blob.item.value;
      return Outcome(Written(200, HitHeaders("blob"), TextPlainUtf8, db),
                     [WriteBacks([SetSumShared(domain, trail, db), SetMemory(key, db)])],
                     [Memory, Shared, Blob], []);
    }

    var probes := [Memory, Shared, Blob, Origin];
    var calls := [SumDbUrl(domain, trail)];
    var r := up.CallUpstreamSumDb(domain, trail, net);
    if r.err.Some? {
      return Outcome(Aborted(500), [], probes, calls);
    }
    if r.status != 200 {
      return Outcome(Written(r.status, map[], TextPlainUtf8, r.body), Refetches(r.refresh), probes, calls);
    }
    o := Outcome(Written(200, MissHeaders(), TextPlainUtf8, r.body),
                 Refetches(r.refresh) + [WriteBacks([PutSumBlob(domain, trail, r.body),
                                                     SetSumShared(domain, trail, r.body),
                                                     SetMemory(key, r.body)])],
                 probes, calls);
  }

  /** The request for (domain, trail) would be answered with `body` by one
      of the cache tiers, given the sumMap entries, the shared tier's
      reachability, entries and hash, and blob storage's hash, reachability
      and objects. */
  predicate Serves(m: map<string, Bytes>, cUp: bool, sh: map<string, Bytes>, cSha: Sha256,
                   bSha: Sha256, bUp: bool, ob: map<string, StoredObject>,
                   domain: string, trail: string, body: Bytes)
  {
    var key := SumPath(bSha, domain, trail);
    var skey := SumPath(cSha, domain, trail);
    if key in m then m[key] == body
    else if cUp && skey in sh then sh[skey] == body
    else ReadAt(bSha, bUp, ob, key) == Success(body)
  }

  predicate ServedFromCache(mem: MemoryTier, cX: SharedCache, bX: Blobstore, domain: string, trail: string, body: Bytes)
    reads mem, cX, bX
  {
    Serves(mem.entries, cX.reachable, cX.entries, cX.sha, bX.sha, bX.reachable, bX.objects, domain, trail, body)
  }

  /** After a memory hit, the write-back leaves sumMap as it was. */
  lemma MemoryHitWriteBackServes(m: map<string, Bytes>, cUp: bool, sh: map<string, Bytes>, cSha: Sha256,
                                 bSha: Sha256, bUp: bool, ob: map<string, StoredObject>,
                                 domain: string, trail: string, body: Bytes)
    requires SumPath(bSha, domain, trail) in m && m[SumPath(bSha, domain, trail)] == body
    ensures var steps := [PutSumBlob(domain, trail, body), SetSumShared(domain, trail, body)];
            var n := Completed(steps, cUp, bUp);
            Serves(MemoryAfter(m, steps[..n]), cUp, SharedAfter(cSha, sh, steps[..n]), cSha,
                   bSha, bUp, BlobAfter(bSha, ob, steps[..n]), domain, trail, body)
  {
    var steps := [PutSumBlob(domain, trail, body), SetSumShared(domain, trail, body)];
    assert steps[..1][..0] == [];
    assert MemoryAfter(m, steps[..1]) == m;
    assert steps[..2][..1] == steps[..1];
    assert MemoryAfter(m, steps[..2]) == m;
  }

  /** After a shared hit, the shared tier is rewritten with the same bytes. */
  lemma SharedHitWriteBackServes(m: map<string, Bytes>, sh: map<string, Bytes>, cSha: Sha256,
                                 bSha: Sha256, bUp: bool, ob: map<string, StoredObject>,
                                 domain: string, trail: string, body: Bytes)
    requires SumPath(bSha, domain, trail) !in m
    ensures var steps := [SetSumShared(domain, trail, body), PutSumBlob(domain, trail, body)];
            var n := Completed(steps, true, bUp);
            Serves(MemoryAfter(m, steps[..n]), true, SharedAfter(cSha, sh, steps[..n]), cSha,
                   bSha, bUp, BlobAfter(bSha, ob, steps[..n]), domain, trail, body)
  {
    var steps := [SetSumShared(domain, trail, body), PutSumBlob(domain, trail, body)];
    var skey := SumPath(cSha, domain, trail);
    assert steps[..1][..0] == [];
    assert MemoryAfter(m, steps[..1]) == m;
    assert SharedAfter(cSha, sh, steps[..1]) == sh[skey := body];
    assert steps[..2][..1] == steps[..1];
    assert MemoryAfter(m, steps[..2]) == m;
    assert SharedAfter(cSha, sh, steps[..2]) == sh[skey := body];
  }

  /** After a blob hit, either sumMap now holds the bytes or, with the
      shared tier down, nothing changed and blob still serves them. */
  lemma BlobHitWriteBackServes(m: map<string, Bytes>, cUp: bool, sh: map<string, Bytes>, cSha: Sha256,
                               bSha: Sha256, ob: map<string, StoredObject>, domain: string, trail: string, body: Bytes)
    requires SumPath(bSha, domain, trail) !in m
    requires !(cUp && SumPath(cSha, domain, trail) in sh)
    requires ReadAt(bSha, true, ob, SumPath(bSha, domain, trail)) == Success(body)
    ensures var steps := [SetSumShared(domain, trail, body), SetMemory(SumPath(bSha, domain, trail), body)];
            var n := Completed(steps, cUp, true);
            Serves(MemoryAfter(m, steps[..n]), cUp, SharedAfter(cSha, sh, steps[..n]), cSha,
                   bSha, true, BlobAfter(bSha, ob, steps[..n]), domain, trail, body)
  {
    var steps := [SetSumShared(domain, trail, body), SetMemory(SumPath(bSha, domain, trail), body)];
    assert steps[..2] == steps;
    assert steps[..2][..1] == [SetSumShared(domain, trail, body)];
    assert steps[..1][..0] == [];
    assert steps[..0] == [];
  }

  /** After an upstream 200, either sumMap now holds the bytes or, with the
      shared tier down, blob does. */
  lemma UpstreamWriteBackServes(m: map<string, Bytes>, cUp: bool, sh: map<string, Bytes>, cSha: Sha256,
                                bSha: Sha256, ob: map<string, StoredObject>, domain: string, trail: string, body: Bytes)
    requires SumPath(bSha, domain, trail) !in m
    requires !(cUp && SumPath(cSha, domain, trail) in sh)
    ensures var steps := [PutSumBlob(domain, trail, body), SetSumShared(domain, trail, body),
                          SetMemory(SumPath(bSha, domain, trail), body)];
            var n := Completed(steps, cUp, true);
            Serves(MemoryAfter(m, steps[..n]), cUp, SharedAfter(cSha, sh, steps[..n]), cSha,
                   bSha, true, BlobAfter(bSha, ob, steps[..n]), domain, trail, body)
  {
    var key := SumPath(bSha, domain, trail);
    var steps := [PutSumBlob(domain, trail, body), SetSumShared(domain, trail, body), SetMemory(key, body)];
    assert steps[..3] == steps;
    assert steps[..3][..2] == steps[..2] == [PutSumBlob(domain, trail, body), SetSumShared(domain, trail, body)];
    assert steps[..2][..1] == steps[..1] == [PutSumBlob(domain, trail, body)];
    assert steps[..1][..0] == [];
    if !cUp {
      ReadAfterPut(bSha, ob, key, body, OctetStream);
    }
  }

  /** Whatever cache tier holds the checksum, the handler answers 200 with
      it and does not go upstream. */
  method AnswerFromCache(domain: string, trail: string, mem: MemoryTier, cX: SharedCache, bX: Blobstore,
                         up: UpstreamClient, net: Network, body: Bytes) returns (o: Outcome)
    requires ServedFromCache(mem, cX, bX, domain, trail, body)
    modifies up`responseMap
    ensures o.resp.Written? && o.resp.status == 200 && o.resp.body == body
    ensures o.upstreamCalls == [] && up.responseMap == old(up.responseMap)
  {
    o := SumDBRouter(domain, trail, mem, cX, bX, up, net);
  }

  /** Once a checksum has been answered with 200 and the goroutines that
      request started have run, the same request is answered with the same
      bytes from a cache tier and does not go upstream. */
  method RepeatRequestServedFromCache(domain: string, trail: string, mem: MemoryTier, cX: SharedCache, bX: Blobstore,
                                      up: UpstreamClient, net: Network, later: Network)
    returns (first: Outcome, second: Outcome)
    modifies mem, cX`entries, bX`objects, up`responseMap
    ensures first.resp.Written? && first.resp.status == 200 ==>
              && second.resp.Written? && second.resp.status == 200
              && second.resp.body == first.resp.body
              && second.upstreamCalls == []
  {
    first := SumDBRouter(domain, trail, mem, cX, bX, up, net);
    var k := RunLeadingRefetches(first.deferred, mem, cX, bX, up, net);
    if first.resp.Written? && first.resp.status == 200 {
      assert k == |first.deferred| - 1;
      var body := first.resp.body;
      var key := SumMemoryKey(bX, domain, trail);
      var m, sh, ob := mem.entries, cX.entries, bX.objects;
      if key in m {
        MemoryHitWriteBackServes(m, cX.reachable, sh, cX.sha, bX.sha, bX.reachable, ob, domain, trail, body);
      } else if cX.Lookup(cX.SumKey(domain, trail)).Success? {
        SharedHitWriteBackServes(m, sh, cX.sha, bX.sha, bX.reachable, ob, domain, trail, body);
      } else if bX.SumLookup(domain, trail).found {
        BlobHitWriteBackServes(m, cX.reachable, sh, cX.sha, bX.sha, ob, domain, trail, body);
      } else {
        UpstreamWriteBackServes(m, cX.reachable, sh, cX.sha, bX.sha, ob, domain, trail, body);
      }
      var _ := RunGoroutine(first.deferred[k], mem, cX, bX, up, net);
      second := AnswerFromCache(domain, trail, mem, cX, bX, up, later, body);
    } else {
      second := SumDBRouter(domain, trail, mem, cX, bX, up, later);
    }
  }

  /** Runs the refetch goroutines at the front of `gs`, in order, and stops
      at the first goroutine that is not a refetch; no cache tier changes. */
  method RunLeadingRefetches(gs: seq<Goroutine>, mem: MemoryTier, cX: SharedCache, bX: Blobstore,
                             up: UpstreamClient, net: Network) returns (k: nat)
    modifies up`responseMap
    ensures k <= |gs| && (forall j | 0 <= j < k :: gs[j].Refetch?) && (k < |gs| ==> !gs[k].Refetch?)
    ensures mem.entries == old(mem.entries) && cX.entries == old(cX.entries) && bX.objects == old(bX.objects)
  {
    k := 0;
    while k < |gs| && gs[k].Refetch?
      invariant k <= |gs|
      invariant forall j | 0 <= j < k :: gs[j].Refetch?
      invariant mem.entries == old(mem.entries) && cX.entries == old(cX.entries) && bX.objects == old(bX.objects)
    {
      var _ := up.CallProxyAsWritten(gs[k].url, true, net);
      k := k + 1;
    }
  }
}
