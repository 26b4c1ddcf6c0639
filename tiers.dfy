/** What the request handlers of pkg/routes share: the response they write,
    the in-process expiring maps, the shared (Redis) tier of
    pkg/cache/cache.go, and the background goroutines they start, which the
    model returns as values and runs with RunGoroutine. */
module Tiers {
  import opened Base
  import opened Hash
  import opened BlobStorage
  import opened Upstream

  const FromCache := "X-From-Cache"
  const FromCacheReason := "X-From-Cache-Reason"

  const TextPlainUtf8 := "text/plain; charset=utf-8"
  const ApplicationZip := "application/zip"
  const ApplicationJsonUtf8 := "application/json; charset=utf-8"

  /** What a handler leaves in the HTTP response: data written with a status,
      headers and content type; an abort with a status (AbortWithError); or
      nothing at all. */
  datatype Response =
    | Written(status: int, headers: map<string, string>, contentType: string, body: Bytes)
    | Aborted(status: int)
    | NothingWritten

  /** The headers of a response served from a cache tier. */
  function HitHeaders(reason: string): map<string, string> {
    map[FromCache := "true", FromCacheReason := reason]
  }

  /** The header of a response fetched from upstream. */
  function MissHeaders(): map<string, string> {
    map[FromCache := "false"]
  }

  /** The tiers a handler consults, in the order it consults them. */
  datatype Tier = Memory | Shared | Blob | Origin

  /** One write a background goroutine performs. */
  datatype WriteBack =
    | PutSumBlob(domain: string, trail: string, data: Bytes)
    | SetSumShared(domain: string, trail: string, data: Bytes)
    | SetListShared(domain: string, user: string, repo: string, data: Bytes)
    | SetMemory(key: string, data: Bytes)

  /** A goroutine a handler starts: a chain of writes that stops at the
      first failure, or the forced re-fetch callProxy starts on a cache hit. */
  datatype Goroutine = WriteBacks(steps: seq<WriteBack>) | Refetch(url: string)

  function Refetches(urls: seq<string>): (gs: seq<Goroutine>)
    ensures |gs| == |urls| && forall i | 0 <= i < |urls| :: gs[i] == Refetch(urls[i])
  {
    if urls == [] then [] else [Refetch(urls[0])] + Refetches(urls[1..])
  }

  /** What a handler did: its response, the goroutines it started, the tiers
      it consulted in order, and the upstream URLs it requested. */
  datatype Outcome = Outcome(resp: Response, deferred: seq<Goroutine>, probes: seq<Tier>, upstreamCalls: seq<string>)

  // ---------------------------------------------------------------------
  // The in-process expiring maps (sumMap, listMap, cacheMap)

  class MemoryTier {
    var entries: map<string, Bytes>

    constructor (entries: map<string, Bytes>)
      ensures this.entries == entries
    {
      this.entries := entries;
    }

    method Set(key: string, value: Bytes)
      modifies this
      ensures entries == old(entries)[key := value]
    {
      entries := entries[key := value];
    }
  }

  // ---------------------------------------------------------------------
  // The shared tier (pkg/cache/cache.go)

  /** A Redis GET that finds nothing and a Redis that cannot be reached are
      both errors to the caller. */
  datatype CacheError = KeyMissing | CacheUnreachable

  class SharedCache {
    const sha: Sha256
    var entries: map<string, Bytes>
    var reachable: bool

    constructor (sha: Sha256, entries: map<string, Bytes>, reachable: bool)
      ensures this.sha == sha && this.entries == entries && this.reachable == reachable
    {
      this.sha := sha;
      this.entries := entries;
      this.reachable := reachable;
    }

    /** GetList/SetList key: the hex of GetHash(domain, user, repo). */
    function ListKey(domain: string, user: string, repo: string): string {
      Hex(GetHash(sha, domain, user, repo))
    }

    /** GetSumObj/SetSumObj key: GetMinioSumPath(domain, trail). */
    function SumKey(domain: string, trail: string): string {
      SumPath(sha, domain, trail)
    }

    function Lookup(key: string): Result<Bytes, CacheError>
      reads this
    {
      if !reachable then Failure(CacheUnreachable)
      else if key !in entries then Failure(KeyMissing)
      else Success(entries[key])
    }

    method GetList(domain: string, user: string, repo: string) returns (r: Result<Bytes, CacheError>)
      ensures r == Lookup(ListKey(domain, user, repo))
    {
      var key := ListKey(domain, user, repo);
      if !reachable {
        return Failure(CacheUnreachable);
      }
      if key !in entries {
        return Failure(KeyMissing);
      }
      r := Success(entries[key]);
    }

    method SetList(domain: string, user: string, repo: string, list: Bytes) returns (err: Option<CacheError>)
      modifies this`entries
      ensures err == None <==> reachable
      ensures entries == if reachable then old(entries)[ListKey(domain, user, repo) := list] else old(entries)
    {
      if !reachable {
        return Some(CacheUnreachable);
      }
      entries := entries[ListKey(domain, user, repo) := list];
      err := None;
    }

    method GetSumObj(domain: string, trail: string) returns (r: Result<Bytes, CacheError>)
      ensures r == Lookup(SumKey(domain, trail))
    {
      var key := SumKey(domain, trail);
      if !reachable {
        return Failure(CacheUnreachable);
      }
      if key !in entries {
        return Failure(KeyMissing);
      }
      r := Success(entries[key]);
    }

    method SetSumObj(domain: string, trail: string, sum: Bytes) returns (err: Option<CacheError>)
      modifies this`entries
      ensures err == None <==> reachable
      ensures entries == if reachable then old(entries)[SumKey(domain, trail) := sum] else old(entries)
    {
      if !reachable {
        return Some(CacheUnreachable);
      }
      entries := entries[SumKey(domain, trail) := sum];
      err := None;
    }
  }

  /** A list key is 64 characters and a sum key 68, so a module list and a
      checksum entry never share a shared-tier key. */
  lemma ListAndSumKeysDisjoint(sha: Sha256, domain: string, user: string, repo: string, sumDomain: string, trail: string)
    ensures Hex(GetHash(sha, domain, user, repo)) != SumPath(sha, sumDomain, trail)
  {
    assert |Hex(GetHash(sha, domain, user, repo))| == 64;
  }

  // ---------------------------------------------------------------------
  // Running a goroutine

  predicate Succeeds(s: WriteBack, sharedUp: bool, blobUp: bool) {
    match s
    case PutSumBlob(_, _, _) => blobUp
    case SetSumShared(_, _, _) => sharedUp
    case SetListShared(_, _, _, _) => sharedUp
    case SetMemory(_, _) => true
  }

  /** How many writes of the chain run before the first failure. */
  function Completed(steps: seq<WriteBack>, sharedUp: bool, blobUp: bool): (n: nat)
    ensures n <= |steps|
    ensures forall i | 0 <= i < n :: Succeeds(steps[i], sharedUp, blobUp)
    ensures n < |steps| ==> !Succeeds(steps[n], sharedUp, blobUp)
    decreases |steps|
  {
    if steps == [] || !Succeeds(steps[0], sharedUp, blobUp) then 0
    else 1 + Completed(steps[1..], sharedUp, blobUp)
  }

  function MemoryAfter(m: map<string, Bytes>, steps: seq<WriteBack>): map<string, Bytes>
    decreases |steps|
  {
    if steps == [] then m
    else
      var m' := MemoryAfter(m, steps[..|steps| - 1]);
      match steps[|steps| - 1]
      case SetMemory(key, data) => m'[key := data]
      case _ => m'
  }

  function SharedAfter(sha: Sha256, m: map<string, Bytes>, steps: seq<WriteBack>): map<string, Bytes>
    decreases |steps|
  {
    if steps == [] then m
    else
      var m' := SharedAfter(sha, m, steps[..|steps| - 1]);
      match steps[|steps| - 1]
      case SetSumShared(domain, trail, data) => m'[SumPath(sha, domain, trail) := data]
      case SetListShared(domain, user, repo, data) => m'[Hex(GetHash(sha, domain, user, repo)) := data]
      case _ => m'
  }

  function BlobAfter(sha: Sha256, objects: map<string, StoredObject>, steps: seq<WriteBack>): map<string, StoredObject>
    decreases |steps|
  {
    if steps == [] then objects
    else
      var o' := BlobAfter(sha, objects, steps[..|steps| - 1]);
      match steps[|steps| - 1]
      case PutSumBlob(domain, trail, data) => o'[SumPath(sha, domain, trail) := Tagged(sha, data, OctetStream)]
      case _ => o'
  }

  /** Run a chain of writes, stopping at the first that fails. */
  method RunWriteBacks(steps: seq<WriteBack>, mem: MemoryTier, cX: SharedCache, bX: Blobstore)
    modifies mem, cX`entries, bX`objects
    ensures var n := Completed(steps, cX.reachable, bX.reachable);
            mem.entries == MemoryAfter(old(mem.entries), steps[..n])
            && cX.entries == SharedAfter(cX.sha, old(cX.entries), steps[..n])
            && bX.objects == BlobAfter(bX.sha, old(bX.objects), steps[..n])
  {
    var i := 0;
    while i < |steps|
      invariant i <= |steps|
      invariant forall j | 0 <= j < i :: Succeeds(steps[j], cX.reachable, bX.reachable)
      invariant mem.entries == MemoryAfter(old(mem.entries), steps[..i])
      invariant cX.entries == SharedAfter(cX.sha, old(cX.entries), steps[..i])
      invariant bX.objects == BlobAfter(bX.sha, old(bX.objects), steps[..i])
    {
      assert steps[..i + 1][..i] == steps[..i];
      var err: Option<BlobError> := None;
      var cerr: Option<CacheError> := None;
      match steps[i] {
        case PutSumBlob(domain, trail, data) =>
          err := bX.PutSumObject(domain, trail, data);
        case SetSumShared(domain, trail, data) =>
          cerr := cX.SetSumObj(domain, trail, data);
        case SetListShared(domain, user, repo, data) =>
          cerr := cX.SetList(domain, user, repo, data);
        case SetMemory(key, data) =>
          mem.Set(key, data);
      }
      if err.Some? || cerr.Some? {
        break;
      }
      i := i + 1;
    }
    CompletedIsFirstFailure(steps, cX.reachable, bX.reachable, i);
  }

  lemma CompletedIsFirstFailure(steps: seq<WriteBack>, sharedUp: bool, blobUp: bool, i: nat)
    requires i <= |steps|
    requires forall j | 0 <= j < i :: Succeeds(steps[j], sharedUp, blobUp)
    requires i < |steps| ==> !Succeeds(steps[i], sharedUp, blobUp)
    ensures Completed(steps, sharedUp, blobUp) == i
  {
  }

  /** Run one goroutine a handler started. A forced re-fetch runs callProxy
      as written: when it misses the network at the transport level it
      panics outside any recovery, which ends the process; `crashed`
      reports that. */
  method RunGoroutine(g: Goroutine, mem: MemoryTier, cX: SharedCache, bX: Blobstore, up: UpstreamClient, net: Network)
    returns (crashed: bool)
    modifies mem, cX`entries, bX`objects, up`responseMap
    ensures crashed <==> g.Refetch? && ProxyAnswerAsWritten(up.xxh, old(up.responseMap), net, g.url, true) == NilDereference
    ensures g.WriteBacks? ==>
              var n := Completed(g.steps, cX.reachable, bX.reachable);
              mem.entries == MemoryAfter(old(mem.entries), g.steps[..n])
              && cX.entries == SharedAfter(cX.sha, old(cX.entries), g.steps[..n])
              && bX.objects == BlobAfter(bX.sha, old(bX.objects), g.steps[..n])
              && up.responseMap == old(up.responseMap)
    ensures g.Refetch? ==>
              up.responseMap == ProxyCacheAfter(up.xxh, old(up.responseMap), net, g.url, true)
              && mem.entries == old(mem.entries) && cX.entries == old(cX.entries) && bX.objects == old(bX.objects)
  {
    match g
    case WriteBacks(steps) =>
      RunWriteBacks(steps, mem, cX, bX);
      crashed := false;
    case Refetch(url) =>
      var r := up.CallProxyAsWritten(url, true, net);
      crashed := r.NilDereference?;
  }
}
