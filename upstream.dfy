/** Upstream proxy client with its response cache (pkg/upstream/upstream.go).

    `callProxy` keeps a package-level map from the 16-byte xxh3-128 digest of
    a URL to the (body, status) last fetched for it. A non-forced call that
    finds an entry answers from it and schedules a forced re-fetch of the same
    URL; otherwise the URL is fetched, and a body shorter than 1 MiB is cached
    whatever the status code. The network and xxh3-128 are parameters. */
module Upstream {
  import opened Base
  import opened Hash

  type Digest128 = d: Bytes | |d| == 16 witness seq(16, _ => 0)
  type Xxh128 = Bytes -> Digest128

  /** Bodies of this many bytes or more are not cached. */
  const MaxCachedBody := 1024 * 1024

  const ProxyOrigin := "https://proxy.golang.org/"

  /** What http.Get followed by io.ReadAll yields for a URL. */
  datatype NetReply =
    | TransportFailure       // http.Get returned an error and no response
    | BodyReadFailure        // the response arrived, reading its body failed
    | Reply(status: int, body: Bytes)

  type Network = string -> NetReply

  datatype FetchError = TransportError | BodyReadError

  datatype DataStatus = DataStatus(data: Bytes, status: int)

  /** What callProxy returns, plus the URLs whose forced re-fetch it started
      in the background. */
  datatype ProxyReply = ProxyReply(body: Bytes, err: Option<FetchError>, status: int, refresh: seq<string>)

  /** The response-map key: the raw xxh3-128 digest of the URL as a string. */
  function UrlKey(xxh: Xxh128, url: string): (k: string)
    ensures |k| == 16
  {
    BytesStr(xxh(StrBytes(url)))
  }

  function Hit(xxh: Xxh128, cache: map<string, DataStatus>, url: string, forceUpstream: bool): bool {
    !forceUpstream && UrlKey(xxh, url) in cache
  }

  /** callProxy's answer for a given cache and network. */
  function ProxyAnswer(xxh: Xxh128, cache: map<string, DataStatus>, net: Network, url: string, forceUpstream: bool): (r: ProxyReply)
    ensures r.err.Some? <==> !Hit(xxh, cache, url, forceUpstream) && !net(url).Reply?
    ensures r.err.Some? ==> r.body == [] && r.status == 0
    ensures r.refresh == if Hit(xxh, cache, url, forceUpstream) then [url] else []
  {
    if Hit(xxh, cache, url, forceUpstream) then
      var k := cache[UrlKey(xxh, url)];
      ProxyReply(k.data, None, k.status, [url])
    else
      match net(url)
      case TransportFailure => ProxyReply([], Some(TransportError), 0, [])
      case BodyReadFailure => ProxyReply([], Some(BodyReadError), 0, [])
      case Reply(status, body) => ProxyReply(body, None, status, [])
  }

  /** The response map after callProxy. */
  function ProxyCacheAfter(xxh: Xxh128, cache: map<string, DataStatus>, net: Network, url: string, forceUpstream: bool): (r: map<string, DataStatus>)
    ensures cache.Keys <= r.Keys <= cache.Keys + {UrlKey(xxh, url)}
    ensures forall k | k in cache && k != UrlKey(xxh, url) :: r[k] == cache[k]
    ensures r != cache ==>
              && !Hit(xxh, cache, url, forceUpstream) && net(url).Reply? && |net(url).body| < MaxCachedBody
              && r[UrlKey(xxh, url)] == DataStatus(net(url).body, net(url).status)
  {
    if Hit(xxh, cache, url, forceUpstream) then cache
    else
      match net(url)
      case Reply(status, body) =>
        if |body| < MaxCachedBody then cache[UrlKey(xxh, url) := DataStatus(body, status)] else cache
      case _ => cache
  }

  /** A non-forced call with an entry answers from it without error, leaves
      the map alone and schedules exactly one forced re-fetch of the URL. */
  lemma HitAnswersFromCache(xxh: Xxh128, cache: map<string, DataStatus>, net: Network, url: string)
    requires UrlKey(xxh, url) in cache
    ensures var r := ProxyAnswer(xxh, cache, net, url, false);
            r.body == cache[UrlKey(xxh, url)].data && r.status == cache[UrlKey(xxh, url)].status &&
            r.err == None && r.refresh == [url]
    ensures ProxyCacheAfter(xxh, cache, net, url, false) == cache
  {
  }

  /** A forced call never reads the cache: its answer is the same whatever
      the map holds, and it starts no refresh. */
  lemma ForcedIgnoresCache(xxh: Xxh128, c1: map<string, DataStatus>, c2: map<string, DataStatus>, net: Network, url: string)
    ensures ProxyAnswer(xxh, c1, net, url, true) == ProxyAnswer(xxh, c2, net, url, true)
    ensures ProxyAnswer(xxh, c1, net, url, true).refresh == []
  {
  }

  /** A failed fetch returns no body, status 0 and the error, and caches
      nothing. */
  lemma FailureNotCached(xxh: Xxh128, cache: map<string, DataStatus>, net: Network, url: string, forceUpstream: bool)
    requires !Hit(xxh, cache, url, forceUpstream)
    requires !net(url).Reply?
    ensures var r := ProxyAnswer(xxh, cache, net, url, forceUpstream);
            r.body == [] && r.err.Some? && r.status == 0 && r.refresh == []
    ensures ProxyCacheAfter(xxh, cache, net, url, forceUpstream) == cache
  {
  }

  /** A successful fetch returns the fetched body and status, and caches
      them iff the body is shorter than 1 MiB, whatever the status; no other
      entry changes. */
  lemma FetchCachedIffSmall(xxh: Xxh128, cache: map<string, DataStatus>, net: Network, url: string, forceUpstream: bool)
    requires !Hit(xxh, cache, url, forceUpstream)
    requires net(url).Reply?
    ensures var r := ProxyAnswer(xxh, cache, net, url, forceUpstream);
            r.body == net(url).body && r.status == net(url).status && r.err == None
    ensures var after := ProxyCacheAfter(xxh, cache, net, url, forceUpstream);
            (UrlKey(xxh, url) in after && after[UrlKey(xxh, url)] == DataStatus(net(url).body, net(url).status))
            <==> (|net(url).body| < MaxCachedBody ||
                  (UrlKey(xxh, url) in cache && cache[UrlKey(xxh, url)] == DataStatus(net(url).body, net(url).status)))
    ensures var after := ProxyCacheAfter(xxh, cache, net, url, forceUpstream);
            forall k :: k != UrlKey(xxh, url) ==> (k in after <==> k in cache) && (k in cache ==> after[k] == cache[k])
  {
  }

  /** A small successful fetch is what the next non-forced call for the same
      URL answers, whatever the network does then. */
  lemma {:induction false} SecondCallServedFromCache(xxh: Xxh128, cache: map<string, DataStatus>, net: Network, later: Network,
                                                    url: string, forceUpstream: bool)
    requires !Hit(xxh, cache, url, forceUpstream)
    requires net(url).Reply? && |net(url).body| < MaxCachedBody
    ensures var first := ProxyAnswer(xxh, cache, net, url, forceUpstream);
            var second := ProxyAnswer(xxh, ProxyCacheAfter(xxh, cache, net, url, forceUpstream), later, url, false);
            second == ProxyReply(first.body, None, first.status, [url])
  {
    var after := ProxyCacheAfter(xxh, cache, net, url, forceUpstream);
    assert UrlKey(xxh, url) in after;
    HitAnswersFromCache(xxh, after, later, url);
  }

  /** Two URLs with the same digest share one entry: the cache cannot tell
      them apart. */
  lemma SharedKeySharesEntry(xxh: Xxh128, cache: map<string, DataStatus>, net: Network, u1: string, u2: string)
    requires UrlKey(xxh, u1) == UrlKey(xxh, u2) && UrlKey(xxh, u1) in cache
    ensures ProxyAnswer(xxh, cache, net, u1, false).body == ProxyAnswer(xxh, cache, net, u2, false).body
    ensures ProxyAnswer(xxh, cache, net, u1, false).status == ProxyAnswer(xxh, cache, net, u2, false).status
  {
  }

  // ---------------------------------------------------------------------
  // URL builders

  function ModuleBase(domain: string, user: string, repo: string): string {
    ProxyOrigin + domain + "/" + user + "/" + repo
  }

  function ListUrl(domain: string, user: string, repo: string): (url: string)
    ensures HasPrefix(url, ProxyOrigin) && HasSuffix(url, "/@v/list")
    ensures |url| == |ProxyOrigin| + |domain| + |user| + |repo| + 10
    ensures url[|ProxyOrigin|..|url| - 8] == domain + "/" + user + "/" + repo
  {
    ModuleBase(domain, user, repo) + "/@v/list"
  }

  function VersionedUrl(domain: string, user: string, repo: string, version: string, ext: string): string {
    ModuleBase(domain, user, repo) + "/@v/" + version + ext
  }

  function InfoUrl(domain: string, user: string, repo: string, version: string): (url: string)
    ensures HasPrefix(url, ProxyOrigin) && HasSuffix(url, "/@v/" + version + ".info")
    ensures |url| == |ProxyOrigin| + |domain| + |user| + |repo| + |version| + 11
    ensures url[|ProxyOrigin|..|url| - |version| - 9] == domain + "/" + user + "/" + repo
  {
    VersionedUrl(domain, user, repo, version, ".info")
  }

  function ModUrl(domain: string, user: string, repo: string, version: string): (url: string)
    ensures HasPrefix(url, ProxyOrigin) && HasSuffix(url, "/@v/" + version + ".mod")
    ensures |url| == |ProxyOrigin| + |domain| + |user| + |repo| + |version| + 10
    ensures url[|ProxyOrigin|..|url| - |version| - 8] == domain + "/" + user + "/" + repo
  {
    VersionedUrl(domain, user, repo, version, ".mod")
  }

  function ModuleSourceUrl(domain: string, user: string, repo: string, version: string): (url: string)
    ensures HasPrefix(url, ProxyOrigin) && HasSuffix(url, "/@v/" + version + ".zip")
    ensures |url| == |ProxyOrigin| + |domain| + |user| + |repo| + |version| + 10
    ensures url[|ProxyOrigin|..|url| - |version| - 8] == domain + "/" + user + "/" + repo
  {
    VersionedUrl(domain, user, repo, version, ".zip")
  }

  function LatestUrl(domain: string, user: string, repo: string): (url: string)
    ensures HasPrefix(url, ProxyOrigin) && HasSuffix(url, "/@latest")
    ensures |url| == |ProxyOrigin| + |domain| + |user| + |repo| + 10
    ensures url[|ProxyOrigin|..|url| - 8] == domain + "/" + user + "/" + repo
  {
    ModuleBase(domain, user, repo) + "/@latest"
  }

  function SumDbUrl(domain: string, trail: string): (url: string)
    ensures HasPrefix(url, "https://") && url[8..] == domain + "/" + trail
  {
    "https://" + domain + "/" + trail
  }

  /** For one coordinate the .info, .mod and .zip URLs are pairwise distinct,
      so they never share a response-map entry by accident of the URL. */
  lemma {:induction false} KindUrlsDistinct(domain: string, user: string, repo: string, version: string)
    ensures InfoUrl(domain, user, repo, version) != ModUrl(domain, user, repo, version)
    ensures InfoUrl(domain, user, repo, version) != ModuleSourceUrl(domain, user, repo, version)
    ensures ModUrl(domain, user, repo, version) != ModuleSourceUrl(domain, user, repo, version)
  {
    var p := ModuleBase(domain, user, repo) + "/@v/" + version;
    assert InfoUrl(domain, user, repo, version) == p + ".info";
    assert ModUrl(domain, user, repo, version) == p + ".mod";
    assert ModuleSourceUrl(domain, user, repo, version) == p + ".zip";
    DistinctSuffixes(p, ".info", ".mod");
    DistinctSuffixes(p, ".info", ".zip");
    DistinctSuffixes(p, ".mod", ".zip");
  }

  /** For one module the list and latest URLs differ. */
  lemma {:induction false} ListLatestDistinct(domain: string, user: string, repo: string)
    ensures ListUrl(domain, user, repo) != LatestUrl(domain, user, repo)
  {
    var p := ModuleBase(domain, user, repo);
    assert ListUrl(domain, user, repo)[|p| + 2] == 'v';
    assert LatestUrl(domain, user, repo)[|p| + 2] == 'l';
  }

  /** The version can be read back from a .mod URL: two versions of one
      module never share a .mod URL. */
  lemma {:induction false} ModUrlVersionInjective(domain: string, user: string, repo: string, v1: string, v2: string)
    requires ModUrl(domain, user, repo, v1) == ModUrl(domain, user, repo, v2)
    ensures v1 == v2
  {
    var p := ModuleBase(domain, user, repo) + "/@v/";
    assert ModUrl(domain, user, repo, v1) == p + v1 + ".mod";
    assert ModUrl(domain, user, repo, v2) == p + v2 + ".mod";
    assert |v1| == |v2|;
    assert v1 == (p + v1 + ".mod")[|p|..|p| + |v1|];
    assert v2 == (p + v2 + ".mod")[|p|..|p| + |v2|];
  }

  // ---------------------------------------------------------------------
  // The line 38 defect

  /** callProxy as written: `get.Status` is read before `err` is checked,
      and after a transport failure `get` is nil. */
  datatype AsWrittenReply = Returned(reply: ProxyReply) | NilDereference

  function ProxyAnswerAsWritten(xxh: Xxh128, cache: map<string, DataStatus>, net: Network, url: string, forceUpstream: bool): (r: AsWrittenReply)
    ensures r.NilDereference? ==> ProxyAnswer(xxh, cache, net, url, forceUpstream).err == Some(TransportError)
    ensures r.Returned? ==> r.reply == ProxyAnswer(xxh, cache, net, url, forceUpstream) && r.reply.err != Some(TransportError)
  {
    if !Hit(xxh, cache, url, forceUpstream) && net(url) == TransportFailure then NilDereference
    else Returned(ProxyAnswer(xxh, cache, net, url, forceUpstream))
  }

  /** Any cache miss on an unreachable upstream crashes the code as written,
      where the corrected answer is the transport error. */
  lemma {:induction false} TransportFailureDereferencesNil(xxh: Xxh128, cache: map<string, DataStatus>, net: Network, url: string)
    requires UrlKey(xxh, url) !in cache && net(url) == TransportFailure
    ensures ProxyAnswerAsWritten(xxh, cache, net, url, false) == NilDereference
    ensures ProxyAnswer(xxh, cache, net, url, false) == ProxyReply([], Some(TransportError), 0, [])
    ensures ProxyCacheAfter(xxh, cache, net, url, false) == cache
  {
  }

  /** Everywhere else the code as written agrees with the corrected one. */
  lemma AsWrittenAgreesOtherwise(xxh: Xxh128, cache: map<string, DataStatus>, net: Network, url: string, forceUpstream: bool)
    requires Hit(xxh, cache, url, forceUpstream) || net(url) != TransportFailure
    ensures ProxyAnswerAsWritten(xxh, cache, net, url, forceUpstream) == Returned(ProxyAnswer(xxh, cache, net, url, forceUpstream))
  {
  }

  // ---------------------------------------------------------------------
  // The client

  /** The package-level response map and the functions that read and
      write it. */
  class UpstreamClient {
    const xxh: Xxh128
    var responseMap: map<string, DataStatus>

    constructor (xxh: Xxh128, responseMap: map<string, DataStatus>)
      ensures this.xxh == xxh && this.responseMap == responseMap
    {
      this.xxh := xxh;
      this.responseMap := responseMap;
    }

    /** callProxy, with the nil dereference of line 38 corrected: a
        transport failure returns the error. */
    method CallProxy(url: string, forceUpstream: bool, net: Network) returns (r: ProxyReply)
      modifies this`responseMap
      ensures r == ProxyAnswer(xxh, old(responseMap), net, url, forceUpstream)
      ensures responseMap == ProxyCacheAfter(xxh, old(responseMap), net, url, forceUpstream)
      ensures r.err == None <==> Hit(xxh, old(responseMap), url, forceUpstream) || net(url).Reply?
    {
      var urlHash := BytesStr(xxh(StrBytes(url)));
      if !forceUpstream {
        if urlHash in responseMap {
          var k := responseMap[urlHash];
          return ProxyReply(k.data, None, k.status, [url]);
        }
      }
      var get := net(url);
      if get.TransportFailure? {
        return ProxyReply([], Some(TransportError), 0, []);
      }
      if get.BodyReadFailure? {
        return ProxyReply([], Some(BodyReadError), 0, []);
      }
      var body := get.body;
      if |body| < MaxCachedBody {
        responseMap := responseMap[urlHash := DataStatus(body, get.status)];
      }
      r := ProxyReply(body, None, get.status, []);
    }

    /** callProxy as written: on a miss whose fetch fails at the transport
        level, line 38 reads the status of the nil response and the call
        panics; the response map is then left as it was. */
    method CallProxyAsWritten(url: string, forceUpstream: bool, net: Network) returns (r: AsWrittenReply)
      modifies this`responseMap
      ensures r == ProxyAnswerAsWritten(xxh, old(responseMap), net, url, forceUpstream)
      ensures responseMap == ProxyCacheAfter(xxh, old(responseMap), net, url, forceUpstream)
      ensures r == NilDereference ==> responseMap == old(responseMap)
    {
      if !Hit(xxh, responseMap, url, forceUpstream) && net(url) == TransportFailure {
        return NilDereference;
      }
      var reply := CallProxy(url, forceUpstream, net);
      r := Returned(reply);
    }

    method CallUpstreamList(domain: string, user: string, repo: string, net: Network) returns (r: ProxyReply)
      modifies this`responseMap
      ensures r == ProxyAnswer(xxh, old(responseMap), net, ListUrl(domain, user, repo), false)
      ensures responseMap == ProxyCacheAfter(xxh, old(responseMap), net, ListUrl(domain, user, repo), false)
    {
      r := CallProxy(ListUrl(domain, user, repo), false, net);
    }

    method CallUpstreamInfo(domain: string, user: string, repo: string, version: string, net: Network) returns (r: ProxyReply)
      modifies this`responseMap
      ensures r == ProxyAnswer(xxh, old(responseMap), net, InfoUrl(domain, user, repo, version), false)
      ensures responseMap == ProxyCacheAfter(xxh, old(responseMap), net, InfoUrl(domain, user, repo, version), false)
    {
      r := CallProxy(InfoUrl(domain, user, repo, version), false, net);
    }

    method CallUpstreamMod(domain: string, user: string, repo: string, version: string, net: Network) returns (r: ProxyReply)
      modifies this`responseMap
      ensures r == ProxyAnswer(xxh, old(responseMap), net, ModUrl(domain, user, repo, version), false)
      ensures responseMap == ProxyCacheAfter(xxh, old(responseMap), net, ModUrl(domain, user, repo, version), false)
    {
      r := CallProxy(ModUrl(domain, user, repo, version), false, net);
    }

    method CallUpstreamModuleSource(domain: string, user: string, repo: string, version: string, net: Network) returns (r: ProxyReply)
      modifies this`responseMap
      ensures r == ProxyAnswer(xxh, old(responseMap), net, ModuleSourceUrl(domain, user, repo, version), false)
      ensures responseMap == ProxyCacheAfter(xxh, old(responseMap), net, ModuleSourceUrl(domain, user, repo, version), false)
    {
      r := CallProxy(ModuleSourceUrl(domain, user, repo, version), false, net);
    }

    method CallUpstreamLatest(domain: string, user: string, repo: string, net: Network) returns (r: ProxyReply)
      modifies this`responseMap
      ensures r == ProxyAnswer(xxh, old(responseMap), net, LatestUrl(domain, user, repo), false)
      ensures responseMap == ProxyCacheAfter(xxh, old(responseMap), net, LatestUrl(domain, user, repo), false)
    {
      r := CallProxy(LatestUrl(domain, user, repo), false, net);
    }

    method CallUpstreamSumDb(domain: string, trail: string, net: Network) returns (r: ProxyReply)
      modifies this`responseMap
      ensures r == ProxyAnswer(xxh, old(responseMap), net, SumDbUrl(domain, trail), false)
      ensures responseMap == ProxyCacheAfter(xxh, old(responseMap), net, SumDbUrl(domain, trail), false)
    {
      r := CallProxy(SumDbUrl(domain, trail), false, net);
    }
  }
}
