/** The index synchronizer (pkg/index/index.go).

    It downloads pages of the module index feed from a `since` cursor, keeps
    the decodable entries sorted by timestamp, deduplicates them by path
    keeping the highest semantic version, and for every known module whose
    stored version is strictly lower, upserts the new version and enqueues a
    cache-warm workload split from the module path.

    The feed is a parameter: the reply served for each cursor. JSON decoding
    of a line and version parsing are parameters too. Timestamps are
    integers. The workload channel is the returned sequence of workloads. */
module IndexSync {
  import opened Base
  import opened Semver
  import opened Database

  datatype Index = Index(path: string, version: string, timestamp: int)

  datatype Workload = Workload(domain: string, moduleName: string, version: string)

  function Paths(es: seq<Index>): set<string> {
    set e | e in es :: e.path
  }

  // =====================================================================
  // dedupIndex

  /** One pass of dedupIndex's loop: the first entry seen for a path is
      kept; a later one replaces it only when both versions parse and the
      later one is strictly greater. */
  function DedupStep(parse: Parser, m: map<string, Index>, e: Index): map<string, Index> {
    if e.path !in m then m[e.path := e]
    else
      var x := parse(e.version);
      var y := parse(m[e.path].version);
      if x.Some? && y.Some? && Greater(x.value, y.value) then m[e.path := e] else m
  }

  /** The map dedupIndex has built after reading `es` in order. */
  function DedupMap(parse: Parser, es: seq<Index>): map<string, Index>
    decreases |es|
  {
    if es == [] then map[] else DedupStep(parse, DedupMap(parse, es[..|es| - 1]), es[|es| - 1])
  }

  /** Every input path is a key, every key is an input path, and the entry
      kept for a path is one of the input entries with that path. */
  lemma {:induction false} DedupMapKeys(parse: Parser, es: seq<Index>)
    ensures DedupMap(parse, es).Keys == Paths(es)
    ensures forall p | p in DedupMap(parse, es) :: DedupMap(parse, es)[p] in es && DedupMap(parse, es)[p].path == p
  {
    if es != [] {
      var init, last := es[..|es| - 1], es[|es| - 1];
      DedupMapKeys(parse, init);
      assert es == init + [last];
      assert Paths(es) == Paths(init) + {last.path};
    }
  }

  predicate AllParse(parse: Parser, es: seq<Index>) {
    forall e | e in es :: parse(e.version).Some?
  }

  /** When every version parses, the entry kept for a path has a version no
      input entry with that path exceeds. */
  lemma {:induction false} DedupKeepsHighest(parse: Parser, es: seq<Index>, e: Index)
    requires AllParse(parse, es) && e in es
    ensures e.path in DedupMap(parse, es)
    ensures DedupMap(parse, es)[e.path] in es
    ensures !Less(parse(DedupMap(parse, es)[e.path].version).value, parse(e.version).value)
  {
    var init, last := es[..|es| - 1], es[|es| - 1];
    assert es == init + [last];
    var m0 := DedupMap(parse, init);
    DedupMapKeys(parse, init);
    DedupMapKeys(parse, es);
    var p := e.path;
    if e in init {
      DedupKeepsHighest(parse, init, e);
      if p == last.path {
        var kept := m0[p];
        var x, y := parse(last.version).value, parse(kept.version).value;
        if Greater(x, y) {
          if Less(x, parse(e.version).value) {
            LessTransitive(y, x, parse(e.version).value);
          }
        }
      }
    } else {
      assert e == last;
      if p in m0 {
        var kept := m0[p];
        if Greater(parse(last.version).value, parse(kept.version).value) {
          LessIrreflexive(parse(last.version).value);
        }
      } else {
        LessIrreflexive(parse(last.version).value);
      }
    }
  }

  /** The deduplication example: v1.0.0, v1.2.0 and v0.9.0 of one path
      collapse to the v1.2.0 entry. */
  lemma DedupExample(parse: Parser)
    requires parse("v1.0.0") == Some(Version(1, 0, 0, []))
    requires parse("v1.2.0") == Some(Version(1, 2, 0, []))
    requires parse("v0.9.0") == Some(Version(0, 9, 0, []))
    ensures DedupMap(parse, [Index("a/m", "v1.0.0", 1), Index("a/m", "v1.2.0", 2), Index("a/m", "v0.9.0", 3)])
            == map["a/m" := Index("a/m", "v1.2.0", 2)]
  {
    var es := [Index("a/m", "v1.0.0", 1), Index("a/m", "v1.2.0", 2), Index("a/m", "v0.9.0", 3)];
    assert es[..2][..1] == es[..1];
    assert es[..1][..0] == [];
    assert DedupMap(parse, es[..1]) == map["a/m" := es[0]];
    assert DedupMap(parse, es[..2]) == map["a/m" := es[1]];
  }

  /** dedupIndex: fold the entries into a map, then list the map's values
      in whatever order the map yields them. */
  method DedupIndex(parse: Parser, indices: seq<Index>) returns (out: seq<Index>)
    ensures forall e :: e in out <==> e.path in DedupMap(parse, indices) && DedupMap(parse, indices)[e.path] == e
    ensures forall i, j | 0 <= i < j < |out| :: out[i].path != out[j].path
    ensures |out| == |Paths(indices)| <= |indices|
  {
    var indexMap: map<string, Index> := map[];
    for i := 0 to |indices|
      invariant indexMap == DedupMap(parse, indices[..i])
    {
      var index := indices[i];
      assert indices[..i + 1][..i] == indices[..i];
      if index.path !in indexMap {
        indexMap := indexMap[index.path := index];
        continue;
      }
      var v := indexMap[index.path];
      var x := parse(index.version);
      if x.None? {
        continue;
      }
      var y := parse(v.version);
      if y.None? {
        continue;
      }
      if Greater(x.value, y.value) {
        indexMap := indexMap[index.path := index];
      }
    }
    assert indices[..|indices|] == indices;
    DedupMapKeys(parse, indices);
    out := [];
    var rest := indexMap.Keys;
    while rest != {}
      invariant rest <= indexMap.Keys
      invariant forall e :: e in out <==> e.path in indexMap.Keys - rest && indexMap[e.path] == e
      invariant forall i, j | 0 <= i < j < |out| :: out[i].path != out[j].path
      invariant |out| + |rest| == |indexMap.Keys|
      decreases |rest|
    {
      var p :| p in rest;
      out := out + [indexMap[p]];
      rest := rest - {p};
    }
    PathsBound(indices);
  }

  lemma {:induction false} PathsBound(es: seq<Index>)
    ensures |Paths(es)| <= |es|
  {
    if es != [] {
      var init := es[..|es| - 1];
      assert es == init + [es[|es| - 1]];
      assert Paths(es) == Paths(init) + {es[|es| - 1].path};
      PathsBound(init);
    }
  }

  // =====================================================================
  // downloadIndex

  /** What http.Get of the feed URL yields: a transport failure, or a
      status and the body's lines. */
  datatype FeedReply = FeedUnreachable | FeedPage(status: int, lines: seq<Bytes>)

  /** The reply the index serves for each `since` cursor. */
  type Feed = int -> FeedReply

  type LineDecoder = Bytes -> Option<Index>

  datatype IndexError = FeedTransport | FeedStatus(code: int)

  /** The decodable lines, in order; the others are skipped. */
  function Decoded(decode: LineDecoder, lines: seq<Bytes>): (es: seq<Index>)
    ensures |es| <= |lines|
    ensures forall e | e in es :: exists l | l in lines :: decode(l) == Some(e)
    decreases |lines|
  {
    if lines == [] then []
    else
      var init := Decoded(decode, lines[..|lines| - 1]);
      match decode(lines[|lines| - 1])
      case None => init
      case Some(e) => init + [e]
  }

  predicate SortedByTime(s: seq<Index>) {
    forall i, j | 0 <= i < j < |s| :: s[i].timestamp <= s[j].timestamp
  }

  /** Insert `e` before the first element with a later timestamp. */
  function InsertByTime(e: Index, s: seq<Index>): seq<Index>
    decreases |s|
  {
    if s == [] || e.timestamp <= s[0].timestamp then [e] + s else [s[0]] + InsertByTime(e, s[1..])
  }

  /** The order sort.Slice leaves: ascending timestamps. sort.Slice is not
      stable, so the source fixes no order among equal timestamps; this
      insertion sort is one of the orders it may produce. */
  function SortByTime(s: seq<Index>): seq<Index>
    decreases |s|
  {
    if s == [] then [] else InsertByTime(s[0], SortByTime(s[1..]))
  }

  lemma {:induction false} InsertByTimeSorted(e: Index, s: seq<Index>)
    requires SortedByTime(s)
    ensures SortedByTime(InsertByTime(e, s))
    ensures multiset(InsertByTime(e, s)) == multiset(s) + multiset{e}
    ensures InsertByTime(e, s) != [] && (s != [] ==> InsertByTime(e, s)[0] in {e, s[0]})
    decreases |s|
  {
    if s == [] || e.timestamp <= s[0].timestamp {
    } else {
      InsertByTimeSorted(e, s[1..]);
      var t := InsertByTime(e, s[1..]);
      assert s == [s[0]] + s[1..];
      assert forall k | 0 <= k < |t| :: s[0].timestamp <= t[k].timestamp by {
        forall k | 0 <= k < |t| ensures s[0].timestamp <= t[k].timestamp {
          assert t[k] in multiset(s[1..]) + multiset{e};
          if t[k] in multiset(s[1..]) {
            var i :| 0 <= i < |s[1..]| && s[1..][i] == t[k];
            assert s[i + 1] == t[k];
          }
        }
      }
    }
  }

  lemma {:induction false} SortByTimeCorrect(s: seq<Index>)
    ensures SortedByTime(SortByTime(s))
    ensures multiset(SortByTime(s)) == multiset(s)
    decreases |s|
  {
    if s != [] {
      SortByTimeCorrect(s[1..]);
      InsertByTimeSorted(s[0], SortByTime(s[1..]));
      assert s == [s[0]] + s[1..];
    }
  }

  datatype Page = Page(nextSince: Option<int>, indices: seq<Index>, err: Option<IndexError>)

  /** downloadIndex's result for a reply. */
  function PageOf(reply: FeedReply, decode: LineDecoder): Page
  {
    match reply
    case FeedUnreachable => Page(None, [], Some(FeedTransport))
    case FeedPage(status, lines) =>
      if status != 200 then Page(None, [], Some(FeedStatus(status)))
      else
        var indices := SortByTime(Decoded(decode, lines));
        Page(if |indices| > 0 then Some(indices[|indices| - 1].timestamp) else None, indices, None)
  }

  /** A transport failure or a non-200 status gives no cursor, no entries
      and the error; a 200 page holds exactly the decodable lines, sorted by
      timestamp, and its cursor is the last (and latest) timestamp, or none
      for an empty page. */
  lemma PageOfCorrect(reply: FeedReply, decode: LineDecoder)
    ensures var p := PageOf(reply, decode);
            (reply.FeedUnreachable? ==> p == Page(None, [], Some(FeedTransport)))
            && (reply.FeedPage? && reply.status != 200 ==> p == Page(None, [], Some(FeedStatus(reply.status))))
            && (p.err == None <==> reply.FeedPage? && reply.status == 200)
            && (p.err == None ==> SortedByTime(p.indices) && multiset(p.indices) == multiset(Decoded(decode, reply.lines)))
            && (p.nextSince.Some? <==> p.err == None && p.indices != [])
            && (p.nextSince.Some? ==> p.nextSince.value == p.indices[|p.indices| - 1].timestamp && forall e | e in p.indices :: e.timestamp <= p.nextSince.value)
  {
    if reply.FeedPage? && reply.status == 200 {
      SortByTimeCorrect(Decoded(decode, reply.lines));
    }
  }

  /** downloadIndex: fetch the page for `since`, decode line by line
      skipping bad lines, sort by timestamp, and take the last timestamp as
      the next cursor. */
  method DownloadIndex(feed: Feed, decode: LineDecoder, since: int)
    returns (nextSince: Option<int>, indices: seq<Index>, err: Option<IndexError>)
    ensures Page(nextSince, indices, err) == PageOf(feed(since), decode)
  {
    var get := feed(since);
    if get.FeedUnreachable? {
      return None, [], Some(FeedTransport);
    }
    if get.status != 200 {
      return None, [], Some(FeedStatus(get.status));
    }
    indices := [];
    for i := 0 to |get.lines|
      invariant indices == Decoded(decode, get.lines[..i])
    {
      assert get.lines[..i + 1][..i] == get.lines[..i];
      var index := decode(get.lines[i]);
      if index.None? {
        continue;
      }
      indices := indices + [index.value];
    }
    assert get.lines[..|get.lines|] == get.lines;
    indices := SortByTime(indices);
    nextSince := None;
    if |indices| > 0 {
      var last := indices[|indices| - 1];
      nextSince := Some(last.timestamp);
    }
    err := None;
  }

  // =====================================================================
  // getIndexSince

  /** getIndexSince as written: the loop condition
      `nextSince != nil || err != nil || *nextSince == since` ends the loop in
      its first pass whenever it does not dereference nil, so one page is
      downloaded, and the entries deduplicated are that page's. */
  datatype SinceOutcome = Returned(indices: seq<Index>, nextSince: Option<int>) | NilDereference

  method GetIndexSinceAsWritten(feed: Feed, decode: LineDecoder, parse: Parser, since: int) returns (r: SinceOutcome)
    ensures r == NilDereference <==> PageOf(feed(since), decode) == Page(None, [], None)
    ensures r.Returned? ==> r.nextSince == PageOf(feed(since), decode).nextSince
    ensures r.Returned? ==> forall e :: e in r.indices <==>
              e.path in DedupMap(parse, PageOf(feed(since), decode).indices) && DedupMap(parse, PageOf(feed(since), decode).indices)[e.path] == e
  {
    var nextSince, indices, err := DownloadIndex(feed, decode, since);
    if nextSince == None && err == None {
      return NilDereference;
    }
    var deduped := DedupIndex(parse, indices);
    r := Returned(deduped, nextSince);
  }

  /** The pages getIndexSince is meant to accumulate from `cursor`: keep
      downloading while a page advances the cursor without error, for at
      most `fuel` pages. Returns the entries and the last cursor seen. */
  function Crawl(feed: Feed, decode: LineDecoder, cursor: int, fuel: nat): (seq<Index>, Option<int>)
    decreases fuel
  {
    if fuel == 0 then ([], Some(cursor))
    else
      var p := PageOf(feed(cursor), decode);
      if p.nextSince == None || p.err != None || p.nextSince.value == cursor then (p.indices, p.nextSince)
      else
        var rest := Crawl(feed, decode, p.nextSince.value, fuel - 1);
        (p.indices + rest.0, rest.1)
  }

  /** The intended download loop: fetch from the cursor, break when there
      is no next cursor, on an error, or when the cursor did not advance, and
      accumulate every page, for at most `maxPages` pages. */
  method CrawlPages(feed: Feed, decode: LineDecoder, since: int, maxPages: nat)
    returns (all: seq<Index>, nextSince: Option<int>)
    ensures (all, nextSince) == Crawl(feed, decode, since, maxPages)
  {
    var cursor := since;
    var fuel := maxPages;
    all := [];
    while fuel > 0
      invariant all + Crawl(feed, decode, cursor, fuel).0 == Crawl(feed, decode, since, maxPages).0
      invariant Crawl(feed, decode, cursor, fuel).1 == Crawl(feed, decode, since, maxPages).1
    {
      var next, page, err := DownloadIndex(feed, decode, cursor);
      CrawlUnfold(feed, decode, cursor, fuel);
      if next == None || err != None || next.value == cursor {
        return all + page, next;
      }
      AppendAssoc(all, page, Crawl(feed, decode, next.value, fuel - 1).0);
      all := all + page;
      fuel := fuel - 1;
      cursor := next.value;
    }
    AppendAssoc(all, [], []);
    nextSince := Some(cursor);
  }

  lemma AppendAssoc(a: seq<Index>, b: seq<Index>, c: seq<Index>)
    ensures a + (b + c) == (a + b) + c && a + [] == a
  {
  }

  /** getIndexSince as intended: the crawled pages, deduplicated, and the
      last cursor seen. */
  method GetIndexSince(feed: Feed, decode: LineDecoder, parse: Parser, since: int, maxPages: nat)
    returns (indices: seq<Index>, nextSince: Option<int>)
    ensures nextSince == Crawl(feed, decode, since, maxPages).1
    ensures forall e :: e in indices <==>
              e.path in DedupMap(parse, Crawl(feed, decode, since, maxPages).0)
              && DedupMap(parse, Crawl(feed, decode, since, maxPages).0)[e.path] == e
  {
    var all;
    all, nextSince := CrawlPages(feed, decode, since, maxPages);
    indices := DedupIndex(parse, all);
  }

  /** One page of Crawl. */
  lemma CrawlUnfold(feed: Feed, decode: LineDecoder, cursor: int, fuel: nat)
    requires fuel > 0
    ensures var p := PageOf(feed(cursor), decode);
            if p.nextSince == None || p.err != None || p.nextSince.value == cursor
            then Crawl(feed, decode, cursor, fuel) == (p.indices, p.nextSince)
            else Crawl(feed, decode, cursor, fuel)
                 == (p.indices + Crawl(feed, decode, p.nextSince.value, fuel - 1).0, Crawl(feed, decode, p.nextSince.value, fuel - 1).1)
  {
  }

  /** A page that is empty without error ends the intended loop with no
      cursor and no entries, where the code as written dereferences nil. */
  lemma EmptyPageEndsCrawl(feed: Feed, decode: LineDecoder, since: int, fuel: nat)
    requires fuel > 0 && PageOf(feed(since), decode) == Page(None, [], None)
    ensures Crawl(feed, decode, since, fuel) == ([], None)
  {
  }

  /** The first page is always part of what the intended loop accumulates. */
  lemma FirstPageKept(feed: Feed, decode: LineDecoder, since: int, fuel: nat)
    requires fuel > 0
    ensures HasPrefixSeq(Crawl(feed, decode, since, fuel).0, PageOf(feed(since), decode).indices)
  {
  }

  predicate HasPrefixSeq(s: seq<Index>, p: seq<Index>) {
    |p| <= |s| && s[..|p|] == p
  }

  /** Two pages: the intended loop keeps the entries of both, the code as
      written only those of the first. */
  lemma {:induction false} TwoPageCrawl(feed: Feed, decode: LineDecoder, a: Index, b: Index)
    requires a.timestamp == 5 && b.timestamp == 7
    requires decode([1]) == Some(a) && decode([2]) == Some(b)
    requires feed(0) == FeedPage(200, [[1]]) && feed(5) == FeedPage(200, [[2]]) && feed(7) == FeedPage(200, [])
    ensures Crawl(feed, decode, 0, 3) == ([a, b], None)
    ensures PageOf(feed(0), decode).indices == [a]
  {
    assert [[1 as byte]][..0] == [];
    assert Decoded(decode, [[1]]) == [a];
    assert Decoded(decode, [[2]]) == [b];
    assert [a][1..] == [] && [b][1..] == [];
    assert SortByTime([a]) == [a] && SortByTime([b]) == [b];
    assert PageOf(feed(0), decode) == Page(Some(5), [a], None);
    assert PageOf(feed(5), decode) == Page(Some(7), [b], None);
    assert PageOf(feed(7), decode) == Page(None, [], None);
    CrawlUnfold(feed, decode, 7, 1);
    CrawlUnfold(feed, decode, 5, 2);
    CrawlUnfold(feed, decode, 0, 3);
    assert [a] + [b] == [a, b];
  }

  // =====================================================================
  // RefreshIndex

  /** Where PathRegex `(.+?/)(.+)` splits: the first '/' at index 1 or later
      that has at least one character after it. */
  function SlashFrom(s: string, j: nat): (k: Option<nat>)
    ensures k.Some? ==> j <= k.value < |s| - 1 && s[k.value] == '/'
                        && forall i | j <= i < k.value :: s[i] != '/'
    ensures k.None? ==> forall i | j <= i < |s| - 1 :: s[i] != '/'
    decreases |s| - j
  {
    if j + 1 >= |s| then None
    else if s[j] == '/' then Some(j)
    else SlashFrom(s, j + 1)
  }

  /** The submatches of PathRegex: the domain through the first '/' that
      has a character before it, and the non-empty rest. */
  function SplitPath(path: string): (r: Option<(string, string)>)
    ensures r.None? <==> forall i | 1 <= i < |path| - 1 :: path[i] != '/'
    ensures r.Some? ==> var (domain, moduleName) := r.value;
              domain + moduleName == path && |domain| >= 2 && domain[|domain| - 1] == '/' && |moduleName| >= 1
              && forall i | 1 <= i < |domain| - 1 :: domain[i] != '/'
  {
    match SlashFrom(path, 1)
    case None => None
    case Some(j) =>
      assert path[..j + 1] + path[j + 1..] == path;
      Some((path[..j + 1], path[j + 1..]))
  }

  lemma SplitPathExample()
    ensures SplitPath("github.com/user/repo") == Some(("github.com/", "user/repo"))
  {
    var s := "github.com/user/repo";
    assert forall i | 1 <= i < 10 :: s[i] != '/';
    assert s[10] == '/';
    var k := SlashFrom(s, 1);
    assert k.Some?;
    assert k.value == 10;
    assert s[..11] == "github.com/";
    assert s[11..] == "user/repo";
  }

  datatype RefreshState = RefreshState(records: map<string, string>, queue: seq<Workload>)

  /** One pass of RefreshIndex's loop over a deduplicated entry. */
  function RefreshStep(parse: Parser, readFails: set<string>, writeFails: set<string>,
                       st: RefreshState, e: Index): RefreshState {
    if e.path in readFails || e.path !in st.records then st
    else
      var x := parse(e.version);
      var y := parse(st.records[e.path]);
      if x.None? || y.None? || !Greater(x.value, y.value) || e.path in writeFails then st
      else
        var records := st.records[e.path := e.version];
        match SplitPath(e.path)
        case None => RefreshState(records, st.queue)
        case Some((domain, moduleName)) => RefreshState(records, st.queue + [Workload(domain, moduleName, e.version)])
  }

  function Refreshed(parse: Parser, readFails: set<string>, writeFails: set<string>,
                     st: RefreshState, es: seq<Index>): RefreshState
    decreases |es|
  {
    if es == [] then st
    else RefreshStep(parse, readFails, writeFails, Refreshed(parse, readFails, writeFails, st, es[..|es| - 1]), es[|es| - 1])
  }

  /** A step changes a record only to a strictly greater parseable version,
      and enqueues at most one workload, only after that change, whose
      domain and module name put together give the path back. */
  lemma RefreshStepRule(parse: Parser, readFails: set<string>, writeFails: set<string>, st: RefreshState, e: Index)
    ensures var st' := RefreshStep(parse, readFails, writeFails, st, e);
            st'.records.Keys == st.records.Keys
            && (forall p | p in st.records && p != e.path :: st'.records[p] == st.records[p])
            && (st'.records != st.records ==>
                  e.path in st.records && e.path !in readFails && e.path !in writeFails
                  && st'.records == st.records[e.path := e.version]
                  && parse(e.version).Some? && parse(st.records[e.path]).Some?
                  && Less(parse(st.records[e.path]).value, parse(e.version).value))
            && HasPrefixQueue(st'.queue, st.queue) && |st'.queue| <= |st.queue| + 1
            && (|st'.queue| == |st.queue| + 1 ==>
                  st'.records == st.records[e.path := e.version] && st'.records != st.records
                  && st'.queue[|st.queue|].domain + st'.queue[|st.queue|].moduleName == e.path
                  && st'.queue[|st.queue|].version == e.version)
  {
    var st' := RefreshStep(parse, readFails, writeFails, st, e);
    if st'.records != st.records {
      assert e.path in st.records;
      var y := parse(st.records[e.path]);
      if y.Some? && parse(e.version).Some? && Less(y.value, parse(e.version).value) {
        LessIrreflexive(y.value);
        assert st.records[e.path] != e.version;
      }
    }
    if |st'.queue| == |st.queue| + 1 {
      var y := parse(st.records[e.path]).value;
      LessIrreflexive(y);
      assert st.records[e.path] != e.version;
      assert st'.records[e.path] != st.records[e.path];
    }
  }

  predicate HasPrefixQueue(s: seq<Workload>, p: seq<Workload>) {
    |p| <= |s| && s[..|p|] == p
  }

  /** Over a whole pass, no record disappears or appears, and a stored
      version that changes ends strictly greater than it started. */
  lemma {:induction false} VersionsNeverDecrease(parse: Parser, readFails: set<string>, writeFails: set<string>,
                                                st: RefreshState, es: seq<Index>)
    ensures var st' := Refreshed(parse, readFails, writeFails, st, es);
            st'.records.Keys == st.records.Keys
            && forall p | p in st.records && st'.records[p] != st.records[p] ::
                 parse(st.records[p]).Some? && parse(st'.records[p]).Some?
                 && Less(parse(st.records[p]).value, parse(st'.records[p]).value)
    decreases |es|
  {
    if es != [] {
      var mid := Refreshed(parse, readFails, writeFails, st, es[..|es| - 1]);
      var e := es[|es| - 1];
      VersionsNeverDecrease(parse, readFails, writeFails, st, es[..|es| - 1]);
      RefreshStepRule(parse, readFails, writeFails, mid, e);
      var st' := RefreshStep(parse, readFails, writeFails, mid, e);
      forall p | p in st.records && st'.records[p] != st.records[p]
        ensures parse(st.records[p]).Some? && parse(st'.records[p]).Some?
                && Less(parse(st.records[p]).value, parse(st'.records[p]).value)
      {
        if st'.records[p] != mid.records[p] {
          if mid.records[p] != st.records[p] {
            LessTransitive(parse(st.records[p]).value, parse(mid.records[p]).value, parse(st'.records[p]).value);
          }
        }
      }
    }
  }

  /** Over a whole pass the queue only grows at its end, by at most one
      workload per entry. */
  lemma {:induction false} QueueOnlyGrows(parse: Parser, readFails: set<string>, writeFails: set<string>,
                                         st: RefreshState, es: seq<Index>)
    ensures var st' := Refreshed(parse, readFails, writeFails, st, es);
            HasPrefixQueue(st'.queue, st.queue) && |st'.queue| <= |st.queue| + |es|
    decreases |es|
  {
    if es != [] {
      var init := es[..|es| - 1];
      var mid := Refreshed(parse, readFails, writeFails, st, init);
      QueueOnlyGrows(parse, readFails, writeFails, st, init);
      RefreshStepRule(parse, readFails, writeFails, mid, es[|es| - 1]);
      var st' := RefreshStep(parse, readFails, writeFails, mid, es[|es| - 1]);
      assert st'.queue[..|st.queue|] == st'.queue[..|mid.queue|][..|st.queue|];
    }
  }

  /** Every enqueued workload rebuilds the path of an entry whose version
      was just stored, and carries that version. */
  lemma {:induction false} WorkloadsFollowUpserts(parse: Parser, readFails: set<string>, writeFails: set<string>,
                                                 st: RefreshState, es: seq<Index>)
    ensures var st' := Refreshed(parse, readFails, writeFails, st, es);
            forall k | |st.queue| <= k < |st'.queue| ::
              exists e | e in es :: e.path in st.records && e.path !in writeFails
                && st'.queue[k].domain + st'.queue[k].moduleName == e.path && st'.queue[k].version == e.version
    decreases |es|
  {
    if es != [] {
      var init := es[..|es| - 1];
      var mid := Refreshed(parse, readFails, writeFails, st, init);
      var e := es[|es| - 1];
      WorkloadsFollowUpserts(parse, readFails, writeFails, st, init);
      QueueOnlyGrows(parse, readFails, writeFails, st, init);
      VersionsNeverDecrease(parse, readFails, writeFails, st, init);
      RefreshStepRule(parse, readFails, writeFails, mid, e);
      var st' := RefreshStep(parse, readFails, writeFails, mid, e);
      forall k | |st.queue| <= k < |st'.queue|
        ensures exists e' | e' in es :: e'.path in st.records && e'.path !in writeFails
                  && st'.queue[k].domain + st'.queue[k].moduleName == e'.path && st'.queue[k].version == e'.version
      {
        if k < |mid.queue| {
          assert st'.queue[k] == st'.queue[..|mid.queue|][k] == mid.queue[k];
          var e' :| e' in init && e'.path in st.records && e'.path !in writeFails
                    && mid.queue[k].domain + mid.queue[k].moduleName == e'.path && mid.queue[k].version == e'.version;
          assert e' in es;
        } else {
          assert k == |mid.queue| && |st'.queue| == |mid.queue| + 1;
          assert st'.records != mid.records;
          assert e.path in mid.records && e.path in st.records && e.path !in writeFails;
          assert e in es;
        }
      }
      assert Refreshed(parse, readFails, writeFails, st, es) == st';
    }
  }

  /** The version-monotonicity example: a record at v1.0.0 moves to v1.1.0,
      and stays put for v1.0.0 or v0.9.0. */
  lemma MonotonicityExample(parse: Parser, path: string)
    requires parse("v1.0.0") == Some(Version(1, 0, 0, []))
    requires parse("v1.1.0") == Some(Version(1, 1, 0, []))
    requires parse("v0.9.0") == Some(Version(0, 9, 0, []))
    ensures var st := RefreshState(map[path := "v1.0.0"], []);
            RefreshStep(parse, {}, {}, st, Index(path, "v1.1.0", 0)).records == map[path := "v1.1.0"]
            && RefreshStep(parse, {}, {}, st, Index(path, "v1.0.0", 0)) == st
            && RefreshStep(parse, {}, {}, st, Index(path, "v0.9.0", 0)) == st
  {
    LessIrreflexive(Version(1, 0, 0, []));
  }

  /** RefreshIndex as written: getIndexSince downloads and deduplicates
      one page from `refreshStart` and dereferences nil when that page is
      empty without error, which ends RefreshIndex before any entry is
      looked at (`panicked`). Otherwise, for every known module with a
      strictly lower stored version, the new version is upserted and a
      workload enqueued. Returns the entries in the order they were
      processed and the workloads enqueued. */
  method RefreshIndex(db: ModuleDb, feed: Feed, decode: LineDecoder, parse: Parser, refreshStart: int)
    returns (panicked: bool, processed: seq<Index>, enqueued: seq<Workload>)
    modifies db
    ensures panicked <==> PageOf(feed(refreshStart), decode) == Page(None, [], None)
    ensures panicked ==> processed == [] && enqueued == [] && db.records == old(db.records)
    ensures forall e :: e in processed <==>
              !panicked && e.path in DedupMap(parse, PageOf(feed(refreshStart), decode).indices)
              && DedupMap(parse, PageOf(feed(refreshStart), decode).indices)[e.path] == e
    ensures RefreshState(db.records, enqueued)
            == Refreshed(parse, db.readFails, db.writeFails, RefreshState(old(db.records), []), processed)
  {
    var r := GetIndexSinceAsWritten(feed, decode, parse, refreshStart);
    if r.NilDereference? {
      return true, [], [];
    }
    panicked, processed := false, r.indices;
    enqueued := ApplyIndices(db, parse, processed);
  }

  /** RefreshIndex over the intended crawl of up to `maxPages` pages. */
  method RefreshIndexCrawled(db: ModuleDb, feed: Feed, decode: LineDecoder, parse: Parser, refreshStart: int, maxPages: nat)
    returns (processed: seq<Index>, enqueued: seq<Workload>)
    modifies db
    ensures forall e :: e in processed <==>
              e.path in DedupMap(parse, Crawl(feed, decode, refreshStart, maxPages).0)
              && DedupMap(parse, Crawl(feed, decode, refreshStart, maxPages).0)[e.path] == e
    ensures RefreshState(db.records, enqueued)
            == Refreshed(parse, db.readFails, db.writeFails, RefreshState(old(db.records), []), processed)
  {
    var nextStart;
    processed, nextStart := GetIndexSince(feed, decode, parse, refreshStart, maxPages);
    enqueued := ApplyIndices(db, parse, processed);
  }

  /** RefreshIndex's loop over the deduplicated entries: look the path up,
      compare versions, upsert and enqueue, skipping an entry on any error. */
  method ApplyIndices(db: ModuleDb, parse: Parser, processed: seq<Index>) returns (enqueued: seq<Workload>)
    modifies db
    ensures RefreshState(db.records, enqueued)
            == Refreshed(parse, db.readFails, db.writeFails, RefreshState(old(db.records), []), processed)
  {
    enqueued := [];
    ghost var start := RefreshState(db.records, []);
    for i := 0 to |processed|
      invariant RefreshState(db.records, enqueued) == Refreshed(parse, db.readFails, db.writeFails, start, processed[..i])
    {
      assert processed[..i + 1][..i] == processed[..i];
      var index := processed[i];
      var m, found, err := db.GetGoModuleByPath(index.path);
      if err.Some? || !found {
        continue;
      }
      var x := parse(index.version);
      if x.None? {
        continue;
      }
      var y := parse(m.version);
      if y.None? {
        continue;
      }
      if Greater(x.value, y.value) {
        m := m.(version := index.version);
        err := db.UpsertGoModule(m);
        if err.Some? {
          continue;
        }
        var matches := SplitPath(m.path);
        if matches.None? {
          continue;
        }
        var (uri, moduleName) := matches.value;
        enqueued := enqueued + [Workload(uri, moduleName, m.version)];
      }
    }
    assert processed[..|processed|] == processed;
  }
}
