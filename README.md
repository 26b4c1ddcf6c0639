# goFastCache core in Dafny

goFastCache is a caching proxy for Go modules. The `go` tool asks it for
version lists, `@latest` answers, `.info`, `.mod` and `.zip` files, and
checksum-database tiles. It answers from a chain of tiers. A request misses a
tier when that tier does not hold the answer, and then the next tier is
tried:

- in-process maps with expiry (`listMap`, `cacheMap`, `sumMap`);
- Redis, the shared tier;
- a Minio bucket, the blob tier, whose objects carry a SHA-256 integrity tag;
- the Go module proxy itself, upstream.

An upstream answer is written back to the tiers, mostly from background
goroutines.

This project models that core and proves properties of the model:

| module | file | models |
|---|---|---|
| `Base` | `base.dfy` | byte strings, `Option`, `Result`, prefix/suffix/substring predicates |
| `Hash` | `hash.dfy` | storage-key derivation: `GetBytes`, `GetHash`, lowercase base16 (section 8 of RFC 4648), the `4/4/4/4/48/version` shard path, the `.mod`/`.zip`/`.info`/`.sum` paths, `GetLatestHash`, `GetExtendedHash` |
| `BlobStorage` | `blobstorage.dfy` | the checksum-verified object store: `createBucket`, `putStream` and its wrappers, `getObject`, `removeObject`, the `Get*Object`/`Put*Object` coordinate wrappers |
| `Upstream` | `upstream.dfy` | `callProxy` with its URL-keyed response map, and the `CallUpstream*` URL builders |
| `Semver` | `semver.dfy` | precedence of parsed versions (section 11 of Semantic Versioning 2.0.0), as the index uses it |
| `Database` | `database.dfy` | the two module-record operations the index and `GetX` call: `GetGoModuleByPath`, `UpsertGoModule` |
| `IndexSync` | `index.dfy` | `dedupIndex`, `downloadIndex`, `getIndexSince`, `RefreshIndex`, the `PathRegex` split and the workloads |
| `Tiers` | `tiers.dfy` | responses and cache headers, the in-process map, the Redis wrapper the handlers call (`GetList`, `SetList`, `GetSumObj`, `SetSumObj`), and the background write-backs |
| `SumDbRoute`, `ListRoute`, `LatestRoute`, `ModRoute`, `ZipRoute`, `InfoRoute` | `sumdb.dfy` … `info.dfy` | the per-kind handlers of `pkg/routes` |
| `Routes` | `routes.dfy` | the generic cascade of `pkg/routes/routes.go`: `CachedLookup`, `SetCache`, `GetXNoVersion`, `GetX`, `GetList`, `GetLatest` |
| `Router` | `router.dfy` | `CustomRouter` and `VersionRouter`: path classification by suffix tests and the two regular expressions |

How the model is built:

- **Byte strings.** A Go `string` is a Dafny `string` whose characters are its
  bytes. A `[]byte` is a `seq<byte>`.
- **Foreign functions are parameters.** SHA-256, xxh3 and xxh3-128 are
  functions of known output length. So are JSON decoding and encoding, the
  semver parser, `http.Get` (a function from URL to reply), and the index
  feed (a function from cursor to page). Decoding an `.info` body gives an
  object, `null` (which Go leaves as a nil map without an error) or an
  error.
- **Tiers are objects.** Each tier that a handler updates in place is a class
  with a `map` field: `MemoryTier`, `SharedCache`, `Blobstore`,
  `UpstreamClient.responseMap` and `ModuleDb`.
- **Handlers are methods.** Each handler returns an `Outcome` holding:
  - the response: written with status, headers and body; aborted with a
    status; or nothing written;
  - the goroutines it started, as data;
  - the tiers it probed, in order;
  - the upstream URLs it called.
- **Goroutines are data.** A write-back goroutine is a chain of writes that
  stops at its first failure. `RunWriteBacks` and `RunGoroutine` run one, so
  a property about a later request can run the earlier request's goroutines
  first.

## Model

| member | source | states |
|---|---|---|
| Hash.GetBytes | pkg/hash/hash.go:9-15 | the buffer is domain, user and repo appended with no separator; its length is the sum of the three lengths |
| Hash.GetHashDependsOnConcatenation | pkg/hash/hash.go:17-20 | coordinates whose concatenations are equal get the same digest |
| Hash.CoordinateCollision | pkg/hash/hash.go:17-20 | ("ab", "", "c") and ("a", "bc", "") get the same digest |
| Hash.HexAt | pkg/hash/hash.go:41 | the encoding has two digits per byte, high nibble first |
| Hash.HexIsLowercase | pkg/hash/hash.go:41 | every character of an encoding is a lowercase hex digit |
| Hash.UnhexHex | pkg/hash/hash.go:41 | decoding an encoding gives the bytes back |
| Hash.HexInjective | pkg/hash/hash.go:61 | distinct digests have distinct encodings |
| Hash.BytesStrRoundTrip | pkg/routes/list.go:26 | a digest turned into a Go string converts back to the same bytes |
| Hash.ShardLayout | pkg/hash/hash.go:42 | the shard prefix is 68 characters with '/' at 4, 9, 14 and 19; dropping the separators gives the 64-digit hex back |
| Hash.MinioPath | pkg/hash/hash.go:39-43 | the path is 69 characters longer than the version |
| Hash.MinioPathLayout | pkg/hash/hash.go:39-43 | the path is h[0:4]/h[4:8]/h[8:12]/h[12:16]/h[16:64]/version, where h is the hex of GetHash |
| Hash.MinioPathInjective | pkg/hash/hash.go:39-43 | two coordinates share a path exactly when they share a digest and a version |
| Hash.KindPathsDistinct | pkg/hash/hash.go:45-54 | the .mod, .zip and .info paths are the base path plus their suffix, and are pairwise distinct |
| Hash.ModPath | pkg/hash/hash.go:45-47 | the getMinioPath base followed by ".mod", 73 characters longer than the version |
| Hash.ZipPath | pkg/hash/hash.go:48-50 | the getMinioPath base followed by ".zip", 73 characters longer than the version |
| Hash.InfoPath | pkg/hash/hash.go:52-54 | the getMinioPath base followed by ".info", 74 characters longer than the version |
| Hash.ModPathInjective | pkg/hash/hash.go:45-47 | equal .mod paths mean equal digests and equal versions |
| Hash.LatestHash | pkg/hash/hash.go:60-62 | GetLatestHash has 64 characters |
| Hash.LatestHashIsLowerHex | pkg/hash/hash.go:60-62 | GetLatestHash is 64 lowercase hex digits |
| Hash.SumPath | pkg/hash/hash.go:56-58 | the sum path is 68 characters ending in ".sum", and its first 64 are GetLatestHash(domain, "", trail) |
| Hash.SumPathNotVersioned | pkg/hash/hash.go:45-58 | a sum path is never a .mod, .zip or .info path |
| Hash.ExtensionBytesDecode | pkg/hash/hash.go:28-35 | the eight bytes `0xff & (x >> 8i)`, read back little-endian, give x |
| Hash.GetExtendedHashAsWritten | pkg/hash/hash.go:22-37 | the buffer has length 0, so copy writes nothing and the first element write is out of range at index 32 of length 0 |
| Hash.GetExtendedHash | pkg/hash/hash.go:22-37 | the intended key is 40 bytes: the 32-byte digest, then byte i of xxh3(X) at 32+i |
| Hash.ExtendedKeyDetermines | pkg/hash/hash.go:22-37 | equal extended keys mean equal coordinate digests and equal xxh3(X) |
| BlobStorage.NotFoundTextOnlyInNoSuchKey | pkg/blobstorage/blobstorage.go:187-189 | an error contains "The specified key does not exist" exactly when it is the store's not-found error |
| BlobStorage.Verify | pkg/blobstorage/blobstorage.go:124-149 | too few bytes is a short read, checked first; then an absent tag is "checksum not found"; then a wrong tag is "checksums do not match"; success returns bytes whose tag is their hex SHA-256 |
| BlobStorage.TruncatedIsShortRead | pkg/blobstorage/blobstorage.go:130-132 | a truncated object fails as a short read whatever its tag |
| BlobStorage.UntaggedNotFound | pkg/blobstorage/blobstorage.go:135-138 | an object written without metadata fails with "checksum not found" |
| BlobStorage.ReplacedBytesMismatch | pkg/blobstorage/blobstorage.go:141-147 | bytes replaced under the original tag fail with "checksums do not match" |
| BlobStorage.ReadAfterPut | pkg/blobstorage/blobstorage.go:102-150 | what putStream stores, getObject reads back exactly |
| BlobStorage.ReadAfterRemove | pkg/blobstorage/blobstorage.go:152-154 | after removal the path reads as not found |
| BlobStorage.Classify | pkg/blobstorage/blobstorage.go:179-192 | the wrappers' tri-state: (obj, true, nil) on success, (nil, false, nil) on not found, (nil, false, err) otherwise |
| BlobStorage.Blobstore.CreateBucket | pkg/blobstorage/blobstorage.go:69-84 | MakeBucket is called only when the bucket is absent; any client error is returned |
| BlobStorage.Blobstore.PutObject | pkg/blobstorage/blobstorage.go:111 | the client stores the bytes, size, metadata and content type at the path and changes no other path |
| BlobStorage.Blobstore.PutStream | pkg/blobstorage/blobstorage.go:102-112 | the bytes are stored at the path, tagged with their hex SHA-256 and the given content type, overwriting; no other path changes |
| BlobStorage.Blobstore.PutString | pkg/blobstorage/blobstorage.go:86-88 | putStream with text/plain |
| BlobStorage.Blobstore.PutBytes | pkg/blobstorage/blobstorage.go:90-92 | putStream with application/octet-stream |
| BlobStorage.Blobstore.PutJson | pkg/blobstorage/blobstorage.go:94-100 | a marshalling failure stores nothing; otherwise putStream of the marshalled bytes with application/json |
| BlobStorage.Blobstore.GetObject | pkg/blobstorage/blobstorage.go:114-150 | the read result for the current bucket; a success carries bytes whose stored tag is their hex SHA-256 |
| BlobStorage.Blobstore.RemoveObject | pkg/blobstorage/blobstorage.go:152-154 | the path is deleted when the store is reachable, and nothing else changes |
| BlobStorage.Blobstore.GetModObject | pkg/blobstorage/blobstorage.go:179-192 | the tri-state result of reading the .mod path |
| BlobStorage.Blobstore.GetModuleSourceObject | pkg/blobstorage/blobstorage.go:201-214 | the tri-state result of reading the .zip path |
| BlobStorage.Blobstore.GetSumObject | pkg/blobstorage/blobstorage.go:223-236 | the tri-state result of reading the sum path |
| BlobStorage.Blobstore.GetInfoObject | pkg/blobstorage/blobstorage.go:156-169 | found exactly when the read succeeds, even when JSON decoding then fails (and the decode error is returned); a stored JSON `null` is found with no map and no error; not found only for the not-found error |
| BlobStorage.Blobstore.PutModObject | pkg/blobstorage/blobstorage.go:194-199 | putBytes at the .mod path |
| BlobStorage.Blobstore.PutModuleSourceObject | pkg/blobstorage/blobstorage.go:216-221 | putBytes at the .zip path |
| BlobStorage.Blobstore.PutInfoObject | pkg/blobstorage/blobstorage.go:171-177 | putBytes of the raw bytes at the .info path |
| BlobStorage.Blobstore.PutSumObject | pkg/blobstorage/blobstorage.go:238-243 | putBytes at the sum path |
| BlobStorage.PutThenGetMod | pkg/blobstorage/blobstorage.go:179-199 | PutModObject then GetModObject for one coordinate returns (payload, true, nil) |
| BlobStorage.PutThenGetZip | pkg/blobstorage/blobstorage.go:201-221 | the same round trip for .zip objects |
| BlobStorage.PutThenGetSum | pkg/blobstorage/blobstorage.go:223-243 | the same round trip for sum objects |
| BlobStorage.RemoveThenGet | pkg/blobstorage/blobstorage.go:114-154 | after removeObject(p), getObject(p) fails as not found |
| BlobStorage.CreateBucketTwice | pkg/blobstorage/blobstorage.go:69-84 | two calls succeed, and MakeBucket runs at most once |
| Upstream.UrlKey | pkg/upstream/upstream.go:21-22 | the response-map key is the 16 raw bytes of xxh3-128 of the URL |
| Upstream.ProxyAnswer | pkg/upstream/upstream.go:20-55 | callProxy's corrected answer: it errs exactly on a miss without a reply, an error has no body and status 0, and a re-fetch of the URL is scheduled exactly on a hit |
| Upstream.ProxyCacheAfter | pkg/upstream/upstream.go:49-54 | the response map only gains the URL's key, every other entry is kept, and it changes only on a miss whose reply body is under 1 MiB, to that reply |
| Upstream.ProxyAnswerAsWritten | pkg/upstream/upstream.go:37-41 | a nil dereference only where the corrected answer is the transport error; otherwise the corrected answer, which is then never the transport error |
| Upstream.HitAnswersFromCache | pkg/upstream/upstream.go:24-33 | a non-forced call with an entry returns its body and status with no error, leaves the map unchanged, and starts exactly one forced re-fetch of the same URL |
| Upstream.ForcedIgnoresCache | pkg/upstream/upstream.go:24 | a forced call's answer does not depend on the map and starts no re-fetch |
| Upstream.FailureNotCached | pkg/upstream/upstream.go:37-47 | a transport or body-read failure returns no body, the error and status 0, and leaves the map unchanged |
| Upstream.FetchCachedIffSmall | pkg/upstream/upstream.go:49-54 | a fetch returns the fetched body and status; they are cached exactly when the body is under 1 MiB, whatever the status |
| Upstream.SecondCallServedFromCache | pkg/upstream/upstream.go:24-54 | after a small successful fetch, the next non-forced call for that URL returns the same body and status without fetching |
| Upstream.SharedKeySharesEntry | pkg/upstream/upstream.go:21-33 | two URLs with one key are answered from one entry |
| Upstream.ListUrl | pkg/upstream/upstream.go:57-60 | the proxy origin, then domain/user/repo, then "/@v/list" |
| Upstream.InfoUrl | pkg/upstream/upstream.go:62-65 | the proxy origin, then domain/user/repo, then "/@v/" + version + ".info"; its length is the sum of the parts plus 11 |
| Upstream.ModUrl | pkg/upstream/upstream.go:67-70 | the proxy origin, then domain/user/repo, then "/@v/" + version + ".mod"; its length is the sum of the parts plus 10 |
| Upstream.ModuleSourceUrl | pkg/upstream/upstream.go:71-75 | the proxy origin, then domain/user/repo, then "/@v/" + version + ".zip"; its length is the sum of the parts plus 10 |
| Upstream.LatestUrl | pkg/upstream/upstream.go:77-80 | the proxy origin, then domain/user/repo, then "/@latest" |
| Upstream.SumDbUrl | pkg/upstream/upstream.go:82-84 | "https://" + domain + "/" + trail |
| Upstream.KindUrlsDistinct | pkg/upstream/upstream.go:62-75 | for one coordinate the .info, .mod and .zip URLs are pairwise distinct |
| Upstream.ListLatestDistinct | pkg/upstream/upstream.go:57-80 | the list and latest URLs of one module differ |
| Upstream.ModUrlVersionInjective | pkg/upstream/upstream.go:67-70 | the version can be read back from a .mod URL |
| Upstream.TransportFailureDereferencesNil | pkg/upstream/upstream.go:37-41 | as written, a cache miss on an unreachable upstream dereferences nil; the corrected call returns the error and caches nothing |
| Upstream.AsWrittenAgreesOtherwise | pkg/upstream/upstream.go:20-55 | in every other case the code as written returns what the corrected call returns |
| Upstream.UpstreamClient.CallProxy | pkg/upstream/upstream.go:20-55 | callProxy's answer and new response map; it errs exactly when there is neither a usable entry nor a reply |
| Upstream.UpstreamClient.CallProxyAsWritten | pkg/upstream/upstream.go:20-55 | callProxy as written: a miss on an unreachable upstream dereferences nil and changes nothing; otherwise the answer and response map of the corrected call |
| Upstream.UpstreamClient.CallUpstreamList | pkg/upstream/upstream.go:57-60 | a non-forced call of the corrected callProxy on the list URL |
| Upstream.UpstreamClient.CallUpstreamInfo | pkg/upstream/upstream.go:62-65 | a non-forced call of the corrected callProxy on the .info URL |
| Upstream.UpstreamClient.CallUpstreamMod | pkg/upstream/upstream.go:67-70 | a non-forced call of the corrected callProxy on the .mod URL |
| Upstream.UpstreamClient.CallUpstreamModuleSource | pkg/upstream/upstream.go:71-75 | a non-forced call of the corrected callProxy on the .zip URL |
| Upstream.UpstreamClient.CallUpstreamLatest | pkg/upstream/upstream.go:77-80 | a non-forced call of the corrected callProxy on the latest URL |
| Upstream.UpstreamClient.CallUpstreamSumDb | pkg/upstream/upstream.go:82-84 | a non-forced call of the corrected callProxy on the sum database URL |
| Semver.LessIrreflexive | pkg/index/index.go:60 | no version is greater than itself |
| Semver.LessTransitive | pkg/index/index.go:60 | precedence is transitive |
| Semver.LessAsymmetric | pkg/index/index.go:60 | of two versions at most one is greater |
| Semver.LessTotal | pkg/index/index.go:60 | two different parsed versions are always ordered |
| Semver.PrecedenceExample | pkg/index/index.go:60 | the precedence chain of the standard's section 11 example holds |
| Database.ModuleDb.GetGoModuleByPath | pkg/index/index.go:159-166 | a read error, or found exactly when the path has a record, with that record |
| Database.ModuleDb.UpsertGoModule | pkg/index/index.go:181-185 | an upsert either fails and changes nothing, or sets the path's version |
| IndexSync.DedupMapKeys | pkg/index/index.go:42-63 | the map's keys are exactly the input paths, and each kept entry is an input entry with that path |
| IndexSync.DedupKeepsHighest | pkg/index/index.go:45-62 | when every version parses, no input entry for a path is greater than the kept one |
| IndexSync.DedupExample | pkg/index/index.go:42-69 | v1.0.0, v1.2.0 and v0.9.0 of one path collapse to the v1.2.0 entry |
| IndexSync.DedupIndex | pkg/index/index.go:42-70 | the output holds exactly the kept entries, one per path, and its length is the number of distinct paths, at most the input length |
| IndexSync.PathsBound | pkg/index/index.go:64-69 | there are no more distinct paths than entries |
| IndexSync.Decoded | pkg/index/index.go:100-109 | only lines that decode are kept, so there are no more entries than lines |
| IndexSync.InsertByTimeSorted | pkg/index/index.go:112-114 | inserting into a timestamp-sorted page keeps it sorted and adds exactly that entry |
| IndexSync.SortByTimeCorrect | pkg/index/index.go:112-114 | the sorted page is in ascending timestamp order and a permutation of the decoded entries |
| IndexSync.PageOfCorrect | pkg/index/index.go:78-123 | a transport failure or non-200 gives the error, no cursor and no entries; a 200 gives the decodable lines sorted, and the cursor is the last (and latest) timestamp, or none for an empty page |
| IndexSync.DownloadIndex | pkg/index/index.go:78-123 | the loop's result is the page PageOfCorrect describes |
| IndexSync.GetIndexSinceAsWritten | pkg/index/index.go:18-40 | as written, one page is downloaded and deduplicated, and a page that is empty without error dereferences nil |
| IndexSync.GetIndexSince | pkg/index/index.go:18-40 | the intended loop deduplicates the entries of every page it crawled, and returns the last cursor seen |
| IndexSync.CrawlPages | pkg/index/index.go:26-34 | the intended loop accumulates exactly the pages the page-by-page crawl describes, and returns the last cursor |
| IndexSync.CrawlUnfold | pkg/index/index.go:26-34 | one pass of the intended loop: stop on no cursor, an error or a cursor that did not move; otherwise continue from the new cursor |
| IndexSync.EmptyPageEndsCrawl | pkg/index/index.go:26-34 | a page that is empty without error ends the intended loop with nothing and no cursor |
| IndexSync.FirstPageKept | pkg/index/index.go:26-34 | the first page is always a prefix of what the intended loop accumulates |
| IndexSync.TwoPageCrawl | pkg/index/index.go:18-40 | on a two-page feed the intended loop keeps both pages, while the loop as written keeps only the first |
| IndexSync.SlashFrom | pkg/index/index.go:138 | the first '/' at or after j that has a character after it |
| IndexSync.SplitPath | pkg/index/index.go:138 | `(.+?/)(.+)`: the domain runs through the first '/' that has a character before it, the module name is the non-empty rest, and together they give the path; no such '/' means no match |
| IndexSync.SplitPathExample | pkg/index/index.go:138 | "github.com/user/repo" splits into "github.com/" and "user/repo" |
| IndexSync.RefreshStepRule | pkg/index/index.go:156-200 | one entry changes only its own record, only when the path is known, readable and writable, and only to a strictly greater parseable version; a workload is enqueued only after that change, and its domain and module name give the path back |
| IndexSync.VersionsNeverDecrease | pkg/index/index.go:159-185 | over a pass no record appears or disappears, and a changed version ends strictly greater |
| IndexSync.QueueOnlyGrows | pkg/index/index.go:178-198 | a pass only appends to the workload queue, at most one workload per entry |
| IndexSync.WorkloadsFollowUpserts | pkg/index/index.go:178-198 | every enqueued workload rebuilds the path of a known, writable entry and carries that entry's version |
| IndexSync.MonotonicityExample | pkg/index/index.go:148-201 | a record at v1.0.0 moves to v1.1.0, and stays for v1.0.0 or v0.9.0 |
| IndexSync.RefreshIndex | pkg/index/index.go:148-201 | as written, a first page that is empty without error panics before any record is read; otherwise that one page's deduplicated entries are processed entry by entry, and the records and the queue end as the step rule says |
| IndexSync.RefreshIndexCrawled | pkg/index/index.go:148-201 | the intended refresh: the deduplicated entries of every crawled page are processed, and the records and the queue end as the step rule says |
| IndexSync.ApplyIndices | pkg/index/index.go:156-200 | the loop over the entries: the records and the queue end as the step rule, applied entry by entry, says |
| Tiers.MemoryTier.Set | pkg/routes/latest.go:40 | the key now maps to the value and nothing else changes |
| Tiers.SharedCache.GetList | pkg/cache/cache.go:39-43 | the value under the hex digest of the coordinate; a missing key or an unreachable Redis is an error |
| Tiers.SharedCache.SetList | pkg/cache/cache.go:45-50 | stores under the hex digest; fails, changing nothing, exactly when Redis is unreachable |
| Tiers.SharedCache.GetSumObj | pkg/cache/cache.go:52-56 | the value under the sum path, or an error |
| Tiers.SharedCache.SetSumObj | pkg/cache/cache.go:58-63 | stores under the sum path; fails, changing nothing, exactly when Redis is unreachable |
| Tiers.ListAndSumKeysDisjoint | pkg/cache/cache.go:39-63 | a list key is never a sum key |
| Tiers.Completed | pkg/routes/sumdb.go:102-114 | the number of writes before the first failure |
| Tiers.CompletedIsFirstFailure | pkg/routes/sumdb.go:102-114 | that number is the index of the first failing write |
| Tiers.RunWriteBacks | pkg/routes/sumdb.go:102-114 | the chain runs in order and stops at the first failing write; each tier ends as the completed prefix leaves it |
| Tiers.RunGoroutine | pkg/upstream/upstream.go:29-31 | a write-back goroutine runs its chain; a re-fetch goroutine is a forced callProxy as written, and it crashes the process exactly when the upstream is unreachable |
| SumDbRoute.SumDBRouter | pkg/routes/sumdb.go:16-115 | the four-tier cascade. Memory hit: reason memory, writes to blob then shared. Shared hit: reason cache, writes to shared then blob. Blob error: nothing written. Blob hit: reason blob, writes to shared then memory. Upstream error: 500. Non-200: relayed without headers or writes. 200: X-From-Cache false, writes to blob, shared and memory. The memory key is the sum path for lookup and set |
| SumDbRoute.MemoryHitWriteBackServes | pkg/routes/sumdb.go:25-43 | after the memory-hit write-back, the entry is still served from memory, whether or not the shared tier and blob storage are reachable |
| SumDbRoute.SharedHitWriteBackServes | pkg/routes/sumdb.go:47-65 | after the shared-hit write-back, the entry is served with the same body, whether or not blob storage is reachable |
| SumDbRoute.BlobHitWriteBackServes | pkg/routes/sumdb.go:73-86 | after the blob-hit write-back, the entry is served with the same body |
| SumDbRoute.UpstreamWriteBackServes | pkg/routes/sumdb.go:99-114 | after the upstream write-back, however far it got, the body is served from a tier |
| SumDbRoute.AnswerFromCache | pkg/routes/sumdb.go:16-86 | when a tier serves the body, the router answers 200 with it and calls no upstream |
| SumDbRoute.RepeatRequestServedFromCache | pkg/routes/sumdb.go:16-115 | once a 200 has been answered and its goroutines have run, the same request is answered from a tier with the same body and no upstream call, whichever tiers are reachable |
| ListRoute.ListMemoryKey | pkg/routes/list.go:26 | the listMap key is the raw 32-byte digest as a string |
| ListRoute.HandleList | pkg/routes/list.go:15-75 | memory hit: reason memory, defers a shared write only. Shared hit: reason cache, then listMap is set. Any shared error is a miss with exactly one upstream call. Upstream error: 500. Non-200: relayed, no tier written. 200: SetList must succeed first (500 and no listMap set otherwise), X-From-Cache false, then listMap is set |
| ListRoute.RepeatListServedFromMemory | pkg/routes/list.go:15-75 | after a 200 and its goroutines, the same request is a listMap hit with the same body |
| ListRoute.RunListGoroutines | pkg/routes/list.go:29-74 | running a 200 answer's goroutines leaves listMap holding the answered body under the coordinate's key |
| LatestRoute.HandleLatest | pkg/routes/latest.go:13-44 | the key is GetLatestHash and only cacheMap and upstream are consulted. Hit: reason memory. Upstream error: 500. Non-200: relayed, cacheMap unchanged. 200: cacheMap set before the response, X-From-Cache false |
| LatestRoute.RepeatLatestServedFromMemory | pkg/routes/latest.go:13-44 | after a 200, the same request is a cacheMap hit with the same body and no upstream call |
| ModRoute.HandleMod | pkg/routes/mod.go:9-48 | a blob error is a 500 with no upstream call; found is 200 with the blob bytes and no cache headers. On a miss: upstream error 500; non-200 relayed and blob not written; 200 puts the object (500 if that fails) and answers the upstream bytes |
| ModRoute.RepeatModServedFromBlob | pkg/routes/mod.go:39-47 | after a successful miss, blob holds the bytes at the .mod path and a repeat request is served from blob |
| ZipRoute.HandleZip | pkg/routes/zip.go:10-53 | a blob error is 500. Found: 200 application/zip, reason blob, no upstream call. Miss: upstream error 500; non-200 relayed without writing blob; 200 put into blob (500 on failure), X-From-Cache false |
| ZipRoute.DownloadZip | pkg/routes/zip.go:55-69 | an unreachable upstream on a response-map miss crashes the preload and stores nothing; otherwise it fetches with an empty repo and stores whatever came back at (domain, user, "", version), even after a body-read error or a non-200 |
| ZipRoute.FailedPreloadServesEmptyArchive | pkg/routes/zip.go:55-69 | a preload whose body read failed stores an empty object, which HandleZip then serves as a 200 from blob |
| ZipRoute.UnreachablePreloadStoresNothing | pkg/routes/zip.go:55-69 | a preload on an unreachable upstream crashes after one upstream call, and the .zip path still reads as not found |
| InfoRoute.Annotated | pkg/routes/info.go:54-58 | the map with "source" set and every other key unchanged |
| InfoRoute.HandleInfo | pkg/routes/info.go:11-63 | a blob error, including an undecodable stored object, is 500. Found: 200 with source "blob"; a stored `null` panics with nothing written. Miss: upstream error 500; non-200 relayed, blob not written; undecodable 200 is 500 and not stored; otherwise the raw bytes are stored (500 on failure), then a `null` body panics with nothing written and an object is answered with source "upstream" |
| InfoRoute.RepeatInfoServedFromBlob | pkg/routes/info.go:11-63 | after a successful miss, a repeat request is served from blob with source "blob" |
| InfoRoute.NullInfoPanicsForGood | pkg/routes/info.go:20-58 | an upstream 200 of JSON `null` with blob reachable is stored and panics; the repeat request is a blob hit that panics again with nothing written and no upstream call |
| Routes.SharedKv.Set | pkg/routes/routes.go:198 | the key is stored with its TTL when the shared tier is reachable, and nothing changes otherwise |
| Routes.BlobKv.Put | pkg/routes/routes.go:204 | the key is stored when blob is reachable, and nothing changes otherwise |
| Routes.CachedLookup | pkg/routes/routes.go:168-186 | memory, then shared, then blob, skipping absent tiers; the first that holds the key answers, and none holding it is a miss |
| Routes.CachedLookupAsWritten | pkg/routes/routes.go:168-186 | the memory probe reads ListExpireMap whenever memcache is present; it agrees with the intended lookup when memcache is that map or absent |
| Routes.WrongMapCounterexample | pkg/routes/routes.go:170 | a memcache other than ListExpireMap that holds the key is missed as written and hit as intended |
| Routes.EffectiveTtl | pkg/routes/routes.go:193-198 | the given TTL, or one minute when none is given |
| Routes.SetCache | pkg/routes/routes.go:188-210 | every present tier stores the value under the key, the shared tier with the intended TTL; write failures are only logged |
| Routes.SetThenLookup | pkg/routes/routes.go:168-210 | after SetCache into memory, a reachable shared tier or, as GetInfo, GetMod and GetZip use it, reachable blob storage alone, the lookup returns the value |
| Routes.SetCacheAsWritten | pkg/routes/routes.go:193-198 | as written, a non-nil TTL is replaced by one minute, and a nil TTL with a shared tier dereferences nil |
| Routes.TtlCounterexample | pkg/routes/routes.go:194-198 | GetLatest's thirty seconds become one minute as written, and a nil TTL panics where one minute is meant |
| Routes.GetXNoVersion | pkg/routes/routes.go:119-136 | the intended cascade: a hit is (value, nil, 200) with no upstream call and no writes; a failure or non-200 returns no body and writes nothing; a 200 is stored in every present tier and returned |
| Routes.GetX | pkg/routes/routes.go:138-166 | the intended GetX: as GetXNoVersion; a 200 also upserts (uri, version) when the database is present, and an upsert failure does not change the answer |
| Routes.GetXNoVersionAsWritten | pkg/routes/routes.go:119-136 | as written: the lookup probes ListExpireMap; a 200 after a miss writes memcache, then panics when a shared tier is present and no TTL is given; otherwise it is stored with a one-minute TTL in every present tier and returned |
| Routes.GetXAsWritten | pkg/routes/routes.go:138-166 | as GetXNoVersionAsWritten; a 200 that does not panic also upserts (uri, version) when the database is present |
| Routes.KeyIgnoresVersion | pkg/routes/routes.go:138-166 | with only the blob tier, as GetInfo, GetMod and GetZip call it, once one version is stored a request for another version of the same uri gets the first version's bytes |
| Routes.GetList | pkg/routes/routes.go:103-105 | never panics. A hit (probing ListExpireMap) is returned and writes nothing. An upstream error or a non-200 is returned with no body and writes nothing. A 200 is returned and written to memcache, to a reachable shared tier with a one-minute TTL, and to reachable blob storage |
| Routes.GetLatest | pkg/routes/routes.go:107-109 | never panics and uses no blob tier. The lookup probes ListExpireMap rather than the map passed in; a hit is returned and writes nothing. An upstream error or a non-200 is returned with no body and writes nothing. A 200 is returned, written to the map passed in, and to a reachable shared tier with a one-minute TTL, not thirty seconds |
| Routes.LatestMissesOwnMap | pkg/routes/routes.go:107-109 | a key held by the map GetLatest is handed, but not by ListExpireMap, goes upstream although the intended lookup hits |
| Router.LastRepoEnd | pkg/router.go:13 | the last position at or below i where `(.+)` can end before "/@" |
| Router.RepoOf | pkg/router.go:24-29 | no match exactly when the trail does not start with '/' or has no "/@" at index 2 or later; otherwise repo is trail[1..i) for the last such i |
| Router.FirstMatch | pkg/router.go:40 | a start it returns is one where the version pattern matches |
| Router.FirstMatchIsLeftmost | pkg/router.go:40 | no earlier start matches, and when none is returned no start matches at all |
| Router.MatchIsShaped | pkg/router.go:12 | a match captures a shaped version and one of mod, zip, info, and the trail holds version + "." + extension where the match starts |
| Router.MatchComplete | pkg/router.go:12 | the converse: wherever a shaped version, ".", and mod, zip or info lie in the trail, the pattern matches there, capturing exactly that version and extension |
| Router.FindVersionComplete | pkg/router.go:40 | a trail holding a shaped version followed by "." and an extension always has a match, starting at that occurrence or before it |
| Router.FindVersion | pkg/router.go:40-47 | the match at the leftmost start where the pattern matches, and no match exactly when it matches at no start; a match is a shaped version (v, three digit runs, optional '-' and word characters) with mod, zip or info, and the trail holds version + "." + extension |
| Router.VersionRouter | pkg/router.go:50-65 | mod, zip and info pick their handler with the version and repo; any other extension is a 400 "unknown file type: " + extension |
| Router.CustomRouter | pkg/router.go:20-48 | 400 exactly when there is no repo capture, or no "@latest"/"list" suffix and no versioned match; every 400 says "invalid path"; "@latest" beats "list"; a versioned route carries the leftmost match's shaped version and extension, and every route carries the captured repo |
| Router.RepoIsLongestCapture | pkg/router.go:13 | "/a/@v/b/@v/list" captures "a/@v/b" |
| Router.AnyListSuffixIsList | pkg/router.go:34-37 | "/a/@v/checklist" routes to list |
| Router.EmptyRepoRejected | pkg/router.go:24-28 | "/@latest" has no repo and is a 400 |

## Left out

- Configuration and connection setup are not modelled: `NewBlobstore`, `NewCache`, `NewDatabase`, `createTables`, `pkg/main.go` and the logger. They are environment reading and I/O.
- Foreign libraries are parameters with no behaviour beyond output length. These are SHA-256, xxh3, xxh3-128, JSON marshalling and unmarshalling, the Masterminds semver parser, `http.Get` with `io.ReadAll`, and `bufio` scanning. Parsed versions follow section 11 of Semantic Versioning 2.0.0, with numbers unbounded rather than 64-bit. Build metadata is not part of a parsed version.
- Expiry is not modelled. The in-process maps, the response map and Redis keep entries forever; TTLs are recorded but never expire anything. The model therefore proves that a repeat request is served from cache only when no expiry intervenes.
- Concurrency is not modelled. Goroutines are returned as data and run one at a time, so interleavings of a goroutine with a later request, and races on the shared `err` variable in `sumdb.go`, are not modelled.
- The worker pool, the hourly refresh loop, the blocking capacity-10 channel and the unfinished `worker` function are left out. The channel is the returned sequence of workloads.
- Timestamps are integers, and the index URL's time formatting is not modelled.
- `IndexSync.SortByTime` is a stable insertion sort, whereas `sort.Slice` is not stable. The model fixes one order among equal timestamps, and the proved properties (sorted, a permutation, the cursor is the last timestamp) hold for any order.
- `IndexSync.GetIndexSince` bounds the intended loop by a page count `maxPages`. A feed that keeps advancing forever is cut off there.
- `IndexSync.RefreshIndex` passes the dedup output in the order it was produced. In Go that order comes from map iteration and is unspecified.
- `IndexSync.SplitPath` and `Router.RepoOf`: in RE2, `.` does not match a newline. `Router.RepoOf` takes this into account. `IndexSync.SplitPath` assumes module paths hold no newline.
- The `isShortRepo` argument that `list.go` and `zip.go` pass to upstream is not part of `upstream.go`'s functions. The handlers call the URL builders without it.
- `hash.GetListPath`, `Blobstore.Get/Put` and `Cache.Get/Set`, which `routes.go` calls, are not part of this model. They are the parameter `listPath` and the classes `Routes.SharedKv` and `Routes.BlobKv`.
- `GetGoModuleByPath` and `UpsertGoModule` are not part of this model's source. `Database.ModuleDb` stands in for them: per-path read and write failures, and a record map.
- The `Handle*` wrappers and `GetInfo`/`GetMod`/`GetZip` in `routes.go` only plumb `gin.Context` or pass fixed arguments to `GetX`. They are not modelled; `Routes.KeyIgnoresVersion` uses the arguments they pass. `GetList` and `GetLatest` are modelled, on the code as written.
- `Routes.GetList`, `Routes.GetLatest`: `ListExpireMap` is a parameter rather than a global.
- gin plumbing is replaced by the `Response` record: `MustGet` assertions, `c.Param`, headers, `c.Data`, `c.JSON` and `AbortWithError`. The error value a handler aborts with is not kept, only its status.
- `InfoRoute.HandleInfo`, `InfoRoute.NullInfoPanicsForGood`: the panic on a JSON `null` document is reported as `panicked` with nothing written; the 500 that the Recovery middleware of `gin.Default()` (`pkg/main.go:30`) then sends is not part of this model.
- `BlobStorage.Blobstore.GetObject`: the read into a buffer is modelled by the object's stored bytes. A read error other than EOF is a store error.
- The comment at `pkg/index/index.go:20` says pages are downloaded in a loop with an advancing cursor, but the code stops after the first page. `IndexSync.RefreshIndex` follows the code, through `IndexSync.GetIndexSinceAsWritten`; the looping behaviour is stated as the corrected `IndexSync.GetIndexSince` and `IndexSync.RefreshIndexCrawled`.
- `SumDbRoute.RepeatRequestServedFromCache`, `ListRoute.RepeatListServedFromMemory`: a background re-fetch that crashes the process (`Tiers.RunGoroutine`) is run and its crash flag dropped, so these describe a process that survives its re-fetches.
- `Upstream.UpstreamClient.CallUpstreamList`, `CallUpstreamInfo`, `CallUpstreamMod`, `CallUpstreamModuleSource`, `CallUpstreamLatest`, `CallUpstreamSumDb` call the corrected `CallProxy`, and the handlers answer its transport error with a 500. As written, a response-map miss on an unreachable upstream panics at `pkg/upstream/upstream.go:38`; during a request that panic reaches the client as a 500 only through the Recovery middleware that `gin.Default()` installs (`pkg/main.go:30`), which is not part of this model.

## Findings

| source | as written | input that shows it | evidently intended | confidence | as-written member | corrected member |
|---|---|---|---|---|---|---|
| pkg/hash/hash.go:24-28 | the key buffer is made with length 0, so `copy` writes nothing and `key[32] = …` indexes past the end | any coordinate and X | a 40-byte key: the digest, then the eight little-endian bytes of xxh3(X) | high (not executed) | Hash.GetExtendedHashAsWritten | Hash.GetExtendedHash |
| pkg/upstream/upstream.go:38 | `get.Status` is read before `err` is checked | a cache miss for a URL whose fetch fails at the transport level (`get` is nil) | return (nil, err, 0) and cache nothing | high (not executed) | Upstream.TransportFailureDereferencesNil | Upstream.UpstreamClient.CallProxy |
| pkg/index/index.go:30 | `nextSince != nil \|\| err != nil \|\| *nextSince == since` stops after the first page, and dereferences nil when that page is empty without error | a 200 page with no decodable lines; and a two-page feed, of which only the first page is kept | keep downloading while the cursor advances without error, accumulating the pages | high (not executed) | IndexSync.GetIndexSinceAsWritten | IndexSync.GetIndexSince |
| pkg/routes/routes.go:170 | the memory probe reads the global ListExpireMap instead of the memcache argument | GetLatest's memcache holds the key and ListExpireMap does not | probe the memcache that was passed in | high (not executed) | Routes.WrongMapCounterexample | Routes.CachedLookup |
| pkg/routes/routes.go:194-198 | the test is inverted: a given TTL is replaced by one minute, and a nil TTL is dereferenced | GetLatest's thirty seconds; SetCache with a shared tier and a nil TTL | keep the given TTL and default a nil one to one minute | high (not executed) | Routes.SetCacheAsWritten | Routes.SetCache |
