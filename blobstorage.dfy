/** Checksum-verified object store (pkg/blobstorage/blobstorage.go).

    The Minio bucket is a map from object path to the stored object: its
    bytes, its declared size, its user metadata and its content type. Every
    write through the store tags the object with the lowercase hex SHA-256 of
    its bytes; every read re-computes that digest and refuses an object whose
    tag is missing or different, or whose bytes fall short of the declared
    size. The coordinate wrappers turn an error into a tri-state answer:
    found, not found, or error. */
module BlobStorage {
  import opened Base
  import opened Hash

  /** The user-metadata key holding the integrity tag. */
  const TagKey := "X-Amz-Meta-Sha256"

  const TextPlain := "text/plain"
  const OctetStream := "application/octet-stream"
  const ApplicationJson := "application/json"

  /** What the object store says for a key it does not hold. */
  const NoSuchKeyText := "The specified key does not exist"

  datatype StoredObject = StoredObject(data: Bytes, size: nat, metadata: map<string, string>, contentType: string)

  datatype BlobError =
    | NoSuchKey         // the object store has no object at the path
    | Unreachable       // the object store could not be reached
    | ShortRead         // fewer bytes read than the declared size
    | ChecksumNotFound  // no integrity tag, or an empty one
    | ChecksumMismatch  // the tag differs from the digest of the bytes read
    | MarshalFailed     // json.Marshal refused the value
    | DecodeFailed      // json.Unmarshal refused the stored bytes
  {
    function Message(): string {
      match this
      case NoSuchKey => "The specified key does not exist."
      case Unreachable => "connection refused"
      case ShortRead => "unable to read entire object"
      case ChecksumNotFound => "checksum not found"
      case ChecksumMismatch => "checksums do not match"
      case MarshalFailed => "json: unsupported value"
      case DecodeFailed => "invalid character"
    }
  }

  /** Only the store's own not-found error carries the not-found text. */
  lemma NotFoundTextOnlyInNoSuchKey(e: BlobError)
    ensures Contains(e.Message(), NoSuchKeyText) <==> e == NoSuchKey
  {
    if e == NoSuchKey {
      assert HasPrefix(e.Message(), NoSuchKeyText);
      PrefixContained(e.Message(), NoSuchKeyText);
    } else {
      ShorterDoesNotContain(e.Message(), NoSuchKeyText);
    }
  }

  /** A decoded `.info` document: a JSON object. */
  datatype JsonValue = JString(s: string) | JOther(raw: Bytes)
  type InfoMap = map<string, JsonValue>

  /** What json.Unmarshal into a map makes of a body: an object gives the
      map, `null` leaves the map nil and reports no error, anything else is
      an error. */
  datatype Decoded = Obj(m: InfoMap) | Null | Invalid

  /** The object putStream writes: the bytes, their size, the hex SHA-256
      tag and the content type. */
  function Tagged(sha: Sha256, data: Bytes, contentType: string): StoredObject {
    StoredObject(data, |data|, map[TagKey := Hex(sha(data))], contentType)
  }

  function TagOf(o: StoredObject): string {
    if TagKey in o.metadata then o.metadata[TagKey] else ""
  }

  /** The checks getObject applies to an object it has found: read at most
      the declared size, refuse a short read, then a missing tag, then a tag
      that differs from the digest of the bytes read. */
  function Verify(sha: Sha256, o: StoredObject): (r: Result<Bytes, BlobError>)
    ensures r.Success? ==> o.size <= |o.data| && r.value == o.data[..o.size] && TagOf(o) == Hex(sha(r.value))
    ensures r == Failure(ShortRead) <==> |o.data| < o.size
    ensures r == Failure(ChecksumNotFound) <==> |o.data| >= o.size && TagOf(o) == ""
    ensures r == Failure(ChecksumMismatch)
            <==> |o.data| >= o.size && TagOf(o) != "" && TagOf(o) != Hex(sha(o.data[..o.size]))
    ensures r.Failure? ==> r.error in {ShortRead, ChecksumNotFound, ChecksumMismatch}
  {
    var read := if |o.data| < o.size then |o.data| else o.size;
    if read != o.size then Failure(ShortRead)
    else
      var content := o.data[..o.size];
      var tag := TagOf(o);
      if tag == "" then Failure(ChecksumNotFound)
      else if tag != Hex(sha(content)) then Failure(ChecksumMismatch)
      else Success(content)
  }

  /** getObject on a bucket state. */
  function ReadAt(sha: Sha256, reachable: bool, objects: map<string, StoredObject>, path: string): Result<Bytes, BlobError> {
    if !reachable then Failure(Unreachable)
    else if path !in objects then Failure(NoSuchKey)
    else Verify(sha, objects[path])
  }

  /** Round trip: what putStream stores reads back as exactly the same bytes,
      whatever else the bucket holds. */
  lemma ReadAfterPut(sha: Sha256, objects: map<string, StoredObject>, path: string, data: Bytes, contentType: string)
    ensures ReadAt(sha, true, objects[path := Tagged(sha, data, contentType)], path) == Success(data)
  {
    assert data[..|data|] == data;
  }

  /** After removeObject the path reads as not found. */
  lemma ReadAfterRemove(sha: Sha256, objects: map<string, StoredObject>, path: string)
    ensures ReadAt(sha, true, objects - {path}, path) == Failure(NoSuchKey)
  {
  }

  /** Replacing the bytes while keeping the old tag (the wrong-checksum test)
      is caught whenever the digests differ. */
  lemma ReplacedBytesMismatch(sha: Sha256, original: Bytes, replaced: Bytes, contentType: string)
    requires sha(original) != sha(replaced)
    ensures Verify(sha, StoredObject(replaced, |replaced|, map[TagKey := Hex(sha(original))], contentType))
            == Failure(ChecksumMismatch)
  {
    assert replaced[..|replaced|] == replaced;
    if Hex(sha(original)) == Hex(sha(replaced)) {
      HexInjective(sha(original), sha(replaced));
    }
  }

  /** Writing bytes without any metadata (the no-checksum test) is caught. */
  lemma UntaggedNotFound(sha: Sha256, data: Bytes, contentType: string)
    ensures Verify(sha, StoredObject(data, |data|, map[], contentType)) == Failure(ChecksumNotFound)
  {
  }

  /** The size check comes first: a truncated object is a short read
      whatever its metadata says. */
  lemma TruncatedIsShortRead(sha: Sha256, o: StoredObject)
    requires |o.data| < o.size
    ensures Verify(sha, o) == Failure(ShortRead)
  {
  }

  /** The tri-state answer of the Get*Object wrappers: (object, found, err). */
  datatype Lookup<T> = Lookup(item: Option<T>, found: bool, err: Option<BlobError>)

  function Classify(r: Result<Bytes, BlobError>): (l: Lookup<Bytes>)
    ensures l.found <==> r.Success?
    ensures l.found ==> l.item == Some(r.value) && l.err == None
    ensures !l.found ==> l.item == None
    ensures !l.found && l.err == None <==> r == Failure(NoSuchKey)
    ensures !l.found && l.err != None ==> l.err == Some(r.error)
  {
    if r.Success? then Lookup(Some(r.value), true, None)
    else
      NotFoundTextOnlyInNoSuchKey(r.error);
      if Contains(r.error.Message(), NoSuchKeyText) then Lookup(None, false, None)
      else Lookup(None, false, Some(r.error))
  }

  /** The Blobstore: a bucket of objects behind a client that may be
      unreachable. */
  class Blobstore {
    const sha: Sha256
    const bucketName: string
    var bucketExists: bool
    var objects: map<string, StoredObject>
    var reachable: bool
    /** How many times MakeBucket has been called. */
    ghost var bucketsMade: nat

    constructor (sha: Sha256, bucketName: string, bucketExists: bool,
                 objects: map<string, StoredObject>, reachable: bool)
      ensures this.sha == sha && this.bucketName == bucketName
      ensures this.bucketExists == bucketExists && this.objects == objects
      ensures this.reachable == reachable && bucketsMade == 0
    {
      this.sha := sha;
      this.bucketName := bucketName;
      this.bucketExists := bucketExists;
      this.objects := objects;
      this.reachable := reachable;
      bucketsMade := 0;
    }

    function ReadObject(path: string): Result<Bytes, BlobError>
      reads this
    {
      ReadAt(sha, reachable, objects, path)
    }

    /** createBucket: make the bucket only when BucketExists says it is
        absent. */
    method CreateBucket() returns (err: Option<BlobError>)
      modifies this`bucketExists, this`bucketsMade
      ensures err == None <==> reachable
      ensures err == None ==> bucketExists
      ensures old(bucketExists) || !reachable ==> bucketExists == old(bucketExists) && bucketsMade == old(bucketsMade)
      ensures !old(bucketExists) && reachable ==> bucketsMade == old(bucketsMade) + 1
    {
      if !reachable {
        return Some(Unreachable);
      }
      var found := bucketExists;
      if found {
        return None;
      }
      bucketExists := true;
      bucketsMade := bucketsMade + 1;
      err := None;
    }

    /** The Minio client's PutObject: stores bytes and metadata as given,
        overwriting any object at the path. */
    method PutObject(path: string, data: Bytes, metadata: map<string, string>, contentType: string)
      returns (err: Option<BlobError>)
      modifies this`objects
      ensures err == None <==> reachable
      ensures objects == if reachable then old(objects)[path := StoredObject(data, |data|, metadata, contentType)]
                         else old(objects)
    {
      if !reachable {
        return Some(Unreachable);
      }
      objects := objects[path := StoredObject(data, |data|, metadata, contentType)];
      err := None;
    }

    /** putStream: tag the bytes with their hex SHA-256 and store them. */
    method PutStream(payload: Bytes, path: string, contentType: string) returns (err: Option<BlobError>)
      modifies this`objects
      ensures err == None <==> reachable
      ensures objects == if reachable then old(objects)[path := Tagged(sha, payload, contentType)] else old(objects)
    {
      var sha256Sum := sha(payload);
      var metadata := map[TagKey := Hex(sha256Sum)];
      err := PutObject(path, payload, metadata, contentType);
    }

    method PutString(payload: string, path: string) returns (err: Option<BlobError>)
      modifies this`objects
      ensures err == None <==> reachable
      ensures objects == if reachable then old(objects)[path := Tagged(sha, StrBytes(payload), TextPlain)] else old(objects)
    {
      err := PutStream(StrBytes(payload), path, TextPlain);
    }

    method PutBytes(payload: Bytes, path: string) returns (err: Option<BlobError>)
      modifies this`objects
      ensures err == None <==> reachable
      ensures objects == if reachable then old(objects)[path := Tagged(sha, payload, OctetStream)] else old(objects)
    {
      err := PutStream(payload, path, OctetStream);
    }

    /** putJSON: a value json.Marshal refuses is an error and nothing is
        written. */
    method PutJson<T>(payload: T, path: string, marshal: T -> Option<Bytes>) returns (err: Option<BlobError>)
      modifies this`objects
      ensures marshal(payload) == None ==> err == Some(MarshalFailed) && objects == old(objects)
      ensures marshal(payload) != None ==>
                (err == None <==> reachable) &&
                objects == if reachable then old(objects)[path := Tagged(sha, marshal(payload).value, ApplicationJson)]
                           else old(objects)
    {
      var marshalled := marshal(payload);
      if marshalled == None {
        return Some(MarshalFailed);
      }
      err := PutStream(marshalled.value, path, ApplicationJson);
    }

    /** getObject: stat the object, read up to its declared size into a
        fresh buffer, then check the size and the integrity tag. */
    method GetObject(path: string) returns (r: Result<Bytes, BlobError>)
      ensures r == ReadAt(sha, reachable, objects, path)
      ensures r.Success? ==> path in objects && TagOf(objects[path]) == Hex(sha(r.value))
    {
      if !reachable {
        return Failure(Unreachable);
      }
      if path !in objects {
        return Failure(NoSuchKey);
      }
      var info := objects[path];
      var buffer := new byte[info.size];
      var read := if |info.data| < buffer.Length then |info.data| else buffer.Length;
      forall i | 0 <= i < read {
        buffer[i] := info.data[i];
      }
      if read != info.size {
        return Failure(ShortRead);
      }
      var tag := TagOf(info);
      if tag == "" {
        return Failure(ChecksumNotFound);
      }
      assert buffer[..] == info.data[..info.size];
      var calculated := Hex(sha(buffer[..]));
      if tag != calculated {
        return Failure(ChecksumMismatch);
      }
      r := Success(buffer[..]);
    }

    /** removeObject: deleting a missing object is not an error. */
    method RemoveObject(path: string) returns (err: Option<BlobError>)
      modifies this`objects
      ensures err == None <==> reachable
      ensures objects == if reachable then old(objects) - {path} else old(objects)
    {
      if !reachable {
        return Some(Unreachable);
      }
      objects := objects - {path};
      err := None;
    }

    // -------------------------------------------------------------------
    // Coordinate wrappers

    function ModLookup(domain: string, user: string, repo: string, version: string): Lookup<Bytes>
      reads this
    {
      Classify(ReadObject(ModPath(sha, domain, user, repo, version)))
    }

    function ZipLookup(domain: string, user: string, repo: string, version: string): Lookup<Bytes>
      reads this
    {
      Classify(ReadObject(ZipPath(sha, domain, user, repo, version)))
    }

    function SumLookup(domain: string, trail: string): Lookup<Bytes>
      reads this
    {
      Classify(ReadObject(SumPath(sha, domain, trail)))
    }

    /** GetInfoObject decodes what it finds and reports found even when the
        stored bytes do not decode; a stored `null` is found, with no map
        and no error. */
    function InfoLookup(domain: string, user: string, repo: string, version: string,
                        decode: Bytes -> Decoded): Lookup<InfoMap>
      reads this
    {
      var r := ReadObject(InfoPath(sha, domain, user, repo, version));
      if r.Success? then
        match decode(r.value)
        case Obj(m) => Lookup(Some(m), true, None)
        case Null => Lookup(None, true, None)
        case Invalid => Lookup(None, true, Some(DecodeFailed))
      else
        var l := Classify(r);
        Lookup(None, false, l.err)
    }

    method GetModObject(domain: string, user: string, repo: string, version: string) returns (l: Lookup<Bytes>)
      ensures l == ModLookup(domain, user, repo, version)
      ensures l.found ==> l.err == None && l.item == Some(ReadObject(ModPath(sha, domain, user, repo, version)).value)
      ensures !l.found && l.err == None <==> ReadObject(ModPath(sha, domain, user, repo, version)) == Failure(NoSuchKey)
    {
      var path := ModPath(sha, domain, user, repo, version);
      var obj := GetObject(path);
      if obj.Success? {
        return Lookup(Some(obj.value), true, None);
      }
      NotFoundTextOnlyInNoSuchKey(obj.error);
      if Contains(obj.error.Message(), NoSuchKeyText) {
        return Lookup(None, false, None);
      }
      l := Lookup(None, false, Some(obj.error));
    }

    method GetModuleSourceObject(domain: string, user: string, repo: string, version: string) returns (l: Lookup<Bytes>)
      ensures l == ZipLookup(domain, user, repo, version)
      ensures l.found ==> l.err == None && l.item == Some(ReadObject(ZipPath(sha, domain, user, repo, version)).value)
      ensures !l.found && l.err == None <==> ReadObject(ZipPath(sha, domain, user, repo, version)) == Failure(NoSuchKey)
    {
      var path := ZipPath(sha, domain, user, repo, version);
      var obj := GetObject(path);
      if obj.Success? {
        return Lookup(Some(obj.value), true, None);
      }
      NotFoundTextOnlyInNoSuchKey(obj.error);
      if Contains(obj.error.Message(), NoSuchKeyText) {
        return Lookup(None, false, None);
      }
      l := Lookup(None, false, Some(obj.error));
    }

    method GetSumObject(domain: string, trail: string) returns (l: Lookup<Bytes>)
      ensures l == SumLookup(domain, trail)
      ensures l.found ==> l.err == None && l.item == Some(ReadObject(SumPath(sha, domain, trail)).value)
      ensures !l.found && l.err == None <==> ReadObject(SumPath(sha, domain, trail)) == Failure(NoSuchKey)
    {
      var path := SumPath(sha, domain, trail);
      var obj := GetObject(path);
      if obj.Success? {
        return Lookup(Some(obj.value), true, None);
      }
      NotFoundTextOnlyInNoSuchKey(obj.error);
      if Contains(obj.error.Message(), NoSuchKeyText) {
        return Lookup(None, false, None);
      }
      l := Lookup(None, false, Some(obj.error));
    }

    method GetInfoObject(domain: string, user: string, repo: string, version: string,
                         decode: Bytes -> Decoded) returns (l: Lookup<InfoMap>)
      ensures l == InfoLookup(domain, user, repo, version, decode)
      ensures l.found <==> ReadObject(InfoPath(sha, domain, user, repo, version)).Success?
      ensures l.found ==> var d := decode(ReadObject(InfoPath(sha, domain, user, repo, version)).value);
                          && (l.item.Some? <==> d.Obj?) && (d.Obj? ==> l.item.value == d.m)
                          && (l.err == Some(DecodeFailed) <==> d.Invalid?)
                          && (l.err.Some? ==> l.err == Some(DecodeFailed))
      ensures !l.found && l.err == None <==> ReadObject(InfoPath(sha, domain, user, repo, version)) == Failure(NoSuchKey)
    {
      var path := InfoPath(sha, domain, user, repo, version);
      var obj := GetObject(path);
      if obj.Success? {
        match decode(obj.value)
        case Obj(m) => return Lookup(Some(m), true, None);
        case Null => return Lookup(None, true, None);
        case Invalid => return Lookup(None, true, Some(DecodeFailed));
      }
      NotFoundTextOnlyInNoSuchKey(obj.error);
      if Contains(obj.error.Message(), NoSuchKeyText) {
        return Lookup(None, false, None);
      }
      l := Lookup(None, false, Some(obj.error));
    }

    method PutModObject(domain: string, user: string, repo: string, version: string, payload: Bytes)
      returns (err: Option<BlobError>)
      modifies this`objects
      ensures err == None <==> reachable
      ensures objects == if reachable then old(objects)[ModPath(sha, domain, user, repo, version) := Tagged(sha, payload, OctetStream)]
                         else old(objects)
    {
      var path := ModPath(sha, domain, user, repo, version);
      err := PutBytes(payload, path);
    }

    method PutModuleSourceObject(domain: string, user: string, repo: string, version: string, payload: Bytes)
      returns (err: Option<BlobError>)
      modifies this`objects
      ensures err == None <==> reachable
      ensures objects == if reachable then old(objects)[ZipPath(sha, domain, user, repo, version) := Tagged(sha, payload, OctetStream)]
                         else old(objects)
    {
      var path := ZipPath(sha, domain, user, repo, version);
      err := PutBytes(payload, path);
    }

    /** PutInfoObject stores the raw bytes with putBytes, like the others. */
    method PutInfoObject(domain: string, user: string, repo: string, version: string, payload: Bytes)
      returns (err: Option<BlobError>)
      modifies this`objects
      ensures err == None <==> reachable
      ensures objects == if reachable then old(objects)[InfoPath(sha, domain, user, repo, version) := Tagged(sha, payload, OctetStream)]
                         else old(objects)
    {
      var path := InfoPath(sha, domain, user, repo, version);
      err := PutBytes(payload, path);
    }

    method PutSumObject(domain: string, trail: string, payload: Bytes) returns (err: Option<BlobError>)
      modifies this`objects
      ensures err == None <==> reachable
      ensures objects == if reachable then old(objects)[SumPath(sha, domain, trail) := Tagged(sha, payload, OctetStream)]
                         else old(objects)
    {
      var path := SumPath(sha, domain, trail);
      err := PutBytes(payload, path);
    }
  }

  // ---------------------------------------------------------------------
  // Put-then-get round trips through the coordinate wrappers

  method PutThenGetMod(b: Blobstore, domain: string, user: string, repo: string, version: string, payload: Bytes)
    returns (l: Lookup<Bytes>)
    requires b.reachable
    modifies b
    ensures l == Lookup(Some(payload), true, None)
  {
    var err := b.PutModObject(domain, user, repo, version, payload);
    ReadAfterPut(b.sha, old(b.objects), ModPath(b.sha, domain, user, repo, version), payload, OctetStream);
    l := b.GetModObject(domain, user, repo, version);
  }

  method PutThenGetZip(b: Blobstore, domain: string, user: string, repo: string, version: string, payload: Bytes)
    returns (l: Lookup<Bytes>)
    requires b.reachable
    modifies b
    ensures l == Lookup(Some(payload), true, None)
  {
    var err := b.PutModuleSourceObject(domain, user, repo, version, payload);
    ReadAfterPut(b.sha, old(b.objects), ZipPath(b.sha, domain, user, repo, version), payload, OctetStream);
    l := b.GetModuleSourceObject(domain, user, repo, version);
  }

  method PutThenGetSum(b: Blobstore, domain: string, trail: string, payload: Bytes)
    returns (l: Lookup<Bytes>)
    requires b.reachable
    modifies b
    ensures l == Lookup(Some(payload), true, None)
  {
    var err := b.PutSumObject(domain, trail, payload);
    ReadAfterPut(b.sha, old(b.objects), SumPath(b.sha, domain, trail), payload, OctetStream);
    l := b.GetSumObject(domain, trail);
  }

  /** After removeObject(p), getObject(p) fails as not found. */
  method RemoveThenGet(b: Blobstore, path: string) returns (r: Result<Bytes, BlobError>)
    requires b.reachable
    modifies b
    ensures r == Failure(NoSuchKey)
  {
    var err := b.RemoveObject(path);
    r := b.GetObject(path);
  }

  /** createBucket twice: the second call finds the bucket and makes none. */
  method CreateBucketTwice(b: Blobstore) returns (first: Option<BlobError>, second: Option<BlobError>)
    requires b.reachable
    modifies b
    ensures first == None && second == None && b.bucketExists
    ensures b.bucketsMade <= old(b.bucketsMade) + 1
  {
    first := b.CreateBucket();
    second := b.CreateBucket();
  }
}
