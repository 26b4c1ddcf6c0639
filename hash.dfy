/** Storage-key derivation (pkg/hash/hash.go).

    A module coordinate (domain, user, repo) is concatenated without a
    separator, hashed with SHA-256 and written as lowercase base16; versioned
    artefacts live under a sharded `4/4/4/4/48/version` path with a kind
    suffix. SHA-256 and xxh3 are foreign functions: the model takes them as
    parameters and knows only their output sizes. */
module Hash {
  import opened Base

  type Digest = d: Bytes | |d| == 32 witness seq(32, _ => 0)

  /** SHA-256 (FIPS 180-4): any function from bytes to 32 bytes. */
  type Sha256 = Bytes -> Digest

  type u64 = x: int | 0 <= x < 0x1_0000_0000_0000_0000

  /** xxh3's 64-bit hash: any function from bytes to an unsigned 64-bit value. */
  type Xxh3 = Bytes -> u64

  // ---------------------------------------------------------------------
  // Strings and bytes

  /** `[]byte(s)`: the bytes of a Go string (the characters of `s`). */
  function StrBytes(s: string): (b: Bytes)
    ensures |b| == |s|
  {
    seq(|s|, i requires 0 <= i < |s| => (s[i] as int % 256) as byte)
  }

  /** `string(b)`: the Go string holding the bytes `b`. */
  function BytesStr(b: Bytes): (s: string)
    ensures |s| == |b|
  {
    seq(|b|, i requires 0 <= i < |b| => b[i] as int as char)
  }

  lemma StrBytesConcat(a: string, b: string)
    ensures StrBytes(a + b) == StrBytes(a) + StrBytes(b)
  {
    var l, r := StrBytes(a + b), StrBytes(a) + StrBytes(b);
    forall i | 0 <= i < |l| ensures l[i] == r[i] {
      if i < |a| {
        assert (a + b)[i] == a[i];
      } else {
        assert (a + b)[i] == b[i - |a|];
      }
    }
  }

  /** Converting raw bytes to a Go string and back gives the same bytes, so
      distinct digests give distinct map keys. */
  lemma BytesStrRoundTrip(b: Bytes)
    ensures StrBytes(BytesStr(b)) == b
  {
  }

  lemma BytesStrInjective(a: Bytes, b: Bytes)
    requires BytesStr(a) == BytesStr(b)
    ensures a == b
  {
    BytesStrRoundTrip(a);
    BytesStrRoundTrip(b);
  }

  // ---------------------------------------------------------------------
  // Coordinate digest

  /** GetBytes: domain, user and repo appended into one buffer, with no
      separator between them. */
  function GetBytes(domain: string, user: string, repo: string): (b: Bytes)
    ensures b == StrBytes(domain + user + repo)
    ensures |b| == |domain| + |user| + |repo|
  {
    StrBytesConcat(domain, user);
    StrBytesConcat(domain + user, repo);
    StrBytes(domain) + StrBytes(user) + StrBytes(repo)
  }

  /** GetHash: the SHA-256 digest of GetBytes. */
  function GetHash(sha: Sha256, domain: string, user: string, repo: string): (d: Digest)
  {
    sha(GetBytes(domain, user, repo))
  }

  /** The digest depends on the concatenation only: coordinates that
      concatenate to the same string share a digest. */
  lemma GetHashDependsOnConcatenation(sha: Sha256, d1: string, u1: string, r1: string,
                                      d2: string, u2: string, r2: string)
    requires d1 + u1 + r1 == d2 + u2 + r2
    ensures GetHash(sha, d1, u1, r1) == GetHash(sha, d2, u2, r2)
  {
  }

  /** A concrete instance: ("ab", "", "c") and ("a", "bc", "") collide. */
  lemma CoordinateCollision(sha: Sha256)
    ensures GetHash(sha, "ab", "", "c") == GetHash(sha, "a", "bc", "")
  {
    GetHashDependsOnConcatenation(sha, "ab", "", "c", "a", "bc", "");
  }

  // ---------------------------------------------------------------------
  // Lowercase base16 (section 8 of RFC 4648)

  predicate IsLowerHex(c: char) {
    '0' <= c <= '9' || 'a' <= c <= 'f'
  }

  function HexDigit(n: int): (c: char)
    requires 0 <= n < 16
    ensures IsLowerHex(c)
  {
    if n < 10 then ('0' as int + n) as char else ('a' as int + n - 10) as char
  }

  /** The value of a lowercase hex digit (0 for any other character). */
  function HexValue(c: char): (n: int)
    ensures 0 <= n < 16
  {
    if '0' <= c <= '9' then c as int - '0' as int
    else if 'a' <= c <= 'f' then c as int - 'a' as int + 10
    else 0
  }

  lemma HexValueOfDigit(n: int)
    requires 0 <= n < 16
    ensures HexValue(HexDigit(n)) == n
  {
  }

  /** `hex.EncodeToString`: two lowercase digits per byte, high nibble first. */
  function Hex(bs: Bytes): (s: string)
    ensures |s| == 2 * |bs|
  {
    if bs == [] then ""
    else [HexDigit(bs[0] as int / 16), HexDigit(bs[0] as int % 16)] + Hex(bs[1..])
  }

  /** `hex.DecodeString` on well-formed input. */
  function Unhex(s: string): (bs: Bytes)
    ensures |bs| == |s| / 2
  {
    if |s| < 2 then []
    else [(16 * HexValue(s[0]) + HexValue(s[1])) as byte] + Unhex(s[2..])
  }

  lemma {:induction false} HexAt(bs: Bytes, i: int)
    requires 0 <= i < |bs|
    ensures Hex(bs)[2 * i] == HexDigit(bs[i] as int / 16)
    ensures Hex(bs)[2 * i + 1] == HexDigit(bs[i] as int % 16)
  {
    if i > 0 {
      HexAt(bs[1..], i - 1);
    }
  }

  /** Every character of an encoding is a lowercase hex digit. */
  lemma {:induction false} HexIsLowercase(bs: Bytes)
    ensures forall k :: 0 <= k < |Hex(bs)| ==> IsLowerHex(Hex(bs)[k])
  {
    if bs != [] {
      HexIsLowercase(bs[1..]);
    }
  }

  /** Decoding an encoding gives back the bytes. */
  lemma {:induction false} UnhexHex(bs: Bytes)
    ensures Unhex(Hex(bs)) == bs
  {
    if bs != [] {
      var b := bs[0] as int;
      HexValueOfDigit(b / 16);
      HexValueOfDigit(b % 16);
      var s := Hex(bs);
      assert s[2..] == Hex(bs[1..]);
      UnhexHex(bs[1..]);
    }
  }

  /** Distinct digests give distinct hex strings. */
  lemma HexInjective(a: Bytes, b: Bytes)
    requires Hex(a) == Hex(b)
    ensures a == b
  {
    UnhexHex(a);
    UnhexHex(b);
  }

  // ---------------------------------------------------------------------
  // Object-store paths

  /** The sharded prefix `h[0:4]/h[4:8]/h[8:12]/h[12:16]/h[16:]` of a
      64-character hex digest. */
  function Shard(h: string): (p: string)
    requires |h| == 64
  {
    h[..4] + "/" + h[4..8] + "/" + h[8..12] + "/" + h[12..16] + "/" + h[16..]
  }

  /** Dropping the four separators gives the digest back. */
  lemma ShardLayout(h: string)
    requires |h| == 64
    ensures |Shard(h)| == 68
    ensures Shard(h)[4] == '/' && Shard(h)[9] == '/' && Shard(h)[14] == '/' && Shard(h)[19] == '/'
    ensures Shard(h)[..4] + Shard(h)[5..9] + Shard(h)[10..14] + Shard(h)[15..19] + Shard(h)[20..] == h
  {
    var p := Shard(h);
    assert p[..4] == h[..4];
    assert p[5..9] == h[4..8];
    assert p[10..14] == h[8..12];
    assert p[15..19] == h[12..16];
    assert p[20..] == h[16..];
    assert h == h[..4] + h[4..8] + h[8..12] + h[12..16] + h[16..];
  }

  /** getMinioPath. */
  function MinioPath(sha: Sha256, domain: string, user: string, repo: string, version: string): (p: string)
    ensures |p| == 69 + |version|
  {
    Shard(Hex(GetHash(sha, domain, user, repo))) + "/" + version
  }

  /** The path is the sharded hex digest of the coordinate, a separator and
      the version: the digest and the version can both be read back from it. */
  lemma MinioPathLayout(sha: Sha256, domain: string, user: string, repo: string, version: string)
    ensures var p := MinioPath(sha, domain, user, repo, version);
            var h := Hex(GetHash(sha, domain, user, repo));
            && p[..4] + p[5..9] + p[10..14] + p[15..19] + p[20..68] == h
            && p[4] == '/' && p[9] == '/' && p[14] == '/' && p[19] == '/' && p[68] == '/'
            && p[69..] == version
  {
    var h := Hex(GetHash(sha, domain, user, repo));
    var p := MinioPath(sha, domain, user, repo, version);
    ShardLayout(h);
    assert p[..68] == Shard(h);
    assert p[69..] == version;
  }

  /** Two coordinates share a path exactly when they share a digest and a
      version. */
  lemma MinioPathInjective(sha: Sha256, d1: string, u1: string, r1: string, v1: string,
                           d2: string, u2: string, r2: string, v2: string)
    ensures MinioPath(sha, d1, u1, r1, v1) == MinioPath(sha, d2, u2, r2, v2)
            <==> GetHash(sha, d1, u1, r1) == GetHash(sha, d2, u2, r2) && v1 == v2
  {
    var p1, p2 := MinioPath(sha, d1, u1, r1, v1), MinioPath(sha, d2, u2, r2, v2);
    if p1 == p2 {
      MinioPathLayout(sha, d1, u1, r1, v1);
      MinioPathLayout(sha, d2, u2, r2, v2);
      HexInjective(GetHash(sha, d1, u1, r1), GetHash(sha, d2, u2, r2));
    }
  }

  /** GetMinioGoModPath. */
  function ModPath(sha: Sha256, domain: string, user: string, repo: string, version: string): (p: string)
    ensures |p| == 73 + |version| && HasSuffix(p, ".mod")
    ensures p[..|p| - 4] == MinioPath(sha, domain, user, repo, version)
  {
    MinioPath(sha, domain, user, repo, version) + ".mod"
  }

  /** GetModuleGoSourcesPath. */
  function ZipPath(sha: Sha256, domain: string, user: string, repo: string, version: string): (p: string)
    ensures |p| == 73 + |version| && HasSuffix(p, ".zip")
    ensures p[..|p| - 4] == MinioPath(sha, domain, user, repo, version)
  {
    MinioPath(sha, domain, user, repo, version) + ".zip"
  }

  /** GetMinioModuleInfoPath. */
  function InfoPath(sha: Sha256, domain: string, user: string, repo: string, version: string): (p: string)
    ensures |p| == 74 + |version| && HasSuffix(p, ".info")
    ensures p[..|p| - 5] == MinioPath(sha, domain, user, repo, version)
  {
    MinioPath(sha, domain, user, repo, version) + ".info"
  }

  /** The three kinds share the getMinioPath base and are told apart by their
      last character, so for equal inputs they are pairwise distinct. */
  lemma KindPathsDistinct(sha: Sha256, domain: string, user: string, repo: string, version: string)
    ensures var base := MinioPath(sha, domain, user, repo, version);
            && ModPath(sha, domain, user, repo, version) == base + ".mod"
            && ZipPath(sha, domain, user, repo, version) == base + ".zip"
            && InfoPath(sha, domain, user, repo, version) == base + ".info"
            && ModPath(sha, domain, user, repo, version) != ZipPath(sha, domain, user, repo, version)
            && ModPath(sha, domain, user, repo, version) != InfoPath(sha, domain, user, repo, version)
            && ZipPath(sha, domain, user, repo, version) != InfoPath(sha, domain, user, repo, version)
  {
    var base := MinioPath(sha, domain, user, repo, version);
    DistinctSuffixes(base, ".mod", ".zip");
    DistinctSuffixes(base, ".mod", ".info");
    DistinctSuffixes(base, ".zip", ".info");
  }

  /** A .mod path names one coordinate and version. */
  lemma ModPathInjective(sha: Sha256, d1: string, u1: string, r1: string, v1: string,
                         d2: string, u2: string, r2: string, v2: string)
    requires ModPath(sha, d1, u1, r1, v1) == ModPath(sha, d2, u2, r2, v2)
    ensures GetHash(sha, d1, u1, r1) == GetHash(sha, d2, u2, r2) && v1 == v2
  {
    var b1, b2 := MinioPath(sha, d1, u1, r1, v1), MinioPath(sha, d2, u2, r2, v2);
    assert |b1| == |b2|;
    assert b1 == (b1 + ".mod")[..|b1|];
    assert b2 == (b2 + ".mod")[..|b2|];
    MinioPathInjective(sha, d1, u1, r1, v1, d2, u2, r2, v2);
  }

  /** GetLatestHash: the hex digest of the coordinate. */
  function LatestHash(sha: Sha256, domain: string, user: string, repo: string): (h: string)
    ensures |h| == 64
  {
    Hex(GetHash(sha, domain, user, repo))
  }

  lemma LatestHashIsLowerHex(sha: Sha256, domain: string, user: string, repo: string)
    ensures |LatestHash(sha, domain, user, repo)| == 64
    ensures forall k :: 0 <= k < 64 ==> IsLowerHex(LatestHash(sha, domain, user, repo)[k])
  {
    HexIsLowercase(GetHash(sha, domain, user, repo));
  }

  /** GetMinioSumPath: hashes only domain and trail, with an empty user. */
  function SumPath(sha: Sha256, domain: string, trail: string): (p: string)
    ensures |p| == 68 && HasSuffix(p, ".sum")
    ensures p[..64] == LatestHash(sha, domain, "", trail)
  {
    Hex(GetHash(sha, domain, "", trail)) + ".sum"
  }

  /** A sum path has no separator where a versioned path has its first one,
      so sum objects and versioned objects never share a path. */
  lemma SumPathNotVersioned(sha: Sha256, domain: string, trail: string,
                            d: string, u: string, r: string, v: string)
    ensures SumPath(sha, domain, trail) != ModPath(sha, d, u, r, v)
    ensures SumPath(sha, domain, trail) != ZipPath(sha, d, u, r, v)
    ensures SumPath(sha, domain, trail) != InfoPath(sha, d, u, r, v)
  {
    LatestHashIsLowerHex(sha, domain, "", trail);
    MinioPathLayout(sha, d, u, r, v);
    var s := SumPath(sha, domain, trail);
    var m := MinioPath(sha, d, u, r, v);
    assert s[4] == s[..64][4];
    assert IsLowerHex(s[4]);
    assert (m + ".mod")[4] == '/';
    assert (m + ".zip")[4] == '/';
    assert (m + ".info")[4] == '/';
  }

  // ---------------------------------------------------------------------
  // Extended digest: 32 digest bytes followed by the 8 bytes of xxh3(X)

  function Pow2(k: nat): (p: nat)
    ensures p >= 1
  {
    if k == 0 then 1 else 2 * Pow2(k - 1)
  }

  lemma Pow2Plus8(k: nat)
    ensures Pow2(k + 8) == 256 * Pow2(k)
  {
    assert Pow2(k + 8) == 2 * Pow2(k + 7);
    assert Pow2(k + 7) == 2 * Pow2(k + 6);
    assert Pow2(k + 6) == 2 * Pow2(k + 5);
    assert Pow2(k + 5) == 2 * Pow2(k + 4);
    assert Pow2(k + 4) == 2 * Pow2(k + 3);
    assert Pow2(k + 3) == 2 * Pow2(k + 2);
    assert Pow2(k + 2) == 2 * Pow2(k + 1);
  }

  /** `byte(0xff & (x >> (8*i)))` on an unsigned 64-bit x: a right shift is a
      division by a power of two and the mask keeps the remainder mod 256. */
  function ByteAt(x: u64, i: nat): byte {
    ((x / Pow2(8 * i)) % 256) as byte
  }

  /** Little-endian value of a byte string. */
  function LittleEndian(bs: Bytes): nat {
    if bs == [] then 0
    else LittleEndian(bs[..|bs| - 1]) + bs[|bs| - 1] as int * Pow2(8 * (|bs| - 1))
  }

  lemma MulAtLeast(k: int, d: int)
    requires k >= 1 && d > 0
    ensures k * d >= d
  {
    assert k * d == (k - 1) * d + d;
  }

  lemma DivModUnique(x: int, d: int, q: int, r: int)
    requires d > 0 && 0 <= r < d && x == q * d + r
    ensures x / d == q && x % d == r
  {
    var q', r' := x / d, x % d;
    assert x == q' * d + r';
    assert (q' - q) * d == r - r' by {
      assert (q' - q) * d == q' * d - q * d;
    }
    if q' > q {
      MulAtLeast(q' - q, d);
    } else if q' < q {
      MulAtLeast(q - q', d);
    }
  }

  /** Peeling one more byte off: x mod 256P is x mod P plus the next byte
      times P. */
  lemma SplitProduct(hi: int, lo: int, p: int)
    ensures (hi * 256 + lo) * p == hi * (256 * p) + lo * p
  {
  }

  lemma ScaledBelow(lo: int, p: int, r: int)
    requires 0 <= lo < 256 && p > 0 && 0 <= r < p
    ensures 0 <= lo * p + r < 256 * p
  {
    assert lo * p <= 255 * p by {
      assert (255 - lo) * p >= 0;
    }
  }

  lemma ModNextByte(x: nat, p: nat)
    requires p > 0
    ensures x % (256 * p) == x % p + ((x / p) % 256) * p
  {
    var q, r := x / p, x % p;
    var hi, lo := q / 256, q % 256;
    SplitProduct(hi, lo, p);
    ScaledBelow(lo, p, r);
    assert x == hi * (256 * p) + (lo * p + r);
    DivModUnique(x, 256 * p, hi, lo * p + r);
  }

  /** The first n bytes ByteAt(x, 0..n) are the little-endian digits of x. */
  lemma {:induction false} LowBytes(x: u64, n: nat)
    ensures LittleEndian(seq(n, i requires 0 <= i => ByteAt(x, i))) == x % Pow2(8 * n)
  {
    var bs := seq(n, i requires 0 <= i => ByteAt(x, i));
    if n > 0 {
      var prev := seq(n - 1, i requires 0 <= i => ByteAt(x, i));
      assert bs[..n - 1] == prev;
      LowBytes(x, n - 1);
      Pow2Plus8(8 * (n - 1));
      ModNextByte(x, Pow2(8 * (n - 1)));
    }
  }

  lemma Pow2Is64Bit()
    ensures Pow2(64) == 0x1_0000_0000_0000_0000
  {
    Pow2Plus8(0); Pow2Plus8(8); Pow2Plus8(16); Pow2Plus8(24);
    Pow2Plus8(32); Pow2Plus8(40); Pow2Plus8(48); Pow2Plus8(56);
  }

  /** The eight bytes written after the digest spell out x: reading them back
      little-endian gives x, so distinct xxh3 values give distinct keys. */
  lemma ExtensionBytesDecode(x: u64)
    ensures LittleEndian(seq(8, i requires 0 <= i => ByteAt(x, i))) == x
  {
    LowBytes(x, 8);
    Pow2Is64Bit();
  }

  /** What `key[32+i] = ...` does to a Go slice: an index at or past the
      slice's length panics. */
  datatype ExtOutcome = Key(key: Bytes) | IndexOutOfRange(index: int, length: int)

  /** The eight element assignments key[32] .. key[39] of GetExtendedHash,
      from the i-th on, with Go's bounds check. */
  function AssignExtension(key: Bytes, x: u64, i: nat): (r: ExtOutcome)
    requires i <= 8
    decreases 8 - i
  {
    if i == 8 then Key(key)
    else if 32 + i >= |key| then IndexOutOfRange(32 + i, |key|)
    else AssignExtension(key[32 + i := ByteAt(x, i)], x, i + 1)
  }

  /** GetExtendedHash as written: the buffer is made with length 0 (capacity
      40), so `copy` copies nothing and the first assignment, key[32], is out
      of range on every input. */
  method GetExtendedHashAsWritten(sha: Sha256, xxh: Xxh3, domain: string, user: string, repo: string, x: string)
    returns (r: ExtOutcome)
    ensures r == IndexOutOfRange(32, 0)
  {
    var key: Bytes := [];
    var kex := GetHash(sha, domain, user, repo);
    var copied := if |key| < |kex| then |key| else |kex|;
    key := kex[..copied] + key[copied..];
    var kexX := xxh(StrBytes(x));
    r := AssignExtension(key, kexX, 0);
  }

  /** GetExtendedHash as intended: a 40-byte key whose first 32 bytes are the
      coordinate digest and whose byte 32+i is byte i of xxh3(X). */
  method GetExtendedHash(sha: Sha256, xxh: Xxh3, domain: string, user: string, repo: string, x: string)
    returns (key: array<byte>)
    ensures fresh(key) && key.Length == 40
    ensures key[..32] == GetHash(sha, domain, user, repo)
    ensures forall i :: 0 <= i < 8 ==> key[32 + i] == ByteAt(xxh(StrBytes(x)), i)
  {
    key := new byte[40];
    var kex := GetHash(sha, domain, user, repo);
    forall i | 0 <= i < 32 {
      key[i] := kex[i];
    }
    var kexX := xxh(StrBytes(x));
    key[32] := ByteAt(kexX, 0);
    key[33] := ByteAt(kexX, 1);
    key[34] := ByteAt(kexX, 2);
    key[35] := ByteAt(kexX, 3);
    key[36] := ByteAt(kexX, 4);
    key[37] := ByteAt(kexX, 5);
    key[38] := ByteAt(kexX, 6);
    key[39] := ByteAt(kexX, 7);
  }

  /** The extended key determines both the coordinate digest and xxh3(X). */
  lemma ExtendedKeyDetermines(sha: Sha256, xxh: Xxh3, k1: Bytes, k2: Bytes,
                              d1: string, u1: string, r1: string, x1: string,
                              d2: string, u2: string, r2: string, x2: string)
    requires |k1| == 40 && k1[..32] == GetHash(sha, d1, u1, r1)
    requires forall i :: 0 <= i < 8 ==> k1[32 + i] == ByteAt(xxh(StrBytes(x1)), i)
    requires |k2| == 40 && k2[..32] == GetHash(sha, d2, u2, r2)
    requires forall i :: 0 <= i < 8 ==> k2[32 + i] == ByteAt(xxh(StrBytes(x2)), i)
    requires k1 == k2
    ensures GetHash(sha, d1, u1, r1) == GetHash(sha, d2, u2, r2)
    ensures xxh(StrBytes(x1)) == xxh(StrBytes(x2))
  {
    var h1, h2 := xxh(StrBytes(x1)), xxh(StrBytes(x2));
    var e1 := seq(8, i requires 0 <= i => ByteAt(h1, i));
    var e2 := seq(8, i requires 0 <= i => ByteAt(h2, i));
    assert e1 == k1[32..] == e2;
    ExtensionBytesDecode(h1);
    ExtensionBytesDecode(h2);
  }
}
