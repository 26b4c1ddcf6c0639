/** Version precedence as the index synchronizer uses it
    (`semver.NewVersion` and `GreaterThan` in pkg/index/index.go).

    Parsing is a parameter: a partial function from the version string to a
    parsed version. Precedence follows section 11 of Semantic Versioning
    2.0.0: major, minor and patch compare numerically; a version with a
    pre-release is lower than the same version without one; pre-release
    identifiers compare one by one, numeric ones numerically, alphanumeric
    ones in ASCII order, numeric below alphanumeric, and a shorter list that
    is a prefix of a longer one is lower. Build metadata takes no part and is
    not represented. */
module Semver {
  import opened Base

  datatype Ident = Num(n: nat) | Alpha(s: string)

  datatype Version = Version(major: nat, minor: nat, patch: nat, pre: seq<Ident>)

  /** `semver.NewVersion`: None when the string does not parse. */
  type Parser = string -> Option<Version>

  /** ASCII (byte-wise lexical) order on strings. */
  predicate StrLess(a: string, b: string)
    decreases |a|
  {
    |b| > 0 && (|a| == 0 || a[0] < b[0] || (a[0] == b[0] && StrLess(a[1..], b[1..])))
  }

  predicate IdentLess(a: Ident, b: Ident) {
    match (a, b)
    case (Num(m), Num(n)) => m < n
    case (Num(_), Alpha(_)) => true
    case (Alpha(_), Num(_)) => false
    case (Alpha(s), Alpha(t)) => StrLess(s, t)
  }

  /** Pre-release lists compared identifier by identifier; a proper prefix
      is lower. */
  predicate IdentsLess(p: seq<Ident>, q: seq<Ident>)
    decreases |p|
  {
    |q| > 0 && (|p| == 0 || IdentLess(p[0], q[0]) || (p[0] == q[0] && IdentsLess(p[1..], q[1..])))
  }

  /** Pre-release precedence: no pre-release is highest. */
  predicate PreLess(p: seq<Ident>, q: seq<Ident>) {
    if p == [] then false
    else if q == [] then true
    else IdentsLess(p, q)
  }

  /** `x` has lower precedence than `y`. */
  predicate Less(x: Version, y: Version) {
    x.major < y.major
    || (x.major == y.major && x.minor < y.minor)
    || (x.major == y.major && x.minor == y.minor && x.patch < y.patch)
    || (x.major == y.major && x.minor == y.minor && x.patch == y.patch && PreLess(x.pre, y.pre))
  }

  /** `GreaterThan`. */
  predicate Greater(x: Version, y: Version) {
    Less(y, x)
  }

  // ---------------------------------------------------------------------
  // Strings

  lemma {:induction false} StrLessIrreflexive(a: string)
    ensures !StrLess(a, a)
  {
    if |a| > 0 {
      StrLessIrreflexive(a[1..]);
    }
  }

  lemma {:induction false} StrLessTransitive(a: string, b: string, c: string)
    requires StrLess(a, b) && StrLess(b, c)
    ensures StrLess(a, c)
  {
    if |a| > 0 && a[0] == b[0] && b[0] == c[0] {
      StrLessTransitive(a[1..], b[1..], c[1..]);
    }
  }

  lemma {:induction false} StrLessTotal(a: string, b: string)
    requires a != b
    ensures StrLess(a, b) || StrLess(b, a)
  {
    if |a| > 0 && |b| > 0 && a[0] == b[0] {
      assert a == [a[0]] + a[1..] && b == [b[0]] + b[1..];
      StrLessTotal(a[1..], b[1..]);
    }
  }

  // ---------------------------------------------------------------------
  // Identifiers

  lemma IdentLessIrreflexive(a: Ident)
    ensures !IdentLess(a, a)
  {
    if a.Alpha? {
      StrLessIrreflexive(a.s);
    }
  }

  lemma IdentLessTransitive(a: Ident, b: Ident, c: Ident)
    requires IdentLess(a, b) && IdentLess(b, c)
    ensures IdentLess(a, c)
  {
    if a.Alpha? && b.Alpha? && c.Alpha? {
      StrLessTransitive(a.s, b.s, c.s);
    }
  }

  lemma IdentLessTotal(a: Ident, b: Ident)
    requires a != b
    ensures IdentLess(a, b) || IdentLess(b, a)
  {
    if a.Alpha? && b.Alpha? {
      StrLessTotal(a.s, b.s);
    }
  }

  lemma IdentLessAsymmetric(a: Ident, b: Ident)
    requires IdentLess(a, b)
    ensures !IdentLess(b, a)
  {
    if IdentLess(b, a) {
      IdentLessTransitive(a, b, a);
      IdentLessIrreflexive(a);
    }
  }

  // ---------------------------------------------------------------------
  // Identifier lists

  lemma {:induction false} IdentsLessIrreflexive(p: seq<Ident>)
    ensures !IdentsLess(p, p)
  {
    if |p| > 0 {
      IdentLessIrreflexive(p[0]);
      IdentsLessIrreflexive(p[1..]);
    }
  }

  lemma {:induction false} IdentsLessTransitive(p: seq<Ident>, q: seq<Ident>, r: seq<Ident>)
    requires IdentsLess(p, q) && IdentsLess(q, r)
    ensures IdentsLess(p, r)
  {
    if |p| > 0 {
      if IdentLess(p[0], q[0]) {
        if IdentLess(q[0], r[0]) {
          IdentLessTransitive(p[0], q[0], r[0]);
        }
      } else if IdentLess(q[0], r[0]) {
      } else {
        IdentsLessTransitive(p[1..], q[1..], r[1..]);
      }
    }
  }

  lemma {:induction false} IdentsLessTotal(p: seq<Ident>, q: seq<Ident>)
    requires p != q
    ensures IdentsLess(p, q) || IdentsLess(q, p)
  {
    if |p| > 0 && |q| > 0 {
      if p[0] != q[0] {
        IdentLessTotal(p[0], q[0]);
      } else {
        assert p == [p[0]] + p[1..] && q == [q[0]] + q[1..];
        IdentsLessTotal(p[1..], q[1..]);
      }
    }
  }

  // ---------------------------------------------------------------------
  // Versions: a strict total order

  lemma LessIrreflexive(x: Version)
    ensures !Less(x, x)
  {
    IdentsLessIrreflexive(x.pre);
  }

  lemma LessTransitive(x: Version, y: Version, z: Version)
    requires Less(x, y) && Less(y, z)
    ensures Less(x, z)
  {
    if x.major == y.major == z.major && x.minor == y.minor == z.minor && x.patch == y.patch == z.patch {
      if x.pre != [] && y.pre != [] && z.pre != [] {
        IdentsLessTransitive(x.pre, y.pre, z.pre);
      }
    }
  }

  /** Two different versions are always ordered: precedence is total. */
  lemma LessTotal(x: Version, y: Version)
    requires x != y
    ensures Less(x, y) || Less(y, x)
  {
    if x.major == y.major && x.minor == y.minor && x.patch == y.patch {
      assert x.pre != y.pre;
      if x.pre != [] && y.pre != [] {
        IdentsLessTotal(x.pre, y.pre);
      }
    }
  }

  lemma LessAsymmetric(x: Version, y: Version)
    requires Less(x, y)
    ensures !Less(y, x)
  {
    if Less(y, x) {
      LessTransitive(x, y, x);
      LessIrreflexive(x);
    }
  }

  /** The chain given as an example in section 11 of Semantic Versioning
      2.0.0: 1.0.0-alpha < 1.0.0-alpha.1 < 1.0.0-alpha.beta < 1.0.0-beta
      < 1.0.0-beta.2 < 1.0.0-beta.11 < 1.0.0-rc.1 < 1.0.0. */
  lemma PrecedenceExample()
    ensures var alpha, beta := Alpha("alpha"), Alpha("beta");
            var chain := [
              Version(1, 0, 0, [alpha]),
              Version(1, 0, 0, [alpha, Num(1)]),
              Version(1, 0, 0, [alpha, beta]),
              Version(1, 0, 0, [beta]),
              Version(1, 0, 0, [beta, Num(2)]),
              Version(1, 0, 0, [beta, Num(11)]),
              Version(1, 0, 0, [Alpha("rc"), Num(1)]),
              Version(1, 0, 0, [])];
            forall i | 0 <= i < |chain| - 1 :: Less(chain[i], chain[i + 1])
  {
    var alpha, beta := Alpha("alpha"), Alpha("beta");
    assert StrLess("alpha", "beta");
    assert StrLess("beta", "rc");
    assert IdentsLess([alpha], [alpha, Num(1)]) by {
      assert [alpha][1..] == [];
      assert [alpha, Num(1)][1..] == [Num(1)];
    }
    assert IdentsLess([alpha, Num(1)], [alpha, beta]) by {
      assert [alpha, Num(1)][1..] == [Num(1)];
      assert [alpha, beta][1..] == [beta];
    }
    assert IdentsLess([beta], [beta, Num(2)]) by {
      assert [beta][1..] == [];
      assert [beta, Num(2)][1..] == [Num(2)];
    }
    assert IdentsLess([beta, Num(2)], [beta, Num(11)]) by {
      assert [beta, Num(2)][1..] == [Num(2)];
      assert [beta, Num(11)][1..] == [Num(11)];
    }
  }
}
