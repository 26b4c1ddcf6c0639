/** Request-path classification (pkg/router.go): CustomRouter turns the
    trail after `/:DOMAIN/:USER` into a route, using a suffix test for
    `@latest`, a suffix test for `list`, and two regular expressions (Go's
    RE2 syntax, leftmost-first matching): `^/(.+)/@` for the repository and
    `(v\d+\.\d+\.\d+(-\w+)?)\.(mod|zip|info)` for a versioned file. The
    handler call becomes the route value. */
module Router {
  import opened Base

  datatype Route =
    | Latest(repo: string)
    | List(repo: string)
    | Mod(version: string, repo: string)
    | Zip(version: string, repo: string)
    | Info(version: string, repo: string)
    | BadRequest(message: string)

  const InvalidPath := "invalid path"
  const UnknownFileType := "unknown file type: "

  // ---------------------------------------------------------------------
  // Character classes (ASCII, as in RE2)

  /** `\d` */
  predicate IsDigit(c: char) {
    '0' <= c <= '9'
  }

  /** `\w` */
  predicate IsWord(c: char) {
    IsDigit(c) || 'a' <= c <= 'z' || 'A' <= c <= 'Z' || c == '_'
  }

  // ---------------------------------------------------------------------
  // `^/(.+)/@`

  /** The greedy `(.+)` can end at `i`: `/@` follows it, it is not empty,
      and `.` has matched no newline. */
  predicate RepoEndAt(t: string, i: int) {
    2 <= i && i + 2 <= |t| && t[i] == '/' && t[i + 1] == '@' && forall k | 1 <= k < i :: t[k] != '\n'
  }

  /** The last end at or below `i`. */
  function LastRepoEnd(t: string, i: int): (r: Option<int>)
    ensures r.Some? ==> r.value <= i && RepoEndAt(t, r.value)
    ensures r.Some? ==> forall j | r.value < j <= i :: !RepoEndAt(t, j)
    ensures r.None? ==> forall j | j <= i :: !RepoEndAt(t, j)
    decreases i
  {
    if i < 2 then None
    else if RepoEndAt(t, i) then Some(i)
    else LastRepoEnd(t, i - 1)
  }

  /** `regexRepo.FindStringSubmatch(trail)[1]`, or None when it does not
      match. Being greedy, `(.+)` takes the longest capture that is followed
      by `/@`. */
  function RepoOf(t: string): (r: Option<string>)
    ensures r.None? <==> |t| == 0 || t[0] != '/' || forall j | 0 <= j <= |t| :: !RepoEndAt(t, j)
    ensures r.Some? ==> exists i | RepoEndAt(t, i) :: r.value == t[1..i] && forall j | i < j <= |t| :: !RepoEndAt(t, j)
  {
    if |t| == 0 || t[0] != '/' then None
    else
      var e := LastRepoEnd(t, |t| - 2);
      if e.None? then None else Some(t[1..e.value])
  }

  // ---------------------------------------------------------------------
  // `(v\d+\.\d+\.\d+(-\w+)?)\.(mod|zip|info)`

  /** The end of the run of digits starting at `i`. */
  function DigitsEnd(t: string, i: nat): (e: nat)
    requires i <= |t|
    ensures i <= e <= |t|
    ensures e < |t| ==> !IsDigit(t[e])
    decreases |t| - i
  {
    if i < |t| && IsDigit(t[i]) then DigitsEnd(t, i + 1) else i
  }

  /** Every character DigitsEnd steps over is a digit. */
  lemma {:induction false} DigitsEndRun(t: string, i: nat)
    requires i <= |t|
    ensures forall k | i <= k < DigitsEnd(t, i) :: IsDigit(t[k])
    decreases |t| - i
  {
    if i < |t| && IsDigit(t[i]) {
      DigitsEndRun(t, i + 1);
    }
  }

  /** The end of the run of word characters starting at `i`. */
  function WordEnd(t: string, i: nat): (e: nat)
    requires i <= |t|
    ensures i <= e <= |t|
    ensures e < |t| ==> !IsWord(t[e])
    decreases |t| - i
  {
    if i < |t| && IsWord(t[i]) then WordEnd(t, i + 1) else i
  }

  /** Every character WordEnd steps over is a word character. */
  lemma {:induction false} WordEndRun(t: string, i: nat)
    requires i <= |t|
    ensures forall k | i <= k < WordEnd(t, i) :: IsWord(t[k])
    decreases |t| - i
  {
    if i < |t| && IsWord(t[i]) {
      WordEndRun(t, i + 1);
    }
  }

  datatype VersionMatch = VersionMatch(version: string, ext: string)

  /** `\d+\.` at `i`: the position of the dot. */
  function DigitsThenDot(t: string, i: nat): (r: Option<nat>)
    requires i <= |t|
    ensures r.Some? ==> i < r.value < |t| && t[r.value] == '.'
    ensures r.Some? ==> r.value == DigitsEnd(t, i)
  {
    var e := DigitsEnd(t, i);
    if e > i && e < |t| && t[e] == '.' then Some(e) else None
  }

  /** Where the optional `(-\w+)?` starting at `c` ends; `c` itself when it
      is absent. */
  function PreReleaseEnd(t: string, c: nat): (d: nat)
    requires c <= |t|
    ensures c <= d <= |t|
    ensures c < d ==> t[c] == '-' && c + 1 < d && d == WordEnd(t, c + 1)
  {
    if c < |t| && t[c] == '-' && WordEnd(t, c + 1) > c + 1 then WordEnd(t, c + 1) else c
  }

  /** `(mod|zip|info)` at `i`. */
  function ExtAt(t: string, i: nat): (r: Option<string>)
    requires i <= |t|
    ensures r.Some? ==> r.value in {"mod", "zip", "info"} && OccursAt(t, r.value, i)
  {
    if OccursAt(t, "mod", i) then Some("mod")
    else if OccursAt(t, "zip", i) then Some("zip")
    else if OccursAt(t, "info", i) then Some("info")
    else None
  }

  /** `v\d+\.\d+\.\d+` at `s`: where the patch digits end. */
  function PatchEnd(t: string, s: nat): (c: Option<nat>)
    requires s <= |t|
    ensures c.Some? ==> s < c.value <= |t|
  {
    if s < |t| && t[s] == 'v' then
      var a := DigitsThenDot(t, s + 1);
      if a.None? then None
      else
        var b := DigitsThenDot(t, a.value + 1);
        if b.None? then None
        else
          var c := DigitsEnd(t, b.value + 1);
          if c == b.value + 1 then None else Some(c)
    else None
  }

  /** The match starting at `s`, if any. Each `\d+` must be followed by a
      character that is not a digit and `\w+` by one that is not a word
      character, so the greedy runs are the only candidates and
      backtracking cannot find another match. */
  function MatchAt(t: string, s: nat): Option<VersionMatch>
    requires s <= |t|
  {
    var c := PatchEnd(t, s);
    if c.Some? then MatchTail(t, s, c.value) else None
  }

  /** The rest of the match once the patch digits end at `c`: the optional
      pre-release, a dot and the extension. */
  function MatchTail(t: string, s: nat, c: nat): Option<VersionMatch>
    requires s <= c <= |t|
  {
    var d := PreReleaseEnd(t, c);
    if d < |t| && t[d] == '.' then
      var x := ExtAt(t, d + 1);
      if x.Some? then Some(VersionMatch(t[s..d], x.value)) else None
    else None
  }

  /** The leftmost `q` from `s` up to `n` satisfying `p`. */
  function FirstWhere(p: nat -> bool, s: nat, n: nat): (r: Option<nat>)
    requires s <= n
    ensures r.Some? ==> s <= r.value <= n && p(r.value)
    decreases n - s
  {
    if p(s) then Some(s)
    else if s == n then None
    else FirstWhere(p, s + 1, n)
  }

  lemma {:induction false} FirstWhereIsLeftmost(p: nat -> bool, s: nat, n: nat)
    requires s <= n
    ensures FirstWhere(p, s, n).Some? ==> forall q: nat | s <= q < FirstWhere(p, s, n).value :: !p(q)
    ensures FirstWhere(p, s, n).None? ==> forall q: nat | s <= q <= n :: !p(q)
    decreases n - s
  {
    if !p(s) && s < n {
      FirstWhereIsLeftmost(p, s + 1, n);
    }
  }

  /** The starts in `t` where the pattern matches. */
  function MatchesIn(t: string): nat -> bool {
    (q: nat) => q <= |t| && MatchAt(t, q).Some?
  }

  /** The leftmost start at or after `s` where the pattern matches. */
  function FirstMatch(t: string, s: nat): (r: Option<nat>)
    requires s <= |t|
    ensures r.Some? ==> s <= r.value <= |t| && MatchAt(t, r.value).Some?
  {
    FirstWhere(MatchesIn(t), s, |t|)
  }

  /** No start before the one FirstMatch finds matches, and when it finds
      none, no start matches at all. */
  lemma FirstMatchIsLeftmost(t: string, s: nat)
    requires s <= |t|
    ensures FirstMatch(t, s).Some? ==> forall q | s <= q < FirstMatch(t, s).value :: MatchAt(t, q).None?
    ensures FirstMatch(t, s).None? ==> forall q | s <= q <= |t| :: MatchAt(t, q).None?
  {
    FirstWhereIsLeftmost(MatchesIn(t), s, |t|);
    var e := if FirstMatch(t, s).Some? then FirstMatch(t, s).value - 1 else |t|;
    forall q | s <= q <= e
      ensures MatchAt(t, q).None?
    {
      assert !MatchesIn(t)(q);
    }
  }

  /** `regexModZipInfo.FindStringSubmatch(trail)`: groups 1 and 3. There is
      no match exactly when the pattern matches at no start; a match is a
      shaped version with one of the three extensions, and the trail holds
      version + "." + extension. */
  function FindVersion(t: string): (r: Option<VersionMatch>)
    ensures r.None? <==> forall q | 0 <= q <= |t| :: MatchAt(t, q).None?
    ensures r.Some? ==> VersionShaped(r.value.version) && r.value.ext in {"mod", "zip", "info"}
    ensures r.Some? ==> Contains(t, r.value.version + "." + r.value.ext)
    ensures r.Some? ==>
              exists p | 0 <= p <= |t| :: MatchAt(t, p) == r && forall q | 0 <= q < p :: MatchAt(t, q).None?
  {
    var p := FirstMatch(t, 0);
    FirstMatchIsLeftmost(t, 0);
    if p.Some? then MatchIsShaped(t, p.value); MatchAt(t, p.value) else None
  }

  // ---------------------------------------------------------------------
  // The routers

  /** The extension picks the handler; any other extension is a 400 naming
      it. */
  function VersionRouter(version: string, ext: string, repo: string): (r: Route)
    ensures r.BadRequest? <==> ext !in {"mod", "zip", "info"}
    ensures r.BadRequest? ==> r.message == UnknownFileType + ext
    ensures !r.BadRequest? ==> !r.Latest? && !r.List? && r.version == version && r.repo == repo
    ensures r.Mod? <==> ext == "mod"
    ensures r.Zip? <==> ext == "zip"
    ensures r.Info? <==> ext == "info"
  {
    match ext
    case "mod" => Mod(version, repo)
    case "zip" => Zip(version, repo)
    case "info" => Info(version, repo)
    case _ => BadRequest(UnknownFileType + ext)
  }

  /** Which route a trail takes, as the order of the tests decides: no repo
      capture is a 400; then `@latest`, then any trail ending in `list`; then
      the leftmost versioned file, whose extension picks the handler. Every
      400 says "invalid path": VersionRouter's "unknown file type" branch is
      never reached. */
  function CustomRouter(trail: string): (r: Route)
    ensures r.BadRequest? <==>
              RepoOf(trail).None? || (!HasSuffix(trail, "@latest") && !HasSuffix(trail, "list") && FindVersion(trail).None?)
    ensures r.BadRequest? ==> r.message == InvalidPath
    ensures !r.BadRequest? ==> RepoOf(trail).Some? && r.repo == RepoOf(trail).value
    ensures r.Latest? <==> RepoOf(trail).Some? && HasSuffix(trail, "@latest")
    ensures r.List? <==> RepoOf(trail).Some? && !HasSuffix(trail, "@latest") && HasSuffix(trail, "list")
    ensures r.Mod? || r.Zip? || r.Info? ==>
              && !HasSuffix(trail, "@latest") && !HasSuffix(trail, "list")
              && FindVersion(trail) == Some(VersionMatch(r.version, if r.Mod? then "mod" else if r.Zip? then "zip" else "info"))
              && VersionShaped(r.version)
  {
    var repo := RepoOf(trail);
    if repo.None? then BadRequest(InvalidPath)
    else if HasSuffix(trail, "@latest") then Latest(repo.value)
    else if HasSuffix(trail, "list") then List(repo.value)
    else
      var m := FindVersion(trail);
      if m.None? then BadRequest(InvalidPath)
      else VersionRouter(m.value.version, m.value.ext, repo.value)
  }

  // ---------------------------------------------------------------------
  // Properties

  /** Digits and word runs as independent predicates. */
  predicate AllDigits(s: string) {
    |s| > 0 && forall i | 0 <= i < |s| :: IsDigit(s[i])
  }

  predicate AllWord(s: string) {
    |s| > 0 && forall i | 0 <= i < |s| :: IsWord(s[i])
  }

  /** `v` is `v<digits>.<digits>.<digits>` with the dots at `a` and `b`,
      followed by `-<word characters>` when `c` is not its end. */
  predicate ShapedAt(v: string, a: int, b: int, c: int) {
    && 1 < a < b < c <= |v| && v[0] == 'v'
    && AllDigits(v[1..a]) && v[a] == '.'
    && AllDigits(v[a + 1..b]) && v[b] == '.'
    && AllDigits(v[b + 1..c])
    && (c < |v| ==> v[c] == '-' && AllWord(v[c + 1..]))
  }

  predicate VersionShaped(v: string) {
    exists a, b, c | 0 <= a <= |v| && 0 <= b <= |v| && 0 <= c <= |v| :: ShapedAt(v, a, b, c)
  }

  lemma DigitRun(t: string, i: nat, e: nat)
    requires i < e <= |t| && forall k | i <= k < e :: IsDigit(t[k])
    ensures AllDigits(t[i..e])
  {
    assert forall k | 0 <= k < e - i :: t[i..e][k] == t[i + k];
  }

  lemma WordRun(t: string, i: nat, e: nat)
    requires i < e <= |t| && forall k | i <= k < e :: IsWord(t[k])
    ensures AllWord(t[i..e])
  {
    assert forall k | 0 <= k < e - i :: t[i..e][k] == t[i + k];
  }

  /** The positions MatchAt finds: the dots after the major and minor
      digits, the end of the patch digits, and the dot before the
      extension. */
  lemma {:induction false} MatchPositions(t: string, s: nat) returns (a: nat, b: nat, c: nat, d: nat)
    requires s <= |t| && MatchAt(t, s).Some?
    ensures s < |t| && t[s] == 'v'
    ensures DigitsThenDot(t, s + 1) == Some(a) && DigitsThenDot(t, a + 1) == Some(b)
    ensures c == DigitsEnd(t, b + 1) && b + 1 < c && d == PreReleaseEnd(t, c)
    ensures d < |t| && t[d] == '.' && ExtAt(t, d + 1).Some?
    ensures MatchAt(t, s).value == VersionMatch(t[s..d], ExtAt(t, d + 1).value)
  {
    c := PatchEnd(t, s).value;
    a, b := PatchPositions(t, s);
    d := TailPosition(t, s, c);
  }

  /** The dots after the major and minor digits that PatchEnd finds. */
  lemma PatchPositions(t: string, s: nat) returns (a: nat, b: nat)
    requires s <= |t| && PatchEnd(t, s).Some?
    ensures s < |t| && t[s] == 'v'
    ensures DigitsThenDot(t, s + 1) == Some(a) && DigitsThenDot(t, a + 1) == Some(b)
    ensures PatchEnd(t, s).value == DigitsEnd(t, b + 1) && b + 1 < PatchEnd(t, s).value
  {
    a := DigitsThenDot(t, s + 1).value;
    b := DigitsThenDot(t, a + 1).value;
  }

  /** The dot before the extension that MatchTail finds. */
  lemma TailPosition(t: string, s: nat, c: nat) returns (d: nat)
    requires s <= c <= |t| && MatchTail(t, s, c).Some?
    ensures d == PreReleaseEnd(t, c) && d < |t| && t[d] == '.' && ExtAt(t, d + 1).Some?
    ensures MatchTail(t, s, c).value == VersionMatch(t[s..d], ExtAt(t, d + 1).value)
  {
    d := PreReleaseEnd(t, c);
  }

  /** The slice between `s` and `d` is shaped when its runs are. */
  lemma {:induction false} SliceShaped(t: string, s: nat, a: nat, b: nat, c: nat, d: nat)
    requires s + 1 < a < b && b + 1 < c <= d <= |t| && t[s] == 'v' && t[a] == '.' && t[b] == '.'
    requires AllDigits(t[s + 1..a]) && AllDigits(t[a + 1..b]) && AllDigits(t[b + 1..c])
    requires c < d ==> t[c] == '-' && AllWord(t[c + 1..d])
    ensures ShapedAt(t[s..d], a - s, b - s, c - s)
  {
    SubSlice(t, s, d, 1, a - s);
    SubSlice(t, s, d, a - s + 1, b - s);
    SubSlice(t, s, d, b - s + 1, c - s);
    if c < d {
      SubSlice(t, s, d, c - s + 1, d - s);
    }
  }

  /** The runs between the positions MatchPositions finds make the slice
      from `s` to `d` shaped. */
  lemma {:induction false} PositionsShaped(t: string, s: nat, a: nat, b: nat, c: nat, d: nat)
    requires s + 1 < a && a + 1 < b && b + 1 < c <= d <= |t| && t[s] == 'v' && t[a] == '.' && t[b] == '.'
    requires a == DigitsEnd(t, s + 1) && b == DigitsEnd(t, a + 1) && c == DigitsEnd(t, b + 1)
    requires c < d ==> t[c] == '-' && c + 1 < d && d == WordEnd(t, c + 1)
    ensures ShapedAt(t[s..d], a - s, b - s, c - s)
  {
    DigitsEndRun(t, s + 1);
    DigitRun(t, s + 1, a);
    DigitsEndRun(t, a + 1);
    DigitRun(t, a + 1, b);
    DigitsEndRun(t, b + 1);
    DigitRun(t, b + 1, c);
    if c < d {
      WordEndRun(t, c + 1);
      WordRun(t, c + 1, d);
    }
    SliceShaped(t, s, a, b, c, d);
  }

  lemma SubSlice(t: string, s: nat, d: nat, x: nat, y: nat)
    requires s <= d <= |t| && x <= y <= d - s
    ensures t[s..d][x..y] == t[s + x..s + y]
  {
    assert forall k | 0 <= k < y - x :: t[s..d][x..y][k] == t[s + x + k];
  }

  /** The version, a dot and the extension lie contiguously from `s`. */
  lemma {:induction false} VersionThenExt(t: string, s: nat, d: nat, ext: string)
    requires s <= d < |t| && t[d] == '.' && OccursAt(t, ext, d + 1)
    ensures OccursAt(t, t[s..d] + "." + ext, s)
  {
    assert t[s..d + 1 + |ext|] == t[s..d] + t[d..d + 1] + t[d + 1..d + 1 + |ext|];
  }

  lemma {:induction false} MatchIsShaped(t: string, s: nat)
    requires s <= |t| && MatchAt(t, s).Some?
    ensures VersionShaped(MatchAt(t, s).value.version)
    ensures MatchAt(t, s).value.ext in {"mod", "zip", "info"}
    ensures OccursAt(t, MatchAt(t, s).value.version + "." + MatchAt(t, s).value.ext, s)
  {
    var a, b, c, d := MatchPositions(t, s);
    PositionsShaped(t, s, a, b, c, d);
    var v := t[s..d];
    assert 0 <= a - s <= |v| && 0 <= b - s <= |v| && 0 <= c - s <= |v|;
    assert ShapedAt(v, a - s, b - s, c - s);
    VersionThenExt(t, s, d, ExtAt(t, d + 1).value);
  }

  /** A run of digits from `i` to `e` followed by a non-digit is exactly
      where DigitsEnd stops. */
  lemma {:induction false} DigitsEndAt(t: string, i: nat, e: nat)
    requires i <= e <= |t| && (forall k | i <= k < e :: IsDigit(t[k])) && (e < |t| ==> !IsDigit(t[e]))
    ensures DigitsEnd(t, i) == e
    decreases e - i
  {
    if i < e {
      DigitsEndAt(t, i + 1, e);
    }
  }

  /** The same for runs of word characters and WordEnd. */
  lemma {:induction false} WordEndAt(t: string, i: nat, e: nat)
    requires i <= e <= |t| && (forall k | i <= k < e :: IsWord(t[k])) && (e < |t| ==> !IsWord(t[e]))
    ensures WordEnd(t, i) == e
    decreases e - i
  {
    if i < e {
      WordEndAt(t, i + 1, e);
    }
  }

  /** The digits of `v[i..e]` are digits of `t` once `v` lies at `s`. */
  lemma CopiedDigits(t: string, s: nat, v: string, i: nat, e: nat)
    requires s + |v| <= |t| && t[s..s + |v|] == v && i <= e <= |v| && AllDigits(v[i..e])
    ensures forall k | s + i <= k < s + e :: IsDigit(t[k])
  {
    forall k | s + i <= k < s + e
      ensures IsDigit(t[k])
    {
      assert t[k] == t[s..s + |v|][k - s] == v[i..e][k - s - i];
    }
  }

  /** The word characters of `v[i..e]` likewise. */
  lemma CopiedWord(t: string, s: nat, v: string, i: nat, e: nat)
    requires s + |v| <= |t| && t[s..s + |v|] == v && i <= e <= |v| && AllWord(v[i..e])
    ensures forall k | s + i <= k < s + e :: IsWord(t[k])
  {
    forall k | s + i <= k < s + e
      ensures IsWord(t[k])
    {
      assert t[k] == t[s..s + |v|][k - s] == v[i..e][k - s - i];
    }
  }

  /** The pieces of an occurrence of `v + "." + ext` at `s`. */
  lemma OccurrenceParts(t: string, s: nat, v: string, ext: string)
    requires OccursAt(t, v + "." + ext, s)
    ensures s + |v| < |t| && t[s..s + |v|] == v && t[s + |v|] == '.' && OccursAt(t, ext, s + |v| + 1)
  {
    var w := v + "." + ext;
    assert t[s..s + |v|] == w[..|v|];
    assert t[s + |v|] == w[|v|];
    assert t[s + |v| + 1..s + |v| + 1 + |ext|] == w[|v| + 1..];
  }

  /** Which extension ExtAt reads where `ext` occurs. */
  lemma ExtAtOccurrence(t: string, i: nat, ext: string)
    requires i <= |t| && ext in {"mod", "zip", "info"} && OccursAt(t, ext, i)
    ensures ExtAt(t, i) == Some(ext)
  {
    assert t[i] == t[i..i + |ext|][0] == ext[0];
  }

  /** The patch digits and the optional pre-release of a shaped version at
      `s`: the match ends where the version does. */
  lemma {:induction false} TailComplete(t: string, s: nat, v: string, a: nat, b: nat, c: nat)
    requires s + |v| < |t| && t[s..s + |v|] == v && t[s + |v|] == '.' && ShapedAt(v, a, b, c)
    ensures b + 1 < c <= |v|
    ensures DigitsEnd(t, s + b + 1) == s + c
    ensures PreReleaseEnd(t, s + c) == s + |v|
  {
    CopiedDigits(t, s, v, b + 1, c);
    if c < |v| {
      assert t[s + c] == t[s..s + |v|][c] == '-';
      DigitsEndAt(t, s + b + 1, s + c);
      CopiedWord(t, s, v, c + 1, |v|);
      WordEndAt(t, s + c + 1, s + |v|);
    } else {
      DigitsEndAt(t, s + b + 1, s + c);
    }
  }

  /** The `v`, major and minor digits of a shaped version at `s`. */
  lemma {:induction false} HeadComplete(t: string, s: nat, v: string, a: nat, b: nat, c: nat)
    requires s + |v| < |t| && t[s..s + |v|] == v && ShapedAt(v, a, b, c)
    ensures t[s] == 'v'
    ensures DigitsThenDot(t, s + 1) == Some(s + a)
    ensures DigitsThenDot(t, s + a + 1) == Some(s + b)
  {
    assert t[s] == t[s..s + |v|][0];
    assert t[s + a] == t[s..s + |v|][a];
    assert t[s + b] == t[s..s + |v|][b];
    CopiedDigits(t, s, v, 1, a);
    DigitsEndAt(t, s + 1, s + a);
    CopiedDigits(t, s, v, a + 1, b);
    DigitsEndAt(t, s + a + 1, s + b);
  }

  /** The rest of the match, from the end of the patch digits. */
  lemma {:induction false} TailMatches(t: string, s: nat, v: string, ext: string, c: nat)
    requires s + |v| < |t| && s + c <= s + |v| && t[s..s + |v|] == v && t[s + |v|] == '.'
    requires PreReleaseEnd(t, s + c) == s + |v| && ExtAt(t, s + |v| + 1) == Some(ext)
    ensures MatchTail(t, s, s + c) == Some(VersionMatch(v, ext))
  {
  }

  /** MatchAt once PatchEnd is known. */
  lemma MatchAtPatch(t: string, s: nat, c: nat)
    requires s <= |t| && PatchEnd(t, s) == Some(c)
    ensures MatchAt(t, s) == MatchTail(t, s, c)
  {
  }

  /** PatchEnd at `s` once its runs are known. */
  lemma PatchEndAt(t: string, s: nat, a: nat, b: nat, c: nat)
    requires s < |t| && t[s] == 'v' && DigitsThenDot(t, s + 1) == Some(a) && DigitsThenDot(t, a + 1) == Some(b)
    requires b + 1 < c && DigitsEnd(t, b + 1) == c
    ensures PatchEnd(t, s) == Some(c)
  {
  }

  /** Where a shaped version followed by "." and an extension lies, the
      pattern matches, capturing exactly that version and extension. */
  lemma {:induction false} MatchComplete(t: string, s: nat, v: string, ext: string)
    requires VersionShaped(v) && ext in {"mod", "zip", "info"} && OccursAt(t, v + "." + ext, s)
    ensures s <= |t| && MatchAt(t, s) == Some(VersionMatch(v, ext))
  {
    OccurrenceParts(t, s, v, ext);
    ExtAtOccurrence(t, s + |v| + 1, ext);
    var a, b, c :| 0 <= a <= |v| && 0 <= b <= |v| && 0 <= c <= |v| && ShapedAt(v, a, b, c);
    ShapedMatches(t, s, v, ext, a, b, c);
  }

  /** MatchComplete with the occurrence taken apart. */
  lemma {:induction false} ShapedMatches(t: string, s: nat, v: string, ext: string, a: nat, b: nat, c: nat)
    requires s + |v| < |t| && t[s..s + |v|] == v && t[s + |v|] == '.' && ExtAt(t, s + |v| + 1) == Some(ext)
    requires ShapedAt(v, a, b, c)
    ensures MatchAt(t, s) == Some(VersionMatch(v, ext))
  {
    HeadComplete(t, s, v, a, b, c);
    TailComplete(t, s, v, a, b, c);
    RunsMatch(t, s, v, ext, s + a, s + b, s + c);
  }

  /** The match once every run of the pattern has been located. */
  lemma {:induction false} RunsMatch(t: string, s: nat, v: string, ext: string, a: nat, b: nat, c: nat)
    requires s < |t| && t[s] == 'v' && DigitsThenDot(t, s + 1) == Some(a) && DigitsThenDot(t, a + 1) == Some(b)
    requires b + 1 < c <= s + |v| < |t| && DigitsEnd(t, b + 1) == c && PreReleaseEnd(t, c) == s + |v|
    requires t[s..s + |v|] == v && t[s + |v|] == '.' && ExtAt(t, s + |v| + 1) == Some(ext)
    ensures MatchAt(t, s) == Some(VersionMatch(v, ext))
  {
    TailMatches(t, s, v, ext, c - s);
    PatchEndAt(t, s, a, b, c);
    MatchAtPatch(t, s, c);
  }

  /** So FindVersion finds a match whenever the trail holds a shaped version
      followed by "." and an extension, at that occurrence or before it. */
  lemma FindVersionComplete(t: string, s: nat, v: string, ext: string)
    requires VersionShaped(v) && ext in {"mod", "zip", "info"} && OccursAt(t, v + "." + ext, s)
    ensures FindVersion(t).Some?
    ensures FirstMatch(t, 0).Some? && FirstMatch(t, 0).value <= s
  {
    MatchComplete(t, s, v, ext);
    FirstMatchIsLeftmost(t, 0);
  }

  /** The repository is everything up to the last `/@`. */
  lemma RepoIsLongestCapture()
    ensures RepoOf("/a/@v/b/@v/list") == Some("a/@v/b")
  {
    var t := "/a/@v/b/@v/list";
    assert RepoEndAt(t, 7);
    assert LastRepoEnd(t, |t| - 2) == Some(7) by {
      forall j | 7 < j <= |t| - 2 ensures !RepoEndAt(t, j) {
        assert t[j + 1] != '@';
      }
    }
    assert t[1..7] == "a/@v/b";
  }

  /** A trail that merely ends in "list" is a list request. */
  lemma AnyListSuffixIsList()
    ensures CustomRouter("/a/@v/checklist") == List("a")
  {
    var u := "/a/@v/checklist";
    assert RepoEndAt(u, 2);
    assert LastRepoEnd(u, |u| - 2) == Some(2) by {
      forall j | 2 < j <= |u| - 2 ensures !RepoEndAt(u, j) {
        assert u[j + 1] != '@';
      }
    }
    assert u[1..2] == "a";
    assert HasSuffix(u, "list") && !HasSuffix(u, "@latest");
  }

  /** `(.+)` needs at least one character: `/@latest` has no repository. */
  lemma EmptyRepoRejected()
    ensures CustomRouter("/@latest") == BadRequest(InvalidPath)
  {
  }
}
