/** Shared vocabulary of the model: bytes, optional values and the few string
    predicates (prefix, suffix, substring) that the Go standard library supplies.

    A Go `string` is a sequence of bytes. The model writes Go strings as Dafny
    `string`s whose characters are those bytes, and Go `[]byte` values as `Bytes`. */
module Base {

  newtype byte = b: int | 0 <= b < 256

  type Bytes = seq<byte>

  datatype Option<+T> = None | Some(value: T)

  datatype Result<+T, +E> = Success(value: T) | Failure(error: E)

  /** `strings.HasPrefix`. */
  predicate HasPrefix(s: string, p: string) {
    |p| <= |s| && s[..|p|] == p
  }

  /** `strings.HasSuffix`. */
  predicate HasSuffix(s: string, p: string) {
    |p| <= |s| && s[|s| - |p|..] == p
  }

  /** `t` occurs in `s` at offset `i`. */
  predicate OccursAt(s: string, t: string, i: int) {
    0 <= i <= |s| - |t| && s[i..i + |t|] == t
  }

  /** `strings.Contains`: `t` occurs in `s` at some offset. */
  predicate Contains(s: string, t: string) {
    exists i | 0 <= i <= |s| - |t| :: OccursAt(s, t, i)
  }

  lemma ShorterDoesNotContain(s: string, t: string)
    requires |s| < |t|
    ensures !Contains(s, t)
  {
  }

  lemma PrefixContained(s: string, t: string)
    requires HasPrefix(s, t)
    ensures Contains(s, t)
  {
    assert OccursAt(s, t, 0);
  }

  /** Two strings that end in different characters are different, whatever
      their common prefix. */
  lemma DistinctSuffixes(p: string, a: string, b: string)
    requires |a| > 0 && |b| > 0 && a[|a| - 1] != b[|b| - 1]
    ensures p + a != p + b
  {
    assert (p + a)[|p + a| - 1] == a[|a| - 1];
    assert (p + b)[|p + b| - 1] == b[|b| - 1];
  }
}
