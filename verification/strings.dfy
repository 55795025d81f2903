/**
 * The few string operations of the ECMAScript runtime that the site's logic
 * relies on: `trim`, the `\s` character class, `startsWith`/`endsWith`, and
 * joining a list of text chunks.
 */
module Strings {
  import opened Wrappers

  /**
   * ECMAScript white space and line terminators. `String.prototype.trim` strips
   * exactly these characters, and the regular-expression class `\s` matches
   * exactly these characters, so one predicate serves both.
   */
  predicate IsSpace(c: char) {
    || c == '\t' || c == '\n' || c == '\U{000B}' || c == '\U{000C}' || c == '\r'
    || c == ' ' || c == '\U{00A0}' || c == '\U{1680}'
    || ('\U{2000}' <= c <= '\U{200A}')
    || c == '\U{2028}' || c == '\U{2029}' || c == '\U{202F}' || c == '\U{205F}'
    || c == '\U{3000}' || c == '\U{FEFF}'
  }

  /** No character of `s` is white space. */
  predicate NoSpace(s: string) {
    forall i | 0 <= i < |s| :: !IsSpace(s[i])
  }

  /** Every character of `s` is white space (vacuously so for ""). */
  predicate AllSpace(s: string) {
    forall i | 0 <= i < |s| :: IsSpace(s[i])
  }

  /** The first position at or after `i` that does not hold white space (`|s|` if none). */
  function SkipSpace(s: string, i: nat): (r: nat)
    requires i <= |s|
    ensures i <= r <= |s|
    ensures forall k | i <= k < r :: IsSpace(s[k])
    ensures r == |s| || !IsSpace(s[r])
    decreases |s| - i
  {
    if i == |s| || !IsSpace(s[i]) then i else SkipSpace(s, i + 1)
  }

  /** The end of `s[..j]` once its trailing white space is dropped. */
  function SkipSpaceBack(s: string, j: nat): (r: nat)
    requires j <= |s|
    ensures r <= j
    ensures forall k | r <= k < j :: IsSpace(s[k])
    ensures r == 0 || !IsSpace(s[r - 1])
  {
    if j == 0 || !IsSpace(s[j - 1]) then j else SkipSpaceBack(s, j - 1)
  }

  /** Drops leading white space: what is left is a suffix of `s` that does not start with white space. */
  function TrimStart(s: string): (r: string)
    ensures |r| <= |s| && r == s[|s| - |r|..]
    ensures forall i | 0 <= i < |s| - |r| :: IsSpace(s[i])
    ensures r == [] || !IsSpace(r[0])
  {
    s[SkipSpace(s, 0)..]
  }

  /** Drops trailing white space: what is left is a prefix of `s` that does not end with white space. */
  function TrimEnd(s: string): (r: string)
    ensures |r| <= |s| && r == s[..|r|]
    ensures forall i | |r| <= i < |s| :: IsSpace(s[i])
    ensures r == [] || !IsSpace(r[|r| - 1])
  {
    s[..SkipSpaceBack(s, |s|)]
  }

  /** `String.prototype.trim`. */
  function Trim(s: string): (r: string)
    ensures |r| <= |s|
    ensures r == [] || (!IsSpace(r[0]) && !IsSpace(r[|r| - 1]))
  {
    TrimEnd(TrimStart(s))
  }

  /** JavaScript's `!s.trim()`: the trimmed string is empty, i.e. falsy. */
  predicate IsBlank(s: string) {
    Trim(s) == ""
  }

  /** `!value?.trim()` on an optional JSON member: absent, or only white space. */
  predicate Missing(value: Option<string>) {
    value.None? || IsBlank(value.value)
  }

  /** `s.startsWith(p)`. */
  predicate StartsWith(s: string, p: string) {
    |p| <= |s| && s[..|p|] == p
  }

  /** `s.endsWith(p)`. */
  predicate EndsWith(s: string, p: string) {
    |p| <= |s| && s[|s| - |p|..] == p
  }

  /** `s.indexOf(c, start)`, with "not found" written as `|s|`: the first position at or after `start` holding `c`. */
  function IndexFrom(s: string, start: nat, c: char): (r: nat)
    requires start <= |s|
    ensures start <= r <= |s|
    ensures r < |s| ==> s[r] == c
    ensures forall k | start <= k < r :: s[k] != c
    decreases |s| - start
  {
    if start == |s| || s[start] == c then start else IndexFrom(s, start + 1, c)
  }

  /** The chunks joined in order (`+=` over the list, or `Array.prototype.join("")`). */
  function Concat(chunks: seq<string>): string {
    if chunks == [] then "" else Concat(chunks[..|chunks| - 1]) + chunks[|chunks| - 1]
  }

  /** Trimming keeps a middle slice of `s`: everything cut from either end is white space. */
  lemma TrimIsSlice(s: string)
    ensures var i := |s| - |TrimStart(s)|;
      && i + |Trim(s)| <= |s|
      && Trim(s) == s[i..i + |Trim(s)|]
      && (forall k | 0 <= k < i :: IsSpace(s[k]))
      && (forall k | i + |Trim(s)| <= k < |s| :: IsSpace(s[k]))
  {
    var t := TrimStart(s);
    var i := |s| - |t|;
    var r := TrimEnd(t);
    assert r == t[..|r|] && t == s[i..];
    assert r == s[i..i + |r|];
    assert forall k | i + |r| <= k < |s| :: s[k] == t[k - i];
    assert forall k | 0 <= k < i :: IsSpace(s[k]);
    assert forall k | i + |r| <= k < |s| :: IsSpace(s[k]);
    assert Trim(s) == r;
  }

  /** A string is blank exactly when it consists of white space only. */
  lemma BlankIffAllSpace(s: string)
    ensures IsBlank(s) <==> AllSpace(s)
  {
    TrimIsSlice(s);
  }

  /** Trimming a string that holds no white space changes nothing. */
  lemma TrimNoSpace(s: string)
    requires NoSpace(s)
    ensures Trim(s) == s
  {
    var i := SkipSpace(s, 0);
    assert i == 0;
    var j := SkipSpaceBack(s, |s|);
    assert j == |s|;
  }

  /** Trimming twice is trimming once. */
  lemma TrimIdempotent(s: string)
    ensures Trim(Trim(s)) == Trim(s)
  {
    var r := Trim(s);
    assert TrimStart(r) == r;
    assert TrimEnd(r) == r;
  }

  /** Joining distributes over sequence concatenation. */
  lemma {:induction false} ConcatAppend(a: seq<string>, b: seq<string>)
    ensures Concat(a + b) == Concat(a) + Concat(b)
    decreases |b|
  {
    if b == [] {
      assert a + b == a;
    } else {
      var b' := b[..|b| - 1];
      assert (a + b)[..|a + b| - 1] == a + b';
      ConcatAppend(a, b');
    }
  }

  /** Joining `[x] + rest` puts `x` in front. */
  lemma ConcatCons(x: string, rest: seq<string>)
    ensures Concat([x] + rest) == x + Concat(rest)
  {
    ConcatAppend([x], rest);
    assert Concat([x]) == Concat([]) + x;
  }
}
