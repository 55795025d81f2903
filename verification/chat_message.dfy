/**
 * The chat bubble's light markup (`formatText`): the text is split around
 * bold (`**x**`), link (`[label](url)`) and inline-code (`` `x` ``) tokens,
 * and each part is then rendered by looking at how it starts and ends.
 */
module ChatMessage {
  import opened Wrappers
  import opened Strings

  /** `\*\*[^*]+\*\*` matched as a whole. */
  predicate IsBoldToken(t: string) {
    && |t| >= 5 && t[0] == '*' && t[1] == '*' && t[|t| - 2] == '*' && t[|t| - 1] == '*'
    && forall k | 2 <= k < |t| - 2 :: t[k] != '*'
  }

  /** `\[[^\]]+\]\([^)]+\)` matched as a whole, with the label's closing ']' at `j`. */
  predicate IsLinkTokenAt(t: string, j: nat) {
    && 1 < j && j + 3 < |t|
    && t[0] == '[' && t[j] == ']' && t[j + 1] == '(' && t[|t| - 1] == ')'
    && (forall k | 1 <= k < j :: t[k] != ']')
    && (forall k | j + 2 <= k < |t| - 1 :: t[k] != ')')
  }

  predicate IsLinkToken(t: string) {
    exists j | 0 <= j < |t| :: IsLinkTokenAt(t, j)
  }

  /** `` `[^`]+` `` matched as a whole. */
  predicate IsCodeToken(t: string) {
    && |t| >= 3 && t[0] == '`' && t[|t| - 1] == '`'
    && forall k | 1 <= k < |t| - 1 :: t[k] != '`'
  }

  /** A whole match of the splitting pattern. */
  predicate IsToken(t: string) {
    IsBoldToken(t) || IsLinkToken(t) || IsCodeToken(t)
  }

  /** Where a bold token starting at `q` ends, if one does. */
  function BoldEnd(s: string, q: nat): (e: Option<nat>)
    requires q <= |s|
    ensures e.Some? ==> q < e.value <= |s| && IsBoldToken(s[q..e.value])
  {
    if q + 1 < |s| && s[q] == '*' && s[q + 1] == '*' then
      var j := IndexFrom(s, q + 2, '*');
      if j > q + 2 && j + 1 < |s| && s[j + 1] == '*' then
        var t := s[q..j + 2];
        assert forall k | 0 <= k < |t| :: t[k] == s[q + k];
        Some(j + 2)
      else None
    else None
  }

  /** Where a link token starting at `q` ends, if one does. */
  function LinkEnd(s: string, q: nat): (e: Option<nat>)
    requires q <= |s|
    ensures e.Some? ==> q < e.value <= |s| && IsLinkToken(s[q..e.value])
  {
    if q < |s| && s[q] == '[' then
      var j := IndexFrom(s, q + 1, ']');
      if j > q + 1 && j + 1 < |s| && s[j + 1] == '(' then
        var k := IndexFrom(s, j + 2, ')');
        if k > j + 2 && k < |s| then
          var t := s[q..k + 1];
          assert forall i | 0 <= i < |t| :: t[i] == s[q + i];
          assert IsLinkTokenAt(t, j - q);
          Some(k + 1)
        else None
      else None
    else None
  }

  /** Where a code token starting at `q` ends, if one does. */
  function CodeEnd(s: string, q: nat): (e: Option<nat>)
    requires q <= |s|
    ensures e.Some? ==> q < e.value <= |s| && IsCodeToken(s[q..e.value])
  {
    if q < |s| && s[q] == '`' then
      var j := IndexFrom(s, q + 1, '`');
      if j > q + 1 && j < |s| then
        var t := s[q..j + 1];
        assert forall k | 0 <= k < |t| :: t[k] == s[q + k];
        Some(j + 1)
      else None
    else None
  }

  /** The pattern's alternatives tried in order at position `q`; what is found is a whole token. */
  function MatchAt(s: string, q: nat): (m: Option<nat>)
    requires q <= |s|
    ensures m.Some? ==> q < m.value <= |s| && IsToken(s[q..m.value])
  {
    var bold := BoldEnd(s, q);
    if bold.Some? then bold
    else
      var link := LinkEnd(s, q);
      if link.Some? then link else CodeEnd(s, q)
  }

  /** Conversely, wherever a whole token starts, the pattern finds exactly it. */
  lemma MatchAtFindsToken(s: string, q: nat, e: nat)
    requires q < e <= |s| && IsToken(s[q..e])
    ensures MatchAt(s, q) == Some(e)
  {
    var t := s[q..e];
    if IsBoldToken(t) {
      BoldEndFinds(s, q, e);
    } else if IsLinkToken(t) {
      assert t[0] == s[q];
      LinkEndFinds(s, q, e);
    } else {
      assert t[0] == s[q];
      CodeEndFinds(s, q, e);
    }
  }

  lemma BoldEndFinds(s: string, q: nat, e: nat)
    requires q < e <= |s| && IsBoldToken(s[q..e])
    ensures BoldEnd(s, q) == Some(e)
  {
    var t := s[q..e];
    assert forall k | 0 <= k < |t| :: t[k] == s[q + k];
    assert IndexFrom(s, q + 2, '*') == e - 2;
  }

  lemma LinkEndFinds(s: string, q: nat, e: nat)
    requires q < e <= |s| && IsLinkToken(s[q..e])
    ensures LinkEnd(s, q) == Some(e)
  {
    var t := s[q..e];
    assert forall k | 0 <= k < |t| :: t[k] == s[q + k];
    var j :| 0 <= j < |t| && IsLinkTokenAt(t, j);
    assert IndexFrom(s, q + 1, ']') == q + j;
    assert IndexFrom(s, q + j + 2, ')') == e - 1;
  }

  lemma CodeEndFinds(s: string, q: nat, e: nat)
    requires q < e <= |s| && IsCodeToken(s[q..e])
    ensures CodeEnd(s, q) == Some(e)
  {
    var t := s[q..e];
    assert forall k | 0 <= k < |t| :: t[k] == s[q + k];
    assert IndexFrom(s, q + 1, '`') == e - 1;
  }

  /**
   * `text.split(/(…)/g)` from position `q` on, the current plain part having
   * started at `p`: plain parts and captured tokens alternate, starting and
   * ending with a (possibly empty) plain part, and together they spell out
   * the text from `p` on.
   */
  function SplitFrom(s: string, p: nat, q: nat): (parts: seq<string>)
    requires p <= q <= |s|
    ensures |parts| % 2 == 1
    ensures Concat(parts) == s[p..]
    decreases |s| - q
  {
    if q == |s| then
      assert Concat([s[p..]]) == Concat([]) + s[p..];
      [s[p..]]
    else
      match MatchAt(s, q)
      case Some(e) =>
        var rest := SplitFrom(s, e, e);
        ConcatAtToken(s, p, q, e, rest);
        [s[p..q], s[q..e]] + rest
      case None => SplitFrom(s, p, q + 1)
  }

  /** A plain part, a token and parts spelling out the rest spell out the text from `p` on. */
  lemma ConcatAtToken(s: string, p: nat, q: nat, e: nat, rest: seq<string>)
    requires p <= q <= e <= |s| && Concat(rest) == s[e..]
    ensures Concat([s[p..q], s[q..e]] + rest) == s[p..]
  {
    ConcatCons(s[q..e], rest);
    ConcatCons(s[p..q], [s[q..e]] + rest);
    assert [s[p..q], s[q..e]] + rest == [s[p..q]] + ([s[q..e]] + rest);
    assert s[q..] == s[q..e] + s[e..];
    assert s[p..] == s[p..q] + s[q..];
  }

  /** No token of `rest` starts inside its first `|plain|` characters. */
  ghost predicate NoTokenStarts(plain: string, rest: string) {
    forall k, e {:trigger IsToken(rest[k..e])} | 0 <= k < |plain| && k < e <= |rest| :: !IsToken(rest[k..e])
  }

  /**
   * The parts alternate: odd positions hold whole tokens, and no token of the
   * remaining text starts inside a plain part (even position), which is the
   * leftmost-first rule of a global regular-expression split.
   */
  ghost predicate Alternates(parts: seq<string>) {
    forall i | 0 <= i < |parts| :: PartFits(parts, i)
  }

  /** Part `i` is a whole token (odd `i`), or a plain part inside which no token of the remaining text starts. */
  ghost predicate PartFits(parts: seq<string>, i: nat)
    requires i < |parts|
  {
    if i % 2 == 1 then IsToken(parts[i]) else NoTokenStarts(parts[i], Concat(parts[i..]))
  }

  /** `text.split(/(…)/g)`: an odd number of parts that join to give back the text. */
  function Split(text: string): (parts: seq<string>)
    ensures |parts| % 2 == 1
    ensures Concat(parts) == text
  {
    assert text[0..] == text;
    SplitFrom(text, 0, 0)
  }

  /** The parts of the split text alternate: whole tokens at odd positions, no token starting inside a plain part. */
  lemma SplitParts(text: string)
    ensures Alternates(Split(text))
  {
    SplitFromParts(text, 0, 0);
  }

  lemma AlternatesCons(plain: string, token: string, rest: seq<string>)
    requires NoTokenStarts(plain, Concat([plain, token] + rest)) && IsToken(token) && Alternates(rest)
    ensures Alternates([plain, token] + rest)
  {
    var parts := [plain, token] + rest;
    forall i | 0 <= i < |parts|
      ensures PartFits(parts, i)
    {
      if i == 0 {
        assert parts[0..] == parts;
      } else if i >= 2 {
        assert PartFits(rest, i - 2);
        assert parts[2..] == rest;
        assert parts[i..] == parts[2..][i - 2..];
        assert parts[i] == rest[i - 2] && parts[i..] == rest[i - 2..] && (i - 2) % 2 == i % 2;
      }
    }
  }

  /** The tail of alternating parts, after a plain part and a token, alternates too. */
  lemma AlternatesTail(parts: seq<string>)
    requires Alternates(parts) && |parts| >= 2
    ensures IsToken(parts[1]) && Alternates(parts[2..])
  {
    assert PartFits(parts, 1);
    var rest := parts[2..];
    forall i | 0 <= i < |rest|
      ensures PartFits(rest, i)
    {
      assert PartFits(parts, i + 2);
      assert rest[i] == parts[i + 2] && rest[i..] == parts[i + 2..] && (i + 2) % 2 == i % 2;
    }
  }

  /** The scan from `q` on, with no token found since `p`, yields alternating parts. */
  lemma {:induction false} SplitFromParts(s: string, p: nat, q: nat)
    requires p <= q <= |s|
    requires forall k | p <= k < q :: MatchAt(s, k).None?
    ensures Alternates(SplitFrom(s, p, q))
    decreases |s| - q
  {
    if q == |s| {
      PlainHasNoTokenStart(s, p, q);
      assert s[p..q] == s[p..];
      var parts := SplitFrom(s, p, q);
      assert parts == [s[p..]] && parts[0..] == parts;
      assert PartFits(parts, 0);
    } else {
      var m := MatchAt(s, q);
      if m.Some? {
        var e := m.value;
        PlainHasNoTokenStart(s, p, q);
        SplitFromParts(s, e, e);
        SplitFromAtMatch(s, p, q, e);
        AlternatesCons(s[p..q], s[q..e], SplitFrom(s, e, e));
      } else {
        var next := q + 1;
        SplitFromParts(s, p, next);
        SplitFromSkip(s, p, q, next);
      }
    }
  }

  /** Where the pattern matches nowhere in `s[p..q]`, no token of `s[p..]` starts there. */
  lemma PlainHasNoTokenStart(s: string, p: nat, q: nat)
    requires p <= q <= |s|
    requires forall k | p <= k < q :: MatchAt(s, k).None?
    ensures NoTokenStarts(s[p..q], s[p..])
  {
    forall k, e | 0 <= k < q - p && k < e <= |s| - p
      ensures !IsToken(s[p..][k..e])
    {
      assert s[p..][k..e] == s[p + k..p + e];
      if IsToken(s[p + k..p + e]) {
        MatchAtFindsToken(s, p + k, p + e);
      }
    }
  }

  /** A decomposition of `s[p..]` starts with its first part, and the rest spell out what follows. */
  lemma FirstPartSlices(s: string, p: nat, parts: seq<string>)
    requires p <= |s| && |parts| >= 1 && Concat(parts) == s[p..]
    ensures p + |parts[0]| <= |s| && s[p..p + |parts[0]|] == parts[0]
    ensures s[p + |parts[0]|..] == Concat(parts[1..])
  {
    ConcatCons(parts[0], parts[1..]);
    assert parts == [parts[0]] + parts[1..];
    assert s[p..] == parts[0] + Concat(parts[1..]);
  }

  /** The pattern matches nowhere inside a plain stretch at `p`, where no token of `s[p..]` starts. */
  lemma NoMatchInPlain(s: string, p: nat, plain: string, k: nat)
    requires p <= k < p + |plain| <= |s| && NoTokenStarts(plain, s[p..])
    ensures MatchAt(s, k).None?
  {
    forall e | k < e <= |s|
      ensures !IsToken(s[k..e])
    {
      var r := s[p..];
      assert forall i | 0 <= i < e - k :: r[k - p..e - p][i] == s[k..e][i];
      assert s[k..e] == r[k - p..e - p] && !IsToken(r[k - p..e - p]);
    }
  }

  /** After the first plain part of a decomposition comes the token the pattern matches there. */
  lemma SecondPartIsMatch(s: string, q: nat, parts: seq<string>)
    requires q <= |s| && |parts| >= 2
    requires s[q..] == Concat(parts[1..]) && IsToken(parts[1])
    ensures q + |parts[1]| <= |s| && MatchAt(s, q) == Some(q + |parts[1]|)
    ensures s[q..q + |parts[1]|] == parts[1] && s[q + |parts[1]|..] == Concat(parts[2..])
  {
    var token, tail := parts[1], parts[2..];
    assert parts[1..] == [token] + tail;
    ConcatCons(token, tail);
    var e := q + |token|;
    assert s[q..] == token + Concat(tail);
    assert s[q..e] == token;
    MatchAtFindsToken(s, q, e);
  }

  /** Any alternating decomposition of `s[p..]` is the one the scan from `p` produces. */
  lemma {:induction false} SplitFromUnique(s: string, p: nat, parts: seq<string>)
    requires p <= |s|
    requires |parts| % 2 == 1 && Concat(parts) == s[p..] && Alternates(parts)
    ensures SplitFrom(s, p, p) == parts
    decreases |parts|, 2
  {
    FirstPartSlices(s, p, parts);
    var q := p + |parts[0]|;
    SkipFirstPart(s, p, parts, q);
    SplitFromUniqueRest(s, p, q, parts);
  }

  /** After the first plain part, the scan yields the decomposition. */
  lemma {:induction false} SplitFromUniqueRest(s: string, p: nat, q: nat, parts: seq<string>)
    requires |parts| % 2 == 1 && Alternates(parts)
    requires q == p + |parts[0]| <= |s| && s[p..q] == parts[0] && s[q..] == Concat(parts[1..])
    ensures SplitFrom(s, p, q) == parts
    decreases |parts|, 1
  {
    if |parts| == 1 {
      SplitFromUniqueEnd(s, p, q, parts);
    } else {
      AlternatesTail(parts);
      SplitFromUniqueStep(s, p, q, parts);
    }
  }

  /**
   * The scan passes over a plain stretch at `p`, inside which no token of
   * `s[p..]` starts: its result is the same from `q` and from `r`.
   */
  lemma {:induction false} SkipPlain(s: string, p: nat, plain: string, q: nat, r: nat)
    requires p <= q <= r <= p + |plain| <= |s| && NoTokenStarts(plain, s[p..])
    ensures SplitFrom(s, p, q) == SplitFrom(s, p, r)
    decreases r - q
  {
    if q < r {
      var next := q + 1;
      SkipPlainPosition(s, p, plain, q, next);
      SkipPlain(s, p, plain, next, r);
    }
  }

  /** The scan passes over the first part, ending at `r`, of an alternating decomposition of `s[p..]`. */
  lemma SkipFirstPart(s: string, p: nat, parts: seq<string>, r: nat)
    requires p <= |s| && |parts| >= 1 && Concat(parts) == s[p..] && Alternates(parts)
    requires r == p + |parts[0]| <= |s|
    ensures SplitFrom(s, p, p) == SplitFrom(s, p, r)
  {
    FirstPartIsPlain(s, p, parts);
    SkipPlain(s, p, parts[0], p, r);
  }

  /** No token of `s[p..]` starts inside the first part of an alternating decomposition of it. */
  lemma FirstPartIsPlain(s: string, p: nat, parts: seq<string>)
    requires p <= |s| && |parts| >= 1 && Concat(parts) == s[p..] && Alternates(parts)
    ensures NoTokenStarts(parts[0], s[p..])
  {
    assert PartFits(parts, 0) && parts[0..] == parts;
  }

  /** A single plain part that reaches the end of `s` is what the scan yields there. */
  lemma SplitFromUniqueEnd(s: string, p: nat, q: nat, parts: seq<string>)
    requires |parts| == 1
    requires q == p + |parts[0]| <= |s| && s[p..q] == parts[0] && s[q..] == Concat(parts[1..])
    ensures SplitFrom(s, p, q) == parts
  {
    assert parts[1..] == [] && Concat(parts[1..]) == "";
    assert q == |s| && s[p..q] == s[p..];
    assert parts == [parts[0]];
  }

  /** The inductive step: a plain part, the token matched after it, and the scan of the rest. */
  lemma {:induction false} SplitFromUniqueStep(s: string, p: nat, q: nat, parts: seq<string>)
    requires |parts| >= 3 && |parts| % 2 == 1
    requires IsToken(parts[1]) && Alternates(parts[2..])
    requires q == p + |parts[0]| <= |s| && s[p..q] == parts[0] && s[q..] == Concat(parts[1..])
    ensures SplitFrom(s, p, q) == parts
    decreases |parts|, 0
  {
    SecondPartIsMatch(s, q, parts);
    var e := q + |parts[1]|;
    SplitFromUnique(s, e, parts[2..]);
    SplitFromAtToken(s, p, q, e, parts);
  }

  /** The scan at a token: the plain part before it, the token, and what the scan after it yields. */
  lemma SplitFromAtToken(s: string, p: nat, q: nat, e: nat, parts: seq<string>)
    requires p <= q < e <= |s| && |parts| >= 2 && MatchAt(s, q) == Some(e)
    requires s[p..q] == parts[0] && s[q..e] == parts[1] && SplitFrom(s, e, e) == parts[2..]
    ensures SplitFrom(s, p, q) == parts
  {
    SplitFromAtMatch(s, p, q, e);
    assert parts == [parts[0], parts[1]] + parts[2..];
  }

  /** Inside a plain stretch at `p`, the scan moves on to the next position. */
  lemma SkipPlainPosition(s: string, p: nat, plain: string, k: nat, next: nat)
    requires p <= k < p + |plain| <= |s| && NoTokenStarts(plain, s[p..]) && next == k + 1
    ensures SplitFrom(s, p, k) == SplitFrom(s, p, next)
  {
    NoMatchInPlain(s, p, plain, k);
    SplitFromSkip(s, p, k, next);
  }

  /** Where the pattern does not match at `k`, the scan moves on to the next position. */
  lemma SplitFromSkip(s: string, p: nat, k: nat, next: nat)
    requires p <= k < |s| && MatchAt(s, k).None? && next == k + 1
    ensures SplitFrom(s, p, k) == SplitFrom(s, p, next)
  {
  }

  /** Where the pattern matches at `q`, the scan emits the plain part, the token, and goes on after it. */
  lemma SplitFromAtMatch(s: string, p: nat, q: nat, e: nat)
    requires p <= q < |s| && MatchAt(s, q) == Some(e)
    ensures SplitFrom(s, p, q) == [s[p..q], s[q..e]] + SplitFrom(s, e, e)
  {
  }

  /**
   * Matching is leftmost-first: in "**a**b**" the bold token "**a**" starts
   * inside the first part of ["**a", "**b**", ""], so that decomposition,
   * which also joins to the text, is not the split.
   */
  lemma LeftmostMatchWins()
    ensures Concat(["**a", "**b**", ""]) == "**a**b**"
    ensures !Alternates(["**a", "**b**", ""])
  {
    var parts := ["**a", "**b**", ""];
    assert parts[..2] == ["**a", "**b**"] && parts[..2][..1] == ["**a"] && parts[..2][..1][..0] == [];
    assert Concat(parts[..2][..1]) == "**a";
    assert Concat(parts[..2]) == "**a" + "**b**";
    assert Concat(parts) == "**a**b**";
    assert parts[0..] == parts;
    var rest := Concat(parts[0..]);
    assert IsBoldToken(rest[0..5]) && IsToken(rest[0..5]);
    assert !PartFits(parts, 0);
  }

  /**
   * The split is determined by its meaning: the only sequence of parts that
   * spells out the text, alternates plain parts with whole tokens and starts
   * no token inside a plain part is `Split(text)`.
   */
  lemma SplitIsUnique(text: string, parts: seq<string>)
    requires |parts| % 2 == 1 && Concat(parts) == text && Alternates(parts)
    ensures parts == Split(text)
  {
    assert text[0..] == text;
    SplitFromUnique(text, 0, parts);
  }

  /** What one part renders as. */
  datatype Node =
    | Strong(text: string)
    | Anchor(href: string, linkText: string, target: Option<string>, rel: Option<string>)
    | InlineCode(text: string)
    | Text(text: string)

  /** `t.slice(n, -n)`: empty when the two cut points cross. */
  function Inner(t: string, n: nat): (r: string)
    ensures |t| >= 2 * n ==> r == t[n..|t| - n]
    ensures |t| < 2 * n ==> r == ""
  {
    if |t| >= 2 * n then t[n..|t| - n] else ""
  }

  /** The markup a node stands for. */
  function Source(n: Node): string {
    match n
    case Strong(x) => "**" + x + "**"
    case Anchor(href, linkText, _, _) => "[" + linkText + "](" + href + ")"
    case InlineCode(x) => "`" + x + "`"
    case Text(x) => x
  }

  /**
   * The rendering of one part, decided by its ends: "**…**" is bold (tried
   * first), a part that is one whole link is a link, "`…`" is code, and
   * anything else stays text. A link's markup is recovered from its node.
   */
  function Render(part: string): (n: Node)
    ensures n.Strong? <==> StartsWith(part, "**") && EndsWith(part, "**")
    ensures n.Strong? ==> n.text == Inner(part, 2)
    ensures n.Anchor? <==> IsLinkToken(part)
    ensures n.Anchor? ==> Source(n) == part
    ensures n.Anchor? ==>
      && n.target == (if StartsWith(n.href, "http") then Some("_blank") else None)
      && n.rel == (if StartsWith(n.href, "http") then Some("noopener noreferrer") else None)
    ensures n.InlineCode? <==> StartsWith(part, "`") && EndsWith(part, "`")
    ensures n.InlineCode? ==> n.text == Inner(part, 1)
    ensures n.Text? ==> n.text == part
  {
    WholeLink(part);
    if StartsWith(part, "**") && EndsWith(part, "**") then Strong(Inner(part, 2))
    else if LinkEnd(part, 0) == Some(|part|) then
      assert part[0..|part|] == part;
      var j := IndexFrom(part, 1, ']');
      assert IsLinkTokenAt(part, j);
      var href := part[j + 2..|part| - 1];
      var external := StartsWith(href, "http");
      assert part == "[" + part[1..j] + "](" + href + ")";
      Anchor(href, part[1..j], if external then Some("_blank") else None,
             if external then Some("noopener noreferrer") else None)
    else if StartsWith(part, "`") && EndsWith(part, "`") then InlineCode(Inner(part, 1))
    else Text(part)
  }

  /** The link test of the rendering, `^\[…\]\(…\)$`, holds exactly for a whole link token. */
  lemma WholeLink(part: string)
    ensures LinkEnd(part, 0) == Some(|part|) <==> IsLinkToken(part)
    ensures IsLinkToken(part) ==> part[0] == '['
  {
    assert part[0..|part|] == part;
    if IsLinkToken(part) {
      LinkEndFinds(part, 0, |part|);
    }
  }

  /** `formatText`: one node per part of the split text, in order, each the rendering of its part. */
  function FormatText(text: string): (nodes: seq<Node>)
    ensures |nodes| == |Split(text)| && |nodes| % 2 == 1
    ensures forall i | 0 <= i < |nodes| :: nodes[i] == Render(Split(text)[i])
  {
    var parts := Split(text);
    seq(|parts|, i requires 0 <= i < |parts| => Render(parts[i]))
  }

  /**
   * Every token of the text comes out as a formatted node of its own kind from
   * which its markup is recovered: the odd-numbered nodes spell out the tokens.
   */
  lemma FormattedTokens(text: string)
    ensures var nodes, parts := FormatText(text), Split(text);
      forall i | 0 <= i < |nodes| && i % 2 == 1 :: !nodes[i].Text? && Source(nodes[i]) == parts[i]
  {
    var nodes, parts := FormatText(text), Split(text);
    SplitParts(text);
    forall i | 0 <= i < |nodes| && i % 2 == 1
      ensures !nodes[i].Text? && Source(nodes[i]) == parts[i]
    {
      assert PartFits(parts, i);
      TokenRendering(parts[i]);
    }
  }

  /**
   * Each token renders as its own kind, and its markup is recovered from the
   * node: bold keeps the text between the asterisks, a link its label and
   * target (opened in a new tab exactly for "http…" targets), code the text
   * between the backticks.
   */
  lemma TokenRendering(t: string)
    requires IsToken(t)
    ensures Source(Render(t)) == t
    ensures IsBoldToken(t) ==> Render(t) == Strong(t[2..|t| - 2])
    ensures IsCodeToken(t) ==> Render(t) == InlineCode(t[1..|t| - 1])
    ensures IsLinkToken(t) ==> Render(t).Anchor?
    ensures Render(t).Anchor? ==>
      && Render(t).target == (if StartsWith(Render(t).href, "http") then Some("_blank") else None)
      && Render(t).rel == (if StartsWith(Render(t).href, "http") then Some("noopener noreferrer") else None)
  {
    if IsBoldToken(t) {
      BoldRendering(t);
    } else if IsLinkToken(t) {
      LinkTarget(t);
    } else {
      CodeRendering(t);
    }
  }

  lemma BoldRendering(t: string)
    requires IsBoldToken(t)
    ensures Render(t) == Strong(t[2..|t| - 2]) && Source(Render(t)) == t
  {
    assert t == "**" + t[2..|t| - 2] + "**";
  }

  lemma CodeRendering(t: string)
    requires IsCodeToken(t)
    ensures Render(t) == InlineCode(t[1..|t| - 1]) && Source(Render(t)) == t
  {
    assert t[0] == '`';
    assert t == "`" + t[1..|t| - 1] + "`";
  }

  /** A link token renders as a link, opened in a new tab exactly when its target starts with "http". */
  lemma LinkTarget(t: string)
    requires IsLinkToken(t)
    ensures Render(t).Anchor? && Source(Render(t)) == t
    ensures Render(t).target == (if StartsWith(Render(t).href, "http") then Some("_blank") else None)
    ensures Render(t).rel == (if StartsWith(Render(t).href, "http") then Some("noopener noreferrer") else None)
  {
    assert t[0..|t|] == t;
    LinkEndFinds(t, 0, |t|);
    assert t[0] == '[';
  }

  /**
   * A link token has one split into label and target (the first ']' closes the
   * label), and its node carries exactly those two.
   */
  lemma LinkRendering(t: string, j: nat)
    requires IsLinkTokenAt(t, j)
    ensures Render(t).Anchor?
    ensures Render(t).linkText == t[1..j] && Render(t).href == t[j + 2..|t| - 1]
    ensures forall j' | 0 <= j' < |t| && IsLinkTokenAt(t, j') :: j' == j
  {
    assert t[0..|t|] == t;
    LinkEndFinds(t, 0, |t|);
    assert IndexFrom(t, 1, ']') == j;
  }

  /**
   * Classification looks only at a part's ends: a plain "**" or a lone
   * backtick renders as empty bold or empty code.
   */
  lemma PlainMarkersRenderEmpty()
    ensures Render("**") == Strong("")
    ensures Render("`") == InlineCode("")
    ensures Render("***") == Strong("")
  {
  }

  /** A part that neither starts and ends with markers nor is a whole link renders unchanged. */
  lemma OtherPartsUnchanged(part: string)
    requires !(StartsWith(part, "**") && EndsWith(part, "**"))
    requires !(StartsWith(part, "`") && EndsWith(part, "`"))
    requires !IsLinkToken(part)
    ensures Render(part) == Text(part)
  {
    assert part[0..|part|] == part;
  }
}
