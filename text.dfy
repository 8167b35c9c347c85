/**
 * The few Python `str` operations the backend relies on, over `string` (= seq<char>):
 * `strip`, `find`, `rfind`, `startswith`, the `in` substring test, `join`,
 * ASCII lower-casing and the decimal rendering of an `int`.
 */
module Text {

  /** The characters for which Python's `str.isspace()` holds; `str.strip()` removes exactly these. */
  const Whitespace: set<char> := {
    '\t', '\n', '\U{000B}', '\U{000C}', '\r', '\U{001C}', '\U{001D}', '\U{001E}', '\U{001F}', ' ',
    '\U{0085}', '\U{00A0}', '\U{1680}', '\U{2000}', '\U{2001}', '\U{2002}', '\U{2003}', '\U{2004}',
    '\U{2005}', '\U{2006}', '\U{2007}', '\U{2008}', '\U{2009}', '\U{200A}', '\U{2028}', '\U{2029}',
    '\U{202F}', '\U{205F}', '\U{3000}'
  }

  /** `r` occurs in `s` as one contiguous block. */
  ghost predicate IsSubstring(r: string, s: string) {
    exists i, j :: 0 <= i <= j <= |s| && r == s[i..j]
  }

  lemma SliceIsSubstring(s: string, i: int, j: int)
    requires 0 <= i <= j <= |s|
    ensures IsSubstring(s[i..j], s)
  {
  }

  lemma SubstringTransitive(a: string, b: string, c: string)
    requires IsSubstring(a, b) && IsSubstring(b, c)
    ensures IsSubstring(a, c)
  {
    var i, j :| 0 <= i <= j <= |b| && a == b[i..j];
    var k, l :| 0 <= k <= l <= |c| && b == c[k..l];
    SliceOfSlice(c, k, l, i, j);
    SliceIsSubstring(c, k + i, k + j);
  }

  /** A block of a tail of `s` is a block of `s`. */
  lemma TailSubstring(w: string, s: string, k: int)
    requires 0 <= k <= |s| && IsSubstring(w, s[k..])
    ensures IsSubstring(w, s)
  {
    var i, j :| 0 <= i <= j <= |s[k..]| && w == s[k..][i..j];
    assert s[k..] == s[k..|s|];
    SliceOfSlice(s, k, |s|, i, j);
    SliceIsSubstring(s, k + i, k + j);
  }

  /** A slice of a slice is a slice of the whole. */
  lemma SliceOfSlice(s: string, k: int, l: int, i: int, j: int)
    requires 0 <= k <= l <= |s| && 0 <= i <= j <= l - k
    ensures s[k..l][i..j] == s[k + i..k + j]
  {
    forall t | 0 <= t < j - i
      ensures s[k..l][i..j][t] == s[k + i + t]
    {
    }
  }

  predicate AllIn(s: string, cs: set<char>) {
    forall k :: 0 <= k < |s| ==> s[k] in cs
  }

  /** Length of the longest prefix of `s` drawn from `cs`. */
  function LeadingIn(s: string, cs: set<char>): (n: nat)
    ensures n <= |s|
    ensures AllIn(s[..n], cs)
    ensures n < |s| ==> s[n] !in cs
  {
    if s == [] || s[0] !in cs then 0 else 1 + LeadingIn(s[1..], cs)
  }

  /** Length of the longest suffix of `s` drawn from `cs`. */
  function TrailingIn(s: string, cs: set<char>): (n: nat)
    ensures n <= |s|
    ensures AllIn(s[|s| - n..], cs)
    ensures n < |s| ==> s[|s| - 1 - n] !in cs
  {
    if s == [] || s[|s| - 1] !in cs then 0 else 1 + TrailingIn(s[..|s| - 1], cs)
  }

  /**
   * Python's `s.strip(chars)` with `chars` as the set `cs`: the block left after removing
   * the longest prefix and the longest suffix made of characters of `cs`.
   */
  function Strip(s: string, cs: set<char>): (r: string)
    ensures r == [] || (r[0] !in cs && r[|r| - 1] !in cs)
  {
    var start := LeadingIn(s, cs);
    if start == |s| then []
    else
      PaddingsAreApart(s, cs);
      s[start..|s| - TrailingIn(s, cs)]
  }

  /** When some character of `s` is not in `cs`, the leading and trailing runs stay apart. */
  lemma PaddingsAreApart(s: string, cs: set<char>)
    requires LeadingIn(s, cs) < |s|
    ensures LeadingIn(s, cs) < |s| - TrailingIn(s, cs)
  {
    var n := TrailingIn(s, cs);
    forall k | |s| - n <= k < |s|
      ensures s[k] in cs
    {
      assert s[|s| - n..][k - (|s| - n)] == s[k];
    }
  }

  /** What Strip removes is drawn from `cs`, at both ends; what it keeps is one block of `s`. */
  lemma StripRemovesOnlyPadding(s: string, cs: set<char>)
    ensures exists i | 0 <= i <= |s| - |Strip(s, cs)| ::
      s[i..i + |Strip(s, cs)|] == Strip(s, cs) && AllIn(s[..i], cs) && AllIn(s[i + |Strip(s, cs)|..], cs)
  {
    StripKeepsBlockAfterLeading(s, cs);
    PaddedBlock(s, cs, Strip(s, cs), LeadingIn(s, cs));
  }

  /** The kept block starts right after the leading padding. */
  lemma StripKeepsBlockAfterLeading(s: string, cs: set<char>)
    ensures var i, r := LeadingIn(s, cs), Strip(s, cs);
      0 <= i <= |s| - |r| && s[i..i + |r|] == r && AllIn(s[..i], cs) && AllIn(s[i + |r|..], cs)
  {
    var i := LeadingIn(s, cs);
    var r := Strip(s, cs);
    if i == |s| {
      assert r == [];
      assert s[i..i + |r|] == r && s[i + |r|..] == [];
    } else {
      var e := |s| - TrailingIn(s, cs);
      PaddingsAreApart(s, cs);
      assert r == s[i..e];
      assert i + |r| == e;
    }
  }

  lemma PaddedBlock(s: string, cs: set<char>, r: string, i: int)
    requires 0 <= i <= |s| - |r| && s[i..i + |r|] == r && AllIn(s[..i], cs) && AllIn(s[i + |r|..], cs)
    ensures exists k | 0 <= k <= |s| - |r| :: s[k..k + |r|] == r && AllIn(s[..k], cs) && AllIn(s[k + |r|..], cs)
  {
  }

  lemma StripIsSubstring(s: string, cs: set<char>)
    ensures IsSubstring(Strip(s, cs), s)
  {
    StripKeepsBlockAfterLeading(s, cs);
    var i, r := LeadingIn(s, cs), Strip(s, cs);
    SliceIsSubstring(s, i, i + |r|);
  }

  /** Stripping a block that neither starts nor ends with a character of `cs` leaves it alone. */
  lemma StripNoop(s: string, cs: set<char>)
    requires s == [] || (s[0] !in cs && s[|s| - 1] !in cs)
    ensures Strip(s, cs) == s
  {
    if s != [] {
      assert LeadingIn(s, cs) == 0;
      assert TrailingIn(s, cs) == 0;
    }
  }

  /** A prefix drawn from `cs` is skipped entirely by LeadingIn. */
  lemma {:induction false} LeadingInSkip(p: string, b: string, cs: set<char>)
    requires AllIn(p, cs)
    ensures LeadingIn(p + b, cs) == |p| + LeadingIn(b, cs)
  {
    if p == [] {
      assert p + b == b;
    } else {
      assert (p + b)[0] == p[0];
      assert (p + b)[1..] == p[1..] + b;
      LeadingInSkip(p[1..], b, cs);
    }
  }

  /** A suffix drawn from `cs` is skipped entirely by TrailingIn. */
  lemma {:induction false} TrailingInSkip(b: string, q: string, cs: set<char>)
    requires AllIn(q, cs)
    ensures TrailingIn(b + q, cs) == TrailingIn(b, cs) + |q|
  {
    if q == [] {
      assert b + q == b;
    } else {
      var q' := q[..|q| - 1];
      assert (b + q)[|b + q| - 1] == q[|q| - 1];
      assert (b + q)[..|b + q| - 1] == b + q';
      assert AllIn(q', cs);
      TrailingInSkip(b, q', cs);
    }
  }

  /**
   * Stripping `p + b + q`, where the padding `p` and `q` is drawn from `cs` and `b`
   * neither starts nor ends with a character of `cs`, gives exactly `b`.
   */
  lemma StripPadded(p: string, b: string, q: string, cs: set<char>)
    requires AllIn(p, cs) && AllIn(q, cs)
    requires |b| > 0 && b[0] !in cs && b[|b| - 1] !in cs
    ensures Strip(p + b + q, cs) == b
  {
    var s := p + b + q;
    assert s == p + (b + q);
    LeadingInSkip(p, b + q, cs);
    assert (b + q)[0] == b[0];
    assert LeadingIn(b + q, cs) == 0;
    TrailingInSkip(p + b, q, cs);
    assert (p + b)[|p + b| - 1] == b[|b| - 1];
    assert TrailingIn(p + b, cs) == 0;
    assert s[|p|..|s| - |q|] == b;
  }

  predicate StartsWith(s: string, prefix: string) {
    |prefix| <= |s| && s[..|prefix|] == prefix
  }

  /** Python's `sub in s`. */
  predicate Contains(s: string, sub: string) {
    exists i | 0 <= i <= |s| :: StartsWith(s[i..], sub)
  }

  lemma StartsWithOwnPrefix(p: string, x: string)
    ensures StartsWith(p + x, p)
  {
    assert (p + x)[..|p|] == p;
  }

  lemma PrefixIsContained(s: string, prefix: string)
    requires StartsWith(s, prefix)
    ensures Contains(s, prefix)
  {
    assert s[0..] == s;
  }

  /** What occurs in a part of a concatenation occurs in the whole. */
  lemma ContainsInConcat(a: string, b: string, c: string, sub: string)
    requires Contains(b, sub)
    ensures Contains(a + b + c, sub)
  {
    var i :| 0 <= i <= |b| && StartsWith(b[i..], sub);
    var s := a + b + c;
    assert s[|a| + i..][..|sub|] == b[i..][..|sub|];
  }

  /** A text without the first character of `sub` cannot contain `sub`. */
  lemma MissingFirstCharNotContained(s: string, sub: string)
    requires |sub| > 0 && sub[0] !in s
    ensures !Contains(s, sub)
  {
    forall i | 0 <= i <= |s|
      ensures !StartsWith(s[i..], sub)
    {
      if i < |s| {
        assert s[i..][0] == s[i];
      }
    }
  }

  /** Python's `str.find(c)`: the first index of `c`, or -1. */
  function Find(s: string, c: char): (r: int)
    ensures -1 <= r < |s|
    ensures r == -1 <==> c !in s
    ensures r >= 0 ==> s[r] == c && c !in s[..r]
  {
    if s == [] then -1
    else if s[0] == c then 0
    else
      var k := Find(s[1..], c);
      if k == -1 then -1 else k + 1
  }

  /** Python's `str.rfind(c)`: the last index of `c`, or -1. */
  function RFind(s: string, c: char): (r: int)
    ensures -1 <= r < |s|
    ensures r == -1 <==> c !in s
    ensures r >= 0 ==> s[r] == c && c !in s[r + 1..]
  {
    if s == [] then -1
    else if s[|s| - 1] == c then |s| - 1
    else
      var k := RFind(s[..|s| - 1], c);
      assert s[..|s| - 1][k + 1..] + [s[|s| - 1]] == s[k + 1..];
      k
  }

  /** Python's `sep.join(xs)`. */
  function Join(sep: string, xs: seq<string>): string
  {
    if |xs| == 0 then ""
    else if |xs| == 1 then xs[0]
    else xs[0] + sep + Join(sep, xs[1..])
  }

  lemma {:induction false} JoinAppend(sep: string, a: seq<string>, b: seq<string>)
    requires |a| > 0 && |b| > 0
    ensures Join(sep, a + b) == Join(sep, a) + sep + Join(sep, b)
  {
    if |a| == 1 {
      assert (a + b)[1..] == b;
    } else {
      assert (a + b)[1..] == a[1..] + b;
      JoinAppend(sep, a[1..], b);
    }
  }

  /** The concatenation of a sequence of blocks. */
  function Flatten(blocks: seq<seq<string>>): seq<string> {
    if blocks == [] then [] else blocks[0] + Flatten(blocks[1..])
  }

  /** Each block joined on its own. */
  function JoinEach(sep: string, blocks: seq<seq<string>>): (r: seq<string>)
    ensures |r| == |blocks|
    ensures forall i :: 0 <= i < |blocks| ==> r[i] == Join(sep, blocks[i])
  {
    if blocks == [] then [] else [Join(sep, blocks[0])] + JoinEach(sep, blocks[1..])
  }

  /** Joining the concatenation of non-empty blocks is joining the joined blocks. */
  lemma {:induction false} JoinFlatten(sep: string, blocks: seq<seq<string>>)
    requires forall i :: 0 <= i < |blocks| ==> |blocks[i]| > 0
    ensures Join(sep, Flatten(blocks)) == Join(sep, JoinEach(sep, blocks))
  {
    if |blocks| == 1 {
      assert Flatten(blocks) == blocks[0] + [];
      assert blocks[0] + [] == blocks[0];
    } else if |blocks| > 1 {
      var rest := blocks[1..];
      JoinFlatten(sep, rest);
      assert |Flatten(rest)| > 0 by {
        assert Flatten(rest) == rest[0] + Flatten(rest[1..]);
      }
      JoinAppend(sep, blocks[0], Flatten(rest));
      assert JoinEach(sep, blocks) == [Join(sep, blocks[0])] + JoinEach(sep, rest);
      assert JoinEach(sep, blocks)[1..] == JoinEach(sep, rest);
    }
  }

  /** Every part of a join occurs in the joined text. */
  lemma {:induction false} JoinContainsPart(sep: string, xs: seq<string>, k: int, sub: string)
    requires 0 <= k < |xs| && Contains(xs[k], sub)
    ensures Contains(Join(sep, xs), sub)
  {
    if |xs| == 1 {
    } else if k == 0 {
      ContainsInConcat("", xs[0], sep + Join(sep, xs[1..]), sub);
      assert "" + xs[0] + (sep + Join(sep, xs[1..])) == Join(sep, xs);
    } else {
      JoinContainsPart(sep, xs[1..], k - 1, sub);
      ContainsInConcat(xs[0] + sep, Join(sep, xs[1..]), "", sub);
      assert xs[0] + sep + Join(sep, xs[1..]) + "" == Join(sep, xs);
    }
  }

  /** What occurs in one line of a block of consecutive parts occurs in the joined text. */
  lemma JoinContainsInBlock(sep: string, xs: seq<string>, i: int, block: seq<string>, k: int, sub: string)
    requires 0 <= i && i + |block| <= |xs| && xs[i..i + |block|] == block
    requires 0 <= k < |block| && Contains(block[k], sub)
    ensures Contains(Join(sep, xs), sub)
  {
    assert xs[i + k] == block[k];
    JoinContainsPart(sep, xs, i + k, sub);
  }

  /** Every line of a block of consecutive parts occurs in the joined text. */
  lemma JoinContainsBlock(sep: string, xs: seq<string>, i: int, block: seq<string>)
    requires 0 <= i && i + |block| <= |xs| && xs[i..i + |block|] == block
    ensures forall line | line in block :: Contains(Join(sep, xs), line)
  {
    forall line | line in block
      ensures Contains(Join(sep, xs), line)
    {
      var k :| 0 <= k < |block| && block[k] == line;
      assert xs[i + k] == line;
      PrefixIsContained(line, line);
      JoinContainsPart(sep, xs, i + k, line);
    }
  }

  function LowerAscii(c: char): char {
    if 'A' <= c <= 'Z' then (c as int + 32) as char else c
  }

  function LowerAsciiString(s: string): (r: string)
    ensures |r| == |s|
    ensures forall k :: 0 <= k < |s| ==> r[k] == LowerAscii(s[k])
  {
    if s == [] then [] else [LowerAscii(s[0])] + LowerAsciiString(s[1..])
  }

  function DigitChar(d: nat): char
    requires d < 10
  {
    ('0' as int + d) as char
  }

  /** Python's `str(n)` for a non-negative integer. */
  function NatToString(n: nat): (r: string)
    ensures |r| > 0
    ensures forall k :: 0 <= k < |r| ==> '0' <= r[k] <= '9'
  {
    if n < 10 then [DigitChar(n)] else NatToString(n / 10) + [DigitChar(n % 10)]
  }

  /** Python's `str(i)` (and `f"{i}"`) for an integer. */
  function IntToString(i: int): string {
    if i < 0 then "-" + NatToString(-i) else NatToString(i)
  }
}
