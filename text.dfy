/**
 * The string operations the composables and the dev proxy use:
 * `trim`, `toLowerCase`, `includes`, `indexOf`, and `String.replace` with
 * a string pattern or a regex carrying the `^` anchor. Case folding is restricted to ASCII and trimming to a
 * fixed set of whitespace characters.
 */
module Text {

  /** The whitespace set `trim` strips in this model. */
  predicate IsWhitespace(c: char) {
    c == ' ' || c == '\t' || c == '\n' || c == '\r' || c == '\U{B}' || c == '\U{C}'
    || c == '\U{A0}' || c == '\U{1680}' || c == '\U{2028}' || c == '\U{2029}'
    || c == '\U{202F}' || c == '\U{205F}' || c == '\U{3000}' || c == '\U{FEFF}'
    || ('\U{2000}' <= c <= '\U{200A}')
  }

  /** ASCII `toLowerCase` of one character. */
  function LowerChar(c: char): char {
    if 'A' <= c <= 'Z' then (c as int + 32) as char else c
  }

  /** `toLowerCase`, character by character, over ASCII letters. */
  function Lower(s: string): (r: string)
    ensures |r| == |s|
    ensures forall i :: 0 <= i < |s| ==> r[i] == LowerChar(s[i])
  {
    seq(|s|, i requires 0 <= i < |s| => LowerChar(s[i]))
  }

  /** Drops the leading whitespace. */
  function TrimStart(s: string): (r: string)
    ensures |r| <= |s| && r == s[|s| - |r|..]
    ensures forall i :: 0 <= i < |s| - |r| ==> IsWhitespace(s[i])
    ensures r != [] ==> !IsWhitespace(r[0])
  {
    if s != [] && IsWhitespace(s[0]) then TrimStart(s[1..]) else s
  }

  /** Drops the trailing whitespace. */
  function TrimEnd(s: string): (r: string)
    ensures |r| <= |s| && r == s[..|r|]
    ensures forall i :: |r| <= i < |s| ==> IsWhitespace(s[i])
    ensures r != [] ==> !IsWhitespace(r[|r| - 1])
  {
    if s != [] && IsWhitespace(s[|s| - 1]) then TrimEnd(s[..|s| - 1]) else s
  }

  /**
   * `trim`: both ends. The result is empty exactly when every character is
   * whitespace, and otherwise starts and ends with a non-whitespace character.
   */
  function Trim(s: string): (r: string)
    ensures |r| <= |s|
    ensures r == [] <==> forall i :: 0 <= i < |s| ==> IsWhitespace(s[i])
    ensures r != [] ==> !IsWhitespace(r[0]) && !IsWhitespace(r[|r| - 1])
    ensures exists a :: OccursAt(s, r, a)
                        && (forall i :: 0 <= i < a ==> IsWhitespace(s[i]))
                        && (forall i :: a + |r| <= i < |s| ==> IsWhitespace(s[i]))
  {
    TrimShape(s, TrimStart(s), TrimEnd(TrimStart(s)));
    TrimEnd(TrimStart(s))
  }

  /**
   * When `t` is `s` without its leading whitespace and `r` is `t` without
   * its trailing whitespace, `r` sits in `s` where `t` starts, with only
   * whitespace around it.
   */
  lemma TrimShape(s: string, t: string, r: string)
    requires |t| <= |s| && t == s[|s| - |t|..]
    requires forall i :: 0 <= i < |s| - |t| ==> IsWhitespace(s[i])
    requires t != [] ==> !IsWhitespace(t[0])
    requires |r| <= |t| && r == t[..|r|]
    requires forall i :: |r| <= i < |t| ==> IsWhitespace(t[i])
    requires r != [] ==> !IsWhitespace(r[|r| - 1])
    ensures |r| <= |s|
    ensures r == [] <==> forall i :: 0 <= i < |s| ==> IsWhitespace(s[i])
    ensures r != [] ==> !IsWhitespace(r[0]) && !IsWhitespace(r[|r| - 1])
    ensures exists a :: OccursAt(s, r, a)
                        && (forall i :: 0 <= i < a ==> IsWhitespace(s[i]))
                        && (forall i :: a + |r| <= i < |s| ==> IsWhitespace(s[i]))
  {
    var a := |s| - |t|;
    PrefixOfSuffix(s, t, r);
    if r == [] {
      assert t == [];
    } else {
      assert r[0] == t[0] == s[a];
    }
    forall i | a + |r| <= i < |s|
      ensures IsWhitespace(s[i])
    {
      assert s[i] == t[i - a];
    }
    assert OccursAt(s, r, a);
  }

  /** A prefix `r` of a suffix `t` of `s` occurs in `s` where `t` starts. */
  lemma PrefixOfSuffix(s: string, t: string, r: string)
    requires |t| <= |s| && t == s[|s| - |t|..]
    requires |r| <= |t| && r == t[..|r|]
    ensures OccursAt(s, r, |s| - |t|)
    ensures forall i :: |s| - |t| <= i < |s| ==> s[i] == t[i - (|s| - |t|)]
  {
  }

  /** Two strings that differ only in the case of ASCII letters. */
  predicate SameUpToCase(a: string, b: string) {
    |a| == |b| && forall i :: 0 <= i < |a| ==> LowerChar(a[i]) == LowerChar(b[i])
  }

  lemma WhitespaceIgnoresCase(c: char, d: char)
    requires LowerChar(c) == LowerChar(d)
    ensures IsWhitespace(c) <==> IsWhitespace(d)
  {
  }

  lemma {:induction false} TrimStartKeepsCase(a: string, b: string)
    requires SameUpToCase(a, b)
    ensures SameUpToCase(TrimStart(a), TrimStart(b))
  {
    if a != [] {
      WhitespaceIgnoresCase(a[0], b[0]);
      if IsWhitespace(a[0]) {
        assert SameUpToCase(a[1..], b[1..]) by {
          forall i | 0 <= i < |a| - 1 ensures LowerChar(a[1..][i]) == LowerChar(b[1..][i]) {
            assert a[1..][i] == a[i + 1] && b[1..][i] == b[i + 1];
          }
        }
        TrimStartKeepsCase(a[1..], b[1..]);
      }
    }
  }

  lemma {:induction false} TrimEndKeepsCase(a: string, b: string)
    requires SameUpToCase(a, b)
    ensures SameUpToCase(TrimEnd(a), TrimEnd(b))
  {
    if a != [] {
      var n := |a| - 1;
      WhitespaceIgnoresCase(a[n], b[n]);
      if IsWhitespace(a[n]) {
        TrimEndKeepsCase(a[..n], b[..n]);
      }
    }
  }

  /** Queries that differ only in letter case trim and lower to the same string. */
  lemma NormalizedIgnoresCase(a: string, b: string)
    requires SameUpToCase(a, b)
    ensures Lower(Trim(a)) == Lower(Trim(b))
  {
    TrimStartKeepsCase(a, b);
    TrimEndKeepsCase(TrimStart(a), TrimStart(b));
  }

  /** `needle` occurs in `hay` at index `i`. */
  predicate OccursAt(hay: string, needle: string, i: int) {
    0 <= i && i + |needle| <= |hay| && hay[i..i + |needle|] == needle
  }

  /** `hay.includes(needle)`: holds exactly when `indexOf` finds an index. */
  function Contains(hay: string, needle: string): (found: bool)
    ensures found <==> IndexOf(hay, needle) >= 0
    ensures needle == [] ==> found
    ensures found ==> |needle| <= |hay|
  {
    assert needle == [] ==> OccursAt(hay, needle, 0);
    exists i | 0 <= i <= |hay| - |needle| :: OccursAt(hay, needle, i)
  }

  /** `hay.indexOf(needle)`: the first index where `needle` occurs, or -1. */
  function IndexOf(hay: string, needle: string): (r: int)
    ensures -1 <= r <= |hay|
    ensures r >= 0 ==> OccursAt(hay, needle, r)
    ensures forall j :: 0 <= j && (r < 0 || j < r) ==> !OccursAt(hay, needle, j)
  {
    if |hay| < |needle| then -1
    else if hay[..|needle|] == needle then 0
    else
      var k := IndexOf(hay[1..], needle);
      assert forall j :: 1 <= j ==> (OccursAt(hay, needle, j) <==> OccursAt(hay[1..], needle, j - 1)) by {
        forall j | 1 <= j ensures OccursAt(hay, needle, j) <==> OccursAt(hay[1..], needle, j - 1) {
          if j + |needle| <= |hay| {
            SliceOfTail(hay, j, j + |needle|);
          }
        }
      }
      if k < 0 then -1 else k + 1
  }

  lemma SliceOfTail(s: string, i: int, j: int)
    requires 1 <= i <= j <= |s|
    ensures s[1..][i - 1..j - 1] == s[i..j]
  {
  }

  /** `prefix` is a prefix of `s`: what a `^`-anchored regex for `prefix` matches. */
  predicate StartsWith(s: string, prefix: string) {
    |prefix| <= |s| && s[..|prefix|] == prefix
  }

  /**
   * `s.replace(/^prefix/, rep)`: replacement anchored at the start of the
   * string; without the prefix the string is unchanged.
   */
  function ReplaceAnchored(s: string, prefix: string, rep: string): (r: string)
    ensures StartsWith(s, prefix) ==> |r| == |s| - |prefix| + |rep| && StartsWith(r, rep) && r[|rep|..] == s[|prefix|..]
    ensures !StartsWith(s, prefix) ==> r == s
  {
    if StartsWith(s, prefix) then rep + s[|prefix|..] else s
  }

  /**
   * `s.replace(pattern, rep)` with a string pattern: only the first
   * occurrence is replaced, and a string without one is unchanged.
   */
  function ReplaceFirst(s: string, pattern: string, rep: string): (r: string)
    ensures !Contains(s, pattern) ==> r == s
    ensures Contains(s, pattern) ==>
              var i := IndexOf(s, pattern);
              && |r| == |s| - |pattern| + |rep|
              && r[..i] == s[..i]
              && r[i..i + |rep|] == rep
              && r[i + |rep|..] == s[i + |pattern|..]
  {
    var i := IndexOf(s, pattern);
    if i < 0 then s else s[..i] + rep + s[i + |pattern|..]
  }
}
