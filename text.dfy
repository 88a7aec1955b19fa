/** String helpers shared by the front end and the back end: ASCII lower-casing, substring search
    and whitespace trimming, with the trimming character sets of JavaScript and of Python. */
module Text {

  /** Lower-cases one ASCII upper-case letter and leaves every other character alone. */
  function LowerChar(c: char): (r: char)
    ensures !('A' <= r <= 'Z')
    ensures 'A' <= c <= 'Z' ==> r == (c as int + 32) as char
    ensures !('A' <= c <= 'Z') ==> r == c
  {
    if 'A' <= c <= 'Z' then (c as int + ('a' as int - 'A' as int)) as char else c
  }

  predicate IsLower(s: string)
  {
    forall i :: 0 <= i < |s| ==> !('A' <= s[i] <= 'Z')
  }

  /** `toLowerCase()`, restricted to the ASCII letters. */
  function Lower(s: string): (r: string)
    ensures |r| == |s|
    ensures IsLower(r)
    ensures forall i {:trigger r[i]} :: 0 <= i < |s| && 'A' <= s[i] <= 'Z' ==> r[i] == (s[i] as int + 32) as char
    ensures forall i {:trigger r[i]} :: 0 <= i < |s| && !('A' <= s[i] <= 'Z') ==> r[i] == s[i]
  {
    seq(|s|, i requires 0 <= i < |s| => LowerChar(s[i]))
  }

  lemma LowerOfLower(s: string)
    requires IsLower(s)
    ensures Lower(s) == s
  {
  }

  /** `sub` stands in `s` starting at index `i`. */
  predicate OccursAt(s: string, sub: string, i: nat)
  {
    i + |sub| <= |s| && forall k :: 0 <= k < |sub| ==> s[i + k] == sub[k]
  }

  /** `s.includes(sub)` in JavaScript, `sub in s` in Python. */
  predicate Contains(s: string, sub: string)
  {
    exists i: nat :: i <= |s| && OccursAt(s, sub, i)
  }

  lemma ContainsSlice(s: string, lo: nat, hi: nat)
    requires lo <= hi <= |s|
    ensures Contains(s, s[lo..hi])
  {
    assert OccursAt(s, s[lo..hi], lo);
  }

  /** An occurrence inside a slice is an occurrence in the whole string. */
  lemma ContainsTransitive(s: string, mid: string, sub: string)
    requires Contains(s, mid) && Contains(mid, sub)
    ensures Contains(s, sub)
  {
    var i: nat :| i <= |s| && OccursAt(s, mid, i);
    var j: nat :| j <= |mid| && OccursAt(mid, sub, j);
    forall k | 0 <= k < |sub| ensures s[i + j + k] == sub[k] {
      assert sub[k] == mid[j + k];
    }
    assert OccursAt(s, sub, i + j);
  }

  /** An infix of a lower-case string is lower-case. */
  lemma InfixOfLower(s: string, sub: string)
    requires IsLower(s) && Contains(s, sub)
    ensures IsLower(sub)
  {
    var p: nat :| p <= |s| && OccursAt(s, sub, p);
    forall i | 0 <= i < |sub| ensures !('A' <= sub[i] <= 'Z') {
      assert sub[i] == s[p + i];
    }
  }

  /** A character `String.prototype.trim` removes: WhiteSpace and LineTerminator of ECMA-262
      (tab, line feed, vertical tab, form feed, carriage return, space, no-break space, the
      Space_Separator characters, line and paragraph separator, and the byte order mark). */
  predicate IsJsSpace(c: char)
  {
    '\t' <= c <= '\r' || c == ' ' || c == '\U{00A0}' || c == '\U{1680}' || '\U{2000}' <= c <= '\U{200A}'
    || c == '\U{2028}' || c == '\U{2029}' || c == '\U{202F}' || c == '\U{205F}' || c == '\U{3000}'
    || c == '\U{FEFF}'
  }

  /** A character for which Python's `str.isspace()` holds, the ones `str.strip()` removes: the
      JavaScript set without the byte order mark, plus the four separators U+001C to U+001F and
      the next line character U+0085. */
  predicate IsPySpace(c: char)
  {
    '\t' <= c <= '\r' || '\U{001C}' <= c <= ' ' || c == '\U{0085}' || c == '\U{00A0}' || c == '\U{1680}'
    || '\U{2000}' <= c <= '\U{200A}' || c == '\U{2028}' || c == '\U{2029}' || c == '\U{202F}'
    || c == '\U{205F}' || c == '\U{3000}'
  }

  const JsWhitespace: set<char> := set c: char | IsJsSpace(c)

  const PyWhitespace: set<char> := set c: char | IsPySpace(c)

  /** The first index at or after `i` that does not hold a character of `ws`. */
  function SkipLeading(s: string, ws: set<char>, i: nat): (k: nat)
    requires i <= |s|
    decreases |s| - i
    ensures i <= k <= |s|
    ensures forall j :: i <= j < k ==> s[j] in ws
    ensures k == |s| || s[k] !in ws
  {
    if i < |s| && s[i] in ws then SkipLeading(s, ws, i + 1) else i
  }

  /** The least index `k` with `lo <= k <= j` such that `s[k..j]` consists of characters of `ws`
      only. */
  function SkipTrailing(s: string, ws: set<char>, lo: nat, j: nat): (k: nat)
    requires lo <= j <= |s|
    decreases j
    ensures lo <= k <= j
    ensures forall m :: k <= m < j ==> s[m] in ws
    ensures k == lo || s[k - 1] !in ws
  {
    if lo < j && s[j - 1] in ws then SkipTrailing(s, ws, lo, j - 1) else j
  }

  /** `r` is `s` with a run of characters of `ws` cut from its front and another from its back,
      and nothing cut from between them. */
  predicate CutAtEnds(s: string, ws: set<char>, r: string)
  {
    exists lo, hi :: 0 <= lo <= hi <= |s| && r == s[lo..hi]
      && (forall j :: 0 <= j < lo ==> s[j] in ws) && (forall j :: hi <= j < |s| ==> s[j] in ws)
  }

  /** Removes the characters of `ws` from both ends of `s`: the result is the slice that starts at
      the first and ends after the last character not in `ws`. */
  function TrimBy(s: string, ws: set<char>): (r: string)
    ensures |r| <= |s|
    ensures r == [] || (r[0] !in ws && r[|r| - 1] !in ws)
    ensures r == [] <==> forall i :: 0 <= i < |s| ==> s[i] in ws
    ensures CutAtEnds(s, ws, r)
  {
    var lo := SkipLeading(s, ws, 0);
    var hi := SkipTrailing(s, ws, lo, |s|);
    assert CutAtEnds(s, ws, s[lo..hi]) by {
      assert lo <= hi && (forall j :: hi <= j < |s| ==> s[j] in ws);
    }
    s[lo..hi]
  }

  /** What is left after trimming is a piece of the original string. */
  lemma TrimByIsInfix(s: string, ws: set<char>)
    ensures Contains(s, TrimBy(s, ws))
  {
    var lo := SkipLeading(s, ws, 0);
    ContainsSlice(s, lo, SkipTrailing(s, ws, lo, |s|));
  }

  lemma TrimByIdempotent(s: string, ws: set<char>)
    ensures TrimBy(TrimBy(s, ws), ws) == TrimBy(s, ws)
  {
    var r := TrimBy(s, ws);
    TrimByOfTrimmed(r, ws);
  }

  /** A string with no trimmed character at either end is its own trim. */
  lemma TrimByOfTrimmed(s: string, ws: set<char>)
    requires s == [] || (s[0] !in ws && s[|s| - 1] !in ws)
    ensures TrimBy(s, ws) == s
  {
    if s != [] {
      assert SkipLeading(s, ws, 0) == 0;
      assert SkipTrailing(s, ws, 0, |s|) == |s|;
    }
  }

  /** JavaScript's `trim()`. */
  function TrimJs(s: string): (r: string)
    ensures |r| <= |s|
    ensures r == [] || (r[0] !in JsWhitespace && r[|r| - 1] !in JsWhitespace)
    ensures r == [] <==> forall i :: 0 <= i < |s| ==> s[i] in JsWhitespace
    ensures CutAtEnds(s, JsWhitespace, r)
  {
    TrimBy(s, JsWhitespace)
  }

  lemma TrimJsIsInfix(s: string)
    ensures Contains(s, TrimJs(s))
  {
    TrimByIsInfix(s, JsWhitespace);
  }

  /** Python's `strip()` without arguments. */
  function StripPy(s: string): (r: string)
    ensures |r| <= |s|
    ensures r == [] || (r[0] !in PyWhitespace && r[|r| - 1] !in PyWhitespace)
    ensures r == [] <==> forall i :: 0 <= i < |s| ==> s[i] in PyWhitespace
    ensures CutAtEnds(s, PyWhitespace, r)
  {
    TrimBy(s, PyWhitespace)
  }

  lemma StripPyIsInfix(s: string)
    ensures Contains(s, StripPy(s))
  {
    TrimByIsInfix(s, PyWhitespace);
  }
}
