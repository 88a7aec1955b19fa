/** The one regular expression of the chat reply extractor, `<label>([^,.]+)`, on text that is
    already lower-cased: the leftmost match, the greedy group and its trimmed text. */
module CapturePattern {
  import opened Wrappers
  import opened Text

  /** A character the capture group `[^,.]` accepts. */
  predicate InRun(c: char)
  {
    c != ',' && c != '.'
  }

  /** The pattern matches at `p`: the label stands there and is followed by at least one character
      of the run. */
  predicate MatchAt(s: string, marker: string, p: nat)
  {
    OccursAt(s, marker, p) && p + |marker| < |s| && InRun(s[p + |marker|])
  }

  /** The leftmost position at or after `from` where the pattern matches, or `|s|` when it matches
      nowhere there (no match can start at `|s|`, since the group needs a character). */
  function FindMatch(s: string, marker: string, from: nat): (r: nat)
    requires from <= |s|
    decreases |s| - from
    ensures from <= r <= |s|
    ensures r < |s| ==> MatchAt(s, marker, r)
    ensures forall q: nat :: from <= q < r ==> !MatchAt(s, marker, q)
  {
    if from == |s| || MatchAt(s, marker, from) then from
    else FindMatch(s, marker, from + 1)
  }

  /** The end of the longest run of capture characters starting at `i` (the greedy `+`). */
  function RunEnd(s: string, i: nat): (e: nat)
    requires i <= |s|
    decreases |s| - i
    ensures i <= e <= |s|
    ensures forall j :: i <= j < e ==> InRun(s[j])
    ensures e == |s| || !InRun(s[e])
  {
    if i < |s| && InRun(s[i]) then RunEnd(s, i + 1) else i
  }

  /** The trimmed group of a match whose group starts at `start`. */
  function GroupAt(s: string, start: nat): string
    requires start <= |s|
  {
    TrimJs(s[start..RunEnd(s, start)])
  }

  /** A trimmed run is trimmed text of `s` with no comma and no full stop. */
  lemma RunShape(s: string, start: nat, e: nat)
    requires start <= e <= |s|
    requires forall j :: start <= j < e ==> InRun(s[j])
    ensures var r := TrimJs(s[start..e]);
      Contains(s, r) && (forall i :: 0 <= i < |r| ==> InRun(r[i]))
      && (r == [] || (r[0] !in JsWhitespace && r[|r| - 1] !in JsWhitespace))
  {
    var run := s[start..e];
    var r := TrimJs(run);
    ContainsSlice(s, start, e);
    TrimJsIsInfix(run);
    ContainsTransitive(s, run, r);
    CharsOfInfix(run, r);
  }

  /** The group at `start` has the shape of a trimmed run. */
  lemma GroupAtShape(s: string, start: nat)
    requires start <= |s|
    ensures var r := GroupAt(s, start);
      Contains(s, r) && (forall i :: 0 <= i < |r| ==> InRun(r[i]))
      && (r == [] || (r[0] !in JsWhitespace && r[|r| - 1] !in JsWhitespace))
  {
    RunShape(s, start, RunEnd(s, start));
  }

  /** Every character of an infix is a character of the string. */
  lemma CharsOfInfix(s: string, sub: string)
    requires Contains(s, sub)
    ensures forall i :: 0 <= i < |sub| ==> sub[i] in s
  {
    var p: nat :| p <= |s| && OccursAt(s, sub, p);
    forall i | 0 <= i < |sub| ensures sub[i] in s {
      assert sub[i] == s[p + i];
    }
  }

  /** The regular-expression step on the lower-cased text `s`: the trimmed group of the leftmost
      match, or none when the pattern matches nowhere. */
  datatype Captured = NoMatch | Group(text: string)

  function CaptureIn(s: string, marker: string): Captured
  {
    var p := FindMatch(s, marker, 0);
    if p == |s| then NoMatch else Group(GroupAt(s, p + |marker|))
  }

  /** What the pattern captures, stated without the search: when the leftmost match is at `p` and
      the first comma or full stop after the label is at `e` (or there is none and `e` is the end),
      the answer is the trimmed text between the label and `e`. */
  lemma CaptureIsLeftmostLongest(s: string, marker: string, p: nat, e: nat)
    requires MatchAt(s, marker, p)
    requires forall q: nat :: q < p ==> !MatchAt(s, marker, q)
    requires p + |marker| < e <= |s|
    requires forall j :: p + |marker| <= j < e ==> InRun(s[j])
    requires e == |s| || !InRun(s[e])
    ensures CaptureIn(s, marker) == Group(TrimJs(s[p + |marker|..e]))
  {
    FindMatchIsLeftmost(s, marker, p);
    RunEndIsFirstStop(s, p + |marker|, e);
    CaptureOfRun(s, marker, e);
  }

  /** The capture is the trimmed text between the leftmost match's label and the end `e` of the
      run that follows it. */
  lemma CaptureOfRun(s: string, marker: string, e: nat)
    requires FindMatch(s, marker, 0) < |s|
    requires RunEnd(s, FindMatch(s, marker, 0) + |marker|) == e
    ensures CaptureIn(s, marker) == Group(TrimJs(s[FindMatch(s, marker, 0) + |marker|..e]))
  {
    CaptureAtMatch(s, marker);
  }

  /** Where the pattern matches, the capture is the trimmed run after the label of its leftmost
      match. */
  lemma CaptureAtMatch(s: string, marker: string)
    requires FindMatch(s, marker, 0) < |s|
    ensures var start := FindMatch(s, marker, 0) + |marker|;
      start < |s| && CaptureIn(s, marker) == Group(TrimJs(s[start..RunEnd(s, start)]))
  {
  }

  /** No capture exactly when the pattern matches nowhere. */
  lemma CaptureInNone(s: string, marker: string)
    ensures CaptureIn(s, marker) == NoMatch <==> forall q: nat :: q <= |s| ==> !MatchAt(s, marker, q)
  {
  }

  lemma FindMatchIsLeftmost(s: string, marker: string, p: nat)
    requires MatchAt(s, marker, p)
    requires forall q: nat :: q < p ==> !MatchAt(s, marker, q)
    ensures FindMatch(s, marker, 0) == p
  {
  }

  lemma {:induction false} RunEndIsFirstStop(s: string, i: nat, e: nat)
    requires i <= e <= |s|
    requires forall j :: i <= j < e ==> InRun(s[j])
    requires e == |s| || !InRun(s[e])
    decreases e - i
    ensures RunEnd(s, i) == e
  {
    if i < e {
      RunEndIsFirstStop(s, i + 1, e);
    }
  }
}
