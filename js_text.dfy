/**
 * The JavaScript string built-ins the view relies on: `String.prototype.trim`,
 * `split(/\s+/)` and the word count the transcript statistics derive from them.
 */
module JsText {

  /** The characters JavaScript's `trim` and the regular expression class `\s`
      treat as white space: WhiteSpace and LineTerminator of ECMAScript. */
  predicate IsSpace(c: char) {
    || c == ' ' || c == '\t' || c == '\n' || c == '\r'
    || c == '\U{000B}' || c == '\U{000C}' || c == '\U{00A0}' || c == '\U{1680}'
    || ('\U{2000}' <= c <= '\U{200A}')
    || c == '\U{2028}' || c == '\U{2029}' || c == '\U{202F}' || c == '\U{205F}'
    || c == '\U{3000}' || c == '\U{FEFF}'
  }

  predicate AllSpace(s: string) {
    forall i :: 0 <= i < |s| ==> IsSpace(s[i])
  }

  predicate NoSpace(s: string) {
    forall i :: 0 <= i < |s| ==> !IsSpace(s[i])
  }

  /** Drops exactly the leading white space. */
  function TrimStart(s: string): (r: string)
    ensures |r| <= |s| && r == s[|s| - |r|..]
    ensures AllSpace(s[..|s| - |r|])
    ensures r == [] || !IsSpace(r[0])
  {
    if s != [] && IsSpace(s[0]) then TrimStart(s[1..]) else s
  }

  /** Drops exactly the trailing white space. */
  function TrimEnd(s: string): (r: string)
    ensures |r| <= |s| && r == s[..|r|]
    ensures AllSpace(s[|r|..])
    ensures r == [] || !IsSpace(r[|r| - 1])
  {
    if s != [] && IsSpace(s[|s| - 1]) then TrimEnd(s[..|s| - 1]) else s
  }

  /** `s.trim()` */
  function Trim(s: string): (r: string)
    ensures r == [] <==> AllSpace(s)
    ensures r != [] ==> !IsSpace(r[0]) && !IsSpace(r[|r| - 1])
    ensures exists i :: TrimmedAt(s, r, i)
  {
    TrimIsInfix(s);
    var t := TrimStart(s);
    var r := TrimEnd(t);
    assert t != [] ==> t[0] == s[|s| - |t|];
    assert r == [] ==> AllSpace(s) by {
      if r == [] {
        assert t == t[..0] + t[0..];
        assert s == s[..|s| - |t|] + t;
      }
    }
    assert r != [] ==> r[0] == t[0];
    r
  }

  /** `r` is `s` without the all-space prefix `s[..i]` and an all-space suffix. */
  predicate TrimmedAt(s: string, r: string, i: int) {
    && 0 <= i <= |s| - |r| && r == s[i..i + |r|]
    && AllSpace(s[..i]) && AllSpace(s[i + |r|..])
  }

  lemma {:induction false} TrimIsInfix(s: string)
    ensures TrimmedAt(s, TrimEnd(TrimStart(s)), |s| - |TrimStart(s)|)
  {
    var t := TrimStart(s);
    SuffixThenPrefix(s, t, TrimEnd(t));
  }

  /** Cutting an all-space prefix and then an all-space suffix leaves an infix. */
  lemma {:induction false} SuffixThenPrefix(s: string, t: string, r: string)
    requires |t| <= |s| && t == s[|s| - |t|..] && AllSpace(s[..|s| - |t|])
    requires |r| <= |t| && r == t[..|r|] && AllSpace(t[|r|..])
    ensures TrimmedAt(s, r, |s| - |t|)
  {
    var i := |s| - |t|;
    assert s[i + |r|..] == t[|r|..];
  }

  /** The longest prefix of `s` without white space. */
  function TakeWord(s: string): (w: string)
    ensures |w| <= |s| && w == s[..|w|]
    ensures NoSpace(w)
    ensures |w| < |s| ==> IsSpace(s[|w|])
  {
    if s == [] || IsSpace(s[0]) then [] else [s[0]] + TakeWord(s[1..])
  }

  /** `s.split(/\s+/)`: the pieces between maximal runs of white space, including
      the empty pieces before a leading run and after a trailing one. Joining the
      pieces with the runs `SplitSeps(s)` between them gives back `s`. */
  function SplitWs(s: string): (parts: seq<string>)
    ensures |parts| == |SplitSeps(s)| + 1
    ensures Join(parts, SplitSeps(s)) == s
    ensures forall i :: 0 <= i < |parts| ==> NoSpace(parts[i])
    ensures forall i :: 0 < i < |parts| - 1 ==> parts[i] != []
    ensures s != [] && !IsSpace(s[0]) ==> parts[0] != []
    ensures s == [] ==> parts == [[]]
    decreases |s|
  {
    var w := TakeWord(s);
    if |w| == |s| then
      assert w == s;
      [w]
    else
      var tail := s[|w|..];
      var lead := LeadingSpace(tail);
      var rest := TrimStart(tail);
      PiecesJoin(s, w, lead, rest);
      JoinCons(w, lead, SplitWs(rest), SplitSeps(rest));
      PiecesCons(w, SplitWs(rest));
      [w] + SplitWs(rest)
  }

  lemma PiecesCons(w: string, parts: seq<string>)
    requires NoSpace(w) && |parts| >= 1
    requires forall i :: 0 <= i < |parts| ==> NoSpace(parts[i])
    requires forall i :: 0 < i < |parts| - 1 ==> parts[i] != []
    requires |parts| > 1 ==> parts[0] != []
    ensures forall i :: 0 <= i < |[w] + parts| ==> NoSpace(([w] + parts)[i])
    ensures forall i :: 0 < i < |[w] + parts| - 1 ==> ([w] + parts)[i] != []
  {
    forall i | 0 < i < |parts| + 1
      ensures ([w] + parts)[i] == parts[i - 1]
    {
    }
  }

  /** The maximal runs of white space that separate the pieces of `SplitWs(s)`. */
  function SplitSeps(s: string): (seps: seq<string>)
    ensures Separators(seps)
    decreases |s|
  {
    var w := TakeWord(s);
    if |w| == |s| then []
    else
      var tail := s[|w|..];
      SeparatorsCons(LeadingSpace(tail), SplitSeps(TrimStart(tail)));
      [LeadingSpace(tail)] + SplitSeps(TrimStart(tail))
  }

  predicate Separators(seps: seq<string>) {
    forall i :: 0 <= i < |seps| ==> seps[i] != [] && AllSpace(seps[i])
  }

  lemma SeparatorsCons(sep: string, seps: seq<string>)
    requires sep != [] && AllSpace(sep) && Separators(seps)
    ensures Separators([sep] + seps)
  {
    forall i | 0 < i < |seps| + 1
      ensures ([sep] + seps)[i] == seps[i - 1]
    {
    }
  }

  /** The run of white space that `TrimStart` drops from `s`. */
  function LeadingSpace(s: string): (lead: string)
    requires s != [] && IsSpace(s[0])
    ensures lead != [] && AllSpace(lead)
    ensures |TrimStart(s)| == |s| - |lead|
    ensures lead == s[..|lead|] && TrimStart(s) == s[|lead|..]
  {
    var rest := TrimStart(s);
    assert rest == TrimStart(s[1..]);
    s[..|s| - |rest|]
  }

  /** A word, a run of white space and the rest put back together. */
  lemma {:induction false} PiecesJoin(s: string, w: string, lead: string, rest: string)
    requires |w| <= |s| && w == s[..|w|]
    requires |lead| <= |s| - |w| && lead == s[|w|..][..|lead|]
    requires rest == s[|w|..][|lead|..]
    ensures s == w + lead + rest
  {
    var tail := s[|w|..];
    assert tail == lead + rest;
    assert s == w + tail;
  }

  /** `parts[0] + seps[0] + parts[1] + ... + parts[|parts| - 1]` */
  function Join(parts: seq<string>, seps: seq<string>): string
    requires |parts| == |seps| + 1
    decreases |seps|
  {
    if seps == [] then parts[0] else parts[0] + seps[0] + Join(parts[1..], seps[1..])
  }

  lemma JoinCons(w: string, sep: string, parts: seq<string>, seps: seq<string>)
    requires |parts| == |seps| + 1
    ensures Join([w] + parts, [sep] + seps) == w + sep + Join(parts, seps)
  {
    assert ([w] + parts)[1..] == parts;
    assert ([sep] + seps)[1..] == seps;
  }

  /** `.filter(word => word.length > 0)`: the non-empty pieces, each as often as
      it occurs in `parts`. */
  function NonEmptyParts(parts: seq<string>): (r: seq<string>)
    ensures |r| <= |parts|
    ensures multiset(r) == multiset(parts)[[] := 0]
    ensures forall i :: 0 <= i < |r| ==> r[i] != []
    ensures (forall i :: 0 <= i < |parts| ==> parts[i] != []) ==> r == parts
    ensures (forall i :: 0 <= i < |parts| ==> parts[i] == []) ==> r == []
  {
    if parts == [] then []
    else
      assert parts == [parts[0]] + parts[1..];
      (if parts[0] == [] then [] else [parts[0]]) + NonEmptyParts(parts[1..])
  }

  /** The word count as the view computes it:
      `s.trim().split(/\s+/).filter(word => word.length > 0).length`. */
  function WordCount(s: string): (n: nat)
    ensures n == RunCount(s)
  {
    SplitCountsRuns(Trim(s));
    TrimKeepsRuns(s);
    |NonEmptyParts(SplitWs(Trim(s)))|
  }

  // ---------------------------------------------------------------------------
  // Reference definition: the number of maximal runs of non-space characters.

  /** Number of positions that start a run of non-space characters, where
      `afterSpace` says whether the position before `s` counts as white space. */
  function Runs(s: string, afterSpace: bool): nat {
    if s == [] then 0
    else (if afterSpace && !IsSpace(s[0]) then 1 else 0) + Runs(s[1..], IsSpace(s[0]))
  }

  function RunCount(s: string): nat {
    Runs(s, true)
  }

  lemma {:induction false} RunsAppend(a: string, b: string, afterSpace: bool)
    ensures Runs(a + b, afterSpace) ==
            Runs(a, afterSpace) + Runs(b, if a == [] then afterSpace else IsSpace(a[|a| - 1]))
    decreases |a|
  {
    if a == [] {
      assert a + b == b;
    } else {
      assert (a + b)[0] == a[0];
      assert (a + b)[1..] == a[1..] + b;
      RunsAppend(a[1..], b, IsSpace(a[0]));
      if a[1..] != [] {
        assert a[1..][|a[1..]| - 1] == a[|a| - 1];
      }
    }
  }

  lemma {:induction false} RunsAllSpace(a: string, afterSpace: bool)
    requires AllSpace(a)
    ensures Runs(a, afterSpace) == 0
    decreases |a|
  {
    if a != [] {
      RunsAllSpace(a[1..], true);
    }
  }

  lemma {:induction false} RunsWord(w: string, afterSpace: bool)
    requires NoSpace(w)
    ensures Runs(w, afterSpace) == if w != [] && afterSpace then 1 else 0
    decreases |w|
  {
    if w != [] {
      RunsWord(w[1..], false);
    }
  }

  /** A run of white space followed by `rest` starts as many runs as `rest`. */
  lemma {:induction false} RunsAfterSpace(tail: string, q: bool)
    requires tail != [] && IsSpace(tail[0])
    ensures Runs(tail, q) == RunCount(TrimStart(tail))
  {
    var rest := TrimStart(tail);
    var lead := tail[..|tail| - |rest|];
    assert tail == lead + rest;
    assert rest != tail;
    RunsAppend(lead, rest, q);
    RunsAllSpace(lead, q);
    assert IsSpace(lead[|lead| - 1]);
  }

  /** Splitting on white space and dropping the empty pieces leaves one piece
      per run of non-space characters. */
  lemma {:induction false} SplitCountsRuns(s: string)
    ensures |NonEmptyParts(SplitWs(s))| == RunCount(s)
    decreases |s|
  {
    var w := TakeWord(s);
    var tail := s[|w|..];
    var q := if w == [] then true else IsSpace(w[|w| - 1]);
    var k := if w == [] then 0 else 1;
    assert RunCount(s) == k + Runs(tail, q) by {
      assert s == w + tail;
      RunsAppend(w, tail, true);
      RunsWord(w, true);
    }
    if |w| == |s| {
      assert SplitWs(s) == [w];
      assert NonEmptyParts([w]) == (if w == [] then [] else [w]) + NonEmptyParts([]);
    } else {
      var rest := TrimStart(tail);
      assert |rest| < |s| by {
        assert |LeadingSpace(tail)| > 0;
      }
      assert Runs(tail, q) == RunCount(rest) by {
        RunsAfterSpace(tail, q);
      }
      SplitCountsRuns(rest);
      assert |NonEmptyParts(SplitWs(s))| == k + |NonEmptyParts(SplitWs(rest))| by {
        assert SplitWs(s) == [w] + SplitWs(rest);
        NonEmptyPartsCons(w, SplitWs(rest));
      }
    }
  }

  lemma NonEmptyPartsCons(p: string, ps: seq<string>)
    ensures |NonEmptyParts([p] + ps)| == (if p == [] then 0 else 1) + |NonEmptyParts(ps)|
  {
    assert ([p] + ps)[1..] == ps;
  }

  lemma TrimStartKeepsRuns(s: string)
    ensures RunCount(TrimStart(s)) == RunCount(s)
  {
    var t := TrimStart(s);
    var lead := s[..|s| - |t|];
    assert s == lead + t;
    RunsAppend(lead, t, true);
    RunsAllSpace(lead, true);
  }

  lemma TrimEndKeepsRuns(t: string)
    ensures RunCount(TrimEnd(t)) == RunCount(t)
  {
    var r := TrimEnd(t);
    var trail := t[|r|..];
    assert t == r + trail;
    RunsAppend(r, trail, true);
    RunsAllSpace(trail, if r == [] then true else IsSpace(r[|r| - 1]));
  }

  lemma TrimKeepsRuns(s: string)
    ensures RunCount(Trim(s)) == RunCount(s)
  {
    TrimStartKeepsRuns(s);
    TrimEndKeepsRuns(TrimStart(s));
  }

  /** A text made only of white space (the empty text included) has no words. */
  lemma OnlySpaceHasNoWords(s: string)
    requires AllSpace(s)
    ensures WordCount(s) == 0
  {
    RunsAllSpace(s, true);
  }

  /** Appending a word after white space adds exactly one word. */
  lemma WordCountAppendWord(s: string, sep: string, w: string)
    requires AllSpace(sep) && sep != [] && NoSpace(w) && w != []
    ensures WordCount(s + sep + w) == WordCount(s) + 1
  {
    RunsAppend(s + sep, w, true);
    RunsAppend(s, sep, true);
    RunsAllSpace(sep, if s == [] then true else IsSpace(s[|s| - 1]));
    RunsWord(w, IsSpace(sep[|sep| - 1]));
    assert (s + sep)[|s + sep| - 1] == sep[|sep| - 1];
  }
}
