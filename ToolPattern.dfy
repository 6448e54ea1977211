/** The tool-call grammar of the decision loop, `re.search(r"TOOL:\s*(\w+)\s*QUERY:\s*(.*)",
    output, re.DOTALL)`, as a hand-written leftmost matcher.

    IsMatch says declaratively when the pattern matches at a given start with given
    group boundaries. Python's backtracking engine reports one of those matches: the one
    with the leftmost start and, at that start, the first in the order in which the greedy
    `\s*`, `\w+`, `\s*` and `\s*` give back characters. IsReported states that choice; the
    matcher is proved to find exactly it, and to find nothing exactly when there is no match. */
module ToolPattern {
  import opened Wrappers
  import opened Text

  const ToolMarker: string := "TOOL:"
  const QueryMarker: string := "QUERY:"

  /** The two captured groups, each after `.strip()`. */
  datatype ToolCall = ToolCall(name: string, query: string)

  /** Boundaries of one match: `TOOL:` at start, the name group is [nameStart, nameEnd),
      `QUERY:` at queryMarker, and the query group is [queryStart, end of text). */
  datatype Span = Span(start: nat, nameStart: nat, nameEnd: nat, queryMarker: nat, queryStart: nat)

  /** The pattern matches s at m.start with the groups m describes. */
  predicate IsMatch(s: string, m: Span) {
    && HasAt(s, m.start, ToolMarker)
    && m.start + |ToolMarker| <= m.nameStart < m.nameEnd <= m.queryMarker
    && m.queryMarker + |QueryMarker| <= m.queryStart <= |s|
    && AllSpace(s, m.start + |ToolMarker|, m.nameStart)
    && AllWord(s, m.nameStart, m.nameEnd)
    && AllSpace(s, m.nameEnd, m.queryMarker)
    && HasAt(s, m.queryMarker, QueryMarker)
    && AllSpace(s, m.queryMarker + |QueryMarker|, m.queryStart)
  }

  /** Among the matches that start where m starts, m is the first one backtracking
      tries: the same name start, no longer name, and for the same name the same
      `QUERY:` position and no later query start. */
  ghost predicate FirstAtStart(s: string, m: Span) {
    forall m' :: IsMatch(s, m') && m'.start == m.start ==>
      && m'.nameStart == m.nameStart
      && m'.nameEnd <= m.nameEnd
      && (m'.nameEnd == m.nameEnd ==> m'.queryMarker == m.queryMarker && m'.queryStart <= m.queryStart)
  }

  /** m is the match `re.search` reports: no match starts earlier, and m is first at its start. */
  ghost predicate IsReported(s: string, m: Span) {
    && IsMatch(s, m)
    && (forall m' :: IsMatch(s, m') ==> m.start <= m'.start)
    && FirstAtStart(s, m)
  }

  /** A whitespace run is determined by where it starts: it ends at the first
      non-whitespace character. */
  lemma {:induction false} SpaceRunEnd(s: string, i: nat, j: nat)
    requires i <= j <= |s| && AllSpace(s, i, j)
    requires j < |s| ==> !IsSpace(s[j])
    ensures SkipSpaces(s, i) == j
  {
    var e := SkipSpaces(s, i);
    if e < j {
      assert false;
    } else if e > j {
      assert false;
    }
  }

  /** The `\s*` that follows a name ending at e is greedy: `QUERY:` is looked for
      after the whole whitespace run. */
  function MarkerAfter(s: string, e: nat): (c: nat)
    requires e <= |s|
  {
    SkipSpaces(s, e)
  }

  /** The backtracking of `(\w+)`: tries the name ends e, e - 1, ..., a + 1 in turn and
      returns the first whose following `\s*QUERY:` matches, with the marker position. */
  function BacktrackName(s: string, a: nat, e: nat): (r: Option<(nat, nat)>)
    requires a <= e <= |s|
    ensures r.Some? ==> a < r.value.0 <= e && r.value.1 == MarkerAfter(s, r.value.0)
                        && HasAt(s, r.value.1, QueryMarker)
    ensures r.Some? ==> forall e' :: r.value.0 < e' <= e ==> !HasAt(s, MarkerAfter(s, e'), QueryMarker)
    ensures r.None? ==> forall e' :: a < e' <= e ==> !HasAt(s, MarkerAfter(s, e'), QueryMarker)
    decreases e
  {
    if e <= a then None
    else if HasAt(s, MarkerAfter(s, e), QueryMarker) then Some((e, MarkerAfter(s, e)))
    else BacktrackName(s, a, e - 1)
  }

  /** The attempt of the pattern at start p. */
  function MatchAt(s: string, p: nat): Option<Span>
  {
    if !HasAt(s, p, ToolMarker) then None
    else
      var a := SkipSpaces(s, p + |ToolMarker|);
      match BacktrackName(s, a, SkipWord(s, a))
      case None => None
      case Some(bc) => Some(Span(p, a, bc.0, bc.1, SkipSpaces(s, bc.1 + |QueryMarker|)))
  }

  /** Any match at p has the name start MatchAt uses, a name no longer than the word
      run there, and the `QUERY:` position the greedy `\s*` gives. */
  lemma MatchShape(s: string, m: Span)
    requires IsMatch(s, m)
    ensures m.nameStart == SkipSpaces(s, m.start + |ToolMarker|)
    ensures m.nameEnd <= SkipWord(s, m.nameStart)
    ensures m.queryMarker == MarkerAfter(s, m.nameEnd)
    ensures m.queryStart <= SkipSpaces(s, m.queryMarker + |QueryMarker|)
  {
    assert IsWordChar(s[m.nameStart]);
    SpaceRunEnd(s, m.start + |ToolMarker|, m.nameStart);
    var k := SkipWord(s, m.nameStart);
    if m.nameEnd > k {
      assert false;
    }
    assert s[m.queryMarker..m.queryMarker + |QueryMarker|] == QueryMarker;
    assert s[m.queryMarker] == 'Q';
    SpaceRunEnd(s, m.nameEnd, m.queryMarker);
    var d := SkipSpaces(s, m.queryMarker + |QueryMarker|);
    if m.queryStart > d {
      assert false;
    }
  }

  /** MatchAt finds the first match at p in backtracking order... */
  lemma MatchAtFound(s: string, p: nat)
    requires MatchAt(s, p).Some?
    ensures MatchAt(s, p).value.start == p
    ensures IsMatch(s, MatchAt(s, p).value) && FirstAtStart(s, MatchAt(s, p).value)
  {
    var m := MatchAt(s, p).value;
    forall m' | IsMatch(s, m') && m'.start == m.start
      ensures m'.nameStart == m.nameStart && m'.nameEnd <= m.nameEnd
      ensures m'.nameEnd == m.nameEnd ==> m'.queryMarker == m.queryMarker && m'.queryStart <= m.queryStart
    {
      MatchShape(s, m');
    }
  }

  /** ...and finds none exactly when the pattern cannot match at p. */
  lemma MatchAtNone(s: string, p: nat)
    requires MatchAt(s, p).None?
    ensures forall m :: IsMatch(s, m) ==> m.start != p
  {
    forall m | IsMatch(s, m) && m.start == p ensures false {
      MatchShape(s, m);
    }
  }

  /** `re.search` from position p onwards: the leftmost start that matches. */
  function SearchFrom(s: string, p: nat): (r: Option<Span>)
    ensures r.Some? ==> IsMatch(s, r.value) && FirstAtStart(s, r.value) && p <= r.value.start
    ensures r.Some? ==> forall m :: IsMatch(s, m) && p <= m.start ==> r.value.start <= m.start
    ensures r.None? ==> forall m :: IsMatch(s, m) ==> m.start < p
    decreases |s| + 1 - p
  {
    if p > |s| then None
    else match MatchAt(s, p)
      case Some(m) => MatchAtFound(s, p); Some(m)
      case None => MatchAtNone(s, p); SearchFrom(s, p + 1)
  }

  /** The groups of a match, each stripped as the decision loop does. */
  function Groups(s: string, m: Span): ToolCall
    requires IsMatch(s, m)
  {
    ToolCall(Strip(s[m.nameStart..m.nameEnd]), Strip(s[m.queryStart..]))
  }

  /** The tool call in a model output, if the pattern matches anywhere in it: the groups
      of the reported match; None exactly when no match exists. */
  function ParseTool(s: string): (r: Option<ToolCall>)
    ensures r.None? <==> forall m :: !IsMatch(s, m)
    ensures r.Some? ==> exists m :: IsReported(s, m) && r.value == Groups(s, m)
  {
    match SearchFrom(s, 0)
    case None => None
    case Some(m) => Some(Groups(s, m))
  }

  /** The reported match is unique, so ParseTool's answer does not depend on how the
      match was found. */
  lemma ReportedUnique(s: string, m1: Span, m2: Span)
    requires IsReported(s, m1) && IsReported(s, m2)
    ensures m1 == m2
  {
  }

  /** The tool name is a non-empty run of word characters, which `.strip()` leaves alone. */
  lemma ToolNameIsWord(s: string, m: Span)
    requires IsMatch(s, m)
    ensures Groups(s, m).name == s[m.nameStart..m.nameEnd]
    ensures |Groups(s, m).name| > 0
    ensures forall i :: 0 <= i < |Groups(s, m).name| ==> IsWordChar(Groups(s, m).name[i])
  {
    var w := s[m.nameStart..m.nameEnd];
    assert forall i :: 0 <= i < |w| ==> IsWordChar(w[i]) && w[i] == s[m.nameStart + i];
    assert IsStripped(w);
    StripStripped(w);
  }

  /** No `QUERY:` follows a name that ends where neither whitespace nor a `Q` stands. */
  lemma NoMarkerAfter(s: string, e: nat)
    requires e <= |s| && (e < |s| ==> !IsSpace(s[e]) && s[e] != 'Q')
    ensures MarkerAfter(s, e) == e && !HasAt(s, e, QueryMarker)
  {
  }

  const BacktrackSample: string := "TOOL: abcQUERY: x"

  /** In the sample the name run `abcQUERY` is given back down to `abc`. */
  lemma BacktrackSampleName()
    ensures BacktrackName(BacktrackSample, 6, 14) == Some((9, 9))
  {
    var s := BacktrackSample;
    assert MarkerAfter(s, 9) == 9 && HasAt(s, 9, QueryMarker);
    assert BacktrackName(s, 6, 9) == Some((9, 9));
    NoMarkerAfter(s, 10);
    assert BacktrackName(s, 6, 10) == Some((9, 9));
    NoMarkerAfter(s, 11);
    assert BacktrackName(s, 6, 11) == Some((9, 9));
    NoMarkerAfter(s, 12);
    assert BacktrackName(s, 6, 12) == Some((9, 9));
    NoMarkerAfter(s, 13);
    assert BacktrackName(s, 6, 13) == Some((9, 9));
    NoMarkerAfter(s, 14);
  }

  /** The attempt at the start of the sample finds the name `abc`. */
  lemma BacktrackSampleMatch()
    ensures MatchAt(BacktrackSample, 0) == Some(Span(0, 6, 9, 9, 16))
  {
    var s := BacktrackSample;
    assert HasAt(s, 0, ToolMarker);
    BacktrackSampleRuns();
    BacktrackSampleName();
  }

  /** The runs of whitespace and word characters in the sample. */
  lemma BacktrackSampleRuns()
    ensures SkipSpaces(BacktrackSample, 5) == 6 && SkipWord(BacktrackSample, 6) == 14
    ensures SkipSpaces(BacktrackSample, 15) == 16
  {
    var s := BacktrackSample;
    assert SkipSpaces(s, 6) == 6;
    assert SkipWord(s, 14) == 14;
    assert SkipWord(s, 12) == 14;
    assert SkipWord(s, 10) == 14;
    assert SkipWord(s, 8) == 14;
    assert SkipSpaces(s, 16) == 16;
  }

  /** The name run gives characters back: in `TOOL: abcQUERY: x` the name is `abc`. */
  lemma BacktrackExample()
    ensures ParseTool(BacktrackSample) == Some(ToolCall("abc", "x"))
  {
    var s := BacktrackSample;
    BacktrackSampleMatch();
    assert SearchFrom(s, 0) == Some(Span(0, 6, 9, 9, 16));
    BacktrackSampleGroups();
  }

  lemma BacktrackSampleGroups()
    requires IsMatch(BacktrackSample, Span(0, 6, 9, 9, 16))
    ensures Groups(BacktrackSample, Span(0, 6, 9, 9, 16)) == ToolCall("abc", "x")
  {
    var s := BacktrackSample;
    assert s[6..9] == "abc" && s[16..] == "x";
    StripStripped("abc");
    StripStripped("x");
  }

  const LeftmostSample: string := "TOOL:x TOOL: y QUERY: q"

  /** The first `TOOL:` of the sample cannot complete a match: `x` is not followed by `QUERY:`. */
  lemma LeftmostSampleFirst()
    ensures MatchAt(LeftmostSample, 0) == None
  {
    var s := LeftmostSample;
    assert HasAt(s, 0, ToolMarker);
    assert SkipSpaces(s, 5) == 5 && SkipWord(s, 6) == 6 && SkipWord(s, 5) == 6;
    assert SkipSpaces(s, 7) == 7 && MarkerAfter(s, 6) == 7;
    assert s[7..13] != QueryMarker by { assert s[7..13][0] == 'T'; }
    assert BacktrackName(s, 5, 5) == None;
    assert BacktrackName(s, 5, 6) == None;
  }

  /** No attempt succeeds where the text has no `T`. */
  lemma NoToolAt(s: string, p: nat)
    requires p < |s| && s[p] != 'T'
    ensures MatchAt(s, p) == None
  {
    if p + |ToolMarker| <= |s| {
      assert s[p..p + |ToolMarker|][0] == s[p];
    }
  }

  /** The second `TOOL:` of the sample matches with the name `y`. */
  lemma LeftmostSampleMatch()
    ensures MatchAt(LeftmostSample, 7) == Some(Span(7, 13, 14, 15, 22))
  {
    var s := LeftmostSample;
    assert HasAt(s, 7, ToolMarker);
    LeftmostSampleRuns();
    assert HasAt(s, 15, QueryMarker);
    assert BacktrackName(s, 13, 14) == Some((14, 15));
  }

  /** The runs of whitespace and word characters after the second `TOOL:`. */
  lemma LeftmostSampleRuns()
    ensures SkipSpaces(LeftmostSample, 12) == 13 && SkipWord(LeftmostSample, 13) == 14
    ensures MarkerAfter(LeftmostSample, 14) == 15 && SkipSpaces(LeftmostSample, 21) == 22
  {
    var s := LeftmostSample;
    assert SkipSpaces(s, 13) == 13;
    assert SkipWord(s, 14) == 14;
    assert SkipSpaces(s, 15) == 15;
    assert SkipSpaces(s, 22) == 22;
  }

  lemma LeftmostSampleGroups()
    requires IsMatch(LeftmostSample, Span(7, 13, 14, 15, 22))
    ensures Groups(LeftmostSample, Span(7, 13, 14, 15, 22)) == ToolCall("y", "q")
  {
    var s := LeftmostSample;
    assert s[13..14] == "y";
    assert s[22..] == "q";
    StripStripped("y");
    StripStripped("q");
  }

  lemma LeftmostSampleChars()
    ensures forall p :: 1 <= p < 7 ==> LeftmostSample[p] != 'T'
  {
    var s := LeftmostSample;
    assert s[1] == 'O' && s[2] == 'O' && s[3] == 'L' && s[4] == ':' && s[5] == 'x' && s[6] == ' ';
  }

  /** The search is leftmost: a `TOOL:` that cannot complete a match is passed over. */
  lemma LeftmostExample()
    ensures ParseTool(LeftmostSample) == Some(ToolCall("y", "q"))
  {
    var s := LeftmostSample;
    var m := Span(7, 13, 14, 15, 22);
    LeftmostSampleMatch();
    assert SearchFrom(s, 7) == Some(m);
    LeftmostSampleChars();
    NoToolAt(s, 6);
    assert SearchFrom(s, 6) == Some(m);
    NoToolAt(s, 5);
    assert SearchFrom(s, 5) == Some(m);
    NoToolAt(s, 4);
    assert SearchFrom(s, 4) == Some(m);
    NoToolAt(s, 3);
    assert SearchFrom(s, 3) == Some(m);
    NoToolAt(s, 2);
    assert SearchFrom(s, 2) == Some(m);
    NoToolAt(s, 1);
    assert SearchFrom(s, 1) == Some(m);
    LeftmostSampleFirst();
    assert SearchFrom(s, 0) == Some(m);
    LeftmostSampleGroups();
  }
}
