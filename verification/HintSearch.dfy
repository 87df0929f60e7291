/**
 Which hints the advisor recognises, and that everything it masks is safe to mask.
 Case folding and word boundaries are those of ASCII letters, digits and the underscore.
 */
module HintSearch {
  import opened Basics
  import opened SqlRegions
  import opened HintMasks

  datatype HintKind = Broadcast | Shuffle | StraightJoin

  datatype Form = Bracket | CommentForm | Keyword

  datatype Hint = Hint(kind: HintKind, form: Form, span: Span)

  // -- Matching -----------------------------------------------------------------------------

  predicate IsWord(c: char) {
    'a' <= c <= 'z' || 'A' <= c <= 'Z' || '0' <= c <= '9' || c == '_'
  }

  function Upper(c: char): char {
    if 'a' <= c <= 'z' then (c as int - 'a' as int + 'A' as int) as char else c
  }

  function SkipSpaces(s: string, i: nat): (j: nat)
    requires i <= |s|
    ensures i <= j <= |s| && (j < |s| ==> !IsSpace(s[j])) && forall p :: i <= p < j ==> IsSpace(s[p])
    decreases |s| - i
  {
    if i < |s| && IsSpace(s[i]) then SkipSpaces(s, i + 1) else i
  }

  predicate LettersAt(s: string, i: nat, word: string) {
    i + |word| <= |s| && forall k :: 0 <= k < |word| ==> Upper(s[i + k]) == word[k]
  }

  /** The word at `i` with a boundary on both sides; the search ends at `limit`. */
  predicate WordAt(s: string, i: nat, limit: nat, word: string)
    requires limit <= |s|
  {
    && i + |word| <= limit && LettersAt(s, i, word)
    && (i == 0 || !IsWord(s[i - 1]))
    && (i + |word| == limit || !IsWord(s[i + |word|]))
  }

  /** Leftmost matches that do not overlap. */
  function WordMatches(s: string, i: nat, limit: nat, word: string): (r: seq<nat>)
    requires i <= limit <= |s| && word != ""
    ensures forall k <- r :: i <= k && WordAt(s, k, limit, word)
    decreases limit - i
  {
    if i + |word| > limit then []
    else if WordAt(s, i, limit, word) then [i] + WordMatches(s, i + |word|, limit, word)
    else WordMatches(s, i + 1, limit, word)
  }

  lemma LettersAreWord(s: string, i: nat, word: string)
    requires LettersAt(s, i, word) && forall c <- word :: IsWord(c)
    ensures forall p :: i <= p < i + |word| ==> IsWord(s[p])
  {
    forall p | i <= p < i + |word| ensures IsWord(s[p]) {
      assert Upper(s[i + (p - i)]) == word[p - i];
    }
  }

  function JoinKind(s: string, i: nat): (r: Option<(HintKind, nat)>)
    requires i <= |s|
    ensures r.Some? ==> i < r.value.1 <= |s| && forall p :: i <= p < r.value.1 ==> IsWord(s[p])
  {
    if LettersAt(s, i, "BROADCAST") then
      LettersAreWord(s, i, "BROADCAST");
      Some((Broadcast, i + 9))
    else if LettersAt(s, i, "SHUFFLE") then
      LettersAreWord(s, i, "SHUFFLE");
      Some((Shuffle, i + 7))
    else None
  }

  /** Blanks, a kind and blanks: the kind, and what they lead up to. */
  function NameBetweenBlanks(s: string, i: nat): (r: Option<(HintKind, nat)>)
    requires i <= |s|
    ensures r.Some? ==>
              i < r.value.1 <= |s| && forall p :: i <= p < r.value.1 ==> IsWord(s[p]) || IsSpace(s[p])
  {
    var kind := JoinKind(s, SkipSpaces(s, i));
    if kind.None? then None else Some((kind.value.0, SkipSpaces(s, kind.value.1)))
  }

  function BracketHint(s: string, c: nat): Option<Hint>
    requires c <= |s|
  {
    if c >= |s| || s[c] != '[' then None else ClosedBracket(s, c, NameBetweenBlanks(s, c + 1))
  }

  function ClosedBracket(s: string, c: nat, name: Option<(HintKind, nat)>): Option<Hint> {
    if name.None? || name.value.1 >= |s| || s[name.value.1] != ']' then None
    else Some(Hint(name.value.0, Bracket, Span(c, name.value.1 + 1)))
  }

  function CommentHint(s: string, c: nat): Option<Hint>
    requires c <= |s|
  {
    if !BlockCommentAt(s, c) then None
    else
      var plus := SkipSpaces(s, c + 2);
      if plus >= |s| || s[plus] != '+' then None else ClosedComment(s, c, NameBetweenBlanks(s, plus + 1))
  }

  function ClosedComment(s: string, c: nat, name: Option<(HintKind, nat)>): Option<Hint> {
    if name.None? || name.value.1 + 1 >= |s| || s[name.value.1] != '*' || s[name.value.1 + 1] != '/' then None
    else Some(Hint(name.value.0, CommentForm, Span(c, name.value.1 + 2)))
  }

  predicate InCode(spans: seq<Region>, p: nat) {
    exists r <- spans :: r.start <= p < r.end
  }

  /** The hint right after a JOIN keyword that ends at `j`. */
  function HintAfterJoin(s: string, j: nat, spans: seq<Region>): Option<Hint>
    requires j <= |s|
  {
    var c := SkipSpaces(s, j);
    var bracket := BracketHint(s, c);
    if bracket.Some? then (if InCode(spans, c) then bracket else None) else CommentHint(s, c)
  }

  function Straight(i: nat): Hint {
    Hint(StraightJoin, Keyword, Span(i, i + 13))
  }

  function StraightHints(positions: seq<nat>): seq<Hint> {
    if positions == [] then []
    else StraightHints(positions[..|positions| - 1]) + [Straight(positions[|positions| - 1])]
  }

  function AfterJoin(s: string, spans: seq<Region>): nat -> Option<Hint> {
    (i: nat) => if i + 4 <= |s| then HintAfterJoin(s, i + 4, spans) else None
  }

  function JoinHints(positions: seq<nat>, after: nat -> Option<Hint>): seq<Hint> {
    if positions == [] then []
    else
      var hint := after(positions[|positions| - 1]);
      JoinHints(positions[..|positions| - 1], after) + if hint.Some? then [hint.value] else []
  }

  /** The executable spans; an unterminated string is the only region that overruns the text. */
  function CodeSpans(regions: seq<Region>): seq<Region> {
    if regions == [] then []
    else
      var last := regions[|regions| - 1];
      CodeSpans(regions[..|regions| - 1]) + if last.kind == Code then [last] else []
  }

  predicate SpansWithin(spans: seq<Region>, n: nat) {
    forall k :: 0 <= k < |spans| ==> spans[k].start <= spans[k].end <= n
  }

  function AllStraight(s: string, spans: seq<Region>): seq<Hint>
    requires SpansWithin(spans, |s|)
  {
    if spans == [] then []
    else
      var last := spans[|spans| - 1];
      AllStraight(s, spans[..|spans| - 1]) + StraightHints(WordMatches(s, last.start, last.end, "STRAIGHT_JOIN"))
  }

  function AllJoins(s: string, spans: seq<Region>, after: nat -> Option<Hint>): seq<Hint>
    requires SpansWithin(spans, |s|)
  {
    if spans == [] then []
    else
      var last := spans[|spans| - 1];
      AllJoins(s, spans[..|spans| - 1], after) + JoinHints(WordMatches(s, last.start, last.end, "JOIN"), after)
  }

  /** Keyword hints of every code span, then join hints of every code span. */
  function Hints(s: string): seq<Hint> {
    CodeSpansFit(s);
    var spans := CodeSpans(Regions(s));
    AllStraight(s, spans) + AllJoins(s, spans, AfterJoin(s, spans))
  }

  function Spans(hints: seq<Hint>): seq<Span> {
    seq(|hints|, k requires 0 <= k < |hints| => hints[k].span)
  }

  lemma SpansOf(hints: seq<Hint>, h: Hint)
    ensures Spans(hints + [h]) == Spans(hints) + [h.span]
  {
  }

  lemma {:induction false} CodeSpansIn(regions: seq<Region>)
    ensures forall r :: r in CodeSpans(regions) <==> r in regions && r.kind == Code
  {
    if regions != [] {
      var n := |regions| - 1;
      CodeSpansIn(regions[..n]);
      assert regions == regions[..n] + [regions[n]];
    }
  }

  lemma {:induction false} TilesOrdered(regions: seq<Region>, k: nat)
    requires Tiles(regions, 0, if regions == [] then 0 else regions[|regions| - 1].end) && k < |regions|
    ensures regions[k].end <= regions[|regions| - 1].end
    decreases |regions| - k
  {
    if k + 1 < |regions| { TilesOrdered(regions, k + 1); }
  }

  lemma CodeEndsInText(s: string, i: nat)
    requires i < |Regions(s)| && Regions(s)[i].kind == Code
    ensures Regions(s)[i].start <= Regions(s)[i].end <= |s|
  {
    var regions := Regions(s);
    RegionsPartition(s);
    TilesOrdered(regions, i);
    if i + 1 < |regions| { TilesOrdered(regions, i + 1); }
  }

  lemma CodeSpansFit(s: string)
    ensures SpansWithin(CodeSpans(Regions(s)), |s|)
  {
    var regions, spans := Regions(s), CodeSpans(Regions(s));
    CodeSpansIn(regions);
    forall k | 0 <= k < |spans| ensures spans[k].start <= spans[k].end <= |s| {
      assert spans[k] in spans;
      var i :| 0 <= i < |regions| && regions[i] == spans[k];
      CodeEndsInText(s, i);
    }
  }

  // -- The collection loops ---------------------------------------------------------------------

  method FindWords(s: string, start: nat, limit: nat, word: string) returns (found: seq<nat>)
    requires start <= limit <= |s| && word != ""
    ensures found == WordMatches(s, start, limit, word)
  {
    found := [];
    var i := start;
    while i + |word| <= limit
      invariant start <= i <= limit
      invariant found + WordMatches(s, i, limit, word) == WordMatches(s, start, limit, word)
    {
      if WordAt(s, i, limit, word) {
        ghost var rest := WordMatches(s, i + |word|, limit, word);
        assert found + ([i] + rest) == (found + [i]) + rest;
        found := found + [i];
        i := i + |word|;
      } else {
        i := i + 1;
      }
    }
  }

  method SelectCode(regions: seq<Region>) returns (spans: seq<Region>)
    ensures spans == CodeSpans(regions)
  {
    spans := [];
    for k := 0 to |regions|
      invariant spans == CodeSpans(regions[..k])
    {
      assert regions[..k + 1][..k] == regions[..k];
      if regions[k].kind == Code { spans := spans + [regions[k]]; }
    }
    assert regions[..|regions|] == regions;
  }

  method AppendStraight(found: seq<nat>, hints0: seq<Hint>, masks0: seq<Span>)
    returns (hints: seq<Hint>, masks: seq<Span>)
    requires masks0 == Spans(hints0)
    ensures hints == hints0 + StraightHints(found) && masks == Spans(hints)
  {
    hints, masks := hints0, masks0;
    for k := 0 to |found|
      invariant hints == hints0 + StraightHints(found[..k]) && masks == Spans(hints)
    {
      assert found[..k + 1][..k] == found[..k];
      SpansOf(hints, Straight(found[k]));
      hints := hints + [Straight(found[k])];
      masks := masks + [Span(found[k], found[k] + 13)];
    }
    assert found[..|found|] == found;
  }

  method AppendJoins(s: string, found: seq<nat>, spans: seq<Region>, hints0: seq<Hint>, masks0: seq<Span>)
    returns (hints: seq<Hint>, masks: seq<Span>)
    requires masks0 == Spans(hints0)
    ensures hints == hints0 + JoinHints(found, AfterJoin(s, spans)) && masks == Spans(hints)
  {
    hints, masks := hints0, masks0;
    for k := 0 to |found|
      invariant hints == hints0 + JoinHints(found[..k], AfterJoin(s, spans)) && masks == Spans(hints)
    {
      assert found[..k + 1][..k] == found[..k];
      var hint := AfterJoin(s, spans)(found[k]);
      if hint.Some? {
        SpansOf(hints, hint.value);
        hints := hints + [hint.value];
        masks := masks + [hint.value.span];
      }
    }
    assert found[..|found|] == found;
  }

  method CollectHintsAndMasks(s: string) returns (hints: seq<Hint>, masks: seq<Span>)
    ensures hints == Hints(s) && masks == Spans(Hints(s))
  {
    var regions := IterLexicalRegions(s);
    var spans := SelectCode(regions);
    CodeSpansFit(s);
    hints, masks := CollectStraight(s, spans);
    hints, masks := CollectJoins(s, spans, hints, masks);
  }

  method CollectStraight(s: string, spans: seq<Region>) returns (hints: seq<Hint>, masks: seq<Span>)
    requires SpansWithin(spans, |s|)
    ensures hints == AllStraight(s, spans) && masks == Spans(hints)
  {
    hints, masks := [], [];
    for k := 0 to |spans|
      invariant hints == AllStraight(s, spans[..k]) && masks == Spans(hints)
    {
      assert spans[..k + 1][..k] == spans[..k];
      var found := FindWords(s, spans[k].start, spans[k].end, "STRAIGHT_JOIN");
      hints, masks := AppendStraight(found, hints, masks);
    }
    assert spans[..|spans|] == spans;
  }

  method CollectJoins(s: string, spans: seq<Region>, hints0: seq<Hint>, masks0: seq<Span>)
    returns (hints: seq<Hint>, masks: seq<Span>)
    requires SpansWithin(spans, |s|) && masks0 == Spans(hints0)
    ensures hints == hints0 + AllJoins(s, spans, AfterJoin(s, spans)) && masks == Spans(hints)
  {
    hints, masks := hints0, masks0;
    for k := 0 to |spans|
      invariant hints == hints0 + AllJoins(s, spans[..k], AfterJoin(s, spans)) && masks == Spans(hints)
    {
      assert spans[..k + 1][..k] == spans[..k];
      var found := FindWords(s, spans[k].start, spans[k].end, "JOIN");
      hints, masks := AppendJoins(s, found, spans, hints, masks);
    }
    assert spans[..|spans|] == spans;
  }

  // -- Nothing is missed and nothing else is found ---------------------------------------------------

  /** Matches cannot overlap, so the leftmost ones are all of them. */
  lemma {:induction false} EveryWordIsFound(s: string, i: nat, limit: nat, word: string, k: nat)
    requires i <= limit <= |s| && word != "" && forall c <- word :: IsWord(c)
    ensures k in WordMatches(s, i, limit, word) <==> i <= k && WordAt(s, k, limit, word)
    decreases limit - i
  {
    if i + |word| <= limit {
      if WordAt(s, i, limit, word) {
        EveryWordIsFound(s, i + |word|, limit, word, k);
        LettersAreWord(s, i, word);
        assert i < k < i + |word| ==> IsWord(s[k - 1]);
      } else {
        EveryWordIsFound(s, i + 1, limit, word, k);
      }
    }
  }

  lemma {:induction false} StraightHintsIn(positions: seq<nat>, h: Hint)
    ensures h in StraightHints(positions) <==> exists i <- positions :: h == Straight(i)
  {
    if positions != [] {
      var n := |positions| - 1;
      StraightHintsIn(positions[..n], h);
      assert positions == positions[..n] + [positions[n]];
    }
  }

  lemma {:induction false} JoinHintsIn(positions: seq<nat>, after: nat -> Option<Hint>, h: Hint)
    ensures h in JoinHints(positions, after) <==> exists i <- positions :: after(i) == Some(h)
  {
    if positions != [] {
      var n := |positions| - 1;
      JoinHintsIn(positions[..n], after, h);
      assert positions == positions[..n] + [positions[n]];
    }
  }

  predicate StraightIn(s: string, r: Region, h: Hint) {
    && h == Straight(h.span.start)
    && r.start <= h.span.start && r.end <= |s| && WordAt(s, h.span.start, r.end, "STRAIGHT_JOIN")
  }

  ghost predicate JoinIn(s: string, r: Region, after: nat -> Option<Hint>, h: Hint) {
    r.end <= |s| && exists i :: r.start <= i && WordAt(s, i, r.end, "JOIN") && after(i) == Some(h)
  }

  lemma {:induction false} AllStraightIn(s: string, spans: seq<Region>, h: Hint)
    requires SpansWithin(spans, |s|)
    ensures h in AllStraight(s, spans) <==> exists r <- spans :: StraightIn(s, r, h)
  {
    if spans != [] {
      var n := |spans| - 1;
      AllStraightIn(s, spans[..n], h);
      assert spans == spans[..n] + [spans[n]];
      var found := WordMatches(s, spans[n].start, spans[n].end, "STRAIGHT_JOIN");
      StraightHintsIn(found, h);
      EveryWordIsFound(s, spans[n].start, spans[n].end, "STRAIGHT_JOIN", h.span.start);
      assert (exists i <- found :: h == Straight(i)) <==> StraightIn(s, spans[n], h);
    }
  }

  lemma {:induction false} JoinsOfRegion(s: string, r: Region, after: nat -> Option<Hint>, h: Hint)
    requires r.start <= r.end <= |s|
    ensures h in JoinHints(WordMatches(s, r.start, r.end, "JOIN"), after) <==> JoinIn(s, r, after, h)
  {
    var found := WordMatches(s, r.start, r.end, "JOIN");
    JoinHintsIn(found, after, h);
    forall i: nat ensures i in found <==> r.start <= i && WordAt(s, i, r.end, "JOIN") {
      EveryWordIsFound(s, r.start, r.end, "JOIN", i);
    }
  }

  lemma {:induction false} AllJoinsIn(s: string, spans: seq<Region>, after: nat -> Option<Hint>, h: Hint)
    requires SpansWithin(spans, |s|)
    ensures h in AllJoins(s, spans, after) <==> exists r <- spans :: JoinIn(s, r, after, h)
  {
    if spans != [] {
      var n := |spans| - 1;
      AllJoinsIn(s, spans[..n], after, h);
      assert spans == spans[..n] + [spans[n]];
      JoinsOfRegion(s, spans[n], after, h);
    }
  }

  /** The hints are exactly the keywords and join hints found in executable text. */
  lemma HintsAreThoseInCode(s: string, h: Hint)
    ensures var after := AfterJoin(s, CodeSpans(Regions(s)));
            h in Hints(s) <==>
            exists r <- Regions(s) :: r.kind == Code && (StraightIn(s, r, h) || JoinIn(s, r, after, h))
  {
    var spans := CodeSpans(Regions(s));
    CodeSpansFit(s);
    CodeSpansIn(Regions(s));
    AllStraightIn(s, spans, h);
    AllJoinsIn(s, spans, AfterJoin(s, spans), h);
  }

  // -- Every mask is safe -------------------------------------------------------------------------

  /** Code characters only, or exactly one comment. */
  ghost predicate GoodSpan(s: string, m: Span) {
    && m.start <= m.end <= |s|
    && (|| (forall p :: m.start <= p < m.end ==> Class(s, p) == Code && Start(s, p) == p)
        || (&& m.start < |s| && Start(s, m.start) == m.start
            && TokenKind(s, m.start) == Comment && TokenEnd(s, m.start) == m.end))
  }

  predicate Empty(m: Span) {
    m.start >= m.end
  }

  lemma GoodSpanCovers(s: string, m: Span, p: nat, q: nat)
    requires GoodSpan(s, m) && m.start <= p < m.end && q < |s| && Start(s, p) == Start(s, q)
    ensures Class(s, p) == Code || Class(s, p) == Comment
    ensures m.start <= q < m.end
  {
    if Class(s, p) != Code || Start(s, p) != p {
      InsideToken(s, m.start, p);
    }
  }

  lemma GoodSpansAreSafe(s: string, masks: seq<Span>)
    requires forall m <- masks :: GoodSpan(s, m)
    ensures SafeMasks(s, masks) && WithinText(masks, |s|)
  {
    forall p, q | 0 <= p < |s| && 0 <= q < |s| && Start(s, p) == Start(s, q) && Covered(masks, p)
      ensures (Class(s, p) == Code || Class(s, p) == Comment) && Covered(masks, q)
    {
      var m :| m in masks && m.start <= p < m.end;
      GoodSpanCovers(s, m, p, q);
    }
  }

  /** A character that begins no quote, comment or comment mark. */
  predicate Plain(c: char) {
    !IsQuote(c) && c != '-' && c != '/'
  }

  /** From a boundary, a plain stretch is code, character by character, and ends at a boundary. */
  lemma {:induction false} PlainStretch(s: string, i: nat, e: nat)
    requires i <= e <= |s| && Boundary(s, i) && forall p :: i <= p < e ==> Plain(s[p])
    ensures Boundary(s, e)
    ensures forall p :: i <= p < e ==> Class(s, p) == Code && Start(s, p) == p
    decreases e - i
  {
    if i < e {
      NextIsBoundary(s, i);
      PlainStretch(s, i + 1, e);
    }
  }

  lemma BracketIsGood(s: string, c: nat)
    requires c <= |s| && Boundary(s, c) && BracketHint(s, c).Some?
    ensures GoodSpan(s, BracketHint(s, c).value.span) && !Empty(BracketHint(s, c).value.span)
  {
    PlainStretch(s, c, BracketHint(s, c).value.span.end);
  }

  lemma {:induction false} NoStarBefore(s: string, i: nat, close: nat)
    requires i <= close && close + 1 < |s| && s[close] == '*' && s[close + 1] == '/'
    requires forall p :: i <= p < close ==> s[p] != '*'
    ensures BlockEnd(s, i) == close + 2
    decreases close - i
  {
    if i < close { NoStarBefore(s, i + 1, close); }
  }

  lemma CommentIsGood(s: string, c: nat)
    requires c <= |s| && Boundary(s, c) && CommentHint(s, c).Some?
    ensures GoodSpan(s, CommentHint(s, c).value.span) && !Empty(CommentHint(s, c).value.span)
  {
    NoStarBefore(s, c + 2, CommentHint(s, c).value.span.end - 2);
  }

  lemma HintFromBoundary(s: string, j: nat, spans: seq<Region>)
    requires j <= |s| && Boundary(s, j) && HintAfterJoin(s, j, spans).Some?
    ensures GoodSpan(s, HintAfterJoin(s, j, spans).value.span) && !Empty(HintAfterJoin(s, j, spans).value.span)
  {
    var c := SkipSpaces(s, j);
    PlainStretch(s, j, c);
    if BracketHint(s, c).Some? { BracketIsGood(s, c); } else { CommentIsGood(s, c); }
  }

  lemma CodeEndsAtBoundary(s: string, r: Region, p: nat)
    requires r in Regions(s) && r.kind == Code && r.start <= p < r.end && p < |s|
    ensures Boundary(s, p + 1)
  {
    RegionsLabel(s, 0, 0);
    NextIsBoundary(s, p);
  }

  lemma JoinEndsAtBoundary(s: string, r: Region, i: nat)
    requires r in Regions(s) && r.kind == Code && r.end <= |s| && r.start <= i && WordAt(s, i, r.end, "JOIN")
    ensures i + 4 <= |s| && Boundary(s, i + 4)
  {
    CodeEndsAtBoundary(s, r, i + 3);
  }

  lemma JoinHintIsGood(s: string, r: Region, spans: seq<Region>, h: Hint)
    requires r in Regions(s) && r.kind == Code && JoinIn(s, r, AfterJoin(s, spans), h)
    ensures GoodSpan(s, h.span) && !Empty(h.span)
  {
    var i :| r.start <= i && WordAt(s, i, r.end, "JOIN") && AfterJoin(s, spans)(i) == Some(h);
    JoinEndsAtBoundary(s, r, i);
    HintAfterIsGood(s, i, spans, h);
  }

  lemma HintAfterIsGood(s: string, i: nat, spans: seq<Region>, h: Hint)
    requires i + 4 <= |s| && Boundary(s, i + 4) && AfterJoin(s, spans)(i) == Some(h)
    ensures GoodSpan(s, h.span) && !Empty(h.span)
  {
    HintFromBoundary(s, i + 4, spans);
  }

  lemma StraightIsGood(s: string, r: Region, h: Hint)
    requires r in Regions(s) && r.kind == Code && StraightIn(s, r, h)
    ensures GoodSpan(s, h.span) && !Empty(h.span)
  {
    RegionsLabel(s, 0, 0);
  }

  lemma HintIsGood(s: string, h: Hint)
    requires h in Hints(s)
    ensures GoodSpan(s, h.span) && h.span.start < h.span.end
  {
    var spans := CodeSpans(Regions(s));
    HintsAreThoseInCode(s, h);
    var r :| r in Regions(s) && r.kind == Code && (StraightIn(s, r, h) || JoinIn(s, r, AfterJoin(s, spans), h));
    if StraightIn(s, r, h) { StraightIsGood(s, r, h); } else { JoinHintIsGood(s, r, spans, h); }
  }

  /** The copy handed to the parser: same length, only hints blanked, every other character in its class. */
  lemma ParseCopyKeepsClasses(s: string)
    ensures var masks := Spans(Hints(s));
            var t := Masked(s, masks);
            && WithinText(masks, |s|) && |t| == |s|
            && forall p :: 0 <= p < |s| ==>
                 if Covered(masks, p) then t[p] == ' ' && Class(t, p) == Code
                 else t[p] == s[p] && Class(t, p) == Class(s, p)
  {
    var masks := Spans(Hints(s));
    forall m | m in masks ensures GoodSpan(s, m) {
      var k :| 0 <= k < |masks| && masks[k] == m;
      HintIsGood(s, Hints(s)[k]);
    }
    GoodSpansAreSafe(s, masks);
    MaskingKeepsClasses(s, masks);
  }

  /** The hints, and the copy of the text with exactly the hints blanked. */
  method ParseCopy(s: string) returns (hints: seq<Hint>, t: string)
    ensures hints == Hints(s) && |t| == |s|
    ensures forall p :: 0 <= p < |s| ==>
              if exists h <- hints :: h.span.start <= p < h.span.end then t[p] == ' ' && Class(t, p) == Code
              else t[p] == s[p] && Class(t, p) == Class(s, p)
  {
    var masks;
    hints, masks := CollectHintsAndMasks(s);
    ParseCopyKeepsClasses(s);
    t := ApplyMasks(s, masks);
    forall p | 0 <= p < |s| ensures Covered(masks, p) <==> exists h <- hints :: h.span.start <= p < h.span.end {
      SpanCovers(hints, p);
    }
  }

  lemma SpanCovers(hints: seq<Hint>, p: nat)
    ensures Covered(Spans(hints), p) <==> exists h <- hints :: h.span.start <= p < h.span.end
  {
    if Covered(Spans(hints), p) {
      var k :| 0 <= k < |hints| && Spans(hints)[k].start <= p < Spans(hints)[k].end;
      assert hints[k] in hints;
    }
    if h :| h in hints && h.span.start <= p < h.span.end {
      var k :| 0 <= k < |hints| && hints[k] == h;
      assert Spans(hints)[k] in Spans(hints);
    }
  }
}
