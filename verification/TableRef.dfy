/**
 The table reference read after a join hint: whitespace, comments and identifiers, never the inside
 of a string.
 */
module TableRef {
  import opened Basics
  import opened SqlRegions
  import opened HintMasks
  import opened HintSearch

  /** Past whitespace and comments. */
  function SkipTrivia(s: string, i: nat): (r: nat)
    requires i <= |s|
    ensures i <= r <= |s|
    ensures r < |s| ==> !IsSpace(s[r]) && !LineCommentAt(s, r) && !BlockCommentAt(s, r)
    decreases |s| - i
  {
    if i == |s| then i
    else if IsSpace(s[i]) then SkipTrivia(s, i + 1)
    else if LineCommentAt(s, i) then SkipTrivia(s, LineEnd(s, i + 2))
    else if BlockCommentAt(s, i) then SkipTrivia(s, BlockEnd(s, i + 2))
    else i
  }

  method SkipSqlTrivia(s: string, start: nat) returns (cursor: nat)
    requires start <= |s|
    ensures cursor == SkipTrivia(s, start)
  {
    cursor := start;
    while cursor < |s|
      invariant start <= cursor <= |s| && SkipTrivia(s, start) == SkipTrivia(s, cursor)
      decreases |s| - cursor
    {
      if IsSpace(s[cursor]) {
        cursor := cursor + 1;
      } else if LineCommentAt(s, cursor) || BlockCommentAt(s, cursor) {
        cursor := ScanComment(s, cursor);
      } else {
        break;
      }
    }
  }

  predicate TriviaChar(s: string, p: nat)
    requires p < |s|
  {
    Class(s, p) == Comment || (Class(s, p) == Code && IsSpace(s[p]))
  }

  ghost predicate TriviaSpan(s: string, from: nat, to: nat) {
    to <= |s| && forall p :: from <= p < to ==> TriviaChar(s, p)
  }

  lemma TriviaToken(s: string, i: nat)
    requires i < |s| && Boundary(s, i) && (IsSpace(s[i]) || LineCommentAt(s, i) || BlockCommentAt(s, i))
    ensures TokenEnd(s, i) <= |s| && Boundary(s, TokenEnd(s, i)) && TriviaSpan(s, i, TokenEnd(s, i))
  {
    NextIsBoundary(s, i);
    assert TokenKind(s, i) == Comment || TokenEnd(s, i) == i + 1;
    forall p | i <= p < TokenEnd(s, i) ensures TriviaChar(s, p) {
      InsideToken(s, i, p);
    }
  }

  lemma {:induction false} SkipOne(s: string, i: nat)
    requires i < |s|
    ensures SkipTrivia(s, i) ==
            if IsSpace(s[i]) || LineCommentAt(s, i) || BlockCommentAt(s, i)
            then (if TokenEnd(s, i) <= |s| then SkipTrivia(s, TokenEnd(s, i)) else i)
            else i
  {
  }

  /** From a boundary, only blanks of code and whole comments are skipped, and the end is a boundary. */
  lemma {:induction false} SkipsOnlyTrivia(s: string, i: nat)
    requires i <= |s| && Boundary(s, i)
    ensures Boundary(s, SkipTrivia(s, i)) && TriviaSpan(s, i, SkipTrivia(s, i))
    decreases |s| - i
  {
    if i < |s| {
      SkipOne(s, i);
      if IsSpace(s[i]) || LineCommentAt(s, i) || BlockCommentAt(s, i) {
        TriviaToken(s, i);
        SkipsOnlyTrivia(s, TokenEnd(s, i));
      }
    }
  }

  // -- One part of the reference ----------------------------------------------------------------------

  predicate StartsIdent(c: char) {
    IsWord(c) && !('0' <= c <= '9')
  }

  function WordEnd(s: string, i: nat): (r: nat)
    requires i <= |s|
    ensures i <= r <= |s| && (r < |s| ==> !IsWord(s[r])) && forall p :: i <= p < r ==> IsWord(s[p])
    decreases |s| - i
  {
    if i < |s| && IsWord(s[i]) then WordEnd(s, i + 1) else i
  }

  function FindTick(s: string, i: nat): (r: Option<nat>)
    requires i <= |s|
    ensures r.Some? ==> i <= r.value < |s| && s[r.value] == '`' && QuoteEnd(s, i, '`') == r.value + 1
    decreases |s| - i
  {
    if i == |s| then None else if s[i] == '`' then Some(i) else FindTick(s, i + 1)
  }

  datatype Part = Part(text: string, end: nat)

  /** A quoted or plain identifier. */
  function PartAt(s: string, i: nat): (r: Option<Part>)
    requires i < |s|
    ensures r.Some? ==> i < r.value.end <= |s|
  {
    if s[i] == '`' then
      var close := FindTick(s, i + 1);
      if close.None? then None else Some(Part(s[i + 1..close.value], close.value + 1))
    else if StartsIdent(s[i]) then Some(Part(s[i..WordEnd(s, i)], WordEnd(s, i)))
    else None
  }

  /** A part is one quoted identifier, or plain code; it ends at a boundary. */
  lemma PartIsIdentifier(s: string, i: nat)
    requires i < |s| && Boundary(s, i) && PartAt(s, i).Some?
    ensures var e := PartAt(s, i).value.end;
            Boundary(s, e) && forall p :: i <= p < e ==> Class(s, p) == Ident || (Class(s, p) == Code && IsWord(s[p]))
  {
    var e := PartAt(s, i).value.end;
    if s[i] == '`' {
      assert TokenEnd(s, i) == e;
      NextIsBoundary(s, i);
      forall p | i <= p < e ensures Class(s, p) == Ident { InsideToken(s, i, p); }
    } else {
      PlainStretch(s, i, e);
    }
  }

  // -- The dotted reference --------------------------------------------------------------------------------

  datatype Reading = Reading(parts: seq<string>, end: nat)

  function RefFrom(s: string, cursor: nat, read: Reading): Reading
    requires cursor <= |s|
    decreases |s| - cursor
  {
    if cursor == |s| || PartAt(s, cursor).None? then read
    else
      var part := PartAt(s, cursor).value;
      var next := Reading(read.parts + [part.text], part.end);
      var dot := SkipTrivia(s, part.end);
      if dot < |s| && s[dot] == '.' then RefFrom(s, SkipTrivia(s, dot + 1), next) else next
  }

  datatype Table = Table(parts: seq<string>, start: nat, end: nat)

  function TableAfter(s: string, i: nat): Option<Table>
    requires i <= |s|
  {
    var start := SkipTrivia(s, i);
    var read := RefFrom(s, start, Reading([], start));
    if read.parts == [] then None else Some(Table(read.parts, start, read.end))
  }

  /** One part and the dot after it: what has been read, and where the next part would start. */
  method ReadPart(s: string, cursor: nat, read: Reading) returns (now: Reading, next: nat)
    requires cursor < |s| && PartAt(s, cursor).Some?
    ensures now == Reading(read.parts + [PartAt(s, cursor).value.text], PartAt(s, cursor).value.end)
    ensures cursor < next <= |s| && RefFrom(s, cursor, read) == RefFrom(s, next, now)
  {
    var part := PartAt(s, cursor).value;
    now := Reading(read.parts + [part.text], part.end);
    var separator := SkipSqlTrivia(s, part.end);
    next := |s|;
    if separator < |s| && s[separator] == '.' { next := SkipSqlTrivia(s, separator + 1); }
    OnePartOn(s, cursor, read, part, separator, now, next);
  }

  lemma {:induction false} OnePartOn(s: string, cursor: nat, read: Reading, part: Part, dot: nat, now: Reading,
      next: nat)
    requires cursor < |s| && PartAt(s, cursor) == Some(part) && dot == SkipTrivia(s, part.end)
    requires now == Reading(read.parts + [part.text], part.end)
    requires next == if dot < |s| && s[dot] == '.' then SkipTrivia(s, dot + 1) else |s|
    ensures cursor < next <= |s| && RefFrom(s, cursor, read) == RefFrom(s, next, now)
  {
  }

  method ReadTableRef(s: string, start: nat) returns (r: Option<Table>)
    requires start <= |s|
    ensures r == TableAfter(s, start)
  {
    var cursor := SkipSqlTrivia(s, start);
    if cursor >= |s| { return None; }
    var tableStart, read := cursor, Reading([], cursor);
    ghost var goal := RefFrom(s, cursor, read);
    while cursor < |s| && PartAt(s, cursor).Some?
      invariant cursor <= |s| && goal == RefFrom(s, cursor, read)
      decreases |s| - cursor
    {
      read, cursor := ReadPart(s, cursor, read);
    }
    return if read.parts == [] then None else Some(Table(read.parts, tableStart, read.end));
  }

  /** What a reference may consist of: never a character of a string. */
  predicate RefChar(s: string, p: nat)
    requires p < |s|
  {
    Class(s, p) == Ident || Class(s, p) == Comment
    || (Class(s, p) == Code && (IsWord(s[p]) || IsSpace(s[p]) || s[p] == '.'))
  }

  ghost predicate RefSpan(s: string, from: nat, to: nat) {
    to <= |s| && forall p :: from <= p < to ==> RefChar(s, p)
  }

  lemma TriviaIsRef(s: string, from: nat, to: nat)
    requires TriviaSpan(s, from, to)
    ensures RefSpan(s, from, to)
  {
    forall p | from <= p < to ensures RefChar(s, p) { assert TriviaChar(s, p); }
  }

  lemma Joined(s: string, a: nat, b: nat, c: nat)
    requires RefSpan(s, a, b) && RefSpan(s, b, c) && a <= b <= c
    ensures RefSpan(s, a, c)
  {
  }

  lemma PartIsRef(s: string, cursor: nat)
    requires cursor < |s| && Boundary(s, cursor) && PartAt(s, cursor).Some?
    ensures Boundary(s, PartAt(s, cursor).value.end) && RefSpan(s, cursor, PartAt(s, cursor).value.end)
  {
    PartIsIdentifier(s, cursor);
  }

  /** A dot and the trivia after it. */
  lemma DotIsRef(s: string, dot: nat)
    requires dot < |s| && Boundary(s, dot) && s[dot] == '.'
    ensures Boundary(s, SkipTrivia(s, dot + 1)) && RefSpan(s, dot, SkipTrivia(s, dot + 1))
  {
    NextIsBoundary(s, dot);
    SkipsOnlyTrivia(s, dot + 1);
    TriviaIsRef(s, dot + 1, SkipTrivia(s, dot + 1));
    assert RefChar(s, dot);
  }

  /** Between tokens, with nothing but a reference since `start`. */
  ghost predicate Reached(s: string, start: nat, cursor: nat) {
    start <= cursor <= |s| && Boundary(s, cursor) && RefSpan(s, start, cursor)
  }

  lemma PartReaches(s: string, start: nat, cursor: nat)
    requires cursor < |s| && Reached(s, start, cursor) && PartAt(s, cursor).Some?
    ensures Reached(s, start, PartAt(s, cursor).value.end)
  {
    PartIsRef(s, cursor);
    Joined(s, start, cursor, PartAt(s, cursor).value.end);
  }

  lemma {:induction false} TriviaReaches(s: string, start: nat, cursor: nat)
    requires Reached(s, start, cursor)
    ensures Reached(s, start, SkipTrivia(s, cursor))
  {
    SkipsOnlyTrivia(s, cursor);
    TriviaIsRef(s, cursor, SkipTrivia(s, cursor));
    Joined(s, start, cursor, SkipTrivia(s, cursor));
  }

  lemma DotReaches(s: string, start: nat, dot: nat)
    requires dot < |s| && Reached(s, start, dot) && s[dot] == '.'
    ensures Reached(s, start, SkipTrivia(s, dot + 1))
  {
    DotIsRef(s, dot);
    Joined(s, start, dot, SkipTrivia(s, dot + 1));
  }

  /** What every part and every dot keeps, the end of the reference has. */
  lemma {:induction false} RefKeeps(s: string, holds: nat -> bool, cursor: nat, read: Reading)
    requires cursor <= |s| && holds(cursor) && holds(read.end)
    requires forall c: nat :: c < |s| && holds(c) && PartAt(s, c).Some? ==> holds(PartAt(s, c).value.end)
    requires forall c: nat :: c < |s| && holds(c) && PartAt(s, c).Some? ==>
               var dot := SkipTrivia(s, PartAt(s, c).value.end);
               dot < |s| && s[dot] == '.' ==> holds(SkipTrivia(s, dot + 1))
    ensures holds(RefFrom(s, cursor, read).end)
    decreases |s| - cursor
  {
    if cursor < |s| && PartAt(s, cursor).Some? {
      var part := PartAt(s, cursor).value;
      var dot := SkipTrivia(s, part.end);
      if dot < |s| && s[dot] == '.' {
        RefKeeps(s, holds, SkipTrivia(s, dot + 1), Reading(read.parts + [part.text], part.end));
      }
    }
  }

  /** The end of a hint is a boundary, so reading can start there. */
  lemma HintEndsAtBoundary(s: string, h: Hint)
    requires h in Hints(s)
    ensures h.span.end <= |s| && Boundary(s, h.span.end)
  {
    HintIsGood(s, h);
    var m := h.span;
    if m.start < |s| && Start(s, m.start) == m.start && TokenEnd(s, m.start) == m.end {
      NextIsBoundary(s, m.start);
    } else {
      assert m.start < m.end;
      NextIsBoundary(s, m.end - 1);
    }
  }

  /** The table recorded with a hint lies between token boundaries and touches no string. */
  lemma TableIsOutsideStrings(s: string, h: Hint)
    requires h in Hints(s)
    ensures h.span.end <= |s|
    ensures var t := TableAfter(s, h.span.end);
            t.Some? ==>
              && h.span.end <= t.value.start <= t.value.end <= |s|
              && Boundary(s, t.value.start) && Boundary(s, t.value.end)
              && RefSpan(s, t.value.start, t.value.end)
  {
    HintEndsAtBoundary(s, h);
    if TableAfter(s, h.span.end).Some? { TableFromBoundary(s, h.span.end); }
  }

  lemma TableFromBoundary(s: string, i: nat)
    requires i <= |s| && Boundary(s, i) && TableAfter(s, i).Some?
    ensures var t := TableAfter(s, i).value;
            i <= t.start <= t.end <= |s| && Boundary(s, t.start) && Boundary(s, t.end) && RefSpan(s, t.start, t.end)
  {
    SkipsOnlyTrivia(s, i);
    RefReaches(s, SkipTrivia(s, i));
  }

  lemma {:induction false} NextReaches(s: string, start: nat, c: nat)
    requires c < |s| && Reached(s, start, c) && PartAt(s, c).Some?
    ensures Reached(s, start, PartAt(s, c).value.end)
    ensures var dot := SkipTrivia(s, PartAt(s, c).value.end);
            dot < |s| && s[dot] == '.' ==> Reached(s, start, SkipTrivia(s, dot + 1))
  {
    PartReaches(s, start, c);
    var e := PartAt(s, c).value.end;
    TriviaReaches(s, start, e);
    if SkipTrivia(s, e) < |s| && s[SkipTrivia(s, e)] == '.' { DotReaches(s, start, SkipTrivia(s, e)); }
  }

  lemma {:induction false} RefReaches(s: string, start: nat)
    requires start <= |s| && Boundary(s, start)
    ensures Reached(s, start, RefFrom(s, start, Reading([], start)).end)
  {
    forall c: nat | c < |s| && Reached(s, start, c) && PartAt(s, c).Some?
      ensures Reached(s, start, PartAt(s, c).value.end)
      ensures var dot := SkipTrivia(s, PartAt(s, c).value.end);
              dot < |s| && s[dot] == '.' ==> Reached(s, start, SkipTrivia(s, dot + 1))
    {
      NextReaches(s, start, c);
    }
    RefKeeps(s, (c: nat) => Reached(s, start, c), start, Reading([], start));
  }

  // -- The hint records ------------------------------------------------------------------------------------

  datatype HintRecord = HintRecord(hint: Hint, table: Option<Table>)

  /** A join hint is recorded with the table that follows it, STRAIGHT_JOIN with none. */
  function RecordOf(s: string, h: Hint): HintRecord {
    HintRecord(h, if h.kind == StraightJoin || h.span.end > |s| then None else TableAfter(s, h.span.end))
  }

  method CollectHintRecords(s: string) returns (records: seq<HintRecord>, masks: seq<Span>)
    ensures |records| == |Hints(s)| && masks == Spans(Hints(s))
    ensures forall k :: 0 <= k < |records| ==> records[k] == RecordOf(s, Hints(s)[k])
    ensures forall r <- records ::
              && r.hint.span.end <= |s|
              && r.table == if r.hint.kind == StraightJoin then None else TableAfter(s, r.hint.span.end)
    ensures forall r <- records :: r.table.Some? ==>
              && r.hint.span.end <= r.table.value.start <= r.table.value.end <= |s|
              && RefSpan(s, r.table.value.start, r.table.value.end)
  {
    var hints;
    hints, masks := CollectHintsAndMasks(s);
    records := [];
    for k := 0 to |hints|
      invariant |records| == k
      invariant forall j :: 0 <= j < k ==> records[j] == RecordOf(s, hints[j])
      invariant forall r <- records :: r.hint in hints && r == RecordOf(s, r.hint)
    {
      var h := hints[k];
      assert h in hints;
      HintEndsAtBoundary(s, h);
      var table := None;
      if h.kind != StraightJoin { table := ReadTableRef(s, h.span.end); }
      records := records + [HintRecord(h, table)];
    }
    forall r | r in records
      ensures r.hint.span.end <= |s| && RecordOf(s, r.hint) == r
    {
      HintEndsAtBoundary(s, r.hint);
    }
    forall r | r in records && r.table.Some?
      ensures r.hint.span.end <= r.table.value.start <= r.table.value.end <= |s|
      ensures RefSpan(s, r.table.value.start, r.table.value.end)
    {
      TableIsOutsideStrings(s, r.hint);
    }
  }
}
