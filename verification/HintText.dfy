/**
 What a hint and the table after it look like in the text: the exact words, marks and blanks that make a hint, and the
 dotted parts of the reference that follows a join hint.
 */
module HintText {
  import opened Basics
  import opened SqlRegions
  import opened HintMasks
  import opened HintSearch
  import opened TableRef

  // -- Words ------------------------------------------------------------------------------------------------

  /** The same letter in either case, or the same other character; `upper` is not a small letter. */
  predicate Matches(c: char, upper: char) {
    c == upper || ('A' <= upper <= 'Z' && c as int == upper as int + 32)
  }

  predicate Says(s: string, i: nat, word: string) {
    i + |word| <= |s| && forall k :: 0 <= k < |word| ==> Matches(s[i + k], word[k])
  }

  predicate Letter(c: char) {
    'a' <= c <= 'z' || 'A' <= c <= 'Z' || c == '_'
  }

  predicate InWord(c: char) {
    Letter(c) || '0' <= c <= '9'
  }

  lemma SaysIsLettersAt(s: string, i: nat, word: string)
    requires forall c <- word :: 'A' <= c <= 'Z' || c == '_'
    ensures LettersAt(s, i, word) <==> Says(s, i, word)
  {
    if i + |word| <= |s| {
      forall k | 0 <= k < |word| ensures Upper(s[i + k]) == word[k] <==> Matches(s[i + k], word[k]) {
        assert word[k] in word;
      }
    }
  }

  /** A keyword stands where its letters do, with no character of a word on either side within the searched part. */
  lemma KeywordsStandAlone(s: string, i: nat, limit: nat, word: string)
    requires limit <= |s| && forall c <- word :: 'A' <= c <= 'Z' || c == '_'
    ensures WordAt(s, i, limit, word) <==>
            && i + |word| <= limit && Says(s, i, word)
            && (i > 0 ==> !InWord(s[i - 1])) && (i + |word| < limit ==> !InWord(s[i + |word|]))
  {
    SaysIsLettersAt(s, i, word);
  }

  // -- The text of a hint -----------------------------------------------------------------------------------

  function Name(kind: HintKind): string {
    match kind
    case Broadcast => "BROADCAST"
    case Shuffle => "SHUFFLE"
    case StraightJoin => "STRAIGHT_JOIN"
  }

  /** From `i`, blanks, the name of a kind of join hint, and blanks up to `close`. */
  predicate Names(s: string, i: nat, kind: HintKind, close: nat)
    requires i <= |s|
  {
    var w := SkipSpaces(s, i);
    kind != StraightJoin && Says(s, w, Name(kind)) && SkipSpaces(s, w + |Name(kind)|) == close
  }

  /** The marks around the name: brackets, or those of a comment that begins with a plus. */
  predicate Marked(s: string, h: Hint) {
    && h.span.start < h.span.end <= |s|
    && match h.form
       case Keyword => false
       case Bracket => s[h.span.start] == '[' && s[h.span.end - 1] == ']'
       case CommentForm =>
         && h.span.start + 2 <= h.span.end && s[h.span.start] == '/' && s[h.span.start + 1] == '*'
         && s[h.span.end - 2] == '*' && s[h.span.end - 1] == '/'
         && SkipSpaces(s, h.span.start + 2) < |s| && s[SkipSpaces(s, h.span.start + 2)] == '+'
  }

  /** From behind the opening mark to the closing one. */
  function Inside(s: string, h: Hint): (r: (nat, nat))
    requires Marked(s, h)
    ensures r.0 <= |s|
  {
    if h.form == Bracket then (h.span.start + 1, h.span.end - 1)
    else (SkipSpaces(s, h.span.start + 2) + 1, h.span.end - 2)
  }

  /** A join hint: its marks, and between them nothing but the name of its kind and blanks. */
  predicate Spelled(s: string, h: Hint) {
    Marked(s, h) && Names(s, Inside(s, h).0, h.kind, Inside(s, h).1)
  }

  lemma NotBoth(s: string, w: nat)
    requires Says(s, w, "BROADCAST")
    ensures !Says(s, w, "SHUFFLE")
  {
    assert Matches(s[w + 0], "BROADCAST"[0]);
    assert !Matches(s[w + 0], "SHUFFLE"[0]);
  }

  lemma KindIsNamed(s: string, w: nat, kind: HintKind, e: nat)
    requires w <= |s|
    ensures JoinKind(s, w) == Some((kind, e)) <==>
            kind != StraightJoin && Says(s, w, Name(kind)) && e == w + |Name(kind)|
  {
    SaysIsLettersAt(s, w, "BROADCAST");
    SaysIsLettersAt(s, w, "SHUFFLE");
    if Says(s, w, "BROADCAST") { NotBoth(s, w); }
  }

  lemma NamesAreFound(s: string, i: nat, kind: HintKind, close: nat)
    requires i <= |s|
    ensures NameBetweenBlanks(s, i) == Some((kind, close)) <==> Names(s, i, kind, close)
  {
    var w := SkipSpaces(s, i);
    KindIsNamed(s, w, kind, w + |Name(kind)|);
    if JoinKind(s, w).Some? { KindIsNamed(s, w, JoinKind(s, w).value.0, JoinKind(s, w).value.1); }
  }

  lemma ClosedBracketExactly(s: string, c: nat, name: Option<(HintKind, nat)>, h: Hint)
    ensures ClosedBracket(s, c, name) == Some(h) <==>
            && h.form == Bracket && h.span.start == c && 1 <= h.span.end <= |s| && s[h.span.end - 1] == ']'
            && name == Some((h.kind, h.span.end - 1))
  {
  }

  lemma ClosedCommentExactly(s: string, c: nat, name: Option<(HintKind, nat)>, h: Hint)
    ensures ClosedComment(s, c, name) == Some(h) <==>
            && h.form == CommentForm && h.span.start == c && 2 <= h.span.end <= |s|
            && s[h.span.end - 2] == '*' && s[h.span.end - 1] == '/' && name == Some((h.kind, h.span.end - 2))
  {
  }

  /** What has been found lies behind where the search began. */
  lemma EndsBehind(s: string, i: nat, name: Option<(HintKind, nat)>)
    requires i <= |s| && name == NameBetweenBlanks(s, i)
    ensures name.Some? ==> i < name.value.1 <= |s|
  {
  }

  /** The marks of a hint are found around any name. */
  lemma BracketMarks(s: string, c: nat, name: Option<(HintKind, nat)>, h: Hint)
    requires c < |s| && s[c] == '[' && (name.Some? ==> c + 1 < name.value.1 <= |s|)
    ensures ClosedBracket(s, c, name) == Some(h) <==>
            && h.span.start == c && h.form == Bracket && Marked(s, h)
            && Inside(s, h).0 == c + 1 && name == Some((h.kind, Inside(s, h).1))
  {
    ClosedBracketExactly(s, c, name, h);
  }

  lemma CommentMarks(s: string, c: nat, plus: nat, name: Option<(HintKind, nat)>, h: Hint)
    requires c + 2 <= plus < |s| && s[c] == '/' && s[c + 1] == '*' && s[plus] == '+' && SkipSpaces(s, c + 2) == plus
    requires name.Some? ==> plus + 1 < name.value.1 <= |s|
    ensures ClosedComment(s, c, name) == Some(h) <==>
            && h.span.start == c && h.form == CommentForm && Marked(s, h)
            && Inside(s, h).0 == plus + 1 && name == Some((h.kind, Inside(s, h).1))
  {
    ClosedCommentExactly(s, c, name, h);
  }

  lemma NamedInside(s: string, i: nat, h: Hint, name: Option<(HintKind, nat)>)
    requires i <= |s| && name == NameBetweenBlanks(s, i)
    ensures Marked(s, h) && Inside(s, h).0 == i ==> (Spelled(s, h) <==> name == Some((h.kind, Inside(s, h).1)))
  {
    if Marked(s, h) { NamesAreFound(s, i, h.kind, Inside(s, h).1); }
  }

  lemma BracketsAreFound(s: string, c: nat, h: Hint)
    requires c <= |s|
    ensures BracketHint(s, c) == Some(h) <==> h.span.start == c && h.form == Bracket && Spelled(s, h)
  {
    if c < |s| && s[c] == '[' {
      var name := NameBetweenBlanks(s, c + 1);
      EndsBehind(s, c + 1, name);
      BracketMarks(s, c, name, h);
      NamedInside(s, c + 1, h, name);
    }
  }

  lemma {:induction false} CommentBehindPlus(s: string, c: nat, plus: nat, name: Option<(HintKind, nat)>)
    requires BlockCommentAt(s, c) && plus < |s| && s[plus] == '+' && SkipSpaces(s, c + 2) == plus
    requires NameBetweenBlanks(s, plus + 1) == name
    ensures CommentHint(s, c) == ClosedComment(s, c, name)
  {
  }

  lemma NamedComment(s: string, c: nat, plus: nat, h: Hint, name: Option<(HintKind, nat)>, found: Option<Hint>)
    requires c + 2 <= plus < |s| && s[c] == '/' && s[c + 1] == '*' && s[plus] == '+' && SkipSpaces(s, c + 2) == plus
    requires name == NameBetweenBlanks(s, plus + 1) && found == ClosedComment(s, c, name)
    ensures found == Some(h) <==> h.span.start == c && h.form == CommentForm && Spelled(s, h)
  {
    EndsBehind(s, plus + 1, name);
    CommentMarks(s, c, plus, name, h);
    NamedInside(s, plus + 1, h, name);
  }

  lemma CommentsAreFound(s: string, c: nat, h: Hint)
    requires c <= |s|
    ensures CommentHint(s, c) == Some(h) <==> h.span.start == c && h.form == CommentForm && Spelled(s, h)
  {
    if BlockCommentAt(s, c) {
      var plus := SkipSpaces(s, c + 2);
      if plus < |s| && s[plus] == '+' {
        var name := NameBetweenBlanks(s, plus + 1);
        CommentBehindPlus(s, c, plus, name);
        NamedComment(s, c, plus, h, name, ClosedComment(s, c, name));
      }
    }
  }

  /** After JOIN a hint is found exactly when nothing but blanks and its text follow, a bracket hint only in code. */
  lemma {:induction false} HintsAreAsSpelled(s: string, j: nat, spans: seq<Region>, h: Hint)
    requires j <= |s|
    ensures HintAfterJoin(s, j, spans) == Some(h) <==>
            && Spelled(s, h) && h.span.start == SkipSpaces(s, j)
            && (h.form == Bracket ==> exists r <- spans :: r.start <= h.span.start < r.end)
  {
    var c := SkipSpaces(s, j);
    BracketsAreFound(s, c, h);
    CommentsAreFound(s, c, h);
    if BracketHint(s, c).Some? { BracketsAreFound(s, c, BracketHint(s, c).value); }
  }

  // -- The table after it -----------------------------------------------------------------------------------------

  /** One part: the text between two backticks, or a plain identifier as long as it goes. */
  ghost predicate IsPart(s: string, i: nat, part: Part) {
    && i < part.end <= |s|
    && if s[i] == '`'
       then && i + 2 <= part.end && s[part.end - 1] == '`' && part.text == s[i + 1..part.end - 1]
            && (forall k :: i < k < part.end - 1 ==> s[k] != '`')
       else && Letter(s[i]) && part.text == s[i..part.end]
            && (forall p :: i <= p < part.end ==> InWord(s[p])) && (part.end < |s| ==> !InWord(s[part.end]))
  }

  lemma {:induction false} FindTickExactly(s: string, i: nat, e: nat)
    requires i <= |s|
    ensures FindTick(s, i) == Some(e) <==> i <= e < |s| && s[e] == '`' && forall k :: i <= k < e ==> s[k] != '`'
    decreases |s| - i
  {
    if i < |s| && s[i] != '`' { FindTickExactly(s, i + 1, e); }
  }

  lemma PartsAreAsWritten(s: string, i: nat, part: Part)
    requires i < |s|
    ensures PartAt(s, i) == Some(part) <==> IsPart(s, i, part)
  {
    if s[i] == '`' {
      if part.end > 0 { FindTickExactly(s, i + 1, part.end - 1); }
    } else if StartsIdent(s[i]) {
      var e := WordEnd(s, i);
      if IsPart(s, i, part) {
        assert part.end < e ==> IsWord(s[part.end]);
        assert e < part.end ==> InWord(s[e]);
      }
    }
  }

  /** The part behind the dot that follows `e`, blanks and comments aside, if there are such a dot and a part. */
  function NextPart(s: string, e: nat): (r: Option<nat>)
    requires e <= |s|
    ensures r.Some? ==> e < r.value < |s| && PartAt(s, r.value).Some?
  {
    var dot := SkipTrivia(s, e);
    if dot < |s| && s[dot] == '.' then
      var c := SkipTrivia(s, dot + 1);
      if c < |s| && PartAt(s, c).Some? then Some(c) else None
    else None
  }

  /** The parts from `c` on with a dot between one and the next, as far as they go; the last one ends at `end`. */
  predicate Reference(s: string, c: nat, parts: seq<string>, end: nat)
    decreases |parts|
  {
    && parts != [] && c < |s| && PartAt(s, c).Some?
    && var part := PartAt(s, c).value;
       && parts[0] == part.text
       && var next := NextPart(s, part.end);
          if next.Some? then Reference(s, next.value, parts[1..], end) else |parts| == 1 && end == part.end
  }

  lemma {:induction false} RefStep(s: string, c: nat, read: Reading, part: Part)
    requires c < |s| && PartAt(s, c) == Some(part)
    ensures var more, next := Reading(read.parts + [part.text], part.end), NextPart(s, part.end);
            RefFrom(s, c, read) == if next.Some? then RefFrom(s, next.value, more) else more
  {
  }

  /** What has been read before stays in front. */
  predicate ReadsOn(s: string, c: nat, read: Reading, r: Reading) {
    && |read.parts| < |r.parts| && r.parts[..|read.parts|] == read.parts
    && Reference(s, c, r.parts[|read.parts|..], r.end)
  }

  lemma {:induction false} OneMorePart(s: string, c: nat, read: Reading, part: Part, r: Reading)
    requires c < |s| && PartAt(s, c) == Some(part)
    requires var more, next := Reading(read.parts + [part.text], part.end), NextPart(s, part.end);
             if next.Some? then ReadsOn(s, next.value, more, r) else r == more
    ensures ReadsOn(s, c, read, r)
  {
    OneInFront(read.parts, part.text, r.parts);
  }

  lemma OneInFront(front: seq<string>, x: string, whole: seq<string>)
    requires |front| + 1 <= |whole| && whole[..|front| + 1] == front + [x]
    ensures whole[..|front|] == front && whole[|front|] == x
    ensures whole[|front|..][1..] == whole[|front| + 1..] && whole[|front|..][0] == x
  {
    assert whole[..|front| + 1][..|front|] == front && whole[..|front| + 1][|front|] == x;
  }

  lemma {:induction false} RefIsReference(s: string, c: nat, read: Reading)
    requires c < |s| && PartAt(s, c).Some?
    ensures ReadsOn(s, c, read, RefFrom(s, c, read))
    decreases |s| - c
  {
    var part := PartAt(s, c).value;
    var more, next := Reading(read.parts + [part.text], part.end), NextPart(s, part.end);
    var r := RefFrom(s, c, read);
    RefStep(s, c, read, part);
    if next.Some? { RefIsReference(s, next.value, more); }
    OneMorePart(s, c, read, part, r);
  }

  /** The table recorded after a hint begins past blanks and comments and is the reference written there, if any. */
  lemma {:induction false} TablesAreAsWritten(s: string, i: nat)
    requires i <= |s|
    ensures var c := SkipTrivia(s, i);
            TableAfter(s, i).Some? <==> c < |s| && PartAt(s, c).Some?
    ensures var t := TableAfter(s, i);
            t.Some? ==> t.value.start == SkipTrivia(s, i) && Reference(s, t.value.start, t.value.parts, t.value.end)
  {
    var c := SkipTrivia(s, i);
    if c < |s| && PartAt(s, c).Some? {
      RefIsReference(s, c, Reading([], c));
      var r := RefFrom(s, c, Reading([], c));
      assert r.parts[0..] == r.parts;
    }
  }
}
