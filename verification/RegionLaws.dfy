/**
 What begins and what ends the advisor's lexical regions, in terms of the characters alone: from a position between
 tokens, these laws give the class of every character up to the next such position.
 */
module RegionLaws {
  import opened SqlRegions
  import opened SqlStates

  /** From `i` on the characters have one class, up to the next position between tokens. */
  ghost predicate Runs(s: string, i: nat, next: nat, kind: Kind) {
    && i < next && Boundary(s, next)
    && forall p :: i <= p < next && p < |s| ==> Class(s, p) == kind
  }

  lemma TokenRuns(s: string, i: nat)
    requires i < |s| && Boundary(s, i)
    ensures Runs(s, i, TokenEnd(s, i), TokenKind(s, i))
  {
    NextIsBoundary(s, i);
    forall p | i <= p < TokenEnd(s, i) && p < |s| ensures Class(s, p) == TokenKind(s, i) { InsideToken(s, i, p); }
  }

  lemma TextBegins(s: string)
    ensures Boundary(s, 0)
  {
  }

  // -- Comments -----------------------------------------------------------------------------------------------

  lemma {:induction false} LineEndsAt(s: string, j: nat, q: nat)
    requires j <= q <= |s| && NoNewline(s, j, q) && (q < |s| ==> s[q] == '\n')
    ensures LineEnd(s, j) == if q < |s| then q + 1 else |s|
    decreases q - j
  {
    if j < q { LineEndsAt(s, j + 1, q); }
  }

  /** Two dashes begin a comment; the first newline after them, or the end of the text, ends it. */
  lemma LineCommentRuns(s: string, i: nat, q: nat)
    requires Boundary(s, i) && Dashes(s, i)
    requires i + 2 <= q <= |s| && NoNewline(s, i + 2, q) && (q < |s| ==> s[q] == '\n')
    ensures Runs(s, i, if q < |s| then q + 1 else |s|, Comment)
  {
    LineEndsAt(s, i + 2, q);
    TokenRuns(s, i);
  }

  lemma {:induction false} BlockEndsAt(s: string, j: nat, q: nat)
    requires j <= q && q <= |s| && NoClose(s, j, q) && (Closes(s, q) || q == |s|)
    ensures BlockEnd(s, j) == if q < |s| then q + 2 else |s|
    decreases q - j
  {
    if j < q {
      assert !Closes(s, j);
      BlockEndsAt(s, j + 1, q);
    }
  }

  /** A slash and a star begin a comment; the first star and slash after them, or the end of the text, end it. */
  lemma BlockCommentRuns(s: string, i: nat, q: nat)
    requires Boundary(s, i) && Opens(s, i)
    requires i + 2 <= q <= |s| && NoClose(s, i + 2, q) && (Closes(s, q) || q == |s|)
    ensures Runs(s, i, if q < |s| then q + 2 else |s|, Comment)
  {
    BlockEndsAt(s, i + 2, q);
    TokenRuns(s, i);
  }

  // -- Strings and identifiers -----------------------------------------------------------------------------------

  lemma {:induction false} QuoteEndsAt(s: string, j: nat, q: nat, quote: char)
    requires j <= q <= |s| && Quoted(s, j, q, quote) && IsQuoteMark(quote)
    requires q < |s| ==> s[q] == quote && (q + 1 < |s| ==> s[q + 1] != quote)
    ensures QuoteEnd(s, j, quote) == if q < |s| then q + 1 else |s|
    decreases q - j
  {
    if j < q { QuoteEndsAt(s, if s[j] == '\\' || s[j] == quote then j + 2 else j + 1, q, quote); }
  }

  /** A single or double quote begins a string; it ends with the first same mark that is neither escaped nor doubled. */
  lemma StringRuns(s: string, i: nat, q: nat)
    requires i < |s| && Boundary(s, i) && IsQuoteMark(s[i])
    requires i < q <= |s| && Quoted(s, i + 1, q, s[i])
    requires q < |s| ==> s[q] == s[i] && (q + 1 < |s| ==> s[q + 1] != s[i])
    ensures Runs(s, i, if q < |s| then q + 1 else |s|, Str)
  {
    QuoteEndsAt(s, i + 1, q, s[i]);
    TokenRuns(s, i);
  }

  lemma {:induction false} CutEscape(s: string, j: nat, quote: char)
    requires j < |s| && IsQuoteMark(quote) && s[|s| - 1] == '\\' && Quoted(s, j, |s| - 1, quote)
    ensures QuoteEnd(s, j, quote) == |s| + 1
    decreases |s| - j
  {
    if j < |s| - 1 { CutEscape(s, if s[j] == '\\' || s[j] == quote then j + 2 else j + 1, quote); }
  }

  /** A text that ends within an escape: its string runs one past the end. */
  lemma CutStringRuns(s: string, i: nat)
    requires i + 1 < |s| && Boundary(s, i) && IsQuoteMark(s[i])
    requires s[|s| - 1] == '\\' && Quoted(s, i + 1, |s| - 1, s[i])
    ensures Runs(s, i, |s| + 1, Str)
  {
    CutEscape(s, i + 1, s[i]);
    TokenRuns(s, i);
  }

  predicate NoTick(s: string, from: nat, to: nat) {
    forall k :: from <= k < to && k < |s| ==> s[k] != '`'
  }

  lemma {:induction false} TickEndsAt(s: string, j: nat, q: nat)
    requires j <= q <= |s| && NoTick(s, j, q) && (q < |s| ==> s[q] == '`')
    ensures QuoteEnd(s, j, '`') == if q < |s| then q + 1 else |s|
    decreases q - j
  {
    if j < q { TickEndsAt(s, j + 1, q); }
  }

  /** A backtick begins an identifier; the next backtick ends it, whatever stands between. */
  lemma IdentifierRuns(s: string, i: nat, q: nat)
    requires i < |s| && Boundary(s, i) && s[i] == '`'
    requires i < q <= |s| && NoTick(s, i + 1, q) && (q < |s| ==> s[q] == '`')
    ensures Runs(s, i, if q < |s| then q + 1 else |s|, Ident)
  {
    TickEndsAt(s, i + 1, q);
    TokenRuns(s, i);
  }

  // -- Code --------------------------------------------------------------------------------------------------------

  /** Any other character is code by itself. */
  lemma CodeRuns(s: string, i: nat)
    requires i < |s| && Boundary(s, i)
    requires !Dashes(s, i) && !Opens(s, i) && !IsQuoteMark(s[i]) && s[i] != '`'
    ensures Runs(s, i, i + 1, Code)
  {
    TokenRuns(s, i);
  }
}
