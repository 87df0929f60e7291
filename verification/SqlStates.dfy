/**
 What begins and what ends the lexical states of the delimiter stripper, in terms of the characters alone. From the
 start of a text these laws fix the state of every character.
 */
module SqlStates {
  import opened Basics
  import opened Semicolon

  /** The state of position `p` when position `i` is read as statement text. */
  function From(s: string, i: nat, p: nat): State
    requires i <= p
  {
    LabelFrom(Scanner(s), i, Sql, p)
  }

  // -- Line comments ------------------------------------------------------------------------------------------

  predicate NoNewline(s: string, from: nat, to: nat) {
    forall k :: from <= k < to && k < |s| ==> s[k] != '\n'
  }

  lemma {:induction false} InLineComment(s: string, j: nat, q: nat, p: nat)
    requires j <= q < |s| && s[q] == '\n' && NoNewline(s, j, q) && j <= p
    ensures LabelFrom(Scanner(s), j, LineComment, p) == if p <= q then LineComment else From(s, q + 1, p)
    decreases q - j
  {
    if j < q && j < p { InLineComment(s, j + 1, q, p); }
  }

  lemma {:induction false} OpenLineComment(s: string, j: nat, p: nat)
    requires NoNewline(s, j, |s|) && j <= p
    ensures LabelFrom(Scanner(s), j, LineComment, p) == LineComment
    decreases p - j
  {
    if j < p { OpenLineComment(s, j + 1, p); }
  }

  predicate Dashes(s: string, i: nat) {
    i + 1 < |s| && s[i] == '-' && s[i + 1] == '-'
  }

  /** Two dashes begin a comment; the first newline after them is its last character. */
  lemma LineCommentEndsAtNewline(s: string, i: nat, q: nat, p: nat)
    requires Dashes(s, i) && i + 2 <= q < |s| && s[q] == '\n' && NoNewline(s, i + 2, q) && i <= p
    ensures From(s, i, p) == if p <= q then LineComment else From(s, q + 1, p)
  {
    if p >= i + 2 { InLineComment(s, i + 2, q, p); }
  }

  lemma LineCommentWithoutNewline(s: string, i: nat, p: nat)
    requires Dashes(s, i) && NoNewline(s, i + 2, |s|) && i <= p
    ensures From(s, i, p) == LineComment
  {
    if p >= i + 2 { OpenLineComment(s, i + 2, p); }
  }

  // -- Block comments -----------------------------------------------------------------------------------------

  predicate Closes(s: string, k: nat) {
    k + 1 < |s| && s[k] == '*' && s[k + 1] == '/'
  }

  predicate Opens(s: string, i: nat) {
    i + 1 < |s| && s[i] == '/' && s[i + 1] == '*'
  }

  predicate NoClose(s: string, from: nat, to: nat) {
    forall k :: from <= k < to ==> !Closes(s, k)
  }

  lemma {:induction false} InBlockComment(s: string, j: nat, q: nat, p: nat)
    requires j <= q && Closes(s, q) && NoClose(s, j, q) && j <= p
    ensures LabelFrom(Scanner(s), j, BlockComment, p) == if p < q + 2 then BlockComment else From(s, q + 2, p)
    decreases q - j
  {
    if j < q {
      assert !Closes(s, j);
      if j < p { InBlockComment(s, j + 1, q, p); }
    }
  }

  lemma {:induction false} OpenBlockComment(s: string, j: nat, p: nat)
    requires NoClose(s, j, |s|) && j <= p
    ensures LabelFrom(Scanner(s), j, BlockComment, p) == BlockComment
    decreases p - j
  {
    assert j < |s| ==> !Closes(s, j);
    if j < p { OpenBlockComment(s, j + 1, p); }
  }

  /** A slash and a star begin a comment; the first star and slash after them are its last characters. */
  lemma BlockCommentEndsAtClose(s: string, i: nat, q: nat, p: nat)
    requires Opens(s, i) && i + 2 <= q && Closes(s, q) && NoClose(s, i + 2, q) && i <= p
    ensures From(s, i, p) == if p < q + 2 then BlockComment else From(s, q + 2, p)
  {
    if p >= i + 2 { InBlockComment(s, i + 2, q, p); }
  }

  lemma BlockCommentWithoutClose(s: string, i: nat, p: nat)
    requires Opens(s, i) && NoClose(s, i + 2, |s|) && i <= p
    ensures From(s, i, p) == BlockComment
  {
    if p >= i + 2 { OpenBlockComment(s, i + 2, p); }
  }

  // -- Quotes ---------------------------------------------------------------------------------------------------

  /**
   The characters from `start` to `end` are quoted text: a backslash with any character, a doubled quote, or one
   character that is neither.
   */
  predicate Quoted(s: string, start: nat, end: nat, quote: char)
    requires start <= end <= |s|
    decreases end - start
  {
    || start == end
    || (start + 2 <= end && s[start] == '\\' && Quoted(s, start + 2, end, quote))
    || (start + 2 <= end && s[start] == s[start + 1] == quote && Quoted(s, start + 2, end, quote))
    || (start < end && s[start] != '\\' && s[start] != quote && Quoted(s, start + 1, end, quote))
  }

  function QuoteState(quote: char): State {
    if quote == '\'' then SingleQuote else DoubleQuote
  }

  lemma {:induction false} InQuotes(s: string, j: nat, q: nat, quote: char, p: nat)
    requires j <= q <= |s| && Quoted(s, j, q, quote) && (quote == '\'' || quote == '"') && j <= p
    requires q < |s| ==> s[q] == quote && (q + 1 < |s| ==> s[q + 1] != quote)
    ensures LabelFrom(Scanner(s), j, QuoteState(quote), p) ==
            if p <= q || q == |s| then QuoteState(quote) else From(s, q + 1, p)
    decreases q - j, p - j
  {
    var m := Scanner(s)(j, QuoteState(quote));
    if j < q {
      if p >= j + m.Width() { InQuotes(s, j + m.Width(), q, quote, p); }
    } else if q == |s| && p > j {
      PastTheEnd(s, j, QuoteState(quote), p);
    }
  }

  lemma {:induction false} PastTheEnd(s: string, j: nat, state: State, p: nat)
    requires |s| <= j <= p
    ensures LabelFrom(Scanner(s), j, state, p) == state
    decreases p - j
  {
    if j < p { PastTheEnd(s, j + 1, state, p); }
  }

  predicate IsQuoteMark(c: char) {
    c == '\'' || c == '"'
  }

  /** A quote mark begins a string; it ends with the first same mark that is neither escaped nor doubled. */
  lemma QuoteEndsAtItsMark(s: string, i: nat, q: nat, p: nat)
    requires i < q < |s| && IsQuoteMark(s[i]) && Quoted(s, i + 1, q, s[i]) && i <= p
    requires s[q] == s[i] && (q + 1 < |s| ==> s[q + 1] != s[i])
    ensures From(s, i, p) == if p <= q then QuoteState(s[i]) else From(s, q + 1, p)
  {
    if p >= i + 1 { InQuotes(s, i + 1, q, s[i], p); }
  }

  /** Without one it runs to the end; a lone backslash there is text. */
  lemma QuoteWithoutItsMark(s: string, i: nat, p: nat)
    requires i < |s| && IsQuoteMark(s[i]) && i <= p
    requires Quoted(s, i + 1, |s|, s[i])
             || (i + 1 < |s| && s[|s| - 1] == '\\' && Quoted(s, i + 1, |s| - 1, s[i]))
    ensures From(s, i, p) == QuoteState(s[i])
  {
    if p >= i + 1 {
      if Quoted(s, i + 1, |s|, s[i]) { InQuotes(s, i + 1, |s|, s[i], p); } else { LoneBackslash(s, i + 1, s[i], p); }
    }
  }

  lemma {:induction false} LoneBackslash(s: string, j: nat, quote: char, p: nat)
    requires j < |s| && IsQuoteMark(quote) && s[|s| - 1] == '\\' && Quoted(s, j, |s| - 1, quote) && j <= p
    ensures LabelFrom(Scanner(s), j, QuoteState(quote), p) == QuoteState(quote)
    decreases |s| - j
  {
    var m := Scanner(s)(j, QuoteState(quote));
    if p >= j + m.Width() {
      if j + 1 < |s| { LoneBackslash(s, j + m.Width(), quote, p); } else { PastTheEnd(s, j + 1, QuoteState(quote), p); }
    }
  }

  // -- Statement text -----------------------------------------------------------------------------------------------

  /** Any other character is statement text, and so is what follows it. */
  lemma TextGoesOn(s: string, i: nat, p: nat)
    requires i < |s| && !Dashes(s, i) && !Opens(s, i) && !IsQuoteMark(s[i]) && i <= p
    ensures From(s, i, p) == if p == i then Sql else From(s, i + 1, p)
  {
  }

  /** A text ends in the state that a position past its end would have. */
  lemma EndIsPastTheEnd(s: string)
    ensures EndState(s) == From(s, 0, |s|) && From(s, |s|, |s|) == Sql
    ensures forall p: nat :: Label(s, p) == From(s, 0, p)
  {
    EndAsLabel(s, 0, Sql, None);
  }

  lemma {:induction false} EndAsLabel(s: string, i: nat, state: State, last: Option<nat>)
    requires i <= |s|
    ensures EndFrom(Scanner(s), |s|, i, state, last).0 == LabelFrom(Scanner(s), i, state, |s|)
    decreases |s| - i
  {
    if i < |s| {
      var m := Scanner(s)(i, state);
      EndAsLabel(s, i + m.Width(), m.state, if m.significant then Some(i + m.Width() - 1) else last);
    }
  }
}
