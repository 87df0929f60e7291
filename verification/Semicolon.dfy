/**
 Removal of the final statement delimiter from a monthly query, aware of quotes and comments.
 */
module Semicolon {
  import opened Basics

  datatype State = Sql | LineComment | BlockComment | SingleQuote | DoubleQuote

  /**
   One step of the scan: whether it reads two characters, the state after it, whether its last character counts
   as text.
   */
  datatype Move = Move(wide: bool, state: State, significant: bool) {
    function Width(): nat {
      if wide then 2 else 1
    }
  }

  predicate InQuote(state: State) {
    state == SingleQuote || state == DoubleQuote
  }

  predicate InComment(state: State) {
    state == LineComment || state == BlockComment
  }

  function ScanQuotedCharacter(s: string, i: nat, state: State): Move
    requires i < |s|
  {
    var quote := if state == SingleQuote then '\'' else '"';
    if s[i] == '\\' && i + 1 < |s| then Move(true, state, true)
    else if s[i] != quote then Move(false, state, true)
    else if i + 1 < |s| && s[i + 1] == quote then Move(true, state, true)
    else Move(false, Sql, true)
  }

  function ScanSqlCharacter(s: string, i: nat): Move
    requires i < |s|
  {
    if s[i] == '-' && i + 1 < |s| && s[i + 1] == '-' then Move(true, LineComment, false)
    else if s[i] == '/' && i + 1 < |s| && s[i + 1] == '*' then Move(true, BlockComment, false)
    else if s[i] == '\'' then Move(false, SingleQuote, true)
    else if s[i] == '"' then Move(false, DoubleQuote, true)
    else Move(false, Sql, !IsSpace(s[i]))
  }

  function Scan(s: string, i: nat, state: State): (m: Move)
    requires i < |s|
    ensures i + m.Width() <= |s|
  {
    match state
    case LineComment => Move(false, if s[i] == '\n' then Sql else LineComment, false)
    case BlockComment =>
      if s[i] == '*' && i + 1 < |s| && s[i + 1] == '/' then Move(true, Sql, false) else Move(false, BlockComment, false)
    case Sql => ScanSqlCharacter(s, i)
    case _ => ScanQuotedCharacter(s, i, state)
  }

  /** The scanner of a text as a function of position and state. */
  function Scanner(s: string): (nat, State) -> Move {
    (i: nat, state: State) => if i < |s| then Scan(s, i, state) else Move(false, state, false)
  }

  // -- The lexical state of every character ---------------------------------------------------------

  /**
   The state in which `f` reads position `p`: opening marks belong to what they open, closing marks to what they
   close.
   */
  function LabelFrom(f: (nat, State) -> Move, i: nat, state: State, p: nat): State
    requires i <= p
    decreases p - i
  {
    var m := f(i, state);
    if p < i + m.Width() then (if state == Sql then m.state else state)
    else LabelFrom(f, i + m.Width(), m.state, p)
  }

  function Label(s: string, p: nat): State {
    LabelFrom(Scanner(s), 0, Sql, p)
  }

  /** The state at the end `n` and the last significant index. */
  function EndFrom(f: (nat, State) -> Move, n: nat, i: nat, state: State, last: Option<nat>): (State, Option<nat>)
    decreases n - i
  {
    if i >= n then (state, last)
    else
      var m := f(i, state);
      EndFrom(f, n, i + m.Width(), m.state, if m.significant then Some(i + m.Width() - 1) else last)
  }

  function EndState(s: string): State {
    EndFrom(Scanner(s), |s|, 0, Sql, None).0
  }

  function Without(s: string, k: nat): (t: string)
    requires k < |s|
    ensures |t| == |s| - 1
    ensures forall p :: 0 <= p < |t| ==> t[p] == if p < k then s[p] else s[p + 1]
  {
    s[..k] + s[k + 1..]
  }

  function Stripped(s: string): string {
    var last := EndFrom(Scanner(s), |s|, 0, Sql, None).1;
    if last.Some? && last.value < |s| && s[last.value] == ';' then Without(s, last.value) else s
  }

  method StripTerminalSemicolon(s: string) returns (r: string)
    ensures r == Stripped(s)
  {
    var state, index := Sql, 0;
    var last: Option<nat> := None;
    while index < |s|
      invariant index <= |s| && (last.Some? ==> last.value < |s|)
      invariant EndFrom(Scanner(s), |s|, index, state, last) == EndFrom(Scanner(s), |s|, 0, Sql, None)
      decreases |s| - index
    {
      ghost var step := Scanner(s)(index, state);
      if state == LineComment {
        if s[index] == '\n' { state := Sql; }
      } else if state == BlockComment {
        if s[index] == '*' && index + 1 < |s| && s[index + 1] == '/' {
          index := index + 1;
          state := Sql;
        }
      } else {
        var m := if InQuote(state) then ScanQuotedCharacter(s, index, state) else ScanSqlCharacter(s, index);
        index := index + m.Width() - 1;
        state := m.state;
        if m.significant { last := Some(index); }
      }
      index := index + 1;
    }
    if last.Some? && s[last.value] == ';' {
      return s[..last.value] + s[last.value + 1..];
    }
    return s;
  }

  // -- What is removed ---------------------------------------------------------------------------------

  /** A comment character, or whitespace between statements. */
  predicate Trivia(c: char, state: State) {
    InComment(state) || (state == Sql && IsSpace(c))
  }

  ghost predicate OnlyTrivia(s: string, f: (nat, State) -> Move, i: nat, state: State, from: nat) {
    forall p :: from <= p < |s| && i <= p ==> Trivia(s[p], LabelFrom(f, i, state, p))
  }

  /** The position of a statement delimiter with nothing but whitespace and comments after it. */
  ghost predicate TerminalSemicolon(s: string, k: nat) {
    k < |s| && s[k] == ';' && Label(s, k) == Sql && OnlyTrivia(s, Scanner(s), 0, Sql, k + 1)
  }

  /** What a step does with the characters it reads. */
  ghost predicate Honest(s: string, f: (nat, State) -> Move) {
    forall i: nat, state :: i < |s| ==>
      var m := f(i, state);
      && i + m.Width() <= |s|
      && (m.significant ==>
            InQuote(state) || InQuote(m.state) || (state == Sql == m.state && !m.wide && !IsSpace(s[i])))
      && (!m.significant ==> !InQuote(state) && !InQuote(m.state))
      && (!m.significant && state == Sql == m.state ==> !m.wide && IsSpace(s[i]))
      && (InQuote(state) && m.state == Sql ==> !m.wide && (s[i] == '\'' || s[i] == '"'))
      && (InQuote(state) ==> m.state == state || m.state == Sql)
  }

  lemma ScannerIsHonest(s: string)
    ensures Honest(s, Scanner(s))
  {
  }

  /** A significant character outside quotes, or a closing quote, followed by trivia only. */
  ghost predicate LastSignificant(s: string, f: (nat, State) -> Move, i: nat, state: State, k: nat) {
    && i <= k < |s| && !Trivia(s[k], LabelFrom(f, i, state, k))
    && (LabelFrom(f, i, state, k) == Sql || s[k] == '\'' || s[k] == '"')
    && OnlyTrivia(s, f, i, state, k + 1)
  }

  lemma {:induction false} LastIndexOutsideQuotes(s: string, f: (nat, State) -> Move, i: nat, state: State,
      last: Option<nat>)
    requires Honest(s, f) && i <= |s|
    requires !InQuote(EndFrom(f, |s|, i, state, last).0)
    ensures var found := EndFrom(f, |s|, i, state, last).1;
            || (found == last && !InQuote(state) && OnlyTrivia(s, f, i, state, i))
            || (found.Some? && LastSignificant(s, f, i, state, found.value))
    decreases |s| - i
  {
    if i < |s| {
      var m := f(i, state);
      var next, now := i + m.Width(), if m.significant then Some(i + m.Width() - 1) else last;
      LastIndexOutsideQuotes(s, f, next, m.state, now);
      var found := EndFrom(f, |s|, next, m.state, now).1;
      if found.Some? && LastSignificant(s, f, next, m.state, found.value) {
        SignificantEarlier(s, f, i, state, found.value);
      }
    }
  }

  lemma SignificantEarlier(s: string, f: (nat, State) -> Move, i: nat, state: State, k: nat)
    requires i < |s| && LastSignificant(s, f, i + f(i, state).Width(), f(i, state).state, k)
    ensures LastSignificant(s, f, i, state, k)
  {
    var m := f(i, state);
    forall p | k <= p < |s| ensures LabelFrom(f, i, state, p) == LabelFrom(f, i + m.Width(), m.state, p) {
    }
  }

  lemma {:induction false} LastIndexInQuote(s: string, f: (nat, State) -> Move, i: nat, state: State, last: Option<nat>)
    requires Honest(s, f) && i <= |s|
    requires InQuote(EndFrom(f, |s|, i, state, last).0) && (InQuote(state) ==> last.Some? && last.value + 1 == i)
    ensures s != "" && EndFrom(f, |s|, i, state, last).1 == Some(|s| - 1)
    decreases |s| - i
  {
    if i < |s| {
      var m := f(i, state);
      LastIndexInQuote(s, f, i + m.Width(), m.state, if m.significant then Some(i + m.Width() - 1) else last);
    }
  }

  /**
   Exactly the terminal delimiter goes. A text that ends inside a quote is the exception: there the
   last character is taken for the delimiter when it is a semicolon.
   */
  lemma OnlyTheTerminalSemicolonGoes(s: string)
    ensures InQuote(EndState(s)) ==>
              s != "" && Stripped(s) == if s[|s| - 1] == ';' then s[..|s| - 1] else s
    ensures !InQuote(EndState(s)) ==>
              if exists k: nat :: TerminalSemicolon(s, k)
              then exists k: nat :: TerminalSemicolon(s, k) && Stripped(s) == Without(s, k)
              else Stripped(s) == s
  {
    var f := Scanner(s);
    var last := EndFrom(f, |s|, 0, Sql, None).1;
    ScannerIsHonest(s);
    if InQuote(EndState(s)) {
      LastIndexInQuote(s, f, 0, Sql, None);
      assert s[..|s| - 1] + s[|s|..] == s[..|s| - 1];
    } else {
      LastIndexOutsideQuotes(s, f, 0, Sql, None);
      forall k: nat | TerminalSemicolon(s, k) ensures last == Some(k) {
        assert !Trivia(s[k], LabelFrom(f, 0, Sql, k));
      }
      if last.Some? && s[last.value] == ';' { assert TerminalSemicolon(s, last.value); }
    }
  }

  // -- What the removal does to the rest ------------------------------------------------------------------

  /** Past `k`, `g` steps as `f` does one place further on. */
  ghost predicate Shifted(f: (nat, State) -> Move, g: (nat, State) -> Move, k: nat) {
    forall j: nat, state :: j > k ==> g(j - 1, state) == f(j, state)
  }

  /** Well before `k`, `g` steps as `f`. */
  ghost predicate SameBefore(f: (nat, State) -> Move, g: (nat, State) -> Move, k: nat) {
    forall j: nat, state :: j + 1 < k ==> g(j, state) == f(j, state)
  }

  lemma {:induction false} ShiftedLabel(f: (nat, State) -> Move, g: (nat, State) -> Move, k: nat, i: nat,
      state: State, p: nat)
    requires Shifted(f, g, k) && k < i <= p
    ensures LabelFrom(g, i - 1, state, p - 1) == LabelFrom(f, i, state, p)
    decreases p - i
  {
    var m := f(i, state);
    assert g(i - 1, state) == m;
    if p >= i + m.Width() { ShiftedLabel(f, g, k, i + m.Width(), m.state, p); }
  }

  /** `k` is a one-character step in state `Sql`, reached from `i`. */
  ghost predicate Delimits(f: (nat, State) -> Move, i: nat, state: State, k: nat)
    decreases k - i
  {
    if i >= k then i == k && state == Sql && f(k, Sql) == Move(false, Sql, true)
    else var m := f(i, state); Delimits(f, i + m.Width(), m.state, k)
  }

  lemma {:induction false} LabelDelimits(s: string, f: (nat, State) -> Move, i: nat, state: State, k: nat)
    requires Honest(s, f) && i <= k < |s| && s[k] == ';' && LabelFrom(f, i, state, k) == Sql
    ensures Delimits(f, i, state, k)
    decreases k - i
  {
    var m := f(i, state);
    if k >= i + m.Width() { LabelDelimits(s, f, i + m.Width(), m.state, k); }
  }

  /** A one-character step just before `k` that arrives there in state `Sql`. */
  predicate ArrivesAt(f: (nat, State) -> Move, k: nat, state: State)
    requires k > 0
  {
    !f(k - 1, state).wide && f(k - 1, state).state == Sql
  }

  /** The step just before `k` does not notice that the delimiter is gone. */
  ghost predicate UnnoticedBefore(f: (nat, State) -> Move, g: (nat, State) -> Move, k: nat) {
    k > 0 ==> forall state :: ArrivesAt(f, k, state) ==> g(k - 1, state) == f(k - 1, state)
  }

  lemma {:induction false} LabelsKept(f: (nat, State) -> Move, g: (nat, State) -> Move, k: nat, i: nat, state: State,
      p: nat)
    requires Shifted(f, g, k) && SameBefore(f, g, k) && UnnoticedBefore(f, g, k)
    requires i <= k && i <= p && Delimits(f, i, state, k)
    ensures LabelFrom(g, i, state, p) == LabelFrom(f, i, state, if p < k then p else p + 1)
    decreases k - i
  {
    if i == k {
      ShiftedLabel(f, g, k, k + 1, Sql, p + 1);
    } else {
      var m := f(i, state);
      StepKept(f, g, k, i, state);
      if p >= i + m.Width() { LabelsKept(f, g, k, i + m.Width(), m.state, p); }
      SameStep(f, g, i, state, p, if p < k then p else p + 1);
    }
  }

  lemma LabelStep(f: (nat, State) -> Move, i: nat, state: State, p: nat)
    requires i <= p
    ensures LabelFrom(f, i, state, p) ==
            var m := f(i, state);
            if p < i + m.Width() then (if state == Sql then m.state else state)
            else LabelFrom(f, i + m.Width(), m.state, p)
  {
  }

  /** Two labels agree when the step there and the labels after it do. */
  lemma SameStep(f: (nat, State) -> Move, g: (nat, State) -> Move, i: nat, state: State, p: nat, q: nat)
    requires g(i, state) == f(i, state) && i <= p && i <= q
    requires var next := i + f(i, state).Width();
             && (p < next <==> q < next)
             && (p >= next ==> LabelFrom(g, next, f(i, state).state, p) == LabelFrom(f, next, f(i, state).state, q))
    ensures LabelFrom(g, i, state, p) == LabelFrom(f, i, state, q)
  {
    LabelStep(g, i, state, p);
    LabelStep(f, i, state, q);
  }

  lemma StepKept(f: (nat, State) -> Move, g: (nat, State) -> Move, k: nat, i: nat, state: State)
    requires SameBefore(f, g, k) && UnnoticedBefore(f, g, k) && i < k && Delimits(f, i, state, k)
    ensures g(i, state) == f(i, state)
    ensures i + f(i, state).Width() <= k && Delimits(f, i + f(i, state).Width(), f(i, state).state, k)
  {
    if i + 1 == k { assert ArrivesAt(f, k, state); }
  }

  predicate WideInto(f: (nat, State) -> Move, k: nat, state: State) {
    k > 1 && f(k - 2, state).wide && f(k - 2, state).state == Sql
  }

  /** A dash before the delimiter opens a comment together with the first dash of the comment after it. */
  ghost predicate JoinsSteps(f: (nat, State) -> Move, g: (nat, State) -> Move, k: nat) {
    && k > 0
    && (forall state :: state != Sql ==> !ArrivesAt(f, k, state))
    && (forall state :: !WideInto(f, k, state))
    && g(k - 1, Sql) == f(k + 1, Sql) == Move(true, LineComment, false)
    && g(k + 1, LineComment) == Move(false, LineComment, false)
  }

  lemma JoinedTail(f: (nat, State) -> Move, g: (nat, State) -> Move, k: nat, p: nat)
    requires Shifted(f, g, k) && JoinsSteps(f, g, k) && k - 1 <= p && f(k, Sql) == Move(false, Sql, true)
    ensures LabelFrom(g, k - 1, Sql, p) == if p == k - 1 then LineComment else LabelFrom(f, k, Sql, p + 1)
  {
    if p >= k {
      assert LabelFrom(f, k, Sql, p + 1) == LabelFrom(f, k + 1, Sql, p + 1);
      if p >= k + 2 { ShiftedLabel(f, g, k, k + 3, LineComment, p + 1); }
    }
  }

  lemma JoinedStart(f: (nat, State) -> Move, g: (nat, State) -> Move, k: nat, state: State)
    requires JoinsSteps(f, g, k) && Delimits(f, k - 1, state, k)
    ensures state == Sql && f(k - 1, state) == Move(false, Sql, f(k - 1, state).significant)
    ensures f(k, Sql) == Move(false, Sql, true)
  {
    assert Delimits(f, k - 1 + f(k - 1, state).Width(), f(k - 1, state).state, k);
    assert ArrivesAt(f, k, state);
  }

  lemma {:induction false} LabelsJoined(f: (nat, State) -> Move, g: (nat, State) -> Move, k: nat, i: nat,
      state: State, p: nat)
    requires Shifted(f, g, k) && SameBefore(f, g, k) && JoinsSteps(f, g, k)
    requires i < k && i <= p && Delimits(f, i, state, k)
    ensures LabelFrom(g, i, state, p) ==
            if p == k - 1 then LineComment else LabelFrom(f, i, state, if p < k then p else p + 1)
    decreases k - i
  {
    var m := f(i, state);
    if i + 1 == k {
      LastLabelsJoined(f, g, k, state, p);
    } else {
      StepBeforeJoin(f, g, k, i, state);
      if p >= i + m.Width() { LabelsJoined(f, g, k, i + m.Width(), m.state, p); }
      if p == k - 1 {
        LabelStep(g, i, state, p);
      } else {
        SameStep(f, g, i, state, p, if p < k then p else p + 1);
      }
    }
  }

  lemma StepBeforeJoin(f: (nat, State) -> Move, g: (nat, State) -> Move, k: nat, i: nat, state: State)
    requires SameBefore(f, g, k) && JoinsSteps(f, g, k) && i + 1 < k && Delimits(f, i, state, k)
    ensures g(i, state) == f(i, state)
    ensures i + f(i, state).Width() < k && Delimits(f, i + f(i, state).Width(), f(i, state).state, k)
  {
    assert i + 2 == k ==> !WideInto(f, k, state);
  }

  lemma LastLabelsJoined(f: (nat, State) -> Move, g: (nat, State) -> Move, k: nat, state: State, p: nat)
    requires Shifted(f, g, k) && JoinsSteps(f, g, k) && Delimits(f, k - 1, state, k) && k - 1 <= p
    ensures LabelFrom(g, k - 1, state, p) == if p == k - 1 then LineComment else LabelFrom(f, k - 1, state, p + 1)
  {
    JoinedStart(f, g, k, state);
    JoinedTail(f, g, k, p);
  }

  lemma {:induction false} JoinedDash(f: (nat, State) -> Move, g: (nat, State) -> Move, k: nat, i: nat, state: State)
    requires JoinsSteps(f, g, k) && i < k && Delimits(f, i, state, k)
    ensures LabelFrom(f, i, state, k - 1) == Sql
    decreases k - i
  {
    var m := f(i, state);
    if i + 1 == k {
      JoinedStart(f, g, k, state);
    } else {
      assert i + 2 == k ==> !WideInto(f, k, state);
      JoinedDash(f, g, k, i + m.Width(), m.state);
    }
  }

  // -- The two cases for the scanner itself -------------------------------------------------------------

  /** The removal puts two dashes side by side. */
  predicate JoinsDashes(s: string, k: nat)
    requires k < |s|
  {
    0 < k && s[k - 1] == '-' && k + 1 < |s| && s[k + 1] == '-'
  }

  /** What can follow the delimiter: nothing, a blank, or an opening comment mark. */
  predicate CommentOrBlankAfter(s: string, k: nat) {
    k + 1 < |s| ==>
      || IsSpace(s[k + 1])
      || (k + 2 < |s| && s[k + 1] == '-' && s[k + 2] == '-')
      || (k + 2 < |s| && s[k + 1] == '/' && s[k + 2] == '*')
  }

  lemma {:induction false} DelimitedLabel(f: (nat, State) -> Move, i: nat, state: State, k: nat, p: nat)
    requires i <= k < p && Delimits(f, i, state, k)
    ensures LabelFrom(f, i, state, p) == LabelFrom(f, k + 1, Sql, p)
    decreases k - i
  {
    if i < k { DelimitedLabel(f, i + f(i, state).Width(), f(i, state).state, k, p); }
  }

  lemma AfterTheDelimiter(s: string, k: nat)
    requires TerminalSemicolon(s, k)
    ensures CommentOrBlankAfter(s, k)
  {
    if k + 1 < |s| {
      ScannerIsHonest(s);
      LabelDelimits(s, Scanner(s), 0, Sql, k);
      DelimitedLabel(Scanner(s), 0, Sql, k, k + 1);
      assert Trivia(s[k + 1], LabelFrom(Scanner(s), 0, Sql, k + 1));
    }
  }

  lemma ScannersAgree(s: string, k: nat)
    requires k < |s| && s[k] == ';'
    ensures Shifted(Scanner(s), Scanner(Without(s, k)), k)
    ensures SameBefore(Scanner(s), Scanner(Without(s, k)), k)
  {
    ScannersAgreeAfter(s, k);
  }

  lemma ScannersAgreeAfter(s: string, k: nat)
    requires k < |s|
    ensures Shifted(Scanner(s), Scanner(Without(s, k)), k)
  {
  }

  lemma UnnoticedUnlessJoined(s: string, k: nat)
    requires k < |s| && s[k] == ';' && CommentOrBlankAfter(s, k) && !JoinsDashes(s, k)
    ensures UnnoticedBefore(Scanner(s), Scanner(Without(s, k)), k)
  {
  }

  lemma OnlyCodeEndsInDash(s: string, k: nat)
    requires 0 < k < |s| && s[k - 1] == '-'
    ensures forall state :: state != Sql ==> !ArrivesAt(Scanner(s), k, state)
    ensures forall state :: !WideInto(Scanner(s), k, state)
  {
  }

  lemma JoinedSteps(s: string, k: nat)
    requires k < |s| && s[k] == ';' && CommentOrBlankAfter(s, k) && JoinsDashes(s, k)
    ensures JoinsSteps(Scanner(s), Scanner(Without(s, k)), k)
  {
    var t := Without(s, k);
    OnlyCodeEndsInDash(s, k);
    assert t[k - 1] == t[k] == t[k + 1] == '-';
    assert Scanner(t)(k - 1, Sql) == ScanSqlCharacter(t, k - 1);
    assert Scanner(s)(k + 1, Sql) == ScanSqlCharacter(s, k + 1);
    assert Scanner(t)(k + 1, LineComment) == Move(false, LineComment, false);
  }

  /**
   Removing the terminal delimiter leaves the lexical state of every other character alone, unless it
   joins two dashes: then exactly the first dash changes, from code to comment.
   */
  lemma RemovalKeepsStates(s: string, k: nat, p: nat)
    requires TerminalSemicolon(s, k) && p < |s| && p != k
    ensures var kept, was := Label(Without(s, k), if p < k then p else p - 1), Label(s, p);
            if JoinsDashes(s, k) && p == k - 1 then was == Sql && kept == LineComment else kept == was
  {
    var f, g := Scanner(s), Scanner(Without(s, k));
    Delimiter(s, k);
    if JoinsDashes(s, k) {
      JoinedSteps(s, k);
      JoinedDash(f, g, k, 0, Sql);
      LabelsJoined(f, g, k, 0, Sql, if p < k then p else p - 1);
    } else {
      UnnoticedUnlessJoined(s, k);
      LabelsKept(f, g, k, 0, Sql, if p < k then p else p - 1);
    }
  }

  lemma {:induction false} Delimiter(s: string, k: nat)
    requires TerminalSemicolon(s, k)
    ensures CommentOrBlankAfter(s, k) && Delimits(Scanner(s), 0, Sql, k)
    ensures Shifted(Scanner(s), Scanner(Without(s, k)), k)
    ensures SameBefore(Scanner(s), Scanner(Without(s, k)), k)
  {
    ScannerIsHonest(s);
    LabelDelimits(s, Scanner(s), 0, Sql, k);
    AfterTheDelimiter(s, k);
    ScannersAgree(s, k);
  }

  /** A semicolon inside an unterminated string is taken for the delimiter. */
  lemma QuotedSemicolonGoes() returns (s: string)
    ensures InQuote(EndState(s)) && |s| > 0 && s[|s| - 1] == ';' && Stripped(s) == s[..|s| - 1]
  {
    s := "';";
    var f := Scanner(s);
    assert f(0, Sql) == Move(false, SingleQuote, true) && f(1, SingleQuote) == Move(false, SingleQuote, true);
    assert EndFrom(f, 2, 2, SingleQuote, Some(1)) == (SingleQuote, Some(1));
    assert EndFrom(f, 2, 1, SingleQuote, Some(0)) == (SingleQuote, Some(1));
    OnlyTheTerminalSemicolonGoes(s);
  }

  /** A dash on either side of the delimiter: the first one ends up in the comment. */
  lemma DashesCanJoin() returns (s: string)
    ensures TerminalSemicolon(s, 1) && JoinsDashes(s, 1)
    ensures Label(s, 0) == Sql && Label(Stripped(s), 0) == LineComment
  {
    s := "-;--";
    var f := Scanner(s);
    assert f(0, Sql) == Move(false, Sql, true) && f(1, Sql) == Move(false, Sql, true);
    assert f(2, Sql) == Move(true, LineComment, false);
    assert LabelFrom(f, 2, Sql, 2) == LineComment && LabelFrom(f, 2, Sql, 3) == LineComment;
    assert LabelFrom(f, 1, Sql, 1) == Sql;
    assert LabelFrom(f, 1, Sql, 2) == LineComment && LabelFrom(f, 1, Sql, 3) == LineComment;
    assert TerminalSemicolon(s, 1);
    RemovalKeepsStates(s, 1, 0);
    assert EndFrom(f, 4, 4, LineComment, Some(1)) == (LineComment, Some(1));
    assert EndFrom(f, 4, 2, Sql, Some(1)) == (LineComment, Some(1));
    assert EndFrom(f, 4, 1, Sql, Some(0)) == (LineComment, Some(1));
  }
}
