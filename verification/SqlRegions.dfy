/**
 The advisor's lexical partition of SQL text into code, strings, quoted identifiers and comments,
 and the length-preserving masking of Impala hints.
 */
module SqlRegions {
  datatype Kind = Code | Str | Ident | Comment

  datatype Region = Region(start: nat, end: nat, kind: Kind)

  // -- Tokens: a code character, a whole string or identifier, or a whole comment ---------------

  /** Just after the first newline at or after `i`, or the end of the text. */
  function LineEnd(s: string, i: nat): (e: nat)
    requires i <= |s|
    ensures i <= e <= |s|
    decreases |s| - i
  {
    if i == |s| then i else if s[i] == '\n' then i + 1 else LineEnd(s, i + 1)
  }

  /** Just after the first closing mark at or after `i`, or the end of the text. */
  function BlockEnd(s: string, i: nat): (e: nat)
    requires i <= |s|
    ensures i <= e <= |s|
    decreases |s| - i
  {
    if i + 1 >= |s| then |s| else if s[i] == '*' && s[i + 1] == '/' then i + 2 else BlockEnd(s, i + 1)
  }

  /** Just after the closing quote, honouring escapes; one past the end when the text ends inside an escape. */
  function QuoteEnd(s: string, j: nat, quote: char): (e: nat)
    requires j <= |s| + 1
    ensures j <= e <= |s| + 1
    decreases |s| + 1 - j
  {
    if j >= |s| then j
    else if s[j] == '\\' && quote != '`' then QuoteEnd(s, j + 2, quote)
    else if s[j] == quote then
      if quote != '`' && j + 1 < |s| && s[j + 1] == quote then QuoteEnd(s, j + 2, quote) else j + 1
    else QuoteEnd(s, j + 1, quote)
  }

  predicate LineCommentAt(s: string, i: nat) {
    i + 1 < |s| && s[i] == '-' && s[i + 1] == '-'
  }

  predicate BlockCommentAt(s: string, i: nat) {
    i + 1 < |s| && s[i] == '/' && s[i + 1] == '*'
  }

  predicate IsQuote(c: char) {
    c == '\'' || c == '"' || c == '`'
  }

  function TokenKind(s: string, i: nat): Kind
    requires i < |s|
  {
    if LineCommentAt(s, i) || BlockCommentAt(s, i) then Comment
    else if s[i] == '`' then Ident
    else if IsQuote(s[i]) then Str
    else Code
  }

  function TokenEnd(s: string, i: nat): (e: nat)
    requires i < |s|
    ensures i < e <= |s| + 1
  {
    if LineCommentAt(s, i) then LineEnd(s, i + 2)
    else if BlockCommentAt(s, i) then BlockEnd(s, i + 2)
    else if IsQuote(s[i]) then QuoteEnd(s, i + 1, s[i])
    else i + 1
  }

  /** The start of the token that holds position `p`, scanning from the token start `i`. */
  function StartFrom(s: string, i: nat, p: nat): (r: nat)
    requires i <= p < |s|
    ensures i <= r <= p < TokenEnd(s, r)
    decreases |s| - i
  {
    if p < TokenEnd(s, i) then i else StartFrom(s, TokenEnd(s, i), p)
  }

  function Start(s: string, p: nat): (r: nat)
    requires p < |s|
    ensures r <= p < TokenEnd(s, r)
  {
    StartFrom(s, 0, p)
  }

  /** The lexical class of a character. */
  function Class(s: string, p: nat): Kind
    requires p < |s|
  {
    TokenKind(s, Start(s, p))
  }

  /** A position where the scanner is between tokens. */
  predicate Boundary(s: string, i: nat) {
    i == |s| || i == |s| + 1 || (i < |s| && Start(s, i) == i)
  }

  lemma {:induction false} StartFromStep(s: string, i: nat, p: nat)
    requires i <= p < |s| && StartFrom(s, i, p) == p && TokenEnd(s, p) < |s|
    ensures StartFrom(s, i, TokenEnd(s, p)) == TokenEnd(s, p)
    decreases |s| - i
  {
    if p >= TokenEnd(s, i) {
      StartFromStep(s, TokenEnd(s, i), p);
    }
  }

  lemma NextIsBoundary(s: string, i: nat)
    requires i < |s| && Boundary(s, i)
    ensures Boundary(s, TokenEnd(s, i))
  {
    if TokenEnd(s, i) < |s| { StartFromStep(s, 0, i); }
  }

  lemma {:induction false} StartFromInside(s: string, i: nat, p: nat, q: nat)
    requires i <= p < |s| && StartFrom(s, i, p) == p && p <= q < TokenEnd(s, p) && q < |s|
    ensures StartFrom(s, i, q) == p
    decreases |s| - i
  {
    if p >= TokenEnd(s, i) {
      StartFromInside(s, TokenEnd(s, i), p, q);
    }
  }

  lemma InsideToken(s: string, i: nat, q: nat)
    requires i < |s| && Boundary(s, i) && i <= q < TokenEnd(s, i) && q < |s|
    ensures Start(s, q) == i
  {
    StartFromInside(s, 0, i, q);
  }

  // -- Regions: maximal runs of code, and every other token ------------------------------------

  /** The pending run of code, if there is one. */
  function Flush(codeStart: nat, i: nat): seq<Region> {
    if i > codeStart then [Region(codeStart, i, Code)] else []
  }

  function RegionsFrom(s: string, i: nat, codeStart: nat): seq<Region>
    requires codeStart <= i <= |s| + 1
    decreases |s| + 1 - i
  {
    if i >= |s| then Flush(codeStart, |s|)
    else if TokenKind(s, i) == Code then RegionsFrom(s, i + 1, codeStart)
    else
      Flush(codeStart, i)
      + ([Region(i, TokenEnd(s, i), TokenKind(s, i))] + RegionsFrom(s, TokenEnd(s, i), TokenEnd(s, i)))
  }

  function Regions(s: string): seq<Region> {
    RegionsFrom(s, 0, 0)
  }

  method FindNewline(s: string, from: nat) returns (j: int)
    requires from <= |s|
    ensures LineEnd(s, from) == if j < 0 then |s| else j + 1
  {
    j := from;
    while j < |s| && s[j] != '\n'
      invariant from <= j <= |s| && LineEnd(s, from) == LineEnd(s, j)
    {
      j := j + 1;
    }
    if j == |s| { j := -1; }
  }

  method FindBlockClose(s: string, from: nat) returns (j: int)
    requires from <= |s|
    ensures BlockEnd(s, from) == if j < 0 then |s| else j + 2
  {
    j := from;
    while j + 1 < |s| && !(s[j] == '*' && s[j + 1] == '/')
      invariant from <= j <= |s| && BlockEnd(s, from) == BlockEnd(s, j)
    {
      j := j + 1;
    }
    if j + 1 >= |s| { j := -1; }
  }

  lemma {:induction false} TokenRegions(s: string, i: nat, codeStart: nat, before: seq<Region>)
    requires codeStart <= i < |s| && TokenKind(s, i) != Code
    ensures var e := TokenEnd(s, i);
            before + RegionsFrom(s, i, codeStart) ==
            (if i > codeStart then before + [Region(codeStart, i, Code)] else before)
            + [Region(i, e, TokenKind(s, i))] + RegionsFrom(s, e, e)
  {
    var e := TokenEnd(s, i);
    var token, rest := [Region(i, e, TokenKind(s, i))], RegionsFrom(s, e, e);
    assert RegionsFrom(s, i, codeStart) == Flush(codeStart, i) + (token + rest);
    Regroup(before, Flush(codeStart, i), token, rest);
  }

  lemma Regroup<T>(a: seq<T>, b: seq<T>, c: seq<T>, d: seq<T>)
    ensures a + (b + (c + d)) == a + b + c + d
    ensures b == [] ==> a + b == a
  {
  }

  method IterLexicalRegions(s: string) returns (regions: seq<Region>)
    ensures regions == Regions(s)
  {
    regions := [];
    var i, codeStart := 0, 0;
    while i < |s|
      invariant 0 <= codeStart <= i <= |s| + 1
      invariant regions + RegionsFrom(s, i, codeStart) == Regions(s)
      decreases |s| + 1 - i
    {
      if LineCommentAt(s, i) || BlockCommentAt(s, i) || IsQuote(s[i]) {
        TokenRegions(s, i, codeStart, regions);
        if i > codeStart { regions := regions + [Region(codeStart, i, Code)]; }
        var j, kind := ScanToken(s, i);
        regions := regions + [Region(i, j, kind)];
        i, codeStart := j, j;
      } else {
        i := i + 1;
      }
    }
    if codeStart < |s| { regions := regions + [Region(codeStart, |s|, Code)]; }
  }

  method ScanToken(s: string, i: nat) returns (j: nat, kind: Kind)
    requires i < |s| && (LineCommentAt(s, i) || BlockCommentAt(s, i) || IsQuote(s[i]))
    ensures j == TokenEnd(s, i) && kind == TokenKind(s, i)
  {
    if IsQuote(s[i]) {
      j := ScanQuoted(s, i);
      kind := if s[i] == '`' then Ident else Str;
    } else {
      j := ScanComment(s, i);
      kind := Comment;
    }
  }

  method ScanComment(s: string, i: nat) returns (j: nat)
    requires LineCommentAt(s, i) || BlockCommentAt(s, i)
    ensures j == TokenEnd(s, i)
  {
    var k;
    if LineCommentAt(s, i) {
      k := FindNewline(s, i + 2);
      return if k < 0 then |s| else k + 1;
    }
    k := FindBlockClose(s, i + 2);
    return if k < 0 then |s| else k + 2;
  }

  method ScanQuoted(s: string, i: nat) returns (j: nat)
    requires i < |s| && IsQuote(s[i])
    ensures j == QuoteEnd(s, i + 1, s[i])
  {
    var quote := s[i];
    j := i + 1;
    while j < |s|
      invariant i < j <= |s| + 1 && QuoteEnd(s, i + 1, quote) == QuoteEnd(s, j, quote)
      decreases |s| + 1 - j
    {
      if s[j] == '\\' && quote != '`' {
        j := j + 2;
      } else if s[j] == quote {
        if quote != '`' && j + 1 < |s| && s[j + 1] == quote {
          j := j + 2;
        } else {
          return j + 1;
        }
      } else {
        j := j + 1;
      }
    }
  }

  // -- The partition ----------------------------------------------------------------------------

  /** Non-empty, back to back from `from`, and reaching the end. */
  predicate Tiles(regions: seq<Region>, from: nat, n: nat) {
    && (forall k :: 0 <= k < |regions| ==> regions[k].start < regions[k].end)
    && (forall k :: 0 <= k < |regions| - 1 ==> regions[k].end == regions[k + 1].start)
    && (if regions == [] then from >= n else regions[0].start == from && n <= regions[|regions| - 1].end <= n + 1)
  }

  lemma TileCons(r: Region, rest: seq<Region>, n: nat)
    requires r.start < r.end <= n + 1 && Tiles(rest, r.end, n)
    ensures Tiles([r] + rest, r.start, n)
  {
  }

  lemma TileFlush(codeStart: nat, i: nat, rest: seq<Region>, n: nat)
    requires rest != [] && codeStart <= i <= n && Tiles(rest, i, n)
    ensures Tiles(Flush(codeStart, i) + rest, codeStart, n)
  {
    if i > codeStart {
      TileCons(Region(codeStart, i, Code), rest, n);
    } else {
      assert Flush(codeStart, i) + rest == rest;
    }
  }

  /** The regions cover the text back to back. */
  lemma {:induction false} RegionsTile(s: string, i: nat, codeStart: nat)
    requires codeStart <= i <= |s| + 1
    requires i > |s| ==> codeStart == i
    ensures Tiles(RegionsFrom(s, i, codeStart), codeStart, |s|)
    decreases |s| + 1 - i
  {
    if i < |s| {
      if TokenKind(s, i) == Code {
        RegionsTile(s, i + 1, codeStart);
      } else {
        RegionsTile(s, TokenEnd(s, i), TokenEnd(s, i));
        var token, rest := Region(i, TokenEnd(s, i), TokenKind(s, i)), RegionsFrom(s, TokenEnd(s, i), TokenEnd(s, i));
        TileCons(token, rest, |s|);
        TileFlush(codeStart, i, [token] + rest, |s|);
      }
    }
  }

  /** Every region is labelled with the class of each character it holds. */
  lemma {:induction false} RegionsLabel(s: string, i: nat, codeStart: nat)
    requires codeStart <= i <= |s| + 1 && Boundary(s, i)
    requires forall p :: codeStart <= p < i && p < |s| ==> Class(s, p) == Code && Boundary(s, p)
    ensures forall r <- RegionsFrom(s, i, codeStart) :: forall p :: r.start <= p < r.end && p < |s| ==>
              Class(s, p) == r.kind && (r.kind == Code ==> Boundary(s, p))
    decreases |s| + 1 - i
  {
    if i < |s| {
      NextIsBoundary(s, i);
      var e := TokenEnd(s, i);
      forall p | i <= p < e && p < |s| ensures Class(s, p) == TokenKind(s, i) {
        InsideToken(s, i, p);
      }
      if TokenKind(s, i) == Code {
        RegionsLabel(s, i + 1, codeStart);
      } else {
        RegionsLabel(s, e, e);
      }
    }
  }

  function TrailingBackslashes(s: string): nat {
    if s == [] || s[|s| - 1] != '\\' then 0 else 1 + TrailingBackslashes(s[..|s| - 1])
  }

  lemma {:induction false} RunOfBackslashes(s: string)
    ensures TrailingBackslashes(s) <= |s|
    ensures forall p :: |s| - TrailingBackslashes(s) <= p < |s| ==> s[p] == '\\'
    ensures TrailingBackslashes(s) < |s| ==> s[|s| - 1 - TrailingBackslashes(s)] != '\\'
  {
    if s != [] && s[|s| - 1] == '\\' { RunOfBackslashes(s[..|s| - 1]); }
  }

  lemma {:induction false} QuoteInRun(s: string, j: nat, quote: char)
    requires quote != '`' && j <= |s| && forall p :: j <= p < |s| ==> s[p] == '\\'
    ensures QuoteEnd(s, j, quote) == |s| + (|s| - j) % 2
    decreases |s| - j
  {
    if j + 1 < |s| { QuoteInRun(s, j + 2, quote); }
  }

  /** A string that reaches the end overruns it exactly when the backslashes there are odd in number. */
  lemma {:induction false} QuoteOverrun(s: string, j: nat, quote: char)
    requires quote == '\'' || quote == '"'
    requires j <= |s| - TrailingBackslashes(s)
    ensures var e := QuoteEnd(s, j, quote);
            e <= |s| - TrailingBackslashes(s) || e == |s| + TrailingBackslashes(s) % 2
    decreases |s| - j
  {
    RunOfBackslashes(s);
    var r := |s| - TrailingBackslashes(s);
    if j == r {
      QuoteInRun(s, j, quote);
    } else if s[j] == '\\' || (s[j] == quote && j + 1 < |s| && s[j + 1] == quote) {
      QuoteOverrun(s, j + 2, quote);
    } else if s[j] != quote {
      QuoteOverrun(s, j + 1, quote);
    }
  }

  /** The last region ends at the end of the text, or one past it for a string cut inside an escape. */
  lemma {:induction false} LastRegionEnd(s: string, i: nat, codeStart: nat)
    requires codeStart <= i <= |s| && codeStart < |s|
    ensures var regions := RegionsFrom(s, i, codeStart);
            regions != [] && var last := regions[|regions| - 1];
            last.end == |s| + if last.kind == Str then TrailingBackslashes(s) % 2 else 0
    decreases |s| - i
  {
    if i < |s| {
      var e := TokenEnd(s, i);
      if TokenKind(s, i) == Code {
        LastRegionEnd(s, i + 1, codeStart);
      } else if e < |s| {
        LastRegionEnd(s, e, e);
      } else if TokenKind(s, i) == Str {
        RunOfBackslashes(s);
        QuoteOverrun(s, i + 1, s[i]);
      } else if TokenKind(s, i) == Ident {
        IdentEnd(s, i + 1);
      }
    }
  }

  lemma {:induction false} IdentEnd(s: string, j: nat)
    requires j <= |s|
    ensures QuoteEnd(s, j, '`') <= |s|
    decreases |s| - j
  {
    if j < |s| && s[j] != '`' { IdentEnd(s, j + 1); }
  }

  /** The partition theorem. */
  lemma {:induction false} RegionsPartition(s: string)
    ensures var regions := Regions(s);
            && Tiles(regions, 0, |s|)
            && (s != [] ==> regions != [] && var last := regions[|regions| - 1];
                  last.end == |s| + if last.kind == Str then TrailingBackslashes(s) % 2 else 0)
            && forall r <- regions :: forall p :: r.start <= p < r.end && p < |s| ==> Class(s, p) == r.kind
  {
    RegionsTile(s, 0, 0);
    RegionsLabel(s, 0, 0);
    if s != [] { LastRegionEnd(s, 0, 0); }
  }
}
