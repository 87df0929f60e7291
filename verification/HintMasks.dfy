/**
 Masking of Impala hints: which spans are masked, and why scanning the masked copy gives every
 other character the lexical class it had.
 */
module HintMasks {
  import opened SqlRegions

  datatype Span = Span(start: nat, end: nat)

  predicate Covered(masks: seq<Span>, p: nat) {
    exists m <- masks :: m.start <= p < m.end
  }

  predicate WithinText(masks: seq<Span>, n: nat) {
    forall m <- masks :: m.start <= m.end <= n
  }

  function Masked(s: string, masks: seq<Span>): (t: string)
    ensures |t| == |s|
  {
    seq(|s|, p requires 0 <= p < |s| => if Covered(masks, p) then ' ' else s[p])
  }

  lemma CoveredConcat(a: seq<Span>, b: seq<Span>, p: nat)
    ensures Covered(a + b, p) <==> Covered(a, p) || Covered(b, p)
  {
    assert forall m :: m in a + b <==> m in a || m in b;
  }

  method ApplyMasks(s: string, masks: seq<Span>) returns (t: string)
    requires WithinText(masks, |s|)
    ensures t == Masked(s, masks)
  {
    if masks == [] { return s; }
    var chars := new char[|s|](p requires 0 <= p < |s| => s[p]);
    for k := 0 to |masks|
      invariant chars[..] == Masked(s, masks[..k])
    {
      assert masks[k] in masks;
      for i := masks[k].start to masks[k].end
        invariant chars.Length == |s|
        invariant forall p :: 0 <= p < |s| ==>
          chars[p] == if Covered(masks[..k], p) || masks[k].start <= p < i then ' ' else s[p]
      {
        chars[i] := ' ';
      }
      assert masks[..k + 1] == masks[..k] + [masks[k]];
      forall p | 0 <= p < |s| ensures chars[p] == Masked(s, masks[..k + 1])[p] {
        CoveredConcat(masks[..k], [masks[k]], p);
        assert Covered([masks[k]], p) <==> masks[k].start <= p < masks[k].end by { assert masks[k] in [masks[k]]; }
      }
    }
    assert masks[..|masks|] == masks;
    return chars[..];
  }

  // -- Masks that cannot change the classes of other characters ---------------------------------

  /** Only code characters and whole comments are masked. */
  ghost predicate SafeMasks(s: string, masks: seq<Span>) {
    && (forall p :: 0 <= p < |s| && Covered(masks, p) ==> Class(s, p) == Code || Class(s, p) == Comment)
    && (forall p, q :: 0 <= p < |s| && 0 <= q < |s| && Start(s, p) == Start(s, q) ==>
          Covered(masks, p) ==> Covered(masks, q))
  }

  /** `t` is `s` with some characters blanked. */
  predicate Blanked(s: string, t: string) {
    |t| == |s| && forall p :: 0 <= p < |s| ==> t[p] == s[p] || t[p] == ' '
  }

  predicate SameOn(s: string, t: string, from: nat, to: nat) {
    forall p :: from <= p < to && p < |s| && p < |t| ==> t[p] == s[p]
  }

  lemma {:induction false} LineEndSame(s: string, t: string, i: nat)
    requires Blanked(s, t) && i <= |s| && SameOn(s, t, i, LineEnd(s, i))
    ensures LineEnd(t, i) == LineEnd(s, i)
    decreases |s| - i
  {
    if i < |s| && s[i] != '\n' { LineEndSame(s, t, i + 1); }
  }

  lemma {:induction false} BlockEndSame(s: string, t: string, i: nat)
    requires Blanked(s, t) && i <= |s| && SameOn(s, t, i, BlockEnd(s, i))
    ensures BlockEnd(t, i) == BlockEnd(s, i)
    decreases |s| - i
  {
    if i + 1 < |s| && !(s[i] == '*' && s[i + 1] == '/') { BlockEndSame(s, t, i + 1); }
  }

  lemma {:induction false} QuoteEndSame(s: string, t: string, j: nat, quote: char)
    requires Blanked(s, t) && IsQuote(quote) && j <= |s| + 1 && SameOn(s, t, j, QuoteEnd(s, j, quote))
    ensures QuoteEnd(t, j, quote) == QuoteEnd(s, j, quote)
    decreases |s| + 1 - j
  {
    if j < |s| {
      if s[j] == '\\' && quote != '`' {
        QuoteEndSame(s, t, j + 2, quote);
      } else if s[j] == quote {
        if quote != '`' && j + 1 < |s| && s[j + 1] == quote { QuoteEndSame(s, t, j + 2, quote); }
      } else {
        QuoteEndSame(s, t, j + 1, quote);
      }
    }
  }

  /** A token that is left alone is scanned again as the same token. */
  lemma TokenSame(s: string, t: string, i: nat)
    requires Blanked(s, t) && i < |s| && SameOn(s, t, i, TokenEnd(s, i))
    ensures TokenKind(t, i) == TokenKind(s, i) && TokenEnd(t, i) == TokenEnd(s, i)
  {
    if LineCommentAt(s, i) {
      LineEndSame(s, t, i + 2);
    } else if BlockCommentAt(s, i) {
      BlockEndSame(s, t, i + 2);
    } else if IsQuote(s[i]) {
      QuoteEndSame(s, t, i + 1, s[i]);
    }
  }

  /** Scanning a blank stretch gives code characters and arrives at its end. */
  lemma {:induction false} ScanBlank(t: string, i: nat, e: nat, p: nat)
    requires i <= e <= |t| && i <= p < |t| && forall q :: i <= q < e ==> t[q] == ' '
    ensures if p < e then StartFrom(t, i, p) == p && TokenKind(t, p) == Code
            else StartFrom(t, i, p) == StartFrom(t, e, p)
    decreases e - i
  {
    if i < e && p > i { ScanBlank(t, i + 1, e, p); }
  }

  lemma {:induction false} ScanMasked(s: string, masks: seq<Span>, i: nat, p: nat)
    requires SafeMasks(s, masks) && i <= p < |s| && Boundary(s, i)
    ensures var t := Masked(s, masks);
            TokenKind(t, StartFrom(t, i, p)) == if Covered(masks, p) then Code else Class(s, p)
    decreases |s| - i
  {
    var t, e := Masked(s, masks), TokenEnd(s, i);
    NextIsBoundary(s, i);
    forall q | i <= q < e && q < |s| ensures Start(s, q) == i && (Covered(masks, q) <==> Covered(masks, i)) {
      InsideToken(s, i, q);
    }
    if Covered(masks, i) {
      assert Class(s, i) == TokenKind(s, i);
      assert e <= |s|;
      ScanBlank(t, i, e, p);
    } else {
      TokenSame(s, t, i);
    }
    if p >= e { ScanMasked(s, masks, e, p); }
  }

  /**
   Every character that is not masked keeps its class when the masked copy is scanned; the masked ones become
   code.
   */
  lemma MaskingKeepsClasses(s: string, masks: seq<Span>)
    requires SafeMasks(s, masks)
    ensures var t := Masked(s, masks);
            && |t| == |s|
            && forall p :: 0 <= p < |s| ==>
                 if Covered(masks, p) then t[p] == ' ' && Class(t, p) == Code
                 else t[p] == s[p] && Class(t, p) == Class(s, p)
  {
    forall p | 0 <= p < |s|
      ensures Class(Masked(s, masks), p) == if Covered(masks, p) then Code else Class(s, p)
    {
      ScanMasked(s, masks, 0, p);
    }
  }
}
