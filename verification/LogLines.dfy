/**
 What the log reader prints, byte by byte: the lines of the tail and of the follower, put back together with their
 line ends, are the bytes they come from.
 */
module LogLines {
  import opened Basics
  import opened EventTail
  import opened LogStream

  // -- Lines of the follower: newlines, and returns before them ------------------------------------------------

  function Returns(count: nat): Bytes {
    seq(count, _ => 13)
  }

  /** `clean` is `line` without its trailing carriage returns. */
  ghost predicate Trims(line: Bytes, clean: Bytes) {
    && (clean != [] ==> clean[|clean| - 1] != 13)
    && exists count: nat :: line == clean + Returns(count)
  }

  lemma {:induction false} StripReturnsTrims(line: Bytes)
    ensures Trims(line, StripReturns(line))
  {
    if line != [] && line[|line| - 1] == 13 {
      var n := |line| - 1;
      StripReturnsTrims(line[..n]);
      var count: nat :| line[..n] == StripReturns(line[..n]) + Returns(count);
      assert Returns(count) + [13] == Returns(count + 1);
      assert line == StripReturns(line) + Returns(count + 1);
    } else {
      assert line == line + Returns(0);
    }
  }

  /** Each line followed by some carriage returns and a newline. */
  function Written(lines: seq<Bytes>, crs: seq<nat>): Bytes
    requires |lines| == |crs|
  {
    if lines == [] then []
    else
      var n := |lines| - 1;
      Written(lines[..n], crs[..n]) + lines[n] + Returns(crs[n]) + [10]
  }

  predicate CleanLine(line: Bytes) {
    10 !in line && (line != [] ==> line[|line| - 1] != 13)
  }

  /** The bytes are the lines, each with its line end, and then a fragment without a newline. */
  ghost predicate Spell(bytes: Bytes, lines: seq<Bytes>, crs: seq<nat>, rest: Bytes) {
    && |lines| == |crs| && bytes == Written(lines, crs) + rest
    && 10 !in rest && forall k :: 0 <= k < |lines| ==> CleanLine(lines[k])
  }

  ghost predicate Spells(bytes: Bytes, lines: seq<Bytes>, rest: Bytes) {
    exists crs: seq<nat> :: Spell(bytes, lines, crs, rest)
  }

  lemma {:induction false} OneMoreWritten(lines: seq<Bytes>, crs: seq<nat>, line: Bytes, count: nat)
    requires |lines| == |crs|
    ensures Written(lines + [line], crs + [count]) == Written(lines, crs) + line + Returns(count) + [10]
  {
    assert (lines + [line])[..|lines|] == lines && (crs + [count])[..|lines|] == crs;
  }

  lemma Reassociate(bytes: Bytes, written: Bytes, line: Bytes, count: nat)
    requires bytes == written + (line + Returns(count))
    ensures bytes + [10] == written + line + Returns(count) + [10] + []
  {
  }

  lemma {:induction false} SplitSpells(bytes: Bytes) returns (crs: seq<nat>)
    ensures Spell(bytes, StripAll(Split(bytes).0), crs, Split(bytes).1)
  {
    crs := [];
    if bytes != [] {
      var n := |bytes| - 1;
      crs := SplitSpells(bytes[..n]);
      var (lines, rest) := Split(bytes[..n]);
      assert bytes == bytes[..n] + [bytes[n]];
      if bytes[n] == NEWLINE {
        var count := OneMoreSpelled(bytes[..n], lines, crs, rest);
        crs := crs + [count];
      }
    }
  }

  lemma {:induction false} OneMoreSpelled(bytes: Bytes, lines: seq<Bytes>, crs: seq<nat>, rest: Bytes)
    returns (count: nat)
    requires Spell(bytes, StripAll(lines), crs, rest)
    ensures Spell(bytes + [10], StripAll(lines + [rest]), crs + [count], [])
  {
    StripReturnsTrims(rest);
    count :| rest == StripReturns(rest) + Returns(count);
    OneMoreWritten(StripAll(lines), crs, StripReturns(rest), count);
    assert StripAll(lines + [rest]) == StripAll(lines) + [StripReturns(rest)];
    Reassociate(bytes, Written(StripAll(lines), crs), StripReturns(rest), count);
  }

  /** What follows the tail: the lines that the bytes spell, and at a drained end what is left without its returns. */
  ghost predicate Prints(bytes: Bytes, flushed: bool, out: seq<Bytes>) {
    exists lines, rest, last :: PrintsAs(bytes, flushed, out, lines, rest, last)
  }

  ghost predicate PrintsAs(bytes: Bytes, flushed: bool, out: seq<Bytes>, lines: seq<Bytes>, rest: Bytes,
      last: seq<Bytes>)
  {
    && Spells(bytes, lines, rest) && out == lines + last
    && if flushed && rest != [] then |last| == 1 && Trims(rest, last[0]) else last == []
  }

  lemma EmittedPrints(bytes: Bytes, flushed: bool)
    ensures Prints(bytes, flushed, Emitted(bytes, flushed))
  {
    var crs := SplitSpells(bytes);
    var rest := Split(bytes).1;
    StripReturnsTrims(rest);
    var last := if flushed && rest != [] then [StripReturns(rest)] else [];
    assert Emitted(bytes, flushed) == StripAll(Split(bytes).0) + last;
    assert Spell(bytes, StripAll(Split(bytes).0), crs, rest);
    assert PrintsAs(bytes, flushed, Emitted(bytes, flushed), StripAll(Split(bytes).0), rest, last);
  }

  /**
   For an append-only log, what the follower prints is the tail and then exactly the bytes from the snapshot to the
   offset, line by line.
   */
  lemma {:induction false} FollowerPrintsTheLog(snapshot: Bytes, n: nat, turns: nat -> Turn, limit: nat)
    requires AppendedOnly(snapshot, turns)
    ensures var (g, ending, used) := Follow(Start(snapshot, n), turns, 0, limit);
            var content := Content(snapshot, turns, used);
            var tail := LastN(Lines(snapshot), n);
            && snapshot <= content && |snapshot| <= g.offset <= |content|
            && tail <= g.out && Prints(content[|snapshot|..g.offset], ending == Drained, g.out[|tail|..])
  {
    FollowStreams(snapshot, n, turns, limit);
    var (g, ending, used) := Follow(Start(snapshot, n), turns, 0, limit);
    var bytes := Content(snapshot, turns, used)[|snapshot|..g.offset];
    EmittedPrints(bytes, ending == Drained);
    assert g.out[|LastN(Lines(snapshot), n)|..] == Emitted(bytes, ending == Drained);
  }

  // -- What one turn reads ------------------------------------------------------------------------------------------

  /**
   A log that has grown is read to its end, one that has been cut is read from its start, any other is left alone; the
   loop ends on a terminal state with nothing more to read, or when a read leaves a fragment.
   */
  lemma WhatATurnReads(f: Follower, turn: Turn)
    ensures var (g, done) := AfterTurn(f, turn);
            var cut := !turn.statFails && |turn.atStat| < f.offset;
            var from := if cut then 0 else f.offset;
            var grown := !turn.statFails && |turn.atStat| > from;
            && (!grown ==> g == (if cut then f.(offset := 0, pending := []) else f) && done == turn.terminal)
            && (grown && from <= |turn.atRead| ==>
                  && g.offset == |turn.atRead| && (done <==> turn.terminal && g.pending != [])
                  && f.out <= g.out
                  && Spells((if cut then [] else f.pending) + turn.atRead[from..], g.out[|f.out|..], g.pending))
  {
    var cut := !turn.statFails && |turn.atStat| < f.offset;
    var from := if cut then 0 else f.offset;
    if !turn.statFails && |turn.atStat| > from && from <= |turn.atRead| {
      var bytes := (if cut then [] else f.pending) + turn.atRead[from..];
      var crs := SplitSpells(bytes);
      assert AfterTurn(f, turn).0.out[|f.out|..] == StripAll(Split(bytes).0);
    }
  }

  // -- Lines of the tail: every line break of one byte, and the pair of two --------------------------------------

  predicate Breaks(b: Byte) {
    b in {10, 11, 12, 13, 28, 29, 30}
  }

  /** The text is the lines, each followed by a line break; only the last may lack one. */
  predicate Weaves(text: Bytes, lines: seq<Bytes>)
    decreases |lines|
  {
    if lines == [] then text == []
    else
      var line := lines[0];
      && line <= text && (forall b <- line :: !Breaks(b))
      && var rest := text[|line|..];
         if rest == [] then line != [] && |lines| == 1
         else
           Breaks(rest[0]) && Weaves(rest[WidthOf(rest)..], lines[1..])
  }

  /** A return and the newline after it are one break. */
  function WidthOf(rest: Bytes): (w: nat)
    requires rest != []
    ensures w <= |rest|
  {
    if rest[0] == 13 && |rest| > 1 && rest[1] == 10 then 2 else 1
  }

  lemma WeavesOneMore(b: Byte, text: Bytes, lines: seq<Bytes>)
    requires !Breaks(b) && Weaves(text, lines)
    ensures Weaves([b] + text, if lines == [] then [[b]] else [[b] + lines[0]] + lines[1..])
  {
    if lines == [] {
      assert ([b] + text)[|[b]|..] == [];
    } else {
      var line := [b] + lines[0];
      assert ([b] + text)[|line|..] == text[|lines[0]|..];
      assert ([line] + lines[1..])[1..] == lines[1..];
    }
  }

  /** The lines of a text are the one way to cut it at its line breaks. */
  lemma {:induction false} LinesWeave(text: Bytes)
    ensures Weaves(text, Lines(text))
    decreases |text|
  {
    if text != [] {
      if Breaks(text[0]) {
        LinesWeave(text[BreakWidth(text)..]);
        assert text[0..] == text;
        assert ([[]] + Lines(text[BreakWidth(text)..]))[1..] == Lines(text[BreakWidth(text)..]);
      } else {
        LinesWeave(text[1..]);
        WeavesOneMore(text[0], text[1..], Lines(text[1..]));
        assert [text[0]] + text[1..] == text;
      }
    }
  }

  lemma EndsAtBreak(text: Bytes, a: Bytes, b: Bytes)
    requires a <= text && b <= text && forall x <- b :: !Breaks(x)
    requires |a| < |text| ==> Breaks(text[|a|])
    ensures |b| <= |a|
  {
    assert forall k :: 0 <= k < |b| ==> b[k] == text[k] && b[k] in b;
  }

  lemma {:induction false} OneWayToWeave(text: Bytes, lines: seq<Bytes>, others: seq<Bytes>)
    requires Weaves(text, lines) && Weaves(text, others)
    ensures lines == others
    decreases |lines|
  {
    if lines != [] && others != [] {
      var a, b := lines[0], others[0];
      EndsAtBreak(text, a, b);
      EndsAtBreak(text, b, a);
      assert a == text[..|a|] == b;
      var rest := text[|a|..];
      if rest != [] {
        OneWayToWeave(rest[WidthOf(rest)..], lines[1..], others[1..]);
      }
      assert lines == [a] + lines[1..] && others == [b] + others[1..];
    }
  }

  /** The last `n` of some lines: as many as there are, from the end. */
  lemma LastNIsASuffix<T>(xs: seq<T>, n: nat)
    ensures |LastN(xs, n)| == if n < |xs| then n else |xs|
    ensures xs == xs[..|xs| - |LastN(xs, n)|] + LastN(xs, n)
  {
  }

  /** Newlines are counted one by one. */
  lemma {:induction false} NewlinesAreCounted(a: Bytes, b: Bytes)
    ensures Newlines(a + b) == Newlines(a) + Newlines(b)
    ensures |b| == 1 ==> Newlines(b) == if b[0] == 10 then 1 else 0
  {
    if a == [] {
      assert a + b == b;
    } else {
      assert (a + b)[1..] == a[1..] + b;
      NewlinesAreCounted(a[1..], b);
    }
    if |b| == 1 { assert b[1..] == []; }
  }
}
