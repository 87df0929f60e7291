/**
 The last lines of a job's log, read backwards in blocks, and the follower that streams what comes
 after. A log that does not exist yet is an empty one.
 */
module LogStream {
  import opened Basics
  import opened EventTail

  const LOG_TAIL_BLOCK := 8192

  const CARRIAGE_RETURN: Byte := 13

  // -- Lines of text ----------------------------------------------------------------------------------

  /** The one-byte line breaks; a carriage return and the newline after it are one break. */
  predicate IsBreak(b: Byte) {
    b == 10 || b == 11 || b == 12 || b == 13 || b == 28 || b == 29 || b == 30
  }

  function BreakWidth(text: Bytes): (w: nat)
    requires text != []
    ensures 1 <= w <= |text|
  {
    if |text| > 1 && text[0] == CARRIAGE_RETURN && text[1] == NEWLINE then 2 else 1
  }

  /** `splitlines`: no empty last line after a final break. */
  function Lines(text: Bytes): (r: seq<Bytes>)
    ensures r == [] <==> text == []
  {
    if text == [] then []
    else if IsBreak(text[0]) then [[]] + Lines(text[BreakWidth(text)..])
    else
      var rest := Lines(text[1..]);
      if rest == [] then [[text[0]]] else [[text[0]] + rest[0]] + rest[1..]
  }

  function LastN<T>(xs: seq<T>, n: nat): seq<T> {
    if n < |xs| then xs[|xs| - n..] else xs
  }

  function Newlines(data: Bytes): nat {
    if data == [] then 0 else Newlines(data[1..]) + if data[0] == NEWLINE then 1 else 0
  }

  /** Every newline ends a line. */
  lemma {:induction false} EnoughLines(data: Bytes)
    ensures Newlines(data) <= |Lines(data)|
    decreases |data|
  {
    if data != [] {
      EnoughLines(data[1..]);
      if IsBreak(data[0]) && BreakWidth(data) == 2 {
        EnoughLines(data[2..]);
        assert data[1..][1..] == data[2..];
      }
    }
  }

  /** All lines of a suffix but its first are lines of the whole. */
  ghost predicate SameTail(whole: seq<Bytes>, part: seq<Bytes>) {
    1 <= |part| <= |whole| && whole[|whole| - |part| + 1..] == part[1..]
  }

  lemma {:induction false} SuffixLines(a: Bytes, b: Bytes)
    requires b != []
    ensures SameTail(Lines(a + b), Lines(b))
    decreases |a|
  {
    if a == [] {
      assert a + b == b;
    } else if IsBreak(a[0]) && BreakWidth(a + b) == 2 {
      if |a| > 1 {
        assert (a + b)[2..] == a[2..] + b;
        SuffixLines(a[2..], b);
        TailOfMore([], Lines(a[2..] + b), Lines(b));
      } else {
        assert (a + b)[2..] == b[1..] && b[0] == NEWLINE && BreakWidth(b) == 1;
        assert Lines(a + b) == Lines(b);
      }
    } else {
      assert (a + b)[1..] == a[1..] + b;
      SuffixLines(a[1..], b);
      var rest := Lines(a[1..] + b);
      if IsBreak(a[0]) { TailOfMore([], rest, Lines(b)); } else { TailOfChanged([a[0]] + rest[0], rest, Lines(b)); }
    }
  }

  lemma TailOfMore(line: Bytes, whole: seq<Bytes>, part: seq<Bytes>)
    requires SameTail(whole, part)
    ensures SameTail([line] + whole, part)
  {
    assert ([line] + whole)[|whole| + 1 - |part| + 1..] == whole[|whole| - |part| + 1..];
  }

  lemma TailOfChanged(line: Bytes, whole: seq<Bytes>, part: seq<Bytes>)
    requires SameTail(whole, part)
    ensures SameTail([line] + whole[1..], part)
  {
    assert ([line] + whole[1..])[|whole| - |part| + 1..] == whole[|whole| - |part| + 1..];
  }

  lemma {:induction false} LastLinesOfSuffix(a: Bytes, b: Bytes, n: nat)
    requires n >= 1 && (a == [] || Newlines(b) >= n + 1)
    ensures LastN(Lines(a + b), n) == LastN(Lines(b), n)
  {
    if a == [] {
      assert a + b == b;
    } else {
      EnoughLines(b);
      SuffixLines(a, b);
      LastOfSameTail(Lines(a + b), Lines(b), n);
    }
  }

  lemma LastOfSameTail(whole: seq<Bytes>, part: seq<Bytes>, n: nat)
    requires SameTail(whole, part) && n < |part|
    ensures LastN(whole, n) == LastN(part, n)
  {
    assert whole[|whole| - |part| + 1..][|part| - 1 - n..] == whole[|whole| - n..];
    assert part[1..][|part| - 1 - n..] == part[|part| - n..];
  }

  // -- The backward read ------------------------------------------------------------------------------------

  datatype LogError = NegativeLines

  /** The log as each read finds it: it only grows from the snapshot on. */
  ghost predicate Growing(file: nat -> Bytes) {
    forall i: nat :: file(0) <= file(i)
  }

  /** Blocks read one before the other, each at most `LOG_TAIL_BLOCK` long, down from `end`. */
  ghost predicate Backwards(blocks: seq<(nat, nat)>, end: nat) {
    && (blocks != [] ==> blocks[0].1 == end)
    && (forall k :: 0 <= k < |blocks| ==> blocks[k].0 < blocks[k].1 <= blocks[k].0 + LOG_TAIL_BLOCK)
    && (forall j, k :: 0 <= j < k < |blocks| && k == j + 1 ==> blocks[k].1 == blocks[j].0)
  }

  /** No block is read once there are newlines enough after it. */
  ghost predicate NeededAll(snapshot: Bytes, n: nat, blocks: seq<(nat, nat)>) {
    forall k :: 0 <= k < |blocks| ==> blocks[k].1 <= |snapshot| && Newlines(snapshot[blocks[k].1..]) <= n
  }

  ghost function LowEnd(blocks: seq<(nat, nat)>, end: nat): nat {
    if blocks == [] then end else blocks[|blocks| - 1].0
  }

  lemma OneMoreBlock(blocks: seq<(nat, nat)>, end: nat, from: nat, to: nat)
    requires Backwards(blocks, end) && to == LowEnd(blocks, end) && from < to <= from + LOG_TAIL_BLOCK
    ensures Backwards(blocks + [(from, to)], end)
  {
  }

  /** A block of a log that has only grown, put before what was read already. */
  lemma BlockBefore(snapshot: Bytes, content: Bytes, from: nat, to: nat)
    requires snapshot <= content && from <= to <= |snapshot|
    ensures content[from..to] + snapshot[to..] == snapshot[from..]
  {
    assert content[from..to] == snapshot[from..to];
  }

  method ReadLogTailWithOffset(file: nat -> Bytes, n: int)
    returns (r: Result<(seq<Bytes>, nat), LogError>, ghost blocks: seq<(nat, nat)>)
    requires Growing(file)
    ensures r == if n < 0 then Err(NegativeLines) else Ok((LastN(Lines(file(0)), n), |file(0)|))
    ensures Backwards(blocks, |file(0)|)
    ensures n >= 0 ==> NeededAll(file(0), n, blocks)
  {
    blocks := [];
    if n < 0 { return Err(NegativeLines), blocks; }
    var end := |file(0)|;
    assert LastN(Lines(file(0)), 0) == [];
    if n == 0 || end == 0 { return Ok(([], end)), blocks; }
    var data;
    data, blocks := ReadBack(file, n);
    return Ok((LastN(Lines(data), n), end)), blocks;
  }

  ghost predicate ReadSoFar(snapshot: Bytes, pos: nat, data: Bytes, blocks: seq<(nat, nat)>) {
    && pos <= |snapshot| && data == snapshot[pos..]
    && Backwards(blocks, |snapshot|) && pos == LowEnd(blocks, |snapshot|)
  }

  lemma OneMoreRead(snapshot: Bytes, content: Bytes, pos: nat, size: nat, data: Bytes, blocks: seq<(nat, nat)>)
    requires ReadSoFar(snapshot, pos, data, blocks) && snapshot <= content && 0 < size <= pos && size <= LOG_TAIL_BLOCK
    ensures ReadSoFar(snapshot, pos - size, content[pos - size..pos] + data, blocks + [(pos - size, pos)])
  {
    OneMoreBlock(blocks, |snapshot|, pos - size, pos);
    BlockBefore(snapshot, content, pos - size, pos);
  }

  /** Blocks from the end backwards, until they hold enough newlines or the whole file. */
  method ReadBack(file: nat -> Bytes, n: nat) returns (data: Bytes, ghost blocks: seq<(nat, nat)>)
    requires Growing(file) && n >= 1
    ensures LastN(Lines(data), n) == LastN(Lines(file(0)), n)
    ensures Backwards(blocks, |file(0)|) && NeededAll(file(0), n, blocks)
  {
    var pos: nat, turn := |file(0)|, 1;
    ghost var snapshot := file(0);
    data, blocks := [], [];
    while pos > 0 && Newlines(data) < n + 1
      invariant turn >= 1 && ReadSoFar(snapshot, pos, data, blocks) && NeededAll(snapshot, n, blocks)
      decreases pos
    {
      var size := if pos < LOG_TAIL_BLOCK then pos else LOG_TAIL_BLOCK;
      var content := file(turn);
      OneMoreRead(snapshot, content, pos, size, data, blocks);
      blocks := blocks + [(pos - size, pos)];
      data := content[pos - size..pos] + data;
      pos := pos - size;
      turn := turn + 1;
    }
    assert snapshot == snapshot[..pos] + data;
    LastLinesOfSuffix(snapshot[..pos], data, n);
  }

  // -- The follower --------------------------------------------------------------------------------------------

  function StripReturns(line: Bytes): Bytes {
    if line != [] && line[|line| - 1] == CARRIAGE_RETURN then StripReturns(line[..|line| - 1]) else line
  }

  function StripAll(lines: seq<Bytes>): seq<Bytes> {
    seq(|lines|, k requires 0 <= k < |lines| => StripReturns(lines[k]))
  }

  /** Lines put back together: each with its newline, then the fragment. */
  function Joined(lines: seq<Bytes>, rest: Bytes): Bytes {
    if lines == [] then rest else lines[0] + [NEWLINE] + Joined(lines[1..], rest)
  }

  lemma {:induction false} JoinedSnoc(lines: seq<Bytes>, line: Bytes, rest: Bytes)
    ensures Joined(lines + [line], rest) == Joined(lines, line + [NEWLINE] + rest)
  {
    if lines == [] {
      assert [line][1..] == [];
      assert [] + [line] == [line];
    } else {
      assert (lines + [line])[1..] == lines[1..] + [line];
      JoinedSnoc(lines[1..], line, rest);
    }
  }

  lemma {:induction false} JoinedAppend(lines: seq<Bytes>, rest: Bytes, more: Bytes)
    ensures Joined(lines, rest + more) == Joined(lines, rest) + more
  {
    if lines != [] { JoinedAppend(lines[1..], rest, more); }
  }

  /** Splitting at newlines drops nothing and repeats nothing. */
  lemma {:induction false} SplitRestores(bytes: Bytes)
    ensures Joined(Split(bytes).0, Split(bytes).1) == bytes
  {
    if bytes != [] {
      var n := |bytes| - 1;
      SplitRestores(bytes[..n]);
      var (lines, rest) := Split(bytes[..n]);
      JoinedAppend(lines, rest, [bytes[n]]);
      if bytes[n] == NEWLINE {
        JoinedSnoc(lines, rest, []);
        assert rest + [NEWLINE] + [] == rest + [NEWLINE];
      }
    }
  }

  /** One turn of the loop: the stop request, the state read, then the size and the content of the log. */
  datatype Turn = Turn(stop: bool, terminal: bool, statFails: bool, atStat: Bytes, atRead: Bytes)

  /** Nothing is taken from the log between or within turns. */
  ghost predicate AppendedOnly(snapshot: Bytes, turns: nat -> Turn) {
    && snapshot <= turns(0).atStat
    && forall i: nat :: turns(i).atStat <= turns(i).atRead && turns(i).atRead <= turns(i + 1).atStat
  }

  datatype Ending = Stopped | Drained | Streaming

  /** What has been emitted after the tail when the bytes up to the offset are `seen`. */
  function Emitted(seen: Bytes, flushed: bool): seq<Bytes> {
    StripAll(Split(seen).0) + if flushed && Split(seen).1 != [] then [StripReturns(Split(seen).1)] else []
  }

  lemma StripAllConcat(a: seq<Bytes>, b: seq<Bytes>)
    ensures StripAll(a + b) == StripAll(a) + StripAll(b)
  {
  }

  /** The follower between turns. */
  datatype Follower = Follower(offset: nat, pending: Bytes, out: seq<Bytes>)

  function Flush(out: seq<Bytes>, pending: Bytes): seq<Bytes> {
    if pending != [] then out + [StripReturns(pending)] else out
  }

  /** One read: the chunk to the end of the file, its complete lines out, the fragment kept. */
  function ReadChunk(f: Follower, content: Bytes): Follower {
    var chunk := if f.offset <= |content| then content[f.offset..] else [];
    var (parts, rest) := Split(f.pending + chunk);
    Follower(f.offset + |chunk|, rest, f.out + StripAll(parts))
  }

  function StatSize(f: Follower, turn: Turn): nat {
    if turn.statFails then f.offset else |turn.atStat|
  }

  /** A log cut shorter than the offset is read again from its start. */
  function Rewound(f: Follower, turn: Turn): Follower {
    if StatSize(f, turn) < f.offset then f.(offset := 0, pending := []) else f
  }

  /** The size check and the read of one turn, and whether the follower is done. */
  function AfterTurn(f: Follower, turn: Turn): (Follower, bool) {
    var g := Rewound(f, turn);
    if StatSize(f, turn) > g.offset then
      var h := ReadChunk(g, turn.atRead);
      (h, turn.terminal && h.pending != [])
    else (g, turn.terminal)
  }

  /** The loop from turn `used` on, `limit` turns at most. */
  function Follow(f: Follower, turns: nat -> Turn, used: nat, limit: nat): (Follower, Ending, nat)
    decreases limit - used
  {
    if used >= limit then (f, Streaming, used)
    else if turns(used).stop then (f, Stopped, used)
    else
      var (g, done) := AfterTurn(f, turns(used));
      if done then (Follower(g.offset, [], Flush(g.out, g.pending)), Drained, used + 1)
      else Follow(g, turns, used + 1, limit)
  }

  function Start(snapshot: Bytes, n: nat): Follower {
    Follower(|snapshot|, [], LastN(Lines(snapshot), n))
  }

  method FollowLogs(file: nat -> Bytes, n: int, turns: nat -> Turn, limit: nat)
    returns (r: Result<(seq<Bytes>, Ending), LogError>, offset: nat, used: nat)
    requires Growing(file)
    ensures if n < 0 then r.Err?
            else
              && r.Ok?
              && var (f, ending, turn) := Follow(Start(file(0), n), turns, 0, limit);
                 r.value == (f.out, ending) && offset == f.offset && used == turn
    ensures r.Ok? && AppendedOnly(file(0), turns) ==>
              Followed(file(0), n, turns, r.value.0, r.value.1, offset, used)
  {
    var tail, _ := ReadLogTailWithOffset(file, n);
    offset, used := 0, 0;
    if tail.Err? { return Err(tail.error), offset, used; }
    var out, ending;
    out, ending, offset, used := FollowOn(Follower(tail.value.1, [], tail.value.0), turns, limit);
    if AppendedOnly(file(0), turns) { FollowStreams(file(0), n, turns, limit); }
    return Ok((out, ending)), offset, used;
  }

  /** The loop once the tail is out. */
  method FollowOn(start: Follower, turns: nat -> Turn, limit: nat)
    returns (out: seq<Bytes>, ending: Ending, offset: nat, used: nat)
    ensures var (f, end, turn) := Follow(start, turns, 0, limit);
            (out, ending, offset, used) == (f.out, end, f.offset, turn)
  {
    var f := start;
    used := 0;
    while used < limit
      invariant used <= limit && Follow(f, turns, used, limit) == Follow(start, turns, 0, limit)
    {
      var turn := turns(used);
      if turn.stop { return f.out, Stopped, f.offset, used; }
      used := used + 1;
      var done;
      f, done := TakeTurn(f, turn);
      if done { return Flush(f.out, f.pending), Drained, f.offset, used; }
    }
    return f.out, Streaming, f.offset, used;
  }

  method TakeTurn(f: Follower, turn: Turn) returns (g: Follower, done: bool)
    ensures (g, done) == AfterTurn(f, turn)
  {
    g := f;
    var size := if turn.statFails then g.offset else |turn.atStat|;
    if size < g.offset { g := g.(offset := 0, pending := []); }
    var grown := size > g.offset;
    if grown { g := ReadChunk(g, turn.atRead); }
    done := turn.terminal && (!grown || g.pending != []);
  }

  // -- What is emitted for an append-only log --------------------------------------------------------------------

  /** The follower has emitted the complete lines between the snapshot and the offset. */
  ghost predicate Following(snapshot: Bytes, content: Bytes, f: Follower, tail: seq<Bytes>) {
    && snapshot <= content && |snapshot| <= f.offset <= |content|
    && f.pending == Split(content[|snapshot|..f.offset]).1
    && f.out == tail + Emitted(content[|snapshot|..f.offset], false)
  }

  lemma Grown(snapshot: Bytes, was: Bytes, content: Bytes, f: Follower, tail: seq<Bytes>)
    requires Following(snapshot, was, f, tail) && was <= content
    ensures Following(snapshot, content, f, tail)
  {
    assert content[|snapshot|..f.offset] == was[|snapshot|..f.offset];
  }

  /** Reading to the end of the file and emitting the complete lines. */
  lemma ReadOn(snapshot: Bytes, content: Bytes, f: Follower, tail: seq<Bytes>)
    requires Following(snapshot, content, f, tail)
    ensures Following(snapshot, content, ReadChunk(f, content), tail) && ReadChunk(f, content).offset == |content|
  {
    var seen, chunk := content[|snapshot|..f.offset], content[f.offset..];
    EmittedOn(seen, chunk);
    SliceOn(content, |snapshot|, f.offset);
    Regroup(tail, Emitted(seen, false), StripAll(Split(f.pending + chunk).0));
  }

  lemma SliceOn(content: Bytes, from: nat, to: nat)
    requires from <= to <= |content|
    ensures content[from..to] + content[to..] == content[from..|content|]
  {
  }

  lemma Regroup(a: seq<Bytes>, b: seq<Bytes>, c: seq<Bytes>)
    ensures a + (b + c) == a + b + c
  {
  }

  /** The lines of a chunk come after those already emitted. */
  lemma {:induction false} EmittedOn(seen: Bytes, chunk: Bytes)
    ensures Split(seen + chunk).1 == Split(Split(seen).1 + chunk).1
    ensures Emitted(seen + chunk, false) == Emitted(seen, false) + StripAll(Split(Split(seen).1 + chunk).0)
  {
    SplitConcat(seen, chunk);
    StripAllConcat(Split(seen).0, Split(Split(seen).1 + chunk).0);
  }

  /** What the log held when turn `used - 1` had read it. */
  function Content(snapshot: Bytes, turns: nat -> Turn, used: nat): Bytes {
    if used == 0 then snapshot else turns(used - 1).atRead
  }

  lemma NextTurn(snapshot: Bytes, turns: nat -> Turn, used: nat)
    requires AppendedOnly(snapshot, turns)
    ensures Content(snapshot, turns, used) <= turns(used).atStat && turns(used).atStat <= turns(used).atRead
  {
    if used > 0 { assert turns(used - 1).atRead <= turns(used - 1 + 1).atStat; }
  }

  lemma TurnKeepsFollowing(snapshot: Bytes, turns: nat -> Turn, used: nat, f: Follower, tail: seq<Bytes>)
    requires AppendedOnly(snapshot, turns) && Following(snapshot, Content(snapshot, turns, used), f, tail)
    ensures Following(snapshot, turns(used).atRead, AfterTurn(f, turns(used)).0, tail)
  {
    NextTurn(snapshot, turns, used);
    Grown(snapshot, Content(snapshot, turns, used), turns(used).atRead, f, tail);
    assert Rewound(f, turns(used)) == f;
    ReadOn(snapshot, turns(used).atRead, f, tail);
  }

  /** What the follower has emitted after `used` turns of an append-only log. */
  ghost predicate Followed(snapshot: Bytes, n: nat, turns: nat -> Turn, out: seq<Bytes>, ending: Ending, offset: nat,
      used: nat) {
    var content := Content(snapshot, turns, used);
    && snapshot <= content && |snapshot| <= offset <= |content|
    && out == LastN(Lines(snapshot), n) + Emitted(content[|snapshot|..offset], ending == Drained)
    && match ending
       case Stopped => turns(used).stop
       case Drained => used > 0 && turns(used - 1).terminal
       case Streaming => true
  }

  lemma {:induction false} FollowingStreams(snapshot: Bytes, n: nat, turns: nat -> Turn, f: Follower, used: nat,
      limit: nat)
    requires AppendedOnly(snapshot, turns)
    requires Following(snapshot, Content(snapshot, turns, used), f, LastN(Lines(snapshot), n))
    ensures var (g, ending, turn) := Follow(f, turns, used, limit);
            Followed(snapshot, n, turns, g.out, ending, g.offset, turn)
    decreases limit - used
  {
    if used < limit && !turns(used).stop {
      TurnKeepsFollowing(snapshot, turns, used, f, LastN(Lines(snapshot), n));
      var (g, done) := AfterTurn(f, turns(used));
      if done {
        FlushEnds(snapshot, turns(used).atRead, g, LastN(Lines(snapshot), n));
      } else {
        FollowingStreams(snapshot, n, turns, g, used + 1, limit);
      }
    }
  }

  lemma FlushEnds(snapshot: Bytes, content: Bytes, g: Follower, tail: seq<Bytes>)
    requires Following(snapshot, content, g, tail)
    ensures Flush(g.out, g.pending) == tail + Emitted(content[|snapshot|..g.offset], true)
  {
  }

  /** The tail of the snapshot and then exactly the lines of the bytes from the snapshot to the offset. */
  lemma {:induction false} FollowStreams(snapshot: Bytes, n: nat, turns: nat -> Turn, limit: nat)
    requires AppendedOnly(snapshot, turns)
    ensures var (g, ending, used) := Follow(Start(snapshot, n), turns, 0, limit);
            Followed(snapshot, n, turns, g.out, ending, g.offset, used)
  {
    FollowingStreams(snapshot, n, turns, Start(snapshot, n), 0, limit);
  }

  // -- What a drained end leaves unread ----------------------------------------------------------------------------

  /** A drained end is a streaming one with one more turn, which is the terminal one. */
  lemma {:induction false} LastTurn(f: Follower, turns: nat -> Turn, used: nat, limit: nat)
    requires Follow(f, turns, used, limit).1 == Drained
    ensures var (g, _, end) := Follow(f, turns, used, limit);
            && used < end <= limit && Follow(f, turns, used, end - 1).1 == Streaming
            && var before := Follow(f, turns, used, end - 1).0;
               AfterTurn(before, turns(end - 1)).1 && g.offset == AfterTurn(before, turns(end - 1)).0.offset
    decreases limit - used
  {
    var (g, done) := AfterTurn(f, turns(used));
    if !done { LastTurn(g, turns, used + 1, limit); }
  }

  /** The offset before the last turn of a drained end. */
  function OffsetBefore(snapshot: Bytes, n: nat, turns: nat -> Turn, used: nat): nat
    requires used > 0
  {
    Follow(Start(snapshot, n), turns, 0, used - 1).0.offset
  }

  /**
   A drained end leaves bytes of the size it should have seen exactly when reading that size failed at the last turn
   and the log was longer than the offset before it.
   */
  lemma {:induction false} DrainedExactly(snapshot: Bytes, n: nat, turns: nat -> Turn, limit: nat)
    requires AppendedOnly(snapshot, turns) && Follow(Start(snapshot, n), turns, 0, limit).1 == Drained
    ensures var (g, _, used) := Follow(Start(snapshot, n), turns, 0, limit);
            && 0 < used <= limit
            && var last := turns(used - 1);
               g.offset < |last.atStat| <==> last.statFails && OffsetBefore(snapshot, n, turns, used) < |last.atStat|
  {
    var (g, _, used) := Follow(Start(snapshot, n), turns, 0, limit);
    LastTurn(Start(snapshot, n), turns, 0, limit);
    var before := Follow(Start(snapshot, n), turns, 0, used - 1).0;
    StreamingFollows(snapshot, n, turns, Start(snapshot, n), 0, used - 1);
    NextTurn(snapshot, turns, used - 1);
    ReadOn(snapshot, turns(used - 1).atRead, before, LastN(Lines(snapshot), n));
  }

  /** While it streams, the follower is where its turns have brought it. */
  lemma {:induction false} StreamingFollows(snapshot: Bytes, n: nat, turns: nat -> Turn, f: Follower, used: nat,
      limit: nat)
    requires AppendedOnly(snapshot, turns) && used <= limit && Follow(f, turns, used, limit).1 == Streaming
    requires Following(snapshot, Content(snapshot, turns, used), f, LastN(Lines(snapshot), n))
    ensures Following(snapshot, turns(limit).atRead, Follow(f, turns, used, limit).0, LastN(Lines(snapshot), n))
    ensures Follow(f, turns, used, limit).0.offset <= |turns(limit).atStat|
    decreases limit - used
  {
    if used < limit {
      TurnKeepsFollowing(snapshot, turns, used, f, LastN(Lines(snapshot), n));
      StreamingFollows(snapshot, n, turns, AfterTurn(f, turns(used)).0, used + 1, limit);
    } else {
      NextTurn(snapshot, turns, used);
      Grown(snapshot, Content(snapshot, turns, used), turns(used).atRead, f, LastN(Lines(snapshot), n));
    }
  }

  /** And it happens: the job is over, its log has a line, and the follower ends without having read it. */
  lemma UndrainedEnd() returns (turns: nat -> Turn)
    ensures AppendedOnly([], turns)
    ensures var (g, ending, used) := Follow(Start([], 0), turns, 0, 1);
            ending == Drained && used == 1 && turns(0).terminal && g.out == [] && g.offset < |turns(0).atStat|
  {
    var line: Bytes := [65, NEWLINE];
    turns := (i: nat) => Turn(false, true, true, line, line);
    assert AfterTurn(Start([], 0), turns(0)) == (Start([], 0), true);
  }
}
