/** The monitor's two readers of an event file: the batch replay and the per-job cursor. */
module MonitorFiles {
  import opened Basics
  import opened Hierarchy
  import opened EventTail

  /** Decoding and parsing one line is the parameter `parse`. */
  function FeedBytes(parse: Bytes -> Line): (Builder, Bytes) -> Builder {
    (b: Builder, line: Bytes) => if Bound(b) then Feed(b, parse(line)) else b
  }

  function ParseAll(lines: seq<Bytes>, parse: Bytes -> Line): seq<Line> {
    seq(|lines|, k requires 0 <= k < |lines| => parse(lines[k]))
  }

  function Batch(bytes: Bytes, parse: Bytes -> Line): Builder {
    ReplayBytes(EMPTY, bytes, FeedBytes(parse))
  }

  /** The batch fold over lines is the hierarchy of the parsed events. */
  lemma {:induction false} FoldIsReplay(lines: seq<Bytes>, parse: Bytes -> Line)
    ensures FeedAll(EMPTY, lines, FeedBytes(parse)) == Replay(ParseAll(lines, parse))
  {
    if lines != [] {
      var n := |lines| - 1;
      FoldIsReplay(lines[..n], parse);
      assert ParseAll(lines, parse)[..n] == ParseAll(lines[..n], parse);
    }
  }

  /** The parts of the cursor after an observation. */
  lemma AdvancedTo(t: Tail<Builder>, o: Observation, reset: bool, start: nat, chunk: Bytes, built: Builder,
      left: Bytes, parse: Bytes -> Line)
    requires o.Found? && reset == Resets(t, o) && start == (if reset then 0 else t.offset)
    requires chunk == Window(o.content, start, Min(Max(o.size - start, 0), EVENT_FILE_MAX_BYTES - start))
    requires (built, left)
             == Consume(if reset then EMPTY else t.builder, if reset then [] else t.pending, chunk, FeedBytes(parse))
    ensures Advanced(t, o, EMPTY, FeedBytes(parse))
            == Tail(Some(o.identity), start + |chunk|, o.size, o.mtime, left, built)
  {
  }

  /** Every observation sequence of an append-only file yields the hierarchy of the events read so far. */
  lemma {:induction false} TailedHierarchyIsReplay(history: seq<Observation>, parse: Bytes -> Line)
    requires AppendOnly(history, EMPTY, FeedBytes(parse))
    ensures var t, seen := TailOf(history, EMPTY, FeedBytes(parse)),
                                              BytesRead(history, EMPTY, FeedBytes(parse));
            t.builder == Replay(ParseAll(Split(seen).0, parse))
  {
    TailIsReplay(history, EMPTY, FeedBytes(parse));
    FoldIsReplay(Split(BytesRead(history, EMPTY, FeedBytes(parse))).0, parse);
  }

  /** After any look at a file that is there and opens, the tailed hierarchy is that of the file's complete lines. */
  lemma {:induction false} TailedHierarchyIsTheFiles(history: seq<Observation>, parse: Bytes -> Line)
    requires Grows(history) && history != []
    requires history[|history| - 1].Found? && history[|history| - 1].opens
    ensures TailOf(history, EMPTY, FeedBytes(parse)).builder
            == Replay(ParseAll(Split(Monitored(history[|history| - 1])).0, parse))
  {
    TailFollowsTheFile(history, EMPTY, FeedBytes(parse));
    FoldIsReplay(Split(Monitored(history[|history| - 1])).0, parse);
  }

  /** Python's `split(b"\n")`: the complete lines, then what follows the last newline. */
  method SplitLines(bytes: Bytes) returns (pieces: seq<Bytes>)
    ensures pieces == Split(bytes).0 + [Split(bytes).1]
  {
    pieces := [];
    var piece: Bytes := [];
    for i := 0 to |bytes|
      invariant (pieces, piece) == Split(bytes[..i])
    {
      assert bytes[..i + 1][..i] == bytes[..i];
      if bytes[i] == NEWLINE {
        pieces, piece := pieces + [piece], [];
      } else {
        piece := piece + [bytes[i]];
      }
    }
    assert bytes[..|bytes|] == bytes;
    pieces := pieces + [piece];
  }

  datatype EventFile = Absent | Unreadable | Readable(raw: Bytes)

  /** No hierarchy for a file that does not exist, an empty one for a file that cannot be read. */
  method ReplayEventFile(file: EventFile, parse: Bytes -> Line) returns (builder: HierarchyBuilder?)
    ensures builder == null <==> file.Absent?
    ensures builder != null ==>
              fresh(builder) && Bound(builder.Value())
              && builder.Value() == Batch(if file.Readable? then file.raw else [], parse)
  {
    if file.Absent? { return null; }
    var raw := if file.Readable? then file.raw else [];
    var pieces := SplitLines(raw);
    var lines := pieces[..|pieces| - 1];
    var replayed := new HierarchyBuilder();
    FeedLines(replayed, lines, parse);
    assert lines == Split(raw).0;
    return replayed;
  }

  method FeedLines(builder: HierarchyBuilder, lines: seq<Bytes>, parse: Bytes -> Line)
    requires Bound(builder.Value())
    modifies builder
    ensures Bound(builder.Value())
    ensures builder.Value() == FeedAll(old(builder.Value()), lines, FeedBytes(parse))
  {
    ghost var start := builder.Value();
    for i := 0 to |lines|
      invariant Bound(builder.Value()) && builder.Value() == FeedAll(start, lines[..i], FeedBytes(parse))
    {
      assert lines[..i + 1][..i] == lines[..i];
      builder.FeedLine(parse(lines[i]));
    }
    assert lines[..|lines|] == lines;
  }

  /** The index of the last newline, or -1. */
  method LastNewline(bytes: Bytes) returns (k: int)
    ensures -1 <= k < |bytes| && (k >= 0 ==> bytes[k] == NEWLINE) && NEWLINE !in bytes[k + 1..]
  {
    k := |bytes| - 1;
    while k >= 0 && bytes[k] != NEWLINE
      invariant -1 <= k < |bytes| && NEWLINE !in bytes[k + 1..]
    {
      assert bytes[k..] == [bytes[k]] + bytes[k + 1..];
      k := k - 1;
    }
  }

  /** rpartition at the last newline, then split what comes before it. */
  method CompleteLines(combined: Bytes) returns (lines: seq<Bytes>, rest: Bytes)
    ensures (lines, rest) == Split(combined)
  {
    var k := LastNewline(combined);
    if k < 0 {
      assert combined[0..] == combined;
      NoNewlineNoLine(combined);
      return [], combined;
    }
    CutAtLastNewline(combined, k);
    lines := SplitLines(combined[..k]);
    rest := combined[k + 1..];
  }

  class TailState {
    const parse: Bytes -> Line
    var identity: Option<(int, int)>
    var offset: nat
    var size: nat
    var mtime: int
    var pending: Bytes
    var builder: HierarchyBuilder

    ghost predicate Valid()
      reads this, builder
    {
      Bound(builder.Value())
    }

    ghost function Value(): Tail<Builder>
      requires Valid()
      reads this, builder
    {
      Tail(identity, offset, size, mtime, pending, builder.Value())
    }

    constructor (parse: Bytes -> Line)
      ensures Valid() && fresh(builder) && this.parse == parse && Value() == Fresh(EMPTY)
    {
      this.parse := parse;
      identity, offset, size, mtime, pending := None, 0, 0, 0, [];
      builder := new HierarchyBuilder();
    }

    method TailEventFile(o: Observation) returns (changed: bool, unavailable: bool)
      requires Valid()
      modifies this, builder
      ensures Valid() && (builder == old(builder) || fresh(builder))
      ensures (Value(), changed, unavailable) == Observe(old(Value()), o, EMPTY, FeedBytes(parse))
    {
      if o.Missing? {
        if identity.Some? { Forget(); }
        return false, true;
      }
      if o.StatFails? { return false, true; }
      if identity == Some(o.identity) && size == o.size && mtime == o.mtime { return false, false; }
      if !o.opens { return false, true; }
      Advance(o);
      return true, false;
    }

    method Forget()
      modifies this`identity, this`offset, this`size, this`mtime, this`pending, this`builder
      ensures Valid() && fresh(builder) && Value() == Fresh<Builder>(EMPTY)
    {
      identity, offset, size, mtime, pending := None, 0, 0, 0, [];
      builder := new HierarchyBuilder();
    }

    method Advance(o: Observation)
      requires Valid() && o.Found? && !Unchanged(Value(), o) && o.opens
      modifies this, builder
      ensures Valid() && (builder == old(builder) || fresh(builder))
      ensures Value() == Advanced(old(Value()), o, EMPTY, FeedBytes(parse))
    {
      ghost var t := Value();
      var reset := identity != Some(o.identity) || o.size < offset || (o.size == size && o.mtime != mtime);
      var start := if reset then 0 else offset;
      var chunk := Window(o.content, start, Min(Max(o.size - start, 0), EVENT_FILE_MAX_BYTES - start));
      ReadChunk(chunk, reset);
      ghost var built, left := builder.Value(), pending;
      AdvancedTo(t, o, reset, start, chunk, built, left, parse);
      identity, offset, size, mtime := Some(o.identity), start + |chunk|, o.size, o.mtime;
      assert Value() == Tail(Some(o.identity), start + |chunk|, o.size, o.mtime, left, built);
    }

    method ReadChunk(chunk: Bytes, reset: bool)
      requires Valid()
      modifies this`pending, this`builder, builder
      ensures Valid() && (builder == old(builder) || fresh(builder))
      ensures (builder.Value(), pending) ==
              Consume(if reset then EMPTY else old(builder.Value()),
                      if reset then [] else old(pending), chunk, FeedBytes(parse))
    {
      if reset {
        builder := new HierarchyBuilder();
        pending := [];
      }
      var complete, left := CompleteLines(pending + chunk);
      FeedLines(builder, complete, parse);
      pending := left;
    }
  }
}
