/**
 The incremental tail of one job's event file, and why it always agrees with a batch replay.
 What a line does to the hierarchy under construction is a fold `feed` from the value `empty`.
 */
module EventTail {
  import opened Basics

  type Byte = bv8
  type Bytes = seq<Byte>

  const NEWLINE: Byte := 10
  const EVENT_FILE_MAX_BYTES := 1024 * 1024

  function Min(a: int, b: int): int {
    if a <= b then a else b
  }

  function Max(a: int, b: int): int {
    if a >= b then a else b
  }

  // -- Lines --------------------------------------------------------------------------------

  /** The newline-terminated lines, and the bytes after the last newline. */
  function Split(bytes: Bytes): (seq<Bytes>, Bytes) {
    if bytes == [] then ([], [])
    else
      var (lines, rest) := Split(bytes[..|bytes| - 1]);
      var last := bytes[|bytes| - 1];
      if last == NEWLINE then (lines + [rest], []) else (lines, rest + [last])
  }

  function FeedAll<B>(b: B, lines: seq<Bytes>, feed: (B, Bytes) -> B): B {
    if lines == [] then b else feed(FeedAll(b, lines[..|lines| - 1], feed), lines[|lines| - 1])
  }

  /** `replay_event_file`: the hierarchy of all complete lines. */
  function ReplayBytes<B>(empty: B, bytes: Bytes, feed: (B, Bytes) -> B): B {
    FeedAll(empty, Split(bytes).0, feed)
  }

  lemma {:induction false} SplitConcat(a: Bytes, b: Bytes)
    ensures var (lines, rest) := Split(a); var (more, last) := Split(rest + b);
            Split(a + b) == (lines + more, last)
  {
    if b == [] {
      assert a + b == a && Split(a).1 + b == Split(a).1;
      RestHasNoNewline(a);
      NoNewlineNoLine(Split(a).1);
      assert Split(a).0 + [] == Split(a).0;
    } else {
      var n := |b| - 1;
      SplitConcat(a, b[..n]);
      assert (a + b)[..|a| + n] == a + b[..n];
      assert (Split(a).1 + b)[..|Split(a).1| + n] == Split(a).1 + b[..n];
      var (lines, rest) := Split(a);
      var (more, last) := Split(rest + b[..n]);
      assert lines + more + [last] == lines + (more + [last]);
    }
  }

  lemma {:induction false} RestHasNoNewline(a: Bytes)
    ensures NEWLINE !in Split(a).1
  {
    if a != [] { RestHasNoNewline(a[..|a| - 1]); }
  }

  lemma {:induction false} NoNewlineNoLine(a: Bytes)
    requires NEWLINE !in a
    ensures Split(a) == ([], a)
  {
    if a != [] {
      assert a == a[..|a| - 1] + [a[|a| - 1]];
      NoNewlineNoLine(a[..|a| - 1]);
    }
  }

  /** Cutting at the last newline gives the lines before it and leaves the rest pending. */
  lemma {:induction false} CutAtLastNewline(a: Bytes, k: nat)
    requires k < |a| && a[k] == NEWLINE && NEWLINE !in a[k + 1..]
    ensures Split(a) == (Split(a[..k]).0 + [Split(a[..k]).1], a[k + 1..])
  {
    assert a == a[..k] + [NEWLINE] + a[k + 1..];
    LineThenRest(a[..k], a[k + 1..]);
  }

  lemma {:induction false} LineThenRest(line: Bytes, rest: Bytes)
    requires NEWLINE !in rest
    ensures Split(line + [NEWLINE] + rest) == (Split(line).0 + [Split(line).1], rest)
  {
    EndOfLine(line);
    NoNewlineNoLine(rest);
    assert Split(line + [NEWLINE]).1 + rest == rest;
    SplitConcat(line + [NEWLINE], rest);
    assert Split(line + [NEWLINE]).0 + [] == Split(line + [NEWLINE]).0;
  }

  lemma {:induction false} EndOfLine(line: Bytes)
    ensures Split(line + [NEWLINE]) == (Split(line).0 + [Split(line).1], [])
  {
    assert (line + [NEWLINE])[..|line|] == line;
  }

  lemma {:induction false} FeedAllConcat<B>(b: B, lines: seq<Bytes>, more: seq<Bytes>, feed: (B, Bytes) -> B)
    ensures FeedAll(FeedAll(b, lines, feed), more, feed) == FeedAll(b, lines + more, feed)
  {
    if more == [] {
      assert lines + more == lines;
    } else {
      var n := |more| - 1;
      FeedAllConcat(b, lines, more[..n], feed);
      assert (lines + more)[..|lines| + n] == lines + more[..n];
    }
  }

  /** What feeding one more chunk does to the hierarchy and to the pending bytes. */
  function Consume<B>(b: B, pending: Bytes, chunk: Bytes, feed: (B, Bytes) -> B): (B, Bytes) {
    var (lines, rest) := Split(pending + chunk);
    (FeedAll(b, lines, feed), rest)
  }

  lemma {:induction false} ConsumeIsReplay<B>(empty: B, seen: Bytes, chunk: Bytes, feed: (B, Bytes) -> B)
    ensures Consume(ReplayBytes(empty, seen, feed), Split(seen).1, chunk, feed)
            == (ReplayBytes(empty, seen + chunk, feed), Split(seen + chunk).1)
  {
    SplitConcat(seen, chunk);
    FeedAllConcat(empty, Split(seen).0, Split(Split(seen).1 + chunk).0, feed);
  }

  // -- One observation of the file -------------------------------------------------------------

  datatype Observation =
    | Missing                     // FileNotFoundError
    | StatFails                   // another OSError
    | Found(identity: (int, int), size: nat, mtime: int, opens: bool, content: Bytes) // content when read

  datatype Tail<B> = Tail(
    identity: Option<(int, int)>, offset: nat, size: nat, mtime: int, pending: Bytes, builder: B)

  function Fresh<B>(empty: B): Tail<B> {
    Tail(None, 0, 0, 0, [], empty)
  }

  predicate Unchanged<B>(t: Tail<B>, o: Observation) {
    o.Found? && t.identity == Some(o.identity) && t.size == o.size && t.mtime == o.mtime
  }

  predicate Resets<B>(t: Tail<B>, o: Observation)
    requires o.Found?
  {
    || t.identity != Some(o.identity)
    || o.size < t.offset
    || (o.size == t.size && o.mtime != t.mtime)
  }

  /** seek(start); read(length) -- where a negative length reads to the end. */
  function Window(bytes: Bytes, start: nat, length: int): Bytes {
    if start >= |bytes| then [] else if length < 0 then bytes[start..] else bytes[start..Min(start + length, |bytes|)]
  }

  /** The cursor after reading on, or after starting again. */
  function Advanced<B>(t: Tail<B>, o: Observation, empty: B, feed: (B, Bytes) -> B): Tail<B>
    requires o.Found?
  {
    var resets := Resets(t, o);
    var start := if resets then 0 else t.offset;
    var chunk := Window(o.content, start, Min(Max(o.size - start, 0), EVENT_FILE_MAX_BYTES - start));
    var (builder, pending) :=
      if resets then Consume(empty, [], chunk, feed) else Consume(t.builder, t.pending, chunk, feed);
    Tail(Some(o.identity), start + |chunk|, o.size, o.mtime, pending, builder)
  }

  /** `_tail_event_file`: the new cursor, whether anything was read, and whether monitoring is unavailable. */
  function Observe<B>(t: Tail<B>, o: Observation, empty: B, feed: (B, Bytes) -> B): (Tail<B>, bool, bool) {
    match o
    case Missing => (if t.identity.Some? then Fresh(empty) else t, false, true)
    case StatFails => (t, false, true)
    case Found(identity, size, mtime, opens, content) =>
      if Unchanged(t, o) then (t, false, false)
      else if !opens then (t, false, true)
      else (Advanced(t, o, empty, feed), true, false)
  }

  // -- Any sequence of observations ------------------------------------------------------------

  function TailOf<B>(history: seq<Observation>, empty: B, feed: (B, Bytes) -> B): Tail<B> {
    if history == [] then Fresh(empty)
    else Observe(TailOf(history[..|history| - 1], empty, feed), history[|history| - 1], empty, feed).0
  }

  /** The bytes of the current file that the tail has consumed. */
  function BytesRead<B>(history: seq<Observation>, empty: B, feed: (B, Bytes) -> B): Bytes {
    if history == [] then []
    else
      var n := |history| - 1;
      var t, o := TailOf(history[..n], empty, feed), history[n];
      match o
      case Missing => if t.identity.Some? then [] else BytesRead(history[..n], empty, feed)
      case StatFails => BytesRead(history[..n], empty, feed)
      case Found(_, size, _, opens, content) =>
        if Unchanged(t, o) || !opens then BytesRead(history[..n], empty, feed)
        else content[..Min(Min(size, EVENT_FILE_MAX_BYTES), |content|)]
  }

  /**
   A file that keeps its identity and has not shrunk still starts with what was read, and never shrinks while
   read.
   */
  predicate AppendOnly<B>(history: seq<Observation>, empty: B, feed: (B, Bytes) -> B) {
    history != [] ==>
      var n := |history| - 1;
      var o := history[n];
      && AppendOnly(history[..n], empty, feed)
      && (o.Found? ==> o.size <= |o.content|)
      && (o.Found? && !Resets(TailOf(history[..n], empty, feed), o) ==>
            BytesRead(history[..n], empty, feed) <= o.content)
  }

  lemma WindowExtends(seen: Bytes, content: Bytes, limit: nat)
    requires seen <= content && |seen| <= limit <= |content|
    ensures Window(content, |seen|, limit - |seen|) == content[|seen|..limit]
    ensures seen + content[|seen|..limit] == content[..limit]
  {
    assert seen == content[..|seen|];
  }

  /** A read continues after what was seen, or starts again, and stops at the size observed or at the cap. */
  lemma ObserveReadsOn<B>(t: Tail<B>, seen: Bytes, o: Observation, empty: B, feed: (B, Bytes) -> B)
    requires t.offset == |seen| <= EVENT_FILE_MAX_BYTES
    requires o.Found? && !Unchanged(t, o) && o.opens && o.size <= |o.content|
    requires !Resets(t, o) ==> seen <= o.content
    ensures var before := if Resets(t, o) then [] else seen;
            var now := o.content[..Min(o.size, EVENT_FILE_MAX_BYTES)];
            var (builder, pending) := Consume(if Resets(t, o) then empty else t.builder,
                                              if Resets(t, o) then [] else t.pending, now[|before|..], feed);
            && before + now[|before|..] == now
            && Observe(t, o, empty, feed).0 == Tail(Some(o.identity), |now|, o.size, o.mtime, pending, builder)
  {
    var limit := Min(o.size, EVENT_FILE_MAX_BYTES);
    var before := if Resets(t, o) then [] else seen;
    WindowExtends(before, o.content, limit);
    assert o.content[..limit][|before|..] == o.content[|before|..limit];
  }

  lemma {:induction false} ObserveKeepsReplay<B>(t: Tail<B>, seen: Bytes, o: Observation, empty: B, feed: (B,
      Bytes) -> B)
    requires t.builder == ReplayBytes(empty, seen, feed) && t.pending == Split(seen).1
    requires t.offset == |seen| <= EVENT_FILE_MAX_BYTES
    requires o.Found? && !Unchanged(t, o) && o.opens && o.size <= |o.content|
    requires !Resets(t, o) ==> seen <= o.content
    ensures var u, now := Observe(t, o, empty, feed).0, o.content[..Min(o.size, EVENT_FILE_MAX_BYTES)];
            && u.builder == ReplayBytes(empty, now, feed) && u.pending == Split(now).1
            && u.offset == |now| <= EVENT_FILE_MAX_BYTES
  {
    ObserveReadsOn(t, seen, o, empty, feed);
    var now := o.content[..Min(o.size, EVENT_FILE_MAX_BYTES)];
    if Resets(t, o) {
      ConsumeIsReplay(empty, [], now, feed);
    } else {
      ConsumeIsReplay(empty, seen, now[|seen|..], feed);
    }
  }

  /**
   However the appends were chunked and whenever the file was looked at, the tail's hierarchy is the batch replay
   of the bytes read so far, `pending` is what follows their last newline, and the read length is never negative.
   */
  lemma {:induction false} TailIsReplay<B>(history: seq<Observation>, empty: B, feed: (B, Bytes) -> B)
    requires AppendOnly(history, empty, feed)
    ensures var t, seen := TailOf(history, empty, feed), BytesRead(history, empty, feed);
            && t.builder == ReplayBytes(empty, seen, feed) && t.pending == Split(seen).1
            && t.offset == |seen| <= EVENT_FILE_MAX_BYTES
  {
    if history != [] {
      var n := |history| - 1;
      TailIsReplay(history[..n], empty, feed);
      var t, o := TailOf(history[..n], empty, feed), history[n];
      if o.Found? && !Unchanged(t, o) && o.opens {
        ObserveKeepsReplay(t, BytesRead(history[..n], empty, feed), o, empty, feed);
      }
    }
  }

  // -- The tail against the file itself ----------------------------------------------------------------------

  /** A file under one identity is only appended to, and holds at least as many bytes as its size says. */
  predicate Grows(history: seq<Observation>) {
    && (forall k :: 0 <= k < |history| && history[k].Found? ==> history[k].size <= |history[k].content|)
    && (forall i, j :: 0 <= i < j < |history| && history[i].Found? && history[j].Found?
                       && history[i].identity == history[j].identity ==>
          && history[i].size <= history[j].size
          && history[i].content[..history[i].size] == history[j].content[..history[i].size])
  }

  /** The file as far as it is monitored: up to the size observed, or to the first MiB. */
  function Monitored(o: Observation): Bytes
    requires o.Found? && o.size <= |o.content|
  {
    o.content[..if o.size <= 1048576 then o.size else 1048576]
  }

  ghost predicate Follows<B>(t: Tail<B>, seen: Bytes, empty: B, feed: (B, Bytes) -> B) {
    t.builder == ReplayBytes(empty, seen, feed) && t.pending == Split(seen).1 && t.offset == |seen|
  }

  /** The tail stands where observation `k` has left it. */
  ghost predicate StandsAt<B>(t: Tail<B>, history: seq<Observation>, k: nat, empty: B, feed: (B, Bytes) -> B) {
    && k < |history| && history[k].Found? && history[k].size <= |history[k].content|
    && t.identity == Some(history[k].identity) && t.size == history[k].size
    && Follows(t, Monitored(history[k]), empty, feed)
  }

  /**
   A file that differs from what the tail stands at in identity, size or time of change is read, all of it. It may have
   been replaced, cut, rewritten to the same size, or appended to.
   */
  lemma ChangedFileIsRead<B>(t: Tail<B>, seen: Bytes, o: Observation, empty: B, feed: (B, Bytes) -> B)
    requires Follows(t, seen, empty, feed) && |seen| <= 1048576
    requires o.Found? && o.opens && o.size <= |o.content|
    requires t.identity != Some(o.identity) || t.size != o.size || t.mtime != o.mtime
    requires t.identity == Some(o.identity) ==> seen <= o.content || o.size < |seen| || o.size == t.size
    ensures var (u, changed, unavailable) := Observe(t, o, empty, feed);
            && changed && !unavailable && Follows(u, Monitored(o), empty, feed)
            && u.identity == Some(o.identity) && u.size == o.size && u.mtime == o.mtime
  {
    ObserveKeepsReplay(t, seen, o, empty, feed);
  }

  /** What else an observation may report; only a missing file makes the tail start over. */
  lemma WhatElseIsReported<B>(t: Tail<B>, o: Observation, empty: B, feed: (B, Bytes) -> B)
    ensures var (u, changed, unavailable) := Observe(t, o, empty, feed);
            var same := o.Found? && t.identity == Some(o.identity) && t.size == o.size && t.mtime == o.mtime;
            && (changed <==> o.Found? && o.opens && !same)
            && (unavailable <==> !same && !changed)
            && (!changed && !o.Missing? ==> u == t)
            && (o.Missing? ==> u == if t.identity.Some? then Fresh(empty) else t)
  {
  }

  lemma {:induction false} TailStandsSomewhere<B>(history: seq<Observation>, empty: B, feed: (B, Bytes) -> B)
    requires Grows(history)
    ensures var t := TailOf(history, empty, feed);
            t == Fresh(empty) || exists k: nat :: StandsAt(t, history, k, empty, feed)
    ensures history != [] ==>
              var n := |history| - 1;
              history[n].Found? && history[n].opens ==> StandsAt(TailOf(history, empty, feed), history, n, empty, feed)
  {
    if history != [] {
      var n := |history| - 1;
      var before, o := history[..n], history[n];
      TailStandsSomewhere(before, empty, feed);
      var t, u := TailOf(before, empty, feed), TailOf(history, empty, feed);
      if t == Fresh(empty) {
        if o.Found? && o.opens {
          ChangedFileIsRead(t, [], o, empty, feed);
          assert StandsAt(u, history, n, empty, feed);
        }
      } else {
        var k: nat :| StandsAt(t, before, k, empty, feed);
        assert before[k] == history[k] && StandsAt(t, history, k, empty, feed);
        StandsOn(history, t, k, empty, feed);
        assert u == t || u == Fresh(empty) || StandsAt(u, history, n, empty, feed);
      }
    }
  }

  /** The last observation, from a tail that stands at an earlier one. */
  lemma StandsOn<B>(history: seq<Observation>, t: Tail<B>, k: nat, empty: B, feed: (B, Bytes) -> B)
    requires Grows(history) && k < |history| - 1 && StandsAt(t, history, k, empty, feed)
    ensures var n := |history| - 1;
            var u := Observe(t, history[n], empty, feed).0;
            && (u == t || u == Fresh(empty) || StandsAt(u, history, n, empty, feed))
            && (history[n].Found? && history[n].opens ==> StandsAt(u, history, n, empty, feed))
  {
    var n := |history| - 1;
    var o, seen := history[n], Monitored(history[k]);
    if o.Found? && o.opens && t.identity == Some(o.identity) {
      assert history[k].content[..history[k].size] == o.content[..history[k].size];
      assert seen == o.content[..|seen|];
      if t.size == o.size { assert seen == Monitored(o); }
    }
    if o.Found? && o.opens && (t.identity != Some(o.identity) || t.size != o.size || t.mtime != o.mtime) {
      ChangedFileIsRead(t, seen, o, empty, feed);
    }
  }

  /** After any look at a file that is there and opens, the tail is the batch replay of the file itself. */
  lemma TailFollowsTheFile<B>(history: seq<Observation>, empty: B, feed: (B, Bytes) -> B)
    requires Grows(history) && history != []
    requires history[|history| - 1].Found? && history[|history| - 1].opens
    ensures var t, now := TailOf(history, empty, feed), Monitored(history[|history| - 1]);
            t.builder == ReplayBytes(empty, now, feed) && t.pending == Split(now).1 && t.offset == |now|
  {
    TailStandsSomewhere(history, empty, feed);
  }
}
