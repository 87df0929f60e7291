/**
 What the hierarchy says about its event stream, event by event: which events are accepted and under which call,
 what each node, shell and call takes from its event, and in which order they stand.
 */
module HierarchyEvents {
  import opened Basics
  import opened Decimals
  import opened Hierarchy

  // -- Which events are accepted, and under which call ------------------------------------------------------

  /** A line that counts as an event. */
  predicate Understood(line: Line) {
    && line.Some? && (line.value.version == 1 || line.value.version == 2) && line.value.kind.Some?
    && line.value.shell.Some? && line.value.shell.value != ""
  }

  /** The three fields that a version 2 event must name its call with. */
  predicate NamesCall(e: Event) {
    && e.callId.Some? && e.callId.value != "" && e.index.Some? && e.index.value >= 1
    && e.script.Some? && e.script.value != ""
  }

  /** The events so far; their number is an event's sequence number. */
  function Count(lines: seq<Line>): nat {
    if lines == [] then 0
    else Count(lines[..|lines| - 1]) + if Understood(lines[|lines| - 1]) then 1 else 0
  }

  /**
   The call under which `line` is accepted after `before`. Version 1 uses the shell's call or generates one; version 2
   names it and must contradict neither the shell's call nor what the call was opened with.
   */
  function CallOf(before: seq<Line>, line: Line): Option<string>
    decreases |before|, 1
  {
    if !Understood(line) then None
    else
      var e := line.value;
      var bound := Binding(before, e.shell.value);
      if e.version == 1 then
        if bound.Some? then bound
        else Some("legacy-" + Pad4(|Opened(before)| + 1) + "-" + e.shell.value)
      else if !NamesCall(e) || (bound.Some? && bound != e.callId) then None
      else
        var opening := Opening(before, e.callId.value);
        if opening.Some? && (opening.value.index != e.index || opening.value.script != e.script) then None
        else e.callId
  }

  /** The call of a shell: that of its first accepted event. */
  function Binding(lines: seq<Line>, sh: string): Option<string>
    decreases |lines|, 0
  {
    if lines == [] then None
    else
      var before, line := lines[..|lines| - 1], lines[|lines| - 1];
      if Binding(before, sh).Some? then Binding(before, sh)
      else if Understood(line) && line.value.shell == Some(sh) then CallOf(before, line) else None
  }

  /** This event generates a call for its shell. */
  predicate Generates(before: seq<Line>, line: Line)
    decreases |before|, 1
  {
    Understood(line) && line.value.version == 1 && Binding(before, line.value.shell.value).None?
  }

  datatype Terms = Terms(index: Option<int>, script: Option<string>, seqNo: nat)

  /** The index and script a call was opened with, and when; a generated one has neither. */
  function Opening(lines: seq<Line>, id: string): Option<Terms>
    decreases |lines|, 0
  {
    if lines == [] then None
    else
      var before, line := lines[..|lines| - 1], lines[|lines| - 1];
      if CallOf(before, line) != Some(id) then Opening(before, id)
      else if Generates(before, line) then Some(Terms(None, None, Count(lines)))
      else if Opening(before, id).Some? then Opening(before, id)
      else Some(Terms(line.value.index, line.value.script, Count(lines)))
  }

  /** The calls in the order in which they were opened. */
  function Opened(lines: seq<Line>): seq<string>
    decreases |lines|, 0
  {
    if lines == [] then []
    else
      var before, line := lines[..|lines| - 1], lines[|lines| - 1];
      var call := CallOf(before, line);
      Opened(before)
      + if call.Some? && (Generates(before, line) || Opening(before, call.value).None?) then [call.value] else []
  }

  function OpeningIn(b: Builder, id: string): Option<Terms> {
    if id in b.calls then Some(Terms(b.calls[id].index, b.calls[id].script, b.calls[id].seqNo)) else None
  }

  function BindingIn(b: Builder, sh: string): Option<string> {
    if sh in b.shellCalls then Some(b.shellCalls[sh]) else None
  }

  ghost predicate CallsAgree(lines: seq<Line>, b: Builder) {
    && b.counter == Count(lines) && b.callOrder == Opened(lines)
    && (forall sh :: BindingIn(b, sh) == Binding(lines, sh))
    && (forall id :: OpeningIn(b, id) == Opening(lines, id))
  }

  lemma {:induction false} ResolvesAsStated(before: seq<Line>, b: Builder, line: Line)
    requires CallsAgree(before, b) && Bound(b) && Understood(line)
    ensures Resolve(b, line.value, line.value.shell.value).1 == CallOf(before, line)
  {
    var e := line.value;
    assert BindingIn(b, e.shell.value) == Binding(before, e.shell.value);
    if e.callId.Some? { assert OpeningIn(b, e.callId.value) == Opening(before, e.callId.value); }
  }

  lemma HandleKeepsCalls(b: Builder, e: Event, sh: string, call: string)
    requires call in b.calls && e.kind.Some?
    ensures var t := Handle(b, e, sh, call);
            && t.counter == b.counter && t.callOrder == b.callOrder && t.shellCalls == b.shellCalls
            && forall id :: OpeningIn(t, id) == OpeningIn(b, id)
  {
  }

  lemma {:induction false} BindingAfter(before: seq<Line>, b: Builder, line: Line, x: string)
    requires CallsAgree(before, b) && Bound(b) && Understood(line)
    ensures BindingIn(Resolve(b, line.value, line.value.shell.value).0, x) == Binding(before + [line], x)
  {
    assert (before + [line])[..|before|] == before;
    ResolvesAsStated(before, b, line);
    assert BindingIn(b, x) == Binding(before, x);
    assert BindingIn(b, line.value.shell.value) == Binding(before, line.value.shell.value);
  }

  lemma {:induction false} OpeningAfter(before: seq<Line>, b: Builder, line: Line, id: string)
    requires CallsAgree(before, b) && Bound(b) && Understood(line)
    ensures OpeningIn(Resolve(b, line.value, line.value.shell.value).0, id) == Opening(before + [line], id)
  {
    assert (before + [line])[..|before|] == before;
    ResolvesAsStated(before, b, line);
    assert OpeningIn(b, id) == Opening(before, id);
    assert BindingIn(b, line.value.shell.value) == Binding(before, line.value.shell.value);
  }

  lemma {:induction false} OpenedAfter(before: seq<Line>, b: Builder, line: Line)
    requires CallsAgree(before, b) && Bound(b) && Understood(line)
    ensures Resolve(b, line.value, line.value.shell.value).0.callOrder == Opened(before + [line])
  {
    assert (before + [line])[..|before|] == before;
    ResolvesAsStated(before, b, line);
    assert BindingIn(b, line.value.shell.value) == Binding(before, line.value.shell.value);
    var call := CallOf(before, line);
    if call.Some? { assert OpeningIn(b, call.value) == Opening(before, call.value); }
  }

  lemma ResolveAgrees(before: seq<Line>, b: Builder, line: Line)
    requires CallsAgree(before, b) && Bound(b) && Understood(line)
    ensures CallsAgree(before + [line], Resolve(b, line.value, line.value.shell.value).0)
  {
    var c := Resolve(b, line.value, line.value.shell.value).0;
    CountsOneMore(before, line);
    OpenedAfter(before, b, line);
    forall x ensures BindingIn(c, x) == Binding(before + [line], x) { BindingAfter(before, b, line, x); }
    forall id ensures OpeningIn(c, id) == Opening(before + [line], id) { OpeningAfter(before, b, line, id); }
  }

  /** The builder knows exactly the calls and the bindings that the stream states. */
  lemma {:induction false} CallsAreAsStated(lines: seq<Line>)
    ensures CallsAgree(lines, Replay(lines))
  {
    if lines != [] {
      var n := |lines| - 1;
      CallsAreAsStated(lines[..n]);
      assert lines == lines[..n] + [lines[n]];
      FeedKeepsCalls(lines[..n], Replay(lines[..n]), lines[n]);
    }
  }

  lemma FeedKeepsCalls(before: seq<Line>, b: Builder, line: Line)
    requires CallsAgree(before, b) && Bound(b)
    ensures CallsAgree(before + [line], Feed(b, line))
  {
    assert (before + [line])[..|before|] == before;
    if Understood(line) {
      var e, sh := line.value, line.value.shell.value;
      ResolveAgrees(before, b, line);
      var (c, call) := Resolve(b, e, sh);
      if call.Some? {
        HandleKeepsCalls(c, e, sh, call.value);
        AgreesAfter(before + [line], c, Handle(c, e, sh, call.value));
      }
    } else {
      forall x ensures BindingIn(b, x) == Binding(before + [line], x) {
        assert BindingIn(b, x) == Binding(before, x);
      }
      forall id ensures OpeningIn(b, id) == Opening(before + [line], id) {
        assert OpeningIn(b, id) == Opening(before, id);
      }
    }
  }

  lemma AgreesAfter(lines: seq<Line>, c: Builder, t: Builder)
    requires CallsAgree(lines, c)
    requires t.counter == c.counter && t.callOrder == c.callOrder && t.shellCalls == c.shellCalls
    requires forall id :: OpeningIn(t, id) == OpeningIn(c, id)
    ensures CallsAgree(lines, t)
  {
    forall x ensures BindingIn(t, x) == Binding(lines, x) {
      assert BindingIn(c, x) == Binding(lines, x);
    }
    forall id ensures OpeningIn(t, id) == Opening(lines, id) {
      assert OpeningIn(c, id) == Opening(lines, id);
    }
  }

  // -- Which events start and end shells and become nodes -------------------------------------------------------

  predicate IsEvent(before: seq<Line>, line: Line, sh: string, kind: Kind) {
    && Understood(line) && line.value.shell == Some(sh) && line.value.kind == Some(kind) && CallOf(before, line).Some?
  }

  /** The first start of the shell; version 2 must name one of two relations. */
  predicate Starts(before: seq<Line>, line: Line, sh: string)
    decreases |before|, 1
  {
    && IsEvent(before, line, sh, ShellStarted) && StartOf(before, sh).None?
    && (line.value.version == 2 ==>
          line.value.relation == Some("initial") || line.value.relation == Some("orchestrator_pool_fallback"))
  }

  function StartOf(lines: seq<Line>, sh: string): (r: Option<nat>)
    ensures r.Some? ==> r.value < |lines| && lines[r.value].Some?
    decreases |lines|, 0
  {
    if lines == [] then None
    else
      var n := |lines| - 1;
      if Starts(lines[..n], lines[n], sh) then Some(n) else StartOf(lines[..n], sh)
  }

  /** The last end of the shell after its start. */
  function EndOf(lines: seq<Line>, sh: string): (r: Option<nat>)
    ensures r.Some? ==> r.value < |lines| && lines[r.value].Some?
  {
    if lines == [] then None
    else
      var n := |lines| - 1;
      if IsEvent(lines[..n], lines[n], sh, ShellFinished) && StartOf(lines[..n], sh).Some? then Some(n)
      else EndOf(lines[..n], sh)
  }

  /** A discovery, or a retry after one, of a query of a shell that has started. */
  predicate BecomesNode(before: seq<Line>, line: Line, sh: string)
    decreases |before|, 1
  {
    && (|| IsEvent(before, line, sh, QueryDiscovered)
        || (IsEvent(before, line, sh, QueryRetried) && Nodes(before, sh) != []))
    && StartOf(before, sh).Some?
    && line.value.base.Some? && line.value.base.value != ""
    && line.value.queryId.Some? && line.value.queryId.value != ""
  }

  /** The positions of the events that become nodes of the shell. */
  function Nodes(lines: seq<Line>, sh: string): (r: seq<nat>)
    ensures forall i :: 0 <= i < |r| ==> r[i] < |lines| && lines[r[i]].Some?
    decreases |lines|, 0
  {
    if lines == [] then []
    else
      var n := |lines| - 1;
      Nodes(lines[..n], sh) + if BecomesNode(lines[..n], lines[n], sh) then [n] else []
  }

  lemma {:induction false} NodePositions(lines: seq<Line>, sh: string)
    ensures forall i, j :: 0 <= i < j < |Nodes(lines, sh)| ==> Nodes(lines, sh)[i] < Nodes(lines, sh)[j]
    ensures forall k: nat :: k in Nodes(lines, sh) <==> k < |lines| && BecomesNode(lines[..k], lines[k], sh)
  {
    if lines != [] {
      var n := |lines| - 1;
      NodePositions(lines[..n], sh);
      forall k: nat | k < n ensures lines[..n][..k] == lines[..k] {
      }
    }
  }

  // -- What they record --------------------------------------------------------------------------------------------

  function TextOf(s: Option<string>): string {
    match s
    case None => ""
    case Some(text) => text
  }

  predicate NodeRecords(q: Query, lines: seq<Line>, k: nat, sh: string) {
    && k < |lines| && lines[k].Some?
    && var e := lines[k].value;
       && e.base == Some(q.base) && e.queryId == Some(q.queryId) && e.shell == Some(sh) && q.shell == sh
       && (q.retry <==> e.kind == Some(QueryRetried)) && q.discoveredAt == TextOf(e.ts)
       && q.seqNo == Count(lines[..k + 1]) && q.retries == []
  }

  predicate ShellRecords(s: Shell, lines: seq<Line>, sh: string) {
    && StartOf(lines, sh).Some?
    && var k := StartOf(lines, sh).value;
       var e := lines[k].value;
       && s.id == sh && s.pool == TextOf(e.pool) && s.startedAt == e.ts && s.seqNo == Count(lines[..k + 1])
       && s.relation == (if e.version == 2 then TextOf(e.relation) else "unknown_legacy")
       && match EndOf(lines, sh)
          case None => s.returncode.None? && s.finishedAt.None?
          case Some(f) => s.returncode == lines[f].value.returncode && s.finishedAt == lines[f].value.ts
  }

  /** The shell's record and its nodes are as the stream states them. */
  ghost predicate ShellAgrees(lines: seq<Line>, b: Builder, sh: string) {
    && (sh in b.shells <==> StartOf(lines, sh).Some?)
    && (sh in b.shells ==> ShellRecords(b.shells[sh], lines, sh))
    && NodesRecord(Heads(QueriesOf(b, sh)), lines, Nodes(lines, sh), sh)
  }

  ghost predicate NodesRecord(heads: seq<Query>, lines: seq<Line>, nodes: seq<nat>, sh: string) {
    |heads| == |nodes| && forall i :: 0 <= i < |heads| ==> NodeRecords(heads[i], lines, nodes[i], sh)
  }

  lemma {:induction false} OneMoreLine(before: seq<Line>, line: Line, sh: string)
    ensures var lines := before + [line];
            && StartOf(lines, sh) == (if Starts(before, line, sh) then Some(|before|) else StartOf(before, sh))
            && EndOf(lines, sh) == (if IsEvent(before, line, sh, ShellFinished) && StartOf(before, sh).Some?
                                    then Some(|before|) else EndOf(before, sh))
            && Nodes(lines, sh) == Nodes(before, sh) + if BecomesNode(before, line, sh) then [|before|] else []
  {
    assert (before + [line])[..|before|] == before;
  }

  lemma NodeCarriesOver(q: Query, before: seq<Line>, line: Line, k: nat, sh: string)
    requires NodeRecords(q, before, k, sh)
    ensures NodeRecords(q, before + [line], k, sh)
  {
    assert (before + [line])[..k + 1] == before[..k + 1];
  }

  lemma NodesCarryOver(heads: seq<Query>, before: seq<Line>, line: Line, nodes: seq<nat>, sh: string)
    requires NodesRecord(heads, before, nodes, sh)
    ensures NodesRecord(heads, before + [line], nodes, sh)
  {
    forall i | 0 <= i < |heads| ensures NodeRecords(heads[i], before + [line], nodes[i], sh) {
      NodeCarriesOver(heads[i], before, line, nodes[i], sh);
    }
  }

  lemma {:induction false} NodesAfter(before: seq<Line>, b: Builder, line: Line, sh: string)
    requires Bound(b) && CallsAgree(before, b) && ShellAgrees(before, b, sh)
    ensures BecomesNode(before, line, sh) <==> AddsQuery(b, line, sh)
  {
    if Understood(line) && line.value.shell == Some(sh) {
      ResolvesAsStated(before, b, line);
      ResolveKeepsShells(b, line.value, sh);
      NoHeadsNoQueries(QueriesOf(b, sh));
    }
  }

  lemma {:induction false} NoHeadsNoQueries(queries: seq<Query>)
    ensures Heads(queries) == [] <==> queries == []
  {
  }

  lemma AddedRecords(before: seq<Line>, b: Builder, line: Line, sh: string)
    requires CallsAgree(before, b) && AddsQuery(b, line, sh)
    ensures NodeRecords(AddedQuery(b, line, sh)[0], before + [line], |before|, sh)
  {
    assert (before + [line])[..|before|] == before && (before + [line])[..|before| + 1] == before + [line];
  }

  lemma {:induction false} HeadsAgree(before: seq<Line>, b: Builder, line: Line, sh: string)
    requires Bound(b) && CallsAgree(before, b) && ShellAgrees(before, b, sh)
    ensures NodesRecord(Heads(QueriesOf(Feed(b, line), sh)), before + [line], Nodes(before + [line], sh), sh)
  {
    var heads, nodes := Heads(QueriesOf(b, sh)), Nodes(before, sh);
    OneMoreLine(before, line, sh);
    FeedHeads(b, line, sh);
    NodesAfter(before, b, line, sh);
    NodesCarryOver(heads, before, line, nodes, sh);
    if AddsQuery(b, line, sh) {
      AddedRecords(before, b, line, sh);
      OneMoreNode(heads, AddedQuery(b, line, sh)[0], before + [line], nodes, |before|, sh);
    }
  }

  lemma OneMoreNode(heads: seq<Query>, q: Query, lines: seq<Line>, nodes: seq<nat>, k: nat, sh: string)
    requires NodesRecord(heads, lines, nodes, sh) && NodeRecords(q, lines, k, sh)
    ensures NodesRecord(heads + [q], lines, nodes + [k], sh)
  {
  }

  lemma {:induction false} StartsAsStated(before: seq<Line>, b: Builder, line: Line, sh: string)
    requires Bound(b) && CallsAgree(before, b) && ShellAgrees(before, b, sh)
    ensures Starts(before, line, sh) <==> StartsShell(b, line, sh) && sh !in b.shells
  {
    if Understood(line) && line.value.shell == Some(sh) {
      ResolvesAsStated(before, b, line);
      ResolveKeepsShells(b, line.value, sh);
    }
  }

  /** What an accepted event does to the record of one shell. */
  lemma HandleRecords(b: Builder, e: Event, sh: string, call: string, x: string)
    requires call in b.calls && e.kind.Some?
    ensures var t := Handle(b, e, sh, call);
            x in t.shells ==>
              && (x !in b.shells ==>
                    && x == sh && e.kind == Some(ShellStarted)
                    && t.shells[x] == Shell(x, TextOf(e.pool), RelationOf(e), b.counter, e.ts, None, None, []))
              && (x in b.shells ==> t.shells[x] == Ended(b.shells[x], x == sh, e).(queries := t.shells[x].queries))
  {
  }

  function RelationOf(e: Event): string {
    if e.version == 2 then TextOf(e.relation) else "unknown_legacy"
  }

  function Ended(s: Shell, mine: bool, e: Event): Shell {
    if mine && e.kind == Some(ShellFinished) then s.(returncode := e.returncode, finishedAt := e.ts) else s
  }

  /** A record that only this event may have ended. */
  lemma OldShellRecords(s: Shell, now: Shell, before: seq<Line>, line: Line, sh: string)
    requires ShellRecords(s, before, sh)
    requires var ends := IsEvent(before, line, sh, ShellFinished);
             && (ends ==> now == s.(returncode := line.value.returncode, finishedAt := line.value.ts,
                                    queries := now.queries))
             && (!ends ==> now == s.(queries := now.queries))
    ensures ShellRecords(now, before + [line], sh)
  {
    OneMoreLine(before, line, sh);
    assert (before + [line])[..StartOf(before, sh).value + 1] == before[..StartOf(before, sh).value + 1];
  }

  lemma {:induction false} NewShellRecords(before: seq<Line>, line: Line, sh: string)
    requires Starts(before, line, sh) && EndOf(before, sh).None?
    ensures var e := line.value;
            ShellRecords(Shell(sh, TextOf(e.pool), RelationOf(e), Count(before) + 1, e.ts, None, None, []),
                         before + [line], sh)
  {
    OneMoreLine(before, line, sh);
    CountsOneMore(before, line);
  }

  lemma {:induction false} CountsOneMore(before: seq<Line>, line: Line)
    ensures (before + [line])[..|before| + 1] == before + [line]
    ensures Count(before + [line]) == Count(before) + if Understood(line) then 1 else 0
  {
    assert (before + [line])[..|before|] == before;
  }

  lemma {:induction false} NoEndBeforeTheStart(lines: seq<Line>, sh: string)
    requires StartOf(lines, sh).None?
    ensures EndOf(lines, sh).None?
  {
    if lines != [] { NoEndBeforeTheStart(lines[..|lines| - 1], sh); }
  }

  lemma {:induction false} ShellRecordAgrees(before: seq<Line>, b: Builder, line: Line, sh: string)
    requires Bound(b) && CallsAgree(before, b) && ShellAgrees(before, b, sh)
    ensures var t := Feed(b, line);
            && (sh in t.shells <==> StartOf(before + [line], sh).Some?)
            && (sh in t.shells ==> ShellRecords(t.shells[sh], before + [line], sh))
  {
    OneMoreLine(before, line, sh);
    FeedStarts(b, line, sh);
    StartsAsStated(before, b, line, sh);
    if sh in b.shells {
      FedRecord(before, b, line, sh);
      OldShellRecords(b.shells[sh], Feed(b, line).shells[sh], before, line, sh);
    } else if sh in Feed(b, line).shells {
      NoEndBeforeTheStart(before, sh);
      NewShellRecords(before, line, sh);
      FedRecord(before, b, line, sh);
    }
  }

  lemma {:induction false} FedRecord(before: seq<Line>, b: Builder, line: Line, sh: string)
    requires Bound(b) && CallsAgree(before, b) && sh in Feed(b, line).shells
    ensures var now := Feed(b, line).shells[sh];
            && (sh in b.shells ==>
                  now == (if IsEvent(before, line, sh, ShellFinished)
                          then b.shells[sh].(returncode := line.value.returncode, finishedAt := line.value.ts)
                          else b.shells[sh]).(queries := now.queries))
            && (sh !in b.shells ==>
                  && line.Some?
                  && now == Shell(sh, TextOf(line.value.pool), RelationOf(line.value), Count(before) + 1,
                                  line.value.ts, None, None, []))
  {
    if Understood(line) {
      var e, x := line.value, line.value.shell.value;
      ResolvesAsStated(before, b, line);
      ResolveKeepsShells(b, e, x);
      var (c, call) := Resolve(b, e, x);
      if call.Some? { HandleRecords(c, e, x, call.value, sh); }
    }
  }

  /** Every shell and every node, none lost and none invented, is as the stream states it. */
  lemma {:induction false} ShellsAndNodesAreAsStated(lines: seq<Line>, sh: string)
    ensures ShellAgrees(lines, Replay(lines), sh)
  {
    if lines != [] {
      var n := |lines| - 1;
      assert lines == lines[..n] + [lines[n]];
      CallsAreAsStated(lines[..n]);
      ShellsAndNodesAreAsStated(lines[..n], sh);
      HeadsAgree(lines[..n], Replay(lines[..n]), lines[n], sh);
      ShellRecordAgrees(lines[..n], Replay(lines[..n]), lines[n], sh);
    }
  }

  // -- Which shells a call owns, in order --------------------------------------------------------------------------

  /** The shells started under a call, in order; a call that is generated anew starts with none. */
  function Owns(lines: seq<Line>, id: string): seq<string> {
    if lines == [] then []
    else
      var before, line := lines[..|lines| - 1], lines[|lines| - 1];
      if CallOf(before, line) != Some(id) then Owns(before, id)
      else
        (if Generates(before, line) then [] else Owns(before, id))
        + if Starts(before, line, line.value.shell.value) then [line.value.shell.value] else []
  }

  function OwnedIn(b: Builder, id: string): seq<string> {
    if id in b.calls then b.calls[id].shells else []
  }

  ghost predicate OwnersAgree(lines: seq<Line>, b: Builder) {
    && (forall id :: OwnedIn(b, id) == Owns(lines, id))
    && (forall id <- b.calls :: b.calls[id].id == id)
  }

  lemma {:induction false} ResolveOwns(before: seq<Line>, b: Builder, line: Line, id: string)
    requires CallsAgree(before, b) && Bound(b) && Understood(line) && OwnersAgree(before, b)
    ensures var c := Resolve(b, line.value, line.value.shell.value).0;
            && OwnedIn(c, id) == (if CallOf(before, line) == Some(id) && Generates(before, line) then []
                                  else Owns(before, id))
            && (id in c.calls ==> c.calls[id].id == id)
  {
    ResolvesAsStated(before, b, line);
    assert OwnedIn(b, id) == Owns(before, id);
    assert BindingIn(b, line.value.shell.value) == Binding(before, line.value.shell.value);
    assert OpeningIn(b, id) == Opening(before, id);
  }

  lemma HandleOwns(b: Builder, e: Event, sh: string, call: string, id: string)
    requires call in b.calls && e.kind.Some? && b.calls[call].id == call
    ensures var t := Handle(b, e, sh, call);
            && OwnedIn(t, id) == OwnedIn(b, id)
                 + (if id == call && e.kind == Some(ShellStarted) && StartAccepted(b, e, sh) then [sh] else [])
            && (id in t.calls ==> id in b.calls && t.calls[id].id == b.calls[id].id)
  {
  }

  lemma {:induction false} OwnsOneMore(before: seq<Line>, line: Line, id: string)
    ensures Owns(before + [line], id) ==
            if CallOf(before, line) != Some(id) then Owns(before, id)
            else (if Generates(before, line) then [] else Owns(before, id))
                 + if Starts(before, line, line.value.shell.value) then [line.value.shell.value] else []
  {
    assert (before + [line])[..|before|] == before;
  }

  lemma {:induction false} FeedOwns(before: seq<Line>, b: Builder, line: Line, id: string)
    requires CallsAgree(before, b) && Bound(b) && OwnersAgree(before, b)
    requires Understood(line) ==> ShellAgrees(before, b, line.value.shell.value)
    ensures OwnedIn(Feed(b, line), id) == Owns(before + [line], id)
    ensures id in Feed(b, line).calls ==> Feed(b, line).calls[id].id == id
  {
    OwnsOneMore(before, line, id);
    assert OwnedIn(b, id) == Owns(before, id);
    if Understood(line) {
      ResolvesAsStated(before, b, line);
      ResolveOwns(before, b, line, id);
      var call := CallOf(before, line);
      if call.Some? {
        StartsAsStated(before, b, line, line.value.shell.value);
        StartedUnder(b, line, call.value, id);
        ResolveOwns(before, b, line, call.value);
      }
    }
  }

  lemma StartedUnder(b: Builder, line: Line, call: string, id: string)
    requires Bound(b) && Understood(line) && Resolve(b, line.value, line.value.shell.value).1 == Some(call)
    ensures var c, t := Resolve(b, line.value, line.value.shell.value).0, Feed(b, line);
            && call in c.calls
            && (c.calls[call].id == call ==>
                  && OwnedIn(t, id) == OwnedIn(c, id)
                       + (if id == call && StartsShell(b, line, line.value.shell.value)
                          then [line.value.shell.value] else [])
                  && (id in t.calls ==> id in c.calls && t.calls[id].id == c.calls[id].id))
  {
    var e, sh := line.value, line.value.shell.value;
    ResolveKeepsShells(b, e, sh);
    var c := Resolve(b, e, sh).0;
    if c.calls[call].id == call { HandleOwns(c, e, sh, call, id); }
  }

  /** Every call owns exactly the shells started under it, in the order of their starts. */
  lemma {:induction false} CallsOwnTheirShells(lines: seq<Line>)
    ensures OwnersAgree(lines, Replay(lines))
  {
    if lines != [] {
      var n := |lines| - 1;
      var before, line, b := lines[..n], lines[n], Replay(lines[..n]);
      assert lines == before + [line];
      CallsOwnTheirShells(before);
      CallsAreAsStated(before);
      if Understood(line) { ShellsAndNodesAreAsStated(before, line.value.shell.value); }
      forall id ensures OwnedIn(Feed(b, line), id) == Owns(lines, id) { FeedOwns(before, b, line, id); }
      forall id | id in Feed(b, line).calls ensures Feed(b, line).calls[id].id == id { FeedOwns(before, b, line, id); }
    }
  }
}
