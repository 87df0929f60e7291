/**
 The monitor's tolerant fold of an event stream into calls, shells, queries and transparent retries.
 Events arrive already parsed; a missing field stands for an absent or wrongly typed JSON value.
 */
module Hierarchy {
  import opened Basics
  import opened Decimals

  datatype Kind = ShellStarted | ShellFinished | QueryDiscovered | QueryRetried

  datatype Event = Event(
    version: int, kind: Option<Kind>, shell: Option<string>,
    callId: Option<string>, index: Option<int>, script: Option<string>,
    relation: Option<string>, pool: Option<string>, ts: Option<string>,
    base: Option<string>, queryId: Option<string>, returncode: Option<int>)

  // A line that is blank, not JSON, or not an object is None.
  type Line = Option<Event>

  datatype Query = Query(
    base: string, queryId: string, retry: bool, shell: string, discoveredAt: string, seqNo: nat,
    retries: seq<Query>)

  datatype Shell = Shell(
    id: string, pool: string, relation: string, seqNo: nat,
    startedAt: Option<string>, finishedAt: Option<string>, returncode: Option<int>, queries: seq<Query>)

  // A call owns its shells by identifier; the shell records are in the builder's table.
  datatype Call = Call(id: string, index: Option<int>, script: Option<string>, seqNo: nat, shells: seq<string>)

  datatype Builder = Builder(
    shells: map<string, Shell>, shellCalls: map<string, string>, calls: map<string, Call>,
    callOrder: seq<string>, counter: nat)

  const EMPTY := Builder(map[], map[], map[], [], 0)

  // -- Call identifiers ---------------------------------------------------------------------

  function Zeros(n: nat): string {
    seq(n, _ => '0')
  }

  function Pad4(n: nat): string {
    Zeros(if |Digits(n)| < 4 then 4 - |Digits(n)| else 0) + Digits(n)
  }

  const LEGACY := "legacy-"

  function LegacyId(n: nat, shell: string): string {
    LEGACY + Pad4(n) + "-" + shell
  }

  // -- The fold -----------------------------------------------------------------------------

  predicate NonEmpty(s: Option<string>) {
    s.Some? && s.value != ""
  }

  predicate HasCallFields(e: Event) {
    NonEmpty(e.callId) && e.index.Some? && e.index.value >= 1 && NonEmpty(e.script)
  }

  /** The event's call, created when it is new; None when the event contradicts what is known. */
  function CallFor(b: Builder, e: Event, sh: string, seqNo: nat): (Builder, Option<string>) {
    if e.version == 1 then
      if sh in b.shellCalls then (b, Some(b.shellCalls[sh]))
      else
        var id := LegacyId(|b.callOrder| + 1, sh);
        (b.(calls := b.calls[id := Call(id, None, None, seqNo, [])], callOrder := b.callOrder + [id],
            shellCalls := b.shellCalls[sh := id]), Some(id))
    else if !HasCallFields(e) || (sh in b.shellCalls && b.shellCalls[sh] != e.callId.value) then (b, None)
    else
      var id := e.callId.value;
      if id !in b.calls then
        (b.(calls := b.calls[id := Call(id, e.index, e.script, seqNo, [])], callOrder := b.callOrder + [id],
            shellCalls := b.shellCalls[sh := id]), Some(id))
      else if b.calls[id].index != e.index || b.calls[id].script != e.script then (b, None)
      else (b.(shellCalls := b.shellCalls[sh := id]), Some(id))
  }

  function OrElse(s: Option<string>, d: string): string {
    if s.Some? then s.value else d
  }

  predicate StartAccepted(b: Builder, e: Event, sh: string) {
    && sh !in b.shells
    && (e.version == 2 ==> e.relation == Some("initial") || e.relation == Some("orchestrator_pool_fallback"))
  }

  function StartShell(b: Builder, e: Event, sh: string, call: string, seqNo: nat): Builder
    requires call in b.calls
  {
    if !StartAccepted(b, e, sh) then b
    else
      var relation := if e.version == 2 then e.relation.value else "unknown_legacy";
      b.(shells := b.shells[sh := Shell(sh, OrElse(e.pool, ""), relation, seqNo, e.ts, None, None, [])],
         calls := b.calls[call := b.calls[call].(shells := b.calls[call].shells + [sh])])
  }

  function FinishShell(b: Builder, e: Event, sh: string): Builder {
    if sh !in b.shells then b
    else b.(shells := b.shells[sh := b.shells[sh].(returncode := e.returncode, finishedAt := e.ts)])
  }

  function QueryOf(e: Event, sh: string, retry: bool, seqNo: nat): Query
    requires e.base.Some? && e.queryId.Some?
  {
    Query(e.base.value, e.queryId.value, retry, sh, OrElse(e.ts, ""), seqNo, [])
  }

  /** Attach below the deepest node of the newest branch. */
  function AppendRetry(q: Query, r: Query): Query {
    var n := |q.retries|;
    if n == 0 then q.(retries := [r])
    else q.(retries := q.retries[..n - 1] + [AppendRetry(q.retries[n - 1], r)])
  }

  function AddRetry(queries: seq<Query>, r: Query): seq<Query>
    requires queries != []
  {
    queries[..|queries| - 1] + [AppendRetry(queries[|queries| - 1], r)]
  }

  predicate QueryAccepted(b: Builder, e: Event, sh: string) {
    && NonEmpty(e.base) && NonEmpty(e.queryId) && sh in b.shells
    && (e.kind == Some(QueryRetried) ==> b.shells[sh].queries != [])
  }

  function AddQuery(b: Builder, e: Event, sh: string, seqNo: nat): Builder
    requires e.kind == Some(QueryDiscovered) || e.kind == Some(QueryRetried)
  {
    if !QueryAccepted(b, e, sh) then b
    else
      var shell := b.shells[sh];
      var queries := if e.kind.value == QueryDiscovered then shell.queries + [QueryOf(e, sh, false, seqNo)]
                     else AddRetry(shell.queries, QueryOf(e, sh, true, seqNo));
      b.(shells := b.shells[sh := shell.(queries := queries)])
  }

  predicate Recognised(line: Line) {
    line.Some? && (line.value.version == 1 || line.value.version == 2) && line.value.kind.Some?
    && NonEmpty(line.value.shell)
  }

  /** Every shell that has been mentioned is bound to a known call. */
  predicate Bound(b: Builder) {
    forall sh <- b.shellCalls :: b.shellCalls[sh] in b.calls
  }

  /** The builder and the event's call after the event has been counted. */
  function Resolve(b: Builder, e: Event, sh: string): (Builder, Option<string>) {
    CallFor(b.(counter := b.counter + 1), e, sh, b.counter + 1)
  }

  function Handle(b: Builder, e: Event, sh: string, call: string): Builder
    requires call in b.calls && e.kind.Some?
  {
    match e.kind.value
    case ShellStarted => StartShell(b, e, sh, call, b.counter)
    case ShellFinished => FinishShell(b, e, sh)
    case _ => AddQuery(b, e, sh, b.counter)
  }

  function Feed(b: Builder, line: Line): (t: Builder)
    requires Bound(b)
    ensures Bound(t)
  {
    if !Recognised(line) then b
    else
      var (c, call) := Resolve(b, line.value, line.value.shell.value);
      if call.None? then c else Handle(c, line.value, line.value.shell.value, call.value)
  }

  function Replay(lines: seq<Line>): (b: Builder)
    ensures Bound(b)
  {
    if lines == [] then EMPTY else Feed(Replay(lines[..|lines| - 1]), lines[|lines| - 1])
  }

  // -- Reading the hierarchy ------------------------------------------------------------------

  /** The identifying part of a node, without its retries. */
  function Head(q: Query): Query {
    q.(retries := [])
  }

  /** Heads of a forest in the order of a depth-first visit. */
  function Heads(queries: seq<Query>): seq<Query> {
    if queries == [] then []
    else
      var last := queries[|queries| - 1];
      Heads(queries[..|queries| - 1]) + [Head(last)] + Heads(last.retries)
  }

  function Leaf(q: Query): Query {
    if q.retries == [] then q else Leaf(q.retries[|q.retries| - 1])
  }

  function Leaves(queries: seq<Query>): seq<Query> {
    seq(|queries|, k requires 0 <= k < |queries| => Leaf(queries[k]))
  }

  function ShellIds(b: Builder, order: seq<string>): seq<string>
    requires forall id <- order :: id in b.calls
  {
    if order == [] then []
    else ShellIds(b, order[..|order| - 1]) + b.calls[order[|order| - 1]].shells
  }

  function Roots(b: Builder, ids: seq<string>): seq<Query>
    requires forall sh <- ids :: sh in b.shells
  {
    if ids == [] then [] else Roots(b, ids[..|ids| - 1]) + b.shells[ids[|ids| - 1]].queries
  }

  // -- Which events become nodes ----------------------------------------------------------------

  /** This line adds one node to shell `sh`. */
  predicate AddsQuery(b: Builder, line: Line, sh: string) {
    && Recognised(line) && line.value.shell == Some(sh)
    && (line.value.kind == Some(QueryDiscovered) || line.value.kind == Some(QueryRetried))
    && Resolve(b, line.value, sh).1.Some?
    && QueryAccepted(Resolve(b, line.value, sh).0, line.value, sh)
  }

  /** The accepted query events of one shell, in event order. */
  function AcceptedFor(lines: seq<Line>, sh: string): seq<Query> {
    if lines == [] then []
    else
      var n := |lines| - 1;
      var b := Replay(lines[..n]);
      AcceptedFor(lines[..n], sh) + AddedQuery(b, lines[n], sh)
  }

  function AddedQuery(b: Builder, line: Line, sh: string): seq<Query> {
    if AddsQuery(b, line, sh)
    then [QueryOf(line.value, sh, line.value.kind == Some(QueryRetried), b.counter + 1)] else []
  }

  /** This line opens shell `sh`. */
  predicate StartsShell(b: Builder, line: Line, sh: string) {
    && Recognised(line) && line.value.shell == Some(sh) && line.value.kind == Some(ShellStarted)
    && Resolve(b, line.value, sh).1.Some?
    && StartAccepted(b, line.value, sh)
  }

  // -- Trees ------------------------------------------------------------------------------------

  /** A query and its retries form a chain in increasing sequence order. */
  predicate Chain(q: Query) {
    && |q.retries| <= 1
    && (|q.retries| == 1 ==> q.retries[0].retry && q.retries[0].seqNo > q.seqNo && Chain(q.retries[0]))
  }

  predicate Forest(queries: seq<Query>, counter: nat) {
    forall q <- queries :: Chain(q) && !q.retry && Leaf(q).seqNo <= counter
  }

  lemma {:induction false} HeadsOfOneMore(front: seq<Query>, last: Query)
    ensures Heads(front + [last]) == Heads(front) + [Head(last)] + Heads(last.retries)
  {
    assert (front + [last])[..|front|] == front;
  }

  /** Growing the last tree by one node at its end. */
  lemma {:induction false} LastGrows(front: seq<Query>, last: Query, grown: Query, r: Query)
    requires Head(grown) == Head(last) && Heads(grown.retries) == Heads(last.retries) + [r]
    ensures Heads(front + [grown]) == Heads(front + [last]) + [r]
  {
    HeadsOfOneMore(front, grown);
    HeadsOfOneMore(front, last);
  }

  lemma {:induction false} AppendRetryHeads(q: Query, r: Query)
    requires r.retries == []
    ensures Head(AppendRetry(q, r)) == Head(q)
    ensures Heads(AppendRetry(q, r).retries) == Heads(q.retries) + [r]
  {
    var n := |q.retries|;
    if n == 0 {
      HeadsOfOneMore([], r);
    } else {
      var front, last := q.retries[..n - 1], q.retries[n - 1];
      AppendRetryHeads(last, r);
      LastGrows(front, last, AppendRetry(last, r), r);
      assert q.retries == front + [last];
    }
  }

  lemma {:induction false} AddRetryHeads(queries: seq<Query>, r: Query)
    requires queries != [] && r.retries == []
    ensures Heads(AddRetry(queries, r)) == Heads(queries) + [r]
  {
    var n := |queries| - 1;
    AppendRetryHeads(queries[n], r);
    LastGrows(queries[..n], queries[n], AppendRetry(queries[n], r), r);
    assert queries == queries[..n] + [queries[n]];
  }

  lemma {:induction false} AppendRetryChain(q: Query, r: Query)
    requires Chain(q) && r.retries == [] && r.retry && Leaf(q).seqNo < r.seqNo
    ensures Chain(AppendRetry(q, r)) && Leaf(AppendRetry(q, r)) == r && q.seqNo <= Leaf(q).seqNo
    ensures AppendRetry(q, r).seqNo == q.seqNo && AppendRetry(q, r).retry == q.retry
  {
    if q.retries != [] {
      AppendRetryChain(q.retries[0], r);
      assert AppendRetry(q, r).retries == [AppendRetry(q.retries[0], r)];
    }
  }

  /** The live attempt of a chain is its last node, and it has no retry. */
  lemma {:induction false} LeafEndsChain(q: Query)
    requires Chain(q)
    ensures Leaf(q).retries == [] && q.seqNo <= Leaf(q).seqNo
    ensures var heads := Heads([q]); heads[0] == Head(q) && heads[|heads| - 1] == Leaf(q)
    ensures forall k :: 0 <= k < |Heads([q])| ==> (Heads([q])[k].retry <==> k > 0 || q.retry)
    ensures forall i, j :: 0 <= i < j < |Heads([q])| ==> Heads([q])[i].seqNo < Heads([q])[j].seqNo
  {
    assert [q][..0] == [] && Heads([q]) == [Head(q)] + Heads(q.retries);
    if q.retries != [] {
      assert q.retries == [q.retries[0]];
      LeafEndsChain(q.retries[0]);
    }
  }

  // -- Nodes and leaves are exactly the accepted events -------------------------------------------

  ghost predicate ForestInv(b: Builder) {
    forall sh <- b.shells :: Forest(b.shells[sh].queries, b.counter)
  }

  lemma AddQueryForest(b: Builder, e: Event, sh: string)
    requires ForestInv(b) && b.counter > 0
    requires forall x <- b.shells :: Forest(b.shells[x].queries, b.counter - 1)
    requires e.kind == Some(QueryDiscovered) || e.kind == Some(QueryRetried)
    ensures ForestInv(AddQuery(b, e, sh, b.counter))
  {
    if QueryAccepted(b, e, sh) && e.kind.value == QueryRetried {
      var queries := b.shells[sh].queries;
      var n := |queries| - 1;
      assert queries[n] in queries;
      AppendRetryChain(queries[n], QueryOf(e, sh, true, b.counter));
    }
  }

  lemma FeedForest(b: Builder, line: Line)
    requires Bound(b) && ForestInv(b)
    ensures ForestInv(Feed(b, line)) && Feed(b, line).counter >= b.counter
  {
    if Recognised(line) {
      var e, sh := line.value, line.value.shell.value;
      var (c, call) := Resolve(b, e, sh);
      assert c.shells == b.shells && c.counter == b.counter + 1;
      if call.Some? && (e.kind.value == QueryDiscovered || e.kind.value == QueryRetried) {
        AddQueryForest(c, e, sh);
      }
    }
  }

  lemma {:induction false} ReplayForest(lines: seq<Line>)
    ensures ForestInv(Replay(lines))
  {
    if lines != [] {
      ReplayForest(lines[..|lines| - 1]);
      FeedForest(Replay(lines[..|lines| - 1]), lines[|lines| - 1]);
    }
  }

  function QueriesOf(b: Builder, sh: string): seq<Query> {
    if sh in b.shells then b.shells[sh].queries else []
  }

  lemma ResolveKeepsShells(b: Builder, e: Event, sh: string)
    ensures Resolve(b, e, sh).0.shells == b.shells && Resolve(b, e, sh).0.counter == b.counter + 1
  {
  }

  lemma AddQueryHeads(b: Builder, e: Event, sh: string, x: string)
    requires e.kind == Some(QueryDiscovered) || e.kind == Some(QueryRetried)
    ensures Heads(QueriesOf(AddQuery(b, e, sh, b.counter), x)) ==
            Heads(QueriesOf(b, x)) + if x == sh && QueryAccepted(b, e, sh)
              then [QueryOf(e, sh, e.kind == Some(QueryRetried), b.counter)] else []
  {
    if x == sh && QueryAccepted(b, e, sh) {
      var q := QueryOf(e, sh, e.kind == Some(QueryRetried), b.counter);
      var queries := b.shells[sh].queries;
      if e.kind == Some(QueryRetried) {
        AddRetryHeads(queries, q);
      } else {
        assert (queries + [q])[..|queries|] == queries;
      }
    }
  }

  lemma HandleHeads(b: Builder, e: Event, sh: string, call: string, x: string)
    requires call in b.calls && e.kind.Some?
    ensures Heads(QueriesOf(Handle(b, e, sh, call), x)) ==
            Heads(QueriesOf(b, x))
            + if x == sh && (e.kind == Some(QueryDiscovered) || e.kind == Some(QueryRetried)) && QueryAccepted(b, e, sh)
              then [QueryOf(e, sh, e.kind == Some(QueryRetried), b.counter)] else []
  {
    match e.kind.value
    case ShellStarted =>
    case ShellFinished =>
    case _ => AddQueryHeads(b, e, sh, x);
  }

  lemma FeedHeads(b: Builder, line: Line, sh: string)
    requires Bound(b)
    ensures Heads(QueriesOf(Feed(b, line), sh)) == Heads(QueriesOf(b, sh)) + AddedQuery(b, line, sh)
  {
    if Recognised(line) {
      var e, x := line.value, line.value.shell.value;
      ResolveKeepsShells(b, e, x);
      var (c, call) := Resolve(b, e, x);
      if call.Some? {
        HandleHeads(c, e, x, call.value, sh);
      }
    }
  }

  /** None lost, none duplicated: a shell's nodes are its accepted query events, in event order. */
  lemma {:induction false} NodesAreAcceptedEvents(lines: seq<Line>, sh: string)
    ensures Heads(QueriesOf(Replay(lines), sh)) == AcceptedFor(lines, sh)
  {
    if lines != [] {
      NodesAreAcceptedEvents(lines[..|lines| - 1], sh);
      FeedHeads(Replay(lines[..|lines| - 1]), lines[|lines| - 1], sh);
    }
  }

  lemma FeedStarts(b: Builder, line: Line, sh: string)
    requires Bound(b)
    ensures sh in Feed(b, line).shells <==> sh in b.shells || StartsShell(b, line, sh)
  {
    if Recognised(line) {
      ResolveKeepsShells(b, line.value, line.value.shell.value);
    }
  }

  predicate StartedAt(lines: seq<Line>, k: nat, sh: string) {
    k < |lines| && StartsShell(Replay(lines[..k]), lines[k], sh)
  }

  /** A shell exists exactly when an accepted `shell_started` for it has been seen. */
  lemma {:induction false} ShellsAreStartedShells(lines: seq<Line>, sh: string)
    ensures sh in Replay(lines).shells <==> exists k: nat :: StartedAt(lines, k, sh)
  {
    if lines != [] {
      var n := |lines| - 1;
      ShellsAreStartedShells(lines[..n], sh);
      FeedStarts(Replay(lines[..n]), lines[n], sh);
      forall k: nat | k < n ensures StartedAt(lines, k, sh) == StartedAt(lines[..n], k, sh) {
        assert lines[..n][..k] == lines[..k];
      }
      assert StartedAt(lines, n, sh) == StartsShell(Replay(lines[..n]), lines[n], sh);
    }
  }

  /** Query events that come before their shell's start are dropped. */
  lemma EarlyQueriesAreDropped(lines: seq<Line>, sh: string, n: nat)
    requires n < |lines|
    requires forall k: nat | k < n :: !StartedAt(lines, k, sh)
    ensures AcceptedFor(lines[..n + 1], sh) == []
  {
    ShellsAreStartedShells(lines[..n], sh);
    forall k: nat ensures !StartedAt(lines[..n], k, sh) {
      if k < n {
        assert lines[..n][..k] == lines[..k];
        assert !StartedAt(lines, k, sh);
      }
    }
    NodesAreAcceptedEvents(lines[..n], sh);
    if lines[n].Some? { ResolveKeepsShells(Replay(lines[..n]), lines[n].value, sh); }
    assert lines[..n + 1][..n] == lines[..n];
  }

  function CountDiscovered(nodes: seq<Query>): nat {
    if nodes == [] then 0
    else CountDiscovered(nodes[..|nodes| - 1]) + if nodes[|nodes| - 1].retry then 0 else 1
  }

  lemma {:induction false} CountConcat(a: seq<Query>, b: seq<Query>)
    ensures CountDiscovered(a + b) == CountDiscovered(a) + CountDiscovered(b)
  {
    if b == [] {
      assert a + b == a;
    } else {
      assert (a + b)[..|a + b| - 1] == a + b[..|b| - 1];
      CountConcat(a, b[..|b| - 1]);
    }
  }

  lemma {:induction false} RetriesAreNotDiscovered(nodes: seq<Query>)
    requires forall k :: 0 <= k < |nodes| ==> nodes[k].retry
    ensures CountDiscovered(nodes) == 0
  {
    if nodes != [] {
      RetriesAreNotDiscovered(nodes[..|nodes| - 1]);
    }
  }

  lemma {:induction false} OneRootPerDiscovery(queries: seq<Query>, counter: nat)
    requires Forest(queries, counter)
    ensures CountDiscovered(Heads(queries)) == |queries|
  {
    if queries != [] {
      var n := |queries| - 1;
      var q := queries[n];
      OneRootPerDiscovery(queries[..n], counter);
      LeafEndsChain(q);
      assert [q][..0] == [] && Heads([q]) == [Head(q)] + Heads(q.retries);
      assert forall k :: 0 <= k < |Heads(q.retries)| ==> Heads(q.retries)[k] == Heads([q])[k + 1];
      RetriesAreNotDiscovered(Heads(q.retries));
      CountConcat(Heads(queries[..n]), [Head(q)]);
      CountConcat(Heads(queries[..n]) + [Head(q)], Heads(q.retries));
    }
  }

  /** One live leaf per discovered query, each of them the newest node of its chain. */
  lemma {:induction false} LeavesAreChainEnds(lines: seq<Line>, sh: string)
    ensures var queries := QueriesOf(Replay(lines), sh);
            && |Leaves(queries)| == CountDiscovered(AcceptedFor(lines, sh))
            && forall k :: 0 <= k < |queries| ==>
                 && Chain(queries[k]) && Leaves(queries)[k].retries == []
                 && var chain := Heads([queries[k]]); Leaves(queries)[k] == chain[|chain| - 1]
  {
    var queries := QueriesOf(Replay(lines), sh);
    ReplayForest(lines);
    assert Forest(queries, Replay(lines).counter);
    NodesAreAcceptedEvents(lines, sh);
    OneRootPerDiscovery(queries, Replay(lines).counter);
    forall k | 0 <= k < |queries|
      ensures Chain(queries[k]) && Leaves(queries)[k].retries == []
      ensures var chain := Heads([queries[k]]); Leaves(queries)[k] == chain[|chain| - 1]
    {
      assert queries[k] in queries;
      LeafEndsChain(queries[k]);
    }
  }

  // -- Every shell sits under one call ------------------------------------------------------------

  ghost predicate Distinct<T>(xs: seq<T>) {
    forall i, j :: 0 <= i < j < |xs| ==> xs[i] != xs[j]
  }

  ghost predicate ListedOnce(b: Builder) {
    Bound(b) && Distinct(b.callOrder) && (forall id :: id in b.callOrder <==> id in b.calls)
  }

  ghost predicate OwnedShells(b: Builder) {
    && (forall sh <- b.shells :: sh in b.shellCalls)
    && (forall id <- b.calls, sh :: sh in b.calls[id].shells <==> sh in b.shells && b.shellCalls[sh] == id)
    && (forall id <- b.calls :: Distinct(b.calls[id].shells))
  }

  /** Every call is listed once, and every shell sits once under the one call it is bound to. */
  ghost predicate Owned(b: Builder) {
    ListedOnce(b) && OwnedShells(b)
  }

  /** A version 1 shell, seen for the first time, generates the identifier of a call that exists. */
  predicate TakesOver(b: Builder, line: Line) {
    && Recognised(line) && line.value.version == 1
    && line.value.shell.value !in b.shellCalls
    && LegacyId(|b.callOrder| + 1, line.value.shell.value) in b.calls
  }

  lemma {:induction false} ZerosAreWorthless(z: nat, s: string)
    ensures ValueOf(Zeros(z) + s) == ValueOf(s)
  {
    if s != [] {
      assert (Zeros(z) + s)[..z + |s| - 1] == Zeros(z) + s[..|s| - 1];
      ZerosAreWorthless(z, s[..|s| - 1]);
    } else if z > 0 {
      assert (Zeros(z) + s)[..z - 1] == Zeros(z - 1) + s;
      ZerosAreWorthless(z - 1, s);
    }
  }

  lemma Pad4Value(n: nat)
    ensures ValueOf(Pad4(n)) == n
    ensures forall k :: 0 <= k < |Pad4(n)| ==> Pad4(n)[k] != '-'
  {
    DigitsAreDigits(n);
    DigitsValue(n);
    ZerosAreWorthless(if |Digits(n)| < 4 then 4 - |Digits(n)| else 0, Digits(n));
  }

  /** The text before the first dash is determined by the whole. */
  lemma FieldEndsAtDash(p: string, q: string, x: string, y: string)
    requires p + ("-" + x) == q + ("-" + y)
    requires (forall k :: 0 <= k < |p| ==> p[k] != '-') && (forall k :: 0 <= k < |q| ==> q[k] != '-')
    ensures p == q
  {
    var a, b := p + ("-" + x), q + ("-" + y);
    assert a[|p|] == '-' && b[|q|] == '-';
    assert |p| == |q|;
    assert p == a[..|p|] && q == b[..|q|];
  }

  lemma LegacyIdsDiffer(m: nat, n: nat, sh: string, other: string)
    requires LegacyId(m, sh) == LegacyId(n, other)
    ensures m == n
  {
    assert LegacyId(m, sh)[|LEGACY|..] == Pad4(m) + ("-" + sh);
    assert LegacyId(n, other)[|LEGACY|..] == Pad4(n) + ("-" + other);
    Pad4Value(m);
    Pad4Value(n);
    FieldEndsAtDash(Pad4(m), Pad4(n), sh, other);
  }

  function WithCall(b: Builder, id: string, call: Call, sh: string): Builder {
    b.(calls := b.calls[id := call], callOrder := b.callOrder + [id], shellCalls := b.shellCalls[sh := id])
  }

  lemma NewCallListed(b: Builder, id: string, call: Call, sh: string)
    requires ListedOnce(b) && id !in b.calls
    ensures ListedOnce(WithCall(b, id, call, sh))
  {
    var t := WithCall(b, id, call, sh);
    assert forall x :: x in t.callOrder <==> x in b.callOrder || x == id;
  }

  lemma NewCallOwned(b: Builder, id: string, call: Call, sh: string)
    requires Owned(b) && id !in b.calls && call.shells == [] && sh !in b.shellCalls
    ensures OwnedShells(WithCall(b, id, call, sh))
  {
    var t := WithCall(b, id, call, sh);
    assert forall x <- b.shells :: b.shellCalls[x] in b.calls && t.shellCalls[x] == b.shellCalls[x];
  }

  ghost predicate ResolvedOwned(c: Builder, call: Option<string>, sh: string) {
    Owned(c) && (call.Some? ==> call.value in c.calls && sh in c.shellCalls && c.shellCalls[sh] == call.value)
  }

  /** A new call without shells, to which shell `sh`, mentioned for the first time, is bound. */
  lemma NewCallResolved(b: Builder, id: string, call: Call, sh: string)
    requires Owned(b) && id !in b.calls && call.shells == [] && sh !in b.shellCalls
    ensures ResolvedOwned(WithCall(b, id, call, sh), Some(id), sh)
  {
    NewCallListed(b, id, call, sh);
    NewCallOwned(b, id, call, sh);
  }

  lemma LegacyCallResolved(b: Builder, e: Event, sh: string, seqNo: nat)
    requires Owned(b) && e.version == 1 && (sh in b.shellCalls || LegacyId(|b.callOrder| + 1, sh) !in b.calls)
    ensures ResolvedOwned(CallFor(b, e, sh, seqNo).0, CallFor(b, e, sh, seqNo).1, sh)
  {
    if sh !in b.shellCalls {
      var id := LegacyId(|b.callOrder| + 1, sh);
      NewCallResolved(b, id, Call(id, None, None, seqNo, []), sh);
    }
  }

  lemma NamedCallResolved(b: Builder, e: Event, sh: string, seqNo: nat)
    requires Owned(b) && e.version == 2
    ensures ResolvedOwned(CallFor(b, e, sh, seqNo).0, CallFor(b, e, sh, seqNo).1, sh)
  {
    var (c, call) := CallFor(b, e, sh, seqNo);
    if call.Some? {
      var id := call.value;
      if sh in b.shellCalls {
        assert c.shellCalls == b.shellCalls;
      } else if id !in b.calls {
        NewCallResolved(b, id, Call(id, e.index, e.script, seqNo, []), sh);
      } else {
        BindKeepsOwned(b, sh, id);
      }
    }
  }

  lemma CountingKeepsOwned(b: Builder, n: nat)
    requires Owned(b)
    ensures Owned(b.(counter := n))
  {
  }

  lemma ResolveOwned(b: Builder, e: Event, sh: string)
    requires Owned(b) && (e.version == 1 || e.version == 2)
    requires e.version == 1 ==> sh in b.shellCalls || LegacyId(|b.callOrder| + 1, sh) !in b.calls
    ensures ResolvedOwned(Resolve(b, e, sh).0, Resolve(b, e, sh).1, sh)
  {
    var counted := b.(counter := b.counter + 1);
    CountingKeepsOwned(b, b.counter + 1);
    CallResolved(counted, e, sh, b.counter + 1);
    assert Resolve(b, e, sh) == CallFor(counted, e, sh, b.counter + 1);
  }

  lemma CallResolved(b: Builder, e: Event, sh: string, seqNo: nat)
    requires Owned(b) && (e.version == 1 || e.version == 2)
    requires e.version == 1 ==> sh in b.shellCalls || LegacyId(|b.callOrder| + 1, sh) !in b.calls
    ensures ResolvedOwned(CallFor(b, e, sh, seqNo).0, CallFor(b, e, sh, seqNo).1, sh)
  {
    if e.version == 1 {
      LegacyCallResolved(b, e, sh, seqNo);
    } else {
      NamedCallResolved(b, e, sh, seqNo);
    }
  }

  lemma BindKeepsOwned(b: Builder, sh: string, call: string)
    requires Owned(b) && call in b.calls && sh !in b.shellCalls
    ensures Owned(b.(shellCalls := b.shellCalls[sh := call]))
  {
  }

  lemma AddShellOwned(b: Builder, shell: Shell, sh: string, call: string)
    requires Owned(b) && call in b.calls && sh in b.shellCalls && b.shellCalls[sh] == call && sh !in b.shells
    ensures OwnedShells(b.(shells := b.shells[sh := shell],
                           calls := b.calls[call := b.calls[call].(shells := b.calls[call].shells + [sh])]))
  {
    var was := b.calls[call].shells;
    assert sh !in was;
    assert Distinct(was + [sh]);
    assert forall x :: x in was + [sh] <==> x in was || x == sh;
  }

  lemma StartShellOwned(b: Builder, e: Event, sh: string, call: string)
    requires Owned(b) && call in b.calls && sh in b.shellCalls && b.shellCalls[sh] == call
    ensures Owned(StartShell(b, e, sh, call, b.counter))
  {
    if StartAccepted(b, e, sh) {
      AddShellOwned(b, StartShell(b, e, sh, call, b.counter).shells[sh], sh, call);
    }
  }

  lemma SameShellsOwned(b: Builder, t: Builder)
    requires Owned(b) && t == b.(shells := t.shells) && t.shells.Keys == b.shells.Keys
    ensures Owned(t)
  {
    assert forall sh :: sh in t.shells <==> sh in b.shells;
  }

  lemma FeedOwned(b: Builder, line: Line)
    requires Owned(b) && !TakesOver(b, line)
    ensures Owned(Feed(b, line))
  {
    if Recognised(line) {
      var e, sh := line.value, line.value.shell.value;
      ResolveOwned(b, e, sh);
      var (c, call) := Resolve(b, e, sh);
      if call.Some? {
        HandleOwned(c, e, sh, call.value);
        assert Feed(b, line) == Handle(c, e, sh, call.value);
      }
    }
  }

  lemma HandleKeepsOrder(c: Builder, e: Event, sh: string, call: string)
    requires call in c.calls && e.kind.Some?
    ensures Handle(c, e, sh, call).callOrder == c.callOrder
  {
  }

  /** The call that is taken over is listed a second time. */
  lemma TakingOverListsTwice(b: Builder, line: Line)
    requires Owned(b) && TakesOver(b, line)
    ensures !Distinct(Feed(b, line).callOrder)
  {
    var e, sh := line.value, line.value.shell.value;
    var id := LegacyId(|b.callOrder| + 1, sh);
    var (c, call) := Resolve(b, e, sh);
    assert c.callOrder == b.callOrder + [id] && id in b.callOrder;
    HandleKeepsOrder(c, e, sh, id);
    assert Feed(b, line) == Handle(c, e, sh, id);
    var i :| 0 <= i < |b.callOrder| && b.callOrder[i] == id;
    assert Feed(b, line).callOrder[i] == Feed(b, line).callOrder[|b.callOrder|];
  }

  /** An event keeps every shell under one call exactly when it takes over no call. */
  lemma OwnedExactly(b: Builder, line: Line)
    requires Owned(b)
    ensures Owned(Feed(b, line)) <==> !TakesOver(b, line)
  {
    if TakesOver(b, line) { TakingOverListsTwice(b, line); } else { FeedOwned(b, line); }
  }

  lemma CallsOnlyAppended(b: Builder, line: Line)
    requires Bound(b)
    ensures b.callOrder <= Feed(b, line).callOrder
  {
    if Recognised(line) {
      var e, sh := line.value, line.value.shell.value;
      var (c, call) := Resolve(b, e, sh);
      assert b.callOrder <= c.callOrder;
      if call.Some? { HandleKeepsOrder(c, e, sh, call.value); }
    }
  }

  predicate NeverTakesOver(lines: seq<Line>) {
    lines == [] ||
    var before := lines[..|lines| - 1];
    NeverTakesOver(before) && !TakesOver(Replay(before), lines[|lines| - 1])
  }

  /** In any stream every shell sits under exactly one call, once, exactly when no event takes over a call. */
  lemma {:induction false} EveryShellHasOneCall(lines: seq<Line>)
    ensures Owned(Replay(lines)) <==> NeverTakesOver(lines)
    ensures !NeverTakesOver(lines) ==> !Distinct(Replay(lines).callOrder)
  {
    if lines != [] {
      var before, last := lines[..|lines| - 1], lines[|lines| - 1];
      EveryShellHasOneCall(before);
      if NeverTakesOver(before) {
        OwnedExactly(Replay(before), last);
        if TakesOver(Replay(before), last) { TakingOverListsTwice(Replay(before), last); }
      } else {
        CallsOnlyAppended(Replay(before), last);
        StaysRepeated(Replay(before).callOrder, Replay(lines).callOrder);
      }
    }
  }

  lemma StaysRepeated(xs: seq<string>, ys: seq<string>)
    requires xs <= ys && !Distinct(xs)
    ensures !Distinct(ys)
  {
    var i, j :| 0 <= i < j < |xs| && xs[i] == xs[j];
    assert ys[i] == ys[j];
  }

  lemma HandleOwned(c: Builder, e: Event, sh: string, call: string)
    requires ResolvedOwned(c, Some(call), sh) && e.kind.Some?
    ensures Owned(Handle(c, e, sh, call))
  {
    match e.kind.value
    case ShellStarted => StartShellOwned(c, e, sh, call);
    case ShellFinished => SameShellsOwned(c, FinishShell(c, e, sh));
    case _ => SameShellsOwned(c, AddQuery(c, e, sh, c.counter));
  }

  // -- Streams whose version 2 events name no `legacy-` call ------------------------------------------

  /** Not a generated identifier, or one generated when there were fewer than `n` calls. */
  ghost predicate KnownId(id: string, n: nat) {
    LEGACY <= id ==> exists k, sh :: 1 <= k <= n && id == LegacyId(k, sh)
  }

  ghost predicate KnownIds(b: Builder) {
    forall id <- b.calls :: KnownId(id, |b.callOrder|)
  }

  predicate NamesNoLegacyCall(line: Line) {
    line.Some? && line.value.version == 2 && line.value.callId.Some? ==> !(LEGACY <= line.value.callId.value)
  }

  lemma FreshLegacyId(b: Builder, sh: string)
    requires KnownIds(b)
    ensures LegacyId(|b.callOrder| + 1, sh) !in b.calls
  {
    var id := LegacyId(|b.callOrder| + 1, sh);
    assert id[..|LEGACY|] == LEGACY;
    if id in b.calls {
      var n, other :| 1 <= n <= |b.callOrder| && id == LegacyId(n, other);
      LegacyIdsDiffer(|b.callOrder| + 1, n, sh, other);
    }
  }

  lemma KnownIdWeakens(id: string, m: nat, n: nat)
    requires KnownId(id, m) && m <= n
    ensures KnownId(id, n)
  {
    if LEGACY <= id {
      var k, sh :| 1 <= k <= m && id == LegacyId(k, sh);
      assert 1 <= k <= n;
    }
  }

  lemma NewIdKnown(b: Builder, id: string, call: Call, sh: string)
    requires KnownIds(b) && KnownId(id, |b.callOrder| + 1)
    ensures KnownIds(WithCall(b, id, call, sh))
  {
    var t := WithCall(b, id, call, sh);
    forall x <- t.calls ensures KnownId(x, |t.callOrder|) {
      if x != id { KnownIdWeakens(x, |b.callOrder|, |t.callOrder|); }
    }
  }

  lemma CallForKnown(b: Builder, e: Event, sh: string, seqNo: nat)
    requires KnownIds(b) && (e.version == 2 && e.callId.Some? ==> !(LEGACY <= e.callId.value))
    requires e.version == 1 || e.version == 2
    ensures KnownIds(CallFor(b, e, sh, seqNo).0)
  {
    if e.version == 1 && sh !in b.shellCalls {
      var id := LegacyId(|b.callOrder| + 1, sh);
      NewIdKnown(b, id, Call(id, None, None, seqNo, []), sh);
    } else if e.version == 2 && HasCallFields(e) && e.callId.value !in b.calls {
      NewIdKnown(b, e.callId.value, Call(e.callId.value, e.index, e.script, seqNo, []), sh);
    }
  }

  lemma FeedKnown(b: Builder, line: Line)
    requires Bound(b) && KnownIds(b) && NamesNoLegacyCall(line)
    ensures KnownIds(Feed(b, line)) && !TakesOver(b, line)
  {
    if Recognised(line) {
      var e, sh := line.value, line.value.shell.value;
      CallForKnown(b.(counter := b.counter + 1), e, sh, b.counter + 1);
      FreshLegacyId(b, sh);
      var (c, call) := Resolve(b, e, sh);
      if call.Some? { HandleKeepsOrder(c, e, sh, call.value); }
    }
  }

  /** The runner's own identifiers never clash with generated ones. */
  lemma {:induction false} UnnamedNeverTakesOver(lines: seq<Line>)
    requires forall line <- lines :: NamesNoLegacyCall(line)
    ensures KnownIds(Replay(lines)) && NeverTakesOver(lines)
  {
    if lines != [] {
      UnnamedNeverTakesOver(lines[..|lines| - 1]);
      FeedKnown(Replay(lines[..|lines| - 1]), lines[|lines| - 1]);
    }
  }

  function StartEvent(version: int, sh: string, callId: Option<string>): Event {
    Event(version, Some(ShellStarted), Some(sh), callId, Some(1), Some("run.py"), Some("initial"),
          None, None, None, None, None)
  }

  const LOOKALIKE := "legacy-0002-s"

  lemma LookalikeId()
    ensures LegacyId(2, "s") == LOOKALIKE
  {
    assert Digits(2) == "2" && Zeros(3) == "000";
  }

  lemma LookalikeStarts() returns (b: Builder)
    ensures b == Replay([Some(StartEvent(2, "a", Some(LOOKALIKE)))])
    ensures b.callOrder == [LOOKALIKE] && b.calls.Keys == {LOOKALIKE}
    ensures b.shells.Keys == {"a"} && b.shellCalls.Keys == {"a"}
  {
    var line := Some(StartEvent(2, "a", Some(LOOKALIKE)));
    assert [line][..0] == [] && Replay([]) == EMPTY;
    b := Feed(EMPTY, line);
  }

  /** Without that condition it fails: a version 1 shell can take over a call that was named to look like it. */
  lemma NamedLegacyCallIsTakenOver()
    ensures var b := Replay([Some(StartEvent(2, "a", Some(LOOKALIKE))), Some(StartEvent(1, "s", None))]);
            "a" in b.shells && forall id <- b.calls :: "a" !in b.calls[id].shells
  {
    var first, second := Some(StartEvent(2, "a", Some(LOOKALIKE))), Some(StartEvent(1, "s", None));
    assert [first, second][..1] == [first];
    var b := LookalikeStarts();
    LookalikeId();
    var c := Resolve(b, second.value, "s").0;
    assert c.calls == b.calls[LOOKALIKE := Call(LOOKALIKE, None, None, b.counter + 1, [])];
    assert Replay([first, second]) == StartShell(c, second.value, "s", LOOKALIKE, c.counter);
  }

  // -- The whole hierarchy ------------------------------------------------------------------------

  lemma {:induction false} ShellIdsAreDistinct(b: Builder, order: seq<string>)
    requires Owned(b) && Distinct(order) && forall id <- order :: id in b.calls
    ensures Distinct(ShellIds(b, order))
    ensures forall sh :: sh in ShellIds(b, order) <==> sh in b.shells && b.shellCalls[sh] in order
  {
    if order != [] {
      var n := |order| - 1;
      ShellIdsAreDistinct(b, order[..n]);
      var before, last := ShellIds(b, order[..n]), b.calls[order[n]].shells;
      assert order[n] !in order[..n];
      forall i, j | 0 <= i < |before| && 0 <= j < |last| ensures before[i] != last[j] {
        assert before[i] in before && last[j] in last;
      }
    }
  }

  function AcceptedForAll(lines: seq<Line>, ids: seq<string>): seq<Query> {
    if ids == [] then [] else AcceptedForAll(lines, ids[..|ids| - 1]) + AcceptedFor(lines, ids[|ids| - 1])
  }

  lemma {:induction false} HeadsConcat(a: seq<Query>, b: seq<Query>)
    ensures Heads(a + b) == Heads(a) + Heads(b)
  {
    if b == [] {
      assert a + b == a;
    } else {
      assert (a + b)[..|a + b| - 1] == a + b[..|b| - 1];
      HeadsConcat(a, b[..|b| - 1]);
    }
  }

  lemma {:induction false} RootsHoldAccepted(lines: seq<Line>, ids: seq<string>)
    requires forall sh <- ids :: sh in Replay(lines).shells
    ensures Heads(Roots(Replay(lines), ids)) == AcceptedForAll(lines, ids)
  {
    if ids != [] {
      var n := |ids| - 1;
      RootsHoldAccepted(lines, ids[..n]);
      NodesAreAcceptedEvents(lines, ids[n]);
      HeadsConcat(Roots(Replay(lines), ids[..n]), Replay(lines).shells[ids[n]].queries);
    }
  }

  /** The visit of the whole hierarchy lists every accepted query event of every started shell exactly once. */
  lemma {:induction false} QueryNodesAreTheAcceptedEvents(lines: seq<Line>)
    requires NeverTakesOver(lines)
    ensures var b := Replay(lines);
            && (forall id <- b.callOrder :: id in b.calls)
            && var ids := ShellIds(b, b.callOrder);
               && Distinct(ids) && (forall sh :: sh in ids <==> sh in b.shells)
               && Heads(Roots(b, ids)) == AcceptedForAll(lines, ids)
  {
    EveryShellHasOneCall(lines);
    var b := Replay(lines);
    ShellIdsAreDistinct(b, b.callOrder);
    RootsHoldAccepted(lines, ShellIds(b, b.callOrder));
  }

  /** Every listed call and shell exists, whatever the stream. */
  predicate Listed(b: Builder) {
    && (forall id <- b.callOrder :: id in b.calls)
    && (forall id <- b.calls :: forall sh <- b.calls[id].shells :: sh in b.shells)
  }

  predicate AllIn(b: Builder, ids: seq<string>) {
    forall sh <- ids :: sh in b.shells
  }

  lemma {:induction false} RootsSnoc(b: Builder, ids: seq<string>, sh: string)
    requires AllIn(b, ids) && sh in b.shells
    ensures AllIn(b, ids + [sh]) && Roots(b, ids + [sh]) == Roots(b, ids) + b.shells[sh].queries
  {
    assert (ids + [sh])[..|ids|] == ids;
  }

  lemma CallForListed(b: Builder, e: Event, sh: string, seqNo: nat)
    requires Listed(b)
    ensures Listed(CallFor(b, e, sh, seqNo).0)
  {
  }

  lemma HandleListed(b: Builder, e: Event, sh: string, call: string)
    requires Listed(b) && call in b.calls && e.kind.Some?
    ensures Listed(Handle(b, e, sh, call))
  {
    match e.kind.value
    case ShellStarted =>
    case ShellFinished =>
    case _ => assert AddQuery(b, e, sh, b.counter).shells.Keys == b.shells.Keys;
  }

  lemma {:induction false} ReplayListed(lines: seq<Line>)
    ensures Listed(Replay(lines))
  {
    if lines != [] {
      var n := |lines| - 1;
      ReplayListed(lines[..n]);
      FeedListed(Replay(lines[..n]), lines[n]);
    }
  }

  lemma FeedListed(b: Builder, line: Line)
    requires Bound(b) && Listed(b)
    ensures Listed(Feed(b, line))
  {
    if Recognised(line) {
      var e, sh := line.value, line.value.shell.value;
      CallForListed(b.(counter := b.counter + 1), e, sh, b.counter + 1);
      var (c, call) := Resolve(b, e, sh);
      if call.Some? {
        HandleListed(c, e, sh, call.value);
        assert Feed(b, line) == Handle(c, e, sh, call.value);
      }
    }
  }

  // -- The builder object -------------------------------------------------------------------------

  class HierarchyBuilder {
    var shells: map<string, Shell>
    var shellCalls: map<string, string>
    var calls: map<string, Call>
    var callOrder: seq<string>
    var counter: nat

    function Value(): Builder
      reads this
    {
      Builder(shells, shellCalls, calls, callOrder, counter)
    }

    constructor ()
      ensures Value() == EMPTY
    {
      shells, shellCalls, calls, callOrder, counter := map[], map[], map[], [], 0;
    }

    method FeedLine(line: Line)
      requires Bound(Value())
      modifies this
      ensures Bound(Value()) && Value() == Feed(old(Value()), line)
    {
      if line.None? { return; }
      var e := line.value;
      if e.version != 1 && e.version != 2 { return; }
      if e.kind.None? || !NonEmpty(e.shell) { return; }
      counter := counter + 1;
      var call := CallForEvent(e, e.shell.value, counter);
      assert (Value(), call) == Resolve(old(Value()), e, e.shell.value);
      if call.None? { return; }
      assert call.value in calls;
      HandleEvent(call.value, e.shell.value, e);
      assert Value() == Feed(old(Value()), line);
    }

    method HandleEvent(call: string, sh: string, e: Event)
      requires call in calls && e.kind.Some?
      modifies this
      ensures Value() == Handle(old(Value()), e, sh, call)
    {
      match e.kind.value
      case ShellStarted => HandleShellStarted(call, sh, e, counter);
      case ShellFinished => HandleShellFinished(sh, e);
      case _ => HandleQuery(sh, e, counter);
    }

    method CallForEvent(e: Event, sh: string, seqNo: nat) returns (call: Option<string>)
      modifies this
      ensures (Value(), call) == CallFor(old(Value()), e, sh, seqNo)
    {
      if e.version == 1 {
        if sh in shellCalls { return Some(shellCalls[sh]); }
        var id := LegacyId(|callOrder| + 1, sh);
        calls := calls[id := Call(id, None, None, seqNo, [])];
        callOrder := callOrder + [id];
        shellCalls := shellCalls[sh := id];
        return Some(id);
      }
      if !HasCallFields(e) { return None; }
      var id := e.callId.value;
      if sh in shellCalls && shellCalls[sh] != id { return None; }
      if id !in calls {
        calls := calls[id := Call(id, e.index, e.script, seqNo, [])];
        callOrder := callOrder + [id];
      } else if calls[id].index != e.index || calls[id].script != e.script {
        return None;
      }
      shellCalls := shellCalls[sh := id];
      return Some(id);
    }

    method HandleShellStarted(call: string, sh: string, e: Event, seqNo: nat)
      requires call in calls
      modifies this
      ensures Value() == StartShell(old(Value()), e, sh, call, seqNo)
    {
      if sh in shells { return; }
      var relation := "unknown_legacy";
      if e.version == 2 {
        if e.relation != Some("initial") && e.relation != Some("orchestrator_pool_fallback") { return; }
        relation := e.relation.value;
      }
      shells := shells[sh := Shell(sh, OrElse(e.pool, ""), relation, seqNo, e.ts, None, None, [])];
      calls := calls[call := calls[call].(shells := calls[call].shells + [sh])];
    }

    method HandleShellFinished(sh: string, e: Event)
      modifies this
      ensures Value() == FinishShell(old(Value()), e, sh)
    {
      if sh in shells {
        shells := shells[sh := shells[sh].(returncode := e.returncode, finishedAt := e.ts)];
      }
    }

    method HandleQuery(sh: string, e: Event, seqNo: nat)
      requires e.kind == Some(QueryDiscovered) || e.kind == Some(QueryRetried)
      modifies this
      ensures Value() == AddQuery(old(Value()), e, sh, seqNo)
    {
      if !NonEmpty(e.base) || !NonEmpty(e.queryId) || sh !in shells { return; }
      var queries := shells[sh].queries;
      if e.kind.value == QueryDiscovered {
        queries := queries + [QueryOf(e, sh, false, seqNo)];
      } else {
        if queries == [] { return; }
        queries := AddRetry(queries, QueryOf(e, sh, true, seqNo));
      }
      shells := shells[sh := shells[sh].(queries := queries)];
    }

    /** The queries to poll, in the order of a walk over calls, shells and statements. */
    method LeafQueries() returns (leaves: seq<Query>)
      requires Listed(Value())
      ensures forall sh <- ShellIds(Value(), callOrder) :: sh in shells
      ensures leaves == Leaves(Roots(Value(), ShellIds(Value(), callOrder)))
    {
      leaves := [];
      ghost var b, ids := Value(), [];
      for i := 0 to |callOrder|
        invariant ids == ShellIds(b, callOrder[..i]) && AllIn(b, ids)
        invariant leaves == Leaves(Roots(b, ids))
      {
        assert callOrder[..i + 1][..i] == callOrder[..i];
        leaves := CallLeaves(ids, calls[callOrder[i]].shells, leaves);
        ids := ids + b.calls[callOrder[i]].shells;
      }
      assert callOrder[..|callOrder|] == callOrder;
    }

    method CallLeaves(ghost ids: seq<string>, owned: seq<string>, before: seq<Query>) returns (leaves: seq<Query>)
      requires AllIn(Value(), ids) && AllIn(Value(), owned) && before == Leaves(Roots(Value(), ids))
      ensures AllIn(Value(), ids + owned) && leaves == Leaves(Roots(Value(), ids + owned))
    {
      ghost var b, so := Value(), ids;
      leaves := before;
      for j := 0 to |owned|
        invariant so == ids + owned[..j] && AllIn(b, so) && leaves == Leaves(Roots(b, so))
      {
        assert owned[j] in owned;
        RootsSnoc(b, so, owned[j]);
        leaves := ShellLeaves(Roots(b, so), shells[owned[j]].queries, leaves);
        so := so + [owned[j]];
        assert owned[..j + 1] == owned[..j] + [owned[j]];
      }
      assert owned[..|owned|] == owned;
    }

    static method ShellLeaves(ghost roots: seq<Query>, queries: seq<Query>, before: seq<Query>)
      returns (leaves: seq<Query>)
      requires before == Leaves(roots)
      ensures leaves == Leaves(roots + queries)
    {
      leaves := before;
      for k := 0 to |queries|
        invariant leaves == Leaves(roots + queries[..k])
      {
        leaves := leaves + [Leaf(queries[k])];
      }
      assert queries[..|queries|] == queries;
    }
  }
}
