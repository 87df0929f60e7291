/**
 The per-coordinator circuit breaker of the monitor's HTTP client and the fetch loop that consults
 it. Time is a stream of clock readings; every request has an arbitrary outcome.
 */
module CircuitBreaker {
  import opened Basics

  datatype Config = Config(threshold: nat, cooldown: real)

  /**
   `failures`: consecutive failures; `openedAt`: when the breaker opened; `probing`: hosts whose one half-open
   probe is out.
   */
  datatype Breaker = Breaker(failures: map<string, nat>, openedAt: map<string, real>, probing: set<string>)

  const CLOSED := Breaker(map[], map[], {})

  function Count(b: Breaker, host: string): nat {
    if host in b.failures then b.failures[host] else 0
  }

  function Allow(cfg: Config, b: Breaker, host: string, now: real): (Breaker, bool) {
    if host !in b.openedAt then (b, true)
    else if now - b.openedAt[host] < cfg.cooldown || host in b.probing then (b, false)
    else (b.(probing := b.probing + {host}), true)
  }

  function RecordSuccess(b: Breaker, host: string): Breaker {
    Breaker(b.failures[host := 0], b.openedAt - {host}, b.probing - {host})
  }

  function RecordFailure(cfg: Config, b: Breaker, host: string, now: real): Breaker {
    var count := Count(b, host) + 1;
    Breaker(b.failures[host := count],
            if count >= cfg.threshold then b.openedAt[host := now] else b.openedAt,
            b.probing - {host})
  }

  // -- The breaker and the fetch loop ----------------------------------------------------------------

  class Circuit {
    const cfg: Config
    var failures: map<string, nat>
    var openedAt: map<string, real>
    var probing: set<string>

    constructor (cfg: Config)
      ensures this.cfg == cfg && State() == CLOSED
    {
      this.cfg := cfg;
      failures, openedAt, probing := map[], map[], {};
    }

    function State(): Breaker
      reads this
    {
      Breaker(failures, openedAt, probing)
    }

    method IsOpen(host: string, now: real) returns (open: bool)
      modifies this
      ensures (State(), !open) == Allow(cfg, old(State()), host, now)
    {
      if host !in openedAt { return false; }
      if now - openedAt[host] < cfg.cooldown { return true; }
      if host in probing { return true; }
      probing := probing + {host};
      return false;
    }

    method Succeeded(host: string)
      modifies this
      ensures State() == RecordSuccess(old(State()), host)
    {
      failures := failures[host := 0];
      openedAt := openedAt - {host};
      probing := probing - {host};
    }

    method Failed(host: string, now: real)
      modifies this
      ensures State() == RecordFailure(cfg, old(State()), host, now)
    {
      probing := probing - {host};
      var count := (if host in failures then failures[host] else 0) + 1;
      failures := failures[host := count];
      if count >= cfg.threshold { openedAt := openedAt[host := now]; }
    }
  }

  datatype Outcome = Raises | Status(code: nat)

  /** Server errors and redirects count as failures; a redirect is not retried. */
  predicate Failure(o: Outcome) {
    o.Raises? || o.code >= 500 || 300 <= o.code < 400
  }

  predicate Retried(o: Outcome) {
    o.Raises? || o.code >= 500
  }

  datatype Request = Request(host: string, start: real, end: real, failed: bool)

  /** `tick` counts clock readings; `requests` is everything sent so far. */
  datatype World = World(breaker: Breaker, tick: nat, requests: seq<Request>)

  /** One request and what the breaker records about it. */
  function Send(cfg: Config, w: World, host: string, clock: nat -> real, outcome: Outcome): World {
    var start, end := clock(w.tick), clock(w.tick + 1);
    World(if Failure(outcome) then RecordFailure(cfg, w.breaker, host, end) else RecordSuccess(w.breaker, host),
          w.tick + 2,
          w.requests + [Request(host, start, end, Failure(outcome))])
  }

  /** The attempts that are left, each behind the breaker. */
  function FetchFrom(cfg: Config, w: World, host: string, clock: nat -> real, outcomes: nat -> Outcome,
      left: nat): (World, Option<nat>)
    decreases left, 1
  {
    if left == 0 then (w, None)
    else
      var v := Ask(cfg, w, host, clock);
      if Allow(cfg, w.breaker, host, clock(w.tick)).1 then Granted(cfg, v, host, clock, outcomes, left) else (v, None)
  }

  function Ask(cfg: Config, w: World, host: string, clock: nat -> real): World {
    World(Allow(cfg, w.breaker, host, clock(w.tick)).0, w.tick + 1, w.requests)
  }

  /** An attempt the breaker has let through, and what follows it. */
  function Granted(cfg: Config, v: World, host: string, clock: nat -> real, outcomes: nat -> Outcome,
      left: nat): (World, Option<nat>)
    requires left > 0
    decreases left, 0
  {
    var outcome := outcomes(|v.requests|);
    var u := Send(cfg, v, host, clock, outcome);
    if Retried(outcome) then FetchFrom(cfg, u, host, clock, outcomes, left - 1)
    else (u, if Failure(outcome) then None else Some(outcome.code))
  }

  /** A call for a host outside the allowlist, or for a URL that cancels queries, sends nothing. */
  datatype Call = Call(host: string, allowed: bool, cancels: bool)

  function Fetch(cfg: Config, w: World, call: Call, clock: nat -> real, outcomes: nat -> Outcome,
      maxRetries: nat): (World, Option<nat>) {
    if !call.allowed || call.cancels then (w, None)
    else FetchFrom(cfg, w, call.host, clock, outcomes, maxRetries + 1)
  }

  method SendOne(circuit: Circuit, host: string, clock: nat -> real, outcome: Outcome, tick0: nat,
      requests0: seq<Request>)
    returns (tick: nat, requests: seq<Request>)
    modifies circuit
    ensures World(circuit.State(), tick, requests)
            == Send(circuit.cfg, World(old(circuit.State()), tick0, requests0), host, clock, outcome)
  {
    var start, end := clock(tick0), clock(tick0 + 1);
    tick, requests := tick0 + 2, requests0 + [Request(host, start, end, Failure(outcome))];
    if outcome.Raises? || outcome.code >= 500 || 300 <= outcome.code < 400 {
      circuit.Failed(host, end);
    } else {
      circuit.Succeeded(host);
    }
  }

  /** One attempt: the breaker is asked unless it has already let it through. `None`: another attempt may follow. */
  function TryOnce(cfg: Config, w: World, granted: bool, host: string, clock: nat -> real, outcomes: nat -> Outcome)
    : (World, Option<Option<nat>>)
  {
    var outcome := outcomes(|w.requests|);
    var v := if granted then w else Ask(cfg, w, host, clock);
    if !granted && !Allow(cfg, w.breaker, host, clock(w.tick)).1 then (v, Some(None))
    else (Send(cfg, v, host, clock, outcome),
          if Retried(outcome) then None else if Failure(outcome) then Some(None) else Some(Some(outcome.code)))
  }

  function Remaining(cfg: Config, w: World, granted: bool, host: string, clock: nat -> real,
      outcomes: nat -> Outcome, left: nat): (World, Option<nat>)
  {
    if granted && left > 0 then Granted(cfg, w, host, clock, outcomes, left)
    else FetchFrom(cfg, w, host, clock, outcomes, left)
  }

  lemma OneByOne(cfg: Config, w: World, granted: bool, host: string, clock: nat -> real,
      outcomes: nat -> Outcome, left: nat, once: (World, Option<Option<nat>>))
    requires left > 0 && once == TryOnce(cfg, w, granted, host, clock, outcomes)
    ensures Remaining(cfg, w, granted, host, clock, outcomes, left) ==
            if once.1.None? then Remaining(cfg, once.0, false, host, clock, outcomes, left - 1)
            else (once.0, once.1.value)
  {
    var v := if granted then w else Ask(cfg, w, host, clock);
    var u := Send(cfg, v, host, clock, outcomes(|v.requests|));
    assert Granted(cfg, v, host, clock, outcomes, left) ==
           if Retried(outcomes(|v.requests|)) then FetchFrom(cfg, u, host, clock, outcomes, left - 1)
           else (u, if Failure(outcomes(|v.requests|)) then None else Some(outcomes(|v.requests|).code));
  }

  method AttemptOnce(circuit: Circuit, granted: bool, host: string, clock: nat -> real, outcomes: nat -> Outcome,
      tick0: nat, requests0: seq<Request>)
    returns (stop: Option<Option<nat>>, tick: nat, requests: seq<Request>)
    modifies circuit
    ensures (World(circuit.State(), tick, requests), stop)
            == TryOnce(circuit.cfg, World(old(circuit.State()), tick0, requests0), granted, host, clock, outcomes)
  {
    tick, requests := tick0, requests0;
    if !granted {
      var open := circuit.IsOpen(host, clock(tick));
      tick := tick + 1;
      if open { return Some(None), tick, requests; }
    }
    var outcome := outcomes(|requests|);
    tick, requests := SendOne(circuit, host, clock, outcome, tick, requests);
    stop := if Retried(outcome) then None else if Failure(outcome) then Some(None) else Some(Some(outcome.code));
  }

  method FetchEnforced(circuit: Circuit, call: Call, clock: nat -> real, outcomes: nat -> Outcome, maxRetries: nat,
      tick0: nat, requests0: seq<Request>)
    returns (result: Option<nat>, tick: nat, requests: seq<Request>)
    modifies circuit
    ensures (World(circuit.State(), tick, requests), result)
            == Fetch(circuit.cfg, World(old(circuit.State()), tick0, requests0), call, clock, outcomes, maxRetries)
  {
    tick, requests := tick0, requests0;
    if !call.allowed || call.cancels { return None, tick, requests; }
    var open := circuit.IsOpen(call.host, clock(tick));
    tick := tick + 1;
    if open { return None, tick, requests; }
    result, tick, requests := Attempts(circuit, call.host, clock, outcomes, maxRetries + 1, tick, requests);
  }

  /** The retry loop; the breaker has let the first attempt through. */
  method Attempts(circuit: Circuit, host: string, clock: nat -> real, outcomes: nat -> Outcome, attempts: nat,
      tick0: nat, requests0: seq<Request>)
    returns (result: Option<nat>, tick: nat, requests: seq<Request>)
    requires attempts > 0
    modifies circuit
    ensures (World(circuit.State(), tick, requests), result) == Remaining(circuit.cfg,
              World(old(circuit.State()), tick0, requests0), true, host, clock, outcomes, attempts)
  {
    tick, requests := tick0, requests0;
    ghost var w := World(circuit.State(), tick, requests);
    for attempt := 0 to attempts
      invariant w == World(circuit.State(), tick, requests)
      invariant Remaining(circuit.cfg, w, attempt == 0, host, clock, outcomes, attempts - attempt)
                == Remaining(circuit.cfg, World(old(circuit.State()), tick0, requests0), true, host, clock, outcomes,
                             attempts)
    {
      ghost var once := TryOnce(circuit.cfg, w, attempt == 0, host, clock, outcomes);
      OneByOne(circuit.cfg, w, attempt == 0, host, clock, outcomes, attempts - attempt, once);
      var stop;
      stop, tick, requests := AttemptOnce(circuit, attempt == 0, host, clock, outcomes, tick, requests);
      if stop.Some? { return stop.value, tick, requests; }
      w := World(circuit.State(), tick, requests);
    }
    return None, tick, requests;
  }

  // -- What holds in every run ----------------------------------------------------------------------------

  /** The run of failures a host's requests end in. */
  function Trailing(requests: seq<Request>, host: string): nat {
    if requests == [] then 0
    else
      var n := |requests| - 1;
      if requests[n].host != host then Trailing(requests[..n], host)
      else if requests[n].failed then Trailing(requests[..n], host) + 1
      else 0
  }

  /** When a host's last request ended. */
  function LastEnd(requests: seq<Request>, host: string): real {
    if requests == [] then 0.0
    else
      var n := |requests| - 1;
      if requests[n].host == host then requests[n].end else LastEnd(requests[..n], host)
  }

  /** After a failure that leaves the breaker open, the host's next request starts a cooldown later at the earliest. */
  predicate Spaced(cfg: Config, requests: seq<Request>) {
    requests == [] ||
    var n := |requests| - 1;
    var last := requests[n];
    && Spaced(cfg, requests[..n])
    && (Trailing(requests[..n], last.host) >= cfg.threshold ==>
          last.start - LastEnd(requests[..n], last.host) >= cfg.cooldown)
  }

  ghost predicate Monotone(clock: nat -> real) {
    forall i: nat, j: nat :: i <= j ==> clock(i) <= clock(j)
  }

  /** The breaker tells the story of the requests. */
  ghost predicate Tells(cfg: Config, b: Breaker, requests: seq<Request>) {
    forall host ::
      && Count(b, host) == Trailing(requests, host)
      && (host in b.openedAt <==> Trailing(requests, host) >= cfg.threshold)
      && (host in b.openedAt ==> b.openedAt[host] == LastEnd(requests, host))
  }

  ghost predicate Inv(cfg: Config, w: World) {
    Tells(cfg, w.breaker, w.requests) && Spaced(cfg, w.requests)
  }

  lemma {:induction false} Snoc(requests: seq<Request>, r: Request, host: string)
    ensures Trailing(requests + [r], host) ==
            if r.host != host then Trailing(requests, host) else if r.failed then Trailing(requests, host) + 1 else 0
    ensures LastEnd(requests + [r], host) == if r.host == host then r.end else LastEnd(requests, host)
  {
    assert (requests + [r])[..|requests|] == requests;
  }

  /** A request that the breaker lets through keeps the story and the spacing. */
  lemma SendKeepsInv(cfg: Config, w: World, host: string, clock: nat -> real, outcome: Outcome)
    requires cfg.threshold >= 1 && Inv(cfg, w)
    requires host in w.breaker.openedAt ==> clock(w.tick) - w.breaker.openedAt[host] >= cfg.cooldown
    ensures Inv(cfg, Send(cfg, w, host, clock, outcome))
  {
    var u := Send(cfg, w, host, clock, outcome);
    var r := u.requests[|w.requests|];
    forall h ensures
        && Count(u.breaker, h) == Trailing(u.requests, h)
        && (h in u.breaker.openedAt <==> Trailing(u.requests, h) >= cfg.threshold)
        && (h in u.breaker.openedAt ==> u.breaker.openedAt[h] == LastEnd(u.requests, h))
    {
      Snoc(w.requests, r, h);
    }
    assert u.requests[..|w.requests|] == w.requests;
  }

  /** Asking takes the probe slot at most, and only a cooldown after the opening. */
  lemma AskKeepsInv(cfg: Config, w: World, host: string, clock: nat -> real)
    requires Monotone(clock) && Inv(cfg, w) && host !in w.breaker.probing
    ensures var v, allowed := Ask(cfg, w, host, clock), Allow(cfg, w.breaker, host, clock(w.tick)).1;
            && Inv(cfg, v) && v.breaker.probing - {host} == w.breaker.probing
            && (!allowed ==> v.breaker == w.breaker)
            && (allowed && host in v.breaker.openedAt ==> clock(v.tick) - v.breaker.openedAt[host] >= cfg.cooldown)
  {
    assert clock(w.tick) <= clock(w.tick + 1);
    var v := Ask(cfg, w, host, clock);
    forall h ensures Count(v.breaker, h) == Trailing(v.requests, h) {
      assert Count(w.breaker, h) == Trailing(w.requests, h);
    }
  }

  /** No call leaves a probe slot taken, although asking the breaker takes it. */
  lemma {:induction false} FetchKeepsInv(cfg: Config, w: World, host: string, clock: nat -> real,
      outcomes: nat -> Outcome, left: nat)
    requires cfg.threshold >= 1 && Monotone(clock) && Inv(cfg, w) && host !in w.breaker.probing
    ensures var v := FetchFrom(cfg, w, host, clock, outcomes, left).0;
            Inv(cfg, v) && v.breaker.probing == w.breaker.probing
    decreases left
  {
    if left > 0 {
      var v := Ask(cfg, w, host, clock);
      AskKeepsInv(cfg, w, host, clock);
      if Allow(cfg, w.breaker, host, clock(w.tick)).1 {
        var outcome := outcomes(|v.requests|);
        SendKeepsInv(cfg, v, host, clock, outcome);
        FetchKeepsInv(cfg, Send(cfg, v, host, clock, outcome), host, clock, outcomes, left - 1);
      }
    }
  }

  /** Other hosts' entries are not touched by a call. */
  predicate SameFor(host: string, a: Breaker, b: Breaker) {
    && Count(a, host) == Count(b, host)
    && (host in a.openedAt <==> host in b.openedAt) && (host in a.openedAt ==> a.openedAt[host] == b.openedAt[host])
    && (host in a.probing <==> host in b.probing)
  }

  lemma {:induction false} HostsAreIndependent(cfg: Config, w: World, host: string, other: string,
      clock: nat -> real, outcomes: nat -> Outcome, left: nat)
    requires host != other
    ensures SameFor(other, w.breaker, FetchFrom(cfg, w, host, clock, outcomes, left).0.breaker)
    decreases left
  {
    if left > 0 {
      var v := Ask(cfg, w, host, clock);
      var u := Send(cfg, v, host, clock, outcomes(|v.requests|));
      HostsAreIndependent(cfg, u, host, other, clock, outcomes, left - 1);
    }
  }

  /** Any sequence of calls by one caller, from a closed breaker. */
  function After(cfg: Config, calls: seq<Call>, clock: nat -> real, outcomes: nat -> Outcome, maxRetries: nat): World {
    if calls == [] then World(CLOSED, 0, [])
    else
      var n := |calls| - 1;
      Fetch(cfg, After(cfg, calls[..n], clock, outcomes, maxRetries), calls[n], clock, outcomes, maxRetries).0
  }

  /**
   In every run: a host's breaker is open exactly when its requests end in `threshold` failures or more, no
   probe slot stays taken between calls, and after a failure that leaves the breaker open the host's next
   request starts a cooldown later at the earliest.
   */
  lemma {:induction false} BreakerInEveryRun(cfg: Config, calls: seq<Call>, clock: nat -> real,
      outcomes: nat -> Outcome, maxRetries: nat)
    requires cfg.threshold >= 1 && Monotone(clock)
    ensures var w := After(cfg, calls, clock, outcomes, maxRetries);
            && w.breaker.probing == {}
            && (forall host :: host in w.breaker.openedAt <==> Trailing(w.requests, host) >= cfg.threshold)
            && Inv(cfg, w)
  {
    if calls != [] {
      var n := |calls| - 1;
      BreakerInEveryRun(cfg, calls[..n], clock, outcomes, maxRetries);
      var w := After(cfg, calls[..n], clock, outcomes, maxRetries);
      FetchKeepsInv(cfg, w, calls[n].host, clock, outcomes, maxRetries + 1);
    }
  }

  // -- What one call sends --------------------------------------------------------------------------------

  /** An exception or a server error: another attempt may follow. */
  predicate Again(o: Outcome) {
    match o
    case Raises => true
    case Status(code) => code >= 500
  }

  /** Neither an error nor a redirect: the caller gets the reply. */
  predicate Usable(o: Outcome) {
    match o
    case Raises => false
    case Status(code) => code < 300 || 400 <= code < 500
  }

  /** Request `k` of a call whose first is `n`: asking the breaker and the request itself read the clock three times. */
  predicate SentAs(r: Request, host: string, clock: nat -> real, tick: nat, o: Outcome) {
    r == Request(host, clock(tick + 1), clock(tick + 2), !Usable(o))
  }

  /** The breaker refuses `host` at this time: it is open, and within the cooldown or with a probe out. */
  predicate Refuses(cfg: Config, b: Breaker, host: string, now: real) {
    host in b.openedAt && (now - b.openedAt[host] < cfg.cooldown || host in b.probing)
  }

  /** So are all requests from `n` on. */
  ghost predicate AllSentAs(requests: seq<Request>, n: nat, host: string, clock: nat -> real, tick: nat,
      outcomes: nat -> Outcome)
  {
    forall k :: n <= k < |requests| ==> SentAs(requests[k], host, clock, tick + 3 * (k - n), outcomes(k))
  }

  /** What a call that may make `left` attempts has sent and returned. */
  ghost predicate CallSent(cfg: Config, w: World, t: World, result: Option<nat>, host: string, clock: nat -> real,
      outcomes: nat -> Outcome, left: nat)
  {
    var n, m := |w.requests|, |t.requests|;
    && n <= m <= n + left && t.requests[..n] == w.requests
    && AllSentAs(t.requests, n, host, clock, w.tick, outcomes)
    && (forall k :: n <= k < m - 1 ==> Again(outcomes(k)))
    && (m < n + left && (m > n ==> Again(outcomes(m - 1))) ==>
          t.tick > 0 && Refuses(cfg, t.breaker, host, clock(t.tick - 1)))
    && result == if m > n && Usable(outcomes(m - 1)) then Some(outcomes(m - 1).code) else None
  }

  /**
   A call sends one request after the other for as long as they fail with an error, attempts are left and the breaker
   does not refuse; it returns the reply of the last one if that is usable.
   */
  lemma {:induction false} WhatACallSends(cfg: Config, w: World, host: string, clock: nat -> real,
      outcomes: nat -> Outcome, left: nat)
    ensures var (t, result) := FetchFrom(cfg, w, host, clock, outcomes, left);
            CallSent(cfg, w, t, result, host, clock, outcomes, left)
    decreases left
  {
    if left > 0 {
      var v := Ask(cfg, w, host, clock);
      if Allow(cfg, w.breaker, host, clock(w.tick)).1 {
        var outcome := outcomes(|w.requests|);
        var u := Send(cfg, v, host, clock, outcome);
        SentOnce(cfg, w, u, host, clock, outcome);
        OnceAllowed(cfg, w, u, host, clock, outcomes, left);
        if Again(outcome) {
          WhatACallSends(cfg, u, host, clock, outcomes, left - 1);
          var (t, result) := FetchFrom(cfg, u, host, clock, outcomes, left - 1);
          OneMoreSent(cfg, w, u, t, result, host, clock, outcomes, left);
        } else {
          LastSent(cfg, w, u, host, clock, outcomes, left);
        }
      } else {
        RefusedAtOnce(cfg, w, host, clock, outcomes, left);
      }
    }
  }

  lemma OnceAllowed(cfg: Config, w: World, u: World, host: string, clock: nat -> real, outcomes: nat -> Outcome,
      left: nat)
    requires left > 0 && Allow(cfg, w.breaker, host, clock(w.tick)).1
    requires u == Send(cfg, Ask(cfg, w, host, clock), host, clock, outcomes(|w.requests|))
    ensures var o := outcomes(|w.requests|);
            FetchFrom(cfg, w, host, clock, outcomes, left) ==
            if Again(o) then FetchFrom(cfg, u, host, clock, outcomes, left - 1)
            else (u, if Usable(o) then Some(o.code) else None)
  {
    var v := Ask(cfg, w, host, clock);
    assert Granted(cfg, v, host, clock, outcomes, left) ==
           if Retried(outcomes(|v.requests|)) then FetchFrom(cfg, u, host, clock, outcomes, left - 1)
           else (u, if Failure(outcomes(|v.requests|)) then None else Some(outcomes(|v.requests|).code));
  }

  lemma LastSent(cfg: Config, w: World, u: World, host: string, clock: nat -> real, outcomes: nat -> Outcome, left: nat)
    requires left > 0 && |u.requests| == |w.requests| + 1 && u.requests[..|w.requests|] == w.requests
    requires SentAs(u.requests[|w.requests|], host, clock, w.tick, outcomes(|w.requests|))
    requires !Again(outcomes(|w.requests|))
    ensures var o := outcomes(|w.requests|);
            CallSent(cfg, w, u, if Usable(o) then Some(o.code) else None, host, clock, outcomes, left)
  {
  }

  lemma {:induction false} RefusedAtOnce(cfg: Config, w: World, host: string, clock: nat -> real,
      outcomes: nat -> Outcome, left: nat)
    requires left > 0 && !Allow(cfg, w.breaker, host, clock(w.tick)).1
    ensures var (t, result) := FetchFrom(cfg, w, host, clock, outcomes, left);
            t.requests == w.requests && CallSent(cfg, w, t, result, host, clock, outcomes, left)
  {
  }

  lemma SentOnce(cfg: Config, w: World, u: World, host: string, clock: nat -> real, outcome: Outcome)
    requires u == Send(cfg, Ask(cfg, w, host, clock), host, clock, outcome)
    ensures |u.requests| == |w.requests| + 1 && u.requests[..|w.requests|] == w.requests && u.tick == w.tick + 3
    ensures SentAs(u.requests[|w.requests|], host, clock, w.tick, outcome)
  {
  }

  lemma OneMoreSent(cfg: Config, w: World, u: World, t: World, result: Option<nat>, host: string, clock: nat -> real,
      outcomes: nat -> Outcome, left: nat)
    requires left > 0 && CallSent(cfg, u, t, result, host, clock, outcomes, left - 1)
    requires |u.requests| == |w.requests| + 1 && u.requests[..|w.requests|] == w.requests && u.tick == w.tick + 3
    requires SentAs(u.requests[|w.requests|], host, clock, w.tick, outcomes(|w.requests|))
    requires Again(outcomes(|w.requests|))
    ensures CallSent(cfg, w, t, result, host, clock, outcomes, left)
  {
    PrefixOn(w.requests, u.requests, t.requests);
    SentBefore(t.requests, |w.requests|, host, clock, w.tick, outcomes);
  }

  lemma PrefixOn(a: seq<Request>, b: seq<Request>, c: seq<Request>)
    requires |b| == |a| + 1 <= |c| && c[..|b|] == b && b[..|a|] == a
    ensures c[..|a|] == a && c[|a|] == b[|a|]
  {
    assert c[..|b|][..|a|] == c[..|a|] && c[..|b|][|a|] == c[|a|];
  }

  lemma SentBefore(requests: seq<Request>, n: nat, host: string, clock: nat -> real, tick: nat,
      outcomes: nat -> Outcome)
    requires n < |requests| && SentAs(requests[n], host, clock, tick, outcomes(n))
    requires AllSentAs(requests, n + 1, host, clock, tick + 3, outcomes)
    ensures AllSentAs(requests, n, host, clock, tick, outcomes)
  {
    forall k | n <= k < |requests| ensures SentAs(requests[k], host, clock, tick + 3 * (k - n), outcomes(k)) {
      if k > n { SameTick(tick, k, n); }
    }
  }

  lemma SameTick(tick: nat, k: nat, n: nat)
    requires n < k
    ensures tick + 3 + 3 * (k - (n + 1)) == tick + 3 * (k - n)
  {
  }

  /**
   In every run, a permitted call sends a request exactly when the host's requests end in fewer failures than the
   threshold, or the last of them ended a cooldown ago.
   */
  lemma {:induction false} CallsGoOut(cfg: Config, calls: seq<Call>, call: Call, clock: nat -> real,
      outcomes: nat -> Outcome, maxRetries: nat)
    requires cfg.threshold >= 1 && Monotone(clock) && call.allowed && !call.cancels
    ensures var w := After(cfg, calls, clock, outcomes, maxRetries);
            |Fetch(cfg, w, call, clock, outcomes, maxRetries).0.requests| > |w.requests| <==>
            || Trailing(w.requests, call.host) < cfg.threshold
            || clock(w.tick) - LastEnd(w.requests, call.host) >= cfg.cooldown
  {
    var w := After(cfg, calls, clock, outcomes, maxRetries);
    BreakerInEveryRun(cfg, calls, clock, outcomes, maxRetries);
    assert Count(w.breaker, call.host) == Trailing(w.requests, call.host);
    FirstGoesOut(cfg, w, call.host, clock, outcomes, maxRetries + 1);
  }

  lemma {:induction false} FirstGoesOut(cfg: Config, w: World, host: string, clock: nat -> real,
      outcomes: nat -> Outcome, left: nat)
    requires left > 0
    ensures |FetchFrom(cfg, w, host, clock, outcomes, left).0.requests| > |w.requests| <==>
            Allow(cfg, w.breaker, host, clock(w.tick)).1
  {
    if Allow(cfg, w.breaker, host, clock(w.tick)).1 {
      var u := Send(cfg, Ask(cfg, w, host, clock), host, clock, outcomes(|w.requests|));
      SentOnce(cfg, w, u, host, clock, outcomes(|w.requests|));
      OnceAllowed(cfg, w, u, host, clock, outcomes, left);
      WhatACallSends(cfg, u, host, clock, outcomes, left - 1);
    } else {
      RefusedAtOnce(cfg, w, host, clock, outcomes, left);
    }
  }

  /** A call that is not permitted, or would cancel a query, sends nothing and touches nothing. */
  lemma RefusedCallsSendNothing(cfg: Config, w: World, call: Call, clock: nat -> real, outcomes: nat -> Outcome,
      maxRetries: nat)
    requires !call.allowed || call.cancels
    ensures Fetch(cfg, w, call, clock, outcomes, maxRetries) == (w, None)
  {
  }
}
