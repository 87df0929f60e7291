/**
 The monitor's poller map under subscriptions, refreshes and one ticking thread whose
 network calls run without the lock. A refresh delivers the leaves of the rebuilt hierarchy.
 */
module Pollers {
  import opened Basics

  datatype Key = Key(job: string, base: string, queryId: string)

  // A live leaf; `seen` says whether its attached observation, if any, is terminal.
  datatype Leaf = Leaf(base: string, queryId: string, seen: Option<bool>)

  datatype Poller = Poller(
    last: Option<bool>,     // phase of the last observation: terminal or not
    nextPollAt: real, stopped: bool, extraPollDone: bool, supersededPending: bool,
    // What the poller has done so far (kept for the statements, not read by any step):
    terminals: nat,         // terminal-phase observations recorded
    startedSuperseded: nat, // polls started after supersession
    superseded: bool)       // ever superseded

  datatype Job = Job(leaves: Option<seq<Leaf>>, background: bool, subscribers: nat)

  datatype Service = Service(jobs: map<string, Job>, pollers: map<Key, Poller>)

  const FOREGROUND_POLL_SECONDS := 2.0
  const BACKGROUND_POLL_SECONDS := 30.0

  const NEW_JOB := Job(None, false, 0)

  function KeyOf(job: string, leaf: Leaf): Key {
    Key(job, leaf.base, leaf.queryId)
  }

  function LiveKeys(job: string, leaves: seq<Leaf>): set<Key> {
    set leaf <- leaves :: KeyOf(job, leaf)
  }

  // -- Synchronising the poller map -----------------------------------------------------------

  function AddMissing(pollers: map<Key, Poller>, job: string, leaves: seq<Leaf>, now: real): map<Key, Poller> {
    if leaves == [] then pollers
    else
      var before := AddMissing(pollers, job, leaves[..|leaves| - 1], now);
      var leaf := leaves[|leaves| - 1];
      if KeyOf(job, leaf) in before then before
      else before[KeyOf(job, leaf) := Poller(leaf.seen, now, false, false, false, 0, 0, false)]
  }

  function Supersede(p: Poller, now: real): Poller {
    if p.stopped || p.supersededPending then p
    else p.(supersededPending := true, nextPollAt := now, superseded := true)
  }

  function MarkSuperseded(pollers: map<Key, Poller>, job: string, live: set<Key>, now: real): map<Key, Poller> {
    map k <- pollers :: if k.job == job && k !in live then Supersede(pollers[k], now) else pollers[k]
  }

  function Sync(pollers: map<Key, Poller>, job: string, leaves: seq<Leaf>, now: real): map<Key, Poller> {
    MarkSuperseded(AddMissing(pollers, job, leaves, now), job, LiveKeys(job, leaves), now)
  }

  /** `found` holds the leaves when the event file had something new. */
  function Refresh(s: Service, job: string, found: Option<seq<Leaf>>, now: real): Service
    requires job in s.jobs
  {
    if found.None? then s
    else Service(s.jobs[job := s.jobs[job].(leaves := found)], Sync(s.pollers, job, found.value, now))
  }

  function Cadence(s: Service, job: string): real {
    if job in s.jobs && s.jobs[job].subscribers > 0 then FOREGROUND_POLL_SECONDS else BACKGROUND_POLL_SECONDS
  }

  function Reschedule(s: Service, job: string, tighten: bool, now: real): Service {
    var horizon := now + Cadence(s, job);
    s.(pollers := map k <- s.pollers ::
         if k.job != job || s.pollers[k].stopped then s.pollers[k]
         else s.pollers[k].(nextPollAt :=
           if (s.pollers[k].nextPollAt < horizon) == tighten then s.pollers[k].nextPollAt else horizon))
  }

  predicate Finished(s: Service, job: string) {
    && job in s.jobs && !s.jobs[job].background && s.jobs[job].subscribers == 0
    && forall k <- s.pollers :: k.job == job ==> s.pollers[k].stopped
  }

  function Prune(s: Service, job: string): Service {
    if !Finished(s, job) then s
    else Service(s.jobs - {job}, map k <- s.pollers | k.job != job :: s.pollers[k])
  }

  // -- Public operations ----------------------------------------------------------------------

  function Tracked(s: Service, job: string): Service {
    if job in s.jobs then s else s.(jobs := s.jobs[job := NEW_JOB])
  }

  function Subscribed(s: Service, job: string, found: Option<seq<Leaf>>, now: real): Service {
    var t := Tracked(s, job);
    var wasForeground := t.jobs[job].subscribers > 0;
    var u := t.(jobs := t.jobs[job := t.jobs[job].(subscribers := t.jobs[job].subscribers + 1)]);
    var v := Refresh(u, job, found, now);
    if wasForeground then v else Reschedule(v, job, true, now)
  }

  function Unsubscribed(s: Service, job: string, now: real): Service {
    if job !in s.jobs then s
    else
      var n := s.jobs[job].subscribers;
      var t := s.(jobs := s.jobs[job := s.jobs[job].(subscribers := if n > 0 then n - 1 else 0)]);
      if n == 1 then Prune(Reschedule(t, job, false, now), job) else t
  }

  function Register(s: Service, job: string, found: Option<seq<Leaf>>, now: real): Service {
    var t := Tracked(s, job);
    Refresh(t.(jobs := t.jobs[job := t.jobs[job].(background := true)]), job, found, now)
  }

  /** First half of the dashboard's synchronisation; the second registers and prunes job by job. */
  function ForgetBackground(s: Service): Service {
    s.(jobs := map job <- s.jobs :: s.jobs[job].(background := false))
  }

  // -- One poll -------------------------------------------------------------------------------

  // What the client returned: an availability error keeps the phase of the last good observation.
  datatype Reply = Reply(terminal: bool, unavailable: bool)

  function Recorded(p: Poller, r: Reply): bool {
    if r.unavailable && p.last.Some? then p.last.value else r.terminal
  }

  function EndPoll(p: Poller, r: Reply, cadence: real, now: real): Poller {
    if p.stopped then p
    else
      var terminal := Recorded(p, r);
      var q := p.(last := Some(terminal), terminals := if terminal then p.terminals + 1 else p.terminals);
      if q.supersededPending then q.(supersededPending := false, stopped := true)
      else if terminal && q.extraPollDone then q.(stopped := true)
      else q.(nextPollAt := now + cadence, extraPollDone := q.extraPollDone || terminal)
  }

  function StartPoll(p: Poller): Poller {
    if p.supersededPending then p.(startedSuperseded := p.startedSuperseded + 1) else p
  }

  // -- The system: the service, and the ticking thread's work list ------------------------------

  datatype System = System(service: Service, due: seq<Key>, flight: Option<Key>)

  datatype Step =
    | DoSubscribe(job: string, found: Option<seq<Leaf>>, now: real)
    | DoUnsubscribe(job: string, now: real)
    | DoRegister(job: string, found: Option<seq<Leaf>>, now: real)
    | DoForgetBackground
    | DoRefresh(job: string, found: Option<seq<Leaf>>, now: real)
    | DoPrune(job: string)
    | Collect(due: seq<Key>, now: real) // the tick lists the due pollers
    | Start                             // the next due poll begins
    | End(reply: Reply, now: real)      // and its reply is recorded

  predicate IsDue(s: Service, k: Key, now: real) {
    k in s.pollers && !s.pollers[k].stopped && s.pollers[k].nextPollAt <= now
  }

  predicate Distinct(keys: seq<Key>) {
    forall i, j :: 0 <= i < j < |keys| ==> keys[i] != keys[j]
  }

  predicate Enabled(s: System, step: Step) {
    match step
    case DoRefresh(job, _, _) => job in s.service.jobs
    case Collect(due, now) =>
      && s.due == [] && s.flight.None? && Distinct(due)
      && (forall k <- due :: IsDue(s.service, k, now))
      && (forall k <- s.service.pollers :: IsDue(s.service, k, now) ==> k in due)
    case Start => s.due != [] && s.flight.None?
    case End(_, _) => s.flight.Some?
    case _ => true
  }

  function Update(s: Service, k: Key, p: Poller): Service {
    if k in s.pollers then s.(pollers := s.pollers[k := p]) else s
  }

  function Apply(s: System, step: Step): System
    requires Enabled(s, step)
  {
    var v := s.service;
    match step
    case DoSubscribe(job, found, now) => s.(service := Subscribed(v, job, found, now))
    case DoUnsubscribe(job, now) => s.(service := Unsubscribed(v, job, now))
    case DoRegister(job, found, now) => s.(service := Register(v, job, found, now))
    case DoForgetBackground => s.(service := ForgetBackground(v))
    case DoRefresh(job, found, now) => s.(service := Refresh(v, job, found, now))
    case DoPrune(job) => s.(service := Prune(v, job))
    case Collect(due, _) => s.(due := due)
    case Start =>
      var k := s.due[0];
      System(if k in v.pollers then Update(v, k, StartPoll(v.pollers[k])) else v, s.due[1..], Some(k))
    case End(reply, now) =>
      var k := s.flight.value;
      System(if k in v.pollers then Update(v, k, EndPoll(v.pollers[k], reply, Cadence(v, k.job), now)) else v,
             s.due, None)
  }

  function Run(s: System, steps: seq<Step>): Option<System> {
    if steps == [] then Some(s)
    else
      var before := Run(s, steps[..|steps| - 1]);
      var last := steps[|steps| - 1];
      if before.Some? && Enabled(before.value, last) then Some(Apply(before.value, last)) else None
  }

  const START := System(Service(map[], map[]), [], None)

  // -- Invariants -----------------------------------------------------------------------------

  predicate IsLeaf(s: Service, k: Key) {
    k.job in s.jobs && s.jobs[k.job].leaves.Some? && k in LiveKeys(k.job, s.jobs[k.job].leaves.value)
  }

  /**
   Tracked leaves have pollers; an unstopped poller is a leaf or awaits its one superseded poll; nothing
   outlives its job.
   */
  ghost predicate MapInv(s: Service) {
    && (forall job <- s.jobs | s.jobs[job].leaves.Some? ::
          forall leaf <- s.jobs[job].leaves.value :: KeyOf(job, leaf) in s.pollers)
    && (forall k <- s.pollers :: k.job in s.jobs)
    && (forall k <- s.pollers :: s.pollers[k].stopped || IsLeaf(s, k) || s.pollers[k].supersededPending)
  }

  predicate PollerInv(p: Poller) {
    && p.terminals <= 2
    && (!p.stopped ==> p.terminals <= 1 && (p.extraPollDone <==> p.terminals == 1))
    && (p.stopped ==> p.terminals == 2 || p.superseded)
    && (p.supersededPending ==> p.superseded && !p.stopped)
    && p.startedSuperseded <= 1
    && (!p.superseded ==> p.startedSuperseded == 0)
    && (p.superseded ==> p.supersededPending || p.stopped)
  }

  ghost predicate WorkInv(s: System) {
    && Distinct(s.due)
    && (forall k <- s.due :: k in s.service.pollers && !s.service.pollers[k].stopped && s.flight != Some(k))
    && (s.flight.Some? ==> s.flight.value in s.service.pollers && !s.service.pollers[s.flight.value].stopped)
    && (forall k <- s.service.pollers :: s.service.pollers[k].startedSuperseded == 1 && !s.service.pollers[k].stopped
          ==> s.flight == Some(k))
  }

  ghost predicate Inv(s: System) {
    && MapInv(s.service)
    && (forall k <- s.service.pollers :: PollerInv(s.service.pollers[k]))
    && WorkInv(s)
  }

  // -- Preservation ---------------------------------------------------------------------------

  lemma {:induction false} AddMissingKeeps(pollers: map<Key, Poller>, job: string, leaves: seq<Leaf>, now: real)
    ensures var after := AddMissing(pollers, job, leaves, now);
            && after.Keys == pollers.Keys + LiveKeys(job, leaves)
            && forall k <- after :: if k in pollers then after[k] == pollers[k]
                                    else exists seen :: after[k] == Poller(seen, now, false, false, false, 0, 0, false)
  {
    if leaves != [] {
      var n := |leaves| - 1;
      AddMissingKeeps(pollers, job, leaves[..n], now);
      assert LiveKeys(job, leaves) == LiveKeys(job, leaves[..n]) + {KeyOf(job, leaves[n])} by {
        assert leaves == leaves[..n] + [leaves[n]];
      }
    }
  }

  /** What one refresh does to each poller of the job. */
  ghost predicate Synced(p: Poller, q: Poller) {
    q == p || (exists now :: q == Supersede(p, now))
  }

  lemma SyncEffect(pollers: map<Key, Poller>, job: string, leaves: seq<Leaf>, now: real)
    ensures var after, live := Sync(pollers, job, leaves, now), LiveKeys(job, leaves);
            && after.Keys == pollers.Keys + live
            && (forall k <- pollers :: Synced(pollers[k], after[k]) && (k.job != job ==> after[k] == pollers[k]))
            && (forall k <- after :: k !in pollers ==> PollerInv(after[k]) && !after[k].superseded && k.job == job)
            && (forall k <- after :: k.job == job && k !in live ==> after[k].stopped || after[k].supersededPending)
  {
    AddMissingKeeps(pollers, job, leaves, now);
  }

  lemma RefreshKeepsInv(s: System, job: string, found: Option<seq<Leaf>>, now: real)
    requires Inv(s) && job in s.service.jobs
    ensures Inv(s.(service := Refresh(s.service, job, found, now)))
  {
    if found.Some? {
      SyncEffect(s.service.pollers, job, found.value, now);
      var t := Refresh(s.service, job, found, now);
      RefreshKeepsMap(s.service, job, found.value, now);
      forall k <- t.pollers ensures PollerInv(t.pollers[k]) {
        if k in s.service.pollers { assert PollerInv(s.service.pollers[k]); }
      }
      RefreshKeepsWork(s, job, found.value, now);
    }
  }

  lemma RefreshKeepsMap(s: Service, job: string, leaves: seq<Leaf>, now: real)
    requires MapInv(s) && job in s.jobs
    ensures MapInv(Refresh(s, job, Some(leaves), now))
  {
    SyncEffect(s.pollers, job, leaves, now);
    var t := Refresh(s, job, Some(leaves), now);
    forall k <- t.pollers ensures t.pollers[k].stopped || IsLeaf(t, k) || t.pollers[k].supersededPending {
      if k.job != job {
        assert k in s.pollers && t.pollers[k] == s.pollers[k];
        assert IsLeaf(t, k) == IsLeaf(s, k);
      }
    }
  }

  lemma RefreshKeepsWork(s: System, job: string, leaves: seq<Leaf>, now: real)
    requires Inv(s) && job in s.service.jobs
    ensures WorkInv(s.(service := Refresh(s.service, job, Some(leaves), now)))
  {
    SyncEffect(s.service.pollers, job, leaves, now);
    var t := Refresh(s.service, job, Some(leaves), now);
    forall k <- t.pollers | t.pollers[k].startedSuperseded == 1 && !t.pollers[k].stopped ensures s.flight == Some(k) {
      assert k in s.service.pollers;
    }
  }

  /** Changing a job's bookkeeping but not its leaves, and poll times but nothing else. */
  lemma SameLeavesKeepInv(s: System, t: Service)
    requires Inv(s) && t.pollers.Keys == s.service.pollers.Keys
    requires forall k <- t.pollers :: t.pollers[k] == s.service.pollers[k].(nextPollAt := t.pollers[k].nextPollAt)
    requires s.service.jobs.Keys <= t.jobs.Keys
    requires forall job <- t.jobs ::
               t.jobs[job].leaves == if job in s.service.jobs then s.service.jobs[job].leaves else None
    ensures Inv(s.(service := t))
  {
    forall k <- t.pollers ensures t.pollers[k].stopped || IsLeaf(t, k) || t.pollers[k].supersededPending {
      assert IsLeaf(t, k) == IsLeaf(s.service, k);
    }
    forall k <- t.pollers ensures PollerInv(t.pollers[k]) {
      assert PollerInv(s.service.pollers[k]);
    }
    var u := s.(service := t);
    forall k <- t.pollers | t.pollers[k].startedSuperseded == 1 && !t.pollers[k].stopped ensures s.flight == Some(k) {
      assert s.service.pollers[k].startedSuperseded == 1;
    }
  }

  lemma PruneKeepsInv(s: System, job: string)
    requires Inv(s)
    ensures Inv(s.(service := Prune(s.service, job)))
  {
    if Finished(s.service, job) {
      var t := Prune(s.service, job);
      forall k <- t.pollers ensures t.pollers[k].stopped || IsLeaf(t, k) || t.pollers[k].supersededPending {
        assert IsLeaf(t, k) == IsLeaf(s.service, k);
      }
      forall j <- t.jobs | t.jobs[j].leaves.Some?
        ensures forall leaf <- t.jobs[j].leaves.value :: KeyOf(j, leaf) in t.pollers
      {
        assert j != job;
      }
    }
  }

  lemma SubscribeKeepsInv(s: System, job: string, found: Option<seq<Leaf>>, now: real)
    requires Inv(s)
    ensures Inv(s.(service := Subscribed(s.service, job, found, now)))
  {
    var u := OneSubscriberMore(s, job);
    RefreshKeepsInv(s.(service := u), job, found, now);
    RescheduleKeepsInv(s.(service := Refresh(u, job, found, now)), job, true, now);
  }

  lemma UnsubscribeKeepsInv(s: System, job: string, now: real)
    requires Inv(s)
    ensures Inv(s.(service := Unsubscribed(s.service, job, now)))
  {
    if job in s.service.jobs {
      var t := OneSubscriberLess(s, job);
      RescheduleKeepsInv(s.(service := t), job, false, now);
      PruneKeepsInv(s.(service := Reschedule(t, job, false, now)), job);
    }
  }

  lemma OneSubscriberMore(s: System, job: string) returns (u: Service)
    requires Inv(s)
    ensures var t := Tracked(s.service, job);
            u == t.(jobs := t.jobs[job := t.jobs[job].(subscribers := t.jobs[job].subscribers + 1)])
    ensures Inv(s.(service := u)) && job in u.jobs
  {
    var t := Tracked(s.service, job);
    u := t.(jobs := t.jobs[job := t.jobs[job].(subscribers := t.jobs[job].subscribers + 1)]);
    SameLeavesKeepInv(s, u);
  }

  lemma OneSubscriberLess(s: System, job: string) returns (t: Service)
    requires Inv(s) && job in s.service.jobs
    ensures var n := s.service.jobs[job].subscribers;
            var less := s.service.jobs[job].(subscribers := if n > 0 then n - 1 else 0);
            t == s.service.(jobs := s.service.jobs[job := less])
    ensures Inv(s.(service := t))
  {
    var n := s.service.jobs[job].subscribers;
    t := s.service.(jobs := s.service.jobs[job := s.service.jobs[job].(subscribers := if n > 0 then n - 1 else 0)]);
    SameLeavesKeepInv(s, t);
  }

  lemma RescheduleKeepsInv(s: System, job: string, foreground: bool, now: real)
    requires Inv(s)
    ensures Inv(s.(service := Reschedule(s.service, job, foreground, now)))
  {
    SameLeavesKeepInv(s, Reschedule(s.service, job, foreground, now));
  }

  lemma RegisterKeepsInv(s: System, job: string, found: Option<seq<Leaf>>, now: real)
    requires Inv(s)
    ensures Inv(s.(service := Register(s.service, job, found, now)))
  {
    var t := Tracked(s.service, job);
    var u := t.(jobs := t.jobs[job := t.jobs[job].(background := true)]);
    SameLeavesKeepInv(s, u);
    RefreshKeepsInv(s.(service := u), job, found, now);
  }

  /** Replacing one poller in place. */
  lemma UpdateKeepsMap(s: Service, k: Key, p: Poller)
    requires MapInv(s) && k in s.pollers
    requires p.stopped || (s.pollers[k].supersededPending == p.supersededPending && !s.pollers[k].stopped)
    ensures MapInv(Update(s, k, p))
  {
    var t := Update(s, k, p);
    forall x <- t.pollers ensures t.pollers[x].stopped || IsLeaf(t, x) || t.pollers[x].supersededPending {
      assert IsLeaf(t, x) == IsLeaf(s, x);
    }
  }

  lemma StartKeepsInv(s: System)
    requires Inv(s) && Enabled(s, Start)
    ensures Inv(Apply(s, Start))
  {
    var k := s.due[0];
    assert k in s.due;
    UpdateKeepsMap(s.service, k, StartPoll(s.service.pollers[k]));
    assert PollerInv(s.service.pollers[k]);
    forall x <- s.due[1..] ensures x != k && x in s.due {
      var i :| 1 <= i < |s.due| && s.due[i] == x;
    }
  }

  lemma EndPollKeepsPoller(p: Poller, r: Reply, cadence: real, now: real)
    requires PollerInv(p) && !p.stopped
    ensures var q := EndPoll(p, r, cadence, now);
            && PollerInv(q) && (p.supersededPending ==> q.stopped)
            && (!q.stopped ==> !q.supersededPending && q.startedSuperseded == 0)
  {
  }

  lemma EndKeepsInv(s: System, reply: Reply, now: real)
    requires Inv(s) && s.flight.Some?
    ensures Inv(Apply(s, End(reply, now)))
  {
    var k := s.flight.value;
    var p := s.service.pollers[k];
    EndPollKeepsPoller(p, reply, Cadence(s.service, k.job), now);
    UpdateKeepsMap(s.service, k, EndPoll(p, reply, Cadence(s.service, k.job), now));
  }

  lemma StepKeepsInv(s: System, step: Step)
    requires Inv(s) && Enabled(s, step)
    ensures Inv(Apply(s, step))
  {
    match step
    case DoSubscribe(job, found, now) => SubscribeKeepsInv(s, job, found, now);
    case DoUnsubscribe(job, now) => UnsubscribeKeepsInv(s, job, now);
    case DoRegister(job, found, now) => RegisterKeepsInv(s, job, found, now);
    case DoForgetBackground => SameLeavesKeepInv(s, ForgetBackground(s.service));
    case DoRefresh(job, found, now) => RefreshKeepsInv(s, job, found, now);
    case DoPrune(job) => PruneKeepsInv(s, job);
    case Collect(due, now) =>
    case Start => StartKeepsInv(s);
    case End(reply, now) => EndKeepsInv(s, reply, now);
  }

  lemma {:induction false} RunKeepsInv(steps: seq<Step>)
    requires Run(START, steps).Some?
    ensures Inv(Run(START, steps).value)
  {
    if steps != [] {
      RunKeepsInv(steps[..|steps| - 1]);
      StepKeepsInv(Run(START, steps[..|steps| - 1]).value, steps[|steps| - 1]);
    }
  }

  // -- Theorems -------------------------------------------------------------------------------

  /** In every run the map covers every tracked leaf, polls nothing else for long, and holds nothing untracked. */
  lemma {:induction false} PollersTrackLeaves(steps: seq<Step>)
    requires Run(START, steps).Some?
    ensures var s := Run(START, steps).value.service;
            && (forall job <- s.jobs | s.jobs[job].leaves.Some? ::
                  forall leaf <- s.jobs[job].leaves.value :: KeyOf(job, leaf) in s.pollers)
            && (forall k <- s.pollers :: !s.pollers[k].stopped ==> IsLeaf(s, k) || s.pollers[k].supersededPending)
            && (forall k <- s.pollers :: k.job in s.jobs)
  {
    RunKeepsInv(steps);
  }

  /**
   At most one poll starts after supersession, at most two terminal observations are recorded, and nothing else
   stops a poller.
   */
  lemma {:induction false} PollersStopInTime(steps: seq<Step>)
    requires Run(START, steps).Some?
    ensures var s := Run(START, steps).value.service;
            forall k <- s.pollers ::
              var p := s.pollers[k];
              && p.startedSuperseded <= 1 && p.terminals <= 2
              && (p.stopped ==> p.terminals == 2 || p.superseded)
              && (p.stopped ==> !p.supersededPending)
  {
    RunKeepsInv(steps);
    var s := Run(START, steps).value.service;
    forall k <- s.pollers ensures PollerInv(s.pollers[k]) {}
  }

  /** A poll in flight or waiting its turn belongs to a poller that is still in the map and not stopped. */
  lemma {:induction false} PollsAreForLivePollers(steps: seq<Step>)
    requires Run(START, steps).Some?
    ensures var s := Run(START, steps).value;
            && (forall k <- s.due :: k in s.service.pollers && !s.service.pollers[k].stopped)
            && (s.flight.Some? ==> s.flight.value in s.service.pollers && !s.service.pollers[s.flight.value].stopped)
  {
    RunKeepsInv(steps);
  }

  // -- The service object -----------------------------------------------------------------------

  class MonitorService {
    var jobs: map<string, Job>
    var pollers: map<Key, Poller>

    function Value(): Service
      reads this
    {
      Service(jobs, pollers)
    }

    constructor ()
      ensures Value() == START.service
    {
      jobs, pollers := map[], map[];
    }

    method SyncPollers(job: string, leaves: seq<Leaf>, now: real)
      modifies this`pollers
      ensures pollers == Sync(old(pollers), job, leaves, now)
    {
      var live: set<Key> := {};
      for i := 0 to |leaves|
        invariant live == LiveKeys(job, leaves[..i])
        invariant pollers == AddMissing(old(pollers), job, leaves[..i], now)
      {
        assert leaves[..i + 1][..i] == leaves[..i] && leaves[..i + 1] == leaves[..i] + [leaves[i]];
        var k := KeyOf(job, leaves[i]);
        live := live + {k};
        if k !in pollers {
          pollers := pollers[k := Poller(leaves[i].seen, now, false, false, false, 0, 0, false)];
        }
      }
      assert leaves[..|leaves|] == leaves;
      MarkSupersededPollers(job, live, now);
    }

    method MarkSupersededPollers(job: string, live: set<Key>, now: real)
      modifies this`pollers
      ensures pollers == MarkSuperseded(old(pollers), job, live, now)
    {
      var todo := pollers.Keys;
      while todo != {}
        invariant todo <= pollers.Keys == old(pollers).Keys
        invariant forall k <- todo :: pollers[k] == old(pollers)[k]
        invariant forall k <- pollers.Keys - todo :: pollers[k] == MarkSuperseded(old(pollers), job, live, now)[k]
        decreases todo
      {
        var k :| k in todo;
        todo := todo - {k};
        var p := pollers[k];
        if k.job == job && k !in live && !p.stopped && !p.supersededPending {
          pollers := pollers[k := p.(supersededPending := true, nextPollAt := now, superseded := true)];
        }
      }
    }

    method RefreshJob(job: string, found: Option<seq<Leaf>>, now: real)
      requires job in jobs
      modifies this
      ensures Value() == Refresh(old(Value()), job, found, now)
    {
      if found.None? { return; }
      jobs := jobs[job := jobs[job].(leaves := found)];
      SyncPollers(job, found.value, now);
    }

    method ReschedulePollers(job: string, tighten: bool, now: real)
      modifies this`pollers
      ensures Value() == Reschedule(old(Value()), job, tighten, now)
    {
      var horizon := now + Cadence(Value(), job);
      var todo := pollers.Keys;
      while todo != {}
        invariant todo <= pollers.Keys == old(pollers).Keys
        invariant forall k <- todo :: pollers[k] == old(pollers)[k]
        invariant forall k <- pollers.Keys - todo ::
          pollers[k] == Reschedule(old(Value()), job, tighten, now).pollers[k]
        decreases todo
      {
        var k :| k in todo;
        todo := todo - {k};
        var p := pollers[k];
        if k.job == job && !p.stopped {
          var at := if tighten then (if p.nextPollAt < horizon then p.nextPollAt else horizon)
                    else (if p.nextPollAt < horizon then horizon else p.nextPollAt);
          pollers := pollers[k := p.(nextPollAt := at)];
        }
      }
      assert pollers == Reschedule(old(Value()), job, tighten, now).pollers;
    }

    method PruneJobIfFinished(job: string)
      modifies this
      ensures Value() == Prune(old(Value()), job)
    {
      if job !in jobs || jobs[job].background || jobs[job].subscribers > 0 { return; }
      if exists k <- pollers :: k.job == job && !pollers[k].stopped { return; }
      pollers := map k <- pollers | k.job != job :: pollers[k];
      jobs := jobs - {job};
    }

    method Subscribe(job: string, found: Option<seq<Leaf>>, now: real)
      modifies this
      ensures Value() == Subscribed(old(Value()), job, found, now)
    {
      if job !in jobs { jobs := jobs[job := NEW_JOB]; }
      var wasForeground := jobs[job].subscribers > 0;
      jobs := jobs[job := jobs[job].(subscribers := jobs[job].subscribers + 1)];
      RefreshJob(job, found, now);
      if !wasForeground { ReschedulePollers(job, true, now); }
    }

    method Unsubscribe(job: string, now: real)
      modifies this
      ensures Value() == Unsubscribed(old(Value()), job, now)
    {
      if job !in jobs { return; }
      var wasForeground := jobs[job].subscribers > 0;
      jobs := jobs[job := jobs[job].(subscribers := if wasForeground then jobs[job].subscribers - 1 else 0)];
      if wasForeground && jobs[job].subscribers == 0 {
        ReschedulePollers(job, false, now);
        PruneJobIfFinished(job);
      }
    }

    /** The second half of one poll, under the lock. */
    method RecordReply(k: Key, reply: Reply, now: real)
      requires k in pollers
      modifies this`pollers
      ensures pollers == old(pollers)[k := EndPoll(old(pollers)[k], reply, Cadence(old(Value()), k.job), now)]
    {
      var p := pollers[k];
      if p.stopped { return; }
      var terminal := if reply.unavailable && p.last.Some? then p.last.value else reply.terminal;
      p := p.(last := Some(terminal), terminals := if terminal then p.terminals + 1 else p.terminals);
      if p.supersededPending {
        p := p.(supersededPending := false, stopped := true);
      } else if terminal && p.extraPollDone {
        p := p.(stopped := true);
      } else {
        if terminal { p := p.(extraPollDone := true); }
        p := p.(nextPollAt := now + Cadence(Value(), k.job));
      }
      pollers := pollers[k := p];
    }
  }
}
