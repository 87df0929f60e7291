/**
 When and how often the monitor polls: the two cadences and the switch between them, and what each operation does to a
 job's subscribers and to its pollers.
 */
module PollTimes {
  import opened Basics
  import opened Pollers

  // -- Polls come in time ---------------------------------------------------------------------------------------

  predicate Watched(s: Service, job: string) {
    job in s.jobs && s.jobs[job].subscribers > 0
  }

  /** At time `now`: a watched job's next polls are at most 2 seconds away, any other's at most 30. */
  ghost predicate InTime(s: Service, now: real) {
    forall k <- s.pollers | !s.pollers[k].stopped ::
      s.pollers[k].nextPollAt <= now + if Watched(s, k.job) then 2.0 else 30.0
  }

  /** The time at which a step happens; steps that read no clock happen at the same time as the one before. */
  function TimeOf(step: Step, before: real): real {
    match step
    case DoSubscribe(_, _, now) => now
    case DoUnsubscribe(_, now) => now
    case DoRegister(_, _, now) => now
    case DoRefresh(_, _, now) => now
    case Collect(_, now) => now
    case End(_, now) => now
    case _ => before
  }

  function Clock(steps: seq<Step>): real {
    if steps == [] then 0.0 else TimeOf(steps[|steps| - 1], Clock(steps[..|steps| - 1]))
  }

  /** The clock never runs backwards. */
  predicate Forwards(steps: seq<Step>) {
    steps == [] || (Forwards(steps[..|steps| - 1]) && Clock(steps[..|steps| - 1]) <= Clock(steps))
  }

  lemma SyncInTime(s: Service, t: Service, job: string, leaves: seq<Leaf>, was: real, now: real)
    requires InTime(s, was) && was <= now && t.pollers == Sync(s.pollers, job, leaves, now)
    requires forall j :: Watched(t, j) <==> Watched(s, j)
    ensures InTime(t, now)
  {
    AddMissingKeeps(s.pollers, job, leaves, now);
  }

  lemma SameInTime(s: Service, t: Service, was: real, now: real)
    requires InTime(s, was) && was <= now && t.pollers == s.pollers
    requires forall j :: Watched(t, j) ==> Watched(s, j)
    ensures InTime(t, now)
  {
  }

  lemma RefreshInTime(s: Service, job: string, found: Option<seq<Leaf>>, was: real, now: real)
    requires InTime(s, was) && was <= now && job in s.jobs
    ensures InTime(Refresh(s, job, found, now), now)
  {
    if found.Some? { SyncInTime(s, Refresh(s, job, found, now), job, found.value, was, now); }
  }

  /** In time for all jobs but one, whose pollers are only known to come within 30 seconds. */
  ghost predicate InTimeBut(s: Service, job: string, now: real) {
    forall k <- s.pollers | !s.pollers[k].stopped ::
      s.pollers[k].nextPollAt <= now + if k.job != job && Watched(s, k.job) then 2.0 else 30.0
  }

  lemma SyncInTimeBut(s: Service, t: Service, job: string, leaves: seq<Leaf>, was: real, now: real)
    requires InTimeBut(s, job, was) && was <= now && t.pollers == Sync(s.pollers, job, leaves, now)
    requires forall j :: Watched(t, j) <==> Watched(s, j)
    ensures InTimeBut(t, job, now)
  {
    AddMissingKeeps(s.pollers, job, leaves, now);
  }

  lemma RescheduleInTime(s: Service, job: string, tighten: bool, now: real)
    requires InTimeBut(s, job, now) && (tighten <==> Watched(s, job))
    ensures InTime(Reschedule(s, job, tighten, now), now)
  {
  }

  lemma SubscribeInTime(s: Service, job: string, found: Option<seq<Leaf>>, was: real, now: real)
    requires InTime(s, was) && was <= now
    ensures InTime(Subscribed(s, job, found, now), now)
  {
    var t := Tracked(s, job);
    var u := t.(jobs := t.jobs[job := t.jobs[job].(subscribers := t.jobs[job].subscribers + 1)]);
    assert Watched(t, job) ==> Watched(s, job);
    if Watched(t, job) {
      SameInTime(s, u, was, now);
      RefreshInTime(u, job, found, now, now);
    } else {
      assert InTimeBut(u, job, now);
      if found.Some? { SyncInTimeBut(u, Refresh(u, job, found, now), job, found.value, now, now); }
      RescheduleInTime(Refresh(u, job, found, now), job, true, now);
    }
  }

  lemma UnsubscribeInTime(s: Service, job: string, was: real, now: real)
    requires InTime(s, was) && was <= now
    ensures InTime(Unsubscribed(s, job, now), now)
  {
    if job in s.jobs {
      var n := s.jobs[job].subscribers;
      var t := s.(jobs := s.jobs[job := s.jobs[job].(subscribers := if n > 0 then n - 1 else 0)]);
      if n == 1 {
        assert InTimeBut(t, job, now);
        RescheduleInTime(t, job, false, now);
      }
    }
  }

  lemma StepInTime(s: System, step: Step, was: real)
    requires Enabled(s, step) && InTime(s.service, was) && was <= TimeOf(step, was)
    ensures InTime(Apply(s, step).service, TimeOf(step, was))
  {
    var v, now := s.service, TimeOf(step, was);
    match step
    case DoSubscribe(job, found, _) => SubscribeInTime(v, job, found, was, now);
    case DoUnsubscribe(job, _) => UnsubscribeInTime(v, job, was, now);
    case DoRegister(job, found, _) =>
      var t := Tracked(v, job);
      var u := t.(jobs := t.jobs[job := t.jobs[job].(background := true)]);
      SameInTime(v, u, was, now);
      RefreshInTime(u, job, found, now, now);
    case DoForgetBackground => SameInTime(v, ForgetBackground(v), was, now);
    case DoRefresh(job, found, _) => RefreshInTime(v, job, found, was, now);
    case DoPrune(job) =>
    case Collect(_, _) =>
    case Start =>
    case End(reply, _) =>
  }

  /** In every run on a forward clock, polls of a watched job are at most 2 seconds away and all others at most 30. */
  lemma {:induction false} PollsComeInTime(steps: seq<Step>)
    requires Run(START, steps).Some? && Forwards(steps)
    ensures InTime(Run(START, steps).value.service, Clock(steps))
  {
    if steps != [] {
      var before := steps[..|steps| - 1];
      PollsComeInTime(before);
      StepInTime(Run(START, before).value, steps[|steps| - 1], Clock(before));
    }
  }

  // -- What each operation does ------------------------------------------------------------------------------------

  /** The next poll after one that does not stop the poller is a whole cadence away. */
  lemma WhatAReplyDoes(s: Service, k: Key, r: Reply, now: real)
    requires k in s.pollers && !s.pollers[k].stopped
    ensures var p := s.pollers[k];
            var q := EndPoll(p, r, Cadence(s, k.job), now);
            var ended := if r.unavailable && p.last.Some? then p.last == Some(true) else r.terminal;
            && q.last == Some(ended) && q.terminals == p.terminals + (if ended then 1 else 0)
            && (q.stopped <==> p.supersededPending || (ended && p.extraPollDone))
            && !q.supersededPending
            && (!q.stopped ==> q.nextPollAt == now + (if Watched(s, k.job) then 2.0 else 30.0))
            && (!q.stopped ==> (q.extraPollDone <==> p.extraPollDone || ended))
  {
  }

  /** The first subscriber draws polls nearer, to 2 seconds at most, and puts none off; other jobs' are left alone. */
  lemma FirstSubscriberTightens(s: Service, job: string, now: real)
    requires !Watched(s, job)
    ensures var t := Subscribed(s, job, None, now);
            && t.pollers.Keys == s.pollers.Keys
            && forall k <- s.pollers ::
                 var was, next := s.pollers[k].nextPollAt, t.pollers[k].nextPollAt;
                 next == if k.job == job && !s.pollers[k].stopped && was > now + 2.0 then now + 2.0 else was
  {
  }

  /** Further subscribers change no poll. */
  lemma FurtherSubscribersChangeNoPoll(s: Service, job: string, now: real)
    requires Watched(s, job)
    ensures Subscribed(s, job, None, now).pollers == s.pollers
  {
  }

  /** A poll that starts once its query is superseded is counted as such; starting one changes nothing else. */
  lemma StartedPollsAreCounted(s: System)
    requires Enabled(s, Start) && s.due[0] in s.service.pollers
    ensures var t, k := Apply(s, Start), s.due[0];
            && t.flight == Some(k) && t.due == s.due[1..] && t.service.jobs == s.service.jobs
            && t.service.pollers.Keys == s.service.pollers.Keys
            && (forall x <- s.service.pollers | x != k :: t.service.pollers[x] == s.service.pollers[x])
            && var p := s.service.pollers[k];
               t.service.pollers[k] == p.(startedSuperseded :=
                 if p.supersededPending then p.startedSuperseded + 1 else p.startedSuperseded)
  {
  }

  /** The last one to leave puts them off to 30 seconds at least; the leaving of another changes no poll. */
  lemma LastSubscriberLoosens(s: Service, job: string, now: real)
    requires Watched(s, job)
    ensures var t := Unsubscribed(s, job, now);
            forall k <- t.pollers ::
              && k in s.pollers
              && var was, next := s.pollers[k].nextPollAt, t.pollers[k].nextPollAt;
                 next == if s.jobs[job].subscribers == 1 && k.job == job && !s.pollers[k].stopped && was < now + 30.0
                       then now + 30.0 else was
  {
  }

  /** Subscribers are counted; only the last one's leaving may drop the job. */
  lemma SubscribersAreCounted(s: Service, job: string, found: Option<seq<Leaf>>, now: real)
    ensures var t := Subscribed(s, job, found, now);
            && t.jobs.Keys == s.jobs.Keys + {job} && (forall j <- s.jobs | j != job :: t.jobs[j] == s.jobs[j])
            && t.jobs[job].subscribers == (if job in s.jobs then s.jobs[job].subscribers else 0) + 1
            && t.jobs[job].background == (job in s.jobs && s.jobs[job].background)
            && t.jobs[job].leaves == if found.Some? then found else if job in s.jobs then s.jobs[job].leaves else None
    ensures var t := Unsubscribed(s, job, now);
            && (forall j <- s.jobs | j != job :: j in t.jobs && t.jobs[j] == s.jobs[j]) && t.jobs.Keys <= s.jobs.Keys
            && (job in t.jobs ==>
                  && t.jobs[job].subscribers == (if s.jobs[job].subscribers > 0 then s.jobs[job].subscribers - 1 else 0)
                  && t.jobs[job].background == s.jobs[job].background && t.jobs[job].leaves == s.jobs[job].leaves)
            && (job in s.jobs && job !in t.jobs ==> s.jobs[job].subscribers == 1 && !s.jobs[job].background)
  {
  }

  /** Tracking in the background remembers the job; forgetting it drops nothing by itself. */
  lemma BackgroundIsRemembered(s: Service, job: string, found: Option<seq<Leaf>>, now: real)
    ensures var t := Register(s, job, found, now);
            && job in t.jobs && t.jobs[job].background
            && t.jobs[job].subscribers == if job in s.jobs then s.jobs[job].subscribers else 0
    ensures var t := ForgetBackground(s);
            && t.pollers == s.pollers && t.jobs.Keys == s.jobs.Keys
            && forall j <- s.jobs :: t.jobs[j] == s.jobs[j].(background := false)
  {
  }

  /** A job is dropped exactly when nobody holds it and all its pollers have stopped; its pollers go with it. */
  lemma FinishedJobsAreDropped(s: Service, job: string)
    requires job in s.jobs
    ensures var t := Prune(s, job);
            && (job !in t.jobs <==>
                  && s.jobs[job].subscribers == 0 && !s.jobs[job].background
                  && forall k <- s.pollers :: k.job == job ==> s.pollers[k].stopped)
            && (forall j <- s.jobs | j != job :: j in t.jobs && t.jobs[j] == s.jobs[j])
            && (forall k :: k in t.pollers <==> k in s.pollers && (k.job != job || job in t.jobs))
            && (forall k <- t.pollers :: t.pollers[k] == s.pollers[k])
  {
  }

  /** The leaf that a key was first seen with. */
  function FirstSeen(job: string, leaves: seq<Leaf>, k: Key): Option<Leaf> {
    if leaves == [] then None
    else
      var before, last := FirstSeen(job, leaves[..|leaves| - 1], k), leaves[|leaves| - 1];
      if before.Some? then before else if Key(job, last.base, last.queryId) == k then Some(last) else None
  }

  lemma {:induction false} NewPollersAreDue(pollers: map<Key, Poller>, job: string, leaves: seq<Leaf>, now: real,
      k: Key)
    requires k !in pollers
    ensures var after := AddMissing(pollers, job, leaves, now);
            && (k in after <==> FirstSeen(job, leaves, k).Some?)
            && (k in after ==>
                  after[k] == Poller(FirstSeen(job, leaves, k).value.seen, now, false, false, false, 0, 0, false))
    ensures FirstSeen(job, leaves, k).Some? <==>
            k.job == job && exists leaf <- leaves :: leaf.base == k.base && leaf.queryId == k.queryId
  {
    if leaves != [] {
      var n := |leaves| - 1;
      assert leaves == leaves[..n] + [leaves[n]];
      NewPollersAreDue(pollers, job, leaves[..n], now, k);
    }
  }

  /**
   A refresh gives every new leaf a poller that is due at once, marks exactly the job's running pollers that are no
   leaf any more, due at once too, and leaves all others as they are.
   */
  lemma RefreshExactly(s: Service, job: string, leaves: seq<Leaf>, now: real, k: Key)
    requires job in s.jobs
    ensures var t := Refresh(s, job, Some(leaves), now);
            var live := k.job == job && exists leaf <- leaves :: leaf.base == k.base && leaf.queryId == k.queryId;
            && (k in t.pollers <==> k in s.pollers || live)
            && (k in t.pollers && k !in s.pollers ==>
                  !t.pollers[k].stopped && !t.pollers[k].supersededPending && t.pollers[k].nextPollAt == now)
            && (k in s.pollers ==>
                  var p := s.pollers[k];
                  t.pollers[k] == if k.job == job && !live && !p.stopped && !p.supersededPending
                                  then p.(supersededPending := true, superseded := true, nextPollAt := now) else p)
  {
    AddMissingKeeps(s.pollers, job, leaves, now);
    if k !in s.pollers { NewPollersAreDue(s.pollers, job, leaves, now, k); }
    assert k in LiveKeys(job, leaves) <==>
           k.job == job && exists leaf <- leaves :: leaf.base == k.base && leaf.queryId == k.queryId;
  }

  // -- Two promises about leaving that the code does not keep --------------------------------------------------------

  /** A poll that is already due is put off by the last subscriber's leaving, exactly when its poller still runs. */
  lemma DuePollsArePutOff(s: Service, job: string, now: real, k: Key)
    requires Watched(s, job) && s.jobs[job].subscribers == 1
    requires k in s.pollers && k.job == job && s.pollers[k].nextPollAt <= now
    ensures var t := Unsubscribed(s, job, now);
            k in t.pollers && t.pollers[k].nextPollAt == now + 30.0 <==> !s.pollers[k].stopped
  {
  }

  /** The leaving forgets the job exactly when it was the last, nothing tracks the job and no poller of it runs. */
  lemma LeavingForgetsExactly(s: Service, job: string, now: real)
    requires job in s.jobs
    ensures job !in Unsubscribed(s, job, now).jobs <==>
            && s.jobs[job].subscribers == 1 && !s.jobs[job].background
            && forall k <- s.pollers :: k.job == job ==> s.pollers[k].stopped
  {
    var t := s.(jobs := s.jobs[job := s.jobs[job].(subscribers := 0)]);
    if s.jobs[job].subscribers == 1 {
      var u := Reschedule(t, job, false, now);
      assert forall k <- s.pollers :: u.pollers[k].stopped == s.pollers[k].stopped;
      FinishedJobsAreDropped(u, job);
    }
  }

  /** It happens at once: a job without queries is watched, left and gone. */
  lemma WatchedOnceAndForgotten(job: string)
    ensures var watched := Subscribed(START.service, job, Some([]), 0.0);
            job in watched.jobs && watched.jobs[job].leaves == Some([]) && job !in Unsubscribed(watched, job, 1.0).jobs
  {
    var watched := Subscribed(START.service, job, Some([]), 0.0);
    LeavingForgetsExactly(watched, job, 1.0);
  }

  /** And a query that is due when its job is left waits another 30 seconds. */
  lemma WatchedOnceAndPutOff(job: string)
    ensures var leaf := Leaf("c", "q", None);
            var watched := Subscribed(START.service, job, Some([leaf]), 0.0);
            var left := Unsubscribed(watched, job, 1.0);
            && KeyOf(job, leaf) in watched.pollers && watched.pollers[KeyOf(job, leaf)].nextPollAt == 0.0
            && KeyOf(job, leaf) in left.pollers && left.pollers[KeyOf(job, leaf)].nextPollAt == 31.0
  {
    var leaf := Leaf("c", "q", None);
    var watched := Subscribed(START.service, job, Some([leaf]), 0.0);
    var k := KeyOf(job, leaf);
    assert [leaf][..0] == [] && leaf in [leaf];
    assert AddMissing(map[], job, [leaf], 0.0) == map[k := Poller(None, 0.0, false, false, false, 0, 0, false)];
    assert k in LiveKeys(job, [leaf]);
    DuePollsArePutOff(watched, job, 1.0, k);
  }

  // -- The runs these statements are about -------------------------------------------------------------------------

  /** Every run can go on with every step that is enabled, and only so. */
  lemma {:induction false} RunsGoOn(steps: seq<Step>, step: Step)
    ensures Run(START, []) == Some(START)
    ensures Run(START, steps + [step]) ==
            if Run(START, steps).Some? && Enabled(Run(START, steps).value, step)
            then Some(Apply(Run(START, steps).value, step)) else None
  {
    assert (steps + [step])[..|steps|] == steps;
  }

  /** A tick works on exactly the running pollers whose time has come, one after the other. */
  lemma WhatATickWorksOn(s: System, due: seq<Key>, now: real, reply: Reply)
    ensures Enabled(s, Collect(due, now)) ==>
              forall k :: k in due <==>
                k in s.service.pollers && !s.service.pollers[k].stopped && s.service.pollers[k].nextPollAt <= now
    ensures s.due != [] && s.flight.None? ==> Enabled(s, Start)
    ensures s.flight.Some? ==> Enabled(s, End(reply, now))
  {
  }

  /** Users come in at any time. */
  lemma UsersComeAnyTime(s: System, job: string, found: Option<seq<Leaf>>, now: real)
    ensures Enabled(s, DoSubscribe(job, found, now)) && Enabled(s, DoUnsubscribe(job, now))
    ensures Enabled(s, DoRegister(job, found, now)) && Enabled(s, DoPrune(job)) && Enabled(s, DoForgetBackground)
  {
  }
}
