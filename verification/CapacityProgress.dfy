/**
 What each locked block decides, in terms of the saved ledger, the manifests on disk, the live processes and the
 clock alone: who gets in, who is turned away and what leaves the ledger.
 */
module CapacityProgress {
  import opened Basics
  import opened JobStates
  import opened LedgerFormat
  import opened Capacity
  import opened CapacityRuns
  import opened CapacitySafety

  // -- The slots in use ---------------------------------------------------------------------------------

  /** A job that has not ended, with its runner alive or not yet due. */
  predicate HoldsSlot(j: Job, env: Probe) {
    match j.manifest.state
    case Running => j.manifest.pid.Some? ==> j.manifest.pid.value in env.alive
    case Pending => j.manifest.pid.None? ==> env.now - j.manifest.modifiedAt <= 300.0
    case _ => false
  }

  /** The ids of the jobs that hold a slot, in directory order. */
  function Holders(jobs: seq<Job>, env: Probe): seq<string> {
    if jobs == [] then []
    else
      var last := jobs[|jobs| - 1];
      Holders(jobs[..|jobs| - 1], env) + if HoldsSlot(last, env) then [last.manifest.jobId] else []
  }

  /** The owners whose process is alive, in the order of the ledger. */
  function Holding(owners: seq<Owner>, alive: set<int>): seq<Owner> {
    if owners == [] then []
    else
      var last := owners[|owners| - 1];
      Holding(owners[..|owners| - 1], alive) + if last.pid in alive then [last] else []
  }

  /** Every job that holds a slot has an id, and one of its own. */
  predicate Trusted(jobs: seq<Job>, env: Probe) {
    DistinctIds(Holders(jobs, env))
  }

  predicate DistinctIds(ids: seq<string>) {
    && (forall k :: 0 <= k < |ids| ==> ids[k] != "")
    && (forall i, k :: 0 <= i < k < |ids| ==> ids[i] != ids[k])
  }

  function SlotsTaken(s: System): nat {
    |Holding(s.ledger.owners, s.alive)| + |Holders(s.jobs, ProbeOf(s))|
  }

  lemma {:induction false} LiveOwnersHold(owners: seq<Owner>, alive: set<int>)
    ensures LiveOwners(owners, alive) == Holding(owners, alive)
  {
    if owners != [] { LiveOwnersHold(owners[..|owners| - 1], alive); }
  }

  // -- What a reconciliation does to the jobs directory ---------------------------------------------------

  /** A job that holds its slot stays; one that has lost it is failed as of now; ended ones stay. */
  predicate Reconciles(was: Job, now: Job, env: Probe) {
    if (was.manifest.state == Pending || was.manifest.state == Running) && !HoldsSlot(was, env)
    then now == Job(was.path, Manifest(was.manifest.jobId, Failed, was.manifest.pid, env.now))
    else now == was
  }

  lemma HolderStaysActive(j: Job, env: Probe)
    ensures Reconciles(j, ReconcileJob(j, env), env)
    ensures HoldsSlot(j, env) <==> Active(ReconcileJob(j, env).manifest)
  {
  }

  ghost predicate Carries(reserved: seq<Reservation>, ids: seq<string>) {
    |reserved| == |ids| && forall k :: 0 <= k < |ids| ==> reserved[k].jobId == ids[k]
  }

  /** The directory goes through exactly when it is trusted; then each job is judged by itself and holders reserved. */
  lemma {:induction false} SweepExactly(jobs: seq<Job>, env: Probe)
    ensures Sweep(jobs, env).1.Some? <==> Trusted(jobs, env)
    ensures Trusted(jobs, env) ==> Carries(Sweep(jobs, env).1.value, Holders(jobs, env))
    ensures Trusted(jobs, env) ==> forall k :: 0 <= k < |jobs| ==> Reconciles(jobs[k], Sweep(jobs, env).0[k], env)
  {
    if jobs != [] {
      var n := |jobs| - 1;
      SweepExactly(jobs[..n], env);
      HolderStaysActive(jobs[n], env);
      if HoldsSlot(jobs[n], env) {
        TrustedOnMore(Holders(jobs[..n], env), jobs[n].manifest.jobId);
        if Trusted(jobs[..n], env) {
          TakenId(Sweep(jobs[..n], env).1.value, Holders(jobs[..n], env), jobs[n].manifest.jobId);
        }
      } else {
        assert Holders(jobs, env) == Holders(jobs[..n], env);
      }
    }
  }

  lemma TrustedOnMore(ids: seq<string>, id: string)
    ensures DistinctIds(ids + [id]) <==> DistinctIds(ids) && id != "" && id !in ids
  {
    var more := ids + [id];
    assert forall k :: 0 <= k < |ids| ==> more[k] == ids[k];
    assert more[|ids|] == id;
  }

  lemma TakenId(reserved: seq<Reservation>, ids: seq<string>, id: string)
    requires Carries(reserved, ids)
    ensures (exists r <- reserved :: r.jobId == id) <==> id in ids
  {
    if id in ids {
      var k :| 0 <= k < |ids| && ids[k] == id;
      assert reserved[k] in reserved;
    }
  }

  /** What the locked blocks work on, if the directory is trusted. */
  lemma LoadsExactly(s: System)
    ensures Load(s).Some? <==> Trusted(s.jobs, ProbeOf(s))
    ensures Load(s).Some? ==>
              var r := Load(s).value;
              && Occupied(r) == SlotsTaken(s) && |r.reservations| == |Holders(s.jobs, ProbeOf(s))|
              && r.nextSequence == s.ledger.nextSequence && r.owners == Holding(s.ledger.owners, s.alive)
              && (forall x :: x in r.intents <==> Waits(s, x))
  {
    SweepExactly(s.jobs, ProbeOf(s));
    LiveOwnersHold(s.ledger.owners, s.alive);
  }

  // -- Who gets in ----------------------------------------------------------------------------------------

  /** An intent in the saved ledger that is still in the queue. */
  predicate Waits(s: System, x: Intent) {
    x in s.ledger.intents && x.pid in s.alive && x.deadlineAt > s.now
  }

  /**
   A queued launch whose callback is not refused gets in exactly when it is in time, it waits in the queue with
   nobody before it, and a slot is free.
   */
  lemma FirstInLineGetsIn(s: System, p: int, n: int, late: bool, j: Job, at: nat)
    requires Enabled(s, Admit(p, n, late, false, j, at))
    ensures Writes(s, Admit(p, n, late, false, j, at)) <==>
            && Trusted(s.jobs, ProbeOf(s)) && SlotsTaken(s) < 2 && !late
            && (exists x :: Waits(s, x) && x.sequence == n) && (forall x :: Waits(s, x) ==> n <= x.sequence)
  {
    LoadsExactly(s);
    if Load(s).Some? {
      var r := Load(s).value;
      if x :| Waits(s, x) && x.sequence == n { assert x in r.intents; }
    }
  }

  /** A zero-timeout launch gets in exactly when nobody waits and a slot is free. */
  lemma EmptyQueueLetsIn(s: System, p: int, j: Job, at: nat)
    requires Enabled(s, AdmitNow(p, false, j, at))
    ensures Writes(s, AdmitNow(p, false, j, at)) <==>
            Trusted(s.jobs, ProbeOf(s)) && SlotsTaken(s) < 2 && !exists x :: Waits(s, x)
  {
    LoadsExactly(s);
    if Load(s).Some? {
      var r := Load(s).value;
      if r.intents != [] { assert Waits(s, r.intents[0]); }
    }
  }

  /** Whether a metadata lease was granted: its token is in the saved ledger now and was not before. */
  predicate Granted(s: System, t: System, o: Owner) {
    o in t.ledger.owners && o !in s.ledger.owners
  }

  /** A lease is granted exactly when a slot is free and, for statistics, nobody waits; nobody else's changes. */
  lemma FreeSlotIsLeased(s: System, o: Owner, stats: bool)
    requires Inv(s) && Enabled(s, Acquire(o, stats))
    ensures var t := Apply(s, Acquire(o, stats));
            && (Granted(s, t, o) <==>
                  && Trusted(s.jobs, ProbeOf(s)) && SlotsTaken(s) < 2
                  && (stats ==> !exists x :: Waits(s, x)))
            && (forall x :: x != o && x in t.ledger.owners ==> x in s.ledger.owners)
            && (forall x :: x in s.ledger.owners && x.pid in s.alive ==> x in t.ledger.owners)
  {
    OwnersAfterAcquire(s, o, stats);
    HoldersAreOwners(s.ledger.owners, s.alive);
    assert o !in s.ledger.owners;
  }

  lemma {:induction false} HoldersAreOwners(owners: seq<Owner>, alive: set<int>)
    ensures forall x :: x in Holding(owners, alive) <==> x in owners && x.pid in alive
  {
    LiveOwnersHold(owners, alive);
  }

  lemma OwnersAfterAcquire(s: System, o: Owner, stats: bool)
    requires Enabled(s, Acquire(o, stats))
    ensures Apply(s, Acquire(o, stats)).ledger.owners ==
            if !Trusted(s.jobs, ProbeOf(s)) then s.ledger.owners
            else
              Holding(s.ledger.owners, s.alive)
              + if SlotsTaken(s) < 2 && (stats ==> !exists x :: Waits(s, x)) then [o] else []
  {
    LoadsExactly(s);
    if Load(s).Some? { QueueIsEmpty(s, Load(s).value); }
  }

  lemma QueueIsEmpty(s: System, r: Ledger)
    requires forall x :: x in r.intents <==> Waits(s, x)
    ensures r.intents == [] <==> !exists x :: Waits(s, x)
  {
    if r.intents != [] { assert Waits(s, r.intents[0]); }
  }

  /** A launch is queued, behind everybody else, exactly when not all slots are jobs' and it is in time. */
  lemma FreeJobSlotQueues(s: System, p: int, createdAt: string, deadlineAt: real, late: bool)
    requires Inv(s) && Enabled(s, Register(p, createdAt, deadlineAt, late))
    ensures var t := Apply(s, Register(p, createdAt, deadlineAt, late));
            var number := s.ledger.nextSequence;
            var queued := Trusted(s.jobs, ProbeOf(s)) && |Holders(s.jobs, ProbeOf(s))| < 2 && !late;
            && t.ledger.nextSequence == number + (if queued then 1 else 0)
            && t.polling == (if queued then s.polling[number := p] else s.polling)
            && forall x :: x in t.ledger.intents && (x !in s.ledger.intents || x.sequence >= number) <==>
                           queued && x == Intent(p, number, createdAt, deadlineAt)
  {
    LoadsExactly(s);
  }

  /** Giving a lease back takes out its token and dead owners, and nobody else. */
  lemma ReleaseFreesItsToken(s: System, p: int, token: string)
    requires Enabled(s, Release(p, token)) && Trusted(s.jobs, ProbeOf(s))
    ensures forall x :: x in Apply(s, Release(p, token)).ledger.owners <==>
                        x in s.ledger.owners && x.pid in s.alive && x.token != token
  {
    LoadsExactly(s);
  }

  /** Discarding takes out that intent and those that no longer wait, and nobody else's. */
  lemma DiscardTakesOutItsIntent(s: System, p: int, n: int)
    requires Enabled(s, Discard(p, n)) && Trusted(s.jobs, ProbeOf(s))
    ensures forall x :: x in Apply(s, Discard(p, n)).ledger.intents <==> Waits(s, x) && x.sequence != n
  {
    LoadsExactly(s);
  }

  /**
   How an attempt of a queued launch ends: busy exactly when jobs hold both slots, else timed out when it is late or
   no longer waits, else waiting when somebody precedes it or a lease holds the slot.
   */
  lemma HowAnAttemptEnds(s: System, n: int, late: bool)
    requires Trusted(s.jobs, ProbeOf(s))
    ensures Load(s).Some?
    ensures var outcome := AdmitQueued(Load(s).value, n, late);
            var busy := |Holders(s.jobs, ProbeOf(s))| >= 2;
            var inTime := !late && exists x :: Waits(s, x) && x.sequence == n;
            var first := forall x :: Waits(s, x) ==> n <= x.sequence;
            && (outcome.Busy? <==> busy) && (outcome.TimedOut? <==> !busy && !inTime)
            && (outcome.Waiting? <==> !busy && inTime && !(first && SlotsTaken(s) < 2))
            && (outcome.Commit? <==> !busy && inTime && first && SlotsTaken(s) < 2)
  {
    LoadsExactly(s);
    var r := Load(s).value;
    if x :| Waits(s, x) && x.sequence == n { assert x in r.intents; }
  }

  /** The single attempt of a zero-timeout launch and the registration of a queued one fail fast in the same way. */
  lemma HowTheOthersEnd(s: System, p: int, createdAt: string, deadlineAt: real, late: bool)
    requires Trusted(s.jobs, ProbeOf(s))
    ensures Load(s).Some?
    ensures var now := AdmitImmediately(Load(s).value);
            var registered := RegisterIntent(Load(s).value, p, createdAt, deadlineAt, late);
            var busy := |Holders(s.jobs, ProbeOf(s))| >= 2;
            && (now.Busy? <==> busy) && (registered.Busy? <==> busy) && (registered.TimedOut? <==> !busy && late)
            && (now.Commit? <==> SlotsTaken(s) < 2 && !exists x :: Waits(s, x))
            && (now.TimedOut? <==> !busy && !now.Commit?) && (registered.Done? <==> !busy && !late)
  {
    LoadsExactly(s);
    var r := Load(s).value;
    if r.intents != [] { assert Waits(s, r.intents[0]); }
  }

  /** Whoever gets in has its job at its place, the others reconciled, and holds the lock; the file is as it was. */
  lemma JobIsWritten(s: System, p: int, n: int, late: bool, j: Job, at: nat)
    requires Enabled(s, Admit(p, n, late, false, j, at)) && Writes(s, Admit(p, n, late, false, j, at))
    ensures var t := Apply(s, Admit(p, n, late, false, j, at));
            && |t.jobs| == |s.jobs| + 1 && t.jobs[at] == j
            && (forall k :: 0 <= k < at ==> Reconciles(s.jobs[k], t.jobs[k], ProbeOf(s)))
            && (forall k :: at <= k < |s.jobs| ==> Reconciles(s.jobs[k], t.jobs[k + 1], ProbeOf(s)))
            && t.ledger == s.ledger && t.lock.value.pid == p && t.lock.value.ticket == Some(n)
            && t.admitted == s.admitted + [n] && t.polling == s.polling - {n}
            && t.lock.value.ledger.owners == Holding(s.ledger.owners, s.alive)
            && forall x :: x in t.lock.value.ledger.intents <==> Waits(s, x)
  {
    WrittenState(s, p, n, late, j, at);
    LoadsExactly(s);
    SweepExactly(s.jobs, ProbeOf(s));
    InsertedAt(Swept(s).jobs, at, j);
  }

  lemma WrittenState(s: System, p: int, n: int, late: bool, j: Job, at: nat)
    requires Enabled(s, Admit(p, n, late, false, j, at)) && Writes(s, Admit(p, n, late, false, j, at))
    ensures Load(s).Some?
    ensures Apply(s, Admit(p, n, late, false, j, at)) ==
            s.(jobs := Insert(Swept(s).jobs, at, j), lock := Some(Committing(p, Load(s).value, Some(n))),
               admitted := s.admitted + [n], polling := s.polling - {n})
  {
  }

  lemma InsertedAt(jobs: seq<Job>, at: nat, j: Job)
    requires at <= |jobs|
    ensures var now := Insert(jobs, at, j);
            && |now| == |jobs| + 1 && now[at] == j && (forall k :: 0 <= k < at ==> now[k] == jobs[k])
            && forall k :: at <= k < |jobs| ==> now[k + 1] == jobs[k]
  {
  }

  /** What may happen at any time: deaths, births, the clock, and what runners do to a manifest. */
  lemma NothingIsForbidden(s: System, p: int, n: int, token: string, now: real, k: nat, m: Manifest)
    ensures p in s.alive ==> Enabled(s, Die(p))
    ensures p > 0 && p !in s.born ==> Enabled(s, Spawn(p))
    ensures now >= s.now ==> Enabled(s, Tick(now))
    ensures Enabled(s, GiveUp(n))
    ensures s.lock.Some? ==> Enabled(s, AbandonCommit) && (s.lock.value.pid in s.alive ==> Enabled(s, FinishCommit))
    ensures s.lock.None? && p in s.alive ==> Enabled(s, Discard(p, n)) && Enabled(s, Release(p, token))
    ensures k < |s.jobs| ==>
              var was := s.jobs[k].manifest;
              var active := was.state == Pending || was.state == Running;
              var starts := was.state == Pending && m.state == Running && m.pid.Some?;
              var ends := m.state != Pending && m.state != Running;
              && (active && m.jobId == was.jobId && (starts || ends) ==> Enabled(s, Progress(k, m)))
              && (!active && p in s.alive ==> Enabled(s, Revive(p, k)))
  {
  }

  /** A late claim makes the manifest a running one of the claiming runner, and touches nothing else. */
  lemma RevivedJobRuns(s: System, p: int, k: nat)
    requires Enabled(s, Revive(p, k))
    ensures var t := Apply(s, Revive(p, k));
            && t.jobs[k] == Job(s.jobs[k].path, Manifest(s.jobs[k].manifest.jobId, Running, Some(p), s.now))
            && |t.jobs| == |s.jobs| && (forall i :: 0 <= i < |s.jobs| && i != k ==> t.jobs[i] == s.jobs[i])
            && t.ledger == s.ledger && t.lock == s.lock && t.polling == s.polling && t.admitted == s.admitted
  {
  }

  /** What the commit then saves: its own intent is out, and so is whoever no longer waits. */
  lemma CommitTakesOutItsIntent(s: System)
    requires Enabled(s, FinishCommit) && Trusted(s.jobs, ProbeOf(s))
    ensures var t, c := Apply(s, FinishCommit), s.lock.value;
            && t.lock.None?
            && (forall x :: x in t.ledger.intents <==>
                  x in c.ledger.intents && Some(x.sequence) != c.ticket && x.pid in s.alive && x.deadlineAt > s.now)
            && t.ledger.owners == Holding(c.ledger.owners, s.alive)
            && Carries(t.ledger.reservations, Holders(s.jobs, ProbeOf(s)))
  {
    SweepExactly(s.jobs, ProbeOf(s));
    LiveOwnersHold(s.lock.value.ledger.owners, s.alive);
  }
}
