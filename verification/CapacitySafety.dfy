/**
 Whole runs of the capacity protocol: what holds in every interleaving of acquisitions, releases,
 registrations, admissions, crashes and process deaths.
 */
module CapacitySafety {
  import opened Basics
  import opened LedgerFormat
  import opened Capacity
  import opened JobStates
  import opened CapacityRuns

  /** The state after a run, when every step of it is enabled in turn. */
  function Run(s: System, steps: seq<Step>): Option<System> {
    if steps == [] then Some(s)
    else
      var before := Run(s, steps[..|steps| - 1]);
      var last := steps[|steps| - 1];
      if before.Some? && Enabled(before.value, last) then Some(Apply(before.value, last)) else None
  }

  lemma {:induction false} RunKeepsInv(s: System, steps: seq<Step>)
    requires Initial(s) && Run(s, steps).Some?
    ensures Inv(Run(s, steps).value)
  {
    if steps != [] {
      RunKeepsInv(s, steps[..|steps| - 1]);
      StepKeepsInv(Run(s, steps[..|steps| - 1]).value, steps[|steps| - 1]);
    }
  }

  function Revivals(steps: seq<Step>): nat {
    if steps == [] then 0
    else Revivals(steps[..|steps| - 1]) + if steps[|steps| - 1].Revive? then 1 else 0
  }

  lemma {:induction false} RevivalsAreCounted(s: System, steps: seq<Step>)
    requires Run(s, steps).Some?
    ensures Run(s, steps).value.revived == s.revived + Revivals(steps)
  {
    if steps != [] {
      RevivalsAreCounted(s, steps[..|steps| - 1]);
      StepCounts(Run(s, steps[..|steps| - 1]).value, steps[|steps| - 1]);
    }
  }

  lemma StepCounts(s: System, step: Step)
    requires Enabled(s, step)
    ensures Apply(s, step).revived == s.revived + if step.Revive? then 1 else 0
  {
  }

  /**
   In every interleaving, crashes between the two halves of a commit included, at most two slots are in use beyond the
   terminal manifests that late claims have brought back; so at most two when every claim follows its check directly.
   */
  lemma {:induction false} CapacityNeverExceeded(s: System, steps: seq<Step>)
    requires Initial(s) && Run(s, steps).Some?
    ensures InUse(Run(s, steps).value) <= CAPACITY_LIMIT + Revivals(steps)
    ensures (forall k :: 0 <= k < |steps| ==> !steps[k].Revive?) ==> InUse(Run(s, steps).value) <= CAPACITY_LIMIT
  {
    RunKeepsInv(s, steps);
    RevivalsAreCounted(s, steps);
    if forall k :: 0 <= k < |steps| ==> !steps[k].Revive? { NoRevivals(steps); }
  }

  lemma {:induction false} NoRevivals(steps: seq<Step>)
    requires forall k :: 0 <= k < |steps| ==> !steps[k].Revive?
    ensures Revivals(steps) == 0
  {
    if steps != [] { NoRevivals(steps[..|steps| - 1]); }
  }

  // -- The file's own count -----------------------------------------------------------------------------

  predicate Writes(s: System, step: Step) {
    Enabled(s, step) && s.lock.None? && Apply(s, step).lock.Some?
  }

  /** Active jobs plus all saved owners, dead ones included. */
  function FileCount(s: System): nat {
    |s.ledger.owners| + ActiveJobs(s)
  }

  /** A job is written or brought back while the file, as saved, leaves no slot free. */
  predicate Overfills(s: System, step: Step) {
    || (Writes(s, step) && |s.ledger.owners| + |Reservations(Swept(s).jobs)| >= CAPACITY_LIMIT)
    || (step.Revive? && FileCount(s) >= CAPACITY_LIMIT)
  }

  lemma LiveAreFewer(s: System)
    ensures |LiveOwners(s.ledger.owners, s.alive)| <= |s.ledger.owners|
  {
    FilterCount((o: Owner) => o.pid in s.alive, (o: Owner) => o.pid in s.alive, s.ledger.owners);
  }

  /** A block that saves a ledger derived from the reconciled one, or none, stays within the bound. */
  lemma SavingFits(s: System, t: System)
    requires FileCount(s) <= CAPACITY_LIMIT && t.jobs == Swept(s).jobs
    requires t.ledger == s.ledger || SafeLedger(s, t, t.ledger)
    ensures FileCount(t) <= CAPACITY_LIMIT
  {
    SweepFrees(s.jobs, ProbeOf(s));
    LiveAreFewer(s);
  }

  lemma AcquireFits(s: System, o: Owner, stats: bool)
    requires Inv(s) && FileCount(s) <= CAPACITY_LIMIT && Enabled(s, Acquire(o, stats))
    ensures FileCount(Acquired(s, o, stats)) <= CAPACITY_LIMIT && Acquired(s, o, stats).lock.None?
  {
    if Load(s).Some? { AcquireIsSafe(s, o, stats); }
    SavingFits(s, Acquired(s, o, stats));
  }

  lemma RegisterFits(s: System, p: int, createdAt: string, deadlineAt: real, late: bool)
    requires Inv(s) && FileCount(s) <= CAPACITY_LIMIT && Enabled(s, Register(p, createdAt, deadlineAt, late))
    ensures var t := Registered(s, p, createdAt, deadlineAt, late); FileCount(t) <= CAPACITY_LIMIT && t.lock.None?
  {
    if Load(s).Some? { RegisterIsSafe(s, p, createdAt, deadlineAt, late); }
    SavingFits(s, Registered(s, p, createdAt, deadlineAt, late));
  }

  /** Fewer owners than the reconciled ledger has. */
  lemma FewerOwnersFit(s: System, t: System)
    requires Inv(s) && FileCount(s) <= CAPACITY_LIMIT && Load(s).Some? && t.jobs == Swept(s).jobs
    requires |t.ledger.owners| <= |Load(s).value.owners|
    ensures FileCount(t) <= CAPACITY_LIMIT
  {
    Reconciled(s, s.ledger);
    SweepFrees(s.jobs, ProbeOf(s));
    LiveAreFewer(s);
  }

  lemma ReleaseFits(s: System, token: string)
    requires Inv(s) && FileCount(s) <= CAPACITY_LIMIT && s.lock.None?
    ensures FileCount(Released(s, token)) <= CAPACITY_LIMIT && Released(s, token).lock.None?
  {
    if Load(s).Some? {
      FilterCount((o: Owner) => o.token != token, (o: Owner) => o.token != token, Load(s).value.owners);
      FewerOwnersFit(s, Released(s, token));
    } else {
      SavingFits(s, Released(s, token));
    }
  }

  lemma DiscardFits(s: System, n: int)
    requires Inv(s) && FileCount(s) <= CAPACITY_LIMIT && s.lock.None?
    ensures FileCount(Discarded(s, n)) <= CAPACITY_LIMIT && Discarded(s, n).lock.None?
  {
    if Load(s).Some? { FewerOwnersFit(s, Discarded(s, n)); } else { SavingFits(s, Discarded(s, n)); }
  }

  lemma FinishFits(s: System)
    requires Inv(s) && FileCount(s) <= CAPACITY_LIMIT && s.lock.Some?
    ensures FileCount(Finished(s)) <= CAPACITY_LIMIT
  {
    var c := s.lock.value;
    SweepFrees(s.jobs, ProbeOf(s));
    FilterCount((o: Owner) => o.pid in s.alive, (o: Owner) => o.pid in s.alive, c.ledger.owners);
  }

  /** An attempt that writes its job leaves the file's owners and adds one active job. */
  lemma AttemptFits(s: System, outcome: Outcome, r: Ledger, pid: int, ticket: Option<int>, refused: bool,
                    created: Job, at: nat)
    requires Inv(s) && FileCount(s) <= CAPACITY_LIMIT && s.lock.None? && FreshJob(s, created, at)
    requires Load(s) == Some(r) && !outcome.Done?
    ensures var t := Attempt(s, outcome, r, pid, ticket, refused, created, at);
            && (t.lock.Some? <==> outcome.Commit? && !refused)
            && (t.lock.Some? ==> FileCount(t) == |s.ledger.owners| + |Reservations(Swept(s).jobs)| + 1)
            && (t.lock.None? ==> FileCount(t) <= CAPACITY_LIMIT)
  {
    var t := Attempt(s, outcome, r, pid, ticket, refused, created, at);
    InsertAddsOne(Swept(s).jobs, at, created);
    if t.lock.None? {
      if t.ledger == r { FewerOwnersFit(s, t); } else { SavingFits(s, t); }
    }
  }

  lemma AdmitFits(s: System, step: Step)
    requires Inv(s) && FileCount(s) <= CAPACITY_LIMIT && (step.Admit? || step.AdmitNow?) && Enabled(s, step)
    ensures FileCount(Apply(s, step)) <= CAPACITY_LIMIT <==> !Overfills(s, step)
  {
    if Load(s).None? {
      SavingFits(s, Apply(s, step));
    } else {
      var r := Load(s).value;
      match step
      case Admit(p, n, late, refused, j, at) =>
        AttemptFits(s, AdmitQueued(r, n, late), r, p, Some(n), refused, j, at);
      case AdmitNow(p, refused, j, at) =>
        AttemptFits(s, AdmitImmediately(r), r, p, None, refused, j, at);
    }
  }

  lemma EnvironmentFits(s: System, step: Step)
    requires FileCount(s) <= CAPACITY_LIMIT && Enabled(s, step)
    requires step.AbandonCommit? || step.GiveUp? || step.Die? || step.Spawn? || step.Tick? || step.Progress?
    ensures FileCount(Apply(s, step)) <= CAPACITY_LIMIT && !Writes(s, step)
  {
    if step.Progress? { FewerActive(s.jobs, Apply(s, step).jobs); }
  }

  lemma ReviveFits(s: System, p: int, k: nat)
    requires FileCount(s) <= CAPACITY_LIMIT && Enabled(s, Revive(p, k))
    ensures FileCount(Apply(s, Revive(p, k))) == FileCount(s) + 1 && !Writes(s, Revive(p, k))
  {
    OneMoreActive(s.jobs, k, Apply(s, Revive(p, k)).jobs[k]);
  }

  /** While the file's own count is within two, a step leaves it there exactly when it does not overfill the file. */
  lemma FileFitsExactly(s: System, step: Step)
    requires Inv(s) && FileCount(s) <= CAPACITY_LIMIT && Enabled(s, step)
    ensures FileCount(Apply(s, step)) <= CAPACITY_LIMIT <==> !Overfills(s, step)
  {
    match step
    case Acquire(o, stats) => AcquireFits(s, o, stats);
    case Release(_, token) => ReleaseFits(s, token);
    case Register(p, createdAt, deadlineAt, late) => RegisterFits(s, p, createdAt, deadlineAt, late);
    case Admit(_, _, _, _, _, _) => AdmitFits(s, step);
    case AdmitNow(_, _, _, _) => AdmitFits(s, step);
    case FinishCommit => FinishFits(s);
    case Discard(_, n) => DiscardFits(s, n);
    case Revive(p, k) => ReviveFits(s, p, k);
    case _ => EnvironmentFits(s, step);
  }

  /** No step of the run overfills the file. */
  predicate NeverOverfills(s: System, steps: seq<Step>)
    requires Run(s, steps).Some?
  {
    steps == [] ||
    var before := steps[..|steps| - 1];
    NeverOverfills(s, before) && !Overfills(Run(s, before).value, steps[|steps| - 1])
  }

  /** The file's count is within the limit after every step of the run. */
  predicate FitsThroughout(s: System, steps: seq<Step>)
    requires Run(s, steps).Some?
  {
    && FileCount(Run(s, steps).value) <= CAPACITY_LIMIT
    && (steps != [] ==> FitsThroughout(s, steps[..|steps| - 1]))
  }

  /** Over a run, the owners in the file and the active jobs stay within two exactly when no step overfills the file. */
  lemma {:induction false} FileFitsThroughARun(s: System, steps: seq<Step>)
    requires Initial(s) && Run(s, steps).Some? && FileCount(s) <= CAPACITY_LIMIT
    ensures FitsThroughout(s, steps) <==> NeverOverfills(s, steps)
  {
    if steps != [] {
      var before, last := steps[..|steps| - 1], steps[|steps| - 1];
      FileFitsThroughARun(s, before);
      RunKeepsInv(s, before);
      if FileCount(Run(s, before).value) <= CAPACITY_LIMIT {
        NextFits(Run(s, before).value, last, Run(s, steps).value);
      }
    }
  }

  lemma NextFits(s: System, step: Step, t: System)
    requires Inv(s) && FileCount(s) <= CAPACITY_LIMIT && Enabled(s, step) && t == Apply(s, step)
    ensures FileCount(t) <= CAPACITY_LIMIT <==> !Overfills(s, step)
  {
    FileFitsExactly(s, step);
  }

  lemma {:induction false} NoneAlive(owners: seq<Owner>, alive: set<int>)
    requires forall o <- owners :: o.pid !in alive
    ensures LiveOwners(owners, alive) == []
  {
    if owners != [] { NoneAlive(owners[..|owners| - 1], alive); }
  }

  /** An immediate admission when every saved owner is dead: the job is written, the file still has the owners. */
  lemma AdmittedBesideTheDead(s: System, pid: int, job: Job)
    requires s.jobs == [] && s.ledger.intents == [] && (forall o <- s.ledger.owners :: o.pid !in s.alive)
    requires Enabled(s, AdmitNow(pid, false, job, 0))
    ensures var t := Apply(s, AdmitNow(pid, false, job, 0));
            t.ledger == s.ledger && t.jobs == [job] && t.lock.Some? && t.lock.value.pid == pid && t.alive == s.alive
  {
    NoneAlive(s.ledger.owners, s.alive);
    assert Insert([], 0, job) == [job];
    assert Load(s).Some? && Occupied(Load(s).value) == 0 && Load(s).value.intents == [];
  }

  lemma {:induction false} RunTwo(s: System, a: Step, b: Step)
    requires Enabled(s, a) && Enabled(Apply(s, a), b)
    ensures Run(s, [a, b]) == Some(Apply(Apply(s, a), b))
  {
    assert [a, b][..1] == [a] && [a][..0] == [];
    assert Run(s, []) == Some(s);
    assert Run(s, [a]) == Some(Apply(s, a));
  }

  lemma TwoDeadOwners() returns (s: System)
    ensures Initial(s) && s.jobs == [] && s.ledger.intents == [] && |s.ledger.owners| == 2
    ensures s.alive == {3} && forall o <- s.ledger.owners :: o.pid !in s.alive
  {
    var owners := [Owner("a", 1, "preview", "t"), Owner("b", 2, "preview", "t")];
    s := System(NEW_LEDGER.(owners := owners), [], {1, 2, 3}, {3}, 0.0, {"a", "b"}, None, map[], [], 0);
    NoneAlive(owners, s.alive);
  }

  /**
   Saved owners whose process is dead must not be counted: a crash between the two halves can leave them in the
   file.
   */
  lemma DeadOwnersCanStayInTheFile() returns (s: System, steps: seq<Step>)
    ensures Initial(s) && Run(s, steps).Some?
    ensures var t := Run(s, steps).value; |t.ledger.owners| + ActiveJobs(t) > CAPACITY_LIMIT
  {
    s := TwoDeadOwners();
    var job := Job("p", Manifest("j", Pending, None, 0.0));
    AdmittedBesideTheDead(s, 3, job);
    RunTwo(s, AdmitNow(3, false, job, 0), Die(3));
    steps := [AdmitNow(3, false, job, 0), Die(3)];
    assert [job][..0] == [] && |Reservations([job])| == 1;
  }

  /** Every ledger ever saved is one the loader accepts, so `_save_ledger` never refuses. */
  lemma {:induction false} SavedLedgerStaysLoadable(s: System, steps: seq<Step>, now: real)
    requires Initial(s) && Run(s, steps).Some?
    ensures var l := Run(s, steps).value.ledger; LoadLedger(SaveLedger(l), now) == Some(l)
  {
    RunKeepsInv(s, steps);
    SavedLoadsBack(Run(s, steps).value.ledger, now);
  }

  /** Queued launches are admitted in strictly increasing order of their sequence numbers. */
  lemma {:induction false} AdmissionsAreFifo(s: System, steps: seq<Step>)
    requires Initial(s) && Run(s, steps).Some?
    ensures Increasing(Run(s, steps).value.admitted)
  {
    RunKeepsInv(s, steps);
  }

  /**
   No launch is admitted while an earlier one survives in the queue, and a zero-timeout launch never passes the
   queue.
   */
  lemma {:induction false} NobodyIsOvertaken(s: System, steps: seq<Step>, step: Step)
    requires Initial(s) && Run(s, steps).Some? && Writes(Run(s, steps).value, step)
    ensures var now := Run(s, steps).value;
            forall x <- now.ledger.intents | IntentAlive(x, ProbeOf(now)) ::
              step.Admit? && step.sequence <= x.sequence
  {
    RunKeepsInv(s, steps);
    var at := Run(s, steps).value;
    var r := Load(at).value;
    forall x <- at.ledger.intents | IntentAlive(x, ProbeOf(at))
      ensures step.Admit? && step.sequence <= x.sequence
    {
      assert x in r.intents;
    }
  }
}
