/**
 Shared Impala capacity: the ledger operations that run under the capacity lock,
 as functions of the saved ledger, the jobs directory, the live processes and the clock,
 and the in-place code that computes them.
 */
module Capacity {
  import opened Basics
  import opened JobStates
  import opened LedgerFormat

  const CAPACITY_LIMIT := 2

  datatype Manifest = Manifest(jobId: string, state: JobState, pid: Option<int>, modifiedAt: real)

  // One entry of the jobs directory; a directory listing is in path order.
  datatype Job = Job(path: string, manifest: Manifest)

  // What a reconciliation probes: which pids are alive and what the wall clock says.
  datatype Probe = Probe(alive: set<int>, now: real)

  predicate Active(m: Manifest) {
    m.state == Pending || m.state == Running
  }

  /** The stale-job rule shared by every reconciler. */
  predicate Stale(m: Manifest, env: Probe) {
    || (m.state == Running && m.pid.Some? && m.pid.value !in env.alive)
    || (m.state == Pending && m.pid.None? && env.now - m.modifiedAt > PENDING_ORPHAN_GRACE)
  }

  function ReconcileJob(j: Job, env: Probe): Job {
    if Stale(j.manifest, env) then j.(manifest := j.manifest.(state := Failed, modifiedAt := env.now)) else j
  }

  function Filter<T(!new)>(p: T -> bool, xs: seq<T>): (r: seq<T>)
    ensures forall x :: x in r <==> x in xs && p(x)
  {
    if xs == [] then []
    else Filter(p, xs[..|xs| - 1]) + if p(xs[|xs| - 1]) then [xs[|xs| - 1]] else []
  }

  function LiveOwners(owners: seq<Owner>, alive: set<int>): seq<Owner> {
    Filter((o: Owner) => o.pid in alive, owners)
  }

  predicate IntentAlive(t: Intent, env: Probe) {
    t.pid in env.alive && t.deadlineAt > env.now
  }

  function LiveIntents(intents: seq<Intent>, env: Probe): seq<Intent> {
    Filter((t: Intent) => IntentAlive(t, env), intents)
  }

  function WithoutToken(owners: seq<Owner>, token: string): seq<Owner> {
    Filter((o: Owner) => o.token != token, owners)
  }

  function WithoutSequence(intents: seq<Intent>, sequence: int): seq<Intent> {
    Filter((t: Intent) => t.sequence != sequence, intents)
  }

  /** Active jobs on disk, in directory order. */
  function Reservations(jobs: seq<Job>): seq<Reservation> {
    if jobs == [] then []
    else
      var last := jobs[|jobs| - 1];
      Reservations(jobs[..|jobs| - 1])
      + if Active(last.manifest) then [Reservation(last.manifest.jobId, last.path)] else []
  }

  /**
   One pass over the jobs directory: stale jobs are failed on disk and active ones reserved.
   The pass stops at an active job without an id or with one already reserved.
   */
  function Sweep(jobs: seq<Job>, env: Probe): (r: (seq<Job>, Option<seq<Reservation>>))
    ensures |r.0| == |jobs|
  {
    if jobs == [] then ([], Some([]))
    else
      var n := |jobs| - 1;
      var (before, reserved) := Sweep(jobs[..n], env);
      if reserved.None? then (before + [jobs[n]], None)
      else
        var j := ReconcileJob(jobs[n], env);
        if !Active(j.manifest) then (before + [j], reserved)
        else if j.manifest.jobId == "" || exists r <- reserved.value :: r.jobId == j.manifest.jobId
        then (before + [j], None)
        else (before + [j], Some(reserved.value + [Reservation(j.manifest.jobId, j.path)]))
  }

  function ReconcileLedger(l: Ledger, jobs: seq<Job>, env: Probe): Option<Ledger> {
    var reserved := Sweep(jobs, env).1;
    if reserved.None? then None
    else Some(l.(owners := LiveOwners(l.owners, env.alive), intents := LiveIntents(l.intents, env),
                 reservations := reserved.value))
  }

  function Occupied(l: Ledger): nat {
    |l.owners| + |l.reservations|
  }

  predicate Queued(l: Ledger, sequence: int) {
    exists t <- l.intents :: t.sequence == sequence
  }

  predicate First(l: Ledger, sequence: int) {
    forall t <- l.intents :: sequence <= t.sequence
  }

  // -- The locked operations ----------------------------------------------------------------

  datatype Outcome =
    | LedgerError        // the ledger or the jobs directory cannot be trusted; nothing is saved
    | Busy               // no capacity now; the reconciled ledger is saved
    | TimedOut           // the deadline passed or the intent was pruned; the reconciled ledger is saved
    | Waiting            // queued behind another launch or behind metadata; the ledger is saved
    | Done(saved: Ledger)
    | Commit(reconciled: Ledger) // a Pending job may be created now; nothing is saved yet

  function AcquireMetadata(r: Ledger, owner: Owner, stats: bool): Outcome {
    if (stats && r.intents != []) || Occupied(r) >= CAPACITY_LIMIT then Busy
    else Done(r.(owners := r.owners + [owner]))
  }

  function RegisterIntent(r: Ledger, pid: int, createdAt: string, deadlineAt: real, late: bool): Outcome {
    if |r.reservations| >= CAPACITY_LIMIT then Busy
    else if late then TimedOut
    else Done(r.(nextSequence := r.nextSequence + 1,
                 intents := r.intents + [Intent(pid, r.nextSequence, createdAt, deadlineAt)]))
  }

  function AdmitQueued(r: Ledger, sequence: int, late: bool): Outcome {
    if |r.reservations| >= CAPACITY_LIMIT then Busy
    else if late || !Queued(r, sequence) then TimedOut
    else if !First(r, sequence) || Occupied(r) >= CAPACITY_LIMIT then Waiting
    else Commit(r)
  }

  function AdmitImmediately(r: Ledger): Outcome {
    if |r.reservations| >= CAPACITY_LIMIT then Busy
    else if r.intents != [] || Occupied(r) >= CAPACITY_LIMIT then TimedOut
    else Commit(r)
  }

  function AfterCommit(l: Ledger, ticket: Option<int>): Ledger {
    if ticket.None? then l else l.(intents := WithoutSequence(l.intents, ticket.value))
  }

  // -- The code that runs them in place -----------------------------------------------------

  /** The capacity directory: the saved ledger and the job manifests. */
  class Home {
    var ledger: Ledger
    var jobs: seq<Job>

    constructor (ledger: Ledger, jobs: seq<Job>)
      ensures this.ledger == ledger && this.jobs == jobs
    {
      this.ledger, this.jobs := ledger, jobs;
    }

    method Acquire(owner: Owner, stats: bool, env: Probe) returns (outcome: Outcome)
      modifies this
      ensures jobs == old(Sweep(jobs, env).0)
      ensures outcome == old(match ReconcileLedger(ledger, jobs, env)
                             case None => LedgerError
                             case Some(r) => AcquireMetadata(r, owner, stats))
      ensures ledger == old(match ReconcileLedger(ledger, jobs, env)
                            case None => ledger
                            case Some(r) => match AcquireMetadata(r, owner, stats)
                                            case Done(l) => l
                                            case _ => r)
    {
      var work := new WorkingLedger(ledger);
      var ok := work.Reconcile(this, env);
      if !ok { return LedgerError; }
      if (stats && work.intents != []) || |work.owners| + |work.reservations| >= CAPACITY_LIMIT {
        ledger := work.Value();
        return Busy;
      }
      work.owners := work.owners + [owner];
      ledger := work.Value();
      return Done(ledger);
    }

    method Release(token: string, env: Probe) returns (ok: bool)
      modifies this
      ensures jobs == old(Sweep(jobs, env).0)
      ensures ok <==> old(ReconcileLedger(ledger, jobs, env)).Some?
      ensures ledger == old(match ReconcileLedger(ledger, jobs, env)
                            case None => ledger
                            case Some(r) => r.(owners := WithoutToken(r.owners, token)))
    {
      var work := new WorkingLedger(ledger);
      ok := work.Reconcile(this, env);
      if ok {
        work.RemoveOwner(token);
        ledger := work.Value();
      }
    }

    method Register(pid: int, createdAt: string, deadlineAt: real, late: bool, env: Probe)
      returns (outcome: Outcome)
      modifies this
      ensures jobs == old(Sweep(jobs, env).0)
      ensures outcome == old(match ReconcileLedger(ledger, jobs, env)
                             case None => LedgerError
                             case Some(r) => RegisterIntent(r, pid, createdAt, deadlineAt, late))
      ensures ledger == old(match ReconcileLedger(ledger, jobs, env)
                            case None => ledger
                            case Some(r) => match RegisterIntent(r, pid, createdAt, deadlineAt, late)
                                            case Done(l) => l
                                            case _ => r)
    {
      var work := new WorkingLedger(ledger);
      var ok := work.Reconcile(this, env);
      if !ok { return LedgerError; }
      if |work.reservations| >= CAPACITY_LIMIT {
        ledger := work.Value();
        return Busy;
      }
      if late {
        ledger := work.Value();
        return TimedOut;
      }
      var sequence := work.nextSequence;
      work.nextSequence := work.nextSequence + 1;
      work.intents := work.intents + [Intent(pid, sequence, createdAt, deadlineAt)];
      ledger := work.Value();
      return Done(ledger);
    }

    /**
     One admission attempt of a queued launch. `created` is the job the callback writes and `at` its place
     in the directory; `commitRefused` is a cancellation or a deadline that wins at the commit boundary;
     `later` is what the second reconciliation probes.
     */
    method Admit(sequence: int, late: bool, commitRefused: bool, created: Job, at: nat, env: Probe, later: Probe)
      returns (outcome: Outcome)
      requires at <= |jobs|
      modifies this
      ensures outcome == old(match ReconcileLedger(ledger, jobs, env)
                             case None => LedgerError
                             case Some(r) => AdmitQueued(r, sequence, late))
      ensures outcome.Commit? && !commitRefused ==>
                var written := Insert(old(Sweep(jobs, env).0), at, created);
                && jobs == Sweep(written, later).0
                && ledger == match ReconcileLedger(AfterCommit(outcome.reconciled, Some(sequence)), written, later)
                             case None => old(ledger)
                             case Some(r) => r
      ensures !outcome.Commit? || commitRefused ==>
                && jobs == old(Sweep(jobs, env).0)
                && ledger == old(if outcome.LedgerError? || outcome.Commit? then ledger
                                 else ReconcileLedger(ledger, jobs, env).value)
    {
      var work := new WorkingLedger(ledger);
      var ok := work.Reconcile(this, env);
      if !ok { return LedgerError; }
      if |work.reservations| >= CAPACITY_LIMIT {
        ledger := work.Value();
        return Busy;
      }
      if late || !Queued(work.Value(), sequence) {
        ledger := work.Value();
        return TimedOut;
      }
      if !First(work.Value(), sequence) || |work.owners| + |work.reservations| >= CAPACITY_LIMIT {
        ledger := work.Value();
        return Waiting;
      }
      outcome := Commit(work.Value());
      if commitRefused { return; }
      jobs := jobs[..at] + [created] + jobs[at..];
      work.RemoveIntent(sequence);
      ok := work.Reconcile(this, later);
      if ok { ledger := work.Value(); }
    }

    /** The single attempt of a zero-timeout launch: it has no intent and never waits. */
    method AdmitNow(commitRefused: bool, created: Job, at: nat, env: Probe, later: Probe) returns (outcome: Outcome)
      requires at <= |jobs|
      modifies this
      ensures outcome == old(match ReconcileLedger(ledger, jobs, env)
                             case None => LedgerError
                             case Some(r) => AdmitImmediately(r))
      ensures outcome.Commit? && !commitRefused ==>
                var written := Insert(old(Sweep(jobs, env).0), at, created);
                && jobs == Sweep(written, later).0
                && ledger == match ReconcileLedger(outcome.reconciled, written, later)
                             case None => old(ledger)
                             case Some(r) => r
      ensures !outcome.Commit? || commitRefused ==>
                && jobs == old(Sweep(jobs, env).0)
                && ledger == old(if outcome.LedgerError? || outcome.Commit? then ledger
                                 else ReconcileLedger(ledger, jobs, env).value)
    {
      var work := new WorkingLedger(ledger);
      var ok := work.Reconcile(this, env);
      if !ok { return LedgerError; }
      if |work.reservations| >= CAPACITY_LIMIT {
        ledger := work.Value();
        return Busy;
      }
      if work.intents != [] || |work.owners| + |work.reservations| >= CAPACITY_LIMIT {
        ledger := work.Value();
        return TimedOut;
      }
      outcome := Commit(work.Value());
      if commitRefused { return; }
      jobs := jobs[..at] + [created] + jobs[at..];
      ok := work.Reconcile(this, later);
      if ok { ledger := work.Value(); }
    }
  }

  /** A metadata slot, given back at most once and without touching anybody else's. */
  class MetadataLease {
    const token: string
    var released: bool

    constructor (token: string)
      ensures this.token == token && !released
    {
      this.token, released := token, false;
    }

    method Release(home: Home, env: Probe)
      modifies this, home
      ensures old(released) ==> released && home.ledger == old(home.ledger) && home.jobs == old(home.jobs)
      ensures !old(released) ==>
                && released == old(ReconcileLedger(home.ledger, home.jobs, env)).Some?
                && home.jobs == old(Sweep(home.jobs, env).0)
                && home.ledger == old(match ReconcileLedger(home.ledger, home.jobs, env)
                                      case None => home.ledger
                                      case Some(r) => r.(owners := WithoutToken(r.owners, token)))
    {
      if released { return; }
      released := home.Release(token, env);
    }
  }

  function Insert(jobs: seq<Job>, at: nat, j: Job): seq<Job>
    requires at <= |jobs|
  {
    jobs[..at] + [j] + jobs[at..]
  }

  /** The ledger as loaded: lists that each operation rebuilds or appends to. */
  class WorkingLedger {
    var nextSequence: int
    var owners: seq<Owner>
    var intents: seq<Intent>
    var reservations: seq<Reservation>

    function Value(): Ledger
      reads this
    {
      Ledger(nextSequence, owners, intents, reservations)
    }

    constructor (l: Ledger)
      ensures Value() == l
    {
      nextSequence, owners, intents, reservations := l.nextSequence, l.owners, l.intents, l.reservations;
    }

    method RemoveOwner(token: string)
      modifies this`owners
      ensures owners == WithoutToken(old(owners), token)
    {
      var kept: seq<Owner> := [];
      for n := 0 to |owners|
        invariant kept == WithoutToken(owners[..n], token)
      {
        assert owners[..n + 1][..n] == owners[..n];
        if owners[n].token != token { kept := kept + [owners[n]]; }
      }
      assert owners[..|owners|] == owners;
      owners := kept;
    }

    method RemoveIntent(sequence: int)
      modifies this`intents
      ensures intents == WithoutSequence(old(intents), sequence)
    {
      var kept: seq<Intent> := [];
      for n := 0 to |intents|
        invariant kept == WithoutSequence(intents[..n], sequence)
      {
        assert intents[..n + 1][..n] == intents[..n];
        if intents[n].sequence != sequence { kept := kept + [intents[n]]; }
      }
      assert intents[..|intents|] == intents;
      intents := kept;
    }

    method DropDead(env: Probe)
      modifies this`owners, this`intents
      ensures owners == LiveOwners(old(owners), env.alive)
      ensures intents == LiveIntents(old(intents), env)
    {
      var keptOwners: seq<Owner> := [];
      for n := 0 to |owners|
        invariant keptOwners == LiveOwners(owners[..n], env.alive)
      {
        assert owners[..n + 1][..n] == owners[..n];
        if owners[n].pid in env.alive { keptOwners := keptOwners + [owners[n]]; }
      }
      assert owners[..|owners|] == owners;
      owners := keptOwners;
      var keptIntents: seq<Intent> := [];
      for n := 0 to |intents|
        invariant keptIntents == LiveIntents(intents[..n], env)
      {
        assert intents[..n + 1][..n] == intents[..n];
        if IntentAlive(intents[n], env) { keptIntents := keptIntents + [intents[n]]; }
      }
      assert intents[..|intents|] == intents;
      intents := keptIntents;
    }

    method ReserveActiveJobs(home: Home, env: Probe) returns (ok: bool)
      modifies this`reservations, home`jobs
      ensures home.jobs == Sweep(old(home.jobs), env).0
      ensures if ok then Sweep(old(home.jobs), env).1 == Some(reservations) else Sweep(old(home.jobs), env).1.None?
    {
      var listed := home.jobs;
      reservations := [];
      for n := 0 to |listed|
        invariant |home.jobs| == |listed|
        invariant home.jobs[..n] == Sweep(listed[..n], env).0 && home.jobs[n..] == listed[n..]
        invariant Sweep(listed[..n], env).1 == Some(reservations)
      {
        SweepNext(listed, n, env);
        var j := ReconcileJob(listed[n], env);
        Rewritten(home.jobs, n, j);
        home.jobs := home.jobs[n := j];
        if Active(j.manifest) {
          if j.manifest.jobId == "" || exists r <- reservations :: r.jobId == j.manifest.jobId {
            SweepStops(listed, n + 1, env);
            return false;
          }
          reservations := reservations + [Reservation(j.manifest.jobId, j.path)];
        }
      }
      assert listed[..|listed|] == listed && home.jobs[..|listed|] == home.jobs;
      return true;
    }

    method Reconcile(home: Home, env: Probe) returns (ok: bool)
      modifies this, home`jobs
      ensures home.jobs == Sweep(old(home.jobs), env).0
      ensures ok <==> ReconcileLedger(old(Value()), old(home.jobs), env).Some?
      ensures ok ==> Value() == ReconcileLedger(old(Value()), old(home.jobs), env).value
    {
      DropDead(env);
      ok := ReserveActiveJobs(home, env);
    }
  }

  /** One entry rewritten: what precedes it, and what is still to come. */
  lemma Rewritten(jobs: seq<Job>, n: nat, j: Job)
    requires n < |jobs|
    ensures jobs[n := j][..n + 1] == jobs[..n] + [j] && jobs[n := j][n + 1..] == jobs[n..][1..]
    ensures jobs[n := j] == jobs[..n] + [j] + jobs[n + 1..]
  {
  }

  /** The pass up to the next entry. */
  lemma {:induction false} SweepNext(jobs: seq<Job>, n: nat, env: Probe)
    requires n < |jobs| && Sweep(jobs[..n], env).1.Some?
    ensures var (before, reserved) := Sweep(jobs[..n], env); var j := ReconcileJob(jobs[n], env);
            Sweep(jobs[..n + 1], env) ==
            (before + [j],
             if !Active(j.manifest) then reserved
             else if j.manifest.jobId == "" || exists r <- reserved.value :: r.jobId == j.manifest.jobId then None
             else Some(reserved.value + [Reservation(j.manifest.jobId, j.path)]))
  {
    assert jobs[..n + 1][..n] == jobs[..n];
  }

  /** Once the pass has failed, the remaining entries are left as they were. */
  lemma {:induction false} SweepStops(jobs: seq<Job>, n: nat, env: Probe)
    requires n <= |jobs| && Sweep(jobs[..n], env).1.None?
    ensures Sweep(jobs, env) == (Sweep(jobs[..n], env).0 + jobs[n..], None)
  {
    if n == |jobs| {
      assert jobs[..n] == jobs;
      assert Sweep(jobs, env).0 + jobs[n..] == Sweep(jobs, env).0;
    } else {
      var m := |jobs| - 1;
      assert jobs[..m][..n] == jobs[..n];
      SweepStops(jobs[..m], n, env);
      assert jobs[n..] == jobs[..m][n..] + [jobs[m]];
      assert Sweep(jobs[..m], env).0 + [jobs[m]] == Sweep(jobs[..n], env).0 + jobs[n..];
    }
  }
}
