/**
 The capacity protocol as a transition system: every locked block is a step, except that a
 commit is two steps (the Pending job is written, then the ledger is saved) so that a process
 can die in between. Process death, new processes, the clock and job progress are steps too, and so is
 a runner whose late write of Running brings a terminal manifest back. Pids are not reused and
 nobody deletes the ledger.
 */
module CapacityRuns {
  import opened Basics
  import opened LedgerFormat
  import opened Capacity
  import opened JobStates

  // A process that has written its Pending job and still holds the capacity lock.
  datatype Committing = Committing(pid: int, ledger: Ledger, ticket: Option<int>)

  datatype System = System(
    ledger: Ledger,            // as saved
    jobs: seq<Job>,            // as on disk
    born: set<int>, alive: set<int>,
    now: real,
    tokens: set<string>,       // lease tokens drawn so far
    lock: Option<Committing>,
    polling: map<int, int>,    // launches still trying: sequence -> pid
    admitted: seq<int>,        // sequences of the queued launches whose job was written, in order
    revived: nat)              // terminal manifests brought back so far

  datatype Step =
    | Acquire(owner: Owner, stats: bool)
    | Release(pid: int, token: string)
    | Register(pid: int, createdAt: string, deadlineAt: real, late: bool)
    | Admit(pid: int, sequence: int, late: bool, refused: bool, created: Job, at: nat)
    | AdmitNow(pid: int, refused: bool, created: Job, at: nat)
    | FinishCommit             // second reconciliation, save, unlock
    | AbandonCommit            // the holder raises: unlock without saving
    | Discard(pid: int, sequence: int)
    | GiveUp(sequence: int)    // the launch stops trying without reaching the lock
    | Die(pid: int)
    | Spawn(pid: int)
    | Tick(now: real)
    | Progress(k: nat, manifest: Manifest)
    | Revive(pid: int, k: nat) // a claim whose check for Pending is out of date

  function ProbeOf(s: System): Probe {
    Probe(s.alive, s.now)
  }

  predicate FreshJob(s: System, j: Job, at: nat) {
    && at <= |s.jobs| && j.path != "" && j.manifest.state == Pending
    && forall k <- s.jobs :: k.path != j.path
  }

  /** What runners, cancellations and other reconcilers do to one manifest. */
  predicate LegalProgress(was: Manifest, m: Manifest) {
    && m.jobId == was.jobId && Active(was)
    && (Active(m) ==> was.state == Pending && m.state == Running && m.pid.Some?)
  }

  predicate Enabled(s: System, step: Step) {
    match step
    case Acquire(o, _) => s.lock.None? && o.pid in s.alive && WellFormedOwner(o) && o.token !in s.tokens
    case Release(p, _) => s.lock.None? && p in s.alive
    case Register(p, createdAt, _, _) => s.lock.None? && p in s.alive && createdAt != ""
    case Admit(p, n, _, _, j, at) =>
      s.lock.None? && p in s.alive && n in s.polling && s.polling[n] == p && FreshJob(s, j, at)
    case AdmitNow(p, _, j, at) => s.lock.None? && p in s.alive && FreshJob(s, j, at)
    case FinishCommit => s.lock.Some? && s.lock.value.pid in s.alive
    case AbandonCommit => s.lock.Some?
    case Discard(p, n) => s.lock.None? && p in s.alive
    case GiveUp(n) => true
    case Die(p) => p in s.alive
    case Spawn(p) => p > 0 && p !in s.born
    case Tick(t) => t >= s.now
    case Progress(k, m) => k < |s.jobs| && LegalProgress(s.jobs[k].manifest, m)
    case Revive(p, k) => p in s.alive && k < |s.jobs| && !Active(s.jobs[k].manifest)
  }

  /** The saved ledger after a locked block that ends with `outcome`. */
  function Saved(l: Ledger, r: Ledger, outcome: Outcome): Ledger {
    match outcome
    case Done(x) => x
    case Commit(_) => l
    case LedgerError => l
    case _ => r
  }

  function Attempt(s: System, outcome: Outcome, r: Ledger, pid: int, ticket: Option<int>, refused: bool,
                   created: Job, at: nat): System
    requires at <= |s.jobs|
  {
    var swept := Sweep(s.jobs, ProbeOf(s)).0;
    var ends := ticket.Some? && !outcome.Waiting?;
    var t := s.(ledger := Saved(s.ledger, r, outcome), jobs := swept,
                polling := if ends then s.polling - {ticket.value} else s.polling);
    if outcome.Commit? && !refused
    then t.(jobs := Insert(swept, at, created), lock := Some(Committing(pid, r, ticket)),
            admitted := if ticket.Some? then s.admitted + [ticket.value] else s.admitted)
    else t
  }

  /** The state after a locked block that raises during reconciliation. */
  function Swept(s: System): System {
    s.(jobs := Sweep(s.jobs, ProbeOf(s)).0)
  }

  function Load(s: System): Option<Ledger> {
    ReconcileLedger(s.ledger, s.jobs, ProbeOf(s))
  }

  function Acquired(s: System, o: Owner, stats: bool): System {
    var t := Swept(s).(tokens := s.tokens + {o.token});
    if Load(s).None? then t
    else t.(ledger := Saved(s.ledger, Load(s).value, AcquireMetadata(Load(s).value, o, stats)))
  }

  function Released(s: System, token: string): System {
    if Load(s).None? then Swept(s)
    else Swept(s).(ledger := Load(s).value.(owners := WithoutToken(Load(s).value.owners, token)))
  }

  function Registered(s: System, pid: int, createdAt: string, deadlineAt: real, late: bool): System {
    if Load(s).None? then Swept(s)
    else
      var r := Load(s).value;
      var outcome := RegisterIntent(r, pid, createdAt, deadlineAt, late);
      Swept(s).(ledger := Saved(s.ledger, r, outcome),
                polling := if outcome.Done? then s.polling[r.nextSequence := pid] else s.polling)
  }

  function Discarded(s: System, n: int): System {
    var t := Swept(s).(polling := s.polling - {n});
    if Load(s).None? then t
    else t.(ledger := Load(s).value.(intents := WithoutSequence(Load(s).value.intents, n)))
  }

  function Finished(s: System): System
    requires s.lock.Some?
  {
    var c := s.lock.value;
    var final := ReconcileLedger(AfterCommit(c.ledger, c.ticket), s.jobs, ProbeOf(s));
    Swept(s).(lock := None, ledger := if final.None? then s.ledger else final.value)
  }

  function Apply(s: System, step: Step): System
    requires Enabled(s, step)
  {
    match step
    case Acquire(o, stats) => Acquired(s, o, stats)
    case Release(p, token) => Released(s, token)
    case Register(p, createdAt, deadlineAt, late) => Registered(s, p, createdAt, deadlineAt, late)
    case Admit(p, n, late, refused, j, at) =>
      if Load(s).None? then Swept(s).(polling := s.polling - {n})
      else Attempt(s, AdmitQueued(Load(s).value, n, late), Load(s).value, p, Some(n), refused, j, at)
    case AdmitNow(p, refused, j, at) =>
      if Load(s).None? then Swept(s)
      else Attempt(s, AdmitImmediately(Load(s).value), Load(s).value, p, None, refused, j, at)
    case FinishCommit => Finished(s)
    case AbandonCommit => s.(lock := None)
    case Discard(p, n) => Discarded(s, n)
    case GiveUp(n) => s.(polling := s.polling - {n})
    case Die(p) =>
      s.(alive := s.alive - {p}, lock := if s.lock.Some? && s.lock.value.pid == p then None else s.lock)
    case Spawn(p) => s.(born := s.born + {p}, alive := s.alive + {p})
    case Tick(t) => s.(now := t)
    case Progress(k, m) => s.(jobs := s.jobs[k := s.jobs[k].(manifest := m)])
    case Revive(p, k) =>
      var m := s.jobs[k].manifest.(state := Running, pid := Some(p), modifiedAt := s.now);
      s.(jobs := s.jobs[k := s.jobs[k].(manifest := m)], revived := s.revived + 1)
  }

  // -- What every reachable state satisfies --------------------------------------------------

  function ActiveJobs(s: System): nat {
    |Reservations(s.jobs)|
  }

  /** Slots in use: active jobs on disk plus saved metadata owners whose process is alive. */
  function InUse(s: System): nat {
    ActiveJobs(s) + |LiveOwners(s.ledger.owners, s.alive)|
  }

  function Last(xs: seq<int>): int {
    if xs == [] then 0 else xs[|xs| - 1]
  }

  ghost predicate Increasing(xs: seq<int>) {
    forall i, j :: 0 <= i < j < |xs| ==> xs[i] < xs[j]
  }

  ghost predicate KnownPids(s: System, l: Ledger) {
    && (forall o <- l.owners :: o.pid in s.born && o.token in s.tokens)
    && (forall t <- l.intents :: t.pid in s.born)
  }

  /** An intent that can still be admitted has a larger sequence than every launch admitted so far. */
  ghost predicate BehindAdmitted(s: System) {
    forall t <- s.ledger.intents ::
      t.sequence > Last(s.admitted) || t.sequence !in s.polling || !IntentAlive(t, ProbeOf(s))
  }

  ghost predicate LockInv(s: System, c: Committing) {
    && c.pid in s.alive
    && Valid(c.ledger) && KnownPids(s, c.ledger)
    && c.ledger.nextSequence == s.ledger.nextSequence
    && (c.ticket.Some? ==> c.ticket.value == Last(s.admitted))
    && (forall t <- c.ledger.intents :: t.sequence > Last(s.admitted) || Some(t.sequence) == c.ticket)
    && |c.ledger.owners| <= |s.ledger.owners|
    && ActiveJobs(s) + |LiveOwners(c.ledger.owners, s.alive)| <= CAPACITY_LIMIT + s.revived
  }

  ghost predicate Inv(s: System) {
    && Valid(s.ledger) && KnownPids(s, s.ledger)
    && s.alive <= s.born && (forall p <- s.born :: p > 0)
    && (forall j <- s.jobs :: j.path != "")
    && InUse(s) <= CAPACITY_LIMIT + s.revived
    && Increasing(s.admitted) && 0 <= Last(s.admitted) < s.ledger.nextSequence
    && (forall n <- s.polling :: 0 < n < s.ledger.nextSequence)
    && BehindAdmitted(s)
    && (s.lock.Some? ==> LockInv(s, s.lock.value))
  }

  /** Nothing is in progress and the saved ledger is one the capacity code accepts. */
  ghost predicate Initial(s: System) {
    && Valid(s.ledger) && KnownPids(s, s.ledger)
    && s.alive <= s.born && (forall p <- s.born :: p > 0)
    && (forall j <- s.jobs :: j.path != "")
    && InUse(s) <= CAPACITY_LIMIT
    && s.lock.None? && s.polling == map[] && s.admitted == [] && s.revived == 0
  }

  // -- Filtering and counting ---------------------------------------------------------------

  lemma {:induction false} FilterCount<T(!new)>(p: T -> bool, q: T -> bool, xs: seq<T>)
    requires forall x <- xs :: p(x) ==> q(x)
    ensures |Filter(p, xs)| <= |Filter(q, xs)| <= |xs|
  {
    if xs != [] {
      assert forall x <- xs[..|xs| - 1] :: x in xs;
      FilterCount(p, q, xs[..|xs| - 1]);
    }
  }

  lemma {:induction false} FilterOfFilterCount<T(!new)>(p: T -> bool, q: T -> bool, xs: seq<T>)
    ensures |Filter(p, Filter(q, xs))| <= |Filter(p, xs)|
  {
    if xs != [] {
      var rest, last := xs[..|xs| - 1], xs[|xs| - 1];
      FilterOfFilterCount(p, q, rest);
      if q(last) {
        assert (Filter(q, rest) + [last])[..|Filter(q, rest)|] == Filter(q, rest);
      } else {
        assert Filter(q, xs) == Filter(q, rest);
      }
    }
  }

  lemma {:induction false} FilterKeepsTokensDistinct(p: Owner -> bool, owners: seq<Owner>)
    requires DistinctTokens(owners)
    ensures DistinctTokens(Filter(p, owners))
  {
    if owners != [] {
      FilterKeepsTokensDistinct(p, owners[..|owners| - 1]);
      var n := |owners| - 1;
      var before := Filter(p, owners[..n]);
      forall i | 0 <= i < |before| ensures before[i].token != owners[n].token {
        assert before[i] in before;
        var k :| 0 <= k < n && owners[k] == before[i];
      }
    }
  }

  lemma {:induction false} FilterKeepsSequencesDistinct(p: Intent -> bool, intents: seq<Intent>)
    requires DistinctSequences(intents)
    ensures DistinctSequences(Filter(p, intents))
  {
    if intents != [] {
      FilterKeepsSequencesDistinct(p, intents[..|intents| - 1]);
      var n := |intents| - 1;
      var before := Filter(p, intents[..n]);
      forall i | 0 <= i < |before| ensures before[i].sequence != intents[n].sequence {
        assert before[i] in before;
        var k :| 0 <= k < n && intents[k] == before[i];
      }
    }
  }

  lemma {:induction false} FewerActive(jobs: seq<Job>, after: seq<Job>)
    requires |jobs| == |after|
    requires forall k :: 0 <= k < |jobs| ==> (Active(after[k].manifest) ==> Active(jobs[k].manifest))
    ensures |Reservations(after)| <= |Reservations(jobs)|
  {
    if jobs != [] {
      FewerActive(jobs[..|jobs| - 1], after[..|jobs| - 1]);
    }
  }

  lemma {:induction false} ReservationsConcat(a: seq<Job>, b: seq<Job>)
    ensures Reservations(a + b) == Reservations(a) + Reservations(b)
  {
    if b == [] {
      assert a + b == a;
    } else {
      assert (a + b)[..|a + b| - 1] == a + b[..|b| - 1];
      ReservationsConcat(a, b[..|b| - 1]);
    }
  }

  lemma {:induction false} InsertAddsOne(jobs: seq<Job>, at: nat, j: Job)
    requires at <= |jobs|
    ensures |Reservations(Insert(jobs, at, j))| == |Reservations(jobs)| + if Active(j.manifest) then 1 else 0
  {
    ReservationsConcat(jobs[..at] + [j], jobs[at..]);
    ReservationsConcat(jobs[..at], [j]);
    ReservationsConcat(jobs[..at], jobs[at..]);
    assert jobs[..at] + jobs[at..] == jobs;
    assert [j][..0] == [];
  }

  lemma {:induction false} SweepPointwise(jobs: seq<Job>, env: Probe)
    ensures forall k :: 0 <= k < |jobs| ==>
      var was, now := jobs[k], Sweep(jobs, env).0[k];
      now.path == was.path && (now == was || now == ReconcileJob(was, env))
  {
    if jobs != [] {
      SweepPointwise(jobs[..|jobs| - 1], env);
    }
  }

  lemma {:induction false} SweepReserves(jobs: seq<Job>, env: Probe)
    requires forall j <- jobs :: j.path != ""
    requires Sweep(jobs, env).1.Some?
    ensures var (swept, reserved) := Sweep(jobs, env);
            && reserved.value == Reservations(swept) && DistinctJobs(reserved.value)
            && forall r <- reserved.value :: WellFormedReservation(r)
  {
    if jobs != [] {
      var n := |jobs| - 1;
      SweepReserves(jobs[..n], env);
      assert Sweep(jobs, env).0[..n] == Sweep(jobs[..n], env).0;
    }
  }

  lemma {:induction false} SweepFrees(jobs: seq<Job>, env: Probe)
    ensures |Reservations(Sweep(jobs, env).0)| <= |Reservations(jobs)|
    ensures (forall j <- jobs :: j.path != "") ==> forall j <- Sweep(jobs, env).0 :: j.path != ""
  {
    SweepPointwise(jobs, env);
    FewerActive(jobs, Sweep(jobs, env).0);
    if forall j <- jobs :: j.path != "" {
      var swept := Sweep(jobs, env).0;
      forall j <- swept ensures j.path != "" {
        var k :| 0 <= k < |swept| && swept[k] == j;
        assert jobs[k] in jobs;
      }
    }
  }

  /** A reconciled ledger is valid, holds only live entries, and counts exactly the slots in use. */
  lemma Reconciled(s: System, l: Ledger)
    requires Valid(l) && KnownPids(s, l)
    requires forall j <- s.jobs :: j.path != ""
    requires ReconcileLedger(l, s.jobs, ProbeOf(s)).Some?
    ensures var r := ReconcileLedger(l, s.jobs, ProbeOf(s)).value;
            && Valid(r) && KnownPids(s, r) && r.nextSequence == l.nextSequence
            && r.owners == LiveOwners(l.owners, s.alive)
            && r.reservations == Reservations(Sweep(s.jobs, ProbeOf(s)).0)
            && |LiveOwners(r.owners, s.alive)| <= |r.owners|
            && forall t <- r.intents :: t in l.intents && IntentAlive(t, ProbeOf(s))
  {
    SweepReserves(s.jobs, ProbeOf(s));
    var r := ReconcileLedger(l, s.jobs, ProbeOf(s)).value;
    FilterKeepsTokensDistinct((o: Owner) => o.pid in s.alive, l.owners);
    FilterKeepsSequencesDistinct((t: Intent) => IntentAlive(t, ProbeOf(s)), l.intents);
    FilterCount((o: Owner) => o.pid in s.alive, (o: Owner) => o.pid in s.alive, r.owners);
  }

  // -- Every step keeps the invariant --------------------------------------------------------

  ghost predicate SafeLedger(s: System, t: System, l: Ledger) {
    && Valid(l) && KnownPids(t, l)
    && (|l.owners| + |Reservations(t.jobs)| <= CAPACITY_LIMIT || |l.owners| <= |LiveOwners(s.ledger.owners, s.alive)|)
    && s.ledger.nextSequence <= l.nextSequence
    && forall x <- l.intents :: x in s.ledger.intents || x.sequence >= s.ledger.nextSequence
  }

  /** A locked block that saves a ledger derived from the reconciled one. */
  lemma SavingKeepsInv(s: System, t: System)
    requires Inv(s) && s.lock.None?
    requires t == Swept(s).(ledger := t.ledger, polling := t.polling, tokens := t.tokens)
    requires SafeLedger(s, t, t.ledger) && s.tokens <= t.tokens
    requires forall n <- t.polling :: 0 < n < t.ledger.nextSequence && (n in s.polling || n >= s.ledger.nextSequence)
    ensures Inv(t)
  {
    SweepFrees(s.jobs, ProbeOf(s));
    FilterCount((o: Owner) => o.pid in s.alive, (o: Owner) => o.pid in s.alive, t.ledger.owners);
  }

  /** The locked block raised: at most the jobs directory was reconciled. */
  lemma SweepingKeepsInv(s: System, t: System)
    requires Inv(s) && s.lock.None?
    requires t == s.(jobs := Sweep(s.jobs, ProbeOf(s)).0, polling := t.polling, tokens := t.tokens)
    requires s.tokens <= t.tokens && t.polling.Keys <= s.polling.Keys
    ensures Inv(t)
  {
    SweepFrees(s.jobs, ProbeOf(s));
  }

  lemma AddOwner(s: System, t: System, r: Ledger, o: Owner)
    requires SafeLedger(s, Swept(s), r) && WellFormedOwner(o) && o.token !in s.tokens && o.pid in s.born
    requires t == Swept(s).(ledger := t.ledger, tokens := s.tokens + {o.token})
    requires |r.owners| + |Reservations(t.jobs)| < CAPACITY_LIMIT
    ensures SafeLedger(s, t, r.(owners := r.owners + [o]))
  {
    forall i | 0 <= i < |r.owners| ensures r.owners[i].token != o.token {
      assert r.owners[i] in r.owners;
    }
  }

  lemma LoadedIsSafe(s: System, t: System)
    requires Inv(s) && Load(s).Some? && t.jobs == Swept(s).jobs && s.born <= t.born && s.tokens <= t.tokens
    ensures SafeLedger(s, t, Load(s).value)
  {
    Reconciled(s, s.ledger);
  }

  lemma LoadedCounts(s: System)
    requires Inv(s) && Load(s).Some?
    ensures Occupied(Load(s).value) == |LiveOwners(s.ledger.owners, s.alive)| + |Reservations(Swept(s).jobs)|
    ensures |LiveOwners(Load(s).value.owners, s.alive)| <= |LiveOwners(s.ledger.owners, s.alive)|
  {
    Reconciled(s, s.ledger);
  }

  lemma GrantIsSafe(s: System, o: Owner)
    requires Inv(s) && o.pid in s.alive && WellFormedOwner(o) && o.token !in s.tokens
    requires Load(s).Some? && Occupied(Load(s).value) < CAPACITY_LIMIT
    ensures var r := Load(s).value;
            var l := r.(owners := r.owners + [o]);
            SafeLedger(s, Swept(s).(ledger := l, tokens := s.tokens + {o.token}), l)
  {
    var r := Load(s).value;
    LoadedIsSafe(s, Swept(s));
    Reconciled(s, s.ledger);
    AddOwner(s, Swept(s).(ledger := r.(owners := r.owners + [o]), tokens := s.tokens + {o.token}), r, o);
  }

  lemma AcquireIsSafe(s: System, o: Owner, stats: bool)
    requires Inv(s) && o.pid in s.alive && WellFormedOwner(o) && o.token !in s.tokens
    requires Load(s).Some?
    ensures SafeLedger(s, Acquired(s, o, stats), Acquired(s, o, stats).ledger)
  {
    if AcquireMetadata(Load(s).value, o, stats).Done? {
      GrantIsSafe(s, o);
    } else {
      LoadedIsSafe(s, Acquired(s, o, stats));
    }
  }

  lemma AcquireKeepsInv(s: System, o: Owner, stats: bool)
    requires Inv(s) && s.lock.None? && o.pid in s.alive && WellFormedOwner(o) && o.token !in s.tokens
    ensures Inv(Acquired(s, o, stats))
  {
    var t := Acquired(s, o, stats);
    if Load(s).None? {
      SweepingKeepsInv(s, t);
    } else {
      AcquireIsSafe(s, o, stats);
      SavingKeepsInv(s, t);
    }
  }

  lemma ReleaseKeepsInv(s: System, token: string)
    requires Inv(s) && s.lock.None?
    ensures Inv(Released(s, token))
  {
    var t := Released(s, token);
    if Load(s).None? {
      SweepingKeepsInv(s, t);
    } else {
      Reconciled(s, s.ledger);
      var r := Load(s).value;
      FilterKeepsTokensDistinct((o: Owner) => o.token != token, r.owners);
      FilterCount((o: Owner) => o.token != token, (o: Owner) => o.token != token, r.owners);
      SavingKeepsInv(s, t);
    }
  }

  lemma AddIntent(s: System, r: Ledger, pid: int, createdAt: string, deadlineAt: real)
    requires Valid(r) && KnownPids(s, r) && pid in s.born && pid > 0 && createdAt != ""
    ensures var l := r.(nextSequence := r.nextSequence + 1,
                        intents := r.intents + [Intent(pid, r.nextSequence, createdAt, deadlineAt)]);
            Valid(l) && KnownPids(s, l)
  {
    forall i | 0 <= i < |r.intents| ensures r.intents[i].sequence < r.nextSequence {
      assert r.intents[i] in r.intents;
    }
  }

  lemma RegisterIsSafe(s: System, p: int, createdAt: string, deadlineAt: real, late: bool)
    requires Inv(s) && p in s.alive && createdAt != "" && Load(s).Some?
    ensures var t := Registered(s, p, createdAt, deadlineAt, late); SafeLedger(s, t, t.ledger)
  {
    var t, r := Registered(s, p, createdAt, deadlineAt, late), Load(s).value;
    LoadedIsSafe(s, t);
    if RegisterIntent(r, p, createdAt, deadlineAt, late).Done? {
      LoadedIsSafe(s, Swept(s));
      LoadedKeepsNumber(s);
      AddIntent(s, r, p, createdAt, deadlineAt);
    }
  }

  lemma LoadedKeepsNumber(s: System)
    requires Inv(s) && Load(s).Some?
    ensures Valid(Load(s).value) && KnownPids(s, Load(s).value) && Load(s).value.nextSequence == s.ledger.nextSequence
  {
    Reconciled(s, s.ledger);
  }

  lemma RegisterKeepsInv(s: System, p: int, createdAt: string, deadlineAt: real, late: bool)
    requires Inv(s) && s.lock.None? && p in s.alive && createdAt != ""
    ensures Inv(Registered(s, p, createdAt, deadlineAt, late))
  {
    var t := Registered(s, p, createdAt, deadlineAt, late);
    if Load(s).None? {
      SweepingKeepsInv(s, t);
    } else {
      RegisterIsSafe(s, p, createdAt, deadlineAt, late);
      SavingKeepsInv(s, t);
    }
  }

  lemma DiscardKeepsInv(s: System, n: int)
    requires Inv(s) && s.lock.None?
    ensures Inv(Discarded(s, n))
  {
    var t := Discarded(s, n);
    if Load(s).None? {
      SweepingKeepsInv(s, t);
    } else {
      Reconciled(s, s.ledger);
      var r := Load(s).value;
      FilterKeepsSequencesDistinct((x: Intent) => x.sequence != n, r.intents);
      SavingKeepsInv(s, t);
    }
  }

  lemma CommitKeepsCount(s: System, r: Ledger, created: Job, at: nat)
    requires Inv(s) && s.lock.None? && FreshJob(s, created, at)
    requires Load(s) == Some(r) && Occupied(r) < CAPACITY_LIMIT
    ensures var jobs := Insert(Sweep(s.jobs, ProbeOf(s)).0, at, created);
            && |Reservations(jobs)| + |LiveOwners(s.ledger.owners, s.alive)| <= CAPACITY_LIMIT
            && |Reservations(jobs)| + |LiveOwners(r.owners, s.alive)| <= CAPACITY_LIMIT
            && forall j <- jobs :: j.path != ""
  {
    var swept := Swept(s).jobs;
    SweepFrees(s.jobs, ProbeOf(s));
    InsertAddsOne(swept, at, created);
    LoadedCounts(s);
    InsertKeepsPaths(swept, at, created);
  }

  lemma InsertKeepsPaths(jobs: seq<Job>, at: nat, created: Job)
    requires at <= |jobs| && created.path != "" && forall j <- jobs :: j.path != ""
    ensures forall j <- Insert(jobs, at, created) :: j.path != ""
  {
    forall j <- Insert(jobs, at, created) ensures j.path != "" {
      assert j in jobs || j == created;
    }
  }

  /** What must hold of a state in which a process has just written its job. */
  ghost predicate JustWritten(s: System, t: System, c: Committing) {
    && t == s.(jobs := t.jobs, lock := Some(c), polling := t.polling, admitted := t.admitted)
    && InUse(t) <= CAPACITY_LIMIT && (forall j <- t.jobs :: j.path != "")
    && t.polling.Keys <= s.polling.Keys
    && Increasing(t.admitted) && 0 <= Last(t.admitted) < s.ledger.nextSequence && BehindAdmitted(t)
    && LockInv(t, c)
  }

  lemma WritingKeepsInv(s: System, t: System, c: Committing)
    requires Inv(s) && s.lock.None? && JustWritten(s, t, c)
    ensures Inv(t)
  {
  }

  /** An immediate attempt that writes its job: the slot was free and nobody alive was queued. */
  lemma CommitNowKeepsInv(s: System, r: Ledger, pid: int, created: Job, at: nat)
    requires Inv(s) && s.lock.None? && pid in s.alive && FreshJob(s, created, at)
    requires Load(s) == Some(r) && Occupied(r) < CAPACITY_LIMIT && r.intents == []
    ensures Inv(Attempt(s, Commit(r), r, pid, None, false, created, at))
  {
    var t, c := Attempt(s, Commit(r), r, pid, None, false, created, at), Committing(pid, r, None);
    assert t == s.(jobs := Insert(Swept(s).jobs, at, created), lock := Some(c));
    CommitKeepsCount(s, r, created, at);
    LoadedKeepsNumber(s);
    NobodyQueued(s, r);
    WritingKeepsInv(s, t, c);
  }

  lemma NobodyQueued(s: System, r: Ledger)
    requires Load(s) == Some(r) && r.intents == []
    ensures forall x <- s.ledger.intents :: !IntentAlive(x, ProbeOf(s))
  {
    forall x <- s.ledger.intents ensures !IntentAlive(x, ProbeOf(s)) {
      assert x !in r.intents;
    }
  }

  /** A queued attempt that writes its job: the slot was free, and older intents can no longer be admitted. */
  lemma CommitQueuedKeepsInv(s: System, r: Ledger, pid: int, n: int, created: Job, at: nat)
    requires Inv(s) && s.lock.None? && pid in s.alive && FreshJob(s, created, at)
    requires Load(s) == Some(r) && Occupied(r) < CAPACITY_LIMIT
    requires Queued(r, n) && First(r, n) && n in s.polling
    ensures Inv(Attempt(s, Commit(r), r, pid, Some(n), false, created, at))
  {
    var t, c := Attempt(s, Commit(r), r, pid, Some(n), false, created, at), Committing(pid, r, Some(n));
    assert t == s.(jobs := Insert(Swept(s).jobs, at, created), lock := Some(c), polling := s.polling - {n},
                   admitted := s.admitted + [n]);
    CommitKeepsCount(s, r, created, at);
    LoadedKeepsNumber(s);
    TicketComesNext(s, r, n);
    assert Last(t.admitted) == n;
    WritingKeepsInv(s, t, c);
  }

  lemma TicketComesNext(s: System, r: Ledger, n: int)
    requires Inv(s) && s.lock.None?
    requires Load(s) == Some(r)
    requires Queued(r, n) && First(r, n) && n in s.polling
    ensures Last(s.admitted) < n < s.ledger.nextSequence
    ensures forall x <- r.intents :: x.sequence > n || x.sequence == n
    ensures forall x <- s.ledger.intents :: x.sequence < n ==> !IntentAlive(x, ProbeOf(s))
    ensures Increasing(s.admitted + [n])
  {
    Reconciled(s, s.ledger);
    var mine :| mine in r.intents && mine.sequence == n;
    assert mine in s.ledger.intents;
    OlderAreGone(s, r, n);
    StillIncreasing(s.admitted, n);
  }

  lemma OlderAreGone(s: System, r: Ledger, n: int)
    requires Load(s) == Some(r) && First(r, n)
    ensures forall x <- s.ledger.intents :: x.sequence < n ==> !IntentAlive(x, ProbeOf(s))
  {
    forall x <- s.ledger.intents | IntentAlive(x, ProbeOf(s)) ensures x.sequence >= n {
      assert x in r.intents;
    }
  }

  lemma StillIncreasing(xs: seq<int>, n: int)
    requires Increasing(xs) && Last(xs) < n
    ensures Increasing(xs + [n])
  {
  }

  lemma NoCommitKeepsInv(s: System, r: Ledger, pid: int, ticket: Option<int>, refused: bool, created: Job, at: nat,
                         outcome: Outcome)
    requires Inv(s) && s.lock.None? && FreshJob(s, created, at)
    requires Load(s) == Some(r)
    requires !outcome.Done? && (outcome.Commit? ==> refused)
    ensures Inv(Attempt(s, outcome, r, pid, ticket, refused, created, at))
  {
    var t := Attempt(s, outcome, r, pid, ticket, refused, created, at);
    LoadedIsSafe(s, t);
    if t.ledger == r {
      SavingKeepsInv(s, t);
    } else {
      SweepingKeepsInv(s, t);
    }
  }

  lemma AdmitKeepsInv(s: System, step: Step)
    requires Inv(s) && (step.Admit? || step.AdmitNow?) && Enabled(s, step)
    ensures Inv(Apply(s, step))
  {
    if Load(s).None? {
      SweepingKeepsInv(s, Apply(s, step));
    } else {
      var r := Load(s).value;
      match step
      case Admit(p, n, late, refused, j, at) =>
        var outcome := AdmitQueued(r, n, late);
        if outcome.Commit? && !refused {
          CommitQueuedKeepsInv(s, r, p, n, j, at);
        } else {
          NoCommitKeepsInv(s, r, p, Some(n), refused, j, at, outcome);
        }
      case AdmitNow(p, refused, j, at) =>
        var outcome := AdmitImmediately(r);
        if outcome.Commit? && !refused {
          CommitNowKeepsInv(s, r, p, j, at);
        } else {
          NoCommitKeepsInv(s, r, p, None, refused, j, at, outcome);
        }
    }
  }

  lemma FinishCommitKeepsInv(s: System)
    requires Inv(s) && s.lock.Some?
    ensures Inv(Finished(s))
  {
    var c := s.lock.value;
    var l := AfterCommit(c.ledger, c.ticket);
    if c.ticket.Some? {
      FilterKeepsSequencesDistinct((x: Intent) => x.sequence != c.ticket.value, c.ledger.intents);
    }
    SweepFrees(s.jobs, ProbeOf(s));
    if ReconcileLedger(l, s.jobs, ProbeOf(s)).Some? {
      Reconciled(s, l);
    }
  }

  lemma DieKeepsInv(s: System, p: int)
    requires Inv(s) && Enabled(s, Die(p))
    ensures Inv(Apply(s, Die(p)))
  {
    var t := Apply(s, Die(p));
    FilterCount((o: Owner) => o.pid in t.alive, (o: Owner) => o.pid in s.alive, s.ledger.owners);
    if s.lock.Some? {
      FilterCount((o: Owner) => o.pid in t.alive, (o: Owner) => o.pid in s.alive, s.lock.value.ledger.owners);
    }
  }

  lemma SpawnKeepsInv(s: System, p: int)
    requires Inv(s) && Enabled(s, Spawn(p))
    ensures Inv(Apply(s, Spawn(p)))
  {
    var t := Apply(s, Spawn(p));
    FilterCount((o: Owner) => o.pid in t.alive, (o: Owner) => o.pid in s.alive, s.ledger.owners);
    if s.lock.Some? {
      FilterCount((o: Owner) => o.pid in t.alive, (o: Owner) => o.pid in s.alive, s.lock.value.ledger.owners);
    }
  }

  lemma ProgressKeepsInv(s: System, k: nat, m: Manifest)
    requires Inv(s) && Enabled(s, Progress(k, m))
    ensures Inv(Apply(s, Progress(k, m)))
  {
    var t := Apply(s, Progress(k, m));
    FewerActive(s.jobs, t.jobs);
    assert s.jobs[k] in s.jobs;
  }

  /** A revival takes a slot without asking, so the bound of two survives it exactly when a slot was free. */
  lemma ReviveTakesASlot(s: System, p: int, k: nat)
    requires Enabled(s, Revive(p, k))
    ensures InUse(Apply(s, Revive(p, k))) == InUse(s) + 1
    ensures InUse(Apply(s, Revive(p, k))) <= CAPACITY_LIMIT <==> InUse(s) < CAPACITY_LIMIT
  {
    OneMoreActive(s.jobs, k, Apply(s, Revive(p, k)).jobs[k]);
  }

  lemma OneMoreActive(jobs: seq<Job>, k: nat, j: Job)
    requires k < |jobs| && !Active(jobs[k].manifest) && Active(j.manifest)
    ensures |Reservations(jobs[k := j])| == |Reservations(jobs)| + 1
  {
    var before, after := jobs[..k], jobs[k + 1..];
    assert jobs == before + [jobs[k]] + after && jobs[k := j] == before + [j] + after;
    ReservationsConcat(before + [jobs[k]], after);
    ReservationsConcat(before, [jobs[k]]);
    ReservationsConcat(before + [j], after);
    ReservationsConcat(before, [j]);
    assert [j][..0] == [] && [jobs[k]][..0] == [];
  }

  lemma ReviveKeepsInv(s: System, p: int, k: nat)
    requires Inv(s) && Enabled(s, Revive(p, k))
    ensures Inv(Apply(s, Revive(p, k)))
  {
    OneMoreActive(s.jobs, k, Apply(s, Revive(p, k)).jobs[k]);
    assert s.jobs[k] in s.jobs;
  }

  lemma StepKeepsInv(s: System, step: Step)
    requires Inv(s) && Enabled(s, step)
    ensures Inv(Apply(s, step))
  {
    match step
    case Acquire(o, stats) => AcquireKeepsInv(s, o, stats);
    case Release(p, token) => ReleaseKeepsInv(s, token);
    case Register(p, createdAt, deadlineAt, late) => RegisterKeepsInv(s, p, createdAt, deadlineAt, late);
    case Admit(_, _, _, _, _, _) => AdmitKeepsInv(s, step);
    case AdmitNow(_, _, _, _) => AdmitKeepsInv(s, step);
    case FinishCommit => FinishCommitKeepsInv(s);
    case AbandonCommit =>
    case Discard(p, n) => DiscardKeepsInv(s, n);
    case GiveUp(n) =>
    case Die(p) => DieKeepsInv(s, p);
    case Spawn(p) => SpawnKeepsInv(s, p);
    case Tick(t) =>
    case Progress(k, m) => ProgressKeepsInv(s, k, m);
    case Revive(p, k) => ReviveKeepsInv(s, p, k);
  }
}
