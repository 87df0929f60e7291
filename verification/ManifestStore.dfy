/**
 One job manifest as a versioned store with many writers: the runner, cancellation, and the two
 kinds of reconciler, which judge a loaded manifest first and write later. A write gives the file
 a fresh stamp (inode and mtime), and a dead pid stays dead.
 */
module ManifestStore {
  import opened Basics
  import opened JobStates
  import Capacity

  // `rest` is everything else in the JSON object.
  datatype Manifest = Manifest(
    state: JobState, pid: Option<int>, exitCode: Option<int>,
    startedAt: Option<real>, finishedAt: Option<real>, rest: string)

  datatype Version = Version(item: Manifest, stamp: nat, modifiedAt: real)

  predicate Terminal(m: Manifest) {
    m.state == Succeeded || m.state == Failed || m.state == Cancelled
  }

  function MarkFailed(m: Manifest, now: real): Manifest {
    m.(state := Failed, exitCode := Some(-1), finishedAt := Some(now))
  }

  predicate DeadRunner(m: Manifest, alive: set<int>) {
    m.state == Running && m.pid.Some? && m.pid.value !in alive
  }

  predicate Orphan(m: Manifest) {
    m.state == Pending && m.pid.None?
  }

  /** `job_lifecycle.reconcile`: the Failed manifest to write, if the given one is stale. */
  function Reconcile(m: Manifest, modifiedAt: real, alive: set<int>, now: real): Option<Manifest> {
    if DeadRunner(m, alive) || (Orphan(m) && now - modifiedAt > PENDING_ORPHAN_GRACE)
    then Some(MarkFailed(m, now)) else None
  }

  /** What the capacity ledger keeps of a manifest. */
  function Reduced(m: Manifest, jobId: string, modifiedAt: real): Capacity.Manifest {
    Capacity.Manifest(jobId, m.state, m.pid, modifiedAt)
  }

  /** The capacity ledger's rule for stale jobs is this one, and so is what it makes of them. */
  lemma SameStaleRule(m: Manifest, jobId: string, path: string, modifiedAt: real, env: Capacity.Probe)
    ensures var stale := Reconcile(m, modifiedAt, env.alive, env.now);
            var job := Capacity.Job(path, Reduced(m, jobId, modifiedAt));
            && (stale.Some? <==> Capacity.Stale(job.manifest, env))
            && Capacity.ReconcileJob(job, env) ==
               (if stale.Some? then Capacity.Job(path, Reduced(stale.value, jobId, env.now)) else job)
            && (Capacity.Active(job.manifest) <==> !Terminal(m))
  {
  }

  /** A manifest is failed exactly when its runner is dead or it has waited five minutes for one, and how. */
  lemma StaleJobsAreFailed(m: Manifest, modifiedAt: real, alive: set<int>, now: real, result: Manifest)
    ensures Reconcile(m, modifiedAt, alive, now) == Some(result) <==>
            && (|| (m.state == Running && m.pid.Some? && m.pid.value !in alive)
                || (m.state == Pending && m.pid.None? && now - modifiedAt > 300.0))
            && result == Manifest(Failed, m.pid, Some(-1), m.startedAt, Some(now), m.rest)
  {
  }

  // -- The store ----------------------------------------------------------------------------

  class ManifestFile {
    var version: Version
    var nextStamp: nat

    ghost predicate Valid()
      reads this
    {
      version.stamp < nextStamp
    }

    constructor (item: Manifest, now: real)
      ensures Valid() && version.item == item && version.modifiedAt == now
    {
      version, nextStamp := Version(item, 0, now), 1;
    }

    method Write(item: Manifest, now: real)
      requires Valid()
      modifies this
      ensures Valid() && version == Version(item, old(nextStamp), now) && nextStamp == old(nextStamp) + 1
    {
      version, nextStamp := Version(item, nextStamp, now), nextStamp + 1;
    }

    /** Replace the file only while its loaded stamp is current. */
    method WriteIfUnchanged(item: Manifest, loaded: nat, now: real) returns (written: bool)
      requires Valid()
      modifies this
      ensures Valid() && (written <==> old(version.stamp) == loaded)
      ensures if written then version == Version(item, old(nextStamp), now) && nextStamp == old(nextStamp) + 1
              else version == old(version) && nextStamp == old(nextStamp)
    {
      if version.stamp != loaded { return false; }
      Write(item, now);
      return true;
    }

    /** Apply the three fields of a reconciliation only while the contents are the ones judged. */
    method UpdateIfCurrent(expected: Manifest, judged: Manifest, now: real) returns (current: Manifest, written: bool)
      requires Valid()
      modifies this
      ensures Valid() && (written <==> old(version.item) == expected) && current == version.item
      ensures if written
              then version == Version(old(version.item).(state := judged.state, exitCode := judged.exitCode,
                                                         finishedAt := judged.finishedAt),
                                      old(nextStamp), now)
                   && nextStamp == old(nextStamp) + 1
              else version == old(version) && nextStamp == old(nextStamp)
    {
      current := version.item;
      if current != expected { return current, false; }
      current := current.(state := judged.state, exitCode := judged.exitCode, finishedAt := judged.finishedAt);
      Write(current, now);
      return current, true;
    }
  }

  // -- All writers together -----------------------------------------------------------------

  // A reconciler between its judgement and its write. The dashboard compares contents, the
  // capacity ledger compares stamps.
  datatype Verdict =
    | ByContent(expected: Manifest, result: Manifest)
    | ByStamp(stamp: nat, judged: Manifest, result: Manifest)

  datatype System = System(
    file: Version, nextStamp: nat,
    past: seq<Manifest>,            // every content the file has had; a cache may return any of them
    born: set<int>, alive: set<int>, now: real,
    verdicts: map<nat, Verdict>,    // by reconciler
    checked: map<int, nat>)         // runners that saw Pending, with the stamp they saw

  datatype Step =
    | JudgeCached(client: nat, k: nat, modifiedAt: real)
    | JudgeLoaded(client: nat)
    | Commit(client: nat)
    | Check(pid: int)
    | Claim(pid: int)               // the runner's unconditional write of Running
    | Finish(state: JobState, exitCode: int) // the runner's or a cancellation's unconditional terminal write
    | Die(pid: int)
    | Spawn(pid: int)
    | Tick(now: real)

  function Written(s: System, item: Manifest): System {
    s.(file := Version(item, s.nextStamp, s.now), nextStamp := s.nextStamp + 1, past := s.past + [item])
  }

  predicate Enabled(s: System, step: Step) {
    match step
    case JudgeCached(c, k, at) => k < |s.past| && Reconcile(s.past[k], at, s.alive, s.now).Some?
    case JudgeLoaded(c) => Reconcile(s.file.item, s.file.modifiedAt, s.alive, s.now).Some?
    case Commit(c) => c in s.verdicts
    case Check(p) => p in s.alive && s.file.item.state == Pending
    case Claim(p) => p in s.alive && p in s.checked
    case Finish(state, _) => state != Pending && state != Running
    case Die(p) => p in s.alive
    case Spawn(p) => p !in s.born
    case Tick(t) => t >= s.now
  }

  predicate Applies(s: System, v: Verdict) {
    match v
    case ByContent(expected, _) => s.file.item == expected
    case ByStamp(stamp, _, _) => s.file.stamp == stamp
  }

  function Apply(s: System, step: Step): System
    requires Enabled(s, step)
  {
    match step
    case JudgeCached(c, k, at) =>
      s.(verdicts := s.verdicts[c := ByContent(s.past[k], Reconcile(s.past[k], at, s.alive, s.now).value)])
    case JudgeLoaded(c) =>
      var result := Reconcile(s.file.item, s.file.modifiedAt, s.alive, s.now).value;
      s.(verdicts := s.verdicts[c := ByStamp(s.file.stamp, s.file.item, result)])
    case Commit(c) =>
      var v := s.verdicts[c];
      var t := s.(verdicts := s.verdicts - {c});
      if !Applies(s, v) then t
      else Written(t, if v.ByStamp? then v.result
                      else s.file.item.(state := v.result.state, exitCode := v.result.exitCode,
                                        finishedAt := v.result.finishedAt))
    case Check(p) => s.(checked := s.checked[p := s.file.stamp])
    case Claim(p) =>
      Written(s, s.file.item.(state := Running, startedAt := Some(s.now), pid := Some(p))).(checked := s.checked - {p})
    case Finish(state, code) =>
      Written(s, s.file.item.(state := state, exitCode := Some(code), finishedAt := Some(s.now)))
    case Die(p) => s.(alive := s.alive - {p})
    case Spawn(p) => s.(born := s.born + {p}, alive := s.alive + {p})
    case Tick(t) => s.(now := t)
  }

  function Run(s: System, steps: seq<Step>): Option<System> {
    if steps == [] then Some(s)
    else
      var before := Run(s, steps[..|steps| - 1]);
      var last := steps[|steps| - 1];
      if before.Some? && Enabled(before.value, last) then Some(Apply(before.value, last)) else None
  }

  ghost predicate Initial(s: System) {
    && s.file.stamp < s.nextStamp && s.past == [s.file.item]
    && s.alive <= s.born && (s.file.item.pid.Some? ==> s.file.item.pid.value in s.born)
    && s.verdicts == map[] && s.checked == map[]
  }

  /** The contents a reconciler has judged are still stale, whoever has written since. */
  ghost predicate StillStale(s: System, m: Manifest, result: Manifest) {
    && (DeadRunner(m, s.alive) || Orphan(m))
    && exists at :: result == MarkFailed(m, at)
  }

  ghost predicate VerdictInv(s: System, v: Verdict) {
    match v
    case ByContent(expected, result) => expected in s.past && StillStale(s, expected, result)
    case ByStamp(stamp, judged, result) =>
      && judged in s.past && StillStale(s, judged, result)
      && stamp < s.nextStamp && (stamp == s.file.stamp ==> judged == s.file.item)
  }

  ghost predicate Inv(s: System) {
    && s.file.stamp < s.nextStamp && s.file.item in s.past
    && s.alive <= s.born
    && (forall m <- s.past :: m.pid.Some? ==> m.pid.value in s.born)
    && (forall c <- s.verdicts :: VerdictInv(s, s.verdicts[c]))
    && (forall p <- s.checked ::
          s.checked[p] < s.nextStamp && (s.checked[p] == s.file.stamp ==> s.file.item.state == Pending))
  }

  lemma WriteKeepsInv(s: System, item: Manifest)
    requires Inv(s) && (item.pid.Some? ==> item.pid.value in s.born)
    ensures Inv(Written(s, item))
  {
    var t := Written(s, item);
    forall c <- t.verdicts ensures VerdictInv(t, t.verdicts[c]) {
      assert VerdictInv(s, s.verdicts[c]);
    }
  }

  lemma StepKeepsInv(s: System, step: Step)
    requires Inv(s) && Enabled(s, step)
    ensures Inv(Apply(s, step))
  {
    var t := Apply(s, step);
    match step
    case JudgeCached(c, k, at) =>
      assert s.past[k] in s.past;
      forall d <- t.verdicts ensures VerdictInv(t, t.verdicts[d]) {
        if d != c { assert VerdictInv(s, s.verdicts[d]); }
      }
    case JudgeLoaded(c) =>
      forall d <- t.verdicts ensures VerdictInv(t, t.verdicts[d]) {
        if d != c { assert VerdictInv(s, s.verdicts[d]); }
      }
    case Commit(c) =>
      var rest := s.(verdicts := s.verdicts - {c});
      forall d <- rest.verdicts ensures VerdictInv(rest, rest.verdicts[d]) {
        assert VerdictInv(s, s.verdicts[d]);
      }
      assert VerdictInv(s, s.verdicts[c]);
      if Applies(s, s.verdicts[c]) { WriteKeepsInv(rest, t.file.item); }
    case Check(p) =>
      forall d <- t.verdicts ensures VerdictInv(t, t.verdicts[d]) { assert VerdictInv(s, s.verdicts[d]); }
    case Claim(p) =>
      WriteKeepsInv(s, t.file.item);
      forall d <- t.verdicts ensures VerdictInv(t, t.verdicts[d]) {
        assert VerdictInv(Written(s, t.file.item), s.verdicts[d]);
      }
    case Finish(state, code) => WriteKeepsInv(s, t.file.item);
    case Die(p) => EnvironmentKeepsVerdicts(s, t);
    case Spawn(p) => EnvironmentKeepsVerdicts(s, t);
    case Tick(_) => EnvironmentKeepsVerdicts(s, t);
  }

  lemma EnvironmentKeepsVerdicts(s: System, t: System)
    requires Inv(s) && t == s.(born := t.born, alive := t.alive, now := t.now)
    requires t.alive * s.born <= s.alive
    ensures forall c <- t.verdicts :: VerdictInv(t, t.verdicts[c])
  {
    forall c <- t.verdicts ensures VerdictInv(t, t.verdicts[c]) {
      assert VerdictInv(s, s.verdicts[c]);
    }
  }

  lemma {:induction false} RunKeepsInv(s: System, steps: seq<Step>)
    requires Inv(s) && Run(s, steps).Some?
    ensures Inv(Run(s, steps).value)
  {
    if steps != [] {
      RunKeepsInv(s, steps[..|steps| - 1]);
      StepKeepsInv(Run(s, steps[..|steps| - 1]).value, steps[|steps| - 1]);
    }
  }

  /**
   Whoever else wrote in between, a reconciliation that writes replaces exactly what it judged:
   a Running manifest whose pid is dead at that moment, or a Pending one without a pid.
   Terminal manifests and live runners are never overwritten, and only three fields change.
   */
  lemma {:induction false} ReconcileReplacesOnlyWhatItJudged(s: System, steps: seq<Step>, client: nat)
    requires Initial(s) && Run(s, steps).Some? && Enabled(Run(s, steps).value, Commit(client))
    ensures var t := Run(s, steps).value;
            var u, v := Apply(t, Commit(client)), t.verdicts[client];
            var judged := if v.ByContent? then v.expected else v.judged;
            if u.file == t.file then !Applies(t, v)
            else && t.file.item == judged
                 && (DeadRunner(t.file.item, t.alive) || Orphan(t.file.item)) && !Terminal(t.file.item)
                 && exists at :: u.file.item == MarkFailed(t.file.item, at)
  {
    RunKeepsInv(s, steps);
    var t := Run(s, steps).value;
    assert VerdictInv(t, t.verdicts[client]);
  }

  /** What each write leaves in the file; a reconciler's changes the three fields it has judged. */
  lemma WhatEachWriterWrites(s: System, step: Step)
    requires Inv(s) && Enabled(s, step)
    ensures var was, now := s.file.item, Apply(s, step).file;
            && (step.Claim? ==>
                  now.item == was.(state := Running, pid := Some(step.pid), startedAt := Some(s.now)))
            && (step.Finish? ==>
                  now.item == was.(state := step.state, exitCode := Some(step.exitCode), finishedAt := Some(s.now)))
            && (step.Commit? && now != s.file ==>
                  now.item == was.(state := Failed, exitCode := Some(-1), finishedAt := now.item.finishedAt))
            && (!step.Claim? && !step.Finish? && !step.Commit? ==> now == s.file)
            && (now != s.file ==> now.modifiedAt == s.now && now.stamp == s.nextStamp)
  {
    if step.Commit? { assert VerdictInv(s, s.verdicts[step.client]); }
  }

  // -- Terminal states ----------------------------------------------------------------------

  predicate ClaimIsAtomic(s: System, step: Step) {
    step.Claim? ==> step.pid in s.checked && s.checked[step.pid] == s.file.stamp
  }

  /** A run in which every claim follows its check with no write in between. */
  predicate AtomicRun(s: System, steps: seq<Step>) {
    && Run(s, steps).Some?
    && (steps != [] ==>
          && AtomicRun(s, steps[..|steps| - 1])
          && ClaimIsAtomic(Run(s, steps[..|steps| - 1]).value, steps[|steps| - 1]))
  }

  lemma StepKeepsTerminal(s: System, step: Step)
    requires Inv(s) && Enabled(s, step) && ClaimIsAtomic(s, step) && Terminal(s.file.item)
    ensures Terminal(Apply(s, step).file.item)
  {
    if step.Commit? {
      assert VerdictInv(s, s.verdicts[step.client]);
    }
  }

  /** With atomic claims a terminal manifest stays terminal for the rest of the run. */
  lemma {:induction false} TerminalIsFinal(s: System, steps: seq<Step>)
    requires Inv(s) && Terminal(s.file.item) && AtomicRun(s, steps)
    ensures Terminal(Run(s, steps).value.file.item)
  {
    if steps != [] {
      var before := steps[..|steps| - 1];
      TerminalIsFinal(s, before);
      RunKeepsInv(s, before);
      StepKeepsTerminal(Run(s, before).value, steps[|steps| - 1]);
    }
  }

  /** Only a claim whose check is out of date can bring a terminal manifest back to life. */
  lemma {:induction false} ReactivationNeedsStaleCheck(s: System, steps: seq<Step>, step: Step)
    requires Initial(s) && Run(s, steps).Some? && Enabled(Run(s, steps).value, step)
    requires Terminal(Run(s, steps).value.file.item)
    ensures var t := Run(s, steps).value;
            !Terminal(Apply(t, step).file.item) <==> step.Claim?
    ensures var t := Run(s, steps).value;
            step.Claim? ==> t.checked[step.pid] != t.file.stamp
  {
    RunKeepsInv(s, steps);
    if step.Commit? {
      var t := Run(s, steps).value;
      assert VerdictInv(t, t.verdicts[step.client]);
    }
  }

  lemma {:induction false} OneMore(s: System, steps: seq<Step>, step: Step)
    requires Run(s, steps).Some? && Enabled(Run(s, steps).value, step)
    ensures Run(s, steps + [step]) == Some(Apply(Run(s, steps).value, step))
  {
    assert (steps + [step])[..|steps|] == steps;
  }

  /** And it can: an orphaned Pending job is failed between the runner's check and its claim. */
  lemma SplitClaimReactivates() returns (s: System, steps: seq<Step>)
    ensures Initial(s) && Run(s, steps).Some? && Terminal(Run(s, steps).value.file.item)
    ensures Enabled(Run(s, steps).value, Claim(1))
    ensures Apply(Run(s, steps).value, Claim(1)).file.item.state == Running
  {
    var m := Manifest(Pending, None, None, None, None, "");
    s := System(Version(m, 0, 0.0), 1, [m], {1}, {1}, 1000.0, map[], map[]);
    OneMore(s, [], Check(1));
    OneMore(s, [] + [Check(1)], JudgeLoaded(0));
    OneMore(s, [] + [Check(1)] + [JudgeLoaded(0)], Commit(0));
    steps := [] + [Check(1)] + [JudgeLoaded(0)] + [Commit(0)];
  }
}
