/**
 Installation of the shared runtime as single file operations, with a crash possible after each. The
 installation lock lets one process run at a time and is released when that process dies.
 */
module RuntimeInstall {
  import opened Basics

  type Digest = string

  /**
   A release directory: whether `bin/python` is there, the digest in its completion marker, and its other
   files. `validated` is what those were when the marker was written.
   */
  datatype Dir = Dir(python: bool, marker: Option<Digest>, packages: set<nat>, validated: set<nat>)

  const EMPTY := Dir(false, None, {}, {})

  datatype Current = Absent | NotALink | Link(digest: Digest)

  datatype Disk = Disk(releases: map<Digest, Dir>, current: Current)

  /** The completion predicate of a runtime for its own digest. */
  predicate CompleteDir(dir: Dir, d: Digest) {
    dir.marker == Some(d) && dir.python
  }

  predicate Complete(disk: Disk, d: Digest) {
    d in disk.releases && CompleteDir(disk.releases[d], d)
  }

  /** `current` resolves to the release of `d`. */
  predicate Active(disk: Disk, d: Digest) {
    disk.current == Link(d) && d in disk.releases
  }

  // -- The installing process -------------------------------------------------------------------------

  datatype Phase =
    | Idle
    | Deleting(digest: Digest)   // an incomplete release makes way
    | Creating(digest: Digest)
    | Building(digest: Digest)   // venv and pip
    | Validated(digest: Digest)  // version, pip check and imports passed
    | Marked(digest: Digest)     // the marker is written, modes are being changed
    | Cleaning(digest: Digest)   // the build raised
    | Ready(digest: Digest)      // to be activated

  datatype Sys = Sys(disk: Disk, phase: Phase)

  datatype Step =
    | Begin(digest: Digest)
    | DeletePackage(package: nat)
    | DeletePython
    | DeleteMarker
    | DeleteDirectory
    | CreateDirectory
    | Write(python: bool, packages: set<nat>)
    | Validate
    | WriteMarker
    | Publish
    | Activate
    | Fail    // an exception inside the build
    | GiveUp  // the clean-up ends, or activation is not possible
    | Crash

  predicate Removing(phase: Phase) {
    phase.Deleting? || phase.Cleaning?
  }

  /** Phases inside the build of a release and its clean-up. */
  predicate Working(phase: Phase) {
    !phase.Idle? && !phase.Ready?
  }

  function Put(s: Sys, dir: Dir): Sys
    requires !s.phase.Idle?
  {
    s.(disk := s.disk.(releases := s.disk.releases[s.phase.digest := dir]))
  }

  function Begun(disk: Disk, d: Digest): Phase {
    if Complete(disk, d) then Ready(d)
    else if Active(disk, d) then Idle
    else if d in disk.releases then Deleting(d)
    else Creating(d)
  }

  /** The release under work, when it exists. */
  function Here(s: Sys): Option<Dir> {
    if !s.phase.Idle? && s.phase.digest in s.disk.releases then Some(s.disk.releases[s.phase.digest]) else None
  }

  /** The file or directory that a removal deletes next. */
  function Delete(s: Sys, step: Step, dir: Dir): Sys
    requires Removing(s.phase)
  {
    match step
    case DeletePackage(p) => Put(s, dir.(packages := dir.packages - {p}))
    case DeletePython => Put(s, dir.(python := false))
    case DeleteMarker => Put(s, dir.(marker := None))
    case DeleteDirectory =>
      if dir.python || dir.marker.Some? || dir.packages != {} then s
      else Sys(s.disk.(releases := s.disk.releases - {s.phase.digest}),
               if s.phase.Deleting? then Creating(s.phase.digest) else Idle)
    case _ => s
  }

  /** A removal takes one thing at a time, and the directory only when nothing is left in it. */
  lemma WhatADeletionRemoves(s: Sys, step: Step, dir: Dir)
    requires Removing(s.phase) && s.phase.digest in s.disk.releases && s.disk.releases[s.phase.digest] == dir
    ensures var t := Delete(s, step, dir);
            var empty := !dir.python && dir.marker.None? && dir.packages == {};
            && t.disk.current == s.disk.current
            && t.disk.releases - {s.phase.digest} == s.disk.releases - {s.phase.digest}
            && (s.phase.digest in t.disk.releases <==> !(step.DeleteDirectory? && empty))
            && (s.phase.digest in t.disk.releases ==>
                  && t.phase == s.phase
                  && var left := t.disk.releases[s.phase.digest];
                     && left.validated == dir.validated
                     && left.python == (dir.python && !step.DeletePython?)
                     && left.marker == (if step.DeleteMarker? then None else dir.marker)
                     && left.packages == (if step.DeletePackage? then dir.packages - {step.package} else dir.packages))
            && (s.phase.digest !in t.disk.releases ==>
                  t.phase == if s.phase.Deleting? then Creating(s.phase.digest) else Idle)
  {
  }

  /** A step that the phase does not allow changes nothing. */
  function Apply(s: Sys, step: Step): Sys {
    match step
    case Crash => s.(phase := Idle)
    case Begin(d) => if s.phase.Idle? then s.(phase := Begun(s.disk, d)) else s
    case CreateDirectory => if s.phase.Creating? then Put(s, EMPTY).(phase := Building(s.phase.digest)) else s
    case Write(python, packages) =>
      if s.phase.Building? && Here(s).Some? then Put(s, Here(s).value.(python := python, packages := packages)) else s
    case Validate =>
      if s.phase.Building? && Here(s).Some? && Here(s).value.python then s.(phase := Validated(s.phase.digest)) else s
    case WriteMarker =>
      if s.phase.Validated? && Here(s).Some? then
        var dir := Here(s).value;
        Put(s, dir.(marker := Some(s.phase.digest), validated := dir.packages)).(phase := Marked(s.phase.digest))
      else s
    case Publish => if s.phase.Marked? then s.(phase := Ready(s.phase.digest)) else s
    case Activate =>
      if s.phase.Ready? && s.disk.current != NotALink then Sys(s.disk.(current := Link(s.phase.digest)), Idle) else s
    case Fail => if Working(s.phase) && !s.phase.Cleaning? then s.(phase := Cleaning(s.phase.digest)) else s
    case GiveUp => if s.phase.Cleaning? || s.phase.Ready? then s.(phase := Idle) else s
    case _ => if Removing(s.phase) && Here(s).Some? then Delete(s, step, Here(s).value) else s
  }

  /** Any steps, in any number of installations. */
  function Run(s: Sys, steps: seq<Step>): Sys {
    if steps == [] then s else Apply(Run(s, steps[..|steps| - 1]), steps[|steps| - 1])
  }

  lemma {:induction false} RunConcat(s: Sys, a: seq<Step>, b: seq<Step>)
    ensures Run(s, a + b) == Run(Run(s, a), b)
  {
    if b == [] {
      assert a + b == a;
    } else {
      RunConcat(s, a, b[..|b| - 1]);
      assert (a + b)[..|a + b| - 1] == a + b[..|b| - 1];
    }
  }

  lemma {:induction false} RunSnoc(s: Sys, steps: seq<Step>, step: Step)
    ensures Run(s, steps + [step]) == Apply(Run(s, steps), step)
  {
    assert (steps + [step])[..|steps|] == steps;
  }

  // -- The active runtime -------------------------------------------------------------------------------

  /** `current` does not dangle, and the release under work is not the active one. */
  predicate Guarded(s: Sys) {
    && (s.disk.current.Link? ==> s.disk.current.digest in s.disk.releases)
    && (Working(s.phase) ==> s.disk.current != Link(s.phase.digest))
    && (s.phase.Ready? || s.phase.Validated? || s.phase.Marked? ==> s.phase.digest in s.disk.releases)
  }

  /** No step removes, rebuilds or changes the release that `current` points at. */
  lemma ActiveIsUntouched(s: Sys, step: Step, a: Digest)
    requires Guarded(s)
    ensures Guarded(Apply(s, step))
    ensures var t := Apply(s, step).disk;
            s.disk.current == Link(a) ==> a in t.releases && t.releases[a] == s.disk.releases[a]
  {
  }

  /** Whatever happens, while `current` stays where it is its release stays as it is. */
  lemma {:induction false} ActiveStaysUntouched(s: Sys, steps: seq<Step>, a: Digest)
    requires Guarded(s) && s.disk.current == Link(a)
    requires forall k :: 0 <= k < |steps| ==> steps[k] != Activate
    ensures var t := Run(s, steps).disk;
            Guarded(Run(s, steps)) && t.current == Link(a) && a in t.releases && t.releases[a] == s.disk.releases[a]
  {
    if steps != [] {
      var n := |steps| - 1;
      ActiveStaysUntouched(s, steps[..n], a);
      ActiveIsUntouched(Run(s, steps[..n]), steps[n], a);
    }
  }

  /** `current` points at a complete runtime, if it is a link; what is about to be activated is complete. */
  predicate Sound(s: Sys) {
    && (s.disk.current.Link? ==> Complete(s.disk, s.disk.current.digest))
    && (Working(s.phase) ==> s.disk.current != Link(s.phase.digest))
    && (s.phase.Ready? || s.phase.Marked? ==> Complete(s.disk, s.phase.digest))
    && (s.phase.Validated? ==> s.phase.digest in s.disk.releases && s.disk.releases[s.phase.digest].python)
  }

  lemma StepKeepsSound(s: Sys, step: Step)
    requires Sound(s)
    ensures Sound(Apply(s, step))
  {
  }

  /** Across any installs, with a crash after any file operation, `current` is never a link to an incomplete runtime. */
  lemma {:induction false} CurrentIsComplete(disk: Disk, steps: seq<Step>)
    requires disk.current.Link? ==> Complete(disk, disk.current.digest)
    ensures Sound(Run(Sys(disk, Idle), steps))
    ensures var t := Run(Sys(disk, Idle), steps).disk;
            t.current.Link? ==> Complete(t, t.current.digest)
  {
    if steps != [] {
      var n := |steps| - 1;
      CurrentIsComplete(disk, steps[..n]);
      StepKeepsSound(Run(Sys(disk, Idle), steps[..n]), steps[n]);
    }
  }

  // -- Deletion -----------------------------------------------------------------------------------------------

  predicate Deletes(step: Step) {
    step.DeletePackage? || step.DeletePython? || step.DeleteMarker? || step.DeleteDirectory?
  }

  /** Deleting files, in whatever order and however far it gets, never completes an incomplete runtime. */
  lemma {:induction false} DeletingNeverCompletes(s: Sys, steps: seq<Step>, d: Digest)
    requires !Complete(s.disk, d) && Removing(s.phase)
    requires forall k :: 0 <= k < |steps| ==> Deletes(steps[k])
    ensures !Complete(Run(s, steps).disk, d)
  {
    if steps != [] {
      var n := |steps| - 1;
      DeletingNeverCompletes(s, steps[..n], d);
    }
  }

  /** A complete runtime has the files it was validated with. */
  predicate Whole(dir: Dir, d: Digest) {
    CompleteDir(dir, d) ==> dir.packages == dir.validated
  }

  predicate AllWhole(disk: Disk) {
    forall d :: d in disk.releases ==> Whole(disk.releases[d], d)
  }

  /** What the phases say about the release under work, whatever has failed before. */
  predicate Placed(s: Sys) {
    && (s.phase.Deleting? ==> !Complete(s.disk, s.phase.digest))
    && (s.phase.Creating? ==> s.phase.digest !in s.disk.releases)
    && (s.phase.Building? || s.phase.Validated? ==>
          s.phase.digest in s.disk.releases && s.disk.releases[s.phase.digest].marker.None?)
  }

  lemma StepKeepsPlaced(s: Sys, step: Step)
    requires Placed(s)
    ensures Placed(Apply(s, step))
  {
  }

  /** The one step that hollows out a runtime: a clean-up deletes a file of a release that is still complete. */
  predicate Hollows(s: Sys, step: Step) {
    && step.DeletePackage? && s.phase.Cleaning? && Complete(s.disk, s.phase.digest)
    && step.package in s.disk.releases[s.phase.digest].packages
  }

  /** A step touches no release but the one under work. */
  lemma OthersUntouched(s: Sys, step: Step)
    ensures s.phase.Idle? ==> Apply(s, step).disk == s.disk
    ensures !s.phase.Idle? ==> Apply(s, step).disk.releases - {s.phase.digest} == s.disk.releases - {s.phase.digest}
  {
  }

  lemma WholeHere(s: Sys, step: Step)
    requires Placed(s) && AllWhole(s.disk) && !s.phase.Idle? && s.phase.digest in Apply(s, step).disk.releases
    ensures Whole(Apply(s, step).disk.releases[s.phase.digest], s.phase.digest) <==> !Hollows(s, step)
  {
    var d := s.phase.digest;
    if d in s.disk.releases { assert Whole(s.disk.releases[d], d); }
  }

  /** From a state in which every complete runtime is whole, a step keeps that exactly when it hollows out none. */
  lemma WholeExactly(s: Sys, step: Step)
    requires Placed(s) && AllWhole(s.disk)
    ensures AllWhole(Apply(s, step).disk) <==> !Hollows(s, step)
  {
    var was, now := s.disk.releases, Apply(s, step).disk.releases;
    OthersUntouched(s, step);
    if !s.phase.Idle? {
      var d := s.phase.digest;
      if d in now { WholeHere(s, step); }
      forall x | x in now && x != d ensures Whole(now[x], x) {
        assert x in now - {d} && (now - {d})[x] == (was - {d})[x];
      }
      if Hollows(s, step) { assert d in now; }
    }
  }

  ghost predicate NeverHollows(s: Sys, steps: seq<Step>) {
    forall k :: 0 <= k < |steps| ==> !Hollows(Run(s, steps[..k]), steps[k])
  }

  ghost predicate WholeThroughout(s: Sys, steps: seq<Step>) {
    forall k :: 0 <= k <= |steps| ==> AllWhole(Run(s, steps[..k]).disk)
  }

  lemma {:induction false} RunKeepsPlaced(s: Sys, steps: seq<Step>)
    requires Placed(s)
    ensures Placed(Run(s, steps))
  {
    if steps != [] {
      RunKeepsPlaced(s, steps[..|steps| - 1]);
      StepKeepsPlaced(Run(s, steps[..|steps| - 1]), steps[|steps| - 1]);
    }
  }

  lemma {:induction false} OneStepOn(s: Sys, steps: seq<Step>, k: nat)
    requires k < |steps|
    ensures Run(s, steps[..k + 1]) == Apply(Run(s, steps[..k]), steps[k])
  {
    assert steps[..k + 1][..k] == steps[..k];
  }

  lemma {:induction false} WholeUpTo(s: Sys, steps: seq<Step>, n: nat)
    requires n <= |steps| && Placed(s) && AllWhole(s.disk) && NeverHollows(s, steps)
    ensures AllWhole(Run(s, steps[..n]).disk)
  {
    if n > 0 {
      WholeUpTo(s, steps, n - 1);
      RunKeepsPlaced(s, steps[..n - 1]);
      OneStepOn(s, steps, n - 1);
      WholeExactly(Run(s, steps[..n - 1]), steps[n - 1]);
    }
  }

  /** Across any installs, a runtime that looks complete is whole all along exactly when no clean-up hollows one out. */
  lemma CompleteMeansWhole(disk: Disk, steps: seq<Step>)
    requires AllWhole(disk)
    ensures WholeThroughout(Sys(disk, Idle), steps) <==> NeverHollows(Sys(disk, Idle), steps)
  {
    var s := Sys(disk, Idle);
    if NeverHollows(s, steps) {
      forall k | 0 <= k <= |steps| ensures AllWhole(Run(s, steps[..k]).disk) { WholeUpTo(s, steps, k); }
    }
    if WholeThroughout(s, steps) {
      forall k | 0 <= k < |steps| ensures !Hollows(Run(s, steps[..k]), steps[k]) {
        RunKeepsPlaced(s, steps[..k]);
        OneStepOn(s, steps, k);
        WholeExactly(Run(s, steps[..k]), steps[k]);
      }
    }
  }

  /**
   It happens with a crash and without one: a failure after the marker, a clean-up that deletes one file and then
   ends, by a crash or because the rest cannot be deleted, and the next install activates what is left.
   */
  lemma UnfinishedCleanUpLooksComplete(last: Step) returns (steps: seq<Step>)
    requires last == Crash || last == GiveUp
    ensures last in steps && (last == GiveUp ==> Crash !in steps)
    ensures var t := Run(Sys(Disk(map[], Absent), Idle), steps).disk;
            t.current == Link("d") && Complete(t, "d") && t.releases["d"].packages != t.releases["d"].validated
  {
    var s0 := Sys(Disk(map[], Absent), Idle);
    var built := BuiltOnce(s0);
    var rest := [Fail, DeletePackage(0), last] + [Begin("d"), Activate, Activate];
    HollowedAndActivated(Run(s0, built), last);
    RunConcat(s0, built, rest);
    steps := built + rest;
    assert rest[2] == last && steps[|built| + 2] == last;
  }

  const BUILT := Dir(true, Some("d"), {0}, {0})

  lemma {:induction false} HollowedAndActivated(s: Sys, last: Step)
    requires s == Sys(Disk(map["d" := BUILT], Absent), Marked("d")) && (last == Crash || last == GiveUp)
    ensures Run(s, [Fail, DeletePackage(0), last] + [Begin("d"), Activate, Activate])
            == Sys(Disk(map["d" := BUILT.(packages := {})], Link("d")), Idle)
  {
    RunThree(s, Fail, DeletePackage(0), last);
    var hollow := Sys(Disk(map["d" := BUILT.(packages := {})], Absent), Idle);
    assert {0} - {0} == {};
    assert Run(s, [Fail, DeletePackage(0), last]) == hollow;
    RunThree(hollow, Begin("d"), Activate, Activate);
    RunConcat(s, [Fail, DeletePackage(0), last], [Begin("d"), Activate, Activate]);
  }

  lemma {:induction false} RunThree(s: Sys, a: Step, b: Step, c: Step)
    ensures Run(s, [a, b, c]) == Apply(Apply(Apply(s, a), b), c)
  {
    assert [a, b, c][..2] == [a, b] && [a, b][..1] == [a] && [a][..0] == [];
    assert Run(s, [a]) == Apply(s, a);
    assert Run(s, [a, b]) == Apply(Apply(s, a), b);
  }

  /** A release built and marked, with one file beside the interpreter. */
  lemma BuiltOnce(s: Sys) returns (steps: seq<Step>)
    requires s == Sys(Disk(map[], Absent), Idle)
    ensures Crash !in steps
    ensures Run(s, steps) == Sys(Disk(map["d" := BUILT], Absent), Marked("d"))
  {
    RunThree(s, Begin("d"), CreateDirectory, Write(true, {0}));
    var half := Run(s, [Begin("d"), CreateDirectory, Write(true, {0})]);
    assert half == Sys(Disk(map["d" := Dir(true, None, {0}, {})], Absent), Building("d"));
    RunThree(half, Validate, WriteMarker, WriteMarker);
    steps := [Begin("d"), CreateDirectory, Write(true, {0})] + [Validate, WriteMarker, WriteMarker];
    RunConcat(s, [Begin("d"), CreateDirectory, Write(true, {0})], [Validate, WriteMarker, WriteMarker]);
  }

  // -- The installer ------------------------------------------------------------------------------------------

  /** What resists deletion. */
  datatype Stuck = Stuck(python: bool, marker: bool, packages: set<nat>, directory: bool)

  /** What one installation meets: what the commands leave, which stages pass, and what cannot be deleted. */
  datatype Plan = Plan(creates: bool, python: bool, packages: set<nat>, checks: bool, chmods: bool, stuck: Stuck)

  datatype Outcome = Reused | Built | Refused | Failed

  /** What a deletion leaves of a directory. */
  function Remains(dir: Dir, stuck: Stuck): Dir {
    dir.(python := dir.python && stuck.python, marker := if stuck.marker then dir.marker else None,
         packages := dir.packages * stuck.packages)
  }

  predicate Vacant(dir: Dir) {
    !dir.python && dir.marker.None? && dir.packages == {}
  }

  predicate Deletable(dir: Dir, stuck: Stuck) {
    Vacant(Remains(dir, stuck)) && !stuck.directory
  }

  /** The releases after the directory of `d`, last seen as `dir`, has been deleted as far as possible. */
  function Deleted(releases: map<Digest, Dir>, d: Digest, dir: Dir, stuck: Stuck): map<Digest, Dir> {
    if Deletable(dir, stuck) then releases - {d} else releases[d := Remains(dir, stuck)]
  }

  predicate MakesWay(releases: map<Digest, Dir>, d: Digest, stuck: Stuck) {
    d in releases ==> Deletable(releases[d], stuck)
  }

  /** The releases after a build of `d`, and whether it succeeded. */
  function BuildResult(releases: map<Digest, Dir>, d: Digest, plan: Plan): (map<Digest, Dir>, bool) {
    var filled := Dir(plan.python, None, plan.packages, {});
    var full := Dir(true, Some(d), plan.packages, plan.packages);
    if !MakesWay(releases, d, plan.stuck) then (Deleted(releases, d, releases[d], plan.stuck), false)
    else if !plan.creates then (releases - {d}, false)
    else if !plan.python || !plan.checks then (Deleted(releases, d, filled, plan.stuck), false)
    else if !plan.chmods then (Deleted(releases, d, full, plan.stuck), false)
    else (releases[d := full], true)
  }

  /** The runtime as it is when it is complete, or built anew. */
  function ProvideResult(disk: Disk, d: Digest, plan: Plan): (map<Digest, Dir>, Outcome) {
    if Complete(disk, d) then (disk.releases, if plan.chmods then Reused else Failed)
    else if Active(disk, d) then (disk.releases, Refused)
    else
      var (releases, ok) := BuildResult(disk.releases, d, plan);
      (releases, if ok then Built else Failed)
  }

  /** The disk after an installation, and its outcome. */
  function InstallResult(disk: Disk, d: Digest, plan: Plan): (Disk, Outcome) {
    var (releases, outcome) := ProvideResult(disk, d, plan);
    if outcome == Refused || outcome == Failed then (disk.(releases := releases), outcome)
    else if disk.current == NotALink then (disk.(releases := releases), Failed)
    else (Disk(releases, Link(d)), outcome)
  }

  /**
   A build of an incomplete release that raises leaves one that passes for complete exactly when only the change of
   modes failed and both the interpreter and the marker resist deletion. It is whole exactly when all files resist.
   */
  lemma FailedBuildLooksComplete(disk: Disk, d: Digest, plan: Plan)
    requires !Complete(disk, d) && !BuildResult(disk.releases, d, plan).1
    ensures var after := disk.(releases := BuildResult(disk.releases, d, plan).0);
            && (Complete(after, d) <==>
                  && MakesWay(disk.releases, d, plan.stuck) && plan.creates && plan.python && plan.checks
                  && plan.stuck.python && plan.stuck.marker)
            && (Complete(after, d) ==>
                  !plan.chmods && (Whole(after.releases[d], d) <==> plan.packages <= plan.stuck.packages))
  {
    var after := disk.(releases := BuildResult(disk.releases, d, plan).0);
    if Complete(after, d) {
      assert after.releases[d].packages == plan.packages * plan.stuck.packages;
    }
  }

  /**
   An installation that succeeds activates a complete release; one that does not leaves `current` and the others
   alone.
   */
  lemma WhatInstallLeaves(disk: Disk, d: Digest, plan: Plan)
    ensures var (after, outcome) := InstallResult(disk, d, plan);
            && after.releases - {d} == disk.releases - {d}
            && (Complete(disk, d) || Active(disk, d) ==> after.releases == disk.releases)
            && (outcome == Reused || outcome == Built ==> after.current == Link(d) && Complete(after, d))
            && (outcome == Refused || outcome == Failed ==> after.current == disk.current)
            && (outcome == Refused <==> Active(disk, d) && !Complete(disk, d))
  {
    var (releases, _) := BuildResult(disk.releases, d, plan);
    assert releases - {d} == disk.releases - {d};
  }

  /**
   An installation succeeds exactly when `current` may be replaced, the modes can be changed, and the runtime is
   complete already or is not the active one, can be made anew and passes every stage; then it holds what they left.
   */
  lemma WhenInstallSucceeds(disk: Disk, d: Digest, plan: Plan)
    ensures var (after, outcome) := InstallResult(disk, d, plan);
            var complete := d in disk.releases && disk.releases[d].marker == Some(d) && disk.releases[d].python;
            var active := disk.current == Link(d) && d in disk.releases;
            var builds := plan.creates && plan.python && plan.checks && plan.chmods
                          && (d in disk.releases ==> Deletable(disk.releases[d], plan.stuck));
            && (outcome == Reused <==> complete && plan.chmods && disk.current != NotALink)
            && (outcome == Built <==> !complete && !active && builds && disk.current != NotALink)
            && (outcome == Refused <==> !complete && active)
            && (outcome == Built ==>
                  after == Disk(disk.releases[d := Dir(true, Some(d), plan.packages, plan.packages)], Link(d)))
            && (outcome == Reused ==> after == Disk(disk.releases, Link(d)))
  {
  }

  /** A deletion leaves exactly what resists it, and the directory goes when nothing is left in it. */
  lemma WhatADeletionLeaves(dir: Dir, stuck: Stuck)
    ensures var left := Remains(dir, stuck);
            && (left.python <==> dir.python && stuck.python)
            && left.marker == (if stuck.marker then dir.marker else None)
            && (forall p :: p in left.packages <==> p in dir.packages && p in stuck.packages)
            && (Deletable(dir, stuck) <==> !stuck.directory && !left.python && left.marker.None? && left.packages == {})
  {
  }

  class RuntimeRoot {
    var releases: map<Digest, Dir>
    var current: Current
    ghost var origin: Sys
    ghost var phase: Phase
    ghost var steps: seq<Step>

    constructor (releases: map<Digest, Dir>, current: Current)
      ensures Logged() && phase == Idle && steps == [] && origin == Sys(Disk(releases, current), Idle)
      ensures Contents() == Disk(releases, current)
    {
      this.releases, this.current := releases, current;
      origin, phase, steps := Sys(Disk(releases, current), Idle), Idle, [];
    }

    function Contents(): Disk
      reads this
    {
      Disk(releases, current)
    }

    /** The file operations so far, one step each: a crash between two of them leaves a prefix of `steps`. */
    ghost predicate Logged()
      reads this
    {
      Run(origin, steps) == Sys(Contents(), phase)
    }

    ghost method Log(step: Step, was: Disk)
      requires Run(origin, steps) == Sys(was, phase) && Apply(Sys(was, phase), step).disk == Contents()
      modifies this`phase, this`steps
      ensures Logged() && steps == old(steps) + [step] && phase == Apply(Sys(was, old(phase)), step).phase
    {
      RunSnoc(origin, steps, step);
      phase := Apply(Sys(was, phase), step).phase;
      steps := steps + [step];
    }

    method Unlink(d: Digest, p: nat)
      requires Logged() && Removing(phase) && phase.digest == d && d in releases
      modifies this`releases, this`phase, this`steps
      ensures old(steps) <= steps && Logged() && phase == old(phase) && releases - {d} == old(releases) - {d}
      ensures d in releases && releases[d] == old(releases[d]).(packages := old(releases[d]).packages - {p})
    {
      ghost var was := Contents();
      releases := releases[d := releases[d].(packages := releases[d].packages - {p})];
      Log(DeletePackage(p), was);
    }

    method UnlinkPython(d: Digest)
      requires Logged() && Removing(phase) && phase.digest == d && d in releases
      modifies this`releases, this`phase, this`steps
      ensures old(steps) <= steps && Logged() && phase == old(phase)
      ensures releases == old(releases)[d := old(releases[d]).(python := false)]
    {
      ghost var was := Contents();
      releases := releases[d := releases[d].(python := false)];
      Log(DeletePython, was);
    }

    method UnlinkMarker(d: Digest)
      requires Logged() && Removing(phase) && phase.digest == d && d in releases
      modifies this`releases, this`phase, this`steps
      ensures old(steps) <= steps && Logged() && phase == old(phase)
      ensures releases == old(releases)[d := old(releases[d]).(marker := None)]
    {
      ghost var was := Contents();
      releases := releases[d := releases[d].(marker := None)];
      Log(DeleteMarker, was);
    }

    method UnlinkPackages(d: Digest, stuck: set<nat>)
      requires Logged() && Removing(phase) && phase.digest == d && d in releases
      modifies this`releases, this`phase, this`steps
      ensures old(steps) <= steps && Logged() && phase == old(phase) && releases - {d} == old(releases) - {d}
      ensures d in releases && releases[d] == old(releases[d]).(packages := old(releases[d]).packages * stuck)
    {
      ghost var was, kept := releases[d], releases[d].packages * stuck;
      var loose := releases[d].packages - stuck;
      assert was.packages == loose + kept;
      while loose != {}
        invariant old(steps) <= steps && Logged() && phase == old(phase) && loose !! kept
        invariant releases - {d} == old(releases) - {d}
        invariant d in releases && releases[d] == was.(packages := loose + kept)
        decreases |loose|
      {
        var p :| p in loose;
        assert loose + kept - {p} == loose - {p} + kept;
        Unlink(d, p);
        loose := loose - {p};
      }
      assert {} + kept == kept;
    }

    method RemoveDirectory(d: Digest)
      requires Logged() && Removing(phase) && phase.digest == d && d in releases && Vacant(releases[d])
      modifies this`releases, this`phase, this`steps
      ensures old(steps) <= steps && Logged()
      ensures phase == (if old(phase).Deleting? then Creating(d) else Idle) && releases == old(releases) - {d}
    {
      ghost var was := Contents();
      releases := releases - {d};
      Log(DeleteDirectory, was);
    }

    method UnlinkFiles(d: Digest, stuck: Stuck)
      requires Logged() && Removing(phase) && phase.digest == d && d in releases
      modifies this`releases, this`phase, this`steps
      ensures old(steps) <= steps && Logged() && phase == old(phase) && releases - {d} == old(releases) - {d}
      ensures d in releases && releases[d] == Remains(old(releases[d]), stuck)
    {
      UnlinkPackages(d, stuck.packages);
      if !stuck.python { UnlinkPython(d); }
      if !stuck.marker { UnlinkMarker(d); }
    }

    /** `rmtree`: what is stuck stays, and with it the directory. */
    method RemoveTree(d: Digest, stuck: Stuck) returns (gone: bool)
      requires Logged() && Removing(phase) && phase.digest == d && d in releases
      modifies this`releases, this`phase, this`steps
      ensures old(steps) <= steps && Logged()
      ensures phase == if !gone then old(phase) else if old(phase).Deleting? then Creating(d) else Idle
      ensures gone == Deletable(old(releases[d]), stuck)
      ensures releases == Deleted(old(releases), d, old(releases[d]), stuck)
    {
      ghost var was := releases;
      UnlinkFiles(d, stuck);
      SameOutside(was, releases, d);
      if !Vacant(releases[d]) || stuck.directory { return false; }
      RemoveDirectory(d);
      return true;
    }

    method MakeDirectory(d: Digest)
      requires Logged() && phase == Creating(d)
      modifies this`releases, this`phase, this`steps
      ensures old(steps) <= steps && Logged() && phase == Building(d) && releases == old(releases)[d := EMPTY]
    {
      ghost var was := Contents();
      releases := releases[d := EMPTY];
      Log(CreateDirectory, was);
    }

    method Fill(d: Digest, python: bool, packages: set<nat>)
      requires Logged() && phase == Building(d) && d in releases && releases[d] == EMPTY
      modifies this`releases, this`phase, this`steps
      ensures old(steps) <= steps && Logged() && phase == Building(d)
      ensures releases == old(releases)[d := Dir(python, None, packages, {})]
    {
      ghost var was := Contents();
      releases := releases[d := Dir(python, None, packages, {})];
      Log(Write(python, packages), was);
    }

    method WriteMetadata(d: Digest)
      requires Logged() && phase == Validated(d) && d in releases
      modifies this`releases, this`phase, this`steps
      ensures old(steps) <= steps && Logged() && phase == Marked(d)
      ensures releases
              == old(releases)[d := old(releases[d]).(marker := Some(d), validated := old(releases[d]).packages)]
    {
      ghost var was := Contents();
      releases := releases[d := releases[d].(marker := Some(d), validated := releases[d].packages)];
      Log(WriteMarker, was);
    }

    /** The commands; an early return is an exception. */
    method Populate(d: Digest, plan: Plan) returns (ok: bool)
      requires Logged() && phase == Creating(d) && plan.creates
      modifies this`releases, this`phase, this`steps
      ensures old(steps) <= steps && Logged()
      ensures releases == old(releases)[d := Dir(plan.python, None, plan.packages, {})]
      ensures ok == (plan.python && plan.checks) && phase == if ok then Validated(d) else Building(d)
    {
      MakeDirectory(d);
      Fill(d, plan.python, plan.packages);
      if !plan.python || !plan.checks { return false; }
      Log(Validate, Contents());
      return true;
    }

    /** The build raised: what can be deleted is deleted. */
    method CleanUp(d: Digest, stuck: Stuck)
      requires Logged() && Working(phase) && !phase.Cleaning? && phase.digest == d
      modifies this`releases, this`phase, this`steps
      ensures old(steps) <= steps && Logged() && phase == Idle
      ensures releases ==
              if d in old(releases) then Deleted(old(releases), d, old(releases)[d], stuck) else old(releases)
    {
      Log(Fail, Contents());
      var gone := false;
      if d in releases { gone := RemoveTree(d, stuck); }
      if !gone { Log(GiveUp, Contents()); }
    }

    /** The build once nothing is in the way. */
    method BuildFresh(d: Digest, plan: Plan) returns (ok: bool)
      requires Logged() && phase == Creating(d) && d !in releases
      modifies this`releases, this`phase, this`steps
      ensures old(steps) <= steps && Logged() && phase == if ok then Ready(d) else Idle
      ensures (releases, ok) == BuildResult(old(releases), d, plan)
    {
      ghost var was := releases;
      if !plan.creates {
        CleanUp(d, plan.stuck);
        assert was - {d} == was;
        return false;
      }
      ok := Populate(d, plan);
      if ok {
        WriteMetadata(d);
        Overwritten(was, d, Dir(plan.python, None, plan.packages, {}), releases[d], plan.stuck);
        ok := plan.chmods;
      } else {
        Overwritten(was, d, EMPTY, releases[d], plan.stuck);
      }
      if !ok { CleanUp(d, plan.stuck); return false; }
      Log(Publish, Contents());
    }

    method BuildRuntime(d: Digest, plan: Plan) returns (ok: bool)
      requires Logged() && phase == if d in releases then Deleting(d) else Creating(d)
      modifies this`releases, this`phase, this`steps
      ensures old(steps) <= steps && Logged() && phase == if ok then Ready(d) else Idle
      ensures (releases, ok) == BuildResult(old(releases), d, plan)
    {
      if d in releases {
        ghost var was := releases;
        var gone := RemoveTree(d, plan.stuck);
        if !gone {
          CleanUp(d, plan.stuck);
          DeletedTwice(was, d, plan.stuck);
          return false;
        }
        ClearedBuild(was, d, plan);
      }
      ok := BuildFresh(d, plan);
    }

    method PointAt(d: Digest) returns (ok: bool)
      requires Logged() && phase == Ready(d)
      modifies this`current, this`phase, this`steps
      ensures old(steps) <= steps && Logged() && phase == Idle
      ensures ok == (old(current) != NotALink) && current == if ok then Link(d) else old(current)
    {
      if current == NotALink { Log(GiveUp, Contents()); return false; }
      ghost var was := Contents();
      current := Link(d);
      Log(Activate, was);
      return true;
    }

    method Provide(d: Digest, plan: Plan) returns (outcome: Outcome)
      requires Logged() && phase == Idle
      modifies this`releases, this`phase, this`steps
      ensures old(steps) <= steps && Logged()
      ensures phase == if outcome == Refused || outcome == Failed then Idle else Ready(d)
      ensures (releases, outcome) == ProvideResult(old(Contents()), d, plan)
    {
      Log(Begin(d), Contents());
      if Complete(Contents(), d) {
        if !plan.chmods { Log(GiveUp, Contents()); return Failed; }
        return Reused;
      }
      if Active(Contents(), d) { return Refused; }
      var ok := BuildRuntime(d, plan);
      return if ok then Built else Failed;
    }

    /** One installation of a verified bundle; every prefix of `steps` is a run that a crash may leave. */
    method Install(d: Digest, plan: Plan) returns (outcome: Outcome)
      requires Logged() && phase == Idle
      modifies this`releases, this`current, this`phase, this`steps
      ensures old(steps) <= steps && Logged() && phase == Idle
      ensures (Contents(), outcome) == InstallResult(old(Contents()), d, plan)
    {
      outcome := Provide(d, plan);
      if outcome != Refused && outcome != Failed {
        var ok := PointAt(d);
        if !ok { outcome := Failed; }
      }
    }
  }

  lemma SameOutside(was: map<Digest, Dir>, now: map<Digest, Dir>, d: Digest)
    requires d in now && now - {d} == was - {d}
    ensures now == was[d := now[d]] && now - {d} == was - {d}
  {
    assert now == (now - {d})[d := now[d]];
    assert was[d := now[d]] == (was - {d})[d := now[d]];
  }

  /** Deleting again what could not be deleted changes nothing. */
  lemma DeletedTwice(was: map<Digest, Dir>, d: Digest, stuck: Stuck)
    requires d in was && !Deletable(was[d], stuck)
    ensures var once := Deleted(was, d, was[d], stuck); d in once && Deleted(once, d, once[d], stuck) == once
  {
    var left := Remains(was[d], stuck);
    assert was[d].packages * stuck.packages * stuck.packages == was[d].packages * stuck.packages;
    assert Remains(left, stuck) == left;
  }

  lemma Overwritten(was: map<Digest, Dir>, d: Digest, first: Dir, next: Dir, stuck: Stuck)
    requires d !in was
    ensures was[d := first][d := next] == was[d := next]
    ensures Deleted(was[d := next], d, next, stuck) == Deleted(was, d, next, stuck)
  {
    assert was[d := next] - {d} == was - {d};
  }

  lemma ClearedBuild(was: map<Digest, Dir>, d: Digest, plan: Plan)
    requires d in was && Deletable(was[d], plan.stuck)
    ensures BuildResult(was, d, plan) == BuildResult(was - {d}, d, plan)
  {
    assert was - {d} - {d} == was - {d};
    forall x: Dir ensures AddedBack(was, d, x) {
      assert was[d := x] == (was - {d})[d := x];
    }
    assert AddedBack(was, d, Dir(true, Some(d), plan.packages, plan.packages));
    assert AddedBack(was, d, Remains(Dir(true, Some(d), plan.packages, plan.packages), plan.stuck));
    assert AddedBack(was, d, Remains(Dir(plan.python, None, plan.packages, {}), plan.stuck));
  }

  ghost predicate AddedBack(was: map<Digest, Dir>, d: Digest, x: Dir) {
    was[d := x] == (was - {d})[d := x]
  }
}
