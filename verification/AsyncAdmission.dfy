/**
 Cancellation-safe asynchronous admission: the awaiting coroutine, the worker thread it starts,
 cancellations delivered at any await and in any number, two clocks and other processes'
 reconciliations, interleaved freely. The callback may raise, and so may every reconciliation and every
 save, before the ledger file is replaced or after it.
 */
module AsyncAdmission {
  import opened Basics

  // -- The commit boundary ------------------------------------------------------------------

  datatype Control = Control(cancelled: bool, committing: bool)

  datatype Begin = Refused | Late | Begun

  function CancelOutcome(c: Control): (Control, bool) {
    if c.committing then (c, false) else (c.(cancelled := true), true)
  }

  function BeginOutcome(c: Control, deadline: Option<real>, now: real): (Control, Begin) {
    if c.cancelled then (c, Refused)
    else if deadline.Some? && now >= deadline.value then (c, Late)
    else (c.(committing := true), Begun)
  }

  class LaunchControl {
    var cancelled: bool
    var committing: bool

    function Value(): Control
      reads this
    {
      Control(cancelled, committing)
    }

    constructor ()
      ensures Value() == Control(false, false)
    {
      cancelled, committing := false, false;
    }

    method CancelBeforeCommit() returns (won: bool)
      modifies this
      ensures (Value(), won) == old(CancelOutcome(Value()))
    {
      if committing { return false; }
      cancelled := true;
      return true;
    }

    method BeginCommit(deadline: Option<real>, now: real) returns (r: Begin)
      modifies this
      ensures (Value(), r) == old(BeginOutcome(Value(), deadline, now))
    {
      if cancelled { return Refused; }
      if deadline.Some? && now >= deadline.value { return Late; }
      committing := true;
      return Begun;
    }
  }

  // -- Coroutine, worker thread and environment ----------------------------------------------

  datatype Error = LaunchCancelled | CapacityBusy | CapacityTimeout | LedgerError | CallbackError

  datatype Exit = Returned(value: int) | Cancelled | Raised(error: Error)

  datatype Result = Registered | NotYet | Admitted(value: int) | Failed(error: Error) | Discarded

  datatype Thread =
    | Idle
    | Registering
    | Attempting                       // under the capacity lock, before the commit boundary
    | Committing                       // begin_commit said yes; the callback runs next
    | Saving(value: int)               // the callback has run; the ledger is saved next
    | Discarding(until: Option<real>)  // removing the intent; `until` bounds the wait for the lock
    | Finished(result: Result)

  datatype Caller =
    | AwaitRegistration
    | DrainRegistration                // cancelled, waits for the registration to settle
    | AwaitAttempt
    | DrainAttempt(cancelWon: bool)    // cancelled, waits for the attempt to settle
    | Sleeping
    | AwaitDiscard(exit: Exit)
    | DrainDiscard
    | Done(exit: Exit)

  // How a commit failed once it had begun; `replaced`: the ledger without the intent was saved all the same.
  datatype Fault = CallbackRaised | SaveRaised(replaced: bool)

  // How the call came to leave its intent behind.
  datatype Stranding =
    | LockLost(at: real)               // the discard gave up waiting for the lock
    | DiscardRaised                    // the discard raised before it had saved
    | RegistrationRaised               // the registration raised after it had saved

  datatype State = State(
    caller: Caller, thread: Thread, control: Control,
    queued: bool,                      // false for a zero timeout: no intent, no deadline
    deadline: real, deadlineAt: real,  // on the monotonic and on the wall clock
    now: real, wall: real,
    intent: bool,                      // the intent is in the saved ledger
    pruned: bool,                      // some reconciliation found it expired and removed it
    runs: nat,                         // callback runs so far
    calls: seq<int>,                   // and the results of those that did not raise
    fault: Option<Fault>,
    committedAt: Option<real>,
    stranding: Option<Stranding>)

  datatype Step =
    | Work(choice: Choice)             // the worker thread moves
    | Resume                           // the awaited task has finished (or the sleep is over)
    | Cancel                           // CancelledError is delivered at the current await
    | Tick(now: real, wall: real)
    | Reconcile                        // some process reconciles the ledger and saves it

  // What the worker meets; the ledger's contents are the other processes' business.
  datatype Choice =
    | Succeed(value: int)
    | Wait
    | Fail(error: Error)
    | FailAfterSaving                  // a ledger error once the file has been replaced
    | LoseLock

  /** What a locked block may raise before it commits. */
  predicate Raises(choice: Choice) {
    choice.Fail? && choice.error != LaunchCancelled && choice.error != CallbackError
  }

  function Deadline(s: State): Option<real> {
    if s.queued then Some(s.deadline) else None
  }

  predicate CanWork(s: State, choice: Choice) {
    match s.thread
    case Registering => if choice.Succeed? || choice.FailAfterSaving? then s.now < s.deadline else Raises(choice)
    case Attempting =>
      || (choice.Succeed? && (s.queued ==> s.intent))
      || (choice.Wait? && s.queued)
      || Raises(choice)
    case Committing => choice.Succeed? || choice == Fail(CallbackError)
    case Saving(_) => choice.Succeed? || choice == Fail(LedgerError) || choice.FailAfterSaving?
    case Discarding(until) =>
      || choice.Succeed? || choice == Fail(LedgerError) || choice.FailAfterSaving?
      || (choice.LoseLock? && until.Some? && s.now >= until.value)
    case _ => false
  }

  function AfterWork(s: State, choice: Choice): State
    requires CanWork(s, choice)
  {
    match s.thread
    case Registering =>
      if choice.Succeed? then s.(thread := Finished(Registered), intent := true)
      else if choice.FailAfterSaving? then
        s.(thread := Finished(Failed(LedgerError)), intent := true, stranding := Some(RegistrationRaised))
      else s.(thread := Finished(Failed(choice.error)))
    case Attempting =>
      if choice.Wait? then s.(thread := Finished(NotYet))
      else if choice.Fail? then s.(thread := Finished(Failed(choice.error)))
      else
        var (control, begin) := BeginOutcome(s.control, Deadline(s), s.now);
        (match begin
         case Refused => s.(thread := Finished(Failed(LaunchCancelled)))
         case Late => s.(thread := Finished(Failed(CapacityTimeout)))
         case Begun => s.(thread := Committing, control := control, committedAt := Some(s.now)))
    case Committing =>
      if choice.Succeed? then s.(thread := Saving(choice.value), runs := s.runs + 1, calls := s.calls + [choice.value])
      else s.(thread := Finished(Failed(CallbackError)), runs := s.runs + 1, fault := Some(CallbackRaised))
    case Saving(v) =>
      if choice.Succeed? then s.(thread := Finished(Admitted(v)), intent := false)
      else s.(thread := Finished(Failed(LedgerError)), fault := Some(SaveRaised(choice.FailAfterSaving?)),
              intent := s.intent && !choice.FailAfterSaving?)
    case Discarding(_) =>
      match choice
      case Succeed(_) => s.(thread := Finished(Discarded), intent := false)
      case FailAfterSaving => s.(thread := Finished(Failed(LedgerError)), intent := false)
      case LoseLock => s.(thread := Finished(Discarded), stranding := Some(LockLost(s.now)))
      case _ => s.(thread := Finished(Failed(LedgerError)), stranding := Some(DiscardRaised))
  }

  /** Leaving the polling loop with `exit`; a queued launch first discards its intent. */
  function Leave(s: State, exit: Exit, until: Option<real>): State {
    if s.queued then s.(caller := AwaitDiscard(exit), thread := Discarding(until))
    else s.(caller := Done(exit))
  }

  predicate CanResume(s: State) {
    match s.caller
    case AwaitRegistration => s.thread.Finished?
    case DrainRegistration => s.thread.Finished?
    case AwaitAttempt => s.thread.Finished?
    case DrainAttempt(_) => s.thread.Finished?
    case Sleeping => true
    case AwaitDiscard(_) => s.thread.Finished?
    case DrainDiscard => s.thread.Finished?
    case Done(_) => false
  }

  /** The attempt's result reaches the polling loop. */
  function TakeResult(s: State, r: Result): State {
    match r
    case Admitted(v) => s.(caller := Done(Returned(v)))
    case Failed(e) => Leave(s, Raised(e), Deadline(s))
    case _ => s.(caller := Sleeping, thread := Idle)
  }

  /** What the discard raises takes the place of the exit that was under way. */
  function AfterDiscard(r: Result, exit: Exit): Exit {
    if r.Failed? then Raised(r.error) else exit
  }

  function AfterResume(s: State): State
    requires CanResume(s)
  {
    match s.caller
    case AwaitRegistration =>
      if s.thread.result.Failed? then s.(caller := Done(Raised(s.thread.result.error)))
      else s.(caller := AwaitAttempt, thread := Attempting)
    case DrainRegistration =>
      if s.thread.result.Failed? then s.(caller := Done(Cancelled)) else Leave(s, Cancelled, None)
    case AwaitAttempt => TakeResult(s, s.thread.result)
    case DrainAttempt(cancelWon) =>
      if !cancelWon then TakeResult(s, s.thread.result)
      else if s.thread.result == Failed(LedgerError) then Leave(s, Raised(LedgerError), Deadline(s))
      else Leave(s, Cancelled, None)
    case Sleeping => s.(caller := AwaitAttempt, thread := Attempting)
    case AwaitDiscard(exit) => s.(caller := Done(AfterDiscard(s.thread.result, exit)))
    case DrainDiscard => s.(caller := Done(AfterDiscard(s.thread.result, Cancelled)))
  }

  function AfterCancel(s: State): State {
    match s.caller
    case AwaitRegistration => s.(caller := DrainRegistration)
    case AwaitAttempt =>
      var (control, won) := CancelOutcome(s.control);
      s.(caller := DrainAttempt(won), control := control)
    case Sleeping => Leave(s, Cancelled, Deadline(s))
    case AwaitDiscard(_) => s.(caller := DrainDiscard)
    case _ => s
  }

  predicate Enabled(s: State, step: Step) {
    match step
    case Work(choice) => CanWork(s, choice)
    case Resume => CanResume(s)
    case Cancel => !s.caller.Done?
    case Tick(now, wall) => s.now <= now && s.wall <= wall
    case Reconcile => true
  }

  function Apply(s: State, step: Step): State
    requires Enabled(s, step)
  {
    match step
    case Work(choice) => AfterWork(s, choice)
    case Resume => AfterResume(s)
    case Cancel => AfterCancel(s)
    case Tick(now, wall) => s.(now := now, wall := wall)
    case Reconcile => if s.intent && s.deadlineAt <= s.wall then s.(intent := false, pruned := true) else s
  }

  /** `admit_launch_async` has just been called. */
  predicate Initial(s: State) {
    && s.control == Control(false, false) && !s.intent && !s.pruned && s.runs == 0 && s.calls == []
    && s.fault.None? && s.committedAt.None? && s.stranding.None?
    && (if s.queued then s.caller == AwaitRegistration && s.thread == Registering
        else s.caller == AwaitAttempt && s.thread == Attempting)
  }

  function Run(s: State, steps: seq<Step>): Option<State> {
    if steps == [] then Some(s)
    else
      var before := Run(s, steps[..|steps| - 1]);
      var last := steps[|steps| - 1];
      if before.Some? && Enabled(before.value, last) then Some(Apply(before.value, last)) else None
  }

  // -- The invariant ------------------------------------------------------------------------

  predicate PastCommit(t: Thread) {
    t.Committing? || t.Saving? || (t.Finished? && t.result.Admitted?)
  }

  predicate ThreadMatchesCaller(s: State) {
    match s.caller
    case AwaitRegistration => InRegistration(s.thread)
    case DrainRegistration => InRegistration(s.thread)
    case AwaitAttempt => InAttempt(s.thread)
    case DrainAttempt(_) => InAttempt(s.thread)
    case Sleeping => s.thread.Idle?
    case AwaitDiscard(_) => InDiscard(s.thread)
    case DrainDiscard => InDiscard(s.thread)
    case Done(_) => s.thread.Finished?
  }

  predicate InRegistration(t: Thread) {
    t.Registering? || (t.Finished? && (t.result.Registered? || t.result.Failed?))
  }

  predicate InAttempt(t: Thread) {
    t.Attempting? || t.Committing? || t.Saving? || (t.Finished? && !t.result.Registered? && !t.result.Discarded?)
  }

  predicate InDiscard(t: Thread) {
    t.Discarding? || t == Finished(Discarded) || t == Finished(Failed(LedgerError))
  }

  /** The callback's runs and results are exactly what the thread's position and the fault say. */
  predicate CallsMatch(s: State) {
    match s.thread
    case Saving(v) => s.runs == 1 && s.calls == [v] && s.fault.None?
    case Finished(Admitted(v)) => s.runs == 1 && s.calls == [v] && s.fault.None?
    case _ => (if s.fault.None? then s.runs == 0 && s.calls == []
               else s.runs == 1 && |s.calls| == if s.fault.value.SaveRaised? then 1 else 0)
  }

  /** A commit that fails ends the attempt with an error, and then the call. */
  predicate FaultEnds(s: State) {
    s.fault.Some? ==>
      && s.control.committing
      && match s.caller
         case AwaitAttempt => s.thread.Finished? && s.thread.result.Failed?
         case DrainAttempt(won) => !won && s.thread.Finished? && s.thread.result.Failed?
         case AwaitDiscard(_) => true
         case DrainDiscard => true
         case Done(exit) => !exit.Returned?
         case _ => false
  }

  /** The intent has been registered and neither admitted nor discarded. */
  predicate Outstanding(s: State) {
    && s.queued
    && match s.caller
       case AwaitRegistration => s.thread == Finished(Registered)
       case DrainRegistration => s.thread == Finished(Registered)
       case AwaitAttempt => !(s.thread.Finished? && s.thread.result.Admitted?)
       case DrainAttempt(_) => !(s.thread.Finished? && s.thread.result.Admitted?)
       case Sleeping => true
       case AwaitDiscard(_) => s.thread.Discarding?
       case DrainDiscard => s.thread.Discarding?
       case Done(_) => false
  }

  /** Neither a reconciliation nor the commit has taken the intent out of the saved ledger. */
  predicate Spared(s: State) {
    !s.pruned && s.fault != Some(SaveRaised(true))
  }

  /** An outstanding intent is in the ledger unless it was taken out, and another only if it was left behind. */
  predicate IntentAccounted(s: State) {
    && (s.thread.Registering? ==> !s.pruned)
    && (s.intent ==> s.queued)
    && (Outstanding(s) ==> s.stranding.None?)
    && (s.intent <==> (Outstanding(s) || s.stranding.Some?) && Spared(s))
  }

  /** When and how the call may leave its intent behind. */
  predicate StrandingExplained(s: State) {
    match s.stranding
    case None => true
    case Some(LockLost(at)) =>
      && s.deadline <= at <= s.now && s.thread == Finished(Discarded)
      && (s.caller.AwaitDiscard? || s.caller.DrainDiscard? || (s.caller.Done? && !s.caller.exit.Returned?))
    case Some(DiscardRaised) =>
      && s.thread == Finished(Failed(LedgerError))
      && (s.caller.AwaitDiscard? || s.caller.DrainDiscard? || s.caller == Done(Raised(LedgerError)))
    case Some(RegistrationRaised) =>
      && s.thread == Finished(Failed(LedgerError))
      && (s.caller.AwaitRegistration? || s.caller.DrainRegistration?
          || s.caller == Done(Raised(LedgerError)) || s.caller == Done(Cancelled))
  }

  /** Where the caller, the thread and the flags of the commit boundary may be together. */
  predicate Together(s: State) {
    && ThreadMatchesCaller(s)
    && CallsMatch(s)
    && FaultEnds(s)
    && (s.control.committing <==> PastCommit(s.thread) || s.fault.Some?)
    && (s.control.cancelled ==> !s.control.committing)
    && (s.caller == DrainAttempt(true) ==> s.control.cancelled)
    && (s.control.cancelled ==>
          s.caller == DrainAttempt(true) || s.caller.AwaitDiscard? || s.caller.DrainDiscard? || s.caller.Done?)
    && (s.caller == DrainAttempt(false) ==> s.control.committing)
    && (s.caller.Done? ==> (s.caller.exit.Returned? <==> s.control.committing && s.fault.None?))
    && (s.caller.Done? && s.caller.exit.Returned? ==> s.thread == Finished(Admitted(s.caller.exit.value)))
    && (s.caller.AwaitDiscard? ==> !s.caller.exit.Returned?)
    && (!s.queued ==> s.caller.AwaitAttempt? || s.caller.DrainAttempt? || s.caller.Done?)
    && (!s.queued ==> s.thread != Finished(NotYet))
  }

  predicate InTime(s: State) {
    && (s.committedAt.Some? <==> s.control.committing)
    && (s.committedAt.Some? && s.queued ==> s.committedAt.value < s.deadline)
    && (s.thread.Discarding? ==> s.thread.until.None? || s.thread.until == Some(s.deadline))
  }

  predicate Inv(s: State) {
    Together(s) && InTime(s) && IntentAccounted(s) && StrandingExplained(s)
  }

  lemma WorkKeepsTogether(s: State, choice: Choice)
    requires Together(s) && CanWork(s, choice)
    ensures Together(AfterWork(s, choice))
  {
    if s.thread.Attempting? { AttemptKeepsTogether(s, choice); }
    if s.thread.Committing? || s.thread.Saving? { CommitKeepsTogether(s, choice); }
  }

  lemma AttemptKeepsTogether(s: State, choice: Choice)
    requires Together(s) && CanWork(s, choice) && s.thread.Attempting?
    ensures Together(AfterWork(s, choice))
  {
  }

  lemma CommitKeepsTogether(s: State, choice: Choice)
    requires Together(s) && CanWork(s, choice) && (s.thread.Committing? || s.thread.Saving?)
    ensures Together(AfterWork(s, choice))
  {
  }

  lemma WorkKeepsIntent(s: State, choice: Choice)
    requires Inv(s) && CanWork(s, choice)
    ensures InTime(AfterWork(s, choice))
    ensures IntentAccounted(AfterWork(s, choice)) && StrandingExplained(AfterWork(s, choice))
  {
  }

  lemma WorkKeepsInv(s: State, choice: Choice)
    requires Inv(s) && CanWork(s, choice)
    ensures Inv(AfterWork(s, choice))
  {
    WorkKeepsTogether(s, choice);
    WorkKeepsIntent(s, choice);
  }

  lemma ResumeKeepsTogether(s: State)
    requires Together(s) && CanResume(s)
    ensures Together(AfterResume(s))
  {
  }

  lemma ResumeKeepsIntent(s: State)
    requires Inv(s) && CanResume(s)
    ensures InTime(AfterResume(s))
    ensures IntentAccounted(AfterResume(s)) && StrandingExplained(AfterResume(s))
  {
  }

  lemma ResumeKeepsInv(s: State)
    requires Inv(s) && CanResume(s)
    ensures Inv(AfterResume(s))
  {
    ResumeKeepsTogether(s);
    ResumeKeepsIntent(s);
  }

  lemma CancelKeepsInv(s: State)
    requires Inv(s) && !s.caller.Done?
    ensures Inv(AfterCancel(s))
  {
    CancelKeepsTogether(s);
  }

  lemma CancelKeepsTogether(s: State)
    requires Together(s) && !s.caller.Done?
    ensures Together(AfterCancel(s))
  {
  }

  lemma StepKeepsInv(s: State, step: Step)
    requires Inv(s) && Enabled(s, step)
    ensures Inv(Apply(s, step))
  {
    match step
    case Work(choice) => WorkKeepsInv(s, choice);
    case Resume => ResumeKeepsInv(s);
    case Cancel => CancelKeepsInv(s);
    case Tick(_, _) =>
    case Reconcile =>
  }

  lemma {:induction false} RunKeepsInv(s: State, steps: seq<Step>)
    requires Initial(s) && Run(s, steps).Some?
    ensures Inv(Run(s, steps).value)
  {
    if steps != [] {
      RunKeepsInv(s, steps[..|steps| - 1]);
      StepKeepsInv(Run(s, steps[..|steps| - 1]).value, steps[|steps| - 1]);
    }
  }

  predicate SameParameters(s: State, t: State) {
    t.queued == s.queued && t.deadline == s.deadline && t.deadlineAt == s.deadlineAt && t.wall >= s.wall
  }

  lemma WorkKeepsParameters(s: State, choice: Choice)
    requires CanWork(s, choice)
    ensures SameParameters(s, AfterWork(s, choice))
  {
  }

  lemma ResumeKeepsParameters(s: State)
    requires CanResume(s)
    ensures SameParameters(s, AfterResume(s))
  {
  }

  lemma StepKeepsParameters(s: State, step: Step)
    requires Enabled(s, step)
    ensures SameParameters(s, Apply(s, step))
  {
    match step
    case Work(choice) => WorkKeepsParameters(s, choice);
    case Resume => ResumeKeepsParameters(s);
    case _ =>
  }

  lemma {:induction false} RunKeepsParameters(s: State, steps: seq<Step>)
    requires Run(s, steps).Some?
    ensures SameParameters(s, Run(s, steps).value)
  {
    if steps != [] {
      RunKeepsParameters(s, steps[..|steps| - 1]);
      StepKeepsParameters(Run(s, steps[..|steps| - 1]).value, steps[|steps| - 1]);
    }
  }

  // -- Theorems -----------------------------------------------------------------------------

  /**
   The callback runs at most once, and exactly once on a normal return, with its result returned. When anything is
   raised it ran exactly if the commit failed after it had begun, and it had a result exactly if what failed is the
   reconciliation or the save after it.
   */
  lemma {:induction false} ExitTellsWhetherTheCallbackRan(s: State, steps: seq<Step>)
    requires Initial(s) && Run(s, steps).Some?
    ensures var t := Run(s, steps).value;
            && |t.calls| <= t.runs <= 1
            && (t.caller.Done? && t.caller.exit.Returned? ==> t.calls == [t.caller.exit.value] && t.fault.None?)
            && (t.caller.Done? && !t.caller.exit.Returned? ==>
                  && (t.runs == 1 <==> t.fault.Some?)
                  && (t.calls != [] <==> t.fault.Some? && t.fault.value.SaveRaised?))
  {
    RunKeepsInv(s, steps);
  }

  /** A queued launch never crosses the commit boundary at or after its deadline. */
  lemma {:induction false} CommitPrecedesDeadline(s: State, steps: seq<Step>)
    requires Initial(s) && s.queued && Run(s, steps).Some?
    ensures var t := Run(s, steps).value;
            && (t.runs > 0 ==> t.committedAt.Some?)
            && (t.committedAt.Some? ==> t.committedAt.value < s.deadline)
  {
    RunKeepsInv(s, steps);
    RunKeepsParameters(s, steps);
  }

  /** A commit begins exactly when no cancellation has won and a queued launch is still in time. */
  lemma WhenACommitBegins(s: State)
    requires s.thread.Attempting? && CanWork(s, Succeed(0))
    ensures var t := AfterWork(s, Succeed(0));
            && (t.thread.Committing? <==> !s.control.cancelled && (s.queued ==> s.now < s.deadline))
            && (t.thread == Finished(Failed(LaunchCancelled)) <==> s.control.cancelled)
            && (t.thread == Finished(Failed(CapacityTimeout)) <==>
                  !s.control.cancelled && s.queued && s.deadline <= s.now)
            && (t.control == if t.thread.Committing? then Control(s.control.cancelled, true) else s.control)
  {
  }

  /** A cancellation wins exactly when the commit has not begun. */
  lemma WhenACancellationWins(s: State)
    requires s.caller.AwaitAttempt?
    ensures var t := AfterCancel(s);
            && (t.caller == DrainAttempt(true) <==> !s.control.committing)
            && t.control == (if s.control.committing then s.control else Control(true, false))
  {
  }

  /** In every reachable state of a call that is not over, the worker can move or the caller can go on. */
  lemma {:induction false} NeverStuck(s: State, steps: seq<Step>)
    requires Initial(s) && Run(s, steps).Some? && !Run(s, steps).value.caller.Done?
    ensures var t := Run(s, steps).value;
            CanResume(t) || CanWork(t, Succeed(0)) || CanWork(t, Fail(LedgerError))
  {
    RunKeepsInv(s, steps);
  }

  /** What the worker may meet: waiting in the queue, a callback that raises, a ledger that cannot be used. */
  lemma WhatTheWorkerMayMeet(s: State, v: int)
    ensures s.thread.Attempting? ==>
              && (CanWork(s, Wait) <==> s.queued) && (CanWork(s, Succeed(v)) <==> (s.queued ==> s.intent))
              && CanWork(s, Fail(CapacityBusy)) && CanWork(s, Fail(CapacityTimeout)) && CanWork(s, Fail(LedgerError))
    ensures s.thread.Committing? ==> CanWork(s, Succeed(v)) && CanWork(s, Fail(CallbackError))
    ensures s.thread.Saving? || s.thread.Discarding? ==>
              CanWork(s, Succeed(v)) && CanWork(s, Fail(LedgerError)) && CanWork(s, FailAfterSaving)
  {
  }

  /** An intent is registered in time only, and a discard gives up on the lock from its time limit on. */
  lemma LocksAndDeadlines(s: State, choice: Choice)
    requires CanWork(s, choice)
    ensures s.thread.Registering? ==>
              (AfterWork(s, choice).intent && !s.intent ==> s.now < s.deadline)
              && (s.now < s.deadline ==> CanWork(s, Succeed(0)) && AfterWork(s, Succeed(0)).intent)
    ensures s.thread.Discarding? ==>
              && (CanWork(s, LoseLock) <==> s.thread.until.Some? && s.thread.until.value <= s.now)
              && (AfterWork(s, choice).intent && s.intent ==> choice == LoseLock || choice == Fail(LedgerError))
  {
  }

  /**
   What the caller leaves with once a cancellation has won: the ledger error of the attempt, which still bounds the
   discard by the deadline, or else the cancellation, with all the time the discard takes.
   */
  lemma HowACancelledAttemptLeaves(s: State)
    requires s.caller == DrainAttempt(true) && s.thread.Finished?
    ensures var broken := s.thread.result == Failed(LedgerError);
            var exit := if broken then Raised(LedgerError) else Cancelled;
            var t := AfterResume(s);
            if s.queued
            then && t.caller == AwaitDiscard(exit)
                 && t.thread == Discarding(if broken then Some(s.deadline) else None)
            else t.caller == Done(exit)
  {
  }

  predicate Undisturbed(t: State) {
    && !t.control.cancelled && !t.caller.DrainRegistration? && !t.caller.DrainAttempt? && !t.caller.DrainDiscard?
    && (t.caller.AwaitDiscard? ==> t.caller.exit != Cancelled)
    && (t.caller.Done? ==> t.caller.exit != Cancelled)
  }

  lemma StaysUndisturbed(t: State, step: Step)
    requires Undisturbed(t) && Enabled(t, step) && step != Cancel
    ensures Undisturbed(Apply(t, step))
  {
    match step
    case Work(choice) => WorkUndisturbed(t, choice);
    case Resume => ResumeUndisturbed(t);
    case _ =>
  }

  lemma WorkUndisturbed(t: State, choice: Choice)
    requires Undisturbed(t) && CanWork(t, choice)
    ensures Undisturbed(AfterWork(t, choice))
  {
  }

  lemma ResumeUndisturbed(t: State)
    requires Undisturbed(t) && CanResume(t)
    ensures Undisturbed(AfterResume(t))
  {
  }

  /** Nobody is told of a cancellation that was not asked for. */
  lemma {:induction false} CancelledOnlyIfAsked(s: State, steps: seq<Step>)
    requires Initial(s) && Run(s, steps).Some? && Cancel !in steps
    ensures Undisturbed(Run(s, steps).value)
    ensures Run(s, steps).value.caller != Done(Cancelled)
  {
    if steps != [] {
      var before, last := steps[..|steps| - 1], steps[|steps| - 1];
      assert last in steps;
      CancelledOnlyIfAsked(s, before);
      StaysUndisturbed(Run(s, before).value, last);
    }
  }

  /** What never changes again: the outcome of the race at the commit boundary, and the exit. */
  predicate Settled(s: State, t: State) {
    && (s.control.cancelled ==> t.control.cancelled)
    && (s.control.committing ==> t.control.committing)
    && (s.fault.Some? ==> t.fault == s.fault)
    && (s.caller.Done? ==>
          && t.caller == s.caller && t.runs == s.runs && t.calls == s.calls && t.fault == s.fault
          && (t.intent ==> s.intent))
  }

  lemma StepSettles(s: State, step: Step)
    requires Inv(s) && Enabled(s, step)
    ensures Settled(s, Apply(s, step))
  {
  }

  lemma {:induction false} RaceIsSettled(s: State, steps: seq<Step>)
    requires Inv(s) && Run(s, steps).Some?
    ensures Inv(Run(s, steps).value) && Settled(s, Run(s, steps).value)
  {
    if steps != [] {
      var before, last := Run(s, steps[..|steps| - 1]).value, steps[|steps| - 1];
      RaceIsSettled(s, steps[..|steps| - 1]);
      StepKeepsInv(before, last);
      StepSettles(before, last);
    }
  }

  /**
   A cancellation delivered before the commit boundary wins; one delivered after it is suppressed, if the
   commit succeeds.
   */
  lemma {:induction false} CancellationRace(s: State, steps: seq<Step>, more: seq<Step>)
    requires Initial(s) && Run(s, steps).Some? && Run(s, steps).value.caller.AwaitAttempt?
    requires Run(Apply(Run(s, steps).value, Cancel), more).Some?
    ensures var t, u := Run(s, steps).value, Run(Apply(Run(s, steps).value, Cancel), more).value;
            u.caller.Done? ==> (u.caller.exit.Returned? <==> t.control.committing && u.fault.None?)
  {
    RunKeepsInv(s, steps);
    var t := Run(s, steps).value;
    StepKeepsInv(t, Cancel);
    RaceIsSettled(Apply(t, Cancel), more);
  }

  /**
   At exit the intent is in the ledger exactly when the call has left it behind and neither a reconciliation nor the
   commit has taken it out.
   */
  lemma {:induction false} IntentGoneAtExit(s: State, steps: seq<Step>)
    requires Initial(s) && Run(s, steps).Some? && Run(s, steps).value.caller.Done?
    ensures var t := Run(s, steps).value;
            && (t.intent <==> t.stranding.Some? && !t.pruned && t.fault != Some(SaveRaised(true)))
            && (t.stranding.Some? ==>
                  match t.stranding.value
                  case LockLost(at) => s.deadline <= at && !t.caller.exit.Returned?
                  case DiscardRaised => t.caller.exit == Raised(LedgerError)
                  case RegistrationRaised => t.caller.exit == Raised(LedgerError) || t.caller.exit == Cancelled)
  {
    RunKeepsInv(s, steps);
    RunKeepsParameters(s, steps);
  }

  /** And then the first reconciliation that is saved once `deadline_at` has passed removes it for good. */
  lemma {:induction false} IntentGoneAfterExpiry(s: State, steps: seq<Step>, more: seq<Step>, rest: seq<Step>)
    requires Initial(s) && Run(s, steps).Some? && Run(s, steps).value.caller.Done?
    requires Run(Run(s, steps).value, more).Some? && Run(Run(s, steps).value, more).value.wall >= s.deadlineAt
    requires Run(Apply(Run(Run(s, steps).value, more).value, Reconcile), rest).Some?
    ensures !Run(Apply(Run(Run(s, steps).value, more).value, Reconcile), rest).value.intent
  {
    RunKeepsInv(s, steps);
    RunKeepsParameters(s, steps);
    var t := Run(s, steps).value;
    RunKeepsParameters(t, more);
    RaceIsSettled(t, more);
    var u := Run(t, more).value;
    StepKeepsInv(u, Reconcile);
    RaceIsSettled(Apply(u, Reconcile), rest);
  }

  // -- Runs in which the promises do not hold --------------------------------------------------

  lemma {:induction false} OneMore(s: State, steps: seq<Step>, step: Step)
    requires Run(s, steps).Some? && Enabled(Run(s, steps).value, step)
    ensures Run(s, steps + [step]) == Some(Apply(Run(s, steps).value, step))
  {
    assert (steps + [step])[..|steps|] == steps;
  }

  /** A queued launch just started, with a deadline one second away. */
  const STARTED := State(AwaitRegistration, Registering, Control(false, false), true, 1.0, 1.0, 0.0, 0.0,
                         false, false, 0, [], None, None, None)

  lemma FirstAttempt() returns (steps: seq<Step>)
    ensures Run(STARTED, steps) == Some(STARTED.(caller := AwaitAttempt, thread := Attempting, intent := true))
  {
    OneMore(STARTED, [], Work(Succeed(0)));
    OneMore(STARTED, [] + [Work(Succeed(0))], Resume);
    steps := [] + [Work(Succeed(0))] + [Resume];
  }

  /** The attempt times out and the discard begins. */
  lemma LateDiscard() returns (steps: seq<Step>)
    ensures Run(STARTED, steps) == Some(STARTED.(
              caller := AwaitDiscard(Raised(CapacityTimeout)), thread := Discarding(Some(1.0)), intent := true,
              now := 2.0))
  {
    steps := FirstAttempt();
    OneMore(STARTED, steps, Tick(2.0, 0.0));
    steps := steps + [Tick(2.0, 0.0)];
    OneMore(STARTED, steps, Work(Fail(CapacityTimeout)));
    steps := steps + [Work(Fail(CapacityTimeout))];
    OneMore(STARTED, steps, Resume);
    steps := steps + [Resume];
  }

  /** It cannot get the lock, and the intent is still there at exit. */
  lemma IntentCanStay() returns (steps: seq<Step>)
    ensures Initial(STARTED) && Run(STARTED, steps).Some?
    ensures var t := Run(STARTED, steps).value; t.caller == Done(Raised(CapacityTimeout)) && t.intent
  {
    steps := LateDiscard();
    OneMore(STARTED, steps, Work(LoseLock));
    steps := steps + [Work(LoseLock)];
    OneMore(STARTED, steps, Resume);
    steps := steps + [Resume];
  }

  /** A ledger error in the attempt comes back in the discard: the intent stays, long before the deadline. */
  lemma FailedDiscardLeavesTheIntent() returns (steps: seq<Step>)
    ensures Initial(STARTED) && Run(STARTED, steps).Some?
    ensures var t := Run(STARTED, steps).value;
            && t.caller == Done(Raised(LedgerError)) && t.intent
            && t.stranding == Some(DiscardRaised) && t.now < t.deadline
  {
    steps := FirstAttempt();
    OneMore(STARTED, steps, Work(Fail(LedgerError)));
    steps := steps + [Work(Fail(LedgerError))];
    OneMore(STARTED, steps, Resume);
    steps := steps + [Resume];
    OneMore(STARTED, steps, Work(Fail(LedgerError)));
    steps := steps + [Work(Fail(LedgerError))];
    OneMore(STARTED, steps, Resume);
    steps := steps + [Resume];
  }

  /** The registration raises once its intent is saved, and nobody discards it. */
  lemma FailedRegistrationLeavesTheIntent() returns (steps: seq<Step>)
    ensures Initial(STARTED) && Run(STARTED, steps).Some?
    ensures var t := Run(STARTED, steps).value;
            t.caller == Done(Raised(LedgerError)) && t.intent && t.stranding == Some(RegistrationRaised)
  {
    OneMore(STARTED, [], Work(FailAfterSaving));
    OneMore(STARTED, [] + [Work(FailAfterSaving)], Resume);
    steps := [] + [Work(FailAfterSaving)] + [Resume];
  }

  /** The callback returns 7 and the save after it fails. */
  lemma FailedSave() returns (steps: seq<Step>)
    ensures Run(STARTED, steps) == Some(STARTED.(
              caller := AwaitAttempt, thread := Finished(Failed(LedgerError)), control := Control(false, true),
              intent := true, runs := 1, calls := [7], fault := Some(SaveRaised(false)), committedAt := Some(0.0)))
  {
    steps := FirstAttempt();
    OneMore(STARTED, steps, Work(Succeed(0)));
    steps := steps + [Work(Succeed(0))];
    assert STARTED.calls + [7] == [7];
    OneMore(STARTED, steps, Work(Succeed(7)));
    steps := steps + [Work(Succeed(7))];
    OneMore(STARTED, steps, Work(Fail(LedgerError)));
    steps := steps + [Work(Fail(LedgerError))];
  }

  /** A cancellation arrives during the discard after that: the call is cancelled although the callback has run. */
  lemma CancelledAfterTheCallback() returns (steps: seq<Step>)
    ensures Initial(STARTED) && Run(STARTED, steps).Some?
    ensures var t := Run(STARTED, steps).value; t.caller == Done(Cancelled) && t.calls == [7]
  {
    steps := FailedSave();
    OneMore(STARTED, steps, Resume);
    steps := steps + [Resume];
    OneMore(STARTED, steps, Cancel);
    steps := steps + [Cancel];
    OneMore(STARTED, steps, Work(Succeed(0)));
    steps := steps + [Work(Succeed(0))];
    OneMore(STARTED, steps, Resume);
    steps := steps + [Resume];
  }
}
