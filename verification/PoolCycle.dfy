/**
 The retry driver: the operation is tried on each request pool in turn, cycle after cycle, until an
 attempt succeeds, one is fatal, or the cycle limit is reached. Without a limit it may go on for ever, so it is
 watched for some number of cycles.
 */
module PoolCycle {
  import opened Basics

  datatype Verdict = Success | Retry | Fatal

  /** The n-th attempt: the state it leaves and how it ended. */
  type Operation<!S> = (nat, S) -> (S, Verdict)

  datatype Outcome = Finished | TimedOut | Exited | Retrying

  function After<S>(op: Operation<S>, n: nat, start: S): S {
    if n == 0 then start else op(n - 1, After(op, n - 1, start)).0
  }

  function VerdictOf<S>(op: Operation<S>, n: nat, start: S): Verdict {
    op(n, After(op, n, start)).1
  }

  lemma OneAttempt<S>(op: Operation<S>, used: nat, start: S)
    requires used > 0
    ensures op(used - 1, After(op, used - 1, start)) == (After(op, used, start), VerdictOf(op, used - 1, start))
  {
  }

  /** None of the first `used` attempts ended the loop. */
  ghost predicate AllRetried<S>(op: Operation<S>, start: S, used: nat) {
    forall k: nat :: k < used ==> VerdictOf(op, k, start) == Retry
  }

  /** At least one cycle is made, whatever the limit; without one, as many as are watched. */
  function Cycles(maxCycles: Option<nat>, watched: nat): nat {
    if maxCycles.None? then watched
    else
      var most := if maxCycles.value == 0 then 1 else maxCycles.value;
      if watched < most then watched else most
  }

  /** What the driver reports about the attempts it made. */
  ghost predicate Reports<S>(op: Operation<S>, pools: nat, maxCycles: Option<nat>, watched: nat, start: S,
      used: nat, outcome: Outcome)
  {
    var most := pools * Cycles(maxCycles, watched);
    match outcome
    case TimedOut =>
      maxCycles.Some? && maxCycles.value <= watched && 0 < watched && used == most && AllRetried(op, start, used)
    case Retrying =>
      (maxCycles.None? || watched < maxCycles.value || watched == 0) && used == most && AllRetried(op, start, used)
    case _ =>
      && 0 < used <= most && AllRetried(op, start, used - 1)
      && VerdictOf(op, used - 1, start) == if outcome == Finished then Success else Fatal
  }

  method OneCycle<S>(op: Operation<S>, pools: nat, from: nat, ghost start: S, was: S)
    returns (state: S, used: nat, verdict: Verdict)
    requires was == After(op, from, start) && AllRetried(op, start, from)
    ensures state == After(op, used, start) && from <= used <= from + pools
    ensures verdict == Retry ==> used == from + pools && AllRetried(op, start, used)
    ensures verdict != Retry ==>
              from < used && AllRetried(op, start, used - 1) && verdict == VerdictOf(op, used - 1, start)
  {
    state, used, verdict := was, from, Retry;
    for pool := 0 to pools
      invariant used == from + pool && state == After(op, used, start) && AllRetried(op, start, used)
      invariant verdict == Retry
    {
      var done := op(used, state);
      used := used + 1;
      state := done.0;
      if done.1 != Retry { return state, used, done.1; }
    }
  }

  method CycleThroughPools<S>(op: Operation<S>, pools: nat, maxCycles: Option<nat>, watched: nat, start: S)
    returns (state: S, used: nat, outcome: Outcome)
    ensures state == After(op, used, start) && Reports(op, pools, maxCycles, watched, start, used, outcome)
  {
    state, used := start, 0;
    for retry := 1 to watched + 1
      invariant used == pools * (retry - 1) && (retry > 1 && maxCycles.Some? ==> retry <= maxCycles.value)
      invariant state == After(op, used, start) && AllRetried(op, start, used)
    {
      CycleFits(pools, retry, maxCycles, watched);
      var verdict;
      state, used, verdict := OneCycle(op, pools, used, start, state);
      if verdict == Success { return state, used, Finished; }
      if verdict == Fatal { return state, used, Exited; }
      if maxCycles.Some? && retry >= maxCycles.value { return state, used, TimedOut; }
    }
    return state, used, Retrying;
  }

  lemma CycleFits(pools: nat, retry: nat, maxCycles: Option<nat>, watched: nat)
    requires 1 <= retry <= watched && (retry > 1 && maxCycles.Some? ==> retry <= maxCycles.value)
    ensures pools * (retry - 1) + pools == pools * retry <= pools * Cycles(maxCycles, watched)
  {
    assert retry <= Cycles(maxCycles, watched);
  }

  /** The driver finishes exactly when its last attempt was a success. */
  lemma FinishedExactly<S>(op: Operation<S>, pools: nat, maxCycles: Option<nat>, watched: nat, start: S, used: nat,
      outcome: Outcome)
    requires Reports(op, pools, maxCycles, watched, start, used, outcome)
    ensures outcome == Finished <==> used > 0 && VerdictOf(op, used - 1, start) == Success
  {
    if (outcome == TimedOut || outcome == Retrying) && used > 0 {
      assert VerdictOf(op, used - 1, start) == Retry;
    }
  }

  /**
   It is still going, or has run out of cycles, exactly when every attempt it could make was retried: no attempt is
   left out and none is made after the one that ends it. Without a limit it never times out.
   */
  lemma EndsExactly<S>(op: Operation<S>, pools: nat, maxCycles: Option<nat>, watched: nat, start: S, used: nat,
      outcome: Outcome)
    requires Reports(op, pools, maxCycles, watched, start, used, outcome)
    ensures AllRetried(op, start, pools * Cycles(maxCycles, watched)) <==> outcome == TimedOut || outcome == Retrying
    ensures outcome == TimedOut ==>
              maxCycles.Some? && used == pools * if maxCycles.value > 0 then maxCycles.value else 1
    ensures outcome == Retrying ==> (maxCycles.None? || watched <= maxCycles.value) && used == pools * watched
    ensures outcome == Finished || outcome == Exited ==>
              0 < used <= pools * watched
              && (maxCycles.Some? ==> used <= pools * if maxCycles.value > 0 then maxCycles.value else 1)
  {
    if outcome == Finished || outcome == Exited { assert VerdictOf(op, used - 1, start) != Retry; }
  }
}
