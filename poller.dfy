/**
 * The operation poller: drives one asynchronous Cloud Control request
 * towards a terminal status with bounded exponential backoff.
 *
 * Sleeping is modelled only by its effect on the elapsed time, so "no further
 * delay" means that the time slept does not grow. Times are exact reals. The
 * status endpoint is an oracle indexed by the number of polls made so far.
 */
module Poller {
  import opened Wrappers
  import opened Strings
  import opened Models
  import opened Executor

  /** Reply of get-resource-request-status: a (possibly absent) ProgressEvent, or a client fault. */
  datatype StatusReply = StatusEvent(event: Option<ProgressEvent>) | StatusFault(fault: ClientFault)

  /** Ceiling of the delay between polls, in seconds. */
  const MaxDelay: real := 30.0

  /** The statuses after which a request never changes again. */
  predicate IsTerminal(s: ProgressStatus) {
    s == Success || s == Failed || s == CancelComplete
  }

  /** The status a reply reports; a missing ProgressEvent or OperationStatus counts as PENDING. */
  function ObservedStatus(event: Option<ProgressEvent>): (s: ProgressStatus)
    ensures event.None? || event.value.operationStatus.None? ==> s == Pending
    ensures event.Some? && event.value.operationStatus.Some? ==> s == event.value.operationStatus.value
  {
    if event.Some? && event.value.operationStatus.Some? then event.value.operationStatus.value else Pending
  }

  /** Backoff: the next delay is half as long again, capped at MaxDelay. */
  function NextDelay(delay: real): (d: real)
    ensures d <= MaxDelay
    ensures 0.0 < delay ==> 0.0 < d
    ensures 0.0 <= delay <= MaxDelay ==> delay <= d
    ensures d == delay * 1.5 || d == MaxDelay
    ensures delay * 1.5 <= MaxDelay ==> d == delay * 1.5
    ensures MaxDelay < delay * 1.5 ==> d == MaxDelay
  {
    MinReal(delay * 1.5, MaxDelay)
  }

  /** The delay after k non-terminal polls, starting from `delay`. */
  function DelayAfter(delay: real, k: nat): real
    decreases k
  {
    if k == 0 then delay else DelayAfter(NextDelay(delay), k - 1)
  }

  /** The total time slept by k non-terminal polls, starting from `delay`. */
  function SleptAfter(delay: real, k: nat): real
    decreases k
  {
    if k == 0 then 0.0 else delay + SleptAfter(NextDelay(delay), k - 1)
  }

  /** Every grown delay is within the ceiling and stays positive. */
  lemma {:induction false} DelayAfterBounds(delay: real, k: nat)
    requires 0.0 < delay
    ensures 0.0 < DelayAfter(delay, k)
    ensures k > 0 ==> DelayAfter(delay, k) <= MaxDelay
    ensures DelayAfter(delay, k) <= MaxReal(delay, MaxDelay)
    decreases k
  {
    if k > 0 {
      DelayAfterBounds(NextDelay(delay), k - 1);
    }
  }

  /** Delays never shrink when the first one is within the ceiling. */
  lemma {:induction false} DelaysNonDecreasing(delay: real, i: nat, j: nat)
    requires 0.0 < delay <= MaxDelay
    requires i <= j
    ensures DelayAfter(delay, i) <= DelayAfter(delay, j)
    decreases j
  {
    if i > 0 {
      DelaysNonDecreasing(NextDelay(delay), i - 1, j - 1);
    } else if j > 0 {
      DelaysNonDecreasing(NextDelay(delay), 0, j - 1);
    }
  }

  /** The progress record for a terminal status, with the provider's diagnostics. */
  function TerminalProgress(token: string, s: ProgressStatus, event: Option<ProgressEvent>): OperationProgress {
    var ev := event.GetOr(ProgressEvent(None, None, None, None, None, None));
    OperationProgress(token, s, ev.typeName.GetOr(""), ev.identifier, ev.statusMessage, ev.errorCode, None)
  }

  /** The synthetic FAILED record for a fault of the status endpoint. */
  function FaultProgress(token: string, f: ClientFault): OperationProgress {
    OperationProgress(token, Failed, "", None, Some("Failed to poll status: " + f.message), f.code, None)
  }

  /** The soft-timeout record: still in progress, retry after the last computed delay, truncated. */
  function TimeoutProgress(token: string, maxWait: int, delay: real): OperationProgress {
    OperationProgress(token, InProgress, "",  None,
      Some("Operation still in progress after " + IntToString(maxWait) + "s"), None, Some(delay.Floor))
  }

  /** What one poller run returns: its record, the time it slept and the polls it made. */
  datatype PollRun = PollRun(progress: OperationProgress, slept: real, polls: nat)

  /**
   * The poller from a given state: `delay` is the current delay, `elapsed` the
   * time slept so far, `polls` the number of status queries made so far.
   * `floor` is a lower bound of every delay, which makes the loop terminate.
   */
  function PollFrom(token: string, maxWait: int, status: nat -> StatusReply,
                    delay: real, elapsed: real, polls: nat, floor: real): PollRun
    requires 0.0 < floor <= delay && floor <= MaxDelay
    decreases (maxWait as real - elapsed) / floor
  {
    if elapsed >= maxWait as real then
      PollRun(TimeoutProgress(token, maxWait, delay), elapsed, polls)
    else
      match status(polls)
      case StatusFault(f) => PollRun(FaultProgress(token, f), elapsed, polls + 1)
      case StatusEvent(event) =>
        var s := ObservedStatus(event);
        if IsTerminal(s) then
          PollRun(TerminalProgress(token, s, event), elapsed, polls + 1)
        else
          DivisionStep(maxWait as real - elapsed, delay, floor);
          PollFrom(token, maxWait, status, NextDelay(delay), elapsed + delay, polls + 1, floor)
  }

  /** Spending at least `floor` seconds lowers the remaining budget, counted in floors, by at least one. */
  lemma DivisionStep(remaining: real, delay: real, floor: real)
    requires 0.0 < floor <= delay
    ensures (remaining - delay) / floor <= remaining / floor - 1.0
  {
    calc {
      (remaining - delay) / floor;
      == remaining / floor - delay / floor;
      <= { assert delay / floor >= 1.0 by { assert delay / floor * floor == delay; } }
      remaining / floor - 1.0;
    }
  }

  /** The poller as called: no time slept, no polls made, the initial delay. */
  function Poll(token: string, maxWait: int, initialDelay: real, status: nat -> StatusReply): PollRun
    requires 0.0 < initialDelay
  {
    PollFrom(token, maxWait, status, initialDelay, 0.0, 0, MinReal(initialDelay, MaxDelay))
  }

  /**
   * Polls the status endpoint until a terminal status, a fault, or the end
   * of the time budget. Requires a positive initial delay: with a zero delay
   * a request that stays pending would be polled forever.
   */
  method PollOperationStatus(token: string, maxWait: int, initialDelay: real, status: nat -> StatusReply)
    returns (progress: OperationProgress, slept: real, polls: nat)
    requires 0.0 < initialDelay
    ensures PollRun(progress, slept, polls) == Poll(token, maxWait, initialDelay, status)
  {
    var delay := initialDelay;
    var elapsed := 0.0;
    polls := 0;
    ghost var floor := MinReal(initialDelay, MaxDelay);
    while elapsed < maxWait as real
      invariant 0.0 < floor <= delay && floor <= MaxDelay
      invariant PollFrom(token, maxWait, status, delay, elapsed, polls, floor) == Poll(token, maxWait, initialDelay, status)
      decreases (maxWait as real - elapsed) / floor
    {
      var reply := status(polls);
      match reply
      case StatusFault(f) =>
        return FaultProgress(token, f), elapsed, polls + 1;
      case StatusEvent(event) =>
        var s := ObservedStatus(event);
        if IsTerminal(s) {
          return TerminalProgress(token, s, event), elapsed, polls + 1;
        }
        DivisionStep(maxWait as real - elapsed, delay, floor);
        elapsed := elapsed + delay;
        delay := NextDelay(delay);
        polls := polls + 1;
    }
    progress := TimeoutProgress(token, maxWait, delay);
    slept := elapsed;
  }

  // ---------------------------------------------------------------------
  // Properties of the poller
  // ---------------------------------------------------------------------

  /** A reply the poller keeps polling after: an event whose status is not terminal. */
  predicate KeepsPolling(r: StatusReply) {
    r.StatusEvent? && !IsTerminal(ObservedStatus(r.event))
  }

  /**
   * Every run ends in one of three ways. A terminal status or a fault ends it
   * before the budget is spent, having slept once for each earlier
   * non-terminal poll. Otherwise it times out once the budget is spent: still
   * IN_PROGRESS, having slept once per poll, with retry_after the truncated
   * delay reached by then. It never sleeps more than one delay past the budget.
   */
  lemma {:induction false} PollFromOutcome(token: string, maxWait: int, status: nat -> StatusReply,
                                           delay: real, elapsed: real, polls: nat, floor: real)
    requires 0.0 < floor <= delay && floor <= MaxDelay
    ensures var run := PollFrom(token, maxWait, status, delay, elapsed, polls, floor);
      var k := run.polls - polls;
      && run.polls >= polls
      && run.progress.requestToken == token
      && (forall i :: polls <= i < run.polls - 1 ==> KeepsPolling(status(i)))
      && (run.progress.retryAfter.Some? ==>
            && run.progress.operationStatus == InProgress
            && run.slept >= maxWait as real
            && run.slept == elapsed + SleptAfter(delay, k)
            && run.progress.retryAfter == Some(DelayAfter(delay, k).Floor)
            && (forall i :: polls <= i < run.polls ==> KeepsPolling(status(i))))
      && (run.progress.retryAfter.None? ==>
            && IsTerminal(run.progress.operationStatus)
            && run.polls > polls
            && run.slept < maxWait as real
            && run.slept == elapsed + SleptAfter(delay, k - 1)
            && !KeepsPolling(status(run.polls - 1)))
      && (elapsed < maxWait as real ==> run.slept < maxWait as real + MaxReal(delay, MaxDelay))
    decreases (maxWait as real - elapsed) / floor
  {
    var run := PollFrom(token, maxWait, status, delay, elapsed, polls, floor);
    if elapsed < maxWait as real && KeepsPolling(status(polls)) {
      DivisionStep(maxWait as real - elapsed, delay, floor);
      var next := NextDelay(delay);
      PollFromOutcome(token, maxWait, status, next, elapsed + delay, polls + 1, floor);
      var k := run.polls - polls;
      assert run == PollFrom(token, maxWait, status, next, elapsed + delay, polls + 1, floor);
      assert k >= 1;
      assert SleptAfter(delay, k) == delay + SleptAfter(next, k - 1);
      assert DelayAfter(delay, k) == DelayAfter(next, k - 1);
      if run.progress.retryAfter.None? {
        assert SleptAfter(delay, k - 1) == delay + SleptAfter(next, k - 2);
      }
      if elapsed + delay < maxWait as real {
        assert MaxReal(next, MaxDelay) <= MaxReal(delay, MaxDelay);
      }
    }
  }

  /** The record a run ends with after the reply that ended it: the synthetic FAILED record for a fault, the terminal record otherwise. */
  predicate EndingRecord(token: string, reply: StatusReply, progress: OperationProgress) {
    match reply
    case StatusFault(f) => progress == FaultProgress(token, f)
    case StatusEvent(event) => progress == TerminalProgress(token, ObservedStatus(event), event)
  }

  /**
   * A run that ends early returns the record built from the last reply: the
   * fault's FAILED record, or the terminal status with the provider's
   * diagnostics. A run that makes no poll has timed out.
   */
  lemma {:induction false} PollFromEnding(token: string, maxWait: int, status: nat -> StatusReply,
                                          delay: real, elapsed: real, polls: nat, floor: real)
    requires 0.0 < floor <= delay && floor <= MaxDelay
    ensures var run := PollFrom(token, maxWait, status, delay, elapsed, polls, floor);
      && run.polls >= polls
      && (run.polls == polls ==> run.progress.retryAfter.Some?)
      && (run.polls > polls && run.progress.retryAfter.None? ==>
            EndingRecord(token, status(run.polls - 1), run.progress))
    decreases (maxWait as real - elapsed) / floor
  {
    if elapsed < maxWait as real && KeepsPolling(status(polls)) {
      DivisionStep(maxWait as real - elapsed, delay, floor);
      PollFromEnding(token, maxWait, status, NextDelay(delay), elapsed + delay, polls + 1, floor);
      assert PollFrom(token, maxWait, status, delay, elapsed, polls, floor)
          == PollFrom(token, maxWait, status, NextDelay(delay), elapsed + delay, polls + 1, floor);
    }
  }

  /** The run as called: facts of PollFromOutcome from the initial state, plus the bound on retry_after. */
  lemma PollOutcome(token: string, maxWait: int, initialDelay: real, status: nat -> StatusReply)
    requires 0.0 < initialDelay
    ensures var run := Poll(token, maxWait, initialDelay, status);
      && (run.progress.retryAfter.Some? ==>
            && run.progress.operationStatus == InProgress
            && run.slept >= maxWait as real
            && run.slept == SleptAfter(initialDelay, run.polls)
            && run.progress.retryAfter == Some(DelayAfter(initialDelay, run.polls).Floor)
            && (run.polls > 0 ==> run.progress.retryAfter.value <= 30))
      && (run.progress.retryAfter.None? ==>
            && IsTerminal(run.progress.operationStatus) && run.polls > 0
            && EndingRecord(token, status(run.polls - 1), run.progress))
      && (0 < maxWait ==> run.slept < maxWait as real + MaxReal(initialDelay, MaxDelay))
  {
    var run := Poll(token, maxWait, initialDelay, status);
    PollFromOutcome(token, maxWait, status, initialDelay, 0.0, 0, MinReal(initialDelay, MaxDelay));
    PollFromEnding(token, maxWait, status, initialDelay, 0.0, 0, MinReal(initialDelay, MaxDelay));
    if run.progress.retryAfter.Some? && run.polls > 0 {
      DelayAfterBounds(initialDelay, run.polls);
    }
  }

  /** A terminal status on the first poll is returned at once, with its diagnostics and without sleeping. */
  lemma TerminalReturnsAtOnce(token: string, maxWait: int, initialDelay: real, status: nat -> StatusReply,
                              event: ProgressEvent)
    requires 0.0 < initialDelay && 0 < maxWait
    requires status(0) == StatusEvent(Some(event))
    requires event.operationStatus.Some? && IsTerminal(event.operationStatus.value)
    ensures Poll(token, maxWait, initialDelay, status) ==
      PollRun(OperationProgress(token, event.operationStatus.value, event.typeName.GetOr(""),
                                event.identifier, event.statusMessage, event.errorCode, None), 0.0, 1)
  {
  }

  /** A fault of the status endpoint gives FAILED at once, without a retry. */
  lemma FaultFailsAtOnce(token: string, maxWait: int, initialDelay: real, status: nat -> StatusReply,
                         f: ClientFault)
    requires 0.0 < initialDelay && 0 < maxWait
    requires status(0) == StatusFault(f)
    ensures var run := Poll(token, maxWait, initialDelay, status);
      && run.progress.operationStatus == Failed
      && run.progress.statusMessage == Some("Failed to poll status: " + f.message)
      && run.progress.errorCode == f.code
      && run.slept == 0.0 && run.polls == 1
  {
  }

  /** A request that never reaches a terminal status ends in the soft timeout. */
  lemma NeverTerminalTimesOut(token: string, maxWait: int, initialDelay: real, status: nat -> StatusReply)
    requires 0.0 < initialDelay
    requires forall i: nat :: KeepsPolling(status(i))
    ensures var run := Poll(token, maxWait, initialDelay, status);
      && run.progress.operationStatus == InProgress
      && run.progress.retryAfter == Some(DelayAfter(initialDelay, run.polls).Floor)
      && run.slept >= maxWait as real
  {
    PollFromOutcome(token, maxWait, status, initialDelay, 0.0, 0, MinReal(initialDelay, MaxDelay));
  }

  /**
   * retry_after is the delay after growth: with a 5-second budget and a
   * 10-second initial delay, one non-terminal poll sleeps 10 seconds and
   * suggests retrying after 15.
   */
  lemma RetryAfterIsGrownDelay(token: string, status: nat -> StatusReply)
    requires KeepsPolling(status(0))
    ensures Poll(token, 5, 10.0, status).progress.retryAfter == Some(15)
    ensures Poll(token, 5, 10.0, status).slept == 10.0
    ensures Poll(token, 5, 10.0, status).polls == 1
  {
    assert Poll(token, 5, 10.0, status) == PollFrom(token, 5, status, 15.0, 10.0, 1, 10.0);
    assert (15.0).Floor == 15;
  }

  /** With no budget the poller makes no query and suggests the initial delay, truncated. */
  lemma NoBudgetNoPoll(token: string, maxWait: int, initialDelay: real, status: nat -> StatusReply)
    requires 0.0 < initialDelay && maxWait <= 0
    ensures Poll(token, maxWait, initialDelay, status) == PollRun(TimeoutProgress(token, maxWait, initialDelay), 0.0, 0)
  {
  }
}
