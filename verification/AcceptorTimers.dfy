/** The two timers of the accepting listener: who arms them, who disarms them, and that no
    callback is lost or made up. */
module AcceptorTimers {
  import opened Types
  import opened M = Acceptor
  import opened I = AcceptorInvariant
  import opened T = AcceptorTheorems
  import Q = Sessions

  /** Retry callbacks still to come: of the armed timer, expired, or cancelled. */
  function Callbacks(t: Timers): nat { One(t.retryArmed) + t.retryDue + t.retryAborted }

  /** A failed accept that is worth another try. */
  predicate Arms(o: Options, s: State, step: Step) {
    && s.Phase().Running? && step.AcceptDone?
    && step.ec != NoError && step.ec.Transient() && s.door.errors + 1 < o.maxConsecutiveErrors
  }

  predicate RetryOf(o: Options, s: State, t: State, step: Step) {
    && Callbacks(t.timers) + One(step.RetryFires? || step.RetryAborts?) == Callbacks(s.timers) + One(Arms(o, s, step))
    && t.timers.retryDue + One(step.RetryFires?) == s.timers.retryDue + One(step.RetryExpires?)
    && (t.timers.retryArmed <==>
          Arms(o, s, step) || (s.timers.retryArmed && t.Phase().Running? && !step.RetryExpires?))
  }

  predicate GraceOf(s: State, t: State, step: Step) {
    && t.timers.graceDue + One(step.GraceFires?) == s.timers.graceDue + One(step.GraceExpires?)
    && (t.timers.graceArmed <==>
          && t.Phase().Stopping?
          && if s.Phase().Running? then t.pool.live != [] else s.timers.graceArmed && !step.GraceExpires?)
  }

  // ----- one building block at a time -----

  predicate Timely(s: State) {
    && !s.Phase().Starting?
    && (s.timers.retryArmed ==> s.Phase().Running?)
    && (s.timers.graceArmed ==> s.Phase().Stopping?)
  }

  /** What is done to the timers by code that arms no retry. */
  predicate Calm(s: State, t: State) {
    && Callbacks(t.timers) == Callbacks(s.timers)
    && t.timers.retryDue == s.timers.retryDue && t.timers.graceDue == s.timers.graceDue
    && (t.timers.retryArmed <==> s.timers.retryArmed && t.Phase().Running?)
    && (t.timers.graceArmed <==>
          t.Phase().Stopping? && if s.Phase().Running? then t.pool.live != [] else s.timers.graceArmed)
  }

  lemma MaybeFinishIsCalm(s: State)
    requires Timely(s)
    ensures Calm(s, MaybeFinish(s))
  {}

  lemma StopIsCalm(s: State, ec: ErrorCode, why: StopReason)
    requires Timely(s)
    ensures Calm(s, BeginStop(s, ec, why))
  {}

  lemma AcceptNextIsCalm(o: Options, s: State, next: Outcome)
    requires Timely(s)
    ensures Calm(s, AcceptNext(o, s, next))
  {
    MaybeFinishIsCalm(s);
    if next.Threw? { StopIsCalm(s, next.code, RuntimeFailure); }
  }

  lemma AcceptDoneTimes(o: Options, s: State, step: Step)
    requires Timely(s) && Enabled(s, step) && step.AcceptDone?
    ensures RetryOf(o, s, Apply(o, s, step), step) && GraceOf(s, Apply(o, s, step), step)
  {
    var t := s.(door := Opened(s.door));
    if !s.Phase().Running? {
      MaybeFinishIsCalm(t);
    } else if step.ec == NoError {
      AcceptNextIsCalm(o, Connected(t, step.factory), step.next);
    } else {
      StopIsCalm(t, step.ec, RuntimeFailure);
      StopIsCalm(t.(door := t.door.(errors := t.door.errors + 1)), step.ec, RuntimeFailure);
    }
  }

  lemma RemovedTimes(o: Options, s: State, step: Step)
    requires Timely(s) && Enabled(s, step) && step.SessionFinished?
    ensures RetryOf(o, s, Apply(o, s, step), step) && GraceOf(s, Apply(o, s, step), step)
  {
    var t := s.(pool := Q.Deliver(s.pool, step.id));
    if t.Phase().Running? {
      AcceptNextIsCalm(o, t, step.next);
      MaybeFinishIsCalm(AcceptNext(o, t, step.next));
    } else {
      MaybeFinishIsCalm(t);
    }
  }

  lemma RetryAbortTimes(o: Options, s: State)
    requires Timely(s) && Enabled(s, RetryAborts)
    ensures RetryOf(o, s, RetryAbort(s), RetryAborts) && GraceOf(s, RetryAbort(s), RetryAborts)
  {
    MaybeFinishIsCalm(s.(timers := s.timers.(retryAborted := s.timers.retryAborted - 1)));
  }

  lemma RetryFireTimes(o: Options, s: State, step: Step)
    requires Timely(s) && Enabled(s, step) && step.RetryFires?
    ensures RetryOf(o, s, RetryCallback(o, s, step.ec, step.next), step)
    ensures GraceOf(s, RetryCallback(o, s, step.ec, step.next), step)
  {
    var t := s.(timers := s.timers.(retryDue := s.timers.retryDue - 1));
    if step.ec != NoError {
      StopIsCalm(t, step.ec, RuntimeFailure);
    } else {
      AcceptNextIsCalm(o, t, step.next);
    }
  }

  lemma StartTimes(o: Options, s: State, step: Step)
    requires Timely(s) && Enabled(s, step) && step.RunStart?
    ensures RetryOf(o, s, Apply(o, s, step), step) && GraceOf(s, Apply(o, s, step), step)
  {}

  lemma RestTimes(o: Options, s: State, step: Step)
    requires Timely(s) && Enabled(s, step)
    requires Bookkeeping(step) || step.GraceFires? || step.SessionTask?
    ensures RetryOf(o, s, Apply(o, s, step), step) && GraceOf(s, Apply(o, s, step), step)
  {}

  lemma StepTimes(o: Options, s: State, step: Step)
    requires Timely(s) && Enabled(s, step)
    ensures RetryOf(o, s, Apply(o, s, step), step) && GraceOf(s, Apply(o, s, step), step)
  {
    match step
    case AcceptDone(_, _, _) => AcceptDoneTimes(o, s, step);
    case SessionFinished(_, _) => RemovedTimes(o, s, step);
    case RunStop => StopIsCalm(s.(stopTasks := s.stopTasks - 1), NoError, Requested);
    case RetryFires(_, _) => RetryFireTimes(o, s, step);
    case RetryAborts => RetryAbortTimes(o, s);
    case RunStart(_, _, _) => StartTimes(o, s, step);
    case _ => RestTimes(o, s, step);
  }

  // ----- over whole runs -----

  /** No retry callback is lost or made up: a retry is armed exactly by an accept that failed and
      is worth another try, its timer is disarmed by expiry or when the listener goes down, and
      each retry armed is followed by one callback. */
  lemma RetryTimerIsKept(o: Options, states: seq<State>, steps: seq<Step>, i: nat)
    requires IsRun(o, states, steps) && i < |steps|
    ensures RetryOf(o, states[i], states[i + 1], steps[i])
  {
    RunKeepsInv(o, states, steps, i);
    assert At(i);
    StepTimes(o, states[i], steps[i]);
  }

  /** The grace timer is armed by the step that begins to stop a running listener if and only if
      sessions remain then, and disarmed by expiry or once the listener is stopped. */
  lemma GraceTimerIsKept(o: Options, states: seq<State>, steps: seq<Step>, i: nat)
    requires IsRun(o, states, steps) && i < |steps|
    ensures GraceOf(states[i], states[i + 1], steps[i])
  {
    RunKeepsInv(o, states, steps, i);
    assert At(i);
    StepTimes(o, states[i], steps[i]);
  }

  /** The retries armed before step `i`, and the callbacks that have run. */
  function ArmedBefore(o: Options, states: seq<State>, steps: seq<Step>, i: nat): nat
    requires i <= |steps| && |states| == |steps| + 1
  {
    if i == 0 then 0 else ArmedBefore(o, states, steps, i - 1) + One(Arms(o, states[i - 1], steps[i - 1]))
  }

  function RanBefore(steps: seq<Step>, i: nat): nat
    requires i <= |steps|
  {
    if i == 0 then 0
    else RanBefore(steps, i - 1) + One(steps[i - 1].RetryFires? || steps[i - 1].RetryAborts?)
  }

  /** So in every state the retries ever armed are those whose callback has run and those whose
      callback is still to come. */
  lemma {:induction false} RetriesAreConserved(o: Options, states: seq<State>, steps: seq<Step>, i: nat)
    requires IsRun(o, states, steps) && i < |states|
    ensures RanBefore(steps, i) + Callbacks(states[i].timers) == ArmedBefore(o, states, steps, i)
  {
    if i > 0 {
      RetriesAreConserved(o, states, steps, i - 1);
      RetryTimerIsKept(o, states, steps, i - 1);
    }
  }
}
