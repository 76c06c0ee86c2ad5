/** What the accepting listener guarantees in every state of every run. */
module AcceptorTheorems {
  import opened Types
  import opened Backoff
  import opened M = Acceptor
  import opened I = AcceptorInvariant
  import R = AcceptorRefinement
  import Q = Sessions
  import A = AbstractListener

  /** `states[i]` is the state before `steps[i]`; the last state has no step yet. */
  predicate IsRun(o: Options, states: seq<State>, steps: seq<Step>) {
    && o.Valid()
    && |states| == |steps| + 1
    && states[0] == Fresh
    && forall i {:trigger At(i)} :: 0 <= i < |steps| ==>
         Enabled(states[i], steps[i]) && states[i + 1] == Apply(o, states[i], steps[i])
  }

  lemma {:induction false} RunKeepsInv(o: Options, states: seq<State>, steps: seq<Step>, i: nat)
    requires IsRun(o, states, steps) && i < |states|
    ensures Inv(o, states[i])
  {
    if i > 0 {
      RunKeepsInv(o, states, steps, i - 1);
      assert At(i - 1);
      R.StepKeepsInv(o, states[i - 1], steps[i - 1]);
    }
  }

  // ----- safety -----

  /** Capacity: sessions plus the accept in flight never exceed the limit, and the
      published counter is the number of sessions. */
  lemma CapacityIsRespected(o: Options, states: seq<State>, steps: seq<Step>, i: nat)
    requires IsRun(o, states, steps) && i < |states|
    ensures |states[i].pool.live| + |states[i].door.ops| <= o.maxActiveSessions
    ensures states[i].pool.active == |states[i].pool.live|
  {
    RunKeepsInv(o, states, steps, i);
  }

  /** A running listener never silently stops accepting. */
  lemma RunningKeepsAccepting(o: Options, states: seq<State>, steps: seq<Step>, i: nat)
    requires IsRun(o, states, steps) && i < |states| && states[i].Phase().Running?
    ensures || |states[i].door.ops| == 1
            || states[i].timers.retryArmed
            || states[i].timers.retryDue > 0
            || |states[i].pool.live| == o.maxActiveSessions
  {
    RunKeepsInv(o, states, steps, i);
  }

  lemma DoomedSessionEnds(o: Options, s: State, id: nat)
    requires o.Valid() && Core(o, s) && id in s.pool.live && Q.Doomed(s.pool.all[id])
    ensures Enabled(s, SessionTask(id, Q.Force)) || Enabled(s, SessionFinished(id, Returned))
  {
    assert Q.Accounted(s.pool.all[id], true);
  }

  /** A stopping listener is never stuck: something is still in flight, every remaining
      session has been asked to stop, and either the grace timer is still to act or every
      remaining session ends without user code. */
  lemma StoppingIsNeverStuck(o: Options, states: seq<State>, steps: seq<Step>, i: nat)
    requires IsRun(o, states, steps) && i < |states| && states[i].Phase().Stopping?
    ensures states[i].door.ops != [] || states[i].pool.live != []
    ensures forall id <- states[i].pool.live :: id in states[i].pool.all && states[i].pool.all[id].stopAsked
    ensures || states[i].timers.graceArmed
            || states[i].timers.graceDue > 0
            || forall id <- states[i].pool.live ::
                 || Enabled(states[i], SessionTask(id, Q.Force))
                 || Enabled(states[i], SessionFinished(id, Returned))
  {
    RunKeepsInv(o, states, steps, i);
    var s := states[i];
    if !s.timers.graceArmed && s.timers.graceDue == 0 {
      forall id | id in s.pool.live
        ensures Enabled(s, SessionTask(id, Q.Force)) || Enabled(s, SessionFinished(id, Returned))
      {
        DoomedSessionEnds(o, s, id);
      }
    }
  }

  /** Conservation: a session is live and has not ended, or has ended with one finish task
      in flight, or has had exactly one stopped event. */
  lemma SessionsAreConserved(o: Options, states: seq<State>, steps: seq<Step>, i: nat, id: nat)
    requires IsRun(o, states, steps) && i < |states| && id in states[i].pool.all
    ensures var c := states[i].pool.all[id];
            || (id in states[i].pool.live && !c.finished && c.finishTasks == 0 && c.stoppedEvents == 0)
            || (id in states[i].pool.live && c.finished && c.finishTasks == 1 && c.stoppedEvents == 0)
            || (id !in states[i].pool.live && c.finished && c.finishTasks == 0 && c.stoppedEvents == 1)
  {
    RunKeepsInv(o, states, steps, i);
    assert Q.Accounted(states[i].pool.all[id], id in states[i].pool.live);
  }

  lemma DeliveriesAreCurrent(o: Options, s: State, step: Step)
    requires o.Valid() && Core(o, s) && Enabled(s, step)
    ensures step.AcceptDone? ==> s.door.ops == [s.Generation()]
    ensures step.SessionFinished? ==>
              && step.id in s.pool.live && step.id in s.pool.all
              && s.pool.all[step.id].generation == s.Generation()
  {
    if step.AcceptDone? {
      assert s.door.ops[0] in s.door.ops;
    }
    if step.SessionFinished? {
      assert Q.Accounted(s.pool.all[step.id], step.id in s.pool.live);
    }
  }

  /** Generation isolation: a stopped listener has nothing in flight, so every accept
      completion and every session end is processed in the generation it came from. */
  lemma GenerationsAreIsolated(o: Options, states: seq<State>, steps: seq<Step>, i: nat)
    requires IsRun(o, states, steps) && i < |steps|
    ensures states[i].Phase().Stopped? ==> states[i].door.ops == [] && states[i].pool.live == []
    ensures steps[i].AcceptDone? ==> states[i].door.ops == [states[i].Generation()]
    ensures steps[i].SessionFinished? ==>
              && steps[i].id in states[i].pool.live && steps[i].id in states[i].pool.all
              && states[i].pool.all[steps[i].id].generation == states[i].Generation()
  {
    RunKeepsInv(o, states, steps, i);
    assert At(i);
    DeliveriesAreCurrent(o, states[i], steps[i]);
  }

  // ----- what a step does to one session and to the error count -----

  /** What a session has become, seen from an earlier state. */
  predicate SameSession(c: Q.Session, d: Q.Session) {
    d.generation == c.generation && (c.finished ==> d.finished && d.outcome == c.outcome)
  }

  predicate KeepsSession(p: Q.Pool, q: Q.Pool, id: nat) {
    id in p.all ==> id in q.all && SameSession(p.all[id], q.all[id])
  }

  predicate Up(s: State) { s.Phase().Starting? || s.Phase().Running? }

  /** The listener's own tasks touch sessions only by asking them all to stop, as it goes down. */
  predicate AtMostAsks(s: State, t: State) {
    t.pool == s.pool || (t.pool == Q.AskAllToStop(s.pool) && Up(s) && !Up(t))
  }

  /** What an accept completion makes of `errors` failures in a row: a success ends the row,
      a transient failure extends it, and a listener that is not running does not look. */
  function Counted(s: State, step: Step, errors: nat): nat {
    if !step.AcceptDone? || !s.Phase().Running? then errors
    else if step.ec == NoError then 0
    else if step.ec.Transient() then errors + 1
    else errors
  }

  lemma StopAtMostAsks(s: State, ec: ErrorCode, why: StopReason)
    ensures MaybeFinish(s).pool == s.pool && MaybeFinish(s).door == s.door
    ensures AtMostAsks(s, BeginStop(s, ec, why)) && BeginStop(s, ec, why).door == s.door
  {}

  lemma AcceptNextAtMostAsks(o: Options, s: State, next: Outcome)
    ensures AtMostAsks(s, AcceptNext(o, s, next)) && AcceptNext(o, s, next).door.errors == s.door.errors
  {
    StopAtMostAsks(s, if next.Threw? then next.code else NoError, RuntimeFailure);
  }

  lemma RetryAcceptAtMostAsks(o: Options, s: State, ec: ErrorCode)
    ensures AtMostAsks(s, RetryAccept(o, s, ec))
    ensures RetryAccept(o, s, ec).door.errors == if ec.Transient() then s.door.errors + 1 else s.door.errors
  {
    var d := s.door.(errors := s.door.errors + 1);
    if !ec.Transient() {
      StopAtMostAsks(s, ec, RuntimeFailure);
    } else if d.errors >= o.maxConsecutiveErrors {
      StopAtMostAsks(s.(door := d), ec, RuntimeFailure);
    }
  }

  lemma RetryCallbackAtMostAsks(o: Options, s: State, ec: ErrorCode, next: Outcome)
    requires s.timers.retryDue > 0
    ensures AtMostAsks(s, RetryCallback(o, s, ec, next))
    ensures RetryCallback(o, s, ec, next).door.errors == s.door.errors
  {
    var t := s.(timers := s.timers.(retryDue := s.timers.retryDue - 1));
    if ec != NoError { StopAtMostAsks(t, ec, RuntimeFailure); } else { AcceptNextAtMostAsks(o, t, next); }
  }

  lemma AcceptedKeepsSession(o: Options, s: State, ec: ErrorCode, factory: Outcome, next: Outcome, id: nat)
    requires o.Valid() && Core(o, s) && s.door.ops != []
    ensures KeepsSession(s.pool, Accepted(o, s, ec, factory, next).pool, id)
    ensures Accepted(o, s, ec, factory, next).door.errors
         == Counted(s, AcceptDone(ec, factory, next), s.door.errors)
  {
    var t := s.(door := Opened(s.door));
    if !t.Phase().Running? {
      StopAtMostAsks(t, NoError, Requested);
    } else if ec != NoError {
      RetryAcceptAtMostAsks(o, t, ec);
    } else {
      AcceptNextAtMostAsks(o, Connected(t, factory), next);
      assert KeepsSession(s.pool, Connected(t, factory).pool, id);
    }
  }

  lemma RemovedKeepsSession(o: Options, s: State, done: nat, next: Outcome, id: nat)
    requires Q.Finishing(s.pool, done)
    ensures KeepsSession(s.pool, Removed(o, s, done, next).pool, id)
    ensures Removed(o, s, done, next).door.errors == s.door.errors
  {
    var t := s.(pool := Q.Deliver(s.pool, done));
    assert KeepsSession(s.pool, t.pool, id);
    if t.Phase().Running? {
      AcceptNextAtMostAsks(o, t, next);
      StopAtMostAsks(AcceptNext(o, t, next), NoError, Requested);
    } else {
      StopAtMostAsks(t, NoError, Requested);
    }
  }

  /** Sessions keep their identity, and only accept completions change the error count. */
  lemma StepKeepsSession(o: Options, s: State, step: Step, id: nat)
    requires o.Valid() && Core(o, s) && Enabled(s, step)
    ensures KeepsSession(s.pool, Apply(o, s, step).pool, id)
    ensures Apply(o, s, step).door.errors == Counted(s, step, s.door.errors)
  {
    match step
    case AcceptDone(ec, factory, next) => AcceptedKeepsSession(o, s, ec, factory, next, id);
    case SessionFinished(done, next) => RemovedKeepsSession(o, s, done, next, id);
    case RunStop => StopAtMostAsks(s.(stopTasks := s.stopTasks - 1), NoError, Requested);
    case RetryFires(ec, next) => RetryCallbackAtMostAsks(o, s, ec, next);
    case SessionTask(done, event) =>
    case _ => RestKeepsSession(o, s, step, id);
  }

  lemma RestKeepsSession(o: Options, s: State, step: Step, id: nat)
    requires Enabled(s, step) && (Bookkeeping(step) || step.RunStart? || step.RetryAborts? || step.GraceFires?)
    ensures KeepsSession(s.pool, Apply(o, s, step).pool, id)
    ensures Apply(o, s, step).door.errors == s.door.errors
  {}

  /** The first of the racing ends of a session decides its outcome for good. */
  lemma {:induction false} FirstEndWins(o: Options, states: seq<State>, steps: seq<Step>, i: nat, j: nat, id: nat)
    requires IsRun(o, states, steps) && i <= j < |states| && id in states[i].pool.all
    ensures id in states[j].pool.all && SameSession(states[i].pool.all[id], states[j].pool.all[id])
  {
    if i < j {
      FirstEndWins(o, states, steps, i, j - 1, id);
      RunKeepsInv(o, states, steps, j - 1);
      assert At(j - 1);
      StepKeepsSession(o, states[j - 1], steps[j - 1], id);
    }
  }

  // ----- draining -----

  /** What keeps a stopping listener from being stopped. */
  function Load(s: State): nat { |s.pool.live| + One(s.door.pending) }

  /** Draining makes progress and never goes back: no step adds load, the two deliveries
      remove one unit each, and the step that removes the last one stops the listener. */
  lemma DrainNeverGrows(o: Options, s: State, step: Step)
    requires o.Valid() && Inv(o, s) && Enabled(s, step) && s.Phase().Stopping?
    ensures Load(s) > 0
    ensures Load(Apply(o, s, step)) <= Load(s)
    ensures step.AcceptDone? || step.SessionFinished? ==> Load(Apply(o, s, step)) == Load(s) - 1
    ensures Load(Apply(o, s, step)) == 0 <==> Apply(o, s, step).Phase().Stopped?
    ensures Load(Apply(o, s, step)) > 0 ==> Apply(o, s, step).face.life == s.face.life
  {
    match step
    case SessionFinished(id, next) => Q.DeliverKeepsInv(s.pool, id);
    case _ =>
  }

  // ----- the retry budget -----

  /** Give-up bound over a whole run, restarts included: the retries armed since the last
      successful accept are those for failures 1, 2, 3, ... below the limit, each once, so
      the time they add up to is bounded. */
  lemma RetriesAreBounded(o: Options, states: seq<State>, steps: seq<Step>, i: nat)
    requires IsRun(o, states, steps) && i < |states|
    ensures states[i].door.delays == Delays(o, Min(states[i].door.errors, o.maxConsecutiveErrors - 1))
    ensures |states[i].door.delays| < o.maxConsecutiveErrors
    ensures 0 <= Sum(states[i].door.delays) <= (o.maxConsecutiveErrors - 1) * o.maxErrorBackoff
  {
    RunKeepsInv(o, states, steps, i);
    BudgetIsBounded(o, states[i].door);
  }

  lemma BudgetIsBounded(o: Options, d: Door)
    requires o.Valid() && Budgeted(o, d)
    ensures |d.delays| < o.maxConsecutiveErrors
    ensures 0 <= Sum(d.delays) <= (o.maxConsecutiveErrors - 1) * o.maxErrorBackoff
  {
    var n := Min(d.errors, o.maxConsecutiveErrors - 1);
    if n > 0 { DelaysAt(o, n, 0); }
    TotalDelayBounded(o, n);
    FewerTimes(n, o.maxConsecutiveErrors - 1, o.maxErrorBackoff);
  }

  /** How many transient failures the listener has seen since its last successful accept,
      whatever was stopped and started in between. */
  function Streak(states: seq<State>, steps: seq<Step>, i: nat): nat
    requires i <= |steps| <= |states|
  {
    if i == 0 then 0 else Counted(states[i - 1], steps[i - 1], Streak(states, steps, i - 1))
  }

  lemma {:induction false} ErrorsAreCounted(o: Options, states: seq<State>, steps: seq<Step>, i: nat)
    requires IsRun(o, states, steps) && i < |states|
    ensures states[i].door.errors == Streak(states, steps, i)
  {
    if i > 0 {
      ErrorsAreCounted(o, states, steps, i - 1);
      RunKeepsInv(o, states, steps, i - 1);
      assert At(i - 1);
      StepKeepsSession(o, states[i - 1], steps[i - 1], 0);
    }
  }

  lemma FailureIsSurvivedIff(o: Options, s: State, step: Step)
    requires o.Valid() && Inv(o, s) && Enabled(s, step)
    requires step.AcceptDone? && step.ec.Transient() && s.Phase().Running?
    ensures Apply(o, s, step).Phase().Running? <==> s.door.errors + 1 < o.maxConsecutiveErrors
  {
    assert Apply(o, s, step) == RetryAccept(o, s.(door := Opened(s.door)), step.ec);
  }

  /** A running listener survives a transient failure if and only if the failures since its
      last successful accept, this one included, are fewer than the limit. Failures of
      earlier generations count: being restarted does not renew the budget. */
  lemma BudgetIsExact(o: Options, states: seq<State>, steps: seq<Step>, i: nat)
    requires IsRun(o, states, steps) && i < |steps|
    requires steps[i].AcceptDone? && steps[i].ec.Transient() && states[i].Phase().Running?
    ensures states[i + 1].Phase().Running? <==> Streak(states, steps, i) + 1 < o.maxConsecutiveErrors
  {
    ErrorsAreCounted(o, states, steps, i);
    RunKeepsInv(o, states, steps, i);
    assert At(i);
    FailureIsSurvivedIff(o, states[i], steps[i]);
  }

  // ----- the abstract run -----

  function Abstracted(states: seq<State>): seq<A.Listener> {
    seq(|states|, i requires 0 <= i < |states| => states[i].face)
  }

  /** Every run of the accepting listener is a run of the abstract listener, so all that
      is proved of abstract runs (first cause wins, waits complete at most once, a released
      wait saw the listener stopped) holds of it. */
  lemma RunRefines(o: Options, states: seq<State>, steps: seq<Step>)
    requires IsRun(o, states, steps)
    ensures A.IsRun(Abstracted(states))
  {
    var run := Abstracted(states);
    RunKeepsInv(o, states, steps, 0);
    forall i {:trigger run[i]} | 0 < i < |run|
      ensures A.Next(run[i - 1], run[i])
    {
      RunKeepsInv(o, states, steps, i - 1);
      assert At(i - 1);
      R.StepSimulates(o, states[i - 1], steps[i - 1]);
    }
  }
}
