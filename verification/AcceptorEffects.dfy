/** What each step of the accepting listener does and what it leaves alone: which steps stop it
    and with what, and what happens to each of its sessions. */
module AcceptorEffects {
  import opened Types
  import opened M = Acceptor
  import opened I = AcceptorInvariant
  import opened T = AcceptorTheorems
  import R = AcceptorRefinement
  import Q = Sessions
  import A = AbstractListener
  import L = Lifecycles

  // ----- what stops a running listener -----

  datatype Verdict = GoesOn | Stops(cause: ErrorCode, why: StopReason)

  /** An initiation that is due and throws stops the listener with what was thrown. */
  function Initiated(due: bool, next: Outcome): Verdict {
    if due && next.Threw? then Stops(next.code, RuntimeFailure) else GoesOn
  }

  /** A stop request; an accept that failed for good, or once too often; an error of the retry
      timer; an accept that is due and cannot be initiated. */
  function VerdictOn(o: Options, s: State, step: Step): Verdict {
    match step
    case RunStop => Stops(NoError, Requested)
    case AcceptDone(ec, factory, next) =>
      if ec == NoError then Initiated(|s.pool.live| + One(factory.Returned?) < o.maxActiveSessions, next)
      else if ec.Transient() && s.door.errors + 1 < o.maxConsecutiveErrors then GoesOn
      else Stops(ec, RuntimeFailure)
    case RetryFires(ec, next) =>
      if ec == NoError then Initiated(!s.door.pending && |s.pool.live| < o.maxActiveSessions, next)
      else Stops(ec, RuntimeFailure)
    case SessionFinished(_, next) => Initiated(!s.door.pending, next)
    case _ => GoesOn
  }

  /** The listener is as the verdict says. */
  predicate Obeys(t: State, v: Verdict) {
    match v
    case GoesOn => t.Phase().Running?
    case Stops(cause, why) =>
      && (t.Phase().Stopping? || t.Phase().Stopped?)
      && t.face.life.terminal == cause && t.face.life.reason == why
  }

  lemma BeginStopObeys(s: State, ec: ErrorCode, why: StopReason)
    requires s.Phase().Running?
    ensures Obeys(BeginStop(s, ec, why), Stops(ec, why))
  {}

  lemma AcceptNextObeys(o: Options, s: State, next: Outcome)
    requires s.Phase().Running?
    ensures Obeys(AcceptNext(o, s, next), Initiated(!s.door.pending && |s.pool.live| < o.maxActiveSessions, next))
  {
    if next.Threw? { BeginStopObeys(s, next.code, RuntimeFailure); }
  }

  lemma RetryAcceptObeys(o: Options, s: State, ec: ErrorCode)
    requires s.Phase().Running?
    ensures Obeys(RetryAccept(o, s, ec),
                  if ec.Transient() && s.door.errors + 1 < o.maxConsecutiveErrors then GoesOn
                  else Stops(ec, RuntimeFailure))
  {
    var d := s.door.(errors := s.door.errors + 1);
    if !ec.Transient() {
      BeginStopObeys(s, ec, RuntimeFailure);
    } else if d.errors >= o.maxConsecutiveErrors {
      BeginStopObeys(s.(door := d), ec, RuntimeFailure);
    }
  }

  lemma AcceptedObeys(o: Options, s: State, ec: ErrorCode, factory: Outcome, next: Outcome)
    requires o.Valid() && Core(o, s) && s.Phase().Running? && s.door.ops != []
    ensures Obeys(Accepted(o, s, ec, factory, next), VerdictOn(o, s, AcceptDone(ec, factory, next)))
  {
    var t := s.(door := Opened(s.door));
    if ec != NoError {
      RetryAcceptObeys(o, t, ec);
    } else {
      AcceptNextObeys(o, Connected(t, factory), next);
    }
  }

  lemma RemovedObeys(o: Options, s: State, id: nat, next: Outcome)
    requires o.Valid() && Core(o, s) && s.Phase().Running? && Q.Finishing(s.pool, id)
    ensures Obeys(Removed(o, s, id, next), VerdictOn(o, s, SessionFinished(id, next)))
  {
    Q.DeliverKeepsInv(s.pool, id);
    var t := s.(pool := Q.Deliver(s.pool, id));
    AcceptNextObeys(o, t, next);
  }

  lemma StepObeys(o: Options, s: State, step: Step)
    requires o.Valid() && Inv(o, s) && Enabled(s, step) && s.Phase().Running?
    ensures Obeys(Apply(o, s, step), VerdictOn(o, s, step))
  {
    match step
    case RunStop => BeginStopObeys(s.(stopTasks := s.stopTasks - 1), NoError, Requested);
    case AcceptDone(ec, factory, next) => AcceptedObeys(o, s, ec, factory, next);
    case RetryFires(ec, next) =>
      var t := s.(timers := s.timers.(retryDue := s.timers.retryDue - 1));
      if ec != NoError { BeginStopObeys(t, ec, RuntimeFailure); } else { AcceptNextObeys(o, t, next); }
    case SessionFinished(id, next) => RemovedObeys(o, s, id, next);
    case _ => RestObeys(o, s, step);
  }

  lemma RestObeys(o: Options, s: State, step: Step)
    requires Enabled(s, step) && s.Phase().Running? && !step.RunStop? && !step.AcceptDone? && !step.RetryFires?
    requires !step.SessionFinished?
    ensures Apply(o, s, step).Phase().Running?
  {}

  /** A running listener stops if and only if a step calls for it, and then with exactly the
      error and the reason that step calls for. */
  lemma RunningStopsIff(o: Options, states: seq<State>, steps: seq<Step>, i: nat)
    requires IsRun(o, states, steps) && i < |steps| && states[i].Phase().Running?
    ensures states[i + 1].Phase().Running? <==> VerdictOn(o, states[i], steps[i]).GoesOn?
    ensures VerdictOn(o, states[i], steps[i]).Stops? ==>
              && (states[i + 1].Phase().Stopping? || states[i + 1].Phase().Stopped?)
              && states[i + 1].face.life.terminal == VerdictOn(o, states[i], steps[i]).cause
              && states[i + 1].face.life.reason == VerdictOn(o, states[i], steps[i]).why
  {
    RunKeepsInv(o, states, steps, i);
    assert At(i);
    StepObeys(o, states[i], steps[i]);
  }

  /** A start of a listener that is down reports what opening or the first accept ran into, and
      stops the listener with it; otherwise the listener runs. */
  lemma StartFailsWith(o: Options, s: State, id: nat, open: ErrorCode, accept: Outcome)
    requires o.Valid() && Inv(o, s) && Enabled(s, RunStart(id, open, accept))
    requires (s.Phase().Idle? || s.Phase().Stopped?) && !s.face.starts.ops[id].cancelled
    ensures var t := Apply(o, s, RunStart(id, open, accept));
            var ec := if open != NoError then open else if accept.Threw? then accept.code else NoError;
            && A.StartResults(t.face, id) == [ec]
            && t.Generation() == s.Generation() + 1
            && if ec == NoError then t.Phase().Running? && |t.door.ops| == 1
               else t.Phase().Stopped? && t.face.life.terminal == ec && t.face.life.reason == StartupFailure
    // it is seen starting, then running, or stopped; stopping only if opening succeeded
    ensures Apply(o, s, RunStart(id, open, accept)).face.life.trace ==
              s.face.life.trace + (if open != NoError then [Starting, Stopped]
                                   else if accept.Threw? then [Starting, Stopping, Stopped]
                                   else [Starting, Running])
  {
    R.StepSimulates(o, s, RunStart(id, open, accept));
    assert |s.face.starts.ops[id].results| == 0;
  }

  // ----- what happens to a session -----

  /** A connection has come in and the factory has made a session for it. */
  predicate Admits(s: State, step: Step) {
    s.Phase().Running? && step.AcceptDone? && step.ec == NoError && step.factory.Returned?
  }

  /** Why a session is not as it was: an event on its own strand, the grace deadline, the task
      that takes it off the list, or the listener going down. */
  predicate Explained(s: State, t: State, step: Step, id: nat, c: Q.Session, d: Q.Session) {
    || d == c
    || (step.SessionTask? && step.id == id && Q.Possible(c, step.event) && d == Q.After(c, step.event))
    || (step.GraceFires? && id in s.pool.live && d == c.(forceQueued := c.forceQueued + 1))
    || (step.SessionFinished? && step.id == id && c.finishTasks > 0
        && d == c.(finishTasks := c.finishTasks - 1, stoppedEvents := c.stoppedEvents + 1))
    || (s.Phase().Running? && !t.Phase().Running? && id in s.pool.live && d == c.(stopAsked := true))
  }

  predicate SessionExplained(s: State, t: State, step: Step, id: nat) {
    id in s.pool.all ==> id in t.pool.all && Explained(s, t, step, id, s.pool.all[id], t.pool.all[id])
  }

  /** The sessions there are, and the list of those that are live. */
  predicate ListExplained(s: State, t: State, step: Step) {
    var id := s.door.lastConnection + 1;
    && t.pool.all.Keys == s.pool.all.Keys + (if Admits(s, step) then {id} else {})
    && t.pool.live == (if Admits(s, step) then s.pool.live + [id]
                       else if step.SessionFinished? then Q.S.Without(s.pool.live, step.id)
                       else s.pool.live)
  }

  lemma AsksExplained(s: State, t: State, step: Step, id: nat)
    requires AtMostAsks(s, t) && !s.Phase().Starting? && !Admits(s, step) && !step.SessionFinished?
    ensures SessionExplained(s, t, step, id) && ListExplained(s, t, step)
  {}

  lemma AcceptedExplained(o: Options, s: State, step: Step, id: nat)
    requires o.Valid() && Core(o, s) && Enabled(s, step) && step.AcceptDone?
    ensures SessionExplained(s, Apply(o, s, step), step, id) && ListExplained(s, Apply(o, s, step), step)
  {
    var t := s.(door := Opened(s.door));
    if !t.Phase().Running? {
      StopAtMostAsks(t, NoError, Requested);
    } else if step.ec != NoError {
      RetryAcceptAtMostAsks(o, t, step.ec);
    } else {
      AcceptNextAtMostAsks(o, Connected(t, step.factory), step.next);
    }
  }

  lemma RemovedExplained(o: Options, s: State, step: Step, id: nat)
    requires o.Valid() && Core(o, s) && Enabled(s, step) && step.SessionFinished?
    ensures SessionExplained(s, Apply(o, s, step), step, id) && ListExplained(s, Apply(o, s, step), step)
  {
    Q.DeliverKeepsInv(s.pool, step.id);
    Q.S.WithoutRemoves(s.pool.live, step.id);
    var t := s.(pool := Q.Deliver(s.pool, step.id));
    if t.Phase().Running? {
      AcceptNextAtMostAsks(o, t, step.next);
      StopAtMostAsks(AcceptNext(o, t, step.next), NoError, Requested);
    } else {
      StopAtMostAsks(t, NoError, Requested);
    }
  }

  lemma RestExplained(o: Options, s: State, step: Step, id: nat)
    requires o.Valid() && Core(o, s) && Enabled(s, step)
    requires Bookkeeping(step) || step.RunStart? || step.RetryAborts? || step.GraceFires? || step.SessionTask?
    ensures SessionExplained(s, Apply(o, s, step), step, id) && ListExplained(s, Apply(o, s, step), step)
  {}

  lemma StepExplained(o: Options, s: State, step: Step, id: nat)
    requires o.Valid() && Core(o, s) && Enabled(s, step)
    ensures SessionExplained(s, Apply(o, s, step), step, id) && ListExplained(s, Apply(o, s, step), step)
  {
    match step
    case AcceptDone(_, _, _) => AcceptedExplained(o, s, step, id);
    case SessionFinished(_, _) => RemovedExplained(o, s, step, id);
    case RunStop =>
      StopAtMostAsks(s.(stopTasks := s.stopTasks - 1), NoError, Requested);
      AsksExplained(s, Apply(o, s, step), step, id);
    case RetryFires(ec, next) =>
      RetryCallbackAtMostAsks(o, s, ec, next);
      AsksExplained(s, Apply(o, s, step), step, id);
    case _ => RestExplained(o, s, step, id);
  }

  // ----- over whole runs -----

  /** A session that is live has been asked to stop if and only if the listener is stopping: so
      the end of one session, and everything else a running listener does, leaves the others
      alone. */
  lemma AskedIffStopping(o: Options, states: seq<State>, steps: seq<Step>, i: nat, id: nat)
    requires IsRun(o, states, steps) && i < |states| && id in states[i].pool.live
    ensures id in states[i].pool.all && (states[i].pool.all[id].stopAsked <==> states[i].Phase().Stopping?)
  {
    RunKeepsInv(o, states, steps, i);
  }

  /** Sessions come and go one at a time: one is added exactly by a connection for which the
      factory made a session, one is taken off the list exactly by its own finish, and a session
      that is on neither side of this is changed only for the reasons in `Explained`. */
  lemma SessionsChangeOnlyFor(o: Options, states: seq<State>, steps: seq<Step>, i: nat, id: nat)
    requires IsRun(o, states, steps) && i < |steps|
    ensures ListExplained(states[i], states[i + 1], steps[i])
    ensures SessionExplained(states[i], states[i + 1], steps[i], id)
  {
    RunKeepsInv(o, states, steps, i);
    assert At(i);
    StepExplained(o, states[i], steps[i], id);
  }

  lemma StepForces(o: Options, s: State, step: Step, id: nat)
    requires o.Valid() && Core(o, s) && Enabled(s, step) && id in s.pool.all
    ensures id in Apply(o, s, step).pool.all
    ensures Apply(o, s, step).pool.all[id].forceQueued > s.pool.all[id].forceQueued <==>
              step.GraceFires? && id in s.pool.live
  {
    StepExplained(o, s, step, id);
    if step.SessionTask? && step.id == id { Q.EventEnds(s.pool.all[id], step.event); }
  }

  /** A forced close is queued for a session by the grace deadline and by nothing else. */
  lemma ForcedOnlyByGrace(o: Options, states: seq<State>, steps: seq<Step>, i: nat, id: nat)
    requires IsRun(o, states, steps) && i < |steps| && id in states[i].pool.all
    ensures id in states[i + 1].pool.all
    ensures states[i + 1].pool.all[id].forceQueued > states[i].pool.all[id].forceQueued <==>
              steps[i].GraceFires? && id in states[i].pool.live
  {
    RunKeepsInv(o, states, steps, i);
    assert At(i);
    StepForces(o, states[i], steps[i], id);
  }

  /** The ends that a step brings session `id`. */
  function EndsIn(step: Step, id: nat): seq<ErrorCode> {
    if step.SessionTask? && step.id == id then Q.EndsOf(step.event) else []
  }

  /** The ends that events have brought session `id` before step `i`. */
  function Ends(steps: seq<Step>, i: nat, id: nat): seq<ErrorCode>
    requires i <= |steps|
  {
    if i == 0 then [] else Ends(steps, i - 1, id) + EndsIn(steps[i - 1], id)
  }

  /** The session is unfinished and has had no end, or has the first it had. */
  predicate FirstOf(s: State, id: nat, ends: seq<ErrorCode>) {
    if id in s.pool.all
    then (s.pool.all[id].finished <==> ends != []) && (ends != [] ==> s.pool.all[id].outcome == ends[0])
    else ends == []
  }

  lemma StepKeepsFirst(o: Options, s: State, step: Step, id: nat, ends: seq<ErrorCode>)
    requires o.Valid() && Core(o, s) && Enabled(s, step) && FirstOf(s, id, ends)
    ensures FirstOf(Apply(o, s, step), id, ends + EndsIn(step, id))
  {
    StepExplained(o, s, step, id);
    if step.SessionTask? && step.id == id {
      Q.EventEnds(s.pool.all[id], step.event);
    } else if id !in s.pool.all && id in Apply(o, s, step).pool.all {
      AdmittedIsFresh(o, s, step, id);
    }
  }

  lemma AdmittedIsFresh(o: Options, s: State, step: Step, id: nat)
    requires o.Valid() && Core(o, s) && Enabled(s, step) && id !in s.pool.all && id in Apply(o, s, step).pool.all
    ensures Admits(s, step) && id == s.door.lastConnection + 1
    ensures var c := Apply(o, s, step).pool.all[id];
            !c.finished && c.startQueued && c.generation == s.Generation() && c.finishTasks == 0
  {
    StepExplained(o, s, step, id);
    var t := Connected(s.(door := Opened(s.door)), step.factory);
    AcceptNextAtMostAsks(o, t, step.next);
  }

  /** A session has ended if and only if something has brought it an end, and its outcome is the
      first: the code user code completed with or called its handler with, the error its start
      threw, or that it was aborted by force. */
  lemma {:induction false} OutcomeIsFirstEnd(o: Options, states: seq<State>, steps: seq<Step>, i: nat, id: nat)
    requires IsRun(o, states, steps) && i < |states|
    ensures FirstOf(states[i], id, Ends(steps, i, id))
  {
    if i > 0 {
      OutcomeIsFirstEnd(o, states, steps, i - 1, id);
      NextKeepsFirst(o, states, steps, i - 1, id, Ends(steps, i - 1, id));
    }
  }

  lemma NextKeepsFirst(o: Options, states: seq<State>, steps: seq<Step>, i: nat, id: nat, ends: seq<ErrorCode>)
    requires IsRun(o, states, steps) && i < |steps| && FirstOf(states[i], id, ends)
    ensures FirstOf(states[i + 1], id, ends + EndsIn(steps[i], id))
  {
    RunKeepsInv(o, states, steps, i);
    assert At(i);
    StepKeepsFirst(o, states[i], steps[i], id, ends);
  }
}
