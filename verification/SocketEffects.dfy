/** What each step of the single-session listener does and what it leaves alone. */
module SocketEffects {
  import opened Types
  import opened M = Socket
  import opened T = SocketTheorems
  import Q = Sessions
  import A = AbstractListener

  // ----- what stops a running listener -----

  /** A running listener stops if and only if a stop task runs or its session has finished: with
      no error in the first case, with the outcome of the session in the second. */
  lemma StepStopsIff(s: State, step: Step)
    requires Inv(s) && Enabled(s, step) && s.Phase().Running?
    ensures Apply(s, step).Phase().Running? <==> !step.RunStop? && !step.SessionFinished?
    ensures step.RunStop? ==>
              && Apply(s, step).Phase().Stopping?
              && Apply(s, step).face.life.terminal == NoError && Apply(s, step).face.life.reason == Requested
    ensures step.SessionFinished? ==>
              var ec := s.pool.all[step.id].outcome;
              && Apply(s, step).Phase().Stopped? && Apply(s, step).face.life.terminal == ec
              && Apply(s, step).face.life.reason == if ec == NoError then Completed else RuntimeFailure
  {
    if step.SessionFinished? { RemovedEnds(s, step); }
  }

  /** A start of a listener that is down reports what opening or the factory ran into, and stops
      the listener with it; otherwise the listener runs with one fresh session. */
  lemma StartFailsWith(s: State, id: nat, open: ErrorCode, factory: Outcome)
    requires Inv(s) && Enabled(s, RunStart(id, open, factory))
    requires (s.Phase().Idle? || s.Phase().Stopped?) && !s.face.starts.ops[id].cancelled
    ensures var t := Apply(s, RunStart(id, open, factory));
            var ec := if open != NoError then open else if factory.Threw? then factory.code else NoError;
            && A.StartResults(t.face, id) == [ec]
            && t.Generation() == s.Generation() + 1
            && if ec == NoError
               then t.Phase().Running? && t.pool.live == [s.lastSession + 1]
                    && t.pool.all == s.pool.all[s.lastSession + 1 := Q.Fresh(t.Generation())]
               else t.Phase().Stopped? && t.face.life.terminal == ec && t.face.life.reason == StartupFailure
                    && t.pool == s.pool
  {
    assert |s.face.starts.ops[id].results| == 0;
  }

  /** It is seen starting, then running or stopped. */
  lemma StartIsSeen(s: State, id: nat, open: ErrorCode, factory: Outcome)
    requires Enabled(s, RunStart(id, open, factory))
    requires (s.Phase().Idle? || s.Phase().Stopped?) && !s.face.starts.ops[id].cancelled
    ensures Apply(s, RunStart(id, open, factory)).face.life.trace ==
              s.face.life.trace + [Starting, if open == NoError && factory.Returned? then Running else Stopped]
  {
    var trace := s.face.life.trace;
    assert trace + [Starting] + [Running] == trace + [Starting, Running];
    assert trace + [Starting] + [Stopped] == trace + [Starting, Stopped];
  }

  // ----- what happens to a session -----

  /** The start task makes a session. */
  predicate Admits(s: State, step: Step) {
    && step.RunStart? && (s.Phase().Idle? || s.Phase().Stopped?) && step.id in s.face.starts.ops
    && !s.face.starts.ops[step.id].cancelled && step.open == NoError && step.factory.Returned?
  }

  predicate Explained(s: State, step: Step, id: nat, c: Q.Session, d: Q.Session) {
    || d == c
    || (step.SessionTask? && step.id == id && Q.Possible(c, step.event) && d == Q.After(c, step.event))
    || (step.GraceFires? && id in s.pool.live && d == c.(forceQueued := c.forceQueued + 1))
    || (step.SessionFinished? && step.id == id && c.finishTasks > 0
        && d == c.(finishTasks := c.finishTasks - 1, stoppedEvents := c.stoppedEvents + 1))
    || (step.RunStop? && s.Phase().Running? && id in s.pool.live && d == c.(stopAsked := true))
  }

  predicate SessionExplained(s: State, t: State, step: Step, id: nat) {
    id in s.pool.all ==> id in t.pool.all && Explained(s, step, id, s.pool.all[id], t.pool.all[id])
  }

  predicate ListExplained(s: State, t: State, step: Step) {
    var id := s.lastSession + 1;
    && t.pool.all.Keys == s.pool.all.Keys + (if Admits(s, step) then {id} else {})
    && t.pool.live == if Admits(s, step) then [id] else if step.SessionFinished? then [] else s.pool.live
  }

  lemma StepExplained(s: State, step: Step, id: nat)
    requires Good(s) && Enabled(s, step)
    ensures SessionExplained(s, Apply(s, step), step, id) && ListExplained(s, Apply(s, step), step)
  {
    match step
    case RunStart(_, _, _) => StartExplained(s, step, id);
    case RunStop => StopExplained(s, step, id);
    case SessionFinished(_) => FinishExplained(s, step, id);
    case _ =>
  }

  lemma StopExplained(s: State, step: Step, id: nat)
    requires Good(s) && Enabled(s, step) && step.RunStop?
    ensures SessionExplained(s, Apply(s, step), step, id) && ListExplained(s, Apply(s, step), step)
  {}

  lemma FinishExplained(s: State, step: Step, id: nat)
    requires Good(s) && Enabled(s, step) && step.SessionFinished?
    ensures SessionExplained(s, Apply(s, step), step, id) && ListExplained(s, Apply(s, step), step)
  {
    ClearedIsDelivered(s, step.id);
  }

  lemma StartExplained(s: State, step: Step, id: nat)
    requires Good(s) && Enabled(s, step) && step.RunStart?
    ensures SessionExplained(s, Apply(s, step), step, id) && ListExplained(s, Apply(s, step), step)
  {}

  // ----- over whole runs -----

  /** A session that is live has been asked to stop if and only if the listener is stopping. */
  lemma AskedIffStopping(states: seq<State>, steps: seq<Step>, i: nat, id: nat)
    requires IsRun(states, steps) && i < |states| && id in states[i].pool.live
    ensures id in states[i].pool.all && (states[i].pool.all[id].stopAsked <==> states[i].Phase().Stopping?)
  {
    RunKeepsInv(states, steps, i);
  }

  lemma SessionsChangeOnlyFor(states: seq<State>, steps: seq<Step>, i: nat, id: nat)
    requires IsRun(states, steps) && i < |steps|
    ensures ListExplained(states[i], states[i + 1], steps[i])
    ensures SessionExplained(states[i], states[i + 1], steps[i], id)
  {
    RunKeepsInv(states, steps, i);
    assert At(i);
    StepExplained(states[i], steps[i], id);
  }

  function EndsIn(step: Step, id: nat): seq<ErrorCode> {
    if step.SessionTask? && step.id == id then Q.EndsOf(step.event) else []
  }

  /** The ends that events have brought session `id` before step `i`. */
  function Ends(steps: seq<Step>, i: nat, id: nat): seq<ErrorCode>
    requires i <= |steps|
  {
    if i == 0 then [] else Ends(steps, i - 1, id) + EndsIn(steps[i - 1], id)
  }

  predicate FirstOf(s: State, id: nat, ends: seq<ErrorCode>) {
    if id in s.pool.all
    then (s.pool.all[id].finished <==> ends != []) && (ends != [] ==> s.pool.all[id].outcome == ends[0])
    else ends == []
  }

  lemma StepKeepsFirst(s: State, step: Step, id: nat, ends: seq<ErrorCode>)
    requires Good(s) && Enabled(s, step) && FirstOf(s, id, ends)
    ensures FirstOf(Apply(s, step), id, ends + EndsIn(step, id))
  {
    StepExplained(s, step, id);
    if step.SessionTask? && step.id == id { Q.EventEnds(s.pool.all[id], step.event); }
  }

  lemma NextKeepsFirst(states: seq<State>, steps: seq<Step>, i: nat, id: nat, ends: seq<ErrorCode>)
    requires IsRun(states, steps) && i < |steps| && FirstOf(states[i], id, ends)
    ensures FirstOf(states[i + 1], id, ends + EndsIn(steps[i], id))
  {
    RunKeepsInv(states, steps, i);
    assert At(i);
    StepKeepsFirst(states[i], steps[i], id, ends);
  }

  lemma {:induction false} OutcomeIsFirstEnd(states: seq<State>, steps: seq<Step>, i: nat, id: nat)
    requires IsRun(states, steps) && i < |states|
    ensures FirstOf(states[i], id, Ends(steps, i, id))
  {
    if i > 0 {
      OutcomeIsFirstEnd(states, steps, i - 1, id);
      NextKeepsFirst(states, steps, i - 1, id, Ends(steps, i - 1, id));
    }
  }

  /** End to end: a running listener whose session finishes stops with the very first end that
      session had, whatever else raced with it. */
  lemma GenerationEndsWithFirstEnd(states: seq<State>, steps: seq<Step>, i: nat)
    requires IsRun(states, steps) && i < |steps| && steps[i].SessionFinished? && states[i].Phase().Running?
    ensures var ends := Ends(steps, i, steps[i].id);
            && ends != []
            && states[i + 1].Phase().Stopped? && states[i + 1].face.life.terminal == ends[0]
            && states[i + 1].face.life.reason == if ends[0] == NoError then Completed else RuntimeFailure
  {
    RunKeepsInv(states, steps, i);
    assert At(i);
    OutcomeIsFirstEnd(states, steps, i, steps[i].id);
    StepStopsIff(states[i], steps[i]);
    assert Q.Accounted(states[i].pool.all[steps[i].id], steps[i].id in states[i].pool.live);
  }

  /** A stop task is posted if and only if a request read a state other than stopped, and is
      used up by running it. */
  lemma StopPostedIff(s: State, step: Step)
    requires Enabled(s, step)
    ensures Apply(s, step).stopTasks
         == if step.RequestStop? && step.observed != Stopped then s.stopTasks + 1
            else if step.RunStop? then s.stopTasks - 1
            else s.stopTasks
    ensures step.RequestStop? ==> Apply(s, step) == s.(stopTasks := Apply(s, step).stopTasks)
  {}
}
