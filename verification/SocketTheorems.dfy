/** The inductive invariant of the single-session listener, its refinement of the abstract
    listener, and what it guarantees in every state of every run. */
module SocketTheorems {
  import opened Types
  import opened M = Socket
  import W = Waits
  import Q = Sessions
  import A = AbstractListener

  /** Once stopping, the session is doomed or the grace timer will see to it. */
  predicate Graced(s: State) {
    || s.graceArmed
    || s.graceDue > 0
    || forall id <- s.pool.live :: id in s.pool.all && Q.Doomed(s.pool.all[id])
  }

  predicate Phased(s: State)
    requires Q.Inv(s.pool)
  {
    match s.Phase()
    case Idle => s.pool.live == [] && !s.graceArmed
    case Starting => false
    case Running => |s.pool.live| == 1 && !s.graceArmed && forall id <- s.pool.live :: !s.pool.all[id].stopAsked
    case Stopping => |s.pool.live| == 1 && Graced(s) && forall id <- s.pool.live :: s.pool.all[id].stopAsked
    case Stopped => s.pool.live == [] && !s.graceArmed
  }

  predicate Good(s: State) {
    && Q.Inv(s.pool)
    && (forall id <- s.pool.all :: id <= s.lastSession)
    && (forall id <- s.pool.live :: s.pool.all[id].generation == s.Generation())
    && Phased(s)
  }

  predicate Inv(s: State) { A.Inv(s.face) && Good(s) }

  // ----- the id-less reset -----

  /** Dropping whatever session there is drops exactly the session that finished. */
  lemma ClearedIsDelivered(s: State, id: nat)
    requires Good(s) && Q.Finishing(s.pool, id)
    ensures s.pool.live == [id] && s.pool.all[id].generation == s.Generation()
    ensures Cleared(s.pool, id) == Q.Deliver(s.pool, id)
    ensures Q.Inv(Cleared(s.pool, id))
    ensures s.Phase().Running? || s.Phase().Stopping?
  {
    Q.DeliverKeepsInv(s.pool, id);
    assert id in s.pool.live;
    assert Q.Accounted(s.pool.all[id], true);
  }

  // ----- preservation, one task at a time -----

  lemma StopTaskKeeps(s: State)
    requires Good(s) && s.stopTasks > 0
    ensures Good(StopTask(s))
  {
    Q.AskAllKeepsInv(s.pool);
  }

  lemma LaunchKeeps(s: State, open: ErrorCode, factory: Outcome)
    requires Good(s) && (s.Phase().Idle? || s.Phase().Stopped?)
    ensures Good(Launch(s, open, factory))
  {
    Q.AdmitKeepsInv(s.pool, s.lastSession + 1, s.Generation() + 1);
    assert Q.Admit(s.pool, s.lastSession + 1, s.Generation() + 1).live == [s.lastSession + 1];
  }

  lemma StartKeeps(s: State, id: nat, open: ErrorCode, factory: Outcome)
    requires Good(s) && id in s.face.starts.ops
    ensures Good(Start(s, id, open, factory))
  {
    if s.Phase().Idle? || s.Phase().Stopped? {
      var ec := if open != NoError then open else if factory.Threw? then factory.code else NoError;
      LaunchKeeps(Decided(s, id, ec), open, factory);
    }
  }

  lemma RemovedKeeps(s: State, id: nat)
    requires Good(s) && Q.Finishing(s.pool, id)
    ensures Good(Removed(s, id)) && Removed(s, id).Phase().Stopped?
  {
    ClearedIsDelivered(s, id);
  }

  lemma SessionTaskKeeps(s: State, id: nat, e: Q.Event)
    requires Good(s) && id in s.pool.all && Q.Possible(s.pool.all[id], e)
    ensures Good(s.(pool := Q.Run(s.pool, id, e)))
  {
    Q.RunKeepsInv(s.pool, id, e);
  }

  lemma GraceKeeps(s: State)
    requires Good(s) && s.graceDue > 0
    ensures Good(Apply(s, GraceFires))
  {
    Q.ForceAllKeepsInv(s.pool);
  }

  lemma {:induction false} StepKeepsGood(s: State, step: Step)
    requires Good(s) && Enabled(s, step)
    ensures Good(Apply(s, step))
  {
    match step
    case RunStart(id, open, factory) => StartKeeps(s, id, open, factory);
    case RunStop => StopTaskKeeps(s);
    case GraceFires => GraceKeeps(s);
    case SessionFinished(id) => RemovedKeeps(s, id);
    case SessionTask(id, event) => SessionTaskKeeps(s, id, event);
    case _ =>
  }

  // ----- refinement -----

  function StartMove(s: State, id: nat, open: ErrorCode, factory: Outcome): A.Move
    requires id in s.face.starts.ops
  {
    if s.face.starts.ops[id].cancelled || s.Phase().Stopping? || s.Phase().Starting? then A.RejectStart(id)
    else if s.Phase().Running? then A.JoinStart(id)
    else if open != NoError then A.LaunchFails(id, open, false)
    else
      match factory
      case Returned => A.Launch(id)
      case Threw(code) => A.LaunchFails(id, code, false)
  }

  function MoveOf(s: State, step: Step): A.Move
    requires Enabled(s, step)
  {
    match step
    case IssueStart => A.IssueStart
    case SignalStart(id) => A.SignalStart(id)
    case IssueWait => A.IssueWait
    case SignalWait(id) => A.SignalWait(id)
    case RunStart(id, open, factory) => StartMove(s, id, open, factory)
    case RunSubmit(id) => A.SubmitWait(id)
    case RunCancel(id) => A.CancelWait(id)
    case _ => A.Shift(s.face.life, Apply(s, step).face.life)
  }

  lemma StartSimulates(s: State, id: nat, open: ErrorCode, factory: Outcome)
    requires Inv(s) && Enabled(s, RunStart(id, open, factory))
    ensures A.Simulates(s.face, Start(s, id, open, factory).face, StartMove(s, id, open, factory))
  {
    if s.Phase().Stopped? {
      W.ReleaseNone(s.face.waits, open);
      if factory.Threw? { W.ReleaseNone(s.face.waits, factory.code); }
    }
  }

  lemma StopTaskShifts(s: State)
    requires Inv(s) && s.stopTasks > 0
    ensures A.Shifts(s.face, StopTask(s).face)
  {}

  lemma RemovedShifts(s: State, id: nat)
    requires Inv(s) && Q.Finishing(s.pool, id)
    ensures A.Shifts(s.face, Removed(s, id).face)
  {
    ClearedIsDelivered(s, id);
  }

  /** Refinement: whatever the step, it is one move of the abstract listener. */
  lemma {:induction false} StepSimulates(s: State, step: Step)
    requires Inv(s) && Enabled(s, step)
    ensures A.Simulates(s.face, Apply(s, step).face, MoveOf(s, step))
  {
    match step
    case RunStart(id, open, factory) => StartSimulates(s, id, open, factory);
    case RunStop => StopTaskShifts(s);
    case SessionFinished(id) => RemovedShifts(s, id);
    case _ =>
  }

  lemma StepKeepsInv(s: State, step: Step)
    requires Inv(s) && Enabled(s, step)
    ensures Inv(Apply(s, step))
  {
    StepKeepsGood(s, step);
    StepSimulates(s, step);
    A.MoveKeepsInv(s.face, MoveOf(s, step));
  }

  // ----- every state of every run -----

  predicate IsRun(states: seq<State>, steps: seq<Step>) {
    && |states| == |steps| + 1
    && states[0] == Fresh
    && forall i {:trigger At(i)} :: 0 <= i < |steps| ==>
         Enabled(states[i], steps[i]) && states[i + 1] == Apply(states[i], steps[i])
  }

  lemma {:induction false} RunKeepsInv(states: seq<State>, steps: seq<Step>, i: nat)
    requires IsRun(states, steps) && i < |states|
    ensures Inv(states[i])
  {
    if i > 0 {
      RunKeepsInv(states, steps, i - 1);
      assert At(i - 1);
      StepKeepsInv(states[i - 1], steps[i - 1]);
    }
  }

  /** A running listener has exactly one session, of its own generation, and a stopped one
      has none; the published counter agrees. */
  lemma OneSessionPerGeneration(states: seq<State>, steps: seq<Step>, i: nat)
    requires IsRun(states, steps) && i < |states|
    ensures states[i].pool.active == |states[i].pool.live| <= 1
    ensures states[i].Phase().Running? ==> |states[i].pool.live| == 1
    ensures states[i].Phase().Stopped? ==> states[i].pool.live == []
    ensures forall id <- states[i].pool.live ::
              id in states[i].pool.all && states[i].pool.all[id].generation == states[i].Generation()
  {
    RunKeepsInv(states, steps, i);
  }

  /** The session-finished task, which names no session, is only ever run for the session
      that is there, and always stops the listener: with the session's own error if it was
      running, with the cause of the stop if it was stopping. */
  lemma FinishEndsItsOwnSession(states: seq<State>, steps: seq<Step>, i: nat)
    requires IsRun(states, steps) && i < |steps| && steps[i].SessionFinished?
    ensures var s, t, id := states[i], states[i + 1], steps[i].id;
            && s.pool.live == [id] && t.pool.live == []
            && t.Phase().Stopped?
            && id in s.pool.all
            && t.face.life.terminal == (if s.Phase().Running? then s.pool.all[id].outcome else s.face.life.terminal)
            && t.face.life.reason == (if !s.Phase().Running? then s.face.life.reason
                                      else if s.pool.all[id].outcome == NoError then Completed
                                      else RuntimeFailure)
  {
    RunKeepsInv(states, steps, i);
    assert At(i);
    ClearedIsDelivered(states[i], steps[i].id);
    RemovedEnds(states[i], steps[i]);
  }

  lemma RemovedEnds(s: State, step: Step)
    requires Good(s) && Enabled(s, step) && step.SessionFinished?
    ensures var t, c := Apply(s, step), s.pool.all[step.id];
            && t.pool.live == [] && t.Phase().Stopped?
            && t.face.life.terminal == (if s.Phase().Running? then c.outcome else s.face.life.terminal)
            && t.face.life.reason == (if !s.Phase().Running? then s.face.life.reason
                                      else if c.outcome == NoError then Completed
                                      else RuntimeFailure)
  {
    RemovedKeeps(s, step.id);
  }

  /** Every run of the single-session listener is a run of the abstract listener. */
  lemma RunRefines(states: seq<State>, steps: seq<Step>)
    requires IsRun(states, steps)
    ensures A.IsRun(seq(|states|, i requires 0 <= i < |states| => states[i].face))
  {
    var run := seq(|states|, i requires 0 <= i < |states| => states[i].face);
    RunKeepsInv(states, steps, 0);
    forall i {:trigger run[i]} | 0 < i < |run|
      ensures A.Next(run[i - 1], run[i])
    {
      RunKeepsInv(states, steps, i - 1);
      assert At(i - 1);
      StepSimulates(states[i - 1], steps[i - 1]);
    }
  }
}
