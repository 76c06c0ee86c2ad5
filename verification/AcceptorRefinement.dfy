/** Every step of the accepting listener is one move of the abstract listener. */
module AcceptorRefinement {
  import opened Types
  import opened M = Acceptor
  import opened I = AcceptorInvariant
  import L = Lifecycles
  import W = Waits
  import Q = Sessions
  import A = AbstractListener

  function StartMove(s: State, id: nat, open: ErrorCode, accept: Outcome): A.Move
    requires id in s.face.starts.ops
  {
    if s.face.starts.ops[id].cancelled || s.Phase().Stopping? || s.Phase().Starting? then A.RejectStart(id)
    else if s.Phase().Running? then A.JoinStart(id)
    else if open != NoError then A.LaunchFails(id, open, false)
    else
      match accept
      case Returned => A.Launch(id)
      case Threw(code) => A.LaunchFails(id, code, true)
  }

  function MoveOf(o: Options, s: State, step: Step): A.Move
    requires Enabled(s, step)
  {
    match step
    case IssueStart => A.IssueStart
    case SignalStart(id) => A.SignalStart(id)
    case IssueWait => A.IssueWait
    case SignalWait(id) => A.SignalWait(id)
    case RunStart(id, open, accept) => StartMove(s, id, open, accept)
    case RunSubmit(id) => A.SubmitWait(id)
    case RunCancel(id) => A.CancelWait(id)
    case _ => A.Shift(s.face.life, Apply(o, s, step).face.life)
  }

  /** `MaybeFinish` has something to do. */
  predicate Unfinished(s: State) { s.Phase().Stopping? && Drained(s) }

  lemma MaybeFinishShifts(s: State)
    ensures A.Shifts(s.face, MaybeFinish(s).face)
  {}

  lemma BeginStopShifts(s: State, ec: ErrorCode, why: StopReason)
    requires L.ValidCause(ec, why) && !s.Phase().Starting?
    ensures A.Shifts(s.face, BeginStop(s, ec, why).face)
    ensures !s.Phase().Stopping? ==> !Unfinished(BeginStop(s, ec, why))
  {
    if s.Phase().Running? {
      var t := Winding(s, ec, why);
      assert BeginStop(s, ec, why) == if Unfinished(t) then Finish(t, L.Do(t.face.life, L.FinishStop)) else t;
    }
  }

  lemma AcceptNextShifts(o: Options, s: State, next: Outcome)
    requires next.Mapped() && !s.Phase().Starting?
    ensures A.Shifts(s.face, AcceptNext(o, s, next).face)
    ensures s.Phase().Running? ==> !Unfinished(AcceptNext(o, s, next))
  {
    if next.Threw? { BeginStopShifts(s, next.code, RuntimeFailure); }
    MaybeFinishShifts(s);
  }

  lemma RetryAcceptShifts(o: Options, s: State, ec: ErrorCode)
    requires ec != NoError && !s.Phase().Starting?
    ensures A.Shifts(s.face, RetryAccept(o, s, ec).face)
  {
    var d := s.door.(errors := s.door.errors + 1);
    if !ec.Transient() {
      BeginStopShifts(s, ec, RuntimeFailure);
    } else if d.errors >= o.maxConsecutiveErrors {
      BeginStopShifts(s.(door := d), ec, RuntimeFailure);
    } else {
      assert RetryAccept(o, s, ec).face == s.face;
    }
  }

  lemma AcceptedShifts(o: Options, s: State, ec: ErrorCode, factory: Outcome, next: Outcome)
    requires s.door.ops != [] && next.Mapped()
    ensures A.Shifts(s.face, Accepted(o, s, ec, factory, next).face)
  {
    var t := s.(door := Opened(s.door));
    if !t.Phase().Running? {
      MaybeFinishShifts(t);
    } else if ec != NoError {
      RetryAcceptShifts(o, t, ec);
    } else {
      AcceptNextShifts(o, Connected(t, factory), next);
    }
  }

  lemma RetryCallbackShifts(o: Options, s: State, ec: ErrorCode, next: Outcome)
    requires s.timers.retryDue > 0 && next.Mapped() && !s.Phase().Starting?
    ensures A.Shifts(s.face, RetryCallback(o, s, ec, next).face)
  {
    var t := s.(timers := s.timers.(retryDue := s.timers.retryDue - 1));
    if ec != NoError { BeginStopShifts(t, ec, RuntimeFailure); } else { AcceptNextShifts(o, t, next); }
  }

  lemma RemovedShifts(o: Options, s: State, id: nat, next: Outcome)
    requires Q.Finishing(s.pool, id) && next.Mapped()
    ensures A.Shifts(s.face, Removed(o, s, id, next).face)
  {
    var t := s.(pool := Q.Deliver(s.pool, id));
    if t.Phase().Running? {
      AcceptNextShifts(o, t, next);
    } else {
      MaybeFinishShifts(t);
    }
  }

  lemma StopTaskShifts(s: State)
    requires s.stopTasks > 0 && !s.Phase().Starting?
    ensures A.Shifts(s.face, StopTask(s).face)
  {
    BeginStopShifts(s.(stopTasks := s.stopTasks - 1), NoError, Requested);
  }

  lemma StartSimulates(o: Options, s: State, id: nat, open: ErrorCode, accept: Outcome)
    requires o.Valid() && Inv(o, s) && Enabled(s, RunStart(id, open, accept))
    ensures A.Simulates(s.face, Start(o, s, id, open, accept).face, StartMove(s, id, open, accept))
  {
    if s.Phase().Stopped? {
      W.ReleaseNone(s.face.waits, open);
      if accept.Threw? { W.ReleaseNone(s.face.waits, accept.code); }
    }
  }

  /** Refinement: whatever the step, it is one move of the abstract listener. */
  lemma {:induction false} StepSimulates(o: Options, s: State, step: Step)
    requires o.Valid() && Inv(o, s) && Enabled(s, step)
    ensures A.Simulates(s.face, Apply(o, s, step).face, MoveOf(o, s, step))
  {
    match step
    case RunStart(id, open, accept) => StartSimulates(o, s, id, open, accept);
    case RunStop => StopTaskShifts(s);
    case AcceptDone(ec, factory, next) => AcceptedShifts(o, s, ec, factory, next);
    case RetryFires(ec, next) => RetryCallbackShifts(o, s, ec, next);
    case RetryAborts => MaybeFinishShifts(s.(timers := s.timers.(retryAborted := s.timers.retryAborted - 1)));
    case SessionFinished(id, next) => RemovedShifts(o, s, id, next);
    case _ =>
  }

  /** The invariant is inductive. */
  lemma StepKeepsInv(o: Options, s: State, step: Step)
    requires o.Valid() && Inv(o, s) && Enabled(s, step)
    ensures Inv(o, Apply(o, s, step))
  {
    StepKeepsGood(o, s, step);
    StepSimulates(o, s, step);
    A.MoveKeepsInv(s.face, MoveOf(o, s, step));
  }
}
