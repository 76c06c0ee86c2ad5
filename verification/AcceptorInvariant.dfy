/** The inductive invariant of the accepting listener. */
module AcceptorInvariant {
  import opened Types
  import opened Backoff
  import opened M = Acceptor
  import Q = Sessions
  import A = AbstractListener

  function One(b: bool): nat { if b then 1 else 0 }

  /** The retry delays armed since the last successful accept are those of failures
      1, 2, 3, ... below the limit. */
  predicate Budgeted(o: Options, d: Door)
    requires o.Valid()
  {
    d.delays == Delays(o, Min(d.errors, o.maxConsecutiveErrors - 1))
  }

  /** Nothing in flight belongs to an earlier generation, and there is room for it. */
  predicate Current(o: Options, s: State) {
    && Q.Inv(s.pool)
    && (forall id <- s.pool.all :: id <= s.door.lastConnection)
    && |s.door.ops| == One(s.door.pending)
    && (forall g <- s.door.ops :: g == s.Generation())
    && (forall id <- s.pool.live :: s.pool.all[id].generation == s.Generation())
    && |s.pool.live| + One(s.door.pending) <= o.maxActiveSessions
  }

  /** What each phase rules out, at every point of a task. */
  predicate Phased(s: State)
    requires Q.Inv(s.pool)
  {
    match s.Phase()
    case Idle => Drained(s) && !s.timers.retryArmed && s.timers.retryDue == 0 && !s.timers.graceArmed
    case Starting => false
    case Running => !s.timers.graceArmed && forall id <- s.pool.live :: !s.pool.all[id].stopAsked
    case Stopping => !s.timers.retryArmed && forall id <- s.pool.live :: s.pool.all[id].stopAsked
    case Stopped => Drained(s) && !s.timers.retryArmed && !s.timers.graceArmed
  }

  predicate Core(o: Options, s: State)
    requires o.Valid()
  {
    Current(o, s) && Phased(s) && Budgeted(o, s.door)
  }

  /** A running listener has something that will make it accept again. */
  predicate WillAccept(o: Options, s: State) {
    s.door.pending || s.timers.retryArmed || s.timers.retryDue > 0 || |s.pool.live| >= o.maxActiveSessions
  }

  /** Once stopping, every live session is doomed or the grace timer will see to it. */
  predicate Graced(s: State) {
    || s.timers.graceArmed
    || s.timers.graceDue > 0
    || forall id <- s.pool.live :: id in s.pool.all && Q.Doomed(s.pool.all[id])
  }

  /** What holds between tasks on top of `Core`. */
  predicate Settled(o: Options, s: State) {
    && (s.Phase().Running? ==> WillAccept(o, s))
    && (s.Phase().Stopping? ==> !Drained(s) && Graced(s))
  }

  predicate Good(o: Options, s: State)
    requires o.Valid()
  {
    Core(o, s) && Settled(o, s)
  }

  predicate Inv(o: Options, s: State)
    requires o.Valid()
  {
    A.Inv(s.face) && Good(o, s)
  }

  // ----- one building block at a time -----

  lemma MaybeFinishKeeps(o: Options, s: State)
    requires o.Valid() && Core(o, s)
    requires s.Phase().Running? ==> WillAccept(o, s)
    requires s.Phase().Stopping? ==> Graced(s)
    ensures Good(o, MaybeFinish(s))
  {}

  lemma WindingKeeps(o: Options, s: State, ec: ErrorCode, why: StopReason)
    requires o.Valid() && Core(o, s) && s.Phase().Running?
    ensures Core(o, Winding(s, ec, why)) && Graced(Winding(s, ec, why))
  {
    Q.AskAllKeepsInv(s.pool);
  }

  lemma BeginStopKeeps(o: Options, s: State, ec: ErrorCode, why: StopReason)
    requires o.Valid() && Core(o, s)
    requires s.Phase().Stopping? ==> Settled(o, s)
    ensures Good(o, BeginStop(s, ec, why))
  {
    if s.Phase().Running? {
      WindingKeeps(o, s, ec, why);
      MaybeFinishKeeps(o, Winding(s, ec, why));
    }
  }

  lemma StopTaskKeeps(o: Options, s: State)
    requires o.Valid() && Good(o, s) && s.stopTasks > 0
    ensures Good(o, StopTask(s))
  {
    BeginStopKeeps(o, s.(stopTasks := s.stopTasks - 1), NoError, Requested);
  }

  lemma AcceptNextKeeps(o: Options, s: State, next: Outcome)
    requires o.Valid() && Core(o, s) && s.Phase().Running?
    ensures Good(o, AcceptNext(o, s, next))
  {
    if next.Threw? { BeginStopKeeps(o, s, next.code, RuntimeFailure); }
  }

  lemma LaunchKeeps(o: Options, s: State, open: ErrorCode, accept: Outcome)
    requires o.Valid() && Core(o, s) && accept.Mapped()
    requires s.Phase().Idle? || s.Phase().Stopped?
    ensures Good(o, Launch(o, s, open, accept))
  {}

  lemma StartKeeps(o: Options, s: State, id: nat, open: ErrorCode, accept: Outcome)
    requires o.Valid() && Good(o, s) && id in s.face.starts.ops && accept.Mapped()
    ensures Good(o, Start(o, s, id, open, accept))
  {
    if s.Phase().Idle? || s.Phase().Stopped? {
      LaunchKeeps(o, Decided(s, id, Launched(o, s, open, accept)), open, accept);
    }
  }

  lemma RetryAcceptKeeps(o: Options, s: State, ec: ErrorCode)
    requires o.Valid() && Core(o, s) && s.Phase().Running?
    ensures Good(o, RetryAccept(o, s, ec))
  {
    var d := s.door.(errors := s.door.errors + 1);
    if !ec.Transient() {
      BeginStopKeeps(o, s, ec, RuntimeFailure);
    } else if d.errors >= o.maxConsecutiveErrors {
      BeginStopKeeps(o, s.(door := d), ec, RuntimeFailure);
    }
  }

  lemma ConnectedKeeps(o: Options, s: State, factory: Outcome)
    requires o.Valid() && Core(o, s) && s.Phase().Running? && !s.door.pending
    requires |s.pool.live| < o.maxActiveSessions
    ensures Core(o, Connected(s, factory)) && Connected(s, factory).Phase().Running?
  {
    Q.AdmitKeepsInv(s.pool, s.door.lastConnection + 1, s.Generation());
  }

  lemma AcceptedKeeps(o: Options, s: State, ec: ErrorCode, factory: Outcome, next: Outcome)
    requires o.Valid() && Good(o, s) && s.door.ops != []
    ensures Good(o, Accepted(o, s, ec, factory, next))
  {
    var t := s.(door := Opened(s.door));
    assert Core(o, t);
    if !t.Phase().Running? {
      MaybeFinishKeeps(o, t);
    } else if ec != NoError {
      RetryAcceptKeeps(o, t, ec);
    } else {
      ConnectedKeeps(o, t, factory);
      AcceptNextKeeps(o, Connected(t, factory), next);
    }
  }

  lemma DeliverKeeps(o: Options, s: State, id: nat)
    requires o.Valid() && Good(o, s) && Q.Finishing(s.pool, id)
    ensures Core(o, s.(pool := Q.Deliver(s.pool, id)))
    ensures s.Phase().Stopping? ==> Graced(s.(pool := Q.Deliver(s.pool, id)))
  {
    Q.DeliverKeepsInv(s.pool, id);
    Q.S.WithoutRemoves(s.pool.live, id);
  }

  lemma RemovedKeeps(o: Options, s: State, id: nat, next: Outcome)
    requires o.Valid() && Good(o, s) && Q.Finishing(s.pool, id)
    ensures Good(o, Removed(o, s, id, next))
  {
    DeliverKeeps(o, s, id);
    var t := s.(pool := Q.Deliver(s.pool, id));
    if t.Phase().Running? {
      AcceptNextKeeps(o, t, next);
      MaybeFinishKeeps(o, AcceptNext(o, t, next));
    } else {
      MaybeFinishKeeps(o, t);
    }
  }

  lemma SessionTaskKeeps(o: Options, s: State, id: nat, e: Q.Event)
    requires o.Valid() && Good(o, s) && id in s.pool.all && Q.Possible(s.pool.all[id], e)
    ensures Good(o, s.(pool := Q.Run(s.pool, id, e)))
  {
    Q.RunKeepsInv(s.pool, id, e);
  }

  lemma GraceKeeps(o: Options, s: State)
    requires o.Valid() && Good(o, s) && s.timers.graceDue > 0
    ensures Good(o, GraceCallback(s))
  {
    Q.ForceAllKeepsInv(s.pool);
  }

  lemma RetryKeeps(o: Options, s: State, ec: ErrorCode, next: Outcome)
    requires o.Valid() && Good(o, s) && s.timers.retryDue > 0
    ensures Good(o, RetryCallback(o, s, ec, next))
  {
    var t := RetryTaken(o, s);
    if ec != NoError {
      BeginStopKeeps(o, t, ec, RuntimeFailure);
    } else if t.Phase().Running? {
      AcceptNextKeeps(o, t, next);
    } else {
      MaybeFinishKeeps(o, t);
    }
  }

  lemma RetryTaken(o: Options, s: State) returns (t: State)
    requires o.Valid() && Good(o, s) && s.timers.retryDue > 0
    ensures t == s.(timers := s.timers.(retryDue := s.timers.retryDue - 1))
    ensures Core(o, t) && (t.Phase().Stopping? ==> Settled(o, t))
  {
    t := s.(timers := s.timers.(retryDue := s.timers.retryDue - 1));
  }

  lemma RetryAbortKeeps(o: Options, s: State)
    requires o.Valid() && Good(o, s) && s.timers.retryAborted > 0
    ensures Good(o, RetryAbort(s))
  {
    MaybeFinishKeeps(o, s.(timers := s.timers.(retryAborted := s.timers.retryAborted - 1)));
  }

  /** The steps that run no code of the listener beyond a counter or an operation table. */
  predicate Bookkeeping(step: Step) {
    step.RequestStop? || step.IssueStart? || step.SignalStart? || step.IssueWait? || step.SignalWait?
    || step.RunSubmit? || step.RunCancel? || step.RetryExpires? || step.GraceExpires?
  }

  lemma BookkeepingKeeps(o: Options, s: State, step: Step)
    requires o.Valid() && Good(o, s) && Enabled(s, step) && Bookkeeping(step)
    ensures Good(o, Apply(o, s, step))
  {}

  lemma {:induction false} StepKeepsGood(o: Options, s: State, step: Step)
    requires o.Valid() && Good(o, s) && Enabled(s, step)
    ensures Good(o, Apply(o, s, step))
  {
    match step
    case RunStart(id, open, accept) => StartKeeps(o, s, id, open, accept);
    case RunStop => StopTaskKeeps(o, s);
    case AcceptDone(ec, factory, next) => AcceptedKeeps(o, s, ec, factory, next);
    case RetryFires(ec, next) => RetryKeeps(o, s, ec, next);
    case RetryAborts => RetryAbortKeeps(o, s);
    case GraceFires => GraceKeeps(o, s);
    case SessionFinished(id, next) => RemovedKeeps(o, s, id, next);
    case SessionTask(id, event) => SessionTaskKeeps(o, s, id, event);
    case _ => BookkeepingKeeps(o, s, step);
  }
}
