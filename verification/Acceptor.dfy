/** The connection-accepting listener as a transition system. A step is one request from
    another thread, one task on the listener's strand, one timer expiry, or one task on a
    session's strand; any pending task may run next. */
module Acceptor {
  import opened Types
  import opened Backoff
  import L = Lifecycles
  import W = Waits
  import S = Starts
  import Q = Sessions
  import A = AbstractListener

  /** `pending`: the accept flag. `ops`: outstanding `async_accept` operations, each by the
      generation that issued it. `errors`: consecutive transient failures. `delays`: the
      retry delays armed since the last successful accept. */
  datatype Door = Door(pending: bool, ops: seq<nat>, errors: nat, delays: seq<int>, lastConnection: nat)

  /** `retryDue`, `graceDue`: timer callbacks that expired and have not run, which
      cancelling the timer no longer stops. `retryAborted`: callbacks of cancelled waits. */
  datatype Timers = Timers(retryArmed: bool, retryDue: nat, retryAborted: nat, graceArmed: bool, graceDue: nat)

  /** `face` is what the server layer sees; `stopTasks` counts posted stop tasks. */
  datatype State = State(face: A.Listener, pool: Q.Pool, door: Door, timers: Timers, stopTasks: nat)
  {
    function Phase(): ListenerState { face.life.state }
    function Generation(): nat { face.life.generation }
  }

  const Fresh := State(A.Fresh, Q.Empty, Door(false, [], 0, [], 0), Timers(false, 0, 0, false, 0), 0)

  /** Parameters of a step are what the environment decides: error codes, whether foreign
      code throws, the state another thread happens to read. */
  datatype Step =
    // any thread
    | RequestStop(observed: ListenerState)
    | IssueStart | SignalStart(id: nat)
    | IssueWait | SignalWait(id: nat)
    // listener strand
    | RunStart(id: nat, open: ErrorCode, accept: Outcome)
    | RunStop
    | RunSubmit(id: nat) | RunCancel(id: nat)
    | AcceptDone(ec: ErrorCode, factory: Outcome, next: Outcome)
    | RetryFires(ec: ErrorCode, next: Outcome)
    | RetryAborts
    | GraceFires
    | SessionFinished(id: nat, next: Outcome)
    // timers
    | RetryExpires | GraceExpires
    // session strands
    | SessionTask(id: nat, event: Q.Event)

  predicate Enabled(s: State, step: Step) {
    match step
    case SignalStart(id) => id in s.face.starts.ops
    case SignalWait(id) => id in s.face.waits.ops
    case RunStart(id, _, accept) => A.Pending(s.face, id) && accept.Mapped()
    case RunStop => s.stopTasks > 0
    case RunSubmit(id) => id in s.face.waits.ops && s.face.waits.ops[id].submitQueued
    case RunCancel(id) => id in s.face.waits.ops && s.face.waits.ops[id].cancelTasks > 0
    case AcceptDone(_, _, next) => s.door.ops != [] && next.Mapped()
    case RetryFires(ec, next) => s.timers.retryDue > 0 && ec != OperationAborted && next.Mapped()
    case RetryAborts => s.timers.retryAborted > 0
    case GraceFires => s.timers.graceDue > 0
    case SessionFinished(id, next) => Q.Finishing(s.pool, id) && next.Mapped()
    case RetryExpires => s.timers.retryArmed
    case GraceExpires => s.timers.graceArmed
    case SessionTask(id, event) => id in s.pool.all && Q.Possible(s.pool.all[id], event)
    case _ => true
  }

  function Apply(o: Options, s: State, step: Step): State
    requires Enabled(s, step)
  {
    match step
    case RequestStop(observed) => if observed.Stopped? then s else s.(stopTasks := s.stopTasks + 1)
    case IssueStart => s.(face := s.face.(starts := S.Issue(s.face.starts)))
    case SignalStart(id) => s.(face := s.face.(starts := S.Signal(s.face.starts, id)))
    case IssueWait => s.(face := s.face.(waits := W.Issue(s.face.waits)))
    case SignalWait(id) => s.(face := s.face.(waits := W.Signal(s.face.waits, id)))
    case RunStart(id, open, accept) => Start(o, s, id, open, accept)
    case RunStop => StopTask(s)
    case RunSubmit(id) =>
      s.(face := s.face.(waits := W.Submit(s.face.waits, id, s.Phase(), s.face.life.terminal)))
    case RunCancel(id) => s.(face := s.face.(waits := W.RunCancel(s.face.waits, id)))
    case AcceptDone(ec, factory, next) => Accepted(o, s, ec, factory, next)
    case RetryFires(ec, next) => RetryCallback(o, s, ec, next)
    case RetryAborts => RetryAbort(s)
    case GraceFires => GraceCallback(s)
    case SessionFinished(id, next) => Removed(o, s, id, next)
    case RetryExpires =>
      s.(timers := s.timers.(retryArmed := false, retryDue := s.timers.retryDue + 1))
    case GraceExpires =>
      s.(timers := s.timers.(graceArmed := false, graceDue := s.timers.graceDue + 1))
    case SessionTask(id, event) => s.(pool := Q.Run(s.pool, id, event))
  }

  // ----- the strand tasks -----

  function CancelRetry(t: Timers): Timers {
    if t.retryArmed then t.(retryArmed := false, retryAborted := t.retryAborted + 1) else t
  }

  predicate Drained(s: State) { !s.door.pending && s.pool.live == [] }

  /** Puts `s` in the terminal lifecycle `life`: timers cancelled, waiters released. */
  function Finish(s: State, life: L.Lifecycle): State {
    s.(timers := CancelRetry(s.timers).(graceArmed := false),
       face := s.face.(life := life, waits := W.ReleaseAll(s.face.waits, life.terminal)))
  }

  function MaybeFinish(s: State): State {
    if s.Phase().Stopping? && Drained(s) then Finish(s, L.Do(s.face.life, L.FinishStop)) else s
  }

  /** A stop that has begun: sessions asked to stop, the grace timer armed if there are any. */
  function Winding(s: State, ec: ErrorCode, why: StopReason): State {
    s.(face := s.face.(life := L.Do(s.face.life, L.BeginStop(ec, why))),
       pool := Q.AskAllToStop(s.pool),
       timers := CancelRetry(s.timers).(graceArmed := s.timers.graceArmed || s.pool.live != []))
  }

  function BeginStop(s: State, ec: ErrorCode, why: StopReason): State {
    if s.Phase().Idle? then Finish(s, L.Do(s.face.life, L.StopAtOnce(ec, why)))
    else if s.Phase().Starting? || s.Phase().Running? then MaybeFinish(Winding(s, ec, why))
    else s
  }

  function StopTask(s: State): State
    requires s.stopTasks > 0
  {
    BeginStop(s.(stopTasks := s.stopTasks - 1), NoError, Requested)
  }

  function Accepting(s: State, generation: nat): Door {
    s.door.(pending := true, ops := s.door.ops + [generation])
  }

  function AcceptNext(o: Options, s: State, next: Outcome, why: StopReason := RuntimeFailure): State {
    if (!s.Phase().Starting? && !s.Phase().Running?) || s.door.pending then MaybeFinish(s)
    else if |s.pool.live| >= o.maxActiveSessions then s
    else
      match next
      case Returned => s.(door := Accepting(s, s.Generation()))
      case Threw(code) => BeginStop(s, code, why)
  }

  function Decided(s: State, id: nat, ec: ErrorCode): State
    requires id in s.face.starts.ops
  {
    s.(face := s.face.(starts := S.Decide(s.face.starts, id, ec)))
  }

  /** The start task. */
  function Start(o: Options, s: State, id: nat, open: ErrorCode, accept: Outcome): State
    requires id in s.face.starts.ops
  {
    if s.face.starts.ops[id].cancelled then Decided(s, id, OperationAborted)
    else if s.Phase().Running? then Decided(s, id, NoError)
    else if !s.Phase().Idle? && !s.Phase().Stopped? then Decided(s, id, OperationAborted)
    else Launch(o, Decided(s, id, Launched(o, s, open, accept)), open, accept)
  }

  predicate Blocked(o: Options, s: State) { s.door.pending || |s.pool.live| >= o.maxActiveSessions }

  /** The result a launching start reports. */
  function Launched(o: Options, s: State, open: ErrorCode, accept: Outcome): ErrorCode {
    if open != NoError then open
    else if Blocked(o, s) then NoError
    else match accept case Returned => NoError case Threw(code) => code
  }

  /** In the last case an exception that maps to no error slips past the caller's test and
      the listener is published as running. */
  function Launch(o: Options, s: State, open: ErrorCode, accept: Outcome): State {
    if open != NoError then Finish(s, L.Do(s.face.life, L.LaunchFails(open, false)))
    else
      var up := s.(face := s.face.(life := L.Do(s.face.life, L.Launch)));
      if Blocked(o, s) then up
      else
        match accept
        case Returned => up.(door := Accepting(s, up.Generation()))
        case Threw(code) =>
          var down := Finish(s, L.Do(s.face.life, L.LaunchFails(code, true)));
          if code != NoError then down
          else
            var life := down.face.life;
            down.(face := down.face.(life := life.(state := Running, trace := life.trace + [Running])))
  }

  /** The door once its accept has completed. */
  function Opened(d: Door): Door
    requires d.ops != []
  {
    d.(pending := false, ops := d.ops[1..])
  }

  function Accepted(o: Options, s: State, ec: ErrorCode, factory: Outcome, next: Outcome): State
    requires s.door.ops != []
  {
    var t := s.(door := Opened(s.door));
    if !t.Phase().Running? then MaybeFinish(t)
    else if ec != NoError then RetryAccept(o, t, ec)
    else AcceptNext(o, Connected(t, factory), next)
  }

  /** A connection came in: the error count restarts, and a session joins if the factory
      made one. */
  function Connected(s: State, factory: Outcome): State {
    var id := s.door.lastConnection + 1;
    s.(door := s.door.(errors := 0, delays := [], lastConnection := id),
       pool := if factory.Returned? then Q.Admit(s.pool, id, s.Generation()) else s.pool)
  }

  function RetryAccept(o: Options, s: State, ec: ErrorCode): State {
    if !ec.Transient() then BeginStop(s, ec, RuntimeFailure)
    else
      var d := s.door.(errors := s.door.errors + 1);
      if d.errors >= o.maxConsecutiveErrors then BeginStop(s.(door := d), ec, RuntimeFailure)
      else s.(door := d.(delays := d.delays + [RetryDelay(o, d.errors)]),
              timers := CancelRetry(s.timers).(retryArmed := true))
  }

  function RetryCallback(o: Options, s: State, ec: ErrorCode, next: Outcome): State
    requires s.timers.retryDue > 0
  {
    var t := s.(timers := s.timers.(retryDue := s.timers.retryDue - 1));
    if ec != NoError then BeginStop(t, ec, RuntimeFailure) else AcceptNext(o, t, next)
  }

  function RetryAbort(s: State): State
    requires s.timers.retryAborted > 0
  {
    MaybeFinish(s.(timers := s.timers.(retryAborted := s.timers.retryAborted - 1)))
  }

  function GraceCallback(s: State): State
    requires s.timers.graceDue > 0
  {
    s.(timers := s.timers.(graceDue := s.timers.graceDue - 1), pool := Q.ForceAll(s.pool))
  }

  function Removed(o: Options, s: State, id: nat, next: Outcome): State
    requires Q.Finishing(s.pool, id)
  {
    var t := s.(pool := Q.Deliver(s.pool, id));
    MaybeFinish(if t.Phase().Running? then AcceptNext(o, t, next) else t)
  }
}
