/** The listener over one connectionless socket as a transition system: one session per
    generation, whose end ends the generation. */
module Socket {
  import opened Types
  import W = Waits
  import S = Starts
  import Q = Sessions
  import A = AbstractListener

  /** `pool.live` holds the current session, if any; `lastSession` numbers the sessions the
      listener has made; `graceDue` counts grace callbacks that expired and have not run. */
  datatype State = State(
    face: A.Listener,
    pool: Q.Pool,
    lastSession: nat,
    graceArmed: bool,
    graceDue: nat,
    stopTasks: nat)
  {
    function Phase(): ListenerState { face.life.state }
    function Generation(): nat { face.life.generation }
  }

  const Fresh := State(A.Fresh, Q.Empty, 0, false, 0, 0)

  datatype Step =
    // any thread
    | RequestStop(observed: ListenerState)
    | IssueStart | SignalStart(id: nat)
    | IssueWait | SignalWait(id: nat)
    // listener strand
    | RunStart(id: nat, open: ErrorCode, factory: Outcome)
    | RunStop
    | RunSubmit(id: nat) | RunCancel(id: nat)
    | GraceFires
    | SessionFinished(id: nat)
    // timer
    | GraceExpires
    // session strand
    | SessionTask(id: nat, event: Q.Event)

  predicate Enabled(s: State, step: Step) {
    match step
    case SignalStart(id) => id in s.face.starts.ops
    case SignalWait(id) => id in s.face.waits.ops
    case RunStart(id, _, factory) => A.Pending(s.face, id) && factory.Mapped()
    case RunStop => s.stopTasks > 0
    case RunSubmit(id) => id in s.face.waits.ops && s.face.waits.ops[id].submitQueued
    case RunCancel(id) => id in s.face.waits.ops && s.face.waits.ops[id].cancelTasks > 0
    case GraceFires => s.graceDue > 0
    case SessionFinished(id) => Q.Finishing(s.pool, id)
    case GraceExpires => s.graceArmed
    case SessionTask(id, event) => id in s.pool.all && Q.Possible(s.pool.all[id], event)
    case _ => true
  }

  function Apply(s: State, step: Step): State
    requires Enabled(s, step)
  {
    match step
    case RequestStop(observed) => if observed.Stopped? then s else s.(stopTasks := s.stopTasks + 1)
    case IssueStart => s.(face := s.face.(starts := S.Issue(s.face.starts)))
    case SignalStart(id) => s.(face := s.face.(starts := S.Signal(s.face.starts, id)))
    case IssueWait => s.(face := s.face.(waits := W.Issue(s.face.waits)))
    case SignalWait(id) => s.(face := s.face.(waits := W.Signal(s.face.waits, id)))
    case RunStart(id, open, factory) => Start(s, id, open, factory)
    case RunStop => StopTask(s)
    case RunSubmit(id) =>
      s.(face := s.face.(waits := W.Submit(s.face.waits, id, s.Phase(), s.face.life.terminal)))
    case RunCancel(id) => s.(face := s.face.(waits := W.RunCancel(s.face.waits, id)))
    case GraceFires => s.(graceDue := s.graceDue - 1, pool := Q.ForceAll(s.pool))
    case SessionFinished(id) => Removed(s, id)
    case GraceExpires => s.(graceArmed := false, graceDue := s.graceDue + 1)
    case SessionTask(id, event) => s.(pool := Q.Run(s.pool, id, event))
  }

  /** Ends with `ec` and `why`: timer cancelled, waiters released. */
  function Finish(s: State, ec: ErrorCode, why: StopReason): State {
    var l := s.face.life;
    s.(graceArmed := false,
       face := s.face.(life := l.(state := Stopped, terminal := ec, reason := why, trace := l.trace + [Stopped]),
                       waits := W.ReleaseAll(s.face.waits, ec)))
  }

  function MaybeFinish(s: State): State {
    if s.Phase().Stopping? && s.pool.live == [] then Finish(s, s.face.life.terminal, s.face.life.reason) else s
  }

  function Entered(s: State, value: ListenerState): State {
    s.(face := s.face.(life := s.face.life.(state := value, trace := s.face.life.trace + [value])))
  }

  /** The stop task: it records the reason and leaves the terminal error as it is. */
  function StopTask(s: State): State
    requires s.stopTasks > 0
  {
    var t := s.(stopTasks := s.stopTasks - 1);
    var u := Entered(t.(face := t.face.(life := t.face.life.(reason := Requested))), Stopping);
    if t.Phase().Idle? then Finish(u, NoError, Requested)
    else if !t.Phase().Starting? && !t.Phase().Running? then t
    else MaybeFinish(u.(pool := Q.AskAllToStop(t.pool), graceArmed := t.graceArmed || t.pool.live != []))
  }

  function Decided(s: State, id: nat, ec: ErrorCode): State
    requires id in s.face.starts.ops
  {
    s.(face := s.face.(starts := S.Decide(s.face.starts, id, ec)))
  }

  function Start(s: State, id: nat, open: ErrorCode, factory: Outcome): State
    requires id in s.face.starts.ops
  {
    if s.face.starts.ops[id].cancelled then Decided(s, id, OperationAborted)
    else if s.Phase().Running? then Decided(s, id, NoError)
    else if !s.Phase().Idle? && !s.Phase().Stopped? then Decided(s, id, OperationAborted)
    else
      var ec := if open != NoError then open else if factory.Threw? then factory.code else NoError;
      Launch(Decided(s, id, ec), open, factory)
  }

  /** A socket that does not open, or a factory that throws, fails the start. */
  function Launch(s: State, open: ErrorCode, factory: Outcome): State {
    var up := Entered(s.(face := s.face.(life := s.face.life.(generation := s.Generation() + 1, terminal := NoError,
                                                              reason := NoReason))), Starting);
    if open != NoError then Finish(up, open, StartupFailure)
    else if factory.Threw? then Finish(up, factory.code, StartupFailure)
    else
      var id := s.lastSession + 1;
      Entered(up.(lastSession := id,
                  pool := Q.Pool([id], 1, s.pool.all[id := Q.Fresh(up.Generation())])), Running)
  }

  /** The session-finished task names no session: whatever session there is, is dropped. */
  function Cleared(p: Q.Pool, id: nat): Q.Pool
    requires Q.Finishing(p, id)
  {
    var c := p.all[id];
    Q.Pool([], 0, p.all[id := c.(finishTasks := c.finishTasks - 1, stoppedEvents := c.stoppedEvents + 1)])
  }

  /** A session that ends by itself takes the listener down. */
  function Removed(s: State, id: nat): State
    requires Q.Finishing(s.pool, id)
  {
    var ec := s.pool.all[id].outcome;
    var t := s.(pool := Cleared(s.pool, id));
    if t.Phase().Running?
    then Finish(Entered(t, Stopping), ec, if ec != NoError then RuntimeFailure else Completed)
    else MaybeFinish(t)
  }
}
