/** The single-session listener as the object it is. Every task is proved to be the step of
    the transition system that stands for it. */
module SocketObject {
  import opened Types
  import M = Socket
  import T = SocketTheorems
  import L = Lifecycles
  import W = Waits
  import S = Starts
  import Q = Sessions
  import A = AbstractListener

  /** `life` holds the state, generation, terminal error and stop reason; `waits` the list of
      waiters with the wait operations; `session` the current session, if any, and
      `activeSessions` the counter; `objects` every session made so far. */
  class SocketListener {
    var life: L.Lifecycle
    var waits: W.Table
    var starts: S.Table
    var session: seq<nat>
    var activeSessions: int
    var objects: map<nat, Q.Session>
    var lastSession: nat
    var graceArmed: bool
    var graceDue: nat
    var stopTasks: nat

    function View(): M.State
      reads this
    {
      M.State(A.Listener(life, waits, starts), Q.Pool(session, activeSessions, objects), lastSession,
              graceArmed, graceDue, stopTasks)
    }

    ghost predicate Valid()
      reads this
    {
      T.Inv(View())
    }

    constructor ()
      ensures View() == M.Fresh && Valid()
    {
      life, waits, starts := L.Fresh, W.Empty, S.Empty;
      session, activeSessions, objects, lastSession := [], 0, map[], 0;
      graceArmed, graceDue, stopTasks := false, 0, 0;
    }

    method TransitionTo(value: ListenerState)
      modifies `life
      ensures View() == M.Entered(old(View()), value)
    {
      life := life.(state := value, trace := life.trace + [value]);
    }

    method Finish(ec: ErrorCode, reason: StopReason)
      requires W.Inv(waits) && !life.state.Stopped?
      modifies `life, `waits, `graceArmed
      ensures View() == M.Finish(old(View()), ec, reason)
    {
      life := life.(terminal := ec, reason := reason);
      graceArmed := false;
      TransitionTo(Stopped);
      waits := W.CompleteAll(waits, life.terminal);
    }

    method MaybeFinish()
      requires W.Inv(waits)
      modifies `life, `waits, `graceArmed
      ensures View() == M.MaybeFinish(old(View()))
    {
      if life.state.Stopping? && session == [] {
        Finish(life.terminal, life.reason);
      }
    }

    /** Asks the session, if there is one, to stop. */
    method AskSession()
      requires Q.Inv(View().pool) && |session| <= 1
      modifies `objects
      ensures View().pool == Q.AskAllToStop(old(View()).pool)
    {
      if session != [] {
        var id := session[0];
        assert session == [id];
        objects := objects[id := objects[id].(stopAsked := true)];
      }
      assert objects == Q.AskAllToStop(old(View()).pool).all;
    }

    method StopOnStrand()
      requires W.Inv(waits) && Q.Inv(View().pool) && |session| <= 1 && stopTasks > 0
      modifies this
      ensures View() == M.StopTask(old(View()))
    {
      stopTasks := stopTasks - 1;
      if life.state.Idle? {
        life := life.(reason := Requested);
        TransitionTo(Stopping);
        Finish(NoError, Requested);
        return;
      }
      if !life.state.Starting? && !life.state.Running? { return; }
      life := life.(reason := Requested);
      TransitionTo(Stopping);
      AskSession();
      if session != [] { graceArmed := true; }
      MaybeFinish();
    }

    method RunStop()
      requires Valid() && M.Enabled(View(), M.RunStop)
      modifies this
      ensures Valid() && View() == M.Apply(old(View()), M.RunStop)
    {
      T.StepKeepsInv(View(), M.RunStop);
      StopOnStrand();
    }

    method BeginGeneration()
      modifies `life
      ensures life == L.Lifecycle(Starting, old(life).generation + 1, NoError, NoReason, old(life).trace + [Starting])
    {
      life := life.(generation := life.generation + 1, terminal := NoError, reason := NoReason);
      TransitionTo(Starting);
    }

    method MakeSession()
      modifies `lastSession, `objects, `session, `activeSessions
      ensures lastSession == old(lastSession) + 1
      ensures View().pool == Q.Pool([lastSession], 1, old(objects)[lastSession := Q.Fresh(life.generation)])
    {
      lastSession := lastSession + 1;
      objects := objects[lastSession := Q.Fresh(life.generation)];
      session := [lastSession];
      activeSessions := 1;
    }

    /** From idle or stopped to running with a fresh session, or back to stopped. */
    method Launch(id: nat, open: ErrorCode, factory: Outcome)
      requires W.Inv(waits) && id in starts.ops && (life.state.Idle? || life.state.Stopped?)
      modifies this
      ensures View() == M.Launch(
                          M.Decided(old(View()), id,
                                    if open != NoError then open else if factory.Threw? then factory.code else NoError),
                          open, factory)
    {
      BeginGeneration();
      if open != NoError {
        starts := S.Decide(starts, id, open);
        Finish(open, StartupFailure);
        return;
      }
      match factory
      case Threw(code) =>
        starts := S.Decide(starts, id, code);
        Finish(code, StartupFailure);
      case Returned =>
        MakeSession();
        TransitionTo(Running);
        starts := S.Decide(starts, id, NoError);
    }

    method RunStart(id: nat, open: ErrorCode, factory: Outcome)
      requires Valid() && M.Enabled(View(), M.RunStart(id, open, factory))
      modifies this
      ensures Valid() && View() == M.Apply(old(View()), M.RunStart(id, open, factory))
    {
      T.StepKeepsInv(View(), M.RunStart(id, open, factory));
      if starts.ops[id].cancelled {
        starts := S.Decide(starts, id, OperationAborted);
      } else if life.state.Running? {
        starts := S.Decide(starts, id, NoError);
      } else if !life.state.Idle? && !life.state.Stopped? {
        starts := S.Decide(starts, id, OperationAborted);
      } else {
        Launch(id, open, factory);
      }
    }

    /** Drops the session without naming it; a running listener goes down with it. */
    method HandleFinish(id: nat)
      requires W.Inv(waits) && Q.Finishing(View().pool, id)
      modifies this
      ensures View() == M.Removed(old(View()), id)
    {
      var c := objects[id];
      session := [];
      activeSessions := 0;
      objects := objects[id := c.(finishTasks := c.finishTasks - 1, stoppedEvents := c.stoppedEvents + 1)];
      if life.state.Running? {
        TransitionTo(Stopping);
        Finish(c.outcome, if c.outcome != NoError then RuntimeFailure else Completed);
      } else {
        MaybeFinish();
      }
    }

    method SessionFinished(id: nat)
      requires Valid() && M.Enabled(View(), M.SessionFinished(id))
      modifies this
      ensures Valid() && View() == M.Apply(old(View()), M.SessionFinished(id))
    {
      T.StepKeepsInv(View(), M.SessionFinished(id));
      HandleFinish(id);
    }

    method ForceSession()
      requires Q.Inv(View().pool) && |session| <= 1
      modifies `objects
      ensures View().pool == Q.ForceAll(old(View()).pool)
    {
      if session != [] {
        var id := session[0];
        assert session == [id];
        objects := objects[id := Q.Forced(objects[id])];
      }
      assert objects == Q.ForceAll(old(View()).pool).all;
    }

    method GraceFired()
      requires Valid() && M.Enabled(View(), M.GraceFires)
      modifies this
      ensures Valid() && View() == M.Apply(old(View()), M.GraceFires)
    {
      T.StepKeepsInv(View(), M.GraceFires);
      graceDue := graceDue - 1;
      ForceSession();
    }
  }
}
