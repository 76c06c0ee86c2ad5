/** The accepting listener as the object it is: fields that strand tasks update in place.
    Every task is proved to be the step of the transition system that stands for it. */
module AcceptorObject {
  import opened Types
  import opened Backoff
  import M = Acceptor
  import I = AcceptorInvariant
  import R = AcceptorRefinement
  import L = Lifecycles
  import W = Waits
  import S = Starts
  import Q = Sessions
  import A = AbstractListener
  import opened Sequences

  /** Related members are kept together: `life` holds the state, generation, terminal error
      and stop reason; `waits` the list of waiters with the wait operations; `pool` the list
      of sessions and their counter with the connection objects; `door` the accept flag, the
      error count and the connection counter; `timers` the two timers. */
  class AcceptorListener {
    const options: Options
    var life: L.Lifecycle
    var waits: W.Table
    var starts: S.Table
    var pool: Q.Pool
    var door: M.Door
    var timers: M.Timers
    var stopTasks: nat

    function View(): M.State
      reads this
    {
      M.State(A.Listener(life, waits, starts), pool, door, timers, stopTasks)
    }

    /** Holds between tasks. */
    ghost predicate Valid()
      reads this
    {
      options.Valid() && I.Inv(options, View())
    }

    /** Holds at every point of a task. */
    ghost predicate Sane()
      reads this
    {
      W.Inv(waits) && Q.Inv(pool)
    }

    constructor (options: Options)
      requires options.Valid()
      ensures this.options == options && View() == M.Fresh && Valid()
    {
      this.options := options;
      life, waits, starts, pool := L.Fresh, W.Empty, S.Empty, Q.Empty;
      door, timers, stopTasks := M.Fresh.door, M.Fresh.timers, 0;
    }

    // ----- building blocks of the tasks -----

    method TransitionTo(value: ListenerState)
      modifies `life
      ensures life == old(life).(state := value, trace := old(life).trace + [value])
    {
      life := life.(state := value, trace := life.trace + [value]);
    }

    method CancelRetryTimer()
      modifies `timers
      ensures timers == M.CancelRetry(old(timers))
    {
      if timers.retryArmed {
        timers := timers.(retryArmed := false, retryAborted := timers.retryAborted + 1);
      }
    }

    ghost function Final(l: L.Lifecycle, ec: ErrorCode, reason: StopReason): L.Lifecycle {
      l.(state := Stopped, terminal := ec, reason := reason, trace := l.trace + [Stopped])
    }

    method Finish(ec: ErrorCode, reason: StopReason)
      requires W.Inv(waits) && !life.state.Stopped?
      modifies `life, `timers, `waits
      ensures View() == M.Finish(old(View()), Final(old(life), ec, reason)) && W.Inv(waits)
    {
      life := life.(terminal := ec, reason := reason);
      CancelRetryTimer();
      timers := timers.(graceArmed := false);
      TransitionTo(Stopped);
      W.ReleaseAllKeepsInv(waits, life.terminal);
      waits := W.CompleteAll(waits, life.terminal);
    }

    method MaybeFinish()
      requires W.Inv(waits)
      modifies `life, `timers, `waits
      ensures View() == M.MaybeFinish(old(View())) && W.Inv(waits)
    {
      if life.state.Stopping? && !door.pending && pool.live == [] {
        Finish(life.terminal, life.reason);
      }
    }

    /** Asks every session to stop by posting to its strand. */
    method AskSessions()
      requires Q.Inv(pool)
      modifies `pool
      ensures pool == Q.AskAllToStop(old(pool)) && Q.Inv(pool)
    {
      var i := 0;
      while i < |pool.live|
        invariant 0 <= i <= |pool.live|
        invariant pool == old(pool).(all := pool.all)
        invariant pool.all.Keys == old(pool).all.Keys
        invariant forall id <- pool.all ::
            pool.all[id] == if id in pool.live[..i] then old(pool).all[id].(stopAsked := true) else old(pool).all[id]
      {
        var id := pool.live[i];
        pool := pool.(all := pool.all[id := pool.all[id].(stopAsked := true)]);
        i := i + 1;
      }
      assert pool.live[..i] == pool.live;
      assert pool.all == Q.AskAllToStop(old(pool)).all;
      Q.AskAllKeepsInv(old(pool));
    }

    /** Posts a forced close to every session. */
    method ForceSessions()
      requires Q.Inv(pool)
      modifies `pool
      ensures pool == Q.ForceAll(old(pool))
    {
      var i := 0;
      while i < |pool.live|
        invariant 0 <= i <= |pool.live|
        invariant pool == old(pool).(all := pool.all)
        invariant pool.all.Keys == old(pool).all.Keys
        invariant forall id <- pool.all ::
            pool.all[id] == if id in pool.live[..i] then Q.Forced(old(pool).all[id]) else old(pool).all[id]
      {
        var id := pool.live[i];
        pool := pool.(all := pool.all[id := Q.Forced(pool.all[id])]);
        i := i + 1;
      }
      assert pool.live[..i] == pool.live;
      assert pool.all == Q.ForceAll(old(pool)).all;
    }

    method WindDown(ec: ErrorCode, reason: StopReason)
      requires Q.Inv(pool)
      modifies `life, `timers, `pool
      ensures View() == M.Winding(old(View()), ec, reason) && Q.Inv(pool)
    {
      life := life.(terminal := ec, reason := reason);
      TransitionTo(Stopping);
      CancelRetryTimer();
      AskSessions();
      if pool.live != [] {
        timers := timers.(graceArmed := true);
      }
    }

    /** An idle listener has nothing to wind down. */
    method StopIdle(ec: ErrorCode, reason: StopReason)
      requires W.Inv(waits) && life.state.Idle?
      modifies `life, `timers, `waits
      ensures View() == M.BeginStop(old(View()), ec, reason) && W.Inv(waits)
    {
      life := life.(terminal := ec, reason := reason);
      TransitionTo(Stopping);
      Finish(ec, reason);
    }

    method BeginStop(ec: ErrorCode, reason: StopReason)
      requires Sane()
      modifies `life, `timers, `waits, `pool
      ensures View() == M.BeginStop(old(View()), ec, reason) && Sane()
    {
      if life.state.Idle? {
        StopIdle(ec, reason);
      } else if life.state.Starting? || life.state.Running? {
        WindDown(ec, reason);
        MaybeFinish();
      }
    }

    /** Returns the error of a failed initiation, or none. */
    method AcceptNext(next: Outcome, failure: StopReason) returns (ec: ErrorCode)
      requires Sane()
      modifies `life, `timers, `waits, `pool, `door
      ensures View() == M.AcceptNext(options, old(View()), next, failure) && Sane()
      ensures ec == if next.Threw? && (old(life).state.Starting? || old(life).state.Running?)
                       && !M.Blocked(options, old(View())) then next.code else NoError
    {
      if (!life.state.Starting? && !life.state.Running?) || door.pending {
        MaybeFinish();
        return NoError;
      }
      if |pool.live| >= options.maxActiveSessions { return NoError; }

      match next
      case Returned =>
        door := door.(pending := true, ops := door.ops + [life.generation]);
        return NoError;
      case Threw(code) =>
        BeginStop(code, failure);
        return code;
    }

    method RetryAccept(ec: ErrorCode)
      requires options.Valid() && Sane()
      modifies `life, `timers, `waits, `pool, `door
      ensures View() == M.RetryAccept(options, old(View()), ec) && Sane()
    {
      if !ec.Transient() {
        BeginStop(ec, RuntimeFailure);
        return;
      }
      door := door.(errors := door.errors + 1);
      if door.errors >= options.maxConsecutiveErrors {
        BeginStop(ec, RuntimeFailure);
        return;
      }
      var delay, formed := AcceptRetryDelay(options, door.errors);
      CancelRetryTimer();
      door := door.(delays := door.delays + [delay]);
      timers := timers.(retryArmed := true);
    }

    // ----- the tasks of the listener's strand -----

    method BeginGeneration()
      modifies `life
      ensures life == L.Lifecycle(Starting, old(life).generation + 1, NoError, NoReason, old(life).trace + [Starting])
    {
      life := life.(generation := life.generation + 1, terminal := NoError, reason := NoReason);
      TransitionTo(Starting);
    }

    /** From idle or stopped to running, or back to stopped. */
    method Launch(id: nat, open: ErrorCode, accept: Outcome)
      requires Valid() && id in starts.ops && (life.state.Idle? || life.state.Stopped?)
      modifies `life, `timers, `waits, `pool, `door, `starts
      ensures View() == M.Launch(options,
                                 M.Decided(old(View()), id, M.Launched(options, old(View()), open, accept)),
                                 open, accept)
    {
      BeginGeneration();
      if open != NoError {
        starts := S.Decide(starts, id, open);
        Finish(open, StartupFailure);
        return;
      }
      ghost var before := View();
      var ec := AcceptNext(accept, StartupFailure);
      if accept.Threw? { LaunchUnwinds(options, old(View()), before, accept.code); }
      if ec != NoError {
        starts := S.Decide(starts, id, ec);
        return;
      }
      TransitionTo(Running);
      starts := S.Decide(starts, id, NoError);
    }

    method RunStart(id: nat, open: ErrorCode, accept: Outcome)
      requires Valid() && M.Enabled(View(), M.RunStart(id, open, accept))
      modifies this
      ensures Valid() && View() == M.Apply(options, old(View()), M.RunStart(id, open, accept))
    {
      R.StepKeepsInv(options, View(), M.RunStart(id, open, accept));
      if starts.ops[id].cancelled {
        starts := S.Decide(starts, id, OperationAborted);
      } else if life.state.Running? {
        starts := S.Decide(starts, id, NoError);
      } else if !life.state.Idle? && !life.state.Stopped? {
        starts := S.Decide(starts, id, OperationAborted);
      } else {
        Launch(id, open, accept);
      }
    }

    method RunStop()
      requires Valid() && M.Enabled(View(), M.RunStop)
      modifies this
      ensures Valid() && View() == M.Apply(options, old(View()), M.RunStop)
    {
      R.StepKeepsInv(options, View(), M.RunStop);
      stopTasks := stopTasks - 1;
      BeginStop(NoError, Requested);
    }

    /** Numbers the connection and, if the factory made a session for it, adds it. */
    method Connect(factory: Outcome)
      requires Q.Inv(pool) && door.lastConnection + 1 !in pool.all
      modifies `door, `pool
      ensures View() == M.Connected(old(View()), factory) && Q.Inv(pool)
    {
      door := door.(errors := 0, delays := []);
      door := door.(lastConnection := door.lastConnection + 1);
      if factory.Returned? {
        Q.AdmitKeepsInv(pool, door.lastConnection, life.generation);
        pool := Q.Pool(pool.live + [door.lastConnection], pool.active + 1,
                       pool.all[door.lastConnection := Q.Fresh(life.generation)]);
      }
    }

    method HandleAccept(ec: ErrorCode, factory: Outcome, next: Outcome)
      requires options.Valid() && Sane() && door.ops != [] && door.lastConnection + 1 !in pool.all
      modifies `life, `timers, `waits, `pool, `door
      ensures View() == M.Accepted(options, old(View()), ec, factory, next)
    {
      door := door.(pending := false, ops := door.ops[1..]);
      if !life.state.Running? {
        MaybeFinish();
      } else if ec != NoError {
        RetryAccept(ec);
      } else {
        Connect(factory);
        var _ := AcceptNext(next, RuntimeFailure);
      }
    }

    method Accepted(ec: ErrorCode, factory: Outcome, next: Outcome)
      requires Valid() && M.Enabled(View(), M.AcceptDone(ec, factory, next))
      modifies this
      ensures Valid() && View() == M.Apply(options, old(View()), M.AcceptDone(ec, factory, next))
    {
      R.StepKeepsInv(options, View(), M.AcceptDone(ec, factory, next));
      HandleAccept(ec, factory, next);
    }

    /** Looks the session up by its id, drops it and its count, and lets the listener go on. */
    method SessionFinished(id: nat, next: Outcome)
      requires Valid() && M.Enabled(View(), M.SessionFinished(id, next))
      modifies this
      ensures Valid() && View() == M.Apply(options, old(View()), M.SessionFinished(id, next))
    {
      R.StepKeepsInv(options, View(), M.SessionFinished(id, next));
      Q.DeliverKeepsInv(pool, id);
      Unlink(id);
      if life.state.Running? {
        var _ := AcceptNext(next, RuntimeFailure);
      }
      MaybeFinish();
    }

    method Unlink(id: nat)
      requires Q.Inv(pool) && Q.Finishing(pool, id)
      modifies `pool
      ensures pool == Q.Deliver(old(pool), id)
    {
      var c := pool.all[id];
      var i := Find(pool.live, id);
      if i < |pool.live| {
        ErasedIsWithout(pool.live, i);
        pool := pool.(live := pool.live[..i] + pool.live[i + 1..], active := pool.active - 1);
      }
      pool := pool.(all := pool.all[id := c.(finishTasks := c.finishTasks - 1, stoppedEvents := c.stoppedEvents + 1)]);
    }

    method HandleRetry(ec: ErrorCode, next: Outcome)
      requires Sane() && timers.retryDue > 0
      modifies `life, `timers, `waits, `pool, `door
      ensures View() == M.RetryCallback(options, old(View()), ec, next)
    {
      timers := timers.(retryDue := timers.retryDue - 1);
      if ec != NoError {
        BeginStop(ec, RuntimeFailure);
      } else {
        var _ := AcceptNext(next, RuntimeFailure);
      }
    }

    method RetryFired(ec: ErrorCode, next: Outcome)
      requires Valid() && M.Enabled(View(), M.RetryFires(ec, next))
      modifies this
      ensures Valid() && View() == M.Apply(options, old(View()), M.RetryFires(ec, next))
    {
      R.StepKeepsInv(options, View(), M.RetryFires(ec, next));
      HandleRetry(ec, next);
    }

    method RetryAborted()
      requires Valid() && M.Enabled(View(), M.RetryAborts)
      modifies this
      ensures Valid() && View() == M.Apply(options, old(View()), M.RetryAborts)
    {
      R.StepKeepsInv(options, View(), M.RetryAborts);
      timers := timers.(retryAborted := timers.retryAborted - 1);
      MaybeFinish();
    }

    method GraceFired()
      requires Valid() && M.Enabled(View(), M.GraceFires)
      modifies this
      ensures Valid() && View() == M.Apply(options, old(View()), M.GraceFires)
    {
      R.StepKeepsInv(options, View(), M.GraceFires);
      timers := timers.(graceDue := timers.graceDue - 1);
      ForceSessions();
    }

    method Register(id: nat)
      requires id in waits.ops
      modifies `waits
      ensures waits == W.Submit(old(waits), id, life.state, life.terminal)
    {
      var w := waits.ops[id].(submitQueued := false);
      if w.cancelled {
        waits := waits.(ops := waits.ops[id := W.Completed(w, W.Cancelled)]);
      } else if life.state.Stopped? {
        waits := waits.(ops := waits.ops[id := W.Completed(w, W.Released(life.terminal))]);
      } else {
        waits := waits.(ops := waits.ops[id := w], waiters := waits.waiters + [id]);
      }
    }

    method SubmitWait(id: nat)
      requires Valid() && M.Enabled(View(), M.RunSubmit(id))
      modifies this
      ensures Valid() && View() == M.Apply(options, old(View()), M.RunSubmit(id))
    {
      R.StepKeepsInv(options, View(), M.RunSubmit(id));
      Register(id);
    }

    /** Looks the wait up by its id; one that is no longer registered is left alone. */
    method Unregister(id: nat)
      requires id in waits.ops && waits.ops[id].cancelTasks > 0
      modifies `waits
      ensures waits == W.RunCancel(old(waits), id)
    {
      var w := waits.ops[id].(cancelTasks := waits.ops[id].cancelTasks - 1);
      var i := Find(waits.waiters, id);
      if i == |waits.waiters| {
        assert waits.waiters[..i] == waits.waiters;
        waits := waits.(ops := waits.ops[id := w]);
      } else {
        ErasedIsWithout(waits.waiters, i);
        waits := waits.(waiters := waits.waiters[..i] + waits.waiters[i + 1..],
                        ops := waits.ops[id := W.Completed(w, W.Cancelled)]);
      }
    }

    method CancelWait(id: nat)
      requires Valid() && M.Enabled(View(), M.RunCancel(id))
      modifies this
      ensures Valid() && View() == M.Apply(options, old(View()), M.RunCancel(id))
    {
      R.StepKeepsInv(options, View(), M.RunCancel(id));
      Unregister(id);
    }
  }

  /** The first position of `x` in `s`, or the length. */
  method Find(s: seq<nat>, x: nat) returns (i: nat)
    ensures i <= |s| && x !in s[..i]
    ensures i < |s| ==> s[i] == x
  {
    i := 0;
    while i < |s| && s[i] != x
      invariant i <= |s| && x !in s[..i]
    {
      i := i + 1;
    }
  }

  /** A first accept that throws while starting takes the listener through stopping to
      stopped within the task. */
  lemma LaunchUnwinds(o: Options, s: M.State, starting: M.State, code: ErrorCode)
    requires o.Valid() && I.Inv(o, s) && (s.Phase().Idle? || s.Phase().Stopped?)
    requires starting == s.(face := s.face.(life := L.Lifecycle(Starting, s.Generation() + 1, NoError, NoReason,
                                                                s.face.life.trace + [Starting])))
    ensures M.AcceptNext(o, starting, Threw(code), StartupFailure)
         == M.Finish(s, L.Do(s.face.life, L.LaunchFails(code, true)))
  {
    Q.AskNone(s.pool);
  }
}
