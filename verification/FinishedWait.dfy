/** A server wait together with the server's lifecycle: the group's completion is what calls
    `finish_wait`, with the group's result. */
module FinishedWait {
  import opened Types
  import M = ServerWait
  import C = ServerControl
  import A = AbstractListener
  import W = Waits
  import G = OperationGroup

  /** `finisher` is the call by which this wait finishes. */
  datatype Server = Server(wait: M.Server, control: C.Control, finisher: nat)

  datatype Step = Wait(step: M.Step) | Control(c: C.Step)

  /** Other calls are made by others, at any time. */
  predicate Enabled(s: Server, step: Step) {
    && s.wait.Shaped()
    && match step
       case Wait(w) => M.Ready(s.wait, w)
       case Control(c) =>
         && C.Enabled(s.control, c)
         && (c.Call? && c.id == s.finisher ==>
               c.op.FinishWait? && s.wait.group.tally.results == [c.op.ec])
  }

  function Apply(s: Server, step: Step): Server
    requires Enabled(s, step)
  {
    match step
    case Wait(w) => s.(wait := M.Apply(s.wait, w))
    case Control(c) => s.(control := C.Apply(s.control, c))
  }

  // ----- the invariant -----

  /** Whatever the finishing call has done to the server's state is to stop it. */
  predicate FinishInv(c: C.Control, finisher: nat) {
    && (finisher in c.history ==> c.history[finisher].op.FinishWait?)
    && forall e <- c.shared.log :: e.author == finisher ==> e.state.Stopped? && finisher in c.history
  }

  predicate Inv(s: Server) {
    && M.Inv(s.wait) && C.Inv(s.control) && C.AllExplained(s.control)
    && FinishInv(s.control, s.finisher)
    && (s.finisher in s.control.history ==> s.wait.group.tally.results != [])
  }

  lemma GroupKeepsResults(s: M.Server, step: M.Step)
    requires M.Inv(s) && M.Enabled(s, step) && s.group.tally.results != []
    ensures M.OnGroup(s, step).tally.results == s.group.tally.results
  {
    match step
    case Move(_, _) =>
    case Launch => G.StepKeepsResults(s.group, G.Initiate(Returned));
    case LaunchFails(code) => G.StepKeepsResults(s.group, G.Initiate(Threw(code)));
    case Loop(g) => G.StepKeepsResults(s.group, g);
    case CountFailure => G.StepKeepsResults(s.group, G.CountFailure);
    case ChildDone(i) => G.StepKeepsResults(s.group, G.ChildDone(i, M.CodeOf(M.Results(s, i)[0])));
    case Cancel(g) => G.StepKeepsResults(s.group, g);
  }

  /** An access of a finishing call logs nothing but a stop. */
  lemma FinishLogs(s: C.Shared, id: nat, ec: ErrorCode, st: C.State, pc: C.Pc, spurious: bool)
    requires C.Explained(C.FinishWait(ec), st, pc)
    ensures forall e <- C.Access(s, id, pc, spurious).0.log :: e in s.log || e == C.Change(C.Stopped, id)
  {}

  /** An access of another call logs under its own name. */
  lemma OtherLogs(s: C.Shared, id: nat, pc: C.Pc, spurious: bool)
    ensures forall e <- C.Access(s, id, pc, spurious).0.log :: e in s.log || e.author == id
  {}

  lemma ControlKeepsFinish(c: C.Control, step: C.Step, finisher: nat)
    requires C.Inv(c) && C.AllExplained(c) && C.Enabled(c, step) && FinishInv(c, finisher)
    requires step.Call? && step.id == finisher ==> step.op.FinishWait?
    ensures FinishInv(C.Apply(c, step), finisher)
  {
    if step.Advance? {
      OtherLogs(c.shared, step.id, c.calls[step.id], step.spurious);
      if step.id == finisher {
        assert C.CallExplained(c, finisher);
        var h := c.history[finisher];
        FinishLogs(c.shared, finisher, h.op.ec, C.StateAt(c.shared.log, h.at), c.calls[finisher], step.spurious);
      }
    }
  }

  lemma ControlKeepsInv(s: Server, c: C.Step)
    requires Inv(s) && Enabled(s, Control(c))
    ensures Inv(Apply(s, Control(c)))
  {
    C.StepKeepsInv(s.control, c);
    ControlKeepsFinish(s.control, c, s.finisher);
  }

  lemma WaitKeepsInv(s: Server, w: M.Step)
    requires Inv(s) && Enabled(s, Wait(w))
    ensures Inv(Apply(s, Wait(w)))
  {
    M.StepKeepsInv(s.wait, w);
    if s.wait.group.tally.results != [] { GroupKeepsResults(s.wait, w); }
  }

  lemma StepKeepsInv(s: Server, step: Step)
    requires Inv(s) && Enabled(s, step)
    ensures Inv(Apply(s, step))
  {
    match step
    case Wait(w) => WaitKeepsInv(s, w);
    case Control(c) => ControlKeepsInv(s, c);
  }

  // ----- every run -----

  ghost predicate Next(s: Server, t: Server) { exists step :: Enabled(s, step) && t == Apply(s, step) }

  predicate CanBegin(listeners: seq<A.Listener>, control: C.Control, finisher: nat) {
    && listeners != [] && (forall i :: 0 <= i < |listeners| ==> A.Inv(listeners[i]))
    && C.Inv(control) && C.AllExplained(control) && finisher !in control.calls
  }

  ghost predicate IsRun(run: seq<Server>, listeners: seq<A.Listener>, control: C.Control, finisher: nat) {
    && CanBegin(listeners, control, finisher)
    && |run| > 0 && run[0] == Server(M.Issued(listeners), control, finisher)
    && forall k {:trigger run[k]} :: 0 < k < |run| ==> Next(run[k - 1], run[k])
  }

  lemma NextFacts(s: Server, t: Server)
    requires Inv(s) && Next(s, t)
    ensures Inv(t) && t.finisher == s.finisher && M.Next(s.wait, t.wait)
    ensures s.finisher in t.control.history && s.finisher !in s.control.history ==> s.wait.group.tally.results != []
  {
    var step :| Enabled(s, step) && t == Apply(s, step);
    StepKeepsInv(s, step);
    if step.Control? { Stutters(s.wait); }
  }

  /** Nothing happens to a wait while somebody accesses the server's state. */
  lemma Stutters(w: M.Server)
    requires M.Inv(w)
    ensures M.Next(w, w)
  {
    var step := M.Move(0, A.Quiet);
    M.EnabledIsReady(w, step);
    assert M.Apply(w, step).listeners == w.listeners;
  }

  lemma {:induction false} RunKeepsInv(run: seq<Server>, listeners: seq<A.Listener>, control: C.Control, finisher: nat,
                                       k: nat)
    requires IsRun(run, listeners, control, finisher) && k < |run|
    ensures Inv(run[k]) && run[k].finisher == finisher
  {
    if k == 0 {
      M.IssuedIsGood(listeners);
    } else {
      RunKeepsInv(run, listeners, control, finisher, k - 1);
      NextFacts(run[k - 1], run[k]);
    }
  }

  function Waits(run: seq<Server>): seq<M.Server> {
    seq(|run|, k requires 0 <= k < |run| => run[k].wait)
  }

  lemma WaitsIsRun(run: seq<Server>, listeners: seq<A.Listener>, control: C.Control, finisher: nat)
    requires IsRun(run, listeners, control, finisher)
    ensures M.IsRun(Waits(run), listeners)
  {
    var waits := Waits(run);
    forall k {:trigger waits[k]} | 0 < k < |waits| ensures M.Next(waits[k - 1], waits[k]) {
      RunKeepsInv(run, listeners, control, finisher, k - 1);
      NextFacts(run[k - 1], run[k]);
    }
  }

  predicate FinishCalled(s: Server) { s.finisher in s.control.history }

  predicate Completed(s: Server) { s.wait.group.tally.results != [] }

  lemma FinishFollows(run: seq<Server>, listeners: seq<A.Listener>, control: C.Control, finisher: nat, k: nat)
    requires IsRun(run, listeners, control, finisher) && k < |run|
    ensures k == 0 ==> !FinishCalled(run[k])
    ensures k > 0 && FinishCalled(run[k]) && !FinishCalled(run[k - 1]) ==> Completed(run[k - 1])
  {
    if k > 0 {
      RunKeepsInv(run, listeners, control, finisher, k - 1);
      NextFacts(run[k - 1], run[k]);
    }
  }

  /** The instant at which the finishing call was made. */
  lemma {:induction false} FinishPoint(run: seq<Server>, listeners: seq<A.Listener>, control: C.Control, finisher: nat,
                                       k: nat) returns (j: nat)
    requires IsRun(run, listeners, control, finisher) && k < |run| && FinishCalled(run[k])
    ensures j < k && !FinishCalled(run[j]) && Completed(run[j])
  {
    FinishFollows(run, listeners, control, finisher, k);
    if !FinishCalled(run[k - 1]) {
      j := k - 1;
    } else {
      j := FinishPoint(run, listeners, control, finisher, k - 1);
    }
  }

  /** A wait changes the server's state only to stopped. By then, and before it even makes the
      call, each of its children has failed to be initiated, was cancelled, or has seen its
      listener stopped since the wait was issued; if nobody cancelled the wait, every child that
      was initiated has. */
  lemma StoppedByWaitAfterListeners(run: seq<Server>, listeners: seq<A.Listener>, control: C.Control, finisher: nat,
                                    k: nat, e: C.Change) returns (j: nat)
    requires IsRun(run, listeners, control, finisher) && k < |run|
    requires e in run[k].control.shared.log && e.author == finisher
    ensures e.state.Stopped?
    ensures j < k && !FinishCalled(run[j])
    ensures run[j].wait.Shaped() && run[j].wait.group.Size() == |listeners|
    ensures forall i :: 0 <= i < |listeners| ==>
              || run[j].wait.group.children[i].Failed?
              || M.Results(run[j].wait, i) == [W.Cancelled]
              || M.SawStop(Waits(run), j, i, M.Code(run[j].wait, i))
    ensures run[j].wait.group.signals.cancelled == {} ==>
              forall i :: 0 <= i < |listeners| && !run[j].wait.group.children[i].Failed? ==>
                M.SawStop(Waits(run), j, i, M.Code(run[j].wait, i))
  {
    RunKeepsInv(run, listeners, control, finisher, k);
    j := FinishPoint(run, listeners, control, finisher, k);
    RunKeepsInv(run, listeners, control, finisher, j);
    WaitsIsRun(run, listeners, control, finisher);
    M.ServerWaitSawEveryStop(Waits(run), listeners, j);
  }

  // ----- a stopped server with a running listener -----

  function Lifted(waits: seq<M.Server>, control: C.Control, finisher: nat): seq<Server> {
    seq(|waits|, k requires 0 <= k < |waits| => Server(waits[k], control, finisher))
  }

  lemma LiftedIsRun(waits: seq<M.Server>, listeners: seq<A.Listener>, control: C.Control, finisher: nat)
    requires M.IsRun(waits, listeners) && CanBegin(listeners, control, finisher)
    ensures IsRun(Lifted(waits, control, finisher), listeners, control, finisher)
  {
    var run := Lifted(waits, control, finisher);
    forall k {:trigger run[k]} | 0 < k < |run| ensures Next(run[k - 1], run[k]) {
      LiftedNext(waits[k - 1], waits[k], control, finisher);
    }
  }

  lemma LiftedNext(v: M.Server, w: M.Server, control: C.Control, finisher: nat)
    requires M.Next(v, w)
    ensures Next(Server(v, control, finisher), Server(w, control, finisher))
  {
    var step :| M.Ready(v, step) && w == M.Apply(v, step);
    assert Enabled(Server(v, control, finisher), Wait(step));
  }

  lemma RunOn(run: seq<Server>, listeners: seq<A.Listener>, control: C.Control, finisher: nat, step: Step)
    returns (more: seq<Server>, t: Server)
    requires IsRun(run, listeners, control, finisher) && Enabled(run[|run| - 1], step)
    ensures IsRun(more, listeners, control, finisher) && t == more[|more| - 1] == Apply(run[|run| - 1], step)
  {
    t := Apply(run[|run| - 1], step);
    assert Next(run[|run| - 1], t);
    more := run + [t];
  }

  lemma FinishEffect(c: C.Control, finisher: nat, ec: ErrorCode)
    requires C.Enabled(c, C.Call(finisher, C.FinishWait(ec)))
    ensures var p := C.Apply(c, C.Call(finisher, C.FinishWait(ec)));
            C.Enabled(p, C.Advance(finisher, false)) && C.Apply(p, C.Advance(finisher, false)).shared.state.Stopped?
  {}

  /** A stopped server does not mean stopped listeners: a cancelled wait on any running listener
      can finish, and stops the server, while the listener goes on running. */
  lemma StoppedServerRunningListener(a: A.Listener, control: C.Control, finisher: nat)
    returns (run: seq<Server>, t: Server)
    requires CanBegin([a], control, finisher) && a.life.state.Running?
    ensures IsRun(run, [a], control, finisher) && t == run[|run| - 1]
    ensures t.control.shared.state.Stopped?
    ensures |t.wait.listeners| == 1 && t.wait.listeners[0].life == a.life
  {
    assert [a][0] == a;
    var waits, w := M.CancelledWaitPromisesNothing(a);
    LiftedIsRun(waits, [a], control, finisher);
    FinishEffect(control, finisher, OperationAborted);
    run, t := RunOn(Lifted(waits, control, finisher), [a], control, finisher,
                    Control(C.Call(finisher, C.FinishWait(OperationAborted))));
    run, t := RunOn(run, [a], control, finisher, Control(C.Advance(finisher, false)));
  }
}
