/** A server wait: an operation group over a snapshot of listeners of either kind, each
    running on its own strand while the group is initiated, cancelled and completed. */
module ServerWait {
  import opened Types
  import A = AbstractListener
  import W = Waits
  import G = OperationGroup

  /** `ids[i]` is the wait the group issued on listener `i`. */
  datatype Server = Server(listeners: seq<A.Listener>, ids: seq<nat>, group: G.Group)
  {
    predicate Shaped() {
      && |listeners| == |ids| == group.Size()
      && G.WellFormed(group)
    }
  }

  function Issued(listeners: seq<A.Listener>): Server {
    Server(listeners, seq(|listeners|, _ => 0), G.Fresh(|listeners|, false))
  }

  datatype Step =
    | Move(i: nat, m: A.Move)                  // anything a listener or its other users do
    | Launch                                   // the loop issues the next wait
    | LaunchFails(code: ErrorCode)             // issuing it throws
    | Loop(g: G.Step)                          // the loop reads or passes on the cancel flag
    | CountFailure
    | ChildDone(i: nat)                        // a completed wait reports to the group
    | Cancel(g: G.Step)                        // a cancelling thread

  function CodeOf(r: W.Result): ErrorCode {
    match r
    case Released(ec) => ec
    case Cancelled => OperationAborted
  }

  function Results(s: Server, i: nat): seq<W.Result>
    requires s.Shaped() && i < s.group.Size()
  {
    A.Results(s.listeners[i], s.ids[i])
  }

  /** Only the group can cancel the waits it issued. */
  predicate Foreign(s: Server, i: nat, m: A.Move)
    requires s.Shaped() && i < s.group.Size()
  {
    s.group.children[i].Initiated? ==> m != A.SignalWait(s.ids[i])
  }

  predicate Enabled(s: Server, step: Step)
    requires s.Shaped()
  {
    match step
    case Move(i, m) => i < s.group.Size() && A.Enabled(s.listeners[i], m) && Foreign(s, i, m)
    case Launch => G.Enabled(s.group, G.Initiate(Returned))
    case LaunchFails(code) => G.Enabled(s.group, G.Initiate(Threw(code)))
    case Loop(g) => (g.ReadFlag? || g.EmitFlag?) && G.Enabled(s.group, g)
    case CountFailure => G.Enabled(s.group, G.CountFailure)
    case ChildDone(i) => i < s.group.Size() && |Results(s, i)| == 1 && G.Enabled(s.group, G.ChildDone(i, NoError))
    case Cancel(g) => (g.CancelBegin? || g.CancelEmit?) && G.Enabled(s.group, g)
  }

  /** The child a step emits a signal to, if any. */
  predicate Signalled(s: Server, step: Step, i: nat)
    requires s.Shaped() && Enabled(s, step) && i < s.group.Size()
  {
    match step
    case Loop(g) => g.EmitFlag? && s.group.loop.next == i && s.group.loop.phase.kinds != {}
    case Cancel(g) => g.CancelEmit? && s.group.signals.cancellers[g.thread].at == i && s.group.children[i].Initiated?
    case _ => false
  }

  /** What the step is to listener `i`. */
  function MoveOn(s: Server, step: Step, i: nat): A.Move
    requires s.Shaped() && Enabled(s, step) && i < s.group.Size()
  {
    if step.Move? && step.i == i then step.m
    else if step.Launch? && s.group.loop.next == i then A.IssueWait
    else if Signalled(s, step, i) then A.SignalWait(s.ids[i])
    else A.Quiet
  }

  /** What the step is to the group. */
  function OnGroup(s: Server, step: Step): G.Group
    requires s.Shaped() && Enabled(s, step)
  {
    match step
    case Move(_, _) => s.group
    case Launch => G.Apply(s.group, G.Initiate(Returned))
    case LaunchFails(code) => G.Apply(s.group, G.Initiate(Threw(code)))
    case Loop(g) => G.Apply(s.group, g)
    case CountFailure => G.Apply(s.group, G.CountFailure)
    case ChildDone(i) => G.Apply(s.group, G.ChildDone(i, CodeOf(Results(s, i)[0])))
    case Cancel(g) => G.Apply(s.group, g)
  }

  predicate Ready(s: Server, step: Step)
    requires s.Shaped()
  {
    Enabled(s, step) && forall i :: 0 <= i < s.group.Size() ==> A.Enabled(s.listeners[i], MoveOn(s, step, i))
  }

  function Apply(s: Server, step: Step): Server
    requires s.Shaped() && Ready(s, step)
  {
    Server(
      seq(s.group.Size(), i requires 0 <= i < s.group.Size() => A.Do(s.listeners[i], MoveOn(s, step, i))),
      if step.Launch? then s.ids[s.group.loop.next := s.listeners[s.group.loop.next].waits.lastId + 1] else s.ids,
      OnGroup(s, step))
  }

  // ----- the invariant -----

  /** The wait of a launched child exists, is marked as cancelled if and only if the child has
      been sent a signal, and has completed if the group has counted it. */
  predicate ChildInv(s: Server, i: nat)
    requires s.Shaped() && i < s.group.Size()
  {
    s.group.children[i].Initiated? ==>
      && s.ids[i] in s.listeners[i].waits.ops
      && (s.listeners[i].waits.ops[s.ids[i]].cancelled <==> s.group.signals.received[i] != {})
      && (s.group.tally.done[i] ==> |Results(s, i)| == 1)
  }

  /** The code child `i` was or will be counted with. */
  function Code(s: Server, i: nat): ErrorCode
    requires s.Shaped() && i < s.group.Size()
  {
    match s.group.children[i]
    case Waiting => NoError
    case Failed(ec) => ec
    case Initiated => if Results(s, i) == [] then NoError else CodeOf(Results(s, i)[0])
  }

  function Codes(s: Server): seq<ErrorCode>
    requires s.Shaped()
  {
    seq(s.group.Size(), i requires 0 <= i < s.group.Size() => Code(s, i))
  }

  predicate Inv(s: Server) {
    && s.Shaped()
    && G.Inv(s.group)
    && (forall i :: 0 <= i < s.group.Size() ==> A.Inv(s.listeners[i]) && ChildInv(s, i))
    && G.Tallied(s.group.tally, Codes(s))
  }

  lemma IssuedIsGood(listeners: seq<A.Listener>)
    requires listeners != [] && forall i :: 0 <= i < |listeners| ==> A.Inv(listeners[i])
    ensures Inv(Issued(listeners))
  {
    G.FreshIsGood(|listeners|, false);
  }

  /** Nothing but `Enabled` keeps a step from being taken. */
  lemma EnabledIsReady(s: Server, step: Step)
    requires Inv(s) && Enabled(s, step)
    ensures Ready(s, step)
  {
    forall i | 0 <= i < s.group.Size() ensures A.Enabled(s.listeners[i], MoveOn(s, step, i)) {
      assert ChildInv(s, i);
    }
  }

  lemma GroupKeepsInv(s: Server, step: Step)
    requires Inv(s) && Enabled(s, step)
    ensures G.Inv(OnGroup(s, step)) && OnGroup(s, step).Size() == s.group.Size()
  {
    match step
    case Move(_, _) =>
    case Launch => G.StepKeepsInv(s.group, G.Initiate(Returned));
    case LaunchFails(code) => G.StepKeepsInv(s.group, G.Initiate(Threw(code)));
    case Loop(g) => G.StepKeepsInv(s.group, g);
    case CountFailure => G.StepKeepsInv(s.group, G.CountFailure);
    case ChildDone(i) => G.StepKeepsInv(s.group, G.ChildDone(i, CodeOf(Results(s, i)[0])));
    case Cancel(g) => G.StepKeepsInv(s.group, g);
  }

  /** What a step can do to the group's record of child `i`. */
  predicate ChildRecord(g: G.Group, h: G.Group, i: nat, launched: bool, counted: bool)
    requires G.WellFormed(g) && i < g.Size()
  {
    && h.Size() == g.Size() && G.WellFormed(h)
    && (h.children[i] == g.children[i] || (g.children[i].Waiting? && i == g.loop.next && !h.tally.done[i]))
    && (h.children[i].Initiated? && g.children[i].Waiting? ==> launched && i == g.loop.next)
    && (g.tally.done[i] ==> h.tally.done[i])
    && (h.tally.done[i] && !g.tally.done[i] && h.children[i].Initiated? ==> counted)
    && g.signals.cancelled <= h.signals.cancelled
  }

  lemma GroupOnChild(s: Server, step: Step, i: nat)
    requires Inv(s) && Enabled(s, step) && i < s.group.Size()
    ensures ChildRecord(s.group, OnGroup(s, step), i, step.Launch?, step == ChildDone(i))
  {
    match step
    case Move(_, _) =>
    case Launch => G.StepOnChild(s.group, G.Initiate(Returned), i);
    case LaunchFails(code) => G.StepOnChild(s.group, G.Initiate(Threw(code)), i);
    case Loop(g) => G.StepOnChild(s.group, g, i);
    case CountFailure => G.StepOnChild(s.group, G.CountFailure, i);
    case ChildDone(j) => G.StepOnChild(s.group, G.ChildDone(j, CodeOf(Results(s, j)[0])), i);
    case Cancel(g) => G.StepOnChild(s.group, g, i);
  }

  /** A child has been sent a signal if it had been or is being sent one. */
  lemma ReceivesIff(s: Server, step: Step, i: nat)
    requires Inv(s) && Enabled(s, step) && i < s.group.Size() && s.group.children[i].Initiated?
    ensures |OnGroup(s, step).signals.received| == s.group.Size()
    ensures OnGroup(s, step).signals.received[i] != {} <==>
              s.group.signals.received[i] != {} || Signalled(s, step, i)
  {
    match step
    case Loop(g) => NonEmpty(s.group.signals.received[i], if g.EmitFlag? then s.group.loop.phase.kinds else {});
    case Cancel(g) =>
      if g.CancelEmit? { NonEmpty(s.group.signals.received[i], s.group.signals.cancellers[g.thread].kinds); }
    case CountFailure =>
    case _ =>
  }

  lemma NonEmpty(a: set<G.Kind>, b: set<G.Kind>)
    ensures a + b != {} <==> a != {} || b != {}
  {
    if x :| x in a { assert x in a + b; }
    if x :| x in b { assert x in a + b; }
  }

  /** What a step does to the wait of child `i`, once launched. */
  predicate WaitStep(s: Server, t: Server, i: nat)
    requires s.Shaped() && t.Shaped() && i < s.group.Size() == t.group.Size()
  {
    && (s.group.children[i].Initiated? ==>
          && t.group.children[i].Initiated? && t.ids[i] == s.ids[i]
          && (Results(s, i) != [] ==> Results(t, i) == Results(s, i))
          && (Results(s, i) == [] && Results(t, i) != [] && Results(t, i) != [W.Cancelled] ==>
                t.listeners[i].life.state.Stopped? && Results(t, i) == [W.Released(t.listeners[i].life.terminal)]))
    && (!s.group.children[i].Initiated? && t.group.children[i].Initiated? ==> Results(t, i) == [])
  }

  lemma OldChildStep(s: Server, step: Step, i: nat)
    requires Inv(s) && Ready(s, step) && i < s.group.Size() && s.group.children[i].Initiated?
    requires Apply(s, step).Shaped() && Apply(s, step).group.Size() == s.group.Size()
    ensures ChildInv(Apply(s, step), i) && WaitStep(s, Apply(s, step), i)
  {
    var a, m := s.listeners[i], MoveOn(s, step, i);
    assert ChildInv(s, i);
    GroupOnChild(s, step, i);
    ReceivesIff(s, step, i);
    A.MoveKeepsWait(a, m, s.ids[i]);
    A.MoveCompletesAtMostOnce(a, m, s.ids[i]);
    assert Apply(s, step).listeners[i] == A.Do(a, m);
    assert Apply(s, step).ids[i] == s.ids[i];
  }

  lemma NewChildStep(s: Server, step: Step, i: nat)
    requires Inv(s) && Ready(s, step) && i < s.group.Size() && !s.group.children[i].Initiated?
    requires Apply(s, step).Shaped() && Apply(s, step).group.Size() == s.group.Size()
    ensures ChildInv(Apply(s, step), i) && WaitStep(s, Apply(s, step), i)
  {
    GroupOnChild(s, step, i);
    W.IssueKeepsInv(s.listeners[i].waits);
    assert Apply(s, step).listeners[i] == A.Do(s.listeners[i], MoveOn(s, step, i));
  }

  lemma ShapeKept(s: Server, step: Step)
    requires Inv(s) && Ready(s, step)
    ensures Apply(s, step).Shaped() && Apply(s, step).group.Size() == s.group.Size() && G.Inv(Apply(s, step).group)
  {
    GroupKeepsInv(s, step);
  }

  /** Every child, launched or not. */
  lemma ChildrenStep(s: Server, step: Step)
    requires Inv(s) && Ready(s, step)
    ensures Apply(s, step).Shaped() && Apply(s, step).group.Size() == s.group.Size()
    ensures forall i :: 0 <= i < s.group.Size() ==> A.Inv(Apply(s, step).listeners[i])
    ensures forall i :: 0 <= i < s.group.Size() ==> ChildInv(Apply(s, step), i) && WaitStep(s, Apply(s, step), i)
  {
    ShapeKept(s, step);
    forall i | 0 <= i < s.group.Size() ensures A.Inv(Apply(s, step).listeners[i]) {
      A.MoveKeepsInv(s.listeners[i], MoveOn(s, step, i));
    }
    forall i | 0 <= i < s.group.Size() ensures ChildInv(Apply(s, step), i) && WaitStep(s, Apply(s, step), i) {
      if s.group.children[i].Initiated? { OldChildStep(s, step, i); } else { NewChildStep(s, step, i); }
    }
  }

  // ----- the tally of codes -----

  /** Who was counted by the step, if anyone, and with what. */
  lemma CallsStep(s: Server, step: Step)
    requires Inv(s) && Ready(s, step)
    ensures G.CountsOne(s.group.tally, OnGroup(s, step).tally, Codes(s))
  {
    match step
    case ChildDone(i) => assert Codes(s)[i] == CodeOf(Results(s, i)[0]);
    case CountFailure =>
      var i := s.group.loop.failNext;
      if s.group.children[i].Failed? && s.group.children[i].ec != NoError {
        assert Codes(s)[i] == s.group.children[i].ec;
      }
    case _ =>
  }

  /** A counted child's code is settled. */
  lemma CodesSettled(s: Server, step: Step, i: nat)
    requires Inv(s) && Ready(s, step) && i < s.group.Size() && Apply(s, step).Shaped()
    requires Apply(s, step).group.Size() == s.group.Size()
    requires Apply(s, step).group.tally.done[i]
    ensures Code(Apply(s, step), i) == Code(s, i)
  {
    ChildrenStep(s, step);
    GroupOnChild(s, step, i);
    assert ChildInv(s, i);
    assert WaitStep(s, Apply(s, step), i);
  }

  lemma TalliedKept(s: Server, step: Step)
    requires Inv(s) && Ready(s, step) && Apply(s, step).Shaped() && Apply(s, step).group.Size() == s.group.Size()
    ensures G.Tallied(Apply(s, step).group.tally, Codes(Apply(s, step)))
  {
    var t := Apply(s, step);
    CallsStep(s, step);
    forall i | 0 <= i < s.group.Size() && t.group.tally.done[i] ensures Codes(t)[i] == Codes(s)[i] {
      CodesSettled(s, step, i);
    }
    G.TalliedKept(s.group.tally, t.group.tally, Codes(s), Codes(t));
  }

  lemma StepKeepsInv(s: Server, step: Step)
    requires Inv(s) && Ready(s, step)
    ensures Inv(Apply(s, step))
  {
    ShapeKept(s, step);
    ChildrenStep(s, step);
    TalliedKept(s, step);
  }

  // ----- every run -----

  ghost predicate Next(s: Server, t: Server) {
    s.Shaped() && exists step :: Ready(s, step) && t == Apply(s, step)
  }

  /** A wait on a snapshot of listeners that may be in any state they can be in. */
  ghost predicate IsRun(run: seq<Server>, listeners: seq<A.Listener>) {
    && listeners != [] && (forall i :: 0 <= i < |listeners| ==> A.Inv(listeners[i]))
    && |run| > 0 && run[0] == Issued(listeners)
    && forall k {:trigger run[k]} :: 0 < k < |run| ==> Next(run[k - 1], run[k])
  }

  lemma NextFacts(s: Server, t: Server)
    requires Inv(s) && Next(s, t)
    ensures Inv(t) && t.group.Size() == s.group.Size()
    ensures forall i :: 0 <= i < s.group.Size() ==> WaitStep(s, t, i)
    ensures s.group.signals.cancelled <= t.group.signals.cancelled
  {
    var step :| Ready(s, step) && t == Apply(s, step);
    StepKeepsInv(s, step);
    ChildrenStep(s, step);
    GroupOnChild(s, step, 0);
  }

  lemma {:induction false} RunKeepsInv(run: seq<Server>, listeners: seq<A.Listener>, k: nat)
    requires IsRun(run, listeners) && k < |run|
    ensures Inv(run[k]) && run[k].group.Size() == |listeners|
  {
    if k == 0 {
      IssuedIsGood(listeners);
    } else {
      RunKeepsInv(run, listeners, k - 1);
      NextFacts(run[k - 1], run[k]);
    }
  }

  /** Listener `i` was stopped with error `ec` at an instant after the wait was issued, and
      no later than `j`. */
  ghost predicate SawStop(run: seq<Server>, j: nat, i: nat, ec: ErrorCode) {
    exists k :: 0 < k <= j && k < |run| && StoppedWith(run[k], i, ec)
  }

  predicate StoppedWith(s: Server, i: nat, ec: ErrorCode) {
    i < |s.listeners| && s.listeners[i].life.state.Stopped? && s.listeners[i].life.terminal == ec
  }

  /** The wait on child `i` has completed, and not as cancelled. */
  predicate ReleasedChild(s: Server, i: nat) {
    && s.Shaped() && i < s.group.Size() && s.group.children[i].Initiated?
    && Results(s, i) != [] && Results(s, i) != [W.Cancelled]
  }

  lemma ReleasedStep(s: Server, t: Server, i: nat)
    requires Inv(s) && Next(s, t) && ReleasedChild(t, i)
    ensures ReleasedChild(s, i) ==> Code(s, i) == Code(t, i)
    ensures !ReleasedChild(s, i) ==> StoppedWith(t, i, Code(t, i))
  {
    NextFacts(s, t);
    assert WaitStep(s, t, i);
  }

  /** Child by child, whatever was cancelled and whatever failed: a launched child whose wait
      did not end as cancelled saw its listener stopped, with the very code it reports. */
  lemma {:induction false} ReleasedChildSawStop(run: seq<Server>, listeners: seq<A.Listener>, j: nat, i: nat)
    requires IsRun(run, listeners) && j < |run| && ReleasedChild(run[j], i)
    ensures SawStop(run, j, i, Code(run[j], i))
  {
    if j > 0 {
      var ec := ReleasedNext(run, listeners, j, i);
      if ReleasedChild(run[j - 1], i) {
        ReleasedChildSawStop(run, listeners, j - 1, i);
        SawStopLater(run, j, i, ec);
      }
    }
  }

  lemma ReleasedNext(run: seq<Server>, listeners: seq<A.Listener>, j: nat, i: nat) returns (ec: ErrorCode)
    requires IsRun(run, listeners) && 0 < j < |run| && ReleasedChild(run[j], i)
    ensures ec == Code(run[j], i)
    ensures if ReleasedChild(run[j - 1], i) then Code(run[j - 1], i) == ec else SawStop(run, j, i, ec)
  {
    RunKeepsInv(run, listeners, j - 1);
    ec := Code(run[j], i);
    ReleasedStep(run[j - 1], run[j], i);
  }

  lemma SawStopLater(run: seq<Server>, j: nat, i: nat, ec: ErrorCode)
    requires 0 < j && SawStop(run, j - 1, i, ec)
    ensures SawStop(run, j, i, ec)
  {
    var k :| 0 < k <= j - 1 && k < |run| && StoppedWith(run[k], i, ec);
  }

  /** Why a child of a completed group was counted. */
  lemma CountedChild(s: Server, i: nat)
    requires Inv(s) && s.group.tally.results != [] && i < s.group.Size()
    ensures s.group.children[i].Failed? || Results(s, i) == [W.Cancelled] || ReleasedChild(s, i)
    ensures s.group.signals.cancelled == {} && !s.group.children[i].Failed? ==> ReleasedChild(s, i)
  {
    G.OwedNothing(s.group.tally.done);
    assert ChildInv(s, i) && s.group.tally.done[i];
    if s.group.children[i].Initiated? {
      var id := s.ids[i];
      assert W.Placed(s.listeners[i].waits.ops[id], id in s.listeners[i].waits.waiters);
    }
  }

  /** A server wait completes at most once. Each of its children then failed to be initiated,
      was cancelled, or saw its listener stopped at some instant since the wait was issued; if
      the wait was neither cancelled nor failed in its initiation, they all did. It reports
      success if and only if every child's code is none, and otherwise the code of a child. */
  lemma ServerWaitSawEveryStop(run: seq<Server>, listeners: seq<A.Listener>, j: nat)
    requires IsRun(run, listeners) && j < |run|
    requires run[j].Shaped() && run[j].group.tally.results != []
    ensures run[j].group.Size() == |listeners| && |run[j].group.tally.results| == 1
    ensures forall i :: 0 <= i < |listeners| ==>
              || run[j].group.children[i].Failed?
              || Results(run[j], i) == [W.Cancelled]
              || SawStop(run, j, i, Code(run[j], i))
    ensures run[j].group.signals.cancelled == {} ==>
              forall i :: 0 <= i < |listeners| && !run[j].group.children[i].Failed? ==>
                SawStop(run, j, i, Code(run[j], i))
    ensures run[j].group.tally.results == [NoError] <==> forall i :: 0 <= i < |listeners| ==> Code(run[j], i) == NoError
    ensures exists i :: 0 <= i < |listeners| && Code(run[j], i) == run[j].group.tally.results[0]
  {
    RunKeepsInv(run, listeners, j);
    var s := run[j];
    forall i | 0 <= i < |listeners|
      ensures s.group.children[i].Failed? || Results(s, i) == [W.Cancelled] || SawStop(run, j, i, Code(s, i))
      ensures s.group.signals.cancelled == {} && !s.group.children[i].Failed? ==> SawStop(run, j, i, Code(s, i))
    {
      CountedChild(s, i);
      if ReleasedChild(s, i) { ReleasedChildSawStop(run, listeners, j, i); }
    }
    SuccessIff(s);
  }

  lemma SuccessIff(s: Server)
    requires Inv(s) && s.group.tally.results != []
    ensures |s.group.tally.results| == 1
    ensures s.group.tally.results == [NoError] <==> forall i :: 0 <= i < s.group.Size() ==> Code(s, i) == NoError
    ensures exists i :: 0 <= i < s.group.Size() && Code(s, i) == s.group.tally.results[0]
  {
    var codes := Codes(s);
    G.ResultIsAChilds(s.group, codes);
    assert forall i :: 0 <= i < |codes| ==> codes[i] == Code(s, i);
    var i :| 0 <= i < |codes| && codes[i] == s.group.tally.results[0];
    assert Code(s, i) == s.group.tally.results[0];
  }

  // ----- a cancelled wait ends -----

  /** Once a cancelling thread has gone past a child and so has the initiation loop, the wait on
      that child has been cancelled: it has completed, or a task that is queued for it will
      complete it as cancelled. */
  lemma CancelledChildEnds(run: seq<Server>, listeners: seq<A.Listener>, k: nat, thread: nat, i: nat)
    requires IsRun(run, listeners) && k < |run| && i < |listeners| && run[k].Shaped()
    requires run[k].group.Size() == |listeners| && run[k].group.children[i].Initiated? && G.Passed(run[k].group, i)
    requires thread in run[k].group.signals.cancellers && i < run[k].group.signals.cancellers[thread].at
    ensures var a, id := run[k].listeners[i], run[k].ids[i];
            && id in a.waits.ops && a.waits.ops[id].cancelled
            && (A.Results(a, id) == [] ==>
                  if A.Enabled(a, A.SubmitWait(id)) then A.Results(A.Do(a, A.SubmitWait(id)), id) == [W.Cancelled]
                  else A.Enabled(a, A.CancelWait(id)) && A.Results(A.Do(a, A.CancelWait(id)), id) == [W.Cancelled])
  {
    RunKeepsInv(run, listeners, k);
    PassedIsCancelled(run[k], thread, i);
    var a, id := run[k].listeners[i], run[k].ids[i];
    if A.Results(a, id) == [] { A.SignalIsNeverLost(a, id); }
  }

  lemma PassedIsCancelled(s: Server, thread: nat, i: nat)
    requires Inv(s) && i < s.group.Size() && s.group.children[i].Initiated? && G.Passed(s.group, i)
    requires thread in s.group.signals.cancellers && i < s.group.signals.cancellers[thread].at
    ensures s.ids[i] in s.listeners[i].waits.ops && s.listeners[i].waits.ops[s.ids[i]].cancelled
  {
    assert ChildInv(s, i);
    var kinds := s.group.signals.cancellers[thread].kinds;
    assert G.Covered(s.group, i, kinds);
    var x :| x in kinds;
    assert x in s.group.signals.received[i];
  }

  /** And nobody's wait is cancelled otherwise. */
  lemma UncancelledWaitIsLeftAlone(run: seq<Server>, listeners: seq<A.Listener>, k: nat, i: nat)
    requires IsRun(run, listeners) && k < |run| && i < |listeners| && run[k].Shaped()
    requires run[k].group.Size() == |listeners| && run[k].group.children[i].Initiated?
    requires run[k].group.signals.cancelled == {}
    ensures run[k].ids[i] in run[k].listeners[i].waits.ops
    ensures !run[k].listeners[i].waits.ops[run[k].ids[i]].cancelled && W.Cancelled !in Results(run[k], i)
  {
    RunKeepsInv(run, listeners, k);
    var s := run[k];
    assert ChildInv(s, i) && s.group.signals.received[i] == {};
    assert W.Placed(s.listeners[i].waits.ops[s.ids[i]], s.ids[i] in s.listeners[i].waits.waiters);
  }

  // ----- a cancelled wait promises less -----

  lemma RunOn(run: seq<Server>, listeners: seq<A.Listener>, step: Step) returns (more: seq<Server>, t: Server)
    requires IsRun(run, listeners) && run[|run| - 1].Shaped() && Enabled(run[|run| - 1], step)
    ensures Ready(run[|run| - 1], step) && t == Apply(run[|run| - 1], step)
    ensures IsRun(more, listeners) && more == run + [t] && Inv(t) && t.group.Size() == |listeners|
  {
    RunKeepsInv(run, listeners, |run| - 1);
    t := Advanced(run[|run| - 1], step);
    more := run + [t];
    RunExtends(run, listeners, t);
  }

  lemma RunExtends(run: seq<Server>, listeners: seq<A.Listener>, t: Server)
    requires IsRun(run, listeners) && Next(run[|run| - 1], t)
    ensures IsRun(run + [t], listeners)
  {}

  lemma Advanced(s: Server, step: Step) returns (t: Server)
    requires Inv(s) && Enabled(s, step)
    ensures Ready(s, step) && t == Apply(s, step) && Next(s, t) && Inv(t) && t.group.Size() == s.group.Size()
  {
    EnabledIsReady(s, step);
    t := Apply(s, step);
    StepKeepsInv(s, step);
    ShapeKept(s, step);
  }

  /** One launched child whose wait `id` is still to be submitted. */
  predicate Launched(s: Server, a: A.Listener, id: nat) {
    && s.Shaped() && s.group.children == [G.Initiated] && s.ids == [id]
    && s.listeners[0].life == a.life && s.group.tally == G.Fresh(1, false).tally
    && id in s.listeners[0].waits.ops && s.listeners[0].waits.ops[id].submitQueued
    && s.listeners[0].waits.ops[id].results == []
  }

  lemma LaunchOne(a: A.Listener) returns (run: seq<Server>, s: Server, id: nat)
    requires A.Inv(a)
    ensures IsRun(run, [a]) && s == run[|run| - 1] && Launched(s, a, id)
    ensures s.group.signals.cancellers == map[]
  {
    run := [Issued([a])];
    id := a.waits.lastId + 1;
    run, s := RunOn(run, [a], Launch);
  }

  lemma BeginEffect(s: Server, a: A.Listener, id: nat)
    requires Launched(s, a, id) && s.group.signals.cancellers == map[]
    requires Ready(s, Cancel(G.CancelBegin(0, {G.Total})))
    ensures Launched(Apply(s, Cancel(G.CancelBegin(0, {G.Total}))), a, id)
    ensures 0 in Apply(s, Cancel(G.CancelBegin(0, {G.Total}))).group.signals.cancellers
    ensures Apply(s, Cancel(G.CancelBegin(0, {G.Total}))).group.signals.cancellers[0].at == 0
  {}

  lemma EmitEffect(s: Server, a: A.Listener, id: nat)
    requires Launched(s, a, id) && 0 in s.group.signals.cancellers && s.group.signals.cancellers[0].at == 0
    requires Ready(s, Cancel(G.CancelEmit(0)))
    ensures Launched(Apply(s, Cancel(G.CancelEmit(0))), a, id)
    ensures Apply(s, Cancel(G.CancelEmit(0))).listeners[0].waits.ops[id].cancelled
  {
    assert MoveOn(s, Cancel(G.CancelEmit(0)), 0) == A.SignalWait(id);
  }

  /** The launched wait has completed as cancelled and the group has not been told. */
  predicate Abandoned(s: Server, a: A.Listener) {
    && s.Shaped() && s.group.children == [G.Initiated]
    && s.listeners[0].life == a.life && s.group.tally == G.Fresh(1, false).tally
    && Results(s, 0) == [W.Cancelled]
  }

  lemma SubmitEffect(s: Server, a: A.Listener, id: nat)
    requires Launched(s, a, id) && s.listeners[0].waits.ops[id].cancelled
    requires Ready(s, Move(0, A.SubmitWait(id)))
    ensures Abandoned(Apply(s, Move(0, A.SubmitWait(id))), a)
  {
    assert MoveOn(s, Move(0, A.SubmitWait(id)), 0) == A.SubmitWait(id);
  }

  lemma CountEffect(s: Server, a: A.Listener)
    requires Abandoned(s, a) && Ready(s, ChildDone(0))
    ensures var t := Apply(s, ChildDone(0));
            t.group.tally.results == [OperationAborted] && |t.listeners| == 1 && t.listeners[0].life == a.life
  {
    assert MoveOn(s, ChildDone(0), 0) == A.Quiet;
    assert s.group.tally.done[0] == false;
  }

  lemma BeginOne(a: A.Listener, run: seq<Server>, id: nat) returns (more: seq<Server>, s: Server)
    requires IsRun(run, [a]) && Launched(run[|run| - 1], a, id)
    requires run[|run| - 1].group.signals.cancellers == map[]
    ensures IsRun(more, [a]) && s == more[|more| - 1] && Launched(s, a, id)
    ensures 0 in s.group.signals.cancellers && s.group.signals.cancellers[0].at == 0
  {
    more, s := RunOn(run, [a], Cancel(G.CancelBegin(0, {G.Total})));
    BeginEffect(run[|run| - 1], a, id);
  }

  lemma SignalOne(a: A.Listener, run: seq<Server>, id: nat) returns (more: seq<Server>, s: Server)
    requires IsRun(run, [a]) && Launched(run[|run| - 1], a, id)
    requires 0 in run[|run| - 1].group.signals.cancellers && run[|run| - 1].group.signals.cancellers[0].at == 0
    ensures IsRun(more, [a]) && s == more[|more| - 1] && Launched(s, a, id)
    ensures s.listeners[0].waits.ops[id].cancelled
  {
    more, s := RunOn(run, [a], Cancel(G.CancelEmit(0)));
    EmitEffect(run[|run| - 1], a, id);
  }

  /** A cancelled server wait completes although its listener never left `Running`. */
  lemma CancelledWaitPromisesNothing(a: A.Listener) returns (run: seq<Server>, s: Server)
    requires A.Inv(a) && a.life.state.Running?
    ensures IsRun(run, [a]) && s == run[|run| - 1] && s.Shaped()
    ensures s.group.tally.results == [OperationAborted]
    ensures s.group.Size() == 1 && s.listeners[0].life == a.life
  {
    var id;
    run, s, id := LaunchOne(a);
    run, s := BeginOne(a, run, id);
    run, s := SignalOne(a, run, id);
    run, s := AbandonOne(a, run, id);
    run, s := CountOne(a, run);
  }

  lemma AbandonedIsCountable(s: Server, a: A.Listener)
    requires Abandoned(s, a)
    ensures Enabled(s, ChildDone(0))
  {
    assert s.group.tally.done[0] == false;
  }

  lemma CountOne(a: A.Listener, run: seq<Server>) returns (more: seq<Server>, s: Server)
    requires IsRun(run, [a]) && Abandoned(run[|run| - 1], a)
    ensures IsRun(more, [a]) && s == more[|more| - 1] && s.Shaped() && s.group.Size() == 1
    ensures s.group.tally.results == [OperationAborted] && s.listeners[0].life == a.life
  {
    AbandonedIsCountable(run[|run| - 1], a);
    more, s := RunOn(run, [a], ChildDone(0));
    CountEffect(run[|run| - 1], a);
  }

  lemma AbandonOne(a: A.Listener, run: seq<Server>, id: nat) returns (more: seq<Server>, s: Server)
    requires IsRun(run, [a]) && Launched(run[|run| - 1], a, id)
    requires run[|run| - 1].listeners[0].waits.ops[id].cancelled
    ensures IsRun(more, [a]) && s == more[|more| - 1] && Abandoned(s, a)
  {
    more, s := RunOn(run, [a], Move(0, A.SubmitWait(id)));
    SubmitEffect(run[|run| - 1], a, id);
  }
}
