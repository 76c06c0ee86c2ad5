/** A server wait completes, because its listeners stop or because it is cancelled. In the first
    case the listeners are real ones of either kind, each running its own fair behaviour, of
    which the server sees the abstract face; in the second they may do as they like. */
module ServerLiveness {
  import opened Types
  import opened M = ServerWait
  import A = AbstractListener
  import G = OperationGroup
  import AS = Acceptor
  import AL = AcceptorLiveness
  import KS = Socket
  import KL = SocketLiveness

  // ----- listeners -----

  /** What one listener does from the instant the wait is issued. */
  datatype Machine =
    | Accepting(options: Options, acceptor: nat -> AS.State, acceptorSteps: nat -> AS.Step)
    | Single(socket: nat -> KS.State, socketSteps: nat -> KS.Step)

  function Face(m: Machine, k: nat): A.Listener {
    match m
    case Accepting(_, states, _) => states(k).face
    case Single(states, _) => states(k).face
  }

  /** A stop task is queued, or none is needed. */
  predicate StopQueued(m: Machine, k: nat) {
    match m
    case Accepting(_, states, _) => states(k).stopTasks > 0 || states(k).Phase().Stopped?
    case Single(states, _) => states(k).stopTasks > 0 || states(k).Phase().Stopped?
  }

  ghost predicate FairMachine(m: Machine) {
    match m
    case Accepting(o, states, steps) => AL.IsBehaviour(o, states, steps) && AL.Fair(states, steps)
    case Single(states, steps) => KL.IsBehaviour(states, steps) && KL.Fair(states, steps)
  }

  lemma MachineStops(m: Machine, k: nat) returns (j: nat)
    requires FairMachine(m) && StopQueued(m, k)
    ensures k <= j && Face(m, j).life.state.Stopped?
  {
    match m
    case Accepting(o, states, steps) =>
      if states(k).Phase().Stopped? { return k; }
      j := AL.StopRequestEventuallyStops(o, states, steps, k);
    case Single(states, steps) =>
      if states(k).Phase().Stopped? { return k; }
      j := KL.StopRequestEventuallyStops(states, steps, k);
  }

  // ----- the server -----

  ghost predicate IsBehaviour(servers: nat -> Server, steps: nat -> Step) {
    && Inv(servers(0))
    && forall k: nat {:trigger At(k)} ::
         servers(k).Shaped() && Ready(servers(k), steps(k)) && servers(k + 1) == Apply(servers(k), steps(k))
  }

  /** Listener `i` of the server is the machine `m`. */
  ghost predicate Carries(servers: nat -> Server, i: nat, m: Machine) {
    && FairMachine(m)
    && forall k: nat {:trigger At(k)} :: i < |servers(k).listeners| && servers(k).listeners[i] == Face(m, k)
  }

  /** What the initiating thread, a cancelling thread and the strands owe the wait. */
  datatype Duty =
    | LoopRuns
    | CountRuns
    | SubmitRuns(i: nat)
    | ReportRuns(i: nat)
    | EmitRuns(thread: nat)
    | CancelRuns(i: nat)
  {
    predicate Cancels() { EmitRuns? || CancelRuns? }
  }

  predicate SubmittedAt(s: Server, i: nat) {
    && s.Shaped() && i < s.group.Size()
    && s.group.children[i].Initiated? && A.Submitted(s.listeners[i], s.ids[i])
  }

  predicate Due(s: Server, d: Duty) {
    && s.Shaped()
    && match d
       case LoopRuns => s.group.loop.next < s.group.Size()
       case CountRuns => s.group.loop.next == s.group.Size() && s.group.loop.failNext < s.group.Size()
       case SubmitRuns(i) => i < s.group.Size() && s.group.children[i].Initiated? && !SubmittedAt(s, i)
       case ReportRuns(i) =>
         i < s.group.Size() && s.group.children[i].Initiated? && |Results(s, i)| == 1 && !s.group.tally.done[i]
       case EmitRuns(thread) => Walking(s, thread) && !WalkedPast(s, thread)
       case CancelRuns(i) =>
         i < s.group.Size() && s.group.children[i].Initiated? && A.Enabled(s.listeners[i], A.CancelWait(s.ids[i]))
  }

  /** A thread is cancelling the wait. */
  predicate Walking(s: Server, thread: nat) { thread in s.group.signals.cancellers }

  /** It has gone past every child. */
  predicate WalkedPast(s: Server, thread: nat) {
    Walking(s, thread) && s.group.Size() <= s.group.signals.cancellers[thread].at
  }

  predicate Does(s: Server, step: Step, d: Duty) {
    match d
    case LoopRuns => step.Launch? || step.LaunchFails? || step.Loop?
    case CountRuns => step.CountFailure?
    case SubmitRuns(i) => i < |s.ids| && step == Move(i, A.SubmitWait(s.ids[i]))
    case ReportRuns(i) => step == ChildDone(i)
    case EmitRuns(thread) => step == Cancel(G.CancelEmit(thread))
    case CancelRuns(i) => i < |s.ids| && step == Move(i, A.CancelWait(s.ids[i]))
  }

  predicate Discharged(s: Server, step: Step, d: Duty) { !Due(s, d) || Does(s, step, d) }

  ghost predicate Served(servers: nat -> Server, steps: nat -> Step, d: Duty, k: nat) {
    exists j: nat :: k <= j && Discharged(servers(j), steps(j), d)
  }

  /** Weak fairness. */
  ghost predicate Fair(servers: nat -> Server, steps: nat -> Step) {
    forall d: Duty, k: nat :: !d.Cancels() ==> Served(servers, steps, d, k)
  }

  /** The same of cancellation: a cancelling thread goes on, and a queued cancel task runs. */
  ghost predicate FairToCancel(servers: nat -> Server, steps: nat -> Step) {
    forall d: Duty, k: nat :: d.Cancels() ==> Served(servers, steps, d, k)
  }

  // ----- what never goes back -----

  function PhaseIndex(p: G.Phase): nat { if p.Initiating? then 0 else if p.Reading? then 1 else 2 }

  /** Steps left in the initiation loop. */
  function Left(g: G.Group): int { 3 * (g.Size() - g.loop.next) - PhaseIndex(g.loop.phase) }

  predicate Onward(s: Server, t: Server, i: nat) {
    && s.Shaped() && t.Shaped() && i < s.group.Size() == t.group.Size()
    && Left(t.group) <= Left(s.group)
    && s.group.loop.next <= t.group.loop.next && s.group.loop.failNext <= t.group.loop.failNext
    && (s.group.tally.done[i] ==> t.group.tally.done[i])
    && (!s.group.children[i].Waiting? ==> t.group.children[i] == s.group.children[i])
    && (SubmittedAt(s, i) ==> SubmittedAt(t, i))
    && (s.group.children[i].Initiated? && Results(s, i) != [] ==> Results(t, i) == Results(s, i))
  }

  lemma LoopOnward(g: G.Group, step: G.Step)
    requires G.Inv(g) && G.Enabled(g, step)
    ensures var h := G.Apply(g, step);
            && h.Size() == g.Size()
            && g.loop.next <= h.loop.next && g.loop.failNext <= h.loop.failNext
            && Left(h) <= Left(g)
            && (step.Initiate? || step.ReadFlag? || step.EmitFlag? ==> Left(h) < Left(g))
            && (step.CountFailure? ==> h.loop.failNext == g.loop.failNext + 1)
  {}

  lemma GroupOnward(s: Server, step: Step)
    requires Inv(s) && Ready(s, step)
    ensures var h := OnGroup(s, step);
            && h.Size() == s.group.Size()
            && s.group.loop.next <= h.loop.next && s.group.loop.failNext <= h.loop.failNext
            && Left(h) <= Left(s.group)
            && (Does(s, step, LoopRuns) ==> Left(h) < Left(s.group))
            && (Does(s, step, CountRuns) ==> h.loop.failNext == s.group.loop.failNext + 1)
  {
    match step
    case Move(_, _) =>
    case Launch => LoopOnward(s.group, G.Initiate(Returned));
    case LaunchFails(code) => LoopOnward(s.group, G.Initiate(Threw(code)));
    case Loop(g) => LoopOnward(s.group, g);
    case CountFailure => LoopOnward(s.group, G.CountFailure);
    case ChildDone(i) => LoopOnward(s.group, G.ChildDone(i, CodeOf(Results(s, i)[0])));
    case Cancel(g) => LoopOnward(s.group, g);
  }

  lemma StepOnward(s: Server, step: Step, i: nat)
    requires Inv(s) && Ready(s, step) && i < s.group.Size()
    ensures Inv(Apply(s, step)) && Onward(s, Apply(s, step), i)
    ensures Does(s, step, LoopRuns) ==> Left(Apply(s, step).group) < Left(s.group)
    ensures Does(s, step, CountRuns) ==> Apply(s, step).group.loop.failNext == s.group.loop.failNext + 1
  {
    StepKeepsInv(s, step);
    ChildrenStep(s, step);
    GroupOnChild(s, step, i);
    GroupOnward(s, step);
    assert WaitStep(s, Apply(s, step), i);
    SubmittedOnward(s, step, i);
  }

  lemma SubmittedOnward(s: Server, step: Step, i: nat)
    requires Inv(s) && Ready(s, step) && i < s.group.Size()
    ensures SubmittedAt(s, i) ==> SubmittedAt(Apply(s, step), i)
    ensures Does(s, step, SubmitRuns(i)) && s.group.children[i].Initiated? ==> SubmittedAt(Apply(s, step), i)
  {
    ShapeKept(s, step);
    GroupOnChild(s, step, i);
    assert ChildInv(s, i);
    assert Apply(s, step).listeners[i] == A.Do(s.listeners[i], MoveOn(s, step, i));
    if SubmittedAt(s, i) { A.MoveKeepsSubmitted(s.listeners[i], MoveOn(s, step, i), s.ids[i]); }
  }

  lemma ReportCounts(s: Server, i: nat)
    requires Inv(s) && Ready(s, ChildDone(i)) && i < s.group.Size()
    ensures Apply(s, ChildDone(i)).group.Size() == s.group.Size()
    ensures |Apply(s, ChildDone(i)).group.tally.done| == s.group.Size() && Apply(s, ChildDone(i)).group.tally.done[i]
  {}

  lemma {:induction false} BehaviourKeepsInv(servers: nat -> Server, steps: nat -> Step, j: nat)
    requires IsBehaviour(servers, steps)
    ensures Inv(servers(j)) && servers(j).group.Size() == servers(0).group.Size()
  {
    if j > 0 {
      BehaviourKeepsInv(servers, steps, j - 1);
      assert At(j - 1);
      StepKeepsInv(servers(j - 1), steps(j - 1));
      ShapeKept(servers(j - 1), steps(j - 1));
    }
  }

  lemma NextOnward(servers: nat -> Server, steps: nat -> Step, k: nat, i: nat)
    requires IsBehaviour(servers, steps) && i < servers(0).group.Size()
    ensures Onward(servers(k), servers(k), i) && Onward(servers(k), servers(k + 1), i)
  {
    BehaviourKeepsInv(servers, steps, k);
    assert At(k);
    StepOnward(servers(k), steps(k), i);
  }

  lemma {:induction false} BehaviourOnward(servers: nat -> Server, steps: nat -> Step, k: nat, j: nat, i: nat)
    requires IsBehaviour(servers, steps) && k <= j && i < servers(0).group.Size()
    ensures Onward(servers(k), servers(j), i)
    decreases j
  {
    if k < j {
      BehaviourOnward(servers, steps, k, j - 1, i);
      NextOnward(servers, steps, j - 1, i);
    } else {
      NextOnward(servers, steps, j, i);
    }
  }

  // ----- the loops end -----

  predicate LoopOver(s: Server) { s.group.loop.next == s.group.Size() }

  predicate CountOver(s: Server) { LoopOver(s) && s.group.loop.failNext == s.group.Size() }

  lemma LoopDischarged(s: Server, step: Step)
    requires Inv(s) && Ready(s, step) && Discharged(s, step, LoopRuns)
    ensures LoopOver(s) || 0 <= Left(Apply(s, step).group) < Left(s.group)
  {
    StepOnward(s, step, 0);
  }

  lemma LoopServed(servers: nat -> Server, steps: nat -> Step, k: nat) returns (j: nat)
    requires IsBehaviour(servers, steps) && Fair(servers, steps)
    ensures k <= j && (LoopOver(servers(j)) || 0 <= Left(servers(j + 1).group) < Left(servers(k).group))
  {
    assert Served(servers, steps, LoopRuns, k);
    j :| k <= j && Discharged(servers(j), steps(j), LoopRuns);
    BehaviourKeepsInv(servers, steps, j);
    BehaviourOnward(servers, steps, k, j, 0);
    assert At(j);
    LoopDischarged(servers(j), steps(j));
  }

  lemma {:induction false} LoopEnds(servers: nat -> Server, steps: nat -> Step, k: nat) returns (j: nat)
    requires IsBehaviour(servers, steps) && Fair(servers, steps)
    ensures k <= j && LoopOver(servers(j))
    decreases Left(servers(k).group)
  {
    j := LoopServed(servers, steps, k);
    if !LoopOver(servers(j)) {
      j := LoopEnds(servers, steps, j + 1);
    }
  }

  lemma CountDischarged(s: Server, step: Step)
    requires Inv(s) && Ready(s, step) && Discharged(s, step, CountRuns) && LoopOver(s)
    ensures CountOver(s) ||
            (LoopOver(Apply(s, step)) && s.group.loop.failNext < Apply(s, step).group.loop.failNext <= s.group.Size())
  {
    StepOnward(s, step, 0);
  }

  lemma CountServed(servers: nat -> Server, steps: nat -> Step, k: nat) returns (j: nat)
    requires IsBehaviour(servers, steps) && Fair(servers, steps) && LoopOver(servers(k))
    ensures k <= j && servers(k).group.Size() == servers(j + 1).group.Size()
    ensures || CountOver(servers(j))
            || (LoopOver(servers(j + 1))
                && servers(k).group.loop.failNext < servers(j + 1).group.loop.failNext <= servers(k).group.Size())
  {
    assert Served(servers, steps, CountRuns, k);
    j :| k <= j && Discharged(servers(j), steps(j), CountRuns);
    BehaviourKeepsInv(servers, steps, k);
    BehaviourKeepsInv(servers, steps, j);
    BehaviourKeepsInv(servers, steps, j + 1);
    BehaviourOnward(servers, steps, k, j, 0);
    assert At(j);
    CountDischarged(servers(j), steps(j));
  }

  lemma {:induction false} CountEnds(servers: nat -> Server, steps: nat -> Step, k: nat) returns (j: nat)
    requires IsBehaviour(servers, steps) && Fair(servers, steps) && LoopOver(servers(k))
    ensures k <= j && CountOver(servers(j))
    decreases servers(k).group.Size() - servers(k).group.loop.failNext
  {
    j := CountServed(servers, steps, k);
    if !CountOver(servers(j)) {
      j := CountEnds(servers, steps, j + 1);
    }
  }

  // ----- one child -----

  predicate Launched(s: Server, i: nat) { i < s.group.Size() && s.group.children[i].Initiated? }

  predicate Counted(s: Server, i: nat) { s.Shaped() && i < s.group.Size() && s.group.tally.done[i] }

  lemma SubmitDischarged(s: Server, step: Step, i: nat)
    requires Inv(s) && Ready(s, step) && Discharged(s, step, SubmitRuns(i)) && Launched(s, i)
    ensures SubmittedAt(s, i) || SubmittedAt(Apply(s, step), i)
  {
    SubmittedOnward(s, step, i);
  }

  lemma ChildSubmits(servers: nat -> Server, steps: nat -> Step, k: nat, i: nat) returns (j: nat)
    requires IsBehaviour(servers, steps) && Fair(servers, steps)
    requires i < servers(0).group.Size() && Launched(servers(k), i)
    ensures k <= j && SubmittedAt(servers(j), i)
  {
    assert Served(servers, steps, SubmitRuns(i), k);
    var end: nat :| k <= end && Discharged(servers(end), steps(end), SubmitRuns(i));
    BehaviourKeepsInv(servers, steps, end);
    BehaviourOnward(servers, steps, k, end, i);
    assert At(end);
    SubmitDischarged(servers(end), steps(end), i);
    j := if SubmittedAt(servers(end), i) then end else end + 1;
  }

  /** The wait on child `i` has completed. */
  predicate CompletedAt(s: Server, i: nat) { SubmittedAt(s, i) && |Results(s, i)| == 1 }

  lemma ReportDischarged(s: Server, step: Step, i: nat)
    requires Inv(s) && Ready(s, step) && Discharged(s, step, ReportRuns(i)) && CompletedAt(s, i)
    ensures Counted(s, i) || Counted(Apply(s, step), i)
  {
    ShapeKept(s, step);
    if !Counted(s, i) { ReportCounts(s, i); }
  }

  lemma ChildReports(servers: nat -> Server, steps: nat -> Step, k: nat, i: nat) returns (j: nat)
    requires IsBehaviour(servers, steps) && Fair(servers, steps)
    requires i < servers(0).group.Size() && CompletedAt(servers(k), i)
    ensures k <= j && Counted(servers(j), i)
  {
    assert Served(servers, steps, ReportRuns(i), k);
    var end: nat :| k <= end && Discharged(servers(end), steps(end), ReportRuns(i));
    BehaviourKeepsInv(servers, steps, end);
    BehaviourOnward(servers, steps, k, end, i);
    assert At(end);
    ReportDischarged(servers(end), steps(end), i);
    j := if Counted(servers(end), i) then end else end + 1;
  }

  /** Nobody starts listener `i` again after `k`. */
  ghost predicate Unrestarted(servers: nat -> Server, i: nat, k: nat) {
    forall j: nat {:trigger At(j)} :: k <= j ==>
      && i < |servers(j).listeners| && i < |servers(k).listeners|
      && servers(j).listeners[i].life.generation == servers(k).listeners[i].life.generation
  }

  predicate StoppedAt(s: Server, i: nat) { i < |s.listeners| && s.listeners[i].life.state.Stopped? }

  lemma NextStaysStopped(servers: nat -> Server, steps: nat -> Step, i: nat, k: nat, j: nat)
    requires IsBehaviour(servers, steps) && Unrestarted(servers, i, k) && k <= j
    requires i < servers(0).group.Size() && StoppedAt(servers(j), i)
    ensures StoppedAt(servers(j + 1), i)
  {
    BehaviourKeepsInv(servers, steps, j);
    assert At(j) && At(j + 1);
    StoppedUntilRestarted(servers(j), steps(j), i);
  }

  lemma {:induction false} StaysStopped(servers: nat -> Server, steps: nat -> Step, i: nat, k: nat, t: nat, j: nat)
    requires IsBehaviour(servers, steps) && Unrestarted(servers, i, k) && k <= t <= j
    requires i < servers(0).group.Size() && StoppedAt(servers(t), i)
    ensures StoppedAt(servers(j), i)
  {
    if t < j {
      StaysStopped(servers, steps, i, k, t, j - 1);
      NextStaysStopped(servers, steps, i, k, j - 1);
    }
  }

  lemma StoppedUntilRestarted(s: Server, step: Step, i: nat)
    requires Inv(s) && Ready(s, step) && i < s.group.Size() && s.listeners[i].life.state.Stopped?
    ensures i < |Apply(s, step).listeners|
    ensures Apply(s, step).listeners[i].life.generation == s.listeners[i].life.generation ==>
              Apply(s, step).listeners[i].life.state.Stopped?
  {
    A.MoveAcrossGenerations(s.listeners[i], MoveOn(s, step, i));
    assert Apply(s, step).listeners[i] == A.Do(s.listeners[i], MoveOn(s, step, i));
  }

  /** Listener `i` will stop, and not before its wait can see it. */
  ghost predicate WillStop(servers: nat -> Server, i: nat, m: Machine, k: nat) {
    && Carries(servers, i, m)
    && StopQueued(m, k)
    && (SubmittedAt(servers(k), i) || Unrestarted(servers, i, k))
  }

  lemma StoppedReleases(servers: nat -> Server, steps: nat -> Step, k: nat, i: nat)
    requires IsBehaviour(servers, steps) && i < servers(0).group.Size()
    requires SubmittedAt(servers(k), i) && StoppedAt(servers(k), i)
    ensures CompletedAt(servers(k), i)
  {
    BehaviourKeepsInv(servers, steps, k);
    A.StoppedOwesNothing(servers(k).listeners[i], servers(k).ids[i]);
  }

  lemma CarriedStops(servers: nat -> Server, m: Machine, k: nat, i: nat) returns (t: nat)
    requires Carries(servers, i, m) && StopQueued(m, k)
    ensures k <= t && StoppedAt(servers(t), i)
  {
    t := MachineStops(m, k);
    assert At(t);
  }

  /** The wait on a listener that will stop completes. */
  lemma ChildCompletes(servers: nat -> Server, steps: nat -> Step, m: Machine, k: nat, from: nat, i: nat)
    returns (j: nat)
    requires IsBehaviour(servers, steps) && Fair(servers, steps) && WillStop(servers, i, m, k) && k <= from
    requires i < servers(0).group.Size() && Launched(servers(from), i)
    ensures CompletedAt(servers(j), i)
  {
    var t := CarriedStops(servers, m, k, i);
    if SubmittedAt(servers(k), i) {
      BehaviourOnward(servers, steps, k, t, i);
      j := t;
    } else {
      var later := if from < t then t else from;
      BehaviourOnward(servers, steps, from, later, i);
      j := ChildSubmits(servers, steps, later, i);
      StaysStopped(servers, steps, i, k, t, j);
    }
    StoppedReleases(servers, steps, j, i);
  }

  // ----- all of them -----

  /** The wait on child `i` completes, if it was launched. */
  ghost predicate Completes(servers: nat -> Server, i: nat, from: nat) {
    Launched(servers(from), i) ==> exists j: nat :: CompletedAt(servers(j), i)
  }

  /** The child needs nothing more. */
  predicate ChildSettled(s: Server, i: nat) { Launched(s, i) ==> Counted(s, i) }

  lemma ChildStaysSettled(servers: nat -> Server, steps: nat -> Step, k: nat, j: nat, i: nat)
    requires IsBehaviour(servers, steps) && k <= j && LoopOver(servers(k)) && i < servers(0).group.Size()
    requires ChildSettled(servers(k), i)
    ensures ChildSettled(servers(j), i) && LoopOver(servers(j))
  {
    BehaviourKeepsInv(servers, steps, k);
    BehaviourKeepsInv(servers, steps, j);
    BehaviourOnward(servers, steps, k, j, i);
    assert !servers(k).group.children[i].Waiting?;
  }

  lemma {:induction false} ChildrenSettle(servers: nat -> Server, steps: nat -> Step, from: nat, n: nat)
    returns (j: nat)
    requires IsBehaviour(servers, steps) && Fair(servers, steps) && LoopOver(servers(from))
    requires n <= servers(0).group.Size()
    requires forall i :: 0 <= i < n ==> Completes(servers, i, from)
    ensures from <= j && LoopOver(servers(j)) && forall i :: 0 <= i < n ==> ChildSettled(servers(j), i)
  {
    j := from;
    if n > 0 {
      var t := ChildrenSettle(servers, steps, from, n - 1);
      j := LastSettles(servers, steps, from, t, n - 1);
      forall i | 0 <= i < n - 1 ensures ChildSettled(servers(j), i) {
        ChildStaysSettled(servers, steps, t, j, i);
      }
    }
  }

  /** The group counts a child that completes. */
  lemma LastSettles(servers: nat -> Server, steps: nat -> Step, from: nat, k: nat, i: nat) returns (j: nat)
    requires IsBehaviour(servers, steps) && Fair(servers, steps) && from <= k && i < servers(0).group.Size()
    requires LoopOver(servers(from)) && Completes(servers, i, from)
    ensures k <= j && ChildSettled(servers(j), i) && LoopOver(servers(j))
  {
    if Launched(servers(from), i) {
      var t: nat :| CompletedAt(servers(t), i);
      t := ChildReports(servers, steps, t, i);
      j := if t < k then k else t;
      BehaviourOnward(servers, steps, t, j, i);
    } else {
      j := k;
    }
    BehaviourKeepsInv(servers, steps, from);
    BehaviourKeepsInv(servers, steps, j);
    BehaviourOnward(servers, steps, from, j, i);
    assert !servers(from).group.children[i].Waiting?;
  }

  lemma SettledIsQuiescent(s: Server)
    requires Inv(s) && CountOver(s) && forall i :: 0 <= i < s.group.Size() ==> ChildSettled(s, i)
    ensures G.Quiescent(s.group)
    ensures s.group.tally.results != [] <==> G.Failed(NoError) !in s.group.children
  {
    forall i | 0 <= i < s.group.Size() && s.group.children[i].Initiated? ensures s.group.tally.done[i] {
      assert ChildSettled(s, i);
    }
    G.OwedNothing(s.group.tally.done);
    G.QuiescentIsComplete(s.group);
  }

  /** When every launched child completes, the wait comes to rest. */
  lemma Settles(servers: nat -> Server, steps: nat -> Step, from: nat) returns (j: nat)
    requires IsBehaviour(servers, steps) && Fair(servers, steps) && CountOver(servers(from))
    requires forall i :: 0 <= i < servers(0).group.Size() ==> Completes(servers, i, from)
    ensures from <= j && servers(j).Shaped() && G.Quiescent(servers(j).group)
    ensures servers(j).group.tally.results != [] <==> G.Failed(NoError) !in servers(j).group.children
  {
    j := ChildrenSettle(servers, steps, from, servers(0).group.Size());
    BehaviourKeepsInv(servers, steps, from);
    BehaviourKeepsInv(servers, steps, j);
    BehaviourOnward(servers, steps, from, j, 0);
    SettledIsQuiescent(servers(j));
  }

  /** Once every listener of the snapshot has a stop task queued, the wait comes to rest: both
      loops are over and every child that was launched has been counted. It has then completed
      if and only if no initiation failed with an exception that maps to no error. A listener
      may be started again, if not before its wait has been submitted. */
  lemma ServerWaitCompletesIff(servers: nat -> Server, steps: nat -> Step, ms: seq<Machine>, k: nat) returns (j: nat)
    requires IsBehaviour(servers, steps) && Fair(servers, steps)
    requires |ms| == servers(0).group.Size()
    requires forall i :: 0 <= i < |ms| ==> WillStop(servers, i, ms[i], k)
    ensures k <= j && servers(j).Shaped() && G.Quiescent(servers(j).group)
    ensures servers(j).group.tally.results != [] <==> G.Failed(NoError) !in servers(j).group.children
  {
    var t := LoopEnds(servers, steps, k);
    t := CountEnds(servers, steps, t);
    forall i | 0 <= i < |ms| ensures Completes(servers, i, t) {
      if Launched(servers(t), i) { var end := ChildCompletes(servers, steps, ms[i], k, t, i); }
    }
    j := Settles(servers, steps, t);
  }

  // ----- a cancelled wait -----

  predicate Walks(g: G.Group, h: G.Group, thread: nat) {
    && thread in g.signals.cancellers && thread in h.signals.cancellers
    && g.signals.cancellers[thread].at <= h.signals.cancellers[thread].at
  }

  lemma GroupWalks(g: G.Group, step: G.Step, thread: nat)
    requires G.Inv(g) && G.Enabled(g, step) && thread in g.signals.cancellers
    ensures Walks(g, G.Apply(g, step), thread)
    ensures step == G.CancelEmit(thread) ==>
              G.Apply(g, step).signals.cancellers[thread].at == g.signals.cancellers[thread].at + 1
  {}

  lemma OnGroupWalks(s: Server, step: Step, thread: nat)
    requires Inv(s) && Ready(s, step) && Walking(s, thread)
    ensures Walks(s.group, OnGroup(s, step), thread)
    ensures Does(s, step, EmitRuns(thread)) ==>
              OnGroup(s, step).signals.cancellers[thread].at == s.group.signals.cancellers[thread].at + 1
  {
    match step
    case Move(_, _) =>
    case Launch => GroupWalks(s.group, G.Initiate(Returned), thread);
    case LaunchFails(code) => GroupWalks(s.group, G.Initiate(Threw(code)), thread);
    case Loop(g) => GroupWalks(s.group, g, thread);
    case CountFailure => GroupWalks(s.group, G.CountFailure, thread);
    case ChildDone(i) => GroupWalks(s.group, G.ChildDone(i, CodeOf(Results(s, i)[0])), thread);
    case Cancel(g) => GroupWalks(s.group, g, thread);
  }

  lemma StepWalks(s: Server, step: Step, thread: nat)
    requires Inv(s) && Ready(s, step) && Walking(s, thread)
    ensures Walks(s.group, Apply(s, step).group, thread)
    ensures Discharged(s, step, EmitRuns(thread)) && !WalkedPast(s, thread) ==>
              s.group.signals.cancellers[thread].at < Apply(s, step).group.signals.cancellers[thread].at
              <= s.group.Size()
  {
    OnGroupWalks(s, step, thread);
    assert Apply(s, step).group == OnGroup(s, step);
  }

  lemma NextWalks(servers: nat -> Server, steps: nat -> Step, k: nat, thread: nat)
    requires IsBehaviour(servers, steps) && Walking(servers(k), thread)
    ensures Walks(servers(k).group, servers(k + 1).group, thread)
    ensures servers(k).group.Size() == servers(0).group.Size()
    ensures Discharged(servers(k), steps(k), EmitRuns(thread)) && !WalkedPast(servers(k), thread) ==>
              servers(k).group.signals.cancellers[thread].at < servers(k + 1).group.signals.cancellers[thread].at
              <= servers(0).group.Size()
  {
    BehaviourKeepsInv(servers, steps, k);
    assert At(k);
    StepWalks(servers(k), steps(k), thread);
  }

  lemma {:induction false} BehaviourWalks(servers: nat -> Server, steps: nat -> Step, k: nat, j: nat, thread: nat)
    requires IsBehaviour(servers, steps) && k <= j && Walking(servers(k), thread)
    ensures Walks(servers(k).group, servers(j).group, thread)
    decreases j
  {
    if k < j {
      BehaviourWalks(servers, steps, k, j - 1, thread);
      NextWalks(servers, steps, j - 1, thread);
    }
  }

  lemma WalkServed(servers: nat -> Server, steps: nat -> Step, k: nat, thread: nat) returns (j: nat)
    requires IsBehaviour(servers, steps) && FairToCancel(servers, steps) && Walking(servers(k), thread)
    ensures k <= j && Walking(servers(j), thread) && Walking(servers(j + 1), thread)
    ensures || WalkedPast(servers(j), thread)
            || servers(k).group.signals.cancellers[thread].at < servers(j + 1).group.signals.cancellers[thread].at
               <= servers(0).group.Size()
  {
    assert Served(servers, steps, EmitRuns(thread), k);
    j :| k <= j && Discharged(servers(j), steps(j), EmitRuns(thread));
    BehaviourWalks(servers, steps, k, j, thread);
    NextWalks(servers, steps, j, thread);
  }

  lemma {:induction false} WalkEnds(servers: nat -> Server, steps: nat -> Step, k: nat, thread: nat) returns (j: nat)
    requires IsBehaviour(servers, steps) && FairToCancel(servers, steps) && Walking(servers(k), thread)
    ensures k <= j && WalkedPast(servers(j), thread)
    decreases servers(0).group.Size() - servers(k).group.signals.cancellers[thread].at
  {
    j := WalkServed(servers, steps, k, thread);
    if !WalkedPast(servers(j), thread) {
      j := WalkEnds(servers, steps, j + 1, thread);
    }
  }

  /** A queued task completes the wait on a child that the cancelling thread has passed. */
  lemma CancelIsDue(s: Server, thread: nat, i: nat)
    requires Inv(s) && SubmittedAt(s, i) && LoopOver(s) && WalkedPast(s, thread) && Results(s, i) == []
    ensures Due(s, CancelRuns(i))
    ensures A.Results(A.Do(s.listeners[i], A.CancelWait(s.ids[i])), s.ids[i]) != []
  {
    PassedIsCancelled(s, thread, i);
    assert A.Inv(s.listeners[i]);
    A.SignalIsNeverLost(s.listeners[i], s.ids[i]);
  }

  lemma CancelTaskCompletes(s: Server, step: Step, thread: nat, i: nat)
    requires Inv(s) && Ready(s, step) && Discharged(s, step, CancelRuns(i)) && SubmittedAt(s, i)
    requires LoopOver(s) && WalkedPast(s, thread) && Results(s, i) == []
    ensures i < |Apply(s, step).ids| && i < |Apply(s, step).listeners|
    ensures A.Results(Apply(s, step).listeners[i], Apply(s, step).ids[i]) != []
  {
    CancelIsDue(s, thread, i);
    assert Apply(s, step).listeners[i] == A.Do(s.listeners[i], A.CancelWait(s.ids[i]));
  }

  lemma HasOneResult(s: Server, i: nat)
    requires Inv(s) && SubmittedAt(s, i) && Results(s, i) != []
    ensures CompletedAt(s, i)
  {
    assert ChildInv(s, i) && A.Inv(s.listeners[i]);
  }

  lemma CancelDischarged(s: Server, step: Step, thread: nat, i: nat)
    requires Inv(s) && Ready(s, step) && Discharged(s, step, CancelRuns(i)) && SubmittedAt(s, i)
    requires LoopOver(s) && WalkedPast(s, thread)
    ensures CompletedAt(s, i) || CompletedAt(Apply(s, step), i)
  {
    if Results(s, i) == [] {
      CancelTaskCompletes(s, step, thread, i);
      StepOnward(s, step, i);
      HasOneResult(Apply(s, step), i);
    } else {
      HasOneResult(s, i);
    }
  }

  lemma StaysPast(servers: nat -> Server, steps: nat -> Step, k: nat, j: nat, thread: nat)
    requires IsBehaviour(servers, steps) && k <= j && LoopOver(servers(k)) && WalkedPast(servers(k), thread)
    ensures LoopOver(servers(j)) && WalkedPast(servers(j), thread)
  {
    BehaviourKeepsInv(servers, steps, k);
    BehaviourKeepsInv(servers, steps, j);
    BehaviourWalks(servers, steps, k, j, thread);
    BehaviourOnward(servers, steps, k, j, 0);
  }

  lemma CancelledChildCompletes(servers: nat -> Server, steps: nat -> Step, k: nat, thread: nat, i: nat)
    returns (j: nat)
    requires IsBehaviour(servers, steps) && Fair(servers, steps) && FairToCancel(servers, steps)
    requires i < servers(0).group.Size() && Launched(servers(k), i)
    requires LoopOver(servers(k)) && WalkedPast(servers(k), thread)
    ensures CompletedAt(servers(j), i)
  {
    var t := ChildSubmits(servers, steps, k, i);
    assert Served(servers, steps, CancelRuns(i), t);
    var end: nat :| t <= end && Discharged(servers(end), steps(end), CancelRuns(i));
    BehaviourKeepsInv(servers, steps, end);
    BehaviourOnward(servers, steps, t, end, i);
    StaysPast(servers, steps, k, end, thread);
    assert At(end);
    CancelDischarged(servers(end), steps(end), thread, i);
    j := if CompletedAt(servers(end), i) then end else end + 1;
  }

  /** Once the server wait has been cancelled it comes to rest in the same way, whatever its
      listeners do: nothing is asked of them but to run the tasks that are queued. */
  lemma CancelledServerWaitCompletesIff(servers: nat -> Server, steps: nat -> Step, k: nat, thread: nat)
    returns (j: nat)
    requires IsBehaviour(servers, steps) && Fair(servers, steps) && FairToCancel(servers, steps)
    requires Walking(servers(k), thread)
    ensures k <= j && servers(j).Shaped() && G.Quiescent(servers(j).group)
    ensures servers(j).group.tally.results != [] <==> G.Failed(NoError) !in servers(j).group.children
  {
    var t := WalkEnds(servers, steps, k, thread);
    var from := LoopEnds(servers, steps, t);
    from := CountEnds(servers, steps, from);
    BehaviourWalks(servers, steps, t, from, thread);
    BehaviourKeepsInv(servers, steps, t);
    BehaviourKeepsInv(servers, steps, from);
    forall i | 0 <= i < servers(0).group.Size() ensures Completes(servers, i, from) {
      if Launched(servers(from), i) { var end := CancelledChildCompletes(servers, steps, from, thread, i); }
    }
    j := Settles(servers, steps, from);
  }
}
