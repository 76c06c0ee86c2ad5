/** Shutdown terminates. Along every infinite behaviour in which strands and timers make
    progress, and with no assumption on user sessions, a listener that is asked to stop
    stops. */
module AcceptorLiveness {
  import opened Types
  import opened M = Acceptor
  import opened I = AcceptorInvariant
  import R = AcceptorRefinement
  import Q = Sessions
  import A = AbstractListener

  /** What the executor, the timers and the sockets owe the listener. User code owes nothing,
      and neither do clients: an accept has to complete only once a stop has cancelled it. */
  datatype Duty =
    | AcceptCompletes
    | GraceElapses
    | GraceRuns
    | ForceRuns(id: nat)
    | FinishRuns(id: nat)
    | StopRuns

  predicate Due(s: State, d: Duty) {
    match d
    case AcceptCompletes => s.door.ops != [] && s.Phase().Stopping?
    case GraceElapses => s.timers.graceArmed
    case GraceRuns => s.timers.graceDue > 0
    case ForceRuns(id) => id in s.pool.all && s.pool.all[id].forceQueued > 0
    case FinishRuns(id) => Q.Finishing(s.pool, id)
    case StopRuns => s.stopTasks > 0
  }

  predicate Does(step: Step, d: Duty) {
    match d
    case AcceptCompletes => step.AcceptDone?
    case GraceElapses => step.GraceExpires?
    case GraceRuns => step.GraceFires?
    case ForceRuns(id) => step == SessionTask(id, Q.Force)
    case FinishRuns(id) => step.SessionFinished? && step.id == id
    case StopRuns => step.RunStop?
  }

  /** From `Fresh`, or from any other state that satisfies the invariant. */
  ghost predicate IsBehaviour(o: Options, states: nat -> State, steps: nat -> Step) {
    && o.Valid()
    && Inv(o, states(0))
    && forall i: nat {:trigger At(i)} ::
         Enabled(states(i), steps(i)) && states(i + 1) == Apply(o, states(i), steps(i))
  }

  predicate Discharged(s: State, step: Step, d: Duty) { !Due(s, d) || Does(step, d) }

  /** From `i` on, `d` is not due for ever without being done. */
  ghost predicate Served(states: nat -> State, steps: nat -> Step, d: Duty, i: nat) {
    exists j: nat :: i <= j && Discharged(states(j), steps(j), d)
  }

  /** Weak fairness. */
  ghost predicate Fair(states: nat -> State, steps: nat -> Step) {
    forall d: Duty, i: nat :: Served(states, steps, d, i)
  }

  lemma {:induction false} BehaviourKeepsInv(o: Options, states: nat -> State, steps: nat -> Step, i: nat)
    requires IsBehaviour(o, states, steps)
    ensures Inv(o, states(i))
  {
    if i > 0 {
      BehaviourKeepsInv(o, states, steps, i - 1);
      assert At(i - 1);
      R.StepKeepsInv(o, states(i - 1), steps(i - 1));
    }
  }

  // ----- the ranking -----

  function Rank(s: State): nat {
    One(s.door.pending) + 2 * One(s.timers.graceArmed) + s.timers.graceDue + |s.pool.live| + |Q.Unended(s.pool)|
  }

  /** Doing `d` brings the listener nearer to being stopped. */
  predicate Helps(s: State, d: Duty) {
    && Due(s, d)
    && !d.StopRuns?
    && (d.ForceRuns? ==> d.id in Q.Unended(s.pool))
  }

  /** A stopping listener always has a duty of the environment that helps. */
  lemma SomethingHelps(o: Options, s: State) returns (d: Duty)
    requires o.Valid() && Inv(o, s) && s.Phase().Stopping?
    ensures Helps(s, d)
  {
    if s.door.pending { return AcceptCompletes; }
    if s.timers.graceArmed { return GraceElapses; }
    if s.timers.graceDue > 0 { return GraceRuns; }
    var id := s.pool.live[0];
    assert id in s.pool.live;
    assert Q.Accounted(s.pool.all[id], true);
    d := if s.pool.all[id].finished then FinishRuns(id) else ForceRuns(id);
  }

  /** The step got nearer to stopped, or changed nothing that `d` depends on. */
  predicate Nearer(s: State, t: State, did: bool, d: Duty) {
    || t.Phase().Stopped?
    || (t.Phase().Stopping? && (Rank(t) < Rank(s) || (Rank(t) == Rank(s) && !did && Helps(t, d))))
  }

  lemma SessionTaskIsNearer(o: Options, s: State, id: nat, e: Q.Event, d: Duty)
    requires o.Valid() && Inv(o, s) && s.Phase().Stopping? && Helps(s, d)
    requires id in s.pool.all && Q.Possible(s.pool.all[id], e)
    ensures Nearer(s, s.(pool := Q.Run(s.pool, id, e)), Does(SessionTask(id, e), d), d)
  {
    var q := Q.Run(s.pool, id, e);
    assert Q.Accounted(s.pool.all[id], id in s.pool.live);
    Q.S.SmallerSet(Q.Unended(q), Q.Unended(s.pool));
    if id in Q.Unended(s.pool) && q.all[id].finished {
      assert id !in Q.Unended(q);
    } else {
      assert Q.Unended(q) == Q.Unended(s.pool);
    }
  }

  lemma FinishIsNearer(o: Options, s: State, id: nat, next: Outcome, d: Duty)
    requires o.Valid() && Inv(o, s) && s.Phase().Stopping? && Helps(s, d) && Q.Finishing(s.pool, id)
    ensures Nearer(s, Removed(o, s, id, next), Does(SessionFinished(id, next), d), d)
  {
    Q.DeliverKeepsInv(s.pool, id);
    Q.S.WithoutRemoves(s.pool.live, id);
    var q := Q.Deliver(s.pool, id);
    assert Q.Unended(q) <= Q.Unended(s.pool);
    Q.S.SmallerSet(Q.Unended(q), Q.Unended(s.pool));
  }

  lemma GraceIsNearer(o: Options, s: State, d: Duty)
    requires o.Valid() && Inv(o, s) && s.Phase().Stopping? && Helps(s, d) && s.timers.graceDue > 0
    ensures Nearer(s, GraceCallback(s), Does(GraceFires, d), d)
  {
    assert Q.Unended(Q.ForceAll(s.pool)) == Q.Unended(s.pool);
  }

  lemma AcceptIsNearer(o: Options, s: State, step: Step, d: Duty)
    requires o.Valid() && Inv(o, s) && s.Phase().Stopping? && Helps(s, d) && Enabled(s, step) && step.AcceptDone?
    ensures Nearer(s, Apply(o, s, step), Does(step, d), d)
  {}

  lemma RetryIsNearer(o: Options, s: State, step: Step, d: Duty)
    requires o.Valid() && Inv(o, s) && s.Phase().Stopping? && Helps(s, d) && Enabled(s, step)
    requires step.RetryFires? || step.RetryAborts?
    ensures Nearer(s, Apply(o, s, step), Does(step, d), d)
  {}

  lemma RequestIsNearer(o: Options, s: State, step: Step, d: Duty)
    requires o.Valid() && Inv(o, s) && s.Phase().Stopping? && Helps(s, d) && Enabled(s, step)
    requires step.RunStart? || step.RunStop?
    ensures Nearer(s, Apply(o, s, step), Does(step, d), d)
  {}

  lemma BookkeepingIsNearer(o: Options, s: State, step: Step, d: Duty)
    requires o.Valid() && Inv(o, s) && s.Phase().Stopping? && Helps(s, d) && Enabled(s, step) && Bookkeeping(step)
    ensures Nearer(s, Apply(o, s, step), Does(step, d), d)
  {}

  /** No step of anyone leads away from stopped. */
  lemma EveryStepIsNearer(o: Options, s: State, step: Step, d: Duty)
    requires o.Valid() && Inv(o, s) && s.Phase().Stopping? && Helps(s, d) && Enabled(s, step)
    ensures Nearer(s, Apply(o, s, step), Does(step, d), d)
  {
    match step
    case SessionTask(id, e) => SessionTaskIsNearer(o, s, id, e, d);
    case SessionFinished(id, next) => FinishIsNearer(o, s, id, next, d);
    case GraceFires => GraceIsNearer(o, s, d);
    case AcceptDone(_, _, _) => AcceptIsNearer(o, s, step, d);
    case RetryFires(_, _) => RetryIsNearer(o, s, step, d);
    case RetryAborts => RetryIsNearer(o, s, step, d);
    case RunStart(_, _, _) => RequestIsNearer(o, s, step, d);
    case RunStop => RequestIsNearer(o, s, step, d);
    case _ => BookkeepingIsNearer(o, s, step, d);
  }

  // ----- termination of shutdown -----

  lemma BehaviourIsNearer(o: Options, states: nat -> State, steps: nat -> Step, k: nat, d: Duty)
    requires IsBehaviour(o, states, steps) && states(k).Phase().Stopping? && Helps(states(k), d)
    ensures Nearer(states(k), states(k + 1), Does(steps(k), d), d)
  {
    BehaviourKeepsInv(o, states, steps, k);
    assert At(k);
    EveryStepIsNearer(o, states(k), steps(k), d);
  }

  lemma FirstHelp(o: Options, states: nat -> State, steps: nat -> Step, i: nat) returns (d: Duty)
    requires IsBehaviour(o, states, steps) && states(i).Phase().Stopping?
    ensures Helps(states(i), d)
  {
    BehaviourKeepsInv(o, states, steps, i);
    d := SomethingHelps(o, states(i));
  }

  /** Once the duty is discharged, and no later than that, the listener has got nearer. */
  lemma HelpArrives(o: Options, states: nat -> State, steps: nat -> Step, i: nat, d: Duty, end: nat) returns (k: nat)
    requires IsBehaviour(o, states, steps) && states(i).Phase().Stopping? && Helps(states(i), d)
    requires i <= end && Discharged(states(end), steps(end), d)
    ensures i < k
    ensures states(k).Phase().Stopped? || (states(k).Phase().Stopping? && Rank(states(k)) < Rank(states(i)))
  {
    k := i;
    while true
      invariant i <= k <= end
      invariant states(k).Phase().Stopping? && Rank(states(k)) == Rank(states(i)) && Helps(states(k), d)
      decreases end - k
    {
      BehaviourIsNearer(o, states, steps, k, d);
      k := k + 1;
      if states(k).Phase().Stopped? || Rank(states(k)) < Rank(states(i)) { return; }
    }
  }

  /** Every stopping listener stops. */
  lemma {:induction false} StoppingEventuallyStops(o: Options, states: nat -> State, steps: nat -> Step, i: nat)
    returns (j: nat)
    requires IsBehaviour(o, states, steps) && Fair(states, steps) && states(i).Phase().Stopping?
    ensures i <= j && states(j).Phase().Stopped?
    decreases Rank(states(i))
  {
    var d := FirstHelp(o, states, steps, i);
    assert Served(states, steps, d, i);
    var end: nat :| i <= end && Discharged(states(end), steps(end), d);
    j := HelpArrives(o, states, steps, i, d, end);
    if !states(j).Phase().Stopped? {
      j := StoppingEventuallyStops(o, states, steps, j);
    }
  }

  lemma StopAtMostCounts(o: Options, s: State, ec: ErrorCode, why: StopReason, next: Outcome)
    ensures MaybeFinish(s).stopTasks == s.stopTasks
    ensures BeginStop(s, ec, why).stopTasks == s.stopTasks
    ensures AcceptNext(o, s, next).stopTasks == s.stopTasks
  {}

  lemma TasksKeepStopTasks(o: Options, s: State, step: Step)
    requires Enabled(s, step) && (step.AcceptDone? || step.SessionFinished? || step.RetryFires?)
    ensures Apply(o, s, step).stopTasks == s.stopTasks
  {
    match step
    case AcceptDone(ec, factory, next) =>
      var t := s.(door := Opened(s.door));
      var d := t.door.(errors := t.door.errors + 1);
      StopAtMostCounts(o, t, ec, RuntimeFailure, next);
      StopAtMostCounts(o, t.(door := d), ec, RuntimeFailure, next);
      StopAtMostCounts(o, Connected(t, factory), ec, RuntimeFailure, next);
    case SessionFinished(id, next) =>
      var t := s.(pool := Q.Deliver(s.pool, id));
      StopAtMostCounts(o, t, NoError, Requested, next);
      StopAtMostCounts(o, AcceptNext(o, t, next), NoError, Requested, next);
    case RetryFires(ec, next) =>
      StopAtMostCounts(o, s.(timers := s.timers.(retryDue := s.timers.retryDue - 1)), ec, RuntimeFailure, next);
  }

  lemma StopTasksPersist(o: Options, s: State, step: Step)
    requires Enabled(s, step) && !step.RunStop?
    ensures Apply(o, s, step).stopTasks >= s.stopTasks
  {
    if step.AcceptDone? || step.SessionFinished? || step.RetryFires? {
      TasksKeepStopTasks(o, s, step);
    }
  }

  /** A stop task is posted if and only if a request read a state other than stopped, and is
      used up by running it. */
  lemma StopPostedIff(o: Options, s: State, step: Step)
    requires Enabled(s, step)
    ensures Apply(o, s, step).stopTasks
         == if step.RequestStop? && step.observed != Stopped then s.stopTasks + 1
            else if step.RunStop? then s.stopTasks - 1
            else s.stopTasks
    ensures step.RequestStop? ==> Apply(o, s, step) == s.(stopTasks := Apply(o, s, step).stopTasks)
  {
    if step.AcceptDone? || step.SessionFinished? || step.RetryFires? { TasksKeepStopTasks(o, s, step); }
    if step.RunStop? {
      StopAtMostCounts(o, s.(stopTasks := s.stopTasks - 1), NoError, Requested, Returned);
    }
  }

  lemma StopTaskTakesEffect(o: Options, s: State, step: Step)
    requires o.Valid() && Inv(o, s) && Enabled(s, step) && step.RunStop?
    ensures Apply(o, s, step).Phase().Stopping? || Apply(o, s, step).Phase().Stopped?
  {}

  lemma BehaviourKeepsStopTask(o: Options, states: nat -> State, steps: nat -> Step, k: nat)
    requires IsBehaviour(o, states, steps) && states(k).stopTasks > 0
    ensures !steps(k).RunStop? ==> states(k + 1).stopTasks > 0
    ensures steps(k).RunStop? ==> states(k + 1).Phase().Stopping? || states(k + 1).Phase().Stopped?
  {
    BehaviourKeepsInv(o, states, steps, k);
    assert At(k);
    if steps(k).RunStop? {
      StopTaskTakesEffect(o, states(k), steps(k));
    } else {
      StopTasksPersist(o, states(k), steps(k));
    }
  }

  /** A stop task that was queued stops the listener, from whatever state. */
  lemma StopRequestEventuallyStops(o: Options, states: nat -> State, steps: nat -> Step, i: nat)
    returns (j: nat)
    requires IsBehaviour(o, states, steps) && Fair(states, steps) && states(i).stopTasks > 0
    ensures i <= j && states(j).Phase().Stopped?
  {
    assert Served(states, steps, StopRuns, i);
    var end: nat :| i <= end && Discharged(states(end), steps(end), StopRuns);
    var k := i;
    while !steps(k).RunStop?
      invariant i <= k <= end && states(k).stopTasks > 0
      decreases end - k
    {
      BehaviourKeepsStopTask(o, states, steps, k);
      k := k + 1;
    }
    BehaviourKeepsStopTask(o, states, steps, k);
    if states(k + 1).Phase().Stopped? {
      return k + 1;
    }
    j := StoppingEventuallyStops(o, states, steps, k + 1);
  }

  lemma BehaviourKeepsSubmitted(o: Options, states: nat -> State, steps: nat -> Step, k: nat, id: nat)
    requires IsBehaviour(o, states, steps) && A.Submitted(states(k).face, id)
    ensures A.Submitted(states(k + 1).face, id)
  {
    BehaviourKeepsInv(o, states, steps, k);
    assert At(k);
    R.StepSimulates(o, states(k), steps(k));
    A.MoveKeepsSubmitted(states(k).face, R.MoveOf(o, states(k), steps(k)), id);
  }

  /** Every wait the listener has taken is completed once a stop task is queued. */
  lemma StopRequestEventuallyReleases(o: Options, states: nat -> State, steps: nat -> Step, i: nat, id: nat)
    returns (j: nat)
    requires IsBehaviour(o, states, steps) && Fair(states, steps)
    requires states(i).stopTasks > 0 && A.Submitted(states(i).face, id)
    ensures i <= j && |A.Results(states(j).face, id)| == 1
  {
    j := StopRequestEventuallyStops(o, states, steps, i);
    var k := i;
    while k < j
      invariant i <= k <= j && A.Submitted(states(k).face, id)
    {
      BehaviourKeepsSubmitted(o, states, steps, k, id);
      k := k + 1;
    }
    BehaviourKeepsInv(o, states, steps, j);
    A.StoppedOwesNothing(states(j).face, id);
  }
}
