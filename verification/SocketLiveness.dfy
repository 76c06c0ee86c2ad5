/** Shutdown of the single-session listener terminates. */
module SocketLiveness {
  import opened Types
  import opened M = Socket
  import opened T = SocketTheorems
  import Q = Sessions

  /** What the executor and the timer owe the listener. User code owes nothing. */
  datatype Duty = GraceElapses | GraceRuns | ForceRuns(id: nat) | FinishRuns(id: nat) | StopRuns

  predicate Due(s: State, d: Duty) {
    match d
    case GraceElapses => s.graceArmed
    case GraceRuns => s.graceDue > 0
    case ForceRuns(id) => id in s.pool.all && s.pool.all[id].forceQueued > 0
    case FinishRuns(id) => Q.Finishing(s.pool, id)
    case StopRuns => s.stopTasks > 0
  }

  predicate Does(step: Step, d: Duty) {
    match d
    case GraceElapses => step.GraceExpires?
    case GraceRuns => step.GraceFires?
    case ForceRuns(id) => step == SessionTask(id, Q.Force)
    case FinishRuns(id) => step == SessionFinished(id)
    case StopRuns => step.RunStop?
  }

  /** From `Fresh`, or from any other state that satisfies the invariant. */
  ghost predicate IsBehaviour(states: nat -> State, steps: nat -> Step) {
    && Inv(states(0))
    && forall i: nat {:trigger At(i)} ::
         Enabled(states(i), steps(i)) && states(i + 1) == Apply(states(i), steps(i))
  }

  predicate Discharged(s: State, step: Step, d: Duty) { !Due(s, d) || Does(step, d) }

  ghost predicate Served(states: nat -> State, steps: nat -> Step, d: Duty, i: nat) {
    exists j: nat :: i <= j && Discharged(states(j), steps(j), d)
  }

  /** Weak fairness. */
  ghost predicate Fair(states: nat -> State, steps: nat -> Step) {
    forall d: Duty, i: nat :: Served(states, steps, d, i)
  }

  lemma {:induction false} BehaviourKeepsInv(states: nat -> State, steps: nat -> Step, i: nat)
    requires IsBehaviour(states, steps)
    ensures Inv(states(i))
  {
    if i > 0 {
      BehaviourKeepsInv(states, steps, i - 1);
      assert At(i - 1);
      StepKeepsInv(states(i - 1), steps(i - 1));
    }
  }

  function One(b: bool): nat { if b then 1 else 0 }

  function Rank(s: State): nat { 2 * One(s.graceArmed) + s.graceDue + |Q.Unended(s.pool)| }

  predicate Helps(s: State, d: Duty) {
    Due(s, d) && !d.StopRuns? && (d.ForceRuns? ==> d.id in Q.Unended(s.pool))
  }

  lemma SomethingHelps(s: State) returns (d: Duty)
    requires Inv(s) && s.Phase().Stopping?
    ensures Helps(s, d)
  {
    if s.graceArmed { return GraceElapses; }
    if s.graceDue > 0 { return GraceRuns; }
    var id := s.pool.live[0];
    assert id in s.pool.live;
    assert Q.Accounted(s.pool.all[id], true);
    d := if s.pool.all[id].finished then FinishRuns(id) else ForceRuns(id);
  }

  predicate Nearer(s: State, t: State, did: bool, d: Duty) {
    || t.Phase().Stopped?
    || (t.Phase().Stopping? && (Rank(t) < Rank(s) || (Rank(t) == Rank(s) && !did && Helps(t, d))))
  }

  lemma SessionTaskIsNearer(s: State, id: nat, e: Q.Event, d: Duty)
    requires Inv(s) && s.Phase().Stopping? && Helps(s, d)
    requires id in s.pool.all && Q.Possible(s.pool.all[id], e)
    ensures Nearer(s, s.(pool := Q.Run(s.pool, id, e)), Does(SessionTask(id, e), d), d)
  {
    var q := Q.Run(s.pool, id, e);
    assert Q.Accounted(s.pool.all[id], id in s.pool.live);
    Q.S.SmallerSet(Q.Unended(q), Q.Unended(s.pool));
    if id in Q.Unended(s.pool) && q.all[id].finished {
      assert id !in Q.Unended(q);
    } else {
      assert Q.Unended(q) == Q.Unended(s.pool);
    }
  }

  lemma EveryStepIsNearer(s: State, step: Step, d: Duty)
    requires Inv(s) && s.Phase().Stopping? && Helps(s, d) && Enabled(s, step)
    ensures Nearer(s, Apply(s, step), Does(step, d), d)
  {
    match step
    case SessionTask(id, e) => SessionTaskIsNearer(s, id, e, d);
    case SessionFinished(id) => RemovedKeeps(s, id);
    case GraceFires => assert Q.Unended(Q.ForceAll(s.pool)) == Q.Unended(s.pool);
    case _ =>
  }

  lemma BehaviourIsNearer(states: nat -> State, steps: nat -> Step, k: nat, d: Duty)
    requires IsBehaviour(states, steps) && states(k).Phase().Stopping? && Helps(states(k), d)
    ensures Nearer(states(k), states(k + 1), Does(steps(k), d), d)
  {
    BehaviourKeepsInv(states, steps, k);
    assert At(k);
    EveryStepIsNearer(states(k), steps(k), d);
  }

  lemma FirstHelp(states: nat -> State, steps: nat -> Step, i: nat) returns (d: Duty)
    requires IsBehaviour(states, steps) && states(i).Phase().Stopping?
    ensures Helps(states(i), d)
  {
    BehaviourKeepsInv(states, steps, i);
    d := SomethingHelps(states(i));
  }

  /** Once the duty is discharged, and no later than that, the listener has got nearer. */
  lemma HelpArrives(states: nat -> State, steps: nat -> Step, i: nat, d: Duty, end: nat) returns (k: nat)
    requires IsBehaviour(states, steps) && states(i).Phase().Stopping? && Helps(states(i), d)
    requires i <= end && Discharged(states(end), steps(end), d)
    ensures i < k
    ensures states(k).Phase().Stopped? || (states(k).Phase().Stopping? && Rank(states(k)) < Rank(states(i)))
  {
    k := i;
    while true
      invariant i <= k <= end
      invariant states(k).Phase().Stopping? && Rank(states(k)) == Rank(states(i)) && Helps(states(k), d)
      decreases end - k
    {
      BehaviourIsNearer(states, steps, k, d);
      k := k + 1;
      if states(k).Phase().Stopped? || Rank(states(k)) < Rank(states(i)) { return; }
    }
  }

  /** Every stopping listener stops, whatever its session does. */
  lemma {:induction false} StoppingEventuallyStops(states: nat -> State, steps: nat -> Step, i: nat)
    returns (j: nat)
    requires IsBehaviour(states, steps) && Fair(states, steps) && states(i).Phase().Stopping?
    ensures i <= j && states(j).Phase().Stopped?
    decreases Rank(states(i))
  {
    var d := FirstHelp(states, steps, i);
    assert Served(states, steps, d, i);
    var end: nat :| i <= end && Discharged(states(end), steps(end), d);
    j := HelpArrives(states, steps, i, d, end);
    if !states(j).Phase().Stopped? {
      j := StoppingEventuallyStops(states, steps, j);
    }
  }

  lemma StopTaskPersistsOrActs(s: State, step: Step)
    requires Inv(s) && Enabled(s, step) && s.stopTasks > 0
    ensures !step.RunStop? ==> Apply(s, step).stopTasks > 0
    ensures step.RunStop? ==> Apply(s, step).Phase().Stopping? || Apply(s, step).Phase().Stopped?
  {}

  lemma BehaviourKeepsStopTask(states: nat -> State, steps: nat -> Step, k: nat)
    requires IsBehaviour(states, steps) && states(k).stopTasks > 0
    ensures !steps(k).RunStop? ==> states(k + 1).stopTasks > 0
    ensures steps(k).RunStop? ==> states(k + 1).Phase().Stopping? || states(k + 1).Phase().Stopped?
  {
    BehaviourKeepsInv(states, steps, k);
    assert At(k);
    StopTaskPersistsOrActs(states(k), steps(k));
  }

  /** A stop task that was queued stops the listener, from whatever state. */
  lemma StopRequestEventuallyStops(states: nat -> State, steps: nat -> Step, i: nat) returns (j: nat)
    requires IsBehaviour(states, steps) && Fair(states, steps) && states(i).stopTasks > 0
    ensures i <= j && states(j).Phase().Stopped?
  {
    assert Served(states, steps, StopRuns, i);
    var end: nat :| i <= end && Discharged(states(end), steps(end), StopRuns);
    var k := i;
    while !steps(k).RunStop?
      invariant i <= k <= end && states(k).stopTasks > 0
      decreases end - k
    {
      BehaviourKeepsStopTask(states, steps, k);
      k := k + 1;
    }
    BehaviourKeepsStopTask(states, steps, k);
    if states(k + 1).Phase().Stopped? {
      return k + 1;
    }
    j := StoppingEventuallyStops(states, steps, k + 1);
  }
}
