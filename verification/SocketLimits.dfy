/** Where a restarted single-session listener falls short, with the exact conditions. */
module SocketLimits {
  import opened Types
  import opened M = Socket
  import opened T = SocketTheorems
  import Q = Sessions
  import A = AbstractListener

  predicate Plays(s: State, steps: seq<Step>, t: State)
    decreases |steps|
  {
    if steps == [] then t == s
    else Enabled(s, steps[0]) && Plays(Apply(s, steps[0]), steps[1..], t)
  }

  /** The generation after `g` has no more expired grace callbacks than `bound`. */
  predicate Inherits(p: State, g: nat, bound: nat) {
    && Inv(p)
    && g <= p.Generation()
    && (p.Generation() == g ==> p.Phase().Stopped? && p.graceDue <= bound)
    && (p.Generation() == g + 1 && p.Phase().Running? ==> p.graceDue <= bound)
  }

  lemma StepAcrossGenerations(p: State, step: Step)
    requires Inv(p) && Enabled(p, step)
    ensures var t := Apply(p, step);
            && p.Generation() <= t.Generation() <= p.Generation() + 1
            && (t.Generation() == p.Generation() && p.Phase().Stopped? ==> t.Phase().Stopped?)
            && (t.Generation() == p.Generation() && t.Phase().Running? ==> p.Phase().Running?)
            && (t.Generation() > p.Generation() ==> !p.Phase().Stopping?)
            && (!p.Phase().Stopping? ==> t.graceDue <= p.graceDue)
  {
    StepSimulates(p, step);
    A.MoveAcrossGenerations(p.face, MoveOf(p, step));
  }

  lemma {:induction false} PlayInherits(p: State, steps: seq<Step>, t: State, g: nat, bound: nat)
    requires Inherits(p, g, bound) && Plays(p, steps, t)
    ensures Inherits(t, g, bound)
    decreases |steps|
  {
    if steps != [] {
      StepKeepsInv(p, steps[0]);
      StepAcrossGenerations(p, steps[0]);
      PlayInherits(Apply(p, steps[0]), steps[1..], t, g, bound);
    }
  }

  /** After `steps` the generation that follows `s` is running and the grace callback of an
      earlier stop is about to run in it. */
  ghost predicate LosesNextGeneration(s: State, steps: seq<Step>, t: State) {
    && Plays(s, steps, t)
    && t.Generation() == s.Generation() + 1
    && t.Phase().Running?
    && Enabled(t, GraceFires)
  }

  /** What happens then: the session is force-closed and the listener stops with a runtime
      failure nobody caused. */
  lemma LateGraceEndsTheGeneration(t: State, id: nat)
    requires Inv(t) && t.Phase().Running? && t.pool.live == [id] && Enabled(t, GraceFires) && !t.pool.all[id].finished
    ensures Enabled(Apply(t, GraceFires), SessionTask(id, Q.Force))
    ensures var u := Apply(Apply(t, GraceFires), SessionTask(id, Q.Force));
            && Enabled(u, SessionFinished(id))
            && var v := Apply(u, SessionFinished(id));
               && v.Phase().Stopped?
               && v.face.life.terminal == OperationAborted
               && v.face.life.reason == RuntimeFailure
  {}

  /** It can happen if and only if a grace callback that expired has not run when the
      listener is restarted. */
  lemma LateGraceIff(s: State)
    requires Inv(s) && s.Phase().Stopped?
    ensures s.graceDue > 0 <==> exists steps, t :: LosesNextGeneration(s, steps, t)
  {
    if s.graceDue > 0 {
      var id := s.face.starts.lastId + 1;
      var start := RunStart(id, NoError, Returned);
      var p := Apply(s, IssueStart);
      var t := Apply(p, start);
      var steps := [IssueStart, start];
      assert steps[1..] == [start] && [start][1..] == [];
      assert Plays(t, [], t) && Plays(p, [start], t);
      assert LosesNextGeneration(s, steps, t);
    }
    forall steps, t | LosesNextGeneration(s, steps, t)
      ensures s.graceDue > 0
    {
      PlayInherits(s, steps, t, s.Generation(), s.graceDue);
    }
  }

  lemma {:induction false} PlaysOn(s: State, steps: seq<Step>, p: State, step: Step)
    requires Plays(s, steps, p) && Enabled(p, step)
    ensures Plays(s, steps + [step], Apply(p, step))
    decreases |steps|
  {
    if steps == [] {
      assert [step][1..] == [];
    } else {
      PlaysOn(Apply(s, steps[0]), steps[1..], p, step);
      assert (steps + [step])[1..] == steps[1..] + [step];
    }
  }

  /** Running with session 1, whose start task has not run. */
  lemma ReachesOneSession() returns (steps: seq<Step>, t: State)
    ensures Plays(Fresh, steps, t) && t.Phase().Running? && t.pool.live == [1] && 1 in t.pool.all
    ensures t.pool.all[1].startQueued && !t.pool.all[1].finished && t.pool.all[1].finishTasks == 0
    ensures t.stopTasks == 0 && t.graceDue == 0
  {
    var p := Apply(Fresh, IssueStart);
    PlaysOn(Fresh, [], Fresh, IssueStart);
    PlaysOn(Fresh, [] + [IssueStart], p, RunStart(1, NoError, Returned));
    steps, t := [] + [IssueStart] + [RunStart(1, NoError, Returned)], Apply(p, RunStart(1, NoError, Returned));
  }

  lemma StopsWithGrace(s: State)
    requires s.Phase().Running? && s.pool.live == [1] && 1 in s.pool.all
    ensures var t := Apply(Apply(s, RequestStop(Running)), RunStop);
            && t.Phase().Stopping? && t.graceArmed && t.pool.live == [1] && 1 in t.pool.all
            && t.pool.all[1] == s.pool.all[1].(stopAsked := true)
  {}

  lemma EndsAfterGrace(s: State)
    requires s.Phase().Stopping? && s.graceArmed && s.pool.live == [1] && 1 in s.pool.all
    requires s.pool.all[1].startQueued && !s.pool.all[1].finished
    ensures var begin := SessionTask(1, Q.Begin(Threw(IoError), Q.Dropped));
            var p := Apply(s, GraceExpires);
            && Enabled(p, begin)
            && Enabled(Apply(p, begin), SessionFinished(1))
            && var t := Apply(Apply(p, begin), SessionFinished(1)); t.Phase().Stopped? && t.graceDue > 0
  {}

  /** Such a state is reachable: the session ends between the expiry of the grace timer and
      its callback. */
  lemma LateGraceIsReachable() returns (steps: seq<Step>, t: State)
    ensures Plays(Fresh, steps, t)
    ensures t.Phase().Stopped? && t.graceDue > 0
  {
    steps, t := ReachesOneSession();
    StopsWithGrace(t);
    steps, t := Then(steps, t, RequestStop(Running));
    steps, t := Then(steps, t, RunStop);
    EndsAfterGrace(t);
    steps, t := Then(steps, t, GraceExpires);
    steps, t := Then(steps, t, SessionTask(1, Q.Begin(Threw(IoError), Q.Dropped)));
    steps, t := Then(steps, t, SessionFinished(1));
  }

  lemma Then(steps: seq<Step>, p: State, step: Step) returns (more: seq<Step>, t: State)
    requires Plays(Fresh, steps, p) && Enabled(p, step)
    ensures Plays(Fresh, more, t) && more == steps + [step] && t == Apply(p, step)
  {
    PlaysOn(Fresh, steps, p, step);
    more, t := steps + [step], Apply(p, step);
  }

  /** A start reports success exactly when it leaves the listener running, if and only if
      an exception thrown by the factory maps to an error. */
  lemma StartReportsFaithfullyIff(s: State, id: nat, factory: Outcome)
    requires Inv(s) && (s.Phase().Idle? || s.Phase().Stopped?)
    requires A.Pending(s.face, id) && !s.face.starts.ops[id].cancelled
    ensures factory.Mapped() <==>
              var t := Start(s, id, NoError, factory);
              t.Phase().Running? <==> t.face.starts.ops[id].results == [NoError]
  {
    var ec := if factory.Threw? then factory.code else NoError;
    assert Start(s, id, NoError, factory).face.starts.ops[id].results == [ec];
    assert [ec][0] == ec && [NoError][0] == NoError;
  }

  // ----- a strand that cannot be made -----

  /** What the start task leaves behind if making the strand of the new socket throws: nothing
      catches it, so the listener is left starting and the handler is gone. */
  function Stranded(s: State, id: nat): State
    requires id in s.face.starts.ops
  {
    var up := s.face.life.(generation := s.Generation() + 1, terminal := NoError, reason := NoReason);
    var ops := s.face.starts.ops;
    var dropped := s.face.starts.(ops := ops[id := ops[id].(queued := false)]);
    Entered(s.(face := s.face.(life := up, starts := dropped)), Starting)
  }

  /** Only then is `Starting` visible between tasks. The start never completes, later ones are
      aborted, and the next stop task brings the listener back to stopped. */
  lemma StrandedUntilStopped(s: State, id: nat, other: nat, open: ErrorCode, factory: Outcome)
    requires Inv(s) && (s.Phase().Idle? || s.Phase().Stopped?) && s.stopTasks > 0
    requires A.Pending(s.face, id) && A.Pending(s.face, other) && other != id
    ensures var t := Stranded(s, id);
            && t.Phase().Starting? && !Start(s, id, open, factory).Phase().Starting?
            && A.StartResults(t.face, id) == [] && !A.Pending(t.face, id)
            && A.StartResults(Start(t, other, open, factory).face, other) == [OperationAborted]
            && StopTask(t).Phase().Stopped? && StopTask(t).face.life.reason == Requested
  {
    assert |s.face.starts.ops[other].results| == 0;
  }
}
