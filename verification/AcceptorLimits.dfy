/** Where the accepting listener falls short of what one might expect of it, with the exact
    conditions. */
module AcceptorLimits {
  import opened Types
  import opened M = Acceptor
  import opened I = AcceptorInvariant
  import R = AcceptorRefinement
  import T = AcceptorTheorems
  import L = Lifecycles
  import Q = Sessions
  import A = AbstractListener

  // ----- a grace timer that fires late -----

  /** Taking `steps` one after the other leads from `s` to `t`. */
  predicate Plays(o: Options, s: State, steps: seq<Step>, t: State)
    decreases |steps|
  {
    if steps == [] then t == s
    else Enabled(s, steps[0]) && Plays(o, Apply(o, s, steps[0]), steps[1..], t)
  }

  lemma {:induction false} PlaysOn(o: Options, s: State, steps: seq<Step>, p: State, step: Step)
    requires Plays(o, s, steps, p) && Enabled(p, step)
    ensures Plays(o, s, steps + [step], Apply(o, p, step))
    decreases |steps|
  {
    if steps == [] {
      assert [step][1..] == [];
    } else {
      PlaysOn(o, Apply(o, s, steps[0]), steps[1..], p, step);
      assert (steps + [step])[1..] == steps[1..] + [step];
    }
  }

  /** What one step does to the generation and to expired grace callbacks. */
  lemma StepAcrossGenerations(o: Options, p: State, step: Step)
    requires o.Valid() && Inv(o, p) && Enabled(p, step)
    ensures var t := Apply(o, p, step);
            && p.Generation() <= t.Generation() <= p.Generation() + 1
            && (t.Generation() == p.Generation() && p.Phase().Stopped? ==> t.Phase().Stopped?)
            && (t.Generation() == p.Generation() && t.Phase().Running? ==> p.Phase().Running?)
            && (t.Generation() > p.Generation() ==> !p.Phase().Stopping?)
            && (!p.Phase().Stopping? ==> t.timers.graceDue <= p.timers.graceDue)
  {
    R.StepSimulates(o, p, step);
    A.MoveAcrossGenerations(p.face, R.MoveOf(o, p, step));
    GraceDueDoesNotGrow(o, p, step);
  }

  lemma GraceDueDoesNotGrow(o: Options, p: State, step: Step)
    requires o.Valid() && Inv(o, p) && Enabled(p, step)
    ensures !p.Phase().Stopping? ==> Apply(o, p, step).timers.graceDue <= p.timers.graceDue
  {}

  /** The generation after `g` has no more expired grace callbacks than `bound`. */
  predicate Inherits(o: Options, p: State, g: nat, bound: nat)
    requires o.Valid()
  {
    && Inv(o, p)
    && g <= p.Generation()
    && (p.Generation() == g ==> p.Phase().Stopped? && p.timers.graceDue <= bound)
    && (p.Generation() == g + 1 && p.Phase().Running? ==> p.timers.graceDue <= bound)
  }

  lemma StepInherits(o: Options, p: State, step: Step, g: nat, bound: nat)
    requires o.Valid() && Inherits(o, p, g, bound) && Enabled(p, step)
    ensures Inherits(o, Apply(o, p, step), g, bound)
  {
    R.StepKeepsInv(o, p, step);
    StepAcrossGenerations(o, p, step);
  }

  lemma {:induction false} PlayInherits(o: Options, p: State, steps: seq<Step>, t: State, g: nat, bound: nat)
    requires o.Valid() && Inherits(o, p, g, bound) && Plays(o, p, steps, t)
    ensures Inherits(o, t, g, bound)
    decreases |steps|
  {
    if steps != [] {
      StepInherits(o, p, steps[0], g, bound);
      PlayInherits(o, Apply(o, p, steps[0]), steps[1..], t, g, bound);
    }
  }

  /** After `steps` the grace callback of an earlier stop is about to force-close sessions
      of the generation that follows `s`, while it is running. */
  ghost predicate ForcesNextGeneration(o: Options, s: State, steps: seq<Step>, t: State) {
    && Plays(o, s, steps, t)
    && t.Generation() == s.Generation() + 1
    && t.Phase().Running?
    && t.pool.live != []
    && Enabled(t, GraceFires)
  }

  lemma StartsAgain(o: Options, s: State) returns (steps: seq<Step>, t: State)
    requires o.Valid() && Inv(o, s) && (s.Phase().Idle? || s.Phase().Stopped?)
    ensures Plays(o, s, steps, t)
    ensures t.Phase().Running? && t.Generation() == s.Generation() + 1
    ensures |t.door.ops| == 1 && t.door.pending && t.timers == s.timers && t.pool == s.pool
    ensures t.door.errors == s.door.errors
  {
    var id := s.face.starts.lastId + 1;
    var p := Apply(o, s, IssueStart);
    var start := RunStart(id, NoError, Returned);
    PlaysOn(o, s, [], s, IssueStart);
    PlaysOn(o, s, [] + [IssueStart], p, start);
    steps, t := [] + [IssueStart] + [start], Apply(o, p, start);
  }

  lemma AcceptsOne(o: Options, t: State)
    requires t.Phase().Running? && t.door.ops != []
    ensures var u := Apply(o, t, AcceptDone(NoError, Returned, Returned));
            && u.face == t.face && u.timers == t.timers
            && u.pool == Q.Admit(t.pool, t.door.lastConnection + 1, t.Generation())
            && (|t.door.ops| == 1 && |t.pool.live| + 1 >= o.maxActiveSessions ==> !u.door.pending)
  {}

  lemma RestartIntoLateGrace(o: Options, s: State) returns (steps: seq<Step>, t: State)
    requires o.Valid() && Inv(o, s) && s.Phase().Stopped? && s.timers.graceDue > 0
    ensures ForcesNextGeneration(o, s, steps, t)
  {
    steps, t := StartsAgain(o, s);
    var accept := AcceptDone(NoError, Returned, Returned);
    AcceptsOne(o, t);
    PlaysOn(o, s, steps, t, accept);
    steps, t := steps + [accept], Apply(o, t, accept);
  }

  /** A stopped listener's next generation can lose its sessions to the previous grace
      deadline if and only if a grace callback that expired has not run yet. */
  lemma LateGraceIff(o: Options, s: State)
    requires o.Valid() && Inv(o, s) && s.Phase().Stopped?
    ensures s.timers.graceDue > 0 <==> exists steps, t :: ForcesNextGeneration(o, s, steps, t)
  {
    if s.timers.graceDue > 0 {
      var steps, t := RestartIntoLateGrace(o, s);
    }
    forall steps, t | ForcesNextGeneration(o, s, steps, t)
      ensures s.timers.graceDue > 0
    {
      PlayInherits(o, s, steps, t, s.Generation(), s.timers.graceDue);
    }
  }

  /** One session, no accept in flight. */
  predicate Alone(s: State, id: nat) {
    s.pool.live == [id] && id in s.pool.all && !s.door.pending && s.pool.all[id].finishTasks == 0
  }

  lemma StopsWithGrace(o: Options, s: State, id: nat)
    requires s.Phase().Running? && Alone(s, id) && s.stopTasks > 0 && s.pool.all[id].startQueued
    ensures var t := Apply(o, s, RunStop);
            && t.Phase().Stopping? && Alone(t, id) && t.timers.graceArmed
            && t.pool.all[id] == s.pool.all[id].(stopAsked := true)
  {}

  lemma EndsAfterGrace(o: Options, s: State, id: nat) returns (t: State)
    requires s.Phase().Stopping? && Alone(s, id) && s.timers.graceArmed
    requires s.pool.all[id].startQueued && !s.pool.all[id].finished
    ensures var begin := SessionTask(id, Q.Begin(Threw(IoError), Q.Dropped));
            Plays(o, s, [GraceExpires, begin, SessionFinished(id, Returned)], t)
    ensures t.Phase().Stopped? && t.timers.graceDue > 0
  {
    var begin, finish := SessionTask(id, Q.Begin(Threw(IoError), Q.Dropped)), SessionFinished(id, Returned);
    var p := Apply(o, s, GraceExpires);
    var q := Apply(o, p, begin);
    t := Apply(o, q, finish);
    PlaysOn(o, s, [], s, GraceExpires);
    PlaysOn(o, s, [] + [GraceExpires], p, begin);
    PlaysOn(o, s, [] + [GraceExpires] + [begin], q, finish);
    assert [] + [GraceExpires] + [begin] + [finish] == [GraceExpires, begin, finish];
  }

  lemma {:induction false} PlaysThrough(o: Options, s: State, first: seq<Step>, p: State, second: seq<Step>, t: State)
    requires Plays(o, s, first, p) && Plays(o, p, second, t)
    ensures Plays(o, s, first + second, t)
    decreases |first|
  {
    if first == [] {
      assert first + second == second;
    } else {
      PlaysThrough(o, Apply(o, s, first[0]), first[1..], p, second, t);
      assert (first + second)[1..] == first[1..] + second;
    }
  }

  lemma ReachesOneSession(o: Options) returns (steps: seq<Step>, t: State, id: nat)
    requires o.Valid() && o.maxActiveSessions == 1
    ensures Plays(o, Fresh, steps, t) && t.Phase().Running? && Alone(t, id)
    ensures t.pool.all[id].startQueued && !t.pool.all[id].finished
  {
    steps, t := StartsAgain(o, Fresh);
    AcceptsOne(o, t);
    PlaysOn(o, Fresh, steps, t, AcceptDone(NoError, Returned, Returned));
    id := t.door.lastConnection + 1;
    steps := steps + [AcceptDone(NoError, Returned, Returned)];
    t := Apply(o, t, AcceptDone(NoError, Returned, Returned));
  }

  /** Such a state is reachable: a listener with one session that ends between the expiry of
      the grace timer and its callback. */
  lemma LateGraceIsReachable() returns (o: Options, steps: seq<Step>, t: State)
    ensures o.Valid() && Plays(o, Fresh, steps, t)
    ensures t.Phase().Stopped? && t.timers.graceDue > 0
  {
    o := Options(1, 0, 0, 1);
    var id;
    steps, t, id := ReachesOneSession(o);
    PlaysOn(o, Fresh, steps, t, RequestStop(Running));
    steps, t := steps + [RequestStop(Running)], Apply(o, t, RequestStop(Running));
    StopsWithGrace(o, t, id);
    PlaysOn(o, Fresh, steps, t, RunStop);
    steps, t := steps + [RunStop], Apply(o, t, RunStop);
    var u := EndsAfterGrace(o, t, id);
    var last := [GraceExpires, SessionTask(id, Q.Begin(Threw(IoError), Q.Dropped)), SessionFinished(id, Returned)];
    PlaysThrough(o, Fresh, steps, t, last, u);
    steps, t := steps + last, u;
  }

  // ----- a retry budget that outlives its generation -----

  /** Running with one accept in flight and nothing else. */
  predicate Quiet(s: State) { s.Phase().Running? && s.door.pending && |s.door.ops| == 1 && s.pool.live == [] }

  lemma FailsOnce(o: Options, s: State, ec: ErrorCode)
    requires o.Valid() && Quiet(s) && ec.Transient()
    ensures var t := Apply(o, s, AcceptDone(ec, Returned, Returned));
            && t.door.errors == s.door.errors + 1 && t.Generation() == s.Generation()
            && if t.door.errors >= o.maxConsecutiveErrors then t.Phase().Stopped?
               else
                 && t.Phase().Running? && t.timers.retryArmed && t.pool.live == []
                 && !t.door.pending && t.door.ops == []
  {
    assert Apply(o, s, AcceptDone(ec, Returned, Returned)) == RetryAccept(o, s.(door := Opened(s.door)), ec);
  }

  lemma RetriesOnce(o: Options, s: State) returns (t: State)
    requires o.Valid() && s.Phase().Running? && s.timers.retryArmed && s.pool.live == []
    requires !s.door.pending && s.door.ops == []
    ensures Plays(o, s, [RetryExpires, RetryFires(NoError, Returned)], t)
    ensures Quiet(t) && t.door.errors == s.door.errors && t.Generation() == s.Generation()
  {
    var p := Apply(o, s, RetryExpires);
    t := Apply(o, p, RetryFires(NoError, Returned));
    PlaysOn(o, s, [], s, RetryExpires);
    PlaysOn(o, s, [] + [RetryExpires], p, RetryFires(NoError, Returned));
    assert [] + [RetryExpires] + [RetryFires(NoError, Returned)] == [RetryExpires, RetryFires(NoError, Returned)];
  }

  /** Keeps failing until the listener gives up. */
  lemma {:induction false} GivesUp(o: Options, s: State, ec: ErrorCode) returns (steps: seq<Step>, t: State)
    requires o.Valid() && Quiet(s) && ec.Transient()
    ensures Plays(o, s, steps, t)
    ensures t.Phase().Stopped? && t.door.errors >= o.maxConsecutiveErrors && t.Generation() == s.Generation()
    decreases o.maxConsecutiveErrors - s.door.errors
  {
    var fail := AcceptDone(ec, Returned, Returned);
    FailsOnce(o, s, ec);
    var p := Apply(o, s, fail);
    PlaysOn(o, s, [], s, fail);
    if p.door.errors >= o.maxConsecutiveErrors {
      steps, t := [] + [fail], p;
    } else {
      var retry := [RetryExpires, RetryFires(NoError, Returned)];
      var q := RetriesOnce(o, p);
      PlaysThrough(o, s, [] + [fail], p, retry, q);
      var rest;
      rest, t := GivesUp(o, q, ec);
      steps := [] + [fail] + retry + rest;
      PlaysThrough(o, s, [] + [fail] + retry, q, rest, t);
    }
  }

  /** The states that `steps` lead through. */
  lemma {:induction false} PlayStates(o: Options, s: State, steps: seq<Step>, t: State) returns (states: seq<State>)
    requires Plays(o, s, steps, t)
    ensures |states| == |steps| + 1 && states[0] == s && states[|steps|] == t
    ensures forall i :: 0 <= i < |steps| ==>
              Enabled(states[i], steps[i]) && states[i + 1] == Apply(o, states[i], steps[i])
    decreases |steps|
  {
    if steps == [] {
      states := [s];
    } else {
      var rest := PlayStates(o, Apply(o, s, steps[0]), steps[1..], t);
      states := [s] + rest;
      forall i | 0 <= i < |steps|
        ensures Enabled(states[i], steps[i]) && states[i + 1] == Apply(o, states[i], steps[i])
      {
        if i > 0 { assert steps[i] == steps[1..][i - 1] && states[i] == rest[i - 1]; }
      }
    }
  }

  /** What is proved of runs holds of what can be played from the beginning. */
  lemma PlayIsRun(o: Options, steps: seq<Step>, t: State) returns (states: seq<State>)
    requires o.Valid() && Plays(o, Fresh, steps, t)
    ensures T.IsRun(o, states, steps) && states[|steps|] == t && Inv(o, t)
  {
    states := PlayStates(o, Fresh, steps, t);
    T.RunKeepsInv(o, states, steps, |steps|);
  }

  lemma GivesUpFirst(o: Options, ec: ErrorCode) returns (steps: seq<Step>, t: State)
    requires o.Valid() && ec.Transient()
    ensures Plays(o, Fresh, steps, t) && Inv(o, t)
    ensures t.Phase().Stopped? && t.Generation() == 1 && t.door.errors >= o.maxConsecutiveErrors
  {
    var first, up := StartsAgain(o, Fresh);
    var rest;
    rest, t := GivesUp(o, up, ec);
    steps := first + rest;
    PlaysThrough(o, Fresh, first, up, rest, t);
    var _ := PlayIsRun(o, steps, t);
  }

  /** With any options there is a run that gives up in its first generation and whose second
      generation is ended by its very first failure. */
  lemma GivingUpSurvivesRestart(o: Options, ec: ErrorCode)
    returns (first: seq<Step>, gaveUp: State, second: seq<Step>, restarted: State)
    requires o.Valid() && ec.Transient()
    ensures Plays(o, Fresh, first, gaveUp) && gaveUp.Phase().Stopped? && gaveUp.Generation() == 1
    ensures Plays(o, gaveUp, second, restarted) && restarted.Phase().Running? && restarted.Generation() == 2
    ensures Enabled(restarted, AcceptDone(ec, Returned, Returned))
    ensures Apply(o, restarted, AcceptDone(ec, Returned, Returned)).Phase().Stopped?
  {
    first, gaveUp := GivesUpFirst(o, ec);
    second, restarted := StartsAgain(o, gaveUp);
    FailsOnce(o, restarted, ec);
  }

  // ----- an exception that maps to no error -----

  /** A start that reaches the first accept leaves a listener that is stopped or will
      accept if and only if an exception thrown there maps to an error, or the retry callback
      of an earlier generation is still to run. */
  lemma LaunchIsSoundIff(o: Options, s: State, id: nat, accept: Outcome)
    requires o.Valid() && Inv(o, s) && (s.Phase().Idle? || s.Phase().Stopped?)
    requires A.Pending(s.face, id) && !s.face.starts.ops[id].cancelled
    ensures accept.Mapped() || s.timers.retryDue > 0 <==>
              var t := Start(o, s, id, NoError, accept);
              t.Phase().Stopped? || (t.Phase().Running? && WillAccept(o, t))
  {}

  /** A failed accept initiation ends the generation with an error that matches its reason
      if and only if the exception maps to an error. */
  lemma AcceptFailureIsSoundIff(o: Options, s: State, code: ErrorCode)
    requires o.Valid() && Inv(o, s) && s.Phase().Running? && !Blocked(o, s)
    ensures code != NoError <==>
              var life := AcceptNext(o, s, Threw(code)).face.life;
              L.ValidCause(life.terminal, life.reason)
  {}
}
