/** When a stop request prevails over a start. Whether it does for a listener is settled at the
    moment the start is posted to it. */
module ServerPrecedence {
  import opened Types
  import opened M = ServerStart
  import A = AbstractListener
  import C = ServerControl
  import G = OperationGroup
  import U = Strands

  /** The listener is idle with nothing queued, or somebody who found it not stopped is about to
      post a stop. */
  predicate Safe(s: Server, i: nat)
    requires i < |s.strands|
  {
    (s.strands[i].Phase().Idle? && s.strands[i].queue == []) || Posts(s.askers, i)
  }

  // ----- it prevails -----

  predicate Secure(s: Server, i: nat) {
    i < |s.strands| && (Posts(s.askers, i) || U.Firm(s.strands[i]))
  }

  lemma LaunchSecures(s: Server)
    requires Inv(s) && Enabled(s, Launch) && Safe(s, s.group.loop.next)
    ensures var i := s.group.loop.next;
            Secure(Apply(s, Launch), i) && Apply(s, Launch).group.children[i].Initiated?
  {
    U.PostsKeepFirm(s.strands[s.group.loop.next]);
  }

  lemma NewAskerPosts(askers: map<Thread, Asker>, x: Thread, a: Asker, i: nat)
    requires x !in askers && !a.posting
    ensures Posts(askers[x := a], i) <==> Posts(askers, i)
  {
    PostsKept(askers, x, a, i);
    if Posts(askers[x := a], i) {
      var t :| t in askers[x := a] && askers[x := a][t].at == i && askers[x := a][t].posting;
      assert t in askers && askers[t] == askers[x := a][t];
    }
  }

  lemma AskKeepsSecure(s: Server, step: Step, i: nat)
    requires Inv(s) && Enabled(s, step) && Secure(s, i) && (step.AskRead? || step.AskPost?)
    ensures Secure(Apply(s, step), i)
  {
    var x := step.t;
    var t := Apply(s, step);
    U.PostsKeepFirm(s.strands[s.askers[x].at]);
    if s.askers[x].at != i || !s.askers[x].posting { PostsKept(s.askers, x, t.askers[x], i); }
  }

  /** A start that has been posted is not posted again. */
  lemma StaysInitiated(s: Server, step: Step, i: nat)
    requires Inv(s) && Enabled(s, step) && OfGroup(step) && i < |s.strands| && s.group.children[i].Initiated?
    ensures var t := Apply(s, step);
            t.group.Size() == s.group.Size() && t.group.children[i].Initiated? && t.strands[i] == s.strands[i]
  {
    G.StepOnChild(s.group, GroupStep(s, step), i);
  }

  lemma GroupKeepsPosts(s: Server, step: Step, i: nat)
    requires Inv(s) && Enabled(s, step) && OfGroup(step) && Posts(s.askers, i)
    ensures Posts(Apply(s, step).askers, i)
  {
    GroupFacts(s.group, GroupStep(s, step));
    if Failer !in s.askers { NewAskerPosts(s.askers, Failer, Beginning(s), i); }
  }

  lemma GroupKeepsSecure(s: Server, step: Step, i: nat)
    requires Inv(s) && Enabled(s, step) && Secure(s, i) && OfGroup(step) && s.group.children[i].Initiated?
    ensures Secure(Apply(s, step), i)
  {
    StaysInitiated(s, step, i);
    if Posts(s.askers, i) { GroupKeepsPosts(s, step, i); }
  }

  lemma TaskKeepsSecure(s: Server, step: Step, i: nat)
    requires Inv(s) && Enabled(s, step) && Secure(s, i) && (step.RunTask? || step.ByItself?)
    ensures Secure(Apply(s, step), i)
  {
    if step.i == i && U.Firm(s.strands[i]) {
      if step.RunTask? { U.RunKeepsFirm(s.strands[i], step.m); } else { U.OwnKeepsFirm(s.strands[i], step.m); }
    }
  }

  lemma StepKeepsSecure(s: Server, step: Step, i: nat)
    requires Inv(s) && Enabled(s, step) && Secure(s, i) && s.group.children[i].Initiated?
    ensures Secure(Apply(s, step), i)
    ensures Apply(s, step).group.Size() == s.group.Size() && Apply(s, step).group.children[i].Initiated?
  {
    match step
    case Control(_) =>
    case Look => if Starter !in s.askers { NewAskerPosts(s.askers, Starter, Beginning(s), i); }
    case AskBegin(call) => NewAskerPosts(s.askers, Stopper(call), Beginning(s), i);
    case AskRead(_) => AskKeepsSecure(s, step, i);
    case AskPost(_) => AskKeepsSecure(s, step, i);
    case RunTask(_, _) => TaskKeepsSecure(s, step, i);
    case ByItself(_, _) => TaskKeepsSecure(s, step, i);
    case _ =>
      StaysInitiated(s, step, i);
      GroupKeepsSecure(s, step, i);
  }

  lemma {:induction false} PlayKeepsSecure(s: Server, steps: seq<Step>, t: Server, i: nat)
    requires Inv(s) && Plays(s, steps, t) && Secure(s, i) && s.group.children[i].Initiated?
    ensures Inv(t) && Secure(t, i)
    decreases |steps|
  {
    if steps != [] {
      StepKeepsInv(s, steps[0]);
      StepKeepsSecure(s, steps[0], i);
      PlayKeepsSecure(Apply(s, steps[0]), steps[1..], t, i);
    }
  }

  /** Posted to a listener where it is safe, a start cannot outlive a stop request. */
  lemma SafeStartIsStopped(s: Server, steps: seq<Step>, t: Server, call: nat)
    requires Inv(s) && Enabled(s, Launch) && Safe(s, s.group.loop.next)
    requires Plays(Apply(s, Launch), steps, t) && Over(t, call)
    ensures s.group.loop.next < |t.strands| && !U.CanEndRunning(t.strands[s.group.loop.next])
  {
    var i := s.group.loop.next;
    StepKeepsInv(s, Launch);
    LaunchSecures(s);
    PlayKeepsSecure(Apply(s, Launch), steps, t, i);
    LostOnlyIfFoundStopped(t, call, i);
    NobodyPosts(t, i);
    if U.CanEndRunning(t.strands[i]) { U.FirmCannotEndRunning(t.strands[i]); }
  }

  // ----- it does not -----

  lemma {:induction false} PlaysThrough(s: Server, first: seq<Step>, p: Server, second: seq<Step>, t: Server)
    requires Plays(s, first, p) && Plays(p, second, t)
    ensures Plays(s, first + second, t)
    decreases |first|
  {
    if first == [] {
      assert first + second == second;
    } else {
      PlaysThrough(Apply(s, first[0]), first[1..], p, second, t);
      assert (first + second)[1..] == first[1..] + second;
    }
  }

  lemma PlaysFirst(s: Server, step: Step, rest: seq<Step>, t: Server)
    requires s.Shaped() && Enabled(s, step) && Plays(Apply(s, step), rest, t)
    ensures Plays(s, [step] + rest, t)
  {
    assert ([step] + rest)[1..] == rest;
  }

  /** Nobody who asks has moved and nothing has happened to the listeners. */
  predicate Untouched(s: Server, t: Server, i: nat) {
    && t.strands == s.strands && t.control == s.control && t.check == s.check
    && s.askers.Keys <= t.askers.Keys && (Posts(t.askers, i) ==> Posts(s.askers, i))
  }

  /** Steps left in the initiation loop. */
  function Left(g: G.Group): int {
    3 * (g.Size() - g.loop.next) - if g.loop.phase.Initiating? then 0 else if g.loop.phase.Reading? then 1 else 2
  }

  /** What the initiating thread does next, if the remaining starts all fail to be made. */
  function LoopStep(s: Server): Step {
    if s.group.loop.phase.Initiating? then LaunchFails(IoError)
    else if s.group.loop.phase.Reading? then Loop(G.ReadFlag)
    else Loop(G.EmitFlag)
  }

  lemma LoopStepEffect(s: Server, i: nat)
    requires Inv(s) && !LoopOver(s.group)
    ensures Enabled(s, LoopStep(s))
    ensures var t := Apply(s, LoopStep(s)); Untouched(s, t, i) && 0 <= Left(t.group) < Left(s.group)
  {}

  lemma {:induction false} LoopEnds(s: Server, i: nat) returns (steps: seq<Step>, t: Server)
    requires Inv(s)
    ensures Plays(s, steps, t) && Inv(t) && LoopOver(t.group) && Untouched(s, t, i)
    decreases Left(s.group)
  {
    if LoopOver(s.group) {
      steps, t := [], s;
    } else {
      LoopStepEffect(s, i);
      StepKeepsInv(s, LoopStep(s));
      steps, t := LoopEnds(Apply(s, LoopStep(s)), i);
      PlaysFirst(s, LoopStep(s), steps, t);
      steps := [LoopStep(s)] + steps;
    }
  }

  lemma CountEffect(s: Server, i: nat)
    requires Inv(s) && LoopOver(s.group) && s.group.loop.failNext < s.group.Size()
    ensures Enabled(s, Loop(G.CountFailure))
    ensures var t := Apply(s, Loop(G.CountFailure));
            && Untouched(s, t, i) && LoopOver(t.group) && t.group.Size() == s.group.Size()
            && t.group.loop.failNext == s.group.loop.failNext + 1
  {
    GroupFacts(s.group, G.CountFailure);
    if Failer !in s.askers { NewAskerPosts(s.askers, Failer, Beginning(s), i); }
  }

  /** Both loops are over. */
  predicate LoopsOver(g: G.Group) { g.loop.next == g.loop.failNext == g.Size() }

  lemma {:induction false} CountEnds(s: Server, i: nat) returns (steps: seq<Step>, t: Server)
    requires Inv(s) && LoopOver(s.group)
    ensures Plays(s, steps, t) && Inv(t) && LoopsOver(t.group) && Untouched(s, t, i)
    decreases s.group.Size() - s.group.loop.failNext
  {
    if s.group.loop.failNext == s.group.Size() {
      steps, t := [], s;
    } else {
      CountEffect(s, i);
      StepKeepsInv(s, Loop(G.CountFailure));
      steps, t := CountEnds(Apply(s, Loop(G.CountFailure)), i);
      PlaysFirst(s, Loop(G.CountFailure), steps, t);
      steps := [Loop(G.CountFailure)] + steps;
    }
  }

  /** What a strand can do by itself, it can do here. */
  lemma {:induction false} StrandPlays(s: Server, i: nat, events: seq<U.Event>, v: U.Strand) returns (steps: seq<Step>)
    requires s.Shaped() && i < |s.strands| && U.Plays(s.strands[i], events, v)
    ensures Plays(s, steps, s.(strands := s.strands[i := v]))
    decreases |events|
  {
    if events == [] {
      steps := [];
      assert s.strands[i := v] == s.strands;
    } else {
      var e := events[0];
      var u := if e.RunHead? then U.Run(s.strands[i], e.m) else U.Alone(s.strands[i], e.m);
      var step := if e.RunHead? then RunTask(i, e.m) else ByItself(i, e.m);
      var p := s.(strands := s.strands[i := u]);
      assert Apply(s, step) == p;
      steps := StrandPlays(p, i, events[1..], v);
      assert p.strands[i := v] == s.strands[i := v];
      PlaysFirst(s, step, steps, s.(strands := s.strands[i := v]));
      steps := [step] + steps;
    }
  }

  /** The listener is stopped, and its start is the one task left. */
  predicate Poised(s: Server, i: nat, id: nat) {
    && i < |s.strands| && s.strands[i].queue == [U.StartTask(id)] && s.strands[i].Phase().Stopped?
    && !Posts(s.askers, i)
  }

  /** The loops end, and the listener stops before its start runs. */
  lemma BecomesPoised(s: Server, i: nat, id: nat) returns (steps: seq<Step>, t: Server)
    requires Inv(s) && i < |s.strands| && !Posts(s.askers, i)
    requires s.strands[i].queue != [] && U.Last(s.strands[i].queue) == U.StartTask(id)
    requires s.strands[i].Phase().Idle? ==> |s.strands[i].queue| > 1
    ensures Plays(s, steps, t) && Inv(t) && Poised(t, i, id) && LoopsOver(t.group)
    ensures t.control == s.control && t.check == s.check && s.askers.Keys <= t.askers.Keys
  {
    var a, p := LoopEnds(s, i);
    var b, q := CountEnds(p, i);
    PlaysThrough(s, a, p, b, q);
    var events, v := U.StopsFirst(q.strands[i], id);
    var c := StrandPlays(q, i, events, v);
    t := q.(strands := q.strands[i := v]);
    steps := a + b + c;
    PlaysThrough(s, a + b, q, c, t);
    PlayKeepsInv(s, steps, t);
  }

  // ----- the stop request, and everybody who asks -----

  lemma {:induction false} AdvancePlays(s: Server, call: nat, n: nat) returns (steps: seq<Step>)
    requires s.Shaped() && C.Enabled(s.control, C.Advance(call, false))
    ensures Plays(s, steps, s.(control := C.Advanced(s.control, call, n)))
  {
    if n == 0 {
      steps := [];
    } else {
      steps := AdvancePlays(s, call, n - 1);
      var p := s.(control := C.Advanced(s.control, call, n - 1));
      var last := Control(C.Advance(call, false));
      assert Plays(Apply(p, last), [], Apply(p, last));
      PlaysFirst(p, last, [], Apply(p, last));
      PlaysThrough(s, steps, p, [last] + [], Apply(p, last));
      steps := steps + ([last] + []);
    }
  }

  /** The call has returned, or can still be made. */
  predicate Available(c: C.Control, call: nat) {
    call !in c.calls || (AskedToStop(c, call) && Unrestarted(c, call))
  }

  lemma Requests(s: Server, call: nat) returns (steps: seq<Step>, t: Server)
    requires Inv(s) && Available(s.control, call)
    ensures Plays(s, steps, t) && t == s.(control := t.control)
    ensures AskedToStop(t.control, call) && Unrestarted(t.control, call)
  {
    if call in s.control.calls {
      steps, t := [], s;
    } else {
      var ask := Control(C.Call(call, C.RequestStop));
      var n, d := C.StopReturns(s.control, call);
      steps := AdvancePlays(Apply(s, ask), call, n);
      t := s.(control := d);
      PlaysFirst(s, ask, steps, t);
      steps := [ask] + steps;
    }
  }

  /** One more step of thread `x`. */
  function AskStep(s: Server, x: Thread): Step
    requires x in s.askers
  {
    if s.askers[x].posting then AskPost(x) else AskRead(x)
  }

  /** How far thread `x` has to go. */
  function ToGo(s: Server, x: Thread): int
    requires x in s.askers
  {
    2 * (|s.strands| - s.askers[x].at) - if s.askers[x].posting then 1 else 0
  }

  /** Only thread `x` has moved. */
  predicate OnlyMoves(s: Server, t: Server, x: Thread) {
    && t.control == s.control && t.check == s.check && t.group == s.group && |t.strands| == |s.strands|
    && t.askers.Keys == s.askers.Keys && forall y <- s.askers :: y != x ==> t.askers[y] == s.askers[y]
  }

  lemma AskStepEnabled(s: Server, x: Thread)
    requires Inv(s) && x in s.askers && !Finished(s, x)
    ensures s.askers[x].at < |s.strands| && Enabled(s, AskStep(s, x))
  {
    assert AskerInv(s.strands, LoopOver(s.group), s.askers[x]);
  }

  lemma AskStepMoves(s: Server, x: Thread)
    requires s.Shaped() && x in s.askers && s.askers[x].at < |s.strands| && Enabled(s, AskStep(s, x))
    ensures var t := Apply(s, AskStep(s, x)); OnlyMoves(s, t, x) && 0 <= ToGo(t, x) < ToGo(s, x)
  {}

  /** A thread that comes to a stopped listener passes it. */
  lemma NewPosts(askers: map<Thread, Asker>, x: Thread, a: Asker, i: nat)
    requires !Posts(askers, i) && (a.posting ==> a.at != i)
    ensures !Posts(askers[x := a], i)
  {
    var more := askers[x := a];
    forall y | y in more ensures more[y].at != i || !more[y].posting {
      if y != x { assert y in askers && askers[y] == more[y]; }
    }
  }

  lemma AskStepKeepsPoised(s: Server, x: Thread, i: nat, id: nat)
    requires s.Shaped() && Poised(s, i, id) && x in s.askers && Enabled(s, AskStep(s, x))
    ensures Poised(Apply(s, AskStep(s, x)), i, id)
  {
    assert s.askers[x].at == i ==> !s.askers[x].posting;
    NewPosts(s.askers, x, Apply(s, AskStep(s, x)).askers[x], i);
  }

  lemma AskStepEffect(s: Server, x: Thread, i: nat, id: nat)
    requires Inv(s) && Poised(s, i, id) && x in s.askers && !Finished(s, x)
    ensures Enabled(s, AskStep(s, x))
    ensures var t := Apply(s, AskStep(s, x));
            Poised(t, i, id) && OnlyMoves(s, t, x) && 0 <= ToGo(t, x) < ToGo(s, x)
  {
    AskStepEnabled(s, x);
    AskStepMoves(s, x);
    AskStepKeepsPoised(s, x, i, id);
  }

  lemma {:induction false} AskerEnds(s: Server, x: Thread, i: nat, id: nat) returns (steps: seq<Step>, t: Server)
    requires Inv(s) && Poised(s, i, id) && x in s.askers
    ensures Plays(s, steps, t) && Inv(t) && Poised(t, i, id) && OnlyMoves(s, t, x) && Finished(t, x)
    decreases ToGo(s, x)
  {
    if Finished(s, x) {
      steps, t := [], s;
    } else {
      AskStepEffect(s, x, i, id);
      StepKeepsInv(s, AskStep(s, x));
      steps, t := AskerEnds(Apply(s, AskStep(s, x)), x, i, id);
      PlaysFirst(s, AskStep(s, x), steps, t);
      steps := [AskStep(s, x)] + steps;
    }
  }

  function Unfinished(s: Server): set<Thread> { set x | x in s.askers && !Finished(s, x) }

  lemma {:induction false} AskersEnd(s: Server, i: nat, id: nat) returns (steps: seq<Step>, t: Server)
    requires Inv(s) && Poised(s, i, id)
    ensures Plays(s, steps, t) && Inv(t) && Poised(t, i, id) && t.askers.Keys == s.askers.Keys
    ensures t.control == s.control && t.check == s.check && forall x <- t.askers :: Finished(t, x)
    decreases |Unfinished(s)|
  {
    if Unfinished(s) == {} {
      steps, t := [], s;
      forall x | x in s.askers ensures Finished(s, x) { assert x !in Unfinished(s); }
    } else {
      var x :| x in Unfinished(s);
      var first, p := AskerEnds(s, x, i, id);
      FewerUnfinished(s, p, x);
      var rest;
      rest, t := AskersEnd(p, i, id);
      PlaysThrough(s, first, p, rest, t);
      steps := first + rest;
    }
  }

  lemma FewerUnfinished(s: Server, t: Server, x: Thread)
    requires x in Unfinished(s) && OnlyMoves(s, t, x) && Finished(t, x)
    ensures |Unfinished(t)| < |Unfinished(s)|
  {
    assert Unfinished(t) == Unfinished(s) - {x};
  }

  /** The starting thread looks, and the request begins to ask if it has not yet. */
  lemma Looks(s: Server, call: nat, i: nat, id: nat) returns (steps: seq<Step>, t: Server)
    requires Inv(s) && Poised(s, i, id) && LoopsOver(s.group) && s.check.Unchecked? && AskedToStop(s.control, call)
    ensures Plays(s, steps, t) && Poised(t, i, id) && t.check.Checked? && Stopper(call) in t.askers
    ensures t.control == s.control
  {
    NewAskerPosts(s.askers, Starter, Beginning(s), i);
    var p := Apply(s, Look);
    if Stopper(call) in p.askers {
      steps, t := [], p;
    } else {
      NewAskerPosts(p.askers, Stopper(call), Beginning(p), i);
      t := Apply(p, AskBegin(call));
      assert Plays(t, [], t);
      PlaysFirst(p, AskBegin(call), [], t);
      steps := [AskBegin(call)] + [];
    }
    PlaysFirst(s, Look, steps, t);
    steps := [Look] + steps;
  }

  /** Everybody is through, and the listener runs although the server was stopped. */
  predicate RunsAnyway(s: Server, i: nat, call: nat) {
    && Over(s, call) && i < |s.strands| && s.strands[i].queue == [] && s.strands[i].Phase().Running?
  }

  lemma StartsAnyway(s: Server, call: nat, i: nat, id: nat) returns (steps: seq<Step>, t: Server)
    requires Inv(s) && Poised(s, i, id) && Over(s, call)
    ensures Plays(s, steps, t) && RunsAnyway(t, i, call)
  {
    U.ChosenRuns(s.strands[i]);
    t := Apply(s, RunTask(i, A.Launch(id)));
    assert Plays(t, [], t);
    PlaysFirst(s, RunTask(i, A.Launch(id)), [], t);
    steps := [RunTask(i, A.Launch(id))] + [];
    forall x | x in t.askers ensures Finished(t, x) { assert Finished(s, x); }
  }

  lemma PoisedRunsAnyway(s: Server, call: nat, i: nat, id: nat) returns (steps: seq<Step>, t: Server)
    requires Inv(s) && Poised(s, i, id) && LoopsOver(s.group) && s.check.Unchecked? && Available(s.control, call)
    ensures Plays(s, steps, t) && RunsAnyway(t, i, call)
  {
    var a, p := Requests(s, call);
    PlayKeepsInv(s, a, p);
    var b, q := Looks(p, call, i, id);
    PlayKeepsInv(p, b, q);
    var c, r := AskersEnd(q, i, id);
    var d;
    d, t := StartsAnyway(r, call, i, id);
    PlaysThrough(s, a, p, b, q);
    PlaysThrough(s, a + b, q, c, r);
    PlaysThrough(s, a + b + c, r, d, t);
    steps := a + b + c + d;
  }

  /** Posted anywhere else, it can: whatever the others do, the start outlives the request. */
  lemma UnsafeStartCanRun(s: Server, call: nat) returns (steps: seq<Step>, t: Server)
    requires Inv(s) && Enabled(s, Launch) && !Safe(s, s.group.loop.next) && Available(s.control, call)
    ensures Plays(Apply(s, Launch), steps, t) && RunsAnyway(t, s.group.loop.next, call)
  {
    var i := s.group.loop.next;
    var id := s.strands[i].face.starts.lastId + 1;
    var p := Apply(s, Launch);
    StepKeepsInv(s, Launch);
    U.PostStartKeepsInv(s.strands[i]);
    var a, q := BecomesPoised(p, i, id);
    var b;
    b, t := PoisedRunsAnyway(q, call, i, id);
    PlaysThrough(p, a, q, b, t);
    steps := a + b;
  }

  // ----- exactly when -----

  /** However things go on once the start has been posted, no request leaves listener `i` able
      to end up running. */
  ghost predicate Prevails(s: Server, i: nat) {
    forall steps, t, call {:trigger Plays(s, steps, t), Over(t, call)} ::
      Plays(s, steps, t) && Over(t, call) && i < |t.strands| ==> !U.CanEndRunning(t.strands[i])
  }

  /** Stop requests are sure to prevail over a start if and only if, when it is posted, the
      listener is idle with an empty queue or a stop is about to be posted behind it. */
  lemma StopTakesPrecedenceIff(s: Server, call: nat)
    requires Inv(s) && Enabled(s, Launch) && Available(s.control, call)
    ensures Safe(s, s.group.loop.next) <==> Prevails(Apply(s, Launch), s.group.loop.next)
  {
    var i := s.group.loop.next;
    if Safe(s, i) {
      forall steps, t, c | Plays(Apply(s, Launch), steps, t) && Over(t, c) && i < |t.strands|
        ensures !U.CanEndRunning(t.strands[i])
      {
        SafeStartIsStopped(s, steps, t, c);
      }
    } else {
      var steps, t := UnsafeStartCanRun(s, call);
      RunningCanEndRunning(t.strands[i]);
    }
  }

  lemma RunningCanEndRunning(u: U.Strand)
    requires u.queue == [] && u.Phase().Running?
    ensures U.CanEndRunning(u)
  {
    assert U.Plays(u, [], u);
  }

  // ----- from the beginning -----

  function AtRest(a: A.Listener): U.Strand { U.Strand(a, [], 0, []) }

  /** On a restart the listener is stopped, and a request can find it so until its start runs. */
  lemma StopIsLostOnRestart(c: C.Control, start: nat, a: A.Listener, call: nat) returns (steps: seq<Step>, t: Server)
    requires CanBegin(c, start, [AtRest(a)]) && a.life.state.Stopped? && call !in c.calls
    ensures Plays(Begun(c, start, [AtRest(a)]), steps, t) && RunsAnyway(t, 0, call)
  {
    var s := Begun(c, start, [AtRest(a)]);
    BegunIsGood(c, start, [AtRest(a)]);
    steps, t := UnsafeStartCanRun(s, call);
    PlaysFirst(s, Launch, steps, t);
    steps := [Launch] + steps;
  }

  /** The request `call` has posted its stop to the one listener, which was idle. */
  lemma AskIdleEffect(s: Server, call: nat, a: A.Listener)
    requires s.Shaped() && s.strands == [AtRest(a)] && a.life.state.Idle? && s.askers == map[]
    requires AskedToStop(s.control, call) && s.group == G.Fresh(1, true)
    ensures Enabled(s, AskBegin(call))
    ensures var p := Apply(s, AskBegin(call));
            && p.Shaped() && Enabled(p, AskRead(Stopper(call)))
            && var q := Apply(p, AskRead(Stopper(call)));
               && q.Shaped() && Enabled(q, AskPost(Stopper(call)))
               && var r := Apply(q, AskPost(Stopper(call)));
                  && r.Shaped() && Enabled(r, Launch) && r.control == s.control
                  && r.strands[0].queue == [U.StopTask]
                  && r.askers == map[Stopper(call) := Asker(1, false, false)]
  {}

  lemma AsksFirst(s: Server, call: nat, a: A.Listener) returns (steps: seq<Step>, r: Server)
    requires s.Shaped() && s.strands == [AtRest(a)] && a.life.state.Idle? && s.askers == map[]
    requires AskedToStop(s.control, call) && s.group == G.Fresh(1, true)
    ensures Plays(s, steps, r) && r.Shaped() && Enabled(r, Launch) && r.control == s.control && |r.strands| == 1
    ensures r.strands[0].queue == [U.StopTask] && r.askers == map[Stopper(call) := Asker(1, false, false)]
    ensures r.group.loop.next == 0
  {
    AskIdleEffect(s, call, a);
    var p := Apply(s, AskBegin(call));
    var q := Apply(p, AskRead(Stopper(call)));
    r := Apply(q, AskPost(Stopper(call)));
    assert Plays(r, [], r);
    PlaysFirst(q, AskPost(Stopper(call)), [], r);
    PlaysFirst(p, AskRead(Stopper(call)), [AskPost(Stopper(call))] + [], r);
    steps := [AskBegin(call)] + ([AskRead(Stopper(call))] + ([AskPost(Stopper(call))] + []));
    PlaysFirst(s, AskBegin(call), [AskRead(Stopper(call))] + ([AskPost(Stopper(call))] + []), r);
  }

  lemma RequestedFirst(c: C.Control, start: nat, a: A.Listener, call: nat) returns (steps: seq<Step>, s: Server)
    requires CanBegin(c, start, [AtRest(a)]) && call !in c.calls
    ensures Plays(Begun(c, start, [AtRest(a)]), steps, s) && Inv(s)
    ensures s.strands == [AtRest(a)] && s.askers == map[] && s.group == G.Fresh(1, true)
    ensures AskedToStop(s.control, call) && Unrestarted(s.control, call)
  {
    var begun := Begun(c, start, [AtRest(a)]);
    BegunIsGood(c, start, [AtRest(a)]);
    steps, s := Requests(begun, call);
    PlayKeepsInv(begun, steps, s);
  }

  lemma AskedFirst(c: C.Control, start: nat, a: A.Listener, call: nat) returns (steps: seq<Step>, s: Server)
    requires CanBegin(c, start, [AtRest(a)]) && a.life.state.Idle? && call !in c.calls
    ensures Plays(Begun(c, start, [AtRest(a)]), steps, s) && Inv(s) && Enabled(s, Launch)
    ensures s.group.loop.next == 0 < |s.strands| && !Safe(s, 0) && Available(s.control, call)
  {
    var first, p := RequestedFirst(c, start, a, call);
    var second;
    second, s := AsksFirst(p, call, a);
    PlaysThrough(Begun(c, start, [AtRest(a)]), first, p, second, s);
    steps := first + second;
    PlayKeepsInv(p, second, s);
  }

  /** On a first start too, if the request gets in before the start is posted. */
  lemma StopIsLostOnFirstStart(c: C.Control, start: nat, a: A.Listener, call: nat)
    returns (steps: seq<Step>, t: Server)
    requires CanBegin(c, start, [AtRest(a)]) && a.life.state.Idle? && call !in c.calls
    ensures Plays(Begun(c, start, [AtRest(a)]), steps, t) && RunsAnyway(t, 0, call)
  {
    var s, rest;
    steps, s := AskedFirst(c, start, a, call);
    rest, t := UnsafeStartCanRun(s, call);
    PlaysFirst(s, Launch, rest, t);
    PlaysThrough(Begun(c, start, [AtRest(a)]), steps, s, [Launch] + rest, t);
    steps := steps + ([Launch] + rest);
  }

  // ----- a failed start -----

  /** The group failed early: it has gone through the listeners and nobody else asks. */
  predicate FailedEarly(s: Server) { s.askers.Keys == {Failer} && Finished(s, Failer) }

  lemma {:induction false} CountEndsQuietly(s: Server) returns (steps: seq<Step>, t: Server)
    requires Inv(s) && LoopOver(s.group) && Failer in s.askers
    ensures Plays(s, steps, t) && Inv(t) && LoopsOver(t.group)
    ensures t.askers == s.askers && t.strands == s.strands && t.control == s.control && t.check == s.check
    decreases s.group.Size() - s.group.loop.failNext
  {
    if s.group.loop.failNext == s.group.Size() {
      steps, t := [], s;
    } else {
      CountEffect(s, 0);
      GroupFacts(s.group, G.CountFailure);
      StepKeepsInv(s, Loop(G.CountFailure));
      steps, t := CountEndsQuietly(Apply(s, Loop(G.CountFailure)));
      PlaysFirst(s, Loop(G.CountFailure), steps, t);
      steps := [Loop(G.CountFailure)] + steps;
    }
  }

  lemma {:induction false} LoopEndsQuietly(s: Server) returns (steps: seq<Step>, t: Server)
    requires Inv(s) && Failer in s.askers
    ensures Plays(s, steps, t) && Inv(t) && LoopOver(t.group)
    ensures t.askers == s.askers && t.strands == s.strands && t.control == s.control && t.check == s.check
    decreases Left(s.group)
  {
    if LoopOver(s.group) {
      steps, t := [], s;
    } else {
      LoopStepEffect(s, 0);
      StepKeepsInv(s, LoopStep(s));
      steps, t := LoopEndsQuietly(Apply(s, LoopStep(s)));
      PlaysFirst(s, LoopStep(s), steps, t);
      steps := [LoopStep(s)] + steps;
    }
  }

  /** The loops end and the strand runs its start, with nobody asking. */
  lemma RunsUnasked(p: Server, i: nat) returns (steps: seq<Step>, t: Server)
    requires Inv(p) && FailedEarly(p) && i < |p.strands| && U.Unstopped(p.strands[i])
    ensures Plays(p, steps, t) && Inv(t) && LoopsOver(t.group) && FailedEarly(t)
    ensures t.control == p.control && t.check == p.check && i < |t.strands|
    ensures t.strands[i].found == p.strands[i].found && t.strands[i].queue == [] && t.strands[i].Phase().Running?
  {
    var a, q := LoopEndsQuietly(p);
    var b, r := CountEndsQuietly(q);
    PlaysThrough(p, a, q, b, r);
    var events, v := U.FirstDrains(r.strands[i]);
    U.PlayKeepsFound(r.strands[i], events, v);
    var c := StrandPlays(r, i, events, v);
    t := r.(strands := r.strands[i := v]);
    PlaysThrough(p, a + b, r, c, t);
    steps := a + b + c;
    PlayKeepsInv(p, steps, t);
  }

  /** A listener started after that can run although the start has failed, and nobody has asked
      it to stop or ever will. */
  lemma EarlyFailureMissesLaterListener(s: Server) returns (steps: seq<Step>, t: Server)
    requires Inv(s) && Enabled(s, Launch) && FailedEarly(s) && !Halting(s.control.shared.state)
    ensures Plays(Apply(s, Launch), steps, t) && t.check.Checked? && FailedEarly(t) && t.group.tally.first != NoError
    ensures var i := s.group.loop.next;
            && i < |t.strands| && t.strands[i].found == []
            && t.strands[i].queue == [] && t.strands[i].Phase().Running?
  {
    var i := s.group.loop.next;
    StepKeepsInv(s, Launch);
    U.PostStartKeepsInv(s.strands[i]);
    var u;
    steps, u := RunsUnasked(Apply(s, Launch), i);
    t := LooksElsewhere(u);
    PlaysThrough(Apply(s, Launch), steps, u, [Look], t);
    steps := steps + [Look];
  }

  lemma LooksElsewhere(s: Server) returns (t: Server)
    requires Inv(s) && LoopsOver(s.group) && s.check.Unchecked? && FailedEarly(s) && !Halting(s.control.shared.state)
    ensures Plays(s, [Look], t) && t == s.(check := t.check) && t.check.Checked? && s.group.tally.first != NoError
  {
    t := Apply(s, Look);
    assert Plays(t, [], t);
    PlaysFirst(s, Look, [], t);
    assert [Look] + [] == [Look];
  }

  /** Listener 0 of two is started. */
  lemma FirstStartsEffect(s: Server)
    requires s.Shaped() && s.group == G.Fresh(2, true)
    ensures Enabled(s, Launch)
    ensures var p := Apply(s, Launch);
            && p.Shaped() && p.group.children == [G.Initiated, G.Waiting] && p.group.loop == G.Loop(0, G.Reading, 0)
            && p.group.tally == s.group.tally && p.group.stopOnError
            && p.strands == s.strands[0 := U.PostStart(s.strands[0])]
            && p.ids[0] == s.strands[0].face.starts.lastId + 1 && p.askers == s.askers && p.control == s.control
  {}

  /** Its start fails. */
  lemma FirstFailsEffect(p: Server, a: A.Listener, id: nat)
    requires p.Shaped() && p.group.Size() == 2 && p.strands[0] == U.PostStart(AtRest(a)) && A.Inv(a)
    requires id == a.starts.lastId + 1 && a.life.state.Stopped?
    ensures Enabled(p, RunTask(0, A.LaunchFails(id, IoError, false)))
    ensures var q := Apply(p, RunTask(0, A.LaunchFails(id, IoError, false)));
            && q == p.(strands := q.strands) && q.strands[1] == p.strands[1] && q.strands[0].Phase().Stopped?
            && A.StartResults(q.strands[0].face, id) == [IoError]
  {}

  lemma ReportEffect(q: Server, id: nat)
    requires q.Shaped() && q.group.children == [G.Initiated, G.Waiting] && q.group.tally == G.Fresh(2, true).tally
    requires q.ids[0] == id && A.StartResults(q.strands[0].face, id) == [IoError] && q.askers == map[]
    requires q.group.loop == G.Loop(0, G.Reading, 0) && q.group.stopOnError
    ensures Enabled(q, ChildDone(0))
    ensures var r := Apply(q, ChildDone(0));
            && r.Shaped() && r.strands == q.strands && r.control == q.control && r.check == q.check
            && r.askers == map[Failer := Asker(0, false, false)]
            && r.group.loop == q.group.loop && r.group.children == q.group.children
  {
    assert [IoError][0] == IoError;
  }

  /** Both listeners are found stopped. */
  lemma FailerEffect(r: Server)
    requires r.Shaped() && |r.strands| == 2 && r.askers == map[Failer := Asker(0, false, false)]
    requires r.strands[0].Phase().Stopped? && r.strands[1].Phase().Stopped?
    ensures Enabled(r, AskRead(Failer))
    ensures var a := Apply(r, AskRead(Failer));
            && a.Shaped() && Enabled(a, AskRead(Failer))
            && var b := Apply(a, AskRead(Failer)); FailedEarly(b) && b.group == r.group && b.control == r.control
  {}

  lemma LoopOnEffect(b: Server)
    requires b.Shaped() && b.group.children == [G.Initiated, G.Waiting] && b.group.loop == G.Loop(0, G.Reading, 0)
    ensures Enabled(b, Loop(G.ReadFlag))
    ensures var c := Apply(b, Loop(G.ReadFlag));
            && c.Shaped() && Enabled(c, Loop(G.EmitFlag))
            && var d := Apply(c, Loop(G.EmitFlag));
               && d.Shaped() && Enabled(d, Launch) && d.askers == b.askers && d.control == b.control
               && |d.strands| == |b.strands|
  {}

  lemma Then(s: Server, steps: seq<Step>, p: Server, step: Step) returns (more: seq<Step>, t: Server)
    requires Plays(s, steps, p) && p.Shaped() && Enabled(p, step)
    ensures Plays(s, more, t) && t == Apply(p, step)
  {
    t := Apply(p, step);
    assert Plays(t, [], t);
    PlaysFirst(p, step, [], t);
    more := steps + ([step] + []);
    PlaysThrough(s, steps, p, [step] + [], t);
  }

  /** This happens: the first of two starts fails, and the group has asked both listeners before
      it starts the second. */
  lemma EarlyFailureIsReachable(c: C.Control, start: nat, a: A.Listener, b: A.Listener)
    returns (steps: seq<Step>, t: Server)
    requires CanBegin(c, start, [AtRest(a), AtRest(b)]) && a.life.state.Stopped? && b.life.state.Stopped?
    ensures Plays(Begun(c, start, [AtRest(a), AtRest(b)]), steps, t)
    ensures t.Shaped() && Enabled(t, Launch) && FailedEarly(t) && t.control == c
  {
    var s := Begun(c, start, [AtRest(a), AtRest(b)]);
    var id := a.starts.lastId + 1;
    assert Plays(s, [], s);
    FirstStartsEffect(s);
    steps, t := Then(s, [], s, Launch);
    FirstFailsEffect(t, a, id);
    steps, t := Then(s, steps, t, RunTask(0, A.LaunchFails(id, IoError, false)));
    ReportEffect(t, id);
    steps, t := Then(s, steps, t, ChildDone(0));
    FailerEffect(t);
    steps, t := Then(s, steps, t, AskRead(Failer));
    steps, t := Then(s, steps, t, AskRead(Failer));
    LoopOnEffect(t);
    steps, t := Then(s, steps, t, Loop(G.ReadFlag));
    steps, t := Then(s, steps, t, Loop(G.EmitFlag));
  }
}
