/** A server start with stop requests running against it: the server lifecycle, the group that
    starts the listeners, the strands of the listeners, and every thread that walks the
    listeners asking each to stop. The start itself is not cancelled. */
module ServerStart {
  import opened Types
  import A = AbstractListener
  import C = ServerControl
  import G = OperationGroup
  import U = Strands

  /** Who asks the listeners to stop: the starting thread after its loops, the group at its
      first error, or a stop request to the server, known by its call. */
  datatype Thread = Starter | Failer | Stopper(call: nat)

  /** It is done with the listeners below `at`; `posting`: it has found listener `at` not stopped
      and is about to post. `late`: it began after the initiation loop. */
  datatype Asker = Asker(at: nat, posting: bool, late: bool)

  /** Whether the starting thread has looked for a stop, and how long the log was then. */
  datatype Check = Unchecked | Checked(at: nat)

  /** `start` is the call that began the server's start, and `ids[i]` the start the group issued
      on listener `i`. */
  datatype Server = Server(
    start: nat,
    control: C.Control,
    group: G.Group,
    strands: seq<U.Strand>,
    ids: seq<nat>,
    askers: map<Thread, Asker>,
    check: Check)
  {
    predicate Shaped() { |strands| == |ids| == group.Size() && G.WellFormed(group) }
  }

  function Begun(control: C.Control, start: nat, strands: seq<U.Strand>): Server {
    Server(start, control, G.Fresh(|strands|, true), strands, seq(|strands|, _ => 0), map[], Unchecked)
  }

  /** Listeners in any state they can be in, on a server in any state it can be in once it has
      accepted the start. */
  predicate CanBegin(control: C.Control, start: nat, strands: seq<U.Strand>) {
    && C.Inv(control) && C.AllExplained(control) && C.Accepted(control, start)
    && (forall id <- control.history :: control.history[id].op.FinishStart? ==> control.history[id].op.start != start)
    && strands != [] && forall i :: 0 <= i < |strands| ==> U.Inv(strands[i]) && strands[i].found == []
  }

  datatype Step =
    | Control(c: C.Step)                   // any call to the server's lifecycle
    | Launch | LaunchFails(code: ErrorCode)
    | Loop(g: G.Step)                      // the rest of the initiating thread's loops
    | ChildDone(i: nat)
    | Look                                 // the initiating thread looks for a stop
    | AskBegin(call: nat) | AskRead(t: Thread) | AskPost(t: Thread)
    | RunTask(i: nat, m: A.Move) | ByItself(i: nat, m: A.Move)

  predicate LoopOver(g: G.Group) { g.loop.next == g.Size() }

  predicate AskedToStop(c: C.Control, call: nat) {
    call in c.calls && c.calls[call].Done? && call in c.history && c.history[call].op.RequestStop?
  }

  /** The step of the group that a step of the server is, if any. */
  predicate OfGroup(step: Step) { step.Launch? || step.LaunchFails? || step.Loop? || step.ChildDone? }

  function GroupStep(s: Server, step: Step): G.Step
    requires s.Shaped() && OfGroup(step) && (step.ChildDone? ==> step.i < s.group.Size() && Results(s, step.i) != [])
  {
    match step
    case Launch => G.Initiate(Returned)
    case LaunchFails(code) => G.Initiate(Threw(code))
    case Loop(g) => g
    case ChildDone(i) => G.ChildDone(i, Results(s, i)[0])
  }

  function Results(s: Server, i: nat): seq<ErrorCode>
    requires s.Shaped() && i < s.group.Size()
  {
    A.StartResults(s.strands[i].face, s.ids[i])
  }

  /** The start is finished by its group alone, with the result of the group. */
  predicate Finishing(s: Server, c: C.Step) {
    c.Call? && c.op.FinishStart? && c.op.start == s.start ==> s.group.tally.results == [c.op.ec]
  }

  predicate Enabled(s: Server, step: Step)
    requires s.Shaped()
  {
    match step
    case Control(c) => C.Enabled(s.control, c) && Finishing(s, c)
    case Launch => G.Enabled(s.group, G.Initiate(Returned))
    case LaunchFails(code) => G.Enabled(s.group, G.Initiate(Threw(code)))
    case Loop(g) => (g.ReadFlag? || g.EmitFlag? || g.CountFailure?) && G.Enabled(s.group, g)
    case ChildDone(i) =>
      i < s.group.Size() && Results(s, i) != [] && G.Enabled(s.group, G.ChildDone(i, Results(s, i)[0]))
    case Look => s.check.Unchecked? && s.group.loop.next == s.group.loop.failNext == s.group.Size()
    case AskBegin(call) => Stopper(call) !in s.askers && AskedToStop(s.control, call)
    case AskRead(t) => t in s.askers && !s.askers[t].posting && s.askers[t].at < |s.strands|
    case AskPost(t) => t in s.askers && s.askers[t].posting && s.askers[t].at < |s.strands|
    case RunTask(i, m) => i < |s.strands| && U.Runs(s.strands[i], m)
    case ByItself(i, m) => i < |s.strands| && U.Own(s.strands[i], m)
  }

  function Beginning(s: Server): Asker { Asker(0, false, LoopOver(s.group)) }

  predicate Halting(st: C.State) { st.Stopping? || st.Stopped? }

  /** Thread `x` has become `a` and has made a `v` of strand `i`. */
  function Moved(s: Server, x: Thread, a: Asker, i: nat, v: U.Strand): Server
    requires i < |s.strands|
  {
    s.(strands := s.strands[i := v], askers := s.askers[x := a])
  }

  function Apply(s: Server, step: Step): Server
    requires s.Shaped() && Enabled(s, step)
  {
    match step
    case Control(c) => s.(control := C.Apply(s.control, c))
    case Look =>
      s.(check := Checked(|s.control.shared.log|),
         askers := if Halting(s.control.shared.state) then s.askers[Starter := Beginning(s)] else s.askers)
    case AskBegin(call) => s.(askers := s.askers[Stopper(call) := Beginning(s)])
    case AskRead(t) =>
      var i := s.askers[t].at;
      if s.strands[i].Phase().Stopped? then Moved(s, t, Asker(i + 1, false, s.askers[t].late), i, U.Read(s.strands[i]))
      else Moved(s, t, Asker(i, true, s.askers[t].late), i, U.Read(s.strands[i]))
    case AskPost(t) =>
      var i := s.askers[t].at;
      Moved(s, t, Asker(i + 1, false, s.askers[t].late), i, U.PostStop(s.strands[i]))
    case RunTask(i, m) => s.(strands := s.strands[i := U.Run(s.strands[i], m)])
    case ByItself(i, m) => s.(strands := s.strands[i := U.Alone(s.strands[i], m)])
    case _ => AfterGroup(s, step)
  }

  /** The group's first error makes it ask the listeners to stop. */
  function AfterGroup(s: Server, step: Step): Server
    requires s.Shaped() && OfGroup(step) && Enabled(s, step)
  {
    var h := G.Apply(s.group, GroupStep(s, step));
    var i := s.group.loop.next;
    s.(group := h,
       strands := if step.Launch? then s.strands[i := U.PostStart(s.strands[i])] else s.strands,
       ids := if step.Launch? then s.ids[i := s.strands[i].face.starts.lastId + 1] else s.ids,
       askers := if h.tally.stops > s.group.tally.stops then s.askers[Failer := Beginning(s)] else s.askers)
  }

  // ----- the invariant -----

  /** A thread that began late has read every listener it is past. `over`: the loop is over. */
  predicate AskerInv(strands: seq<U.Strand>, over: bool, a: Asker) {
    && a.at <= |strands| && (a.posting ==> a.at < |strands|)
    && (a.late ==> over)
    && (a.late ==> forall i :: 0 <= i < |strands| && (i < a.at || (i == a.at && a.posting)) ==> strands[i].found != [])
  }

  predicate AskersInv(strands: seq<U.Strand>, over: bool, askers: map<Thread, Asker>) {
    forall t <- askers :: AskerInv(strands, over, askers[t])
  }

  predicate Posts(askers: map<Thread, Asker>, i: nat) {
    exists t :: t in askers && askers[t].at == i && askers[t].posting
  }

  /** Whoever found listener `i` not stopped has posted or is about to. */
  predicate ReadInv(askers: map<Thread, Asker>, u: U.Strand, i: nat) {
    u.stops > 0 || Posts(askers, i) || forall st <- u.found :: st.Stopped?
  }

  predicate ReadsInv(askers: map<Thread, Asker>, strands: seq<U.Strand>) {
    forall i :: 0 <= i < |strands| ==> ReadInv(askers, strands[i], i)
  }

  /** The starting thread has looked and, if it saw a stop, become an asker. A request that
      began asking early had seen its stop by the time the starting thread looked. */
  predicate CheckInv(c: C.Control, over: bool, askers: map<Thread, Asker>, check: Check) {
    && (forall t <- askers :: t.Stopper? ==> AskedToStop(c, t.call))
    && (Starter in askers ==> check.Checked?)
    && (check.Checked? ==>
          && over
          && check.at <= |c.shared.log|
          && (Halting(C.StateAt(c.shared.log, check.at)) ==> Starter in askers && askers[Starter].late)
          && forall t <- askers :: t.Stopper? ==>
               askers[t].late || (t.call in c.history && c.history[t.call].at <= check.at))
  }

  /** Whoever finishes the start was given the result of the group. */
  predicate FinishInv(c: C.Control, start: nat, results: seq<ErrorCode>) {
    forall id <- c.history :: c.history[id].op.FinishStart? && c.history[id].op.start == start ==>
      results == [c.history[id].op.ec]
  }

  predicate Parts(s: Server) {
    && s.Shaped() && G.Inv(s.group) && C.Inv(s.control) && C.AllExplained(s.control)
    && FinishInv(s.control, s.start, s.group.tally.results)
    && (Failer in s.askers ==> s.group.tally.stops > 0)
    && forall i :: 0 <= i < |s.strands| ==> U.Inv(s.strands[i])
  }

  predicate Inv(s: Server) {
    && Parts(s)
    && CheckInv(s.control, LoopOver(s.group), s.askers, s.check)
    && AskersInv(s.strands, LoopOver(s.group), s.askers)
    && ReadsInv(s.askers, s.strands)
  }

  // ----- askers and what they found -----

  lemma PostsKept(askers: map<Thread, Asker>, x: Thread, a: Asker, i: nat)
    requires x in askers && askers[x].posting ==> askers[x].at != i
    ensures Posts(askers, i) ==> Posts(askers[x := a], i)
  {
    if Posts(askers, i) {
      var t :| t in askers && askers[t].at == i && askers[t].posting;
      assert t != x;
      assert t in askers[x := a] && askers[x := a][t] == askers[t];
    }
  }

  lemma NewAskerReads(askers: map<Thread, Asker>, strands: seq<U.Strand>, x: Thread, a: Asker)
    requires ReadsInv(askers, strands) && x !in askers
    ensures ReadsInv(askers[x := a], strands)
  {
    forall i | 0 <= i < |strands| ensures ReadInv(askers[x := a], strands[i], i) {
      assert ReadInv(askers, strands[i], i);
      PostsKept(askers, x, a, i);
    }
  }

  /** Thread `x` at listener `i` goes on: it is about to post, has posted, or found it stopped. */
  lemma AskedReads(askers: map<Thread, Asker>, strands: seq<U.Strand>, x: Thread, a: Asker, i: nat, v: U.Strand)
    requires ReadsInv(askers, strands) && x in askers && i == askers[x].at < |strands|
    requires || v.stops > 0
             || (a.posting && a.at == i)
             || (!askers[x].posting && v.stops == strands[i].stops && v.found == strands[i].found + [Stopped])
    ensures ReadsInv(askers[x := a], strands[i := v])
  {
    var more, strands' := askers[x := a], strands[i := v];
    forall j | 0 <= j < |strands'| ensures ReadInv(more, strands'[j], j) {
      assert ReadInv(askers, strands[j], j);
      if j != i || !askers[x].posting {
        PostsKept(askers, x, a, j);
      }
      if a.posting && a.at == j {
        assert x in more && more[x].at == j && more[x].posting;
      }
    }
  }

  lemma AskedAskers(strands: seq<U.Strand>, over: bool, askers: map<Thread, Asker>, x: Thread, a: Asker,
                    i: nat, v: U.Strand)
    requires AskersInv(strands, over, askers) && x in askers && i == askers[x].at < |strands|
    requires a.late == askers[x].late && (a.late || strands[i].found != [] ==> v.found != [])
    requires a == Asker(i, true, a.late) || a == Asker(i + 1, false, a.late)
    ensures AskersInv(strands[i := v], over, askers[x := a])
  {
    var more, strands' := askers[x := a], strands[i := v];
    forall y | y in more ensures AskerInv(strands', over, more[y]) {
      assert AskerInv(strands, over, askers[y]);
    }
  }

  lemma StrandsKept(strands: seq<U.Strand>, over: bool, askers: map<Thread, Asker>, i: nat, v: U.Strand)
    requires AskersInv(strands, over, askers) && ReadsInv(askers, strands) && i < |strands|
    requires v.found == strands[i].found && v.stops == strands[i].stops
    ensures AskersInv(strands[i := v], over, askers) && ReadsInv(askers, strands[i := v])
  {
    var strands' := strands[i := v];
    forall x | x in askers ensures AskerInv(strands', over, askers[x]) {
      assert AskerInv(strands, over, askers[x]);
    }
    forall j | 0 <= j < |strands'| ensures ReadInv(askers, strands'[j], j) {
      assert ReadInv(askers, strands[j], j);
    }
  }

  /** A start is posted only while the loop is on, when nobody is late. */
  lemma LaunchKept(strands: seq<U.Strand>, askers: map<Thread, Asker>, i: nat, v: U.Strand, over: bool)
    requires AskersInv(strands, false, askers) && ReadsInv(askers, strands) && i < |strands| && v.found == []
    ensures AskersInv(strands[i := v], over, askers) && ReadsInv(askers, strands[i := v])
  {
    var strands' := strands[i := v];
    forall x | x in askers ensures AskerInv(strands', over, askers[x]) {
      assert AskerInv(strands, false, askers[x]);
    }
    forall j | 0 <= j < |strands'| ensures ReadInv(askers, strands'[j], j) {
      assert ReadInv(askers, strands[j], j);
    }
  }

  // ----- one kind of step at a time -----

  lemma ControlKeepsInv(s: Server, c: C.Step)
    requires Inv(s) && Enabled(s, Control(c))
    ensures Inv(Apply(s, Control(c)))
  {
    var d := C.Apply(s.control, c);
    C.StepKeepsInv(s.control, c);
    C.StepKeepsLog(s.control, c);
    forall id ensures C.KeepsCall(s.control, d, id) { C.StepKeepsCall(s.control, c, id); }
    CheckKept(s.control, d, LoopOver(s.group), s.askers, s.check);
    FinishKept(s, c);
  }

  lemma FinishKept(s: Server, c: C.Step)
    requires FinishInv(s.control, s.start, s.group.tally.results) && C.Enabled(s.control, c) && Finishing(s, c)
    ensures FinishInv(C.Apply(s.control, c), s.start, s.group.tally.results)
  {}

  lemma CheckKept(c: C.Control, d: C.Control, over: bool, askers: map<Thread, Asker>, check: Check)
    requires CheckInv(c, over, askers, check) && c.shared.log <= d.shared.log
    requires forall id :: C.KeepsCall(c, d, id)
    ensures CheckInv(d, over, askers, check)
  {
    forall t | t in askers && t.Stopper?
      ensures AskedToStop(d, t.call) && d.history[t.call] == c.history[t.call]
    {
      assert AskedToStop(c, t.call) && C.KeepsCall(c, d, t.call);
    }
    if check.Checked? { assert d.shared.log[..check.at] == c.shared.log[..check.at]; }
  }

  lemma StrandKeepsInv(s: Server, i: nat, v: U.Strand)
    requires Inv(s) && i < |s.strands| && U.Inv(v)
    requires v.found == s.strands[i].found && v.stops == s.strands[i].stops
    ensures Inv(s.(strands := s.strands[i := v]))
  {
    StrandsKept(s.strands, LoopOver(s.group), s.askers, i, v);
  }

  lemma AskBeginKeepsInv(s: Server, call: nat)
    requires Inv(s) && Enabled(s, AskBegin(call))
    ensures Inv(Apply(s, AskBegin(call)))
  {
    NewAskerReads(s.askers, s.strands, Stopper(call), Beginning(s));
  }

  lemma LookKeepsCheck(s: Server)
    requires Inv(s) && Enabled(s, Look)
    ensures var t := Apply(s, Look); CheckInv(t.control, LoopOver(t.group), t.askers, t.check)
  {
    var log := s.control.shared.log;
    assert log[..|log|] == log;
    forall y | y in s.askers && y.Stopper?
      ensures y.call in s.control.history && s.control.history[y.call].at <= |log|
    {
      assert C.CallExplained(s.control, y.call);
    }
  }

  lemma LookKeepsInv(s: Server)
    requires Inv(s) && Enabled(s, Look)
    ensures Inv(Apply(s, Look))
  {
    LookKeepsCheck(s);
    NewAskerReads(s.askers, s.strands, Starter, Beginning(s));
  }

  lemma AskedCheck(c: C.Control, over: bool, askers: map<Thread, Asker>, check: Check, x: Thread, a: Asker)
    requires CheckInv(c, over, askers, check) && x in askers && a.late == askers[x].late
    ensures CheckInv(c, over, askers[x := a], check)
  {}

  lemma AskedParts(s: Server, x: Thread, a: Asker, i: nat, v: U.Strand)
    requires Parts(s) && x in s.askers && i < |s.strands| && U.Inv(v)
    ensures Parts(s.(strands := s.strands[i := v], askers := s.askers[x := a]))
  {}

  lemma AskedKeepsInv(s: Server, x: Thread, a: Asker, i: nat, v: U.Strand)
    requires Inv(s) && x in s.askers && i == s.askers[x].at < |s.strands| && U.Inv(v)
    requires a.late == s.askers[x].late && (a.late || s.strands[i].found != [] ==> v.found != [])
    requires a == Asker(i, true, a.late) || a == Asker(i + 1, false, a.late)
    requires || v.stops > 0
             || a.posting
             || (!s.askers[x].posting && v.stops == s.strands[i].stops && v.found == s.strands[i].found + [Stopped])
    ensures Inv(Moved(s, x, a, i, v))
  {
    AskedParts(s, x, a, i, v);
    AskedCheck(s.control, LoopOver(s.group), s.askers, s.check, x, a);
    AskedAskers(s.strands, LoopOver(s.group), s.askers, x, a, i, v);
    AskedReads(s.askers, s.strands, x, a, i, v);
  }

  lemma ReadStoppedKeepsInv(s: Server, x: Thread, i: nat, t: Server)
    requires Inv(s) && x in s.askers && i == s.askers[x].at < |s.strands| && !s.askers[x].posting
    requires s.strands[i].Phase().Stopped?
    requires t == Moved(s, x, Asker(i + 1, false, s.askers[x].late), i, U.Read(s.strands[i]))
    ensures Inv(t)
  {
    var v := U.Read(s.strands[i]);
    U.ReadFinds(s.strands[i]);
    assert U.Inv(v) by { U.PostStopKeepsInv(s.strands[i]); }
    AskedKeepsInv(s, x, Asker(i + 1, false, s.askers[x].late), i, v);
  }

  lemma ReadOtherKeepsInv(s: Server, x: Thread, i: nat, t: Server)
    requires Inv(s) && x in s.askers && i == s.askers[x].at < |s.strands| && !s.askers[x].posting
    requires t == Moved(s, x, Asker(i, true, s.askers[x].late), i, U.Read(s.strands[i]))
    ensures Inv(t)
  {
    var v := U.Read(s.strands[i]);
    U.ReadFinds(s.strands[i]);
    assert U.Inv(v) by { U.PostStopKeepsInv(s.strands[i]); }
    AskedKeepsInv(s, x, Asker(i, true, s.askers[x].late), i, v);
  }

  lemma PostKeepsInv(s: Server, x: Thread, i: nat, t: Server)
    requires Inv(s) && x in s.askers && i == s.askers[x].at < |s.strands| && s.askers[x].posting
    requires t == Moved(s, x, Asker(i + 1, false, s.askers[x].late), i, U.PostStop(s.strands[i]))
    ensures Inv(t)
  {
    var v := U.PostStop(s.strands[i]);
    assert U.Inv(v) by { U.PostStopKeepsInv(s.strands[i]); }
    assert AskerInv(s.strands, LoopOver(s.group), s.askers[x]);
    AskedKeepsInv(s, x, Asker(i + 1, false, s.askers[x].late), i, v);
  }

  lemma AskEffect(s: Server, step: Step, i: nat)
    requires s.Shaped() && Enabled(s, step) && (step.AskRead? || step.AskPost?) && i == s.askers[step.t].at
    ensures var x, late := step.t, s.askers[step.t].late;
            Apply(s, step) ==
              if step.AskPost? then Moved(s, x, Asker(i + 1, false, late), i, U.PostStop(s.strands[i]))
              else if s.strands[i].Phase().Stopped?
              then Moved(s, x, Asker(i + 1, false, late), i, U.Read(s.strands[i]))
              else Moved(s, x, Asker(i, true, late), i, U.Read(s.strands[i]))
  {}

  lemma AskKeepsInv(s: Server, step: Step, t: Server)
    requires Inv(s) && Enabled(s, step) && (step.AskRead? || step.AskPost?) && t == Apply(s, step)
    ensures Inv(t)
  {
    var i := s.askers[step.t].at;
    AskEffect(s, step, i);
    if step.AskPost? {
      PostKeepsInv(s, step.t, i, t);
    } else if s.strands[i].Phase().Stopped? {
      ReadStoppedKeepsInv(s, step.t, i, t);
    } else {
      ReadOtherKeepsInv(s, step.t, i, t);
    }
  }

  lemma GroupFacts(g: G.Group, step: G.Step)
    requires G.Inv(g) && G.Enabled(g, step)
    ensures var h := G.Apply(g, step);
            && G.Inv(h) && h.Size() == g.Size() && (LoopOver(g) ==> LoopOver(h))
            && g.tally.stops <= h.tally.stops && (g.tally.stops < h.tally.stops ==> g.tally.stops == 0)
            && (g.tally.results != [] ==> h.tally.results == g.tally.results)
  {
    G.StepKeepsInv(g, step);
    if g.tally.results != [] { G.StepKeepsResults(g, step); }
  }

  lemma GroupKeepsParts(s: Server, step: Step)
    requires Inv(s) && OfGroup(step) && Enabled(s, step)
    ensures Parts(AfterGroup(s, step))
  {
    GroupFacts(s.group, GroupStep(s, step));
    if step.Launch? { U.PostStartKeepsInv(s.strands[s.group.loop.next]); }
  }

  /** What the group's step does to the strands, before it may set off an asker. */
  lemma GroupKeepsAskers(s: Server, step: Step)
    requires Inv(s) && OfGroup(step) && Enabled(s, step)
    ensures var t := AfterGroup(s, step);
            AskersInv(t.strands, LoopOver(t.group), s.askers) && ReadsInv(s.askers, t.strands)
  {
    GroupFacts(s.group, GroupStep(s, step));
    var t := AfterGroup(s, step);
    if step.Launch? {
      LaunchKept(s.strands, s.askers, s.group.loop.next, U.PostStart(s.strands[s.group.loop.next]), LoopOver(t.group));
    } else {
      forall x | x in s.askers ensures AskerInv(t.strands, LoopOver(t.group), s.askers[x]) {
        assert AskerInv(s.strands, LoopOver(s.group), s.askers[x]);
      }
    }
  }

  lemma GroupKeepsInv(s: Server, step: Step)
    requires Inv(s) && OfGroup(step) && Enabled(s, step)
    ensures Inv(AfterGroup(s, step))
  {
    GroupKeepsParts(s, step);
    GroupKeepsAskers(s, step);
    GroupFacts(s.group, GroupStep(s, step));
    NewFailer(s, AfterGroup(s, step));
  }

  lemma NewFailer(s: Server, t: Server)
    requires s.Shaped() && Parts(s) && Parts(t) && t.control == s.control && t.check == s.check
    requires LoopOver(s.group) ==> LoopOver(t.group)
    requires CheckInv(s.control, LoopOver(s.group), s.askers, s.check)
    requires AskersInv(t.strands, LoopOver(t.group), s.askers) && ReadsInv(s.askers, t.strands)
    requires t.askers == s.askers || (t.askers == s.askers[Failer := Beginning(s)] && s.group.tally.stops == 0)
    ensures Inv(t)
  {
    if t.askers != s.askers { NewAskerReads(s.askers, t.strands, Failer, Beginning(s)); }
  }

  lemma {:induction false} StepKeepsInv(s: Server, step: Step)
    requires Inv(s) && Enabled(s, step)
    ensures Inv(Apply(s, step))
  {
    match step
    case Control(c) => ControlKeepsInv(s, c);
    case Look => LookKeepsInv(s);
    case AskBegin(call) => AskBeginKeepsInv(s, call);
    case AskRead(_) => AskKeepsInv(s, step, Apply(s, step));
    case AskPost(_) => AskKeepsInv(s, step, Apply(s, step));
    case RunTask(i, m) =>
      U.RunKeepsInv(s.strands[i], m);
      StrandKeepsInv(s, i, U.Run(s.strands[i], m));
    case ByItself(i, m) =>
      U.OwnKeepsInv(s.strands[i], m);
      StrandKeepsInv(s, i, U.Alone(s.strands[i], m));
    case _ => GroupKeepsInv(s, step);
  }

  // ----- what follows from a state -----

  /** Taking `steps` one after the other leads from `s` to `t`. */
  predicate Plays(s: Server, steps: seq<Step>, t: Server)
    decreases |steps|
  {
    if steps == [] then t == s
    else s.Shaped() && Enabled(s, steps[0]) && Plays(Apply(s, steps[0]), steps[1..], t)
  }

  lemma BegunIsGood(control: C.Control, start: nat, strands: seq<U.Strand>)
    requires CanBegin(control, start, strands)
    ensures Inv(Begun(control, start, strands))
  {
    G.FreshIsGood(|strands|, true);
  }

  lemma {:induction false} PlayKeepsInv(s: Server, steps: seq<Step>, t: Server)
    requires Inv(s) && Plays(s, steps, t)
    ensures Inv(t) && |t.strands| == |s.strands|
    decreases |steps|
  {
    if steps != [] {
      StepKeepsInv(s, steps[0]);
      StepKeepsSize(s, steps[0]);
      PlayKeepsInv(Apply(s, steps[0]), steps[1..], t);
    }
  }

  lemma StepKeepsSize(s: Server, step: Step)
    requires s.Shaped() && Enabled(s, step)
    ensures |Apply(s, step).strands| == |s.strands|
  {}

  predicate Finished(s: Server, t: Thread) { t in s.askers && s.askers[t].at == |s.strands| }

  /** The server has not been started again since stop request `call` saw its stop. */
  predicate Unrestarted(c: C.Control, call: nat) {
    && call in c.history && c.history[call].at <= |c.shared.log|
    && forall e <- c.shared.log[c.history[call].at..] :: !e.state.Starting?
  }

  /** The starting thread has looked for a stop, stop request `call` is through, and so is
      everybody else who asks. */
  predicate Over(s: Server, call: nat) {
    && s.check.Checked? && Stopper(call) in s.askers && (forall t <- s.askers :: Finished(s, t))
    && Unrestarted(s.control, call)
  }

  lemma {:induction false} StaysHalting(log: seq<C.Change>, a: nat, b: nat)
    requires C.Legal(log) && a <= b <= |log| && Halting(C.StateAt(log, a))
    requires forall e <- log[a..] :: !e.state.Starting?
    ensures Halting(C.StateAt(log, b))
  {
    if a < b {
      StaysHalting(log, a, b - 1);
      C.LegalPrefix(log, b);
      assert log[..b][..b - 1] == log[..b - 1];
      assert log[b - 1] == log[a..][b - 1 - a];
    }
  }

  // ----- every listener is asked -----

  lemma FinishedReadAll(s: Server, t: Thread)
    requires Inv(s) && Finished(s, t) && s.askers[t].late
    ensures forall i :: 0 <= i < |s.strands| ==> s.strands[i].found != []
  {
    assert AskerInv(s.strands, LoopOver(s.group), s.askers[t]);
  }

  /** Nobody falls between the two: once the starting thread has looked for a stop, and it and
      the stop request have gone through the listeners, every listener has been asked to stop
      after its start was posted. */
  lemma EveryListenerIsAsked(s: Server, call: nat)
    requires Inv(s) && Over(s, call)
    ensures forall i :: 0 <= i < |s.strands| ==> s.strands[i].found != []
  {
    if s.askers[Stopper(call)].late {
      FinishedReadAll(s, Stopper(call));
    } else {
      assert C.CallExplained(s.control, call);
      StaysHalting(s.control.shared.log, s.control.history[call].at, s.check.at);
      FinishedReadAll(s, Starter);
    }
  }

  lemma NobodyPosts(s: Server, i: nat)
    requires Inv(s) && i < |s.strands| && forall t <- s.askers :: Finished(s, t)
    ensures !Posts(s.askers, i)
  {
    forall t | t in s.askers ensures s.askers[t].at != i {
      assert Finished(s, t);
    }
  }

  /** When everybody is through, a listener that can still end up running was found stopped by
      every request since its start was posted: that is when a request posts nothing. */
  lemma LostOnlyIfFoundStopped(s: Server, call: nat, i: nat)
    requires Inv(s) && Over(s, call) && i < |s.strands|
    ensures s.strands[i].found != []
    ensures U.CanEndRunning(s.strands[i]) ==>
              s.strands[i].stops == 0 && forall st <- s.strands[i].found :: st.Stopped?
  {
    U.CanEndRunningIff(s.strands[i]);
    EveryListenerIsAsked(s, call);
    NobodyPosts(s, i);
    assert ReadInv(s.askers, s.strands[i], i);
  }

  /** The group asks every listener it started, if its first error comes after the loop. */
  lemma LateFailureAsksEveryListener(s: Server)
    requires Inv(s) && Finished(s, Failer) && s.askers[Failer].late
    ensures s.group.tally.first != NoError
    ensures forall i :: 0 <= i < |s.strands| ==> s.strands[i].found != []
  {
    FinishedReadAll(s, Failer);
  }

  // ----- the codes the group is given -----

  /** The code child `i` was or will be counted with: the result of its start. */
  function Code(g: G.Group, strands: seq<U.Strand>, ids: seq<nat>, i: nat): ErrorCode
    requires i < |strands| == |ids| == g.Size()
  {
    match g.children[i]
    case Waiting => NoError
    case Failed(ec) => ec
    case Initiated =>
      var results := A.StartResults(strands[i].face, ids[i]);
      if results == [] then NoError else results[0]
  }

  function Codes(g: G.Group, strands: seq<U.Strand>, ids: seq<nat>): seq<ErrorCode>
    requires |strands| == |ids| == g.Size()
  {
    seq(g.Size(), i requires 0 <= i < g.Size() => Code(g, strands, ids, i))
  }

  /** A child that was started and counted has its result. */
  predicate HasResult(g: G.Group, strands: seq<U.Strand>, ids: seq<nat>, i: nat)
    requires i < |strands| == |ids| == g.Size() && G.WellFormed(g)
  {
    g.children[i].Initiated? && g.tally.done[i] ==> A.StartResults(strands[i].face, ids[i]) != []
  }

  predicate Accounted(g: G.Group, strands: seq<U.Strand>, ids: seq<nat>) {
    && |strands| == |ids| == g.Size() && G.WellFormed(g)
    && (forall i :: 0 <= i < g.Size() ==> HasResult(g, strands, ids, i))
    && G.Tallied(g.tally, Codes(g, strands, ids))
  }

  /** A listener that changes keeps the results its starts have. */
  predicate KeepsStarts(u: U.Strand, v: U.Strand, id: nat) {
    A.StartResults(u.face, id) != [] ==> A.StartResults(v.face, id) == A.StartResults(u.face, id)
  }

  lemma StrandKeepsAccounts(g: G.Group, strands: seq<U.Strand>, ids: seq<nat>, i: nat, v: U.Strand)
    requires Accounted(g, strands, ids) && i < |strands| && KeepsStarts(strands[i], v, ids[i])
    ensures Accounted(g, strands[i := v], ids)
  {
    var later := strands[i := v];
    forall j | 0 <= j < g.Size()
      ensures HasResult(g, later, ids, j)
      ensures g.tally.done[j] ==> Codes(g, later, ids)[j] == Codes(g, strands, ids)[j]
    {
      assert HasResult(g, strands, ids, j);
    }
    G.TalliedKept(g.tally, g.tally, Codes(g, strands, ids), Codes(g, later, ids));
  }

  lemma RunKeepsStarts(u: U.Strand, m: A.Move, id: nat)
    requires U.Inv(u)
    ensures U.Runs(u, m) ==> KeepsStarts(u, U.Run(u, m), id)
    ensures U.Own(u, m) ==> KeepsStarts(u, U.Alone(u, m), id)
  {
    if A.Enabled(u.face, m) { A.StartReportsItsOutcome(u.face, m, id); }
  }

  /** What a step of the group does to the accounts: children that are counted keep their code. */
  lemma GroupAccounts(g: G.Group, step: G.Step, strands: seq<U.Strand>, ids: seq<nat>, later: seq<U.Strand>,
                      ids': seq<nat>)
    requires G.Inv(g) && G.Enabled(g, step) && Accounted(g, strands, ids)
    requires |later| == |ids'| == g.Size()
    requires forall j :: 0 <= j < g.Size() && !g.children[j].Waiting? ==> later[j] == strands[j] && ids'[j] == ids[j]
    requires step.ChildDone? ==> A.StartResults(strands[step.i].face, ids[step.i]) == [step.ec]
    requires step.Initiate? || step.ReadFlag? || step.EmitFlag? || step.CountFailure? || step.ChildDone?
    ensures Accounted(G.Apply(g, step), later, ids')
  {
    var h := G.Apply(g, step);
    GroupFacts(g, step);
    var codes := Codes(g, strands, ids);
    GroupCounts(g, step, codes);
    forall j | 0 <= j < g.Size()
      ensures HasResult(h, later, ids', j)
      ensures h.tally.done[j] ==> Codes(h, later, ids')[j] == codes[j]
    {
      G.StepOnChild(g, step, j);
      assert HasResult(g, strands, ids, j);
    }
    G.TalliedKept(g.tally, h.tally, codes, Codes(h, later, ids'));
  }

  lemma GroupCounts(g: G.Group, step: G.Step, codes: seq<ErrorCode>)
    requires G.Inv(g) && G.Enabled(g, step) && |codes| == g.Size()
    requires forall i :: 0 <= i < g.Size() && g.children[i].Failed? ==> codes[i] == g.children[i].ec
    requires step.ChildDone? ==> codes[step.i] == step.ec
    ensures G.CountsOne(g.tally, G.Apply(g, step).tally, codes)
  {}

  lemma GroupKeepsAccounts(s: Server, step: Step)
    requires Inv(s) && Accounted(s.group, s.strands, s.ids) && Enabled(s, step) && OfGroup(step)
    ensures var t := Apply(s, step); Accounted(t.group, t.strands, t.ids)
  {
    var t := Apply(s, step);
    if step.ChildDone? { OneStartResult(s, step.i); }
    GroupAccounts(s.group, GroupStep(s, step), s.strands, s.ids, t.strands, t.ids);
  }

  lemma OneStartResult(s: Server, i: nat)
    requires Inv(s) && i < s.group.Size() && Results(s, i) != []
    ensures Results(s, i) == [Results(s, i)[0]]
  {
    assert U.Inv(s.strands[i]);
  }

  lemma StepKeepsAccounts(s: Server, step: Step)
    requires Inv(s) && Accounted(s.group, s.strands, s.ids) && Enabled(s, step)
    ensures var t := Apply(s, step); Accounted(t.group, t.strands, t.ids)
  {
    match step
    case AskRead(x) =>
      var i := s.askers[x].at;
      StrandKeepsAccounts(s.group, s.strands, s.ids, i, U.Read(s.strands[i]));
    case AskPost(x) =>
      var i := s.askers[x].at;
      StrandKeepsAccounts(s.group, s.strands, s.ids, i, U.PostStop(s.strands[i]));
    case RunTask(i, m) =>
      RunKeepsStarts(s.strands[i], m, s.ids[i]);
      StrandKeepsAccounts(s.group, s.strands, s.ids, i, U.Run(s.strands[i], m));
    case ByItself(i, m) =>
      RunKeepsStarts(s.strands[i], m, s.ids[i]);
      StrandKeepsAccounts(s.group, s.strands, s.ids, i, U.Alone(s.strands[i], m));
    case Control(_) =>
    case Look =>
    case AskBegin(_) =>
    case _ => GroupKeepsAccounts(s, step);
  }

  lemma BegunIsAccounted(control: C.Control, start: nat, strands: seq<U.Strand>)
    requires CanBegin(control, start, strands)
    ensures var s := Begun(control, start, strands); Accounted(s.group, s.strands, s.ids)
  {}

  lemma {:induction false} PlayKeepsAccounts(s: Server, steps: seq<Step>, t: Server)
    requires Inv(s) && Accounted(s.group, s.strands, s.ids) && Plays(s, steps, t)
    ensures Inv(t) && Accounted(t.group, t.strands, t.ids)
    decreases |steps|
  {
    if steps != [] {
      StepKeepsInv(s, steps[0]);
      StepKeepsAccounts(s, steps[0]);
      PlayKeepsAccounts(Apply(s, steps[0]), steps[1..], t);
    }
  }

  /** Whatever happens from the beginning of a start, the result of its group, once there, is
      success if and only if every child started, and otherwise what one of them reported. */
  lemma StartResultIsAChilds(control: C.Control, start: nat, strands: seq<U.Strand>, steps: seq<Step>, s: Server)
    requires CanBegin(control, start, strands) && Plays(Begun(control, start, strands), steps, s)
    requires s.group.tally.results != []
    ensures |s.group.tally.results| == 1 && |s.strands| == |s.ids| == s.group.Size()
    ensures s.group.tally.results[0] == NoError <==>
              forall i :: 0 <= i < s.group.Size() ==> Code(s.group, s.strands, s.ids, i) == NoError
    ensures exists i :: 0 <= i < s.group.Size() && Code(s.group, s.strands, s.ids, i) == s.group.tally.results[0]
  {
    BegunIsGood(control, start, strands);
    BegunIsAccounted(control, start, strands);
    PlayKeepsAccounts(Begun(control, start, strands), steps, s);
    ResultIsAChilds(s.group, s.strands, s.ids);
  }

  lemma ResultIsAChilds(g: G.Group, strands: seq<U.Strand>, ids: seq<nat>)
    requires G.Inv(g) && Accounted(g, strands, ids) && g.tally.results != []
    ensures |g.tally.results| == 1
    ensures g.tally.results[0] == NoError <==> forall i :: 0 <= i < g.Size() ==> Code(g, strands, ids, i) == NoError
    ensures exists i :: 0 <= i < g.Size() && Code(g, strands, ids, i) == g.tally.results[0]
  {
    var codes := Codes(g, strands, ids);
    G.ResultIsAChilds(g, codes);
    assert forall i :: 0 <= i < |codes| ==> codes[i] == Code(g, strands, ids, i);
    var i :| 0 <= i < |codes| && codes[i] == g.tally.results[0];
    assert Code(g, strands, ids, i) == g.tally.results[0];
  }

  // ----- what the start reports -----

  /** A start that has finished succeeded if and only if every child did and the server was
      running at some instant within the finishing call. */
  lemma StartSucceedsIff(s: Server, finish: nat) returns (at: nat)
    requires Inv(s) && finish in s.control.calls && s.control.calls[finish].Done?
    requires finish in s.control.history && s.control.history[finish].op.FinishStart?
    requires s.control.history[finish].op.start == s.start
    ensures s.control.history[finish].since <= at <= |s.control.shared.log|
    ensures s.control.calls[finish].ec == NoError <==>
              s.group.tally.results == [NoError] && C.StateAt(s.control.shared.log, at).Running?
  {
    assert C.CallExplained(s.control, finish);
    at := s.control.history[finish].at;
    assert s.group.tally.results == [s.control.history[finish].op.ec];
    assert [s.control.history[finish].op.ec][0] == s.control.history[finish].op.ec && [NoError][0] == NoError;
  }

  /** If a stop request had seen its stop by then, the start reports an error: that the operation
      was aborted if every child succeeded, the first error of a child otherwise. */
  lemma StoppedStartIsAborted(s: Server, finish: nat, call: nat)
    requires Inv(s) && finish in s.control.calls && s.control.calls[finish].Done?
    requires finish in s.control.history && s.control.history[finish].op.FinishStart?
    requires s.control.history[finish].op.start == s.start
    requires AskedToStop(s.control, call) && Unrestarted(s.control, call)
    requires s.control.history[call].at <= s.control.history[finish].at
    ensures |s.group.tally.results| == 1
    ensures s.control.calls[finish].ec ==
              if s.group.tally.results[0] == NoError then OperationAborted else s.group.tally.results[0]
  {
    assert C.CallExplained(s.control, finish) && C.CallExplained(s.control, call);
    StaysHalting(s.control.shared.log, s.control.history[call].at, s.control.history[finish].at);
  }
}
