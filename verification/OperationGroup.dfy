/** The fan-out/fan-in group behind a server start or wait: an initiation loop, completions
    of the children, and any number of cancelling threads, interleaved in any order. */
module OperationGroup {
  import opened Types

  /** The bits of a cancellation type; the empty set is `none`. */
  datatype Kind = Terminal | Partial | Total

  datatype Child = Waiting | Initiated | Failed(ec: ErrorCode)

  /** Where the initiation loop is within one iteration. */
  datatype Phase = Initiating | Reading | Emitting(kinds: set<Kind>)

  /** The initiating thread: `next` is the child its first loop is at, `failNext` the child
      its second loop, over the initiation errors, is at. */
  datatype Loop = Loop(next: nat, phase: Phase, failNext: nat)

  /** What `one` maintains under the mutex. `calls`: the codes it was given, in lock order.
      `done`: children it was called for. `stops`: fan-outs of a stop. `results`: values
      handed to the group's completion. */
  datatype Tally = Tally(remaining: int, first: ErrorCode, calls: seq<ErrorCode>, done: seq<bool>,
                         stops: nat, results: seq<ErrorCode>)

  /** A thread inside `cancel`, past the critical section: it has emitted to children below
      `at`. */
  datatype Canceller = Canceller(kinds: set<Kind>, at: nat)

  /** `received`: what each child's cancellation handler has been sent. */
  datatype Signals = Signals(cancelled: set<Kind>, received: seq<set<Kind>>, cancellers: map<nat, Canceller>)

  datatype Group = Group(children: seq<Child>, stopOnError: bool, loop: Loop, tally: Tally, signals: Signals)
  {
    function Size(): nat { |children| }
  }

  function Fresh(n: nat, stopOnError: bool): Group {
    Group(seq(n, _ => Waiting), stopOnError, Loop(0, Initiating, 0),
          Tally(n, NoError, [], seq(n, _ => false), 0, []),
          Signals({}, seq(n, _ => {}), map[]))
  }

  datatype Step =
    | Initiate(outcome: Outcome)
    | ReadFlag
    | EmitFlag
    | CountFailure
    | ChildDone(i: nat, ec: ErrorCode)
    | CancelBegin(thread: nat, kinds: set<Kind>)
    | CancelEmit(thread: nat)

  /** The critical section of `one`. */
  function One(t: Tally, stopOnError: bool, i: nat, ec: ErrorCode): Tally
    requires i < |t.done|
  {
    var earliest := ec != NoError && t.first == NoError;
    var first := if earliest then ec else t.first;
    Tally(t.remaining - 1, first, t.calls + [ec], t.done[i := true],
          if earliest && stopOnError then t.stops + 1 else t.stops,
          if t.remaining - 1 == 0 then t.results + [first] else t.results)
  }

  predicate WellFormed(g: Group) {
    |g.tally.done| == |g.signals.received| == g.Size()
  }

  predicate Enabled(g: Group, step: Step)
    requires WellFormed(g)
  {
    match step
    case Initiate(_) => g.loop.phase.Initiating? && g.loop.next < g.Size()
    case ReadFlag => g.loop.phase.Reading?
    case EmitFlag => g.loop.phase.Emitting? && g.loop.next < g.Size()
    case CountFailure => g.loop.phase.Initiating? && g.loop.next == g.Size() && g.loop.failNext < g.Size()
    case ChildDone(i, _) => i < g.Size() && g.children[i].Initiated? && !g.tally.done[i]
    case CancelBegin(t, kinds) => t !in g.signals.cancellers && kinds != {}
    case CancelEmit(t) => t in g.signals.cancellers && g.signals.cancellers[t].at < g.Size()
  }

  function Apply(g: Group, step: Step): Group
    requires WellFormed(g) && Enabled(g, step)
  {
    match step
    case Initiate(outcome) => AfterInitiate(g, outcome)
    case ReadFlag => g.(loop := g.loop.(phase := Emitting(g.signals.cancelled)))
    case EmitFlag =>
      g.(loop := g.loop.(phase := Initiating, next := g.loop.next + 1),
         signals := Sent(g.signals, g.loop.next, g.loop.phase.kinds))
    case CountFailure => AfterFailure(g)
    case ChildDone(i, ec) => g.(tally := One(g.tally, g.stopOnError, i, ec))
    case CancelBegin(t, kinds) =>
      g.(signals := g.signals.(cancelled := g.signals.cancelled + kinds,
                               cancellers := g.signals.cancellers[t := Canceller(kinds, 0)]))
    case CancelEmit(t) => g.(signals := AfterEmit(g, t))
  }

  function Sent(s: Signals, i: nat, kinds: set<Kind>): Signals
    requires i < |s.received|
  {
    s.(received := s.received[i := s.received[i] + kinds])
  }

  function AfterInitiate(g: Group, outcome: Outcome): Group
    requires g.loop.next < g.Size()
  {
    match outcome
    case Returned =>
      g.(children := g.children[g.loop.next := Initiated], loop := g.loop.(phase := Reading))
    case Threw(code) =>
      g.(children := g.children[g.loop.next := Failed(code)], loop := g.loop.(next := g.loop.next + 1))
  }

  /** One iteration of the loop over initiation errors: an empty code is not counted. */
  function AfterFailure(g: Group): Group
    requires WellFormed(g) && g.loop.failNext < g.Size()
  {
    var i := g.loop.failNext;
    var h := g.(loop := g.loop.(failNext := i + 1));
    if g.children[i].Failed? && g.children[i].ec != NoError
    then h.(tally := One(g.tally, g.stopOnError, i, g.children[i].ec)) else h
  }

  /** A child whose slot has no handler yet receives nothing. */
  function AfterEmit(g: Group, t: nat): Signals
    requires WellFormed(g) && t in g.signals.cancellers && g.signals.cancellers[t].at < g.Size()
  {
    var c := g.signals.cancellers[t];
    var s := if g.children[c.at].Initiated? then Sent(g.signals, c.at, c.kinds) else g.signals;
    s.(cancellers := s.cancellers[t := c.(at := c.at + 1)])
  }

  // ----- the tally -----

  function FirstError(calls: seq<ErrorCode>): ErrorCode {
    if calls == [] then NoError
    else if FirstError(calls[..|calls| - 1]) != NoError then FirstError(calls[..|calls| - 1])
    else calls[|calls| - 1]
  }

  /** How many children are still owed a call. */
  function Owed(done: seq<bool>): nat {
    if done == [] then 0 else Owed(done[1..]) + if done[0] then 0 else 1
  }

  predicate TallyInv(t: Tally, stopOnError: bool) {
    && |t.done| > 0
    && t.remaining == Owed(t.done)
    && |t.calls| == |t.done| - t.remaining
    && t.first == FirstError(t.calls)
    && t.stops == (if stopOnError && t.first != NoError then 1 else 0)
    && t.results == (if t.remaining == 0 then [t.first] else [])
  }

  lemma {:induction false} OwedDrops(done: seq<bool>, i: nat)
    requires i < |done| && !done[i]
    ensures Owed(done[i := true]) == Owed(done) - 1
  {
    if i == 0 {
      assert done[0 := true][1..] == done[1..];
    } else {
      assert done[i := true][1..] == done[1..][i - 1 := true];
      OwedDrops(done[1..], i - 1);
    }
  }

  lemma {:induction false} OwedNothing(done: seq<bool>)
    ensures Owed(done) == 0 <==> forall i :: 0 <= i < |done| ==> done[i]
    ensures Owed(done) <= |done|
  {
    if done != [] {
      OwedNothing(done[1..]);
      assert forall i :: 0 < i < |done| ==> done[i] == done[1..][i - 1];
    }
  }

  /** A call keeps the count exact and never drives it below zero; the call that reaches
      zero completes the group, once, with the first error in lock order. */
  lemma OneKeepsTally(t: Tally, stopOnError: bool, i: nat, ec: ErrorCode)
    requires TallyInv(t, stopOnError) && i < |t.done| && !t.done[i]
    ensures t.remaining > 0 && t.results == []
    ensures TallyInv(One(t, stopOnError, i, ec), stopOnError)
  {
    OwedDrops(t.done, i);
    var calls := t.calls + [ec];
    assert calls[..|calls| - 1] == t.calls;
  }

  // ----- the invariant -----

  /** The initiation loop has finished with child `i`. */
  predicate Passed(g: Group, i: nat) { i < g.loop.next }

  predicate LoopInv(g: Group) {
    && g.loop.next <= g.Size() && g.loop.failNext <= g.Size()
    && (g.loop.failNext > 0 ==> g.loop.next == g.Size())
    && (!g.loop.phase.Initiating? ==> g.loop.next < g.Size() && g.children[g.loop.next].Initiated?)
    && forall i :: 0 <= i < g.Size() ==>
         && (i < g.loop.next ==> !g.children[i].Waiting?)
         && (i > g.loop.next || (i == g.loop.next && g.loop.phase.Initiating?) ==> g.children[i].Waiting?)
  }

  /** Exactly the children that completed, or failed with an error the second loop has
      reached, have been counted. */
  predicate CountInv(g: Group)
    requires WellFormed(g)
  {
    forall i :: 0 <= i < g.Size() ==>
      match g.children[i]
      case Waiting => !g.tally.done[i]
      case Initiated => true
      case Failed(ec) => g.tally.done[i] <==> i < g.loop.failNext && ec != NoError
  }

  /** Whatever a canceller has walked past has reached the child, or is in the flag the
      initiation loop is about to pass on; and nothing reaches a child that nobody asked for. */
  predicate SignalInv(g: Group)
    requires WellFormed(g)
  {
    && (forall i :: 0 <= i < g.Size() ==>
          g.signals.received[i] <= if g.children[i].Initiated? then g.signals.cancelled else {})
    && (forall t <- g.signals.cancellers :: {} < g.signals.cancellers[t].kinds <= g.signals.cancelled)
    && (g.loop.phase.Emitting? ==> g.loop.phase.kinds <= g.signals.cancelled)
    && (forall t, i | t in g.signals.cancellers && 0 <= i < g.Size() && g.children[i].Initiated? ::
          i < g.signals.cancellers[t].at ==> Covered(g, i, g.signals.cancellers[t].kinds))
  }

  predicate Covered(g: Group, i: nat, kinds: set<Kind>)
    requires WellFormed(g) && i < g.Size()
  {
    || (g.loop.phase.Reading? && i == g.loop.next)
    || kinds <= g.signals.received[i] + (if g.loop.phase.Emitting? && i == g.loop.next then g.loop.phase.kinds else {})
  }

  predicate Inv(g: Group) {
    WellFormed(g) && TallyInv(g.tally, g.stopOnError) && LoopInv(g) && CountInv(g) && SignalInv(g)
  }

  lemma FreshIsGood(n: nat, stopOnError: bool)
    requires n > 0
    ensures Inv(Fresh(n, stopOnError))
  {
    NothingDone(n);
  }

  lemma {:induction false} NothingDone(n: nat)
    ensures Owed(seq(n, _ => false)) == n
  {
    if n > 0 {
      NothingDone(n - 1);
      assert seq(n, _ => false)[1..] == seq(n - 1, _ => false);
    }
  }

  lemma InitiateKeepsInv(g: Group, outcome: Outcome)
    requires Inv(g) && Enabled(g, Initiate(outcome))
    ensures Inv(AfterInitiate(g, outcome))
  {}

  lemma LoopKeepsInv(g: Group, step: Step)
    requires Inv(g) && Enabled(g, step) && (step.ReadFlag? || step.EmitFlag?)
    ensures Inv(Apply(g, step))
  {}

  lemma FailureKeepsInv(g: Group)
    requires Inv(g) && Enabled(g, CountFailure)
    ensures Inv(AfterFailure(g))
  {
    var i := g.loop.failNext;
    if g.children[i].Failed? && g.children[i].ec != NoError {
      OneKeepsTally(g.tally, g.stopOnError, i, g.children[i].ec);
    }
  }

  lemma ChildKeepsInv(g: Group, i: nat, ec: ErrorCode)
    requires Inv(g) && Enabled(g, ChildDone(i, ec))
    ensures Inv(Apply(g, ChildDone(i, ec)))
  {
    OneKeepsTally(g.tally, g.stopOnError, i, ec);
  }

  lemma CancelBeginKeepsInv(g: Group, step: Step)
    requires Inv(g) && Enabled(g, step) && step.CancelBegin?
    ensures Inv(Apply(g, step))
  {}

  lemma CancelEmitKeepsInv(g: Group, step: Step)
    requires Inv(g) && Enabled(g, step) && step.CancelEmit?
    ensures Inv(Apply(g, step))
  {}

  lemma {:induction false} StepKeepsInv(g: Group, step: Step)
    requires Inv(g) && Enabled(g, step)
    ensures Inv(Apply(g, step))
  {
    match step
    case Initiate(outcome) => InitiateKeepsInv(g, outcome);
    case ReadFlag => LoopKeepsInv(g, step);
    case EmitFlag => LoopKeepsInv(g, step);
    case CountFailure => FailureKeepsInv(g);
    case ChildDone(i, ec) => ChildKeepsInv(g, i, ec);
    case CancelBegin(_, _) => CancelBeginKeepsInv(g, step);
    case CancelEmit(_) => CancelEmitKeepsInv(g, step);
  }

  /** A result, once there, stays. */
  lemma StepKeepsResults(g: Group, step: Step)
    requires Inv(g) && Enabled(g, step) && g.tally.results != []
    ensures Apply(g, step).tally.results == g.tally.results
  {
    OwedNothing(g.tally.done);
  }

  /** What a step can do to the record of child `i`. */
  lemma StepOnChild(g: Group, step: Step, i: nat)
    requires Inv(g) && Enabled(g, step) && i < g.Size()
    ensures var h := Apply(g, step);
            && h.Size() == g.Size() && WellFormed(h)
            && (h.children[i] == g.children[i] || (step.Initiate? && i == g.loop.next && g.children[i].Waiting?))
            && (g.tally.done[i] ==> h.tally.done[i])
            && (h.tally.done[i] && !g.tally.done[i] ==>
                  (step.ChildDone? && step.i == i) || (step.CountFailure? && g.children[i].Failed?))
            && g.signals.cancelled <= h.signals.cancelled
  {
    match step
    case Initiate(outcome) =>
    case CountFailure =>
    case ChildDone(j, ec) =>
    case _ => assert Apply(g, step).tally == g.tally && Apply(g, step).children == g.children;
  }

  // ----- every state of every run -----

  ghost predicate Next(g: Group, h: Group) {
    WellFormed(g) && exists step :: Enabled(g, step) && h == Apply(g, step)
  }

  ghost predicate IsRun(run: seq<Group>, n: nat, stopOnError: bool) {
    && n > 0 && |run| > 0
    && run[0] == Fresh(n, stopOnError)
    && forall k {:trigger run[k]} :: 0 < k < |run| ==> Next(run[k - 1], run[k])
  }

  lemma NextKeepsInv(g: Group, h: Group)
    requires Inv(g) && Next(g, h)
    ensures Inv(h) && h.Size() == g.Size() && h.stopOnError == g.stopOnError
  {
    var step :| Enabled(g, step) && h == Apply(g, step);
    StepKeepsInv(g, step);
  }

  lemma {:induction false} RunKeepsInv(run: seq<Group>, n: nat, stopOnError: bool, k: nat)
    requires IsRun(run, n, stopOnError) && k < |run|
    ensures Inv(run[k]) && run[k].Size() == n && run[k].stopOnError == stopOnError
  {
    FreshIsGood(n, stopOnError);
    if k > 0 {
      RunKeepsInv(run, n, stopOnError, k - 1);
      NextKeepsInv(run[k - 1], run[k]);
    }
  }

  /** For any number of children and any order of completions and initiation failures: the
      count is the number of children still owed, so it never underflows; the group completes
      at most once, exactly when every child has been counted, with the first error in lock
      order, which is success if and only if every child succeeded; a stop is fanned out once
      if there was an error and the group wants one. */
  lemma GroupCompletesOnce(run: seq<Group>, n: nat, stopOnError: bool, k: nat)
    requires IsRun(run, n, stopOnError) && k < |run|
    ensures var t := run[k].tally;
            && 0 <= t.remaining == n - |t.calls|
            && |t.results| <= 1
            && (t.results != [] <==> forall i :: 0 <= i < |t.done| ==> t.done[i])
            && (t.results != [] ==> |t.calls| == n && t.results == [FirstError(t.calls)])
            && (FirstError(t.calls) == NoError <==> forall i :: 0 <= i < |t.calls| ==> t.calls[i] == NoError)
            && t.stops == (if stopOnError && FirstError(t.calls) != NoError then 1 else 0)
  {
    RunKeepsInv(run, n, stopOnError, k);
    OwedNothing(run[k].tally.done);
    NoFirstError(run[k].tally.calls);
  }

  lemma {:induction false} NoFirstError(calls: seq<ErrorCode>)
    ensures FirstError(calls) == NoError <==> forall i :: 0 <= i < |calls| ==> calls[i] == NoError
  {
    if calls != [] {
      var init := calls[..|calls| - 1];
      NoFirstError(init);
      assert forall i :: 0 <= i < |init| ==> init[i] == calls[i];
    }
  }

  lemma {:induction false} FirstErrorIsGiven(calls: seq<ErrorCode>)
    ensures FirstError(calls) == NoError || FirstError(calls) in calls
  {
    if calls != [] {
      FirstErrorIsGiven(calls[..|calls| - 1]);
    }
  }

  // ----- the codes the group is given -----

  /** The codes, out of `codes`, of the children that have been counted. */
  function Counted(codes: seq<ErrorCode>, done: seq<bool>): set<ErrorCode>
    requires |codes| == |done|
  {
    set i | 0 <= i < |done| && done[i] :: codes[i]
  }

  function Given(calls: seq<ErrorCode>): set<ErrorCode> { set c | c in calls }

  /** What the group was given are the codes of the children it has counted. */
  predicate Tallied(t: Tally, codes: seq<ErrorCode>) {
    |codes| == |t.done| && Given(t.calls) == Counted(codes, t.done)
  }

  lemma IsCounted(codes: seq<ErrorCode>, done: seq<bool>, i: nat)
    requires |codes| == |done| && i < |done| && done[i]
    ensures codes[i] in Counted(codes, done)
  {}

  lemma CountedMore(codes: seq<ErrorCode>, done: seq<bool>, later: seq<ErrorCode>, i: nat)
    requires |codes| == |later| == |done| && i < |done|
    requires forall j :: 0 <= j < |done| && (done[j] || j == i) ==> later[j] == codes[j]
    ensures Counted(later, done[i := true]) == Counted(codes, done) + {codes[i]}
  {
    var more := done[i := true];
    forall c | c in Counted(codes, done) ensures c in Counted(later, more) {
      var j :| 0 <= j < |done| && done[j] && codes[j] == c;
      IsCounted(later, more, j);
    }
    IsCounted(later, more, i);
    forall c | c in Counted(later, more) ensures c in Counted(codes, done) + {codes[i]} {
      var j :| 0 <= j < |more| && more[j] && later[j] == c;
      if j != i { IsCounted(codes, done, j); }
    }
  }

  lemma CountedSame(codes: seq<ErrorCode>, done: seq<bool>, later: seq<ErrorCode>)
    requires |codes| == |later| == |done|
    requires forall j :: 0 <= j < |done| && done[j] ==> later[j] == codes[j]
    ensures Counted(later, done) == Counted(codes, done)
  {
    forall c | c in Counted(codes, done) ensures c in Counted(later, done) {
      var j :| 0 <= j < |done| && done[j] && codes[j] == c;
      IsCounted(later, done, j);
    }
    forall c | c in Counted(later, done) ensures c in Counted(codes, done) {
      var j :| 0 <= j < |done| && done[j] && later[j] == c;
      IsCounted(codes, done, j);
    }
  }

  lemma GivenAppend(calls: seq<ErrorCode>, c: ErrorCode)
    ensures Given(calls + [c]) == Given(calls) + {c}
  {
    assert c in calls + [c];
    forall x | x in calls ensures x in calls + [c] {}
  }

  /** Nothing was counted between `t` and `u`, or one child with its code. */
  ghost predicate CountsOne(t: Tally, u: Tally, codes: seq<ErrorCode>)
    requires |codes| == |t.done|
  {
    || (u.calls == t.calls && u.done == t.done)
    || exists i :: 0 <= i < |codes| && u.done == t.done[i := true] && u.calls == t.calls + [codes[i]]
  }

  lemma TalliedKept(t: Tally, u: Tally, codes: seq<ErrorCode>, later: seq<ErrorCode>)
    requires Tallied(t, codes) && |later| == |codes| == |u.done| && CountsOne(t, u, codes)
    requires forall i :: 0 <= i < |codes| && u.done[i] ==> later[i] == codes[i]
    ensures Tallied(u, later)
  {
    if u.calls == t.calls && u.done == t.done {
      CountedSame(codes, t.done, later);
    } else {
      var i :| 0 <= i < |codes| && u.done == t.done[i := true] && u.calls == t.calls + [codes[i]];
      CountedMore(codes, t.done, later, i);
      GivenAppend(t.calls, codes[i]);
    }
  }

  /** A completed group has succeeded if and only if every child has, and otherwise reports the
      code of one of them. */
  lemma ResultIsAChilds(g: Group, codes: seq<ErrorCode>)
    requires Inv(g) && Tallied(g.tally, codes) && g.tally.results != []
    ensures |g.tally.results| == 1
    ensures g.tally.results[0] == NoError <==> forall i :: 0 <= i < |codes| ==> codes[i] == NoError
    ensures g.tally.results[0] in codes
  {
    var t := g.tally;
    OwedNothing(t.done);
    NoFirstError(t.calls);
    FirstErrorIsGiven(t.calls);
    forall i | 0 <= i < |codes| ensures codes[i] in t.calls {
      IsCounted(codes, t.done, i);
      assert codes[i] in Given(t.calls);
    }
    forall c | c in t.calls ensures c in codes {
      assert c in Given(t.calls);
    }
    if t.first == NoError { assert codes[0] == NoError; }
  }

  /** Nothing is left to run: both loops are over and every initiated child has completed. */
  predicate Quiescent(g: Group)
    requires WellFormed(g)
  {
    && g.loop.next == g.loop.failNext == g.Size()
    && forall i :: 0 <= i < g.Size() && g.children[i].Initiated? ==> g.tally.done[i]
  }

  lemma QuiescentIsComplete(g: Group)
    requires Inv(g) && Quiescent(g)
    ensures (forall i :: 0 <= i < g.Size() ==> g.tally.done[i]) <==> Failed(NoError) !in g.children
  {
    if Failed(NoError) !in g.children {
      forall i | 0 <= i < g.Size() ensures g.tally.done[i] {
        assert g.children[i] in g.children;
      }
    }
  }

  /** A group in which nothing is left to run has completed if and only if no initiation
      failed with an exception that maps to no error: the second loop does not count those. */
  lemma QuiescentGroupCompletedIff(run: seq<Group>, n: nat, stopOnError: bool, k: nat)
    requires IsRun(run, n, stopOnError) && k < |run| && WellFormed(run[k]) && Quiescent(run[k])
    ensures run[k].tally.results != [] <==> Failed(NoError) !in run[k].children
  {
    GroupCompletesOnce(run, n, stopOnError, k);
    RunKeepsInv(run, n, stopOnError, k);
    QuiescentIsComplete(run[k]);
  }

  /** Cancellation fan-out is never lost: once a cancelling thread has walked past a child and
      the initiation loop is done with that child, the child's handler has received every
      kind of cancellation that thread asked for. */
  lemma CancellationReachesEveryChild(run: seq<Group>, n: nat, stopOnError: bool, k: nat, thread: nat, i: nat)
    requires IsRun(run, n, stopOnError) && k < |run|
    requires thread in run[k].signals.cancellers && i < run[k].signals.cancellers[thread].at
    requires i < run[k].Size() && run[k].children[i].Initiated? && Passed(run[k], i)
    ensures i < |run[k].signals.received|
    ensures run[k].signals.cancellers[thread].kinds <= run[k].signals.received[i]
  {
    RunKeepsInv(run, n, stopOnError, k);
    assert Covered(run[k], i, run[k].signals.cancellers[thread].kinds);
  }

  /** The thread asked for kind `x`, and has gone past child `i` or was heard by the loop. */
  predicate Sends(g: Group, thread: nat, i: nat, x: Kind) {
    && thread in g.signals.cancellers && x in g.signals.cancellers[thread].kinds
    && (i < g.signals.cancellers[thread].at || Passed(g, i))
  }

  predicate AsksFor(g: Group, thread: nat, x: Kind) {
    thread in g.signals.cancellers && x in g.signals.cancellers[thread].kinds
  }

  ghost predicate Sourced(g: Group)
    requires WellFormed(g)
  {
    && (forall x <- g.signals.cancelled :: exists thread :: AsksFor(g, thread, x))
    && (forall i, x :: 0 <= i < g.Size() && x in g.signals.received[i] ==> exists thread :: Sends(g, thread, i, x))
  }

  lemma StaysSent(g: Group, step: Step, thread: nat, i: nat, x: Kind)
    requires WellFormed(g) && Enabled(g, step)
    ensures AsksFor(g, thread, x) ==> AsksFor(Apply(g, step), thread, x)
    ensures Sends(g, thread, i, x) ==> Sends(Apply(g, step), thread, i, x)
  {}

  /** What a step adds to the flag, and what it sends a child. */
  lemma FlagEffect(g: Group, step: Step, x: Kind)
    requires WellFormed(g) && Enabled(g, step) && x in Apply(g, step).signals.cancelled && x !in g.signals.cancelled
    ensures step.CancelBegin? && AsksFor(Apply(g, step), step.thread, x)
  {}

  lemma SignalEffect(g: Group, step: Step, i: nat, x: Kind)
    requires WellFormed(g) && Enabled(g, step) && i < g.Size()
    ensures |Apply(g, step).signals.received| == g.Size()
    ensures x in Apply(g, step).signals.received[i] && x !in g.signals.received[i] ==>
              || (step.EmitFlag? && x in g.loop.phase.kinds && Passed(Apply(g, step), i))
              || (step.CancelEmit? && Sends(Apply(g, step), step.thread, i, x))
  {}

  lemma FlagIsSourced(g: Group, step: Step, x: Kind)
    requires WellFormed(g) && Sourced(g) && Enabled(g, step) && x in Apply(g, step).signals.cancelled
    ensures exists thread :: AsksFor(Apply(g, step), thread, x)
  {
    if x in g.signals.cancelled {
      var thread :| AsksFor(g, thread, x);
      StaysSent(g, step, thread, 0, x);
    } else {
      FlagEffect(g, step, x);
    }
  }

  lemma SignalIsSourced(g: Group, step: Step, i: nat, x: Kind)
    requires WellFormed(g) && Sourced(g) && Enabled(g, step) && i < g.Size()
    requires g.loop.phase.Emitting? ==> g.loop.phase.kinds <= g.signals.cancelled
    requires |Apply(g, step).signals.received| == g.Size() && x in Apply(g, step).signals.received[i]
    ensures exists thread :: Sends(Apply(g, step), thread, i, x)
  {
    SignalEffect(g, step, i, x);
    if x in g.signals.received[i] {
      var thread :| Sends(g, thread, i, x);
      StaysSent(g, step, thread, i, x);
    } else if step.EmitFlag? {
      var thread :| AsksFor(g, thread, x);
      StaysSent(g, step, thread, i, x);
      assert Sends(Apply(g, step), thread, i, x);
    }
  }

  lemma NextIsSourced(g: Group, h: Group)
    requires Inv(g) && Sourced(g) && Next(g, h)
    ensures WellFormed(h) && Sourced(h)
  {
    NextKeepsInv(g, h);
    var step :| Enabled(g, step) && h == Apply(g, step);
    forall x | x in h.signals.cancelled ensures exists thread :: AsksFor(h, thread, x) {
      FlagIsSourced(g, step, x);
    }
    forall i, x | 0 <= i < h.Size() && x in h.signals.received[i] ensures exists thread :: Sends(h, thread, i, x) {
      SignalIsSourced(g, step, i, x);
    }
  }

  lemma {:induction false} RunIsSourced(run: seq<Group>, n: nat, stopOnError: bool, k: nat)
    requires IsRun(run, n, stopOnError) && k < |run|
    ensures Inv(run[k]) && Sourced(run[k])
  {
    RunKeepsInv(run, n, stopOnError, k);
    if k > 0 {
      RunIsSourced(run, n, stopOnError, k - 1);
      NextIsSourced(run[k - 1], run[k]);
    }
  }

  /** And no child is sent a kind that no thread asked for, or before that thread has come to it
      or the initiation loop has passed on what it asked. */
  lemma EverySignalWasAskedFor(run: seq<Group>, n: nat, stopOnError: bool, k: nat, i: nat, x: Kind)
    requires IsRun(run, n, stopOnError) && k < |run| && i < run[k].Size()
    requires i < |run[k].signals.received| && x in run[k].signals.received[i]
    ensures exists thread :: Sends(run[k], thread, i, x)
  {
    RunIsSourced(run, n, stopOnError, k);
  }
}

/** The group as the object it is: what the critical sections and one iteration of each loop
    do to its fields, each proved to be the step that stands for it. */
module OperationGroupObject {
  import opened Types
  import M = OperationGroup

  class OperationGroup {
    const stopOnError: bool
    var children: seq<M.Child>
    var loop: M.Loop
    var remaining: int
    var firstError: ErrorCode
    var calls: seq<ErrorCode>
    var done: seq<bool>
    var stops: nat
    var results: seq<ErrorCode>
    var signals: M.Signals

    function Tally(): M.Tally
      reads this
    {
      M.Tally(remaining, firstError, calls, done, stops, results)
    }

    function View(): M.Group
      reads this
    {
      M.Group(children, stopOnError, loop, Tally(), signals)
    }

    constructor (n: nat, stopOnError: bool)
      requires n > 0
      ensures View() == M.Fresh(n, stopOnError) && M.Inv(View())
    {
      this.stopOnError := stopOnError;
      children := seq(n, _ => M.Waiting);
      loop := M.Loop(0, M.Initiating, 0);
      remaining, firstError, calls, stops, results := n, NoError, [], 0, [];
      done := seq(n, _ => false);
      signals := M.Signals({}, seq(n, _ => {}), map[]);
      new;
      M.FreshIsGood(n, stopOnError);
    }

    /** Counts a child; the caller that counts the last one completes the group. */
    method One(i: nat, ec: ErrorCode) returns (stop: bool, complete: bool)
      requires M.TallyInv(Tally(), stopOnError) && i < |done| && !done[i]
      modifies `remaining, `firstError, `calls, `done, `stops, `results
      ensures Tally() == M.One(old(Tally()), stopOnError, i, ec) && M.TallyInv(Tally(), stopOnError)
      // whoever completes is the last, and there is one of them
      ensures complete <==> remaining == 0
      ensures complete ==> results == [firstError]
      // a stop is asked for at the first error only
      ensures stop <==> stopOnError && ec != NoError && old(firstError) == NoError
    {
      M.OneKeepsTally(Tally(), stopOnError, i, ec);
      stop, complete := false, false;
      calls := calls + [ec];
      done := done[i := true];
      if ec != NoError && firstError == NoError {
        firstError := ec;
        stop := stopOnError;
      }
      remaining := remaining - 1;
      if remaining == 0 {
        results := results + [firstError];
        complete := true;
      }
      if stop { stops := stops + 1; }
    }

    method ChildDone(i: nat, ec: ErrorCode)
      requires M.Inv(View()) && M.Enabled(View(), M.ChildDone(i, ec))
      modifies this
      ensures M.Inv(View()) && View() == M.Apply(old(View()), M.ChildDone(i, ec))
    {
      M.StepKeepsInv(View(), M.ChildDone(i, ec));
      var _, _ := One(i, ec);
    }

    /** One iteration of the loop over the recorded initiation errors. */
    method CountFailure()
      requires M.Inv(View()) && M.Enabled(View(), M.CountFailure)
      modifies this
      ensures M.Inv(View()) && View() == M.Apply(old(View()), M.CountFailure)
    {
      M.StepKeepsInv(View(), M.CountFailure);
      var i := loop.failNext;
      if children[i].Failed? && children[i].ec != NoError {
        assert !done[i];
        var _, _ := One(i, children[i].ec);
      }
      loop := loop.(failNext := i + 1);
    }
  }
}
