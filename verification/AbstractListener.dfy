/** What the server layer may rely on about a listener of either kind: a lifecycle, its
    wait operations and its start operations, changed by one atomic move at a time. */
module AbstractListener {
  import opened Types
  import L = Lifecycles
  import W = Waits
  import S = Starts

  datatype Listener = Listener(life: L.Lifecycle, waits: W.Table, starts: S.Table)

  datatype Move =
    | Quiet
    | IssueWait | SignalWait(id: nat) | SubmitWait(id: nat) | CancelWait(id: nat)
    | IssueStart | SignalStart(id: nat)
    | RejectStart(id: nat)
    | JoinStart(id: nat)
    | Launch(id: nat)
    | LaunchFails(id: nat, ec: ErrorCode, viaStopping: bool)
    | BeginStop(cause: ErrorCode, why: StopReason)
    | FinishStop
    | StopAtOnce(cause: ErrorCode, why: StopReason)

  const Fresh := Listener(L.Fresh, W.Empty, S.Empty)

  predicate Pending(a: Listener, id: nat) { id in a.starts.ops && a.starts.ops[id].queued }

  /** The lifecycle part of a move. */
  function LifeMove(m: Move): L.Move {
    match m
    case Launch(_) => L.Launch
    case LaunchFails(_, ec, via) => L.LaunchFails(ec, via)
    case BeginStop(ec, r) => L.BeginStop(ec, r)
    case FinishStop => L.FinishStop
    case StopAtOnce(ec, r) => L.StopAtOnce(ec, r)
    case _ => L.Stay
  }

  predicate Enabled(a: Listener, m: Move) {
    && L.Enabled(a.life, LifeMove(m))
    && match m
       case SignalWait(id) => id in a.waits.ops
       case SubmitWait(id) => id in a.waits.ops && a.waits.ops[id].submitQueued
       case CancelWait(id) => id in a.waits.ops && a.waits.ops[id].cancelTasks > 0
       case SignalStart(id) => id in a.starts.ops
       case RejectStart(id) => Pending(a, id) && (a.starts.ops[id].cancelled || a.life.state.Stopping?)
       case JoinStart(id) => Pending(a, id) && !a.starts.ops[id].cancelled && a.life.state.Running?
       case Launch(id) => Pending(a, id) && !a.starts.ops[id].cancelled
       case LaunchFails(id, _, _) => Pending(a, id) && !a.starts.ops[id].cancelled
       case _ => true
  }

  /** Entering `Stopped` completes every registered wait with the terminal error. */
  function Do(a: Listener, m: Move): Listener
    requires Enabled(a, m)
  {
    var life := L.Do(a.life, LifeMove(m));
    var b := a.(life := life,
                waits := if life.state.Stopped? && !a.life.state.Stopped?
                         then W.ReleaseAll(a.waits, life.terminal) else a.waits);
    match m
    case IssueWait => b.(waits := W.Issue(b.waits))
    case SignalWait(id) => b.(waits := W.Signal(b.waits, id))
    case SubmitWait(id) => b.(waits := W.Submit(b.waits, id, a.life.state, a.life.terminal))
    case CancelWait(id) => b.(waits := W.RunCancel(b.waits, id))
    case IssueStart => b.(starts := S.Issue(b.starts))
    case SignalStart(id) => b.(starts := S.Signal(b.starts, id))
    case RejectStart(id) => b.(starts := S.Decide(b.starts, id, OperationAborted))
    case JoinStart(id) => b.(starts := S.Decide(b.starts, id, NoError))
    case Launch(id) => b.(starts := S.Decide(b.starts, id, NoError))
    case LaunchFails(id, ec, _) => b.(starts := S.Decide(b.starts, id, ec))
    case _ => b
  }

  predicate Inv(a: Listener) {
    && L.Inv(a.life)
    && W.Inv(a.waits)
    && S.Inv(a.starts)
    && (a.life.state.Stopped? ==> a.waits.waiters == [])
  }

  /** No move breaks the lifecycle, completes a handler twice or leaves a waiter behind. */
  lemma {:induction false} MoveKeepsInv(a: Listener, m: Move)
    requires Inv(a) && Enabled(a, m)
    ensures Inv(Do(a, m))
  {
    L.MoveKeepsInv(a.life, LifeMove(m));
    WaitsKeepInv(a, m);
  }

  lemma WaitsKeepInv(a: Listener, m: Move)
    requires Inv(a) && Enabled(a, m)
    ensures W.Inv(Do(a, m).waits)
    ensures Do(a, m).life.state.Stopped? ==> Do(a, m).waits.waiters == []
  {
    W.ReleaseAllKeepsInv(a.waits, Do(a, m).life.terminal);
    match m
    case IssueWait => W.IssueKeepsInv(a.waits);
    case SignalWait(id) => W.SignalKeepsInv(a.waits, id);
    case SubmitWait(id) => W.SubmitKeepsInv(a.waits, id, a.life.state, a.life.terminal);
    case CancelWait(id) => W.RunCancelKeepsInv(a.waits, id);
    case _ =>
  }

  // ----- refinement -----

  /** `m` leads from `a` to `b`. */
  predicate Simulates(a: Listener, b: Listener, m: Move) { Enabled(a, m) && b == Do(a, m) }

  /** The move that explains a change of lifecycle by a task other than a start. */
  function Shift(a: L.Lifecycle, b: L.Lifecycle): Move {
    if a == b then Quiet
    else if b.state.Stopping? then BeginStop(b.terminal, b.reason)
    else if a.state.Stopping? then FinishStop
    else StopAtOnce(b.terminal, b.reason)
  }

  predicate Shifts(a: Listener, b: Listener) { Simulates(a, b, Shift(a.life, b.life)) }

  // ----- what one move does to one wait -----

  function Results(a: Listener, id: nat): seq<W.Result> {
    if id in a.waits.ops then a.waits.ops[id].results else []
  }

  /** A handler that has completed stays completed, with the result it got. A handler
      that completes is released by a stopped listener with its terminal error, or was
      cancelled. */
  lemma MoveCompletesAtMostOnce(a: Listener, m: Move, id: nat)
    requires Inv(a) && Enabled(a, m)
    ensures Results(a, id) != [] ==> Results(Do(a, m), id) == Results(a, id)
    ensures Results(a, id) == [] && Results(Do(a, m), id) != [] ==>
              || (Results(Do(a, m), id) == [W.Cancelled] && a.waits.ops[id].cancelled)
              || (Results(Do(a, m), id) == [W.Released(Do(a, m).life.terminal)] && Do(a, m).life.state.Stopped?)
  {
    var b := Do(a, m);
    if id in a.waits.ops {
      assert W.Placed(a.waits.ops[id], id in a.waits.waiters);
    }
  }

  /** The move that stops the listener completes every registered wait, all with the one
      terminal error. */
  lemma StopReleasesEveryWaiter(a: Listener, m: Move, id: nat)
    requires Inv(a) && Enabled(a, m) && id in a.waits.waiters
    requires !a.life.state.Stopped? && Do(a, m).life.state.Stopped?
    ensures Results(Do(a, m), id) == [W.Released(Do(a, m).life.terminal)]
    ensures Do(a, m).waits.waiters == []
  {
    assert W.Placed(a.waits.ops[id], true);
  }

  /** Generations advance one at a time, only out of idle or stopped; a stopped listener
      stays so until the next, and a running one was running before in its generation. */
  lemma MoveAcrossGenerations(a: Listener, m: Move)
    requires Inv(a) && Enabled(a, m)
    ensures var b := Do(a, m);
            && a.life.generation <= b.life.generation <= a.life.generation + 1
            && (b.life.generation == a.life.generation && a.life.state.Stopped? ==> b.life.state.Stopped?)
            && (b.life.generation == a.life.generation && b.life.state.Running? ==> a.life.state.Running?)
            && (b.life.generation > a.life.generation ==> !a.life.state.Stopping?)
  {}

  function StartResults(a: Listener, id: nat): seq<ErrorCode> {
    if id in a.starts.ops then a.starts.ops[id].results else []
  }

  /** A start completes at most once. It reports success only from a running listener, and an
      error of its own only from a listener that error has stopped; otherwise it was aborted,
      because it was cancelled or came during a stop. */
  lemma StartReportsItsOutcome(a: Listener, m: Move, id: nat)
    requires Inv(a) && Enabled(a, m)
    ensures StartResults(a, id) != [] ==> StartResults(Do(a, m), id) == StartResults(a, id)
    ensures StartResults(a, id) == [] && StartResults(Do(a, m), id) != [] ==>
              var b := Do(a, m);
              || (StartResults(b, id) == [NoError] && b.life.state.Running? && b.life.terminal == NoError)
              || (StartResults(b, id) == [b.life.terminal] && b.life.state.Stopped? && b.life.reason == StartupFailure)
              || (StartResults(b, id) == [OperationAborted] && b.life == a.life
                  && (a.starts.ops[id].cancelled || a.life.state.Stopping?))
  {}

  /** A start cancelled before its task has run is aborted by it, and the listener is left alone;
      until then nothing undoes the cancellation. */
  lemma CancelledStartIsAborted(a: Listener, id: nat, m: Move)
    requires Inv(a) && Pending(a, id) && Enabled(Do(a, SignalStart(id)), m)
    ensures var b := Do(a, SignalStart(id));
            var c := Do(b, m);
            && b.life == a.life && b.waits == a.waits && b.starts.ops[id].cancelled && Pending(b, id)
            && if Pending(c, id) then c.starts.ops[id].cancelled
               else StartResults(c, id) == [OperationAborted] && c.life == a.life
  {}

  /** The wait has been handed to the listener: registered or completed, never queued again. */
  predicate Submitted(a: Listener, id: nat) { id in a.waits.ops && !a.waits.ops[id].submitQueued }

  lemma MoveKeepsSubmitted(a: Listener, m: Move, id: nat)
    requires Inv(a) && Enabled(a, m) && Submitted(a, id)
    ensures Submitted(Do(a, m), id)
  {}

  /** Waits do not vanish, and a signal of its own, and only that, marks a wait as cancelled. */
  lemma MoveKeepsWait(a: Listener, m: Move, id: nat)
    requires Inv(a) && Enabled(a, m) && id in a.waits.ops
    ensures id in Do(a, m).waits.ops
    ensures Do(a, m).waits.ops[id].cancelled <==> a.waits.ops[id].cancelled || m == SignalWait(id)
  {}

  /** A stopped listener owes no submitted wait anything. */
  lemma StoppedOwesNothing(a: Listener, id: nat)
    requires Inv(a) && a.life.state.Stopped? && Submitted(a, id)
    ensures |Results(a, id)| == 1
  {
    assert W.Placed(a.waits.ops[id], id in a.waits.waiters);
  }

  /** Cancelling a wait touches that wait only. */
  lemma CancellingAWaitIsLocal(a: Listener, m: Move, id: nat, other: nat)
    requires Inv(a) && Enabled(a, m) && (m == SignalWait(id) || m == CancelWait(id)) && other != id
    ensures Do(a, m).life == a.life && Do(a, m).starts == a.starts
    ensures other in a.waits.waiters <==> other in Do(a, m).waits.waiters
    ensures other in a.waits.ops <==> other in Do(a, m).waits.ops
    ensures other in a.waits.ops ==> Do(a, m).waits.ops[other] == a.waits.ops[other]
  {
    W.S.WithoutRemoves(a.waits.waiters, id);
  }

  /** A cancellation is never lost: until the handler completes, the submission task or a
      cancel task is queued, and running either one completes the wait as cancelled. */
  lemma SignalIsNeverLost(a: Listener, id: nat)
    requires Inv(a) && id in a.waits.ops && a.waits.ops[id].cancelled && Results(a, id) == []
    ensures Enabled(a, SubmitWait(id)) || Enabled(a, CancelWait(id))
    ensures Enabled(a, SubmitWait(id)) ==> Results(Do(a, SubmitWait(id)), id) == [W.Cancelled]
    ensures !Enabled(a, SubmitWait(id)) ==> Results(Do(a, CancelWait(id)), id) == [W.Cancelled]
  {
    assert W.Placed(a.waits.ops[id], id in a.waits.waiters);
  }

  // ----- whole runs -----

  ghost predicate Next(a: Listener, b: Listener) {
    exists m :: Enabled(a, m) && b == Do(a, m)
  }

  /** The move lemmas above, for a step whose move is not at hand. */
  lemma NextFacts(a: Listener, b: Listener, id: nat)
    requires Inv(a) && Next(a, b)
    ensures Inv(b) && a.life.generation <= b.life.generation
    ensures (a.life.state.Stopping? || a.life.state.Stopped?) && b.life.generation == a.life.generation ==>
              && (b.life.state.Stopping? || b.life.state.Stopped?)
              && b.life.terminal == a.life.terminal && b.life.reason == a.life.reason
    ensures Results(a, id) != [] ==> Results(b, id) == Results(a, id)
    ensures Results(a, id) == [] && Results(b, id) != [] && Results(b, id) != [W.Cancelled] ==>
              b.life.state.Stopped? && Results(b, id) == [W.Released(b.life.terminal)]
  {
    var m :| Enabled(a, m) && b == Do(a, m);
    MoveKeepsInv(a, m);
    MoveCompletesAtMostOnce(a, m, id);
    if (a.life.state.Stopping? || a.life.state.Stopped?) && b.life.generation == a.life.generation {
      L.MoveKeepsCause(a.life, LifeMove(m));
    }
  }

  ghost predicate IsRun(run: seq<Listener>) {
    && |run| > 0
    && Inv(run[0])
    && forall i {:trigger At(i)} :: 0 < i < |run| ==> Next(run[i - 1], run[i])
  }

  lemma StepFacts(run: seq<Listener>, j: nat, id: nat)
    requires IsRun(run) && 0 < j < |run| && Inv(run[j - 1])
    ensures var a, b := run[j - 1], run[j];
            && Inv(b) && a.life.generation <= b.life.generation
            && ((a.life.state.Stopping? || a.life.state.Stopped?) && b.life.generation == a.life.generation ==>
                  && (b.life.state.Stopping? || b.life.state.Stopped?)
                  && b.life.terminal == a.life.terminal && b.life.reason == a.life.reason)
            && (Results(a, id) != [] ==> Results(b, id) == Results(a, id))
            && (Results(a, id) == [] && Results(b, id) != [] && Results(b, id) != [W.Cancelled] ==>
                  b.life.state.Stopped? && Results(b, id) == [W.Released(b.life.terminal)])
  {
    assert At(j);
    NextFacts(run[j - 1], run[j], id);
  }

  lemma {:induction false} RunKeepsInv(run: seq<Listener>, i: nat, j: nat)
    requires IsRun(run) && i <= j < |run|
    ensures Inv(run[j])
    ensures run[i].life.generation <= run[j].life.generation
    decreases j
  {
    if i < j {
      RunKeepsInv(run, i, j - 1);
      StepFacts(run, j, 0);
    } else if j > 0 {
      RunKeepsInv(run, j - 1, j - 1);
      StepFacts(run, j, 0);
    }
  }

  /** Between tasks a listener is never seen starting; everything it has been through follows
      the edges of the state machine; the generation counts the starts; and it stopped with
      an error exactly when the reason is a failure. */
  lemma LifecycleIsFollowed(run: seq<Listener>, j: nat)
    requires IsRun(run) && j < |run|
    ensures L.Legal(run[j].life.trace) && L.LastOf(run[j].life.trace) == run[j].life.state
    ensures !run[j].life.state.Starting?
    ensures run[j].life.generation == L.Launches(run[j].life.trace)
    ensures run[j].life.state.Stopped? ==>
              (run[j].life.terminal == NoError <==> run[j].life.reason.Requested? || run[j].life.reason.Completed?)
  {
    RunKeepsInv(run, j, j);
  }

  /** First cause wins: from the moment a stop begins until the next start, the terminal
      error and the stop reason are fixed, whatever else happens. */
  lemma {:induction false} FirstCauseWins(run: seq<Listener>, i: nat, j: nat)
    requires IsRun(run) && i <= j < |run|
    requires run[i].life.state.Stopping? || run[i].life.state.Stopped?
    requires run[j].life.generation == run[i].life.generation
    ensures run[j].life.state.Stopping? || run[j].life.state.Stopped?
    ensures run[j].life.terminal == run[i].life.terminal && run[j].life.reason == run[i].life.reason
  {
    if i < j {
      RunKeepsInv(run, i, j - 1);
      StepFacts(run, j, 0);
      FirstCauseWins(run, i, j - 1);
    }
  }

  lemma OneResult(a: Listener, id: nat)
    requires Inv(a)
    ensures |Results(a, id)| <= 1
  {
    if id in a.waits.ops {
      assert W.Placed(a.waits.ops[id], id in a.waits.waiters);
    }
  }

  /** A wait handler completes at most once over a whole run, and keeps its result. */
  lemma {:induction false} WaitCompletesAtMostOnce(run: seq<Listener>, i: nat, j: nat, id: nat)
    requires IsRun(run) && i <= j < |run|
    ensures |Results(run[j], id)| <= 1
    ensures Results(run[i], id) != [] ==> Results(run[j], id) == Results(run[i], id)
  {
    RunKeepsInv(run, i, j);
    OneResult(run[j], id);
    if i < j {
      WaitCompletesAtMostOnce(run, i, j - 1, id);
      RunKeepsInv(run, i, j - 1);
      StepFacts(run, j, id);
    }
  }

  /** A wait that completes with anything but its own cancellation saw the listener
      stopped, with that very error, at some instant after it was issued. */
  lemma {:induction false} ReleasedWaitSawStop(run: seq<Listener>, i: nat, j: nat, id: nat) returns (k: nat)
    requires IsRun(run) && i <= j < |run|
    requires Results(run[i], id) == [] && Results(run[j], id) != [] && Results(run[j], id) != [W.Cancelled]
    ensures i < k <= j && run[k].life.state.Stopped?
    ensures Results(run[j], id) == [W.Released(run[k].life.terminal)]
  {
    RunKeepsInv(run, i, j - 1);
    StepFacts(run, j, id);
    if Results(run[j - 1], id) == [] {
      k := j;
    } else {
      k := ReleasedWaitSawStop(run, i, j - 1, id);
    }
  }

  // ----- the order of the waiters -----

  /** Wait `x` is registered, ahead of `y`. */
  predicate Ahead(a: Listener, x: nat, y: nat) { W.S.Before(a.waits.waiters, x, y) }

  /** A move registers at most one wait, behind all others, and keeps the others in order. */
  lemma MoveKeepsOrder(a: Listener, m: Move, x: nat, y: nat)
    requires Inv(a) && Enabled(a, m) && x in a.waits.waiters && (y in a.waits.waiters ==> Ahead(a, x, y))
    requires x in Do(a, m).waits.waiters && y in Do(a, m).waits.waiters && x != y
    ensures Ahead(Do(a, m), x, y)
  {
    var waiters := a.waits.waiters;
    if m.CancelWait? && m.id in waiters {
      W.S.WithoutRemoves(waiters, m.id);
      W.S.WithoutKeepsOrder(waiters, m.id, x, y);
    } else if m.SubmitWait? && Do(a, m).waits.waiters != waiters {
      W.S.AppendKeepsOrder(waiters, m.id, x, y);
    }
  }

  /** A wait registered at both ends of a run was registered all along. */
  lemma MoveBackKeepsRegistered(a: Listener, m: Move, x: nat)
    requires Inv(a) && Enabled(a, m) && Submitted(a, x) && x in Do(a, m).waits.waiters
    ensures x in a.waits.waiters
  {
    MoveKeepsInv(a, m);
    MoveCompletesAtMostOnce(a, m, x);
    assert W.Placed(a.waits.ops[x], x in a.waits.waiters);
    assert W.Placed(Do(a, m).waits.ops[x], true);
  }

  lemma NextKeepsOrder(a: Listener, b: Listener, x: nat, y: nat)
    requires Inv(a) && Next(a, b) && Submitted(a, x) && x != y
    ensures Submitted(b, x)
    ensures x in b.waits.waiters ==> x in a.waits.waiters
    ensures x in b.waits.waiters && y in b.waits.waiters && (y in a.waits.waiters ==> Ahead(a, x, y)) ==>
              Ahead(b, x, y)
  {
    var m :| Enabled(a, m) && b == Do(a, m);
    MoveKeepsSubmitted(a, m, x);
    if x in b.waits.waiters {
      MoveBackKeepsRegistered(a, m, x);
      if y in b.waits.waiters && (y in a.waits.waiters ==> Ahead(a, x, y)) { MoveKeepsOrder(a, m, x, y); }
    }
  }

  /** Waits are released in the order in which they were registered: one that was registered
      before another is ahead of it in the list for as long as both are there. */
  lemma {:induction false} WaitersAreInOrder(run: seq<Listener>, i: nat, j: nat, x: nat, y: nat)
    requires IsRun(run) && i <= j < |run| && x != y
    requires x in run[i].waits.waiters && (y in run[i].waits.waiters ==> Ahead(run[i], x, y))
    ensures Submitted(run[j], x)
    ensures x in run[j].waits.waiters && y in run[j].waits.waiters ==> Ahead(run[j], x, y)
  {
    RunKeepsInv(run, i, i);
    assert W.Placed(run[i].waits.ops[x], true);
    if i < j {
      WaitersAreInOrder(run, i, j - 1, x, y);
      RunKeepsInv(run, i, j - 1);
      assert At(j);
      NextKeepsOrder(run[j - 1], run[j], x, y);
    }
  }
}
