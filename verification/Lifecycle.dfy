/** The lifecycle both kinds of listener follow, as the atomic moves that one
    strand task can make. */
module Lifecycles {
  import opened Types

  /** `trace` lists every state the listener was ever put in, oldest first, one entry
      for each `state_changed` event. */
  datatype Lifecycle = Lifecycle(
    state: ListenerState,
    generation: nat,
    terminal: ErrorCode,
    reason: StopReason,
    trace: seq<ListenerState>)

  datatype Move =
    | Stay
    | Launch
    | LaunchFails(ec: ErrorCode, viaStopping: bool)
    | BeginStop(cause: ErrorCode, why: StopReason)
    | FinishStop
    | StopAtOnce(cause: ErrorCode, why: StopReason)

  const Fresh := Lifecycle(Idle, 0, NoError, NoReason, [])

  predicate CleanReason(r: StopReason) { r.Requested? || r.Completed? }

  /** An error ends a generation exactly when nobody asked for it and it did not complete. */
  predicate ValidCause(ec: ErrorCode, r: StopReason) {
    !r.NoReason? && (ec == NoError <==> CleanReason(r))
  }

  predicate Enabled(l: Lifecycle, m: Move) {
    match m
    case Stay => true
    case Launch => l.state.Idle? || l.state.Stopped?
    case LaunchFails(ec, _) => (l.state.Idle? || l.state.Stopped?) && ec != NoError
    case BeginStop(ec, r) => l.state.Running? && ValidCause(ec, r)
    case FinishStop => l.state.Stopping?
    case StopAtOnce(ec, r) => (l.state.Idle? || l.state.Running?) && ValidCause(ec, r)
  }

  function Do(l: Lifecycle, m: Move): Lifecycle {
    match m
    case Stay => l
    case Launch =>
      Lifecycle(Running, l.generation + 1, NoError, NoReason, l.trace + [Starting] + [Running])
    case LaunchFails(ec, viaStopping) =>
      var entered := l.trace + [Starting];
      Lifecycle(Stopped, l.generation + 1, ec, StartupFailure,
                (if viaStopping then entered + [Stopping] else entered) + [Stopped])
    case BeginStop(ec, r) =>
      l.(state := Stopping, terminal := ec, reason := r, trace := l.trace + [Stopping])
    case FinishStop =>
      l.(state := Stopped, trace := l.trace + [Stopped])
    case StopAtOnce(ec, r) =>
      l.(state := Stopped, terminal := ec, reason := r, trace := l.trace + [Stopping] + [Stopped])
  }

  /** The transitions of the documented state machine. */
  predicate Edge(a: ListenerState, b: ListenerState) {
    match a
    case Idle => b.Starting? || b.Stopping?
    case Starting => b.Running? || b.Stopping? || b.Stopped?
    case Running => b.Stopping?
    case Stopping => b.Stopped?
    case Stopped => b.Starting?
  }

  function LastOf(t: seq<ListenerState>): ListenerState {
    if t == [] then Idle else t[|t| - 1]
  }

  predicate Legal(t: seq<ListenerState>) {
    t == [] || (Legal(t[..|t| - 1]) && Edge(LastOf(t[..|t| - 1]), t[|t| - 1]))
  }

  /** How often `t` enters `Starting`. */
  function Launches(t: seq<ListenerState>): nat {
    if t == [] then 0
    else Launches(t[..|t| - 1]) + if t[|t| - 1].Starting? then 1 else 0
  }

  predicate Inv(l: Lifecycle) {
    && Walk(l.trace, l.state, l.generation)
    && !l.state.Starting?
    && (l.state.Idle? || l.state.Running? ==> l.terminal == NoError && l.reason == NoReason)
    && (l.state.Stopping? || l.state.Stopped? ==> ValidCause(l.terminal, l.reason))
  }

  /** `t` is legal, ends in `s` and enters `Starting` `n` times. */
  predicate Walk(t: seq<ListenerState>, s: ListenerState, n: nat) {
    Legal(t) && LastOf(t) == s && Launches(t) == n
  }

  lemma {:induction false} Enter(t: seq<ListenerState>, s: ListenerState, n: nat, next: ListenerState)
    requires Walk(t, s, n) && Edge(s, next)
    ensures Walk(t + [next], next, if next.Starting? then n + 1 else n)
  {
    assert (t + [next])[..|t + [next]| - 1] == t;
  }

  lemma {:induction false} EnterTwice(t: seq<ListenerState>, s: ListenerState, n: nat,
                                      next: ListenerState, last: ListenerState)
    requires Walk(t, s, n) && Edge(s, next) && Edge(next, last) && !last.Starting?
    ensures Walk(t + [next] + [last], last, if next.Starting? then n + 1 else n)
  {
    Enter(t, s, n, next);
    Enter(t + [next], next, if next.Starting? then n + 1 else n, last);
  }

  lemma {:induction false} FailedLaunchWalks(l: Lifecycle, ec: ErrorCode, viaStopping: bool)
    requires Walk(l.trace, l.state, l.generation) && Enabled(l, LaunchFails(ec, viaStopping))
    ensures Walk(Do(l, LaunchFails(ec, viaStopping)).trace, Stopped, l.generation + 1)
  {
    if viaStopping {
      EnterTwice(l.trace, l.state, l.generation, Starting, Stopping);
      Enter(l.trace + [Starting] + [Stopping], Stopping, l.generation + 1, Stopped);
    } else {
      EnterTwice(l.trace, l.state, l.generation, Starting, Stopped);
    }
  }

  lemma {:induction false} MoveWalks(l: Lifecycle, m: Move)
    requires Walk(l.trace, l.state, l.generation) && Enabled(l, m)
    ensures Walk(Do(l, m).trace, Do(l, m).state, Do(l, m).generation)
  {
    match m
    case Stay =>
    case Launch => EnterTwice(l.trace, l.state, l.generation, Starting, Running);
    case LaunchFails(ec, viaStopping) => FailedLaunchWalks(l, ec, viaStopping);
    case BeginStop(_, _) => Enter(l.trace, l.state, l.generation, Stopping);
    case FinishStop => Enter(l.trace, l.state, l.generation, Stopped);
    case StopAtOnce(_, _) => EnterTwice(l.trace, l.state, l.generation, Stopping, Stopped);
  }

  /** Every move keeps the trace on the edges of the state machine, the generation equal
      to the number of entries into `Starting`, and the error zero exactly for clean stops. */
  lemma {:induction false} MoveKeepsInv(l: Lifecycle, m: Move)
    requires Inv(l) && Enabled(l, m)
    ensures Inv(Do(l, m))
  {
    MoveWalks(l, m);
  }

  /** A stop that has begun can no longer change its cause within its generation. */
  lemma MoveKeepsCause(l: Lifecycle, m: Move)
    requires Enabled(l, m) && (l.state.Stopping? || l.state.Stopped?)
    requires Do(l, m).generation == l.generation
    ensures Do(l, m).terminal == l.terminal && Do(l, m).reason == l.reason
    ensures Do(l, m).state.Stopping? || Do(l, m).state.Stopped?
  {}
}
