/** The lock-free server lifecycle: any number of threads inside `begin_start`,
    `finish_start`, `request_stop` and `finish_wait`, interleaved at every access to the
    shared atomics. */
module ServerControl {
  import T = Types

  datatype State = Idle | Starting | Running | Stopping | Stopped

  /** A change of state and the call that made it. */
  datatype Change = Change(state: State, author: nat)

  /** The atomics, with the order of the changes in `log` and the events emitted so far. */
  datatype Shared = Shared(state: State, generation: nat, log: seq<Change>, emitted: seq<Change>)

  datatype Op =
    | BeginStart
    | FinishStart(start: nat, ec: T.ErrorCode)  // `start`: the `BeginStart` call being finished
    | RequestStop
    | FinishWait(ec: T.ErrorCode)

  /** Where a call is, with its local variables. `...Test` is the head of a
      compare-and-exchange loop with the value last loaded. */
  datatype Pc =
    | BeginTest(current: State) | BeginBump | BeginEmit
    | StopTest(current: State, ec: T.ErrorCode) | StopEmit(ec: T.ErrorCode)
    | Publish | RunningEmit
    | Exchange(ec: T.ErrorCode) | StoppedEmit(ec: T.ErrorCode)
    | Done(accepted: bool, ec: T.ErrorCode)

  /** What a call was asked to do, how long the log was when it was made (`since`) and when it
      last loaded or changed the state (`at`). */
  datatype Origin = Origin(op: Op, since: nat, at: nat)

  datatype Control = Control(shared: Shared, calls: map<nat, Pc>, history: map<nat, Origin>)

  const Fresh := Control(Shared(Idle, 0, [], []), map[], map[])

  datatype Step = Call(id: nat, op: Op) | Advance(id: nat, spurious: bool)

  function Entry(s: Shared, op: Op): Pc {
    match op
    case BeginStart => BeginTest(s.state)
    case FinishStart(_, ec) => if ec != T.NoError then StopTest(s.state, ec) else Publish
    case RequestStop => StopTest(s.state, T.NoError)
    case FinishWait(ec) => Exchange(ec)
  }

  function Changed(s: Shared, state: State, author: nat): Shared {
    s.(state := state, log := s.log + [Change(state, author)])
  }

  function Emitted(s: Shared, state: State, author: nat): Shared {
    s.(emitted := s.emitted + [Change(state, author)])
  }

  /** One access of call `id` to the atomics. A weak compare-and-exchange may fail spuriously. */
  function Access(s: Shared, id: nat, pc: Pc, spurious: bool): (Shared, Pc) {
    match pc
    case BeginTest(current) =>
      if current.Starting? || current.Running? then (s, Done(true, T.NoError))
      else if current.Stopping? then (s, Done(false, T.NoError))
      else if s.state == current && !spurious then (Changed(s, Starting, id), BeginBump)
      else (s, BeginTest(s.state))
    case BeginBump => (s.(generation := s.generation + 1), BeginEmit)
    case BeginEmit => (Emitted(s, Starting, id), Done(true, T.NoError))
    case StopTest(current, ec) =>
      if current.Stopping? || current.Stopped? then (s, Done(true, ec))
      else if s.state == current && !spurious then (Changed(s, Stopping, id), StopEmit(ec))
      else (s, StopTest(s.state, ec))
    case StopEmit(ec) => (Emitted(s, Stopping, id), Done(true, ec))
    case Publish =>
      if s.state.Starting? then (Changed(s, Running, id), RunningEmit)
      else (s, Done(true, if s.state.Running? then T.NoError else T.OperationAborted))
    case RunningEmit => (Emitted(s, Running, id), Done(true, T.NoError))
    case Exchange(ec) =>
      if s.state.Stopped? then (s, Done(true, ec)) else (Changed(s, Stopped, id), StoppedEmit(ec))
    case StoppedEmit(ec) => (Emitted(s, Stopped, id), Done(true, ec))
    case Done(_, _) => (s, pc)
  }

  /** The access loads or changes the state, rather than going by what was loaded before. */
  predicate Touches(pc: Pc) {
    match pc
    case BeginTest(current) => current.Idle? || current.Stopped?
    case StopTest(current, _) => !current.Stopping? && !current.Stopped?
    case Publish => true
    case Exchange(_) => true
    case _ => false
  }

  /** A `BeginStart` that was accepted. */
  predicate Accepted(c: Control, start: nat) {
    && start in c.calls && c.calls[start].Done? && c.calls[start].accepted
    && start in c.history && c.history[start].op.BeginStart?
  }

  /** Only a start that was accepted is ever finished. */
  predicate Enabled(c: Control, step: Step) {
    match step
    case Call(id, op) => id !in c.calls && (op.FinishStart? ==> Accepted(c, op.start))
    case Advance(id, _) => id in c.calls && id in c.history
  }

  function Apply(c: Control, step: Step): Control
    requires Enabled(c, step)
  {
    match step
    case Call(id, op) =>
      c.(calls := c.calls[id := Entry(c.shared, op)],
         history := c.history[id := Origin(op, |c.shared.log|, |c.shared.log|)])
    case Advance(id, spurious) =>
      var (shared, pc) := Access(c.shared, id, c.calls[id], spurious);
      Control(shared, c.calls[id := pc],
              if Touches(c.calls[id]) then c.history[id := c.history[id].(at := |shared.log|)] else c.history)
  }

  // ----- the state machine -----

  predicate Edge(a: State, b: State) {
    match a
    case Idle => b.Starting? || b.Stopping? || b.Stopped?
    case Starting => b.Running? || b.Stopping? || b.Stopped?
    case Running => b.Stopping? || b.Stopped?
    case Stopping => b.Stopped?
    case Stopped => b.Starting?
  }

  function LastOf(log: seq<Change>): State { if log == [] then Idle else log[|log| - 1].state }

  predicate Legal(log: seq<Change>) {
    log == [] || (Legal(log[..|log| - 1]) && Edge(LastOf(log[..|log| - 1]), log[|log| - 1].state))
  }

  function Launches(log: seq<Change>): nat {
    if log == [] then 0 else Launches(log[..|log| - 1]) + if log[|log| - 1].state.Starting? then 1 else 0
  }

  lemma {:induction false} Append(log: seq<Change>, c: Change)
    requires Legal(log) && Edge(LastOf(log), c.state)
    ensures Legal(log + [c]) && LastOf(log + [c]) == c.state
    ensures Launches(log + [c]) == Launches(log) + if c.state.Starting? then 1 else 0
  {
    assert (log + [c])[..|log + [c]| - 1] == log;
  }

  // ----- the invariant -----

  /** The call has changed the state and still owes the event. */
  predicate Owes(pc: Pc) { pc.BeginBump? || pc.BeginEmit? || pc.StopEmit? || pc.RunningEmit? || pc.StoppedEmit? }

  function EventOf(pc: Pc): State
    requires Owes(pc)
  {
    if pc.StopEmit? then Stopping else if pc.RunningEmit? then Running
    else if pc.StoppedEmit? then Stopped else Starting
  }

  function Authors(changes: seq<Change>): set<nat> { set e | e in changes :: e.author }

  predicate OncePerCall(changes: seq<Change>) {
    forall i, j :: 0 <= i < j < |changes| ==> changes[i].author != changes[j].author
  }

  /** What is in the log and in the events about one call. */
  predicate Recorded(s: Shared, id: nat, pc: Pc) {
    if Owes(pc) then Change(EventOf(pc), id) in s.log && id !in Authors(s.emitted)
    else if pc.Done? then id in Authors(s.log) <==> id in Authors(s.emitted)
    else id !in Authors(s.log) && id !in Authors(s.emitted)
  }

  function Bumping(calls: map<nat, Pc>): set<nat> { set id | id in calls && calls[id].BeginBump? }

  predicate Inv(c: Control) {
    && Legal(c.shared.log)
    && LastOf(c.shared.log) == c.shared.state
    && c.shared.generation + |Bumping(c.calls)| == Launches(c.shared.log)
    && OncePerCall(c.shared.log) && OncePerCall(c.shared.emitted)
    && (forall e <- c.shared.log :: e.author in c.calls)
    && (forall e <- c.shared.emitted :: e in c.shared.log)
    && (forall id <- c.calls :: Recorded(c.shared, id, c.calls[id]))
  }

  lemma AuthorsAppend(changes: seq<Change>, c: Change)
    ensures Authors(changes + [c]) == Authors(changes) + {c.author}
    ensures c.author !in Authors(changes) && OncePerCall(changes) ==> OncePerCall(changes + [c])
  {
    var more := changes + [c];
    forall a | a in Authors(changes) + {c.author} ensures a in Authors(more) {
      if a in Authors(changes) {
        var e :| e in changes && e.author == a;
        assert e in more;
      } else {
        assert c in more;
      }
    }
    assert forall i :: 0 <= i < |changes| ==> changes[i] in changes;
  }

  lemma NoNewBump(calls: map<nat, Pc>, id: nat, pc: Pc)
    requires !pc.BeginBump? && (id in calls ==> !calls[id].BeginBump?)
    ensures Bumping(calls[id := pc]) == Bumping(calls)
  {}

  lemma QuietKeepsInv(c: Control, id: nat, pc: Pc)
    requires Inv(c) && (id in c.calls ==> !Owes(c.calls[id])) && !Owes(pc)
    requires id in Authors(c.shared.log) <==> id in Authors(c.shared.emitted)
    requires !pc.Done? ==> id !in Authors(c.shared.log)
    ensures Inv(c.(calls := c.calls[id := pc]))
  {
    NoNewBump(c.calls, id, pc);
  }

  /** The log and the counter after a change. */
  lemma ChangeCounts(c: Control, id: nat, pc: Pc)
    requires Inv(c) && id in c.calls && !Owes(c.calls[id])
    requires Owes(pc) && !pc.BeginEmit? && Edge(c.shared.state, EventOf(pc))
    ensures var log := c.shared.log + [Change(EventOf(pc), id)];
            && Legal(log) && LastOf(log) == EventOf(pc)
            && c.shared.generation + |Bumping(c.calls[id := pc])| == Launches(log)
  {
    Append(c.shared.log, Change(EventOf(pc), id));
    if pc.BeginBump? {
      assert Bumping(c.calls[id := pc]) == Bumping(c.calls) + {id};
    } else {
      NoNewBump(c.calls, id, pc);
    }
  }

  /** The record of every call after a change. */
  lemma ChangeRecords(c: Control, id: nat, pc: Pc, other: nat)
    requires Inv(c) && id in c.calls && !Owes(c.calls[id]) && !c.calls[id].Done? && other in c.calls
    requires Owes(pc) && !pc.BeginEmit?
    ensures Recorded(Changed(c.shared, EventOf(pc), id), other, c.calls[id := pc][other])
  {
    var change := Change(EventOf(pc), id);
    assert Recorded(c.shared, id, c.calls[id]) && Recorded(c.shared, other, c.calls[other]);
    AuthorsAppend(c.shared.log, change);
    assert change in c.shared.log + [change];
  }

  lemma ChangeKeepsInv(c: Control, id: nat, pc: Pc)
    requires Inv(c) && id in c.calls && !Owes(c.calls[id]) && !c.calls[id].Done?
    requires Owes(pc) && !pc.BeginEmit? && Edge(c.shared.state, EventOf(pc))
    ensures Inv(c.(shared := Changed(c.shared, EventOf(pc), id), calls := c.calls[id := pc]))
  {
    ChangeCounts(c, id, pc);
    assert Recorded(c.shared, id, c.calls[id]);
    AuthorsAppend(c.shared.log, Change(EventOf(pc), id));
    var calls := c.calls[id := pc];
    forall other | other in calls ensures Recorded(Changed(c.shared, EventOf(pc), id), other, calls[other]) {
      ChangeRecords(c, id, pc, other);
    }
  }

  lemma BumpKeepsInv(c: Control, id: nat)
    requires Inv(c) && id in c.calls && c.calls[id].BeginBump?
    ensures Inv(c.(shared := c.shared.(generation := c.shared.generation + 1), calls := c.calls[id := BeginEmit]))
  {
    var calls := c.calls[id := BeginEmit];
    assert Bumping(calls) == Bumping(c.calls) - {id};
  }

  lemma EmitKeepsInv(c: Control, id: nat, pc: Pc)
    requires Inv(c) && id in c.calls && Owes(c.calls[id]) && !c.calls[id].BeginBump? && pc.Done?
    ensures Inv(c.(shared := Emitted(c.shared, EventOf(c.calls[id]), id), calls := c.calls[id := pc]))
  {
    var change := Change(EventOf(c.calls[id]), id);
    AuthorsAppend(c.shared.emitted, change);
    NoNewBump(c.calls, id, pc);
    assert id in Authors(c.shared.log);
  }

  /** An access changes the state and goes on to owe an event, pays an owed event, bumps the
      generation, or leaves the shared part alone. */
  lemma AccessShape(s: Shared, id: nat, pc: Pc, spurious: bool)
    ensures var (shared, next) := Access(s, id, pc, spurious);
            if pc.BeginBump? then shared == s.(generation := s.generation + 1) && next == BeginEmit
            else if Owes(pc) then shared == Emitted(s, EventOf(pc), id) && next.Done?
            else if Owes(next) then
              shared == Changed(s, EventOf(next), id) && !next.BeginEmit? && !pc.Done? && Edge(s.state, EventOf(next))
            else shared == s && (pc.Done? ==> next.Done?)
  {}

  lemma {:induction false} AccessKeepsInv(c: Control, id: nat, spurious: bool)
    requires Inv(c) && Enabled(c, Advance(id, spurious))
    ensures Inv(Apply(c, Advance(id, spurious)))
  {
    AccessShape(c.shared, id, c.calls[id], spurious);
    var (shared, next) := Access(c.shared, id, c.calls[id], spurious);
    ShapedKeepsInv(c, id, shared, next);
  }

  lemma ShapedKeepsInv(c: Control, id: nat, shared: Shared, next: Pc)
    requires Inv(c) && id in c.calls
    requires var pc := c.calls[id];
             if pc.BeginBump? then shared == c.shared.(generation := c.shared.generation + 1) && next == BeginEmit
             else if Owes(pc) then shared == Emitted(c.shared, EventOf(pc), id) && next.Done?
             else if Owes(next) then
               && shared == Changed(c.shared, EventOf(next), id)
               && !next.BeginEmit? && !pc.Done? && Edge(c.shared.state, EventOf(next))
             else shared == c.shared && (pc.Done? ==> next.Done?)
    ensures Inv(c.(shared := shared, calls := c.calls[id := next]))
  {
    var pc := c.calls[id];
    assert Recorded(c.shared, id, pc);
    if pc.BeginBump? {
      BumpKeepsInv(c, id);
    } else if Owes(pc) {
      EmitKeepsInv(c, id, next);
    } else if Owes(next) {
      ChangeKeepsInv(c, id, next);
    } else {
      QuietKeepsInv(c, id, next);
    }
  }

  lemma {:induction false} CallKeepsInv(c: Control, id: nat, op: Op)
    requires Inv(c) && Enabled(c, Call(id, op))
    ensures Inv(Apply(c, Call(id, op)))
  {
    QuietKeepsInv(c, id, Entry(c.shared, op));
    assert Apply(c, Call(id, op)).calls == c.calls[id := Entry(c.shared, op)];
  }

  // ----- what calls report -----

  /** The state after the first `n` changes. */
  function StateAt(log: seq<Change>, n: nat): State
    requires n <= |log|
  {
    LastOf(log[..n])
  }

  /** What a call knows at each point, given that `st` is the state it last loaded or made.
      For a call that is done this says what its result means: a start is accepted exactly from
      starting or running and turned away exactly from stopping; a finished start succeeds
      exactly from running and is aborted exactly from idle, stopping or stopped; a stop saw
      stopping or stopped, a wait stopped; and errors handed in are handed back. */
  predicate Explained(op: Op, st: State, pc: Pc) {
    match op
    case BeginStart =>
      (match pc
       case BeginTest(current) => current == st
       case BeginBump => st.Starting?
       case BeginEmit => st.Starting?
       case Done(accepted, ec) =>
         ec == T.NoError && if accepted then st.Starting? || st.Running? else st.Stopping?
       case _ => false)
    case FinishStart(_, ec) => if ec != T.NoError then ExplainedStop(ec, st, pc) else ExplainedPublish(st, pc)
    case RequestStop => ExplainedStop(T.NoError, st, pc)
    case FinishWait(ec) =>
      (match pc
       case Exchange(e) => e == ec
       case StoppedEmit(e) => e == ec && st.Stopped?
       case Done(_, e) => e == ec && st.Stopped?
       case _ => false)
  }

  predicate ExplainedStop(ec: T.ErrorCode, st: State, pc: Pc) {
    match pc
    case StopTest(current, e) => e == ec && current == st
    case StopEmit(e) => e == ec && st.Stopping?
    case Done(_, e) => e == ec && (st.Stopping? || st.Stopped?)
    case _ => false
  }

  predicate ExplainedPublish(st: State, pc: Pc) {
    match pc
    case Publish => true
    case RunningEmit => st.Running?
    case Done(_, e) => !st.Starting? && e == if st.Running? then T.NoError else T.OperationAborted
    case _ => false
  }

  /** Call `id` is explained by a state the server was in since the call was made, and the
      start it finishes, if it does, was accepted before. */
  predicate CallExplained(c: Control, id: nat)
    requires id in c.calls && id in c.history
  {
    var h := c.history[id];
    && h.since <= h.at <= |c.shared.log|
    && Explained(h.op, StateAt(c.shared.log, h.at), c.calls[id])
    && (h.op.FinishStart? ==> Accepted(c, h.op.start) && c.history[h.op.start].at <= h.since)
  }

  predicate AllExplained(c: Control) {
    && c.calls.Keys == c.history.Keys
    && c.shared.state == LastOf(c.shared.log)
    && forall id <- c.calls :: CallExplained(c, id)
  }

  lemma AccessExplains(s: Shared, id: nat, op: Op, st: State, pc: Pc, spurious: bool)
    requires Explained(op, st, pc)
    ensures var (shared, next) := Access(s, id, pc, spurious);
            Explained(op, if Touches(pc) then shared.state else st, next)
  {}

  /** An access appends to the log at most the state it moves to. */
  lemma AccessLogs(s: Shared, id: nat, pc: Pc, spurious: bool)
    requires s.state == LastOf(s.log)
    ensures var shared := Access(s, id, pc, spurious).0;
            && s.log <= shared.log && shared.state == LastOf(shared.log)
            && StateAt(shared.log, |shared.log|) == shared.state
            && forall n: nat :: n <= |s.log| ==> StateAt(shared.log, n) == StateAt(s.log, n)
  {
    var log := Access(s, id, pc, spurious).0.log;
    assert log[..|log|] == log;
    forall n: nat | n <= |s.log| ensures log[..n] == s.log[..n] {}
  }

  /** The call itself. */
  lemma MoverExplained(c: Control, id: nat, spurious: bool)
    requires AllExplained(c) && Enabled(c, Advance(id, spurious))
    ensures CallExplained(Apply(c, Advance(id, spurious)), id)
  {
    var h := c.history[id];
    assert CallExplained(c, id);
    AccessLogs(c.shared, id, c.calls[id], spurious);
    AccessExplains(c.shared, id, h.op, StateAt(c.shared.log, h.at), c.calls[id], spurious);
  }

  /** Any other call. */
  lemma OtherExplained(c: Control, id: nat, spurious: bool, other: nat)
    requires AllExplained(c) && Enabled(c, Advance(id, spurious)) && other in c.calls && other != id
    ensures CallExplained(Apply(c, Advance(id, spurious)), other)
  {
    assert CallExplained(c, other);
    AccessLogs(c.shared, id, c.calls[id], spurious);
  }

  lemma StepKeepsExplained(c: Control, step: Step)
    requires AllExplained(c) && Enabled(c, step)
    ensures AllExplained(Apply(c, step))
  {
    var d := Apply(c, step);
    match step
    case Call(id, op) =>
      assert c.shared.log[..|c.shared.log|] == c.shared.log;
      forall other | other in d.calls ensures CallExplained(d, other) {
        if other != id {
          assert CallExplained(c, other);
        } else if op.FinishStart? {
          assert CallExplained(c, op.start);
        }
      }
    case Advance(id, spurious) =>
      AccessLogs(c.shared, id, c.calls[id], spurious);
      forall other | other in d.calls ensures CallExplained(d, other) {
        if other == id { MoverExplained(c, id, spurious); } else { OtherExplained(c, id, spurious, other); }
      }
  }

  // ----- every state of every run -----

  ghost predicate IsRun(run: seq<Control>) {
    && |run| > 0
    && run[0] == Fresh
    && forall k {:trigger run[k]} :: 0 < k < |run| ==> Next(run[k - 1], run[k])
  }

  ghost predicate Next(c: Control, d: Control) { exists step :: Enabled(c, step) && d == Apply(c, step) }

  lemma StepKeepsInv(c: Control, step: Step)
    requires Inv(c) && AllExplained(c) && Enabled(c, step)
    ensures Inv(Apply(c, step)) && AllExplained(Apply(c, step))
  {
    StepKeepsExplained(c, step);
    match step
    case Call(id, op) => CallKeepsInv(c, id, op);
    case Advance(id, spurious) => AccessKeepsInv(c, id, spurious);
  }

  /** Call `id`, if it was done, is as it was. */
  ghost predicate KeepsCall(c: Control, d: Control, id: nat) {
    id in c.calls && c.calls[id].Done? && id in c.history ==>
      id in d.calls && d.calls[id] == c.calls[id] && id in d.history && d.history[id] == c.history[id]
  }

  lemma StepKeepsLog(c: Control, step: Step)
    requires AllExplained(c) && Enabled(c, step)
    ensures c.shared.log <= Apply(c, step).shared.log
  {
    if step.Advance? { AccessLogs(c.shared, step.id, c.calls[step.id], step.spurious); }
  }

  lemma StepKeepsCall(c: Control, step: Step, id: nat)
    requires Enabled(c, step)
    ensures KeepsCall(c, Apply(c, step), id)
  {}

  lemma NextKeepsInv(c: Control, d: Control)
    requires Inv(c) && AllExplained(c) && Next(c, d)
    ensures Inv(d) && AllExplained(d)
  {
    var step :| Enabled(c, step) && d == Apply(c, step);
    StepKeepsInv(c, step);
  }

  lemma {:induction false} RunKeepsInv(run: seq<Control>, k: nat)
    requires IsRun(run) && k < |run|
    ensures Inv(run[k]) && AllExplained(run[k])
  {
    if k > 0 {
      RunKeepsInv(run, k - 1);
      NextKeepsInv(run[k - 1], run[k]);
    }
  }

  // ----- the trace language -----

  function States(log: seq<Change>): seq<State> {
    if log == [] then [] else States(log[..|log| - 1]) + [log[|log| - 1].state]
  }

  /** `stopping? stopped`, or a prefix of it. */
  predicate Prologue(w: seq<State>) {
    w == [] || w == [Stopping] || w == [Stopped] || w == [Stopping, Stopped]
  }

  /** `starting running? stopping? stopped`, or a non-empty prefix of it. */
  predicate Generation(w: seq<State>) {
    || w == [Starting] || w == [Starting, Running] || w == [Starting, Stopping] || w == [Starting, Stopped]
    || w == [Starting, Running, Stopping] || w == [Starting, Running, Stopped]
    || w == [Starting, Stopping, Stopped] || w == [Starting, Running, Stopping, Stopped]
  }

  function End(w: seq<State>): State { if w == [] then Idle else w[|w| - 1] }

  function Concat(ws: seq<seq<State>>): seq<State> {
    if ws == [] then [] else Concat(ws[..|ws| - 1]) + ws[|ws| - 1]
  }

  /** `w` is a prefix of `(stopping? stopped)? (starting running? stopping? stopped)*`, cut
      into its prologue and its generations: only the last piece may be incomplete. */
  predicate Parsed(w: seq<State>, head: seq<State>, gens: seq<seq<State>>) {
    w == head + Concat(gens) && Cut(head, gens)
  }

  predicate Cut(head: seq<State>, gens: seq<seq<State>>) {
    && Prologue(head)
    && (gens != [] && head != [] ==> End(head).Stopped?)
    && (forall i :: 0 <= i < |gens| ==> Generation(gens[i]))
    && (forall i :: 0 <= i < |gens| - 1 ==> End(gens[i]).Stopped?)
  }

  /** The state a parsed word leaves the server in. */
  function Current(head: seq<State>, gens: seq<seq<State>>): State {
    if gens == [] then End(head) else End(gens[|gens| - 1])
  }

  lemma PieceGrows(w: seq<State>, s: State)
    requires Edge(End(w), s) && !s.Starting?
    ensures Generation(w) ==> Generation(w + [s])
    ensures Prologue(w) ==> Prologue(w + [s])
  {}

  lemma GrownLastIsCut(head: seq<State>, gens: seq<seq<State>>, last: seq<State>)
    requires Cut(head, gens) && gens != [] && Generation(last)
    ensures Cut(head, gens[|gens| - 1 := last])
  {}

  lemma GrowLast(w: seq<State>, head: seq<State>, gens: seq<seq<State>>, s: State) returns (more: seq<seq<State>>)
    requires Parsed(w, head, gens) && gens != [] && Edge(Current(head, gens), s) && !s.Starting?
    ensures Parsed(w + [s], head, more) && Current(head, more) == s && |more| == |gens|
  {
    var last := gens[|gens| - 1] + [s];
    more := gens[|gens| - 1 := last];
    assert Generation(last) by { PieceGrows(gens[|gens| - 1], s); }
    GrownLastIsCut(head, gens, last);
    GrownConcat(gens, s);
  }

  lemma GrownConcat(gens: seq<seq<State>>, s: State)
    requires gens != []
    ensures Concat(gens[|gens| - 1 := gens[|gens| - 1] + [s]]) == Concat(gens) + [s]
  {
    var more := gens[|gens| - 1 := gens[|gens| - 1] + [s]];
    assert more[..|more| - 1] == gens[..|gens| - 1];
  }

  lemma ConcatAppend(ws: seq<seq<State>>, w: seq<State>)
    ensures Concat(ws + [w]) == Concat(ws) + w
  {
    assert (ws + [w])[..|ws + [w]| - 1] == ws;
  }

  lemma AddGeneration(w: seq<State>, head: seq<State>, gens: seq<seq<State>>) returns (more: seq<seq<State>>)
    requires Parsed(w, head, gens) && Edge(Current(head, gens), Starting)
    ensures Parsed(w + [Starting], head, more) && Current(head, more) == Starting && |more| == |gens| + 1
  {
    more := gens + [[Starting]];
    ConcatAppend(gens, [Starting]);
  }

  lemma ParseOn(w: seq<State>, head: seq<State>, gens: seq<seq<State>>, s: State)
    returns (head': seq<State>, gens': seq<seq<State>>)
    requires Parsed(w, head, gens) && Edge(Current(head, gens), s)
    ensures Parsed(w + [s], head', gens') && Current(head', gens') == s
    ensures |gens'| == |gens| + if s.Starting? then 1 else 0
  {
    if s.Starting? {
      head' := head;
      gens' := AddGeneration(w, head, gens);
    } else if gens == [] {
      PieceGrows(head, s);
      head', gens' := head + [s], [];
    } else {
      head' := head;
      gens' := GrowLast(w, head, gens, s);
    }
  }

  lemma {:induction false} Parse(log: seq<Change>) returns (head: seq<State>, gens: seq<seq<State>>)
    requires Legal(log)
    ensures Parsed(States(log), head, gens) && Current(head, gens) == LastOf(log)
    ensures |gens| == Launches(log)
  {
    if log == [] {
      head, gens := [], [];
    } else {
      var init := log[..|log| - 1];
      head, gens := Parse(init);
      head, gens := ParseOn(States(init), head, gens, log[|log| - 1].state);
    }
  }

  /** However the calls interleave, the log of state changes is a prefix of
      (stopping? stopped)? (starting running? stopping? stopped)*, ends in the current state,
      and has as many generations as the counter says once pending increments have landed. */
  lemma TraceIsInLanguage(run: seq<Control>, k: nat) returns (head: seq<State>, gens: seq<seq<State>>)
    requires IsRun(run) && k < |run|
    ensures Parsed(States(run[k].shared.log), head, gens)
    ensures Current(head, gens) == run[k].shared.state
    ensures |gens| == run[k].shared.generation + |Bumping(run[k].calls)|
  {
    RunKeepsInv(run, k);
    head, gens := Parse(run[k].shared.log);
  }

  /** Every change of state is reported exactly once: no call reports twice, only changes
      are reported, and a change not reported yet is owed by the call that made it. */
  lemma ChangesAreReportedOnce(run: seq<Control>, k: nat)
    requires IsRun(run) && k < |run|
    ensures OncePerCall(run[k].shared.log) && OncePerCall(run[k].shared.emitted)
    ensures forall e <- run[k].shared.emitted :: e in run[k].shared.log
    ensures forall e <- run[k].shared.log ::
              e.author in run[k].calls && (e.author in Authors(run[k].shared.emitted) || Owes(run[k].calls[e.author]))
  {
    RunKeepsInv(run, k);
    var c := run[k];
    forall e | e in c.shared.log
      ensures e.author in c.calls && (e.author in Authors(c.shared.emitted) || Owes(c.calls[e.author]))
    {
      assert Recorded(c.shared, e.author, c.calls[e.author]);
      assert e.author in Authors(c.shared.log);
    }
  }

  /** Every result is that of an instant within the call: there is a state the server was in
      between the call and its return that determines the result. */
  lemma ResultsAreExplained(run: seq<Control>, k: nat, id: nat) returns (st: State, at: nat)
    requires IsRun(run) && k < |run| && id in run[k].calls && run[k].calls[id].Done?
    ensures id in run[k].history && run[k].history[id].since <= at <= |run[k].shared.log|
    ensures st == StateAt(run[k].shared.log, at)
    ensures var done := run[k].calls[id];
            match run[k].history[id].op
            case BeginStart =>
              (done.accepted <==> st.Starting? || st.Running?) && (!done.accepted <==> st.Stopping?)
            case FinishStart(_, ec) =>
              if ec != T.NoError then done.ec == ec && (st.Stopping? || st.Stopped?)
              else
                && (done.ec == T.NoError <==> st.Running?)
                && (done.ec == T.OperationAborted <==> st.Idle? || st.Stopping? || st.Stopped?)
            case RequestStop => st.Stopping? || st.Stopped?
            case FinishWait(ec) => done.ec == ec && st.Stopped?
  {
    RunKeepsInv(run, k);
    assert CallExplained(run[k], id);
    at := run[k].history[id].at;
    st := StateAt(run[k].shared.log, at);
  }

  // ----- a start that finishes late -----

  /** The generation that an accepted start made or joined. */
  function GenerationOf(c: Control, start: nat): nat
    requires start in c.history && c.history[start].at <= |c.shared.log|
  {
    Launches(c.shared.log[..c.history[start].at])
  }

  lemma {:induction false} LegalPrefix(log: seq<Change>, n: nat)
    requires Legal(log) && n <= |log|
    ensures Legal(log[..n]) && Launches(log[..n]) <= Launches(log)
  {
    if n < |log| {
      LegalPrefix(log[..|log| - 1], n);
      assert log[..|log| - 1][..n] == log[..n];
    } else {
      assert log[..n] == log;
    }
  }

  /** A log that was starting or running after `at` changes and is starting now has not changed
      since, or has been stopped and launched again. */
  lemma StartingAgain(log: seq<Change>, at: nat)
    requires Legal(log) && at <= |log| && LastOf(log).Starting?
    requires StateAt(log, at).Starting? || StateAt(log, at).Running?
    ensures at == |log| ==> Launches(log[..at]) == Launches(log)
    ensures at < |log| ==> Launches(log[..at]) < Launches(log)
    ensures at < |log| ==> at + 1 < |log| && log[|log| - 2].state.Stopped?
  {
    if at == |log| {
      assert log[..at] == log;
    } else {
      var init := log[..|log| - 1];
      LegalPrefix(init, at);
      assert init[..at] == log[..at];
      LegalPrefix(init, |init| - 1);
    }
  }

  /** A finished start that publishes `Running` does so for the generation of its own start if
      and only if the server has not been stopped since that start. */
  lemma PublishesOwnGenerationIff(run: seq<Control>, k: nat, id: nat, spurious: bool)
    requires IsRun(run) && k < |run| && id in run[k].calls && run[k].calls[id].Publish?
    requires run[k].shared.state.Starting?
    ensures Enabled(run[k], Advance(id, spurious))
    ensures run[k].history[id].op.FinishStart?
    ensures var c, start := run[k], run[k].history[id].op.start;
            && Accepted(c, start) && c.history[start].at <= |c.shared.log|
            && Apply(c, Advance(id, spurious)).shared.log == c.shared.log + [Change(Running, id)]
            && GenerationOf(c, start) <= Launches(c.shared.log)
            && (GenerationOf(c, start) == Launches(c.shared.log) <==>
                  forall e <- c.shared.log[c.history[start].at..] :: !e.state.Stopped?)
  {
    RunKeepsInv(run, k);
    var c := run[k];
    assert CallExplained(c, id);
    var start := c.history[id].op.start;
    assert CallExplained(c, start);
    var at := c.history[start].at;
    StartingAgain(c.shared.log, at);
    if at < |c.shared.log| {
      var window := c.shared.log[at..];
      assert window[|window| - 2] in window;
    }
  }

  lemma RunOn(run: seq<Control>, step: Step) returns (more: seq<Control>, d: Control)
    requires IsRun(run) && Enabled(run[|run| - 1], step)
    ensures IsRun(more) && d == more[|more| - 1] == Apply(run[|run| - 1], step)
  {
    d := Apply(run[|run| - 1], step);
    assert Next(run[|run| - 1], d);
    more := run + [d];
  }

  /** One whole call, undisturbed. */
  lemma WholeCall(run: seq<Control>, id: nat, op: Op, accesses: nat) returns (more: seq<Control>, d: Control)
    requires IsRun(run) && Enabled(run[|run| - 1], Call(id, op))
    ensures IsRun(more) && d == more[|more| - 1] == Advanced(Apply(run[|run| - 1], Call(id, op)), id, accesses)
  {
    more, d := RunOn(run, Call(id, op));
    ghost var called := d;
    var n := 0;
    while n < accesses
      invariant n <= accesses && IsRun(more) && d == more[|more| - 1] == Advanced(called, id, n)
    {
      more, d := RunOn(more, Advance(id, false));
      n := n + 1;
    }
  }

  function Advanced(c: Control, id: nat, n: nat): (d: Control)
    requires Enabled(c, Advance(id, false))
    ensures Enabled(d, Advance(id, false))
  {
    if n == 0 then c else Apply(Advanced(c, id, n - 1), Advance(id, false))
  }

  lemma StartEffect(c: Control, id: nat)
    requires Enabled(c, Call(id, BeginStart)) && (c.shared.state.Idle? || c.shared.state.Stopped?)
    ensures var d := Advanced(Apply(c, Call(id, BeginStart)), id, 3);
            && d.shared == c.shared.(state := Starting, generation := c.shared.generation + 1,
                                     log := c.shared.log + [Change(Starting, id)],
                                     emitted := c.shared.emitted + [Change(Starting, id)])
            && d.calls == c.calls[id := Done(true, T.NoError)]
            && d.history == c.history[id := Origin(BeginStart, |c.shared.log|, |c.shared.log| + 1)]
  {
    var called := Apply(c, Call(id, BeginStart));
    var won := Apply(called, Advance(id, false));
    var counted := Apply(won, Advance(id, false));
    assert won.calls[id] == BeginBump && counted.calls[id] == BeginEmit;
    assert Advanced(called, id, 0) == called;
    assert Advanced(called, id, 1) == won;
    assert Advanced(called, id, 2) == counted;
  }

  lemma StopEffect(c: Control, id: nat)
    requires Enabled(c, Call(id, RequestStop)) && id !in c.history && c.shared.state.Starting?
    ensures var d := Advanced(Apply(c, Call(id, RequestStop)), id, 1);
            && d.shared == c.shared.(state := Stopping, log := c.shared.log + [Change(Stopping, id)])
            && d.calls == c.calls[id := StopEmit(T.NoError)] && d.history.Keys == c.history.Keys + {id}
            && forall other <- c.history :: d.history[other] == c.history[other]
  {}

  /** An undisturbed stop request returns after at most two accesses, with the server stopping
      or stopped. */
  lemma StopReturns(c: Control, id: nat) returns (n: nat, d: Control)
    requires Enabled(c, Call(id, RequestStop))
    ensures d == Advanced(Apply(c, Call(id, RequestStop)), id, n)
    ensures d.shared.state.Stopping? || d.shared.state.Stopped?
    ensures id in d.calls && d.calls[id] == Done(true, T.NoError)
    ensures id in d.history && d.history[id].op == RequestStop && d.history[id].at == |d.shared.log|
  {
    var called := Apply(c, Call(id, RequestStop));
    var next := Apply(called, Advance(id, false));
    assert Advanced(called, id, 0) == called;
    assert Advanced(called, id, 1) == next;
    if c.shared.state.Stopping? || c.shared.state.Stopped? {
      n, d := 1, next;
    } else {
      assert next.calls[id] == StopEmit(T.NoError);
      n, d := 2, Apply(next, Advance(id, false));
    }
  }

  lemma WaitEffect(c: Control, id: nat)
    requires Enabled(c, Call(id, FinishWait(T.NoError))) && id !in c.history && c.shared.state.Stopping?
    ensures var d := Advanced(Apply(c, Call(id, FinishWait(T.NoError))), id, 1);
            && d.shared == c.shared.(state := Stopped, log := c.shared.log + [Change(Stopped, id)])
            && d.calls == c.calls[id := StoppedEmit(T.NoError)] && d.history.Keys == c.history.Keys + {id}
            && forall other <- c.history :: d.history[other] == c.history[other]
  {}

  lemma PublishEffect(c: Control, id: nat, start: nat)
    requires Enabled(c, Call(id, FinishStart(start, T.NoError))) && c.shared.state.Starting?
    ensures var d := Advanced(Apply(c, Call(id, FinishStart(start, T.NoError))), id, 1);
            d.shared.state.Running? && d.shared.generation == c.shared.generation
  {}

  /** Call 1 made the first generation, and calls up to `last` have been made. */
  predicate FirstStarted(c: Control, last: nat) {
    && Accepted(c, 1) && c.history[1].at == 1 <= |c.shared.log| && c.shared.log[0] == Change(Starting, 1)
    && (forall id <- c.calls :: id <= last) && (forall id <- c.history :: id <= last)
  }

  lemma StartsOnce() returns (run: seq<Control>, c: Control)
    ensures IsRun(run) && c == run[|run| - 1] && c.shared.state.Starting? && c.shared.generation == 1
    ensures FirstStarted(c, 1)
  {
    run, c := WholeCall([Fresh], 1, BeginStart, 3);
    StartEffect(Fresh, 1);
  }

  lemma StartsThenStops() returns (run: seq<Control>, c: Control)
    ensures IsRun(run) && c == run[|run| - 1] && c.shared.state.Stopping? && c.shared.generation == 1
    ensures FirstStarted(c, 2)
  {
    run, c := StartsOnce();
    StopEffect(c, 2);
    run, c := WholeCall(run, 2, RequestStop, 1);
  }

  lemma StartsThenEnds() returns (run: seq<Control>, c: Control)
    ensures IsRun(run) && c == run[|run| - 1] && c.shared.state.Stopped? && c.shared.generation == 1
    ensures FirstStarted(c, 3)
  {
    run, c := StartsThenStops();
    WaitEffect(c, 3);
    run, c := WholeCall(run, 3, FinishWait(T.NoError), 1);
  }

  lemma StartsTwice() returns (run: seq<Control>, c: Control)
    ensures IsRun(run) && c == run[|run| - 1] && c.shared.state.Starting? && c.shared.generation == 2
    ensures FirstStarted(c, 4)
  {
    run, c := StartsThenEnds();
    StartEffect(c, 4);
    run, c := WholeCall(run, 4, BeginStart, 3);
  }

  /** It does happen that the server has been stopped since: start, stop, the end of a wait,
      start again; then the first start finishes and publishes the second generation. */
  lemma LateFinishPublishesNextGeneration() returns (run: seq<Control>, c: Control)
    ensures IsRun(run) && c == run[|run| - 1]
    ensures Accepted(c, 1) && c.history[1].at <= |c.shared.log|
    ensures GenerationOf(c, 1) == 1 && c.shared.generation == 2
    ensures Enabled(c, Call(5, FinishStart(1, T.NoError)))
    ensures var d := Advanced(Apply(c, Call(5, FinishStart(1, T.NoError))), 5, 1);
            d.shared.state.Running? && d.shared.generation == 2
  {
    run, c := StartsTwice();
    PublishEffect(c, 5, 1);
    assert c.shared.log[..1] == [Change(Starting, 1)];
    assert [Change(Starting, 1)][..0] == [];
  }
}

/** The server lifecycle as the object it is: one method for each kind of access, and
    `Advance`, which takes a call from any point to the next. */
module ServerControlObject {
  import T = Types
  import opened M = ServerControl

  class ServerControl {
    var state: State
    var generation: nat
    var log: seq<Change>
    var emitted: seq<Change>

    function View(): Shared
      reads this
    {
      Shared(state, generation, log, emitted)
    }

    constructor ()
      ensures View() == Fresh.shared
    {
      state, generation, log, emitted := Idle, 0, [], [];
    }

    /** A failed exchange reports the value it found. */
    method CompareExchange(id: nat, expected: State, desired: State, spurious: bool) returns (won: bool, found: State)
      modifies `state, `log
      ensures won <==> old(state) == expected && !spurious
      ensures View() == if won then Changed(old(View()), desired, id) else old(View())
      ensures found == old(state)
    {
      found := state;
      won := state == expected && !spurious;
      if won {
        state := desired;
        log := log + [Change(desired, id)];
      }
    }

    /** One round of the loop in `begin_start`. */
    method BeginStart(id: nat, current: State, spurious: bool) returns (pc: Pc)
      modifies `state, `log
      ensures (View(), pc) == Access(old(View()), id, BeginTest(current), spurious)
    {
      if current.Starting? || current.Running? { return Done(true, T.NoError); }
      if current.Stopping? { return Done(false, T.NoError); }
      var won, found := CompareExchange(id, current, Starting, spurious);
      return if won then BeginBump else BeginTest(found);
    }

    /** One round of the loop in `request_stop` and in a `finish_start` with an error. */
    method RequestStop(id: nat, current: State, ec: T.ErrorCode, spurious: bool) returns (pc: Pc)
      modifies `state, `log
      ensures (View(), pc) == Access(old(View()), id, StopTest(current, ec), spurious)
    {
      if current.Stopping? || current.Stopped? { return Done(true, ec); }
      var won, found := CompareExchange(id, current, Stopping, spurious);
      return if won then StopEmit(ec) else StopTest(found, ec);
    }

    /** The strong exchange of a `finish_start` without error. */
    method FinishStart(id: nat) returns (pc: Pc)
      modifies `state, `log
      ensures (View(), pc) == Access(old(View()), id, Publish, false)
    {
      var won, found := CompareExchange(id, Starting, Running, false);
      if won { return RunningEmit; }
      return Done(true, if found.Running? then T.NoError else T.OperationAborted);
    }

    method FinishWait(id: nat, ec: T.ErrorCode) returns (pc: Pc)
      modifies `state, `log
      ensures (View(), pc) == Access(old(View()), id, Exchange(ec), false)
    {
      var previous := state;
      state := Stopped;
      if previous.Stopped? { return Done(true, ec); }
      log := log + [Change(Stopped, id)];
      return StoppedEmit(ec);
    }

    /** A start that won counts its generation. */
    method BumpGeneration(id: nat) returns (pc: Pc)
      modifies `generation
      ensures (View(), pc) == Access(old(View()), id, BeginBump, false)
    {
      generation := generation + 1;
      return BeginEmit;
    }

    /** Whoever changed the state reports the change and returns. */
    method Emit(id: nat, pc: Pc) returns (next: Pc)
      requires Owes(pc) && !pc.BeginBump?
      modifies `emitted
      ensures (View(), next) == Access(old(View()), id, pc, false)
    {
      emitted := emitted + [Change(EventOf(pc), id)];
      return Done(true, if pc.StopEmit? || pc.StoppedEmit? then pc.ec else T.NoError);
    }

    /** Any access of any call. */
    method Advance(id: nat, pc: Pc, spurious: bool) returns (next: Pc)
      modifies this
      ensures (View(), next) == Access(old(View()), id, pc, spurious)
    {
      match pc
      case BeginTest(current) => next := BeginStart(id, current, spurious);
      case BeginBump => next := BumpGeneration(id);
      case StopTest(current, ec) => next := RequestStop(id, current, ec, spurious);
      case Publish => next := FinishStart(id);
      case Exchange(ec) => next := FinishWait(id, ec);
      case Done(_, _) => next := pc;
      case _ => next := Emit(id, pc);
    }
  }
}
