/** Wait operations: issued from any thread, submitted to the strand, cancelled from
    any thread, released when the listener stops. */
module Waits {
  import opened Types
  import opened S = Sequences

  datatype Result = Released(ec: ErrorCode) | Cancelled

  /** `submitQueued`: the task that registers the wait has not run. `cancelled`: the
      shared flag. `cancelTasks`: posted `cancel_wait` tasks that have not run. `results`:
      the completions of the handler. */
  datatype Wait = Wait(submitQueued: bool, cancelled: bool, cancelTasks: nat, results: seq<Result>)

  /** `waiters` is the listener's list of registered waits. */
  datatype Table = Table(ops: map<nat, Wait>, waiters: seq<nat>, lastId: nat)

  const Empty := Table(map[], [], 0)

  function Issue(t: Table): Table {
    t.(ops := t.ops[t.lastId + 1 := Wait(true, false, 0, [])], lastId := t.lastId + 1)
  }

  function Signal(t: Table, id: nat): Table
    requires id in t.ops
  {
    var w := t.ops[id];
    t.(ops := t.ops[id := w.(cancelled := true, cancelTasks := w.cancelTasks + 1)])
  }

  function Completed(w: Wait, r: Result): Wait { w.(results := w.results + [r]) }

  function Submit(t: Table, id: nat, state: ListenerState, terminal: ErrorCode): Table
    requires id in t.ops
  {
    var w := t.ops[id].(submitQueued := false);
    if w.cancelled then t.(ops := t.ops[id := Completed(w, Cancelled)])
    else if state.Stopped? then t.(ops := t.ops[id := Completed(w, Released(terminal))])
    else t.(ops := t.ops[id := w], waiters := t.waiters + [id])
  }

  function RunCancel(t: Table, id: nat): Table
    requires id in t.ops && t.ops[id].cancelTasks > 0
  {
    var w := t.ops[id].(cancelTasks := t.ops[id].cancelTasks - 1);
    if id in t.waiters
    then t.(ops := t.ops[id := Completed(w, Cancelled)], waiters := Without(t.waiters, id))
    else t.(ops := t.ops[id := w])
  }

  function ReleaseAll(t: Table, ec: ErrorCode): Table {
    t.(ops := map id | id in t.ops ::
                if id in t.waiters then Completed(t.ops[id], Released(ec)) else t.ops[id],
       waiters := [])
  }

  /** A wait is in exactly one of three places: its submission is queued, it is
      registered, or its handler has completed once. A cancelled wait that is registered
      still has a cancel task coming. */
  predicate Placed(w: Wait, registered: bool) {
    && (w.submitQueued ==> !registered && w.results == [])
    && (registered ==> w.results == [] && (w.cancelled ==> w.cancelTasks > 0))
    && (!w.submitQueued && !registered ==> |w.results| == 1)
    && (!w.cancelled ==> w.cancelTasks == 0 && Cancelled !in w.results)
  }

  predicate Inv(t: Table) {
    && Distinct(t.waiters)
    && (forall id <- t.waiters :: id in t.ops)
    && (forall id <- t.ops :: id <= t.lastId && Placed(t.ops[id], id in t.waiters))
  }

  lemma IssueKeepsInv(t: Table)
    requires Inv(t)
    ensures Inv(Issue(t))
    ensures t.lastId + 1 !in t.ops
  {}

  lemma SignalKeepsInv(t: Table, id: nat)
    requires Inv(t) && id in t.ops
    ensures Inv(Signal(t, id))
  {}

  lemma SubmitKeepsInv(t: Table, id: nat, state: ListenerState, terminal: ErrorCode)
    requires Inv(t) && id in t.ops && t.ops[id].submitQueued
    ensures Inv(Submit(t, id, state, terminal))
  {
    AppendDistinct(t.waiters, id);
  }

  lemma RunCancelKeepsInv(t: Table, id: nat)
    requires Inv(t) && id in t.ops && t.ops[id].cancelTasks > 0
    ensures Inv(RunCancel(t, id))
  {
    WithoutRemoves(t.waiters, id);
  }

  lemma ReleaseAllKeepsInv(t: Table, ec: ErrorCode)
    requires Inv(t)
    ensures Inv(ReleaseAll(t, ec))
  {}

  lemma ReleaseNone(t: Table, ec: ErrorCode)
    requires t.waiters == []
    ensures ReleaseAll(t, ec) == t
  {
    assert ReleaseAll(t, ec).ops == t.ops;
  }

  /** The loop that completes every registered wait, in order, and empties the list. */
  method CompleteAll(t: Table, ec: ErrorCode) returns (r: Table)
    requires Inv(t)
    ensures r == ReleaseAll(t, ec)
  {
    var ops := t.ops;
    var i := 0;
    while i < |t.waiters|
      invariant 0 <= i <= |t.waiters|
      invariant ops.Keys == t.ops.Keys
      invariant forall id <- ops ::
          ops[id] == if id in t.waiters[..i] then Completed(t.ops[id], Released(ec)) else t.ops[id]
    {
      var id := t.waiters[i];
      ops := ops[id := Completed(ops[id], Released(ec))];
      i := i + 1;
    }
    assert t.waiters[..i] == t.waiters;
    r := t.(ops := ops, waiters := []);
    assert ops == ReleaseAll(t, ec).ops;
  }
}
