/** Start operations: issued and cancelled from any thread, decided by one strand task. */
module Starts {
  import opened Types

  /** `queued`: the start task has not run. `results`: the completions of the handler. */
  datatype Start = Start(queued: bool, cancelled: bool, results: seq<ErrorCode>)

  datatype Table = Table(ops: map<nat, Start>, lastId: nat)

  const Empty := Table(map[], 0)

  function Issue(t: Table): Table {
    Table(t.ops[t.lastId + 1 := Start(true, false, [])], t.lastId + 1)
  }

  function Signal(t: Table, id: nat): Table
    requires id in t.ops
  {
    t.(ops := t.ops[id := t.ops[id].(cancelled := true)])
  }

  function Decide(t: Table, id: nat, ec: ErrorCode): Table
    requires id in t.ops
  {
    t.(ops := t.ops[id := t.ops[id].(queued := false, results := t.ops[id].results + [ec])])
  }

  /** A start is queued with no completion, or it has completed exactly once. */
  predicate Inv(t: Table) {
    forall id <- t.ops :: id <= t.lastId && |t.ops[id].results| == if t.ops[id].queued then 0 else 1
  }
}
