/** Sessions and the strands they run on. A session can end because user code completes,
    because starting it throws, or because it is force-closed; whichever comes first
    posts one session-finished task to the listener. */
module Sessions {
  import opened Types
  import opened S = Sequences

  /** `startQueued`, `forceQueued`: tasks on the session's own strand that have not run.
      `userPending`: user code still owes a completion. `finishTasks`: session-finished
      tasks in flight to the listener. `stoppedEvents`: `session_stopped` events emitted. */
  datatype Session = Session(
    generation: nat,
    startQueued: bool,
    userPending: bool,
    stopAsked: bool,
    forceQueued: nat,
    finished: bool,
    outcome: ErrorCode,
    finishTasks: nat,
    stoppedEvents: nat)

  /** `live` is the listener's list of sessions and `active` the counter it publishes;
      `all` holds every session ever started. */
  datatype Pool = Pool(live: seq<nat>, active: int, all: map<nat, Session>)

  const Empty := Pool([], 0, map[])

  function Fresh(generation: nat): Session {
    Session(generation, true, false, false, 0, false, NoError, 0, 0)
  }

  function Admit(p: Pool, id: nat, generation: nat): Pool {
    Pool(p.live + [id], p.active + 1, p.all[id := Fresh(generation)])
  }

  function AskAllToStop(p: Pool): Pool {
    p.(all := map id | id in p.all :: if id in p.live then p.all[id].(stopAsked := true) else p.all[id])
  }

  function Forced(c: Session): Session { c.(forceQueued := c.forceQueued + 1) }

  function ForceAll(p: Pool): Pool {
    p.(all := map id | id in p.all :: if id in p.live then Forced(p.all[id]) else p.all[id])
  }

  /** Only the first of the racing ends of a session counts. */
  function Finished(c: Session, ec: ErrorCode): Session {
    if c.finished then c
    else c.(finished := true, outcome := ec, finishTasks := c.finishTasks + 1)
  }

  /** What user code did with its completion handler by the time it returned or threw:
      dropped it, kept it for later, or called it. */
  datatype Handler = Dropped | Kept | Called(ec: ErrorCode)

  /** Runs the session's start task. */
  function Started(c: Session, run: Outcome, handler: Handler): Session {
    var d := c.(startQueued := false, userPending := handler.Kept?);
    var e := if handler.Called? then Finished(d, handler.ec) else d;
    match run
    case Returned => e
    case Threw(code) => Finished(e, code)
  }

  function UserCompleted(c: Session, ec: ErrorCode): Session {
    Finished(c.(userPending := false), ec)
  }

  function Closed(c: Session): Session
    requires c.forceQueued > 0
  {
    Finished(c.(forceQueued := c.forceQueued - 1), OperationAborted)
  }

  /** What can happen on a session's own strand. */
  datatype Event =
    | Begin(run: Outcome, handler: Handler)
    | Complete(ec: ErrorCode)
    | Force

  predicate Possible(c: Session, e: Event) {
    match e
    case Begin(_, _) => c.startQueued
    case Complete(_) => c.userPending
    case Force => c.forceQueued > 0
  }

  function After(c: Session, e: Event): Session
    requires Possible(c, e)
  {
    match e
    case Begin(run, handler) => Started(c, run, handler)
    case Complete(ec) => UserCompleted(c, ec)
    case Force => Closed(c)
  }

  function Run(p: Pool, id: nat, e: Event): Pool
    requires id in p.all && Possible(p.all[id], e)
  {
    p.(all := p.all[id := After(p.all[id], e)])
  }

  /** A session-finished task of `id` is in flight. */
  predicate Finishing(p: Pool, id: nat) { id in p.all && p.all[id].finishTasks > 0 }

  /** The session-finished task on the listener's strand. */
  function Deliver(p: Pool, id: nat): Pool
    requires Finishing(p, id)
  {
    var c := p.all[id];
    var all := p.all[id := c.(finishTasks := c.finishTasks - 1, stoppedEvents := c.stoppedEvents + 1)];
    if id in p.live then Pool(Without(p.live, id), p.active - 1, all) else p.(all := all)
  }

  /** A session that has not ended is live; one that has ended has exactly one finish task
      in flight and is still live, or has had its one stopped event and is gone. */
  predicate Accounted(c: Session, live: bool) {
    && c.finishTasks + c.stoppedEvents == (if c.finished then 1 else 0)
    && (live <==> c.stoppedEvents == 0)
  }

  predicate Inv(p: Pool) {
    && Distinct(p.live)
    && p.active == |p.live|
    && (forall id <- p.live :: id in p.all)
    && (forall id <- p.all :: Accounted(p.all[id], id in p.live))
  }

  lemma AdmitKeepsInv(p: Pool, id: nat, generation: nat)
    requires Inv(p) && id !in p.all
    ensures Inv(Admit(p, id, generation))
  {
    AppendDistinct(p.live, id);
  }

  lemma AskAllKeepsInv(p: Pool)
    requires Inv(p)
    ensures Inv(AskAllToStop(p))
  {
    forall id | id in AskAllToStop(p).all
      ensures Accounted(AskAllToStop(p).all[id], id in p.live)
    {
      assert Accounted(p.all[id], id in p.live);
    }
  }

  lemma AskNone(p: Pool)
    requires p.live == []
    ensures AskAllToStop(p) == p
  {
    assert AskAllToStop(p).all == p.all;
  }

  lemma ForceAllKeepsInv(p: Pool)
    requires Inv(p)
    ensures Inv(ForceAll(p))
  {
    forall id | id in ForceAll(p).all
      ensures Accounted(ForceAll(p).all[id], id in p.live)
    {
      assert Accounted(p.all[id], id in p.live);
    }
  }

  /** However its ends race, a session stays accounted for, and the first end decides its
      outcome. */
  lemma RunKeepsInv(p: Pool, id: nat, e: Event)
    requires Inv(p) && id in p.all && Possible(p.all[id], e)
    ensures Inv(Run(p, id, e))
    ensures p.all[id].finished ==> Run(p, id, e).all[id].outcome == p.all[id].outcome
    ensures Doomed(p.all[id]) ==> Doomed(Run(p, id, e).all[id])
  {
    assert Accounted(p.all[id], id in p.live);
    assert Accounted(After(p.all[id], e), id in p.live);
  }

  // ----- which end it is -----

  /** The ends that an event brings a session, in the order in which they come: user code may
      call its handler and then throw. */
  function EndsOf(e: Event): seq<ErrorCode> {
    match e
    case Begin(run, handler) =>
      (if handler.Called? then [handler.ec] else []) + (if run.Threw? then [run.code] else [])
    case Complete(ec) => [ec]
    case Force => [OperationAborted]
  }

  /** A session that has not ended ends with the first end an event brings, if it brings one, and
      posts one finish; one that has ended does not change its outcome or post again. Nothing
      else about it changes but what is queued and what user code owes. */
  lemma EventEnds(c: Session, e: Event)
    requires Possible(c, e)
    ensures var d := After(c, e);
            && d.finished == (c.finished || EndsOf(e) != [])
            && d.outcome == (if !c.finished && EndsOf(e) != [] then EndsOf(e)[0] else c.outcome)
            && d.finishTasks == c.finishTasks + (if !c.finished && EndsOf(e) != [] then 1 else 0)
            && d.generation == c.generation && d.stopAsked == c.stopAsked && d.stoppedEvents == c.stoppedEvents
            && d.startQueued == (c.startQueued && !e.Begin?)
            && d.forceQueued == (if e.Force? then c.forceQueued - 1 else c.forceQueued)
            && d.userPending == (if e.Begin? then e.handler.Kept? else c.userPending && !e.Complete?)
  {}

  lemma DeliverKeepsInv(p: Pool, id: nat)
    requires Inv(p) && Finishing(p, id)
    ensures Inv(Deliver(p, id))
    ensures id in p.live && |Deliver(p, id).live| == |p.live| - 1
  {
    assert Accounted(p.all[id], id in p.live);
    WithoutRemoves(p.live, id);
  }

  /** After the grace deadline a live session needs no user code: it has ended, or a
      force-close is queued on its strand. */
  predicate Doomed(c: Session) { c.finished || c.forceQueued > 0 }

  /** Live sessions that have not ended. */
  function Unended(p: Pool): set<nat> {
    set id | id in p.live && id in p.all && !p.all[id].finished
  }
}

/** A session as the object it is, with the tasks of its strand. */
module SessionObject {
  import opened Types
  import Q = Sessions

  class Session {
    const generation: nat
    var startQueued: bool
    var userPending: bool
    var stopAsked: bool
    var forceQueued: nat
    var finished: bool
    var outcome: ErrorCode
    var finishTasks: nat
    var stoppedEvents: nat

    function View(): Q.Session
      reads this
    {
      Q.Session(generation, startQueued, userPending, stopAsked, forceQueued, finished, outcome,
                finishTasks, stoppedEvents)
    }

    constructor (generation: nat)
      ensures View() == Q.Fresh(generation)
    {
      this.generation := generation;
      startQueued, userPending, stopAsked, forceQueued := true, false, false, 0;
      finished, outcome, finishTasks, stoppedEvents := false, NoError, 0, 0;
    }

    /** The first caller ends the session and posts its finish to the listener. */
    method Finish(ec: ErrorCode)
      modifies `finished, `outcome, `finishTasks
      ensures View() == Q.Finished(old(View()), ec)
    {
      if finished { return; }
      finished := true;
      outcome := ec;
      finishTasks := finishTasks + 1;
    }

    /** A handler called before the throw comes first. */
    method Start(run: Outcome, handler: Q.Handler)
      requires startQueued
      modifies this
      ensures View() == Q.After(old(View()), Q.Begin(run, handler))
    {
      startQueued := false;
      userPending := handler.Kept?;
      if handler.Called? { Finish(handler.ec); }
      if run.Threw? { Finish(run.code); }
    }

    method Complete(ec: ErrorCode)
      requires userPending
      modifies this
      ensures View() == Q.After(old(View()), Q.Complete(ec))
    {
      userPending := false;
      Finish(ec);
    }

    method ForceClose()
      requires forceQueued > 0
      modifies this
      ensures View() == Q.After(old(View()), Q.Force)
    {
      forceQueued := forceQueued - 1;
      Finish(OperationAborted);
    }
  }
}
