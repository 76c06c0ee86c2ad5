/** The tasks of both real listeners are the moves a strand allows, so what is proved of strands
    holds of them: a start or stop task runs from the head of the queue, and nothing else the
    listener does starts it or stops it while idle. */
module StrandTasks {
  import opened Types
  import U = Strands
  import AS = Acceptor
  import AI = AcceptorInvariant
  import AR = AcceptorRefinement
  import KS = Socket
  import KT = SocketTheorems

  /** The step runs the task at the head of the queue. */
  predicate AcceptorHead(step: AS.Step, queue: seq<U.Task>) {
    && queue != []
    && (step.RunStart? || step.RunStop?)
    && queue[0] == if step.RunStart? then U.StartTask(step.id) else U.StopTask
  }

  lemma AcceptorRunsTask(o: Options, s: AS.State, step: AS.Step, u: U.Strand)
    requires o.Valid() && AI.Inv(o, s) && AS.Enabled(s, step) && u.face == s.face && AcceptorHead(step, u.queue)
    ensures U.Runs(u, AR.MoveOf(o, s, step))
    ensures U.Run(u, AR.MoveOf(o, s, step)).face == AS.Apply(o, s, step).face
  {
    AR.StepSimulates(o, s, step);
    if step.RunStop? { AcceptorStopMove(o, s); }
  }

  lemma AcceptorStopMove(o: Options, s: AS.State)
    requires o.Valid() && AI.Inv(o, s) && s.stopTasks > 0
    ensures var m := AR.MoveOf(o, s, AS.RunStop);
            if s.Phase().Idle? then m.StopAtOnce? && m.cause == NoError && m.why == Requested
            else if s.Phase().Running? then
              (m.StopAtOnce? || m.BeginStop?) && m.cause == NoError && m.why == Requested
            else m.Quiet?
  {}

  /** Neither a start or stop task nor the making or cancelling of a start. */
  predicate AcceptorOther(step: AS.Step) {
    !step.RunStart? && !step.RunStop? && !step.IssueStart? && !step.SignalStart?
  }

  lemma AcceptorIdles(o: Options, s: AS.State, step: AS.Step)
    requires o.Valid() && AI.Inv(o, s) && AS.Enabled(s, step) && AcceptorOther(step) && s.Phase().Idle?
    ensures AS.Apply(o, s, step).Phase().Idle?
  {
    if step.SessionFinished? { AI.Q.DeliverKeepsInv(s.pool, step.id); }
  }

  lemma AcceptorByItself(o: Options, s: AS.State, step: AS.Step, u: U.Strand)
    requires o.Valid() && AI.Inv(o, s) && AS.Enabled(s, step) && u.face == s.face && AcceptorOther(step)
    ensures U.Own(u, AR.MoveOf(o, s, step))
    ensures U.Alone(u, AR.MoveOf(o, s, step)).face == AS.Apply(o, s, step).face
  {
    AR.StepSimulates(o, s, step);
    if s.Phase().Idle? { AcceptorIdles(o, s, step); }
  }

  predicate SocketHead(step: KS.Step, queue: seq<U.Task>) {
    && queue != []
    && (step.RunStart? || step.RunStop?)
    && queue[0] == if step.RunStart? then U.StartTask(step.id) else U.StopTask
  }

  lemma SocketRunsTask(s: KS.State, step: KS.Step, u: U.Strand)
    requires KT.Inv(s) && KS.Enabled(s, step) && u.face == s.face && SocketHead(step, u.queue)
    ensures U.Runs(u, KT.MoveOf(s, step))
    ensures U.Run(u, KT.MoveOf(s, step)).face == KS.Apply(s, step).face
  {
    KT.StepSimulates(s, step);
  }

  predicate SocketOther(step: KS.Step) {
    !step.RunStart? && !step.RunStop? && !step.IssueStart? && !step.SignalStart?
  }

  lemma SocketByItself(s: KS.State, step: KS.Step, u: U.Strand)
    requires KT.Inv(s) && KS.Enabled(s, step) && u.face == s.face && SocketOther(step)
    ensures U.Own(u, KT.MoveOf(s, step))
    ensures U.Alone(u, KT.MoveOf(s, step)).face == KS.Apply(s, step).face
  {
    KT.StepSimulates(s, step);
    if step.SessionFinished? { KT.ClearedIsDelivered(s, step.id); }
  }
}
