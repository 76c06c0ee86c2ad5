/** A listener together with the queue of its strand, which runs start and stop tasks in the
    order they were posted. */
module Strands {
  import opened Types
  import A = AbstractListener
  import S = Starts

  datatype Task = StartTask(id: nat) | StopTask

  /** Since the server last posted a start: `stops` counts the stop tasks posted, and `found`
      lists the states that stop requests found. */
  datatype Strand = Strand(face: A.Listener, queue: seq<Task>, stops: nat, found: seq<ListenerState>)
  {
    function Phase(): ListenerState { face.life.state }
  }

  function Last(queue: seq<Task>): Task
    requires queue != []
  {
    queue[|queue| - 1]
  }

  /** `async_start`: the start task is queued. */
  function PostStart(u: Strand): Strand {
    Strand(u.face.(starts := S.Issue(u.face.starts)), u.queue + [StartTask(u.face.starts.lastId + 1)], 0, [])
  }

  function Read(u: Strand): Strand { u.(found := u.found + [u.Phase()]) }

  function PostStop(u: Strand): Strand { u.(queue := u.queue + [StopTask], stops := u.stops + 1) }

  /** What the task at the head of the queue may do. */
  predicate Runs(u: Strand, m: A.Move) {
    && u.queue != [] && A.Enabled(u.face, m)
    && match u.queue[0]
       case StartTask(id) =>
         m == A.RejectStart(id) || m == A.JoinStart(id) || m == A.Launch(id) || (m.LaunchFails? && m.id == id)
       case StopTask =>
         if u.Phase().Idle? then m == A.StopAtOnce(NoError, Requested)
         else if u.Phase().Running? then m == A.StopAtOnce(NoError, Requested) || m == A.BeginStop(NoError, Requested)
         else m == A.Quiet
  }

  function Run(u: Strand, m: A.Move): Strand
    requires Runs(u, m)
  {
    u.(face := A.Do(u.face, m), queue := u.queue[1..])
  }

  /** What the listener and its users do apart from starts and stop requests: accepting,
      failing, draining, waiting. */
  predicate Own(u: Strand, m: A.Move) {
    && A.Enabled(u.face, m)
    && (m.Quiet? || m.IssueWait? || m.SignalWait? || m.SubmitWait? || m.CancelWait? || m.FinishStop?
        || ((m.BeginStop? || m.StopAtOnce?) && u.Phase().Running?))
  }

  function Alone(u: Strand, m: A.Move): Strand
    requires Own(u, m)
  {
    u.(face := A.Do(u.face, m))
  }

  /** Every queued start is still to be decided, and no two tasks decide the same one. */
  predicate QueueInv(u: Strand) {
    && (forall k :: 0 <= k < |u.queue| && u.queue[k].StartTask? ==>
          A.Pending(u.face, u.queue[k].id) && !u.face.starts.ops[u.queue[k].id].cancelled)
    && (forall j, k :: 0 <= j < k < |u.queue| && u.queue[j].StartTask? ==> u.queue[j] != u.queue[k])
  }

  /** A stop posted behind every start is the last task, until it has run; then the listener
      does not run any more. */
  predicate StopInv(u: Strand) {
    u.stops > 0 ==>
      if u.queue == [] then u.Phase().Stopping? || u.Phase().Stopped? else Last(u.queue) == StopTask
  }

  predicate Inv(u: Strand) { A.Inv(u.face) && QueueInv(u) && StopInv(u) }

  lemma PostStartKeepsInv(u: Strand)
    requires Inv(u)
    ensures Inv(PostStart(u)) && Last(PostStart(u).queue) == StartTask(u.face.starts.lastId + 1)
  {
    A.MoveKeepsInv(u.face, A.IssueStart);
  }

  lemma PostStopKeepsInv(u: Strand)
    requires Inv(u)
    ensures Inv(PostStop(u)) && Inv(Read(u))
  {}

  lemma ReadFinds(u: Strand)
    ensures Read(u).stops == u.stops && Read(u).found != []
    ensures u.Phase().Stopped? ==> Read(u).found == u.found + [Stopped]
  {}

  lemma StopTaskStops(u: Strand, m: A.Move)
    requires Inv(u) && Runs(u, m) && u.queue[0] == StopTask
    ensures Run(u, m).Phase().Stopping? || Run(u, m).Phase().Stopped?
  {}

  lemma RunKeepsQueue(u: Strand, m: A.Move)
    requires Inv(u) && Runs(u, m)
    ensures QueueInv(Run(u, m))
  {
    var v := Run(u, m);
    forall k | 0 <= k < |v.queue| && v.queue[k].StartTask?
      ensures A.Pending(v.face, v.queue[k].id) && !v.face.starts.ops[v.queue[k].id].cancelled
    {
      assert v.queue[k] == u.queue[k + 1];
      assert u.queue[0] != u.queue[k + 1] || !u.queue[0].StartTask?;
    }
    forall j, k | 0 <= j < k < |v.queue| && v.queue[j].StartTask? ensures v.queue[j] != v.queue[k] {
      assert v.queue[j] == u.queue[j + 1] && v.queue[k] == u.queue[k + 1];
    }
  }

  lemma RunKeepsInv(u: Strand, m: A.Move)
    requires Inv(u) && Runs(u, m)
    ensures Inv(Run(u, m))
  {
    A.MoveKeepsInv(u.face, m);
    RunKeepsQueue(u, m);
    if |u.queue| == 1 && u.queue[0] == StopTask { StopTaskStops(u, m); }
  }

  lemma OwnKeepsInv(u: Strand, m: A.Move)
    requires Inv(u) && Own(u, m)
    ensures Inv(Alone(u, m)) && Alone(u, m).face.starts == u.face.starts
    ensures Alone(u, m).Phase().Running? ==> u.Phase().Running?
  {
    A.MoveKeepsInv(u.face, m);
  }

  // ----- what can become of it -----

  datatype Event = RunHead(m: A.Move) | ByItself(m: A.Move)

  /** The strand can go on from `u` to `v` without anybody posting anything. */
  predicate Plays(u: Strand, events: seq<Event>, v: Strand)
    decreases |events|
  {
    if events == [] then v == u
    else
      match events[0]
      case RunHead(m) => Runs(u, m) && Plays(Run(u, m), events[1..], v)
      case ByItself(m) => Own(u, m) && Plays(Alone(u, m), events[1..], v)
  }

  lemma {:induction false} PlayKeepsFound(u: Strand, events: seq<Event>, v: Strand)
    requires Plays(u, events, v)
    ensures v.found == u.found && v.stops == u.stops
    decreases |events|
  {
    if events != [] {
      match events[0]
      case RunHead(m) => PlayKeepsFound(Run(u, m), events[1..], v);
      case ByItself(m) => PlayKeepsFound(Alone(u, m), events[1..], v);
    }
  }

  /** It can come to rest, with no task left, in a running listener. */
  ghost predicate CanEndRunning(u: Strand) {
    exists events, v :: Plays(u, events, v) && v.queue == [] && v.Phase().Running?
  }

  /** The last task is a start, or there is none and the listener runs. */
  predicate Unstopped(u: Strand) {
    if u.queue == [] then u.Phase().Running? else Last(u.queue).StartTask?
  }

  lemma StepKeepsStopped(u: Strand, e: Event)
    requires Inv(u) && !Unstopped(u)
    ensures e.RunHead? && Runs(u, e.m) ==> Inv(Run(u, e.m)) && !Unstopped(Run(u, e.m))
    ensures e.ByItself? && Own(u, e.m) ==> Inv(Alone(u, e.m)) && !Unstopped(Alone(u, e.m))
  {
    if e.RunHead? && Runs(u, e.m) {
      RunKeepsInv(u, e.m);
      if |u.queue| == 1 { StopTaskStops(u, e.m); }
    }
    if e.ByItself? && Own(u, e.m) { OwnKeepsInv(u, e.m); }
  }

  lemma {:induction false} StoppedCannotEndRunning(u: Strand, events: seq<Event>, v: Strand)
    requires Inv(u) && !Unstopped(u) && Plays(u, events, v)
    ensures !Unstopped(v)
    decreases |events|
  {
    if events != [] {
      StepKeepsStopped(u, events[0]);
      match events[0]
      case RunHead(m) => StoppedCannotEndRunning(Run(u, m), events[1..], v);
      case ByItself(m) => StoppedCannotEndRunning(Alone(u, m), events[1..], v);
    }
  }

  /** Some move the task at the head can make; a start launches if it may. */
  function Chosen(u: Strand): A.Move
    requires u.queue != []
  {
    match u.queue[0]
    case StartTask(id) =>
      if u.Phase().Running? then A.JoinStart(id)
      else if u.Phase().Stopping? then A.RejectStart(id)
      else A.Launch(id)
    case StopTask =>
      if u.Phase().Idle? || u.Phase().Running? then A.StopAtOnce(NoError, Requested) else A.Quiet
  }

  lemma ChosenRuns(u: Strand)
    requires Inv(u) && u.queue != []
    ensures Runs(u, Chosen(u))
    ensures u.queue[0].StartTask? && !u.Phase().Stopping? ==> Run(u, Chosen(u)).Phase().Running?
    ensures !u.Phase().Stopping? ==> !Run(u, Chosen(u)).Phase().Stopping?
    ensures !Run(u, Chosen(u)).Phase().Idle?
  {
    if u.queue[0].StartTask? { assert A.Pending(u.face, u.queue[0].id); }
  }

  lemma {:induction false} EndsRunning(u: Strand) returns (events: seq<Event>, v: Strand)
    requires Inv(u) && Unstopped(u) && !u.Phase().Stopping?
    ensures Plays(u, events, v) && v.queue == [] && v.Phase().Running?
    decreases |u.queue|
  {
    if u.queue == [] {
      events, v := [], u;
    } else {
      ChosenRuns(u);
      RunKeepsInv(u, Chosen(u));
      var rest;
      rest, v := EndsRunning(Run(u, Chosen(u)));
      events := [RunHead(Chosen(u))] + rest;
      assert events[1..] == rest;
    }
  }

  lemma FirstDrains(u: Strand) returns (events: seq<Event>, v: Strand)
    requires Inv(u) && Unstopped(u)
    ensures Plays(u, events, v) && v.queue == [] && v.Phase().Running?
  {
    if u.Phase().Stopping? {
      OwnKeepsInv(u, A.FinishStop);
      var rest;
      rest, v := EndsRunning(Alone(u, A.FinishStop));
      events := [ByItself(A.FinishStop)] + rest;
      assert events[1..] == rest;
    } else {
      events, v := EndsRunning(u);
    }
  }

  /** A strand to which nothing more is posted can end up with a running listener if and only
      if no stop is queued behind its last start. */
  lemma CanEndRunningIff(u: Strand)
    requires Inv(u)
    ensures CanEndRunning(u) <==> Unstopped(u)
  {
    if Unstopped(u) {
      var events, v := FirstDrains(u);
    } else {
      forall events, v | Plays(u, events, v) ensures !Unstopped(v) {
        StoppedCannotEndRunning(u, events, v);
      }
    }
  }

  // ----- a start posted to an idle listener -----

  /** As long as no stop has been posted: the start is the only task and every request found the
      listener idle, or it has run and a request that found the listener stopped still would. */
  predicate Firm(u: Strand) {
    u.stops == 0 ==>
      || (|u.queue| == 1 && u.queue[0].StartTask? && u.Phase().Idle? && forall st <- u.found :: st.Idle?)
      || (u.queue == [] && !u.Phase().Idle? && (Stopped in u.found ==> u.Phase().Stopped?))
  }

  lemma PostsKeepFirm(u: Strand)
    ensures u.Phase().Idle? && u.queue == [] ==> Firm(PostStart(u))
    ensures Firm(PostStop(u))
    ensures Firm(u) ==> Firm(Read(u))
  {}

  lemma RunKeepsFirm(u: Strand, m: A.Move)
    requires Inv(u) && Firm(u) && Runs(u, m)
    ensures Firm(Run(u, m))
  {}

  lemma OwnKeepsFirm(u: Strand, m: A.Move)
    requires Inv(u) && Firm(u) && Own(u, m)
    ensures Firm(Alone(u, m))
  {}

  /** Once a request has found it stopped, or a stop is posted, it cannot end up running. */
  lemma FirmCannotEndRunning(u: Strand)
    requires Inv(u) && Firm(u) && (u.stops > 0 || (u.found != [] && forall st <- u.found :: st.Stopped?))
    ensures !CanEndRunning(u)
  {
    CanEndRunningIff(u);
    if u.stops == 0 {
      assert u.found[0] in u.found;
    }
  }

  // ----- a start posted to any other -----

  lemma {:induction false} StopsFirst(u: Strand, id: nat) returns (events: seq<Event>, v: Strand)
    requires Inv(u) && u.queue != [] && Last(u.queue) == StartTask(id) && (u.Phase().Idle? ==> |u.queue| > 1)
    ensures Plays(u, events, v) && Inv(v) && v.queue == [StartTask(id)] && v.Phase().Stopped?
    decreases |u.queue|
  {
    if |u.queue| > 1 {
      ChosenRuns(u);
      RunKeepsInv(u, Chosen(u));
      var rest;
      rest, v := StopsFirst(Run(u, Chosen(u)), id);
      events := [RunHead(Chosen(u))] + rest;
      assert events[1..] == rest;
    } else if u.Phase().Stopped? {
      events, v := [], u;
    } else {
      var m := if u.Phase().Stopping? then A.FinishStop else A.StopAtOnce(IoError, RuntimeFailure);
      OwnKeepsInv(u, m);
      events, v := [ByItself(m)], Alone(u, m);
      assert Plays(v, [], v);
    }
  }
}
