# Verification model of serveza

serveza runs listeners on a Boost.Asio executor. A listener is a state machine (idle, starting,
running, stopping, stopped) whose tasks run one at a time on a strand, while sessions run on
strands of their own and any thread may start, stop, wait for or cancel it. A server starts and
waits for a snapshot of listeners through one operation group and keeps a lock-free lifecycle of
its own. This project models those machines in Dafny and proves what holds in every state of every
run, whatever the order of tasks, timers, completions, exceptions and cancellations.

`dafny verify dfyconfig.toml` checks the whole project.

## How it is built

Each machine has two forms. The first is a transition system on values: a `State`, a `Step` whose
parameters are what the environment decides, `Enabled` and `Apply`. Invariants, refinement,
liveness and whole-run theorems are proved about it. The second is a class with the fields that the
source updates in place; every task is a method proved to take the object's view from the old state
to the state that `Apply` gives, and to keep the invariant.

| files | component |
|---|---|
| `Types`, `Sequences` | error codes, states, options; lists of distinct identifiers |
| `Lifecycle`, `Waits`, `Starts`, `AbstractListener` | the one lifecycle that both listeners refine, with its wait and start operations |
| `Sessions` | sessions with racing ends, as values and as an object |
| `Acceptor`, `AcceptorInvariant`, `AcceptorRefinement`, `AcceptorTheorems`, `AcceptorEffects`, `AcceptorTimers`, `AcceptorLiveness`, `AcceptorLimits`, `AcceptorListener` | the accepting listener |
| `Socket`, `SocketTheorems`, `SocketEffects`, `SocketLiveness`, `SocketLimits`, `SocketListener` | the single-session listener |
| `OperationGroup`, `ServerControl` | the fan-out/fan-in group and the lock-free server lifecycle |
| `ServerWait`, `ServerLiveness`, `FinishedWait` | a server wait: the group with abstract listeners, with fair behaviours of both real ones, and with the lifecycle that its completion changes |
| `Strands`, `StrandTasks` | a listener with the queue of its strand, and why both real listeners are one |
| `ServerStart`, `ServerPrecedence` | a server start with stop requests against it: lifecycle, group, strands and everybody who asks listeners to stop; when the stop prevails |
| `Backoff` | the retry delay |
| `Observers` | observer registrations and delivery |

## Assumptions about the environment

- A strand runs its tasks one at a time. The listener models let any queued task run next, which
  includes the first-in-first-out order of a real strand. `Strands` keeps that order, because whether a
  stop prevails over a start depends on it.
- Different strands and threads interleave arbitrarily; atomics are sequentially consistent; a weak
  compare-and-exchange may fail spuriously.
- Posting a task succeeds, emitting a cancellation signal does not throw, and listeners outlive their sessions' weak references to them.
- An `async_accept` handler and a timer wait complete exactly once and never inline. The callback of
  a timer that has already expired may run late, even after a restart.
- User sessions may complete at any time or never, and clients may connect or not. Liveness assumes weak
  fairness only: a queued task runs, an armed grace timer expires, an accept that a stop has cancelled
  completes, and the initiating thread of a group and a thread that cancels one go on.
- Making a strand does not throw. In the accepting listener a throw there is caught and modelled. In the
  single-session listener it is not caught (`include/serveza/detail/basic_socket_listener.h:324`);
  `SocketLimits.StrandedUntilStopped` says what it would leave behind.
- An exception maps to a non-zero error code, except in the lemmas that show what happens otherwise:
  `src/exception.cpp:31-32` hands out the code of a `system_error` as it is.

These became parameters of steps: the result of opening, binding and listening; whether the session
factory, the session's start or an initiation throws, and with which code; the code of each accept
and of each session; the state another thread reads before it asks for a stop; timer expiry.

## Where the code does less than expected

The code is modelled as it is. Each of these has a proof that it happens, with the exact condition
where there is one.

- A grace timer that expired before the listener stopped can run after a restart and force-close
  sessions of the new generation: possible if and only if such a callback is still to run when the
  listener is restarted (`LateGraceIff` in `AcceptorLimits` and `SocketLimits`, with `LateGraceIsReachable`
  in both). For the single-session listener this ends the new generation with a runtime failure.
  `include/serveza/listener_options.h:33-34` promises forced closing only to sessions that remain after a
  shutdown request.
- An exception that maps to no error leaves the accepting listener published as running although it
  will never accept, ends a generation with a reason that does not match its error, lets the
  single-session listener report a successful start although it is stopped, and keeps an operation
  group from ever completing (`LaunchIsSoundIff`, `AcceptFailureIsSoundIff`,
  `StartReportsFaithfullyIff`, `QuiescentGroupCompletedIff`).
- `include/serveza/listener_options.h:52-53` describes `max_consecutive_accept_errors` as the failures
  allowed before stopping. The failure that reaches the number already stops the listener, and failures
  of earlier generations count, because a restart does not reset the number (`BudgetIsExact`; a run for
  any options in `GivingUpSurvivesRestart`).
- `include/serveza/server.h:142-144` promises that a concurrent stop request takes precedence over a
  start. It is sure to if and only if, when the start is posted to a listener, that listener is idle
  with an empty queue or a stop is about to be posted behind the start
  (`ServerPrecedence.StopTakesPrecedenceIff`). Otherwise the listener can read as stopped while its start
  is queued; then no stop is posted, and it runs under a stopping server. This happens on a restart
  (`StopIsLostOnRestart`) and, if the request comes before the start is posted, on a first start
  (`StopIsLostOnFirstStart`). The start then reports that it was aborted only if every child succeeded,
  and otherwise the first error of a child (`StoppedStartIsAborted`).
- `include/serveza/server.h:139-141` promises that a failed listener start asks every listener to stop.
  All are asked after their starts if the failure comes after the initiation loop
  (`LateFailureAsksEveryListener`). If it comes earlier, a listener started later can stay running
  (`EarlyFailureMissesLaterListener`, `EarlyFailureIsReachable`).
- A stopped server does not mean stopped listeners: a cancelled wait on any running listener can complete,
  and its `finish_wait` stops the server (`StoppedServerRunningListener`). A stop made by a wait that
  nobody cancelled does come after every initiated listener was stopped (`StoppedByWaitAfterListeners`).
- A start that finishes after the server was stopped and started again publishes running for the later
  generation (`LateFinishPublishesNextGeneration`): a publication is for its own generation if and only
  if the server has not been stopped since its start (`PublishesOwnGenerationIff`).

## Model

| member | source | states |
|---|---|---|
| `Lifecycles.MoveKeepsInv` | include/serveza/listener.h:461-734 | every lifecycle change follows the edges of the state machine, generation equals the number of entries into starting, and a stop carries an error exactly when its reason is a failure |
| `Lifecycles.MoveKeepsCause` | include/serveza/listener.h:615-690 | once a stop has begun, nothing in its generation changes its error or reason |
| `AbstractListener.MoveKeepsInv` | include/serveza/listener.h:404-507 | no move breaks the lifecycle, completes a start or wait twice, or leaves a waiter registered with a stopped listener |
| `AbstractListener.MoveCompletesAtMostOnce` | include/serveza/listener.h:427-458 | a completed wait keeps its result; a wait completes only as cancelled after its own signal, or released by a stopped listener with the terminal error |
| `AbstractListener.StopReleasesEveryWaiter` | include/serveza/listener.h:669-690 | the move into stopped completes every registered wait, all with the same terminal error |
| `AbstractListener.CancellingAWaitIsLocal` | include/serveza/listener.h:413-458 | cancelling a wait changes no state, generation, start or other wait |
| `AbstractListener.SignalIsNeverLost` | include/serveza/listener.h:411-458 | a cancellation racing with registration always leaves a queued task that completes the wait as cancelled |
| `AbstractListener.StartReportsItsOutcome` | include/serveza/listener.h:387-398 | a start completes once: success only from a running listener, an error only from the listener it stopped, otherwise aborted because of a cancellation or a stop in progress |
| `AbstractListener.CancelledStartIsAborted` | include/serveza/listener.h:376-398 | a start cancelled before its task has run is completed by it as aborted, with the listener left as it was; nothing undoes the cancellation |
| `AbstractListener.LifecycleIsFollowed` | include/serveza/listener.h:461-734 | in every state of every run: legal trace ending in the current state, starting never visible between tasks, generation counted exactly, error zero iff the reason is requested or completed |
| `AbstractListener.FirstCauseWins` | include/serveza/listener.h:615-690 | over whole runs, from the start of a stop to the next start the error and the reason are fixed |
| `AbstractListener.WaitCompletesAtMostOnce` | include/serveza/listener.h:404-458 | over whole runs a wait has at most one completion and keeps it |
| `AbstractListener.ReleasedWaitSawStop` | include/serveza/listener.h:427-440 | a wait not completed by its cancellation saw the listener stopped, with that very error, after it was issued |
| `AbstractListener.WaitersAreInOrder` | include/serveza/listener.h:427-458 | over whole runs a wait registered before another is ahead of it in the list that a stop goes through, for as long as both are there |
| `Waits.CompleteAll` | include/serveza/listener.h:685-689 | the loop over the waiters completes each registered wait once with the terminal error, leaves all others alone and empties the list |
| `Sessions.RunKeepsInv` | include/serveza/listener.h:204-275 | however completion, throwing start and forced close race, a session stays accounted for and the first end decides its outcome |
| `Sessions.EventEnds` | include/serveza/listener.h:204-275 | each event on a session strand ends an unfinished session with exactly the code of the first end it brings (the handler call, the throw, the completion, the forced close) and changes nothing about a finished one |
| `Sessions.DeliverKeepsInv` | include/serveza/listener.h:588-608 | a session-finished task removes exactly one live session and keeps counter and list equal |
| `SessionObject.Session.Finish` | include/serveza/listener.h:265-275 | only the first caller ends the session and posts one notification |
| `SessionObject.Session.Start` | include/serveza/listener.h:204-219 | the start task: a handler called before a throw decides the outcome, otherwise the throw does, even if the handler was kept |
| `SessionObject.Session.Complete` | include/serveza/listener.h:211-213 | the completion of user code ends the session with the code it was given, unless it has ended |
| `SessionObject.Session.ForceClose` | include/serveza/listener.h:253-262 | a posted forced close ends the session as aborted unless it has ended |
| `AcceptorRefinement.StepSimulates` | include/serveza/listener.h:332-728 | every task, request, timer event and session event of the accepting listener is one abstract move or a stutter |
| `AcceptorRefinement.StepKeepsInv` | include/serveza/listener.h:332-728 | the invariant behind the theorems below is inductive for every step |
| `AcceptorTheorems.RunRefines` | include/serveza/listener.h:332-728 | every run of the accepting listener is a run of the abstract listener |
| `AcceptorTheorems.CapacityIsRespected` | include/serveza/listener.h:509-586 | in every reachable state sessions plus accepts in flight never exceed the limit and the published counter equals the number of sessions, across restarts and late timer callbacks |
| `AcceptorTheorems.RunningKeepsAccepting` | include/serveza/listener.h:509-608 | a running listener has an accept in flight, a retry armed or expired but still to run, or is full |
| `AcceptorTheorems.StoppingIsNeverStuck` | include/serveza/listener.h:615-667 | a stopping listener has something in flight, has asked every session to stop, and either the grace timer is still to act or each session ends without user code |
| `AcceptorTheorems.SessionsAreConserved` | include/serveza/listener.h:577-608 | every session ever started is live, or live with exactly one finish in flight, or gone with exactly one stopped event |
| `AcceptorTheorems.GenerationsAreIsolated` | include/serveza/listener.h:539-608 | a stopped listener has nothing in flight, and each accept completion and session end is processed in its own generation |
| `AcceptorTheorems.FirstEndWins` | include/serveza/listener.h:265-275 | over whole runs a session keeps its generation and, once ended, its outcome |
| `AcceptorTheorems.DrainNeverGrows` | include/serveza/listener.h:588-690 | while stopping no step adds load, each delivery removes one unit, and the step that removes the last one stops the listener |
| `AcceptorTheorems.RetriesAreBounded` | include/serveza/listener.h:692-702 | the retries armed since the last successful accept are those of failures 1, 2, 3, ... below the limit, each once, and their total delay is bounded, restarts included |
| `AcceptorTheorems.BudgetIsExact` | include/serveza/listener.h:692-700 | a running listener survives a transient failure iff the failures since its last successful accept, counted over restarts and including this one, are fewer than the limit |
| `AcceptorEffects.RunningStopsIff` | include/serveza/listener.h:509-728 | over whole runs, exactly which steps stop a running listener, and with which error and reason: a stop request, a permanent or exhausting accept error, an error of the retry timer, a throwing accept that was due |
| `AcceptorEffects.StartFailsWith` | include/serveza/listener.h:461-537 | a start of a listener that is down reports what opening or the first accept ran into, stops the listener with it, and is seen passing through exactly the states the code enters |
| `AcceptorEffects.AskedIffStopping` | include/serveza/listener.h:591-637 | in every reachable state a live session has been asked to stop iff the listener is stopping, so the end of one session leaves the others alone |
| `AcceptorEffects.SessionsChangeOnlyFor` | include/serveza/listener.h:566-606 | over whole runs, one session is added exactly by a connection for which the factory made one (not if it threw), one is taken off exactly by its own finish, and any other change to a session is an event of its own, the grace deadline or the listener going down |
| `AcceptorEffects.ForcedOnlyByGrace` | include/serveza/listener.h:649-650 | over whole runs, a forced close is queued for a session iff the grace deadline runs while it is live |
| `AcceptorEffects.OutcomeIsFirstEnd` | include/serveza/listener.h:204-275 | over whole runs, a session is finished iff some event brought it an end, and its outcome is the first of them |
| `AcceptorTimers.RetryTimerIsKept` | include/serveza/listener.h:692-720 | over whole runs, a retry is armed exactly by an accept error that is transient and within the budget, and disarmed by expiry or when the listener goes down |
| `AcceptorTimers.RetriesAreConserved` | include/serveza/listener.h:701-720 | in every reachable state the retries ever armed are those whose callback has run and those whose callback is still to come: armed, expired or cancelled |
| `AcceptorTimers.GraceTimerIsKept` | include/serveza/listener.h:636-652 | over whole runs, the step that begins to stop a running listener arms the grace timer iff sessions remain; it is disarmed by expiry or once the listener is stopped |
| `AcceptorLiveness.StoppingEventuallyStops` | include/serveza/listener.h:615-690 | in every fair infinite behaviour a stopping listener becomes stopped, with no assumption on user sessions or on clients |
| `AcceptorLiveness.StopRequestEventuallyStops` | include/serveza/listener.h:332-339 | from the moment a stop task is queued, in any state, the listener becomes stopped |
| `AcceptorLiveness.StopRequestEventuallyReleases` | include/serveza/listener.h:404-446 | once a stop task is queued every wait the listener has taken completes |
| `AcceptorLiveness.StopPostedIff` | include/serveza/listener.h:332-339 | a stop task is posted iff a request read a state other than stopped, nothing else changes then, and only running it uses it up |
| `AcceptorLimits.LateGraceIff` | include/serveza/listener.h:642-652 | sessions of the next generation can be force-closed by the previous grace deadline iff an expired callback has not run when the listener is stopped |
| `AcceptorLimits.LateGraceIsReachable` | include/serveza/listener.h:681-684 | a concrete run from a fresh listener reaches such a state |
| `AcceptorLimits.GivingUpSurvivesRestart` | include/serveza/listener.h:473-476 | for any options a run gives up, is restarted, and is ended by its first failure: the count outlives the generation |
| `AcceptorLimits.LaunchIsSoundIff` | include/serveza/listener.h:500-537 | a start leaves a listener that is stopped or will accept iff an exception in its first accept maps to an error or a retry callback of an earlier generation is still to run |
| `AcceptorLimits.AcceptFailureIsSoundIff` | include/serveza/listener.h:528-536 | a failed accept initiation ends the generation with matching error and reason iff the exception maps to an error |
| `AcceptorObject.AcceptorListener.constructor` | include/serveza/listener.h:309-325 | a new listener is idle, has nothing in flight and satisfies the invariant |
| `AcceptorObject.AcceptorListener.Finish` | include/serveza/listener.h:669-690 | error and reason recorded, both timers cancelled, stopped entered, every waiter released with the error |
| `AcceptorObject.AcceptorListener.MaybeFinish` | include/serveza/listener.h:662-667 | finishes exactly a stopping listener with no accept and no session |
| `AcceptorObject.AcceptorListener.AskSessions` | include/serveza/listener.h:636-637 | the loop asks exactly the live sessions to stop |
| `AcceptorObject.AcceptorListener.ForceSessions` | include/serveza/listener.h:649-650 | the loop queues one forced close for exactly the live sessions |
| `AcceptorObject.AcceptorListener.BeginStop` | include/serveza/listener.h:615-660 | from idle straight to stopped, from running to stopping with sessions asked and grace armed if there are any, otherwise nothing |
| `AcceptorObject.AcceptorListener.AcceptNext` | include/serveza/listener.h:509-537 | at most one accept in flight, none above the limit; a throw begins a stop and returns its code |
| `AcceptorObject.AcceptorListener.RetryAccept` | include/serveza/listener.h:692-728 | permanent errors and exhausted budgets stop the listener with the accept error as a runtime failure; otherwise exactly the capped exponential delay is armed |
| `AcceptorObject.AcceptorListener.RunStart` | include/serveza/listener.h:387-507 | the start task is the start step and keeps the invariant |
| `AcceptorObject.AcceptorListener.RunStop` | include/serveza/listener.h:610-613 | the stop task is the stop step and keeps the invariant |
| `AcceptorObject.AcceptorListener.Accepted` | include/serveza/listener.h:539-586 | the accept handler is the accept step and keeps the invariant |
| `AcceptorObject.AcceptorListener.SessionFinished` | include/serveza/listener.h:588-608 | the session-finished task, with its search by identifier, is the session-finished step and keeps the invariant, under which no session of a running listener has been asked to stop |
| `AcceptorObject.AcceptorListener.RetryFired` | include/serveza/listener.h:704-720 | the retry callback is the retry step, late or not, and keeps the invariant |
| `AcceptorObject.AcceptorListener.RetryAborted` | include/serveza/listener.h:706-709 | the callback of a cancelled retry keeps the invariant and can only finish a drained stop |
| `AcceptorObject.AcceptorListener.GraceFired` | include/serveza/listener.h:643-652 | the grace callback is the grace step, late or not, and keeps the invariant |
| `AcceptorObject.AcceptorListener.SubmitWait` | include/serveza/listener.h:427-441 | registering a wait is the submit step and keeps the invariant |
| `AcceptorObject.AcceptorListener.CancelWait` | include/serveza/listener.h:448-458 | cancelling a wait by identifier is the cancel step and keeps the invariant |
| `SocketTheorems.ClearedIsDelivered` | include/serveza/detail/basic_socket_listener.h:371-376 | the reset that names no session drops exactly the session that finished, which is of the current generation |
| `SocketTheorems.StepSimulates` | include/serveza/detail/basic_socket_listener.h:171-455 | every step of the single-session listener is one abstract move or a stutter |
| `SocketTheorems.StepKeepsInv` | include/serveza/detail/basic_socket_listener.h:171-455 | its invariant is inductive for every step |
| `SocketTheorems.RunRefines` | include/serveza/detail/basic_socket_listener.h:171-455 | every run of it is a run of the abstract listener |
| `SocketTheorems.OneSessionPerGeneration` | include/serveza/detail/basic_socket_listener.h:349-376 | a running listener has exactly one session, of its own generation, a stopped one none, and the counter agrees |
| `SocketTheorems.FinishEndsItsOwnSession` | include/serveza/detail/basic_socket_listener.h:371-394 | a session end is only ever processed for the session that is there and always stops the listener, with the session's error if running, with the earlier cause if stopping |
| `SocketEffects.StepStopsIff` | include/serveza/detail/basic_socket_listener.h:371-424 | exactly which steps stop a running listener, and with which error and reason: a stop request or the end of its session, with the outcome of that session |
| `SocketEffects.StartFailsWith` | include/serveza/detail/basic_socket_listener.h:307-369 | a start of a listener that is down reports what opening or the factory ran into and stops the listener with it, its sessions untouched; otherwise it runs with exactly one fresh session |
| `SocketEffects.StartIsSeen` | include/serveza/detail/basic_socket_listener.h:319-361 | such a start is seen starting and then running, or starting and then stopped |
| `SocketEffects.AskedIffStopping` | include/serveza/detail/basic_socket_listener.h:396-411 | in every reachable state a live session has been asked to stop iff the listener is stopping |
| `SocketEffects.SessionsChangeOnlyFor` | include/serveza/detail/basic_socket_listener.h:349-424 | over whole runs, a session is added exactly by a successful start and dropped exactly by a session end; any other change to it is an event of its own, the grace deadline or the stop task |
| `SocketEffects.OutcomeIsFirstEnd` | include/serveza/detail/basic_socket_listener.h:76-135 | over whole runs, a session is finished iff some event brought it an end, and its outcome is the first of them |
| `SocketEffects.GenerationEndsWithFirstEnd` | include/serveza/detail/basic_socket_listener.h:371-394 | end to end over whole runs: a generation that its session ends has as its error the first end that session ever had, as completed or as a runtime failure accordingly |
| `SocketLiveness.StoppingEventuallyStops` | include/serveza/detail/basic_socket_listener.h:396-449 | in every fair infinite behaviour a stopping listener becomes stopped whatever its session does |
| `SocketLiveness.StopRequestEventuallyStops` | include/serveza/detail/basic_socket_listener.h:171-178 | from the moment a stop task is queued the listener becomes stopped |
| `SocketEffects.StopPostedIff` | include/serveza/detail/basic_socket_listener.h:171-178 | a stop task is posted iff a request read a state other than stopped, and only running it uses it up |
| `SocketLimits.LateGraceIff` | include/serveza/detail/basic_socket_listener.h:412-422 | the next generation can meet the previous grace deadline iff an expired callback has not run when the listener is stopped |
| `SocketLimits.LateGraceIsReachable` | include/serveza/detail/basic_socket_listener.h:412-442 | a concrete run from a fresh listener reaches such a state |
| `SocketLimits.LateGraceEndsTheGeneration` | include/serveza/detail/basic_socket_listener.h:383-394 | the new generation then ends as an aborted runtime failure |
| `SocketLimits.StartReportsFaithfullyIff` | include/serveza/detail/basic_socket_listener.h:349-361 | a start reports success exactly when it leaves the listener running, iff an exception of the factory maps to an error |
| `SocketLimits.StrandedUntilStopped` | include/serveza/detail/basic_socket_listener.h:319-324 | if making the strand throws, starting stays visible, the start never completes and later ones are aborted, until a stop task brings the listener to stopped |
| `SocketObject.SocketListener.constructor` | include/serveza/detail/basic_socket_listener.h:155-169 | a new listener is idle, has no session and satisfies the invariant |
| `SocketObject.SocketListener.Finish` | include/serveza/detail/basic_socket_listener.h:431-449 | error and reason recorded, grace cancelled, stopped entered, every waiter released with the error |
| `SocketObject.SocketListener.RunStart` | include/serveza/detail/basic_socket_listener.h:232-369 | the start task is the start step and keeps the invariant |
| `SocketObject.SocketListener.RunStop` | include/serveza/detail/basic_socket_listener.h:396-424 | the stop task is the stop step and keeps the invariant |
| `SocketObject.SocketListener.SessionFinished` | include/serveza/detail/basic_socket_listener.h:371-394 | the session-finished task is the session-finished step and keeps the invariant |
| `SocketObject.SocketListener.GraceFired` | include/serveza/detail/basic_socket_listener.h:413-421 | the grace callback is the grace step, late or not, and keeps the invariant |
| `OperationGroup.OneKeepsTally` | src/server.cpp:213-240 | counting a child never drives the count below zero; the call that reaches zero completes the group, once, with the first error in lock order |
| `OperationGroup.StepKeepsInv` | src/server.cpp:174-255 | the group's invariant is inductive for every interleaving of initiation, completions, failures and cancelling threads |
| `OperationGroup.GroupCompletesOnce` | src/server.cpp:174-240 | for any number of children and any order: at most one completion, exactly when all children are counted, success iff all succeeded, else the first error; one stop fan-out iff there was an error and the group wants it |
| `OperationGroup.QuiescentGroupCompletedIff` | src/server.cpp:191-198 | a group with nothing left to run has completed iff no initiation failed with an exception that maps to no error |
| `OperationGroup.ResultIsAChilds` | src/server.cpp:213-240 | a completed group whose calls carry its children's codes succeeded iff every child did, and otherwise reports the code of one of them |
| `OperationGroup.CancellationReachesEveryChild` | src/server.cpp:177-255 | a cancellation overlapping the initiation loop reaches every initiated child with every kind that was asked for |
| `OperationGroup.EverySignalWasAskedFor` | src/server.cpp:185-255 | over whole runs a child is sent a kind only if some thread asked for it, and only once that thread has come to the child or the initiation loop has passed on its flag |
| `OperationGroupObject.OperationGroup.constructor` | src/server.cpp:145-160 | a new group owes one call per child |
| `OperationGroupObject.OperationGroup.One` | src/server.cpp:213-240 | the critical section: last caller completes with the first error, a stop is asked for at the first error only |
| `OperationGroupObject.OperationGroup.ChildDone` | src/server.cpp:179-180 | the completion of a child is the step that stands for it and keeps the invariant |
| `OperationGroupObject.OperationGroup.CountFailure` | src/server.cpp:195-197 | one round of the loop over initiation errors is the step that stands for it and keeps the invariant |
| `ServerControl.TraceIsInLanguage` | src/server.cpp:59-114 | for any number of interleaved calls the log of changes is a prefix of (stopping? stopped)? (starting running? stopping? stopped)*, ends in the current state, and has as many generations as the counter once pending increments land |
| `ServerControl.ChangesAreReportedOnce` | src/server.cpp:59-135 | each change is reported once by the call that made it, and nothing else is reported |
| `ServerControl.ResultsAreExplained` | src/server.cpp:59-114 | every result is that of an instant within the call: a start is accepted iff the server was then starting or running and turned away iff stopping; a finished start succeeds iff running and is aborted iff idle, stopping or stopped; a stop saw stopping or stopped, a wait stopped; errors handed in are handed back |
| `ServerControl.PublishesOwnGenerationIff` | src/server.cpp:86-92 | a finished start that publishes running does so for the generation of its own start iff the server has not been stopped since that start; otherwise for a later one |
| `ServerControl.LateFinishPublishesNextGeneration` | src/server.cpp:59-114 | a run: start, stop, end of a wait, start; then the finish of the first start publishes the second generation |
| `ServerControlObject.ServerControl.CompareExchange` | src/server.cpp:65 | the exchange changes and logs the state iff it wins, and reports the value found |
| `ServerControlObject.ServerControl.BeginStart` | src/server.cpp:59-71 | one round of the loop is the access that stands for it |
| `ServerControlObject.ServerControl.RequestStop` | src/server.cpp:95-106 | one round of the loop is the access that stands for it |
| `ServerControlObject.ServerControl.FinishStart` | src/server.cpp:86-92 | publishing is the access that stands for it |
| `ServerControlObject.ServerControl.FinishWait` | src/server.cpp:108-114 | stopping by exchange is the access that stands for it |
| `ServerControlObject.ServerControl.BumpGeneration` | src/server.cpp:66 | the winner of a start counts its generation |
| `ServerControlObject.ServerControl.Emit` | src/server.cpp:123-135 | whoever changed the state reports that change, and returns its own result |
| `ServerControlObject.ServerControl.Advance` | src/server.cpp:59-114 | every access of every call, from any point to the next, is the access of the transition system |
| `ServerWait.StepKeepsInv` | src/server.cpp:408-425 | the composition of a group with listeners on their own strands keeps its invariant for every step: in particular a child's wait is marked as cancelled iff the child was sent a signal, by a cancelling thread or by the initiation loop |
| `ServerWait.ServerWaitSawEveryStop` | src/server.cpp:408-425 | a wait completes at most once; each child then failed to be initiated, was cancelled, or saw its listener stopped at an instant since the wait was issued; if nobody cancelled, every initiated child did; success iff every code is none, and otherwise the result is the code of one of the children |
| `ServerWait.ReleasedChildSawStop` | src/server.cpp:177-182 | child by child, whatever was cancelled or failed: a wait that did not end as cancelled saw its listener stopped with the very code it reports |
| `ServerWait.CancelledChildEnds` | src/server.cpp:185-255 | over whole runs, once a cancelling thread and the initiation loop are past a child, its wait is cancelled: it has completed, or a task that is queued for it completes it as cancelled |
| `ServerWait.UncancelledWaitIsLeftAlone` | src/server.cpp:185-255 | over whole runs, if nobody cancels the server wait no child's wait is cancelled |
| `ServerWait.CancelledWaitPromisesNothing` | src/server.cpp:242-255 | for every running listener there is a run in which a cancelled wait on it completes and the listener never left running |
| `ServerLiveness.ServerWaitCompletesIff` | src/server.cpp:408-425 | with real listeners of either kind: once each has a stop task queued, every fair behaviour brings the wait to rest with all launched children counted, and it has then completed iff no initiation failed with an exception that maps to no error; restarts are allowed once a wait has been submitted |
| `ServerLiveness.CancelledServerWaitCompletesIff` | src/server.cpp:242-255 | once a thread has begun to cancel the wait, every fair behaviour brings it to rest with all launched children counted, whatever the listeners do, and it has then completed iff no initiation failed with an exception that maps to no error |
| `FinishedWait.StepKeepsInv` | src/server.cpp:408-425 | wait and lifecycle together keep their invariant; the wait finishes only by its group and with its result |
| `FinishedWait.StoppedByWaitAfterListeners` | src/server.cpp:413-414 | a wait changes the state only to stopped, and before it makes the call each child has failed, been cancelled or seen its listener stopped; all initiated ones have if nobody cancelled |
| `FinishedWait.StoppedServerRunningListener` | src/server.cpp:108-114 | for every running listener and every state of the server there is a run that ends with the server stopped and the listener running |
| `Strands.CanEndRunningIff` | include/serveza/listener.h:332-339 | a strand to which nothing more is posted can end with a running listener iff no stop is queued behind its last start |
| `StrandTasks.AcceptorRunsTask` | include/serveza/listener.h:461-613 | a start or stop task of the accepting listener is a move the strand allows for the task at its head |
| `StrandTasks.AcceptorByItself` | include/serveza/listener.h:509-728 | everything else the accepting listener does is a move the strand allows at any time: it never starts and, while idle, never stops |
| `StrandTasks.SocketRunsTask` | include/serveza/detail/basic_socket_listener.h:307-424 | the same for the start and stop tasks of the single-session listener |
| `StrandTasks.SocketByItself` | include/serveza/detail/basic_socket_listener.h:371-449 | the same for everything else it does |
| `ServerStart.StepKeepsInv` | src/server.cpp:380-406 | lifecycle, group, strands and all asking threads keep their joint invariant for every step |
| `ServerStart.EveryListenerIsAsked` | src/server.cpp:404-405 | between the look after the loop and the stop request nobody is missed: once both are through, every listener has been asked to stop after its start was posted |
| `ServerStart.LostOnlyIfFoundStopped` | include/serveza/listener.h:334 | a listener that can still end up running then was found stopped by every request since its start was posted, and no stop was posted |
| `ServerStart.LateFailureAsksEveryListener` | src/server.cpp:221-232 | a first error after the loop makes the group ask every listener after its start was posted |
| `ServerStart.StartSucceedsIff` | src/server.cpp:384-385 | a finished start succeeded iff every child did and the server was running at an instant within the finishing call |
| `ServerStart.StartResultIsAChilds` | src/server.cpp:174-240 | from any beginning and through any run, the result of the start group is success iff every child started, and otherwise what one of them reported |
| `ServerStart.StoppedStartIsAborted` | src/server.cpp:76-92 | if a stop request had seen its stop by then, the start reports aborted when every child succeeded and the first error of a child otherwise |
| `ServerPrecedence.SafeStartIsStopped` | src/server.cpp:323-331 | a start posted to an idle listener with an empty queue, or ahead of a stop about to be posted, cannot outlive a stop request, for any number of listeners and any interleaving |
| `ServerPrecedence.UnsafeStartCanRun` | include/serveza/listener.h:332-339 | from every other reachable situation the run can go on so that everybody has asked and the listener runs |
| `ServerPrecedence.StopTakesPrecedenceIff` | src/server.cpp:404-405 | so a stop is sure to prevail iff one of those two holds when the start is posted |
| `ServerPrecedence.StopIsLostOnRestart` | include/serveza/listener.h:334 | a run from the beginning of the start for every stopped listener |
| `ServerPrecedence.StopIsLostOnFirstStart` | include/serveza/listener.h:334 | a run from the beginning of the start for every idle listener, with the request ahead of the start |
| `ServerPrecedence.EarlyFailureMissesLaterListener` | src/server.cpp:177-198 | if the group has failed and asked before it starts a listener, that listener can run unasked under the failed start |
| `ServerPrecedence.EarlyFailureIsReachable` | src/server.cpp:177-232 | a run with two listeners that gets there |
| `Backoff.AcceptRetryDelay` | src/listener.cpp:123-133 | the loop returns min(base * 2^(k-1), cap), forms no value above the cap, and with a positive base iterates at most log2(cap / base) + 1 times however many failures there were |
| `Backoff.DoublingsBelowCap` | src/listener.cpp:126-131 | the doublings that stay below the cap number at most the logarithm of cap / base |
| `Backoff.RetryDelayMonotone` | src/listener.cpp:123-133 | delays never shrink as failures accumulate and stay within the cap |
| `Backoff.RetryDelayDoubles` | src/listener.cpp:123-133 | the first delay is the base, and each further one twice the one before, capped |
| `Backoff.TotalDelayBounded` | src/listener.cpp:123-133 | the time armed by n successive retries is at most n caps |
| `Observers.KeptIsFiltered` | src/observer_registry.cpp:75-84 | removal drops exactly the entries with the identifier |
| `Observers.RemovedKeepsInv` | src/observer_registry.cpp:75-84 | removal keeps registration order and unregisters exactly that identifier |
| `Observers.AddedKeepsInv` | src/observer_registry.cpp:67-73 | a new registration gets an identifier never used before and goes last, with its own observer, behind all others as they were |
| `Observers.RegistrationsAreOwned` | src/observer.cpp:36-61 | under any sequence of observing, moving (onto itself too), resetting and destroying, the registered identifiers are exactly those held, none held twice |
| `Observers.StepOnRegistrations` | src/observer.cpp:36-61 | only observing registers, only what a step gives up is unregistered, a move hands the registration over, and no other subscription is touched |
| `Observers.AllGoneMeansEmpty` | src/observer.cpp:36-39 | with every subscription gone nothing stays registered |
| `ObserverObjects.ObserverRegistry.Add` | src/observer_registry.cpp:67-73 | appends a registration under a fresh identifier |
| `ObserverObjects.ObserverRegistry.Remove` | src/observer_registry.cpp:75-84 | erases the identifier and keeps the order of the rest |
| `ObserverObjects.ObserverRegistry.CallAll` | src/observer_registry.cpp:46-51 | the loop with its inner catch: a throw cuts short one call and the rest are made |
| `ObserverObjects.ObserverRegistry.Snapshot` | src/observer_registry.cpp:38-43 | the copy taken under the lock holds the registered observers, each at its own position |
| `ObserverObjects.ObserverRegistry.NotifyEach` | src/observer_registry.cpp:34-53 | the i-th call goes to the i-th observer registered on entry, and there are as many calls as registrations, whatever each call registers, unregisters or notifies in its turn and wherever it throws; the throws are swallowed and end only their own call |
| `ObserverObjects.Subscription.Reset` | src/observer.cpp:55-61 | gives up exactly its own registration, once; an empty subscription changes nothing |
| `ObserverObjects.Subscription.MoveAssign` | src/observer.cpp:46-53 | releases what it held, takes over what the other held, and moving onto itself changes nothing |

## Left out

- Opening, binding, listening, socket options and endpoint formatting: foreign calls, present as error parameters.
- Boost.Asio internals, associated executors and allocators, work tracking and the completion helpers: a completion is one entry in a list of results.
- Session adapters (callback, yield, awaitable) and session contexts: thin wrappers.
- Failures of posting or allocating, except the initiation errors the operation group records.
- Memory-order detail and mutex fairness.
- Diagnostics (last error and exception), and observer events other than state changes and stopped sessions.
- `server_control::status`, option validation and the transient-error table on their own: easy members, used as definitions.
- Cancelling a server start while a stop runs against it; that a failed start leaves every listener stopped is not claimed, because a child can fail while later starts are still being issued.
- Listeners added to a server, or started by others, while it starts or waits.
- A server wait or start with no listeners: it finishes at once.
- 64-bit wrap-around of identifiers and counters.
- AcceptorObject.AcceptorListener: related fields are grouped into records and session objects are kept by identifier in a map, so aliasing between a session and its listener is not captured.
- SocketObject.SocketListener: submitting and cancelling waits is the same code as in the accepting listener and is not repeated in this class.
- ServerControlObject.ServerControl: a compare-and-exchange loop is modelled one access at a time, since other threads act between accesses; it has no bound on retries.
- OperationGroupObject.OperationGroup: the initiation loop and the cancelling threads are in the transition system only.
- ObserverObjects.ObserverRegistry.NotifyEach: does not model the mutex that serialises callbacks of different threads.
- SocketTheorems.StepSimulates: assumes that making the strand of a new socket does not throw, because nothing catches it; `SocketLimits.StrandedUntilStopped` treats that case apart.
- SocketTheorems.StepKeepsInv: the same assumption.
- SocketTheorems.RunRefines: the same assumption.
- SocketObject.SocketListener.RunStart: the same assumption.
- Destruction of listeners and servers; examples, tests and build files.
