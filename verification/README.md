# A verified model of upq

upq is a coroutine client for PostgreSQL on top of libpq: a connection pool,
pooled statements and transactions with retries, LISTEN/NOTIFY multiplexing,
streaming results, and codecs for the texts and frames it exchanges with a
server. This project models the parts of it whose correctness depends on more
than one function at a time, and proves what they promise.

Each stateful part is written twice. A protocol on values says what every
critical section or atomic step does; runs are sequences of enabled events, so a
theorem about every run is a theorem about every interleaving. A class with the
source's own fields and loops is then proved to take exactly those steps: its
`View()` after a call is the protocol step of its `View()` before. What the
outside world decides (does a send succeed, what does the server answer, when
does a connection die, what time is it) is an argument of the event or of the
call, and is never restricted beyond what the text below says.

| file | part of the client |
|---|---|
| SubscriptionProtocol, Multiplexer, HandlerResults, Registrations | LISTEN/UNLISTEN bookkeeping of the notification multiplexer |
| ChannelQueue | per-channel limit on handler runs |
| PoolProtocol, PoolProgress, Pool | acquire, release and retirement of pooled connections |
| Traffic | connections taken from the pool and how they leave again |
| RetryPolicy, RetryBounds | failure classes, retry decisions, backoff and budget |
| PooledStatement | a statement run on a pooled connection, with its retries |
| Transaction, RunTx | transaction objects, savepoints, and `run_tx` |
| SleepBounds, BudgetCoverage | all backoff of a `run_tx`, and when its budget covers it |
| ResultCollection | collecting the results of a statement |
| CopyLines | COPY TO read line by line |
| RowStream, Pipeline | cursor streams and the adaptors over them |
| TextFold | quoting, and running an automaton over a text, shared by the two text codecs |
| ArrayLiteral | array literals |
| ConnInfo | connection strings |
| Blocks, Wire, WireRows | frames, DataRow and RowDescription |
| Sequences | facts about sequences that several files use |
| CircuitBreaker, Routing | node health, breakers and node choice |

## What is proved

- **Subscriptions converge.** Over every interleaving of registrations,
  removals, send failures, replies, connection losses and reconnects, a quiet
  multiplexer is subscribed to exactly the channels that have handlers, as many
  answers as there are queued commands suffice to become quiet, and no command
  is ever lost or completed twice. The exception is what the server refused in the
  current session: `RefusedUnlistenStays` gives the run in which a refused UNLISTEN
  is never sent again. A reconnect heals that too, and no state is beyond recovery. The
  handlers of a channel are those added and not taken away since, in the order in which
  they were added, and commands are settled in the order of their issue.
- **No wake-up of the pool is lost.** If a task is parked and nobody is about to
  look, count or release, there is no idle connection and no free slot. The
  counter is the number of connections created and not retired, each of them is
  in exactly one place, releasing one always finds room, and calls of `mark_dead`
  that overlap on one connection decrement the counter once. A parked task can always
  be served in a few steps of itself and one other task, if the limit is not zero; but
  nothing guarantees those steps, and others may overtake it any number of times.
- **Retries are bounded and do not repeat effects.** At most twice the
  configured attempts; by default at most one effect per statement and at most
  one commit per `run_tx`, over every sequence of outcomes; and what may be repeated
  is, as often as its counter and budget allow.
- **Connections leave as they should.** Every connection taken leaves once: closed if it
  or its session is spent, back to the pool if it is sound.
- **Grouping never matters.** Not how readiness groups results, how COPY data is
  cut, how rows are batched, or how a socket fragments a frame.
- **Codecs come back.** Array literals, connection strings, queries, rows and
  descriptions are read back as written, and the cases where they are not are
  given exactly.
- **A failed node stays out** until a passing check at or after its deadline,
  and is closed again after exactly two such checks.

Promises the code does not keep are stated with the exact condition under which
it does:

- "At most `channel_queue_capacity` handler runs in flight" holds if and only if
  every notification goes to one handler (`DocumentedBoundHoldsIff`); what the
  limit does bound is in `LimitBoundsNotifications`.
- A retry budget withholds only retries that would start after it if and only if
  its end fits 64 bits; beyond that no retry is made (`BudgetWithholdsOnlyLateRetriesIff`).
- "All within `retry_budget_ms`" holds of the backoff between the attempts of a
  `run_tx`, but `begin()` and the statements of an emulated transaction back off
  without looking at the budget (`TwoFailedBegins` is a call that sleeps 800 ms
  whatever its budget). All backoff together exceeds the budget by no more than that
  inside the last attempt (`OvershootsByOneAttempt`). A real transaction always stays
  below the budget if and only if the budget exceeds the most there is
  (`BudgetCoversIff`, when one BEGIN may sleep as long as any delay after a rollback,
  as it may by default); an emulated one if and only if there is one attempt or no
  delay (`EmulatedCoversIff`).
- Delays are the documented ones if and only if the largest of each kind fits 32
  bits (`NoDelayWrapsIff`).
- An array literal is read back if and only if the list is not empty (`RoundTrip`).
- A simple query is framed whole if and only if it fits the payload limit
  (`QueryRoundTrip`); past 32 bits the stream falls out of step (`HugeQueryIsCutShort`).
- A connection lost in the middle of a reply is classed as lost if and only if no
  error was read before the loss, or the SQLSTATE of the last one says nothing
  else (`LossIsClassedLostIff`): `run_query` clears the rows of a failed exchange
  but keeps that SQLSTATE. `DeadlockHidesTheLoss` is a run in which it matters.
- The string `connect_async` passes on names a timeout if and only if it named one
  before or ends where an entry can follow (`PassedOnNamesTimeoutIff`);
  `TimeoutIsLost` is a string for which it does not.

One more promise is not kept, and the condition given for it is sufficient only: a handle
does not always mean a subscription. `RefusedListenStrandsSecond` is a run in which a
second handler is left on a channel whose LISTEN was refused. At rest every registered
channel is subscribed unless the server refused its last statement (`Convergence`), and a
reconnect repairs the rest (`RecoversAfterReconnect`). A refusal does not decide the
matter the other way: `RefusedYetSubscribed` is a run at rest with a channel registered,
refused and subscribed.

## Model

| member | source | states |
|---|---|---|
| SubscriptionProtocol.StepKeeps | include/upq/PgNotificationMultiplexer.h:108-490 | every critical section keeps each channel tracked: subscribed as registered, or owed a queued command of the right direction |
| SubscriptionProtocol.RunKeeps | include/upq/PgNotificationMultiplexer.h:108-490 | the invariant over whole runs |
| SubscriptionProtocol.DisagreementIsQueued | include/upq/PgNotificationMultiplexer.h:359-397 | while in service, server and registrations disagree on a channel only if a correcting command is queued or the server refused its last statement |
| SubscriptionProtocol.Convergence | include/upq/PgNotificationMultiplexer.h:359-490 | quiet means subscribed to exactly the registered channels, up to refused ones |
| SubscriptionProtocol.ConvergenceWhenAccepted | include/upq/PgNotificationMultiplexer.h:359-490 | quiet means exactly the registered channels when the server accepted what it answered in the current session, whatever happened in earlier ones |
| SubscriptionProtocol.RefusedUnlistenStays | include/upq/PgNotificationMultiplexer.h:400-423 | a concrete run: a refused UNLISTEN completes, is not repeated, and the subscription stays |
| SubscriptionProtocol.RunLedger | include/upq/PgNotificationMultiplexer.h:370-432 | commands issued stay in the books, with distinct identities, and finished ones stay finished |
| SubscriptionProtocol.CommandsNeverLostOrDoubled | include/upq/PgNotificationMultiplexer.h:370-432 | across any connection losses a command is in exactly one of the queue, the in-flight slot and the finished ones |
| SubscriptionProtocol.FullReplyShrinks | include/upq/PgNotificationMultiplexer.h:400-423 | a complete reply strictly reduces the outstanding commands, even if the next send fails |
| SubscriptionProtocol.RunNeverStalls | include/upq/PgNotificationMultiplexer.h:370-423 | in service, queued commands always have a statement in flight ahead of them |
| SubscriptionProtocol.SettlesAfterBacklog | include/upq/PgNotificationMultiplexer.h:370-423 | from any reachable state in service every stretch of wake-ups, with replies cut in any way, sends that succeed and no refusal, that brings as many ends of reply as there are commands outstanding reaches the registered subscriptions, outside the channels refused by then |
| SubscriptionProtocol.RecoversAfterReconnect | include/upq/PgNotificationMultiplexer.h:447-490 | from any reachable state without a connection a reconnect whose re-LISTENs are accepted, followed by any such stretch, reaches exactly the registered channels, past refusals included |
| SubscriptionProtocol.CanLoseConnection | include/upq/PgNotificationMultiplexer.h:215-226 | every state after run() is at most two events from one without a connection |
| SubscriptionProtocol.AlwaysRecoverable | include/upq/PgNotificationMultiplexer.h:193-490 | from every reachable state after run() some continuation without new registrations reaches exactly the registered channels |
| SubscriptionProtocol.OneStatementAtATime | include/upq/PgNotificationMultiplexer.h:359-490 | a queued statement is on the wire only in service, never beside a re-LISTEN or a direct LISTEN |
| HandlerResults.CompletionMeans | include/upq/PgNotificationMultiplexer.h:370-423 | the event that completes a LISTEN leaves its channel refused if it failed, and otherwise subscribed or without handlers |
| HandlerResults.HandleMeans | include/upq/PgNotificationMultiplexer.h:138-155 | over every run, the result a caller reads for a queued LISTEN was decided at one event, stands from then on, and meant refused, subscribed or no handlers at that moment |
| HandlerResults.DirectHandleMeans | include/upq/PgNotificationMultiplexer.h:144-148 | over every run, the answer to a LISTEN sent before run() means subscribed, then and until run() begins, or refused |
| HandlerResults.NothingStaysRegistered | include/upq/PgNotificationMultiplexer.h:147-153 | after the cleanup of a failed registration the handler is on its channel no more, in every reachable state |
| HandlerResults.RefusedListenStrandsSecond | include/upq/PgNotificationMultiplexer.h:135-153 | a run in which a second handler keeps its handle on a channel that is at rest and not subscribed, because the first one's LISTEN was refused |
| HandlerResults.RefusedYetSubscribed | include/upq/PgNotificationMultiplexer.h:400-423 | a run at rest whose channel is registered, refused and still subscribed: a refused UNLISTEN and then a refused LISTEN |
| Registrations.StepHandlers | include/upq/PgNotificationMultiplexer.h:108-191 | one event: a new handler comes last and the others stay; a removal touches only the handler or the channel it names |
| Registrations.HandlersAreStanding | include/upq/PgNotificationMultiplexer.h:108-191 | over every run the handlers of a channel are those added to it and not taken away since, in arrival order |
| Registrations.RegisteredIff | include/upq/PgNotificationMultiplexer.h:108-191 | a handler is registered exactly when it was added and neither it nor its channel was removed since |
| Registrations.IssuedExactlyWhen | include/upq/PgNotificationMultiplexer.h:117-191 | a LISTEN is queued for a channel's first handler, an UNLISTEN when the last one goes, and nothing else issues a command |
| Registrations.SettledInOrder | include/upq/PgNotificationMultiplexer.h:370-433 | over every run, connection losses included, commands are settled in the order of their issue |
| Multiplexer.Mux.constructor | include/upq/PgNotificationMultiplexer.h:565-575 | starts in the protocol's initial state |
| Multiplexer.Mux.StartNextCommand | include/upq/PgNotificationMultiplexer.h:370-395 | refines StartNext: superseded commands complete unsent, the first current one is sent or put back |
| Multiplexer.Mux.NextHandlerId | include/upq/PgNotificationMultiplexer.h:109 | ids are drawn outside the lock, each once |
| Multiplexer.Mux.AddExact | include/upq/PgNotificationMultiplexer.h:117-134 | refines the AddHandler event for any id drawn before: the handler is appended to those of its channel; tells whether it is the first |
| Multiplexer.Mux.AddHandler | include/upq/PgNotificationMultiplexer.h:108-137 | wildcards touch only the wildcard table; on an exact channel the handler joins the others and the AddHandler event is refined |
| Multiplexer.Mux.EraseFrom | include/upq/PgNotificationMultiplexer.h:329-337 | removes the first handler with the id, leaves the others in place, and says whether there was one |
| Multiplexer.Mux.QueueUnlistenLocked | include/upq/PgNotificationMultiplexer.h:359-362 | refines QueueUnlisten |
| Multiplexer.Mux.RemoveHandler | include/upq/PgNotificationMultiplexer.h:161-178 | refines EraseHandler for exact channels; a wildcard without handlers is dropped, and nothing changes when the id is not found |
| Multiplexer.Mux.RemoveChannel | include/upq/PgNotificationMultiplexer.h:180-191 | refines RemoveChannel |
| Multiplexer.Mux.DirectListenAnswered | include/upq/PgNotificationMultiplexer.h:144-148 | refines the answer to a LISTEN sent before run() |
| Multiplexer.Mux.StartRunLoop | include/upq/PgNotificationMultiplexer.h:193-212 | run() takes over exactly when no direct LISTEN is pending |
| Multiplexer.Mux.FinishInflight | include/upq/PgNotificationMultiplexer.h:411-418 | the end of a reply completes the statement in flight |
| Multiplexer.Mux.ReadReply | include/upq/PgNotificationMultiplexer.h:410-421 | the reply loop refines ReadReplies |
| Multiplexer.Mux.DrainReplies | include/upq/PgNotificationMultiplexer.h:410-423 | refines Drain: results up to the end of the reply, then the next command |
| Multiplexer.Mux.ConnectionLost | include/upq/PgNotificationMultiplexer.h:427-433 | the statement in flight goes back to the front of the queue |
| Multiplexer.Mux.CollectNames | include/upq/PgNotificationMultiplexer.h:479-484 | the names collected are the registered channels, each once |
| Multiplexer.Mux.SnapshotChannels | include/upq/PgNotificationMultiplexer.h:478-484 | refines Reconnect with the names collected: every channel registered then is to be LISTENed to, on a session without subscriptions |
| Multiplexer.Mux.NextToRelisten | include/upq/PgNotificationMultiplexer.h:485-486 | the next channel of the list that has no answer yet |
| Multiplexer.Mux.RelistenAnswered | include/upq/PgNotificationMultiplexer.h:485-488 | refines Relisten: an acceptance advances in the list, a refusal starts the reconnect over |
| Multiplexer.Mux.ResubscribeAll | include/upq/PgNotificationMultiplexer.h:478-490 | without registrations in between it succeeds exactly when every LISTEN is accepted, and then the session has exactly the registered channels |
| Multiplexer.Mux.BackInService | include/upq/PgNotificationMultiplexer.h:460-469 | service resumes after the last re-LISTEN, with the next command |
| ChannelQueue.RunKeeps | include/upq/PgNotificationMultiplexer.h:506-549 | the queue's accounting holds over every run |
| ChannelQueue.DeliversInOrder | include/upq/PgNotificationMultiplexer.h:517-549 | notifications start in arrival order, none dropped, and what waits has runs ahead of it |
| ChannelQueue.LimitBoundsNotifications | include/upq/PgNotificationMultiplexer.h:517-523 | at most `limit` notifications are being handled; the runs stay below the limit plus the handlers of the last one started; limit 1 means one notification at a time |
| ChannelQueue.BoundIsTight | include/upq/PgNotificationMultiplexer.h:517-523 | limit - 1 + h runs are reached, for every limit and number of handlers |
| ChannelQueue.DocumentedBoundHoldsIff | include/upq/PgNotificationMultiplexer.h:50-56 | the documented bound on runs holds exactly with one handler per notification |
| ChannelQueue.Queue.TakeReadyLocked | include/upq/PgNotificationMultiplexer.h:517-523 | refines TakeReady and returns what it started |
| ChannelQueue.Queue.Dispatch | include/upq/PgNotificationMultiplexer.h:506-512 | refines an arrival |
| ChannelQueue.Queue.RunFinished | include/upq/PgNotificationMultiplexer.h:544-550 | refines the end of a handler run |
| PoolProtocol.StepKeeps | src/upq/PgPool.cpp:102-234 | every atomic step keeps connections placed, counted and matched with permits |
| PoolProtocol.RunKeeps | src/upq/PgPool.cpp:102-234 | the invariant over every interleaving |
| PoolProtocol.NoLostWakeup | src/upq/PgPool.cpp:125-189 | a parked task with nobody on the way means no idle connection and no free slot |
| PoolProtocol.Conservation | src/upq/PgPool.cpp:102-234 | the counter is created minus retired and within the limit; each connection is idle once, with one task, or on its way out with nobody |
| PoolProtocol.ReleaseAlwaysFits | src/upq/PgPool.cpp:174-189 | a released connection always finds room in the idle queue |
| PoolProtocol.DecrementsOnce | src/upq/PgPool.cpp:219-234 | over every run, with calls of mark_dead overlapping in any way, the decrements for a connection number one if it is retired and none otherwise |
| PoolProtocol.NeverBelowZero | src/upq/PgPool.cpp:232 | a decrement never finds the counter at zero |
| PoolProtocol.FlagIsContended | src/upq/PgPool.cpp:222-228 | a run in which two calls of mark_dead reach the free flag of one connection |
| PoolProtocol.HeldIsAlive | src/upq/PgPool.cpp:144-189 | a connection being dialed or in use has not been accounted dead |
| PoolProtocol.ParkedWaitsForOwners | src/upq/PgPool.cpp:133-140 | when a parked task waits with nobody on the way, each connection of the pool has one owner among the tasks or is on its way out |
| PoolProgress.ParkedCanBeServed | src/upq/PgPool.cpp:102-234 | from every reachable state of a pool with a positive limit, at most eleven steps of a parked task and of one other task in the pool end with it holding a connection |
| PoolProgress.ParkedCanBeOvertaken | src/upq/PgPool.cpp:102-189 | from every reachable state with a parked task, a holder and nothing to spare, for every n some continuation wakes the task n times and leaves it parked each time, because a caller from outside takes the connection before the permit is released |
| PoolProgress.RoundsRun | src/upq/PgPool.cpp:102-189 | two such rounds lead back to the same state |
| PoolProgress.ContendedIsReached | src/upq/PgPool.cpp:102-189 | a state of that kind is reached with one connection and two tasks |
| PoolProgress.EmptyPoolServesNobody | src/upq/PgPool.cpp:102-189 | with limit zero no task ever holds a connection |
| Pool.PgPool.constructor | src/upq/PgPool.cpp:102-234 | an empty pool with no history |
| Pool.PgPool.TryDequeue | src/upq/PgPool.cpp:104-119 | one look at the idle queue is one protocol step |
| Pool.PgPool.LoadLiveCount | src/upq/PgPool.cpp:134 | the counter load is one protocol step |
| Pool.PgPool.CompareExchangeLive | src/upq/PgPool.cpp:141-143 | the exchange wins exactly when the counter is still what was seen |
| Pool.PgPool.SemaphoreAcquire | src/upq/PgPool.cpp:137 | a permit is taken, or the task parks |
| Pool.Dial | src/upq/PgPool.cpp:148-160 | the retry loop succeeds exactly when the string can be built and some try connects after only failed and slept-over ones |
| Pool.PgPool.Connect | src/upq/PgPool.cpp:144-168 | dialing ends in a held or a condemned connection |
| Pool.PgPool.ExchangeDeadFlag | src/upq/PgPool.cpp:222-228 | the first to set the dead flag wins |
| Pool.PgPool.FetchSubLive | src/upq/PgPool.cpp:232 | the counter drops by one and was positive |
| Pool.PgPool.SemaphoreRelease | src/upq/PgPool.cpp:188-233 | a release wakes one parked task or leaves a permit |
| Pool.PgPool.TryEnqueue | src/upq/PgPool.cpp:183-188 | the connection is appended to the idle queue: there is always room |
| Pool.PgPool.MarkDead | src/upq/PgPool.cpp:219-234 | the first call retires the connection, later ones change no counter |
| Pool.PgPool.TakeIdle | src/upq/PgPool.cpp:102-123 | the first healthy idle connection; every one before it is dead |
| Pool.PgPool.CreateConnection | src/upq/PgPool.cpp:141-168 | a slot still free becomes a new connection or is given back; one taken meanwhile sends the task back to look |
| Pool.PgPool.AcquireConnection | src/upq/PgPool.cpp:125-169 | the first healthy idle connection; without one a new connection if the pool has room and it connects, a failure or the park otherwise, and the stale ones are retired |
| Pool.PgPool.ReleaseConnection | src/upq/PgPool.cpp:174-189 | a healthy connection becomes idle, another is retired and the counter drops by one |
| RetryPolicy.MatchesAt | include/upq/PgRetry.h:52-60 | one position compared ignoring ASCII case |
| RetryPolicy.IContains | include/upq/PgRetry.h:49-64 | substring search in the lower-cased texts |
| RetryPolicy.MatchesMarker | include/upq/PgRetry.h:69-88 | some marker occurs in the message |
| RetryPolicy.TransientIsNotStarted | include/upq/PgPool.h:60-63 | the pool's test for a transient pooler error agrees with the NotStarted class |
| RetryPolicy.ClassMeans | include/upq/PgRetry.h:90-122 | what each class says of a failure's state, code, text and deadline, as equivalences |
| RetryPolicy.AllowedIff | src/upq/PgPool.cpp:238-261 | which classes are run again, scope by scope |
| RetryPolicy.GrantedIff | src/upq/PgPool.cpp:238-287 | without a budget a retry is granted exactly when its class may be retried and its counter has not run out, with the delay of its class |
| RetryPolicy.RetryBudget.NextRetryDelay | src/upq/PgPool.cpp:238-287 | the delay and the counters charged, as functions of the budget before |
| RetryPolicy.Tripled | src/upq/PgPool.cpp:264-267 | the tripling loop is the power in 32-bit arithmetic |
| RetryBounds.RetriesBounded | src/upq/PgPool.cpp:261-281 | at most twice the configured attempts, whatever the failure classes |
| RetryBounds.RetriesBoundIsTight | src/upq/PgPool.cpp:261-281 | that many retries do occur |
| RetryBounds.BackoffBounded | src/upq/PgPool.cpp:261-281 | closed-form bound on all backoff of a call, wrapping included |
| RetryBounds.NoDelayWrapsIff | src/upq/PgPool.cpp:264-277 | delays are the documented products exactly when the largest of each kind fits 32 bits |
| RetryBounds.BudgetComparison | src/upq/PgPool.cpp:283-285 | what the 64-bit comparison decides |
| RetryBounds.BackoffWithinBudget | src/upq/PgPool.cpp:283-285 | all backoff of a call together stays below its budget |
| RetryBounds.BudgetWithholdsOnlyLateRetriesIff | src/upq/PgPool.cpp:283-285 | only late retries are withheld exactly when the end of the budget fits 64 bits |
| PooledStatement.EffectsBounded | include/upq/PgPool.h:659-700 | effects of the remaining attempts are at most one plus the risky reruns left |
| PooledStatement.AtMostOnce | include/upq/PgPool.h:659-700 | one effect by default, two with connection-loss retries, three when idempotent |
| PooledStatement.ThreeEffectsPossible | include/upq/PgPool.h:659-700 | an outcome sequence with three effects |
| PooledStatement.AttemptsWithinPotential | include/upq/PgPool.h:659-700 | at least one attempt, and no more than the budget's potential allows |
| PooledStatement.RetriedIff | include/upq/PgPool.h:680-700 | a failed statement is run again exactly when it never started, or the options allow it, and the counter of its class lasts |
| PooledStatement.LostIsRepeatedOnce | include/upq/PgPool.h:680-700 | a statement that loses its connection each time is run twice if the caller asked for it, else once |
| PooledStatement.CutShortIsLast | include/upq/PgPool.h:693-694 | a canceled sleep ends the call |
| PooledStatement.ClosedIffSpent | src/upq/PgPool.cpp:207-217 | a connection is closed exactly when it is down, or the failure is one of the connection, of a passed deadline, or of a session that ended or never began |
| PooledStatement.GoodIsNotSpent | src/upq/PgPool.cpp:207-217 | one that is up after a success or an ordinary server error is not |
| PooledStatement.WaitsOfAttempts | include/upq/PgPool.h:688-697 | the delays granted in a call are those of all its attempts but the last, and of the last one when its sleep was cut short |
| PooledStatement.WaitsAreGranted | src/upq/PgPool.cpp:238-287 | each of them is granted by the policy with the counters reached so far |
| PooledStatement.CallBackoffBounded | include/upq/PgPool.h:659-700 | closed-form bound on all backoff of any call |
| PooledStatement.CallBackoffWithinBudget | include/upq/PgPool.h:659-700 | all backoff of any call with a budget stays below it |
| PooledStatement.GiveBack | src/upq/PgPool.cpp:207-217 | a spent connection is closed, any other is given back |
| PooledStatement.PairedRound | include/upq/PgPool.h:663-687 | an attempt takes a connection and lets it go again |
| PooledStatement.TryAgain | include/upq/PgPool.h:688-697 | charges the failure and repeats exactly when the policy grants it and the sleep is not canceled |
| PooledStatement.Run | include/upq/PgPool.h:659-700 | makes the specified attempts, returns the last one's outcome, and lets every connection go, the spent ones closed and the others back to the pool |
| Traffic.PairedConserves | src/upq/PgTransaction.cpp:34-190 | paired traffic has as many departures as arrivals, plus the connection held |
| Transaction.OpenDecides | src/upq/PgTransaction.cpp:48-88 | begin() ends with the error, or the success, of the first try that is not repeated |
| Transaction.QueryDecides | include/upq/PgTransaction.h:589-615 | a statement is answered by the first try that is not repeated, and a fatal answer ends a real transaction |
| Transaction.PgTransaction.TryOpen | src/upq/PgTransaction.cpp:55-80 | one try ends opened with the connection, or without one, and then what it took is closed |
| Transaction.PgTransaction.Open | src/upq/PgTransaction.cpp:48-88 | the error is that of the try that decides, and the backoff asked for is that of the tries before it; success holds a connection, failure none |
| Transaction.PgTransaction.DropConnection | src/upq/PgTransaction.cpp:109-115 | closes the connection and marks the transaction rolled back |
| Transaction.PgTransaction.Commit | src/upq/PgTransaction.cpp:117-159 | committed exactly when no commit error; the error is the server's own answer when COMMIT was sent; the connection is closed after a fatal answer and given back otherwise; an ended transaction keeps its verdict |
| Transaction.PgTransaction.EndWith | src/upq/PgTransaction.cpp:161-174 | rolled back, and the connection closed after a fatal answer, given back otherwise |
| Transaction.PgTransaction.Rollback | src/upq/PgTransaction.cpp:176-184 | rollback and abort end an active transaction and change nothing else |
| Transaction.PgTransaction.Finish | src/upq/PgTransaction.cpp:186-190 | afterwards no connection is held |
| Transaction.PgTransaction.Destroy | src/upq/PgTransaction.cpp:34-44 | a held connection is closed |
| Transaction.PgTransaction.Query | include/upq/PgTransaction.h:589-615 | the answer, the backoff asked for, and whether the transaction stays active and keeps a connection, as a function of what its tries meet; only an emulated one changes its connection |
| Transaction.PgTransaction.Reacquire | src/upq/PgTransaction.cpp:216-235 | a fresh connection, or none and an ended or untouched transaction |
| Transaction.PgSubtransaction.RunControl | src/upq/PgTransaction.cpp:290-295 | a fatal failure ends the parent, another leaves it as it was |
| Transaction.PgSubtransaction.Begin | src/upq/PgTransaction.cpp:297-305 | succeeds exactly on a live real transaction that accepts the savepoint |
| Transaction.PgSubtransaction.Commit | src/upq/PgTransaction.cpp:307-321 | committed exactly when released |
| Transaction.PgSubtransaction.Rollback | src/upq/PgTransaction.cpp:323-329 | an active savepoint ends rolled back |
| Transaction.AnyCalls | src/upq/PgTransaction.cpp:34-329 | after any calls on a transaction and any number of savepoints, with any outcomes, each connection taken has left exactly once |
| Transaction.PerformOn | src/upq/PgTransaction.cpp:284-329 | what one call on one of the savepoints leaves of it, of the other savepoints and of the transaction |
| Transaction.Perform | src/upq/PgTransaction.cpp:176-329 | what one call of a body leaves of the transaction, its connection and its savepoints, and the backoff it asks for |
| RunTx.RetriedCommittedNothing | include/upq/PgTransaction.h:669-722 | without idempotent a repeated attempt committed nothing |
| RunTx.OnlyLastCommits | include/upq/PgTransaction.h:669-722 | only the last attempt can have committed |
| RunTx.CommitsAtMostOnce | include/upq/PgTransaction.h:669-722 | at most one commit; success means one, an exception none, an error none unless the last COMMIT is in doubt |
| RunTx.LastAttemptTells | include/upq/PgTransaction.h:669-722 | what the outcome of one attempt says about its commit |
| RunTx.CommitsWhenIdempotent | include/upq/PgTransaction.h:669-722 | with idempotent at most three commits |
| RunTx.AttemptsWithinPotential | include/upq/PgTransaction.h:669-722 | at least one attempt, and no more than the budget's potential allows |
| RunTx.AttemptOutcome | include/upq/PgTransaction.h:676-708 | the outcome of an attempt case by case: the error of BEGIN, of the body, or the server's answer to COMMIT, each as given |
| RunTx.OwnErrors | include/upq/PgTransaction.h:632-641 | how the library's own errors are classed |
| RunTx.RetriedIff | include/upq/PgTransaction.h:648-657 | which failures are followed by another attempt, at the COMMIT and before it |
| RunTx.UndoneIsRetried | include/upq/PgTransaction.h:710-713 | a COMMIT the server undid is repeated exactly while rollback retries are left |
| RunTx.UndoneIsRepeated | include/upq/PgTransaction.h:669-722 | a transaction whose COMMITs are all undone is attempted as often as configured |
| RunTx.CutShortIsLast | include/upq/PgTransaction.h:716-720 | a canceled sleep ends the call |
| RunTx.WaitsOfAttempts | include/upq/PgTransaction.h:710-718 | the delays granted in a run_tx are those of all its attempts but the last, and of the last one when its sleep was cut short |
| RunTx.WaitsAreGranted | src/upq/PgPool.cpp:238-287 | each of them is granted by the policy with the counters reached so far |
| RunTx.CallBackoffBounded | include/upq/PgTransaction.h:669-722 | closed-form bound on all backoff between the attempts of any run_tx |
| RunTx.CallBackoffWithinBudget | include/upq/PgTransaction.h:669-722 | all backoff between the attempts of any run_tx with a budget stays below it |
| RunTx.RunBody | include/upq/PgTransaction.h:685-690 | what any sequence of the body's calls leaves of the transaction, and all backoff of its statements |
| RunTx.CommitAttempt | include/upq/PgTransaction.h:697-703 | success, the commit error, or that the body had ended the transaction; after a COMMIT the connection is given back unless the answer is fatal |
| RunTx.RunOnce | include/upq/PgTransaction.h:676-708 | one attempt on a transaction object of its own has the specified outcome and backoff, keeps no connection, and gives a sound one back |
| RunTx.TryAgain | include/upq/PgTransaction.h:710-720 | charges a failure and repeats exactly when a retry is granted and slept for |
| RunTx.Run | include/upq/PgTransaction.h:669-722 | makes the specified attempts, returns the outcome of the last, and asks for all the backoff of SleepFrom |
| SleepBounds.SleepIsSum | include/upq/PgTransaction.h:669-722 | all backoff is that between the attempts and that inside them |
| SleepBounds.SleepBounded | src/upq/PgTransaction.cpp:48-88 | bound on all backoff of any run_tx, with a BEGIN's worth for every attempt, or for every statement of an emulated body |
| SleepBounds.RealSleepBounded | include/upq/PgTransaction.h:657-722 | the most backoff of any run_tx on a real transaction |
| SleepBounds.WorstSleepClosedForm | include/upq/PgTransaction.h:657-722 | the same in closed form |
| SleepBounds.OvershootsByOneAttempt | include/upq/PgTransaction.h:657-722 | while the clock runs, all backoff stays below the budget plus the backoff inside the last attempt |
| BudgetCoverage.BudgetCoversIff | include/upq/PgTransaction.h:657-722 | the backoff of every run_tx on a real transaction stays below the budget exactly when the budget exceeds the most there is |
| BudgetCoverage.NotCoveredWhenShort | include/upq/PgTransaction.h:657-722 | a call that reaches any smaller budget |
| BudgetCoverage.ShortBudgetMayCover | include/upq/PgTransaction.h:657-722 | with a base delay of 1 ms and two attempts a budget of 10 ms covers all backoff, though more is possible without one |
| BudgetCoverage.CoveredWithoutTries | src/upq/PgTransaction.cpp:75-78 | with one attempt or no delay every budget covers all backoff |
| BudgetCoverage.EmulatedCoversIff | include/upq/PgTransaction.h:603-610 | on an emulated transaction a budget covers all backoff exactly with one attempt or no delay |
| BudgetCoverage.SlowestStatement | include/upq/PgTransaction.h:603-610 | a statement of an emulated transaction that never starts sleeps the delays of all its tries |
| BudgetCoverage.TwoFailedBegins | src/upq/PgTransaction.cpp:70-78 | with the default settings two failed BEGINs sleep 800 ms whatever the budget |
| ResultCollection.AppendRows | src/upq/PgConnection.cpp:73-95 | every cell appended in its place, NULL as empty text; names kept if there are some |
| ResultCollection.AbsorbResult | src/upq/PgConnection.cpp:104-130 | one result folded in; COPY mode stops |
| ResultCollection.ReplyValue | src/upq/PgConnection.cpp:97-130 | all rows in order, first names, summed counts; or only the last error; or the COPY refusal |
| ResultCollection.LastErrorIsLast | src/upq/PgConnection.cpp:97-130 | the error reported is one of the reply's, and none comes after it |
| ResultCollection.CollectedConcat | src/upq/PgConnection.cpp:469-489 | collecting two groups in turn is collecting their concatenation |
| ResultCollection.StateOfLostExchange | include/upq/PgConnection.h:499-506 | the SQLSTATE of a lost exchange is that of the last error read before the loss, empty only without one |
| ResultCollection.LossIsClassedLostIff | include/upq/PgRetry.h:104-113 | a lost connection is classed as lost exactly when no error was read before, or the state of the last one says nothing else |
| ResultCollection.DeadlineIsClassedDeadlineIff | include/upq/PgRetry.h:104-113 | an exchange cut off at its deadline is classed as that exactly when no state read before says otherwise |
| ResultCollection.ConcludedReads | include/upq/PgConnection.h:499-594 | what the caller reads, field by field, of a failed, a canceled and a finished exchange |
| ResultCollection.FirstEndDecides | include/upq/PgConnection.h:581-586 | the first turn that does not go on decides how the reading ends and what was delivered |
| ResultCollection.FirstFlushDecides | include/upq/PgConnection.h:574-579 | the first flush that does not go on decides how the sending ends |
| ResultCollection.DeadlockHidesTheLoss | include/upq/PgConnection.h:581-586 | a run in which a deadlock report makes a lost connection count as a rolled-back statement |
| ResultCollection.Connection.CollectStep | src/upq/PgConnection.cpp:469-489 | the ready results are collected; COPY mode and a failed read make the connection unusable |
| ResultCollection.Connection.AfterWait | include/upq/PgConnection.h:499-523 | gives up on failure, timeout or cancellation, with the code of that and the text in both places |
| ResultCollection.Connection.FlushAll | include/upq/PgConnection.h:574-579 | how the sending ends |
| ResultCollection.Connection.CollectAll | include/upq/PgConnection.h:581-586 | the collected value depends on the results delivered, not on their grouping |
| ResultCollection.Connection.RunQuery | include/upq/PgConnection.h:562-594 | the answer of the whole exchange, field by field for every way it can end; after a failure no rows and no usable connection |
| CopyLines.SplitLinesIsNewlineSplit | include/upq/PgConnection.h:634-656 | the lines and the tail give the stream back, and none contains a newline |
| CopyLines.NewlineSplitIsUnique | include/upq/PgConnection.h:634-656 | no other split does |
| CopyLines.FeedConcat | include/upq/PgConnection.h:634-656 | cutting the stream does not change the lines |
| CopyLines.StreamLinesAre | include/upq/PgConnection.h:634-668 | the stream's lines with a newline after each are the bytes received, a missing last newline added; of a broken stream, what its last newline ends |
| CopyLines.SeenUpToRefusal | include/upq/PgConnection.h:634-656 | the sink sees all lines, or those up to and including the first it refuses |
| CopyLines.ChunkSink | include/upq/PgConnection.h:634-656 | one chunk delivers the lines it completes, up to a refusal |
| CopyLines.CopyToLines | include/upq/PgConnection.h:596-668 | the sink sees the stream's lines up to its first refusal, and the stream is drained |
| CopyLines.Conclude | include/upq/PgConnection.h:658-668 | the unterminated last line is delivered unless a line was refused or the read failed |
| RowStream.BatchesDoNotMatter | src/upq/PgRowStream.cpp:32-51 | without a failing FETCH the batches add up to the cursor's rows, for every batch size |
| RowStream.FaultsOnlyCut | src/upq/PgRowStream.cpp:35-40 | a failing FETCH only cuts the rows short |
| RowStream.FetchKeepsRows | src/upq/PgRowStream.cpp:32-51 | fetching neither loses nor invents rows |
| RowStream.FetchBrings | src/upq/PgRowStream.cpp:32-51 | one FETCH brings as many rows as the batch size or all that are left, and the first one the column names; a failed one the server's error |
| RowStream.NextYields | src/upq/PgRowStream.cpp:53-59 | each row once and in order, then nothing from then on |
| RowStream.NextKeepsExplained | src/upq/PgRowStream.cpp:32-59 | rows are withheld from an open stream only with an error kept |
| RowStream.FutureIsUnread | src/upq/PgRowStream.cpp:32-59 | what an open stream will give is what was not handed out, for every batch size, unless a FETCH fails |
| RowStream.NextFlows | src/upq/PgRowStream.cpp:32-59 | an open stream whose FETCHes succeed gives a row exactly when one is left |
| RowStream.EveryRowComesOut | src/upq/PgRowStream.cpp:32-59 | however batch sizes change midway, the rows given and those left are the rows there were, one for each next() until none is left |
| RowStream.ReadsAPrefix | src/upq/PgRowStream.cpp:32-59 | the rows given are the first ones, as many as next() was called or as there are |
| RowStream.PgRowStream.constructor | src/upq/PgRowStream.cpp:5-22 | an owning stream holds one pooled connection, a borrowed one none; batch size 0 means 1 |
| RowStream.PgRowStream.SetBatchSize | include/upq/PgRowStream.h:61 | only the batch size changes, 0 meaning 1 |
| RowStream.PgRowStream.Fetch | src/upq/PgRowStream.cpp:32-51 | refines Fetched |
| RowStream.PgRowStream.Next | src/upq/PgRowStream.cpp:53-59 | refines NextOf |
| RowStream.PgRowStream.Close | src/upq/PgRowStream.cpp:61-90 | what is sent, which error is kept, and what becomes of the connection; a second call does nothing |
| RowStream.PgRowStream.MoveFrom | include/upq/PgRowStream.h:83-101 | rows and connection move over; the other stream keeps neither |
| RowStream.PgRowStream.Destroy | src/upq/PgRowStream.cpp:24-30 | an open pooled stream gives its connection up |
| RowStream.AnyCalls | src/upq/PgRowStream.cpp:24-90 | after any calls the rows given plus those left are the rows there were, and a pooled connection left exactly once; calls that only read an open stream give a row for every next() until none is left |
| Pipeline.PullSteps | include/upq/PgStream.h:24-139 | one next() of any nest of adaptors steps through what the nest denotes |
| Pipeline.DrainDenotes | include/upq/PgStream.h:24-139 | reading a nest to its end gives the adaptors applied to the whole sequence |
| Pipeline.KeptExactly | include/upq/PgStream.h:62-68 | filtering keeps every row that passes, as often as it comes, and no other |
| Pipeline.KeptInOrder | include/upq/PgStream.h:62-68 | in the order in which they come |
| Pipeline.TakePullsAtMost | include/upq/PgStream.h:80-107 | take(n) uses its upstream as at most n calls of next() would |
| Pipeline.TakeLeavesTheRest | include/upq/PgStream.h:80-107 | directly over a stream it leaves every row after the first n |
| Pipeline.Next | include/upq/PgStream.h:24-139 | refines Pull for every adaptor |
| Pipeline.FilterNext | include/upq/PgStream.h:62-68 | the filter's loop refines Pull |
| Pipeline.SkipNext | include/upq/PgStream.h:120-129 | the skip loop refines Pull |
| Pipeline.Finish | include/upq/PgStream.h:213-221 | the stream is closed, and its unread rows are as they were |
| Pipeline.Count | include/upq/PgStream.h:223-230 | the number of values the nest denotes; the stream is closed |
| Pipeline.Collect | include/upq/PgStream.h:232-239 | the values the nest denotes; the stream is closed |
| Pipeline.ForEach | include/upq/PgStream.h:241-256 | the calls of the callback are the values the nest denotes, and their number is returned; the stream is closed |
| Pipeline.Reduce | include/upq/PgStream.h:258-267 | the fold over the values the nest denotes; the stream is closed |
| Pipeline.CollectCursor | include/upq/PgStream.h:232-239 | over a cursor whose FETCHes succeed, any batch size gives the adaptors applied to its rows |
| TextFold.AppendQuoted | include/upq/PgParams.h:298-305 | appends the quoted text with its quotes and backslashes escaped |
| ArrayLiteral.BuildLiteral | include/upq/PgParams.h:361-379 | the elements between braces, separated by commas |
| ArrayLiteral.SampleLiteral | include/upq/PgParams.h:361-379 | a literal written out |
| ArrayLiteral.SplitItems | include/upq/PgReflect.h:139-168 | the index loop finds the tokens of the splitting automaton |
| ArrayLiteral.UnescapeQuoted | include/upq/PgReflect.h:177-188 | the index loop unescapes as the automaton does |
| ArrayLiteral.ParseElement | include/upq/PgReflect.h:170-193 | NULL, a quoted text unescaped, or the text itself |
| ArrayLiteral.ParsedElement | include/upq/PgReflect.h:170-193 | a written element is parsed back |
| ArrayLiteral.ItemsOfLiteral | include/upq/PgReflect.h:139-168 | a built literal splits into its elements, the empty one into one empty token |
| ArrayLiteral.RoundTrip | include/upq/PgReflect.h:139-193 | reading back gives the list exactly when it is not empty |
| ArrayLiteral.LiteralInjective | include/upq/PgParams.h:361-379 | no two lists share a literal |
| ArrayLiteral.DecodeStrings | include/upq/PgReflect.h:393-433 | the parsed items with nulls as empty texts; text without braces is refused |
| ConnInfo.EscapeValue | include/upq/utils/IPAddressUtils.h:44-61 | the quoted, escaped value, or failure on a NUL |
| ConnInfo.AddKv | include/upq/utils/ConnInfo.h:24-29 | a space unless the string is empty, then the key and the escaped value |
| ConnInfo.AddField | include/upq/utils/ConnInfo.h:63-67 | one more entry, or failure if this or an earlier value has a NUL |
| ConnInfo.AddHost | include/upq/utils/ConnInfo.h:42-61 | address and name, name only, or host, by certificate name and address syntax |
| ConnInfo.AddLogin | include/upq/utils/ConnInfo.h:63-82 | the four login fields in order |
| ConnInfo.AddSsl | include/upq/utils/ConnInfo.h:84-112 | the mode and the certificate fields that are set |
| ConnInfo.AddKeepalive | include/upq/utils/ConnInfo.h:116-126 | the four keepalive fields |
| ConnInfo.MakeConninfo | include/upq/utils/ConnInfo.h:12-132 | field by field it writes exactly the pairs the configuration calls for, or fails if one of their values has a NUL |
| ConnInfo.HasConnectTimeout | src/upq/PgConnection.cpp:148-181 | the index loops find a connect_timeout exactly when the scanning automaton meets that key |
| ConnInfo.ScanRender | src/upq/PgConnection.cpp:148-181 | scanning rendered pairs meets exactly their keys and values |
| ConnInfo.ScannerAgreesWithBuilder | src/upq/PgConnection.cpp:148-181 | for every configuration the scanner meets the keys written with their values and no connect_timeout |
| ConnInfo.LoginIsRead | include/upq/utils/ConnInfo.h:63-82 | a reader of the string finds the port, user, database and password of the configuration, each under its key and nothing else there |
| ConnInfo.HostIsRead | include/upq/utils/ConnInfo.h:42-61 | under host the server name of the SSL settings or the host, under hostaddr the address if there is such a name |
| ConnInfo.BracketsGo | include/upq/utils/ConnInfo.h:42-61 | a host in brackets is passed on without them, any other as it is |
| ConnInfo.SslIsRead | include/upq/utils/ConnInfo.h:84-112 | the SSL mode and the files that are set, each under its key, and no key for the others |
| ConnInfo.KeepaliveIsRead | include/upq/utils/ConnInfo.h:116-126 | the four keepalive settings when enabled, none of the keys otherwise |
| ConnInfo.IntTextReads | include/upq/utils/ConnInfo.h:116-126 | the text of a number reads as that number |
| ConnInfo.SecondsAre | src/upq/PgConnection.cpp:145-188 | the timeout is the budget in whole seconds, at least one, and five without a budget |
| ConnInfo.SampleEntry | include/upq/utils/ConnInfo.h:24-29 | an entry written out |
| ConnInfo.WithTimeout | src/upq/PgConnection.cpp:145-188 | the suffix is added exactly to strings that name no timeout |
| ConnInfo.SuffixIsFound | src/upq/PgConnection.cpp:183-188 | after the suffix the scanner meets one more key, connect_timeout, with the seconds as its value |
| ConnInfo.PassedOnNamesTimeoutIff | src/upq/PgConnection.cpp:183-188 | for any string: what is passed on names a timeout exactly when the string did or its end is a place where an entry can follow |
| ConnInfo.TimeoutIsLost | src/upq/PgConnection.cpp:154-158 | a string for which the appended timeout is not seen |
| Wire.FourBytes | src/upq/PgTypes.cpp:16-22 | the big-endian value of four bytes is the sum of the shifted bytes, and fits 32 bits |
| Wire.WriteBe32 | src/upq/PgTypes.cpp:8-22 | the shifts and masks produce the four bytes whose big-endian value is the number written, so reading them gives it back |
| Wire.SameValue | src/upq/PgTypes.cpp:8-22 | bytes of one length are determined by their value |
| Wire.ValueInverse | src/upq/PgTypes.cpp:8-22 | writing a read one gives the bytes back |
| Wire.ReadExact | include/upq/PgTypes.h:846-874 | the buffer is filled from the stream however reads are cut, exactly when enough bytes come |
| Wire.ReadFrame | include/upq/PgTypes.h:876-918 | the frame at the start of the stream, leaving what follows |
| Wire.BuildSimpleQuery | src/upq/PgTypes.cpp:361-375 | the message with its 32-bit length |
| Wire.SampleQuery | src/upq/PgTypes.cpp:361-375 | a message written out |
| Wire.FrameOfQuery | src/upq/PgTypes.cpp:361-375 | what the reader makes of a query message, for every size |
| Wire.QueryRoundTrip | include/upq/PgTypes.h:876-918 | read back whole exactly when it fits the payload limit |
| Wire.HugeQueryIsCutShort | src/upq/PgTypes.cpp:364 | beyond the 32-bit length the reader takes a prefix of the text for the message |
| WireRows.ReadField | src/upq/PgTypes.cpp:207-250 | one field: null, a value, or the error that ends the parse |
| WireRows.ParseDataRow | src/upq/PgTypes.cpp:177-251 | appends the fields read; the declared count on success, never more on failure |
| WireRows.RowRoundTrip | src/upq/PgTypes.cpp:177-251 | an encoded row is read back, whatever follows it |
| WireRows.AcceptedIsEncoded | src/upq/PgTypes.cpp:177-251 | an accepted payload is the encoding of the fields read, followed by what was left |
| WireRows.AcceptsExactlyEncodings | src/upq/PgTypes.cpp:177-251 | accepted exactly when the payload starts with an encoded row |
| WireRows.FieldErrors | src/upq/PgTypes.cpp:207-250 | which lengths are NULL, a value, corrupt or cut off |
| WireRows.PayloadErrors | src/upq/PgTypes.cpp:116-251 | the error of a refused payload is that of the field it stops at, or that the header is cut off |
| WireRows.SampleRow | src/upq/PgTypes.cpp:177-251 | a row written out |
| WireRows.ReadName | src/upq/PgTypes.cpp:145-174 | one column name, or nothing when it or its fixed part is cut off |
| WireRows.ParseRowDescription | src/upq/PgTypes.cpp:116-175 | the names read; the declared count on success, never more on failure |
| WireRows.DescriptionRoundTrip | src/upq/PgTypes.cpp:116-175 | an encoded description is read back, whatever follows it |
| WireRows.AcceptedIsDescribed | src/upq/PgTypes.cpp:116-175 | an accepted payload is the encoding of the columns read, followed by what was left |
| WireRows.AcceptsExactlyDescriptions | src/upq/PgTypes.cpp:116-175 | accepted exactly when the payload starts with an encoded description |
| CircuitBreaker.StatusCountsLateTicks | src/upq/PgRouting.cpp:251-269 | open, half open or closed by the number of passing checks since the last failure's deadline |
| CircuitBreaker.DeadlineAfterFailure | src/upq/PgRouting.cpp:262-268 | a failure keeps the node out for the quiet time when it was closed, the backoff when half open, the maximum when already out |
| CircuitBreaker.BackOnlyAfterDeadline | src/upq/PgRouting.cpp:251-269 | a node that failed is let back in only by a passing check at or after the deadline |
| CircuitBreaker.StaysOpen | src/upq/PgRouting.cpp:251-269 | between a failed check and one that lets the node back in the breaker is open |
| CircuitBreaker.ClosedOnlyAfterTwoInARow | src/upq/PgRouting.cpp:251-269 | under a forward clock it is closed again only after two passing checks in a row past the deadline |
| Routing.PickBestReplica | src/upq/PgRouting.cpp:207-226 | among the healthy, fresh enough replicas in service the shortest round trip, then the greatest weight, then the first; none only when there is none |
| Routing.PickSyncReplica | src/upq/PgRouting.cpp:133-147 | the healthy synchronous replica with the least replay lag, the first of equals; none only when there is none |
| Routing.PickPrimary | src/upq/PgRouting.cpp:181-204 | a detected leader in service if detection finds one, a healthy one if there is one, in failover order; otherwise a configured primary; none only when there is neither |
| Routing.Pin | src/upq/PgRouting.cpp:342-348 | the first node of that name exactly when it may be used; a missing pool is made on the way |
| Routing.HealthyIff | src/upq/PgRouting.cpp:304-331 | when a check leaves a node healthy |
| Routing.CheckLeaves | src/upq/PgRouting.cpp:304-331 | what a check leaves of a node: the probe's figures, the role found, and the breaker moved by the verdict |
| Routing.Connector.CheckNode | src/upq/PgRouting.cpp:304-331 | one check moves the node's statistics and breaker and is added to its history |
| Routing.BreakerFollowsTicks | src/upq/PgRouting.cpp:304-331 | a node's breaker is the one its checks lead to |
| Routing.FailedNodeStaysOut | src/upq/PgRouting.cpp:181-348 | over any run of checks, from a failed one until one that passes at or after the deadline no choice admits the node |
| Routing.Connector.HealthTick | src/upq/PgRouting.cpp:304-331 | every node is checked once, and every usable one gets that check in its history |
| Routing.Connector.HealthRounds | src/upq/PgRouting.cpp:333-340 | nodes and histories after any number of rounds |
| Routing.Connector.Choose | src/upq/PgRouting.cpp:181-348 | each failed check of a chosen node was followed by one that passed at or after the deadline in force |

## Left out

- libpq, sockets, TLS and the event loop: what they answer are arguments of the model.
- The IO watchdog: a timed-out wait is one of the outcomes a call may have.
- Memory ordering: atomic operations are sequentially consistent steps.
- `close_all`.
- Releasing one connection twice, or using it after its release.
- Wildcard routing of a notification to its handlers: a delivery arrives with its handlers.
- Handler exceptions: a run that throws ends like any other.
- Steps inside dialing are not interleaved with other tasks: to the pool it is one step that succeeds or fails.
- `pick_any`, whose fallbacks ignore health and breakers, and the order in which `route` and `route_for_tx` try the choices modelled here.
- Message texts beyond those the code itself compares.
- SQL construction, parameter encoding other than array literals, JSON, ranges, enums and reflection of rows.
- COPY FROM, `parse_error_fields`, authentication messages, loggers and counters.
- Element types other than strings in array literals.
- A stage that changes the type of its rows: the adaptors of a pipeline work on one type, and their functions are pure.
- `rows_affected` is unbounded, and shifts by 32 or more in the rollback backoff are taken as multiplications modulo 32 bits.
- ResultCollection.Connection.RunQuery: assumes the reply ends, in whatever way; a server that keeps a statement open forever is not modelled.
- SubscriptionProtocol.ConvergenceWhenAccepted: assumes that no answer of the current session is a refusal, because a refused UNLISTEN is a counterexample (`RefusedUnlistenStays`); Convergence states what holds without the assumption.
- Pool.PgPool.AcquireConnection: the call runs without other tasks in between; every interleaving of its atomic steps with those of other tasks is a run of PoolProtocol.
- RunTx.RunOnce: the body makes no begin or commit calls of its own, which the function's documentation forbids it; rolling back is allowed.
- Multiplexer.Mux.ResubscribeAll: runs without registrations in between; with them it is the sequence of SnapshotChannels and RelistenAnswered steps.
- SleepBounds.SleepBounded: counts the backoff of retries; the pauses between connect tries while a connection is acquired, and the wait for one, are not counted.
- BudgetCoverage.BudgetCoversIff: where a delay after a rollback is longer than one BEGIN can sleep, only the sufficient half holds (`RealSleepBounded`), because the budget may end inside such a delay (`ShortBudgetMayCover`); a budget whose end does not fit 64 bits grants no retry at all and is left to `BudgetWithholdsOnlyLateRetriesIff`.
