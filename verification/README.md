# The bounded-work engine of the Nest WebTransport runtime

A model, in Dafny, of how the runtime bounds and gives back what sessions use: session and per-address
slots, queued datagram bytes, handler reservations, tracked streams; and of the smaller mechanisms around
it.

JavaScript runs to completion, so one step of a model is one synchronous segment between two awaits.
Whatever the program waits for - authentication, handlers, signals, timers, reads, driver results - is an
event of the environment, enabled whenever the program could see it, in any order.

Each mutable structure appears twice: as a function on values, about which the properties of whole runs are
proved, and as a class with the source's fields, whose methods are proved to compute that function.

| file | component |
|---|---|
| `BoundedQueue.dfy` | the ring buffer with four overflow policies |
| `TaskScheduler.dfy` | one session's task scheduler, its waiters included |
| `HandlerBudget.dfy` | the server-wide budget: reservations, grants, aborted waiters |
| `IpSlots.dfy` | per-address slots and the sliding attempt window |
| `RateLimiter.dfy` | the fixed-window limiter and the datagram rate |
| `ServerLifecycle.dfy` | start and stop under racing promises |
| `Pools.dfy`, `Feeds.dfy` | all charged work with the budget; one session's datagrams |
| `Ledger.dfy` | the runtime as a transition system over any number of sessions |
| `LedgerInvariant.dfy`, `LedgerSteps.dfy`, `LedgerEnds.dfy`, `LedgerRuns.dfy` | the invariant, and that every segment keeps it |
| `LedgerTheorems.dfy` | what holds in every state of every run |
| `LedgerStreams.dfy` | streams that outlive their session: a run, and exactly whose they are |
| `LedgerAdmission.dfy`, `LedgerWork.dfy`, `LedgerReads.dfy` | exactly who is let in, which work is taken, and what becomes of what is read |
| `LedgerShutdown.dfy` | what a stopping server does to its sessions, and when |
| `LedgerDrains.dfy` | who wakes a datagram drain loop |
| `LedgerWindows.dfy` | the per-address rate, over runs of the whole system |
| `LedgerFairness.dfy` | arrival order at the global budget, over runs of the whole system |
| `LedgerProgress.dfy` | finalized sessions always wind down, and everything can be given back |
| `Runtime.dfy` | the runtime object over the budget and address-table objects, segment by segment |
| `StreamLifecycle.dfy` | native streams and their half-close lifecycle |
| `IdleTimer.dfy` | the idle timeout |
| `ModuleGraph.dfy` | the search for a visible provider |
| `GatewayRegistry.dfy` | the handler registry |
| `Sums.dfy`, `Wrappers.dfy` | sums over maps; `Option` |

`dafny verify dfyconfig.toml` checks everything.

## Hypotheses

- Limits are positive and pending counts may be zero, as option validation guarantees
  (packages/nest-webtransport/src/module/options.ts:231-273).
- The clock does not run backwards where a rate bound is claimed. Every other property holds for any clock.
- `onSettled`, loggers and user callbacks do not re-enter the scheduler or the runtime synchronously.
- A registry path is normalized by an arbitrary URL parser; what a property needs of it is in its contract.

## What turned out not to hold

- `GatewayRegistry.find` normalizes its path twice, and is right exactly when normalizing again changes nothing
  (`Routes.FindAgreesIff`). A gateway whose pathname is two or more slashes is registered under the empty path
  and looked up under the root (`Routes.SlashesAreLost`). One whose pathname begins with two slashes and a name,
  as that of "/.//foo" does, is registered under that and looked up without the name, which is read as a host
  (`Routes.HostsAreLost`, `Routes.HandlersAreLost`). With a parser that otherwise gives its own pathnames back
  there are no others (`Routes.FindAgreesExactly`).
- A `stop` while the promise of an earlier stop is still cached is lost (`Servers.AStopCanBeLost`,
  `Servers.StopTakesEffectIff`).
- The wait for a cancelled start can time out, so the server can be STOPPED with a driver start unsettled, and
  a bootstrap then starts nothing (`Servers.AStartCanOutliveTheStop`; exactly when: `Servers.StopLeavesAStartIff`,
  `Servers.BootstrapStartsIff`).
- `activeStreams` is exact but may stay above zero with no session outstanding
  (`LedgerStreams.AStreamCanOutliveItsSession`): a stopping server finalizes a session whose own signal has not
  aborted. It is zero exactly when no such session was left with a stream (`LedgerTheorems.StreamsAreGoneIff`,
  `LedgerStreams.StreamsOutliveOnlyAForcedEnd`).

## Model

| member | source | states |
|---|---|---|
| `LedgerTheorems.EveryRunIsAccounted` | packages/nest-webtransport/src/server/webtransport-runtime.ts:420-588 | in every state of every run, whatever the interleaving of offers, timeouts, aborts, settlings and shutdown, all accounts below hold together (the inductive invariant of the ledger) |
| `LedgerTheorems.StepKeepsAccounts` | packages/nest-webtransport/src/server/webtransport-runtime.ts:1304-1435 | each of the seventeen synchronous segments keeps the whole invariant, from any state that satisfies it |
| `LedgerTheorems.BytesAreExact` | packages/nest-webtransport/src/server/webtransport-runtime.ts:738-758 | the server's byte counter is the bytes in all queues plus those of every datagram submitted and not settled, never negative, never over its limit even through drop-oldest replacement; each session's own counter is its queue's bytes |
| `LedgerTheorems.DatagramsAreAccountedFor` | packages/nest-webtransport/src/server/webtransport-runtime.ts:721-769 | datagrams read past the abort check = dropped + queued + submitted + cleared; those submitted, then those queued, are in arrival order |
| `LedgerTheorems.NothingIsStranded` | packages/nest-webtransport/src/server/webtransport-runtime.ts:785-831 | a session that may still read never holds datagrams without a drain loop at work |
| `LedgerAdmission.EntersExactlyByAGoodOffer` | packages/nest-webtransport/src/server/webtransport-runtime.ts:420-535 | in every run a handle comes to hold slots if and only if it is offered to a running server whose driver runs, with a route, fewer outstanding sessions than the limit, an id no registered session has, headers that are allowed, fewer sessions of its address than its limit, its rate not used up and a record or room for one, fewer pieces of charged work than concurrency + pending, and readers to be had |
| `LedgerAdmission.TheAnswerIsTheFirstFailure` | packages/nest-webtransport/src/server/webtransport-runtime.ts:420-479 | every refusal names the first check, in the order of the source and judged on what is held, that the offer does not meet: all earlier ones it meets |
| `LedgerAdmission.OffersEnterOrMoveNothing` | packages/nest-webtransport/src/server/webtransport-runtime.ts:449-548 | an admitted session begins with its slots, a fresh meter and its admission running or waiting (nothing, if its signal had aborted); a refused offer leaves sessions, work, reservations, bytes, streams and every address's count as they were |
| `LedgerWork.SubmissionIsTakenExactly` | packages/nest-webtransport/src/server/webtransport-runtime.ts:1304-1336 | in every reachable state a submission is taken if and only if fewer than concurrency + pending pieces of work are charged and the session's scheduler accepts and has a place; it is then charged and started, or queued last; otherwise nothing of it is kept, its bytes are given back, and the answer is the policy's or says that the scheduler closed |
| `LedgerWork.BeginsExactly` | packages/nest-webtransport/src/server/handler-budget.ts:41-63 | a started task whose context is live runs if fewer run than may and waits otherwise, never refused; one whose context has aborted returns without having run; nobody else moves |
| `LedgerReads.DatagramsAreReadExactly` | packages/nest-webtransport/src/server/webtransport-runtime.ts:727-769 | of what a reading session's pump reads in any run, exactly the datagrams that are too large, over the session's rate or without byte room in the server are dropped outright, which changes only two counts (and, past the rate, the meter); every other enters a queue that is not full, and in a full one replaces the oldest or is dropped as the policy says, with all counters |
| `LedgerReads.EntriesAreBounded` | packages/nest-webtransport/src/server/webtransport-runtime.ts:727-769 | in every run, for a session whose clock does not run backwards, at most twice `maxDatagramsPerSecond` of its datagrams enter its queue in any half-open second |
| `LedgerReads.EveryQueuedDatagramFits` | packages/nest-webtransport/src/server/webtransport-runtime.ts:727-735 | no datagram over the size limit is ever queued |
| `LedgerReads.DrainsExactly` | packages/nest-webtransport/src/server/webtransport-runtime.ts:797-823 | a drain loop that goes on takes the oldest datagram, if one is queued and the scheduler has room, and submits it with its bytes; otherwise it moves no work, and ends exactly if nothing is queued or the session has stopped reading |
| `LedgerReads.StreamsAreReadExactly` | packages/nest-webtransport/src/server/webtransport-runtime.ts:883-909 | a stream read by a reading session is turned away exactly at the server's or the session's limit for its kind; any other is tracked, unless it has ended already, and submitted |
| `LedgerReads.PumpsStartExactly` | packages/nest-webtransport/src/server/webtransport-runtime.ts:566-587 | a datagram or stream pump starts exactly when the admission has succeeded with neither the session's signal nor its intake aborted, in a running server |
| `LedgerShutdown.AGracefulStopSparesTheWork` | packages/nest-webtransport/src/server/webtransport-runtime.ts:310-356 | in every run, the step that begins to drain and every step of the server while it drains abort no context, settle, grant or charge no work, and take nothing from a scheduler |
| `LedgerShutdown.DrainsOn` | packages/nest-webtransport/src/server/webtransport-runtime.ts:339-357 | a drain that has begun goes on until it has ended, whatever else happens |
| `LedgerShutdown.AStoppingServerAbortsEveryContext` | packages/nest-webtransport/src/server/webtransport-runtime.ts:357-363 | whenever the server neither runs nor drains, every session that holds slots has its context aborted and nothing queued in its scheduler |
| `LedgerShutdown.IntakeIsOpenExactlyWhileRunning` | packages/nest-webtransport/src/server/webtransport-runtime.ts:328-337 | the intake of a session that is not finalized is open if and only if the server is running |
| `LedgerShutdown.FinalizedExactlyBy` | packages/nest-webtransport/src/server/webtransport-runtime.ts:385-407 | a session is finalized if and only if its own signal aborts or the driver's stop has been awaited, successful or not |
| `LedgerShutdown.ContextsAbortExactlyBy` | packages/nest-webtransport/src/server/webtransport-runtime.ts:357-363 | a context aborts if and only if its admission times out, its session's signal aborts, or the server has stopped without grace or ended its drain |
| `LedgerDrains.WaitsOnlyForAFullScheduler` | packages/nest-webtransport/src/execution/bounded-task-scheduler.ts:100-117 | in every state of every run a drain loop waits for capacity only while its session reads on and its scheduler is open and full, every running and every pending place, with a task of that session that has a slot and has not settled |
| `LedgerDrains.RoomIsNeverIdle` | packages/nest-webtransport/src/server/webtransport-runtime.ts:785-831 | in every state of every run a session that may read, holds datagrams and has room in its scheduler has a drain loop that can move: it has been woken, or handles the outcome of the datagram before |
| `LedgerDrains.WokenExactlyWhenRoom` | packages/nest-webtransport/src/execution/bounded-task-scheduler.ts:153-186 | after any step of any run a loop that was waiting waits on if there is something to wait for, and has been woken otherwise |
| `LedgerDrains.NoWakeUpIsLost` | packages/nest-webtransport/src/server/webtransport-runtime.ts:792-808 | if at any moment since a loop began to wait there was nothing to wait for, it can move, until it does, even if the room has been taken again |
| `LedgerTheorems.WorkIsBounded` | packages/nest-webtransport/src/server/webtransport-runtime.ts:1304-1336 | across admissions and all schedulers: running + waiting <= reserved <= concurrency + pending, running <= concurrency, at most `pending` wait, and a call waits only while every place is taken |
| `LedgerTheorems.WorkSettlesOnce` | packages/nest-webtransport/src/server/webtransport-runtime.ts:1320-1334 | every piece of work submitted is either charged or was settled exactly once |
| `LedgerTheorems.AbortedSessionsDoNotWait` | packages/nest-webtransport/src/server/webtransport-runtime.ts:541-554 | no call of an aborted context is left in the global queue, and every waiting call belongs to an outstanding session |
| `LedgerTheorems.SchedulersMatchTheirWork` | packages/nest-webtransport/src/server/webtransport-runtime.ts:1324-1330 | each session's scheduler counter and queue are exactly its charged tasks, within the scheduler's limits |
| `LedgerTheorems.NothingLeaks` | packages/nest-webtransport/src/server/webtransport-runtime.ts:1387-1418 | whenever no session is outstanding, nothing is held: reservations, running and waiting calls, queued bytes, registrations and every address's active count are zero; and the stream counter is zero exactly if no session whose own signal has not aborted was left with a stream |
| `LedgerTheorems.SlotsAreBounded` | packages/nest-webtransport/src/server/webtransport-runtime.ts:526-535 | outstanding sessions never exceed the limit, and `sessions` is exactly their part that is not finalized, one entry per id |
| `LedgerTheorems.AddressesAreCharged` | packages/nest-webtransport/src/server/webtransport-runtime.ts:449-479 | each address is charged for exactly its outstanding sessions, within its limit; a charged address always has a record (so the clamp in release never bites); the table never outgrows `maxSessions` |
| `LedgerTheorems.StreamsAreExact` | packages/nest-webtransport/src/server/webtransport-runtime.ts:1079-1130 | `activeStreams` and the per-session counters are exactly the tracked, unreleased streams, within their limits; none is tracked for a session whose signal aborted |
| `LedgerTheorems.StreamsAreGoneIff` | packages/nest-webtransport/src/server/webtransport-runtime.ts:1079-1130 | in every run `activeStreams` is zero if and only if every session whose own signal has not aborted has both stream counters at zero; so it is zero once every session's own signal has aborted |
| `LedgerStreams.AStreamCanOutliveItsSession` | packages/nest-webtransport/src/server/webtransport-runtime.ts:385-414 | for every configuration that allows a bidirectional stream, a run from the start - bootstrap, admission, one stream, stop, retirement - that ends with no session outstanding and `activeStreams` at one |
| `LedgerStreams.OnlyAStoppedDriverForces` | packages/nest-webtransport/src/server/webtransport-runtime.ts:403-406 | in every run a session that is finalized although its own signal has not aborted was finalized by the loop after the driver's stop |
| `LedgerStreams.StreamsOutliveOnlyAForcedEnd` | packages/nest-webtransport/src/server/webtransport-runtime.ts:403-418 | in every run, once no session is outstanding, `activeStreams` is zero if and only if no session that this loop finalized, and whose signal has not aborted since, was left with a stream; so it is zero if the driver was never stopped |
| `LedgerFairness.EveryRunServesInOrder` | packages/nest-webtransport/src/server/handler-budget.ts:41-70 | in every run of the whole system - admissions, tasks of all sessions, aborts of whole sessions and a stopping server interleaved - everyone granted, in order, followed by the queue, is exactly everyone who arrived and did not give up, in arrival order |
| `LedgerFairness.EveryStepIsInOrder` | packages/nest-webtransport/src/server/handler-budget.ts:41-70 | every step puts arrivals at the end of the queue and takes grants from its front; arrivals and grants are exactly the work seen to come to wait or run, and whoever else leaves belongs to an aborted context |
| `LedgerTheorems.LeavesOnlyWhenGone` | packages/nest-webtransport/src/server/webtransport-runtime.ts:1409-1418 | a session leaves the outstanding set only by retiring, and is then finalized, with empty queue, settled admission, ended pumps and a closed idle scheduler |
| `LedgerTheorems.GoneForGood` | packages/nest-webtransport/src/server/webtransport-runtime.ts:1409-1435 | once it has left it never comes back, and all of that stays true |
| `LedgerTheorems.StepKeepsHandles` | packages/nest-webtransport/src/server/webtransport-runtime.ts:1415-1417 | nothing but retirement removes a session from the outstanding set, and no handle is reused |
| `LedgerProgress.WindsDown` | packages/nest-webtransport/src/server/webtransport-runtime.ts:1387-1418 | in every run, from the moment a session is finalized, what it has left falls by at least one with each of its own steps, and no step of any other session, of the server or of the environment ever raises it: it can take only so many own steps before it leaves |
| `LedgerProgress.NeverStuckInARun` | packages/nest-webtransport/src/server/webtransport-runtime.ts:1409-1418 | in every reachable state a finalized session that holds its slots can retire or has an own step to take: it never waits for another session |
| `LedgerProgress.EverythingCanBeGivenBack` | packages/nest-webtransport/src/server/webtransport-runtime.ts:1387-1418 | from every reachable state there is a continuation into a state with no session outstanding and nothing reserved, running, waiting, queued, charged, registered or counted as a stream |
| `LedgerProgress.CanLeave` | packages/nest-webtransport/src/server/webtransport-runtime.ts:1387-1418 | its own steps and one retirement take a finalized session out of the outstanding set, and no other session with it |
| `LedgerProgress.OwnStepIsNearer` | packages/nest-webtransport/src/server/webtransport-runtime.ts:1304-1418 | each own step of a finalized session - of its work, its pumps or its retirement - strictly lowers what it has left |
| `LedgerProgress.NobodySetsItBack` | packages/nest-webtransport/src/server/webtransport-runtime.ts:420-1435 | every other step keeps it finalized and raises nothing it has left |
| `Runtimes.WebTransportRuntime.AcceptSession` | packages/nest-webtransport/src/server/webtransport-runtime.ts:420-544 | the answer names the first check, in the order of the source, that the offer does not meet on what is held, and admits if it meets them all; each refusal gives back what earlier checks took; the invariant holds after it |
| `Runtimes.WebTransportRuntime.Register` | packages/nest-webtransport/src/server/webtransport-runtime.ts:526-548 | the record is added; an already aborted signal gives the reservation back and finalizes, otherwise admission is charged and asks the budget |
| `Runtimes.WebTransportRuntime.SubmitOf` | packages/nest-webtransport/src/server/webtransport-runtime.ts:1304-1336 | global reservation first, then the scheduler; either refusal settles at once; outcome and state are the ledger's |
| `Runtimes.WebTransportRuntime.TaskBegins` | packages/nest-webtransport/src/server/webtransport-runtime.ts:1325-1325 | a started task asks the global budget; the invariant is kept |
| `Runtimes.WebTransportRuntime.CallReturns` | packages/nest-webtransport/src/server/handler-budget.ts:30-39 | a returning call hands its place to the oldest waiting call of any session |
| `Runtimes.WebTransportRuntime.FinishTask` | packages/nest-webtransport/src/execution/bounded-task-scheduler.ts:153-161 | a settled task frees its slot, its bytes and its reservation once, and the oldest queued task of its session starts |
| `Runtimes.WebTransportRuntime.SettleAdmission` | packages/nest-webtransport/src/server/webtransport-runtime.ts:541-548 | the admission's reservation is given back when its promise settles, however late |
| `Runtimes.WebTransportRuntime.ReadDatagram` | packages/nest-webtransport/src/server/webtransport-runtime.ts:727-769 | one value read: size, then the session's meter if it fits, then bytes, then the queue, and the drain loop started if it was not running (what that comes to: `LedgerReads.DatagramsAreReadExactly`) |
| `Runtimes.WebTransportRuntime.EnqueueDatagram` | packages/nest-webtransport/src/server/webtransport-runtime.ts:750-769 | the queue and both counters move by exactly what the queue reports |
| `Runtimes.WebTransportRuntime.ResumeDrain` | packages/nest-webtransport/src/server/webtransport-runtime.ts:797-823 | after the capacity wait: stop, wait again, or take the oldest datagram and submit it |
| `Runtimes.WebTransportRuntime.ContinueDrain` | packages/nest-webtransport/src/server/webtransport-runtime.ts:792-830 | the loop condition, and the drain flag cleared on exit |
| `Runtimes.WebTransportRuntime.ReadStream` | packages/nest-webtransport/src/server/webtransport-runtime.ts:889-909 | limit checks, tracking unless already aborted, and submission of one stream |
| `Runtimes.WebTransportRuntime.ReleaseStream` | packages/nest-webtransport/src/server/webtransport-runtime.ts:1100-1123 | one release lowers the global and the session's counter once |
| `Runtimes.WebTransportRuntime.ReleaseStreamsOf` | packages/nest-webtransport/src/server/webtransport-runtime.ts:1124-1129 | the session's signal releases every stream it still tracks, each once |
| `Runtimes.WebTransportRuntime.AbortSignal` | packages/nest-webtransport/src/server/webtransport-runtime.ts:528-537 | the session's signal finalizes it, releases its streams and removes its waiting calls |
| `Runtimes.WebTransportRuntime.TimeOutAdmission` | packages/nest-webtransport/src/server/webtransport-runtime.ts:549-554 | the admission's context aborts and its waiting call leaves the queue, while the promise stays charged |
| `Runtimes.WebTransportRuntime.Conclude` | packages/nest-webtransport/src/server/webtransport-runtime.ts:570-587 | pumps start only if nothing has stopped the session or the server meanwhile |
| `Runtimes.WebTransportRuntime.StopIntake` | packages/nest-webtransport/src/server/webtransport-runtime.ts:1420-1435 | intake stops, the scheduler closes and the queue's bytes are given back |
| `Runtimes.WebTransportRuntime.Force` | packages/nest-webtransport/src/server/webtransport-runtime.ts:360-363 | the context aborts and what the scheduler queued is settled, bytes and reservations included |
| `Runtimes.WebTransportRuntime.FinalizeSession` | packages/nest-webtransport/src/server/webtransport-runtime.ts:1387-1407 | finalizing twice is finalizing once; queue, scheduler queue and waiting calls are given back; the session is unregistered and begins to retire |
| `Runtimes.WebTransportRuntime.DiscardQueued` | packages/nest-webtransport/src/execution/bounded-task-scheduler.ts:89-98 | a discarding close settles every queued task exactly once, in order |
| `Runtimes.WebTransportRuntime.AbortWaiters` | packages/nest-webtransport/src/server/handler-budget.ts:48-53 | an aborted context removes exactly its own waiting calls and grants nobody |
| `Runtimes.WebTransportRuntime.RetireSession` | packages/nest-webtransport/src/server/webtransport-runtime.ts:1409-1418 | the outstanding slot and the address slot are given back together, once |
| `Runtimes.WebTransportRuntime.Stop` | packages/nest-webtransport/src/server/webtransport-runtime.ts:310-363 | the first segment of a stop over every outstanding session, in any order of the set (what it spares: `LedgerShutdown.AGracefulStopSparesTheWork`) |
| `Runtimes.WebTransportRuntime.EndDraining` | packages/nest-webtransport/src/server/webtransport-runtime.ts:339-363 | the end of the graceful drain forces every outstanding session |
| `Runtimes.WebTransportRuntime.DriverStopped` | packages/nest-webtransport/src/server/webtransport-runtime.ts:385-414 | after the driver's stop every registered session is finalized and nothing is registered |
| `Pools.WaitersAreBounded` | packages/nest-webtransport/src/server/handler-budget.ts:19-63 | in the composed pool running + waiting <= reserved, hence at most `pending` calls wait |
| `Pools.SettleAllEffect` | packages/nest-webtransport/src/execution/bounded-task-scheduler.ts:91-96 | discarding a session's queue removes exactly that queue from the pool and leaves every other session's work and bytes alone |
| `Pools.AbandonAllEffect` | packages/nest-webtransport/src/server/handler-budget.ts:48-53 | aborting a session's waiting calls returns exactly those, and changes no other call's phase |
| `Feeds.OfferedStaysUnderLimit` | packages/nest-webtransport/src/server/webtransport-runtime.ts:738-758 | after the byte check and the enqueue the server's total stays within its limit, because the evicted datagram is the one that was peeked at |
| `Feeds.TakenIsOk` | packages/nest-webtransport/src/server/webtransport-runtime.ts:809-823 | taking the oldest datagram keeps the byte counter, the account and the order |
| `Queues.RunConserves` | packages/core/src/utilities/bounded-queue.ts:66-128 | over every sequence of operations and every policy: what left, in order, followed by the contents is exactly what was accepted |
| `Queues.EvictsWhatPeekShowed` | packages/core/src/utilities/bounded-queue.ts:73-91 | only drop-oldest evicts, only when full, and the evicted item is the one `peek` showed; a refused item changes nothing |
| `Queues.EnqueuesByPolicy` | packages/core/src/utilities/bounded-queue.ts:66-91 | result and contents for each of the four policies, with room and full |
| `BoundedQueues.BoundedQueue.Enqueue` | packages/core/src/utilities/bounded-queue.ts:66-91 | the ring refines a plain bounded sequence under all four policies, through wrap-around |
| `BoundedQueues.BoundedQueue.Dequeue` | packages/core/src/utilities/bounded-queue.ts:93-108 | removes the oldest item, with the head reset on empty |
| `BoundedQueues.BoundedQueue.Peek` | packages/core/src/utilities/bounded-queue.ts:110-112 | shows the oldest item |
| `BoundedQueues.BoundedQueue.Clear` | packages/core/src/utilities/bounded-queue.ts:114-118 | empties the queue from any rotation |
| `BoundedQueues.BoundedQueue.ToArray` | packages/core/src/utilities/bounded-queue.ts:120-128 | the contents, oldest first |
| `Tasks.EveryRunIsOrderedAndBounded` | packages/nest-webtransport/src/execution/bounded-task-scheduler.ts:60-98 | in every run: accepted = started ++ pending ++ discarded, active and pending bounded, pending only while full, every accepted task running, pending or settled once, no waiter stranded |
| `Tasks.ClosedSchedulerDrains` | packages/nest-webtransport/src/execution/bounded-task-scheduler.ts:89-136 | after a close without discarding every finish lowers active + pending by one and the idle waiters are resumed when nothing remains |
| `Tasks.IdleMeansAllSettled` | packages/nest-webtransport/src/execution/bounded-task-scheduler.ts:119-136 | an idle scheduler has settled exactly what it accepted and nobody waits for idleness |
| `Tasks.CapacityIsTaken` | packages/nest-webtransport/src/execution/bounded-task-scheduler.ts:52-87 | a scheduler that reports capacity accepts the next task |
| `Tasks.AnswersExactly` | packages/nest-webtransport/src/execution/bounded-task-scheduler.ts:60-87 | which of the six answers a submission gets, if and only if |
| `Tasks.WaitersWaitExactly` | packages/nest-webtransport/src/execution/bounded-task-scheduler.ts:100-186 | across every step, whoever waits for capacity or idleness does so exactly as long as the scheduler is open and full, or busy; nobody is resumed for nothing |
| `Tasks.ClosesExactly` | packages/nest-webtransport/src/execution/bounded-task-scheduler.ts:89-98 | a close keeps what runs, and keeps or discards and settles the queue as it is told |
| `TaskSchedulers.BoundedTaskScheduler.Submit` | packages/nest-webtransport/src/execution/bounded-task-scheduler.ts:60-87 | outcome and state are the specification's |
| `TaskSchedulers.BoundedTaskScheduler.Finish` | packages/nest-webtransport/src/execution/bounded-task-scheduler.ts:153-161 | slot freed, task settled, next task started, waiters flushed |
| `TaskSchedulers.BoundedTaskScheduler.Close` | packages/nest-webtransport/src/execution/bounded-task-scheduler.ts:89-98 | closing, with or without discarding |
| `TaskSchedulers.BoundedTaskScheduler.FlushWaiters` | packages/nest-webtransport/src/execution/bounded-task-scheduler.ts:172-186 | resumes capacity waiters when there is capacity or no more intake, idle waiters when idle |
| `TaskSchedulers.BoundedTaskScheduler.WhenCapacityAvailable` | packages/nest-webtransport/src/execution/bounded-task-scheduler.ts:100-117 | waits exactly while accepting and full |
| `TaskSchedulers.BoundedTaskScheduler.OnIdle` | packages/nest-webtransport/src/execution/bounded-task-scheduler.ts:119-136 | waits exactly while not idle |
| `Budgets.EveryRunIsFair` | packages/nest-webtransport/src/server/handler-budget.ts:30-70 | in every run grants followed by the queue are exactly the arrivals that did not give up, in arrival order; running is bounded and a call waits only while the limit is reached |
| `Budgets.LeaveGrantsTheOldest` | packages/nest-webtransport/src/server/handler-budget.ts:30-39 | a departure hands its place to exactly the oldest waiter |
| `Budgets.AbandonGrantsNobody` | packages/nest-webtransport/src/server/handler-budget.ts:48-53 | the wake-up of an aborted waiter grants nobody |
| `HandlerBudgets.HandlerBudget.Reserve` | packages/nest-webtransport/src/server/handler-budget.ts:19-28 | a permit if and only if fewer than concurrency + pending are out and not released |
| `HandlerBudgets.HandlerBudget.Release` | packages/nest-webtransport/src/server/handler-budget.ts:23-27 | calling a release closure twice gives back one place |
| `HandlerBudgets.HandlerBudget.Acquire` | packages/nest-webtransport/src/server/handler-budget.ts:41-63 | granted, queued or refused |
| `HandlerBudgets.HandlerBudget.Leave` | packages/nest-webtransport/src/server/handler-budget.ts:30-39 | the `finally` of a granted call |
| `HandlerBudgets.HandlerBudget.AbortWaiter` | packages/nest-webtransport/src/server/handler-budget.ts:48-53 | removes one waiter and grants nobody |
| `HandlerBudgets.HandlerBudget.Wake` | packages/nest-webtransport/src/server/handler-budget.ts:65-70 | grants in insertion order while there is room |
| `Slots.EveryWindowIsBounded` | packages/nest-webtransport/src/server/webtransport-runtime.ts:1218-1275 | with a clock that does not run backwards every half-open window of 1000 ms holds at most `sessionsPerSecond` grants of an address, through purge, sweep, deletion and re-creation of its record |
| `LedgerWindows.EveryWindowIsBounded` | packages/nest-webtransport/src/server/webtransport-runtime.ts:449-479 | in every run of the whole system whose clock readings do not run backwards, every half-open window of 1000 ms holds at most `sessionsPerSecond` offers of an address that took a slot, those that gave it back at once included |
| `LedgerWindows.AdmissionsAreBounded` | packages/nest-webtransport/src/server/webtransport-runtime.ts:449-528 | so no address is admitted more sessions than that in any such window |
| `LedgerWindows.OthersSameIp` | packages/nest-webtransport/src/server/webtransport-runtime.ts:1415-1417 | only offers and retirements touch the table of addresses |
| `Slots.GrantedExactly` | packages/nest-webtransport/src/server/webtransport-runtime.ts:1218-1245 | in every run a slot is given if and only if there is room for a record, the address holds fewer than its limit, and its `sessionsPerSecond`-th latest grant, if any, has left the window: nobody is refused early |
| `Slots.AcquireIff` | packages/nest-webtransport/src/server/webtransport-runtime.ts:1218-1245 | the same on the table alone, for any clock |
| `Slots.SweepLeavesTheLive` | packages/nest-webtransport/src/server/webtransport-runtime.ts:1247-1260 | a sweep leaves exactly the records that hold a slot or an attempt in the window |
| `Slots.AcquireForgets` | packages/nest-webtransport/src/server/webtransport-runtime.ts:1218-1230 | asking forgets no other record unless the table is full, and then all that may be forgotten |
| `Slots.ReleaseForgets` | packages/nest-webtransport/src/server/webtransport-runtime.ts:1262-1275 | a release forgets the address exactly at its last slot with no attempt left in the window |
| `Slots.AcquireCounts` | packages/nest-webtransport/src/server/webtransport-runtime.ts:1218-1245 | a grant raises only that address's count, by one, from below its limit; a refusal and a sweep change none |
| `Slots.ReleaseCounts` | packages/nest-webtransport/src/server/webtransport-runtime.ts:1262-1275 | a release lowers only that address's count, and deletes a record only when nothing of it is active |
| `IpTables.IpTable.Acquire` | packages/nest-webtransport/src/server/webtransport-runtime.ts:1218-1245 | the mutable table computes the specification |
| `IpTables.IpTable.SweepExpired` | packages/nest-webtransport/src/server/webtransport-runtime.ts:1247-1260 | the sweep loop deletes exactly the expired records |
| `IpTables.IpTable.Release` | packages/nest-webtransport/src/server/webtransport-runtime.ts:1262-1275 | the mutable table computes the specification |
| `IpTables.IpTable.PurgeBefore` | packages/nest-webtransport/src/server/webtransport-runtime.ts:1232-1234 | the loop that shifts attempts at or before the threshold off the front |
| `Lifecycles.ForwardOnly` | packages/core/src/lifecycle/lifecycle.ts:7-15 | the table: one position forward, or at once to STOPPING, or from STOPPING to STOPPED |
| `Lifecycles.RunsAgainOnlyAfterAStop` | packages/core/src/lifecycle/lifecycle.ts:7-15 | on every path of allowed transitions a draining or stopping server runs again only after STOPPED and STARTING |
| `Servers.EveryRunIsLegal` | packages/core/src/lifecycle/lifecycle.ts:7-15 | in every interleaving of bootstrap, driver results, stop, drain and timeouts no transition is illegal and at most one driver start is unsettled |
| `Servers.CancelledStartNeverRuns` | packages/nest-webtransport/src/server/webtransport-runtime.ts:218-232 | a start that a stop cancelled never makes the server run; one that was not cancelled does |
| `Servers.RunsExactlyByItsStart` | packages/nest-webtransport/src/server/webtransport-runtime.ts:224-232 | the server comes to run exactly when the current start succeeds, while starting, and no stop has cancelled it |
| `Servers.StartingExactlyBy` | packages/nest-webtransport/src/server/webtransport-runtime.ts:157-195 | STARTING is entered only by a bootstrap of a stopped server with no start cached |
| `Servers.DrainingExactlyBy` | packages/nest-webtransport/src/server/webtransport-runtime.ts:310-320 | DRAINING is entered to stay only by a graceful stop of a running server with no stop cached |
| `Servers.StoppingExactlyBy` | packages/nest-webtransport/src/server/webtransport-runtime.ts:310-357 | STOPPING is entered only by a stop of a starting server, a stop of a running one without grace, or the end of a drain |
| `Servers.StopBeginsBy` | packages/nest-webtransport/src/server/webtransport-runtime.ts:310-372 | where the first segment of a stop leads and what it waits for: the handlers, the start, or the closes; it cancels the start that is cached |
| `Servers.DrainsUntilItEnds` | packages/nest-webtransport/src/server/webtransport-runtime.ts:339-357 | across every continuation a draining server drains until the drain has ended, and then is stopping |
| `Servers.SessionsCloseFirst` | packages/nest-webtransport/src/server/webtransport-runtime.ts:373-414 | no stop ends before the closes have been awaited and, after that, the driver has stopped |
| `Servers.StopDuringStartStays` | packages/nest-webtransport/src/server/webtransport-runtime.ts:310-324 | across every continuation, bootstraps included, a stop begun during start-up is not overwritten: the server runs again only if a start that began later has succeeded |
| `Servers.CancelledForGood` | packages/nest-webtransport/src/server/webtransport-runtime.ts:324-324 | a cancelled start stays cancelled and start ids are not reused, across every continuation |
| `Servers.StopWithoutBootstrapStays` | packages/nest-webtransport/src/server/webtransport-runtime.ts:157-170 | without a new bootstrap the server does not even start again |
| `Servers.StopEndsWithTheDriver` | packages/nest-webtransport/src/server/webtransport-runtime.ts:385-417 | the last segment of a stop leads to STOPPED when the driver stopped and to STOPPING when it did not |
| `Servers.StoppedExactlyBy` | packages/nest-webtransport/src/server/webtransport-runtime.ts:242-248 | a step enters STOPPED if and only if the driver stopped, or the start under way failed while starting |
| `Servers.OnlyTheDriverEndsAStop` | packages/nest-webtransport/src/server/webtransport-runtime.ts:385-417 | across every continuation - failed driver stops, further stops, bootstraps, late starts - a stop under way is left only by a driver that stopped |
| `Servers.FailedStopCanBeRetried` | packages/nest-webtransport/src/server/webtransport-runtime.ts:299-308 | after a failed stop a retry reaches STOPPED |
| `Servers.StopTakesEffectIff` | packages/nest-webtransport/src/server/webtransport-runtime.ts:299-308 | a stop of a starting or running server takes effect if and only if no earlier stop promise is cached |
| `Servers.AStopCanBeLost` | packages/nest-webtransport/src/server/webtransport-runtime.ts:299-308 | a run in which a stop is lost to the cached promise of an earlier one |
| `Servers.BootstrapStartsIff` | packages/nest-webtransport/src/server/webtransport-runtime.ts:157-216 | a bootstrap of a stopped server starts the driver if and only if no earlier start promise is cached |
| `Servers.AStartCanOutliveTheStop` | packages/nest-webtransport/src/server/webtransport-runtime.ts:366-372 | a run that is STOPPED while the driver's start is still unsettled |
| `Lifecycles.WebTransportLifecycle.Transition` | packages/core/src/lifecycle/lifecycle.ts:53-67 | moves exactly along the allowed table and refuses everything else without changing state |
| `Servers.StopLeavesAStartIff` | packages/nest-webtransport/src/server/webtransport-runtime.ts:366-372 | a stop of a starting server that has reached STOPPED leaves that start unsettled if and only if its driver call has neither succeeded nor failed since; and before the driver was stopped the wait for it had ended |
| `Servers.UnsettledUntilItSettles` | packages/nest-webtransport/src/server/webtransport-runtime.ts:224-250 | across every continuation a start is unsettled exactly as long as its driver call is |
| `ServerControls.ServerControl.OnApplicationBootstrap` | packages/nest-webtransport/src/server/webtransport-runtime.ts:157-216 | the start segment |
| `ServerControls.ServerControl.ResumeStart` | packages/nest-webtransport/src/server/webtransport-runtime.ts:218-251 | the driver's start settles |
| `ServerControls.ServerControl.Stop` | packages/nest-webtransport/src/server/webtransport-runtime.ts:299-363 | the first segment of a stop |
| `ServerControls.ServerControl.ResumeStop` | packages/nest-webtransport/src/server/webtransport-runtime.ts:339-417 | every later segment of a stop |
| `Windows.TwiceTheLimit` | packages/core/src/limits/fixed-window-rate-limiter.ts:24-58 | with a clock that does not run backwards and no reset, every half-open interval of one window length is granted at most twice the limit |
| `Windows.TwiceTheLimitIsReached` | packages/core/src/limits/fixed-window-rate-limiter.ts:24-58 | the bound is reached, for every limit and window |
| `Windows.ConsumedExactly` | packages/core/src/limits/fixed-window-rate-limiter.ts:24-58 | after any calls, with a clock that does not run backwards, an amount is consumed if and only if it is valid and fits beside what the open window has granted |
| `Windows.BackwardsOpensAnew` | packages/core/src/limits/fixed-window-rate-limiter.ts:49-64 | a clock that runs backwards out of the window opens a new one |
| `Windows.DatagramTakenExactly` | packages/nest-webtransport/src/server/webtransport-runtime.ts:1201-1212 | a datagram is in rate if and only if the open second has granted fewer than the limit |
| `Windows.RetryAfterIsExact` | packages/core/src/limits/fixed-window-rate-limiter.ts:36-44 | before now + r nothing can be consumed, whatever is tried in between, and at now + r one unit can |
| `Windows.DatagramsAreUnits` | packages/nest-webtransport/src/server/webtransport-runtime.ts:1201-1212 | the datagram rate is that limiter, one unit a call, while the clock does not run backwards |
| `Windows.DatagramsAreBounded` | packages/nest-webtransport/src/server/webtransport-runtime.ts:1201-1212 | at most twice `maxDatagramsPerSecond` in any one-second interval |
| `RateLimiters.FixedWindowRateLimiter.TryConsume` | packages/core/src/limits/fixed-window-rate-limiter.ts:24-34 | consumed, exhausted, or an invalid amount that changes nothing |
| `RateLimiters.FixedWindowRateLimiter.RetryAfterMs` | packages/core/src/limits/fixed-window-rate-limiter.ts:36-44 | refreshes the window and answers |
| `RateLimiters.FixedWindowRateLimiter.RefreshWindow` | packages/core/src/limits/fixed-window-rate-limiter.ts:51-64 | a new window at first use, after its length, and when the clock ran backwards |
| `Runtimes.WebTransportRuntime.ConsumeDatagramRate` | packages/nest-webtransport/src/server/webtransport-runtime.ts:1201-1212 | the two fields of a session follow the specification, and nothing else of it moves |
| `ModuleGraphs.FindsWhatIsVisible` | packages/nest-webtransport/src/execution/execution-pipeline.ts:338-362 | on every finite graph, cycles included: a module is found if and only if the host owns the token or a chain of imports, each re-exported after the first, ends in one that exports and provides it; the module found is such an end |
| `ModuleOrder.AnswersWithTheFirst` | packages/nest-webtransport/src/execution/execution-pipeline.ts:338-362 | the search with its one shared visited set answers, on every finite graph, with the module that trying all simple chains in the order of the imports finds first |
| `ModuleOrder.TheFirstImportThatLeadsAnswers` | packages/nest-webtransport/src/execution/execution-pipeline.ts:338-362 | the answer is reached through the first import that leads to one, and is that import if it provides the token itself |
| `ModuleGraphs.VisitMisses` | packages/nest-webtransport/src/execution/execution-pipeline.ts:344-356 | after a search that finds nothing every visited module is a dead end whose re-exports were all visited: the shared set loses no answer |
| `ModuleGraphs.VisitFinds` | packages/nest-webtransport/src/execution/execution-pipeline.ts:344-356 | what a branch finds is reached by a chain from it |
| `ModuleSearches.Search.FindExported` | packages/nest-webtransport/src/execution/execution-pipeline.ts:344-356 | the recursive closure with its shared mutable set terminates and computes the search, in import order |
| `ModuleSearches.FindVisibleProviderHost` | packages/nest-webtransport/src/execution/execution-pipeline.ts:338-362 | the whole function, with the equivalence above as its contract |
| `Streams.ReportedOnce` | packages/driver-rwebtransport/src/stream.adapter.ts:76-118 | under every order of callbacks `streamClosed` is called once for a closed stream and never for an open one; an open lifecycle's parts are its unfinished halves, at least one; a closed stream has asked every unfinished half to end |
| `Streams.OnlyInterruptedStreamsAreCutOff` | packages/driver-rwebtransport/src/stream.adapter.ts:97-117 | in every run a stream closed with a half unfinished has had an error, a caller's stop or reset, or the end of its session among its events |
| `Streams.ClosesExactlyBy` | packages/driver-rwebtransport/src/stream.adapter.ts:97-117 | an open stream is closed if and only if it is cut short or its last unfinished half ends |
| `Streams.ReadingEnds` | packages/driver-rwebtransport/src/stream.adapter.ts:211-223 | the end of the reading half closes the stream if and only if nothing is left to write, and leaves the writing half as it was |
| `Streams.WritingEnds` | packages/driver-rwebtransport/src/stream.adapter.ts:349-361 | likewise for the writing half |
| `Streams.FinishesExactly` | packages/driver-rwebtransport/src/stream.adapter.ts:134-362 | which halves each callback finishes, if and only if |
| `Streams.ClosingExactly` | packages/driver-rwebtransport/src/stream.adapter.ts:283-323 | a writable half is closing exactly from the caller's close on, which does nothing else |
| `Streams.NoneOutlivesItsSession` | packages/driver-rwebtransport/src/session.adapter.ts:151-161 | after a session has finished all its streams are closed, those adapted later included |
| `Streams.CounterIsExact` | packages/driver-rwebtransport/src/driver.ts:135-142 | the driver's counter is the number of open streams over all sessions, and its clamp never bites |
| `Streams.ApplyIsOk` | packages/driver-rwebtransport/src/stream.adapter.ts:134-362 | every callback in every state keeps a stream sound and none reopens it |
| `Streams.StepKeepsInv` | packages/driver-rwebtransport/src/session.adapter.ts:361-391 | every event of the driver keeps streams, listeners and counter in agreement |
| `StreamAdapters.StreamAdapter.constructor` | packages/driver-rwebtransport/src/stream.adapter.ts:83-91 | opens, subscribes, or closes at once when the session has ended |
| `StreamAdapters.StreamAdapter.Abort` | packages/driver-rwebtransport/src/stream.adapter.ts:108-117 | closes once, runs both listeners, unsubscribes and reports |
| `StreamAdapters.StreamAdapter.FinishPart` | packages/driver-rwebtransport/src/stream.adapter.ts:97-106 | the last part closes the stream |
| `StreamAdapters.StreamAdapter.FinishReadable` | packages/driver-rwebtransport/src/stream.adapter.ts:211-223 | counts a half once, or not at all |
| `StreamAdapters.StreamAdapter.FinishWritable` | packages/driver-rwebtransport/src/stream.adapter.ts:349-361 | counts a half once, also when called back by the abort under way |
| `StreamAdapters.StreamAdapter.AbortWritable` | packages/driver-rwebtransport/src/stream.adapter.ts:243-256 | the abort listener of the writable half |
| `StreamAdapters.StreamAdapter.ReaderRejected` | packages/driver-rwebtransport/src/stream.adapter.ts:142-151 | finish without counting, then abort |
| `StreamAdapters.StreamAdapter.ReadFailed` | packages/driver-rwebtransport/src/stream.adapter.ts:164-172 | abort, then finish without counting |
| `StreamAdapters.StreamAdapter.WriterRejected` | packages/driver-rwebtransport/src/stream.adapter.ts:257-269 | abort and finish, unless closing or finished |
| `StreamAdapters.StreamAdapter.WriteFailed` | packages/driver-rwebtransport/src/stream.adapter.ts:271-284 | a failed write or close |
| `StreamAdapters.StreamAdapter.Stop` | packages/driver-rwebtransport/src/stream.adapter.ts:386-395 | `stop` and `reset` of the adapters |
| `StreamAdapters.SessionAdapter.Finish` | packages/driver-rwebtransport/src/session.adapter.ts:361-391 | effective once; every listener is aborted while the set shrinks under the walk; the closed event is sent once |
| `StreamAdapters.SessionAdapter.Close` | packages/driver-rwebtransport/src/session.adapter.ts:252-282 | a second close and a close after the end change nothing; a native close that throws ends the session and aborts every open stream of it |
| `Routes.FindAgreesIff` | packages/nest-webtransport/src/routing/gateway-registry.ts:49-70 | `find` agrees with the filtered list for every registration list and route if and only if normalizing the normalized path changes nothing |
| `Routes.FindAgreesExactly` | packages/nest-webtransport/src/routing/gateway-registry.ts:49-106 | for a parser that reads its own pathnames as a URL parser does (stated in the contract): `find` agrees with the filtered list, for every list and route, if and only if the path's normal form is not empty and is not two slashes and a host that the parser accepts |
| `Routes.HandlersAreLost` | packages/nest-webtransport/src/routing/gateway-registry.ts:49-106 | wherever normalizing again gives another gateway's path: the gateway's own handler is not found under its path, and the other gateway's is |
| `Routes.SlashesAreLost` | packages/nest-webtransport/src/routing/gateway-registry.ts:93-106 | one family of such paths, those that parse to two or more slashes only: the root's handlers are found instead |
| `Routes.HostsAreLost` | packages/nest-webtransport/src/routing/gateway-registry.ts:93-106 | another, those that parse to two slashes and a name: the name is read as a host, and the root's handlers are found instead |
| `Routes.NormalForms` | packages/nest-webtransport/src/routing/gateway-registry.ts:93-106 | what a normal form looks like, and exactly when it is empty |
| `Routes.NormalizeKeepsThePath` | packages/nest-webtransport/src/routing/gateway-registry.ts:93-106 | the normal form is what the parser gives, rooted, without the slashes at its end |
| `Routes.KeyIsInjective` | packages/nest-webtransport/src/routing/gateway-registry.ts:108-114 | the composite key determines path, kind and route when the paths contain no U+0000, whatever the route contains |
| `Routes.KeysCollide` | packages/nest-webtransport/src/routing/gateway-registry.ts:108-114 | with U+0000 in a path it does not |
| `Routes.KindKeyIsInjective` | packages/nest-webtransport/src/routing/gateway-registry.ts:116-118 | the two-part key always determines path and kind |
| `Routes.UnderIsSelect` | packages/nest-webtransport/src/routing/gateway-registry.ts:49-70 | the list under a key is the registrations for its path, kind and route, in order |
| `Routes.UnderIsSelectIff` | packages/nest-webtransport/src/routing/gateway-registry.ts:108-114 | for any list, whatever its paths contain: the list under a key is the registrations for its path, kind and route if and only if no other registration has that key |
| `GatewayRegistries.GatewayRegistry.Register` | packages/nest-webtransport/src/routing/gateway-registry.ts:35-47 | the index keeps agreeing with the list of registrations |
| `GatewayRegistries.GatewayRegistry.Find` | packages/nest-webtransport/src/routing/gateway-registry.ts:49-70 | named handlers in registration order, then the unnamed ones exactly once, for the path normalized twice; with U+0000 in a path, what is registered under the two keys |
| `GatewayRegistries.GatewayRegistry.Size` | packages/nest-webtransport/src/routing/gateway-registry.ts:72-78 | the number of registrations |
| `GatewayRegistries.GatewayRegistry.HasPath` | packages/nest-webtransport/src/routing/gateway-registry.ts:84-86 | some registration has that normalized path |
| `GatewayRegistries.GatewayRegistry.HasHandlers` | packages/nest-webtransport/src/routing/gateway-registry.ts:88-90 | some registration has that normalized path and kind |
| `Idle.DeadlineIsNeverLate` | packages/nest-webtransport/src/server/webtransport-runtime.ts:1277-1302 | the armed deadline never exceeds last activity plus the timeout, and a live session has a timer armed until its close is requested |
| `Idle.ClosesOnlyWhenIdle` | packages/nest-webtransport/src/server/webtransport-runtime.ts:1286-1300 | an idle close is requested only with no stream tracked and nothing active - neither a touch nor a tracked stream - for the whole timeout; with exact timers exactly the timeout after the last activity |
| `Idle.FiresExactly` | packages/nest-webtransport/src/server/webtransport-runtime.ts:1286-1300 | when a firing timer requests the close, when it is armed again and for when, and that it does nothing once intake has stopped |
| `Idle.NeverRestarted` | packages/nest-webtransport/src/server/webtransport-runtime.ts:1277-1302 | activity never restarts an armed timer |
| `Idle.NothingAfterIntakeStops` | packages/nest-webtransport/src/server/webtransport-runtime.ts:1286-1289 | once intake has stopped no idle close is ever requested |
| `Idle.QuietMeansClosed` | packages/nest-webtransport/src/server/webtransport-runtime.ts:1286-1300 | without activity the close is requested at exactly last activity plus the timeout, after at most one re-arming |
| `IdleTimers.IdleTimer.Touch` | packages/nest-webtransport/src/server/webtransport-runtime.ts:1277-1302 | records activity and arms a timer only if none is armed |
| `IdleTimers.IdleTimer.CheckIdle` | packages/nest-webtransport/src/server/webtransport-runtime.ts:1286-1300 | the timer callback |
| `IdleTimers.IdleTimer.ReleaseStream` | packages/nest-webtransport/src/server/webtransport-runtime.ts:1114-1122 | the last stream released counts as activity |
| `Runtimes.WebTransportRuntime.BeginAdmission` | packages/nest-webtransport/src/server/webtransport-runtime.ts:541-548 | the admission is charged and enters the budget before anything of it runs |
| `Runtimes.WebTransportRuntime.SettleWork` | packages/nest-webtransport/src/server/webtransport-runtime.ts:1320-1323 | the release closure of one piece of work is called and forgotten, so no permit is released twice |
| `Runtimes.WebTransportRuntime.EnterBudget` | packages/nest-webtransport/src/server/handler-budget.ts:41-63 | the synchronous part of `run`: the work is running, waiting or refused as the budget says |
| `Runtimes.WebTransportRuntime.LeaveBudget` | packages/nest-webtransport/src/server/handler-budget.ts:35-38 | the returning work and the work it wakes change phase together with the budget |
| `Runtimes.WebTransportRuntime.EndPump` | packages/nest-webtransport/src/server/webtransport-runtime.ts:1360-1378 | an ended pump is forgotten |
| `Runtimes.WebTransportRuntime.Observe` | packages/nest-webtransport/src/server/webtransport-runtime.ts:1409-1414 | retirement sees one of the three conditions it waits for, and the invariant keeps it true |
| `Runtimes.WebTransportRuntime.StopIntakeAll` | packages/nest-webtransport/src/server/webtransport-runtime.ts:328-337 | the loop over the outstanding set computes the fold of the one-session step |
| `Runtimes.WebTransportRuntime.ForceAll` | packages/nest-webtransport/src/server/webtransport-runtime.ts:360-363 | the loop keeps the invariant session by session |
| `Runtimes.WebTransportRuntime.FinalizeAll` | packages/nest-webtransport/src/server/webtransport-runtime.ts:404-406 | the loop keeps the invariant session by session |
| `TaskSchedulers.BoundedTaskScheduler.AbortWaiter` | packages/nest-webtransport/src/execution/bounded-task-scheduler.ts:105-116 | an aborted waiter is resumed once |
| `IpTables.IpTable.Take` | packages/nest-webtransport/src/server/webtransport-runtime.ts:1219-1244 | purge, both limit checks, and the grant recorded |
| `Servers.StepKeepsInv` | packages/nest-webtransport/src/server/webtransport-runtime.ts:157-418 | every segment of a start or a stop keeps state, cached promises and suspended segments in agreement, with no illegal transition |
| `ServerControls.ServerControl.Force` | packages/nest-webtransport/src/server/webtransport-runtime.ts:357-372 | the segment after the drain |
| `StreamAdapters.SessionAdapter.AbortListeners` | packages/driver-rwebtransport/src/session.adapter.ts:369-376 | every listener is aborted exactly once while it removes itself from the set |

## Left out

- Web Streams, AbortSignal, promises and timers as implementations: only their effects, as events.
- The schedulers and datagram queues inside the runtime object are values, updated in place of the objects
  they specify; aliasing between those objects is not captured. The handler budget and the address table are
  the objects themselves.
- The runtime object holds its server state as a value too; `ServerControls.ServerControl` is the object for it.
- Session ids, addresses, tokens and modules are numbers: the code only compares them.
- What the code asks of its environment while accepting (driver state, routing, headers and origin, reader
  reservation, clock readings) and while reading a datagram (its size, what the transport allows, the clock) is a
  parameter. Headers and origin are one verdict.
- A drain ends when the environment says so: by itself, when everything awaited is idle, or by its timeout.
- When a stream pump reads, and when any pump but the drain loop ends, is left to the environment, which allows
  more runs than the code: a stream pump's own wait for capacity is modelled in `TaskScheduler.dfy`, not in the
  ledger.
- Routes.FindAgreesExactly: its hypothesis on the parser is stated for the one normal form; a path that parses to
  an opaque pathname, as that of a `mailto:` URL, may not meet it, and `Routes.FindAgreesIff` applies.
- The promise of a drain loop and its flag are one thing in the ledger; so are the settling of an admission and
  the microtask that forgets it.
- Closing a session on the transport, and what it is told, is an event; so are the session's own signal and error
  handling by user code.
- Windows.RetryAfterIsExact: over the real numbers; the rounding of floating-point clock arithmetic is not modelled.
- Idle.ClosesOnlyWhenIdle: over the real numbers, likewise.
- Windows.TwiceTheLimit: says nothing about runs with `reset`, after which a window may be granted anew.
- GatewayRegistries.GatewayRegistry.Size: `list`, which flattens the index in insertion order of its keys, is not modelled.
- Counters that only report (accepted, rejected and dropped totals, bytes and datagrams received) and logs.
- Option validation, whose results are the hypotheses above; `ConcurrencyLimiter`, which repeats the permits of
  the handler budget; Nest plumbing, drivers' I/O, the virtual transport and the examples.
