# Verification of Wemixvisor's in-memory protocols

Wemixvisor supervises a node process: it watches the chain's height, swaps binaries at upgrade
heights, restarts the node when it crashes, and serves an API. This project models the parts of it
that keep state in memory, in Dafny, and proves what they promise over every run.

`dafny verify dfyconfig.toml` checks everything. There is one module for each component; `Sequences`
holds the vocabulary they share (subsequences, removal, filtering, sorting).

## How the models are built

Most modules have three layers.

- **A step machine on values.** A `State` datatype, a `Step` datatype whose parameters are the
  environment's choices (clock readings, RPC answers, process exits, file contents, scheduling), and a
  total function `Next`. A step that is not enabled leaves the state alone, so every sequence of steps
  is a run and a theorem about `Run(steps)` speaks about every interleaving. Every region protected by a
  lock is one step; regions the code leaves and re-enters are several steps, and so are channel operations and
  the counter updates after them. The rate limiter takes no lock; its handler is two steps, up to the comparison
  and from the append. What is coarser than this is named under "Left out". Fields marked *history*
  record what happened and are read by no step.
- **Theorems**: invariants over all runs, comparisons of a run with a simpler reference, round trips,
  counting arguments.
- **The struct**: a class with the fields of the Go struct, whose methods carry out the same statements
  in the same order. Their contracts tie the new state to `Next`, so the theorems apply to them.
  What a call means is also spelled out without the names of the functions that specify it, in the contract itself
  or in a lemma named `…Means`; those about a single step are not listed below.
  Where a method runs steps without interruption (`notifySubscribers`, `executeUpgrade`, the
  dispatcher's scan), a lemma named `Uninterrupted…` ties the sequence of sub-steps to what the method's
  contract says.

Sorting is the sort package's: any sorted permutation, equal elements in any order. Map iteration is in
any order. Integers are unbounded; heights and times stay far from the limits of `int64`.

## What the proofs showed about the code

These are properties that a reader of the documentation might expect and that the code does not have.
For each there is a run that shows it and, where it can be had, the exact condition.

- **The newest height is dropped, not the oldest.** The comment at `internal/height/monitor.go:127` says
  a full channel loses the oldest update. The non-blocking send loses the new one, exactly when the channel is
  full (`HeightMonitor.FullChannelLosesNewest`). Over any steps in which a subscriber receives nothing, its channel
  keeps the first ten of what was in it and what it has been offered since (`HeightMonitor.OldestStay`).
- **The orchestrator forgets upgrades.** `pending` is cleared after every attempt, whatever it then
  holds. The upgrade it drops is lost exactly if it was scheduled during the attempt
  (`Orchestrator.ClearLosesWaiting`; a run is `Orchestrator.SecondScheduleIsLost`).
- **A height already past the target starts genesis without a stop of the node.** Such a height fails validation,
  and the rollback does not stop the node either (`Orchestrator.PassedHeightSkipsStop` is a run). An
  attempt stops the node exactly if validation passes, which for a named upgrade of positive height means exactly
  if the height received is the target (`Orchestrator.AttemptStopsIff`).
- **The pool can exceed its size.** Between looking into the channel, comparing the count, dialing and counting, Get
  holds no lock. Calls that dial at the same time all find room (`ConnectionPool.ConcurrentGetsExceed`); so does a
  single one if a connection is put back after it has looked (`ConnectionPool.PutDuringGetExceeds`) or is in the
  hands of cleanup (`ConnectionPool.CleanupDuringGetExceeds`). What remains is twice the size, plus the calls of Get
  beside one of them, plus what cleanup holds (`ConnectionPool.Capacity`). A run stays within the size exactly if no
  comparison finds room when all of it is in use (`ConnectionPool.WithinIffNeverOverfills`), and so if calls do not
  overlap (`ConnectionPool.WholeCallsKeepLimit`).
- **The pool's statistics miss some connections.** Created - Destroyed equals the connections in existence
  exactly if no step of the run leaked one: a waiter dropping an unusable connection, or a nil connection
  from the factory (`ConnectionPool.ConservationIffLeakFree`; a run is `ConnectionPool.WaiterLeaks`).
- **Auto-restarts can exceed their limit.** An exit seen after its Stop has ended counts as a crash
  (`NodeManager.LateExitRestartsStoppedNode`). Together with the crash of the process started since, it makes two
  schedulings where one is allowed (`NodeManager.LateExitBreaksBound`). The counts at the schedulings strictly
  increase, which gives the limit, exactly if no scheduling repeats the count of the one before
  (`NodeManager.IncreasingIffNeverRepeats`).
- **The exit of the process does not wake its Stop.** Without a Restart, and while no other Stop ends, nothing
  closes the channel that Stop waits for, so it waits out its grace period (`NodeManager.GraceNeedsRestart`). A
  Restart meanwhile launches a process whose crash closes it (`NodeManager.RestartCutsGraceShort`).
  `NodeManager.WokenIffClosed` has the exact condition over all steps.
- **The scheduler validates one height and queues by another.** `validateUpgrade` looks at the height in the
  upgrade's info; the queue uses the proposal's own field, which nothing checks. What is queued has a positive
  height exactly if that field has (`UpgradeScheduler.QueuedHeight`); an accepted upgrade at height 0 is
  `UpgradeScheduler.AcceptedAtHeightZero`.
- **An upgrade can be triggered twice.** Setting the status of an upgrade back to `scheduled` breaks the
  discipline exactly if it was triggered before (`UpgradeScheduler.DisciplineIffNoReset`), and lets it be
  triggered again exactly if it is still queued (`GovernanceMonitor.ResetTriggersAgainIff`). A run from the empty
  scheduler is `GovernanceMonitor.SecondTriggerAfterReset`.
- **Without validation a name can be queued twice** (`UpgradeScheduler.SameNameTwice`), and the partition of the
  upgrades into the two queues breaks exactly if the name is known (`UpgradeScheduler.UnvalidatedSchedule`).
- **A finished upgrade can be filed twice.** Cancelling it again, or giving it a final status again, appends it to the
  completed queue once more (`UpgradeScheduler.CancelledTwice`). A step keeps that queue free of duplicates exactly
  if it finishes no record that is in it (`UpgradeScheduler.CompletedOnceIff`), and the statistics of the queues add
  up exactly if it is free of them (`UpgradeScheduler.QueuesAddUpIff`).
- **The coordinator's trigger is dead code.** The next upgrade always lies above the current height
  (`BatchPlan.NeverTriggers`). A chain that advances too fast passes an upgrade that was never prepared, and
  the loop reports the plan as completed (`BatchPlan.FastChainSkipsPreparation`); an upgrade is prepared exactly
  if a height within its window is seen (`BatchPlan.PreparedIffWindowSeen`).
- **Migrating in two stages can give other settings than migrating at once.** A stop off the version table can skip
  steps (`Migrator.DetourSkipsSteps`), a stop on it can add steps (`Migrator.DetourAddsSteps`), and some stops off the
  walk are harmless (`Migrator.HarmlessDetour`). Stopping at b on the way from a to c changes nothing for any settings
  exactly if a and b are both on the table or both off it, or none of the four versions with a migration of their own
  lies beyond b up to c; and exactly if both ways make the same set of migrations (`Migrator.ComposesIff`).
- **A second write with the same modification time goes unnoticed** (`FileWatcher.SameTimeWriteIsMissed`). Polling
  with the skip agrees with reading every time exactly if no look at the file misses (`FileWatcher.AgreeIffNeverMisses`).
- **The rate limit counts only what has been appended.** Handlers that pass the comparison before one of them appends
  its time are all admitted (`RateLimiter.OverlapBreaksLimit`). A minute that is full admits another request exactly
  if handlers in flight make up what the list lacks (`RateLimiter.ExceedsIff`), so it holds at most the limit and the
  handlers in flight beside one of them (`RateLimiter.WindowBound`).
- **The rate limit needs requests of an address to be compared in the order of their times.** Nothing orders
  concurrent handlers. If one overtakes another, an entry is forgotten too early and the bound fails, even if they
  do not overlap (`RateLimiter.OvertakingBreaksBound`). What is kept is as good as the full history exactly if no
  entry is forgotten early (`RateLimiter.VisibleIffNeverForgotten`).

## Model

| member | source | states |
|---|---|---|
| LruCache.ReachableValid | internal/performance/cache.go:70-159 | In every interleaving of lock regions, with Get split into lookup and a later move or delete, the map's keys are exactly the list's elements, each once, each item's element is its own node, and the list is within capacity. |
| LruCache.MoveToFrontValid | internal/performance/cache.go:86-91 | Moving any element, however old, keeps the representation and the set of listed elements; a removed one stays out. |
| LruCache.RecencyOrder | internal/performance/cache.go:70-128 | In every run the list is ordered by the last call that stored a key or found it alive, newest first. |
| LruCache.EvictsLeastRecent | internal/performance/cache.go:97-159 | A Set of a new key into a full cache removes exactly the key whose last touch is the oldest. |
| LruCache.Coherent | internal/performance/cache.go:70-159 | A cached entry is the last value set for its key and expires ttl after that call. |
| LruCache.RefinesReference | internal/performance/cache.go:70-200 | In every run the cache holds what a reference holds that has no list and no elements: the entry of a key is the one last set, it is served up to ttl after that, Get past that time and Cleanup remove it, and a new key in a full cache drops the entry touched longest ago. |
| LruCache.GetServes | internal/performance/cache.go:70-94 | For every run: Get answers the value last set exactly if the key is still held and at most ttl has passed since that Set; otherwise it answers nothing and the key is gone. |
| LruCache.CleanupKeeps | internal/performance/cache.go:177-200 | For every run: Cleanup keeps a held key exactly if its last Set is at most ttl old. |
| LruCache.SetMeans | internal/performance/cache.go:97-128 | A Set stores the value until now + ttl, changes no other entry, and drops none unless the key is new and the cache full. |
| LruCache.PushedIncluded | internal/performance/cache.go:97-128 | Pushing the same key onto two recency lists keeps the shorter a subsequence of the longer, and the gap within the difference of the capacities. |
| LruCache.Inclusion | internal/performance/cache.go:70-200 | Two caches of sizes S <= L fed any same timed run: the small one's recency list is a subsequence of the large one's, entries are equal, and the lengths differ by at most L - S. |
| LruCache.HitsIncluded | internal/performance/cache.go:70-94 | Every hit of the smaller cache is the same hit in the larger. |
| LruCache.LruCache.constructor | internal/performance/cache.go:43-53 | A new cache is empty and valid. |
| LruCache.LruCache.Get | internal/performance/cache.go:70-94 | Returns the value of a key that is present up to its expiry, moves it to the front, removes a key past it, changes no other entry, and counts a hit or a miss. |
| LruCache.LruCache.Set | internal/performance/cache.go:97-128 | Replaces or inserts the entry in front, evicting one exactly if a new key exceeds the size, and counts evictions. |
| LruCache.LruCache.EvictOldest | internal/performance/cache.go:151-159 | Removes the last list element and its key, and nothing from an empty cache. |
| LruCache.LruCache.Delete | internal/performance/cache.go:131-139 | Removes the key from map and list. |
| LruCache.LruCache.Clear | internal/performance/cache.go:142-148 | Empties map and list. |
| LruCache.LruCache.Cleanup | internal/performance/cache.go:177-200 | Removing the expired keys one by one leaves exactly the live entries, in their order. |
| RateLimiter.VisibleIffNeverForgotten | internal/api/middleware.go:188-198 | For every run and every clock, what is kept for an address and everything ever appended to its list agree on the minute before a time exactly if no request has forgotten an entry of that minute, and what is kept is never more. |
| RateLimiter.PruningInvisible | internal/api/middleware.go:188-198 | They agree on the minute before any time that is not earlier than the requests of that address. |
| RateLimiter.RejectsOnlyWhenFull | internal/api/middleware.go:200-207 | Whatever the clock does and however handlers overlap, a rejected address has used up its limit in the unpruned list of the last minute. |
| RateLimiter.DecidesOnFullHistory | internal/api/middleware.go:186-211 | A request that is not earlier than those of its address before it is accepted exactly if the unpruned list has fewer than the limit in the last minute. |
| RateLimiter.AcceptsSpaced | internal/api/middleware.go:186-211 | If the requests of an address are compared in the order of their times, its i-th and (i + limit + n)-th accepted ones are at least a minute apart, where n handlers at most were in flight beside another one; n = 0 if they never overlap. |
| RateLimiter.WindowBound | internal/api/middleware.go:180-214 | Then every half-open minute, wherever it starts, holds at most limit + n accepted requests of that address, whatever the others do. |
| RateLimiter.AdmittedBalance | internal/api/middleware.go:180-214 | In every run what is admitted is appended or in flight, however the times are counted. |
| RateLimiter.ExceedsIff | internal/api/middleware.go:200-211 | A request enters a minute that is full already exactly if the list has room and the handlers in flight make up the difference. |
| RateLimiter.OneByOneBound | internal/api/middleware.go:180-214 | If handlers run one after the other, in the order of their times, every minute holds at most the limit. |
| RateLimiter.UninterruptedHandle | internal/api/middleware.go:180-214 | Undisturbed, the two steps of a handler make one call of the method below. |
| RateLimiter.OverlapBreaksLimit | internal/api/middleware.go:200-211 | Two overlapping handlers with times in order are both admitted in one minute under a limit of one. |
| RateLimiter.OvertakingBreaksBound | internal/api/middleware.go:188-198 | Two handlers that take effect in the opposite order of their clock readings, without overlap, admit three requests in one minute under a limit of two. |
| RateLimiter.RateLimiter.Handle | internal/api/middleware.go:180-214 | Prunes the address's entries older than a minute, rejects at the limit, otherwise records the request; other addresses are untouched. |
| HeightMonitor.ReceivesChangesInOrder | internal/height/monitor.go:164-227 | What a subscriber has received and has waiting is, in order, part of the changes announced since it subscribed; at most ten wait; the changes are the polled heights without immediate repetitions. |
| HeightMonitor.NothingLostWithoutDrops | internal/height/monitor.go:212-227 | A subscriber that never met a full channel has been given every announced change, and only then. |
| HeightMonitor.FullChannelLosesNewest | internal/height/monitor.go:212-227 | A send is lost exactly if the channel is full, and then the channel keeps its ten heights. |
| HeightMonitor.OldestStay | internal/height/monitor.go:212-227 | In every run, over any steps without a receive by it, a subscriber's channel holds the first ten of what was in it and what it has been offered since. |
| HeightMonitor.DestutterAppend | internal/height/monitor.go:186-205 | Comparing with the last stored height is the same as removing immediate repetitions from the whole list of polls. |
| HeightMonitor.ReceivedWasPolled | internal/height/monitor.go:164-227 | Every height a subscriber gets was answered by the provider. |
| HeightMonitor.UninterruptedNotify | internal/height/monitor.go:212-227 | Undisturbed, the sub-steps of a notification give every channel with room the height. |
| HeightMonitor.UninterruptedTick | internal/height/monitor.go:175-227 | Undisturbed, the steps of a tick store a new height and send it to every channel with room; an error or the same height changes nothing. |
| HeightMonitor.ChangesAreAnswers | internal/height/monitor.go:164-207 | In every run the announced heights are the provider's answers without immediate repetitions. |
| HeightMonitor.HeightMonitor.Subscribe | internal/height/monitor.go:134-149 | Adds an empty channel. |
| HeightMonitor.HeightMonitor.Tick | internal/height/monitor.go:175-207 | An error or an unchanged height changes nothing; a new height is stored and sent to every channel with room. |
| HeightMonitor.HeightMonitor.NotifySubscribers | internal/height/monitor.go:212-227 | Each channel gets the height if it has room and is unchanged otherwise. |
| Orchestrator.ReachableInv | internal/orchestrator/orchestrator.go:106-311 | The protocol's invariant holds in every interleaving of polling, delivery, watcher, callers and the sub-steps of an execution. |
| Orchestrator.ProtocolSafety | internal/orchestrator/orchestrator.go:164-311 | The flag is set exactly while an execution is in flight; each ScheduleUpgrade leads to at most one execution and one stop; the node is stopped only for a named upgrade at a polled height equal to its positive target; heights arrive in order. |
| Orchestrator.ClearLosesWaiting | internal/orchestrator/orchestrator.go:240-254 | The upgrade cleared after an attempt will never be executed exactly if it is not the one attempted. |
| Orchestrator.LostForever | internal/orchestrator/orchestrator.go:164-311 | A ticket that is neither pending, nor about to begin, nor executed is never executed by any later step. |
| Orchestrator.SecondScheduleIsLost | internal/orchestrator/orchestrator.go:213-262 | A run from the start in which an upgrade scheduled during a successful attempt is cleared and never executed. |
| Orchestrator.UninterruptedAttempt | internal/orchestrator/orchestrator.go:269-340 | Left undisturbed, the sub-steps of an attempt make exactly the calls of the node manager that the method's contract lists, and end with the flag and pending cleared. |
| Orchestrator.AttemptMeans | internal/orchestrator/orchestrator.go:269-340 | The calls of each of the four ways an attempt can go; whatever fails, the last ones switch to genesis and start it. |
| Orchestrator.ExitedStays | internal/orchestrator/orchestrator.go:134-145 | Once the goroutine has ended nothing is executed or called any more. |
| Orchestrator.ExitNeedsCancel | internal/orchestrator/orchestrator.go:134-145 | It ends only after Stop. |
| Orchestrator.AttemptStopsIff | internal/orchestrator/orchestrator.go:269-375 | An undisturbed attempt stops the node exactly if validation passes; for a named upgrade of positive height exactly if the height received is its target. |
| Orchestrator.PassedHeightSkipsStop | internal/orchestrator/orchestrator.go:234-339 | A run from the start in which the first height is past the target: genesis is started, the node has not been stopped, and the upgrade is gone. |
| Orchestrator.UpgradeOrchestrator.ScheduleUpgrade | internal/orchestrator/orchestrator.go:164-180 | The new upgrade replaces whatever is pending. |
| Orchestrator.UpgradeOrchestrator.HandleHeight | internal/orchestrator/orchestrator.go:213-262 | Below the target, or while an upgrade is in flight, nothing happens; otherwise one attempt is made with the calls that its outcomes dictate, and pending is cleared. |
| Orchestrator.UpgradeOrchestrator.ExecuteUpgrade | internal/orchestrator/orchestrator.go:269-311 | Succeeds exactly if none is in flight, validation passes, and stop and start succeed; every failure but the first rolls back; the flag is restored. |
| Orchestrator.UpgradeOrchestrator.ValidateUpgrade | internal/orchestrator/orchestrator.go:358-377 | Accepts exactly named upgrades with a positive height that is not yet passed. |
| Orchestrator.UpgradeOrchestrator.RollBack | internal/orchestrator/orchestrator.go:319-339 | Switches to the genesis binary and starts the node. |
| WorkerPool.Conservation | internal/performance/worker.go:154-250 | In every run each accepted task is, as often as it was accepted, queued, in the dispatcher's hand, in a worker's channel, at a worker, finished, dropped by a put-back timeout or an ignored nil; and Execute was called once for each running or finished one. |
| WorkerPool.NoDoubleExecution | internal/performance/worker.go:225-268 | Finished <= started <= accepted as multisets; Processed counts the finished executions. |
| WorkerPool.StatisticsCountOutcomes | internal/performance/worker.go:225-268 | In every run Failed is the number of recorded executions that ended with an error and Processed the number of all recorded ones; a panic is processed and not failed. |
| WorkerPool.QuietMeansDone | internal/performance/worker.go:154-250 | When queue, dispatcher and workers are at rest, every accepted task has been finished or dropped by a put-back timeout. |
| WorkerPool.UninterruptedScan | internal/performance/worker.go:190-218 | Undisturbed, the dispatcher gives its task to the first worker that is idle with an empty channel, or to none if there is none. |
| WorkerPool.UninterruptedDispatch | internal/performance/worker.go:182-222 | Undisturbed, an iteration of the dispatcher gives the oldest task to the first free worker, or back to the end of the queue; a nil one is dropped. |
| WorkerPool.UninterruptedTurn | internal/performance/worker.go:225-268 | Undisturbed, a worker executes the task in its channel once, records it with its outcome, and is free again. |
| WorkerPool.SubmitMeans | internal/performance/worker.go:154-169 | Submit succeeds exactly if there is room, or the dispatcher of a pool without a queue is waiting. |
| WorkerPool.QueueBounded | internal/performance/worker.go:82-90 | In every run at most ten tasks for each worker are queued. |
| WorkerPool.InsertKeepsOrder | internal/performance/worker.go:375-397 | Inserting behind everything of at least the same priority keeps descending priority, and arrival order among equals. |
| WorkerPool.Pool.Submit | internal/performance/worker.go:154-169 | Queues the task exactly if there is room. |
| WorkerPool.Pool.DispatchOne | internal/performance/worker.go:182-222 | The oldest task goes to the first free worker; a nil one is dropped, one without a worker goes back to the end of the queue. |
| WorkerPool.Pool.Find | internal/performance/worker.go:193-205 | The first worker that is idle with an empty channel gets the task, and no other worker changes. |
| WorkerPool.PriorityQueue.Push | internal/performance/worker.go:375-397 | Adds the task and keeps the queue ordered by priority and then arrival. |
| WorkerPool.PriorityQueue.Pop | internal/performance/worker.go:400-411 | Removes and returns the task that comes before all others, or nothing exactly if the queue is empty. |
| ConnectionPool.ReachableInv | internal/performance/pool.go:101-269 | The capacity and counting invariant holds in every run, whatever the sub-steps of Get, Put and cleanup do in between. |
| ConnectionPool.Capacity | internal/performance/pool.go:101-269 | In every run `active` counts the connections handed out and those put back but not yet uncounted, at most maxSize are idle, and all in existence or being dialed are at most 2 * maxSize, plus the calls of Get in progress beside one of them, plus what cleanup has in hand. |
| ConnectionPool.ExceedsIff | internal/performance/pool.go:129-147 | A step takes the pool over maxSize exactly if a comparison finds room when maxSize connections exist or are being dialed. |
| ConnectionPool.WithinIffNeverOverfills | internal/performance/pool.go:101-269 | A run keeps to maxSize all the time exactly if it has no such comparison. |
| ConnectionPool.CapacityIfNeverMisled | internal/performance/pool.go:101-147 | If comparisons find room only while fewer than maxSize connections exist, the excess is less than the number of calls of Get in progress at the same time. |
| ConnectionPool.WholeCallsKeepLimit | internal/performance/pool.go:101-269 | In every sequence of calls of Get, Put and cleanup that do not overlap, `active` and the idle connections together keep to maxSize. |
| ConnectionPool.ConcurrentGetsExceed | internal/performance/pool.go:129-147 | Two concurrent calls both dial in a pool of size one. |
| ConnectionPool.PutDuringGetExceeds | internal/performance/pool.go:110-147 | With one Get at a time, a Put between its look and its comparison takes a pool of size one to two connections: the bound is reached. |
| ConnectionPool.CleanupDuringGetExceeds | internal/performance/pool.go:225-269 | A Get that finds nothing because cleanup has the only connection in hand dials a second one. |
| ConnectionPool.PutAlwaysFits | internal/performance/pool.go:169-199 | A held connection finds no room only in a pool that is over its limit. |
| ConnectionPool.WaitsOnlyWhenExhausted | internal/performance/pool.go:129-166 | Get waits exactly if the connections held and those not yet uncounted reach maxSize; within the limit, and with no Put half done, all maxSize are then held and none is idle. |
| ConnectionPool.ConservationIffLeakFree | internal/performance/pool.go:101-269 | Created - Destroyed counts the connections in existence exactly if no step of the run leaked one; with no call half done they are Active + idle. |
| ConnectionPool.WaiterLeaks | internal/performance/pool.go:149-158 | A run in which a waiter receives a dead connection and the statistics count one connection too many. |
| ConnectionPool.LeakStep | internal/performance/pool.go:101-269 | A step makes a connection vanish uncounted exactly in the listed cases: a waiter's unusable connection, or a nil connection discarded. |
| ConnectionPool.ConnectionPool.Get | internal/performance/pool.go:101-166 | An uninterrupted call takes an idle usable connection, otherwise dials if there is room, otherwise waits; it keeps a pool at rest within its limit. |
| ConnectionPool.ConnectionPool.TryTake | internal/performance/pool.go:110-127 | The first select: a usable connection is received, an unusable one closed and counted. |
| ConnectionPool.ConnectionPool.CompareCount | internal/performance/pool.go:129-149 | Room exactly if the counter is below maxSize. |
| ConnectionPool.ConnectionPool.Dial | internal/performance/pool.go:131-147 | The part after it: a connection is counted and handed out, an error changes nothing. |
| ConnectionPool.ConnectionPool.Put | internal/performance/pool.go:169-199 | Ignores nil; puts any other connection behind the idle ones if there is room and closes it otherwise; returning a held one keeps a pool at rest within its limit. |
| ConnectionPool.ConnectionPool.Cleanup | internal/performance/pool.go:225-269 | Keeps, in order, exactly the connections idle for less than the timeout and counts the closed ones. |
| ConnectionPool.SweepOneMore | internal/performance/pool.go:232-256 | Receiving one more connection keeps it if fresh and closes it otherwise; the loop is so many steps of the runs. |
| WebSocketHub.HubSafety | internal/api/server.go:518-710 | In every interleaving: no send on a closed channel, none closed twice, closed exactly when removed, at most 256 waiting, and a client's updates are an in-order part of those broadcast while it was subscribed, themselves an in-order part of all. |
| WebSocketHub.HeardOnlyWhileSubscribed | internal/api/server.go:623-637 | The record of what a client should hear grows, by the current update, exactly if the broadcaster reaches the client while it is subscribed to the update's topic. |
| WebSocketHub.NothingSkippedWithoutDrops | internal/api/server.go:699-710 | Between broadcasts a client has been given all it should hear exactly if its channel was never full when an update came. |
| WebSocketHub.UninterruptedBroadcast | internal/api/server.go:623-637 | Undisturbed, taking an update and visiting the registered clients in any order sends it to every subscribed client with room and changes no other channel. |
| WebSocketHub.UninterruptedRequest | internal/api/server.go:640-684 | Undisturbed, the steps of a request change one client, as the method HandleSubscription does. |
| WebSocketHub.RequestMeans | internal/api/server.go:640-684 | After a request the client has exactly the subscriptions it had, with the valid ones of the four topics added or removed; an unknown action changes and confirms nothing. |
| WebSocketHub.ConfirmsEachValid | internal/api/server.go:640-684 | Each valid topic of a request is confirmed once, in order, as subscribed or unsubscribed. |
| WebSocketHub.UninterruptedRegister | internal/api/server.go:518-556 | Connecting and greeting adds one client with no subscriptions and a welcome message. |
| WebSocketHub.UninterruptedRemove | internal/api/server.go:687-696 | Removal takes the client out of the map, closes its channel and leaves what waits in it. |
| WebSocketHub.ChannelIsFifo | internal/api/server.go:559-621 | Messages leave a channel in the order in which they entered it, and a step adds at most one. |
| WebSocketHub.AllPublishedAnnounced | internal/api/server.go:623-637 | In every run what was published into a queue with room has been announced or waits, all of it and in order. |
| WebSocketHub.PanicIff | internal/api/server.go:687-710 | The steps that send on a closed channel or close one twice, which HubSafety excludes. |
| WebSocketHub.UninterruptedLeave | internal/api/server.go:559-592 | Only a reading client leaves, and leaving ends in its removal. |
| WebSocketHub.RequestAppend | internal/api/server.go:640-684 | One more topic of a request changes subscriptions and confirmations as the whole-request functions say. |
| WebSocketHub.WsClient.WriteMessage | internal/api/server.go:699-710 | Appends the message if the channel has room and drops it otherwise. |
| WebSocketHub.WsClient.HandleSubscription | internal/api/server.go:640-684 | Adds or removes exactly the valid topics of the request and confirms each of them in order. |
| WebSocketHub.Server.Register | internal/api/server.go:518-556 | A new client is registered with no subscriptions and a welcome message. |
| WebSocketHub.Server.Broadcast | internal/api/server.go:623-637 | Exactly the clients subscribed to the topic are sent the message; all others are unchanged. |
| WebSocketHub.Server.Remove | internal/api/server.go:687-696 | Removes the client and closes its channel; for an unknown client nothing happens. |
| UpgradeScheduler.NextKeepsPartition | internal/governance/scheduler.go:86-417 | With validation enabled every step keeps the queue sorted by height with unique names, both queues holding the map's own records, disjoint, and together exactly the map's names. |
| UpgradeScheduler.RunFrom | internal/governance/scheduler.go:86-417 | The partition holds after every run from a partitioned state. |
| UpgradeScheduler.UnvalidatedSchedule | internal/governance/scheduler.go:86-131 | Without validation a schedule keeps the partition exactly if the name is new. |
| UpgradeScheduler.SameNameTwice | internal/governance/scheduler.go:86-131 | A run from the empty scheduler, without validation, in which a name is queued twice and the partition breaks. |
| UpgradeScheduler.MoveKeepsPartition | internal/governance/scheduler.go:352-374 | Removing the first queue entry of that name removes exactly the record that moves. |
| UpgradeScheduler.CompletedOnceIff | internal/governance/scheduler.go:183-241 | A step keeps the completed queue free of duplicates exactly if it finishes no record that is in it already. |
| UpgradeScheduler.CancelledTwice | internal/governance/scheduler.go:220-241 | A run from the empty scheduler in which one upgrade is filed twice. |
| UpgradeScheduler.QueuesAddUpIff | internal/governance/scheduler.go:260-280 | The lengths of the two queues add up to the number of upgrades exactly if the completed queue is free of duplicates; otherwise they exceed it. |
| UpgradeScheduler.DeletedNames | internal/governance/scheduler.go:393-417 | Cleanup deletes a record's name exactly if that record is completed and too old. |
| UpgradeScheduler.UpdatedMeans | internal/governance/scheduler.go:183-217 | UpdateStatus writes exactly the given status, the first start and completion time, the current upgrade and, for a final status, the move; every other record and queue entry stays. |
| UpgradeScheduler.CancelledMeans | internal/governance/scheduler.go:220-241 | A cancelled record has the status cancelled and the time of the call, and moves; nothing else changes. |
| UpgradeScheduler.UpdateMeans | internal/governance/scheduler.go:183-241 | Every step of these two kinds does that, or nothing. |
| UpgradeScheduler.ScheduleMeans | internal/governance/scheduler.go:86-131 | An accepted proposal becomes a new scheduled record under its name, queued in the order of heights. |
| UpgradeScheduler.AcceptsMeans | internal/governance/scheduler.go:309-342 | With validation, accepted are exactly upgrade proposals with a new name, a positive height and complete binaries; without, all with an info. |
| UpgradeScheduler.CleanupMeans | internal/governance/scheduler.go:393-417 | Cleanup forgets exactly the upgrades completed before the cutoff and keeps the order of the others. |
| UpgradeScheduler.DisciplineIffNoReset | internal/governance/scheduler.go:183-217 | With validation enabled a step keeps the trigger discipline exactly if it does not set a triggered upgrade back to `scheduled`. |
| UpgradeScheduler.TriggeredAtMostOnce | internal/governance/monitor.go:293-331 | In every run without such a reset each accepted upgrade is triggered at most once and never below its height. |
| UpgradeScheduler.QueuedHeight | internal/governance/scheduler.go:86-131 | An accepted upgrade is queued at a positive height exactly if the proposal's own, unchecked height is positive. |
| UpgradeScheduler.AcceptedAtHeightZero | internal/governance/scheduler.go:86-131 | A proposal at height 0 is accepted and ready at once. |
| GovernanceMonitor.ResetTriggersAgainIff | internal/governance/scheduler.go:183-217 | Between passes, setting an upgrade back to `scheduled` lets it be triggered once more, by steps that reset nothing, exactly if it is still in the scheduled queue. |
| GovernanceMonitor.SecondTriggerAfterReset | internal/governance/scheduler.go:183-217 | A run from the empty scheduler in which one upgrade is triggered twice. |
| GovernanceMonitor.PassTriggersDue | internal/governance/monitor.go:293-331 | An undisturbed pass triggers exactly the entries of the queue that are due when it begins, each once, in queue order. |
| GovernanceMonitor.PassUndisturbed | internal/governance/monitor.go:293-331 | At every point of such a pass, what was due and visited is in progress or failed, and every other record of the queue is untouched. |
| GovernanceMonitor.PassLeavesOnlyNewDue | internal/governance/monitor.go:293-331 | When a pass has visited its copy of the queue, whatever was scheduled, updated, cancelled or cleaned up meanwhile, all that is queued, due and still `scheduled` was accepted after the pass began. |
| GovernanceMonitor.PassLeavesNothingDue | internal/governance/monitor.go:293-331 | If nothing was accepted meanwhile, nothing is due any more and no upgrade is ready. |
| UpgradeScheduler.UpgradeScheduler.ScheduleUpgrade | internal/governance/scheduler.go:86-131 | Accepts exactly valid upgrade proposals and queues them in height order. |
| UpgradeScheduler.UpgradeScheduler.ValidateUpgrade | internal/governance/scheduler.go:309-342 | Accepts exactly plans with a new name, a positive height and binaries that all have URL and checksum. |
| UpgradeScheduler.UpgradeScheduler.SortByHeight | internal/governance/scheduler.go:345-349 | A permutation in ascending order of height. |
| UpgradeScheduler.UpgradeScheduler.UpdateStatus | internal/governance/scheduler.go:183-217 | Writes the status with its first start or completion time, keeps the current upgrade up to date, and moves a finished upgrade to the completed queue. |
| UpgradeScheduler.UpgradeScheduler.CancelUpgrade | internal/governance/scheduler.go:220-241 | Cancels exactly known upgrades that are not in progress and moves them to the completed queue. |
| UpgradeScheduler.UpgradeScheduler.MoveUpgradeToCompleted | internal/governance/scheduler.go:352-374 | The record leaves the scheduled queue and joins the completed queue, which is sorted newest first. |
| UpgradeScheduler.UpgradeScheduler.Cleanup | internal/governance/scheduler.go:393-417 | Deletes exactly the old completed upgrades from queue and map. |
| UpgradeScheduler.UpgradeScheduler.IsReady | internal/governance/scheduler.go:244-258 | Returns the head of the queue exactly if it is due and still scheduled. |
| GovernanceMonitor.Monitor.ProcessUpgradeQueue | internal/governance/monitor.go:293-331 | Calls triggerUpgrade exactly for what is due, in queue order, writes each answer to the record it is about, and leaves nothing due; partition and discipline are kept. |
| GovernanceMonitor.Monitor.MarkHand | internal/governance/monitor.go:312-326 | The write through the pointer followed by UpdateStatus is one marking step. |
| ArgumentParser.ScannersAgree | internal/cli/parser.go:41-182 | Whenever Parse succeeds, ExtractGethCompatibleArgs yields its node arguments without the command words. |
| ArgumentParser.NodeArgsPassThrough | internal/cli/parser.go:41-89 | Node arguments are a subsequence of the tokens behind the command, and none is a wemixvisor flag. |
| ArgumentParser.NodeArgsAreLocal | internal/cli/parser.go:60-86 | Whether a token is passed through depends on that token and the one before it only. |
| ArgumentParser.ParseOutcomes | internal/cli/parser.go:41-152 | The first token must be one of the eight commands; only stop and status refuse node arguments; otherwise command and node arguments are those of the reference. |
| ArgumentParser.FlagForms | internal/cli/parser.go:92-101 | The flags are exactly the six, alone or followed by an equals sign and anything. |
| ArgumentParser.ReparseIsStable | internal/cli/parser.go:41-89 | Parsing the command with the node arguments again gives the same node arguments and no options. |
| ArgumentParser.ExtractIdempotent | internal/cli/parser.go:154-182 | Extracting twice is extracting once. |
| ArgumentParser.OptionsOccur | internal/cli/parser.go:60-86 | An option is set exactly if its flag occurs. |
| ArgumentParser.OptionsHoldLast | internal/cli/parser.go:60-86 | An option holds the value of its flag's last occurrence. |
| ArgumentParser.OptionMeans | internal/cli/parser.go:60-86 | That value is what stands behind the equals sign, otherwise the next token unless it is missing or dashed, otherwise true. |
| ArgumentParser.FlagsAreDashed | internal/cli/parser.go:92-101 | Every wemixvisor flag starts with a dash and is no command. |
| ArgumentParser.MergeUnique | internal/cli/parser.go:185-214 | The merged arguments do not depend on the order in which the defaults are visited. |
| ArgumentParser.MergeIdempotent | internal/cli/parser.go:185-214 | The user's arguments stay a prefix, every default's flag is present, and merging again adds nothing. |
| ArgumentParser.MergeNone | internal/cli/parser.go:185-214 | Without defaults the arguments are the user's. |
| ArgumentParser.MergeOneMore | internal/cli/parser.go:185-224 | One more default, last in the order of keys, adds its flag and its value, if not empty, exactly if no user argument is the flag or starts with the flag and an equals sign. |
| ArgumentParser.StringLeqMeans | internal/cli/parser.go:185-214 | The order of the keys: a prefix first, otherwise the first character that differs decides. |
| ArgumentParser.NoDefaultOverrides | internal/cli/parser.go:185-224 | Dropping a default leaves the merged arguments alone exactly if the user gave its flag, as `flag` or `flag=...`. |
| ArgumentParser.Parse | internal/cli/parser.go:41-89 | The loop with its index and look-ahead computes the recursive specification, errors included. |
| ArgumentParser.ExtractGethCompatibleArgs | internal/cli/parser.go:154-182 | The loop computes the recursive specification. |
| ArgumentParser.BuildNodeArgs | internal/cli/parser.go:185-214 | Appends the missing defaults in ascending order of their flags. |
| ArgumentParser.HasFlag | internal/cli/parser.go:217-224 | Finds a flag in either spelling. |
| NodeManager.DoneClosedOnce | internal/node/manager.go:121-191 | In every run, whatever the timing and however many Stops wait, no channel is closed twice, a running node has a process, and no two Stops wait for the same one. |
| NodeManager.WhenRescheduled | internal/node/manager.go:430-492 | A step schedules an auto-restart exactly if it is an exit seen while not stopping, with restarting on and the limit not reached. |
| NodeManager.IncreasingIffNeverRepeats | internal/node/manager.go:453-492 | In every run, timely or not, restartCount strictly increases between schedulings exactly if no scheduling repeats the count of the one before. |
| NodeManager.AutoRestartsBounded | internal/node/manager.go:430-492 | Then, and so if every exit is seen while the node is stopping or running and every Stop ends while it is stopping, at most maxRestarts auto-restarts are scheduled. |
| NodeManager.LateExitBreaksBound | internal/node/manager.go:430-492 | With a limit of one, a late exit and the crash of the next process are two schedulings. |
| NodeManager.RestartEffect | internal/node/manager.go:326-365 | A restart schedules nothing; it leaves the node running with a raised counter, in the error state, or stopping because no signal got through. |
| NodeManager.CountersCount | internal/node/manager.go:326-357 | In every run restartCount is the number of restarts, asked for or automatic, that launched a process, and every auto-restart scheduled is asleep or has woken. |
| NodeManager.LateExitRestartsStoppedNode | internal/node/manager.go:430-472 | An exit seen when the node is stopped schedules a restart of it exactly if restarting is on and the limit not reached. |
| NodeManager.StopMayEndBeforeExit | internal/node/manager.go:234-258 | A run in which the node is stopped and the exit of its process not yet seen. |
| NodeManager.UninterruptedStop | internal/node/manager.go:234-323 | Undisturbed, the steps of a Stop are the method StopNode; without a signal the node stays stopping, and one that is not running is left alone. |
| NodeManager.WokenIffClosed | internal/node/manager.go:275-292 | The channel a Stop waits for is closed within any steps exactly if one of them is an exit seen while not stopping, a Restart that stops the node first, or the end of a Stop. |
| NodeManager.GraceNeedsRestart | internal/node/manager.go:275-292 | Without a Restart and while no Stop ends, nothing closes it, not even the exit of the process. |
| NodeManager.RestartCutsGraceShort | internal/node/manager.go:275-292 | A Restart during the Stop, whose new process crashes, closes it. |
| NodeManager.NodeManager.StartNode | internal/node/manager.go:121-164 | Starts exactly from the stopped state if the binary launches; a failed launch leaves the error state. |
| NodeManager.NodeManager.StopNode | internal/node/manager.go:234-325 | Stops exactly a running node that can be signalled; otherwise it stays stopping or nothing changes. |
| NodeManager.NodeManager.RestartNode | internal/node/manager.go:326-365 | Stops if running, resets the state, starts, and counts exactly successful restarts. |
| NodeManager.NodeManager.HandleProcessCrash | internal/node/manager.go:453-472 | Closes the channel once and schedules an auto-restart exactly if configured and below the limit, otherwise leaves the error state. |
| NodeManager.NodeManager.Exited | internal/node/manager.go:430-492 | An exit while stopping is no crash; any other marks the node crashed and schedules a restart if configured and below the limit. |
| Migrator.PathClimbs | internal/config/migrator.go:66-90 | For from < to the versions visited strictly increase, never pass `to`, and end at it. |
| Migrator.PathSplits | internal/config/migrator.go:266-290 | The walk to c is the walk to b followed by the walk from b exactly if b lies on the walk to c. |
| Migrator.MigrationsCompose | internal/config/migrator.go:66-90 | Stopping at any version that the walk visits changes nothing in the result. |
| Migrator.TableMigrationsCompose | internal/config/migrator.go:37-90 | For table versions a <= b and any c >= b, migrating a to c equals a to b and then b to c. |
| Migrator.ComposesIff | internal/config/migrator.go:37-90 | For a <= b <= c: migrating by way of b gives the same as migrating at once for all settings exactly if a and b are both in the table or both not, or no version with its own migration lies beyond b up to c; and exactly if both ways make the same migrations. |
| Migrator.StepIff | internal/config/migrator.go:37-90 | A migration makes the step of a table edge exactly if it starts at a table version below the end of the edge and reaches that end. |
| Migrator.FilledIffStep | internal/config/migrator.go:157-263 | A group of fields has values afterwards exactly if it had them before or its step was made. |
| Migrator.DetourSkipsSteps | internal/config/migrator.go:266-290 | Stopping at 0.1.5 on the way from 0.1.0 to 0.2.0 leaves the backup path empty. |
| Migrator.DetourAddsSteps | internal/config/migrator.go:266-290 | From 0.1.5 to 0.3.0 an empty RPC address stays empty; stopping at 0.2.0 fills it. |
| Migrator.HarmlessDetour | internal/config/migrator.go:266-290 | Stopping at 0.5.5 between 0.5.0 and 0.6.0, off the table and off the walk, changes nothing. |
| Migrator.StepFills | internal/config/migrator.go:157-263 | A step overwrites no field that has a value, gives its own fields values, and is the identity exactly if they have values. |
| Migrator.MigrationKeepsAndRepeats | internal/config/migrator.go:37-90 | A whole migration overwrites no value, and repeating it changes nothing. |
| Migrator.FullChainSetsDefaults | internal/config/migrator.go:142-249 | From 0.1.0 to 0.5.0 or later every field with a default ends up with a value. |
| Migrator.EdgesMean | internal/config/migrator.go:142-249 | What each of the four releases with a migration of its own fills in, with the values; every other field stays. |
| Migrator.OtherStepsMean | internal/config/migrator.go:252-290 | From 0.5.0 on, any migration makes sure of a home and a name and changes nothing else. |
| Migrator.PortMeans | internal/config/migrator.go:203-218 | The port is read from behind the colon if the address has exactly one, and is unknown otherwise. |
| Migrator.DecimalMeans | internal/config/migrator.go:243-246 | The chain ID is the network ID in digits without leading zeros; reading it gives the number back. |
| Migrator.WholeTable | internal/config/migrator.go:266-290 | The versions visited from 0.1.0 to 1.0.0. |
| Migrator.Migrator.Migrate | internal/config/migrator.go:37-90 | Fails exactly on nil, unparsable versions or a downgrade; otherwise returns the given object for equal versions and a fresh migrated copy else, leaving the original alone. |
| Migrator.Migrator.GetNextVersion | internal/config/migrator.go:266-290 | The table's next version, or the target where the table would pass it or does not know the current one. |
| Migrator.Migrator.MigrateV1ToV2 | internal/config/migrator.go:157-172 | Fills backup path, shutdown grace and retries where they have no value. |
| Migrator.Migrator.MigrateV2ToV3 | internal/config/migrator.go:175-187 | Fills RPC address and download map where they have no value. |
| Migrator.Migrator.MigrateV3ToV4 | internal/config/migrator.go:190-221 | Fills intervals, restarts and the RPC port, the latter from the address if it has exactly one colon and a number behind it. |
| Migrator.Migrator.MigrateV4ToV5 | internal/config/migrator.go:224-249 | Fills version, network by validator mode, and chain from the network. |
| Migrator.Migrator.GenericMigration | internal/config/migrator.go:252-263 | Fills home and name where they have no value. |
| BatchPlan.CreatePlan | internal/batch/batch.go:41-80 | Sorts the caller's slice in place in any case; accepts exactly named upgrades of positive, pairwise different heights that can be saved; the plan is then strictly increasing; otherwise the error is the first fault, or that of saving. |
| BatchPlan.CheckUpgrades | internal/batch/batch.go:48-60 | Comparing neighbours in a sorted list decides whether all heights differ; the reported fault is the first one. |
| BatchPlan.FaultMeans | internal/batch/batch.go:48-60 | Which upgrade has which fault: no name, no positive height, or a height that does not rise, in this order. |
| BatchPlan.ReorderingKeepsChecks | internal/batch/batch.go:43-60 | What is checked does not depend on the order in which the upgrades are given. |
| BatchPlan.ValidatePlan | internal/batch/batch.go:156-188 | Accepts exactly named, non-empty plans with different names and strictly increasing heights; for each objection, exactly when it is reported. |
| BatchPlan.GetNextUpgrade | internal/batch/batch.go:191-198 | The loop returns the first upgrade above the height. |
| BatchPlan.NextIsLeast | internal/batch/batch.go:191-198 | In a plan the next upgrade is the lowest above the current height; there is none only past the last. |
| BatchPlan.EnumeratesPlan | internal/batch/batch.go:191-198 | Following the next upgrade from height 0 lists the plan in order. |
| BatchPlan.NextFollowsCompleted | internal/batch/batch.go:298-323 | The next upgrade stands right behind the completed ones, which are exactly those at or below the height. |
| BatchPlan.GetPlanStatus | internal/batch/batch.go:298-323 | completed + pending = total, completed counts the upgrades at or below the height, active is the first pending name. |
| BatchPlan.ActiveNamesNext | internal/batch/batch.go:298-323 | `active` is the next upgrade's name exactly if there is none, it has a name, or no pending one has. |
| BatchPlan.NeverTriggers | internal/wbft/coordinator.go:123-141 | The loop never triggers an upgrade, whatever states it reads. |
| BatchPlan.EndsPastLast | internal/wbft/coordinator.go:98-104 | The loop ends exactly with the first height at or past the whole plan. |
| BatchPlan.PassedIsPrepared | internal/wbft/coordinator.go:88-121 | If heights start below the plan and advance by at most ten and by at most the smallest spacing, every upgrade passed was prepared before. |
| BatchPlan.PreparedInPlanOrder | internal/wbft/coordinator.go:88-121 | If they also do not go back, the preparations run through a prefix of the plan in order, none left out. |
| BatchPlan.CompletedPlanWasPrepared | internal/wbft/coordinator.go:88-121 | When such a loop ends, the whole plan has been prepared in order. |
| BatchPlan.PreparedIffWindowSeen | internal/wbft/coordinator.go:98-121 | For every run, an upgrade was prepared exactly if a height was seen at most ten blocks below it at which it was the next one. |
| BatchPlan.PreparedSorted | internal/wbft/coordinator.go:88-121 | On a chain that does not go back, preparations come in plan order, however fast it advances. |
| BatchPlan.WhollyPreparedIff | internal/wbft/coordinator.go:88-121 | When the loop ends on such a chain, the whole plan has been prepared in order exactly if for each upgrade a height in its window was seen. |
| BatchPlan.FastChainSkipsPreparation | internal/wbft/coordinator.go:98-121 | A jump of eleven blocks completes a plan of one upgrade without preparing it. |
| BatchPlan.Coordinator.LoadPlan | internal/wbft/coordinator.go:37-57 | Makes a plan active exactly if it was read and is valid; otherwise the active one stays. |
| BatchPlan.Coordinator.MonitorAndCoordinate | internal/wbft/coordinator.go:60-144 | Fails in order without a plan, readiness or height; otherwise prepares exactly what the specification says of the states read. |
| FileWatcher.AgreeIffNeverMisses | internal/upgrade/watcher.go:110-173 | For every run, the skipping watcher and one that reads every time agree at every point exactly if no faultless look skips a readable upgrade other than the current one. |
| FileWatcher.SkipRefinesReread | internal/upgrade/watcher.go:110-173 | If every write has a later modification time, skipping by that time gives the same current upgrade and flag as reading on every poll, over any run of writes, bad contents, deletions, faults, polls and clears. |
| FileWatcher.SameTimeWriteIsMissed | internal/upgrade/watcher.go:160-163 | Two writes with the same modification time separate the two watchers. |
| FileWatcher.StartAloneIsQuiet | internal/upgrade/watcher.go:44-142 | For every run: an upgrade found by Start is adopted and the flag stays down, however the file is rewritten with it, damaged or deleted afterwards. |
| FileWatcher.FlagIffRaised | internal/upgrade/watcher.go:44-194 | In every run the flag is up exactly if a poll has changed the current upgrade since the last clear. |
| FileWatcher.CheckMeans | internal/upgrade/watcher.go:145-173 | What a look at the file finds, and exactly when it fails. |
| FileWatcher.NewUpgradeIsNoticed | internal/upgrade/watcher.go:110-142 | A readable upgrade that differs from the current one becomes current and raises the flag at the next poll. |
| FileWatcher.FileWatcher.ReadFile | internal/upgrade/watcher.go:145-173 | The order of the checks, and the time is remembered only for a file that was read. |
| FileWatcher.FileWatcher.Start | internal/upgrade/watcher.go:44-70 | Once only; adopts a readable upgrade without raising the flag. |
| FileWatcher.FileWatcher.CheckForUpdate | internal/upgrade/watcher.go:110-142 | Detects exactly a change of the current upgrade and raises the flag with it. |
| FileWatcher.FileWatcher.ClearFlag | internal/upgrade/watcher.go:190-194 | Resets the flag only. |
| Notifier.RankDecides | internal/governance/notifier.go:389-429 | An entry past its age is dropped; one in age survives if at most maxNotifications are at least as new, and is dropped if that many are newer. |
| Notifier.RetentionUnique | internal/governance/notifier.go:404-422 | Only ties in the timestamps leave a choice of what is kept. |
| Notifier.CleanupsCompose | internal/governance/notifier.go:389-429 | A cleanup on the way does not change what a later one may leave. |
| Notifier.CleanupIdempotent | internal/governance/notifier.go:389-429 | A second cleanup at the same time removes nothing. |
| Notifier.StoreBounded | internal/governance/notifier.go:389-479 | In every run entries are filed under their own IDs, and the store holds at most maxNotifications plus what was sent since the last cleanup. |
| Notifier.HoldsLastSent | internal/governance/notifier.go:363-479 | In every run the store holds exactly what was sent while sending was on and dropped by no cleanup since, as last sent, and read if marked since. |
| Notifier.NewestAreRetained | internal/governance/notifier.go:404-419 | The first maxNotifications of the list sorted newest first are a legal choice. |
| Notifier.Notifier.CleanupOld | internal/governance/notifier.go:389-429 | Leaves at most maxNotifications entries, none older than the cutoff, each at least as new as any dropped in-age one; `removed` is the drop in size. |
| Notifier.Notifier.GetNotifications | internal/governance/notifier.go:325-340 | Every entry exactly once, newest first. |
| Notifier.Notifier.SendNotification | internal/governance/notifier.go:470-479 | Files the notification under its ID exactly if enabled. |
| Notifier.Notifier.MarkAsRead | internal/governance/notifier.go:363-374 | Marks a known notification and fails for an unknown one. |

## Left out

- Clocks, RPC answers, process exits, file contents and the results of dialling, downloading, saving and
  triggering are inputs of the steps. Loggers, hooks, backups, symlinks, metrics and the HTTP handlers
  are not part of this model.
- `Clear` of the cache is a whole step only: interleaved with the second half of a Get, list.Init leaves
  elements that still believe they are in the list.
- The cache's list is a sequence of nodes with identities, not a ring of pointers; hit rates and other
  floating-point statistics, the plan's progress percentage included, are left out.
- The scheduler's shared pointers are indices into a list of records, so that writing through one pointer
  is seen through the others; a caller that keeps and changes its own proposal or upgrade object is not
  modelled. The delay and enabled settings of the scheduler are not part of the decisions modelled.
- The worker pool is modelled until Stop; the counters of queued and active tasks and
  WaitForCompletion, which ignores tasks in hand, are left out. So is `stats.Idle` of the connection pool:
  idle is the length of the channel.
- The pool's counters Created and Destroyed, which no decision reads, change in the same step as what they count.
  Calls blocked in its second select are not told apart.
- The rate limiter's map is not synchronised: the two halves of a handler, each of which reads and writes the list of
  its address, are taken to be indivisible. Updates lost within a half, and Go's own abort on concurrent map writes,
  are not modelled.
- In the node manager Restart is one step, its two-second delay included, and Stop reads the channel it waits for in
  the step that sets the state.
- The monitor's write of a status through its pointer, which takes no lock, and the UpdateStatus that follows are one
  step (`Mark`). A reader between the two, who would see the status without its times, is not modelled.
- The watcher's goroutine in the orchestrator appears as one more caller of ScheduleUpgrade; its handshake
  with the file watcher's flag is not modelled. The file watcher itself is modelled without Stop, and one
  poll looks at the file at one moment.
- The parsing of version strings is left out: Migrator.Migrate takes the parsed versions, or the fact that
  one does not parse. The copy through JSON is taken to be exact, which it is for valid UTF-8, and fields
  that no migration reads or writes are not listed.
- filepath.Clean and the number read by Sscanf are parameters of the migration; all that is used is that
  Clean never answers the empty string.
- BatchPlan.Coordinator.MonitorAndCoordinate: does not model what prepareUpgrade writes to disk, because a
  failure there is only logged.
- Notifier.Notifier.GetNotifications: does not model that callers share the notifications with the store.
- Config manager merge and split, validators, templates, health, alerts, proposal categories and log
  tailing would only add easy members.
