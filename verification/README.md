# Verified model of hotload

hotload is an SQL driver that wraps another driver and swaps its DSN at run time. A file-watch
strategy reads the DSN from a file and sends each new value, through a bounded queue for every
query, to the one consumer of that query; the consumer, a chanGroup, turns received values into
generations of connections that it resets, cancels and closes in a fixed order, while
`database/sql` opens, validates and closes connections at the same time.

The project models that protocol and the two small stateful helpers beside it.

| part of the program | modules |
|---|---|
| generation rollover, as a state machine over every interleaving | `Rollover`, `RolloverInvariant`, `RolloverTheorems` |
| the same code on Go slices and objects, in place | `ChanGroups`, `HotloadDriver`; specification shared through `GroupCore` |
| the strategy's fan-out, as a state machine | `FanOut`, `FanOutInvariant`, `FanOutTheorems` |
| closing after sending, and exactly when it holds | `CloseMoves`, `CloseOrder`, `CloseExactly`, `DoubleClose` |
| waiting for a full queue, and exactly when it ends | `Blocking` |
| the same code on objects and maps, in place | `FileWatcher` |
| the strategy's event loop and the file watcher | `WatchCoverage`, `EventLoop` |
| strategy and chanGroups together | `EndToEnd`, `PipelineWaits`, `PipelineStuck` |
| lock order of the driver's mutexes | `Locks` |
| the bounded secret store, and its runs | `SecretSink`, `SecretSinkTheorems`, `SecretSinkRuns` |
| the byte generator | `Generator` |
| sequences | `Sequences` |

How the machines are read. A state machine has a predicate `Enabled` and a function `Do`; a run is
a sequence of enabled actions, and a theorem about a `Reachable` state is about all runs. One
action is what happens under one lock, or one call outside any lock: an underlying `Close` and the
`removeMgdConn` that follows it are two actions, each turn of a loop of `processNewValue` is an
action, and so is each send of `setVal`. `setVal` and `CloseWatch` wait for room in a queue with
the mutex held, so such a wait is a state of the mutex. Fields that the program does not have
record history: the generation of a connection, how often, and by whom, its underlying `Close` was
called, and whether the end of its generation still found it listed; every value that a path has
had; every operation that a queue has carried; what the background thread did, in order.

How machines and classes fit. The methods of `ChanGroup` are proved equal to the functions
`Rotate`, `Insert` and `Remove` of module `GroupCore`, and those are what the machine's critical
sections are made of. `Strategy` in module `FileWatcher` carries the state of machine `FanOut` that
its objects are in; `Valid()` says that it is a reachable one, so what is proved of the machine
holds of the objects. In both, a parameter (`schedule`, `turns`) says what the other goroutines do
at each point where the method does not hold the lock or waits, and is arbitrary.

Assumptions, each visible in the model:

- Every query's update channel has one reader, the chanGroup that the same `hdriver.Open` made.
- Calls of the underlying driver return. `Strategy.Close` is not called.
- The file watcher drops a path by itself only together with a Remove event.
- A merge of DSN and driver options, and the parsing of a hotload URL, are arbitrary functions.
- `Close` of the update channel and its being set to nil are one step. `afterClose` is set, as it is
  for every connection that `chanGroup.Open` makes.
- The sink's clock readings never run backwards. They may tie, `maxCount` may be 0 and UUID
  generation may fail: `Add` says what happens then. The cache theorems are about readings that
  strictly increase, a positive `maxCount` and UUIDs that can be had.
- Paths and queries arrive as `path.Clean` and `strings.TrimSpace` leave them.

Where code and documentation differ, the model follows the code. `Strategy.Watch` promises updates
"if the value has changed" (driver.go:64-67), but `setVal` sends every value it reads and the
chanGroup drops repeats. `CloseWatch` is documented to remove the path from the watcher
(fsnotify/filewatcher.go:216-218), but the path goes only with its last query, and only once the
query's own goroutine reaches the queued operation.

Some promises hold under a condition only, and then the condition is exact.

- Every value queued before the close operation is delivered. An open query is safe from now on if
  and only if it has received all that is due already, or no close operation of another
  registration of the same path and query is on its way (`CloseExactly.SafeExactly`). That is so
  when no earlier registration was asked twice to close (`CloseOrder.CloseIsOrderedAfterSends`);
  `DoubleClose` is a run in which one was.
- `setVal` and `CloseWatch` get to send. One that waits for a full queue can go on if and only if
  the query it waits for is not running a closure, which needs the mutex, while its consumer reads
  (`Blocking.WaitEndsExactly`). In the whole pipeline the consumer is a chanGroup, and the wait can
  end if and only if the query is in its select, or has a value in hand and its chanGroup has not
  terminated (`PipelineWaits.WaitEndsExactly`). `Blocking.SomeStateIsStuck` and
  `PipelineStuck.SomeWaitIsHopeless` reach states of both kinds in which it cannot.
- Each connection is closed exactly once. Past its grace window, if and only if the end of its
  generation found it listed and nobody else closes it, or found it gone and it had been closed
  once (`RolloverTheorems.ClosedExactlyOnce`); `RolloverTheorems.ClosedTwice` is a run with two.
- `Add` evicts the least recently used entry. It does, in whatever order the map is visited, if and
  only if no other entry carries the oldest reading (`SecretSink.EvictsLruExactly`); on a tie some
  order of visiting evicts any of the oldest (`SecretSink.AnyVictimCanBeFound`), as
  `SecretSinkRuns.TieEvictsNewest` does.
- `Add` never dereferences nil. It does so if and only if the secret is new, the store is full and no
  entry is older than the reading (`SecretSink.RandomSecretSink.Add`), as after two calls at one
  reading with a capacity of 1 (`SecretSinkRuns.TieDereferencesNil`).

## Model

| member | source | states |
|---|---|---|
| RolloverTheorems.StaleConnectionsRefused | driver.go:258-370 | Between changes, every connection of an older generation is marked reset or has been closed, so one that `ResetSession` accepts and nobody closed has the DSN merged from the current value. |
| RolloverTheorems.NoConnectionLeaks | driver.go:347-363 | Between changes, every connection at least two generations old (one with `forceKill`) has had its underlying `Close` called, whatever clients did meanwhile. |
| RolloverTheorems.GraceWindowBetweenChanges | driver.go:320-370 | Exact marks between changes, for every connection: reset if and only if its generation has ended and the end found it listed; then closed by the loop, exactly once, if and only if the window has passed; not listed any more only if somebody else had closed it; context done if and only if the window has passed. |
| RolloverTheorems.TwoModes | driver.go:320-370 | Between changes, without `forceKill` the current and the previous generation are neither closed by the loop nor cancelled, and every older listed connection is both; with it every listed connection of an earlier generation is both, and the current one neither. |
| RolloverTheorems.HandedAtRotation | driver.go:283-301 | What "found it listed" is: the change that ends a generation marks exactly its connections for which no `removeMgdConn` has finished, and no other step changes the mark. |
| RolloverTheorems.ClosedExactlyOnce | driver.go:412-421 | Past its window a connection has been closed exactly once if and only if it was listed and nobody else closed it, or was not and exactly one other close was made. |
| RolloverTheorems.ClosedTwice | driver.go:412-421 | In both modes, for any value and merge that succeeds, a reachable state with a connection closed twice. |
| RolloverTheorems.GraceWindowWithinChange | driver.go:320-370 | The same at each step: a reset happens in the first change after the connection's generation, the close and the cancellation in the change that ends its window. |
| RolloverTheorems.OrderWithinChange | driver.go:315-370 | Within a change, under every interleaving: nothing is reset or closed before the context due is cancelled; with `forceKill` nothing is closed before it is reset, without it nothing is reset before all due closes are made. |
| RolloverTheorems.ExactlyTheOldContextsAreCancelled | driver.go:288-291 | With a live parent context, the done contexts between changes are exactly those of generations outside the window, and the current one is never done, also during a change. |
| RolloverTheorems.Ownership | driver.go:283-301 | In every reachable state the current list has no duplicates and only connections of the current context and DSN; every current connection missing from it, and every previous one missing from the previous list, has been closed. |
| RolloverTheorems.CancelBeforeClose | driver.go:315-363 | Whenever the background loops or the guards call an underlying `Close`, the connection's context is already done. |
| RolloverTheorems.GenerationsAreReceivedValues | driver.go:265-269 | The generation values are the initial and received values with consecutive repeats removed. |
| RolloverTheorems.EqualValueIsIgnored | driver.go:269-273 | Receiving the current value again changes nothing. |
| RolloverTheorems.GenerationsDiffer | driver.go:269-273 | In every reachable state, each generation's value differs from the one before. |
| RolloverTheorems.OpenAddsOneOrNothing | driver.go:392-410 | An `Open` adds one untouched connection of the current context and DSN, or, when merge or driver fails, nothing. |
| RolloverTheorems.ClientsNeverWait | conn.go:204-254 | Opens, closes and the parent's end are possible at any moment, the guard's close exactly on a done context, a `removeMgdConn` exactly after its close. |
| RolloverTheorems.ClosesAreCounted | conn.go:235-254 | Over any run, a connection's closes by clients and by guards are counted apart and exactly, and those still to be followed by their `removeMgdConn` are the closes less the removals. |
| RolloverTheorems.ParentEndsAll | driver.go:232-235 | Once the parent context has ended every context is done, for ever. |
| RolloverTheorems.WaysOut | driver.go:232-241 | The parent's end also cancels the current context; the channel's end only stops the thread. |
| RolloverTheorems.TerminationIsFinal | driver.go:228-244 | A thread that has stopped never resets, closes, cancels or receives again, whatever clients do. |
| RolloverTheorems.ChangeCompletes | driver.go:313-370 | Whatever clients do, a change is over after exactly `Work` steps of the loop's own thread, and not before. |
| RolloverInvariant.ReachableInv | driver.go:247-422 | The inductive invariant behind these: versions, lists, pending loops, marks, contexts and history agree in every reachable state. |
| RolloverInvariant.StepInv | driver.go:228-422 | Each single step of the loop, a client or a pending `removeMgdConn` keeps that invariant. |
| ChanGroups.ChanGroup.constructor | driver.go:455-466 | A new chanGroup has the initial value, a live child of the parent context and no connections. |
| ChanGroups.ChanGroup.Open | driver.go:392-410 | Appends a connection of the current context and merged DSN, in place or in a grown array; a failed merge or driver leaves all as it was. |
| ChanGroups.ChanGroup.Position | driver.go:412-416 | The scan finds the first occurrence, or the length when there is none. |
| ChanGroups.ChanGroup.ShiftDown | driver.go:417 | The append of the tail onto its own array removes exactly one element and writes nothing behind the old end. |
| ChanGroups.ChanGroup.RemoveMgdConn | driver.go:412-422 | On the slice, removal of the first occurrence and nothing else, in the same backing array; the element behind the new end stays. |
| ChanGroups.ChanGroup.CriticalSection | driver.go:258-305 | Rotates values, contexts and lists and hands over the old ones; an equal value changes nothing. |
| ChanGroups.ChanGroup.CloseAll | driver.go:358-363 | Every listed connection is closed by the loop exactly once, in order, and no other is, although each `Close` re-enters `RemoveMgdConn` and clients interfere. |
| ChanGroups.ChanGroup.ResetAll | driver.go:367-369 | Every listed connection is reset, in order, and no other. |
| ChanGroups.ChanGroup.KillAll | driver.go:347-354 | Every listed connection is reset and then closed exactly once, in order, and no other. |
| ChanGroups.ChanGroup.ProcessNewValue | driver.go:247-371 | The whole change: new value and live context; the mode's cancel, resets and closes, each exactly once and in exactly the order the mode prescribes; no other connection touched, the arrays iterated over never written, and nothing but new objects added, so that changes can follow each other. |
| ChanGroups.TwoChanges | driver.go:320-370 | Over two changes in either mode, a listed connection is reset by the first, and closed by the loop exactly once: by the first with `forceKill`, otherwise by the second and not before; its context's cancel function has been called by then. |
| ChanGroups.KillInOrder | driver.go:320-354 | With `forceKill`, deed by deed: the previous context is cancelled first, then each listed connection is reset and closed in turn, and nothing else is done. |
| ChanGroups.ReleaseInOrder | driver.go:326-369 | Without, deed by deed: the previous-previous context, if any, is cancelled first, then its connections are closed, then the previous ones are reset, each list in order. |
| ChanGroups.GuardAfterChange | conn.go:204-211 | After a change the guard closes and rejects a connection of the generation just cancelled, and accepts one whose own context and parent are live. |
| ChanGroups.ManagedConn.Close | conn.go:235-254 | One underlying `Close`, the callback's removal from the owner, `killed` only on success. |
| ChanGroups.ManagedConn.CloseIfDone | conn.go:204-211 | If the connection's own context or its parent has been cancelled, the connection is closed, removed and reported bad; otherwise nothing happens. |
| ChanGroups.ManagedConn.ResetSession | conn.go:220-233 | Refuses exactly the connections that have been reset or that the underlying driver refuses. |
| HotloadDriver.HDriver.RegisterStrategy | driver.go:155-165 | Adds the name, or panics for a nil strategy or a taken name and changes nothing. |
| HotloadDriver.HDriver.RegisterSQLDriver | driver.go:115-130 | Binds the name to the driver's merge, or panics for a nil driver or a taken name and changes nothing. |
| HotloadDriver.HDriver.FindGroup | driver.go:435-474 | Bad URL, unknown scheme, unknown host and failed watch are told apart, in that order, with nothing changed; a known name needs none of the last three; a new one gets a chanGroup of the watched value, the host's driver and the URL's mode. |
| HotloadDriver.HDriver.Open | driver.go:434-476 | The same answers for the same causes; the first `Open` of a name makes one chanGroup, kept even if opening then fails; later ones use it and watch nothing again. |
| HotloadDriver.OpenTwice | driver.go:434-476 | Two calls for a new name make one chanGroup; both connections are in it, in order and with one DSN and context, or neither is. |
| FanOutTheorems.NothingIsLost | fsnotify/filewatcher.go:136-153 | For an open query, initial value, received values, the one in hand and the queued ones are the path's values since its registration, in order, but for the newest while a running `setVal` has not reached it. |
| FanOutTheorems.RegistrationStartsAtPresent | fsnotify/filewatcher.go:196-213 | A new query is registered with an empty queue and an open channel, and starts from its path's present value, the last of the path's history. |
| FanOutTheorems.QueuesHoldThirty | fsnotify/filewatcher.go:145-152 | `setVal` and `CloseWatch` can send exactly while the queue holds fewer than 30 operations. |
| FanOutTheorems.RegistryIntegrity | fsnotify/filewatcher.go:170-264 | With the mutex free, every path has a query, the registered queries are exactly those with an open channel, and queues keep their capacity. |
| FanOutTheorems.NeverClosedTwice | fsnotify/filewatcher.go:245-308 | A closure that finds a query finds its channel open; a closed channel is never opened again and delivers nothing more. |
| FanOutInvariant.StepInv | fsnotify/filewatcher.go:136-333 | Each step of `Watch`, `setVal`, `CloseWatch`, a closure or an opLoop keeps the registry intact and every open query's values conserved. |
| CloseOrder.CloseIsOrderedAfterSends | fsnotify/filewatcher.go:219-333 | If no earlier registration of the same path and query was asked twice to close, a closed query's consumer received exactly the values queued before its close operation; an open one received a prefix of them. |
| CloseOrder.ClosesItself | fsnotify/filewatcher.go:310-321 | In a reachable state, if moreover the query itself was asked at most once, its closure closes that very query. |
| CloseOrder.ForeignClosure | fsnotify/filewatcher.go:240-250 | In a reachable state, a closure that finds another query than its own finds a later registration, and comes after a second request for an earlier one. |
| CloseExactly.SafeExactly | fsnotify/filewatcher.go:219-333 | While no `setVal` or `CloseWatch` holds the mutex, an open query keeps the promise in every future if and only if all due has been received or no other registration of its path and query has a close operation on its way. |
| CloseExactly.ClosedIsSettled | fsnotify/filewatcher.go:287-308 | A closed query keeps the promise for ever if and only if it keeps it now. |
| CloseExactly.RivalTakesDown | fsnotify/filewatcher.go:310-321 | In such a reachable state, a close operation of another registration that is on its way has a run in which it takes the query down, with nothing more queued or delivered. |
| Blocking.WaitEndsExactly | fsnotify/filewatcher.go:136-153 | While consumers read, a `setVal` or `CloseWatch` that waits for room can go on if and only if the query it waits for is not running a closure. |
| Blocking.StuckForEver | fsnotify/filewatcher.go:240-243 | Otherwise the mutex is never free again, in any run. |
| Blocking.OpenNeverHangs | fsnotify/filewatcher.go:287-303 | No opLoop hangs on a nil channel while its own channel is open. |
| Blocking.SomeStateIsStuck | fsnotify/filewatcher.go:136-264 | For any path, query and value, a reachable state that is stuck. |
| DoubleClose.TwoClosesCanLoseValues | fsnotify/filewatcher.go:219-264 | A reachable state, for any path, query and value, where a query nobody asked to close is closed with a value queued and undelivered. |
| FileWatcher.Strategy.Watch | fsnotify/filewatcher.go:156-214 | Registers path and query, or finds them, or fails with nothing changed; the answer is the path's value and the query registered; what is added is new. |
| FileWatcher.WatchThenSet | fsnotify/filewatcher.go:136-214 | A new path that is watched and then changes: its query starts from the value read, and the new value is queued next unless `setVal` has to wait. |
| FileWatcher.Strategy.SetVal | fsnotify/filewatcher.go:136-153 | Assigns the value and queues it once for each query of the path and for no other; else names a query whose full queue it waits for. An unknown path changes nothing. |
| FileWatcher.Strategy.CloseWatch | fsnotify/filewatcher.go:219-238 | Queues one close operation for the registered query and for no other, or waits for its full queue; without a registration, nothing. |
| FileWatcher.Strategy.ProcessWatchClosure | fsnotify/filewatcher.go:240-264 | Unregisters the named query, closes its channel, which is open then, and drops a path left without queries. |
| FileWatcher.Strategy.OpLoopTurn | fsnotify/filewatcher.go:287-333 | A move of one goroutine is that step of the machine and changes no other query. |
| FileWatcher.Query.Take | fsnotify/filewatcher.go:310-328 | Takes the head of the queue; a value for a nil channel is dropped, a close operation starts a closure. |
| FileWatcher.Query.CloseUpdateChan | fsnotify/filewatcher.go:305-308 | Closes an open channel; the precondition is what keeps Go's close from panicking. |
| FileWatcher.ClosedReachable | fsnotify/filewatcher.go:240-264 | A whole closure is a run of the machine, and comes to unregistering, dropping an emptied path and going back to the select. |
| FileWatcher.ServingNext | fsnotify/filewatcher.go:145-152 | Serving one query more, in any order of the map, leaves exactly the others to serve. |
| WatchCoverage.EveryPathIsCovered | fsnotify/filewatcher.go:73-134 | Outside a running closure, every registered path is in the watcher, in the failed paths, in a running resync, or has its Remove event queued. |
| WatchCoverage.StepInv | fsnotify/filewatcher.go:73-134 | Each step of the event loop, the watcher, `Watch` and the closures keeps that coverage and the sweep's bookkeeping. |
| EventLoop.EventReachesSetVal | fsnotify/filewatcher.go:90-108 | A write or remove event at the head of the queue leads, if the resync succeeds, to the path being watched again, given the value read and sent out to all its queries; an unregistered path only to being watched. |
| EventLoop.OtherEventsAreDropped | fsnotify/filewatcher.go:97-99 | An event that is neither changes nothing but the queue. |
| EventLoop.TickRetriesFailed | fsnotify/filewatcher.go:117-127 | At a tick a failed path is resynced, and on success assigned and sent out in the same way. |
| EventLoop.TickSweepsFailed | fsnotify/filewatcher.go:119-121 | A tick's sweep visits exactly the failed paths, in any order. |
| EventLoop.SetValReturns | fsnotify/filewatcher.go:108-128 | When every query has been served the mutex is free again, and the loop is back in its select or its sweep. |
| EventLoop.SweepEnds | fsnotify/filewatcher.go:129-131 | A sweep ends when it has visited all, and exactly the repaired paths stop being failed. |
| EventLoop.ResyncFails | fsnotify/filewatcher.go:73-84 | A failing Remove, read or Add leaves values alone; an event's path becomes failed, a swept one stays failed. |
| EventLoop.FailedWatchIsUndone | fsnotify/filewatcher.go:179-195 | A `Watch` whose file cannot be read leaves the registry as it was and the path out of the watcher. |
| EventLoop.EmptiedPathLeaves | fsnotify/filewatcher.go:251-260 | A path left without queries leaves the watcher and the registry, and the closure's goroutine goes back to its select with the mutex free. |
| WatchCoverage.RegistryIsFanOut | fsnotify/filewatcher.go:86-134 | The event loop drives the registry only as machine `FanOut` allows. |
| EndToEnd.HalvesAreReachable | driver.go:453-473 | In every run of the whole pipeline, strategy and chanGroups each run as they do alone, and agree on what was delivered. |
| EndToEnd.EndToEndConservation | fsnotify/filewatcher.go:287-333 | Initial value, values the chanGroup received, the value in hand and the queued ones are the path's history since the registration. |
| EndToEnd.Convergence | driver.go:228-304 | With nothing pending and the loop idle, the chanGroup's value is the path's, and its generations are the path's history with consecutive repeats removed. |
| EndToEnd.SettledConnectionsAreCurrent | driver.go:392-410 | In such a state every connection not closed and not refused was opened with the DSN of the path's present value. |
| EndToEnd.StopsWithReason | driver.go:230-241 | A chanGroup stops only after its parent context has ended or its query's channel has been closed. |
| PipelineWaits.WaitEndsExactly | fsnotify/filewatcher.go:136-153 | In the whole pipeline a wait for room can end if and only if the query is in its select, or has a value in hand and its chanGroup has not terminated. |
| PipelineWaits.HopelessForEver | driver.go:228-240 | Any other wait lasts for ever, whatever clients, closures and files do. |
| PipelineStuck.SomeWaitIsHopeless | driver.go:232-235 | For any path, query and value, a reachable state where `setVal` waits for ever for a query that runs no closure, since its chanGroup has stopped with the parent context. |
| Locks.EveryCallIsOrdered | driver.go:342-414 | Every entry point takes driver, connection, group and sink locks in that order and releases them all. |
| Locks.LocksOfConn | conn.go:235-268 | The exact locks of closing, guarding and resetting: a close takes the chanGroup's lock within the connection's, the guard takes the chanGroup's alone. |
| Locks.LocksOfDriver | driver.go:434-476 | The exact locks of registering and opening: a chanGroup opens within the driver's lock, and redacts within both. |
| Locks.LocksOfChange | driver.go:258-370 | A change gives the chanGroup's lock back before it touches any connection. |
| Locks.LocksOfLoops | driver.go:347-369 | Its loops take the locks of each reset and each close in turn and hold none in between. |
| Locks.NoWaitCycle | conn.go:235-268 | No reachable state has a cycle of threads waiting for each other's locks. |
| Locks.SomeThreadCanMove | driver.go:258-311 | While some thread is in a call, some thread can take a step. |
| SecretSink.RandomSecretSink.Oldest | internal/secret_sink.go:61-68 | The scan finds, of the entries that none was used before, the first it visits; nothing exactly when no entry is older than the clock reading. |
| SecretSink.RandomSecretSink.MakeRoom | internal/secret_sink.go:60-70 | A full store loses exactly one entry, one of those used longest ago; it fails, where the code dereferences nil, exactly when no entry is older than the reading. |
| SecretSink.RandomSecretSink.Add | internal/secret_sink.go:50-86 | The store and the order of last use after the call, with the reading recorded: a known secret keeps its value and moves to the end, a new one evicts one of the oldest when full; both error outcomes exactly, also when clock readings tie. |
| SecretSink.RandomSecretSink.AddVisiting | internal/secret_sink.go:63-69 | The same for a given order of visiting the map, which decides between tied entries. |
| SecretSink.HeadIsVictim | internal/secret_sink.go:60-70 | The least recently used entry may always be evicted, and is the only one that may if and only if its reading is not tied. |
| SecretSink.EvictsLruExactly | internal/secret_sink.go:60-70 | A full store evicts its least recently used entry, whatever the scan settles on, if and only if no other entry carries the oldest reading. |
| SecretSink.AnyVictimCanBeFound | internal/secret_sink.go:63-68 | For every one of the oldest entries some order of visiting the map makes the scan settle on it. |
| SecretSink.TicksIsLru | internal/secret_sink.go:60-70 | When readings never tie, the evicted entry is the least recently used one, and nothing but a capacity of 0 fails. |
| SecretSinkRuns.Replay | internal/secret_sink.go:50-86 | After any sequence of calls with ticking readings the sink's keys, its order and all its answers are those of the cache that the rows below are about. |
| SecretSinkRuns.OneUse | internal/secret_sink.go:72-85 | A new secret is bound to the first eight characters of its UUID and recorded with the second clock reading. |
| SecretSinkRuns.TwoUses | internal/secret_sink.go:54-58 | A known secret keeps its value, whatever UUID there would be, and is recorded with the first reading. |
| SecretSinkRuns.UuidErrorStillEvicts | internal/secret_sink.go:60-75 | When no UUID can be had, the eviction has been made all the same. |
| SecretSinkRuns.TieDereferencesNil | internal/secret_sink.go:60-69 | Two calls at one reading make a sink of capacity 1 dereference nil. |
| SecretSinkRuns.TieEvictsNewest | internal/secret_sink.go:60-69 | After two calls at one reading a sink of capacity 2 evicts the secret used last, if the map is visited that way. |
| SecretSinkTheorems.LruRefinement | internal/secret_sink.go:50-86 | After any sequence of calls the cache holds a secret if and only if it was added and fewer than `maxCount` distinct others were added since. |
| SecretSinkTheorems.LruSize | internal/secret_sink.go:60-70 | The store holds the smaller of `maxCount` and the number of distinct secrets. |
| SecretSinkTheorems.StackProperty | internal/secret_sink.go:54-84 | A larger sink always holds everything a smaller one holds after the same calls. |
| SecretSinkTheorems.RebindingIsExact | internal/secret_sink.go:54-58 | A secret added again gets its earlier random value if and only if fewer than `maxCount` distinct others came between; otherwise the new one. |
| SecretSinkTheorems.RunIsLru | internal/secret_sink.go:50-86 | What is listed, in which order, and what was pushed out by how many, after any sequence of calls. |
| Generator.NonRandomReader.Read | internal/nonrandom_reader.go:46-63 | Fills the buffer with the next bytes of the closed form `(start + i + i/256) mod 256`, from wherever earlier reads stopped. |
| Generator.CountersStep | internal/nonrandom_reader.go:51-60 | The two wrapping byte counters, with the shift at a rollover, follow that closed form. |
| Generator.SetsOfBytes | internal/nonrandom_reader.go:30-38 | Set by set: byte `j` of set `m` is the start value plus `m` plus `j`, modulo 256. |
| Generator.FirstByteRead | internal/nonrandom_reader.go:18-24 | The first byte a new reader delivers is its start value. |
| Generator.NonRandomReader.ReadInPieces | internal/nonrandom_reader.go:46-63 | Successive reads into buffers of any lengths, also the same buffer again, deliver together the bytes that one read of the total length delivers. |
| Generator.ExactPeriod | internal/nonrandom_reader.go:30-38 | A number is a period of the sequence if and only if it is a multiple of 65536. |
| Generator.FirstBlocksDistinct | internal/nonrandom_reader.go:40-45 | The first 256 blocks of 16 bytes differ pairwise, already in their first byte. |
| Generator.LaterBlocksRepeat | internal/nonrandom_reader.go:40-45 | Every later block equals one of the first 256. |
| Generator.BlocksEqual | internal/nonrandom_reader.go:40-45 | Two blocks are equal if and only if their first bytes are, that is, if they start at the same place in the cycle. |

## Left out

- URL parsing, `mergeConnStringOptions` and the text that `RedactUrl` produces: library behaviour, taken as arbitrary functions.
- The underlying driver, the `database/sql` pool, statements, transactions, merged contexts and the branches of `BeginTx` after its guard: clients may call any modelled method at any time.
- `Strategy.Close` and a restart of the strategy: it clears the maps under running goroutines.
- Progress of the strategy beyond single waits: that every wait which can end does end is left to the scheduler.
- The strategy's mutex in `Locks`: `hdriver.Open` calls `Watch` under the driver's lock, so it can wait behind a blocked `setVal`; `Locks` is about the driver-side locks only.
- Locks: read locks are treated as exclusive.
- `runLoop` and `resync` of the strategy in place: their only own state is the set of failed paths, and what is hard about them is the interleaving, so they are steps of `WatchCoverage`.
- CloseExactly.SafeExactly: states in which `setVal` or `CloseWatch` holds the mutex, where the query may have to receive more before the holder can go on.
- FileWatcher.Strategy.SetVal: `turns` may be as long as any wait that ends; when a queue stays full through it, the method returns the query it waits for, with the mutex still held in the model, and the remaining sends are steps of machine `FanOut`.
- FileWatcher.Strategy.CloseWatch: the same for its one send.
- `UnregisterStrategy`, which closes the strategy, and `unregisterAll`, which serves tests.
- A path's value equalling the file's content: `resync` reads before it adds the watch again, so a write in between shows only with the next event.
- Channels shared by hotload URLs that differ only in spelling.
- Metrics, statement counters, loggers, the modification-time monitor, checksums and name listings.
- Real time and the sleep in `processNewValue`: any interleaving is allowed there instead.
