# Verification model of the infly task runtime

`infly` runs tasks in process: callers submit requests to a scheduler with a bounded number of
outstanding tasks, worker threads pull them from a backend and hand them to a strategy, and the
process-pool strategy spreads them over groups of worker processes that can crash, be restarted,
loaded and unloaded. This project models the logic of those parts in Dafny and proves what each
promises over every run.

- **Scheduler** (`Scheduler*.dfy`). Each thread has a program counter; an event is one region
  executed under a lock or one access made outside every lock. The invariant has a part per
  thread, a part per task, a slot count and a wake-up protocol; it is kept by every event, and
  the guarantees are about every state of every run. `SchedulerFrame` and `SchedulerThreads` say
  what each event leaves alone; `SchedulerSubmit`, `SchedulerQuery`, `SchedulerOutcome` and
  `SchedulerFailure` say when a submit is accepted, when a query ends and with which status, and
  why, a task ends; `SchedulerStop` is about who leaves when, also under a `stop` whose
  `strategy.close()` raises.
- **Backend** (`PriorityOrder`, `BinaryHeap`, `Retention`, `TaskBackend`). A class over a binary
  heap with the sift-down and sift-up of CPython's `heapq`, refining a list in submission order;
  finish stamps, read marks and eviction, and over whole runs (`RetentionRuns`) what they record.
- **Process pool** (`SmoothRoundRobin`, `Tally`, `Pool*`, `StaleResults`, `LiveResults`,
  `ProcessPool`). `PoolModel` states every locked region as a function on a value of the
  bookkeeping, `PoolInvariant` proves what they keep, `PoolSelection`, `PoolFallback` and
  `PoolEffects` say what they achieve in terms of the table alone, `PoolRuns` interleaves them in
  any order with messages that may be arbitrarily old, `PoolClose` says what `close` leaves,
  `StaleResults` and `LiveResults` which messages can still have an effect, `PoolFairness` and
  `PoolRotation` how the load spreads. `ProcessPool` is the imperative form: worker and future
  objects and dictionaries updated in place by loops, each method tied to the function that states
  it; what its public methods ask of their callers, beyond every worker being filed under its own
  id, is part of the pool invariant.
- **Supervision** (`RestartLimiter`, `Supervisor`, `Supervised*`). The sliding-window limiter of
  one worker, what a visit of the supervisor does to the pool and to the limiter, and the pool run
  under its supervisor: passes that read the clock once and visit workers one after the other,
  restarts that wait for READY, and calls of `close` that ask and stop one process after the
  other, with all other threads interleaved. How many restarts there can be, when each of them
  comes (`SupervisedBackoff`), what closes a process object (`SupervisedEffects`) and what stopping
  achieves (`SupervisedStops`).
- **Both together** (`WholeSystem`). One run of the scheduler and the pool, in which
  `strategy.execute` is the pool's, the scheduler learns of a future when the pool resolves it, and
  a future gets a result only from a message of its worker (`WholeOutcome`).
- **Cache keys and handler cache** (`CacheKey*`, `HandlerCache`, `HandlerOrder`, `DefinitionKeys`,
  `HandlerExecutor`). The depth-first normalisation of an object graph with its stack set, as a
  function and as methods that share one mutable stack; the JSON text that is made of a normal
  form, orders the elements of sets and can be read back; what normal form and text tell apart;
  the executor's cache against the registry, whose definitions hold nodes of such graphs.

## Assumptions

- Task ids are fresh and a request is submitted once (README.md:133-135). `SlotLostIffIdReused`
  shows what depends on it.
- The clock does not go backwards from one reading to the next, whichever thread reads it. A pass
  of the supervisor uses one reading for all its workers; a restart in it reads the clock again,
  and the workers after it are still judged by the reading of the pass.
- Which processes are alive, and which queues accept a put, is fixed during one locked region
  and arbitrary otherwise. A put either enqueues or raises without enqueuing.
- `strategy.close()` may return or raise. A process object raises ValueError on any use after its
  `close()`, as the standard library documents.
- Trace hooks do not raise, except the one after a task was marked RUNNING, which may.
- Group names are unique, handler lists have no duplicates (infly/runtime/config.py:82-85), and a
  worker id determines its group and index.
- A cycle in a value given to the cache key passes through a container other than a dataclass
  instance or an enum member; those two are not on the stack set.

## Findings

- Loading a group name again restarts the generations of its workers at 1, so a message from the
  unloaded incarnation can resolve the future of a later execution of the same task id.
  Without a load of the name, messages of an incarnation can take a future now or later if and
  only if a task is assigned to it, or it is not over and its group can be given work
  (`CanTakeIff`); after a load they can exactly for the workers the new group has
  (`LoadRevivesEffects`). `StaleResultTaken` is a run in which it happens.
- `close` completes while another thread may still hold futures it took out of the table
  (`CloseLeavesTakenFuture`). What was pending when it failed the pending futures is resolved, and
  everything is if and only if each future taken by an earlier unload, exit, result or failure
  step has been resolved before close ends (`CloseResolvesPending`, `CloseDoneIffResolved`).
- `stop` sets its flag before it closes the strategy and notifies the workers after it
  (infly/runtime/scheduler.py:113-126). When the close raises, sleeping workers stay: the
  scheduler comes to rest without workers if and only if some later stop got past the close or
  some task still had its notification to do (`WorkersLeaveIff`); `StopLeavesWorker` is a run in
  which a worker then sleeps for ever (`DormantForever`). The tasks are safe all the same:
  `RestReleasesIff` needs neither a stop nor a close.
- The pool's own `close` raises wherever it asks or stops a process whose object is closed
  (infly/runtime/strategy/process_pool.py:554, 560). While the pool is closing it can still
  complete if and only if it has, or some call is past failing the pending futures, or no worker in
  the table has a closed object, or one call that is stopping the processes has itself stopped
  every worker that has one (`CloseEndsIff`). It is blocked for good after a restart that failed
  (`FailedRestartBlocksClose`), when a restart that waits for READY is interrupted by the close
  itself and stops the process first (`RestartInFlightBlocksClose`), and after a failure in
  shutdown mode that stopped another worker (`ShutdownBlocksClose`).
- A failure in shutdown mode raises in the same way at a closed object, before it fails what is
  pending (`HandleWorkerExit`, `RaiseAbandons`). Unless a call of `close` is already stopping the
  workers, what is pending then stays so for ever but for results that still arrive
  (`PendingForEver`).
- Unloading a group one of whose workers has a closed process object takes the group's futures and
  raises before it fails them (`UnregisterWorkerGroup`). Unloading a group while one of its workers
  is being restarted can end the supervisor thread (`UnloadCanEndSupervision`), and then no worker
  is launched any more (`NoneAfterTheEnd`).
- Two keys of a mapping with the same `str()` make the cache key depend on insertion order
  (`OrderShows`). `ReorderedAgreeIff` says exactly when two orders agree and `OrderIrrelevantIff`
  when all do.
- The normal forms of special values are ordinary dictionaries, so a mapping can have the same
  cache key as a path, a bytes value, an enum member, a dataclass instance or an object
  (`TagsAreNotUnique`). A set has the cache key of the list of its elements in the order of their
  texts (`SetsReadAsLists`, `ListAgreesIff`). Values without such mappings and without keys of one
  text have the same normal form if and only if they are alike, where such a list counts as the set
  (`NormalFormsTellApart`). The JSON text adds no collision (`TextsTellApart`). A definition whose
  path is replaced by the mapping is served by the old instance (`StaleInstance`).
- A record submitted to the backend when it is COMPLETED or FAILED already gets no finish stamp,
  and where terminal records are limited a terminal update raises KeyError if and only if some
  other terminal record has no stamp (`UpdateStatus`, `UpdateStampsAllIff`). `FinishAnother` is a
  backend on which finishing a second task raises exactly when there is a limit; finishing the
  unstamped one itself stamps it (`FinishItself`). The scheduler submits PENDING records only.

## Model

| member | source | states |
|---|---|---|
| SchedulerTheorems.InitInv | infly/runtime/scheduler.py:36-66 | a scheduler before its first call satisfies the invariant, whatever PENDING records of others the backend holds |
| SchedulerTheorems.StepKeeps | infly/runtime/scheduler.py:106-600 | every enabled event of every thread keeps the whole invariant |
| SchedulerTheorems.RunInv | infly/runtime/scheduler.py:35-600 | the invariant holds in every state of every run |
| SchedulerGuarantees.SlotConservation | infly/runtime/scheduler.py:180-209 | free permits, outstanding ids and threads in transit add up to the limit in every reachable state; the limit is never exceeded and the semaphore is below its bound at every release |
| SchedulerGuarantees.SlotLostIffIdReused | infly/runtime/scheduler.py:192-194 | recording an id keeps the slot count if and only if the id is not outstanding already |
| SchedulerSubmit.OverloadedIff | infly/runtime/scheduler.py:180-191 | in every run a submit is turned away at the semaphore if and only if the outstanding ids and the threads in transit fill the limit |
| SchedulerSubmit.RefusedIff | infly/runtime/scheduler.py:157-178 | behind the lifecycle lock a submit is refused if and only if the scheduler is closed or the id is stored |
| SchedulerSubmit.SubmitAcceptedIff | infly/runtime/scheduler.py:154-219 | a submit that has ended, however it was interleaved, got its task accepted if and only if none of its steps found the scheduler closed, the id stored or every slot taken, and the store did not raise |
| SchedulerGuarantees.NoDeadlock | infly/runtime/scheduler.py:116-152 | while some thread is not asleep, some thread can move: the locks are taken in one order |
| SchedulerGuarantees.NoLostWakeup | infly/runtime/scheduler.py:391-399 | when no thread can move, workers that have not left have emptied the heap, every waiting query waits for a live task, the lifecycle lock is free, and after a stop that got past the close no worker is left |
| SchedulerGuarantees.WakeupComing | infly/runtime/scheduler.py:340-357 | in every reachable state work in the heap means an awake worker or a notification to come; a worker asleep while there is work, a query whose task has finished, and a worker asleep after a stop that closed the strategy have one to come |
| SchedulerQuery.QueryWaits | infly/runtime/scheduler.py:326-357 | over every run a query ends only by a look that finds its task absent, COMPLETED or FAILED, or, with a time limit, after a look under the lock it still holds that found the task unfinished |
| SchedulerQuery.LookEndsIff | infly/runtime/scheduler.py:341-349 | a query that looks at its task ends if and only if the task is absent or terminal; otherwise it goes to sleep |
| SchedulerQuery.SleepsUntilNotified | infly/runtime/scheduler.py:350-357 | a query without a time limit that found its task unfinished does not look again before a notification |
| SchedulerGuarantees.ShutdownGuarantee | infly/runtime/scheduler.py:106-152 | closed, workers gone and futures done with their callbacks: every accepted task still stored is COMPLETED or FAILED, no id is outstanding and every slot is free |
| SchedulerGuarantees.RestReleasesIff | infly/runtime/scheduler.py:428-434 | stopped or not, closed or not: a scheduler at rest has every accepted task still stored terminal, no outstanding id and every slot free if and only if the futures of all tasks it took are resolved |
| SchedulerStop.WorkersLeave | infly/runtime/scheduler.py:113-133 | after the stop flag is set, if no worker sleeps or a wake-up is due at any one moment, the scheduler comes to rest only without workers |
| SchedulerStop.WorkersLeaveIff | infly/runtime/scheduler.py:123-126 | with a worker asleep when the flag is set, the scheduler comes to rest without workers if and only if at some moment from then on the strategy was closed by a stop or some thread had its notification to do |
| SchedulerStop.RousedStays | infly/runtime/scheduler.py:113-126 | after the flag is set no step of any thread takes the workers back to a sleep nobody will end, even while the strategy is not closed |
| SchedulerStop.ClosedStops | infly/runtime/scheduler.py:113-126 | once the close of some stop has returned, the scheduler comes to rest only without workers |
| SchedulerStop.LoopEndsIff | infly/runtime/scheduler.py:391-421 | a worker leaves its loop if and only if it finds the stop flag set, before a pull or after one that raised |
| SchedulerStop.StopFindsNothing | infly/runtime/scheduler.py:127-152 | a stop goes on to fail pending tasks if and only if its join left no worker, and in every reachable state it then has none to fail |
| SchedulerStop.DormantForever | infly/runtime/scheduler.py:123-126 | after a stop whose close raised, with every worker asleep and every future done, nothing any client calls wakes a worker until a close succeeds |
| SchedulerStop.StopLeavesWorker | infly/runtime/scheduler.py:106-133 | a run in which the close raises and the scheduler comes to rest with its worker asleep for ever |
| SchedulerGuarantees.Lifecycle | infly/runtime/scheduler.py:436-507 | each step moves a record only from absent to PENDING by its submit, PENDING to RUNNING, RUNNING to a terminal status, PENDING to FAILED in the sweep of an accepted task after the close, or from terminal to absent; records of others are never swept |
| SchedulerGuarantees.TerminalIsFinal | infly/runtime/scheduler.py:515-590 | over every run a terminal status is never overwritten and a forgotten record never comes back |
| SchedulerOutcome.CompletedIffSucceeded | infly/runtime/scheduler.py:553-590 | in every reachable state a stored terminal record is COMPLETED if and only if its task has a future that is done with a result |
| SchedulerOutcome.CompletedIffReported | infly/runtime/scheduler.py:553-590 | over every run a stored terminal record is COMPLETED exactly when some earlier step had the future of its task done with a result, and FAILED otherwise |
| SchedulerFailure.FailedIffFails | infly/runtime/scheduler.py:436-590 | over every run a stored terminal record is FAILED if and only if starting the task raised, its future was done with an exception, or a sweep gave it up after a stop |
| SchedulerGuarantees.ExecutedAtMostOnce | infly/runtime/scheduler.py:436-462 | every task reaches the strategy at most once |
| SchedulerGuarantees.PendingIsReachable | infly/runtime/scheduler.py:391-399 | a stored PENDING task is in the heap or in the hand of a worker about to run it |
| BinaryHeap.HeapPush | infly/runtime/task_backend.py:45-54 | a push keeps the heap order and adds exactly the item |
| BinaryHeap.HeapPop | infly/runtime/task_backend.py:56-62 | a pop removes an entry that no other precedes and keeps the heap order and the other entries |
| PriorityOrder.DrainIsStableSort | infly/runtime/task_backend.py:34-62 | draining a queue gives the stable sort by descending priority of what was submitted |
| PriorityOrder.FifoAmongEquals | infly/runtime/task_backend.py:34-62 | for every interleaving of submits and pulls, equal priorities leave in the order of submission |
| PriorityOrder.QueueConservation | infly/runtime/task_backend.py:34-62 | for every interleaving, what was submitted is what was pulled together with what still waits |
| TaskBackend.InMemoryTaskBackend.Submit | infly/runtime/task_backend.py:34-54 | an id stored already is refused without effect; otherwise the record is stored with whatever status it has and queued last; the stamps stay complete exactly when it is not terminal already |
| TaskBackend.InMemoryTaskBackend.Pull | infly/runtime/task_backend.py:56-62 | the heap returns the entry of highest priority and earliest submission, or nothing when empty |
| TaskBackend.InMemoryTaskBackend.Read | infly/runtime/task_backend.py:73-91 | only terminal records are read; a consuming read forgets the record, its stamp and its mark, another one marks it |
| TaskBackend.InMemoryTaskBackend.UpdateStatus | infly/runtime/task_backend.py:93-134 | an unknown id is an error without effect; otherwise the record is replaced and stamped when it becomes terminal, and what exceeds the limit is evicted, or the sort raises because a terminal record has no stamp; with complete stamps it never raises for a known id |
| TaskBackend.InMemoryTaskBackend.PruneTerminalRecords | infly/runtime/task_backend.py:136-159 | exactly the excess over the limit is dropped, nothing that is kept going before it in eviction order; it raises without effect if and only if there is a limit and some terminal record has no stamp |
| TaskBackend.FinishAnother | infly/runtime/task_backend.py:93-145 | a finished record and another one are submitted; finishing the second raises exactly when terminal records are limited |
| TaskBackend.FinishItself | infly/runtime/task_backend.py:117-134 | finishing the submitted finished record itself succeeds under every limit |
| TaskBackend.InMemoryTaskBackend.SortedTerminals | infly/runtime/task_backend.py:136-159 | exactly the terminal tasks, once each, in eviction order |
| Retention.EvictsUnique | infly/runtime/task_backend.py:140-159 | what pruning evicts is determined by the sort key |
| Retention.EvictsVictim | infly/runtime/task_backend.py:140-159 | when one record is too many, exactly the oldest-finished read one goes if any are read, else the oldest-finished |
| Retention.UpdateEvicts | infly/runtime/task_backend.py:117-159 | a terminal update of a store in order evicts nothing or one other terminal record: the victim |
| Retention.LeastIsVictim | infly/runtime/task_backend.py:140-152 | the first task by sort key is the oldest-finished read one if any are read, else the oldest-finished |
| Retention.VictimUnique | infly/runtime/task_backend.py:140-152 | the victim is determined |
| Retention.JustUpdatedSurvives | infly/runtime/task_backend.py:117-134 | the record just updated is never the victim, and the victim is a terminal record |
| Retention.StampedKeeps | infly/runtime/task_backend.py:117-134 | a terminal update adds the task to the terminal and the stamped ones, keeps the read marks and keeps the stamps in order |
| Retention.EvictKeeps | infly/runtime/task_backend.py:153-159 | pruning keeps stamps in order and, when every terminal record is stamped, restores the limit |
| Retention.NewRecordKeeps | infly/runtime/task_backend.py:34-43 | a new record keeps the retention invariant if and only if it is not terminal |
| Retention.UpdateStampsAllIff | infly/runtime/task_backend.py:117-145 | after a terminal update every terminal record has its stamp if and only if every other one had it before |
| Retention.ReopenKeeps | infly/runtime/task_backend.py:121-124 | a non-terminal update takes stamp and mark away and keeps the invariant |
| RetentionRuns.StampIsFirstFinish | infly/runtime/task_backend.py:117-127 | over every run a stamp is that of the update that finished the task, with its time and the number of tasks finished before, whatever later updates of the finished task say |
| RetentionRuns.MarkIffRead | infly/runtime/task_backend.py:79-91 | over every run a task is marked exactly when it was read without being consumed and was not reopened, consumed or evicted since |
| SmoothRoundRobin.SelectionConserves | infly/runtime/strategy/process_pool.py:844-857 | a selection over any subset of the groups leaves the sum of all smooth weights alone |
| SmoothRoundRobin.ExactOverPeriods | infly/runtime/strategy/process_pool.py:844-857 | after k times the total weight each group was picked exactly k times its weight and all smooth weights are zero again |
| SmoothRoundRobin.BoundedDrift | infly/runtime/strategy/process_pool.py:844-857 | at every prefix no group is a whole pick ahead of its share, nor further behind than the others can be ahead |
| PoolInvariant.StartableValid | infly/runtime/strategy/process_pool.py:252-292 | what the constructor accepts makes a valid pool: distinct groups with distinct handlers each |
| PoolInvariant.ConstructedKeeps | infly/runtime/strategy/process_pool.py:271-292 | a constructed pool satisfies the pool invariant and has no pending future |
| PoolInvariant.ExecuteKeeps | infly/runtime/strategy/process_pool.py:335-427 | dispatching keeps the books through failed puts and fallback; a rejection leaves everything but smooth weights as it was; an assignment goes to a usable worker whose group deploys the handler |
| PoolInvariant.ReceiveKeeps | infly/runtime/strategy/process_pool.py:884-895 | a message takes a future exactly when it names the task's current assignment, and keeps the books |
| PoolInvariant.HandleExitKeeps | infly/runtime/strategy/process_pool.py:954-986 | an exit takes exactly the futures assigned to the worker, leaves it without assignments and keeps the books |
| PoolInvariant.RelaunchKeeps | infly/runtime/strategy/process_pool.py:629-633 | a launch of a dead worker resets a count that is zero already and keeps the books |
| PoolInvariant.SetAliveKeeps | infly/runtime/strategy/process_pool.py:727-766 | marking a worker ready, or stopped while closing, keeps the books |
| PoolInvariant.AddGroupKeeps | infly/runtime/strategy/process_pool.py:460-477 | publishing a group keeps the books, and the routing index stays the list of groups that deploy each handler, in registration order |
| PoolInvariant.UnregisterKeeps | infly/runtime/strategy/process_pool.py:493-522 | unloading a group keeps both, removing its routes, workers and assignments |
| PoolInvariant.BeginCloseKeeps | infly/runtime/strategy/process_pool.py:543-549 | closing keeps the invariant |
| PoolInvariant.FailAllKeeps | infly/runtime/strategy/process_pool.py:1096-1103 | failing everything pending empties the table and keeps the books |
| PoolEffects.ConstructedAs | infly/runtime/strategy/process_pool.py:265-292 | the pool has the groups given, in order, each with as many ready workers as asked for, deploying what it names, or the whole registry when it names nothing |
| PoolEffects.RegisterLeaves | infly/runtime/strategy/process_pool.py:467-477 | publishing a group adds its workers, routes exactly its handlers to it and stands last; every other group, worker, route, weight, cursor and pending task stays |
| PoolEffects.UnloadLeaves | infly/runtime/strategy/process_pool.py:493-522 | unloading a group takes its workers, its routes, its weight and cursor and exactly the tasks assigned to it; all others stay, in their order |
| PoolEffects.ReceiveLeaves | infly/runtime/strategy/process_pool.py:884-895 | a message that names the present assignment takes the future and one from the load of the worker; any other changes nothing |
| PoolDispatch.RoutedDistinct | infly/runtime/strategy/process_pool.py:362-366 | the index lists a group exactly when it deploys the handler, at most once, and only registered groups |
| PoolDispatch.AssignedIff | infly/runtime/strategy/process_pool.py:327-427 | a request is assigned if and only if it has an id, the pool accepts, the id is not pending, and some usable worker that deploys the handler accepts the put |
| PoolSelection.ExecuteOutcome | infly/runtime/strategy/process_pool.py:325-427 | assigned or rejected, and with which of the three error codes, by the id, the pool, the pending ids and the usable accepting workers; a rejection leaves everything but smooth weights |
| PoolSelection.AssignmentWrites | infly/runtime/strategy/process_pool.py:381-412 | an assignment records the future, the present incarnation of a usable accepting worker, one more outstanding task and the cursor just after the worker, and else only smooth weights |
| PoolDispatch.SelectedGroup | infly/runtime/strategy/process_pool.py:381-384 | while all usable workers accept, the request goes to the group the weighted round-robin selects, charged once |
| PoolSelection.ServedGroup | infly/runtime/strategy/process_pool.py:844-857 | while every usable worker accepts, a request goes to a group whose smooth weight and number of usable workers add up to most among all that can serve it, and of several such groups to the one registered first |
| PoolSelection.ServedCharge | infly/runtime/strategy/process_pool.py:845-856 | then every group that can serve gains the number of its usable workers and the served one pays the number of all of them |
| PoolFallback.DispatchTries | infly/runtime/strategy/process_pool.py:382-413 | every dispatch is explained by a list of groups tried, each ahead of all not yet tried at its turn, all but the last without an accepting worker, and by what these turns leave of the smooth weights |
| PoolDispatch.ExecuteSoonest | infly/runtime/strategy/process_pool.py:859-872 | within its group the worker chosen has the fewest outstanding tasks of those that accept, nearest to the cursor among equals |
| PoolSelection.AssignmentSoonest | infly/runtime/strategy/process_pool.py:859-872 | within the served group the request goes to the accepting worker with the fewest outstanding tasks, the nearest at or after the cursor among equals |
| PoolFairness.WorkersFair | infly/runtime/strategy/process_pool.py:381-412 | both levels composed: from an idle pool, after k requests per usable worker deploying the handler and no result, every one of them has exactly k, whatever the cursors were |
| PoolRotation.ServedTurns | infly/runtime/strategy/process_pool.py:385-412 | a request that is answered leaves the pool as it was but for the charge of its group and the cursor, which is just after its worker |
| PoolRotation.RotationFair | infly/runtime/strategy/process_pool.py:381-412 | with every result before the next request, k requests per usable worker deploying the handler give exactly k to every one of them, whatever the cursors were and whichever workers are down |
| Tally.LevelIsEqual | infly/runtime/strategy/process_pool.py:859-872 | counts of a group that are at most one apart and add up to k each are all k |
| PoolRuns.RunInv | infly/runtime/strategy/process_pool.py:321-1112 | the pool invariant and the conservation of futures hold in every state of every interleaving of all locked regions |
| PoolRuns.ResolvedOnce | infly/runtime/strategy/process_pool.py:897-930 | over every run a future is resolved at most once, and it is done exactly when it has been |
| PoolRuns.ClosedHoldsNothing | infly/runtime/strategy/process_pool.py:543-577 | after close completed nothing is pending and nothing can become so |
| PoolClose.HeldMeans | infly/runtime/strategy/process_pool.py:515-577 | a future is held by a thread exactly from the step that takes it to its resolution |
| PoolClose.CloseResolvesPending | infly/runtime/strategy/process_pool.py:567-576 | when a call of close ends, every future that was pending when it failed the pending ones is done, and so is every one created since |
| PoolClose.CloseDoneIffHeldResolved | infly/runtime/strategy/process_pool.py:543-577 | at the end of close everything is done if and only if every future another thread held when the pending ones failed has been resolved |
| PoolClose.CloseDoneIffResolved | infly/runtime/strategy/process_pool.py:543-577 | the same by events: if and only if each future taken by an earlier unload, exit, result or failure step was resolved before close ended |
| PoolRuns.SmoothWeightsBalance | infly/runtime/strategy/process_pool.py:362-384 | the smooth weights of the registered groups add up to zero as long as no worker exits or completes a restart and no group is removed |
| StaleResults.SpentIsInert | infly/runtime/strategy/process_pool.py:881-895 | a message from an incarnation that is over changes nothing |
| StaleResults.IncarnationEnds | infly/runtime/strategy/process_pool.py:954-1002 | an exit, a launch and an unload each end the incarnation |
| StaleResults.StaleIsInert | infly/runtime/strategy/process_pool.py:881-895 | once an incarnation is over, none of its messages has an effect in any later state, as long as the group's name is not loaded again |
| StaleResults.OthersKeepGenerations | infly/runtime/strategy/process_pool.py:629-633 | no step but a launch changes a worker's generation |
| StaleResults.GenerationCountsLaunches | infly/runtime/strategy/process_pool.py:629-633 | over every run without a load of its group name a worker's generation grows by exactly the number of its launches, so it never falls |
| StaleResults.LoadRevives | infly/runtime/strategy/process_pool.py:437-477 | loading a name again revives exactly the incarnations of the workers the new group has |
| LiveResults.CanTakeIff | infly/runtime/strategy/process_pool.py:881-895 | in every state of the pool, some continuation without a load of the group's name lets a message of an incarnation take a future if and only if a task is assigned to it now, or it is not over and its group can be given work |
| LiveResults.LoadRevivesEffects | infly/runtime/strategy/process_pool.py:437-477 | after loading a name again into an open pool, messages of an incarnation (generations start at 1) can take futures if and only if its index is below the new count |
| PoolFindings.StaleResultTaken | infly/runtime/strategy/process_pool.py:884-895 | a run in which the message of an unloaded incarnation takes the future of a later execution |
| PoolFindings.CloseLeavesTakenFuture | infly/runtime/strategy/process_pool.py:515-577 | a run in which close completes while the future of an unloaded group is unresolved |
| RestartLimiter.RunInv | infly/runtime/strategy/process_pool.py:1004-1068 | the pruned deque is the tail of the full history, and everything dropped is older than the window |
| RestartLimiter.RestartsBounded | infly/runtime/strategy/process_pool.py:1004-1035 | over every run no closed interval as long as the window holds more attempts than the limit, and attempts are at least the backoff apart |
| RestartLimiter.RefusedIff | infly/runtime/strategy/process_pool.py:1009-1020 | a restart is refused if and only if the full history has as many attempts in the last window as the limit |
| RestartLimiter.RefusedForever | infly/runtime/strategy/process_pool.py:932-952 | a worker refused a restart is never restarted by the supervisor |
| RestartLimiter.BackoffKept | infly/runtime/strategy/process_pool.py:1004-1027 | over every run no attempt begins before the backoff after the exit that was seen, or after the launch that failed, is over |
| RestartLimiter.FirstVisitRestarts | infly/runtime/strategy/process_pool.py:932-952 | if the last window then holds fewer attempts than the limit, the first visit after the backoff begins the next attempt |
| RestartLimiter.FullNeverRestarts | infly/runtime/strategy/process_pool.py:1010-1020 | if it holds as many, there is no further attempt |
| Supervisor.VisitActs | infly/runtime/strategy/process_pool.py:932-952 | in restart mode one visit of the supervisor to a worker is one step of the limiter's machine |
| Supervisor.ExitTakesOwn | infly/runtime/strategy/process_pool.py:954-1002 | an exit in degrade or restart mode takes exactly the requests of the worker, leaves it dead and idle, sets the smooth weight of its group to zero and changes nothing else |
| Supervisor.ExitEndsPool | infly/runtime/strategy/process_pool.py:1070-1094 | an exit in shutdown mode closes the pool to requests; unless a closed process object stops it, every request fails, the books are empty and no worker is alive |
| Supervisor.RestartLeaves | infly/runtime/strategy/process_pool.py:1029-1054 | a restart that comes to a launch makes the next incarnation of the worker, alive exactly when READY came, and then its group starts with smooth weight zero |
| Supervisor.OnlyRestartSchedules | infly/runtime/strategy/process_pool.py:982-986 | in degrade and shutdown mode no restart is ever scheduled |
| SupervisedPool.Projected | infly/runtime/strategy/process_pool.py:932-1068 | forgetting limiters and process objects, every run under the supervisor is a run of the pool, so all that holds over pool runs holds here |
| SupervisedInvariant.StepKeeps | infly/runtime/strategy/process_pool.py:932-1094 | every step of the supervisor, of a call of close and of any other thread keeps the invariant |
| SupervisedInvariant.RunInv | infly/runtime/strategy/process_pool.py:932-1094 | in every reachable state each limiter agrees with the whole history of its worker, no worker still to be visited was acted on after the pass read its clock, and a worker was launched once plus at most once an attempt |
| SupervisedGuarantees.LaunchesBounded | infly/runtime/strategy/process_pool.py:1004-1045 | however other threads interleave and however long a pass takes, of the launches of a worker that stays loaded at most as many as the limit begin within any closed interval as long as the window |
| SupervisedGuarantees.AttemptsBounded | infly/runtime/strategy/process_pool.py:1004-1035 | the same for all attempts to restart it, those that come to no launch included |
| SupervisedBackoff.BackoffKept | infly/runtime/strategy/process_pool.py:932-952 | with all threads interleaved, no restart of a worker begins before the backoff after its exit was seen, or after its launch failed, is over |
| SupervisedBackoff.RestartsIffDue | infly/runtime/strategy/process_pool.py:941-952 | until the next attempt, a pass that comes to the worker can begin one if and only if the window holds fewer attempts than the limit and the pass began after the backoff |
| SupervisedGuarantees.GenerationIsLaunches | infly/runtime/strategy/process_pool.py:629-633 | the generation of a worker that stays loaded goes up by exactly one with each of these launches |
| SupervisedGuarantees.NeverRestarted | infly/runtime/strategy/process_pool.py:982-986 | a worker of a group that is not in restart mode stays in its first incarnation |
| SupervisedGuarantees.NoneAfterTheEnd | infly/runtime/strategy/process_pool.py:1029-1068 | once an exception has ended the supervisor thread no worker that stays loaded is launched again |
| SupervisedEffects.TodoIff | infly/runtime/strategy/process_pool.py:935-945 | the supervisor has a worker still to visit exactly when it was in the table when the pass began, was not visited in it and has stayed |
| SupervisedEffects.OnceAPass | infly/runtime/strategy/process_pool.py:934-952 | between two visits of the supervisor to one worker a new pass began |
| SupervisedEffects.ShutdownFollows | infly/runtime/strategy/process_pool.py:982-984 | after an exit in shutdown mode the supervisor does nothing before it closes the pool to requests, which it can do at any time |
| SupervisedEffects.OthersGoOn | infly/runtime/strategy/process_pool.py:982-986 | after an exit in another mode it goes on with its pass and the pool stays open |
| SupervisedEffects.GoneIffClosed | infly/runtime/strategy/process_pool.py:804-827 | a process object is closed exactly when a close, a shutdown or a failed launch has closed it and the worker was neither launched again nor unloaded since |
| SupervisedStops.StoppedDead | infly/runtime/strategy/process_pool.py:804-832 | a worker that a close or a shutdown has stopped stays in the table and is dead until READY comes for it |
| SupervisedStops.CloseKills | infly/runtime/strategy/process_pool.py:543-575 | when a call of close goes on to fail what is pending, it has stopped every worker in the table, and each is dead unless it reported READY since |
| SupervisedStops.ReadyClears | infly/runtime/strategy/process_pool.py:1046-1052 | READY makes the worker alive, and before it does anything else the supervisor clears the smooth weight of the group |
| SupervisedStops.ShutdownStopsOthers | infly/runtime/strategy/process_pool.py:1084-1088 | a shutdown stops every other worker in the table, each once and the failed one never, before it fails what is pending |
| SupervisedGuarantees.UnloadCanEndSupervision | infly/runtime/strategy/process_pool.py:709-720 | whenever a restart waits for READY in an open pool, unloading its group lets the supervisor thread end by an exception |
| SupervisedClose.BlockedForEver | infly/runtime/strategy/process_pool.py:552-565 | when a worker in the table has a closed process object, no call is past failing the pending futures, and each call that is stopping the processes has one before it that it has not stopped itself, no continuation of any length completes close |
| SupervisedClose.CloseEndsIff | infly/runtime/strategy/process_pool.py:543-577 | in every reachable state of a closing pool, close has a continuation that completes it if and only if it has completed, or a call is past failing the pending futures, or no worker in the table has a closed process object, or some call that is stopping the processes has stopped every worker that has one |
| SupervisedFindings.FailedRestartBlocksClose | infly/runtime/strategy/process_pool.py:1056-1066 | a run in which a restart fails and no later close can ever end |
| SupervisedFindings.RestartInFlightBlocksClose | infly/runtime/strategy/process_pool.py:727-737 | a run in which no process object is closed when close is called, the waiting restart is interrupted by it, and the call raises and none can ever end |
| SupervisedFindings.ShutdownBlocksClose | infly/runtime/strategy/process_pool.py:1084-1087 | in every run, when shutdown mode closes a worker's process while no call of close is stopping the workers, none can ever end |
| SupervisedFindings.RaiseAbandons | infly/runtime/strategy/process_pool.py:1084-1094 | a shutdown that meets a closed process object ends the supervisor thread with the pool's books as they were |
| SupervisedFindings.PendingForEver | infly/runtime/strategy/process_pool.py:1084-1103 | from then on, whatever the threads do, a pending future stays pending unless a result for its task arrives |
| WholeSystem.RunInv | infly/runtime/scheduler.py:436-462 | in every state of every run of scheduler and pool both invariants hold, a future of the scheduler is done exactly when the pool resolved it, and the strategy counts as closed only after the pool's close completed |
| WholeSystem.StopReleasesIff | infly/runtime/scheduler.py:106-133 | with the scheduler at rest and the pool's close complete, everything is released if and only if no pool thread still owes the resolution of a future of a task the scheduler took; after a stop that got past the close no worker is left |
| WholeSystem.StopSettles | infly/runtime/scheduler.py:106-133 | when moreover no pool thread can resolve anything, every accepted task is settled and every slot is free |
| WholeOutcome.CompletedIffAnswered | infly/runtime/strategy/process_pool.py:884-901 | over every joint run a stored terminal record is COMPLETED exactly when the pool resolved its future with a result, and then a message of the worker it was assigned to had taken that very future |
| ProcessPool.WorkerState.Launch | infly/runtime/strategy/process_pool.py:629-633 | the next generation, not alive, no outstanding tasks, no restart due |
| ProcessPool.WorkerState.ScheduleRestart | infly/runtime/strategy/process_pool.py:1004-1027 | the popleft loop leaves what the limiter's function says |
| ProcessPool.ProcessPoolStrategy.Create | infly/runtime/strategy/process_pool.py:213-303 | a pool is returned if and only if groups are named, distinct, with registered handlers, the timeout is positive and every worker reports READY in it; it is the constructed pool, with all of the registry for a group that names no handler; otherwise INTERNAL_ERROR |
| ProcessPool.ProcessPoolStrategy.constructor | infly/runtime/strategy/process_pool.py:271-292 | the loops build the constructed pool from the resolved groups |
| ProcessPool.ProcessPoolStrategy.SelectGroup | infly/runtime/strategy/process_pool.py:844-857 | the in-place selection is one smooth weighted round-robin step |
| ProcessPool.ProcessPoolStrategy.TryWorker | infly/runtime/strategy/process_pool.py:385-412 | an accepted put leaves the assignment, the count and the cursor; a failed one restores all of them |
| ProcessPool.ProcessPoolStrategy.TryGroup | infly/runtime/strategy/process_pool.py:385-418 | the inner loop assigns to the first worker in order that accepts, or changes nothing |
| ProcessPool.ProcessPoolStrategy.TryGroups | infly/runtime/strategy/process_pool.py:381-420 | the outer loop is the dispatch over the remaining groups, and forgets the future when all fail |
| ProcessPool.ProcessPoolStrategy.Execute | infly/runtime/strategy/process_pool.py:321-427 | the returned future is new, failed with the rejection's code or pending with its assignment recorded |
| ProcessPool.ProcessPoolStrategy.HandleResult | infly/runtime/strategy/process_pool.py:874-930 | only the future of the current assignment takes the message's outcome, and only if it is not done |
| ProcessPool.ProcessPoolStrategy.TakeWorkerFutures | infly/runtime/strategy/process_pool.py:988-1002 | the loop takes exactly the futures of the worker's current generation |
| ProcessPool.ProcessPoolStrategy.FailFutures | infly/runtime/strategy/process_pool.py:1105-1112 | every future not done fails, the others keep their outcome |
| ProcessPool.ProcessPoolStrategy.FailAllPending | infly/runtime/strategy/process_pool.py:1096-1103 | every pending future fails and the books are cleared |
| ProcessPool.WorkerState.StopProcess | infly/runtime/strategy/process_pool.py:802-840 | raises without effect when the object is closed already; otherwise the worker is not alive, and the object is closed if the process ended |
| ProcessPool.ProcessPoolStrategy.HandleWorkerExit | infly/runtime/strategy/process_pool.py:954-986 | a worker that is retiring, dead already or no longer in the table is left alone with everything else; otherwise its futures fail; in restart mode the next restart is scheduled; in shutdown mode everything pending fails as well, unless another worker's process object is closed, in which case it raises and nothing else fails |
| ProcessPool.ProcessPoolStrategy.ExitShutsDown | infly/runtime/strategy/process_pool.py:1070-1094 | in shutdown mode the pool stops accepting and the other workers' processes are stopped; it raises if and only if one of them is closed already, with only the exited worker's futures failed; otherwise every pending future fails |
| ProcessPool.ProcessPoolStrategy.StopAll | infly/runtime/strategy/process_pool.py:1084-1087 | the loop stops workers until it meets a closed process object, which it does exactly when there is one; the stopped ones are not alive |
| ProcessPool.ProcessPoolStrategy.RestartWorker | infly/runtime/strategy/process_pool.py:1029-1068 | a retired worker or a closing pool is left alone; otherwise the attempt is recorded first, then the worker is launched and ready, or stopped and scheduled again; interrupted by a close it is stopped and not scheduled, which raises exactly when the close has stopped the process already |
| ProcessPool.ProcessPoolStrategy.Visit | infly/runtime/strategy/process_pool.py:932-952 | in every mode the pool, the futures that fail, the limiter and the worker afterwards are those of one visit over a value; it raises exactly when a shutdown meets a closed process object or an interrupted restart does; for a worker no longer in the table, or a closing pool, nothing changes |
| ProcessPool.ProcessPoolStrategy.RegisterWorkerGroup | infly/runtime/strategy/process_pool.py:429-477 | the group is published with its resolved handlers if and only if all of them are registered, the pool is open, the name is free and every worker reported READY; otherwise INTERNAL_ERROR and nothing changes |
| ProcessPool.ProcessPoolStrategy.UnregisterWorkerGroup | infly/runtime/strategy/process_pool.py:486-531 | the errors for a closed pool and an unknown group; otherwise the group is gone, and exactly its futures fail unless one of its workers has a closed process object, in which case it raises and none of them does |
| ProcessPool.ProcessPoolStrategy.RetireWorkers | infly/runtime/strategy/process_pool.py:512-522 | the loop leaves every worker retired, dead and without a restart, and takes their futures |
| ProcessPool.ProcessPoolStrategy.Close | infly/runtime/strategy/process_pool.py:543-577 | a close that meets no closed process object stops every worker and fails every pending future, and is complete unless stopping the logs raises; one that meets one has only stopped the pool from accepting; after a completed one nothing changes |
| CacheKeyText.TextsTellApart | infly/core/handlers.py:59-64 | two normal forms have the same JSON text if and only if they are the same: keys are sorted, strings escaped, and every text is read in one way |
| CacheKeyText.ReadsBack | infly/core/handlers.py:59-64 | a reader of JSON without whitespace (strings as in section 7 of RFC 8259) reads the text of every normal form back as that form, to its end |
| CacheKeyText.KeysAscend | infly/core/handlers.py:59-64 | in the text of a dictionary its keys stand once each, in ascending order |
| CacheKeyText.EscapedShortest | infly/core/handlers.py:59-64 | no text that is read as a character is shorter than the one it is written as |
| CacheKeyText.TextLessMeans | infly/core/handlers.py:59-64 | the order of texts: a proper prefix first, else the first difference decides |
| CacheKeyText.SortsAgreeIff | infly/core/handlers.py:128-136 | sorting values by their JSON texts forgets their order and nothing else |
| CacheKeyMeaning.Computes | infly/core/handlers.py:67-152 | where the unfolding is a finite tree the search returns its meaning, whatever the stack holds of its ancestors |
| CacheKeyMeaning.SortDenote | infly/core/handlers.py:109-116 | sorting the items by key text does not change the dictionary: the last item of a text wins |
| CacheKeyCycles.FailsExactlyOnCycles | infly/core/handlers.py:104-152 | normalisation fails if and only if a cycle or an unsupported value can be reached, with the matching error; sharing never fails |
| CacheKeyOrder.OrderAndSharingIrrelevant | infly/core/handlers.py:104-138 | unfoldings alike up to the order of mapping items and set elements have the same normal form, whatever they share |
| CacheKeySets.SetsAgreeIff | infly/core/handlers.py:124-138 | two sets have the same normal form if and only if their elements have the same normal forms, each as often, in whatever order they are iterated |
| CacheKeySets.ListAgreesIff | infly/core/handlers.py:117-138 | a list has the normal form of a set if and only if it has the same elements in the order of their texts |
| CacheKeySets.SetsReadAsLists | infly/core/handlers.py:117-138 | two numbers have one normal form as a set iterated in either order and as the list in order, and another as the other list |
| CacheKeyReorder.ReorderedAgreeIff | infly/core/handlers.py:109-116 | two mappings with the same items in any two orders have the same normal form if and only if for every key text the last items with it have the same meaning |
| CacheKeyReorder.OrderIrrelevantIff | infly/core/handlers.py:109-116 | no reordering of a mapping shows in its normal form if and only if items with equal key texts have equal meanings |
| CacheKeyReorder.OrderShows | infly/core/handlers.py:109-116 | a mapping with two keys of one text, whose two orders have different normal forms exactly when the values differ |
| CacheKeyOrder.SwapMatters | infly/core/handlers.py:109-116 | swapping neighbouring items changes the dictionary if and only if their keys have the same text, their values differ and no later key has that text |
| CacheKeyPlain.NormalFormsTellApart | infly/core/handlers.py:67-152 | two values without keys of one text and without mappings that have a tag's keys have the same normal form if and only if they are alike up to the order of mapping items and set elements, a list in the order of its texts counting as a set |
| CacheKeyPlain.TagsAreNotUnique | infly/core/handlers.py:76-150 | each of the five tags can be imitated by a mapping that has the same normal form though the two are not alike |
| CacheKeySearch.Search | infly/core/handlers.py:67-152 | the search with one shared stack returns what the function says and leaves the stack as it found it, on errors too |
| CacheKeySearch.SearchItems | infly/core/handlers.py:107-118 | the comprehension over the sorted items, ended by its first error |
| DefinitionKeys.ComputeKey | infly/core/handlers.py:47-64 | a fresh search of the mapping of the definition's six fields and the JSON text of its result give the key, and none exactly when a cycle or an unsupported value can be reached |
| DefinitionKeys.KeyIsNormalForm | infly/core/handlers.py:47-64 | the key is the JSON text of the normal form of the six-entry mapping and exists exactly when normalisation succeeds |
| DefinitionKeys.KeyTellsApart | infly/core/handlers.py:47-64 | definitions with plain settings have the same key if and only if they agree up to sharing, the order of mapping items and set elements, and lists in order standing for sets |
| DefinitionKeys.InstanceOfSameDefinition | infly/runtime/executor.py:61-84 | over every run an execution under a definition with plain settings gets a handler loaded under the same definition, if that one's settings were plain as well |
| DefinitionKeys.StaleInstance | infly/runtime/executor.py:61-84 | a run in which a path in the keyword arguments is replaced by the mapping that looks like it and the old instance goes on being served |
| HandlerCache.KeyParts | infly/core/handlers.py:47-64 | definitions with the same key agree in name, entrypoint, reuse mode and the normal forms of their three settings |
| HandlerCache.GetOrLoadCurrent | infly/runtime/executor.py:61-84 | the handler was loaded under a definition with the current key; it is loaded anew exactly when the active key is not the current one; an error keeps the cache |
| HandlerCache.LoadTransientFresh | infly/runtime/executor.py:86-91 | a transient handler is always a new one, and nothing is kept for its name |
| HandlerCache.PreloadKeeps | infly/runtime/executor.py:53-59 | preloading succeeds exactly when every cached definition has a key and is current or can be loaded, and then all are current |
| HandlerCache.CacheAgreesWithRegistry | infly/runtime/executor.py:21-91 | over every run of registrations, executions, preloads and failed loads, an execution uses a handler loaded under a definition with the key of the current one, reloads exactly when needed, and one instance is held per name |
| HandlerCache.SameInstance | infly/runtime/executor.py:61-84 | while a definition stays registered every execution gets the very instance loaded first |
| HandlerCache.AddFinds | infly/runtime/registry.py:12-29 | registering a name replaces its definition and no other |
| HandlerOrder.AddPlaces | infly/runtime/registry.py:12-14 | a definition takes the place of the one under its name, or the last place |
| HandlerOrder.ListingSorted | infly/runtime/registry.py:31-41 | the listing holds every definition once, in the order of the names |
| HandlerOrder.PreloadStops | infly/runtime/executor.py:53-59 | a preload fails with the error of the first definition that is stuck; those before it are current by then, those after it are as they were |
| HandlerExecutor.HandlerRegistry.Add | infly/runtime/registry.py:12-19 | the definition takes its name's place or the last one |
| HandlerExecutor.HandlerExecutor.GetOrLoad | infly/runtime/executor.py:61-84 | the dictionaries and the result are those of the cache's function under the current definition |
| HandlerExecutor.HandlerExecutor.LoadTransient | infly/runtime/executor.py:86-91 | the active key and its instance are dropped before the load, which may fail |
| HandlerExecutor.HandlerExecutor.Execute | infly/runtime/executor.py:21-51 | a request without an id and an unknown handler are errors without effect |
| HandlerExecutor.HandlerExecutor.Preload | infly/runtime/executor.py:53-59 | the loop over the definitions by name, ended by the first error |

## Left out

- The scheduler as a class: its threads interleave between any two of its locked regions, so it is a transition system over the same fields; which queued task a pull returns is left open there and settled by the backend's class.
- Starting, joining and terminating processes, the multiprocessing queues, `sys.path` and environment handling: only whether a put succeeds, a process is alive, its process ends in time when it is stopped, a launch becomes ready, and whether stopping the logs raises.
- The order in which futures taken together are failed: they are resolved as a set.
- Timing of `stop` and `query`: a join that times out leaves the worker running, a timed wait may end at any moment, and a timed query may give up after any look that finds its task unfinished.
- `submit_and_wait_async` and its waiters, health snapshots, logging, counters and trace rendering.
- `register_worker_group` between its two guards: other threads may act there; the second guard is the one that decides, and `PoolRuns` lets a load happen at any moment.
- `_stop_process` as more than one step: two threads that are inside it for one process at the same time.
- Cycles made only of dataclass instances and enum members: the program recurses without end on them.
- Concurrent use of one `HandlerExecutor`: a worker process runs its requests one after the other.
- `with_runtime_context`, option validation and the loading of handler code, which succeeds or fails.
- How a number is written as JSON: a number, a boolean or None is its JSON text.
- Error message texts, float rounding of clocks, and the copies made by the backend.
