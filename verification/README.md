# Nagoya's concurrent structures, verified

Nagoya is an async runtime built on a handful of small hand-written concurrent structures. This
project models them in Dafny and proves the arguments their comments make: nothing is lost, nothing
happens twice, nobody sleeps beside work that is ready. `dafny verify dfyconfig.toml` checks it all.

Two kinds of model stand side by side.

*Objects.* What the source updates in place is a class with the same fields and the same branches:
the waiter vector with its two linked lists, the indexed timer heap, the task set's ready chain, the
readiness slot, the notifier, semaphore, lock, account, owner and the address codec. Each method is
proved against a function of the old state, and the functions' own properties are lemmas.

*Protocols.* What several threads do to one object is a state machine: a `State`, a `Label` for every
atomic operation or lock section, `Enabled` and `Do`, and an invariant `Inv` that every step keeps.
(`Semaphores`, where a whole poll and a whole drop are one step, is the exception; `SemaphoreSteps` is
its finer form.)
`Behaviours.Invariance` lifts it to every state of every finite run, so the main results speak of all
interleavings. Where an object and a protocol share an operation they share the function that defines
it, or a lemma (`...IsItsSteps`, `...IsASection`) shows that the protocol's steps, run back to back,
are the object's whole call. The task set's object goes further: its methods carry the protocol's state
and are proved to move it by the protocol's steps only.

| module | source | what it is |
|---|---|---|
| `WaitQueues`, `Waiters` | `src/sync.rs` | FIFO, free list and granted slots in one vector; the waiter list under its lock |
| `Notifies`, `Barriers`, `Semaphores`, `SemaphoreSteps`, `RwLocks` | `src/sync.rs` | the primitives on top of it |
| `TimerHeaps`, `TimerViews`, `SleepRuns` | `src/time.rs` | the indexed heap and its view; sleeps against firing, re-polling and dropping |
| `PendingTimers`, `DeadlineCache`, `Reactors`, `NudgedDriver` | `src/reactor/driver.rs`, `src/time.rs` | when a driver may sleep, and for how long |
| `TaskSets`, `TaskSetObjects`, `LocalBlockOn` | `src/reactor/local.rs` | the ready chain, and the loop that drives one thread |
| `ReadSlots`, `VectoredWrites` | `src/reactor/driver.rs`, `src/net.rs` | edge-triggered reads; resumable vectored writes |
| `ParLoops` | `src/par.rs` | the self-splitting parallel loop |
| `Credits`, `Owners`, `Readiness` | `src/credits.rs`, `src/owner.rs`, `src/readiness.rs` | accounting, exclusive turns, coalesced wake bits |
| `SocketAddrs` | `src/reactor/socket.rs` | the address printer and parser |

Three properties turned out false of the source as it stands. Each has its exact condition and an
input or run at which it fails:

- The path round trip depends on the caller. `sockaddr_len` counts a terminator that `write_to` never
  writes, so on storage that was not cleared the name read back can grow by what was left behind.
  `RoundTripPath` gives the exact condition and `StaleStorageExample` an input; every caller in the
  source passes zeroed storage, for which `RoundTrip` holds without condition.
- A read that fails with an error other than would-block or interruption has taken readiness and does
  not put it back (`src/net.rs:235`). A reader that polls again parks beside what is there, if and only
  if bytes were there that nothing else announced: `OnlyAFailedReadMisses` and
  `ParkedReaderMissesNothing`, with a run in `FailedReadMayMissData`.
- `Acquire::poll` discards the kind that its `remove` returns (`src/sync.rs:655-665`). A grant that
  lands after the future took its permit and before it left is lost, and a waiter can sleep beside a
  free permit. `SemaphoreSteps.FreePermitsAreSpokenFor` says that nothing else loses a wake,
  `GrantMayBeLost` gives a run; with each poll one step it cannot happen, which is `Semaphores`.

One slip of documentation: `poll_once_timeout` gives its cap in milliseconds
(`src/reactor/driver.rs:503`), but compares it with nanoseconds and hands it to a wait in nanoseconds.
`Reactors.Reactor.Timeout` follows the code.

## Model

| member | source | states |
|---|---|---|
| WaitQueues.WaitQueue.Enqueue | src/sync.rs:96-108 | The slot joins the tail, and the links in both directions still spell one sequence |
| WaitQueues.WaitQueue.Unlink | src/sync.rs:110-126 | A slot leaves from any position, its neighbours close up, and no other slot's registration changes |
| WaitQueues.WaitQueue.Allocate | src/sync.rs:137-158 | A first registration gets a slot nobody holds, from the free list or a new one, and the free list stays complete |
| WaitQueues.WaitQueue.Register | src/sync.rs:129-171 | A queued registration keeps its place: the FIFO is what it was; a fresh or granted one joins the tail; the newest waker is stored, no other registration changes, and a replaced waker is handed back |
| WaitQueues.WaitQueue.Remove | src/sync.rs:173-184 | Takes the registration out of the FIFO and of the live ones, touches no other, and says whether it had been granted, and how |
| WaitQueues.WaitQueue.GrantOne | src/sync.rs:188-194 | The one that has waited longest is granted, or nothing changes when nobody waits |
| WaitQueues.WaitQueue.GrantAll | src/sync.rs:196-207 | Everyone queued is granted, nobody else, and their wakers come back in FIFO order: the waker of each position is at the place that the wakers before it leave |
| WaitQueues.SplicedIsLinked | src/sync.rs:110-126 | Splicing out the middle of the list leaves a doubly linked list of the rest, in order |
| WaitQueues.AppendedIsLinked | src/sync.rs:96-108 | Appending leaves a doubly linked list of the longer sequence |
| WaitQueues.FreeChainPop | src/sync.rs:145-150 | Taking the first free slot leaves an acyclic, complete free list |
| WaitQueues.FreeChainPush | src/sync.rs:178-179 | Returning a slot leaves an acyclic, complete free list |
| WaitQueues.RemoveKeepsOrder | src/sync.rs:62-64 | Cancelling anybody leaves the relative order of everybody else as it was |
| WaitQueues.DrainGrantsAll | src/sync.rs:196-207 | Granting the head until nobody is queued is granting everyone at once |
| WaitQueues.DrainCollectsAll | src/sync.rs:196-207 | That loop collects exactly the wakers the queue held, in its order |
| WaitQueues.WakersInOrder | src/sync.rs:196-207 | The wakers that a broadcast collects are those the FIFO holds, each at the place that the wakers before it leave, and no others |
| WaitQueues.RemoveKeepsWellFormed | src/sync.rs:173-184 | After a removal the FIFO still lists exactly the ungranted registrations, each once |
| WaitQueues.GrantHeadKeepsWellFormed | src/sync.rs:188-194 | So it does after a grant |
| Waiters.RegisterKeeps | src/sync.rs:217-220 | Registering makes the caller wait with its own waker stored and starts or stops nobody else's wait |
| Waiters.LeaveKeeps | src/sync.rs:222-228 | Leaving ends the caller's wait and nobody else's |
| Waiters.WakeOneKeeps | src/sync.rs:230-235 | A granted waiter's wake is in flight until it is polled; no one starts to wait |
| Waiters.WakeAllKeeps | src/sync.rs:237-242 | After a broadcast nobody waits and every granted waiter's wake is in flight |
| Notifies.StepKeeps | src/sync.rs:286-445 | Every atomic step keeps: a stored permit means an empty queue, queued futures carry the current generation, and each notification is in one place |
| Notifies.Conservation | src/sync.rs:286-305 | In every run, calls of `notify_one` are the delivered, stored, granted, reserved and coalesced ones, none lost and none doubled, whatever was dropped and when |
| Notifies.ParkedWillBeWoken | src/sync.rs:352-415 | A parked future is queued under the current generation with its own waker, or its wake is in flight |
| Notifies.BroadcastReachesAll | src/sync.rs:309-319 | Right after a broadcast every future created before it is owed a completion, polled or not |
| Notifies.DueIsStable | src/sync.rs:366-415 | What a future is owed cannot be taken away by anyone's later step |
| Notifies.BroadcastIsOwed | src/sync.rs:309-319 | In every run, every future that existed when a broadcast ran is owed a completion at every later moment until it is dropped, whatever anyone does |
| Notifies.DueCompletes | src/sync.rs:366-415 | A future that is owed completes in its next call and cannot park again |
| Notifies.ArmedStopsWaiting | src/sync.rs:344-350 | A future enabled before a check never begins to wait afterwards, and any broadcast ends its wait |
| Notifies.CallIsItsSteps | src/sync.rs:352-363 | The protocol's steps for one `enable` or one poll, run back to back, are the object's whole call |
| Notifies.CallDecides | src/sync.rs:366-415 | What one call decides: its own grant comes first; a raised generation completes it without touching the permit; else a stored permit is taken; else it is queued, in its old place if it had one, with the newest waker |
| Notifies.DropDecides | src/sync.rs:417-445 | A dropped future passes on a single notification, granted or reserved, to the oldest of the others or to the permit, and passes on nothing else |
| Notifies.Notify.GrantOne | src/sync.rs:296-305 | Grants the head of the FIFO and hands back its waker, leaving the permit alone, or stores the permit when nobody waits |
| Notifies.Notify.NotifyWaiters | src/sync.rs:309-319 | Raises the generation, grants all, stores nothing |
| Notifies.Notified.ReadyOrRegister | src/sync.rs:366-415 | The whole decision of `enable` and `poll`, on the vector itself |
| Notifies.Notified.Poll | src/sync.rs:352-363 | A return of ready delivers what was reserved |
| Notifies.Notified.Drop | src/sync.rs:417-445 | Releases the slot and hands an undelivered single notification to the next waiter or the permit |
| Barriers.StepKeeps | src/sync.rs:491-518 | Every step keeps the block count, each waiter in the block it arrived with, and its promise of a wake |
| Barriers.OneElectedPerBlock | src/sync.rs:486-490 | Every `n` arrivals elect exactly one, and fewer than `n` are ever left over |
| Barriers.LeavesOnlyWhenReleased | src/sync.rs:491-518 | The rendezvous: a waiter returns false only once all `n` arrivals of the block it came with, its own among them, have happened |
| Barriers.ReleasedWaitersWake | src/sync.rs:505-517 | A waiter parked after its release has a wake in flight or the broadcast still to come |
| Barriers.Barrier.Arrive | src/sync.rs:491-503 | The `n`th arrival, and only it, is elected, resets the count, opens a new generation and broadcasts; any other counts itself and waits under the current generation |
| Semaphores.StepKeeps | src/sync.rs:553-678 | With each poll and each drop one step: every poll, drop, release and wake keeps permits accounted for and free permits matched while anyone queues |
| Semaphores.FreePermitsAreSpokenFor | src/sync.rs:553-602 | With each poll and each drop one step: while someone queues, every free permit has a granted waiter yet to acknowledge or a `wake_one` yet to run, barging and cancellation included; free, held and forgotten permits add up to those created |
| Semaphores.GrantedAreWoken | src/sync.rs:230-235 | A granted waiter was woken or its wake is in flight |
| Semaphores.WakeTimesGrantsTheOldest | src/sync.rs:585-596 | Adding `n` permits grants the `n` oldest waiters, in order, or all of them if fewer wait |
| Semaphores.AddPermitsIsItsSteps | src/sync.rs:585-596 | The permits and then one `wake_one` step for each, run back to back, are the object's whole call |
| Semaphores.Semaphore.TryAcquire | src/sync.rs:553-569 | The retry loop under any series of failing exchanges takes one permit from the count it last saw, and gives up only on a zero it has seen |
| Semaphores.Semaphore.AddPermits | src/sync.rs:585-596 | Raises the count, then grants one waiter per permit and reports precisely their wakers |
| Semaphores.Acquire.Poll | src/sync.rs:650-668 | Acquires exactly when a permit is free, which it then takes while leaving the queue; otherwise it is queued with its waker and no permit is free |
| Semaphores.Acquire.Drop | src/sync.rs:670-678 | Cancellation hands a granted turn on, to the oldest of the others, exactly when it was granted and a permit is free; otherwise it wakes nobody and keeps everybody else queued |
| SemaphoreSteps.StepKeeps | src/sync.rs:553-678 | At the granularity of single atomics: every load, exchange, registration, removal, check and wake keeps permits accounted for and registrations paired |
| SemaphoreSteps.OnlyAMisdirectedGrantUncovers | src/sync.rs:650-678 | There, a free permit stops being answered for at exactly one kind of step: a `wake_one` that grants a future between its taking a permit and its `remove`, while a settled waiter has no grant, later try or wake to spare |
| SemaphoreSteps.FreePermitsAreSpokenFor | src/sync.rs:585-602 | Over a whole run: every free permit is answered for on behalf of every settled waiter at every moment, if and only if no grant of the run is such a one |
| SemaphoreSteps.NoGrantToALeaverIsEnough | src/sync.rs:655-665 | In particular a run in which no grant lands on a future that has its permit and has not left loses no wake |
| SemaphoreSteps.QuietMeansNoneFree | src/sync.rs:585-602 | Once every wake, check, grant and try is over, a permit answered for means that no settled waiter sleeps beside a free one |
| SemaphoreSteps.GrantMayBeLost | src/sync.rs:662-665 | A run after which a permit is free, one future sleeps in the queue, and nothing is under way that would look for it |
| SemaphoreSteps.RegisterCovers | src/sync.rs:659-661 | The grant that a re-registration discards is replaced by a try behind everybody who is settled |
| SemaphoreSteps.PollIsItsSteps | src/sync.rs:650-668 | The steps of one poll, run back to back, are the coarser protocol's poll and so the object's |
| SemaphoreSteps.DropIsItsSteps | src/sync.rs:670-678 | And those of one drop its drop |
| SemaphoreSteps.TryIsItsSteps | src/sync.rs:553-569 | The load and the exchanges of one try, whatever its failing exchanges find, end as the object's `TryAcquire` does |
| RwLocks.StepKeeps | src/sync.rs:721-758 | Every load, exchange, registration, release and wake keeps word, guards and refusals consistent |
| RwLocks.MutualExclusion | src/sync.rs:682-683 | The word is the guards alive: one writer and no reader, or that many readers and no writer |
| RwLocks.SleepersAreBlocked | src/sync.rs:745-758 | At the granularity of single atomics, a sleeping reader means a writer holds the lock or a `wake_all` is due; a sleeping writer means the lock is held or a `wake_all` is due |
| RwLocks.PollIsItsSteps | src/sync.rs:942-960 | The steps of one poll, run back to back, are the object's whole poll |
| RwLocks.TryReadIsItsSteps | src/sync.rs:721-737 | The load and the exchanges of one try of a reader, whatever its failing exchanges find, end as the object's `TryRead` does |
| RwLocks.RwLock.TryRead | src/sync.rs:721-737 | The retry loop under any series of failing exchanges adds one reader to the word it last saw, and gives up only on a writer it has seen |
| RwLocks.RwLock.TryWrite | src/sync.rs:739-743 | Takes the lock exactly when nobody holds it |
| RwLocks.RwLock.Try | src/sync.rs:721-743 | Either try, run alone: a reader fails exactly on a writer, a writer on any holder |
| RwLocks.RwLock.ReleaseRead | src/sync.rs:745-751 | Only the last reader out wakes, and it wakes everyone |
| RwLocks.RwLock.ReleaseWrite | src/sync.rs:753-758 | Frees the lock and wakes everyone |
| RwLocks.Lock.Poll | src/sync.rs:917-985 | A read or write future either holds the lock and is unregistered, or the word refuses it, is as it was, and the future is queued with its waker |
| RwLocks.Lock.Drop | src/sync.rs:1044-1070 | Leaves the queue and touches nothing else |
| TimerHeaps.SiftUpStep | src/time.rs:109-118 | One swap upwards moves the only disorder to the parent |
| TimerHeaps.SiftDownStep | src/time.rs:120-136 | One swap downwards moves the only disorder to the earlier child |
| TimerHeaps.HoleFilled | src/time.rs:148-163 | After `swap_remove` exactly one direction can be wrong, and the branch taken is the one that mends it |
| TimerHeaps.RootIsFirst | src/time.rs:99-101 | In an ordered heap nobody fires before the root |
| TimerHeaps.FiringOrderIsUnique | src/time.rs:78-87 | Deadline and registration number fix the order in which any set of timers fires |
| TimerHeaps.TimerHeap.Swap | src/time.rs:103-107 | Exchanges two entries and both their slots' stored positions |
| TimerHeaps.TimerHeap.Push | src/time.rs:138-144 | Adds exactly one entry; order and positions hold |
| TimerHeaps.TimerHeap.SwapRemove | src/time.rs:148-156 | The last entry fills the hole, every position still agrees, and the removed slot is marked not queued |
| TimerHeaps.TimerHeap.Remove | src/time.rs:148-163 | Removes exactly the entry at any position; order and positions hold |
| TimerHeaps.TimerHeap.Pop | src/time.rs:165-171 | Removes an entry that is no later than any left, and of equal deadlines the one registered first |
| TimerHeaps.TimerHeap.Arm | src/time.rs:279-289 | Registers one slot and says whether its deadline is strictly the earliest |
| TimerHeaps.TimerHeap.Cancel | src/time.rs:384-407 | A dropped sleep takes out exactly its own entry, wherever the heap has moved it |
| TimerHeaps.TimerHeap.FireDue | src/time.rs:246-275 | Takes out exactly the entries due, by deadline and, where deadlines are equal, by registration number; marks them fired; collects in that order exactly the wakers their slots held; and reports the earliest left |
| TimerViews.ArmIsASection | src/time.rs:279-289 | Pushing an entry is the protocols' registry section of an arm, and it is announced exactly when they say the timer is the earliest |
| TimerViews.CancelIsASection | src/time.rs:384-407 | Removing an entry is the protocols' drop of that timer and no other |
| TimerViews.FireIsASection | src/time.rs:246-275 | Firing leaves what the protocols' firing leaves and reports the deadline they report |
| SleepRuns.StepKeeps | src/time.rs:335-407 | Every load, store, firing and drop keeps each sleep in one of its legal positions |
| SleepRuns.OneFate | src/time.rs:246-275 | An armed timer is pending, fired or cancelled, and pending excludes the others |
| SleepRuns.NeverEarly | src/time.rs:335-382 | A sleep completes only at or after its deadline |
| SleepRuns.FiringIsNeverMissed | src/time.rs:342-358 | A firing that races a re-poll still wakes the sleeper |
| SleepRuns.RePollIsItsSteps | src/time.rs:342-358 | The steps of a re-poll, with firings between look and store and between store and look, are the object's whole poll |
| SleepRuns.FirstPollAndDropAreSteps | src/time.rs:335-407 | So are the look at the clock and the arm of a first poll, and the two sections of a drop |
| DeadlineCache.StepKeeps | src/reactor/driver.rs:215-239 | Every step of any arm, drop, firing or of the loop keeps the cache, or an arm in flight, no later than every timer |
| DeadlineCache.CacheCoversTimers | src/reactor/driver.rs:689-709 | Outside the window between swap and merge the cached deadline, or an arm that has yet to reach it, is no later than every pending timer |
| DeadlineCache.NeverSleepsPastATimer | src/reactor/driver.rs:215-239 | A reactor blocked past some timer has a sticky wake pending or an arm on its way that will issue one |
| DeadlineCache.ArmsInFlightWillWake | src/reactor/driver.rs:219-239 | Such an arm cannot give up: its next step lowers the cache or retries against it |
| DeadlineCache.ArmIsItsSteps | src/reactor/driver.rs:215-239 | The steps of one arm up to its wake, run back to back, are the object's whole arm |
| DeadlineCache.TimerArmedIsItsSteps | src/reactor/driver.rs:215-239 | The load and the exchanges of one arm, whatever its failing exchanges find, end as the object's `TimerArmed` does |
| DeadlineCache.ServiceIsItsSteps | src/reactor/driver.rs:689-709 | The steps of one servicing pass, run back to back, are the object's whole pass |
| DeadlineCache.ServiceDecides | src/reactor/driver.rs:689-709 | A pass changes nothing while the cache is ahead; otherwise it leaves exactly the timers not due and caches the earliest of them |
| NudgedDriver.StepKeeps | src/time.rs:530-586 | Every step of arms and of the thread keeps: what it will wait for covers the timers, or a flag or signal is on its way |
| NudgedDriver.NeverSleepsPastATimer | src/time.rs:558-586 | The dedicated thread never sleeps past a timer unless an arm has yet to signal it |
| Reactors.Sleep.FirstPoll | src/time.rs:359-382 | Ready when due, without a slot; otherwise armed with this waker, and announced exactly when the cache went down |
| Reactors.Sleep.RePoll | src/time.rs:338-358 | With other threads firing before and after the waker is stored: ready exactly when fired by the second look, otherwise pending with the newest waker |
| Reactors.Sleep.Drop | src/time.rs:384-407 | Removes its own entry exactly when it is still pending, and keeps no waker |
| Reactors.Reactor.TimerArmed | src/reactor/driver.rs:215-239 | The compare loop under any series of failing exchanges lowers the cache and wakes exactly when every value it saw was later, and otherwise leaves a cache that is early enough |
| Reactors.Registry.Register | src/time.rs:279-289 | The heap's push under a fresh number is the protocols' registry section of an arm |
| Reactors.Registry.FireDue | src/time.rs:246-275 | The heap's firing is the protocols' firing; every slot it takes is fired, without a waker, and out; and the wakers handed back are exactly those that such slots held, in firing order |
| Reactors.Registry.Cancel | src/time.rs:384-407 | The heap's removal is the protocols' drop of that slot's timer |
| Reactors.Reactor.Arm | src/time.rs:279-289 | The protocol's arm on the heap itself: it is announced exactly when it lowers the cache, which keeps the cache no later than every pending timer |
| Reactors.Reactor.Drain | src/reactor/driver.rs:698-709 | A drain clears the cache, fires, merges what is left back, and hands on every waker that the firing collected, in firing order |
| Reactors.Reactor.ServiceTimers | src/reactor/driver.rs:689-709 | The protocol's servicing pass on the heap itself: afterwards nothing pending is due and the wait ends by every pending deadline; the wakers handed back are exactly those that due slots held before, in firing order, none if and only if no due slot held one |
| Reactors.Reactor.Timeout | src/reactor/driver.rs:508-530 | Never longer than the cap, never past a pending deadline, no shorter than the two require, and zero if and only if those require it or a slot of a due timer held a waker |
| TaskSets.StepKeeps | src/reactor/local.rs:273-302 | Every step of any number of wakers and the poller keeps both chains sound, the marks exact and the parent's wake owed |
| TaskSets.ChainsAreSound | src/reactor/local.rs:312-364 | In every state a slot is marked queued exactly when it is on the chain, on the taken chain, or mid-push; the chains are acyclic and disjoint; `left` counts the live futures |
| TaskSets.WalkIsSafe | src/reactor/local.rs:382-426 | The walk never meets an index without an entry and visits no slot twice in a pass |
| TaskSets.OnlyTheWokenAreVisited | src/reactor/local.rs:278-302 | Visits never outnumber the wakes that won the mark |
| TaskSets.PassVisitsItsChain | src/reactor/local.rs:382-437 | Under any number of concurrent wakers a pass visits exactly the chain it took, each slot once, and nothing else |
| TaskSets.EveryWakeIsServed | src/reactor/local.rs:278-302 | A slot queued at any moment of a run has been visited since by the end of the first later pass that does not overtake a push of it still under way |
| TaskSets.WokenSetIsPolled | src/reactor/local.rs:300-302 | A woken slot on the chain always has its driver polling, told, or about to be told |
| TaskSets.WalkShrinks | src/reactor/local.rs:400-429 | Each pass is finite: only the poller touches the taken chain, and each turn shortens it |
| TaskSets.CompareExchangeKeeps | src/reactor/local.rs:284-299 | An exchange that succeeds publishes a link stored against the head it replaced |
| TaskSetObjects.TaskSet.Push | src/reactor/local.rs:312-364 | A new future has an entry before it is on the chain, and is owed a first poll; the call is a sequence of the protocol's steps |
| TaskSetObjects.TaskSet.WakeByRef | src/reactor/local.rs:278-302 | Queues and calls the driver once: a second wake before the visit changes nothing; the call is a sequence of the protocol's steps |
| TaskSetObjects.TaskSet.WakeEach | src/reactor/local.rs:278-302 | Of a series of wakes the first that queues a slot calls the registered driver, and no other call is made |
| TaskSetObjects.TaskSet.Poll | src/reactor/local.rs:382-437 | With wakes by anyone in each turn: visits exactly the chain as it stood, once each and in order, drops what finished, leaves queued exactly what was woken too late; if anything was, the driver given to this very poll was called, once, and if nothing was, it is the one registered; the call is a sequence of the protocol's steps |
| LocalBlockOn.StepKeeps | src/reactor/local.rs:119-165 | Every step keeps: between its last look at `ready` and the end of a blocking wait, a wake is pending or coming if `ready` is set |
| LocalBlockOn.NeverBlocksOnReadyWork | src/reactor/local.rs:77-89 | A blocking wait beside a set `ready` is about to be ended, although wakes raised on the waiting thread skip the syscall |
| LocalBlockOn.ForeignWakesReachThePoller | src/reactor/local.rs:77-89 | No other thread's wake is ever suppressed |
| LocalBlockOn.OwnWakesSkipTheSyscallInside | src/reactor/local.rs:77-89 | A wake by the driving thread leaves the poller alone exactly while that thread is inside the wait, and otherwise makes the next wait return |
| ReadSlots.Slot.TakeReadableOrPark | src/reactor/driver.rs:269-286 | Readiness is taken or the waker parked in one section; a hang-up always counts as readiness |
| ReadSlots.Slot.PollReadable | src/reactor/driver.rs:302-320 | Parks unless an edge came meanwhile, in which case the caller is woken at once |
| ReadSlots.Slot.Dispatch | src/reactor/driver.rs:738-746 | An edge sets readiness, latches a hang-up and takes the parked waker |
| ReadSlots.TcpStream.PollRead | src/net.rs:199-238 | The poll on slot and socket, interruptions and errors included, is `ReadAlone`, which the next row describes |
| ReadSlots.ReadLeavesNothingUnannounced | src/net.rs:214-230 | A read that got bytes leaves readiness exactly when it filled its buffer and more is there or the query failed; one that parks has found nothing; only a failed read takes readiness away from unread bytes; the hang-up and the parked waker stay |
| ReadSlots.ReadIsItsSteps | src/net.rs:199-238 | The protocol's steps for one read, run back to back, are the object's whole poll |
| ReadSlots.StepKeeps | src/net.rs:199-238 | Every arrival, event, dispatch and read step keeps unread data announced |
| ReadSlots.ParkedReaderMissesNothing | src/net.rs:199-238 | A parked reader's slot is neither readable nor hung up, and its socket is empty and open, or an event is still to be delivered, if and only if no read has failed beside unannounced data since the last edge |
| ReadSlots.OnlyAFailedReadMisses | src/net.rs:205-236 | The exact step at which data stops being announced: a read failing with another error beside bytes that neither slot nor event speaks for; while nobody reads, only a new edge mends it |
| ReadSlots.FailedReadMayMissData | src/net.rs:235 | A run in which a failed read leaves a parked reader beside data no event announces |
| ReadSlots.HangUpSurvivesReads | src/reactor/driver.rs:271-277 | A latched hang-up is never cleared by a read, and the next poll reads again |
| VectoredWrites.Resumes | src/net.rs:422-453 | Suspending between any two answers of the socket changes nothing about how the write goes on |
| VectoredWrites.WriteAllVectored.Poll | src/net.rs:422-453 | What was sent is always a prefix of header and payload joined, and on success all of it; each answer of the socket moves the cursor by what it took, and an empty write, an error or a full socket ends the poll as such |
| ParLoops.DefaultLeaf | src/par.rs:126-127 | The default leaf is never zero |
| ParLoops.LeafIsAShare | src/par.rs:89-127 | The default leaf is the range over eight pieces for each worker, rounded down, and one when the range is too short for that |
| ParLoops.Shared.Work | src/par.rs:180-214 | Counts and gives away the halves `Given` and runs the leaf `Kept` in order; a cancelled piece does nothing |
| ParLoops.Shared.Retire | src/par.rs:216-225 | Only the last piece finishes the loop and takes the joiner's waker |
| ParLoops.WorkIsItsSteps | src/par.rs:180-214 | The protocol's steps for one piece, run back to back, are the object's `work`: the same halves in the bag, the same indices run |
| ParLoops.RetireIsItsSteps | src/par.rs:216-225 | Its steps for one retirement are the object's `retire` |
| ParLoops.TilesHoldTheRange | src/par.rs:194-210 | The halves given away, newest first, hold exactly the indices they were cut from, in order |
| ParLoops.GivenTiles | src/par.rs:194-210 | What splitting gives away tiles the rest of the range, and what is kept is at most a leaf and not empty |
| ParLoops.GivenAreHalves | src/par.rs:194-210 | Each piece given away is the upper half of what was left, which was more than a leaf, and the next one starts where it ended below |
| ParLoops.RunAlone | src/par.rs:180-225 | Splitting is undone on one worker: every index runs once and in order, and the loop finishes with its last piece and not before |
| ParLoops.TilesCoverOnce | src/par.rs:194-210 | Every index of the range given away lies in exactly one of those halves |
| ParLoops.StepKeeps | src/par.rs:180-225 | Every step of pieces, pool, canceller and joiner keeps the count and the ownership of indices |
| ParLoops.NoIndexRunsTwice | src/par.rs:180-214 | In every run no index runs twice and none outside the range |
| ParLoops.FinishedMeansDone | src/par.rs:216-225 | `finished` is set only when no piece is left, and with no cancel, no panic, a live pool and no piece dropped by it every index has then run |
| ParLoops.OutstandingCountsPieces | src/par.rs:259-296 | The counter is the number of pieces in whatever phase, counted ones about to be published included |
| ParLoops.FinishesOnce | src/par.rs:216-225 | The counter reaches zero once and stays there; `finished` is stored once and stays set |
| ParLoops.LossHasACause | src/par.rs:259-296 | In every run, until a cancel, a panic or a piece dropped by the pool, each index has either run or belongs to exactly one piece |
| ParLoops.CancelBoundsTheRest | src/par.rs:180-192 | In every run, from a cancel on and for ever, at most a leaf of indices runs for each piece that was past its check |
| ParLoops.PieceRunsAtMostALeaf | src/par.rs:180-214 | A piece runs at most a leaf of indices in its whole life, and one still in the bag after a cancel runs none |
| ParLoops.CancelledStepSpends | src/par.rs:180-214 | Once cancelled, every index that runs is paid for by the piece that runs it, splitting and publishing included |
| ParLoops.JoinerIsWoken | src/par.rs:367-413 | A joiner parked on a finished loop is about to be woken |
| ParLoops.SplitShrinks | src/par.rs:194-201 | Each split leaves two nonempty halves that meet at the middle |
| Credits.StepKeeps | src/credits.rs:85-125 | Every step of reserve, rollback, settle, replenish and `wait_for` keeps money, in-flight count and pending broadcasts |
| Credits.CreditsConserved | src/credits.rs:199-236 | The balance never exceeds the capacity, the in-flight count is the reservations that exist, and balance, reservations and charged CPU make up the capacity plus refills, exactly so without refill or saturation |
| Credits.AdmissionNeverInDebt | src/credits.rs:199-222 | Only settling an overshot turn can drive the balance negative |
| Credits.AdmissibleWaitersWake | src/credits.rs:103-119 | A parked `wait_for` that could be admitted has a wake or a broadcast coming |
| Credits.ReturnsOnlyWhenAdmissible | src/credits.rs:103-119 | In every run `wait_for` returns only after it saw a balance that covers the request and, after that, a free place |
| Credits.ChangesAreAnnounced | src/credits.rs:225-236 | Whatever raises the balance or lowers the count owes a broadcast |
| Credits.ReserveIsItsSteps | src/credits.rs:199-222 | The steps of one reservation, run back to back, are the object's whole call |
| Credits.SettleIsItsSteps | src/credits.rs:225-236 | So are those of one settlement |
| Credits.ReplenishIsItsSteps | src/credits.rs:87-91 | And those of one refill |
| Credits.CpuReservation.Reconcile | src/credits.rs:225-236 | The balance moves by what was reserved less what the clock says the turn used, nothing for a turn that never started, where nothing saturates and up to the capacity |
| Credits.CreditAccount.Reserve | src/credits.rs:199-222 | Admits exactly when the request is usable, the count is below the parallelism and the balance covers it, taking both halves; otherwise balance and count are as they were, and only a refusal by the balance announces its rollback; the count never passes the parallelism |
| Credits.CreditAccount.Replenish | src/credits.rs:87-91 | Saturating refill up to the capacity, the sum itself below it, and everyone waiting is woken |
| Credits.CpuReservation.Settle | src/credits.rs:225-236 | Reconciles once, by what was reserved less what the turn used, and frees its place; settling again changes nothing |
| Owners.StepKeeps | src/owner.rs:131-194 | Every step of dispatch, budget, run, unwinding, cancellation and return keeps one value in one place |
| Owners.ValueIsInOnePlace | src/owner.rs:31-51 | The value is in the slot or in exactly one lease and carries every turn that ran, in order |
| Owners.TakeNeverFails | src/owner.rs:159-161 | Whoever wins the flag finds the value |
| Owners.ClearFlagMeansPublished | src/owner.rs:42-51 | A clear flag means the value is back with all turns in it |
| Owners.Owner.Dispatch | src/owner.rs:131-172 | Submits exactly when the worker exists, nobody is admitted and the budget grants; worker, busy and budget rejections leave value and flag as they were; otherwise the value moves into one lease |
| Owners.Lease.Drop | src/owner.rs:42-51 | Ends with the value back and admission open |
| Owners.Lease.PutBack | src/owner.rs:46-48 | The first write: the value is back while the flag still keeps everyone out |
| Owners.Lease.Clear | src/owner.rs:49 | The second: admission opens only beside a value that is back |
| Owners.Lease.Turn | src/owner.rs:173-182 | A turn changes the value by its callback alone, a cancelled one not at all, and either way returns it |
| Owners.DispatchIsItsSteps | src/owner.rs:131-172 | The protocol's steps for one dispatch, rollback of the budget included, are the object's whole call |
| Owners.TurnIsItsSteps | src/owner.rs:42-51 | Through a turn the flag stays set until the value with the turn in it is in the slot |
| Readiness.StepKeeps | src/readiness.rs:58-69 | Every step keeps reasons conserved and pending ones announced |
| Readiness.ParkedConsumerIsNotified | src/readiness.rs:58-107 | A parked consumer with pending reasons has a notification owed or a wake in flight, though only the first reason notifies; what `wait` returned and what is pending are exactly what was passed to `wake` |
| Readiness.NotifyOneReachesTheConsumer | src/sync.rs:286-305 | A single notification ends the single consumer's wait |
| Readiness.Signals.Wake | src/readiness.rs:103-107 | Bits merge; beside pending reasons, or with no bits, the notifier is untouched and nobody is woken; the change from none to some is one `notify_one` |
| Readiness.Signals.Pass | src/readiness.rs:58-69 | A pass takes all pending reasons and leaves no trace in the notifier, or leaves an armed future |
| Readiness.PassIsItsSteps | src/readiness.rs:58-69 | The protocol's steps for one pass, run back to back, are the object's whole pass |
| Readiness.CoarseIsLeastMultiple | src/readiness.rs:87-98 | The result is the least multiple of the quantum not before the deadline, and the error means every such multiple reaches the sentinel |
| SocketAddrs.NewPath | src/reactor/socket.rs:142-158 | Which error for which path, and a path kept verbatim otherwise |
| SocketAddrs.NewAbstract | src/reactor/socket.rs:170-183 | Which error for which name, and the name kept after its leading NUL otherwise |
| SocketAddrs.WriteTo | src/reactor/socket.rs:342-388 | Writes the fields of the address's own layout and no other byte, and reports 16 bytes, 28, or what the name needs |
| SocketAddrs.WrittenV4Layout | src/reactor/socket.rs:344-354 | Family, port in network order and four octets at their offsets; every byte after them is as it was |
| SocketAddrs.WrittenV6Layout | src/reactor/socket.rs:355-368 | Family, port in network order, sixteen octets and the scope at their offsets; the flow label and every byte after are as they were |
| SocketAddrs.WrittenPathLayout | src/reactor/socket.rs:369-386 | Family and name at their offsets; every byte after the name, its terminator's included, is as it was |
| SocketAddrs.ReadFrom | src/reactor/socket.rs:395-476 | Reads every family the code speaks and reports the others as absent |
| SocketAddrs.ReadLayout | src/reactor/socket.rs:395-476 | The family decides what is read, from which bytes, and with the port in network order; any other family reads as absent |
| SocketAddrs.ReadPathFrom | src/reactor/socket.rs:425-470 | Tells the three kinds of name apart by the reported length and clears the rest |
| SocketAddrs.ReadPathLayout | src/reactor/socket.rs:425-470 | A name is what was reported of `sun_path`, all of it if it starts with NUL and else up to its first NUL |
| SocketAddrs.ReadNamesAreClean | src/reactor/socket.rs:464-470 | Every name read back fits and is zero padded, whatever was reported |
| SocketAddrs.RoundTripInternet | src/reactor/socket.rs:342-423 | An IPv4, IPv6 or scoped address comes back from any storage, scope zero as a plain one |
| SocketAddrs.RoundTripPath | src/reactor/socket.rs:233-244 | A Unix name comes back if and only if it is not a path or the byte of its terminator was zero before |
| SocketAddrs.RoundTrip | src/reactor/socket.rs:342-476 | On cleared storage every constructible address comes back |
| SocketAddrs.StaleStorageExample | src/reactor/socket.rs:372-386 | A storage that was not cleared, on which a path does not come back |

## Left out

- Kernel calls, the epoll and kqueue backends, signals, processes, name resolution and file I/O: foreign code. What remains is a source of edges and a sticky wake.
- The job pool and the task allocator: a bag of pieces, each run once or dropped once. Panic payloads are not carried; a panic is a step that cancels and gives the piece up.
- Weak memory orderings: every atomic operation takes effect at once, and a weak exchange that fails spuriously is a retry that finds the value it expected. The objects' loops take the values that failing exchanges find as a parameter.
- Wakers are opaque identities whose wake is a step, so `will_wake` is equality.
- Generation counters, registration numbers, permit counts and the task index are assumed not to wrap or overflow; `RwLocks` assumes fewer readers than the writer's value of the word less one, since one more would make the word read as a writer.
- Semaphores.StepKeeps: each poll and each drop of an `Acquire` is one step; below that is `SemaphoreSteps`, where a wake can be lost.
- Semaphores.FreePermitsAreSpokenFor: the same.
- Reactors.Sleep.RePoll: other threads fire at the two points between its three operations on the slot; everything finer is `SleepRuns`.
- DeadlineCache.NeverSleepsPastATimer: one reactor services the timers; its blocking wait is for at most the time to the deadline it computed, with rounding in the kernel and the clock's advance between computing and starting the wait left out.
- Notifies.Notified.ReadyOrRegister: the object's call with nobody in between; interference is the protocol's.
- TaskSetObjects.TaskSet.Poll: which futures finish, and who is woken in whose turn by whichever thread, is given beforehand, and each wake is a whole call; wakes interleaved step by step are `TaskSets`.
- ReadSlots.ParkedReaderMissesNothing: one reader that takes readiness before it reads. `poll_accept` and the connect future park without taking, and the write side re-arms by the size of the send buffer; neither is modelled. Stale slot generations and tokens are left out, and `recv` into an empty buffer on an open empty socket counts as would-block.
- VectoredWrites.WriteAllVectored.Poll: the socket's answers are given; when a full socket wakes the writer is not modelled.
- SocketAddrs.RoundTrip: the little-endian Linux layout; the macOS layout and its missing abstract names are not modelled.
- Readiness.Signals.Wake: a mask is the set of its bits. `wake_at` only adds a sleep before the wake.
- ParLoops.RunAlone: one worker that runs its newest piece first; any other pool is the protocol in the same module.
- Owners.Owner.Dispatch: the budget's answer is a parameter; the permit's own accounting is `Credits`. The submitted turn is `Owners.Lease.Turn`; a callback that unwinds is a step of the protocol only.
- Re-entrant polling of the reactor from a waker, scratch buffers, sharding of wakes, counters, `Timeout`, `try_*_owned` and `Debug` implementations: routing and easy members.
