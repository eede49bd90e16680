# Async runtime and asynchronous IPC on seL4: a Dafny model

This project models the coroutine runtime in `crates/example/async_runtime` and the code in
`crates/example/src` that is built on it, and proves what they keep, over whole runs and over all
interleavings.

- **Call/reply protocol** (`Protocol`, `ProtocolSafety`, `ProtocolTraces`, `ProtocolLiveness`). Caller coroutines push
  requests tagged with their id into a shared queue, notify the server unless its status flag is
  up, and suspend. The server's receiver coroutine drains the queue, clears the flag and suspends; the
  reply coroutine routes each answer through the caller's value slot. One step is one shared access,
  or one executor fetch; two threads and their interrupt handlers interleave freely. Any number of
  callers, calls and queue entries. Main results: every caller obtains exactly the replies to its own
  requests, whatever the interleaving; an outstanding request is always in exactly one place; no
  queue overflows and no value slot is overwritten; requests are served and callers run first come, first served;
  wake-ups are safe at instruction grain and cost one interrupt for each time a raised flag is cleared; a wake-up
  is lost if and only if a receiver clears its flag over an item that arrived after its failed pop
  (and then a run can hang, shown concretely); every run is finite, and one that cannot go on has completed all
  calls if and only if it ends with both queues empty, as every race-free one does.
- **The shared ring** (`SharedRing`, `RingOutcomes`). `SafeRingBuffer` with one producer and one consumer, one step per
  shared access: in every interleaving, and for every capacity, the operations take effect one at a time on a
  bounded FIFO queue, and each ends, within five of its own steps, with exactly one outcome.
- **The executor** (`Runtime`, `RuntimeInvariant`, `Scheduler`, `SchedulerLimits`, `Panics`, `Starvation`,
  `Histories`, `ExecutorImpl`). The
  class `Executor` is the imperative code over ring buffers, an index allocator and bit words; its methods
  are proved equal to the functions of `Runtime`, about which the other modules prove the
  invariant, termination of `run_until_blocked`, agreement with an abstract scheduler of FIFO lists, exactly when it panics,
  the exact set of ids that `actual_wake` wakes, the effect of `possible_switch`, and exactly when a run
  ends with the bitmap zero, how an executor gets stuck, and what gets it going again. A coroutine is a finite
  script of polls, each a list of wakes, spawns, interrupts and voluntary switches.
- **Data structures** (`Words`, `Bitmaps`, `Rings`): index allocator, two-level bitmap and ring buffer,
  each against a set or a sequence.
- **Interrupts** (`Interrupts`): `register_recv_cid` and `uintr_handler`.
- **Network server** (`Listen`, `ListenProofs`, `ListenReplies`, `NetRecv`): the pending handles of a port stay
  aligned with the coroutines that wait for them, each client gets its own listen reply, once, and receive
  requests are conserved and, when there is data, answered.
- **Smaller cores**: the page-slot allocator (`PageSlots`), the chunked string sender (`PutString`) and
  repeated matrix squaring with wrap-around (`Matrices`).

`Basics` holds the result types, a linear search and two lemmas on sequences and sets. `dafny verify dfyconfig.toml` checks the whole project.

## Where the code does not do what one would expect

Each of these is stated as proved, not repaired:

- *A wake-up can be lost.* Between the receiver's failed pop and its store to the flag, a sender can push and
  see the flag still up (`async_lib.rs:194` and `208`, `ipc_test.rs:140` and `159`). `LostIffRace` gives the exact
  condition, `LostWakeupHangs` a run that ends with a caller waiting for ever, and `NoLostWakeups` shows that
  making the two accesses one step removes the problem.
- *`actual_wake` drops ids.* It masks a word that has already been shifted with an unshifted mask
  (`executor.rs:82-85`), so waking id i also clears the pending bit of id 2i. All pending ids are woken if and only
  if no i >= 1 is pending together with 2i (`AllHandledIff`); in general the ids woken are those that can be
  halved to a pending id an even number of times (`HandledIffEvenHalvings`).
- *A coroutine that finishes while queued can stop the executor.* `fetch` pops its dead id, returns `None` and
  leaves the priority bit set (`executor.rs:98-107`). If the id was alone in its queue, that bit then hides all
  priorities of larger number (`DeadHeadStopsRun`) until something is woken or spawned at that priority or one of
  smaller number (`WakeUnsticksIff`, `SpawnUnsticksIff`, `StuckThroughHistory`); if not, the next run goes on behind
  it. `RunEndsEmpty` gives the exact condition for a run to end with the bitmap zero, and
  `StarvationIsReachable` a history of two spawns and a run that starves a ready coroutine.
- *A second receive request on a socket is lost* if the first is still held: the value that `yield_now` returns
  is discarded (`net/mod.rs:278`). `NeverLostIffCrowdFree` and `SecondRequestIsLost`.
- *Unmapping address 0 breaks the page slots*, because 0 marks an unused slot (`memory_allocator.rs:157`).
  `UnmapKeepsIff`.

## Model

| member | source | states |
|---|---|---|
| ProtocolSafety.StepKeeps | crates/example/src/ipc_test.rs:134-163 | every step of either thread or handler keeps: no fault, each caller's books match its phase, one place per outstanding request, only current requests anywhere, calls conserved, flags safe |
| ProtocolSafety.RunKeeps | crates/example/src/ipc_test.rs:119-163 | the same over runs of any length |
| ProtocolSafety.EveryRunMatchesReplies | crates/example/src/async_lib.rs:311-339 | in every interleaving nothing faults, each caller has got exactly its own requests back in order with at most the last outstanding, that one is in exactly one place, and calls started plus remaining budget is constant |
| ProtocolSafety.EveryRunIsWakeSafe | crates/example/src/async_lib.rs:315-332 | in every reachable state a raised flag has an active receiver, a wake on its way or a sender about to notify; so the sender that finds a suspended receiver with no wake on its way notifies it, and one that finds the flag up does not notify |
| ProtocolTraces.InterruptsAreFew | crates/example/src/ipc_test.rs:145-150 | in every interleaving and in both directions a sender about to raise a flag finds it down, and the interrupts sent, with one about to be sent, are exactly the times a raised flag has been cleared, plus one if it is up |
| ProtocolTraces.InterruptsArrive | crates/example/src/async_lib.rs:260-277 | an interrupt sent stays pending whatever happens until the handler takes it, which leaves a deferred wake of the receiver |
| ProtocolTraces.EveryRunIsInOrder | crates/example/src/async_lib.rs:188-213 | in every interleaving the requests pushed are the first ones made, with their messages; those answered the first ones pushed; those delivered the first ones answered; callers run in spawn order and then in the order of their replies |
| ProtocolTraces.RepliesComeFirst | crates/example/async_runtime/src/executor.rs:89-108 | the client's executor runs the reply coroutine exactly if it is ready or has a deferred wake, and otherwise the caller that has been ready longest |
| ProtocolSafety.NobodyWaitsAfterExit | crates/example/src/async_lib.rs:193-206 | once the reply coroutine has left its loop no caller is suspended without its reply, the budget is spent and both queues are empty |
| ProtocolSafety.StartedKeptByRun | crates/example/src/ipc_test.rs:121-122 | no run changes the sum of calls started and `MUTE_SEND_NUM` |
| ProtocolSafety.PushHasRoom | crates/example/src/async_lib.rs:315 | the `unwrap` of the push into the request queue cannot fail |
| ProtocolSafety.AnswerHasRoom | crates/example/src/ipc_test.rs:144 | the `unwrap` of the push into the reply queue cannot fail |
| ProtocolSafety.RealQueuesAreLargeEnough | crates/example/async_runtime/src/new_buffer.rs:9 | distinct caller ids below `MAX_TASK_NUM` never need more than the 4096 entries, so every result about valid configurations holds for the real constants |
| ProtocolSafety.DeliverFaultless | crates/example/src/async_lib.rs:197-200 | the reply coroutine never overwrites a full value slot and wakes only a caller that is suspended waiting for this very reply |
| ProtocolSafety.FetchFaultless | crates/example/async_runtime/src/executor.rs:89-108 | in the protocol no fetch discards a dead id |
| ProtocolSafety.PlacesKeptByTake | crates/example/src/async_lib.rs:123-129 | a resumed caller that takes its value slot leaves no copy of its request anywhere |
| ProtocolSafety.PlacesKeptByDeliver | crates/example/src/async_lib.rs:194-200 | delivery moves a reply from hand to slot and leaves every other request where it was |
| ProtocolLiveness.LostIffRace | crates/example/src/async_lib.rs:193-212 | a step loses a wake-up if and only if it clears a flag over an item that arrived after the failed pop, with no wake on its way and no sender still looking |
| ProtocolLiveness.NeverLostIffRaceFree | crates/example/src/async_lib.rs:193-212 | over any run, no wake-up is lost if and only if no such step occurs |
| ProtocolLiveness.AtomicClearIsRaceFree | crates/example/src/ipc_test.rs:140-160 | with the empty pop and the clear as one step the race cannot occur |
| ProtocolLiveness.NoLostWakeups | crates/example/src/ipc_test.rs:139-161 | both of these from the initial state; with the atomic form a non-empty queue never coexists with a stopped receiver, no wake on its way and an idle sender |
| ProtocolLiveness.QuiescentDoneIff | crates/example/src/ipc_test.rs:119-163 | where no action changes anything any more, every call has been made and answered if and only if no wake-up is lost, equivalently if both queues are empty |
| ProtocolLiveness.MaximalRunCompletesIff | crates/example/src/ipc_test.rs:119-163 | the same for every run from the start that cannot go on; if it has not completed, some caller is suspended for ever |
| ProtocolLiveness.StepWorks | crates/example/src/ipc_test.rs:119-163 | every step that changes anything decreases the work measure, so there is no livelock at either grain |
| ProtocolLiveness.EffectiveRunsAreShort | crates/example/src/ipc_test.rs:119-163 | the length of any run of effective steps is bounded by the work measure |
| ProtocolLiveness.RaceFreeRunsComplete | crates/example/src/ipc_test.rs:119-163 | at most 26 steps per call plus a constant per caller; a race-free run that cannot go on has made and answered all calls |
| ProtocolLiveness.HungForEver | crates/example/src/ipc_test.rs:158-161 | a state with a queued request and everybody suspended that no action can leave |
| ProtocolLiveness.LostWakeupHangs | crates/example/src/ipc_test.rs:139-161 | that state is reachable with two callers at the grain of the code |
| SharedRing.ProducerKeeps | crates/example/async_runtime/src/utils.rs:250-262 | each access of `push_safe` keeps the counters and every unread item, whatever the consumer is in the middle of |
| SharedRing.ConsumerKeeps | crates/example/async_runtime/src/utils.rs:238-247 | the same for `pop_safe` |
| SharedRing.EveryRunIsFifo | crates/example/async_runtime/src/utils.rs:237-262 | in every interleaving the popped items are a prefix of the pushed ones, no unread slot is overwritten, the two sides never touch one slot at once, and the count stays between 0 and the capacity |
| SharedRing.EveryRunIsAQueue | crates/example/async_runtime/src/utils.rs:237-262 | in every interleaving the operations, each at one of its own accesses, are those of a bounded FIFO queue one after the other: appends, removals of the first item, pushes refused exactly when full, pops refused exactly when empty; and that queue ends with the contents of the buffer |
| RingOutcomes.EveryOperationHasOneOutcome | crates/example/async_runtime/src/utils.rs:237-262 | in every interleaving the pushes begun are, item by item, those that appended or were refused and the one under way; each pop begun has returned an item, found the buffer empty, or is under way |
| RingOutcomes.ProducerEnds | crates/example/async_runtime/src/utils.rs:250-262 | a push ends exactly at its one event, and every step brings it nearer to its end |
| RingOutcomes.ConsumerEnds | crates/example/async_runtime/src/utils.rs:238-247 | the same for a pop |
| RingOutcomes.PushEnds | crates/example/async_runtime/src/utils.rs:250-262 | a push has its outcome within five of its own steps, whatever the consumer does |
| RingOutcomes.PopEnds | crates/example/async_runtime/src/utils.rs:238-247 | a pop has its outcome within four of its own steps, whatever the producer does |
| SharedRing.ProducerIsAtomic | crates/example/async_runtime/src/utils.rs:250-262 | `push_safe` acts as one append at its counter update, fails exactly on a full queue, and ends in no other way |
| SharedRing.ConsumerIsAtomic | crates/example/async_runtime/src/utils.rs:238-247 | `pop_safe` acts as one removal of the first item at its counter update, returns that item, fails exactly on an empty queue, and ends in no other way |
| Bitmaps.IndexAllocator.constructor | crates/example/async_runtime/src/utils.rs:14-18 | nothing is allocated |
| Bitmaps.IndexAllocator.Allocate | crates/example/async_runtime/src/utils.rs:20-25 | takes the least free index, fails only if all are taken, changes no other |
| Bitmaps.IndexAllocator.Release | crates/example/async_runtime/src/utils.rs:27-29 | frees exactly that index |
| Bitmaps.BitMap4096.Set | crates/example/async_runtime/src/utils.rs:75-80 | adds one member and keeps the summary word exact |
| Bitmaps.BitMap4096.Get | crates/example/async_runtime/src/utils.rs:82-86 | membership |
| Bitmaps.BitMap4096.Clear | crates/example/async_runtime/src/utils.rs:89-96 | removes one member and keeps the summary word exact |
| Bitmaps.BitMap4096.FindFirstOne | crates/example/async_runtime/src/utils.rs:98-105 | the least member, 4096 if there is none |
| Bitmaps.BitMap4096.FindFirstZero | crates/example/async_runtime/src/utils.rs:107-115 | the least non-member |
| Bitmaps.BitMap4096.Fetch | crates/example/async_runtime/src/utils.rs:58-65 | removes and returns the least member, none exactly for the empty set; what it returns is the next element of `Drained` |
| Bitmaps.BitMap4096.Empty | crates/example/async_runtime/src/utils.rs:68-70 | the summary word is zero if and only if there is no member |
| Words.DrainedAscends | crates/example/async_runtime/src/utils.rs:58-65 | repeated fetching of the least member yields every member once, strictly ascending |
| Words.TrailingZerosIsMin | crates/example/async_runtime/src/utils.rs:157-159 | `trailing_zeros` is the least set position, 64 for the zero word |
| Rings.RingBuffer.Size | crates/example/async_runtime/src/utils.rs:184-186 | the number of items, also after the indices have wrapped around |
| Rings.RingBuffer.Full | crates/example/async_runtime/src/utils.rs:194-196 | full means one item less than there are slots |
| Rings.RingBuffer.Push | crates/example/async_runtime/src/utils.rs:199-206 | appends, or fails exactly on a full ring and changes nothing |
| Rings.RingBuffer.Pop | crates/example/async_runtime/src/utils.rs:209-217 | removes and returns the first item, or fails exactly on an empty ring |
| RuntimeInvariant.NewIdFits | crates/example/async_runtime/src/coroutine.rs:20-24 | the least free id is at most the number of live coroutines, so with fewer than 2048 of them it fits the table, although the allocator has 4096 ids |
| RuntimeInvariant.SpawnKeeps | crates/example/async_runtime/src/executor.rs:51-60 | spawning keeps: ids, table entries and `coroutine_num` agree, each entry's id is its index, a non-empty ready queue has its priority bit set; and it keeps the bits exact |
| RuntimeInvariant.WakeKeeps | crates/example/async_runtime/src/executor.rs:110-125 | the same for wakes, including duplicate ones and those of finished coroutines, which `Panics.WakeOkIff` shows not to panic |
| RuntimeInvariant.ActualWakeKeeps | crates/example/async_runtime/src/executor.rs:75-87 | the same for the deferred wakes |
| RuntimeInvariant.TakeKeeps | crates/example/async_runtime/src/executor.rs:93-107 | fetching cannot panic and keeps the invariant; it keeps the bits exact unless it discards a dead id |
| RuntimeInvariant.PollKeeps | crates/example/async_runtime/src/executor.rs:149-159 | a whole poll, with all that it wakes and spawns and the removal at its end, keeps both |
| RuntimeInvariant.PollWork | crates/example/async_runtime/src/executor.rs:149-159 | a poll uses up exactly one unit of the total remaining polls, spawned scripts included |
| Scheduler.RunTerminates | crates/example/async_runtime/src/executor.rs:148-161 | `run_until_blocked` polls exactly as often as the work that it uses up, and keeps the invariant |
| Scheduler.RunEndsEmpty | crates/example/async_runtime/src/executor.rs:89-108 | from any state, a run ends with the priority bitmap zero, and then all queues empty, if and only if none of its fetches finds the queue of the lowest set bit empty or headed by a dead id |
| Scheduler.SpawnFollows | crates/example/async_runtime/src/executor.rs:51-60 | spawning is putting a script into the first free place and appending it to the list of its priority |
| Scheduler.TakeFollows | crates/example/async_runtime/src/executor.rs:93-107 | with exact bits and live ids queued, fetching removes the head of the lowest-numbered non-empty list, and finds nothing only if all lists are empty |
| Scheduler.PollFollows | crates/example/async_runtime/src/executor.rs:149-159 | a poll acts on the abstract scheduler as on the executor |
| Scheduler.RunFollowsScheduler | crates/example/async_runtime/src/executor.rs:148-161 | every run in which no coroutine finishes while queued polls in exactly the order of the abstract scheduler, voluntary switches included, and no fetch of it meets a dead id |
| SchedulerLimits.WakeFromAppends | crates/example/async_runtime/src/executor.rs:75-87 | `actual_wake` appends to each ready queue exactly the handled pending ids of that priority |
| SchedulerLimits.WokenAtIsHandled | crates/example/async_runtime/src/executor.rs:78-86 | those ids ascend, each occurs once, and they are the handled ids and no others |
| SchedulerLimits.AllHandledIff | crates/example/async_runtime/src/executor.rs:82-85 | every pending id is woken if and only if no positive id is pending together with its double |
| SchedulerLimits.HandledIffEvenHalvings | crates/example/async_runtime/src/executor.rs:82-85 | for each id, read off the pending word: it is woken if and only if it is pending and can be halved to a pending id an even number of times |
| SchedulerLimits.CarefulWakeFits | crates/example/async_runtime/src/executor.rs:118 | if each live id is queued at most once, a ready queue has room for a live coroutine that is not queued |
| SchedulerLimits.CarefulSpawnFits | crates/example/async_runtime/src/executor.rs:55 | and for a new one |
| SchedulerLimits.CarefulRunsNeverPanic | crates/example/async_runtime/src/executor.rs:148-161 | a run whose wakes target unqueued coroutines, in which no coroutine finishes while queued and fewer than 2048 are live, never panics, follows the abstract scheduler and ends with the bitmap zero |
| SchedulerLimits.SwitchGoesUp | crates/example/src/async_lib.rs:140-145 | if `possible_switch` yields, the next coroutine fetched, whatever interrupts come in between, has strictly higher priority and the yielder stays queued; if not, no coroutine of strictly higher priority is ready |
| Panics.WakeOkIff | crates/example/async_runtime/src/executor.rs:110-125 | a wake panics exactly for an id outside the table or, for a live coroutine, for want of room in its ready queue, never because it is queued already; and it queues a live coroutine once more |
| Panics.SpawnOkIff | crates/example/async_runtime/src/executor.rs:51-60 | a spawn panics exactly for a priority of 8 or more, a full ready queue, or 2048 live coroutines, which is when the least free id leaves the table |
| Panics.ActualWakeOkIff | crates/example/async_runtime/src/executor.rs:75-87 | the deferred wakes panic exactly if some ready queue cannot take all of those that go there |
| Panics.FetchOkIff | crates/example/async_runtime/src/executor.rs:89-108 | so does `fetch` |
| Panics.SwitchOkIff | crates/example/src/async_lib.rs:140-145 | `possible_switch` panics exactly without a live running coroutine, or for want of room for the deferred wakes or for itself |
| Panics.PollOkIff | crates/example/async_runtime/src/executor.rs:149-159 | a poll panics exactly if one of its actions does at its turn |
| Panics.RunStopsIff | crates/example/async_runtime/src/executor.rs:148-161 | from any state, `run_until_blocked` panics exactly if at some point a fetch or an action does for one of these reasons |
| Starvation.StuckRunsNothing | crates/example/async_runtime/src/executor.rs:93-107 | with nothing deferred and the queue of the lowest set bit empty, a run polls nothing and changes nothing, whatever is ready elsewhere |
| Starvation.WakeUnsticksIff | crates/example/async_runtime/src/executor.rs:110-125 | waking a live coroutine makes the next fetch find one, that very one, if and only if its priority number is at most that of the stuck queue |
| Starvation.SpawnUnsticksIff | crates/example/async_runtime/src/executor.rs:51-60 | the same for a new coroutine |
| Starvation.StuckThroughWake | crates/example/async_runtime/src/executor.rs:110-125 | wakes at larger priority numbers, and of finished coroutines, leave the executor stuck |
| Starvation.DeadHeadStopsRun | crates/example/async_runtime/src/executor.rs:98-107 | a run that first meets a dead id polls nothing and drops it, and leaves the executor stuck if and only if that id was alone in its queue |
| Starvation.FinishingWhileQueuedSticks | crates/example/async_runtime/src/executor.rs:98-107 | at any priority, with any last poll and any deferred wakes: a coroutine that finishes while queued and is then alone in the lowest ready queue ends the run and leaves the executor stuck there |
| Histories.EveryHistoryKeeps | crates/example/async_runtime/src/executor.rs:51-60 | from a new executor, after any spawns, wakes, interrupts and runs: ids, table entries and `coroutine_num` agree, each entry's id is its index, a non-empty queue has its bit set |
| Histories.EveryDisciplinedRunFollows | crates/example/async_runtime/src/executor.rs:148-161 | from a new executor, as long as no coroutine finishes while queued: bits are exact, only live coroutines are queued, every run follows the abstract scheduler and ends with the bitmap zero |
| Histories.StuckThroughHistory | crates/example/async_runtime/src/executor.rs:93-107 | no sequence of spawns and wakes above the stuck priority, with runs in between, gets the executor going |
| Histories.StarvationIsReachable | crates/example/async_runtime/src/executor.rs:98-107 | two spawns and a run on a new executor leave the second coroutine ready and starved |
| ExecutorImpl.Executor.constructor | crates/example/async_runtime/src/executor.rs:31-41 | the empty executor |
| ExecutorImpl.Executor.Generate | crates/example/async_runtime/src/coroutine.rs:20-24 | the allocator hands out the least free id |
| ExecutorImpl.Executor.Spawn | crates/example/async_runtime/src/executor.rs:51-60 | computes `SpawnTask`, panics included |
| ExecutorImpl.Executor.Wake | crates/example/async_runtime/src/executor.rs:110-125 | computes `WakeTask`, panics included |
| ExecutorImpl.Executor.DelayWake | crates/example/async_runtime/src/executor.rs:128-132 | adds one id to the pending ones; panics if and only if it is 64 or more |
| ExecutorImpl.Executor.WakeBit | crates/example/async_runtime/src/executor.rs:78-86 | one turn of the loop over the shifted word handles the id at this index if the model's handled ids contain it |
| ExecutorImpl.Executor.ActualWake | crates/example/async_runtime/src/executor.rs:75-87 | the loop over the shifted and masked word wakes exactly the handled ids in ascending order |
| ExecutorImpl.Executor.Fetch | crates/example/async_runtime/src/executor.rs:89-108 | computes `Runtime.Fetch`, new state and result |
| ExecutorImpl.Executor.SwitchPossible | crates/example/async_runtime/src/executor.rs:68-73 | computes `Runtime.SwitchPossible` |
| ExecutorImpl.Executor.PossibleSwitch | crates/example/src/async_lib.rs:140-145 | computes the `Switch` action: deferred wakes, then a self-wake if a coroutine of higher priority is ready |
| ExecutorImpl.Executor.RemoveTask | crates/example/async_runtime/src/executor.rs:136-140 | empties the entry, decrements the count, frees the id, leaves the ready queues alone |
| ExecutorImpl.Executor.Poll | crates/example/async_runtime/src/executor.rs:149-159 | computes `Runtime.Poll` |
| ExecutorImpl.Executor.RunUntilBlocked | crates/example/async_runtime/src/executor.rs:148-161 | the loop terminates and ends in the state, and with the polls, of `Scheduler.Run` |
| ExecutorImpl.RemainingStep | crates/example/async_runtime/src/executor.rs:82-85 | what the mask applied to the shifted word does: it removes twice the id just woken |
| Interrupts.WakeTable.RegisterRecvCid | crates/example/src/async_lib.rs:42-50 | registers under the least unused vector, keeps earlier registrations, fails exactly when all 64 are taken |
| Interrupts.WakeTable.WakeRecvCoroutine | crates/example/src/async_lib.rs:71-80 | defers the wake of the coroutine registered under a vector, and fails if there is none |
| Interrupts.WakeTable.UintrHandler | crates/example/src/async_lib.rs:260-277 | adds to the pending ids exactly those registered for the set interrupt bits; panics if and only if a set bit has no registration or an id is out of range |
| Listen.ListenTable.Listen | crates/example/src/net/listen_table.rs:81-94 | on the array of optional entries with their two deques: one more pending handle and one more blocked coroutine, last in line on that port, an entry made on first use, no other port touched; port 0 is refused |
| Listen.ListenTable.IncomingTcpPacket | crates/example/src/net/listen_table.rs:128-150 | on the same: wakes and removes the first blocked coroutine of the port and keeps its handle pending, unless the address differs or the queue is full |
| Listen.ListenTable.Accept | crates/example/src/net/listen_table.rs:115-126 | on the same: hands out the oldest pending handle of the port; fails exactly on a missing entry or an empty queue, and then changes nothing |
| ListenProofs.AcceptsOwnHandle | crates/example/src/net/mod.rs:301 | `accept` finds a handle, and it is the one that the accepting coroutine registered |
| ListenProofs.StartKeeps | crates/example/src/net/mod.rs:294-299 | listening keeps alignment, placement and registration |
| ListenProofs.PacketKeeps | crates/example/src/net/listen_table.rs:128-150 | a first packet keeps them: the woken coroutine moves behind those woken earlier |
| ListenProofs.AcceptKeeps | crates/example/src/net/mod.rs:300-308 | accepting succeeds and keeps them |
| ListenProofs.StepKeeps | crates/example/src/net/mod.rs:284-316 | no admissible step panics, and every one keeps the invariant |
| ListenProofs.EveryRunStaysAligned | crates/example/src/net/mod.rs:294-308 | in every run the pending handles of a port are those of its woken, then of its blocked coroutines, in order; every listen reply carries the key under which `SOCKET_2_CID` finds the coroutine that sent it |
| ListenReplies.EveryReplyGoesToItsClient | crates/example/src/net/mod.rs:300-308 | in every run each listen reply goes to the client named by the request that created its sender, no coroutine replies twice, and those past `accept` are exactly those that have replied |
| ListenReplies.WokenReplies | crates/example/src/net/mod.rs:301-308 | a woken coroutine whose turn comes makes exactly one reply, to its client, with its own handle, and registers under that handle |
| ListenReplies.PacketWakesLongestBlocked | crates/example/src/net/listen_table.rs:134-150 | a first packet makes the longest-blocked coroutine of an open port ready, behind all that are ready already; any other packet changes nothing |
| ListenReplies.RunIsFifo | crates/example/src/net/mod.rs:284-316 | the coroutines run in exactly the order in which they were made ready |
| NetRecv.StepKeeps | crates/example/src/net/mod.rs:217-236 | every request is in exactly one place at every step, that of the lost ones included |
| NetRecv.LostIffCrowded | crates/example/src/net/mod.rs:231-235 | a step loses or dooms a request if and only if it parks one with a coroutine that already has one |
| NetRecv.NeverLostIffCrowdFree | crates/example/src/net/mod.rs:217-282 | over any run from the start, no request is ever lost or doomed if and only if none is ever parked with a coroutine that already has one |
| NetRecv.DoomedIsLost | crates/example/src/net/mod.rs:274-279 | such a request stays in its slot until its coroutine next runs, and is then lost |
| NetRecv.PoliteNeverCrowds | crates/example/src/net/mod.rs:217-236 | with at most one outstanding request per socket nothing is parked with a busy coroutine |
| NetRecv.EveryRequestIsAnsweredOrHeld | crates/example/src/net/mod.rs:245-282 | then in every run no request is lost, and each is queued, held by its one coroutine, which is ready to run, or answered, in exactly one way |
| NetRecv.ServerCatchesUp | crates/example/src/net/mod.rs:217-282 | from any state of such a run, once the server has gone through its queue, whatever it finds, and each ready coroutine has run and found data, every request is answered, once |
| NetRecv.ResumeServes | crates/example/src/net/mod.rs:254-279 | a coroutine that finds data answers its request and nothing else; without data it answers nothing, keeps the request and queues up again last |
| NetRecv.ProcessServes | crates/example/src/net/mod.rs:217-236 | the server answers the oldest request if there is data, and otherwise parks it with its socket's coroutine, which is made ready |
| NetRecv.RequestsInOrder | crates/example/src/net/mod.rs:159-163 | requests are taken up in the order of their arrival |
| NetRecv.NeverAnsweredTwice | crates/example/src/net/mod.rs:245-282 | no run at all answers a request twice |
| NetRecv.SecondRequestIsLost | crates/example/src/net/mod.rs:278 | two requests on one socket can lose the second |
| PageSlots.Allocator.AllocSlot | crates/example/src/memory_allocator.rs:46-57 | with the bookkeeping in order: fails exactly if every slot is mapped; the slot handed out maps nothing and is neither recycled nor fresh any more, and the rest of the bookkeeping still holds |
| PageSlots.NextSlotIsFree | crates/example/src/memory_allocator.rs:46-57 | the same of the specification |
| PageSlots.Allocator.MapVaddr | crates/example/src/memory_allocator.rs:130-151 | computes `Map`; invalid addresses and exhausted slots change nothing |
| PageSlots.Allocator.UnmapVaddr | crates/example/src/memory_allocator.rs:153-167 | frees the first slot that holds the address, if any |
| PageSlots.MapAdds | crates/example/src/memory_allocator.rs:130-151 | a map of a valid address adds it once, unless all slots are mapped; otherwise nothing changes; slots stay disjoint |
| PageSlots.UnmapRemoves | crates/example/src/memory_allocator.rs:153-167 | an unmap of a non-zero address removes one occurrence, or changes nothing if there is none |
| PageSlots.UnmapKeepsIff | crates/example/src/memory_allocator.rs:155-163 | the bookkeeping survives an unmap if and only if the address is not 0 or no slot is unmapped |
| PageSlots.AllocatorIsABag | crates/example/src/memory_allocator.rs:130-167 | over any sequence of maps, and unmaps of non-zero addresses, the slots are a bounded multiset of addresses and recycled slots are distinct and exactly the unmapped ones below `current` |
| PageSlots.NewAllocatorIsABag | crates/example/src/memory_allocator.rs:36-44 | the same from the state of a new allocator and the empty multiset |
| PageSlots.ValidAddressIff | crates/example/src/memory_allocator.rs:132 | the addresses accepted are exactly those of the pages of the region |
| PageSlots.OnlyPagesAreMapped | crates/example/src/memory_allocator.rs:130-167 | whatever is mapped and unmapped, only pages of the region are ever mapped |
| PageSlots.MapReusesFreedSlot | crates/example/src/memory_allocator.rs:46-57 | a map right after an unmap takes the slot just freed; mapping the same page again restores everything |
| PageSlots.LastFreedFirstReused | crates/example/src/memory_allocator.rs:46-57 | slots freed one after the other are reused in the opposite order |
| PutString.FillItem | crates/example/src/async_lib.rs:418-431 | an item announces and carries exactly its piece of the string |
| PutString.PutString | crates/example/src/async_lib.rs:409-435 | the payloads put together are the string; length / 7 + 1 items, all full but the last, which is empty exactly if 7 divides the length |
| Matrices.MulAssociates | crates/example/src/matrix.rs:15-27 | the matrix product is associative, for every size |
| Matrices.PowerAdds | crates/example/src/matrix.rs:31-33 | the product of a d-fold and an e-fold product is the (d+e)-fold one |
| Matrices.WrapMul | crates/example/src/matrix.rs:21 | wrapping the factors modulo 2^64 does not change the wrapped product |
| Matrices.SquaringDoubles | crates/example/src/matrix.rs:31-33 | squaring the wrapped e-fold product gives the wrapped 2e-fold product |
| Matrices.Accumulate | crates/example/src/matrix.rs:20-22 | the innermost loop leaves the wrapped dot product in one entry and touches no other |
| Matrices.MatrixMultiply | crates/example/src/matrix.rs:15-27 | the triple loop computes the exact product, wrapped |
| Matrices.FillMatrix | crates/example/src/matrix.rs:5-13 | the start matrix |
| Matrices.MatrixTest | crates/example/src/matrix.rs:29-35 | any number k of squarings, for any size, gives the 2^k-fold product of the start matrix modulo 2^64 |

## Left out

- seL4 system calls, capability minting, `uipi_send`, CSR access and assembly: foreign code. A notification is one pending bit that a handler step consumes.
- Weak memory: the `Relaxed` accesses are modelled as sequentially consistent.
- In-place form of the concurrent parts: `Protocol`, `SharedRing`, and the coroutine steps of `Listen` and `NetRecv` are step systems on values, because Dafny methods do not interleave. The sequential code is modelled by classes and loops.
- Coroutine bodies in the executor: finite scripts of polls, so a body that never finishes is represented by its finite prefixes.
- A poll that goes on after `possible_switch` has yielded does not exist in the code but is allowed to scripts; results for all scripts cover the real ones.
- Interrupts in the executor arrive inside a poll, or between the operations of `possible_switch`; one between two polls has the effect of one at the end of the poll before. The handler runs on the executor's own thread, so its load and store of the pending word are one step.
- 64-bit words are sequences of 64 booleans with the operators written out; indices and ids are unbounded but every one is compared with its array's length.
- `coroutine_num` and the counters do not wrap; `remove_task` at zero is a panic, as in a build with overflow checks. The matrix arithmetic wraps, as in a release build.
- `tasks_bak`, `get_ready_num`, `init`, `run_until_complete`: bookkeeping or plain loops around what is modelled.
- The computation that the echoing server makes for each request (`matrix_test`) is modelled separately; the server's answer is the request itself, as in the code.
- Message contents other than one number; `extend_msg` is modelled only where `PutString` fills it.
- The variants `recv_reply_coroutine_async_syscall`, `seL4_Send_with_item` and `uintr_handler2`: the first and last repeat modelled code, the second waits for no reply.
- The server's Send arm: it makes no reply when the socket cannot send, so requests of that kind are not conserved.
- `listen_with_ep`, `unlisten` and endpoints in `incoming_tcp_packet`: their queues serve other wake paths. Alignment is proved for coroutine listeners, all at one priority.
- ListenProofs.StepKeeps: takes it as given that an accepted socket is connected and that the port is not 0, which `accept` and `listen` assert; the state of a socket belongs to smoltcp.
- NetRecv.EveryRequestIsAnsweredOrHeld: sockets are known to `SOCKET_2_CID` before requests for them arrive, and reading succeeds when `can_recv` says so; otherwise the code panics or drops the request.
- Device drivers and smoltcp: whether a socket can receive is decided by the environment at every look.
- The page allocator's system calls; its `&mut self` methods are taken to run one after the other, also across their awaits. `SyncMemoryAllocator` has the same slot logic.
- `object_allocator.rs`, `image_utils.rs`, `net/message.rs`, `message_info.rs`, the individual `seL4_*` builders, benchmark drivers, logging and heap set-up: field copies and tables that would add only easy members.
