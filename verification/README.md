# Crossfire, modelled in Dafny

Crossfire is a set of lock-free queues and small atomic-state protocols from which channels are built.
This project models them at the level of single atomic accesses and proves what every interleaving of
any number of threads preserves.

Each component is one module with the same layout:

- a value-level state: the words, stamps, flags and cells that the code keeps, the program point of every
  call under way, and the unbounded positions the words stand for;
- one step function per call, one atomic access per step, with the branches, constants and error answers
  of the code. A weak exchange may fail for no reason (`spurious`);
- an invariant, a lemma for every kind of step that keeps it, and lemmas that state what it promises;
- moves, `Run` over any sequence of moves, and a theorem about whole runs. The queues refine one abstract
  FIFO (`AbstractFifo`): events, explained histories, prefix order, capacity, and an account of what each pop
  returned to its caller;
- a class (`Memory`, or `Handlers` in `Multiplex`) whose methods make the same accesses in place on fields
  and arrays, each proved equal to the step function on the old state. Loops under a lock or without
  interference (drops, `len`, scans, pops of dead entries) are loops.

| file | component |
|---|---|
| `LapRing.dfy`, `RingDrop.dfy` | lap-and-index words of the bounded rings; their drop loop |
| `ArrayQueue.dfy`, `ArrayQueueMpsc.dfy`, `ArrayQueueSpsc.dfy` | the bounded queues |
| `SegBlock.dfy`, `SegQueue.dfy`, `SegRun.dfy` | the unbounded queue: block destruction, the queue, its runs |
| `SegAlone.dfy`, `SegLen.dfy`, `SegDrop.dfy` | calls that run alone; `len`; the drop walk |
| `WaitGroup.dfy` | the wait group's word and its box |
| `OneShot.dfy` | the one-shot channel |
| `Stamps.dfy`, `One.dfy`, `OneMpsc.dfy`, `OneSpsc.dfy` | the queues of capacity one |
| `Channel.dfy` | register, check, park, fire and close, for one blocking receiver |
| `RegistryMulti.dfy` | the ordered waker queue |
| `Multiplex.dfy` | weighted round robin |
| `AbstractFifo.dfy`, `Base.dfy` | the abstract queue; shared names |

How the code is read:

- Memory is sequentially consistent; orderings and fences are not modelled.
- `usize` has 64 bits. Masks by powers of two are written with `%`, or by comparison in `WaitGroupWord`;
  two halves packed in one word are kept as a pair, which `Stamps.PackRoundTrip` justifies.
- The words of the rings wrap. A call that sleeps while almost a whole period of positions goes by could
  take an old word for a new one, so a step of such a call is not enabled (`Awake`). The single-producer
  queues, `OneMpsc` and `OneSpsc` need no such assumption, and `One` needs fewer than 2^15 operations in
  flight.
- Indices of `SegQueue` and sequence numbers of `RegistryMulti` do not wrap.
- Block and box addresses are names. Where an address may be used again (`WeakCell`), a step may take a new
  waker for the old one (`alike`).
- Reads and writes of slots and cells are steps of their own, so that exclusive use is proved and not
  assumed.

Where the documentation says less or more than the code:

- The count of a wait group is promised to stop at its maximum. The overflow test comes after the addition,
  so an add at the maximum itself spoils the flags: `WaitGroup.AddKeepsIff` says that only that add does. It
  takes two panicking adds to get there, and whole runs stop short of it.
- A wait group's waiter can sleep on if its threshold was raised after guards were given out, as the
  documentation of `set_threshold` warns. `WaitGroup.CoverLostIff` says exactly which step misses the wake,
  `WaitGroup.RaisedThresholdSleeps` is a run with such a step, and `WaitGroup.ParkedIsCovered` holds for every
  wait that began with no guard below its threshold.
- A blocking receive after a poll that answered Pending is ruled out only by a comment:
  `OneShot.BlockingNeedsNoWaker` says exactly when it breaks, and `OneShot.PollThenRecvBreaks` is a run that does.

## Model

| member | source | states |
|---|---|---|
| `LapRing.OneLap` | src/crossbeam/array_queue.rs:131-132 | the doubling loop ends with the least power of two above the capacity |
| `LapRing.NewRing` | src/crossbeam/array_queue_spsc.rs:113-136 | a ring is refused exactly for capacity zero or capacity at least half the word; otherwise one lap divides the word and leaves room for two laps |
| `LapRing.Layout` | src/crossbeam/array_queue_spsc.rs:150-166 | every position is lap times capacity plus an index below the capacity |
| `LapRing.WordForm` | src/crossbeam/array_queue_spsc.rs:150-166 | the word of a position is its lap, modulo the laps in a word, above its index; masking gives the index, and adding one does not overflow |
| `LapRing.NextEncodes` | src/crossbeam/array_queue_spsc.rs:157-166 | with lap p / cap (modulo the laps in a word) above index p % cap, the step of the code takes the encoding of p to that of p + 1, across laps and across the end of the word, and adding one to an encoding never overflows |
| `LapRing.WordInjective` | src/crossbeam/array_queue_spsc.rs:144-149 | two words are equal exactly for equal positions, within one period of the encoding |
| `LapRing.WordAddLap` | src/crossbeam/array_queue_mpsc.rs:167-167 | adding one lap, with wrap-around, moves a word one capacity on |
| `LapRing.FullTest` | src/crossbeam/array_queue_spsc.rs:304-314 | head plus one lap equals tail exactly when the positions are one capacity apart, and head equals tail exactly when they are equal |
| `LapRing.LenExact` | src/crossbeam/array_queue_spsc.rs:325-334 | the `len` formula on two words is tail position minus head position |
| `LapRing.SameSlot` | src/crossbeam/array_queue.rs:174-179 | two positions of one slot are at least one capacity apart |
| `LapRing.StampApart` | src/crossbeam/array_queue.rs:182-205 | a written stamp is never mistaken for the free stamp of another position of the slot |
| `RingDrop.EmptiedSlots` | src/crossbeam/array_queue.rs:396-430 | after the drop loop exactly the slots of the queued positions are empty |
| `RingDrop.DropItems` | src/crossbeam/array_queue.rs:396-430 | where every queued item is in its slot, the drop loop drops exactly the queued items, oldest first, each once, and touches no other slot |
| `RingDrop.MpmcStored` | src/crossbeam/array_queue.rs:396-430 | with no call under way the invariant of the MPMC queue has every queued item in its slot |
| `RingDrop.DropMpmc` | src/crossbeam/array_queue.rs:396-430 | dropping an MPMC queue with no call under way drops pushed[taken..] |
| `RingDrop.MpscStored` | src/crossbeam/array_queue_mpsc.rs:347-384 | with no call under way the invariant of the MPSC queue has every queued item in its slot |
| `RingDrop.DropMpsc` | src/crossbeam/array_queue_mpsc.rs:347-384 | dropping an MPSC queue with no call under way drops pushed[taken..] |
| `RingDrop.DropSpsc` | src/crossbeam/array_queue_spsc.rs:342-379 | dropping an SPSC queue in place drops pushed[taken..] and empties exactly those slots |
| `AbstractFifo.ExplainsNext` | src/crossbeam/array_queue.rs:67-75 | a history extended by an allowed event still explains the queue: what was pushed and what was popped, in order |
| `AbstractFifo.FirstInFirstOut` | src/crossbeam/array_queue.rs:67-75 | pops are a prefix of pushes, the rest is the contents, and a bounded queue never holds more than its capacity |
| `AbstractFifo.AccountsNext` | src/crossbeam/array_queue.rs:256-264 | a step that opens the position of its pop event, or closes one by returning its item, keeps the account of all pops |
| `AbstractFifo.AnsweredInOrder` | src/crossbeam/array_queue.rs:256-264 | for the values that pops return: the k-th pop event is answered at most once, by its own call, with its own item, and is answered unless its call is still under way |
| `ArrayQueue.StepKeeps` | src/crossbeam/array_queue.rs:146-334 | every access of push, pop and `len`, by any thread at any time, keeps the invariant that ties words, stamps, values and claims together |
| `ArrayQueue.OneUserPerSlot` | src/crossbeam/array_queue.rs:171-208 | no slot is used by two operations at once |
| `ArrayQueue.FullReport` | src/crossbeam/array_queue.rs:212-244 | "full" is answered exactly when the queue holds its capacity at the instant the head is loaded and the tail is the one seen |
| `ArrayQueue.EmptyReport` | src/crossbeam/array_queue.rs:267-326 | "empty" is answered exactly when the queue is empty at the instant the tail is loaded and the head is the one seen |
| `ArrayQueue.LenReport` | src/crossbeam/array_queue.rs:371-393 | an answered length is the number of items queued when the head was loaded |
| `ArrayQueue.StepRefines` | src/crossbeam/array_queue.rs:171-334 | every access is a silent step, a push or a pop of the abstract bounded queue |
| `ArrayQueue.PopAnswers` | src/crossbeam/array_queue.rs:256-264 | a pop answers with the item its exchange took from the abstract queue |
| `ArrayQueue.ApplyServes` | src/crossbeam/array_queue.rs:256-326 | a successful exchange of the head opens the position of its pop event, the last store of that very pop closes it with the value returned, and no other move opens, closes or returns anything |
| `ArrayQueue.RunIsFifo` | src/crossbeam/array_queue.rs:146-334 | every interleaved run is a run of the bounded FIFO, and the values returned to callers are the pushed items in order: the pop whose exchange was the k-th returns the k-th item, none twice, none lost |
| `ArrayQueue.PushAlone` | src/crossbeam/array_queue.rs:212-244 | run alone on a quiet queue, a push stores its item in five accesses if there is room, and else answers "full" |
| `ArrayQueue.PopAlone` | src/crossbeam/array_queue.rs:256-326 | run alone on a quiet queue, a pop returns the oldest item in five accesses, or answers "empty" |
| `ArrayQueue.Memory.constructor` | src/crossbeam/array_queue.rs:112-139 | a new queue is empty, with each slot stamped by its index |
| `ArrayQueue.Memory.PushLoad` | src/crossbeam/array_queue.rs:212-244 | the loads of a push, in place: the step function on the old state, invariant kept |
| `ArrayQueue.Memory.ExchangeTail` | src/crossbeam/array_queue.rs:182-199 | the exchange on the tail, in place: a success claims the tail position, a failure tries again with the new tail |
| `ArrayQueue.Memory.FillSlot` | src/crossbeam/array_queue.rs:200-205 | the write of the value and then of the stamp, in place |
| `ArrayQueue.Memory.PopLoad` | src/crossbeam/array_queue.rs:267-326 | the loads of a pop, in place |
| `ArrayQueue.Memory.ExchangeHead` | src/crossbeam/array_queue.rs:288-308 | the exchange on the head, in place |
| `ArrayQueue.Memory.ReleaseSlot` | src/crossbeam/array_queue.rs:256-264 | the read of the value and the store of the next lap's stamp, in place |
| `ArrayQueue.Memory.LenLoad` | src/crossbeam/array_queue.rs:371-393 | the three loads of `len`, in place |
| `ArrayQueueMpsc.DispatchKeeps` | src/crossbeam/array_queue_mpsc.rs:160-175 | the cached head sends a push to reload the real one exactly when the tail is a capacity past it |
| `ArrayQueueMpsc.ApplyKeeps` | src/crossbeam/array_queue_mpsc.rs:127-298 | every move keeps head_cached <= head <= tail_cached <= tail <= head_cached + capacity on true positions, with the stamps and values that go with it |
| `ArrayQueueMpsc.WriterAlone` | src/crossbeam/array_queue_mpsc.rs:143-154 | a slot being written is released by the consumer, is not being read, and has one writer |
| `ArrayQueueMpsc.FullReport` | src/crossbeam/array_queue_mpsc.rs:167-175 | "full" is answered exactly when the queue is full at the instant the head is loaded and the tail is the one seen |
| `ArrayQueueMpsc.EmptyReport` | src/crossbeam/array_queue_mpsc.rs:242-264 | "empty" is answered exactly when the queue is empty at the instant the tail is loaded |
| `ArrayQueueMpsc.SentReport` | src/crossbeam/array_queue_mpsc.rs:143-154 | "sent" is answered only for an item that has its position and sits in its slot |
| `ArrayQueueMpsc.PushAdvances` | src/crossbeam/array_queue_mpsc.rs:160-185 | undisturbed, each step of a push is nearer its end |
| `ArrayQueueMpsc.PopWaits` | src/crossbeam/array_queue_mpsc.rs:267-289 | a pop waits exactly while the producer of its own item has not published it |
| `ArrayQueueMpsc.ApplyRefines` | src/crossbeam/array_queue_mpsc.rs:127-298 | every move is an allowed event of the bounded FIFO |
| `ArrayQueueMpsc.RunIsFifo` | src/crossbeam/array_queue_mpsc.rs:127-298 | every run with any number of producers is a run of the bounded FIFO |
| `ArrayQueueMpsc.Memory.constructor` | src/crossbeam/array_queue_mpsc.rs:97-124 | a new queue, with slots stamped by index |
| `ArrayQueueMpsc.Memory.PushLoad` | src/crossbeam/array_queue_mpsc.rs:160-175 | the loads of a push, in place |
| `ArrayQueueMpsc.Memory.ExchangeSender` | src/crossbeam/array_queue_mpsc.rs:127-143 | the exchange that moves the tail and refreshes the cached head, in place |
| `ArrayQueueMpsc.Memory.FillSlot` | src/crossbeam/array_queue_mpsc.rs:143-154 | the write of the value and then of the stamp, in place |
| `ArrayQueueMpsc.Memory.PopLoad` | src/crossbeam/array_queue_mpsc.rs:242-289 | the loads of a pop and its wait for the stamp, in place |
| `ArrayQueueMpsc.Memory.Free` | src/crossbeam/array_queue_mpsc.rs:215-225 | the read of the value and the store that frees the slot, in place |
| `ArrayQueueSpsc.ApplyKeeps` | src/crossbeam/array_queue_spsc.rs:139-281 | every move keeps the same chain of cached and real ends for one producer and one consumer |
| `ArrayQueueSpsc.SidesApart` | src/crossbeam/array_queue_spsc.rs:150-175 | the slot being filled is free and is not the slot being read |
| `ArrayQueueSpsc.FullReport` | src/crossbeam/array_queue_spsc.rs:144-149 | "full" is answered exactly when the queue is full at the load of the head |
| `ArrayQueueSpsc.EmptyReport` | src/crossbeam/array_queue_spsc.rs:223-251 | "empty" is answered exactly when the queue is empty at the load of the tail |
| `ArrayQueueSpsc.WaitFree` | src/crossbeam/array_queue_spsc.rs:139-281 | each step brings a call nearer its end whatever the other side does, and leaves the other side's call alone |
| `ArrayQueueSpsc.ApplyRefines` | src/crossbeam/array_queue_spsc.rs:139-281 | every move is an allowed event of the bounded FIFO |
| `ArrayQueueSpsc.RunIsFifo` | src/crossbeam/array_queue_spsc.rs:139-281 | every interleaving of the two sides is a run of the bounded FIFO |
| `ArrayQueueSpsc.Memory.constructor` | src/crossbeam/array_queue_spsc.rs:113-136 | a new, empty queue |
| `ArrayQueueSpsc.Memory.TryPush` | src/crossbeam/array_queue_spsc.rs:139-175 | the accesses of a push, in place |
| `ArrayQueueSpsc.Memory.TryPop` | src/crossbeam/array_queue_spsc.rs:198-272 | the accesses of a pop, in place |
| `SegBlock.WriterKeeps` | src/crossbeam/seg_queue.rs:263-279 | every step of a push inside its block keeps the destruction invariant: the duty is held by one pop, parked in one unread slot, or not begun |
| `SegBlock.ReaderKeeps` | src/crossbeam/seg_queue.rs:399-414 | every step of a pop inside its block, the sweep of `destroy` included, keeps that invariant |
| `SegBlock.HandOverKeeps` | src/crossbeam/seg_queue.rs:144-151 | handing the duty over to an unread slot keeps the invariant |
| `SegBlock.FreedIffAllFinished` | src/crossbeam/seg_queue.rs:138-155 | a block is freed exactly when the pops of all its slots have finished |
| `SegBlock.FreedIsUntouched` | src/crossbeam/seg_queue.rs:138-155 | nobody has anything left to do in a freed block |
| `SegBlock.FreeingStep` | src/crossbeam/seg_queue.rs:138-155 | the freeing step is taken by the one holder of the duty, after every other pop of the block |
| `SegBlock.PopTakesPush` | src/crossbeam/seg_queue.rs:399-414 | a finished pop holds what the push of its slot stored |
| `SegBlock.PopAdvances` | src/crossbeam/seg_queue.rs:399-414 | once its item is written a pop makes progress with every step |
| `SegQueue.NextIndex` | src/crossbeam/seg_queue.rs:58-65 | the successor of an index: same block and next slot, or past the skipped index into the next block |
| `SegQueue.ClaimTailKeeps` | src/crossbeam/seg_queue.rs:254-272 | an exchange that wins a tail index has the block that owns it, and a spare block if it has to install one |
| `SegQueue.ClaimHeadKeeps` | src/crossbeam/seg_queue.rs:361-380 | an exchange that wins a head index has the block that owns it, and the index is below the tail |
| `SegQueue.ApplyKeeps` | src/crossbeam/seg_queue.rs:210-414 | every move keeps the invariant over ends, stages, blocks and calls; head never passes tail |
| `SegQueue.EmptyReport` | src/crossbeam/seg_queue.rs:312-344 | "empty" is answered exactly when the tail is where the head was, and the queue is empty then |
| `SegQueue.HasNextMeansItem` | src/crossbeam/seg_queue.rs:335-350 | a set HAS_NEXT bit means that there is an item at the head |
| `SegQueue.PopAnswers` | src/crossbeam/seg_queue.rs:399-414 | a finished pop holds the item of its own turn |
| `SegQueue.WinnersTouchLiveBlocks` | src/crossbeam/seg_queue.rs:210-389 | a call that wins an index finds its block alive |
| `SegQueue.WalksTouchLiveBlocks` | src/crossbeam/seg_queue.rs:368-379 | the walk to the next block touches only live blocks |
| `SegQueue.WorkersTouchLiveBlocks` | src/crossbeam/seg_queue.rs:263-279 | pushes and pops at work in a block find it alive |
| `SegQueue.AdvanceWaits` | src/crossbeam/seg_queue.rs:126-135 | the pop of a last slot waits only for the push of that slot to link the next block |
| `SegAlone.PushAlone` | src/crossbeam/seg_queue.rs:210-288 | with nobody else inside a call, a push has its item written as the newest one within ten moves, first block and next block included |
| `SegAlone.PopAlone` | src/crossbeam/seg_queue.rs:309-414 | with nobody else inside a call, a pop returns the oldest item, or "empty" exactly if there is none, within 109 moves, the sweep included |
| `SegQueue.ApplyRefines` | src/crossbeam/seg_queue.rs:210-414 | every move is an allowed event of the unbounded FIFO |
| `SegRun.ApplyServes` | src/crossbeam/seg_queue.rs:361-414 | winning the head opens the position of the pop event, the last step of that pop closes it with the value returned, and no other move opens, closes or returns anything |
| `SegRun.RunIsFifo` | src/crossbeam/seg_queue.rs:210-414 | in every run what was pushed is what was popped followed by the contents, and the pop whose exchange was the k-th returns the k-th item, once |
| `SegRun.FreedExactlyWhenDrained` | src/crossbeam/seg_queue.rs:138-155 | in every run a block has been freed exactly when its 31 pops have returned |
| `SegQueue.Memory.constructor` | src/crossbeam/seg_queue.rs:194-206 | a new queue has no block |
| `SegQueue.Memory.PushLoad` | src/crossbeam/seg_queue.rs:210-232 | the loads of a push, in place |
| `SegQueue.Memory.PutFirstBlock` | src/crossbeam/seg_queue.rs:234-250 | the exchange that installs the first block, in place |
| `SegQueue.Memory.ShowFirstBlock` | src/crossbeam/seg_queue.rs:244-245 | the store that shows the first block to pops, in place |
| `SegQueue.Memory.ExchangeTail` | src/crossbeam/seg_queue.rs:256-263 | the exchange on the tail index, in place |
| `SegQueue.Memory.InstallNextBlock` | src/crossbeam/seg_queue.rs:264-271 | the stores of the next block and the next index, in place |
| `SegQueue.Memory.WriteSlot` | src/crossbeam/seg_queue.rs:271-277 | the link, the value and the WRITE bit, in place |
| `SegQueue.Memory.PopLoad` | src/crossbeam/seg_queue.rs:309-359 | the loads of a pop, in place |
| `SegQueue.Memory.ExchangeHead` | src/crossbeam/seg_queue.rs:361-368 | the exchange on the head index, in place |
| `SegQueue.Memory.AwaitNextBlock` | src/crossbeam/seg_queue.rs:126-135 | one look of the wait for the next block, in place |
| `SegQueue.Memory.MoveToNextBlock` | src/crossbeam/seg_queue.rs:371-378 | the peek at HAS_NEXT and the stores of the next head, in place |
| `SegQueue.Memory.ReadSlot` | src/crossbeam/seg_queue.rs:399-414 | the read, the READ bit and the sweep, in place |
| `SegDrop.QuietFreed` | src/crossbeam/seg_queue.rs:463-496 | with no call under way the blocks already freed are those before the head's |
| `SegLen.BetweenExact` | src/crossbeam/seg_queue.rs:433-455 | the block-end fix-ups, the rotation and the final formula give the number of items between a head and a tail index |
| `SegLen.StepKeeps` | src/crossbeam/seg_queue.rs:425-458 | every load of len, and every move of the queue meanwhile, keeps what each len has seen in order |
| `SegLen.LenReport` | src/crossbeam/seg_queue.rs:425-432 | with pushes and pops going on, an answer of len is the number of items queued at the instant of its last load of the head |
| `SegLen.LenAlone` | src/crossbeam/seg_queue.rs:425-458 | undisturbed, len answers after three loads with the number of queued items |
| `SegLen.Compute` | src/crossbeam/seg_queue.rs:433-455 | the arithmetic of the answer, done step by step |
| `SegLen.Calls.Load` | src/crossbeam/seg_queue.rs:425-458 | one load of len, in place |
| `SegDrop.DropWalk` | src/crossbeam/seg_queue.rs:463-496 | the walk ends, drops each remaining item once, oldest first, and frees exactly the blocks not freed before, each once |
| `SegDrop.Walk` | src/crossbeam/seg_queue.rs:473-494 | the loop itself, on any list of blocks that holds what the walk looks for |
| `WaitGroupWord.TryDone` | src/waitgroup.rs:1341-1357 | taking references off keeps the flags, except that reaching the threshold with the set flag alone turns it into the lock flag |
| `WaitGroupWord.AddOne` | src/waitgroup.rs:994-999 | adding one leaves the flags alone and counts one more exactly when the count is not at its maximum |
| `WaitGroupWord.AddAtMaximum` | src/waitgroup.rs:994-999 | the overflow panic comes after the addition: an add at the maximum count turns on the lock flag |
| `WaitGroupWord.SubOne` | src/waitgroup.rs:1007-1010 | subtracting one from the word changes only the count |
| `WaitGroup.AddKeepsIff` | src/waitgroup.rs:994-999 | an add keeps the box in order if and only if the count is below its maximum |
| `WaitGroup.ApplyKeeps` | src/waitgroup.rs:994-1221 | every step of add, clone, drop, wait, poll and owner drop keeps the invariant |
| `WaitGroup.FreedOnce` | src/waitgroup.rs:1002-1099 | the box is freed at most once, and exactly when no reference and no lock is left |
| `WaitGroup.TouchesLiveBox` | src/waitgroup.rs:1002-1099 | no step touches the box after it was freed |
| `WaitGroup.FreeingStep` | src/waitgroup.rs:1002-1099 | the step that frees is taken by the only user of the box |
| `WaitGroup.FreedGrows` | src/waitgroup.rs:1002-1099 | the three freeing steps, and no other, free the box |
| `WaitGroup.RunFreesOnce` | src/waitgroup.rs:1002-1099 | over every run the box is freed at most once |
| `WaitGroup.WordIsTrue` | src/waitgroup.rs:1283-1297 | the count is the number of references, and the two flags are never both set |
| `WaitGroup.CellHasOneUser` | src/waitgroup.rs:1062-1067 | at most one call is at an access of the waker cell |
| `WaitGroup.NoUnderflow` | src/waitgroup.rs:1341-1348 | the underflow panic is never reached |
| `WaitGroup.WaitReturns` | src/waitgroup.rs:1103-1221 | a wait that returns by itself does so at an instant when the count is at most the threshold |
| `WaitGroup.ParkedIsCovered` | src/waitgroup.rs:1103-1221 | a parked waiter whose guards carry at least its threshold has been woken, or the set flag shows it while the count is above the threshold, or a `done` will wake it |
| `WaitGroup.WakeTakenUp` | src/waitgroup.rs:1341-1357 | when only the set flag speaks for a parked waiter and a guard brings the count to the waiter's threshold, the guard takes up the wake if and only if the count it leaves is within the threshold it carries |
| `WaitGroup.CoverLostIff` | src/waitgroup.rs:1038-1099 | of all moves of all calls, a parked waiter loses its cover by exactly those exchanges of done that bring the count to the waiter's threshold but leave it above the threshold the guard carries; by none if every guard carries at least the waiter's |
| `WaitGroup.WakeArrives` | src/waitgroup.rs:1062-1087 | a `done` that holds a waiter's waker gets to its wake in at most three steps of its own |
| `WaitGroup.RaisedThresholdSleeps` | src/waitgroup.rs:351-361 | the run that shows the wake can be missed: a threshold raised above the one the guards carry, and a waiter that sleeps on below it |
| `WaitGroup.Memory.constructor` | src/waitgroup.rs:340-349 | a new group has one reference and the threshold plus one |
| `WaitGroup.Memory.FetchAdd` | src/waitgroup.rs:994-999 | one add, in place, at any count; it panics exactly within two of the maximum, and spoils the box exactly at the maximum |
| `WaitGroup.Memory.DoneAccess` | src/waitgroup.rs:1038-1061 | the loads and the exchange of `done`, in place |
| `WaitGroup.Memory.FreeByGuard` | src/waitgroup.rs:1026-1034 | the last guard frees the box |
| `WaitGroup.Memory.Close` | src/waitgroup.rs:1062-1087 | taking the waker, unlocking, and then freeing or waking, in place |
| `WaitGroup.Memory.WaitAccess` | src/waitgroup.rs:1103-1128 | the loads of a wait and the exchange that locks the waker cell, in place |
| `WaitGroup.Memory.PutWaker` | src/waitgroup.rs:1129-1134 | the store of the waker, in place |
| `WaitGroup.Memory.ShowWaker` | src/waitgroup.rs:1132-1141 | showing the waker by the set flag; ready exactly when the count is at most the threshold |
| `WaitGroup.Memory.Destroy` | src/waitgroup.rs:1002-1023 | the accesses of the owner's drop, in place |
| `OneShot.TxKeeps` | src/oneshot.rs:152-205 | every step of the sender keeps the invariant of the two-party protocol |
| `OneShot.RxKeeps` | src/oneshot.rs:369-475 | every step of the receiver keeps it |
| `OneShot.ApplyKeeps` | src/oneshot.rs:110-311 | every move keeps it |
| `OneShot.NeverPanics` | src/oneshot.rs:152-205 | the panics, the unwrap and the assertions never fail |
| `OneShot.FreedOnce` | src/oneshot.rs:110-311 | the box is freed at most once, and has been exactly when both sides are done |
| `OneShot.AccessIsSafe` | src/oneshot.rs:110-311 | whoever still makes an access finds the box alive, and a side that frees it is the last |
| `OneShot.CellsHaveOneUser` | src/oneshot.rs:208-216 | the two sides are never both at conflicting accesses of the waker or value cell |
| `OneShot.ValueGoesOnce` | src/oneshot.rs:110-147 | at the end a sent value was received once or dropped once, and "disconnected" means that nothing was sent |
| `OneShot.ValueIsKept` | src/oneshot.rs:110-147 | before that, the value is in one place |
| `OneShot.WaiterIsWoken` | src/oneshot.rs:152-205 | a waiting receiver not yet woken has its latest waker in the cell, and the sender wakes it in the step after announcing its end |
| `OneShot.ConsumeEnds` | src/oneshot.rs:110-147 | a receiver that saw the lock flag is done in three steps |
| `OneShot.BlockingNeedsNoWaker` | src/oneshot.rs:208-216 | a blocking receive, run without interruption, breaks its assertion exactly when a poll left a waker and the sender has not announced its end |
| `OneShot.PollThenRecvBreaks` | src/oneshot.rs:208-216 | the run that reaches it: a poll of a new channel, then a blocking receive |
| `OneShot.ReceivedWasSent` | src/oneshot.rs:246-253 | in every run what the receiver ends up with was sent in an earlier move |
| `OneShot.Memory.constructor` | src/oneshot.rs:75-81 | a new box has no flag set |
| `OneShot.Memory.Begin` | src/oneshot.rs:345-440 | calls begin, in place |
| `OneShot.Memory.WriteValue` | src/oneshot.rs:246-248 | the store of the value, in place |
| `OneShot.Memory.Notify` | src/oneshot.rs:152-205 | the two exchanges of the sender, in place |
| `OneShot.Memory.WakeReceiver` | src/oneshot.rs:174-181 | the wake, in place |
| `OneShot.Memory.LoadState` | src/oneshot.rs:99-106 | the receiver's loads, in place |
| `OneShot.Memory.LookAtWaker` | src/oneshot.rs:398-404 | the comparison of the waker left with the one of this poll |
| `OneShot.Memory.PutWaker` | src/oneshot.rs:208-213 | the store of the waker, in place |
| `OneShot.Memory.ExchangeWaker` | src/oneshot.rs:208-228 | setting and cancelling the waker flag, in place |
| `OneShot.Memory.ConsumeValue` | src/oneshot.rs:110-147 | taking the value and closing, in place |
| `OneShot.Memory.DropReceiver` | src/oneshot.rs:284-311 | the receiver's drop, in place |
| `OneShot.Memory.FreeBox` | src/oneshot.rs:126-130 | the side that closes second frees the box, once |
| `Stamps.PackRoundTrip` | src/flavor/one.rs:80-90 | unpacking undoes packing, so comparing packed words compares both halves |
| `Stamps.WordNext` | src/flavor/one.rs:101-102 | wrapping addition takes the word of p to the word of p + 1 |
| `Stamps.WordSide` | src/flavor/one.rs:105-106 | the lowest bit of a wrapped word selects the slot of its position |
| `Stamps.WordApart` | src/flavor/one.rs:163-175 | positions with equal words are a whole turn apart |
| `One.FreeStamp` | src/flavor/one.rs:163-176 | with fewer than 2^15 operations in flight a slot lets a push in exactly at its own turn |
| `One.FullStamp` | src/flavor/one.rs:180-192 | and lets a pop in exactly when it holds the pop's own item |
| `One.StepKeeps` | src/flavor/one.rs:94-196 | every access keeps the invariant |
| `One.OneUserPerSlot` | src/flavor/one.rs:163-196 | no slot is used by two operations at once |
| `One.FullReport` | src/flavor/one.rs:94-117 | "full" is answered exactly when an item is queued at that instant |
| `One.EmptyReport` | src/flavor/one.rs:120-139 | "empty" is answered exactly when none is |
| `One.PopAnswers` | src/flavor/one.rs:142-148 | a pop answers with the item of the position it claimed, and no other pop reads that position |
| `One.WaitsForSomeone` | src/flavor/one.rs:163-196 | whoever waits for a stamp waits for a call under way that is not itself waiting |
| `One.DropFinds` | src/flavor/one.rs:204-215 | drop finds the queued item, if there is one |
| `One.ApplyRefines` | src/flavor/one.rs:94-196 | every move is an allowed event of the FIFO of capacity one |
| `One.ApplyServes` | src/flavor/one.rs:94-196 | a pop event opens its own position, the last step of that pop closes it with the value returned, and no other move opens, closes or returns anything |
| `One.RunIsFifo` | src/flavor/one.rs:94-196 | over every run, however often the words wrap: first in first out, at most one inside, and each pop returns the item of its own pop event, once |
| `One.Memory.constructor` | src/flavor/one.rs:76-78 | two slots, stamped 0 and 1 |
| `One.Memory.TryPush` | src/flavor/one.rs:94-117 | the load and the exchange of a push, in place |
| `One.Memory.StartRead` | src/flavor/one.rs:120-139 | the load and the exchange of a pop, in place |
| `One.Memory.LookAtStamp` | src/flavor/one.rs:163-175 | one look at the stamp, in place |
| `One.Memory.Write` | src/flavor/one.rs:175-177 | the value and the stamp, in place |
| `One.Memory.Read` | src/flavor/one.rs:192-196 | the read and the stamp, in place |
| `OneMpsc.ApplyKeeps` | src/flavor/one_mpsc.rs:88-178 | every move keeps the invariant |
| `OneMpsc.BlindStore` | src/flavor/one_mpsc.rs:121-129 | the unconditional store of the position word does what a successful exchange would do |
| `OneMpsc.SlotsApart` | src/flavor/one_mpsc.rs:158-178 | two producers never hold one slot, and none holds the slot being read |
| `OneMpsc.SlotIsKept` | src/flavor/one_mpsc.rs:121-129 | while the consumer reads, no producer gets its slot for a later position |
| `OneMpsc.StampTest` | src/flavor/one_mpsc.rs:164-178 | the stamp equals the one waited for exactly when the item has been written, on any lap |
| `OneMpsc.FullReport` | src/flavor/one_mpsc.rs:88-107 | "full" is answered exactly when an item is queued |
| `OneMpsc.EmptyReport` | src/flavor/one_mpsc.rs:110-119 | "empty" is answered exactly when none is |
| `OneMpsc.PopWaits` | src/flavor/one_mpsc.rs:164-178 | a pop waits only for the producer of its own item |
| `OneMpsc.ApplyRefines` | src/flavor/one_mpsc.rs:88-178 | every move is an allowed event of the FIFO of capacity one |
| `OneMpsc.ApplyServes` | src/flavor/one_mpsc.rs:88-178 | a pop event opens its own position, the last step of that pop closes it with the value returned, and no other move opens, closes or returns anything |
| `OneMpsc.RunIsFifo` | src/flavor/one_mpsc.rs:88-178 | over every run, however often the words wrap: first in first out, at most one inside, and each pop returns the item of its own pop event, once |
| `OneMpsc.Memory.constructor` | src/flavor/one_mpsc.rs:70-72 | two slots, stamped 0 and 1 |
| `OneMpsc.Memory.TryPush` | src/flavor/one_mpsc.rs:88-107 | the load and the exchange of a push, in place |
| `OneMpsc.Memory.Write` | src/flavor/one_mpsc.rs:158-161 | the value and the stamp, in place, with no wait |
| `OneMpsc.Memory.StartRead` | src/flavor/one_mpsc.rs:110-129 | the load, the blind store and the look at the stamp, in place |
| `OneMpsc.Memory.Take` | src/flavor/one_mpsc.rs:164-178 | the read, which returns the item of the position taken |
| `OneSpsc.ApplyKeeps` | src/flavor/one_spmc.rs:72-131 | every move keeps the invariant |
| `OneSpsc.BlindStores` | src/flavor/one_spmc.rs:72-85 | each side's store does what a successful exchange would do, and the two are never due together |
| `OneSpsc.SlotsApart` | src/flavor/one_spmc.rs:103-111 | the slot being written is never the slot being read |
| `OneSpsc.Reports` | src/flavor/one_spmc.rs:72-131 | "full" and "empty" are answered exactly when true |
| `OneSpsc.PopAnswers` | src/flavor/one_spmc.rs:103-121 | a pop answers with the item its store took |
| `OneSpsc.WaitFree` | src/flavor/one_spmc.rs:72-131 | three steps end a push, and three a pop, whatever the other side does |
| `OneSpsc.ApplyRefines` | src/flavor/one_spmc.rs:72-131 | every move is an allowed event of the FIFO of capacity one |
| `OneSpsc.ApplyServes` | src/flavor/one_spmc.rs:72-131 | a pop event opens its own position, the last step of that pop closes it with the value returned, and no other move opens, closes or returns anything |
| `OneSpsc.RunIsFifo` | src/flavor/one_spmc.rs:72-131 | over every run, however often the words wrap: first in first out, at most one inside, and each pop returns the item of its own pop event, once |
| `OneSpsc.Memory.constructor` | src/flavor/one_spmc.rs:38-40 | a new, empty queue |
| `OneSpsc.Memory.TryPush` | src/flavor/one_spmc.rs:72-85 | the accesses of a push, in place |
| `OneSpsc.Memory.TryPop` | src/flavor/one_spmc.rs:103-131 | the accesses of a pop, in place; the read returns the item taken |
| `Channel.ApplyKeeps` | src/blocking_rx.rs:86-170 | every move of senders, handles and receiver keeps the invariant |
| `Channel.ParkedIsWoken` | src/blocking_rx.rs:124-155 | a parked receiver without a wake token, while an item is queued or no sender is left, has a call on its way to its waker or one that holds it |
| `Channel.FireAdvances` | src/collections.rs:96-113 | while the receiver is parked every step of such a call brings the wake nearer |
| `Channel.TokenSuffices` | src/waker_registry.rs:191-197 | a parked receiver whose waker was taken goes back to the queue when it runs again |
| `Channel.CountIsTrue` | src/shared.rs:128-175 | the sender count is the number of live handles |
| `Channel.ClosedForGood` | src/shared.rs:135-156 | once zero the count stays zero and nothing more is pushed |
| `Channel.DisconnectedMeansDrained` | src/shared.rs:42-56 | "disconnected" is answered only when no handle is left and every item has been taken |
| `Channel.DisconnectedForGood` | src/blocking_rx.rs:166-170 | after it, in every continuation, nothing is sent and nothing received |
| `Channel.GetsTheOldest` | src/shared.rs:42-56 | a receive takes the oldest item |
| `Channel.Memory.constructor` | src/shared.rs:23-39 | a new channel has one sender handle |
| `Channel.Memory.Push` | src/shared.rs:240-244 | a send pushes and goes on to fire |
| `Channel.Memory.FireAccess` | src/collections.rs:96-113 | the accesses of a fire, in place |
| `Channel.Memory.TryAddTx` | src/shared.rs:135-156 | the load and the exchange of an upgrade, in place |
| `Channel.Memory.CloneTx` | src/shared.rs:128-131 | a clone counts one more |
| `Channel.Memory.CloseHandle` | src/shared.rs:166-175 | a dropped handle counts one less, and the last one fires |
| `Channel.Memory.TryReceive` | src/blocking_rx.rs:124-170 | the receiver's looks at the queue, in place |
| `Channel.Memory.RegisterWaker` | src/collections.rs:136-141 | a new waker replaces the old one, in place |
| `Channel.Memory.Look` | src/waker_registry.rs:191-197 | the looks at the sender count and at the cell, in place |
| `Channel.Memory.Wakeup` | src/blocking_rx.rs:140-152 | a park that returns spends the token |
| `Multiplex.ScanStops` | src/select/multiplex.rs:328-347 | a scan of at most one turn stops at a channel that holds items or before it, and finds something if it gets that far |
| `Multiplex.ReceiveSteps` | src/select/multiplex.rs:307-375 | while a channel holds items every receive serves some channel, and if another one, this one has come nearer |
| `Multiplex.AheadIsBounded` | src/select/multiplex.rs:307-347 | what can be served before a channel is at most the other channels' weights, plus what a channel added in mid-turn has inherited; and all of them right after its own turn |
| `Multiplex.BoundedBypass` | src/select/multiplex.rs:307-375 | a channel that stays non-empty is passed over by at most as many receives as the others' weights add up to (plus reads inherited by a channel added in mid-turn), whatever the senders do and even if cached reads miss |
| `Multiplex.BypassIsReached` | src/select/multiplex.rs:307-347 | with all channels full and all cached reads hits, that many receives do pass it over |
| `Multiplex.ScanAsksAll` | src/select/multiplex.rs:328-347 | a scan that finds nothing has asked each channel on its way, in vain |
| `Multiplex.DisconnectedIsTrue` | src/select/multiplex.rs:251-265 | Disconnected is answered only after a look that found no channel open, followed by a scan that asked every channel and found each empty |
| `Multiplex.Handlers.Add` | src/select/multiplex.rs:105-112 | at any time: a channel is appended with its weight less one and becomes the last index, the reads left stay, and how far they exceed its weight |
| `Multiplex.Handlers.TrySelectAll` | src/select/multiplex.rs:328-347 | the scanning loop serves the first ready channel after the start and resets index and count, or changes nothing |
| `Multiplex.Handlers.TrySelectCached` | src/select/multiplex.rs:307-325 | the cached read while the count lasts, else the scan, one shorter after a miss |
| `Multiplex.Handlers.TryReceive` | src/select/multiplex.rs:251-265 | try_recv on open or closed channels, none included |
| `Multiplex.Handlers.BackOff` | src/select/multiplex.rs:370-378 | the scans of one round, until one serves |
| `Multiplex.Handlers.ReceiveBlocking` | src/select/multiplex.rs:359-411 | recv with all its rounds: cached read, scans while backing off, the look at the open channels, the last scan, the parking and the hint to start from |
| `RegistryMulti.ApplyKeeps` | src/waker_registry.rs:305-642 | every step of registering, firing, clearing and closing keeps the invariant |
| `RegistryMulti.QueueIsOrdered` | src/waker_registry.rs:305-317 | queued wakers are strictly ordered by number, so none is queued twice |
| `RegistryMulti.WokenIsIdle` | src/waker_registry.rs:320-385 | a waker seen woken is neither queued nor in a fire's hands, so it may be registered again |
| `RegistryMulti.FireIsBounded` | src/waker_registry.rs:615-642 | a fire wakes at most one more live waker than it found queued |
| `RegistryMulti.FindsLive` | src/waker_registry.rs:389-428 | what it found is the number of live entries when its first pop had the lock |
| `RegistryMulti.PopTakesOldest` | src/waker_registry.rs:432-459 | a pop takes the live entry with the least number |
| `RegistryMulti.ClearIsSafe` | src/waker_registry.rs:463-526 | an entry that a clear takes off is, at that instant, the caller's own, dead or finished; a step that takes nothing off ends the clear |
| `RegistryMulti.OwnNumber` | src/waker_registry.rs:463-480 | sequence numbers name wakers: the entry with the caller's number is the caller's own |
| `RegistryMulti.CloseTells` | src/waker_registry.rs:558-570 | every entry that close takes off is dead or told, and close ends only on an empty queue, with the flag cleared |
| `RegistryMulti.LockEnds` | src/waker_registry.rs:463-526 | every step under the mutex takes an entry off or releases it |
| `RegistryMulti.RunIsBounded` | src/waker_registry.rs:305-642 | in every run the queue stays ordered and every finished fire kept to its bound |
| `RegistryMulti.Memory.constructor` | src/waker_registry.rs:266-272 | a new registry is empty |
| `RegistryMulti.Memory.RegWaker` | src/waker_registry.rs:305-317 | registering takes the next number and the end of the queue |
| `RegistryMulti.Memory.PopLive` | src/waker_registry.rs:400-423 | the pop loop discards dead entries and stops at the first live one |
| `RegistryMulti.Memory.PopWaker` | src/waker_registry.rs:389-459 | the locked sections of both pops, in place |
| `RegistryMulti.Memory.ClearWakers` | src/waker_registry.rs:463-526 | the clearing loop without interference ends, and has taken off a front part of the queue with no waiting waker in it but the caller's own |
| `RegistryMulti.Memory.ClearEntry` | src/waker_registry.rs:472-526 | one entry of the clearing loop, in place |
| `RegistryMulti.Memory.CloseEntry` | src/waker_registry.rs:558-570 | one entry of the closing loop, in place |
| `RegistryMulti.Memory.FireAccess` | src/waker.rs:276-304 | the steps of a fire outside the lock, the two halves of a wake among them, with spurious failures of its weak exchange |

## Left out

- Weak memory orderings, fences and data races that only they allow.
- `is_empty` and `is_full` of the queues, and `len` of the MPSC and SPSC rings under concurrency: the same loads and the same formula as the modelled `len` and reports.
- ArrayQueue.PushAlone: progress is proved for a call that runs alone, and not as lock-freedom of every schedule.
- ArrayQueue.StepKeeps: assumes, as `Awake` says, that no call sleeps across a whole period of the words.
- ArrayQueueMpsc.ApplyKeeps: makes the same assumption for producers.
- SegQueue.ApplyKeeps: indices do not wrap at 2^64, and allocation does not fail.
- One.StepKeeps: assumes fewer than 2^15 operations in flight.
- RegistryMulti.ApplyKeeps: the 32-bit sequence number does not wrap, and selectors are not modelled; a registration and a pop are one step each.
- A no-lost-wakeup theorem for channels on `RegistryMulti`: a wake loads and then stores, so it can overlap an abandon, and `fire` stops one number below the newest.
- Channel.ParkedIsWoken: for the blocking receiver on `RegistrySingle`, with the queue taken as atomic; waiting senders of a full channel and async receivers are not modelled.
- Channel.DisconnectedMeansDrained: without `WeakTx::send_unchecked`, which may push after the close.
- `WaitGroup::try_into_inner`, `get_mut`, raw-pointer conversion and the inline wait groups.
- WaitGroup.ApplyKeeps: each `done` takes off one reference, as guards do, and only one wait is under way at a time.
- Multiplex.BoundedBypass: between two additions of a channel; registering the waker and the count of open channels are answers from outside, not modelled.
- Timers, deadlines, parking by the operating system and async runtimes, beyond a wake token and an unpark that may come at any time.
- Builders, wrappers, sinks, streams, `select`, errors and formatting: they hold no hard property.
