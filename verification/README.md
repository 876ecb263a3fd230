# Verified model of futures-intrusive

This project models the synchronisation primitives of futures-intrusive in Dafny and proves what they promise. It has
three layers.

1. **Intrusive containers on the heap.** `LinkedList.dfy` is the doubly linked list and `PairingHeap.dfy` the pairing
   heap. Both work on nodes that their users own, through the same pointers as the original, and are proved against a
   sequence and a set of nodes. `RingBuffer.dfy` is the array-backed ring buffer.
2. **Protocols as state machines.** `SemaphoreModel.dfy`, `MutexModel.dfy`, `MpmcModel.dfy`, `StateBroadcastModel.dfy`
   and `TimerModel.dfy` define each operation that runs under a primitive's lock as one atomic step on a value: the
   locked fields together with the wait queue entries of all live futures. The other files of this layer
   (`*Invariants`, `*Runs`, `*Calls`, `*Fairness`, `*Wakeups`, `*Reservations`, `*Stranding`, `*Fifo`, `*Closing`,
   `*Waiting`, `*Overdue`, `*Polling`, `*Order`, `*Tasks`, `*Handles`), with the facts about queues and histories in
   `Histories.dfy` and `Registrations.dfy`, prove what single steps keep and what holds after every run, where a run
   is any list of operations by any number of tasks: creating, polling with any waker, re-polling, cancelling,
   dropping, releasing and closing.
3. **The primitives on the heap.** `Semaphore.dfy`, `Mutex.dfy`, `Mpmc.dfy`, `StateBroadcast.dfy` and `Timer.dfy` are
   classes with the original's fields and methods on top of the containers, including futures, guards and releasers
   with their destructors. Each method is proved to do to the abstract value of its object exactly what the operation
   of the state machine does. The `*Sessions` modules then tie whole programs to runs: a session is one primitive with
   everything that its users hold, each method records its operation, and `Valid` says that the object on the heap, its
   wake-up log and the users' handles are exactly what the run of the recorded operations leads to. Every method keeps
   that, so whatever a program calls, in whatever order, every result about runs is a result about the heap objects.

What the state machines compute is pinned down without their definitions: `*Polling`, `*Tasks` and `*Handles` say when
each operation succeeds, whom it notifies, and that the task which is called is the one that polled the future last;
`*Order` derives from the history of each queue that nobody is notified while somebody older still waits.

Wakers are ids, and the wake-up calls are recorded in a ghost log. The clock is a parameter of the operations that read
it. A ghost map of each primitive holds the entries of all its live futures, which lets the invariants count notified
futures that are in no queue. Where the original panics on misuse (polling a finished future, unlinking a node that is
in no list, pushing into a full buffer), the precondition excludes it, and the invariants show that the operations
themselves never get there; `Panicked` marks these branches in the state machines.

Two promises fail for requests of different sizes, and the project says exactly when. A semaphore wakes nobody when a
future that was not notified gives up (src/sync/semaphore.rs:281-287), and an unfair one wakes nobody when a notified
future finds too few permits and queues up again (src/sync/semaphore.rs:225-239). `FairStepKeepsOldestServed` and
`UnfairStepOverlooks` show that these are the only steps that can leave the oldest waiter asleep although its request
fits, and give the exact condition; `FairOldestServedThroughout` and `CarefulRunsOverlookNobody` lift it to runs. That
it happens is shown by `FairMixedRequestsCanStrand`, `UnfairMixedRequestsCanStrand` and `UnfairCancellationCanStrand`.

Two comments in the source say more than its code does; the models follow the code and say exactly when the comments
hold. A queued receiver of a channel is said never to be polled while a value is there (src/channel/mpmc.rs:289-291).
That is so until somebody offers a value while two or more receivers queue (`StepOffers`,
`NothingToReceiveThroughout`): one of them is notified and the others wait on. A registered timer is said never to be
polled after its deadline (src/timer/inner.rs:115-116). `PollsTellTheTruth` says when that is so; it is so in
particular as long as no poll and no creation of a delay takes place at or past the deadline of a registered timer,
the condition of `StepOvertakes` and `NobodyOverdueThroughout`, and a check mends it. `QueuedReceiverDespiteValue` and
`OverdueTimerNeedsACheck` are runs in which it happens.

`dafny verify dfyconfig.toml` checks everything.

## Model

| member | source | states |
|---|---|---|
| Collections.UpdateWakerRef | src/utils/mod.rs:7-14 | whatever waker was stored, the task that polls now is the one to be woken |
| LinkedLists.LinkedList.AddFront | src/intrusive_double_linked_list.rs:71-81 | the node becomes the first one, the others keep their order, and the pointers agree with the sequence in both directions |
| LinkedLists.LinkedList.PeekFirst | src/intrusive_double_linked_list.rs:88-98 | the first node, or nothing for an empty list |
| LinkedLists.LinkedList.PeekLast | src/intrusive_double_linked_list.rs:122-132 | the last node, or nothing for an empty list |
| LinkedLists.LinkedList.IsEmpty | src/intrusive_double_linked_list.rs:204-211 | true exactly for the empty list; the assertion that the tail is unset as well never fails |
| LinkedLists.LinkedList.RemoveFirst | src/intrusive_double_linked_list.rs:152-175 | takes the first node off and leaves it linked to nothing; an empty list stays as it is |
| LinkedLists.LinkedList.RemoveLast | src/intrusive_double_linked_list.rs:178-201 | takes the last node off and leaves it linked to nothing |
| LinkedLists.LinkedList.Remove | src/intrusive_double_linked_list.rs:218-254 | removes the node wherever it is and reports false exactly for a node that is in no list; either way the node is clean afterwards and can be inserted again |
| LinkedLists.CutOut | src/intrusive_double_linked_list.rs:219-248 | once the neighbours of a position point at each other, the sequence without it is a well-linked list |
| LinkedLists.LinkedList.Drain | src/intrusive_double_linked_list.rs:262-288 | visits every node once from the head, although the nodes ahead still point back at detached ones; the list ends empty and every node detached, with its data rewritten by the callback |
| LinkedLists.LinkedList.ReverseDrain | src/intrusive_double_linked_list.rs:296-322 | the same from the tail; the effects of the callback come oldest node first |
| LinkedLists.ReverseDrainMirrorsDrain | src/intrusive_double_linked_list.rs:262-322 | draining backwards has exactly the effects of draining the reversed list forwards |
| PairingHeaps.HeapNode.IsRoot | src/intrusive_pairing_heap.rs:77-85 | a node is a root exactly when it has no parent, and the assertions that it has no siblings then never fail |
| PairingHeaps.AddChild | src/intrusive_pairing_heap.rs:103-116 | hangs a tree in front of the children of a node with no greater key and keeps the heap a consistent, heap-ordered forest; the two assertions never fail |
| PairingHeaps.Meld | src/intrusive_pairing_heap.rs:119-133 | of two trees the one with the lesser root key takes the other one as child (the right one wins a tie), and all four kinds of pointers stay consistent |
| PairingHeaps.MaybeMeld | src/intrusive_pairing_heap.rs:136-145 | melding with an absent left tree leaves the right one |
| PairingHeaps.LastChild | src/intrusive_pairing_heap.rs:148-156 | the walk along `next` terminates at the last of the siblings |
| PairingHeaps.UnlinkPrev | src/intrusive_pairing_heap.rs:167-175 | cuts the last sibling off and returns the one before it, which is the last one now |
| PairingHeaps.ChildrenInOrder | src/intrusive_pairing_heap.rs:148-156 | walking from the first child along `next` meets every child exactly once, in an order that `prev` agrees with |
| PairingHeaps.TakeLast | src/intrusive_pairing_heap.rs:192-210 | one half of a round of the merge loop: the last pending child becomes a tree of its own, and the child list before it stays linked |
| PairingHeaps.MeldPair | src/intrusive_pairing_heap.rs:212-222 | the other half: two neighbours and the tree that earlier rounds have built, if any, become one tree |
| PairingHeaps.MergeChildren | src/intrusive_pairing_heap.rs:179-224 | for any non-empty child list, of even or odd length, the right-to-left pairing loop terminates with a single parentless root above exactly the old nodes; the assertion about the common parent never fails |
| PairingHeaps.Detach | src/intrusive_pairing_heap.rs:271-287 | a node is cut out of its parent's child list, wherever it stands in it, and its own children keep their links to each other |
| PairingHeaps.AroundNode | src/intrusive_pairing_heap.rs:289-299 | a removed node has a key between those of its parent and of its children, so the merged children may be hung under the parent |
| PairingHeaps.PairingHeap.constructor | src/intrusive_pairing_heap.rs:235-237 | a new heap is empty and well-formed |
| PairingHeaps.PairingHeap.Insert | src/intrusive_pairing_heap.rs:244-254 | the heap holds exactly the old nodes and the new one, and stays a single heap-ordered tree |
| PairingHeaps.PairingHeap.PeekMin | src/intrusive_pairing_heap.rs:261-263 | nothing exactly for an empty heap, and otherwise a node of the heap with a least key |
| PairingHeaps.PairingHeap.Remove | src/intrusive_pairing_heap.rs:268-301 | removing any node, be it the root, or a first, middle, last or only child, with or without children, leaves a single heap-ordered tree over exactly the other nodes, and the node clean |
| PairingHeaps.RootIsLeast | src/intrusive_pairing_heap.rs:261-263 | in a heap-ordered forest with one root, that root is a least node |
| PairingHeaps.PathToRoot | src/intrusive_pairing_heap.rs:226-231 | every node reaches the root through parents, with keys that never grow, without meeting a node twice: the heap is one acyclic tree |
| PairingHeaps.LoneRoot | src/intrusive_pairing_heap.rs:268-301 | a heap whose only root has no children consists of that root |
| RingBuffers.ArrayBuf.constructor | src/buffer/ring_buffer.rs:94-108 | a new buffer is empty, for every capacity including none |
| RingBuffers.ArrayBuf.NextIdx | src/buffer/ring_buffer.rs:80-86 | the next slot, wrapping at the end |
| RingBuffers.ArrayBuf.CanPush | src/buffer/ring_buffer.rs:121-123 | true exactly while fewer items are stored than there are slots |
| RingBuffers.ArrayBuf.Push | src/buffer/ring_buffer.rs:126-136 | the item goes behind the stored ones, whose slots stay untouched; the send index stays the receive index plus the size, wrapped |
| RingBuffers.ArrayBuf.Pop | src/buffer/ring_buffer.rs:139-150 | takes the oldest item |
| RingBuffers.ArrayBuf.Drop | src/buffer/ring_buffer.rs:157-169 | releases exactly the items still stored, each once |
| Semaphores.SemaphoreState.WakeupWaiters | src/sync/semaphore.rs:69-113 | the loop over the linked list does what the wake-up function does on the sequence of waiters |
| Semaphores.SemaphoreState.Release | src/sync/semaphore.rs:120-129 | adds the permits and wakes; the invariant of the semaphore is kept |
| Semaphores.SemaphoreState.TryAcquireSync | src/sync/semaphore.rs:134-149 | takes the permits at once if and only if they are there and, on a fair semaphore, nobody waits (or none are asked for) |
| Semaphores.SemaphoreState.TryAcquire | src/sync/semaphore.rs:156-245 | one poll, on the linked list, equals the poll of the state machine; on an unfair semaphore it is ready if and only if the request fits, and a pending one leaves the node queued with the waker of this poll; a future that has not finished never makes it panic, and the assertion that only unfair waiters find too few permits never fails |
| Semaphores.SemaphoreState.RemoveWaiter | src/sync/semaphore.rs:264-290 | giving up equals that of the state machine, and leaves the node unlinked |
| Semaphores.Acquire | src/sync/semaphore.rs:482-491 | a new future is attached and has not asked for anything yet |
| Semaphores.TryAcquireNow | src/sync/semaphore.rs:500-512 | acquiring at once yields a releaser for exactly these permits, or nothing and no change |
| Semaphores.AcquireFuture.Poll | src/sync/semaphore.rs:369-399 | a ready poll detaches the future and hands out a releaser for exactly the permits it asked for |
| Semaphores.AcquireFuture.Drop | src/sync/semaphore.rs:413-429 | dropping an unfinished future gives its place up; a finished one changes nothing |
| Semaphores.Releaser.Disarm | src/sync/semaphore.rs:320-324 | the permits pass to the caller, and dropping the releaser then returns none |
| Semaphores.Releaser.Drop | src/sync/semaphore.rs:328-333 | returns exactly the permits that the releaser still answers for |
| SemaphoreInvariants.TryAcquireKeepsInv | src/sync/semaphore.rs:156-245 | every poll keeps the invariant: a fair semaphore notifies nobody but its oldest waiter, and only when that request fits; it panics exactly on a finished future, and takes exactly the requested permits when it is ready |
| SemaphoreInvariants.RemoveWaiterKeepsInv | src/sync/semaphore.rs:264-290 | giving up keeps the invariant and the number of permits, and leaves the future out of the queue |
| SemaphoreInvariants.ReleaseKeepsInv | src/sync/semaphore.rs:120-129 | releasing keeps the invariant and adds exactly the released permits |
| SemaphoreInvariants.WakeTakesOldest | src/sync/semaphore.rs:69-113 | an unfair wake-up removes waiters at the old end of the queue only |
| SemaphoreInvariants.WakeIsGreedy | src/sync/semaphore.rs:69-113 | it removes the longest run of oldest waiters whose requests fit together into the permits |
| SemaphoreInvariants.WakeCallsOldestFirst | src/sync/semaphore.rs:69-113 | it calls each of them exactly once, the oldest first |
| SemaphoreInvariants.WakeNotifiesTheRemoved | src/sync/semaphore.rs:69-113 | exactly the removed waiters are marked as notified |
| SemaphoreCalls.NobodyIsReleasedSilently | src/sync/semaphore.rs:69-113 | in both modes, whatever happens next, a waiting future either goes on waiting undisturbed, or is notified and its current waker is called at that moment |
| SemaphoreRuns.StepKeepsWorldInv | src/sync/semaphore.rs:120-334 | whatever operation comes next, no permit is lost or invented: available permits, those of live releasers and disarmed ones add up to the initial and the manually released ones |
| SemaphoreRuns.Exec | src/sync/semaphore.rs:120-334 | the same for every run from the start, in both modes, with any interleaving of polls, drops and releases |
| SemaphoreFairness.FairPoll | src/sync/semaphore.rs:156-245 | on a fair semaphore, a poll lets nobody but the oldest waiter out of the queue, and nobody past it except a request for nothing |
| SemaphoreFairness.FairRunGrantsInOrder | src/sync/semaphore.rs:134-245 | in every run of a fair semaphore, permits are granted in the order of the first polls or successful immediate acquisitions, with those who gave up struck out |
| SemaphoreWakeups.FairStepKeepsOldestServed | src/sync/semaphore.rs:120-290 | on a fair semaphore with requests of any size, a step keeps "if the oldest request fits, its waiter is notified" if and only if it is not the cancellation of a waiting oldest future in front of one that fits |
| SemaphoreWakeups.FairOldestServedThroughout | src/sync/semaphore.rs:120-290 | the run form, both ways: the oldest waiter is served at every point of a fair run if and only if no cancellation in the run is of that kind |
| SemaphoreWakeups.FairSemaphoreRecovers | src/sync/semaphore.rs:204-224 | after that, any release of permits, or the notified future acquiring or giving up, establishes it again |
| SemaphoreStranding.FairMixedRequestsCanStrand | src/sync/semaphore.rs:281-287 | the exception is real: a run after which a permit is free and the oldest waiter neither was told nor gets it by polling |
| SemaphoreWakeups.UniformRunsLoseNoWakeup | src/sync/semaphore.rs:69-113 | if all futures ask for the same number of permits, then in every run: on an unfair semaphore enough futures are notified for all permits while anybody queues, and on a fair one the oldest waiter is notified exactly when its request fits |
| SemaphoreWakeups.NoLostWakeupCounts | src/sync/semaphore.rs:461-466 | the unfair guarantee in whole requests: at least permits / k notified futures |
| SemaphoreStranding.UnfairMixedRequestsCanStrand | src/sync/semaphore.rs:185-239 | with different sizes an unfair run can end with a waiter that fits and nobody notified, because a notified future queued up again |
| SemaphoreStranding.UnfairCancellationCanStrand | src/sync/semaphore.rs:281-287 | the other way is real as well: an unfair run in which a waiting oldest future gives up in front of one that fits, and nobody is notified |
| SemaphoreReservations.UnfairStepOverlooks | src/sync/semaphore.rs:185-290 | on an unfair semaphore with requests of any size, a step keeps "the permits not reserved for notified futures are too few for the oldest waiter" if and only if it is neither the cancellation of a waiting oldest future in front of one that fits, nor the re-queueing of a notified future that leaves enough for the oldest waiter |
| SemaphoreReservations.CarefulRunsOverlookNobody | src/sync/semaphore.rs:69-290 | the run form, both ways: no waiter is overlooked at any point of an unfair run if and only if no step of the run is of either kind |
| SemaphoreReservations.UnfairSemaphoreRecovers | src/sync/semaphore.rs:120-129 | from any state of an unfair semaphore, overlooked waiters or not, any release of permits or notified future that gives up establishes the guarantee again |
| SemaphoreReservations.SomebodyKnows | src/sync/semaphore.rs:69-113 | under that guarantee, whenever the oldest request fits, some future has been notified |
| SemaphoreReservations.WakeReserves | src/sync/semaphore.rs:69-113 | a wake-up goes on until what it has not given out is too little for the next waiter |
| Mutexes.MutexState.ReturnLastWaiter | src/sync/mutex.rs:73-92 | notifies the oldest waiter, the one at the end of the queue, and hands out exactly its waker; an unfair mutex takes it off the queue |
| Mutexes.MutexState.Unlock | src/sync/mutex.rs:103-113 | unlocks and notifies; an unlocked mutex is left alone; the invariant is kept |
| Mutexes.MutexState.TryLockSync | src/sync/mutex.rs:118-129 | locks exactly if the mutex is free and, when fair, nobody waits |
| Mutexes.MutexState.TryLock | src/sync/mutex.rs:137-217 | one poll on the linked list equals that of the state machine; it never panics on an unfinished future, and the assertion that a fair notified waiter gets the lock never fails |
| Mutexes.MutexState.RemoveWaiter | src/sync/mutex.rs:240-271 | giving up equals that of the state machine; a notified future passes its notification on |
| Mutexes.Lock | src/sync/mutex.rs:452-457 | a new future is attached and has not asked for the lock yet |
| Mutexes.TryLockNow | src/sync/mutex.rs:465-471 | locking at once yields a guard of the locked mutex, or nothing and no change |
| Mutexes.LockFuture.Poll | src/sync/mutex.rs:350-373 | a ready poll detaches the future and yields a guard of a locked mutex |
| Mutexes.LockFuture.Drop | src/sync/mutex.rs:387-401 | dropping an unfinished future gives up and wakes the next in line |
| Mutexes.Guard.Drop | src/sync/mutex.rs:291-297 | dropping a guard unlocks and wakes the next in line |
| MutexRuns.TryLockKeepsInv | src/sync/mutex.rs:137-217 | every poll keeps the invariant of both modes: while the mutex is free and somebody queues, some future is notified, and on a fair mutex it is the oldest and only while unlocked; a poll is ready only on an unlocked mutex |
| MutexModel.FairOldestKnows | src/sync/mutex.rs:73-113 | on a fair mutex the oldest waiter is notified exactly while the mutex is unlocked |
| MutexRuns.RemoveWaiterKeepsInv | src/sync/mutex.rs:240-271 | cancelling at any point keeps the invariant and leaves the future unqueued |
| MutexModel.UnlockKeepsInv | src/sync/mutex.rs:103-113 | unlocking keeps the invariant |
| MutexRuns.StepKeepsWorldInv | src/sync/mutex.rs:103-297 | mutual exclusion: there is one live guard while the mutex is locked and none while it is not, whatever happens next |
| MutexRuns.Exec | src/sync/mutex.rs:103-297 | the same in every run, with barging and cancelling at any point |
| MutexRuns.NobodyIsReleasedSilently | src/sync/mutex.rs:73-113 | in both modes, whatever happens next, a waiting future either goes on waiting undisturbed, or is notified and its current waker is called at that moment |
| MutexFairness.FairRunGrantsInOrder | src/sync/mutex.rs:118-217 | in every run of a fair mutex, the lock is granted in the order of arrival, with those who gave up struck out |
| MpmcChannels.ChannelState.Close | src/channel/mpmc.rs:102-114 | closes, empties both queues and wakes everybody, on the linked lists as in the state machine, and reports a new closing if and only if the channel was open |
| MpmcChannels.WakeRecvWaiters | src/channel/mpmc.rs:23-37 | every queued receiver is unregistered, unlinked and woken, the oldest first |
| MpmcChannels.WakeSendWaiters | src/channel/mpmc.rs:39-50 | every queued sender is unregistered, unlinked and woken, the oldest first, and keeps its value |
| MpmcChannels.ChannelState.ReturnOldestReceiver | src/channel/mpmc.rs:54-65 | the oldest receiver, the one at the end of the queue, leaves it and is notified, and exactly its waker is handed out |
| MpmcChannels.ChannelState.TrySend | src/channel/mpmc.rs:118-134 | buffers the value and notifies the oldest receiver, or hands the value back with the reason |
| MpmcChannels.ChannelState.SendOrRegister | src/channel/mpmc.rs:144-195 | one poll of a send future equals that of the state machine; the buffer is never pushed beyond its capacity |
| MpmcChannels.ChannelState.TryCopyValueFromOldestWaiter | src/channel/mpmc.rs:200-216 | completes the oldest queued send by moving its value into the buffer |
| MpmcChannels.ChannelState.TryTakeValueFromSender | src/channel/mpmc.rs:220-241 | takes the value out of the oldest queued send; the assertion that this happens without a buffer only never fails |
| MpmcChannels.ChannelState.TryReceive | src/channel/mpmc.rs:244-260 | receives the oldest value and refills the buffer from the queue, or reports an empty or closed channel |
| MpmcChannels.ChannelState.ReceiveOrRegister | src/channel/mpmc.rs:267-297 | one poll of a receive future equals that of the state machine |
| MpmcChannels.ChannelState.RemoveSendWaiter | src/channel/mpmc.rs:299-322 | a send that is given up leaves the queue with its value |
| MpmcChannels.ChannelState.RemoveReceiveWaiter | src/channel/mpmc.rs:325-350 | a receiver that gives up leaves the queue, or passes its notification on |
| MpmcChannels.ChannelState.Clear | src/channel/mpmc.rs:96-100 | drops all buffered values; at a closed channel, where its only caller uses it, the invariant is kept |
| MpmcChannels.TrySendNow | src/channel/mpmc.rs:443-454 | sending at once also wakes the notified receiver |
| MpmcChannels.TryReceiveNow | src/channel/mpmc.rs:467-479 | receiving at once also wakes the completed sender; an empty and a closed channel are told apart |
| MpmcChannels.SendFuture.Poll | src/channel/channel_future.rs:263-297 | ready without a value once it was sent, ready with the value if the channel is closed; then the future is detached |
| MpmcChannels.SendFuture.Cancel | src/channel/channel_future.rs:248-257 | cancelling hands back exactly the value that was not sent, and nothing otherwise |
| MpmcChannels.SendFuture.Drop | src/channel/channel_future.rs:307-314 | dropping an unfinished send takes it out of the queue |
| MpmcChannels.ReceiveFuture.Poll | src/channel/channel_future.rs:172-195 | ready with a value, or with nothing on a closed and drained channel; then the future is detached |
| MpmcChannels.ReceiveFuture.Drop | src/channel/channel_future.rs:205-212 | dropping an unfinished receive gives its place or its notification up |
| MpmcInvariants.ReturnOldestReceiverKeeps | src/channel/mpmc.rs:54-65 | one value more is accounted for by notifying one receiver more |
| MpmcInvariants.TrySendKeepsInv | src/channel/mpmc.rs:118-134 | sending at once keeps the invariant: while a receiver queues, at least as many receive futures are notified as there are values; senders queue only at a full open channel |
| MpmcInvariants.SendOrRegisterKeepsInv | src/channel/mpmc.rs:144-195 | polling a send keeps the invariant and never panics; it is ready exactly when the future is not queued, and a finished future has no value left |
| MpmcInvariants.ReceiveOrRegisterKeepsInv | src/channel/mpmc.rs:267-297 | polling a receive, also by a receiver that barges in, keeps the invariant and never panics |
| MpmcInvariants.TryReceiveKeepsInv | src/channel/mpmc.rs:244-260 | receiving at once keeps the invariant |
| MpmcInvariants.RemoveReceiveWaiterKeepsInv | src/channel/mpmc.rs:325-350 | giving a receive up keeps the invariant, whether it was queued or notified |
| MpmcInvariants.RemoveSendWaiterKeepsInv | src/channel/mpmc.rs:299-322 | giving a send up keeps the invariant and the value |
| MpmcInvariants.CloseKeepsInv | src/channel/mpmc.rs:102-114 | closing keeps the invariant: nobody queues at a closed channel |
| MpmcInvariants.TryReceiveEffect | src/channel/mpmc.rs:244-260 | what is received is the head of one queue made of the buffer and then the queued senders, whose oldest moves up; nothing is received exactly if both are empty |
| MpmcInvariants.ReceiveEffect | src/channel/mpmc.rs:267-297 | the same for polling a receive future, which otherwise changes neither the values nor their order |
| MpmcInvariants.SendEffect | src/channel/mpmc.rs:144-195 | a first poll appends the value to that queue, in the buffer or among the senders, or hands it back on a closed channel; later polls leave the queue alone |
| MpmcRuns.StepKeepsWorldInv | src/channel/mpmc.rs:833-879 | whatever happens next, the channel is closed once the last sender or the last receiver handle is gone, stays closed, and its buffer stays empty after the last receiver has cleared it |
| MpmcRuns.Exec | src/channel/mpmc.rs:102-350 | in every run, with any interleaving and any cancellations, the invariant holds: no lost wake-up and no push beyond capacity |
| MpmcFifo.RunKeepsFifo | src/channel/mpmc.rs:118-322 | in every run, each submitted value is in exactly one place (send future, buffer, received, handed back, dropped), values are not mixed up, and the accepted ones that were not taken back are received in the order of acceptance |
| MpmcFifo.DeliverKeepsOrder | src/channel/mpmc.rs:200-260 | receiving takes the head of the queue |
| MpmcFifo.PollSendKeepsOrder | src/channel/mpmc.rs:144-195 | accepting a value appends it to the queue, or leaves the queue alone |
| MpmcFifo.RemoveSenderKeepsOrder | src/channel/channel_future.rs:248-314 | cancelling or dropping a send deletes exactly its value from the queue |
| MpmcFifo.CloseKeepsOrder | src/channel/mpmc.rs:102-114 | closing deletes exactly the values of queued senders from the queue; buffered ones stay |
| MpmcFifo.ClearKeepsPlaces | src/channel/mpmc.rs:866-879 | the values that the last receiver leaves behind are dropped, each once |
| MpmcWakeups.NoReceiverIsReleasedSilently | src/channel/mpmc.rs:23-65 | whatever happens next, a queued receiver either goes on waiting undisturbed, or leaves the queue and its current waker is called at that moment; so being notified means having been woken |
| MpmcWakeups.NoSenderIsReleasedSilently | src/channel/mpmc.rs:39-241 | the same for queued senders, whose sends are completed by receivers or fail because of closing |
| MpmcWaiting.PollReceivesWhatIsThere | src/channel/mpmc.rs:267-297 | a poll of a receive future yields a value exactly if the channel holds one, except when the future is queued and there is one |
| MpmcWaiting.StepOffers | src/channel/mpmc.rs:118-195 | exactly when the comment at src/channel/mpmc.rs:289-291 stops being true: a step from a state in which queued receivers have nothing to receive leads to another such state if and only if it does not hand a value to an open channel at which two or more receivers queue |
| MpmcWaiting.NothingToReceiveThroughout | src/channel/mpmc.rs:288-295 | the run form, both ways: the comment is true at every point of a run if and only if no step of the run makes such an offer |
| MpmcWaiting.QueuedReceiverDespiteValue | src/channel/mpmc.rs:288-295 | such runs exist: a value is buffered, and a queued receiver that is polled goes on waiting |
| MpmcWakeups.CloseWakesEverybody | src/channel/mpmc.rs:23-50 | closing wakes every waiter exactly once: all receivers, then all senders, the oldest of each first |
| MpmcClosing.ClosedReceiveResolves | src/channel/mpmc.rs:244-297 | receiving from a closed channel never waits: the oldest buffered value, or nothing once it is drained |
| MpmcClosing.ClosedSendResolves | src/channel/mpmc.rs:144-195 | sending to a closed channel never waits: an unsent value comes back, a completed send stays completed |
| MpmcClosing.ClosedChannelDrains | src/channel/mpmc.rs:102-114 | after closing, in every continuation, both queues stay empty and the receivers get what was buffered, in order |
| StateBroadcasts.ChannelState.Send | src/channel/state_broadcast.rs:209-221 | publishes under the next id and wakes all waiters, or hands the value back when closed or out of ids |
| StateBroadcasts.ChannelState.Close | src/channel/state_broadcast.rs:223-233 | closes once and wakes all waiters |
| StateBroadcasts.ChannelState.TryReceive | src/channel/state_broadcast.rs:235-242 | the current value with its id exactly if it is newer than the state asked for |
| StateBroadcasts.ChannelState.ReceiveOrRegister | src/channel/state_broadcast.rs:249-295 | one poll on the linked list equals that of the state machine |
| StateBroadcasts.ChannelState.RemoveWaiter | src/channel/state_broadcast.rs:297-310 | giving up leaves the queue |
| StateBroadcasts.WakeWaiters | src/channel/state_broadcast.rs:169-180 | every waiter is unregistered, unlinked and woken, the oldest first |
| StateBroadcasts.Receive | src/channel/state_broadcast.rs:384-393 | a new future waits for states newer than the given id |
| StateBroadcasts.ReceiveFuture.Poll | src/channel/state_broadcast.rs:121-147 | a ready poll detaches the future |
| StateBroadcasts.ReceiveFuture.Drop | src/channel/state_broadcast.rs:159-166 | dropping an unfinished future gives up |
| StateBroadcastModel.PollTells | src/channel/state_broadcast.rs:249-295 | queued or not, a poll gives the current value if it is newer than what the future asks for, else the news of closing, else it waits: nobody sleeps through a value |
| StateBroadcastModel.ReceiveOrRegisterKeepsInv | src/channel/state_broadcast.rs:249-295 | polling keeps the invariant: whoever queues knows the current value, and the channel is open |
| StateBroadcastModel.WakeWaitersKeepsInv | src/channel/state_broadcast.rs:169-180 | after everybody was woken, nobody queues with an outdated id |
| StateBroadcastModel.CallsAreOldestFirst | src/channel/state_broadcast.rs:169-180 | waking calls every waiter exactly once, the oldest first |
| StateBroadcastModel.StepKeepsWorldInv | src/channel/state_broadcast.rs:183-310 | whatever happens next, the id counts the accepted values, a value is present exactly if one was accepted and is the last one, and nothing is accepted after closing |
| StateBroadcastModel.NobodyIsReleasedSilently | src/channel/state_broadcast.rs:169-180 | whatever happens next, a waiting receiver either goes on waiting undisturbed, or may try again and its current waker is called at that moment |
| StateBroadcastModel.ReceiversSeeProgress | src/channel/state_broadcast.rs:209-310 | in every run, whatever is delivered under id k is the k-th accepted value, a receiver that feeds ids back sees them strictly increase, and ids never exceed 64 bits |
| Timers.TimerState.TryWait | src/timer/inner.rs:94-124 | one poll on the pairing heap equals that of the state machine: ready at once if the clock has reached the expiry, else registered |
| Timers.TimerState.RemoveWaiter | src/timer/inner.rs:126-135 | giving up takes the timer out of the heap, wherever it is in it |
| Timers.TimerState.NextExpiration | src/timer/inner.rs:141-144 | the least expiry of the timers in the heap, or nothing if there are none |
| Timers.TimerState.CheckExpirations | src/timer/inner.rs:147-169 | the loop terminates; it wakes, marks and removes exactly the registered timers with expiry no later than now, each once, in non-decreasing order of expiry |
| Timers.Deadline | src/timer/inner.rs:304-309 | a new future waits for the given timestamp |
| Timers.Delay | src/timer/inner.rs:297-300 | a delay is a deadline counted from the clock reading |
| Timers.TimerFuture.Poll | src/timer/inner.rs:366-387 | a ready poll detaches the future |
| Timers.TimerFuture.Drop | src/timer/inner.rs:397-404 | dropping an unfinished future takes it out of the heap |
| TimerModel.DeadlineFromNow | src/timer/inner.rs:287-292 | now plus the duration, or the last 64-bit timestamp if that overflows, although the duration is cut down before the sum is |
| TimerModel.ExpireMeans | src/timer/inner.rs:147-169 | expiring a list of timers removes and marks exactly these and leaves all others alone |
| TimerModel.ExpireNext | src/timer/inner.rs:148-167 | one round of the loop: removing a least timer that is due keeps the order of expiry |
| TimerModel.ExpiredAll | src/timer/inner.rs:148-167 | when a least timer is not due, none that is due is left |
| TimerModel.NextExpirationIsLater | src/timer/inner.rs:141-169 | after a check, the next expiration is later than now, or there is none exactly if all timers were due |
| TimerModel.CallsAreInOrder | src/timer/inner.rs:147-169 | each expiring timer's task is called exactly once, in the order of expiry |
| TimerModel.TryWaitKeepsInv | src/timer/inner.rs:94-124 | a timer is in the heap exactly while it is registered, whatever is polled |
| TimerModel.StepKeepsWorldInv | src/timer/inner.rs:94-169 | whatever happens next: expired timers really are due, registered ones were not due at the latest check, and no future resolves before the clock was seen to reach its deadline |
| TimerModel.NobodyExpiresSilently | src/timer/inner.rs:147-169 | whatever happens next, a registered timer either goes on waiting undisturbed, or expires and its current waker is called at that moment |
| TimerOverdue.PollResolvesWhenDue | src/timer/inner.rs:94-124 | whatever the clock says at a poll of a live future, the poll resolves it exactly if it is due, except when the future is registered and due |
| TimerOverdue.StepOvertakes | src/timer/inner.rs:94-169 | a step from a state in which no registered timer is past its deadline leads to another such state if and only if it is not a poll or the creation of a delay that takes place at or past the deadline of a registered timer |
| TimerOverdue.NobodyOverdueThroughout | src/timer/inner.rs:94-169 | the run form, both ways: at no point of a run is a registered timer past its deadline if and only if no poll and no creation of a delay takes place at or past the deadline of a registered timer |
| TimerOverdue.PollsTellTheTruth | src/timer/inner.rs:114-121 | for every run, both ways: each poll resolves its future exactly if it is due if and only if no poll finds its own future registered and due, that is, if and only if the comment at src/timer/inner.rs:115-116 is true at every poll of the run; a run as in the row above is of that kind |
| TimerOverdue.CheckLeavesNobodyOverdue | src/timer/inner.rs:147-169 | from any state, overdue timers or not, a check leaves no registered timer overdue |
| TimerOverdue.OverdueTimerNeedsACheck | src/timer/inner.rs:114-121 | such runs exist: a registered timer is overdue, and polling it does not resolve it, whatever the clock says |
| TimerOverdue.DueFutureResolves | src/timer/inner.rs:94-124 | in every run, a future that is due and not registered resolves when it is polled |
| TimerOverdue.DueAtCheckIsNotRegistered | src/timer/inner.rs:147-169 | in every run, a future that was due at the latest check is not registered any more |
| TimerModel.DelayIsNeverEarly | src/timer/inner.rs:287-309 | in every run, a delay resolves only after the clock was seen at its start plus its duration, or at the last timestamp if that overflows |
| SemaphorePolling.UnfairPollIsReadyIfItFits | src/sync/semaphore.rs:156-245 | barging: on an unfair semaphore, the poll of any unfinished future is ready if and only if its request fits into the permits, no matter who waits |
| SemaphorePolling.FairPollWaitsForItsTurn | src/sync/semaphore.rs:156-245 | on a fair semaphore, a first poll is ready if and only if the request fits and nobody waits or it is for nothing, and a later one if and only if the future has been notified |
| SemaphorePolling.TryAcquireNowIsServedIfItFits | src/sync/semaphore.rs:134-149 | acquiring at once follows the rule for newcomers in both modes: a releaser for exactly the request, or no change at all |
| SemaphorePolling.ReadyPollHandsOutItsRequest | src/sync/semaphore.rs:369-399 | exactly the ready polls add a releaser, for the request of the polled future |
| SemaphorePolling.RequestStands | src/sync/semaphore.rs:482-491 | in every run, a future asks for the number of permits it was created with, for as long as it lives |
| SemaphorePolling.DisarmedReleaserReturnsNothing | src/sync/semaphore.rs:320-333 | disarming a releaser and then dropping it leaves permits, queue and wake-up calls as they were |
| SemaphorePolling.PendingPollRemembersTheTask | src/sync/semaphore.rs:156-245 | a pending poll, whatever the future's state was, leaves it queued once with the waker of that poll, and changes nothing else |
| SemaphorePolling.WaiterRemembersLatestPoll | src/sync/semaphore.rs:176-200 | in every run, a waiting future has stored the waker of its latest poll |
| SemaphorePolling.LatestTaskIsCalled | src/sync/semaphore.rs:69-113 | in every run and whatever happens next, a waiting future goes on waiting undisturbed, or is notified and the task that polled it last is called at that moment |
| SemaphoreCalls.NobodyIsCalledForNothing | src/sync/semaphore.rs:69-113 | whatever happens, every task that is called is the stored one of a waiter that is notified at that moment |
| SemaphoreOrder.QueueIsInOrder | src/sync/semaphore.rs:156-290 | in every run, the queue lists the waiters in the order in which they joined it |
| SemaphoreOrder.NotifiedInOrder | src/sync/semaphore.rs:69-113 | in every run of either mode, no waiter is notified while one that joined the queue earlier still waits |
| MutexPolling.UnfairPollIsReadyIfFree | src/sync/mutex.rs:137-217 | barging: on an unfair mutex, the poll of any unfinished future is ready if and only if the mutex is not locked |
| MutexPolling.FairPollWaitsForItsTurn | src/sync/mutex.rs:137-217 | on a fair mutex, a first poll is ready if and only if the mutex is free and nobody waits, and a later one if and only if the future has been notified |
| MutexPolling.TryLockNowSucceedsIfFree | src/sync/mutex.rs:118-129 | locking at once follows the rule for newcomers in both modes: one more guard of the locked mutex, or no change at all |
| MutexPolling.UnlockNotifiesOldest | src/sync/mutex.rs:73-113 | unlocking notifies the oldest waiter and nobody else, calls its task and no other, and takes it off an unfair queue; an unlocked mutex is left alone |
| MutexPolling.DropNotifiesOldest | src/sync/mutex.rs:240-271 | a notified future that gives up does the same with the oldest of the others; a future that was not notified only leaves the queue and calls nobody |
| MutexPolling.OnlyTheNotifiedIsCalled | src/sync/mutex.rs:73-92 | a step calls nobody, or exactly one waiter, which is notified in that step |
| MutexPolling.PendingPollRemembersTheTask | src/sync/mutex.rs:137-217 | a pending poll, whatever the future's state was, leaves it queued once with the waker of that poll, and changes nothing else |
| MutexPolling.WaiterRemembersLatestPoll | src/sync/mutex.rs:137-217 | in every run, a waiting future has stored the waker of its latest poll |
| MutexPolling.LatestTaskIsCalled | src/sync/mutex.rs:73-113 | in every run and whatever happens next, a waiting future goes on waiting undisturbed, or is notified and the task that polled it last is called at that moment |
| MutexOrder.QueueIsInOrder | src/sync/mutex.rs:137-271 | in every run, the queue lists the waiters in the order in which they joined it |
| MutexOrder.NotifiedInOrder | src/sync/mutex.rs:73-113 | in every run of either mode, no waiter is notified while one that joined the queue earlier still waits |
| MpmcPolling.TrySendNotifiesOldest | src/channel/mpmc.rs:54-134 | sending at once notifies the oldest receiver and nobody else, takes it off the queue and hands out its waker; a refused value changes nothing |
| MpmcPolling.PollSendNotifiesOldest | src/channel/mpmc.rs:144-195 | the first poll of a send at an open channel does the same, whether the value is buffered or its sender queues; every other poll leaves the receivers alone |
| MpmcPolling.DropReceiveNotifiesOldest | src/channel/mpmc.rs:325-350 | a notified receiver that gives up passes its notification to the oldest one in the queue; a receiver that was not notified only leaves the queue and hands out no waker |
| MpmcPolling.ReceivingCallsCompletedSender | src/channel/mpmc.rs:200-260 | receiving completes the oldest queued send and hands out exactly that sender's waker |
| MpmcPolling.PendingReceiveRemembersTheTask | src/channel/mpmc.rs:267-297 | a pending poll of a receiver, whatever its state was, leaves it queued once with the waker of that poll, and changes nothing else |
| MpmcTasks.ReceiverRemembersLatestPoll | src/channel/mpmc.rs:267-297 | in every run, a queued receiver has stored the waker of its latest poll |
| MpmcTasks.LatestReceiverTaskIsCalled | src/channel/mpmc.rs:23-65 | in every run and whatever happens next, a queued receiver goes on waiting undisturbed, or is released and the task that polled it last is called at that moment |
| MpmcTasks.SenderRemembersLatestPoll | src/channel/mpmc.rs:144-195 | in every run, a queued sender has stored the waker of its latest poll |
| MpmcTasks.LatestSenderTaskIsCalled | src/channel/mpmc.rs:39-50 | the same as for receivers: whoever completes the send, or closes the channel, calls the task that polled the send last |
| MpmcOrder.QueueIsInOrder | src/channel/mpmc.rs:267-350 | in every run, the queue lists the receivers in the order in which they joined it |
| MpmcOrder.NotifiedInOrder | src/channel/mpmc.rs:54-65 | in every run, no receiver is notified while one that joined the queue earlier still queues |
| MpmcHandles.ClosedOnlyByClosing | src/channel/mpmc.rs:816-879 | in every run, the channel is closed if and only if some operation was a call that closes, or the drop of the last handle of one side, where handles are counted by clones and drops alone |
| MpmcHandles.FirstCloseReports | src/channel/mpmc.rs:102-114 | in every run, closing reports that it has newly closed the channel if and only if no earlier operation has closed it |
| MpmcFifo.OnlyUnsentValuesComeBack | src/channel/channel_future.rs:248-314 | a value is handed back exactly by cancelling its unsent future and by a refusal, and dropped exactly with its unsent future or by the last receiver |
| StateBroadcastPolling.OpenChannelAccepts | src/channel/state_broadcast.rs:209-221 | a value is accepted if and only if the channel is open and has an id left; then the id grows by one and everybody in the queue may try again, otherwise the value comes back and nothing changes |
| StateBroadcastPolling.FirstCloseReports | src/channel/state_broadcast.rs:223-233 | in every run, the channel is closed if and only if somebody has closed it, and exactly the first call reports that it did |
| StateBroadcastPolling.PendingPollRemembersTheTask | src/channel/state_broadcast.rs:249-295 | a pending poll, whatever the future's state was, leaves it queued once with the waker of that poll, and changes nothing else |
| StateBroadcastPolling.WaiterRemembersLatestPoll | src/channel/state_broadcast.rs:249-295 | in every run, a queued future has stored the waker of its latest poll |
| StateBroadcastPolling.AskedIdStands | src/channel/state_broadcast.rs:384-393 | a future asks for states newer than the id it was created with, until it is finished |
| StateBroadcastPolling.TryReceiveGivesNewer | src/channel/state_broadcast.rs:235-242 | receiving without waiting gives the current value with its id if and only if that is newer than what the receiver asks for |
| StateBroadcastPolling.PollGivesNewer | src/channel/state_broadcast.rs:121-147 | a poll does the same, and finishes the future with a value or with the news of closing |
| StateBroadcastPolling.QueueIsInOrder | src/channel/state_broadcast.rs:249-310 | in every run, the queue lists the waiters in the order in which they joined it |
| StateBroadcastPolling.EverybodyIsCalledInOrder | src/channel/state_broadcast.rs:169-233 | in every run, an accepted value, or the first closing, calls everybody in the queue exactly once, in the order in which they joined it, each by the task that polled it last; nothing else calls anybody |
| TimerPolling.PendingPollRemembersTheTask | src/timer/inner.rs:94-124 | a pending poll, whatever the future's state was, leaves it in the heap with its own deadline and the waker of that poll, and changes nothing else |
| TimerPolling.WaiterRemembersLatestPoll | src/timer/inner.rs:94-124 | in every run, a registered timer has stored the waker of its latest poll |
| TimerPolling.DueTimersAreCalledInOrder | src/timer/inner.rs:147-169 | in every run, a check calls exactly the timers that are due, each once, in the order of their deadlines and by the task that polled it last; no other operation calls anybody |
| TimerPolling.DeadlineStands | src/timer/inner.rs:304-309 | in every run, a future waits for the deadline it was created with, for as long as it lives |
| TimerPolling.DelayStands | src/timer/inner.rs:287-300 | the same for a delay, whose deadline is its start plus its duration, or the last timestamp if that overflows |
| TimerPolling.DelayIsNotLate | src/timer/inner.rs:94-169 | in every run, a delay that is polled when its duration is over resolves unless it is registered, and then any check at that time takes it out of the heap and calls the task that polled it last |
| SemaphoreSessions.Session.TryAcquire | src/sync/semaphore.rs:500-512 | in any program, acquiring at once yields a releaser if and only if the request fits and, on a fair semaphore, nobody waits or it is for nothing |
| SemaphoreSessions.Session.WaiterRemembersLatestPoll | src/sync/semaphore.rs:176-200 | after any sequence of calls, the node of a waiting future holds the waker of its latest poll |
| SemaphoreSessions.Session.Poll | src/sync/semaphore.rs:369-399 | in any program, polling a future moves the heap and the run on together; a ready poll adds its releaser to those that the users hold |
| SemaphoreSessions.Session.DropReleaser | src/sync/semaphore.rs:328-333 | in any program, dropping a releaser moves both on together; the other releasers keep their permits |
| SemaphoreSessions.Session.PermitsAreConserved | src/sync/semaphore.rs:120-334 | after any sequence of calls, the permits in the semaphore, in the live releasers and in disarmed ones add up to the initial and the added ones |
| MutexSessions.Session.TryLock | src/sync/mutex.rs:465-471 | in any program, locking at once yields a guard if and only if the mutex is free and, when fair, nobody waits |
| MutexSessions.Session.WaiterRemembersLatestPoll | src/sync/mutex.rs:137-217 | after any sequence of calls, the node of a waiting future holds the waker of its latest poll |
| MutexSessions.Session.Poll | src/sync/mutex.rs:350-373 | in any program, polling moves the heap and the run on together; a ready poll adds its guard to those that the users hold |
| MutexSessions.Session.OneGuard | src/sync/mutex.rs:291-297 | mutual exclusion of the objects: after any sequence of calls the users hold one guard while the mutex is locked, and none otherwise |
| MpmcSessions.Session.Close | src/channel/mpmc.rs:496-498 | in any program, closing reports that it has newly closed the channel if and only if nothing has closed it before |
| MpmcSessions.Session.ClosedOnlyByClosing | src/channel/mpmc.rs:816-879 | after any sequence of calls, the channel is closed if and only if a call has closed it or the last handle of one side is gone |
| MpmcSessions.Session.TrySend | src/channel/mpmc.rs:443-454 | in any program, sending at once fails exactly on a closed channel or on a full one, with that reason and the value; the value joins the accepted ones otherwise |
| MpmcSessions.Session.WaitersRememberLatestPoll | src/channel/mpmc.rs:144-297 | after any sequence of calls, the nodes of queued receivers and senders hold the wakers of their latest polls |
| MpmcSessions.Session.PollSend | src/channel/channel_future.rs:263-297 | in any program, polling a send moves the heap and the run on together; a value that comes back is recorded as handed back |
| MpmcSessions.Session.CancelSend | src/channel/channel_future.rs:248-258 | in any program, cancelling hands back exactly the submitted value, or nothing if it has been sent |
| MpmcSessions.Session.PollReceive | src/channel/channel_future.rs:172-195 | in any program, polling a receiver moves the heap and the run on together; exactly the value that it yields joins the delivered ones |
| MpmcSessions.Session.TryReceive | src/channel/mpmc.rs:467-479 | the same for receiving without waiting |
| MpmcSessions.Session.DropReceiver | src/channel/mpmc.rs:866-879 | the last receiver handle closes the channel, whose buffer is then to be cleared |
| MpmcSessions.Session.ChannelIsFifo | src/channel/mpmc.rs:118-322 | after any sequence of calls, the delivered values, then the ring buffer, then the linked list of senders hold what was accepted and not taken back, in the order of acceptance |
| StateBroadcastSessions.Session.Close | src/channel/state_broadcast.rs:223-233 | in any program, exactly the first call reports that it has closed the channel |
| StateBroadcastSessions.Session.WaiterRemembersLatestPoll | src/channel/state_broadcast.rs:249-295 | after any sequence of calls, the node of a queued future holds the waker of its latest poll |
| StateBroadcastSessions.Session.Poll | src/channel/state_broadcast.rs:121-147 | in any program, polling moves the heap and the run on together, and delivers the accepted value that has the delivered id |
| StateBroadcastSessions.Session.HoldsTheLatest | src/channel/state_broadcast.rs:209-221 | after any sequence of calls, the channel holds the last accepted value, and its id is the number of accepted values |
| TimerSessions.Session.WaiterRemembersLatestPoll | src/timer/inner.rs:94-124 | after any sequence of calls, the node of a registered timer holds the waker of its latest poll |
| TimerSessions.Session.Poll | src/timer/inner.rs:366-387 | in any program, polling moves the heap and the run on together; a future that resolves has been seen to be due |
| TimerSessions.Session.CheckExpirations | src/timer/inner.rs:147-169 | in any program, a check moves the heap and the run on together, in an order of expiry that the run allows |

## Left out

- Wakers, contexts, pinning, `unsafe`, `Send` and `Sync`: a waker is an id, and a future's node is an object that does not move.
- The lock around each primitive, and the atomic counters of channel handles: an operation under the lock, or on a counter, is one step. Dropping the last receiver handle is two steps, closing and then clearing, since the original takes the lock twice.
- `auto_release` of the acquire future (src/sync/semaphore.rs:338-346), which is always set where a future is created, and the value that a mutex protects.
- `usize` overflow of the permits in `release` (marked as open at src/sync/semaphore.rs:124) and of reference counts: numbers are unbounded there. State ids and timestamps are bounded at 64 bits as in the original.
- A comparison that panics while the heap is inconsistent (src/intrusive_pairing_heap.rs:29-41): keys are compared as integers, and a node's key never changes.
- The amortised cost of the pairing heap, and which of several trees ends up on top when keys are equal after more than one meld.
- `FixedHeapBuf` and `GrowingHeapBuf`, wrappers of a standard queue: easy instances of the same contract.
- Oneshot and oneshot broadcast channels and the manual reset event: they drain their waiters as the state broadcast channel does and would add only easy members.
- Streams, the owned ("shared") variants of futures and channels, and the handle counting of the shared state broadcast channel: the same behaviour over reference-counted pointers.
- Creating and dropping channel handles on the heap: handles are counted in `MpmcRuns` and `MpmcSessions`, and have no class of their own.
- Progress of an executor: the results say who has been woken, not that a woken task is polled in the end.
