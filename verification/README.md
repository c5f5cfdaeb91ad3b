# UringFiber: a verified model

UringFiber is an N:M coroutine library on Linux io_uring. Its core is a stack of small concurrent protocols. This
project models them and proves what they promise, over every run, for any number of threads and tasks.

A protocol is a transition system: one step is one atomic operation of one thread (or one action of a processer), and
memory is sequentially consistent. A *run* is a sequence of states in which each follows from the one before by one
step of anybody. Code that runs under a lock, or while nothing else runs, is a class whose methods are proved against
functions on values.

| files | what they model |
|---|---|
| `QueueModel` | `LFQueue` as a transition system: every atomic load, store and CAS of `push` and `pop` is a step |
| `QueueInvariant`, `QueueFrames`, `QueueEffects`, `QueueReleases`, `QueueSteps` | the inductive invariant of the queue and the proof that every step keeps it |
| `QueueRefinement` | the queue refines an atomic FIFO queue, in every configuration up to the faults of that configuration |
| `QueueLedger` | the values of a whole run: what is appended, removed, returned, lost or missed |
| `QueueLimits` | two runs that go wrong as written, and that two choices in the code are exactly what matters |
| `QueueTheorems`, `QueueProgress` | memory safety, reference accounts, counters, progress |
| `QueueReach` | which pointers may dangle |
| `PackedWord` | the macros that pack a pointer and a count into 64 bits, and the queue's words encoded with them |
| `CoMutex` | the coroutine mutex |
| `OwnershipModel` | symmetric scheduling, deferred to-dos, and where each task is |
| `OwnershipInvariant`, `OwnershipTurns`, `OwnershipSteps`, `OwnershipTheorems` | the invariant of task ownership, that every step keeps it, as written or repaired, and what it means |
| `OwnershipAsWritten` | exactly which tasks are lost as written |
| `OwnershipJourneys` | where each task goes, and what becomes of finished ones |
| `OwnershipSchedule` | whom a processer runs next; the order in containers and channels |
| `Handshake` | the sleep/wake handshake of the processer and of the I/O submit thread |
| `HandshakeQueue` | when the lock-free queue's pop answers "empty", in the handshake's terms |
| `Channel` | the channel: values, every sequence of operations, and the class |
| `ChannelAnswers` | what every call on a channel answers, and what it should answer |
| `Processers` | the runnable queue of a processer, for the channel and the load balancer |
| `LoadBalance` | the load balancer: its moves, the schedule of its loops, and the method |
| `Options`, `Fifo` | values that may be missing, and queues that move on, shared by the others |
| `IoRing` | submission, linked timeouts, completions and the wake-up of a hooked call |

The mutex, the channel and the ownership model use the lock-free queue as an atomic FIFO queue, which
`QueueRefinement.RunRefines` justifies for the two repairs below. The handshakes do not need line 184 repaired: their
pops may miss items whenever the queue's pop can (`HandshakeQueue.PeekMisses`, `HandshakeQueue.CheckMisses`), which is
never an item pushed before the pop began, and no wakeup is lost with either order of the loads.

## Where the code departs from its intent

Both forms are modelled where a property depends on the difference; the results marked "as written" need no repair.

- `thread_safe/lockfree_queue.hpp:202` clears the data (`Config.keepData == false`). A stalled pusher can then store
  its value in a node that has been popped already, and the value is lost: `QueueLimits.KeepDataIsExact`.
- `thread_safe/lockfree_queue.hpp:184` leaves it open which of `head` and `tail` is loaded first. With `tail` first
  (`Config.headFirst == false`) a pop can answer "empty" although the queue never is: `QueueLimits.HeadFirstIsExact`.
- `sync/co_mutex.hpp:34` tests the word just stored, which is always locked, instead of the word it replaced:
  `CoMutex.RepairIsExact`, `CoMutex.AsWrittenExclusion`. `sync/co_mutex.hpp:64-69` returns nothing when the mutex is
  locked; the model returns false.
- `sync/co_chan.hpp:67-90` and `99-131` suspend while holding the channel's mutex. The model releases it in a to-do
  after the switch. Lines 92 and 133 construct an exception without throwing it:
  `ChannelAnswers.AnswersAreIntended`, `ChannelAnswers.ClosingMustThrow`.
- `processer/processer.cpp:44` sets a task's status to "block" and nothing sets it back; repaired, loading the task
  does (`State.restores`). As written a task can be lost, and `OwnershipAsWritten.LostExactly` says which. Lines
  126-127 read the status through a released pointer, and lines 154-155 leave `runningTask_` empty; the model uses
  `cur_task` and restores `runningTask_`.
- `io_uring/io_uring_engine.cpp:105-126` reports both completions of a linked pair whose timeout expired, and line 108
  stores a positive error number: `IoRing.OneWakeNeedsRepair`, `IoRing.AnswersNeedRepair`,
  `IoRing.FirstAnswerAsWritten`.
- `thread_safe/lockfree_queue.hpp:35-43` does not initialise `data`, which C++17 leaves indeterminate; the model starts
  it as null.
- `std::make_unique<Task>(ptr)` is taken as taking ownership of `ptr` everywhere.

## Model

| member | source | states |
|---|---|---|
| QueueSteps.StepInv | thread_safe/lockfree_queue.hpp:45-212 | every atomic operation of any thread, as written or repaired, keeps the chain, reference-account, data and counter invariants, and loses nothing that another thread relies on |
| QueueSteps.RunInv | thread_safe/lockfree_queue.hpp:120-212 | every state of every run of fewer than 65535 threads satisfies the invariant |
| QueueRefinement.StepRefines | thread_safe/lockfree_queue.hpp:138-212 | in every configuration each step is the step of an atomic FIFO queue that `Meaning` names: a `tail` CAS appends, possibly another thread's value; a `head` CAS removes the front; "empty" is answered while the queue is empty, or, only with `tail` loaded first at line 184, over a value; a push is lost only if line 202 clears the data; everything else stutters |
| QueueRefinement.RunRefines | thread_safe/lockfree_queue.hpp:138-212 | linearizability: every interleaving, in every configuration, is a run of an atomic FIFO queue whose contents are the data from `head` up to but excluding `tail`, and whose faults are those of the configuration: none if both lines are repaired |
| QueueLimits.SomePushLost | thread_safe/lockfree_queue.hpp:149-202 | as written, there is a run that loses a push |
| QueueLimits.KeepDataIsExact | thread_safe/lockfree_queue.hpp:202 | no run loses a push if and only if line 202 reads the data without clearing it |
| QueueLimits.SomeSpuriousEmpty | thread_safe/lockfree_queue.hpp:184 | with `tail` loaded first there is a run in which a pop answers "empty" though the queue holds a value from before its call until its answer |
| QueueLimits.HeadFirstIsExact | thread_safe/lockfree_queue.hpp:184-186 | no run has such an answer if and only if `head` is loaded first |
| QueueTheorems.LostIffPassed | thread_safe/lockfree_queue.hpp:149-162 | as written: a push whose data CAS succeeds is lost exactly when `head` has already passed the node |
| QueueTheorems.LedgerGrows | thread_safe/lockfree_queue.hpp:138-212 | as written: the values appended form one sequence that only grows, those removed are a growing prefix of it, and the queue is the rest |
| QueueLedger.ValuesAreConserved | thread_safe/lockfree_queue.hpp:138-212 | as written or repaired, over every run: the values appended are the ledger; the value of each push is appended once, or lost, or still being pushed; the values removed are the first of the ledger; each is returned once or in the hands of its pop; none is lost if line 202 is repaired |
| QueueLedger.MissedValuesAreNew | thread_safe/lockfree_queue.hpp:183-186 | the comparison of line 184, `tail` loaded earlier in the run than `head`, says "empty" if and only if `head` has reached where `tail` stood, and then every value in the queue was appended after that first load |
| QueueTheorems.KthPopTakesKthValue | thread_safe/lockfree_queue.hpp:200-207 | as written: the pop that moves `head` for the k-th time has the k-th value appended as its answer from then on (`RunRefines` keeps it until the call returns) |
| QueueTheorems.NoUseAfterFree | thread_safe/lockfree_queue.hpp:45-212 | as written: no thread ever touches, in its next operation, a node that has been deleted, and the node it has allocated is live |
| QueueTheorems.DeletesWhatNobodyHolds | thread_safe/lockfree_queue.hpp:58-62 | as written: a node about to be deleted has not been deleted, `head` and `tail` have left it, and no other thread holds it, owns it or is about to touch it |
| QueueTheorems.OwnNodeIsUnknown | thread_safe/lockfree_queue.hpp:153-157 | the node that a losing pusher deletes was never linked and no other thread knows it |
| QueueTheorems.DeletedForGood | thread_safe/lockfree_queue.hpp:58-62 | as written: a deleted node never changes again in a run, so it is deleted once |
| QueueTheorems.ReferenceAccounts | thread_safe/lockfree_queue.hpp:82-103 | as written: for every linked node, internal count plus the sum of (external count - 1) over its pointers not yet folded in equals the number of threads that hold it, modulo 2^30; `external_counters` is the number of those pointers; both counters are zero if and only if nobody holds the node and both pointers are folded in |
| QueueTheorems.ReachableIsLive | thread_safe/lockfree_queue.hpp:105-117 | as written: every node from `head` on is live, so neither `head` nor `tail` points to a deleted node |
| QueueReach.NextIsLive | thread_safe/lockfree_queue.hpp:105-117 | as written: the `next` of a live node points to a deleted node if and only if `head` has passed both and no thread holds the successor or is about to delete it; in particular from `head` on every `next` is live |
| QueueReach.InstalledIsLive | thread_safe/lockfree_queue.hpp:105-117 | as written: the word that a CAS puts into `tail` or `head` points to a live node, the next one in the chain: a dangling `next` is never followed |
| QueueReach.SomeNextDangles | thread_safe/lockfree_queue.hpp:199-205 | in every configuration some run leaves a live node, held by a stalled thread, whose `next` points to a deleted node |
| QueueTheorems.TailCountIsExact | thread_safe/lockfree_queue.hpp:67-80 | as written: the external count in `tail`, less one, is the number of pushers holding the tail node; with fewer than 65535 threads it fits in 16 bits and no increment of it wraps |
| QueueTheorems.TailCountsAppends | thread_safe/lockfree_queue.hpp:105-117 | `tail` advances exactly at appends, `head` exactly at removals, and pushes are lost exactly at the steps that mean a loss |
| QueueTheorems.FailedPushMeansProgress | thread_safe/lockfree_queue.hpp:138-180 | as written: a push whose data CAS has failed r times has seen r values appended since it began (r - 1 while it still helps to advance `tail`) |
| QueueTheorems.CountersAtQuiescence | thread_safe/lockfree_queue.hpp:164-165 | with no call in progress, `destruct_count` = `pop_count`, and `size` = `push_count` - `pop_count` = values stored + pushes lost (none with line 202 repaired) |
| QueueTheorems.CountersMidRun | thread_safe/lockfree_queue.hpp:163-165 | in the middle of a run `push_count`, `pop_count` and `size` fall short by exactly the threads between their linearization point and their counter update; values stored = appended + lost + one if the tail node holds data; `destruct_count` falls short of the nodes passed by `head` by exactly the threads between a deletion and its count, and the nodes not deleted, each of which some thread holds or is about to delete, so there are at most as many as threads |
| QueueTheorems.NoLeakAtQuiescence | thread_safe/lockfree_queue.hpp:132-136 | with no call in progress the nodes not deleted are those from `head` to `tail`; in an empty queue only the one at `head`, which the destructor deletes |
| QueueProgress.AloneItReturns | thread_safe/lockfree_queue.hpp:138-212 | as written: from every state of every run, a push or pop that runs alone returns after at most 29 atomic steps besides spurious failures of its weak CASes, whatever the stopped threads hold |
| PackedWord.UnpackPack | thread_safe/lockfree_queue.hpp:5-14 | unpacking a packed word gives back the pointer and the count, whatever the uninitialised variable held |
| PackedWord.PackUnpack | thread_safe/lockfree_queue.hpp:5-14 | every word is the packing of what it unpacks to |
| PackedWord.CasComparesPairs | thread_safe/lockfree_queue.hpp:75-77 | two packed words are equal if and only if pointer and count are |
| PackedWord.IncrementKeepsPtr | thread_safe/lockfree_queue.hpp:72-74 | incrementing the count keeps the pointer, and wraps at 2^16 only |
| PackedWord.SetPtrKeepsCount | thread_safe/lockfree_queue.hpp:171-173 | replacing the pointer keeps the count |
| PackedWord.CasComparesWords | thread_safe/lockfree_queue.hpp:75-77 | for nodes at any different 48-bit addresses, two words of the queue's model are packed alike if and only if they are equal |
| PackedWord.IncrementIsBump | thread_safe/lockfree_queue.hpp:69-79 | the macros do to a packed word what `Bump` does to the model's word, the wrap-around included |
| PackedWord.NewWord | thread_safe/lockfree_queue.hpp:139-141 | what the macros build in an uninitialised variable is the packed word of a new node with count 1 |
| PackedWord.NullMeansNoSuccessor | thread_safe/lockfree_queue.hpp:152-153 | a `next` field holds 0 if and only if the node has no successor |
| PackedWord.RunWordsFit | thread_safe/lockfree_queue.hpp:67-80 | in every run, `head`, `tail` and every linked `next` can be packed |
| PackedWord.CasInARun | thread_safe/lockfree_queue.hpp:75-77 | in every run, comparing packed values of `tail`, or of `head`, at any two moments gives the same answer as comparing the model's words |
| CoMutex.RunInv | sync/co_mutex.hpp:23-69 | every state of every run of the repaired mutex satisfies its invariant |
| CoMutex.LockedMeansOneHolder | sync/co_mutex.hpp:23-62 | the locked bit is set if and only if exactly one task holds the lock; waiters + unlockers in the pop loop = queued tasks + parked tasks whose to-do has not run; the 31-bit field does not overflow |
| CoMutex.NoWaiterStranded | sync/co_mutex.hpp:48-62 | while the word is unlocked with waiters, some unlocker's CAS will match, or some unlocker is popping or waking a waiter, or a woken task has yet to retry |
| CoMutex.EveryWaiterIsSeenTo | sync/co_mutex.hpp:38-62 | while any task waits, somebody holds the lock or sees to the waiters |
| CoMutex.PopLoopHasATask | sync/co_mutex.hpp:54-60 | while an unlocker is in the pop loop, a task is queued or about to be |
| CoMutex.WokenOnce | sync/co_mutex.hpp:38-60 | a parked task is queued exactly once or in the hands of exactly one unlocker, never both |
| CoMutex.AsWrittenExclusion | sync/co_mutex.hpp:33-37 | as written: a run keeps mutual exclusion if and only if no task ever counted itself as a waiter |
| CoMutex.RepairIsExact | sync/co_mutex.hpp:34 | all runs keep mutual exclusion if and only if line 34 is repaired |
| CoMutex.LockAlone | sync/co_mutex.hpp:23-36 | in every state of every run: a task inside `lock` that runs alone is through with it after at most three steps, holding a free mutex whatever its waiters, or counted as one more waiter of a locked one |
| CoMutex.TryAlone | sync/co_mutex.hpp:64-68 | a task inside `try_lock` that runs alone takes a free mutex, and leaves a locked one as it is, in at most two steps |
| CoMutex.UnlockAlone | sync/co_mutex.hpp:48-61 | in every state of every run: a holder that runs alone through `unlock` frees the mutex in at most six steps, and if there are waiters one fewer is counted and the first in the queue is sent back into `lock`, or, if none has got to the queue yet, it is at the pop loop |
| CoMutex.PopLoopAlone | sync/co_mutex.hpp:54-60 | the pop loop wakes the first task in the queue |
| CoMutex.WaitersGetIn | sync/co_mutex.hpp:23-62 | no deadlock: from every state of every run in which a task waits, some interleaving of at most thirteen steps puts a task that waits into the mutex |
| CoMutex.FirstComeFirstServed | sync/co_mutex.hpp:40-57 | at any later moment of any run the queue is what was left of it from the front, followed by newcomers |
| OwnershipSteps.RunInv | processer/processer.cpp:20-161 | every state of every run, as written or with the status restored, satisfies the ownership invariant |
| OwnershipTheorems.OnePlace | processer/processer.cpp:20-161 | with the status restored or as written: no task is at any moment in two places, or in one place twice, of these: on one CPU, about to be loaded by one processer, captured by one to-do, in one queue, wait queue, batch or hand, in the ring or in the pool; with the status restored it is in exactly one |
| OwnershipTheorems.NoTaskRunsTwice | processer/processer.cpp:125-161 | with the status restored or as written: no task runs on two processers |
| OwnershipTheorems.PublishedIsSaved | processer/processer.cpp:20-29 | deferred publication, with the status restored or as written: a task in any place but a CPU has its context saved, and nobody executes on its stack |
| OwnershipTheorems.SwitchIsSafe | processer/processer.cpp:150-159 | with the status restored or as written: whoever switches to a task loads a saved context that nobody else executes on or is about to load |
| OwnershipTheorems.ChannelWakesSleepers | sync/co_chan.hpp:73-80 | with the status restored or as written: whoever holds the channel's mutex finds only sleeping tasks in its wait queues |
| OwnershipTheorems.ToDosComeFirst | processer/processer.cpp:20-36 | with the status restored or as written: the to-dos of a switch run before any task code and before the next scheduling decision |
| OwnershipTheorems.StatusMustBeRestored | processer/processer.cpp:38-46 | in every state of every run each task is held by some place, if and only if the status is set back to runnable; as written a task that is parked, woken, run again and yields is in no place any more |
| OwnershipAsWritten.LostExactly | processer/processer.cpp:126-142 | with the status as written, in every state of every run, for every task: no place holds it if and only if it has called `Yield` while its status was still "block" and its processer has left its stack since |
| OwnershipAsWritten.NothingLostAsWritten | processer/processer.cpp:126-142 | with the status as written: while no task has called `Yield` with status "block" every task is in some place; and whenever no processer is in the middle of a yield, every task is in some place if and only if none has |
| OwnershipJourneys.PlacesSuit | processer/processer.cpp:126-142 | with the status restored or as written, in every state of every run: each place holds only tasks that have asked for it (a mutex's queue those that wait for this mutex, a channel's those parked on it, the I/O queue and the ring those that do I/O, the pool those whose function has returned), and each pending to-do does what its task asked for |
| OwnershipJourneys.ArrivesWhereAsked | processer/processer.cpp:21-29 | the to-do about a task puts it behind the others in the queue it asked for: this processer's runnable queue, the mutex's, the channel's, the I/O queue or the pool |
| OwnershipJourneys.FinishedAreRetired | processer/processer.cpp:31-36 | with the status restored or as written: a task whose function has returned never runs in its own code again, and from then on only the CPU it is leaving, the to-do that gives it to the pool, or the pool holds it, and one of them does |
| OwnershipJourneys.PoolHoldsFinished | processer/processer.cpp:134-138 | whatever is in the pool is a task whose function has returned |
| OwnershipSchedule.Dispatches | processer/processer.cpp:48-60 | a processer at its dispatch loop with work loads the first task of its queue and is in the task's code three steps on |
| OwnershipSchedule.YieldsToNext | processer/processer.cpp:125-161 | a processer that leaves a task while its queue holds work goes straight to the first task of the queue, performs what the left task wanted done, and is in the next one's code at most five steps on; a runnable task is then the last of the queue |
| OwnershipSchedule.YieldsToItself | processer/processer.cpp:154-155 | with nothing else to run, a runnable task that yields goes on and the queue is still empty |
| OwnershipSchedule.YieldsToMain | processer/processer.cpp:156-159 | with nothing else to run, a processer leaves a suspended or finished task for its dispatch loop |
| OwnershipSchedule.ContainersChangeSo | processer/processer.cpp:77-98 | what every step does to every container: which task leaves which from where, and which becomes the last of which |
| OwnershipSchedule.ContainersAreFifo | processer/processer.cpp:77-98 | over every run every container but the ring is first in, first out |
| OwnershipSchedule.ChannelsChangeSo | sync/co_chan.hpp:66-136 | what every step does to every channel's mutex and wait queue: tasks park behind the others, the first is woken, and a parking task's to-do releases the mutex |
| Handshake.NoLostWakeup | processer/processer.cpp:68-118 | with either order of the loads at line 184 of the queue: if the consumer sleeps while the queue holds an item, some producer is between its push and the end of its wake call, also with stealers, spurious wakeups, producers that push several items and a consumer that requeues its own; while the flag is set it is one that has yet to clear it |
| Handshake.BothUses | scheduler/scheduler.cpp:64-114 | both uses of the handshake, in the processer and in the submit thread, with either order of the loads, lose no wakeup |
| Handshake.WakePathIsOpen | processer/processer.cpp:112-118 | some producer on its way to wake the sleeping consumer, or the thread that has the lock it waits for, can take its next step |
| HandshakeQueue.PeekMisses | thread_safe/lockfree_queue.hpp:183-186 | a pop of the lock-free queue that answers "empty" at line 184 is one that the handshake's pop may make; with `tail` loaded first it answers so exactly when every value in the queue was appended after its first load |
| HandshakeQueue.CheckMisses | thread_safe/lockfree_queue.hpp:195-198 | so is one that answers "empty" at line 195 |
| Handshake.BusyIsNotMarked | processer/processer.cpp:100-110 | a consumer at work or looking for work is never marked as waiting |
| Handshake.RecheckIsNeeded | scheduler/scheduler.cpp:102-106 | no wakeup is lost in any run if and only if the consumer pops again after it has set the flag |
| Handshake.ItemsAreConserved | processer/processer.cpp:52-110 | over every run: the items pushed are, in order, those that have left the queue followed by those in it, and those that have left it have been stolen, or worked on, or are in the consumer's hand, each once |
| Handshake.ConsumerWorks | processer/processer.cpp:51-59 | in every state of every run, with either order of the loads: a consumer that is going to look at the queue before it sleeps, running alone, works on the first item after at most six steps |
| Handshake.SleeperIsServed | processer/processer.cpp:77-118 | in every state of every run: a consumer that sleeps on an item works on it after at most four steps of producers on their way and six of its own |
| Channel.PerformIsValid | sync/co_chan.hpp:44-136 | every operation keeps: parked receivers imply an empty buffer and no parked senders, parked senders imply a full buffer, the buffer fits, a closed channel has nobody parked |
| Channel.RendezvousTestSuffices | sync/co_chan.hpp:105-130 | a sender parked behind an empty buffer implies capacity 0; so a receiver parks if and only if nothing is there to take, and a sender if and only if there is no receiver and no room |
| Channel.AlwaysBalanced | sync/co_chan.hpp:44-136 | after every sequence of operations the books of values, arrivals and wakes balance with the channel's state |
| Channel.AcceptedIsAccountedFor | sync/co_chan.hpp:65-136 | accepted values in order of arrival = delivered ++ buffer ++ values of parked senders ++ cancelled ones |
| Channel.KthReceiverGetsKthValue | sync/co_chan.hpp:97-136 | the k-th receiver to arrive gets the k-th value accepted |
| Channel.ParkedAreWokenOnceInOrder | sync/co_chan.hpp:49-61 | each parked task is woken exactly once, in the order in which they parked; after a close all have been |
| Channel.CloseCancelsTheParked | sync/co_chan.hpp:44-63 | Close cancels exactly the values of the parked senders and the parked receivers, and delivers nothing |
| Channel.ReceivesDrainAfterClose | sync/co_chan.hpp:101-118 | after a close nothing is accepted or parked, and receives drain the buffer in order |
| Channel.CoChannel.Push | sync/co_chan.hpp:66-90 | up to the point where the caller is suspended: does what `Sending` says to the queues and the processer, and writes a handed-over value through the first receiver's reference and no other; the receiver that it wakes has the value and a clear error flag |
| Channel.CoChannel.Pull | sync/co_chan.hpp:98-131 | up to the point where the caller is suspended: does what `Receiving` says, stores the value through the caller's reference, and leaves parked coroutines' variables alone; the sender that it wakes has a clear error flag |
| Channel.CoChannel.Shut | sync/co_chan.hpp:44-63 | sets the error flag of every parked coroutine and no value, and makes all of them runnable, senders first, in order |
| Channel.CoChannel.ResumePush | sync/co_chan.hpp:91-94 | a parked send that goes on fails if and only if Close is what woke it and the exception is thrown |
| Channel.CoChannel.ResumePull | sync/co_chan.hpp:132-135 | a parked receive that goes on fails if and only if Close is what woke it and the exception is thrown, and has the value handed over if a sender woke it |
| ChannelAnswers.AnswersAreIntended | sync/co_chan.hpp:44-136 | after every sequence of operations, every call answers as it should (the k-th accepted send succeeds if its value has been delivered or buffered and fails if Close cancelled it, the k-th receiver gets the k-th accepted value or fails if Close cancelled it, a call on a closed channel fails) if and only if lines 92 and 133 throw, or, as written, no Close has found a call parked |
| ChannelAnswers.ClosingMustThrow | sync/co_chan.hpp:91-94 | all calls on all channels answer as they should if and only if lines 92 and 133 throw |
| LoadBalance.StealNumFits | scheduler/scheduler.cpp:141-145 | the number stolen is at least one and at most the difference of the loads, which it reaches only when that is one; the source keeps more than the average less one |
| LoadBalance.StealNumIsQuarter | scheduler/scheduler.cpp:145 | the number stolen is a quarter of what the source has above the average, cut off, or one if that is less |
| LoadBalance.MovesTakeQuarters | scheduler/scheduler.cpp:144-150 | so it is for every move of every trace, with the source's load at that move |
| LoadBalance.InWholeNumbers | scheduler/scheduler.cpp:120-145 | for n tasks of one of p processers with t tasks in all: overloaded means 10np > 11t, underloaded 10np < 3t, and the number k stolen is 1 or has 4kp <= np - t, with np - t < 4(k + 1)p |
| LoadBalance.MoveEvens | scheduler/scheduler.cpp:145-150 | a move never increases the sum of squared loads, and decreases it if and only if the loads differ by two or more |
| LoadBalance.MoveConserves | processer/processer.cpp:77-98 | a move keeps the multiset of all tasks |
| LoadBalance.BalancingConserves | scheduler/scheduler.cpp:138-153 | balancing keeps the multiset of tasks, raises no maximum and lowers no minimum |
| LoadBalance.BalancingEvens | scheduler/scheduler.cpp:138-153 | balancing never increases the sum of squared loads, and decreases it if and only if some move was between loads that differ by two or more |
| LoadBalance.SourcesStayAbove | scheduler/scheduler.cpp:129-150 | a processer above the average less one stays there |
| Processers.Processer.Steal | processer/processer.cpp:86-98 | takes the oldest tasks, in order, as many as asked for or all there are |
| Processers.Processer.AddTask | processer/processer.cpp:77-80 | queues the tasks behind the others, in order |
| LoadBalance.Sort | scheduler/scheduler.cpp:127-136 | lists the overloaded and the underloaded processers: exactly those, each once, in order |
| LoadBalance.Balance | scheduler/scheduler.cpp:141-151 | one pass of the inner loop makes a legal move exactly when both ends still qualify, and goes on exactly unless the destination is full |
| LoadBalance.Rebalance | scheduler/scheduler.cpp:116-154 | the moves made are the schedule of the two loops (each underloaded processer in turn takes from each overloaded one in turn, passing by those that no longer qualify, until it no longer qualifies itself), a trace of legal moves, empty if and only if no processer is overloaded or none is underloaded |
| LoadBalance.NoPairIsPassedBy | scheduler/scheduler.cpp:138-153 | that schedule serves each pair at most once, in order; and a pair that qualified at the start and still does at the end has been served |
| IoRing.RunInv | io_uring/io_uring_engine.cpp:38-127 | every state of every run, as written or repaired, satisfies the ring's invariant |
| IoRing.WokenOnceWithResult | io_uring/io_uring_engine.cpp:97-127 | repaired, for every order of completions: a task is woken once per submission, exactly when its last completion has been consumed, with the result stored |
| IoRing.WakesAsWritten | io_uring/io_uring_engine.cpp:104-126 | as written: a submission that is over has woken its task exactly once if and only if no linked timeout expired, and then with the operation's result stored before the wake |
| IoRing.OneWakeNeedsRepair | io_uring/io_uring_engine.cpp:105-113 | every run wakes every task at most once per submission if and only if the double report is repaired |
| IoRing.RoundTrip | hook/hook.cpp:33-49 | repaired: a hooked call returns the operation's result, or -1 with `errno` set, which is EAGAIN for an expired timeout |
| IoRing.FirstAnswerAsWritten | io_uring/io_uring_engine.cpp:104-126 | as written, for every submission that is over: the hooked call's answer at its first wake is the intended one if and only if no linked timeout expired, or the operation's completion came first and was -EAGAIN; with the timeout's completion first it is 11, as if 11 bytes had been transferred |
| IoRing.CancelledAnswerAsWritten | io_uring/io_uring_engine.cpp:104-126 | as written: if the ring cancels the operation of an expired pair, the answer is the intended one if and only if the timeout did not expire |
| IoRing.TimedOutRuns | io_uring/io_uring_engine.cpp:104-126 | as written: for either order of the two completions there is a run that wakes the task twice |
| IoRing.AnswersNeedRepair | io_uring/io_uring_engine.cpp:105-113 | every submission of every run gets the intended answer if and only if the code is repaired |
| IoRing.WaitsMeans | scheduler/scheduler.cpp:86-96 | one call of `WaitResult` keeps the invariant, wakes a task exactly if it says so, and blocks only when no completion is left |
| IoRing.WaitsAsWritten | io_uring/io_uring_engine.cpp:97-127 | as written: a call passes over timer completions with -ENOENT or -ECANCELED; it fails if and only if the first other completion is a timer's and not -ETIME, wakes a task if and only if there is another one that is not, and blocks if and only if there is none |
| IoRing.SubmitterIsStored | hook/hook.cpp:33-40 | over every run: the task stored for a submission is the one that submitted, in every later state, and it has a timer if and only if it was given a timeout |
| IoRing.WokenSubmitted | io_uring/io_uring_engine.cpp:123-126 | in every run: a call that wakes a task wakes the one that submitted the entry whose completion it consumed last |
| IoRing.Engine.Exec | io_uring/io_uring_engine.cpp:38-59 | submits one entry, or, if the timeout is not zero, a linked pair that shares one result |
| IoRing.Engine.WaitResult | io_uring/io_uring_engine.cpp:97-127 | consumes completions up to the first that ends the call, and stores results as `Waits` says |

## Left out

- CAS retry loops of `LFQueue`, `CoMutex` and the loops of `Processer` are program counters of a transition system on
  values, not `while` loops over a mutable object: other threads act between any two iterations, which a sequential
  method cannot express.
- Relaxed memory orders and the data races on plain flags (`stop_`, `ioWait_`, `status_`): sequential consistency and
  atomic flags are assumed.
- The external count of `head` can be raised without limit by contending poppers; that it stays below 65535 is part of
  what a run is (`HeadRoom`).
- The counters `size`, `push_count`, `pop_count` and `destruct_count` are unbounded integers, and `destruct_count` is
  counted per queue.
- Node addresses are identities that are never reused; so the unprotected comparison at line 184 compares identities.
- QueueTheorems.FailedPushMeansProgress: bounds the failures of one push; nothing of the kind is claimed for pop, whose
  CAS on `head` also fails when only the count has changed.
- OwnershipTheorems.OnePlace: a yield that finds `stop_` set (line 146) and shutdown in general are not modelled; nor is that a
  sleeping thread notices a stop, which the predicates at `processer/processer.cpp:108` and
  `scheduler/scheduler.cpp:108` do not ensure.
- Task recycling (`processer/task_pool.hpp`): the pool is the last place of a finished task.
- In `OwnershipModel` a channel has one wait queue, since senders and receivers never wait at once, and a close is a
  sequence of wakes.
- In `OwnershipModel`, the mutex, channel and I/O protocols appear only as places and as the moves between them; their own
  logic is in the other modules. In `Channel`, the order in which callers get the mutex is a parameter.
- `try_lock` as written has no return value when the mutex is locked, so only its repaired form is modelled.
- `LoadBalance` runs with nothing else running, and with exact numbers for 1.1, 0.3 and the average instead of `float`.
- The kernel: the ring is a bag of submissions whose completions come in any order, at most one per entry, and it never
  runs out of entries. Context switches are atomic; `mmap`, `ucontext` and stack pages are not modelled.
- The other hooks of `hook/hook.cpp`, `hook/fd_desc.cpp` and `hook/malloc.cpp`, thread start-up, console output and the
  demonstration programs.
