# Kernel objects of the Zephyr port, verified

A Dafny model of the uniprocessor kernel's blocking objects and of the scheduler and
timeout structures they rest on, with proofs about every run of their calls.

Each object has the same shape.

- A value: the object's state, ghost histories included, and one function per kernel call,
  from entry to return or pend. A waiter's timeout is a call of its own. A call is atomic
  because the kernel holds the scheduler or interrupt lock over it (a timeout can come
  while a pipe call copies; `PipeWindow.dfy` deals with that); a pended call comes back
  when another call completes it.
- Lemmas about single calls, in terms of the state before and after: what the call came back
  with, whom it completed, and what it left alone (`...Outcome`, `...Effect`).
- Theorems about every state of every run.
- A class with the kernel's fields, whose methods update them in place with the kernel's
  loops. Each method is proved to take the state where the call's function takes it and to
  keep the invariant, so the run theorems are about the in-place code.

Wait queues are sequences in the order of `_priq_dumb_add`. A smaller number is a higher
priority.

| file | what it holds |
|---|---|
| `Basics.dfy`, `PriorityList.dfy`, `Counting.dfy`, `RingView.dfy` | shared helpers, wait queues, counting, circular buffers |
| `PipeSpec.dfy` | pipes one byte at a time: the reference meaning |
| `PipeLaws.dfy` | closed forms of the reference: amounts, prefixes, who completes |
| `PipeRuns.dfy`, `PipeReads.dfy`, `PipeWrites.dfy` | pipes over every run: the stream, each reader, each writer |
| `PipeCalls.dfy` | what each pipe call comes back with |
| `PipeWindow.dfy` | timeouts while a pipe call is copying |
| `PipeRing.dfy`, `Pipe.dfy` | pipes as the kernel runs them, refining the reference |
| `ReadyQueues.dfy`, `TreeQueue.dfy`, `QueueRuns.dfy` | the three thread queues and their equivalence |
| `Scheduler.dfy` | ready queue, next-thread cache, preemption |
| `Readiness.dfy` | what each scheduler operation does, and who is on the queue |
| `Mutex.dfy`, `MutexCalls.dfy` | priority inheritance; what each call does |
| `MailboxSpec.dfy`, `MailboxRuns.dfy`, `MailboxCalls.dfy`, `Mailbox.dfy` | mailboxes |
| `MsgQueue.dfy`, `MemSlab.dfy`, `WorkQueue.dfy` | message queues, memory slabs, delayed work |
| `Timeouts.dfy`, `Ticks.dfy` | the timeout delta queue, tick conversion |

## What the code does not do

Properties that fail somewhere are stated with the exact condition under which they hold,
and with an input on which they fail.

- Unlocking the scheduler without a refresh leaves the next-thread cache right exactly when
  the cache is the head of the ready queue or the current thread is still not preemptible
  (`QuietUnlockKeepsIff`). An asynchronous pipe put by a preemptible thread with a better
  reader waiting fails this (`BlockPutLeavesReader`); the other two uses pend the current
  thread next, which refreshes the cache (`CacheIsBest`).
- Setting a thread's priority keeps the ready queue right exactly when the thread is queued
  or not ready (`SetPrioKeepsIff`). A mailbox sender between its match and its disposal is
  ready and not queued (`MatchedSenderBreaksQueue`, `QueuedTwice`).
- Readying a thread keeps the ready queue right exactly when the thread is not queued
  (`WakeKeepsIff`). Resuming a thread that is not suspended links it a second time
  (`ResumeQueuesTwice`), and blocking it afterwards leaves it on the queue
  (`ResumedThenBlocked`), where the header promises that such a resume has no effect.
- So over every run queue and cache stay right exactly if no call readies a queued thread or
  sets the priority of a thread that is ready and not queued (`QueueRightIff`).
- The tree queue is first-in first-out exactly while no queued equal carries a larger order
  key (`RbAddAgrees`). The counter coming round breaks this (`FifoLostAtWrap`); the order by
  priority survives it (`TreeStaysOrdered`).
- A mutex waiter's timeout keeps the owner's inherited priority right exactly when it was
  the last waiter or the owner's own priority is not above the ceiling (`TimeOutKeepsIff`,
  `TimeOutDropsOwner`). `OwnerInherits` says what the owner runs at in every case.
- A thread that has released all its mutexes is back at its own priority exactly if it took
  the one it released last at its own (`LastReleaseDecides`). Releasing out of order can
  leave a boost behind (`OutOfOrderKeepsBoost`), releasing in reverse order never does
  (`NestingRestores`).
- A message queue for no messages lets readers and writers wait together
  (`NoRoomMixesWaiters`); with room for one or more they never do (`EveryRunIsFifo`).
- The 32-bit result of the tick conversion lasts long enough exactly when the cycles fit
  (`CastShortensIff`, `EighteenHoursWrap`).

Where the code and its comments disagree, the model follows the code. Cancelling delayed
work also takes out an item already in its work queue and never returns `-EINPROGRESS`, and
cancelling work that has completed returns 0 where the header promises `-EINVAL`
(`CancelKeeps`). Purging a message queue wakes waiting readers as well as the writers its
comment names.

## Model

| member | source | states |
|---|---|---|
| PriorityList.Add | kernel/sched.c:469-484 | The list walk puts a newcomer in front of the first entry of strictly lower priority, hence behind its equals. |
| PriorityList.InsertKeepsSorted | kernel/sched.c:469-484 | A list in priority order stays so. |
| PriorityList.InsertJoins | kernel/sched.c:469-484 | The newcomer is behind every entry it does not outrank and in front of the first it does; the others keep their order. |
| RingView.PutRun | kernel/pipes.c:219-246 | At any index position and size, a run stopped by the free space and the buffer's end appends to the stored entries and keeps the indices consistent. |
| RingView.GetRun | kernel/pipes.c:256-282 | A run read at the read index is a prefix of the stored entries and leaves the rest. |
| PipeRing.CopyIn | kernel/pipes.c:196-209 | The byte loop overwrites exactly min(room, length) bytes at the offset. |
| PipeRing.CopyOut | kernel/pipes.c:196-209 | The byte loop reads exactly the bytes asked for. |
| Pipe.Pipe.constructor | kernel/pipes.c:134-146 | A new pipe is empty and satisfies the invariant. |
| Pipe.Pipe.BufferPut | kernel/pipes.c:219-246 | Two passes append exactly min(length, free) bytes, for every size (0 included) and index position. |
| Pipe.Pipe.BufferGet | kernel/pipes.c:256-282 | Two passes remove exactly min(length, used) bytes from the front. |
| Pipe.Prepare | kernel/pipes.c:314-377 | Refuses exactly when waiting is not allowed and the minimum cannot be met; else the working set is the longest prefix of waiters that the request covers. |
| Pipe.Pipe.ServeReaders | kernel/pipes.c:478-496 | Every reader of the working set receives all it still wants, in queue order. |
| Pipe.Pipe.PutSet | kernel/pipes.c:478-520 | Serving the working set and then placing the rest is the reference's put with the set still queued. |
| Pipe.Pipe.PutRest | kernel/pipes.c:498-520 | The rest goes to the reader left on the queue, then to the ring, as the reference has it. |
| Pipe.Pipe.PutInternal | kernel/pipes.c:432-577 | The put with its working set, direct copies and ring reaches the byte-at-a-time put's state, and returns what that reports. |
| Pipe.Pipe.Put | kernel/pipes.c:739-748 | For all data, minimum and waiting mode: the reference's put, with the invariant kept. |
| Pipe.Pipe.BlockPut | kernel/pipes.c:769-786 | An asynchronous put takes a descriptor and does the reference's put; without a free descriptor its caller waits and nothing changes. |
| Pipe.Pipe.ReadWriters | kernel/pipes.c:626-650 | Bytes and bookkeeping of the working set are conserved while the request is filled. |
| Pipe.Pipe.Refill | kernel/pipes.c:668-680 | What is left of the working set fits in the freed ring space, so each writer is drained before it is readied. |
| Pipe.Pipe.PartTransfer | kernel/pipes.c:626-689 | With a writer left on the queue: the reader has the first bytes, the ring ends full with the next ones, and that writer keeps the rest. |
| Pipe.Pipe.GetData | kernel/pipes.c:626-689 | Ring, working set, partly served writer and refill together do the reference's get. |
| Pipe.Pipe.Get | kernel/pipes.c:579-719 | For all requests, minimum and waiting mode: the reference's get, with the invariant kept and the result reported. |
| Pipe.Pipe.ReaderTimesOut | kernel/pipes.c:701-719 | A timed-out reader leaves with what it has; the invariant holds. |
| Pipe.Pipe.WriterTimesOut | kernel/pipes.c:555-577 | A timed-out writer leaves with what is left; the invariant holds. |
| PipeLaws.PutAllFeeds | kernel/pipes.c:478-496 | Bytes up to the first reader's demand may be copied in one piece. |
| PipeLaws.PutAmount | kernel/pipes.c:455-520 | A put moves exactly min(request, waiting demand + free space) bytes, a prefix of the data, and stops short only when nobody can take more. |
| PipeLaws.GetAmount | kernel/pipes.c:599-689 | A get reads exactly the first min(request, used + waiting supply) bytes of the ring followed by the writers in queue order, and the writers give up as many. |
| PipeLaws.GetWhole | kernel/pipes.c:626-680 | A request that covers all waiting writers completes every one of them. |
| PipeLaws.GetPart | kernel/pipes.c:626-689 | Otherwise exactly the covered writers complete, and the next one gives up what they leave of the request and still has bytes. |
| PipeRuns.PutAllKeeps | kernel/pipes.c:478-520 | A transfer keeps integrity, the waiting invariant, queue order and the descriptor pool, and counts every byte. |
| PipeRuns.GetAllKeeps | kernel/pipes.c:626-689 | So does a transfer out, refills included. |
| PipeRuns.PutCallKeeps | kernel/pipes.c:432-577 | Every put, synchronous or not, keeps the invariant whether it returns or pends. |
| PipeRuns.GetCallKeeps | kernel/pipes.c:579-719 | Every get does. |
| PipeRuns.BlockPutKeeps | kernel/pipes.c:769-786 | Every asynchronous put keeps the invariant; its descriptor is free or waits as a writer. |
| PipeRuns.EveryRunIsSafe | kernel/pipes.c:432-719 | In every state of every run with any number of waiters: bytes accepted are bytes delivered followed by the ring; waiting readers mean an empty ring, waiting writers a full one, never both; every waiter has bytes outstanding; queues are in priority order; counts reported and descriptors add up. |
| PipeReads.ReadsAreInOrder | kernel/pipes.c:432-719 | In every run, for every thread, the bytes delivered to it are, in order, what its finished reads returned followed by what its waiting read holds; all deliveries in order are the bytes handed out. |
| PipeWrites.WritesArePrefixes | kernel/pipes.c:432-786 | In every run, for every writer, the bytes accepted from it are, in order, the prefixes of its data that its finished writes reported followed by the prefix taken from its waiting write, which still offers exactly the rest. |
| PipeRuns.PutNoWait | kernel/pipes.c:455-577 | Without waiting, a put fails with -EIO and changes nothing exactly when the minimum cannot be met; else it succeeds with at least the minimum and never reports -EAGAIN. |
| PipeRuns.GetNoWait | kernel/pipes.c:599-719 | The same for a get, which returns the first reachable bytes. |
| PipeCalls.PutOutcome | kernel/pipes.c:432-577 | A put is refused with -EIO, without effect, iff it may not wait and cannot move its minimum. Any other moves what it can and returns 0 if that is everything or it may not wait; else it waits with the rest, in priority order. The readers it completes are a prefix of the queue and return 0 with their whole request; the next one may have got more. |
| PipeCalls.GetOutcome | kernel/pipes.c:579-719 | The same for a get, which reads the first bytes of the ring and the waiting writers; the writers it completes report all their data taken. |
| PipeCalls.BlockPutOutcome | kernel/pipes.c:769-786 | The same for an asynchronous put, whose descriptor is free again iff all data was moved. |
| PipeCalls.ReaderTimeoutOutcome | kernel/pipes.c:391-403 | A timed-out read returns the bytes it has, with -EAGAIN iff they are fewer than its minimum and 0 otherwise. |
| PipeCalls.WriterTimeoutOutcome | kernel/pipes.c:391-403 | A timed-out write reports the bytes taken, with -EAGAIN iff they are fewer than its minimum and 0 otherwise. |
| PipeCalls.EveryCallIsAnswered | kernel/pipes.c:432-719 | In every run, every thread's calls are answered in order, all but at most one, which waits with the call's own request, minimum and priority. An answer is a success iff the bytes moved are at least the call's minimum; only a call that may not wait is refused, only one that may wait reports -EAGAIN. |
| PipeWindow.PutWindowIsSafe | kernel/pipes.c:463-508 | A reader still queued that times out between the working set and the copies, also the one being copied to, ends, and leaves the pipe, as if it had timed out right after the put. |
| PipeWindow.GetWindowIsSafe | kernel/pipes.c:607-689 | The same for a writer during a get, also the one being copied from. |
| ReadyQueues.AddFlat | kernel/sched.c:562-568 | Appending to its priority's list is insertion into the sorted list. |
| ReadyQueues.RemoveFlat | kernel/sched.c:570-578 | Unlinking from its priority's list is unlinking from the sorted list. |
| ReadyQueues.MqAddKeeps | kernel/sched.c:562-568 | After an add, bit i is set iff list i is non-empty, and the concatenation is the sorted list's. |
| ReadyQueues.MqRemoveKeeps | kernel/sched.c:570-578 | After a remove too. |
| ReadyQueues.MqBestIsHead | kernel/sched.c:580-590 | The lowest set bit leads to the head of the sorted list. |
| QueueRuns.MultiqueueIsList | kernel/sched.c:356-377 | For every sequence of adds, removes and priority changes, the 32 lists concatenated are the sorted list and both pick the same thread. |
| QueueRuns.EmptyAgrees | kernel/sched.c:682-700 | Empty queues of the three kinds agree, so runs may start there. |
| QueueRuns.PriqMq.constructor | kernel/sched.c:682-700 | A new multiqueue is empty and satisfies the invariant. |
| QueueRuns.PriqMq.Add | kernel/sched.c:562-568 | In place, with the mask invariant kept. |
| QueueRuns.PriqMq.Remove | kernel/sched.c:570-578 | In place, clearing the bit exactly when the list empties. |
| QueueRuns.PriqMq.Best | kernel/sched.c:580-590 | The scan returns the sorted list's head, or none if it is empty. |
| TreeQueue.LessIsTotal | kernel/sched.c:499-513 | The comparison is a strict total order on distinct keys. |
| TreeQueue.RenumberKeeps | kernel/sched.c:515-536 | The renumbering loop keeps the order of the threads already in the tree. |
| TreeQueue.RbAddAgrees | kernel/sched.c:515-536 | An add agrees with the sorted list iff no queued equal carries a larger key, which holds while the counter has not come round. |
| TreeQueue.FifoLostAtWrap | kernel/sched.c:515-547 | From the empty tree, one thread queued and another joining and leaving 2^32 - 2 times: of two equals added next, the later is queued in front of the earlier. |
| TreeQueue.RbRemoveKeeps | kernel/sched.c:538-547 | A remove keeps the order, the keys and the agreement with the list. |
| TreeQueue.RbAddStamped | kernel/sched.c:515-536 | Wrap or no wrap, an add keeps all keys different and the tree strictly ordered. |
| QueueRuns.TreeIsList | kernel/sched.c:499-554 | Over every run in which the counter does not come round, the tree holds the sorted list. |
| QueueRuns.TreeIsListWhileFew | kernel/sched.c:515-547 | Over every run with fewer than 2^32 - 1 additions since the queue was last empty, the tree holds the sorted list, and the counter is the number of these additions. |
| QueueRuns.TreeStaysOrdered | kernel/sched.c:499-554 | Over every run, however often the counter comes round, the tree is strictly ordered by priority and key, holds exactly the list's threads, and picks one of the list's best priority. |
| QueueRuns.PriqRb.Add | kernel/sched.c:515-536 | In place, with the renumbering loop; the order is kept, and is the sorted list's while the counter has not come round. |
| QueueRuns.PriqRb.Remove | kernel/sched.c:538-547 | In place; the other threads keep their order and their keys, and agreement with the sorted list is kept. |
| Scheduler.CacheIsBest | kernel/sched.c:112-253 | Over every run in which no queued thread is readied, no ready unqueued thread is given a priority, and each quiet unlock meets its condition or is followed at once by the current thread pending itself, outside such a pair: if the current thread is preemptible, idle or not ready, the cache is the head of the ready queue, ready and outranked by no queued thread, and idle only if none is queued. |
| Scheduler.CacheIsNear | kernel/sched.c:112-253 | In every run, with any unlocks, as long as no queued thread was readied and no ready unqueued thread was given a priority: the ready queue is the queued threads in priority order, and the cache is its head or a ready current thread that is not idle. |
| Scheduler.QueueRightIff | kernel/sched.c:203-253 | Over every run of any calls, queue and cache are right throughout iff no call readied a queued thread or gave a priority to a ready unqueued one. |
| Scheduler.WakeKeepsIff | kernel/include/ksched.h:220-232 | Readying a thread keeps the ready queue right iff the thread is not queued. |
| Scheduler.ResumeQueuesTwice | kernel/thread.c:523-537 | The input on which it does not: the running thread resumes itself and is queued twice. |
| Scheduler.ResumedThenBlocked | kernel/thread.c:523-537 | Any queued thread that is resumed and then blocks is on the queue and not ready. |
| Scheduler.QuietUnlockKeepsIff | kernel/include/ksched.h:258-268 | Unlocking without a refresh leaves the cache right, also after an earlier unlock left it wrong, iff it is the head of the queue or the current thread is cooperative or still locked. |
| Scheduler.BlockPutLeavesReader | kernel/pipes.c:463-550 | The input on which it does not: a preemptible thread puts a block while a better reader waits, and stays cached in front of it. |
| Scheduler.SetPrioKeepsIff | kernel/sched.c:356-377 | Setting a priority keeps the ready queue right iff the thread is queued or not ready. |
| Scheduler.MatchedSenderBreaksQueue | kernel/sched.c:356-377 | The input on which it does not: a mailbox sender that was unpended and not yet readied. |
| Scheduler.QueuedTwice | kernel/sched.c:225-232 | Readying such a thread afterwards puts it on the queue a second time. |
| Scheduler.CooperativeKeepsCpu | kernel/sched.c:112-142 | A ready, non-preemptible, non-idle current thread keeps the processor through every run of other threads' activity in which no meta-IRQ becomes best and no priority change makes another ready thread best. |
| Scheduler.DisplacedOnlyByMetaIrq | kernel/sched.c:112-142 | One wake, block or move of another thread displaces it iff the best thread is now another one and a meta-IRQ. |
| Scheduler.DisplacedWhenPermitted | kernel/sched.c:203-223 | A refresh with permission to preempt (another thread's priority, its own unlock or yield) displaces it iff the best thread is another one. |
| Scheduler.DisplacedBySetPrio | kernel/sched.c:356-377 | Setting another queued thread's priority displaces it iff the new priority is better than its own or another queued thread is in front of it. |
| Scheduler.StepKeeps | kernel/sched.c:225-253 | Every operation except readying a queued thread and giving a priority to a ready unqueued one keeps the ready queue equal to the queued threads in priority order, all ready, and the cache right; the quiet unlock under its condition. |
| Scheduler.UpdateRestores | kernel/sched.c:203-223 | A refresh makes the cache right whatever it was; with permission to preempt no queued thread outranks it. |
| Readiness.WakeEffect | kernel/include/ksched.h:220-232 | Readying a thread clears its bits and puts it on the queue behind every thread it does not outrank; all else stays. With a bit left set only the bits change. |
| Readiness.BlockEffect | kernel/sched.c:244-253 | Blocking a thread sets its bits and takes it, and nobody else, off the queue. |
| Readiness.SetPrioEffect | kernel/sched.c:356-377 | The thread has the new priority; a ready one is also linked in anew at it, a pended one is not. |
| Readiness.MoveToEndEffect | kernel/sched.c:234-242 | The thread leaves the queue and joins it again behind its equals. |
| Readiness.YieldEffect | kernel/sched.c:779-798 | The same for the current thread; nothing for idle. |
| Readiness.QuietEffect | kernel/include/ksched.h:243-268 | Locking, unlocking, unpending and switching change the depth, the bits or the current thread, and no queue. |
| Readiness.QueuedIff | kernel/sched.c:225-253 | In every run in which no queued thread is readied and no ready unqueued thread is given a priority, a thread is on the queue, at its priority, iff it was at first or was since readied or moved, and was not blocked after that. |
| Readiness.ReadiedIsQueued | kernel/sched.c:225-253 | So a thread that was readied and not blocked since is on the queue. |
| Scheduler.ReadyQ.WakeThread | kernel/include/ksched.h:220-232 | In place, on any thread but idle: the queue stays right iff the thread was not queued; then, if the thread becomes ready, the cache is right whatever it was. |
| Scheduler.ReadyQ.BlockThread | kernel/sched.c:244-253 | In place, with the invariant kept; a queued thread's removal makes the cache right whatever it was. |
| Scheduler.ReadyQ.MoveThreadToEnd | kernel/sched.c:234-242 | In place; the cache is right afterwards whatever it was. |
| Scheduler.ReadyQ.SetPriority | kernel/sched.c:356-377 | In place on any thread but idle; the queue stays right iff the thread is queued or not ready, and then the invariant is kept. |
| Scheduler.ReadyQ.YieldCurrent | kernel/sched.c:779-798 | In place; the cache is right afterwards unless idle yields, which changes nothing. |
| Scheduler.ReadyQ.SchedUnlock | kernel/sched.c:413-429 | In place; the cache is right afterwards whatever it was. |
| Scheduler.ReadyQ.SchedUnlockQuietly | kernel/include/ksched.h:258-268 | In place, also when the cache was left wrong before; it is right afterwards iff the exact condition holds. |
| Scheduler.ReadyQ.SchedLock | kernel/include/ksched.h:243-256 | In place; queue and cache stay as right as they were. |
| Scheduler.ReadyQ.UnpendThread | kernel/sched.c:314-324 | In place: the state bits of an unqueued thread change, and queue and cache stay as right as they were. |
| Scheduler.ReadyQ.SwapIn | kernel/include/kswap.h:43-89 | In place: the cached thread runs, and it is ready. |
| Mutex.LockKeeps | kernel/mutex.c:121-169 | Locking, recursion and contention keep the owner at the priority due to it. |
| Mutex.UnlockKeeps | kernel/mutex.c:212-263 | A release leaves the next owner at the priority due to it, whatever the owner ran at. |
| Mutex.TimeOutKeepsIff | kernel/mutex.c:182-202 | A waiter's timeout does so iff it was the last waiter or the owner's own priority is not above the ceiling; otherwise the owner drops to the ceiling. |
| Mutex.TimeOutDropsOwner | kernel/mutex.c:121-202 | From a free mutex: an owner above the ceiling with two waiters, one of which times out, goes on at the ceiling. |
| Mutex.OwnerInherits | kernel/mutex.c:99-263 | Over every run on one mutex, whatever the priorities and the ceiling: the owner runs at the higher of its own priority and the first waiter's under the ceiling, except that an owner above the ceiling runs at the ceiling while the last timeout left others waiting; nobody else's priority is touched. |
| Mutex.NestingRestores | kernel/mutex.c:212-263 | If all releases are in reverse order, a thread that holds no mutex has the priority it had before its first lock. |
| Mutex.LastReleaseDecides | kernel/mutex.c:121-263 | Over every run on any number of mutexes released in any order, a thread that holds none runs at the priority it had when it took the mutex it released last, so it is back at its own iff it took that mutex at its own. |
| Mutex.OutOfOrderKeepsBoost | kernel/mutex.c:212-263 | A schedule on which it is not back: boosted through the first mutex, it takes a second and releases the first before it. |
| MutexCalls.LockOutcome | kernel/mutex.c:121-169 | The caller gets the mutex iff it is free or the caller's own, with the count one higher. Another's is refused without effect iff the caller may not wait; else the caller joins the queue and the owner's priority becomes the caller's, under the ceiling, if that is higher. |
| MutexCalls.UnlockOutcome | kernel/mutex.c:212-263 | An inner unlock only counts down; the last one restores the owner's priority and passes the mutex to the first waiter with count 1, or frees it. |
| MutexCalls.TimeOutOutcome | kernel/mutex.c:182-202 | Only that waiter leaves; only the owner's priority changes, to its own or the first remaining waiter's, under the ceiling. |
| MutexCalls.OwnedTillMatched | kernel/mutex.c:121-263 | Over every run the count is one more than the owner's locks less its unlocks since it took the mutex, and the mutex passes on iff the owner's unlock brings this to 0. |
| Mutex.KMutex.constructor | kernel/mutex.c:71-79 | A new mutex is free. |
| Mutex.KMutex.Lock | kernel/mutex.c:121-169 | In place, in every reachable state, also with the owner dropped to the ceiling: the owner ends at the priority `OwnerInherits` states. |
| Mutex.KMutex.Unlock | kernel/mutex.c:212-263 | In place, in every reachable state; a new owner runs at the priority due to it. |
| Mutex.KMutex.WaiterTimesOut | kernel/mutex.c:182-202 | In place; the owner ends at the priority `OwnerInherits` states, which is the one due to it under the exact condition. |
| MailboxRuns.DisposeKeeps | kernel/mailbox.c:175-222 | Disposal completes a matched message once: its sender learns who received it, the receiver's info and the size, or its descriptor and semaphore are given back; disposing again changes nothing. |
| MailboxRuns.DataGetKeeps | kernel/mailbox.c:339-353 | Retrieving completes the message once, at min(sent, requested), and frees its block; discarding completes it at 0. |
| MailboxRuns.DataBlockGetKeeps | kernel/mailbox.c:355-403 | The same for a block, which is handed over or freed, never both; a failed allocation changes nothing. |
| MailboxRuns.DataCheckKeeps | kernel/mailbox.c:405-418 | A receiver with a buffer, or of an empty message, completes it at once; otherwise its sender has learnt nothing. |
| MailboxRuns.PutComplete | kernel/mailbox.c:238-307 | After a send no sender and receiver wait of which each named the other or anybody. |
| MailboxRuns.GetKeeps | kernel/mailbox.c:420-466 | After a receive neither, and all books balance. |
| MailboxRuns.AsyncPutKeeps | kernel/mailbox.c:318-337 | An asynchronous send takes a descriptor and keeps the pool's total; without one its caller waits. |
| MailboxRuns.EveryRunIsSafe | kernel/mailbox.c:123-466 | In every state of every run: of every waiting sender and receiver one names somebody else; every matched pair named each other or anybody, and each sees who the other is and the other's info; every send is in exactly one stage; semaphores given and descriptors add up; a sender learns 0 if its message was discarded and min(sent, requested) if not. |
| MailboxCalls.PutOutcome | kernel/mailbox.c:238-307 | A send goes to the first waiting receiver such that each named the other or anybody; without one it fails with -ENOMSG, if it may not wait, or waits behind every sender it does not outrank. |
| MailboxCalls.AsyncPutOutcome | kernel/mailbox.c:318-337 | An asynchronous send is that with the descriptor it takes; without one nothing happens. |
| MailboxCalls.GetOutcome | kernel/mailbox.c:420-466 | The same for a receive and the waiting senders; with a buffer, or for an empty message, the send is completed at once, else it is kept. |
| MailboxCalls.TimeoutOutcome | kernel/mailbox.c:304-306 | A timed-out send or receive leaves its queue with -EAGAIN. |
| MailboxCalls.EveryMessageIsReal | kernel/mailbox.c:123-466 | In every run, every message that waits, was received or is complete is one that was sent, as it was sent, and completed ones went to their receiver; every receive waits, got exactly one message, or failed. |
| Mailbox.KMbox.constructor | kernel/mailbox.c:104-109 | A new mailbox satisfies the invariant. |
| Mailbox.KMbox.MessagePut | kernel/mailbox.c:238-307 | The walk finds the first receiver such that each named the other or anybody, and matches iff there is one. |
| Mailbox.KMbox.Put | kernel/mailbox.c:309-316 | In place, with the invariant kept. |
| Mailbox.KMbox.AsyncPut | kernel/mailbox.c:318-337 | In place, with the invariant kept; sends iff a descriptor is free. |
| Mailbox.KMbox.Get | kernel/mailbox.c:420-466 | The walk finds the first sender such that each named the other or anybody, and matches iff there is one; the invariant is kept. |
| Mailbox.KMbox.Retrieve | kernel/mailbox.c:339-353 | In place, with the invariant kept; the message is complete afterwards, at the right size. |
| Mailbox.KMbox.RetrieveBlock | kernel/mailbox.c:355-403 | In place, with the invariant kept; succeeds iff discarding, or a block is attached or could be allocated. |
| Mailbox.KMbox.SenderTimesOut | kernel/mailbox.c:295-306 | In place: the waiting send fails with -EAGAIN, and the invariant is kept. |
| Mailbox.KMbox.ReceiverTimesOut | kernel/mailbox.c:452-466 | In place: the waiting receive fails with -EAGAIN, and the invariant is kept. |
| MsgQueue.PutKeeps | kernel/msg_q.c:111-153 | A put finds only a reader to hand its message to. |
| MsgQueue.GetKeeps | kernel/msg_q.c:186-234 | A get finds only a writer to refill from. |
| MsgQueue.EveryRunIsFifo | kernel/msg_q.c:111-263 | Over every run: the messages taken are, in order, those that left, delivered or purged, and then the ring; readers wait only at an empty ring and writers at a full one, so that with room for a message they never wait together; no call touches the wrong kind. |
| MsgQueue.EveryDeliveryIsReceived | kernel/msg_q.c:111-263 | Over every run, what successful receives returned is what was delivered and what successful sends gave is what was taken, both in order. |
| MsgQueue.NoRoomMixesWaiters | kernel/msg_q.c:111-234 | With room for none, a reader and a writer wait together. |
| MsgQueue.PutOutcome | kernel/msg_q.c:111-153 | A put succeeds iff the ring has room: the message goes to the first waiter, a reader, or to the end of the ring. On a full ring it fails with -ENOMSG iff it may not wait, else it waits, in priority order. |
| MsgQueue.GetOutcome | kernel/msg_q.c:186-234 | A get succeeds iff the ring is not empty, with its first message; the first waiter, a writer, then succeeds too and its message ends the ring. On an empty ring it fails with -ENOMSG or waits. |
| MsgQueue.PurgeOutcome | kernel/msg_q.c:248-263 | Every waiter fails with -ENOMSG in queue order, and every stored message is dropped in order. |
| MsgQueue.TimeoutOutcome | kernel/msg_q.c:144-148 | A waiter that times out leaves with -EAGAIN; nothing else changes. |
| MsgQueue.EveryCallIsAnswered | kernel/msg_q.c:111-263 | In every run, every thread's calls are answered in order, each by an answer of its kind and for its message, all but at most one, in which the thread waits; a call that may not wait never times out. |
| MsgQueue.KMsgq.constructor | kernel/msg_q.c:50-65 | A new queue is empty and satisfies the invariant. |
| MsgQueue.KMsgq.Put | kernel/msg_q.c:111-153 | In place over the wrapping write pointer, with the invariant kept. |
| MsgQueue.KMsgq.Get | kernel/msg_q.c:186-234 | In place over both pointers, with the invariant kept. |
| MsgQueue.KMsgq.Purge | kernel/msg_q.c:248-263 | In place; every waiter fails in queue order, every stored message is purged and the ring is empty. |
| MsgQueue.KMsgq.WaiterTimesOut | kernel/msg_q.c:146-151 | In place: the waiter fails and the invariant is kept. |
| MemSlab.AllocKeeps | kernel/mem_slab.c:86-113 | An allocation keeps the books: blocks, holders, requests and the count in use. |
| MemSlab.FreeKeeps | kernel/mem_slab.c:115-130 | A free keeps the books; with a waiter the block goes to the first one, which no other outranks, and to nobody else, and the number in use does not change. |
| MemSlab.EveryRunConserves | kernel/mem_slab.c:32-130 | Over every run: each block of the buffer is free or in exactly one thread's hands, and was given out as often as it was freed or is in use; each thread's requests each got one block, were refused, timed out or wait; the count in use is exact; nobody waits while a block is free; waiters are in priority order. |
| MemSlab.AllocOutcome | kernel/mem_slab.c:86-113 | An allocation succeeds iff a block is free, with the head of the free list, now in the caller's hands. Otherwise -ENOMEM iff the caller may not wait, else it waits, in priority order. |
| MemSlab.FreeOutcome | kernel/mem_slab.c:115-130 | A freed block goes to the first waiter, else to the head of the free list; a waiter that times out is refused with -EAGAIN. |
| MemSlab.KMemSlab.constructor | kernel/mem_slab.c:32-45 | A new slab has all blocks free and satisfies the invariant. |
| MemSlab.KMemSlab.CreateFreeList | kernel/mem_slab.c:32-45 | The loop threads all blocks onto the free list, the last one first. |
| MemSlab.KMemSlab.Alloc | kernel/mem_slab.c:86-113 | In place over the links, with the invariant kept. |
| MemSlab.KMemSlab.Free | kernel/mem_slab.c:115-130 | In place over the links, with the invariant kept. |
| MemSlab.KMemSlab.WaiterTimesOut | kernel/mem_slab.c:104-110 | In place: the waiting request is refused, and the invariant is kept. |
| Timeouts.AddMeaning | kernel/include/timeout_q.h:195-262 | An add gives the newcomer its ticks, in front of those due at the same tick, and changes nobody else's time. |
| Timeouts.AbortMeaning | kernel/include/timeout_q.h:120-138 | An abort changes nobody else's time. |
| Timeouts.AnnounceMeaning | kernel/sys_clock.c:170-253 | Announcing removes exactly the entries due, onto the expired list in reverse queue order, and takes exactly the ticks off each survivor. |
| Timeouts.AnnounceTwice | kernel/sys_clock.c:170-253 | Announcing a, then b, is announcing a + b. |
| Timeouts.AnnounceKeeps | kernel/sys_clock.c:170-253 | Announcing fires exactly the timeouts whose deadline has come. |
| Timeouts.EveryRunIsOnTime | kernel/sys_clock.c:170-253 | In every run the queue is exactly the active timeouts, each due at its deadline, none overdue; every expiry comes in the announcement that first takes the clock to its deadline. |
| Timeouts.EveryTimeoutFiresOnce | kernel/include/timeout_q.h:83-262 | In every run each timeout added has fired once, was aborted once, or is still counting down. |
| Timeouts.AddOutcome | kernel/include/timeout_q.h:195-262 | The timeout is due its ticks from now; with none it has fired. |
| Timeouts.AbortOutcome | kernel/include/timeout_q.h:120-138 | Only that timeout leaves the queue; all others keep their deadlines. |
| Timeouts.AnnounceOutcome | kernel/sys_clock.c:170-253 | The clock advances; exactly the timeouts whose deadline has come fire, recorded with it, and every other keeps its deadline. |
| Timeouts.TimeoutQueue.AddTimeout | kernel/include/timeout_q.h:195-262 | In place: 0 ticks are handled at once; else the newcomer has its ticks and its deadline and nobody else's time changes; the invariant is kept. |
| Timeouts.TimeoutQueue.AbortTimeout | kernel/include/timeout_q.h:120-138 | In place; every other timeout keeps its remaining time and deadline; the invariant is kept. |
| Timeouts.TimeoutQueue.AnnounceTicks | kernel/sys_clock.c:311-330 | In place: the clock advances and exactly the timeouts whose deadline has come expire; the invariant is kept. |
| Timeouts.TimeoutQueue.HandleTimeouts | kernel/sys_clock.c:170-253 | The loop with its signed count computes what announcing means. |
| Timeouts.TimeoutQueue.Remaining | kernel/timer.c:231-256 | The sum over the list is the time to the deadline, converted to milliseconds; 0 for an inactive timeout. |
| WorkQueue.CancelKeeps | kernel/work_q.c:118-144 | A cancel succeeds iff the item is attached and no worker has taken it; the item is then detached, and neither counting nor pending. |
| WorkQueue.SubmitKeeps | kernel/work_q.c:77-116 | A delayed submission keeps the invariant, errors included. |
| WorkQueue.ExpireKeeps | kernel/work_q.c:59-66 | A countdown that ends makes the item pending. |
| WorkQueue.ProcessKeeps | kernel/work_q.c:18-47 | Every item a worker gets is pending, and its handler runs once. |
| WorkQueue.EveryRunIsExact | kernel/work_q.c:18-144 | Over every run of the delayed-work calls: no item is counting down and pending at once; it is in one place at most; its handler ran once for each time it became pending, but for those cancelled and the one still pending. |
| WorkQueue.CancelOutcome | kernel/work_q.c:118-144 | A cancel fails, without effect, iff the item is detached or in its worker's hands; else a pending item is taken out of its list, a countdown stopped, and the item detached. |
| WorkQueue.SubmitOutcome | kernel/work_q.c:77-116 | A submission is refused, without effect, with -EADDRINUSE for an item of another queue and -EINVAL for one in its worker's hands. Else an earlier submission is cancelled and the item is pending at the end of the queue, or counting down, as the delay says. |
| WorkQueue.ExpireOutcome | kernel/work_q.c:59-66 | A countdown that ends makes its item pending at the end of its queue, or puts it in the hands of a waiting worker. |
| WorkQueue.WorkerOutcome | kernel/work_q.c:18-47 | A worker takes the first item of its list, or waits; what it took it runs once. |
| WorkQueue.WorkSystem.SubmitWorkTo | include/kernel.h:2631-2637 | In place; the item is pending afterwards, once more than before unless it was already, and a delayed item submitted to its queue keeps the invariant. |
| WorkQueue.WorkSystem.CancelWork | kernel/work_q.c:118-144 | In place, with the invariant kept. |
| WorkQueue.WorkSystem.SubmitDelayed | kernel/work_q.c:77-116 | In place, with the invariant kept. |
| WorkQueue.WorkSystem.CountdownEnds | kernel/work_q.c:59-66 | In place, with the invariant kept: the item is pending afterwards. |
| WorkQueue.WorkSystem.WorkerTurn | kernel/work_q.c:18-47 | One turn of the worker from the top runs the first item of the list, or pends. |
| WorkQueue.WorkSystem.RunHeld | kernel/work_q.c:18-47 | An item got from the list, or handed over while the worker was pended, is run once and no longer pending. |
| Ticks.EnoughTicks | include/kernel.h:1358-1380 | The ticks last at least as long as the milliseconds. |
| Ticks.RoundTripNeverShortens | include/kernel.h:1358-1399 | Converting to ticks and back never gives fewer milliseconds. |
| Ticks.SimpleIsPrecise | include/kernel.h:1358-1399 | At a rate that divides 1000 the fast formula equals the 64-bit one, and the round trip overshoots by less than a tick. |
| Ticks.CastIsExact | include/kernel.h:1358-1380 | Up to 1000 ticks a second the cast to 32 bits loses nothing. |
| Ticks.CastShortensIff | include/kernel.h:1358-1380 | At every valid rate, the ticks after the cast last long enough iff the milliseconds' cycles are within what 2^31 - 1 ticks cover. |
| Ticks.CastShortensIffExact | include/kernel.h:1358-1380 | Where the rate divides the cycles exactly: iff ms * rate is at most 1000 * (2^31 - 1). |
| Ticks.EighteenHoursWrap | include/kernel.h:1358-1380 | 65,536,000 ms at 32768 ticks a second come out as -2^31. |
| Ticks.TicksMeaning | include/kernel.h:1358-1380 | The ticks are the fewest whose cycles cover those of the milliseconds. |
| Ticks.MillisecondsMeaning | include/kernel.h:1382-1399 | The milliseconds are the ticks' time rounded down, by both formulas at a rate that divides 1000. |
| Ticks.CastRange | include/kernel.h:1358-1380 | The cast keeps the value modulo 2^32 and puts it in the signed 32-bit range. |

## Left out

- SMP, and thread deadlines: the cache and comparison rules proved are the uniprocessor ones.
- Time slicing counters, tickless reprogramming and idling: driver calls outside the model.
- User mode, syscall handlers, poll, memory pools, and the initialisers that allocate or free the buffer.
- Semaphores, stacks and alerts, and the other calls of `kernel/queue.c`: easier instances of the same hand-offs. Of that file only append and get are here, inside delayed work.
- Interrupt windows inside `handle_timeouts` and its expiry handlers: an announcement is one step.
- Waiters' descriptors and user buffers are values in the queues, so aliasing between a caller's buffer and the kernel's pointer into it is not captured. The tree is its in-order sequence; rebalancing is not modelled.
- Mailbox data: sizes, blocks and completion are modelled, the copied bytes are not.
- A caller that waits for an asynchronous descriptor tries again once one is free; that the stack hands it to the first such caller is not modelled.
- Mutex calls are atomic. The code means this by locking the scheduler, although setting a priority reschedules on its own. A timeout whose mutex has meanwhile become free is not modelled; that path assumes an owner.
- A pended thread whose priority changes stays where it is in its wait queue, so the orders proved are for priorities fixed while pended.
- Unlinking a thread that is not on a queue leaves the queue alone in the model; on the kernel's linked list it is undefined.
- QueueRuns.TreeIsList: only while the order-key counter has not come round; `TreeIsListWhileFew` says so in terms of the calls, `RbAddAgrees` gives the exact condition of each add and `TreeStaysOrdered` what holds across wraps.
- QueueRuns.TreeStaysOrdered: for fewer than 2^32 - 1 queued threads, more than memory holds.
- QueueRuns.MultiqueueIsList: for priorities within the 32 lists, as the build requires.
- Scheduler.CacheIsBest: a queued thread's priority and state bits change only through the scheduler's own calls; the depth of locking is counted without the 8-bit wrap its assertion rules out.
- PipeWindow.PutWindowIsSafe: for one timeout during the call, of a waiter on the queue the call serves.
- PipeWindow.GetWindowIsSafe: likewise.
- PipeReads.ReadsAreInOrder: a thread that waits in a pipe makes no calls; `EveryRunIsSafe` does not need this.
- PipeCalls.EveryCallIsAnswered: likewise.
- MsgQueue.EveryCallIsAnswered: likewise for a message queue.
- PipeWrites.WritesArePrefixes: likewise, and the asynchronous descriptors of the pool are different ones.
