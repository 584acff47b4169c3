# A verified model of the coroutine kernel

The repository is a small coroutine kernel: coroutines are resumed by CPUs from a ready queue,
wait for each other on a coroutine mutex, wait for descriptors and timers in wait queues that
event loops (ICUs) serve from epoll, and exchange bytes through a ring buffer. This project
models the parts in which several pieces of state have to agree, and proves what they promise.

| file | models |
|---|---|
| `Options.dfy` | the shared type of a value that may be absent |
| `Mutex.dfy` | the coroutine mutex, one atomic access a step, any number of coroutines |
| `MpmcHeap.dfy` | `MpmcQueue` as linked nodes on the heap, used from one thread |
| `MpmcConcurrent.dfy` | `MpmcQueue` with any number of threads, one shared access a step |
| `FileWaitQueue.dfy` | `FileWQ`: dispatching cached readiness to waiters, and the callbacks' contract |
| `IcuLoop.dfy` | `ICU::loop`, `wakeWQ` and `waitIRQ` over the `FileWQ` objects |
| `EventLoop.dfy` | one event loop against a kernel that reports readiness by edges, fully interleaved |
| `PostedWork.dfy` | handing work to an event loop through `queueInLoop` and the eventfd |
| `TimeWaitQueue.dfy` | `TimeWQ`: the sorted timer list and its timerfd |
| `TimedWait.dfy` | a wait with a timeout, which has an item in both kinds of queue |
| `LoadTable.dfy` | `updateIRQ`/`removeIRQ`: the load table with its back-pointers |
| `Scheduler.dfy` | `wakeUpReady`/`schedule`: wakers, CPUs, the ready queue and its condition variable |
| `RingBuffer.dfy`, `SocketWrite.dfy`, `EchoRelay.dfy` | the byte stream: `Buffer`, the resumable `writev`, `Connection`, `EchoCtx::run` |

Where the code runs in one thread and updates objects in place, the model is a class whose methods
have the source's loops and are tied to a specification function. Where threads interleave, the
model is a state, an action for each atomic access and a function `Apply`; a run is a sequence of
actions, and the main results hold in every state of every run.

## Where the code does less than it promises

Each of these is proved with the exact condition under which the promise holds.

- `MutexProtocol.UnlockSafeExactlyForHolder`: an unlock keeps the mutex sound if and only if the
  caller holds it. A failing compare-and-swap overwrites the caller's own tid with the holder's, so
  a second stray unlock succeeds; from every state with a holder and an idle coroutine this leads to
  two holders (`StrayUnlockLeadsToTwoHolders`).
- `MpmcConcurrent.ExchangeSafeExactlyOutsideWindow`: a dequeuer's exchange of `sTail_` is safe if and
  only if no enqueuer stands between its comparison of `sHead_` with `sTail_` and its store of
  `sTail_`. The code leaves these two accesses apart, and the window opens with two threads
  (`WindowCanOpen`). Then a node that nobody enqueued stands behind the last element, and a dequeue
  returns an element that was never enqueued (`GarbageIsDequeued`). The theorems about runs are over
  the runs without such an exchange, which one atomic compare-and-set would enforce.
- `TimedWait.StepKeepsExactlyWithoutBlock`: a timed wait is exactly-once if and only if its callback
  never stays waiting. The callback wrapper erases the timer item in any case, so that after one that
  does stay waiting the timeout is lost and an erased iterator is used (`BlockingLosesTheTimeout`).
- `LoadTable.FreshIsValidExactly`: `pos` is never initialised. With two ICUs or more every `pos` that
  is read is nevertheless right; with one ICU it is right if and only if it happens to be zero
  (`SingleIcuReadsGarbage`).
- `PostedWork.ReadSafeExactlyWhenDrained`: `ICU::loop` drains the posted functions before it reads the
  eventfd. The read leaves no function behind if and only if none is queued at that moment or a
  poster still has its write to do; otherwise the loop can sleep on it (`WorkCanBeLeftBehind`).
- `EchoRelay.SentTwiceExactlyAfterFailure`: the relay ignores the result of `send`, which gives up no
  bytes unless it completes. Bytes go out twice if and only if a write fails after the kernel has
  accepted part of it, not for a hang-up, and a later write gets through in part; after a refusal for
  RDHUP nothing is sent any more, as the dispatcher never clears that bit
  (`FileWaitQueue.HangUpStaysCached`). `FirstByteSentTwice` is such a run. What is sent and what is
  still to be sent make up what was received if and only if no write is refused partway
  (`ConservedExactly`).
- `FileWaitQueue.NoProgressExactlyWithoutContract`: a dispatch pass makes no progress at an item if
  and only if its callback breaks the contract. The contract is: staying waiting implies exhausted,
  and a call for RDHUP alone does not stay waiting. `SocketCallbacksKeepContract` says when the
  callbacks of `ASocket.cpp` keep it.

## Model

| member | source | states |
|---|---|---|
| MutexProtocol.MutualExclusion | CoLib/CoKernel/CoKernel.h:88-174 | in every state of every run in which holders unlock, at most one coroutine acquires, holds, releases or hands over the mutex; `tid_` names the holder; `waiter_` equals incremented-not-enqueued plus enqueued plus the token, without wrap-around |
| MutexProtocol.NextInv | CoLib/CoKernel/CoKernel.h:88-174 | every disciplined action from a state with the accounting invariant leads to one with it, and moves the token as stated |
| MutexProtocol.RunInv | CoLib/CoKernel/CoKernel.h:88-174 | the invariant holds after every disciplined run |
| MutexProtocol.WaiterBound | CoLib/CoKernel/MuCore.h:12-15 | the coroutines counted by `waiter_` are distinct and fewer than 2^31, so the 32-bit counter never wraps |
| MutexProtocol.HandOffNeverSticks | CoLib/CoKernel/CoKernel.h:164-165 | while an unlocker spins in `dequeue`, an item is queued or some coroutine has an enabled enqueue that queues one |
| MutexProtocol.HandOffCompletes | CoLib/CoKernel/CoKernel.h:164-167 | once an item is queued, three steps of the unlocker make exactly its owner the holder, take that item out and change nothing else |
| MutexProtocol.TryLockOnlyWhenFree | CoLib/CoKernel/CoKernel.h:122-131 | a try-lock succeeds if and only if every coroutine is idle, and then holds one step later; one that fails changes nothing: no barging |
| MutexProtocol.SpawnAddsIdle | CoLib/CoRo/Task.h:20-20 | a new coroutine has a tid nobody has, is idle and disturbs nobody |
| MutexProtocol.LockCompletes | CoLib/CoKernel/CoKernel.h:88-101 | from every reachable state a lock that nothing comes between makes its caller the holder if the mutex is free, and otherwise the last in the queue, and changes nothing else |
| MutexProtocol.UnlockReleases | CoLib/CoKernel/CoKernel.h:158-162 | from every reachable state with a holder its unlock clears `tid_`, decrements `waiter_` and goes on to `dequeue` exactly if `waiter_` was above one |
| MutexProtocol.UnlockLeadsToNextHolder | CoLib/CoKernel/CoKernel.h:155-173 | from every reachable state with a holder its unlock leads, by its own steps and at most one of a coroutine about to enqueue, to the mutex being free if all others are idle and otherwise to exactly the first in the queue, or that coroutine, holding it |
| MutexProtocol.QuiescentIsServed | CoLib/CoKernel/CoKernel.h:88-174 | when no step can change anything, every coroutine is idle, parked or holding, and if any is not idle one really holds the mutex |
| MutexProtocol.FifoHandOff | CoLib/CoKernel/CoKernel.h:161-167 | over every run from every reachable state the coroutine at queue index k gets the (k+1)-th later grant, and the queue is what was left of it followed by the arrivals |
| MutexProtocol.OrderedHandOff | CoLib/CoKernel/CoKernel.h:97-98 | grants and arrivals of any run lead from the queue before to the queue after in strict arrival order |
| MutexProtocol.UnlockSafeExactlyForHolder | CoLib/CoKernel/CoKernel.h:158-171 | an unlock keeps the invariant if and only if its caller holds the mutex; then it clears `tid_` and goes on to the decrement, otherwise it changes the caller's own tid alone |
| MutexProtocol.StrayUnlockBreaksExclusion | CoLib/CoKernel/CoKernel.h:158-171 | a concrete run with a stray unlock in which two coroutines hold the mutex |
| MutexProtocol.StrayUnlockLeadsToTwoHolders | CoLib/CoKernel/CoKernel.h:158-171 | from every reachable state with a holder and an idle coroutine, unlocks by the idle one go on to a state with two holders |
| MutexProtocol.MuCore.LockSuspend | CoLib/CoKernel/CoKernel.h:88-101 | run without interruption, a lock adds the caller to the queue of owners, and suspends it exactly if there is one before it |
| MutexProtocol.MuCore.TryLockSuspend | CoLib/CoKernel/CoKernel.h:122-137 | a try-lock makes the caller the owner exactly if there is none, and otherwise changes nothing |
| MutexProtocol.MuCore.UnlockSuspend | CoLib/CoKernel/CoKernel.h:155-173 | an unlock by the first owner removes it and wakes the next; by anybody else it changes only the caller's own tid |
| MutexProtocol.MuCore.HandOver | CoLib/CoKernel/CoKernel.h:164-167 | the spin and the stores after it make the first waiter the first owner and keep the order of the others |
| MpmcHeap.MpmcQueue.constructor | CoLib/utils/MpmcQueue.h:21-25 | a new queue is valid and empty, with two fresh nodes |
| MpmcHeap.MpmcQueue.Enqueue | CoLib/utils/MpmcQueue.h:43-65 | the element is appended; both chains stay acyclic, disjoint, null-terminated; no node is forgotten and one is allocated only when occupancy exceeds its peak |
| MpmcHeap.MpmcQueue.TakeSpare | CoLib/utils/MpmcQueue.h:47-60 | the spare head is taken out of both lists, with a fresh node in its stead exactly if it was the last, and no node is forgotten |
| MpmcHeap.MpmcQueue.AppendUsed | CoLib/utils/MpmcQueue.h:61-64 | exchange and link put a held node at the used tail and restore validity |
| MpmcHeap.MpmcQueue.Dequeue | CoLib/utils/MpmcQueue.h:67-88 | false exactly on an empty queue; otherwise the oldest element, and its dummy is recycled without allocation |
| MpmcHeap.MpmcQueue.TakeUsed | CoLib/utils/MpmcQueue.h:69-83 | the used head is taken out of both lists and the element behind it is the oldest |
| MpmcHeap.MpmcQueue.Population | CoLib/utils/MpmcQueue.h:43-88 | the nodes ever allocated are peak occupancy plus two |
| MpmcHeap.MpmcQueue.Destroy | CoLib/utils/MpmcQueue.h:26-39 | the destructor deletes every allocated node, each exactly once |
| MpmcConcurrent.StepRefinesAtomicQueue | CoLib/utils/MpmcQueue.h:43-88 | every step of every thread is a step of an atomic FIFO: an enqueue takes effect at its exchange of `uTail_`, a dequeue at its store of `uHead_`, `false` only at a moment the queue is empty |
| MpmcConcurrent.FifoOverRuns | CoLib/utils/MpmcQueue.h:43-88 | over every quiet run, what left followed by what is in is what was in followed by what entered |
| MpmcConcurrent.EveryNodeInOnePlace | CoLib/utils/MpmcQueue.h:43-88 | in every state of every quiet run each allocated node is once in one of the lists or in one thread's hands |
| MpmcConcurrent.SpinningDequeuerHasLinker | CoLib/utils/MpmcQueue.h:73-81 | a dequeuer that looks at a non-empty queue whose link is missing waits for exactly one thread, an enqueuer whose enabled next step stores that link |
| MpmcConcurrent.SpinningEnqueuerHasLinker | CoLib/utils/MpmcQueue.h:49-58 | an enqueuer that finds the spare link missing behind a longer spare list waits for exactly one thread, a dequeuer whose enabled next step stores it |
| MpmcConcurrent.SoloFinishes | CoLib/utils/MpmcQueue.h:43-88 | an operation whose lock is free and that waits for nobody's link ends by at most nine steps of its own from wherever it is, and is one step on an atomic FIFO altogether |
| MpmcConcurrent.EnqueueAlone | CoLib/utils/MpmcQueue.h:43-65 | a call of `enqueue` that is left alone, with a recycled node or a new one, appends exactly its element |
| MpmcConcurrent.DequeueAlone | CoLib/utils/MpmcQueue.h:67-88 | a call of `dequeue` that is left alone takes out and returns the first element, or reports the empty queue |
| MpmcConcurrent.MissingLinkHasOneEnqueuer | CoLib/utils/MpmcQueue.h:63-64 | every missing link of the used list belongs to exactly one enqueuer between exchange and store |
| MpmcConcurrent.NextInv | CoLib/utils/MpmcQueue.h:43-88 | every quiet action keeps the structural invariant of both lists and all threads |
| MpmcConcurrent.RunInv | CoLib/utils/MpmcQueue.h:43-88 | the invariant holds after every quiet run |
| MpmcConcurrent.InitInv | CoLib/utils/MpmcQueue.h:21-25 | the constructor's state has the invariant |
| MpmcConcurrent.ExchangeSafeExactlyOutsideWindow | CoLib/utils/MpmcQueue.h:52-55 | a dequeuer's exchange of `sTail_` keeps the invariant if and only if no enqueuer is between comparison and store |
| MpmcConcurrent.OpenWindowBreaksQueue | CoLib/utils/MpmcQueue.h:52-86 | from every reachable state with the window open, eight steps put a node nobody enqueued behind the last element |
| MpmcConcurrent.WindowCanOpen | CoLib/utils/MpmcQueue.h:52-85 | two threads reach a state with the window open |
| MpmcConcurrent.QueueCanBreak | CoLib/utils/MpmcQueue.h:52-86 | so a run of the code as written ends with a node nobody enqueued behind the last element |
| MpmcConcurrent.GarbageIsDequeued | CoLib/utils/MpmcQueue.h:67-88 | and goes on to a dequeue that succeeds with an element that nobody ever enqueued |
| MpmcConcurrent.WholeDequeue | CoLib/utils/MpmcQueue.h:67-88 | an undisturbed dequeue takes whatever the head's link points to, recycles the old head and returns that node's data |
| FileWaitQueue.Shrinks | CoLib/CoKernel/irq/FileWQ.cpp:21-25 | a callback that keeps the contract and stays waiting uses up a readiness bit: why the pass ends |
| FileWaitQueue.NoProgressExactlyWithoutContract | CoLib/CoKernel/irq/FileWQ.cpp:21-26 | the turn of an item that stays waiting changes nothing if and only if its answer breaks the contract |
| FileWaitQueue.PassLeavesNothingReady | CoLib/CoKernel/irq/FileWQ.cpp:11-50 | after a pass no waiter left has its mask, or RDHUP, in the cached readiness |
| FileWaitQueue.PassServesOldestFirst | CoLib/CoKernel/irq/FileWQ.cpp:17-49 | without RDHUP, what a pass completes of a mask followed by what it leaves of it is what there was, in arrival order |
| FileWaitQueue.NotReadyNotServed | CoLib/CoKernel/irq/FileWQ.cpp:17-49 | waiters of a mask without cached readiness are all passed by |
| FileWaitQueue.ReadersAndWritersOldestFirst | CoLib/CoKernel/irq/FileWQ.cpp:17-49 | with the two masks in use and no RDHUP, readers and writers are each completed oldest first |
| FileWaitQueue.PassConserves | CoLib/CoKernel/irq/FileWQ.cpp:11-50 | nobody is lost or doubled by a pass |
| FileWaitQueue.CompletedWereReady | CoLib/CoKernel/irq/FileWQ.cpp:17-45 | nobody is completed without cached readiness that concerns it |
| FileWaitQueue.HangUpStaysCached | CoLib/CoKernel/irq/FileWQ.cpp:22-25 | a pass never clears a cached RDHUP |
| FileWaitQueue.PassIsLogged | CoLib/CoKernel/irq/FileWQ.cpp:17-36 | a pass is a sequence of callback calls, each with exactly the cached bits that concern its item, each exhausted one clearing its item's mask whether it stays waiting or not; the items with callbacks it completes are those whose calls do not stay waiting, in order |
| FileWaitQueue.SocketCallbacksKeepContract | CoLib/ASocket.cpp:30-103 | the callbacks of accept and readv break the contract exactly when the kernel would block a call made for a hang-up alone; that of connect never does; their results are those of the system call, and of them only EWOULDBLOCK stays waiting |
| FileWaitQueue.FileWQ.Wakeup | CoLib/CoKernel/irq/FileWQ.cpp:11-50 | the loop terminates and leaves exactly the waiters and the readiness of the specification pass, and yields the handles of the completed ones in order |
| FileWaitQueue.FileWQ.AddWait | CoLib/CoKernel/irq/FileWQ.h:39-49 | the waiter goes to the end of the list |
| FileWaitQueue.FileWQ.DelWait | CoLib/CoKernel/irq/FileWQ.h:58-61 | exactly the item at the iterator leaves |
| FileWaitQueue.FileWQ.AddREvents | CoLib/CoKernel/irq/IRQAbs.h:25-28 | readiness accumulates |
| FileWaitQueue.FileWQ.Ask | CoLib/CoKernel/irq/FileWQ.cpp:19-26 | the callback is called with the bits that concern it, and its mask is cleared exactly if it answers exhausted |
| FileWaitQueue.FileWQ.Serve | CoLib/CoKernel/irq/FileWQ.cpp:17-45 | a turn at an item that is concerned advances the specified pass, and shortens the list or uses up readiness |
| FileWaitQueue.FileWQ.Complete | CoLib/CoKernel/irq/FileWQ.cpp:28-33 | erases the item and yields its handle |
| IcuLoop.ICU.WakeWQ | CoLib/CoKernel/comp/ICU.h:82-89 | the queue is marked, and listed once |
| IcuLoop.ICU.Drain | CoLib/CoKernel/comp/ICU.cpp:54-58 | all posted registrations are done in order, and every queue that got a waiter is listed |
| IcuLoop.AddedByEach | CoLib/CoKernel/comp/ICU.cpp:54-60 | each posted registration adds its own waiter to its own queue alone, behind those posted before it |
| IcuLoop.ICU.Dispatched | CoLib/CoKernel/comp/ICU.cpp:59-69 | every listed queue is dispatched by its pass and unmarked; afterwards no queue of the loop has a waiter with cached readiness; what is woken are the handles that each queue's pass yields, all of them, queue after queue |
| IcuLoop.YieldedAt | CoLib/CoKernel/comp/ICU.cpp:61-70 | the handles woken in a round fall into consecutive pieces, the k-th being exactly what the k-th queue's pass completes |
| IcuLoop.ICU.DispatchNext | CoLib/CoKernel/comp/ICU.cpp:61-67 | one queue's turn advances the round by that queue's pass and touches no other |
| IcuLoop.ICU.WaitIRQ | CoLib/CoKernel/comp/IRQPoll.cpp:28-44 | reported bits are merged into `revents_`, and exactly the reported queues are listed and marked |
| IcuLoop.ICU.Turn | CoLib/CoKernel/comp/ICU.cpp:54-73 | a whole turn keeps the loop's invariant, dispatches exactly the queues marked or given a waiter, wakes all handles their passes yield, queue after queue, and leaves of every queue the readiness its pass leaves plus what is reported |
| EventLoop.NextInv | CoLib/CoKernel/comp/ICU.cpp:54-73 | arrivals, posts, system calls, loop steps and epoll reports all keep: readiness is pending in the kernel, or cached and not about to be cleared |
| EventLoop.LoopInv | CoLib/CoKernel/comp/ICU.cpp:54-73 | every step of the loop itself keeps that invariant |
| EventLoop.AnswerInv | CoLib/CoKernel/irq/FileWQ.cpp:21-35 | clearing readiness after an exhausted answer loses nothing, though data may have arrived since the system call |
| EventLoop.CollectInv | CoLib/CoKernel/comp/IRQPoll.cpp:36-42 | merging the reports keeps the invariant |
| EventLoop.ExpireInv | CoLib/CoKernel/CoKernel.cpp:127-131 | erasing a waiter that timed out keeps it |
| EventLoop.ClearingSafeExactly | CoLib/CoKernel/irq/FileWQ.cpp:22-25 | clearing after an answer forgets no readiness if and only if an exhausted answer is truthful, but for pending edges |
| EventLoop.ReaderTruthfulExactly | CoLib/ASocket.cpp:32-45 | in every run, EWOULDBLOCK from the callback of accept or readv is an answer the loop may rely on if and only if IN was reported and IN is not ready now, though their mask holds PRI as well; their other answers always are |
| EventLoop.NoLostWakeUp | CoLib/CoKernel/comp/ICU.cpp:54-73 | in every run, when the loop is about to wait, whatever concerns a waiter, a hang-up included, and its descriptor is ready for is an edge still to be reported; and no queue is left marked as woken |
| EventLoop.RunInv | CoLib/CoKernel/comp/ICU.cpp:54-73 | the invariant holds after every run |
| EventLoop.WaitersMove | CoLib/CoKernel/comp/ICU.cpp:56-70 | posting adds its waiter at the end, a time-out or a completion takes exactly that waiter out, and no other action, the draining of posted work included, loses, adds or moves one |
| EventLoop.WaitersConserved | CoLib/CoKernel/comp/ICU.cpp:54-73 | over every run each waiter posted is still to be registered, in its queue, or has ended its wait, one of these and once |
| EventLoop.LoopAdvances | CoLib/CoKernel/comp/ICU.cpp:54-73 | every own step and every callback, whatever it answers, brings the loop strictly closer to waiting |
| EventLoop.EveryRunReachesWait | CoLib/CoKernel/comp/ICU.cpp:54-73 | from every state of every run the loop's own steps and callbacks lead to its wait |
| EventLoop.ArrivalIsReported | CoLib/CoKernel/comp/IRQPoll.cpp:28-44 | readiness that arrives while the loop waits can be reported, and then concerns, cached, each waiter it is for, in a queue that is listed |
| EventLoop.CollectTakesAll | CoLib/CoKernel/comp/IRQPoll.cpp:36-42 | every report is merged, marks and lists its queue, in order, and touches no other |
| EventLoop.RegisterReports | CoLib/ASocket.cpp:11-11 | a descriptor that enters the epoll set is reported for what it is ready for then, nobody waits for it yet, and no other descriptor is touched |
| EventLoop.PassIsDispatch | CoLib/CoKernel/irq/FileWQ.cpp:11-50 | whatever the kernel and the posters do between its steps, a pass leaves of its queue what the sequential pass leaves |
| PostedWork.NoWorkLeftBehind | CoLib/CoKernel/comp/ICU.h:32-39 | in every run whose eventfd reads are safe, a function pending while the loop waits is going to wake it |
| PostedWork.ReadSafeExactlyWhenDrained | CoLib/CoKernel/comp/ICU.cpp:54-73 | the walk that reads the eventfd leaves no function behind if and only if the queue is drained or a write is yet to come |
| PostedWork.WorkCanBeLeftBehind | CoLib/CoKernel/comp/ICU.cpp:54-73 | a concrete run in which a function is pending and nothing will wake the loop |
| PostedWork.PostingsConserved | CoLib/CoKernel/comp/ICU.h:32-39 | over every run each function enqueued has been run or is pending, and each poster has written or is going to |
| PostedWork.PostAnnounces | CoLib/CoKernel/comp/ICU.h:32-39 | a call of `queueInLoop` that nothing comes between leaves one function more pending and announced |
| PostedWork.RoundRunsAll | CoLib/CoKernel/comp/ICU.cpp:54-73 | a round from wait to wait that nothing comes between runs all pending functions and resets the eventfd exactly if it was reported |
| TimeWaitQueue.DelayIsExact | CoLib/CoKernel/irq/TimeWQ.cpp:58-76 | the value for timerfd is a proper timespec, never zero, exact in whole microseconds and at least a hundred of them |
| TimeWaitQueue.InsertKeepsOrder | CoLib/CoKernel/irq/TimeWQ.cpp:80-93 | insertion keeps the list sorted and goes behind all timers due no later |
| TimeWaitQueue.SweepTakesExactlyDue | CoLib/CoKernel/irq/TimeWQ.cpp:27-44 | a pass takes exactly the timers that are due |
| TimeWaitQueue.NoTimerLost | CoLib/CoKernel/irq/TimeWQ.cpp:23-114 | in every run a non-empty list is listed, has an expiration to report, or the timerfd is armed no later than the head's deadline or 100us after it was set; so no timer is overdue beyond that while the loop idles |
| TimeWaitQueue.TimersFireOnTime | CoLib/CoKernel/irq/TimeWQ.cpp:23-76 | from every idle state with timers, once the head's deadline and 100us since the last arming have passed, one turn fires exactly the timers that are due and arms for the first that is not |
| TimeWaitQueue.TimersConserved | CoLib/CoKernel/irq/TimeWQ.cpp:23-114 | over every run each timer added is in the list, was deleted or has fired, one of these and once, and none fires before its deadline |
| TimeWaitQueue.DeleteTakesOne | CoLib/CoKernel/irq/TimeWQ.h:48-51 | a deletion takes out exactly the timer at the iterator and leaves the order of the others and what is armed |
| TimeWaitQueue.NextInv | CoLib/CoKernel/irq/TimeWQ.cpp:23-114 | time, additions, deletions, epoll and every part of a pass keep that, with expiry between any two of them |
| TimeWaitQueue.RunInv | CoLib/CoKernel/irq/TimeWQ.cpp:23-114 | it holds after every run |
| TimeWaitQueue.TimeWQ.AddWait | CoLib/CoKernel/irq/TimeWQ.cpp:78-114 | the loop inserts at the specified place, moves no other timer, and re-arms for the new timer exactly when it becomes the head |
| TimeWaitQueue.TimeWQ.DelWait | CoLib/CoKernel/irq/TimeWQ.h:48-51 | exactly the item at the iterator leaves, the others keep their order, and nothing is re-armed |
| TimeWaitQueue.TimeWQ.Wakeup | CoLib/CoKernel/irq/TimeWQ.cpp:23-45 | the loop fires and erases exactly the due timers, yields their non-null handles in deadline order, and arms for the next |
| TimeWaitQueue.TimeWQ.FireDue | CoLib/CoKernel/irq/TimeWQ.cpp:27-44 | the loop fires and erases exactly the due front of the list, in order |
| TimeWaitQueue.SlotSplitsList | CoLib/CoKernel/irq/TimeWQ.cpp:27-44 | that front and the rest are the list split where an insertion of that deadline would go |
| TimeWaitQueue.TimeWQ.ResetTimerfd | CoLib/CoKernel/irq/TimeWQ.cpp:58-76 | arms the timerfd with the specified delay |
| TimedWait.WokenExactlyOnce | CoLib/CoKernel/CoKernel.cpp:110-148 | over every run of callbacks that do not stay waiting, a timed wait is woken once when one side fires, never before, both items are gone, and no erased iterator is used |
| TimedWait.ResultIsOfTheSideThatFired | CoLib/CoKernel/CoKernel.cpp:119-131 | the result is the callback's, or -1 if the timer fired, whatever happens later |
| TimedWait.StepKeepsExactlyWithoutBlock | CoLib/CoKernel/CoKernel.cpp:119-125 | a step keeps the two lists in agreement if and only if it is not a callback that stays waiting |
| TimedWait.BlockingLosesTheTimeout | CoLib/CoKernel/CoKernel.cpp:119-125 | after a callback that stays waiting the wait never times out in any run, and its next firing erases an erased item |
| TimedWait.RunInv | CoLib/CoKernel/CoKernel.cpp:110-148 | the agreement holds after every run without blocking callbacks, and results are final |
| TimedWait.Queues.Await | CoLib/CoKernel/CoKernel.cpp:114-133 | the registration puts an item at the end of the file list and one at the given place of the timer list, and moves nothing else |
| TimedWait.Queues.FilePass | CoLib/CoKernel/CoKernel.cpp:119-126 | a pass of the file queue's loop, its callbacks erasing from the timer list, is a run of the callbacks in list order; it wakes those that do not block and leaves the others in order; the timers of those not called stay, in order |
| TimedWait.Queues.TimerPass | CoLib/CoKernel/CoKernel.cpp:127-132 | a pass of the timer queue's loop, its callbacks erasing from the file list, is a run of the timeouts in list order; it wakes exactly the due ones, and the other file items stay, in order |
| LoadTable.TableStaysRight | CoLib/CoKernel/CoKernel.cpp:250-335 | over every sequence of updateIRQ and removeIRQ from a fresh table of two ICUs or more, or of one whose `pos` is zero, the table stays sorted, a permutation, its loads count the descriptors, and every back-pointer that is read is right |
| LoadTable.FreshIsValidExactly | CoLib/CoKernel/comp/ICU.cpp:10-14 | a fresh table with arbitrary back-pointers is valid if and only if there are two ICUs or more, or the one `pos` is zero |
| LoadTable.SingleIcuReadsGarbage | CoLib/CoKernel/CoKernel.cpp:278-286 | with one ICU, the uninitialised `pos` survives the first addition and is what a removal reads |
| LoadTable.UpdateValid | CoLib/CoKernel/CoKernel.cpp:258-287 | updateIRQ keeps the table valid, including a failing addIRQ and a known descriptor |
| LoadTable.RemoveValid | CoLib/CoKernel/CoKernel.cpp:310-332 | removeIRQ never underflows a load, reads the true position and keeps the table valid |
| LoadTable.MoveValid | CoLib/CoKernel/CoKernel.cpp:278-331 | the one swap of an operation, between entries of equal load, keeps order, counts and back-pointers |
| LoadTable.ApplyValid | CoLib/CoKernel/CoKernel.cpp:250-335 | every operation keeps the table valid and the set of its ICUs |
| LoadTable.OperationsChangeFiles | CoLib/CoKernel/CoKernel.cpp:250-335 | a successful addition of an unknown descriptor gives it to the first ICU, a removal takes exactly its descriptor away, and everything else changes nothing |
| LoadTable.LoadsAddUp | CoLib/CoKernel/CoKernel.cpp:258-332 | the loads sum to the number of descriptors |
| LoadTable.AdditionBalances | CoLib/CoKernel/CoKernel.cpp:260-286 | an addition goes to an ICU of the least load |
| LoadTable.CoKernel.FirstHeavier | CoLib/CoKernel/CoKernel.cpp:271-277 | the loop finds the end of the entries with the first one's load |
| LoadTable.CoKernel.SettleAdded | CoLib/CoKernel/CoKernel.cpp:278-286 | the swap in place of pointers and back-pointers is the specified move |
| LoadTable.CoKernel.UpdateIRQ | CoLib/CoKernel/CoKernel.cpp:250-300 | the method on ICU objects changes the table as specified, keeps it valid and keeps the very same ICUs in it |
| LoadTable.CoKernel.LastLighter | CoLib/CoKernel/CoKernel.cpp:317-323 | the loop, with its unsigned start value, finds the last lighter entry, or -1, also at position 0 |
| LoadTable.CoKernel.SettleRemoved | CoLib/CoKernel/CoKernel.cpp:324-331 | the swap of a removal, with the comparison of `int` to wrapped `uint`, is the specified move |
| LoadTable.CoKernel.RemoveIRQ | CoLib/CoKernel/CoKernel.cpp:302-335 | the method on ICU objects, indexing by the back-pointer, changes the table as specified, keeps it valid and keeps the very same ICUs in it |
| LoadTable.CoKernel.PointerIsRight | CoLib/CoKernel/CoKernel.cpp:317-331 | the back-pointer of an ICU that owns a descriptor is in range and points to it |
| LoadTable.PositionsDiffer | CoLib/CoKernel/CoKernel.cpp:325-325 | the mixed-sign comparison is the comparison of the numbers, at position 0 too |
| Scheduler.NoReadyCoroutineForgotten | CoLib/CoKernel/CoKernel.cpp:337-359 | over any CPUs and wakers in every run, while a CPU sleeps there are at least as many CPUs about to look into the queue or wakers about to notify as handles in it; a CPU busy with a coroutine does not count |
| Scheduler.ResumedExactlyOncePerEnqueue | CoLib/CoKernel/CoKernel.cpp:337-359 | every enqueue is in the queue, in one CPU's hands or resumed, exactly one of them and once; handles leave in the order they came |
| Scheduler.EveryWakeResumesItsHandle | CoLib/CoKernel/CoKernel.cpp:337-359 | over every run the wakes of a handle are those still to enqueue it plus its enqueues, and it is resumed once for each of these that is neither queued nor in a CPU's hands: as often as it was woken exactly when none is under way |
| Scheduler.WakerDelivers | CoLib/CoKernel/CoKernel.cpp:337-346 | a call of `wakeUpReady` that nothing comes between enqueues the handle it was given and notifies a sleeping CPU if there is one |
| Scheduler.CpuServesOrSleeps | CoLib/CoKernel/CoKernel.cpp:351-356 | a CPU that takes the lock, with nothing between its steps, resumes the first of the queue, and sleeps exactly if there is none |
| Scheduler.CpuGoesOn | CoLib/CoKernel/CoKernel.cpp:354-357 | after a coroutine it resumes the next of the queue without the lock, and returns exactly if there is none |
| Scheduler.RunInv | CoLib/CoKernel/CoKernel.cpp:337-359 | the hand-over invariant holds after every run |
| Scheduler.CpuInv | CoLib/CoKernel/CoKernel.cpp:348-359 | every step of a CPU keeps it, including the dequeue without the lock |
| Scheduler.NotifyInv | CoLib/CoKernel/CoKernel.cpp:345-352 | notifying, with or without a sleeper, and spurious wake-ups keep it |
| Scheduler.WakerInv | CoLib/CoKernel/CoKernel.cpp:340-345 | every step of a waker keeps it |
| Scheduler.LookersMove | CoLib/CoKernel/CoKernel.cpp:348-359 | how a CPU's step changes the number of CPUs about to look into the queue |
| Scheduler.CoKernel.Schedule | CoLib/CoKernel/CoKernel.cpp:348-359 | one CPU's do-while resumes all that is ready and all that becomes ready meanwhile, each once, in order and none before it is ready, and returns with the queue empty |
| Scheduler.CoKernel.Dequeue | CoLib/CoKernel/CoKernel.cpp:352-357 | what is taken followed by what is left is what was there; nothing is taken exactly from an empty queue |
| RingBuffer.Buffer.constructor | Conn/Buffer.h:9-12 | a new buffer is valid and empty |
| RingBuffer.Buffer.ReadableCap | Conn/Buffer.h:18-21 | the 16-bit expression is the number of bytes held |
| RingBuffer.Buffer.WriteableCap | Conn/Buffer.h:22-25 | the 16-bit expression is the room left; both add up to the capacity |
| RingBuffer.Buffer.TestsAreRight | Conn/Buffer.h:30-37 | `readable` is non-emptiness, `writeable` is room for a byte |
| RingBuffer.Buffer.At | Conn/Buffer.h:39-46 | the indexed byte of the contents, or the exception |
| RingBuffer.Buffer.ClearAll | Conn/Buffer.h:48-54 | empties the buffer and returns how much it held |
| RingBuffer.Buffer.Clear | Conn/Buffer.h:56-64 | drops exactly the first bytes, at most all of them |
| RingBuffer.Buffer.Insert | Conn/Buffer.h:66-74 | appends exactly the first bytes of the room, at most all of it |
| RingBuffer.Buffer.InsertCh | Conn/Buffer.h:75-84 | appends the byte, or does nothing when full |
| RingBuffer.Buffer.Data | Conn/Buffer.h:86-114 | at most two non-empty segments in bounds, which cover exactly the occupied places, or exactly the free ones, in order |
| RingBuffer.Buffer.PlacesAreApart | Conn/Buffer.h:86-114 | no place is both occupied and free, or twice either; the free ones are `writeableCap` many and together they are all but one |
| RingBuffer.SegmentsCoverSpan | Conn/Buffer.h:101-112 | the segments between two indices, wrapped or not, cover the places between them, each once |
| RingBuffer.Buffer.Scatter | Conn/Connection.h:17-18 | bytes written through a vector, segment by segment, land at the places it covers in order and nowhere else |
| RingBuffer.Buffer.Fill | Conn/Connection.h:15-24 | writing through the writable segments leaves the contents alone and makes the bytes the front of the room |
| RingBuffer.ScatteredLinesUp | Conn/Buffer.h:66-74 | bytes written to the free places line up behind the contents, at every wrap position |
| RingBuffer.ScatteredAt | Conn/Connection.h:17-18 | each byte written through a vector stands at its place afterwards, and every other place is as it was |
| RingBuffer.SegmentsAreRing | Conn/Buffer.h:101-112 | the segments between two indices, wrapped or not, are the ring between them |
| RingBuffer.EndMoved | Conn/Buffer.h:72-72 | moving the end takes in the first vacant bytes, at every wrap position |
| RingBuffer.StartMoved | Conn/Buffer.h:62-62 | moving the start drops the first bytes, at every wrap position |
| RingBuffer.Buffer.RetriveStr | Conn/Buffer.h:116-130 | returns and removes the first n bytes, all of them if n is larger or negative |
| RingBuffer.Buffer.Take | Conn/Buffer.h:121-127 | the loop over the segments collects exactly the first n of their bytes, all of them if n is larger or negative |
| RingBuffer.RetrieveBothWays | Conn/Buffer.h:116-144 | on equal contents and a count that is held both ways of taking bytes out return the same first bytes and leave the same |
| RingBuffer.Buffer.RetriveRaw | Conn/Buffer.h:131-144 | copies and removes the first n bytes, or nothing if there are fewer; a negative n copies nothing and clears its 16-bit truncation |
| SocketWrite.UnsentIsSuffix | CoLib/ASocket.cpp:120-127 | the vector rebuilt from `tcnt` and `offset` is the suffix from `sendBytes` on |
| SocketWrite.WriteCallback.Tiov | CoLib/ASocket.cpp:115-127 | the loop builds that vector |
| SocketWrite.WriteCallback.Advance | CoLib/ASocket.cpp:149-165 | whatever the kernel accepts, `sendBytes` is the length of the first `tcnt` segments plus `offset`, and `tcnt` reaches the end exactly when all is sent |
| SocketWrite.WriteCallback.Call | CoLib/ASocket.cpp:113-167 | one callback hands over exactly the unsent suffix, of which the kernel takes the front, and answers by the outcome of its system calls |
| SocketWrite.WriteKeepsContract | CoLib/ASocket.cpp:116-166 | the answers of the callback keep the dispatcher's contract |
| SocketWrite.EndsExactlyWhen | CoLib/ASocket.cpp:113-167 | a write completes if and only if by some accepting round, with no refusal up to it, the kernel was ready to accept all; it is refused if and only if a refusing round comes first |
| SocketWrite.TakesExactly | CoLib/ASocket.cpp:116-167 | a round lets through what its last call accepts, up to what is left, and nothing if that call fails or blocks or RDHUP is reported |
| SocketWrite.AnswersExactly | CoLib/ASocket.cpp:116-167 | the callback stays waiting exactly if the kernel blocks or leaves something over, fails exactly on an error or hang-up, and otherwise reports all that is sent |
| SocketWrite.SentExactly | CoLib/ASocket.cpp:108-171 | a write that is refused or unfinished has sent exactly what the kernel was ready to accept up to then |
| SocketWrite.WriteOut | CoLib/ASocket.cpp:108-171 | for every sequence of rounds the wire carries exactly as much of the front of the concatenation as they let through, each byte once and in order, and the end and the result are what they determine |
| EchoRelay.GatherIsBytes | Conn/Connection.h:26-29 | the segments handed to writev concatenate to the bytes they cover |
| EchoRelay.Recv | Conn/Connection.h:15-24 | what arrives, up to the room there is, is appended through the segments, and the count survives the 16-bit parameter |
| EchoRelay.Send | Conn/Connection.h:26-35 | the wire carries what the rounds let through of the contents; a completed send empties the buffer, any other keeps all of it |
| EchoRelay.EchoCtx.Turn | EchoCtx.h:20-33 | one turn appends what arrives and sends what is held then, as arrival and rounds determine |
| EchoRelay.EchoCtx.Run | EchoCtx.h:17-35 | for every pattern of receives and writes, what is received, what is sent and what is held at the end are those of the relay function |
| EchoRelay.RelayedIsShaped | EchoCtx.h:20-33 | every write is of all that is buffered, begins where the one before left off and goes as its rounds say |
| EchoRelay.ReceivedInOrder | EchoCtx.h:20-33 | each receive adds to the stream exactly the front of what arrives that the room allows, and the loop ends exactly at an error, at nothing received, or in a write under way |
| EchoRelay.SentTwiceExactly | EchoCtx.h:20-33 | a byte goes out twice if and only if a write is refused partway and a later one gets through in part |
| EchoRelay.SentTwiceExactlyAfterFailure | EchoCtx.h:20-33 | with hang-ups that stay cached, if and only if a write fails partway, not for a hang-up, and a later one gets through in part |
| EchoRelay.HangUpEndsSending | CoLib/ASocket.cpp:116-119 | after a refusal for a hang-up no later write sends anything |
| EchoRelay.FirstByteSentTwice | EchoCtx.h:20-33 | a concrete run in which the first byte goes out twice |
| EchoRelay.ConservedExactly | EchoCtx.h:20-33 | sent followed by still-to-send is received, in order, if and only if no write is refused partway; otherwise there is exactly as much too much as refused writes let through |
| EchoRelay.EmptyAtEachReceive | EchoCtx.h:20-33 | without refusals the buffer is empty at every receive |

## Left out

- Weak memory: atomic accesses are sequentially consistent steps; the spin locks of `MpmcQueue` and `hmu` are taken to give exclusion.
- `MpmcHeap.MpmcQueue.Enqueue`: used from one thread the spin loop never turns twice, so it is an `if`; the spinning is in `MpmcConcurrent`. No Dafny contract can exclude a node that is allocated and dropped within one call.
- `MpmcConcurrent.FifoOverRuns`: over runs without an exchange in the refill window, since in the others the property is false (`QueueCanBreak`).
- `MutexProtocol.MutualExclusion`: over runs in which only holders unlock, since with stray unlocks it is false (`StrayUnlockBreaksExclusion`); the mutex's item queue is taken as an atomic FIFO, which `MpmcConcurrent` justifies for the runs outside the refill window only; tids are distinct, positive and below 2^31.
- `MutexProtocol.MuCore.UnlockSuspend`: run without interruption, so its spin finds an item at once; the interruptions are in the step machine of the same module.
- `MutexProtocol.HandOffNeverSticks`: no fairness of the thread scheduler is modelled, so liveness is stated as steps that are enabled and as what they lead to.
- `TimedWait.WokenExactlyOnce`: for callbacks that never stay waiting, since otherwise it is false (`BlockingLosesTheTimeout`).
- `EventLoop.NoLostWakeUp`: `waked_` starts as false, which the constructor of `IRQAbs` does not ensure; an exhausted answer is taken to be truthful about the whole mask; the callbacks of `colib::recv` at the end of a stream and of `colib::send` are not, so these two are not modelled, while those of accept and readv are when they block for IN (`ReaderTruthfulExactly`); descriptors enter the epoll set with IN, OUT and RDHUP, as in `ASocket.cpp`; the posted work is the registration of waiters, and removing a descriptor while it has waiters is not modelled.
- `IcuLoop.ICU.Turn`: over the descriptors' queues; the timer queue in the same list is `TimeWaitQueue`, and the eventfd's own callback is `PostedWork`.
- `FileWaitQueue.FileWQ.Wakeup`: callbacks are a function of the call's number, the item and its bits, which stands for any state they keep; a callback that itself changes the list it is called from is not modelled.
- `TimeWaitQueue.TimeWQ.Wakeup`: one clock reading per `resetTimerfd`; the item callbacks (`cb_`) run in the order of `fired`, and what they do to other queues is in `TimedWait`.
- `TimedWait.Queues.Await`: the place of the timer, which its deadline determines, is a parameter; the sorting is in `TimeWaitQueue`; `errno` is not modelled.
- `LoadTable.CoKernel.UpdateIRQ`: runs under the coroutine mutex, so it is one step; `irqn` is unbounded, as fewer than 2^32 descriptors exist; fewer than 2^31 ICUs; a closed `FileWQ` object's lifetime is not modelled.
- `Scheduler.NoReadyCoroutineForgotten`: the ready queue is taken as an atomic FIFO, which `MpmcConcurrent` justifies for the runs outside the refill window only; what a resumed coroutine does is not modelled.
- `SocketWrite.WriteOut`: at least one segment and fewer than 2^31 bytes, so that the `int` result does not overflow.
- `RingBuffer.Buffer.RetriveStr`: n is above -2^31 + 2^16, so that the `int` it is counted down in does not overflow.
- `EchoRelay.EchoCtx.Run`: any buffer of at least one byte, not only 1024; what the kernel delivers and accepts is an input; a write still under way at the end of the input ends the run.
- Real epoll, timerfd, eventfd and sockets: only ready bits, edges, counters and results of system calls, all arbitrary.
- `Lazy`, `Task`, `Generator`: a coroutine is an identifier and a generator is the sequence it yields.
- `AFuture`, `Sock5Ctxt`, `CvCore`, `CompStarter`, `Acceptor` and the programs: start-up, plumbing or unfinished code without a protocol of their own.
