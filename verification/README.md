# bnio: a verified model of the I/O context core

bnio is a C++ asynchronous I/O library built around `io_context`: a group of worker threads, each
with a native event loop (io_uring on Linux, kqueue on BSD), shared task queues, timers, and
operations that signal a receiver exactly once. This project models the parts whose correctness is
hardest to see from the code and proves, for all inputs, runs or reachable states, what they keep.

- **Timers.** `PairingTree` is the pairing heap as a value, `TimerHeap` the same heap as linked
  slots that the code splices in place, `TimerModel` the timer service as a state machine over
  whole runs, `TimerLaws` what a command does to each timer and wait and how a wait ends, and
  `TimerService` the class that refines it.
- **Worker group.** `WorkerGroup` is the protocol between publishers, workers and the stopping
  thread as a state machine of atomic steps; `WorkerWake` proves that no wakeup is lost (and
  exactly when), `WorkerStop` that a stop strands no operation and runs none twice, `WorkerLaws`
  the way of each operation through queues and workers, `TimerStop` which timer waits a stop
  delivers.
- **Queues.** `SharedQueue` is the lock-free stack over compare-and-swap steps, `OperationQueue`
  the intrusive lists, `Dispatch` the tiers a completion batch goes through, `HookList` and
  `SuspendList` the doubly linked lists and the rotation of wakes.
- **io_uring worker.** `NativeWorker` is the submission pipeline of one worker over all the places
  an operation can be in, `WorkerFinish` its final drain, `WakePoll` the submission queue with the
  wake polls and the blocking wait, `WakeLaws` what its steps do, `SubmitOnce` when an operation
  can complete twice.
- **kqueue poller.** `WaitQueue` and `WaitLedger` are the per-descriptor wait queues embedded in
  operations, `WaitRearm` the step that queues a fired registration again, `KqueuePoller` the
  registration, event and abort code over them.
- **Completion.** `Completion` is one I/O operation from start to its final signal.

Time points are integers with a largest value. System calls, the kernel, clocks, the context's
answers to a publish and the callbacks of receivers are arbitrary values chosen at each step, with
one exception: `WorkerGroup`, `NativeWorker` and `WorkerFinish` take a completion to be for an
operation in flight. That holds exactly when no submit of operations fails
(`SubmitOnce.NeverTwiceExactly`); what happens otherwise is under "Completing twice" below. Steps of
different threads interleave as if memory were sequentially consistent.

## What the code does not do

Some properties one might expect do not hold. The code is modelled as it is; for each of them an
input on which it fails is shown and the exact condition under which it holds is proved.

- *Lost wakeups.* Publishers wake nobody while as many workers are counted awake as are running.
  This is safe exactly when no worker that counted itself awake leaves the loop of an open context
  (a fatal ring error, or a failed entry), or when there is at most one worker:
  `WorkerWake.SafeExactly`, `WorkerWake.LostWakeup`.
- *Blocking without a wake source.* The comment before the blocking wait promises a wake source.
  There are two ways to have none. If the kernel takes a proper prefix of the queued entries, a
  poll can be recorded as pending that is still in the queue. If a submit of operations fails, an
  operation can be tracked that the kernel never got, and a stopping worker waits for it without
  arming its polls. A blocked worker can always be woken exactly when neither happens:
  `WakePoll.NeverStuckExactly`, `WakePoll.PartialStuck`, `WakePoll.FailingStuck`.
- *A failed submit.* The list of prepared operations is passed by value after tracking has cleared
  its links, so a failed submit fails only the operation prepared last; the others stay in flight
  until a later submit takes them, or they are aborted. Everything prepared fails exactly when it
  is one operation: `NativeWorker.AllFailedExactly`, `NativeWorker.TwoPrepared`.
- *Completing twice.* The entry of the operation that a failed submit fails stays in the submission
  queue as well. A later submit takes it, and its completion queues the operation a second time. The
  completions a worker can collect are always for operations it tracks exactly when no submit of
  operations fails: `SubmitOnce.NeverTwiceExactly`, `SubmitOnce.Twice`. The receiver gets one signal
  exactly when no such second completion comes; the second signal reports the failure together with
  the result, so that a descriptor can be handed over with an error: `Completion.Live`. If the
  operation is still queued for its first delivery, the queue is no list any more:
  `OperationQueue.PushAgain`.
- *Arming after a failure.* When arming a registration fails, the operation's registrations in
  other queues are dropped without arming who waits behind them. Such a queue keeps an armed head
  exactly when the head was not dropped or nobody is left: `WaitLedger.DroppedExactly`,
  `KqueuePoller.Poller.FailOperation`, over a chain of failures
  `KqueuePoller.Poller.ArmQueueHead`, and over completions, batches and undone registrations
  `KqueuePoller.Poller.ProcessBatch`, `KqueuePoller.Poller.Register`. An operation that waits to read and to write can so leave
  another one behind: `WaitLedger.FailureStrands`. Operations with one registration are always
  safe: `KqueuePoller.Poller.Run`.
- *Queueing again after a would-block step.* The operation is still in flight while its fired
  registration is queued again, so the scan for the end of the queue can stop at the registration
  itself, which is then linked to itself and never armed. It gets into its queue exactly when
  somebody else waits for the key and the last of them comes first among the operations in flight:
  `WaitRearm.RearmedExactly`. An operation that waits alone is never reported again:
  `WaitRearm.AloneIsStranded`.
- *Waits during a stop.* A comment says that aborting the timers before publishing the stopping
  state strands no wait, but timers accept waits at any time. A stop delivers every wait exactly
  when none is started after the stopping thread has aborted the timers:
  `TimerStop.DeliversExactly`. A wait started after the last look at the ready list is never
  delivered: `TimerStop.LateWait`, `TimerStop.NeverLater`; one staged before that look is:
  `TimerStop.StopDelivers`.
- *Report order.* A kqueue batch runs in the order the kernel reports, an io_uring batch in the
  reverse order, which is the same exactly when it has at most one completion:
  `Dispatch.Dispatcher.IoUringRound`, `Dispatch.ReversedIsReported`.
- *Order of waits.* A comment speaks of submission order, but the waits of one timer are staged
  newest first; the two agree exactly when the timer has at most one wait:
  `TimerModel.SubmissionOrderExactly`, `TimerModel.TwoWaitsRun`.

## Model

| member | source | states |
|---|---|---|
| PairingTree.RootIsMinimum | src/posix/io_context_timer_state.cpp:116-118 | in a heap that holds a set of dated timers, the root has the least date |
| PairingTree.MeldHeap | src/posix/io_context_timer_state.cpp:137-158 | melding two disjoint heaps is a heap of exactly their timers |
| PairingTree.MergePairsHeap | src/posix/io_context_timer_state.cpp:160-181 | pairing up a sibling list onto an accumulated heap is a heap of exactly their timers |
| PairingTree.CutParts | src/posix/io_context_timer_state.cpp:34-70 | cutting a node leaves an ordered tree of everything outside its subtree |
| PairingTree.EraseHolds | src/posix/io_context_timer_state.cpp:34-70 | erasing any node leaves a heap that holds exactly the other timers with their dates |
| PairingTree.PushHolds | src/posix/io_context_timer_state.cpp:13-24 | pushing leaves a heap that holds the old timers and the new one |
| PairingTree.StepRefines | src/posix/io_context_timer_state.cpp:13-70 | each heap command acts as the same command on a map from timers to dates |
| PairingTree.RunRefines | src/posix/io_context_timer_state.cpp:13-70 | every command sequence keeps the heap equal to the map, with the root its minimum |
| TimerHeap.LinkSlots | src/posix/io_context_timer_state.cpp:137-158 | the linked slots spell the tree with the later root as first child of the earlier |
| TimerHeap.MeldSlots | src/posix/io_context_timer_state.cpp:137-158 | melding in place spells the meld of the two trees |
| TimerHeap.TakePair | src/posix/io_context_timer_state.cpp:160-181 | takes the first two siblings out as heaps of their own, the rest still linked |
| TimerHeap.MergeRound | src/posix/io_context_timer_state.cpp:160-181 | one round melds the next pair onto the result |
| TimerHeap.MergePairSlots | src/posix/io_context_timer_state.cpp:160-181 | the loop in place spells the paired merge of the sibling list |
| TimerHeap.InsertSlot | src/posix/io_context_timer_state.cpp:13-24 | a loose slot joins the heap, which holds exactly the old slots and it |
| TimerHeap.SpliceSlot | src/posix/io_context_timer_state.cpp:34-70 | relinks the neighbours of a slot, be it a first child or a sibling |
| TimerHeap.SplitSlot | src/posix/io_context_timer_state.cpp:34-70 | separates a slot's children from the rest of the heap, both well linked |
| TimerHeap.EraseSlot | src/posix/io_context_timer_state.cpp:34-70 | erasing in place spells the erased tree |
| TimerHeap.TimerState.constructor | include/bnio/detail/posix/io_context/timer_types.h:71-122 | starts with no timers |
| TimerHeap.TimerState.HeapDeadline | src/posix/io_context_timer_state.cpp:116-118 | the least expiry of the active timers, or the end of time when there are none |
| TimerHeap.TimerState.PushHeap | src/posix/io_context_timer_state.cpp:13-24 | adds the timer to the active ones; an active timer is left alone |
| TimerHeap.TimerState.EraseHeap | src/posix/io_context_timer_state.cpp:34-70 | removes exactly this timer from the active ones, its links cleared |
| TimerHeap.TimerState.PopHeap | src/posix/io_context_timer_state.cpp:26-32 | removes and returns a timer with the least expiry |
| TimerHeap.TimerState.PushInactive | src/posix/io_context_timer_state.cpp:72-87 | puts a loose timer in front of the inactive list and ignores a linked one |
| TimerHeap.TimerState.EraseInactive | src/posix/io_context_timer_state.cpp:89-110 | removes exactly this timer from the inactive list |
| TimerModel.StepInv | src/posix/io_context_timer.cpp:27-327 | every command keeps each wait in the one place recorded for it, and inactive timers are past their expiry |
| TimerModel.RunInv | src/posix/io_context_timer.cpp:27-327 | the invariant holds at every point of every run |
| TimerModel.WaitConservation | src/posix/io_context_timer.cpp:186-327 | at every point of every run a wait exists exactly once if it was started and not at all otherwise |
| TimerModel.RunStarts | src/posix/io_context_timer.cpp:186-206 | the waits with a place are exactly those started so far |
| TimerModel.FetchedGrows | src/posix/io_context_timer.cpp:291-327 | what was handed out stays handed out, and no wait is handed out twice |
| TimerModel.StageOrder | src/posix/io_context_timer.cpp:230-242 | staging appends to the ready list as it will be handed out, each wait with the given kind |
| TimerModel.DrainTimers | src/posix/io_context_timer.cpp:260-275 | a drain moves exactly the given timers, waits and all, to the inactive list |
| TimerModel.DrainBatch | src/posix/io_context_timer.cpp:260-275 | a drain stages waits as elapsed, by expiry of their timers, newest first within a timer |
| TimerModel.FetchExact | src/posix/io_context_timer.cpp:291-327 | a fetch hands out what was ready and then, as elapsed, the waits of exactly the expired timers, in that order |
| TimerModel.SubmissionOrderExactly | src/posix/io_context_timer.cpp:186-289 | a fetch hands the waits of a timer out oldest first if and only if it has at most one |
| TimerModel.TwoWaitsRun | src/posix/io_context_timer.cpp:186-289 | a run from an empty service in which two waits of one timer come out newest first |
| TimerModel.DismissBatch | src/posix/io_context_timer.cpp:414-436 | an abort stages the waits of the dismissed timers as cancelled, by expiry, newest first within a timer |
| TimerModel.DismissKind | src/posix/io_context_timer.cpp:414-436 | whatever an abort stages is staged as cancelled |
| TimerModel.StepOnward | src/posix/io_context_timer.cpp:27-327 | no command makes a wait disappear or go back to a timer |
| TimerModel.DismissExact | src/posix/io_context_timer.cpp:414-436 | an abort takes exactly the dismissed timers out of the heap and touches nothing handed out |
| TimerModel.AbortClears | src/posix/io_context_timer.cpp:414-436 | after an abort no timer is registered and every pending wait is staged |
| TimerLaws.StepTimers | src/posix/io_context_timer.cpp:27-327 | which timers are registered after a command, with which date, and which of them are active: a timer leaves the heap only by a fetch that finds it due, by a new date or by being dropped |
| TimerLaws.StepWaits | src/posix/io_context_timer.cpp:186-228 | the waits of an active timer: a new one in front, none after a cancellation, otherwise as before |
| TimerLaws.StepPlace | src/posix/io_context_timer.cpp:70-327 | where each wait is after a command, from where it was and the dates of the timers |
| TimerLaws.StepKinds | src/posix/io_context_timer.cpp:70-327 | a wait that ends with a command ends as elapsed if and only if the command finds the date of its timer come, and as cancelled otherwise; how it ended never changes |
| TimerLaws.RunDates | src/posix/io_context_timer.cpp:27-183 | over every run the registered timers and their dates are those that the commands alone tell |
| TimerLaws.RunWaiting | src/posix/io_context_timer.cpp:186-206 | over every run a wait is only ever with the timer it was started on |
| TimerLaws.NeverEarly | src/posix/io_context_timer.cpp:260-275 | over every run a wait ended as elapsed if and only if some command found its timer due; then it was started on a timer whose date, as the commands tell, was not after the clock |
| TimerService.IoTimers.constructor | include/bnio/detail/posix/io_context/timer_types.h:71-122 | starts in the initial state of the machine |
| TimerService.IoTimers.Deadline | src/posix/io_context_timer_state.cpp:116-118 | the least expiry over the registered active timers |
| TimerService.IoTimers.Enqueue | src/posix/io_context_timer.cpp:230-242 | the loop stages each wait with the given kind in front of the ready list |
| TimerService.IoTimers.Register | src/posix/io_context_timer.cpp:27-49 | registers an unowned timer as the machine does; wakes a worker exactly when the deadline dropped |
| TimerService.IoTimers.Unregister | src/posix/io_context_timer.cpp:70-87 | forgets the timer and stages exactly its waits, as cancelled; wakes exactly when something became ready |
| TimerService.IoTimers.Cancel | src/posix/io_context_timer.cpp:101-114 | stages exactly the waits of the timer, as cancelled, and returns their number; the timer stays registered |
| TimerService.IoTimers.SetExpiry | src/posix/io_context_timer.cpp:129-160 | stages exactly the waits of the timer, as cancelled, and reinserts it with the new expiry; wakes exactly on cancelled waits or a dropped deadline |
| TimerService.IoTimers.StartWait | src/posix/io_context_timer.cpp:186-206 | a wait joins an active timer in front, is staged as elapsed on an expired one, and as cancelled on an unregistered one |
| TimerService.IoTimers.ExpireNext | src/posix/io_context_timer.cpp:260-275 | drains one timer with the least expiry and stages its waits as elapsed |
| TimerService.IoTimers.DrainExpired | src/posix/io_context_timer.cpp:260-275 | drains exactly the timers expired by now, in order of expiry |
| TimerService.IoTimers.ReverseReady | src/posix/io_context_timer.cpp:277-289 | the loop returns the list reversed |
| TimerService.IoTimers.TryFetch | src/posix/io_context_timer.cpp:291-327 | does nothing unless it gets the gate and the lock; otherwise is a fetch of the machine, returns the next deadline, and hands out what was staged followed by the waits of the due timers as elapsed |
| TimerService.IoTimers.AbortActive | src/posix/io_context_timer.cpp:414-436 | dismisses every active timer in order of expiry |
| TimerService.IoTimers.AbortInactive | src/posix/io_context_timer.cpp:414-436 | forgets every inactive timer |
| TimerService.IoTimers.AbortPending | src/posix/io_context_timer.cpp:414-436 | is an abort of the machine; no timer stays owned by the context, and all waits are staged as cancelled in order of expiry |
| WorkerGroup.MoveCounts | src/async_io/linux/io_uring_context_run_loop.cpp:37-144 | each step changes the awake and running counters as the worker's place says |
| WorkerGroup.CountedStep | src/posix/io_context.cpp:79-145 | the two counters are at every step the numbers of workers they are meant to count |
| WorkerWake.WorkServed | src/async_io/linux/io_uring_context_run_loop.cpp:237-302 | no worker's step leaves a filled queue without a worker that will look at it, also when it leaves the loop |
| WorkerWake.LoadServed | src/posix/io_context_queue.cpp:117-149 | a loaded awake count above zero means somebody will look |
| WorkerWake.BroadcastServed | src/posix/io_context_queue.cpp:105-115 | when no worker is suspended every worker of the loop will look |
| WorkerWake.GuardedStep | src/posix/io_context_queue.cpp:32-149 | every step, with the lock at any point of its section, keeps each queue guarded |
| WorkerWake.WakeInvStep | src/posix/io_context_queue.cpp:32-149 | the wake invariant is kept by every step of every thread |
| WorkerWake.WakeInvRun | src/posix/io_context_queue.cpp:32-149 | the wake invariant holds after every run |
| WorkerWake.NoLostWakeup | src/posix/io_context_queue.cpp:32-149 | without fatal exits, or with one worker, no reachable state has work and every worker asleep unsignalled |
| WorkerWake.LostWakeup | src/posix/io_context_queue.cpp:117-149 | with fatal exits and two or more workers a run loses a wakeup |
| WorkerWake.SafeExactly | src/posix/io_context_queue.cpp:117-149 | wakeups are never lost if and only if there are no fatal exits or at most one worker |
| WorkerStop.ConservedStep | src/posix/io_context_queue.cpp:32-103 | at every step each accepted operation is in exactly one place or was run once |
| WorkerStop.SettledStep | src/posix/io_context.cpp:188-221 | a worker past its last look at a queue of a stopped context left it empty for good |
| WorkerStop.StopInvStep | src/posix/io_context.cpp:147-282 | the stop invariant is kept by every step |
| WorkerStop.StopInvRun | src/posix/io_context.cpp:147-282 | the stop invariant holds after every run |
| WorkerStop.AtMostOnce | src/posix/io_context_queue.cpp:32-103 | no operation runs twice, given that a held operation is reported at most once; a rejected one is never queued nor run |
| WorkerStop.NoStranding | src/posix/io_context.cpp:79-282 | once stopped with no thread in run, all places are empty and each accepted operation ran exactly once, also those drained by a context that failed to enter or was closed late |
| WorkerLaws.OneSpot | src/posix/io_context_queue.cpp:32-103 | an operation is in at most one of the queues, workers, the drain of the stopping thread and the history of runs, and only if it was accepted |
| WorkerLaws.SomeSpot | src/posix/io_context_queue.cpp:32-103 | an accepted operation is in one of them |
| WorkerLaws.StepSpot | src/async_io/linux/io_uring_context_run_loop.cpp:37-461 | where an operation goes with each step: a queue is left only to the worker or the stopping thread that takes it, a worker only by a run or a spill |
| WorkerLaws.NewSpot | src/posix/io_context_queue.cpp:32-103 | where a new operation goes: a published one to its own queue, one of a callback to the worker that runs it, or to the shared queues if that worker never entered |
| WorkerLaws.StepAccepts | src/posix/io_context_queue.cpp:49-103 | a publish to a closing context is refused and changes nothing else; everything else that is new is accepted |
| WorkerLaws.StepRuns | src/posix/io_context.cpp:222-281 | exactly one operation runs with a step that runs one, and none otherwise |
| WorkerLaws.PublishLaw | src/posix/io_context_queue.cpp:49-103 | an accepted publish adds the operation to its queue and leaves the other queue, the workers and the counters alone |
| WorkerLaws.WakeLaw | src/posix/io_context_queue.cpp:117-167 | a wake signals one suspended worker, or nobody when all running workers were counted awake or none is suspended, and changes nothing else |
| WorkerLaws.WorkLaw | src/async_io/linux/io_uring_context_run_loop.cpp:37-461 | a step of a worker leaves the other workers, the lock and the stop alone |
| WorkerLaws.TakeLaw | src/async_io/linux/io_uring_context_run_loop.cpp:179-302 | a worker that takes a queue takes all of it and nothing of the other one; no other step of a worker takes from a queue |
| WorkerLaws.LookLaw | src/async_io/linux/io_uring_context_run_loop.cpp:237-395 | a check before sleeping goes on exactly when it finds nothing |
| WorkerLaws.SuspendLaw | src/async_io/linux/io_uring_context_task_queue.cpp:102-127 | a worker is in the suspend list exactly from its link to its unlink |
| WorkerLaws.EntryLaw | src/posix/io_context.cpp:79-145 | how a thread enters and leaves, also when the context was closed late or could not be entered |
| WorkerLaws.StopLaw | src/posix/io_context.cpp:147-282 | a stop is requested, published, drained and over in this order; a drain takes a whole queue and ends with all empty |
| TimerStop.HandedOutIsNew | src/posix/io_context_timer.cpp:291-327 | what the timers hand out is unknown to the workers, so it can join their places |
| TimerStop.AbortStages | src/posix/io_context.cpp:162-186 | an abort leaves no wait with a timer |
| TimerStop.LookInv | src/posix/io_context.cpp:234-281 | taking the ready list while draining keeps the invariant: a pass that finds both queues and the list empty has handed out every wait staged before it |
| TimerStop.StepInv | src/posix/io_context.cpp:147-282 | the invariant of timers, workers and stop together is kept by every step of every thread |
| TimerStop.RunInv | src/posix/io_context.cpp:147-282 | that invariant holds after every run |
| TimerStop.StopDelivers | src/posix/io_context.cpp:162-282 | once stopped with no thread in run, a wait ran exactly once if it was handed out and never otherwise; every wait ran that was started before the abort, or staged before the last look or the last task of the drain |
| TimerStop.NeverLater | src/posix/io_context.cpp:79-145 | a wait not delivered by then is never delivered, whatever happens afterwards |
| TimerStop.LateWait | src/posix/io_context_timer.cpp:186-206 | for any number of workers and any clock, a wait started after the last look of the stopping thread stays staged |
| TimerStop.PassLaw | src/posix/io_context.cpp:234-281 | the drain ends only with a pass that finds the CPU queue, the I/O queue and the ready list empty in this order |
| TimerStop.HistoryLaw | src/posix/io_context.cpp:162-281 | what is recorded as started before the abort, and as staged by a look or a run |
| TimerStop.PromptEarly | src/posix/io_context.cpp:162-186 | if no wait is started after the abort, all waits were started before it |
| TimerStop.DeliversExactly | src/posix/io_context.cpp:162-282 | in every run of a stop every wait is delivered exactly once, if and only if waits are not started after the abort |
| SharedQueue.PushRefines | include/bnio/async_io/linux/io_uring_context_base/operation_base.h:343-350 | a successful exchange pushes onto the stack whatever happened since the load |
| SharedQueue.FailedRefines | include/bnio/async_io/linux/io_uring_context_base/operation_base.h:343-350 | a failed or spurious exchange changes nothing and reloads the head |
| SharedQueue.RetrySucceeds | include/bnio/async_io/linux/io_uring_context_base/operation_base.h:343-350 | after a failed exchange the next attempt succeeds unless somebody changes the head meanwhile, and puts the operation in front of it |
| SharedQueue.TakeRefines | include/bnio/async_io/linux/io_uring_context_base/operation_base.h:352-355 | the exchange with null takes the whole stack, newest first |
| SharedQueue.DetachRefines | include/bnio/async_io/linux/io_uring_context_base/operation_base.h:371-391 | walking a taken batch delivers its operations one by one while others push |
| SharedQueue.DetachUnlinks | include/bnio/async_io/linux/io_uring_context_base/operation_base.h:371-391 | a consumer clears the link of an operation before it goes on |
| SharedQueue.StepRefines | include/bnio/async_io/linux/io_uring_context_base/operation_base.h:343-369 | every step of every thread is one step of the abstract stack or none |
| SharedQueue.RunRefines | include/bnio/async_io/linux/io_uring_context_base/operation_base.h:343-369 | at every point of every run the links spell the stack and the batches |
| SharedQueue.OneReading | include/bnio/async_io/linux/io_uring_context_base/operation_base.h:343-369 | a chain of links has one reading, so it ends |
| SharedQueue.NoCycle | include/bnio/async_io/linux/io_uring_context_base/operation_base.h:343-369 | no operation comes twice in a chain |
| SharedQueue.RunConserves | include/bnio/async_io/linux/io_uring_context_base/operation_base.h:343-369 | every push is in the stack, in one batch or delivered, once |
| OperationQueue.Push | src/async_io/linux/io_uring_context_internal.h:9-13 | the operation is in front of the old list |
| OperationQueue.PushAgain | src/async_io/linux/io_uring_context_internal.h:9-13 | pushing an operation leaves a list if and only if it is not in the queue already; otherwise the links spell no list at all |
| OperationQueue.PushAll | src/async_io/linux/io_uring_context_internal.h:15-23 | moving a list puts it in front in reverse order |
| OperationQueue.ReverseTasks | src/async_io/linux/io_uring_context_internal.h:42-53 | reverses the links in place |
| OperationQueue.ExecuteTasks | src/async_io/linux/io_uring_context_internal.h:32-39 | runs the list front to back, each operation detached before it runs |
| OperationQueue.TaskQueue.Add | include/bnio/async_io/linux/io_uring_context_base/operation_base.h:293-298 | the operation arrives last |
| OperationQueue.TaskQueue.AddAll | include/bnio/async_io/linux/io_uring_context_base/operation_base.h:300-308 | a list arrives after what is there, in its own order |
| OperationQueue.TaskQueue.PopAll | include/bnio/async_io/linux/io_uring_context_base/operation_base.h:310-315 | takes everything, last arrival first |
| OperationQueue.TaskQueue.Fetch | src/async_io/linux/io_uring_context_task_queue.cpp:59-71 | takes everything in order of arrival; null exactly when empty |
| Dispatch.Collect | src/async_io/bsd/kqueue_context_events.cpp:28-58 | the collected list holds a batch in reverse report order |
| Dispatch.Dispatcher.Deliver | src/async_io/linux/io_uring_context_cqe.cpp:115-139 | up to the inline threshold, or without a threshold for local work, a batch goes to the local queue free of charge; otherwise to the local queue and charged if the budget covers it, and else to the shared queue |
| Dispatch.Dispatcher.RunBatch | src/async_io/linux/io_uring_context_task_queue.cpp:59-79 | runs the local queue, or the shared one when that is empty, in order of arrival |
| Dispatch.Dispatcher.RunTimeouts | src/async_io/linux/io_uring_context_run_loop.cpp:162-178 | fetched timer completions run after the local tasks, in the order fetched |
| Dispatch.CollectOrdered | src/async_io/bsd/kqueue_context_events.cpp:28-78 | collecting and reversing restores the report order |
| Dispatch.Dispatcher.RunBoth | src/async_io/bsd/kqueue_context_task_queue.cpp:65-89 | two batches run the local queue and then the shared one, in order of arrival |
| Dispatch.Dispatcher.KqueueRound | src/async_io/bsd/kqueue_context_events.cpp:60-78 | whatever is queued already, a batch runs in report order, behind what is in the queue that its size, the thresholds and the budget choose |
| Dispatch.Dispatcher.IoUringRound | src/async_io/linux/io_uring_context_cqe.cpp:104-139 | the same with the batch in reverse report order |
| Dispatch.ReversedIsReported | src/async_io/linux/io_uring_context_cqe.cpp:104-139 | that is the report order if and only if the batch has at most one completion |
| Dispatch.Dispatcher.KqueuePass | src/async_io/bsd/kqueue_context_events.cpp:15-78 | over any number of batches each queue gets its batches in the order collected, every batch in report order |
| Dispatch.Dispatcher.PassWithinBudget | src/async_io/bsd/kqueue_context_events.cpp:60-78 | what the second tier takes in a pass and what is left of the budget add up to the threshold, however many batches come |
| HookList.LinkFront | include/bnio/async_io/linux/io_uring_context_base/operation_base.h:395-404 | the node is in front, linked both ways |
| HookList.Unlink | src/async_io/linux/io_uring_context_io_tasks.cpp:282-297 | the list without the node is linked both ways and the node is cleared |
| HookList.InList | include/bnio/async_io/linux/io_uring_context_base/operation_base.h:425-429 | the test by predecessor and head is membership |
| SuspendList.Suspended.LinkNode | include/bnio/async_io/linux/io_uring_context_base/operation_base.h:395-404 | the worker is in front of the suspended ones; the cursor stays |
| SuspendList.Suspended.UnlinkNode | include/bnio/async_io/linux/io_uring_context_base/operation_base.h:408-421 | removes exactly this worker, the cursor kept even if it names the worker |
| SuspendList.Suspended.WakeOne | include/bnio/async_io/linux/io_uring_context_base/operation_base.h:431-454 | wakes the cursor's worker, or the first when the cursor left the list, and advances |
| SuspendList.WakesToEnd | include/bnio/async_io/linux/io_uring_context_base/operation_base.h:431-454 | wakes in a row go through the list in order up to its end |
| SuspendList.WakesSplit | include/bnio/async_io/linux/io_uring_context_base/operation_base.h:431-454 | wakes past the end start again at the front |
| SuspendList.FairWakes | include/bnio/async_io/linux/io_uring_context_base/operation_base.h:431-454 | as many wakes as there are members signal each exactly once, wherever the cursor was |
| NativeWorker.Worker.PrepareBatch | src/async_io/linux/io_uring_context_io_tasks.cpp:147-177 | each operation goes to the prepared list, or to the CPU queue as failed with its own error, until the submission queue is full; the rest stays in order |
| NativeWorker.Worker.PrepareSources | src/async_io/linux/io_uring_context_io_tasks.cpp:86-119 | takes retry slot, local and shared queue in turn up to the one that fills the submission queue and leaves the later ones untouched; the prepared list holds exactly those that could be prepared, last first |
| NativeWorker.Worker.Track | src/async_io/linux/io_uring_context_io_tasks.cpp:179-196 | every prepared operation is in flight and detached |
| NativeWorker.Worker.FailTracked | src/async_io/linux/io_uring_context_io_tasks.cpp:210-222 | exactly this operation leaves the ones in flight, failed with the result |
| NativeWorker.Worker.Submit | src/async_io/linux/io_uring_context_io_tasks.cpp:198-222 | all prepared operations are in flight, but a failed submit fails the one prepared last, and no other completion changes |
| NativeWorker.AllFailedExactly | src/async_io/linux/io_uring_context_io_tasks.cpp:121-127 | after a failed submit every prepared operation has failed if and only if one was prepared |
| NativeWorker.TwoPrepared | src/async_io/linux/io_uring_context_io_tasks.cpp:121-127 | a new worker prepares two operations and submits: if that fails, one of them has failed and the other stays in flight |
| NativeWorker.Worker.DrainStopped | src/async_io/linux/io_uring_context_io_tasks.cpp:325-336 | everything in a place goes to the CPU queue as stopped with the cancel errno |
| NativeWorker.Worker.FinishBatch | src/async_io/linux/io_uring_context_io_tasks.cpp:210-222 | the whole list goes to the CPU queue with the given completion, the last in front, and no other completion changes |
| NativeWorker.Worker.ConsumeStopping | src/async_io/linux/io_uring_context_io_tasks.cpp:59-84 | a stopping worker empties all three sources into the CPU queue as stopped and reports whether there was anything |
| NativeWorker.Worker.ConsumeRunning | src/async_io/linux/io_uring_context_io_tasks.cpp:86-145 | no operation is lost or duplicated; who could not be prepared has failed with its own error; the remainder keeps its turn in the retry slot, or all of it fails with the error of a submit that failed for good |
| NativeWorker.TransientExactly | src/async_io/linux/io_uring_context_io_tasks.cpp:45-55 | which errors of a submit are worth another try |
| NativeWorker.Worker.Move | src/async_io/linux/io_uring_context_io_tasks.cpp:147-177 | moving the first of a list to the front of another keeps every operation in exactly one place |
| NativeWorker.Worker.Recall | src/async_io/linux/io_uring_context_io_tasks.cpp:282-297 | an operation leaves those in flight from any position |
| WorkerFinish.RunBatch | src/async_io/linux/io_uring_context_task_queue.cpp:59-79 | runs a batch, local first, in order of arrival, while its callbacks publish; the work left decreases and no completion changes |
| WorkerFinish.Collect | src/async_io/linux/io_uring_context_cqe.cpp:141-172 | each reported operation gets its result and goes to the CPU queue, the shared one on a spill, or back to the I/O queue when it would have blocked; nobody else moves or changes |
| WorkerFinish.AbortInflight | src/async_io/linux/io_uring_context_io_tasks.cpp:299-323 | whatever is in flight or queued for I/O goes to the CPU queue as stopped |
| WorkerFinish.DrainLocal | src/async_io/linux/io_uring_context_run_loop.cpp:405-415 | ends, with both CPU queues empty, and the ready list of the timers too unless another thread holds their lock; who was completed keeps its completion |
| WorkerFinish.FetchTimers | src/async_io/linux/io_uring_context_run_loop.cpp:162-178 | staged waits go behind the local tasks in staging order, or nothing happens when the timers are locked |
| WorkerFinish.Consume | src/async_io/linux/io_uring_context_io_tasks.cpp:59-145 | a pass whose view of the stop is arbitrary; finds something exactly when a source is filled |
| WorkerFinish.AbortAndDeliver | src/async_io/linux/io_uring_context_run_loop.cpp:417-445 | ends, with every operation run, also those published by callbacks meanwhile, but for waits behind a held timer lock |
| WorkerFinish.Finish | src/async_io/linux/io_uring_context_run_loop.cpp:447-461 | from any state: ends, each operation has run exactly once and all other places are empty, but for waits behind a held timer lock; who was completed before, or is reported first, runs with that completion |
| WakePoll.ArmSourced | src/async_io/linux/io_uring_context_task_queue.cpp:145-181 | arming keeps every pending poll heard and every tracked operation taken, and its result says whether the poll is pending |
| WakePoll.SubmitInv | src/async_io/linux/io_uring_context_io_tasks.cpp:121-127 | a submit that takes everything hands every operation of the pass to the kernel |
| WakePoll.CollectInv | src/async_io/linux/io_uring_context_cqe.cpp:62-93 | collecting a poll completion and arming again keeps every pending poll heard |
| WakePoll.RearmLocalInv | src/async_io/linux/io_uring_context_run_loop.cpp:304-347 | the wait is entered with both polls pending, or with operations in flight |
| WakePoll.StepInv | src/async_io/linux/io_uring_context_run_loop.cpp:237-347 | the invariant is kept by every step of worker, kernel and stopping thread |
| WakePoll.RunInv | src/async_io/linux/io_uring_context_run_loop.cpp:237-347 | the invariant holds after every run |
| WakePoll.InvCanWake | src/async_io/linux/io_uring_context_run_loop.cpp:271-275 | a blocked worker hears both channels, or the kernel has one of its operations |
| WakePoll.PartialStuck | src/async_io/linux/io_uring_context_task_queue.cpp:171-180 | with partial submits a run blocks with nothing in flight and a channel that is not heard |
| WakePoll.FailingStuck | src/async_io/linux/io_uring_context_run_loop.cpp:337-346 | with failing submits a stopped worker blocks hearing neither channel, for an operation the kernel never took |
| WakePoll.NeverStuckExactly | src/async_io/linux/io_uring_context_run_loop.cpp:271-275 | a blocked worker can always be woken if and only if submits are never partial and submits of operations never fail |
| WakeLaws.ArmLaw | src/async_io/linux/io_uring_context_task_queue.cpp:145-181 | exactly when a poll is queued and when it counts as pending, and what each result means |
| WakeLaws.CollectLaw | src/async_io/linux/io_uring_context_cqe.cpp:62-93 | a collected poll drains its channel and is pending again exactly when it could be armed |
| WakeLaws.ChannelLaw | src/async_io/linux/io_uring_context_task_queue.cpp:129-143 | signals, fired polls and closed channels change their own channel only |
| WakeLaws.IoLaw | src/async_io/linux/io_uring_context_io_tasks.cpp:121-222 | how preparing, submitting, collecting and aborting change the queue, what the kernel has and what is tracked |
| WakeLaws.PhaseLaw | src/async_io/linux/io_uring_context_run_loop.cpp:237-347 | when the worker loops again, finishes or blocks |
| WakeLaws.FlagLaw | src/async_io/linux/io_uring_context_run_loop.cpp:381-403 | a worker leaves only when told to, and nothing undoes a stop or a close |
| SubmitOnce.SubmitTidy | src/async_io/linux/io_uring_context_io_tasks.cpp:198-222 | whatever prefix of the queue the kernel takes, what it has or will get stays tracked and is with it or in the queue once |
| SubmitOnce.StepOnce | src/async_io/linux/io_uring_context_io_tasks.cpp:121-222 | without failing submits, every step keeps that what the kernel has or will get is tracked and was prepared once |
| SubmitOnce.RunOnce | src/async_io/linux/io_uring_context_io_tasks.cpp:121-222 | that holds after every run, until the operations in flight are aborted and completions are not collected any more |
| SubmitOnce.Twice | src/async_io/linux/io_uring_context_cqe.cpp:141-172 | a run in which an operation has failed, is not tracked, and its completion can be collected |
| SubmitOnce.NeverTwiceExactly | src/async_io/linux/io_uring_context_cqe.cpp:141-172 | in every run the completions that can be collected are for tracked operations, if and only if submits of operations never fail |
| WaitQueue.UnlinkedSpelled | src/async_io/bsd/kqueue_context_io_tasks.cpp:193-205 | unlinking through the two links leaves the rest of the queue linked in order |
| WaitQueue.RemovedFormed | src/async_io/bsd/kqueue_context_io_tasks.cpp:193-205 | removing a registration keeps all queues well formed and the other heads as armed as they were |
| WaitQueue.AppendedFormed | src/async_io/bsd/kqueue_context_io_tasks.cpp:173-191 | appending keeps queues in order of registration with at most the head armed |
| WaitQueue.PrimedFormed | src/async_io/bsd/kqueue_context_io_tasks.cpp:207-227 | arming a head keeps all queues well formed |
| WaitLedger.SingleKeeps | src/async_io/bsd/kqueue_context_io_tasks.cpp:243-306 | when only operations with one registration fail, every queue keeps an armed head |
| WaitLedger.DroppedAbsent | src/async_io/bsd/kqueue_context_io_tasks.cpp:284-306 | an operation whose registrations were dropped is in no queue |
| WaitLedger.DroppedExactly | src/async_io/bsd/kqueue_context_io_tasks.cpp:284-306 | dropping registrations without arming leaves a queue an armed head if and only if its head is not among them or nobody is left |
| WaitLedger.StrandedExactly | src/async_io/bsd/kqueue_context_io_tasks.cpp:243-306 | of a queue in which only failed operations left and nobody was armed: it keeps an armed head if and only if its head did not fail or nobody is left |
| WaitLedger.FailureStrands | src/async_io/bsd/kqueue_context_io_tasks.cpp:243-306 | a state with every head armed in which an operation refused for reading leaves a writer behind it unarmed |
| WaitRearm.FindEnd | src/async_io/bsd/kqueue_context_io_tasks.cpp:154-171 | the scan finds the last waiter of the key if that comes before the fired operation in flight, and the fired registration itself otherwise |
| WaitRearm.Rearm | src/async_io/bsd/kqueue_context_events.cpp:80-92 | links the registration behind what the scan found and arms nothing |
| WaitRearm.RearmQueues | src/async_io/bsd/kqueue_context_events.cpp:80-92 | when another waiter is found the queue grows by the registration at its end and its head stays armed |
| WaitRearm.RearmedExactly | src/async_io/bsd/kqueue_context_events.cpp:80-107 | the registration is in some queue if and only if another waiter is found; it is never armed |
| WaitRearm.AloneIsStranded | src/async_io/bsd/kqueue_context_events.cpp:80-107 | one operation alone in flight ends up in no queue and unarmed |
| KqueuePoller.Poller.RearmFired | src/async_io/bsd/kqueue_context_events.cpp:201-234 | a fired registration is released, its successor armed, and the re-arm happens in the state described above; exactly which other queues lose their armed head |
| KqueuePoller.Poller.FindTail | src/async_io/bsd/kqueue_context_io_tasks.cpp:154-171 | the scan over operations in flight finds the last registration of the key's queue |
| KqueuePoller.Poller.Detach | src/async_io/bsd/kqueue_context_io_tasks.cpp:193-205 | removes the registration and returns the one behind it |
| KqueuePoller.Poller.Arm | src/async_io/bsd/kqueue_context_io_tasks.cpp:207-227 | on success the head is armed, on failure nothing changed |
| KqueuePoller.Poller.AppendNode | src/async_io/bsd/kqueue_context_io_tasks.cpp:173-191 | on success the registration is last in its queue and armed if first; on failure nothing changed |
| KqueuePoller.Poller.ArmQueueHead | src/async_io/bsd/kqueue_context_io_tasks.cpp:243-259 | ends with the queue's head armed or the queue empty, each failed operation completed exactly once with its own error; exactly which other queues lose their armed head |
| KqueuePoller.Poller.FailOperation | src/async_io/bsd/kqueue_context_io_tasks.cpp:284-306 | the operation leaves all queues and those in flight and is completed once; exactly which queues lose their armed head |
| KqueuePoller.Poller.FailHead | src/async_io/bsd/kqueue_context_io_tasks.cpp:243-259 | tears the head's operation down and hands back the new head; exactly which queues lose their armed head |
| KqueuePoller.Poller.Prepare | src/async_io/bsd/kqueue_context_io_tasks.cpp:118-152 | the operation gets one new registration per filter, numbered after all others |
| KqueuePoller.Poller.Register | src/async_io/bsd/kqueue_context_io_tasks.cpp:93-116 | all registrations last in their queues and the operation in flight, or all undone and the operation completed once with the error; then exactly which queues of other keys lose their armed head |
| KqueuePoller.Poller.Undo | src/async_io/bsd/kqueue_context_io_tasks.cpp:229-241 | a failed registration leaves no trace in any queue; exactly which queues of other keys lose their armed head |
| KqueuePoller.Poller.Release | src/async_io/bsd/kqueue_context_io_tasks.cpp:261-282 | removes a registration and arms its successor if it was armed, so its queue keeps an armed head; exactly which other queues lose theirs |
| KqueuePoller.Poller.Unregister | src/async_io/bsd/kqueue_context_io_tasks.cpp:261-282 | the operation is in no queue; only failed operations left with it; exactly which queues of other keys lose their armed head |
| KqueuePoller.Poller.FindFired | src/async_io/bsd/kqueue_context_events.cpp:188-199 | finds the registration for the filter exactly when there is one |
| KqueuePoller.Poller.CompleteFired | src/async_io/bsd/kqueue_context_events.cpp:201-239 | completes the operation once with the result and leaves nothing of it registered; only failed operations get an error; exactly which queues of other keys lose their armed head |
| KqueuePoller.Poller.ProcessEvent | src/async_io/bsd/kqueue_context_events.cpp:201-239 | completes the operation exactly when it is in flight and registered for the filter; a stale event changes nothing |
| KqueuePoller.Poller.ProcessBatch | src/async_io/bsd/kqueue_context_events.cpp:28-58 | over a batch each operation completes at most once, with the result of an event for it or, if it could not be armed, an error; those reported are no longer in flight; of the keys no reported operation waits for, exactly which queues lose their armed head |
| KqueuePoller.Poller.AbortInflight | src/async_io/bsd/kqueue_context_io_tasks.cpp:340-379 | every operation in flight completes once with the given result, no other result changes, and all queues are empty |
| KqueuePoller.Poller.Run | src/async_io/bsd/kqueue_context_io_tasks.cpp:93-379 | over any run of registrations, also of completed operations, event batches and aborts, with one registration per operation, every non-empty queue has an armed head |
| Completion.OutcomeSound | include/bnio/detail/linux/io_context_native_io/common.h:187-226 | a result r >= 0 is handed on as it is without an error; r < 0 gives the error -r with the value 0 for a count and r for a descriptor; an abort gives stopped if the token is cancelled and otherwise the cancel error with 0 or -1 |
| Completion.NativeOperation.constructor | include/bnio/detail/linux/io_context_native_io/common.h:128-133 | starts with no signal sent |
| Completion.NativeOperation.Execute | include/bnio/detail/bsd/io_context_native_io/common.h:163-203 | each time it is run, appends the signal that completion kind, error, result and token call for, spelled out per kind |
| Completion.NativeOperation.StartIoUring | include/bnio/detail/linux/io_context_native_io/common.h:159-259 | cancelled at start, completed at once, published, or delivered inline when refused |
| Completion.NativeOperation.StartKqueue | include/bnio/detail/bsd/io_context_native_io/common.h:125-150 | the same for the probe of the kqueue backend |
| Completion.NativeOperation.PublishIo | include/bnio/detail/bsd/io_context_native_io/common.h:217-231 | a refused operation is stopped and delivered inline |
| Completion.NativeOperation.PublishCpu | include/bnio/detail/bsd/io_context_native_io/common.h:208-213 | a refused completion is delivered inline |
| Completion.NativeOperation.Report | src/async_io/linux/io_uring_context_cqe.cpp:141-172 | a native result is staged, or the operation goes back to wait; the completion of an entry left behind overwrites the result and queues the operation once more |
| Completion.NativeOperation.SubmitError | include/bnio/detail/linux/io_context_native_io/common.h:139-145 | the error is staged for the value channel; the entry may stay in the submission queue |
| Completion.NativeOperation.SubmitStopped | include/bnio/detail/linux/io_context_native_io/common.h:147-152 | the abort is staged for arbitration |
| Completion.Deliver | src/async_io/linux/io_uring_context_cqe.cpp:141-172 | one right signal, or two when an entry left behind is completed, before or after the first delivery |
| Completion.Live | include/bnio/detail/linux/io_context_native_io/common.h:159-226 | any life ends with one signal, or with two if and only if a failed submit left the entry behind and that is completed too; the cause follows from the start, the answers and the end, and the signal from the cause, spelled out per kind of request |

## Left out

- System calls and kernel behaviour beyond arbitrary answers, including that an armed kernel timeout or poll eventually fires.
- The weaker memory orders of the atomics: every step is sequentially consistent.
- Liveness of stop: that the loop waiting for workers ends, and that callers losing the election return.
- The destructor of the context, clearing, nested runs on one thread, `queue_timer_completion` and join: easy members, or not reachable from the modelled code.
- Receivers, senders, schedulers, addresses, files and sockets: thin wrappers over the modelled operations.
- The kqueue run loop: it is the io_uring loop without a submission queue; `WorkerGroup` covers its wake and stop protocol.
- KqueuePoller.Poller.Register: preparation errors and nop tasks, which never reach a queue, are left out.
- KqueuePoller.Poller.CompleteFired: for the keys of the completed operation itself only one direction is stated, that queues spared by the failures keep an armed head; which of them lose it depends on the order in which its registrations are released. The same holds for `Unregister`, `ProcessBatch`, `Undo` and `Register`.
- KqueuePoller.Poller.Run: the steps of a run do not include a re-arm after a would-block step, whose exact effect is stated by `WaitRearm.RearmedExactly`.
- Wrap-around of the 64-bit registration counter of kqueue and of clock arithmetic.
- NativeWorker.Worker.Recall: keeps the operations in flight as a sequence; the doubly linked list behind it is `HookList`.
- WorkerWake.NoLostWakeup: a write to the shared channel may wake any worker or none; only directed signals and broadcasts to unsuspended workers are relied on.
- Completion.NativeOperation.Execute: leaves out the completion flags, which the requests ignore.
- TimerLaws.NeverEarly: the bound is the staging time; that a wait is staged soon after its expiry is not stated.
- WakePoll.NeverStuckExactly: the timeout that bounds a wait with timers is left out, so only the unbounded wait is modelled.
- WorkerFinish.Collect: takes completions to be for operations in flight; this needs that no submit of operations has failed, the exact condition of `SubmitOnce.NeverTwiceExactly`.
- WorkerFinish.Finish: "exactly once" rests on that condition too; after a failed submit an operation can run twice, as `SubmitOnce.Twice` and `Completion.Live` show.
- WorkerStop.AtMostOnce: the kernel reports an operation it holds once, under the same condition.
- WorkerStop.NoStranding: "exactly once" under the same condition; that nothing is stranded does not need it.
- Completion.Live: a second completion that would block, and sends the operation back to be prepared again, is not followed further.
