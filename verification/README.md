# User-mode scheduler: model and proofs

This project models a user-mode scheduler with its blocking primitives, and proves what its protocols keep.

The modules follow the layers of the program.

**Scheduler.** `SchedulerQueues` describes the queues of one scheduler as a value: the running worker, the
runnable, idle, waiting and pending I/O queues, the slot for a yielded worker, worker states and tasks, and the
load counter, with each operation of `scheduler.cpp` as a function. `SchedulerClass` has the same scheduler as an
object whose methods change their fields in place, with the source's loops, each proved to do what the function
says; `TaskQueue` is its task deque and the result flags of a task. `SchedulerSystem` puts any number of schedulers
and the main thread into one transition system, from the end of start-up to the last join. Its steps use the same
functions. One step is one access that another thread can see: an atomic, a deque, a condition variable, a critical
section. `SchedulerLocal`, `SchedulerInvariant` and `SchedulerProof` carry its invariant, `SchedulerTheorems` the
results: no lost wake-up, sound and lasting termination detection, conservation of tasks, the exit assertion.
`SchedulerWakeup` shows that wake-ups get through, `SchedulerWaiting` bounded waiting in the whole system.
`SchedulerRuns` defines runs of one thread and of several; with it `SchedulerPass`, `SchedulerSleep` and
`SchedulerUser` say what a turn of `schedule`, a sleep and the calls of user code come to, `SchedulerResume` that a
queued task gets to run, `SchedulerAnswer` what `all_idle` and `wait_exit` answer and `SchedulerShutdown` that a yes
leads to the last join. `SchedulerReport` finds exactly when the last report to `wait_exit` is missed, and
`SchedulerMissed` gives a run in which it is.
`RunningToken` and `RunningTokenProof` are the threads below: who of a scheduler's workers runs, construction and
destruction included, with spurious wake-ups; `RunningTokenRuns` shows that switches, construction and destruction
come to their ends.

**Waiting.** `CondVarWait` has the phases of a wait and the effect of notifications, `ConditionVariableClass` the
condition variable as an object. `Waiters` runs any number of workers, condition variables, sleeps and notifiers
against a clock, `WaitersCalls` says what each call comes to, and `NotifyOne` whom a notification reaches. `TaskWait`
composes a task, its single waiter, the completing worker and the waiter's scheduler.

**Locks.** `SharedMutexState`, `SharedMutex` and `SharedMutexProof` are the two-gate reader/writer lock with its
packed word and timed rollback. `TimedLock` and `TimedLockProof` are the timed and the recursive timed mutex,
`SpinMutex` and `SpinMutexProof` the plain and the recursive mutex at the grain of single memory accesses, with
`LockCount` for the 32-bit count and `Spinlock` for the bounded spinning. `SharedMutexCalls`, `TimedLockCalls` and
`SpinMutexCalls` say what each call on these locks comes to when its thread moves alone. `LockClasses` has the
critical sections of these locks as methods on objects, tied to the steps of the transition systems. `LockOrder`
gives the script of lock operations of every path through the library and proves that no set of threads can wait in a
circle; `LockUse` counts how often each lock is taken on the way.

In each transition system `Init` and `Next` define the behaviours, an inductive invariant is proved for all of them,
and the theorems speak of every state of every behaviour, for any number of threads. Atomics are sequentially
consistent and the clock is monotone. I/O completion, time-outs, spurious wake-ups, what user code does next and
which worker it wakes are choices of the environment. The intrusive list library is not part of this repository; a
list is a sequence, and `Waiters.OnOneList` shows that a worker's waiter node is on one list at most.

Where the code and its documentation disagree the model follows the code:

- `notify_one` always signals the front of the list, which stays there until it has removed itself
  (`condition_variable.cpp:40-45`), so several calls may wake one waiter only, against section
  [thread.condition.condvar] of N4928: `NotifyOne.TwoCallsWakeOne` is such a run. A call signals somebody new if and
  only if the flag of the front is down (`NotifyOne.RaisesIffFrontDown`), and a waiter other than a former front only
  once that has removed itself (`NotifyOne.FrontStays`, `NotifyOne.OtherOnlyAfterRemoval`).
- `Mutex::try_lock` does not record its caller (`mutex.cpp:61-64`), so the deadlock error of `Mutex::lock` covers
  holders that came in through `lock` only. `SpinMutexProof.HolderRecognised` is the exact condition,
  `SpinMutexProof.TryLockUnrecorded` the counterexample, and `SpinMutexProof.SelfDeadlockLasts` what it leads to.
- The comment on `wait_exit` says that all edge cases are handled (`scheduler.cpp:194-202`), but its predicate gives the
  mutex up and `signal_idle` notifies whoever is waiting just then, so a report that comes between a no and the sleep
  after it is lost. `SchedulerReport.MissedIff` is the exact condition, `SchedulerMissed.ReportMissed` the
  counterexample.

`dafny verify dfyconfig.toml` checks the project.

## Model

| member | source | states |
|---|---|---|
| SchedulerQueues.StablePartition | scheduler.cpp:400-438 | The erase-while-scanning loops lose nothing, repeat nothing and keep order: the index at which member k of the scanned queue lands, in the chosen part or in the rest, is the number of yes (or no) answers before it. |
| SchedulerQueues.SetWorkerStateKeepsLoad | scheduler.cpp:333-337 | After a state change `m_state_load` is again the sum of the loads of all workers. |
| SchedulerQueues.TotalLoadBounds | scheduler.cpp:680-713 | The sum lies between 0 and 10 times the number of workers and is positive exactly when some worker is active. |
| SchedulerQueues.LoadMeansActive | scheduler.cpp:364-374 | The counter a stealing scheduler reads is positive exactly when some worker of this scheduler holds a task. |
| SchedulerQueues.HasWorkMeans | scheduler.cpp:829-833 | With no worker running, a scheduler has work if and only if a task is queued or some worker of it holds one. |
| SchedulerQueues.LoadFormula | scheduler.cpp:680-713 | The counter is 10 for each runnable, running or yielded worker, 2 for each with I/O under way and 1 for each waiting one. |
| SchedulerQueues.LeaveParks | scheduler.cpp:784-798 | Whatever the context, parking the running worker puts it in the one place its new state names, with its task dropped exactly when it is done; the slot for the yielded worker was free. |
| SchedulerQueues.PrepareNextRuns | scheduler.cpp:325-331 | Taking the front of the runnable queue makes it the one running worker, leaves the rest in order and keeps the partition and the load. |
| SchedulerQueues.StartTaskKeeps | scheduler.cpp:381-395 | Giving a task to the front idle worker puts that worker, with that task, last in the runnable queue and keeps the partition, the load, and that exactly the active workers hold tasks. |
| SchedulerQueues.ScheduleYieldedKeeps | scheduler.cpp:458-466 | The yielded worker becomes runnable and the slot is empty afterwards. |
| SchedulerQueues.ScheduleWaitingKeeps | scheduler.cpp:423-438 | The scan of the waiting queue appends the chosen workers to the runnable queue in order and keeps the partition. |
| SchedulerQueues.ScheduleIoKeeps | scheduler.cpp:400-418 | The same for the scan of the pending I/O queue. |
| SchedulerQueues.FinishedWorkerReused | scheduler.cpp:293-305 | The idle queue is last in, first out: the worker that finishes its task is the one the next task goes to, and all else is as it was. |
| SchedulerQueues.StartOne | scheduler.cpp:766-779 | A worker that starts goes to the back of the idle queue through the start-up branch of `park_worker`. |
| SchedulerQueues.StartedParked | scheduler.cpp:237-254 | After construction every worker is idle, in the order of creation, and the queues are well formed. |
| SchedulerQueues.ApplyFacts | scheduler.cpp:496-529 | Every operation between two selections only appends to the runnable queue, a selection takes its front, and each leaves a well-formed state for the next. |
| SchedulerQueues.BoundedWaiting | scheduler.cpp:287-331 | Along any run of the guarded operations, the worker at position k of the runnable queue is resumed by exactly the (k+1)-th selection, and moves one place forward with each before. |
| SchedulerClass.Scheduler.constructor | scheduler.cpp:237-254 | The constructed object has exactly the queues of `Started`, all workers idle in order and no load, and is asleep: `m_running` is false. |
| SchedulerClass.Scheduler.SetWorkerStateInPlace | scheduler.cpp:333-337 | Refines `SetWorkerState`: the new abstract queues are the specified function of the old ones. |
| SchedulerClass.Scheduler.ParkWorkerInPlace | scheduler.cpp:784-798 | Refines `ParkWorker` for all four contexts, start-up included. |
| SchedulerClass.Scheduler.ParkRunnableInPlace | scheduler.cpp:287-291 | Refines `ParkRunnable`. |
| SchedulerClass.Scheduler.PrepareNextWorkerInPlace | scheduler.cpp:325-331 | Refines `PrepareNextWorker`. |
| SchedulerClass.Scheduler.ScheduleIoInPlace | scheduler.cpp:400-418 | The loop that erases while it scans refines the partition of the pending I/O queue by the answers, one per worker. |
| SchedulerClass.Scheduler.ScheduleWaitingInPlace | scheduler.cpp:423-438 | The same loop over the waiting queue: the k-th worker leaves it exactly if its flag is loaded up or it has a deadline at or before the time of its own check; those that leave go to the runnable queue in order. |
| SchedulerClass.Scheduler.ScheduleIdleWorkerInPlace | scheduler.cpp:381-395 | With a given task, or the front of its own queue, or neither: exactly the specified worker starts exactly that task, or nothing changes. |
| SchedulerClass.Scheduler.ScheduleIdleWorkersInPlace | scheduler.cpp:447-453 | A fresh task starts exactly when no worker is runnable, one is idle and a task is queued; otherwise nothing changes. |
| SchedulerClass.Scheduler.ScheduleYieldedInPlace | scheduler.cpp:458-466 | Refines `ScheduleYielded`. |
| SchedulerClass.Scheduler.HasStealableWork | scheduler.cpp:364-374 | True exactly for several queued tasks, or one with work under way. |
| SchedulerClass.Scheduler.NextStealable | scheduler.cpp:482-486 | The filtered view goes on to the next other scheduler that is worth it when looked at. |
| SchedulerClass.Scheduler.TakeFromOthers | scheduler.cpp:486-493 | With other thieves taking any number of tasks between test and dequeue: the oldest task left at the first scheduler that was worth it and had any left is taken; those before it were emptied by others, those behind it are untouched. |
| SchedulerClass.Scheduler.StealWork | scheduler.cpp:472-494 | A theft is tried only with no worker runnable and one idle, and the front idle worker takes exactly the task taken. |
| SchedulerClass.Scheduler.WaitersInfo | scheduler.cpp:560-573 | The loop returns whether any waiting worker's flag is up and the least deadline of all of them, attained by one of them. |
| SchedulerClass.Scheduler.HasWorkNow | scheduler.cpp:829-833 | Computes `HasWork` of the abstract queues, which `SchedulerQueues.HasWorkMeans` explains. |
| SchedulerClass.Scheduler.FillFromOwn | scheduler.cpp:447-466 | With nothing readied, a worker idle and a task queued, the deque loses its front, the front idle worker has that task and is first in the runnable queue; only then comes the yielded worker. |
| SchedulerClass.Scheduler.FillQueues | scheduler.cpp:447-494 | The same, and with no own task and nobody yielded the same of the task a theft gets; without one nothing is runnable and nobody is taken from the idle queue. |
| SchedulerClass.Scheduler.ScheduleWorkersInPlace | scheduler.cpp:496-506 | One pass keeps the partition; workers that were or became ready are served first and in order, by flag or deadline as above; with none of them the own task is started, else the yielded worker goes on, else the task of the first worthwhile scheduler is taken and started. |
| SchedulerClass.Scheduler.LeaveInPlace | worker.cpp:188-209 | The running worker drops a finished task and parks: refines `Leave`. |
| SchedulerClass.Scheduler.ScheduleTurn | scheduler.cpp:496-527 | One turn up to the choice of the next worker: who runs, with which task, and when nobody does. |
| SchedulerClass.Scheduler.TakeTurn | scheduler.cpp:516-527 | One turn ends with one running worker, or with all parked and none runnable, or with the current worker exiting because exit was signalled; with nobody ready, an idle worker and a queued or stealable task it ends with that worker running that task. |
| SchedulerClass.Scheduler.Schedule | scheduler.cpp:514-529 | The loop ends at the first turn with a runnable worker or an exit signal; a worker that was runnable is resumed at once, a queued task is started in the first turn by the front idle worker, and a theft that gets something ends the loop too. |
| SchedulerClass.Scheduler.Sync | scheduler.cpp:805-817 | The same from a running worker in any context: it is parked first, the yielded slot is free for it, and a worker that has finished its task is the one to run the next. |
| SchedulerClass.Scheduler.ExitInPlace | scheduler.cpp:823-827 | The current worker, and no other, takes the exiting state. |
| SchedulerClass.Worker.NotifyWaiter | worker.cpp:163-167 | Sets the worker's flag and the running flag of its scheduler. |
| SchedulerClass.Worker.SetWaitInfo | worker.hpp:135-143 | Sets flag and deadline together. |
| TaskQueue.Tasks.Enque | task.cpp:28-34 | Appends, and keeps the separately readable size equal to the length. |
| TaskQueue.Tasks.Deque | task.cpp:36-48 | Takes the front, or nothing from an empty queue, and keeps the size. |
| TaskQueue.FirstInFirstOut | task.cpp:28-48 | Whatever is enqueued later, the task at position k is the (k+1)-th to be taken. |
| TaskQueue.Tasks.DequeAfter | task.cpp:36-48 | A dequeue that n others come before takes the task at position n, or nothing. |
| TaskQueue.TaskFlags.Complete | task.hpp:72-110 | A completed task is done, with its exception recorded and the taken flag as it was. |
| TaskQueue.CompleteAndGetTwice | task.hpp:122-132 | Of two calls of `get` the first delivers the value or the exception and the second is refused. |
| TaskQueue.TaskFlags.PrepareGet | task.hpp:122-132 | A second `get` is refused; the first yields the value or rethrows. |
| SchedulerTheorems.StepKeepsInv | scheduler.cpp:509-529 | The invariant of the whole system is kept by every step of every scheduler, notifier and the main thread. |
| SchedulerTheorems.StartUp | ums.cpp:29-41 | The state in which `init_ums` enqueues the first task, for any numbers of schedulers and workers, is one the behaviours start from. |
| SchedulerTheorems.NoLostWakeup | scheduler.cpp:622-671 | In every reachable state a scheduler blocked in `sleep` with something to do has a notifier on its way, or the running flag set with the signal still to come. |
| SchedulerTheorems.WakeupDelivered | scheduler.cpp:544-554 | While the scheduler's mutex is free such a notifier needs at most two steps to wake it. |
| SchedulerWakeup.WorkGetsThrough | scheduler.cpp:544-554 | Whoever holds the mutex, `all_idle` included: from every reachable state with a blocked scheduler that has something to do, a run leads to the moment it has left its wait. |
| SchedulerWakeup.AllIdleCloser | scheduler.cpp:163-166 | While `all_idle` holds a mutex some step brings its end closer and moves no notifier. |
| SchedulerWakeup.SectionStep | scheduler.cpp:635-668 | A thread inside the critical section of `sleep` that is not just notifying `wait_exit` can always go on, and gives the mutex up after a bounded number of steps. |
| SchedulerWaiting.OwnStepOp | scheduler.cpp:496-529 | Every step of a scheduler's thread but its last is one of the guarded queue operations, or leaves the queues alone. |
| SchedulerWaiting.MovesForward | scheduler.cpp:287-331 | In every run of the system a worker in a runnable queue moves one place forward with each selection of its scheduler, and with nothing else. |
| SchedulerWaiting.ResumedInTurn | scheduler.cpp:325-331 | The worker at position k is resumed by exactly the (k+1)-th selection from then on. |
| SchedulerWaiting.FreshOnlyWhenNoneReady | scheduler.cpp:447-494 | A task in hand, its own or stolen, means that no worker is runnable. |
| SchedulerPass.TurnResult | scheduler.cpp:496-529 | One turn of a scheduler in any reachable state and for any answers of the scans, all others standing still: a worker that was or became ready runs first, else the oldest own task on the front idle worker, else the yielded worker, else the oldest task of the first other scheduler worth stealing from, else the thread goes to sleep with the queues as scanned. |
| SchedulerPass.WorthStealing | scheduler.cpp:364-374 | A scheduler is worth stealing from if and only if it has several queued tasks, or one and a worker that holds another. |
| SchedulerSleep.SleepResult | scheduler.cpp:622-671 | The whole of `sleep` in any reachable state with the mutex free: it goes round again exactly for pending I/O, a startable task, an exit signal with nothing left, a raised flag or a passed deadline; else it blocks, counted as idle only if no worker waits. |
| SchedulerSleep.WakeResult | scheduler.cpp:531-541 | A thread out of its wait goes on exactly if `m_running` is set or the time has come, or in the idle wait a task is queued or exit signalled; the idle counter follows. |
| SchedulerResume.QueuedTaskRuns | scheduler.cpp:339-345 | From every reachable state with a task queued for a sleeping scheduler, whoever holds its mutex, a run leads to the moment the oldest queued task runs there on the worker that was first in line. |
| SchedulerUser.UserLeaves | worker.cpp:188-209 | A worker that finishes, yields, waits or begins I/O ends up in the one place its call names, first in the idle queue if it has finished, with its task recorded as completed then and kept otherwise; nothing else changes. |
| SchedulerUser.EnqueueReaches | scheduler.cpp:339-345 | An enqueued task is last in the deque it is meant for, that scheduler's running flag is up and its thread out of its wait, and the caller goes on. |
| SchedulerUser.NotifyReaches | worker.cpp:163-167 | A notified waiter has its flag up, and its scheduler is reached in the same way. |
| SchedulerUser.FirstTaskReaches | ums.cpp:35-37 | So is the first task of the program, and main goes on to `wait_exit`. |
| SchedulerAnswer.InspectionSays | scheduler.cpp:163-166 | In any reachable state of the inspection under the locks main alone comes to a yes if and only if all schedulers not yet seen sleep idle with an empty deque. |
| SchedulerAnswer.AllIdleSays | scheduler.cpp:163-168 | The whole of it from the first lock to the last unlock, no mutex held before: that answer, all mutexes free again and nothing else changed. |
| SchedulerAnswer.WaitExitSays | scheduler.cpp:203-217 | One evaluation of the predicate of `wait_exit` after a report goes on to exit if and only if all schedulers are counted idle, sleep idle and have nothing queued, and else back to sleep. |
| SchedulerAnswer.AllIdleReturns | scheduler.cpp:163-168 | With others inside `sleep` `all_idle` has to wait for them, but a run to its answer exists from every reachable state inside it. |
| SchedulerReport.EndsUnlessAsleep | scheduler.cpp:175-217 | When all schedulers have gone to rest and all reports have been made, the program comes to its end without a spurious wake-up of main if and only if main is not asleep nor on its way to sleep with a no. |
| SchedulerReport.MissedIff | scheduler.cpp:203-217 | The last report is missed if and only if it comes between a no of `all_idle` and the sleep after it. |
| SchedulerMissed.ReportMissed | scheduler.cpp:194-217 | A run in which it is: a program of one short task whose only scheduler falls asleep while main has answered no and not yet taken its mutex back; from then on nothing but a spurious wake-up of main ends it. |
| SchedulerShutdown.ShutdownCompletes | scheduler.cpp:256-260 | From every reachable state after a yes a run leads to the end: every scheduler exited, all joined, and every task ever created completed. |
| SchedulerShutdown.LastIdleEnds | scheduler.cpp:175-187 | The last scheduler to find nothing to do, main waiting, sets this off: a run leads from there to the same end. |
| SchedulerTheorems.AllIdleSound | scheduler.cpp:153-169 | When `all_idle` has returned true no task is queued, in flight or in hand, every worker is idle, and every task ever created has completed. |
| SchedulerTheorems.QuiescencePersists | scheduler.cpp:203-217 | From then on no step creates, starts or finishes a task. |
| SchedulerTheorems.ExitAssertion | scheduler.cpp:835-841 | The assertion of `should_exit` holds in every run: a scheduler that sees its exit signal has an empty deque and no worker that holds a task. |
| SchedulerTheorems.TaskConservation | scheduler.cpp:472-494 | Every task created is in exactly one deque, hand, worker or the list of completed tasks, and no other task is anywhere. |
| SchedulerTheorems.NeverTwice | worker.cpp:188-209 | No task is held by two workers, queued or completed while one holds it, or completed twice. |
| SchedulerTheorems.WorkerPartition | scheduler.cpp:805-817 | At every step each worker is in the one place its state names, exactly the active ones hold a task, and the yielded slot is free while a worker runs. |
| SchedulerTheorems.IdleCounter | scheduler.cpp:175-192 | `m_idle_schedulers` is the number of schedulers in idle sleep; its decrement never wraps. |
| SchedulerProof.PushKeeps | scheduler.cpp:339-345 | An enqueue that is not yet notified keeps the invariant: the notification is owed. |
| SchedulerProof.StealTaskKeeps | scheduler.cpp:487-492 | A steal moves one task from a deque to a hand and wakes nobody, without losing a wake-up. |
| SchedulerProof.InspectKeeps | scheduler.cpp:163-166 | The inspection under all scheduler mutexes ends in a yes only if nothing is busy anywhere. |
| RunningTokenProof.SingleRunner | scheduler.cpp:743-751 | From the end of construction until exit at most one thread of a scheduler is outside `Worker::wait`. |
| RunningTokenProof.OneFlag | worker.cpp:148-158 | With `m_workers_mtx` free exactly one `m_running` flag is up, and its worker runs or leaves the wait with its next step, spurious wake-ups included. |
| RunningTokenProof.TwoFlags | scheduler.cpp:743-751 | Two flags are up only under the mutex, between the notification and the wait of a switch. |
| RunningTokenProof.StartedOneByOne | worker.cpp:74-81 | When the next worker is constructed all earlier ones are parked, and none runs before the launch. |
| RunningTokenProof.ConstructorWoken | scheduler.cpp:766-779 | A constructor that waits for its worker is woken by the step with which the worker parks. |
| RunningTokenRuns.SwitchCompletes | scheduler.cpp:743-751 | A switch to any other worker comes to its end: a run leads to the state in which that worker runs, holds the token, and all others wait with their flags down. |
| RunningTokenRuns.TokenTaken | worker.cpp:148-158 | Whoever has the token but is still in its wait leaves it with its next step, the first worker after the launch included, which alone goes on to schedule. |
| RunningTokenRuns.StartUpCompletes | scheduler.cpp:237-254 | From every point of the construction a run leads to its end: all threads started and parked, the first launched. |
| RunningTokenRuns.DestructionCompletes | worker.cpp:83-93 | Once exit has been signalled a run leads to the end of every thread and of all joins. |
| RunningTokenProof.JoinReturns | worker.cpp:83-93 | The thread a destructor joins has finished or finishes with its next step, where the return of the last runner from its sleep and from `schedule` counts as one. |
| SharedMutexState.IncExact | shared_mutex.hpp:49-56 | `++` on the packed word counts one reader and leaves the write bit alone if and only if the count is below its maximum. |
| SharedMutexState.DecExact | shared_mutex.hpp:47-51 | `--` counts one reader off and leaves the write bit alone if and only if there is a reader. |
| SharedMutexState.WriteOpsKeepReaders | shared_mutex.hpp:58-62 | Setting and clearing the write bit leave the reader count alone. |
| SharedMutexProof.Exclusion | shared_mutex.cpp:28-131 | Over every run, timeouts included: a writer excludes all other holders, the reader count is the number of shared holders, and the write bit belongs to exactly one entered or active writer. |
| SharedMutexProof.NoStrandedWaiter | shared_mutex.cpp:48-98 | A sleeper at an open gate always has its notification on the way, and the second gate has at most one waiter. |
| SharedMutexProof.NeverStuck | shared_mutex.cpp:28-98 | While nobody holds the lock and somebody is inside an operation, some thread can move without a timeout. |
| SharedMutexProof.Gate2Single | shared_mutex.cpp:34-34 | At most one thread waits at the second gate, and it is the one the write bit belongs to. |
| SharedMutexProof.FailKeeps | shared_mutex.cpp:106-116 | The rollback of a timed writer keeps the invariant: the write bit goes together with a promised `notify_all`. |
| SharedMutexProof.EndReadKeeps | shared_mutex.cpp:76-98 | The choice of the gate to notify after a shared unlock keeps the invariant. |
| SharedMutexCalls.EntersOrWaits | shared_mutex.cpp:28-131 | A call of `lock`, `lock_shared` or a timed variant in any reachable state, its thread moving alone: a writer gets in exactly on an empty word, waits at the second gate with its request in the word exactly behind readers, and at the first gate exactly behind a writer; a reader gets in exactly with no writer and room left; with the deadline passed those who would wait leave instead, a writer at the second gate taking its request back and flagging all waiters of the first. |
| SharedMutexCalls.SleeperGoesOn | shared_mutex.cpp:28-131 | A sleeper that has been flagged or is late leaves its list and comes to the same outcomes from its gate. |
| SharedMutexCalls.TriesOnce | shared_mutex.cpp:37-74 | `try_lock` gets in exactly on an empty word, `try_lock_shared` exactly with no writer and room left; otherwise nothing changes. |
| SharedMutexCalls.WriterLeaves | shared_mutex.cpp:48-56 | `unlock` takes the write bit back and flags exactly the waiters of the first gate. |
| SharedMutexCalls.ReaderLeaves | shared_mutex.cpp:76-98 | `unlock_shared` takes one reader off; exactly the last one behind a write request flags the writer at the second gate. |
| LockClasses.SharedMutex.WriteGate1Section | shared_mutex.cpp:28-34 | Refines `Pass` at the first gate: the write bit goes up, the count stays. |
| LockClasses.SharedMutex.TimedGate2Section | shared_mutex.cpp:109-119 | Refines `Pass` or `Fail` at the second gate: the rollback takes the write bit back and owes a `notify_all`. |
| LockClasses.SharedMutex.ReadGate1Section | shared_mutex.cpp:58-63 | Refines `Pass` for a reader: one more, the write bit clear. |
| LockClasses.SharedMutex.UnlockSection | shared_mutex.cpp:48-56 | Refines the step of `unlock`: the write bit goes, the count stays, and a `notify_all` is owed. |
| LockClasses.SharedMutex.TryLockSection | shared_mutex.cpp:37-46 | Refines the step of `try_lock`: takes the write bit exactly when there is neither a reader nor a writer, and changes nothing else. |
| LockClasses.SharedMutex.TryLockSharedSection | shared_mutex.cpp:65-74 | Refines the step of `try_lock_shared`: counts one reader exactly when there is no writer and room for one. |
| LockClasses.SharedMutex.UnlockSharedSection | shared_mutex.cpp:76-98 | Refines the step of `unlock_shared`: one reader less, and the second gate is notified exactly by the last reader under a write request. |
| CondVarWait.FlagFront | condition_variable.cpp:40-45 | Exactly the front of the list is flagged besides those already flagged. |
| CondVarWait.FlagAll | condition_variable.cpp:47-52 | Exactly the members of the list are flagged besides those already flagged. |
| CondVarWait.NotifyInARow | condition_variable.cpp:40-45 | Any number of `notify_one` calls in a row has the effect of one. |
| NotifyOne.RaisesIffFrontDown | condition_variable.cpp:40-45 | In every state of every run a `notify_one` on a list with waiters raises a flag if and only if the flag of the front is down, and touches no other. |
| NotifyOne.FrontStays | condition_variable.cpp:40-64 | A waiter at the front stays there while it is listed, over any run of other waiters, time-outs and notifiers. |
| NotifyOne.OtherOnlyAfterRemoval | condition_variable.cpp:40-77 | A later call finds another waiter at the front only after the former front has removed itself. |
| NotifyOne.TwoCallsWakeOne | condition_variable.cpp:40-45 | A run of two waiters and two calls at whose end the second waiter is parked with its flag down. |
| ConditionVariableClass.ConditionVariable.NotifyOne | condition_variable.cpp:40-45 | Refines `FlagFront` on the workers' flags, and wakes the front's scheduler. |
| ConditionVariableClass.ConditionVariable.NotifyAll | condition_variable.cpp:47-52 | The loop refines `FlagAll` and wakes the scheduler of every waiter. |
| ConditionVariableClass.ConditionVariable.AddWaiter | condition_variable.cpp:54-58 | Appends the worker. |
| ConditionVariableClass.ConditionVariable.RemoveWaiter | condition_variable.cpp:60-64 | Unlinks the worker and keeps the order of the rest. |
| ConditionVariableClass.RemoveById | condition_variable.cpp:60-64 | Unlinking the worker object is unlinking its number in the transition systems. |
| Waiters.SleepNeverEarly | worker.cpp:117-128 | A plain sleep never returns before its deadline, over every run with any number of condition variables and notifiers. |
| Waiters.OnOneList | condition_variable.cpp:54-77 | A worker is on at most one waiter list, once, exactly between its add and its remove. |
| Waiters.FlaggedWhileListed | condition_variable.cpp:40-52 | A flag goes up only while its worker is on a list whose spinlock is held. |
| Waiters.ListStaysWhileLocked | condition_variable.cpp:47-52 | The list a notifier walks does not change under it. |
| Waiters.WaitEndsFlagged | condition_variable.cpp:66-77 | A wait ends only with the flag up or the deadline passed; one without deadline only with the flag up. |
| WaitersCalls.WaitParks | condition_variable.cpp:66-77 | A wait or a plain sleep leaves its worker parked and last in its list, flag down and deadline set, unless the deadline has passed already. |
| WaitersCalls.ParkedUntil | worker.hpp:145-155 | A parked worker stays so if and only if it has not been flagged and its deadline is still to come. |
| WaitersCalls.ReleasedReturns | condition_variable.cpp:66-77 | A released worker leaves its list, wherever it is in it, and returns; nothing else changes. |
| WaitersCalls.NotifyFlags | condition_variable.cpp:40-52 | `notify_one` flags the front and `notify_all` every member, nobody else, and the list stays as it is. |
| LockCount.IncExact | mutex.cpp:78-101 | The increment is refused exactly at 2^32 - 2, a refusal changes nothing, and the decrement undoes an increment. |
| LockCount.LocksCount.IncInPlace | mutex.cpp:78-94 | The increment with rollback, in place, refines `Inc`. |
| LockCount.LocksCount.DecInPlace | mutex.cpp:98-101 | The decrement, in place, refines `Dec`. |
| TimedLockProof.Exclusion | mutex.cpp:151-243 | At most one thread holds more locks than it released, the fields agree with who and how often, and the lock is free exactly when nobody does. |
| TimedLockProof.NeverStrands | mutex.cpp:178-186 | With the inner mutex and the lock free, a waiter in the list means an owed `notify_one` or a listed waiter that is signalled or awake. |
| TimedLockProof.NeverStuck | mutex.cpp:151-186 | While nobody holds the lock and somebody is inside an operation, some thread can move without a timeout. |
| TimedLockProof.FreedWhenBalanced | mutex.cpp:235-243 | An unlock frees the lock exactly when it balances the holder's locks. |
| TimedLockProof.LevelsAreCounted | mutex.cpp:188-199 | Locking again by the holder counts one level up to 2^32 - 2, where it is refused and nothing changes. |
| TimedLockProof.FrontWakes | condition_variable.cpp:40-45 | The notification of an unlock reaches a waiter that is asleep or awake, never one that is about to sleep on a free lock. |
| TimedLockCalls.FreeLockIsTaken | mutex.cpp:151-232 | A free lock is taken by every kind of call whose thread finds the inner mutex free, one level held then, late or not. |
| TimedLockCalls.HolderLocksAgain | mutex.cpp:188-214 | The holder of the recursive lock gets one level more, up to the limit, where nothing changes. |
| TimedLockCalls.BusyIsRefused | mutex.cpp:158-176 | A lock somebody else holds refuses `try_lock` and a timed attempt past its deadline, and nothing changes. |
| TimedLockCalls.BusyIsWaitedFor | mutex.cpp:151-156 | Any other caller goes to sleep as the last in the list, its flag down and the inner mutex free. |
| TimedLockCalls.SleeperGoesOn | condition_variable.cpp:66-77 | A sleeper that has been flagged or is late takes a free lock, gives up on a held one if late, and else sleeps on, now last in the list. |
| TimedLockCalls.UnlockGivesBack | mutex.cpp:178-186 | An unlock gives one level back; exactly with the last one the lock is free and the first waiter flagged, nobody else. |
| LockClasses.TimedMutex.LockSection | mutex.cpp:151-156 | The critical section refines `Take`. |
| LockClasses.TimedMutex.TrySection | mutex.cpp:158-176 | Succeeds exactly when the lock is free, and refines `Take` then. |
| LockClasses.TimedMutex.UnlockSection | mutex.cpp:178-186 | Refines `Unlock`. |
| LockClasses.RecursiveTimedMutex.LockSection | mutex.cpp:188-199 | Refines `Take` for a free lock and for the holder; fails exactly at the limit. |
| LockClasses.RecursiveTimedMutex.TryLockSection | mutex.cpp:201-214 | Succeeds exactly for a free or own lock below the limit, and changes nothing otherwise. |
| LockClasses.RecursiveTimedMutex.TryUntilSection | mutex.cpp:224-232 | Succeeds exactly when the lock is free. |
| LockClasses.RecursiveTimedMutex.UnlockSection | mutex.cpp:235-243 | Refines `Unlock`, and reports a notification exactly when the lock became free. |
| SpinMutexProof.Exclusion | mutex.cpp:49-145 | At the grain of single memory accesses: one holder at most, the flag set for as long, and the stored id that of its owner. |
| SpinMutexProof.CountIsDepth | mutex.cpp:105-145 | The non-atomic lock count is never out of step with the holder's levels and stays below 2^32 - 1. |
| SpinMutexProof.HolderRecognised | mutex.cpp:49-59 | The call of `Mutex::lock` is refused if and only if the caller holds the lock through `lock`; the recursive mutex counts one more level if and only if the caller is the holder. |
| SpinMutexProof.TryLockUnrecorded | mutex.cpp:61-64 | A run in which the holder, having come in by `try_lock`, is not refused by its own `lock` and spins. |
| SpinMutexProof.SelfDeadlockLasts | mutex.cpp:49-64 | Such a holder never gets out of its own `lock`, whatever other threads do. |
| SpinMutexProof.ActsAtomically | mutex.cpp:105-145 | Every step changes nobody's level, or is one lock with nobody else holding, or one unlock by a holder: the fine-grained locks refine atomic ones. |
| SpinMutexProof.FreedWhenBalanced | mutex.cpp:139-145 | The flag is cleared only with no level left anywhere, and exactly after the unlock that balances. |
| SpinMutexCalls.FreeLockIsTaken | mutex.cpp:49-137 | A free lock of either kind is taken by `lock` and by `try_lock`: the steps of the caller alone end with one level held. |
| SpinMutexCalls.HolderLocksAgain | mutex.cpp:105-137 | The holder of the recursive mutex gets one level more by its own steps, up to the limit, where nothing changes. |
| SpinMutexCalls.BusyIsRefused | mutex.cpp:61-64 | `try_lock` on a lock somebody else holds returns and changes nothing. |
| SpinMutexCalls.UnlockGivesBack | mutex.cpp:66-145 | An unlock gives one level back by the holder's own steps, and the flag is clear afterwards exactly if it was the last. |
| Spinlock.LockWithTimeout | spinlock.cpp:100-119 | Takes the lock with the first attempt that can, or gives up after exactly 256 failures. |
| Spinlock.PlainLock | mutex.cpp:30-35 | Takes the lock with the first attempt that can, and yields once for each failed attempt after the 256th. |
| TaskWait.WaiterNotLost | task.hpp:86-110 | No reachable state has the task done and its waiter parked unflagged, or its scheduler asleep on the flag, without a notifier on the way. |
| TaskWait.ResultOnce | task.hpp:122-132 | A result is returned only after completion and at most once. |
| TaskWait.WaiterReturns | condition_variable.cpp:66-77 | Once the notifier is through, some forced step always brings the waiter closer to its return. |
| TaskWait.WaiterGetsOut | condition_variable.cpp:66-77 | From any such state the forced steps alone take the waiter out of its call, in no more of them than its distance; if the call is `get` it has had its result then. |
| TaskWait.TaskThenReturn | task.hpp:86-132 | From any state with a worker inside `wait` or `get`, the task not even run: a run of bounded length of the finisher, and of whoever it waits for, completes the task, and a second one takes the worker out of its call, with the result if it was `get`. |
| LockOrder.ProgramNeutral | condition_variable.cpp:40-64 | Every thread of any program takes the library's locks in rank order only and gives all of them back. |
| LockOrder.ScriptNeutral | worker.cpp:163-167 | The same for each operation inside any nest of user mutexes. |
| LockOrder.AllIdleNeutral | scheduler.cpp:163-166 | `all_idle` locks and unlocks all scheduler mutexes in index order. |
| LockOrder.LookNeutral | scheduler.cpp:203-217 | The predicate of `wait_exit` keeps the order because it gives up the global mutex. |
| LockOrder.UnreleasedGlobalBreaksOrder | scheduler.cpp:194-202 | Without that release the order would be broken. |
| LockUse.ScriptUses | worker.cpp:163-167 | Every operation takes each lock exactly as often as its source does, waits and context switches included, in any nest of sections. |
| LockUse.LooksUses | scheduler.cpp:203-217 | `wait_exit` takes its own mutex once for each evaluation and each scheduler's once for each that goes all the way. |
| LockOrder.NoCyclicWait | scheduler.cpp:544-554 | No cycle of any length of threads waits for each other's locks, in any run. |
| LockOrder.NoDeadlock | scheduler.cpp:153-217 | While some thread has something left to do, some thread can step. |

## Left out

- Real I/O, file handles, CPU affinity and `Options`: foreign calls or easy code; an I/O request is an answer that says completed or not.
- Memory orders, pauses and back-off of the spinlock: sequential consistency is assumed, only loads and exchanges are kept.
- Idle spinning and the times in `sleep`: an early return that may happen at any time.
- `min_load_scheduler`: the target of an enqueue is any scheduler.
- Fairness: where a result says that a run leads somewhere, it says that the threads can get there, not that every operating system lets them.
- Waiters held back because the reader count is at its maximum: `SharedMutex` assumes fewer threads than 2^31 - 1, where the configuration allows 64 times 256 (`config.hpp:53-59`).
- Several threads in `wait` or `get` of the same task: one notification is sent (`task.hpp:109`) and the taken flag is tested outside the mutex (`task.hpp:124`), so `TaskWait` has a single waiter.
- Exceptions, result storage, shared pointers, tracing, `Condition_variable_any`, `async` plumbing and the commented-out mutex (`mutex.hpp:237-292`): memory management, or easy or dead code.
- A critical section that does nothing but update fields and unlock is one step of its thread in the transition systems; those that read shared state several times, as in `sleep`, `all_idle`, the context switch and the notifiers of `Waiters`, are not merged.
- In `SharedMutex` and `TimedLock` a notification flags its waiters in one step; that the source flags them one by one under the spinlock of the list is in `Waiters` and `ConditionVariableClass`.
- The masks and shifts of the packed reader/writer word are written as division and remainder by 2^31.
- SchedulerClass.Scheduler.Schedule: over a given finite number of turns; how long a scheduler sleeps is up to its environment.
- TaskQueue.CompleteAndGetTwice: of one user; two users in `get` at once are the case of several waiters above.
- TaskQueue.TaskFlags.PrepareGet: starts where the wait in its middle has returned; that the wait returns and when is `TaskWait`.
- Spinlock.PlainLock: given that some attempt after the 256th can succeed; whether a contended spinlock is ever won is up to the machine.
- LockOrder.ProgramNeutral: user mutexes are nested in some fixed order and a wait gives up the innermost one, which the library leaves to its users.
