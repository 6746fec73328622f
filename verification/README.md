# Mordor in Dafny

Mordor is a cooperative fiber engine in C++: fibers, schedulers that run them on any
number of threads, synchronization objects for fibers, futures, timers, an epoll-based
I/O manager, fork-join helpers, and a few codecs. This project models the logic of that
engine and proves properties of it. `dafny verify dfyconfig.toml` checks everything. The
original program is not executed.

## How the model is built

* **Fibers, schedulers and synchronization objects are one step machine.** A step is one
  critical section, one compare-and-swap, or a stretch of code that touches only what its
  own thread holds. The context switch is a step of its own, so that other threads can act
  between the moment a fiber puts itself on a wait list and the moment it has left its
  stack. `FiberEngine.dfy` has the steps of `fiber.cpp` and of the run loop, for any number
  of threads and schedulers, spawned or hijacked, through `stop()`, `dispatch()` and the end of
  the loop; `FiberSync.dfy` has the synchronization objects, as classes and as the same operations
  on values; `World.dfy` puts both together and states the main results over runs.
  `EngineSafety.dfy` holds the invariant of the engine and the proof that the steps keep it;
  `EngineRuns.dfy` has the runs in which fibers also park with clients of any other kind.
* **Runs against the calls made in them.** `ScheduledItems.dfy` compares queues and started tasks, thread
  included, with what the calls of a run asked for; `SyncHistory.dfy` computes owners, wait lists, permits
  and signals from the calls on an object, and `ObjectRuns.dfy` does so in runs of all threads. None of
  these statements speaks of the auxiliary logs.
* **The end of a hijacked run loop.** That loop is the functor of a fiber. When it returns or throws, the
  fiber resumes the one that first left the thread to it, or the last one that yielded in `stop()`,
  wherever that one is. `StopCalls.dfy` says which of them it is; `HijackedRuns.dfy` proves that a
  run is safe exactly if it is, every time, the native fiber of the thread, suspended in `stop()` or
  `dispatch()` and nowhere else; `StopDiscipline.dfy` gives rules for client code that are enough
  for it; `Witnesses.dfy` has concrete runs, failing ones among them.
* **Functors and exceptions.** A run loop runs functors in a fiber of its own and keeps that fiber for the
  next one, if it finds it ended. What a task throws is kept in its fiber and looked for by the run loop it
  comes back to, in a step of its own. `TaskExceptions.dfy` says which run loops an exception ends,
  `ExceptionRuns.dfy` when these are the right ones.
* **Guards and assertions.** Guards of steps read program counters and the data the code tests. They never
  read the auxiliary fields, with one exception: client code may schedule, reset or wake only a
  fiber that it holds. A few `MORDOR_ASSERT`s are the duty of the caller and appear as guards: the
  state in `Fiber::reset()` called by client code (`fiber.cpp:161`), that the caller of `unlock()`,
  `unlockIfNotUnique()` or a condition's `wait()` owns the mutex and that the caller of `lock()` on a
  plain mutex does not, that `dispatch()` is called on the root thread and `stop()` from within only if
  there is one (`scheduler.cpp:102`, `115`, `199`), that a fiber client code schedules has not started or
  has ended without an exception (`fiber.cpp:254`), that a list of futures to wait for is not empty, that a
  file descriptor is positive and no event of it is registered twice (`iomanager_epoll.cpp:248-268`), and
  that no more bytes are handed back than were delivered. All other assertions of the modelled code are
  proved, or fail in a run that is shown, under an exact condition.
* **Scheduling** (`Scheduler.dfy`): the scan of the run queue as a loop, against a simple
  recursive specification of the batch.
* **Futures** (`Future.dfy`, `WaitAnyIndex.dfy`): the handshake on one word between a waiting fiber and the
  signallers of any number of futures, one read or compare-and-swap per step; `WaitThreads.dfy` runs
  it on any number of threads.
* **Timers** (`Timer.dfy`): the ordered set keyed on mutable objects, with the sentinel
  lookup, the wake-up flag, and 64-bit wrap-around written out; `TimerRuns.dfy` says what becomes of a timer,
  whatever the index looks like.
* **I/O manager** (`IOManager.dfy`): user-space masks, contexts and the counter against the
  kernel's interest set, an abstract map.
* **Fork-join** (`ParallelDo.dfy`, `ParallelForeach.dfy`): `parallel_do` and `parallel_foreach` as step machines,
  with termination.
* **Sequential parts**: the chunked Ragel driver (`Ragel.dfy`), the zero-copy cursor
  (`ZeroCopy.dfy`), base64 (`Base64.dfy`), `muldiv64` (`MulDiv.dfy`).

Auxiliary fields (logs, places, histories) record a run and are never read by the modelled
code. Clocks, the kernel's answers, allocation addresses and the moments at which
exceptions are thrown are parameters of the steps.

## Where the code does less than it seems to promise

Each of these is kept as the code has it, with a concrete case and the exact condition.

* A hijacked thread whose scheduler is asked to stop while the fiber it was hijacked from waits for
  something else resumes that fiber all the same: `lock()` returns to a fiber that does not own the
  mutex (`Witnesses.LockReturnsWithoutMutex`; exact condition `HijackedRuns.SafeIffUndisturbed`, rules
  that are enough `StopDiscipline.DisciplinedIsSafe`).
* `stop()` may be called by any task, and is documented to return at once there. While the native fiber
  is itself in a `stop()` that started the run loop, `m_callingFiber` is empty; then the task's
  `stop()` yields too and takes the place of the native fiber. The loop ends into the task, which has
  nowhere to go when it ends, and the native fiber stays suspended (`Witnesses.StopByTask`; same
  exact condition). On a spawned thread such a call fails an assertion at once
  (`Witnesses.StopOnSpawnedThread`; always then, `HijackedRuns.StopElsewhereIsUnsafe`).
* `dispatch()` is documented to come back to its caller when there is no more work. Called by a task it never
  does (`Witnesses.DispatchByTask`, `Witnesses.DispatchNeverReturns`; exact condition
  `StopCalls.ComesBackIff`: a fiber comes back exactly when the run loop ends and it is the native one).
* `waitAll` and `waitAny` on two or more futures, on a scheduler with two or more threads, can resume a
  fiber that is executing: each signaller queues it, and two threads take one entry each while it
  is suspended (`WaitThreads.ResumedTwice`; exact condition `WaitThreads.SafeIffOne`).
* An exception can end a run loop whose task did not throw, or be lost. `yieldTo()` looks for it after the
  fiber that came back has its new state; by then another thread may have resumed that fiber, and it
  may have failed there, or client code may have reset it (`ExceptionRuns.WrongLoopThrows`,
  `ExceptionRuns.ExceptionIsLost`; exact condition `ExceptionRuns.ItsOwnIffAlone`: never on one thread,
  possibly on two or more).
* A timer wake-up can be missed although the clock never goes back: `processTimers()` reads the clock before
  it takes the lock, an older reading that comes later passes for a rollover, and recurring timers get an
  earlier deadline that nobody announces. Any older reading will do before the clock has passed the
  threshold, five seconds by default; later, one that is older by more than the threshold
  (`Timers.WakeUpMissed`; exact condition `Timers.NoWakeUpMissed`, readings that are recent enough
  `Timers.RecentMissesNone`).
* `waitAny` can return the position of a future nobody has signalled, because the early
  exit steps the iterator back but not the index (`WaitAnyIndex.WaitAnyMisreports`; exact
  condition `WaitAnyIndex.RightIffFew`: never for up to three futures, possibly for four or more).
* The clock-rollover test does not follow its comment when the previous time is below the
  threshold or the step equals it (`Timers.RolloverExamples`; `Timers.RolloverRuleDiffers`).
* `RagelParser::run(const Buffer &)` depends on how the buffer is cut when a piece ends in a
  final state (`Ragel.BufferDisagrees`; `Ragel.BufferAgreesIff`).
* A partial `RagelParser::run()` of an empty piece at a null address, with no mark set, is taken for the end
  of the file (`Ragel.NullPieceEmits`; exact condition `Ragel.ChunkInvariance`).
* `muldiv64` loses bits for divisors above 2^32 (`MulDiv.InexactForLargeDivisors`;
  `MulDiv.ExactIff`).
* `parallel_foreach` asked for zero workers, or for a negative number other than -1,
  suspends its caller for good (`ParallelForeach.NoWorkersNoReturn`;
  `ParallelForeach.ReturnsIffWorkers`).
* `parallel_foreach` is documented to rethrow the first uncaught exception, and rethrows the last one
  recorded (`ParallelForeach.SecondReplacesFirst`; exact conditions `ParallelForeach.FirstIffOnly` and
  `ParallelForeach.FirstIffSequential`).
* Tasks taken in batches of more than one start in reverse order within the batch
  (`Scheduling.PairStartsReversed`; `Scheduling.FifoIff`).
* `base64decode` accepts padded strings whose unused bits are set (`Base64.UnusedBitsAccepted`;
  `Base64.EncodeDecodeIff`).
* `BufferZeroCopyInputStream::Next()` hands out a wrong length, and counts wrong from then on, for a
  piece of 2^31 bytes or more (`ZeroCopy.LargePieceMiscounted`; `ZeroCopy.ReadAll` and
  `ZeroCopy.BufferZeroCopyInputStream.Next`).

## Model

| member | source | states |
|---|---|---|
| `HijackedRuns.SafeIffUndisturbed` | mordor/scheduler.cpp:83-149 | a run is safe if and only if, whenever a hijacked run loop ends in it, the native fiber of the thread is suspended in stop() or dispatch() and the last stop() that yielded there was its own, and no stop() yields on a spawned thread |
| `HijackedRuns.SafeIffClean` | mordor/fiber.cpp:333-367 | the same in terms of the state. Safe: no fiber on two threads, every assertion met, every fiber once in one object, queue or batch, every parked fiber back as owner, every hijacked thread given back to its own fiber, nobody back from a stop() of another scheduler. Clean: every hijacked run loop that ends is told to return to the native fiber, which is in no object, queue, batch or on a thread, but suspended for just that, and stop() yields on root threads only |
| `HijackedRuns.UnawaitedIsUnsafe` | mordor/fiber.cpp:340-362 | the converse for one step: a run loop that ends while the native fiber is anywhere else, or into another fiber, leads to an unsafe state at once, if it has not ended badly before |
| `HijackedRuns.ClaimedIsUnsafe` | mordor/fiber.cpp:259-266 | a run loop that ends into another fiber does not give the thread back, and a fiber with a stack of its own will fail the assertion of yieldTo() when it ends |
| `HijackedRuns.StopElsewhereIsUnsafe` | mordor/scheduler.cpp:223-237 | a stop() that yields on a spawned thread fails the assertion that it is on the root thread |
| `HijackedRuns.UnhijackedIsSafe` | mordor/scheduler.cpp:239-408 | without hijacked threads every run is safe |
| `StopCalls.ClaimedIffOvertaken` | mordor/scheduler.cpp:97-130 | in clean runs the run fiber of a hijacked thread is told to return to another fiber than the native one if and only if the last stop() that yielded there was another fiber's, and that fiber is suspended in stop() |
| `StopCalls.ComesBackIff` | mordor/scheduler.cpp:195-204 | in clean runs, a fiber that stop() or dispatch() has suspended comes back in exactly the steps in which the run loop of that thread ends, and only if it is the native fiber |
| `StopCalls.ReturnsToNative` | mordor/fiber.cpp:333-367 | of the fibers suspended there, a run loop that ends cleanly returns to the native one and to no other |
| `StopCalls.NeverReturns` | mordor/scheduler.cpp:195-204 | in clean runs, another fiber than the native one that stop() or dispatch() has suspended stays suspended for good |
| `StopCalls.ClaimStep` | mordor/scheduler.cpp:169-185 | no other step of any thread changes that, the yields that set m_callingFiber included |
| `StopDiscipline.DisciplinedIsSafe` | mordor/scheduler.cpp:83-149 | it is enough that idle functions end only on request, that from then on the native fiber is in stop() or dispatch() or running, that an exception reaches its run loop only while it is suspended there, and that a task calls stop() only while m_callingFiber is set, that is after the native fiber has left through dispatch() or yield() |
| `Witnesses.LockReturnsWithoutMutex` | mordor/scheduler.cpp:343-355 | a run in which a stopping run loop resumes a fiber from lock() that does not own the mutex and still stands on its wait list |
| `Witnesses.StopReturns` | mordor/scheduler.cpp:123-130 | a run in which stop() called on the native fiber comes back with the run loop ended |
| `Witnesses.StopByTask` | mordor/scheduler.cpp:97-130 | a run in which a functor calls stop() while the native fiber is in stop(): the run loop ends into the functor, whose end will fail an assertion, and the native fiber stays suspended |
| `Witnesses.DispatchByTask` | mordor/scheduler.cpp:195-204 | a clean run in which a functor has called dispatch() and is suspended there |
| `Witnesses.DispatchNeverReturns` | mordor/scheduler.cpp:195-204 | however that run goes on cleanly, the functor stays there |
| `Witnesses.StopOnSpawnedThread` | mordor/scheduler.cpp:97-130 | a run in which a functor on a spawned thread calls stop() while the native fiber is in stop(), and is about to fail the root-thread assertion |
| `TaskExceptions.RethrowsIffFailed` | mordor/fiber.cpp:281-288 | in clean runs, a run loop rethrows if and only if the fiber that came back to it has ended with an exception and was not used again, or is about to end so on another thread |
| `TaskExceptions.FunctorExceptionArrives` | mordor/scheduler.cpp:373-402 | and what a functor throws reaches the run loop it ended on, whatever other threads do with the fiber they share |
| `TaskExceptions.ExceptionsKept` | mordor/fiber.cpp:310-325 | every step of the engine but these keeps this: exactly the failing and the failed fibers hold an exception |
| `ExceptionRuns.ItsOwnIffAlone` | mordor/fiber.cpp:281-288 | with n threads, every run loop in every clean run rethrows exactly if the task that came back to it has ended with an exception, if and only if n is at most one |
| `ExceptionRuns.AloneSeesItsOwn` | mordor/fiber.cpp:281-288 | the half for one thread, over every clean run |
| `ExceptionRuns.WrongLoopThrows` | mordor/fiber.cpp:281-286 | for every n from two on, a run in which a thread rethrows what a fiber threw on another thread after the first had seen it suspended |
| `ExceptionRuns.ExceptionIsLost` | mordor/fiber.cpp:155-166 | for every n from two on, a run in which a fiber that ended with an exception is reset by another thread before its run loop looks |
| `World.NoFiberRunsTwice` | mordor/fiber.cpp:251-296 | in clean runs, up to any point: no two threads are on the stack of one fiber, a fiber about to be resumed is on no thread, and every assertion the thread meets next in call, yield, yieldTo, entry and exit holds |
| `World.ReleasedBySuccessor` | mordor/fiber.cpp:281-288 | in clean runs, a fiber leaves EXEC only in a step of its successor after the context switch, when no thread is on its stack |
| `EngineRuns.NoFiberRunsTwice` | mordor/fiber.cpp:251-296 | the same safety in runs where fibers park with and are woken by clients of any kind that schedule a parked fiber once, single futures and fork-join helpers among them |
| `EngineRuns.ReleasedBySuccessor` | mordor/fiber.cpp:281-288 | and the same release rule there |
| `Witnesses.WokenBeforeItYields` | mordor/fibersynchronization.cpp:20-46 | a run in which a fiber is already back in the run queue while it is still executing between queueing itself and yielding |
| `World.WaitsInOnePlace` | mordor/fibersynchronization.cpp:217-285 | in clean runs, a fiber is once in one object, or once in one run queue, or once in one batch, and nowhere else |
| `World.ObjectsKeepOrder` | mordor/fibersynchronization.cpp:20-157 | in every run, clean or not: a free mutex, recursive or not, has no waiters and grants follow arrivals; a recursive one is owned exactly while its depth is positive; conditions release in order and, unless signals overlap, in that order to the mutex; permits are conserved; a signalled event has no waiters. The logs it speaks of are tied to the calls by `ObjectRuns` |
| `ObjectRuns.ObjectHistory` | mordor/fibersynchronization.cpp:20-347 | in every run, clean or not, each object goes from its constructed state through exactly the calls made on it, each by the fiber that ran on the calling thread |
| `ObjectRuns.MutexInOrder` | mordor/fibersynchronization.cpp:20-77 | in every run the mutex is owned by the fiber whose turn it is by the order of asking, and the others wait in that order |
| `ObjectRuns.NoSignalLost` | mordor/fibersynchronization.cpp:217-285 | in every run as many fibers have left a condition as signals found somebody there plus all those whom broadcasts found, and they are the first that came |
| `ObjectRuns.PermitsInOrder` | mordor/fibersynchronization.cpp:171-207 | in every run the first fibers to wait, as many as there were permits and notifications, are past the semaphore, the others wait in order, and the rest of the permits is available |
| `ObjectRuns.EventsInRuns` | mordor/fibersynchronization.cpp:296-347 | in every run an automatic event passes one wait for every set() that is not pending or wasted; a manual one is signalled exactly if set() came after the last reset() |
| `ObjectRuns.UnlockReleases` | mordor/fibersynchronization.cpp:66-77 | in clean runs a fiber that unlocks its last level is not the owner any more; the first waiter is, or nobody |
| `World.ParkedFiberReturnsAsOwner` | mordor/fibersynchronization.cpp:38-45 | in clean runs, a fiber back from a parked lock() or from a condition owns the mutex and is on the scheduler it left |
| `World.LetGoIsNotWaiting` | mordor/fibersynchronization.cpp:247-258 | in clean runs, a fiber being let go by a condition neither owns the mutex nor is on its list |
| `World.StoppedMeansFinished` | mordor/scheduler.cpp:151-156 | in clean runs, when stopping() answers true, everything scheduled has been started, batches are empty and no thread of the scheduler is in a task |
| `World.NothingLost` | mordor/scheduler.cpp:239-408 | at every step of every run, clean or not, what its history says was queued is queued, in a batch or started, counted with multiplicity and also on the exception path; `ScheduledItems.AskedAreServed` ties that history to the calls made |
| `ScheduledItems.AskedAreServed` | mordor/scheduler.h:78-90 | in every run, clean or not, each task with its thread is queued, in a batch or started together exactly as often as the calls of schedule() and switchTo() and the wake-ups of the run asked for it |
| `ScheduledItems.QueuedAsAsked` | mordor/scheduler.h:195-200 | every step appends exactly the task and thread it names to the queue it names, at its end, and to no other queue; only a pass or a failed pass changes a queue otherwise, and only a task taken from a batch counts as started |
| `ScheduledItems.StartedByItsThread` | mordor/scheduler.cpp:363-380 | in every run a task counts as started only in the step in which a thread takes it from the back of its batch; the task is for any thread or for that one, and unless its fiber has ended the thread goes on to resume it |
| `ScheduledItems.NobodyLeftOut` | mordor/scheduler.cpp:158-169 | in clean runs every wake-up and every switchTo() asks for something: the fiber exists and is queued, with the thread given or for any thread |
| `ScheduledItems.PassTakes` | mordor/scheduler.cpp:289-337 | a pass of the run loop takes the eligible tasks of a first part of the queue in order, at most a batch of them, stops early only with a full batch, and leaves the thread active exactly if it took something |
| `ScheduledItems.FailedPassPutsBack` | mordor/scheduler.cpp:392-402 | when a task throws, the rest of the batch is at the end of the queue in order and the thread is not active |
| `ScheduledItems.KeptIffEnded` | mordor/scheduler.cpp:373-383 | the fiber of a functor is kept, as good as new, exactly if it has ended, and forgotten otherwise |
| `ScheduledItems.StoppingIffAsked` | mordor/scheduler.cpp:95-119 | in every run a scheduler is stopping exactly if it was to begin with or stop() was called on it |
| `World.CountsActiveThreads` | mordor/scheduler.cpp:325-337 | in clean runs, the active counter is the number of active threads |
| `World.NextKeepsInv` | mordor/scheduler.cpp:239-408 | every step of every thread keeps the invariant that ties engine, wait lists and owners together, except the end of a run loop that nobody awaits and a stop() that yields on a spawned thread |
| `World.RunHoldsInv` | mordor/scheduler.cpp:239-408 | that invariant holds in every state up to the first such step |
| `EngineSafety.StepKeepsInv` | mordor/fiber.cpp:185-378 | every step of the engine but these keeps the agreement of fibers, threads, queues and counters |
| `EngineSafety.EndKeepsInv` | mordor/fiber.cpp:333-367 | the end of an awaited run loop keeps it too: exitPoint() of the run fiber resumes the native fiber |
| `EngineSafety.StepConserves` | mordor/scheduler.cpp:239-408 | no step loses or doubles an item of the queue's history, whatever state the engine is in; what enters the history is `ScheduledItems.QueuedAsAsked` |
| `EngineSafety.InvAsserts` | mordor/fiber.cpp:185-207 | the invariant implies the assertions of the fiber code |
| `EngineSafety.InvOneStack` | mordor/fiber.cpp:426-447 | the invariant gives every stack to at most one thread |
| `EngineSafety.OnlySuccessorReleases` | mordor/fiber.cpp:298-307 | one engine step ends an EXEC state only through the yielder hand-off of the fiber that took over |
| `EngineSafety.InvStopped` | mordor/scheduler.cpp:151-156 | the stop condition implies that all items were started |
| `EngineSafety.StartsInv` | mordor/scheduler.cpp:18-38 | spawned and hijacked threads start inside the invariant |
| `Scheduling.TakeIsFirstEligible` | mordor/scheduler.cpp:289-337 | the batch is the first min(batchSize, n) eligible items in queue order |
| `Scheduling.RestKeepsOrder` | mordor/scheduler.cpp:289-337 | what stays is the ineligible items up to a cut and everything behind it, in order |
| `Scheduling.TakeAndRestPartition` | mordor/scheduler.cpp:289-337 | batch and remaining queue together are the old queue |
| `Scheduling.TakenAreEligible` | mordor/scheduler.cpp:304-317 | what is taken is for any thread or for this one and was not seen executing; while the batch is not full nothing of that kind is left |
| `Scheduling.ScanIsTake` | mordor/scheduler.cpp:293-330 | a scan that stops with a full batch, or at the end, has computed that batch and that rest |
| `Scheduling.Scheduler.SelectBatch` | mordor/scheduler.cpp:289-337 | the loop takes the specified batch, keeps the activity flag and counter, announces work it leaves unless all threads are busy, and idles only with an empty queue |
| `Scheduling.FifoIff` | mordor/scheduler.cpp:289-367 | one thread starts distinct tasks in the order they were scheduled exactly if the batch size is one or there are fewer than two |
| `Scheduling.PairStartsReversed` | mordor/scheduler.cpp:363-367 | two tasks in a batch of two start the wrong way round |
| `Scheduling.Scheduler.RunBatch` | mordor/scheduler.cpp:363-367 | a batch is started from its back |
| `Scheduling.Scheduler.Pass` | mordor/scheduler.cpp:289-404 | a whole pass, with or without an exception at any task: started and queued together are the old queue; the batch is started from its back; what an exception leaves is queued behind the rest, in order, and the thread no longer counts as active |
| `Scheduling.Scheduler.ScheduleNoLock` | mordor/scheduler.h:194-200 | the item is last and the answer is whether the queue was empty |
| `Scheduling.Scheduler.ScheduleRange` | mordor/scheduler.h:91-108 | a range is queued in order and only an empty queue asks for a tickle |
| `FiberSync.PerformConserves` | mordor/fibersynchronization.cpp:20-347 | every operation of every object neither loses nor doubles a waiter; which waiters move is in `SyncHistory` |
| `FiberSync.PerformKeepsOk` | mordor/fibersynchronization.cpp:20-347 | every operation keeps its logs in order, conservation of permits, and "free or signalled means nobody waits" |
| `FiberSync.WokenWasHeld` | mordor/fibersynchronization.cpp:66-77 | whoever an operation schedules was waiting in that object |
| `FiberSync.OwnerMoves` | mordor/fibersynchronization.cpp:20-77 | ownership passes only to a caller that finds the mutex free or to the fiber being scheduled; when it passes is `SyncHistory.MutexServesInOrder` |
| `SyncHistory.MutexServesInOrder` | mordor/fibersynchronization.cpp:20-77 | after any calls, the n-th fiber to ask (by lock(), or let go by a condition) owns the mutex once n-1 owners have given up their last level, those behind it wait in order, and a mutex nobody is entitled to is free |
| `SyncHistory.LevelsBalance` | mordor/fibersynchronization.cpp:87-157 | for every fiber: its lock() calls, nested or not, and releases from conditions are its unlock() and wait() calls plus the levels it holds plus what it still waits for |
| `SyncHistory.ConditionServesInOrder` | mordor/fibersynchronization.cpp:217-285 | the list of a condition is the fibers that called wait(), in order, without as many of the first as signals found somebody plus what broadcasts found |
| `SyncHistory.SignalTakesFirst` | mordor/fibersynchronization.cpp:241-246 | signal() on a list takes its head off and into the hands of the caller; on an empty one it does nothing |
| `SyncHistory.SignalHandsOver` | mordor/fibersynchronization.cpp:247-257 | who is let go gets a free mutex and is scheduled, or goes behind those who wait for it |
| `SyncHistory.UnlockHandsOn` | mordor/fibersynchronization.cpp:66-77 | unlock() of the last level leaves the mutex to the first waiter, who is scheduled, or to nobody |
| `SyncHistory.SemaphoreServesInOrder` | mordor/fibersynchronization.cpp:171-207 | the state of a semaphore depends only on who waited in which order and on how many notify() calls there were, not on how they interleave |
| `SyncHistory.AutomaticPassesOncePerSet` | mordor/fibersynchronization.cpp:296-326 | for an automatic event: waits that passed plus a pending signal plus wasted ones equals the number of set() calls |
| `SyncHistory.ManualPassesBetween` | mordor/fibersynchronization.cpp:296-347 | a wait() on a manual event parks exactly if the last of set() and reset() before it was not a set(); after a set() nobody waits |
| `SyncHistory.SetTakesAlong` | mordor/fibersynchronization.cpp:312-340 | set() takes along the first waiter of an automatic event or all of a manual one, in order, for the caller to schedule; without waiters it is remembered |
| `FiberSync.AdmitAllSnoc` | mordor/fibersynchronization.cpp:266-284 | letting a list go at once equals letting it go one by one |
| `FiberSync.FiberMutex.Lock` | mordor/fibersynchronization.cpp:20-46 | takes a free mutex, otherwise the caller is last in line |
| `FiberSync.FiberMutex.UnlockNoLock` | mordor/fibersynchronization.cpp:66-77 | hands the mutex to the first in line at once and schedules it alone |
| `FiberSync.FiberMutex.UnlockIfNotUnique` | mordor/fibersynchronization.cpp:54-64 | unlocks exactly when somebody waits and otherwise changes nothing |
| `FiberSync.RecursiveKept` | mordor/fibersynchronization.cpp:89-157 | lock, unlock and unlockIfNotUnique keep "owned exactly while the depth is positive, waited for only while owned" |
| `FiberSync.NestingBalances` | mordor/fibersynchronization.cpp:89-128 | n further locks by the owner are undone by n unlocks that schedule nobody |
| `FiberSync.RecursiveFiberMutex.Lock` | mordor/fibersynchronization.cpp:89-118 | the owner goes deeper, anybody else meets an ordinary mutex |
| `FiberSync.RecursiveFiberMutex.Unlock` | mordor/fibersynchronization.cpp:120-128 | only the last level hands over, and the new owner starts at depth one |
| `FiberSync.RecursiveFiberMutex.UnlockIfNotUnique` | mordor/fibersynchronization.cpp:130-143 | true exactly when somebody waits, although a waiter gets the mutex only from depth one |
| `FiberSync.FiberCondition.Wait` | mordor/fibersynchronization.cpp:217-234 | queues the caller and releases the mutex in one step |
| `FiberSync.FiberCondition.Take` | mordor/fibersynchronization.cpp:236-246 | the first critical section of signal() takes the oldest waiter |
| `FiberSync.FiberCondition.Deliver` | mordor/fibersynchronization.cpp:247-258 | the second gives it a free mutex and schedules it, or a place in line |
| `FiberSync.FiberCondition.Broadcast` | mordor/fibersynchronization.cpp:260-285 | everybody moves to the mutex in order, and only the first is scheduled, only if it was free |
| `FiberSync.FiberSemaphore.Wait` | mordor/fibersynchronization.cpp:171-194 | takes a permit or queues, keeping initial + notifies = available + granted and arrival order |
| `FiberSync.FiberSemaphore.Notify` | mordor/fibersynchronization.cpp:196-207 | the oldest waiter gets the permit, or it becomes available; the same balance |
| `FiberSync.FiberEvent.Wait` | mordor/fibersynchronization.cpp:296-310 | passes a signalled event, consuming it in automatic mode, or queues |
| `FiberSync.FiberEvent.Set` | mordor/fibersynchronization.cpp:312-340 | releases the first waiter or all of them in order; nobody waits for a signalled event |
| `FiberSync.FiberEvent.Reset` | mordor/fibersynchronization.cpp:342-347 | clears the signal and releases nobody |
| `Futures.StepKeepsInv` | mordor/future.h:125-168 | every step of waiter and signallers keeps the agreement of words, tokens and counts |
| `Futures.RunHoldsInv` | mordor/future.h:125-168 | that agreement in every state of every run |
| `Futures.HandshakeAsserts` | mordor/future.h:146-168 | a signaller that finds a waiter finds its scheduler; startWait() never meets a waiter |
| `Futures.NoStrayWakeup` | mordor/future.h:222-275 | when the wait is over the fiber yielded exactly as often as it was scheduled and nobody will schedule it for this wait again |
| `Futures.NoLostWakeup` | mordor/future.h:146-168 | when every signaller is done and the wait is not over, the fiber has a step to take, a yield included: its wake-up has come |
| `Futures.WaitAllSignalled` | mordor/future.h:222-232 | waitAll() and a single wait() return only when all are signalled; a single wait yields exactly if the signaller scheduled it |
| `Futures.WaitAnyAllPending` | mordor/future.h:255-275 | after registering with all, the result is the smallest position found signalled and the others forgot the fiber |
| `Futures.WaitAnyEarlyIndex` | mordor/future.h:245-267 | the formula of the result on the early path, in terms of what the run found signalled |
| `WaitThreads.SafeIffOne` | mordor/future.h:222-275 | waitAll(), and likewise waitAny(), on m futures with n threads never resumes an executing fiber in any run if and only if m or n is one |
| `WaitThreads.ResumedTwice` | mordor/scheduler.cpp:311-337 | for all m and n from two on, a run in which a thread is about to resume the waiting fiber while another runs it |
| `WaitThreads.WaitOver` | mordor/future.h:222-275 | on any number of threads, when the wait is over the fiber is in no run queue and no batch, and after waitAll() every future is signalled |
| `WaitThreads.GoesOn` | mordor/future.h:146-168 | when every signaller is done and the wait is not over, some thread has a step to take, unless the assertion has failed |
| `WaitThreads.Projection` | mordor/future.h:125-168 | without its threads every run is a run of the handshake, so that the results on it carry over |
| `WaitAnyIndex.RightIffFew` | mordor/future.h:234-275 | waitAny() on n futures returns a signalled one in every run if and only if n is at most three |
| `WaitAnyIndex.FewAreRight` | mordor/future.h:254-271 | every run on up to three futures returns a position found signalled |
| `WaitAnyIndex.WaitAnyMisreports` | mordor/future.h:247-253 | for every n from four on, a run of waitAny() that returns an unsignalled future |
| `Timers.FindIsMembership` | mordor/timer.cpp:326-344 | in a sorted index the lookup by key finds a timer exactly if it is registered |
| `Timers.RegisteredValid` | mordor/timer.cpp:181-199 | registering keeps the index equal to the live timers, in order |
| `Timers.CancelledValid` | mordor/timer.cpp:104-118 | cancelling keeps the index exact too, and the lookup assertion holds; what is cancelled is in `TimerRuns` |
| `Timers.RefreshedValid` | mordor/timer.cpp:120-135 | so does refreshing, although the key changes |
| `Timers.ResetValid` | mordor/timer.cpp:137-166 | so does resetting |
| `Timers.ProcessedValid` | mordor/timer.cpp:264-306 | so does processing, with recurring timers put back |
| `Timers.ExpiredAreDue` | mordor/timer.cpp:264-306 | without a rollover exactly the live timers that are due expire, in order; with one, all |
| `Timers.RolledOverExactly` | mordor/timer.cpp:244-262 | what the wrapping comparison really tests |
| `Timers.RolloverRuleDiffers` | mordor/timer.cpp:244-262 | exactly when it agrees with the documented rule |
| `Timers.RolloverExamples` | mordor/timer.cpp:253-254 | two clock readings on which it does not |
| `Timers.NoWakeUpMissed` | mordor/timer.cpp:120-306 | in a run the index agrees with the live timers and, after nextTimer(), a wake-up has been asked for or no live timer is due before the deadline that call saw, if and only if no processTimers() that takes an old reading for a rollover gives a recurring timer an earlier deadline than that |
| `Timers.ProcessMissesNoneIff` | mordor/timer.cpp:264-306 | the same for one call of processTimers() |
| `Timers.WakeUpMissed` | mordor/timer.cpp:269-303 | a run with the default threshold and a clock that never goes back in which it does |
| `Timers.RecentMissesNone` | mordor/timer.cpp:244-306 | no wake-up is missed if every reading is no older than the previous one, or older by no more than the threshold once the clock has passed the threshold |
| `TimerRuns.DoChanges` | mordor/timer.cpp:104-199 | what every operation does to the timers: a timer is due its period after it was registered, refreshed, reset from now or expired; any other reset keeps its start; cancel and a last expiry take the callback; no other timer changes |
| `TimerRuns.CancelRemoves` | mordor/timer.cpp:104-118 | a cancelled live timer has no callback and is not in the index; every other timer and the order of the others are as before |
| `TimerRuns.CancelledForGood` | mordor/timer.cpp:104-118 | in every run, after cancel() the timer has no callback in any later state and no later processTimers() returns it |
| `TimerRuns.ReturnedOnce` | mordor/timer.cpp:291-304 | in every run a timer that does not recur is returned by at most one processTimers() |
| `TimerRuns.AnnouncedIffFirst` | mordor/timer.cpp:137-199 | an earlier deadline is announced exactly when a timer that is registered or started anew comes before all live ones, until nextTimer() takes it back |
| `Timers.TimerManager.RegisterTimer` | mordor/timer.cpp:181-199 | the new timer, due its period after now, is in its place, and the first new front since nextTimer() is announced |
| `Timers.TimerManager.Cancel` | mordor/timer.cpp:104-118 | the timer has no callback and is not in the index, no other timer changes, and the answer is whether it was live |
| `Timers.TimerManager.Refresh` | mordor/timer.cpp:120-135 | a live timer is due its period after now and no other changes |
| `Timers.TimerManager.ResetTimer` | mordor/timer.cpp:137-166 | changes the period and, from now or from the old start, the deadline of a live timer; announces a new front |
| `Timers.TimerManager.NextTimer` | mordor/timer.cpp:224-242 | the time until the earliest live deadline, zero exactly if it has come, all ones if there is none |
| `Timers.TimerManager.FindExpired` | mordor/timer.cpp:281-289 | the sentinel lookup ends after the last due timer whatever the sentinel's address |
| `Timers.TimerManager.ProcessTimers` | mordor/timer.cpp:264-306 | returns the callbacks of the expired timers in order, none of them empty, and leaves the specified state |
| `IoManager.EveryRegistrationAccountedFor` | mordor/iomanager_epoll.cpp:245-367 | in every run masks, counter and kernel agree, bits are set exactly with armed contexts, and every registration ever made is pending, scheduled once or dropped once |
| `IoManager.CountZeroMeansIdle` | mordor/iomanager_epoll.cpp:369-375 | the counter that stopping() reads is zero exactly when nothing is pending, and then the kernel watches nothing |
| `IoManager.DoSound` | mordor/iomanager_epoll.cpp:245-367 | one action keeps the agreement, fails only when the kernel refuses for a reason of its own, and then fires and drops nothing |
| `IoManager.RegisterAgrees` | mordor/iomanager_epoll.cpp:245-290 | registering keeps the agreement, and ADD or MOD is the operation the kernel accepts |
| `IoManager.TriggerAllConsumes` | mordor/iomanager_epoll.cpp:459-466 | triggering read, write and close in turn consumes exactly the registered ones among them |
| `IoManager.DispatchSound` | mordor/iomanager_epoll.cpp:422-467 | dispatching one kernel event loses no registration, and something was triggered whenever the assertion is reached; which ones is `IoManager.FiresByBits` |
| `IoManager.DispatchAllSound` | mordor/iomanager_epoll.cpp:409-470 | a refused epoll_ctl() on one event neither stops the pass nor loses a registration; which ones fire is `IoManager.PassFiresByBits` |
| `IoManager.FiresByBits` | mordor/iomanager_epoll.cpp:430-467 | an accepted event fires a pending reader exactly on input, error or hang-up, a pending writer exactly on output, error or hang-up, a pending close exactly if the other end closed, and leaves every other registration and descriptor alone |
| `IoManager.PassFiresByBits` | mordor/iomanager_epoll.cpp:409-470 | over a whole array of events, a pending registration is fired exactly if one of the accepted events is about it, and stays pending exactly if none is |
| `IoManager.RefusedChangesNothing` | mordor/iomanager_epoll.cpp:448-458 | what the kernel refuses changes nothing, and is reported exactly if there was something to do |
| `IoManager.TakenBack` | mordor/iomanager_epoll.cpp:293-367 | cancelEvent() of a pending registration fires it, unregisterEvent() drops it, and all other registrations stay |
| `IoManager.IOManager.RegisterEvent` | mordor/iomanager_epoll.cpp:245-290 | arms an empty context on both sides, or throws with both masks unchanged |
| `IoManager.IOManager.UnregisterEvent` | mordor/iomanager_epoll.cpp:293-331 | takes the event back on both sides and forgets the context |
| `IoManager.IOManager.CancelEvent` | mordor/iomanager_epoll.cpp:333-367 | takes the event back on both sides and schedules the context |
| `IoManager.IOManager.TriggerEvent` | mordor/iomanager_epoll.cpp:124-139 | consumes a registered event and schedules its context |
| `IoManager.IOManager.Dispatch` | mordor/iomanager_epoll.cpp:409-470 | the loop over the event array: pending before is pending after plus scheduled, and exactly those are scheduled that an accepted event is about |
| `ParallelDo.AtMostParallelism` | mordor/parallel.cpp:15-35 | in every run at most `parallelism` functors are in their bodies, if it is positive, and never more than functors |
| `ParallelDo.ParallelismReached` | mordor/parallel.cpp:53-71 | for every n above one and every parallelism a run with min(n, parallelism) functors in their bodies at once, so the bound is exact |
| `ParallelDo.CallerIsLast` | mordor/parallel.cpp:31-35 | the caller is scheduled at most once, and then every functor has ended and no worker has a step left |
| `ParallelDo.ReturnsFirstException` | mordor/parallel.cpp:70-78 | all functors ran, and the exception passed on is the one of the lowest position that threw |
| `ParallelDo.AlwaysReturns` | mordor/parallel.cpp:37-79 | no run is longer than 8n + 2 steps and a run that cannot continue has returned: no deadlock, whatever the parallelism |
| `ParallelDo.PassOn` | mordor/parallel.cpp:73-78 | the loop over the slots finds the first exception |
| `ParallelDo.NextKeepsInv` | mordor/parallel.cpp:15-70 | every step keeps the counter equal to the finished workers and the missing permits equal to the holders |
| `ParallelForeach.HandsOutInOrder` | mordor/parallel.h:61-71 | elements are handed out in iteration order, each once, and none both finishes and fails |
| `ParallelForeach.NoneAfterException` | mordor/parallel.h:63-69 | after an exception is recorded nothing more is handed out |
| `ParallelForeach.AtMostParallelism` | mordor/parallel.h:109-135 | in every run no more functors run at once than the parallelism asked for, four by default, or than there are elements |
| `ParallelForeach.ParallelismReached` | mordor/parallel.h:109-135 | and for every size and parallelism a run reaches that number |
| `ParallelForeach.CallerIsLast` | mordor/parallel.h:72-87 | the caller is scheduled at most once, when all workers are gone; without exceptions every element is then processed; the exception passed on is the last recorded |
| `ParallelForeach.FirstIffOnly` | mordor/parallel.h:63-69 | the caller gets the first exception if and only if no second one was recorded |
| `ParallelForeach.FirstIffSequential` | mordor/parallel.h:107-140 | for a parallelism other than one, it does so in every run that comes back if and only if there is at most one element, or no run comes back |
| `ParallelForeach.SecondReplacesFirst` | mordor/parallel.h:63-69 | for every collection of two or more and every parallelism of two or more, a run with two functors in flight that both throw |
| `ParallelForeach.ReturnsIffWorkers` | mordor/parallel.h:107-140 | every run is finite, and it ends with the caller returned exactly if at least one worker was asked for |
| `ParallelForeach.NoWorkersNoReturn` | mordor/parallel.h:129-136 | with zero workers, a run that is stuck with its caller suspended |
| `ParallelForeach.NextKeepsInv` | mordor/parallel.h:54-87 | every element handed out is with one worker, finished or failed, after every step |
| `Ragel.ChunkInvariance` | mordor/ragel.cpp:104-146 | partial runs over any partition of the input, empty pieces included, are at every point in the states, tokens and position of one scan, if and only if no piece at a null address comes, with no mark set, where the end-of-file actions would do something |
| `Ragel.AddressedPieces` | mordor/ragel.cpp:104-146 | in particular over any partition into pieces that have an address |
| `Ragel.NullPieceEmits` | mordor/ragel.cpp:109-122 | a machine and a null piece for which they are not |
| `Ragel.ScanShifted` | mordor/ragel.cpp:154-159 | a scan over kept memory is the scan over the whole input, moved |
| `Ragel.RagelParser.Run` | mordor/ragel.cpp:104-146 | a partial run is the scan of all input fed so far, with the end-of-file actions for a null piece without a mark, and afterwards fullString is exactly the input from the mark to its end |
| `Ragel.RagelParser.Keep` | mordor/ragel.cpp:128-143 | what follows the mark is kept, whichever memory it was in |
| `Ragel.RagelParser.RunWhole` | mordor/ragel.cpp:15-27 | one text gives the reference scan, end-of-file actions included, and the number of characters consumed |
| `Ragel.RagelParser.RunBuffer` | mordor/ragel.cpp:41-62 | the loop over the pieces of a buffer, and the total it returns |
| `Ragel.BufferAgreesIff` | mordor/ragel.cpp:41-62 | it agrees with one contiguous run exactly when no piece before the end completes the parse |
| `Ragel.BufferDisagrees` | mordor/ragel.cpp:55-56 | the same two bytes in one piece and in two |
| `ZeroCopy.BufferZeroCopyInputStream.Next` | mordor/protobuf.cpp:44-57 | delivers the flat bytes at the position and moves behind them, for pieces of any size; fails only at the end; count and position move alike exactly if the length handed out fits an int |
| `ZeroCopy.BufferZeroCopyInputStream.BackUp` | mordor/protobuf.cpp:59-73 | moves position and count back alike, over empty pieces too, and stands before a byte |
| `ZeroCopy.BufferZeroCopyInputStream.Skip` | mordor/protobuf.cpp:75-91 | moves position and count forward alike, by the count exactly if that much text is left, otherwise to the end |
| `ZeroCopy.BufferZeroCopyInputStream.ByteCount` | mordor/protobuf.cpp:93-93 | is never ahead of the flat position |
| `ZeroCopy.Reread` | mordor/protobuf.cpp:44-73 | backing up k bytes after Next() makes it deliver exactly the last k again |
| `ZeroCopy.ReadAll` | mordor/protobuf.cpp:44-57 | a reader that takes from each piece as many bytes as it is told gets the whole text if and only if every piece is below 2^31 bytes |
| `ZeroCopy.LargePieceMiscounted` | mordor/protobuf.cpp:50-52 | one piece of 2^31 bytes is handed out and counted as a negative length |
| `ZeroCopy.LengthFitsIff` | mordor/protobuf.cpp:50-50 | the int length handed out is right exactly below 2^31 |
| `Base64.DecodeEncode` | mordor/string.cpp:31-131 | decoding undoes encoding for every byte string |
| `Base64.ParseAcceptsIff` | mordor/string.cpp:41-77 | accepted exactly: length a multiple of four, digits, at most two '=' at the end; the result fits in three quarters |
| `Base64.DecodeNonEmptyIff` | mordor/string.cpp:31-88 | the result is non-empty exactly for non-empty strings of that form |
| `Base64.EncodeDecodeIff` | mordor/string.cpp:31-131 | encoding undoes decoding exactly for strings whose unused bits are zero |
| `Base64.UnusedBitsAccepted` | mordor/string.cpp:69-83 | a padded string with unused bits set is accepted and does not come back |
| `Base64.AlphabetIsDigits` | mordor/string.cpp:99-100 | the encoder's table and the decoder's ranges name the same digits |
| `Base64.EncodesByTable` | mordor/string.cpp:96-131 | every six bits become the character at that place of the table of RFC 4648, written out, group by group, with the padding of the last one |
| `Base64.Base64Encode` | mordor/string.cpp:96-131 | the loops produce the specified encoding |
| `Base64.Base64Decode` | mordor/string.cpp:31-88 | the loops produce the specified result and never write past the buffer |
| `MulDiv.ExactIff` | mordor/util.cpp:36-57 | the result is a * b / c modulo 2^64 exactly if the remainder of the high part fits in 32 bits |
| `MulDiv.ExactForSmallDivisors` | mordor/util.cpp:36-57 | so it is exact for every divisor up to 2^32 |
| `MulDiv.Halves` | mordor/util.cpp:50-53 | neither partial product nor their sum overflows 64 bits |
| `MulDiv.InexactForLargeDivisors` | mordor/util.cpp:54-55 | a divisor of 2^33 for which nothing of the result is left |

## Left out

- Stack allocation, ucontext and setjmp switching, fiber-local storage and Fiber::inject: a context switch is an atomic change of whose stack a thread is on, and no fiber is injected into.
- Nested client fibers: Fiber::call() and Fiber::yield() are modelled between a run loop and its idle fiber, where the engine uses them.
- Changing the number of threads of a running scheduler and the thread kill-off path: the set of threads is fixed.
- start() after stop(): the flag that asks to stop is never taken back.
- An idle function that throws, and the rethrow out of run() that follows: an idle function yields or returns.
- The guards in timer.cpp and iomanager_epoll.cpp that are unlocked by hand and then again at the end of their scope: each is one critical section.
- StopDiscipline.DisciplinedIsSafe: one direction, because a run that breaks the rules can be lucky; the exact condition is HijackedRuns.SafeIffUndisturbed.
- TaskExceptions.RethrowsIffFailed: exceptions have no content, and what stop() or dispatch() rethrow to their caller is client code.
- Destructors and the assertions in them, an idle fiber dropped when run() throws included.
- Progress of the scheduler (that tickle() wakes an idle thread): the model says when a tickle is asked for, not what a derived class does with it.
- World.ObjectsKeepOrder: arrival order at the mutex after conditions is claimed only while no two signals overlap, because the code takes and delivers in two critical sections.
- Futures.NoStrayWakeup: assumes each future is signalled at most once per reset, and one waiting fiber; the callback form is one branch and is not modelled.
- Futures.WaitAllSignalled: the yields are counted tokens; the run queue and the threads are in WaitThreads.
- EngineRuns.NoFiberRunsTwice: a parked fiber is scheduled once before it runs again; waitAll() and waitAny() on several futures do otherwise and are in WaitThreads.
- WaitThreads.SafeIffOne: the check and the change of state in yieldTo() are one step, and the other tasks of the threads are left open.
- Timers.NoWakeUpMissed: the clock does not go back, only readings taken before the lock may be old, and deadlines stay below 2^64; a clock that does go back is in Timers.ExpiredAreDue.
- IoManager.CountZeroMeansIdle: speaks of the states between critical sections; stopping() reads the counter without a lock and may also see it between epoll_ctl() and its increment, or between its decrement and schedule().
- Condition timers and executeTimers(), which calls what processTimers() returns; the clock is a parameter.
- IoManager.EveryRegistrationAccountedFor: the two critical sections of a registration, finding the state and arming it, are one step, because a state once made stays; a descriptor closed behind the manager's back is not modelled.
- The tickle pipe, epoll_wait() and the other platform managers (IOCP, kqueue): foreign calls.
- ParallelDo.AlwaysReturns: the sequential path for at most one functor, and the second overload's wait for its fibers to leave EXEC, are not modelled.
- Ragel.ChunkInvariance: the generated machine is a table with mark, unmark and emit actions and end-of-file actions; fbreak, fhold and the stack of RagelParserWithStack are not modelled.
- BufferZeroCopyOutputStream, the hexadecimal conversions, split() and the other string helpers.
- Zip, streams, sockets, HTTP, URI, JSON, configuration, logging, statistics: not part of this model.
