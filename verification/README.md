# Coroutines, their events and their buffers: a verified model

The media server runs on the vendored State Threads library: one operating-system thread,
many cooperative threads, a scheduler driven by the readiness of descriptors and by a heap
of timeouts. On top of it sit a coroutine object, a ring buffer between a real thread and a
coroutine, and loops that push vectors of bytes through non-blocking descriptors. This
project models that engine in Dafny and proves what its callers rely on; it also covers two
algorithms of the test framework vendored with the library.

## Layout

| file | models |
|---|---|
| `Threads.dfy` | thread, condition variable, mutex, resume points |
| `TimeoutHeap.dfy` | the pointer-linked heap of sleepers, addressed by the bits of a position |
| `SchedulerModel.dfy` | every call and every resumption as a function on the value of the scheduler |
| `SchedulerInvariant.dfy`, `SchedulerSteps.dfy` | the invariant, the steps, and the proof that each step keeps it |
| `SchedulerRuns.dfy` | runs from initialization, the invariant over them, placement of threads |
| `SchedulerTheorems.dfy` | mutexes, condition variables, polls, sleeps, the clock check |
| `SchedulerCauses.dfy` | why a call that blocked returns what it returns, from the waking step to the return |
| `SchedulerInterrupts.dfy` | what an interrupt does, and that it is delivered once |
| `SchedulerTimers.dfy` | calls with a timeout, the clock, and that no timeout comes early |
| `SchedulerTurns.dfy` | yields and turns of the idle thread |
| `SchedulerAnswers.dfy` | what locks, creations, exits and joins answer and leave |
| `SchedulerLives.dfy` | exit, join, stacks, the active count, fairness of the run queue |
| `Scheduler.dfy`, `SchedulerLoops.dfy` | the same calls as methods on mutable threads and the pointer heap, proved to refine the functions |
| `SchedulerCalls.dfy` | any sequence of those calls is a run |
| `CircularList.dfy` | the doubly linked circular lists that all queues are made of |
| `Polls.dfy`, `SelectEvents.dfy`, `EpollEvents.dfy` | the bookkeeping of the two event systems |
| `PollPairs.dfy`, `PollCalls.dfy` | the queued polls and the threads that wait for them are one queue |
| `SelectRuns.dfy`, `EpollRuns.dfy` | the scheduler together with each event system |
| `RingBuffer.dfy` | the ring buffer as an object and as a two-thread protocol, and the condition on top of it |
| `FastCoroutine.dfy` | the flags layered over create, interrupt and join |
| `IoVectors.dfy` | the short-read and short-write loops |
| `BipartiteMatching.dfy` | the augmenting-path matcher and the pairing verdict |
| `SimpleRegex.dfy` | the validator and the backtracking matcher |
| `Sequences.dfy` | facts about sequences and sets |

`dafny verify dfyconfig.toml` checks all of it.

## How the scheduler is modelled

A context switch does not jump: it stores a resume point (`Threads.Point`) in the thread, and
`Schedule` picks the next thread and runs it from its resume point to its return or its next
switch. A step is the code between two switches, so a run is a sequence of steps
(`SchedulerRuns.IsRun`), and any order of calls that the interface allows is a run.

There are two layers. `SchedulerModel` states each step as a function on a value, and all
properties of runs are proved there. `Scheduler.VirtualProcessor` is the code's own form:
thread records whose fields are assigned, loops along wait queues, the intrusive heap. Every
method of it ensures that its new `View()` is the function of the same name applied to the
old one. `SchedulerCalls.History.Next` puts them together: from initialization on, whatever
calls are made, the values the processor goes through are a run, so every property of runs is
one of the processor. `SelectRuns` and `EpollRuns` add the event systems: at every switch point
their bookkeeping is that of the polls that the scheduler's threads have queued.

`Rec.cause` is a history variable: it records what last made a thread runnable. The code has
no such field. `SchedulerCauses` ties it to the steps of the run, so that its theorems about
return values speak of the step that woke the thread and not of the variable.

The systems around the engine are parameters: the clock, the outcome of memory allocation,
what the kernel reports to select and epoll, which descriptors it admits, what it answers to
each read and write.

Many proofs begin with `hide`: it names the definitions that the proof does not look into,
which keeps each of them cheap for the solver.

## What came out

* The comment in `core/srs_app_st.cpp:253-254` warns that an interrupt makes a join fail.
  `FastCoroutine.CrashIff` gives the exact case: the assertion in `stop` that the join
  succeeds fails if and only if the stopping coroutine itself has an interrupt pending, and
  the worker has not ended when the join begins (or the stopper resumes from its wait with
  that interrupt). `CrashHappens` is such a run. For a whole call, `StopOutcome` says which
  assertion ends it and when: the join's as above or when the stopper is interrupted during
  its wait, the one against a second stop iff stop is called again meanwhile; the assertion on
  the recorded error never fails. `JoinStarts` and `JoinEnds` tie its join to the scheduler's.
* At its end `stop` records a "terminated" error if nothing else is recorded and the cycle is
  not done (core/srs_app_st.cpp:231-234). `FastCoroutine.PullReports` shows that this happens only
  to a coroutine that was never started: a started one has finished its cycle, or has been
  interrupted by the same stop, which records an error of its own.
* A full match is documented as matching the entire string (gtest-port.cc:972). The code
  appends `$` to the pattern unless its last character is `$`, and an escaped `$` counts.
  `SimpleRegex.FullMatchIsWholeMatch` proves that the documentation holds for a pattern if
  and only if the pattern does not end in an escaped `$`; `EscapedDollarMatchesTooMuch` is a
  concrete case.
* `_st_stack_free` appends before the last element of the free list instead of after it
  (stk.c:119); the model does the same, and the order has no effect on the properties.
* `StCondition` asks for 1024 slots, and the ring buffer clamps that to 1000, of which 999
  hold packets (srs_app_stcondition.hpp:6, srs_app_ringbuf.hpp:72).
* When an expired sleeper is woken it goes to the front of the run queue, so several that
  expire together run in reverse order of their due times (`SchedulerTheorems.ClockCheck`).

## Model

| member | source | states |
|---|---|---|
| `TimeoutHeap.SleepQueue.AddSleepQ` | 3rdParty/stThread/state-threads/sched.c:504-510 | the queue stays a complete, correctly indexed min-heap of exactly `size` nodes; its threads are the old ones and the new one, which is due `timeout` from now |
| `TimeoutHeap.SleepQueue.DelSleepQ` | 3rdParty/stThread/state-threads/sched.c:513-517 | any member can be taken out: the heap stays whole and in order, and exactly that thread is gone |
| `TimeoutHeap.SleepQueue.HeapInsert` | 3rdParty/stThread/state-threads/sched.c:392-425 | a thread goes in at the position its own index names, even over an occupant (which then still holds its old children); every other node is well linked, the threads are exchanged one for one, and the slot returned is the one of that position |
| `TimeoutHeap.SleepQueue.Descend` | 3rdParty/stThread/state-threads/sched.c:401-418 | one level of the insertion: whole tree and carried thread together are the old threads and the new one, and the carried thread fits below everything passed |
| `TimeoutHeap.SleepQueue.Fill` | 3rdParty/stThread/state-threads/sched.c:419-424 | the carried thread takes the target position, without children |
| `TimeoutHeap.SleepQueue.LastSlot` | 3rdParty/stThread/state-threads/sched.c:431-449 | the bits of the size lead to the slot of the last position |
| `TimeoutHeap.SleepQueue.UnlinkLast` | 3rdParty/stThread/state-threads/sched.c:431-456 | the last thread leaves a whole heap that is one shorter |
| `TimeoutHeap.SleepQueue.Replace` | 3rdParty/stThread/state-threads/sched.c:456-499 | the last thread takes the place of the deleted one, wherever that is, and the heap is whole again |
| `TimeoutHeap.SleepQueue.SiftDown` | 3rdParty/stThread/state-threads/sched.c:463-499 | from a heap out of order only below one node, sifting terminates with a heap of the same threads |
| `TimeoutHeap.SleepQueue.Relink` | 3rdParty/stThread/state-threads/sched.c:470-497 | the pointer writes of one exchange of a thread with its child |
| `TimeoutHeap.SleepQueue.SwapDown` | 3rdParty/stThread/state-threads/sched.c:470-497 | an exchange keeps every link and index of the tree |
| `TimeoutHeap.SleepQueue.HeapDelete` | 3rdParty/stThread/state-threads/sched.c:431-501 | deletion anywhere keeps the heap and removes exactly one thread, which ends with no children |
| `TimeoutHeap.RootIsFirst` | 3rdParty/stThread/state-threads/sched.c:520-578 | no member of the heap is due before its root, which is why the clock check looks only there |
| `SchedulerSteps.StepKeeps` | 3rdParty/stThread/state-threads/sched.c:87-693 | every call, resumption and idle turn keeps the invariant: each thread linked exactly where its state and resume point say, no thread on two lists, mutexes owned while waited for, one joiner at most, stacks not shared, the active count exact |
| `SchedulerSteps.PollKeeps` | 3rdParty/stThread/state-threads/sched.c:87-113 | a poll keeps the invariant up to its switch |
| `SchedulerSteps.SleepKeeps` | 3rdParty/stThread/state-threads/sync.c:117-133 | a sleep keeps the invariant up to its switch |
| `SchedulerSteps.WaitKeeps` | 3rdParty/stThread/state-threads/sync.c:181-200 | a condition wait keeps the invariant up to its switch |
| `SchedulerSteps.SignalKeeps` | 3rdParty/stThread/state-threads/sync.c:225-251 | a signal keeps the invariant |
| `SchedulerSteps.BroadcastKeeps` | 3rdParty/stThread/state-threads/sync.c:225-257 | a broadcast keeps the invariant |
| `SchedulerSteps.LockKeeps` | 3rdParty/stThread/state-threads/sync.c:291-313 | locking keeps the invariant up to its switch |
| `SchedulerSteps.UnlockKeeps` | 3rdParty/stThread/state-threads/sync.c:330-355 | unlocking keeps the invariant: either a waiter now owns the mutex and can run, or nobody waits for it |
| `SchedulerSteps.InterruptKeeps` | 3rdParty/stThread/state-threads/sched.c:610-627 | an interrupt of a thread in any state keeps the invariant |
| `SchedulerSteps.YieldKeeps` | 3rdParty/stThread/state-threads/sched.c:581-607 | a yield with its clock check keeps the invariant |
| `SchedulerSteps.CreateKeeps` | 3rdParty/stThread/state-threads/sched.c:630-693 | a new thread keeps the invariant: fresh stack, own termination condition, counted as active |
| `SchedulerSteps.NoThreadKeeps` | 3rdParty/stThread/state-threads/sched.c:642-676 | a creation that gets no stack or no termination condition keeps the invariant |
| `SchedulerSteps.ExitKeeps` | 3rdParty/stThread/state-threads/sched.c:285-325 | exit keeps the invariant: no thread is left waiting for a zombie |
| `SchedulerSteps.JoinKeeps` | 3rdParty/stThread/state-threads/sched.c:328-365 | a join keeps the invariant in all its branches |
| `SchedulerSteps.IdleKeeps` | 3rdParty/stThread/state-threads/sched.c:262-282 | a turn of the idle thread keeps the invariant |
| `SchedulerRuns.InitialOk` | 3rdParty/stThread/state-threads/sched.c:169-229 | initialization establishes the invariant |
| `SchedulerRuns.RunInv` | 3rdParty/stThread/state-threads/sched.c:87-693 | the invariant holds in every state of every run from initialization on |
| `SchedulerRuns.Placement` | 3rdParty/stThread/state-threads/common.h:297-311 | in every reachable state a thread is on the run, zombie and I/O queues as often as its state says (once or not at all), on exactly one wait queue once while it waits, in the heap exactly while ON_SLEEPQ is set, and that only while blocked |
| `SchedulerTheorems.LockReturnsOwner` | 3rdParty/stThread/state-threads/sync.c:291-327 | a lock call that returns 0, at once or after waiting, has made its caller the owner, even when interrupts race with the unlock; EINTR and EDEADLK leave the ownership alone, and EDEADLK is exactly an uninterrupted relock |
| `SchedulerTheorems.WaitersHaveOwner` | 3rdParty/stThread/state-threads/sync.c:291-355 | in every run, a thread waiting for a mutex waits while another thread owns it: no handoff is lost |
| `SchedulerTheorems.NoOvertakingStep` | 3rdParty/stThread/state-threads/sync.c:291-369 | one step never moves a thread ahead of a waiter and passes the mutex at most to a thread ahead of it |
| `SchedulerTheorems.NoOvertaking` | 3rdParty/stThread/state-threads/sync.c:291-369 | over every stretch of a run in which a thread waits for a mutex, only threads that were ahead of it at the start get the mutex: first come, first served, no barging |
| `SchedulerTheorems.SignalWakesFirst` | 3rdParty/stThread/state-threads/sync.c:225-251 | a signal wakes the longest-waiting thread that is still waiting, skipping linked threads already awake, and changes nothing when there is none |
| `SchedulerTheorems.SignalsWake` | 3rdParty/stThread/state-threads/sync.c:225-251 | k signals in a row wake exactly the first min(k, n) of the n waiters, in waiting order |
| `SchedulerTheorems.WakeSeqEffect` | 3rdParty/stThread/state-threads/sync.c:225-245 | what waking distinct threads in order comes to: appended to the run queue in that order, off the heap, all else unchanged |
| `SchedulerTheorems.BroadcastIsSignals` | 3rdParty/stThread/state-threads/sync.c:254-257 | a broadcast equals as many signals as there are waiters |
| `SchedulerTheorems.WaitReturns` | 3rdParty/stThread/state-threads/sync.c:202-216 | a condition wait that blocked returns EINTR iff an interrupt is pending at its resumption, else 0 iff a signal woke it and ETIME iff its timer did; it clears TIMEDOUT and leaves the wait queue |
| `SchedulerTheorems.DispatchFindsWaiters` | 3rdParty/stThread/state-threads/event.c:294-405 | whenever the idle thread runs, in any run, the run queue is empty and every queued poll belongs to a thread still in IO_WAIT, so that dispatch enqueues no thread twice |
| `SchedulerTheorems.PollReturns` | 3rdParty/stThread/state-threads/sched.c:115-134 | an uninterrupted poll returns 0 exactly when its timer ended it, and otherwise between 1 and npds; its queue entry is gone |
| `SchedulerTheorems.SleepReturns` | 3rdParty/stThread/state-threads/sync.c:133-142 | a sleep that is not interrupted returns 0, and its timer has ended it; EINTR otherwise |
| `SchedulerTheorems.ClockCheck` | 3rdParty/stThread/state-threads/sched.c:520-578 | what a clock check amounts to, whatever order among equals the heap yields: exactly the sleepers due by `now` leave, they stand before the old, unchanged run queue in nonincreasing order of due time, and the rest keep their records; that the loop over the heap yields such an order is the contract of `VirtualProcessor.CheckClock` |
| `SchedulerCauses.StepExplained` | 3rdParty/stThread/state-threads/sched.c:87-693 | every step leaves a blocked thread as it is or wakes it for a reason that is visible in the step: a signal of its condition, the exit it waits for, a clock check past its due time, an interrupt of it, readiness of its poll, an unlock that hands it the mutex; a runnable thread keeps that reason until it is resumed |
| `SchedulerCauses.CauseLasts` | 3rdParty/stThread/state-threads/sched.c:138-163 | over every run, the reason given at the wake-up is still recorded at the resumption, whatever happens in between |
| `SchedulerCauses.WaitOutcome` | 3rdParty/stThread/state-threads/sync.c:181-216 | over every run, a condition wait that blocked returns EINTR iff an interrupt is pending when it resumes; otherwise 0 iff the very step that woke it was a signal or broadcast of its condition, and ETIME iff that step was a clock check past its due time |
| `SchedulerCauses.PollOutcome` | 3rdParty/stThread/state-threads/sched.c:87-135 | over every run, an uninterrupted poll that blocked returns 0 iff a clock check past its due time woke it, and otherwise the positive count of the dispatch that woke it |
| `SchedulerCauses.LockOutcome` | 3rdParty/stThread/state-threads/sync.c:291-355 | over every run, a lock call that blocked returns 0 iff the step that woke it was an unlock of that mutex, even when interrupts came since, and then its caller is the owner; EINTR iff an interrupt woke it |
| `SchedulerCauses.SleepOutcome` | 3rdParty/stThread/state-threads/sync.c:117-142 | over every run, a sleep that is not interrupted ends by a clock check past its due time |
| `SchedulerCauses.TimedOutInWait` | 3rdParty/stThread/state-threads/sync.c:202-208 | in every run TIMEDOUT is set only on a thread whose timer ended its condition wait, and only until that wait returns |
| `SchedulerCauses.ZombieWaits` | 3rdParty/stThread/state-threads/sched.c:328-365 | nothing changes the record of a zombie until the joiner that its exit woke resumes |
| `SchedulerCauses.JoinOutcome` | 3rdParty/stThread/state-threads/sched.c:328-365 | over every run, a join that blocked and is not interrupted returns the value of the exit that woke it |
| `SchedulerLives.StepOnward` | 3rdParty/stThread/state-threads/sched.c:285-365 | no step moves a thread back in its life (alive, zombie, joined, gone) or changes the exit value of one that has exited |
| `SchedulerLives.ZombieOnce` | 3rdParty/stThread/state-threads/sched.c:285-325 | in no run does a thread become a zombie twice |
| `SchedulerLives.JoinOnce` | 3rdParty/stThread/state-threads/sched.c:328-365 | in no run is a thread joined successfully twice |
| `SchedulerLives.JoinReturnsValue` | 3rdParty/stThread/state-threads/sched.c:348-364 | a successful join finds an unjoined zombie, returns its exit value and releases it |
| `SchedulerLives.JoinYieldsExitValue` | 3rdParty/stThread/state-threads/sched.c:285-365 | over every run, what a join returns is what that thread passed to exit, earlier |
| `SchedulerLives.ZombieNotAwaited` | 3rdParty/stThread/state-threads/sched.c:292-301 | no thread stays in COND_WAIT on the termination condition of a zombie |
| `SchedulerLives.FreeStackNeverRuns` | 3rdParty/stThread/state-threads/stk.c:61-121 | a thread whose stack is on the free list never runs again in any continuation of the run |
| `SchedulerLives.ActiveCount` | 3rdParty/stThread/state-threads/sched.c:285-325 | `_st_active_count` is the number of threads other than the idle one that have not begun to exit |
| `SchedulerLives.ExitsWhenNoneActive` | 3rdParty/stThread/state-threads/sched.c:268-278 | in every run, a turn of the idle thread exits the process iff every other thread has begun to exit |
| `SchedulerLives.StepGrown` | 3rdParty/stThread/state-threads/common.h:297-308 | every step takes at most the head off the run queue and adds threads only at its two ends |
| `SchedulerLives.RunQueueFair` | 3rdParty/stThread/state-threads/sched.c:138-163 | over every run, of two threads on the run queue the one behind is not picked before the one ahead |
| `SchedulerInterrupts.InterruptEffect` | 3rdParty/stThread/state-threads/sched.c:610-627 | an interrupt of a blocked thread sets its flag, takes it off the heap and puts it, RUNNABLE, last on the run queue, with everybody else left alone; of a running or runnable one it sets the flag only; of a zombie it changes nothing |
| `SchedulerInterrupts.FlagStep` | 3rdParty/stThread/state-threads/sched.c:87-693 | no step but an interrupt sets the flag of a thread, and none but the return of EINTR to that thread takes it |
| `SchedulerInterrupts.PendingIff` | 3rdParty/stThread/state-threads/sched.c:610-627 | over every run, the flag of a thread is set iff an interrupt of it has come that no return of EINTR has taken since |
| `SchedulerInterrupts.InterruptDelivered` | 3rdParty/stThread/state-threads/sched.c:610-627 | over every run, a thread that an interrupt wakes from a poll, sleep, lock, condition wait or join returns EINTR from it when it resumes, and that takes the flag |
| `SchedulerInterrupts.InterruptedCalls` | 3rdParty/stThread/state-threads/sched.c:91-95 | a call that may block returns EINTR at once to a caller with a pending interrupt and takes the flag |
| `SchedulerTimers.TimedCall` | 3rdParty/stThread/state-threads/sched.c:87-113 | a poll, sleep or condition wait with an interrupt pending returns EINTR and only takes the flag; a poll with an unacceptable entry changes nothing; otherwise the caller parks in the state and on the queue of its call, asleep until exactly its timeout from now, or without a timer |
| `SchedulerTimers.ClockStep` | 3rdParty/stThread/state-threads/sched.c:520-578 | only a yield and a turn of the idle thread move the clock; then nobody due stays asleep and everybody who was due can run |
| `SchedulerTimers.TimerKept` | 3rdParty/stThread/state-threads/sched.c:504-510 | over every run, as long as a thread stays blocked in a poll, sleep or wait its timer is due exactly its timeout after the time at which it parked, and without a timeout it has none |
| `SchedulerTimers.TimesOutIff` | 3rdParty/stThread/state-threads/sched.c:520-578 | over every run, a thread parked with a timeout is timed out by a step iff that step checks the clock at or after the time at which it parked plus its timeout; one parked without a timeout never is |
| `SchedulerTimers.NoEarlyTimeout` | 3rdParty/stThread/state-threads/sync.c:117-216 | over every run, a sleep or poll that returns 0 and a condition wait that returns ETIME had a timeout, and were woken by a clock check when that long had passed since they parked |
| `SchedulerTurns.YieldEffect` | 3rdParty/stThread/state-threads/sched.c:581-607 | a yield returns at once iff nobody is on the run queue or due; otherwise the caller parks, RUNNABLE, at the tail of the run queue, behind those due (the one due last in front) and then the whole old run queue |
| `SchedulerTurns.YieldTakesTurns` | 3rdParty/stThread/state-threads/sched.c:581-607 | over every run, every thread that stood on the run queue when a caller yielded is picked before the caller is |
| `SchedulerTurns.IdleEffect` | 3rdParty/stThread/state-threads/sched.c:262-282 | a turn of the idle thread leaves on the run queue those due (the one due last in front), then those whose polls fired, as they queued, then itself; the fired polls are off the I/O queue with their counts, the others stay |
| `SchedulerAnswers.LockEffect` | 3rdParty/stThread/state-threads/sync.c:291-313 | the four answers of a lock: EINTR takes the flag only, a free mutex is taken at once, a relock is EDEADLK, and one held by another thread is waited for at the end of its queue |
| `SchedulerAnswers.TryLockEffect` | 3rdParty/stThread/state-threads/sync.c:358-369 | a try takes a free mutex and changes nothing otherwise, EBUSY even for the owner |
| `SchedulerAnswers.UnlockEffect` | 3rdParty/stThread/state-threads/sync.c:330-355 | an unlock by another thread is EPERM; one by the owner hands the mutex to the first thread still waiting, RUNNABLE last on the run queue, or frees it when there is none |
| `SchedulerAnswers.StackNewIs` | 3rdParty/stThread/state-threads/stk.c:61-107 | the stack taken is the first free one that is large enough, the others staying in order, or else the one newly mapped |
| `SchedulerAnswers.CreateEffect` | 3rdParty/stThread/state-threads/sched.c:630-693 | a created thread is runnable last on the run queue, on a stack of its size, with an empty termination condition of its own, and counted; nobody else is touched |
| `SchedulerAnswers.NoThreadEffect` | 3rdParty/stThread/state-threads/sched.c:642-676 | a failed creation is ENOMEM and leaves the threads alone; a stack that it took is free again |
| `SchedulerAnswers.ExitEffect` | 3rdParty/stThread/state-threads/sched.c:285-301 | an exit records its value and is counted; a detached thread gives its stack back, a joinable one is the last zombie and the joiner waiting for it, if any, can run |
| `SchedulerAnswers.FinishEffect` | 3rdParty/stThread/state-threads/sched.c:303-324 | a joined thread that runs again drops its termination condition and gives its stack back |
| `SchedulerAnswers.JoinEffect` | 3rdParty/stThread/state-threads/sched.c:328-365 | all answers of a join: EINVAL for a detached or awaited thread, EDEADLK for itself, the value of a zombie, which is released, EINTR, or a wait on its termination condition |
| `SchedulerModel.First` | 3rdParty/stThread/state-threads/sync.c:229-243 | the walk along a wait queue stops at the first thread in the state looked for |
| `SchedulerModel.FirstFit` | 3rdParty/stThread/state-threads/stk.c:68-88 | the walk along the free stacks stops at the first one large enough |
| `SchedulerModel.StackNewTakes` | 3rdParty/stThread/state-threads/stk.c:61-107 | the stack handed out is no longer on the free list |
| `SchedulerModel.StackFreeAdds` | 3rdParty/stThread/state-threads/stk.c:113-121 | the list holds the stack given back, once, beside the ones it held, which keep their order; it stands just before the last |
| `SchedulerLoops.MethodsApply` | 3rdParty/stThread/state-threads/sched.c:87-693 | in every state of a run the preconditions that the methods of the processor share are met |
| `Scheduler.VirtualProcessor.constructor` | 3rdParty/stThread/state-threads/sched.c:169-229 | the state after initialization is the initial state of the runs |
| `Scheduler.VirtualProcessor.MakeRunnable` | 3rdParty/stThread/state-threads/sync.c:231-237 | off the heap, RUNNABLE, appended to the run queue |
| `Scheduler.VirtualProcessor.Poll` | 3rdParty/stThread/state-threads/sched.c:87-113 | does to the thread records, heap and queues what `SchedulerModel.Poll` does to their value, with the same result |
| `Scheduler.VirtualProcessor.PollResumes` | 3rdParty/stThread/state-threads/sched.c:115-134 | a poll still queued is taken off; the result follows the interrupt flag and the ready count |
| `Scheduler.VirtualProcessor.Usleep` | 3rdParty/stThread/state-threads/sync.c:117-133 | refines `SchedulerModel.Sleep`, whose effect `SchedulerTimers.TimedCall` states: due exactly the timeout from now, or SUSPENDED without one |
| `Scheduler.VirtualProcessor.WaitAt` | 3rdParty/stThread/state-threads/sync.c:181-200 | refines the part of a condition wait before its switch |
| `Scheduler.VirtualProcessor.WaitEnds` | 3rdParty/stThread/state-threads/sync.c:202-216 | refines the part after it: unlinked, flags consumed, result by cause |
| `Scheduler.VirtualProcessor.Signal` | 3rdParty/stThread/state-threads/sync.c:225-251 | the loop over the wait queue refines `SchedulerModel.Signal` |
| `Scheduler.VirtualProcessor.Broadcast` | 3rdParty/stThread/state-threads/sync.c:225-257 | the loop over the wait queue refines `SchedulerModel.Broadcast` |
| `Scheduler.VirtualProcessor.Lock` | 3rdParty/stThread/state-threads/sync.c:291-313 | refines `SchedulerModel.Lock`, whose effect `SchedulerAnswers.LockEffect` states |
| `Scheduler.VirtualProcessor.LockResumes` | 3rdParty/stThread/state-threads/sync.c:315-326 | after the switch: EINTR only if interrupted and not handed the mutex |
| `Scheduler.VirtualProcessor.Unlock` | 3rdParty/stThread/state-threads/sync.c:330-355 | the loop over the wait queue refines `SchedulerModel.Unlock`, which hands the mutex over directly |
| `Scheduler.VirtualProcessor.TryLock` | 3rdParty/stThread/state-threads/sync.c:358-369 | refines `SchedulerModel.TryLock`, whose effect `SchedulerAnswers.TryLockEffect` states |
| `Scheduler.VirtualProcessor.InterruptThread` | 3rdParty/stThread/state-threads/sched.c:610-627 | refines `SchedulerModel.Interrupt`, whose effect `SchedulerInterrupts.InterruptEffect` states |
| `Scheduler.VirtualProcessor.FirstSleeper` | 3rdParty/stThread/state-threads/sched.c:532-536 | the root of the pointer heap is the sleeper due first |
| `Scheduler.VirtualProcessor.ExpireTurn` | 3rdParty/stThread/state-threads/sched.c:540-577 | one turn of the clock check: the next sleeper expires, or the check is complete |
| `Scheduler.VirtualProcessor.CheckClock` | 3rdParty/stThread/state-threads/sched.c:520-578 | the loop over the pointer heap refines `SchedulerModel.Expire`, and the order in which the heap yielded the threads is one by due time of exactly those due |
| `Scheduler.VirtualProcessor.Yield` | 3rdParty/stThread/state-threads/sched.c:581-607 | refines `SchedulerModel.Yield`, whose effect `SchedulerTurns.YieldEffect` states |
| `Scheduler.VirtualProcessor.StackNew` | 3rdParty/stThread/state-threads/stk.c:61-107 | the walk along the free list refines the first-fit function; when none fits, the newly mapped stack, or none |
| `Scheduler.VirtualProcessor.Create` | 3rdParty/stThread/state-threads/sched.c:630-693 | fails iff there is no stack, or no termination condition for a joinable thread, and then refines `SchedulerModel.CreateFails`; else refines `SchedulerModel.Create` with a fresh thread and termination condition |
| `Scheduler.VirtualProcessor.Exit` | 3rdParty/stThread/state-threads/sched.c:285-301 | refines `SchedulerModel.Exit` up to the switch |
| `Scheduler.VirtualProcessor.ExitResumes` | 3rdParty/stThread/state-threads/sched.c:303-324 | refines the second half of exit |
| `Scheduler.VirtualProcessor.JoinRound` | 3rdParty/stThread/state-threads/sched.c:348-364 | refines one turn of the join loop |
| `Scheduler.VirtualProcessor.Join` | 3rdParty/stThread/state-threads/sched.c:328-365 | refines `SchedulerModel.Join`, error returns included |
| `Scheduler.VirtualProcessor.JoinResumes` | 3rdParty/stThread/state-threads/sched.c:348-364 | refines the join loop after a wait |
| `Scheduler.VirtualProcessor.Pick` | 3rdParty/stThread/state-threads/sched.c:138-163 | the head of the run queue, or else the idle thread, is next |
| `Scheduler.VirtualProcessor.Resume` | 3rdParty/stThread/state-threads/sched.c:87-365 | whatever the resume point, refines `SchedulerModel.Resume` |
| `Scheduler.VirtualProcessor.Schedule` | 3rdParty/stThread/state-threads/sched.c:138-163 | refines `SchedulerModel.Schedule` |
| `Scheduler.VirtualProcessor.Dispatch` | 3rdParty/stThread/state-threads/event.c:1108-1151 | the walk along the I/O queue, which drops entries as it goes, refines `SchedulerModel.Dispatch` |
| `Scheduler.VirtualProcessor.IdleTurn` | 3rdParty/stThread/state-threads/sched.c:262-282 | refines `SchedulerModel.IdleTurn`: exits when no thread is active, else dispatches, checks the clock (in an order of due times, of exactly those due) and switches |
| `SchedulerCalls.Perform` | 3rdParty/stThread/state-threads/sched.c:87-693 | any call that the interface allows, a resumption or a turn of the idle thread takes the processor from one value to the next by a step of the transition system, with the same outcome, and keeps the invariant |
| `SchedulerCalls.History.constructor` | 3rdParty/stThread/state-threads/sched.c:169-229 | the history of a new processor is the run of no steps |
| `SchedulerCalls.History.Next` | 3rdParty/stThread/state-threads/sched.c:87-693 | whatever calls are made, in whatever order, the values that the processor has gone through are a run, so every theorem about runs is one about the processor |
| `CircularList.List.constructor` | 3rdParty/stThread/state-threads/common.h:135-139 | an empty list links its head to itself |
| `CircularList.List.IsEmpty` | 3rdParty/stThread/state-threads/common.h:130-131 | true exactly when nothing follows the head |
| `CircularList.List.InsertBefore` | 3rdParty/stThread/state-threads/common.h:92-98 | both links of every element stay right, and the element stands just before the given one |
| `CircularList.List.Append` | 3rdParty/stThread/state-threads/common.h:112 | the element comes last |
| `CircularList.List.Push` | 3rdParty/stThread/state-threads/common.h:115 | the element comes first |
| `CircularList.List.Remove` | 3rdParty/stThread/state-threads/common.h:122-126 | the ring closes around the element, whose own links still lead on |
| `CircularList.List.Sweep` | 3rdParty/stThread/state-threads/common.h:107 | a walk that removes elements as it goes visits each element once, in order, and leaves the others in order |
| `SelectEvents.SelectData.constructor` | 3rdParty/stThread/state-threads/event.c:158-168 | the empty bookkeeping agrees with the empty queue |
| `SelectEvents.SelectData.PollsetAdd` | 3rdParty/stThread/state-threads/event.c:170-202 | succeeds exactly on acceptable entries; then each count grows by exactly the uses of the poll, a bit is set iff its count is positive, and maxfd bounds the descriptors; otherwise nothing changes |
| `SelectEvents.SelectData.PollsetDel` | 3rdParty/stThread/state-threads/event.c:204-223 | each count falls by exactly the uses of the poll, and a bit is cleared iff its count reaches zero |
| `SelectEvents.SelectData.AddPoll` | 3rdParty/stThread/state-threads/sched.c:101-108 | accepted iff each entry names a descriptor below FD_SETSIZE and asks for something, and for nothing but POLLIN, POLLOUT and POLLPRI; counts, sets and bound agree with the queue before and after |
| `SelectEvents.SelectData.SetsAsked` | 3rdParty/stThread/state-threads/event.c:170-223 | a descriptor is in the read, write or exception set iff some queued poll asks for POLLIN, POLLOUT or POLLPRI on it, and then it is not above maxfd |
| `SelectEvents.SelectData.RemovePoll` | 3rdParty/stThread/state-threads/sched.c:116-119 | counts, sets and bound agree with the queue after a timed-out or interrupted poll is taken off |
| `SelectEvents.SelectData.Examine` | 3rdParty/stThread/state-threads/event.c:340-360 | an entry is answered with POLLIN iff it asks for it and its descriptor is in the read set, with POLLOUT iff in the write set, with POLLPRI iff in the exception set, and with nothing else (with just POLLNVAL iff the descriptor is bad, after EBADF); the poll fires iff one answer is nonempty |
| `SelectEvents.SelectData.SweepOne` | 3rdParty/stThread/state-threads/event.c:335-395 | a poll that fires leaves with its uses; one that stays counts for the bound |
| `SelectEvents.SelectData.Sweep` | 3rdParty/stThread/state-threads/event.c:333-396 | exactly the polls that fire leave, in queue order; counts and sets agree with those that stay, and maxfd is exactly their largest descriptor |
| `SelectEvents.SelectData.Dispatch` | 3rdParty/stThread/state-threads/event.c:294-405 | for ready sets every queued poll gets, entry by entry, exactly the kinds that it asks for and that the set of the kind has; after EBADF exactly the entries with a bad descriptor get POLLNVAL; the polls with a nonempty answer are off the queue, the others stay on it, both in order; a timeout or another error changes nothing |
| `SelectEvents.SelectData.FdClose` | 3rdParty/stThread/state-threads/event.c:417-426 | a descriptor may be closed iff no queued poll names it |
| `PollPairs.StepIoQ` | 3rdParty/stThread/state-threads/sched.c:87-135 | what every step does to the I/O queue: a poll joins at its end, a resumed poll that is still queued leaves, a dispatch leaves those that do not fire; nothing else touches it |
| `PollPairs.ReadyCountIs` | 3rdParty/stThread/state-threads/sched.c:121-125 | what a poll returns is the number of its entries with a nonempty answer |
| `PollPairs.FiredCount` | 3rdParty/stThread/state-threads/sched.c:121-125 | the number of nonempty answers that a swept poll returns is that of its descriptors with an answer, and positive iff the poll fires |
| `PollPairs.PlainInStep` | 3rdParty/stThread/state-threads/sched.c:87-135 | a step that leaves the I/O queue alone leaves the event system's queue the queue of the polls of its threads |
| `PollPairs.PollInStep` | 3rdParty/stThread/state-threads/sched.c:101-108 | so does a poll that is queued in both |
| `PollPairs.ResumeInStep` | 3rdParty/stThread/state-threads/sched.c:116-119 | so does the resumption of a poll that did not fire and is taken off both |
| `PollPairs.TurnInStep` | 3rdParty/stThread/state-threads/sched.c:262-282 | so does a turn of the idle thread after the event system has kept exactly the polls that do not fire |
| `PollPairs.ReadyFires` | 3rdParty/stThread/state-threads/event.c:333-396 | what a sweep leaves satisfies what the scheduler asks of a dispatch: the ready threads are queued, with between 1 and npds descriptors ready |
| `SelectRuns.SelectProcessor.constructor` | 3rdParty/stThread/state-threads/sched.c:169-229 | the scheduler starts a run and the counts, descriptor sets and bound agree with no polls |
| `SelectRuns.SelectProcessor.Poll` | 3rdParty/stThread/state-threads/sched.c:87-108 | after any poll, accepted or not, the scheduler is in a run and the counts, descriptor sets and bound are those of the polls that its threads have queued |
| `SelectRuns.SelectProcessor.Resume` | 3rdParty/stThread/state-threads/sched.c:115-134 | the same at the next switch point, when a poll that timed out or was interrupted has left both queues |
| `SelectRuns.SelectProcessor.Plain` | 3rdParty/stThread/state-threads/sched.c:138-693 | the same after every other call of user code |
| `SelectRuns.SelectProcessor.Turn` | 3rdParty/stThread/state-threads/event.c:294-405 | the same after a turn of the idle thread, and the threads it woke for I/O are exactly those whose polls fire, with the numbers of their nonempty answers, unless it ended the process |
| `SelectRuns.SelectProcessor.Dispatch` | 3rdParty/stThread/state-threads/event.c:294-405 | the event system's dispatch yields a legal input of the scheduler's: queued threads, 1 to npds ready descriptors each |
| `EpollRuns.EpollProcessor.constructor` | 3rdParty/stThread/state-threads/sched.c:169-229 | the scheduler starts a run and the counts, kernel interest and its size agree with no polls |
| `EpollRuns.EpollProcessor.Poll` | 3rdParty/stThread/state-threads/sched.c:87-108 | after any poll, accepted or not, the scheduler is in a run and the counts, kernel interest and its size are those of the polls that its threads have queued |
| `EpollRuns.EpollProcessor.Resume` | 3rdParty/stThread/state-threads/sched.c:115-134 | the same at the next switch point, when a poll that timed out or was interrupted has left both queues |
| `EpollRuns.EpollProcessor.Plain` | 3rdParty/stThread/state-threads/sched.c:138-693 | the same after every other call of user code |
| `EpollRuns.EpollProcessor.Turn` | 3rdParty/stThread/state-threads/event.c:1052-1166 | the same after a turn of the idle thread, and the threads it woke for I/O are exactly those whose polls fire, with the numbers of their nonempty answers, unless it ended the process |
| `EpollRuns.EpollProcessor.Dispatch` | 3rdParty/stThread/state-threads/event.c:1052-1166 | the event system's dispatch yields a legal input of the scheduler's: queued threads, 1 to npds ready descriptors each |
| `Polls.AskedIffUsed` | 3rdParty/stThread/state-threads/event.c:170-223 | some queued poll asks for a kind on a descriptor iff the count is positive |
| `Polls.ChosenInOrder` | 3rdParty/stThread/state-threads/event.c:333-396 | the polls that fire, and those that do not, are in queue order |
| `Polls.NamedIffUsed` | 3rdParty/stThread/state-threads/event.c:417-426 | some queued poll names a descriptor iff one of its three counts is positive |
| `Polls.StaysFrom` | 3rdParty/stThread/state-threads/event.c:333-396 | the polls that a sweep leaves are distinct members of the queue, none of which fires |
| `Polls.WithoutOne` | 3rdParty/stThread/state-threads/event.c:204-223 | the uses of a queue are those of it without one poll and those of that poll |
| `EpollEvents.DelStepKeeps` | 3rdParty/stThread/state-threads/event.c:969-993 | taking one entry back keeps the kernel in step with the counts, apart from descriptors that fired, and makes it forget exactly those not needed any more |
| `EpollEvents.AddStepKeeps` | 3rdParty/stThread/state-threads/event.c:1014-1038 | adding one entry keeps the kernel in step and forgets no descriptor |
| `EpollEvents.DelAllKeeps` | 3rdParty/stThread/state-threads/event.c:957-994 | the same for all entries of a poll |
| `EpollEvents.AddAllKeeps` | 3rdParty/stThread/state-threads/event.c:996-1050 | the same for all entries of a poll |
| `EpollEvents.DelAllCounts` | 3rdParty/stThread/state-threads/event.c:957-994 | each count falls by exactly the uses of the entries |
| `EpollEvents.AddAllCounts` | 3rdParty/stThread/state-threads/event.c:1014-1038 | each count grows by exactly the uses of the entries |
| `EpollEvents.RollbackRestores` | 3rdParty/stThread/state-threads/event.c:1040-1047 | taking back a poll that was added up to a refused entry restores counts, interest set and its size |
| `EpollEvents.AdmissibleLater` | 3rdParty/stThread/state-threads/event.c:1026-1031 | whether an entry is refused depends only on the state before the call, not on the entries before it |
| `EpollEvents.InterestIsTheMasks` | 3rdParty/stThread/state-threads/event.c:957-1050 | outside dispatch the kernel knows exactly the descriptors with a positive count, for each kind whose count is positive, and `evtlist_cnt` is their number |
| `EpollEvents.InterestAsked` | 3rdParty/stThread/state-threads/event.c:957-1050 | outside dispatch the kernel is asked for EPOLLIN, EPOLLOUT or EPOLLPRI of a descriptor iff some queued poll asks for POLLIN, POLLOUT or POLLPRI on it, and knows no other descriptor |
| `EpollEvents.TallyMore` | 3rdParty/stThread/state-threads/event.c:1014-1038 | counts that match a queue match it with the added poll |
| `EpollEvents.TallyLess` | 3rdParty/stThread/state-threads/event.c:969-993 | counts that match a queue match it without the removed poll, and kernel and counts stay in step |
| `EpollEvents.FinishKeeps` | 3rdParty/stThread/state-threads/event.c:1153-1164 | the end of dispatch brings a fired descriptor back in step |
| `EpollEvents.MarkKeeps` | 3rdParty/stThread/state-threads/event.c:1099-1106 | recording the reported events does not disturb the bookkeeping |
| `EpollEvents.EpollData.constructor` | 3rdParty/stThread/state-threads/event.c:871-920 | the empty bookkeeping agrees with the empty queue |
| `EpollEvents.EpollData.FdDataExpand` | 3rdParty/stThread/state-threads/event.c:922-940 | longer data with zeroed new entries, or unchanged when allocation fails |
| `EpollEvents.EpollData.EvtlistExpand` | 3rdParty/stThread/state-threads/event.c:942-955 | the event list grows to its count unless allocation fails |
| `EpollEvents.EpollData.PollsetDel` | 3rdParty/stThread/state-threads/event.c:957-994 | refines the fold of `DelStep` over the entries |
| `EpollEvents.EpollData.AddOne` | 3rdParty/stThread/state-threads/event.c:1014-1038 | one entry; refused exactly when the descriptor is new to the kernel and the kernel does not admit it, for whatever reason |
| `EpollEvents.EpollData.AddAfter` | 3rdParty/stThread/state-threads/event.c:1014-1048 | the next entry of a poll is taken, or the whole call is undone, exactly as the kernel admits it in the state before the call |
| `EpollEvents.EpollData.CheckUpFront` | 3rdParty/stThread/state-threads/event.c:1002-1012 | succeeds exactly on acceptable entries that the data can be made long enough for |
| `EpollEvents.EpollData.Rollback` | 3rdParty/stThread/state-threads/event.c:1040-1047 | the state is what it was before the call |
| `EpollEvents.EpollData.PollsetAdd` | 3rdParty/stThread/state-threads/event.c:996-1050 | succeeds exactly when the checks pass and the kernel admits every new descriptor; on failure counts, interest set and its size are unchanged |
| `EpollEvents.EpollData.AddPoll` | 3rdParty/stThread/state-threads/sched.c:101-108 | accepted iff each entry has a descriptor and asks for something, and for nothing but POLLIN, POLLOUT and POLLPRI, the data are long enough or can grow, and the kernel admits the new descriptors; counts, interest and size agree with the queue before and after |
| `EpollEvents.EpollData.RemovePoll` | 3rdParty/stThread/state-threads/sched.c:116-119 | they agree after a timed-out or interrupted poll is taken off |
| `EpollEvents.EpollData.MarkFired` | 3rdParty/stThread/state-threads/event.c:1099-1106 | the data hold the reported events, widened on error and hang-up |
| `EpollEvents.EpollData.Examine` | 3rdParty/stThread/state-threads/event.c:1113-1136 | each entry gets its answer; the poll fires iff one is nonempty |
| `EpollEvents.EpollData.SweepOne` | 3rdParty/stThread/state-threads/event.c:1108-1151 | a poll that fires leaves with its uses; the kernel stays in step apart from fired descriptors |
| `EpollEvents.EpollData.FinishFired` | 3rdParty/stThread/state-threads/event.c:1153-1164 | all fired descriptors are cleared and told to the kernel; the counts are unchanged |
| `EpollEvents.EpollData.Dispatch` | 3rdParty/stThread/state-threads/event.c:1052-1166 | every queued poll is answered, entry by entry, with the kinds that it asks for and that the kernel reports for the descriptor, with all that it asks for on an error or hang-up, and with these two whenever reported; the polls with a nonempty answer are off the queue, the others stay on it, both in order; counts, interest set and its size agree with the queue again |
| `EpollEvents.EpollData.FdClose` | 3rdParty/stThread/state-threads/event.c:1176-1184 | a descriptor may be closed iff no queued poll names it |
| `RingBuffer.SrsRingBuffer.constructor` | core/srs_app_ringbuf.hpp:68-74 | empty, with the requested number of slots or 1000 when it is 0 or not below 1000 |
| `RingBuffer.SrsRingBuffer.GetCount` | core/srs_app_ringbuf.hpp:76-80 | the length of the contents |
| `RingBuffer.SrsRingBuffer.ReadPacket` | core/srs_app_ringbuf.hpp:83-114 | takes the oldest packet; empty exactly when there is none, and then nothing changes; its fields change as by the four read steps of the protocol run alone |
| `RingBuffer.SrsRingBuffer.ReadPacketTop` | core/srs_app_ringbuf.hpp:117-145 | looks at the oldest packet |
| `RingBuffer.SrsRingBuffer.WritePacket` | core/srs_app_ringbuf.hpp:148-186 | appends, or refuses exactly at bufferSize-1 packets and changes no contents; the wrapping counters stay consistent; its fields change as by the four write steps of the protocol run alone |
| `RingBuffer.SrsRingBuffer.Destroy` | core/srs_app_ringbuf.hpp:189-208 | reads until nothing is left, and stops |
| `RingBuffer.StCondition.Notify` | core/srs_app_stcondition.hpp:15-18 | one more notification, unless the buffer is full |
| `RingBuffer.StCondition.Wait` | core/srs_app_stcondition.hpp:20-29 | completes exactly when a notification is there or arrives during a nap, consumes the oldest, and leaves the rest: of the queue, or of the first nap with any, up to the capacity |
| `RingBuffer.WriteAloneIs` | core/srs_app_ringbuf.hpp:148-186 | the write steps of the protocol, run without interference, come to one write: refusal of NULL, rejection when full, or the packet stored and published |
| `RingBuffer.ReadAloneIs` | core/srs_app_ringbuf.hpp:83-114 | the read steps of the protocol, run without interference, come to one read |
| `RingBuffer.StepRefines` | core/srs_app_ringbuf.hpp:83-186 | every atomic load or store of either thread keeps the invariant and is one step of a FIFO queue of capacity bufferSize-1, or none |
| `RingBuffer.RunRefines` | core/srs_app_ringbuf.hpp:83-186 | under every interleaving of one producer and one consumer the buffer refines that queue |
| `RingBuffer.RunHistory` | core/srs_app_ringbuf.hpp:83-186 | the histories are the pushes and pops of the run |
| `RingBuffer.RunConserves` | core/srs_app_ringbuf.hpp:77-186 | what was accepted is what was returned followed by what is held; between calls the length is both (write+size-read)%size and writeCount-overwriteCnt-readCount modulo 2^32 |
| `RingBuffer.WaitsMatchNotifies` | core/srs_app_stcondition.hpp:15-29 | completed waits never outnumber accepted notifications and trail them by less than the buffer size |
| `RingBuffer.CountedIsModular` | core/srs_app_ringbuf.hpp:102-172 | the wrap-around form of the count is the difference modulo 2^32 |
| `FastCoroutine.SrsFastCoroutine.StartThread` | core/srs_app_st.cpp:162-192 | starts exactly once, and never after stop; refines `Start` |
| `FastCoroutine.SrsFastCoroutine.InterruptThread` | core/srs_app_st.cpp:242-256 | refines `Interrupt` |
| `FastCoroutine.SrsFastCoroutine.Pfn` | core/srs_app_st.cpp:263-298 | the end of the worker; refines `CycleEnds` |
| `FastCoroutine.SrsFastCoroutine.StopThread` | core/srs_app_st.cpp:194-240 | refines `Stop` up to the wait for the worker; a second call fails the assertion while the first is under way and returns after it |
| `FastCoroutine.SrsFastCoroutine.AfterJoin` | core/srs_app_st.cpp:223-240 | refines the part of stop after its join |
| `FastCoroutine.SrsFastCoroutine.Pull` | core/srs_app_st.hpp:180-185 | success exactly when no error is recorded, else a copy of it |
| `FastCoroutine.RunSafe` | core/srs_app_st.cpp:162-298 | over every interleaving of start, interrupt, stop and worker: the assertion that the recorded error is the worker's never fails; at most one thread is started and one interrupt sent, never to a joined thread; after stop, success implies the cycle was done |
| `FastCoroutine.StepKeepsError` | core/srs_app_st.cpp:162-298 | a recorded error is replaced only by the worker's own or by that of a failed creation |
| `FastCoroutine.ErrorsStay` | core/srs_app_st.hpp:180-185 | once pull reports an error it never reports success again |
| `FastCoroutine.FlagsAre` | core/srs_app_st.cpp:162-298 | over every run the flags are what the calls so far determine: disposed iff stop was called, started iff a creation succeeded before any stop, the cycle done iff the handler returned success, interrupted iff an interrupt or a stop came when the coroutine was started and its cycle not done |
| `FastCoroutine.PullReports` | core/srs_app_st.hpp:180-185 | over every run pull reports the handler's error once there is one, and else the first that a call recorded: disposed for a start after stop, started for a second start, a failed creation, interrupted for an interrupt or stop of a started coroutine whose cycle is not done, terminated only for a stop of one never started; success iff there is none |
| `FastCoroutine.CrashIff` | core/srs_app_st.cpp:211-221 | the other assertion of stop, that its join succeeds, fails exactly when the stopper has an interrupt of its own pending while the worker has not ended (or as its wait resumes) |
| `FastCoroutine.CrashHappens` | core/srs_app_st.cpp:211-221 | a run in which it fails |
| `FastCoroutine.StopOutcome` | core/srs_app_st.cpp:194-240 | over every run, a whole stop ends at the assertion on its join iff it finds the worker running with an interrupt of its own pending or is interrupted while it waits, at the assertion against a second stop iff one is made meanwhile, and otherwise completes |
| `FastCoroutine.JoinStarts` | 3rdParty/stThread/state-threads/sched.c:328-365 | the join that stop calls returns at once, fails, or waits as the thread library's does |
| `FastCoroutine.JoinEnds` | 3rdParty/stThread/state-threads/sched.c:328-365 | over every run of the scheduler, a join that waited fails iff an interrupt of its caller is pending when it resumes, and else returns what the worker exited with |
| `FastCoroutine.StopEndsWithWorker` | core/srs_app_st.cpp:194-240 | a waiting stopper without a pending interrupt completes once the worker has ended, leaving the worker's error if it had one |
| `IoVectors.Advance` | 3rdParty/stThread/state-threads/io.c:591-603 | the rest denoted by the vectors is the old rest without the bytes done; used vectors are empty |
| `IoVectors.WriteVResid` | 3rdParty/stThread/state-threads/io.c:572-616 | for every sequence of short writes, interrupts and failures the bytes sent are, in order, exactly those denoted by the vectors before without those denoted after; it fails iff this call met a write error other than EINTR and EAGAIN or a failed wait, and otherwise sends everything, waiting after each short write |
| `IoVectors.WriteResid` | 3rdParty/stThread/state-threads/io.c:465-477 | the same for one buffer, failures included; the residue counts what was not sent |
| `IoVectors.Write` | 3rdParty/stThread/state-threads/io.c:480-485 | all of the buffer went out and its length is returned, unless this call met a hard error or a failed wait: then -1, after a prefix |
| `IoVectors.TotalBytes` | 3rdParty/stThread/state-threads/io.c:496-499 | the sum of the vector lengths |
| `IoVectors.Locate` | 3rdParty/stThread/state-threads/io.c:527-530 | the first vector not wholly written and the offset in it |
| `IoVectors.Rebuild` | 3rdParty/stThread/state-threads/io.c:543-551 | the copy denotes exactly the unwritten suffix |
| `IoVectors.NextVectors` | 3rdParty/stThread/state-threads/io.c:527-551 | after any short write the copy denotes the unwritten suffix and fits its allocation, the one made at the first short write included; the caller's vectors are not touched |
| `IoVectors.WriteTurn` | 3rdParty/stThread/state-threads/io.c:510-563 | one turn of the loop keeps: sent is the prefix, the copy denotes the rest |
| `IoVectors.WriteV` | 3rdParty/stThread/state-threads/io.c:488-569 | for every sequence of short writes and EAGAINs the kernel got a prefix of the concatenated vectors, all of it exactly when their total is returned, else -1; -1 exactly when this call met a hard error, a failed wait or no room for the copy; the vectors are unchanged |
| `IoVectors.ReadVResid` | 3rdParty/stThread/state-threads/io.c:417-454 | the bytes received fill the vectors in order; the vectors denote exactly what is not filled; it fails iff this call met a read error other than EINTR and EAGAIN or a failed wait, and otherwise stops only when all is full or the stream has ended |
| `IoVectors.ReadResid` | 3rdParty/stThread/state-threads/io.c:376-388 | the same for one buffer |
| `IoVectors.ReadFully` | 3rdParty/stThread/state-threads/io.c:457-462 | the result counts exactly the bytes received, which lie at the start of the buffer; no other memory changes; a short count means end of stream |
| `IoVectors.StoreLoad` | 3rdParty/stThread/state-threads/io.c:417-454 | bytes stored at distinct addresses are read back |
| `BipartiteMatching.MaxBipartiteMatchState.TryAugment` | 3rdParty/stThread/state-threads/utest/gtest-fit/googlemock/src/gmock-matchers.cc:165-205 | terminates as `seen` grows; success adds one unit of flow and keeps the links mutual and along edges; failure moves nothing and leaves every newly marked matcher a dead end; dead ends found earlier are never disturbed |
| `BipartiteMatching.MaxBipartiteMatchState.Compute` | 3rdParty/stThread/state-threads/utest/gtest-fit/googlemock/src/gmock-matchers.cc:128-160 | the result is a matching of maximum cardinality, in element order, for every matrix |
| `BipartiteMatching.FindMaxBipartiteMatching` | 3rdParty/stThread/state-threads/utest/gtest-fit/googlemock/src/gmock-matchers.cc:225-227 | the same from fresh state |
| `BipartiteMatching.DeadEndsMeanMaximum` | 3rdParty/stThread/state-threads/utest/gtest-fit/googlemock/src/gmock-matchers.cc:132-143 | weak duality: when unmatched elements reach only dead ends, no matching is larger |
| `BipartiteMatching.HandOver` | 3rdParty/stThread/state-threads/utest/gtest-fit/googlemock/src/gmock-matchers.cc:197-201 | one link of the augmenting path keeps the links mutual |
| `BipartiteMatching.MaxBipartiteMatchState.TryMatcher` | 3rdParty/stThread/state-threads/utest/gtest-fit/googlemock/src/gmock-matchers.cc:181-203 | one turn of the search: the matcher is marked; it changes hands only with one unit more of flow; otherwise it is a dead end |
| `BipartiteMatching.DeadGrows` | 3rdParty/stThread/state-threads/utest/gtest-fit/googlemock/src/gmock-matchers.cc:181-205 | the failed search of a matcher's element makes the matcher a dead end |
| `BipartiteMatching.DeadJoins` | 3rdParty/stThread/state-threads/utest/gtest-fit/googlemock/src/gmock-matchers.cc:181-205 | dead ends stay dead as more matchers are marked |
| `BipartiteMatching.MatchersUsedIff` | 3rdParty/stThread/state-threads/utest/gtest-fit/googlemock/src/gmock-matchers.cc:422-432 | as many pairs as matchers iff all matchers are used |
| `BipartiteMatching.ElementsUsedIff` | 3rdParty/stThread/state-threads/utest/gtest-fit/googlemock/src/gmock-matchers.cc:433-443 | as many pairs as elements iff all elements are used |
| `BipartiteMatching.FindPairing` | 3rdParty/stThread/state-threads/utest/gtest-fit/googlemock/src/gmock-matchers.cc:417-456 | sound and complete: true iff some assignment of distinct partners along edges covers all matchers (superset), all elements (subset), or both |
| `BipartiteMatching.VerifyMatchMatrix` | 3rdParty/stThread/state-threads/utest/gtest-fit/googlemock/src/gmock-matchers.cc:362-415 | true iff every matcher (superset) and every element (subset) has an edge |
| `BipartiteMatching.PairableImpliesFilters` | 3rdParty/stThread/state-threads/utest/gtest-fit/googlemock/include/gmock/gmock-matchers.h:3464-3483 | the tests before the search reject nothing that can be paired |
| `BipartiteMatching.MatchAndExplain` | 3rdParty/stThread/state-threads/utest/gtest-fit/googlemock/include/gmock/gmock-matchers.h:3456-3483 | the whole verdict is true iff such a pairing exists |
| `SimpleRegex.ValidIffSpelled` | 3rdParty/stThread/state-threads/utest/gtest-fit/googletest/src/gtest-port.cc:826-879 | a string passes the checks iff it spells a pattern of the grammar |
| `SimpleRegex.ValidateRegex` | 3rdParty/stThread/state-threads/utest/gtest-fit/googletest/src/gtest-port.cc:826-879 | accepts exactly those strings |
| `SimpleRegex.PatternUnique` | 3rdParty/stThread/state-threads/utest/gtest-fit/googletest/src/gtest-port.cc:826-879 | a string spells at most one pattern |
| `SimpleRegex.AtomsAllowed` | 3rdParty/stThread/state-threads/utest/gtest-fit/googletest/src/gtest-port.cc:781-797 | which characters the grammar allows, escaped and unescaped, and which repetitions |
| `SimpleRegex.AtomClasses` | 3rdParty/stThread/state-threads/utest/gtest-fit/googletest/src/gtest-port.cc:799-819 | the characters that each escape, the dot and a plain character stand for; the capital classes are the complements |
| `SimpleRegex.StarUnrolls` | 3rdParty/stThread/state-threads/utest/gtest-fit/googletest/src/gtest-port.cc:881-910 | `a*r` matches where `r` does, or one `a` and then `a*r` |
| `SimpleRegex.PlusIsOnceThenStar` | 3rdParty/stThread/state-threads/utest/gtest-fit/googletest/src/gtest-port.cc:881-910 | `a+r` matches where `aa*r` does |
| `SimpleRegex.OptionalIsNoneOrOnce` | 3rdParty/stThread/state-threads/utest/gtest-fit/googletest/src/gtest-port.cc:881-910 | `a?r` matches where `r` or `ar` does |
| `SimpleRegex.MatchRepetitionAndRegexAtHead` | 3rdParty/stThread/state-threads/utest/gtest-fit/googletest/src/gtest-port.cc:881-910 | true iff some allowed number of repetitions can be followed by a match of the rest |
| `SimpleRegex.MatchRegexAtHead` | 3rdParty/stThread/state-threads/utest/gtest-fit/googletest/src/gtest-port.cc:912-941 | true iff the items denote a prefix (the whole, if anchored); the mutual recursion terminates as the pattern shrinks |
| `SimpleRegex.MatchRegexAnywhere` | 3rdParty/stThread/state-threads/utest/gtest-fit/googletest/src/gtest-port.cc:943-963 | agrees with the declarative meaning on every valid pattern and string: some substring, placed as the anchors ask, splits into one piece per item |
| `SimpleRegex.FullSpelled` | 3rdParty/stThread/state-threads/utest/gtest-fit/googletest/src/gtest-port.cc:984-1015 | the wrapped pattern spells the anchored pattern |
| `SimpleRegex.FullMatchIsWholeMatch` | 3rdParty/stThread/state-threads/utest/gtest-fit/googletest/src/gtest-port.cc:984-1015 | a full match accepts exactly the strings denoted as a whole iff the pattern does not end in an escaped `$` |
| `SimpleRegex.EscapedDollarMatchesTooMuch` | 3rdParty/stThread/state-threads/utest/gtest-fit/googletest/src/gtest-port.cc:1005-1011 | a concrete pattern and string where it accepts more |
| `SimpleRegex.FullMatch` | 3rdParty/stThread/state-threads/utest/gtest-fit/googletest/src/gtest-port.cc:972-975 | validity, and the meaning of the wrapped pattern |
| `SimpleRegex.PartialMatch` | 3rdParty/stThread/state-threads/utest/gtest-fit/googletest/src/gtest-port.cc:978-981 | true iff the string spells a pattern that matches a substring |

## Left out

- The kqueue event system (event.c:453-864): the same bookkeeping with batched changes.
- setjmp/longjmp, stack set-up and switch callbacks: a switch is a stored resume point.
- System calls are scripts or parameters. A script that runs out is a failed call, so an endless row of EINTR or EAGAIN answers is not a run of the I/O loops.
- The kernel may refuse any descriptor that is new to it (`admits`), but carries out every epoll control call that changes or drops a known one; it reports members of the interest set.
- Due times and the clock are unbounded: due = clock + timeout does not wrap around.
- Scheduler calls in ways that the interface forbids: a second join of a joined thread, an interrupt or join of a thread that is gone, a signal or wait on another thread's termination condition variable.
- FastCoroutine: a coroutine that stops itself.
- Destroying condition variables and mutexes by their users (sync.c:168-178, 278-288), thread keys, debug counters, valgrind hooks, the cached second (sched.c:556-559).
- Failed allocations in st_cond_new and st_mutex_new by their users.
- Reuse of a thread's record: the code places a new thread's record on its stack (sched.c:645-650), which may be that of a thread that is gone, so an owner field of a mutex that a gone thread never released may name the new thread. A created thread is new in the model.
- The links of the scheduler's queues: queues are sequences in Scheduler; CircularList proves the list operations on pointers. A queue entry holds its thread directly.
- The order of two polls by one thread: a thread has at most one poll queued, as in the code.
- The answers of an entry before its first dispatch: they are empty in the model, while the code leaves the caller's values in place until a dispatch looks at the entry.
- The timeouts passed to select and epoll_wait: when the idle thread wakes is not modelled, what it then does is.
- RingBuffer: loads and stores of the two threads are taken to be sequentially consistent; `curCount`, NULL result pointers, reads before initialization (not reachable after the constructor), and StCondition::wait with a timeout.
- Error texts, error wrapping chains, context ids and logging in the coroutine object.
- SimpleRegex: the POSIX variant, NULL patterns and strings, characters that are negative when plain char is signed.
- Explanations written by the unordered-elements matcher; the rest of the test framework.
- Sockets, listeners, configuration, integer codecs, string and path helpers, timers above the scheduler.
