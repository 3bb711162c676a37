# FreeRTOS kernel model

A Dafny model of the FreeRTOS V10.0.1 kernel kept in this repository, and of the checksum
and codec code beside it, with proofs of what that code is for: tasks wake on time although
the tick count wraps, a mutex holder is never outranked by its waiters, no wakeup of a queue
is lost, timers are served for exactly their series of expiries, messages come out whole.

The configured branches follow `freeRtos/Project/FreeRTOSConfig.h`: preemption, queue sets,
mutexes and task suspension are on; `TickType_t` and `size_t` are 32 bits wide.

## How the model is organised

A critical section, or a stretch run with the scheduler suspended that no interrupt can tell
apart from one, is one atomic step. Absolute time is an unbounded natural number beside the
wrapping tick count. `Common` holds what several components share. For each component there is

* a specification on values (`Ring`, `SchedulerState` and `SchedulerOps`, `MutexModel`,
  `QueueModel`, `QueueSetModel`, `TimerModel`, `MessageModel`, `EventGroupModel`,
  `Base64Model`, `CrcTable`), about which invariants over whole runs are proved
  (`SchedulerRuns`, `SchedulerTheorems` and `SchedulerPreemption`, `MutexAccounting`,
  `MutexSafety`, `MutexOnTop`, `MutexLimits`, `MutexExact`, `MutexNesting`, `MutexAssertion`,
  `MutexSelfTake`, `QueueProtocol`, `QueueOrder`, `QueueWindow`, `TimerSafety`, `TimerSeries`,
  `TimerPeriods`, `TimerSwitching`, `TimerBlocking`, `TimerStopping`, `EventGroupSafety`,
  `EventGroupMeeting`, `EventGroupWaiting`, `Base64Proofs`, `Base64Accepts`, `CrcSigns`),
* lemmas that say what each operation does to the task or call it is about, to every other
  one and to the processor (`SchedulerEffects`, `MutexCalls`), and
* a class or methods with the fields and loops of the C code (`List`, `Scheduler`, `Mutex`,
  `Queue`, `QueueSets`, `Timers`, `StreamBuffer`, `EventGroups`, `Timeouts`, `Crc`, `Adler`,
  `Base64`), each method proved to compute the function of the specification that its
  contract names, state and result, and to keep the invariant of its component.

Runs are sequences of events in any order; what an event asks of its caller is its `Enabled`
predicate, which holds the kernel's own assertions and the assumptions listed below.

## What turned out not to hold

The model keeps the code as it is. Where a promise fails there is a lemma with the exact
condition and a concrete run or input.

* Inheritance is not passed on along a chain of mutexes. From a safe state exactly one kind
  of step puts a holder below a task on its wait list: a task, about to wait, raises a
  holder that waits for another mutex above the holder of that one
  (`MutexOnTop.StepBreaksExactly`, `MutexNesting.InheritanceStopsAtOneMutex`). Over whole
  runs, whatever came before, it is exactly this, a task that takes a mutex ahead of a
  higher waiter, and a holder that falls below a waiter behind the head of its list
  (`MutexOnTop.RunOnTopExactly`).
* Two further kinds of step do no harm at once but lead there, without any waiting task
  being raised: a task whose timeout has expired lowers a holder that is on its way to
  another mutex, and is not sorted in again (`MutexNesting.LoweredWaiterOvertakes`); and a
  give that wakes a task drops the yield that falling back to the base priority asked for
  (`MutexNesting.DroppedYieldOvertakes`, and `MutexCalls.GiveRunsHighest` for when; an undo by
  a task that waited for a mutex of its own lowers it likewise, if the assertion against that
  is off). In every run without these three kinds of step, over any number of mutexes, no
  holder is outranked (`MutexSafety.RunSafe`).
  With one mutex none of them exists (`MutexLimits.RunSafeAlone`), with mutexes that are never
  nested only the last (`MutexLimits.RunSafeUnnested`).
* `configASSERT( xInheritanceOccurred == pdFALSE )` in `xQueueSemaphoreTake` can fail: the
  timeout expires, the mutex is seen available, and a barging task takes it
  (`MutexAssertion.TakeAssertionCanFail`). It fails exactly for a task that has looped back
  like this and finds the mutex unavailable (`MutexAssertion.TakeAssertionExactly`), never
  for a call with block time 0 or portMAX_DELAY (`MutexAssertion.CalmCallNeverFails`).
* `configASSERT( pxTCB != pxCurrentTCB )` in `vTaskPriorityDisinheritAfterTimeout` can fail:
  a task waits for its only mutex while it runs above its base priority, and so takes itself
  for the one that caused that (`MutexSelfTake.UndoAssertionCanFail`). From a safe state it
  fails exactly for such a task when nobody as high is on the wait list any more
  (`MutexSelfTake.UndoAssertionExactly`), never where no task takes a mutex that it holds
  (`MutexSelfTake.UndoNeverAsserts`).
* 128 to 255 interrupt operations in one locked window wrap an `int8_t` lock count and lose
  the wakeups (`QueueWindow.WakeupsKeptExactlyBelow128`, `SpacesKeptExactlyBelow128`); fewer
  than 128 of each kind leave no trace (`QueueWindow.LockedWindowCatchesUp`).
* `xQueueRemoveFromSet` looks at the queue outside its critical section. A removal loses
  handles exactly if an item sent since that look has not been read again by then, also if
  it was sent while the queue was locked (`QueueSetModel.SendDuringRemoval`, with a run in
  `HandleLeftBehind`); nothing else does (`QueueSetModel.RunConservedExactly`).
* A timer stop is overtaken exactly if the daemon, before obeying it, serves the timer and
  queues a reload behind it: in the list switch, from the list when the next expiry has been
  reached as well, or on obeying a start whose first expiry has been reached
  (`TimerStopping.StopOvertakenExactly`, with a run in `StopCanBeOvertaken`).
* A timeout check that comes more than a full wrap late can miss that the time has passed
  (`Timeouts.ExpiresExactly`, with an input in `LateCheckMisses`).
* A call of `vTaskDelayUntil` that comes more than a full wrap late can block for a time long
  past (`Timeouts.LateCallBlocks`), and one that comes before the previous wake time, as
  after `vTaskSuspend` and `vTaskResume` have cut a delay short, returns too early
  (`Timeouts.EarlyCallReturns`). `Timeouts.DelayUntilExact` and `Timeouts.WakesExactly` say
  exactly which calls are right.
* The bitwise CRC reads plain `char`. Where that is signed, the two sums differ by the
  extended signs of the bytes of 128 or more, each shifted to the end of the message, and
  agree exactly if these cancel (`CrcSigns.SumsAgreeExactly`). One such byte always changes
  the sum (`CrcSigns.OneSignDiffers`); fifteen can cancel (`CrcSigns.SignsCanCancel`).
* The length that the first pass of `mbedtls_base64_decode` announces is too small exactly if
  6n + 7 wraps 32 bits, unless it wraps to less than the padding takes off again
  (`Base64Proofs.OutputFitsExactly`, `Base64Proofs.AnnouncedWraps`).

The assertion that the delayed list is empty when the tick count wraps does hold, in every
run (`SchedulerTheorems.SwapNeverAsserts`). It rests on no caller asking for a delay of 0
ticks (`SchedulerTheorems.SwapAssertionHolds`); the one computed wait, that of the timer
daemon, is never 0 (`TimerBlocking.NeverWaitsZero`).

## Model

| member | source | states |
|---|---|---|
| Rings.InsertAtKeepsValid | freeRtos/Source/list.c:103-167 | Inserting an item keeps the list free of repetitions, adds exactly that item, and leaves the index on the item it rested on. |
| Rings.RemoveKeepsValid | freeRtos/Source/list.c:170-196 | Removal takes out exactly one item, keeps the order of the others and a valid index. |
| Rings.InsertEndComesLast | freeRtos/Source/list.c:74-100 | An item inserted at the end is visited after every other item, except that the item the index rests on is visited last of all. |
| Rings.RemoveKeepsRotation | freeRtos/Source/list.c:170-196 | Removing an item deletes it from the order of future visits and changes nothing else, also when the index rests on it. |
| Rings.NextTurnsRotation | freeRtos/Source/include/list.h:276-287 | Stepping the index returns the head of the order of future visits and moves it to the back, over the end marker too. |
| Rings.RoundRobin | freeRtos/Source/include/list.h:276-287 | Over an unchanged list of k items, k steps return each item exactly once and the next k repeat the order. |
| Rings.InsertPosUnique | freeRtos/Source/list.c:150-154 | Behind every smaller or equal value and in front of the first larger one is one place only. |
| Rings.InsertKeepsSorted | freeRtos/Source/list.c:103-167 | Ordered insertion keeps the list sorted and puts the new value behind all equal ones. |
| Lists.List.constructor | freeRtos/Source/list.c:37-59 | A new list is a ring of the end marker alone with the index on it. |
| Lists.List.InsertEnd | freeRtos/Source/list.c:74-100 | The four pointer writes keep both directions of the ring, the container and the count, and put the item in front of the index. |
| Lists.List.FindPosition | freeRtos/Source/list.c:117-155 | The scan ends, also for the maximum value, in front of the first larger value. |
| Lists.List.Insert | freeRtos/Source/list.c:103-167 | vListInsert on the linked structure is ordered insertion. |
| Lists.List.Unlink | freeRtos/Source/list.c:170-196 | The writes of removal keep both directions of the ring and step the index back if it rested on the item. |
| Lists.List.Remove | freeRtos/Source/list.c:170-196 | uxListRemove takes out exactly the given item, clears its container and returns the number left. |
| Lists.List.NextEntry | freeRtos/Source/include/list.h:276-287 | listGET_OWNER_OF_NEXT_ENTRY steps the index and returns the owner there. |
| Schedulers.Scheduler.AddTaskToReadyList | freeRtos/Source/tasks.c:235-239 | A task that was on no list is on the ready list of its priority, uxTopReadyPriority covers it, and every list is well formed and in order again. |
| Schedulers.Scheduler.AdvanceTickCount | freeRtos/Source/tasks.c:2601-2616 | Absolute time goes on by one, and afterwards exactly the tasks whose deadline it has reached are due, across the swap of the delayed lists. |
| Schedulers.Scheduler.UnblockDueTasks | freeRtos/Source/tasks.c:2618-2698 | The loop moves every task whose wake time is reached, and no other, and leaves xNextTaskUnblockTime at the next. |
| Schedulers.Scheduler.IncrementTick | freeRtos/Source/tasks.c:2589-2758 | xTaskIncrementTick: new state and whether a switch is required, suspended or not. |
| Schedulers.Scheduler.SelectHighestPriorityTask | freeRtos/Source/tasks.c:150-165 | The selection macro finds the highest non-empty ready list without running below 0 and takes its next task. |
| Schedulers.Scheduler.SwitchContext | freeRtos/Source/tasks.c:2851-2907 | vTaskSwitchContext, which while suspended only records the yield. |
| Schedulers.Scheduler.MovePendingTasks | freeRtos/Source/tasks.c:2127-2157 | The first loop of xTaskResumeAll empties the pending-ready list in order. |
| Schedulers.Scheduler.ProcessPendedTicks | freeRtos/Source/tasks.c:2159-2187 | The second loop processes every pended tick. |
| Schedulers.Scheduler.ResumeAll | freeRtos/Source/tasks.c:2105-2212 | xTaskResumeAll as a whole: the invariant kept, nothing left pending at the end of the last suspension, and if it answers that it has yielded a highest ready task runs. |
| Schedulers.Scheduler.AddCurrentTaskToDelayedList | freeRtos/Source/tasks.c:4912-5021 | The lists stay right, and unless it waits without a time limit the running task sleeps with absolute deadline xTicksToWait from now. |
| Schedulers.Scheduler.PlaceOnEventList | freeRtos/Source/tasks.c:2910-2924 | The running task waits for an event and sleeps no longer than xTicksToWait from now, without a limit for portMAX_DELAY; the invariant holds after it. |
| Schedulers.Scheduler.RemoveFromEventList | freeRtos/Source/tasks.c:2984-3049 | The given waiter is on the ready list of its priority, or the last pending one while the scheduler is suspended, a higher one asks for a yield, and the invariant holds after it. |
| Schedulers.Scheduler.CreateTask | freeRtos/Source/tasks.c:1027-1107 | A new task joins its ready list and preempts if its priority is higher; the invariant holds after it. |
| Schedulers.Scheduler.SuspendTask | freeRtos/Source/tasks.c:1630-1724 | The task leaves its state and event lists for the suspended list; the invariant holds after it. |
| Schedulers.Scheduler.ResumeTask | freeRtos/Source/tasks.c:1777-1825 | Only a suspended task is made ready; the invariant holds after it. |
| Schedulers.Scheduler.DeleteTask | freeRtos/Source/tasks.c:1112-1197 | Another task is freed, the running one goes to the termination list; the invariant holds after it. |
| Schedulers.Scheduler.CleanUpTask | freeRtos/Source/tasks.c:3468-3494 | The idle task frees the head of the termination list; the invariant holds after it. |
| Schedulers.Scheduler.PrioritySet | freeRtos/Source/tasks.c:1466-1623 | The base priority is the new one, the priority too unless it is inherited; with the ready-list move and yield decision, and the invariant holds after it. |
| SchedulerTicks.SwapCore | freeRtos/Source/tasks.c:215-227 | When the tick count wraps with nothing overdue, the current delayed list is empty and the overflow list takes its place with every deadline right. |
| SchedulerTicks.TickWakesOnTime | freeRtos/Source/tasks.c:2589-2742 | One tick makes exactly the tasks ready whose absolute deadline is the new absolute time, and keeps every other one blocked, across the wrap. |
| SchedulerTicks.TickRequestsSwitch | freeRtos/Source/tasks.c:2680-2755 | A tick asks for a switch exactly when a woken task has at least the running priority, the running priority is shared, or a yield is pending. |
| SchedulerTicks.DeadlinesAhead | freeRtos/Source/tasks.c:4912-5021 | Every delayed task's absolute deadline lies ahead, on the list of its epoch. |
| SchedulerSafety.SwitchPicksHighest | freeRtos/Source/tasks.c:2851-2907 | After a context switch with the scheduler running, the running task is ready and no ready task has a higher priority. |
| SchedulerSafety.TopIsHighest | freeRtos/Source/tasks.c:140-165 | The highest non-empty list at or below uxTopReadyPriority is the highest of all. |
| SchedulerSafety.CaughtUpInv | freeRtos/Source/tasks.c:2119-2187 | After a resume has caught up nothing is pended and absolute time equals the tick interrupts taken. |
| SchedulerSafety.ResumeAllInv | freeRtos/Source/tasks.c:2105-2212 | xTaskResumeAll keeps the scheduler invariant. |
| SchedulerTasks.DelayBase | freeRtos/Source/tasks.c:4912-5021 | Blocking the running task, with or without a time limit, keeps every list invariant. |
| SchedulerTasks.RemoveFromEventListInv | freeRtos/Source/tasks.c:2984-3049 | Waking a task for an event keeps the invariant, also while the scheduler is suspended. |
| SchedulerTasks.CreateTaskInv | freeRtos/Source/tasks.c:1027-1107 | Creation keeps the invariant. |
| SchedulerTasks.SuspendTaskInv | freeRtos/Source/tasks.c:1630-1724 | Suspension keeps the invariant. |
| SchedulerTasks.ResumeTaskInv | freeRtos/Source/tasks.c:1777-1825 | Resumption keeps the invariant. |
| SchedulerTasks.DeleteTaskInv | freeRtos/Source/tasks.c:1112-1197 | Deletion keeps the invariant. |
| SchedulerTasks.PrioritySetInv | freeRtos/Source/tasks.c:1466-1623 | Changing a priority keeps the invariant. |
| SchedulerRuns.StepInv | freeRtos/Source/tasks.c:2589-2758 | Every enabled event keeps the scheduler invariant. |
| SchedulerRuns.RunInv | freeRtos/Source/tasks.c:1027-3049 | The invariant holds in every state of every run: lists well formed and matching each task's container, ready lists by priority under uxTopReadyPriority, deadlines on the list of their epoch, xNextTaskUnblockTime no later than any wake time, and processed plus pended ticks equal to interrupts. |
| SchedulerTheorems.InitialInv | freeRtos/Source/tasks.c:3436-3463 | The scheduler starts in the invariant with the idle task alone. |
| SchedulerTheorems.DelayEndsOnTime | freeRtos/Source/tasks.c:2589-2742 | In every run a task blocked until an absolute time, that nothing else touches, is on a delayed list as long as the processed time is before it and ready in the first state in which it is not, across wraps, suspension and pended ticks. |
| SchedulerTheorems.DelayLasts | freeRtos/Source/tasks.c:1288-1327 | A delay of n ticks ends n ticks later: the task sleeps as long as the processed time is before then and is ready in the first state in which it is not. |
| SchedulerTheorems.EqualShare | freeRtos/Source/tasks.c:140-165 | k context switches over an unchanged top list of k tasks run each of them exactly once. |
| SchedulerTheorems.OneListPerTask | freeRtos/Source/tasks.c:235-239 | Each task's state item is on exactly one list, the one it names, and uxCurrentNumberOfTasks is the total length of the lists. |
| SchedulerTheorems.SwapAssertionHolds | freeRtos/Source/tasks.c:215-227 | As a function of its arguments: after blocking for a number of ticks the assertion at the next swap holds if and only if it is not 0 ticks asked for at the last tick of the epoch. |
| SchedulerTheorems.SwapNeverAsserts | freeRtos/Source/tasks.c:215-227 | In every state of every run, and at every pended tick that a resume would process there, the assertion holds. |
| SchedulerEffects.EventWakes | freeRtos/Source/tasks.c:2984-3049 | The task waiting for the event becomes ready on the list of its priority, or while the scheduler is suspended the last pending one; nothing else changes, and a yield is pending if and only if one was or the task is above the running one. |
| SchedulerEffects.ReadyComesLast | freeRtos/Source/tasks.c:235-239 | A task that becomes ready joins its list in front of the one the index rests on: it is visited after every other, but for that one. |
| SchedulerEffects.CreatesTask | freeRtos/Source/tasks.c:1027-1107 | The new task is ready with its priority, no other task is touched, and a switch happens if and only if its priority is above the running one's. |
| SchedulerEffects.SuspendsTask | freeRtos/Source/tasks.c:1630-1724 | The task is suspended and on no event or pending list, no other task is touched, and a switch happens if and only if it was running. |
| SchedulerEffects.ResumeWakes | freeRtos/Source/tasks.c:1777-1825 | Exactly a task that is suspended, not merely waiting without a limit, becomes ready, and a switch happens if and only if it has at least the running priority. |
| SchedulerEffects.DeletesTask | freeRtos/Source/tasks.c:1112-1197 | The running task waits for termination and a switch happens; any other task is gone; no other task is touched. |
| SchedulerEffects.CleansUp | freeRtos/Source/tasks.c:3468-3494 | Exactly the first terminated task is gone. |
| SchedulerEffects.SetsPriority | freeRtos/Source/tasks.c:1466-1623 | A ready task is on the list of its new priority, any other where it was, an inherited priority stays, and a switch happens if and only if another task is raised to the running priority or the running task is lowered. |
| SchedulerEffects.SuspendedTick | freeRtos/Source/tasks.c:2728-2757 | While the scheduler is suspended a tick is only counted, and asks for a switch if and only if a yield is pending. |
| SchedulerEffects.UnblockTimeIsReset | freeRtos/Source/tasks.c:2127-2157 | After a suspension, a deletion or a resume that moved tasks, xNextTaskUnblockTime is the first wake time still on the delayed list. |
| SchedulerEffects.DrainYields | freeRtos/Source/tasks.c:2127-2157 | Moving the pending tasks asks for a yield if and only if one of them has at least the running priority. |
| SchedulerEffects.DrainsInOrder | freeRtos/Source/tasks.c:2127-2157 | Pending tasks reach their ready lists in the order in which they became pending. |
| SchedulerEffects.ResumeYields | freeRtos/Source/tasks.c:2189-2197 | When the last suspension ends nothing stays pending, neither a task nor a tick nor a yield; if a yield was pending, or a task at least as high became ready, a highest ready task runs. |
| SchedulerPreemption.AlwaysPreemptive | freeRtos/Source/tasks.c:2589-3049 | In every state of every run the running task is ready and no ready task is above it, unless a yield is pending or one that a tick or a blocking call asked for has not been taken yet. |
| SchedulerPreemption.StepPreemptive | freeRtos/Source/tasks.c:1027-3049 | Every operation keeps this, or is one that asks its caller to yield. |
| SchedulerPreemption.SuspendedKeepsRunning | freeRtos/Source/tasks.c:2032-2039 | While the scheduler is suspended the running task keeps the processor and ticks are only counted; suspensions nest. |
| SchedulerPreemption.EventIsNotLost | freeRtos/Source/tasks.c:2984-3049 | In every run a task whose event has happened is pending as long as the scheduler stays suspended and ready in the first state in which it is not, unless it is suspended or deleted in between. |
| Timeouts.TimeOut.SetTimeOutState | freeRtos/Source/tasks.c:3098-3103 | The structure then stands for the present absolute time. |
| Timeouts.TimeOut.CheckForTimeOut | freeRtos/Source/tasks.c:3106-3166 | An aborted wait has expired, one of portMAX_DELAY has not, any other has if and only if its ticks have passed, when checked within a wrap; the remaining ticks and the re-entered time. |
| Timeouts.ExpiresExactly | freeRtos/Source/tasks.c:3106-3166 | A finite wait is reported expired if and only if it has elapsed, except exactly in the case of a check over a wrap late that finds the tick count below its start by less than the wait. |
| Timeouts.LateCheckMisses | freeRtos/Source/tasks.c:3140-3153 | A wait of 100 ticks entered at 2^32 - 1 is not seen to have expired at 2 * 2^32 + 3. |
| Timeouts.DeadlineKept | freeRtos/Source/tasks.c:3106-3166 | Checked at least once per wrap, a call times out at the first check at or after its original deadline, however often it is re-armed. |
| Timeouts.MaxDelayWaits | freeRtos/Source/tasks.c:3129-3137 | A wait of portMAX_DELAY never times out. |
| Timeouts.DelayUntil | freeRtos/Source/tasks.c:1204-1269 | The four comparisons of wrapped times decide whether and how long to block. |
| Timeouts.DelayUntilExact | freeRtos/Source/tasks.c:1204-1269 | For every previous wake time and every time of the call: the task blocks if and only if previous + increment lies ahead, except exactly for a call a wrap or more late and less than the increment past a wrap multiple, and for a call before the previous wake time that is not less than the increment past one. |
| Timeouts.WakesExactly | freeRtos/Source/tasks.c:1204-1269 | The task goes on at exactly previous + increment, or at once if that has passed, if and only if the call comes at or after the previous wake time, less than a wrap after it or not less than the increment past a wrap multiple. |
| Timeouts.LateCallBlocks | freeRtos/Source/tasks.c:1238-1247 | Called at 2^32 + 3 with previous wake time 0 and increment 10, the task blocks for 7 ticks. |
| Timeouts.EarlyCallReturns | freeRtos/Source/tasks.c:1221-1233 | Called at 50 with previous wake time 100 and increment 60, the task does not block. |
| Timeouts.FixedRate | freeRtos/Source/tasks.c:1204-1269 | Whatever the calls before it, the k-th call wakes at start + k * increment or returns at once, if and only if it comes in time after the wake time before it: delays do not add up. |
| Mutexes.MutexKernel.PriorityInherit | freeRtos/Source/tasks.c:3801-3881 | The holder is not below the running task any more, nobody is lowered, and the answer is whether the holder owes its priority to a waiter. |
| Mutexes.MutexKernel.PriorityDisinherit | freeRtos/Source/tasks.c:3888-3961 | A task without mutexes runs at its base priority, and a yield is asked for exactly if a priority changed. |
| Mutexes.MutexKernel.PriorityDisinheritAfterTimeout | freeRtos/Source/tasks.c:3968-4063 | Given the highest priority waiting for the mutex, every holder of any mutex is still above the tasks that wait for it. |
| Mutexes.MutexKernel.TakeSection | freeRtos/Source/queue.c:1412-1497 | Keeps the accounts and the safety of all mutexes, and whoever takes the mutex outranks all who still wait for it. |
| Mutexes.MutexKernel.WaitSection | freeRtos/Source/queue.c:1502-1556 | Inherit, then join the wait list in priority order; keeps the accounts. |
| Mutexes.MutexKernel.UndoSection | freeRtos/Source/queue.c:1558-1590 | Undoes inheritance after a timeout, reading the head of the wait list; keeps the accounts and every holder above those who wait. |
| Mutexes.MutexKernel.GiveSection | freeRtos/Source/queue.c:757-799 | The give keeps the accounts and every holder above those who wait, the task woken outranks them too; with nobody waiting a yield is asked for if and only if a priority changed, otherwise if and only if the woken task is above the giver as it then stands. |
| MutexAccounting.RunKeepsAccounts | freeRtos/Source/queue.c:1381-1597 | Over any number of mutexes, nested takes, any order of gives, timeouts and priority changes: uxMutexesHeld counts the mutexes held, available means no holder, and a task holding none runs at its base priority. |
| MutexAccounting.StepKeepsAccounts | freeRtos/Source/tasks.c:3888-3961 | Every step keeps these accounts. |
| MutexSafety.TrySafe | freeRtos/Source/queue.c:1412-1497 | Over any number of mutexes, a barging take keeps every holder on top of its waiters. |
| MutexSafety.WaitSafe | freeRtos/Source/queue.c:1502-1556 | Waiting keeps it, as the holder inherits first, unless that raises a holder waiting for another mutex. |
| MutexSafety.InheritedFor | freeRtos/Source/tasks.c:3801-3881 | After inheriting, before joining the wait list, every mutex is as safe as before, unless the holder waits for another mutex. |
| MutexSafety.UndoSafe | freeRtos/Source/queue.c:1558-1590 | Undoing inheritance after a timeout keeps it, unless it lowers a holder on its way to another mutex. |
| MutexSafety.LoweredShape | freeRtos/Source/tasks.c:3968-4063 | Only a holder of one mutex is lowered, not below its base priority and not below any task waiting for it. |
| MutexSafety.GiveSafe | freeRtos/Source/queue.c:757-799 | Giving keeps it: the woken head outranks all who still wait, unless the giver runs on lowered while another mutex is contested. |
| MutexSafety.FreedFor | freeRtos/Source/tasks.c:3888-3961 | A task that falls back to its base priority with its last mutex holds nothing else, so no other mutex is harmed. |
| MutexSafety.RunSafe | freeRtos/Source/tasks.c:3801-3881 | Over any number of mutexes and tasks, in every state of every run without a step of three named kinds that reach a second mutex, no holder is outranked by a task on its wait list. |
| MutexOnTop.StepOnTopExactly | freeRtos/Source/tasks.c:3801-4063 | From any state in which no holder is below a task on its wait list, in order or not, a step puts one there if and only if it lifts a waiting holder above the holder it waits for, takes a mutex ahead of a higher waiter, or lowers a holder below a waiter behind the head of the list. |
| MutexOnTop.RunOnTopExactly | freeRtos/Source/queue.c:1381-1597 | Over any number of mutexes, nested in any way, no holder is ever below a task on its wait list in a run if and only if the run has none of these three kinds of step. |
| MutexOnTop.StepBreaksExactly | freeRtos/Source/tasks.c:3801-3881 | From a safe state a step puts a holder below a task on its wait list if and only if it raises a waiting holder above the holder it waits for. |
| MutexLimits.RunSafeAlone | freeRtos/Source/tasks.c:3801-3881 | In every reachable state of one mutex shared by any number of tasks, the holder's priority is at least that of every waiting task. |
| MutexLimits.RunSafeUnnested | freeRtos/Source/queue.c:1381-1597 | The same for any number of mutexes that are never nested, in runs in which no task runs on lowered beside a contested mutex. |
| MutexExact.UndoExact | freeRtos/Source/tasks.c:3968-4063 | After an undone inheritance the holder's priority is still accounted for by some task. |
| MutexExact.SettledIsExact | freeRtos/Source/tasks.c:3968-4063 | Once no task is between its timeout and leaving its call, the holder runs at exactly the higher of its base and its highest waiter's priority. |
| MutexExact.RunExact | freeRtos/Source/tasks.c:3801-4063 | This in every settled state of every run in which no task takes a mutex it holds. |
| MutexExact.FreshExact | freeRtos/Source/queue.c:452-475 | A new mutex and tasks outside any call are a state from which such runs may start. |
| MutexScenes.LegalIsRun | freeRtos/Source/queue.c:1381-1597 | What the concrete runs reach, one enabled event after another, is the last state of a run, none of whose steps raises a waiting holder. |
| MutexNesting.InheritanceStopsAtOneMutex | freeRtos/Source/tasks.c:3801-3881 | A run to a state in which the next step breaks inheritance: it raises a task that waits for another, but not that other. |
| MutexNesting.LoweredWaiterOvertakes | freeRtos/Source/tasks.c:3968-4063 | A run in which no waiting task is raised, but one is lowered in place and then takes the mutex ahead of a higher waiter. |
| MutexNesting.DroppedYieldOvertakes | freeRtos/Source/queue.c:777-799 | A run in which no waiting task is raised or lowered, but a task runs on after its give and takes a mutex ahead of higher waiters. |
| MutexAssertion.TakeAssertionCanFail | freeRtos/Source/queue.c:1466-1482 | A reachable state in which the assertion about inheritance fails. |
| MutexAssertion.StepLoops | freeRtos/Source/queue.c:1558-1595 | A step makes a call one that has looped back with no time left exactly by a recheck that finds the mutex available, and ends it exactly by the next try. |
| MutexAssertion.TakeAssertionExactly | freeRtos/Source/queue.c:1466-1482 | In every run the assertion is false of the running task if and only if it did such a recheck, has not tried since, and the mutex is unavailable. |
| MutexAssertion.CalmCallNeverFails | freeRtos/Source/queue.c:1466-1497 | It is never false for a call with block time 0, nor for one that has not seen its timeout expire, as with portMAX_DELAY. |
| MutexSelfTake.UndoAssertionCanFail | freeRtos/Source/tasks.c:4002-4005 | A reachable state in which the assertion that the holder is not the running task fails. |
| MutexSelfTake.UndoAssertionExactly | freeRtos/Source/tasks.c:3968-4063 | In a safe state it fails if and only if the running task has waited for its only mutex, runs above its base priority, and every task still waiting is below it. |
| MutexSelfTake.UndoNeverAsserts | freeRtos/Source/tasks.c:3968-4063 | In every run over any number of mutexes in which no task takes a mutex that it holds, it holds in every state. |
| MutexCalls.TryOutcome | freeRtos/Source/queue.c:1412-1497 | A call takes the mutex if and only if it is available, and is over then; otherwise it goes on if it has block time and is over if not. |
| MutexCalls.WaitOutcome | freeRtos/Source/queue.c:1502-1556 | A call waits only while the mutex is unavailable, and knows that inheritance occurred if and only if the holder's base priority is below its own. |
| MutexCalls.RecheckOutcome | freeRtos/Source/queue.c:1558-1595 | After an expired timeout the call tries again, undoes the inheritance it caused, or is over. |
| MutexCalls.UndoOutcome | freeRtos/Source/tasks.c:3968-4063 | Only the holder's priority changes, and only if it holds nothing else: to the higher of its base and the highest still waiting. |
| MutexCalls.TimeOutOutcome | freeRtos/Source/queue.c:1537-1553 | A task that times out leaves its wait list, the others keeping their order, and tries again. |
| MutexCalls.OtherOutcomes | freeRtos/Source/queue.c:1381-1411 | A call begins without inheritance to its name; switches, sleep and wakeups touch no call. |
| MutexCalls.GiveOutcome | freeRtos/Source/queue.c:757-799 | The mutex is free, the giver holds one less and falls back with its last one, and the head of the wait list tries again. |
| MutexCalls.GiveYieldsExactly | freeRtos/Source/queue.c:777-799 | With nobody waiting a give asks for a yield if and only if it takes a priority back; otherwise if and only if the woken task is above the giver as it then stands. |
| MutexCalls.GiveRunsHighest | freeRtos/Source/queue.c:777-799 | A give leaves a highest ready task running, except exactly if it drops the yield of a giver that has fallen back below another ready task. |
| MutexCalls.SetBaseOutcome | freeRtos/Source/tasks.c:1519-1576 | An inherited priority stays, but the event item value is rewritten for the new base. |
| Queues.WriteBack | freeRtos/Source/queue.c:2066-2078 | Writing at the slot behind the last item appends to the items of the ring, wrapping included. |
| Queues.WriteFront | freeRtos/Source/queue.c:2079-2091 | Writing at the read index and stepping it back prepends. |
| Queues.ReadFront | freeRtos/Source/queue.c:2119-2134 | Stepping the read index on reads the front item and drops it. |
| Queues.RingQueue.constructor | freeRtos/Source/queue.c:247-260 | A new queue is an empty unlocked deque. |
| Queues.RingQueue.CopyDataToQueue | freeRtos/Source/queue.c:2040-2116 | The ring holds what the deque does after a send to back, to front or an overwrite. |
| Queues.RingQueue.CopyDataFromQueue | freeRtos/Source/queue.c:2119-2134 | Returns the front item and leaves the rest. |
| Queues.RingQueue.TrySend | freeRtos/Source/queue.c:746-868 | Sends exactly when there is room or the item is overwritten, and wakes the first waiting receiver. |
| Queues.RingQueue.TryReceive | freeRtos/Source/queue.c:1266-1324 | Takes the front item of a queue that is not empty and wakes the first waiting sender. |
| Queues.RingQueue.TryPeek | freeRtos/Source/queue.c:1628-1692 | Returns the front item, leaves the queue as it was and wakes the next reader. |
| Queues.RingQueue.SendFromISR | freeRtos/Source/queue.c:923-1071 | As a send, but a locked queue counts the item instead of waking. |
| Queues.RingQueue.ReceiveFromISR | freeRtos/Source/queue.c:1750-1838 | As a receive, but a locked queue counts the space instead of waking. |
| Queues.RingQueue.UnlockTx | freeRtos/Source/queue.c:2145-2223 | The loop wakes one receiver for every counted send until either runs out. |
| Queues.RingQueue.UnlockRx | freeRtos/Source/queue.c:2225-2253 | The loop wakes one sender for every counted receive until either runs out. |
| Queues.RingQueue.Place | freeRtos/Source/list.c:117-155 | The scan puts a waiting task behind every smaller or equal item value at the front of the list and in front of the first larger one. |
| Queues.RingQueue.PlaceSender | freeRtos/Source/tasks.c:2910-2924 | A task that waits to send joins its list there. |
| Queues.RingQueue.PlaceReceiver | freeRtos/Source/tasks.c:2910-2924 | So does a task that waits to receive. |
| QueueModel.LastInFirstOut | freeRtos/Source/queue.c:2079-2091 | Any number of items sent to the front come out last in, first out, before the rest. |
| QueueModel.FirstInFirstOut | freeRtos/Source/queue.c:2066-2078 | Any number of items sent to the back come out in their order. |
| QueueProtocol.TryKeeps | freeRtos/Source/queue.c:746-868 | The section at the top of the loops keeps every item and space answered for. |
| QueueProtocol.PlaceKeeps | freeRtos/Source/queue.c:1334-1343 | So does joining a wait list, after any interrupts since the queue was seen empty or full. |
| QueueProtocol.UnlockTxKeeps | freeRtos/Source/queue.c:2145-2223 | So does unlocking, which turns counts into wakeups. |
| QueueProtocol.IsrSendKeeps | freeRtos/Source/queue.c:956-1060 | So does an interrupt send at any point. |
| QueueProtocol.IsrReceiveKeeps | freeRtos/Source/queue.c:1780-1825 | So does an interrupt receive. |
| QueueProtocol.RunInv | freeRtos/Source/queue.c:725-920 | The protocol invariant holds in every state of every run of any number of tasks and interrupts. |
| QueueProtocol.NoLostWakeup | freeRtos/Source/queue.c:1239-1378 | Whenever the queue is unlocked and a task waits to receive, there are at most as many items as tasks that were woken, are ready and have not yet retried; symmetrically for spaces. |
| QueueProtocol.NoneSleepsBesideAnItem | freeRtos/Source/queue.c:1600-1747 | Once every call is finished or blocked, a waiting receiver means an empty queue and a waiting sender a full one. |
| QueueOrder.PlaceInOrder | freeRtos/Source/tasks.c:2910-2924 | A task joins a wait list behind every smaller or equal item value and in front of every larger one, and the list stays in order. |
| QueueOrder.JoinsInOrder | freeRtos/Source/queue.c:1334-1343 | It joins the list of its call, and the other list is untouched. |
| QueueOrder.StepLists | freeRtos/Source/queue.c:2040-2253 | Each event wakes exactly the first so many tasks of a list, and no other leaves it but by a time-out. |
| QueueOrder.AlwaysOrdered | freeRtos/Source/queue.c:725-1378 | In every state of every run both wait lists are in priority order, oldest first among equals. |
| QueueOrder.HighestIsWoken | freeRtos/Source/queue.c:2145-2253 | No task woken by any step, a send, a receive or an unlock, has a lower priority than one that goes on waiting. |
| QueueOrder.StepItems | freeRtos/Source/queue.c:2040-2134 | Each event puts at most one item in, at the end it names, or takes the front one. |
| QueueOrder.QueueIsFifo | freeRtos/Source/queue.c:725-1378 | Over any number of tasks and interrupts that send to the back, what has been received followed by what is in the queue is what has been sent, in order. |
| QueueOrder.CallGoesOn | freeRtos/Source/queue.c:725-920 | Where each section leaves the call: it ends with the item, without one at once if it has no block time, or by its timeout; it waits only after seeing the queue full or empty. |
| QueueWindow.IsrSendsCount | freeRtos/Source/queue.c:1053-1058 | k interrupt sends in a locked window leave the count k as an int8_t. |
| QueueWindow.WakeupsKeptExactlyBelow128 | freeRtos/Source/queue.c:107-108 | 1 to 255 interrupt sends in one locked window lose no wakeup if and only if they are fewer than 128. |
| QueueWindow.SpacesKeptExactlyBelow128 | freeRtos/Source/queue.c:107-108 | 1 to 255 interrupt receives in one locked window lose no wakeup of a sender if and only if they are fewer than 128. |
| QueueWindow.LockedWindowCatchesUp | freeRtos/Source/queue.c:232-244 | Fewer than 128 interrupt sends and fewer than 128 receives, in any order while the queue is locked, caught up with by unlocking, leave it as the same interrupts leave the unlocked queue. |
| QueueSetModel.NotifyKeeps | freeRtos/Source/queue.c:2846-2895 | Notifying the set restores the balance that taking an item disturbed, and finds room. |
| QueueSetModel.NotifyAllKeeps | freeRtos/Source/queue.c:2150-2219 | Unlocking a member turns every count into a handle. |
| QueueSetModel.RoomForHandle | freeRtos/Source/queue.c:2851-2856 | A member that has just taken an item finds room for its handle in the set. |
| QueueSetModel.LetGoExactly | freeRtos/Source/queue.c:2784-2813 | The second half of a removal keeps conservation if and only if the queue is empty by then, or no member. |
| QueueSetModel.StepKeepsExactly | freeRtos/Source/queue.c:2751-2813 | Every other step keeps it, whether or not a queue is being removed. |
| QueueSetModel.SetConserved | freeRtos/Source/queue.c:757-773 | In every run that lets no queue go that has got an item since it was checked, at every state each member's messages are its handles in the set, plus the sends counted on its lock, plus its selections not yet read, and the set-not-full assertion has never failed. |
| QueueSetModel.RunConservedExactly | freeRtos/Source/queue.c:2751-2895 | A run keeps this throughout if and only if it lets no queue go that has got an item since it was checked. |
| QueueSetModel.SelectionCanBeRead | freeRtos/Source/queue.c:2820-2826 | A selected member always has an item to read. |
| QueueSetModel.HandlesInOrder | freeRtos/Source/queue.c:2846-2895 | A send to a member adds its handle at the same end, unlocking adds one at the back for every counted send, a selection takes the front one, and nothing else touches them. |
| QueueSetModel.SentSinceCheck | freeRtos/Source/queue.c:2789-2800 | From the check of a removal to its end the queue holds exactly the items sent to it since less those read. |
| QueueSetModel.SendDuringRemoval | freeRtos/Source/queue.c:2784-2813 | Whatever happens between the check and the removal, locking and unlocking the queue included, the removal keeps conservation if and only if every item sent since the check has been read again. |
| QueueSetModel.HandleLeftBehind | freeRtos/Source/queue.c:2784-2813 | A run of six steps from queues in no set: an interrupt sends to the locked queue, unlocking puts its handle into the set, and the removal leaves it there. |
| QueueSets.QueueSet.NotifyQueueSetContainer | freeRtos/Source/queue.c:2846-2895 | Exactly one more handle, of that queue, is in the set if it has room; otherwise the failed assertion is recorded. |
| QueueSets.QueueSet.Send | freeRtos/Source/queue.c:752-774 | A task send with its notification keeps every message answered for. |
| QueueSets.QueueSet.SendFromISR | freeRtos/Source/queue.c:956-1058 | An interrupt send, which notifies or counts, keeps every message answered for. |
| QueueSets.QueueSet.Unlock | freeRtos/Source/queue.c:2145-2223 | The unlocking loop for a member of a set turns counts into handles and keeps every message answered for. |
| QueueSets.QueueSet.SelectFromSet | freeRtos/Source/queue.c:2820-2826 | Returns the handle at the front of the set; the queue it names has an item to read. |
| QueueSets.QueueSet.Add | freeRtos/Source/queue.c:2751-2777 | Joins exactly a queue that is in no set and empty, and keeps every message answered for. |
| Ticks.WrapStep | freeRtos/Source/timers.c:624-645 | Less than a wrap later the wrapped time is smaller exactly if the epoch has changed. |
| TimerModel.PlacementExact | freeRtos/Source/timers.c:647-685 | For a command less than a wrap old, process now if and only if C + P is reached, otherwise the list of C + P's epoch. |
| TimerModel.SwitchTurnDistance | freeRtos/Source/timers.c:848-885 | Every turn of the list-switch loop brings the entries closer to the wrap, so it ends. |
| TimerSafety.SampleOk | freeRtos/Source/timers.c:624-645 | Sampling switches the lists exactly when the epoch has changed, and leaves every entry on the list of its epoch, in order. |
| TimerSafety.ProcessExpiredOk | freeRtos/Source/timers.c:462-499 | Serving the head keeps that and serves nothing early. |
| TimerSafety.RunCommandOk | freeRtos/Source/timers.c:688-830 | Obeying any command keeps that. |
| TimerSafety.BlocksOnlyIfNothingDue | freeRtos/Source/timers.c:538-594 | When the daemon goes to sleep no timer on either list is due. |
| TimerSafety.RunOk | freeRtos/Source/timers.c:502-535 | Entries are on the list of their epoch, in order, in every state of every run. |
| TimerSeries.SwitchLoopSeries | freeRtos/Source/timers.c:835-891 | Switching the lists keeps a timer on its series. |
| TimerSeries.StepSeries | freeRtos/Source/timers.c:462-830 | So does every event that is not a new command for it. |
| TimerSeries.TimerServedForItsSeries | freeRtos/Source/timers.c:462-891 | An auto-reload timer started at C with period P, C being sampled before its command is queued, has at every later state been served for exactly C + P, ..., C + nP, in order, none early, and exactly one of current entry, overflow entry and queued reload is pending, for C + (n + 1)P. |
| TimerSeries.OneShotServedOnce | freeRtos/Source/timers.c:462-891 | A one-shot timer is pending for C + P until it is served, once, and is dormant after that. |
| TimerPeriods.ChangeObeyed | freeRtos/Source/timers.c:785-797 | Whatever is queued, obeying a change of period stores it, starts the timer with its one list entry due a new period from now, and serves nothing of it. |
| TimerPeriods.ServedForChangedSeries | freeRtos/Source/timers.c:785-797 | In every run from a change to period P obeyed at N on, an auto-reload timer is served for exactly N + P, N + 2P, ..., in order, and the next is pending. |
| TimerPeriods.StartObeyed | freeRtos/Source/timers.c:745-777 | A start or reset that carries the time C sets the timer on the series from C, whatever it was on before. |
| TimerPeriods.ServedForRestartedSeries | freeRtos/Source/timers.c:745-777 | From then on it is served for exactly that series. |
| TimerPeriods.StepServesNow | freeRtos/Source/timers.c:462-499 | Callbacks are called at the time at which the daemon processes them. |
| TimerSwitching.BurstLength | freeRtos/Source/timers.c:848-885 | The expiries from e before an end are (end - e) / P in number, rounded up. |
| TimerSwitching.SwitchServesBurst | freeRtos/Source/timers.c:835-891 | The switch serves a timer once for every expiry left in the old epoch and leaves the next to one queued reload. |
| TimerSwitching.StopLeavesQueued | freeRtos/Source/timers.c:721-816 | A stop or a deletion leaves of a timer exactly what is queued behind it. |
| TimerStopping.StopCanBeOvertaken | freeRtos/Source/timers.c:779-783 | A run of seven steps from the start of the daemon after which a stopped timer runs on. |
| TimerStopping.StopOvertakenExactly | freeRtos/Source/timers.c:688-777 | In every run a timer runs on after the daemon has obeyed its stop if and only if in between the daemon served it and queued a reload behind the stop. |
| TimerStopping.OneShotStops | freeRtos/Source/timers.c:688-777 | A one-shot timer never runs on after its stop has been obeyed. |
| TimerStopping.RunningIsPending | freeRtos/Source/timers.c:462-499 | A timer runs if and only if an expiry is pending for it, on a list or in the queue. |
| TimerStopping.SwitchLoopSends | freeRtos/Source/timers.c:835-891 | The list switch sends a reload for exactly the auto-reload timers on the old list. |
| TimerBlocking.NeverWaitsZero | freeRtos/Source/timers.c:567-574 | In every run, whenever the daemon blocks with a time limit, the limit is at least one tick. |
| Timers.CommandTurn | freeRtos/Source/timers.c:688-830 | Every turn of the command loop leaves less work, also when it sends reloads, so at a standing clock the loop ends. |
| Timers.HeadWait | freeRtos/Source/timers.c:567-574 | The block time takes the daemon to exactly the next expiry or the wrap. |
| Timers.TimerDaemon.SwitchTimerLists | freeRtos/Source/timers.c:835-891 | prvSwitchTimerLists as a loop with its bound. |
| Timers.TimerDaemon.SampleTimeNow | freeRtos/Source/timers.c:624-645 | prvSampleTimeNow. |
| Timers.TimerDaemon.InsertTimerInActiveList | freeRtos/Source/timers.c:647-685 | For a command less than a wrap old the timer is processed now exactly if its expiry has been reached, and otherwise each list still holds the expiries of its epoch, in order. |
| Timers.TimerDaemon.ProcessExpiredTimer | freeRtos/Source/timers.c:462-499 | Serving a due head is not early and leaves the lists, the queue and the log right. |
| Timers.TimerDaemon.ProcessTimerOrBlockTask | freeRtos/Source/timers.c:538-594 | Serves the head if it is due, otherwise blocks, never for 0 ticks, and then no timer is due before the wait ends. |
| Timers.TimerDaemon.ObeyCommand | freeRtos/Source/timers.c:693-816 | One turn of the command loop; a change of period is stored and the timer's one entry is due a new period from now. |
| Timers.TimerDaemon.ProcessReceivedCommands | freeRtos/Source/timers.c:688-830 | Obeys commands until the queue is empty, its own reloads included. |
| MessageModel.LengthRoundTrip | freeRtos/Source/stream_buffer.c:664-672 | A length survives being stored as the bytes of a size_t. |
| MessageModel.FrontOf | freeRtos/Source/stream_buffer.c:852-900 | At the tail lies a whole message or no more than a lone length. |
| MessageModel.ReceiveIsWhole | freeRtos/Source/stream_buffer.c:852-900 | A receive hands over exactly the oldest pending message if it fits, and otherwise changes nothing at all. |
| MessageModel.WriteDataKeeps | freeRtos/Source/stream_buffer.c:679-683 | Publishing the data completes the message. |
| MessageModel.WholeMessagesOnly | freeRtos/Source/stream_buffer.c:639-688 | In every interleaving of the writer's two publications with receives, the received messages are a prefix of the sent ones and the buffer holds the rest, whole, followed by at most one lone length. |
| MessageModel.LoneLengthIsNotReceived | freeRtos/Source/stream_buffer.c:765-772 | With no whole message in the buffer a receive does nothing. |
| MessageModel.StreamIsFifo | freeRtos/Source/stream_buffer.c:655-662 | In stream mode bytes are neither lost, invented nor reordered. |
| MessageModel.MessageGoesInExactly | freeRtos/Source/stream_buffer.c:639-688 | With any receives in between, a message of n bytes is sent if and only if n + 4 bytes were free when the space was measured; otherwise nothing is written. |
| MessageModel.StreamMovesAll | freeRtos/Source/stream_buffer.c:655-662 | A stream takes as many of the first bytes as fit and gives as many of the oldest as there is room for. |
| StreamBuffers.WriteAppends | freeRtos/Source/stream_buffer.c:1020-1063 | The two copies at the head append to the bytes between tail and head. |
| StreamBuffers.ReadTakes | freeRtos/Source/stream_buffer.c:1066-1118 | The two copies at the tail read the first bytes and leave the rest. |
| StreamBuffers.CountsAddUp | freeRtos/Source/stream_buffer.c:451-473 | In wrapping 32-bit arithmetic, bytes and spaces add up to length - 1. |
| StreamBuffers.StreamBuffer.SpacesAvailable | freeRtos/Source/stream_buffer.c:451-473 | Spaces and contents together are length - 1. |
| StreamBuffers.StreamBuffer.BytesInBuffer | freeRtos/Source/stream_buffer.c:1121-1138 | Counts the contents. |
| StreamBuffers.StreamBuffer.WriteBytes | freeRtos/Source/stream_buffer.c:1020-1063 | Appends the data to the contents. |
| StreamBuffers.StreamBuffer.ReadBytes | freeRtos/Source/stream_buffer.c:1066-1118 | Takes the first bytes of the contents. |
| StreamBuffers.StreamBuffer.WriteMessage | freeRtos/Source/stream_buffer.c:639-688 | A message goes in with its length or not at all; a stream takes what fits. |
| StreamBuffers.StreamBuffer.Receive | freeRtos/Source/stream_buffer.c:852-900 | A message comes out whole or the tail is where it was. |
| EventGroupModel.ItemValueParts | freeRtos/Source/event_groups.c:348-373 | The bits waited for and the control bits can be told apart in an item value, and it does not look released. |
| EventGroupModel.ReleaseValueParts | freeRtos/Source/event_groups.c:570-580 | A released task can tell and returns exactly the bits it was released with. |
| EventGroupModel.SetReleasesExactly | freeRtos/Source/event_groups.c:504-596 | A set call releases exactly the waiters satisfied by old or set bits, gives each all of these, and keeps the others. |
| EventGroupModel.ClearMaskExact | freeRtos/Source/event_groups.c:562-590 | Bits are cleared by the call if and only if some released clear-on-exit waiter waited for them. |
| EventGroupModel.SetIgnoresOrder | freeRtos/Source/event_groups.c:504-596 | Final bits, released tasks and their values do not depend on the order of the wait list. |
| EventGroupSafety.StepInv | freeRtos/Source/event_groups.c:296-382 | Every call keeps it so that no waiter is satisfied. |
| EventGroupSafety.NoWaiterSatisfied | freeRtos/Source/event_groups.c:656-688 | In every reachable state no blocked task's wait condition is met by the current bits. |
| EventGroupSafety.Gathering | freeRtos/Source/event_groups.c:176-234 | While bits are missing, participants of a rendezvous only gather. |
| EventGroupSafety.Rendezvous | freeRtos/Source/event_groups.c:176-234 | The call that brings the last missing bit releases all who wait, each with all the bits, and the bits are cleared. |
| EventGroupMeeting.StepRelease | freeRtos/Source/event_groups.c:504-596 | A waiting task is released by the call that completes its bits, with all the bits, and by no other, unless it times out or the group is deleted. |
| EventGroupMeeting.GathersInRun | freeRtos/Source/event_groups.c:176-234 | In any run, with any other waiters, set calls and timeouts, a task blocked in a rendezvous stays on the wait list, and of its bits exactly those are set that were or have been brought since, as long as nothing clears one of them. |
| EventGroupMeeting.MeetingReleases | freeRtos/Source/event_groups.c:176-234 | The next call releases it if and only if it brings the last of its bits; the task then returns with all of them, and they are cleared. |
| EventGroupWaiting.WaitOutcome | freeRtos/Source/event_groups.c:316-382 | A wait met at once clears its bits if asked to; one that blocks joins the end of the list with exactly the bits, the clearing and the all-or-any it asked for; any other changes nothing. |
| EventGroupWaiting.SyncOutcome | freeRtos/Source/event_groups.c:191-234 | A sync that completes its bits leaves none of them set; one that blocks joins the list for all of them, to be cleared. |
| EventGroupWaiting.WaitEndsExactly | freeRtos/Source/event_groups.c:504-596 | In any run a task that blocks for some or all of some bits waits until a call sets what satisfies it, and that call releases it: it returns all the bits then set, and its own are cleared if it asked for that. |
| EventGroupWaiting.ExpireOutcome | freeRtos/Source/event_groups.c:384-428 | A time-out takes exactly that task off the list. |
| EventGroupWaiting.LateOutcome | freeRtos/Source/event_groups.c:402-424 | A task that times out and finds its condition met clears its bits if it asked for that. |
| EventGroupWaiting.DeleteOutcome | freeRtos/Source/event_groups.c:598-638 | Every waiting task is released and returns no bits. |
| EventGroups.EventGroup.SetBits | freeRtos/Source/event_groups.c:504-596 | The traversal that removes while it walks, and the deferred clearing; no waiting task is left satisfied. |
| EventGroups.EventGroup.MatchItem | freeRtos/Source/event_groups.c:533-560 | The match on control bits and bits split from one value is the wait condition. |
| EventGroups.EventGroup.ClearBits | freeRtos/Source/event_groups.c:446-470 | Clears exactly the given bits, returns the bits as they were, and leaves no waiting task satisfied. |
| EventGroups.EventGroup.WaitBits | freeRtos/Source/event_groups.c:314-382 | Returns at once, clearing its bits if met and asked to, or joins the wait list with exactly what it asked for; no waiting task is left satisfied. |
| EventGroups.EventGroup.Sync | freeRtos/Source/event_groups.c:191-234 | Sets, then returns all bits and clears, or joins the wait list; no waiting task is left satisfied. |
| EventGroups.EventGroup.Delete | freeRtos/Source/event_groups.c:598-638 | Releases every waiting task, which then returns no bits. |
| CrcTable.EntryIsByteSteps | lwip/mkfs/miniz.c:90-129 | Every table entry is what eight bit steps make of its index. |
| Crc.TableStepIsByteSteps | lwip/mkfs/miniz.c:134-149 | One table look-up is eight bit steps on the byte mixed in. |
| Crc.MzCrc32 | lwip/mkfs/miniz.c:88-152 | Four bytes to a turn and the rest one by one compute the bitwise register. |
| Crc.CmnMuxCrc32b | lwip/exts/cmn/extCmnUtils.c:12-35 | The nested loops compute the same register over the values of the characters. |
| Crc.BitStepDivides | lwip/exts/cmn/extCmnUtils.c:25-29 | The mask makes a bit step one step of division by the polynomial. |
| Crc.TableEqualsBitwise | lwip/exts/cmn/extCmnUtils.c:12-35 | Both give the same sum for every message, of bytes below 128 where char is signed. |
| CrcSigns.SumsAgreeExactly | lwip/exts/cmn/extCmnUtils.c:15-23 | Where char is signed the two sums differ by the extended signs of the bytes of 128 or more, each shifted to the end of the message, and agree if and only if these cancel. |
| CrcSigns.OneSignDiffers | lwip/exts/cmn/extCmnUtils.c:15-23 | Exactly one such byte always changes the sum. |
| CrcSigns.SignsCanCancel | lwip/exts/cmn/extCmnUtils.c:15-23 | A message of 33 bytes, fifteen of them 128, gets the same sum from both forms. |
| Crc.CrcComposes | lwip/mkfs/miniz.c:131-151 | Continuing from the sum of a over b gives the sum of a followed by b. |
| Crc.CheckValue | lwip/mkfs/miniz.c:88-152 | Both forms give the published check value of CRC-32, cbf43926, for the characters 1 to 9. |
| Adler.BlockFits | lwip/mkfs/miniz.c:39-65 | Over 5552 bytes neither sum overflows 32 bits, from any 16-bit halves. |
| Adler.DelayedReduction | lwip/mkfs/miniz.c:60-60 | Reducing once per block gives what reducing at every byte gives. |
| Adler.AdlerComposes | lwip/mkfs/miniz.c:39-65 | Continuing from the sum of a over b gives the sum of a followed by b. |
| Adler.SumBlock | lwip/mkfs/miniz.c:47-59 | Eight bytes to a turn and the rest one by one, without overflow. |
| Adler.MzAdler32 | lwip/mkfs/miniz.c:39-65 | The short block first, then whole blocks, compute the recurrence of section 8.2 of RFC 1950. |
| Adler.CheckValue | lwip/mkfs/miniz.c:39-65 | The sum of the word Wikipedia from 1 is 11e60398. |
| Base64Model.DecMapInverse | lwip/exts/base64.c:11-37 | The two maps are inverse to each other on the alphabet. |
| Base64Proofs.LineBreaksIgnored | lwip/exts/base64.c:118-155 | LF or CRLF anywhere between characters does not change what the first pass finds. |
| Base64Proofs.RoundTrip | lwip/exts/base64.c:44-106 | However the encoded text is broken into lines, it decodes to the original, and the announced length is right. |
| Base64Proofs.DecodeEncode | lwip/exts/base64.c:111-191 | Decoding undoes encoding, for every byte string. |
| Base64Proofs.ScanCounts | lwip/exts/base64.c:118-155 | An accepted text has only alphabet characters and at most two padding characters, these last. |
| Base64Proofs.GroupsFit | lwip/exts/base64.c:163-188 | The second pass writes at most the announced bytes, exactly that many for whole groups. |
| Base64Proofs.OutputFits | lwip/exts/base64.c:163-188 | While 6n + 7 does not wrap, the output fits the length computed by the first pass. |
| Base64Proofs.OutputFitsExactly | lwip/exts/base64.c:156-161 | For every accepted text the output fits the announced length if and only if 6n + 7 does not wrap, or wraps to less than the padding takes off. |
| Base64Proofs.AnnouncedWraps | lwip/exts/base64.c:156-161 | 715827882 characters are announced as no bytes. |
| Base64Accepts.AcceptedExactly | lwip/exts/base64.c:118-155 | Accepted are exactly the texts of alphabet characters with at most two padding characters behind all of them, broken into lines by LF or CR LF, with spaces only at the end of a line or of the text. |
| Base64Accepts.Alphabet | lwip/exts/base64.c:11-22 | The alphabet is that of table 1 of RFC 4648. |
| Base64Accepts.TestVectors | lwip/exts/base64.c:44-106 | The test vectors of section 10 of RFC 4648. |
| Base64.EncodeBuffer | lwip/exts/base64.c:44-106 | Writes the encoded text and a terminating zero, or reports the length needed and writes nothing. |
| Base64.FirstPass | lwip/exts/base64.c:118-155 | The nested loops accept or reject as specified, with the counts. |
| Base64.SecondPass | lwip/exts/base64.c:172-186 | The loop writes exactly the decoded groups. |
| Base64.DecodeBuffer | lwip/exts/base64.c:111-191 | Decodes, or reports an invalid character or the length needed; given a buffer with room it writes the decoded bytes and nothing else. |

## Left out

* The port layer, interrupt masking, stacks, memory allocation, MPU wrappers, trace macros,
  run-time statistics, task names and the queue registry.
* Tickless idle, port-optimised task selection, co-routines and task notifications.
* The time before the scheduler starts, `xTaskAbortDelay`, and resuming tasks from interrupts.
* Resetting a queue or a stream buffer, and trigger levels.
* Recursive mutexes, which count on top of the modelled take and give.
* `vTaskRemoveFromUnorderedEventList` on the scheduler's lists (its effect on an event group is
  modelled), and the function calls that `xTimerPendFunctionCall` queues for the daemon.
* Retry loops are modelled as protocols between sections, not as one blocking method.
* Event groups that borrow the event item of a task which also holds a mutex: the check that
  keeps priority changes off a borrowed item is not part of this model.
* The zlib wrappers of miniz.c, frozen.c, the network glue and the demonstration tasks.

Assumptions that appear in the `Enabled` predicates and preconditions:

- SchedulerRuns.RunInv: delays are of at least one tick, as every caller asks for (NeverWaitsZero for the timer daemon), and the idle task never blocks.
- Schedulers.Scheduler.RemoveFromEventList: event lists are a set here and the task at the head is a parameter; their order is that of MutexModel and QueueModel.
- Schedulers.Scheduler.PrioritySet: the event item value it rewrites is part of MutexModel.PrioritySet, not of the scheduler's state.
- MutexSafety.RunSafe: no explicit priority changes of tasks that use mutexes, which are not suspended, deleted or aborted either, and make no call on a mutex while the scheduler is suspended.
- MutexOnTop.RunOnTopExactly: the same.
- MutexExact.RunExact: one mutex, no explicit priority changes of its users, and no task takes a mutex that it holds.
- QueueOrder.AlwaysOrdered: the item values of waiting tasks stay as they are; a change of priority while waiting is that of MutexModel.
- QueueProtocol.NoLostWakeup: the queue is in no set and never reset, its waiters are not suspended, deleted or aborted, and a locked window sees fewer than 128 interrupt operations of each kind.
- QueueSetModel.SetConserved: members join empty, are read only after being selected, are never reset or overwritten, and take fewer than 128 interrupt sends while locked; the set is at least as long as its members together; waiting for the set itself is that of any queue.
- TimerSeries.TimerServedForItsSeries: the command queue always has room, callbacks issue no commands, and the daemon samples the time within one wrap of its last sample and obeys each start within one wrap of the time sampled for it.
- Timers.TimerDaemon.ProcessReceivedCommands: the clock stands still during one call.
- MessageModel.WholeMessagesOnly: messages are not empty, as the source asserts, there is one writer and one reader, and a receive is atomic towards the writer, since it moves the tail before it may put it back.
- StreamBuffers.StreamBuffer.WriteMessage: buffers are at most 2^31 bytes long.
- Timeouts.TimeOut.CheckForTimeOut: the count of tick overflows is unbounded.
- Queues.RingQueue.CopyDataToQueue: items have a non-zero size and are copied as whole slots.
- Base64.DecodeBuffer: where 6n + 7 has wrapped, the buffer must happen to have room for the output; what the code does otherwise is undefined.
