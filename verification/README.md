# A verified model of the FreeRTOS V10.4.6 kernel and the Ethernet descriptor ring

The project models the kernel as configured for this board: preemptive, time-sliced, 15
priorities, 32-bit ticks, generic task selection, mutexes and software timers on, co-routines,
queue sets and tickless idle off. Beside it stands the driver's own DMA descriptor ring.

Wherever the kernel counts ticks in 32-bit words, the model carries the unbounded tick beside the
wrapped one, and the main results relate the two. A state machine's atomic actions are the
kernel's critical sections and suspended regions; interrupts, timers and other tasks come in
between in any order, and the theorems quantify over all such runs.

| file | contents |
|---|---|
| `Words.dfy` | 32-bit words and tick periods |
| `Lists.dfy`, `ListNodes.dfy` | a kernel list as a sequence with an index, and the circular doubly linked form that refines it |
| `Kernel.dfy` | the scheduler state and its critical sections as functions |
| `KernelInvariants.dfy`, `KernelTime.dfy`, `KernelOps.dfy` | the invariants; what a tick does and asks for; what each critical section does and that it keeps the invariants |
| `KernelRuns.dfy` | whole runs: exact delays, conserved ticks, the partition of the tasks, equal turns |
| `KernelEffects.dfy` | what blocking does; the order of wake-ups; how long a suspended task or scheduler stays so |
| `KernelPreemption.dfy` | what keeps the highest-priority ready task running or a switch requested, action by action |
| `Scheduler.dfy`, `Timeouts.dfy` | the scheduler as an object updated in place; elapsed time from wrapped counts |
| `Timers.dfy`, `TimerDaemon.dfy` | wrapped expiry decisions; the timer daemon's two lists |
| `QueueWaits.dfy`, `Queue.dfy` | the queue's wake-up and lock-count protocol; the queue object |
| `Mutexes.dfy`, `MutexCalls.dfy`, `MutexQueue.dfy` | mutexes on the scheduler, accounting in every run; what each call does and mutual exclusion; the calls in place |
| `MutexInversion.dfy` | bounded priority inversion in every disciplined run, and exactly when one call breaks the bound |
| `MutexPreemption.dfy` | when a give owes a switch; whole runs: the highest-priority ready task runs, or a switch is requested |
| `StreamRing.dfy`, `StreamBuffer.dfy`, `StreamRuns.dfy`, `StreamMessages.dfy` | byte ring, counters and framing; the buffer object; one writer and one reader byte by byte, for bytes and for messages |
| `EventBits.dfy`, `EventGroup.dfy` | event bits beside control bits; waiting, setting and the rendezvous |
| `ItemValues.dfy`, `EventScheduler.dfy` | a borrowed item value survives until it is read; runs of an event group and the scheduler together |
| `EthRings.dfy` | receive and transmit descriptor rings shared with the DMA |

Each object (`Scheduler`, `TimeOut`, `TimerDaemon`, `Queue`, `MutexQueue`, `StreamBuffer`, `EventGroup`,
`EthDriver`, `List`) is proved, method by method and loop by loop, against a function of its old
state, and the theorems about runs are about those functions. Preconditions that are not type
bounds are the source's own assertions, or the invariant of the state the source is in when it
gets there. There are two kinds more. The timer daemon is proved for less than one tick period
between two of its samples, unless no timer is listed, and between the sending and the processing
of a start; and the stream buffer for sizes up to 2^31. The source checks neither: what its
comparisons and counters do beyond them is stated exactly in `Timers.SampleExact`,
`Timers.DecideExact`, `StreamRing.BytesExact` and `StreamRing.SpacesExact`.

## What came out differently from the comments

- `vListInsertEnd` is documented as making the new item the last one that
  `listGET_OWNER_OF_NEXT_ENTRY` returns. When `pxIndex` designates a member, that member still
  comes after the new one (`Lists.InsertEndServedBeforeIndexed`).
- `xTaskCheckForTimeOut` can miss an expiry after two or more tick overflows, and
  `xTaskDelayUntil`, `prvInsertTimerInActiveList`, `prvSampleTimeNow` and the stream buffer
  counters are exact under conditions that are stated and proved as equivalences
  (`Timeouts.CheckExact`, `Timeouts.DelayUntilExact`, `Timers.DecideExact`, `Timers.SampleExact`,
  `StreamRing.BytesExact`, `StreamRing.SpacesExact`); a concrete input on the wrong side of each is
  in `Timeouts.LateCheckMisses`, `Timeouts.LatePeriodDelays`, `Timers.LateExpiryUnseen`,
  `Timers.WrapUnseen` and `StreamRing.LargeBufferMiscounts`.
- A timed-out take can leave the running task below a ready one without requesting a switch: exactly
  when the holder has that one mutex and either is ready with its base priority (lifted by
  `vTaskPrioritySet` while it had inherited) or the highest waiter above the running task, or is
  itself the running task and ends below another ready one (`KernelPreemption.LatePreempts`, with a
  state in `KernelPreemption.LateDisinheritanceCanRaise`).
- `vTaskPriorityDisinheritAfterTimeout` asserts that a task cannot have inherited from a wait for a
  mutex of its own. It can keep what it inherited before, and then the assertion fails
  (`MutexInversion.TimeoutAssertedExactly`, `MutexInversion.OwnTimeoutFails`).
- A give skips the switch it owes exactly when the giver loses an inherited priority while a task no
  higher than its base priority still waits for the mutex, and another ready task is above that
  base: `xQueueGenericSend` looks at the waiter it wakes and not at the result of the
  disinheritance (`MutexPreemption.GivePreempts`); `MutexPreemption.LeftBehind` is a holder of two
  mutexes after its first give.
- Inheritance reaches one holder and no further: a blocking call leaves a holder below a task that
  waits for its mutex exactly when the holder that inherits is itself waiting for a mutex whose
  holder is below the caller (`MutexInversion.BlockingBound`, with a state in
  `MutexInversion.ChainBreaks`).

## Model

| member | source | states |
|---|---|---|
| ListNodes.List.constructor | FreeRTOS/list.c:50-72 | an initialised list is the empty circle with the end marker indexed |
| ListNodes.List.InsertEnd | FreeRTOS/list.c:87-114 | the relinking in place puts the item just before the indexed one, as the value-level insertion does |
| ListNodes.List.InsertionPoint | FreeRTOS/list.c:135-175 | the walk ends, for every value including the marker's, behind all values not above the new one |
| ListNodes.List.Insert | FreeRTOS/list.c:117-185 | sorted insertion in place: the circle afterwards is the old sequence with the item at its sorted place |
| ListNodes.List.Remove | FreeRTOS/list.c:188-214 | removal through the item's own container: sequence without it, index moved back if it pointed there, count returned |
| ListNodes.List.OwnerOfNextEntry | FreeRTOS/include/list.h:281-292 | the index advances past the end marker and designates the returned member |
| Lists.SortedInsert | FreeRTOS/list.c:117-185 | sorted insertion keeps the order and is stable: equal values stay in front |
| Lists.RemoveUndoesInsert | FreeRTOS/list.c:188-214 | removing the item just inserted restores members, order and index |
| Lists.InsertEndServedLast | FreeRTOS/list.c:87-114 | with the end marker indexed, a new member is served after all others |
| Lists.InsertEndServedBeforeIndexed | FreeRTOS/include/list.h:350-371 | with a member indexed, the new one is served after all others but that one |
| Lists.RoundRobin | FreeRTOS/include/list.h:281-292 | as many advances as members select each member exactly once, wherever the index starts |
| KernelTime.EmptyAtSwitch | FreeRTOS/tasks.c:201-213 | the delayed list is empty whenever the tick count is about to wrap, so the macro's assertion never fails |
| KernelTime.WakeExpiredExact | FreeRTOS/tasks.c:2769-2846 | the wake-up phase of a tick makes ready exactly the tasks whose time has come and changes no other; afterwards none is due and the cached unblock time is the earliest |
| KernelTime.IncrementTicks | FreeRTOS/tasks.c:2736-2846 | one tick, across a wrap or not: the clock moves by one, exactly the tasks due then become ready, every other wake time is unchanged |
| KernelTime.SleepBounds | FreeRTOS/tasks.c:5344-5379 | a task on a delay list wakes strictly after now and within one tick period |
| KernelTime.CatchUpTicks | FreeRTOS/tasks.c:2272-2299 | the pended ticks of xTaskResumeAll act as that many single ticks |
| KernelTime.IncrementAsks | FreeRTOS/tasks.c:2796-2884 | a tick asks for a switch exactly if a yield was pending, a task due with it has at least the running priority, or two ready tasks then have that priority |
| KernelTime.ContendedByOther | FreeRTOS/tasks.c:2848-2861 | for a running task that is ready, the last means: another ready task shares its priority |
| KernelTime.CatchUpAsks | FreeRTOS/tasks.c:2272-2299 | the pended ticks together leave a yield pending exactly if one was, a task became due in them with at least the running priority, or at their end two ready tasks have it |
| KernelTime.DelayWakeAt | FreeRTOS/tasks.c:5344-5379 | a finite delay begun at tick T for d ticks is due at T + d although only wrapped values are stored |
| KernelOps.DelaySettled | FreeRTOS/tasks.c:5310-5381 | falling asleep keeps both lists sorted, delayed values in this period, overflow values in the next, and xNextTaskUnblockTime not beyond the head |
| KernelOps.PlaceOnEventListSettled | FreeRTOS/tasks.c:3097-3119 | waiting on an event list keeps every placement and time invariant |
| KernelOps.PlaceOnUnorderedSettled | FreeRTOS/tasks.c:3122-3145 | the same for the event group form |
| KernelOps.PlaceRestrictedSettled | FreeRTOS/tasks.c:3150-3178 | the timer daemon's wait, at the end of its queue's list, keeps every placement and time invariant |
| KernelOps.RemoveFromEventListInv | FreeRTOS/tasks.c:3183-3248 | the head waiter, and no other task, leaves the event list: ready at the end of its list, or, while the scheduler is suspended, last of the pending ready tasks and still where it was; a yield becomes pending exactly if it outranks the running task |
| KernelOps.RemoveFromUnorderedInv | FreeRTOS/tasks.c:3251-3297 | the task named, and no other, has the marked value in its item, is at the end of the ready list of its priority and on no event or delay list; a yield becomes pending exactly if it outranks the running task |
| KernelOps.CreateInv | FreeRTOS/tasks.c:1071-1133 | the new task, and no other, is at the end of the ready list of its priority with base and priority in use alike, no mutex, no delay aborted and the item value of its priority; a switch is asked for exactly if it outranks the running task |
| KernelOps.DeleteOtherInv | FreeRTOS/tasks.c:1157-1228 | deleting another task takes it off every state and event list, the order of all others kept, forgets it and makes the cached unblock time the earliest again; nothing else changes |
| KernelOps.DeleteSelfInv | FreeRTOS/tasks.c:1157-1228 | a task that deletes itself is at the end of the termination list, waits for nothing, stays counted and asks for a switch; nothing else changes |
| KernelOps.CleanUpInv | FreeRTOS/tasks.c:3698-3721 | the idle task forgets exactly the task that has been terminated longest; counts and all other lists agree |
| KernelOps.SuspendInv | FreeRTOS/tasks.c:1716-1767 | the task named, and no other, is at the end of the suspended list and on no event list, wherever it was before; a switch is asked for exactly if it is the running one, and the cached unblock time is the earliest again |
| KernelOps.ResumeInv | FreeRTOS/tasks.c:1868-1908 | a task that is suspended and waits for nothing is at the end of the ready list of its priority, with a switch asked for exactly if it reaches the running priority; otherwise nothing changes |
| KernelOps.AbortDelayInv | FreeRTOS/tasks.c:2658-2732 | exactly a blocked task leaves its delay and event lists for the end of its ready list, the abort recorded if it was waiting for an event, a yield pending exactly if it outranks the running task; otherwise nothing changes |
| KernelOps.TopBounds | FreeRTOS/tasks.c:128-134 | no ready list above uxTopReadyPriority has a member |
| KernelOps.SelectedLive | FreeRTOS/tasks.c:138-151 | with a ready task the downward search ends, and the task selected has the highest ready priority |
| KernelOps.SwitchContextInv | FreeRTOS/tasks.c:3021-3093 | while the scheduler is suspended the switch is only put off; otherwise the next task in turn of the highest ready priority runs, no request is left and nothing else changes; the search never runs below 0 |
| KernelOps.InheritInv | FreeRTOS/tasks.c:4074-4157 | a holder below the running task gets its priority, and the item value with it unless in use, and if ready moves to the end of its new list; a higher holder is left as it is |
| KernelOps.DisinheritInv | FreeRTOS/tasks.c:4164-4237 | the running task holds one mutex less; exactly with the last one, if it has inherited, it returns to its base priority, its item value with it, at the end of its ready list |
| KernelOps.DisinheritAfterTimeoutInv | FreeRTOS/tasks.c:4244-4343 | exactly a holder of one mutex gets the higher of its base priority and that given, item value and ready list following; otherwise nothing changes |
| KernelOps.PrioritySetInv | FreeRTOS/tasks.c:1550-1712 | unless the base priority is already the one given: the base is the one given, the priority in use too unless it is inherited, the item value follows unless in use, a ready task goes to the end of the list of its priority even if that stays, no other task changes, and a switch is asked for exactly if another task is raised to the running priority or the running one is lowered |
| KernelRuns.SysTickInv | FreeRTOS/portable/GCC/RISC-V/port.c:235-246 | while the scheduler runs, the tick wakes exactly the tasks due with it and asks for a switch exactly if a yield was pending, a task due has at least the running priority, or two ready tasks then have that priority; while it is suspended the tick is only counted |
| KernelRuns.DrainPendingExact | FreeRTOS/tasks.c:2240-2270 | the first loop of xTaskResumeAll makes ready exactly the pending tasks, leaves the pending list empty and the cached unblock time the earliest |
| KernelRuns.ResumeAllExact | FreeRTOS/tasks.c:2220-2329 | the outermost resume drains the pending tasks and then applies the held-back ticks one by one; no tick and no ready task is owed afterwards |
| KernelRuns.ResumeAllAsks | FreeRTOS/tasks.c:2220-2329 | the outermost resume yields exactly if a yield was pending, a pending ready task or one that became due meanwhile has at least the running priority, or ticks were held back and two ready tasks then have it; an inner resume only counts |
| KernelRuns.StepInv | FreeRTOS/tasks.c:1071-4343 | every action the source's assertions allow keeps all invariants |
| KernelRuns.StepDelay | FreeRTOS/tasks.c:2736-2846 | within one action of any kind a sleeping task that the action does not name wakes exactly if the clock reaches its time |
| KernelRuns.DelayExact | FreeRTOS/tasks.c:2736-2846 | in every run a sleeping task that no action names sleeps until the very action in which the clock reaches its wake time, and that action makes it ready |
| KernelRuns.DelayBegins | FreeRTOS/tasks.c:5310-5381 | every way of blocking for a finite time d at tick T (delay, event list, event group, timer daemon) makes T + d the wake time |
| KernelRuns.TicksConserved | FreeRTOS/tasks.c:2892-2904 | in every run ticks processed plus ticks pended equals ticks delivered, under any nesting; while the scheduler runs none is pended and the pending-ready list is empty |
| KernelRuns.Conservation | FreeRTOS/tasks.c:345-373 | each live task is on exactly the state list its item names and the list lengths add up to uxCurrentNumberOfTasks |
| KernelRuns.StartedInv | FreeRTOS/tasks.c:3666-3695 | the initial lists with the idle task satisfy the invariants |
| KernelRuns.EqualTurns | FreeRTOS/tasks.c:138-151 | as many switches as tasks on an unchanged highest ready list run each of them exactly once |
| KernelEffects.DelayPlaces | FreeRTOS/tasks.c:5310-5381 | blocking takes the caller off its ready list and puts it behind every task due no later and in front of every one due later, or at the end of the suspended list; nobody else moves |
| KernelEffects.BlockedExact | FreeRTOS/tasks.c:3097-3178 | every way of blocking changes the caller alone: abort flag cleared, on the list and at the place its time asks for, in front of the first waiter of a lower priority or at the end of the event list, with the marked value if it gave one, due at the tick it began plus its ticks |
| KernelEffects.WokenInOrder | FreeRTOS/tasks.c:2240-2270 | tasks made ready together are ready in the order in which they are woken, behind those already to run before the task indexed |
| KernelEffects.TickOrder | FreeRTOS/tasks.c:2769-2846 | the tasks due with a tick are made ready in the order of the delayed list |
| KernelEffects.DrainOrder | FreeRTOS/tasks.c:2240-2270 | the pending ready tasks are made ready in the order in which they became pending |
| KernelEffects.ResumeOrder | FreeRTOS/tasks.c:2236-2299 | when the scheduler is resumed, the pending ready tasks come to run before those that the held-back ticks wake, each in its own order |
| KernelEffects.ResetItemExact | FreeRTOS/tasks.c:4671-4682 | reading the item back restores the value of the running task's priority and changes nothing else |
| KernelTime.ResetNextUnblockExact | FreeRTOS/tasks.c:4006-4025 | the cached unblock time is the earliest wake time on the delayed list, or the latest possible if the list is empty |
| KernelEffects.SuspendedStays | FreeRTOS/tasks.c:1716-1767 | in every run a task that is suspended, or blocks for ever, stays on the suspended list, is not ready and is never chosen to run, up to the first action that names it to release it |
| KernelEffects.OneResumeSuffices | FreeRTOS/tasks.c:1868-1908 | however often a task has been suspended meanwhile, one vTaskResume makes it ready |
| KernelEffects.SuspensionsNest | FreeRTOS/tasks.c:2136-2220 | in every run the nesting is suspensions minus resumes; while it stays above zero the running task keeps the processor and the clock stands still, the ticks counted |
| KernelPreemption.StepPreempts | FreeRTOS/tasks.c:3183-3248 | no action lets a ready task outrank the running one without a switch being requested, given the exact conditions on the two that lower a priority |
| KernelPreemption.LowerPreempts | FreeRTOS/tasks.c:4164-4237 | a disinheritance on its own leaves the running task outranked unnoticed if and only if it lowers it and another ready task is above its base |
| KernelPreemption.LatePreempts | FreeRTOS/tasks.c:4244-4343 | a disinheritance after a time-out does so if and only if its holder has one mutex and either ends, ready, above the running task, or is the running task and ends below another ready one |
| KernelPreemption.StartedPreemptive | FreeRTOS/tasks.c:1997-2122 | runs begin with the idle task running and nothing above it |
| KernelPreemption.TickSlices | FreeRTOS/tasks.c:2848-2861 | a tick requests a switch when another ready task shares the running task's priority |
| KernelPreemption.LateDisinheritanceCanRaise | FreeRTOS/tasks.c:4244-4343 | a concrete state, satisfying every kernel invariant, in which a late disinheritance puts a holder with a lifted base above the running task with no switch requested |
| Scheduling.AwokenRound | FreeRTOS/tasks.c:2771-2843 | one round of the tick loop wakes the head and leaves the rest of the tick's work as it was |
| Scheduling.Scheduler.SwitchDelayed | FreeRTOS/tasks.c:201-213 | the swap in place, under the emptiness the macro asserts |
| Scheduling.Scheduler.IncrementTick | FreeRTOS/tasks.c:2736-2908 | the loop over the delayed list refines the tick, and the result is true exactly if a yield was pending, a task due has at least the running priority, or two ready tasks then have it; a suspended tick is only counted |
| Scheduling.Scheduler.WakeDelayed | FreeRTOS/tasks.c:2769-2846 | the loop ends and has woken exactly the expired tasks, reporting whether one reaches the running priority |
| Scheduling.Scheduler.ResumeScheduler | FreeRTOS/tasks.c:2220-2329 | both loops of xTaskResumeAll in place refine the specified resume |
| Scheduling.Scheduler.DrainPendingReady | FreeRTOS/tasks.c:2240-2270 | the draining loop ends with the specified state |
| Scheduling.Scheduler.CatchUpPended | FreeRTOS/tasks.c:2272-2299 | the loop over the pended ticks refines the specified catching up |
| Scheduling.Scheduler.SearchReady | FreeRTOS/tasks.c:138-147 | the search loop ends at the highest non-empty ready list |
| Scheduling.Scheduler.SelectNext | FreeRTOS/tasks.c:3021-3093 | vTaskSwitchContext in place |
| Scheduling.Scheduler.AddCurrentToDelayed | FreeRTOS/tasks.c:5310-5381 | the running task moves to the suspended, overflow or delayed list as specified |
| Scheduling.Scheduler.PlaceOnEvents | FreeRTOS/tasks.c:3097-3119 | priority-ordered placement and sleep, in place |
| Scheduling.Scheduler.PlaceOnEventsRestricted | FreeRTOS/tasks.c:3150-3178 | placement at the end and sleep for the daemon, finite or not, in place |
| Scheduling.Scheduler.ResetEventItem | FreeRTOS/tasks.c:4671-4682 | the item value is returned and stands for the priority again |
| Scheduling.Scheduler.RemoveFromEvents | FreeRTOS/tasks.c:3183-3248 | the head waiter becomes ready or pending ready; the result says whether it outranks the caller |
| Scheduling.Scheduler.RemoveFromUnorderedEvents | FreeRTOS/tasks.c:3251-3297 | an event-group waiter gets its new item value and becomes ready |
| Scheduling.Scheduler.SuspendTask | FreeRTOS/tasks.c:1716-1767 | vTaskSuspend in place |
| Scheduling.Scheduler.ResumeTask | FreeRTOS/tasks.c:1868-1908 | vTaskResume in place |
| Scheduling.Scheduler.AbortTaskDelay | FreeRTOS/tasks.c:2658-2732 | the suspended region of xTaskAbortDelay, and its result |
| Scheduling.Scheduler.PriorityInherit | FreeRTOS/tasks.c:4074-4157 | inheritance in place, and whether it has occurred |
| Scheduling.Scheduler.PriorityDisinherit | FreeRTOS/tasks.c:4164-4237 | disinheritance in place, and whether the priority fell |
| Scheduling.Scheduler.PriorityDisinheritAfterTimeout | FreeRTOS/tasks.c:4244-4343 | disinheritance after a time-out in place |
| Scheduling.Scheduler.SetTaskPriority | FreeRTOS/tasks.c:1550-1712 | vTaskPrioritySet in place |
| Scheduling.Scheduler.CreateTask | FreeRTOS/tasks.c:1071-1133 | prvAddNewTaskToReadyList in place |
| Scheduling.Scheduler.DeleteTask | FreeRTOS/tasks.c:1157-1228 | vTaskDelete in place |
| Scheduling.Scheduler.CheckTasksWaitingTermination | FreeRTOS/tasks.c:3698-3721 | the idle task's loop frees exactly the tasks that deleted themselves |
| Timeouts.CheckExact | FreeRTOS/tasks.c:3320-3382 | a finite wait is judged rightly, with the exact time left, if and only if it is not the missed case of two or more overflows |
| Timeouts.LateCheckMisses | FreeRTOS/tasks.c:3356-3372 | a concrete wait that has expired and is reported to have a tick left |
| Timeouts.ForeverWaits | FreeRTOS/tasks.c:3343-3351 | a wait of portMAX_DELAY never expires |
| Timeouts.Telescopes | FreeRTOS/tasks.c:3320-3382 | with at most one overflow between checks, entry time plus time left stays the original deadline and expiry is reported iff it has been reached |
| Timeouts.DelayUntilExact | FreeRTOS/tasks.c:1259-1340 | xTaskDelayUntil delays exactly when its period is still to come, if and only if the caller is less than a tick period late or the visible delay is already a period long |
| Timeouts.LatePeriodDelays | FreeRTOS/tasks.c:1275-1305 | a concrete period that is over and is waited for |
| Timeouts.TimeOut.CheckForTimeOut | FreeRTOS/tasks.c:3320-3382 | the call in place: abort flag, expiry, renewed stamp and time left |
| Timeouts.DelayTaskUntil | FreeRTOS/tasks.c:1259-1340 | the task sleeps until previous wake time plus increment in unbounded time, so periods do not drift |
| Timers.DecideExact | FreeRTOS/timers.c:711-752 | the four-way comparison processes now, or chooses the list of the expiry's period, rightly if and only if less than a tick period has passed or the visible delay is a timer period long |
| Timers.LateExpiryUnseen | FreeRTOS/timers.c:711-752 | a concrete timer that has expired and is listed as still to come |
| Timers.SampleExact | FreeRTOS/timers.c:688-708 | the switches made equal the wraps that happened if and only if two samples are less than a tick period apart |
| Timers.WrapUnseen | FreeRTOS/timers.c:688-708 | two concrete samples that hide the wrap between them |
| Timers.ExpiriesBy | FreeRTOS/timers.c:517-533 | the number of expiries by time n is the quotient of the time since the start and the period |
| TimerDaemons.CaughtUpCount | FreeRTOS/timers.c:517-533 | a reload timer served at n has run exactly that quotient of callbacks and is due after n by at most one period |
| TimerDaemons.StartExact | FreeRTOS/timers.c:820-845 | a start sent at c and processed at n leaves exactly (n - c) / period callbacks run and the first expiry after n to come; a one-shot timer has run its callback exactly if it is due |
| TimerDaemons.TracksExact | FreeRTOS/timers.c:562-597 | a timer that has followed its commands and is not due has run exactly the callbacks they ask for, and its next expiry is the first one later |
| TimerDaemons.NoneDueYet | FreeRTOS/timers.c:599-658 | if the head is not due no timer is, and the wrapped distance slept passes no expiry |
| TimerDaemons.NoneAtWrap | FreeRTOS/timers.c:631-641 | at a wrapped time of zero the overflow list is empty, so the daemon never asks for a wait of no ticks |
| TimerDaemons.TimerDaemon.InsertInActiveList | FreeRTOS/timers.c:711-752 | the timer is reported due, or linked into the sorted list of the period its expiry lies in |
| TimerDaemons.TimerDaemon.ReloadTimer | FreeRTOS/timers.c:517-533 | the loop ends; it runs one callback for every further expiry by now and lists the timer for the first later one |
| TimerDaemons.TimerDaemon.ProcessExpiredTimer | FreeRTOS/timers.c:536-560 | the head timer is caught up with, or stopped if it is one-shot, with all its callbacks run |
| TimerDaemons.TimerDaemon.Callback | FreeRTOS/timers.c:531-559 | each callback, the reload loop's and the last one, is for the first expiry that has had none, and that expiry has passed |
| TimerDaemons.TimerDaemon.SwitchTimerLists | FreeRTOS/timers.c:903-925 | the loop ends with the current list empty and each of its timers served up to the end of the tick period |
| TimerDaemons.TimerDaemon.SampleTimeNow | FreeRTOS/timers.c:688-708 | a wrap since the last sample is noticed and switches the lists; with both lists empty the gap may be any length |
| TimerDaemons.TimerDaemon.ProcessTimerOrBlock | FreeRTOS/timers.c:599-685 | the daemon blocks only when no timer is due, never past the earliest expiry, indefinitely only when no timer is active, and otherwise for at least one tick; at that moment every timer has run exactly the callbacks its commands ask for |
| TimerDaemons.TimerDaemon.ProcessCommand | FreeRTOS/timers.c:755-900 | start, reset, stop, change period and delete: active bit and list membership stay in step; after a start the callbacks, the next expiry and its list are exact at once |
| TimerDaemons.TimerDaemon.Serve | FreeRTOS/timers.c:562-597 | over any sequence of daemon rounds and commands: whenever the daemon blocks at n, a reload timer last started at c has run (n - c) / period callbacks and is due next, on the list of that period |
| TimerDaemons.TimerDaemon.ListedByPeriod | FreeRTOS/timers.c:721-749 | an active timer is on the current list iff it is due in the tick period of the last sample, else on the overflow list and due in the next |
| QueueWaits.StepInv | FreeRTOS/queue.c:251-263 | every task and interrupt action keeps each message and each free slot spoken for while tasks wait |
| QueueWaits.NoLostWakeUp | FreeRTOS/queue.c:2264-2381 | in every run receivers waiting implies messages at most woken receivers plus the transmit count, senders likewise; unlocked, a message never waits with a receiver unless one is on its way |
| QueueWaits.StepWakes | FreeRTOS/queue.c:2264-2384 | every action wakes a front part of each list, no longer than what it accepts or frees and the lock count owes |
| QueueWaits.NoSpuriousWakeUp | FreeRTOS/queue.c:2264-2384 | over all interleavings each receiver woken is accounted for by a message of its own that was accepted, or by a peek, and each sender by a message received; the rest is still owed by the lock counts |
| Queues.Queue.CopyDataToQueue | FreeRTOS/queue.c:2160-2240 | back appends, front prepends, overwrite replaces; the write slot stays the read slot plus one plus the count, modulo the length |
| Queues.Queue.CopyDataFromQueue | FreeRTOS/queue.c:2243-2261 | the item read is the oldest one |
| Queues.Queue.TrySend | FreeRTOS/queue.c:826-964 | the critical section of a send: accepted iff there is room or it overwrites, and it wakes one receiver |
| Queues.Queue.TryReceive | FreeRTOS/queue.c:1377-1438 | the critical section of a receive pops the front and wakes one sender |
| Queues.Queue.TryPeek | FreeRTOS/queue.c:1740-1808 | a peek changes no message and passes the wake-up on |
| Queues.Queue.SendFromISR | FreeRTOS/queue.c:1017-1181 | on a locked queue the wake-up is counted, on an unlocked one made |
| Queues.Queue.ReceiveFromISR | FreeRTOS/queue.c:1865-1957 | the same for a receive from an interrupt |
| Queues.Queue.UnlockTx | FreeRTOS/queue.c:2272-2350 | the loop wakes one receiver for each counted send, as long as there are any |
| Queues.Queue.UnlockRx | FreeRTOS/queue.c:2353-2380 | the loop wakes one sender for each counted receive |
| Queues.FirstInFirstOut | FreeRTOS/queue.c:2160-2240 | over every run of sends to the back and receives, messages received followed by those left are those there at first followed by those accepted |
| Queues.MessagesConserved | FreeRTOS/queue.c:2160-2240 | sent to either end, no message is lost, doubled or invented |
| Queues.UrgentFirst | FreeRTOS/queue.c:2196-2236 | a message sent to the front is the next one received, the others following as if it had not been sent; an overwriting one replaces what a queue of one slot held |
| Mutexes.TakeKeeps | FreeRTOS/queue.c:1523-1610 | a take by any running task, also a nested recursive one or one that finds the mutex held, keeps the accounting |
| Mutexes.BlockKeeps | FreeRTOS/queue.c:1615-1664 | so does blocking on a mutex, whatever the caller and the holder hold or wait for |
| Mutexes.GiveKeeps | FreeRTOS/queue.c:904-926 | so does giving, also the inner levels of a recursive mutex |
| Mutexes.TimedOutKeeps | FreeRTOS/queue.c:1667-1704 | so does a timed-out take |
| Mutexes.OtherKept | FreeRTOS/tasks.c:1071-4343 | every kernel action between the calls keeps what each task holds, and all but vTaskPrioritySet keep both its priorities |
| Mutexes.ActRanked | FreeRTOS/tasks.c:4164-4343 | no action but vTaskPrioritySet leaves a base above the priority in use, or an inherited priority on a task that holds nothing |
| Mutexes.MutexAccounting | FreeRTOS/queue.c:1533-1554 | in every run the source allows: free iff no holder, recursive depth zero iff free, uxMutexesHeld counts the mutexes naming the task; if no priority is set, base at most priority and equal when nothing is held |
| Mutexes.ReleasedWhenBalanced | FreeRTOS/queue.c:638-729 | in every run the depth of a recursive mutex is its takes minus its gives, and it is free exactly when they match |
| Mutexes.CreateKeeps | FreeRTOS/queue.c:512-535 | creating a mutex in a run keeps the accounting |
| Mutexes.DeleteKeeps | FreeRTOS/queue.c:2060-2099 | so does deleting one that nobody holds |
| Mutexes.StartedCalls | FreeRTOS/queue.c:512-535 | newly created mutexes satisfy the accounting |
| MutexCalls.TakeExact | FreeRTOS/queue.c:1523-1576 | a take makes the caller the holder exactly if nobody was, goes one level deeper exactly if the caller holds it recursively, and otherwise changes nothing; the scheduler only counts |
| MutexCalls.BlockExact | FreeRTOS/queue.c:1625-1657 | the holder is at least at the caller's priority; the caller waits on the mutex in front of the first waiter of a lower priority, until its time; no other task changes |
| MutexCalls.GiveAlone | FreeRTOS/queue.c:904-926 | an outermost give with nobody waiting frees the mutex, changes the giver alone and yields exactly if that lowered it |
| MutexCalls.GiveWakes | FreeRTOS/queue.c:874-926 | an outermost give with waiters frees the mutex and wakes exactly the head waiter, with a switch asked for exactly if that outranks what the giver is left with |
| MutexCalls.TimedOutExact | FreeRTOS/queue.c:1676-1699 | a time-out leaves a holder of this mutex alone at the higher of its base priority and the highest still waiting, moved to match; nothing else changes |
| MutexCalls.ActHolder | FreeRTOS/queue.c:1523-1576 | only a take of a free mutex gives it a holder, the caller; only the holder's own outermost give takes the holder away |
| MutexCalls.HeldUntilGiven | FreeRTOS/queue.c:638-686 | mutual exclusion: in every run a task that holds a mutex is its only holder until it gives it back itself |
| MutexInversion.HighestBounds | FreeRTOS/queue.c:2135-2155 | the head of the waiting list gives exactly the highest waiting priority, and an empty list the idle priority |
| MutexInversion.InheritRest | FreeRTOS/queue.c:1631-1640 | after inheriting, the holder is at least at the caller's priority and the bound still holds everywhere |
| MutexInversion.TimedOutRest | FreeRTOS/queue.c:1667-1704 | a timed-out take keeps the bound: the holder is lowered no further than its highest remaining waiter |
| MutexInversion.ActInv | FreeRTOS/queue.c:1495-1711 | every disciplined action, event-group waits, suspensions and deletions included, keeps the bound, the order of the waiting lists and a comer for each free mutex with waiters |
| MutexInversion.InversionBound | FreeRTOS/queue.c:1495-1711 | in every disciplined run a mutex holder has at least the priority of each task on that mutex's waiting list |
| MutexInversion.BlockingBound | FreeRTOS/tasks.c:4074-4157 | for any caller and any holder, a blocking call breaks the bound if and only if the holder that inherits waits for a mutex whose holder stays below the caller |
| MutexInversion.ChainBreaks | FreeRTOS/tasks.c:4074-4157 | a concrete state of three tasks, accounted and bounded, in which it does |
| MutexInversion.TimeoutAssertedExactly | FreeRTOS/tasks.c:4269-4282 | the assertion that a timed-out caller is not the holder to be moved fails if and only if the mutex is the only one the caller holds and the caller's priority is not the higher of its base and the highest remaining waiter's |
| MutexInversion.OwnTimeoutFails | FreeRTOS/tasks.c:4279-4282 | a concrete accounted state in which a legal time-out runs into that assertion |
| MutexInversion.StartedSystem | FreeRTOS/queue.c:512-535 | newly created mutexes satisfy the invariants |
| MutexQueues.MutexQueue.TryTake | FreeRTOS/queue.c:1523-1576 | a take in place succeeds exactly if the mutex is free or nested; one mutex count moves to the caller, a nested recursive take only deepens |
| MutexQueues.MutexQueue.BlockOnMutex | FreeRTOS/queue.c:1625-1657 | the holder inherits and the caller is placed on the waiting list, in place; the result says whether the holder has the caller's priority on loan |
| MutexQueues.MutexQueue.GiveMutex | FreeRTOS/queue.c:638-686 | a give in place: inner levels only count; the outermost disinherits, frees the mutex and wakes the head waiter, with the yields of the source |
| MutexQueues.MutexQueue.GiveUp | FreeRTOS/queue.c:1676-1699 | the late disinheritance of a timed-out take, in place |
| MutexPreemption.GivePreempts | FreeRTOS/queue.c:904-926 | a give leaves the running task outranked with no switch requested if and only if the yield is skipped and another ready task is above the giver's base priority |
| MutexPreemption.ActPreempts | FreeRTOS/queue.c:904-926 | no action of kernel or mutexes lets a ready task outrank the running one unnoticed, given the exact conditions on outermost gives and time-outs |
| MutexPreemption.HighestPriorityRuns | FreeRTOS/tasks.c:3021-3093 | in every run, gives included, the running task is ready and outranked by no ready task, or a switch is requested |
| MutexPreemption.BoundedTimeouts | FreeRTOS/queue.c:1676-1699 | where inversion is bounded, a time-out always meets its condition |
| MutexPreemption.LeftBehind | FreeRTOS/queue.c:904-926 | a concrete state, satisfying every invariant, in which this happens |
| StreamRing.BytesExact | FreeRTOS/stream_buffer.c:1231-1249 | the byte count is right exactly when its sum fits a word |
| StreamRing.SpacesExact | FreeRTOS/stream_buffer.c:497-527 | the space count is right exactly when its sum fits |
| StreamRing.LargeBufferMiscounts | FreeRTOS/stream_buffer.c:1231-1249 | concrete indices at which each counter is one short |
| StreamRing.CountersAgree | FreeRTOS/stream_buffer.c:497-527 | up to half the address space bytes and spaces add up to the capacity |
| StreamRing.FramingRoundTrip | FreeRTOS/stream_buffer.c:968-1017 | following the stored lengths gives back the messages, whole and in order |
| StreamBuffers.StreamBuffer.WriteBytes | FreeRTOS/stream_buffer.c:1141-1184 | the copy in one or two parts stores the data from the head on and touches nothing else |
| StreamBuffers.StreamBuffer.ReadBytes | FreeRTOS/stream_buffer.c:1187-1228 | the copy out in one or two parts returns the bytes from the tail on |
| StreamBuffers.StreamBuffer.SendBytes | FreeRTOS/stream_buffer.c:724-764 | a stream send appends as much as fits |
| StreamBuffers.StreamBuffer.ReceiveBytes | FreeRTOS/stream_buffer.c:968-1017 | a stream receive takes the oldest bytes |
| StreamBuffers.StreamBuffer.SendMessage | FreeRTOS/stream_buffer.c:724-764 | a message is framed and appended whole, or nothing observable changes |
| StreamBuffers.StreamBuffer.ReceiveMessage | FreeRTOS/stream_buffer.c:968-1017 | the oldest message is returned whole, or stays if the caller's buffer is too small |
| StreamRuns.CopyInKeeps | FreeRTOS/stream_buffer.c:1157-1170 | no unread byte is overwritten while a write is in progress |
| StreamRuns.StepInv | FreeRTOS/stream_buffer.c:757-761 | accepted bytes are the delivered ones followed by the unread ones, after every byte copied and every index published |
| StreamRuns.EmptyInv | FreeRTOS/stream_buffer.c:1252-1280 | a new buffer satisfies the invariant |
| StreamRuns.DeliveredInOrder | FreeRTOS/stream_buffer.c:1008-1016 | in every interleaving the bytes delivered are a prefix of those accepted, the rest is in the buffer, and the counters add up |
| StreamMessages.StepWhole | FreeRTOS/stream_buffer.c:724-764 | after every byte copied and every index published the buffer holds whole frames: what was queued and is sent is what is received and stays queued |
| StreamMessages.MessagesInOrder | FreeRTOS/stream_buffer.c:968-1017 | in every byte-by-byte interleaving the messages received are the first ones sent, whole and in order; the rest are in the buffer |
| EventBits.ItemValueRoundTrip | FreeRTOS/event_groups.c:376-397 | mask and control bits share the item value without disturbing each other |
| EventBits.WakesExactly | FreeRTOS/event_groups.c:560-616 | the scan splits the waiting list into those satisfied and those not |
| EventBits.ScanInOrder | FreeRTOS/event_groups.c:560-616 | both parts keep the order of the list |
| EventBits.ClearMaskAnyOrder | FreeRTOS/event_groups.c:592-598 | the bits cleared do not depend on the order of the list |
| EventBits.MarkedValue | FreeRTOS/tasks.c:3132-3136 | the stored value is the mask with the in-use flag, in the scheduler's arithmetic |
| ItemValues.StepKeepsValue | FreeRTOS/tasks.c:4092-4099 | every action leaves an item value in use alone, except reading it back, a further event-group wait, the handing over of bits, deletion, and the lowering of the running task in its last give |
| ItemValues.StoredValueSurvives | FreeRTOS/tasks.c:4671-4682 | in every run without those, through ticks, wake-ups and every change of priority, the stored mask or the handed bits are what the task reads back |
| EventGroups.SetCall | FreeRTOS/event_groups.c:533-625 | a set call wakes exactly the tasks that old and new bits together satisfy, hands each the union of both, and clears the masks of those that asked |
| EventGroups.SetCallKeeps | FreeRTOS/event_groups.c:618-620 | bits no woken task asked to clear stay set |
| EventGroups.SetCallHands | FreeRTOS/event_groups.c:600-609 | a set call hands something to the tasks it wakes only |
| EventGroups.WaitCall | FreeRTOS/event_groups.c:339-406 | a condition that holds zeroes exactly the mask on request and nothing else; one that does not adds the caller alone, at the end, with an item value from which mask, clear and all read back, if it has the time; otherwise the group is unchanged |
| EventGroups.StoredCondition | FreeRTOS/event_groups.c:560-590 | the condition a set call tests is the one the waiting call stated |
| EventGroups.ClearCall | FreeRTOS/event_groups.c:473-498 | the bits named are zero and every other bit is as before |
| EventGroups.SyncCall | FreeRTOS/event_groups.c:212-255 | on the group the set call leaves: the call that completes the mask zeroes exactly the mask; one that does not waits for all of it with clearing, if it has the time |
| EventGroups.ResumeCall | FreeRTOS/event_groups.c:420-444 | a timed-out call whose condition holds after all zeroes exactly its mask on request; nothing else changes |
| EventGroups.ExpireCall | FreeRTOS/tasks.c:2796-2846 | a time-out takes the task alone off the waiting list, with the value it stored |
| EventGroups.StepInv | FreeRTOS/event_groups.c:194-498 | waiting, setting, clearing, timing out and syncing leave no satisfied waiter |
| EventGroups.NoSatisfiedWaiter | FreeRTOS/event_groups.c:533-625 | in every reachable state no waiting task's condition holds |
| EventGroups.Rendezvous | FreeRTOS/event_groups.c:194-314 | from the call that completes the mask, through any later calls of others, to the moment it reads its item value: every task synced on the mask returns the same bits, with the whole mask in them; the mask was zero when the completing call left its suspended region |
| EventGroups.HandedUntilRead | FreeRTOS/event_groups.c:265-300 | in every run, what a woken task was handed stays until it reads it |
| EventGroups.BlockedReturns | FreeRTOS/event_groups.c:411-460 | in every run a blocked task is still waiting, or was woken and will return bits that meet its condition, or has timed out and will return the bits as they are then |
| EventGroups.NewGroup | FreeRTOS/event_groups.c:140-189 | a new group satisfies the invariant |
| EventGroups.EventGroup.SetEventBits | FreeRTOS/event_groups.c:533-625 | the scan that unlinks while it walks refines the set call |
| EventGroups.EventGroup.ClearEventBits | FreeRTOS/event_groups.c:473-498 | clearing in place: the bits named are zero, every other bit is as before, and the bits before are returned |
| EventGroups.EventGroup.WaitForBits | FreeRTOS/event_groups.c:339-406 | a wait in place: a condition that holds zeroes exactly its mask if clearing was asked for; one that does not makes the caller wait, with mask and control bits readable in its item, if it has the time |
| EventGroups.EventGroup.SyncOnBits | FreeRTOS/event_groups.c:212-255 | a sync in place: after the bits are set, the call that completes the mask zeroes exactly the mask, and one that does not waits for all of it with clearing, if it has the time; with the value returned when it does not block |
| EventGroups.EventGroup.ReturnFromWait | FreeRTOS/event_groups.c:420-462 | the value a blocked call returns, woken or timed out, and the late clearing of exactly the mask of a timed-out call whose condition holds after all |
| EventScheduling.SetOnScheduler | FreeRTOS/event_groups.c:533-625 | on the scheduler, a set call makes ready exactly the tasks that wait in the group for a condition that old and new bits together satisfy, takes them off the event list and puts those bits into their items; no other task changes |
| EventScheduling.FinishLinks | FreeRTOS/tasks.c:4671-4682 | what uxTaskResetEventItemValue reads is what the group handed the task, or the value it stored |
| EventScheduling.ActLinks | FreeRTOS/event_groups.c:194-625 | every call on the group and every other action of the kernel, time-outs, aborts and suspensions of waiters included, keeps group and event list in step, item values and all |
| EventScheduling.WaitersUnmet | FreeRTOS/event_groups.c:533-625 | in every run of scheduler and group together, a task on the event list waits, with that condition in its item, for bits the group does not have |
| EventScheduling.HandedOnScheduler | FreeRTOS/event_groups.c:600-609 | from the set or sync call that meets its condition, through any run of scheduler and group, until it reads its item: the task was made ready by that call and its item holds the bits that met its condition |
| EventScheduling.NewOnScheduler | FreeRTOS/event_groups.c:140-189 | a new group on an empty event list satisfies the invariant |
| EthRings.RxStepOwned | ETH_Driver/eth_driver_RMII.c:290-321 | CPU-owned receive descriptors stay one run starting at pDMARxSet |
| EthRings.RxStart | ETH_Driver/eth_driver_RMII.c:290-321 | a ring that is all the DMA's satisfies the ownership invariant |
| EthRings.RxDelivery | ETH_Driver/eth_driver_RMII.c:290-321 | for any ring size and interleaving good frames are delivered once each in arrival order, all of them once the CPU owns no descriptor |
| EthRings.HeldUntouched | ETH_Driver/eth_driver_RMII.c:282-306 | a peeked buffer is untouched until it is freed |
| EthRings.TxStart | ETH_Driver/eth_driver_RMII.c:328-357 | a ring in which no descriptor is the DMA's satisfies the ownership invariant |
| EthRings.TxDelivery | ETH_Driver/eth_driver_RMII.c:328-357 | frames leave unchanged and in commit order |
| EthRings.OwnedUntouched | ETH_Driver/eth_driver_RMII.c:328-357 | the CPU never changes a descriptor the DMA owns |
| EthRings.WrittenIsCommitted | ETH_Driver/eth_driver_RMII.c:328-357 | a buffer is to be had exactly while the DMA does not own them all, and the frame written into it last is the one committed, whatever the DMA sends meanwhile |
| EthRings.EthDriver.RecPeek | ETH_Driver/eth_driver_RMII.c:290-306 | with frames arriving between its rounds, the loop is a run of discards and arrivals that ends at the first good frame, or with no CPU-owned descriptor left |
| EthRings.EthDriver.DmaStore | ETH_Driver/eth_driver_RMII.c:282-306 | the DMA fills only its own next descriptor, and the CPU-owned run grows by it |
| EthRings.EthDriver.RecFree | ETH_Driver/eth_driver_RMII.c:316-321 | the held descriptor goes back to the DMA |
| EthRings.EthDriver.GetTxBuf | ETH_Driver/eth_driver_RMII.c:328-335 | a buffer is returned exactly when some descriptor is free |
| EthRings.EthDriver.SendFrame | ETH_Driver/eth_driver_RMII.c:343-357 | the commit hands the descriptor over and advances |

## Left out

- Kernel.State: task control blocks are values in a map and lists are sequences of task numbers; pointer relinking and aliasing are modelled only for the list structure itself, in `ListNodes.dfy`.
- The two list moves of `vTaskPlaceOnEventList` are one step: nothing can observe the state between them, because the scheduler is suspended and the queue locked or interrupts are off.
- `xNumOfOverflows` is unbounded, though the source keeps it in a signed word.
- Task notifications, `xTaskResumeFromISR`, `xTaskCatchUpTicks`, `vTaskStepTick`, thread-local storage, statistics and tracing.
- Queue sets, queue registry, `xQueueGenericReset` on a queue in use, co-routines, static allocation and the MPU: disabled here, or easy.
- Allocation failures: a created object is given, memory is not modelled.
- Queue loops around the critical sections (`xQueueGenericSend`, `xQueueReceive`, `xQueueSemaphoreTake`): their critical sections are the steps of the runs, the retry loop itself is any allowed sequence of them.
- NoLostWakeUp: holds for lock counts below 127, which the source asserts, and without suspending or deleting a woken task before it retries.
- MutexAccounting: no task is deleted while it holds a mutex, and no mutex while it is held; `xQueueGenericReset` on a mutex is not modelled. `ReleasedWhenBalanced` is about a mutex that is not deleted in the run.
- InversionBound: for runs in which a task that holds a mutex waits for nothing, a task woken for a mutex tries again before it does anything else and is left alone until then, a free mutex is taken while the scheduler runs by a task no ready task outranks, and no priority is set. For the first of these `BlockingBound` says exactly when a single call breaks the bound.
- HighestPriorityRuns: the outermost gives and the time-outs of a run meet the conditions of `GivePreempts` and `LatePreempts`, without which the property fails there. The assertion that halts the kernel on some time-outs of a mutex the caller itself holds (`TimeoutAssertedExactly`) is not part of the runs.
- TimerDaemon: vTimerSetReloadMode on a timer that exists; whether a timer reloads is fixed when it is created.
- Serve: less than a tick period passes between two samples of the time and between the sending and the processing of a start; `SampleExact` and `DecideExact` say exactly what happens otherwise.
- Mutexes.Take: a recursive take counts its first level in the same step; the source does so just after the take returns, and only the holder looks at the count in between.
- StreamBuffer: sizes up to 2^31; blocking by task notification is not modelled, and the retry of the space counter when the reader moves the tail is one reading.
- EventScheduling.ActLinks: for runs in which no waiting task is deleted and the event list and the borrowed item values are left to the calls on the group; xEventGroupWaitBits and xEventGroupSync are entered with their suspended region begun, and the last critical section of a call is one step with the reading of the item.
- EventGroup: deletion of a group, and the deferral of set calls from interrupts to the timer daemon.
- RecPeek: frames arrive between the rounds of its loop; within a round the DMA can only write descriptors other than the one looked at.
- EthRings: polling demands, descriptor status bits other than own, error, first, last and length, and frames spread over several descriptors, which the driver discards as bad.
- Hardware, port assembly, clocks, GPIO and PHY code, lwIP and its glue.
