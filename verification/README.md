# A verified model of the RTOS kernel

This project models the core of a Rust port of the FreeRTOS kernel and proves what its data structures and protocols
keep over whole runs: the intrusive lists, the scheduler's lists and tick machinery, direct-to-task notifications,
queues and the lock counters that defer interrupt wakeups, mutexes with priority inheritance, stream and message
buffers, software timers, event groups, and the heap_4 and heap_5 allocators.

## How it is laid out

| module | models |
|---|---|
| `Common`, `Config` | shared small definitions; the build-time configuration, left open |
| `Rings`, `IntrusiveList` | `list.rs`: what a list stands for (items and a rotating index), and the pointer surgery that refines it; several lists share one memory |
| `Boards` | many lists that share their items, each item in one list at most |
| `Ticks`, `Modular`, `TimedLists` | a tick counter of unknown width against unbounded time; sorted lists of wrapped times |
| `Kernel`, `KernelProofs`, `KernelCode` | the scheduler state of `tasks.rs` as a state machine, what every step keeps, and the loops of the tick and of the resume |
| `StepEffects`, `Delays`, `Scheduling` | what each step does to the task it is about, delays followed from blocking to waking, and who is selected to run |
| `Notifications`, `NotifyRuns` | the notification handshake on top of the scheduler, and what becomes of each notification |
| `Timeouts`, `KernelClock` | `TimeOut_t` deadlines and periodic delays; the scheduler's own counters as the clock they are kept by |
| `PriorityInheritance`, `PriorityEffects` | mutex holders, waiters, inheritance and its three ways of ending, and where each step leaves a priority |
| `QueueRing` | the storage ring of a queue |
| `QueueProtocol`, `QueueProofs`, `QueueWakeups`, `QueueEffects`, `QueueCode` | the blocking protocol with its lock counters as a state machine, what every step keeps, what becomes of messages and calls, and the functions that lock, unlock and post |
| `StreamBuffer`, `MessageBuffer` | the single-producer single-consumer ring, and length-prefixed messages on it |
| `Timers`, `TimerRuns`, `TimerSchedules`, `TimerCode` | the timer daemon against unbounded time, whom it calls before it blocks, and a timer followed through whole runs |
| `EventGroups`, `EventGroupRuns` | event words and their waiters, one call at a time and over whole sessions |
| `HeapSpec`, `HeapProofs`, `Heap`, `HeapLayout`, `HeapRuns`, `Totals` | the free list as a value, its invariant, the block headers that represent it, where headers lie, and whole runs of malloc and free |

Code that works in place is modelled in place: classes hold the source's fields, methods run the source's loops, and
each method is proved against a function of the old state. What that function promises is then proved about the
function. Concurrency is modelled as steps: a step is what runs with interrupts masked (or, for a stream buffer, one
load, one byte copied or one store), and the statements about runs quantify over every interleaving of enabled steps.

Configuration constants are left symbolic wherever the code does not depend on their value: the number of ticks before
the counter wraps, the number of priorities, the alignment, the header size, the width of `usize`, and whether task
suspension, aborted delays and tickless idle are compiled in. A message's length prefix has the source's four bytes, and
event words have 32 bits.

## What the proofs found

Some properties one would expect do not hold of the code as it is. For each, the exact condition is proved.

- `pvPortMalloc` followed by `vPortFree` restores the free list exactly, except in heap_5 when a whole block that touches
  a region marker was taken: then freeing it absorbs the marker (`HeapProofs.FreeUndoesMalloc`, and on two small regions
  `HeapRuns.MarkerIsAbsorbed`). heap_4 has no markers.
- A timer command without a case, as command 0 is, takes its timer off its list and does nothing else; the ACTIVE flag is
  then wrong exactly if it was set (`Timers.IgnoredCommandIff`, and on one timer `Timers.StartedThenIgnored`).
- `xQueueGenericReset` frees every slot but wakes one sender; waiting senders stay covered if and only if at most one
  waited or enough were already awake (`QueueWakeups.ResetKeepsSendersIff`, with a concrete state in
  `QueueWakeups.ResetStrandsASender`).
- An overwriting send to a full one-slot queue whose items have no bytes counts one message more than the queue's length
  (`QueueRing.Queue.Send`, and `QueueRing.OverwriteTwice`).
- A mutex's holder need not outrank a task that began waiting during an earlier hold: a new holder outranks everybody who
  waits if and only if it outranks the first in line (`PriorityInheritance.TakerOutranksWaitersIff`,
  `PriorityInheritance.EarlierWaitersAreCoveredIff`, and a run that fails in `PriorityInheritance.HolderBelowAWaiter`).
- `xTaskRemoveFromUnorderedEventList` recomputes the next unblock time before the task has left the delayed list. It stays
  a lower bound, but is the next wake time if and only if that task was not the next to wake, or another wakes with it
  (`StepEffects.UnorderedIsExactIff`, and a run that fails in `StepEffects.WokenOutOfTurn`).
- `vPortDefineHeapRegions` compares a region's start with the address of the previous end marker, not with the end of the
  marker's header, and does not bound sizes. The heap it builds is valid if and only if every region leaves room for the
  marker before it and no block's size sets the allocated flag (`Heap.Heap.DefineHeapRegions`). Ranges that do not
  overlap, which the caller is asked for, always leave the room (`HeapLayout.DisjointRangesAreSeparated`); the check
  alone is enough exactly if a header is no larger than the alignment (`HeapLayout.CheckIsEnoughIff`). Accepted lists
  that fail are in `HeapLayout.OverlapInNumbers` and `HeapLayout.HalfTheSpaceIsAccepted`.

## Model

| member | source | states |
|---|---|---|
| `Rings.AdvanceRotates` | src/kernel/list.rs:624-633 | one selection yields the item whose turn is next and sends it to the back of the turns |
| `Rings.SelectionsFollowOrder` | src/kernel/list.rs:624-633 | n selections yield the first n turns, in order |
| `Rings.RoundRobin` | src/kernel/list.rs:624-633 | as many selections as there are items visit each item exactly once |
| `Rings.InsertEndQueuesLast` | src/kernel/list.rs:724-753 | an item inserted at the end waits for every other item's turn, save the one selected last |
| `Rings.RemoveKeepsTurns` | src/kernel/list.rs:850-876 | removing an item leaves the others' turns in the order they had, wherever the index rests |
| `Rings.PlaceIsStable` | src/kernel/list.rs:764-834 | sorted insertion keeps the list sorted and puts an item after every equal one |
| `IntrusiveList.LinkKeeps` | src/kernel/list.rs:822-825 | the four pointer writes of an insertion turn a circular doubly linked chain into one with the node added |
| `IntrusiveList.UnlinkKeeps` | src/kernel/list.rs:850-876 | the two pointer writes of a removal leave a circular doubly linked chain without the node |
| `IntrusiveList.InsertedHolds` | src/kernel/list.rs:764-834 | after an insertion the list's memory stands for the ring with the item inserted, index untouched |
| `IntrusiveList.RemovedHolds` | src/kernel/list.rs:850-876 | after a removal the memory stands for the ring without the item, which is left detached |
| `IntrusiveList.OtherListsHold` | src/kernel/list.rs:850-876 | a list none of whose nodes was written still stands for what it stood for |
| `IntrusiveList.Lists.Initialise` | src/kernel/list.rs:652-689 | the list is empty; no other node is written |
| `IntrusiveList.Lists.InsertEnd` | src/kernel/list.rs:724-753 | the item goes just before the index; only this list's nodes and the item are written |
| `IntrusiveList.Lists.FindPlace` | src/kernel/list.rs:784-820 | the search ends, at the latest before the end marker, at the stable place for the value |
| `IntrusiveList.Lists.Insert` | src/kernel/list.rs:764-834 | the item goes to its stable sorted place; other lists are untouched |
| `IntrusiveList.Lists.Remove` | src/kernel/list.rs:850-876 | the item leaves, the index steps back if it rested there, and the remaining count is returned |
| `IntrusiveList.Lists.NextEntry` | src/kernel/list.rs:624-633 | returns the item whose turn is next, passing over the end marker |
| `Boards.TakeTidy` | src/kernel/list.rs:850-876 | taking an item out of the one list it is in leaves it in none and every other list as it was |
| `Boards.PutEndTidy` | src/kernel/list.rs:724-753 | an item in no list is put in one, and is then in that list alone |
| `Boards.PutAtTidy` | src/kernel/list.rs:764-834 | the same for insertion at a place |
| `Ticks.ShownLater` | src/kernel/tasks.rs:817-873 | adding less than a turn to the tick shown is the tick shown that much later |
| `Ticks.ShownApart` | src/kernel/tasks.rs:1988-2039 | the wrapped difference of two ticks less than a turn apart is their difference |
| `TimedLists.InsertKeepsTimed` | src/kernel/tasks.rs:817-873 | inserting by wrapped value keeps a list sorted and standing for instants of its epoch |
| `KernelProofs.InitialInv` | src/kernel/tasks.rs:589-614 | the state before the first task switch satisfies the scheduler's invariant |
| `KernelProofs.StepKeepsInv` | src/kernel/tasks.rs:2290-2376 | every scheduler step keeps the whole invariant (lists, times, counts, pending tasks), and the count plus pended ticks grows by exactly the ticks delivered |
| `KernelProofs.RunKeepsInv` | src/kernel/tasks.rs:1457-1514 | over any run, with suspensions nested in any way, the invariant holds and tick count plus pended ticks grows by exactly the ticks delivered |
| `KernelProofs.WakeKeepsLists` | src/kernel/tasks.rs:512-520 | a woken task is in the ready list of its priority and no other list, and in no event list |
| `KernelProofs.NoneLeftAtWrap` | src/kernel/tasks.rs:499-508 | when the tick count wraps the current delayed list is empty, so the swap loses nobody |
| `KernelProofs.AdvanceKeepsTimes` | src/kernel/tasks.rs:2290-2302 | advancing the count, with the swap at a wrap, keeps every wake time at its instant |
| `KernelProofs.DueIsExact` | src/kernel/tasks.rs:2304-2343 | the front of a sorted delayed list that the tick takes is exactly the due part |
| `KernelProofs.TickIsExact` | src/kernel/tasks.rs:2290-2343 | a tick moves unbounded time by one and makes ready exactly the delayed tasks whose wake time it reaches |
| `KernelProofs.DelayUntilKeepsTimes` | src/kernel/tasks.rs:817-873 | a wake time is filed in the current list or, exactly if it wraps, in the overflow list; the next unblock time stays a lower bound |
| `KernelProofs.DelaySetsWakeTime` | src/kernel/tasks.rs:817-873 | blocking for n ticks sets a wake time n ahead of unbounded now; an indefinite block suspends |
| `KernelProofs.DelayedTaskIsInTheFuture` | src/kernel/tasks.rs:817-873 | a delayed task's wake time is in the future, it is in the current list exactly if that is in this epoch, and the next unblock time bounds it |
| `KernelProofs.DelayKeepsInv` | src/kernel/tasks.rs:817-873 | blocking the running task keeps the scheduler's invariant |
| `KernelProofs.PlaceKeepsInv` | src/kernel/tasks.rs:1794-1805 | putting the running task on an event list, at any place, keeps the invariant |
| `KernelProofs.ReadyStepKeepsInv` | src/kernel/tasks.rs:1756-1785 | every step that makes a task ready keeps the invariant; that it readies its task is `StepEffects.ReadyingStepReadies` |
| `KernelProofs.MovePendingKeepsCore` | src/kernel/tasks.rs:1472-1490 | resuming makes exactly the pending tasks ready and leaves every other task's list alone |
| `KernelProofs.ResumeKeepsInv` | src/kernel/tasks.rs:1457-1514 | a resume keeps the invariant, loses no tick, and the outermost one leaves no tick pended |
| `KernelProofs.SuspendTaskKeepsInv` | src/kernel/tasks.rs:2565-2626 | suspending a task, from whatever list, keeps the invariant |
| `KernelProofs.CreateKeepsInv` | src/kernel/tasks.rs:629-672 | adding a task keeps the invariant, its count included |
| `KernelProofs.DeleteKeepsInv` | src/kernel/tasks.rs:2465-2551 | deleting another task or oneself keeps the invariant, its counts included |
| `KernelProofs.CleanUpKeepsInv` | src/kernel/tasks.rs:876-898 | while the clean-up count is positive a task awaits termination, and removing it keeps the invariant |
| `KernelProofs.ChangePriorityKeepsInv` | src/kernel/tasks.rs:3894-3991 | changing a priority keeps each ready task in the ready list of its own priority |
| `KernelProofs.HighestIsFirst` | src/kernel/tasks.rs:474-488 | the search stops at the highest non-empty ready list not above where it starts |
| `KernelProofs.SelectsHighest` | src/kernel/tasks.rs:474-488 | a context switch runs a ready task that no ready task outranks, the next of its priority in turn |
| `KernelProofs.SelectKeepsInv` | src/kernel/tasks.rs:2391-2430 | a context switch keeps the invariant |
| `KernelProofs.LengthsAddUp` | src/kernel/tasks.rs:629-672 | the lengths of all state lists add up to uxCurrentNumberOfTasks |
| `KernelProofs.JumpKeepsInv` | src/kernel/tasks.rs:5097-5128 | stepping the tick count over a sleep keeps the invariant and accounts for every tick |
| `StepEffects.ReadyingStepReadies` | src/kernel/tasks.rs:1756-1785 | each step that is to ready a task leaves it in the ready list of its priority and in no event list, or, from an interrupt or a queue while the scheduler is suspended, pending |
| `StepEffects.ReadiedTaskRuns` | src/kernel/tasks.rs:1457-1490 | in any run, from the step that is to ready a task until a step stops it, the task is ready in every state in which the scheduler runs, and ready or pending in every other |
| `StepEffects.ReadyQueuesLast` | src/kernel/tasks.rs:512-520 | a task made ready has its turn after every other of its priority, save the one selected last |
| `StepEffects.DelayedQueueInOrder` | src/kernel/tasks.rs:817-873 | a delayed task goes behind those that wake no later and before those that wake later |
| `StepEffects.SuspensionsAreCounted` | src/kernel/tasks.rs:1430-1514 | suspensions are counted, one up and one down, and by no other step |
| `StepEffects.PlacedTaskIsListed` | src/kernel/tasks.rs:1794-1805 | the running task's event item goes to its place in the list, and nothing else moves |
| `StepEffects.CreatedTaskIsReady` | src/kernel/tasks.rs:629-672 | a new task is ready at its priority, which the selection looks at, and is counted |
| `StepEffects.DeletedTaskIsGone` | src/kernel/tasks.rs:2465-2551 | a task deleted by another is gone at once, one that deletes itself awaits termination, and nothing can wake it |
| `StepEffects.CleanedUpTaskIsGone` | src/kernel/tasks.rs:876-898 | the idle task frees the first task that awaits termination, and counts it |
| `StepEffects.RecomputedIsExact` | src/kernel/tasks.rs:617-626 | the next unblock time recomputed is that of the first delayed task |
| `StepEffects.TickedIsExact` | src/kernel/tasks.rs:2290-2343 | a tick keeps it so, and makes it so if it wakes a task or wraps |
| `StepEffects.BlockedIsExact` | src/kernel/tasks.rs:817-873 | and so does blocking, whichever list the wake time goes to |
| `StepEffects.ReadiedIsExact` | src/kernel/tasks.rs:1766-1771 | with tickless idle, waking a task from a queue or by a notification makes it so |
| `StepEffects.DeletedIsExact` | src/kernel/tasks.rs:2465-2551 | and so does deleting another task |
| `StepEffects.ResumedIsExact` | src/kernel/tasks.rs:1472-1500 | an outermost resume keeps it so, and makes it so if it moves a pending task |
| `StepEffects.UnorderedIsExactIff` | src/kernel/tasks.rs:1870-1908 | with tickless idle, waking a task out of turn leaves it so if and only if that task was not the next to wake, or another wakes with it |
| `StepEffects.WokenOutOfTurn` | src/kernel/tasks.rs:1870-1908 | a run of seven steps after which it is the wake time of a task that is no longer delayed |
| `Scheduling.SwitchRunsNextInTurn` | src/kernel/tasks.rs:2391-2430 | a context switch runs the next task in turn of the highest ready priority, sends it to the back of the turns and changes nothing else; with the scheduler suspended it changes nothing |
| `Scheduling.EachHasATurn` | src/kernel/tasks.rs:474-488 | time slices: over any stretch in which no task of the highest ready priority comes or goes, as many switches as there are such tasks run each of them once |
| `Scheduling.SuspendStops` | src/kernel/tasks.rs:2565-2626 | a suspended task is in no ready, delayed or event list, whatever it waited for |
| `Scheduling.SuspendedTaskDoesNotRun` | src/kernel/tasks.rs:2565-2626 | in any run, a task that was suspended, or blocked without a deadline, stays suspended until a step acts on it, and no context switch runs it |
| `Delays.SparedByStep` | src/kernel/tasks.rs:2565-2626 | a step that does not act on a task leaves it in its list, save that a ready one may change priority, and leaves its wake time |
| `Delays.StepKeepsWake` | src/kernel/tasks.rs:2290-2343 | a step that does not act on a delayed task leaves it delayed until its wake time and ready from then on, ticks and resumes included |
| `Delays.DelayedTaskWakesOnTime` | src/kernel/tasks.rs:817-873 | in any run, a task that blocks for n ticks at T and is acted on by nothing else is delayed with wake time T + n in every state before that instant, and in the ready list of its priority in every state from then on |
| `KernelCode.QuietTicks` | src/kernel/tasks.rs:2290-2343 | ticks short of the next unblock time change nothing but the count |
| `KernelCode.StepTickIsManyTicks` | src/kernel/tasks.rs:5097-5128 | stepping by n then resuming leaves the state that n pended ticks leave |
| `KernelCode.ResumeThenTicks` | src/kernel/tasks.rs:1492-1500 | pended ticks replayed by a resume are single ticks after it |
| `KernelCode.StepTickIsSingleTicks` | src/kernel/tasks.rs:5097-5128 | tickless idle: a step of n then a resume leaves the same count, delayed and ready lists, and everything else, as a resume and n single ticks |
| `KernelCode.Scheduler.Drain` | src/kernel/tasks.rs:2304-2343 | the drain loop wakes the due part of the current list and sets the next unblock time |
| `KernelCode.Scheduler.IncrementTick` | src/kernel/tasks.rs:2290-2376 | the tick, running or suspended, is the tick step of the state machine |
| `KernelCode.Scheduler.MovePending` | src/kernel/tasks.rs:1472-1490 | the first loop of the resume makes every pending task ready, in order |
| `KernelCode.Scheduler.Replay` | src/kernel/tasks.rs:1492-1500 | the second loop replays every pended tick and leaves none |
| `KernelCode.Scheduler.ResumeAll` | src/kernel/tasks.rs:1457-1514 | xTaskResumeAll is the resume step of the state machine |
| `KernelCode.Scheduler.SelectHighest` | src/kernel/tasks.rs:474-488 | the selection loop ends and selects as the state machine does |
| `Notifications.StepFollows` | src/kernel/tasks.rs:1756-1785 | no scheduler step takes a ready or pending task back, except one that stops that very task |
| `Notifications.ResumeFollows` | src/kernel/tasks.rs:1457-1490 | the resume that ends a suspension leaves every pending task ready |
| `Notifications.NotifyWakes` | src/kernel/tasks.rs:3022-3100 | a notification from a task leaves the waiter ready |
| `Notifications.NotifyFromIsrWakes` | src/kernel/tasks.rs:3190-3279 | one from an interrupt leaves the waiter ready, or pending while the scheduler is suspended |
| `Notifications.WorldStarts` | src/kernel/tasks.rs:589-614 | the handshake invariant holds at the start |
| `Notifications.EventKeepsWorld` | src/kernel/tasks.rs:3110-3180 | every step of a waiter, a sender, an interrupt or any other task keeps the handshake invariant |
| `Notifications.WaitingTaskCanBeWoken` | src/kernel/tasks.rs:3190-3279 | in every reachable state a waiting task is in no event list, so a notification can and does wake it |
| `Notifications.NotificationSticks` | src/kernel/tasks.rs:3110-3180 | nothing but the end of the wait takes a received notification back; that the end does is `NotifyRuns.OneNotificationOneWait` |
| `Notifications.NotificationIsNotLost` | src/kernel/tasks.rs:3110-3180 | a notification that arrives anywhere between a waiter's first check and its block survives any run to the end of the wait, which then returns true with the waiter ready |
| `Notifications.ResumeLeavesNotifiedTaskReady` | src/kernel/tasks.rs:1472-1490 | a waiter notified while it was about to block is ready as soon as its resume ends |
| `NotifyRuns.ReceivedAfter` | src/kernel/tasks.rs:3110-3180 | after any step, a task has a notification if and only if the step sent it one, or it had one and the step was not the end of its wait or its deletion |
| `NotifyRuns.ReceivedIff` | src/kernel/tasks.rs:3110-3180 | in any run, a task has a notification if and only if it was sent one since a wait of its own last ended |
| `NotifyRuns.OneNotificationOneWait` | src/kernel/tasks.rs:3158-3176 | in any run, a wait that ends after an earlier one, with no notification sent in between, returns false |
| `NotifyRuns.NoneGivesUpWithoutBlocking` | src/kernel/tasks.rs:3110-3156 | in any run, a wait that is to block returns false only after it has blocked |
| `NotifyRuns.NotifiedWaitDoesNotBlock` | src/kernel/tasks.rs:3122-3143 | in any run, a wait that finds a notification, or may not block, ends without blocking |
| `NotifyRuns.BlockedWaiterIsMarked` | src/kernel/tasks.rs:3126-3146 | a waiter that blocks is marked as waiting, and off the ready lists for as long as it asked |
| `NotifyRuns.SuspendWithdrawsTheWait` | src/kernel/tasks.rs:2565-2626 | suspending a waiter withdraws its wait, so that a notification is recorded and does not wake it |
| `Timeouts.WholeTurn` | src/kernel/tasks.rs:1988-2039 | the overflow count and the tick together tell when a whole turn has passed |
| `Timeouts.CheckIsAbsolute` | src/kernel/tasks.rs:1988-2039 | a check reports expiry if and only if the delay was aborted or entry plus wait has passed, and otherwise leaves the same deadline |
| `Timeouts.IndefiniteEndsOnlyByAbort` | src/kernel/tasks.rs:1988-2039 | over any sequence of checks, at any times, a wait without a deadline ends if and only if it was aborted, and is left as it was |
| `Timeouts.RetriesKeepTheDeadline` | src/kernel/tasks.rs:1988-2039 | any number of checks, each at most one wrap after the last, keep the deadline: one of them expires if and only if it is past entry plus wait or follows an abort |
| `Timeouts.DelayUntilIsAbsolute` | src/kernel/tasks.rs:1568-1614 | a periodic delay blocks if and only if previous plus period is ahead of unbounded now, by exactly the difference |
| `Timeouts.PeriodsStayInThePast` | src/kernel/tasks.rs:1568-1614 | the previous wake time a call leaves is in the past when the next one is made |
| `Timeouts.TimeOutState.Set` | src/kernel/tasks.rs:1971-1976 | the state stored stands for the instant of entry |
| `Timeouts.TimeOutState.CheckForTimeOut` | src/kernel/tasks.rs:1988-2039 | in place: expired exactly when the delay was aborted, which is then forgotten, or the absolute deadline has passed; else restarted with the ticks that are left |
| `KernelClock.RunsShowTime` | src/kernel/tasks.rs:499-508 | in every reachable state of the scheduler the overflow count and the tick count together show unbounded time |
| `KernelClock.WaitsExpireOnTime` | src/kernel/tasks.rs:1988-2039 | in any run of the scheduler, a wait entered in one state and checked in later ones, each at most one wrap after the one before, expires if and only if a check follows an abort or finds the scheduler's time past entry plus wait |
| `PriorityInheritance.PlacedInOrder` | src/kernel/list.rs:764-834 | a waiter placed by its event item keeps the waiters in descending priority |
| `PriorityInheritance.HeadIsHighest` | src/kernel/queue.rs:2712-2720 | the head waiter has the highest priority of all that blocked during the hold |
| `PriorityInheritance.StepKeepsConsistent` | src/kernel/tasks.rs:2057-2263 | every step, priority changes from outside included, keeps held counts right, effective at or above base, and equal to base when nothing is held |
| `PriorityInheritance.RunsAreConsistent` | src/kernel/queue.rs:2590-2709 | the same over every run of takes, blocks, time-outs and gives on any number of mutexes |
| `PriorityInheritance.HoldsOnlyOne` | src/kernel/tasks.rs:2205-2263 | a held count of one means no other mutex names the task as holder |
| `PriorityInheritance.StepKeepsGood` | src/kernel/queue.rs:2590-2709 | every step in which blocked tasks hold nothing keeps waiters sorted and holders above their waiters |
| `PriorityInheritance.HoldersOutrankTheirWaiters` | src/kernel/queue.rs:2590-2709 | over every such run a holder's priority is at least that of every task that blocked during its hold and still waits |
| `PriorityInheritance.UnheldIsAtDepthZero` | src/kernel/queue.rs:2541-2575 | over any run that gives a mutex only recursively, it is at depth zero whenever nobody holds it |
| `PriorityInheritance.MatchingGiveReleases` | src/kernel/queue.rs:2541-2575 | over any such run, from its first take on, the mutex is held by the taker at a depth of takes less gives, and is released by the give that matches the first take and by no earlier one |
| `PriorityInheritance.TakerOutranksWaitersIff` | src/kernel/queue.rs:2590-2709 | a new holder runs at least at the priority of everybody waiting if and only if nobody waits or it outranks the first in line |
| `PriorityInheritance.EarlierWaitersAreCoveredIff` | src/kernel/tasks.rs:2145-2194 | across a give and the next take: every task left waiting is covered if and only if at most one waited or the taker outranks the second |
| `PriorityInheritance.HolderBelowAWaiter` | src/kernel/tasks.rs:2145-2194 | a run of a take, two blocks, a give and a take after which the holder runs below a waiter |
| `PriorityInheritance.PriorityInherit` | src/kernel/tasks.rs:2057-2116 | in place: the holder rises to the running task's priority if lower; the result says whether it runs above its base on a waiter's account |
| `PriorityInheritance.PriorityDisinherit` | src/kernel/tasks.rs:2145-2194 | in place: the last mutex given back returns the holder to base |
| `PriorityInheritance.PriorityDisinheritAfterTimeout` | src/kernel/tasks.rs:2205-2263 | in place: a holder of this mutex alone goes to its base or to the highest waiter left, whichever is higher; a holder of more is left alone |
| `PriorityEffects.BlockRaisesHolder` | src/kernel/tasks.rs:2057-2116 | a task that blocks goes behind the waiters of its priority and raises the holder to it and no further; it is remembered exactly if it outranks the holder's base |
| `PriorityEffects.TakeKeepsPriorities` | src/kernel/tasks.rs:1659-1667 | taking a mutex counts it and changes nobody's priority |
| `PriorityEffects.GiveReturnsToBase` | src/kernel/tasks.rs:2145-2194 | giving the last mutex returns the holder to its base, giving another leaves its priority, and the first waiter is woken |
| `PriorityEffects.GiveUpSettlesHolder` | src/kernel/tasks.rs:2205-2263 | when a task that raised the holder gives up, a holder of this mutex alone goes to exactly the highest of its base and the tasks still waiting; otherwise nothing changes |
| `PriorityEffects.InheritanceIsRemembered` | src/kernel/queue.rs:2590-2709 | in any run, from a task's block to its next block or giving up, it is remembered as having raised the holder if and only if it outranked the holder's base |
| `PriorityEffects.SetPriorityIsBase` | src/kernel/tasks.rs:3894-3991 | a priority set becomes the base, and the priority too unless an inherited one is higher |
| `PriorityEffects.RunsWaitOnce` | src/kernel/queue.rs:2590-2709 | in every reachable state a task waits on one mutex at most, and in one place |
| `PriorityEffects.TimeOutTakesWaiterOff` | src/kernel/tasks.rs:2304-2343 | a time-out takes the waiter off the list and leaves every other, and every priority |
| `QueueRing.WriteSlot` | src/kernel/queue.rs:701-773 | writing one slot's bytes changes that item and no other |
| `QueueRing.BackAppends` | src/kernel/queue.rs:701-773 | writing at the write position appends to the sequence of items |
| `QueueRing.FrontPrepends` | src/kernel/queue.rs:701-773 | writing at the read position and stepping it back prepends |
| `QueueRing.HeadLeaves` | src/kernel/queue.rs:776-794 | stepping the read position drops the head of the sequence |
| `QueueRing.Queue.WriteFollowsItems` | src/kernel/queue.rs:701-773 | writeTo is (readFrom + 1 + count) mod length, in every state the operations leave |
| `QueueRing.Queue.constructor` | src/kernel/queue.rs:419-455 | a new queue is empty |
| `QueueRing.Queue.Reset` | src/kernel/queue.rs:352-412 | a reset queue is empty |
| `QueueRing.Queue.CopyToBack` | src/kernel/queue.rs:701-773 | appends the item across any wrap position |
| `QueueRing.Queue.CopyToFront` | src/kernel/queue.rs:701-773 | prepends the item, or replaces the content of a one-slot queue |
| `QueueRing.Queue.Send` | src/kernel/queue.rs:849-1005 | refused exactly when full and not overwriting, else the item goes where asked; the length is exceeded exactly by overwriting a full queue without item bytes |
| `QueueRing.OverwriteTwice` | src/kernel/queue.rs:701-773 | a one-slot queue without item bytes that two overwriting sends leave with a count of two |
| `QueueRing.Queue.CopyFrom` | src/kernel/queue.rs:776-794 | copies out the head item |
| `QueueRing.Queue.Receive` | src/kernel/queue.rs:1017-1113 | returns and removes the head, or nothing if empty |
| `QueueRing.Queue.Peek` | src/kernel/queue.rs:1145-1174 | returns the head and changes nothing |
| `QueueWakeups.StartsCovered` | src/kernel/queue.rs:419-455 | the protocol's invariants hold at the start |
| `QueueProofs.StepKeepsShape` | src/kernel/queue.rs:302-337 | every step keeps waiters distinct, woken tasks on their way to a retry, and the lock counters in step with the one task inside the locked section |
| `QueueWakeups.StepKeepsReceivers` | src/kernel/queue.rs:1032-1112 | every step keeps: while receivers wait, messages number at most the woken receivers plus counted posts, or the count has reached its cap |
| `QueueWakeups.StepKeepsSenders` | src/kernel/queue.rs:849-1005 | every step but a reset keeps: while senders wait, free slots number at most the woken senders plus counted receives, or the count has reached its cap |
| `QueueWakeups.NoLostReceiverWakeup` | src/kernel/queue.rs:1032-1112 | over every interleaving of tasks, time-outs and interrupts, resets included, no receiver's wakeup is lost |
| `QueueWakeups.NoLostSenderWakeup` | src/kernel/queue.rs:849-1005 | over every interleaving without a reset, no sender's wakeup is lost |
| `QueueWakeups.WaitingReceiverHasAWokenPeer` | src/kernel/queue.rs:1347-1417 | if a receiver waits on an unlocked queue with messages, another has been woken and can run |
| `QueueWakeups.LoneReceiverWaitsOnEmptyQueue` | src/kernel/queue.rs:1347-1417 | with one receiving task, an unlocked queue on which it waits is empty |
| `QueueWakeups.LoneSenderWaitsOnFullQueue` | src/kernel/queue.rs:1347-1417 | with one sending task, an unlocked queue on which it waits is full, and no fuller unless it was overwritten without item bytes |
| `QueueWakeups.ResetKeepsSendersIff` | src/kernel/queue.rs:352-412 | a reset keeps senders covered if and only if at most one waited, or woken senders plus one are at least as many as the slots |
| `QueueWakeups.ResetStrandsASender` | src/kernel/queue.rs:352-412 | a two-slot queue on which a reset leaves a sender waiting with two slots free and one sender woken |
| `QueueEffects.CountFollowsEvents` | src/kernel/queue.rs:701-773 | a post adds one message unless it replaces one, a receive takes one, a reset takes all, and no other step changes the count |
| `QueueEffects.MessagesAreConserved` | src/kernel/queue.rs:701-773 | over any stretch without a reset, messages are those at its start plus the posts accepted less the overwrites and the receives |
| `QueueEffects.ServedCallWakesFirst` | src/kernel/queue.rs:1032-1077 | a served call wakes the first waiter of the other kind, a peek the next receiver, and ends |
| `QueueEffects.UnservedCallWaits` | src/kernel/queue.rs:1079-1087 | a call that is not served changes nothing, and goes on to wait if it may |
| `QueueEffects.TimeOutTakesTaskOff` | src/kernel/tasks.rs:2304-2343 | a time-out takes a task off its list and leaves the others in their order |
| `QueueEffects.FruitlessWaitBlocks` | src/kernel/queue.rs:1079-1112 | undisturbed, a call that finds nothing goes on its list, to try again when it is taken off, with the queue unlocked and the scheduler resumed |
| `QueueEffects.ExpiredWaitGivesUp` | src/kernel/queue.rs:1079-1112 | undisturbed, one whose time is up does not wait: a send is over, a receive looks once more |
| `QueueEffects.LastLook` | src/kernel/queue.rs:1103-1110 | the last look ends the call if there is still nothing; otherwise it tries again |
| `QueueEffects.CallsEndOnlyWhenDue` | src/kernel/queue.rs:1017-1112 | however events interleave, a call goes on until it is served, may not wait, or its time is up |
| `QueueEffects.OwnerFollowsEvents` | src/kernel/queue.rs:849-1005 | the scheduler is suspended by the task that asks for it, until that task resumes it |
| `QueueCode.QueueEvents.LockQueue` | src/kernel/queue.rs:302-313 | an unlocked counter starts at zero; a locked one keeps its count |
| `QueueCode.QueueEvents.UnlockQueueTx` | src/kernel/queue.rs:1347-1394 | the loop wakes one receiver for each counted post, while any waits, and unlocks |
| `QueueCode.QueueEvents.UnlockQueueRx` | src/kernel/queue.rs:1396-1417 | the same for senders and counted receives |
| `QueueCode.QueueEvents.GenericSendFromIsr` | src/kernel/queue.rs:2114-2209 | an interrupt's post, overwriting or not, with item bytes or without, wakes a receiver, or on a locked queue is counted up to the number of tasks |
| `StreamBuffer.SlotsDiffer` | src/kernel/stream_buffer.rs:1426-1438 | bytes fewer than a turn apart are in different slots |
| `StreamBuffer.CountsAreExact` | src/kernel/stream_buffer.rs:775-793 | the index arithmetic counts exactly the bytes between writer and reader, and the spaces |
| `StreamBuffer.StepKeepsInv` | src/kernel/stream_buffer.rs:1441-1510 | every load, byte copied and store of either side keeps the ring's invariant |
| `StreamBuffer.Lossless` | src/kernel/stream_buffer.rs:1441-1510 | over every interleaving the bytes received are a prefix of the bytes sent |
| `StreamBuffer.DisjointSlots` | src/kernel/stream_buffer.rs:1441-1510 | the slots the writer may write and those the reader may read do not meet |
| `StreamBuffer.StaleIndicesUnderReport` | src/kernel/stream_buffer.rs:775-793 | a stale index makes either side see less, never more; bytes plus spaces is the length less one |
| `StreamBuffer.QuietSendIsWhole` | src/kernel/stream_buffer.rs:1513-1556 | with nobody in between, a producer is offered all the space there is and publishes what it copies in |
| `StreamBuffer.QuietReceiveIsWhole` | src/kernel/stream_buffer.rs:1559-1599 | with nobody in between, a consumer is offered every unread byte and takes exactly the next ones it copies out |
| `StreamBuffer.CopyingIsStepping` | src/kernel/stream_buffer.rs:1441-1474 | the block copy is the byte steps of the interleaving model |
| `StreamBuffer.ReadingIsStepping` | src/kernel/stream_buffer.rs:1477-1510 | the block read is the byte steps of the interleaving model |
| `StreamBuffer.FreeSlotsAreFree` | src/kernel/stream_buffer.rs:1441-1474 | whatever is written in the slots the writer was told are free, no unread byte is spoilt |
| `StreamBuffer.WrittenAt` | src/kernel/stream_buffer.rs:1441-1474 | a write changes exactly the slots from the head on, across the wrap |
| `StreamBuffer.ReadWhatWasWritten` | src/kernel/stream_buffer.rs:1477-1510 | reading from where data was written gives it back |
| `StreamBuffer.Storage.WriteBytes` | src/kernel/stream_buffer.rs:1441-1474 | in place, in two chunks: the data from the head on, and the head after it |
| `StreamBuffer.Storage.ReadBytes` | src/kernel/stream_buffer.rs:1477-1510 | the bytes from the tail on, and the tail after them |
| `StreamBuffer.Storage.BytesInBuffer` | src/kernel/stream_buffer.rs:1426-1438 | the count that `CountsAreExact` is about |
| `StreamBuffer.Storage.SpacesAvailable` | src/kernel/stream_buffer.rs:775-793 | the spaces that `CountsAreExact` is about |
| `MessageBuffer.DecodeEncode` | src/kernel/stream_buffer.rs:1513-1556 | a length prefix is read back as it was written |
| `MessageBuffer.StepKeepsMail` | src/kernel/stream_buffer.rs:1513-1599 | in every state the bytes in the buffer are whole frames of the messages posted and not delivered |
| `MessageBuffer.NextFrame` | src/kernel/stream_buffer.rs:1559-1599 | if any byte is readable, the whole frame of the next undelivered message is |
| `MessageBuffer.NoPartialPrefix` | src/kernel/stream_buffer.rs:873-898 | a reader sees no bytes, or more than a length prefix |
| `MessageBuffer.FetchDeliversNext` | src/kernel/stream_buffer.rs:1559-1599 | a message fetched is the next one posted, unchanged, and fits the buffer given |
| `MessageBuffer.TooSmallIsRefused` | src/kernel/stream_buffer.rs:1559-1599 | a receive buffer too small for the next message fetches nothing |
| `MessageBuffer.ReceiveIsNextMessage` | src/kernel/stream_buffer.rs:1559-1599 | what the code's receive returns is the next undelivered message, whole, unless the buffer it is given is too small: then nothing, and the old tail |
| `MessageBuffer.ReceiveIsFetch` | src/kernel/stream_buffer.rs:1559-1599 | a receive that finds a message publishes the tail, and delivers the message, of the model's fetch |
| `MessageBuffer.SendIsPost` | src/kernel/stream_buffer.rs:1513-1556 | a send whose message fits writes the bytes and publishes the head of the model's post |
| `MessageBuffer.RefusedSendKeepsMail` | src/kernel/stream_buffer.rs:1513-1556 | a refused send, whatever it left in the free space, leaves every stored message unharmed |
| `MessageBuffer.MessagesArriveInOrder` | src/kernel/stream_buffer.rs:1513-1599 | over every interleaving the messages delivered are the first of those posted, each whole |
| `MessageBuffer.WrittenAppends` | src/kernel/stream_buffer.rs:1513-1556 | writing prefix and payload in turn is writing the frame, at any wrap position |
| `MessageBuffer.WriteMessage` | src/kernel/stream_buffer.rs:1513-1556 | in place: with room a message's frame is written and the head moves past it, otherwise the head stays and only free slots are written; a stream takes as many bytes as fit |
| `MessageBuffer.ReadMessage` | src/kernel/stream_buffer.rs:1559-1599 | what `ReceiveIsNextMessage` is about; a stream gives as many bytes as there are and fit |
| `Timers.ClassifyIsExact` | src/kernel/timers.rs:1369-1414 | a timer is filed as expired, current or overflow exactly as its absolute expiry is past, in this epoch or in the next |
| `Timers.FileKeeps` | src/kernel/timers.rs:1369-1414 | filing keeps both lists standing for instants; nothing is filed in the list being drained when now is the last tick |
| `Timers.ReloadKeeps` | src/kernel/timers.rs:1417-1435 | a reload calls back once for each missed period and files the next expiry in (now, now + period] |
| `Timers.ExpireKeeps` | src/kernel/timers.rs:1438-1457 | an expired timer has been called for every instant of its schedule up to now; a one-shot timer becomes inactive |
| `Timers.ProcessKeeps` | src/kernel/timers.rs:1438-1457 | processing the head of the current list keeps the daemon's invariant |
| `Timers.DrainKeeps` | src/kernel/timers.rs:1295-1312 | draining at the last tick ends with the list empty and loses no timer |
| `Timers.SwitchKeeps` | src/kernel/timers.rs:1295-1312 | the switch keeps the invariant into the next epoch |
| `Timers.SampleKeeps` | src/kernel/timers.rs:1275-1292 | sampled at least once a turn, the lists are switched exactly when the tick count has wrapped |
| `Timers.StartKeeps` | src/kernel/timers.rs:1509-1541 | a start, however late, lists the timer one period after the command, or has called it for every instant passed |
| `Timers.StopKeeps` | src/kernel/timers.rs:1543-1584 | a stopped or deleted timer is in no list and not active |
| `Timers.ChangePeriodKeeps` | src/kernel/timers.rs:1548-1564 | a new period is never found expired; the timer is listed one new period from now |
| `Timers.IgnoredCommandIff` | src/kernel/timers.rs:1490-1588 | a command without a case unlists the timer and leaves its flag: wrong if and only if it was set |
| `Timers.StartedThenIgnored` | src/kernel/timers.rs:1490-1588 | a timer started and then sent such a command is in no list and still active |
| `Timers.CommandKeeps` | src/kernel/timers.rs:1460-1594 | every command that has a case keeps the daemon's invariant |
| `Timers.QuietTimers` | src/kernel/timers.rs:1315-1366 | if the head of the current list is not due, no timer is |
| `Timers.DaemonStepKeeps` | src/kernel/timers.rs:1315-1366 | the step keeps the invariant; when the daemon blocks no timer is overdue, and it blocks until the next expiry or the wrap, for at least one tick, or without a deadline if no timer is listed; whom it calls otherwise is `TimerRuns.StepCallsHead` |
| `Timers.RunsAreSteady` | src/kernel/timers.rs:1232-1253 | over any run, ACTIVE holds exactly of listed timers, and each listed timer has had one callback for every expiry instant before its next |
| `TimerRuns.DrainCalls` | src/kernel/timers.rs:1295-1312 | the drain before a switch calls every timer in the list, each for all its instants up to the wrap |
| `TimerRuns.SwitchCalls` | src/kernel/timers.rs:1275-1312 | a wrap calls every timer left in the old list for all its instants up to the wrap, and no other |
| `TimerRuns.StepCallsHead` | src/kernel/timers.rs:1315-1366 | the daemon's step restarts exactly at a wrap and processes exactly if its next timer is due; that timer is then called for every instant up to now, and no other is touched |
| `TimerRuns.CallsAllDue` | src/kernel/timers.rs:1232-1253 | coming round at one instant, the daemon blocks after as many rounds as timers were due, by when each has been called for every instant up to now and nothing else has changed |
| `TimerRuns.BlocksInTheEnd` | src/kernel/timers.rs:1232-1253 | whenever it wakes, a wrap included, it comes to block at that instant with no timer overdue |
| `TimerRuns.CommandSetsTimer` | src/kernel/timers.rs:1460-1594 | what each command makes of its timer's flag, period, start and log |
| `TimerRuns.CommandLeavesOthers` | src/kernel/timers.rs:1460-1594 | a command leaves every other timer alone, unless it finds the count wrapped: then those left in the old list are called up to the wrap |
| `TimerSchedules.TimerFiresOnSchedule` | src/kernel/timers.rs:1232-1253 | in any run, a timer started and sent no command since has, whenever the daemon blocks, been called for exactly the instants of its schedule up to now, once if it does not reload, and never early |
| `TimerCode.TimerDaemon.Insert` | src/kernel/timers.rs:1369-1414 | the wrapped comparisons file the timer as the classification says |
| `TimerCode.TimerDaemon.Reload` | src/kernel/timers.rs:1417-1435 | the backlog loop ends, having logged each missed expiry |
| `TimerCode.TimerDaemon.ProcessExpired` | src/kernel/timers.rs:1438-1457 | takes the head off, reloads or deactivates it, and calls it |
| `TimerCode.TimerDaemon.SwitchTimerLists` | src/kernel/timers.rs:1295-1312 | the drain loop ends and the lists are exchanged |
| `TimerCode.TimerDaemon.SampleTimeNow` | src/kernel/timers.rs:1275-1292 | reports a switch exactly when the epoch has ended |
| `EventGroups.Unpack` | src/kernel/event_groups.rs:400-411 | bits and options packed into an event item are read back as given |
| `EventGroups.WokenItemTells` | src/kernel/event_groups.rs:635-644 | the value a woken task finds carries the flag and the bits |
| `EventGroups.SetWakesExactly` | src/kernel/event_groups.rs:601-652 | a set wakes exactly the waiters satisfied by the old bits with the new, and leaves none that the remaining bits satisfy |
| `EventGroups.SetIgnoresOrder` | src/kernel/event_groups.rs:601-652 | who is woken, who is left and the final bits do not depend on the order of waiters |
| `EventGroups.SetKeepsOk` | src/kernel/event_groups.rs:587-662 | after a set no listed waiter is satisfied |
| `EventGroups.WaitKeepsOk` | src/kernel/event_groups.rs:379-420 | nor after the first half of a wait |
| `EventGroups.SyncKeepsOk` | src/kernel/event_groups.rs:495-527 | nor after the first half of a synchronisation |
| `EventGroups.LoweringKeepsOk` | src/kernel/event_groups.rs:678-702 | clearing bits satisfies nobody |
| `EventGroups.ResumeKeepsOk` | src/kernel/event_groups.rs:428-452 | nor does a task's return from its wait |
| `EventGroups.TimedOutKeepsOk` | src/kernel/event_groups.rs:428-452 | nor a waiter's time-out |
| `EventGroups.WokenTaskIsToldWhy` | src/kernel/event_groups.rs:428-452 | a task woken by a set returns bits that satisfy its wait, and clears nothing |
| `EventGroups.TimedOutTaskIsToldSo` | src/kernel/event_groups.rs:432-448 | a timed-out task returns the bits as they are by then |
| `EventGroups.ConditionMeans` | src/kernel/event_groups.rs:1030-1050 | a wait for all is satisfied if every awaited bit is set, a wait for any if some awaited bit is |
| `EventGroups.WaitTakesBits` | src/kernel/event_groups.rs:379-420 | a satisfied wait returns the bits that satisfied it and takes the awaited ones, and no other, exactly if asked to; any other changes no bit |
| `EventGroups.ResumeTakesBits` | src/kernel/event_groups.rs:428-452 | a timed-out wait takes the awaited bits exactly if they are there by then and it was asked to; a woken one takes none |
| `EventGroups.ClearTakesBits` | src/kernel/event_groups.rs:678-702 | clearing takes exactly the bits named |
| `EventGroups.SetTakesBits` | src/kernel/event_groups.rs:601-652 | a set takes what the waiters it satisfies asked to have cleared, and nothing else |
| `EventGroups.IncompleteSync` | src/kernel/event_groups.rs:495-527 | in any group, a call that does not complete the awaited bits waits, everybody the bits do not satisfy keeps waiting, and no bit is lost but what a waiter it satisfied asked to have cleared |
| `EventGroups.CompleteSync` | src/kernel/event_groups.rs:495-527 | in any group, the call that completes the awaited bits returns them all, releases exactly the waiters they satisfy, each told all of them, and leaves the awaited bits clear |
| `EventGroups.RendezvousWaits` | src/kernel/event_groups.rs:495-527 | in a group used for one rendezvous, until the bits are complete every participant waits and nothing is cleared |
| `EventGroups.RendezvousReleases` | src/kernel/event_groups.rs:495-527 | the participant who completes them releases all the others |
| `EventGroups.EventGroup.SetBits` | src/kernel/event_groups.rs:587-662 | the walk over a list it removes from does what the set promises |
| `EventGroups.EventGroup.WaitBits` | src/kernel/event_groups.rs:352-420 | in place: a satisfied wait returns the bits and takes exactly the awaited ones if asked to; one that may not block changes nothing; any other joins the waiters |
| `EventGroups.EventGroup.EndWait` | src/kernel/event_groups.rs:428-460 | in place: a timed-out wait takes exactly the awaited bits if they are there and it was asked to; a woken one takes none and returns what it was told |
| `EventGroups.EventGroup.ClearBits` | src/kernel/event_groups.rs:678-702 | in place: exactly the bits named are gone, and the bits before are returned |
| `EventGroups.EventGroup.Synchronise` | src/kernel/event_groups.rs:471-527 | in place: the set, then release or wait |
| `EventGroupRuns.EventKeepsSession` | src/kernel/event_groups.rs:352-460 | every half of every call keeps what tasks asked for and what they are told in step |
| `EventGroupRuns.RunsAnswerTruly` | src/kernel/event_groups.rs:352-566 | over any run: no listed waiter is satisfied, every task that asked is waiting or about to return, and one that did not time out returns bits that satisfy it |
| `EventGroupRuns.BitsFollowEvents` | src/kernel/event_groups.rs:352-702 | after any event the bits are those before with the ones it sets, less exactly the ones it takes |
| `EventGroupRuns.BitsComeAndGo` | src/kernel/event_groups.rs:352-702 | over any stretch of a run, bits that are set stay so until an event takes one, and bits that are not are not seen until an event sets one |
| `EventGroupRuns.AskingFollowsEvents` | src/kernel/event_groups.rs:352-566 | a task is in a call from the event at which it finds its bits missing to its return, and at first it waits |
| `EventGroupRuns.WaitsUntilSatisfied` | src/kernel/event_groups.rs:352-460 | at any event of a session, a waiting task stops waiting if and only if it times out or bits are raised that satisfy it, and then it holds those bits |
| `EventGroupRuns.SyncReleasesEveryParticipant` | src/kernel/event_groups.rs:471-566 | in any run, a synchronisation that completes its bits releases every task they satisfy; until that task returns it is to return the bits as they were completed, whatever happens meanwhile |
| `HeapSpec.BlockSizeFor` | src/memory/heap_4.rs:253-275 | header and alignment are added to a request, or it is refused as too large, exactly when the sum cannot be represented |
| `HeapSpec.FirstFit` | src/memory/heap_4.rs:288-297 | the lowest-addressed block that fits |
| `HeapSpec.RegionBounds` | src/memory/heap_5.rs:186-209 | a region is usable if and only if it is not null, does not wrap and holds more than a minimum block before its marker; its bounds are aligned and inside it |
| `HeapProofs.TakeKeepsInvariant` | src/memory/heap_4.rs:299-333 | malloc keeps the heap invariant, hands out a fresh block and removes exactly its bytes, with slack at most a minimum block |
| `HeapProofs.InsertKeepsInvariant` | src/memory/heap_4.rs:189-235 | free keeps the invariant and adds exactly the block's bytes, whatever it joins |
| `HeapProofs.StaysInOneRegion` | src/memory/heap_5.rs:316-362 | no free or live block spans two regions |
| `HeapProofs.FreeUndoesMalloc` | src/memory/heap_5.rs:416-516 | freeing what was just taken restores the list if and only if it was split off or touches no region marker; otherwise the marker alone is gone |
| `HeapProofs.AllFreedIsMaximal` | src/memory/heap_5.rs:481-516 | with nothing live, the usable free blocks are exactly the whole regions |
| `HeapProofs.AppendKeepsInvariant` | src/memory/heap_5.rs:276-302 | chaining one more region behind the marker of the last keeps the invariant |
| `Heap.TakeHeaders` | src/memory/heap_4.rs:305-331 | the header writes of malloc describe the list with the block taken |
| `Heap.InsertHeaders` | src/memory/heap_4.rs:189-235 | the header writes of free describe the list with the block inserted and joined |
| `Heap.Heap.constructor` | src/memory/heap_4.rs:91-95 | before the first allocation there is no end marker |
| `Heap.Heap.HeapInit` | src/memory/heap_4.rs:145-179 | one free block from the aligned start to the aligned end marker |
| `Heap.Heap.MallocHeap4` | src/memory/heap_4.rs:253-339 | the heap is built on first use, then allocates first fit |
| `Heap.Heap.RegionsAcceptable` | src/memory/heap_5.rs:235-276 | the checks pass exactly for lists without a null range in which every usable region starts above the previous end marker's address and at least one is usable |
| `Heap.Heap.DefineHeapRegions` | src/memory/heap_5.rs:235-306 | an acceptable list becomes one free block a usable region, chained through markers, and the heap is valid if and only if no block sets the flag bit and every region leaves room for the marker before it; otherwise the call fails |
| `Heap.Heap.BlockSizeOf` | src/memory/heap_4.rs:253-275 | the overflow checks compute the block size above |
| `Heap.Heap.Search` | src/memory/heap_4.rs:288-297 | the walk over headers finds the first fit and its predecessor, or the end marker |
| `Heap.Heap.UnlinkAndSplit` | src/memory/heap_4.rs:299-333 | the header writes and counters of malloc |
| `Heap.Heap.Malloc` | src/memory/heap_5.rs:380-470 | null exactly when no free block fits, else an aligned payload in the lowest one that does, split if the rest exceeds a minimum block |
| `Heap.Heap.FindPredecessor` | src/memory/heap_4.rs:189-195 | the walk stops at the last node below the block |
| `Heap.Heap.LinkOrMerge` | src/memory/heap_4.rs:197-235 | the header writes of joining with either neighbour, both or none |
| `Heap.Heap.Free` | src/memory/heap_4.rs:350-385 | the block returns to the free list joined with what it touches; null is ignored |
| `HeapRuns.MallocIsCall` | src/memory/heap_4.rs:253-339 | what the code's malloc promises is the step the runs are made of |
| `HeapRuns.RunsKeepTheHeap` | src/memory/heap_5.rs:380-516 | over any run of malloc and free the invariant holds, free plus live bytes stay constant, and if all is freed each region is one block again |
| `HeapRuns.OneRegionRestored` | src/memory/heap_4.rs:350-385 | heap_4: freeing everything, in any order, restores the first free list exactly |
| `HeapRuns.MarkerIsAbsorbed` | src/memory/heap_5.rs:316-362 | two small regions on which taking the first whole and freeing it leaves the list without the region's marker |
| `HeapLayout.HeadersAreApart` | src/memory/heap_5.rs:316-362 | in a valid heap no two headers share a byte, and no live block contains another header |
| `HeapLayout.DisjointRangesAreSeparated` | src/memory/heap_5.rs:211-234 | ranges that ascend without overlap leave room for every marker |
| `HeapLayout.NarrowHeadersAreSeparated` | src/memory/heap_5.rs:256-261 | if a header is no larger than the alignment, every accepted list leaves room for every marker |
| `HeapLayout.CheckIsEnoughIff` | src/memory/heap_5.rs:256-261 | and only then: every accepted list leaves the room if and only if header and alignment are the same |
| `HeapLayout.OverlapInNumbers` | src/memory/heap_5.rs:256-261 | with 16-byte headers aligned to 8, two overlapping ranges that are accepted, the second starting inside the first one's marker |
| `HeapLayout.HalfTheSpaceIsAccepted` | src/memory/heap_5.rs:186-209 | an accepted range whose block sets the flag bit |

## Left out

- `HeapLayout.CheckIsEnoughIff`: in an address space of more than eighteen headers, without which there is no room for two regions.
- `KernelProofs.PlaceKeepsInv`: the place on an event list is arbitrary, so that what is proved holds for any order; the order by priority is `PriorityInheritance.PlacedInOrder`.
- `QueueWakeups.NoLostReceiverWakeup`: at most 127 tasks, no deletion of a task or of the queue, and no queue sets, whose deferred events are capped and whose locked overwrites are still counted.
- `QueueCode.QueueEvents.LockQueue`: the class holds the queue's fields of the protocol; program counters and the scheduler stay with the state machine.
- `PriorityInheritance.HoldersOutrankTheirWaiters`: runs without vTaskPrioritySet, which stores the new base priority in the event item and does not reposition it, and in which tasks block holding no mutex.
- `PriorityInheritance.PriorityInherit`: an event item in use by an event group, which a change of priority leaves alone, is not modelled, as a task on a mutex's list is in no group's.
- `Timeouts.RetriesKeepTheDeadline`: neighbouring checks are within one wrap of each other, as the two stored fields can tell no more.
- `Timers.RunsAreSteady`: time is sampled at least once a turn and a command is handled less than a turn after it was given; commands without a case are treated by `Timers.IgnoredCommandIff`.
- Ports and assembly, interrupt controllers and timers: yields, critical sections and interrupt entry are step boundaries.
- The decision to preempt and pending yields: any ready task may be switched to by a context switch, which is when selection matters.
- Wakeups of tasks blocked on a stream buffer, trigger levels and batching buffers.
- Event words of 64 bits, which the 64-bit tick configuration selects.
- Hardware memory ordering: an acquire load or a release store of an index is one atomic step.
- Notification values and their actions, and clearing a notification from outside: the handshake is about the state.
- The array of notification slots: each task has one, and a wait and a notification concern the same slot.
- Wrap-around of the overflow count itself, which is only compared for inequality.
- Pended function callbacks, and what user callbacks do: a timer callback is an entry in the timer's log.
- Deletion of an event group with waiters, and deferred sets and clears from interrupts, which arrive as timer commands.
- heap statistics, calloc, the aligned layout bridge and xNumberOfFreeBlocks.
- Creation wrappers, static storage, names, tags, thread-local storage, the queue registry, tracing, run-time statistics, text formatting and stack checks.
- The `sync` wrappers: the files they wrap are not part of this model.
