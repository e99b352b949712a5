# A verified model of the FreeRTOS kernel, lwIP's select and a SHA-256

This project models, in Dafny, the hard parts of three pieces of C and proves what they
promise:

- the FreeRTOS V7.0.2 kernel under `l5/arm/FreeRTOS/kernel`: the linked list under
  everything, the scheduler with its delayed lists and its suspension, queues with their
  lock counts, mutexes with priority inheritance, recursive mutexes, and the timer daemon;
- `lwip_select` against `event_callback` in `l5/arm/FreeRTOS/lwip/api/sockets.c`;
- the one-shot SHA-256 of `l5/arm/sha256sum.c`.

The board's configuration is modelled: preemption, mutexes and recursive mutexes on,
`INCLUDE_vTaskSuspend` and `INCLUDE_vTaskPrioritySet` 0. The width of a tick count is not
fixed: its modulus, `portMAX_DELAY + 1`, is a parameter, and so is the number of priorities.

## How it is laid out

| file | what it holds |
|---|---|
| `lists.dfy`, `list_order.dfy`, `seqs.dfy` | the list on the heap, as a class, refining two sequences (list order and walk order), and what its disciplines mean over whole runs |
| `tasks.dfy`, `items.dfy`, `kernel.dfy` | the lists of the scheduler by their contents, and the kernel's operations on its whole state |
| `invariant.dfy`, `lifecycle.dfy`, `runs.dfy`, `fairness.dfy` | the invariant, that every operation keeps it, runs of kernel calls and interrupts in any order, and how tasks of one priority share the processor |
| `delays.dfy`, `wakeups.dfy`, `resumes.dfy`, `timeouts.dfy`, `arith.dfy` | the delayed lists read in absolute time, exact wake-ups, honoured yields, what a suspension stops and when its end makes a task yield, time-outs |
| `scheduler.dfy` | the variables of `tasks.c` as a class; each method is proved to do to the whole state what the operation in `kernel.dfy` does |
| `event_order.dfy`, `mutexes.dfy`, `mutex_waiters.dfy`, `recursive_mutex.dfy` | priority order of waiting tasks, inheritance, who waits for a mutex and is woken, recursive mutexes |
| `queue_spec.dfy`, `ring_buffer.dfy`, `queue_protocol.dfy`, `queue_wakeups.dfy` | the critical sections of a queue as functions, the byte buffer that refines them as a class, their interleaving by tasks and interrupts, and who is woken and how many |
| `timers.dfy`, `timer_promises.dfy`, `timer_commands.dfy`, `timer_loop.dfy`, `timer_catchup.dfy`, `timer_stops.dfy`, `timer_daemon.dfy` | the timer daemon on values, what it promises, any queue of commands, its loop against the clock, catching up, stopping a timer, and the daemon as a class |
| `select.dfy`, `select_events.dfy`, `socket_table.dfy` | select and the callbacks as a protocol, what events do to sockets and whom they reach, and the loops in place |
| `sha256.dfy`, `sha256_constants.dfy`, `sha256_numbers.dfy`, `sha256_answer.dfy` | FIPS 180-4 and the program, and what pins the constants and functions they share: roots of primes, rotation and byte order as arithmetic, the digest of "abc" |

A critical section, or a section under one semaphore, is one atomic step, and the steps of
different tasks, interrupts and threads interleave in any order that program order allows.
What runs between steps is left open: runs are arbitrary sequences of enabled steps. Where
the program compares wrapped tick counts the model does so too, and carries the absolute
times beside them for the proofs; no decision reads them.

## What the code needs, and where it fails without it

The theorems about whole runs have these conditions, without which the code fails. For each
of them the theorems named give the exact condition, a concrete failing state or run, or both.
Example states satisfy the invariant; where the example is a run it is said from which state.

- A mutex is not given back for a holder that waits for an event and has inherited; the holder
  itself may always give: `DisinheritExact`, `HolderMayGive`, `ForeignGiveExample`, and for a
  sleeping holder `ForeignGiveWakes`.
- A task is not deleted while it holds a mutex: `DeletingHolder`.
- A queued task does not inherit: inheritance rewrites the value of the event item without
  moving it (`tasks.c:2418`): `QueuedInheritExact`, `QueuedInheritExample`.
- A task holds one mutex at most: any give drops the holder to its base priority:
  `GivingOneOfTwo`, `GivingOneOfTwoExample`.
- A task that was woken from a queue is not deleted before it is back at it: `DeletingWoken`,
  `Stranded`, `DeletingWokenExample`.
- Two looks at a time-out are less than a turn of the tick count apart: `CheckIsExact`,
  `TurnMissedExample`.
- The timer daemon samples the time at least once in every turn of the count: `SampleExact`.
- A START is processed in time. The time is sampled once before the loop (`timers.c:502`), and
  an interrupt can post a START with a later tick while the loop runs: `ClassifyIsExact` and
  `StartExact` say when the START is processed rightly, `EarlyBurst` and `EarlyBurstExample`
  what happens to one that is too early, `StaleVerdictExample` and `StaleStartExample` to one
  that is too late. That none is too late, and none of the daemon's own either, follows from a
  bound on how late the daemon is: `PunctualLoopTracks`.
- The daemon is not late for a timer between the posting of a STOP and its processing, or the
  timer goes on: `StopStops`, `StopIsLost`.
- A select waits for sockets below `maxfdp1`; the callback ignores `maxfdp1` and the scan does
  not: `EnlistedExact`, `BeyondMaxfdp1`. And it waits for events: data left over from a receive
  makes a socket readable without one: `LeftoverExact`, `LeftoverExample`.
- SHA-256 messages are shorter than 2^29 bytes, since the code computes the bit length in 32
  bits: `PaddingIsStandard`.

Other conditions are assumptions on the program around the code. The timer queue is never
full, as the code asserts (`timers.c:320`). Nobody sends commands for a timer while it is
tracked; a reset or a new period begins the tracking anew if no message for the timer waits
behind it (`RestartTracks`, `NewPeriodTracks`). Sockets in the sets of a waiting select stay
allocated.

The comment of `lwip_selscan` calls `maxfdp1` the highest socket index in the sets
(`sockets.c:834`); the loop stops before it, and the model follows the loop. The comment
at `tasks.c:1205` speaks of a priority higher than the current task's; the code yields for
an equal one too, and so does the model (`EqualPriorityYields`).

## Model

| member | source | states |
|---|---|---|
| `Lists.List.constructor` | l5/arm/FreeRTOS/kernel/list.c:63-80 | a new list is a well-linked circle of the end marker alone |
| `Lists.List.InsertEnd` | l5/arm/FreeRTOS/kernel/list.c:90-111 | in walk order the item is appended behind all others, wherever the index stands; the circle stays well linked both ways |
| `Lists.List.Insert` | l5/arm/FreeRTOS/kernel/list.c:113-167 | the item goes in front of the first larger value, so behind all equal ones; index, container and links are right afterwards |
| `Lists.List.FindPosition` | l5/arm/FreeRTOS/kernel/list.c:127-157 | the search is stopped by the end marker and finds the first larger value, also for the largest value of all |
| `Lists.List.NextOwner` | l5/arm/FreeRTOS/kernel/include/list.h:190-201 | the walk returns the first item of the ring, turns the ring by one and skips the end marker |
| `Lists.List.HeadOwner` | l5/arm/FreeRTOS/kernel/include/list.h:204-220 | the head is the first item in list order |
| `Lists.Remove` | l5/arm/FreeRTOS/kernel/list.c:170-189 | found through its container, the item is deleted from list order and from walk order, even when the index stood on it |
| `Lists.InsertThenRemove` | l5/arm/FreeRTOS/kernel/list.c:113-189 | putting an item in and taking it out again restores the list, at every position |
| `Lists.UnwalkedOrder` | l5/arm/FreeRTOS/kernel/list.c:90-111 | a list that is never walked has one order: appending puts at its end |
| `ListOrder.RoundRobin` | l5/arm/FreeRTOS/kernel/include/list.h:172-201 | fairness over all runs of walk, append and delete: between two selections of one member every other one that stays is selected |
| `ListOrder.ArrivalKeepsOrder` | l5/arm/FreeRTOS/kernel/list.c:113-167 | an arrival goes behind all that are no worse and in front of all that are worse |
| `ListOrder.HeadIsBestWaiter` | l5/arm/FreeRTOS/kernel/list.c:113-189 | over all runs the list is sorted and stable, so its head has the least value and came first among equals |
| `Items.UnblockAllEffect` | l5/arm/FreeRTOS/kernel/tasks.c:258-263 | tasks readied one after another go to the ends of the lists of their priorities in the order given; containers and lists agree |
| `Items.UnblockPrefix` | l5/arm/FreeRTOS/kernel/tasks.c:285-318 | readying the first tasks of a delayed list leaves the rest in order and the other delayed list alone |
| `Invariant.EmptyAtWrap` | l5/arm/FreeRTOS/kernel/tasks.c:1513-1516 | the assertion holds: when the tick count wraps the current delayed list is empty |
| `Invariant.DueMembers` | l5/arm/FreeRTOS/kernel/tasks.c:285-318 | the prefix that is readied holds exactly the tasks whose wake value has been reached |
| `Invariant.CheckDelayedReadies` | l5/arm/FreeRTOS/kernel/tasks.c:274-324 | the cached unblock time only saves work: whenever it suppresses the loop nothing was due |
| `Invariant.CheckDelayedKeeps` | l5/arm/FreeRTOS/kernel/tasks.c:274-324 | placement, order of both delayed lists and the cached unblock time are right after the loop |
| `Invariant.TickKeepsCore` | l5/arm/FreeRTOS/kernel/tasks.c:1503-1549 | a tick, suspended or not, wrapping or not, keeps the whole invariant |
| `Invariant.SwitchSelectsHighest` | l5/arm/FreeRTOS/kernel/tasks.c:1700-1709 | the search ends at the highest non-empty list, the task chosen is ready, of maximal priority and first in its ring, which turns by one |
| `Fairness.SharesAreEqual` | l5/arm/FreeRTOS/kernel/tasks.c:1700-1709 | over every run of the scheduler: between two selections of a task of a level, every other task continuously ready on that level is selected |
| `Invariant.SwitchKeepsCore` | l5/arm/FreeRTOS/kernel/tasks.c:1665-1714 | a switch, or one refused because the scheduler is suspended, keeps the invariant |
| `Invariant.ResumedKeepsCore` | l5/arm/FreeRTOS/kernel/tasks.c:1172-1246 | the outermost resume drains the pending list, processes every missed tick and keeps the invariant; clock plus missed ticks is unchanged |
| `Invariant.DelayKeepsCore` | l5/arm/FreeRTOS/kernel/tasks.c:728-767 | blocking for a time keeps placement, order, times and counts |
| `Invariant.PlaceOnEventListKeepsCore` | l5/arm/FreeRTOS/kernel/tasks.c:1717-1762 | blocking on an event keeps placement, order, times and counts |
| `Lifecycle.WakeReadies` | l5/arm/FreeRTOS/kernel/tasks.c:1816-1825 | with the scheduler free, waking a waiter is readying exactly the head of the event list |
| `Lifecycle.RemoveFromEventListKeepsCore` | l5/arm/FreeRTOS/kernel/tasks.c:1799-1847 | waking keeps the invariant, into the ready list or, while suspended, into the pending list |
| `Lifecycle.CreateKeepsCore` | l5/arm/FreeRTOS/kernel/tasks.c:519-560 | a new task goes to the end of the list of its capped priority and the task count goes up by one; the invariant, that the count is the number of tasks among it, is kept |
| `Lifecycle.CreateChoosesBest` | l5/arm/FreeRTOS/kernel/tasks.c:522-549 | until the scheduler runs the current task is the best one created so far, the last of them among equals |
| `Lifecycle.StartKeepsCore` | l5/arm/FreeRTOS/kernel/tasks.c:1088-1138 | starting creates the idle task with priority 0, last in the list of level 0, and the scheduler runs from tick 0; the invariant is kept |
| `Lifecycle.DeleteKeepsCore` | l5/arm/FreeRTOS/kernel/tasks.c:597-648 | a deleted task goes to the end of the termination list and is in no other list, event lists included; the invariant is kept |
| `Lifecycle.ReapKeepsCore` | l5/arm/FreeRTOS/kernel/tasks.c:2103-2136 | the first task of the termination list, and no other, is freed; both counts stay equal to the populations, without underflow |
| `Lifecycle.InheritKeepsCore` | l5/arm/FreeRTOS/kernel/tasks.c:2409-2437 | inheritance keeps every ready task in the list of its priority, below the top ready priority |
| `Lifecycle.DisinheritKeepsCore` | l5/arm/FreeRTOS/kernel/tasks.c:2443-2462 | so does giving the priority back, of a task that is at its base priority or waits for no event, running or not |
| `Lifecycle.DisinheritExact` | l5/arm/FreeRTOS/kernel/tasks.c:2443-2462 | for any living task the lists are in order after it exactly if the task is at its base priority or waits for no event |
| `Runs.BootConsistent` | l5/arm/FreeRTOS/kernel/tasks.c:2071-2101 | the initial state satisfies the invariant |
| `Runs.ApplyConservesTicks` | l5/arm/FreeRTOS/kernel/tasks.c:1164-1246 | every step counts a tick interrupt once, as processed or as missed, and leaves no miss behind with the scheduler free |
| `Runs.ApplyKeepsConsistent` | l5/arm/FreeRTOS/kernel/tasks.c:1164-1246 | every kernel call and interrupt keeps the invariant |
| `Runs.ApplyKeepsBased` | l5/arm/FreeRTOS/kernel/tasks.c:2409-2462 | no priority is ever below the base priority |
| `Runs.RunKeepsConsistent` | l5/arm/FreeRTOS/kernel/tasks.c:1164-1552 | over every run: placement, order, times, counts, and processed plus missed ticks equal tick interrupts |
| `Delays.WakeTimeIsFuture` | l5/arm/FreeRTOS/kernel/tasks.c:2138-2161 | an entry of the current list wakes in this epoch and later than now, one of the other list in the next epoch |
| `Delays.QueueSorted` | l5/arm/FreeRTOS/kernel/tasks.c:2138-2161 | the two lists together are one queue in order of absolute wake-up time |
| `Delays.TickRefinesQueue` | l5/arm/FreeRTOS/kernel/tasks.c:1503-1549 | a processed tick takes off the head of that queue exactly the tasks due at that time, across the wrap |
| `Delays.DelayRefinesQueue` | l5/arm/FreeRTOS/kernel/tasks.c:2138-2161 | a delay inserts into that queue at the absolute time now + n, behind equal times |
| `Delays.CachedTimeIsExact` | l5/arm/FreeRTOS/kernel/tasks.c:285-318 | a check that is not suppressed and a wrap leave the cached unblock time that of the first delayed task; a delay lowers it exactly if it wakes earlier and before the wrap |
| `Wakeups.SleepsUntilDue` | l5/arm/FreeRTOS/kernel/tasks.c:274-324 | over every run a sleeping task, unless it is deleted or a mutex that it holds is given back for it, is in no ready list before its time |
| `Wakeups.DelayIsExact` | l5/arm/FreeRTOS/kernel/tasks.c:728-767 | under the same conditions a task that delays by n is readied by the step that processes the n-th tick from then, no earlier and no later |
| `Wakeups.ForeignGiveWakes` | l5/arm/FreeRTOS/kernel/tasks.c:2443-2462 | giving a mutex back for a sleeping holder leaves it asleep exactly if it has inherited nothing |
| `Wakeups.MissedYieldHonoured` | l5/arm/FreeRTOS/kernel/tasks.c:1667-1672 | a switch asked for while suspended takes effect at the outermost resume: then a ready task of maximal priority runs |
| `Wakeups.ResumeHonours` | l5/arm/FreeRTOS/kernel/tasks.c:1234-1239 | a resume with a yield outstanding ends with a ready task of maximal priority running |
| `Wakeups.ResumeKeepsHighest` | l5/arm/FreeRTOS/kernel/tasks.c:1195-1240 | the yield conditions are enough: if nothing ready outranked the running task before the outermost resume, nothing does after it |
| `Resumes.ResumeIsExact` | l5/arm/FreeRTOS/kernel/tasks.c:1196-1239 | the outermost resume turns the highest ring and runs its first task exactly if a switch was asked for, a tick was missed or a task that does not rank below the running one is pending; otherwise the running task goes on and no ring turns |
| `Resumes.QuietResume` | l5/arm/FreeRTOS/kernel/tasks.c:1172-1246 | with nothing pending, missed or asked for, the outermost resume leaves everything else as it is |
| `Resumes.EqualPriorityYields` | l5/arm/FreeRTOS/kernel/tasks.c:1205-1210 | a pending task of the running task's own priority makes it yield |
| `Resumes.SuspendThenResume` | l5/arm/FreeRTOS/kernel/tasks.c:1164-1246 | suspending and resuming with nothing in between is the identity |
| `Resumes.SuspendedStandsStill` | l5/arm/FreeRTOS/kernel/tasks.c:1503-1549 | over every run of interrupts, switches and inner suspensions: while suspended the same task runs, nobody becomes ready, the tick count stands still, and each tick is kept |
| `Timeouts.CheckIsExact` | l5/arm/FreeRTOS/kernel/tasks.c:1858-1902 | for any two times: expiry is reported exactly if the ticks have elapsed, except when a whole turn of the count went unnoticed, and otherwise the wait is re-armed to the same deadline |
| `Timeouts.CheckWithinTurn` | l5/arm/FreeRTOS/kernel/tasks.c:1858-1902 | within one turn of the count the check is exact across the wrap |
| `Timeouts.TurnMissedExample` | l5/arm/FreeRTOS/kernel/tasks.c:1877-1895 | the exception is real: a concrete time-out that is over and is not reported |
| `Timeouts.BlockingCall` | l5/arm/FreeRTOS/kernel/queue.c:464-580 | the retry loop fails only when its ticks have passed since the first failed attempt, however often it was woken and beaten, and at the first check that finds them passed |
| `RingBuffer.QueueStorage.constructor` | l5/arm/FreeRTOS/kernel/queue.c:249-297 | a new queue is empty and unlocked, its pointers at slot 0 and at the last slot |
| `RingBuffer.QueueStorage.WriteBack` | l5/arm/FreeRTOS/kernel/queue.c:1105-1113 | send to back appends, and the write pointer stays at slot (read + 1 + count) modulo length |
| `RingBuffer.QueueStorage.WriteFront` | l5/arm/FreeRTOS/kernel/queue.c:1114-1122 | send to front prepends, and the read pointer stays one slot before the oldest item |
| `RingBuffer.QueueStorage.CopyDataToQueue` | l5/arm/FreeRTOS/kernel/queue.c:1088-1125 | any item size, also 0: the items are what they were with the new one at its end |
| `RingBuffer.QueueStorage.CopyDataFromQueue` | l5/arm/FreeRTOS/kernel/queue.c:1126-1138 | the bytes copied out are those of the oldest item |
| `RingBuffer.QueueStorage.TrySend` | l5/arm/FreeRTOS/kernel/queue.c:479-507 | a send succeeds exactly if there is room, and wakes the first receiver in line |
| `RingBuffer.QueueStorage.TryReceive` | l5/arm/FreeRTOS/kernel/queue.c:861-935 | a receive pops the oldest item and wakes a sender; a peek leaves the items and wakes the next receiver; an empty queue is left alone |
| `RingBuffer.QueueStorage.SendFromInterrupt` | l5/arm/FreeRTOS/kernel/queue.c:789-841 | an interrupt sends the same way, and on a locked queue counts the wake-up |
| `RingBuffer.QueueStorage.ReceiveFromInterrupt` | l5/arm/FreeRTOS/kernel/queue.c:996-1048 | and receives the same way |
| `RingBuffer.QueueStorage.LockQueue` | l5/arm/FreeRTOS/kernel/queue.c:229-241 | both locks are taken if they were free |
| `RingBuffer.QueueStorage.UnlockQueueTx` | l5/arm/FreeRTOS/kernel/queue.c:1148-1177 | the number of receivers woken is the smaller of the positive lock count and the number waiting; they are the first in line, the rest stay in line, and the lock is free |
| `RingBuffer.QueueStorage.UnlockQueueRx` | l5/arm/FreeRTOS/kernel/queue.c:1179-1200 | the same for senders |
| `QueueProtocol.SendInterruptKeeps` | l5/arm/FreeRTOS/kernel/queue.c:798-837 | an interrupt's item is matched by a woken task or a counted wake-up, whatever a blocking task is doing |
| `QueueProtocol.PlaceKeeps` | l5/arm/FreeRTOS/kernel/queue.c:531-539 | a task that queues after its second look misses nothing that came since it |
| `QueueProtocol.UnlockKeeps` | l5/arm/FreeRTOS/kernel/queue.c:1140-1201 | unlocking keeps what is there matched by wake-ups |
| `QueueProtocol.StepKeeps` | l5/arm/FreeRTOS/kernel/queue.c:464-580 | every critical section of tasks and interrupts keeps the invariant |
| `QueueProtocol.NoLostWakeUp` | l5/arm/FreeRTOS/kernel/queue.c:789-1048 | over all interleavings: with a receiver waiting, items are at most tasks woken and not yet back plus the lock count; likewise free slots and senders |
| `QueueProtocol.NobodyBlockedForNothing` | l5/arm/FreeRTOS/kernel/queue.c:846-993 | with nobody on the way and no task in the blocking section, no receiver waits on items and no sender on room |
| `QueueProtocol.DeletingWoken` | l5/arm/FreeRTOS/kernel/tasks.c:597-648 | deleting any task keeps the guarantee exactly if, for receivers and senders alike, the task was not woken, or nobody else waits, or a wake-up is to spare |
| `QueueProtocol.Stranded` | l5/arm/FreeRTOS/kernel/queue.c:846-993 | where there are more items than woken receivers, there is a run in which all of them take theirs and a receiver stays blocked on the items left |
| `QueueProtocol.DeletingWokenExample` | l5/arm/FreeRTOS/kernel/tasks.c:597-648 | a run from a new queue in which a deletion loses a wake-up: a task stays blocked on an item |
| `QueueProtocol.RunConserves` | l5/arm/FreeRTOS/kernel/queue.c:249-297 | over all interleavings items are conserved, and with sends to the back received in the order sent |
| `QueueWakeUps.FirstReceiversAreWoken` | l5/arm/FreeRTOS/kernel/queue.c:789-841 | in every step those woken to receive are the first in line, the others keep their places, and the tasks on their way are those woken before and not back, and those woken now |
| `QueueWakeUps.FirstSendersAreWoken` | l5/arm/FreeRTOS/kernel/queue.c:996-1048 | the same for those woken to send |
| `QueueWakeUps.UnlockWakes` | l5/arm/FreeRTOS/kernel/queue.c:1140-1201 | an unlock wakes the smaller of the wake-ups counted and the tasks waiting, and leaves nothing counted |
| `QueueWakeUps.NoNeedlessWakeUp` | l5/arm/FreeRTOS/kernel/queue.c:789-1201 | over all interleavings: tasks woken to receive are at most the items put in and the peeks that found one, tasks woken to send at most the items taken out |
| `QueueWakeUps.AttemptsAnswer` | l5/arm/FreeRTOS/kernel/queue.c:479-507 | a send with room goes to the end asked for, a receive takes the first item, a peek none; whoever is refused changes no item, and only a patient task is going to block |
| `QueueWakeUps.SecondLookIsExact` | l5/arm/FreeRTOS/kernel/queue.c:531-539 | after the second look the task may queue exactly if the queue is still full, or empty, for it |
| `QueueWakeUps.LinesChange` | l5/arm/FreeRTOS/kernel/queue.c:538-540 | queueing puts the task in its own line at its place; a time-out takes it out and nobody else |
| `QueueWakeUps.NotQueueingComesOut` | l5/arm/FreeRTOS/kernel/queue.c:562-580 | a task whose time is up, or that finds something at its second look, comes out with the queue unlocked and the counted wake-ups handed out |
| `EventOrder.EventsShrink` | l5/arm/FreeRTOS/kernel/tasks.c:1799-1847 | only a task that blocks enters an event list; all other steps keep the order of those who stay |
| `EventOrder.StepKeepsOrder` | l5/arm/FreeRTOS/kernel/tasks.c:1729 | every step keeps the event lists in priority order and event values equal to ranks, as long as no queued task inherits |
| `EventOrder.HighestWaiterIsWoken` | l5/arm/FreeRTOS/kernel/tasks.c:1799-1847 | over every such run an event wakes a waiter of the highest priority, ready or pending, and asks for a yield exactly if some waiter does not rank below the caller |
| `EventOrder.FirstComeFirstWoken` | l5/arm/FreeRTOS/kernel/tasks.c:1726-1729 | a task that queues later without outranking stands behind, as long as both wait |
| `EventOrder.QueuedInheritExact` | l5/arm/FreeRTOS/kernel/tasks.c:2415-2418 | inheritance by a queued task keeps its list in order exactly if nobody ahead of it ranks below its new priority |
| `EventOrder.QueuedInheritExample` | l5/arm/FreeRTOS/kernel/tasks.c:2415-2418 | a concrete state in which it does not, and a lower-priority waiter is woken first |
| `Mutexes.InheritSeesHolder` | l5/arm/FreeRTOS/kernel/queue.c:958-971 | the inherit call is never handed NULL, and its task is alive |
| `Mutexes.PriorityAfter` | l5/arm/FreeRTOS/kernel/tasks.c:2409-2462 | what every step does to the priority of every existing task |
| `Mutexes.HappenKeepsValid` | l5/arm/FreeRTOS/kernel/queue.c:877-888 | whoever takes and gives, the idle task included: a mutex is there exactly if it has no holder, and holders are live tasks |
| `Mutexes.HolderMayGive` | l5/arm/FreeRTOS/kernel/queue.c:1092-1101 | a give by the holder itself always leaves the lists in order |
| `MutexWaiters.GiveWakesTheFirst` | l5/arm/FreeRTOS/kernel/queue.c:488-500 | giving back a taken mutex frees it and wakes exactly the first waiter, which is then ready at its priority, or pending; the others keep their order |
| `MutexWaiters.GiveRefused` | l5/arm/FreeRTOS/kernel/queue.c:479-482 | giving a mutex that is there changes nothing |
| `MutexWaiters.TakeIsExact` | l5/arm/FreeRTOS/kernel/queue.c:861-888 | a task gets the mutex exactly if it is there, and nothing else changes |
| `MutexWaiters.WaitQueuesExactly` | l5/arm/FreeRTOS/kernel/queue.c:952-971 | at its second look the task queues and blocks exactly if the mutex is still taken; those in line before keep their order |
| `MutexWaiters.BlockSleeps` | l5/arm/FreeRTOS/kernel/tasks.c:1717-1762 | a task that blocks on an event sleeps until the time that it gave |
| `Mutexes.ForeignGiveExample` | l5/arm/FreeRTOS/kernel/queue.c:1092-1101 | a state that satisfies the invariant in which another task gives a mutex back for its queued holder, and the lists are out of order after it |
| `Mutexes.DeletingHolder` | l5/arm/FreeRTOS/kernel/tasks.c:597-648 | deleting a task leaves every mutex with a live holder or none exactly if the task holds none |
| `Mutexes.RunKeepsInv` | l5/arm/FreeRTOS/kernel/queue.c:302-344 | over every disciplined run: one mutex to a task at most, and equality of priority and base priority for tasks that hold none |
| `Mutexes.MutexesFromBoot` | l5/arm/FreeRTOS/kernel/tasks.c:2071-2101 | in every state that a disciplined run from boot reaches a mutex is gone exactly if a living task holds it, no holder is below its base priority, and a task that holds none is at it |
| `Mutexes.HolderIsBoosted` | l5/arm/FreeRTOS/kernel/queue.c:958-971 | from when a task queues until the holder gives the mutex back, the holder runs at the waiter's priority at least |
| `Mutexes.GivingOneOfTwo` | l5/arm/FreeRTOS/kernel/queue.c:1092-1101 | for a task with two mutexes: giving one back keeps the boost owed for the other exactly if its base priority suffices |
| `Mutexes.GivingOneOfTwoExample` | l5/arm/FreeRTOS/kernel/queue.c:1092-1101 | a concrete state in which the holder of a mutex drops below its waiter |
| `RecursiveMutex.StepKeeps` | l5/arm/FreeRTOS/kernel/queue.c:351-433 | every step of a recursive take or give, interleaved in any way, keeps the invariant |
| `RecursiveMutex.CallCountIsNesting` | l5/arm/FreeRTOS/kernel/queue.c:351-433 | over all runs: gone from the queue exactly if held, and the call count is the holder's unfinished takes, one behind inside a first take |
| `RecursiveMutex.NestingIsBalance` | l5/arm/FreeRTOS/kernel/queue.c:363-427 | unfinished takes are takes less gives |
| `RecursiveMutex.HeldUntilBalanced` | l5/arm/FreeRTOS/kernel/queue.c:375-380 | no other task gets the mutex until the holder has given it as often as it took it |
| `RecursiveMutex.StrangersChangeNothing` | l5/arm/FreeRTOS/kernel/queue.c:363-391 | over every run in which the holder does nothing, whatever others take and give: it stays the holder, with the call count and the nesting of every task as they were |
| `RecursiveMutex.TakesAndGivesNest` | l5/arm/FreeRTOS/kernel/queue.c:351-433 | n + 1 takes of a free mutex by a task give it with that call count, and as many gives leave it free again |
| `RecursiveMutex.GivingUp` | l5/arm/FreeRTOS/kernel/queue.c:408-427 | whoever gives up waiting has changed nothing |
| `SchedulerClass.Scheduler.CheckDelayedTasks` | l5/arm/FreeRTOS/kernel/tasks.c:274-324 | the loop ends and does to the whole state what the operation on values does |
| `SchedulerClass.Scheduler.IncrementTick` | l5/arm/FreeRTOS/kernel/tasks.c:1503-1552 | the same for the tick, with the wrap and the swap of lists in place |
| `SchedulerClass.Scheduler.SwitchContext` | l5/arm/FreeRTOS/kernel/tasks.c:1665-1714 | the same for the switch, refused or not |
| `SchedulerClass.Scheduler.FindHighest` | l5/arm/FreeRTOS/kernel/tasks.c:1701-1705 | the search loop ends without underflow at the highest non-empty list at or below where it began |
| `SchedulerClass.Scheduler.DrainPending` | l5/arm/FreeRTOS/kernel/tasks.c:1196-1211 | the drain loop ends with every pending task readied in order, and finds whether one does not rank below the current task |
| `SchedulerClass.Scheduler.CatchUpTicks` | l5/arm/FreeRTOS/kernel/tasks.c:1216-1222 | the second loop ends with every missed tick processed |
| `SchedulerClass.Scheduler.ResumeAll` | l5/arm/FreeRTOS/kernel/tasks.c:1172-1246 | the whole resume, with the yield it makes and the answer it gives |
| `SchedulerClass.Scheduler.AddCurrentTaskToDelayedList` | l5/arm/FreeRTOS/kernel/tasks.c:2138-2161 | the choice of list, the sorted insertion and the cached unblock time |
| `SchedulerClass.Scheduler.PlaceOnEventList` | l5/arm/FreeRTOS/kernel/tasks.c:1717-1762 | sorted insertion into the event list, then the move to a delayed list |
| `SchedulerClass.Scheduler.TaskDelay` | l5/arm/FreeRTOS/kernel/tasks.c:728-767 | the whole call: suspension, delay, resume and the yield that one of them makes |
| `SchedulerClass.Scheduler.RemoveFromEventList` | l5/arm/FreeRTOS/kernel/tasks.c:1799-1847 | the removal of the head waiter and the answer about its priority |
| `SchedulerClass.Scheduler.GenericCreate` | l5/arm/FreeRTOS/kernel/tasks.c:519-591 | creation, with the yield if the new priority is higher |
| `SchedulerClass.Scheduler.StartScheduler` | l5/arm/FreeRTOS/kernel/tasks.c:1088-1138 | creation of the idle task and the start of the count |
| `SchedulerClass.Scheduler.Delete` | l5/arm/FreeRTOS/kernel/tasks.c:597-648 | deletion, with the yield if the task deletes itself |
| `SchedulerClass.Scheduler.FreeTerminated` | l5/arm/FreeRTOS/kernel/tasks.c:2117-2125 | the first terminated task is freed; the idle task never frees itself |
| `SchedulerClass.Scheduler.PriorityInherit` | l5/arm/FreeRTOS/kernel/tasks.c:2409-2437 | inheritance in place |
| `SchedulerClass.Scheduler.PriorityDisinherit` | l5/arm/FreeRTOS/kernel/tasks.c:2443-2462 | disinheritance in place |
| `SchedulerClass.Scheduler.CheckForTimeOut` | l5/arm/FreeRTOS/kernel/tasks.c:1858-1902 | the time-out check on the variables of the kernel is the check on its unbounded clock |
| `Timers.ClassifyIsExact` | l5/arm/FreeRTOS/kernel/timers.c:452-491 | for any two times: the verdict (due, this epoch, next epoch) is right exactly if the tick of the command has been sampled and either less than a turn of the count ago or with counts a period apart |
| `Timers.ClassifyWithinTurn` | l5/arm/FreeRTOS/kernel/timers.c:452-491 | so within a turn: process now exactly if the expiry has passed, else the list of the epoch it lies in |
| `Timers.StaleVerdictExample` | l5/arm/FreeRTOS/kernel/timers.c:458-472 | an expiry looked at 7 ticks late that is taken for one of the next epoch |
| `Timers.ProcessExpiredFires` | l5/arm/FreeRTOS/kernel/timers.c:294-328 | an expired timer is called once for its due time and its next expiry is in a list or on its way in the queue |
| `Timers.SwitchRoundFires` | l5/arm/FreeRTOS/kernel/timers.c:582-616 | so is one that is called during a switch of the lists |
| `Timers.SwitchRoundMeasure` | l5/arm/FreeRTOS/kernel/timers.c:582-616 | each round of the switch brings the list nearer to the end of the epoch, so the loop ends |
| `Timers.SampleSound` | l5/arm/FreeRTOS/kernel/timers.c:429-449 | sampling the time switches the lists exactly when the epoch has changed, and the lists are right for the new one |
| `Timers.StartFires` | l5/arm/FreeRTOS/kernel/timers.c:524-539 | a START that comes too late calls the callback and carries the expiry on |
| `Timers.StepKeeps` | l5/arm/FreeRTOS/kernel/timers.c:493-563 | every step of the daemon keeps the lists sound and every tracked timer tracked, a START being processed where `TimerCommands.StartExact` says it may |
| `Timers.StartTracks` | l5/arm/FreeRTOS/kernel/timers.c:524-539 | tracking begins when a timer at rest is started |
| `Timers.RunTracks` | l5/arm/FreeRTOS/kernel/timers.c:330-352 | over every run: calls for start + period, start + 2 * period, ... once each, without drift or loss, and exactly one expiry to come |
| `TimerPromises.AllDueFired` | l5/arm/FreeRTOS/kernel/timers.c:354-400 | once the queue is empty and the head has not expired, every expiry up to the sampled time has been called for |
| `TimerCatchUp.LookCallsTheHead` | l5/arm/FreeRTOS/kernel/timers.c:354-375 | without a switch of the lists a look makes exactly one call, for the head, if the head is due, and otherwise none |
| `TimerCatchUp.PassesLeaveNothingDue` | l5/arm/FreeRTOS/kernel/timers.c:330-352 | at one time of the clock, as many passes of the loop as entries are due leave the queue empty and no head expired |
| `TimerCatchUp.EverythingDueIsCalled` | l5/arm/FreeRTOS/kernel/timers.c:330-375 | from any state with nothing a whole turn late some number of passes calls a tracked timer for every expiry up to the time of the clock |
| `TimerPromises.RunNotEarly` | l5/arm/FreeRTOS/kernel/timers.c:354-400 | over such a run no callback is called before its expiry |
| `TimerPromises.SampleExact` | l5/arm/FreeRTOS/kernel/timers.c:429-449 | for any two times: a sample leaves both lists to the right epochs exactly if it is less than a turn after the last or nothing is left in them |
| `TimerCommands.StartExact` | l5/arm/FreeRTOS/kernel/timers.c:511-539 | processing a START keeps the lists sound and calls nobody early exactly if its tick has been sampled, and less than a turn ago or with counts a period apart |
| `TimerCommands.StaleStartExample` | l5/arm/FreeRTOS/kernel/timers.c:511-539 | a run with no two samples a turn apart that puts an expiry of 18, at 25, into the list of the epoch from 32 on |
| `TimerCommands.CommandProgress` | l5/arm/FreeRTOS/kernel/timers.c:493-563 | whatever ticks the commands carry, each round of the loop leaves less to do, so the loop ends |
| `TimerCommands.EmptyQueueTracks` | l5/arm/FreeRTOS/kernel/timers.c:493-563 | if the STARTs in the queue carry ticks sampled less than a turn ago, emptying it keeps the lists sound and every tracked timer tracked |
| `TimerCommands.StartCalls` | l5/arm/FreeRTOS/kernel/timers.c:524-539 | a START alone in the queue calls an auto-reload timer once for each period that the counts show it to be behind, whether it is or not |
| `TimerCommands.EarlyBurst` | l5/arm/FreeRTOS/kernel/timers.c:502-539 | a START posted during the loop with a tick c after the sampled time n: (n + M - c) / P calls at once, each before its time |
| `TimerCommands.EarlyBurstExample` | l5/arm/FreeRTOS/kernel/timers.c:502-539 | a daemon at time 5 that calls a timer of period 3, started at 6, for 9, 12, 15, 18 and 21 |
| `TimerLoop.NextKeepsInv` | l5/arm/FreeRTOS/kernel/timers.c:330-400 | from a bound on how late the daemon is: every message in its queue, its own STARTs among them, is processed in time |
| `TimerLoop.PunctualLoopTracks` | l5/arm/FreeRTOS/kernel/timers.c:330-352 | so over every run of the loop against the clock within these bounds tracked timers stay tracked and nobody is called early |
| `TimerPromises.SwitchInOrder` | l5/arm/FreeRTOS/kernel/timers.c:566-621 | the callbacks of a switch are called in the order of the expiries |
| `TimerPromises.SwitchCalls` | l5/arm/FreeRTOS/kernel/timers.c:566-621 | a one-shot timer is called once, an auto-reload timer due at v with period P (M - 1 - v) / P + 1 times, leaving one START with its last expiry |
| `TimerPromises.RestartTracks` | l5/arm/FreeRTOS/kernel/timers.c:511-539 | a START or reset of a timer, running or not, makes it tracked from the time of the command, if no message for it waits behind |
| `TimerPromises.NewPeriodTracks` | l5/arm/FreeRTOS/kernel/timers.c:546-550 | so does a change of period, from the time at which it is processed |
| `TimerStops.RestIsQuiet` | l5/arm/FreeRTOS/kernel/timers.c:493-563 | over every run a timer at rest is not called and stays at rest until a START or a new period is posted for it |
| `TimerStops.SwitchLoopSends` | l5/arm/FreeRTOS/kernel/timers.c:582-616 | a switch of the lists sends a START for each auto-reload timer of the old list, and for nobody else |
| `TimerStops.StopStops` | l5/arm/FreeRTOS/kernel/timers.c:541-557 | over every run from when a STOP or DELETE is posted until it is taken: it brings the timer to rest exactly if the daemon was not late for the timer in between |
| `TimerStops.StoppedIsQuiet` | l5/arm/FreeRTOS/kernel/timers.c:541-544 | so a timer stopped in time is not called again until somebody starts it |
| `TimerStops.StopIsLost` | l5/arm/FreeRTOS/kernel/timers.c:309-323 | a run of a late daemon that puts a START behind the STOP: the stopped timer is called again and goes on |
| `TimerDaemon.TimerService.InsertTimerInActiveList` | l5/arm/FreeRTOS/kernel/timers.c:452-491 | the decision and the insertion in place |
| `TimerDaemon.TimerService.ProcessExpiredTimer` | l5/arm/FreeRTOS/kernel/timers.c:294-328 | the head timer's expiry in place |
| `TimerDaemon.TimerService.SwitchTimerLists` | l5/arm/FreeRTOS/kernel/timers.c:566-621 | the loop ends and the lists change places |
| `TimerDaemon.TimerService.SampleTimeNow` | l5/arm/FreeRTOS/kernel/timers.c:429-449 | the wrap is seen from two counts |
| `TimerDaemon.TimerService.ProcessTimerOrBlockTask` | l5/arm/FreeRTOS/kernel/timers.c:354-400 | without a switch of the lists the head timer, and nobody else, is called exactly if its expiry has been reached |
| `TimerDaemon.TimerService.ProcessReceivedCommands` | l5/arm/FreeRTOS/kernel/timers.c:493-563 | for any queue the loop ends with the queue empty and has processed the commands in turn; with STARTs sampled less than a turn ago tracked timers stay tracked |
| `Select.CallAttended` | l5/arm/FreeRTOS/lwip/api/sockets.c:908-957 | a call joins the list only with nothing ready below maxfdp1, under one hold of the lock |
| `Select.CallbackAttended` | l5/arm/FreeRTOS/lwip/api/sockets.c:1074-1091 | an event is set before the callback begins to look through the list |
| `Select.ScanAttended` | l5/arm/FreeRTOS/lwip/api/sockets.c:1101-1123 | a callback leaves its loop only when nobody is left to signal for its socket |
| `Select.StepSignalsOnce` | l5/arm/FreeRTOS/lwip/api/sockets.c:1105-1118 | no call is signalled twice |
| `Select.SelectMissesNoEvent` | l5/arm/FreeRTOS/lwip/api/sockets.c:887-1124 | over all interleavings: a listed call with an event on a socket of its sets below maxfdp1 was signalled, or a callback for that socket is still scanning |
| `Select.LeftoverExact` | l5/arm/FreeRTOS/lwip/api/sockets.c:859 | with no callback scanning, a listed call not signalled would find something ready exactly if data is left over on a socket that it reads, which comes without an event |
| `Select.LeftoverExample` | l5/arm/FreeRTOS/lwip/api/sockets.c:859 | a run in which data is left over and nobody signals the call |
| `Select.GoneIsQuiet` | l5/arm/FreeRTOS/lwip/api/sockets.c:971-985 | a call that has left the list is never signalled again |
| `SelectEvents.ReceiveEventsAreCounted` | l5/arm/FreeRTOS/lwip/api/sockets.c:1074-1091 | over every run: the receive events of a socket are those it began with, plus the RCVPLUS events for it, less the RCVMINUS events |
| `SelectEvents.LastSendCounts` | l5/arm/FreeRTOS/lwip/api/sockets.c:1074-1091 | over every run the send event of a socket is what the last send event for it says |
| `SelectEvents.LastLeftoverCounts` | l5/arm/FreeRTOS/lwip/api/sockets.c:608-617 | over every run a socket has data left over exactly if the last receive on it left some |
| `SelectEvents.ReadersAreSignalled` | l5/arm/FreeRTOS/lwip/api/sockets.c:1074-1123 | once a callback for new data has run through, whatever came in between, every listed call that reads the socket is signalled unless the data was used up |
| `SelectEvents.WritersAreSignalled` | l5/arm/FreeRTOS/lwip/api/sockets.c:1074-1123 | the same for calls that write, if no other send event came in between |
| `SelectEvents.SignalsAreDue` | l5/arm/FreeRTOS/lwip/api/sockets.c:1101-1118 | a look at the list signals only a call that waits for what is there |
| `SelectEvents.JoinsExactly` | l5/arm/FreeRTOS/lwip/api/sockets.c:908-957 | a call joins the list, in front and not signalled, exactly if nothing it asks for below maxfdp1 is there and it may wait |
| `SelectEvents.LeavesAlone` | l5/arm/FreeRTOS/lwip/api/sockets.c:971-985 | a call that returns is off the list and the others stay as they are |
| `Select.EnlistedExact` | l5/arm/FreeRTOS/lwip/api/sockets.c:842-880 | a call joins the list over an event that is there already exactly for sockets of its sets from maxfdp1 on |
| `Select.BeyondMaxfdp1` | l5/arm/FreeRTOS/lwip/api/sockets.c:1101-1112 | a concrete call left waiting for such a socket |
| `SocketTable.SelectState.SelScan` | l5/arm/FreeRTOS/lwip/api/sockets.c:842-880 | the loop finds exactly the ready sockets of the sets and counts them |
| `SocketTable.SelectState.ScanOrJoin` | l5/arm/FreeRTOS/lwip/api/sockets.c:908-957 | the first hold of the lock: scan, and join the list if nothing is ready |
| `SocketTable.SelectState.TakeOff` | l5/arm/FreeRTOS/lwip/api/sockets.c:971-985 | the walk takes exactly this call off the list |
| `SocketTable.SelectState.SignalOne` | l5/arm/FreeRTOS/lwip/api/sockets.c:1101-1122 | one look through the list signals the first call concerned, if there is one |
| `SocketTable.SelectState.EventCallback` | l5/arm/FreeRTOS/lwip/api/sockets.c:1037-1124 | the event counts up, counts down, sets or clears what it names and nothing else; the loop ends, and exactly those are signalled that were before or wait for what is there then |
| `Sha256Constants.FromPrimes` | l5/arm/sha256sum.c:9-22 | word i of the table is the first 32 bits of the fractional part of the cube root of the next prime after that of word i - 1, from 2 on (section 4.2.2 of FIPS 180-4) |
| `Sha256Constants.InitialFromPrimes` | l5/arm/sha256sum.c:119-126 | the initial hash value comes from the square roots of the first eight primes (section 5.3.3) |
| `Sha256Numbers.RorRotates` | l5/arm/sha256sum.c:40-43 | ror moves the lowest n bits in front, as the number x / 2^n + (x mod 2^n) * 2^(32 - n) (section 3.2) |
| `Sha256Numbers.BlockWordIsValue` | l5/arm/sha256sum.c:63-64 | a word of a block is the number of its four bytes in big-endian order (section 3.1) |
| `Sha256Numbers.LengthFieldIsLength` | l5/arm/sha256sum.c:152 | the length field of the padding is the number of bits of the message, in big-endian order (section 5.1.1) |
| `Sha256Numbers.Uint32IsNumber` | l5/arm/sha256sum.c:152 | a 32-bit word made from a number stands for that number |
| `Sha256Answer.DigestOfAbc` | l5/arm/sha256sum.c:48-108 | the known answer: the digest of "abc" is ba7816bf ... f20015ad |
| `Sha256.ZeroBitsAreLeast` | l5/arm/sha256sum.c:131-150 | the padding of section 5.1.1 of FIPS 180-4: the least number of zero bits, which is whole bytes here |
| `Sha256.SwappedLoad` | l5/arm/sha256sum.c:27-35 | a little-endian load swapped is the big-endian word of section 3.1 |
| `Sha256.NextWordIs` | l5/arm/sha256sum.c:66-71 | the schedule word of the program is that of section 6.2.2, summed in another order |
| `Sha256.ExtendSchedule` | l5/arm/sha256sum.c:66-71 | the second loop completes the message schedule of section 6.2.2 |
| `Sha256.Turns` | l5/arm/sha256sum.c:73-98 | the 64 turns of section 6.2.2 |
| `Sha256.Sha256Chunk` | l5/arm/sha256sum.c:48-108 | one block takes the hash value on as section 6.2.2 says |
| `Sha256.HashTail` | l5/arm/sha256sum.c:131-154 | the copied rest, the end mark, the zeros and the length are the last one or two blocks of the padded message |
| `Sha256.Sha256Sum` | l5/arm/sha256sum.c:110-155 | for every size below 2^32 the blocks hashed are those of the message padded with the length field the program computes |
| `Sha256.PaddingIsStandard` | l5/arm/sha256sum.c:152 | that padding is the standard's exactly for messages of less than 2^29 bytes |
| `Sha256.Digest` | l5/arm/sha256sum.c:110-155 | for these the result is the SHA-256 digest |

## Left out

- The scheduler's lists as pointers: `scheduler.dfy`, `timer_daemon.dfy` and `ring_buffer.dfy` keep their lists as sequences, whose operations are those that `lists.dfy` proves of the heap structure; aliasing between lists is covered by the containers only.
- Runs.ApplyKeepsConsistent: `xNumOfOverflows`, the missed ticks and the task counts are unbounded, so a wrap of these counters is not modelled.
- Mutexes.HappenKeepsValid: the lock counts are left to `queue_protocol.dfy`; looking, inheriting and queueing are one step, because only interrupts can come in between and they do not touch mutexes.
- QueueProtocol.NoLostWakeUp: where in the line a task queues is left open here and settled in `event_order.dfy`; time-outs may strike any waiter whenever no task is in the blocking section.
- RingBuffer.QueueStorage.CopyDataToQueue: the mutex branch, which moves no bytes, is in `mutexes.dfy` and `recursive_mutex.dfy`.
- RingBuffer.QueueStorage.constructor: `xQueueCreate` of length 0 and failed allocation, which give NULL, are not modelled.
- Timeouts.BlockingCall: whether an attempt finds room or data is an input of the loop, and so are the times at which it looks at the clock.
- TimerDaemon.TimerService.ProcessReceivedCommands: no command arrives while the method runs; arrivals are steps of the runs in `timers.dfy` and `timer_loop.dfy`.
- Timers.RunTracks: a callback is an entry in a log; timers touched by callbacks other than through commands are not modelled.
- Select.SelectMissesNoEvent: data left over from a receive is no event, see `LeftoverExact`; allocation of sockets, the counting of early events in the socket number of a connection, the wrap of `rcvevent`, and changes of the caller's sets while it waits are not modelled.
- Sha256.Turns: `ror`, the Σ, Ch and Maj expressions are functions shared with the standard, since the program writes out the standard's own formulas; `RorRotates` and `DigestOfAbc` pin them.
- Counting semaphores: queues of item size 0 with another initial count.
- Context switching, critical-section macros, memory, stacks, trace buffers, hooks, names, run-time statistics.
- `vTaskSuspend`, `vTaskResume`, `vTaskPrioritySet`, `vTaskDelayUntil`: compiled out here.
- Co-routines, the alternative queue functions, the queue registry: disabled, and the same algorithms again.
- `vTaskPlaceOnEventListRestricted` and the blocking of the timer daemon on its queue: the daemon is its only waiter.
- The rest of `sockets.c`, `dns.c`, `api_lib.c` and their neighbours, and the board code: they rest on code that is not part of this model, or are register access.
