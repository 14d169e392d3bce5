# MLFQ scheduler of kernel_sched.c, modelled in Dafny

This project models the bookkeeping of the kernel scheduler in `kernel_sched.c`, a
multi-level feedback queue (MLFQ) scheduler for a small teaching operating system:

- the thread control blocks (TCBs) and their scheduling fields (`state`, `phase`,
  `priority`, `prev_priority`, `mutex_contention`, `wakeup_time`, `type`, `prev`, `next`);
- the `MFQ_QUEUES` = 15 FIFO ready queues `SCHED[0..14]`, scanned from level 0;
- `TIMEOUT_LIST`, the sleepers with a wakeup time, kept in ascending deadline order;
- the counters `timeslices` and `active_threads`;
- the operations `spawn_thread` and `release_TCB` (accounting only),
  `sched_register_timeout`, `sched_queue_add`, `sched_make_ready`,
  `sched_queue_select` (timeout drain, then scan), `sched_boost` (anti-starvation
  aging), `wakeup`, and the scheduling parts of `sleep_releasing`, `yield` and `gain`.

The scheduler operations run under `sched_spinlock` in the source. Each one is
modelled as an atomic step.

Files:

- `wrappers.dfy`: the `Option` datatype.
- `thread_control.dfy` (module `ThreadControl`):
  - the constants, the TCB record and the page rounding of `THREAD_TCB_SIZE`;
  - the priority policy that `yield` applies per cause.
- `queues.dfy` (module `Queues`): value-level queue operations and their lemmas:
  - sorted insertion into the timeout list;
  - removal from it;
  - the first non-empty level;
  - the boost of a level vector.
- `sched_spec.dfy` (module `SchedSpec`):
  - the scheduler state as a value, `SchedState`, and its invariant `Inv`;
  - one specification function per operation;
  - the lemmas that state what each operation guarantees.
- `scheduler.dfy` (module `Scheduler`): the class `Scheduler`, whose fields are the
  global state the C code updates in place.
  - `SCHED` is an `array` of queues.
  - Its methods carry the loops of the source: the sorted-insertion walk, the timeout
    drain, the level scan and the boost.
  - Each method ensures `State() == F(old(State()))` for its specification function
    `F`, and keeps `Valid()`.

The invariant `Inv` states the following:

- there are exactly 15 levels;
- a thread in `SCHED[i]` exists, has `priority == i`, is READY and CTX_CLEAN, has no
  wakeup time, and is a normal thread (never the idle one);
- no level holds a thread twice. Since the priority names the level, a thread sits in
  at most one level, and never both in a level and in `TIMEOUT_LIST`;
- a thread is in `TIMEOUT_LIST` iff its `wakeup_time` is not NO_TIMEOUT, and then it
  is STOPPED;
- `TIMEOUT_LIST` has no duplicates and is sorted by deadline;
- every priority is below 15;
- the idle thread exists, is an IDLE_THREAD, and is RUNNING or READY;
- `active_threads` counts every TCB but the idle one.

On mutex contention (`SCHED_MUTEX`, `kernel_sched.c:434-441`) the code saves the
thread's priority in `prev_priority` and sets `mutex_contention`. Two lines are commented out:
`kernel_sched.c:439`, which would have set the priority to `MFQ_QUEUES-1`, and the `break`
at `kernel_sched.c:441`. So the case falls through to the quantum demotion, which moves the
thread one level towards `MFQ_QUEUES-1`. `YieldPolicy` follows the code and demotes by one
level on `SchedMutex`. `MutexBoostUndone` shows that the next yield for another cause
restores the saved priority exactly.

## Model

| member | source | states |
|---|---|---|
| ThreadControl.ThreadTcbSize | kernel_sched.c:57 | the TCB area is a whole number of pages, at least the TCB size and less than one page more |
| ThreadControl.SpawnedTcb | kernel_sched.c:136-145 | a new TCB's priority and saved priority are within the queue range |
| ThreadControl.YieldPolicy | kernel_sched.c:424-461 | only priority, prev_priority and mutex_contention change. Quantum and mutex causes demote by one, capped at level 14. User, pipe and I/O causes promote by one, capped at 0. The idle cause keeps the base priority. A first mutex yield saves the priority; a later non-mutex yield restores it and clears the saved value |
| ThreadControl.MutexBoostUndone | kernel_sched.c:424-447 | a mutex yield followed by a yield for another cause gives the same TCB as the second yield alone, apart from the cleared saved priority |
| Queues.NotLaterFrom | kernel_sched.c:249-253 | the walk stops at the first entry whose deadline is later than the new one; every entry it skips is due no later |
| Queues.InsertFromSplits | kernel_sched.c:249-254 | insertion splices the thread in at the stopping point of the walk |
| Queues.NotLaterSplits | kernel_sched.c:249-253 | on a sorted list, the entries before the stopping point are all due by the deadline and none after it is |
| Queues.InsertByDeadlineSorted | kernel_sched.c:239-255 | sorted insertion keeps the timeout list sorted and adds exactly the new thread (multiset) |
| Queues.InsertByDeadlineNoDup | kernel_sched.c:239-255 | inserting a thread not yet listed keeps the list free of duplicates and adds exactly that thread |
| Queues.IndexOf | kernel_sched.c:286 | the position found holds the thread and is its first occurrence |
| Queues.RemovedKeepsOrder | kernel_sched.c:283-287 | unlinking a listed thread removes exactly it, keeps the list duplicate-free and sorted, and drops the front when the thread is the front |
| Queues.FirstNonEmptyFrom | kernel_sched.c:318-324 | the scan yields the lowest non-empty level at or after its start, and nothing iff all those levels are empty |
| Queues.BoostedUpToEnds | kernel_sched.c:331-339 | the boost loop starts from the unchanged levels and ends at the boosted levels |
| Queues.BoostedUpToStep | kernel_sched.c:333-338 | one loop step moves the front of level i+1 to the back of level i, or does nothing if level i+1 is empty |
| Queues.BoostedPermutes | kernel_sched.c:329-340 | the boost keeps the number of levels and the multiset of queued threads |
| Queues.LevelSplits | kernel_sched.c:333-338 | a level is its carried front followed by its kept rest; a boosted level is its kept rest followed by the front carried up from the next level |
| Queues.BoostedPrefix | kernel_sched.c:329-340 | the first k boosted levels hold the first k original levels plus the front carried up from level k |
| Queues.BoostedMoves | kernel_sched.c:333-338 | for a non-empty level j ≥ 1, its front ends at the back of level j-1 and the rest of level j keeps its order at the front |
| Queues.BoostedKeepsOrder | kernel_sched.c:331-339 | threads that stay in a level keep their order at its front and the level grows by at most one; level 0 keeps its whole queue, front included |
| SchedSpec.InitialState | kernel_sched.c:594-619 | the initial state satisfies the invariant, has nothing queued and no timeouts, zero counters, and only the idle thread, which is RUNNING |
| SchedSpec.QueuedAt | kernel_sched.c:263-270 | a queued thread sits in exactly one level, the one at its priority |
| SchedSpec.NotQueued | kernel_sched.c:550 | a thread that is not READY, not CTX_CLEAN, or idle is in no level |
| SchedSpec.SleepingState | kernel_sched.c:282-287 | a thread has a wakeup time iff it is in the timeout list, and then it is STOPPED |
| SchedSpec.SpawnKeepsInv | kernel_sched.c:129-165 | adding a fresh TCB and counting it keeps the invariant |
| SchedSpec.SpawnF | kernel_sched.c:129-165 | spawning keeps the invariant, increments active_threads and leaves the queues alone |
| SchedSpec.SpawnedThread | kernel_sched.c:136-145 | the new thread is a NORMAL_THREAD, INIT, CTX_CLEAN, priority 0, no contention and no timeout; it is queued nowhere, and every other TCB is unchanged |
| SchedSpec.ReleaseKeepsInv | kernel_sched.c:171-182 | releasing an unqueued, unlisted non-idle thread keeps the invariant, and active_threads was at least 1 |
| SchedSpec.ReleaseF | kernel_sched.c:171-182 | the TCB is gone, active_threads drops by one, and all other TCBs and all queues are unchanged |
| SchedSpec.QueueAddKeepsInv | kernel_sched.c:263-270 | appending an eligible thread to its level keeps the invariant and queues it |
| SchedSpec.QueueAddF | kernel_sched.c:263-270 | the thread is appended at the back of SCHED[priority]; that level's previous contents and every other level are unchanged |
| SchedSpec.UnsleepKeepsInv | kernel_sched.c:278-296 | making a STOPPED or INIT thread READY and unlinking it from the timeout list keeps the invariant |
| SchedSpec.MakeReadyF | kernel_sched.c:278-296 | the thread becomes READY with no timeout and leaves the timeout list. It is appended to its level iff CTX_CLEAN, and the levels are unchanged otherwise |
| SchedSpec.MadeReady | kernel_sched.c:278-296 | afterwards the thread is READY with no timeout and is not in the timeout list; it is queued iff its phase was CTX_CLEAN; the timeout list loses exactly that thread |
| SchedSpec.DrainF | kernel_sched.c:309-315 | the drain keeps the invariant, the set of threads and the counters |
| SchedSpec.DrainProjects | kernel_sched.c:309-315 | the drain of the whole state and the drain loop over the TCB map and the timeout list agree |
| SchedSpec.DrainListPrefix | kernel_sched.c:310-314 | the drain removes a prefix of the timeout list and stops at an entry due after the current time, or at the end |
| SchedSpec.DrainListThread | kernel_sched.c:309-315 | a thread's TCB either is unchanged or, if it was in the timeout list, is made READY; threads not listed are untouched |
| SchedSpec.DrainListWakes | kernel_sched.c:309-315 | every entry the drain removes was due by the current time and is READY afterwards |
| SchedSpec.DrainThread | kernel_sched.c:309-315 | the same per-thread fact for the drain of the whole state |
| SchedSpec.DrainListNotDue | kernel_sched.c:310-314 | the drain leaves alone a thread whose wakeup time is after now |
| SchedSpec.DrainStopped | kernel_sched.c:309-315 | a STOPPED thread is made READY by the drain iff it has a wakeup time that is not after now, and is left unchanged otherwise |
| SchedSpec.DrainStops | kernel_sched.c:312-313 | after the drain the timeout list is empty or its front is due after the current time |
| SchedSpec.DrainLeavesNoneDue | kernel_sched.c:309-315 | after the drain no entry left in the timeout list is due by the current time |
| SchedSpec.MakeReadyExtends | kernel_sched.c:294-295 | making a thread ready only appends to the levels |
| SchedSpec.DrainAppends | kernel_sched.c:309-315 | the drain only appends to the levels: each level keeps its previous contents as a prefix |
| SchedSpec.WokenAtReady | kernel_sched.c:291-295 | making a thread READY does not change which threads count as woken CLEAN threads of a priority |
| SchedSpec.DrainQueues | kernel_sched.c:309-315 | the drain removes a prefix of the timeout list, and each level p becomes its old contents followed by exactly the CLEAN threads of priority p in that prefix, in timeout-list order |
| SchedSpec.NoneDueExcludes | kernel_sched.c:312-313 | once the drain stops, no thread whose wakeup time has come is left in the timeout list |
| SchedSpec.PopKeepsInv | kernel_sched.c:320-322 | popping the front of a non-empty level keeps the invariant and leaves the popped thread unqueued |
| SchedSpec.PopFirst | kernel_sched.c:318-326 | the result is NULL iff all levels are empty, and then nothing changes. Otherwise it is the former front of the lowest non-empty level, whose priority is that level; it is removed from that level only and is no longer queued |
| SchedSpec.QueueSelectF | kernel_sched.c:305-327 | after selection no timeout entry is due. The result is NULL iff all levels are empty after the drain; otherwise it is the front of the lowest non-empty drained level, removed from it |
| SchedSpec.BoostTcbsStep | kernel_sched.c:333-338 | one boost step lowers by one the priority of the front thread of level i+1, which had priority i+1, and changes no other TCB |
| SchedSpec.BoostLoopAgrees | kernel_sched.c:331-339 | the priorities the loop produces step by step agree with the boost's TCB map |
| SchedSpec.BoostLoopFront | kernel_sched.c:336 | the thread the loop decrements still has priority i+1 when it is reached |
| SchedSpec.BoostedLevelOk | kernel_sched.c:329-340 | every boosted level is duplicate-free and holds only threads whose priority is that level |
| SchedSpec.BoostKeepsInv | kernel_sched.c:329-340 | the boost keeps the invariant, in particular priority == level index for every queued thread |
| SchedSpec.BoostF | kernel_sched.c:329-340 | the boost keeps the invariant, the set of threads, the timeout list and the counters |
| SchedSpec.BoostThread | kernel_sched.c:329-340 | a thread's priority drops by one iff it is the front of a level ≥ 1; no other field and no other thread changes |
| SchedSpec.YieldUpdate | kernel_sched.c:424-478 | the policy and state update keep the invariant and leave the current thread unqueued; the thread set, the levels, the timeout list and the counters are unchanged |
| SchedSpec.YieldPrepare | kernel_sched.c:424-484 | policy, state update and the conditional boost keep the invariant, the threads and the timeout list; the ready queues are Boosted exactly when timeslices has reached MFQ_TIMESLICES and are unchanged otherwise |
| SchedSpec.PrepareCurrent | kernel_sched.c:424-484 | the current TCB is the policy's result with RUNNING turned into READY; timeslices reset to 0 iff they had reached MFQ_TIMESLICES |
| SchedSpec.PrepareOthers | kernel_sched.c:480-484 | every other TCB is unchanged, except that when the boost fires the thread at the front of a level of priority at least 1 loses one priority |
| SchedSpec.SelectNext | kernel_sched.c:486-495 | the chosen thread exists, is unqueued and has no timeout; the current thread stays READY, STOPPED or EXITED |
| SchedSpec.YieldSelect | kernel_sched.c:424-495 | the same facts for preparation followed by selection |
| SchedSpec.SelectLeaves | kernel_sched.c:487 | selection makes the running thread READY iff it was STOPPED and its wakeup time is not after now; otherwise its TCB is unchanged |
| SchedSpec.LinksIrrelevant | kernel_sched.c:498-499 | changing only the prev and next links keeps the invariant |
| SchedSpec.SelectCurrent | kernel_sched.c:486-495 | selection keeps timeslices, wakes the prepared current thread iff it is STOPPED with a wakeup time not after now, and otherwise keeps its TCB |
| SchedSpec.Link | kernel_sched.c:497-499 | current.next is next and next.prev is current, and no scheduling field changes |
| SchedSpec.LinkedRecords | kernel_sched.c:498-499 | the two link writes set the links and keep every scheduling field of every TCB |
| SchedSpec.YieldF | kernel_sched.c:410-513 | yield leaves a state in which the chosen thread can gain, with its prev link set to the yielding thread |
| SchedSpec.YieldCurrent | kernel_sched.c:424-484 | yield gives the current thread the policy's priority and contention flag. RUNNING and READY become READY and EXITED stays EXITED. STOPPED ends READY iff its wakeup time is not after the selection's clock read, and stays STOPPED otherwise. Timeslices reset iff they had reached MFQ_TIMESLICES |
| SchedSpec.YieldChoice | kernel_sched.c:486-495 | next is the selected thread, which differs from current. If nothing was selected, next is current when current was RUNNING or READY, otherwise the idle thread. No timeout entry is left due |
| SchedSpec.SelectChoice | kernel_sched.c:486-495 | the same choice for preparation followed by selection |
| SchedSpec.LinkKeepsDeadlines | kernel_sched.c:498-499 | linking changes no deadline and not the timeout list |
| SchedSpec.SwitchOut | kernel_sched.c:544-562 | finalising the previous thread keeps the invariant, timeslices and every other TCB |
| SchedSpec.CleanKeepsInv | kernel_sched.c:546 | marking prev CTX_CLEAN keeps the invariant; a READY prev has no timeout, and an EXITED prev is not idle and not listed |
| SchedSpec.GainF | kernel_sched.c:528-571 | gain increments timeslices and makes current RUNNING and CTX_DIRTY; the timer length is priority+1 quanta |
| SchedSpec.Resume | kernel_sched.c:535-542 | the first half of gain changes only timeslices and the current TCB; prev is unchanged and unqueued |
| SchedSpec.GainPrev | kernel_sched.c:544-562 | prev is re-queued at the back of its level iff it is READY and not idle. It is released, with active_threads one lower, iff it is EXITED. A STOPPED prev becomes CTX_CLEAN and stays off the queues. A READY idle prev stays, becomes CTX_CLEAN and is not queued. Nothing happens when prev is current |
| SchedSpec.TimeoutsAddOk | kernel_sched.c:239-255 | inserting a STOPPED thread with its new wakeup time keeps the timeout list valid |
| SchedSpec.RegisterKeepsInv | kernel_sched.c:239-255 | registering a timeout keeps the invariant |
| SchedSpec.RegisterTimeoutF | kernel_sched.c:239-255 | NO_TIMEOUT changes nothing; otherwise wakeup_time becomes now + timeout and the thread is inserted by deadline |
| SchedSpec.RegisterTimeoutPlace | kernel_sched.c:239-255 | the thread is spliced in after every entry due by its deadline, equal deadlines included, and before every later one; the list gains exactly that thread |
| SchedSpec.WakeupF | kernel_sched.c:345-367 | wakeup returns 1 iff the thread was STOPPED or INIT, and the thread is then READY and off the timeout list; it returns 0 otherwise and changes nothing. A successful wakeup is exactly MakeReadyF, so the queue placement of MadeReady applies |
| SchedSpec.StopF | kernel_sched.c:388 | sleeping sets only the current thread's state |
| SchedSpec.SleepUpdate | kernel_sched.c:387-392 | the state write and timeout registration keep the invariant and the thread set |
| SchedSpec.RegisterFrame | kernel_sched.c:242-245 | registration changes only the wakeup time of the thread |
| SchedSpec.SleepDeadline | kernel_sched.c:239-255 | a sleeper enters its yield with wakeup time now + timeout when it stops with a timeout, and with none otherwise |
| SchedSpec.SleepF | kernel_sched.c:373-405 | sleep leaves a state in which the chosen thread can gain, linked back to the sleeper; the timeout is registered at the first clock read `now` (line 244) and the selection drains at the second, `selectNow` (line 309) |
| SchedSpec.SleepOutcome | kernel_sched.c:373-405 | a sleeping thread never picks itself; an EXITED sleeper stays EXITED; a STOPPED sleeper ends READY iff it has a timeout and now + timeout is not after selectNow, and stays STOPPED otherwise |
| SchedSpec.YieldAway | kernel_sched.c:486-495 | a STOPPED or EXITED non-idle thread that yields is not chosen as the next thread |
| SchedSpec.YieldKeepsSleeper | kernel_sched.c:463-495 | a sleeper with a timeout that is still STOPPED after yield is still in the timeout list |
| SchedSpec.SleepListed | kernel_sched.c:373-405 | a thread that sleeps with a timeout and is still STOPPED afterwards is in the timeout list |
| SchedSpec.YieldWakesDue | kernel_sched.c:309-315 | a STOPPED yielder whose wakeup time has come by the clock read of the selection ends READY, without timeout and out of the timeout list |
| SchedSpec.SleepWakesDue | kernel_sched.c:373-405 | a thread that sleeps for d ticks registered at `now` is woken by the selection when `now + d <= selectNow`: it ends READY and out of the timeout list |
| SchedSpec.YieldThenGain | kernel_sched.c:410-571 | yield followed by gain keeps the invariant and runs the next thread. A READY non-idle current thread that was switched away is queued again. An EXITED one is released and active_threads drops by one |
| Scheduler.Scheduler.constructor | kernel_sched.c:594-619 | the new scheduler is the initial state and valid |
| Scheduler.Scheduler.SpawnThread | kernel_sched.c:129-165 | the new state is SpawnF of the old one |
| Scheduler.Scheduler.ReleaseTcb | kernel_sched.c:171-182 | the new state is ReleaseF of the old one |
| Scheduler.Scheduler.TimeoutSlot | kernel_sched.c:249-253 | the loop returns the first position whose deadline is later than w; every earlier entry is due by w |
| Scheduler.Scheduler.RegisterTimeout | kernel_sched.c:239-255 | the new state is RegisterTimeoutF of the old one |
| Scheduler.Scheduler.QueueAdd | kernel_sched.c:263-270 | the new state is QueueAddF of the old one |
| Scheduler.Scheduler.MakeReady | kernel_sched.c:278-296 | the new state is MakeReadyF of the old one |
| Scheduler.Scheduler.QueueSelect | kernel_sched.c:305-327 | the new state and result are QueueSelectF of the old state |
| Scheduler.Scheduler.DrainTimeouts | kernel_sched.c:309-315 | the drain loop's final state is DrainF of the old one |
| Scheduler.Scheduler.PopFront | kernel_sched.c:318-326 | the scan loop's state and result are PopFirst of the old state |
| Scheduler.Scheduler.Boost | kernel_sched.c:329-340 | the boost loop's final state is BoostF of the old one |
| Scheduler.Scheduler.Wakeup | kernel_sched.c:345-367 | the new state and return value are WakeupF of the old state |
| Scheduler.Scheduler.PrepareYield | kernel_sched.c:424-484 | the new state is YieldPrepare of the old one; current_ready is set iff current was RUNNING or READY |
| Scheduler.Scheduler.ApplyPolicy | kernel_sched.c:424-478 | the new state is YieldUpdate of the old one; current_ready is set iff current was RUNNING or READY |
| Scheduler.Scheduler.SelectNextThread | kernel_sched.c:486-495 | the new state and next are SelectNext of the old state |
| Scheduler.Scheduler.LinkThreads | kernel_sched.c:497-499 | the new state is Link of the old one |
| Scheduler.Scheduler.Yield | kernel_sched.c:410-513 | the new state and next are YieldF of the old state |
| Scheduler.Scheduler.SwitchOutPrev | kernel_sched.c:544-562 | the new state is SwitchOut of the old one |
| Scheduler.Scheduler.Gain | kernel_sched.c:528-571 | the new state and the timer length in quanta are GainF of the old state |
| Scheduler.Scheduler.ResumeCurrent | kernel_sched.c:535-542 | the new state is Resume of the old one |
| Scheduler.Scheduler.SleepReleasing | kernel_sched.c:373-405 | the new state and next are SleepF of the old state, with the timeout registered at `now` and the selection made at `selectNow` |

## Left out

- Thread memory is not modelled: `allocate_thread`, `free_thread`, `THREAD_SIZE` and the stack. `spawn_thread` takes the identity of the allocated block as a parameter, and that block must not be in use. `cpu_initialize_context`, the owner PCB, the thread function and Valgrind stack registration are foreign calls and are left out.
- The context switch is left out: `cpu_swap_context` and the assignment to `CURTHREAD`. `Gain` takes the thread that now runs as a parameter, and `YieldThenGain` composes the two halves.
- Preemption masking, `sched_spinlock`, `active_threads_spinlock`, `cpu_core_restart_one` and the interrupt handlers are left out. They serve concurrency and hardware, and every operation is modelled as one atomic step.
- Each `bios_clock` read becomes a parameter: `now` where a single read happens, and for sleep both the read in `register_timeout` (`now`) and the later one in `queue_select` (`selectNow`). `bios_cancel_timer` is left out. `bios_set_timer` is modelled only as the number of quanta (priority + 1) that `Gain` returns; `QUANTUM` is defined in a header that is not part of this model.
- Time is an unbounded natural number, so the 64-bit wrap-around of `TimerDuration` is not modelled. NO_TIMEOUT is a constructor of its own rather than a reserved value.
- The model covers a single core with one idle thread. `idle_thread`, `run_scheduler` (beyond setting up the idle TCB), `cpu_core_halt` and `MAX_CORES` are not modelled.
- SleepReleasing: does not model releasing the mutex `mx`. The mutex is not part of this model.
- The C assertions become preconditions: the `BAD STATE` branch of `yield`, the state assertion of `sched_make_ready`, the prev-state assertion of `gain`, and the state assertion of `sleep_releasing`.
- SleepReleasing: requires that the caller is not the idle thread. The idle thread never sleeps in the source, and the model's invariant keeps it RUNNING or READY.
- `spawn_thread` leaves `prev_priority`, `prev` and `next` uninitialised. The model sets them to 0 and to the thread itself; none is read before it is written.
- `kernel_threads.c`, `kernel_proc.h`, `kernel_pipe.c`, `kernel_socket.c` and `test.c` are not part of this model.
