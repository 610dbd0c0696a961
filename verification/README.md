# A verified model of the Go-land sched_ext scheduler

The system schedules CPUs in two halves. The kernel-side half (`main.bpf.c`) reacts to scheduling
events, keeps the dispatch queues (DSQs), and hands most runnable tasks to user space. The user-space
half (`main.go`, `goland_core/task.go`) pools those tasks by virtual deadline and sends each back with a
CPU, a time slice and a vruntime. This project models both halves, the messages and counters between
them, and the system they form together, and proves properties of all runs.

## How the model is organised

| file | content |
|---|---|
| `TaskPool.dfy` | the circular task pool, refining a stable sorted sequence, for every size from 2 and every head position |
| `Vruntime.dfy` | the vruntime and deadline arithmetic, exact and in 64 bits, and the time slice |
| `NoOvertaking.dfy` | who can be passed in the pool, in any interleaving of drains and serves |
| `Layout.dfy` | the bytes of both messages: Go offsets against naturally aligned C structs |
| `UserSched.dfy` | channel, drain loop, refill loop, serving loop, and one whole round |
| `Serving.dfy` | what a batch turns into: searches, slices, failed sends, and what is reported |
| `Accounting.dfy`, `Ledger.dfy` | the shared counter `nr_queued` under every interleaving of its atomic steps, and what a drain does to it |
| `IdlePick.dfy` | the idle-CPU cascade against a best-rank specification |
| `Kernel.dfy` | kernel-side state, and the effect of every handler on it, as functions |
| `Backend.dfy` | the handlers as imperative code, each proved equal to its function in `Kernel.dfy` |
| `World.dfy`, `WorldSafety.dfy` | the event machine, driven by any user space at all, and what always holds |
| `Preemption.dfy` | which insertions preempt, and what `running_task` means after a task has left its CPU |
| `DsqOrder.dfy` | least-vruntime-first order of the DSQs over all runs |
| `Branches.dfy` | what each branch of enqueue and select_cpu does to the queues, in plain terms |
| `Lifecycle.dfy`, `Reports.dfy` | the run-time bookkeeping against the time really spent on a CPU, and what a message says against the events that made it so |
| `Census.dfy`, `Composed.dfy` | both halves composed: ownership, no overtaking, an unused priority path |
| `Fairness.dfy` | each task's vruntime, followed through kernel, message, policy and answer |
| `PriorityProtocol.dfy` | a task whose answers carry vtime 0, among others answered in any way: one insertion per episode |
| `WakeFlag.dfy` | the dispatch handler in atomic steps over the shared queues: the wake-up flag, and the order of the attempts, under every interleaving |
| `Placement.dfy` | DSQ identifiers and where a CPU choice ends up |
| `Topology.dfy`, `CpuList.dfy` | cache masks, and the CPU lists they are built from |
| `CpuGrammar.dfy` | exactly which CPU lists are accepted, and what they mean |
| `Words.dfy` | constants and machine words |

## Assumptions

- The clock is monotone and below 2^64. Kernel weights lie in 1..10000. Affinities are fixed.
- There are between 1 and MAX_CPUS CPU numbers (`Placement.Registry.DsqInit` proves that startup fails
  otherwise), and pids are positive.
- running and stopping alternate for each task; enqueue and select_cpu happen only while a task is not
  running; a task inserted by select_cpu is not enqueued again; a task in custody is not enqueued a second
  time (as a change of its weight or affinity would do); a task exits while it is asleep; the
  kernel starts a task only on a CPU that runs no other.
- Vruntimes stay within 2^63 of each other, so that the kernel's comparison by signed difference is the
  order of the numbers.
- The user scheduler exists as long as the backend runs.
- In the composed system no vruntime computation overflows 64 bits (`Vruntime.Fits`). The queued ring and
  the Go channel it feeds form one first-in-first-out queue.
- In the priority protocol, for the followed task only: the queued ring has room when it is enqueued, each
  of its messages gets one answer, with vtime 0 and a CPU of its affinity, and its pid is not given to a
  new task while a message or answer for the old one is under way. Nothing is assumed about other tasks.
- `SubNrQueued` and `NotifyComplete` never return an error (goland_core/bss.go:55-63), so the branches for
  such errors are not taken.
- Each handler's idle search sees one consistent idle set. In the event machine the result of a search is
  any CPU or error the search could return.

## Where the code differs from what its comments or names suggest

- `handle_dispatched_task` returns nonzero while dispatch slots remain (main.bpf.c:1051), though the
  comment at main.bpf.c:1073-1077 says that all messages are consumed. Which return value stops a ring
  drain is decided outside this code, so `Backend.Handlers` takes it as a parameter: if nonzero stops,
  every dispatch handles at most one message; if zero stops, it handles all of them or fills every slot.
  The run theorems let a drain consume any number of messages.
- `DrainQueuedTask` returns 0 when it stops at a full pool, however much it inserted (main.go:47). The
  result is the number inserted if and only if the pool was full already or some dequeue on the way to
  filling it finds no usable message (`UserSched.ReturnsInsertedExactly`). So the refill loop can wait with
  4095 tasks pooled: `UserSched.WaitsWithFullPool` says exactly when it does so in vain.
- `pick_idle_cpu` tries the previous CPU without checking that the task may run there
  (main.bpf.c:528-532, 566-569). It returns a CPU the task may not use if and only if that CPU is idle and
  comes before every allowed one (`IdlePick.ForbiddenExactly`, with an input in `ForbiddenHappens`);
  `try_direct_dispatch` then has claimed it and inserts nothing.
- `parseCPUs` never returns on a range that ends at 2^63-1, because its loop counter wraps around
  (util/topology.go:39): `CpuList.EndlessExactly`, with an input in `EndlessHappens`.
- A prioritized task that reaches the user-space branch of enqueue is inserted and also reported, and it
  is inserted twice if the ring is full at that moment: `Census.EnqueueActsOnce` gives the exact condition.
- A task whose answer cannot be sent is dropped by the scheduling loop (main.go:192-196). Every task in
  custody has a holder if and only if no send has failed so far (`Composed.NobodyLostExactly`), and a
  dropped task never finds one again (`Composed.FailedSendLosesTask`). `Composed.FailedSendHappens` builds
  such a run.
- `running_task` keeps the last pid of a CPU after the task has stopped (main.bpf.c:1164-1186). A
  prioritized enqueue spares a CPU if and only if the task that started there last is prioritized
  (`Preemption.SparedExactly`), and for every ordinary task and every CPU it may use there is a run after
  which that CPU is spared although nothing runs there (`Preemption.StoppedTaskStillShields`).
- `SelectCPU` returns CPU 0 beside an error, and the loop goes on to use it (main.go:181-190). The message
  is then the one for "found CPU 0" and no other (`Placement.ErrorLooksLikeCpuZero`); `Placement.ErrorMeansCpuZero` says where the task goes.

## Model

| member | source | states |
|---|---|---|
| TaskPool.InsertionPoint | main.go:118-128 | in a sorted pool the chosen place separates entries not greater than the new one, equals included, from the greater ones |
| TaskPool.SortedByKeys | main.go:100-110 | sorted means exactly: any two entries are in the order of deadline, then timestamp, then pid |
| TaskPool.InsertionByKeys | main.go:100-128 | the new entry goes behind exactly the entries whose (deadline, timestamp, pid) is not larger |
| TaskPool.InsertKeepsOrder | main.go:112-140 | insertion keeps the pool sorted by (deadline, timestamp, pid) and adds exactly the new task |
| TaskPool.InsertIsUnique | main.go:118-136 | the place is the only one that keeps the pool sorted with the new task behind its equals |
| TaskPool.InsertAllSorts | main.go:31-46 | inserting any sequence of tasks leaves a sorted permutation of old and new |
| TaskPool.Pool.IsFull | main.go:33 | "tail + 1 equals head" modulo the size holds exactly when all slots but one are used |
| TaskPool.Pool.FindSlot | main.go:118-129 | finds the slot of the first entry greater than the new task, or the tail |
| TaskPool.Pool.OpenGap | main.go:130-135 | the shift loop terminates and moves exactly the entries from the insertion point on, once each |
| TaskPool.Pool.InsertTask | main.go:112-140 | fails exactly when full, changing nothing; otherwise the contents become the stable sorted insertion |
| TaskPool.Pool.GetTask | main.go:67-75 | removes and returns exactly the first entry, nothing from an empty pool |
| Vruntime.PolicyBounds | main.go:52-65 | two-sided bounds on vruntime and deadline; minVruntime never falls; a vtime of 0 never leaves the policy |
| Vruntime.ExactAnswer | main.go:52-65 | vruntime and deadline in numbers: kept if at most 5ms behind the global vruntime, else raised to 5ms behind; a new task gets that plus 500ms / weight; plus the charge; the deadline adds at most 500ms of run time |
| Vruntime.MachineAnswer | main.go:52-65 | the 64-bit result is that answer if and only if charge and deadline stay below 2^64 |
| Vruntime.WrapExact | main.go:52-65 | 64-bit arithmetic gives the exact entry if and only if usage and deadline fit in 64 bits |
| Vruntime.AdvanceAllIsMax | main.go:53-55 | minVruntime is the maximum of its start value and all incoming vtimes |
| Vruntime.AdvanceAllOrderFree | main.go:53-55 | and does not depend on the order of arrival |
| Vruntime.SliceBounds | main.go:187-189 | the slice lies between 500000 and 5000000 and never grows with the number waiting |
| Vruntime.SliceExactly | main.go:187-189 | the slice in numbers: an equal share of 5ms among up to ten, 0.5ms from ten on |
| NoOvertaking.DrainKeepsPosition | main.go:52-65 | a task more than 5ms behind minVruntime keeps its position when a message is drained |
| NoOvertaking.NobodyOvertakes | main.go:31-75 | in any interleaving of drains and serves it moves up one place per serve and is never passed |
| NoOvertaking.ServedInTurn | main.go:67-75 | a settled task at position i is what the serve number i + 1 hands out |
| NoOvertaking.PassedExactly | main.go:52-65 | the exact threshold, ties included: some message can pass a pooled task if and only if the task's key lies above the least one a message can get |
| Layout.DecodeInvertsLayout | goland_core/task.go:104-120 | decoding the C image of any record returns that record, whatever the padding; shorter data is an error |
| Layout.QueuedFields | intf.h:86-97 | the byte range of every field of the record, in numbers |
| Layout.QueuedOffsets | intf.h:86-97 | natural alignment puts the fields of queued_task_ctx at the offsets Go slices at |
| Layout.DispatchedOffsets | intf.h:105-111 | the same for dispatched_task_ctx |
| Layout.FieldsDoNotOverlap | intf.h:86-111 | fields of an aligned struct never overlap |
| Layout.FastEncode | goland_core/task.go:122-133 | the 64 bytes written contain an image of dispatched_task_ctx, and the private counter after it |
| Layout.EncodeReadsBack | goland_core/task.go:122-133 | the C side reads back the pid, cpu, flags, slice and vtime that were encoded, negative values included, at the byte ranges given |
| Layout.BytesRoundTrip | goland_core/task.go:104-133 | reading n little-endian bytes inverts writing them |
| Layout.LittleEndian | goland_core/task.go:104-133 | the bytes of 4- and 8-byte words, least significant first, in numbers |
| UserSched.DrainTakesPrefix | main.go:31-48 | a drain takes a prefix of the messages in order, also of those that arrive meanwhile, decodes each, and says why it stopped |
| UserSched.EntriesFollowPolicy | main.go:35-44 | each entry inserted is the whole record with the 64-bit vruntime and deadline for the global vruntime reached with it |
| UserSched.DrainConserves | main.go:31-48 | the pool becomes the insertion of exactly the drained tasks and never exceeds its capacity |
| UserSched.FullBeforehand | main.go:33-47 | a drain fills the pool exactly if every dequeue it takes to do so finds a usable message, whatever arrives meanwhile |
| UserSched.FullWhenQuiet | main.go:33-47 | with nothing arriving: exactly if as many usable messages as there is room for come first in the channel |
| UserSched.ReturnsInsertedExactly | main.go:37-47 | when the returned count is the number of inserted tasks |
| UserSched.CountsGrowth | main.go:37-47 | the returned count in numbers: 0 if the pool is full afterwards, else how much it has grown |
| UserSched.DrainSorted | main.go:31-48 | the drained pool is sorted and is the old pool plus the inserted tasks, with multiplicity |
| UserSched.Scheduler.DequeueTask | goland_core/task.go:54-73 | takes the oldest message; failure exactly when there is none, it is too short, or its pid is -1; nr_queued falls by one unless decoding failed or it is zero |
| UserSched.Scheduler.UpdatedEnqueueTask | main.go:52-65 | for every record but a new one of weight 0, minVruntime becomes the maximum, and the entry is the 64-bit one that WrapExact relates to the exact one |
| UserSched.Scheduler.DrainQueuedTask | main.go:31-48 | with messages arriving before any dequeue, the loop ends in the state of the reference drain, no insertion fails, and the result is 0 at a full pool and the number inserted otherwise |
| UserSched.Scheduler.ReadyForDequeue | goland_core/task.go:41-52 | peeking rotates the channel and keeps the multiset of messages |
| UserSched.Scheduler.BlockTilReadyForDequeue | goland_core/task.go:28-39 | waits until a message is there and rotates the channel by one; none is lost or invented |
| UserSched.AwaitKeeps | goland_core/task.go:28-39 | waiting keeps the order of all messages and ends with one in the channel unless none ever comes |
| UserSched.Scheduler.Refill | main.go:173-178 | the loop ends in the state of the reference refill, which waits after every drain that returned 0 |
| UserSched.RefillKeeps | main.go:173-178 | a refill inserts only; it ends with at least ten tasks, or waits in vain with fewer than ten or with a full pool |
| UserSched.WaitsWithFullPool | main.go:174-177 | for usable messages and none to come: it waits in vain with a full pool exactly if the messages are as many as there is room for, and is ready exactly if ten are pooled and they are not |
| UserSched.Scheduler.ServeNext | main.go:179-202 | serves the head; if its answer can be sent, sends it with the slice for what waits now and leaves nr_scheduled equal to the tasks still pooled, otherwise changes neither |
| UserSched.Scheduler.ServeAll | main.go:171-203 | serves the whole pool in order while nr_queued may rise and sends and searches may fail |
| UserSched.Scheduler.Round | main.go:171-203 | a round serves a sorted permutation of what its refill inserted, between 10 and size - 1 tasks, and ends with an empty pool |
| UserSched.RoundIsSortedBatch | main.go:171-203 | whatever a refill inserted into an empty pool is a batch of real tasks, nondecreasing in (deadline, timestamp, pid) |
| Serving.MessagesFollowBatch | main.go:180-192 | one message per answered task, in batch order, with its identity, the policy's vruntime and a slice within bounds |
| Serving.AnsweredOrDropped | main.go:192-196 | each task of a batch is answered or dropped, exactly once |
| Serving.SlicesFollowBacklog | main.go:187-189 | without failed sends message i is the one for task i with its own search; its slice is the one for messages counted so far plus tasks still pooled plus one |
| Serving.MessageExactly | main.go:180-192 | without failed sends, message i in numbers: identity, vruntime, slice for the tasks waiting at its turn, and the CPU its search found |
| Serving.ReportedIsLastSuccess | main.go:192-201 | nr_scheduled is the number of tasks that were still pooled at the last successful send |
| Accounting.NeverUnderReports | main.bpf.c:1002-1004 | nr_queued plus increments in flight is never below the unconsumed messages; the excess is decrements owed, lost at zero, or skipped by decode failures |
| Accounting.CounterBalance | wrapper.c:53-57 | the counter is increments minus decrements plus the decrements the guard at zero swallowed |
| Accounting.SliceRespectsBacklog | main.go:187-189 | a slice computed from the counter never exceeds the one for the messages that wait and are already counted |
| Accounting.SliceRespectsTrueBacklog | main.go:187-189 | nor the one for the true backlog while no increment is in flight |
| Ledger.DrainBalance | goland_core/task.go:54-68 | over a drain: the counter before, plus what arrivals counted, minus one for each decoded message, plus the decrements swallowed at zero; and it is the accounting's counter after those steps |
| IdlePick.IdleCpus.PickIdleCpu | main.bpf.c:447-609 | returns an idle CPU of least rank and claims exactly it; -EBUSY only if prev and all allowed CPUs are busy; -ENOENT only on a failed lookup, claiming nothing |
| IdlePick.PlainAnswer | main.bpf.c:447-609 | the whole answer in plain sets: prev, L2, L3, any allowed CPU among fully idle cores, then among idle CPUs; both error codes; exactly the returned CPU is claimed |
| IdlePick.IdleCpus.FullIdle | main.bpf.c:478 | the idle CPUs all of whose core's threads are idle |
| IdlePick.IdleCpus.SearchGroups | main.bpf.c:523-597 | one half of the cascade serves the first nonempty group among prev, L2, L3, any |
| IdlePick.IdleCpus.CacheMasks | main.bpf.c:467-518 | skipping the intersection for an unrestricted task, or dropping an empty one, changes no idle candidate |
| IdlePick.FirstTierIsBest | main.bpf.c:520-603 | a member of the first nonempty tier has least rank among all idle CPUs |
| IdlePick.AllowedEverywhere | main.bpf.c:491-493 | as many allowed CPUs as CPU numbers means every idle CPU is allowed |
| IdlePick.ForbiddenExactly | main.bpf.c:528-569 | the search returns a CPU outside the affinity exactly if that is the previous one, idle, and no fully idle allowed core goes first |
| IdlePick.ForbiddenHappens | main.bpf.c:528-569 | an input on which it does |
| Backend.Handlers.TryDirectDispatch | main.bpf.c:735-792 | inserts exactly when the best-rank idle CPU is allowed and its DSQ and the shared DSQ are empty; a forbidden CPU is claimed and nothing inserted |
| Backend.Handlers.SelectCpu | main.bpf.c:794-817 | the best-rank idle CPU, else the waker's on a sync wakeup, else the previous one; the state is that of Kernel.SelectCpu |
| Backend.Handlers.InsertPrioritized | main.bpf.c:961-983 | claims an idle allowed CPU, or uses the own one if there is none; to the head of its local queue, preempting unless the recorded task is prioritized |
| Backend.Handlers.EnqueueDirectly | main.bpf.c:902-951 | the branches that need no user space, in their order |
| Branches.KernelTasks | main.bpf.c:924-937 | bound kernel threads, kswapd and khugepaged go to the DSQ of their own CPU and never to user space |
| Branches.SchedulerThreads | main.bpf.c:902-915 | threads of the scheduler go to the head of its DSQ, the scheduler itself is ignored |
| Branches.DirectTasks | main.bpf.c:943-951 | a wakeup goes to the DSQ of the CPU found if that DSQ and the shared one are empty |
| Branches.UserTasks | main.bpf.c:953-1004 | every other task is reported or goes to the shared DSQ, and first to the head of the local queue of the CPU claimed for it exactly if it is prioritized |
| Branches.SelectExactly | main.bpf.c:753-789 | select_cpu inserts exactly if the CPU found is allowed and its DSQ and the shared one are empty |
| Backend.Handlers.Enqueue | main.bpf.c:893-1010 | the whole new state is that of Kernel.EnqueueTask for what the two searches, run exactly when the code runs them, and the ring returned |
| Backend.Handlers.SubmitToUser | main.bpf.c:993-1004 | one message at the end of the ring, with every field given, and one count, or one more shared-DSQ entry when the ring is full; never both, and the record stays |
| Backend.Handlers.UpdatePriorityTaskMap | main.bpf.c:429-436 | the pid is prioritized afterwards exactly for vtime 0 and if it was before or there is room; other pids are untouched and the capacity is kept |
| Backend.Handlers.HandleMessage | main.bpf.c:638-716 | the DSQs gain exactly the wanted entry, or nothing if the task is gone or was inserted at its enqueue; and exactly when the task is prioritized afterwards |
| Backend.Handlers.DrainSent | main.bpf.c:1041-1052 | handles a prefix of the messages in order; exactly one or all that fit, depending on which callback value stops the drain |
| Backend.DrainSnoc | main.bpf.c:1078 | handling one more message is one more handler step on the state so far |
| Backend.Handlers.TakeTask | main.bpf.c:1083-1106 | own DSQ, then shared, then the scheduler's; the flag is set only if none yields and work is pending |
| Backend.Handlers.Dispatch | main.bpf.c:1064-1115 | fire the scheduler if asked, drain a prefix, then take one task, as one function of the old state |
| Backend.Handlers.Running | main.bpf.c:1134-1159 | the user scheduler leaves only its time of running; another task becomes the recorded one of its CPU if there is room, and no other CPU's |
| Backend.Handlers.Stopping | main.bpf.c:1164-1186 | the run that ends is added exactly as long as the sum fits in 64 bits, for this task only |
| Backend.RunAddsItsLength | main.bpf.c:1134-1186 | a run from start to stop adds its length, restores nr_running, and leaves the pid recorded for the CPU |
| Backend.Handlers.CpuRelease | main.bpf.c:1192-1203 | sets the flag exactly for threads of the user scheduler |
| Backend.Handlers.Timer | main.bpf.c:1263-1285 | sets the flag exactly after 100ms without a run of an existing user scheduler, claiming at most one CPU |
| Backend.Handlers.ExitTask | main.bpf.c:1470-1475 | the pid is not prioritized afterwards |
| WorldSafety.SafeAlways | main.bpf.c:893-1186 | in every state of every run, whatever user space sends, the safety invariant holds |
| WorldSafety.SafeStep | main.bpf.c:893-1186 | every event keeps it |
| WorldSafety.RunningTaskTruthful | main.bpf.c:1134-1159 | running_task names the ordinary task on each busy CPU, no CPU runs two, nr_running is their number |
| WorldSafety.OwnersNeverFull | main.bpf.c:1145 | running_task cannot be full when a CPU is missing from it |
| Preemption.PrioritizedNotPreempted | main.bpf.c:961-982 | in every reachable state, an enqueue to a CPU on which a prioritized ordinary task runs does not preempt |
| Preemption.PreemptsExactly | main.bpf.c:961-982 | an event preempts exactly if it is a prioritized enqueue on the user-space branch and the task recorded for the CPU it chose is not prioritized |
| Preemption.RecordedIsLastStarted | main.bpf.c:1134-1159 | running_task names the ordinary task that started last on each CPU, over every run |
| Preemption.SparedExactly | main.bpf.c:968-980 | a prioritized enqueue spares a CPU exactly if the task that started there last is prioritized |
| Preemption.StoppedTaskStillShields | main.bpf.c:1164-1186 | a run after which a CPU is spared although no task runs on it |
| WorldSafety.PlacementAlways | main.bpf.c:653-693 | every waiting task is in an existing queue that it may be in; the three kinds of DSQ never mix |
| DsqOrder.OrderedAlways | main.bpf.c:680-681 | every per-CPU and shared DSQ is ordered by vruntime in every state of every run |
| DsqOrder.MoveTakesLeast | main.bpf.c:1083-1090 | a CPU that takes a task gets the least vruntime among those of the DSQ that may run on it |
| Lifecycle.ExecRuntimeIsTimeOnCpu | main.bpf.c:1117-1186 | exec_runtime plus the open run is exactly the time on CPU since the last wakeup, at most the wall time |
| Lifecycle.MessageReportsRun | main.bpf.c:853-868 | a message reports exactly that time, ordered timestamps, an allowed CPU and the task's own weight, vruntime and group, and never a scheduler thread |
| Reports.RecordsAreHistory | main.bpf.c:1134-1186 | in every run the record of a task holds the clock of its last start, of its last stop, and its last CPU; their difference is the length of that run |
| Reports.MessageIsHistory | main.bpf.c:853-868 | a message carries exactly those clocks, that CPU, the flags of this enqueue, and what the kernel holds about the task |
| Census.EnqueueActsOnce | main.bpf.c:893-1010 | an enqueue inserts or reports exactly once, except that a prioritized task on the user-space branch counts twice; two insertions exactly if the ring is full as well |
| Census.FollowCounts | main.bpf.c:893-1010 | how many copies of the task each branch adds to the DSQs and to the ring |
| Census.DispatchCounts | main.bpf.c:638-716 | a message inserts its task exactly once unless the task is gone or already inserted at enqueue |
| Census.MoveCounts | main.bpf.c:1083-1096 | moving between queues neither loses nor duplicates anyone |
| Composed.ExactlyOnePlace | main.bpf.c:893-1115 | in every run of both halves a task in custody is held exactly once by one queue, ring, pool or hand unless a failed send dropped it, every other task not at all |
| Composed.InvAlways | main.go:171-203 | safety, ownership and the policy's invariant in every state of the composed system |
| Composed.PriorityNeverUsed | main.bpf.c:961-983 | with this policy priority_tasks stays empty and every enqueue does exactly one of insertion and message |
| Composed.MessagesWellFormed | main.go:57-62 | no queued message makes the policy divide by zero or its subtraction wrap |
| Composed.PoolAlwaysSorted | main.go:112-140 | the pool is sorted and leaves one slot free in every state |
| Composed.NobodyOvertakes | main.go:52-75 | no overtaking over runs of the whole system |
| Composed.TakeInIsDrainStep | main.go:33-46 | the record-level step is what the drain loop computes from the bytes in 64-bit arithmetic |
| Composed.WaitIsRotate | goland_core/task.go:28-39 | waiting on the bytes is a rotation of the records in the channel |
| Composed.ServeIsTurn | main.go:171-203 | serving and sending, or failing to send, is one turn of the scheduling loop |
| Composed.NobodyLostExactly | main.go:192-196 | full ownership holds in a state of a run if and only if no send has failed before it |
| Composed.FailedSendLosesTask | main.go:192-196 | after a failed send its task is in custody and held by nobody in every later state |
| Composed.FailedSendHappens | main.go:192-196 | for every ordinary task, a run whose only failed send is its last step, and which loses that task |
| Fairness.VruntimeNeverFalls | main.go:52-65 | over every run of the whole system the vruntime recorded for an existing task never falls |
| Fairness.NothingElseUnderWay | main.bpf.c:638-716 | when an answer is handled, no other message, pool entry or answer for its task exists |
| Fairness.AheadAlways | main.bpf.c:853-868 | everything under way for a task carries at least the vruntime the kernel has recorded |
| PriorityProtocol.OneInsertionPerEpisode | main.bpf.c:953-983 | for a task answered with vtime 0, whatever happens to others: episodes begun equal insertions made plus the one that still waits for its answer, also when the map is full |
| PriorityProtocol.EpisodesComplete | main.bpf.c:679-694 | a task not in custody has no episode without insertion; a pending one has exactly one message or answer under way |
| PriorityProtocol.StepBalance | main.bpf.c:893-1010 | each step inserts exactly when an episode begins inserted or a pending one is answered |
| PriorityProtocol.InvAlways | main.bpf.c:429-436 | at most one copy of that task in the kernel's queues; while prioritized it never waits for an answer |
| WakeFlag.FlagIsBit | main.bpf.c:361-379 | under every interleaving the word is 0 or 1 and equals the boolean the other modules keep |
| WakeFlag.RequestServed | main.bpf.c:1070-1071 | the first test after a set, on any CPU, finds it, and that CPU's next step puts the user scheduler at the head of its DSQ |
| WakeFlag.SetOrCommitted | main.bpf.c:361-379 | after any set the flag is set or some CPU has committed to queueing the scheduler |
| WakeFlag.IdleDispatchAsks | main.bpf.c:1083-1106 | a dispatch that looks for pending work found no runnable task in any of the three DSQs; if work is pending it sets the flag, which stays until another dispatch commits |
| WakeFlag.SchedulerIsLast | main.bpf.c:1083-1096 | a task leaves the scheduler's DSQ only after the same dispatch found nothing the CPU may run in its own DSQ and then in the shared one |
| WakeFlag.DispatchAlone | main.bpf.c:1064-1106 | without interference the atomic steps add up to the handler as one step |
| Placement.Registry.DsqInit | main.bpf.c:1348-1381 | succeeds exactly for at most MAX_CPUS CPUs, and then exactly the wanted DSQs exist, all distinct |
| Placement.SelectionIsFaithful | goland_core/obj.go:158-165 | every negative search result becomes RL_CPU_ANY, every CPU stays itself |
| Placement.ErrorLooksLikeCpuZero | main.go:181-190 | the message carries the result of a search that ran; after an error it equals the message for result r exactly if r is 0 |
| Placement.ErrorMeansCpuZero | goland_core/obj.go:158-167 | after an error an unprioritized task goes to the DSQ of CPU 0, or to the shared one if it may not run there |
| Placement.SelectionReachesQueue | main.bpf.c:653-693 | the message then reaches the DSQ of an allowed CPU, or the shared DSQ, which exists |
| Topology.Domains.EnableSiblingCpu | main.bpf.c:1407-1439 | adds exactly one bit, or fails (also for lack of memory) and changes nothing; the other level is untouched |
| Topology.Domains.InitCacheDomains | util/topology.go:107-117 | succeeds exactly if all listed CPUs exist and no call fails from outside, and then relates exactly the CPUs that share a group; a failure has related no others |
| Topology.LinkedOrderFree | util/topology.go:107-117 | the relation is symmetric and independent of the map's iteration order |
| Topology.LinkedEquivalence | util/topology.go:107-117 | with disjoint groups it is an equivalence on the covered CPUs |
| CpuList.ParseCPUs | util/topology.go:14-52 | the nested loops compute the expansion of all segments in order, or stop at the first that is malformed or never ends |
| CpuList.AcceptedNonnegative | util/topology.go:14-52 | everything accepted is nonnegative |
| CpuList.ParseInvertsPrint | util/topology.go:14-52 | parsing a printed nonempty list of numbers and ranges returns its expansion, unless a range ends at 2^63-1: then it never ends |
| CpuList.LoopEndsExactly | util/topology.go:39-41 | the wrapping 64-bit counter leaves a range exactly if the range does not end at 2^63-1 |
| CpuList.EndlessExactly | util/topology.go:14-52 | parsing never ends exactly if some range ends at 2^63-1 and all segments before it are well formed |
| CpuList.EndlessHappens | util/topology.go:39-41 | an input on which it never ends |
| CpuGrammar.PieceMeans | util/topology.go:18-48 | numbers and ranges with plus signs, leading zeros and blanks around them parse to their meaning; too large numbers and reversed ranges are errors |
| CpuGrammar.AcceptedExactly | util/topology.go:18-48 | a segment is accepted if and only if it is such a text |
| CpuGrammar.JoinSplit | util/topology.go:16 | splitting cuts at every comma and nowhere else |

## Left out

- Kicking and waking CPUs, dispatch statistics, debug output, and the slice stored with a DSQ entry or replenished for the previous task: they do not decide where a task is.
- The cancel path of `dispatch_task` (main.bpf.c:705-710): it is reachable only if the affinity changes between two checks, and affinities are fixed here.
- How the kernel treats an insertion of a task that is not waiting for one (for example of the user scheduler while it runs): its queue entry is modelled, the kernel's own filtering is not.
- Cpumask reference counts, RCU, and the arming of the timer: kernel mechanics behind the modelled steps.
- Concurrent claims of idle CPUs by others during one search: each search runs against one idle set.
- Accounting.NeverUnderReports: treats the decrement of `nr_queued` as one atomic step; the race between the plain `nr_queued--` in C and the atomic increment is not modelled.
- UserSched.Scheduler.Refill: nothing is said about when the refill ends (it waits for ten tasks, main.go:174); what arrives between two operations is an input.
- TaskPool.Pool.InsertTask: the pool stores records by value, so the aliasing of the pointers in the Go slots is not captured.
- UserSched.Scheduler.DequeueTask: a closed channel is not told apart from an empty one; the code treats both as a failed dequeue and never closes the channel itself.
- Backend.Handlers.Runnable: only resets the run time; what that is good for is stated by Lifecycle.ExecRuntimeIsTimeOnCpu.
- Layout.FastDecode: host byte order is little-endian.
- CpuList.AppendRange: running out of memory on a very long range is not modelled.
- CpuList.Atoi: accepts what Go's decimal conversion accepts; the text of error messages is not modelled.
- Loading, attaching and closing the BPF object, map iteration, signals, logging, the mirrors of read-only and bss data, and the walk over the sysfs tree: foreign calls and I/O; the groups of CPUs are an input.
- Liveness and latency: only safety, order, counting and termination of loops are proved.
