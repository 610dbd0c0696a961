/** State of the kernel-side half, and what each event handler of main.bpf.c does to it. */
module Kernel {
  import opened Words
  import opened TaskPool
  import opened Layout

  /** Where a runnable task waits inside the kernel: a DSQ made by the backend, or a CPU's own
      local queue. */
  datatype Spot = Custom(id: nat) | Local(cpu: S32)

  /** One waiting task; fifo tells the two ways of inserting apart. */
  datatype Entry = Entry(spot: Spot, pid: S32, vtime: nat, fifo: bool)

  /** The fixed properties of a task. */
  datatype Attr = Attr(tgid: S32, allowed: set<S32>, weight: nat, kthread: bool, kswapd: bool)

  /** The read-only configuration, and the attributes of every task that may ever exist. */
  datatype Config = Config(
    nrCpuIds: nat, usersched: S32, khugepaged: S32, earlyProcessing: bool, builtinIdle: bool,
    attrs: map<S32, Attr>)

  /** What the backend keeps per task, with the kernel's own notion of its CPU and vruntime. */
  datatype TaskCtx = TaskCtx(cpu: S32, vtime: nat, startTs: nat, stopTs: nat, execRuntime: nat)

  datatype Kernel = Kernel(
    board: seq<Entry>,             // all waiting tasks; a DSQ is the subsequence with its spot
    queued: seq<QueuedTask>,       // messages to user space, oldest first
    sent: seq<DispatchedTask>,     // messages from user space, oldest first
    priority: map<S32, nat>,       // priority_tasks
    runningTask: map<S32, S32>,    // running_task: CPU to pid
    tasks: map<S32, TaskCtx>,      // tasks that exist
    preempts: seq<S32>,            // target CPUs of all insertions that preempt, in order
    needed: bool,                  // usersched_needed
    nrQueued: nat,
    nrRunning: int)

  ghost predicate ConfigOk(c: Config) {
    && 0 < c.nrCpuIds <= MAX_CPUS
    && c.usersched in c.attrs
    && forall p :: p in c.attrs ==> AttrOk(c, p, c.attrs[p])
  }

  ghost predicate AttrOk(c: Config, p: S32, a: Attr) {
    && p > 0
    && 1 <= a.weight <= 10_000
    && (forall cpu :: cpu in a.allowed ==> 0 <= cpu < c.nrCpuIds)
    && (p == c.usersched ==> a.tgid == c.usersched)
  }

  function CpuToDsq(cpu: S32): nat {
    if cpu < 0 || cpu >= MAX_CPUS then SHARED_DSQ else cpu
  }

  /** First waiting task of the spot with a larger vtime, or the end. */
  function PlaceFor(board: seq<Entry>, spot: Spot, vtime: nat): (i: nat)
    ensures i <= |board|
  {
    if board == [] then 0
    else if board[0].spot == spot && vtime < board[0].vtime then 0
    else 1 + PlaceFor(board[1..], spot, vtime)
  }

  function InsertAt(board: seq<Entry>, i: nat, e: Entry): seq<Entry>
    requires i <= |board|
  {
    board[..i] + [e] + board[i..]
  }

  function RemoveAt(board: seq<Entry>, i: nat): seq<Entry>
    requires i < |board|
  {
    board[..i] + board[i + 1..]
  }

  /** Ordered insertion; the kernel also records the vtime in the task. */
  function InsertVtime(k: Kernel, pid: S32, spot: Spot, vtime: nat): Kernel
    requires pid in k.tasks
  {
    k.(board := InsertAt(k.board, PlaceFor(k.board, spot, vtime), Entry(spot, pid, vtime, false)),
       tasks := k.tasks[pid := k.tasks[pid].(vtime := vtime)])
  }

  /** Insertion at the head of a first-in-first-out queue. */
  function InsertHead(k: Kernel, pid: S32, spot: Spot): Kernel {
    k.(board := InsertAt(k.board, 0, Entry(spot, pid, 0, true)))
  }

  predicate DsqEmpty(board: seq<Entry>, id: nat) {
    forall i :: 0 <= i < |board| ==> board[i].spot != Custom(id)
  }

  /** A hash map of bounded capacity: adding a new key to a full map fails and changes nothing. */
  function HashUpdate<V>(m: map<S32, V>, key: S32, value: V, capacity: nat): map<S32, V> {
    if key in m || |m| < capacity then m[key := value] else m
  }

  // ---- enqueue and select_cpu ----

  /** Everything an enqueue learns from outside: whether it is a wakeup that skipped select_cpu, the
      two idle searches (negative when nothing was found), and whether the message ring is full. */
  datatype Choice = Choice(wakeup: bool, pick: S32, prio: S32, ringFull: bool)

  ghost predicate ChoiceOk(c: Config, pid: S32, ch: Choice)
    requires pid in c.attrs
  {
    && ch.pick < c.nrCpuIds
    && (ch.prio == -EBUSY || ch.prio in c.attrs[pid].allowed)
  }

  predicate CanDirect(c: Config, k: Kernel, pid: S32, pick: S32)
    requires pid in c.attrs
  {
    && c.builtinIdle && pick >= 0 && pick in c.attrs[pid].allowed
    && DsqEmpty(k.board, SHARED_DSQ) && DsqEmpty(k.board, CpuToDsq(pick))
  }

  /** The branches of enqueue: nothing, the scheduler's DSQ, a per-CPU DSQ, or user space. */
  datatype Route = Ignored | ToSched | ToCpu(cpu: S32) | ToUser

  function EnqueueRoute(c: Config, k: Kernel, pid: S32, ch: Choice): Route
    requires pid in c.attrs && pid in k.tasks
  {
    var a := c.attrs[pid];
    if pid == c.usersched then Ignored
    else if a.tgid == c.usersched then ToSched
    else if a.kthread && |a.allowed| == 1 && c.earlyProcessing then ToCpu(k.tasks[pid].cpu)
    else if a.kswapd || (c.khugepaged != 0 && pid == c.khugepaged) then ToCpu(k.tasks[pid].cpu)
    else if ch.wakeup && CanDirect(c, k, pid, ch.pick) then ToCpu(ch.pick)
    else ToUser
  }

  function PriorityCpu(k: Kernel, pid: S32, ch: Choice): S32
    requires pid in k.tasks
  {
    if ch.prio == -EBUSY then k.tasks[pid].cpu else ch.prio
  }

  /** The recorded task of that CPU is prioritized, so it must not be preempted. */
  predicate Shielded(k: Kernel, cpu: S32) {
    cpu in k.runningTask && k.runningTask[cpu] in k.priority
  }

  /** A prioritized task goes straight to the local queue of its CPU. */
  function PriorityInsert(k: Kernel, pid: S32, ch: Choice): Kernel
    requires pid in k.tasks
  {
    var cpu := PriorityCpu(k, pid, ch);
    if pid !in k.priority || cpu < 0 then k
    else
      InsertHead(k, pid, Local(cpu)).(
        preempts := if Shielded(k, cpu) then k.preempts else k.preempts + [cpu])
  }

  function Message(c: Config, k: Kernel, pid: S32, flags: nat): QueuedTask
    requires pid in c.attrs && pid in k.tasks
  {
    var a, t := c.attrs[pid], k.tasks[pid];
    QueuedTask(pid, t.cpu, |a.allowed|, flags, t.startTs, t.stopTs, t.execRuntime, a.weight, t.vtime, a.tgid)
  }

  /** Report to user space, or fall back to the shared DSQ when the ring is full. */
  function Submit(c: Config, k: Kernel, pid: S32, flags: nat, ringFull: bool): Kernel
    requires pid in c.attrs && pid in k.tasks
  {
    if ringFull then InsertVtime(k, pid, Custom(SHARED_DSQ), k.tasks[pid].vtime)
    else k.(queued := k.queued + [Message(c, k, pid, flags)], nrQueued := k.nrQueued + 1)
  }

  /** What following a branch does. */
  function Follow(c: Config, k: Kernel, pid: S32, flags: nat, ch: Choice, route: Route): Kernel
    requires pid in c.attrs && pid in k.tasks
  {
    match route
    case Ignored => k
    case ToSched => InsertHead(k, pid, Custom(SCHED_DSQ))
    case ToCpu(cpu) => InsertVtime(k, pid, Custom(CpuToDsq(cpu)), k.tasks[pid].vtime)
    case ToUser => Submit(c, PriorityInsert(k, pid, ch), pid, flags, ch.ringFull)
  }

  function EnqueueTask(c: Config, k: Kernel, pid: S32, flags: nat, ch: Choice): Kernel
    requires pid in c.attrs && pid in k.tasks
  {
    Follow(c, k, pid, flags, ch, EnqueueRoute(c, k, pid, ch))
  }

  predicate SelectInserts(c: Config, k: Kernel, pid: S32, pick: S32)
    requires pid in c.attrs
  {
    pid != c.usersched && CanDirect(c, k, pid, pick)
  }

  function SelectCpu(c: Config, k: Kernel, pid: S32, pick: S32): Kernel
    requires pid in c.attrs && pid in k.tasks
  {
    if SelectInserts(c, k, pid, pick)
    then InsertVtime(k, pid, Custom(CpuToDsq(pick)), k.tasks[pid].vtime) else k
  }

  // ---- messages from user space ----

  function UpdatePriority(k: Kernel, pid: S32, vtime: nat, slice: nat): Kernel {
    k.(priority := if vtime == 0 then HashUpdate(k.priority, pid, slice, MAX_ENQUEUED_TASKS)
                   else k.priority - {pid})
  }

  /** Handling one message: unknown tasks are ignored; "any CPU" and CPUs outside the affinity mean
      the shared DSQ; otherwise the target CPU's DSQ, unless an unprioritized insertion already
      happened at enqueue time (vtime 0 and already in the map). */
  function DispatchTask(c: Config, k: Kernel, m: DispatchedTask): Kernel
    requires m.pid in k.tasks ==> m.pid in c.attrs
  {
    if m.pid !in k.tasks then k
    else if m.cpu == RL_CPU_ANY || m.cpu !in c.attrs[m.pid].allowed then
      InsertVtime(k, m.pid, Custom(SHARED_DSQ), m.vtime)
    else
      var k' := if m.vtime != 0 || m.pid !in k.priority
                then InsertVtime(k, m.pid, Custom(CpuToDsq(m.cpu)), m.vtime) else k;
      UpdatePriority(k', m.pid, m.vtime, m.sliceNs)
  }

  // ---- dispatch ----

  /** First waiting task of DSQ id that may run on cpu, or the end. */
  function FirstMovable(c: Config, board: seq<Entry>, cpu: S32, id: nat): (i: nat)
    ensures i <= |board|
    ensures i < |board| ==>
      board[i].spot == Custom(id) && board[i].pid in c.attrs && cpu in c.attrs[board[i].pid].allowed
  {
    if board == [] then 0
    else if board[0].spot == Custom(id) && board[0].pid in c.attrs && cpu in c.attrs[board[0].pid].allowed then 0
    else 1 + FirstMovable(c, board[1..], cpu, id)
  }

  predicate CanMove(c: Config, k: Kernel, cpu: S32, id: nat) {
    FirstMovable(c, k.board, cpu, id) < |k.board|
  }

  /** Move one waiting task of the DSQ to the end of the CPU's local queue. */
  function MoveToLocal(c: Config, k: Kernel, cpu: S32, id: nat): Kernel {
    var i := FirstMovable(c, k.board, cpu, id);
    if i == |k.board| then k
    else
      var e := k.board[i];
      k.(board := RemoveAt(k.board, i) + [Entry(Local(cpu), e.pid, e.vtime, true)])
  }

  /** Test and clear the wake-up flag, and queue the user-space scheduler if it was set. */
  function FireScheduler(c: Config, k: Kernel): Kernel {
    if k.needed then InsertHead(k, c.usersched, Custom(SCHED_DSQ)).(needed := false) else k
  }

  // ---- life of a task on a CPU ----

  function Runnable(k: Kernel, pid: S32): Kernel
    requires pid in k.tasks
  {
    k.(tasks := k.tasks[pid := k.tasks[pid].(execRuntime := 0)])
  }

  function Running(k: Kernel, pid: S32, cpu: S32, now: nat): Kernel
    requires pid in k.tasks
  {
    k.(runningTask := HashUpdate(k.runningTask, cpu, pid, MAX_CPUS),
       nrRunning := k.nrRunning + 1,
       tasks := k.tasks[pid := k.tasks[pid].(cpu := cpu, startTs := now)])
  }

  function Stopping(k: Kernel, pid: S32, now: nat): Kernel
    requires pid in k.tasks
  {
    var t := k.tasks[pid];
    k.(nrRunning := k.nrRunning - 1,
       tasks := k.tasks[pid := t.(stopTs := now, execRuntime := (t.execRuntime + (now - t.startTs)) % U64)])
  }
}
