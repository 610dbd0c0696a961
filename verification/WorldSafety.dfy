/** What holds in every reachable state of the backend, whatever user space sends. */
module WorldSafety {
  import opened Words
  import opened TaskPool
  import opened Layout
  import opened Kernel
  import opened World
  import IdlePick

  ghost predicate Known(c: Config, w: World) {
    && w.k.tasks.Keys == w.phase.Keys + {c.usersched}
    && c.usersched !in w.phase
    && w.k.tasks.Keys <= c.attrs.Keys
  }

  /** Every task belongs to a CPU it may run on. */
  ghost predicate HomeOk(c: Config, tasks: map<S32, TaskCtx>) {
    forall p :: p in tasks && p in c.attrs && p != c.usersched ==> tasks[p].cpu in c.attrs[p].allowed
  }

  /** A DSQ the backend has created at startup. */
  ghost predicate Created(c: Config, id: nat) {
    id < c.nrCpuIds || id == SHARED_DSQ || id == SCHED_DSQ
  }

  /** Where an entry may be: the scheduler's DSQ holds only scheduler threads, first in first out; all
      other DSQs hold other tasks, ordered by vruntime; a CPU's queues hold tasks allowed there. */
  ghost predicate EntryOk(c: Config, e: Entry) {
    && e.pid in c.attrs
    && match e.spot
       case Local(cpu) => cpu in c.attrs[e.pid].allowed
       case Custom(id) =>
         && Created(c, id)
         && (id == SCHED_DSQ <==> e.fifo)
         && (id == SCHED_DSQ ==> c.attrs[e.pid].tgid == c.usersched)
         && (id < MAX_CPUS ==> var cpu: S32 := id; cpu in c.attrs[e.pid].allowed)
  }

  ghost predicate BoardOk(c: Config, board: seq<Entry>) {
    forall i :: 0 <= i < |board| ==> EntryOk(c, board[i])
  }

  /** running_task names the task on every CPU that runs an ordinary task, and only real CPUs. */
  ghost predicate OwnersOk(c: Config, phase: map<S32, Phase>, owner: map<S32, S32>) {
    && (forall p :: p in phase && phase[p].OnCpu? ==>
          phase[p].cpu in owner && owner[phase[p].cpu] == p)
    && (forall cpu :: cpu in owner ==> IsCpu(c, cpu))
  }

  function OnCpus(phase: map<S32, Phase>): set<S32> {
    set p | p in phase && phase[p].OnCpu?
  }

  ghost predicate TimeOk(t: TaskCtx, ph: Phase, now: nat) {
    t.startTs <= now && t.stopTs <= now && (!ph.OnCpu? ==> t.startTs <= t.stopTs)
  }

  ghost predicate TimesOk(w: World) {
    forall p :: p in w.phase && p in w.k.tasks ==> TimeOk(w.k.tasks[p], w.phase[p], w.now)
  }

  /** A message the policy can digest: a kernel weight, and a run that ended after it began. */
  ghost predicate MessageOk(c: Config, t: QueuedTask) {
    t.pid in c.attrs && 1 <= t.weight <= 10_000 && t.startTs <= t.stopTs < U64
  }

  ghost predicate QueueOk(c: Config, queued: seq<QueuedTask>) {
    forall i :: 0 <= i < |queued| ==> MessageOk(c, queued[i])
  }

  /** The part of the invariant that concerns running tasks and time. */
  ghost predicate Core(c: Config, w: World) {
    && Known(c, w)
    && OwnersOk(c, w.phase, w.k.runningTask)
    && w.k.nrRunning == |OnCpus(w.phase)|
    && TimesOk(w)
    && w.now < U64
  }

  ghost predicate Safe(c: Config, w: World) {
    && Core(c, w)
    && HomeOk(c, w.k.tasks)
    && BoardOk(c, w.k.board)
    && QueueOk(c, w.k.queued)
  }

  // ---- what the handlers leave alone ----

  /** Nothing about running tasks or timestamps changes; a task's vruntime and CPU may. */
  ghost predicate Frame(k: Kernel, k': Kernel) {
    && k'.runningTask == k.runningTask && k'.nrRunning == k.nrRunning
    && k'.tasks.Keys == k.tasks.Keys
    && forall p :: p in k.tasks ==>
         k'.tasks[p] == k.tasks[p].(vtime := k'.tasks[p].vtime, cpu := k'.tasks[p].cpu)
  }

  lemma InsertFrame(k: Kernel, pid: S32, spot: Spot, vtime: nat)
    requires pid in k.tasks
    ensures Frame(k, InsertVtime(k, pid, spot, vtime))
  {}

  lemma FollowFrame(c: Config, k: Kernel, pid: S32, flags: nat, ch: Choice, route: Route)
    requires pid in c.attrs && pid in k.tasks
    ensures Frame(k, Follow(c, k, pid, flags, ch, route))
  {
    match route
    case Ignored =>
    case ToSched =>
    case ToCpu(cpu) => InsertFrame(k, pid, Custom(CpuToDsq(cpu)), k.tasks[pid].vtime);
    case ToUser =>
      var k1 := PriorityInsert(k, pid, ch);
      assert k1.tasks == k.tasks && k1.runningTask == k.runningTask && k1.nrRunning == k.nrRunning;
      InsertFrame(k1, pid, Custom(SHARED_DSQ), k1.tasks[pid].vtime);
  }

  lemma DispatchFrame(c: Config, k: Kernel, m: DispatchedTask)
    requires m.pid in k.tasks ==> m.pid in c.attrs
    ensures Frame(k, DispatchTask(c, k, m))
  {}

  /** A step during which no task starts, stops, joins, leaves or wakes. */
  ghost predicate Calm(w: World, w': World) {
    && Frame(w.k, w'.k) && w'.now == w.now && w'.phase.Keys == w.phase.Keys
    && forall p :: p in w.phase ==>
         w'.phase[p] == w.phase[p] || (!w.phase[p].OnCpu? && !w'.phase[p].OnCpu?)
  }

  predicate IsCalm(e: Event) {
    e.Select? || e.Enqueue? || e.Drain? || e.Fire? || e.Nudge? || e.Move? || e.Requeue? || e.UserTake? || e.UserPush?
  }

  lemma CalmEvents(c: Config, w: World, e: Event)
    requires Enabled(c, w, e) && IsCalm(e)
    ensures Calm(w, Apply(c, w, e))
  {
    match e
    case Drain => DispatchFrame(c, w.k.(sent := w.k.sent[1..]), w.k.sent[0]);
    case Enqueue(pid, flags, ch) => FollowFrame(c, w.k, pid, flags, ch, EnqueueRoute(c, w.k, pid, ch));
    case Select(pid, pick, cpu) => InsertFrame(w.k, pid, Custom(CpuToDsq(pick)), w.k.tasks[pid].vtime);
    case _ =>
  }

  lemma CalmKeepsCore(c: Config, w: World, w': World)
    requires Core(c, w) && Calm(w, w')
    ensures Core(c, w')
  {
    assert OnCpus(w'.phase) == OnCpus(w.phase);
  }

  // ---- starting, stopping, joining, leaving ----

  lemma TickCore(c: Config, w: World, e: Event)
    requires Core(c, w) && Enabled(c, w, e) && (e.Tick? || e.StopUser?)
    ensures Core(c, Apply(c, w, e))
  {}

  lemma SpawnCore(c: Config, w: World, e: Event)
    requires Core(c, w) && Enabled(c, w, e) && e.Spawn?
    ensures Core(c, Apply(c, w, e))
  {
    assert OnCpus(Apply(c, w, e).phase) == OnCpus(w.phase);
  }

  lemma WakeCore(c: Config, w: World, e: Event)
    requires Core(c, w) && Enabled(c, w, e) && e.Wake?
    ensures Core(c, Apply(c, w, e))
  {
    assert OnCpus(Apply(c, w, e).phase) == OnCpus(w.phase);
  }

  lemma ExitCore(c: Config, w: World, e: Event)
    requires Core(c, w) && Enabled(c, w, e) && e.Exit?
    ensures Core(c, Apply(c, w, e))
  {
    assert OnCpus(Apply(c, w, e).phase) == OnCpus(w.phase);
  }

  lemma StopCore(c: Config, w: World, e: Event)
    requires Core(c, w) && Enabled(c, w, e) && e.Stop?
    ensures Core(c, Apply(c, w, e))
  {
    assert OnCpus(Apply(c, w, e).phase) == OnCpus(w.phase) - {e.pid};
  }

  /** Only CPU numbers are keys of running_task, so with one entry per CPU it cannot be full when a
      CPU is missing from it. */
  lemma OwnersNeverFull(c: Config, owner: map<S32, S32>, cpu: S32)
    requires c.nrCpuIds <= MAX_CPUS && IsCpu(c, cpu) && cpu !in owner
    requires forall d :: d in owner ==> IsCpu(c, d)
    ensures |owner| < MAX_CPUS
  {
    var all := IdlePick.Range(c.nrCpuIds);
    IdlePick.RangeSize(c.nrCpuIds);
    SmallerThan(owner.Keys, all, cpu);
    assert |owner| == |owner.Keys|;
  }

  lemma {:induction false} SmallerThan(a: set<S32>, b: set<S32>, x: S32)
    requires a <= b && x in b && x !in a
    ensures |a| < |b|
    decreases a
  {
    if a != {} {
      var y := Member(a);
      SmallerThan(a - {y}, b - {y}, x);
    }
  }

  /** What the start of ordinary task p on cpu does. */
  ghost predicate Starts(w: World, w': World, p: S32, cpu: S32) {
    && p in w.k.tasks && w'.k.tasks == w.k.tasks[p := w.k.tasks[p].(cpu := cpu, startTs := w.now)]
    && w'.k.runningTask == w.k.runningTask[cpu := p] && w'.k.nrRunning == w.k.nrRunning + 1
    && w'.phase == w.phase[p := OnCpu(cpu)] && w'.now == w.now
  }

  lemma RunStarts(c: Config, w: World, e: Event)
    requires c.nrCpuIds <= MAX_CPUS && Core(c, w) && Enabled(c, w, e) && e.Run?
    requires w.k.board[FirstLocal(w.k.board, e.cpu)].pid != c.usersched
    ensures Starts(w, Apply(c, w, e), w.k.board[FirstLocal(w.k.board, e.cpu)].pid, e.cpu)
  {
    if e.cpu !in w.k.runningTask { OwnersNeverFull(c, w.k.runningTask, e.cpu); }
  }

  lemma StartsCore(c: Config, w: World, w': World, p: S32, cpu: S32)
    requires Core(c, w) && Starts(w, w', p, cpu) && IsCpu(c, cpu) && !Busy(w, cpu)
    requires p in w.phase && w.phase[p] == Custody
    ensures Core(c, w')
  {
    assert OnCpus(w'.phase) == OnCpus(w.phase) + {p};
  }

  lemma RunCore(c: Config, w: World, e: Event)
    requires c.nrCpuIds <= MAX_CPUS && Core(c, w) && Enabled(c, w, e) && e.Run?
    ensures Core(c, Apply(c, w, e))
  {
    var p := w.k.board[FirstLocal(w.k.board, e.cpu)].pid;
    if p != c.usersched {
      RunStarts(c, w, e);
      StartsCore(c, w, Apply(c, w, e), p, e.cpu);
    }
  }

  lemma CoreStep(c: Config, w: World, e: Event)
    requires ConfigOk(c) && Core(c, w) && Enabled(c, w, e)
    ensures Core(c, Apply(c, w, e))
  {
    match e
    case Tick(_) => TickCore(c, w, e);
    case StopUser(_) => TickCore(c, w, e);
    case Spawn(_, _) => SpawnCore(c, w, e);
    case Wake(_) => WakeCore(c, w, e);
    case Run(_) => RunCore(c, w, e);
    case Stop(_, _) => StopCore(c, w, e);
    case Exit(_) => ExitCore(c, w, e);
    case _ =>
      CalmEvents(c, w, e);
      CalmKeepsCore(c, w, Apply(c, w, e));
  }

  // ---- homes ----

  /** The handlers never move a task to another CPU. */
  lemma FollowHome(c: Config, k: Kernel, pid: S32, flags: nat, ch: Choice, route: Route)
    requires pid in c.attrs && pid in k.tasks && HomeOk(c, k.tasks)
    ensures HomeOk(c, Follow(c, k, pid, flags, ch, route).tasks)
  {
    match route
    case ToUser =>
      assert PriorityInsert(k, pid, ch).tasks == k.tasks;
    case _ =>
  }

  lemma DispatchHome(c: Config, k: Kernel, m: DispatchedTask)
    requires (m.pid in k.tasks ==> m.pid in c.attrs) && HomeOk(c, k.tasks)
    ensures HomeOk(c, DispatchTask(c, k, m).tasks)
  {}

  lemma HomeStep(c: Config, w: World, e: Event)
    requires ConfigOk(c) && Known(c, w) && HomeOk(c, w.k.tasks) && BoardOk(c, w.k.board) && Enabled(c, w, e)
    ensures HomeOk(c, Apply(c, w, e).k.tasks)
  {
    match e
    case Drain => DispatchHome(c, w.k.(sent := w.k.sent[1..]), w.k.sent[0]);
    case Enqueue(pid, flags, ch) => FollowHome(c, w.k, pid, flags, ch, EnqueueRoute(c, w.k, pid, ch));
    case Run(_) => RunHome(c, w, e);
    case Select(_, _, _) => SelectHome(c, w, e);
    case Stop(_, _) => StopHome(c, w, e);
    case Spawn(_, _) => JoinHome(c, w, e);
    case Wake(_) => JoinHome(c, w, e);
    case Exit(_) => JoinHome(c, w, e);
    case _ => TasksAlone(c, w, e);
  }

  lemma JoinHome(c: Config, w: World, e: Event)
    requires HomeOk(c, w.k.tasks) && Enabled(c, w, e) && (e.Spawn? || e.Wake? || e.Exit?)
    ensures HomeOk(c, Apply(c, w, e).k.tasks)
  {}

  lemma TasksAlone(c: Config, w: World, e: Event)
    requires Enabled(c, w, e)
    requires e.Tick? || e.Fire? || e.Nudge? || e.Move? || e.StopUser? || e.Requeue? || e.UserTake? || e.UserPush?
    ensures Apply(c, w, e).k.tasks == w.k.tasks
  {}

  lemma SelectHome(c: Config, w: World, e: Event)
    requires HomeOk(c, w.k.tasks) && Enabled(c, w, e) && e.Select?
    ensures HomeOk(c, Apply(c, w, e).k.tasks)
  {}

  lemma StopHome(c: Config, w: World, e: Event)
    requires HomeOk(c, w.k.tasks) && Enabled(c, w, e) && e.Stop?
    ensures HomeOk(c, Apply(c, w, e).k.tasks)
  {}

  lemma RunHome(c: Config, w: World, e: Event)
    requires HomeOk(c, w.k.tasks) && BoardOk(c, w.k.board) && Enabled(c, w, e) && e.Run?
    ensures HomeOk(c, Apply(c, w, e).k.tasks)
  {
    assert EntryOk(c, w.k.board[FirstLocal(w.k.board, e.cpu)]);
  }

  // ---- placement ----

  lemma InsertBoard(c: Config, board: seq<Entry>, i: nat, e: Entry)
    requires BoardOk(c, board) && EntryOk(c, e) && i <= |board|
    ensures BoardOk(c, InsertAt(board, i, e))
  {}

  lemma RemoveBoard(c: Config, board: seq<Entry>, i: nat)
    requires BoardOk(c, board) && i < |board|
    ensures BoardOk(c, RemoveAt(board, i))
  {}

  /** Insertion into the DSQ of an allowed CPU or the shared DSQ is always in order. */
  lemma VtimeEntryOk(c: Config, pid: S32, id: nat, vtime: nat)
    requires pid in c.attrs
    requires id == SHARED_DSQ || (id < c.nrCpuIds <= MAX_CPUS && var cpu: S32 := id; cpu in c.attrs[pid].allowed)
    ensures EntryOk(c, Entry(Custom(id), pid, vtime, false))
  {}

  lemma EnqueueBoard(c: Config, k: Kernel, pid: S32, flags: nat, ch: Choice)
    requires ConfigOk(c) && pid in c.attrs && pid in k.tasks && pid != c.usersched
    requires HomeOk(c, k.tasks) && BoardOk(c, k.board) && ChoiceOk(c, pid, ch)
    ensures BoardOk(c, EnqueueTask(c, k, pid, flags, ch).board)
  {
    assert AttrOk(c, pid, c.attrs[pid]);
    match EnqueueRoute(c, k, pid, ch)
    case Ignored =>
    case ToSched => InsertBoard(c, k.board, 0, Entry(Custom(SCHED_DSQ), pid, 0, true));
    case ToCpu(cpu) =>
      assert cpu in c.attrs[pid].allowed;
      VtimeInsertBoard(c, k, pid, CpuToDsq(cpu), k.tasks[pid].vtime);
    case ToUser =>
      var k1 := PriorityInsert(k, pid, ch);
      InsertBoard(c, k.board, 0, Entry(Local(PriorityCpu(k, pid, ch)), pid, 0, true));
      assert BoardOk(c, k1.board) && k1.tasks == k.tasks;
      VtimeInsertBoard(c, k1, pid, SHARED_DSQ, k1.tasks[pid].vtime);
  }

  lemma VtimeInsertBoard(c: Config, k: Kernel, pid: S32, id: nat, vtime: nat)
    requires pid in c.attrs && pid in k.tasks && BoardOk(c, k.board)
    requires id == SHARED_DSQ || (id < c.nrCpuIds <= MAX_CPUS && var cpu: S32 := id; cpu in c.attrs[pid].allowed)
    ensures BoardOk(c, InsertVtime(k, pid, Custom(id), vtime).board)
  {
    VtimeEntryOk(c, pid, id, vtime);
    InsertBoard(c, k.board, PlaceFor(k.board, Custom(id), vtime), Entry(Custom(id), pid, vtime, false));
  }

  lemma DispatchBoard(c: Config, k: Kernel, m: DispatchedTask)
    requires ConfigOk(c) && BoardOk(c, k.board) && (m.pid in k.tasks ==> m.pid in c.attrs)
    ensures BoardOk(c, DispatchTask(c, k, m).board)
  {
    if m.pid in k.tasks {
      assert AttrOk(c, m.pid, c.attrs[m.pid]);
      if m.cpu in c.attrs[m.pid].allowed { VtimeInsertBoard(c, k, m.pid, CpuToDsq(m.cpu), m.vtime); }
      VtimeInsertBoard(c, k, m.pid, SHARED_DSQ, m.vtime);
    }
  }

  lemma MoveBoard(c: Config, k: Kernel, cpu: S32, id: nat)
    requires ConfigOk(c) && BoardOk(c, k.board) && IsCpu(c, cpu)
    ensures BoardOk(c, MoveToLocal(c, k, cpu, id).board)
  {
    var i := FirstMovable(c, k.board, cpu, id);
    if i < |k.board| {
      RemoveBoard(c, k.board, i);
    }
  }

  lemma BoardStep(c: Config, w: World, e: Event)
    requires ConfigOk(c) && Known(c, w) && HomeOk(c, w.k.tasks) && BoardOk(c, w.k.board) && Enabled(c, w, e)
    ensures BoardOk(c, Apply(c, w, e).k.board)
  {
    match e
    case Enqueue(pid, flags, ch) => EnqueueBoard(c, w.k, pid, flags, ch);
    case Select(pid, pick, cpu) =>
      assert AttrOk(c, pid, c.attrs[pid]);
      if SelectInserts(c, w.k, pid, pick) {
        VtimeInsertBoard(c, w.k, pid, CpuToDsq(pick), w.k.tasks[pid].vtime);
      }
    case Drain => DispatchBoard(c, w.k.(sent := w.k.sent[1..]), w.k.sent[0]);
    case Fire =>
      assert AttrOk(c, c.usersched, c.attrs[c.usersched]);
      InsertBoard(c, w.k.board, 0, Entry(Custom(SCHED_DSQ), c.usersched, 0, true));
    case Move(cpu, id) => MoveBoard(c, w.k, cpu, id);
    case Run(cpu) => RemoveBoard(c, w.k.board, FirstLocal(w.k.board, cpu));
    case Requeue(pid) => InsertBoard(c, w.k.board, 0, Entry(Local(w.k.tasks[pid].cpu), pid, 0, true));
    case _ =>
  }

  // ---- messages ----

  lemma EnqueueQueue(c: Config, k: Kernel, pid: S32, flags: nat, ch: Choice)
    requires ConfigOk(c) && pid in c.attrs && pid in k.tasks && QueueOk(c, k.queued)
    requires k.tasks[pid].startTs <= k.tasks[pid].stopTs < U64
    ensures QueueOk(c, EnqueueTask(c, k, pid, flags, ch).queued)
  {
    assert AttrOk(c, pid, c.attrs[pid]);
    var k1 := PriorityInsert(k, pid, ch);
    assert k1.queued == k.queued && k1.tasks == k.tasks;
    assert MessageOk(c, Message(c, k1, pid, flags));
  }

  lemma QueueStep(c: Config, w: World, e: Event)
    requires ConfigOk(c) && Core(c, w) && QueueOk(c, w.k.queued) && Enabled(c, w, e)
    ensures QueueOk(c, Apply(c, w, e).k.queued)
  {
    match e
    case Enqueue(pid, flags, ch) =>
      assert TimeOk(w.k.tasks[pid], w.phase[pid], w.now);
      EnqueueQueue(c, w.k, pid, flags, ch);
    case UserTake =>
    case Drain => DispatchQueue(c, w.k.(sent := w.k.sent[1..]), w.k.sent[0]);
    case _ => QueueAlone(c, w, e);
  }

  lemma DispatchQueue(c: Config, k: Kernel, m: DispatchedTask)
    requires m.pid in k.tasks ==> m.pid in c.attrs
    ensures DispatchTask(c, k, m).queued == k.queued
  {}

  lemma QueueAlone(c: Config, w: World, e: Event)
    requires Enabled(c, w, e) && !e.Enqueue? && !e.UserTake? && !e.Drain?
    ensures Apply(c, w, e).k.queued == w.k.queued
  {}

  lemma SafeStep(c: Config, w: World, e: Event)
    requires ConfigOk(c) && Safe(c, w) && Enabled(c, w, e)
    ensures Safe(c, Apply(c, w, e))
  {
    CoreStep(c, w, e);
    HomeStep(c, w, e);
    BoardStep(c, w, e);
    QueueStep(c, w, e);
  }

  /** Every state of every run is safe: running_task is truthful, nr_running counts, timestamps are
      ordered, every queue holds only tasks that may be there. */
  lemma {:induction false} SafeAlways(c: Config, ws: seq<World>, es: seq<Event>, n: nat)
    requires ConfigOk(c) && IsRun(c, ws, es) && n < |ws|
    ensures Safe(c, ws[n])
  {
    if n == 0 {
      assert OnCpus(ws[0].phase) == {};
    } else {
      SafeAlways(c, ws, es, n - 1);
      assert Follows(c, ws, es, n - 1);
      SafeStep(c, ws[n - 1], es[n - 1]);
    }
  }

  /** At all times running_task names the ordinary task on each busy CPU, no CPU runs two of them, and
      nr_running is their number. */
  lemma RunningTaskTruthful(c: Config, ws: seq<World>, es: seq<Event>, n: nat, p: S32, q: S32)
    requires ConfigOk(c) && IsRun(c, ws, es) && n < |ws|
    requires p in ws[n].phase && ws[n].phase[p].OnCpu?
    ensures var cpu := ws[n].phase[p].cpu;
      && cpu in ws[n].k.runningTask && ws[n].k.runningTask[cpu] == p
      && (q in ws[n].phase && ws[n].phase[q] == OnCpu(cpu) ==> q == p)
    ensures ws[n].k.nrRunning == |OnCpus(ws[n].phase)|
  {
    SafeAlways(c, ws, es, n);
  }

  /** At all times every waiting task is in a queue that exists and that it may be in: the queue of a
      CPU in its affinity, the shared DSQ, or, for scheduler threads only, the scheduler's DSQ. */
  lemma PlacementAlways(c: Config, ws: seq<World>, es: seq<Event>, n: nat, i: nat)
    requires ConfigOk(c) && IsRun(c, ws, es) && n < |ws| && i < |ws[n].k.board|
    ensures var e := ws[n].k.board[i];
      e.pid in c.attrs &&
      match e.spot
      case Local(cpu) => cpu in c.attrs[e.pid].allowed
      case Custom(id) =>
        || (id == SHARED_DSQ && !e.fifo)
        || (id == SCHED_DSQ && e.fifo && c.attrs[e.pid].tgid == c.usersched)
        || (id < c.nrCpuIds && !e.fifo && var cpu: S32 := id; cpu in c.attrs[e.pid].allowed)
  {
    SafeAlways(c, ws, es, n);
    assert EntryOk(c, ws[n].k.board[i]);
  }
}
