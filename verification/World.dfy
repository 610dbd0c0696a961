/** Runs of the backend under any user-space scheduler: the events, and what always holds. */
module World {
  import opened Words
  import opened TaskPool
  import opened Layout
  import opened Kernel

  /** What the kernel is doing with a task. Custody: handed to the backend and not yet running. */
  datatype Phase = Asleep | Waking | Returning | Custody | OnCpu(cpu: S32)

  /** phase covers every existing task but the user scheduler, whose CPUs are in userCpus. */
  datatype World = World(k: Kernel, phase: map<S32, Phase>, userCpus: set<S32>, now: nat)

  datatype Event =
    | Tick(d: nat)                                   // time passes
    | Spawn(pid: S32, cpu: S32)                      // a task joins, vruntime zero
    | Wake(pid: S32)                                 // a sleeping task becomes runnable
    | Select(pid: S32, pick: S32, cpu: S32)          // select_cpu; the task now belongs to cpu
    | Enqueue(pid: S32, flags: nat, ch: Choice)
    | Drain                                          // one message from user space is handled
    | Fire                                           // test and clear the wake-up flag
    | Nudge                                          // any of the places that set the flag
    | Move(cpu: S32, id: nat)                        // move_to_local
    | Run(cpu: S32)                                  // the head of a local queue starts
    | Stop(pid: S32, runnable: bool)
    | StopUser(cpu: S32)                             // the user scheduler leaves a CPU
    | Requeue(pid: S32)                              // the kernel puts a task back on its local queue
    | Exit(pid: S32)
    | UserTake                                       // user space takes the oldest message
    | UserPush(m: DispatchedTask)                    // user space sends any message at all

  function Init(c: Config): World {
    World(Kernel([], [], [], map[], map[], map[c.usersched := TaskCtx(0, 0, 0, 0, 0)], [], false, 0, 0),
          map[], {}, 0)
  }

  /** Position of the first task waiting in the local queue of cpu, or the end. */
  function FirstLocal(board: seq<Entry>, cpu: S32): (i: nat)
    ensures i <= |board|
    ensures i < |board| ==> board[i].spot == Local(cpu)
  {
    if board == [] then 0 else if board[0].spot == Local(cpu) then 0 else 1 + FirstLocal(board[1..], cpu)
  }

  ghost predicate Busy(w: World, cpu: S32) {
    cpu in w.userCpus || exists p :: p in w.phase && w.phase[p] == OnCpu(cpu)
  }

  ghost predicate IsCpu(c: Config, cpu: S32) { 0 <= cpu < c.nrCpuIds }

  predicate Exists(w: World, pid: S32) { pid in w.phase && pid in w.k.tasks }

  /** When the kernel may deliver an event. */
  ghost predicate Enabled(c: Config, w: World, e: Event) {
    match e
    case Tick(d) => w.now + d < U64
    case Spawn(pid, cpu) => pid in c.attrs && pid !in w.k.tasks && cpu in c.attrs[pid].allowed
    case Wake(pid) => Exists(w, pid) && w.phase[pid] == Asleep
    case Select(pid, pick, cpu) =>
      && Exists(w, pid) && w.phase[pid] == Waking && pid in c.attrs
      && pick < c.nrCpuIds && cpu in c.attrs[pid].allowed
    case Enqueue(pid, flags, ch) =>
      && Exists(w, pid) && (w.phase[pid] == Waking || w.phase[pid] == Returning)
      && pid in c.attrs && ChoiceOk(c, pid, ch)
    case Drain => w.k.sent != [] && (w.k.sent[0].pid in w.k.tasks ==> w.k.sent[0].pid in c.attrs)
    case Fire => true
    case Nudge => true
    case Move(cpu, id) => IsCpu(c, cpu)
    case Run(cpu) =>
      && IsCpu(c, cpu) && !Busy(w, cpu)
      && var i := FirstLocal(w.k.board, cpu);
         i < |w.k.board| && var p := w.k.board[i].pid;
         p == c.usersched || (p in w.phase && w.phase[p] == Custody)
    case Stop(pid, runnable) => Exists(w, pid) && w.phase[pid].OnCpu?
    case StopUser(cpu) => cpu in w.userCpus
    case Requeue(pid) => Exists(w, pid) && w.phase[pid] == Returning
    case Exit(pid) => Exists(w, pid) && w.phase[pid] == Asleep
    case UserTake => w.k.queued != []
    case UserPush(m) => true
  }

  function DoRun(c: Config, w: World, cpu: S32): World {
    var i := FirstLocal(w.k.board, cpu);
    if i == |w.k.board| then w
    else
      var p := w.k.board[i].pid;
      var k := w.k.(board := RemoveAt(w.k.board, i));
      if p == c.usersched then w.(k := k, userCpus := w.userCpus + {cpu})
      else if p !in k.tasks then w
      else w.(k := Running(k, p, cpu, w.now), phase := w.phase[p := OnCpu(cpu)])
  }

  function DoStop(w: World, pid: S32, runnable: bool): World
    requires pid in w.phase && w.phase[pid].OnCpu? && pid in w.k.tasks
  {
    w.(k := Stopping(w.k, pid, w.now), phase := w.phase[pid := if runnable then Returning else Asleep])
  }

  ghost function Apply(c: Config, w: World, e: Event): World
    requires Enabled(c, w, e)
  {
    match e
    case Tick(d) => w.(now := w.now + d)
    case Spawn(pid, cpu) =>
      w.(k := w.k.(tasks := w.k.tasks[pid := TaskCtx(cpu, 0, 0, 0, 0)]), phase := w.phase[pid := Asleep])
    case Wake(pid) => w.(k := Runnable(w.k, pid), phase := w.phase[pid := Waking])
    case Select(pid, pick, cpu) =>
      var k := SelectCpu(c, w.k, pid, pick);
      w.(k := k.(tasks := k.tasks[pid := k.tasks[pid].(cpu := cpu)]),
         phase := if SelectInserts(c, w.k, pid, pick) then w.phase[pid := Custody] else w.phase)
    case Enqueue(pid, flags, ch) =>
      w.(k := EnqueueTask(c, w.k, pid, flags, ch), phase := w.phase[pid := Custody])
    case Drain => w.(k := DispatchTask(c, w.k.(sent := w.k.sent[1..]), w.k.sent[0]))
    case Fire => w.(k := FireScheduler(c, w.k))
    case Nudge => w.(k := w.k.(needed := true))
    case Move(cpu, id) => w.(k := MoveToLocal(c, w.k, cpu, id))
    case Run(cpu) => DoRun(c, w, cpu)
    case Stop(pid, runnable) => DoStop(w, pid, runnable)
    case StopUser(cpu) => w.(userCpus := w.userCpus - {cpu})
    case Requeue(pid) =>
      w.(k := InsertHead(w.k, pid, Local(w.k.tasks[pid].cpu)), phase := w.phase[pid := Custody])
    case Exit(pid) =>
      w.(k := UpdatePriority(w.k, pid, 1, 0).(tasks := w.k.tasks - {pid}), phase := w.phase - {pid})
    case UserTake => w.(k := w.k.(queued := w.k.queued[1..]))
    case UserPush(m) => w.(k := w.k.(sent := w.k.sent + [m]))
  }

  /** State i + 1 of a run comes from state i by event i. */
  ghost predicate Follows(c: Config, ws: seq<World>, es: seq<Event>, i: nat)
    requires i < |es| && |ws| == |es| + 1
  {
    Enabled(c, ws[i], es[i]) && ws[i + 1] == Apply(c, ws[i], es[i])
  }

  /** A run: states ws connected by events es, from the initial state. */
  ghost predicate IsRun(c: Config, ws: seq<World>, es: seq<Event>) {
    && |ws| == |es| + 1
    && ws[0] == Init(c)
    && forall i :: 0 <= i < |es| ==> Follows(c, ws, es, i)
  }
}
