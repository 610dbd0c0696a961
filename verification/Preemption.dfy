/** Which insertions preempt, over every run of the backend. */
module Preemption {
  import opened Words
  import opened TaskPool
  import opened Layout
  import opened Kernel
  import opened World
  import opened WorldSafety

  /** The event enqueues a prioritized task on the branch that puts it into a local queue. */
  ghost predicate PrioritizedEnqueue(c: Config, w: World, e: Event) {
    && e.Enqueue? && Enabled(c, w, e) && e.pid in w.k.priority
    && EnqueueRoute(c, w.k, e.pid, e.ch).ToUser? && PriorityCpu(w.k, e.pid, e.ch) >= 0
  }

  /** Preemption happens exactly at such an enqueue, on the CPU it chose, and exactly if the task
      recorded for that CPU is not prioritized. */
  lemma PreemptsExactly(c: Config, w: World, e: Event)
    requires Enabled(c, w, e)
    ensures Apply(c, w, e).k.preempts ==
      if PrioritizedEnqueue(c, w, e) && !Shielded(w.k, PriorityCpu(w.k, e.pid, e.ch))
      then w.k.preempts + [PriorityCpu(w.k, e.pid, e.ch)] else w.k.preempts
  {
    match e
    case Enqueue(pid, flags, ch) => EnqueuePreempts(c, w.k, pid, flags, ch);
    case _ =>
  }

  lemma EnqueuePreempts(c: Config, k: Kernel, pid: S32, flags: nat, ch: Choice)
    requires pid in c.attrs && pid in k.tasks
    ensures EnqueueTask(c, k, pid, flags, ch).preempts ==
      if EnqueueRoute(c, k, pid, ch).ToUser? then PriorityInsert(k, pid, ch).preempts else k.preempts
  {}

  /** In every reachable state: while a prioritized ordinary task runs on a CPU, a prioritized enqueue
      to that CPU goes to the head of its local queue without preempting. */
  lemma PrioritizedNotPreempted(c: Config, ws: seq<World>, es: seq<Event>, n: nat, q: S32)
    requires ConfigOk(c) && IsRun(c, ws, es) && n < |es| && PrioritizedEnqueue(c, ws[n], es[n])
    requires var cpu := PriorityCpu(ws[n].k, es[n].pid, es[n].ch);
      q in ws[n].phase && ws[n].phase[q] == OnCpu(cpu) && q in ws[n].k.priority
    ensures Shielded(ws[n].k, PriorityCpu(ws[n].k, es[n].pid, es[n].ch))
    ensures ws[n + 1].k.preempts == ws[n].k.preempts
  {
    SafeAlways(c, ws, es, n);
    assert Follows(c, ws, es, n);
    PreemptsExactly(c, ws[n], es[n]);
  }

  // ---- what running_task means when the task has left its CPU ----

  /** The ordinary task that started last on cpu during the first n events. */
  function LastStarted(c: Config, ws: seq<World>, es: seq<Event>, cpu: S32, n: nat): Option<S32>
    requires n <= |es| && n <= |ws|
  {
    if n == 0 then None
    else
      var b := ws[n - 1].k.board;
      if es[n - 1] == Run(cpu) && FirstLocal(b, cpu) < |b| && b[FirstLocal(b, cpu)].pid != c.usersched
      then Some(b[FirstLocal(b, cpu)].pid)
      else LastStarted(c, ws, es, cpu, n - 1)
  }

  lemma OwnerStep(c: Config, w: World, e: Event, cpu: S32)
    requires ConfigOk(c) && Safe(c, w) && Enabled(c, w, e)
    ensures var b, owner' := w.k.board, Apply(c, w, e).k.runningTask;
      if e == Run(cpu) && b[FirstLocal(b, cpu)].pid != c.usersched
      then cpu in owner' && owner'[cpu] == b[FirstLocal(b, cpu)].pid
      else (cpu in owner' <==> cpu in w.k.runningTask)
           && (cpu in owner' ==> owner'[cpu] == w.k.runningTask[cpu])
  {
    if e.Run? {
      if e.cpu !in w.k.runningTask { OwnersNeverFull(c, w.k.runningTask, e.cpu); }
    } else if IsCalm(e) {
      CalmEvents(c, w, e);
    }
  }

  /** running_task names, for each CPU, the ordinary task that started there last, gone or not. */
  lemma {:induction false} RecordedIsLastStarted(c: Config, ws: seq<World>, es: seq<Event>, cpu: S32, n: nat)
    requires ConfigOk(c) && IsRun(c, ws, es) && n <= |es|
    ensures cpu in ws[n].k.runningTask <==> LastStarted(c, ws, es, cpu, n).Some?
    ensures cpu in ws[n].k.runningTask ==> LastStarted(c, ws, es, cpu, n) == Some(ws[n].k.runningTask[cpu])
  {
    if n > 0 {
      RecordedIsLastStarted(c, ws, es, cpu, n - 1);
      SafeAlways(c, ws, es, n - 1);
      assert Follows(c, ws, es, n - 1);
      OwnerStep(c, ws[n - 1], es[n - 1], cpu);
    }
  }

  /** So an enqueue that may preempt spares the CPU exactly if the task that started there last is
      prioritized now, whether it still runs or not. */
  lemma SparedExactly(c: Config, ws: seq<World>, es: seq<Event>, n: nat)
    requires ConfigOk(c) && IsRun(c, ws, es) && n < |es| && PrioritizedEnqueue(c, ws[n], es[n])
    ensures var last := LastStarted(c, ws, es, PriorityCpu(ws[n].k, es[n].pid, es[n].ch), n);
      ws[n + 1].k.preempts == ws[n].k.preempts <==> last.Some? && last.value in ws[n].k.priority
  {
    RecordedIsLastStarted(c, ws, es, PriorityCpu(ws[n].k, es[n].pid, es[n].ch), n);
    assert Follows(c, ws, es, n);
    PreemptsExactly(c, ws[n], es[n]);
  }

  // ---- a CPU that is spared although nothing runs there ----

  lemma Extend(c: Config, ws: seq<World>, es: seq<Event>, e: Event) returns (ws': seq<World>, es': seq<Event>)
    requires IsRun(c, ws, es) && Enabled(c, ws[|es|], e)
    ensures ws' == ws + [Apply(c, ws[|es|], e)] && es' == es + [e]
    ensures IsRun(c, ws', es')
  {
    ws', es' := ws + [Apply(c, ws[|es|], e)], es + [e];
    forall i | 0 <= i < |es'| ensures Follows(c, ws', es', i) {
      assert i < |es| ==> Follows(c, ws, es, i);
    }
  }

  predicate Ordinary(c: Config, p: S32) {
    && p in c.attrs && p != c.usersched
    && c.attrs[p].tgid != c.usersched && !c.attrs[p].kthread && !c.attrs[p].kswapd && p != c.khugepaged
  }

  /** The world when p is the only ordinary task. */
  function Alone(c: Config, p: S32, k: Kernel, t: TaskCtx, ph: Phase): World {
    World(k.(tasks := map[c.usersched := TaskCtx(0, 0, 0, 0, 0), p := t]), map[p := ph], {}, 0)
  }

  function Quiet(c: Config): Kernel { Init(c).k }

  lemma Awake(c: Config, p: S32, cpu: S32) returns (ws: seq<World>, es: seq<Event>)
    requires ConfigOk(c) && Ordinary(c, p) && cpu in c.attrs[p].allowed
    ensures IsRun(c, ws, es) && ws[|es|] == Alone(c, p, Quiet(c), TaskCtx(cpu, 0, 0, 0, 0), Waking)
  {
    ws, es := [Init(c)], [];
    ws, es := Extend(c, ws, es, Spawn(p, cpu));
    assert ws[|es|] == Alone(c, p, Quiet(c), TaskCtx(cpu, 0, 0, 0, 0), Asleep);
    ws, es := Extend(c, ws, es, Wake(p));
  }

  function Reported(c: Config, p: S32, cpu: S32): Kernel
    requires p in c.attrs
  {
    var a := c.attrs[p];
    Quiet(c).(queued := [QueuedTask(p, cpu, |a.allowed|, 0, 0, 0, 0, a.weight, 0, a.tgid)], nrQueued := 1)
  }

  function Answered(c: Config, p: S32, cpu: S32): Kernel
    requires p in c.attrs
  {
    Reported(c, p, cpu).(sent := [DispatchedTask(p, cpu, 0, 1, 0, 0)])
  }

  lemma Asked(c: Config, p: S32, cpu: S32) returns (ws: seq<World>, es: seq<Event>)
    requires ConfigOk(c) && Ordinary(c, p) && cpu in c.attrs[p].allowed
    ensures IsRun(c, ws, es) && ws[|es|] == Alone(c, p, Answered(c, p, cpu), TaskCtx(cpu, 0, 0, 0, 0), Custody)
  {
    ws, es := Awake(c, p, cpu);
    ws, es := Extend(c, ws, es, Enqueue(p, 0, Choice(false, -EBUSY, -EBUSY, false)));
    assert ws[|es|] == Alone(c, p, Reported(c, p, cpu), TaskCtx(cpu, 0, 0, 0, 0), Custody);
    ws, es := Extend(c, ws, es, UserPush(DispatchedTask(p, cpu, 0, 1, 0, 0)));
  }

  /** p waits at spot, prioritized. */
  function Placed(c: Config, p: S32, cpu: S32, e: Entry): Kernel
    requires p in c.attrs
  {
    Reported(c, p, cpu).(board := [e], priority := map[p := 1])
  }

  lemma DrainPlaces(c: Config, p: S32, cpu: S32, w: World)
    requires ConfigOk(c) && Ordinary(c, p) && cpu in c.attrs[p].allowed
    requires w == Alone(c, p, Answered(c, p, cpu), TaskCtx(cpu, 0, 0, 0, 0), Custody)
    ensures cpu >= 0 && Enabled(c, w, Drain)
    ensures Apply(c, w, Drain)
            == Alone(c, p, Placed(c, p, cpu, Entry(Custom(cpu), p, 0, false)), TaskCtx(cpu, 0, 0, 0, 0), Custody)
  {
    assert AttrOk(c, p, c.attrs[p]);
    var k := w.k.(sent := []);
    assert w.k.sent[1..] == [];
    assert InsertVtime(k, p, Custom(cpu), 0).board == [Entry(Custom(cpu), p, 0, false)];
    assert UpdatePriority(k, p, 0, 1).priority == map[p := 1];
  }

  lemma MovePlaces(c: Config, p: S32, cpu: S32, w: World)
    requires ConfigOk(c) && Ordinary(c, p) && cpu in c.attrs[p].allowed && cpu >= 0
    requires w == Alone(c, p, Placed(c, p, cpu, Entry(Custom(cpu), p, 0, false)), TaskCtx(cpu, 0, 0, 0, 0), Custody)
    ensures Enabled(c, w, Move(cpu, cpu))
    ensures Apply(c, w, Move(cpu, cpu))
            == Alone(c, p, Placed(c, p, cpu, Entry(Local(cpu), p, 0, true)), TaskCtx(cpu, 0, 0, 0, 0), Custody)
  {
    assert AttrOk(c, p, c.attrs[p]);
    assert FirstMovable(c, w.k.board, cpu, cpu) == 0;
    assert RemoveAt(w.k.board, 0) == [];
  }

  lemma Waiting(c: Config, p: S32, cpu: S32) returns (ws: seq<World>, es: seq<Event>)
    requires ConfigOk(c) && Ordinary(c, p) && cpu in c.attrs[p].allowed
    ensures IsRun(c, ws, es)
    ensures ws[|es|] == Alone(c, p, Placed(c, p, cpu, Entry(Local(cpu), p, 0, true)), TaskCtx(cpu, 0, 0, 0, 0), Custody)
  {
    ws, es := Asked(c, p, cpu);
    DrainPlaces(c, p, cpu, ws[|es|]);
    ws, es := Extend(c, ws, es, Drain);
    MovePlaces(c, p, cpu, ws[|es|]);
    ws, es := Extend(c, ws, es, Move(cpu, cpu));
  }

  lemma RunStarts(c: Config, p: S32, cpu: S32, w: World)
    requires ConfigOk(c) && Ordinary(c, p) && cpu in c.attrs[p].allowed
    requires w == Alone(c, p, Placed(c, p, cpu, Entry(Local(cpu), p, 0, true)), TaskCtx(cpu, 0, 0, 0, 0), Custody)
    ensures Enabled(c, w, Run(cpu))
    ensures var w' := Apply(c, w, Run(cpu));
      w'.phase == map[p := OnCpu(cpu)] && w'.userCpus == {} && p in w'.k.tasks
      && w'.k.priority == map[p := 1] && w'.k.runningTask == map[cpu := p]
  {
    assert AttrOk(c, p, c.attrs[p]);
    assert FirstLocal(w.k.board, cpu) == 0;
    assert HashUpdate(w.k.runningTask, cpu, p, MAX_CPUS) == map[cpu := p];
  }

  /** For every ordinary task and every CPU it may use there is a run after which the CPU is spared
      although no task runs on it: the task is given vtime 0, runs there, and goes to sleep. */
  lemma StoppedTaskStillShields(c: Config, p: S32, cpu: S32) returns (ws: seq<World>, es: seq<Event>)
    requires ConfigOk(c) && Ordinary(c, p) && cpu in c.attrs[p].allowed
    ensures IsRun(c, ws, es)
    ensures var w := ws[|es|]; !Busy(w, cpu) && w.phase == map[p := Asleep] && Shielded(w.k, cpu)
  {
    ws, es := Waiting(c, p, cpu);
    RunStarts(c, p, cpu, ws[|es|]);
    ws, es := Extend(c, ws, es, Run(cpu));
    ws, es := Extend(c, ws, es, Stop(p, false));
  }
}
