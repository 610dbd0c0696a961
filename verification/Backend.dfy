/** The event handlers of main.bpf.c as imperative code over shared maps, queues and counters. Each one
    is proved against the state function of module Kernel that the run theorems are about. */
module Backend {
  import opened Words
  import opened TaskPool
  import opened Layout
  import opened Kernel
  import Spec = Kernel
  import IdlePick

  /** Dispatch slots available in one call of the dispatch handler. */
  const MAX_DISPATCH_SLOT := MAX_ENQUEUED_TASKS / 8

  const USERSCHED_TIMER_NS := 100_000_000

  /** The oldest n messages from user space, handled in order. */
  function DrainN(c: Config, k: Kernel, n: nat): Kernel
    requires n <= |k.sent| && k.tasks.Keys <= c.attrs.Keys
    decreases n
  {
    if n == 0 then k
    else
      var k' := k.(sent := k.sent[1..]);
      DispatchKeeps(c, k', k.sent[0]);
      DrainN(c, DispatchTask(c, k', k.sent[0]), n - 1)
  }

  lemma DispatchKeeps(c: Config, k: Kernel, m: DispatchedTask)
    requires m.pid in k.tasks ==> m.pid in c.attrs
    ensures DispatchTask(c, k, m).sent == k.sent && DispatchTask(c, k, m).tasks.Keys == k.tasks.Keys
  {}

  /** One more message is one more step at the end. */
  lemma {:induction false} DrainSnoc(c: Config, k: Kernel, n: nat)
    requires n < |k.sent| && k.tasks.Keys <= c.attrs.Keys
    ensures var d := DrainN(c, k, n);
      && d.sent == k.sent[n..] && d.tasks.Keys == k.tasks.Keys
      && DrainN(c, k, n + 1) == DispatchTask(c, d.(sent := d.sent[1..]), d.sent[0])
    decreases n
  {
    var k' := k.(sent := k.sent[1..]);
    DispatchKeeps(c, k', k.sent[0]);
    var next := DispatchTask(c, k', k.sent[0]);
    if n == 0 {
      assert DrainN(c, next, 0) == next;
    } else {
      DrainSnoc(c, next, n - 1);
    }
  }

  /** The branch taken depends on the wakeup and the first idle search only, and every branch but the
      user-space one ignores the rest. */
  lemma RouteIgnores(c: Config, k: Kernel, pid: S32, flags: nat, ch: Choice, ch': Choice)
    requires pid in c.attrs && pid in k.tasks && ch'.wakeup == ch.wakeup && ch'.pick == ch.pick
    ensures EnqueueRoute(c, k, pid, ch) == EnqueueRoute(c, k, pid, ch')
    ensures !EnqueueRoute(c, k, pid, ch).ToUser? ==>
              Follow(c, k, pid, flags, ch, EnqueueRoute(c, k, pid, ch)) == EnqueueTask(c, k, pid, 0, ch')
  {}

  /** The user-space branch depends on nothing but the second search and the ring. */
  lemma PriorityIgnores(c: Config, k: Kernel, pid: S32, flags: nat, ch: Choice, ch': Choice)
    requires pid in c.attrs && pid in k.tasks && ch'.prio == ch.prio && ch'.ringFull == ch.ringFull
    ensures Follow(c, k, pid, flags, ch, ToUser) == Follow(c, k, pid, flags, ch', ToUser)
  {}

  lemma EntryAdds(board: seq<Entry>, i: nat, e: Entry)
    requires i <= |board|
    ensures multiset(board[..i] + [e] + board[i..]) == multiset(board) + multiset{e}
  {
    assert board == board[..i] + board[i..];
  }

  /** Which queue a dispatching CPU takes a task from. */
  datatype Source = Own | Shared | Scheduler | Nothing

  /** The order of preference: its own DSQ, the shared one, and the scheduler's only as a last resort. */
  function SourceFor(c: Config, k: Kernel, cpu: S32): Source {
    if CanMove(c, k, cpu, CpuToDsq(cpu)) then Own
    else if CanMove(c, k, cpu, SHARED_DSQ) then Shared
    else if CanMove(c, k, cpu, SCHED_DSQ) then Scheduler
    else Nothing
  }

  /** With nothing to run, pending work asks for the user scheduler. */
  function TakeOne(c: Config, k: Kernel, cpu: S32, nrScheduled: nat): Kernel {
    match SourceFor(c, k, cpu)
    case Own => MoveToLocal(c, k, cpu, CpuToDsq(cpu))
    case Shared => MoveToLocal(c, k, cpu, SHARED_DSQ)
    case Scheduler => MoveToLocal(c, k, cpu, SCHED_DSQ)
    case Nothing => if nrScheduled > 0 || k.queued != [] then k.(needed := true) else k
  }

  lemma KeysOf(m: map<S32, nat>, x: S32, v: nat)
    ensures |m - {x}| <= |m|
    ensures |m[x := v]| <= |m| + if x in m then 0 else 1
  {
    assert (m - {x}).Keys == m.Keys - {x} && m[x := v].Keys == m.Keys + {x};
    assert |m| == |m.Keys| && |m - {x}| == |(m - {x}).Keys| && |m[x := v]| == |m[x := v].Keys|;
  }

  /** The message asks for a CPU the task may use. */
  predicate Targets(c: Config, m: DispatchedTask) {
    m.cpu != 1_048_576 && m.pid in c.attrs && m.cpu in c.attrs[m.pid].allowed
  }

  /** The entry a message inserts if it inserts one: in the DSQ of the CPU it asks for, if the task may
      use that CPU, and in the shared one, number 1024, otherwise. */
  function Wanted(c: Config, m: DispatchedTask): Entry {
    Entry(Custom(if Targets(c, m) && 0 <= m.cpu < 1024 then m.cpu else 1024), m.pid, m.vtime, false)
  }

  /** A run from start to stop adds exactly its length, keeps the number of running tasks, and leaves
      the task recorded for its CPU; nothing else about any task changes. */
  lemma RunAddsItsLength(k: Kernel, pid: S32, cpu: S32, start: nat, stop: nat)
    requires pid in k.tasks && start <= stop && k.tasks[pid].execRuntime + (stop - start) < U64
    requires cpu in k.runningTask || |k.runningTask| < MAX_CPUS
    ensures var k' := Spec.Stopping(Spec.Running(k, pid, cpu, start), pid, stop);
      var t, t' := k.tasks[pid], k'.tasks[pid];
      && t'.execRuntime == t.execRuntime + (stop - start) && t'.startTs == start && t'.stopTs == stop
      && t'.vtime == t.vtime && t'.cpu == cpu
      && k'.nrRunning == k.nrRunning && cpu in k'.runningTask && k'.runningTask[cpu] == pid
      && k'.board == k.board && k'.priority == k.priority
      && k'.tasks.Keys == k.tasks.Keys && forall q :: q in k.tasks && q != pid ==> k'.tasks[q] == k.tasks[q]
  {
    var t := k.tasks[pid];
    assert (t.execRuntime + (stop - start)) % U64 == t.execRuntime + (stop - start);
  }

  /** The plain search: some idle CPU of the mask, which is claimed, or -EBUSY if there is none. */
  ghost predicate PicksAny(mask: set<S32>, idle: set<S32>, cpu: S32, idle': set<S32>) {
    if mask * idle == {} then cpu == -EBUSY && idle' == idle
    else cpu in mask && cpu in idle && idle' == idle - {cpu}
  }

  /** Enqueue looks for an idle CPU for direct dispatch: a wakeup that no earlier branch has taken. */
  predicate SearchesFirst(c: Config, k: Kernel, pid: S32, wakeup: bool)
    requires pid in c.attrs && pid in k.tasks
  {
    c.builtinIdle && wakeup && EnqueueRoute(c, k, pid, Choice(false, -EBUSY, -EBUSY, false)).ToUser?
  }

  class Handlers {
    const c: Config
    const idle: IdlePick.IdleCpus
    /** Whether draining the ring stops when the callback returns a nonzero value (or zero). */
    const stopsOnNonzero: bool

    var board: seq<Entry>
    var queued: seq<QueuedTask>
    var sent: seq<DispatchedTask>
    var priority: map<S32, nat>
    var runningTask: map<S32, S32>
    var tasks: map<S32, TaskCtx>
    var preempts: seq<S32>
    var needed: bool
    var nrQueued: nat
    var nrScheduled: nat
    var nrRunning: int
    var userschedLastRunAt: nat

    constructor (c: Config, idle: IdlePick.IdleCpus, stopsOnNonzero: bool)
      ensures this.c == c && this.idle == idle && this.stopsOnNonzero == stopsOnNonzero
      ensures K() == Kernel([], [], [], map[], map[], map[], [], false, 0, 0) && nrScheduled == 0
    {
      this.c, this.idle, this.stopsOnNonzero := c, idle, stopsOnNonzero;
      board, queued, sent := [], [], [];
      priority, runningTask, tasks, preempts := map[], map[], map[], [];
      needed, nrQueued, nrScheduled, nrRunning, userschedLastRunAt := false, 0, 0, 0, 0;
    }

    /** The state the specification functions work on. */
    ghost function K(): Kernel
      reads this
    {
      Kernel(board, queued, sent, priority, runningTask, tasks, preempts, needed, nrQueued, nrRunning)
    }

    ghost predicate Knows(pid: S32)
      reads this
    {
      pid in c.attrs && pid in tasks
    }

    method InsertVtime(pid: S32, id: nat, vtime: nat)
      requires pid in tasks
      modifies `board, `tasks
      ensures K() == Spec.InsertVtime(old(K()), pid, Custom(id), vtime)
      ensures multiset(board) == multiset(old(board)) + multiset{Entry(Custom(id), pid, vtime, false)}
    {
      EntryAdds(board, PlaceFor(board, Custom(id), vtime), Entry(Custom(id), pid, vtime, false));
      var i := PlaceFor(board, Custom(id), vtime);
      board := board[..i] + [Entry(Custom(id), pid, vtime, false)] + board[i..];
      tasks := tasks[pid := tasks[pid].(vtime := vtime)];
    }

    method InsertHead(pid: S32, spot: Spot)
      modifies `board
      ensures K() == Spec.InsertHead(old(K()), pid, spot)
      ensures board == [Entry(spot, pid, 0, true)] + old(board)
    {
      board := [Entry(spot, pid, 0, true)] + board;
      assert board == InsertAt(old(board), 0, Entry(spot, pid, 0, true));
    }

    /** Look for an idle CPU and, if both queues that matter are empty, put the task there. The ghost
        result is what the idle search returned. */
    method TryDirectDispatch(pid: S32, q: IdlePick.Query) returns (cpu: S32, dispatched: bool, ghost pick: S32)
      requires ConfigOk(c) && Knows(pid) && q.allowed == c.attrs[pid].allowed && q.nrCpuIds == c.nrCpuIds
      requires IdlePick.WellFormed(q, idle.idle)
      modifies `board, `tasks, idle
      ensures idle.idle <= old(idle.idle)
      ensures if c.builtinIdle then IdlePick.Outcome(q, old(idle.idle), old(idle.FullIdle()), pick, idle.idle)
              else pick == -EBUSY && idle.idle == old(idle.idle)
      ensures c.builtinIdle && IdlePick.TakesForbidden(q, old(idle.idle), old(idle.FullIdle())) ==>
                pick == q.prev && !dispatched && cpu == -EBUSY && q.prev !in idle.idle && K() == old(K())
      ensures pick < c.nrCpuIds && (dispatched <==> CanDirect(c, old(K()), pid, pick))
      ensures cpu == (if c.builtinIdle && 0 <= pick && pick !in q.allowed then -EBUSY else pick)
      ensures K() == if dispatched then Spec.InsertVtime(old(K()), pid, Custom(CpuToDsq(pick)), old(tasks[pid].vtime))
                     else old(K())
    {
      if !c.builtinIdle {
        return -EBUSY, false, -EBUSY;
      }
      ghost var was, full := idle.idle, idle.FullIdle();
      cpu := idle.PickIdleCpu(q);
      pick := cpu;
      IdlePick.ForbiddenExactly(q, was, full, cpu, idle.idle);
      if cpu < 0 {
        return cpu, false, pick;
      }
      if cpu !in q.allowed {
        return -EBUSY, false, pick;
      }
      dispatched := DsqEmpty(board, SHARED_DSQ) && DsqEmpty(board, CpuToDsq(cpu));
      if dispatched {
        InsertVtime(pid, CpuToDsq(cpu), tasks[pid].vtime);
      }
    }

    /** select_cpu: the CPU the task should wake up on; an idle one, else the waker's on a synchronous
        wakeup, else the previous one. */
    method SelectCpu(pid: S32, prev: S32, waker: Option<S32>, q: IdlePick.Query) returns (cpu: S32, ghost pick: S32)
      requires ConfigOk(c) && Knows(pid) && q.allowed == c.attrs[pid].allowed && q.nrCpuIds == c.nrCpuIds
      requires IdlePick.WellFormed(q, idle.idle)
      modifies `board, `tasks, idle
      ensures pick < c.nrCpuIds && K() == Spec.SelectCpu(c, old(K()), pid, pick)
      ensures if pid != c.usersched && c.builtinIdle
              then IdlePick.Outcome(q, old(idle.idle), old(idle.FullIdle()), pick, idle.idle)
              else pick == -EBUSY && idle.idle == old(idle.idle)
      ensures cpu == if pid == c.usersched then prev
                     else if pick >= 0 && pick in q.allowed then pick
                     else if waker.Some? then waker.value else prev
    {
      if pid == c.usersched {
        return prev, -EBUSY;
      }
      var dispatched;
      cpu, dispatched, pick := TryDirectDispatch(pid, q);
      if cpu >= 0 {
        return cpu, pick;
      }
      return if waker.Some? then waker.value else prev, pick;
    }

    /** The priority path: straight to a local queue, preempting unless a prioritized task runs there. */
    method InsertPrioritized(pid: S32) returns (ghost prio: S32)
      requires Knows(pid) && pid in priority
      modifies `board, `preempts, idle
      ensures PicksAny(c.attrs[pid].allowed, old(idle.idle), prio, idle.idle)
      ensures prio >= 0 ==> board == [Entry(Local(prio), pid, 0, true)] + old(board)
      ensures prio == -16 && tasks[pid].cpu >= 0 ==> board == [Entry(Local(tasks[pid].cpu), pid, 0, true)] + old(board)
      ensures K() == PriorityInsert(old(K()), pid, Choice(false, 0, prio, false))
    {
      var prioCpu := idle.PickIdle(c.attrs[pid].allowed, false);
      prio := prioCpu;
      if prioCpu == -EBUSY {
        prioCpu := tasks[pid].cpu;
      }
      if prioCpu >= 0 {
        var preempt := true;
        if prioCpu in runningTask {
          var cur := runningTask[prioCpu];
          if cur in priority {
            preempt := false;
          }
        }
        InsertHead(pid, Local(prioCpu));
        if preempt {
          preempts := preempts + [prioCpu];
        }
      }
    }

    /** The branches of enqueue that need no user-space decision; done tells whether one was taken. */
    method EnqueueDirectly(pid: S32, wakeup: bool, q: IdlePick.Query) returns (done: bool, ghost pick: S32)
      requires ConfigOk(c) && Knows(pid) && q.allowed == c.attrs[pid].allowed && q.nrCpuIds == c.nrCpuIds
      requires IdlePick.WellFormed(q, idle.idle)
      modifies `board, `tasks, idle
      ensures pick < c.nrCpuIds
      ensures if SearchesFirst(c, old(K()), pid, wakeup)
              then IdlePick.Outcome(q, old(idle.idle), old(idle.FullIdle()), pick, idle.idle)
              else pick == -EBUSY && idle.idle == old(idle.idle)
      ensures var route := EnqueueRoute(c, old(K()), pid, Choice(wakeup, pick, -EBUSY, false));
        && (done <==> route != ToUser)
        && K() == if done then EnqueueTask(c, old(K()), pid, 0, Choice(wakeup, pick, -EBUSY, false)) else old(K())
    {
      var a := c.attrs[pid];
      if pid == c.usersched {
        return true, -EBUSY;
      }
      if a.tgid == c.usersched {
        InsertHead(pid, Custom(SCHED_DSQ));
        return true, -EBUSY;
      }
      if a.kthread && |a.allowed| == 1 && c.earlyProcessing {
        InsertVtime(pid, CpuToDsq(tasks[pid].cpu), tasks[pid].vtime);
        return true, -EBUSY;
      }
      if a.kswapd || (c.khugepaged != 0 && pid == c.khugepaged) {
        InsertVtime(pid, CpuToDsq(tasks[pid].cpu), tasks[pid].vtime);
        return true, -EBUSY;
      }
      if c.builtinIdle && wakeup {
        var cpu;
        cpu, done, pick := TryDirectDispatch(pid, q);
        return done, pick;
      }
      return false, -EBUSY;
    }

    /** The rest of enqueue: the priority path, and the report to user space. */
    method EnqueueForUser(pid: S32, flags: nat, ringFull: bool) returns (ghost prio: S32)
      requires Knows(pid)
      modifies `board, `tasks, `queued, `nrQueued, `preempts, idle
      ensures if pid in priority then PicksAny(c.attrs[pid].allowed, old(idle.idle), prio, idle.idle)
              else prio == -EBUSY && idle.idle == old(idle.idle)
      ensures K() == Follow(c, old(K()), pid, flags, Choice(false, 0, prio, ringFull), ToUser)
    {
      prio := -EBUSY;
      ghost var k := K();
      if pid in priority {
        prio := InsertPrioritized(pid);
      }
      assert K() == PriorityInsert(k, pid, Choice(false, 0, prio, ringFull));
      SubmitToUser(pid, flags, ringFull);
    }

    /** enqueue: a task that did not get a CPU in select_cpu. The ghost results are what it learned from
        the idle searches, and the idle set between them. */
    method Enqueue(pid: S32, flags: nat, wakeup: bool, ringFull: bool, q: IdlePick.Query)
      returns (ghost ch: Choice, ghost mid: set<S32>)
      requires ConfigOk(c) && Knows(pid) && q.allowed == c.attrs[pid].allowed && q.nrCpuIds == c.nrCpuIds
      requires IdlePick.WellFormed(q, idle.idle)
      modifies `board, `tasks, `queued, `nrQueued, `preempts, idle
      ensures ch.wakeup == wakeup && ch.ringFull == ringFull && ChoiceOk(c, pid, ch)
      ensures if SearchesFirst(c, old(K()), pid, wakeup)
              then IdlePick.Outcome(q, old(idle.idle), old(idle.FullIdle()), ch.pick, mid)
              else ch.pick == -EBUSY && mid == old(idle.idle)
      ensures if EnqueueRoute(c, old(K()), pid, ch).ToUser? && pid in priority
              then PicksAny(c.attrs[pid].allowed, mid, ch.prio, idle.idle)
              else ch.prio == -EBUSY && idle.idle == mid
      ensures K() == EnqueueTask(c, old(K()), pid, flags, ch)
    {
      var done;
      ghost var pick, prio := -EBUSY, -EBUSY;
      done, pick := EnqueueDirectly(pid, wakeup, q);
      mid := idle.idle;
      ghost var ch0 := Choice(wakeup, pick, -EBUSY, false);
      ch := ch0.(ringFull := ringFull);
      RouteIgnores(c, old(K()), pid, flags, ch, ch0);
      if done {
        return;
      }
      prio := EnqueueForUser(pid, flags, ringFull);
      ch := ch.(prio := prio);
      RouteIgnores(c, old(K()), pid, flags, ch, ch0);
      PriorityIgnores(c, old(K()), pid, flags, ch, Choice(false, 0, prio, ringFull));
    }

    /** The task is in exactly one more place afterwards: a new last message, or a new entry of the
        shared DSQ. What is recorded about it stays as it was. */
    method SubmitToUser(pid: S32, flags: nat, ringFull: bool)
      requires Knows(pid)
      modifies `board, `tasks, `queued, `nrQueued
      ensures K() == Submit(c, old(K()), pid, flags, ringFull)
      ensures tasks == old(tasks)
      ensures if ringFull
        then queued == old(queued) && nrQueued == old(nrQueued)
             && multiset(board) == multiset(old(board)) + multiset{Entry(Custom(1024), pid, tasks[pid].vtime, false)}
        else board == old(board) && nrQueued == old(nrQueued) + 1 && |queued| == |old(queued)| + 1
             && queued[..|queued| - 1] == old(queued) && queued[|queued| - 1].pid == pid
             && queued[|queued| - 1] == QueuedTask(pid, tasks[pid].cpu, |c.attrs[pid].allowed|, flags, tasks[pid].startTs,
                  tasks[pid].stopTs, tasks[pid].execRuntime, c.attrs[pid].weight, tasks[pid].vtime, c.attrs[pid].tgid)
    {
      if ringFull {
        InsertVtime(pid, SHARED_DSQ, tasks[pid].vtime);
        assert tasks == old(tasks);
        return;
      }
      var a, t := c.attrs[pid], tasks[pid];
      queued := queued + [QueuedTask(pid, t.cpu, |a.allowed|, flags, t.startTs, t.stopTs, t.execRuntime,
                                     a.weight, t.vtime, a.tgid)];
      nrQueued := nrQueued + 1;
    }

    /** Vtime 0 marks a task as prioritized, anything else unmarks it; marking may fail when full. */
    method UpdatePriorityTaskMap(pid: S32, vtime: nat, slice: nat)
      modifies `priority
      ensures K() == UpdatePriority(old(K()), pid, vtime, slice)
      ensures pid in priority <==> vtime == 0 && (pid in old(priority) || |old(priority)| < 4096)
      ensures pid in priority ==> priority[pid] == slice
      ensures forall q :: q != pid ==>
                (q in priority <==> q in old(priority)) && (q in priority ==> priority[q] == old(priority)[q])
      ensures |old(priority)| <= 4096 ==> |priority| <= 4096
    {
      KeysOf(priority, pid, slice);
      if vtime == 0 {
        if pid in priority || |priority| < MAX_ENQUEUED_TASKS {
          priority := priority[pid := slice];
        }
      } else {
        priority := priority - {pid};
      }
    }

    /** One message from user space. It inserts the wanted entry and nothing else, unless the task is
        gone or has been inserted already at its enqueue; and whether the task is prioritized afterwards
        is up to the message exactly if it asks for a CPU the task may use. */
    method HandleMessage(m: DispatchedTask)
      requires m.pid in tasks ==> m.pid in c.attrs
      modifies `board, `tasks, `priority
      ensures K() == DispatchTask(c, old(K()), m)
      ensures multiset(board) == multiset(old(board)) +
        if m.pid !in old(tasks) || (Targets(c, m) && m.vtime == 0 && m.pid in old(priority)) then multiset{}
        else multiset{Wanted(c, m)}
      ensures m.pid in tasks && Targets(c, m) ==>
        (m.pid in priority <==> m.vtime == 0 && (m.pid in old(priority) || |old(priority)| < 4096))
      ensures m.pid !in tasks || !Targets(c, m) ==> priority == old(priority)
      ensures forall q :: q != m.pid ==> (q in priority <==> q in old(priority))
    {
      if m.pid !in tasks {
        return;
      }
      if m.cpu == RL_CPU_ANY {
        InsertVtime(m.pid, SHARED_DSQ, m.vtime);
        return;
      }
      if m.cpu !in c.attrs[m.pid].allowed {
        InsertVtime(m.pid, SHARED_DSQ, m.vtime);
        return;
      }
      if m.vtime != 0 {
        InsertVtime(m.pid, CpuToDsq(m.cpu), m.vtime);
      } else if m.pid !in priority {
        InsertVtime(m.pid, CpuToDsq(m.cpu), m.vtime);
      }
      UpdatePriorityTaskMap(m.pid, m.vtime, m.sliceNs);
    }

    method TestAndClearNeeded() returns (was: bool)
      modifies `needed
      ensures was == old(needed) && !needed
    {
      was := needed;
      needed := false;
    }

    method MoveToLocal(cpu: S32, id: nat) returns (moved: bool)
      modifies `board
      ensures moved <==> CanMove(c, old(K()), cpu, id)
      ensures K() == Spec.MoveToLocal(c, old(K()), cpu, id)
    {
      var i := FirstMovable(c, board, cpu, id);
      if i == |board| {
        return false;
      }
      var e := board[i];
      board := board[..i] + board[i + 1..] + [Entry(Local(cpu), e.pid, e.vtime, true)];
      return true;
    }

    /** Take the oldest message out and handle it; the result is the number of slots it used. */
    method HandleFirst() returns (used: nat)
      requires tasks.Keys <= c.attrs.Keys && sent != []
      modifies `board, `tasks, `priority, `sent
      ensures used <= 1 && |board| == |old(board)| + used && tasks.Keys == old(tasks.Keys)
      ensures sent == old(sent)[1..]
      ensures K() == DispatchTask(c, old(K()).(sent := old(sent)[1..]), old(sent)[0])
    {
      var m := sent[0];
      DispatchKeeps(c, K().(sent := sent[1..]), m);
      sent := sent[1..];
      var waiting := |board|;
      HandleMessage(m);
      used := |board| - waiting;
    }

    /** The ring is drained from the oldest message on. The callback reports whether dispatch slots are
        left, and that value decides whether the drain goes on: if nonzero means stop, one message is
        handled; if zero means stop, all of them are, or as many as there are slots to insert tasks. */
    method DrainSent(slots: nat) returns (ghost n: nat)
      requires tasks.Keys <= c.attrs.Keys && slots > 1
      modifies `board, `tasks, `priority, `sent
      ensures n <= |old(sent)| && K() == DrainN(c, old(K()), n)
      ensures stopsOnNonzero ==> n == Min(1, |old(sent)|)
      ensures !stopsOnNonzero ==> n == |old(sent)| || |board| == |old(board)| + slots
      ensures |board| <= |old(board)| + n
    {
      ghost var first := K();
      n := 0;
      var left, go := slots, true;
      while go && sent != []
        invariant tasks.Keys <= c.attrs.Keys && left + |board| == slots + |first.board|
        invariant n <= |first.sent| && sent == first.sent[n..] && K() == DrainN(c, first, n)
        invariant go == if stopsOnNonzero then n == 0 else left > 0
        invariant 0 <= left && slots - n <= left && (stopsOnNonzero ==> n <= 1)
        decreases |sent|
      {
        DrainSnoc(c, first, n);
        var used := HandleFirst();
        left := left - used;
        n := n + 1;
        go := (left != 0) != stopsOnNonzero;
      }
    }

    /** dispatch: what a CPU does when its local queue runs empty. */
    method Dispatch(cpu: S32) returns (ghost n: nat)
      requires tasks.Keys <= c.attrs.Keys
      modifies this
      ensures n <= |old(sent)| && (stopsOnNonzero ==> n == Min(1, |old(sent)|))
      ensures !stopsOnNonzero && |old(sent)| < 511 ==> n == |old(sent)|
      ensures nrScheduled == old(nrScheduled)
      ensures K() == TakeOne(c, DrainN(c, FireScheduler(c, old(K())), n), cpu, nrScheduled)
    {
      var slots := MAX_DISPATCH_SLOT;
      var fired := TestAndClearNeeded();
      if fired {
        InsertHead(c.usersched, Custom(SCHED_DSQ));
        slots := slots - 1;
      }
      assert K() == FireScheduler(c, old(K()));
      n := DrainSent(slots);
      TakeTask(cpu);
    }

    /** The end of dispatch: one task for the local queue, or a request for the user scheduler. */
    method TakeTask(cpu: S32)
      modifies `board, `needed
      ensures K() == TakeOne(c, old(K()), cpu, nrScheduled)
    {
      var moved := MoveToLocal(cpu, CpuToDsq(cpu));
      if moved {
        return;
      }
      moved := MoveToLocal(cpu, SHARED_DSQ);
      if moved {
        return;
      }
      moved := MoveToLocal(cpu, SCHED_DSQ);
      if moved {
        return;
      }
      assert K() == old(K());
      if nrScheduled > 0 || queued != [] {
        needed := true;
      }
    }

    method Runnable(pid: S32)
      requires pid in tasks
      modifies `tasks
      ensures K() == if pid == c.usersched then old(K()) else Spec.Runnable(old(K()), pid)
    {
      if pid == c.usersched {
        return;
      }
      tasks := tasks[pid := tasks[pid].(execRuntime := 0)];
    }

    /** The user scheduler only leaves its time; any other task becomes the recorded one of its CPU, if
        there is room, and starts a run that adds nothing yet. */
    method Running(pid: S32, cpu: S32, now: nat)
      requires pid in tasks
      modifies `tasks, `runningTask, `nrRunning, `userschedLastRunAt
      ensures K() == if pid == c.usersched then old(K()) else Spec.Running(old(K()), pid, cpu, now)
      ensures userschedLastRunAt == if pid == c.usersched then now else old(userschedLastRunAt)
      ensures pid != c.usersched && (cpu in old(runningTask) || |old(runningTask)| < MAX_CPUS) ==>
                cpu in runningTask && runningTask[cpu] == pid
      ensures forall d :: d != cpu ==> (d in runningTask <==> d in old(runningTask))
      ensures forall d :: d != cpu && d in runningTask ==> runningTask[d] == old(runningTask)[d]
      ensures tasks[pid].execRuntime == old(tasks)[pid].execRuntime && tasks[pid].stopTs == old(tasks)[pid].stopTs
    {
      if pid == c.usersched {
        userschedLastRunAt := now;
        return;
      }
      if cpu in runningTask || |runningTask| < MAX_CPUS {
        runningTask := runningTask[cpu := pid];
      }
      nrRunning := nrRunning + 1;
      tasks := tasks[pid := tasks[pid].(cpu := cpu, startTs := now)];
    }

    /** The run that ends is added exactly, as long as time does not run backwards and the sum fits. */
    method Stopping(pid: S32, now: nat)
      requires pid in tasks
      modifies `tasks, `nrRunning
      ensures K() == if pid == c.usersched then old(K()) else Spec.Stopping(old(K()), pid, now)
      ensures var t, t' := old(tasks)[pid], tasks[pid];
        pid != c.usersched && t.startTs <= now && t.execRuntime + (now - t.startTs) < U64 ==>
          t'.startTs <= t'.stopTs == now && t'.execRuntime - t.execRuntime == t'.stopTs - t'.startTs
          && t'.vtime == t.vtime && t'.cpu == t.cpu
      ensures forall q :: q in old(tasks) && q != pid ==> q in tasks && tasks[q] == old(tasks)[q]
    {
      if pid == c.usersched {
        return;
      }
      nrRunning := nrRunning - 1;
      var t := tasks[pid];
      t := t.(stopTs := now);
      t := t.(execRuntime := (t.execRuntime + (now - t.startTs)) % U64);
      tasks := tasks[pid := t];
    }

    /** A CPU is taken away: if it ran a thread of the scheduler, ask for the scheduler again. */
    method CpuRelease(pid: S32)
      requires pid in c.attrs
      modifies `needed
      ensures needed <==> old(needed) || c.attrs[pid].tgid == c.usersched
    {
      if c.attrs[pid].tgid == c.usersched {
        needed := true;
      }
    }

    /** The heartbeat: ask for the scheduler if it has not run for a while and still exists. */
    method Timer(now: nat) returns (kick: S32)
      requires ConfigOk(c)
      modifies `needed, idle
      ensures needed <==> old(needed) || (now - userschedLastRunAt >= 100_000_000 && c.usersched in tasks)
      ensures idle.idle == if kick >= 0 then old(idle.idle) - {kick} else old(idle.idle)
    {
      kick := -EBUSY;
      if now - userschedLastRunAt >= USERSCHED_TIMER_NS && c.usersched in tasks {
        needed := true;
        assert AttrOk(c, c.usersched, c.attrs[c.usersched]);
        kick := idle.PickIdle(c.attrs[c.usersched].allowed, false);
      }
    }

    method ExitTask(pid: S32)
      modifies `priority
      ensures K() == UpdatePriority(old(K()), pid, 1, 0) && pid !in priority
    {
      UpdatePriorityTaskMap(pid, 1, 0);
    }
  }
}
