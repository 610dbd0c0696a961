/** What enqueue and select_cpu do to the queues, branch by branch, in plain terms: the shared DSQ has
    number 1024, the scheduler's 1025, and that of a CPU the CPU's own number. */
module Branches {
  import opened Words
  import opened TaskPool
  import opened Kernel
  import opened Census
  import DsqOrder

  /** One more entry, behind all entries of its DSQ that are not larger and ahead of the larger ones;
      nothing else moves. */
  ghost predicate Gains(b: seq<Entry>, b': seq<Entry>, e: Entry) {
    exists p ::
      && 0 <= p <= |b| && b' == b[..p] + [e] + b[p..]
      && (forall i :: 0 <= i < p && b[i].spot == e.spot ==> b[i].vtime <= e.vtime)
      && (p < |b| ==> b[p].spot == e.spot && e.vtime < b[p].vtime)
  }

  /** Nothing waits in DSQ id. */
  ghost predicate Vacant(b: seq<Entry>, id: nat) { forall i :: 0 <= i < |b| ==> b[i].spot != Custom(id) }

  /** Everything but the waiting tasks is as it was. */
  ghost predicate OnlyBoard(k: Kernel, k': Kernel) { k' == k.(board := k'.board) }

  lemma VtimeGains(k: Kernel, pid: S32, id: nat, vtime: nat)
    requires pid in k.tasks
    ensures Gains(k.board, InsertVtime(k, pid, Custom(id), vtime).board, Entry(Custom(id), pid, vtime, false))
    ensures k.tasks[pid].vtime == vtime ==> OnlyBoard(k, InsertVtime(k, pid, Custom(id), vtime))
  {
    DsqOrder.PlaceSeparates(k.board, Custom(id), vtime);
    var p := PlaceFor(k.board, Custom(id), vtime);
    assert InsertVtime(k, pid, Custom(id), vtime).board
        == k.board[..p] + [Entry(Custom(id), pid, vtime, false)] + k.board[p..];
    if k.tasks[pid].vtime == vtime {
      assert k.tasks[pid := k.tasks[pid].(vtime := vtime)] == k.tasks;
    }
  }

  /** The first half: the priority path. */
  lemma PriorityFirst(k: Kernel, pid: S32, ch: Choice)
    requires pid in k.tasks && PriorityTarget(k, pid, ch.prio) >= 0
    ensures var k1 := PriorityInsert(k, pid, ch);
      var early := if pid in k.priority then [Entry(Local(PriorityTarget(k, pid, ch.prio)), pid, 0, true)] else [];
      k1.board == early + k.board && k1 == k.(board := k1.board, preempts := k1.preempts)
  {
    assert [] + k.board == k.board;
    HeadFirst(k, pid, Local(PriorityTarget(k, pid, ch.prio)));
  }

  lemma HeadFirst(k: Kernel, pid: S32, spot: Spot)
    ensures InsertHead(k, pid, spot).board == [Entry(spot, pid, 0, true)] + k.board
  {}

  /** A task that user space never sees: a kernel thread bound to one CPU (if so configured), kswapd, or
      khugepaged. */
  predicate KeptInKernel(c: Config, pid: S32)
    requires pid in c.attrs
  {
    var a := c.attrs[pid];
    (a.kthread && |a.allowed| == 1 && c.earlyProcessing) || a.kswapd || (c.khugepaged != 0 && pid == c.khugepaged)
  }

  /** The direct path is open: an idle CPU was found that the task may use, and neither the shared DSQ nor
      that CPU's holds anything. */
  ghost predicate DirectOpen(c: Config, k: Kernel, pid: S32, pick: S32)
    requires pid in c.attrs
  {
    c.builtinIdle && 0 <= pick < 1024 && pick in c.attrs[pid].allowed && Vacant(k.board, 1024) && Vacant(k.board, pick)
  }

  /** The user scheduler itself is ignored; its other threads go to the head of DSQ 1025. */
  lemma SchedulerThreads(c: Config, k: Kernel, pid: S32, flags: nat, ch: Choice)
    requires pid in c.attrs && pid in k.tasks && (pid == c.usersched || c.attrs[pid].tgid == c.usersched)
    ensures var k' := EnqueueTask(c, k, pid, flags, ch);
      if pid == c.usersched then k' == k
      else OnlyBoard(k, k') && k'.board == [Entry(Custom(1025), pid, 0, true)] + k.board
  {
    HeadFirst(k, pid, Custom(1025));
  }

  /** Tasks kept in the kernel go to the DSQ of their own CPU, with their own vruntime. */
  lemma KernelTasks(c: Config, k: Kernel, pid: S32, flags: nat, ch: Choice)
    requires pid in c.attrs && pid in k.tasks && pid != c.usersched && c.attrs[pid].tgid != c.usersched
    requires KeptInKernel(c, pid) && 0 <= k.tasks[pid].cpu < 1024
    ensures var k', t := EnqueueTask(c, k, pid, flags, ch), k.tasks[pid];
      OnlyBoard(k, k') && Gains(k.board, k'.board, Entry(Custom(t.cpu), pid, t.vtime, false))
  {
    var t := k.tasks[pid];
    assert EnqueueTask(c, k, pid, flags, ch) == InsertVtime(k, pid, Custom(t.cpu), t.vtime);
    VtimeGains(k, pid, t.cpu, t.vtime);
  }

  /** A wakeup that skipped select_cpu goes to the DSQ of the CPU found, exactly if the direct path is
      open. */
  lemma DirectTasks(c: Config, k: Kernel, pid: S32, flags: nat, ch: Choice)
    requires pid in c.attrs && pid in k.tasks && pid != c.usersched && c.attrs[pid].tgid != c.usersched
    requires !KeptInKernel(c, pid) && ch.wakeup && DirectOpen(c, k, pid, ch.pick)
    ensures var k' := EnqueueTask(c, k, pid, flags, ch);
      OnlyBoard(k, k') && Gains(k.board, k'.board, Entry(Custom(ch.pick), pid, k.tasks[pid].vtime, false))
  {
    assert EnqueueTask(c, k, pid, flags, ch) == InsertVtime(k, pid, Custom(ch.pick), k.tasks[pid].vtime);
    VtimeGains(k, pid, ch.pick, k.tasks[pid].vtime);
  }

  /** The local queue a prioritized task is put into: that of the idle CPU found for it, or of its own CPU
      if there was none. */
  function PriorityTarget(k: Kernel, pid: S32, prio: S32): S32
    requires pid in k.tasks
  {
    if prio == -16 then k.tasks[pid].cpu else prio
  }

  /** The second half: the report, or the shared DSQ. */
  lemma ReportPlain(c: Config, k: Kernel, pid: S32, flags: nat, ringFull: bool)
    requires pid in c.attrs && pid in k.tasks
    ensures var k' := Submit(c, k, pid, flags, ringFull);
      && k'.sent == k.sent && k'.priority == k.priority && k'.tasks == k.tasks && k'.runningTask == k.runningTask
      && (if ringFull
          then k'.queued == k.queued && k'.nrQueued == k.nrQueued
               && Gains(k.board, k'.board, Entry(Custom(1024), pid, k.tasks[pid].vtime, false))
          else k'.board == k.board && k'.nrQueued == k.nrQueued + 1
               && |k'.queued| == |k.queued| + 1 && k'.queued[..|k.queued|] == k.queued
               && k'.queued[|k.queued|].pid == pid)
  {
    if ringFull { VtimeGains(k, pid, 1024, k.tasks[pid].vtime); }
  }

  /** Every other task is reported to user space by one more message, or goes to DSQ 1024 if the ring is
      full. Before that, exactly if it is prioritized, it goes to the head of the local queue of its
      target. */
  lemma UserTasks(c: Config, k: Kernel, pid: S32, flags: nat, ch: Choice)
    requires pid in c.attrs && pid in k.tasks && pid != c.usersched && c.attrs[pid].tgid != c.usersched
    requires !KeptInKernel(c, pid) && !(ch.wakeup && DirectOpen(c, k, pid, ch.pick)) && ch.pick < 1024
    requires PriorityTarget(k, pid, ch.prio) >= 0
    ensures var k' := EnqueueTask(c, k, pid, flags, ch);
      var early := if pid in k.priority then [Entry(Local(PriorityTarget(k, pid, ch.prio)), pid, 0, true)] else [];
      && k'.sent == k.sent && k'.priority == k.priority && k'.tasks == k.tasks && k'.runningTask == k.runningTask
      && (if ch.ringFull
          then k'.queued == k.queued && k'.nrQueued == k.nrQueued
               && Gains(early + k.board, k'.board, Entry(Custom(1024), pid, k.tasks[pid].vtime, false))
          else k'.board == early + k.board && k'.nrQueued == k.nrQueued + 1
               && |k'.queued| == |k.queued| + 1 && k'.queued[..|k.queued|] == k.queued
               && k'.queued[|k.queued|].pid == pid)
  {
    assert EnqueueRoute(c, k, pid, ch).ToUser?;
    PriorityFirst(k, pid, ch);
    assert EnqueueTask(c, k, pid, flags, ch) == Submit(c, PriorityInsert(k, pid, ch), pid, flags, ch.ringFull);
    ReportPlain(c, PriorityInsert(k, pid, ch), pid, flags, ch.ringFull);
  }

  /** select_cpu puts a task into the DSQ of the CPU found exactly if the direct path is open; it never
      does so for the user scheduler. */
  lemma SelectExactly(c: Config, k: Kernel, pid: S32, pick: S32)
    requires pid in c.attrs && pid in k.tasks && pick < 1024
    ensures var k' := SelectCpu(c, k, pid, pick);
      if pid != c.usersched && DirectOpen(c, k, pid, pick)
      then OnlyBoard(k, k') && Gains(k.board, k'.board, Entry(Custom(pick), pid, k.tasks[pid].vtime, false))
      else k' == k
  {
    if pid != c.usersched && DirectOpen(c, k, pid, pick) {
      VtimeGains(k, pid, pick, k.tasks[pid].vtime);
    }
  }
}
