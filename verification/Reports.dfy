/** What a message says about its task, against the events that made it so. */
module Reports {
  import opened Words
  import opened Kernel
  import opened World
  import opened WorldSafety
  import Lifecycle
  import Layout

  /** Event i starts task pid on a CPU: it is the first one in that CPU's local queue. */
  predicate StartsAt(w: World, e: Event, pid: S32) {
    e.Run? && var b := w.k.board; var f := FirstLocal(b, e.cpu); f < |b| && b[f].pid == pid
  }

  /** The clock when pid last started among the first n events; 0 if it never did. */
  function LastStart(ws: seq<World>, es: seq<Event>, pid: S32, n: nat): nat
    requires n <= |es| && n <= |ws|
  {
    if n == 0 then 0
    else if es[n - 1].Spawn? && es[n - 1].pid == pid then 0
    else if StartsAt(ws[n - 1], es[n - 1], pid) then ws[n - 1].now
    else LastStart(ws, es, pid, n - 1)
  }

  /** The clock when pid last stopped; 0 if it never did. */
  function LastStop(ws: seq<World>, es: seq<Event>, pid: S32, n: nat): nat
    requires n <= |es| && n <= |ws|
  {
    if n == 0 then 0
    else if es[n - 1].Spawn? && es[n - 1].pid == pid then 0
    else if es[n - 1].Stop? && es[n - 1].pid == pid then ws[n - 1].now
    else LastStop(ws, es, pid, n - 1)
  }

  /** How long the last run of pid that has ended was; 0 if none has. */
  function LastLength(ws: seq<World>, es: seq<Event>, pid: S32, n: nat): int
    requires n <= |es| && n <= |ws|
  {
    if n == 0 then 0
    else if es[n - 1].Spawn? && es[n - 1].pid == pid then 0
    else if es[n - 1].Stop? && es[n - 1].pid == pid then ws[n - 1].now - LastStart(ws, es, pid, n - 1)
    else LastLength(ws, es, pid, n - 1)
  }

  /** The CPU pid last joined on, was sent to by select_cpu, or started on. */
  function LastCpu(ws: seq<World>, es: seq<Event>, pid: S32, n: nat): S32
    requires n <= |es| && n <= |ws|
  {
    if n == 0 then 0
    else
      var e := es[n - 1];
      if (e.Spawn? || e.Select?) && e.pid == pid then e.cpu
      else if StartsAt(ws[n - 1], e, pid) then e.cpu
      else LastCpu(ws, es, pid, n - 1)
  }

  // ---- one event ----

  /** What an event does to the record of a task that was there and stays. */
  ghost predicate Updates(w: World, w': World, e: Event, pid: S32)
    requires Exists(w, pid) && Exists(w', pid)
  {
    var t, t' := w.k.tasks[pid], w'.k.tasks[pid];
    && t'.startTs == (if StartsAt(w, e, pid) then w.now else t.startTs)
    && t'.stopTs == (if e.Stop? && e.pid == pid then w.now else t.stopTs)
    && t'.cpu == (if StartsAt(w, e, pid) || (e.Select? && e.pid == pid) then e.cpu else t.cpu)
    && (w.phase[pid].OnCpu? && !w'.phase[pid].OnCpu? ==> e.Stop? && e.pid == pid)
    && (StartsAt(w, e, pid) ==> w'.phase[pid].OnCpu?)
  }

  lemma FollowCpu(c: Config, k: Kernel, pid: S32, flags: nat, ch: Choice, route: Route)
    requires pid in c.attrs && pid in k.tasks
    ensures forall p :: p in k.tasks ==>
              p in Follow(c, k, pid, flags, ch, route).tasks && Follow(c, k, pid, flags, ch, route).tasks[p].cpu == k.tasks[p].cpu
  {
    match route
    case ToUser => assert PriorityInsert(k, pid, ch).tasks == k.tasks;
    case _ =>
  }

  lemma DispatchCpu(c: Config, k: Kernel, m: Layout.DispatchedTask)
    requires m.pid in k.tasks ==> m.pid in c.attrs
    ensures forall p :: p in k.tasks ==>
              p in DispatchTask(c, k, m).tasks && DispatchTask(c, k, m).tasks[p].cpu == k.tasks[p].cpu
  {}

  lemma CalmUpdates(c: Config, w: World, e: Event, pid: S32)
    requires Enabled(c, w, e) && IsCalm(e) && Exists(w, pid)
    ensures Exists(Apply(c, w, e), pid) && Updates(w, Apply(c, w, e), e, pid)
  {
    CalmEvents(c, w, e);
    match e
    case Enqueue(p, flags, ch) => FollowCpu(c, w.k, p, flags, ch, EnqueueRoute(c, w.k, p, ch));
    case Drain => DispatchCpu(c, w.k.(sent := w.k.sent[1..]), w.k.sent[0]);
    case Select(p, pick, _) => SelectUpdates(c, w, e, pid);
    case _ =>
  }

  lemma SelectUpdates(c: Config, w: World, e: Event, pid: S32)
    requires Enabled(c, w, e) && e.Select? && Exists(w, pid)
    ensures Exists(Apply(c, w, e), pid) && Updates(w, Apply(c, w, e), e, pid)
  {}

  lemma RunUpdates(c: Config, w: World, e: Event, pid: S32)
    requires Core(c, w) && Enabled(c, w, e) && e.Run? && Exists(w, pid)
    ensures Exists(Apply(c, w, e), pid) && Updates(w, Apply(c, w, e), e, pid)
  {}

  lemma OtherUpdates(c: Config, w: World, e: Event, pid: S32)
    requires Core(c, w) && Enabled(c, w, e) && !IsCalm(e) && !e.Run? && Exists(w, pid) && Exists(Apply(c, w, e), pid)
    ensures Updates(w, Apply(c, w, e), e, pid)
  {}

  lemma EventUpdates(c: Config, w: World, e: Event, pid: S32)
    requires Core(c, w) && Enabled(c, w, e) && Exists(w, pid) && Exists(Apply(c, w, e), pid)
    ensures Updates(w, Apply(c, w, e), e, pid)
  {
    if IsCalm(e) { CalmUpdates(c, w, e, pid); }
    else if e.Run? { RunUpdates(c, w, e, pid); }
    else { OtherUpdates(c, w, e, pid); }
  }

  /** A task comes into existence only by joining, with an empty record. */
  lemma EventCreates(c: Config, w: World, e: Event, pid: S32)
    requires Core(c, w) && Enabled(c, w, e) && !Exists(w, pid) && Exists(Apply(c, w, e), pid)
    ensures e.Spawn? && e.pid == pid
  {
    if IsCalm(e) { CalmEvents(c, w, e); }
  }

  // ---- over runs ----

  ghost predicate Recorded(ws: seq<World>, es: seq<Event>, pid: S32, n: nat)
    requires n <= |es| && n < |ws|
  {
    Exists(ws[n], pid) ==>
      var t := ws[n].k.tasks[pid];
      && t.startTs == LastStart(ws, es, pid, n) && t.stopTs == LastStop(ws, es, pid, n)
      && t.cpu == LastCpu(ws, es, pid, n)
      && (!ws[n].phase[pid].OnCpu? ==> t.stopTs - t.startTs == LastLength(ws, es, pid, n))
  }

  lemma RecordedStep(c: Config, ws: seq<World>, es: seq<Event>, pid: S32, n: nat)
    requires |ws| == |es| + 1 && n < |es| && Core(c, ws[n]) && Enabled(c, ws[n], es[n])
    requires ws[n + 1] == Apply(c, ws[n], es[n]) && Recorded(ws, es, pid, n)
    ensures Recorded(ws, es, pid, n + 1)
  {
    var w, e := ws[n], es[n];
    if Exists(ws[n + 1], pid) {
      if Exists(w, pid) { EventUpdates(c, w, e, pid); } else { EventCreates(c, w, e, pid); }
      assert e.Spawn? && e.pid == pid ==> ws[n + 1].k.tasks[pid] == TaskCtx(e.cpu, 0, 0, 0, 0);
    }
  }

  /** In every state of every run the record of each task holds the clock of its last start, the clock of
      its last stop, and its last CPU; once it has stopped, their difference is the length of that run. */
  lemma {:induction false} RecordsAreHistory(c: Config, ws: seq<World>, es: seq<Event>, pid: S32, n: nat)
    requires ConfigOk(c) && IsRun(c, ws, es) && n <= |es|
    ensures Recorded(ws, es, pid, n)
  {
    if n > 0 {
      RecordsAreHistory(c, ws, es, pid, n - 1);
      SafeAlways(c, ws, es, n - 1);
      assert Follows(c, ws, es, n - 1);
      RecordedStep(c, ws, es, pid, n - 1);
    }
  }

  /** A message carries the clocks of the task's last start and last stop, so that their difference is the
      length of its last run, and its last CPU, the flags of this enqueue, and what the kernel holds about
      the task. */
  lemma MessageIsHistory(c: Config, ws: seq<World>, es: seq<Event>, n: nat)
    requires ConfigOk(c) && IsRun(c, ws, es) && n < |es| && es[n].Enqueue?
    requires |ws[n + 1].k.queued| > |ws[n].k.queued|
    ensures ws[n + 1].k.queued[..|ws[n].k.queued|] == ws[n].k.queued
    ensures |ws[n + 1].k.queued| == |ws[n].k.queued| + 1
    ensures var m, p := ws[n + 1].k.queued[|ws[n].k.queued|], es[n].pid;
      && m.pid == p && m.flags == es[n].flags
      && m.startTs == LastStart(ws, es, p, n) && m.stopTs == LastStop(ws, es, p, n)
      && m.stopTs - m.startTs == LastLength(ws, es, p, n) && m.cpu == LastCpu(ws, es, p, n)
      && m.sumExecRuntime == Lifecycle.TimeOnCpu(ws, es, p, n)
      && p in c.attrs && m.nrCpusAllowed == |c.attrs[p].allowed| && m.weight == c.attrs[p].weight
      && m.tgid == c.attrs[p].tgid && p in ws[n].k.tasks && m.vtime == ws[n].k.tasks[p].vtime
  {
    var p := es[n].pid;
    SafeAlways(c, ws, es, n);
    RecordsAreHistory(c, ws, es, p, n);
    assert Follows(c, ws, es, n);
    Lifecycle.NewMessage(c, ws[n].k, p, es[n].flags, es[n].ch);
    Lifecycle.MessageReportsRun(c, ws, es, n);
    MessageFields(c, ws[n].k, p, es[n].flags);
  }

  lemma MessageFields(c: Config, k: Kernel, pid: S32, flags: nat)
    requires pid in c.attrs && pid in k.tasks
    ensures var m, t := Message(c, k, pid, flags), k.tasks[pid];
      m.flags == flags && m.startTs == t.startTs && m.stopTs == t.stopTs && m.cpu == t.cpu
  {}
}
