/** Run-time accounting over whole runs: exec_runtime against the time a task really spent on a CPU. */
module Lifecycle {
  import opened Words
  import opened Kernel
  import opened World
  import opened WorldSafety

  predicate Runs(w: World, pid: S32) { pid in w.phase && w.phase[pid].OnCpu? }

  /** Time task pid was on a CPU during the first n events, since it last woke up (or joined). */
  function TimeOnCpu(ws: seq<World>, es: seq<Event>, pid: S32, n: nat): nat
    requires n <= |es| && n <= |ws|
  {
    if n == 0 then 0
    else
      match es[n - 1]
      case Spawn(p, _) => if p == pid then 0 else TimeOnCpu(ws, es, pid, n - 1)
      case Wake(p) => if p == pid then 0 else TimeOnCpu(ws, es, pid, n - 1)
      case Tick(d) => TimeOnCpu(ws, es, pid, n - 1) + (if Runs(ws[n - 1], pid) then d else 0)
      case _ => TimeOnCpu(ws, es, pid, n - 1)
  }

  /** Wall-clock time over the same stretch. */
  function WallTime(es: seq<Event>, pid: S32, n: nat): nat
    requires n <= |es|
  {
    if n == 0 then 0
    else
      match es[n - 1]
      case Spawn(p, _) => if p == pid then 0 else WallTime(es, pid, n - 1)
      case Wake(p) => if p == pid then 0 else WallTime(es, pid, n - 1)
      case Tick(d) => WallTime(es, pid, n - 1) + d
      case _ => WallTime(es, pid, n - 1)
  }

  /** The part of the current run that exec_runtime does not yet include. */
  function Open(w: World, pid: S32): int
    requires Exists(w, pid)
  {
    if w.phase[pid].OnCpu? then w.now - w.k.tasks[pid].startTs else 0
  }

  ghost predicate Accounts(w: World, pid: S32, total: nat) {
    Exists(w, pid) ==> w.k.tasks[pid].execRuntime + Open(w, pid) == total
  }

  lemma CalmAccounts(w: World, w': World, pid: S32, total: nat)
    requires Calm(w, w') && Accounts(w, pid, total)
    ensures Accounts(w', pid, total)
  {}

  lemma StopAccounts(c: Config, w: World, e: Event, pid: S32, total: nat)
    requires Core(c, w) && Enabled(c, w, e) && e.Stop? && Accounts(w, pid, total) && total < U64
    ensures Accounts(Apply(c, w, e), pid, total)
  {
    if e.pid == pid && Exists(w, pid) { assert TimeOk(w.k.tasks[pid], w.phase[pid], w.now); }
  }

  lemma RunAccounts(c: Config, w: World, e: Event, pid: S32, total: nat)
    requires Core(c, w) && Enabled(c, w, e) && e.Run? && Accounts(w, pid, total)
    ensures Accounts(Apply(c, w, e), pid, total)
  {}

  lemma {:induction false} WallBounds(ws: seq<World>, es: seq<Event>, pid: S32, n: nat)
    requires |ws| == |es| + 1 && n <= |es|
    requires forall i :: 0 <= i < |es| ==> es[i].Tick? ==> ws[i + 1].now == ws[i].now + es[i].d
    requires forall i :: 0 <= i < |es| ==> !es[i].Tick? ==> ws[i + 1].now == ws[i].now
    ensures TimeOnCpu(ws, es, pid, n) <= WallTime(es, pid, n) <= ws[n].now
  {
    if n > 0 { WallBounds(ws, es, pid, n - 1); }
  }

  lemma ClockStep(c: Config, w: World, e: Event)
    requires Enabled(c, w, e)
    ensures Apply(c, w, e).now == w.now + if e.Tick? then e.d else 0
  {
    if IsCalm(e) { CalmEvents(c, w, e); }
  }

  lemma RunWall(c: Config, ws: seq<World>, es: seq<Event>, pid: S32, n: nat)
    requires IsRun(c, ws, es) && n <= |es|
    ensures TimeOnCpu(ws, es, pid, n) <= WallTime(es, pid, n) <= ws[n].now
  {
    forall i | 0 <= i < |es|
      ensures ws[i + 1].now == ws[i].now + if es[i].Tick? then es[i].d else 0
    {
      assert Follows(c, ws, es, i);
      ClockStep(c, ws[i], es[i]);
    }
    WallBounds(ws, es, pid, n);
  }

  /** In every run, for every task: exec_runtime plus the run in progress is exactly the time the task
      has been on a CPU since it last woke up, and at most the wall time since then. */
  lemma {:induction false} ExecRuntimeIsTimeOnCpu(c: Config, ws: seq<World>, es: seq<Event>, pid: S32, n: nat)
    requires ConfigOk(c) && IsRun(c, ws, es) && n <= |es|
    ensures Accounts(ws[n], pid, TimeOnCpu(ws, es, pid, n))
    ensures TimeOnCpu(ws, es, pid, n) <= WallTime(es, pid, n)
  {
    RunWall(c, ws, es, pid, n);
    if n > 0 {
      ExecRuntimeIsTimeOnCpu(c, ws, es, pid, n - 1);
      AccountsAt(c, ws, es, pid, n - 1);
    }
  }

  lemma AccountsAt(c: Config, ws: seq<World>, es: seq<Event>, pid: S32, n: nat)
    requires ConfigOk(c) && IsRun(c, ws, es) && n < |es| && Accounts(ws[n], pid, TimeOnCpu(ws, es, pid, n))
    ensures Accounts(ws[n + 1], pid, TimeOnCpu(ws, es, pid, n + 1))
  {
    SafeAlways(c, ws, es, n);
    RunWall(c, ws, es, pid, n);
    assert Follows(c, ws, es, n) && ws[n].now < U64;
    AccountsStep(c, ws[n], es[n], pid, TimeOnCpu(ws, es, pid, n));
  }

  lemma AccountsStep(c: Config, w: World, e: Event, pid: S32, total: nat)
    requires Core(c, w) && Enabled(c, w, e) && Accounts(w, pid, total) && total < U64
    ensures Accounts(Apply(c, w, e), pid,
              match e
              case Spawn(p, _) => if p == pid then 0 else total
              case Wake(p) => if p == pid then 0 else total
              case Tick(d) => total + (if Runs(w, pid) then d else 0)
              case _ => total)
  {
    match e
    case Stop(_, _) => StopAccounts(c, w, e, pid, total);
    case Run(_) => RunAccounts(c, w, e, pid, total);
    case Tick(_) =>
    case Spawn(_, _) =>
    case Wake(_) =>
    case Exit(_) =>
    case StopUser(_) =>
    case _ =>
      CalmEvents(c, w, e);
      CalmAccounts(w, Apply(c, w, e), pid, total);
  }

  /** So the message sent at an enqueue reports exactly the time on CPU since the last wakeup, and its
      timestamps never make the policy's subtraction wrap. */
  lemma MessageReportsRun(c: Config, ws: seq<World>, es: seq<Event>, n: nat)
    requires ConfigOk(c) && IsRun(c, ws, es) && n < |es| && es[n].Enqueue?
    requires |ws[n + 1].k.queued| > |ws[n].k.queued|
    ensures var m := ws[n + 1].k.queued[|ws[n].k.queued|];
      && m.pid == es[n].pid
      && m.sumExecRuntime == TimeOnCpu(ws, es, m.pid, n) <= WallTime(es, m.pid, n)
      && m.startTs <= m.stopTs
      && m.pid in c.attrs && m.cpu in c.attrs[m.pid].allowed && m.nrCpusAllowed == |c.attrs[m.pid].allowed|
      && m.pid in ws[n].k.tasks && m.vtime == ws[n].k.tasks[m.pid].vtime
      && m.weight == c.attrs[m.pid].weight && m.tgid == c.attrs[m.pid].tgid != c.usersched
  {
    SafeAlways(c, ws, es, n);
    SafeAlways(c, ws, es, n + 1);
    ExecRuntimeIsTimeOnCpu(c, ws, es, es[n].pid, n);
    assert Follows(c, ws, es, n);
    NewMessage(c, ws[n].k, es[n].pid, es[n].flags, es[n].ch);
    assert MessageOk(c, ws[n + 1].k.queued[|ws[n].k.queued|]);
  }

  lemma NewMessage(c: Config, k: Kernel, pid: S32, flags: nat, ch: Choice)
    requires pid in c.attrs && pid in k.tasks
    requires |EnqueueTask(c, k, pid, flags, ch).queued| > |k.queued|
    ensures EnqueueTask(c, k, pid, flags, ch).queued == k.queued + [Message(c, k, pid, flags)]
  {
    var k1 := PriorityInsert(k, pid, ch);
    assert k1.queued == k.queued && k1.tasks == k.tasks;
  }
}
