/** Counting who is where: the pids held by each queue, and how the kernel-side handlers move them. */
module Census {
  import opened Words
  import opened TaskPool
  import opened Layout
  import opened Kernel

  /** The pids in a queue of any kind of record. */
  function Pids<T>(q: seq<T>, pid: T -> S32): (s: seq<S32>)
    ensures |s| == |q| && forall i :: 0 <= i < |q| ==> s[i] == pid(q[i])
  {
    seq(|q|, i requires 0 <= i < |q| => pid(q[i]))
  }

  function BoardPids(b: seq<Entry>): (s: seq<S32>)
    ensures |s| == |b| && forall i :: 0 <= i < |b| ==> s[i] == b[i].pid
  {
    Pids(b, (e: Entry) => e.pid)
  }

  function QueuedPids(q: seq<QueuedTask>): (s: seq<S32>)
    ensures |s| == |q| && forall i :: 0 <= i < |q| ==> s[i] == q[i].pid
  {
    Pids(q, (t: QueuedTask) => t.pid)
  }

  function SentPids(q: seq<DispatchedTask>): (s: seq<S32>)
    ensures |s| == |q| && forall i :: 0 <= i < |q| ==> s[i] == q[i].pid
  {
    Pids(q, (m: DispatchedTask) => m.pid)
  }

  function PoolPids(q: seq<Task>): (s: seq<S32>)
    ensures |s| == |q| && forall i :: 0 <= i < |q| ==> s[i] == q[i].queued.pid
  {
    Pids(q, (t: Task) => t.queued.pid)
  }

  function OnBoard(b: seq<Entry>): multiset<S32> { multiset(BoardPids(b)) }

  function InQueue(q: seq<QueuedTask>): multiset<S32> { multiset(QueuedPids(q)) }

  function InSent(q: seq<DispatchedTask>): multiset<S32> { multiset(SentPids(q)) }

  function InPool(q: seq<Task>): multiset<S32> { multiset(PoolPids(q)) }

  lemma SeqInsert(s: seq<S32>, i: nat, x: S32)
    requires i <= |s|
    ensures multiset(s[..i] + [x] + s[i..]) == multiset(s) + multiset{x}
  {
    assert multiset(s) == multiset(s[..i]) + multiset(s[i..]) by { assert s == s[..i] + s[i..]; }
  }

  lemma SeqRemove(s: seq<S32>, i: nat)
    requires i < |s|
    ensures multiset(s) == multiset(s[..i] + s[i + 1..]) + multiset{s[i]}
  {
    assert multiset(s) == multiset(s[..i]) + multiset{s[i]} + multiset(s[i + 1..]) by {
      assert s == s[..i] + [s[i]] + s[i + 1..];
    }
  }

  lemma InsertCounts(b: seq<Entry>, i: nat, e: Entry)
    requires i <= |b|
    ensures OnBoard(InsertAt(b, i, e)) == OnBoard(b) + multiset{e.pid}
  {
    var s := BoardPids(b);
    assert BoardPids(InsertAt(b, i, e)) == s[..i] + [e.pid] + s[i..];
    SeqInsert(s, i, e.pid);
  }

  lemma RemoveCounts(b: seq<Entry>, i: nat)
    requires i < |b|
    ensures OnBoard(b) == OnBoard(RemoveAt(b, i)) + multiset{b[i].pid}
  {
    var s := BoardPids(b);
    assert BoardPids(RemoveAt(b, i)) == s[..i] + s[i + 1..];
    SeqRemove(s, i);
  }

  lemma QueuePush(q: seq<QueuedTask>, t: QueuedTask)
    ensures InQueue(q + [t]) == InQueue(q) + multiset{t.pid}
  {
    assert QueuedPids(q + [t]) == QueuedPids(q) + [t.pid];
  }

  lemma QueuePop(q: seq<QueuedTask>)
    requires q != []
    ensures InQueue(q) == InQueue(q[1..]) + multiset{q[0].pid}
  {
    assert QueuedPids(q) == [q[0].pid] + QueuedPids(q[1..]);
  }

  /** Moving the first entry back changes nothing. */
  lemma QueueRotate(q: seq<QueuedTask>, n: nat)
    requires 0 < n <= |q|
    ensures InQueue(q[1..n] + [q[0]] + q[n..]) == InQueue(q)
  {
    var ps := QueuedPids(q[1..]);
    QueuePop(q);
    assert QueuedPids(q[1..n] + [q[0]] + q[n..]) == ps[..n - 1] + [q[0].pid] + ps[n - 1..];
    SeqInsert(ps, n - 1, q[0].pid);
  }

  lemma SentPush(q: seq<DispatchedTask>, t: DispatchedTask)
    ensures InSent(q + [t]) == InSent(q) + multiset{t.pid}
  {
    assert SentPids(q + [t]) == SentPids(q) + [t.pid];
  }

  lemma SentPop(q: seq<DispatchedTask>)
    requires q != []
    ensures InSent(q) == InSent(q[1..]) + multiset{q[0].pid}
  {
    assert SentPids(q) == [q[0].pid] + SentPids(q[1..]);
  }

  lemma PoolPop(q: seq<Task>)
    requires q != []
    ensures InPool(q) == InPool(q[1..]) + multiset{q[0].queued.pid}
  {
    assert PoolPids(q) == [q[0].queued.pid] + PoolPids(q[1..]);
  }

  lemma PoolInsert(q: seq<Task>, t: Task)
    ensures InPool(Insert(q, t)) == InPool(q) + multiset{t.queued.pid}
  {
    var k, s := FirstGreater(q, t), PoolPids(q);
    assert PoolPids(Insert(q, t)) == s[..k] + [t.queued.pid] + s[k..];
    SeqInsert(s, k, t.queued.pid);
  }

  // ---- the handlers ----

  lemma VtimeCounts(k: Kernel, pid: S32, spot: Spot, vtime: nat)
    requires pid in k.tasks
    ensures OnBoard(InsertVtime(k, pid, spot, vtime).board) == OnBoard(k.board) + multiset{pid}
  {
    InsertCounts(k.board, PlaceFor(k.board, spot, vtime), Entry(spot, pid, vtime, false));
  }

  lemma HeadCounts(k: Kernel, pid: S32, spot: Spot)
    ensures OnBoard(InsertHead(k, pid, spot).board) == OnBoard(k.board) + multiset{pid}
  {
    InsertCounts(k.board, 0, Entry(spot, pid, 0, true));
  }

  lemma MoveCounts(c: Config, k: Kernel, cpu: S32, id: nat)
    ensures OnBoard(MoveToLocal(c, k, cpu, id).board) == OnBoard(k.board)
  {
    var i := FirstMovable(c, k.board, cpu, id);
    if i < |k.board| {
      var b, e := RemoveAt(k.board, i), k.board[i];
      RemoveCounts(k.board, i);
      InsertCounts(b, |b|, Entry(Local(cpu), e.pid, e.vtime, true));
      assert MoveToLocal(c, k, cpu, id).board == InsertAt(b, |b|, Entry(Local(cpu), e.pid, e.vtime, true));
    }
  }

  /** The copies of pid that following a branch puts on the board and into the message queue. */
  lemma FollowCounts(c: Config, k: Kernel, pid: S32, flags: nat, ch: Choice, route: Route)
    requires pid in c.attrs && pid in k.tasks
    ensures var k', one := Follow(c, k, pid, flags, ch, route), multiset{pid};
      match route
      case Ignored => k' == k
      case ToSched => OnBoard(k'.board) == OnBoard(k.board) + one && k'.queued == k.queued
      case ToCpu(_) => OnBoard(k'.board) == OnBoard(k.board) + one && k'.queued == k.queued
      case ToUser =>
        var early := if pid in k.priority && PriorityCpu(k, pid, ch) >= 0 then one else multiset{};
        if ch.ringFull
        then OnBoard(k'.board) == OnBoard(k.board) + early + one && k'.queued == k.queued
        else OnBoard(k'.board) == OnBoard(k.board) + early && InQueue(k'.queued) == InQueue(k.queued) + one
  {
    match route
    case Ignored =>
    case ToSched => HeadCounts(k, pid, Custom(SCHED_DSQ));
    case ToCpu(cpu) => VtimeCounts(k, pid, Custom(CpuToDsq(cpu)), k.tasks[pid].vtime);
    case ToUser =>
      var k1 := PriorityInsert(k, pid, ch);
      HeadCounts(k, pid, Local(PriorityCpu(k, pid, ch)));
      VtimeCounts(k1, pid, Custom(SHARED_DSQ), k1.tasks[pid].vtime);
      QueuePush(k.queued, Message(c, k1, pid, flags));
  }

  /** What following a branch leaves alone. */
  lemma FollowSent(c: Config, k: Kernel, pid: S32, flags: nat, ch: Choice, route: Route)
    requires pid in c.attrs && pid in k.tasks
    ensures Follow(c, k, pid, flags, ch, route).sent == k.sent
    ensures Follow(c, k, pid, flags, ch, route).priority == k.priority
    ensures Follow(c, k, pid, flags, ch, route).queued == k.queued
            || Follow(c, k, pid, flags, ch, route).queued == k.queued + [Message(c, k, pid, flags)]
  {
    var k1 := PriorityInsert(k, pid, ch);
    assert k1.sent == k.sent && k1.priority == k.priority && k1.queued == k.queued && k1.tasks == k.tasks;
  }

  /** How many times an enqueue acts on a task: insertions into a DSQ plus messages to user space. */
  ghost function Actions(k: Kernel, k': Kernel): int {
    |k'.board| - |k.board| + |k'.queued| - |k.queued|
  }

  /** An enqueue acts exactly once on an ordinary task, unless the task is prioritized and takes the
      user-space branch: then it acts twice, and with a full ring both actions are insertions. */
  lemma EnqueueActsOnce(c: Config, k: Kernel, pid: S32, flags: nat, ch: Choice)
    requires pid in c.attrs && pid in k.tasks && pid != c.usersched && PriorityCpu(k, pid, ch) >= 0
    ensures var k' := EnqueueTask(c, k, pid, flags, ch);
      var twice := EnqueueRoute(c, k, pid, ch).ToUser? && pid in k.priority;
      && Actions(k, k') == (if twice then 2 else 1)
      && (|k'.board| == |k.board| + 2 <==> twice && ch.ringFull)
  {
    match EnqueueRoute(c, k, pid, ch)
    case ToUser =>
      var k1 := PriorityInsert(k, pid, ch);
      assert |k1.board| == |k.board| + if pid in k.priority then 1 else 0;
      assert k1.queued == k.queued;
    case _ =>
  }

  lemma DispatchCounts(c: Config, k: Kernel, m: DispatchedTask)
    requires m.pid in k.tasks ==> m.pid in c.attrs
    ensures var k' := DispatchTask(c, k, m);
      var held := m.vtime == 0 && m.pid in k.priority && m.pid in k.tasks && m.cpu != RL_CPU_ANY
                  && m.cpu in c.attrs[m.pid].allowed;
      && OnBoard(k'.board) == OnBoard(k.board) + (if m.pid in k.tasks && !held then multiset{m.pid} else multiset{})
      && k'.queued == k.queued && k'.sent == k.sent
  {
    if m.pid in k.tasks {
      VtimeCounts(k, m.pid, Custom(SHARED_DSQ), m.vtime);
      VtimeCounts(k, m.pid, Custom(CpuToDsq(m.cpu)), m.vtime);
    }
  }
}
