/** The vruntime of a task, followed around the whole loop: kernel, message, policy, answer, kernel. */
module Fairness {
  import opened Words
  import opened TaskPool
  import Vruntime
  import opened Layout
  import opened Kernel
  import opened World
  import opened WorldSafety
  import opened Census
  import opened Composed

  /** A message for a task carries at least the vruntime the kernel has recorded for it. */
  predicate AtLeast(tasks: map<S32, TaskCtx>, pid: S32, vtime: nat) {
    pid in tasks ==> vtime >= tasks[pid].vtime
  }

  ghost predicate Ahead(s: System, tasks: map<S32, TaskCtx>) {
    && (forall i :: 0 <= i < |s.w.k.queued| ==> AtLeast(tasks, s.w.k.queued[i].pid, s.w.k.queued[i].vtime))
    && (forall i :: 0 <= i < |s.pool| ==> AtLeast(tasks, s.pool[i].queued.pid, s.pool[i].queued.vtime))
    && (s.hand.Some? ==> AtLeast(tasks, s.hand.value.pid, s.hand.value.vtime))
    && (forall i :: 0 <= i < |s.w.k.sent| ==> AtLeast(tasks, s.w.k.sent[i].pid, s.w.k.sent[i].vtime))
  }

  /** Recorded vruntimes of tasks that stay are the same. */
  ghost predicate SameVtimes(k: Kernel, k': Kernel) {
    forall p :: p in k.tasks && p in k'.tasks ==> k'.tasks[p].vtime == k.tasks[p].vtime
  }

  lemma EnqueueVtimes(c: Config, k: Kernel, pid: S32, flags: nat, ch: Choice)
    requires pid in c.attrs && pid in k.tasks
    ensures SameVtimes(k, EnqueueTask(c, k, pid, flags, ch))
    ensures EnqueueTask(c, k, pid, flags, ch).tasks.Keys == k.tasks.Keys
  {
    match EnqueueRoute(c, k, pid, ch)
    case ToUser => assert PriorityInsert(k, pid, ch).tasks == k.tasks;
    case _ =>
  }

  /** No event but the handling of an answer changes the vruntime of a task that stays. */
  lemma EventVtimes(c: Config, w: World, e: Event)
    requires Enabled(c, w, e) && !e.Drain?
    ensures SameVtimes(w.k, Apply(c, w, e).k)
    ensures Apply(c, w, e).k.tasks.Keys <= w.k.tasks.Keys + (if e.Spawn? then {e.pid} else {})
  {
    match e
    case Enqueue(pid, flags, ch) => EnqueueVtimes(c, w.k, pid, flags, ch);
    case _ =>
  }

  lemma AheadKept(s: System, k': Kernel)
    requires Ahead(s, s.w.k.tasks) && SameVtimes(s.w.k, k')
    requires forall p :: p in k'.tasks && p !in s.w.k.tasks ==> k'.tasks[p].vtime == 0
    ensures Ahead(s, k'.tasks)
  {}

  // ---- an answer is the only thing under way for its task ----

  lemma InQueueCounts(q: seq<QueuedTask>, i: nat)
    requires i < |q|
    ensures InQueue(q)[q[i].pid] > 0
  {
    assert QueuedPids(q)[i] in InQueue(q);
  }

  lemma InPoolCounts(q: seq<Task>, i: nat)
    requires i < |q|
    ensures InPool(q)[q[i].queued.pid] > 0
  {
    assert PoolPids(q)[i] in InPool(q);
  }

  lemma InSentCounts(q: seq<DispatchedTask>, i: nat)
    requires i < |q|
    ensures InSent(q)[q[i].pid] > 0
  {
    assert SentPids(q)[i] in InSent(q);
  }

  lemma NothingElseUnderWay(c: Config, s: System)
    requires Owned(c, s) && s.w.k.sent != [] && s.w.k.sent[0].pid != c.usersched
    ensures var p := s.w.k.sent[0].pid;
      && (forall i :: 0 <= i < |s.w.k.queued| ==> s.w.k.queued[i].pid != p)
      && (forall i :: 0 <= i < |s.pool| ==> s.pool[i].queued.pid != p)
      && (s.hand.Some? ==> s.hand.value.pid != p)
      && (forall i :: 0 < i < |s.w.k.sent| ==> s.w.k.sent[i].pid != p)
  {
    var p, rest := s.w.k.sent[0].pid, s.w.k.sent[1..];
    SentPop(s.w.k.sent);
    assert Held(s)[p] <= 1;
    forall i | 0 <= i < |s.w.k.queued| ensures s.w.k.queued[i].pid != p { InQueueCounts(s.w.k.queued, i); }
    forall i | 0 <= i < |s.pool| ensures s.pool[i].queued.pid != p { InPoolCounts(s.pool, i); }
    forall i | 0 < i < |s.w.k.sent| ensures s.w.k.sent[i].pid != p {
      InSentCounts(rest, i - 1);
    }
  }

  /** Handling an answer records its vruntime, and nothing else's. */
  lemma DispatchVtimes(c: Config, k: Kernel, m: DispatchedTask)
    requires (m.pid in k.tasks ==> m.pid in c.attrs) && m.vtime > 0
    ensures var k' := DispatchTask(c, k, m);
      && k'.tasks.Keys == k.tasks.Keys
      && (forall p :: p in k.tasks ==> k'.tasks[p].vtime == if p == m.pid then m.vtime else k.tasks[p].vtime)
  {}

  /** Recording a vruntime for p when nothing of p is under way any more. */
  lemma AheadAfterAnswer(s: System, s': System, p: S32, vtime: nat)
    requires Ahead(s, s.w.k.tasks) && s.w.k.sent != [] && s'.w.k.sent == s.w.k.sent[1..]
    requires s'.w.k.queued == s.w.k.queued && s'.pool == s.pool && s'.hand == s.hand
    requires s'.w.k.tasks.Keys == s.w.k.tasks.Keys
    requires forall q :: q in s.w.k.tasks ==>
               s'.w.k.tasks[q].vtime == if q == p then vtime else s.w.k.tasks[q].vtime
    requires forall i :: 0 <= i < |s.w.k.queued| ==> s.w.k.queued[i].pid != p
    requires forall i :: 0 <= i < |s.pool| ==> s.pool[i].queued.pid != p
    requires s.hand.Some? ==> s.hand.value.pid != p
    requires forall i :: 0 < i < |s.w.k.sent| ==> s.w.k.sent[i].pid != p
    ensures Ahead(s', s'.w.k.tasks)
  {
    var q, q' := s.w.k.sent, s'.w.k.sent;
    forall i | 0 <= i < |q'| ensures AtLeast(s'.w.k.tasks, q'[i].pid, q'[i].vtime) {
      assert q'[i] == q[i + 1];
    }
  }

  lemma DrainVtimes(c: Config, s: System)
    requires PolicyOk(c, s) && Ahead(s, s.w.k.tasks) && Enabled(c, s.w, Drain)
    ensures var m, k' := s.w.k.sent[0], Apply(c, s.w, Drain).k;
      && k'.tasks.Keys == s.w.k.tasks.Keys && k'.sent == s.w.k.sent[1..] && k'.queued == s.w.k.queued
      && (forall p :: p in s.w.k.tasks ==>
            k'.tasks[p].vtime == (if p == m.pid then m.vtime else s.w.k.tasks[p].vtime)
            && k'.tasks[p].vtime >= s.w.k.tasks[p].vtime)
  {
    var k, m := s.w.k.(sent := s.w.k.sent[1..]), s.w.k.sent[0];
    DispatchVtimes(c, k, m);
    DispatchCounts(c, k, m);
    assert Apply(c, s.w, Drain).k == DispatchTask(c, k, m);
    assert AtLeast(s.w.k.tasks, m.pid, m.vtime);
  }

  lemma DrainAhead(c: Config, s: System)
    requires Inv(c, s) && Ahead(s, s.w.k.tasks) && Enabled(c, s.w, Drain)
    ensures var s' := s.(w := Apply(c, s.w, Drain));
      Ahead(s', s'.w.k.tasks)
      && forall p :: p in s.w.k.tasks ==> p in s'.w.k.tasks && s'.w.k.tasks[p].vtime >= s.w.k.tasks[p].vtime
  {
    NothingElseUnderWay(c, s);
    DrainVtimes(c, s);
    AheadAfterAnswer(s, s.(w := Apply(c, s.w, Drain)), s.w.k.sent[0].pid, s.w.k.sent[0].vtime);
  }

  lemma EnqueueAhead(c: Config, s: System, e: Event)
    requires Ahead(s, s.w.k.tasks) && Enabled(c, s.w, e) && e.Enqueue?
    ensures var s' := s.(w := Apply(c, s.w, e)); Ahead(s', s'.w.k.tasks)
  {
    EnqueueVtimes(c, s.w.k, e.pid, e.flags, e.ch);
    FollowSent(c, s.w.k, e.pid, e.flags, e.ch, EnqueueRoute(c, s.w.k, e.pid, e.ch));
    AheadKept(s, EnqueueTask(c, s.w.k, e.pid, e.flags, e.ch));
  }

  lemma OtherAhead(c: Config, s: System, e: Event)
    requires Ahead(s, s.w.k.tasks) && Enabled(c, s.w, e)
    requires !e.Enqueue? && !e.Drain? && !e.UserTake? && !e.UserPush?
    ensures var s' := s.(w := Apply(c, s.w, e)); Ahead(s', s'.w.k.tasks)
  {
    var s' := s.(w := Apply(c, s.w, e));
    EventVtimes(c, s.w, e);
    assert s'.w.k.queued == s.w.k.queued && s'.w.k.sent == s.w.k.sent;
    AheadKept(s, s'.w.k);
  }

  lemma TakeInAhead(c: Config, size: nat, s: System)
    requires Ahead(s, s.w.k.tasks) && CanStep(c, size, s, TakeIn)
    ensures Ahead(Next(c, size, s, TakeIn), s.w.k.tasks)
  {
    var t := s.w.k.queued[0];
    Vruntime.PolicyBounds(s.minVruntime, t);
    var e := Vruntime.Entry(Vruntime.Advance(s.minVruntime, t), t);
    var k, pool := FirstGreater(s.pool, e), Insert(s.pool, e);
    forall i | 0 <= i < |pool| ensures AtLeast(s.w.k.tasks, pool[i].queued.pid, pool[i].queued.vtime) {
      assert pool[i] == if i < k then s.pool[i] else if i == k then e else s.pool[i - 1];
    }
  }

  lemma AheadStep(c: Config, size: nat, s: System, step: Step)
    requires Inv(c, s) && Ahead(s, s.w.k.tasks) && CanStep(c, size, s, step)
    ensures Ahead(Next(c, size, s, step), Next(c, size, s, step).w.k.tasks)
  {
    match step
    case Backend(e) =>
      if e.Drain? { DrainAhead(c, s); } else if e.Enqueue? { EnqueueAhead(c, s, e); } else { OtherAhead(c, s, e); }
    case TakeIn => TakeInAhead(c, size, s);
    case _ =>
  }

  lemma {:induction false} AheadAlways(c: Config, size: nat, ss: seq<System>, steps: seq<Step>, n: nat)
    requires ConfigOk(c) && IsSystemRun(c, size, ss, steps) && n < |ss|
    ensures Ahead(ss[n], ss[n].w.k.tasks)
  {
    if n > 0 {
      AheadAlways(c, size, ss, steps, n - 1);
      AheadAt(c, size, ss, steps, n - 1);
    }
  }

  lemma AheadAt(c: Config, size: nat, ss: seq<System>, steps: seq<Step>, n: nat)
    requires ConfigOk(c) && IsSystemRun(c, size, ss, steps) && n < |steps| && Ahead(ss[n], ss[n].w.k.tasks)
    ensures Ahead(ss[n + 1], ss[n + 1].w.k.tasks)
  {
    InvAlways(c, size, ss, steps, n);
    assert SystemFollows(c, size, ss, steps, n);
    AheadStep(c, size, ss[n], steps[n]);
  }

  lemma VtimeStep(c: Config, size: nat, s: System, step: Step, p: S32)
    requires Inv(c, s) && Ahead(s, s.w.k.tasks) && CanStep(c, size, s, step)
    requires p in s.w.k.tasks && p in Next(c, size, s, step).w.k.tasks
    ensures Next(c, size, s, step).w.k.tasks[p].vtime >= s.w.k.tasks[p].vtime
  {
    if step.Backend? {
      if step.e.Drain? { DrainAhead(c, s); } else { EventVtimes(c, s.w, step.e); }
    }
  }

  lemma VtimeAt(c: Config, size: nat, ss: seq<System>, steps: seq<Step>, n: nat, p: S32)
    requires ConfigOk(c) && IsSystemRun(c, size, ss, steps) && n < |steps|
    requires p in ss[n].w.k.tasks && p in ss[n + 1].w.k.tasks
    ensures ss[n + 1].w.k.tasks[p].vtime >= ss[n].w.k.tasks[p].vtime
  {
    InvAlways(c, size, ss, steps, n);
    AheadAlways(c, size, ss, steps, n);
    assert SystemFollows(c, size, ss, steps, n);
    VtimeStep(c, size, ss[n], steps[n], p);
  }

  /** As long as a task exists its vruntime never falls, over every run of the composed system: what the
      kernel reports, the policy charges and the answer brings back never puts a task back. */
  lemma {:induction false} VruntimeNeverFalls(
      c: Config, size: nat, ss: seq<System>, steps: seq<Step>, n: nat, m: nat, p: S32)
    requires ConfigOk(c) && IsSystemRun(c, size, ss, steps) && n <= m < |ss|
    requires forall i :: n <= i <= m ==> p in ss[i].w.k.tasks
    ensures ss[m].w.k.tasks[p].vtime >= ss[n].w.k.tasks[p].vtime
  {
    if n < m {
      VruntimeNeverFalls(c, size, ss, steps, n, m - 1, p);
      VtimeAt(c, size, ss, steps, m - 1, p);
    }
  }
}
