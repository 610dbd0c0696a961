/** Both halves together: the backend driven by the policy of main.go. Every task that the kernel has
    handed over is in exactly one place, and the priority path is never taken. */
module Composed {
  import opened Words
  import opened TaskPool
  import Vruntime
  import NoOvertaking
  import UserSched
  import opened Layout
  import opened Kernel
  import opened World
  import opened WorldSafety
  import opened Census
  import Serving
  import Preemption

  /** The user-space side adds its vruntime, its pool, and the task it is working on. The message
      ring and the channel before it are one first-in-first-out queue, w.k.queued. dropped remembers the
      tasks whose answer could not be sent. */
  datatype System = System(
    w: World, minVruntime: nat, pool: seq<Task>, hand: Option<QueuedTask>, dropped: multiset<S32>)

  datatype Step =
    | Backend(e: Event)      // anything on the backend side
    | TakeIn                // the drain loop moves one message into the pool
    | Rotate(n: nat)        // waiting takes one of the n messages in the channel out and puts it back
    | Serve                 // the head of the pool is taken
    | Send(cpu: S32, slice: nat)  // and sent back for a CPU
    | FailSend              // or sending fails, and the loop goes on with the next one

  function InitSystem(c: Config): System { System(Init(c), 0, [], None, multiset{}) }

  /** The drain loop stops at a full pool; no value of the run overflows 64 bits. */
  ghost predicate CanStep(c: Config, size: nat, s: System, step: Step) {
    match step
    case Backend(e) => Enabled(c, s.w, e) && !e.UserTake? && !e.UserPush?
    case TakeIn =>
      && s.w.k.queued != [] && |s.pool| < size - 1
      && Vruntime.WellFormed(s.w.k.queued[0])
      && Vruntime.Fits(Vruntime.Advance(s.minVruntime, s.w.k.queued[0]), s.w.k.queued[0])
    case Rotate(n) => 0 < n <= |s.w.k.queued|
    case Serve => s.pool != [] && s.hand.None?
    case Send(_, _) => s.hand.Some?
    case FailSend => s.hand.Some?
  }

  function WithQueue(w: World, q: seq<QueuedTask>): World { w.(k := w.k.(queued := q)) }

  ghost function Next(c: Config, size: nat, s: System, step: Step): System
    requires CanStep(c, size, s, step)
  {
    match step
    case Backend(e) => s.(w := Apply(c, s.w, e))
    case TakeIn =>
      var t, q := s.w.k.queued[0], s.w.k.queued[1..];
      var m := Vruntime.Advance(s.minVruntime, t);
      s.(w := WithQueue(s.w, q), minVruntime := m, pool := Insert(s.pool, Vruntime.Entry(m, t)))
    case Rotate(n) => s.(w := WithQueue(s.w, s.w.k.queued[1..n] + [s.w.k.queued[0]] + s.w.k.queued[n..]))
    case Serve => s.(hand := Some(s.pool[0].queued), pool := s.pool[1..])
    case Send(cpu, slice) =>
      var t := s.hand.value;
      var m := DispatchedTask(t.pid, cpu, t.flags, slice, t.vtime, 0);
      s.(w := s.w.(k := s.w.k.(sent := s.w.k.sent + [m])), hand := None)
    case FailSend => s.(hand := None, dropped := s.dropped + multiset{s.hand.value.pid})
  }

  /** Who is held in the two message queues and the kernel's queues, with multiplicity. */
  function KernelHeld(w: World): multiset<S32> {
    InQueue(w.k.queued) + InSent(w.k.sent) + OnBoard(w.k.board)
  }

  /** Who is held by the user-space scheduler itself. */
  function UserHeld(s: System): multiset<S32> {
    InPool(s.pool) + if s.hand.Some? then multiset{s.hand.value.pid} else multiset{}
  }

  function Held(s: System): multiset<S32> { KernelHeld(s.w) + UserHeld(s) }

  /** A task in custody is held exactly once or was dropped once, every other task neither. */
  ghost predicate Owned(c: Config, s: System) {
    forall p :: p != c.usersched ==> Held(s)[p] + s.dropped[p] == Share(s.w.phase, p)
  }

  /** Full ownership: a task in custody is held exactly once, every other task not at all. */
  ghost predicate NobodyLost(c: Config, s: System) {
    forall p :: p != c.usersched ==> Held(s)[p] == Share(s.w.phase, p)
  }

  function Share(phase: map<S32, Phase>, p: S32): nat {
    if p in phase && phase[p] == Custody then 1 else 0
  }

  /** Nothing the policy handles concerns the user scheduler or has vtime 0. */
  ghost predicate PolicyOk(c: Config, s: System) {
    && (forall i :: 0 <= i < |s.w.k.queued| ==> s.w.k.queued[i].pid != c.usersched)
    && (forall i :: 0 <= i < |s.pool| ==> s.pool[i].queued.vtime > 0 && s.pool[i].queued.pid != c.usersched)
    && (s.hand.Some? ==> s.hand.value.vtime > 0 && s.hand.value.pid != c.usersched)
    && (forall i :: 0 <= i < |s.w.k.sent| ==> s.w.k.sent[i].vtime > 0 && s.w.k.sent[i].pid != c.usersched)
    && s.w.k.priority == map[]
  }

  ghost predicate Inv(c: Config, s: System) {
    Safe(c, s.w) && PolicyOk(c, s) && Owned(c, s)
  }

  // ---- user-space steps ----

  lemma Regroup(q: multiset<S32>, one: multiset<S32>, sent: multiset<S32>, board: multiset<S32>, pool: multiset<S32>, hand: multiset<S32>)
    ensures (q + one) + sent + board + (pool + hand) == q + sent + board + ((pool + one) + hand)
  {}

  lemma TakeInHolds(c: Config, size: nat, s: System)
    requires CanStep(c, size, s, TakeIn)
    ensures Held(Next(c, size, s, TakeIn)) == Held(s)
  {
    var k, t := s.w.k, s.w.k.queued[0];
    QueuePop(k.queued);
    PoolInsert(s.pool, Vruntime.Entry(Vruntime.Advance(s.minVruntime, t), t));
    Regroup(InQueue(k.queued[1..]), multiset{t.pid}, InSent(k.sent), OnBoard(k.board), InPool(s.pool),
            if s.hand.Some? then multiset{s.hand.value.pid} else multiset{});
  }

  lemma RotateHolds(c: Config, size: nat, s: System, n: nat)
    requires CanStep(c, size, s, Rotate(n))
    ensures Held(Next(c, size, s, Rotate(n))) == Held(s)
  {
    QueueRotate(s.w.k.queued, n);
  }

  lemma ServeHolds(c: Config, size: nat, s: System)
    requires CanStep(c, size, s, Serve)
    ensures Held(Next(c, size, s, Serve)) == Held(s)
  {
    PoolPop(s.pool);
  }

  lemma SendHolds(c: Config, size: nat, s: System, step: Step)
    requires CanStep(c, size, s, step) && step.Send?
    ensures Held(Next(c, size, s, step)) == Held(s)
  {
    var t := s.hand.value;
    SentPush(s.w.k.sent, DispatchedTask(t.pid, step.cpu, t.flags, step.slice, t.vtime, 0));
  }

  /** A failed send takes the task from the hand to the dropped ones. */
  lemma FailMoves(c: Config, size: nat, s: System)
    requires CanStep(c, size, s, FailSend)
    ensures var s' := Next(c, size, s, FailSend); Held(s') + s'.dropped == Held(s) + s.dropped
    ensures Next(c, size, s, FailSend).w == s.w
  {}

  lemma TakeInPolicy(c: Config, size: nat, s: System)
    requires CanStep(c, size, s, TakeIn) && PolicyOk(c, s)
    ensures PolicyOk(c, Next(c, size, s, TakeIn))
  {
    var t := s.w.k.queued[0];
    Vruntime.PolicyBounds(s.minVruntime, t);
    var e := Vruntime.Entry(Vruntime.Advance(s.minVruntime, t), t);
    var k, pool := FirstGreater(s.pool, e), Insert(s.pool, e);
    forall i | 0 <= i < |pool| ensures pool[i].queued.vtime > 0 && pool[i].queued.pid != c.usersched {
      assert pool[i] == if i < k then s.pool[i] else if i == k then e else s.pool[i - 1];
    }
  }

  lemma UserPolicy(c: Config, size: nat, s: System, step: Step)
    requires CanStep(c, size, s, step) && PolicyOk(c, s) && !step.Backend? && !step.TakeIn?
    ensures PolicyOk(c, Next(c, size, s, step))
  {}

  /** Only the queues between the halves change. */
  lemma UserSafe(c: Config, size: nat, s: System, step: Step)
    requires CanStep(c, size, s, step) && Safe(c, s.w) && !step.Backend?
    ensures Safe(c, Next(c, size, s, step).w) && Next(c, size, s, step).w.phase == s.w.phase
  {}

  lemma FailOwned(c: Config, size: nat, s: System)
    requires CanStep(c, size, s, FailSend) && Owned(c, s)
    ensures Owned(c, Next(c, size, s, FailSend))
  {
    var s' := Next(c, size, s, FailSend);
    FailMoves(c, size, s);
    forall p | p != c.usersched ensures Held(s')[p] + s'.dropped[p] == Share(s'.w.phase, p) {
      assert (Held(s') + s'.dropped)[p] == (Held(s) + s.dropped)[p];
    }
  }

  lemma UserStep(c: Config, size: nat, s: System, step: Step)
    requires CanStep(c, size, s, step) && Inv(c, s) && !step.Backend?
    ensures Inv(c, Next(c, size, s, step))
  {
    UserSafe(c, size, s, step);
    match step
    case FailSend => FailOwned(c, size, s); UserPolicy(c, size, s, step);
    case TakeIn => TakeInHolds(c, size, s); TakeInPolicy(c, size, s);
    case Rotate(n) => RotateHolds(c, size, s, n); UserPolicy(c, size, s, step);
    case Serve => ServeHolds(c, size, s); UserPolicy(c, size, s, step);
    case Send(_, _) => SendHolds(c, size, s, step); UserPolicy(c, size, s, step);
  }

  // ---- backend steps ----

  /** What a backend event adds to and removes from the kernel-side queues. */
  ghost predicate Moves(w: World, w': World, added: multiset<S32>, removed: multiset<S32>) {
    KernelHeld(w') + removed == KernelHeld(w) + added
  }

  ghost function Added(c: Config, w: World, e: Event): multiset<S32>
    requires Enabled(c, w, e)
  {
    match e
    case Enqueue(pid, _, _) => multiset{pid}
    case Select(pid, pick, _) => if SelectInserts(c, w.k, pid, pick) then multiset{pid} else multiset{}
    case Fire => if w.k.needed then multiset{c.usersched} else multiset{}
    case Requeue(pid) => multiset{pid}
    case _ => multiset{}
  }

  ghost function Removed(c: Config, w: World, e: Event): multiset<S32>
    requires Enabled(c, w, e)
  {
    if e.Run? then multiset{w.k.board[FirstLocal(w.k.board, e.cpu)].pid} else multiset{}
  }

  lemma EnqueueMoves(c: Config, w: World, e: Event)
    requires Enabled(c, w, e) && e.Enqueue? && e.pid != c.usersched && e.pid !in w.k.priority
    ensures Moves(w, Apply(c, w, e), multiset{e.pid}, multiset{})
  {
    FollowCounts(c, w.k, e.pid, e.flags, e.ch, EnqueueRoute(c, w.k, e.pid, e.ch));
    assert Apply(c, w, e).k.sent == w.k.sent by { FollowSent(c, w.k, e.pid, e.flags, e.ch, EnqueueRoute(c, w.k, e.pid, e.ch)); }
  }

  lemma SelectMoves(c: Config, w: World, e: Event)
    requires Enabled(c, w, e) && e.Select?
    ensures Moves(w, Apply(c, w, e), if SelectInserts(c, w.k, e.pid, e.pick) then multiset{e.pid} else multiset{}, multiset{})
  {
    if SelectInserts(c, w.k, e.pid, e.pick) {
      VtimeCounts(w.k, e.pid, Custom(CpuToDsq(e.pick)), w.k.tasks[e.pid].vtime);
    }
  }

  lemma DrainMoves(c: Config, w: World)
    requires Enabled(c, w, Drain) && w.k.sent[0].vtime > 0 && w.k.sent[0].pid in w.k.tasks
    ensures Moves(w, Apply(c, w, Drain), multiset{}, multiset{})
  {
    SentPop(w.k.sent);
    DispatchCounts(c, w.k.(sent := w.k.sent[1..]), w.k.sent[0]);
  }

  lemma RunMoves(c: Config, w: World, e: Event)
    requires Enabled(c, w, e) && e.Run? && Known(c, w)
    ensures Moves(w, Apply(c, w, e), multiset{}, multiset{w.k.board[FirstLocal(w.k.board, e.cpu)].pid})
  {
    RemoveCounts(w.k.board, FirstLocal(w.k.board, e.cpu));
  }

  lemma OtherMoves(c: Config, w: World, e: Event)
    requires Enabled(c, w, e)
    requires e.Tick? || e.Spawn? || e.Wake? || e.Nudge? || e.Stop? || e.StopUser? || e.Exit?
    ensures Moves(w, Apply(c, w, e), multiset{}, multiset{})
  {}

  lemma BoardMoves(c: Config, w: World, e: Event)
    requires Enabled(c, w, e) && (e.Fire? || e.Move? || e.Requeue?)
    ensures Moves(w, Apply(c, w, e),
              if e.Requeue? then multiset{e.pid} else if e.Fire? && w.k.needed then multiset{c.usersched} else multiset{},
              multiset{})
  {
    match e
    case Fire => HeadCounts(w.k, c.usersched, Custom(SCHED_DSQ));
    case Move(cpu, id) => MoveCounts(c, w.k, cpu, id);
    case Requeue(pid) => HeadCounts(w.k, pid, Local(w.k.tasks[pid].cpu));
  }

  /** From queue movements to ownership: the shares must change by the same amounts. */
  lemma MovesOwned(c: Config, s: System, s': System, added: multiset<S32>, removed: multiset<S32>)
    requires Owned(c, s) && s'.pool == s.pool && s'.hand == s.hand && s'.dropped == s.dropped
    requires Moves(s.w, s'.w, added, removed)
    requires forall p :: p != c.usersched ==>
               Share(s'.w.phase, p) + removed[p] == Share(s.w.phase, p) + added[p]
    ensures Owned(c, s')
  {
    forall p | p != c.usersched ensures Held(s')[p] + s'.dropped[p] == Share(s'.w.phase, p) {
      assert (KernelHeld(s'.w) + removed)[p] == (KernelHeld(s.w) + added)[p];
      assert UserHeld(s') == UserHeld(s);
    }
  }

  lemma CustodyShare(c: Config, s: System, p: S32)
    requires Owned(c, s) && p != c.usersched && p in Held(s)
    ensures p in s.w.phase && s.w.phase[p] == Custody
  {
    assert Held(s)[p] > 0;
  }

  lemma SentHeld(s: System)
    requires s.w.k.sent != []
    ensures s.w.k.sent[0].pid in Held(s)
  {
    SentPop(s.w.k.sent);
  }

  lemma EventMoves(c: Config, s: System, e: Event)
    requires Inv(c, s) && Enabled(c, s.w, e) && !e.UserTake? && !e.UserPush?
    ensures Moves(s.w, Apply(c, s.w, e), Added(c, s.w, e), Removed(c, s.w, e))
  {
    match e
    case Enqueue(_, _, _) => EnqueueMoves(c, s.w, e);
    case Select(_, _, _) => SelectMoves(c, s.w, e);
    case Drain =>
      SentHeld(s);
      CustodyShare(c, s, s.w.k.sent[0].pid);
      DrainMoves(c, s.w);
    case Run(_) => RunMoves(c, s.w, e);
    case Fire => BoardMoves(c, s.w, e);
    case Move(_, _) => BoardMoves(c, s.w, e);
    case Requeue(_) => BoardMoves(c, s.w, e);
    case _ => OtherMoves(c, s.w, e);
  }

  lemma RunShares(c: Config, w: World, e: Event, p: S32)
    requires Known(c, w) && Enabled(c, w, e) && p != c.usersched && e.Run?
    ensures Share(Apply(c, w, e).phase, p) + Removed(c, w, e)[p] == Share(w.phase, p)
  {}

  /** Events that leave custody alone. */
  lemma QuietShares(c: Config, w: World, e: Event, p: S32)
    requires Enabled(c, w, e) && (e.Tick? || e.Drain? || e.Fire? || e.Nudge? || e.Move? || e.StopUser?)
    ensures Share(Apply(c, w, e).phase, p) == Share(w.phase, p)
  {}

  lemma PhaseShares(c: Config, w: World, e: Event, p: S32)
    requires Enabled(c, w, e) && (e.Spawn? || e.Wake? || e.Stop? || e.Exit?) && Known(c, w)
    ensures Share(Apply(c, w, e).phase, p) == Share(w.phase, p)
  {}

  /** Custody changes exactly with what the queues gain and lose. */
  lemma EventShares(c: Config, w: World, e: Event, p: S32)
    requires Known(c, w) && Enabled(c, w, e) && p != c.usersched && !e.UserTake? && !e.UserPush?
    ensures Share(Apply(c, w, e).phase, p) + Removed(c, w, e)[p] == Share(w.phase, p) + Added(c, w, e)[p]
  {
    match e
    case Run(_) => RunShares(c, w, e, p);
    case Enqueue(_, _, _) =>
    case Select(_, _, _) =>
    case Requeue(_) =>
    case Spawn(_, _) => PhaseShares(c, w, e, p);
    case Wake(_) => PhaseShares(c, w, e, p);
    case Stop(_, _) => PhaseShares(c, w, e, p);
    case Exit(_) => PhaseShares(c, w, e, p);
    case _ => QuietShares(c, w, e, p);
  }

  lemma KernelOwned(c: Config, s: System, e: Event)
    requires Inv(c, s) && Enabled(c, s.w, e) && !e.UserTake? && !e.UserPush?
    ensures Owned(c, s.(w := Apply(c, s.w, e)))
  {
    EventMoves(c, s, e);
    forall p | p != c.usersched
      ensures Share(Apply(c, s.w, e).phase, p) + Removed(c, s.w, e)[p] == Share(s.w.phase, p) + Added(c, s.w, e)[p]
    {
      EventShares(c, s.w, e, p);
    }
    MovesOwned(c, s, s.(w := Apply(c, s.w, e)), Added(c, s.w, e), Removed(c, s.w, e));
  }

  lemma EnqueuePolicy(c: Config, s: System, e: Event)
    requires Known(c, s.w) && PolicyOk(c, s) && Enabled(c, s.w, e) && e.Enqueue?
    ensures PolicyOk(c, s.(w := Apply(c, s.w, e)))
  {
    FollowSent(c, s.w.k, e.pid, e.flags, e.ch, EnqueueRoute(c, s.w.k, e.pid, e.ch));
  }

  lemma DrainPolicy(c: Config, s: System)
    requires PolicyOk(c, s) && Enabled(c, s.w, Drain)
    ensures PolicyOk(c, s.(w := Apply(c, s.w, Drain)))
  {
    DispatchCounts(c, s.w.k.(sent := s.w.k.sent[1..]), s.w.k.sent[0]);
  }

  lemma KernelPolicy(c: Config, s: System, e: Event)
    requires Known(c, s.w) && PolicyOk(c, s) && Enabled(c, s.w, e) && !e.UserTake? && !e.UserPush?
    ensures PolicyOk(c, s.(w := Apply(c, s.w, e)))
  {
    match e
    case Enqueue(_, _, _) => EnqueuePolicy(c, s, e);
    case Drain => DrainPolicy(c, s);
    case _ =>
  }

  lemma InvStep(c: Config, size: nat, s: System, step: Step)
    requires ConfigOk(c) && Inv(c, s) && CanStep(c, size, s, step)
    ensures Inv(c, Next(c, size, s, step))
  {
    if step.Backend? {
      SafeStep(c, s.w, step.e);
      KernelPolicy(c, s, step.e);
      KernelOwned(c, s, step.e);
    } else {
      UserStep(c, size, s, step);
    }
  }

  /** State i + 1 of a run comes from state i by step i. */
  ghost predicate SystemFollows(c: Config, size: nat, ss: seq<System>, steps: seq<Step>, i: nat)
    requires i < |steps| && |ss| == |steps| + 1
  {
    CanStep(c, size, ss[i], steps[i]) && ss[i + 1] == Next(c, size, ss[i], steps[i])
  }

  /** A run of the composed system. */
  ghost predicate IsSystemRun(c: Config, size: nat, ss: seq<System>, steps: seq<Step>) {
    && |ss| == |steps| + 1
    && ss[0] == InitSystem(c)
    && forall i :: 0 <= i < |steps| ==> SystemFollows(c, size, ss, steps, i)
  }

  lemma {:induction false} InvAlways(c: Config, size: nat, ss: seq<System>, steps: seq<Step>, n: nat)
    requires ConfigOk(c) && IsSystemRun(c, size, ss, steps) && n < |ss|
    ensures Inv(c, ss[n])
  {
    if n == 0 {
      assert OnCpus(ss[0].w.phase) == {};
    } else {
      InvAlways(c, size, ss, steps, n - 1);
      assert SystemFollows(c, size, ss, steps, n - 1);
      InvStep(c, size, ss[n - 1], steps[n - 1]);
    }
  }

  predicate SameCpu(w: World, p: S32, q: S32) {
    p in w.phase && q in w.phase && w.phase[p].OnCpu? && w.phase[q] == w.phase[p]
  }

  /** Ownership over every run: an existing ordinary task is asleep, or in the kernel's own hands
      between two events, or running on one CPU that no other ordinary task runs on, or in custody; a
      task in custody is held exactly once by one of the queues of the two halves, or has been dropped
      once by a failed send; and no queue holds a task in any other state. */
  lemma ExactlyOnePlace(c: Config, size: nat, ss: seq<System>, steps: seq<Step>, n: nat, p: S32)
    requires ConfigOk(c) && IsSystemRun(c, size, ss, steps) && n < |ss| && p != c.usersched
    ensures Held(ss[n])[p] + ss[n].dropped[p] <= 1
    ensures Held(ss[n])[p] == 1 <==> p in ss[n].w.phase && ss[n].w.phase[p] == Custody && p !in ss[n].dropped
    ensures p in ss[n].dropped ==> p in ss[n].w.phase && ss[n].w.phase[p] == Custody
    ensures forall q :: SameCpu(ss[n].w, p, q) ==> p == q
  {
    InvAlways(c, size, ss, steps, n);
    assert p in ss[n].dropped <==> ss[n].dropped[p] > 0;
  }

  /** Nobody was dropped if and only if no send has failed. */
  lemma {:induction false} DroppedByFailures(c: Config, size: nat, ss: seq<System>, steps: seq<Step>, n: nat)
    requires IsSystemRun(c, size, ss, steps) && n < |ss|
    ensures ss[n].dropped == multiset{} <==> forall i :: 0 <= i < n ==> !steps[i].FailSend?
  {
    if n > 0 {
      DroppedByFailures(c, size, ss, steps, n - 1);
      assert SystemFollows(c, size, ss, steps, n - 1);
      DropStep(c, size, ss[n - 1], steps[n - 1]);
      if ss[n - 1].dropped != multiset{} {
        var p := Lost(ss[n - 1].dropped);
        assert p in ss[n].dropped;
      }
    }
  }

  /** The task in hand at a failed send is an ordinary one and stays dropped. */
  lemma {:induction false} FailureRemembered(c: Config, size: nat, ss: seq<System>, steps: seq<Step>, i: nat, n: nat)
    requires ConfigOk(c) && IsSystemRun(c, size, ss, steps) && i < n < |ss| && steps[i].FailSend?
    ensures ss[i].hand.Some? && ss[i].hand.value.pid != c.usersched && ss[i].hand.value.pid in ss[n].dropped
  {
    assert SystemFollows(c, size, ss, steps, n - 1);
    DropStep(c, size, ss[n - 1], steps[n - 1]);
    if n == i + 1 {
      InvAlways(c, size, ss, steps, i);
    } else {
      FailureRemembered(c, size, ss, steps, i, n - 1);
    }
  }

  lemma {:induction false} NeverTheScheduler(c: Config, size: nat, ss: seq<System>, steps: seq<Step>, n: nat)
    requires ConfigOk(c) && IsSystemRun(c, size, ss, steps) && n < |ss|
    ensures c.usersched !in ss[n].dropped
  {
    if n > 0 {
      NeverTheScheduler(c, size, ss, steps, n - 1);
      InvAlways(c, size, ss, steps, n - 1);
      assert SystemFollows(c, size, ss, steps, n - 1);
      DropStep(c, size, ss[n - 1], steps[n - 1]);
    }
  }

  lemma DropStep(c: Config, size: nat, s: System, step: Step)
    requires CanStep(c, size, s, step)
    ensures Next(c, size, s, step).dropped
            == s.dropped + if step.FailSend? then multiset{s.hand.value.pid} else multiset{}
  {}

  /** Ownership is complete if and only if no send has failed. */
  lemma NobodyLostExactly(c: Config, size: nat, ss: seq<System>, steps: seq<Step>, n: nat)
    requires ConfigOk(c) && IsSystemRun(c, size, ss, steps) && n < |ss|
    ensures NobodyLost(c, ss[n]) <==> forall i :: 0 <= i < n ==> !steps[i].FailSend?
  {
    InvAlways(c, size, ss, steps, n);
    DroppedByFailures(c, size, ss, steps, n);
    if ss[n].dropped != multiset{} {
      NeverTheScheduler(c, size, ss, steps, n);
      var p := Lost(ss[n].dropped);
      assert p != c.usersched && Held(ss[n])[p] + ss[n].dropped[p] == Share(ss[n].w.phase, p);
    }
  }

  /** A failed send loses its task for good: from then on the task is in custody and nobody holds it. */
  lemma FailedSendLosesTask(c: Config, size: nat, ss: seq<System>, steps: seq<Step>, i: nat, n: nat)
    requires ConfigOk(c) && IsSystemRun(c, size, ss, steps) && i < n < |ss| && steps[i].FailSend?
    ensures ss[i].hand.Some?
    ensures var p := ss[i].hand.value.pid;
      Held(ss[n])[p] == 0 && p in ss[n].w.phase && ss[n].w.phase[p] == Custody
  {
    FailureRemembered(c, size, ss, steps, i, n);
    assert SystemFollows(c, size, ss, steps, i);
    ExactlyOnePlace(c, size, ss, steps, n, ss[i].hand.value.pid);
  }

  lemma ExtendSystem(c: Config, size: nat, ss: seq<System>, steps: seq<Step>, step: Step)
    returns (ss': seq<System>, steps': seq<Step>)
    requires IsSystemRun(c, size, ss, steps) && CanStep(c, size, ss[|steps|], step)
    ensures ss' == ss + [Next(c, size, ss[|steps|], step)] && steps' == steps + [step]
    ensures IsSystemRun(c, size, ss', steps')
  {
    ss', steps' := ss + [Next(c, size, ss[|steps|], step)], steps + [step];
    forall i | 0 <= i < |steps'| ensures SystemFollows(c, size, ss', steps', i) {
      assert i < |steps| ==> SystemFollows(c, size, ss, steps, i);
    }
  }

  lemma FirstReport(c: Config, size: nat, p: S32, cpu: S32) returns (ss: seq<System>, steps: seq<Step>)
    requires ConfigOk(c) && Preemption.Ordinary(c, p) && cpu in c.attrs[p].allowed
    ensures IsSystemRun(c, size, ss, steps)
    ensures ss[|steps|] == System(
      Preemption.Alone(c, p, Preemption.Reported(c, p, cpu), TaskCtx(cpu, 0, 0, 0, 0), Custody), 0, [], None, multiset{})
    ensures forall i :: 0 <= i < |steps| ==> !steps[i].FailSend?
  {
    ss, steps := [InitSystem(c)], [];
    ss, steps := ExtendSystem(c, size, ss, steps, Backend(Spawn(p, cpu)));
    assert ss[|steps|].w == Preemption.Alone(c, p, Preemption.Quiet(c), TaskCtx(cpu, 0, 0, 0, 0), Asleep);
    ss, steps := ExtendSystem(c, size, ss, steps, Backend(Wake(p)));
    assert ss[|steps|].w == Preemption.Alone(c, p, Preemption.Quiet(c), TaskCtx(cpu, 0, 0, 0, 0), Waking);
    ss, steps := ExtendSystem(c, size, ss, steps, Backend(Enqueue(p, 0, Choice(false, -EBUSY, -EBUSY, false))));
  }

  lemma NewTaskFits(t: QueuedTask)
    requires 1 <= t.weight <= 10_000 && t.vtime == 0 && t.startTs == t.stopTs == 0 && t.sumExecRuntime == 0
    ensures Vruntime.WellFormed(t) && Vruntime.Fits(Vruntime.Advance(0, t), t)
  {
    Vruntime.QuotientAntitone(Vruntime.MAX_LAG, 1, t.weight);
    assert Vruntime.Usage(t) == 0;
  }

  lemma InHand(c: Config, size: nat, p: S32, cpu: S32) returns (ss: seq<System>, steps: seq<Step>)
    requires ConfigOk(c) && Preemption.Ordinary(c, p) && cpu in c.attrs[p].allowed && size >= 2
    ensures IsSystemRun(c, size, ss, steps) && forall i :: 0 <= i < |steps| ==> !steps[i].FailSend?
    ensures ss[|steps|].hand.Some? && ss[|steps|].hand.value.pid == p
  {
    ss, steps := FirstReport(c, size, p, cpu);
    assert AttrOk(c, p, c.attrs[p]);
    NewTaskFits(ss[|steps|].w.k.queued[0]);
    ss, steps := ExtendSystem(c, size, ss, steps, TakeIn);
    assert ss[|steps|].pool[0].queued.pid == p;
    ss, steps := ExtendSystem(c, size, ss, steps, Serve);
  }

  /** It can happen, for every ordinary task: a run whose only failed send is its last step. */
  lemma FailedSendHappens(c: Config, size: nat, p: S32, cpu: S32) returns (ss: seq<System>, steps: seq<Step>)
    requires ConfigOk(c) && Preemption.Ordinary(c, p) && cpu in c.attrs[p].allowed && size >= 2
    ensures IsSystemRun(c, size, ss, steps) && |steps| > 0 && steps[|steps| - 1].FailSend?
    ensures forall i :: 0 <= i < |steps| - 1 ==> !steps[i].FailSend?
    ensures p in ss[|steps|].dropped && NobodyLost(c, ss[|steps| - 1]) && !NobodyLost(c, ss[|steps|])
  {
    ss, steps := InHand(c, size, p, cpu);
    ss, steps := ExtendSystem(c, size, ss, steps, FailSend);
    NobodyLostExactly(c, size, ss, steps, |steps| - 1);
    NobodyLostExactly(c, size, ss, steps, |steps|);
  }

  lemma Lost(m: multiset<S32>) returns (p: S32)
    requires m != multiset{}
    ensures p in m && m[p] > 0
  {
    p :| p in m;
  }

  /** With this policy priority_tasks stays empty, so each enqueue of an ordinary task does exactly
      one thing: one insertion into a DSQ or one message to user space. */
  lemma PriorityNeverUsed(c: Config, size: nat, ss: seq<System>, steps: seq<Step>, n: nat)
    requires ConfigOk(c) && IsSystemRun(c, size, ss, steps) && n < |steps|
    ensures ss[n].w.k.priority == map[]
    ensures steps[n].Backend? && steps[n].e.Enqueue? ==> Actions(ss[n].w.k, ss[n + 1].w.k) == 1
  {
    InvAlways(c, size, ss, steps, n);
    assert SystemFollows(c, size, ss, steps, n);
    if steps[n].Backend? && steps[n].e.Enqueue? {
      var w, e := ss[n].w, steps[n].e;
      assert AttrOk(c, e.pid, c.attrs[e.pid]);
      EnqueueActsOnce(c, w.k, e.pid, e.flags, e.ch);
    }
  }

  /** Everything the backend reports can be digested: a weight in range and ordered timestamps, so the
      policy never divides by zero and its subtraction never wraps. */
  lemma MessagesWellFormed(c: Config, size: nat, ss: seq<System>, steps: seq<Step>, n: nat, i: nat)
    requires ConfigOk(c) && IsSystemRun(c, size, ss, steps) && n < |ss| && i < |ss[n].w.k.queued|
    ensures Vruntime.WellFormed(ss[n].w.k.queued[i])
  {
    InvAlways(c, size, ss, steps, n);
    assert MessageOk(c, ss[n].w.k.queued[i]);
  }

  /** The step on records is what the drain loop does on the bytes of the message, in 64-bit arithmetic,
      as long as nothing overflows. */
  lemma TakeInIsDrainStep(c: Config, size: nat, s: System, u: UserSched.UserState)
    requires CanStep(c, size, s, TakeIn) && Mirrors(u, s) && u.queue != [] && UserSched.Weighted(u.queue)
    requires s.w.k.queued[0].pid != -1
    requires IsU64(s.minVruntime) && IsU64(s.w.k.queued[0].vtime) && IsU64(s.w.k.queued[0].stopTs)
    ensures UserSched.Usable(u.queue[0])
    ensures Mirrors(UserSched.TakeIn(u).0, Next(c, size, s, TakeIn))
  {
    var t, v := s.w.k.queued[0], UserSched.TakeIn(u).0;
    Vruntime.WrapExact(Vruntime.Advance(s.minVruntime, t), t);
    assert forall i :: 0 <= i < |v.queue| ==> v.queue[i] == u.queue[i + 1];
  }

  /** Serving the head and sending its answer, or failing to, is one turn of the scheduling loop. */
  lemma ServeIsTurn(c: Config, size: nat, s: System, turn: Serving.Turn, waiting: nat)
    requires s.pool != [] && s.hand.None? && waiting > 0
    ensures CanStep(c, size, s, Serve)
    ensures var s1 := Next(c, size, s, Serve);
      var step := if turn.sendOk then Send(Serving.SelectCpu(turn.search).cpu, Vruntime.Slice(waiting)) else FailSend;
      CanStep(c, size, s1, step)
      && var s2 := Next(c, size, s1, step);
         && s2.w.k.sent == s.w.k.sent + Serving.Sends(s.pool[0].queued, turn, waiting)
         && s2.pool == s.pool[1..] && s2.hand.None? && s2.minVruntime == s.minVruntime
         && s2.w.k.queued == s.w.k.queued
  {}

  /** The channel of the byte-level scheduler holds the first messages of the joint queue. */
  ghost predicate Mirrors(u: UserSched.UserState, s: System) {
    && |u.queue| <= |s.w.k.queued|
    && (forall i :: 0 <= i < |u.queue| ==> FastDecode(u.queue[i]) == Some(s.w.k.queued[i]))
    && u.pool == s.pool && u.minVruntime == s.minVruntime
  }

  /** Waiting on the bytes is a rotation of that many records. */
  lemma WaitIsRotate(c: Config, size: nat, s: System, u: UserSched.UserState)
    requires Mirrors(u, s) && u.queue != []
    ensures CanStep(c, size, s, Rotate(|u.queue|))
    ensures Mirrors(UserSched.Rotated(u), Next(c, size, s, Rotate(|u.queue|)))
  {
    var q, n, v := s.w.k.queued, |u.queue|, UserSched.Rotated(u);
    var q' := q[1..n] + [q[0]] + q[n..];
    forall i | 0 <= i < n ensures FastDecode(v.queue[i]) == Some(q'[i]) {
      if i < n - 1 { assert v.queue[i] == u.queue[i + 1] && q'[i] == q[i + 1]; }
    }
  }

  /** The pool is a sorted queue that leaves one slot free. */
  lemma {:induction false} PoolAlwaysSorted(c: Config, size: nat, ss: seq<System>, steps: seq<Step>, n: nat)
    requires size >= 1 && IsSystemRun(c, size, ss, steps) && n < |ss|
    ensures Sorted(ss[n].pool) && |ss[n].pool| <= size - 1
  {
    if n > 0 {
      PoolAlwaysSorted(c, size, ss, steps, n - 1);
      var s := ss[n - 1];
      assert SystemFollows(c, size, ss, steps, n - 1);
      if steps[n - 1].TakeIn? {
        InsertKeepsOrder(s.pool, Vruntime.Entry(Vruntime.Advance(s.minVruntime, s.w.k.queued[0]), s.w.k.queued[0]));
      }
    }
  }

  function Policy(s: System): NoOvertaking.State { NoOvertaking.State(s.minVruntime, s.pool) }

  /** Tasks served during the steps from n on, up to m. */
  function ServesBetween(steps: seq<Step>, n: nat, m: nat): nat
    requires n <= m <= |steps|
  {
    if n == m then 0 else ServesBetween(steps, n, m - 1) + if steps[m - 1].Serve? then 1 else 0
  }

  lemma PositionStep(c: Config, size: nat, s: System, step: Step, k: nat)
    requires CanStep(c, size, s, step) && NoOvertaking.Settled(Policy(s), k) && (step.Serve? ==> k > 0)
    ensures var s', k' := Next(c, size, s, step), if step.Serve? then k - 1 else k;
      NoOvertaking.Settled(Policy(s'), k') && s'.pool[k'] == s.pool[k]
  {
    if step.TakeIn? {
      NoOvertaking.DrainKeepsPosition(Policy(s), s.w.k.queued[0], k);
    }
  }

  /** No overtaking in the whole system: once a pooled deadline is more than 5ms behind the global
      vruntime, its task moves up by exactly one place each time a task is served, whatever the backend
      reports or does in between, until its own turn. */
  lemma {:induction false} NobodyOvertakes(c: Config, size: nat, ss: seq<System>, steps: seq<Step>, n: nat, m: nat, i: nat)
    requires IsSystemRun(c, size, ss, steps) && n <= m <= |steps|
    requires NoOvertaking.Settled(Policy(ss[n]), i) && ServesBetween(steps, n, m) <= i
    ensures var k := i - ServesBetween(steps, n, m);
      NoOvertaking.Settled(Policy(ss[m]), k) && ss[m].pool[k] == ss[n].pool[i]
  {
    if n < m {
      NobodyOvertakes(c, size, ss, steps, n, m - 1, i);
      assert SystemFollows(c, size, ss, steps, m - 1);
      PositionStep(c, size, ss[m - 1], steps[m - 1], i - ServesBetween(steps, n, m - 1));
    }
  }
}
