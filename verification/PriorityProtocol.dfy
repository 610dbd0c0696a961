/** The priority protocol: user space answers every message of one task with vtime 0, and does what it
    likes with all others. Each time that task is handed to the backend it is inserted into a queue
    exactly once, by enqueue if it is in priority_tasks and by the handling of the answer otherwise. */
module PriorityProtocol {
  import opened Words
  import opened TaskPool
  import opened Layout
  import opened Kernel
  import opened World
  import opened WorldSafety
  import opened Census

  /** inbox: messages user space has taken and not yet answered. */
  datatype Proto = Proto(w: World, inbox: seq<QueuedTask>)

  datatype Step =
    | Backend(e: Event)
    | Take                                                // user space takes the oldest message
    | Reply(i: nat, cpu: S32, slice: nat, vtime: nat)     // and answers any taken message
    | Push(m: DispatchedTask)                             // or sends something nobody asked for

  function InitProto(c: Config): Proto { Proto(Init(c), []) }

  /** For the followed task p only: the ring has room, answers carry vtime 0 and a CPU it may use, one
      per message, and p is not used for a new task while anything of an old one is under way. */
  ghost predicate CanStep(c: Config, p: S32, s: Proto, step: Step) {
    match step
    case Backend(e) =>
      && Enabled(c, s.w, e) && !e.UserTake? && !e.UserPush?
      && (e.Enqueue? && e.pid == p ==> !e.ch.ringFull)
      && (e.Spawn? && e.pid == p ==> Out(s)[p] == 0)
    case Take => s.w.k.queued != []
    case Reply(i, cpu, _, vtime) =>
      && i < |s.inbox|
      && (s.inbox[i].pid == p ==> vtime == 0 && p in c.attrs && cpu in c.attrs[p].allowed)
    case Push(m) => m.pid != p
  }

  function Answer(t: QueuedTask, cpu: S32, slice: nat, vtime: nat): DispatchedTask {
    DispatchedTask(t.pid, cpu, t.flags, slice, vtime, 0)
  }

  ghost function After(c: Config, s: Proto, e: Event): Proto
    requires Enabled(c, s.w, e)
  {
    s.(w := Apply(c, s.w, e))
  }

  function WithSent(w: World, m: DispatchedTask): World { w.(k := w.k.(sent := w.k.sent + [m])) }

  ghost function Next(c: Config, p: S32, s: Proto, step: Step): Proto
    requires CanStep(c, p, s, step)
  {
    match step
    case Backend(e) => After(c, s, e)
    case Take =>
      s.(w := s.w.(k := s.w.k.(queued := s.w.k.queued[1..])), inbox := s.inbox + [s.w.k.queued[0]])
    case Reply(i, cpu, slice, vtime) =>
      Proto(WithSent(s.w, Answer(s.inbox[i], cpu, slice, vtime)), s.inbox[..i] + s.inbox[i + 1..])
    case Push(m) => s.(w := WithSent(s.w, m))
  }

  /** Messages and answers under way for each pid. */
  function Out(s: Proto): multiset<S32> {
    InQueue(s.w.k.queued) + InQueue(s.inbox) + InSent(s.w.k.sent)
  }

  /** One task's part of the state: its copies in the kernel's queues, its messages under way,
      whether it is prioritized, and what the kernel does with it (nothing if it does not exist). */
  datatype View = View(copies: int, out: int, prio: bool, phase: Option<Phase>)

  function ViewOf(s: Proto, p: S32): View {
    View(OnBoard(s.w.k.board)[p], Out(s)[p], p in s.w.k.priority,
         if p in s.w.phase then Some(s.w.phase[p]) else None)
  }

  predicate Pending(v: View) { v.phase == Some(Custody) && v.copies == 0 }

  /** The protocol invariant of one task: at most one copy, and only in custody; a task that is not
      prioritized has exactly one message under way while it is pending and none otherwise; a
      prioritized task is never pending. */
  predicate ViewOk(v: View) {
    if v.phase.Some? then
      && 0 <= v.copies <= (if v.phase.value == Custody then 1 else 0)
      && (if v.prio then !Pending(v) else v.out == if Pending(v) then 1 else 0)
    else
      v.copies == 0 && !v.prio
  }

  /** The ways a step can change one task's view. */
  datatype Effect =
    | Same
    | Bypass                  // an episode begins and the task is inserted without user space
    | Shortcut                // an episode begins, prioritized: inserted, and a message as well
    | Ask                     // an episode begins with a message only
    | Answered(prio: bool)    // an answer is handled
    | Started(cpu: S32)
    | Requeued                // the kernel's own reinsertion, not an episode
    | Phased(phase: Phase)    // sleeping, waking, stopping
    | Born
    | Gone

  predicate Handed(v: View) { v.phase == Some(Waking) || v.phase == Some(Returning) }

  predicate Changes(v: View, v': View, eff: Effect) {
    match eff
    case Same => v' == v
    case Bypass => Handed(v) && v' == v.(copies := v.copies + 1, phase := Some(Custody))
    case Shortcut => Handed(v) && v.prio && v' == v.(copies := v.copies + 1, out := v.out + 1, phase := Some(Custody))
    case Ask => Handed(v) && !v.prio && v' == v.(out := v.out + 1, phase := Some(Custody))
    case Answered(prio) =>
      && v.out > 0 && (v.prio ==> prio) && (v.phase.None? ==> prio == v.prio)
      && v' == v.(copies := v.copies + (if v.phase.Some? && !v.prio then 1 else 0), out := v.out - 1, prio := prio)
    case Started(cpu) => v.phase == Some(Custody) && v.copies > 0 && v' == v.(copies := v.copies - 1, phase := Some(OnCpu(cpu)))
    case Requeued => Handed(v) && v' == v.(copies := v.copies + 1, phase := Some(Custody))
    case Phased(ph) =>
      v.phase.Some? && v.phase != Some(Custody) && ph != Custody && v' == v.(phase := Some(ph))
    case Born => v.phase.None? && v.out == 0 && v' == v.(phase := Some(Asleep))
    case Gone => v.phase == Some(Asleep) && v' == v.(prio := false, phase := None)
  }

  /** Every change keeps the task's invariant. */
  lemma ChangeKeepsView(v: View, v': View, eff: Effect)
    requires ViewOk(v) && Changes(v, v', eff)
    ensures ViewOk(v')
  {}

  predicate Begins(eff: Effect) { eff.Bypass? || eff.Shortcut? || eff.Ask? }

  function Open(v: View): int { if Pending(v) then 1 else 0 }

  /** Copies a handler of the backend inserts in such a change. */
  function Inserts(v: View, eff: Effect): int {
    if eff.Bypass? || eff.Shortcut? || (eff.Answered? && v.phase.Some? && !v.prio) then 1 else 0
  }

  lemma ChangeBalances(v: View, v': View, eff: Effect)
    requires ViewOk(v) && Changes(v, v', eff)
    ensures Inserts(v, eff) + Open(v') == (if Begins(eff) then 1 else 0) + Open(v)
  {}

  ghost predicate AnswerOk(c: Config, m: DispatchedTask) {
    m.vtime == 0 && m.pid in c.attrs && m.cpu in c.attrs[m.pid].allowed && m.cpu < MAX_CPUS
  }

  /** The answers for p are as agreed. */
  ghost predicate AnswersOk(c: Config, p: S32, s: Proto) {
    forall i :: 0 <= i < |s.w.k.sent| && s.w.k.sent[i].pid == p ==> AnswerOk(c, s.w.k.sent[i])
  }

  ghost predicate Inv(c: Config, p: S32, s: Proto) {
    Safe(c, s.w) && AnswersOk(c, p, s) && ViewOk(ViewOf(s, p))
  }

  // ---- user-space steps only move messages along ----

  lemma InboxRemove(q: seq<QueuedTask>, i: nat)
    requires i < |q|
    ensures InQueue(q) == InQueue(q[..i] + q[i + 1..]) + multiset{q[i].pid}
  {
    var s := QueuedPids(q);
    assert QueuedPids(q[..i] + q[i + 1..]) == s[..i] + s[i + 1..];
    SeqRemove(s, i);
  }

  lemma TakeOut(c: Config, p: S32, s: Proto)
    requires CanStep(c, p, s, Take)
    ensures Out(Next(c, p, s, Take)) == Out(s)
  {
    QueuePop(s.w.k.queued);
    QueuePush(s.inbox, s.w.k.queued[0]);
  }

  lemma ReplyOut(c: Config, p: S32, s: Proto, step: Step)
    requires CanStep(c, p, s, step) && step.Reply?
    ensures Out(Next(c, p, s, step)) == Out(s)
  {
    InboxRemove(s.inbox, step.i);
    SentPush(s.w.k.sent, Answer(s.inbox[step.i], step.cpu, step.slice, step.vtime));
  }

  lemma PushOut(c: Config, p: S32, s: Proto, step: Step)
    requires CanStep(c, p, s, step) && step.Push?
    ensures Out(Next(c, p, s, step)) == Out(s) + multiset{step.m.pid}
  {
    SentPush(s.w.k.sent, step.m);
  }

  lemma UserOut(c: Config, p: S32, s: Proto, step: Step)
    requires CanStep(c, p, s, step) && !step.Backend?
    ensures Out(Next(c, p, s, step))[p] == Out(s)[p]
  {
    match step
    case Take => TakeOut(c, p, s);
    case Reply(_, _, _, _) => ReplyOut(c, p, s, step);
    case Push(_) => PushOut(c, p, s, step);
  }

  lemma UserSafe(c: Config, p: S32, s: Proto, step: Step)
    requires CanStep(c, p, s, step) && Safe(c, s.w) && !step.Backend?
    ensures Safe(c, Next(c, p, s, step).w)
  {}

  lemma UserAnswers(c: Config, p: S32, s: Proto, step: Step)
    requires ConfigOk(c) && CanStep(c, p, s, step) && AnswersOk(c, p, s) && !step.Backend?
    ensures AnswersOk(c, p, Next(c, p, s, step))
  {
    if p in c.attrs { assert AttrOk(c, p, c.attrs[p]); }
  }

  lemma UserView(c: Config, p: S32, s: Proto, step: Step)
    requires CanStep(c, p, s, step) && !step.Backend?
    ensures ViewOf(Next(c, p, s, step), p) == ViewOf(s, p)
  {
    UserOut(c, p, s, step);
  }

  // ---- backend steps: the effect on one task ----

  lemma EnqueueMoves(c: Config, s: Proto, e: Event)
    requires ConfigOk(c) && Known(c, s.w) && HomeOk(c, s.w.k.tasks) && Enabled(c, s.w, e) && e.Enqueue?
    requires !e.ch.ringFull
    ensures var s', one, none := After(c, s, e), multiset{e.pid}, multiset{};
      var asks := EnqueueRoute(c, s.w.k, e.pid, e.ch).ToUser?;
      && OnBoard(s'.w.k.board) == OnBoard(s.w.k.board) + (if asks && e.pid !in s.w.k.priority then none else one)
      && Out(s') == Out(s) + (if asks then one else none)
      && s'.w.k.priority == s.w.k.priority
      && s'.w.phase == s.w.phase[e.pid := Custody]
  {
    assert AttrOk(c, e.pid, c.attrs[e.pid]);
    var r := EnqueueRoute(c, s.w.k, e.pid, e.ch);
    FollowCounts(c, s.w.k, e.pid, e.flags, e.ch, r);
    FollowSent(c, s.w.k, e.pid, e.flags, e.ch, r);
    assert After(c, s, e).w.k == Follow(c, s.w.k, e.pid, e.flags, e.ch, r);
  }

  lemma EnqueueView(c: Config, s: Proto, e: Event, p: S32)
    requires ConfigOk(c) && Known(c, s.w) && HomeOk(c, s.w.k.tasks) && Enabled(c, s.w, e) && e.Enqueue?
    requires e.pid == p ==> !e.ch.ringFull
    requires p != c.usersched
    ensures var v, r := ViewOf(s, p), EnqueueRoute(c, s.w.k, e.pid, e.ch);
      ViewOf(After(c, s, e), p) ==
        if e.pid != p then v
        else v.(copies := v.copies + (if r.ToUser? && !v.prio then 0 else 1),
                out := v.out + (if r.ToUser? then 1 else 0), phase := Some(Custody))
  {
    if e.pid == p { EnqueueMoves(c, s, e); } else { EnqueueOther(c, s, e, p); }
  }

  lemma EnqueueOther(c: Config, s: Proto, e: Event, p: S32)
    requires Enabled(c, s.w, e) && e.Enqueue? && e.pid != p
    ensures ViewOf(After(c, s, e), p) == ViewOf(s, p)
  {
    var r := EnqueueRoute(c, s.w.k, e.pid, e.ch);
    FollowCounts(c, s.w.k, e.pid, e.flags, e.ch, r);
    FollowSent(c, s.w.k, e.pid, e.flags, e.ch, r);
    assert After(c, s, e).w.k == Follow(c, s.w.k, e.pid, e.flags, e.ch, r);
  }

  lemma EnqueueEffect(c: Config, s: Proto, e: Event, p: S32) returns (eff: Effect)
    requires ConfigOk(c) && Known(c, s.w) && HomeOk(c, s.w.k.tasks) && Enabled(c, s.w, e) && e.Enqueue?
    requires e.pid == p ==> !e.ch.ringFull
    requires p != c.usersched
    ensures Changes(ViewOf(s, p), ViewOf(After(c, s, e), p), eff)
    ensures Begins(eff) <==> BeginsEpisode(c, s, Backend(e), p)
    ensures Begins(eff) || eff.Same?
  {
    EnqueueView(c, s, e, p);
    if e.pid != p { return Same; }
    if !EnqueueRoute(c, s.w.k, e.pid, e.ch).ToUser? { return Bypass; }
    if p in s.w.k.priority { return Shortcut; }
    return Ask;
  }

  lemma SelectView(c: Config, s: Proto, e: Event, p: S32)
    requires Enabled(c, s.w, e) && e.Select?
    ensures var v := ViewOf(s, p);
      ViewOf(After(c, s, e), p) ==
        if e.pid != p || !SelectInserts(c, s.w.k, p, e.pick) then v
        else v.(copies := v.copies + 1, phase := Some(Custody))
  {
    VtimeCounts(s.w.k, e.pid, Custom(CpuToDsq(e.pick)), s.w.k.tasks[e.pid].vtime);
  }

  lemma SelectEffect(c: Config, s: Proto, e: Event, p: S32) returns (eff: Effect)
    requires Enabled(c, s.w, e) && e.Select?
    ensures Changes(ViewOf(s, p), ViewOf(After(c, s, e), p), eff)
    ensures Begins(eff) <==> BeginsEpisode(c, s, Backend(e), p)
    ensures Begins(eff) || eff.Same?
  {
    SelectView(c, s, e, p);
    if e.pid == p && SelectInserts(c, s.w.k, p, e.pick) { return Bypass; }
    return Same;
  }

  lemma DrainOut(c: Config, s: Proto)
    requires Enabled(c, s.w, Drain)
    ensures Out(s) == Out(After(c, s, Drain)) + multiset{s.w.k.sent[0].pid}
    ensures After(c, s, Drain).w.phase == s.w.phase
  {
    var k, m := s.w.k.(sent := s.w.k.sent[1..]), s.w.k.sent[0];
    SentPop(s.w.k.sent);
    DispatchCounts(c, k, m);
    assert After(c, s, Drain).w.k == DispatchTask(c, k, m) && After(c, s, Drain).inbox == s.inbox;
    MoveOut(InQueue(s.w.k.queued), InQueue(s.inbox), InSent(k.sent), multiset{m.pid});
  }

  lemma MoveOut(a: multiset<S32>, b: multiset<S32>, c: multiset<S32>, one: multiset<S32>)
    ensures a + b + (c + one) == a + b + c + one
  {}

  lemma DrainPriority(c: Config, s: Proto, p: S32)
    requires Enabled(c, s.w, Drain) && AnswersOk(c, p, s) && Known(c, s.w) && p != c.usersched
    ensures var was, now := s.w.k.priority, After(c, s, Drain).w.k.priority;
      && (p in was ==> p in now)
      && (p != s.w.k.sent[0].pid || p !in s.w.phase ==> (p in now <==> p in was))
  {
    var k, m := s.w.k.(sent := s.w.k.sent[1..]), s.w.k.sent[0];
    assert After(c, s, Drain).w.k == DispatchTask(c, k, m);
    if p in k.tasks { assert p in s.w.phase; }
  }

  /** Handling an answer inserts the task exactly if it exists and is not yet prioritized. */
  lemma DrainCopies(c: Config, s: Proto, p: S32)
    requires Enabled(c, s.w, Drain) && AnswersOk(c, p, s) && Known(c, s.w) && p != c.usersched
    ensures OnBoard(After(c, s, Drain).w.k.board)[p] == OnBoard(s.w.k.board)[p]
            + if s.w.k.sent[0].pid == p && p in s.w.phase && p !in s.w.k.priority then 1 else 0
  {
    var k, m := s.w.k.(sent := s.w.k.sent[1..]), s.w.k.sent[0];
    DispatchCounts(c, k, m);
    assert After(c, s, Drain).w.k == DispatchTask(c, k, m);
  }

  /** How the task's view changes when an answer is handled, its own or another's. */
  predicate Handles(v: View, v': View, mine: bool) {
    if !mine then v' == v
    else
      && v.out > 0
      && v' == v.(copies := v.copies + (if v.phase.Some? && !v.prio then 1 else 0), out := v.out - 1, prio := v'.prio)
      && (v.prio ==> v'.prio) && (v.phase.None? ==> v'.prio == v.prio)
  }

  lemma HandlesFrom(s: Proto, s': Proto, p: S32, from: S32)
    requires Out(s) == Out(s') + multiset{from} && s'.w.phase == s.w.phase
    requires OnBoard(s'.w.k.board)[p] == OnBoard(s.w.k.board)[p]
             + if from == p && p in s.w.phase && p !in s.w.k.priority then 1 else 0
    requires p in s.w.k.priority ==> p in s'.w.k.priority
    requires p != from || p !in s.w.phase ==> (p in s'.w.k.priority <==> p in s.w.k.priority)
    ensures Handles(ViewOf(s, p), ViewOf(s', p), from == p)
  {}

  lemma DrainView(c: Config, s: Proto, p: S32)
    requires Enabled(c, s.w, Drain) && AnswersOk(c, p, s) && Known(c, s.w) && p != c.usersched
    ensures Handles(ViewOf(s, p), ViewOf(After(c, s, Drain), p), s.w.k.sent[0].pid == p)
  {
    DrainOut(c, s);
    DrainCopies(c, s, p);
    DrainPriority(c, s, p);
    HandlesFrom(s, After(c, s, Drain), p, s.w.k.sent[0].pid);
  }

  lemma DrainEffect(c: Config, s: Proto, p: S32) returns (eff: Effect)
    requires Enabled(c, s.w, Drain) && AnswersOk(c, p, s) && Known(c, s.w) && p != c.usersched
    ensures Changes(ViewOf(s, p), ViewOf(After(c, s, Drain), p), eff)
    ensures eff.Same? || eff.Answered?
  {
    DrainView(c, s, p);
    if s.w.k.sent[0].pid == p { return Answered(ViewOf(After(c, s, Drain), p).prio); }
    return Same;
  }

  lemma RunChanges(c: Config, w: World, e: Event)
    requires Enabled(c, w, e) && e.Run? && Known(c, w)
    ensures var i, w' := FirstLocal(w.k.board, e.cpu), Apply(c, w, e);
      && w'.k.board == RemoveAt(w.k.board, i)
      && w'.k.queued == w.k.queued && w'.k.sent == w.k.sent && w'.k.priority == w.k.priority
      && w'.phase == (if w.k.board[i].pid == c.usersched then w.phase else w.phase[w.k.board[i].pid := OnCpu(e.cpu)])
  {}

  lemma RunView(c: Config, s: Proto, e: Event, p: S32)
    requires Enabled(c, s.w, e) && e.Run? && Known(c, s.w) && p != c.usersched
    ensures var v, mine := ViewOf(s, p), s.w.k.board[FirstLocal(s.w.k.board, e.cpu)].pid == p;
      && ViewOf(After(c, s, e), p) ==
           (if mine then v.(copies := v.copies - 1, phase := Some(OnCpu(e.cpu))) else v)
      && (mine ==> v.phase == Some(Custody) && v.copies > 0)
  {
    RunChanges(c, s.w, e);
    RemoveCounts(s.w.k.board, FirstLocal(s.w.k.board, e.cpu));
    assert After(c, s, e).inbox == s.inbox;
  }

  lemma RunEffect(c: Config, s: Proto, e: Event, p: S32) returns (eff: Effect)
    requires Enabled(c, s.w, e) && e.Run? && Known(c, s.w) && p != c.usersched
    ensures Changes(ViewOf(s, p), ViewOf(After(c, s, e), p), eff)
    ensures eff.Same? || eff.Started?
  {
    RunView(c, s, e, p);
    if s.w.k.board[FirstLocal(s.w.k.board, e.cpu)].pid == p { return Started(e.cpu); }
    return Same;
  }

  lemma RequeueView(c: Config, s: Proto, e: Event, p: S32)
    requires Enabled(c, s.w, e) && e.Requeue?
    ensures var v := ViewOf(s, p);
      ViewOf(After(c, s, e), p) == if e.pid != p then v else v.(copies := v.copies + 1, phase := Some(Custody))
  {
    HeadCounts(s.w.k, e.pid, Local(s.w.k.tasks[e.pid].cpu));
  }

  lemma RequeueEffect(c: Config, s: Proto, e: Event, p: S32) returns (eff: Effect)
    requires Enabled(c, s.w, e) && e.Requeue?
    ensures Changes(ViewOf(s, p), ViewOf(After(c, s, e), p), eff)
    ensures eff.Same? || eff.Requeued?
  {
    RequeueView(c, s, e, p);
    if e.pid == p { return Requeued; }
    return Same;
  }

  lemma FireEffect(c: Config, s: Proto, p: S32)
    requires Enabled(c, s.w, Fire) && p != c.usersched
    ensures ViewOf(After(c, s, Fire), p) == ViewOf(s, p)
  {
    HeadCounts(s.w.k, c.usersched, Custom(SCHED_DSQ));
  }

  lemma MoveEffect(c: Config, s: Proto, e: Event, p: S32)
    requires Enabled(c, s.w, e) && e.Move?
    ensures ViewOf(After(c, s, e), p) == ViewOf(s, p)
  {
    MoveCounts(c, s.w.k, e.cpu, e.id);
  }

  lemma IdleEffect(c: Config, s: Proto, e: Event, p: S32)
    requires Enabled(c, s.w, e) && (e.Tick? || e.Nudge? || e.StopUser?)
    ensures ViewOf(After(c, s, e), p) == ViewOf(s, p)
  {}

  lemma PhaseView(c: Config, s: Proto, e: Event, p: S32)
    requires Enabled(c, s.w, e) && Known(c, s.w) && (e.Spawn? || e.Wake? || e.Stop?)
    requires e.Spawn? && e.pid == p ==> Out(s)[p] == 0
    ensures var v := ViewOf(s, p);
      ViewOf(After(c, s, e), p) ==
        if e.pid != p then v
        else v.(phase := Some(if e.Wake? then Waking else if e.Stop? && e.runnable then Returning else Asleep))
    ensures e.pid == p ==> if e.Spawn? then ViewOf(s, p).phase.None? && ViewOf(s, p).out == 0
                           else ViewOf(s, p).phase.Some? && ViewOf(s, p).phase != Some(Custody)
  {}

  lemma PhaseEffect(c: Config, s: Proto, e: Event, p: S32) returns (eff: Effect)
    requires Enabled(c, s.w, e) && Known(c, s.w) && (e.Spawn? || e.Wake? || e.Stop?)
    requires e.Spawn? && e.pid == p ==> Out(s)[p] == 0
    ensures Changes(ViewOf(s, p), ViewOf(After(c, s, e), p), eff)
    ensures eff.Same? || eff.Born? || eff.Phased?
  {
    PhaseView(c, s, e, p);
    if e.pid != p { return Same; }
    if e.Spawn? { return Born; }
    return Phased(ViewOf(After(c, s, e), p).phase.value);
  }

  lemma ExitEffect(c: Config, s: Proto, e: Event, p: S32) returns (eff: Effect)
    requires Enabled(c, s.w, e) && e.Exit?
    ensures Changes(ViewOf(s, p), ViewOf(After(c, s, e), p), eff)
    ensures eff == if e.pid == p then Gone else Same
  {
    assert After(c, s, e).w.k.board == s.w.k.board && Out(After(c, s, e)) == Out(s);
    if e.pid == p { return Gone; }
    return Same;
  }

  /** Events that concern no queue of p. */
  lemma PlainEffect(c: Config, s: Proto, e: Event, p: S32) returns (eff: Effect)
    requires Known(c, s.w) && Enabled(c, s.w, e) && p != c.usersched
    requires !(e.Enqueue? || e.Select? || e.Drain? || e.Run? || e.Requeue?)
    requires e.Spawn? && e.pid == p ==> Out(s)[p] == 0
    requires !e.UserTake? && !e.UserPush?
    ensures Changes(ViewOf(s, p), ViewOf(After(c, s, e), p), eff)
    ensures eff.Same? || eff.Born? || eff.Phased? || eff.Gone?
  {
    eff := Same;
    match e
    case Fire => FireEffect(c, s, p);
    case Move(_, _) => MoveEffect(c, s, e, p);
    case Exit(_) => eff := ExitEffect(c, s, e, p);
    case Tick(_) => IdleEffect(c, s, e, p);
    case Nudge => IdleEffect(c, s, e, p);
    case StopUser(_) => IdleEffect(c, s, e, p);
    case _ => eff := PhaseEffect(c, s, e, p);
  }

  /** Every event changes the task's view in one of the listed ways. */
  lemma EventEffect(c: Config, s: Proto, e: Event, p: S32) returns (eff: Effect)
    requires ConfigOk(c) && Inv(c, p, s) && CanStep(c, p, s, Backend(e)) && p != c.usersched
    ensures Changes(ViewOf(s, p), ViewOf(After(c, s, e), p), eff)
    ensures Begins(eff) <==> BeginsEpisode(c, s, Backend(e), p)
    ensures (eff.Answered? ==> e.Drain?) && (eff.Started? ==> e.Run?) && (eff.Requeued? ==> e.Requeue?)
  {
    if e.Enqueue? {
      eff := EnqueueEffect(c, s, e, p);
    } else if e.Select? {
      eff := SelectEffect(c, s, e, p);
    } else if e.Drain? {
      eff := DrainEffect(c, s, p);
    } else if e.Run? {
      eff := RunEffect(c, s, e, p);
    } else if e.Requeue? {
      eff := RequeueEffect(c, s, e, p);
    } else {
      eff := PlainEffect(c, s, e, p);
    }
  }

  lemma EventView(c: Config, s: Proto, e: Event, p: S32)
    requires ConfigOk(c) && Inv(c, p, s) && CanStep(c, p, s, Backend(e)) && p != c.usersched
    ensures ViewOk(ViewOf(After(c, s, e), p))
  {
    var eff := EventEffect(c, s, e, p);
    ChangeKeepsView(ViewOf(s, p), ViewOf(After(c, s, e), p), eff);
  }

  /** Only user space adds answers. */
  lemma EventAnswers(c: Config, s: Proto, e: Event, p: S32)
    requires AnswersOk(c, p, s) && Enabled(c, s.w, e) && !e.UserTake? && !e.UserPush?
    ensures AnswersOk(c, p, After(c, s, e))
  {
    if e.Enqueue? {
      FollowSent(c, s.w.k, e.pid, e.flags, e.ch, EnqueueRoute(c, s.w.k, e.pid, e.ch));
    } else if e.Drain? {
      DispatchCounts(c, s.w.k.(sent := s.w.k.sent[1..]), s.w.k.sent[0]);
    } else {
      SentAlone(c, s.w, e);
    }
  }

  lemma SentAlone(c: Config, w: World, e: Event)
    requires Enabled(c, w, e) && !e.Enqueue? && !e.Drain? && !e.UserPush?
    ensures Apply(c, w, e).k.sent == w.k.sent
  {}

  lemma InvStep(c: Config, p: S32, s: Proto, step: Step)
    requires ConfigOk(c) && Inv(c, p, s) && CanStep(c, p, s, step) && p != c.usersched
    ensures Inv(c, p, Next(c, p, s, step))
  {
    if step.Backend? {
      SafeStep(c, s.w, step.e);
      EventAnswers(c, s, step.e, p);
      EventView(c, s, step.e, p);
    } else {
      UserSafe(c, p, s, step);
      UserAnswers(c, p, s, step);
      UserView(c, p, s, step);
    }
  }

  /** State i + 1 of a run comes from state i by step i. */
  ghost predicate ProtoFollows(c: Config, p: S32, ss: seq<Proto>, steps: seq<Step>, i: nat)
    requires i < |steps| && |ss| == |steps| + 1
  {
    CanStep(c, p, ss[i], steps[i]) && ss[i + 1] == Next(c, p, ss[i], steps[i])
  }

  ghost predicate IsProtoRun(c: Config, p: S32, ss: seq<Proto>, steps: seq<Step>) {
    && |ss| == |steps| + 1
    && ss[0] == InitProto(c)
    && forall i :: 0 <= i < |steps| ==> ProtoFollows(c, p, ss, steps, i)
  }

  lemma {:induction false} InvAlways(c: Config, p: S32, ss: seq<Proto>, steps: seq<Step>, n: nat)
    requires ConfigOk(c) && IsProtoRun(c, p, ss, steps) && n < |ss| && p != c.usersched
    ensures Inv(c, p, ss[n])
  {
    if n == 0 {
      assert OnCpus(ss[0].w.phase) == {};
    } else {
      InvAlways(c, p, ss, steps, n - 1);
      assert ProtoFollows(c, p, ss, steps, n - 1);
      InvStep(c, p, ss[n - 1], steps[n - 1]);
    }
  }

  // ---- counting episodes and insertions ----

  /** The step hands task p to the backend: an enqueue, or a select_cpu that keeps the task. */
  predicate BeginsEpisode(c: Config, s: Proto, step: Step, p: S32) {
    && step.Backend?
    && ((step.e.Enqueue? && step.e.pid == p)
        || (step.e.Select? && step.e.pid == p && p in c.attrs && SelectInserts(c, s.w.k, p, step.e.pick)))
  }

  /** Copies of p that a handler of the backend put into the kernel's queues. */
  function InsertedBy(s: Proto, s': Proto, step: Step, p: S32): int {
    if step.Backend? && (step.e.Enqueue? || step.e.Select? || step.e.Drain?)
    then OnBoard(s'.w.k.board)[p] as int - OnBoard(s.w.k.board)[p] as int else 0
  }

  ghost function Episodes(c: Config, ss: seq<Proto>, steps: seq<Step>, p: S32, n: nat): int
    requires n <= |steps| && n <= |ss|
  {
    if n == 0 then 0
    else Episodes(c, ss, steps, p, n - 1) + if BeginsEpisode(c, ss[n - 1], steps[n - 1], p) then 1 else 0
  }

  function Insertions(ss: seq<Proto>, steps: seq<Step>, p: S32, n: nat): int
    requires n <= |steps| && n < |ss|
  {
    if n == 0 then 0
    else Insertions(ss, steps, p, n - 1) + InsertedBy(ss[n - 1], ss[n], steps[n - 1], p)
  }

  /** One step: a handler inserts p exactly when an episode of p begins with p prioritized or on a
      branch that bypasses user space, or when the answer of a pending episode is handled. */
  lemma StepBalance(c: Config, s: Proto, step: Step, p: S32)
    requires ConfigOk(c) && Inv(c, p, s) && CanStep(c, p, s, step) && p != c.usersched
    ensures InsertedBy(s, Next(c, p, s, step), step, p) + Open(ViewOf(Next(c, p, s, step), p))
            == (if BeginsEpisode(c, s, step, p) then 1 else 0) + Open(ViewOf(s, p))
  {
    var s' := Next(c, p, s, step);
    var v, v' := ViewOf(s, p), ViewOf(s', p);
    assert ViewOk(v);
    if step.Backend? {
      var eff := EventEffect(c, s, step.e, p);
      ChangeBalances(v, v', eff);
      HandlerInserts(s, s', step.e, p, eff);
    } else {
      UserView(c, p, s, step);
    }
  }

  lemma HandlerInserts(s: Proto, s': Proto, e: Event, p: S32, eff: Effect)
    requires Changes(ViewOf(s, p), ViewOf(s', p), eff)
    requires Begins(eff) ==> e.Enqueue? || e.Select?
    requires eff.Answered? ==> e.Drain?
    requires eff.Started? ==> e.Run?
    requires eff.Requeued? ==> e.Requeue?
    ensures InsertedBy(s, s', Backend(e), p) == Inserts(ViewOf(s, p), eff)
  {}

  lemma BalanceAt(c: Config, ss: seq<Proto>, steps: seq<Step>, p: S32, n: nat)
    requires ConfigOk(c) && IsProtoRun(c, p, ss, steps) && n < |steps| && p != c.usersched
    ensures InsertedBy(ss[n], ss[n + 1], steps[n], p) + Open(ViewOf(ss[n + 1], p))
            == (if BeginsEpisode(c, ss[n], steps[n], p) then 1 else 0) + Open(ViewOf(ss[n], p))
  {
    InvAlways(c, p, ss, steps, n);
    assert ProtoFollows(c, p, ss, steps, n);
    StepBalance(c, ss[n], steps[n], p);
  }

  lemma NobodyPending(c: Config, p: S32)
    ensures Open(ViewOf(InitProto(c), p)) == 0
  {}

  /** Exactly one insertion per episode, in every run, also when additions to priority_tasks fail for
      lack of room: the episodes begun so far are the insertions made so far, plus the one episode
      that may still be waiting for its answer. */
  lemma {:induction false} OneInsertionPerEpisode(c: Config, ss: seq<Proto>, steps: seq<Step>, p: S32, n: nat)
    requires ConfigOk(c) && IsProtoRun(c, p, ss, steps) && n <= |steps| && p != c.usersched
    ensures Episodes(c, ss, steps, p, n) == Insertions(ss, steps, p, n) + Open(ViewOf(ss[n], p))
  {
    if n == 0 {
      NobodyPending(c, p);
    } else {
      OneInsertionPerEpisode(c, ss, steps, p, n - 1);
      BalanceAt(c, ss, steps, p, n - 1);
    }
  }

  /** No episode ends without its insertion: a task that starts running is not pending, and a pending
      task has exactly one message or answer under way. */
  lemma EpisodesComplete(c: Config, ss: seq<Proto>, steps: seq<Step>, p: S32, n: nat)
    requires ConfigOk(c) && IsProtoRun(c, p, ss, steps) && n <= |steps| && p != c.usersched
    requires p in ss[n].w.phase
    ensures ss[n].w.phase[p] != Custody ==>
              Episodes(c, ss, steps, p, n) == Insertions(ss, steps, p, n)
    ensures Pending(ViewOf(ss[n], p)) ==> Out(ss[n])[p] == 1 && p !in ss[n].w.k.priority
  {
    InvAlways(c, p, ss, steps, n);
    OneInsertionPerEpisode(c, ss, steps, p, n);
    assert ViewOk(ViewOf(ss[n], p));
  }
}
