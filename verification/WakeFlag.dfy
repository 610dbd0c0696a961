/** The wake-up flag of the user-space scheduler under every interleaving of the dispatching CPUs. */
module WakeFlag {
  import opened Words
  import opened Kernel
  import opened DsqOrder
  import Backend

  /** Where a CPU is inside its dispatch handler. Try(0), Try(1), Try(2) are the attempts to take a
      task from its own DSQ, the shared DSQ and the scheduler's DSQ; Try(3) looks for pending work. */
  datatype Pc = Outside | MustInsert | Draining | Try(k: nat) | MustSet

  /** One atomic step: a CPU proceeds (more: its drain of the ring goes on), the timer or a CPU release
      sets the flag, or anything at all happens to the queues and counters elsewhere. */
  datatype Event = Cpu(cpu: S32, more: bool) | SetElsewhere | Elsewhere(k: Kernel, nrScheduled: nat)

  /** The flag word, the shared state, and the position of every CPU. */
  datatype State = State(flag: bv32, k: Kernel, nrScheduled: nat, pcs: map<S32, Pc>)

  function PcOf(s: State, cpu: S32): Pc { if cpu in s.pcs then s.pcs[cpu] else Outside }

  predicate Mine(e: Event, cpu: S32) { e.Cpu? && e.cpu == cpu }

  /** The DSQ of each attempt. */
  function Target(cpu: S32, k: nat): nat {
    if k == 0 then CpuToDsq(cpu) else if k == 1 then SHARED_DSQ else SCHED_DSQ
  }

  predicate Pending(s: State) { s.nrScheduled > 0 || s.k.queued != [] }

  predicate CanStep(c: Config, s: State, e: Event) {
    match e
    case Cpu(cpu, _) => s.k.sent != [] && s.k.sent[0].pid in s.k.tasks ==> s.k.sent[0].pid in c.attrs
    case SetElsewhere => true
    case Elsewhere(k, _) => k.needed == s.k.needed
  }

  /** The program of the handler. Entering it tests and clears the flag. */
  function NextPc(c: Config, s: State, cpu: S32, more: bool): Pc {
    match PcOf(s, cpu)
    case Outside => if s.flag == 1 then MustInsert else Draining
    case MustInsert => Draining
    case Draining => if more && s.k.sent != [] then Draining else Try(0)
    case Try(k) =>
      if k < 3 then (if CanMove(c, s.k, cpu, Target(cpu, k)) then Outside else Try(k + 1))
      else if Pending(s) then MustSet else Outside
    case MustSet => Outside
  }

  function NextK(c: Config, s: State, cpu: S32, more: bool): Kernel
    requires CanStep(c, s, Cpu(cpu, more))
  {
    match PcOf(s, cpu)
    case Outside => s.k.(needed := false)
    case MustInsert => InsertHead(s.k, c.usersched, Custom(SCHED_DSQ))
    case Draining =>
      if more && s.k.sent != [] then DispatchTask(c, s.k.(sent := s.k.sent[1..]), s.k.sent[0]) else s.k
    case Try(k) => if k < 3 then MoveToLocal(c, s.k, cpu, Target(cpu, k)) else s.k
    case MustSet => s.k.(needed := true)
  }

  predicate Tests(s: State, e: Event) { e.Cpu? && PcOf(s, e.cpu).Outside? }

  predicate Sets(s: State, e: Event) { e.SetElsewhere? || (e.Cpu? && PcOf(s, e.cpu).MustSet?) }

  function Next(c: Config, s: State, e: Event): State
    requires CanStep(c, s, e)
  {
    State(
      if Sets(s, e) then s.flag | 1 else if Tests(s, e) then s.flag & 0 else s.flag,
      match e {
        case Cpu(cpu, more) => NextK(c, s, cpu, more)
        case SetElsewhere => s.k.(needed := true)
        case Elsewhere(k, _) => k
      },
      if e.Elsewhere? then e.nrScheduled else s.nrScheduled,
      if e.Cpu? then s.pcs[e.cpu := NextPc(c, s, e.cpu, e.more)] else s.pcs)
  }

  /** State i + 1 of a run comes from state i by event i. */
  ghost predicate Follows(c: Config, ss: seq<State>, es: seq<Event>, i: nat)
    requires i < |es| && |ss| == |es| + 1
  {
    CanStep(c, ss[i], es[i]) && ss[i + 1] == Next(c, ss[i], es[i])
  }

  ghost predicate IsRun(c: Config, ss: seq<State>, es: seq<Event>) {
    && |ss| == |es| + 1
    && ss[0].flag == 0 && !ss[0].k.needed && ss[0].pcs == map[]
    && forall i :: 0 <= i < |es| ==> Follows(c, ss, es, i)
  }

  /** The word is always one bit, and it is what the other modules keep as a boolean. */
  ghost predicate IsBit(s: State) { (s.flag == 0 || s.flag == 1) && (s.k.needed <==> s.flag == 1) }

  lemma HandlerLeavesFlag(c: Config, s: State, cpu: S32, more: bool)
    requires CanStep(c, s, Cpu(cpu, more)) && !PcOf(s, cpu).Outside? && !PcOf(s, cpu).MustSet?
    ensures NextK(c, s, cpu, more).needed == s.k.needed
  {}

  lemma BitStep(c: Config, s: State, e: Event)
    requires IsBit(s) && CanStep(c, s, e)
    ensures IsBit(Next(c, s, e))
  {
    if e.Cpu? && !PcOf(s, e.cpu).Outside? && !PcOf(s, e.cpu).MustSet? { HandlerLeavesFlag(c, s, e.cpu, e.more); }
  }

  lemma {:induction false} FlagIsBit(c: Config, ss: seq<State>, es: seq<Event>, n: nat)
    requires IsRun(c, ss, es) && n <= |es|
    ensures IsBit(ss[n])
  {
    if n > 0 {
      FlagIsBit(c, ss, es, n - 1);
      assert Follows(c, ss, es, n - 1);
      BitStep(c, ss[n - 1], es[n - 1]);
    }
  }

  /** The step tests the flag and finds it set. */
  predicate Commits(s: State, e: Event) { Tests(s, e) && s.flag == 1 }

  lemma FlagStep(c: Config, s: State, e: Event)
    requires CanStep(c, s, e) && IsBit(s)
    ensures Sets(s, e) ==> Next(c, s, e).flag == 1
    ensures !Tests(s, e) && s.flag == 1 ==> Next(c, s, e).flag == 1
  {}

  /** Once set, the flag stays set until some CPU tests it. */
  lemma {:induction false} SetPersists(c: Config, ss: seq<State>, es: seq<Event>, i: nat, n: nat)
    requires IsRun(c, ss, es) && i < n <= |es| && Sets(ss[i], es[i])
    requires forall j :: i < j < n ==> !Tests(ss[j], es[j])
    ensures ss[n].flag == 1
  {
    FlagIsBit(c, ss, es, n - 1);
    assert Follows(c, ss, es, n - 1);
    FlagStep(c, ss[n - 1], es[n - 1]);
    if n > i + 1 { SetPersists(c, ss, es, i, n - 1); }
  }

  /** A CPU waits at its place until its own next step. */
  lemma {:induction false} CpuWaits(c: Config, ss: seq<State>, es: seq<Event>, cpu: S32, a: nat, b: nat)
    requires IsRun(c, ss, es) && a <= b <= |es|
    requires forall j :: a <= j < b ==> !Mine(es[j], cpu)
    ensures PcOf(ss[b], cpu) == PcOf(ss[a], cpu)
  {
    if a < b {
      CpuWaits(c, ss, es, cpu, a, b - 1);
      assert Follows(c, ss, es, b - 1);
    }
  }

  /** No request is lost: after a set at i, the first test at j > i, on whichever CPU, finds the flag
      set, and that CPU's next step, at m, puts the user-space scheduler at the head of its DSQ. */
  lemma RequestServed(c: Config, ss: seq<State>, es: seq<Event>, i: nat, j: nat, m: nat)
    requires IsRun(c, ss, es) && i < j < m < |es|
    requires Sets(ss[i], es[i]) && Tests(ss[j], es[j])
    requires forall k :: i < k < j ==> !Tests(ss[k], es[k])
    requires Mine(es[m], es[j].cpu) && forall k :: j < k < m ==> !Mine(es[k], es[j].cpu)
    ensures Commits(ss[j], es[j])
    ensures ss[m + 1].k.board == [Entry(Custom(SCHED_DSQ), c.usersched, 0, true)] + ss[m].k.board
  {
    SetPersists(c, ss, es, i, j);
    assert Follows(c, ss, es, j);
    CpuWaits(c, ss, es, es[j].cpu, j + 1, m);
    assert Follows(c, ss, es, m);
    assert InsertHead(ss[m].k, c.usersched, Custom(SCHED_DSQ)).board
        == [Entry(Custom(SCHED_DSQ), c.usersched, 0, true)] + ss[m].k.board;
  }

  /** After any set the flag is still set at n unless some CPU has meanwhile committed to queueing the
      scheduler. */
  lemma {:induction false} SetOrCommitted(c: Config, ss: seq<State>, es: seq<Event>, i: nat, n: nat)
    requires IsRun(c, ss, es) && i < n <= |es| && Sets(ss[i], es[i])
    ensures ss[n].flag == 1 || exists j :: i < j < n && Commits(ss[j], es[j])
  {
    FlagIsBit(c, ss, es, n - 1);
    assert Follows(c, ss, es, n - 1);
    FlagStep(c, ss[n - 1], es[n - 1]);
    if n > i + 1 { SetOrCommitted(c, ss, es, i, n - 1); }
  }

  // ---- the order of the attempts ----

  /** No task of DSQ id may run on cpu. */
  ghost predicate NothingFor(c: Config, k: Kernel, cpu: S32, id: nat) {
    forall j :: 0 <= j < |k.board| ==> !Movable(c, k.board[j], cpu, id)
  }

  /** An attempt fails exactly if its DSQ holds nothing the CPU may run. */
  lemma FailsExactly(c: Config, k: Kernel, cpu: S32, id: nat)
    ensures CanMove(c, k, cpu, id) <==> !NothingFor(c, k, cpu, id)
  {
    FirstMovableIsFirst(c, k.board, cpu, id);
    if CanMove(c, k, cpu, id) { assert Movable(c, k.board[FirstMovable(c, k.board, cpu, id)], cpu, id); }
  }

  /** A CPU about to make attempt k + 1 has, as its own previous step, made attempt k, and at that
      moment the DSQ held nothing for it. */
  lemma {:induction false} TriesInOrder(c: Config, ss: seq<State>, es: seq<Event>, cpu: S32, k: nat, n: nat)
    returns (i: nat)
    requires IsRun(c, ss, es) && n <= |es| && k < 3 && PcOf(ss[n], cpu) == Try(k + 1)
    ensures i < n && PcOf(ss[i], cpu) == Try(k) && Mine(es[i], cpu)
    ensures NothingFor(c, ss[i].k, cpu, Target(cpu, k))
    ensures forall j :: i < j < n ==> !Mine(es[j], cpu)
    decreases n
  {
    assert n > 0 && Follows(c, ss, es, n - 1);
    if Mine(es[n - 1], cpu) {
      FailsExactly(c, ss[n - 1].k, cpu, Target(cpu, k));
      return n - 1;
    }
    i := TriesInOrder(c, ss, es, cpu, k, n - 1);
  }

  /** A CPU that takes a task from the scheduler's DSQ has in the same dispatch looked into its own DSQ
      and then the shared one, and found nothing it may run in either. */
  lemma SchedulerIsLast(c: Config, ss: seq<State>, es: seq<Event>, cpu: S32, n: nat) returns (own: nat, shared: nat)
    requires IsRun(c, ss, es) && n < |es| && Mine(es[n], cpu) && PcOf(ss[n], cpu) == Try(2)
    ensures ss[n + 1].k == MoveToLocal(c, ss[n].k, cpu, SCHED_DSQ)
    ensures own < shared < n && Mine(es[own], cpu) && Mine(es[shared], cpu)
    ensures NothingFor(c, ss[own].k, cpu, CpuToDsq(cpu)) && NothingFor(c, ss[shared].k, cpu, SHARED_DSQ)
    ensures forall j :: own < j < n && j != shared ==> !Mine(es[j], cpu)
  {
    assert Follows(c, ss, es, n);
    shared := TriesInOrder(c, ss, es, cpu, 1, n);
    own := TriesInOrder(c, ss, es, cpu, 0, shared);
  }

  /** A dispatch that looks for pending work has found nothing to run in any of the three DSQs; if there
      is pending work, its next step sets the flag, and at any later time the flag is set or some CPU
      has committed to queueing the scheduler. */
  lemma IdleDispatchAsks(c: Config, ss: seq<State>, es: seq<Event>, cpu: S32, n: nat, m: nat, later: nat)
    returns (own: nat, shared: nat, sched: nat)
    requires IsRun(c, ss, es) && n < m < later <= |es|
    requires Mine(es[n], cpu) && PcOf(ss[n], cpu) == Try(3) && Pending(ss[n])
    requires Mine(es[m], cpu) && forall j :: n < j < m ==> !Mine(es[j], cpu)
    ensures own < shared < sched < n
    ensures NothingFor(c, ss[own].k, cpu, CpuToDsq(cpu)) && NothingFor(c, ss[shared].k, cpu, SHARED_DSQ)
    ensures NothingFor(c, ss[sched].k, cpu, SCHED_DSQ)
    ensures ss[m + 1].flag == 1
    ensures ss[later].flag == 1 || exists j :: m < j < later && Commits(ss[j], es[j])
  {
    sched := TriesInOrder(c, ss, es, cpu, 2, n);
    shared := TriesInOrder(c, ss, es, cpu, 1, sched);
    own := TriesInOrder(c, ss, es, cpu, 0, shared);
    assert Follows(c, ss, es, n);
    CpuWaits(c, ss, es, cpu, n + 1, m);
    SetPersists(c, ss, es, m, m + 1);
    SetOrCommitted(c, ss, es, m, later);
  }

  // ---- without interference, the steps add up to the handler ----

  predicate Choosing(pc: Pc) { (pc.Try? && pc.k <= 3) || pc.MustSet? }

  /** The rest of a dispatch that nothing interrupts, from the attempts on. */
  function Choose(c: Config, s: State, cpu: S32): State
    requires Choosing(PcOf(s, cpu)) && CanStep(c, s, Cpu(cpu, false))
    decreases if PcOf(s, cpu).Try? then 4 - PcOf(s, cpu).k else 0
  {
    var s' := Next(c, s, Cpu(cpu, false));
    if PcOf(s', cpu).Outside? then s' else Choose(c, s', cpu)
  }

  lemma {:induction false} ChooseTakesOne(c: Config, s: State, cpu: S32)
    requires PcOf(s, cpu).Try? && PcOf(s, cpu).k <= 3 && CanStep(c, s, Cpu(cpu, false))
    requires forall i :: 0 <= i < PcOf(s, cpu).k ==> !CanMove(c, s.k, cpu, Target(cpu, i))
    ensures var end := Choose(c, s, cpu);
      end.k == Backend.TakeOne(c, s.k, cpu, s.nrScheduled) && end.nrScheduled == s.nrScheduled
      && PcOf(end, cpu).Outside?
    decreases 4 - PcOf(s, cpu).k
  {
    var s' := Next(c, s, Cpu(cpu, false));
    assert !CanMove(c, s.k, cpu, CpuToDsq(cpu)) || PcOf(s, cpu).k == 0 by { assert Target(cpu, 0) == CpuToDsq(cpu); }
    assert !CanMove(c, s.k, cpu, SHARED_DSQ) || PcOf(s, cpu).k <= 1 by { assert Target(cpu, 1) == SHARED_DSQ; }
    assert !CanMove(c, s.k, cpu, SCHED_DSQ) || PcOf(s, cpu).k <= 2 by { assert Target(cpu, 2) == SCHED_DSQ; }
    if PcOf(s', cpu).Try? {
      assert s'.k == s.k;
      ChooseTakesOne(c, s', cpu);
    }
  }

  predicate Typed(c: Config, k: Kernel) { k.tasks.Keys <= c.attrs.Keys }

  /** Handling n messages, step by step. */
  function Consume(c: Config, s: State, cpu: S32, n: nat): State
    requires PcOf(s, cpu).Draining? && n <= |s.k.sent| && Typed(c, s.k)
    decreases n
  {
    if n == 0 then s
    else
      Backend.DispatchKeeps(c, s.k.(sent := s.k.sent[1..]), s.k.sent[0]);
      Consume(c, Next(c, s, Cpu(cpu, true)), cpu, n - 1)
  }

  lemma {:induction false} ConsumeDrains(c: Config, s: State, cpu: S32, n: nat)
    requires PcOf(s, cpu).Draining? && n <= |s.k.sent| && Typed(c, s.k)
    ensures var end := Consume(c, s, cpu, n);
      end == s.(k := Backend.DrainN(c, s.k, n), pcs := end.pcs) && PcOf(end, cpu).Draining? && Typed(c, end.k)
    decreases n
  {
    if n > 0 {
      Backend.DispatchKeeps(c, s.k.(sent := s.k.sent[1..]), s.k.sent[0]);
      ConsumeDrains(c, Next(c, s, Cpu(cpu, true)), cpu, n - 1);
    }
  }

  /** The first steps of a dispatch: test and clear, and the insertion if the flag was set. */
  function Enter(c: Config, s: State, cpu: S32): State
    requires PcOf(s, cpu).Outside? && Typed(c, s.k)
  {
    var s1 := Next(c, s, Cpu(cpu, true));
    if PcOf(s1, cpu).MustInsert? then Next(c, s1, Cpu(cpu, true)) else s1
  }

  lemma EnterFires(c: Config, s: State, cpu: S32)
    requires PcOf(s, cpu).Outside? && Typed(c, s.k) && IsBit(s)
    ensures var s' := Enter(c, s, cpu);
      s'.k == FireScheduler(c, s.k) && s'.nrScheduled == s.nrScheduled
      && PcOf(s', cpu).Draining? && Typed(c, s'.k) && s'.k.sent == s.k.sent
  {}

  /** A dispatch that runs alone and handles n messages does to the shared state exactly what the
      handler does as one step. */
  lemma DispatchAlone(c: Config, s: State, cpu: S32, n: nat)
    requires PcOf(s, cpu).Outside? && Typed(c, s.k) && IsBit(s) && n <= |s.k.sent|
    ensures var s1 := Enter(c, s, cpu);
      PcOf(s1, cpu).Draining? && n <= |s1.k.sent| && Typed(c, s1.k)
      && var s2 := Consume(c, s1, cpu, n);
         CanStep(c, s2, Cpu(cpu, false))
         && var s3 := Next(c, s2, Cpu(cpu, false));
            PcOf(s3, cpu) == Try(0) && CanStep(c, s3, Cpu(cpu, false))
            && Choose(c, s3, cpu).k
               == Backend.TakeOne(c, Backend.DrainN(c, FireScheduler(c, s.k), n), cpu, s.nrScheduled)
  {
    EnterFires(c, s, cpu);
    var s1 := Enter(c, s, cpu);
    ConsumeDrains(c, s1, cpu, n);
    var s3 := Next(c, Consume(c, s1, cpu, n), Cpu(cpu, false));
    ChooseTakesOne(c, s3, cpu);
  }
}
