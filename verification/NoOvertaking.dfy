/** Once the global vruntime has moved 5ms past a pooled deadline, nothing overtakes that task. */
module NoOvertaking {
  import opened Words
  import opened TaskPool
  import opened Vruntime

  /** One step of the user-space loop: take in a message, or serve the head of the pool. */
  datatype Op = Drain(t: QueuedTask) | Serve

  datatype State = State(minVruntime: nat, pool: seq<Task>)

  function Step(s: State, op: Op): State
    requires op.Drain? ==> WellFormed(op.t)
  {
    match op
    case Drain(t) => var m := Advance(s.minVruntime, t); State(m, Insert(s.pool, Entry(m, t)))
    case Serve => if s.pool == [] then s else s.(pool := s.pool[1..])
  }

  predicate Legal(ops: seq<Op>) {
    forall i :: 0 <= i < |ops| && ops[i].Drain? ==> WellFormed(ops[i].t)
  }

  function Run(s: State, ops: seq<Op>): State
    requires Legal(ops)
    decreases |ops|
  {
    if ops == [] then s else Run(Step(s, ops[0]), ops[1..])
  }

  /** What the serve steps of a run hand out, in order. */
  function Served(s: State, ops: seq<Op>): seq<QueuedTask>
    requires Legal(ops)
    decreases |ops|
  {
    if ops == [] then []
    else
      var now := if ops[0].Serve? && s.pool != [] then [s.pool[0].queued] else [];
      now + Served(Step(s, ops[0]), ops[1..])
  }

  function Serves(ops: seq<Op>): nat {
    if ops == [] then 0 else (if ops[0].Serve? then 1 else 0) + Serves(ops[1..])
  }

  /** The task at position i can no longer be passed: its deadline lies more than 5ms back. */
  ghost predicate Settled(s: State, i: nat) {
    Sorted(s.pool) && i < |s.pool| && s.pool[i].deadline + 5_000_000 < s.minVruntime
  }

  /** A drained message goes behind a settled task, which stays settled where it is. */
  lemma DrainKeepsPosition(s: State, t: QueuedTask, i: nat)
    requires Settled(s, i) && WellFormed(t)
    ensures Settled(Step(s, Drain(t)), i) && Step(s, Drain(t)).pool[i] == s.pool[i]
  {
    var m := Advance(s.minVruntime, t);
    PolicyBounds(s.minVruntime, t);
    InsertionPoint(s.pool, Entry(m, t));
    assert !Less(Entry(m, t), s.pool[i]);
    InsertKeepsOrder(s.pool, Entry(m, t));
  }

  /** In any interleaving of drains and serves a settled task moves up by exactly one place per serve
      until it is served. */
  lemma {:induction false} NobodyOvertakes(s: State, ops: seq<Op>, i: nat)
    requires Settled(s, i) && Legal(ops) && Serves(ops) <= i
    ensures var end := Run(s, ops).pool;
      i - Serves(ops) < |end| && end[i - Serves(ops)] == s.pool[i]
    decreases |ops|
  {
    if ops == [] {
    } else if ops[0].Drain? {
      DrainKeepsPosition(s, ops[0].t, i);
      NobodyOvertakes(Step(s, ops[0]), ops[1..], i);
    } else {
      NobodyOvertakes(Step(s, Serve), ops[1..], i - 1);
    }
  }

  /** And it is handed out by exactly the (i+1)st serve. */
  lemma {:induction false} ServedInTurn(s: State, ops: seq<Op>, i: nat)
    requires Settled(s, i) && Legal(ops) && Serves(ops) > i
    ensures i < |Served(s, ops)| && Served(s, ops)[i] == s.pool[i].queued
    decreases |ops|
  {
    if ops[0].Drain? {
      DrainKeepsPosition(s, ops[0].t, i);
      ServedInTurn(Step(s, ops[0]), ops[1..], i);
    } else if i > 0 {
      ServedInTurn(Step(s, Serve), ops[1..], i - 1);
    }
  }

  /** Draining t puts its entry in front of the task at position i. */
  ghost predicate Passes(s: State, t: QueuedTask, i: nat) {
    WellFormed(t) && t.pid > 0 && FirstGreater(s.pool, Entry(Advance(s.minVruntime, t), t)) <= i
  }

  /** That is: the task moves back by one place, and otherwise stays where it is. */
  lemma PassesMoves(s: State, t: QueuedTask, i: nat)
    requires i < |s.pool| && WellFormed(t) && t.pid > 0
    ensures var next := Step(s, Drain(t)).pool;
      |next| == |s.pool| + 1 && next[if Passes(s, t, i) then i + 1 else i] == s.pool[i]
  {}

  /** The deadline lies above the least one a message can get; on a tie, the timestamp or the pid
      decides. */
  predicate Passable(s: State, i: nat)
    requires i < |s.pool|
  {
    var least, e := if s.minVruntime > 5_000_000 then s.minVruntime - 5_000_000 else 1, s.pool[i];
    least < e.deadline || (least == e.deadline && (e.timestamp > 0 || e.queued.pid > 1))
  }

  /** A message that gets the least possible key. */
  function Keenest(): QueuedTask { QueuedTask(1, 0, 1, 0, 0, 0, 0, 100, 1, 1) }

  lemma KeenestKey(s: State)
    ensures WellFormed(Keenest())
    ensures var e := Entry(Advance(s.minVruntime, Keenest()), Keenest());
      e.deadline == Max(1, Floor(s.minVruntime)) && e.timestamp == 0 && e.queued.pid == 1
  {}

  lemma EntryAtLeast(s: State, t: QueuedTask)
    requires WellFormed(t)
    ensures var e := Entry(Advance(s.minVruntime, t), t);
      e.deadline >= Max(1, Floor(s.minVruntime)) && e.timestamp == 0 && e.queued.pid == t.pid
  {
    PolicyBounds(s.minVruntime, t);
  }

  /** The exact threshold: some message can pass the task at position i if and only if the task is
      passable, and a settled task is not. */
  lemma PassedExactly(s: State, i: nat)
    requires Sorted(s.pool) && i < |s.pool|
    ensures (exists t :: Passes(s, t, i)) <==> Passable(s, i)
    ensures Settled(s, i) ==> !Passable(s, i)
  {
    forall t | Passes(s, t, i) ensures Passable(s, i) {
      EntryAtLeast(s, t);
      InsertionPoint(s.pool, Entry(Advance(s.minVruntime, t), t));
    }
    if Passable(s, i) {
      KeenestKey(s);
      InsertionPoint(s.pool, Entry(Advance(s.minVruntime, Keenest()), Keenest()));
      assert Passes(s, Keenest(), i);
    }
  }
}
