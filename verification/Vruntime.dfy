/** The vruntime arithmetic of main.go: exact values, their bounds, and when 64 bits are enough. */
module Vruntime {
  import opened Words
  import opened TaskPool

  const SLICE_NS_DEFAULT := 5_000_000
  const SLICE_NS_MIN := 500_000

  /** The most that past run time can push a deadline beyond the vruntime. */
  const MAX_LAG := SLICE_NS_DEFAULT * 100

  const MAX_WEIGHT := 10_000

  function SaturatingSub(a: nat, b: nat): nat { if a > b then a - b else 0 }

  /** What one incoming message does to the global vruntime. */
  function Advance(minVruntime: nat, t: QueuedTask): nat { Max(minVruntime, t.vtime) }

  /** The vruntime no task may lag behind. */
  function Floor(minVruntime: nat): nat { SaturatingSub(minVruntime, SLICE_NS_DEFAULT) }

  /** A new task (vtime 0) starts a little after the floor; a task that slept is raised to it. */
  function Base(m: nat, t: QueuedTask): nat
    requires t.weight > 0
  {
    if t.vtime == 0 then Floor(m) + MAX_LAG / t.weight else Max(t.vtime, Floor(m))
  }

  function Usage(t: QueuedTask): nat
    requires t.startTs <= t.stopTs
  {
    (t.stopTs - t.startTs) * t.weight
  }

  function VtimeOut(m: nat, t: QueuedTask): nat
    requires t.weight > 0 && t.startTs <= t.stopTs
  {
    Base(m, t) + Usage(t) / 100
  }

  function DeadlineOut(m: nat, t: QueuedTask): nat
    requires t.weight > 0 && t.startTs <= t.stopTs
  {
    VtimeOut(m, t) + Min(t.sumExecRuntime, MAX_LAG)
  }

  /** A message the policy can handle: a kernel weight, ordered timestamps. */
  predicate WellFormed(t: QueuedTask) {
    0 < t.weight <= MAX_WEIGHT && t.startTs <= t.stopTs
  }

  /** Every intermediate value of the computation fits in 64 bits. */
  predicate Fits(m: nat, t: QueuedTask)
    requires WellFormed(t)
  {
    Usage(t) < U64 && DeadlineOut(m, t) < U64
  }

  /** The pool entry made from a message once the global vruntime has become m. */
  function Entry(m: nat, t: QueuedTask): Task
    requires WellFormed(t)
  {
    Task(t.(vtime := VtimeOut(m, t)), DeadlineOut(m, t), 0)
  }

  /** Two-sided bounds on the vruntime and deadline that leave the policy; in particular a
      vtime of zero, which the backend reads as "prioritized", is never produced. */
  lemma PolicyBounds(minVruntime: nat, t: QueuedTask)
    requires WellFormed(t)
    ensures var m, e := Advance(minVruntime, t), Entry(Advance(minVruntime, t), t);
            && m >= minVruntime
            && e.queued.vtime > 0
            && e.queued.vtime >= t.vtime
            && SaturatingSub(m, SLICE_NS_DEFAULT) <= e.queued.vtime <= e.deadline
            && e.deadline <= m + MAX_LAG / t.weight + Usage(t) / 100 + MAX_LAG
            && e.deadline - e.queued.vtime <= MAX_LAG
  {
    QuotientAtLeast(MAX_LAG, t.weight, 1);
  }

  /** The exact answer, in numbers. The global vruntime m becomes the larger of its value and the incoming
      one. A task at most 5ms behind it keeps its vruntime, one further back is raised to 5ms behind, and
      a new one (vtime 0) starts there plus 500ms divided by its weight; then it is charged for its last
      run. The deadline adds the run time since the last sleep, at most 500ms of it. */
  lemma ExactAnswer(minVruntime: nat, t: QueuedTask)
    requires WellFormed(t)
    ensures var m := if t.vtime > minVruntime then t.vtime else minVruntime;
      var e, charge := Entry(Advance(minVruntime, t), t), (t.stopTs - t.startTs) * t.weight / 100;
      && Advance(minVruntime, t) == m
      && (t.vtime > 0 && t.vtime + 5_000_000 >= m ==> e.queued.vtime == t.vtime + charge)
      && (t.vtime > 0 && t.vtime + 5_000_000 < m ==> e.queued.vtime == m - 5_000_000 + charge)
      && (t.vtime == 0 ==>
            e.queued.vtime == (if m > 5_000_000 then m - 5_000_000 else 0) + 500_000_000 / t.weight + charge)
      && e.deadline == e.queued.vtime + (if t.sumExecRuntime < 500_000_000 then t.sumExecRuntime else 500_000_000)
      && e.timestamp == 0 && e.queued == t.(vtime := e.queued.vtime)
  {}

  /** The machine computes exactly that whenever charge and deadline stay below 2^64. */
  lemma MachineAnswer(minVruntime: nat, t: QueuedTask)
    requires WellFormed(t) && IsU64(minVruntime) && IsU64(t.vtime) && IsU64(t.stopTs)
    ensures var m := Advance(minVruntime, t);
      (t.stopTs - t.startTs) * t.weight < U64 && Entry(m, t).deadline < U64 <==> WrappedEntry(m, t) == Entry(m, t)
  {
    WrapExact(Advance(minVruntime, t), t);
  }

  /** Reducing the usage modulo 2^64 before dividing loses nothing only when nothing was reduced. */
  lemma WrappedCharge(p: nat)
    ensures (p % U64) / 100 <= p / 100
    ensures p < U64 <==> (p % U64) / 100 == p / 100
  {
    if p >= U64 {
      assert p % U64 <= p - U64;
    }
  }

  /** The weight is a divisor only for a new task. */
  predicate Chargeable(t: QueuedTask) { t.vtime == 0 ==> t.weight > 0 }

  /** The same entry with every operation reduced to 64 bits, as the machine computes it. */
  function WrappedEntry(m: nat, t: QueuedTask): Task
    requires Chargeable(t)
  {
    var base := if t.vtime == 0 then (Floor(m) + MAX_LAG / t.weight) % U64 else Max(t.vtime, Floor(m));
    var charge := ((t.stopTs - t.startTs) % U64 * t.weight % U64) / 100;
    var vtime := (base + charge) % U64;
    Task(t.(vtime := vtime), (vtime + Min(t.sumExecRuntime, MAX_LAG)) % U64, 0)
  }

  lemma WrapChain(base: nat, p: nat, lag: nat)
    ensures var v := WrapSum(base, p);
      (v == base + p / 100 && (v + lag) % U64 == base + p / 100 + lag)
      <==> (p < U64 && base + p / 100 + lag < U64)
  {
    WrappedCharge(p);
    var c, x := (p % U64) / 100, base + p / 100;
    ModBound(base);
    ModBound(base % U64 + c);
    ModBound(x + lag);
  }

  lemma ModBound(x: nat)
    ensures x % U64 < U64 && x % U64 <= x
    ensures x < U64 ==> x % U64 == x
  {}

  /** The wrapped vruntime made from an exact base and an exact usage. */
  function WrapSum(base: nat, p: nat): nat { (base % U64 + (p % U64) / 100) % U64 }

  lemma WrappedParts(m: nat, t: QueuedTask)
    requires WellFormed(t) && IsU64(m) && IsU64(t.vtime) && IsU64(t.stopTs)
    ensures var v := WrapSum(Base(m, t), Usage(t));
      WrappedEntry(m, t) == Task(t.(vtime := v), (v + Min(t.sumExecRuntime, MAX_LAG)) % U64, 0)
  {
    ModBound(t.stopTs - t.startTs);
    ModBound(Base(m, t));
  }

  /** Machine arithmetic gives the exact entry if and only if every intermediate value fits. */
  lemma WrapExact(m: nat, t: QueuedTask)
    requires WellFormed(t) && IsU64(m) && IsU64(t.vtime) && IsU64(t.stopTs)
    ensures WrappedEntry(m, t) == Entry(m, t) <==> Fits(m, t)
  {
    WrappedParts(m, t);
    WrapChain(Base(m, t), Usage(t), Min(t.sumExecRuntime, MAX_LAG));
  }

  /** The global vruntime after a sequence of messages. */
  function AdvanceAll(m: nat, ts: seq<QueuedTask>): nat
    decreases |ts|
  {
    if ts == [] then m else AdvanceAll(Advance(m, ts[0]), ts[1..])
  }

  /** It is the maximum of the start value and all incoming vtimes. */
  lemma {:induction false} AdvanceAllIsMax(m: nat, ts: seq<QueuedTask>)
    ensures AdvanceAll(m, ts) >= m
    ensures forall t :: t in ts ==> AdvanceAll(m, ts) >= t.vtime
    ensures AdvanceAll(m, ts) == m || exists t :: t in ts && AdvanceAll(m, ts) == t.vtime
    decreases |ts|
  {
    if ts != [] {
      AdvanceAllIsMax(Advance(m, ts[0]), ts[1..]);
      assert ts == [ts[0]] + ts[1..];
    }
  }

  /** Hence the order in which messages arrive does not matter. */
  lemma AdvanceAllOrderFree(m: nat, ts: seq<QueuedTask>, us: seq<QueuedTask>)
    requires multiset(ts) == multiset(us)
    ensures AdvanceAll(m, ts) == AdvanceAll(m, us)
  {
    AdvanceAllIsMax(m, ts);
    AdvanceAllIsMax(m, us);
    forall t | t in ts ensures t in us { assert t in multiset(ts); }
    forall t | t in us ensures t in ts { assert t in multiset(us); }
  }

  /** Time slice granted when nrWaiting tasks (this one included) share the CPU. */
  function Slice(nrWaiting: nat): nat
    requires nrWaiting > 0
  {
    Max(SLICE_NS_DEFAULT / nrWaiting, SLICE_NS_MIN)
  }

  /** The slice is between 0.5ms and 5ms and never grows when more tasks wait. */
  lemma SliceBounds(a: nat, b: nat)
    requires 0 < a <= b
    ensures SLICE_NS_MIN <= Slice(b) <= Slice(a) <= SLICE_NS_DEFAULT
  {
    QuotientAntitone(SLICE_NS_DEFAULT, a, b);
    QuotientAntitone(SLICE_NS_DEFAULT, 1, a);
  }

  /** The slice in numbers: an equal share of 5ms among up to ten tasks, and 0.5ms from ten on. */
  lemma SliceExactly(n: nat)
    requires n > 0
    ensures n <= 10 ==> Slice(n) * n <= 5_000_000 < (Slice(n) + 1) * n
    ensures n >= 10 ==> Slice(n) == 500_000
  {
    if n >= 10 {
      QuotientAntitone(SLICE_NS_DEFAULT, 10, n);
    } else {
      QuotientAntitone(SLICE_NS_DEFAULT, n, 10);
    }
  }

  lemma QuotientAntitone(x: nat, a: nat, b: nat)
    requires 0 < a <= b
    ensures x / b <= x / a
  {
    MulMonotone(x / b, a, b);
    QuotientAtLeast(x, a, x / b);
  }

  lemma QuotientAtLeast(x: nat, a: nat, q: nat)
    requires 0 < a && q * a <= x
    ensures q <= x / a
  {
    if x / a < q {
      MulMonotone(a, x / a + 1, q);
      assert false;
    }
  }

  lemma MulMonotone(k: nat, a: nat, b: nat)
    requires a <= b
    ensures k * a <= k * b
  {}
}
