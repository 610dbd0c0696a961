/** Idle CPU selection: the cascade of pick_idle_cpu against a best-rank specification. */
module IdlePick {
  import opened Words

  /** What the search knows about the task and its previous CPU. Absent optional masks are the null
      pointers of the backend. */
  datatype Query = Query(
    prev: S32, allowed: set<S32>, migrationDisabled: bool, smtEnabled: bool, nrCpuIds: nat,
    hasTaskCtx: bool, hasCpuCtx: bool, hasL2Scratch: bool, hasL3Scratch: bool,
    l2Domain: Option<set<S32>>, l3Domain: Option<set<S32>>)

  ghost predicate WellFormed(q: Query, idle: set<S32>) {
    && q.nrCpuIds <= S32_MAX
    && (forall c :: c in q.allowed || c in idle ==> 0 <= c < q.nrCpuIds)
  }

  predicate SingleCpu(q: Query) { |q.allowed| == 1 || q.migrationDisabled }

  /** The cases in which the multi-CPU search gives up with -ENOENT before looking at any CPU. */
  predicate LookupFails(q: Query) {
    || !q.hasTaskCtx
    || !q.hasCpuCtx
    || (|q.allowed| != q.nrCpuIds && (!q.hasL2Scratch || !q.hasL3Scratch))
  }

  /** CPUs of the task that share the given cache with the previous CPU; all of them if unknown. */
  function Near(q: Query, domain: Option<set<S32>>): set<S32> {
    if domain.Some? then q.allowed * domain.value else q.allowed
  }

  /** The members of a pool of CPUs by closeness: prev itself, same L2, same L3, any allowed. */
  function Group(q: Query, pool: set<S32>, k: nat): set<S32> {
    match k
    case 0 => {q.prev} * pool
    case 1 => Near(q, q.l2Domain) * pool
    case 2 => Near(q, q.l3Domain) * pool
    case _ => q.allowed * pool
  }

  /** The candidates of each rank, best first: on SMT systems the CPUs of fully idle cores by
      closeness, then the CPUs that are merely idle by closeness. */
  function Tier(q: Query, idle: set<S32>, full: set<S32>, rank: nat): set<S32> {
    if rank < 4 then (if q.smtEnabled then Group(q, full, rank) else {})
    else Group(q, idle, rank - 4)
  }

  /** The rank of CPU c: the first tier from r on that it belongs to, or 8. */
  function RankFrom(q: Query, idle: set<S32>, full: set<S32>, c: S32, r: nat): nat
    decreases 8 - r
  {
    if r >= 8 then 8 else if c in Tier(q, idle, full, r) then r else RankFrom(q, idle, full, c, r + 1)
  }

  function Rank(q: Query, idle: set<S32>, full: set<S32>, c: S32): nat { RankFrom(q, idle, full, c, 0) }

  /** c is an idle CPU of least rank. */
  ghost predicate Best(q: Query, idle: set<S32>, full: set<S32>, c: S32) {
    && c in idle
    && Rank(q, idle, full, c) < 8
    && forall d :: d in idle ==> Rank(q, idle, full, c) <= Rank(q, idle, full, d)
  }

  /** The specification of the search: its result and the idle set it leaves. */
  ghost predicate Outcome(q: Query, idle: set<S32>, full: set<S32>, cpu: S32, idle': set<S32>) {
    if SingleCpu(q) then
      cpu == (if q.prev in idle then q.prev else -EBUSY) && idle' == idle - {q.prev}
    else if LookupFails(q) then
      cpu == -ENOENT && idle' == idle
    else if idle * (q.allowed + {q.prev}) == {} then
      cpu == -EBUSY && idle' == idle
    else
      Best(q, idle, full, cpu) && idle' == idle - {cpu}
  }

  // ---- the answer in plain sets ----

  /** Tiers better than a best CPU's own are empty. */
  lemma EarlierTiersEmpty(q: Query, idle: set<S32>, full: set<S32>, c: S32)
    requires full <= idle && Best(q, idle, full, c)
    ensures var k := Rank(q, idle, full, c);
      k < 8 && c in Tier(q, idle, full, k) && forall i :: 0 <= i < k ==> Tier(q, idle, full, i) == {}
  {
    var k := Rank(q, idle, full, c);
    RankIsTier(q, idle, full, c, 0);
    forall i | 0 <= i < k ensures Tier(q, idle, full, i) == {} {
      if Tier(q, idle, full, i) != {} {
        BetterRank(q, idle, full, c, i, Member(Tier(q, idle, full, i)));
      }
    }
  }

  lemma BetterRank(q: Query, idle: set<S32>, full: set<S32>, c: S32, i: nat, d: S32)
    requires full <= idle && i < 8 && d in Tier(q, idle, full, i)
    ensures d in idle && Rank(q, idle, full, d) <= i
  {
    RankIsTier(q, idle, full, d, 0);
  }

  /** Looking in a pool of CPUs: prev, then those allowed that share its L2, then its L3, then any
      allowed. An unknown domain is no restriction. */
  ghost predicate ClosestIn(q: Query, pool: set<S32>, c: S32) {
    var l2 := if q.l2Domain.Some? then q.allowed * q.l2Domain.value else q.allowed;
    var l3 := if q.l3Domain.Some? then q.allowed * q.l3Domain.value else q.allowed;
    if q.prev in pool then c == q.prev
    else if l2 * pool != {} then c in l2 * pool
    else if l3 * pool != {} then c in l3 * pool
    else c in q.allowed * pool
  }

  lemma GroupsInOrder(q: Query, pool: set<S32>, c: S32, k: nat)
    requires k < 4 && c in Group(q, pool, k) && forall i :: 0 <= i < k ==> Group(q, pool, i) == {}
    ensures ClosestIn(q, pool, c) && pool * (q.allowed + {q.prev}) != {}
  {
    assert k > 0 ==> Group(q, pool, 0) == {};
    assert k > 1 ==> Group(q, pool, 1) == {};
    assert k > 2 ==> Group(q, pool, 2) == {};
    assert q.prev in pool ==> q.prev in Group(q, pool, 0);
    assert c in pool * (q.allowed + {q.prev});
  }

  lemma NoGroups(q: Query, pool: set<S32>)
    requires forall i :: 0 <= i < 4 ==> Group(q, pool, i) == {}
    ensures pool * (q.allowed + {q.prev}) == {}
  {
    assert Group(q, pool, 0) == {} && Group(q, pool, 3) == {};
  }

  lemma BestIsClosest(q: Query, idle: set<S32>, full: set<S32>, c: S32)
    requires full <= idle && Best(q, idle, full, c)
    ensures if q.smtEnabled && full * (q.allowed + {q.prev}) != {} then ClosestIn(q, full, c) else ClosestIn(q, idle, c)
  {
    EarlierTiersEmpty(q, idle, full, c);
    var k := Rank(q, idle, full, c);
    if k < 4 {
      forall i | 0 <= i < k ensures Group(q, full, i) == {} { assert Tier(q, idle, full, i) == {}; }
      GroupsInOrder(q, full, c, k);
    } else {
      forall i | 0 <= i < k - 4 ensures Group(q, idle, i) == {} { assert Tier(q, idle, full, i + 4) == {}; }
      GroupsInOrder(q, idle, c, k - 4);
      if q.smtEnabled {
        forall i | 0 <= i < 4 ensures Group(q, full, i) == {} { assert Tier(q, idle, full, i) == {}; }
        NoGroups(q, full);
      }
    }
  }

  /** The whole answer of the search. A task bound to one CPU gets prev or nothing. A failed lookup ends
      the search. Otherwise, on an SMT system with a usable fully idle core, the closest CPU of such a
      core; else the closest idle CPU; else -EBUSY. Exactly the returned CPU is claimed. */
  lemma PlainAnswer(q: Query, idle: set<S32>, full: set<S32>, cpu: S32, idle': set<S32>)
    requires full <= idle && Outcome(q, idle, full, cpu, idle')
    ensures var bound := |q.allowed| == 1 || q.migrationDisabled;
      var lost := !q.hasTaskCtx || !q.hasCpuCtx
                  || (|q.allowed| != q.nrCpuIds && (!q.hasL2Scratch || !q.hasL3Scratch));
      var usable := q.allowed + {q.prev};
      if bound && q.prev in idle then cpu == q.prev && idle' == idle - {cpu}
      else if bound then cpu == -16 && idle' == idle
      else if lost then cpu == -2 && idle' == idle
      else if q.smtEnabled && full * usable != {} then ClosestIn(q, full, cpu) && cpu in full && idle' == idle - {cpu}
      else if idle * usable != {} then ClosestIn(q, idle, cpu) && cpu in idle && idle' == idle - {cpu}
      else cpu == -16 && idle' == idle
  {
    if !SingleCpu(q) && !LookupFails(q) {
      if idle * (q.allowed + {q.prev}) != {} {
        BestIsClosest(q, idle, full, cpu);
      } else {
        assert full * (q.allowed + {q.prev}) <= idle * (q.allowed + {q.prev});
      }
    }
  }

  /** prev is idle but not allowed, and the search gets to it before any allowed CPU. */
  predicate TakesForbidden(q: Query, idle: set<S32>, full: set<S32>) {
    && q.prev in idle && q.prev !in q.allowed
    && (SingleCpu(q) || (!LookupFails(q) && (!q.smtEnabled || q.prev in full || q.allowed * full == {})))
  }

  lemma {:induction false} RankIsTier(q: Query, idle: set<S32>, full: set<S32>, c: S32, r: nat)
    requires r <= 8
    ensures var k := RankFrom(q, idle, full, c, r);
      r <= k <= 8 && (k < 8 ==> c in Tier(q, idle, full, k)) && forall i :: r <= i < k ==> c !in Tier(q, idle, full, i)
    decreases 8 - r
  {
    if r < 8 { RankIsTier(q, idle, full, c, r + 1); }
  }

  /** All tiers but those of prev itself hold allowed CPUs only. */
  lemma ForbiddenOnlyPrev(q: Query, idle: set<S32>, full: set<S32>, c: S32, k: nat)
    requires k < 8 && c in Tier(q, idle, full, k) && c !in q.allowed
    ensures c == q.prev && (k == 4 || (k == 0 && q.smtEnabled && q.prev in full))
  {}

  lemma FullNeighbour(q: Query, idle: set<S32>, full: set<S32>, d: S32)
    requires q.smtEnabled && d in q.allowed * full
    ensures Rank(q, idle, full, d) <= 3
  {
    RankIsTier(q, idle, full, d, 0);
    assert d in Tier(q, idle, full, 3);
  }

  /** A best-rank CPU is a forbidden one exactly if that is prev, and no fully idle core goes first. */
  lemma BestForbidden(q: Query, idle: set<S32>, full: set<S32>, c: S32)
    requires full <= idle && Best(q, idle, full, c)
    ensures c !in q.allowed <==>
      q.prev in idle && q.prev !in q.allowed && (!q.smtEnabled || q.prev in full || q.allowed * full == {})
  {
    RankIsTier(q, idle, full, c, 0);
    RankIsTier(q, idle, full, q.prev, 0);
    if c !in q.allowed {
      ForbiddenOnlyPrev(q, idle, full, c, Rank(q, idle, full, c));
      if q.smtEnabled && q.prev !in full && q.allowed * full != {} {
        FullNeighbour(q, idle, full, Member(q.allowed * full));
      }
    } else if q.prev in idle && q.prev !in q.allowed {
      assert q.prev in Tier(q, idle, full, 4);
      assert Rank(q, idle, full, c) <= Rank(q, idle, full, q.prev) <= 4;
    }
  }

  /** The search returns a CPU that the task may not use exactly in that case. */
  lemma ForbiddenExactly(q: Query, idle: set<S32>, full: set<S32>, cpu: S32, idle': set<S32>)
    requires WellFormed(q, idle) && full <= idle && Outcome(q, idle, full, cpu, idle')
    ensures cpu >= 0 && cpu !in q.allowed <==> TakesForbidden(q, idle, full)
    ensures TakesForbidden(q, idle, full) ==> cpu == q.prev
  {
    if !SingleCpu(q) && !LookupFails(q) {
      if idle * (q.allowed + {q.prev}) != {} {
        BestForbidden(q, idle, full, cpu);
        RankIsTier(q, idle, full, cpu, 0);
        if cpu !in q.allowed { ForbiddenOnlyPrev(q, idle, full, cpu, Rank(q, idle, full, cpu)); }
      }
    }
  }

  /** It does happen: a task that may use CPUs 1 and 2, last ran on CPU 0, and all three are idle. */
  lemma ForbiddenHappens(cpu: S32, idle': set<S32>) returns (q: Query, idle: set<S32>)
    ensures WellFormed(q, idle) && TakesForbidden(q, idle, idle) && q.allowed * idle == {1, 2}
    ensures Outcome(q, idle, idle, cpu, idle') ==> cpu == 0 && cpu !in q.allowed
  {
    q := Query(0, {1, 2}, false, true, 3, true, true, true, true, None, None);
    idle := {0, 1, 2};
    assert 1 in q.allowed && 2 in q.allowed;
    assert |q.allowed| == 2;
    if Outcome(q, idle, idle, cpu, idle') { ForbiddenExactly(q, idle, idle, cpu, idle'); }
  }

  lemma {:induction false} RankSkips(q: Query, idle: set<S32>, full: set<S32>, c: S32, r: nat, k: nat)
    requires r <= k < 8 && forall i :: r <= i < k ==> Tier(q, idle, full, i) == {}
    ensures RankFrom(q, idle, full, c, r) == RankFrom(q, idle, full, c, k)
    decreases k - r
  {
    if r < k { RankSkips(q, idle, full, c, r + 1, k); }
  }

  lemma {:induction false} RankAtLeast(q: Query, idle: set<S32>, full: set<S32>, c: S32, r: nat)
    requires r <= 8
    ensures r <= RankFrom(q, idle, full, c, r) <= 8
    decreases 8 - r
  {
    if r < 8 { RankAtLeast(q, idle, full, c, r + 1); }
  }

  /** Finding nothing in earlier tiers makes any member of this tier a best choice. */
  lemma FirstTierIsBest(q: Query, idle: set<S32>, full: set<S32>, rank: nat, c: S32)
    requires full <= idle && rank < 8 && c in Tier(q, idle, full, rank)
    requires forall r :: 0 <= r < rank ==> Tier(q, idle, full, r) == {}
    ensures Best(q, idle, full, c) && c in idle * (q.allowed + {q.prev})
  {
    RankSkips(q, idle, full, c, 0, rank);
    forall d | d in idle ensures rank <= Rank(q, idle, full, d) {
      RankSkips(q, idle, full, d, 0, rank);
      RankAtLeast(q, idle, full, d, rank);
    }
  }

  ghost function Range(n: nat): (s: set<S32>)
    requires n <= S32_MAX
    ensures forall c :: c in s <==> 0 <= c < n
  {
    if n == 0 then {} else Range(n - 1) + {n - 1}
  }

  lemma {:induction false} RangeSize(n: nat)
    requires n <= S32_MAX
    ensures |Range(n)| == n
  {
    if n > 0 {
      RangeSize(n - 1);
    }
  }

  lemma {:induction false} FullSubset(a: set<S32>, b: set<S32>)
    requires a <= b && |a| == |b|
    ensures a == b
    decreases a
  {
    if a != {} {
      var x := Member(a);
      FullSubset(a - {x}, b - {x});
    }
  }

  /** A task allowed on as many CPUs as exist is allowed on every idle one, so its cache masks need
      no intersection with its affinity. */
  lemma AllowedEverywhere(q: Query, idle: set<S32>)
    requires WellFormed(q, idle) && |q.allowed| == q.nrCpuIds
    ensures idle <= q.allowed
  {
    RangeSize(q.nrCpuIds);
    FullSubset(q.allowed, Range(q.nrCpuIds));
  }

  /** An empty intersection becomes a null mask. */
  function Intersection(a: set<S32>, b: set<S32>): (r: Option<set<S32>>)
    ensures forall c :: c in a && c in b <==> r.Some? && c in r.value
  {
    if a * b == {} then
      assert forall c :: c in a && c in b ==> c in a * b;
      None
    else Some(a * b)
  }

  class IdleCpus {
    /** CPUs currently marked idle. */
    var idle: set<S32>
    /** The hardware threads of each CPU's core, itself included. */
    const siblings: S32 -> set<S32>

    constructor (idle: set<S32>, siblings: S32 -> set<S32>)
      ensures this.idle == idle && this.siblings == siblings
    {
      this.idle := idle;
      this.siblings := siblings;
    }

    /** Idle CPUs whose whole core is idle. */
    function FullIdle(): (f: set<S32>)
      reads this
      ensures f <= idle
      ensures forall c :: c in f <==> c in idle && forall t :: t in siblings(c) ==> t in idle
    {
      set c | c in idle && siblings(c) <= idle
    }

    method TestAndClearCpuIdle(cpu: S32) returns (was: bool)
      modifies this
      ensures was <==> cpu in old(idle)
      ensures idle == old(idle) - {cpu}
    {
      was := cpu in idle;
      idle := idle - {cpu};
    }

    /** Claim some idle CPU of the mask, from a fully idle core if asked to. */
    method PickIdle(mask: set<S32>, core: bool) returns (cpu: S32)
      modifies this
      ensures var found := mask * (if core then old(FullIdle()) else old(idle));
        if found == {} then cpu == -EBUSY && idle == old(idle)
        else cpu in found && idle == old(idle) - {cpu}
    {
      var found := mask * (if core then FullIdle() else idle);
      if found == {} {
        return -EBUSY;
      }
      cpu := Choose(found);
      idle := idle - {cpu};
    }

    /** One half of the cascade: prev, same L2, same L3, any allowed CPU, from the fully idle cores or
        from all idle CPUs. The ghost result says which group served; 4 means none had a member. */
    method SearchGroups(q: Query, l2Mask: Option<set<S32>>, l3Mask: Option<set<S32>>, core: bool)
      returns (cpu: S32, ghost k: nat)
      requires WellFormed(q, idle)
      requires MaskFor(l2Mask, Near(q, q.l2Domain), idle) && MaskFor(l3Mask, Near(q, q.l3Domain), idle)
      modifies this
      ensures k <= 4
      ensures var pool := if core then old(FullIdle()) else old(idle);
        && (forall i :: 0 <= i < k ==> Group(q, pool, i) == {})
        && (if k < 4 then cpu >= 0 && cpu in Group(q, pool, k) && idle == old(idle) - {cpu}
            else cpu < 0 && idle == old(idle))
    {
      if !core || q.prev in FullIdle() {
        var was := TestAndClearCpuIdle(q.prev);
        if was {
          return q.prev, 0;
        }
      }
      ghost var pool := if core then FullIdle() else idle;
      assert Group(q, pool, 0) == {};
      if l2Mask.Some? {
        cpu := PickIdle(l2Mask.value, core);
        if cpu >= 0 {
          return cpu, 1;
        }
      }
      assert Group(q, pool, 1) == {};
      if l3Mask.Some? {
        cpu := PickIdle(l3Mask.value, core);
        if cpu >= 0 {
          return cpu, 2;
        }
      }
      assert Group(q, pool, 2) == {};
      cpu := PickIdle(q.allowed, core);
      return cpu, if cpu >= 0 then 3 else 4;
    }

    /** The cache masks of the multi-CPU search; a null mask stands for an empty intersection. */
    method CacheMasks(q: Query) returns (ok: bool, l2Mask: Option<set<S32>>, l3Mask: Option<set<S32>>)
      requires WellFormed(q, idle)
      ensures ok <==> !LookupFails(q)
      ensures ok ==> MaskFor(l2Mask, Near(q, q.l2Domain), idle) && MaskFor(l3Mask, Near(q, q.l3Domain), idle)
    {
      if !q.hasTaskCtx || !q.hasCpuCtx {
        return false, None, None;
      }
      var l2 := if q.l2Domain.Some? then q.l2Domain.value else q.allowed;
      var l3 := if q.l3Domain.Some? then q.l3Domain.value else q.allowed;
      if |q.allowed| == q.nrCpuIds {
        AllowedEverywhere(q, idle);
        return true, Some(l2), Some(l3);
      }
      if !q.hasL2Scratch {
        return false, None, None;
      }
      l2Mask := Intersection(q.allowed, l2);
      if !q.hasL3Scratch {
        return false, None, None;
      }
      l3Mask := Intersection(q.allowed, l3);
      return true, l2Mask, l3Mask;
    }

    /** The search of the backend. Its result is a best-rank idle CPU, exactly that CPU is claimed,
        and it reports -EBUSY only if neither prev nor any allowed CPU is idle. */
    method PickIdleCpu(q: Query) returns (cpu: S32)
      requires WellFormed(q, idle)
      modifies this
      ensures Outcome(q, old(idle), old(FullIdle()), cpu, idle)
    {
      if SingleCpu(q) {
        var was := TestAndClearCpuIdle(q.prev);
        return if was then q.prev else -EBUSY;
      }
      var ok, l2Mask, l3Mask := CacheMasks(q);
      if !ok {
        return -ENOENT;
      }
      ghost var was, full := idle, FullIdle();
      ghost var k;
      if q.smtEnabled {
        cpu, k := SearchGroups(q, l2Mask, l3Mask, true);
        if cpu >= 0 {
          FirstTierIsBest(q, was, full, k, cpu);
          return;
        }
      }
      assert forall r :: 0 <= r < 4 ==> Tier(q, was, full, r) == {};
      cpu, k := SearchGroups(q, l2Mask, l3Mask, false);
      if cpu >= 0 {
        FirstTierIsBest(q, was, full, 4 + k, cpu);
        return;
      }
      assert Group(q, was, 0) == {} && Group(q, was, 3) == {};
      return -EBUSY;
    }
  }

  /** A mask (null when empty) stands for a set of CPUs as far as the idle ones go. */
  ghost predicate MaskFor(mask: Option<set<S32>>, near: set<S32>, idle: set<S32>) {
    forall c :: c in idle ==> (c in near <==> mask.Some? && c in mask.value)
  }
}
