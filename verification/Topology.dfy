/** Cache domains: the nested loops of util/topology.go over enable_sibling_cpu. */
module Topology {
  import opened Words

  /** The mask of each CPU at one cache level; a missing entry is a mask not yet allocated. */
  type Masks = map<S32, set<S32>>

  predicate InMask(m: Masks, c: S32, d: S32) { c in m && d in m[c] }

  /** CPU numbers as they cross into the kernel. */
  function Ids(g: seq<int>): (s: seq<S32>)
    ensures |s| == |g| && forall i :: 0 <= i < |g| ==> s[i] == ToS32(g[i])
  {
    seq(|g|, i requires 0 <= i < |g| => ToS32(g[i]))
  }

  predicate Together(g: seq<int>, c: S32, d: S32) { c in Ids(g) && d in Ids(g) }

  /** Some group contains both CPUs. */
  predicate Linked(groups: seq<seq<int>>, c: S32, d: S32) {
    exists g :: g in groups && Together(g, c, d)
  }

  class Domains {
    const nrCpuIds: nat
    /** Whether call number n fails for a reason from outside: no memory, or a program that cannot run. */
    const fails: nat -> bool
    var calls: nat
    var l2: Masks
    var l3: Masks

    constructor (nrCpuIds: nat, fails: nat -> bool)
      ensures this.nrCpuIds == nrCpuIds && this.fails == fails && l2 == map[] && l3 == map[] && calls == 0
    {
      this.nrCpuIds, this.fails := nrCpuIds, fails;
      l2, l3, calls := map[], map[], 0;
    }

    /** No call from number a on and before b fails from outside. */
    ghost predicate NoFaults(a: nat, b: nat) { forall n :: a <= n < b ==> !fails(n) }

    predicate Possible(cpu: S32) { 0 <= cpu < nrCpuIds }

    function Level(lvl: int): Masks
      reads this
    {
      if lvl == 2 then l2 else l3
    }

    /** Allocate the mask of cpu if needed and set the sibling's bit, unless that is no CPU at all. */
    method EnableSiblingCpu(lvl: int, cpu: S32, sibling: S32) returns (err: int)
      modifies this
      ensures calls == old(calls) + 1
      ensures err == (if fails(old(calls)) then -ENOMEM else if !Possible(cpu) then -ENOENT
                      else if lvl != 2 && lvl != 3 then -EINVAL else 0)
      ensures err != 0 ==> l2 == old(l2) && l3 == old(l3)
      ensures lvl == 2 ==> l3 == old(l3)
      ensures lvl == 3 ==> l2 == old(l2)
      ensures err == 0 ==> forall c, d :: InMask(Level(lvl), c, d) <==>
                InMask(old(Level(lvl)), c, d) || (c == cpu && d == sibling && Possible(sibling))
    {
      calls := calls + 1;
      if fails(calls - 1) {
        return -ENOMEM;
      }
      if !Possible(cpu) {
        return -ENOENT;
      }
      if lvl != 2 && lvl != 3 {
        return -EINVAL;
      }
      var masks := if lvl == 2 then l2 else l3;
      var mask := if cpu in masks then masks[cpu] else {};
      if Possible(sibling) {
        mask := mask + {sibling};
      }
      masks := masks[cpu := mask];
      if lvl == 2 {
        l2 := masks;
      } else {
        l3 := masks;
      }
      return 0;
    }

    /** Innermost loop: one CPU of a group against all of it. */
    method LinkCpu(lvl: int, cpu: S32, g: seq<int>) returns (ok: bool)
      requires lvl == 2 || lvl == 3
      modifies this
      ensures old(calls) <= calls
      ensures ok <==> (Possible(cpu) || g == []) && NoFaults(old(calls), calls)
      ensures if lvl == 2 then l3 == old(l3) else l2 == old(l2)
      ensures ok ==> forall c, d :: InMask(Level(lvl), c, d) <==>
                InMask(old(Level(lvl)), c, d) || (c == cpu && d in Ids(g) && Possible(d))
      ensures forall c, d :: InMask(Level(lvl), c, d) ==> InMask(old(Level(lvl)), c, d) || (c == cpu && d in Ids(g))
      ensures forall c, d :: InMask(old(Level(lvl)), c, d) ==> InMask(Level(lvl), c, d)
    {
      var j := 0;
      while j < |g|
        invariant 0 <= j <= |g| && (j > 0 ==> Possible(cpu))
        invariant old(calls) <= calls && NoFaults(old(calls), calls)
        invariant if lvl == 2 then l3 == old(l3) else l2 == old(l2)
        invariant forall c, d :: InMask(Level(lvl), c, d) <==>
                    InMask(old(Level(lvl)), c, d) || (c == cpu && d in Ids(g)[..j] && Possible(d))
      {
        var err := EnableSiblingCpu(lvl, cpu, ToS32(g[j]));
        if err != 0 {
          return false;
        }
        assert Ids(g)[..j + 1] == Ids(g)[..j] + [ToS32(g[j])];
        j := j + 1;
      }
      assert Ids(g)[..|g|] == Ids(g);
      return true;
    }

    /** Middle loop: every CPU of a group. */
    method LinkGroup(lvl: int, g: seq<int>) returns (ok: bool)
      requires lvl == 2 || lvl == 3
      modifies this
      ensures old(calls) <= calls
      ensures ok <==> (forall x :: x in Ids(g) ==> Possible(x)) && NoFaults(old(calls), calls)
      ensures if lvl == 2 then l3 == old(l3) else l2 == old(l2)
      ensures ok ==> forall c, d :: InMask(Level(lvl), c, d) <==>
                InMask(old(Level(lvl)), c, d) || Together(g, c, d)
      ensures forall c, d :: InMask(Level(lvl), c, d) ==> InMask(old(Level(lvl)), c, d) || Together(g, c, d)
      ensures forall c, d :: InMask(old(Level(lvl)), c, d) ==> InMask(Level(lvl), c, d)
    {
      var i := 0;
      while i < |g|
        invariant 0 <= i <= |g| && forall x :: x in Ids(g)[..i] ==> Possible(x)
        invariant old(calls) <= calls && NoFaults(old(calls), calls)
        invariant if lvl == 2 then l3 == old(l3) else l2 == old(l2)
        invariant forall c, d :: InMask(Level(lvl), c, d) <==>
                    InMask(old(Level(lvl)), c, d) || (c in Ids(g)[..i] && d in Ids(g) && Possible(d))
      {
        assert ToS32(g[i]) == Ids(g)[i];
        ok := LinkCpu(lvl, ToS32(g[i]), g);
        if !ok {
          return false;
        }
        assert Ids(g)[..i + 1] == Ids(g)[..i] + [ToS32(g[i])];
        i := i + 1;
      }
      assert Ids(g)[..|g|] == Ids(g);
      return true;
    }

    /** Outer loop, for any order in which the groups come: it succeeds exactly if every listed CPU is
        possible and no call fails from outside, and then the level relates exactly the pairs that were
        related before or share a group. If it fails it has related no other pairs. The other level is
        untouched. */
    method InitCacheDomains(lvl: int, groups: seq<seq<int>>) returns (ok: bool)
      requires lvl == 2 || lvl == 3
      modifies this
      ensures old(calls) <= calls
      ensures ok <==> (forall g, x :: g in groups && x in Ids(g) ==> Possible(x)) && NoFaults(old(calls), calls)
      ensures if lvl == 2 then l3 == old(l3) else l2 == old(l2)
      ensures ok ==> forall c, d :: InMask(Level(lvl), c, d) <==>
                InMask(old(Level(lvl)), c, d) || Linked(groups, c, d)
      ensures forall c, d :: InMask(Level(lvl), c, d) ==> InMask(old(Level(lvl)), c, d) || Linked(groups, c, d)
      ensures forall c, d :: InMask(old(Level(lvl)), c, d) ==> InMask(Level(lvl), c, d)
    {
      var n := 0;
      while n < |groups|
        invariant 0 <= n <= |groups|
        invariant forall g, x :: g in groups[..n] && x in Ids(g) ==> Possible(x)
        invariant old(calls) <= calls && NoFaults(old(calls), calls)
        invariant if lvl == 2 then l3 == old(l3) else l2 == old(l2)
        invariant forall c, d :: InMask(Level(lvl), c, d) <==>
                    InMask(old(Level(lvl)), c, d) || Linked(groups[..n], c, d)
      {
        ok := LinkGroup(lvl, groups[n]);
        if !ok {
          LinkedMore(groups, n);
          return false;
        }
        LinkedAppend(groups[..n], groups[n]);
        assert groups[..n + 1] == groups[..n] + [groups[n]];
        n := n + 1;
      }
      assert groups[..|groups|] == groups;
      return true;
    }
  }

  lemma LinkedMore(groups: seq<seq<int>>, n: nat)
    requires n < |groups|
    ensures forall c, d :: Linked(groups[..n], c, d) || Together(groups[n], c, d) ==> Linked(groups, c, d)
  {
    forall c, d | Linked(groups[..n], c, d) || Together(groups[n], c, d) ensures Linked(groups, c, d) {
      assert groups[n] in groups;
      if Linked(groups[..n], c, d) {
        var g :| g in groups[..n] && Together(g, c, d);
        assert g in groups;
      }
    }
  }

  lemma LinkedAppend(groups: seq<seq<int>>, g: seq<int>)
    ensures forall c, d :: Linked(groups + [g], c, d) <==> Linked(groups, c, d) || Together(g, c, d)
  {
    forall c, d ensures Linked(groups + [g], c, d) <==> Linked(groups, c, d) || Together(g, c, d) {
      if Together(g, c, d) { assert g in groups + [g]; }
      if Linked(groups, c, d) {
        var h :| h in groups && Together(h, c, d);
        assert h in groups + [g];
      }
    }
  }

  /** The relation does not depend on the order or repetition of groups, and is symmetric. */
  lemma LinkedOrderFree(a: seq<seq<int>>, b: seq<seq<int>>, c: S32, d: S32)
    requires forall g :: g in a <==> g in b
    ensures Linked(a, c, d) <==> Linked(b, c, d)
    ensures Linked(a, c, d) <==> Linked(a, d, c)
  {
    if g :| g in a && Together(g, c, d) { assert g in b && Together(g, d, c); }
    if g :| g in b && Together(g, c, d) { assert g in a; }
    if g :| g in a && Together(g, d, c) { assert Together(g, c, d); }
  }

  ghost predicate Disjoint(groups: seq<seq<int>>) {
    forall g, h, x :: g in groups && h in groups && x in Ids(g) && x in Ids(h) ==> g == h
  }

  /** With disjoint groups it is an equivalence on the CPUs that occur in some group. */
  lemma LinkedEquivalence(groups: seq<seq<int>>, c: S32, d: S32, e: S32)
    requires Disjoint(groups)
    ensures Linked(groups, c, c) <==> exists g :: g in groups && c in Ids(g)
    ensures Linked(groups, c, d) && Linked(groups, d, e) ==> Linked(groups, c, e)
  {
    if g :| g in groups && c in Ids(g) { assert Together(g, c, c); }
    if Linked(groups, c, d) && Linked(groups, d, e) {
      var g :| g in groups && Together(g, c, d);
      var h :| h in groups && Together(h, d, e);
      assert g == h && Together(g, c, e);
    }
  }
}
