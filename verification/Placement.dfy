/** Queue identifiers: which DSQs exist, and where a CPU choice ends up. */
module Placement {
  import opened Words
  import opened TaskPool
  import opened Layout
  import opened Kernel
  import opened WorldSafety
  import Serving

  class Registry {
    /** The DSQs created so far. */
    var dsqs: set<nat>

    constructor ()
      ensures dsqs == {}
    {
      dsqs := {};
    }

    /** Creating an existing DSQ fails. */
    method CreateDsq(id: nat) returns (err: int)
      modifies this
      ensures err == if id in old(dsqs) then -EEXIST else 0
      ensures dsqs == old(dsqs) + {id}
    {
      if id in dsqs {
        return -EEXIST;
      }
      dsqs := dsqs + {id};
      return 0;
    }

    /** Startup creates one DSQ per CPU, the shared one and the scheduler's. It succeeds if and only if
        there are at most MAX_CPUS CPUs, and then exactly these exist, all distinct. */
    method DsqInit(nrCpuIds: nat) returns (err: int)
      requires dsqs == {} && nrCpuIds <= S32_MAX
      modifies this
      ensures err == 0 <==> nrCpuIds <= 1024
      ensures err == 0 ==> forall id: nat :: id in dsqs <==> id < nrCpuIds || id == 1024 || id == 1025
    {
      var cpu := 0;
      while cpu < nrCpuIds
        invariant 0 <= cpu <= nrCpuIds && cpu <= MAX_CPUS + 1
        invariant forall id: nat :: id in dsqs <==> id < cpu && id <= SHARED_DSQ
      {
        err := CreateDsq(CpuToDsq(cpu));
        if err != 0 {
          return;
        }
        cpu := cpu + 1;
      }
      err := CreateDsq(SHARED_DSQ);
      if err != 0 {
        return;
      }
      err := CreateDsq(SCHED_DSQ);
    }
  }

  /** A signed idle-search result, read as unsigned and mapped by the user-space wrapper: every error
      code becomes "any CPU", every CPU stays itself, and the two are never confused. */
  lemma SelectionIsFaithful(r: S32)
    ensures Serving.SelectCpu(Some(r % U32)) == Serving.Selected(false, if r < 0 then 1_048_576 else r)
    ensures Serving.SelectCpu(Some(r % U32)).cpu < MAX_CPUS <==> 0 <= r < MAX_CPUS
  {}

  /** The message says what the search found, r. */
  predicate CarriesResult(m: DispatchedTask, r: S32) { m.cpu == if r < 0 then RL_CPU_ANY else r }

  /** When the search ran and found r, the message says so. When it could not run, the loop does not look
      at the error: the message is the one for "found CPU 0", and differs from that for any other
      result. */
  lemma ErrorLooksLikeCpuZero(t: QueuedTask, slice: nat, r: S32)
    ensures !Serving.SelectCpu(Some(r % U32)).err && Serving.SelectCpu(None).err
    ensures CarriesResult(Serving.Outgoing(t, Some(r % U32), slice), r)
    ensures Serving.Outgoing(t, None, slice) == Serving.Outgoing(t, Some(r % U32), slice) <==> r == 0
  {
    SelectionIsFaithful(r);
  }

  /** After such an error an unprioritized task goes to the DSQ of CPU 0 whatever the search would have
      found, or to the shared DSQ if it may not use CPU 0. */
  lemma ErrorMeansCpuZero(c: Config, k: Kernel, t: QueuedTask, slice: nat)
    requires ConfigOk(c) && t.pid in k.tasks && t.pid in c.attrs && t.vtime > 0
    ensures Serving.SelectCpu(None).err
    ensures var m, id := Serving.Outgoing(t, None, slice), if 0 in c.attrs[t.pid].allowed then 0 else 1024;
      DispatchTask(c, k, m).board
        == InsertAt(k.board, PlaceFor(k.board, Custom(id), t.vtime), Entry(Custom(id), t.pid, t.vtime, false))
  {
    var m := Serving.Outgoing(t, None, slice);
    assert AttrOk(c, t.pid, c.attrs[t.pid]);
    assert m.cpu == 0 && m.pid == t.pid && m.vtime == t.vtime;
  }

  /** The message sent after search result r puts an unprioritized task into the DSQ of CPU r if that
      is a CPU it may use, and into the shared DSQ in every other case. */
  lemma SelectionReachesQueue(c: Config, k: Kernel, m: DispatchedTask, r: S32)
    requires ConfigOk(c) && m.pid in k.tasks && m.pid in c.attrs && m.vtime > 0
    requires CarriesResult(m, r)
    ensures var id := if r in c.attrs[m.pid].allowed then CpuToDsq(r) else SHARED_DSQ;
      && DispatchTask(c, k, m).board
         == InsertAt(k.board, PlaceFor(k.board, Custom(id), m.vtime), Entry(Custom(id), m.pid, m.vtime, false))
      && Created(c, id)
      && (id == SHARED_DSQ <==> r !in c.attrs[m.pid].allowed)
  {
    assert AttrOk(c, m.pid, c.attrs[m.pid]);
  }
}
