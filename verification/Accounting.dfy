/** The shared counter nr_queued when submission, increment, consumption and decrement interleave. */
module Accounting {
  import opened Words
  import opened Vruntime

  /** One atomic step on either side of the boundary: the backend submits a message and then, as a
      separate step, increments the counter; user space takes a message out (ok unless it fails to
      decode) and then, as a separate step, decrements. */
  datatype Step = Submit | Increment | Consume(ok: bool) | Decrement

  /** The counter after a run. The decrement is guarded at zero. */
  function Counter(run: seq<Step>): nat {
    if run == [] then 0
    else
      var n := Counter(run[..|run| - 1]);
      match run[|run| - 1]
      case Increment => n + 1
      case Decrement => if n > 0 then n - 1 else 0
      case _ => n
  }

  function Count(run: seq<Step>, s: Step): nat {
    if run == [] then 0
    else Count(run[..|run| - 1], s) + if run[|run| - 1] == s then 1 else 0
  }

  /** Decrements that found the counter already at zero. */
  function Skips(run: seq<Step>): nat {
    if run == [] then 0
    else
      var before := run[..|run| - 1];
      Skips(before) + if run[|run| - 1].Decrement? && Counter(before) == 0 then 1 else 0
  }

  /** Each side follows its own program order; nothing else is assumed about the interleaving. */
  ghost predicate Legal(run: seq<Step>) {
    forall n :: 0 <= n <= |run| ==>
      && Count(run[..n], Increment) <= Count(run[..n], Submit)
      && Count(run[..n], Consume(true)) + Count(run[..n], Consume(false)) <= Count(run[..n], Submit)
      && Count(run[..n], Decrement) <= Count(run[..n], Consume(true))
  }

  /** Messages submitted and not yet taken out. */
  function Unconsumed(run: seq<Step>): int {
    Count(run, Submit) - Count(run, Consume(true)) - Count(run, Consume(false))
  }

  /** Increments still to come for messages already submitted. */
  function InFlight(run: seq<Step>): int { Count(run, Submit) - Count(run, Increment) }

  /** Decrements still to come for messages already taken out. */
  function Owed(run: seq<Step>): int { Count(run, Consume(true)) - Count(run, Decrement) }

  lemma {:induction false} CounterBalance(run: seq<Step>)
    ensures Counter(run) == Count(run, Increment) - Count(run, Decrement) + Skips(run)
  {
    if run != [] {
      CounterBalance(run[..|run| - 1]);
    }
  }

  /** In every interleaving the counter plus the increments in flight covers the messages not yet
      consumed, and the excess is exactly: decrements still owed, decrements lost at zero, and
      messages that failed to decode. */
  lemma NeverUnderReports(run: seq<Step>)
    requires Legal(run)
    ensures Counter(run) + InFlight(run)
            == Unconsumed(run) + Owed(run) + Skips(run) + Count(run, Consume(false))
    ensures Counter(run) + InFlight(run) >= Unconsumed(run) >= 0
    ensures Counter(run) + InFlight(run) == Unconsumed(run)
            <==> Owed(run) == 0 && Skips(run) == 0 && Count(run, Consume(false)) == 0
  {
    CounterBalance(run);
    assert run[..|run|] == run;
  }

  /** So a slice computed from the counter is never longer than the one for the messages that wait and
      are counted already. */
  lemma SliceRespectsBacklog(run: seq<Step>, nrScheduled: nat)
    requires Legal(run)
    ensures SLICE_NS_MIN <= Slice(Counter(run) + nrScheduled + 1)
            <= Slice(Max(Unconsumed(run) - InFlight(run), 0) + nrScheduled + 1) <= SLICE_NS_DEFAULT
  {
    NeverUnderReports(run);
    SliceBounds(Max(Unconsumed(run) - InFlight(run), 0) + nrScheduled + 1, Counter(run) + nrScheduled + 1);
  }

  /** And never longer than the one for the true backlog while no increment is in flight. */
  lemma SliceRespectsTrueBacklog(run: seq<Step>, nrScheduled: nat)
    requires Legal(run) && InFlight(run) == 0
    ensures Unconsumed(run) >= 0
    ensures Slice(Counter(run) + nrScheduled + 1) <= Slice(Unconsumed(run) + nrScheduled + 1)
  {
    NeverUnderReports(run);
    SliceBounds(Unconsumed(run) + nrScheduled + 1, Counter(run) + nrScheduled + 1);
  }
}
