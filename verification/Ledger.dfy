/** What a drain does to nr_queued, step by step, against the counter of the accounting. */
module Ledger {
  import opened Words
  import opened Layout
  import opened UserSched
  import Accounting

  function Increments(n: nat): (s: seq<Accounting.Step>)
    ensures |s| == n && forall i :: 0 <= i < n ==> s[i] == Accounting.Increment
  {
    seq(n, i => Accounting.Increment)
  }

  /** Taking out one message: decoding it, and the decrement that follows a success. */
  function Taking(msg: seq<Byte>): seq<Accounting.Step> {
    if FastDecode(msg).Some? then [Accounting.Consume(true), Accounting.Decrement] else [Accounting.Consume(false)]
  }

  /** The counter steps of a drain: before each dequeue those of the arrivals, then those of the message. */
  function StepsOf(s: UserState, size: nat): seq<Accounting.Step>
    requires Fine(s)
    decreases |s.incoming|, |s.queue|
  {
    if |s.pool| == size - 1 then []
    else
      DeliverKeeps(s);
      var d, arrived := Deliver(s), Increments(Counted(s.incoming));
      if d.queue == [] then arrived
      else if !Usable(d.queue[0]) then arrived + Taking(d.queue[0])
      else arrived + Taking(d.queue[0]) + StepsOf(TakeIn(d).0, size)
  }

  /** Messages a drain takes out that can be decoded: the records taken and, if there is one, the message
      that reports a failed dequeue. */
  function Decoded(d: Drained): nat {
    |d.taken| + if d.exit.Unusable? && FastDecode(d.exit.msg).Some? then 1 else 0
  }

  lemma Snoc(run: seq<Accounting.Step>, x: Accounting.Step)
    ensures Accounting.Counter(run + [x]) == match x
      case Increment => Accounting.Counter(run) + 1
      case Decrement => if Accounting.Counter(run) > 0 then Accounting.Counter(run) - 1 else 0
      case _ => Accounting.Counter(run)
    ensures forall y :: Accounting.Count(run + [x], y) == Accounting.Count(run, y) + if x == y then 1 else 0
  {
    assert (run + [x])[..|run|] == run;
  }

  lemma {:induction false} CountsIncrements(run: seq<Accounting.Step>, n: nat)
    ensures Accounting.Counter(run + Increments(n)) == Accounting.Counter(run) + n
    ensures forall y :: Accounting.Count(run + Increments(n), y)
                        == Accounting.Count(run, y) + if y.Increment? then n else 0
  {
    if n == 0 {
      assert run + Increments(0) == run;
    } else {
      CountsIncrements(run, n - 1);
      assert run + Increments(n) == (run + Increments(n - 1)) + [Accounting.Increment];
      Snoc(run + Increments(n - 1), Accounting.Increment);
    }
  }

  lemma CountsTaking(run: seq<Accounting.Step>, msg: seq<Byte>)
    ensures var n, ok := Accounting.Counter(run), FastDecode(msg).Some?;
      && Accounting.Counter(run + Taking(msg)) == (if ok && n > 0 then n - 1 else n)
      && Accounting.Count(run + Taking(msg), Accounting.Increment) == Accounting.Count(run, Accounting.Increment)
      && Accounting.Count(run + Taking(msg), Accounting.Decrement)
         == Accounting.Count(run, Accounting.Decrement) + if ok then 1 else 0
  {
    if FastDecode(msg).Some? {
      var mid := run + [Accounting.Consume(true)];
      Snoc(run, Accounting.Consume(true));
      Snoc(mid, Accounting.Decrement);
      assert run + Taking(msg) == mid + [Accounting.Decrement];
    } else {
      Snoc(run, Accounting.Consume(false));
    }
  }

  /** The steps explain the counter: it is what the accounting says after them. */
  ghost predicate Explains(before: seq<Accounting.Step>, steps: seq<Accounting.Step>, nrQueued: nat, counted: int, decoded: nat) {
    && Accounting.Counter(before + steps) == nrQueued
    && Accounting.Count(before + steps, Accounting.Increment) == Accounting.Count(before, Accounting.Increment) + counted
    && Accounting.Count(before + steps, Accounting.Decrement) == Accounting.Count(before, Accounting.Decrement) + decoded
  }

  lemma FirstPart(before: seq<Accounting.Step>, s: UserState)
    requires Accounting.Counter(before) == s.nrQueued
    ensures Explains(before, Increments(Counted(s.incoming)), Deliver(s).nrQueued, Counted(s.incoming), 0)
  {
    CountsIncrements(before, Counted(s.incoming));
  }

  lemma Joins(before: seq<Accounting.Step>, a: seq<Accounting.Step>, b: seq<Accounting.Step>, n: nat, nrQueued: nat,
              counted: int, decoded: nat, counted': int, decoded': nat)
    requires Explains(before, a, n, counted, decoded) && Explains(before + a, b, nrQueued, counted', decoded')
    ensures Explains(before, a + b, nrQueued, counted + counted', decoded + decoded')
  {
    assert before + (a + b) == (before + a) + b;
  }

  /** The increments of the arrivals during a drain. */
  function Arrived(s: UserState, size: nat): int
    requires Fine(s)
  {
    Total(s.incoming) - Total(DrainAll(s, size).end.incoming)
  }

  /** The steps up to and including the first message. */
  lemma FirstMessage(before: seq<Accounting.Step>, s: UserState)
    requires Fine(s) && Accounting.Counter(before) == s.nrQueued && Deliver(s).queue != []
    ensures var d := Deliver(s);
      var ok := if FastDecode(d.queue[0]).Some? then 1 else 0;
      Explains(before, Increments(Counted(s.incoming)) + Taking(d.queue[0]),
               if ok == 1 && d.nrQueued > 0 then d.nrQueued - 1 else d.nrQueued, Counted(s.incoming), ok)
  {
    var d, arrived := Deliver(s), Increments(Counted(s.incoming));
    var taking, ok := Taking(d.queue[0]), if FastDecode(d.queue[0]).Some? then 1 else 0;
    var nr := if ok == 1 && d.nrQueued > 0 then d.nrQueued - 1 else d.nrQueued;
    FirstPart(before, s);
    CountsTaking(before + arrived, d.queue[0]);
    assert Explains(before + arrived, taking, nr, 0, ok);
    Joins(before, arrived, taking, d.nrQueued, nr, Counted(s.incoming), 0, 0, ok);
  }

  lemma {:induction false} DrainExplained(before: seq<Accounting.Step>, s: UserState, size: nat)
    requires Fine(s) && Accounting.Counter(before) == s.nrQueued
    ensures Explains(before, StepsOf(s, size), DrainAll(s, size).end.nrQueued, Arrived(s, size), Decoded(DrainAll(s, size)))
    decreases |s.incoming|, |s.queue|
  {
    DeliverKeeps(s);
    if |s.pool| == size - 1 {
      assert before + [] == before;
    } else if Deliver(s).queue == [] {
      FirstPart(before, s);
    } else {
      FirstMessage(before, s);
      if TakesOne(s, size) {
        var next := TakeIn(Deliver(s)).0;
        var first := Increments(Counted(s.incoming)) + Taking(Deliver(s).queue[0]);
        DrainExplained(before + first, next, size);
        Joins(before, first, StepsOf(next, size), next.nrQueued, DrainAll(next, size).end.nrQueued,
              Counted(s.incoming), 1, Arrived(next, size), Decoded(DrainAll(next, size)));
      }
    }
  }

  /** The exact balance of a drain, from any history of the counter: what it was, plus what arrivals
      counted meanwhile, minus one for each decoded message, plus the decrements that found it at zero. */
  lemma DrainBalance(before: seq<Accounting.Step>, s: UserState, size: nat)
    requires Fine(s) && Accounting.Counter(before) == s.nrQueued
    ensures var end, run := DrainAll(s, size).end, before + StepsOf(s, size);
      && Accounting.Counter(run) == end.nrQueued
      && end.nrQueued == s.nrQueued + Arrived(s, size) - Decoded(DrainAll(s, size))
                         + (Accounting.Skips(run) - Accounting.Skips(before))
  {
    DrainExplained(before, s, size);
    Accounting.CounterBalance(before);
    Accounting.CounterBalance(before + StepsOf(s, size));
  }
}
