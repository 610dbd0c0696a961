/** The user-space half: the message channel, the drain loop and the scheduling loop of main.go. */
module UserSched {
  import opened Words
  import opened TaskPool
  import opened Vruntime
  import opened Layout
  import opened Serving

  /** The loop refills until at least this many tasks are pooled. */
  const REFILL_GOAL := 10

  /** What the backend does between two operations of user space: messages that reach the channel, and
      increments of nr_queued. */
  datatype Arrival = Arrival(msgs: seq<seq<Byte>>, counted: nat)

  /** Everything the drain loop reads or writes, and the arrivals still to come. */
  datatype UserState = UserState(
    incoming: seq<Arrival>, queue: seq<seq<Byte>>, nrQueued: nat, minVruntime: nat, pool: seq<Task>)

  /** Why a drain stopped: the pool was full, the channel was empty, or a message was unusable. */
  datatype Exit = Full | Empty | Unusable(msg: seq<Byte>)

  /** The result of a drain: the records it took and the pool entries it made of them. */
  datatype Drained = Drained(end: UserState, taken: seq<QueuedTask>, inserted: seq<Task>, exit: Exit)

  /** A message that decodes to a task (pid -1 is how a failed dequeue is reported). */
  predicate Usable(msg: seq<Byte>) {
    FastDecode(msg).Some? && FastDecode(msg).value.pid != -1
  }

  /** No message makes the policy divide by zero. */
  predicate Weighted(msgs: seq<seq<Byte>>) {
    forall msg :: msg in msgs && Usable(msg) ==> Chargeable(FastDecode(msg).value)
  }

  predicate AllWeighted(incoming: seq<Arrival>) {
    forall a :: a in incoming ==> Weighted(a.msgs)
  }

  predicate Fine(s: UserState) { Weighted(s.queue) && AllWeighted(s.incoming) }

  function SubQueued(nrQueued: nat): nat { if nrQueued > 0 then nrQueued - 1 else 0 }

  // ---- arrivals ----

  function Rest(incoming: seq<Arrival>): seq<Arrival> { if incoming == [] then [] else incoming[1..] }

  function Counted(incoming: seq<Arrival>): nat { if incoming == [] then 0 else incoming[0].counted }

  /** The next arrival, if there is one, takes place. */
  function Deliver(s: UserState): UserState {
    if s.incoming == [] then s
    else s.(incoming := s.incoming[1..], queue := s.queue + s.incoming[0].msgs, nrQueued := s.nrQueued + Counted(s.incoming))
  }

  /** All increments to come. */
  function Total(incoming: seq<Arrival>): nat {
    if incoming == [] then 0 else incoming[0].counted + Total(incoming[1..])
  }

  function Flat(incoming: seq<Arrival>): seq<seq<Byte>> {
    if incoming == [] then [] else incoming[0].msgs + Flat(incoming[1..])
  }

  /** The messages user space can still take, in order. */
  function Stream(s: UserState): seq<seq<Byte>> { s.queue + Flat(s.incoming) }

  lemma DeliverKeeps(s: UserState)
    ensures Stream(Deliver(s)) == Stream(s)
    ensures Deliver(s).nrQueued + Total(Deliver(s).incoming) == s.nrQueued + Total(s.incoming)
    ensures Fine(s) ==> Fine(Deliver(s))
  {
    if s.incoming != [] {
      assert s.queue + (s.incoming[0].msgs + Flat(s.incoming[1..])) == (s.queue + s.incoming[0].msgs) + Flat(s.incoming[1..]);
      assert s.incoming[0] in s.incoming;
    }
  }

  /** Waiting until something is in the channel. */
  function Await(s: UserState): UserState
    decreases |s.incoming|
  {
    if s.queue != [] || s.incoming == [] then s else Await(Deliver(s))
  }

  /** Waiting loses and reorders nothing; it ends with a message, or with none left to come. */
  lemma {:induction false} AwaitKeeps(s: UserState)
    ensures var w := Await(s);
      && Stream(w) == Stream(s) && w.nrQueued + Total(w.incoming) == s.nrQueued + Total(s.incoming)
      && w.pool == s.pool && w.minVruntime == s.minVruntime && (Fine(s) ==> Fine(w))
      && |w.incoming| <= |s.incoming| && (|w.incoming| == |s.incoming| ==> w == s)
      && (w.queue == [] ==> w.incoming == []) && (w.queue == [] <==> Stream(s) == [])
    decreases |s.incoming|
  {
    if s.queue == [] && s.incoming != [] {
      DeliverKeeps(s);
      AwaitKeeps(Deliver(s));
    }
  }

  // ---- draining ----

  /** Taking the first message into the pool. */
  function TakeIn(s: UserState): (r: (UserState, Task))
    requires s.queue != [] && Usable(s.queue[0]) && Weighted(s.queue)
  {
    var t := FastDecode(s.queue[0]).value;
    assert s.queue[0] in s.queue;
    var m := Advance(s.minVruntime, t);
    var e := WrappedEntry(m, t);
    (UserState(s.incoming, s.queue[1..], SubQueued(s.nrQueued), m, Insert(s.pool, e)), e)
  }

  /** Taking out a message that is no task. */
  function Discarded(s: UserState): UserState
    requires s.queue != []
  {
    s.(queue := s.queue[1..], nrQueued := if FastDecode(s.queue[0]).Some? then SubQueued(s.nrQueued) else s.nrQueued)
  }

  /** The reference for the drain loop over a pool of the given size. */
  function DrainAll(s: UserState, size: nat): Drained
    requires Fine(s)
    decreases |s.incoming|, |s.queue|
  {
    if |s.pool| == size - 1 then Drained(s, [], [], Full)
    else
      DeliverKeeps(s);
      var d := Deliver(s);
      if d.queue == [] then Drained(d, [], [], Empty)
      else if !Usable(d.queue[0]) then Drained(Discarded(d), [], [], Unusable(d.queue[0]))
      else
        var (next, e) := TakeIn(d);
        var rest := DrainAll(next, size);
        rest.(taken := [FastDecode(d.queue[0]).value] + rest.taken, inserted := [e] + rest.inserted)
  }

  /** The drain goes through the first message after an arrival. */
  predicate TakesOne(s: UserState, size: nat) {
    |s.pool| != size - 1 && Deliver(s).queue != [] && Usable(Deliver(s).queue[0])
  }

  /** How many messages a drain removed from the channel. */
  function Consumed(d: Drained): nat { |d.taken| + if d.exit.Unusable? then 1 else 0 }

  /** Each entry is the policy's answer to its record, at the global vruntime reached with it. */
  ghost predicate Explained(m: nat, taken: seq<QueuedTask>, inserted: seq<Task>) {
    && |inserted| == |taken|
    && forall i :: 0 <= i < |taken| ==>
         Chargeable(taken[i]) && inserted[i] == WrappedEntry(AdvanceAll(m, taken[..i + 1]), taken[i])
  }

  lemma ExplainedOneMore(m: nat, t: QueuedTask, taken: seq<QueuedTask>, inserted: seq<Task>)
    requires Chargeable(t) && Explained(Advance(m, t), taken, inserted)
    ensures Explained(m, [t] + taken, [WrappedEntry(Advance(m, t), t)] + inserted)
    ensures AdvanceAll(m, [t] + taken) == AdvanceAll(Advance(m, t), taken)
  {
    var ts, es := [t] + taken, [WrappedEntry(Advance(m, t), t)] + inserted;
    forall i | 0 <= i < |ts| ensures Chargeable(ts[i]) && es[i] == WrappedEntry(AdvanceAll(m, ts[..i + 1]), ts[i]) {
      assert ts[..i + 1][1..] == taken[..i];
      assert AdvanceAll(m, ts[..i + 1]) == AdvanceAll(Advance(m, t), taken[..i]);
    }
    assert ts[1..] == taken;
  }

  /** The records taken are the first messages of the stream, decoded. */
  ghost predicate Decodes(stream: seq<seq<Byte>>, taken: seq<QueuedTask>) {
    && |taken| <= |stream|
    && forall i :: 0 <= i < |taken| ==> FastDecode(stream[i]) == Some(taken[i]) && taken[i].pid != -1
  }

  lemma StreamStep(s: UserState, size: nat)
    requires Fine(s) && TakesOne(s, size)
    ensures Stream(s) == [Deliver(s).queue[0]] + Stream(TakeIn(Deliver(s)).0) && Fine(TakeIn(Deliver(s)).0)
  {
    DeliverKeeps(s);
    var d := Deliver(s);
    assert d.queue == [d.queue[0]] + d.queue[1..];
  }

  lemma DecodesOneMore(msg: seq<Byte>, stream: seq<seq<Byte>>, taken: seq<QueuedTask>)
    requires Usable(msg) && Decodes(stream, taken)
    ensures Decodes([msg] + stream, [FastDecode(msg).value] + taken)
  {}

  /** The drain has taken a prefix of the stream and left the rest. */
  ghost predicate TookPrefix(stream: seq<seq<Byte>>, d: Drained) {
    && Decodes(stream, d.taken) && Fine(d.end)
    && Consumed(d) <= |stream| && Stream(d.end) == stream[Consumed(d)..]
    && (d.exit.Empty? ==> d.end.queue == [])
    && (d.exit.Unusable? ==>
          d.exit.msg == stream[|d.taken|] && (FastDecode(d.exit.msg).None? || FastDecode(d.exit.msg).value.pid == -1))
  }

  lemma TookOneMore(msg: seq<Byte>, stream: seq<seq<Byte>>, d: Drained, d': Drained)
    requires Usable(msg) && TookPrefix(stream, d)
    requires d' == d.(taken := [FastDecode(msg).value] + d.taken, inserted := d'.inserted)
    ensures TookPrefix([msg] + stream, d')
  {
    DecodesOneMore(msg, stream, d.taken);
  }

  /** A drain takes a prefix of the stream, in order, whatever arrives meanwhile. */
  lemma {:induction false} DrainTakesPrefix(s: UserState, size: nat)
    requires Fine(s)
    ensures TookPrefix(Stream(s), DrainAll(s, size))
    decreases |s.incoming|, |s.queue|
  {
    if TakesOne(s, size) {
      var next := TakeIn(Deliver(s)).0;
      StreamStep(s, size);
      DeliverKeeps(s);
      DrainTakesPrefix(next, size);
      TookOneMore(Deliver(s).queue[0], Stream(next), DrainAll(next, size), DrainAll(s, size));
    } else {
      StopsHere(s, size);
    }
  }

  lemma StopsHere(s: UserState, size: nat)
    requires Fine(s) && !TakesOne(s, size)
    ensures TookPrefix(Stream(s), DrainAll(s, size))
  {
    DeliverKeeps(s);
  }

  /** Every usable message of the prefix becomes exactly the entry the policy makes of its record. */
  lemma {:induction false} EntriesFollowPolicy(s: UserState, size: nat)
    requires Fine(s)
    ensures var d := DrainAll(s, size);
      && Explained(s.minVruntime, d.taken, d.inserted)
      && d.end.minVruntime == AdvanceAll(s.minVruntime, d.taken)
    decreases |s.incoming|, |s.queue|
  {
    DeliverKeeps(s);
    if TakesOne(s, size) {
      var d0 := Deliver(s);
      var next := TakeIn(d0).0;
      assert d0.queue[0] in d0.queue;
      EntriesFollowPolicy(next, size);
      var rest := DrainAll(next, size);
      ExplainedOneMore(s.minVruntime, FastDecode(d0.queue[0]).value, rest.taken, rest.inserted);
    }
  }

  /** The drain never goes past the pool's capacity. */
  lemma {:induction false} DrainConserves(s: UserState, size: nat)
    requires Fine(s) && |s.pool| <= size - 1
    ensures var d := DrainAll(s, size);
      && d.end.pool == InsertAll(s.pool, d.inserted)
      && |d.end.pool| == |s.pool| + |d.inserted| <= size - 1
      && (d.exit.Full? ==> |d.end.pool| == size - 1)
    decreases |s.incoming|, |s.queue|
  {
    DeliverKeeps(s);
    if TakesOne(s, size) {
      var (next, e) := TakeIn(Deliver(s));
      DrainConserves(next, size);
      assert DrainAll(s, size).inserted[1..] == DrainAll(next, size).inserted;
    }
  }

  /** The counter only falls with messages taken and rises with arrivals. */
  lemma {:induction false} DrainCountsDown(s: UserState, size: nat)
    requires Fine(s)
    ensures var end := DrainAll(s, size).end;
      end.nrQueued + Total(end.incoming) <= s.nrQueued + Total(s.incoming)
    decreases |s.incoming|, |s.queue|
  {
    DeliverKeeps(s);
    if TakesOne(s, size) { DrainCountsDown(TakeIn(Deliver(s)).0, size); }
  }

  /** A drain of a pool with room makes progress unless nothing is there and nothing comes. */
  predicate Progress(s: UserState, end: UserState) {
    || |end.incoming| < |s.incoming|
    || (|end.incoming| == |s.incoming| && |end.queue| < |s.queue|)
    || (end == s && s.incoming == [] && s.queue == [])
  }

  lemma {:induction false} DrainProgresses(s: UserState, size: nat)
    requires Fine(s)
    ensures var d := DrainAll(s, size);
      && |d.end.incoming| <= |s.incoming|
      && (|d.end.incoming| == |s.incoming| ==> |d.end.queue| <= |s.queue|)
      && (|s.pool| != size - 1 ==> Progress(s, d.end))
    decreases |s.incoming|, |s.queue|
  {
    DeliverKeeps(s);
    if TakesOne(s, size) { DrainProgresses(TakeIn(Deliver(s)).0, size); }
  }

  /** What the drain returns: the number it inserted, but 0 at a full pool. */
  function Returned(d: Drained): nat { if d.exit.Full? then 0 else |d.inserted| }

  /** A drain reports "full" exactly if it leaves a full pool. */
  lemma {:induction false} FullExactly(s: UserState, size: nat)
    requires Fine(s) && |s.pool| <= size - 1
    ensures DrainAll(s, size).exit.Full? <==> |DrainAll(s, size).end.pool| == size - 1
    decreases |s.incoming|, |s.queue|
  {
    DeliverKeeps(s);
    if TakesOne(s, size) { FullExactly(TakeIn(Deliver(s)).0, size); }
  }

  /** In numbers: 0 if the pool is full afterwards, otherwise how much it has grown. */
  lemma CountsGrowth(s: UserState, size: nat)
    requires Fine(s) && |s.pool| <= size - 1
    ensures var d := DrainAll(s, size);
      Returned(d) == if |d.end.pool| == size - 1 then 0 else |d.end.pool| - |s.pool|
  {
    FullExactly(s, size);
    DrainConserves(s, size);
  }

  /** The messages that are there, or were, at dequeue number i. */
  function Present(s: UserState, i: nat): seq<seq<Byte>> {
    s.queue + FlatUpTo(s.incoming, i + 1)
  }

  /** The messages of the first n arrivals. */
  function FlatUpTo(incoming: seq<Arrival>, n: nat): seq<seq<Byte>> {
    if incoming == [] || n == 0 then [] else incoming[0].msgs + FlatUpTo(incoming[1..], n - 1)
  }

  /** Dequeue number i finds a message, and a usable one. */
  predicate Supplies(s: UserState, i: nat) { i < |Present(s, i)| && Usable(Present(s, i)[i]) }

  lemma PresentFirst(s: UserState)
    ensures Present(s, 0) == Deliver(s).queue
  {
    if s.incoming != [] {
      assert FlatUpTo(s.incoming, 1) == s.incoming[0].msgs + [] == s.incoming[0].msgs;
    }
  }

  lemma PresentLater(s: UserState, i: nat)
    requires i > 0
    ensures Present(s, i) == Deliver(s).queue + FlatUpTo(Rest(s.incoming), i)
  {
    if s.incoming != [] {
      assert s.queue + (s.incoming[0].msgs + FlatUpTo(s.incoming[1..], i))
          == (s.queue + s.incoming[0].msgs) + FlatUpTo(s.incoming[1..], i);
    }
  }

  lemma SuppliesNext(s: UserState, size: nat, i: nat)
    requires Fine(s) && TakesOne(s, size) && Weighted(Deliver(s).queue)
    ensures Supplies(s, i + 1) <==> Supplies(TakeIn(Deliver(s)).0, i)
  {
    var d, next := Deliver(s), TakeIn(Deliver(s)).0;
    PresentLater(s, i + 1);
    assert d.queue == [d.queue[0]] + next.queue;
    assert Present(s, i + 1) == [d.queue[0]] + Present(next, i);
  }

  ghost predicate FillsPool(s: UserState, size: nat) {
    forall i: nat :: i < size - 1 - |s.pool| ==> Supplies(s, i)
  }

  lemma SuppliesLater(s: UserState, size: nat)
    requires Fine(s) && TakesOne(s, size) && Weighted(Deliver(s).queue) && |s.pool| < size - 1
    ensures FillsPool(s, size) <==> FillsPool(TakeIn(Deliver(s)).0, size)
  {
    var next := TakeIn(Deliver(s)).0;
    PresentFirst(s);
    forall i: nat ensures Supplies(s, i + 1) <==> Supplies(next, i) { SuppliesNext(s, size, i); }
    if FillsPool(s, size) {
      forall i: nat | i < size - 1 - |next.pool| ensures Supplies(next, i) { assert Supplies(s, i + 1); }
    }
    if FillsPool(next, size) {
      forall i: nat | i < size - 1 - |s.pool| ensures Supplies(s, i) { assert i == 0 || Supplies(next, i - 1); }
    }
  }

  /** A drain fills the pool if and only if each of the dequeues it takes to do so finds a usable
      message. */
  lemma {:induction false} FullBeforehand(s: UserState, size: nat)
    requires Fine(s) && |s.pool| <= size - 1
    ensures DrainAll(s, size).exit.Full? <==> FillsPool(s, size)
    decreases |s.incoming|, |s.queue|
  {
    DeliverKeeps(s);
    PresentFirst(s);
    if TakesOne(s, size) {
      SuppliesLater(s, size);
      FullBeforehand(TakeIn(Deliver(s)).0, size);
    } else if |s.pool| < size - 1 {
      assert !Supplies(s, 0);
    }
  }

  /** The result is the number of inserted tasks if and only if the pool was full before or is not going
      to be filled. */
  lemma ReturnsInsertedExactly(s: UserState, size: nat)
    requires Fine(s) && |s.pool| <= size - 1
    ensures var d := DrainAll(s, size);
      Returned(d) == |d.inserted| <==> |s.pool| == size - 1 || !FillsPool(s, size)
  {
    FullBeforehand(s, size);
    FullExactly(s, size);
    DrainConserves(s, size);
  }

  /** When nothing arrives meanwhile: the first messages in the channel, as many as there is room for,
      must all be there and usable. */
  lemma FullWhenQuiet(s: UserState, size: nat)
    requires Fine(s) && |s.pool| <= size - 1 && s.incoming == []
    ensures var room := size - 1 - |s.pool|;
      DrainAll(s, size).exit.Full? <==>
      room <= |s.queue| && forall i :: 0 <= i < room ==> Usable(s.queue[i])
  {
    FullBeforehand(s, size);
    FillsWhenQuiet(s, size);
  }

  lemma QuietPresent(s: UserState, i: nat)
    requires s.incoming == []
    ensures Supplies(s, i) <==> i < |s.queue| && Usable(s.queue[i])
  {
    assert Present(s, i) == s.queue + [] == s.queue;
  }

  lemma FillsWhenQuiet(s: UserState, size: nat)
    requires s.incoming == [] && |s.pool| <= size - 1
    ensures FillsPool(s, size) <==>
      size - 1 - |s.pool| <= |s.queue| && forall i :: 0 <= i < size - 1 - |s.pool| ==> Usable(s.queue[i])
  {
    var room := size - 1 - |s.pool|;
    forall i: nat ensures Supplies(s, i) <==> i < |s.queue| && Usable(s.queue[i]) { QuietPresent(s, i); }
    if FillsPool(s, size) {
      assert room == 0 || Supplies(s, room - 1);
      forall i | 0 <= i < room ensures Usable(s.queue[i]) { assert Supplies(s, i); }
    }
  }

  // ---- refilling ----

  datatype Refilled = Refilled(end: UserState, inserted: seq<Task>, ready: bool)

  /** The same refill with more inserted before. */
  function Prefixed(before: seq<Task>, r: Refilled): Refilled { r.(inserted := before + r.inserted) }

  lemma PrefixedTwice(a: seq<Task>, b: seq<Task>, r: Refilled)
    ensures Prefixed(a, Prefixed(b, r)) == Prefixed(a + b, r)
  {
    assert a + (b + r.inserted) == (a + b) + r.inserted;
  }

  /** Waiting takes one message out and puts it back. */
  function Rotated(s: UserState): UserState
    requires s.queue != []
  {
    s.(queue := s.queue[1..] + [s.queue[0]])
  }

  lemma RotatedFine(s: UserState)
    requires s.queue != [] && Fine(s)
    ensures Fine(Rotated(s)) && multiset(Rotated(s).queue) == multiset(s.queue)
  {
    assert s.queue == [s.queue[0]] + s.queue[1..];
  }

  lemma RefillProgress(s: UserState, size: nat)
    requires Fine(s) && |s.pool| < REFILL_GOAL < size
    ensures var d := DrainAll(s, size);
      && Fine(d.end)
      && (Returned(d) != 0 ==> |d.end.incoming| < |s.incoming|
                               || (|d.end.incoming| == |s.incoming| && |d.end.queue| < |s.queue|))
      && var w := Await(d.end);
         Fine(w) && (w.queue != [] ==> |w.incoming| < |s.incoming|
                                       || (|w.incoming| == |s.incoming| && |w.queue| < |s.queue|))
  {
    var d := DrainAll(s, size);
    DrainTakesPrefix(s, size);
    DrainConserves(s, size);
    DrainProgresses(s, size);
    AwaitKeeps(d.end);
  }

  /** The reference for the refill loop: it drains until enough tasks are pooled, and waits for a message
      whenever a drain returned 0. */
  function RefillAll(s: UserState, size: nat): Refilled
    requires Fine(s) && size > REFILL_GOAL
    decreases |s.incoming|, |s.queue|
  {
    if |s.pool| >= REFILL_GOAL then Refilled(s, [], true)
    else
      RefillProgress(s, size);
      var d := DrainAll(s, size);
      if Returned(d) != 0 then
        Prefixed(d.inserted, RefillAll(d.end, size))
      else
        var w := Await(d.end);
        if w.queue == [] then Refilled(w, d.inserted, false)
        else
          RotatedFine(w);
          Prefixed(d.inserted, RefillAll(Rotated(w), size))
  }

  /** What one pass of the refill loop keeps. */
  ghost predicate PassKeeps(s: UserState, end: UserState, inserted: seq<Task>) {
    && end.pool == InsertAll(s.pool, inserted) && |end.pool| == |s.pool| + |inserted| && RealTasks(inserted)
    && end.nrQueued + Total(end.incoming) <= s.nrQueued + Total(s.incoming) && Fine(end)
  }

  lemma DrainPass(s: UserState, size: nat)
    requires Fine(s) && |s.pool| <= size - 1
    ensures PassKeeps(s, DrainAll(s, size).end, DrainAll(s, size).inserted)
    ensures PassKeeps(s, Await(DrainAll(s, size).end), DrainAll(s, size).inserted)
  {
    var d := DrainAll(s, size);
    DrainTakesPrefix(s, size);
    EntriesFollowPolicy(s, size);
    DrainConserves(s, size);
    DrainCountsDown(s, size);
    TakenAreReal(Stream(s), s.minVruntime, d.taken, d.inserted);
    AwaitKeeps(d.end);
  }

  lemma PassesAdd(s: UserState, mid: UserState, end: UserState, a: seq<Task>, b: seq<Task>)
    requires PassKeeps(s, mid, a) && PassKeeps(mid, end, b)
    ensures PassKeeps(s, end, a + b)
  {
    InsertAllConcat(s.pool, a, b);
  }

  /** The refill inserts only; it ends with at least ten tasks, or waiting in vain. It waits in vain with
      fewer than ten tasks, or with a full pool. */
  lemma {:induction false} RefillKeeps(s: UserState, size: nat)
    requires Fine(s) && size > REFILL_GOAL && |s.pool| <= size - 1
    ensures var r := RefillAll(s, size);
      && PassKeeps(s, r.end, r.inserted) && |r.end.pool| <= size - 1
      && (r.ready ==> |r.end.pool| >= 10)
      && (!r.ready ==> r.end.queue == [] && r.end.incoming == [] && |s.pool| < 10
                       && (|r.end.pool| < 10 || |r.end.pool| == size - 1))
      && (|s.pool| >= 10 ==> r == Refilled(s, [], true))
    decreases |s.incoming|, |s.queue|
  {
    if |s.pool| < REFILL_GOAL {
      var d := DrainAll(s, size);
      var w := Await(d.end);
      RefillProgress(s, size);
      DrainPass(s, size);
      DrainConserves(s, size);
      if Returned(d) != 0 {
        RefillKeeps(d.end, size);
        PassesAdd(s, d.end, RefillAll(d.end, size).end, d.inserted, RefillAll(d.end, size).inserted);
      } else if w.queue != [] {
        RotatedFine(w);
        RefillKeeps(Rotated(w), size);
        PassesAdd(s, Rotated(w), RefillAll(Rotated(w), size).end, d.inserted, RefillAll(Rotated(w), size).inserted);
      } else {
        AwaitKeeps(d.end);
      }
    }
  }

  /** A full pool does not stop the loop from waiting: with usable messages only and none to come, it
      waits in vain with a full pool exactly if the messages are as many as there is room for. */
  lemma WaitsWithFullPool(s: UserState, size: nat)
    requires Fine(s) && |s.pool| < 10 < size
    requires s.incoming == [] && forall i :: 0 <= i < |s.queue| ==> Usable(s.queue[i])
    ensures var r := RefillAll(s, size);
      && (!r.ready && |r.end.pool| == size - 1 <==> |s.queue| == size - 1 - |s.pool|)
      && (r.ready <==> |s.pool| + |s.queue| >= 10 && |s.queue| != size - 1 - |s.pool|)
  {
    QuietOutcome(s, size);
    if DrainAll(s, size).exit.Full? { QuietFull(s, size); } else { QuietEmpty(s, size); }
  }

  /** One drain when only usable messages are there and none comes. */
  lemma QuietOutcome(s: UserState, size: nat)
    requires Fine(s) && |s.pool| <= size - 1
    requires s.incoming == [] && forall i :: 0 <= i < |s.queue| ==> Usable(s.queue[i])
    ensures var d, room := DrainAll(s, size), size - 1 - |s.pool|;
      && Fine(d.end) && d.end.incoming == [] && (d.exit.Full? <==> room <= |s.queue|)
      && |d.inserted| == (if room <= |s.queue| then room else |s.queue|)
      && |d.end.queue| == |s.queue| - |d.inserted| && |d.end.pool| == |s.pool| + |d.inserted|
  {
    FullWhenQuiet(s, size);
    DrainTakesPrefix(s, size);
    DrainConserves(s, size);
    QuietDrain(s, size);
  }

  lemma QuietFull(s: UserState, size: nat)
    requires Fine(s) && |s.pool| < 10 < size
    requires var d := DrainAll(s, size);
      d.exit.Full? && Fine(d.end) && d.end.incoming == [] && |d.end.pool| == size - 1
    ensures var d, r := DrainAll(s, size), RefillAll(s, size);
      r.end.pool == d.end.pool && (r.ready <==> d.end.queue != [])
  {
    var end := DrainAll(s, size).end;
    assert Await(end) == end;
    if end.queue != [] { RotatedFine(end); }
  }

  lemma QuietEmpty(s: UserState, size: nat)
    requires Fine(s) && |s.pool| < 10 < size
    requires var d := DrainAll(s, size);
      !d.exit.Full? && Fine(d.end) && d.end.incoming == [] && d.end.queue == [] && |d.end.pool| < size - 1
      && |d.end.pool| == |s.pool| + |d.inserted|
    ensures var d, r := DrainAll(s, size), RefillAll(s, size);
      r.end.pool == d.end.pool && (r.ready <==> |d.end.pool| >= 10)
  {
    var end := DrainAll(s, size).end;
    assert Await(end) == end;
    EmptyRefill(end, size);
  }

  lemma {:induction false} QuietDrain(s: UserState, size: nat)
    requires Fine(s) && |s.pool| <= size - 1
    requires s.incoming == [] && forall i :: 0 <= i < |s.queue| ==> Usable(s.queue[i])
    ensures var d := DrainAll(s, size);
      d.end.incoming == [] && !d.exit.Unusable? && |d.end.queue| == |s.queue| - |d.inserted|
    decreases |s.queue|
  {
    if TakesOne(s, size) { QuietDrain(TakeIn(s).0, size); }
  }

  lemma EmptyRefill(s: UserState, size: nat)
    requires Fine(s) && size > REFILL_GOAL && |s.pool| < size - 1 && s.queue == [] && s.incoming == []
    ensures RefillAll(s, size).ready <==> |s.pool| >= REFILL_GOAL
    ensures RefillAll(s, size).end.pool == s.pool
  {}

  /** A drained pool is sorted if it was, and holds the old entries and the inserted ones. */
  lemma DrainSorted(s: UserState, size: nat)
    requires Fine(s) && |s.pool| <= size - 1 && Sorted(s.pool)
    ensures Sorted(DrainAll(s, size).end.pool)
    ensures multiset(DrainAll(s, size).end.pool) == multiset(s.pool) + multiset(DrainAll(s, size).inserted)
  {
    DrainConserves(s, size);
    InsertAllSorts(s.pool, DrainAll(s, size).inserted);
  }

  /** What is counted before each of the turns to come. */
  function Counts(incoming: seq<Arrival>): (s: seq<nat>)
    ensures |s| == |incoming| && forall i :: 0 <= i < |s| ==> s[i] == incoming[i].counted
  {
    seq(|incoming|, i requires 0 <= i < |incoming| => incoming[i].counted)
  }

  /** Everything the scheduling loop works on. */
  datatype Now = Now(s: UserState, nrScheduled: nat, sent: seq<DispatchedTask>)

  /** One turn of the loop: arrivals, the head is served, and the tasks still pooled are reported if the
      answer could be sent. */
  function TurnOf(now: Now, turn: Turn): Now
    requires now.s.pool != []
  {
    var d := Deliver(now.s);
    Now(d.(pool := now.s.pool[1..]), Report(turn, now.nrScheduled, |now.s.pool| - 1),
        now.sent + Sends(now.s.pool[0].queued, turn, d.nrQueued + now.nrScheduled + 1))
  }

  function BatchOf(now: Now, turns: seq<Turn>): Batch {
    Batch(now.s.pool, turns, now.s.nrQueued, now.nrScheduled, Counts(now.s.incoming))
  }

  /** The counter and the arrivals after n turns. */
  ghost predicate Counting(start: UserState, n: nat, s: UserState) {
    && s.nrQueued == start.nrQueued + CountedUpTo(Counts(start.incoming), n)
    && s.incoming == start.incoming[if n < |start.incoming| then n else |start.incoming|..]
    && s.nrQueued + Total(s.incoming) == start.nrQueued + Total(start.incoming)
    && Stream(s) == Stream(start)
  }

  /** n turns of the batch are done. */
  ghost predicate Served(start: Now, turns: seq<Turn>, n: nat, now: Now) {
    && |turns| >= |start.s.pool| >= n
    && var b := BatchOf(start, turns);
       && now.s.pool == b.tasks[n..] && now.sent == start.sent + Messages(b, n)
       && now.nrScheduled == Reported(b, n) && Counting(start.s, n, now.s)
  }

  /** The arrivals to come after n + 1 turns, and what is counted then. */
  lemma ArrivalsMore(first: seq<Arrival>, n: nat)
    ensures var now := first[if n < |first| then n else |first|..];
      && Rest(now) == first[if n + 1 < |first| then n + 1 else |first|..]
      && CountedUpTo(Counts(first), n + 1) == CountedUpTo(Counts(first), n) + Counted(now)
  {}

  lemma CountingMore(start: UserState, n: nat, s: UserState)
    requires Counting(start, n, s)
    ensures Counting(start, n + 1, Deliver(s))
  {
    DeliverKeeps(s);
    ArrivalsMore(start.incoming, n);
  }

  lemma ServedMore(start: Now, turns: seq<Turn>, n: nat, now: Now)
    requires n < |start.s.pool| && Served(start, turns, n, now)
    ensures now.s.pool != [] && Served(start, turns, n + 1, TurnOf(now, turns[n]))
  {
    CountingMore(start.s, n, now.s);
    MessagesMore(start.sent, BatchOf(start, turns), n);
  }

  lemma ServedBound(start: Now, turns: seq<Turn>, n: nat, now: Now)
    requires Served(start, turns, n, now)
    ensures now.s.nrQueued + Total(now.s.incoming) + now.nrScheduled
            <= start.s.nrQueued + Total(start.s.incoming) + Max(start.nrScheduled, |start.s.pool|)
  {
    ReportedBound(BatchOf(start, turns), n);
  }

  /** The counters cannot overflow while the batch is served, and it holds real tasks only. */
  ghost predicate Affordable(start: Now) {
    && RealTasks(start.s.pool)
    && start.s.nrQueued + Total(start.s.incoming) + Max(start.nrScheduled, |start.s.pool|) + 1 < U64
  }

  lemma TurnReady(start: Now, turns: seq<Turn>, n: nat, now: Now)
    requires Served(start, turns, n, now) && Affordable(start) && now.s.pool != []
    ensures n < |start.s.pool| && n < |turns| && RealTasks(now.s.pool)
    ensures now.s.nrQueued + Total(now.s.incoming) + now.nrScheduled + 1 < U64
    ensures Served(start, turns, n + 1, TurnOf(now, turns[n]))
  {
    ServedBound(start, turns, n, now);
    ServedMore(start, turns, n, now);
    RealTail(start.s.pool, n);
  }

  lemma AllServed(start: Now, turns: seq<Turn>, n: nat, now: Now)
    requires Served(start, turns, n, now) && now.s.pool == []
    ensures var b := BatchOf(start, turns);
      now.sent == start.sent + Messages(b, |b.tasks|) && now.nrScheduled == Reported(b, |b.tasks|)
    ensures Stream(now.s) == Stream(start.s)
  {
    assert n == |start.s.pool|;
  }

  /** The drain has inserted count tasks, and the rest from s gives the whole. */
  ghost predicate StillDraining(s: UserState, size: nat, count: nat, all: Drained) {
    && Fine(s) && DrainAll(s, size).end == all.end && DrainAll(s, size).exit == all.exit
    && count + |DrainAll(s, size).inserted| == |all.inserted|
  }

  lemma DrainPassStep(s: UserState, size: nat, count: nat, all: Drained)
    requires StillDraining(s, size, count, all) && |s.pool| != size - 1
    ensures Fine(Deliver(s))
    ensures var d := Deliver(s);
      if TakesOne(s, size) then
        StillDraining(TakeIn(d).0, size, count + 1, all)
        && (|TakeIn(d).0.incoming| < |s.incoming| || (|TakeIn(d).0.incoming| == |s.incoming| && |TakeIn(d).0.queue| < |s.queue|))
      else !all.exit.Full? && count == |all.inserted| && all.end == if d.queue == [] then d else Discarded(d)
  {
    DeliverKeeps(s);
  }

  class Scheduler {
    const pool: Pool
    var incoming: seq<Arrival>
    var queue: seq<seq<Byte>>
    var nrQueued: nat
    var nrScheduled: nat
    var minVruntime: nat
    var sent: seq<DispatchedTask>

    ghost predicate Valid()
      reads this, pool
    {
      pool.Valid() && Weighted(queue) && AllWeighted(incoming)
    }

    constructor (size: nat, blank: Task, incoming: seq<Arrival>)
      requires size >= 2 && AllWeighted(incoming)
      ensures Valid() && fresh(pool) && fresh(pool.slots) && pool.slots.Length == size
      ensures State() == UserState(incoming, [], 0, 0, []) && nrScheduled == 0 && sent == []
    {
      pool := new Pool(size, blank);
      this.incoming := incoming;
      queue, nrQueued, nrScheduled, minVruntime, sent := [], 0, 0, 0, [];
    }

    ghost function State(): UserState
      requires Valid()
      reads this, pool, pool.slots
    {
      UserState(incoming, queue, nrQueued, minVruntime, pool.Contents())
    }

    /** Time passes between two operations. */
    method Arrive()
      requires Valid()
      modifies `incoming, `queue, `nrQueued
      ensures Valid() && State() == Deliver(old(State()))
    {
      DeliverKeeps(State());
      if incoming != [] {
        queue, nrQueued, incoming := queue + incoming[0].msgs, nrQueued + incoming[0].counted, incoming[1..];
      }
    }

    /** A failed dequeue, an empty channel and an undecodable message all come back as None. */
    method DequeueTask() returns (r: Option<QueuedTask>)
      requires Weighted(queue)
      modifies `queue, `nrQueued
      ensures queue == if old(queue) == [] then [] else old(queue)[1..]
      ensures r.Some? <==> old(queue) != [] && Usable(old(queue)[0])
      ensures r.Some? ==> r == FastDecode(old(queue)[0]) && Chargeable(r.value)
      ensures nrQueued == if old(queue) != [] && FastDecode(old(queue)[0]).Some? && old(nrQueued) > 0
                          then old(nrQueued) - 1 else old(nrQueued)
    {
      if queue == [] {
        return None;
      }
      var data := queue[0];
      assert data in queue;
      queue := queue[1..];
      r := FastDecode(data);
      if r.None? {
        return None;
      }
      if nrQueued > 0 {
        nrQueued := nrQueued - 1;
      }
      if r.value.pid == -1 {
        return None;
      }
    }

    /** The record comes back with its new vruntime, and its deadline beside it. */
    method UpdatedEnqueueTask(t: QueuedTask) returns (t': QueuedTask, deadline: nat)
      requires Chargeable(t)
      modifies `minVruntime
      ensures minVruntime == Max(old(minVruntime), t.vtime)
      ensures Task(t', deadline, 0) == WrappedEntry(minVruntime, t)
    {
      if minVruntime < t.vtime {
        minVruntime := t.vtime;
      }
      var floor := SaturatingSub(minVruntime, SLICE_NS_DEFAULT);
      var v := t.vtime;
      if v == 0 {
        v := (floor + SLICE_NS_DEFAULT * 100 / t.weight) % U64;
      } else if v < floor {
        v := floor;
      }
      v := (v + (t.stopTs - t.startTs) % U64 * t.weight % U64 / 100) % U64;
      t' := t.(vtime := v);
      deadline := (v + Min(t.sumExecRuntime, SLICE_NS_DEFAULT * 100)) % U64;
    }

    /** One pass of the drain loop: messages may arrive, then the oldest one is taken in. */
    method TakeMessage() returns (ok: bool)
      requires Valid() && |pool.Contents()| < pool.slots.Length - 1
      modifies `incoming, `queue, `nrQueued, `minVruntime, pool, pool.slots
      ensures Valid()
      ensures ok <==> Deliver(old(State())).queue != [] && Usable(Deliver(old(State())).queue[0])
      ensures var d := Deliver(old(State()));
        Weighted(d.queue) && State() == if ok then TakeIn(d).0 else if d.queue == [] then d else Discarded(d)
    {
      Arrive();
      ghost var d := State();
      var r := DequeueTask();
      if r.None? {
        return false;
      }
      var t, deadline := UpdatedEnqueueTask(r.value);
      var inserted := pool.InsertTask(Task(t, deadline, 0));
      assert inserted;
      assert State() == TakeIn(d).0;
      return true;
    }

    /** The result is the number of inserted tasks, except that a full pool always reports 0. */
    method DrainQueuedTask() returns (count: nat)
      requires Valid()
      modifies `incoming, `queue, `nrQueued, `minVruntime, pool, pool.slots
      ensures Valid()
      ensures State() == DrainAll(old(State()), pool.slots.Length).end
      ensures count == Returned(DrainAll(old(State()), pool.slots.Length))
    {
      ghost var size, all := pool.slots.Length, DrainAll(State(), pool.slots.Length);
      count := 0;
      var full := pool.IsFull();
      while !full
        invariant Valid() && full == (|pool.Contents()| == size - 1)
        invariant StillDraining(State(), size, count, all)
        decreases |incoming|, |queue|, !full
      {
        DrainPassStep(State(), size, count, all);
        var ok := TakeMessage();
        if !ok {
          return count;
        }
        count := count + 1;
        full := pool.IsFull();
      }
      return 0;
    }

    /** Peeking is done by taking a message out and putting it back, which rotates the channel. */
    method ReadyForDequeue() returns (ready: bool)
      modifies `queue
      ensures ready <==> old(queue) != []
      ensures multiset(queue) == multiset(old(queue))
      ensures Weighted(old(queue)) ==> Weighted(queue)
      ensures queue == if ready then old(queue)[1..] + [old(queue)[0]] else old(queue)
    {
      if queue == [] {
        return false;
      }
      var t := queue[0];
      assert queue == [t] + queue[1..];
      queue := queue[1..] + [t];
      return true;
    }

    method WaitForMessage()
      requires Valid()
      modifies `incoming, `queue, `nrQueued
      ensures Valid() && State() == Await(old(State()))
    {
      ghost var end := Await(State());
      while queue == [] && incoming != []
        invariant Valid() && Await(State()) == end
        decreases |incoming|
      {
        Arrive();
      }
    }

    /** Waiting for a message, then the same. ready is false when none ever comes. */
    method BlockTilReadyForDequeue() returns (ready: bool)
      requires Valid()
      modifies `incoming, `queue, `nrQueued
      ensures Valid()
      ensures ready <==> Stream(old(State())) != []
      ensures var end := Await(old(State()));
        if ready then end.queue != [] && State() == Rotated(end) else State() == end && end.queue == []
    {
      AwaitKeeps(State());
      WaitForMessage();
      ready := ReadyForDequeue();
    }

    /** The refill loop; ready is false when it waits for messages that never come. The ghost result
        lists what it inserted, in order. */
    method Refill() returns (ready: bool, ghost inserted: seq<Task>)
      requires Valid() && pool.slots.Length > REFILL_GOAL
      modifies `incoming, `queue, `nrQueued, `minVruntime, pool, pool.slots
      ensures Valid()
      ensures Refilled(State(), inserted, ready) == RefillAll(old(State()), pool.slots.Length)
    {
      ghost var size, all := pool.slots.Length, RefillAll(State(), pool.slots.Length);
      inserted := [];
      while pool.count < REFILL_GOAL
        invariant Valid()
        invariant StillToDo(State(), size, inserted, all)
        decreases |incoming|, |queue|
      {
        ghost var before := State();
        ghost var d := DrainAll(before, size);
        RefillProgress(before, size);
        PassStep(before, size, inserted, all);
        var num := DrainQueuedTask();
        inserted := inserted + d.inserted;
        if num == 0 {
          var come := BlockTilReadyForDequeue();
          if !come {
            return false, inserted;
          }
        }
      }
      return true, inserted;
    }

    method TimeSlice() returns (slice: nat)
      requires nrQueued + nrScheduled + 1 < U64
      ensures slice == Slice(nrQueued + nrScheduled + 1)
    {
      var nrWaiting := (nrQueued + nrScheduled + 1) % U64;
      slice := Max(SLICE_NS_DEFAULT / nrWaiting, SLICE_NS_MIN);
    }

    /** The answer for one task: search, slice, send, report. */
    method Answer(t: QueuedTask, turn: Turn)
      requires nrQueued + nrScheduled + 1 < U64
      modifies `sent, `nrScheduled
      ensures sent == old(sent) + Sends(t, turn, nrQueued + old(nrScheduled) + 1)
      ensures nrScheduled == Report(turn, old(nrScheduled), pool.count)
    {
      var selected := SelectCpu(turn.search);
      var slice := TimeSlice();
      if !turn.sendOk {
        return;
      }
      sent := sent + [DispatchedTask(t.pid, selected.cpu, t.flags, slice, t.vtime, 0)];
      nrScheduled := pool.count;
    }

    ghost function Here(): Now
      requires Valid()
      reads this, pool, pool.slots
    {
      Now(State(), nrScheduled, sent)
    }

    /** The head of the pool is taken and answered. */
    method ServeHead(turn: Turn)
      requires Valid() && pool.Contents() != [] && RealTasks(pool.Contents())
      requires nrQueued + nrScheduled + 1 < U64
      modifies `sent, `nrScheduled, pool
      ensures Valid() && pool.Contents() == old(pool.Contents())[1..]
      ensures nrScheduled == Report(turn, old(nrScheduled), |pool.Contents()|)
      ensures sent == old(sent) + Sends(old(pool.Contents())[0].queued, turn, nrQueued + old(nrScheduled) + 1)
    {
      var r := pool.GetTask();
      if r.Some? && r.value.pid != -1 {
        Answer(r.value, turn);
      }
    }

    /** One turn of the scheduling loop on a non-empty pool: serve the head with the slice computed from
        what is waiting now, and, if the answer could be sent, report the tasks still pooled. */
    method ServeNext(turn: Turn)
      requires Valid() && pool.Contents() != [] && RealTasks(pool.Contents())
      requires nrQueued + Total(incoming) + nrScheduled + 1 < U64
      modifies `incoming, `queue, `nrQueued, `sent, `nrScheduled, pool
      ensures Valid() && Here() == TurnOf(old(Here()), turn)
    {
      DeliverKeeps(State());
      Arrive();
      ServeHead(turn);
    }

    /** Between two refills the loop serves the whole pool, head first. */
    method ServeAll(turns: seq<Turn>)
      requires Valid() && |turns| >= |pool.Contents()| && RealTasks(pool.Contents())
      requires nrQueued + Total(incoming) + nrScheduled + pool.slots.Length < U64
      modifies `incoming, `queue, `nrQueued, `sent, `nrScheduled, pool
      ensures Valid() && pool.Contents() == [] && Stream(State()) == Stream(old(State()))
      ensures var b := BatchOf(old(Here()), turns);
        sent == old(sent) + Messages(b, |b.tasks|) && nrScheduled == Reported(b, |b.tasks|)
    {
      ghost var start := Here();
      ServeLoop(turns, start);
      AllServed(start, turns, |start.s.pool|, Here());
    }

    method ServeLoop(turns: seq<Turn>, ghost start: Now)
      requires Valid() && start == Here() && |turns| >= |start.s.pool| && Affordable(start)
      modifies `incoming, `queue, `nrQueued, `sent, `nrScheduled, pool
      ensures Valid() && Served(start, turns, |start.s.pool|, Here())
    {
      var n := 0;
      while pool.count > 0
        invariant 0 <= n && Valid() && Served(start, turns, n, Here())
        decreases |start.s.pool| - n
      {
        TurnReady(start, turns, n, Here());
        ServeNext(turns[n]);
        n := n + 1;
      }
      assert n == |start.s.pool|;
    }

    /** One whole round of the scheduling loop, from an empty pool to an empty pool. What the refill
        inserted is served as one sorted batch of at least 10 tasks; mid is the state in between, and
        turns gives the outcomes of searches and sends. Waiting in vain, it sends nothing. */
    method Round(turns: seq<Turn>)
      returns (ready: bool, ghost inserted: seq<Task>, ghost mid: UserState)
      requires Valid() && pool.slots.Length > REFILL_GOAL && pool.Contents() == []
      requires |turns| >= pool.slots.Length
      requires nrQueued + Total(incoming) + nrScheduled + pool.slots.Length < U64
      modifies `incoming, `queue, `nrQueued, `minVruntime, `sent, `nrScheduled, pool, pool.slots
      ensures Valid() && RealTasks(inserted)
      ensures !ready ==> sent == old(sent) && pool.Contents() == InsertAll([], inserted)
      ensures ready ==>
                && Sorted(mid.pool) && multiset(mid.pool) == multiset(inserted)
                && 10 <= |mid.pool| == |inserted| <= pool.slots.Length - 1
                && pool.Contents() == []
                && var b := BatchOf(Now(mid, old(nrScheduled), old(sent)), turns);
                   sent == old(sent) + Messages(b, |b.tasks|) && nrScheduled == Reported(b, |b.tasks|)
    {
      RefillKeeps(State(), pool.slots.Length);
      ready, inserted := Refill();
      mid := State();
      if ready {
        RoundIsSortedBatch(inserted, pool.slots.Length);
        ServeAll(turns);
      }
    }
  }

  /** The refill has inserted done so far, and the rest from s gives the whole. */
  ghost predicate StillToDo(s: UserState, size: nat, done: seq<Task>, all: Refilled) {
    Fine(s) && size > REFILL_GOAL && all == Prefixed(done, RefillAll(s, size))
  }

  lemma PassStep(s: UserState, size: nat, done: seq<Task>, all: Refilled)
    requires StillToDo(s, size, done, all) && |s.pool| < REFILL_GOAL
    ensures var d := DrainAll(s, size);
      if Returned(d) != 0 then StillToDo(d.end, size, done + d.inserted, all)
      else var w := Await(d.end);
           if w.queue == [] then all == Refilled(w, done + d.inserted, false)
           else StillToDo(Rotated(w), size, done + d.inserted, all)
  {
    var d := DrainAll(s, size);
    RefillProgress(s, size);
    var w := Await(d.end);
    if Returned(d) != 0 {
      PrefixedTwice(done, d.inserted, RefillAll(d.end, size));
    } else if w.queue != [] {
      RotatedFine(w);
      PrefixedTwice(done, d.inserted, RefillAll(Rotated(w), size));
    }
  }

  predicate RealTasks(batch: seq<Task>) {
    forall i :: 0 <= i < |batch| ==> batch[i].queued.pid != -1
  }

  lemma RealTail(batch: seq<Task>, n: nat)
    requires RealTasks(batch) && n <= |batch|
    ensures RealTasks(batch[n..])
  {}

  lemma TakenAreReal(stream: seq<seq<Byte>>, m: nat, taken: seq<QueuedTask>, inserted: seq<Task>)
    requires Decodes(stream, taken) && Explained(m, taken, inserted)
    ensures RealTasks(inserted)
  {
    forall i | 0 <= i < |inserted| ensures inserted[i].queued.pid != -1 {
      assert inserted[i] == WrappedEntry(AdvanceAll(m, taken[..i + 1]), taken[i]);
    }
  }

  lemma {:induction false} InsertAllConcat(s: seq<Task>, a: seq<Task>, b: seq<Task>)
    ensures InsertAll(s, a + b) == InsertAll(InsertAll(s, a), b)
    decreases |a|
  {
    if a == [] {
      assert a + b == b;
    } else {
      InsertAllConcat(Insert(s, a[0]), a[1..], b);
      assert (a + b)[1..] == a[1..] + b;
    }
  }

  /** One round of the loop: starting from an empty pool, whatever a successful refill inserted is
      served as a sorted permutation of between 10 and size - 1 tasks. */
  lemma RoundIsSortedBatch(inserted: seq<Task>, size: nat)
    requires REFILL_GOAL <= |InsertAll([], inserted)| <= size - 1
    requires RealTasks(inserted)
    ensures var batch := InsertAll([], inserted);
      && Sorted(batch) && RealTasks(batch)
      && (forall i, j :: 0 <= i < j < |batch| ==> KeysInOrder(batch[i], batch[j]))
      && multiset(batch) == multiset(inserted)
      && 10 <= |batch| == |inserted| <= size - 1
  {
    InsertAllSorts([], inserted);
    var batch := InsertAll([], inserted);
    SortedByKeys(batch);
    forall i | 0 <= i < |batch| ensures batch[i].queued.pid != -1 {
      assert batch[i] in multiset(batch);
    }
  }
}
