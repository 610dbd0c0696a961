/** Serving a batch of pooled tasks: searches, slices, sends, and what is reported to the backend. */
module Serving {
  import opened Words
  import opened TaskPool
  import opened Vruntime
  import opened Layout

  /** What asking for a CPU returns. */
  datatype Selected = Selected(err: bool, cpu: S32)

  /** The CPU the backend returned, or "any" when the signed result was negative; CPU 0 beside an error
      when the search did not run at all. */
  function SelectCpu(search: Option<nat>): Selected {
    match search
    case None => Selected(true, 0)
    case Some(retVal) => Selected(false, if retVal > S32_MAX then RL_CPU_ANY else retVal)
  }

  /** One turn of the loop: the outcome of the search, and whether the answer can be sent. */
  datatype Turn = Turn(search: Option<nat>, sendOk: bool)

  /** The message sent for t. */
  function Outgoing(t: QueuedTask, search: Option<nat>, slice: nat): DispatchedTask {
    DispatchedTask(t.pid, SelectCpu(search).cpu, t.flags, slice, t.vtime, 0)
  }

  /** What one turn sends for t when that many tasks wait: nothing if sending fails. */
  function Sends(t: QueuedTask, turn: Turn, waiting: nat): seq<DispatchedTask>
    requires waiting > 0
  {
    if turn.sendOk then [Outgoing(t, turn.search, Slice(waiting))] else []
  }

  /** nr_scheduled after a turn that left pooled tasks in the pool: the loop reports only after a send. */
  function Report(turn: Turn, nrScheduled: nat, pooled: nat): nat {
    if turn.sendOk then pooled else nrScheduled
  }

  /** A batch: the tasks in order, a turn for each, both counters at the start, and the messages counted
      before each turn. */
  datatype Batch = Batch(tasks: seq<Task>, turns: seq<Turn>, nrQueued: nat, nrScheduled: nat, counts: seq<nat>)

  predicate Complete(b: Batch) { |b.turns| >= |b.tasks| }

  /** Messages counted before turn n - 1 ends. */
  function CountedUpTo(counts: seq<nat>, n: nat): nat {
    if n == 0 then 0 else CountedUpTo(counts, n - 1) + if n <= |counts| then counts[n - 1] else 0
  }

  /** nr_scheduled after n turns. */
  function Reported(b: Batch, n: nat): nat
    requires Complete(b) && n <= |b.tasks|
  {
    if n == 0 then b.nrScheduled else Report(b.turns[n - 1], Reported(b, n - 1), |b.tasks| - n)
  }

  lemma {:induction false} ReportedBound(b: Batch, n: nat)
    requires Complete(b) && n <= |b.tasks|
    ensures Reported(b, n) <= Max(b.nrScheduled, |b.tasks|)
  {
    if n > 0 { ReportedBound(b, n - 1); }
  }

  /** The tasks the loop takes to be waiting at turn i, the served one included. */
  function Waiting(b: Batch, i: nat): nat
    requires Complete(b) && i < |b.tasks|
  {
    b.nrQueued + CountedUpTo(b.counts, i + 1) + Reported(b, i) + 1
  }

  /** The messages of the first n turns. */
  function Messages(b: Batch, n: nat): seq<DispatchedTask>
    requires Complete(b) && n <= |b.tasks|
  {
    if n == 0 then [] else Messages(b, n - 1) + Sends(b.tasks[n - 1].queued, b.turns[n - 1], Waiting(b, n - 1))
  }

  lemma MessagesMore(before: seq<DispatchedTask>, b: Batch, n: nat)
    requires Complete(b) && n < |b.tasks|
    ensures before + Messages(b, n + 1) == before + Messages(b, n) + Sends(b.tasks[n].queued, b.turns[n], Waiting(b, n))
  {
    Associate(before, Messages(b, n), Sends(b.tasks[n].queued, b.turns[n], Waiting(b, n)));
  }

  lemma Associate<T>(a: seq<T>, b: seq<T>, c: seq<T>)
    ensures a + (b + c) == a + b + c
  {}

  /** The tasks of the first n turns whose answers were sent, or not. */
  function Chosen(b: Batch, ok: bool, n: nat): seq<Task>
    requires Complete(b) && n <= |b.tasks|
  {
    if n == 0 then []
    else if b.turns[n - 1].sendOk == ok then Chosen(b, ok, n - 1) + [b.tasks[n - 1]]
    else Chosen(b, ok, n - 1)
  }

  lemma OneMore(all: seq<Task>, t: Task, yes: seq<Task>, no: seq<Task>)
    requires multiset(all) == multiset(yes) + multiset(no)
    ensures multiset(all + [t]) == multiset(yes + [t]) + multiset(no) == multiset(yes) + multiset(no + [t])
  {}

  /** Each task is answered or dropped, exactly once. */
  lemma {:induction false} AnsweredOrDropped(b: Batch, n: nat)
    requires Complete(b) && n <= |b.tasks|
    ensures multiset(b.tasks[..n]) == multiset(Chosen(b, true, n)) + multiset(Chosen(b, false, n))
  {
    if n > 0 {
      AnsweredOrDropped(b, n - 1);
      OneMore(b.tasks[..n - 1], b.tasks[n - 1], Chosen(b, true, n - 1), Chosen(b, false, n - 1));
      assert b.tasks[..n] == b.tasks[..n - 1] + [b.tasks[n - 1]];
    }
  }

  /** The message carries the task's identity, the policy's vruntime and an allowed slice. */
  predicate Answers(m: DispatchedTask, t: Task) {
    && m.pid == t.queued.pid && m.vtime == t.queued.vtime && m.flags == t.queued.flags
    && SLICE_NS_MIN <= m.sliceNs <= SLICE_NS_DEFAULT
  }

  /** The answered tasks get one message each, in batch order. */
  lemma {:induction false} MessagesFollowBatch(b: Batch, n: nat)
    requires Complete(b) && n <= |b.tasks|
    ensures var ms, ts := Messages(b, n), Chosen(b, true, n);
      |ms| == |ts| && forall i :: 0 <= i < |ms| ==> Answers(ms[i], ts[i])
  {
    if n > 0 {
      MessagesFollowBatch(b, n - 1);
      SliceBounds(Waiting(b, n - 1), Waiting(b, n - 1));
    }
  }

  ghost predicate AllSent(b: Batch) { forall i :: 0 <= i < |b.turns| ==> b.turns[i].sendOk }

  /** If every send succeeds, message i is the one for task i, with the CPU of its own search and the
      slice for the tasks waiting at its turn: the messages counted by then, the tasks still pooled (at
      first, what was reported last), and this one. */
  lemma {:induction false} SlicesFollowBacklog(b: Batch, n: nat, i: nat)
    requires Complete(b) && i < n <= |b.tasks| && AllSent(b)
    ensures |Messages(b, n)| == n
    ensures [Messages(b, n)[i]] == Sends(b.tasks[i].queued, b.turns[i], Waiting(b, i))
    ensures Waiting(b, i) == b.nrQueued + CountedUpTo(b.counts, i + 1) + (if i == 0 then b.nrScheduled else |b.tasks| - i) + 1
  {
    if n > 1 {
      SlicesFollowBacklog(b, n - 1, if i < n - 1 then i else 0);
    }
  }

  /** The same message in numbers: who, how long, and where. */
  lemma MessageExactly(b: Batch, n: nat, i: nat)
    requires Complete(b) && i < n <= |b.tasks| && AllSent(b)
    ensures |Messages(b, n)| == n
    ensures var m, t := Messages(b, n)[i], b.tasks[i].queued;
      var waiting := b.nrQueued + CountedUpTo(b.counts, i + 1) + (if i == 0 then b.nrScheduled else |b.tasks| - i) + 1;
      && m.pid == t.pid && m.vtime == t.vtime && m.flags == t.flags && m.cpuMaskCnt == 0
      && (waiting <= 10 ==> m.sliceNs * waiting <= 5_000_000 < (m.sliceNs + 1) * waiting)
      && (waiting >= 10 ==> m.sliceNs == 500_000)
      && m.cpu == match b.turns[i].search
                  case None => 0
                  case Some(found) => if found > 2_147_483_647 then 1_048_576 else found
  {
    SlicesFollowBacklog(b, n, i);
    SliceExactly(Waiting(b, i));
  }

  /** nr_scheduled is the number of tasks that were still pooled at the last successful send. */
  lemma {:induction false} ReportedIsLastSuccess(b: Batch, n: nat, i: nat)
    requires Complete(b) && i < n <= |b.tasks| && b.turns[i].sendOk
    requires forall j :: i < j < n ==> !b.turns[j].sendOk
    ensures Reported(b, n) == |b.tasks| - 1 - i
  {
    if i < n - 1 { ReportedIsLastSuccess(b, n - 1, i); }
  }
}
