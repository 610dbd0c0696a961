/** The task pool of main.go: a circular array kept as a stable sorted priority queue. */
module TaskPool {
  import opened Words

  /** The record the backend sends for every task it wants scheduled. */
  datatype QueuedTask = QueuedTask(
    pid: S32, cpu: S32, nrCpusAllowed: nat, flags: nat, startTs: nat, stopTs: nat,
    sumExecRuntime: nat, weight: nat, vtime: nat, tgid: S32)

  /** A pooled task: the record, its deadline, and a timestamp the policy leaves at zero. */
  datatype Task = Task(queued: QueuedTask, deadline: nat, timestamp: nat)

  predicate Less(a: Task, b: Task) {
    if a.deadline != b.deadline then a.deadline < b.deadline
    else if a.timestamp != b.timestamp then a.timestamp < b.timestamp
    else a.queued.pid < b.queued.pid
  }

  ghost predicate Sorted(s: seq<Task>) {
    forall i, j :: 0 <= i < j < |s| ==> !Less(s[j], s[i])
  }

  /** Index of the first entry greater than t, or |s|. */
  function FirstGreater(s: seq<Task>, t: Task): (k: nat)
    ensures k <= |s|
    ensures forall i :: 0 <= i < k ==> !Less(t, s[i])
    ensures k < |s| ==> Less(t, s[k])
  {
    if s == [] then 0
    else if Less(t, s[0]) then 0
    else 1 + FirstGreater(s[1..], t)
  }

  /** The sequence the circular array refines: insertion before the first greater entry. */
  function Insert(s: seq<Task>, t: Task): seq<Task> {
    var k := FirstGreater(s, t);
    s[..k] + [t] + s[k..]
  }

  function InsertAll(s: seq<Task>, ts: seq<Task>): seq<Task>
    decreases |ts|
  {
    if ts == [] then s else InsertAll(Insert(s, ts[0]), ts[1..])
  }

  /** In a sorted sequence the insertion point separates the entries that are not greater than t,
      equals included, from the entries that are greater. */
  lemma InsertionPoint(s: seq<Task>, t: Task)
    requires Sorted(s)
    ensures forall i :: 0 <= i < |s| ==> (i < FirstGreater(s, t) <==> !Less(t, s[i]))
    ensures forall i :: FirstGreater(s, t) <= i < |s| ==> !Less(s[i], t)
  {
    var k := FirstGreater(s, t);
    forall i | k <= i < |s| ensures Less(t, s[i]) && !Less(s[i], t) {
      assert i == k || !Less(s[i], s[k]);
    }
  }

  /** The order in numbers: by deadline, then timestamp, then pid, and the earlier entry first. */
  ghost predicate KeysInOrder(a: Task, b: Task) {
    || a.deadline < b.deadline
    || (a.deadline == b.deadline && a.timestamp < b.timestamp)
    || (a.deadline == b.deadline && a.timestamp == b.timestamp && a.queued.pid <= b.queued.pid)
  }

  /** Sorted means exactly: any two entries have their keys in order. */
  lemma SortedByKeys(s: seq<Task>)
    ensures Sorted(s) <==> forall i, j :: 0 <= i < j < |s| ==> KeysInOrder(s[i], s[j])
  {
    forall i, j | 0 <= i < j < |s| ensures Less(s[j], s[i]) <==> !KeysInOrder(s[i], s[j]) {}
  }

  /** A new entry goes behind exactly those whose keys are in order before it; an equal key stays ahead. */
  lemma InsertionByKeys(s: seq<Task>, t: Task)
    requires Sorted(s)
    ensures forall i :: 0 <= i < |s| ==> (i < FirstGreater(s, t) <==> KeysInOrder(s[i], t))
  {
    InsertionPoint(s, t);
  }

  lemma InsertAdds(s: seq<Task>, t: Task)
    ensures multiset(Insert(s, t)) == multiset(s) + multiset{t}
  {
    var k := FirstGreater(s, t);
    assert multiset(s) == multiset(s[..k]) + multiset(s[k..]) by { assert s == s[..k] + s[k..]; }
  }

  /** Insertion keeps the order and adds exactly t. */
  lemma InsertKeepsOrder(s: seq<Task>, t: Task)
    requires Sorted(s)
    ensures Sorted(Insert(s, t))
    ensures multiset(Insert(s, t)) == multiset(s) + multiset{t}
  {
    var k, r := FirstGreater(s, t), Insert(s, t);
    InsertionPoint(s, t);
    forall i, j | 0 <= i < j < |r| ensures !Less(r[j], r[i]) {
      if i == k {
        assert r[j] == s[j - 1];
      } else if j == k {
        assert r[i] == s[i];
      } else {
        assert r[i] == s[if i < k then i else i - 1];
        assert r[j] == s[if j < k then j else j - 1];
      }
    }
    InsertAdds(s, t);
  }

  /** A sorted sequence has only one place for t that keeps it sorted and after its equals. */
  lemma InsertIsUnique(s: seq<Task>, t: Task, j: nat)
    requires Sorted(s) && j <= |s|
    requires forall i :: 0 <= i < j ==> !Less(t, s[i])
    requires forall i :: j <= i < |s| ==> Less(t, s[i])
    ensures Insert(s, t) == s[..j] + [t] + s[j..]
  {
    var k := FirstGreater(s, t);
    assert j < |s| ==> Less(t, s[j]);
    assert k == j;
  }

  lemma {:induction false} InsertAllSorts(s: seq<Task>, ts: seq<Task>)
    requires Sorted(s)
    ensures Sorted(InsertAll(s, ts))
    ensures multiset(InsertAll(s, ts)) == multiset(s) + multiset(ts)
    ensures |InsertAll(s, ts)| == |s| + |ts|
    decreases |ts|
  {
    if ts == [] {
      assert multiset(ts) == multiset{};
    } else {
      var s' := Insert(s, ts[0]);
      InsertKeepsOrder(s, ts[0]);
      InsertAllSorts(s', ts[1..]);
      assert multiset(ts) == multiset{ts[0]} + multiset(ts[1..]) by { assert ts == [ts[0]] + ts[1..]; }
    }
  }

  lemma {:induction false} InsertAllAppend(s: seq<Task>, ts: seq<Task>, t: Task)
    ensures InsertAll(s, ts + [t]) == Insert(InsertAll(s, ts), t)
    decreases |ts|
  {
    if ts == [] {
      assert ts + [t] == [t] && [t][1..] == [];
    } else {
      InsertAllAppend(Insert(s, ts[0]), ts[1..], t);
      assert (ts + [t])[1..] == ts[1..] + [t];
    }
  }

  /** Position of logical entry i of a circular array of n slots. */
  function Slot(head: nat, i: nat, n: nat): (p: nat)
    requires head < n && i < n
    ensures p < n
  {
    if head + i < n then head + i else head + i - n
  }

  lemma SlotBefore(head: nat, c: nat, n: nat)
    requires head < n && 0 < c < n
    ensures var back := Slot(head, c, n) - 1 + n;
      Slot(head, c - 1, n) == if back < n then back else back - n
    ensures Slot(head, c - 1, n) != Slot(head, c, n)
  {}

  lemma ModOnce(x: nat, n: nat)
    requires 0 < n && x < 2 * n
    ensures x % n == if x < n then x else x - n
  {
    if x >= n {
      assert x == n * 1 + (x - n);
      assert (x - n) % n == x - n;
    }
  }

  /** The count entries from position head on, read around the end of the array. */
  ghost function Window(a: seq<Task>, head: nat, count: nat): (s: seq<Task>)
    requires head < |a| && count <= |a|
    ensures |s| == count
    ensures forall i :: 0 <= i < count ==> s[i] == a[Slot(head, i, |a|)]
  {
    seq(count, i requires 0 <= i < count => a[Slot(head, i, |a|)])
  }

  /** Writing one slot changes one logical position: slots of different positions differ. */
  lemma WindowUpdate(a: seq<Task>, head: nat, c: nat, x: Task)
    requires head < |a| && c < |a|
    ensures Window(a[Slot(head, c, |a|) := x], head, |a|) == Window(a, head, |a|)[c := x]
  {}

  /** Entries k.. of was have moved one place on, leaving position k free. */
  ghost predicate GapAt(all: seq<Task>, was: seq<Task>, k: nat) {
    && k <= |was| < |all|
    && (forall j :: 0 <= j < k ==> all[j] == was[j])
    && (forall j :: k < j <= |was| ==> all[j] == was[j - 1])
  }

  lemma GapMoves(all: seq<Task>, was: seq<Task>, c: nat)
    requires 0 < c && GapAt(all, was, c)
    ensures GapAt(all[c := was[c - 1]], was, c - 1)
  {}

  /** The same in the array: the slot before the gap is copied into it. */
  lemma GapStep(a: seq<Task>, head: nat, was: seq<Task>, c: nat)
    requires head < |a| && 0 < c < |a| && GapAt(Window(a, head, |a|), was, c)
    ensures GapAt(Window(a[Slot(head, c, |a|) := a[Slot(head, c - 1, |a|)]], head, |a|), was, c - 1)
  {
    var x := a[Slot(head, c - 1, |a|)];
    assert x == was[c - 1];
    GapMoves(Window(a, head, |a|), was, c);
    WindowUpdate(a, head, c, x);
  }

  lemma GapCloses(all: seq<Task>, was: seq<Task>, k: nat, t: Task)
    requires GapAt(all, was, k)
    ensures all[k := t][..|was| + 1] == was[..k] + [t] + was[k..]
  {
    var w, r := all[k := t][..|was| + 1], was[..k] + [t] + was[k..];
    forall i | 0 <= i < |w| ensures w[i] == r[i] {
      if i > k { assert r[i] == was[i - 1]; }
    }
  }

  class Pool {
    const slots: array<Task>
    var head: nat
    var tail: nat
    var count: nat

    ghost predicate Valid()
      reads this
    {
      && slots.Length >= 2
      && head < slots.Length
      && count <= slots.Length - 1
      && tail == Slot(head, count, slots.Length)
    }

    ghost function Contents(): (s: seq<Task>)
      requires Valid()
      reads this, slots
      ensures |s| == count
    {
      Window(slots[..], head, count)
    }

    constructor (size: nat, blank: Task)
      requires size >= 2
      ensures Valid() && Contents() == [] && slots.Length == size && fresh(slots)
    {
      slots := new Task[size](_ => blank);
      head, tail, count := 0, 0, 0;
    }

    /** Every index of the pool is reduced modulo its size. */
    method Wrap(x: nat) returns (r: nat)
      requires 0 < slots.Length && x < 2 * slots.Length
      ensures r == if x < slots.Length then x else x - slots.Length
    {
      ModOnce(x, slots.Length);
      r := x % slots.Length;
    }

    /** The loop guard of the drain: full means exactly one slot is left unused. */
    method IsFull() returns (full: bool)
      requires Valid()
      ensures full <==> |Contents()| == slots.Length - 1
    {
      var next := Wrap(tail + 1);
      full := next == head;
    }

    /** First loop of the insertion: the slot of the first entry greater than t, or the tail. */
    method FindSlot(t: Task) returns (insertIdx: nat)
      requires Valid()
      ensures insertIdx == Slot(head, FirstGreater(Contents(), t), slots.Length)
    {
      var n := slots.Length;
      ghost var k := FirstGreater(Contents(), t);
      insertIdx := tail;
      var i := 0;
      while i < count
        invariant 0 <= i <= k && i <= count
        invariant insertIdx == tail
      {
        var idx := Wrap(head + i);
        assert slots[idx] == Contents()[i];
        if Less(t, slots[idx]) {
          return idx;
        }
        i := i + 1;
      }
    }

    /** One shift: the entry before the gap moves into it. */
    method ShiftOne(cur: nat, ghost c: nat, ghost was: seq<Task>) returns (next: nat)
      requires slots.Length >= 2 && head < slots.Length && 0 < c < slots.Length && cur == Slot(head, c, slots.Length)
      requires GapAt(Window(slots[..], head, slots.Length), was, c)
      modifies slots
      ensures next == Slot(head, c - 1, slots.Length)
      ensures GapAt(Window(slots[..], head, slots.Length), was, c - 1)
    {
      var n := slots.Length;
      next := Wrap(cur - 1 + n);
      SlotBefore(head, c, n);
      GapStep(slots[..], head, was, c);
      ghost var moved := slots[..][cur := slots[next]];
      slots[cur] := slots[next];
      assert slots[..] == moved;
    }

    /** Second loop: move the entries from logical position k on one slot towards the tail. */
    method OpenGap(insertIdx: nat, ghost k: nat)
      requires Valid() && count < slots.Length - 1
      requires k <= count && insertIdx == Slot(head, k, slots.Length)
      modifies slots
      ensures GapAt(Window(slots[..], head, slots.Length), old(Contents()), k)
    {
      var cur := tail;
      ghost var c, was := count, Contents();
      while cur != insertIdx
        invariant k <= c <= count && cur == Slot(head, c, slots.Length)
        invariant GapAt(Window(slots[..], head, slots.Length), was, c)
        decreases c
      {
        cur := ShiftOne(cur, c, was);
        c := c - 1;
      }
    }

    method InsertTask(t: Task) returns (ok: bool)
      requires Valid()
      modifies this, slots
      ensures Valid()
      ensures ok <==> |old(Contents())| < slots.Length - 1
      ensures Contents() == if ok then Insert(old(Contents()), t) else old(Contents())
    {
      var n := slots.Length;
      ghost var was := Contents();
      ghost var k := FirstGreater(was, t);
      if count >= n - 1 {
        return false;
      }
      var insertIdx := FindSlot(t);
      OpenGap(insertIdx, k);
      GapCloses(Window(slots[..], head, n), was, k, t);
      WindowUpdate(slots[..], head, k, t);
      slots[insertIdx] := t;
      tail := Wrap(tail + 1);
      count := count + 1;
      assert Contents() == Window(slots[..], head, n)[..count];
      return true;
    }

    /** Serving: the head of the sequence leaves, nothing else moves. */
    method GetTask() returns (r: Option<QueuedTask>)
      requires Valid()
      modifies this
      ensures Valid()
      ensures r == if old(Contents()) == [] then None else Some(old(Contents())[0].queued)
      ensures Contents() == if old(Contents()) == [] then [] else old(Contents())[1..]
    {
      if head == tail {
        assert count == 0;
        return None;
      }
      var t := slots[head];
      head := Wrap(head + 1);
      count := count - 1;
      return Some(t.queued);
    }
  }
}
