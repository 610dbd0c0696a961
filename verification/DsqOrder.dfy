/** The order inside the DSQs: least vruntime first, over every run of the backend. */
module DsqOrder {
  import opened Words
  import opened Layout
  import opened Kernel
  import opened World

  /** Two entries of the same per-CPU or shared DSQ. */
  predicate SameDsq(e: Entry, f: Entry) { e.spot == f.spot && e.spot.Custom? && e.spot.id != SCHED_DSQ }

  ghost predicate Ordered(board: seq<Entry>) {
    forall i, j :: 0 <= i < j < |board| && SameDsq(board[i], board[j]) ==> board[i].vtime <= board[j].vtime
  }

  lemma {:induction false} PlaceSeparates(board: seq<Entry>, spot: Spot, vtime: nat)
    ensures var p := PlaceFor(board, spot, vtime);
      && (forall i :: 0 <= i < p && board[i].spot == spot ==> board[i].vtime <= vtime)
      && (p < |board| ==> board[p].spot == spot && vtime < board[p].vtime)
  {
    if board != [] && !(board[0].spot == spot && vtime < board[0].vtime) {
      PlaceSeparates(board[1..], spot, vtime);
      assert forall i :: 0 < i < |board| ==> board[i] == board[1..][i - 1];
    }
  }

  lemma InsertKeeps(board: seq<Entry>, p: nat, e: Entry)
    requires Ordered(board) && p <= |board|
    requires forall i :: 0 <= i < p && SameDsq(board[i], e) ==> board[i].vtime <= e.vtime
    requires forall i :: p <= i < |board| && SameDsq(e, board[i]) ==> e.vtime <= board[i].vtime
    ensures Ordered(InsertAt(board, p, e))
  {
    var b := InsertAt(board, p, e);
    forall i, j | 0 <= i < j < |b| && SameDsq(b[i], b[j]) ensures b[i].vtime <= b[j].vtime {
      if i != p && j != p {
        assert b[i] == board[if i < p then i else i - 1] && b[j] == board[if j < p then j else j - 1];
      }
    }
  }

  /** Ordered insertion goes behind all entries of its DSQ that are not larger. */
  lemma VtimeKeeps(k: Kernel, pid: S32, id: nat, vtime: nat)
    requires Ordered(k.board) && pid in k.tasks
    ensures Ordered(InsertVtime(k, pid, Custom(id), vtime).board)
  {
    var p, e := PlaceFor(k.board, Custom(id), vtime), Entry(Custom(id), pid, vtime, false);
    PlaceSeparates(k.board, Custom(id), vtime);
    forall i | p <= i < |k.board| && SameDsq(e, k.board[i]) ensures vtime <= k.board[i].vtime {
      assert i == p || SameDsq(k.board[p], k.board[i]);
    }
    InsertKeeps(k.board, p, e);
  }

  /** Local queues and the scheduler's DSQ are not ordered by vruntime. */
  lemma HeadKeeps(k: Kernel, pid: S32, spot: Spot)
    requires Ordered(k.board) && (spot.Local? || spot.id == SCHED_DSQ)
    ensures Ordered(InsertHead(k, pid, spot).board)
  {
    InsertKeeps(k.board, 0, Entry(spot, pid, 0, true));
  }

  lemma RemoveKeeps(board: seq<Entry>, p: nat)
    requires Ordered(board) && p < |board|
    ensures Ordered(RemoveAt(board, p))
  {
    var b := RemoveAt(board, p);
    forall i, j | 0 <= i < j < |b| && SameDsq(b[i], b[j]) ensures b[i].vtime <= b[j].vtime {
      assert b[i] == board[if i < p then i else i + 1] && b[j] == board[if j < p then j else j + 1];
    }
  }

  lemma EnqueueKeeps(c: Config, k: Kernel, pid: S32, flags: nat, ch: Choice)
    requires Ordered(k.board) && pid in c.attrs && pid in k.tasks
    ensures Ordered(EnqueueTask(c, k, pid, flags, ch).board)
  {
    match EnqueueRoute(c, k, pid, ch)
    case Ignored =>
    case ToSched => HeadKeeps(k, pid, Custom(SCHED_DSQ));
    case ToCpu(cpu) => VtimeKeeps(k, pid, CpuToDsq(cpu), k.tasks[pid].vtime);
    case ToUser =>
      var k1 := PriorityInsert(k, pid, ch);
      HeadKeeps(k, pid, Local(PriorityCpu(k, pid, ch)));
      assert Ordered(k1.board) && k1.tasks == k.tasks;
      VtimeKeeps(k1, pid, SHARED_DSQ, k1.tasks[pid].vtime);
  }

  lemma DispatchKeeps(c: Config, k: Kernel, m: DispatchedTask)
    requires Ordered(k.board) && (m.pid in k.tasks ==> m.pid in c.attrs)
    ensures Ordered(DispatchTask(c, k, m).board)
  {
    if m.pid in k.tasks {
      VtimeKeeps(k, m.pid, SHARED_DSQ, m.vtime);
      VtimeKeeps(k, m.pid, CpuToDsq(m.cpu), m.vtime);
    }
  }

  lemma MoveKeeps(c: Config, k: Kernel, cpu: S32, id: nat)
    requires Ordered(k.board)
    ensures Ordered(MoveToLocal(c, k, cpu, id).board)
  {
    var i := FirstMovable(c, k.board, cpu, id);
    if i < |k.board| { RemoveKeeps(k.board, i); }
  }

  lemma StepKeeps(c: Config, w: World, e: Event)
    requires Ordered(w.k.board) && Enabled(c, w, e)
    ensures Ordered(Apply(c, w, e).k.board)
  {
    match e
    case Enqueue(pid, flags, ch) => EnqueueKeeps(c, w.k, pid, flags, ch);
    case Select(pid, pick, _) => VtimeKeeps(w.k, pid, CpuToDsq(pick), w.k.tasks[pid].vtime);
    case Drain => DispatchKeeps(c, w.k.(sent := w.k.sent[1..]), w.k.sent[0]);
    case Fire => HeadKeeps(w.k, c.usersched, Custom(SCHED_DSQ));
    case Move(cpu, id) => MoveKeeps(c, w.k, cpu, id);
    case Run(cpu) => RemoveKeeps(w.k.board, FirstLocal(w.k.board, cpu));
    case Requeue(pid) => HeadKeeps(w.k, pid, Local(w.k.tasks[pid].cpu));
    case _ =>
  }

  lemma {:induction false} OrderedAlways(c: Config, ws: seq<World>, es: seq<Event>, n: nat)
    requires IsRun(c, ws, es) && n < |ws|
    ensures Ordered(ws[n].k.board)
  {
    if n > 0 {
      OrderedAlways(c, ws, es, n - 1);
      assert Follows(c, ws, es, n - 1);
      StepKeeps(c, ws[n - 1], es[n - 1]);
    }
  }

  predicate Movable(c: Config, e: Entry, cpu: S32, id: nat) {
    e.spot == Custom(id) && e.pid in c.attrs && cpu in c.attrs[e.pid].allowed
  }

  lemma {:induction false} FirstMovableIsFirst(c: Config, board: seq<Entry>, cpu: S32, id: nat)
    ensures forall j :: 0 <= j < FirstMovable(c, board, cpu, id) ==> !Movable(c, board[j], cpu, id)
  {
    if board != [] && !Movable(c, board[0], cpu, id) {
      FirstMovableIsFirst(c, board[1..], cpu, id);
      assert forall j :: 0 < j < |board| ==> board[j] == board[1..][j - 1];
    }
  }

  /** In every reachable state, a CPU that takes a task from its own or the shared DSQ gets the one with
      the least vruntime among those of that DSQ that may run on it, and the one waiting longest among
      equals; if it gets none, there is none. */
  lemma MoveTakesLeast(c: Config, ws: seq<World>, es: seq<Event>, n: nat, cpu: S32, id: nat, j: nat)
    requires IsRun(c, ws, es) && n < |ws| && id != SCHED_DSQ
    requires j < |ws[n].k.board| && Movable(c, ws[n].k.board[j], cpu, id)
    ensures var b, i := ws[n].k.board, FirstMovable(c, ws[n].k.board, cpu, id);
      && i <= j && Movable(c, b[i], cpu, id) && b[i].vtime <= b[j].vtime
      && MoveToLocal(c, ws[n].k, cpu, id).board
         == RemoveAt(b, i) + [Entry(Local(cpu), b[i].pid, b[i].vtime, true)]
  {
    OrderedAlways(c, ws, es, n);
    var b, i := ws[n].k.board, FirstMovable(c, ws[n].k.board, cpu, id);
    FirstMovableIsFirst(c, b, cpu, id);
    assert i < |b|;
    assert i == j || SameDsq(b[i], b[j]);
  }
}
