/** The byte layouts that cross the kernel boundary: Go's encoder and decoder against the C structs. */
module Layout {
  import opened Words
  import opened TaskPool

  type Byte = x: int | 0 <= x < 256

  /** The message user space sends back for every task it has scheduled. */
  datatype DispatchedTask = DispatchedTask(
    pid: S32, cpu: S32, flags: nat, sliceNs: nat, vtime: nat, cpuMaskCnt: nat)

  function Pow256(n: nat): nat { if n == 0 then 1 else 256 * Pow256(n - 1) }

  /** The n little-endian bytes of x. */
  function ToBytes(x: nat, n: nat): (b: seq<Byte>)
    ensures |b| == n
  {
    if n == 0 then [] else [x % 256] + ToBytes(x / 256, n - 1)
  }

  function FromBytes(b: seq<Byte>): nat {
    if b == [] then 0 else b[0] + 256 * FromBytes(b[1..])
  }

  lemma {:induction false} BytesRoundTrip(x: nat, n: nat)
    requires x < Pow256(n)
    ensures FromBytes(ToBytes(x, n)) == x
  {
    if n > 0 {
      assert x / 256 < Pow256(n - 1);
      BytesRoundTrip(x / 256, n - 1);
      assert ToBytes(x, n)[1..] == ToBytes(x / 256, n - 1);
    }
  }

  /** The bytes of a word, least significant first, in numbers. */
  lemma LittleEndian(b: seq<Byte>)
    ensures |b| == 4 ==> FromBytes(b) == b[0] as int + 0x100 * b[1] as int + 0x1_0000 * b[2] as int + 0x100_0000 * b[3] as int
    ensures |b| == 8 ==> FromBytes(b) == FromBytes(b[..4]) + 0x1_0000_0000 * FromBytes(b[4..])
  {
    if |b| == 4 {
      FourBytes(b);
    } else if |b| == 8 {
      FourBytes(b[..4]);
      FourBytes(b[4..]);
      EightBytes(b);
    }
  }

  lemma FourBytes(b: seq<Byte>)
    requires |b| >= 4
    ensures FromBytes(b) == b[0] as int + 0x100 * b[1] as int + 0x1_0000 * b[2] as int + 0x100_0000 * b[3] as int + 0x1_0000_0000 * FromBytes(b[4..])
  {
    assert b[1..][1..] == b[2..] && b[2..][1..] == b[3..] && b[3..][1..] == b[4..];
  }

  lemma EightBytes(b: seq<Byte>)
    requires |b| == 8
    ensures FromBytes(b) == FromBytes(b[..4]) + 0x1_0000_0000 * FromBytes(b[4..])
  {
    FourBytes(b);
    FourBytes(b[..4]);
    assert b[..4][4..] == [];
  }

  lemma WordSizes()
    ensures Pow256(4) == U32 && Pow256(8) == U64
  {
    assert Pow256(2) == 0x1_0000;
    assert Pow256(4) == 0x1_0000 * Pow256(2);
    assert Pow256(6) == 0x1_0000 * Pow256(4);
  }

  /** Signed 32-bit values survive the trip through their unsigned image. */
  lemma SignedRoundTrip(x: S32)
    ensures ToS32(x % U32) == x
  {}

  // ---- the C side: natural alignment ----

  /** Field widths that occur in the two structs. */
  type Width = w: nat | w == 4 || w == 8 witness 4

  function Align(offset: nat, width: Width): nat {
    if width == 8 then (offset + 7) / 8 * 8 else (offset + 3) / 4 * 4
  }

  /** Offset of field k in a C struct whose fields have the given widths. */
  function Offset(widths: seq<Width>, k: nat): nat
    requires k < |widths|
  {
    if k == 0 then 0 else Align(Offset(widths, k - 1) + widths[k - 1], widths[k])
  }

  ghost predicate FieldHolds(mem: seq<Byte>, widths: seq<Width>, values: seq<nat>, k: nat)
    requires k < |widths| == |values|
  {
    var at := Offset(widths, k);
    at + widths[k] <= |mem| && mem[at..at + widths[k]] == ToBytes(values[k], widths[k])
  }

  /** The first n fields of the struct image at mem have these values; padding is unspecified. */
  ghost predicate Image(mem: seq<Byte>, widths: seq<Width>, values: seq<nat>, n: nat)
    requires n <= |widths| == |values|
  {
    forall k :: 0 <= k < n ==> FieldHolds(mem, widths, values, k)
  }

  lemma {:induction false} FieldsDoNotOverlap(widths: seq<Width>, i: nat, k: nat)
    requires i < k < |widths|
    ensures Offset(widths, i) + widths[i] <= Offset(widths, k)
  {
    if i < k - 1 { FieldsDoNotOverlap(widths, i, k - 1); }
  }

  /** Fields that lie below end survive any change above it. */
  lemma SliceOfPrefix(m: seq<Byte>, m': seq<Byte>, end: nat, from: nat, to: nat)
    requires from <= to <= end <= |m| && end <= |m'| && m'[..end] == m[..end]
    ensures m'[from..to] == m[from..to]
  {
    assert m[from..to] == m[..end][from..to];
    assert m'[from..to] == m'[..end][from..to];
  }

  lemma FieldSurvives(mem: seq<Byte>, mem': seq<Byte>, end: nat, widths: seq<Width>, values: seq<nat>, k: nat)
    requires k < |widths| == |values| && FieldHolds(mem, widths, values, k)
    requires Offset(widths, k) + widths[k] <= end <= |mem| && end <= |mem'|
    requires mem'[..end] == mem[..end]
    ensures FieldHolds(mem', widths, values, k)
  {
    SliceOfPrefix(mem, mem', end, Offset(widths, k), Offset(widths, k) + widths[k]);
  }

  lemma ImageExtend(mem: seq<Byte>, mem': seq<Byte>, widths: seq<Width>, values: seq<nat>, k: nat)
    requires k < |widths| == |values| && Image(mem, widths, values, k)
    requires Offset(widths, k) <= |mem| && Offset(widths, k) <= |mem'|
    requires mem'[..Offset(widths, k)] == mem[..Offset(widths, k)]
    requires FieldHolds(mem', widths, values, k)
    ensures Image(mem', widths, values, k + 1)
  {
    forall i | 0 <= i < k ensures FieldHolds(mem', widths, values, i) {
      FieldsDoNotOverlap(widths, i, k);
      FieldSurvives(mem, mem', Offset(widths, k), widths, values, i);
    }
  }

  /** Reading field k of an image at its offset returns its value. */
  lemma ReadField(mem: seq<Byte>, widths: seq<Width>, values: seq<nat>, n: nat, k: nat)
    requires k < n <= |widths| == |values| && Image(mem, widths, values, n)
    requires values[k] < Pow256(widths[k])
    ensures Offset(widths, k) + widths[k] <= |mem|
    ensures FromBytes(mem[Offset(widths, k)..Offset(widths, k) + widths[k]]) == values[k]
  {
    assert FieldHolds(mem, widths, values, k);
    BytesRoundTrip(values[k], widths[k]);
  }

  /** struct queued_task_ctx: pid, cpu, nr_cpus_allowed, flags, start_ts, stop_ts, exec_runtime,
      weight, vtime, tgid, and the trailing padding that rounds its size to 72. */
  const QUEUED_WIDTHS: seq<Width> := [4, 4, 8, 8, 8, 8, 8, 8, 8, 4]
  const QUEUED_SIZE := 72

  /** struct dispatched_task_ctx: pid, cpu, flags, slice_ns, vtime. */
  const DISPATCHED_WIDTHS: seq<Width> := [4, 4, 8, 8, 8]

  function QueuedValues(t: QueuedTask): (v: seq<nat>)
    ensures |v| == |QUEUED_WIDTHS|
  {
    [t.pid % U32, t.cpu % U32, t.nrCpusAllowed, t.flags, t.startTs, t.stopTs,
     t.sumExecRuntime, t.weight, t.vtime, t.tgid % U32]
  }

  predicate Representable(t: QueuedTask) {
    && IsU64(t.nrCpusAllowed) && IsU64(t.flags) && IsU64(t.startTs) && IsU64(t.stopTs)
    && IsU64(t.sumExecRuntime) && IsU64(t.weight) && IsU64(t.vtime)
  }

  /** Field k of a dispatched message, as the C side reads it. */
  function CField(mem: seq<Byte>, k: nat): nat
    requires k < |DISPATCHED_WIDTHS|
    requires Offset(DISPATCHED_WIDTHS, k) + DISPATCHED_WIDTHS[k] <= |mem|
  {
    var o := Offset(DISPATCHED_WIDTHS, k);
    FromBytes(mem[o..o + DISPATCHED_WIDTHS[k]])
  }

  lemma QueuedOffsets()
    ensures forall k :: 0 <= k < |QUEUED_WIDTHS| ==>
      Offset(QUEUED_WIDTHS, k) == [0, 4, 8, 16, 24, 32, 40, 48, 56, 64][k]
  {
    var w := QUEUED_WIDTHS;
    assert Offset(w, 1) == 4;
    assert Offset(w, 2) == 8;
    assert Offset(w, 3) == 16;
    assert Offset(w, 4) == 24;
    assert Offset(w, 5) == 32;
    assert Offset(w, 6) == 40;
    assert Offset(w, 7) == 48;
    assert Offset(w, 8) == 56;
    assert Offset(w, 9) == 64;
  }

  lemma DispatchedOffsets()
    ensures forall k :: 0 <= k < |DISPATCHED_WIDTHS| ==>
      Offset(DISPATCHED_WIDTHS, k) == [0, 4, 8, 16, 24][k]
  {
    var w := DISPATCHED_WIDTHS;
    assert Offset(w, 1) == 4;
    assert Offset(w, 2) == 8;
    assert Offset(w, 3) == 16;
    assert Offset(w, 4) == 24;
  }

  // ---- the Go side ----

  /** None stands for the length error. */
  function FastDecode(data: seq<Byte>): Option<QueuedTask> {
    if |data| < QUEUED_SIZE then None
    else Some(QueuedTask(
      ToS32(FromBytes(data[0..4])), ToS32(FromBytes(data[4..8])), FromBytes(data[8..16]),
      FromBytes(data[16..24]), FromBytes(data[24..32]), FromBytes(data[32..40]),
      FromBytes(data[40..48]), FromBytes(data[48..56]), FromBytes(data[56..64]),
      ToS32(FromBytes(data[64..68]))))
  }

  /** The offsets Go slices at are the C offsets. */
  lemma GoField(mem: seq<Byte>, t: QueuedTask, k: nat, at: nat, width: Width)
    requires Representable(t) && Image(mem, QUEUED_WIDTHS, QueuedValues(t), |QUEUED_WIDTHS|)
    requires k < |QUEUED_WIDTHS| && width == QUEUED_WIDTHS[k]
    requires at == [0, 4, 8, 16, 24, 32, 40, 48, 56, 64][k]
    ensures at + width <= |mem| && FromBytes(mem[at..at + width]) == QueuedValues(t)[k]
  {
    QueuedOffsets();
    WordSizes();
    ReadField(mem, QUEUED_WIDTHS, QueuedValues(t), |QUEUED_WIDTHS|, k);
  }

  /** Go decodes exactly the record the kernel wrote, for every representable record, whatever the
      padding; anything shorter than the struct is an error. */
  lemma DecodeInvertsLayout(mem: seq<Byte>, t: QueuedTask)
    requires Representable(t) && Image(mem, QUEUED_WIDTHS, QueuedValues(t), |QUEUED_WIDTHS|)
    ensures FastDecode(mem) == if |mem| >= 72 then Some(t) else None
  {
    GoField(mem, t, 0, 0, 4);
    GoField(mem, t, 1, 4, 4);
    GoField(mem, t, 2, 8, 8);
    GoField(mem, t, 3, 16, 8);
    GoField(mem, t, 4, 24, 8);
    GoField(mem, t, 5, 32, 8);
    GoField(mem, t, 6, 40, 8);
    GoField(mem, t, 7, 48, 8);
    GoField(mem, t, 8, 56, 8);
    GoField(mem, t, 9, 64, 4);
    SignedRoundTrip(t.pid);
    SignedRoundTrip(t.cpu);
    SignedRoundTrip(t.tgid);
  }

  /** Where each field of a queued record lies, in numbers. */
  lemma QueuedFields(mem: seq<Byte>, t: QueuedTask)
    requires Representable(t) && Image(mem, QUEUED_WIDTHS, QueuedValues(t), |QUEUED_WIDTHS|)
    ensures |mem| >= 68
    ensures ToS32(FromBytes(mem[0..4])) == t.pid && ToS32(FromBytes(mem[4..8])) == t.cpu
    ensures FromBytes(mem[8..16]) == t.nrCpusAllowed && FromBytes(mem[16..24]) == t.flags
    ensures FromBytes(mem[24..32]) == t.startTs && FromBytes(mem[32..40]) == t.stopTs
    ensures FromBytes(mem[40..48]) == t.sumExecRuntime && FromBytes(mem[48..56]) == t.weight
    ensures FromBytes(mem[56..64]) == t.vtime && ToS32(FromBytes(mem[64..68])) == t.tgid
  {
    GoField(mem, t, 0, 0, 4);
    GoField(mem, t, 1, 4, 4);
    GoField(mem, t, 2, 8, 8);
    GoField(mem, t, 3, 16, 8);
    GoField(mem, t, 4, 24, 8);
    GoField(mem, t, 5, 32, 8);
    GoField(mem, t, 6, 40, 8);
    GoField(mem, t, 7, 48, 8);
    GoField(mem, t, 8, 56, 8);
    GoField(mem, t, 9, 64, 4);
    SignedRoundTrip(t.pid);
    SignedRoundTrip(t.cpu);
    SignedRoundTrip(t.tgid);
  }

  /** Write the low n bytes of x at data[at..]. */
  method PutUint(data: array<Byte>, at: nat, x: nat, n: nat)
    requires at + n <= data.Length
    modifies data
    ensures data[..at] == old(data[..at])
    ensures data[at..at + n] == ToBytes(x, n)
    decreases n
  {
    if n > 0 {
      data[at] := x % 256;
      PutUint(data, at + 1, x / 256, n - 1);
      assert data[at] == data[..at + 1][at];
      assert data[at..at + n] == [data[at]] + data[at + 1..at + n];
      assert data[..at] == data[..at + 1][..at];
    }
  }

  function DispatchedValues(t: DispatchedTask): (v: seq<nat>)
    ensures |v| == |DISPATCHED_WIDTHS|
  {
    [t.pid % U32, t.cpu % U32, t.flags, t.sliceNs, t.vtime]
  }

  /** The encoder writes an image of the C struct, plus one trailing word the C side never reads. */
  method FastEncode(t: DispatchedTask) returns (data: array<Byte>)
    ensures fresh(data) && data.Length == 64
    ensures Image(data[..], DISPATCHED_WIDTHS, DispatchedValues(t), 5)
    ensures data[32..40] == ToBytes(t.cpuMaskCnt, 8)
  {
    DispatchedOffsets();
    ghost var w, v := DISPATCHED_WIDTHS, DispatchedValues(t);
    data := new Byte[64](_ => 0);
    ghost var m0 := data[..];
    PutUint(data, 0, t.pid % U32, 4);
    ghost var m1 := data[..];
    ImageExtend(m0, m1, w, v, 0);
    PutUint(data, 4, t.cpu % U32, 4);
    ghost var m2 := data[..];
    ImageExtend(m1, m2, w, v, 1);
    PutUint(data, 8, t.flags, 8);
    ghost var m3 := data[..];
    ImageExtend(m2, m3, w, v, 2);
    PutUint(data, 16, t.sliceNs, 8);
    ghost var m4 := data[..];
    ImageExtend(m3, m4, w, v, 3);
    PutUint(data, 24, t.vtime, 8);
    ghost var m5 := data[..];
    ImageExtend(m4, m5, w, v, 4);
    PutUint(data, 32, t.cpuMaskCnt, 8);
    forall k | 0 <= k < 5 ensures FieldHolds(data[..], w, v, k) {
      FieldSurvives(m5, data[..], 32, w, v, k);
    }
  }

  /** The kernel reads back the five fields user space wrote. */
  lemma EncodeReadsBack(mem: seq<Byte>, t: DispatchedTask)
    requires Image(mem, DISPATCHED_WIDTHS, DispatchedValues(t), 5)
    requires IsU64(t.flags) && IsU64(t.sliceNs) && IsU64(t.vtime)
    ensures forall k :: 0 <= k < 5 ==> Offset(DISPATCHED_WIDTHS, k) + DISPATCHED_WIDTHS[k] <= |mem|
    ensures ToS32(CField(mem, 0)) == t.pid && ToS32(CField(mem, 1)) == t.cpu
    ensures CField(mem, 2) == t.flags && CField(mem, 3) == t.sliceNs && CField(mem, 4) == t.vtime
    ensures ToS32(FromBytes(mem[0..4])) == t.pid && ToS32(FromBytes(mem[4..8])) == t.cpu
    ensures FromBytes(mem[8..16]) == t.flags && FromBytes(mem[16..24]) == t.sliceNs
    ensures FromBytes(mem[24..32]) == t.vtime
  {
    DispatchedOffsets();
    WordSizes();
    var w, v := DISPATCHED_WIDTHS, DispatchedValues(t);
    ReadField(mem, w, v, 5, 0);
    ReadField(mem, w, v, 5, 1);
    ReadField(mem, w, v, 5, 2);
    ReadField(mem, w, v, 5, 3);
    ReadField(mem, w, v, 5, 4);
    SignedRoundTrip(t.pid);
    SignedRoundTrip(t.cpu);
  }
}
