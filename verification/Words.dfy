/** Machine words, the constants shared by both halves of the scheduler, and the stock Option type. */
module Words {

  datatype Option<+T> = None | Some(value: T)

  const U64 := 0x1_0000_0000_0000_0000
  const U32 := 0x1_0000_0000
  const S32_MAX := 0x7fff_ffff

  /** Largest CPU count the backend supports; also the first id after the per-CPU DSQs. */
  const MAX_CPUS := 1024
  const SHARED_DSQ := MAX_CPUS
  const SCHED_DSQ := MAX_CPUS + 1

  /** "No particular CPU" in a message from user space. */
  const RL_CPU_ANY := 0x10_0000

  const MAX_ENQUEUED_TASKS := 4096

  const ENOENT := 2
  const ENOMEM := 12
  const EBUSY := 16
  const EEXIST := 17
  const EINVAL := 22

  /** A 64-bit unsigned value. */
  predicate IsU64(x: int) { 0 <= x < U64 }

  /** Signed 32 bits: pids and CPU numbers. */
  type S32 = x: int | -0x8000_0000 <= x <= 0x7fff_ffff

  /** Conversion of any integer to 32 bits, read back as signed. */
  function ToS32(x: int): S32 {
    var w := x % U32;
    if w > S32_MAX then w - U32 else w
  }

  function Min(a: int, b: int): int { if a < b then a else b }

  function Max(a: int, b: int): int { if a < b then b else a }

  /** Some member of a nonempty set. */
  ghost function Member<T>(s: set<T>): (x: T)
    requires s != {}
    ensures x in s
  {
    var x :| x in s; x
  }

  method Choose<T>(s: set<T>) returns (x: T)
    requires s != {}
    ensures x in s
  {
    x :| x in s;
  }
}
