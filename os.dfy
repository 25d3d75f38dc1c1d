/**
 * The operating-system calls the window layer makes, as data.
 *
 * Nothing here performs a call: every call the model needs is replaced by
 * an outcome that the caller supplies (an oracle), and every call the
 * model makes is recorded as a `Sys` value in a trace so that its order
 * can be stated.
 */
module Os {

  /** An unsigned 32-bit C integer (`uint32_t`). */
  type U32 = x: int | 0 <= x < 0x1_0000_0000

  /** A signed 32-bit C integer (`int32_t`). */
  type I32 = x: int | -0x8000_0000 <= x < 0x8000_0000

  /** A non-NULL address. NULL is written 0 wherever an address may be NULL. */
  type Addr = a: nat | 0 < a witness 1

  /** The 32-bit unsigned value a C integer converts to (two's complement wrap). */
  function ToU32(x: int): (r: U32)
    ensures 0 <= x < 0x1_0000_0000 ==> r == x
    ensures (r - x) % 0x1_0000_0000 == 0
  {
    x % 0x1_0000_0000
  }

  /** The signed 32-bit value a C integer converts to (two's complement wrap). */
  function ToI32(x: int): (r: I32)
    ensures -0x8000_0000 <= x < 0x8000_0000 ==> r == x
    ensures (r - x) % 0x1_0000_0000 == 0
  {
    var u := ToU32(x);
    if u < 0x8000_0000 then u else u - 0x1_0000_0000
  }

  /** Converting an unsigned value to signed and back gives it back. */
  lemma {:induction false} U32RoundTrip(u: U32)
    ensures ToU32(ToI32(u)) == u
  {
  }

  /** The values of `errno` the code distinguishes. */
  datatype Errno = EEXIST | EINTR | OtherErrno(code: nat)

  /** What `shm_open` returns: a descriptor, or -1 with `errno` set. */
  datatype OpenOutcome = Opened(fd: nat) | OpenFailed(errno: Errno)

  /** What `ftruncate` returns: 0, or -1 with `errno` set. */
  datatype TruncOutcome = Truncated | TruncFailed(errno: Errno)

  /** What `mmap` returns: an address, or MAP_FAILED. */
  datatype MapOutcome = Mapped(addr: Addr) | MapFailed

  /** A system call as it appears in a trace. Names are the bytes of the C array handed to the call. */
  datatype Sys =
    | ShmOpen(name: seq<char>)
    | ShmUnlink(name: seq<char>)
    | Ftruncate(fd: int, size: nat)
    | Close(fd: int)
    | MmapCall(size: nat, fd: int, offset: nat)
    | MunmapCall(addr: nat, size: nat)
}
