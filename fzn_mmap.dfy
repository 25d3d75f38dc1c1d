/**
 * The older mapping helpers: `fzn_mmap` returns a handle by value and
 * `fzn_munmap` releases the mapping a handle points to.
 *
 * They differ from the `fzn_mmap_new`/`fzn_mmap_unmap` pair of FznStd in
 * two ways the model keeps: a failed map yields the handle {NULL, 0}
 * instead of leaving the caller's handle alone, and `fzn_munmap` clears
 * the address even when `munmap` fails. What `munmap` returns is a
 * parameter; `perror` output is not modelled.
 */
module FznMmap {
  import opened Os
  import FznStd

  /** `struct fzn_mmap_handle`; address 0 is NULL. */
  datatype Handle = Handle(addr: nat, size: nat)

  /** The value `munmap` returns. */
  function MunmapResult(ok: bool): int
  {
    if ok then 0 else -1
  }

  /** fzn_mmap: the handle of a fresh mapping, or {NULL, 0} when mmap fails. */
  function Map(size: nat, prot: int, flags: int, fd: int, offset: nat, outcome: MapOutcome): (h: Handle)
    ensures h.addr == 0 <==> outcome.MapFailed?
    ensures outcome.MapFailed? ==> h == Handle(0, 0)
    ensures outcome.Mapped? ==> h.addr == outcome.addr && h.size == size
  {
    match outcome
    case MapFailed => Handle(0, 0)
    case Mapped(a) => Handle(a, size)
  }

  /** The behaviour of fzn_munmap on `*handle`: the new handle, the value
      returned, and the munmap call made (none for a NULL handle). */
  function Unmapped(h: Handle, munmapOk: bool): (r: (Handle, int, seq<Sys>))
    ensures r.0 == Handle(0, h.size)
    ensures r.1 == 0 || r.1 == -1
    ensures r.1 == 0 <==> h.addr == 0 || munmapOk
    ensures h.addr == 0 <==> r.2 == []
    ensures h.addr != 0 ==> r.2 == [MunmapCall(h.addr, h.size)]
  {
    if h.addr == 0 then (h, 0, [])
    else (h.(addr := 0), MunmapResult(munmapOk), [MunmapCall(h.addr, h.size)])
  }

  /** Releasing twice is harmless: the second call makes no munmap call and returns 0. */
  lemma UnmapTwice(h: Handle, ok1: bool, ok2: bool)
    ensures var once := Unmapped(h, ok1).0;
      Unmapped(once, ok2) == (once, 0, [])
  {
  }

  /** A failed fzn_munmap forgets the address, so the mapping can no longer
      be released through the handle, whereas fzn_mmap_unmap keeps it. */
  lemma FailedUnmapForgetsAddress(h: Handle)
    requires h.addr != 0
    ensures Unmapped(h, false).1 == -1 && Unmapped(h, false).0.addr == 0
    ensures Unmapped(Unmapped(h, false).0, true).2 == []
    ensures FznStd.MmapUnmapped(FznStd.Mmap(h.addr, h.size), false).0.addr == h.addr
  {
  }

  /** The storage a `struct fzn_mmap_handle *` points to. */
  class HandleRef {
    var addr: nat
    var size: nat

    /** The struct value stored here. */
    function Value(): Handle
      reads this
    {
      Handle(addr, size)
    }

    /** A handle variable initialised with a value, as `handle = fzn_mmap(..)`. */
    constructor (v: Handle)
      ensures Value() == v
    {
      addr, size := v.addr, v.size;
    }

    /** fzn_munmap(handle) */
    method Munmap(munmapOk: bool) returns (res: int, calls: seq<Sys>)
      modifies this
      ensures (Value(), res, calls) == Unmapped(old(Value()), munmapOk)
    {
      if addr == 0 {
        return 0, [];
      }
      calls := [MunmapCall(addr, size)];
      res := MunmapResult(munmapOk);
      addr := 0;
    }
  }
}
