/**
 * The window of the Wayland layer: its configure handshake, its shared
 * memory pool and single back buffer, frame drawing, and the main loop's
 * exit condition.
 *
 * `WindowState` is the value of `struct twl_window`; `Window` is the
 * struct itself, updated in place by one method per callback. Every
 * request the window sends to the compositor, and every system call made
 * on its behalf, is appended to `log`, so that the order of effects can be
 * stated. Wayland objects are numbered: each object the window creates
 * gets the next number, and 0 stands for NULL. A call to `panic` ends the
 * process; it is modelled as the `Panic` status with the state reached
 * when it happens. The page size and every system call outcome are
 * parameters.
 */
module Wayland {
  import opened Os
  import opened Bits
  import opened Shm
  import FznStd

  // ---------------------------------------------------------------------
  // align_to_pagesize

  /** The number of values of a 64-bit `size_t`. */
  const SizeRange: nat := 0x1_0000_0000_0000_0000

  /** `~x` on a 64-bit `size_t`. */
  function Not64(x: nat): (r: nat)
    requires x < SizeRange
    ensures r < SizeRange && r + x == SizeRange - 1
  {
    SizeRange - 1 - x
  }

  /** `(size + page_size - 1) & ~(page_size - 1)`: the mask as written,
      with the facts about it that hold when page_size is a power of two. */
  function AlignToPageSize(size: nat, pageSize: nat): (r: nat)
    requires IsPowerOfTwo(pageSize)
    requires size + pageSize - 1 < SizeRange
    ensures r % pageSize == 0
    ensures size <= r < size + pageSize
  {
    var x := size + pageSize - 1;
    Pow64IsPowerOfTwo();
    MaskClearsLowBits(x, pageSize, SizeRange);
    RoundDown(x, pageSize);
    BitAnd(x, Not64(pageSize - 1))
  }

  /** The aligned size is the smallest multiple of the page size not below size. */
  lemma AlignIsSmallest(size: nat, pageSize: nat, m: nat)
    requires IsPowerOfTwo(pageSize) && size + pageSize - 1 < SizeRange
    requires m % pageSize == 0 && size <= m
    ensures AlignToPageSize(size, pageSize) <= m
  {
    var r := AlignToPageSize(size, pageSize);
    if m < r {
      MultiplesApart(pageSize, r, m);
    }
  }

  /** The mask needs a power of two: with a page size of 3, a size of 1
      rounds to 1, which is not a multiple of 3. */
  lemma MaskNeedsPowerOfTwo()
    ensures !IsPowerOfTwo(3)
    ensures BitAnd(1 + 3 - 1, Not64(3 - 1)) == 1
  {
    var m := Not64(2);
    assert m % 2 == 1 && (m / 2) % 2 == 0;
    calc {
      BitAnd(3, m);
      2 * BitAnd(1, m / 2) + 1;
      { assert BitAnd(1, m / 2) == 2 * BitAnd(0, m / 4) + 0; }
      1;
    }
  }

  /** What `getpagesize` may return: a positive `int` that is a power of two. */
  predicate PageSizeOk(pageSize: nat)
  {
    IsPowerOfTwo(pageSize) && pageSize < 0x8000_0000
  }

  // ---------------------------------------------------------------------
  // Buffer geometry, in uint32_t arithmetic

  /** `uint32_t stride = width * 4`. */
  function Stride(width: U32): U32
  {
    ToU32(width * 4)
  }

  /** `buffer_size = align_to_pagesize(stride * height)`, stored back into a uint32_t. */
  function BufferSize(width: U32, height: U32, pageSize: nat): U32
    requires PageSizeOk(pageSize)
  {
    ToU32(AlignToPageSize(ToU32(Stride(width) * height), pageSize))
  }

  /** `uint32_t pool_size = buffer_size * num_buffers` with two buffers. */
  function PoolSize(bufferSize: U32): U32
  {
    ToU32(bufferSize * 2)
  }

  /** The geometry fits 32 bits: twice the aligned frame size is below 2^32. */
  predicate Fits(width: U32, height: U32, pageSize: nat)
    requires PageSizeOk(pageSize)
  {
    4 * width < 0x1_0000_0000
    && 4 * width * height < 0x1_0000_0000
    && 2 * AlignToPageSize(4 * width * height, pageSize) < 0x1_0000_0000
  }

  /** When the geometry fits, nothing wraps: the stride is 4 bytes a pixel,
      the buffer is the smallest page multiple holding the frame, and the
      pool holds exactly two buffers. */
  lemma GeometryExact(width: U32, height: U32, pageSize: nat)
    requires PageSizeOk(pageSize) && Fits(width, height, pageSize)
    ensures Stride(width) == 4 * width
    ensures BufferSize(width, height, pageSize) == AlignToPageSize(4 * width * height, pageSize)
    ensures BufferSize(width, height, pageSize) % pageSize == 0
    ensures BufferSize(width, height, pageSize) >= 4 * width * height
    ensures forall m: nat :: m % pageSize == 0 && m >= 4 * width * height ==> BufferSize(width, height, pageSize) <= m
    ensures PoolSize(BufferSize(width, height, pageSize)) == 2 * BufferSize(width, height, pageSize)
  {
    var frame := 4 * width * height;
    assert Stride(width) * height == frame;
    var b := AlignToPageSize(frame, pageSize);
    assert BufferSize(width, height, pageSize) == b;
    forall m: nat | m % pageSize == 0 && m >= frame
      ensures b <= m
    {
      AlignIsSmallest(frame, pageSize, m);
    }
  }

  /** A page multiple within a page above size is the aligned size. */
  lemma AlignedValue(size: nat, pageSize: nat, m: nat)
    requires IsPowerOfTwo(pageSize) && size + pageSize - 1 < SizeRange
    requires m % pageSize == 0 && size <= m < size + pageSize
    ensures AlignToPageSize(size, pageSize) == m
  {
    var r := AlignToPageSize(size, pageSize);
    AlignIsSmallest(size, pageSize, m);
    if r < m {
      MultiplesApart(pageSize, m, r);
    }
  }

  /** The 800x600 window of the demo with 4096-byte pages uses a
      1,921,024-byte buffer in a 3,842,048-byte pool. */
  lemma DefaultGeometry()
    ensures PageSizeOk(4096)
    ensures BufferSize(800, 600, 4096) == 1_921_024
    ensures PoolSize(BufferSize(800, 600, 4096)) == 3_842_048
  {
    assert IsPowerOfTwo(4096) by {
      assert IsPowerOfTwo(2);
      ProductIsPowerOfTwo(2, 2);
      ProductIsPowerOfTwo(4, 4);
      ProductIsPowerOfTwo(16, 16);
      ProductIsPowerOfTwo(256, 16);
    }
    assert Stride(800) == 3200;
    AlignedValue(1_920_000, 4096, 1_921_024);
  }

  // ---------------------------------------------------------------------
  // The window's data

  /** `struct twl_window_config`; the four flags are uint32_t fields holding 0 or 1. */
  datatype Config = Config(
    width: U32, height: U32,
    isMaximized: bool, isFullscreen: bool, isResizing: bool, isActivated: bool)

  /** A zero-initialised `struct twl_window_config`. */
  const ZeroConfig := Config(0, 0, false, false, false, false)

  /** `struct twl_window_constraints`. */
  datatype Constraints = Constraints(defaultWidth: U32, defaultHeight: U32)

  /** `struct twl_buffer_pool`: descriptor, size, and the `wl_shm_pool` proxy. */
  datatype Pool = Pool(fd: int, size: U32, proxy: nat)

  /** `struct twl_buffer`: its mapping, its `wl_buffer` proxy, and `in_use`. */
  datatype Buffer = Buffer(mmap: FznStd.Mmap, proxy: nat, inUse: bool)

  /** `struct twl_context`: the display and the bound globals. */
  datatype Context = Context(display: nat, compositor: nat, shm: nat, wmBase: nat)

  /** A request sent to the compositor, or a system call, as it enters the log. */
  datatype Request =
    | AckConfigure(serial: U32)
    | CreatePool(pool: nat, fd: int, size: I32)
    | ResizePool(pool: nat, size: I32)
    | DestroyBuffer(buffer: nat)
    | CreateBuffer(buffer: nat, pool: nat, offset: I32, width: I32, height: I32, stride: I32, format: U32)
    | DrawHook(frame: nat)
    | Attach(buffer: nat, x: I32, y: I32)
    | DamageBuffer(x: I32, y: I32, width: I32, height: I32)
    | Commit
    | Disconnect
    | SysCall(call: Sys)

  /** log' is log with entries appended. */
  predicate Extends(log': seq<Request>, log: seq<Request>)
  {
    |log| <= |log'| && log'[..|log|] == log
  }

  /** System calls as log entries. */
  function OsCalls(calls: seq<Sys>): (r: seq<Request>)
    ensures |r| == |calls| && forall i :: 0 <= i < |r| ==> r[i] == SysCall(calls[i])
  {
    seq(|calls|, i requires 0 <= i < |calls| => SysCall(calls[i]))
  }

  /** The message of each `panic` in configure_buffers. */
  datatype PanicReason = ShmAllocateFailed | ShmResizeFailed | MunmapBackBuffer | MmapBufferFailed

  /** Whether a callback returned, or the process exited in `panic`. */
  datatype Status = Ok | Panic(reason: PanicReason)

  /** `struct twl_window` as a value. The draw hook and its user data are
      not fields: the hook is recorded in the log as DrawHook. */
  datatype WindowState = WindowState(
    ctx: Context,
    surface: nat, xdgSurface: nat, toplevel: nat,
    pool: Pool,
    buffer: Buffer,
    constraints: Constraints,
    config: Config,
    configPending: Config,
    shouldClose: bool,
    log: seq<Request>,
    nextId: nat)

  /** `WL_SHM_FORMAT_XRGB8888`. */
  const XRGB8888: U32 := 1

  /** `PROT_READ | PROT_WRITE` and `MAP_SHARED`. */
  const ProtReadWrite: int := 3
  const MapShared: int := 1

  // ---------------------------------------------------------------------
  // cb_xdg_toplevel_configure

  /** The values of `enum xdg_toplevel_state` the callback reads. */
  const StateMaximized: U32 := 1
  const StateFullscreen: U32 := 2
  const StateResizing: U32 := 3
  const StateActivated: U32 := 4

  /** One pass of the `switch` over a state value; other values are ignored. */
  function ApplyState(c: Config, state: U32): (r: Config)
    ensures r.width == c.width && r.height == c.height
    ensures r.isMaximized <==> c.isMaximized || state == StateMaximized
    ensures r.isFullscreen <==> c.isFullscreen || state == StateFullscreen
    ensures r.isResizing <==> c.isResizing || state == StateResizing
    ensures r.isActivated <==> c.isActivated || state == StateActivated
  {
    if state == StateMaximized then c.(isMaximized := true)
    else if state == StateActivated then c.(isActivated := true)
    else if state == StateResizing then c.(isResizing := true)
    else if state == StateFullscreen then c.(isFullscreen := true)
    else c
  }

  /** `wl_array_for_each` over the states, in order. Each flag ends set
      exactly when it was set before or its value occurs in the array. */
  function ApplyStates(c: Config, states: seq<U32>): (r: Config)
    ensures r.width == c.width && r.height == c.height
    ensures r.isMaximized <==> c.isMaximized || StateMaximized in states
    ensures r.isFullscreen <==> c.isFullscreen || StateFullscreen in states
    ensures r.isResizing <==> c.isResizing || StateResizing in states
    ensures r.isActivated <==> c.isActivated || StateActivated in states
    decreases |states|
  {
    if states == [] then c
    else
      var init, last := states[..|states| - 1], states[|states| - 1];
      assert states == init + [last];
      assert forall v :: v in states <==> v in init || v == last;
      ApplyState(ApplyStates(c, init), last)
  }

  /** One more state value is one more step of the loop. */
  lemma ApplyStatesStep(c: Config, states: seq<U32>, i: nat)
    requires i < |states|
    ensures ApplyStates(c, states[..i + 1]) == ApplyState(ApplyStates(c, states[..i]), states[i])
  {
    assert states[..i + 1][..i] == states[..i];
  }

  /** The int32_t width argument after `if (width == 0) width = default`, stored into a uint32_t. */
  function PendingExtent(arg: I32, default: U32): (r: U32)
    ensures r == if arg == 0 then default else ToU32(arg)
  {
    var v: I32 := if arg == 0 then ToI32(default) else arg;
    U32RoundTrip(default);
    ToU32(v)
  }

  /** The pending configuration cb_xdg_toplevel_configure builds. */
  function PendingConfig(width: I32, height: I32, states: seq<U32>, k: Constraints): (r: Config)
    ensures r.width == if width == 0 then k.defaultWidth else ToU32(width)
    ensures r.height == if height == 0 then k.defaultHeight else ToU32(height)
    ensures r.isMaximized <==> StateMaximized in states
    ensures r.isFullscreen <==> StateFullscreen in states
    ensures r.isResizing <==> StateResizing in states
    ensures r.isActivated <==> StateActivated in states
  {
    var base := ZeroConfig.(width := PendingExtent(width, k.defaultWidth), height := PendingExtent(height, k.defaultHeight));
    ApplyStates(base, states)
  }

  /** The pending configuration depends on the set of state values only:
      their order and repetitions do not matter. */
  lemma PendingIgnoresOrder(width: I32, height: I32, s1: seq<U32>, s2: seq<U32>, k: Constraints)
    requires forall v :: v in s1 <==> v in s2
    ensures PendingConfig(width, height, s1, k) == PendingConfig(width, height, s2, k)
  {
  }

  // ---------------------------------------------------------------------
  // configure_buffers

  /** The system call outcomes one configure_buffers call consumes. */
  datatype BufferWorld = BufferWorld(
    attempts: seq<Attempt>, truncs: seq<TruncOutcome>, munmapOk: bool, mapping: MapOutcome)

  /** The oracles give create_shm_file its hundred attempts and end the EINTR retries. */
  predicate WorldOk(w: BufferWorld)
  {
    MaxAttempts <= |w.attempts| && Settles(w.truncs)
  }

  /** The pool part of configure_buffers: allocate it when `pool.fd` is 0,
      grow it when it is too small, otherwise leave it. */
  function PoolStep(s: WindowState, poolSize: U32, w: BufferWorld): (r: (WindowState, Status))
    requires WorldOk(w)
    ensures r.0 == s.(pool := r.0.pool, log := r.0.log, nextId := r.0.nextId)
    ensures Extends(r.0.log, s.log)
  {
    if s.pool.fd == 0 then
      var a := Allocation(poolSize, w.attempts, w.truncs);
      if a.ret < 0 then (s.(log := s.log + OsCalls(a.calls)), Panic(ShmAllocateFailed))
      else
        var pool := Pool(a.ret, poolSize, s.nextId);
        (s.(pool := pool, log := s.log + OsCalls(a.calls) + [CreatePool(s.nextId, a.ret, ToI32(poolSize))], nextId := s.nextId + 1), Ok)
    else if poolSize > s.pool.size then
      var rs := Resizing(s.pool.fd, poolSize, w.truncs);
      if rs.ret != 0 then (s.(log := s.log + OsCalls(rs.calls)), Panic(ShmResizeFailed))
      else (s.(pool := s.pool.(size := poolSize), log := s.log + OsCalls(rs.calls) + [ResizePool(s.pool.proxy, ToI32(poolSize))]), Ok)
    else (s, Ok)
  }

  /** The requests that release a buffer: `wl_buffer_destroy` when there
      is a `wl_buffer`, then the `munmap` when there is a mapping. */
  function TeardownRequests(b: Buffer): seq<Request>
  {
    (if b.proxy != 0 then [DestroyBuffer(b.proxy)] else [])
    + (if b.mmap.addr != 0 then [SysCall(MunmapCall(b.mmap.addr, b.mmap.size))] else [])
  }

  /** The teardown part: destroy the old `wl_buffer` if there is one, then
      `try_or_panic(fzn_mmap_unmap(&buffer.mmap))`. */
  function TeardownStep(s: WindowState, munmapOk: bool): (r: (WindowState, Status))
    ensures r.0 == s.(buffer := r.0.buffer, log := r.0.log)
    ensures r.0.buffer == s.buffer.(mmap := r.0.buffer.mmap)
    ensures Extends(r.0.log, s.log)
  {
    var u := FznStd.MmapUnmapped(s.buffer.mmap, munmapOk);
    var s' := s.(buffer := s.buffer.(mmap := u.0), log := s.log + TeardownRequests(s.buffer));
    if FznStd.Code(u.1) != 0 then (s', Panic(MunmapBackBuffer)) else (s', Ok)
  }

  /** The mapping step as the code intends it: map buffer_size bytes of the
      pool at offset 0, and panic when mmap fails. The handle stored is the
      one fzn_mmap_new produced. */
  function MapStep(bufferSize: U32, fd: int, mapping: MapOutcome): (r: (FznStd.Mmap, Status))
    ensures r.1 == Ok <==> mapping.Mapped?
    ensures r.1 == Ok ==> r.0 == FznStd.Mmap(mapping.addr, bufferSize)
  {
    var config := FznStd.MmapConfig(bufferSize, ProtReadWrite, MapShared, fd, 0);
    var created := FznStd.MmapCreated(FznStd.Mmap(0, 0), config, mapping);
    if created.1 != FznStd.Success then (created.0, Panic(MmapBufferFailed)) else (created.0, Ok)
  }

  /** The mapping step as written: `buffer_mmap` is an uninitialised local,
      fzn_mmap_new's result code is ignored, and the panic test reads the
      local's address, which a failed fzn_mmap_new never wrote. */
  function MapStepAsWritten(uninitialised: FznStd.Mmap, bufferSize: U32, fd: int, mapping: MapOutcome): (r: (FznStd.Mmap, Status))
    ensures mapping.Mapped? ==> r == MapStep(bufferSize, fd, mapping)
  {
    var config := FznStd.MmapConfig(bufferSize, ProtReadWrite, MapShared, fd, 0);
    var created := FznStd.MmapCreated(uninitialised, config, mapping);
    if created.0.addr == 0 then (created.0, Panic(MmapBufferFailed)) else (created.0, Ok)
  }

  /** A failed mmap goes unnoticed when the stack slot of `buffer_mmap`
      happens to hold a non-NULL address: the window keeps a mapping that
      was never made, and draws into it. */
  lemma MapFailureUnnoticed()
    ensures MapStepAsWritten(FznStd.Mmap(4096, 7), 8192, 3, MapFailed) == (FznStd.Mmap(4096, 7), Ok)
    ensures MapStep(8192, 3, MapFailed).1 == Panic(MmapBufferFailed)
  {
  }

  /** The two agree whenever the local starts out NULL, as a zero-initialised one would. */
  lemma MapStepAsWrittenWhenNull(m: FznStd.Mmap, bufferSize: U32, fd: int, mapping: MapOutcome)
    requires m.addr == 0
    ensures MapStepAsWritten(m, bufferSize, fd, mapping).1 == MapStep(bufferSize, fd, mapping).1
  {
  }

  /** The rebuild part: the new mapping, then a `wl_buffer` at offset 0 of
      the pool with the current geometry, not in use. */
  function RebuildStep(s: WindowState, bufferSize: U32, mapping: MapOutcome): (r: (WindowState, Status))
    ensures r.0 == s.(buffer := r.0.buffer, log := r.0.log, nextId := r.0.nextId)
    ensures Extends(r.0.log, s.log)
  {
    var fd := s.pool.fd;
    var m := MapStep(bufferSize, fd, mapping);
    var s1 := s.(log := s.log + [SysCall(MmapCall(bufferSize, fd, 0))]);
    if m.1 != Ok then (s1, m.1)
    else
      var width, height := s.config.width, s.config.height;
      var create := CreateBuffer(s.nextId, s.pool.proxy, 0, ToI32(width), ToI32(height), ToI32(Stride(width)), XRGB8888);
      (s1.(buffer := Buffer(m.0, s.nextId, false), log := s1.log + [create], nextId := s.nextId + 1), Ok)
  }

  /** The behaviour of configure_buffers. */
  function BuffersConfigured(s: WindowState, w: BufferWorld, pageSize: nat): (r: (WindowState, Status))
    requires WorldOk(w) && PageSizeOk(pageSize)
    ensures Extends(r.0.log, s.log)
    ensures r.0.config == s.config && r.0.configPending == s.configPending && r.0.shouldClose == s.shouldClose
  {
    var bufferSize := BufferSize(s.config.width, s.config.height, pageSize);
    var p := PoolStep(s, PoolSize(bufferSize), w);
    if p.1 != Ok then p
    else
      var t := TeardownStep(p.0, w.munmapOk);
      if t.1 != Ok then t
      else RebuildStep(t.0, bufferSize, w.mapping)
  }

  // ---------------------------------------------------------------------
  // draw_frame and the other callbacks

  /** The behaviour of draw_frame: the hook gets the mapping, then attach,
      damage of the whole configured size, and commit; the buffer is marked in use. */
  function DrawnFrame(s: WindowState): (r: WindowState)
    ensures Extends(r.log, s.log)
    ensures r.log[|s.log|..] == [DrawHook(s.buffer.mmap.addr), Attach(s.buffer.proxy, 0, 0),
                                 DamageBuffer(0, 0, ToI32(s.config.width), ToI32(s.config.height)), Commit]
    ensures r == s.(buffer := s.buffer.(inUse := true), log := r.log)
  {
    var requests := [DrawHook(s.buffer.mmap.addr), Attach(s.buffer.proxy, 0, 0),
                     DamageBuffer(0, 0, ToI32(s.config.width), ToI32(s.config.height)), Commit];
    assert (s.log + requests)[|s.log|..] == requests;
    s.(buffer := s.buffer.(inUse := true), log := s.log + requests)
  }

  /** The behaviour of cb_xdg_surface_configure: apply the pending
      configuration, ack the serial, rebuild the buffers, draw. */
  function SurfaceConfigured(s: WindowState, serial: U32, w: BufferWorld, pageSize: nat): (r: (WindowState, Status))
    requires WorldOk(w) && PageSizeOk(pageSize)
    ensures r.0.config == s.configPending && r.0.configPending == s.configPending
    ensures Extends(r.0.log, s.log + [AckConfigure(serial)])
  {
    var s1 := s.(config := s.configPending, log := s.log + [AckConfigure(serial)]);
    var b := BuffersConfigured(s1, w, pageSize);
    assert b.0.log[..|s1.log|] == s1.log;
    if b.1 != Ok then b
    else
      var d := DrawnFrame(b.0);
      assert d.log[..|s1.log|] == s1.log by {
        assert d.log[..|b.0.log|] == b.0.log;
      }
      (d, Ok)
  }

  /** The behaviour of cb_wl_buffer_release. */
  function Released(s: WindowState): (r: WindowState)
    ensures !r.buffer.inUse
    ensures r.(buffer := r.buffer.(inUse := s.buffer.inUse)) == s
  {
    s.(buffer := s.buffer.(inUse := false))
  }

  /** The behaviour of cb_xdg_toplevel_close. */
  function Closed(s: WindowState): (r: WindowState)
    ensures r.shouldClose
    ensures r.(shouldClose := s.shouldClose) == s
  {
    s.(shouldClose := true)
  }

  // ---------------------------------------------------------------------
  // What configure_buffers guarantees

  /** The requests the pool step of configure_buffers appends. */
  function PoolRequests(s: WindowState, poolSize: U32, w: BufferWorld): seq<Request>
    requires WorldOk(w)
  {
    PoolStep(s, poolSize, w).0.log[|s.log|..]
  }

  /** The pool step sends only shm system calls and at most one pool
      request, and nothing at all when the existing pool is big enough.
      A successful allocation tells the compositor the new descriptor and
      pool_size; a successful grow tells it pool_size. */
  lemma {:induction false} PoolRequestsShape(s: WindowState, poolSize: U32, w: BufferWorld)
    requires WorldOk(w)
    ensures var r := PoolRequests(s, poolSize, w);
      forall i :: 0 <= i < |r| ==> r[i].SysCall? || (i == |r| - 1 && (r[i].CreatePool? || r[i].ResizePool?))
    ensures s.pool.fd != 0 && poolSize <= s.pool.size ==> PoolRequests(s, poolSize, w) == []
    ensures var a := Allocation(poolSize, w.attempts, w.truncs);
      s.pool.fd == 0 ==>
        PoolRequests(s, poolSize, w)
          == OsCalls(a.calls) + (if a.ret < 0 then [] else [CreatePool(s.nextId, a.ret, ToI32(poolSize))])
    ensures var rs := Resizing(s.pool.fd, poolSize, w.truncs);
      s.pool.fd != 0 && poolSize > s.pool.size ==>
        PoolRequests(s, poolSize, w)
          == OsCalls(rs.calls) + (if rs.ret != 0 then [] else [ResizePool(s.pool.proxy, ToI32(poolSize))])
  {
    var r := PoolRequests(s, poolSize, w);
    var p := PoolStep(s, poolSize, w);
    if s.pool.fd == 0 {
      var a := Allocation(poolSize, w.attempts, w.truncs);
      if a.ret < 0 {
        assert r == OsCalls(a.calls);
      } else {
        assert r == OsCalls(a.calls) + [CreatePool(s.nextId, a.ret, ToI32(poolSize))];
      }
    } else if poolSize > s.pool.size {
      var rs := Resizing(s.pool.fd, poolSize, w.truncs);
      if rs.ret != 0 {
        assert r == OsCalls(rs.calls);
      } else {
        assert r == OsCalls(rs.calls) + [ResizePool(s.pool.proxy, ToI32(poolSize))];
      }
    } else {
      assert r == [];
    }
  }

  /** The pool keeps its descriptor and proxy once it has a descriptor, is
      left alone when big enough, is created with the size asked for, and
      after a successful call holds at least two buffers and never shrinks. */
  lemma PoolLifecycle(s: WindowState, w: BufferWorld, pageSize: nat)
    requires WorldOk(w) && PageSizeOk(pageSize)
    ensures var r := BuffersConfigured(s, w, pageSize);
      var poolSize := PoolSize(BufferSize(s.config.width, s.config.height, pageSize));
      && (s.pool.fd != 0 ==> r.0.pool.fd == s.pool.fd && r.0.pool.proxy == s.pool.proxy)
      && (s.pool.fd != 0 && poolSize <= s.pool.size ==> r.0.pool == s.pool)
      && (s.pool.fd == 0 && r.1 == Ok ==> r.0.pool == Pool(ShmFileCreation(w.attempts).ret, poolSize, s.nextId))
      && (r.1 == Ok ==> r.0.pool.size >= poolSize)
      && (r.1 == Ok && (s.pool.fd != 0 || s.pool.size == 0) ==> r.0.pool.size >= s.pool.size)
  {
    var poolSize := PoolSize(BufferSize(s.config.width, s.config.height, pageSize));
    var p := PoolStep(s, poolSize, w);
    if s.pool.fd == 0 && p.1 == Ok {
      var a := Allocation(poolSize, w.attempts, w.truncs);
      assert a.ret == ShmFileCreation(w.attempts).ret;
    }
  }

  /** Each panic of configure_buffers and the condition that causes it. */
  lemma ConfigureBuffersPanics(s: WindowState, w: BufferWorld, pageSize: nat)
    requires WorldOk(w) && PageSizeOk(pageSize)
    ensures var r := BuffersConfigured(s, w, pageSize);
      var poolSize := PoolSize(BufferSize(s.config.width, s.config.height, pageSize));
      var poolOk := PoolStep(s, poolSize, w).1 == Ok;
      && (r.1 == Panic(ShmAllocateFailed) <==> s.pool.fd == 0 && Allocation(poolSize, w.attempts, w.truncs).ret < 0)
      && (r.1 == Panic(ShmResizeFailed) <==>
            s.pool.fd != 0 && poolSize > s.pool.size && !w.truncs[FirstSettled(w.truncs)].Truncated?)
      && (r.1 == Panic(MunmapBackBuffer) <==> poolOk && s.buffer.mmap.addr != 0 && !w.munmapOk)
      && (r.1 == Panic(MmapBufferFailed) <==> poolOk && (s.buffer.mmap.addr == 0 || w.munmapOk) && w.mapping.MapFailed?)
      && (r.1 == Ok <==> poolOk && (s.buffer.mmap.addr == 0 || w.munmapOk) && w.mapping.Mapped?)
  {
    var poolSize := PoolSize(BufferSize(s.config.width, s.config.height, pageSize));
    var p := PoolStep(s, poolSize, w);
    assert p.0.buffer == s.buffer;
  }

  /** After a successful call the window has a fresh `wl_buffer` over a new
      mapping of buffer_size bytes, not in use; the requests are the pool
      requests, then the release of the old buffer, then the mmap, then the
      creation of the buffer at offset 0 with the configured geometry. */
  lemma {:induction false} ConfigureBuffersOk(s: WindowState, w: BufferWorld, pageSize: nat)
    requires WorldOk(w) && PageSizeOk(pageSize)
    ensures var r := BuffersConfigured(s, w, pageSize);
      var width, height := s.config.width, s.config.height;
      var bufferSize := BufferSize(width, height, pageSize);
      var poolSize := PoolSize(bufferSize);
      r.1 == Ok ==>
        && w.mapping.Mapped?
        && r.0.buffer == Buffer(FznStd.Mmap(w.mapping.addr, bufferSize), r.0.buffer.proxy, false)
        && s.nextId <= r.0.buffer.proxy && r.0.nextId == r.0.buffer.proxy + 1
        && r.0.log == s.log + PoolRequests(s, poolSize, w) + TeardownRequests(s.buffer)
             + [SysCall(MmapCall(bufferSize, r.0.pool.fd, 0)),
                CreateBuffer(r.0.buffer.proxy, r.0.pool.proxy, 0, ToI32(width), ToI32(height), ToI32(Stride(width)), XRGB8888)]
  {
    var width, height := s.config.width, s.config.height;
    var bufferSize := BufferSize(width, height, pageSize);
    var poolSize := PoolSize(bufferSize);
    var p := PoolStep(s, poolSize, w);
    if p.1 == Ok {
      var t := TeardownStep(p.0, w.munmapOk);
      assert p.0.log == s.log + PoolRequests(s, poolSize, w) by {
        assert p.0.log == p.0.log[..|s.log|] + p.0.log[|s.log|..];
      }
      assert t.0.log == s.log + PoolRequests(s, poolSize, w) + TeardownRequests(s.buffer);
    }
  }

  /** When the geometry fits, the buffer holds the whole frame and lies within the pool. */
  lemma BufferWithinPool(s: WindowState, w: BufferWorld, pageSize: nat)
    requires WorldOk(w) && PageSizeOk(pageSize)
    requires Fits(s.config.width, s.config.height, pageSize)
    ensures var r := BuffersConfigured(s, w, pageSize);
      r.1 == Ok ==>
        && 4 * s.config.width * s.config.height <= r.0.buffer.mmap.size
        && 2 * r.0.buffer.mmap.size <= r.0.pool.size
        && Stride(s.config.width) == 4 * s.config.width
  {
    GeometryExact(s.config.width, s.config.height, pageSize);
    ConfigureBuffersOk(s, w, pageSize);
    PoolLifecycle(s, w, pageSize);
  }

  /** No entry is an acknowledgement. */
  predicate NoAck(entries: seq<Request>)
  {
    forall i :: 0 <= i < |entries| ==> !entries[i].AckConfigure?
  }

  /** The entries appended by two steps in a row. */
  lemma AppendedEntries(l1: seq<Request>, l2: seq<Request>, l3: seq<Request>)
    requires Extends(l2, l1) && Extends(l3, l2)
    ensures Extends(l3, l1) && l3[|l1|..] == l2[|l1|..] + l3[|l2|..]
  {
    assert l3[..|l1|] == l3[..|l2|][..|l1|];
  }

  lemma NoAckConcat(a: seq<Request>, b: seq<Request>)
    requires NoAck(a) && NoAck(b)
    ensures NoAck(a + b)
  {
    assert forall i :: |a| <= i < |a + b| ==> (a + b)[i] == b[i - |a|];
  }

  lemma PoolStepSendsNoAck(s: WindowState, poolSize: U32, w: BufferWorld)
    requires WorldOk(w)
    ensures NoAck(PoolStep(s, poolSize, w).0.log[|s.log|..])
  {
    PoolRequestsShape(s, poolSize, w);
  }

  lemma TeardownStepSendsNoAck(s: WindowState, munmapOk: bool)
    ensures NoAck(TeardownStep(s, munmapOk).0.log[|s.log|..])
  {
    var t := TeardownStep(s, munmapOk);
    assert t.0.log[|s.log|..] == TeardownRequests(s.buffer);
  }

  lemma RebuildStepSendsNoAck(s: WindowState, bufferSize: U32, mapping: MapOutcome)
    ensures NoAck(RebuildStep(s, bufferSize, mapping).0.log[|s.log|..])
  {
    var b := RebuildStep(s, bufferSize, mapping);
    var e := b.0.log[|s.log|..];
    assert |e| <= 2 && e[0].SysCall? && (|e| == 2 ==> e[1].CreateBuffer?);
  }

  /** configure_buffers does not acknowledge anything. */
  lemma {:induction false} ConfigureBuffersSendsNoAck(s: WindowState, w: BufferWorld, pageSize: nat)
    requires WorldOk(w) && PageSizeOk(pageSize)
    ensures NoAck(BuffersConfigured(s, w, pageSize).0.log[|s.log|..])
  {
    var bufferSize := BufferSize(s.config.width, s.config.height, pageSize);
    var p := PoolStep(s, PoolSize(bufferSize), w);
    PoolStepSendsNoAck(s, PoolSize(bufferSize), w);
    if p.1 == Ok {
      var t := TeardownStep(p.0, w.munmapOk);
      TeardownStepSendsNoAck(p.0, w.munmapOk);
      AppendedEntries(s.log, p.0.log, t.0.log);
      NoAckConcat(p.0.log[|s.log|..], t.0.log[|p.0.log|..]);
      if t.1 == Ok {
        var b := RebuildStep(t.0, bufferSize, w.mapping);
        RebuildStepSendsNoAck(t.0, bufferSize, w.mapping);
        AppendedEntries(s.log, t.0.log, b.0.log);
        NoAckConcat(t.0.log[|s.log|..], b.0.log[|t.0.log|..]);
      }
    }
  }

  /** Entries from k on are no acknowledgement. */
  lemma NoAckFrom(log: seq<Request>, k: nat)
    requires k <= |log| && NoAck(log[k..])
    ensures forall i :: k <= i < |log| ==> !log[i].AckConfigure?
  {
    assert forall i :: k <= i < |log| ==> log[i] == log[k..][i - k];
  }

  /** cb_xdg_surface_configure acknowledges exactly once, before anything else it sends. */
  lemma {:induction false} SurfaceConfigureAcksOnce(s: WindowState, serial: U32, w: BufferWorld, pageSize: nat)
    requires WorldOk(w) && PageSizeOk(pageSize)
    ensures var r := SurfaceConfigured(s, serial, w, pageSize);
      && r.0.log[|s.log|] == AckConfigure(serial)
      && (forall i :: |s.log| < i < |r.0.log| ==> !r.0.log[i].AckConfigure?)
  {
    var s1 := s.(config := s.configPending, log := s.log + [AckConfigure(serial)]);
    var b := BuffersConfigured(s1, w, pageSize);
    ConfigureBuffersSendsNoAck(s1, w, pageSize);
    var r := SurfaceConfigured(s, serial, w, pageSize);
    if b.1 == Ok {
      var d := DrawnFrame(b.0);
      AppendedEntries(s1.log, b.0.log, d.log);
      NoAckConcat(b.0.log[|s1.log|..], d.log[|b.0.log|..]);
    }
    assert r.0.log[|s.log|] == r.0.log[..|s1.log|][|s.log|];
    NoAckFrom(r.0.log, |s1.log|);
  }

  /** A successful surface configure ends with a frame drawn into the new
      mapping over the new buffer, which is then in use. */
  lemma SurfaceConfigureDraws(s: WindowState, serial: U32, w: BufferWorld, pageSize: nat)
    requires WorldOk(w) && PageSizeOk(pageSize)
    ensures var r := SurfaceConfigured(s, serial, w, pageSize);
      r.1 == Ok ==>
        && w.mapping.Mapped? && r.0.buffer.mmap.addr == w.mapping.addr && r.0.buffer.inUse
        && r.0.nextId == r.0.buffer.proxy + 1 && r.0.buffer.proxy >= s.nextId
        && |r.0.log| >= |s.log| + 7
        && r.0.log[|r.0.log| - 4..] == [DrawHook(w.mapping.addr), Attach(r.0.buffer.proxy, 0, 0),
             DamageBuffer(0, 0, ToI32(s.configPending.width), ToI32(s.configPending.height)), Commit]
  {
    var s1 := s.(config := s.configPending, log := s.log + [AckConfigure(serial)]);
    ConfigureBuffersOk(s1, w, pageSize);
  }

  /** The frame drawn does not depend on whether the buffer was in use:
      draw_frame does not wait for the compositor's release. */
  lemma DrawIgnoresInUse(s: WindowState, inUse: bool)
    ensures DrawnFrame(s.(buffer := s.buffer.(inUse := inUse))) == DrawnFrame(s)
  {
  }

  /** A release after a draw gives back the state before the draw, with the
      draw's requests logged. */
  lemma ReleaseUndoesDraw(s: WindowState)
    requires !s.buffer.inUse
    ensures Released(DrawnFrame(s)) == s.(log := DrawnFrame(s).log)
  {
  }

  // ---------------------------------------------------------------------
  // Events and the main loop

  /** An event the window's listeners receive. The outcomes of the system
      calls a surface configure leads to travel with it. */
  datatype Event =
    | ToplevelConfigureEvent(width: I32, height: I32, states: seq<U32>)
    | ToplevelCloseEvent
    | ConfigureBoundsEvent(boundsWidth: I32, boundsHeight: I32)
    | WmCapabilitiesEvent(capabilities: seq<U32>)
    | SurfaceConfigureEvent(serial: U32, world: BufferWorld)
    | BufferReleaseEvent

  predicate EventOk(e: Event)
  {
    e.SurfaceConfigureEvent? ==> WorldOk(e.world)
  }

  predicate EventsOk(events: seq<Event>)
  {
    forall i :: 0 <= i < |events| ==> EventOk(events[i])
  }

  /** The listener call for one event. configure_bounds and
      wm_capabilities are advisory and change nothing. */
  function EventHandled(s: WindowState, e: Event, pageSize: nat): (r: (WindowState, Status))
    requires EventOk(e) && PageSizeOk(pageSize)
    ensures e.ToplevelCloseEvent? ==> r.0.shouldClose
    ensures !e.ToplevelCloseEvent? ==> r.0.shouldClose == s.shouldClose
    ensures r.1 != Ok ==> e.SurfaceConfigureEvent?
  {
    match e
    case ToplevelConfigureEvent(width, height, states) =>
      (s.(configPending := PendingConfig(width, height, states, s.constraints)), Ok)
    case ToplevelCloseEvent => (Closed(s), Ok)
    case ConfigureBoundsEvent(_, _) => (s, Ok)
    case WmCapabilitiesEvent(_) => (s, Ok)
    case SurfaceConfigureEvent(serial, world) => SurfaceConfigured(s, serial, world, pageSize)
    case BufferReleaseEvent => (Released(s), Ok)
  }

  /** configure_bounds and wm_capabilities leave the window as it is, and
      a toplevel configure changes only the pending configuration. */
  lemma AdvisoriesChangeNothing(s: WindowState, e: Event, pageSize: nat)
    requires EventOk(e) && PageSizeOk(pageSize)
    ensures e.ConfigureBoundsEvent? || e.WmCapabilitiesEvent? ==> EventHandled(s, e, pageSize) == (s, Ok)
    ensures e.ToplevelConfigureEvent? ==>
      EventHandled(s, e, pageSize).0.(configPending := s.configPending) == s
  {
  }

  /** A listener only appends to the log. */
  lemma EventLogGrows(s: WindowState, e: Event, pageSize: nat)
    requires EventOk(e) && PageSizeOk(pageSize)
    ensures Extends(EventHandled(s, e, pageSize).0.log, s.log)
  {
    if e.SurfaceConfigureEvent? {
      var r := SurfaceConfigured(s, e.serial, e.world, pageSize);
      assert r.0.log[..|s.log|] == r.0.log[..|s.log| + 1][..|s.log|];
    }
  }

  /** The events `wl_display_dispatch` delivers, in order, until one panics. */
  function Dispatched(s: WindowState, events: seq<Event>, pageSize: nat): (r: (WindowState, Status))
    requires EventsOk(events) && PageSizeOk(pageSize)
    decreases |events|
  {
    if events == [] then (s, Ok)
    else
      var h := EventHandled(s, events[0], pageSize);
      if h.1 != Ok then h
      else Dispatched(h.0, events[1..], pageSize)
  }

  /** A dispatch only appends to the log; a close request, once made, stays,
      and is only ever made by a close event. */
  lemma {:induction false} DispatchedFacts(s: WindowState, events: seq<Event>, pageSize: nat)
    requires EventsOk(events) && PageSizeOk(pageSize)
    ensures var r := Dispatched(s, events, pageSize);
      && Extends(r.0.log, s.log)
      && (s.shouldClose ==> r.0.shouldClose)
      && (r.0.shouldClose && !s.shouldClose ==> ToplevelCloseEvent in events)
    decreases |events|
  {
    if events != [] {
      var h := EventHandled(s, events[0], pageSize);
      EventLogGrows(s, events[0], pageSize);
      if h.1 == Ok {
        DispatchedFacts(h.0, events[1..], pageSize);
        AppendedEntries(s.log, h.0.log, Dispatched(h.0, events[1..], pageSize).0.log);
        assert events == [events[0]] + events[1..];
      }
    }
  }

  /** One `wl_display_dispatch`: the events it delivers and what it returns. */
  datatype Dispatch = Dispatch(events: seq<Event>, ret: int)

  predicate DispatchesOk(ds: seq<Dispatch>)
  {
    forall i :: 0 <= i < |ds| ==> EventsOk(ds[i].events)
  }

  /** How the main loop ends. InputEnded means the dispatches the model was
      given ran out while the loop was still going. */
  datatype Exit = Disconnected | CloseRequested | Panicked(reason: PanicReason) | InputEnded

  /** What one iteration of the main loop leads to. */
  datatype RoundEnd = Drew | Ended(exit: Exit)

  /** One iteration: dispatch, test the loop condition, draw a frame. */
  function Round(s: WindowState, d: Dispatch, pageSize: nat): (r: (WindowState, RoundEnd))
    requires EventsOk(d.events) && PageSizeOk(pageSize)
  {
    var e := Dispatched(s, d.events, pageSize);
    if e.1 != Ok then (e.0, Ended(Panicked(e.1.reason)))
    else if d.ret == -1 then (e.0, Ended(Disconnected))
    else if e.0.shouldClose then (e.0, Ended(CloseRequested))
    else (DrawnFrame(e.0), Drew)
  }

  /** An iteration draws only when the dispatch succeeded and no close was
      requested, ends for the reason the loop condition gives, and only
      appends to the log. */
  lemma RoundFacts(s: WindowState, d: Dispatch, pageSize: nat)
    requires EventsOk(d.events) && PageSizeOk(pageSize)
    ensures var r := Round(s, d, pageSize);
      && Extends(r.0.log, s.log)
      && (r.1 == Drew ==> d.ret != -1 && !r.0.shouldClose && !s.shouldClose)
      && (r.1 == Ended(Disconnected) ==> d.ret == -1)
      && (r.1 == Ended(CloseRequested) ==> d.ret != -1 && r.0.shouldClose)
      && r.1 != Ended(InputEnded)
      && (s.shouldClose ==> r.0.shouldClose && r.1 != Drew)
    ensures var e, r := Dispatched(s, d.events, pageSize), Round(s, d, pageSize);
      && (e.1 == Ok && d.ret != -1 && !e.0.shouldClose ==> r == (DrawnFrame(e.0), Drew))
      && (r.1.Ended? && r.1.exit.Panicked? <==> e.1 != Ok)
      && (e.1 != Ok ==> r == (e.0, Ended(Panicked(e.1.reason))))
  {
    var e := Dispatched(s, d.events, pageSize);
    DispatchedFacts(s, d.events, pageSize);
    var f := DrawnFrame(e.0);
    AppendedEntries(s.log, e.0.log, f.log);
  }

  /** `while (wl_display_dispatch(..) != -1 && !win.should_close) draw_frame(&win)`:
      the state at the end, the number of frames drawn, and why it ended. */
  function Looped(s: WindowState, ds: seq<Dispatch>, pageSize: nat): (r: (WindowState, nat, Exit))
    requires DispatchesOk(ds) && PageSizeOk(pageSize)
    decreases |ds|
  {
    if ds == [] then (s, 0, InputEnded)
    else
      var round := Round(s, ds[0], pageSize);
      if round.1.Ended? then (round.0, 0, round.1.exit)
      else
        DispatchesSuffix(ds, 1);
        var l := Looped(round.0, ds[1..], pageSize);
        (l.0, l.1 + 1, l.2)
  }

  /** The loop runs until the dispatches run out, a dispatch returns -1, or
      closing has been requested, drawing one frame per iteration before
      that; once closing is requested it stays requested. */
  lemma {:induction false} LoopExit(s: WindowState, ds: seq<Dispatch>, pageSize: nat)
    requires DispatchesOk(ds) && PageSizeOk(pageSize)
    ensures var r := Looped(s, ds, pageSize);
      && r.1 <= |ds|
      && (r.2 == InputEnded <==> r.1 == |ds|)
      && (r.2 == Disconnected ==> ds[r.1].ret == -1)
      && (r.2 == CloseRequested ==> ds[r.1].ret != -1 && r.0.shouldClose)
      && (s.shouldClose ==> r.0.shouldClose)
      && Extends(r.0.log, s.log)
    decreases |ds|
  {
    if ds != [] {
      var round := Round(s, ds[0], pageSize);
      RoundFacts(s, ds[0], pageSize);
      if round.1 == Drew {
        DispatchesSuffix(ds, 1);
        LoopExit(round.0, ds[1..], pageSize);
        AppendedEntries(s.log, round.0.log, Looped(round.0, ds[1..], pageSize).0.log);
      }
    }
  }

  /** The loop after an iteration that draws is the rest of the loop, one frame more. */
  lemma LoopedAfterDraw(s: WindowState, ds: seq<Dispatch>, pageSize: nat)
    requires DispatchesOk(ds) && PageSizeOk(pageSize) && ds != []
    requires EventsOk(ds[0].events) && Round(s, ds[0], pageSize).1 == Drew
    ensures DispatchesOk(ds[1..])
    ensures var l := Looped(Round(s, ds[0], pageSize).0, ds[1..], pageSize);
      Looped(s, ds, pageSize) == (l.0, l.1 + 1, l.2)
  {
    DispatchesSuffix(ds, 1);
  }

  lemma DispatchesSuffix(ds: seq<Dispatch>, k: nat)
    requires DispatchesOk(ds) && k <= |ds|
    ensures DispatchesOk(ds[k..])
  {
    assert forall i :: 0 <= i < |ds[k..]| ==> ds[k..][i] == ds[k + i];
  }

  /** The loop ends with the iteration that ends it. */
  lemma LoopedAfterEnd(s: WindowState, ds: seq<Dispatch>, pageSize: nat)
    requires DispatchesOk(ds) && PageSizeOk(pageSize) && ds != []
    requires EventsOk(ds[0].events) && Round(s, ds[0], pageSize).1.Ended?
    ensures var round := Round(s, ds[0], pageSize);
      Looped(s, ds, pageSize) == (round.0, 0, round.1.exit)
  {
  }

  /** The run of twl_main after initialisation: the initial commit, the
      loop, and the disconnect when the loop ends. A panic ends the process
      before the disconnect. */
  function Ran(s: WindowState, ds: seq<Dispatch>, pageSize: nat): (r: (WindowState, nat, Exit))
    requires DispatchesOk(ds) && PageSizeOk(pageSize)
  {
    var l := Looped(s.(log := s.log + [Commit]), ds, pageSize);
    if l.2.Panicked? || l.2 == InputEnded then l
    else (l.0.(log := l.0.log + [Disconnect]), l.1, l.2)
  }

  /** twl_main commits the surface before any event is handled, and
      disconnects last unless it panicked. */
  lemma RunLog(s: WindowState, ds: seq<Dispatch>, pageSize: nat)
    requires DispatchesOk(ds) && PageSizeOk(pageSize)
    ensures var r := Ran(s, ds, pageSize);
      && Extends(r.0.log, s.log + [Commit])
      && (r.2 == Disconnected || r.2 == CloseRequested ==> r.0.log[|r.0.log| - 1] == Disconnect)
  {
    var start := s.(log := s.log + [Commit]);
    LoopExit(start, ds, pageSize);
    var l := Looped(start, ds, pageSize);
    var log := l.0.log + [Disconnect];
    assert log[..|start.log|] == l.0.log[..|start.log|];
  }

  /** Once closing is requested no further frame is drawn: the loop ends at
      the next dispatch. */
  lemma ClosedWindowDrawsNothing(s: WindowState, ds: seq<Dispatch>, pageSize: nat)
    requires DispatchesOk(ds) && PageSizeOk(pageSize)
    requires s.shouldClose && ds != []
    ensures Looped(s, ds, pageSize).1 == 0
    ensures Looped(s, ds, pageSize).2 != InputEnded
  {
    RoundFacts(s, ds[0], pageSize);
  }

  /** Events other than a close and a surface configure neither panic nor
      request closing. */
  lemma {:induction false} QuietDispatch(s: WindowState, events: seq<Event>, pageSize: nat)
    requires EventsOk(events) && PageSizeOk(pageSize)
    requires forall j :: 0 <= j < |events| ==> !events[j].ToplevelCloseEvent? && !events[j].SurfaceConfigureEvent?
    ensures Dispatched(s, events, pageSize).1 == Ok
    ensures Dispatched(s, events, pageSize).0.shouldClose == s.shouldClose
    decreases |events|
  {
    if events != [] {
      var h := EventHandled(s, events[0], pageSize);
      assert forall j :: 0 <= j < |events[1..]| ==> events[1..][j] == events[j + 1];
      QuietDispatch(h.0, events[1..], pageSize);
    }
  }

  /** A frame is drawn after each dispatch that neither fails, nor panics,
      nor delivers a close. */
  lemma {:induction false} LoopDrawsAfterQuietDispatch(s: WindowState, ds: seq<Dispatch>, pageSize: nat)
    requires DispatchesOk(ds) && PageSizeOk(pageSize)
    requires ds != [] && ds[0].ret != -1 && !s.shouldClose
    requires forall j :: 0 <= j < |ds[0].events| ==> !ds[0].events[j].ToplevelCloseEvent? && !ds[0].events[j].SurfaceConfigureEvent?
    ensures Looped(s, ds, pageSize).1 >= 1
    ensures var d := Dispatched(s, ds[0].events, pageSize).0;
      Extends(Looped(s, ds, pageSize).0.log, DrawnFrame(d).log)
  {
    QuietDispatch(s, ds[0].events, pageSize);
    LoopedAfterDraw(s, ds, pageSize);
    var round := Round(s, ds[0], pageSize);
    LoopExit(round.0, ds[1..], pageSize);
  }

  // ---------------------------------------------------------------------
  // struct twl_window

  /** The smallest number above every object the window starts with. */
  function FirstFreeId(ctx: Context, surface: nat, xdgSurface: nat, toplevel: nat): (n: nat)
    ensures n > ctx.display && n > ctx.compositor && n > ctx.shm && n > ctx.wmBase
    ensures n > surface && n > xdgSurface && n > toplevel
  {
    var m1 := if ctx.display > ctx.compositor then ctx.display else ctx.compositor;
    var m2 := if ctx.shm > ctx.wmBase then ctx.shm else ctx.wmBase;
    var m3 := if surface > xdgSurface then surface else xdgSurface;
    var m4 := if toplevel > m1 then toplevel else m1;
    var m5 := if m2 > m3 then m2 else m3;
    (if m4 > m5 then m4 else m5) + 1
  }

  /** A window after twl_window_init and the constraints of twl_main:
      everything zero but the context, the three surface objects and the
      constraints. */
  function Initial(ctx: Context, surface: nat, xdgSurface: nat, toplevel: nat, constraints: Constraints): WindowState
  {
    WindowState(ctx, surface, xdgSurface, toplevel, Pool(0, 0, 0), Buffer(FznStd.Mmap(0, 0), 0, false),
                constraints, ZeroConfig, ZeroConfig, false, [], FirstFreeId(ctx, surface, xdgSurface, toplevel))
  }

  /** A fresh window has no pool, no buffer, no mapping, and has sent nothing. */
  lemma InitialIsEmpty(ctx: Context, surface: nat, xdgSurface: nat, toplevel: nat, constraints: Constraints)
    ensures var s := Initial(ctx, surface, xdgSurface, toplevel, constraints);
      s.pool.fd == 0 && s.pool.size == 0 && s.buffer.proxy == 0 && s.buffer.mmap.addr == 0
      && !s.shouldClose && s.log == [] && s.nextId > toplevel
  {
  }

  class Window {
    var ctx: Context
    var surface: nat
    var xdgSurface: nat
    var toplevel: nat
    var pool: Pool
    var buffer: Buffer
    var constraints: Constraints
    var config: Config
    var configPending: Config
    var shouldClose: bool
    var log: seq<Request>
    var nextId: nat

    /** The struct's value. */
    function State(): WindowState
      reads this
    {
      WindowState(ctx, surface, xdgSurface, toplevel, pool, buffer, constraints,
                  config, configPending, shouldClose, log, nextId)
    }

    /** twl_window_init followed by `win.constraints = *constraints`. */
    constructor (ctx: Context, surface: nat, xdgSurface: nat, toplevel: nat, constraints: Constraints)
      ensures State() == Initial(ctx, surface, xdgSurface, toplevel, constraints)
    {
      this.ctx := ctx;
      this.surface := surface;
      this.xdgSurface := xdgSurface;
      this.toplevel := toplevel;
      pool := Pool(0, 0, 0);
      buffer := Buffer(FznStd.Mmap(0, 0), 0, false);
      this.constraints := constraints;
      config := ZeroConfig;
      configPending := ZeroConfig;
      shouldClose := false;
      log := [];
      nextId := FirstFreeId(ctx, surface, xdgSurface, toplevel);
    }

    /** cb_xdg_toplevel_configure */
    method ToplevelConfigure(width: I32, height: I32, states: seq<U32>)
      modifies this
      ensures State() == old(State()).(configPending := PendingConfig(width, height, states, constraints))
    {
      configPending := ZeroConfig;
      var w := width;
      if w == 0 {
        w := ToI32(constraints.defaultWidth);
      }
      var h := height;
      if h == 0 {
        h := ToI32(constraints.defaultHeight);
      }
      configPending := configPending.(width := ToU32(w), height := ToU32(h));
      ghost var base := configPending;
      assert base == ZeroConfig.(width := PendingExtent(width, constraints.defaultWidth),
                                 height := PendingExtent(height, constraints.defaultHeight));
      var i := 0;
      while i < |states|
        invariant 0 <= i <= |states|
        invariant configPending == ApplyStates(base, states[..i])
        invariant State() == old(State()).(configPending := configPending)
      {
        var state := states[i];
        ApplyStatesStep(base, states, i);
        if state == StateMaximized {
          configPending := configPending.(isMaximized := true);
        } else if state == StateActivated {
          configPending := configPending.(isActivated := true);
        } else if state == StateResizing {
          configPending := configPending.(isResizing := true);
        } else if state == StateFullscreen {
          configPending := configPending.(isFullscreen := true);
        }
        i := i + 1;
      }
      assert states[..i] == states;
    }

    /** configure_buffers */
    method ConfigureBuffers(w: BufferWorld, pageSize: nat) returns (status: Status)
      requires WorldOk(w) && PageSizeOk(pageSize)
      modifies this
      ensures (State(), status) == BuffersConfigured(old(State()), w, pageSize)
    {
      var bufferSize := BufferSize(config.width, config.height, pageSize);
      status := SetUpPool(PoolSize(bufferSize), w);
      if status != Ok {
        return;
      }
      status := TearDownBuffer(w.munmapOk);
      if status != Ok {
        return;
      }
      status := RebuildBuffer(bufferSize, w.mapping);
    }

    /** The pool part of configure_buffers. */
    method SetUpPool(poolSize: U32, w: BufferWorld) returns (status: Status)
      requires WorldOk(w)
      modifies this
      ensures (State(), status) == PoolStep(old(State()), poolSize, w)
    {
      status := Ok;
      if pool.fd == 0 {
        var fd, calls := Allocate(poolSize, w.attempts, w.truncs);
        log := log + OsCalls(calls);
        if fd < 0 {
          return Panic(ShmAllocateFailed);
        }
        pool := Pool(fd, poolSize, nextId);
        log := log + [CreatePool(nextId, fd, ToI32(poolSize))];
        nextId := nextId + 1;
      } else if poolSize > pool.size {
        var ok, calls := Resize(pool.fd, poolSize, w.truncs);
        log := log + OsCalls(calls);
        if ok != 0 {
          return Panic(ShmResizeFailed);
        }
        pool := pool.(size := poolSize);
        log := log + [ResizePool(pool.proxy, ToI32(poolSize))];
      }
    }

    /** The teardown part of configure_buffers. */
    method TearDownBuffer(munmapOk: bool) returns (status: Status)
      modifies this
      ensures (State(), status) == TeardownStep(old(State()), munmapOk)
    {
      log := log + TeardownRequests(buffer);
      var backBuffer := new FznStd.MmapRef(buffer.mmap);
      var err := backBuffer.Unmap(munmapOk);
      buffer := buffer.(mmap := backBuffer.Value());
      status := if err != FznStd.Success then Panic(MunmapBackBuffer) else Ok;
    }

    /** The mapping and buffer creation part of configure_buffers. */
    method RebuildBuffer(bufferSize: U32, mapping: MapOutcome) returns (status: Status)
      modifies this
      ensures (State(), status) == RebuildStep(old(State()), bufferSize, mapping)
    {
      var fd := pool.fd;
      var mmapConfig := FznStd.MmapConfig(bufferSize, ProtReadWrite, MapShared, fd, 0);
      log := log + [SysCall(MmapCall(bufferSize, fd, 0))];
      var bufferMmap := new FznStd.MmapRef(FznStd.Mmap(0, 0));
      var err := bufferMmap.New(mmapConfig, mapping);
      if err != FznStd.Success {
        return Panic(MmapBufferFailed);
      }
      buffer := Buffer(bufferMmap.Value(), nextId, false);
      log := log + [CreateBuffer(nextId, pool.proxy, 0, ToI32(config.width), ToI32(config.height),
                                 ToI32(Stride(config.width)), XRGB8888)];
      nextId := nextId + 1;
      status := Ok;
    }

    /** draw_frame */
    method DrawFrame()
      modifies this
      ensures State() == DrawnFrame(old(State()))
    {
      log := log + [DrawHook(buffer.mmap.addr)];
      log := log + [Attach(buffer.proxy, 0, 0)];
      log := log + [DamageBuffer(0, 0, ToI32(config.width), ToI32(config.height))];
      log := log + [Commit];
      buffer := buffer.(inUse := true);
    }

    /** cb_xdg_surface_configure */
    method SurfaceConfigure(serial: U32, w: BufferWorld, pageSize: nat) returns (status: Status)
      requires WorldOk(w) && PageSizeOk(pageSize)
      modifies this
      ensures (State(), status) == SurfaceConfigured(old(State()), serial, w, pageSize)
    {
      config := configPending;
      log := log + [AckConfigure(serial)];
      status := ConfigureBuffers(w, pageSize);
      if status != Ok {
        return;
      }
      DrawFrame();
    }

    /** cb_wl_buffer_release */
    method BufferRelease()
      modifies this
      ensures State() == Released(old(State()))
    {
      buffer := buffer.(inUse := false);
    }

    /** cb_xdg_toplevel_close */
    method Close()
      modifies this
      ensures State() == Closed(old(State()))
    {
      shouldClose := true;
    }

    /** The listener the event is delivered to. */
    method HandleEvent(e: Event, pageSize: nat) returns (status: Status)
      requires EventOk(e) && PageSizeOk(pageSize)
      modifies this
      ensures (State(), status) == EventHandled(old(State()), e, pageSize)
    {
      status := Ok;
      match e
      case ToplevelConfigureEvent(width, height, states) =>
        ToplevelConfigure(width, height, states);
      case ToplevelCloseEvent =>
        Close();
      case ConfigureBoundsEvent(_, _) =>
      case WmCapabilitiesEvent(_) =>
      case SurfaceConfigureEvent(serial, world) =>
        status := SurfaceConfigure(serial, world, pageSize);
      case BufferReleaseEvent =>
        BufferRelease();
    }

    /** The listener calls of one `wl_display_dispatch`. */
    method HandleEvents(events: seq<Event>, pageSize: nat) returns (status: Status)
      requires EventsOk(events) && PageSizeOk(pageSize)
      modifies this
      ensures (State(), status) == Dispatched(old(State()), events, pageSize)
    {
      var i := 0;
      while i < |events|
        invariant 0 <= i <= |events|
        invariant Dispatched(old(State()), events, pageSize) == Dispatched(State(), events[i..], pageSize)
      {
        assert events[i..][0] == events[i] && events[i..][1..] == events[i + 1..];
        status := HandleEvent(events[i], pageSize);
        if status != Ok {
          return;
        }
        i := i + 1;
      }
      status := Ok;
    }

    /** One iteration of twl_main's loop. */
    method RunRound(d: Dispatch, pageSize: nat) returns (end: RoundEnd)
      requires EventsOk(d.events) && PageSizeOk(pageSize)
      modifies this
      ensures (State(), end) == Round(old(State()), d, pageSize)
    {
      var status := HandleEvents(d.events, pageSize);
      if status != Ok {
        return Ended(Panicked(status.reason));
      }
      if d.ret == -1 {
        return Ended(Disconnected);
      }
      if shouldClose {
        return Ended(CloseRequested);
      }
      DrawFrame();
      end := Drew;
    }

    /** The `while` loop of twl_main. */
    method DispatchLoop(ds: seq<Dispatch>, pageSize: nat) returns (frames: nat, exit: Exit)
      requires DispatchesOk(ds) && PageSizeOk(pageSize)
      modifies this
      ensures (State(), frames, exit) == Looped(old(State()), ds, pageSize)
    {
      ghost var s0 := State();
      ghost var result := Looped(s0, ds, pageSize);
      frames := 0;
      while frames < |ds|
        invariant frames <= |ds|
        invariant result == var l := Looped(State(), ds[frames..], pageSize); (l.0, l.1 + frames, l.2)
      {
        var rest := ds[frames..];
        DispatchesSuffix(ds, frames);
        assert rest[0] == ds[frames] && rest[1..] == ds[frames + 1..];
        ghost var before := State();
        var end := RunRound(ds[frames], pageSize);
        if end.Ended? {
          LoopedAfterEnd(before, rest, pageSize);
          return frames, end.exit;
        }
        LoopedAfterDraw(before, rest, pageSize);
        frames := frames + 1;
      }
      exit := InputEnded;
    }

    /** twl_main from the first commit to the disconnect. */
    method Run(ds: seq<Dispatch>, pageSize: nat) returns (frames: nat, exit: Exit)
      requires DispatchesOk(ds) && PageSizeOk(pageSize)
      modifies this
      ensures (State(), frames, exit) == Ran(old(State()), ds, pageSize)
    {
      log := log + [Commit];
      frames, exit := DispatchLoop(ds, pageSize);
      if exit.Disconnected? || exit.CloseRequested? {
        log := log + [Disconnect];
      }
    }
  }
}
