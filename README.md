# wayland-text in Dafny

A model of the core of wayland-text, a small Wayland client. The client opens
one xdg toplevel window, backs it with a shared-memory buffer, and redraws a
scrolling checkerboard after every `wl_display_dispatch` until the compositor
disconnects or asks the window to close.

The model covers five pieces:

- **The window layer** (`src/wayland/wayland.c`), in module `Wayland`.
  - `struct twl_window` is the class `Wayland.Window`, with one method per
    callback:
    - `cb_xdg_toplevel_configure`
    - `cb_xdg_surface_configure`
    - `cb_wl_buffer_release`
    - `cb_xdg_toplevel_close`
    - the two advisory callbacks
  - It also has a method for each of `configure_buffers`, `draw_frame` and
    the main loop of `twl_main`.
  - Each method is proved equal to a function on `WindowState`, the struct's
    value, and lemmas state what those functions guarantee.
  - Every request sent to the compositor and every system call made for the
    window is appended to the window's `log`. This lets order be stated: the
    ack comes first, then the pool request, then the destroy and munmap of
    the old buffer, then the mmap and buffer creation, then attach, damage
    and commit.
  - Wayland objects are numbered, 0 standing for NULL. A `panic` is the
    `Panic` status, returned with the state reached when the process exits.
- **The shared-memory helpers** (`src/wayland/utils/shm.c`), in module `Shm`:
  - `randname`, as an in-place array method
  - the `create_shm_file` retry loop
  - the EINTR retry loops of `twl_shm_allocate` and `twl_shm_resize`

  Each loop is a method proved equal to a specification function.
- **The small standard library** (`src/wayland/utils/fzn_std.c`), in module
  `FznStd`:
  - the borrowed-or-owned byte string `fzn_str`. Its value is `Str`, and the
    storage a `fzn_str *` points to is the class `StrRef`.
  - the `fzn_mmap` handle, as the value `Mmap` and the class `MmapRef`
- **The older mapping helpers** (`src/wayland/utils/fzn_mmap.c`), in module
  `FznMmap`.
- **The demo** (`src/main.c`), in module `Demo`:
  - its draw hook, the class `Renderer`, whose field is the hook's
    `static int i`
  - the 800-by-600 default size

Module `Os` holds the C integer types and the system calls as data. Module
`Bits` defines C's `&` on naturals one bit at a time, with the facts that the
page mask and randname's masks rely on.

### Oracles and parameters

Nothing in the model performs I/O. Whatever the program learns from the
outside world is a parameter:

- the page size (`getpagesize`)
- the clock readings and the `shm_open` outcome of each attempt
  (`Shm.Attempt`)
- the `ftruncate` outcomes
- whether `munmap` succeeds
- what `mmap` returns (`MapOutcome`)
- whether `malloc` or `realloc` succeed
- the events each `wl_display_dispatch` delivers, and its return value
  (`Wayland.Dispatch`)

In the window geometry of `configure_buffers` and in the demo's size
defaults, C integers wrap in the model as well (`Os.ToU32`, `Os.ToI32`,
`Wayland.Not64`). The geometry lemmas state their results under the
condition `Wayland.Fits`, under which nothing wraps. The `size_t` lengths
and capacities of the string functions are unbounded naturals (see
"## Left out").

## Model

| member | source | states |
|---|---|---|
| Os.ToU32 | src/wayland/wayland.c:107-108 | storing an int32_t into a uint32_t keeps values in range, and otherwise agrees modulo 2^32 |
| Os.ToI32 | src/wayland/wayland.c:102-105 | storing a uint32_t default into the int32_t parameter keeps values below 2^31, and otherwise agrees modulo 2^32 |
| Os.U32RoundTrip | src/wayland/wayland.c:102-108 | a uint32_t default that passes through the int32_t parameter comes back unchanged |
| Wayland.Not64 | src/wayland/wayland.c:148 | `~x` on a 64-bit size_t: the result and x add up to 2^64 - 1 |
| Wayland.AlignToPageSize | src/wayland/wayland.c:146-150 | the mask is evaluated as written; for a power-of-two page size the result is a multiple of the page size, not below size, and less than one page above it |
| Wayland.AlignIsSmallest | src/wayland/wayland.c:146-150 | no multiple of the page size that is at least size lies below the result |
| Wayland.MaskNeedsPowerOfTwo | src/wayland/wayland.c:148 | with a page size of 3, which is not a power of two, the mask maps size 1 to 1, not a multiple of 3 |
| Wayland.GeometryExact | src/wayland/wayland.c:153-163 | when the geometry fits in 32 bits: stride is 4·width; buffer_size is the smallest page multiple holding 4·width·height bytes; pool_size is 2·buffer_size |
| Wayland.Stride | src/wayland/wayland.c:155 | `stride = width * 4`, stored in a uint32_t, so it wraps modulo 2^32 |
| Wayland.BufferSize | src/wayland/wayland.c:158-161 | `stride * height` wraps in uint32_t, is rounded up to the page size, and is stored back into a uint32_t |
| Wayland.PoolSize | src/wayland/wayland.c:159-163 | two buffers' worth, `buffer_size * num_buffers`, wrapping in uint32_t |
| Wayland.DefaultGeometry | src/wayland/wayland.c:153-163 | 800×600 with 4096-byte pages gives buffer_size 1,921,024 and pool_size 3,842,048 |
| Wayland.ApplyState | src/wayland/wayland.c:112-126 | one pass of the switch sets exactly the flag named by the value; other values are ignored; width and height are kept |
| Wayland.ApplyStates | src/wayland/wayland.c:110-127 | after the for-each loop, each flag is set iff it was set before or its value occurs in the array |
| Wayland.PendingExtent | src/wayland/wayland.c:102-108 | the stored width is the constraint default iff the argument is 0, and otherwise the argument as uint32_t |
| Wayland.PendingConfig | src/wayland/wayland.c:98-128 | the pending config starts from zero; width and height are defaulted iff 0; each of the four flags is set iff its state value is in the array |
| Wayland.PendingIgnoresOrder | src/wayland/wayland.c:110-127 | two state arrays with the same values give the same pending config, whatever their order and repetitions |
| Wayland.Window.ToplevelConfigure | src/wayland/wayland.c:98-128 | the loop leaves config_pending equal to PendingConfig, and every other field, the applied config included, unchanged |
| Wayland.PoolStep | src/wayland/wayland.c:165-182 | the pool step changes only the pool, the log and the id counter, and it only appends to the log |
| Wayland.Window.SetUpPool | src/wayland/wayland.c:165-182 | allocating or growing the pool in place gives the state and status of PoolStep |
| Wayland.PoolRequestsShape | src/wayland/wayland.c:165-182 | the pool step sends only shm system calls and at most one create or resize request, which comes last; nothing when the pool exists and is big enough; after allocating, the allocation's calls and, on success, `wl_shm_create_pool` with the new fd and pool_size; after growing, the resize's calls and, on success, `wl_shm_pool_resize` with pool_size |
| Wayland.PoolLifecycle | src/wayland/wayland.c:165-182 | an existing pool keeps its fd and proxy; a big enough pool is left alone; a new pool holds the created fd and exactly pool_size; after success the pool holds at least pool_size and has not shrunk |
| Wayland.TeardownStep | src/wayland/wayland.c:184-186 | only the buffer's mapping and the log change; the log only grows |
| Wayland.Window.TearDownBuffer | src/wayland/wayland.c:184-186 | destroys the old wl_buffer if any, then unmaps the old mapping through fzn_mmap_unmap, and panics if that fails |
| Wayland.MapStep | src/wayland/wayland.c:188-200 | corrected mapping step: Ok iff mmap succeeds, and then the handle is the new address with buffer_size bytes |
| Wayland.MapStepAsWritten | src/wayland/wayland.c:196-200 | mapping step as written (test of an uninitialised local): agrees with MapStep whenever mmap succeeds |
| Wayland.MapFailureUnnoticed | src/wayland/wayland.c:196-200 | a failed mmap with a non-NULL stale local gives Ok and a mapping that was never made, where MapStep panics |
| Wayland.MapStepAsWrittenWhenNull | src/wayland/wayland.c:196-200 | when the local starts NULL, the as-written and corrected steps panic on the same outcomes |
| Wayland.RebuildStep | src/wayland/wayland.c:188-206 | only the buffer, the log and the id counter change; the log only grows |
| Wayland.Window.RebuildBuffer | src/wayland/wayland.c:188-206 | maps buffer_size bytes of the pool at offset 0, then creates the wl_buffer with the current geometry, not in use |
| Wayland.BuffersConfigured | src/wayland/wayland.c:152-207 | configure_buffers only appends to the log, and leaves config, config_pending and should_close alone |
| Wayland.Window.ConfigureBuffers | src/wayland/wayland.c:152-207 | the three stages in place give the state and status of BuffersConfigured |
| Wayland.ConfigureBuffersPanics | src/wayland/wayland.c:165-200 | each of the four panics happens iff its own system call fails after the earlier steps succeeded; Ok iff none fails. For the mmap panic this holds of the corrected mapping step, MapStep |
| Wayland.ConfigureBuffersOk | src/wayland/wayland.c:184-206 | on success the buffer is a fresh, not-in-use wl_buffer over a new mapping of buffer_size bytes; the log is the pool requests, then destroy and munmap of the old buffer, then mmap, then create_buffer at offset 0 with width, height, stride and XRGB8888 |
| Wayland.BufferWithinPool | src/wayland/wayland.c:153-206 | when the geometry fits, the buffer holds the whole frame, two buffers fit in the pool, and the stride is 4·width |
| Wayland.ConfigureBuffersSendsNoAck | src/wayland/wayland.c:152-207 | configure_buffers sends no ack |
| Wayland.DrawnFrame | src/wayland/wayland.c:280-289 | draw_frame logs the hook call with the current mapping, then attach, damage(0, 0, width, height) and commit, and sets only in_use |
| Wayland.Window.DrawFrame | src/wayland/wayland.c:280-289 | in place, the state becomes DrawnFrame of the old state |
| Wayland.DrawIgnoresInUse | src/wayland/wayland.c:280-289 | draw_frame behaves the same whether or not the buffer is in use |
| Wayland.SurfaceConfigured | src/wayland/wayland.c:87-96 | the applied config becomes exactly config_pending; the log starts with the old log and the ack of the serial |
| Wayland.Window.SurfaceConfigure | src/wayland/wayland.c:87-96 | copy the config, ack, configure_buffers, then draw_frame unless it panicked, as SurfaceConfigured |
| Wayland.SurfaceConfigureAcksOnce | src/wayland/wayland.c:87-96 | the first entry the callback logs is the ack of the received serial, and no later entry is an ack |
| Wayland.SurfaceConfigureDraws | src/wayland/wayland.c:87-96 | on success the callback ends with the hook on the new mapping, then attach of the new buffer, damage of the pending size and commit; the buffer is then in use |
| Wayland.Released | src/wayland/wayland.c:82-85 | buffer release clears in_use and changes nothing else |
| Wayland.Window.BufferRelease | src/wayland/wayland.c:82-85 | in place, the state becomes Released of the old state |
| Wayland.ReleaseUndoesDraw | src/wayland/wayland.c:82-85 | a release after drawing into a free buffer restores the state before the draw, apart from the log |
| Wayland.Closed | src/wayland/wayland.c:130-133 | close sets should_close and changes nothing else |
| Wayland.Window.Close | src/wayland/wayland.c:130-133 | in place, the state becomes Closed of the old state |
| Wayland.AdvisoriesChangeNothing | src/wayland/wayland.c:135-141 | configure_bounds and wm_capabilities return Ok and leave the window unchanged; a toplevel configure changes only config_pending |
| Wayland.EventHandled | src/wayland/wayland.c:54-59 | the listener for each event: only a close sets should_close, no other event changes it, and only a surface configure can panic |
| Wayland.EventLogGrows | src/wayland/wayland.c:54-59 | every listener only appends to the log |
| Wayland.Window.HandleEvent | src/wayland/wayland.c:46-59 | the event is delivered to its listener, as EventHandled |
| Wayland.Window.HandleEvents | src/wayland/wayland.c:271 | one dispatch delivers its events in order until one panics, as Dispatched |
| Wayland.Dispatched | src/wayland/wayland.c:271 | the events of one `wl_display_dispatch`, handled in order until one panics |
| Wayland.Round | src/wayland/wayland.c:271-274 | one loop iteration: dispatch, then the loop condition (-1 or should_close), then `draw_frame` |
| Wayland.Looped | src/wayland/wayland.c:271-274 | the while loop: rounds until one ends, counting the frames drawn |
| Wayland.Ran | src/wayland/wayland.c:269-276 | twl_main after init: commit, the loop, then disconnect unless a panic or the end of input stopped it |
| Wayland.DispatchedFacts | src/wayland/wayland.c:271 | a dispatch only appends to the log; should_close, once set, stays set; when it becomes set, the dispatch contained a close event |
| Wayland.QuietDispatch | src/wayland/wayland.c:271 | a dispatch with neither a close nor a surface configure neither panics nor changes should_close |
| Wayland.RoundFacts | src/wayland/wayland.c:271-274 | an iteration draws iff the dispatch did not panic, did not return -1 and left should_close unset; it ends in a panic iff the dispatch panicked, with the same reason; otherwise the end reason is the loop condition's |
| Wayland.Window.RunRound | src/wayland/wayland.c:271-274 | dispatch, test the loop condition, draw, as Round |
| Wayland.LoopExit | src/wayland/wayland.c:271-274 | the loop draws one frame per iteration; it ends on a dispatch that returns -1 (Disconnected) or when should_close is set (CloseRequested), or when the input runs out; should_close never reverts; the log only grows |
| Wayland.LoopedAfterDraw | src/wayland/wayland.c:271-274 | an iteration that draws is followed by the rest of the loop, with one frame more |
| Wayland.LoopedAfterEnd | src/wayland/wayland.c:271-274 | an iteration that ends the loop yields that state and reason with no frame |
| Wayland.ClosedWindowDrawsNothing | src/wayland/wayland.c:271-274 | once should_close is set, no further frame is drawn |
| Wayland.LoopDrawsAfterQuietDispatch | src/wayland/wayland.c:271-274 | a dispatch that is not -1 and delivers neither a close nor a surface configure is followed by a drawn frame |
| Wayland.Window.DispatchLoop | src/wayland/wayland.c:271-274 | the while loop, with its frame count, gives the state, frame count and exit reason of Looped |
| Wayland.RunLog | src/wayland/wayland.c:269-276 | twl_main commits the surface before any event is handled, and disconnects last when the loop ends normally |
| Wayland.Window.Run | src/wayland/wayland.c:269-276 | commit, loop, then disconnect unless a panic ended the process, as Ran |
| Wayland.FirstFreeId | src/wayland/wayland.c:240-248 | the first id the window hands out exceeds those of the context and the three surface objects |
| Wayland.InitialIsEmpty | src/wayland/wayland.c:234 | a zero-initialised window has no pool, buffer or mapping, is not closing, and has sent nothing |
| Wayland.Initial | src/wayland/wayland.c:233-238 | the window after `zero_init`: the context, the surface ids and the constraints set, everything else zero |
| Wayland.Window.constructor | src/wayland/wayland.c:233-255 | the window after twl_window_init and `win.constraints = *constraints` |
| Shm.Letter | src/wayland/utils/shm.c:16 | the character is 'A' + r mod 16, or lower case when bit 4 of r is set, so it lies in 'A'..'P' or 'a'..'p' |
| Shm.Shifted | src/wayland/utils/shm.c:17 | r after n passes of `r >>= 5` |
| Shm.NameLetters | src/wayland/utils/shm.c:15-18 | the six characters randname writes, each a Letter of the shifted count |
| Shm.ShmName | src/wayland/utils/shm.c:24-25 | the template "/wl_shm-XXXXXX" with its six X's replaced by NameLetters |
| Shm.LetterReadsFiveBits | src/wayland/utils/shm.c:16 | the character depends only on the low five bits of r |
| Shm.ShiftedIsDivision | src/wayland/utils/shm.c:17 | n shifts `r >>= 5` divide r by 2^(5n) |
| Shm.NameLetterBits | src/wayland/utils/shm.c:14-18 | character i is determined by bits 5i..5i+4 of the nanosecond count |
| Shm.RandName | src/wayland/utils/shm.c:11-19 | writes six letters at buf[off..off+6), letter i from the count shifted i times, and leaves every other index alone |
| Shm.ShmNameShape | src/wayland/utils/shm.c:24-25 | only indices 8..13 of the name are replaced, by letters; the "/wl_shm-" prefix and the terminator survive |
| Shm.FreshName | src/wayland/utils/shm.c:24-25 | the stack array after randname is ShmName of the count |
| Shm.CreationOutcome | src/wayland/utils/shm.c:21-34 | create_shm_file stops at the first attempt that opens, fails with another error than EEXIST, or is the hundredth; it returns the fd after unlinking that name, or -1; the calls are one shm_open per attempt |
| Shm.CreationFrom | src/wayland/utils/shm.c:23-33 | the do-while loop of create_shm_file from attempt k on: unlink and return on open, retry on EEXIST before the hundredth attempt, else -1 |
| Shm.ShmFileCreation | src/wayland/utils/shm.c:21-34 | create_shm_file: CreationFrom attempt 0 |
| Shm.CreationOutcomeFrom | src/wayland/utils/shm.c:23-32 | the same from any attempt onwards, by induction on the remaining attempts |
| Shm.CreateShmFile | src/wayland/utils/shm.c:21-34 | the do-while loop with its retries counter returns what ShmFileCreation gives |
| Shm.FirstSettled | src/wayland/utils/shm.c:41-43 | the first ftruncate outcome that is not EINTR; all before it are EINTR |
| Shm.FtruncateRetrying | src/wayland/utils/shm.c:40-43 | ftruncate is called exactly until the first outcome that is not EINTR, and success is that outcome |
| Shm.Allocation | src/wayland/utils/shm.c:36-50 | a non-negative result is the created fd, after a successful truncate; otherwise it is -1 |
| Shm.AllocationWithoutFile | src/wayland/utils/shm.c:37-39 | without a file, -1 is returned and only shm_open was called |
| Shm.AllocationWithFile | src/wayland/utils/shm.c:40-49 | with a file, the calls after create_shm_file's are exactly FirstSettled + 1 `ftruncate(fd, size)` calls; on success the fd is returned and the last call is the ftruncate; on failure the fd is closed last and -1 returned |
| Shm.Allocate | src/wayland/utils/shm.c:36-50 | twl_shm_allocate returns what Allocation gives |
| Shm.Resizing | src/wayland/utils/shm.c:52-66 | the result is 0 iff the settling ftruncate succeeded; the calls are exactly FirstSettled + 1 ftruncates of fd to size, followed on failure (-1) by the close of the caller's fd |
| Shm.Resize | src/wayland/utils/shm.c:52-66 | twl_shm_resize returns what Resizing gives |
| FznStd.Code | src/wayland/utils/fzn_std.h:6-11 | only FZN_SUCCESS has the value 0 |
| FznStd.CodeInjective | src/wayland/utils/fzn_std.h:6-11 | distinct fzn_err enumerators have distinct values |
| FznStd.Strlen | src/wayland/utils/fzn_std.c:55 | strlen is the index of the first NUL |
| FznStd.CString | src/wayland/utils/fzn_std.c:55-60 | the bytes before the first NUL: they hold no NUL and are followed by one |
| FznStd.Empty | src/wayland/utils/fzn_std.c:11-14 | the empty string: NULL data, capacity 0, no contents, freeable, not owned |
| FznStd.New | src/wayland/utils/fzn_std.c:16-26 | a borrowed view: contents are the C string, len is strlen, capacity 0, not owned |
| FznStd.Charp | src/wayland/utils/fzn_std.c:78-82 | "" when data is NULL, and otherwise the bytes data points to |
| FznStd.CharpReadsContents | src/wayland/utils/fzn_std.c:78-82 | read as a C string, the result is the contents, provided they hold no NUL and a NUL follows them |
| FznStd.MadeOwned | src/wayland/utils/fzn_std.c:30-48 | contents kept; an owned string is returned unchanged with success; a borrowed one becomes owned with capacity len iff malloc succeeds, and is left unchanged with STR_ALLOC_FAILED otherwise |
| FznStd.StrRef.MakeOwned | src/wayland/utils/fzn_std.c:30-48 | in place, as MadeOwned |
| FznStd.MakeOwnedIdempotent | src/wayland/utils/fzn_std.c:28-33 | a second make_owned succeeds and changes nothing |
| FznStd.MakeOwnedDropsTerminator | src/wayland/utils/fzn_std.c:35-45 | the owned copy of a borrowed string has no room for its NUL |
| FznStd.Reserved | src/wayland/utils/fzn_std.c:84-99 | nothing changes when capacity exceeds the request; otherwise on success the capacity is max(request, 2·capacity), the old bytes are kept, and the result is at least the request; on failure the string is unchanged |
| FznStd.StrRef.Reserve | src/wayland/utils/fzn_std.c:84-99 | in place, as Reserved |
| FznStd.Memmove | src/wayland/utils/fzn_std.c:60 | the bytes of src replace those at [at, at + len src), and all others are kept |
| FznStd.CopiedIn | src/wayland/utils/fzn_std.c:60-63 | after the copy and the NUL, the contents are the old contents followed by src, and the string is terminated |
| FznStd.StrRef.CopyIn | src/wayland/utils/fzn_std.c:60-63 | in place, as CopiedIn |
| FznStd.AppendedToOwned | src/wayland/utils/fzn_std.c:57-63 | on success the contents grow by src, the capacity exceeds len and the string is terminated; on failure it is unchanged |
| FznStd.StrRef.AppendToOwned | src/wayland/utils/fzn_std.c:57-63 | in place, as AppendedToOwned |
| FznStd.Appended | src/wayland/utils/fzn_std.c:50-66 | on success the contents are the old contents followed by the C string, len grows by strlen, capacity exceeds len, a NUL follows, and the string is owned; on failure the result is STR_ALLOC_FAILED with the contents unchanged |
| FznStd.StrRef.Append | src/wayland/utils/fzn_std.c:50-66 | in place, as Appended |
| FznStd.AppendReadable | src/wayland/utils/fzn_std.c:50-66 | after a successful append, fzn_str_charp reads back the old contents followed by the appended string |
| FznStd.StrRef.Free | src/wayland/utils/fzn_std.c:68-76 | the string becomes the empty string, with success |
| FznStd.MmapCreated | src/wayland/utils/fzn_std.c:103-112 | success iff mmap succeeds, and then the handle has the new address and config.size; on failure MMAP_FAILED with *out untouched |
| FznStd.MmapRef.New | src/wayland/utils/fzn_std.c:103-112 | in place, as MmapCreated |
| FznStd.MmapUnmapped | src/wayland/utils/fzn_std.c:114-126 | a NULL handle is left alone with success; otherwise success iff munmap succeeds, and then addr is NULL; on failure MMAP_UNMAP_FAILED with the handle kept |
| FznStd.MmapRef.Unmap | src/wayland/utils/fzn_std.c:114-126 | in place, as MmapUnmapped |
| FznStd.UnmapAgainSucceeds | src/wayland/utils/fzn_std.c:114-126 | after a successful release, a second one succeeds and changes nothing |
| FznMmap.Map | src/wayland/utils/fzn_mmap.c:5-17 | a failed mmap gives {NULL, 0}; a successful one gives the address and the requested size |
| FznMmap.Unmapped | src/wayland/utils/fzn_mmap.c:19-25 | afterwards addr is NULL and size unchanged whatever munmap returned; 0 is returned for a NULL handle or a successful munmap, -1 otherwise; munmap is called iff addr was non-NULL |
| FznMmap.HandleRef.Munmap | src/wayland/utils/fzn_mmap.c:19-25 | in place, as Unmapped |
| FznMmap.UnmapTwice | src/wayland/utils/fzn_mmap.c:19-24 | a second fzn_munmap returns 0 and makes no call |
| FznMmap.FailedUnmapForgetsAddress | src/wayland/utils/fzn_mmap.c:22-24 | a failed fzn_munmap forgets the address, so it cannot be retried; fzn_mmap_unmap would keep it |
| Demo.Colour | src/main.c:14-18 | the colour is 0xFF666666, with the blue byte 0xFF iff resizing and the red byte 0xFF iff activated |
| Demo.Pixel | src/main.c:22-25 | pixel (x, y) of frame i: the colour when `(i + x + (y / 16) * 16) % 32 < 16`, else 0xFFEEEEEE |
| Demo.Row | src/main.c:21-26 | the width pixels of row y, as the inner loop writes them |
| Demo.ColourIsNotBackground | src/main.c:14-25 | the two pattern colours differ |
| Demo.PixelPeriodic | src/main.c:22 | the pattern repeats every 32 columns |
| Demo.PixelBand | src/main.c:22 | rows in the same band of 16 are equal |
| Demo.PixelChecker | src/main.c:22-25 | the next band down swaps the colours, giving 16-by-16 squares |
| Demo.PixelScrolls | src/main.c:11-22 | each frame shifts the pattern one pixel to the left |
| Demo.Frame | src/main.c:20-27 | the frame has width·height pixels |
| Demo.FrameAt | src/main.c:20-25 | index y·width + x of the frame lies inside it and holds pixel (x, y) |
| Demo.DrawRow | src/main.c:21-26 | the inner loop writes row y at data[row..row+width] and nothing else |
| Demo.Renderer.Draw | src/main.c:5-28 | the counter grows by exactly 1; the first width·height words become the frame of the new counter value; no word beyond is touched |
| Demo.Renderer.constructor | src/main.c:6 | the counter starts at 0 |
| Demo.DefaultWindow | src/main.c:31-34 | with a 0-by-0 configure, the pending size is the 800×600 default; with 4096-byte pages it fits, and its buffer holds the frame |

## Left out

- Connecting to the display, binding registry globals, ping/pong, and the
  remaining work of `twl_init`/`twl_window_init`: setting the title and
  adding listeners (src/wayland/wayland.c:64-80, 209-255). These are
  libwayland calls. Their result is the state the `Window` constructor
  receives: the context and the three surface object ids.
- `wl_display_dispatch` blocking, and `usleep(160)`. A dispatch is data: the
  events it delivers and what it returns. The model receives a finite list
  of dispatches, so a loop still running when the list ends finishes with
  `InputEnded`. The model neither commits nor disconnects in that case.
- `printf`, `perror` and `exit`. `panic` is the `Panic` status; the printed
  messages are the reasons in `PanicReason`.
- The draw hook's function pointer and user data. `draw_frame` logs the call
  as `DrawHook(address)`. What the hook does is modelled separately, as
  `Demo.Renderer.Draw` on an array that stands for the mapping.
- A `draw_frame` before the first surface configure draws with a NULL
  buffer. The model logs it as `DrawHook(0)` and says nothing about the
  hook's memory.
- `xdg_toplevel` state values beyond the four the switch names, including
  `SUSPENDED`. They are ignored, as in the code.
- The root-level `wayland.c`, a superseded single-shot variant.
  `twl_shm_close` is a one-line wrapper of `close`.
- `fzn_errno_str`. It is declared in `fzn_std.h` but defined nowhere.
- Concurrency. The compositor's use of a buffer between attach and release
  is only the `in_use` flag.
- Wayland.PoolLifecycle: "never shrinks" is stated only when the old fd is
  non-zero or the old size is 0. Pool fd 0 stands for "no pool", as in the
  code (`!win->pool.fd`), so a pool whose descriptor happens to be 0 is
  re-allocated with the new size on the next call.
- FznStd.StrRef.Free: requires a string whose data is NULL or a heap block.
  `free` on a borrowed C string is undefined behaviour.
- FznStd.Reserved: the bytes `realloc` adds are modelled as zeros. C leaves
  them indeterminate, and no contract reads them.
- Demo.Renderer.Draw: requires that the counter plus width and height stay
  below 2^31 and that width·height is below 2^32. This excludes the int
  overflow of `static int i` and of `i + x + (y / 16) * 16`, and the
  uint32_t wrap of `y * width + x`.
- Demo.DrawRow: a separate method holding the inner `for` loop of `draw`.
  Its assignment is the same ternary as the loop body.
- Wayland.GeometryExact, Wayland.BufferWithinPool: stated under
  `Fits(width, height, pageSize)`. Without it, `stride * height` and
  `buffer_size * num_buffers` wrap in uint32_t; the functions model that
  wrap, but no lemma describes the wrapped values.
- Wayland.ConfigureBuffersPanics, Wayland.RebuildStep, Wayland.Window.RebuildBuffer:
  they use the corrected mapping step `MapStep`, which panics iff
  `fzn_mmap_new` fails (see "## Findings"). The code as written tests an
  uninitialised local instead; that behaviour is `MapStepAsWritten`, and the
  rest of the model does not use it.
- FznStd.Reserved, FznStd.CopiedIn, FznStd.AppendedToOwned: `size_t`
  lengths and capacities are unbounded naturals. The model does not wrap
  `str->len + n + 1`, `str->len += n` or `str->capacity * 2`
  (src/wayland/utils/fzn_std.c:57, 61, 88).
- Shm.Settles, Wayland.WorldOk: the `ftruncate` outcomes must include one
  that is not EINTR. On outcomes that are all EINTR, the retry loops of
  `twl_shm_allocate` and `twl_shm_resize` never end
  (src/wayland/utils/shm.c:41-43, 54-59); the model does not describe that run.
- `getpagesize` is a parameter. It is required to be a power of two below
  2^31, which the mask in `align_to_pagesize` relies on.

## Findings

| source | as written | input that shows it | evidently intended | confidence | as-written member | corrected member |
|---|---|---|---|---|---|---|
| src/wayland/wayland.c:196-200 | `buffer_mmap` is an uninitialised local; the result of `fzn_mmap_new` is ignored, and the NULL test reads the local's address, which a failed `fzn_mmap_new` never writes | mmap returns MAP_FAILED while the stack slot of `buffer_mmap` holds a non-NULL address (e.g. 4096): no panic, and the window keeps and draws into a mapping that does not exist | panic whenever `fzn_mmap_new` fails (or zero-initialise the local) | not executed | Wayland.MapFailureUnnoticed | Wayland.MapStep |
