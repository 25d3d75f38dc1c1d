/**
 * The shared-memory helpers of the window layer: a random object name,
 * creation of an anonymous POSIX shared-memory object with bounded
 * retries, and sizing it with `ftruncate`, retried while interrupted.
 *
 * The clock, `shm_open` and `ftruncate` are oracles: each attempt reads
 * its nanosecond count and its `shm_open` outcome from a list, and each
 * `ftruncate` its outcome from another. The calls made are returned as a
 * trace. Each loop is a method proved equal to a specification function,
 * and the lemmas state what the functions promise.
 */
module Shm {
  import opened Os
  import opened Bits

  // ---------------------------------------------------------------------
  // randname

  /** The character `'A' + (r & 15) + (r & 16) * 2` that randname writes for r. */
  function Letter(r: nat): (c: char)
    ensures 'A' <= c <= 'P' || 'a' <= c <= 'p'
    ensures c as int == (if (r / 16) % 2 == 1 then 'a' else 'A') as int + r % 16
  {
    LowBits(r, 16);
    SingleBit(r, 4);
    assert Pow2(4) == 16;
    ('A' as int + BitAnd(r, 15) + BitAnd(r, 16) * 2) as char
  }

  /** r after n shifts `r >>= 5` (r is non-negative). */
  function Shifted(r: nat, n: nat): nat
  {
    if n == 0 then r else Shifted(r, n - 1) / 32
  }

  /** The six characters randname writes for the nanosecond count nsec. */
  function NameLetters(nsec: nat): (s: seq<char>)
    ensures |s| == 6
  {
    seq(6, i requires 0 <= i < 6 => Letter(Shifted(nsec, i)))
  }

  /** Each character depends on the low five bits left after the shifts only. */
  lemma LetterReadsFiveBits(r: nat)
    ensures Letter(r) == Letter(r % 32)
  {
    var q, t := r / 32, r % 32;
    assert r == 32 * q + t;
    assert t == 16 * (t / 16) + t % 16;
    ModUnique(r, 16, 2 * q + t / 16, t % 16);
    ModUnique(2 * q + t / 16, 2, q, t / 16);
  }

  /** Character i of the name is determined by bits 5i..5i+4 of nsec. */
  lemma {:induction false} NameLetterBits(nsec: nat, i: nat)
    requires i < 6
    ensures NameLetters(nsec)[i] == Letter((nsec / Pow2(5 * i)) % 32)
  {
    ShiftedIsDivision(nsec, i);
    LetterReadsFiveBits(Shifted(nsec, i));
  }

  lemma {:induction false} ShiftedIsDivision(r: nat, n: nat)
    ensures Shifted(r, n) == r / Pow2(5 * n)
  {
    if n > 0 {
      ShiftedIsDivision(r, n - 1);
      DivDiv(r, Pow2(5 * (n - 1)), 32);
      assert Pow2(5) == 32;
      Pow2Add(5 * (n - 1), 5);
    }
  }

  /** randname(buf): write six letters at buf[off..off+6), shifting r in place. */
  method RandName(buf: array<char>, off: nat, nsec: nat)
    requires off + 6 <= buf.Length
    modifies buf
    ensures buf[..] == old(buf[..off]) + NameLetters(nsec) + old(buf[off + 6..])
  {
    var r := nsec;
    for i := 0 to 6
      invariant r == Shifted(nsec, i)
      invariant forall k :: 0 <= k < buf.Length && !(off <= k < off + i) ==> buf[k] == old(buf[k])
      invariant forall k :: off <= k < off + i ==> buf[k] == Letter(Shifted(nsec, k - off))
    {
      buf[off + i] := Letter(r);
      r := r / 32;
    }
    assert buf[..] == old(buf[..off]) + NameLetters(nsec) + old(buf[off + 6..]) by {
      forall k | 0 <= k < buf.Length
        ensures buf[..][k] == (old(buf[..off]) + NameLetters(nsec) + old(buf[off + 6..]))[k]
      {
        if off <= k < off + 6 {
          assert buf[k] == NameLetters(nsec)[k - off];
        }
      }
    }
  }

  // ---------------------------------------------------------------------
  // create_shm_file

  /** The array `char name[] = "/wl_shm-XXXXXX"`, terminator included. */
  const NameTemplate: seq<char> := "/wl_shm-XXXXXX" + ['\0']

  /** `sizeof(name) - 7`: where randname starts writing. */
  const NameOffset: nat := |NameTemplate| - 7

  /** The number of names create_shm_file tries at most. */
  const MaxAttempts: nat := 100

  /** The name array after randname ran on it with nsec. */
  function ShmName(nsec: nat): seq<char>
  {
    NameTemplate[..NameOffset] + NameLetters(nsec) + NameTemplate[NameOffset + 6..]
  }

  /** randname replaces exactly the six X's: the prefix and the terminator survive. */
  lemma ShmNameShape(nsec: nat)
    ensures |ShmName(nsec)| == |NameTemplate| == 15 && NameOffset == 8
    ensures ShmName(nsec)[..8] == "/wl_shm-" && ShmName(nsec)[14] == '\0'
    ensures forall k :: 8 <= k < 14 ==> 'A' <= ShmName(nsec)[k] <= 'P' || 'a' <= ShmName(nsec)[k] <= 'p'
  {
    var s := ShmName(nsec);
    assert s[..8] == NameTemplate[..8];
    forall k | 8 <= k < 14
      ensures 'A' <= s[k] <= 'P' || 'a' <= s[k] <= 'p'
    {
      assert s[k] == NameLetters(nsec)[k - 8];
    }
  }

  /** One pass of the loop: the clock reading and what `shm_open` returns. */
  datatype Attempt = Attempt(nsec: nat, open: OpenOutcome)

  /** The value a helper returns, with the system calls it made, in order. */
  datatype ShmResult = ShmResult(ret: int, calls: seq<Sys>)

  /** The `shm_open` calls for the names of the given attempts. */
  function Opens(attempts: seq<Attempt>): (s: seq<Sys>)
    ensures |s| == |attempts|
  {
    seq(|attempts|, i requires 0 <= i < |attempts| => ShmOpen(ShmName(attempts[i].nsec)))
  }

  /** The behaviour of create_shm_file from the pass at index k on. */
  function CreationFrom(attempts: seq<Attempt>, k: nat): ShmResult
    requires k < MaxAttempts <= |attempts|
    decreases MaxAttempts - k
  {
    var name := ShmName(attempts[k].nsec);
    match attempts[k].open
    case Opened(fd) => ShmResult(fd, [ShmOpen(name), ShmUnlink(name)])
    case OpenFailed(e) =>
      if MaxAttempts - (k + 1) > 0 && e == EEXIST then
        var rest := CreationFrom(attempts, k + 1);
        ShmResult(rest.ret, [ShmOpen(name)] + rest.calls)
      else
        ShmResult(-1, [ShmOpen(name)])
  }

  /** The behaviour of create_shm_file. */
  function ShmFileCreation(attempts: seq<Attempt>): ShmResult
    requires MaxAttempts <= |attempts|
  {
    CreationFrom(attempts, 0)
  }

  /** create_shm_file stops at the first pass that opens, or fails with an
      error other than EEXIST, or is the hundredth; it unlinks the name of a
      successful open and otherwise returns -1. */
  lemma CreationOutcome(attempts: seq<Attempt>) returns (k: nat)
    requires MaxAttempts <= |attempts|
    ensures k < MaxAttempts
    ensures forall j :: 0 <= j < k ==> attempts[j].open == OpenFailed(EEXIST)
    ensures attempts[k].open.Opened? || attempts[k].open.errno != EEXIST || k == MaxAttempts - 1
    ensures ShmFileCreation(attempts).ret
         == if attempts[k].open.Opened? then attempts[k].open.fd else -1
    ensures ShmFileCreation(attempts).calls
         == Opens(attempts[..k + 1])
          + (if attempts[k].open.Opened? then [ShmUnlink(ShmName(attempts[k].nsec))] else [])
  {
    k := CreationOutcomeFrom(attempts, 0);
  }

  lemma {:induction false} CreationOutcomeFrom(attempts: seq<Attempt>, i: nat) returns (k: nat)
    requires i < MaxAttempts <= |attempts|
    ensures i <= k < MaxAttempts
    ensures forall j :: i <= j < k ==> attempts[j].open == OpenFailed(EEXIST)
    ensures attempts[k].open.Opened? || attempts[k].open.errno != EEXIST || k == MaxAttempts - 1
    ensures CreationFrom(attempts, i).ret
         == if attempts[k].open.Opened? then attempts[k].open.fd else -1
    ensures CreationFrom(attempts, i).calls
         == Opens(attempts[i..k + 1])
          + (if attempts[k].open.Opened? then [ShmUnlink(ShmName(attempts[k].nsec))] else [])
    decreases MaxAttempts - i
  {
    var name := ShmName(attempts[i].nsec);
    if attempts[i].open.OpenFailed? && attempts[i].open.errno == EEXIST && i + 1 < MaxAttempts {
      k := CreationOutcomeFrom(attempts, i + 1);
      OpensCons(attempts, i, k + 1);
      var rest := CreationFrom(attempts, i + 1);
      assert CreationFrom(attempts, i) == ShmResult(rest.ret, [ShmOpen(name)] + rest.calls);
      var unlink := if attempts[k].open.Opened? then [ShmUnlink(ShmName(attempts[k].nsec))] else [];
      assert rest.calls == Opens(attempts[i + 1..k + 1]) + unlink;
      assert [ShmOpen(name)] + (Opens(attempts[i + 1..k + 1]) + unlink)
          == ([ShmOpen(name)] + Opens(attempts[i + 1..k + 1])) + unlink;
    } else {
      k := i;
      assert Opens(attempts[i..i + 1]) == [ShmOpen(name)];
    }
  }

  /** The opens of passes i..n start with the open of pass i. */
  lemma OpensCons(attempts: seq<Attempt>, i: nat, n: nat)
    requires i < n <= |attempts|
    ensures Opens(attempts[i..n]) == [ShmOpen(ShmName(attempts[i].nsec))] + Opens(attempts[i + 1..n])
  {
    var a, b := Opens(attempts[i..n]), [ShmOpen(ShmName(attempts[i].nsec))] + Opens(attempts[i + 1..n]);
    forall j | 0 <= j < |a|
      ensures a[j] == b[j]
    {
      if j > 0 {
        assert attempts[i..n][j] == attempts[i + 1..n][j - 1];
      }
    }
  }

  /** The name array of one pass: `char name[] = "/wl_shm-XXXXXX"` on the
      stack, then randname on its last seven bytes but the terminator. */
  method FreshName(nsec: nat) returns (name: seq<char>)
    ensures name == ShmName(nsec)
  {
    var buf := new char[|NameTemplate|](i requires 0 <= i < |NameTemplate| => NameTemplate[i]);
    assert buf[..] == NameTemplate;
    RandName(buf, NameOffset, nsec);
    name := buf[..];
  }

  /** One pass of create_shm_file, unfolded: what the pass at index k returns. */
  lemma CreationFromStep(attempts: seq<Attempt>, k: nat)
    requires k < MaxAttempts <= |attempts|
    ensures var name, open := ShmName(attempts[k].nsec), attempts[k].open;
      && (open.Opened? ==> CreationFrom(attempts, k) == ShmResult(open.fd, [ShmOpen(name), ShmUnlink(name)]))
      && (open.OpenFailed? && MaxAttempts - (k + 1) > 0 && open.errno == EEXIST ==>
            CreationFrom(attempts, k)
            == ShmResult(CreationFrom(attempts, k + 1).ret, [ShmOpen(name)] + CreationFrom(attempts, k + 1).calls))
      && (open.OpenFailed? && !(MaxAttempts - (k + 1) > 0 && open.errno == EEXIST) ==>
            CreationFrom(attempts, k) == ShmResult(-1, [ShmOpen(name)]))
  {
  }

  /** create_shm_file: the do-while loop with its `retries` counter. */
  method CreateShmFile(attempts: seq<Attempt>) returns (fd: int, calls: seq<Sys>)
    requires MaxAttempts <= |attempts|
    ensures ShmResult(fd, calls) == ShmFileCreation(attempts)
  {
    var retries := MaxAttempts;
    var k := 0;
    calls := [];
    while true
      invariant 0 <= k < MaxAttempts && retries == MaxAttempts - k
      invariant calls + CreationFrom(attempts, k).calls == ShmFileCreation(attempts).calls
      invariant CreationFrom(attempts, k).ret == ShmFileCreation(attempts).ret
      decreases retries
    {
      CreationFromStep(attempts, k);
      ghost var before := calls;
      var name := FreshName(attempts[k].nsec);
      retries := retries - 1;
      var outcome := attempts[k].open;
      calls := calls + [ShmOpen(name)];
      if outcome.Opened? {
        calls := calls + [ShmUnlink(name)];
        assert calls == before + [ShmOpen(name), ShmUnlink(name)];
        fd := outcome.fd;
        return;
      }
      if !(retries > 0 && outcome.errno == EEXIST) {
        break;
      }
      assert calls + CreationFrom(attempts, k + 1).calls
          == before + ([ShmOpen(name)] + CreationFrom(attempts, k + 1).calls);
      k := k + 1;
    }
    fd := -1;
  }

  // ---------------------------------------------------------------------
  // ftruncate retried on EINTR

  /** Some ftruncate outcome is not an interruption: the retry loop ends. */
  predicate Settles(truncs: seq<TruncOutcome>)
  {
    exists k :: 0 <= k < |truncs| && truncs[k] != TruncFailed(EINTR)
  }

  /** The index of the first ftruncate that is not interrupted. */
  function FirstSettled(truncs: seq<TruncOutcome>): (n: nat)
    requires Settles(truncs)
    ensures n < |truncs| && truncs[n] != TruncFailed(EINTR)
    ensures forall j :: 0 <= j < n ==> truncs[j] == TruncFailed(EINTR)
  {
    if truncs[0] != TruncFailed(EINTR) then 0
    else
      assert Settles(truncs[1..]) by {
        var k :| 0 <= k < |truncs| && truncs[k] != TruncFailed(EINTR);
        assert truncs[1..][k - 1] == truncs[k];
      }
      1 + FirstSettled(truncs[1..])
  }

  /** n copies of one call. */
  function Repeat(call: Sys, n: nat): (s: seq<Sys>)
    ensures |s| == n && forall i :: 0 <= i < n ==> s[i] == call
  {
    seq(n, _ => call)
  }

  /** `do { ret = ftruncate(fd, size); } while (ret < 0 && errno == EINTR);` */
  method FtruncateRetrying(fd: int, size: nat, truncs: seq<TruncOutcome>) returns (ok: bool, calls: seq<Sys>)
    requires Settles(truncs)
    ensures ok == truncs[FirstSettled(truncs)].Truncated?
    ensures calls == Repeat(Ftruncate(fd, size), FirstSettled(truncs) + 1)
  {
    var k := 0;
    calls := [Ftruncate(fd, size)];
    while truncs[k] == TruncFailed(EINTR)
      invariant k <= FirstSettled(truncs)
      invariant calls == Repeat(Ftruncate(fd, size), k + 1)
      decreases FirstSettled(truncs) - k
    {
      k := k + 1;
      calls := calls + [Ftruncate(fd, size)];
    }
    ok := truncs[k].Truncated?;
  }

  // ---------------------------------------------------------------------
  // twl_shm_allocate and twl_shm_resize

  /** The behaviour of twl_shm_allocate(size). */
  function Allocation(size: nat, attempts: seq<Attempt>, truncs: seq<TruncOutcome>): (r: ShmResult)
    requires MaxAttempts <= |attempts| && Settles(truncs)
    ensures r.ret >= 0 ==> r.ret == ShmFileCreation(attempts).ret && truncs[FirstSettled(truncs)].Truncated?
    ensures r.ret < 0 ==> r.ret == -1
  {
    var file := ShmFileCreation(attempts);
    if file.ret < 0 then ShmResult(-1, file.calls)
    else
      var n := FirstSettled(truncs);
      var calls := file.calls + Repeat(Ftruncate(file.ret, size), n + 1);
      if truncs[n].Truncated? then ShmResult(file.ret, calls)
      else ShmResult(-1, calls + [Close(file.ret)])
  }

  /** When no file can be created, twl_shm_allocate returns -1 without truncating anything. */
  lemma AllocationWithoutFile(size: nat, attempts: seq<Attempt>, truncs: seq<TruncOutcome>)
    requires MaxAttempts <= |attempts| && Settles(truncs)
    requires ShmFileCreation(attempts).ret < 0
    ensures Allocation(size, attempts, truncs).ret == -1
    ensures forall c :: c in Allocation(size, attempts, truncs).calls ==> c.ShmOpen?
  {
    var k := CreationOutcome(attempts);
  }

  /** With a file, twl_shm_allocate truncates it until an outcome other than
      EINTR, returns the descriptor on success, and closes it on failure. */
  lemma AllocationWithFile(size: nat, attempts: seq<Attempt>, truncs: seq<TruncOutcome>)
    requires MaxAttempts <= |attempts| && Settles(truncs)
    requires ShmFileCreation(attempts).ret >= 0
    ensures var fd, r := ShmFileCreation(attempts).ret, Allocation(size, attempts, truncs);
      && r.calls[..|ShmFileCreation(attempts).calls|] == ShmFileCreation(attempts).calls
      && (r.ret >= 0 <==> truncs[FirstSettled(truncs)] == Truncated)
      && (r.ret >= 0 ==> r.ret == fd && r.calls[|r.calls| - 1] == Ftruncate(fd, size))
      && (r.ret < 0 ==> r.ret == -1 && r.calls[|r.calls| - 1] == Close(fd))
      && |r.calls| - |ShmFileCreation(attempts).calls| - (if r.ret < 0 then 1 else 0) == FirstSettled(truncs) + 1
    ensures var n, r := |ShmFileCreation(attempts).calls|, Allocation(size, attempts, truncs);
      r.calls[n..n + FirstSettled(truncs) + 1]
        == Repeat(Ftruncate(ShmFileCreation(attempts).ret, size), FirstSettled(truncs) + 1)
  {
  }

  /** The behaviour of twl_shm_resize(fd, size). */
  function Resizing(fd: int, size: nat, truncs: seq<TruncOutcome>): (r: ShmResult)
    requires Settles(truncs)
    ensures r.ret == 0 || r.ret == -1
    ensures r.ret == 0 <==> truncs[FirstSettled(truncs)].Truncated?
    ensures r.ret == -1 ==> |r.calls| > 0 && r.calls[|r.calls| - 1] == Close(fd)
    ensures forall i :: 0 <= i < |r.calls| - 1 ==> r.calls[i] == Ftruncate(fd, size)
    ensures |r.calls| == FirstSettled(truncs) + 1 + (if r.ret == 0 then 0 else 1)
    ensures r.calls[..FirstSettled(truncs) + 1] == Repeat(Ftruncate(fd, size), FirstSettled(truncs) + 1)
  {
    var n := FirstSettled(truncs);
    var calls := Repeat(Ftruncate(fd, size), n + 1);
    if truncs[n].Truncated? then ShmResult(0, calls) else ShmResult(-1, calls + [Close(fd)])
  }

  /** twl_shm_allocate */
  method Allocate(size: nat, attempts: seq<Attempt>, truncs: seq<TruncOutcome>) returns (ret: int, calls: seq<Sys>)
    requires MaxAttempts <= |attempts| && Settles(truncs)
    ensures ShmResult(ret, calls) == Allocation(size, attempts, truncs)
  {
    var fd;
    fd, calls := CreateShmFile(attempts);
    if fd < 0 {
      return -1, calls;
    }
    var ok, truncCalls := FtruncateRetrying(fd, size, truncs);
    calls := calls + truncCalls;
    if !ok {
      calls := calls + [Close(fd)];
      return -1, calls;
    }
    ret := fd;
  }

  /** twl_shm_resize */
  method Resize(fd: int, size: nat, truncs: seq<TruncOutcome>) returns (ret: int, calls: seq<Sys>)
    requires Settles(truncs)
    ensures ShmResult(ret, calls) == Resizing(fd, size, truncs)
  {
    var ok;
    ok, calls := FtruncateRetrying(fd, size, truncs);
    if !ok {
      calls := calls + [Close(fd)];
      return -1, calls;
    }
    ret := 0;
  }
}
