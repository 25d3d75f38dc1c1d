/**
 * The small standard library of the window layer: error codes, a byte
 * string that either borrows a C string or owns a heap block, and a
 * mapping handle kept up to date through a pointer.
 *
 * A `Str` is the struct's value; a `StrRef` is the storage a `fzn_str *`
 * points to, updated in place by the methods. Memory is modelled by what
 * a pointer reaches: nothing (NULL), bytes the string does not own
 * (`Foreign`, a caller's C string) or a block from `malloc`/`realloc`
 * (`Block`, whose length is the allocation size). Whether an allocation
 * succeeds is a parameter of each call.
 */
module FznStd {
  import opened Os

  /** `fzn_err`. */
  datatype Err = Success | StrAllocFailed | MmapFailed | MmapUnmapFailed

  /** The integer value of each `fzn_err` enumerator: only FZN_SUCCESS is 0. */
  function Code(e: Err): (c: int)
    ensures c == 0 <==> e == Success
  {
    match e
    case Success => 0
    case StrAllocFailed => 100
    case MmapFailed => 200
    case MmapUnmapFailed => 201
  }

  /** Distinct enumerators have distinct values. */
  lemma CodeInjective(e: Err, e': Err)
    ensures Code(e) == Code(e') ==> e == e'
  {
  }

  // ---------------------------------------------------------------------
  // C strings

  /** The length of the C string at the front of s: the index of its first NUL. */
  function Strlen(s: seq<bv8>): (n: nat)
    requires 0 in s
    ensures n < |s| && s[n] == 0
    ensures forall i :: 0 <= i < n ==> s[i] != 0
  {
    StrlenFrom(s, 0)
  }

  /** The index of the first NUL at or after i. */
  function StrlenFrom(s: seq<bv8>, i: nat): (n: nat)
    requires i <= |s| && 0 in s[i..]
    ensures i <= n < |s| && s[n] == 0
    ensures forall j :: i <= j < n ==> s[j] != 0
    decreases |s| - i
  {
    if s[i] == 0 then i
    else
      assert 0 in s[i + 1..] by { assert s[i..] == [s[i]] + s[i + 1..]; }
      StrlenFrom(s, i + 1)
  }

  /** The bytes of the C string at the front of s, without the terminator. */
  function CString(s: seq<bv8>): (t: seq<bv8>)
    requires 0 in s
    ensures |t| < |s| && 0 !in t && s[..|t| + 1] == t + [0]
  {
    s[..Strlen(s)]
  }

  /** A NUL at n with no NUL before it makes n the length. */
  lemma StrlenAt(s: seq<bv8>, n: nat)
    requires n < |s| && s[n] == 0 && forall i :: 0 <= i < n ==> s[i] != 0
    ensures Strlen(s) == n
  {
    var m := Strlen(s);
    assert !(m < n) && !(n < m);
  }

  // ---------------------------------------------------------------------
  // fzn_str

  /** Where a string's `data` pointer leads. */
  datatype Ptr = Null | Foreign(bytes: seq<bv8>) | Block(bytes: seq<bv8>)

  /** `fzn_str`. */
  datatype Str = Str(data: Ptr, len: nat, capacity: nat, isOwned: bool)

  /** The invariant every operation keeps. */
  predicate Valid(s: Str)
  {
    && (s.isOwned ==> s.data.Block?)
    && match s.data
       case Null => s.len == 0 && s.capacity == 0
       case Foreign(b) => 0 in b && s.len == Strlen(b) && s.capacity == 0 && !s.isOwned
       case Block(b) => |b| == s.capacity && s.len <= s.capacity
  }

  /** The `len` bytes of the string. */
  function Contents(s: Str): (c: seq<bv8>)
    requires Valid(s)
    ensures |c| == s.len
  {
    if s.data.Null? then [] else s.data.bytes[..s.len]
  }

  /** The bytes a string's pointer reaches (none for NULL). */
  function Bytes(p: Ptr): seq<bv8>
  {
    if p.Null? then [] else p.bytes
  }

  /** `free` and `realloc` accept the pointer: NULL or a heap block. */
  predicate Freeable(s: Str)
  {
    !s.data.Foreign?
  }

  /** A NUL follows the contents inside the memory the pointer reaches. */
  predicate Terminated(s: Str)
    requires Valid(s)
  {
    match s.data
    case Null => true
    case Foreign(b) => true
    case Block(b) => s.len < |b| && b[s.len] == 0
  }

  /** fzn_str_empty */
  function Empty(): (s: Str)
    ensures Valid(s) && Contents(s) == [] && Freeable(s) && !s.isOwned
    ensures s.data.Null? && s.capacity == 0
  {
    Str(Null, 0, 0, false)
  }

  /** fzn_str_new: a borrowed view of a C string. */
  function New(cstr: seq<bv8>): (s: Str)
    requires 0 in cstr
    ensures Valid(s) && Contents(s) == CString(cstr) && s.len == Strlen(cstr)
    ensures !s.isOwned && s.capacity == 0 && Terminated(s)
  {
    Str(Foreign(cstr), Strlen(cstr), 0, false)
  }

  /** fzn_str_charp: the bytes at the returned pointer; "" when data is NULL. */
  function Charp(s: Str): (p: seq<bv8>)
    ensures s.data.Null? ==> p == [0]
    ensures !s.data.Null? ==> p == s.data.bytes
  {
    if s.data.Null? then [0] else s.data.bytes
  }

  /** Reading the result of fzn_str_charp as a C string yields the contents,
      provided a terminator follows them and they hold no NUL. */
  lemma CharpReadsContents(s: Str)
    requires Valid(s) && Terminated(s) && 0 !in Contents(s)
    ensures 0 in Charp(s) && CString(Charp(s)) == Contents(s)
  {
    var p := Charp(s);
    assert p[s.len] == 0;
    forall i | 0 <= i < s.len ensures p[i] != 0 {
      assert p[i] == Contents(s)[i];
    }
    StrlenAt(p, s.len);
  }

  /** The behaviour of fzn_str_make_owned. */
  function MadeOwned(s: Str, mallocOk: bool): (r: (Str, Err))
    requires Valid(s)
    ensures Valid(r.0) && Contents(r.0) == Contents(s)
    ensures s.isOwned ==> r == (s, Success)
    ensures !s.isOwned ==> (r.1 == Success <==> mallocOk)
    ensures r.1 == Success ==> r.0.isOwned && (!s.isOwned ==> r.0.capacity == s.len)
    ensures r.1 != Success ==> r == (s, StrAllocFailed)
  {
    if s.isOwned then (s, Success)
    else if !mallocOk then (s, StrAllocFailed)
    else (Str(Block(Contents(s)), s.len, s.len, true), Success)
  }

  /** fzn_str_make_owned is idempotent. */
  lemma MakeOwnedIdempotent(s: Str, ok1: bool, ok2: bool)
    requires Valid(s) && MadeOwned(s, ok1).1 == Success
    ensures MadeOwned(MadeOwned(s, ok1).0, ok2) == (MadeOwned(s, ok1).0, Success)
  {
  }

  /** An owned copy has no room for the terminator: after a successful
      fzn_str_make_owned of a borrowed string, the block holds exactly the
      contents and no NUL follows them inside it. */
  lemma MakeOwnedDropsTerminator(cstr: seq<bv8>)
    requires 0 in cstr
    ensures var r := MadeOwned(New(cstr), true).0;
      Valid(r) && !Terminated(r) && Bytes(r.data) == CString(cstr)
  {
  }

  /** `MAX(x, y)` */
  function Max(x: nat, y: nat): nat
  {
    if x > y then x else y
  }

  /** n bytes whose value the model does not track (realloc leaves them indeterminate). */
  function Unset(n: nat): (s: seq<bv8>)
    ensures |s| == n
  {
    seq(n, _ => 0)
  }

  /** The behaviour of fzn_str_reserve. */
  function Reserved(s: Str, newCapacity: nat, reallocOk: bool): (r: (Str, Err))
    requires Valid(s) && Freeable(s)
    ensures Valid(r.0) && Freeable(r.0) && Contents(r.0) == Contents(s)
    ensures r.0.len == s.len && r.0.isOwned == s.isOwned
    ensures s.capacity > newCapacity ==> r == (s, Success)
    ensures s.capacity <= newCapacity && r.1 == Success ==>
      && r.0.capacity == Max(newCapacity, 2 * s.capacity)
      && Bytes(r.0.data)[..s.capacity] == Bytes(s.data)
    ensures r.1 == Success ==> r.0.capacity >= newCapacity && r.0.capacity >= s.capacity
    ensures r.1 != Success ==> r == (s, StrAllocFailed) && s.capacity <= newCapacity && !reallocOk
  {
    if s.capacity > newCapacity then (s, Success)
    else
      var c := Max(newCapacity, s.capacity * 2);
      if !reallocOk then (s, StrAllocFailed)
      else
        var b := Bytes(s.data) + Unset(c - s.capacity);
        assert b[..s.len] == Contents(s);
        (s.(data := Block(b), capacity := c), Success)
  }

  /** `memmove(b + at, src, |src|)` on the bytes of a block. */
  function Memmove(b: seq<bv8>, at: nat, src: seq<bv8>): (r: seq<bv8>)
    requires at + |src| <= |b|
    ensures |r| == |b|
    ensures r[..at] == b[..at] && r[at..at + |src|] == src && r[at + |src|..] == b[at + |src|..]
  {
    b[..at] + src + b[at + |src|..]
  }

  /** The copy step of fzn_str_append: the bytes of src moved to the end of
      the contents, then a NUL after them. */
  function CopiedIn(q: Str, src: seq<bv8>): (r: Str)
    requires Valid(q) && q.data.Block? && q.len + |src| < q.capacity
    ensures Valid(r) && Contents(r) == Contents(q) + src && Terminated(r)
    ensures r.capacity == q.capacity && r.isOwned == q.isOwned
  {
    var b := Memmove(q.data.bytes, q.len, src)[q.len + |src| := 0];
    assert b[..q.len + |src|] == Contents(q) + src;
    q.(data := Block(b), len := q.len + |src|)
  }

  /** fzn_str_append once the string is owned: reserve room for src and a
      NUL, then copy. */
  function AppendedToOwned(o: Str, src: seq<bv8>, reallocOk: bool): (r: (Str, Err))
    requires Valid(o) && o.isOwned
    ensures Valid(r.0)
    ensures r.1 == Success ==>
      && Contents(r.0) == Contents(o) + src && r.0.len == o.len + |src|
      && r.0.capacity > r.0.len && Terminated(r.0) && r.0.isOwned
    ensures r.1 != Success ==> r == (o, StrAllocFailed)
  {
    var reserved := Reserved(o, o.len + |src| + 1, reallocOk);
    if reserved.1 != Success then reserved
    else (CopiedIn(reserved.0, src), Success)
  }

  /** The behaviour of fzn_str_append. */
  function Appended(s: Str, cstr: seq<bv8>, mallocOk: bool, reallocOk: bool): (r: (Str, Err))
    requires Valid(s) && 0 in cstr
    ensures Valid(r.0)
    ensures r.1 == Success ==>
      && Contents(r.0) == Contents(s) + CString(cstr)
      && r.0.len == s.len + Strlen(cstr)
      && r.0.capacity > r.0.len && Terminated(r.0) && r.0.isOwned
    ensures r.1 != Success ==> r.1 == StrAllocFailed && Contents(r.0) == Contents(s)
  {
    var owned := MadeOwned(s, mallocOk);
    if owned.1 != Success then owned
    else AppendedToOwned(owned.0, CString(cstr), reallocOk)
  }

  /** A successful append keeps the string readable through fzn_str_charp. */
  lemma AppendReadable(s: Str, cstr: seq<bv8>, mallocOk: bool, reallocOk: bool)
    requires Valid(s) && 0 in cstr && 0 !in Contents(s)
    requires Appended(s, cstr, mallocOk, reallocOk).1 == Success
    ensures var r := Appended(s, cstr, mallocOk, reallocOk).0;
      0 in Charp(r) && CString(Charp(r)) == Contents(s) + CString(cstr)
  {
    var r := Appended(s, cstr, mallocOk, reallocOk).0;
    assert 0 !in Contents(r) by {
      assert Contents(r) == Contents(s) + CString(cstr);
    }
    CharpReadsContents(r);
  }

  /** The storage a `fzn_str *` points to. */
  class StrRef {
    var data: Ptr
    var len: nat
    var capacity: nat
    var isOwned: bool

    /** The struct value stored here. */
    function Value(): Str
      reads this
    {
      Str(data, len, capacity, isOwned)
    }

    /** A variable initialised with a string value, as `fzn_str s = fzn_str_new(..)`. */
    constructor (v: Str)
      ensures Value() == v
    {
      data, len, capacity, isOwned := v.data, v.len, v.capacity, v.isOwned;
    }

    /** fzn_str_make_owned */
    method MakeOwned(mallocOk: bool) returns (err: Err)
      requires Valid(Value())
      modifies this
      ensures (Value(), err) == MadeOwned(old(Value()), mallocOk)
    {
      if isOwned {
        return Success;
      }
      if !mallocOk {
        return StrAllocFailed;
      }
      var copy := Contents(Value());
      data := Block(copy);
      len := len;
      capacity := len;
      isOwned := true;
      return Success;
    }

    /** fzn_str_reserve: `realloc` is only defined on NULL or a heap block. */
    method Reserve(newCapacity: nat, reallocOk: bool) returns (err: Err)
      requires Valid(Value()) && Freeable(Value())
      modifies this
      ensures (Value(), err) == Reserved(old(Value()), newCapacity, reallocOk)
    {
      if capacity > newCapacity {
        return Success;
      }
      var target := Max(newCapacity, capacity * 2);
      if !reallocOk {
        return StrAllocFailed;
      }
      data := Block(Bytes(data) + Unset(target - capacity));
      capacity := target;
      return Success;
    }

    /** The copy step of fzn_str_append: memmove the bytes to the end, then the NUL. */
    method CopyIn(src: seq<bv8>)
      requires Valid(Value()) && data.Block? && len + |src| < capacity
      modifies this
      ensures Value() == CopiedIn(old(Value()), src)
    {
      var b := Memmove(data.bytes, len, src)[len + |src| := 0];
      data, len := Block(b), len + |src|;
    }

    /** The reserve and copy steps of fzn_str_append. */
    method AppendToOwned(src: seq<bv8>, reallocOk: bool) returns (err: Err)
      requires Valid(Value()) && isOwned
      modifies this
      ensures (Value(), err) == AppendedToOwned(old(Value()), src, reallocOk)
    {
      err := Reserve(len + |src| + 1, reallocOk);
      if err != Success {
        return;
      }
      CopyIn(src);
    }

    /** fzn_str_append: make owned, reserve room for s and a NUL, copy, terminate. */
    method Append(cstr: seq<bv8>, mallocOk: bool, reallocOk: bool) returns (err: Err)
      requires Valid(Value()) && 0 in cstr
      modifies this
      ensures (Value(), err) == Appended(old(Value()), cstr, mallocOk, reallocOk)
    {
      err := MakeOwned(mallocOk);
      if err != Success {
        return;
      }
      var n := Strlen(cstr);
      err := AppendToOwned(cstr[..n], reallocOk);
    }

    /** fzn_str_free: `free` is only defined on NULL or a heap block. */
    method Free() returns (err: Err)
      requires Freeable(Value())
      modifies this
      ensures Value() == Empty() && err == Success
    {
      data := Null;
      len := 0;
      capacity := 0;
      isOwned := false;
      return Success;
    }
  }

  // ---------------------------------------------------------------------
  // fzn_mmap

  /** `fzn_mmap`: a mapping handle; address 0 is NULL. */
  datatype Mmap = Mmap(addr: nat, size: nat)

  /** `fzn_mmap_config`. */
  datatype MmapConfig = MmapConfig(size: nat, prot: int, flags: int, fd: int, offset: nat)

  /** The behaviour of fzn_mmap_new on the handle `*out`. */
  function MmapCreated(out: Mmap, config: MmapConfig, outcome: MapOutcome): (r: (Mmap, Err))
    ensures r.1 == Success <==> outcome.Mapped?
    ensures r.1 == Success ==> r.0.addr != 0 && r.0.addr == outcome.addr && r.0.size == config.size
    ensures r.1 != Success ==> r == (out, MmapFailed)
  {
    match outcome
    case MapFailed => (out, MmapFailed)
    case Mapped(a) => (Mmap(a, config.size), Success)
  }

  /** The behaviour of fzn_mmap_unmap on the handle `*x`. */
  function MmapUnmapped(x: Mmap, munmapOk: bool): (r: (Mmap, Err))
    ensures r.0.size == x.size
    ensures x.addr == 0 ==> r == (x, Success)
    ensures x.addr != 0 ==> (r.1 == Success <==> munmapOk)
    ensures r.1 == Success ==> r.0.addr == 0
    ensures r.1 != Success ==> r == (x, MmapUnmapFailed)
  {
    if x.addr == 0 then (x, Success)
    else if !munmapOk then (x, MmapUnmapFailed)
    else (x.(addr := 0), Success)
  }

  /** Once released, releasing again succeeds whatever munmap would return. */
  lemma UnmapAgainSucceeds(x: Mmap, ok1: bool, ok2: bool)
    requires MmapUnmapped(x, ok1).1 == Success
    ensures MmapUnmapped(MmapUnmapped(x, ok1).0, ok2) == (MmapUnmapped(x, ok1).0, Success)
  {
  }

  /** The storage a `fzn_mmap *` points to. */
  class MmapRef {
    var addr: nat
    var size: nat

    function Value(): Mmap
      reads this
    {
      Mmap(addr, size)
    }

    constructor (v: Mmap)
      ensures Value() == v
    {
      addr, size := v.addr, v.size;
    }

    /** fzn_mmap_new */
    method New(config: MmapConfig, outcome: MapOutcome) returns (err: Err)
      modifies this
      ensures (Value(), err) == MmapCreated(old(Value()), config, outcome)
    {
      if outcome.MapFailed? {
        return MmapFailed;
      }
      addr := outcome.addr;
      size := config.size;
      return Success;
    }

    /** fzn_mmap_unmap */
    method Unmap(munmapOk: bool) returns (err: Err)
      modifies this
      ensures (Value(), err) == MmapUnmapped(old(Value()), munmapOk)
    {
      if addr == 0 {
        return Success;
      }
      if !munmapOk {
        return MmapUnmapFailed;
      }
      addr := 0;
      return Success;
    }
  }
}
