/**
 * The byte ring buffer of src/user/helper/ring_buffer.c: `size` slots of which one is always kept
 * free, so that `head == tail` means empty. Bytes are written at `head` and read at `tail`, both
 * advancing modulo `size`.
 */
module RingBuffer {
  import opened Hex

  const UINT64_MAX: int := 0xFFFF_FFFF_FFFF_FFFF
  /** glibc's malloc refuses any request above PTRDIFF_MAX, so no ring is larger. */
  const PTRDIFF_MAX: int := 0x7FFF_FFFF_FFFF_FFFF

  type u64 = x: int | 0 <= x <= UINT64_MAX

  /** Slot `k` places after `t` in a ring of `m` slots. */
  function Slot(t: nat, k: nat, m: nat): (r: nat)
    requires t < m && k < m
    ensures r < m
  {
    if t + k < m then t + k else t + k - m
  }

  /** The `n` bytes stored from slot `t` onwards, wrapping at the end of `s`. */
  function RingView(s: seq<byte>, t: nat, n: nat): (r: seq<byte>)
    requires t < |s| && n < |s|
    ensures |r| == n
    ensures forall k | 0 <= k < n :: r[k] == s[Slot(t, k, |s|)]
  {
    seq(n, k requires 0 <= k < n => s[Slot(t, k, |s|)])
  }

  /** The number of bytes stored between `tail` and `head`. */
  function Stored(m: nat, head: nat, tail: nat): (n: nat)
    requires head < m && tail < m
    ensures n < m && Slot(tail, n, m) == head
  {
    if head >= tail then head - tail else head + m - tail
  }

  /** `ring_buffer_available_capacity`: the free slots, one being reserved. */
  function Available(m: nat, head: nat, tail: nat): (c: nat)
    requires head < m && tail < m
    ensures c + Stored(m, head, tail) == m - 1
  {
    if head >= tail then m - (head - tail) - 1 else tail - head - 1
  }

  /** For `0 <= x < 2m`, `x % m` subtracts `m` at most once. */
  lemma ModOnce(x: nat, m: nat)
    requires 0 < m && x < 2 * m
    ensures x % m == if x < m then x else x - m
  {
    if x < m {
      assert x == 0 * m + x;
    } else {
      assert x == 1 * m + (x - m);
    }
  }

  /** Moving `tail` forward by `k` stored bytes leaves `k` fewer stored. */
  lemma StoredAdvance(m: nat, head: nat, t: nat, k: nat)
    requires head < m && t < m && k <= Stored(m, head, t)
    ensures Stored(m, head, Slot(t, k, m)) == Stored(m, head, t) - k
  {
  }

  /** The view after a push: the bytes stored before, then the bytes written after them. */
  lemma PushResult(s: seq<byte>, t: nat, head: nat, before: seq<byte>, written: seq<byte>)
    requires t < |s| && |before| + |written| < |s| && head == Slot(t, |before| + |written|, |s|)
    requires forall k | 0 <= k < |before| :: s[Slot(t, k, |s|)] == before[k]
    requires forall k | 0 <= k < |written| :: s[Slot(t, |before| + k, |s|)] == written[k]
    ensures RingView(s, t, Stored(|s|, head, t)) == before + written
  {
    var n := |before| + |written|;
    assert Stored(|s|, head, t) == n;
    forall k | |before| <= k < n
      ensures s[Slot(t, k, |s|)] == written[k - |before|]
    {
      assert Slot(t, |before| + (k - |before|), |s|) == Slot(t, k, |s|);
    }
  }

  /** What a pop of `len` bytes leaves: the first `len` stored bytes copied out, the rest still stored. */
  lemma PopResult(s: seq<byte>, t: nat, head: nat, n: nat, len: nat, out: seq<byte>)
    requires t < |s| && head < |s| && n == Stored(|s|, head, t) && len <= n && |out| == len
    requires forall k | 0 <= k < len :: out[k] == s[Slot(t, k, |s|)]
    ensures out == RingView(s, t, n)[..len]
    ensures RingView(s, Slot(t, len, |s|), Stored(|s|, head, Slot(t, len, |s|))) == RingView(s, t, n)[len..]
  {
    StoredAdvance(|s|, head, t, len);
    ViewAdvance(s, t, n, len);
  }

  /** Writing one byte at the slot after the stored ones appends it to the view. */
  lemma ViewAppend(s: seq<byte>, t: nat, n: nat, x: byte)
    requires t < |s| && n + 1 < |s|
    ensures RingView(s[Slot(t, n, |s|) := x], t, n + 1) == RingView(s, t, n) + [x]
  {
    var m := |s|;
    var s' := s[Slot(t, n, m) := x];
    forall k | 0 <= k < n
      ensures s'[Slot(t, k, m)] == s[Slot(t, k, m)]
    {
      assert Slot(t, k, m) != Slot(t, n, m);
    }
  }

  /** Reading the first stored byte leaves the rest, viewed from the next slot. */
  lemma ViewAdvance(s: seq<byte>, t: nat, n: nat, k: nat)
    requires t < |s| && k <= n < |s|
    ensures RingView(s, t, n)[k..] == RingView(s, Slot(t, k, |s|), n - k)
  {
    var m := |s|;
    forall j | 0 <= j < n - k
      ensures Slot(Slot(t, k, m), j, m) == Slot(t, k + j, m)
    {
    }
  }

  class Ring {
    var data: array<byte>
    var size: nat
    var head: nat
    var tail: nat

    ghost predicate Valid()
      reads this
    {
      data.Length == size && 0 < size <= PTRDIFF_MAX && head < size && tail < size
    }

    /** The bytes stored, oldest first. */
    function Contents(): seq<byte>
      reads this, data
      requires Valid()
    {
      RingView(data[..], tail, Stored(size, head, tail))
    }

    /** The number of bytes that can still be pushed. */
    function Capacity(): nat
      reads this
      requires Valid()
    {
      Available(size, head, tail)
    }

    constructor Init(m: nat)
      requires 0 < m <= PTRDIFF_MAX
      ensures Valid() && fresh(data) && size == m && head == 0 && tail == 0
      ensures Contents() == [] && Capacity() == m - 1
    {
      data := new byte[m](_ => 0);
      size := m;
      head := 0;
      tail := 0;
    }

    /**
     * `ring_buffer_alloc(n)`: `n` usable bytes in `n + 1` slots, starting empty. `mallocOk` says
     * whether the allocator grants the requests; a request above PTRDIFF_MAX is never granted.
     */
    static method Alloc(n: u64, mallocOk: bool) returns (rb: Ring?)
      ensures rb != null <==> mallocOk && n != UINT64_MAX && n + 1 <= PTRDIFF_MAX
      ensures rb != null ==> fresh(rb) && fresh(rb.data) && rb.Valid() && rb.size == n + 1
                             && rb.Contents() == [] && rb.Capacity() == n
    {
      if !mallocOk {
        return null;
      }
      if n == UINT64_MAX {
        return null;
      }
      var m := n + 1;
      if m > PTRDIFF_MAX {
        return null;
      }
      rb := new Ring.Init(m);
    }

    /** `ring_buffer_clear`: forgets every stored byte. */
    method Clear()
      requires Valid()
      modifies this
      ensures Valid() && size == old(size) && data == old(data)
      ensures head == 0 && tail == 0 && Contents() == [] && Capacity() == size - 1
    {
      head := 0;
      tail := 0;
    }

    /** `ring_buffer_is_full`: `size - 1` bytes are stored. */
    method IsFull() returns (b: bool)
      requires Valid()
      ensures b <==> |Contents()| == size - 1
      ensures b <==> Capacity() == 0
    {
      ModOnce(head + 1, size);
      b := (head + 1) % size == tail;
    }

    /** `ring_buffer_is_empty`. */
    method IsEmpty() returns (b: bool)
      requires Valid()
      ensures b <==> Contents() == []
    {
      b := head == tail;
    }

    /** `ring_buffer_available_capacity`: the free slots, one of `size` being reserved. */
    method AvailableCapacity() returns (c: u64)
      requires Valid()
      ensures c == Capacity() && c == size - 1 - |Contents()|
    {
      if head >= tail {
        c := size - (head - tail) - 1;
      } else {
        c := tail - head - 1;
      }
    }

    /** `ring_buffer_push`: all `len` bytes of `src` are added after the stored ones, or nothing changes. */
    method Push(src: array<byte>, len: u64) returns (ok: bool)
      requires Valid() && len <= src.Length && src != data
      modifies this, data
      ensures Valid() && size == old(size) && data == old(data) && tail == old(tail)
      ensures ok <==> len <= old(Capacity())
      ensures ok ==> Contents() == old(Contents()) + src[..len]
      ensures !ok ==> head == old(head) && data[..] == old(data[..])
    {
      var avail := AvailableCapacity();
      if avail < len {
        return false;
      }
      WriteAtHead(src, len);
      return true;
    }

    /** The copy loop of `ring_buffer_push`, once the guard has passed. */
    method WriteAtHead(src: array<byte>, len: u64)
      requires Valid() && len <= src.Length && src != data && len <= Capacity()
      modifies this, data
      ensures Valid() && size == old(size) && data == old(data) && tail == old(tail)
      ensures Contents() == old(Contents()) + src[..len]
    {
      ghost var c0 := Contents();
      ghost var n0 := |c0|;
      var i: u64 := 0;
      while i < len
        invariant i <= len
        invariant Valid() && size == old(size) && data == old(data) && tail == old(tail)
        invariant head == Slot(tail, n0 + i, size)
        invariant RingView(data[..], tail, n0 + i) == c0 + src[..i]
      {
        ViewAppend(data[..], tail, n0 + i, src[i]);
        assert src[..i + 1] == src[..i] + [src[i]];
        data[head] := src[i];
        ModOnce(head + 1, size);
        head := (head + 1) % size;
        i := i + 1;
      }
      assert Stored(size, head, tail) == n0 + len;
    }

    /** `ring_buffer_pop`: the `len` oldest bytes are moved to `dst`, or nothing changes. */
    method Pop(dst: array<byte>, len: u64) returns (ok: bool)
      requires Valid() && len <= dst.Length && dst != data
      modifies this, dst
      ensures Valid() && size == old(size) && data == old(data) && head == old(head)
      ensures ok <==> len <= |old(Contents())|
      ensures ok ==> dst[..len] == old(Contents())[..len] && Contents() == old(Contents())[len..]
      ensures !ok ==> tail == old(tail) && dst[..] == old(dst[..])
    {
      ModOnce(head + size - tail, size);
      if (head + size - tail) % size < len {
        return false;
      }
      ReadAtTail(dst, len);
      return true;
    }

    /** The copy loop of `ring_buffer_pop`, once the guard has passed. */
    method ReadAtTail(dst: array<byte>, len: u64)
      requires Valid() && len <= dst.Length && dst != data && len <= |Contents()|
      modifies this, dst
      ensures Valid() && size == old(size) && data == old(data) && head == old(head)
      ensures dst[..len] == old(Contents())[..len] && Contents() == old(Contents())[len..]
    {
      ghost var s0 := data[..];
      ghost var n0 := Stored(size, head, tail);
      ghost var t0 := tail;
      var i: u64 := 0;
      while i < len
        invariant i <= len
        invariant Valid() && size == old(size) && data == old(data) && head == old(head)
        invariant data[..] == s0
        invariant tail == Slot(t0, i, size)
        invariant forall k | 0 <= k < i :: dst[k] == s0[Slot(t0, k, size)]
      {
        dst[i] := data[tail];
        ModOnce(tail + 1, size);
        tail := (tail + 1) % size;
        ModOnce(t0 + i + 1, size);
        i := i + 1;
      }
      PopResult(s0, t0, head, n0, len, dst[..len]);
    }

    /**
     * `ring_buffer_peek` as written: the guard compares `len` with the FREE space, so a request for
     * more bytes than are stored is granted (and copies slots that hold no data).
     */
    method Peek(dst: array<byte>, len: u64) returns (ok: bool)
      requires Valid() && len <= dst.Length && dst != data
      modifies dst
      ensures ok <==> len <= Capacity()
      ensures ok ==> forall k | 0 <= k < len :: dst[k] == data[Slot(tail, k, size)]
      ensures ok && len <= |Contents()| ==> dst[..len] == Contents()[..len]
      ensures !ok ==> dst[..] == old(dst[..])
    {
      var avail := AvailableCapacity();
      if avail < len {
        return false;
      }
      var t := tail;
      var i: u64 := 0;
      while i < len
        invariant i <= len && t == Slot(tail, i, size)
        invariant forall k | 0 <= k < i :: dst[k] == data[Slot(tail, k, size)]
      {
        dst[i] := data[t];
        ModOnce(t + 1, size);
        t := (t + 1) % size;
        ModOnce(tail + i + 1, size);
        i := i + 1;
      }
      return true;
    }

    /**
     * `ring_buffer_discard` as written: the guard compares `len` with the FREE space, so discarding
     * more than is stored is granted and moves `tail` past `head`.
     */
    method Discard(len: u64) returns (ok: bool)
      requires Valid()
      modifies this
      ensures Valid() && size == old(size) && data == old(data) && head == old(head)
      ensures ok <==> len <= old(Capacity())
      ensures ok ==> tail == Slot(old(tail), len, size)
      ensures ok && len <= |old(Contents())| ==> Contents() == old(Contents())[len..]
      ensures !ok ==> tail == old(tail)
    {
      var avail := AvailableCapacity();
      if avail < len {
        return false;
      }
      ModOnce(tail + len, size);
      if len <= Stored(size, head, tail) {
        ViewAdvance(data[..], tail, Stored(size, head, tail), len);
      }
      tail := (tail + len) % size;
      return true;
    }

    /** `ring_buffer_peek` with the guard its header documents: granted iff `len` bytes are stored. */
    method PeekStored(dst: array<byte>, len: u64) returns (ok: bool)
      requires Valid() && len <= dst.Length && dst != data
      modifies dst
      ensures ok <==> len <= |Contents()|
      ensures ok ==> dst[..len] == Contents()[..len]
      ensures !ok ==> dst[..] == old(dst[..])
    {
      ModOnce(head + size - tail, size);
      if (head + size - tail) % size < len {
        return false;
      }
      var t := tail;
      var i: u64 := 0;
      while i < len
        invariant i <= len && t == Slot(tail, i, size)
        invariant forall k | 0 <= k < i :: dst[k] == data[Slot(tail, k, size)]
      {
        dst[i] := data[t];
        ModOnce(t + 1, size);
        t := (t + 1) % size;
        ModOnce(tail + i + 1, size);
        i := i + 1;
      }
      return true;
    }

    /** `ring_buffer_discard` with the guard its header documents: granted iff `len` bytes are stored. */
    method DiscardStored(len: u64) returns (ok: bool)
      requires Valid()
      modifies this
      ensures Valid() && size == old(size) && data == old(data) && head == old(head)
      ensures ok <==> len <= |old(Contents())|
      ensures ok ==> Contents() == old(Contents())[len..]
      ensures !ok ==> tail == old(tail)
    {
      ModOnce(head + size - tail, size);
      if (head + size - tail) % size < len {
        return false;
      }
      ModOnce(tail + len, size);
      ViewAdvance(data[..], tail, Stored(size, head, tail), len);
      tail := (tail + len) % size;
      return true;
    }
  }

  /**
   * Discarding one byte from a fresh ring of 8 usable bytes succeeds as written, and the ring then
   * reports itself full: 8 bytes stored, none of them ever pushed.
   */
  method DiscardOnEmptyRing() returns (ok: bool, stored: nat, full: bool)
    ensures ok && stored == 8 && full
  {
    var rb := new Ring.Init(9);
    ok := rb.Discard(1);
    stored := |rb.Contents()|;
    full := rb.IsFull();
  }

  /** The same request against the corrected guard is refused and the ring stays empty. */
  method DiscardStoredOnEmptyRing() returns (ok: bool, empty: bool)
    ensures !ok && empty
  {
    var rb := new Ring.Init(9);
    ok := rb.DiscardStored(1);
    empty := rb.IsEmpty();
  }

  /** A push followed by a pop of the same length returns the pushed bytes, wherever the ring stands. */
  method PushThenPop(rb: Ring, src: array<byte>, out: array<byte>, len: u64) returns (pushed: bool, popped: bool)
    requires rb.Valid() && rb.Contents() == [] && len <= src.Length && len <= out.Length
    requires src != rb.data && out != rb.data && out != src
    modifies rb, rb.data, out
    ensures pushed <==> len < rb.size
    ensures rb.Valid()
    ensures pushed ==> popped && out[..len] == src[..len] && rb.Contents() == []
  {
    pushed := rb.Push(src, len);
    if pushed {
      popped := rb.Pop(out, len);
    } else {
      popped := false;
    }
  }
}
