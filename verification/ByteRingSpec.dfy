/**
 The memory layout of the ring buffer: blocks of a 12-byte head and a message,
 one after the other, starting at the read position and wrapping at the end.
 */
module ByteRingSpec {
  import opened Bytes

  /** sizeof(DltBufferHead) and sizeof(DltBufferBlockHead) */
  const HEAD: nat := 12

  const INT_MAX: nat := 0x7fff_ffff

  /** A block head: "SHM", status 2, padding, and the size of the message. */
  function Head(size: nat): (h: seq<byte>)
    requires size <= INT_MAX
    ensures |h| == HEAD
  {
    [83, 72, 77, 0, 2, 0, 0, 0] + Le32(size)
  }

  predicate GoodHead(h: seq<byte>)
    requires |h| == HEAD
  {
    h[..4] == [83, 72, 77, 0] && h[4] == 2
  }

  function HeadSize(h: seq<byte>): nat
    requires |h| == HEAD
  {
    FromLe32(h[8..])
  }

  lemma HeadRoundTrip(size: nat)
    requires size <= INT_MAX
    ensures GoodHead(Head(size)) && HeadSize(Head(size)) == size
  {
    assert Head(size)[8..] == Le32(size);
    Le32RoundTrip(size);
  }

  function Block(m: seq<byte>): (b: seq<byte>)
    requires |m| <= INT_MAX
    ensures |b| == HEAD + |m|
  {
    Head(|m|) + m
  }

  ghost predicate Sized(msgs: seq<seq<byte>>) {
    forall k :: 0 <= k < |msgs| ==> |msgs[k]| <= INT_MAX
  }

  /** The queued messages as they lie in memory. */
  ghost function Encode(msgs: seq<seq<byte>>): seq<byte>
    requires Sized(msgs)
  {
    if msgs == [] then [] else Block(msgs[0]) + Encode(msgs[1..])
  }

  lemma {:induction false} EncodeSnoc(msgs: seq<seq<byte>>, m: seq<byte>)
    requires Sized(msgs) && |m| <= INT_MAX
    ensures Sized(msgs + [m]) && Encode(msgs + [m]) == Encode(msgs) + Block(m)
  {
    if msgs == [] {
      assert msgs + [m] == [m] && Encode([m]) == Block(m) + Encode([]);
    } else {
      EncodeSnoc(msgs[1..], m);
      var more := msgs + [m];
      assert more[0] == msgs[0] && more[1..] == msgs[1..] + [m];
      var (a, b, c) := (Block(msgs[0]), Encode(msgs[1..]), Block(m));
      assert Encode(more) == a + (b + c);
      assert a + (b + c) == (a + b) + c;
    }
  }

  lemma {:induction false} EncodeLength(msgs: seq<seq<byte>>)
    requires Sized(msgs)
    ensures |Encode(msgs)| >= HEAD * |msgs|
  {
    if msgs != [] {
      EncodeLength(msgs[1..]);
    }
  }

  // ---------------------------------------------------------------- positions and wrapped stretches

  /** The position `n` bytes behind `p`; the end of the memory is not turned into its start. */
  function Advance(p: nat, n: nat, size: nat): nat
    requires p <= size && n <= size
  {
    if p + n <= size then p + n else p + n - size
  }

  /** The position `x` counted round the end of the memory. */
  function Wrap(x: nat, size: nat): nat {
    if x < size then x else x - size
  }

  /** How far behind `w` the position `p` lies, counted round the end of the memory. */
  function Behind(p: nat, w: nat, size: nat): nat
    requires p < size && w <= size
  {
    if p >= w then p - w else p - w + size
  }

  /** The `n` bytes that start at `p` and wrap. */
  function Linear(mem: seq<byte>, p: nat, n: nat): (s: seq<byte>)
    requires p <= |mem| && n <= |mem|
    ensures |s| == n
  {
    seq(n, k requires 0 <= k < n => mem[Wrap(p + k, |mem|)])
  }

  lemma LinearAt(mem: seq<byte>, p: nat, n: nat, k: nat)
    requires p <= |mem| && k < n <= |mem|
    ensures Linear(mem, p, n)[k] == mem[Wrap(p + k, |mem|)]
  {
  }

  /** The memory after `data` was written at `w`, wrapping. */
  function Written(mem: seq<byte>, w: nat, data: seq<byte>): (s: seq<byte>)
    requires w <= |mem| && |data| <= |mem|
    ensures |s| == |mem|
  {
    seq(|mem|, p requires 0 <= p < |mem| =>
      var b := Behind(p, w, |mem|);
      if b < |data| then data[b] else mem[p])
  }

  lemma AdvanceTwice(p: nat, a: nat, b: nat, size: nat)
    requires p <= size && a + b <= size
    ensures Advance(Advance(p, a, size), b, size) == Advance(p, a + b, size)
  {
  }

  /** Two writes in a row are one. */
  lemma WrittenTwice(mem: seq<byte>, w: nat, a: seq<byte>, b: seq<byte>)
    requires w <= |mem| && |a| + |b| <= |mem|
    ensures Written(Written(mem, w, a), Advance(w, |a|, |mem|), b) == Written(mem, w, a + b)
    ensures Advance(Advance(w, |a|, |mem|), |b|, |mem|) == Advance(w, |a + b|, |mem|)
  {
  }

  /** Writing behind the used bytes extends them. */
  lemma WriteExtends(mem: seq<byte>, r: nat, u: nat, data: seq<byte>)
    requires r <= |mem| && u + |data| <= |mem|
    ensures Linear(Written(mem, Advance(r, u, |mem|), data), r, u + |data|) == Linear(mem, r, u) + data
  {
    var after := Written(mem, Advance(r, u, |mem|), data);
    forall k | 0 <= k < u + |data|
      ensures Linear(after, r, u + |data|)[k] == (Linear(mem, r, u) + data)[k]
    {
      LinearAt(after, r, u + |data|, k);
    }
  }

  lemma LinearPrefix(mem: seq<byte>, r: nat, u: nat, k: nat)
    requires r <= |mem| && k <= u <= |mem|
    ensures Linear(mem, r, k) == Linear(mem, r, u)[..k]
    ensures Linear(mem, Advance(r, k, |mem|), u - k) == Linear(mem, r, u)[k..]
  {
    forall j | 0 <= j < u - k
      ensures Linear(mem, Advance(r, k, |mem|), u - k)[j] == Linear(mem, r, u)[k..][j]
    {
      LinearAt(mem, r, u, k + j);
      LinearAt(mem, Advance(r, k, |mem|), u - k, j);
    }
  }

  // ---------------------------------------------------------------- what the buffer holds

  /** The bytes from `read` on are `base`, and `write` is right behind them. */
  ghost predicate InMemory(mem: seq<byte>, read: int, write: int, base: seq<byte>) {
    && 0 <= read <= |mem| && |base| <= |mem|
    && write == Advance(read, |base|, |mem|)
    && Linear(mem, read, |base|) == base
  }

  /** The fields describe exactly the messages `msgs`, oldest first. */
  ghost predicate Represents(mem: seq<byte>, read: int, write: int, count: int, msgs: seq<seq<byte>>) {
    count == |msgs| && Sized(msgs) && InMemory(mem, read, write, Encode(msgs))
  }

  lemma InMemoryExtends(mem: seq<byte>, read: int, write: int, base: seq<byte>, data: seq<byte>)
    requires InMemory(mem, read, write, base) && |base| + |data| <= |mem|
    ensures InMemory(Written(mem, write, data), read, Advance(write, |data|, |mem|), base + data)
  {
    WriteExtends(mem, read, |base|, data);
    AdvanceTwice(read, |base|, |data|, |mem|);
  }

  /** dlt_buffer_get_used_size */
  function Used(read: int, write: int, count: int, size: nat): int {
    if count == 0 then 0 else if write > read then write - read else size - read + write
  }

  /** The free size computed by dlt_buffer_push3 */
  function Free(read: int, write: int, count: int, size: nat): int {
    if read > write then read - write
    else if count != 0 && write == read then 0
    else size - write + read
  }

  lemma UsedAndFree(mem: seq<byte>, read: int, write: int, count: int, msgs: seq<seq<byte>>)
    requires Represents(mem, read, write, count, msgs)
    ensures Used(read, write, count, |mem|) == |Encode(msgs)|
    ensures Free(read, write, count, |mem|) == |mem| - |Encode(msgs)|
  {
    EncodeLength(msgs);
  }

  /** The oldest message can be read off, and removing it leaves the others. */
  lemma OldestBlock(mem: seq<byte>, read: int, write: int, count: int, msgs: seq<seq<byte>>)
    requires Represents(mem, read, write, count, msgs) && msgs != []
    ensures var n := |msgs[0]|;
            && HEAD + n <= |Encode(msgs)|
            && Linear(mem, read, HEAD) == Head(n)
            && Linear(mem, Advance(read, HEAD, |mem|), n) == msgs[0]
            && Represents(mem, Advance(read, HEAD + n, |mem|), write, count - 1, msgs[1..])
  {
    var u, n := |Encode(msgs)|, |msgs[0]|;
    LinearPrefix(mem, read, u, HEAD);
    LinearPrefix(mem, read, u, HEAD + n);
    LinearPrefix(mem, read, HEAD + n, HEAD);
    AdvanceTwice(read, HEAD + n, u - HEAD - n, |mem|);
  }

  /** The stretch dlt_buffer_increase_size copies: the used bytes, or the whole memory when nothing is queued. */
  function Stretch(mem: seq<byte>, read: nat, write: nat): seq<byte>
    requires read <= |mem| && write <= |mem|
  {
    if read < write then mem[read..write] else mem[read..] + mem[..write]
  }

  lemma StretchIsUsed(mem: seq<byte>, read: int, write: int, base: seq<byte>)
    requires InMemory(mem, read, write, base)
    ensures Stretch(mem, read, write) == if base == [] then Linear(mem, read, |mem|) else base
  {
    var n := if base == [] then |mem| else |base|;
    forall k | 0 <= k < n
      ensures Stretch(mem, read, write)[k] == Linear(mem, read, n)[k]
    {
      LinearAt(mem, read, n, k);
    }
  }

  lemma MovedToFront(mem: seq<byte>, base: seq<byte>)
    requires |base| <= |mem| && mem[..|base|] == base
    ensures InMemory(mem, 0, |base|, base)
  {
    forall k | 0 <= k < |base|
      ensures Linear(mem, 0, |base|)[k] == mem[..|base|][k]
    {
      LinearAt(mem, 0, |base|, k);
    }
  }
}
