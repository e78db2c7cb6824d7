/**
 The dynamic ring buffer of dlt_common.c: a byte array with read and write
 positions, message blocks that may wrap, growth in steps and shrinking when
 empty. Proved to be a FIFO of messages, except for one way of growing.
 */
module ByteRing {
  import opened Bytes
  import opened ByteRingSpec
  import Fifo

  class DltBuffer {
    var mem: array<byte>
    var minSize: nat
    var maxSize: nat
    var stepSize: nat
    var read: int
    var write: int
    var count: int

    /** What the size parameters promise, whatever the positions say. */
    ghost predicate Shape()
      reads this
    {
      HEAD <= minSize <= mem.Length + HEAD <= maxSize <= INT_MAX
    }

    ghost predicate Holds(msgs: seq<seq<byte>>)
      reads this, mem
    {
      Shape() && Represents(mem[..], read, write, count, msgs)
    }

    /** dlt_buffer_init_dynamic */
    constructor (min: nat, max: nat, step: nat)
      requires HEAD <= min <= max <= INT_MAX && 0 < step <= max
      ensures Holds([]) && fresh(mem)
      ensures minSize == min && maxSize == max && stepSize == step && mem.Length == min - HEAD
      ensures forall k :: 0 <= k < mem.Length ==> mem[k] == 0
    {
      minSize, maxSize, stepSize := min, max, step;
      mem := new byte[min - HEAD](_ => 0);
      read, write, count := 0, 0, 0;
    }

    /** The bytes from the read position on are `base`, and the write position is right behind them. */
    ghost predicate Carries(base: seq<byte>)
      reads this, mem
    {
      InMemory(mem[..], read, write, base)
    }

    /** dlt_buffer_write_block */
    method WriteBlock(w: nat, data: seq<byte>) returns (w': nat)
      requires w <= mem.Length && |data| <= mem.Length
      modifies mem
      ensures mem[..] == Written(old(mem[..]), w, data)
      ensures w' == Advance(w, |data|, mem.Length)
    {
      var size := mem.Length;
      if w + |data| <= size {
        CopyInto(mem, w, data);
        w' := w + |data|;
      } else {
        CopyInto(mem, w, data[..size - w]);
        CopyInto(mem, 0, data[size - w..]);
        w' := w + |data| - size;
      }
    }

    /** dlt_buffer_read_block */
    method ReadBlock(r: nat, n: nat) returns (r': nat, data: seq<byte>)
      requires r <= mem.Length && n <= mem.Length
      ensures data == Linear(mem[..], r, n) && r' == Advance(r, n, mem.Length)
    {
      var size := mem.Length;
      if r + n <= size {
        data := mem[r..r + n];
        r' := r + n;
      } else {
        data := mem[r..size] + mem[..n - (size - r)];
        r' := r + n - size;
      }
      forall k | 0 <= k < n
        ensures data[k] == Linear(mem[..], r, n)[k]
      {
        LinearAt(mem[..], r, n, k);
      }
    }

    /** dlt_buffer_reset */
    method Reset()
      requires Shape()
      modifies this`read, this`write, this`count, mem
      ensures Holds([]) && read == 0 && forall k :: 0 <= k < mem.Length ==> mem[k] == 0
    {
      read, write, count := 0, 0, 0;
      var zeros := seq(mem.Length, _ => 0);
      CopyInto(mem, 0, zeros);
    }

    /** dlt_buffer_increase_size: the used bytes move to the start of a larger memory.
        With nothing queued the code takes the whole old memory for used bytes. */
    method IncreaseSize(ghost base: seq<byte>) returns (ok: bool)
      requires Shape() && 0 <= read <= mem.Length && 0 <= write <= mem.Length
      modifies this`mem, this`read, this`write
      ensures Shape() && 0 <= read <= mem.Length && 0 <= write <= mem.Length
      ensures ok == (stepSize != 0 && old(mem.Length) + HEAD + stepSize <= maxSize)
      ensures ok ==> fresh(mem) && mem.Length == old(mem.Length) + stepSize && read == 0
      ensures !ok ==> mem == old(mem) && read == old(read) && write == old(write)
      ensures ok && old(Carries(base)) ==>
                Carries(if base == [] then Linear(old(mem[..]), old(read), old(mem.Length)) else base)
    {
      if stepSize == 0 || mem.Length + HEAD + stepSize > maxSize {
        return false;
      }
      var larger := new byte[mem.Length + stepSize];
      var used := if read < write then mem[read..write] else mem[read..] + mem[..write];
      if Carries(base) {
        StretchIsUsed(mem[..], read, write, base);
      }
      assert used == Stretch(mem[..], read, write);
      CopyInto(larger, 0, used);
      mem, read, write := larger, 0, |used|;
      MovedToFront(mem[..], used);
      ok := true;
    }

    /** dlt_buffer_minimize_size */
    method MinimizeSize()
      requires Shape()
      modifies this`mem, this`read, this`write, this`count
      ensures Shape() && mem.Length + HEAD == minSize && (mem == old(mem) || fresh(mem))
      ensures old(Holds([])) ==> Holds([])
      ensures if old(mem.Length) + HEAD == minSize
              then mem == old(mem) && read == old(read) && write == old(write) && count == old(count)
              else fresh(mem) && Holds([]) && read == 0 && forall k :: 0 <= k < mem.Length ==> mem[k] == 0
    {
      if mem.Length + HEAD == minSize {
        return;
      }
      mem := new byte[minSize - HEAD](_ => 0);
      read, write, count := 0, 0, 0;
    }

    /** The end of dlt_buffer_push3: write the head and up to three pieces, then move the write position. */
    method AppendBlock(data1: seq<byte>, data2: seq<byte>, data3: seq<byte>, ghost base: seq<byte>)
      requires 0 <= read <= mem.Length && 0 <= write <= mem.Length
      requires HEAD + |data1| + |data2| + |data3| <= mem.Length <= INT_MAX
      modifies this`write, this`count, mem
      ensures 0 <= write <= mem.Length && count == old(count) + 1
      ensures old(Carries(base)) && |base| + HEAD + |data1| + |data2| + |data3| <= mem.Length
              ==> Carries(base + Block(data1 + data2 + data3))
    {
      ghost var m := data1 + data2 + data3;
      var head := Head(|data1| + |data2| + |data3|);
      WrittenTwice(mem[..], write, head, data1);
      WrittenTwice(mem[..], write, head + data1, data2);
      WrittenTwice(mem[..], write, head + data1 + data2, data3);
      assert head + data1 + data2 + data3 == Block(m);
      if Carries(base) && |base| + |Block(m)| <= mem.Length {
        InMemoryExtends(mem[..], read, write, base, Block(m));
      }
      var w := WriteBlock(write, head);
      w := WriteBlock(w, data1);
      w := WriteBlock(w, data2);
      w := WriteBlock(w, data3);
      write := w;
      count := count + 1;
    }

    ghost predicate Growing(base: seq<byte>, msgs: seq<seq<byte>>, was: nat, need: nat)
      requires Sized(msgs)
      reads this, mem
    {
      Carries(base) && Tracked(base, msgs, read, Free(read, write, count, mem.Length), mem.Length, was, need, stepSize, maxSize)
    }

    /** The loop of dlt_buffer_push3 that grows the memory until `need` bytes are free. */
    method MakeRoom(need: nat, ghost base: seq<byte>, ghost msgs: seq<seq<byte>>) returns (ok: bool, ghost base': seq<byte>)
      requires Shape() && 0 <= read <= mem.Length && 0 <= write <= mem.Length && need > 0
      requires Sized(msgs) && (count == 0 <==> msgs == [])
      modifies this`mem, this`read, this`write
      ensures Shape() && 0 <= read <= mem.Length && 0 <= write <= mem.Length && (mem == old(mem) || fresh(mem))
      ensures if ok then Free(read, write, count, mem.Length) >= need
              else Free(read, write, count, mem.Length) < need && !(stepSize != 0 && mem.Length + HEAD + stepSize <= maxSize)
      ensures old(Growing(base, msgs, mem.Length, need)) ==> Growing(base', msgs, old(mem.Length), need)
    {
      ghost var was, growing := mem.Length, Growing(base, msgs, mem.Length, need);
      base' := base;
      while Free(read, write, count, mem.Length) < need
        invariant Shape() && 0 <= read <= mem.Length && 0 <= write <= mem.Length && (mem == old(mem) || fresh(mem))
        invariant growing ==> Growing(base', msgs, was, need)
        decreases maxSize - mem.Length
      {
        ok, base' := Grow(need, base', msgs, was);
        if !ok {
          return;
        }
      }
      ok := true;
    }

    /** One round of it. */
    method Grow(need: nat, ghost base: seq<byte>, ghost msgs: seq<seq<byte>>, ghost was: nat)
      returns (ok: bool, ghost base': seq<byte>)
      requires Shape() && 0 <= read <= mem.Length && 0 <= write <= mem.Length && need > 0
      requires Sized(msgs) && (count == 0 <==> msgs == []) && Free(read, write, count, mem.Length) < need
      modifies this`mem, this`read, this`write
      ensures Shape() && 0 <= read <= mem.Length && 0 <= write <= mem.Length
      ensures ok == (stepSize != 0 && old(mem.Length) + HEAD + stepSize <= maxSize)
      ensures if ok then fresh(mem) && mem.Length == old(mem.Length) + stepSize
              else mem == old(mem) && read == old(read) && write == old(write)
      ensures old(Growing(base, msgs, was, need)) ==> Growing(base', msgs, was, need)
    {
      ghost var whole := Linear(mem[..], read, mem.Length);
      ghost var growing, size, r, w := Growing(base, msgs, was, need), mem.Length, read, write;
      base' := base;
      ok := IncreaseSize(base);
      if ok {
        base' := if base == [] then whole else base;
        if growing {
          TrackGrowth(base, base', msgs, r, w, count, size, was, need, stepSize, maxSize);
        }
      }
    }

    /** dlt_buffer_push3. The buffer stays a FIFO if and only if it does not have to grow for its first message. */
    method Push3(data1: seq<byte>, data2: seq<byte>, data3: seq<byte>, ghost msgs: seq<seq<byte>>) returns (ok: bool)
      requires Shape() && |data1| + |data2| + |data3| <= INT_MAX
      modifies this, mem
      ensures Shape() && (mem == old(mem) || fresh(mem))
      ensures minSize == old(minSize) && maxSize == old(maxSize) && stepSize == old(stepSize)
      ensures var m := data1 + data2 + data3;
              var growsEmpty := msgs == [] && GrowsEmpty(old(mem.Length), HEAD + |m|, stepSize, maxSize);
              old(Holds(msgs)) ==>
                && (Holds(if ok then msgs + [m] else msgs) <==> !growsEmpty)
                && (!growsEmpty ==> (ok <==> Fits(|Encode(msgs)| + HEAD + |m|, old(mem.Length), stepSize, maxSize)))
    {
      if read < 0 || read > mem.Length || write < 0 || write > mem.Length {
        Reset();
        return false;
      }
      ok := PushInRange(data1, data2, data3, msgs);
    }

    /** Its work once the positions are known to lie in the memory. */
    method PushInRange(data1: seq<byte>, data2: seq<byte>, data3: seq<byte>, ghost msgs: seq<seq<byte>>) returns (ok: bool)
      requires Shape() && |data1| + |data2| + |data3| <= INT_MAX
      requires 0 <= read <= mem.Length && 0 <= write <= mem.Length
      modifies this`mem, this`read, this`write, this`count, mem
      ensures Shape() && (mem == old(mem) || fresh(mem))
      ensures var m := data1 + data2 + data3;
              var growsEmpty := msgs == [] && GrowsEmpty(old(mem.Length), HEAD + |m|, stepSize, maxSize);
              old(Holds(msgs)) ==>
                && (Holds(if ok then msgs + [m] else msgs) <==> !growsEmpty)
                && (!growsEmpty ==> (ok <==> Fits(|Encode(msgs)| + HEAD + |m|, old(mem.Length), stepSize, maxSize)))
    {
      ghost var m, holds, size := data1 + data2 + data3, Holds(msgs), mem.Length;
      ghost var queued := if holds then msgs else if count == 0 then [] else [[]];
      if holds {
        StartsTracked(mem[..], read, write, count, msgs, HEAD + |m|, stepSize, maxSize);
      }
      ghost var base;
      ok, base := MakeRoom(HEAD + |data1| + |data2| + |data3|, Encode(queued), queued);
      if holds {
        EndsTracked(base, msgs, read, Free(read, write, count, mem.Length), mem.Length, size, HEAD + |m|, stepSize, maxSize, ok);
      }
      Commit(ok, data1, data2, data3, base, queued);
    }

    /** Write the block if there is room. The buffer then holds the queued messages, and the new one,
        if and only if the growth loop carried the queued blocks along. */
    method Commit(ok: bool, data1: seq<byte>, data2: seq<byte>, data3: seq<byte>, ghost base: seq<byte>, ghost msgs: seq<seq<byte>>)
      requires Shape() && Sized(msgs) && 0 <= read <= mem.Length && 0 <= write <= mem.Length
      requires ok ==> HEAD + |data1| + |data2| + |data3| <= mem.Length
      modifies this`write, this`count, mem
      ensures old(Carries(base)) && old(count) == |msgs| && (base == Encode(msgs) || (msgs == [] && read == 0 && |base| > 0))
              && (ok ==> |base| + HEAD + |data1| + |data2| + |data3| <= mem.Length)
              ==> (Holds(if ok then msgs + [data1 + data2 + data3] else msgs) <==> base == Encode(msgs))
    {
      ghost var room := Carries(base) && count == |msgs| && (base == Encode(msgs) || (msgs == [] && read == 0 && |base| > 0))
                        && (ok ==> |base| + HEAD + |data1| + |data2| + |data3| <= mem.Length);
      if ok {
        AppendBlock(data1, data2, data3, base);
        if room {
          AppendedIsHeld(mem[..], read, write, count, base, msgs, data1 + data2 + data3);
        }
      } else if room {
        CarriedIsHeld(mem[..], read, write, count, base, msgs);
      }
    }

    /** dlt_buffer_get: look at the oldest message, copy it if the caller has a buffer, and remove it if asked for.
        A buffer of `bufferSize` bytes that is too small draws a warning, and the whole message is written all the same.
        Anything inconsistent empties the ring. Negative results stand for DLT_RETURN_ERROR. */
    method Get(bufferSize: nat, delete: bool, ghost msgs: seq<seq<byte>>) returns (result: int, data: seq<byte>, tooLong: bool)
      requires Shape()
      modifies this, mem
      ensures Shape() && (mem == old(mem) || fresh(mem))
      ensures minSize == old(minSize) && maxSize == old(maxSize) && stepSize == old(stepSize)
      ensures old(Holds(msgs)) ==>
                if msgs == [] then
                  result == -1 && !tooLong && Holds([])
                else
                  && result == |msgs[0]| && data == (if bufferSize > 0 then msgs[0] else [])
                  && (tooLong <==> 0 < bufferSize < |msgs[0]|)
                  && Holds(if delete then msgs[1..] else msgs)
    {
      if read < 0 || read > mem.Length || write < 0 || write > mem.Length || count < 0 {
        Reset();
        return -1, [], false;
      }
      if count == 0 {
        if write != read {
          Reset();
        }
        return -1, [], false;
      }
      if Holds(msgs) && msgs != [] {
        OldestBlock(mem[..], read, write, count, msgs);
      }
      var good, behind: nat;
      good, result, behind, data := Oldest(bufferSize > 0, msgs);
      tooLong := 0 < bufferSize < result;
      if !good {
        Reset();
        return -1, [], false;
      }
      if delete {
        read := behind;
        count := count - 1;
        if count == 0 {
          MinimizeSize();
        }
      }
    }

    /** Its checks of the oldest block, and the position behind it. */
    method Oldest(copy: bool, ghost msgs: seq<seq<byte>>) returns (good: bool, result: nat, behind: nat, data: seq<byte>)
      requires Shape() && 0 <= read <= mem.Length && 0 <= write <= mem.Length && count > 0
      ensures Holds(msgs) && msgs != [] && HEAD + |msgs[0]| <= mem.Length ==>
                good && result == |msgs[0]| && behind == Advance(read, HEAD + result, mem.Length)
                && data == if copy then msgs[0] else []
    {
      good, result, behind, data := false, 0, 0, [];
      if Holds(msgs) && msgs != [] {
        OldestFacts(mem[..], read, write, count, msgs);
      }
      var used := Used(read, write, count, mem.Length);
      if used < HEAD {
        return;
      }
      var r, head := ReadBlock(read, HEAD);
      if !GoodHead(head) || used < HEAD + HeadSize(head) {
        return;
      }
      good, result := true, HeadSize(head);
      if copy {
        behind, data := ReadBlock(r, result);
      } else if r + result <= mem.Length {
        behind := r + result;
      } else {
        behind := r + result - mem.Length;
      }
    }

    /** dlt_buffer_copy */
    method Copy(bufferSize: nat, ghost msgs: seq<seq<byte>>) returns (result: int, data: seq<byte>)
      requires Holds(msgs)
      modifies this, mem
      ensures Holds(msgs) && (mem == old(mem) || fresh(mem))
      ensures if msgs == [] then result == -1 else result == |msgs[0]| && data == if bufferSize > 0 then msgs[0] else []
    {
      var tooLong;
      result, data, tooLong := Get(bufferSize, false, msgs);
    }

    /** dlt_buffer_pull */
    method Pull(bufferSize: nat, ghost msgs: seq<seq<byte>>) returns (result: int, data: seq<byte>)
      requires Holds(msgs)
      modifies this, mem
      ensures mem == old(mem) || fresh(mem)
      ensures if msgs == [] then result == -1 && Holds([])
              else result == |msgs[0]| && data == (if bufferSize > 0 then msgs[0] else []) && Holds(msgs[1..])
    {
      var tooLong;
      result, data, tooLong := Get(bufferSize, true, msgs);
    }

    /** dlt_buffer_remove */
    method Remove(ghost msgs: seq<seq<byte>>) returns (result: int)
      requires Holds(msgs)
      modifies this, mem
      ensures mem == old(mem) || fresh(mem)
      ensures if msgs == [] then result == -1 && Holds([]) else result == |msgs[0]| && Holds(msgs[1..])
    {
      var r, _, _ := Get(0, true, msgs);
      result := r;
    }

    /** dlt_buffer_get_message_count */
    method GetMessageCount(ghost msgs: seq<seq<byte>>) returns (n: int)
      requires Holds(msgs)
      ensures n == |msgs|
    {
      n := count;
    }
  }

  // ---------------------------------------------------------------- the daemon's ring

  /** DLT_DAEMON_RINGBUFFER_MIN_SIZE, MAX_SIZE and STEP_SIZE, and the largest message a 16-bit length allows */
  const RINGBUFFER_MIN := 500000
  const RINGBUFFER_MAX := 10000000
  const RINGBUFFER_STEP := 500000
  const MESSAGE_MAX := 65535

  ghost predicate DltMessages(msgs: seq<seq<byte>>) {
    forall k :: 0 <= k < |msgs| ==> |msgs[k]| <= MESSAGE_MAX
  }

  /** With the default sizes the daemon's ring meets the FIFO contract: no message is too large for the
      empty ring, and a push is refused only while at least two messages are queued. */
  lemma DefaultSizesSuffice(size: nat, msgs: seq<seq<byte>>, m: seq<byte>)
    requires RINGBUFFER_MIN <= size + HEAD && Sized(msgs) && DltMessages(msgs) && |m| <= MESSAGE_MAX
    ensures !GrowsEmpty(size, HEAD + |m|, RINGBUFFER_STEP, RINGBUFFER_MAX)
    ensures !Fits(|Encode(msgs)| + HEAD + |m|, size, RINGBUFFER_STEP, RINGBUFFER_MAX) ==> |msgs| >= 2
  {
    if |msgs| <= 1 {
      assert |Encode(msgs)| <= HEAD + MESSAGE_MAX by {
        if msgs != [] {
          assert msgs[1..] == [];
        }
      }
      assert |Encode(msgs)| + HEAD + |m| <= size;
    }
  }

  /** Push into the daemon's ring: accepted exactly as the blocks of all messages fit the memory after some steps of growth. */
  method PushToDaemonRing(ring: DltBuffer, data1: seq<byte>, data2: seq<byte>, ghost msgs: seq<seq<byte>>)
    returns (ok: bool, ghost msgs': seq<seq<byte>>)
    requires ring.Holds(msgs) && DltMessages(msgs) && |data1| + |data2| <= MESSAGE_MAX
    requires ring.minSize == RINGBUFFER_MIN && ring.maxSize == RINGBUFFER_MAX && ring.stepSize == RINGBUFFER_STEP
    modifies ring, ring.mem
    ensures ring.Holds(msgs') && DltMessages(msgs') && Fifo.PushMeets(msgs, data1 + data2, ok, msgs')
    ensures ok <==> Fits(|Encode(msgs)| + HEAD + |data1| + |data2|, old(ring.mem.Length), RINGBUFFER_STEP, RINGBUFFER_MAX)
  {
    ghost var m := data1 + data2;
    DefaultSizesSuffice(ring.mem.Length, msgs, m);
    assert data1 + data2 + [] == m;
    ok := ring.Push3(data1, data2, [], msgs);
    msgs' := if ok then msgs + [m] else msgs;
  }

  /** Where the growth loop of a push stands when the buffer held `msgs` at size `was`:
      the queued blocks are carried along, or the buffer was empty and has been grown. */
  ghost predicate Tracked(base: seq<byte>, msgs: seq<seq<byte>>, read: int, free: int, size: nat,
                          was: nat, need: nat, step: nat, max: nat)
    requires Sized(msgs)
  {
    && free == size - |base|
    && (if base == Encode(msgs) then
          && (Fits(|base| + need, size, step, max) <==> Fits(|base| + need, was, step, max))
          && (msgs == [] ==> size == was || (was == 0 && size == FirstGrowth(was, step, max)))
        else
          msgs == [] && read == 0 && |base| == FirstGrowth(was, step, max) && GrowsEmpty(was, need, step, max))
  }

  /** What the checks find in front of the oldest message. */
  lemma OldestFacts(mem: seq<byte>, read: int, write: int, count: int, msgs: seq<seq<byte>>)
    requires Represents(mem, read, write, count, msgs) && msgs != []
    ensures var n, head := |msgs[0]|, Linear(mem, read, HEAD);
            && HEAD + n <= Used(read, write, count, |mem|) <= |mem|
            && GoodHead(head) && HeadSize(head) == n
            && Linear(mem, Advance(read, HEAD, |mem|), n) == msgs[0]
  {
    UsedAndFree(mem, read, write, count, msgs);
    OldestBlock(mem, read, write, count, msgs);
    HeadRoundTrip(|msgs[0]|);
  }

  /** After a push, the buffer holds one message more if and only if the growth loop carried the queued blocks along. */
  lemma AppendedIsHeld(mem: seq<byte>, read: int, write: int, count: int, base: seq<byte>, msgs: seq<seq<byte>>, m: seq<byte>)
    requires Sized(msgs) && |m| <= INT_MAX && count == |msgs| + 1
    requires InMemory(mem, read, write, base + Block(m))
    requires base == Encode(msgs) || (msgs == [] && read == 0 && |base| > 0)
    ensures Represents(mem, read, write, count, msgs + [m]) <==> base == Encode(msgs)
  {
    EncodeSnoc(msgs, m);
  }

  lemma CarriedIsHeld(mem: seq<byte>, read: int, write: int, count: int, base: seq<byte>, msgs: seq<seq<byte>>)
    requires Sized(msgs) && count == |msgs| && InMemory(mem, read, write, base)
    requires base == Encode(msgs) || (msgs == [] && read == 0 && |base| > 0)
    ensures Represents(mem, read, write, count, msgs) <==> base == Encode(msgs)
  {
  }

  lemma StartsTracked(mem: seq<byte>, read: int, write: int, count: int, msgs: seq<seq<byte>>, need: nat, step: nat, max: nat)
    requires Represents(mem, read, write, count, msgs)
    ensures Tracked(Encode(msgs), msgs, read, Free(read, write, count, |mem|), |mem|, |mem|, need, step, max)
  {
    UsedAndFree(mem, read, write, count, msgs);
  }

  /** The loop ended with room or with no way to grow: it tells whether the message fits, and what it did to an empty buffer. */
  lemma EndsTracked(base: seq<byte>, msgs: seq<seq<byte>>, read: int, free: int, size: nat,
                    was: nat, need: nat, step: nat, max: nat, ok: bool)
    requires Sized(msgs) && Tracked(base, msgs, read, free, size, was, need, step, max) && HEAD <= need
    requires if ok then free >= need else free < need && !(step != 0 && size + HEAD + step <= max)
    ensures base == Encode(msgs) <==> !(msgs == [] && GrowsEmpty(was, need, step, max))
    ensures base == Encode(msgs) ==> (ok <==> Fits(|Encode(msgs)| + need, was, step, max))
  {
  }

  lemma TrackGrowth(base: seq<byte>, base': seq<byte>, msgs: seq<seq<byte>>, read: int, write: int, count: int, size: nat,
                    was: nat, need: nat, step: nat, max: nat)
    requires Sized(msgs) && (count == 0 <==> msgs == [])
    requires Tracked(base, msgs, read, Free(read, write, count, size), size, was, need, step, max)
    requires Free(read, write, count, size) < need && step > 0 && size + HEAD + step <= max && |base| <= size
    requires if base == [] then |base'| == size else base' == base
    ensures Tracked(base', msgs, 0, Free(0, |base'|, count, size + step), size + step, was, need, step, max)
  {
    EncodeLength(msgs);
  }

  /** Some number of steps, possibly none, makes room for `total` bytes within the limit. */
  predicate Fits(total: nat, size: nat, step: nat, max: nat)
    decreases max - size
  {
    total <= size || (step > 0 && size + HEAD + step <= max && Fits(total, size + step, step, max))
  }

  /** A refused push would have brought the memory within one step of its limit. */
  lemma {:induction false} RefusedNearLimit(total: nat, size: nat, step: nat, max: nat)
    requires step > 0 && !Fits(total, size, step, max)
    ensures total + HEAD + step > max
    decreases max - size
  {
    if size + HEAD + step <= max {
      RefusedNearLimit(total, size + step, step, max);
    }
  }

  /** The size at which an empty buffer first copies its whole memory when it grows. */
  function FirstGrowth(size: nat, step: nat, max: nat): nat {
    if size == 0 && step > 0 && HEAD + step <= max then step else size
  }

  /** The first message is larger than the memory, and a memory that is not empty can grow. */
  predicate GrowsEmpty(size: nat, need: nat, step: nat, max: nat) {
    var first := FirstGrowth(size, step, max);
    0 < first < need && step > 0 && first + HEAD + step <= max
  }

  /** A concrete loss: an empty buffer of 32 bytes that may grow gets a message of 24 bytes, and is no FIFO of it afterwards. */
  method GrowthOfEmptyLoses() returns (ring: DltBuffer, m: seq<byte>, ok: bool)
    ensures fresh(ring) && |m| == 24 && !ring.Holds(if ok then [m] else [])
  {
    ring := new DltBuffer(32, 4096, 64);
    m := seq(24, _ => 7);
    ok := ring.Push3(m, [], [], []);
    assert m + [] + [] == m && [] + [m] == [m];
    assert GrowsEmpty(32 - HEAD, HEAD + 24, 64, 4096);
  }
}
