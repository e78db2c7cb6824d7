/**
 Bytes and the little-endian integers the daemon copies into its buffers.
 */
module Bytes {

  type byte = x: int | 0 <= x < 256

  const TWO_16 := 65536
  const TWO_32 := 4294967296

  function Le16(n: nat): (s: seq<byte>)
    requires n < TWO_16
    ensures |s| == 2
  {
    [n % 256, n / 256]
  }

  function FromLe16(s: seq<byte>): (n: nat)
    requires |s| == 2
    ensures n < TWO_16
  {
    var (lo: int, hi: int) := (s[0], s[1]);
    lo + 256 * hi
  }

  function Le32(n: nat): (s: seq<byte>)
    requires n < TWO_32
    ensures |s| == 4
  {
    Le16(n % 65536) + Le16(n / 65536)
  }

  function FromLe32(s: seq<byte>): (n: nat)
    requires |s| == 4
    ensures n < TWO_32
  {
    FromLe16(s[..2]) + 65536 * FromLe16(s[2..])
  }

  lemma Le16RoundTrip(n: nat)
    requires n < TWO_16
    ensures FromLe16(Le16(n)) == n
  {
  }

  lemma Le32RoundTrip(n: nat)
    requires n < TWO_32
    ensures FromLe32(Le32(n)) == n
  {
    var s := Le32(n);
    assert s[..2] == Le16(n % 65536) && s[2..] == Le16(n / 65536);
    Le16RoundTrip(n % 65536);
    Le16RoundTrip(n / 65536);
  }

  // ---------------------------------------------------------------- pieces one after the other

  /** The pieces from number `i` on. */
  function Joined(parts: seq<seq<byte>>, i: nat): seq<byte>
    requires i <= |parts|
    decreases |parts| - i
  {
    if i == |parts| then [] else parts[i] + Joined(parts, i + 1)
  }

  lemma JoinedNext(text: seq<byte>, parts: seq<seq<byte>>, i: nat)
    requires i < |parts|
    ensures text + Joined(parts, i) == text + parts[i] + Joined(parts, i + 1)
  {
  }

  lemma {:induction false} JoinedLast(parts: seq<seq<byte>>, last: seq<byte>, i: nat)
    requires i <= |parts|
    ensures Joined(parts + [last], i) == Joined(parts, i) + last
    decreases |parts| - i
  {
    if i < |parts| {
      JoinedLast(parts, last, i + 1);
    } else {
      assert Joined(parts + [last], i + 1) == [];
    }
  }

  lemma {:induction false} JoinedShift(parts: seq<seq<byte>>, i: nat)
    requires i < |parts|
    ensures Joined(parts, i + 1) == Joined(parts[1..], i)
    decreases |parts| - i
  {
    if i + 1 < |parts| {
      JoinedShift(parts, i + 1);
    }
  }

  lemma JoinedFirst(parts: seq<seq<byte>>, rest: seq<byte>)
    requires parts != []
    ensures Joined(parts, 0) + rest == parts[0] + (Joined(parts[1..], 0) + rest)
  {
    JoinedShift(parts, 0);
  }

  // ---------------------------------------------------------------- copying

  /** memcpy of `src` to offset `at` of `dst` */
  method CopyInto(dst: array<byte>, at: nat, src: seq<byte>)
    requires at + |src| <= dst.Length
    modifies dst
    ensures forall j :: 0 <= j < dst.Length ==> dst[j] == if at <= j < at + |src| then src[j - at] else old(dst[j])
  {
    var k := 0;
    while k < |src|
      invariant k <= |src|
      invariant forall j :: 0 <= j < dst.Length ==> dst[j] == if at <= j < at + k then src[j - at] else old(dst[j])
    {
      dst[at + k] := src[k];
      k := k + 1;
    }
  }
}
