/**
 Application and context ids: four bytes, zero-padded behind the last character,
 and the C comparisons on them.
 */
module Ids {
  import opened Bytes

  predicate IsId(s: seq<byte>) {
    && |s| == 4
    && (forall k :: 0 <= k < 4 ==> s[k] < 128)
    && (s[0] == 0 ==> s[1] == 0) && (s[1] == 0 ==> s[2] == 0) && (s[2] == 0 ==> s[3] == 0)
  }

  /** As dlt_set_id leaves it, with 7-bit characters. */
  type Id = s: seq<byte> | IsId(s) witness [0, 0, 0, 0]

  const NO_ID: Id := [0, 0, 0, 0]

  predicate Given(id: Id) {
    id[0] != 0
  }

  /** The id read as a big-endian number. */
  function Num(id: Id): (n: nat)
    ensures n < TWO_32
  {
    var (a: int, b: int, c: int, d: int) := (id[0], id[1], id[2], id[3]);
    ((a * 256 + b) * 256 + c) * 256 + d
  }

  /** memcmp over the first `n` bytes from byte `k` on: the first difference. */
  function Compare(a: Id, b: Id, k: nat, n: nat): int
    requires k <= n <= 4
    decreases n - k
  {
    if k == n then 0
    else
      var (x: int, y: int) := (a[k], b[k]);
      if x != y then x - y else Compare(a, b, k + 1, n)
  }

  function Memcmp(a: Id, b: Id): int {
    Compare(a, b, 0, 4)
  }

  /** strncmp: as memcmp, but no further than a common terminator. */
  function Strncmp(a: Id, b: Id, k: nat, n: nat): int
    requires k <= n <= 4
    decreases n - k
  {
    if k == n then 0
    else
      var (x: int, y: int) := (a[k], b[k]);
      if x != y then x - y else if x == 0 then 0 else Strncmp(a, b, k + 1, n)
  }

  /** The cast to int8_t. */
  function Int8(x: int): int {
    (x + 128) % 256 - 128
  }

  /** Comparing bytes is comparing numbers, and equal numbers are equal ids. */
  lemma MemcmpIsOrder(a: Id, b: Id)
    ensures Memcmp(a, b) < 0 <==> Num(a) < Num(b)
    ensures Memcmp(a, b) == 0 <==> a == b
    ensures Memcmp(a, b) == 0 <==> Num(a) == Num(b)
  {
    assert Compare(a, b, 3, 4) == (a[3] as int) - (b[3] as int);
    assert Compare(a, b, 2, 4) == if a[2] != b[2] then (a[2] as int) - (b[2] as int) else Compare(a, b, 3, 4);
    assert Compare(a, b, 1, 4) == if a[1] != b[1] then (a[1] as int) - (b[1] as int) else Compare(a, b, 2, 4);
    assert a == [a[0], a[1], a[2], a[3]] && b == [b[0], b[1], b[2], b[3]];
  }

  ghost predicate SamePrefix(a: Id, b: Id, n: nat)
    requires n <= 4
  {
    a[..n] == b[..n]
  }

  lemma {:induction false} StrncmpFrom(a: Id, b: Id, k: nat, n: nat)
    requires k <= n <= 4 && a[..k] == b[..k]
    ensures Int8(Strncmp(a, b, k, n)) == Strncmp(a, b, k, n)
    ensures Strncmp(a, b, k, n) == 0 <==> SamePrefix(a, b, n)
    ensures Strncmp(a, b, k, n) > 0 ==> Num(a) > Num(b)
    ensures Strncmp(a, b, k, n) < 0 ==> Num(a) < Num(b)
    decreases n - k
  {
    if k < n {
      if a[k] != b[k] {
        assert a[..n][k] != b[..n][k];
        DifferAt(a, b, k);
      } else if a[k] == 0 {
        ZerosBehind(a, k);
        ZerosBehind(b, k);
        assert forall j :: 0 <= j < n ==> a[..n][j] == if j < k then a[..k][j] else 0;
        assert forall j :: 0 <= j < n ==> b[..n][j] == if j < k then b[..k][j] else 0;
      } else {
        assert a[..k + 1] == a[..k] + [a[k]] && b[..k + 1] == b[..k] + [b[k]];
        StrncmpFrom(a, b, k + 1, n);
      }
    }
  }

  lemma ZerosBehind(a: Id, k: nat)
    requires k < 4 && a[k] == 0
    ensures forall j :: k <= j < 4 ==> a[j] == 0
  {
  }

  lemma DifferAt(a: Id, b: Id, k: nat)
    requires k < 4 && a[..k] == b[..k] && a[k] != b[k]
    ensures a[k] > b[k] <==> Num(a) > Num(b)
    ensures Num(a) != Num(b)
  {
    assert forall j :: 0 <= j < k ==> a[..k][j] == a[j] && b[..k][j] == b[j];
  }

  /** What the wildcard scan learns from the comparison, cast to int8_t as in the code. */
  lemma StrncmpMeans(a: Id, b: Id, n: nat)
    requires n <= 4
    ensures Int8(Strncmp(a, b, 0, n)) == 0 <==> SamePrefix(a, b, n)
    ensures Int8(Strncmp(a, b, 0, n)) > 0 ==> Num(a) > Num(b)
  {
    StrncmpFrom(a, b, 0, n);
  }

  /** Behind an id that is greater in its first `n` bytes, no later id has the prefix. */
  lemma PastPrefix(a: Id, b: Id, later: Id, n: nat)
    requires n <= 4 && Strncmp(a, b, 0, n) > 0 && Num(later) >= Num(a)
    ensures !SamePrefix(later, b, n)
  {
    StrncmpFrom(a, b, 0, n);
    StrncmpFrom(later, b, 0, n);
    if SamePrefix(later, b, n) {
      PrefixBounds(a, b, later, n);
    }
  }

  lemma PrefixBounds(a: Id, b: Id, later: Id, n: nat)
    requires n <= 4 && SamePrefix(later, b, n) && !SamePrefix(a, b, n) && Num(a) > Num(b)
    ensures Num(later) < Num(a)
  {
    var k := FirstDifference(a, b, n);
    assert forall j :: 0 <= j < n ==> later[..n][j] == later[j] && b[..n][j] == b[j];
    DifferAt(a, b, k);
    assert later[..k] == a[..k];
    DifferAt(a, later, k);
  }

  lemma {:induction false} FirstDifference(a: Id, b: Id, n: nat) returns (k: nat)
    requires n <= 4 && !SamePrefix(a, b, n)
    ensures k < n && a[..k] == b[..k] && a[k] != b[k]
    decreases n
  {
    assert a[..0] == b[..0];
    assert a[..n] == a[..n - 1] + [a[n - 1]] && b[..n] == b[..n - 1] + [b[n - 1]];
    if SamePrefix(a, b, n - 1) {
      k := n - 1;
    } else {
      k := FirstDifference(a, b, n - 1);
    }
  }

  // ---------------------------------------------------------------- ids as numbers

  /** Four bytes read as a big-endian number. The tables work on these: comparing them is memcmp on the bytes. */
  type IdNum = n: int | 0 <= n < TWO_32

  /** The last `k` bytes of the number, the most significant first. */
  function Digits(n: nat, k: nat): (s: seq<byte>)
    ensures |s| == k
  {
    if k == 0 then [] else Digits(n / 256, k - 1) + [n % 256]
  }

  function IdBytes(n: IdNum): (s: seq<byte>)
    ensures |s| == 4
  {
    Digits(n, 4)
  }

  lemma IdBytesAre(n: IdNum)
    ensures IdBytes(n) == [n / 16777216, n / 65536 % 256, n / 256 % 256, n % 256]
  {
    assert n / 65536 == n / 256 / 256 && n / 16777216 == n / 256 / 256 / 256;
    assert Digits(n / 16777216, 1) == [n / 16777216];
    assert Digits(n / 65536, 2) == [n / 16777216, n / 65536 % 256];
    assert Digits(n / 256, 3) == [n / 16777216, n / 65536 % 256, n / 256 % 256];
  }

  lemma IdBytesRoundTrip(n: IdNum)
    requires IsId(IdBytes(n))
    ensures Num(IdBytes(n)) == n
  {
    IdBytesAre(n);
  }

  lemma LastByte(n: nat, b: nat)
    requires b < 256
    ensures (n * 256 + b) / 256 == n && (n * 256 + b) % 256 == b
  {
  }

  lemma NumRoundTrip(id: Id)
    ensures IdBytes(Num(id)) == id
  {
    var (a: int, b: int, c: int, d: int) := (id[0], id[1], id[2], id[3]);
    LastByte(a, b);
    LastByte(a * 256 + b, c);
    LastByte((a * 256 + b) * 256 + c, d);
    var n := Num(id);
    IdBytesAre(n);
    assert n / 65536 == n / 256 / 256 && n / 16777216 == n / 256 / 256 / 256;
    assert id == [id[0], id[1], id[2], id[3]];
  }
}
