/**
 dlt-sortbytimestamp: the index of the messages is sorted by system time, cut
 where a gap looks like a new boot, and each segment is sorted by timestamp and written.
 Behind the index stands a copy of the first message of the file, as the code has it.
 */
module BootSort {
  import opened Sorting

  datatype Entry = Entry(num: int, tmsp: nat, systmsp: nat)

  datatype Key = BySystime | ByTimestamp

  datatype Outcome = OutOfRange | Wrote(out: seq<Entry>)

  const GAP_TIMESTAMP := 500000
  const GAP_SYSTIME := 180

  function Val(e: Entry, key: Key): nat {
    if key == BySystime then e.systmsp else e.tmsp
  }

  function By(key: Key): Entry -> int {
    (e: Entry) => Val(e, key)
  }

  // ---------------------------------------------------------------- boot cycles

  function Abs(x: int): nat {
    if x < 0 then -x else x
  }

  /** A gap behind entry `k` that counts as a new boot cycle. */
  predicate Boundary(x: seq<Entry>, k: nat)
    requires k + 1 < |x|
  {
    Abs(x[k + 1].tmsp - x[k].tmsp) > GAP_TIMESTAMP || Abs(x[k + 1].systmsp - x[k].systmsp) >= GAP_SYSTIME
  }

  /** Where the last boundary before entry `k` ends a segment; 0 if there is none. */
  function Cut(x: seq<Entry>, k: nat): (c: nat)
    requires k < |x|
    ensures c <= k && (c == 0 || Boundary(x, c - 1))
    ensures forall j :: c <= j < k ==> !Boundary(x, j)
  {
    if k == 0 then 0 else if Boundary(x, k - 1) then k else Cut(x, k - 1)
  }

  /** The sorted index with the copy of the first message behind it. */
  ghost predicate Index(input: seq<Entry>, x: seq<Entry>) {
    && input != [] && |x| == |input| + 1 && x[|input|] == input[0]
    && SortedPermutation(x[..|input|], input, By(BySystime))
  }

  /** A place where one segment ends and the next begins. */
  predicate IsCut(x: seq<Entry>, i: nat)
    requires i < |x|
  {
    i == 0 || Boundary(x, i - 1)
  }

  /** Between any two cuts the same messages are in `out` as in the index. */
  ghost predicate SegmentsKept(x: seq<Entry>, out: seq<Entry>)
    requires |out| < |x|
  {
    forall i :: 0 <= i <= |out| && IsCut(x, i) ==> multiset(out[..i]) == multiset(x[..i])
  }

  /** Where there is no boundary, timestamps do not fall. */
  ghost predicate SegmentsSorted(x: seq<Entry>, out: seq<Entry>)
    requires |out| < |x|
  {
    forall i :: 0 <= i < |out| - 1 && !Boundary(x, i) ==> out[i].tmsp <= out[i + 1].tmsp
  }

  /** What is written once the first `k` entries have been looked at. */
  ghost predicate Flushed(x: seq<Entry>, out: seq<Entry>, k: nat)
    requires k < |x|
  {
    |out| == Cut(x, k) && SegmentsKept(x, out) && SegmentsSorted(x, out)
  }

  /** With no boundary at all: the first ones of all entries and the copy, sorted by timestamp. */
  ghost predicate OneCycle(x: seq<Entry>, out: seq<Entry>, last: Entry)
    requires x != []
  {
    |out| == |x| - 1 && SortedPermutation(out + [last], x, By(ByTimestamp))
  }

  lemma FlushNothing(x: seq<Entry>)
    requires x != []
    ensures Flushed(x, [], 0)
  {
  }

  lemma PiecesPermuted(a: seq<Entry>, b: seq<Entry>, x: seq<Entry>, c: nat, k: nat)
    requires c <= k <= |x| && multiset(a) == multiset(x[..c]) && multiset(b) == multiset(x[c..k])
    ensures multiset(a + b) == multiset(x[..k])
  {
    assert x[..k] == x[..c] + x[c..k];
  }

  /** A cut of the longer output is a cut of the old one or its end. */
  lemma CutOfOutput(x: seq<Entry>, out: seq<Entry>, k: nat, seg: seq<Entry>, i: nat)
    requires k + 1 < |x| && |out| == Cut(x, k) && |seg| == k + 1 - Cut(x, k) && i <= k + 1 && IsCut(x, i)
    ensures if i <= |out| then (out + seg)[..i] == out[..i] else i == k + 1 && (out + seg)[..i] == out + seg
  {
  }

  lemma WholeKept(x: seq<Entry>, out: seq<Entry>)
    requires |out| < |x| && SegmentsKept(x, out) && IsCut(x, |out|)
    ensures multiset(out) == multiset(x[..|out|])
  {
    assert out[..|out|] == out;
  }

  lemma KeptAt(x: seq<Entry>, out: seq<Entry>, k: nat, seg: seq<Entry>, i: nat)
    requires k + 1 < |x| && |out| == Cut(x, k) && SegmentsKept(x, out)
    requires |seg| == k + 1 - Cut(x, k) && multiset(out + seg) == multiset(x[..k + 1]) && i <= k + 1 && IsCut(x, i)
    ensures multiset((out + seg)[..i]) == multiset(x[..i])
  {
    CutOfOutput(x, out, k, seg, i);
  }

  lemma FlushedWhole(x: seq<Entry>, out: seq<Entry>, k: nat, seg: seq<Entry>)
    requires k + 1 < |x| && |out| == Cut(x, k) && SegmentsKept(x, out) && multiset(seg) == multiset(x[Cut(x, k)..k + 1])
    ensures multiset(out + seg) == multiset(x[..k + 1])
  {
    WholeKept(x, out);
    PiecesPermuted(out, seg, x, Cut(x, k), k + 1);
  }

  lemma KeptStep(x: seq<Entry>, out: seq<Entry>, k: nat, seg: seq<Entry>)
    requires k + 1 < |x| && Boundary(x, k) && |out| == Cut(x, k) && SegmentsKept(x, out)
    requires multiset(seg) == multiset(x[Cut(x, k)..k + 1]) && |seg| == k + 1 - Cut(x, k)
    ensures SegmentsKept(x, out + seg)
  {
    FlushedWhole(x, out, k, seg);
    forall i | 0 <= i <= |out + seg| && IsCut(x, i)
      ensures multiset((out + seg)[..i]) == multiset(x[..i])
    {
      KeptAt(x, out, k, seg, i);
    }
  }

  lemma SortedStep(x: seq<Entry>, out: seq<Entry>, k: nat, seg: seq<Entry>)
    requires k + 1 < |x| && |out| == Cut(x, k) && SegmentsSorted(x, out)
    requires Sorted(seg, By(ByTimestamp)) && |seg| == k + 1 - Cut(x, k)
    ensures SegmentsSorted(x, out + seg)
  {
    var c, r := Cut(x, k), out + seg;
    forall i | 0 <= i < |r| - 1 && !Boundary(x, i)
      ensures r[i].tmsp <= r[i + 1].tmsp
    {
      if i >= c {
        assert Val(seg[i - c], ByTimestamp) <= Val(seg[i - c + 1], ByTimestamp);
      } else {
        assert i != c - 1;
      }
    }
  }

  /** Writing a sorted segment at a boundary. */
  lemma FlushStep(x: seq<Entry>, out: seq<Entry>, k: nat, seg: seq<Entry>)
    requires k + 1 < |x| && Flushed(x, out, k) && Boundary(x, k)
    requires SortedPermutation(seg, x[Cut(x, k)..k + 1], By(ByTimestamp))
    ensures Flushed(x, out + seg, k + 1)
  {
    SameLength(seg, x[Cut(x, k)..k + 1]);
    KeptStep(x, out, k, seg);
    SortedStep(x, out, k, seg);
  }

  /** The index, filled and sorted by system time. */
  method MakeIndex(input: seq<Entry>) returns (index: array<Entry>)
    requires input != []
    ensures fresh(index) && Index(input, index[..])
  {
    var n := |input|;
    index := new Entry[n + 1];
    for num := 0 to n
      invariant index[..num] == input[..num]
    {
      index[num] := input[num];
    }
    index[n] := index[0];
    assert index[..n] == input && index[n..][0] == input[0];
    Qsort(index, n, By(BySystime));
    assert index[n..][0] == index[n];
    assert index[..][..n] == index[..n];
  }

  /** The loop that looks for boundaries and writes the segments before them. `count` messages are left. */
  method FlushCycles(index: array<Entry>, n: nat) returns (out: seq<Entry>, count: nat)
    requires index.Length == n + 1
    ensures Flushed(index[..], out, n) && count == n - Cut(index[..], n)
  {
    ghost var x := index[..];
    var start := 0;
    out, count := [], 0;
    FlushNothing(x);
    for num := 0 to n
      invariant start == Cut(x, num) && count == num - start
      invariant Flushed(x, out, num)
    {
      count := count + 1;
      if Boundary(index[..], num) {
        var seg := SortedCopy(index, start, count);
        FlushStep(x, out, num, seg);
        out := out + seg;
        start := start + count;
        count := 0;
      }
    }
  }

  /** The sort of a file. `x` is the index after its first sort, `last` the entry its second sort leaves over. */
  method SortByTimestamp(input: seq<Entry>) returns (r: Outcome, ghost x: seq<Entry>, ghost last: Entry)
    ensures r.OutOfRange? <==> input == []
    ensures r.Wrote? ==>
              && Index(input, x)
              && (if Cut(x, |input|) == 0 then OneCycle(x, r.out, last) else Flushed(x, r.out, |input|))
  {
    x, last := [], Entry(0, 0, 0);
    if input == [] {
      return OutOfRange, x, last;
    }
    var n := |input|;
    var index := MakeIndex(input);
    x := index[..];
    var out, count := FlushCycles(index, n);
    if count == n {
      out, last := SortOneCycle(index);
    }
    r := Wrote(out);
  }

  /** The second sort, of all entries and the copy; the last one is not written. */
  method SortOneCycle(index: array<Entry>) returns (out: seq<Entry>, last: Entry)
    requires index.Length > 0
    modifies index
    ensures OneCycle(old(index[..]), out, last)
  {
    var n := index.Length - 1;
    assert index[..n + 1] == index[..];
    Qsort(index, n + 1, By(ByTimestamp));
    out, last := index[..n], index[n];
    assert index[..n + 1] == out + [last];
  }

  /** The entries `start` up to `start + count`, copied and sorted by timestamp. */
  method SortedCopy(index: array<Entry>, start: nat, count: nat) returns (seg: seq<Entry>)
    requires start + count <= index.Length
    ensures SortedPermutation(seg, index[start..start + count], By(ByTimestamp))
  {
    var temp := new Entry[count];
    for i := 0 to count
      invariant temp[..i] == index[start..start + i]
      modifies temp
    {
      temp[i] := index[start + i];
    }
    assert temp[..count] == temp[..];
    Qsort(temp, count, By(ByTimestamp));
    seg := temp[..];
    assert temp[..count] == temp[..];
  }

  // ---------------------------------------------------------------- several boot cycles

  /** Every segment of the output is a permutation of the same segment of the index. */
  lemma SegmentPermuted(x: seq<Entry>, out: seq<Entry>, a: nat, b: nat)
    requires |out| < |x| && SegmentsKept(x, out) && a <= b <= |out| && IsCut(x, a) && IsCut(x, b)
    ensures multiset(out[a..b]) == multiset(x[a..b])
  {
    assert out[..b] == out[..a] + out[a..b] && x[..b] == x[..a] + x[a..b];
    assert multiset(out[..a]) == multiset(x[..a]) && multiset(out[..b]) == multiset(x[..b]);
    assert multiset(out[a..b]) == multiset(out[..b]) - multiset(out[..a]);
    assert multiset(x[a..b]) == multiset(x[..b]) - multiset(x[..a]);
  }

  /** Within a segment the output is sorted by timestamp. */
  lemma {:induction false} SegmentSorted(x: seq<Entry>, out: seq<Entry>, i: nat, j: nat)
    requires |out| < |x| && SegmentsSorted(x, out) && i <= j < |out| && forall k :: i <= k < j ==> !Boundary(x, k)
    ensures out[i].tmsp <= out[j].tmsp
    decreases j
  {
    if i < j {
      SegmentSorted(x, out, i, j - 1);
      assert !Boundary(x, j - 1);
    }
  }

  lemma IndexOf(s: seq<Entry>, t: seq<Entry>, i: nat) returns (j: nat)
    requires multiset(s) == multiset(t) && i < |s|
    ensures j < |t| && t[j] == s[i]
  {
    assert s[i] in multiset(t);
    j :| 0 <= j < |t| && t[j] == s[i];
  }

  /** Across a boundary the system time does not fall. */
  lemma AcrossSegments(input: seq<Entry>, x: seq<Entry>, out: seq<Entry>, i: nat, b: nat, j: nat)
    requires Index(input, x) && Flushed(x, out, |input|)
    requires i <= b < j < |out| && Boundary(x, b)
    ensures out[i].systmsp <= out[j].systmsp
  {
    var c, n := b + 1, |out|;
    assert IsCut(x, 0) && IsCut(x, c) && IsCut(x, n);
    SegmentPermuted(x, out, 0, c);
    SegmentPermuted(x, out, c, n);
    var p := IndexOf(out[0..c], x[0..c], i);
    var q := IndexOf(out[c..n], x[c..n], j - c);
    assert x[p] == out[i] && x[c + q] == out[j];
    assert Val(x[..|input|][p], BySystime) <= Val(x[..|input|][c + q], BySystime);
  }

  /** The output and the messages behind the last boundary are the input: nothing is doubled, and the rest is left out. */
  lemma Conserved(input: seq<Entry>, x: seq<Entry>, out: seq<Entry>)
    requires Index(input, x) && Flushed(x, out, |input|)
    ensures multiset(out) == multiset(x[..|out|])
    ensures multiset(out) + multiset(x[|out|..|input|]) == multiset(input)
  {
    var n := |input|;
    assert IsCut(x, |out|) && out[..|out|] == out;
    assert x[..n] == x[..|out|] + x[|out|..n];
  }

  /** All messages are written exactly when there is a boundary behind the last one. */
  lemma WholeInputIff(input: seq<Entry>, x: seq<Entry>, out: seq<Entry>)
    requires Index(input, x) && Flushed(x, out, |input|)
    ensures multiset(out) == multiset(input) <==> Boundary(x, |input| - 1)
  {
    Conserved(input, x, out);
    if multiset(out) == multiset(input) {
      SameLength(out, input);
    } else {
      assert x[|out|..|input|] != [];
    }
  }

  // ---------------------------------------------------------------- one boot cycle

  /** The last entry of the index is the first message of the file, a second time. */
  lemma TwiceTheFirst(input: seq<Entry>, x: seq<Entry>)
    requires Index(input, x)
    ensures multiset(x) == multiset(input) + multiset{input[0]}
  {
    assert x == x[..|input|] + [input[0]];
  }

  /** The output is the smallest timestamps of all messages and the copy, in order; the one left over is the greatest. */
  lemma OneCycleSmallest(input: seq<Entry>, x: seq<Entry>, out: seq<Entry>, last: Entry)
    requires Index(input, x) && OneCycle(x, out, last)
    ensures |out| == |input| && Sorted(out, By(ByTimestamp))
    ensures multiset(out) + multiset{last} == multiset(input) + multiset{input[0]}
    ensures forall i :: 0 <= i < |out| ==> out[i].tmsp <= last.tmsp
    ensures forall i :: 0 <= i < |input| ==> input[i].tmsp <= last.tmsp
  {
    var s := out + [last];
    TwiceTheFirst(input, x);
    assert forall i :: 0 <= i < |out| ==> out[i] == s[i];
    assert forall i :: 0 <= i < |s| ==> Val(s[i], ByTimestamp) <= Val(s[|out|], ByTimestamp);
    forall i | 0 <= i < |input|
      ensures input[i].tmsp <= last.tmsp
    {
      assert input[i] in multiset(x);
      assert input[i] in multiset(s);
      assert exists j :: 0 <= j < |s| && s[j] == input[i];
    }
  }

  /** Then the output is the input exactly when the entry left over is the copy. */
  lemma OneCycleIff(input: seq<Entry>, x: seq<Entry>, out: seq<Entry>, last: Entry)
    requires Index(input, x) && OneCycle(x, out, last)
    ensures multiset(out) == multiset(input) <==> last == input[0]
  {
    OneCycleSmallest(input, x, out, last);
    assert multiset(out) == multiset(out) + multiset{last} - multiset{last};
    assert multiset(input) == multiset(input) + multiset{input[0]} - multiset{input[0]};
    if multiset(out) == multiset(input) {
      SameEntry(multiset(input), last, input[0]);
    }
  }

  lemma SameEntry(m: multiset<Entry>, a: Entry, b: Entry)
    requires m + multiset{a} == m + multiset{b}
    ensures a == b
  {
    assert (m + multiset{a})[a] == m[a] + 1;
  }

  /** Messages carry their place in the file. */
  ghost predicate Numbered(input: seq<Entry>) {
    forall i :: 0 <= i < |input| ==> input[i].num == i
  }

  /** What a second sort may leave, whatever it does with equal timestamps. */
  ghost predicate MayWrite(input: seq<Entry>, out: seq<Entry>, last: Entry)
    requires input != []
  {
    |out| == |input| && SortedPermutation(out + [last], input + [input[0]], By(ByTimestamp))
  }

  /** The second sort of the program may leave exactly that. */
  lemma OneCycleIsMayWrite(input: seq<Entry>, x: seq<Entry>, out: seq<Entry>, last: Entry)
    requires Index(input, x)
    ensures OneCycle(x, out, last) <==> MayWrite(input, out, last)
  {
    TwiceTheFirst(input, x);
  }

  /** The latest message from number `i` on. */
  lemma {:induction false} Latest(s: seq<Entry>, i: nat) returns (m: nat)
    requires i < |s|
    ensures i <= m < |s| && forall k :: i <= k < |s| ==> s[k].tmsp <= s[m].tmsp
    decreases |s| - i
  {
    m := i;
    if i + 1 < |s| {
      var k := Latest(s, i + 1);
      m := if s[i].tmsp <= s[k].tmsp then k else i;
    }
  }

  lemma SortedLast(rest: seq<Entry>, last: Entry) returns (out: seq<Entry>)
    requires forall k :: 0 <= k < |rest| ==> rest[k].tmsp <= last.tmsp
    ensures |out| == |rest| && multiset(out) == multiset(rest) && Sorted(out + [last], By(ByTimestamp))
  {
    out := InsertAll(rest, By(ByTimestamp));
    InsertAllMeets(rest, By(ByTimestamp));
    SameLength(out, rest);
    forall i | 0 <= i < |out|
      ensures out[i].tmsp <= last.tmsp
    {
      var k := IndexOf(out, rest, i);
    }
    AppendSorted(out, last);
  }

  lemma AppendSorted(s: seq<Entry>, e: Entry)
    requires Sorted(s, By(ByTimestamp)) && forall i :: 0 <= i < |s| ==> s[i].tmsp <= e.tmsp
    ensures Sorted(s + [e], By(ByTimestamp))
  {
  }

  lemma Swapped(input: seq<Entry>, m: nat, rest: seq<Entry>)
    requires 0 < m < |input| && rest == input[..m] + input[m + 1..] + [input[0]]
    ensures multiset(rest + [input[m]]) == multiset(input + [input[0]])
  {
    assert input == input[..m] + [input[m]] + input[m + 1..];
  }

  /** Every message but the latest of the others, and the first one again, is no later than it. */
  lemma NoLater(input: seq<Entry>, m: nat, j: nat, rest: seq<Entry>)
    requires 0 < m < |input| && 0 < j < |input| && input[j].tmsp >= input[0].tmsp
    requires forall p :: 0 < p < |input| ==> input[p].tmsp <= input[m].tmsp
    requires rest == input[..m] + input[m + 1..] + [input[0]]
    ensures forall k :: 0 <= k < |rest| ==> rest[k].tmsp <= input[m].tmsp
  {
    assert forall k :: 0 <= k < |rest| ==>
        rest[k] == if k < m then input[k] else if k < |input| - 1 then input[k + 1] else input[0];
  }

  /** If another message is at least as late as the first one, a sort may leave it over. */
  lemma MayLose(input: seq<Entry>, j: nat) returns (out: seq<Entry>, last: Entry)
    requires 0 < j < |input| && input[j].tmsp >= input[0].tmsp
    ensures MayWrite(input, out, last) && exists m :: 0 < m < |input| && last == input[m]
  {
    var m := Latest(input, 1);
    last := input[m];
    var rest := input[..m] + input[m + 1..] + [input[0]];
    NoLater(input, m, j, rest);
    Swapped(input, m, rest);
    out := SortedLast(rest, last);
    assert multiset(out + [last]) == multiset(rest + [last]);
  }

  /** Then, with one boot cycle, some sort leaves another message out and writes the first one twice. */
  lemma CanLose(input: seq<Entry>, x: seq<Entry>, j: nat) returns (out: seq<Entry>, last: Entry)
    requires Numbered(input) && Index(input, x) && Cut(x, |input|) == 0
    requires 0 < j < |input| && input[j].tmsp >= input[0].tmsp
    ensures OneCycle(x, out, last) && multiset(out) != multiset(input)
  {
    out, last := MayLose(input, j);
    OneCycleIsMayWrite(input, x, out, last);
    OneCycleIff(input, x, out, last);
  }

  lemma StrictlyLatest(input: seq<Entry>, out: seq<Entry>, last: Entry)
    requires input != [] && MayWrite(input, out, last)
    requires forall i :: 0 < i < |input| ==> input[i].tmsp < input[0].tmsp
    ensures multiset(out) == multiset(input)
  {
    var s, t := out + [last], input + [input[0]];
    assert s[|out|] == last;
    var k := IndexOf(s, t, |out|);
    var p := IndexOf(t, s, 0);
    assert t[0] == input[0];
    assert p < |out| ==> Val(s[p], ByTimestamp) <= Val(s[|out|], ByTimestamp);
    assert last == input[0];
    assert multiset(out) == multiset(s) - multiset{last} && multiset(input) == multiset(t) - multiset{last};
  }

  /** With one boot cycle the output is certain to be the input exactly when the first message is later than all others. */
  lemma CertainIff(input: seq<Entry>, x: seq<Entry>)
    requires Numbered(input) && Index(input, x) && Cut(x, |input|) == 0
    ensures (forall out, last :: OneCycle(x, out, last) ==> multiset(out) == multiset(input))
            <==> (forall i :: 0 < i < |input| ==> input[i].tmsp < input[0].tmsp)
  {
    if forall i :: 0 < i < |input| ==> input[i].tmsp < input[0].tmsp {
      forall out, last | OneCycle(x, out, last)
        ensures multiset(out) == multiset(input)
      {
        OneCycleIsMayWrite(input, x, out, last);
        StrictlyLatest(input, out, last);
      }
    } else {
      var j :| 0 < j < |input| && input[j].tmsp >= input[0].tmsp;
      var out, last := CanLose(input, x, j);
      assert OneCycle(x, out, last);
    }
  }

  /** Some sort keeps all messages unless another one is later than the first. */
  lemma CanKeep(input: seq<Entry>) returns (out: seq<Entry>)
    requires input != [] && forall j :: 0 <= j < |input| ==> input[j].tmsp <= input[0].tmsp
    ensures MayWrite(input, out, input[0]) && multiset(out) == multiset(input)
  {
    out := SortedLast(input, input[0]);
    assert multiset(out + [input[0]]) == multiset(input + [input[0]]);
  }

  /** With one boot cycle every sort loses a message and doubles the first one exactly when another message is later than the first. */
  lemma CertainLossIff(input: seq<Entry>, x: seq<Entry>)
    requires Index(input, x) && Cut(x, |input|) == 0
    ensures (forall out, last :: OneCycle(x, out, last) ==> multiset(out) != multiset(input))
            <==> (exists j :: 0 <= j < |input| && input[j].tmsp > input[0].tmsp)
  {
    if exists j :: 0 <= j < |input| && input[j].tmsp > input[0].tmsp {
      forall out, last | OneCycle(x, out, last)
        ensures multiset(out) != multiset(input)
      {
        OneCycleSmallest(input, x, out, last);
        OneCycleIff(input, x, out, last);
      }
    } else {
      var out := CanKeep(input);
      OneCycleIsMayWrite(input, x, out, input[0]);
      assert OneCycle(x, out, input[0]);
    }
  }

  /** What is lost then: the entry left over, a latest message, while the first one is written twice. */
  lemma LossIs(input: seq<Entry>, x: seq<Entry>, out: seq<Entry>, last: Entry)
    requires Numbered(input) && Index(input, x) && OneCycle(x, out, last) && last != input[0]
    ensures multiset(input)[last] == 1 && multiset(out)[last] == 0 && multiset(out)[input[0]] == 2
    ensures forall i :: 0 <= i < |input| ==> input[i].tmsp <= last.tmsp
  {
    OneCycleSmallest(input, x, out, last);
    assert (multiset(out) + multiset{last})[last] == (multiset(input) + multiset{input[0]})[last];
    assert (multiset(out) + multiset{last})[input[0]] == (multiset(input) + multiset{input[0]})[input[0]];
    assert last in multiset(input) + multiset{input[0]};
    var k :| 0 <= k < |input| && input[k] == last;
    OnlyOnce(input, k);
    OnlyOnce(input, 0);
  }

  lemma OnlyOnce(input: seq<Entry>, k: nat)
    requires Numbered(input) && k < |input|
    ensures multiset(input)[input[k]] == 1
  {
    var (before, behind) := (input[..k], input[k + 1..]);
    assert input == before + [input[k]] + behind;
    assert input[k] !in before && input[k] !in behind;
  }

  /** A file of two messages within one boot cycle: the first is written twice, the second not at all. */
  method TwoMessagesLoseOne() returns (r: Outcome)
    ensures r == Wrote([Entry(0, 1, 0), Entry(0, 1, 0)])
  {
    var a, b := Entry(0, 1, 0), Entry(1, 2, 0);
    var input := [a, b];
    ghost var x, last;
    r, x, last := SortByTimestamp(input);
    TwoInOneCycle(a, b, x);
    OneCycleSmallest(input, x, r.out, last);
    assert last.tmsp >= input[1].tmsp;
    LossIs(input, x, r.out, last);
    BothAre(r.out, a);
  }

  lemma TwoInOneCycle(a: Entry, b: Entry, x: seq<Entry>)
    requires a == Entry(0, 1, 0) && b == Entry(1, 2, 0) && Index([a, b], x)
    ensures Cut(x, 2) == 0
  {
    TwiceTheFirst([a, b], x);
    forall k | 0 <= k < 3
      ensures x[k] == a || x[k] == b
    {
      assert x[k] in multiset(x);
      assert x[k] in multiset([a, b]) + multiset{a};
    }
    assert !Boundary(x, 0) && !Boundary(x, 1);
  }

  lemma BothAre(out: seq<Entry>, a: Entry)
    requires |out| == 2 && multiset(out)[a] == 2
    ensures out == [a, a]
  {
    assert out == [out[0], out[1]];
  }

  // ---------------------------------------------------------------- what a gap is

  /** Timestamps more than 500000 units of 0.1 ms apart, or system times at least 180 seconds. */
  predicate Apart(a: Entry, b: Entry) {
    || a.tmsp > b.tmsp + 500000 || b.tmsp > a.tmsp + 500000
    || a.systmsp >= b.systmsp + 180 || b.systmsp >= a.systmsp + 180
  }

  lemma BoundaryIff(x: seq<Entry>, k: nat)
    requires k + 1 < |x|
    ensures Boundary(x, k) <==> Apart(x[k], x[k + 1])
  {
  }

  /** Any file of two messages at different times, the earlier one first: both are written, in that order, exactly as they are
      in two boot cycles; in one cycle the second is lost if its timestamp is the greater one, and otherwise they change places. */
  method TwoMessages(a: Entry, b: Entry) returns (r: Outcome)
    requires a.systmsp < b.systmsp && a.num == 0 && b.num == 1
    ensures Apart(a, b) ==> r == Wrote([a, b])
    ensures !Apart(a, b) && a.tmsp < b.tmsp ==> r == Wrote([a, a])
    ensures !Apart(a, b) && a.tmsp > b.tmsp ==> r == Wrote([b, a])
  {
    ghost var x, last;
    r, x, last := SortByTimestamp([a, b]);
    IndexInOrder(a, b, x);
    CutOfTwo(a, b);
    if Apart(a, b) {
      BothCycles(a, b, r.out);
    } else if a.tmsp != b.tmsp {
      OneCycleOfTwo(a, b, r.out, last);
    }
  }

  lemma IndexInOrder(a: Entry, b: Entry, x: seq<Entry>)
    requires a.systmsp < b.systmsp && Index([a, b], x)
    ensures x == [a, b, a]
  {
    OneOrder(x[..2], [a, b], By(BySystime));
    assert x == x[..2] + [x[2]];
  }

  lemma CutOfTwo(a: Entry, b: Entry)
    ensures Cut([a, b, a], 2) == if Apart(a, b) then 2 else 0
  {
    var x := [a, b, a];
    BoundaryIff(x, 0);
    BoundaryIff(x, 1);
  }

  lemma BothCycles(a: Entry, b: Entry, out: seq<Entry>)
    requires Apart(a, b) && Flushed([a, b, a], out, 2) && |out| == 2
    ensures out == [a, b]
  {
    var x := [a, b, a];
    BoundaryIff(x, 0);
    BoundaryIff(x, 1);
    SegmentPermuted(x, out, 0, 1);
    SegmentPermuted(x, out, 1, 2);
    OnlyEntry(out[0..1], x[0..1]);
    OnlyEntry(out[1..2], x[1..2]);
  }

  lemma OnlyEntry(s: seq<Entry>, t: seq<Entry>)
    requires |s| == |t| == 1 && multiset(s) == multiset(t)
    ensures s[0] == t[0]
  {
    assert s[0] in multiset(t);
  }

  lemma OneCycleOfTwo(a: Entry, b: Entry, out: seq<Entry>, last: Entry)
    requires a.tmsp != b.tmsp && OneCycle([a, b, a], out, last)
    ensures out == if a.tmsp < b.tmsp then [a, a] else [b, a]
  {
    var s := out + [last];
    SortedThree(s, a, b);
    assert out[0] == s[0] && out[1] == s[1];
  }

  /** The three entries of which two are the same, sorted. */
  lemma SortedThree(s: seq<Entry>, a: Entry, b: Entry)
    requires |s| == 3 && a.tmsp != b.tmsp && multiset(s) == multiset([a, b, a]) && Sorted(s, By(ByTimestamp))
    ensures s[0] == (if a.tmsp < b.tmsp then a else b) && s[1] == a
  {
    assert s == [s[0], s[1], s[2]];
    forall i | 0 <= i < 3
      ensures s[i] == a || s[i] == b
    {
      assert s[i] in multiset([a, b, a]);
    }
    assert multiset(s)[b] == 1 && multiset(s)[a] == 2;
    assert Val(s[0], ByTimestamp) <= Val(s[1], ByTimestamp) <= Val(s[2], ByTimestamp);
  }

  /** A file of two messages in two boot cycles, the later cycle first: the later message is not written. */
  method TwoCyclesDropOne() returns (r: Outcome)
    ensures r == Wrote([Entry(1, 1, 0)])
  {
    var a, b := Entry(0, 1, 1000), Entry(1, 1, 0);
    ghost var x, last;
    r, x, last := SortByTimestamp([a, b]);
    IndexOfTwo(a, b, x);
    CutBehindFirst(a, b);
    OnlyFirstCycle(a, b, r.out);
  }

  lemma CutBehindFirst(a: Entry, b: Entry)
    requires a == Entry(0, 1, 1000) && b == Entry(1, 1, 0)
    ensures Cut([b, a, a], 2) == 1
  {
    var x := [b, a, a];
    assert Boundary(x, 0) && !Boundary(x, 1);
    assert Cut(x, 1) == 1;
  }

  lemma OnlyFirstCycle(a: Entry, b: Entry, out: seq<Entry>)
    requires Flushed([b, a, a], out, 2) && Cut([b, a, a], 2) == 1
    ensures out == [b]
  {
    var x := [b, a, a];
    assert IsCut(x, 1);
    WholeKept(x, out);
    assert x[..1] == [b];
    assert out == [out[0]] && out[0] in multiset([b]);
  }

  lemma IndexOfTwo(a: Entry, b: Entry, x: seq<Entry>)
    requires b.systmsp < a.systmsp && Index([a, b], x)
    ensures x == [b, a, a]
  {
    assert multiset([b, a]) == multiset([a, b]);
    OneOrder(x[..2], [b, a], By(BySystime));
    assert x == x[..2] + [x[2]];
  }
}
