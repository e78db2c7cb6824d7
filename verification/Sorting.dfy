/**
 What qsort promises: a permutation of the entries, ordered by a key; entries
 with equal keys may come in any order. With distinct keys there is only one such order.
 */
module Sorting {

  ghost predicate Sorted<T>(s: seq<T>, key: T -> int) {
    forall i, j :: 0 <= i < j < |s| ==> key(s[i]) <= key(s[j])
  }

  ghost predicate StrictlySorted<T>(s: seq<T>, key: T -> int) {
    forall i, j :: 0 <= i < j < |s| ==> key(s[i]) < key(s[j])
  }

  ghost predicate SortedPermutation<T>(a: seq<T>, b: seq<T>, key: T -> int) {
    multiset(a) == multiset(b) && Sorted(a, key)
  }

  function Insert<T>(e: T, s: seq<T>, key: T -> int): seq<T> {
    if s == [] || key(e) <= key(s[0]) then [e] + s else [s[0]] + Insert(e, s[1..], key)
  }

  ghost predicate AtLeast<T>(s: seq<T>, key: T -> int, v: int) {
    forall j :: 0 <= j < |s| ==> v <= key(s[j])
  }

  lemma PrependSorted<T>(e: T, s: seq<T>, key: T -> int)
    requires Sorted(s, key) && AtLeast(s, key, key(e))
    ensures Sorted([e] + s, key)
  {
  }

  lemma {:induction false} InsertSorted<T>(e: T, s: seq<T>, key: T -> int, v: int)
    requires Sorted(s, key) && AtLeast(s, key, v) && v <= key(e)
    ensures Sorted(Insert(e, s, key), key) && AtLeast(Insert(e, s, key), key, v)
  {
    if s == [] || key(e) <= key(s[0]) {
      PrependSorted(e, s, key);
    } else {
      InsertSorted(e, s[1..], key, key(s[0]));
      PrependSorted(s[0], Insert(e, s[1..], key), key);
    }
  }

  lemma {:induction false} InsertPermutes<T>(e: T, s: seq<T>, key: T -> int)
    ensures multiset(Insert(e, s, key)) == multiset{e} + multiset(s)
  {
    if !(s == [] || key(e) <= key(s[0])) {
      InsertPermutes(e, s[1..], key);
      assert s == [s[0]] + s[1..];
    }
  }

  function InsertAll<T>(s: seq<T>, key: T -> int): seq<T> {
    if s == [] then [] else Insert(s[0], InsertAll(s[1..], key), key)
  }

  lemma {:induction false} InsertAllMeets<T>(s: seq<T>, key: T -> int)
    ensures SortedPermutation(InsertAll(s, key), s, key)
  {
    if s != [] {
      var r := InsertAll(s[1..], key);
      InsertAllMeets(s[1..], key);
      InsertAnywhere(s[0], r, key);
      assert s == [s[0]] + s[1..];
    }
  }

  lemma InsertAnywhere<T>(e: T, s: seq<T>, key: T -> int)
    requires Sorted(s, key)
    ensures Sorted(Insert(e, s, key), key) && multiset(Insert(e, s, key)) == multiset{e} + multiset(s)
  {
    var low := if s == [] || key(e) <= key(s[0]) then key(e) else key(s[0]);
    InsertSorted(e, s, key, low);
    InsertPermutes(e, s, key);
  }

  lemma SameLength<T>(a: seq<T>, b: seq<T>)
    requires multiset(a) == multiset(b)
    ensures |a| == |b|
  {
    assert |a| == |multiset(a)| && |b| == |multiset(b)|;
  }

  /** qsort on the first `n` entries. Callers know no more than that the result is a sorted permutation. */
  method Qsort<T>(a: array<T>, n: nat, key: T -> int)
    requires n <= a.Length
    modifies a
    ensures SortedPermutation(a[..n], old(a[..n]), key)
    ensures a[n..] == old(a[n..])
  {
    var s := InsertAll(a[..n], key);
    InsertAllMeets(a[..n], key);
    SameLength(s, a[..n]);
    for i := 0 to n
      invariant a[..i] == s[..i]
      invariant a[n..] == old(a[n..])
    {
      a[i] := s[i];
    }
    assert s[..n] == s;
  }

  /** The last entries of two sorted permutations are the same. */
  lemma SameLast<T>(a: seq<T>, b: seq<T>, key: T -> int)
    requires a != [] && multiset(a) == multiset(b) && Sorted(a, key) && StrictlySorted(b, key)
    ensures |a| == |b| && a[|a| - 1] == b[|b| - 1]
  {
    SameLength(a, b);
    var n := |a| - 1;
    assert a[n] in multiset(b) && b[n] in multiset(a);
    var p :| 0 <= p < |b| && b[p] == a[n];
    var q :| 0 <= q < |a| && a[q] == b[n];
    assert q < n ==> key(a[q]) <= key(a[n]);
    assert p < n ==> key(b[p]) < key(b[n]);
  }

  lemma WithoutLast<T>(x: seq<T>, y: seq<T>, e: T)
    requires multiset(x + [e]) == multiset(y + [e])
    ensures multiset(x) == multiset(y)
  {
    assert multiset(x) == multiset(x + [e]) - multiset{e} && multiset(y) == multiset(y + [e]) - multiset{e};
  }

  /** Distinct keys leave one order. */
  lemma {:induction false} OneOrder<T>(a: seq<T>, b: seq<T>, key: T -> int)
    requires multiset(a) == multiset(b) && Sorted(a, key) && StrictlySorted(b, key)
    ensures a == b
    decreases |a|
  {
    SameLength(a, b);
    if a != [] {
      var n := |a| - 1;
      SameLast(a, b, key);
      var (x, y, e) := (a[..n], b[..n], a[n]);
      assert a == x + [e] && b == y + [e];
      WithoutLast(x, y, e);
      OneOrder(x, y, key);
    }
  }
}
