/**
 The two sorted tables of one ECU's registered users: applications by id, and
 contexts by application id and context id. Each application carries the number
 of its contexts, and many callers find its contexts at the sum of the preceding
 counts; that this stretch is exactly the application's contexts is the block theorem.
 */
module RegistryTables {
  import opened Bytes
  import opened Ids

  datatype Text = Null | Chars(chars: seq<byte>)

  datatype App = App(apid: IdNum, pid: int, handle: int, owns: bool, desc: Text, numContexts: int)

  datatype Ctx = Ctx(apid: IdNum, ctid: IdNum, level: int, trace: int, pos: int, handle: int, desc: Text,
                     storage: int, predefined: bool)

  // ---------------------------------------------------------------- increasing keys

  predicate Increasing(ks: seq<nat>) {
    forall i, j :: 0 <= i < j < |ks| ==> ks[i] < ks[j]
  }

  /** Where `k` belongs among the keys. */
  function Place(ks: seq<nat>, k: nat): (p: nat)
    requires Increasing(ks)
    ensures p <= |ks|
    ensures forall i :: 0 <= i < p ==> ks[i] < k
    ensures forall i :: p <= i < |ks| ==> k <= ks[i]
  {
    if ks == [] then 0
    else
      var n := |ks| - 1;
      if ks[n] < k then |ks| else Place(ks[..n], k)
  }

  lemma IncreasingInsert(ks: seq<nat>, k: nat, p: nat)
    requires Increasing(ks) && k !in ks && p <= |ks|
    requires (forall i :: 0 <= i < p ==> ks[i] < k) && (forall i :: p <= i < |ks| ==> k <= ks[i])
    ensures Increasing(ks[..p] + [k] + ks[p..])
  {
    var r := ks[..p] + [k] + ks[p..];
    forall i, j | 0 <= i < j < |r|
      ensures r[i] < r[j]
    {
      assert forall x :: 0 <= x < |r| ==> r[x] == if x < p then ks[x] else if x == p then k else ks[x - 1];
    }
  }

  lemma IncreasingRemove(ks: seq<nat>, p: nat)
    requires Increasing(ks) && p < |ks|
    ensures Increasing(ks[..p] + ks[p + 1..])
  {
  }

  // ---------------------------------------------------------------- keys of the tables

  function CtxNum(c: Ctx): nat {
    c.apid as int * 4294967296 + c.ctid as int
  }

  function AppKeys(apps: seq<App>): (ks: seq<nat>)
    ensures |ks| == |apps|
  {
    seq(|apps|, i requires 0 <= i < |apps| => apps[i].apid)
  }

  function CtxKeys(ctxs: seq<Ctx>): (ks: seq<nat>)
    ensures |ks| == |ctxs|
  {
    seq(|ctxs|, i requires 0 <= i < |ctxs| => CtxNum(ctxs[i]))
  }

  /** The order of dlt_daemon_cmp_apid_ctid, and keys are equal only for equal pairs of ids. */
  lemma CtxNumIsOrder(a: Ctx, b: Ctx)
    ensures CtxNum(a) < CtxNum(b) <==> a.apid < b.apid || (a.apid == b.apid && a.ctid < b.ctid)
    ensures CtxNum(a) == CtxNum(b) <==> a.apid == b.apid && a.ctid == b.ctid
  {
  }

  // ---------------------------------------------------------------- counting contexts

  /** The number of contexts whose application id is below `a`. */
  function Below(ctxs: seq<Ctx>, a: nat): (n: nat)
    ensures n <= |ctxs|
  {
    if ctxs == [] then 0 else (if ctxs[0].apid < a then 1 else 0) + Below(ctxs[1..], a)
  }

  /** The number of contexts of one application. */
  function CountOf(ctxs: seq<Ctx>, apid: IdNum): (n: nat) {
    if ctxs == [] then 0 else (if ctxs[0].apid == apid then 1 else 0) + CountOf(ctxs[1..], apid)
  }

  lemma {:induction false} CountAppend(x: seq<Ctx>, y: seq<Ctx>, apid: IdNum)
    ensures CountOf(x + y, apid) == CountOf(x, apid) + CountOf(y, apid)
  {
    if x == [] {
      assert x + y == y;
    } else {
      CountAppend(x[1..], y, apid);
      assert (x + y)[1..] == x[1..] + y;
    }
  }

  lemma {:induction false} CountIsStep(ctxs: seq<Ctx>, apid: IdNum)
    ensures CountOf(ctxs, apid) == Below(ctxs, apid as int + 1) - Below(ctxs, apid)
  {
    if ctxs != [] {
      CountIsStep(ctxs[1..], apid);
    }
  }

  /** Application ids do not decrease along the contexts. */
  predicate Grouped(ctxs: seq<Ctx>) {
    forall i, j :: 0 <= i < j < |ctxs| ==> ctxs[i].apid <= ctxs[j].apid
  }

  lemma SortedIsGrouped(ctxs: seq<Ctx>)
    requires Increasing(CtxKeys(ctxs))
    ensures Grouped(ctxs)
  {
    forall i, j | 0 <= i < j < |ctxs|
      ensures ctxs[i].apid <= ctxs[j].apid
    {
      assert CtxKeys(ctxs)[i] < CtxKeys(ctxs)[j];
      CtxNumIsOrder(ctxs[i], ctxs[j]);
    }
  }

  /** In a grouped table the contexts below `a` are a prefix. */
  lemma {:induction false} BelowIsPrefix(ctxs: seq<Ctx>, a: nat, k: nat)
    requires Grouped(ctxs) && k < |ctxs|
    ensures ctxs[k].apid < a <==> k < Below(ctxs, a)
  {
    if k > 0 {
      BelowIsPrefix(ctxs[1..], a, k - 1);
      assert ctxs[1..][k - 1] == ctxs[k];
      assert ctxs[0].apid <= ctxs[k].apid;
      if ctxs[0].apid >= a {
        NoneBelow(ctxs[1..], a);
      }
    } else if ctxs[0].apid >= a {
      NoneBelow(ctxs, a);
    }
  }

  lemma {:induction false} NoneBelow(ctxs: seq<Ctx>, a: nat)
    requires forall i :: 0 <= i < |ctxs| ==> ctxs[i].apid >= a
    ensures Below(ctxs, a) == 0
  {
    if ctxs != [] {
      NoneBelow(ctxs[1..], a);
    }
  }

  // ---------------------------------------------------------------- the block theorem

  ghost predicate Ordered(apps: seq<App>, ctxs: seq<Ctx>) {
    Increasing(AppKeys(apps)) && Increasing(CtxKeys(ctxs))
  }

  ghost predicate Known(apps: seq<App>, apid: IdNum) {
    exists i :: 0 <= i < |apps| && apps[i].apid == apid
  }

  ghost predicate AllKnown(apps: seq<App>, ctxs: seq<Ctx>) {
    forall k :: 0 <= k < |ctxs| ==> Known(apps, ctxs[k].apid)
  }

  ghost predicate Exact(apps: seq<App>, ctxs: seq<Ctx>) {
    forall i :: 0 <= i < |apps| ==> apps[i].apid != 0 && apps[i].numContexts == CountOf(ctxs, apps[i].apid)
  }

  /** Both tables are strictly sorted, every context has its application, and every count is exact. */
  ghost predicate Consistent(apps: seq<App>, ctxs: seq<Ctx>) {
    Ordered(apps, ctxs) && AllKnown(apps, ctxs) && Exact(apps, ctxs)
  }

  /** offset_base: the sum of the counts of the first `i` applications. */
  function Offset(apps: seq<App>, i: nat): int
    requires i <= |apps|
  {
    if i == 0 then 0 else Offset(apps, i - 1) + apps[i - 1].numContexts
  }

  /** No context lies between two neighbouring applications. */
  lemma {:induction false} BetweenNeighbours(ctxs: seq<Ctx>, lo: nat, hi: nat)
    requires lo <= hi && forall k :: 0 <= k < |ctxs| ==> ctxs[k].apid < lo || ctxs[k].apid >= hi
    ensures Below(ctxs, lo) == Below(ctxs, hi)
  {
    if ctxs != [] {
      BetweenNeighbours(ctxs[1..], lo, hi);
    }
  }

  lemma {:induction false} OffsetIsBelow(apps: seq<App>, ctxs: seq<Ctx>, i: nat)
    requires Consistent(apps, ctxs) && i < |apps|
    ensures Offset(apps, i) == Below(ctxs, apps[i].apid)
  {
    var ks := AppKeys(apps);
    if i == 0 {
      forall k | 0 <= k < |ctxs|
        ensures ctxs[k].apid >= apps[0].apid
      {
        var j :| 0 <= j < |apps| && apps[j].apid == ctxs[k].apid;
        assert j > 0 ==> ks[0] < ks[j];
      }
      NoneBelow(ctxs, apps[0].apid);
    } else {
      OffsetIsBelow(apps, ctxs, i - 1);
      CountIsStep(ctxs, apps[i - 1].apid);
      assert ks[i - 1] < ks[i];
      forall k | 0 <= k < |ctxs|
        ensures ctxs[k].apid < apps[i - 1].apid as int + 1 || ctxs[k].apid >= apps[i].apid
      {
        var j :| 0 <= j < |apps| && apps[j].apid == ctxs[k].apid;
        assert j > i ==> ks[i] < ks[j];
        assert j < i - 1 ==> ks[j] < ks[i - 1];
      }
      BetweenNeighbours(ctxs, apps[i - 1].apid as int + 1, apps[i].apid);
    }
  }

  /** The contexts of application `i` are exactly those in the stretch of its length at the sum of the preceding counts. */
  lemma BlockTheorem(apps: seq<App>, ctxs: seq<Ctx>, i: nat)
    requires Consistent(apps, ctxs) && i < |apps|
    ensures 0 <= Offset(apps, i) <= Offset(apps, i) + apps[i].numContexts <= |ctxs|
    ensures forall k :: 0 <= k < |ctxs| ==>
              (ctxs[k].apid == apps[i].apid <==> Offset(apps, i) <= k < Offset(apps, i) + apps[i].numContexts)
  {
    var apid := apps[i].apid;
    OffsetIsBelow(apps, ctxs, i);
    CountIsStep(ctxs, apid);
    SortedIsGrouped(ctxs);
    forall k | 0 <= k < |ctxs|
      ensures ctxs[k].apid == apid <==> Offset(apps, i) <= k < Offset(apps, i) + apps[i].numContexts
    {
      BelowIsPrefix(ctxs, apid, k);
      BelowIsPrefix(ctxs, apid as int + 1, k);
    }
  }
}
