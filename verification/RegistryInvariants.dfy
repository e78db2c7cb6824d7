/**
 Every registry operation keeps the tables consistent, changes exactly the entry
 it is meant for, and behaves as an update or removal of a finite map.
 */
module RegistryInvariants {
  import opened Ids
  import opened RegistryTables
  import opened RegistrySpec

  // ---------------------------------------------------------------- the tables as maps

  ghost function AppIds(apps: seq<App>): set<IdNum> {
    set i | 0 <= i < |apps| :: apps[i].apid
  }

  ghost function AppMap(apps: seq<App>): map<IdNum, App> {
    map id | id in AppIds(apps) :: apps[ScanApps(apps, id, 0)]
  }

  ghost function CtxIds(ctxs: seq<Ctx>): set<(IdNum, IdNum)> {
    set k | 0 <= k < |ctxs| :: (ctxs[k].apid, ctxs[k].ctid)
  }

  ghost function CtxMap(ctxs: seq<Ctx>): map<(IdNum, IdNum), Ctx> {
    map id | id in CtxIds(ctxs) :: ctxs[ScanCtxs(ctxs, id.0, id.1, 0)]
  }

  lemma AppAt(apps: seq<App>, i: nat)
    requires Increasing(AppKeys(apps)) && i < |apps|
    ensures ScanApps(apps, apps[i].apid, 0) == i
    ensures apps[i].apid in AppMap(apps) && AppMap(apps)[apps[i].apid] == apps[i]
  {
    var r := ScanApps(apps, apps[i].apid, 0);
    assert AppKeys(apps)[r] == AppKeys(apps)[i];
  }

  lemma CtxAt(ctxs: seq<Ctx>, k: nat)
    requires Increasing(CtxKeys(ctxs)) && k < |ctxs|
    ensures ScanCtxs(ctxs, ctxs[k].apid, ctxs[k].ctid, 0) == k
    ensures (ctxs[k].apid, ctxs[k].ctid) in CtxMap(ctxs) && CtxMap(ctxs)[(ctxs[k].apid, ctxs[k].ctid)] == ctxs[k]
  {
    var r := ScanCtxs(ctxs, ctxs[k].apid, ctxs[k].ctid, 0);
    assert CtxKeys(ctxs)[r] == CtxKeys(ctxs)[k];
  }

  lemma AppRemovedKeys(apps: seq<App>, i: nat)
    requires Increasing(AppKeys(apps)) && i < |apps|
    ensures Increasing(AppKeys(apps[..i] + apps[i + 1..]))
  {
    var ks := AppKeys(apps);
    assert AppKeys(apps[..i] + apps[i + 1..]) == ks[..i] + ks[i + 1..];
    IncreasingRemove(ks, i);
  }

  /** Closing the gap over an entry is a map removal. */
  lemma AppRemove(apps: seq<App>, i: nat)
    requires Increasing(AppKeys(apps)) && i < |apps|
    ensures var r := apps[..i] + apps[i + 1..];
            Increasing(AppKeys(r)) && AppMap(r) == AppMap(apps) - {apps[i].apid}
  {
    var r := apps[..i] + apps[i + 1..];
    AppRemovedKeys(apps, i);
    forall j | 0 <= j < |r|
      ensures r[j].apid in AppMap(apps) && r[j].apid != apps[i].apid && AppMap(r)[r[j].apid] == AppMap(apps)[r[j].apid]
    {
      var k := if j < i then j else j + 1;
      assert r[j] == apps[k] && AppKeys(apps)[k] != AppKeys(apps)[i];
      AppAt(r, j);
      AppAt(apps, k);
    }
    forall k | 0 <= k < |apps| && k != i
      ensures apps[k].apid in AppIds(r)
    {
      assert r[if k < i then k else k - 1] == apps[k];
    }
  }

  lemma CtxRemove(ctxs: seq<Ctx>, i: nat)
    requires Increasing(CtxKeys(ctxs)) && i < |ctxs|
    ensures var r := ctxs[..i] + ctxs[i + 1..];
            Increasing(CtxKeys(r)) && CtxMap(r) == CtxMap(ctxs) - {(ctxs[i].apid, ctxs[i].ctid)}
  {
    var r := ctxs[..i] + ctxs[i + 1..];
    var ks := CtxKeys(ctxs);
    assert CtxKeys(r) == ks[..i] + ks[i + 1..];
    IncreasingRemove(ks, i);
    forall j | 0 <= j < |r|
      ensures var id := (r[j].apid, r[j].ctid);
              id in CtxMap(ctxs) && id != (ctxs[i].apid, ctxs[i].ctid) && CtxMap(r)[id] == CtxMap(ctxs)[id]
    {
      var k := if j < i then j else j + 1;
      assert r[j] == ctxs[k] && ks[k] != ks[i];
      CtxNumIsOrder(ctxs[k], ctxs[i]);
      CtxAt(r, j);
      CtxAt(ctxs, k);
    }
    forall k | 0 <= k < |ctxs| && k != i
      ensures (ctxs[k].apid, ctxs[k].ctid) in CtxIds(r)
    {
      assert r[if k < i then k else k - 1] == ctxs[k];
    }
  }

  /** Putting an entry in its place is a map update. */
  lemma AppInsertKeys(apps: seq<App>, e: App, p: nat)
    requires Increasing(AppKeys(apps)) && !Known(apps, e.apid) && p == Place(AppKeys(apps), e.apid)
    ensures Increasing(AppKeys(apps[..p] + [e] + apps[p..]))
  {
    var ks := AppKeys(apps);
    assert AppKeys(apps[..p] + [e] + apps[p..]) == ks[..p] + [e.apid] + ks[p..];
    assert e.apid !in ks;
    IncreasingInsert(ks, e.apid, p);
  }

  lemma AppMapPut(apps: seq<App>, r: seq<App>, p: nat)
    requires Increasing(AppKeys(r)) && p < |r| && r[..p] + r[p + 1..] == apps
    ensures AppMap(r) == AppMap(apps)[r[p].apid := r[p]]
  {
    AppAt(r, p);
    AppRemove(r, p);
    assert AppMap(r) == (AppMap(r) - {r[p].apid})[r[p].apid := r[p]];
  }

  lemma AppInsert(apps: seq<App>, e: App, p: nat)
    requires Increasing(AppKeys(apps)) && !Known(apps, e.apid) && p == Place(AppKeys(apps), e.apid)
    ensures var r := apps[..p] + [e] + apps[p..];
            Increasing(AppKeys(r)) && AppMap(r) == AppMap(apps)[e.apid := e]
  {
    AppInsertKeys(apps, e, p);
    InsertedBack(apps, e, p);
    AppMapPut(apps, apps[..p] + [e] + apps[p..], p);
  }

  lemma CtxInsertKeys(ctxs: seq<Ctx>, c: Ctx, p: nat)
    requires Increasing(CtxKeys(ctxs)) && (c.apid, c.ctid) !in CtxIds(ctxs) && p == Place(CtxKeys(ctxs), CtxNum(c))
    ensures Increasing(CtxKeys(ctxs[..p] + [c] + ctxs[p..]))
  {
    var ks := CtxKeys(ctxs);
    assert CtxKeys(ctxs[..p] + [c] + ctxs[p..]) == ks[..p] + [CtxNum(c)] + ks[p..];
    NewKey(ctxs, c);
    IncreasingInsert(ks, CtxNum(c), p);
  }

  lemma InsertedBack<T>(s: seq<T>, e: T, p: nat)
    requires p <= |s|
    ensures var r := s[..p] + [e] + s[p..]; |r| == |s| + 1 && r[p] == e && r[..p] + r[p + 1..] == s
  {
  }

  /** What taking out entry `p` leaves, put in again. */
  lemma CtxMapPut(ctxs: seq<Ctx>, r: seq<Ctx>, p: nat)
    requires Increasing(CtxKeys(r)) && p < |r| && r[..p] + r[p + 1..] == ctxs
    ensures CtxMap(r) == CtxMap(ctxs)[(r[p].apid, r[p].ctid) := r[p]]
  {
    var id := (r[p].apid, r[p].ctid);
    CtxAt(r, p);
    CtxRemove(r, p);
    assert CtxMap(r) == (CtxMap(r) - {id})[id := r[p]];
  }

  lemma CtxInsert(ctxs: seq<Ctx>, c: Ctx, p: nat)
    requires Increasing(CtxKeys(ctxs)) && (c.apid, c.ctid) !in CtxIds(ctxs) && p == Place(CtxKeys(ctxs), CtxNum(c))
    ensures var r := ctxs[..p] + [c] + ctxs[p..];
            Increasing(CtxKeys(r)) && CtxMap(r) == CtxMap(ctxs)[(c.apid, c.ctid) := c]
  {
    CtxInsertKeys(ctxs, c, p);
    InsertedBack(ctxs, c, p);
    CtxMapPut(ctxs, ctxs[..p] + [c] + ctxs[p..], p);
  }

  lemma NewKey(ctxs: seq<Ctx>, c: Ctx)
    requires (c.apid, c.ctid) !in CtxIds(ctxs)
    ensures CtxNum(c) !in CtxKeys(ctxs)
  {
    forall k | 0 <= k < |ctxs|
      ensures CtxKeys(ctxs)[k] != CtxNum(c)
    {
      CtxNumIsOrder(ctxs[k], c);
    }
  }

  // ---------------------------------------------------------------- consistency

  lemma {:induction false} CountSame(a: seq<Ctx>, b: seq<Ctx>, apid: IdNum)
    requires SameCtxIds(a, b)
    ensures CountOf(a, apid) == CountOf(b, apid)
  {
    if a != [] {
      assert forall k :: 0 <= k < |a| - 1 ==> a[1..][k] == a[k + 1] && b[1..][k] == b[k + 1];
      CountSame(a[1..], b[1..], apid);
    }
  }

  lemma {:induction false} CountZero(ctxs: seq<Ctx>, apid: IdNum)
    ensures CountOf(ctxs, apid) == 0 <==> forall k :: 0 <= k < |ctxs| ==> ctxs[k].apid != apid
  {
    if ctxs != [] {
      CountZero(ctxs[1..], apid);
      assert forall k :: 0 <= k < |ctxs| - 1 ==> ctxs[1..][k] == ctxs[k + 1];
      assert forall k :: 1 <= k < |ctxs| ==> ctxs[k] == ctxs[1..][k - 1];
    }
  }

  /** Only ids and counts matter. */
  lemma SameIdsConsistent(u: Users, r: Users)
    requires Consistent(u.apps, u.ctxs) && SameAppIds(u.apps, r.apps) && SameCtxIds(u.ctxs, r.ctxs)
    ensures Consistent(r.apps, r.ctxs)
  {
    assert AppKeys(r.apps) == AppKeys(u.apps) && CtxKeys(r.ctxs) == CtxKeys(u.ctxs);
    forall k | 0 <= k < |r.ctxs|
      ensures Known(r.apps, r.ctxs[k].apid)
    {
      var i :| 0 <= i < |u.apps| && u.apps[i].apid == u.ctxs[k].apid;
      assert r.apps[i].apid == r.ctxs[k].apid;
    }
    forall i | 0 <= i < |r.apps|
      ensures r.apps[i].numContexts == CountOf(r.ctxs, r.apps[i].apid)
    {
      CountSame(u.ctxs, r.ctxs, r.apps[i].apid);
    }
  }

  lemma InvalidateConsistent(u: Users, fd: int)
    requires Consistent(u.apps, u.ctxs)
    ensures var r := Invalidate(u, fd); Consistent(r.apps, r.ctxs)
  {
    SameIdsConsistent(u, Invalidate(u, fd));
  }

  lemma ResetConsistent(u: Users, i: nat)
    requires Consistent(u.apps, u.ctxs) && i < |u.apps|
    ensures var r := ResetHandle(u, i); Consistent(r.apps, r.ctxs)
  {
    SameIdsConsistent(u, ResetHandle(u, i));
  }

  /** `r` is the table with `e` put in at `p`. */
  ghost predicate PutIn(apps: seq<App>, e: App, p: nat, r: seq<App>) {
    && p <= |apps| && |r| == |apps| + 1 && r[p] == e
    && (forall j :: 0 <= j < p ==> r[j] == apps[j])
    && (forall j :: p <= j < |apps| ==> apps[j] == r[j + 1])
  }

  lemma KnownPutIn(apps: seq<App>, e: App, p: nat, r: seq<App>, apid: IdNum)
    requires PutIn(apps, e, p, r) && Known(apps, apid)
    ensures Known(r, apid)
  {
    var i :| 0 <= i < |apps| && apps[i].apid == apid;
    assert r[if i < p then i else i + 1].apid == apid;
  }

  lemma ExactPutIn(apps: seq<App>, ctxs: seq<Ctx>, e: App, p: nat, r: seq<App>)
    requires PutIn(apps, e, p, r) && AllKnown(apps, ctxs) && Exact(apps, ctxs)
    requires !Known(apps, e.apid) && e.apid != 0 && e.numContexts == 0
    ensures Exact(r, ctxs)
  {
    CountZero(ctxs, e.apid);
    forall j | 0 <= j < |r|
      ensures r[j].apid != 0 && r[j].numContexts == CountOf(ctxs, r[j].apid)
    {
      assert r[j] == if j < p then apps[j] else if j == p then e else apps[j - 1];
    }
  }

  /** A new application has no contexts yet, wherever it is put. */
  lemma InsertedConsistent(apps: seq<App>, ctxs: seq<Ctx>, e: App, p: nat)
    requires Consistent(apps, ctxs) && !Known(apps, e.apid) && e.apid != 0 && e.numContexts == 0
    requires p == Place(AppKeys(apps), e.apid)
    ensures Consistent(apps[..p] + [e] + apps[p..], ctxs)
  {
    var r := apps[..p] + [e] + apps[p..];
    AppInsert(apps, e, p);
    assert PutIn(apps, e, p, r);
    ExactPutIn(apps, ctxs, e, p, r);
    forall k | 0 <= k < |ctxs|
      ensures Known(r, ctxs[k].apid)
    {
      KnownPutIn(apps, e, p, r, ctxs[k].apid);
    }
  }

  lemma AppNewConsistent(u: Users, e: App, r: Users)
    requires Consistent(u.apps, u.ctxs) && !Known(u.apps, e.apid) && e.apid != 0 && e.numContexts == 0
    requires SameAppIds(u.apps + [e], r.apps) && SameCtxIds(u.ctxs, r.ctxs)
    ensures Increasing(AppKeys(r.apps[..|r.apps| - 1])) && Consistent(SettleApp(r.apps), r.ctxs)
  {
    var n := |u.apps|;
    var sorted, last := r.apps[..n], r.apps[n];
    assert (u.apps + [e])[n] == e;
    assert forall i :: 0 <= i < n ==> (u.apps + [e])[i] == u.apps[i];
    SameIdsConsistent(u, Users(sorted, r.ctxs));
    assert !Known(sorted, last.apid);
    InsertedConsistent(sorted, r.ctxs, last, Place(AppKeys(sorted), last.apid));
  }

  lemma AppAddConsistent(u: Users, apid: IdNum, pid: int, desc: Text, handle: int, owns: bool)
    requires Consistent(u.apps, u.ctxs)
    ensures var r := AppAdd(u, apid, pid, desc, handle, owns); Consistent(r.apps, r.ctxs)
  {
    var i := FindApp(u.apps, apid);
    if apid != 0 && i >= 0 {
      UpdateKeepsIds(u, i, pid, desc, handle, owns);
      SameIdsConsistent(u, AppUpdate(u, i, pid, desc, handle, owns));
    } else if apid != 0 {
      var e := App(apid, 0, FD_INIT, false, Null, 0);
      var v := u.(apps := u.apps + [e]);
      UpdateKeepsIds(v, |u.apps|, pid, desc, handle, owns);
      AppNewConsistent(u, e, AppUpdate(v, |u.apps|, pid, desc, handle, owns));
    }
  }

  lemma CtxAddConsistent(u: Users, apid: IdNum, ctid: IdNum, level: int, trace: int, pos: int, handle: int, desc: Text,
                         lv: Levels, storage: int)
    requires Consistent(u.apps, u.ctxs)
    ensures var r := CtxAdd(u, apid, ctid, level, trace, pos, handle, desc, lv, storage); Consistent(r.apps, r.ctxs)
  {
    if Acceptable(u, apid, ctid, level, trace) {
      var r := CtxAdd(u, apid, ctid, level, trace, pos, handle, desc, lv, storage);
      if FindCtx(u.ctxs, apid, ctid) >= 0 {
        SameIdsConsistent(u, r);
      } else {
        var c := CtxEntry(Ctx(apid, ctid, 0, 0, 0, 0, Null, storage, false), true, level, trace, pos, handle, desc, lv);
        NewCtxConsistent(u, c, FindApp(u.apps, apid));
      }
    }
  }

  lemma NewCtxKnown(apps: seq<App>, apps': seq<App>, ctxs: seq<Ctx>, c: Ctx, p: nat)
    requires |apps'| == |apps| && forall i :: 0 <= i < |apps| ==> apps'[i].apid == apps[i].apid
    requires AllKnown(apps, ctxs) && Known(apps, c.apid) && p <= |ctxs|
    ensures AllKnown(apps', ctxs[..p] + [c] + ctxs[p..])
  {
    var r := ctxs[..p] + [c] + ctxs[p..];
    forall k | 0 <= k < |r|
      ensures Known(apps', r[k].apid)
    {
      assert r[k] == if k < p then ctxs[k] else if k == p then c else ctxs[k - 1];
      assert Known(apps, r[k].apid);
      var i :| 0 <= i < |apps| && apps[i].apid == r[k].apid;
      assert apps'[i].apid == r[k].apid;
    }
  }

  lemma NewCtxExact(u: Users, c: Ctx, i: nat, p: nat)
    requires Increasing(AppKeys(u.apps)) && Exact(u.apps, u.ctxs) && i < |u.apps| && u.apps[i].apid == c.apid && p <= |u.ctxs|
    ensures Exact(u.apps[i := u.apps[i].(numContexts := u.apps[i].numContexts + 1)], u.ctxs[..p] + [c] + u.ctxs[p..])
  {
    var apps := u.apps[i := u.apps[i].(numContexts := u.apps[i].numContexts + 1)];
    forall j | 0 <= j < |apps|
      ensures apps[j].apid != 0 && apps[j].numContexts == CountOf(u.ctxs[..p] + [c] + u.ctxs[p..], apps[j].apid)
    {
      CountAround(u.ctxs, p, [c], apps[j].apid);
      OneOnly(u.apps, i, j);
    }
  }

  lemma NewCtxConsistent(u: Users, c: Ctx, i: nat)
    requires Consistent(u.apps, u.ctxs) && i < |u.apps| && u.apps[i].apid == c.apid && (c.apid, c.ctid) !in CtxIds(u.ctxs)
    ensures var p := Place(CtxKeys(u.ctxs), CtxNum(c));
            Consistent(u.apps[i := u.apps[i].(numContexts := u.apps[i].numContexts + 1)], u.ctxs[..p] + [c] + u.ctxs[p..])
  {
    var p := Place(CtxKeys(u.ctxs), CtxNum(c));
    var apps := u.apps[i := u.apps[i].(numContexts := u.apps[i].numContexts + 1)];
    CtxInsert(u.ctxs, c, p);
    assert AppKeys(apps) == AppKeys(u.apps);
    NewCtxKnown(u.apps, apps, u.ctxs, c, p);
    NewCtxExact(u, c, i, p);
  }

  lemma OneOnly(apps: seq<App>, i: nat, j: nat)
    requires Increasing(AppKeys(apps)) && i < |apps| && j < |apps|
    ensures apps[i].apid == apps[j].apid <==> i == j
  {
    assert AppKeys(apps)[i] == apps[i].apid && AppKeys(apps)[j] == apps[j].apid;
  }

  lemma SameIdsKnown(a: seq<App>, b: seq<App>)
    requires |a| == |b| && forall i :: 0 <= i < |a| ==> a[i].apid == b[i].apid
    ensures forall apid :: Known(a, apid) ==> Known(b, apid)
  {
    forall apid | Known(a, apid)
      ensures Known(b, apid)
    {
      var i :| 0 <= i < |a| && a[i].apid == apid;
      assert b[i].apid == apid;
    }
  }

  /** Counting with a stretch put in at `p`. */
  lemma CountAround(ctxs: seq<Ctx>, p: nat, mid: seq<Ctx>, apid: IdNum)
    requires p <= |ctxs|
    ensures CountOf(ctxs[..p] + mid + ctxs[p..], apid) == CountOf(ctxs, apid) + CountOf(mid, apid)
  {
    CountAppend(ctxs[..p] + mid, ctxs[p..], apid);
    CountAppend(ctxs[..p], mid, apid);
    CountAppend(ctxs[..p], ctxs[p..], apid);
    assert ctxs[..p] + ctxs[p..] == ctxs;
  }

  lemma CtxDelKnown(apps: seq<App>, apps': seq<App>, ctxs: seq<Ctx>, k: nat)
    requires |apps'| == |apps| && (forall i :: 0 <= i < |apps| ==> apps'[i].apid == apps[i].apid)
    requires AllKnown(apps, ctxs) && k < |ctxs|
    ensures AllKnown(apps', ctxs[..k] + ctxs[k + 1..])
  {
    var r := ctxs[..k] + ctxs[k + 1..];
    forall j | 0 <= j < |r|
      ensures Known(apps', r[j].apid)
    {
      assert r[j] == ctxs[if j < k then j else j + 1];
      assert Known(apps, r[j].apid);
      var i :| 0 <= i < |apps| && apps[i].apid == r[j].apid;
      assert apps'[i].apid == r[j].apid;
    }
  }

  lemma TakenOut<T>(s: seq<T>, k: nat)
    requires k < |s|
    ensures var r := s[..k] + s[k + 1..]; |r| == |s| - 1 && r[..k] + [s[k]] + r[k..] == s
  {
  }

  lemma CtxDelExact(u: Users, k: nat, i: nat)
    requires Increasing(AppKeys(u.apps)) && Exact(u.apps, u.ctxs) && i < |u.apps| && k < |u.ctxs| && u.apps[i].apid == u.ctxs[k].apid
    ensures Exact(u.apps[i := u.apps[i].(numContexts := u.apps[i].numContexts - 1)], u.ctxs[..k] + u.ctxs[k + 1..])
  {
    var apps := u.apps[i := u.apps[i].(numContexts := u.apps[i].numContexts - 1)];
    TakenOut(u.ctxs, k);
    forall j | 0 <= j < |apps|
      ensures apps[j].apid != 0 && apps[j].numContexts == CountOf(u.ctxs[..k] + u.ctxs[k + 1..], apps[j].apid)
    {
      CountAround(u.ctxs[..k] + u.ctxs[k + 1..], k, [u.ctxs[k]], apps[j].apid);
      OneOnly(u.apps, i, j);
    }
  }

  lemma CtxDelConsistent(u: Users, k: nat)
    requires Consistent(u.apps, u.ctxs) && k < |u.ctxs|
    ensures var r := CtxDel(u, k); Consistent(r.apps, r.ctxs)
  {
    assert Known(u.apps, u.ctxs[k].apid);
    var i := FindApp(u.apps, u.ctxs[k].apid);
    var apps := u.apps[i := u.apps[i].(numContexts := u.apps[i].numContexts - 1)];
    CtxRemove(u.ctxs, k);
    assert AppKeys(apps) == AppKeys(u.apps);
    CtxDelKnown(u.apps, apps, u.ctxs, k);
    CtxDelExact(u, k, i);
  }

  /** Deleting an application is safe once its contexts are gone. */
  lemma AppDelConsistent(u: Users, i: nat)
    requires Consistent(u.apps, u.ctxs) && i < |u.apps| && u.apps[i].numContexts == 0
    ensures var r := AppDel(u, i); Consistent(r.apps, r.ctxs)
  {
    var v, r := ResetHandle(u, i), AppDel(u, i);
    ResetConsistent(u, i);
    AppRemove(v.apps, i);
    CountZero(v.ctxs, v.apps[i].apid);
    assert forall j :: 0 <= j < |r.apps| ==> r.apps[j] == v.apps[if j < i then j else j + 1];
    forall k | 0 <= k < |r.ctxs|
      ensures Known(r.apps, r.ctxs[k].apid)
    {
      var j :| 0 <= j < |v.apps| && v.apps[j].apid == v.ctxs[k].apid;
      assert j != i;
      assert r.apps[if j < i then j else j - 1].apid == r.ctxs[k].apid;
    }
  }

  lemma ClearsConsistent(u: Users)
    requires Consistent(u.apps, u.ctxs)
    ensures var r := CtxsClear(u);
            && Consistent(r.apps, r.ctxs) && r.ctxs == [] && |r.apps| == |u.apps|
            && forall i :: 0 <= i < |u.apps| ==> r.apps[i] == u.apps[i].(numContexts := 0)
    ensures var r := AppsClear(CtxsClear(u)); Consistent(r.apps, r.ctxs) && r == Users([], [])
  {
    assert AppKeys(CtxsClear(u).apps) == AppKeys(u.apps);
  }
}
