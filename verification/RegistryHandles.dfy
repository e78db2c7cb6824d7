/**
 Who owns a user handle, and what unregistering an application leaves behind.
 */
module RegistryHandles {
  import opened Ids
  import opened RegistryTables
  import opened RegistrySpec
  import opened RegistryInvariants

  predicate Live(handle: int) {
    handle >= FD_MINIMUM
  }

  ghost predicate HasHandle(apps: seq<App>, apid: IdNum, h: int) {
    exists i :: 0 <= i < |apps| && apps[i].apid == apid && apps[i].handle == h
  }

  /** No two applications share a live handle. */
  ghost predicate Unshared(apps: seq<App>) {
    forall i, j :: 0 <= i < j < |apps| && Live(apps[i].handle) ==> apps[i].handle != apps[j].handle
  }

  /** A context with a live handle holds the handle of its own application. */
  ghost predicate OwnAppsHandle(apps: seq<App>, ctxs: seq<Ctx>) {
    forall k :: 0 <= k < |ctxs| && Live(ctxs[k].handle) ==> HasHandle(apps, ctxs[k].apid, ctxs[k].handle)
  }

  ghost predicate HandlesOwned(u: Users) {
    Unshared(u.apps) && OwnAppsHandle(u.apps, u.ctxs)
  }

  // ---------------------------------------------------------------- each operation keeps it

  /** Applications keep their ids and live handles, except for handle `h`, which no context has any more. */
  lemma DroppedOwned(u: Users, r: Users, h: int)
    requires HandlesOwned(u) && |r.apps| == |u.apps| && |r.ctxs| == |u.ctxs|
    requires forall i :: 0 <= i < |u.apps| ==> r.apps[i].apid == u.apps[i].apid
    requires forall i :: 0 <= i < |u.apps| ==>
               r.apps[i].handle == u.apps[i].handle || (u.apps[i].handle == h && r.apps[i].handle == FD_INIT)
    requires forall k :: 0 <= k < |u.ctxs| ==> r.ctxs[k].apid == u.ctxs[k].apid
    requires forall k :: 0 <= k < |u.ctxs| ==> r.ctxs[k].handle == if u.ctxs[k].handle == h then FD_INIT else u.ctxs[k].handle
    ensures HandlesOwned(r)
  {
    forall k | 0 <= k < |r.ctxs| && Live(r.ctxs[k].handle)
      ensures HasHandle(r.apps, r.ctxs[k].apid, r.ctxs[k].handle)
    {
      assert HasHandle(u.apps, u.ctxs[k].apid, u.ctxs[k].handle);
      var i :| 0 <= i < |u.apps| && u.apps[i].apid == u.ctxs[k].apid && u.apps[i].handle == u.ctxs[k].handle;
      assert r.apps[i].handle == r.ctxs[k].handle;
    }
  }

  lemma InvalidateOwned(u: Users, fd: int)
    requires HandlesOwned(u)
    ensures HandlesOwned(Invalidate(u, fd))
    ensures var r := Invalidate(u, fd);
            && (forall i :: 0 <= i < |r.apps| && Live(fd) ==> r.apps[i].handle != fd)
            && (forall k :: 0 <= k < |r.ctxs| && Live(fd) ==> r.ctxs[k].handle != fd)
            && |r.apps| == |u.apps| && (forall i :: 0 <= i < |u.apps| && u.apps[i].handle != fd ==> r.apps[i] == u.apps[i])
            && |r.ctxs| == |u.ctxs| && (forall k :: 0 <= k < |u.ctxs| && u.ctxs[k].handle != fd ==> r.ctxs[k] == u.ctxs[k])
  {
    DroppedOwned(u, Invalidate(u, fd), fd);
  }

  lemma ResetOwned(u: Users, i: nat)
    requires HandlesOwned(u) && i < |u.apps|
    ensures HandlesOwned(ResetHandle(u, i)) && ResetHandle(u, i).apps[i].handle == FD_INIT
  {
    if u.apps[i].handle != FD_INIT {
      DroppedOwned(u, ResetHandle(u, i), u.apps[i].handle);
    }
  }

  /** A handle nobody uses may be given to an application that has none. */
  lemma GivenOwned(u: Users, j: nat, e: App)
    requires HandlesOwned(u) && j < |u.apps| && u.apps[j].handle == FD_INIT && e.apid == u.apps[j].apid
    requires Live(e.handle) ==> forall i :: 0 <= i < |u.apps| ==> u.apps[i].handle != e.handle
    ensures HandlesOwned(u.(apps := u.apps[j := e]))
  {
    var r := u.apps[j := e];
    forall k | 0 <= k < |u.ctxs| && Live(u.ctxs[k].handle)
      ensures HasHandle(r, u.ctxs[k].apid, u.ctxs[k].handle)
    {
      var i :| 0 <= i < |u.apps| && u.apps[i].apid == u.ctxs[k].apid && u.apps[i].handle == u.ctxs[k].handle;
      assert r[i].handle == u.ctxs[k].handle;
    }
  }

  /** Changing anything but ids and handles changes nothing here. */
  lemma SameHandlesOwned(u: Users, apps: seq<App>)
    requires HandlesOwned(u) && |apps| == |u.apps|
    requires forall i :: 0 <= i < |apps| ==> apps[i].apid == u.apps[i].apid && apps[i].handle == u.apps[i].handle
    ensures HandlesOwned(u.(apps := apps))
  {
    forall k | 0 <= k < |u.ctxs| && Live(u.ctxs[k].handle)
      ensures HasHandle(apps, u.ctxs[k].apid, u.ctxs[k].handle)
    {
      var i :| 0 <= i < |u.apps| && u.apps[i].apid == u.ctxs[k].apid && u.apps[i].handle == u.ctxs[k].handle;
      assert apps[i].handle == u.ctxs[k].handle;
    }
  }

  lemma UpdateOwned(u: Users, j: nat, pid: int, desc: Text, handle: int, owns: bool)
    requires HandlesOwned(u) && j < |u.apps|
    ensures HandlesOwned(AppUpdate(u, j, pid, desc, handle, owns))
  {
    var u1 := u.(apps := u.apps[j := u.apps[j].(desc := desc)]);
    SameHandlesOwned(u, u1.apps);
    var v := ResetHandle(u1, j);
    ResetOwned(u1, j);
    var v1 := v.(apps := v.apps[j := v.apps[j].(pid := 0)]);
    SameHandlesOwned(v, v1.apps);
    var u2 := if u1.apps[j].pid == pid then u1 else v1;
    if u2.apps[j].handle == FD_INIT && pid != 0 {
      InvalidateOwned(u2, handle);
      var w := Invalidate(u2, handle);
      GivenOwned(w, j, w.apps[j].(handle := handle, owns := owns, pid := pid));
    }
  }

  /** The order of the applications does not matter. */
  lemma ReorderedOwned(u: Users, apps: seq<App>)
    requires HandlesOwned(u)
    requires forall i :: 0 <= i < |u.apps| ==> u.apps[i] in apps
    requires Unshared(apps)
    ensures HandlesOwned(u.(apps := apps))
  {
    forall k | 0 <= k < |u.ctxs| && Live(u.ctxs[k].handle)
      ensures HasHandle(apps, u.ctxs[k].apid, u.ctxs[k].handle)
    {
      var i :| 0 <= i < |u.apps| && u.apps[i].apid == u.ctxs[k].apid && u.apps[i].handle == u.ctxs[k].handle;
      var j :| 0 <= j < |apps| && apps[j] == u.apps[i];
    }
  }

  lemma SettleOwned(u: Users)
    requires HandlesOwned(u) && u.apps != [] && Increasing(AppKeys(u.apps[..|u.apps| - 1]))
    ensures HandlesOwned(u.(apps := SettleApp(u.apps)))
  {
    var n := |u.apps| - 1;
    var p := Place(AppKeys(u.apps[..n]), u.apps[n].apid);
    var r := SettleApp(u.apps);
    assert forall j :: 0 <= j < |r| ==> r[j] == u.apps[if j < p then j else if j == p then n else j - 1];
    forall i | 0 <= i < |u.apps|
      ensures u.apps[i] in r
    {
      assert r[if i < p then i else if i == n then p else i + 1] == u.apps[i];
    }
    ReorderedOwned(u, r);
  }

  lemma AppAddOwned(u: Users, apid: IdNum, pid: int, desc: Text, handle: int, owns: bool)
    requires Increasing(AppKeys(u.apps)) && HandlesOwned(u)
    ensures HandlesOwned(AppAdd(u, apid, pid, desc, handle, owns))
  {
    var i := FindApp(u.apps, apid);
    if apid != 0 && i >= 0 {
      UpdateOwned(u, i, pid, desc, handle, owns);
    } else if apid != 0 {
      var e := App(apid, 0, FD_INIT, false, Null, 0);
      var v := u.(apps := u.apps + [e]);
      ReorderedOwned(u, v.apps);
      UpdateOwned(v, |u.apps|, pid, desc, handle, owns);
      SameApps(u, e, pid, desc, handle, owns);
      SettleOwned(AppUpdate(v, |u.apps|, pid, desc, handle, owns));
    }
  }

  /** A context may get its application's handle, or one that is not live. */
  ghost predicate MayHold(apps: seq<App>, c: Ctx) {
    Live(c.handle) ==> HasHandle(apps, c.apid, c.handle)
  }

  lemma CtxSetOwned(u: Users, k: nat, c: Ctx)
    requires HandlesOwned(u) && k < |u.ctxs| && MayHold(u.apps, c)
    ensures HandlesOwned(u.(ctxs := u.ctxs[k := c]))
  {
  }

  lemma CtxPutOwned(u: Users, p: nat, c: Ctx)
    requires HandlesOwned(u) && p <= |u.ctxs| && MayHold(u.apps, c)
    ensures HandlesOwned(u.(ctxs := u.ctxs[..p] + [c] + u.ctxs[p..]))
  {
    var r := u.ctxs[..p] + [c] + u.ctxs[p..];
    assert forall j :: 0 <= j < |r| ==> r[j] == if j < p then u.ctxs[j] else if j == p then c else u.ctxs[j - 1];
  }

  lemma CtxAddOwned(u: Users, apid: IdNum, ctid: IdNum, level: int, trace: int, pos: int, handle: int, desc: Text,
                    lv: Levels, storage: int)
    requires Increasing(CtxKeys(u.ctxs)) && HandlesOwned(u)
    requires FindApp(u.apps, apid) >= 0 && Live(handle) ==> u.apps[FindApp(u.apps, apid)].handle == handle
    ensures HandlesOwned(CtxAdd(u, apid, ctid, level, trace, pos, handle, desc, lv, storage))
  {
    if Acceptable(u, apid, ctid, level, trace) {
      var i, k := FindApp(u.apps, apid), FindCtx(u.ctxs, apid, ctid);
      if k >= 0 {
        CtxSetOwned(u, k, CtxEntry(u.ctxs[k], false, level, trace, pos, handle, desc, lv));
      } else {
        var apps := u.apps[i := u.apps[i].(numContexts := u.apps[i].numContexts + 1)];
        SameHandlesOwned(u, apps);
        var c := CtxEntry(Ctx(apid, ctid, 0, 0, 0, 0, Null, storage, false), true, level, trace, pos, handle, desc, lv);
        assert apps[i].apid == c.apid && apps[i].handle == u.apps[i].handle;
        CtxPutOwned(u.(apps := apps), Place(CtxKeys(u.ctxs), CtxNum(c)), c);
      }
    }
  }

  lemma FewerContextsOwned(u: Users, ctxs: seq<Ctx>)
    requires HandlesOwned(u)
    requires forall k :: 0 <= k < |ctxs| ==> ctxs[k] in u.ctxs
    ensures HandlesOwned(u.(ctxs := ctxs))
  {
  }

  lemma CtxDelOwned(u: Users, k: nat)
    requires HandlesOwned(u) && k < |u.ctxs|
    ensures HandlesOwned(CtxDel(u, k))
  {
    var r := CtxDel(u, k);
    SameHandlesOwned(u, r.apps);
    FewerContextsOwned(u.(apps := r.apps), r.ctxs);
  }

  lemma AppDelOwned(u: Users, i: nat)
    requires HandlesOwned(u) && i < |u.apps|
    ensures HandlesOwned(AppDel(u, i))
  {
    var v, r := ResetHandle(u, i), AppDel(u, i);
    ResetOwned(u, i);
    assert forall j :: 0 <= j < |r.apps| ==> r.apps[j] == v.apps[if j < i then j else j + 1];
    forall k | 0 <= k < |v.ctxs| && Live(v.ctxs[k].handle)
      ensures HasHandle(r.apps, v.ctxs[k].apid, v.ctxs[k].handle)
    {
      var j :| 0 <= j < |v.apps| && v.apps[j].apid == v.ctxs[k].apid && v.apps[j].handle == v.ctxs[k].handle;
      assert r.apps[if j < i then j else j - 1] == v.apps[j];
    }
  }

  // ---------------------------------------------------------------- unregistering an application

  /** The contexts of all other applications, in order. */
  function Without(ctxs: seq<Ctx>, apid: IdNum): seq<Ctx> {
    if ctxs == [] then [] else (if ctxs[0].apid == apid then [] else [ctxs[0]]) + Without(ctxs[1..], apid)
  }

  lemma {:induction false} WithoutNone(x: seq<Ctx>, apid: IdNum)
    requires forall k :: 0 <= k < |x| ==> x[k].apid != apid
    ensures Without(x, apid) == x
  {
    if x != [] {
      WithoutNone(x[1..], apid);
      assert x == [x[0]] + x[1..];
    }
  }

  lemma {:induction false} WithoutBlock(ctxs: seq<Ctx>, apid: IdNum, off: nat, n: nat)
    requires off + n <= |ctxs|
    requires forall k :: 0 <= k < |ctxs| ==> (ctxs[k].apid == apid <==> off <= k < off + n)
    ensures Without(ctxs, apid) == ctxs[..off] + ctxs[off + n..]
    decreases |ctxs|
  {
    if off > 0 {
      var rest := ctxs[1..];
      WithoutBlock(rest, apid, off - 1, n);
      assert [ctxs[0]] + (rest[..off - 1] + rest[off - 1 + n..]) == ctxs[..off] + ctxs[off + n..];
    } else if n > 0 {
      var rest := ctxs[1..];
      WithoutBlock(rest, apid, 0, n - 1);
      assert rest[..0] + rest[n - 1..] == ctxs[..0] + ctxs[n..];
    } else {
      WithoutNone(ctxs, apid);
      assert ctxs[..0] + ctxs[0..] == ctxs;
    }
  }

  /** One context of application `i` fewer. */
  function OneFewer(u: Users, i: nat, k: nat): Users
    requires i < |u.apps| && k < |u.ctxs|
  {
    Users(u.apps[i := u.apps[i].(numContexts := u.apps[i].numContexts - 1)], u.ctxs[..k] + u.ctxs[k + 1..])
  }

  lemma CtxDelIsOneFewer(u: Users, i: nat, k: nat)
    requires Increasing(AppKeys(u.apps)) && i < |u.apps| && k < |u.ctxs| && u.apps[i].apid == u.ctxs[k].apid != 0
    ensures CtxDel(u, k) == OneFewer(u, i, k) && AppKeys(CtxDel(u, k).apps) == AppKeys(u.apps)
  {
    AppAt(u.apps, i);
  }

  lemma OneFewerShape(u: Users, i: nat, off: nat, n: nat)
    requires i < |u.apps| && 0 < n && off + n <= |u.ctxs|
    ensures var r := OneFewer(u, i, off + n - 1);
            && r.ctxs[..off] + r.ctxs[off + n - 1..] == u.ctxs[..off] + u.ctxs[off + n..]
            && (forall j :: off <= j < off + n - 1 ==> r.ctxs[j] == u.ctxs[j])
            && r.apps[i := r.apps[i].(numContexts := r.apps[i].numContexts - (n - 1))]
               == u.apps[i := u.apps[i].(numContexts := u.apps[i].numContexts - n)]
  {
    var r, k := OneFewer(u, i, off + n - 1), off + n - 1;
    assert r.ctxs[..off] == u.ctxs[..off] && r.ctxs[k..] == u.ctxs[off + n..];
  }

  /** Deleting a block from its end: the indices shift and the count falls, and yet only the block goes. */
  lemma {:induction false} DeleteDownExact(u: Users, i: nat, off: nat, n: nat)
    requires Increasing(AppKeys(u.apps)) && i < |u.apps| && u.apps[i].apid != 0 && off + n <= |u.ctxs|
    requires forall k :: off <= k < off + n ==> u.ctxs[k].apid == u.apps[i].apid
    ensures DeleteDown(u, off, n) ==
            Users(u.apps[i := u.apps[i].(numContexts := u.apps[i].numContexts - n)], u.ctxs[..off] + u.ctxs[off + n..])
    decreases n
  {
    if n > 0 {
      var r := OneFewer(u, i, off + n - 1);
      CtxDelIsOneFewer(u, i, off + n - 1);
      OneFewerShape(u, i, off, n);
      DeleteDownExact(r, i, off, n - 1);
    } else {
      assert u.ctxs == u.ctxs[..off] + u.ctxs[off..];
    }
  }

  /** The invariant of the tables. */
  ghost predicate Sound(u: Users) {
    Consistent(u.apps, u.ctxs) && HandlesOwned(u)
  }

  lemma CtxDelSound(u: Users, k: nat)
    requires Sound(u) && k < |u.ctxs|
    ensures Sound(CtxDel(u, k))
  {
    CtxDelConsistent(u, k);
    CtxDelOwned(u, k);
  }

  lemma {:induction false} DeleteDownSound(u: Users, off: nat, n: nat)
    requires Sound(u) && off + n <= |u.ctxs|
    ensures Sound(DeleteDown(u, off, n))
    decreases n
  {
    if n > 0 {
      CtxDelSound(u, off + n - 1);
      DeleteDownSound(CtxDel(u, off + n - 1), off, n - 1);
    }
  }

  /** The contexts that stay, and the handle they lose with the application's. */
  function Remaining(u: Users, apid: IdNum): seq<Ctx>
    requires FindApp(u.apps, apid) >= 0
  {
    var h, rest := u.apps[FindApp(u.apps, apid)].handle, Without(u.ctxs, apid);
    if h == FD_INIT then rest else DropCtxHandle(rest, h)
  }

  /** Unregistering removes exactly the application and its contexts, in whatever state the handle is. All other entries
      stay, in order, and as they are if the application has a live handle or none. */
  lemma UnregisterExact(u: Users, apid: IdNum)
    requires Sound(u) && FindApp(u.apps, apid) >= 0
    ensures var r := UnregisterApp(u, apid);
            var i := FindApp(u.apps, apid);
            && Sound(r)
            && r.apps == u.apps[..i] + u.apps[i + 1..]
            && r.ctxs == Remaining(u, apid)
            && (Live(u.apps[i].handle) || u.apps[i].handle == FD_INIT ==> r.ctxs == Without(u.ctxs, apid))
  {
    var i := FindApp(u.apps, apid);
    var d := UnregisterIs(u, apid, i);
    EmptiedExact(u, d, i, UnregisterApp(u, apid));
  }

  lemma UnregisterIs(u: Users, apid: IdNum, i: nat) returns (d: Users)
    requires Sound(u) && FindApp(u.apps, apid) == i
    ensures i < |u.apps| && |d.apps| == |u.apps| && Sound(d) && UnregisterApp(u, apid) == AppDel(d, i)
    ensures d.apps == u.apps[i := u.apps[i].(numContexts := 0)] && d.ctxs == Without(u.ctxs, apid)
  {
    d := Users(u.apps[i := u.apps[i].(numContexts := 0)], Without(u.ctxs, apid));
    BlockGone(u, i);
  }

  /** The loop leaves the contexts of all other applications. */
  lemma BlockGone(u: Users, i: nat)
    requires Sound(u) && i < |u.apps|
    ensures 0 <= Offset(u.apps, i) <= Offset(u.apps, i) + u.apps[i].numContexts <= |u.ctxs|
    ensures var d := DeleteDown(u, Offset(u.apps, i), u.apps[i].numContexts);
            Sound(d) && d == Users(u.apps[i := u.apps[i].(numContexts := 0)], Without(u.ctxs, u.apps[i].apid))
  {
    var off, n := Offset(u.apps, i), u.apps[i].numContexts;
    BlockTheorem(u.apps, u.ctxs, i);
    WithoutBlock(u.ctxs, u.apps[i].apid, off, n);
    DeleteDownExact(u, i, off, n);
    DeleteDownSound(u, off, n);
  }

  lemma EmptiedExact(u: Users, d: Users, i: nat, r: Users)
    requires Sound(d) && i < |u.apps| && d.apps == u.apps[i := u.apps[i].(numContexts := 0)] && r == AppDel(d, i)
    ensures Sound(r) && r.apps == u.apps[..i] + u.apps[i + 1..]
    ensures var h := u.apps[i].handle;
            && r.ctxs == (if h == FD_INIT then d.ctxs else DropCtxHandle(d.ctxs, h))
            && (Live(h) || h == FD_INIT ==> r.ctxs == d.ctxs)
  {
    AppDelConsistent(d, i);
    AppDelOwned(d, i);
    if Live(u.apps[i].handle) || u.apps[i].handle == FD_INIT {
      NobodyElses(d, i);
    }
  }

  /** All other contexts stay as they are exactly when the application has no handle or none of them holds the same one. */
  lemma OthersUntouchedIff(u: Users, apid: IdNum)
    requires Sound(u) && FindApp(u.apps, apid) >= 0
    ensures var (h, rest) := (u.apps[FindApp(u.apps, apid)].handle, Without(u.ctxs, apid));
            UnregisterApp(u, apid).ctxs == rest <==> h == FD_INIT || forall k :: 0 <= k < |rest| ==> rest[k].handle != h
  {
    UnregisterExact(u, apid);
    var h, rest := u.apps[FindApp(u.apps, apid)].handle, Without(u.ctxs, apid);
    if h != FD_INIT {
      if k :| 0 <= k < |rest| && rest[k].handle == h {
        assert DropCtxHandle(rest, h)[k].handle == FD_INIT;
      } else {
        assert DropCtxHandle(rest, h) == rest;
      }
    }
  }

  /** Resetting the handle of an application without contexts touches no context. */
  lemma NobodyElses(d: Users, i: nat)
    requires Consistent(d.apps, d.ctxs) && HandlesOwned(d) && i < |d.apps| && d.apps[i].numContexts == 0
    requires Live(d.apps[i].handle) || d.apps[i].handle == FD_INIT
    ensures ResetHandle(d, i).ctxs == d.ctxs
  {
    CountZero(d.ctxs, d.apps[i].apid);
    forall k | 0 <= k < |d.ctxs| && Live(d.ctxs[k].handle)
      ensures d.ctxs[k].handle != d.apps[i].handle
    {
      var j :| 0 <= j < |d.apps| && d.apps[j].apid == d.ctxs[k].apid && d.apps[j].handle == d.ctxs[k].handle;
      assert j != i;
    }
  }
}
