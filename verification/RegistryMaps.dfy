/**
 The tables behave as finite maps: finding is a lookup, adding an update and
 deleting a removal, for applications by id and for contexts by both ids.
 */
module RegistryMaps {
  import opened Ids
  import opened RegistryTables
  import opened RegistrySpec
  import opened RegistryInvariants

  lemma FindIsLookup(apps: seq<App>, apid: IdNum)
    requires Increasing(AppKeys(apps))
    ensures var i := FindApp(apps, apid);
            && (i >= 0 <==> apid != 0 && apid in AppMap(apps))
            && (i >= 0 ==> AppMap(apps)[apid] == apps[i])
  {
    var i := FindApp(apps, apid);
    if i >= 0 {
      AppAt(apps, i);
    } else if apid != 0 {
      assert apid !in AppIds(apps);
    }
  }

  lemma FindCtxIsLookup(ctxs: seq<Ctx>, apid: IdNum, ctid: IdNum)
    requires Increasing(CtxKeys(ctxs))
    ensures var k := FindCtx(ctxs, apid, ctid);
            && (k >= 0 <==> apid != 0 && ctid != 0 && (apid, ctid) in CtxMap(ctxs))
            && (k >= 0 ==> CtxMap(ctxs)[(apid, ctid)] == ctxs[k])
  {
    var k := FindCtx(ctxs, apid, ctid);
    if k >= 0 {
      CtxAt(ctxs, k);
    } else if apid != 0 && ctid != 0 {
      assert (apid, ctid) !in CtxIds(ctxs);
    }
  }

  // ---------------------------------------------------------------- contexts

  lemma CtxReplaceAt(ctxs: seq<Ctx>, r: seq<Ctx>, k: nat, j: nat)
    requires Increasing(CtxKeys(ctxs)) && Increasing(CtxKeys(r)) && k < |ctxs| == |r| && j < |ctxs|
    requires SameCtxIds(ctxs, r) && (j != k ==> r[j] == ctxs[j])
    ensures var (id, key) := ((ctxs[j].apid, ctxs[j].ctid), (ctxs[k].apid, ctxs[k].ctid));
            && id in CtxMap(ctxs) && id in CtxMap(r) && (id == key <==> j == k)
            && CtxMap(ctxs)[id] == ctxs[j] && CtxMap(r)[id] == r[j]
  {
    CtxAt(ctxs, j);
    CtxAt(r, j);
    CtxAt(ctxs, k);
  }

  /** Changing an entry but for its ids is a map update. */
  lemma CtxReplace(ctxs: seq<Ctx>, k: nat, c: Ctx)
    requires Increasing(CtxKeys(ctxs)) && k < |ctxs| && c.apid == ctxs[k].apid && c.ctid == ctxs[k].ctid
    ensures CtxMap(ctxs[k := c]) == CtxMap(ctxs)[(c.apid, c.ctid) := c]
  {
    var r, key := ctxs[k := c], (c.apid, c.ctid);
    assert CtxKeys(r) == CtxKeys(ctxs);
    forall id | id in CtxIds(ctxs)
      ensures id in CtxMap(r) && CtxMap(r)[id] == CtxMap(ctxs)[key := c][id]
    {
      var j :| 0 <= j < |ctxs| && id == (ctxs[j].apid, ctxs[j].ctid);
      CtxReplaceAt(ctxs, r, k, j);
    }
    forall id | id in CtxIds(r)
      ensures id in CtxIds(ctxs)
    {
      var j :| 0 <= j < |r| && id == (r[j].apid, r[j].ctid);
      assert id == (ctxs[j].apid, ctxs[j].ctid);
    }
    assert key in CtxIds(ctxs);
  }

  /** A level that is stored: clamped if the default is forced. */
  function Stored(level: int, limit: int, force: bool): int {
    if force && level > limit then limit else level
  }

  /** The entry an accepted context_add leaves: position, description and handle are new, a context loaded from a file has
      handle 0 and is predefined, and the levels of a known context stay once the configuration is loaded. */
  ghost predicate CtxStored(was: map<(IdNum, IdNum), Ctx>, c: Ctx, apid: IdNum, ctid: IdNum, level: int, trace: int, pos: int,
                            handle: int, desc: Text, lv: Levels)
  {
    var known := (apid, ctid) in was;
    && c.apid == apid && c.ctid == ctid && c.pos == pos && c.desc == desc && c.handle == handle
    && (c.predefined <==> handle == 0)
    && (if known && lv.cfgLoaded then c.level == was[(apid, ctid)].level && c.trace == was[(apid, ctid)].trace
        else c.level == Stored(level, lv.defaultLevel, lv.force) && c.trace == Stored(trace, lv.defaultTrace, lv.force))
  }

  lemma KnownStored(ctxs: seq<Ctx>, k: nat, level: int, trace: int, pos: int, handle: int, desc: Text, lv: Levels)
    requires Increasing(CtxKeys(ctxs)) && k < |ctxs|
    ensures var (c, id) := (CtxEntry(ctxs[k], false, level, trace, pos, handle, desc, lv), (ctxs[k].apid, ctxs[k].ctid));
            && CtxMap(ctxs[k := c]) == CtxMap(ctxs)[id := c]
            && CtxStored(CtxMap(ctxs), c, id.0, id.1, level, trace, pos, handle, desc, lv)
  {
    CtxReplace(ctxs, k, CtxEntry(ctxs[k], false, level, trace, pos, handle, desc, lv));
    CtxAt(ctxs, k);
  }

  lemma NewStored(ctxs: seq<Ctx>, apid: IdNum, ctid: IdNum, level: int, trace: int, pos: int, handle: int, desc: Text,
                  lv: Levels, storage: int)
    requires Increasing(CtxKeys(ctxs)) && (apid, ctid) !in CtxIds(ctxs)
    ensures var c := CtxEntry(Ctx(apid, ctid, 0, 0, 0, 0, Null, storage, false), true, level, trace, pos, handle, desc, lv);
            var p := Place(CtxKeys(ctxs), CtxNum(c));
            && CtxMap(ctxs[..p] + [c] + ctxs[p..]) == CtxMap(ctxs)[(apid, ctid) := c]
            && CtxStored(CtxMap(ctxs), c, apid, ctid, level, trace, pos, handle, desc, lv)
  {
    var c := CtxEntry(Ctx(apid, ctid, 0, 0, 0, 0, Null, storage, false), true, level, trace, pos, handle, desc, lv);
    CtxInsert(ctxs, c, Place(CtxKeys(ctxs), CtxNum(c)));
  }

  /** An add is accepted if both ids are given, the levels are levels, and the application is known. */
  ghost predicate Takes(u: Users, apid: IdNum, ctid: IdNum, level: int, trace: int) {
    apid != 0 && ctid != 0 && -1 <= level <= 6 && -1 <= trace <= 1 && apid in AppMap(u.apps)
  }

  lemma TakesIs(u: Users, apid: IdNum, ctid: IdNum, level: int, trace: int)
    requires Increasing(AppKeys(u.apps))
    ensures Takes(u, apid, ctid, level, trace) <==> Acceptable(u, apid, ctid, level, trace)
  {
    FindIsLookup(u.apps, apid);
  }

  /** dlt_daemon_context_add is a map update, if it accepts. */
  lemma CtxAddIsUpdate(u: Users, apid: IdNum, ctid: IdNum, level: int, trace: int, pos: int, handle: int, desc: Text,
                       lv: Levels, storage: int) returns (c: Ctx)
    requires Consistent(u.apps, u.ctxs)
    ensures CtxMap(CtxAdd(u, apid, ctid, level, trace, pos, handle, desc, lv, storage).ctxs)
            == if Takes(u, apid, ctid, level, trace) then CtxMap(u.ctxs)[(apid, ctid) := c] else CtxMap(u.ctxs)
    ensures Takes(u, apid, ctid, level, trace) ==>
              && CtxStored(CtxMap(u.ctxs), c, apid, ctid, level, trace, pos, handle, desc, lv)
              && c.storage == if (apid, ctid) in CtxMap(u.ctxs) then CtxMap(u.ctxs)[(apid, ctid)].storage else storage
  {
    TakesIs(u, apid, ctid, level, trace);
    FindCtxIsLookup(u.ctxs, apid, ctid);
    var k := FindCtx(u.ctxs, apid, ctid);
    c := CtxEntry(if k >= 0 then u.ctxs[k] else Ctx(apid, ctid, 0, 0, 0, 0, Null, storage, false), k < 0,
                  level, trace, pos, handle, desc, lv);
    if !Acceptable(u, apid, ctid, level, trace) {
      return;
    }
    if k >= 0 {
      KnownStored(u.ctxs, k, level, trace, pos, handle, desc, lv);
    } else {
      NewStored(u.ctxs, apid, ctid, level, trace, pos, handle, desc, lv, storage);
    }
  }

  /** The same applications but for the number of their contexts. */
  ghost predicate OnlyCounts(a: seq<App>, b: seq<App>) {
    |a| == |b| && forall i :: 0 <= i < |a| ==> b[i] == a[i].(numContexts := b[i].numContexts)
  }

  /** Contexts that come and go change nothing of the applications but these numbers. */
  lemma AddOnlyCounts(u: Users, apid: IdNum, ctid: IdNum, level: int, trace: int, pos: int, handle: int, desc: Text,
                      lv: Levels, storage: int)
    requires Increasing(CtxKeys(u.ctxs))
    ensures OnlyCounts(u.apps, CtxAdd(u, apid, ctid, level, trace, pos, handle, desc, lv, storage).apps)
  {
  }

  lemma DelOnlyCounts(u: Users, k: nat)
    requires k < |u.ctxs|
    ensures OnlyCounts(u.apps, CtxDel(u, k).apps)
  {
  }

  /** dlt_daemon_context_del is a map removal. */
  lemma CtxDelIsRemoval(u: Users, k: nat)
    requires Consistent(u.apps, u.ctxs) && k < |u.ctxs|
    ensures CtxMap(CtxDel(u, k).ctxs) == CtxMap(u.ctxs) - {(u.ctxs[k].apid, u.ctxs[k].ctid)}
  {
    CtxRemove(u.ctxs, k);
  }

  /** Unregistering a context removes it, unless it is unknown or predefined. */
  lemma UnregisterCtxIsRemoval(u: Users, apid: IdNum, ctid: IdNum)
    requires Consistent(u.apps, u.ctxs)
    ensures var (m, r) := (CtxMap(u.ctxs), CtxMap(UnregisterCtx(u, apid, ctid).ctxs));
            r == if apid != 0 && ctid != 0 && (apid, ctid) in m && !m[(apid, ctid)].predefined then m - {(apid, ctid)} else m
  {
    var k := FindCtx(u.ctxs, apid, ctid);
    FindCtxIsLookup(u.ctxs, apid, ctid);
    if k >= 0 && !u.ctxs[k].predefined {
      CtxDelIsRemoval(u, k);
    }
  }

  // ---------------------------------------------------------------- applications

  /** dlt_daemon_application_del is a map removal. */
  lemma AppDelIsRemoval(u: Users, i: nat)
    requires Consistent(u.apps, u.ctxs) && i < |u.apps|
    ensures AppMap(AppDel(u, i).apps) == AppMap(u.apps) - {u.apps[i].apid}
  {
    AppRemove(u.apps, i);
    var r := ResetHandle(u, i);
    assert r.apps[..i] + r.apps[i + 1..] == u.apps[..i] + u.apps[i + 1..];
  }

  /** The same application, but without the descriptor if that has been given to another one. */
  predicate KeptBut(a: App, r: App, given: bool, fd: int) {
    r == a.(handle := if given && a.handle == fd then FD_INIT else a.handle)
  }

  /** An application keeps the handle it has for the same process; one without a process keeps what it has. */
  predicate KeepsHandle(a: App, pid: int) {
    a.pid == pid && (a.handle != FD_INIT || pid == 0)
  }

  /** The handle of the application and who owns it: kept, the descriptor found for the process, or none without a process. */
  predicate HandleIs(a: App, r: App, pid: int, fd: int, owns: bool) {
    if KeepsHandle(a, pid) then r.handle == a.handle && r.owns == a.owns
    else if pid != 0 then r.handle == fd && r.owns == owns
    else r.handle == FD_INIT && r.owns == (a.handle == FD_INIT && a.owns)
  }

  ghost predicate OthersKept(u: Users, r: Users, j: nat, given: bool, fd: int)
    requires j < |u.apps|
  {
    |r.apps| == |u.apps| && forall i :: 0 <= i < |u.apps| && i != j ==> KeptBut(u.apps[i], r.apps[i], given, fd)
  }

  /** A process gets the descriptor found for it unless the application has a handle for it already. */
  predicate Given(a: App, pid: int) {
    pid != 0 && !KeepsHandle(a, pid)
  }

  lemma UpdateChangesOne(u: Users, j: nat, pid: int, desc: Text, fd: int, owns: bool)
    requires j < |u.apps|
    ensures var r := AppUpdate(u, j, pid, desc, fd, owns);
            && OthersKept(u, r, j, Given(u.apps[j], pid), fd)
            && r.apps[j].apid == u.apps[j].apid && r.apps[j].desc == desc && r.apps[j].pid == pid
            && r.apps[j].numContexts == u.apps[j].numContexts && HandleIs(u.apps[j], r.apps[j], pid, fd, owns)
  {
  }

  /** The entry as found, or the blank one of an id not yet known. */
  function Before(was: map<IdNum, App>, apid: IdNum): App {
    if apid in was then was[apid] else App(apid, 0, FD_INIT, false, Null, 0)
  }

  /** Under its id the application is found with the new process and description and the right handle;
      all other ids keep theirs, but for a descriptor that has been given away. */
  ghost predicate AppUpdated(was: map<IdNum, App>, now: map<IdNum, App>, apid: IdNum, pid: int, desc: Text, fd: int, owns: bool) {
    && now.Keys == was.Keys + {apid}
    && now[apid].apid == apid && now[apid].pid == pid && now[apid].desc == desc
    && now[apid].numContexts == Before(was, apid).numContexts && HandleIs(Before(was, apid), now[apid], pid, fd, owns)
    && (forall id :: id in was && id != apid ==> KeptBut(was[id], now[id], Given(Before(was, apid), pid), fd))
  }

  lemma SameIdsKeys(a: seq<App>, b: seq<App>)
    requires Increasing(AppKeys(a)) && SameAppIds(a, b)
    ensures Increasing(AppKeys(b)) && AppMap(a).Keys == AppMap(b).Keys
  {
    assert AppKeys(b) == AppKeys(a);
    forall id | id in AppIds(a)
      ensures id in AppIds(b)
    {
      var i :| 0 <= i < |a| && a[i].apid == id;
      assert b[i].apid == id;
    }
    forall id | id in AppIds(b)
      ensures id in AppIds(a)
    {
      var i :| 0 <= i < |b| && b[i].apid == id;
      assert a[i].apid == id;
    }
  }

  lemma KnownUpdated(u: Users, r: Users, j: nat, pid: int, desc: Text, fd: int, owns: bool)
    requires Increasing(AppKeys(u.apps)) && j < |u.apps| && SameAppIds(u.apps, r.apps)
    requires OthersKept(u, r, j, Given(u.apps[j], pid), fd)
    requires r.apps[j].desc == desc && r.apps[j].pid == pid && HandleIs(u.apps[j], r.apps[j], pid, fd, owns)
    ensures AppUpdated(AppMap(u.apps), AppMap(r.apps), u.apps[j].apid, pid, desc, fd, owns)
  {
    SameIdsKeys(u.apps, r.apps);
    AppAt(u.apps, j);
    AppAt(r.apps, j);
    forall id | id in AppMap(u.apps) && id != u.apps[j].apid
      ensures KeptBut(AppMap(u.apps)[id], AppMap(r.apps)[id], Given(u.apps[j], pid), fd)
    {
      var i :| 0 <= i < |u.apps| && u.apps[i].apid == id;
      AppAt(u.apps, i);
      AppAt(r.apps, i);
    }
  }

  /** A new entry sorted in, with the others kept. */
  lemma NewUpdated(apps: seq<App>, others: seq<App>, e: App, fd: int, owns: bool)
    requires Increasing(AppKeys(apps)) && SameAppIds(apps, others) && !Known(apps, e.apid) && e.numContexts == 0
    requires HandleIs(App(e.apid, 0, FD_INIT, false, Null, 0), e, e.pid, fd, owns)
    requires forall i :: 0 <= i < |apps| ==> KeptBut(apps[i], others[i], e.pid != 0, fd)
    ensures Increasing(AppKeys(others))
    ensures var p := Place(AppKeys(others), e.apid);
            AppUpdated(AppMap(apps), AppMap(others[..p] + [e] + others[p..]), e.apid, e.pid, e.desc, fd, owns)
  {
    SameIdsKeys(apps, others);
    assert !Known(others, e.apid) by {
      SameIdsKnown(others, apps);
    }
    AppInsert(others, e, Place(AppKeys(others), e.apid));
    assert e.apid !in AppMap(apps) by {
      assert e.apid !in AppIds(apps);
    }
    forall id | id in AppMap(apps)
      ensures KeptBut(AppMap(apps)[id], AppMap(others)[id], e.pid != 0, fd)
    {
      var i :| 0 <= i < |apps| && apps[i].apid == id;
      AppAt(apps, i);
      AppAt(others, i);
    }
  }

  /** dlt_daemon_application_add is a map update. */
  lemma AppAddIsUpdate(u: Users, apid: IdNum, pid: int, desc: Text, fd: int, owns: bool)
    requires Consistent(u.apps, u.ctxs) && apid != 0
    ensures AppUpdated(AppMap(u.apps), AppMap(AppAdd(u, apid, pid, desc, fd, owns).apps), apid, pid, desc, fd, owns)
  {
    var i := FindApp(u.apps, apid);
    if i >= 0 {
      UpdateChangesOne(u, i, pid, desc, fd, owns);
      UpdateKeepsIds(u, i, pid, desc, fd, owns);
      KnownUpdated(u, AppUpdate(u, i, pid, desc, fd, owns), i, pid, desc, fd, owns);
    } else {
      NewAppIsUpdate(u, apid, pid, desc, fd, owns);
    }
  }

  /** What setting up an appended entry does to the table before it is sorted. */
  lemma NewAppParts(u: Users, apid: IdNum, pid: int, desc: Text, fd: int, owns: bool)
    ensures var (n, blank) := (|u.apps|, App(apid, 0, FD_INIT, false, Null, 0));
            var r := AppUpdate(u.(apps := u.apps + [blank]), n, pid, desc, fd, owns);
            && SameAppIds(u.apps, r.apps[..n])
            && (forall i :: 0 <= i < n ==> KeptBut(u.apps[i], r.apps[..n][i], pid != 0, fd))
            && r.apps[n].apid == apid && r.apps[n].pid == pid && r.apps[n].desc == desc && r.apps[n].numContexts == 0
            && HandleIs(blank, r.apps[n], pid, fd, owns)
  {
    var n, v := |u.apps|, u.(apps := u.apps + [App(apid, 0, FD_INIT, false, Null, 0)]);
    UpdateChangesOne(v, n, pid, desc, fd, owns);
    UpdateKeepsIds(v, n, pid, desc, fd, owns);
    assert forall j :: 0 <= j < n ==> v.apps[j] == u.apps[j];
  }

  lemma NewAppIsUpdate(u: Users, apid: IdNum, pid: int, desc: Text, fd: int, owns: bool)
    requires Increasing(AppKeys(u.apps)) && apid != 0 && FindApp(u.apps, apid) < 0
    ensures AppUpdated(AppMap(u.apps), AppMap(AppAdd(u, apid, pid, desc, fd, owns).apps), apid, pid, desc, fd, owns)
  {
    var n, entry := |u.apps|, App(apid, 0, FD_INIT, false, Null, 0);
    var r := AppUpdate(u.(apps := u.apps + [entry]), n, pid, desc, fd, owns);
    NewAppParts(u, apid, pid, desc, fd, owns);
    SameApps(u, entry, pid, desc, fd, owns);
    NewUpdated(u.apps, r.apps[..n], r.apps[n], fd, owns);
  }

  /** The handle a context has left: none if it was the one its application gave up or the one given away. */
  function HandleLeft(a: App, c: Ctx, pid: int, fd: int): int {
    if (a.pid != pid && c.handle == a.handle) || (Given(a, pid) && c.handle == fd) then FD_INIT else c.handle
  }

  lemma UpdateContexts(u: Users, j: nat, pid: int, desc: Text, fd: int, owns: bool)
    requires j < |u.apps|
    ensures var r := AppUpdate(u, j, pid, desc, fd, owns);
            |r.ctxs| == |u.ctxs| && forall k :: 0 <= k < |u.ctxs| ==> r.ctxs[k] == u.ctxs[k].(handle := HandleLeft(u.apps[j], u.ctxs[k], pid, fd))
  {
  }

  /** Adding an application leaves the contexts as they are, but for the handles that were given up or given away. */
  lemma AppAddContexts(u: Users, apid: IdNum, pid: int, desc: Text, fd: int, owns: bool)
    requires Consistent(u.apps, u.ctxs) && apid != 0
    ensures var (r, a) := (AppAdd(u, apid, pid, desc, fd, owns), Before(AppMap(u.apps), apid));
            |r.ctxs| == |u.ctxs| && forall k :: 0 <= k < |u.ctxs| ==> r.ctxs[k] == u.ctxs[k].(handle := HandleLeft(a, u.ctxs[k], pid, fd))
  {
    FindIsLookup(u.apps, apid);
    var i := FindApp(u.apps, apid);
    if i >= 0 {
      UpdateContexts(u, i, pid, desc, fd, owns);
    } else {
      UpdateContexts(u.(apps := u.apps + [App(apid, 0, FD_INIT, false, Null, 0)]), |u.apps|, pid, desc, fd, owns);
    }
  }
}
