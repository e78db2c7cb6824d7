/**
 The registry operations of the daemon on the tables of one ECU, as functions.
 Allocation never fails here; what open() or accept() returned is a parameter.
 */
module RegistrySpec {
  import opened Ids
  import opened RegistryTables

  const FD_INIT := -1
  const FD_MINIMUM := 3
  const LOG_DEFAULT := -1
  const LOG_VERBOSE := 6
  const TRACE_DEFAULT := -1
  const TRACE_ON := 1

  datatype Users = Users(apps: seq<App>, ctxs: seq<Ctx>)

  // ---------------------------------------------------------------- finding

  /** The first application with this id from entry `i` on, or -1. */
  function ScanApps(apps: seq<App>, apid: IdNum, i: nat): (r: int)
    requires i <= |apps|
    ensures r == -1 || (i <= r < |apps| && apps[r].apid == apid)
    ensures r == -1 ==> forall k :: i <= k < |apps| ==> apps[k].apid != apid
    decreases |apps| - i
  {
    if i == |apps| then -1 else if apps[i].apid == apid then i else ScanApps(apps, apid, i + 1)
  }

  /** The first context with these ids from entry `i` on, or -1. */
  function ScanCtxs(ctxs: seq<Ctx>, apid: IdNum, ctid: IdNum, i: nat): (r: int)
    requires i <= |ctxs|
    ensures r == -1 || (i <= r < |ctxs| && ctxs[r].apid == apid && ctxs[r].ctid == ctid)
    ensures r == -1 ==> forall k :: i <= k < |ctxs| ==> !(ctxs[k].apid == apid && ctxs[k].ctid == ctid)
    decreases |ctxs| - i
  {
    if i == |ctxs| then -1 else if ctxs[i].apid == apid && ctxs[i].ctid == ctid then i else ScanCtxs(ctxs, apid, ctid, i + 1)
  }

  /** dlt_daemon_application_find as a linear scan. */
  function FindApp(apps: seq<App>, apid: IdNum): (r: int)
    ensures r == -1 || (0 <= r < |apps| && apps[r].apid == apid)
  {
    if apid == 0 then -1 else ScanApps(apps, apid, 0)
  }

  /** dlt_daemon_context_find as a linear scan. */
  function FindCtx(ctxs: seq<Ctx>, apid: IdNum, ctid: IdNum): (r: int)
    ensures r == -1 || (0 <= r < |ctxs| && ctxs[r].apid == apid && ctxs[r].ctid == ctid)
  {
    if apid == 0 || ctid == 0 then -1 else ScanCtxs(ctxs, apid, ctid, 0)
  }

  // ---------------------------------------------------------------- handles

  /** dlt_daemon_contexts_invalidate_fd */
  function DropCtxHandle(ctxs: seq<Ctx>, fd: int): (r: seq<Ctx>)
    ensures |r| == |ctxs|
  {
    seq(|ctxs|, i requires 0 <= i < |ctxs| => if ctxs[i].handle == fd then ctxs[i].(handle := FD_INIT) else ctxs[i])
  }

  /** dlt_daemon_applications_invalidate_fd */
  function DropAppHandle(apps: seq<App>, fd: int): (r: seq<App>)
    ensures |r| == |apps|
  {
    seq(|apps|, i requires 0 <= i < |apps| => if apps[i].handle == fd then apps[i].(handle := FD_INIT) else apps[i])
  }

  function Invalidate(u: Users, fd: int): Users {
    Users(DropAppHandle(u.apps, fd), DropCtxHandle(u.ctxs, fd))
  }

  /** dlt_daemon_application_reset_user_handle */
  function ResetHandle(u: Users, i: nat): Users
    requires i < |u.apps|
  {
    var h := u.apps[i].handle;
    if h == FD_INIT then u
    else Users(u.apps[i := u.apps[i].(handle := FD_INIT, owns := false)], DropCtxHandle(u.ctxs, h))
  }

  // ---------------------------------------------------------------- applications

  /** qsort of a table whose last entry alone may be out of order. */
  function SettleApp(apps: seq<App>): seq<App>
    requires apps != [] && Increasing(AppKeys(apps[..|apps| - 1]))
  {
    var n := |apps| - 1;
    var sorted := apps[..n];
    var p := Place(AppKeys(sorted), apps[n].apid);
    sorted[..p] + [apps[n]] + sorted[p..]
  }

  /** dlt_daemon_application_add on entry `j`, which exists. `handle` is the descriptor found for the process. */
  function AppUpdate(u: Users, j: nat, pid: int, desc: Text, handle: int, owns: bool): (r: Users)
    requires j < |u.apps|
    ensures |r.apps| == |u.apps|
  {
    var u1 := u.(apps := u.apps[j := u.apps[j].(desc := desc)]);
    var u2 := if u1.apps[j].pid == pid then u1 else
                var v := ResetHandle(u1, j);
                v.(apps := v.apps[j := v.apps[j].(pid := 0)]);
    if u2.apps[j].handle == FD_INIT && pid != 0 then
      var v := Invalidate(u2, handle);
      v.(apps := v.apps[j := v.apps[j].(handle := handle, owns := owns, pid := pid)])
    else
      u2
  }

  /** dlt_daemon_application_add */
  function AppAdd(u: Users, apid: IdNum, pid: int, desc: Text, handle: int, owns: bool): Users
    requires Increasing(AppKeys(u.apps))
  {
    if apid == 0 then u
    else
      var i := FindApp(u.apps, apid);
      if i >= 0 then AppUpdate(u, i, pid, desc, handle, owns)
      else
        var entry := App(apid, 0, FD_INIT, false, Null, 0);
        var r := AppUpdate(u.(apps := u.apps + [entry]), |u.apps|, pid, desc, handle, owns);
        SameApps(u, entry, pid, desc, handle, owns);
        r.(apps := SettleApp(r.apps))
  }

  /** An update leaves the ids and the counts of the applications alone. */
  lemma UpdateKeepsIds(u: Users, j: nat, pid: int, desc: Text, handle: int, owns: bool)
    requires j < |u.apps|
    ensures var r := AppUpdate(u, j, pid, desc, handle, owns);
            && SameAppIds(u.apps, r.apps) && SameCtxIds(u.ctxs, r.ctxs)
  {
  }

  lemma SameApps(u: Users, entry: App, pid: int, desc: Text, handle: int, owns: bool)
    requires Increasing(AppKeys(u.apps))
    ensures var r := AppUpdate(u.(apps := u.apps + [entry]), |u.apps|, pid, desc, handle, owns);
            Increasing(AppKeys(r.apps[..|u.apps|]))
  {
    UpdateKeepsIds(u.(apps := u.apps + [entry]), |u.apps|, pid, desc, handle, owns);
    var r := AppUpdate(u.(apps := u.apps + [entry]), |u.apps|, pid, desc, handle, owns);
    assert AppKeys(r.apps[..|u.apps|]) == AppKeys(u.apps);
  }

  ghost predicate SameAppIds(a: seq<App>, b: seq<App>) {
    |a| == |b| && forall i :: 0 <= i < |a| ==> a[i].apid == b[i].apid && a[i].numContexts == b[i].numContexts
  }

  ghost predicate SameCtxIds(a: seq<Ctx>, b: seq<Ctx>) {
    |a| == |b| && forall k :: 0 <= k < |a| ==> a[k].apid == b[k].apid && a[k].ctid == b[k].ctid
  }

  /** dlt_daemon_application_del */
  function AppDel(u: Users, i: nat): Users
    requires i < |u.apps|
  {
    var r := ResetHandle(u, i);
    r.(apps := r.apps[..i] + r.apps[i + 1..])
  }

  // ---------------------------------------------------------------- contexts

  /** The levels a context is to get, and whether they may be stored over those of a known context. */
  datatype Levels = Levels(defaultLevel: int, defaultTrace: int, force: bool, cfgLoaded: bool)

  function AtMost(x: int, limit: int): int {
    if x > limit then limit else x
  }

  /** dlt_daemon_context_add: the entry it stores. */
  function CtxEntry(c: Ctx, isNew: bool, level: int, trace: int, pos: int, handle: int, desc: Text, lv: Levels): Ctx {
    var level1 := if lv.force then AtMost(level, lv.defaultLevel) else level;
    var trace1 := if lv.force then AtMost(trace, lv.defaultTrace) else trace;
    var store := isNew || !lv.cfgLoaded;
    c.(desc := desc, level := if store then level1 else c.level, trace := if store then trace1 else c.trace,
       pos := pos, handle := handle, predefined := handle == 0)
  }

  predicate Acceptable(u: Users, apid: IdNum, ctid: IdNum, level: int, trace: int) {
    && apid != 0 && ctid != 0
    && LOG_DEFAULT <= level <= LOG_VERBOSE && TRACE_DEFAULT <= trace <= TRACE_ON
    && FindApp(u.apps, apid) >= 0
  }

  /** dlt_daemon_context_add. A new entry's storage level is whatever the memory held. */
  function CtxAdd(u: Users, apid: IdNum, ctid: IdNum, level: int, trace: int, pos: int, handle: int, desc: Text,
                  lv: Levels, storage: int): Users
    requires Increasing(CtxKeys(u.ctxs))
  {
    if !Acceptable(u, apid, ctid, level, trace) then u
    else
      var k := FindCtx(u.ctxs, apid, ctid);
      if k >= 0 then
        u.(ctxs := u.ctxs[k := CtxEntry(u.ctxs[k], false, level, trace, pos, handle, desc, lv)])
      else
        var i := FindApp(u.apps, apid);
        var c := CtxEntry(Ctx(apid, ctid, 0, 0, 0, 0, Null, storage, false), true, level, trace, pos, handle, desc, lv);
        var p := Place(CtxKeys(u.ctxs), CtxNum(c));
        Users(u.apps[i := u.apps[i].(numContexts := u.apps[i].numContexts + 1)], u.ctxs[..p] + [c] + u.ctxs[p..])
  }

  /** dlt_daemon_context_del */
  function CtxDel(u: Users, k: nat): Users
    requires k < |u.ctxs|
  {
    var i := FindApp(u.apps, u.ctxs[k].apid);
    Users(if i >= 0 then u.apps[i := u.apps[i].(numContexts := u.apps[i].numContexts - 1)] else u.apps,
          u.ctxs[..k] + u.ctxs[k + 1..])
  }

  /** dlt_daemon_contexts_clear */
  function CtxsClear(u: Users): Users {
    Users(seq(|u.apps|, i requires 0 <= i < |u.apps| => u.apps[i].(numContexts := 0)), [])
  }

  /** dlt_daemon_applications_clear */
  function AppsClear(u: Users): Users {
    u.(apps := [])
  }

  // ---------------------------------------------------------------- unregistering

  /** Delete the contexts `off + n - 1` down to `off`, one by one. */
  function DeleteDown(u: Users, off: nat, n: nat): Users
    requires off + n <= |u.ctxs|
    decreases n
  {
    if n == 0 then u else DeleteDown(CtxDel(u, off + n - 1), off, n - 1)
  }

  /** dlt_daemon_process_user_message_unregister_application */
  function UnregisterApp(u: Users, apid: IdNum): Users
    requires Consistent(u.apps, u.ctxs)
  {
    var i := FindApp(u.apps, apid);
    if i < 0 then u
    else
      BlockTheorem(u.apps, u.ctxs, i);
      var d := DeleteDown(u, Offset(u.apps, i), u.apps[i].numContexts);
      DeleteKeepsApps(u, Offset(u.apps, i), u.apps[i].numContexts);
      AppDel(d, i)
  }

  lemma {:induction false} DeleteKeepsApps(u: Users, off: nat, n: nat)
    requires off + n <= |u.ctxs|
    ensures var d := DeleteDown(u, off, n);
            |d.apps| == |u.apps| && forall i :: 0 <= i < |u.apps| ==> d.apps[i] == u.apps[i].(numContexts := d.apps[i].numContexts)
    decreases n
  {
    if n > 0 {
      DeleteKeepsApps(CtxDel(u, off + n - 1), off, n - 1);
    }
  }

  /** dlt_daemon_process_user_message_unregister_context: predefined contexts stay. */
  function UnregisterCtx(u: Users, apid: IdNum, ctid: IdNum): Users {
    var k := FindCtx(u.ctxs, apid, ctid);
    if k >= 0 && !u.ctxs[k].predefined then CtxDel(u, k) else u
  }
}
