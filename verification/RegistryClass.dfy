/**
 The registered users of an ECU as the daemon keeps them: two tables that its
 functions change in place. Each method is proved to do what the function of the
 same operation on tables says.
 */
module RegistryClass {
  import opened Ids
  import opened Sorting
  import opened RegistryTables
  import opened RegistrySpec
  import opened RegistryInvariants
  import opened RegistryHandles

  // ---------------------------------------------------------------- finding

  /** dlt_daemon_application_find: a look at both ends, then bsearch; it finds what a linear scan would. */
  method FindApplication(apps: seq<App>, apid: IdNum) returns (r: int)
    requires Increasing(AppKeys(apps))
    ensures r == FindApp(apps, apid)
  {
    r := -1;
    if apid == 0 || |apps| == 0 {
      EmptyTable(apps, apid);
      return;
    }
    if apid < apps[0].apid || apid > apps[|apps| - 1].apid {
      OutOfRange(apps, apid);
      return;
    }
    var lo, hi := 0, |apps|;
    while lo < hi
      invariant 0 <= lo <= hi <= |apps|
      invariant forall k :: 0 <= k < lo ==> apps[k].apid < apid
      invariant forall k :: hi <= k < |apps| ==> apid < apps[k].apid
    {
      var mid := (lo + hi) / 2;
      AppsAround(apps, mid);
      if apps[mid].apid == apid {
        AppAt(apps, mid);
        return mid;
      } else if apps[mid].apid < apid {
        lo := mid + 1;
      } else {
        hi := mid;
      }
    }
  }

  lemma EmptyTable(apps: seq<App>, apid: IdNum)
    requires apid == 0 || |apps| == 0
    ensures FindApp(apps, apid) == -1
  {
  }

  lemma AppsAround(apps: seq<App>, mid: nat)
    requires Increasing(AppKeys(apps)) && mid < |apps|
    ensures forall k :: 0 <= k < mid ==> apps[k].apid < apps[mid].apid
    ensures forall k :: mid < k < |apps| ==> apps[mid].apid < apps[k].apid
  {
    var ks := AppKeys(apps);
    assert forall k :: 0 <= k < |apps| ==> ks[k] == apps[k].apid;
  }

  lemma OutOfRange(apps: seq<App>, apid: IdNum)
    requires Increasing(AppKeys(apps)) && apps != [] && (apid < apps[0].apid || apid > apps[|apps| - 1].apid)
    ensures FindApp(apps, apid) == -1
  {
    AppsAround(apps, 0);
    AppsAround(apps, |apps| - 1);
  }

  /** dlt_daemon_cmp_apid_ctid */
  function CompareIds(a1: IdNum, c1: IdNum, a2: IdNum, c2: IdNum): int {
    if a1 < a2 then -1 else if a1 == a2 then c1 as int - c2 as int else 1
  }

  /** dlt_daemon_context_find: a look at the application ids at both ends, then bsearch. */
  method FindContext(ctxs: seq<Ctx>, apid: IdNum, ctid: IdNum) returns (r: int)
    requires Increasing(CtxKeys(ctxs))
    ensures r == FindCtx(ctxs, apid, ctid)
  {
    r := -1;
    if apid == 0 || ctid == 0 || |ctxs| == 0 {
      return;
    }
    if apid < ctxs[0].apid || apid > ctxs[|ctxs| - 1].apid {
      CtxOutOfRange(ctxs, apid, ctid);
      return;
    }
    var lo, hi := 0, |ctxs|;
    while lo < hi
      invariant 0 <= lo <= hi <= |ctxs|
      invariant forall k :: 0 <= k < lo ==> CompareIds(ctxs[k].apid, ctxs[k].ctid, apid, ctid) < 0
      invariant forall k :: hi <= k < |ctxs| ==> CompareIds(ctxs[k].apid, ctxs[k].ctid, apid, ctid) > 0
    {
      var mid := (lo + hi) / 2;
      CtxsAround(ctxs, mid);
      var cmp := CompareIds(ctxs[mid].apid, ctxs[mid].ctid, apid, ctid);
      if cmp == 0 {
        CtxAt(ctxs, mid);
        return mid;
      } else if cmp < 0 {
        lo := mid + 1;
      } else {
        hi := mid;
      }
    }
  }

  /** Entries before `mid` compare below it and those behind it above. */
  lemma CtxsAround(ctxs: seq<Ctx>, mid: nat)
    requires Increasing(CtxKeys(ctxs)) && mid < |ctxs|
    ensures forall k :: 0 <= k < mid ==> CompareIds(ctxs[k].apid, ctxs[k].ctid, ctxs[mid].apid, ctxs[mid].ctid) < 0
    ensures forall k :: mid < k < |ctxs| ==> CompareIds(ctxs[k].apid, ctxs[k].ctid, ctxs[mid].apid, ctxs[mid].ctid) > 0
  {
    var ks := CtxKeys(ctxs);
    forall k | 0 <= k < |ctxs| && k != mid
      ensures if k < mid then CompareIds(ctxs[k].apid, ctxs[k].ctid, ctxs[mid].apid, ctxs[mid].ctid) < 0
              else CompareIds(ctxs[k].apid, ctxs[k].ctid, ctxs[mid].apid, ctxs[mid].ctid) > 0
    {
      assert k < mid ==> ks[k] < ks[mid];
      assert mid < k ==> ks[mid] < ks[k];
      CtxNumIsOrder(ctxs[k], ctxs[mid]);
    }
  }

  lemma CtxOutOfRange(ctxs: seq<Ctx>, apid: IdNum, ctid: IdNum)
    requires Increasing(CtxKeys(ctxs)) && ctxs != [] && (apid < ctxs[0].apid || apid > ctxs[|ctxs| - 1].apid)
    ensures FindCtx(ctxs, apid, ctid) == -1
  {
    SortedIsGrouped(ctxs);
  }

  // ---------------------------------------------------------------- the contexts of one application

  /** offset_base: the sum of the counts of the preceding applications. */
  method OffsetBase(apps: seq<App>, i: nat) returns (base: int)
    requires i <= |apps|
    ensures base == Offset(apps, i)
  {
    base := 0;
    for j := 0 to i
      invariant base == Offset(apps, j)
    {
      base := base + apps[j].numContexts;
    }
  }

  // ---------------------------------------------------------------- sorting

  function AppKey(): App -> int {
    (a: App) => a.apid as int
  }

  function CtxKey(): Ctx -> int {
    (c: Ctx) => CtxNum(c)
  }

  /** qsort of a table of values. */
  method SortTable<T>(s: seq<T>, key: T -> int) returns (r: seq<T>)
    ensures SortedPermutation(r, s, key)
  {
    if s == [] {
      return s;
    }
    var a := new T[|s|](i requires 0 <= i < |s| => s[i]);
    assert a[..|s|] == s;
    Qsort(a, |s|, key);
    r := a[..];
    assert a[..|s|] == a[..];
  }

  lemma InsertedPermutes<T>(s: seq<T>, p: nat, e: T)
    requires p <= |s|
    ensures multiset(s[..p] + [e] + s[p..]) == multiset(s + [e])
  {
    assert s == s[..p] + s[p..];
  }

  /** Any sort that orders the applications leaves the new one at its place. */
  lemma SettledByAnySort(apps: seq<App>, r: seq<App>)
    requires apps != [] && Increasing(AppKeys(apps[..|apps| - 1])) && Increasing(AppKeys(SettleApp(apps)))
    requires SortedPermutation(r, apps, AppKey())
    ensures r == SettleApp(apps)
  {
    var n, t := |apps| - 1, SettleApp(apps);
    InsertedPermutes(apps[..n], Place(AppKeys(apps[..n]), apps[n].apid), apps[n]);
    assert apps == apps[..n] + [apps[n]];
    forall i, j | 0 <= i < j < |t|
      ensures AppKey()(t[i]) < AppKey()(t[j])
    {
      assert AppKeys(t)[i] < AppKeys(t)[j];
    }
    OneOrder(r, t, AppKey());
  }

  lemma CtxSettledByAnySort(ctxs: seq<Ctx>, c: Ctx, r: seq<Ctx>)
    requires Increasing(CtxKeys(ctxs))
    requires var p := Place(CtxKeys(ctxs), CtxNum(c)); Increasing(CtxKeys(ctxs[..p] + [c] + ctxs[p..]))
    requires SortedPermutation(r, ctxs + [c], CtxKey())
    ensures var p := Place(CtxKeys(ctxs), CtxNum(c)); r == ctxs[..p] + [c] + ctxs[p..]
  {
    var p := Place(CtxKeys(ctxs), CtxNum(c));
    var t := ctxs[..p] + [c] + ctxs[p..];
    InsertedPermutes(ctxs, p, c);
    forall i, j | 0 <= i < j < |t|
      ensures CtxKey()(t[i]) < CtxKey()(t[j])
    {
      assert CtxKeys(t)[i] < CtxKeys(t)[j];
    }
    OneOrder(r, t, CtxKey());
  }

  // ---------------------------------------------------------------- the tables

  class UserList {
    var apps: seq<App>
    var ctxs: seq<Ctx>

    ghost function Tables(): Users
      reads this
    {
      Users(apps, ctxs)
    }

    ghost predicate Valid()
      reads this
    {
      Consistent(apps, ctxs)
    }

    constructor ()
      ensures Valid() && Tables() == Users([], [])
    {
      apps, ctxs := [], [];
    }

    /** dlt_daemon_applications_invalidate_fd */
    method InvalidateApplications(fd: int)
      modifies this`apps
      ensures apps == DropAppHandle(old(apps), fd)
    {
      for i := 0 to |apps|
        invariant |apps| == |old(apps)|
        invariant forall j :: 0 <= j < |apps| ==> apps[j] == if j < i then DropAppHandle(old(apps), fd)[j] else old(apps)[j]
      {
        if apps[i].handle == fd {
          apps := apps[i := apps[i].(handle := FD_INIT)];
        }
      }
    }

    /** dlt_daemon_contexts_invalidate_fd */
    method InvalidateContexts(fd: int)
      modifies this`ctxs
      ensures ctxs == DropCtxHandle(old(ctxs), fd)
    {
      for k := 0 to |ctxs|
        invariant |ctxs| == |old(ctxs)|
        invariant forall j :: 0 <= j < |ctxs| ==> ctxs[j] == if j < k then DropCtxHandle(old(ctxs), fd)[j] else old(ctxs)[j]
      {
        if ctxs[k].handle == fd {
          ctxs := ctxs[k := ctxs[k].(handle := FD_INIT)];
        }
      }
    }

    /** dlt_daemon_application_reset_user_handle; returns the descriptor to be closed, if the daemon opened it. */
    method ResetUserHandle(i: nat) returns (close: bool)
      requires i < |apps|
      modifies this
      ensures Tables() == ResetHandle(old(Tables()), i)
      ensures close <==> old(apps[i].handle) != FD_INIT && old(apps[i].owns)
    {
      close := false;
      if apps[i].handle != FD_INIT {
        InvalidateContexts(apps[i].handle);
        close := apps[i].owns;
        apps := apps[i := apps[i].(handle := FD_INIT, owns := false)];
      }
    }

    /** The part of dlt_daemon_application_add that new and known applications share. */
    method UpdateApplication(j: nat, pid: int, desc: Text, handle: int, owns: bool)
      requires j < |apps|
      modifies this
      ensures Tables() == AppUpdate(old(Tables()), j, pid, desc, handle, owns)
    {
      apps := apps[j := apps[j].(desc := desc)];
      if apps[j].pid != pid {
        var _ := ResetUserHandle(j);
        apps := apps[j := apps[j].(pid := 0)];
      }
      if apps[j].handle == FD_INIT && pid != 0 {
        InvalidateApplications(handle);
        InvalidateContexts(handle);
        apps := apps[j := apps[j].(handle := handle, owns := owns, pid := pid)];
      }
    }

    /** dlt_daemon_application_add */
    method ApplicationAdd(apid: IdNum, pid: int, desc: Text, handle: int, owns: bool)
      requires Valid()
      modifies this
      ensures Valid() && Tables() == AppAdd(old(Tables()), apid, pid, desc, handle, owns)
    {
      AppAddConsistent(Tables(), apid, pid, desc, handle, owns);
      if apid != 0 {
        var i := FindApplication(apps, apid);
        if i >= 0 {
          UpdateApplication(i, pid, desc, handle, owns);
        } else {
          AddNewApplication(apid, pid, desc, handle, owns);
        }
      }
    }

    /** A new application: appended, set up, and sorted in. */
    method AddNewApplication(apid: IdNum, pid: int, desc: Text, handle: int, owns: bool)
      requires Valid() && apid != 0 && FindApp(apps, apid) < 0
      modifies this
      ensures Tables() == AppAdd(old(Tables()), apid, pid, desc, handle, owns)
    {
      var entry := App(apid, 0, FD_INIT, false, Null, 0);
      ghost var u := Tables();
      SameApps(u, entry, pid, desc, handle, owns);
      AppAddConsistent(u, apid, pid, desc, handle, owns);
      apps := apps + [entry];
      UpdateApplication(|apps| - 1, pid, desc, handle, owns);
      var sorted := SortTable(apps, AppKey());
      SettledByAnySort(apps, sorted);
      apps := sorted;
    }

    /** dlt_daemon_application_del: the entries behind it move down. */
    method ApplicationDel(i: nat)
      requires i < |apps|
      modifies this
      ensures Tables() == AppDel(old(Tables()), i)
    {
      var _ := ResetUserHandle(i);
      apps := apps[..i] + apps[i + 1..];
    }

    /** dlt_daemon_context_add; false if it refuses. */
    method ContextAdd(apid: IdNum, ctid: IdNum, level: int, trace: int, pos: int, handle: int, desc: Text, lv: Levels, mem: int)
      returns (ok: bool)
      requires Valid()
      modifies this
      ensures Valid() && Tables() == CtxAdd(old(Tables()), apid, ctid, level, trace, pos, handle, desc, lv, mem)
      ensures ok <==> Acceptable(old(Tables()), apid, ctid, level, trace)
    {
      CtxAddConsistent(Tables(), apid, ctid, level, trace, pos, handle, desc, lv, mem);
      var i := FindApplication(apps, apid);
      ok := apid != 0 && ctid != 0 && LOG_DEFAULT <= level <= LOG_VERBOSE && TRACE_DEFAULT <= trace <= TRACE_ON && i >= 0;
      if ok {
        var k := FindContext(ctxs, apid, ctid);
        if k >= 0 {
          ctxs := ctxs[k := CtxEntry(ctxs[k], false, level, trace, pos, handle, desc, lv)];
        } else {
          var c := CtxEntry(Ctx(apid, ctid, 0, 0, 0, 0, Null, mem, false), true, level, trace, pos, handle, desc, lv);
          AddNewContext(i, c);
        }
      }
    }

    /** A new context: counted, appended, and sorted in. */
    method AddNewContext(i: nat, c: Ctx)
      requires Increasing(CtxKeys(ctxs)) && i < |apps|
      requires var p := Place(CtxKeys(ctxs), CtxNum(c)); Increasing(CtxKeys(ctxs[..p] + [c] + ctxs[p..]))
      modifies this
      ensures apps == old(apps)[i := old(apps)[i].(numContexts := old(apps)[i].numContexts + 1)]
      ensures var p := Place(CtxKeys(old(ctxs)), CtxNum(c)); ctxs == old(ctxs)[..p] + [c] + old(ctxs)[p..]
    {
      apps := apps[i := apps[i].(numContexts := apps[i].numContexts + 1)];
      var sorted := SortTable(ctxs + [c], CtxKey());
      CtxSettledByAnySort(ctxs, c, sorted);
      ctxs := sorted;
    }

    /** dlt_daemon_context_del */
    method ContextDel(k: nat)
      requires Increasing(AppKeys(apps)) && k < |ctxs|
      modifies this
      ensures Tables() == CtxDel(old(Tables()), k)
    {
      var i := FindApplication(apps, ctxs[k].apid);
      ctxs := ctxs[..k] + ctxs[k + 1..];
      if i >= 0 {
        apps := apps[i := apps[i].(numContexts := apps[i].numContexts - 1)];
      }
    }

    /** dlt_daemon_contexts_clear */
    method ContextsClear()
      modifies this
      ensures Tables() == CtxsClear(old(Tables()))
    {
      ctxs := [];
      for i := 0 to |apps|
        invariant ctxs == [] && |apps| == |old(apps)|
        invariant forall j :: 0 <= j < |apps| ==> apps[j] == if j < i then old(apps)[j].(numContexts := 0) else old(apps)[j]
      {
        apps := apps[i := apps[i].(numContexts := 0)];
      }
    }

    /** The loop that deletes an application's contexts, from the last to the first. */
    method DeleteBlock(base: nat, n: nat)
      requires Increasing(AppKeys(apps)) && base + n <= |ctxs|
      modifies this
      ensures Tables() == DeleteDown(old(Tables()), base, n)
    {
      var i: nat := n;
      while i > 0
        invariant i <= n && base + i <= |ctxs| && Increasing(AppKeys(apps))
        invariant DeleteDown(Tables(), base, i) == DeleteDown(old(Tables()), base, n)
      {
        i := i - 1;
        DeleteLast(base, i);
      }
    }

    /** One round of it. */
    method DeleteLast(base: nat, i: nat)
      requires Increasing(AppKeys(apps)) && base + i < |ctxs|
      modifies this
      ensures Increasing(AppKeys(apps)) && base + i <= |ctxs|
      ensures DeleteDown(Tables(), base, i) == DeleteDown(old(Tables()), base, i + 1)
    {
      SameKeys(Tables(), base + i);
      ContextDel(base + i);
    }

    /** dlt_daemon_process_user_message_unregister_application */
    method UnregisterApplication(apid: IdNum)
      requires Sound(Tables())
      modifies this
      ensures Sound(Tables()) && Tables() == UnregisterApp(old(Tables()), apid)
    {
      var i := FindApplication(apps, apid);
      if i >= 0 {
        UnregisterExact(Tables(), apid);
        BlockTheorem(apps, ctxs, i);
        var base := OffsetBase(apps, i);
        var n := apps[i].numContexts;
        DeleteKeepsApps(Tables(), base, n);
        DeleteBlock(base, n);
        ApplicationDel(i);
      }
    }

    /** dlt_daemon_process_user_message_unregister_context */
    method UnregisterContext(apid: IdNum, ctid: IdNum)
      requires Valid()
      modifies this
      ensures Valid() && Tables() == UnregisterCtx(old(Tables()), apid, ctid)
    {
      var k := FindContext(ctxs, apid, ctid);
      if k >= 0 && !ctxs[k].predefined {
        CtxDelConsistent(Tables(), k);
        ContextDel(k);
      }
    }
  }

  lemma SameKeys(u: Users, k: nat)
    requires k < |u.ctxs|
    ensures AppKeys(CtxDel(u, k).apps) == AppKeys(u.apps)
  {
  }
}
