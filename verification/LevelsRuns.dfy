/**
 Whole runs of the registry: registrations, accepted connections, broken pipes,
 loads, control requests and resets, in any order and with any answers of the user handles.
 */
module LevelsRuns {
  import opened Bytes
  import opened Ids
  import opened RegistryTables
  import opened RegistrySpec
  import opened RegistryInvariants
  import opened RegistryHandles
  import opened LevelsSpec
  import opened LevelsProofs

  /** What accept() or open() hands out: none, or a descriptor behind the standard ones. */
  type Descriptor = h: int | h == FD_INIT || h >= FD_MINIMUM witness FD_INIT

  datatype Event =
    | AppRegisters(apid: Id, pid: int, desc: Text, fd: Descriptor, owns: bool)
    | CtxRegisters(apid: Id, ctid: Id, level: int, trace: int, pos: int, desc: Text, storage: int)
    | AppLeaves(apid: Id)
    | CtxLeaves(apid: Id, ctid: Id)
    | Accepts(fd: Descriptor)
    | PipeBreaks(apid: Id)
    | AppLoads(apid: Id, desc: Text)
    | CtxLoads(apid: Id, ctid: Id, level: int, trace: int, desc: Text, storage: int)
    | LoadsDone
    | Sets(apid: Id, ctid: Id, field: Field, request: byte)
    | SetsAll(field: Field, request: byte)
    | SetsDefault(field: Field, request: byte)
    | Resets
    | AppSets(apid: Id, level: int, trace: int)
    | ContextsClear
    | TablesClear

  // ---------------------------------------------------------------- the invariant

  predicate CtxWithin(c: Ctx, cfg: Config) {
    c.level <= cfg.maxLevel && c.trace <= cfg.maxTrace
  }

  predicate SentWithin(s: Sent, cfg: Config) {
    (s.byStorage || s.level <= cfg.maxLevel) && s.trace <= cfg.maxTrace
  }

  /** Nothing is above the configured limits: no default, no context, and nothing sent unless a storage level decided. */
  ghost predicate Ceiling(m: Machine, cfg: Config) {
    && m.lv.force && m.lv.defaultLevel <= cfg.maxLevel && m.lv.defaultTrace <= cfg.maxTrace
    && (forall k :: 0 <= k < |m.u.ctxs| ==> CtxWithin(m.u.ctxs[k], cfg))
    && (forall j :: 0 <= j < |m.sent| ==> SentWithin(m.sent[j], cfg))
  }

  /** Every application has a live handle or none. */
  ghost predicate CleanHandles(apps: seq<App>) {
    forall i :: 0 <= i < |apps| ==> Live(apps[i].handle) || apps[i].handle == FD_INIT
  }

  /** `limited`: whether the run is to stay below the limits. */
  ghost predicate Kept(m: Machine, cfg: Config, limited: bool) {
    && Sound(m.u) && NormalIds(m.u.ctxs) && CleanHandles(m.u.apps)
    && (limited ==> Ceiling(m, cfg))
  }

  /** Enforcement is on and the limits are levels. */
  predicate Enforced(cfg: Config) {
    cfg.enforce && 0 <= cfg.maxLevel < 128 && 0 <= cfg.maxTrace < 128
  }

  // ---------------------------------------------------------------- levels

  lemma RequestedWithin(request: byte, f: Field, cfg: Config)
    requires Enforced(cfg)
    ensures var v: int := request;
            Requested(request, f, cfg) == GetStatus(request, Limit(cfg, f)) == if v <= Limit(cfg, f) then v else Limit(cfg, f)
  {
  }

  /** Two tables with the same ids. */
  lemma SameIdsNormal(a: seq<Ctx>, b: seq<Ctx>)
    requires NormalIds(a) && SameCtxIds(a, b)
    ensures NormalIds(b)
  {
  }

  lemma SendHandles(m: Machine, k: nat, cfg: Config)
    requires k < |m.u.ctxs| && CleanHandles(m.u.apps)
    ensures CleanHandles(SendLevel(m, k, cfg).0.u.apps)
  {
  }

  lemma SendKept(m: Machine, k: nat, cfg: Config, limited: bool)
    requires Kept(m, cfg, limited) && k < |m.u.ctxs|
    ensures Kept(SendLevel(m, k, cfg).0, cfg, limited)
  {
    var r := SendLevel(m, k, cfg).0;
    SendLevelDoes(m, k, cfg);
    SendHandles(m, k, cfg);
    assert NormalIds(r.u.ctxs);
  }

  lemma PutKept(m: Machine, k: nat, c: Ctx, cfg: Config, limited: bool)
    requires Kept(m, cfg, limited) && k < |m.u.ctxs| && (limited ==> CtxWithin(c, cfg))
    requires c.apid == m.u.ctxs[k].apid && c.ctid == m.u.ctxs[k].ctid && c.handle == m.u.ctxs[k].handle
    ensures Kept(Put(m, k, c), cfg, limited)
  {
    PutSound(m.u, k, c);
  }

  lemma SetOneKept(m: Machine, k: nat, f: Field, v: int, cfg: Config, limited: bool)
    requires Kept(m, cfg, limited) && k < |m.u.ctxs| && (limited ==> v <= Limit(cfg, f))
    ensures Kept(SetOne(m, k, f, v, cfg), cfg, limited)
  {
    var c := m.u.ctxs[k];
    if Live(c.handle) {
      var m1 := Put(m, k, With(c, f, v));
      PutKept(m, k, With(c, f, v), cfg, limited);
      SendKept(m1, k, cfg, limited);
      var s := SendLevel(m1, k, cfg).0;
      PutKept(s, k, With(s.u.ctxs[k], f, Get(c, f)), cfg, limited);
    }
  }

  lemma {:induction false} ScanKept(m: Machine, q: Query, f: Field, v: int, cfg: Config, k: nat, limited: bool)
    requires Kept(m, cfg, limited) && k <= |m.u.ctxs| && (limited ==> v <= Limit(cfg, f))
    ensures Kept(ScanSet(m, q, f, v, cfg, k), cfg, limited)
    decreases |m.u.ctxs| - k
  {
    if k < |m.u.ctxs| {
      var cmp := Cmp(m.u.ctxs[k], q);
      if cmp == 0 {
        SetOneKept(m, k, f, v, cfg, limited);
        ScanKept(SetOne(m, k, f, v, cfg), q, f, v, cfg, k + 1, limited);
      } else if !(cmp > 0 && q.byApp) {
        ScanKept(m, q, f, v, cfg, k + 1, limited);
      }
    }
  }

  lemma SetRequestKept(m: Machine, apid: Id, ctid: Id, f: Field, request: byte, cfg: Config, limited: bool)
    requires Kept(m, cfg, limited) && (limited ==> Enforced(cfg))
    ensures Kept(SetRequest(m, apid, ctid, f, request, cfg), cfg, limited)
  {
    var v := Requested(request, f, cfg);
    if limited {
      RequestedWithin(request, f, cfg);
    }
    if EndsInStar(apid) && ctid[0] == 0 {
      ScanKept(m, Query(true, apid, Strlen(apid) - 1), f, v, cfg, 0, limited);
    } else if EndsInStar(ctid) && apid[0] == 0 {
      ScanKept(m, Query(false, ctid, Strlen(ctid) - 1), f, v, cfg, 0, limited);
    } else if apid[0] != 0 && !EndsInStar(apid) && ctid[0] == 0 {
      ScanKept(m, Query(true, apid, 4), f, v, cfg, 0, limited);
    } else if ctid[0] != 0 && !EndsInStar(ctid) && apid[0] == 0 {
      ScanKept(m, Query(false, ctid, 4), f, v, cfg, 0, limited);
    } else {
      var k := FindCtx(m.u.ctxs, Num(apid), Num(ctid));
      if k >= 0 {
        SetOneKept(m, k, f, v, cfg, limited);
      }
    }
  }

  lemma {:induction false} EveryKept(m: Machine, f: Field, v: int, cfg: Config, k: nat, limited: bool)
    requires Kept(m, cfg, limited) && k <= |m.u.ctxs| && (limited ==> v <= Limit(cfg, f))
    ensures Kept(SetEvery(m, f, v, cfg, k), cfg, limited)
    decreases |m.u.ctxs| - k
  {
    if k < |m.u.ctxs| {
      if Live(m.u.ctxs[k].handle) {
        var m1 := Put(m, k, With(m.u.ctxs[k], f, v));
        PutKept(m, k, With(m.u.ctxs[k], f, v), cfg, limited);
        SendKept(m1, k, cfg, limited);
        EveryKept(SendLevel(m1, k, cfg).0, f, v, cfg, k + 1, limited);
      } else {
        EveryKept(m, f, v, cfg, k + 1, limited);
      }
    }
  }

  lemma {:induction false} DefaultsKept(m: Machine, cfg: Config, k: nat, limited: bool)
    requires Kept(m, cfg, limited) && k <= |m.u.ctxs|
    ensures Kept(SendDefaults(m, cfg, k), cfg, limited)
    decreases |m.u.ctxs| - k
  {
    if k < |m.u.ctxs| {
      SendKept(m, k, cfg, limited);
      var c := m.u.ctxs[k];
      var m1 := if (c.level == LOG_DEFAULT || c.trace == TRACE_DEFAULT) && Live(c.handle) then SendLevel(m, k, cfg).0 else m;
      DefaultsKept(m1, cfg, k + 1, limited);
    }
  }

  /** Setting one context of the block, as the application asked. */
  lemma BlockStepKept(m: Machine, k: nat, level: int, trace: int, cfg: Config, limited: bool)
    requires Kept(m, cfg, limited) && k < |m.u.ctxs| && (limited ==> level <= cfg.maxLevel && trace <= cfg.maxTrace)
    ensures Kept(SetBlockStep(m, k, level, trace, cfg), cfg, limited)
  {
    var c := m.u.ctxs[k];
    var m1 := Put(m, k, c.(level := level, trace := trace));
    PutKept(m, k, c.(level := level, trace := trace), cfg, limited);
    if Live(c.handle) {
      SendKept(m1, k, cfg, limited);
      var s := SendLevel(m1, k, cfg).0;
      PutKept(s, k, s.u.ctxs[k].(level := c.level, trace := c.trace), cfg, limited);
    }
  }

  lemma {:induction false} BlockKept(m: Machine, off: nat, i: nat, n: nat, level: int, trace: int, cfg: Config, limited: bool)
    requires Kept(m, cfg, limited) && i <= n && off + n <= |m.u.ctxs|
    requires limited ==> level <= cfg.maxLevel && trace <= cfg.maxTrace
    ensures Kept(SetBlock(m, off, i, n, level, trace, cfg), cfg, limited)
    decreases n - i
  {
    if i < n {
      BlockStepKept(m, off + i, level, trace, cfg, limited);
      var r := SetBlockStep(m, off + i, level, trace, cfg);
      BlockKept(r, off, i + 1, n, level, trace, cfg, limited);
      BlockNext(m, off, i, n, level, trace, cfg, r);
    }
  }

  // ---------------------------------------------------------------- registrations

  lemma BrokenKept(m: Machine, apid: IdNum, cfg: Config, limited: bool)
    requires Kept(m, cfg, limited)
    ensures Kept(Broken(m, apid), cfg, limited)
  {
    var i := FindApp(m.u.apps, apid);
    if i >= 0 {
      ResetConsistent(m.u, i);
      ResetOwned(m.u, i);
      ResetIds(m.u, i);
      SameIdsNormal(m.u.ctxs, Broken(m, apid).u.ctxs);
    }
  }

  lemma InvalidateKept(m: Machine, fd: Descriptor, cfg: Config, limited: bool)
    requires Kept(m, cfg, limited)
    ensures Kept(m.(u := Invalidate(m.u, fd)), cfg, limited)
  {
    InvalidateConsistent(m.u, fd);
    InvalidateOwned(m.u, fd);
    SameIdsNormal(m.u.ctxs, Invalidate(m.u, fd).ctxs);
  }

  lemma UpdateChanges(u: Users, j: nat, pid: int, desc: Text, handle: Descriptor, owns: bool)
    requires CleanHandles(u.apps) && j < |u.apps|
    ensures var r := AppUpdate(u, j, pid, desc, handle, owns); CleanHandles(r.apps) && OnlyHandles(u, r)
  {
  }

  lemma AppAddChanges(u: Users, apid: IdNum, pid: int, desc: Text, handle: Descriptor, owns: bool)
    requires CleanHandles(u.apps) && Increasing(AppKeys(u.apps))
    ensures var r := AppAdd(u, apid, pid, desc, handle, owns);
            && CleanHandles(r.apps) && |r.ctxs| == |u.ctxs|
            && (forall k :: 0 <= k < |u.ctxs| ==> SameButHandle(u.ctxs[k], r.ctxs[k]))
  {
    if apid != 0 {
      var i := FindApp(u.apps, apid);
      if i >= 0 {
        UpdateChanges(u, i, pid, desc, handle, owns);
      } else {
        var e := App(apid, 0, FD_INIT, false, Null, 0);
        var v := u.(apps := u.apps + [e]);
        UpdateChanges(v, |u.apps|, pid, desc, handle, owns);
        SameApps(u, e, pid, desc, handle, owns);
      }
    }
  }

  lemma AppAddKept(m: Machine, apid: IdNum, pid: int, desc: Text, handle: Descriptor, owns: bool, cfg: Config, limited: bool)
    requires Kept(m, cfg, limited)
    ensures Kept(m.(u := AppAdd(m.u, apid, pid, desc, handle, owns)), cfg, limited)
  {
    AppAddConsistent(m.u, apid, pid, desc, handle, owns);
    AppAddOwned(m.u, apid, pid, desc, handle, owns);
    AppAddChanges(m.u, apid, pid, desc, handle, owns);
    SameIdsNormal(m.u.ctxs, AppAdd(m.u, apid, pid, desc, handle, owns).ctxs);
  }

  lemma RegisterAppKept(m: Machine, apid: IdNum, pid: int, desc: Text, handle: Descriptor, owns: bool, cfg: Config, limited: bool)
    requires Kept(m, cfg, limited)
    ensures Kept(RegisterApp(m, apid, pid, desc, handle, owns), cfg, limited)
  {
    AppAddKept(m, apid, pid, desc, handle, owns, cfg, limited);
    var m2 := Answer(m.(u := AppAdd(m.u, apid, pid, desc, handle, owns))).0;
    assert Kept(m2, cfg, limited);
    BrokenKept(m2, apid, cfg, limited);
  }

  /** What holds of every context in the table. */
  ghost predicate Fine(c: Ctx, cfg: Config, limited: bool) {
    NormalCtx(c) && (limited ==> CtxWithin(c, cfg))
  }

  ghost predicate AllFine(ctxs: seq<Ctx>, cfg: Config, limited: bool) {
    forall k :: 0 <= k < |ctxs| ==> Fine(ctxs[k], cfg, limited)
  }

  /** The entry that is stored has its ids, and its levels are clamped when they are forced. */
  lemma EntryFine(m: Machine, apid: Id, ctid: Id, c: Ctx, isNew: bool, level: int, trace: int, pos: int, handle: int,
                  desc: Text, cfg: Config, limited: bool)
    requires c.apid == Num(apid) && c.ctid == Num(ctid) && (limited ==> Ceiling(m, cfg) && (isNew || CtxWithin(c, cfg)))
    ensures Fine(CtxEntry(c, isNew, level, trace, pos, handle, desc, m.lv), cfg, limited)
  {
    NumRoundTrip(apid);
    NumRoundTrip(ctid);
  }

  lemma InsertFine(ctxs: seq<Ctx>, c: Ctx, p: nat, cfg: Config, limited: bool)
    requires AllFine(ctxs, cfg, limited) && Fine(c, cfg, limited) && p <= |ctxs|
    ensures AllFine(ctxs[..p] + [c] + ctxs[p..], cfg, limited)
  {
    var r := ctxs[..p] + [c] + ctxs[p..];
    assert forall k :: 0 <= k < |r| ==> r[k] == if k < p then ctxs[k] else if k == p then c else ctxs[k - 1];
  }

  lemma CtxAddChanges(m: Machine, apid: Id, ctid: Id, level: int, trace: int, pos: int, handle: int, desc: Text,
                      storage: int, cfg: Config, limited: bool)
    requires Kept(m, cfg, limited)
    ensures var r := CtxAdd(m.u, Num(apid), Num(ctid), level, trace, pos, handle, desc, m.lv, storage);
            AllFine(r.ctxs, cfg, limited) && CleanHandles(r.apps)
  {
    var u := m.u;
    assert AllFine(u.ctxs, cfg, limited);
    if Acceptable(u, Num(apid), Num(ctid), level, trace) {
      var k := FindCtx(u.ctxs, Num(apid), Num(ctid));
      if k >= 0 {
        EntryFine(m, apid, ctid, u.ctxs[k], false, level, trace, pos, handle, desc, cfg, limited);
      } else {
        var blank := Ctx(Num(apid), Num(ctid), 0, 0, 0, 0, Null, storage, false);
        var c := CtxEntry(blank, true, level, trace, pos, handle, desc, m.lv);
        EntryFine(m, apid, ctid, blank, true, level, trace, pos, handle, desc, cfg, limited);
        InsertFine(u.ctxs, c, Place(CtxKeys(u.ctxs), CtxNum(c)), cfg, limited);
      }
    }
  }

  lemma CtxAddKept(m: Machine, apid: Id, ctid: Id, level: int, trace: int, pos: int, handle: int, desc: Text,
                   storage: int, cfg: Config, limited: bool)
    requires Kept(m, cfg, limited)
    requires var i := FindApp(m.u.apps, Num(apid)); i >= 0 && Live(handle) ==> m.u.apps[i].handle == handle
    ensures Kept(m.(u := CtxAdd(m.u, Num(apid), Num(ctid), level, trace, pos, handle, desc, m.lv, storage)), cfg, limited)
  {
    CtxAddConsistent(m.u, Num(apid), Num(ctid), level, trace, pos, handle, desc, m.lv, storage);
    CtxAddOwned(m.u, Num(apid), Num(ctid), level, trace, pos, handle, desc, m.lv, storage);
    CtxAddChanges(m, apid, ctid, level, trace, pos, handle, desc, storage, cfg, limited);
  }

  lemma RegisterCtxKept(m: Machine, apid: Id, ctid: Id, level: int, trace: int, pos: int, desc: Text, storage: int,
                        cfg: Config, limited: bool)
    requires Kept(m, cfg, limited)
    ensures Kept(RegisterCtx(m, Num(apid), Num(ctid), level, trace, pos, desc, storage, cfg), cfg, limited)
  {
    var i := FindApp(m.u.apps, Num(apid));
    var level1 := if level == NOT_SET then LOG_DEFAULT else level;
    var trace1 := if trace == NOT_SET then TRACE_DEFAULT else trace;
    if i >= 0 && Acceptable(m.u, Num(apid), Num(ctid), level1, trace1) {
      CtxAddKept(m, apid, ctid, level1, trace1, pos, m.u.apps[i].handle, desc, storage, cfg, limited);
      var u := CtxAdd(m.u, Num(apid), Num(ctid), level1, trace1, pos, m.u.apps[i].handle, desc, m.lv, storage);
      FinishKept(m.(u := u), Num(apid), Num(ctid), storage, level1 == LOG_DEFAULT || trace1 == TRACE_DEFAULT, cfg, limited);
    }
  }

  lemma FinishKept(m: Machine, apid: IdNum, ctid: IdNum, storage: int, ask: bool, cfg: Config, limited: bool)
    requires Kept(m, cfg, limited)
    ensures Kept(FinishCtx(m, apid, ctid, storage, ask, cfg), cfg, limited)
  {
    var k := FindCtx(m.u.ctxs, apid, ctid);
    if k >= 0 {
      PutKept(m, k, m.u.ctxs[k].(storage := storage), cfg, limited);
      SendKept(Put(m, k, m.u.ctxs[k].(storage := storage)), k, cfg, limited);
    }
  }

  // ---------------------------------------------------------------- unregistering

  /** Dropping entries keeps what holds of each entry. */
  lemma FewerKept(m: Machine, u: Users, cfg: Config, limited: bool)
    requires Kept(m, cfg, limited) && Sound(u) && CleanHandles(u.apps)
    requires forall k :: 0 <= k < |u.ctxs| ==> u.ctxs[k] in m.u.ctxs
    ensures Kept(m.(u := u), cfg, limited)
  {
  }

  lemma {:induction false} WithoutIsPart(ctxs: seq<Ctx>, apid: IdNum)
    ensures forall k :: 0 <= k < |Without(ctxs, apid)| ==> Without(ctxs, apid)[k] in ctxs
  {
    if ctxs != [] {
      WithoutIsPart(ctxs[1..], apid);
    }
  }

  lemma UnregisterAppKept(m: Machine, apid: IdNum, cfg: Config, limited: bool)
    requires Kept(m, cfg, limited)
    ensures Kept(m.(u := UnregisterApp(m.u, apid)), cfg, limited)
  {
    if FindApp(m.u.apps, apid) >= 0 {
      UnregisterExact(m.u, apid);
      WithoutIsPart(m.u.ctxs, apid);
      FewerKept(m, UnregisterApp(m.u, apid), cfg, limited);
    }
  }

  lemma UnregisterCtxKept(m: Machine, apid: IdNum, ctid: IdNum, cfg: Config, limited: bool)
    requires Kept(m, cfg, limited)
    ensures Kept(m.(u := UnregisterCtx(m.u, apid, ctid)), cfg, limited)
  {
    var k := FindCtx(m.u.ctxs, apid, ctid);
    if k >= 0 && !m.u.ctxs[k].predefined {
      CtxDelSound(m.u, k);
      FewerKept(m, CtxDel(m.u, k), cfg, limited);
    }
  }

  lemma ClearsKept(m: Machine, cfg: Config, limited: bool)
    requires Kept(m, cfg, limited)
    ensures Kept(m.(u := CtxsClear(m.u)), cfg, limited)
    ensures Kept(m.(u := AppsClear(CtxsClear(m.u))), cfg, limited)
  {
    ClearsConsistent(m.u);
    SameHandlesOwned(m.u, CtxsClear(m.u).apps);
    FewerContextsOwned(m.u.(apps := CtxsClear(m.u).apps), []);
  }

  // ---------------------------------------------------------------- runs

  function Step(m: Machine, e: Event, cfg: Config): Machine
    requires Sound(m.u) && NormalIds(m.u.ctxs)
  {
    match e
    case AppRegisters(apid, pid, desc, fd, owns) => RegisterApp(m, Num(apid), pid, desc, fd, owns)
    case CtxRegisters(apid, ctid, level, trace, pos, desc, storage) =>
      RegisterCtx(m, Num(apid), Num(ctid), level, trace, pos, desc, storage, cfg)
    case AppLeaves(apid) => m.(u := UnregisterApp(m.u, Num(apid)))
    case CtxLeaves(apid, ctid) => m.(u := UnregisterCtx(m.u, Num(apid), Num(ctid)))
    case Accepts(fd) => m.(u := Invalidate(m.u, fd))
    case PipeBreaks(apid) => Broken(m, Num(apid))
    case AppLoads(apid, desc) => m.(u := AppAdd(m.u, Num(apid), 0, desc, FD_INIT, false))
    case CtxLoads(apid, ctid, level, trace, desc, storage) =>
      m.(u := CtxAdd(m.u, Num(apid), Num(ctid), level, trace, 0, 0, desc, m.lv, storage))
    case LoadsDone => m.(lv := m.lv.(cfgLoaded := true))
    case Sets(apid, ctid, field, request) => SetRequest(m, apid, ctid, field, request, cfg)
    case SetsAll(field, request) => SetAllRequest(m, field, request, cfg)
    case SetsDefault(field, request) => SetDefaultRequest(m, field, request, cfg)
    case Resets => FactoryReset(m, cfg)
    case AppSets(apid, level, trace) => SetAppWide(m, Num(apid), level, trace, cfg)
    case ContextsClear => m.(u := CtxsClear(m.u))
    case TablesClear => m.(u := AppsClear(CtxsClear(m.u)))
  }

  /** An application-wide request is not clamped, so only those within the limits are admitted to a limited run. */
  predicate Admitted(e: Event, cfg: Config, limited: bool) {
    limited ==> Enforced(cfg) && (e.AppSets? ==> e.level <= cfg.maxLevel && e.trace <= cfg.maxTrace)
  }

  lemma AppSetsKept(m: Machine, apid: IdNum, level: int, trace: int, cfg: Config, limited: bool)
    requires Kept(m, cfg, limited) && (limited ==> level <= cfg.maxLevel && trace <= cfg.maxTrace)
    ensures Kept(SetAppWide(m, apid, level, trace, cfg), cfg, limited)
  {
    var i := FindApp(m.u.apps, apid);
    if i >= 0 {
      BlockTheorem(m.u.apps, m.u.ctxs, i);
      BlockKept(m, Offset(m.u.apps, i), 0, m.u.apps[i].numContexts, level, trace, cfg, limited);
    }
  }

  lemma DefaultRequestsKept(m: Machine, f: Field, request: byte, cfg: Config, limited: bool)
    requires Kept(m, cfg, limited) && (limited ==> Enforced(cfg))
    ensures Kept(SetAllRequest(m, f, request, cfg), cfg, limited)
    ensures Kept(SetDefaultRequest(m, f, request, cfg), cfg, limited)
    ensures Kept(FactoryReset(m, cfg), cfg, limited)
  {
    if limited {
      RequestedWithin(request, f, cfg);
    }
    EveryKept(m, f, if cfg.enforce then GetStatus(request, Limit(cfg, f)) else Int8(request), cfg, 0, limited);
    var v := if cfg.enforce then GetStatus(request, Limit(cfg, f)) else request;
    DefaultsKept(m.(lv := SetDefault(m.lv, f, v)), cfg, 0, limited);
    DefaultsKept(m.(lv := m.lv.(defaultLevel := cfg.maxLevel, defaultTrace := cfg.maxTrace, force := cfg.enforce)), cfg, 0, limited);
  }

  /** Events that change the tables. */
  predicate OfTables(e: Event) {
    e.AppRegisters? || e.CtxRegisters? || e.AppLeaves? || e.CtxLeaves? || e.Accepts? || e.PipeBreaks? || e.AppLoads? || e.CtxLoads?
    || e.ContextsClear? || e.TablesClear?
  }

  lemma TablesKept(m: Machine, e: Event, cfg: Config, limited: bool)
    requires Kept(m, cfg, limited) && OfTables(e)
    ensures Kept(Step(m, e, cfg), cfg, limited)
  {
    match e
    case AppRegisters(apid, pid, desc, fd, owns) => RegisterAppKept(m, Num(apid), pid, desc, fd, owns, cfg, limited);
    case CtxRegisters(apid, ctid, level, trace, pos, desc, storage) =>
      RegisterCtxKept(m, apid, ctid, level, trace, pos, desc, storage, cfg, limited);
    case AppLeaves(apid) => UnregisterAppKept(m, Num(apid), cfg, limited);
    case CtxLeaves(apid, ctid) => UnregisterCtxKept(m, Num(apid), Num(ctid), cfg, limited);
    case Accepts(fd) => InvalidateKept(m, fd, cfg, limited);
    case PipeBreaks(apid) => BrokenKept(m, Num(apid), cfg, limited);
    case AppLoads(apid, desc) => AppAddKept(m, Num(apid), 0, desc, FD_INIT, false, cfg, limited);
    case CtxLoads(apid, ctid, level, trace, desc, storage) =>
      CtxAddKept(m, apid, ctid, level, trace, 0, 0, desc, storage, cfg, limited);
    case ContextsClear => ClearsKept(m, cfg, limited);
    case TablesClear => ClearsKept(m, cfg, limited);
  }

  lemma RequestsKept(m: Machine, e: Event, cfg: Config, limited: bool)
    requires Kept(m, cfg, limited) && Admitted(e, cfg, limited) && !OfTables(e)
    ensures Kept(Step(m, e, cfg), cfg, limited)
  {
    match e
    case LoadsDone =>
    case Sets(apid, ctid, field, request) => SetRequestKept(m, apid, ctid, field, request, cfg, limited);
    case SetsAll(field, request) => DefaultRequestsKept(m, field, request, cfg, limited);
    case SetsDefault(field, request) => DefaultRequestsKept(m, field, request, cfg, limited);
    case Resets => DefaultRequestsKept(m, Level, 0, cfg, limited);
    case AppSets(apid, level, trace) => AppSetsKept(m, Num(apid), level, trace, cfg, limited);
  }

  lemma StepKept(m: Machine, e: Event, cfg: Config, limited: bool)
    requires Kept(m, cfg, limited) && Admitted(e, cfg, limited)
    ensures Kept(Step(m, e, cfg), cfg, limited)
  {
    if OfTables(e) {
      TablesKept(m, e, cfg, limited);
    } else {
      RequestsKept(m, e, cfg, limited);
    }
  }

  /** After start-up: empty tables, the defaults of the configuration. */
  function Started(cfg: Config, env: seq<SendResult>): Machine {
    Machine(Users([], []), Levels(cfg.maxLevel, cfg.maxTrace, cfg.enforce, false), env, [])
  }

  function Run(cfg: Config, env: seq<SendResult>, events: seq<Event>): (m: Machine)
    ensures Kept(m, cfg, false)
  {
    if events == [] then Started(cfg, env)
    else
      var n := |events| - 1;
      var m := Run(cfg, env, events[..n]);
      StepKept(m, events[n], cfg, false);
      Step(m, events[n], cfg)
  }

  // ---------------------------------------------------------------- main results

  /** In every reachable state the contexts of each application are one block at the sum of the preceding counts. */
  lemma ReachableBlocks(cfg: Config, env: seq<SendResult>, events: seq<Event>)
    ensures var u := Run(cfg, env, events).u;
            && Consistent(u.apps, u.ctxs)
            && forall i, k :: 0 <= i < |u.apps| && 0 <= k < |u.ctxs| ==>
                 (u.ctxs[k].apid == u.apps[i].apid <==>
                  Offset(u.apps, i) <= k < Offset(u.apps, i) + u.apps[i].numContexts)
  {
    var u := Run(cfg, env, events).u;
    forall i, k | 0 <= i < |u.apps| && 0 <= k < |u.ctxs|
      ensures u.ctxs[k].apid == u.apps[i].apid <==> Offset(u.apps, i) <= k < Offset(u.apps, i) + u.apps[i].numContexts
    {
      BlockTheorem(u.apps, u.ctxs, i);
    }
  }

  /** In every reachable state no two applications share a live handle, and a context with a live handle has its own application's. */
  lemma ReachableHandles(cfg: Config, env: seq<SendResult>, events: seq<Event>)
    ensures var u := Run(cfg, env, events).u;
            && (forall i, j :: 0 <= i < j < |u.apps| && Live(u.apps[i].handle) ==> u.apps[i].handle != u.apps[j].handle)
            && (forall i, k :: 0 <= i < |u.apps| && 0 <= k < |u.ctxs| && Live(u.ctxs[k].handle) ==>
                  (u.apps[i].apid == u.ctxs[k].apid <==> u.apps[i].handle == u.ctxs[k].handle))
  {
    var u := Run(cfg, env, events).u;
    forall i, k | 0 <= i < |u.apps| && 0 <= k < |u.ctxs| && Live(u.ctxs[k].handle)
      ensures u.apps[i].apid == u.ctxs[k].apid <==> u.apps[i].handle == u.ctxs[k].handle
    {
      var j :| 0 <= j < |u.apps| && u.apps[j].apid == u.ctxs[k].apid && u.apps[j].handle == u.ctxs[k].handle;
      OneOnly(u.apps, i, j);
    }
  }

  /** In every reachable state unregistering removes exactly the application and its contexts. */
  lemma ReachableUnregister(cfg: Config, env: seq<SendResult>, events: seq<Event>, apid: IdNum)
    ensures var u := Run(cfg, env, events).u;
            var (i, r) := (FindApp(u.apps, apid), UnregisterApp(u, apid));
            if i < 0 then r == u else r.apps == u.apps[..i] + u.apps[i + 1..] && r.ctxs == Without(u.ctxs, apid)
  {
    var u := Run(cfg, env, events).u;
    if FindApp(u.apps, apid) >= 0 {
      UnregisterExact(u, apid);
    }
  }

  /** With enforcement on, no run without a raising application-wide request lifts a level or trace status above its limit. */
  lemma {:induction false} ForcedCeiling(cfg: Config, env: seq<SendResult>, events: seq<Event>)
    requires Enforced(cfg) && forall j :: 0 <= j < |events| ==> Admitted(events[j], cfg, true)
    ensures Kept(Run(cfg, env, events), cfg, true)
  {
    if events != [] {
      var n := |events| - 1;
      ForcedCeiling(cfg, env, events[..n]);
      StepKept(Run(cfg, env, events[..n]), events[n], cfg, true);
    }
  }
}
