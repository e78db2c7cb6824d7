/**
 What registrations and level requests come to, said without the functions that
 compute it: who holds which handle, which value a request sets, what the
 applications are told, and what a broken pipe or a failed message leaves.
 */
module LevelsMeaning {
  import opened Bytes
  import opened Ids
  import opened RegistryTables
  import opened RegistrySpec
  import opened RegistryInvariants
  import opened RegistryHandles
  import opened RegistryMaps
  import opened LevelsSpec
  import opened LevelsProofs

  // ---------------------------------------------------------------- one message

  /** What an application is told: a storage level counts if it is kept up and set, and then the larger level is sent;
      otherwise a level or trace status on default becomes the daemon's default. */
  lemma EffectiveMeans(c: Ctx, lv: Levels, cfg: Config)
    ensures var s := Effective(c, lv, cfg);
            && s.handle == c.handle && s.pos == c.pos
            && (s.byStorage <==> cfg.maintainStorage && c.storage != -1)
            && (s.byStorage ==> s.level >= c.level && s.level >= c.storage && (s.level == c.level || s.level == c.storage))
            && (!s.byStorage ==> s.level == if c.level == -1 then lv.defaultLevel else c.level)
            && s.trace == if c.trace == -1 then lv.defaultTrace else c.trace
  {
  }

  /** The application without its handle, and no context with that handle. */
  function HandleGone(u: Users, apid: IdNum, h: int): (r: Users)
    ensures |r.apps| == |u.apps| && |r.ctxs| == |u.ctxs|
    ensures forall i :: 0 <= i < |u.apps| ==>
              r.apps[i] == if u.apps[i].apid == apid then u.apps[i].(handle := FD_INIT, owns := false) else u.apps[i]
    ensures forall k :: 0 <= k < |u.ctxs| ==>
              r.ctxs[k] == if u.ctxs[k].handle == h then u.ctxs[k].(handle := FD_INIT) else u.ctxs[k]
  {
    Users(seq(|u.apps|, i requires 0 <= i < |u.apps| =>
            if u.apps[i].apid == apid then u.apps[i].(handle := FD_INIT, owns := false) else u.apps[i]),
          DropCtxHandle(u.ctxs, h))
  }

  /** A broken pipe takes the handle from the application and from every context that holds it. */
  lemma BrokenMeans(m: Machine, apid: IdNum)
    requires Consistent(m.u.apps, m.u.ctxs) && apid != 0 && apid in AppMap(m.u.apps)
    ensures var h := AppMap(m.u.apps)[apid].handle;
            Broken(m, apid) == m.(u := if h == FD_INIT then m.u else HandleGone(m.u, apid, h))
  {
    FindIsLookup(m.u.apps, apid);
    var i := FindApp(m.u.apps, apid);
    forall j | 0 <= j < |m.u.apps|
      ensures m.u.apps[j].apid == apid <==> j == i
    {
      OneOnly(m.u.apps, i, j);
    }
    var h := m.u.apps[i].handle;
    if h != FD_INIT {
      assert ResetHandle(m.u, i).apps == HandleGone(m.u, apid, h).apps;
    }
  }

  /** What happens next to a message. */
  function NextAnswer(m: Machine): SendResult {
    if m.env == [] then Accepted else m.env[0]
  }

  function Later(env: seq<SendResult>): seq<SendResult> {
    if env == [] then [] else env[1..]
  }

  /** A context with a live handle holds its application's, so after a broken pipe nobody holds it. */
  lemma BrokenAt(m: Machine, k: nat)
    requires Sound(m.u) && k < |m.u.ctxs| && Live(m.u.ctxs[k].handle)
    ensures var c := m.u.ctxs[k]; Broken(m, c.apid) == m.(u := HandleGone(m.u, c.apid, c.handle))
  {
    var c := m.u.ctxs[k];
    assert Known(m.u.apps, c.apid) && HasHandle(m.u.apps, c.apid, c.handle);
    var i :| 0 <= i < |m.u.apps| && m.u.apps[i].apid == c.apid && m.u.apps[i].handle == c.handle;
    AppAt(m.u.apps, i);
    BrokenMeans(m, c.apid);
  }

  /** Setting one context tells its application the new value. It stays if the message was accepted, is taken back if it
      failed, and a broken pipe takes the handle as well. A context without a live handle is left alone. */
  lemma SetOneMeans(m: Machine, k: nat, f: Field, v: int, cfg: Config)
    requires Sound(m.u) && k < |m.u.ctxs|
    ensures var (r, c) := (SetOne(m, k, f, v, cfg), m.u.ctxs[k]);
            if c.handle < 3 then r == m
            else r == m.(env := Later(m.env), sent := m.sent + [Effective(With(c, f, v), m.lv, cfg)],
                         u := match NextAnswer(m)
                              case Accepted => m.u.(ctxs := m.u.ctxs[k := With(c, f, v)])
                              case Failed => m.u
                              case BrokenPipe => HandleGone(m.u, c.apid, c.handle))
  {
    var c := m.u.ctxs[k];
    if Live(c.handle) {
      var m1 := Put(m, k, With(c, f, v));
      PutSound(m.u, k, With(c, f, v));
      BrokenAt(m1.(sent := m.sent + [Effective(With(c, f, v), m.lv, cfg)], env := Later(m.env)), k);
      assert m.u.ctxs[k := With(c, f, v)][k := c] == m.u.ctxs;
      assert HandleGone(m1.u, c.apid, c.handle).ctxs[k := c.(handle := FD_INIT)] == HandleGone(m.u, c.apid, c.handle).ctxs;
    }
  }

  // ---------------------------------------------------------------- requests for all contexts and for the defaults

  /** A request for all contexts that asks for a level, or for the default (255), sets and tells all that have a live handle. */
  lemma SetAllMeans(m: Machine, f: Field, request: byte, cfg: Config) returns (v: int)
    requires Unbroken(m)
    ensures AsksFor(request, f, cfg, v)
    ensures var r := SetAllRequest(m, f, request, cfg);
            if request <= (if f == Level then 6 else 1) || request == 255 then SetsChosen(m, LiveOnes(m.u.ctxs), f, v, cfg, 0, r)
            else r == m
  {
    v := if cfg.enforce then GetStatus(request, Limit(cfg, f)) else Int8(request);
    EveryAccepted(m, LiveOnes(m.u.ctxs), f, v, cfg, 0);
  }

  /** Telling who follows a default changes handles at most, whatever is answered. */
  lemma {:induction false} DefaultsOnlyTell(m: Machine, cfg: Config, k: nat)
    requires k <= |m.u.ctxs|
    ensures var r := SendDefaults(m, cfg, k); r.lv == m.lv && OnlyHandles(m.u, r.u)
    decreases |m.u.ctxs| - k
  {
    if k < |m.u.ctxs| {
      SendLevelDoes(m, k, cfg);
      var c := m.u.ctxs[k];
      var m1 := if (c.level == LOG_DEFAULT || c.trace == TRACE_DEFAULT) && Live(c.handle) then SendLevel(m, k, cfg).0 else m;
      DefaultsOnlyTell(m1, cfg, k + 1);
      OnlyHandlesTwice(m.u, m1.u, SendDefaults(m1, cfg, k + 1).u);
    }
  }

  lemma OnlyHandlesTwice(a: Users, b: Users, c: Users)
    requires OnlyHandles(a, b) && OnlyHandles(b, c)
    ensures OnlyHandles(a, c)
  {
    forall k | 0 <= k < |a.ctxs|
      ensures SameButHandle(a.ctxs[k], c.ctxs[k])
    {
      assert SameButHandle(a.ctxs[k], b.ctxs[k]) && SameButHandle(b.ctxs[k], c.ctxs[k]);
    }
  }

  /** The defaults are `lv` from now on, and if no pipe breaks exactly those that follow a default are told, and nothing is set. */
  ghost predicate DefaultsBecome(m: Machine, lv: Levels, cfg: Config, r: Machine) {
    && r.lv == lv && OnlyHandles(m.u, r.u)
    && (Unbroken(m) ==> r.u == m.u && r.sent == m.sent + DefaultsFrom(m.u.ctxs, lv, cfg, 0))
  }

  lemma DefaultsTold(m: Machine, lv: Levels, cfg: Config)
    ensures DefaultsBecome(m, lv, cfg, SendDefaults(m.(lv := lv), cfg, 0))
  {
    DefaultsOnlyTell(m.(lv := lv), cfg, 0);
    if Unbroken(m) {
      DefaultsAccepted(m.(lv := lv), cfg, 0);
    }
  }

  /** A request for a default, if it is a level, makes the value asked for the default; with enforcement the smaller of it and the limit. */
  lemma SetDefaultMeans(m: Machine, f: Field, request: byte, cfg: Config)
    ensures var (r, asked: int, limit) := (SetDefaultRequest(m, f, request, cfg), request, if f == Level then cfg.maxLevel else cfg.maxTrace);
            var v := if cfg.enforce && asked > limit then limit else asked;
            if asked <= (if f == Level then 6 else 1) then
              DefaultsBecome(m, if f == Level then m.lv.(defaultLevel := v) else m.lv.(defaultTrace := v), cfg, r)
            else r == m
  {
    var v := if cfg.enforce then GetStatus(request, Limit(cfg, f)) else request;
    DefaultsTold(m, SetDefault(m.lv, f, v), cfg);
  }

  /** A reset brings the configured defaults and the configured enforcement back. */
  lemma ResetMeans(m: Machine, cfg: Config)
    ensures DefaultsBecome(m, Levels(cfg.maxLevel, cfg.maxTrace, cfg.enforce, m.lv.cfgLoaded), cfg, FactoryReset(m, cfg))
  {
    DefaultsTold(m, Levels(cfg.maxLevel, cfg.maxTrace, cfg.enforce, m.lv.cfgLoaded), cfg);
  }

  // ---------------------------------------------------------------- the application-wide request

  /** One context of it: set and told, taken back if the message fails, and without a live handle set all the same. */
  lemma BlockStepMeans(m: Machine, k: nat, level: int, trace: int, cfg: Config)
    requires Sound(m.u) && k < |m.u.ctxs|
    ensures var (r, c) := (SetBlockStep(m, k, level, trace, cfg), m.u.ctxs[k]);
            var c' := c.(level := level, trace := trace);
            if c.handle < 3 then r == m.(u := m.u.(ctxs := m.u.ctxs[k := c']))
            else r == m.(env := Later(m.env), sent := m.sent + [Effective(c', m.lv, cfg)],
                         u := match NextAnswer(m)
                              case Accepted => m.u.(ctxs := m.u.ctxs[k := c'])
                              case Failed => m.u
                              case BrokenPipe => HandleGone(m.u, c.apid, c.handle))
  {
    var c := m.u.ctxs[k];
    if Live(c.handle) {
      var c' := c.(level := level, trace := trace);
      var m1 := Put(m, k, c');
      PutSound(m.u, k, c');
      BrokenAt(m1.(sent := m.sent + [Effective(c', m.lv, cfg)], env := Later(m.env)), k);
      assert m.u.ctxs[k := c'][k := c] == m.u.ctxs;
      assert HandleGone(m1.u, c.apid, c.handle).ctxs[k := c.(handle := FD_INIT)] == HandleGone(m.u, c.apid, c.handle).ctxs;
    }
  }

  /** What is told, in order, about the contexts `k` up to `end`. */
  function ToldBlock(ctxs: seq<Ctx>, level: int, trace: int, lv: Levels, cfg: Config, k: nat, end: nat): seq<Sent>
    requires k <= end <= |ctxs|
    decreases end - k
  {
    if k == end then []
    else (if Live(ctxs[k].handle) then [Effective(ctxs[k].(level := level, trace := trace), lv, cfg)] else [])
         + ToldBlock(ctxs, level, trace, lv, cfg, k + 1, end)
  }

  lemma {:induction false} ToldBlockSame(a: seq<Ctx>, b: seq<Ctx>, level: int, trace: int, lv: Levels, cfg: Config, k: nat, end: nat)
    requires k <= end <= |a| == |b| && forall j :: k <= j < end ==> a[j] == b[j]
    ensures ToldBlock(a, level, trace, lv, cfg, k, end) == ToldBlock(b, level, trace, lv, cfg, k, end)
    decreases end - k
  {
    if k < end {
      ToldBlockSame(a, b, level, trace, lv, cfg, k + 1, end);
    }
  }

  /** The contexts `k` up to `end` are set and told, and nothing else happens. */
  ghost predicate SetsBlock(m: Machine, level: int, trace: int, cfg: Config, k: nat, end: nat, r: Machine)
    requires k <= end <= |m.u.ctxs|
  {
    && r.u.apps == m.u.apps && |r.u.ctxs| == |m.u.ctxs| && r.lv == m.lv
    && (forall j: nat :: j < |m.u.ctxs| ==>
          r.u.ctxs[j] == if k <= j < end then m.u.ctxs[j].(level := level, trace := trace) else m.u.ctxs[j])
    && r.sent == m.sent + ToldBlock(m.u.ctxs, level, trace, m.lv, cfg, k, end)
  }

  lemma BlockStepAccepted(m: Machine, k: nat, level: int, trace: int, cfg: Config)
    requires k < |m.u.ctxs| && AllAccept(m)
    ensures var (r, c) := (SetBlockStep(m, k, level, trace, cfg), m.u.ctxs[k].(level := level, trace := trace));
            && AllAccept(r) && r.lv == m.lv && r.u == m.u.(ctxs := m.u.ctxs[k := c])
            && r.sent == if Live(c.handle) then m.sent + [Effective(c, m.lv, cfg)] else m.sent
  {
  }

  lemma {:induction false} BlockAccepted(m: Machine, off: nat, i: nat, n: nat, level: int, trace: int, cfg: Config)
    requires i <= n && off + n <= |m.u.ctxs| && AllAccept(m)
    ensures SetsBlock(m, level, trace, cfg, off + i, off + n, SetBlock(m, off, i, n, level, trace, cfg))
    decreases n - i
  {
    if i < n {
      var k, m1 := off + i, SetBlockStep(m, off + i, level, trace, cfg);
      BlockStepAccepted(m, k, level, trace, cfg);
      BlockAccepted(m1, off, i + 1, n, level, trace, cfg);
      ToldBlockSame(m.u.ctxs, m1.u.ctxs, level, trace, m.lv, cfg, k + 1, off + n);
    } else {
      assert m.sent + [] == m.sent;
    }
  }

  /** When all handles accept, an application-wide request sets every context of the application, whether or not it can be told, and no other. */
  lemma AppWideMeans(m: Machine, apid: IdNum, level: int, trace: int, cfg: Config)
    requires Consistent(m.u.apps, m.u.ctxs) && AllAccept(m) && apid != 0
    ensures var r := SetAppWide(m, apid, level, trace, cfg);
            && r.u.apps == m.u.apps && |r.u.ctxs| == |m.u.ctxs| && r.lv == m.lv
            && (forall k :: 0 <= k < |m.u.ctxs| ==>
                  r.u.ctxs[k] == if m.u.ctxs[k].apid == apid then m.u.ctxs[k].(level := level, trace := trace) else m.u.ctxs[k])
  {
    var i := FindApp(m.u.apps, apid);
    if i >= 0 {
      BlockTheorem(m.u.apps, m.u.ctxs, i);
      BlockAccepted(m, Offset(m.u.apps, i), 0, m.u.apps[i].numContexts, level, trace, cfg);
    } else {
      forall k | 0 <= k < |m.u.ctxs|
        ensures m.u.ctxs[k].apid != apid
      {
        assert Known(m.u.apps, m.u.ctxs[k].apid);
      }
    }
  }

  // ---------------------------------------------------------------- registrations

  /** After the table is updated the application is told the log state; a broken pipe takes its handle again. */
  lemma RegisterAppMeans(m: Machine, apid: IdNum, pid: int, desc: Text, fd: int, owns: bool)
    requires Consistent(m.u.apps, m.u.ctxs) && apid != 0
    ensures var (r, u) := (RegisterApp(m, apid, pid, desc, fd, owns), AppAdd(m.u, apid, pid, desc, fd, owns));
            && apid in AppMap(u.apps)
            && (var h := AppMap(u.apps)[apid].handle;
                r == m.(env := Later(m.env), u := if NextAnswer(m) == BrokenPipe && h != FD_INIT then HandleGone(u, apid, h) else u))
  {
    var u := AppAdd(m.u, apid, pid, desc, fd, owns);
    AppAddConsistent(m.u, apid, pid, desc, fd, owns);
    AppAddIsUpdate(m.u, apid, pid, desc, fd, owns);
    FindIsLookup(u.apps, apid);
    BrokenMeans(m.(u := u, env := Later(m.env)), apid);
  }

  /** A level that was not set is on default. */
  function OrDefault(level: int): int {
    if level == -2 then -1 else level
  }

  /** The context as it is stored when it registers: with its application's handle and its storage level. */
  ghost predicate CtxRegistered(m: Machine, c: Ctx, apid: IdNum, ctid: IdNum, level: int, trace: int, pos: int, desc: Text, storage: int)
    requires apid in AppMap(m.u.apps)
  {
    && CtxStored(CtxMap(m.u.ctxs), c, apid, ctid, OrDefault(level), OrDefault(trace), pos, AppMap(m.u.apps)[apid].handle, desc, m.lv)
    && c.storage == storage
  }

  /** Who registers a context is told its levels if one was left to the daemon. */
  function ToldAtRegistration(c: Ctx, level: int, trace: int, lv: Levels, cfg: Config): seq<Sent> {
    if Live(c.handle) && (OrDefault(level) == -1 || OrDefault(trace) == -1) then [Effective(c, lv, cfg)] else []
  }

  lemma FinishMeans(m: Machine, apid: IdNum, ctid: IdNum, storage: int, ask: bool, cfg: Config)
    requires Increasing(CtxKeys(m.u.ctxs)) && apid != 0 && ctid != 0 && (apid, ctid) in CtxMap(m.u.ctxs)
    ensures var (r, c) := (FinishCtx(m, apid, ctid, storage, ask, cfg), CtxMap(m.u.ctxs)[(apid, ctid)].(storage := storage));
            && r.lv == m.lv && r.sent == m.sent + (if Live(c.handle) && ask then [Effective(c, m.lv, cfg)] else [])
            && (NextAnswer(m) != BrokenPipe ==> r.u.apps == m.u.apps && CtxMap(r.u.ctxs) == CtxMap(m.u.ctxs)[(apid, ctid) := c])
  {
    FindCtxIsLookup(m.u.ctxs, apid, ctid);
    var k := FindCtx(m.u.ctxs, apid, ctid);
    var c := m.u.ctxs[k].(storage := storage);
    CtxReplace(m.u.ctxs, k, c);
    SendLevelDoes(Put(m, k, c), k, cfg);
    assert m.sent + [] == m.sent;
  }

  /** What a registration comes to, when `c` is the context that is stored. */
  ghost predicate Registered(m: Machine, c: Ctx, apid: IdNum, ctid: IdNum, told: seq<Sent>, r: Machine) {
    && r.lv == m.lv && r.sent == m.sent + told
    && (NextAnswer(m) != BrokenPipe ==> OnlyCounts(m.u.apps, r.u.apps) && CtxMap(r.u.ctxs) == CtxMap(m.u.ctxs)[(apid, ctid) := c])
  }

  lemma RegisterCtxIs(m: Machine, apid: IdNum, ctid: IdNum, level: int, trace: int, pos: int, desc: Text, storage: int, cfg: Config)
    requires Consistent(m.u.apps, m.u.ctxs)
    ensures var (r, l, t) := (RegisterCtx(m, apid, ctid, level, trace, pos, desc, storage, cfg), OrDefault(level), OrDefault(trace));
            r == if Takes(m.u, apid, ctid, l, t) then
                   var u := CtxAdd(m.u, apid, ctid, l, t, pos, AppMap(m.u.apps)[apid].handle, desc, m.lv, storage);
                   FinishCtx(m.(u := u), apid, ctid, storage, l == -1 || t == -1, cfg)
                 else m
  {
    TakesIs(m.u, apid, ctid, OrDefault(level), OrDefault(trace));
    FindIsLookup(m.u.apps, apid);
  }

  lemma StoredThenFinished(m: Machine, u: Users, apid: IdNum, ctid: IdNum, c: Ctx, storage: int, ask: bool, cfg: Config)
    requires Increasing(CtxKeys(u.ctxs)) && apid != 0 && ctid != 0 && OnlyCounts(m.u.apps, u.apps)
    requires CtxMap(u.ctxs) == CtxMap(m.u.ctxs)[(apid, ctid) := c]
    ensures var (r, c1) := (FinishCtx(m.(u := u), apid, ctid, storage, ask, cfg), c.(storage := storage));
            Registered(m, c1, apid, ctid, if Live(c1.handle) && ask then [Effective(c1, m.lv, cfg)] else [], r)
  {
    FinishMeans(m.(u := u), apid, ctid, storage, ask, cfg);
  }

  /** A context is registered if its application is known and its levels are levels, and then told. */
  lemma RegisterCtxMeans(m: Machine, apid: IdNum, ctid: IdNum, level: int, trace: int, pos: int, desc: Text, storage: int, cfg: Config)
    returns (c: Ctx)
    requires Consistent(m.u.apps, m.u.ctxs)
    ensures var r := RegisterCtx(m, apid, ctid, level, trace, pos, desc, storage, cfg);
            if !Takes(m.u, apid, ctid, OrDefault(level), OrDefault(trace)) then r == m
            else
              && CtxRegistered(m, c, apid, ctid, level, trace, pos, desc, storage)
              && Registered(m, c, apid, ctid, ToldAtRegistration(c, level, trace, m.lv, cfg), r)
  {
    var l, t := OrDefault(level), OrDefault(trace);
    RegisterCtxIs(m, apid, ctid, level, trace, pos, desc, storage, cfg);
    c := Ctx(apid, ctid, l, t, pos, FD_INIT, desc, storage, false);
    if Takes(m.u, apid, ctid, l, t) {
      var h := AppMap(m.u.apps)[apid].handle;
      var u := CtxAdd(m.u, apid, ctid, l, t, pos, h, desc, m.lv, storage);
      c := CtxAddIsUpdate(m.u, apid, ctid, l, t, pos, h, desc, m.lv, storage);
      CtxAddConsistent(m.u, apid, ctid, l, t, pos, h, desc, m.lv, storage);
      AddOnlyCounts(m.u, apid, ctid, l, t, pos, h, desc, m.lv, storage);
      StoredThenFinished(m, u, apid, ctid, c, storage, l == -1 || t == -1, cfg);
      c := c.(storage := storage);
    }
  }

  lemma AppHolds(m: Machine, apid: IdNum, pid: int, desc: Text, fd: int, owns: bool)
    requires Sound(m.u) && AllAccept(m) && apid != 0 && pid != 0 && !KeepsHandle(Before(AppMap(m.u.apps), apid), pid)
    ensures var m1 := RegisterApp(m, apid, pid, desc, fd, owns);
            Sound(m1.u) && AllAccept(m1) && apid in AppMap(m1.u.apps) && AppMap(m1.u.apps)[apid].handle == fd
  {
    RegisterAppMeans(m, apid, pid, desc, fd, owns);
    AppAddIsUpdate(m.u, apid, pid, desc, fd, owns);
    AppAddSound(m.u, apid, pid, desc, fd, owns);
  }

  lemma CtxHolds(m: Machine, apid: IdNum, ctid: IdNum, level: int, trace: int, pos: int, desc: Text, storage: int, cfg: Config)
    requires Sound(m.u) && AllAccept(m) && apid != 0 && ctid != 0 && apid in AppMap(m.u.apps)
    requires -1 <= OrDefault(level) <= 6 && -1 <= OrDefault(trace) <= 1
    ensures var (u, h) := (RegisterCtx(m, apid, ctid, level, trace, pos, desc, storage, cfg).u, AppMap(m.u.apps)[apid].handle);
            && apid in AppMap(u.apps) && AppMap(u.apps)[apid].handle == h
            && (apid, ctid) in CtxMap(u.ctxs) && CtxMap(u.ctxs)[(apid, ctid)].handle == h
  {
    var c := RegisterCtxMeans(m, apid, ctid, level, trace, pos, desc, storage, cfg);
    OnlyCountsMap(m.u.apps, RegisterCtx(m, apid, ctid, level, trace, pos, desc, storage, cfg).u.apps, apid);
  }

  /** An application that registers with a descriptor, and then a context of it, both hold that descriptor. */
  lemma BothHold(m: Machine, apid: IdNum, pid: int, appDesc: Text, fd: int, owns: bool,
                 ctid: IdNum, level: int, trace: int, pos: int, desc: Text, storage: int, cfg: Config)
    requires Sound(m.u) && AllAccept(m) && apid != 0 && ctid != 0 && pid != 0
    requires !KeepsHandle(Before(AppMap(m.u.apps), apid), pid)
    requires -1 <= OrDefault(level) <= 6 && -1 <= OrDefault(trace) <= 1
    ensures var m1 := RegisterApp(m, apid, pid, appDesc, fd, owns);
            && Sound(m1.u)
            && (var u := RegisterCtx(m1, apid, ctid, level, trace, pos, desc, storage, cfg).u;
                && apid in AppMap(u.apps) && AppMap(u.apps)[apid].handle == fd
                && (apid, ctid) in CtxMap(u.ctxs) && CtxMap(u.ctxs)[(apid, ctid)].handle == fd)
  {
    var m1 := RegisterApp(m, apid, pid, appDesc, fd, owns);
    AppHolds(m, apid, pid, appDesc, fd, owns);
    CtxHolds(m1, apid, ctid, level, trace, pos, desc, storage, cfg);
  }

  lemma OnlyCountsMap(a: seq<App>, b: seq<App>, apid: IdNum)
    requires Increasing(AppKeys(a)) && OnlyCounts(a, b) && apid in AppMap(a)
    ensures apid in AppMap(b) && AppMap(b)[apid].handle == AppMap(a)[apid].handle
  {
    var i :| 0 <= i < |a| && a[i].apid == apid;
    assert AppKeys(b) == AppKeys(a);
    AppAt(a, i);
    AppAt(b, i);
  }
}
