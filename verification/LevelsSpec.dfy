/**
 Log levels and trace statuses: registration, loading, the control requests that
 set them, and the messages that tell the applications. One definition serves
 both, since the code for trace statuses repeats the code for levels.
 What the user handles answer is read from `env`; an exhausted `env` accepts everything.
 */
module LevelsSpec {
  import opened Bytes
  import opened Ids
  import opened RegistryTables
  import opened RegistrySpec
  import opened RegistryHandles

  datatype Field = Level | Trace

  datatype SendResult = Accepted | BrokenPipe | Failed

  /** A level and trace status sent over a handle, for the context at this position of the application, and whether a
      storage level decided. */
  datatype Sent = Sent(handle: int, pos: int, level: int, trace: int, byStorage: bool)

  /** dlt.conf: ForceContextLogLevelAndTraceStatus, ContextLogLevel, ContextTraceStatus, and whether storage levels count. */
  datatype Config = Config(enforce: bool, maxLevel: int, maxTrace: int, maintainStorage: bool)

  datatype Machine = Machine(u: Users, lv: Levels, env: seq<SendResult>, sent: seq<Sent>)

  function Get(c: Ctx, f: Field): int {
    if f == Level then c.level else c.trace
  }

  function With(c: Ctx, f: Field, v: int): Ctx {
    if f == Level then c.(level := v) else c.(trace := v)
  }

  function Limit(cfg: Config, f: Field): int {
    if f == Level then cfg.maxLevel else cfg.maxTrace
  }

  function SetDefault(lv: Levels, f: Field, v: int): Levels {
    if f == Level then lv.(defaultLevel := v) else lv.(defaultTrace := v)
  }

  function Put(m: Machine, k: nat, c: Ctx): Machine
    requires k < |m.u.ctxs|
  {
    m.(u := m.u.(ctxs := m.u.ctxs[k := c]))
  }

  // ---------------------------------------------------------------- telling an application

  function Answer(m: Machine): (Machine, SendResult) {
    if m.env == [] then (m, Accepted) else (m.(env := m.env[1..]), m.env[0])
  }

  /** What a context's levels come to when they are sent. */
  function Effective(c: Ctx, lv: Levels, cfg: Config): Sent {
    var byStorage := c.storage != LOG_DEFAULT && cfg.maintainStorage;
    Sent(c.handle, c.pos,
         if byStorage then (if c.level > c.storage then c.level else c.storage)
         else if c.level == LOG_DEFAULT then lv.defaultLevel else c.level,
         if c.trace == TRACE_DEFAULT then lv.defaultTrace else c.trace,
         byStorage)
  }

  /** A broken pipe takes the handle from the application and from its contexts. */
  function Broken(m: Machine, apid: IdNum): Machine {
    var i := FindApp(m.u.apps, apid);
    if i >= 0 then m.(u := ResetHandle(m.u, i)) else m
  }

  /** dlt_daemon_user_send_log_level */
  function SendLevel(m: Machine, k: nat, cfg: Config): (r: (Machine, bool))
    requires k < |m.u.ctxs|
    ensures |r.0.u.ctxs| == |m.u.ctxs|
  {
    var c := m.u.ctxs[k];
    var (m1, answer) := Answer(m.(sent := m.sent + [Effective(c, m.lv, cfg)]));
    if answer == BrokenPipe then (Broken(m1, c.apid), false) else (m1, answer == Accepted)
  }

  // ---------------------------------------------------------------- setting one context

  /** dlt_daemon_send_log_level and dlt_daemon_send_trace_status */
  function SetOne(m: Machine, k: nat, f: Field, v: int, cfg: Config): (r: Machine)
    requires k < |m.u.ctxs|
    ensures |r.u.ctxs| == |m.u.ctxs|
  {
    var c := m.u.ctxs[k];
    if Live(c.handle) then
      var (m1, ok) := SendLevel(Put(m, k, With(c, f, v)), k, cfg);
      if ok then m1 else Put(m1, k, With(m1.u.ctxs[k], f, Get(c, f)))
    else
      m
  }

  // ---------------------------------------------------------------- wildcard requests

  /** Which ids a scan looks at, and the string it compares their first `len` bytes with. */
  datatype RawQuery = Query(byApp: bool, str: Id, len: nat)

  type Query = q: RawQuery | q.len <= 4 witness Query(true, NO_ID, 0)

  function ScannedId(c: Ctx, q: Query): seq<byte> {
    IdBytes(if q.byApp then c.apid else c.ctid)
  }

  /** All ids in the table are zero-padded 7-bit strings. */
  ghost predicate NormalIds(ctxs: seq<Ctx>) {
    forall k :: 0 <= k < |ctxs| ==> NormalCtx(ctxs[k])
  }

  predicate NormalCtx(c: Ctx) {
    IsId(IdBytes(c.apid)) && IsId(IdBytes(c.ctid))
  }

  /** strncmp of the scanned id and the string, cast to int8_t. */
  function Cmp(c: Ctx, q: Query): int
    requires NormalCtx(c)
  {
    Int8(Strncmp(ScannedId(c, q), q.str, 0, q.len))
  }

  /** dlt_daemon_find_multiple_context_and_send_log_level and its twin, from context `k` on. */
  function ScanSet(m: Machine, q: Query, f: Field, v: int, cfg: Config, k: nat): Machine
    requires k <= |m.u.ctxs| && NormalIds(m.u.ctxs)
    decreases |m.u.ctxs| - k
  {
    if k == |m.u.ctxs| then m
    else
      var cmp := Cmp(m.u.ctxs[k], q);
      if cmp == 0 then
        SetOneIds(m, k, f, v, cfg);
        ScanSet(SetOne(m, k, f, v, cfg), q, f, v, cfg, k + 1)
      else if cmp > 0 && q.byApp then m
      else ScanSet(m, q, f, v, cfg, k + 1)
  }

  lemma ResetIds(u: Users, i: nat)
    requires i < |u.apps|
    ensures var r := ResetHandle(u, i); SameAppIds(u.apps, r.apps) && SameCtxIds(u.ctxs, r.ctxs)
  {
  }

  lemma SendLevelIds(m: Machine, k: nat, cfg: Config)
    requires k < |m.u.ctxs|
    ensures var r := SendLevel(m, k, cfg).0;
            SameAppIds(m.u.apps, r.u.apps) && SameCtxIds(m.u.ctxs, r.u.ctxs) && r.lv == m.lv
  {
    var i := FindApp(m.u.apps, m.u.ctxs[k].apid);
    if i >= 0 {
      ResetIds(m.u, i);
    }
  }

  /** Setting a level keeps all ids and counts. */
  lemma SetOneIds(m: Machine, k: nat, f: Field, v: int, cfg: Config)
    requires k < |m.u.ctxs|
    ensures var r := SetOne(m, k, f, v, cfg);
            SameAppIds(m.u.apps, r.u.apps) && SameCtxIds(m.u.ctxs, r.u.ctxs) && r.lv == m.lv
  {
    var c := m.u.ctxs[k];
    if Live(c.handle) {
      SendLevelIds(Put(m, k, With(c, f, v)), k, cfg);
    }
  }

  function Strlen(id: Id): nat {
    if id[0] == 0 then 0 else if id[1] == 0 then 1 else if id[2] == 0 then 2 else if id[3] == 0 then 3 else 4
  }

  const STAR: byte := 42

  predicate EndsInStar(id: Id) {
    Strlen(id) > 0 && id[Strlen(id) - 1] == STAR
  }

  /** getStatus: the request, but not above the limit; a request for "default" (255) becomes the limit. */
  function GetStatus(request: byte, limit: int): int {
    var r: int := request;
    if r <= limit then r else limit
  }

  function Requested(request: byte, f: Field, cfg: Config): int {
    Int8(if cfg.enforce then GetStatus(request, Limit(cfg, f)) % 256 else request)
  }

  /** dlt_daemon_control_set_log_level and dlt_daemon_control_set_trace_status */
  function SetRequest(m: Machine, apid: Id, ctid: Id, f: Field, request: byte, cfg: Config): Machine
    requires NormalIds(m.u.ctxs)
  {
    var v := Requested(request, f, cfg);
    if EndsInStar(apid) && ctid[0] == 0 then ScanSet(m, Query(true, apid, Strlen(apid) - 1), f, v, cfg, 0)
    else if EndsInStar(ctid) && apid[0] == 0 then ScanSet(m, Query(false, ctid, Strlen(ctid) - 1), f, v, cfg, 0)
    else if apid[0] != 0 && !EndsInStar(apid) && ctid[0] == 0 then ScanSet(m, Query(true, apid, 4), f, v, cfg, 0)
    else if ctid[0] != 0 && !EndsInStar(ctid) && apid[0] == 0 then ScanSet(m, Query(false, ctid, 4), f, v, cfg, 0)
    else
      var k := FindCtx(m.u.ctxs, Num(apid), Num(ctid));
      if k >= 0 then SetOne(m, k, f, v, cfg) else m
  }

  // ---------------------------------------------------------------- requests for all contexts

  /** dlt_daemon_user_send_all_log_level_update and its twin: no level is taken back. */
  function SetEvery(m: Machine, f: Field, v: int, cfg: Config, k: nat): (r: Machine)
    requires k <= |m.u.ctxs|
    ensures |r.u.ctxs| == |m.u.ctxs|
    decreases |m.u.ctxs| - k
  {
    if k == |m.u.ctxs| then m
    else if Live(m.u.ctxs[k].handle) then
      SetEvery(SendLevel(Put(m, k, With(m.u.ctxs[k], f, v)), k, cfg).0, f, v, cfg, k + 1)
    else SetEvery(m, f, v, cfg, k + 1)
  }

  /** dlt_daemon_user_send_default_update */
  function SendDefaults(m: Machine, cfg: Config, k: nat): (r: Machine)
    requires k <= |m.u.ctxs|
    ensures |r.u.ctxs| == |m.u.ctxs|
    decreases |m.u.ctxs| - k
  {
    if k == |m.u.ctxs| then m
    else
      var c := m.u.ctxs[k];
      var m1 := if (c.level == LOG_DEFAULT || c.trace == TRACE_DEFAULT) && Live(c.handle) then SendLevel(m, k, cfg).0 else m;
      SendDefaults(m1, cfg, k + 1)
  }

  /** dlt_daemon_control_set_all_log_level and dlt_daemon_control_set_all_trace_status */
  function SetAllRequest(m: Machine, f: Field, request: byte, cfg: Config): Machine {
    if request <= (if f == Level then LOG_VERBOSE else TRACE_ON) || request == 255
    then SetEvery(m, f, if cfg.enforce then GetStatus(request, Limit(cfg, f)) else Int8(request), cfg, 0)
    else m
  }

  /** dlt_daemon_control_set_default_log_level and dlt_daemon_control_set_default_trace_status */
  function SetDefaultRequest(m: Machine, f: Field, request: byte, cfg: Config): Machine {
    if request <= (if f == Level then LOG_VERBOSE else TRACE_ON) then
      var v := if cfg.enforce then GetStatus(request, Limit(cfg, f)) else request;
      SendDefaults(m.(lv := SetDefault(m.lv, f, v)), cfg, 0)
    else m
  }

  /** dlt_daemon_control_reset_to_factory_default */
  function FactoryReset(m: Machine, cfg: Config): Machine {
    SendDefaults(m.(lv := m.lv.(defaultLevel := cfg.maxLevel, defaultTrace := cfg.maxTrace, force := cfg.enforce)), cfg, 0)
  }

  // ---------------------------------------------------------------- the application-wide request of an application

  /** One turn of the loop in dlt_daemon_process_user_message_set_app_ll_ts. */
  function SetBlockStep(m: Machine, k: nat, level: int, trace: int, cfg: Config): (r: Machine)
    requires k < |m.u.ctxs|
    ensures |r.u.ctxs| == |m.u.ctxs|
  {
    var c := m.u.ctxs[k];
    var m1 := Put(m, k, c.(level := level, trace := trace));
    if Live(c.handle) then
      var (s, ok) := SendLevel(m1, k, cfg);
      if ok then s else Put(s, k, s.u.ctxs[k].(level := c.level, trace := c.trace))
    else m1
  }

  /** The contexts `off + i` up to `off + n`. */
  function SetBlock(m: Machine, off: nat, i: nat, n: nat, level: int, trace: int, cfg: Config): Machine
    requires i <= n && off + n <= |m.u.ctxs|
    decreases n - i
  {
    if i == n then m
    else SetBlock(SetBlockStep(m, off + i, level, trace, cfg), off, i + 1, n, level, trace, cfg)
  }

  lemma BlockNext(m: Machine, off: nat, i: nat, n: nat, level: int, trace: int, cfg: Config, r: Machine)
    requires i < n && off + n <= |m.u.ctxs| && r == SetBlockStep(m, off + i, level, trace, cfg)
    ensures SetBlock(m, off, i, n, level, trace, cfg) == SetBlock(r, off, i + 1, n, level, trace, cfg)
  {
  }

  function SetAppWide(m: Machine, apid: IdNum, level: int, trace: int, cfg: Config): Machine
    requires Consistent(m.u.apps, m.u.ctxs)
  {
    var i := FindApp(m.u.apps, apid);
    if i < 0 then m
    else
      BlockTheorem(m.u.apps, m.u.ctxs, i);
      SetBlock(m, Offset(m.u.apps, i), 0, m.u.apps[i].numContexts, level, trace, cfg)
  }

  // ---------------------------------------------------------------- registrations

  /** dlt_daemon_process_user_message_register_application: add, then tell the application the log state. */
  function RegisterApp(m: Machine, apid: IdNum, pid: int, desc: Text, handle: int, owns: bool): Machine
    requires Consistent(m.u.apps, m.u.ctxs)
  {
    var m1 := m.(u := AppAdd(m.u, apid, pid, desc, handle, owns));
    if FindApp(m1.u.apps, apid) < 0 then m1
    else
      var (m2, answer) := Answer(m1);
      if answer == BrokenPipe then Broken(m2, apid) else m2
  }

  const NOT_SET := -2

  /** The end of a context's registration: its storage level, and its levels sent if it asked for a default. */
  function FinishCtx(m: Machine, apid: IdNum, ctid: IdNum, storage: int, ask: bool, cfg: Config): Machine {
    var k := FindCtx(m.u.ctxs, apid, ctid);
    if k < 0 then m
    else
      var m1 := Put(m, k, m.u.ctxs[k].(storage := storage));
      if Live(m.u.ctxs[k].handle) && ask then SendLevel(m1, k, cfg).0 else m1
  }

  /** dlt_daemon_process_user_message_register_context */
  function RegisterCtx(m: Machine, apid: IdNum, ctid: IdNum, level: int, trace: int, pos: int, desc: Text, storage: int,
                       cfg: Config): Machine
    requires Consistent(m.u.apps, m.u.ctxs)
  {
    var i := FindApp(m.u.apps, apid);
    var level1 := if level == NOT_SET then LOG_DEFAULT else level;
    var trace1 := if trace == NOT_SET then TRACE_DEFAULT else trace;
    if i < 0 || !Acceptable(m.u, apid, ctid, level1, trace1) then m
    else
      var u := CtxAdd(m.u, apid, ctid, level1, trace1, pos, m.u.apps[i].handle, desc, m.lv, storage);
      FinishCtx(m.(u := u), apid, ctid, storage, level1 == LOG_DEFAULT || trace1 == TRACE_DEFAULT, cfg)
  }
}
