/**
 Levels and trace statuses as the daemon changes them: the contexts' fields are
 set in place, one message after the other. Each method is proved to do what the
 function of the same operation says.
 */
module LevelsClass {
  import opened Bytes
  import opened Ids
  import opened RegistryTables
  import opened RegistrySpec
  import opened RegistryHandles
  import opened RegistryClass
  import opened LevelsSpec
  import opened LevelsProofs

  class LevelControl {
    const users: UserList
    const cfg: Config
    var lv: Levels
    /** What the user handles will answer, and what has been sent to them. */
    var env: seq<SendResult>
    var sent: seq<Sent>

    ghost function M(): Machine
      reads this, users
    {
      Machine(Users(users.apps, users.ctxs), lv, env, sent)
    }

    ghost predicate Valid()
      reads this, users
    {
      Sound(M().u) && Tidy(M())
    }

    constructor (users: UserList, cfg: Config, env: seq<SendResult>)
      ensures this.users == users && this.cfg == cfg
      ensures M() == Machine(Users(users.apps, users.ctxs), Levels(cfg.maxLevel, cfg.maxTrace, cfg.enforce, false), env, [])
    {
      this.users, this.cfg := users, cfg;
      lv := Levels(cfg.maxLevel, cfg.maxTrace, cfg.enforce, false);
      this.env, sent := env, [];
    }

    /** dlt_daemon_user_send_log_level */
    method UserSendLogLevel(k: nat) returns (ok: bool)
      requires Valid() && k < |users.ctxs|
      modifies this`env, this`sent, users
      ensures (M(), ok) == SendLevel(old(M()), k, cfg)
    {
      var c := users.ctxs[k];
      sent := sent + [Effective(c, lv, cfg)];
      var answer := Accepted;
      if env != [] {
        answer, env := env[0], env[1..];
      }
      ok := answer == Accepted;
      if answer == BrokenPipe {
        var i := FindApplication(users.apps, c.apid);
        if i >= 0 {
          var _ := users.ResetUserHandle(i);
        }
      }
    }

    /** dlt_daemon_send_log_level and dlt_daemon_send_trace_status: an undelivered change is taken back. */
    method SendLogLevel(k: nat, f: Field, v: int)
      requires Valid() && k < |users.ctxs|
      modifies this`env, this`sent, users
      ensures Valid() && M() == SetOne(old(M()), k, f, v, cfg)
    {
      SetOneSound(M(), k, f, v, cfg);
      SetOneTidy(M(), k, f, v, cfg);
      var c := users.ctxs[k];
      if Live(c.handle) {
        PutValid(k, With(c, f, v));
        users.ctxs := users.ctxs[k := With(c, f, v)];
        var ok := UserSendLogLevel(k);
        if !ok {
          users.ctxs := users.ctxs[k := With(users.ctxs[k], f, Get(c, f))];
        }
      }
    }

    lemma PutValid(k: nat, c: Ctx)
      requires Valid() && k < |users.ctxs|
      requires c.apid == users.ctxs[k].apid && c.ctid == users.ctxs[k].ctid && c.handle == users.ctxs[k].handle
      ensures Sound(Put(M(), k, c).u) && Tidy(Put(M(), k, c))
    {
      PutSound(M().u, k, c);
      assert CtxKeys(Put(M(), k, c).u.ctxs) == CtxKeys(users.ctxs);
    }

    /** dlt_daemon_find_multiple_context_and_send_log_level: a loop that ends behind a greater application id. */
    method FindMultipleAndSend(q: Query, f: Field, v: int)
      requires Valid()
      modifies this`env, this`sent, users
      ensures Valid() && M() == ScanSet(old(M()), q, f, v, cfg, 0)
    {
      var k := 0;
      while k < |users.ctxs|
        invariant k <= |users.ctxs| && Valid()
        invariant ScanSet(M(), q, f, v, cfg, k) == ScanSet(old(M()), q, f, v, cfg, 0)
        decreases |users.ctxs| - k
      {
        var cmp := Cmp(users.ctxs[k], q);
        ghost var n := |users.ctxs|;
        if cmp == 0 {
          SendLogLevel(k, f, v);
        } else if cmp > 0 && q.byApp {
          break;
        }
        assert |users.ctxs| == n;
        k := k + 1;
      }
    }

    /** dlt_daemon_control_set_log_level and dlt_daemon_control_set_trace_status */
    method ControlSet(apid: Id, ctid: Id, f: Field, request: byte)
      requires Valid()
      modifies this`env, this`sent, users
      ensures Valid() && M() == SetRequest(old(M()), apid, ctid, f, request, cfg)
    {
      var v := Requested(request, f, cfg);
      if EndsInStar(apid) && ctid[0] == 0 {
        FindMultipleAndSend(Query(true, apid, Strlen(apid) - 1), f, v);
      } else if EndsInStar(ctid) && apid[0] == 0 {
        FindMultipleAndSend(Query(false, ctid, Strlen(ctid) - 1), f, v);
      } else if apid[0] != 0 && !EndsInStar(apid) && ctid[0] == 0 {
        FindMultipleAndSend(Query(true, apid, 4), f, v);
      } else if ctid[0] != 0 && !EndsInStar(ctid) && apid[0] == 0 {
        FindMultipleAndSend(Query(false, ctid, 4), f, v);
      } else {
        var k := FindContext(users.ctxs, Num(apid), Num(ctid));
        if k >= 0 {
          SendLogLevel(k, f, v);
        }
      }
    }

    lemma SendValid(k: nat)
      requires Valid() && k < |users.ctxs|
      ensures var r := SendLevel(M(), k, cfg).0; Sound(r.u) && Tidy(r)
    {
      SendLevelDoes(M(), k, cfg);
      SendLevelIds(M(), k, cfg);
      assert CtxKeys(SendLevel(M(), k, cfg).0.u.ctxs) == CtxKeys(users.ctxs);
    }

    /** A change and its message, not taken back. */
    method Change(k: nat, c: Ctx) returns (ok: bool)
      requires Valid() && k < |users.ctxs|
      requires c.apid == users.ctxs[k].apid && c.ctid == users.ctxs[k].ctid && c.handle == users.ctxs[k].handle
      modifies this`env, this`sent, users
      ensures Valid() && (M(), ok) == SendLevel(Put(old(M()), k, c), k, cfg)
    {
      PutValid(k, c);
      users.ctxs := users.ctxs[k := c];
      SendValid(k);
      ok := UserSendLogLevel(k);
    }

    /** dlt_daemon_user_send_all_log_level_update and dlt_daemon_user_send_all_trace_status_update */
    method SendAllUpdate(f: Field, v: int)
      requires Valid()
      modifies this`env, this`sent, users
      ensures Valid() && M() == SetEvery(old(M()), f, v, cfg, 0)
    {
      var k := 0;
      while k < |users.ctxs|
        invariant k <= |users.ctxs| && Valid()
        invariant SetEvery(M(), f, v, cfg, k) == SetEvery(old(M()), f, v, cfg, 0)
        decreases |users.ctxs| - k
      {
        ghost var n := |users.ctxs|;
        if Live(users.ctxs[k].handle) {
          var _ := Change(k, With(users.ctxs[k], f, v));
        }
        assert |users.ctxs| == n;
        k := k + 1;
      }
    }

    method SendOneDefault(k: nat)
      requires Valid() && k < |users.ctxs|
      modifies this`env, this`sent, users
      ensures Valid() && |users.ctxs| == old(|users.ctxs|)
      ensures var c := old(users.ctxs)[k];
              M() == if (c.level == LOG_DEFAULT || c.trace == TRACE_DEFAULT) && Live(c.handle) then SendLevel(old(M()), k, cfg).0
                     else old(M())
    {
      var c := users.ctxs[k];
      if (c.level == LOG_DEFAULT || c.trace == TRACE_DEFAULT) && Live(c.handle) {
        SendValid(k);
        var _ := UserSendLogLevel(k);
      }
    }

    /** dlt_daemon_user_send_default_update */
    method SendDefaultUpdate()
      requires Valid()
      modifies this`env, this`sent, users
      ensures Valid() && M() == SendDefaults(old(M()), cfg, 0)
    {
      var k := 0;
      while k < |users.ctxs|
        invariant k <= |users.ctxs| && Valid()
        invariant SendDefaults(M(), cfg, k) == SendDefaults(old(M()), cfg, 0)
        decreases |users.ctxs| - k
      {
        SendOneDefault(k);
        k := k + 1;
      }
    }

    /** dlt_daemon_control_set_all_log_level and dlt_daemon_control_set_all_trace_status */
    method ControlSetAll(f: Field, request: byte)
      requires Valid()
      modifies this`env, this`sent, users
      ensures Valid() && M() == SetAllRequest(old(M()), f, request, cfg)
    {
      if request <= (if f == Level then LOG_VERBOSE else TRACE_ON) || request == 255 {
        SendAllUpdate(f, if cfg.enforce then GetStatus(request, Limit(cfg, f)) else Int8(request));
      }
    }

    /** dlt_daemon_control_set_default_log_level and dlt_daemon_control_set_default_trace_status */
    method ControlSetDefault(f: Field, request: byte)
      requires Valid()
      modifies this, users
      ensures Valid() && M() == SetDefaultRequest(old(M()), f, request, cfg)
    {
      if request <= (if f == Level then LOG_VERBOSE else TRACE_ON) {
        lv := SetDefault(lv, f, if cfg.enforce then GetStatus(request, Limit(cfg, f)) else request);
        SendDefaultUpdate();
      }
    }

    /** dlt_daemon_control_reset_to_factory_default */
    method ResetToFactoryDefault()
      requires Valid()
      modifies this, users
      ensures Valid() && M() == FactoryReset(old(M()), cfg)
    {
      lv := lv.(defaultLevel := cfg.maxLevel, defaultTrace := cfg.maxTrace, force := cfg.enforce);
      SendDefaultUpdate();
    }

    /** dlt_daemon_process_user_message_set_app_ll_ts on one context. */
    method SetOneOfApp(k: nat, level: int, trace: int)
      requires Valid() && k < |users.ctxs|
      modifies this`env, this`sent, users
      ensures Valid() && M() == SetBlockStep(old(M()), k, level, trace, cfg)
    {
      var c := users.ctxs[k];
      var changed := c.(level := level, trace := trace);
      if Live(c.handle) {
        var ok := Change(k, changed);
        if !ok {
          var back := users.ctxs[k].(level := c.level, trace := c.trace);
          PutValid(k, back);
          users.ctxs := users.ctxs[k := back];
        }
      } else {
        PutValid(k, changed);
        users.ctxs := users.ctxs[k := changed];
      }
    }

    /** dlt_daemon_process_user_message_set_app_ll_ts: the block of the application's contexts. */
    method SetAppLevels(apid: IdNum, level: int, trace: int)
      requires Valid()
      modifies this`env, this`sent, users
      ensures Valid() && M() == SetAppWide(old(M()), apid, level, trace, cfg)
    {
      var j := FindApplication(users.apps, apid);
      if j >= 0 {
        BlockTheorem(users.apps, users.ctxs, j);
        var off := OffsetBase(users.apps, j);
        var n := users.apps[j].numContexts;
        SetBlockOfApp(off, n, level, trace);
      }
    }

    method SetBlockOfApp(off: nat, n: nat, level: int, trace: int)
      requires Valid() && off + n <= |users.ctxs|
      modifies this`env, this`sent, users
      ensures Valid() && M() == SetBlock(old(M()), off, 0, n, level, trace, cfg)
    {
      for i := 0 to n
        invariant off + n <= |users.ctxs| && Valid()
        invariant SetBlock(M(), off, i, n, level, trace, cfg) == SetBlock(old(M()), off, 0, n, level, trace, cfg)
      {
        ghost var m := M();
        SetOneOfApp(off + i, level, trace);
        BlockNext(m, off, i, n, level, trace, cfg, M());
      }
    }

    /** dlt_daemon_process_user_message_register_application: the table, then the log state is sent. */
    method RegisterApplication(apid: IdNum, pid: int, desc: Text, handle: int, owns: bool)
      requires Valid()
      modifies this`env, users
      ensures Valid() && M() == RegisterApp(old(M()), apid, pid, desc, handle, owns)
    {
      RegisterAppSound(M(), apid, pid, desc, handle, owns);
      users.ApplicationAdd(apid, pid, desc, handle, owns);
      SendLogState(apid);
    }

    /** dlt_daemon_user_send_log_state, to an application if it is known. */
    method SendLogState(apid: IdNum)
      requires Consistent(users.apps, users.ctxs)
      modifies this`env, users
      ensures M() == if FindApp(old(users.apps), apid) < 0 then old(M())
                     else var (m, answer) := LevelsSpec.Answer(old(M())); if answer == BrokenPipe then Broken(m, apid) else m
    {
      var i := FindApplication(users.apps, apid);
      if i >= 0 && env != [] {
        var answer := env[0];
        env := env[1..];
        if answer == BrokenPipe {
          var _ := users.ResetUserHandle(i);
        }
      }
    }
  }
}
