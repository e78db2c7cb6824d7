/**
 The application-wide level request of an application, which is not clamped.
 */
module LevelsAppWide {
  import opened Ids
  import opened RegistryTables
  import opened RegistrySpec
  import opened RegistryHandles
  import opened LevelsSpec
  import opened LevelsRuns

  lemma {:induction false} BlockSets(m: Machine, off: nat, i: nat, n: nat, level: int, trace: int, cfg: Config)
    requires i <= n && off + n <= |m.u.ctxs| && m.env == []
    ensures var r := SetBlock(m, off, i, n, level, trace, cfg);
            && |r.u.ctxs| == |m.u.ctxs|
            && (forall k :: off + i <= k < off + n ==> r.u.ctxs[k].level == level && r.u.ctxs[k].trace == trace)
            && (forall k :: 0 <= k < off + i ==> r.u.ctxs[k] == m.u.ctxs[k])
    decreases n - i
  {
    if i < n {
      BlockSets(SetBlockStep(m, off + i, level, trace, cfg), off, i + 1, n, level, trace, cfg);
    }
  }

  /** On an application with contexts, and when every handle accepts, the request keeps the limits exactly when it is within them. */
  lemma AcceptedAppWide(m: Machine, apid: IdNum, level: int, trace: int, cfg: Config)
    requires Kept(m, cfg, true) && m.env == []
    requires FindApp(m.u.apps, apid) >= 0 && m.u.apps[FindApp(m.u.apps, apid)].numContexts > 0
    ensures Ceiling(SetAppWide(m, apid, level, trace, cfg), cfg) <==> level <= cfg.maxLevel && trace <= cfg.maxTrace
  {
    var i := FindApp(m.u.apps, apid);
    var off, n := Offset(m.u.apps, i), m.u.apps[i].numContexts;
    BlockTheorem(m.u.apps, m.u.ctxs, i);
    BlockSets(m, off, 0, n, level, trace, cfg);
    if level <= cfg.maxLevel && trace <= cfg.maxTrace {
      AppSetsKept(m, apid, level, trace, cfg, true);
    } else {
      assert !CtxWithin(SetAppWide(m, apid, level, trace, cfg).u.ctxs[off], cfg);
    }
  }

  /** The request is within the limits, or there is no context of that application to set. */
  predicate Harmless(m: Machine, apid: IdNum, level: int, trace: int, cfg: Config) {
    var i := FindApp(m.u.apps, apid);
    i < 0 || m.u.apps[i].numContexts == 0 || (level <= cfg.maxLevel && trace <= cfg.maxTrace)
  }

  /** What the limits have to do with is not what the handles will answer. */
  lemma OtherAnswers(m: Machine, env: seq<SendResult>, cfg: Config)
    requires Kept(m, cfg, true)
    ensures Kept(m.(env := env), cfg, true)
  {
  }

  lemma HarmlessKeeps(m: Machine, apid: IdNum, level: int, trace: int, cfg: Config)
    requires Kept(m, cfg, true) && Harmless(m, apid, level, trace, cfg)
    ensures Ceiling(SetAppWide(m, apid, level, trace, cfg), cfg)
  {
    var i := FindApp(m.u.apps, apid);
    if i >= 0 && m.u.apps[i].numContexts == 0 {
      assert SetAppWide(m, apid, level, trace, cfg) == m;
    } else if i >= 0 {
      AppSetsKept(m, apid, level, trace, cfg, true);
    }
  }

  /** An application-wide request keeps the limits whatever the handles answer, exactly when it is harmless. */
  lemma AppWideIff(m: Machine, apid: IdNum, level: int, trace: int, cfg: Config)
    requires Kept(m, cfg, true)
    ensures (forall env: seq<SendResult> :: Ceiling(SetAppWide(m.(env := env), apid, level, trace, cfg), cfg))
            <==> Harmless(m, apid, level, trace, cfg)
  {
    if Harmless(m, apid, level, trace, cfg) {
      forall env: seq<SendResult>
        ensures Ceiling(SetAppWide(m.(env := env), apid, level, trace, cfg), cfg)
      {
        OtherAnswers(m, env, cfg);
        HarmlessKeeps(m.(env := env), apid, level, trace, cfg);
      }
    } else {
      var env: seq<SendResult> := [];
      OtherAnswers(m, env, cfg);
      AcceptedAppWide(m.(env := env), apid, level, trace, cfg);
      assert !Ceiling(SetAppWide(m.(env := env), apid, level, trace, cfg), cfg);
    }
  }

  // ---------------------------------------------------------------- a run that exceeds its limit

  const APP: Id := [65, 0, 0, 0]
  const CTX: Id := [67, 0, 0, 0]

  /** Enforcement is on, with a limit of "fatal". */
  const CFG: Config := Config(true, 1, 0, false)

  const REGISTER: Event := AppRegisters(APP, 1, Null, FD_INIT, false)
  const REGISTER_CONTEXT: Event := CtxRegisters(APP, CTX, 1, 0, 0, Null, LOG_DEFAULT)
  const SET_VERBOSE: Event := AppSets(APP, 6, 0)

  /** The tables with one application of `n` contexts. */
  function OneAppOf(n: int, ctxs: seq<Ctx>): Machine {
    Started(CFG, []).(u := Users([App(Num(APP), 1, FD_INIT, false, Null, n)], ctxs))
  }

  function OneCtx(level: int): Ctx {
    Ctx(Num(APP), Num(CTX), level, 0, 0, FD_INIT, Null, LOG_DEFAULT, false)
  }

  lemma RunSnoc(events: seq<Event>, e: Event)
    ensures Run(CFG, [], events + [e]) == Step(Run(CFG, [], events), e, CFG)
  {
    assert (events + [e])[..|events|] == events;
  }

  lemma AfterOne()
    ensures Run(CFG, [], [REGISTER]) == OneAppOf(0, [])
  {
    var u, entry := Users([], []), App(Num(APP), 0, FD_INIT, false, Null, 0);
    assert Run(CFG, [], []) == Started(CFG, []);
    RunSnoc([], REGISTER);
    assert [] + [REGISTER] == [REGISTER] && u.apps + [entry] == [entry];
    var r := AppUpdate(Users([entry], []), 0, 1, Null, FD_INIT, false);
    assert r.apps == [App(Num(APP), 1, FD_INIT, false, Null, 0)] && r.ctxs == [];
    assert FindApp(u.apps, Num(APP)) < 0;
    SameApps(u, entry, 1, Null, FD_INIT, false);
    assert SettleApp(r.apps) == r.apps;
  }

  lemma AfterTwo()
    ensures Run(CFG, [], [REGISTER, REGISTER_CONTEXT]) == OneAppOf(1, [OneCtx(1)])
  {
    AfterOne();
    RunSnoc([REGISTER], REGISTER_CONTEXT);
    assert [REGISTER] + [REGISTER_CONTEXT] == [REGISTER, REGISTER_CONTEXT];
    OneContext();
  }

  lemma OneContext()
    requires Sound(OneAppOf(0, []).u)
    ensures Step(OneAppOf(0, []), REGISTER_CONTEXT, CFG) == OneAppOf(1, [OneCtx(1)])
  {
    var m, c := OneAppOf(0, []), OneCtx(1);
    assert FindApp(m.u.apps, Num(APP)) == 0 && FindCtx(m.u.ctxs, Num(APP), Num(CTX)) < 0;
    assert Acceptable(m.u, Num(APP), Num(CTX), 1, 0);
    var r := CtxAdd(m.u, Num(APP), Num(CTX), 1, 0, 0, FD_INIT, Null, m.lv, LOG_DEFAULT);
    var p := Place(CtxKeys(m.u.ctxs), CtxNum(c));
    assert m.u.ctxs[..p] + [c] + m.u.ctxs[p..] == [c];
    assert r.ctxs == [c] && FindCtx(r.ctxs, Num(APP), Num(CTX)) == 0;
  }

  lemma OneRaised()
    requires Sound(OneAppOf(1, [OneCtx(1)]).u)
    requires NormalIds(OneAppOf(1, [OneCtx(1)]).u.ctxs)
    ensures var r := Step(OneAppOf(1, [OneCtx(1)]), SET_VERBOSE, CFG);
            |r.u.ctxs| == 1 && r.u.ctxs[0].level == 6 && !Ceiling(r, CFG)
  {
    var m := OneAppOf(1, [OneCtx(1)]);
    assert FindApp(m.u.apps, Num(APP)) == 0;
    BlockTheorem(m.u.apps, m.u.ctxs, 0);
    assert Offset(m.u.apps, 0) == 0;
    BlockSets(m, 0, 0, 1, 6, 0, CFG);
    assert !CtxWithin(SetAppWide(m, Num(APP), 6, 0, CFG).u.ctxs[0], CFG);
  }

  lemma ThirdStep()
    ensures var m := OneAppOf(1, [OneCtx(1)]);
            && Sound(m.u) && NormalIds(m.u.ctxs)
            && Run(CFG, [], [REGISTER, REGISTER_CONTEXT, SET_VERBOSE]) == Step(m, SET_VERBOSE, CFG)
  {
    AfterTwo();
    RunSnoc([REGISTER, REGISTER_CONTEXT], SET_VERBOSE);
    assert [REGISTER, REGISTER_CONTEXT] + [SET_VERBOSE] == [REGISTER, REGISTER_CONTEXT, SET_VERBOSE];
  }

  /** An application registers, registers a context, and asks for verbose: the context ends above the limit. */
  lemma AppWideRaises()
    ensures var m := Run(CFG, [], [REGISTER, REGISTER_CONTEXT, SET_VERBOSE]);
            Enforced(CFG) && |m.u.ctxs| == 1 && m.u.ctxs[0].level == 6 && !Ceiling(m, CFG)
  {
    ThirdStep();
    OneRaised();
  }
}
