/**
 The runtime configuration files: the tables are saved as text and loaded at the
 next start. Loading what was saved into an empty registry gives the same tables
 and counts, with handles reset and contexts marked as predefined.
 */
module SaveLoad {
  import opened Bytes
  import opened Ids
  import opened TextLines
  import opened RegistryTables
  import opened RegistrySpec
  import opened RegistryInvariants
  import opened RegistryMaps

  // ---------------------------------------------------------------- saving

  /** The characters of an id, up to its padding. */
  function IdText(n: IdNum): seq<byte> {
    var b := IdBytes(n);
    if b[0] == 0 then [] else if b[1] == 0 then b[..1] else if b[2] == 0 then b[..2] else if b[3] == 0 then b[..3] else b
  }

  function DescText(t: Text): seq<byte> {
    match t
    case Null => []
    case Chars(chars) => chars
  }

  function AppLine(a: App): seq<byte> {
    IdText(a.apid) + [COLON] + (DescText(a.desc) + [COLON] + [NEWLINE])
  }

  function CtxLine(c: Ctx): seq<byte> {
    IdText(c.apid) + [COLON] + (IdText(c.ctid) + [COLON] + (PrintInt(c.level) + [COLON]
    + (PrintInt(c.trace) + [COLON] + (DescText(c.desc) + [COLON] + [NEWLINE]))))
  }

  function AppLines(apps: seq<App>): (r: seq<seq<byte>>)
    ensures |r| == |apps| && forall i :: 0 <= i < |apps| ==> r[i] == AppLine(apps[i])
  {
    seq(|apps|, i requires 0 <= i < |apps| => AppLine(apps[i]))
  }

  function CtxLines(ctxs: seq<Ctx>): (r: seq<seq<byte>>)
    ensures |r| == |ctxs| && forall k :: 0 <= k < |ctxs| ==> r[k] == CtxLine(ctxs[k])
  {
    seq(|ctxs|, k requires 0 <= k < |ctxs| => CtxLine(ctxs[k]))
  }

  // ---------------------------------------------------------------- loading

  function AtOrZero(s: seq<byte>, k: nat): byte {
    if k < |s| then s[k] else 0
  }

  /** dlt_set_id: the first four characters, padded. */
  function SetId(s: seq<byte>): IdNum {
    var (a: int, b: int, c: int, d: int) := (AtOrZero(s, 0), AtOrZero(s, 1), AtOrZero(s, 2), AtOrZero(s, 3));
    ((a * 256 + b) * 256 + c) * 256 + d
  }

  /** One line of dlt_daemon_applications_load: an application without a process. */
  function LoadAppLine(u: Users, line: seq<byte>): Users
    requires Increasing(AppKeys(u.apps))
  {
    var ts := Tokens(line);
    if |ts| < 2 then u else AppAdd(u, SetId(ts[0]), 0, Chars(ts[1]), FD_INIT, false)
  }

  /** The tables so far, and whether the load goes on. */
  datatype Loaded = Loaded(u: Users, ok: bool)

  /** One line of dlt_daemon_contexts_load, which ends at a context that is refused; `mem` is what the memory of a new one held. */
  function LoadCtxLine(u: Users, line: seq<byte>, lv: Levels, mem: int): Loaded
    requires Increasing(CtxKeys(u.ctxs))
  {
    var ts := Tokens(line);
    if |ts| < 5 then Loaded(u, true)
    else
      var (apid, ctid, level, trace) := (SetId(ts[0]), SetId(ts[1]), Int8(ScanInt(ts[2], 0)), Int8(ScanInt(ts[3], 0)));
      Loaded(CtxAdd(u, apid, ctid, level, trace, 0, 0, Chars(ts[4]), lv, mem), Acceptable(u, apid, ctid, level, trace))
  }

  /** The applications of the first `n` lines; each keeps the tables consistent, so every next one is defined. */
  function LoadApps(lines: seq<seq<byte>>, n: nat): (u: Users)
    requires n <= |lines|
    ensures Consistent(u.apps, u.ctxs) && u.ctxs == []
  {
    if n == 0 then
      Users([], [])
    else
      var u := LoadApps(lines, n - 1);
      LoadAppLineKeeps(u, lines[n - 1]);
      LoadAppLine(u, lines[n - 1])
  }

  /** The contexts of the first `n` lines. */
  function LoadCtxs(u0: Users, lines: seq<seq<byte>>, lv: Levels, mem: int, n: nat): (r: Loaded)
    requires n <= |lines| && Consistent(u0.apps, u0.ctxs)
    ensures Consistent(r.u.apps, r.u.ctxs)
  {
    if n == 0 then Loaded(u0, true)
    else
      var r := LoadCtxs(u0, lines, lv, mem, n - 1);
      if !r.ok then r
      else
        LoadCtxLineKeeps(r.u, lines[n - 1], lv, mem);
        LoadCtxLine(r.u, lines[n - 1], lv, mem)
  }

  lemma LoadAppLineKeeps(u: Users, line: seq<byte>)
    requires Consistent(u.apps, u.ctxs) && u.ctxs == []
    ensures Increasing(AppKeys(u.apps))
    ensures var r := LoadAppLine(u, line); Consistent(r.apps, r.ctxs) && r.ctxs == []
  {
    var ts := Tokens(line);
    if |ts| >= 2 {
      AppAddConsistent(u, SetId(ts[0]), 0, Chars(ts[1]), FD_INIT, false);
    }
  }

  lemma LoadCtxLineKeeps(u: Users, line: seq<byte>, lv: Levels, mem: int)
    requires Consistent(u.apps, u.ctxs)
    ensures Increasing(CtxKeys(u.ctxs)) && (var r := LoadCtxLine(u, line, lv, mem).u; Consistent(r.apps, r.ctxs))
  {
    var ts := Tokens(line);
    if |ts| >= 5 {
      CtxAddConsistent(u, SetId(ts[0]), SetId(ts[1]), Int8(ScanInt(ts[2], 0)), Int8(ScanInt(ts[3], 0)), 0, 0, Chars(ts[4]), lv, mem);
    }
  }

  /** A line with fewer than five fields is passed over, and a context that cannot be added ends the load and changes nothing. */
  lemma CtxLineMeans(u: Users, line: seq<byte>, lv: Levels, mem: int)
    requires Consistent(u.apps, u.ctxs)
    ensures var ts := Tokens(line);
            var r := LoadCtxLine(u, line, lv, mem);
            if |ts| < 5 then r == Loaded(u, true)
            else
              && (r.ok <==> Takes(u, SetId(ts[0]), SetId(ts[1]), Int8(ScanInt(ts[2], 0)), Int8(ScanInt(ts[3], 0))))
              && (!r.ok ==> r.u == u)
  {
    var ts := Tokens(line);
    if |ts| >= 5 {
      TakesIs(u, SetId(ts[0]), SetId(ts[1]), Int8(ScanInt(ts[2], 0)), Int8(ScanInt(ts[3], 0)));
    }
  }

  // ---------------------------------------------------------------- what can be saved

  /** An id that text can hold: 7-bit, not empty, without colon and newline. */
  ghost predicate Plain(n: IdNum) {
    n != 0 && IsId(IdBytes(n)) && Free(IdBytes(n), COLON) && Free(IdBytes(n), NEWLINE)
  }

  ghost predicate PlainText(t: Text) {
    Free(DescText(t), COLON) && Free(DescText(t), NEWLINE)
  }

  ghost predicate SavableApp(a: App) {
    Plain(a.apid) && PlainText(a.desc) && |AppLine(a)| <= LINE_MAX
  }

  ghost predicate SavableCtx(c: Ctx) {
    && Plain(c.apid) && Plain(c.ctid) && PlainText(c.desc) && |CtxLine(c)| <= LINE_MAX
    && LOG_DEFAULT <= c.level <= LOG_VERBOSE && TRACE_DEFAULT <= c.trace <= TRACE_ON
  }

  // ---------------------------------------------------------------- one line and back

  /** An empty description comes back as a newline. */
  function DescBack(t: Text): Text {
    Chars(if DescText(t) == [] then [NEWLINE] else DescText(t))
  }

  lemma IdTextIs(n: IdNum)
    requires Plain(n)
    ensures IdText(n) != [] && Free(IdText(n), COLON) && Free(IdText(n), NEWLINE) && SetId(IdText(n)) == n
  {
    var b := IdBytes(n);
    IdBytesRoundTrip(n);
    IdBytesAre(n);
    assert forall k :: 0 <= k < 4 ==> AtOrZero(IdText(n), k) == b[k];
  }

  /** The end of every line: the description and the newline. */
  lemma DescTokens(t: Text)
    requires PlainText(t)
    ensures var ts := Tokens(DescText(t) + [COLON] + [NEWLINE]); |ts| >= 1 && Chars(ts[0]) == DescBack(t)
  {
    LastToken();
    if DescText(t) == [] {
      assert DescText(t) + [COLON] + [NEWLINE] == [COLON] + [NEWLINE];
      SkipColon([NEWLINE]);
    } else {
      FirstToken(DescText(t), [NEWLINE]);
    }
  }

  lemma AppTokens(a: App)
    requires SavableApp(a)
    ensures var ts := Tokens(AppLine(a)); |ts| >= 2 && SetId(ts[0]) == a.apid && Chars(ts[1]) == DescBack(a.desc)
  {
    IdTextIs(a.apid);
    FirstToken(IdText(a.apid), DescText(a.desc) + [COLON] + [NEWLINE]);
    DescTokens(a.desc);
  }

  lemma CtxTokens(c: Ctx)
    requires SavableCtx(c)
    ensures var ts := Tokens(CtxLine(c));
            && |ts| >= 5 && SetId(ts[0]) == c.apid && SetId(ts[1]) == c.ctid
            && Int8(ScanInt(ts[2], 0)) == c.level && Int8(ScanInt(ts[3], 0)) == c.trace && Chars(ts[4]) == DescBack(c.desc)
  {
    var s4 := DescText(c.desc) + [COLON] + [NEWLINE];
    var s2 := PrintInt(c.level) + [COLON] + (PrintInt(c.trace) + [COLON] + s4);
    IdTextIs(c.apid);
    IdTextIs(c.ctid);
    LevelBack(c.level);
    LevelBack(c.trace);
    TwoTokens(PrintInt(c.level), PrintInt(c.trace), s4);
    TwoTokens(IdText(c.apid), IdText(c.ctid), s2);
    DescTokens(c.desc);
  }

  lemma LevelBack(level: int)
    requires -128 <= level < 128
    ensures Free(PrintInt(level), COLON) && Int8(ScanInt(PrintInt(level), 0)) == level
  {
    PrintFree(level, COLON);
    IntBack(level, 0);
  }

  lemma EndsLine(s: seq<byte>)
    requires Free(s, NEWLINE) && |s| < LINE_MAX
    ensures IsLine(s + [NEWLINE])
  {
  }

  lemma AppIsLine(a: App)
    requires SavableApp(a)
    ensures IsLine(AppLine(a))
  {
    IdTextIs(a.apid);
    var s := IdText(a.apid) + [COLON] + (DescText(a.desc) + [COLON]);
    assert AppLine(a) == s + [NEWLINE];
    EndsLine(s);
  }

  lemma CtxIsLine(c: Ctx)
    requires SavableCtx(c)
    ensures IsLine(CtxLine(c))
  {
    IdTextIs(c.apid);
    IdTextIs(c.ctid);
    PrintFree(c.level, NEWLINE);
    PrintFree(c.trace, NEWLINE);
    CtxFieldsLine(IdText(c.apid), IdText(c.ctid), PrintInt(c.level), PrintInt(c.trace), DescText(c.desc));
  }

  lemma CtxFieldsLine(a: seq<byte>, b: seq<byte>, c: seq<byte>, d: seq<byte>, e: seq<byte>)
    requires Free(a, NEWLINE) && Free(b, NEWLINE) && Free(c, NEWLINE) && Free(d, NEWLINE) && Free(e, NEWLINE)
    requires |a| + |b| + |c| + |d| + |e| + 6 <= LINE_MAX
    ensures IsLine(a + [COLON] + (b + [COLON] + (c + [COLON] + (d + [COLON] + (e + [COLON] + [NEWLINE])))))
  {
    var s := a + [COLON] + b + [COLON] + c + [COLON] + d + [COLON] + e + [COLON];
    assert a + [COLON] + (b + [COLON] + (c + [COLON] + (d + [COLON] + (e + [COLON] + [NEWLINE])))) == s + [NEWLINE];
    EndsLine(s);
  }

  // ---------------------------------------------------------------- all applications

  /** An application as it is after a load, before its contexts. */
  function FreshApp(a: App): App {
    App(a.apid, 0, FD_INIT, false, DescBack(a.desc), 0)
  }

  function FreshApps(apps: seq<App>, n: nat): (r: seq<App>)
    requires n <= |apps|
    ensures |r| == n && forall i :: 0 <= i < n ==> r[i] == FreshApp(apps[i])
  {
    seq(n, i requires 0 <= i < n => FreshApp(apps[i]))
  }

  /** An id behind all others is added at the end. */
  lemma AddLast(apps: seq<App>, a: App)
    requires Increasing(AppKeys(apps)) && a.apid != 0 && forall i :: 0 <= i < |apps| ==> apps[i].apid < a.apid
    ensures AppAdd(Users(apps, []), a.apid, 0, DescBack(a.desc), FD_INIT, false) == Users(apps + [FreshApp(a)], [])
  {
    var u := Users(apps, []);
    var e := App(a.apid, 0, FD_INIT, false, Null, 0);
    var r := AppUpdate(u.(apps := apps + [e]), |apps|, 0, DescBack(a.desc), FD_INIT, false);
    assert FindApp(apps, a.apid) < 0;
    assert r.apps == apps + [FreshApp(a)] && r.ctxs == [];
    assert r.apps[..|apps|] == apps;
    var p := Place(AppKeys(apps), a.apid);
    assert p == |apps|;
    assert apps[..p] + [FreshApp(a)] + apps[p..] == apps + [FreshApp(a)];
  }

  ghost predicate SavableApps(apps: seq<App>) {
    forall i :: 0 <= i < |apps| ==> SavableApp(apps[i])
  }

  /** The first `n` lines give the first `n` applications. */
  ghost predicate AppsCome(apps: seq<App>, lines: seq<seq<byte>>, n: nat)
    requires n <= |apps|
  {
    n <= |lines| && LoadApps(lines, n) == Users(FreshApps(apps, n), [])
  }

  lemma AppsStart(apps: seq<App>, lines: seq<seq<byte>>)
    ensures AppsCome(apps, lines, 0)
  {
    assert FreshApps(apps, 0) == [];
  }

  /** What a line makes of the tables. */
  ghost predicate AppLineAdds(u: Users, line: seq<byte>, r: Users) {
    Increasing(AppKeys(u.apps)) && LoadAppLine(u, line) == r
  }

  lemma AppsStep(apps: seq<App>, lines: seq<seq<byte>>, n: nat)
    requires |lines| == |apps| && n < |apps| && AppsCome(apps, lines, n)
    requires AppLineAdds(Users(FreshApps(apps, n), []), lines[n], Users(FreshApps(apps, n + 1), []))
    ensures AppsCome(apps, lines, n + 1)
  {
    var u := LoadApps(lines, n);
  }

  lemma {:induction false} AppsBack(apps: seq<App>, lines: seq<seq<byte>>, n: nat)
    requires n <= |lines| == |apps|
    requires forall j :: 0 <= j < |lines| ==> AppLineAdds(Users(FreshApps(apps, j), []), lines[j], Users(FreshApps(apps, j + 1), []))
    ensures AppsCome(apps, lines, n)
  {
    if n > 0 {
      AppsBack(apps, lines, n - 1);
      AppsStep(apps, lines, n - 1);
    } else {
      AppsStart(apps, lines);
    }
  }

  lemma FreshNext(apps: seq<App>, n: nat)
    requires n < |apps|
    ensures FreshApps(apps, n + 1) == FreshApps(apps, n) + [FreshApp(apps[n])]
  {
  }

  lemma NextApp(apps: seq<App>, i: nat)
    requires Increasing(AppKeys(apps)) && SavableApps(apps) && i < |apps|
    ensures AppLineAdds(Users(FreshApps(apps, i), []), AppLine(apps[i]), Users(FreshApps(apps, i + 1), []))
  {
    var done := FreshApps(apps, i);
    assert forall j :: 0 <= j < i ==> AppKeys(done)[j] == AppKeys(apps)[j];
    forall j | 0 <= j < i
      ensures done[j].apid < apps[i].apid
    {
      assert AppKeys(apps)[j] < AppKeys(apps)[i];
    }
    AppTokens(apps[i]);
    AddLast(done, apps[i]);
    FreshNext(apps, i);
  }

  // ---------------------------------------------------------------- all contexts

  /** A context as it is after a load, its levels no higher than the defaults if these are forced. */
  function FreshCtx(c: Ctx, lv: Levels, mem: int): Ctx {
    Ctx(c.apid, c.ctid, Stored(c.level, lv.defaultLevel, lv.force), Stored(c.trace, lv.defaultTrace, lv.force), 0, 0,
        DescBack(c.desc), mem, true)
  }

  function FreshCtxs(ctxs: seq<Ctx>, lv: Levels, mem: int, n: nat): (r: seq<Ctx>)
    requires n <= |ctxs|
    ensures |r| == n && forall k :: 0 <= k < n ==> r[k] == FreshCtx(ctxs[k], lv, mem)
  {
    seq(n, k requires 0 <= k < n => FreshCtx(ctxs[k], lv, mem))
  }

  /** How many of the first `n` contexts are the application's. */
  function CountTo(ctxs: seq<Ctx>, apid: IdNum, n: nat): nat
    requires n <= |ctxs|
  {
    if n == 0 then 0 else CountTo(ctxs, apid, n - 1) + if ctxs[n - 1].apid == apid then 1 else 0
  }

  lemma {:induction false} CountToIs(ctxs: seq<Ctx>, apid: IdNum, n: nat)
    requires n <= |ctxs|
    ensures CountTo(ctxs, apid, n) == CountOf(ctxs[..n], apid)
  {
    if n > 0 {
      CountToIs(ctxs, apid, n - 1);
      CountAppend(ctxs[..n - 1], [ctxs[n - 1]], apid);
      assert ctxs[..n] == ctxs[..n - 1] + [ctxs[n - 1]];
      assert CountOf([ctxs[n - 1]], apid) == (if ctxs[n - 1].apid == apid then 1 else 0) + CountOf([], apid);
    }
  }

  /** The applications once the first `n` contexts are loaded. */
  function Counted(apps: seq<App>, ctxs: seq<Ctx>, n: nat): (r: seq<App>)
    requires n <= |ctxs|
    ensures |r| == |apps|
    ensures forall i :: 0 <= i < |apps| ==> r[i] == FreshApp(apps[i]).(numContexts := CountTo(ctxs, apps[i].apid, n))
  {
    seq(|apps|, i requires 0 <= i < |apps| => FreshApp(apps[i]).(numContexts := CountTo(ctxs, apps[i].apid, n)))
  }

  ghost predicate SavableCtxs(ctxs: seq<Ctx>) {
    forall k :: 0 <= k < |ctxs| ==> SavableCtx(ctxs[k])
  }

  /** The tables when the first `n` contexts are loaded. */
  function After(u: Users, lv: Levels, mem: int, n: nat): Users
    requires n <= |u.ctxs|
  {
    Users(Counted(u.apps, u.ctxs, n), FreshCtxs(u.ctxs, lv, mem, n))
  }

  lemma CountedNext(apps: seq<App>, ctxs: seq<Ctx>, n: nat, i: nat)
    requires Increasing(AppKeys(apps)) && n < |ctxs| && i < |apps| && apps[i].apid == ctxs[n].apid
    ensures var r := Counted(apps, ctxs, n);
            Counted(apps, ctxs, n + 1) == r[i := r[i].(numContexts := r[i].numContexts + 1)]
  {
    var r, more := Counted(apps, ctxs, n), Counted(apps, ctxs, n + 1);
    forall j | 0 <= j < |apps|
      ensures more[j] == if j == i then r[i].(numContexts := r[i].numContexts + 1) else r[j]
    {
      OneOnly(apps, i, j);
    }
  }

  lemma FreshCtxsNext(ctxs: seq<Ctx>, lv: Levels, mem: int, n: nat)
    requires n < |ctxs|
    ensures FreshCtxs(ctxs, lv, mem, n + 1) == FreshCtxs(ctxs, lv, mem, n) + [FreshCtx(ctxs[n], lv, mem)]
  {
  }

  /** Adding a context behind all others, whose application is known. */
  lemma AddLastCtx(u: Users, c: Ctx, i: nat, lv: Levels, mem: int)
    requires Increasing(CtxKeys(u.ctxs)) && FindApp(u.apps, c.apid) == i < |u.apps|
    requires c.apid != 0 && c.ctid != 0 && LOG_DEFAULT <= c.level <= LOG_VERBOSE && TRACE_DEFAULT <= c.trace <= TRACE_ON
    requires forall k :: 0 <= k < |u.ctxs| ==> CtxNum(u.ctxs[k]) < CtxNum(c)
    ensures Acceptable(u, c.apid, c.ctid, c.level, c.trace)
    ensures CtxAdd(u, c.apid, c.ctid, c.level, c.trace, 0, 0, DescBack(c.desc), lv, mem)
            == Users(u.apps[i := u.apps[i].(numContexts := u.apps[i].numContexts + 1)], u.ctxs + [FreshCtx(c, lv, mem)])
  {
    assert FindCtx(u.ctxs, c.apid, c.ctid) < 0;
    var p := Place(CtxKeys(u.ctxs), CtxNum(c));
    assert p == |u.ctxs|;
    assert u.ctxs[..p] + [FreshCtx(c, lv, mem)] + u.ctxs[p..] == u.ctxs + [FreshCtx(c, lv, mem)];
  }

  ghost predicate CtxLineAdds(u: Users, line: seq<byte>, lv: Levels, mem: int, r: Users) {
    Increasing(CtxKeys(u.ctxs)) && LoadCtxLine(u, line, lv, mem) == Loaded(r, true)
  }

  /** What loading needs of the tables that were saved. */
  ghost predicate Savable(u: Users) {
    Consistent(u.apps, u.ctxs) && SavableApps(u.apps) && SavableCtxs(u.ctxs)
  }

  lemma KeysBelow(ctxs: seq<Ctx>, lv: Levels, mem: int, n: nat)
    requires Increasing(CtxKeys(ctxs)) && n < |ctxs|
    ensures forall k :: 0 <= k < n ==> CtxNum(FreshCtxs(ctxs, lv, mem, n)[k]) < CtxNum(ctxs[n])
    ensures Increasing(CtxKeys(FreshCtxs(ctxs, lv, mem, n)))
  {
    var done := FreshCtxs(ctxs, lv, mem, n);
    forall k | 0 <= k < n
      ensures CtxNum(done[k]) < CtxNum(ctxs[n])
    {
      assert CtxKeys(ctxs)[k] < CtxKeys(ctxs)[n];
    }
    assert forall k :: 0 <= k < n ==> CtxKeys(done)[k] == CtxKeys(ctxs)[k];
  }

  lemma AppKnown(u: Users, n: nat, lv: Levels, mem: int) returns (i: nat)
    requires Consistent(u.apps, u.ctxs) && n < |u.ctxs|
    ensures i < |u.apps| && u.apps[i].apid == u.ctxs[n].apid != 0 && FindApp(After(u, lv, mem, n).apps, u.ctxs[n].apid) == i
  {
    assert Known(u.apps, u.ctxs[n].apid);
    i :| 0 <= i < |u.apps| && u.apps[i].apid == u.ctxs[n].apid;
    var apps := After(u, lv, mem, n).apps;
    assert forall j :: 0 <= j < |apps| ==> AppKeys(apps)[j] == AppKeys(u.apps)[j];
    AppAt(apps, i);
  }

  /** The next context in order is added at the end, and its application counts one more. */
  lemma CtxAdds(u: Users, n: nat, lv: Levels, mem: int)
    requires Consistent(u.apps, u.ctxs) && n < |u.ctxs| && SavableCtx(u.ctxs[n])
    ensures var (v, c) := (After(u, lv, mem, n), u.ctxs[n]);
            && Increasing(CtxKeys(v.ctxs)) && Acceptable(v, c.apid, c.ctid, c.level, c.trace)
            && CtxAdd(v, c.apid, c.ctid, c.level, c.trace, 0, 0, DescBack(c.desc), lv, mem) == After(u, lv, mem, n + 1)
  {
    var i := AppKnown(u, n, lv, mem);
    KeysBelow(u.ctxs, lv, mem, n);
    CtxAddsAt(u.apps, u.ctxs, n, i, lv, mem);
  }

  lemma CtxAddsAt(apps: seq<App>, ctxs: seq<Ctx>, n: nat, i: nat, lv: Levels, mem: int)
    requires Increasing(AppKeys(apps)) && i < |apps| && n < |ctxs| && apps[i].apid == ctxs[n].apid
    requires FindApp(Counted(apps, ctxs, n), ctxs[n].apid) == i && SavableCtx(ctxs[n])
    requires Increasing(CtxKeys(FreshCtxs(ctxs, lv, mem, n)))
    requires forall k :: 0 <= k < n ==> CtxNum(FreshCtxs(ctxs, lv, mem, n)[k]) < CtxNum(ctxs[n])
    ensures var (v, c) := (After(Users(apps, ctxs), lv, mem, n), ctxs[n]);
            && Acceptable(v, c.apid, c.ctid, c.level, c.trace)
            && CtxAdd(v, c.apid, c.ctid, c.level, c.trace, 0, 0, DescBack(c.desc), lv, mem) == After(Users(apps, ctxs), lv, mem, n + 1)
  {
    AddLastCtx(After(Users(apps, ctxs), lv, mem, n), ctxs[n], i, lv, mem);
    CountedNext(apps, ctxs, n, i);
    FreshCtxsNext(ctxs, lv, mem, n);
  }

  lemma CtxLineIsAdd(v: Users, c: Ctx, lv: Levels, mem: int, r: Users)
    requires SavableCtx(c) && Increasing(CtxKeys(v.ctxs)) && Acceptable(v, c.apid, c.ctid, c.level, c.trace)
    requires CtxAdd(v, c.apid, c.ctid, c.level, c.trace, 0, 0, DescBack(c.desc), lv, mem) == r
    ensures CtxLineAdds(v, CtxLine(c), lv, mem, r)
  {
    CtxTokens(c);
  }

  lemma NextCtx(u: Users, n: nat, lv: Levels, mem: int)
    requires Savable(u) && n < |u.ctxs|
    ensures CtxLineAdds(After(u, lv, mem, n), CtxLine(u.ctxs[n]), lv, mem, After(u, lv, mem, n + 1))
  {
    CtxAdds(u, n, lv, mem);
    CtxLineIsAdd(After(u, lv, mem, n), u.ctxs[n], lv, mem, After(u, lv, mem, n + 1));
  }

  ghost predicate CtxsCome(u0: Users, u: Users, lines: seq<seq<byte>>, lv: Levels, mem: int, n: nat)
    requires n <= |u.ctxs|
  {
    n <= |lines| && Consistent(u0.apps, u0.ctxs) && LoadCtxs(u0, lines, lv, mem, n) == Loaded(After(u, lv, mem, n), true)
  }

  lemma CtxsStart(u0: Users, u: Users, lines: seq<seq<byte>>, lv: Levels, mem: int)
    requires u0 == Users(FreshApps(u.apps, |u.apps|), [])
    requires Consistent(u0.apps, u0.ctxs)
    ensures CtxsCome(u0, u, lines, lv, mem, 0)
  {
    assert After(u, lv, mem, 0).apps == u0.apps && After(u, lv, mem, 0).ctxs == [];
  }

  lemma CtxsStep(u0: Users, u: Users, lines: seq<seq<byte>>, lv: Levels, mem: int, n: nat)
    requires Consistent(u0.apps, u0.ctxs) && |lines| == |u.ctxs| && n < |u.ctxs| && CtxsCome(u0, u, lines, lv, mem, n)
    requires CtxLineAdds(After(u, lv, mem, n), lines[n], lv, mem, After(u, lv, mem, n + 1))
    ensures CtxsCome(u0, u, lines, lv, mem, n + 1)
  {
    var v := LoadCtxs(u0, lines, lv, mem, n);
  }

  lemma {:induction false} CtxsBack(u0: Users, u: Users, lines: seq<seq<byte>>, lv: Levels, mem: int, n: nat)
    requires Consistent(u0.apps, u0.ctxs) && u0 == Users(FreshApps(u.apps, |u.apps|), []) && |lines| == |u.ctxs| && n <= |lines|
    requires forall j :: 0 <= j < |lines| ==> CtxLineAdds(After(u, lv, mem, j), lines[j], lv, mem, After(u, lv, mem, j + 1))
    ensures CtxsCome(u0, u, lines, lv, mem, n)
  {
    if n > 0 {
      CtxsBack(u0, u, lines, lv, mem, n - 1);
      CtxsStep(u0, u, lines, lv, mem, n - 1);
    } else {
      CtxsStart(u0, u, lines, lv, mem);
    }
  }

  // ---------------------------------------------------------------- main result

  /** dlt_daemon_applications_save and dlt_daemon_contexts_save: the texts of the two files. */
  function SavedApps(u: Users): seq<byte> {
    Joined(AppLines(u.apps), 0)
  }

  function SavedCtxs(u: Users): seq<byte> {
    Joined(CtxLines(u.ctxs), 0)
  }

  /** Both loads at the start of the daemon. */
  function Load(appText: seq<byte>, ctxText: seq<byte>, lv: Levels, mem: int): Loaded {
    var la, lc := FileLines(appText), FileLines(ctxText);
    LoadCtxs(LoadApps(la, |la|), lc, lv, mem, |lc|)
  }

  /** The tables as saved, but without processes and handles, with predefined contexts, and within forced defaults. */
  ghost predicate Restored(u: Users, r: Users, lv: Levels, mem: int) {
    && |r.apps| == |u.apps| && |r.ctxs| == |u.ctxs|
    && (forall i :: 0 <= i < |u.apps| ==>
          r.apps[i] == App(u.apps[i].apid, 0, FD_INIT, false, DescBack(u.apps[i].desc), u.apps[i].numContexts))
    && (forall k :: 0 <= k < |u.ctxs| ==> r.ctxs[k] == FreshCtx(u.ctxs[k], lv, mem))
  }

  lemma LinesOf(u: Users)
    requires Savable(u)
    ensures FileLines(SavedApps(u)) == AppLines(u.apps) && FileLines(SavedCtxs(u)) == CtxLines(u.ctxs)
  {
    forall i | 0 <= i < |u.apps|
      ensures IsLine(AppLines(u.apps)[i])
    {
      AppIsLine(u.apps[i]);
    }
    forall k | 0 <= k < |u.ctxs|
      ensures IsLine(CtxLines(u.ctxs)[k])
    {
      CtxIsLine(u.ctxs[k]);
    }
    LinesBack(AppLines(u.apps), 0);
    LinesBack(CtxLines(u.ctxs), 0);
  }

  lemma AfterAll(u: Users, lv: Levels, mem: int)
    requires Consistent(u.apps, u.ctxs)
    ensures Restored(u, After(u, lv, mem, |u.ctxs|), lv, mem)
  {
    forall i | 0 <= i < |u.apps|
      ensures CountTo(u.ctxs, u.apps[i].apid, |u.ctxs|) == u.apps[i].numContexts
    {
      CountToIs(u.ctxs, u.apps[i].apid, |u.ctxs|);
      assert u.ctxs[..|u.ctxs|] == u.ctxs;
    }
  }

  /** Saving and loading into an empty registry gives back the same ordered tables and counts. */
  lemma SaveLoadRoundTrip(u: Users, lv: Levels, mem: int)
    requires Savable(u)
    ensures var r := Load(SavedApps(u), SavedCtxs(u), lv, mem); r.ok && Restored(u, r.u, lv, mem)
  {
    var la, lc := AppLines(u.apps), CtxLines(u.ctxs);
    LinesOf(u);
    forall j | 0 <= j < |la|
      ensures AppLineAdds(Users(FreshApps(u.apps, j), []), la[j], Users(FreshApps(u.apps, j + 1), []))
    {
      NextApp(u.apps, j);
    }
    AppsBack(u.apps, la, |la|);
    var u0 := LoadApps(la, |la|);
    forall j | 0 <= j < |lc|
      ensures CtxLineAdds(After(u, lv, mem, j), lc[j], lv, mem, After(u, lv, mem, j + 1))
    {
      NextCtx(u, j, lv, mem);
    }
    CtxsBack(u0, u, lc, lv, mem, |lc|);
    AfterAll(u, lv, mem);
  }

  /** A description comes back as it was exactly when it is not empty. */
  lemma DescBackIff(t: Text)
    requires PlainText(t)
    ensures DescBack(t) == t <==> t.Chars? && t.chars != []
  {
    assert |DescText(t)| > 0 ==> DescText(t)[0] != NEWLINE;
  }

  // ---------------------------------------------------------------- the loops

  /** fprintf line by line. */
  method WriteLines(lines: seq<seq<byte>>) returns (text: seq<byte>)
    ensures text == Joined(lines, 0)
  {
    text := [];
    for i := 0 to |lines|
      invariant text + Joined(lines, i) == Joined(lines, 0)
    {
      JoinedNext(text, lines, i);
      text := text + lines[i];
    }
  }

  /** dlt_daemon_applications_save and dlt_daemon_contexts_save of tables that are not empty. */
  method Save(u: Users) returns (appText: seq<byte>, ctxText: seq<byte>)
    ensures appText == SavedApps(u) && ctxText == SavedCtxs(u)
  {
    appText := WriteLines(AppLines(u.apps));
    ctxText := WriteLines(CtxLines(u.ctxs));
  }

  /** fgets and one application a line, until the end of the file. */
  method ReadApps(text: seq<byte>) returns (u: Users)
    ensures u == LoadApps(FileLines(text), |FileLines(text)|)
  {
    ghost var lines, n := FileLines(text), 0;
    var rest := text;
    u := Users([], []);
    while rest != []
      invariant n <= |lines| && FileLines(rest) == lines[n..] && u == LoadApps(lines, n)
      decreases |rest|
    {
      var e := LineEnd(rest, 0);
      assert lines[n] == lines[n..][0] && lines[n + 1..] == lines[n..][1..];
      u := LoadAppLine(u, rest[..e]);
      rest, n := rest[e..], n + 1;
    }
  }

  method ReadCtxs(u0: Users, text: seq<byte>, lv: Levels, mem: int) returns (r: Loaded)
    requires Consistent(u0.apps, u0.ctxs)
    ensures r == LoadCtxs(u0, FileLines(text), lv, mem, |FileLines(text)|)
  {
    ghost var lines, n := FileLines(text), 0;
    var rest := text;
    r := Loaded(u0, true);
    while rest != []
      invariant n <= |lines| && FileLines(rest) == lines[n..] && r.ok && r == LoadCtxs(u0, lines, lv, mem, n)
      decreases |rest|
    {
      var e := LineEnd(rest, 0);
      assert lines[n] == lines[n..][0] && lines[n + 1..] == lines[n..][1..];
      r := LoadCtxLine(r.u, rest[..e], lv, mem);
      rest, n := rest[e..], n + 1;
      if !r.ok {
        StaysStopped(u0, lines, lv, mem, n, |lines|);
        return;
      }
    }
  }

  lemma {:induction false} StaysStopped(u0: Users, lines: seq<seq<byte>>, lv: Levels, mem: int, n: nat, m: nat)
    requires Consistent(u0.apps, u0.ctxs) && n <= m <= |lines| && !LoadCtxs(u0, lines, lv, mem, n).ok
    ensures LoadCtxs(u0, lines, lv, mem, m) == LoadCtxs(u0, lines, lv, mem, n)
    decreases m
  {
    if n < m {
      StaysStopped(u0, lines, lv, mem, n, m - 1);
    }
  }
}
