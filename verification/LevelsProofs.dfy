/**
 What the level requests do and keep: the early-exit scan sets exactly the
 matching contexts, the tables stay sound, and nothing rises above an enforced limit.
 */
module LevelsProofs {
  import opened Bytes
  import opened Ids
  import opened RegistryTables
  import opened RegistrySpec
  import opened RegistryInvariants
  import opened RegistryHandles
  import opened LevelsSpec

  // ---------------------------------------------------------------- what one message changes

  /** The same context but for its handle. */
  predicate SameButHandle(c: Ctx, r: Ctx) {
    r == c.(handle := r.handle)
  }

  ghost predicate OnlyHandles(u: Users, r: Users) {
    && |r.apps| == |u.apps| && |r.ctxs| == |u.ctxs|
    && (forall k :: 0 <= k < |u.ctxs| ==> SameButHandle(u.ctxs[k], r.ctxs[k]))
  }

  lemma SendLevelDoes(m: Machine, k: nat, cfg: Config)
    requires k < |m.u.ctxs|
    ensures var r := SendLevel(m, k, cfg).0;
            && OnlyHandles(m.u, r.u) && r.lv == m.lv && r.sent == m.sent + [Effective(m.u.ctxs[k], m.lv, cfg)]
            && (Sound(m.u) ==> Sound(r.u))
  {
    var i := FindApp(m.u.apps, m.u.ctxs[k].apid);
    if Sound(m.u) && i >= 0 {
      ResetConsistent(m.u, i);
      ResetOwned(m.u, i);
    }
  }

  /** Levels alone do not matter to the tables. */
  lemma PutSound(u: Users, k: nat, c: Ctx)
    requires Sound(u) && k < |u.ctxs|
    requires c.apid == u.ctxs[k].apid && c.ctid == u.ctxs[k].ctid && c.handle == u.ctxs[k].handle
    ensures Sound(u.(ctxs := u.ctxs[k := c]))
  {
    var r := u.(ctxs := u.ctxs[k := c]);
    SameIdsConsistent(u, r);
    CtxSetOwned(u, k, c);
  }

  /** Setting one context: the new value stays if it was sent, else the old one is back; nothing else changes but handles. */
  lemma SetOneDoes(m: Machine, k: nat, f: Field, v: int, cfg: Config)
    requires k < |m.u.ctxs|
    ensures var r := SetOne(m, k, f, v, cfg);
            && r.lv == m.lv && |r.u.ctxs| == |m.u.ctxs|
            && (forall j :: 0 <= j < |m.u.ctxs| && j != k ==> SameButHandle(m.u.ctxs[j], r.u.ctxs[j]))
            && SameButHandle(if Live(m.u.ctxs[k].handle) && Answer(m).1 == Accepted then With(m.u.ctxs[k], f, v) else m.u.ctxs[k],
                             r.u.ctxs[k])
  {
    var c := m.u.ctxs[k];
    if Live(c.handle) {
      SendLevelDoes(Put(m, k, With(c, f, v)), k, cfg);
    }
  }

  lemma SetOneSound(m: Machine, k: nat, f: Field, v: int, cfg: Config)
    requires k < |m.u.ctxs| && Sound(m.u)
    ensures Sound(SetOne(m, k, f, v, cfg).u)
  {
    var c := m.u.ctxs[k];
    if Live(c.handle) {
      var m1 := Put(m, k, With(c, f, v));
      PutSound(m.u, k, With(c, f, v));
      SendLevelDoes(m1, k, cfg);
      var s := SendLevel(m1, k, cfg).0;
      PutSound(s.u, k, With(s.u.ctxs[k], f, Get(c, f)));
    }
  }

  // ---------------------------------------------------------------- registering an application

  lemma AppAddIds(u: Users, apid: IdNum, pid: int, desc: Text, handle: int, owns: bool)
    requires Increasing(AppKeys(u.apps))
    ensures SameCtxIds(u.ctxs, AppAdd(u, apid, pid, desc, handle, owns).ctxs)
  {
    if apid != 0 {
      var i := FindApp(u.apps, apid);
      if i >= 0 {
        UpdateKeepsIds(u, i, pid, desc, handle, owns);
      } else {
        var entry := App(apid, 0, FD_INIT, false, Null, 0);
        UpdateKeepsIds(u.(apps := u.apps + [entry]), |u.apps|, pid, desc, handle, owns);
      }
    }
  }

  lemma AppAddSound(u: Users, apid: IdNum, pid: int, desc: Text, handle: int, owns: bool)
    requires Sound(u)
    ensures var r := AppAdd(u, apid, pid, desc, handle, owns); Sound(r) && SameCtxIds(u.ctxs, r.ctxs)
  {
    AppAddConsistent(u, apid, pid, desc, handle, owns);
    AppAddOwned(u, apid, pid, desc, handle, owns);
    AppAddIds(u, apid, pid, desc, handle, owns);
  }

  lemma BrokenSound(m: Machine, apid: IdNum)
    requires Sound(m.u)
    ensures Sound(Broken(m, apid).u) && SameCtxIds(m.u.ctxs, Broken(m, apid).u.ctxs)
  {
    var i := FindApp(m.u.apps, apid);
    if i >= 0 {
      ResetConsistent(m.u, i);
      ResetOwned(m.u, i);
      ResetIds(m.u, i);
    }
  }

  lemma SameIdsTidy(m: Machine, r: Machine)
    requires Tidy(m) && SameCtxIds(m.u.ctxs, r.u.ctxs)
    ensures Tidy(r)
  {
    assert CtxKeys(r.u.ctxs) == CtxKeys(m.u.ctxs);
  }

  lemma RegisterAppSound(m: Machine, apid: IdNum, pid: int, desc: Text, handle: int, owns: bool)
    requires Sound(m.u) && Tidy(m)
    ensures var r := RegisterApp(m, apid, pid, desc, handle, owns); Sound(r.u) && Tidy(r)
  {
    var m1 := m.(u := AppAdd(m.u, apid, pid, desc, handle, owns));
    AppAddSound(m.u, apid, pid, desc, handle, owns);
    SameIdsTidy(m, m1);
    var m2 := LevelsSpec.Answer(m1).0;
    BrokenSound(m2, apid);
    SameIdsTidy(m2, Broken(m2, apid));
  }

  // ---------------------------------------------------------------- the wildcard scan

  /** The full filter: the first bytes of the id are those of the string. */
  predicate Selected(c: Ctx, q: Query)
    requires NormalCtx(c)
  {
    match q
    case Query(_, str, len) => ScannedId(c, q)[..len] == str[..len]
  }

  lemma CmpMeans(c: Ctx, q: Query)
    requires NormalCtx(c)
    ensures Cmp(c, q) == 0 <==> Selected(c, q)
  {
    StrncmpMeans(ScannedId(c, q), q.str, q.len);
  }

  /** The scan without its early exit. */
  function FilterSet(m: Machine, q: Query, f: Field, v: int, cfg: Config, k: nat): Machine
    requires k <= |m.u.ctxs| && NormalIds(m.u.ctxs)
    decreases |m.u.ctxs| - k
  {
    if k == |m.u.ctxs| then m
    else if Selected(m.u.ctxs[k], q) then
      SetOneIds(m, k, f, v, cfg);
      FilterSet(SetOne(m, k, f, v, cfg), q, f, v, cfg, k + 1)
    else FilterSet(m, q, f, v, cfg, k + 1)
  }

  /** With no match ahead the filter does nothing. */
  lemma {:induction false} FilterIdle(m: Machine, q: Query, f: Field, v: int, cfg: Config, k: nat)
    requires k <= |m.u.ctxs| && NormalIds(m.u.ctxs)
    requires forall j :: k <= j < |m.u.ctxs| ==> !Selected(m.u.ctxs[j], q)
    ensures FilterSet(m, q, f, v, cfg, k) == m
    decreases |m.u.ctxs| - k
  {
    if k < |m.u.ctxs| {
      assert !Selected(m.u.ctxs[k], q);
      FilterIdle(m, q, f, v, cfg, k + 1);
    }
  }

  /** Behind a greater application id no context matches any more. */
  lemma NothingBehind(ctxs: seq<Ctx>, q: Query, k: nat)
    requires NormalIds(ctxs) && Increasing(CtxKeys(ctxs)) && k < |ctxs| && q.byApp
    requires Cmp(ctxs[k], q) > 0
    ensures forall j :: k <= j < |ctxs| ==> !Selected(ctxs[j], q)
  {
    StrncmpFrom(IdBytes(ctxs[k].apid), q.str, 0, q.len);
    SortedIsGrouped(ctxs);
    IdBytesRoundTrip(ctxs[k].apid);
    forall j | k <= j < |ctxs|
      ensures !Selected(ctxs[j], q)
    {
      IdBytesRoundTrip(ctxs[j].apid);
      PastPrefix(IdBytes(ctxs[k].apid), q.str, IdBytes(ctxs[j].apid), q.len);
    }
  }

  /** A sorted table of normal ids. */
  ghost predicate Tidy(m: Machine) {
    NormalIds(m.u.ctxs) && Increasing(CtxKeys(m.u.ctxs))
  }

  lemma SetOneTidy(m: Machine, k: nat, f: Field, v: int, cfg: Config)
    requires k < |m.u.ctxs| && Tidy(m)
    ensures Tidy(SetOne(m, k, f, v, cfg))
  {
    SetOneIds(m, k, f, v, cfg);
    assert CtxKeys(SetOne(m, k, f, v, cfg).u.ctxs) == CtxKeys(m.u.ctxs);
  }

  /** From context `k` on, the scan with the early exit does what the full filter does. */
  ghost predicate ScansAll(m: Machine, q: Query, f: Field, v: int, cfg: Config, k: nat)
    requires k <= |m.u.ctxs| && Tidy(m)
  {
    ScanSet(m, q, f, v, cfg, k) == FilterSet(m, q, f, v, cfg, k)
  }

  lemma ScanSkips(m: Machine, q: Query, f: Field, v: int, cfg: Config, k: nat)
    requires k < |m.u.ctxs| && Tidy(m) && Cmp(m.u.ctxs[k], q) != 0 && ScansAll(m, q, f, v, cfg, k + 1)
    ensures ScansAll(m, q, f, v, cfg, k)
  {
    CmpMeans(m.u.ctxs[k], q);
    if Cmp(m.u.ctxs[k], q) > 0 && q.byApp {
      NothingBehind(m.u.ctxs, q, k);
      FilterIdle(m, q, f, v, cfg, k);
    }
  }

  lemma ScanSets(m: Machine, q: Query, f: Field, v: int, cfg: Config, k: nat, r: Machine)
    requires k < |m.u.ctxs| && Tidy(m) && Cmp(m.u.ctxs[k], q) == 0
    requires r == SetOne(m, k, f, v, cfg) && Tidy(r) && ScansAll(r, q, f, v, cfg, k + 1)
    ensures ScansAll(m, q, f, v, cfg, k)
  {
    CmpMeans(m.u.ctxs[k], q);
  }

  /** The early exit skips nothing. */
  lemma {:induction false} ScanIsFilter(m: Machine, q: Query, f: Field, v: int, cfg: Config, k: nat)
    requires k <= |m.u.ctxs| && Tidy(m)
    ensures ScansAll(m, q, f, v, cfg, k)
    decreases |m.u.ctxs| - k
  {
    if k < |m.u.ctxs| {
      if Cmp(m.u.ctxs[k], q) == 0 {
        SetOneTidy(m, k, f, v, cfg);
        var r := SetOne(m, k, f, v, cfg);
        ScanIsFilter(r, q, f, v, cfg, k + 1);
        ScanSets(m, q, f, v, cfg, k, r);
      } else {
        ScanIsFilter(m, q, f, v, cfg, k + 1);
        ScanSkips(m, q, f, v, cfg, k);
      }
    }
  }

  /** Contexts `k` on: a selected one has the new value or its old one, the others are untouched but for handles. */
  ghost predicate ExactlySelected(ctxs: seq<Ctx>, r: seq<Ctx>, q: Query, f: Field, v: int, k: nat)
    requires NormalIds(ctxs)
  {
    && |r| == |ctxs|
    && (forall j :: 0 <= j < |ctxs| && (j < k || !Selected(ctxs[j], q)) ==> SameButHandle(ctxs[j], r[j]))
    && (forall j :: k <= j < |ctxs| && Selected(ctxs[j], q) ==>
          SameButHandle(ctxs[j], r[j]) || SameButHandle(With(ctxs[j], f, v), r[j]))
  }

  lemma ExactThenMore(ctxs: seq<Ctx>, mid: seq<Ctx>, r: seq<Ctx>, q: Query, f: Field, v: int, k: nat)
    requires NormalIds(ctxs) && SameCtxIds(ctxs, mid) && k < |ctxs| && Selected(ctxs[k], q)
    requires forall j :: 0 <= j < |ctxs| && j != k ==> SameButHandle(ctxs[j], mid[j])
    requires SameButHandle(ctxs[k], mid[k]) || SameButHandle(With(ctxs[k], f, v), mid[k])
    requires ExactlySelected(mid, r, q, f, v, k + 1)
    ensures ExactlySelected(ctxs, r, q, f, v, k)
  {
  }

  lemma {:induction false} FilterExact(m: Machine, q: Query, f: Field, v: int, cfg: Config, k: nat)
    requires k <= |m.u.ctxs| && NormalIds(m.u.ctxs)
    ensures ExactlySelected(m.u.ctxs, FilterSet(m, q, f, v, cfg, k).u.ctxs, q, f, v, k)
    decreases |m.u.ctxs| - k
  {
    if k < |m.u.ctxs| {
      if Selected(m.u.ctxs[k], q) {
        var m1 := SetOne(m, k, f, v, cfg);
        SetOneIds(m, k, f, v, cfg);
        SetOneDoes(m, k, f, v, cfg);
        FilterExact(m1, q, f, v, cfg, k + 1);
        ExactThenMore(m.u.ctxs, m1.u.ctxs, FilterSet(m1, q, f, v, cfg, k + 1).u.ctxs, q, f, v, k);
      } else {
        FilterExact(m, q, f, v, cfg, k + 1);
      }
    }
  }

  /** A wildcard or exact request for many contexts sets exactly those the full filter selects. */
  lemma ScanExact(m: Machine, q: Query, f: Field, v: int, cfg: Config)
    requires Tidy(m)
    ensures ExactlySelected(m.u.ctxs, ScanSet(m, q, f, v, cfg, 0).u.ctxs, q, f, v, 0)
  {
    ScanIsFilter(m, q, f, v, cfg, 0);
    FilterExact(m, q, f, v, cfg, 0);
  }

  // ---------------------------------------------------------------- when all handles accept

  ghost predicate AllAccept(m: Machine) {
    forall i :: 0 <= i < |m.env| ==> m.env[i] == Accepted
  }

  /** What is told, in order, when these contexts from `k` on get a new value. */
  function Told(ctxs: seq<Ctx>, chosen: set<nat>, f: Field, v: int, lv: Levels, cfg: Config, k: nat): seq<Sent>
    requires k <= |ctxs|
    decreases |ctxs| - k
  {
    if k == |ctxs| then []
    else (if k in chosen then [Effective(With(ctxs[k], f, v), lv, cfg)] else []) + Told(ctxs, chosen, f, v, lv, cfg, k + 1)
  }

  lemma {:induction false} ToldSame(a: seq<Ctx>, b: seq<Ctx>, chosen: set<nat>, f: Field, v: int, lv: Levels, cfg: Config, k: nat)
    requires k <= |a| == |b| && forall j :: k <= j < |a| ==> a[j] == b[j]
    ensures Told(a, chosen, f, v, lv, cfg, k) == Told(b, chosen, f, v, lv, cfg, k)
    decreases |a| - k
  {
    if k < |a| {
      ToldSame(a, b, chosen, f, v, lv, cfg, k + 1);
    }
  }

  lemma ToldNext(sent: seq<Sent>, ctxs: seq<Ctx>, chosen: set<nat>, f: Field, v: int, lv: Levels, cfg: Config, k: nat)
    requires k < |ctxs|
    ensures sent + Told(ctxs, chosen, f, v, lv, cfg, k)
            == (if k in chosen then sent + [Effective(With(ctxs[k], f, v), lv, cfg)] else sent) + Told(ctxs, chosen, f, v, lv, cfg, k + 1)
  {
  }

  lemma SetOneAccepted(m: Machine, k: nat, f: Field, v: int, cfg: Config)
    requires k < |m.u.ctxs| && AllAccept(m)
    ensures var r, c := SetOne(m, k, f, v, cfg), m.u.ctxs[k];
            && AllAccept(r) && r.lv == m.lv && r.u == m.u.(ctxs := m.u.ctxs[k := if Live(c.handle) then With(c, f, v) else c])
            && r.sent == if Live(c.handle) then m.sent + [Effective(With(c, f, v), m.lv, cfg)] else m.sent
  {
  }

  /** What a request sets when nothing fails: context `j` and nothing else, if it is selected and has a live handle. */
  function Target(c: Ctx, q: Query, f: Field, v: int): Ctx
    requires NormalCtx(c)
  {
    if Selected(c, q) && Live(c.handle) then With(c, f, v) else c
  }

  /** From `k` on exactly these contexts are selected and can be told. */
  ghost predicate Chosen(ctxs: seq<Ctx>, q: Query, chosen: set<nat>, k: nat)
    requires NormalIds(ctxs)
  {
    forall j :: k <= j < |ctxs| ==> (j in chosen <==> Selected(ctxs[j], q) && Live(ctxs[j].handle))
  }

  /** From `k` on all selected contexts are set as Target says. */
  ghost predicate Targeted(ctxs: seq<Ctx>, q: Query, f: Field, v: int, k: nat, r: seq<Ctx>)
    requires NormalIds(ctxs)
  {
    && |r| == |ctxs|
    && (forall j :: 0 <= j < k && j < |ctxs| ==> r[j] == ctxs[j])
    && (forall j :: k <= j < |ctxs| ==> r[j] == Target(ctxs[j], q, f, v))
  }

  /** And each of them is told, and nothing else happens. */
  ghost predicate SetsAll(m: Machine, q: Query, chosen: set<nat>, f: Field, v: int, cfg: Config, k: nat, r: Machine)
    requires k <= |m.u.ctxs| && NormalIds(m.u.ctxs)
  {
    && r.u.apps == m.u.apps && r.lv == m.lv && Targeted(m.u.ctxs, q, f, v, k, r.u.ctxs)
    && r.sent == m.sent + Told(m.u.ctxs, chosen, f, v, m.lv, cfg, k)
  }

  lemma TargetedMore(ctxs: seq<Ctx>, mid: seq<Ctx>, q: Query, f: Field, v: int, k: nat, r: seq<Ctx>)
    requires k < |ctxs| && NormalIds(ctxs) && SameCtxIds(ctxs, mid) && mid == ctxs[k := Target(ctxs[k], q, f, v)]
    requires Targeted(mid, q, f, v, k + 1, r)
    ensures Targeted(ctxs, q, f, v, k, r)
  {
  }

  lemma SetsOneMore(m: Machine, m1: Machine, q: Query, chosen: set<nat>, f: Field, v: int, cfg: Config, k: nat, r: Machine)
    requires k < |m.u.ctxs| && NormalIds(m.u.ctxs) && Chosen(m.u.ctxs, q, chosen, k) && SameCtxIds(m.u.ctxs, m1.u.ctxs)
    requires m1.lv == m.lv && m1.u == m.u.(ctxs := m.u.ctxs[k := Target(m.u.ctxs[k], q, f, v)])
    requires m1.sent == if k in chosen then m.sent + [Effective(With(m.u.ctxs[k], f, v), m.lv, cfg)] else m.sent
    requires SetsAll(m1, q, chosen, f, v, cfg, k + 1, r)
    ensures SetsAll(m, q, chosen, f, v, cfg, k, r)
  {
    TargetedMore(m.u.ctxs, m1.u.ctxs, q, f, v, k, r.u.ctxs);
    ToldSame(m.u.ctxs, m1.u.ctxs, chosen, f, v, m.lv, cfg, k + 1);
    ToldNext(m.sent, m.u.ctxs, chosen, f, v, m.lv, cfg, k);
  }

  lemma {:induction false} FilterAccepted(m: Machine, q: Query, chosen: set<nat>, f: Field, v: int, cfg: Config, k: nat)
    requires k <= |m.u.ctxs| && NormalIds(m.u.ctxs) && AllAccept(m) && Chosen(m.u.ctxs, q, chosen, k)
    ensures SetsAll(m, q, chosen, f, v, cfg, k, FilterSet(m, q, f, v, cfg, k))
    decreases |m.u.ctxs| - k
  {
    if k < |m.u.ctxs| {
      var m1 := if Selected(m.u.ctxs[k], q) then SetOne(m, k, f, v, cfg) else m;
      SetOneIds(m, k, f, v, cfg);
      SetOneAccepted(m, k, f, v, cfg);
      FilterAccepted(m1, q, chosen, f, v, cfg, k + 1);
      SetsOneMore(m, m1, q, chosen, f, v, cfg, k, FilterSet(m1, q, f, v, cfg, k + 1));
    } else {
      assert m.sent + [] == m.sent;
    }
  }

  /** With accepting handles the scan sets all selected contexts with a live handle, tells each of them, and changes nothing else at all. */
  lemma ScanAccepted(m: Machine, q: Query, chosen: set<nat>, f: Field, v: int, cfg: Config)
    requires Tidy(m) && AllAccept(m) && Chosen(m.u.ctxs, q, chosen, 0)
    ensures SetsAll(m, q, chosen, f, v, cfg, 0, ScanSet(m, q, f, v, cfg, 0))
  {
    ScanIsFilter(m, q, f, v, cfg, 0);
    FilterAccepted(m, q, chosen, f, v, cfg, 0);
  }

  // ---------------------------------------------------------------- what a request means

  /** The pattern has `n` characters and the last one is a star. */
  predicate Starred(pattern: Id, n: nat) {
    && 1 <= n <= 4 && pattern[n - 1] == 42
    && (forall j :: 0 <= j < n ==> pattern[j] != 0) && (n < 4 ==> pattern[n] == 0)
  }

  /** An empty pattern leaves the id open, a final star leaves its end open. */
  predicate Fits(pattern: Id, id: seq<byte>)
    requires |id| == 4
  {
    || pattern[0] == 0
    || (if exists n: nat :: n <= 4 && Starred(pattern, n) then forall n: nat :: n <= 4 && Starred(pattern, n) ==> id[..n - 1] == pattern[..n - 1]
        else id == pattern)
  }

  lemma StarredIs(pattern: Id)
    ensures forall n: nat :: Starred(pattern, n) <==> EndsInStar(pattern) && n == Strlen(pattern)
  {
  }

  /** What the code compares is what the pattern means. */
  lemma FitsIs(pattern: Id, id: seq<byte>)
    requires |id| == 4 && Given(pattern)
    ensures Fits(pattern, id) <==> var n := if EndsInStar(pattern) then Strlen(pattern) - 1 else 4; id[..n] == pattern[..n]
  {
    StarredIs(pattern);
    if EndsInStar(pattern) {
      assert Starred(pattern, Strlen(pattern));
    } else {
      assert id[..4] == id && pattern[..4] == pattern;
    }
  }

  /** With both ids given, the context of just these ids (a star is then a character); with one, the contexts that fit it. */
  predicate Meant(c: Ctx, apid: Id, ctid: Id) {
    if Given(apid) && Given(ctid) then IdBytes(c.apid) == apid && IdBytes(c.ctid) == ctid
    else (Given(apid) || Given(ctid)) && Fits(apid, IdBytes(c.apid)) && Fits(ctid, IdBytes(c.ctid))
  }

  /** The contexts meant have the new value or, as when a send failed, the old one; the others stay, but for handles. */
  ghost predicate OnlyMeant(ctxs: seq<Ctx>, r: seq<Ctx>, apid: Id, ctid: Id, f: Field, v: int) {
    && |r| == |ctxs|
    && forall j :: 0 <= j < |ctxs| ==>
           SameButHandle(ctxs[j], r[j]) || (Meant(ctxs[j], apid, ctid) && SameButHandle(With(ctxs[j], f, v), r[j]))
  }

  /** The contexts meant that can be told. */
  function MeantLive(ctxs: seq<Ctx>, apid: Id, ctid: Id): set<nat> {
    set j: nat | j < |ctxs| && Meant(ctxs[j], apid, ctid) && Live(ctxs[j].handle)
  }

  /** Exactly the contexts meant that have a live handle are set and told, in order, and nothing else changes. */
  ghost predicate AllMeant(m: Machine, r: Machine, apid: Id, ctid: Id, f: Field, v: int, cfg: Config) {
    var chosen := MeantLive(m.u.ctxs, apid, ctid);
    && r.u.apps == m.u.apps && |r.u.ctxs| == |m.u.ctxs| && r.lv == m.lv
    && (forall j: nat :: j < |m.u.ctxs| ==> r.u.ctxs[j] == if j in chosen then With(m.u.ctxs[j], f, v) else m.u.ctxs[j])
    && r.sent == m.sent + Told(m.u.ctxs, chosen, f, v, m.lv, cfg, 0)
  }

  /** Whatever the handles answer only the contexts meant are changed, and if all accept they are set and told. */
  ghost predicate Honoured(m: Machine, r: Machine, apid: Id, ctid: Id, f: Field, v: int, cfg: Config) {
    OnlyMeant(m.u.ctxs, r.u.ctxs, apid, ctid, f, v) && (AllAccept(m) ==> AllMeant(m, r, apid, ctid, f, v, cfg))
  }

  lemma ScanMeans(m: Machine, q: Query, apid: Id, ctid: Id, f: Field, v: int, cfg: Config)
    requires Tidy(m)
    requires forall j :: 0 <= j < |m.u.ctxs| ==> (Selected(m.u.ctxs[j], q) <==> Meant(m.u.ctxs[j], apid, ctid))
    ensures Honoured(m, ScanSet(m, q, f, v, cfg, 0), apid, ctid, f, v, cfg)
  {
    ScanExact(m, q, f, v, cfg);
    if AllAccept(m) {
      ScanAccepted(m, q, MeantLive(m.u.ctxs, apid, ctid), f, v, cfg);
    }
  }

  lemma WholeId(c: Ctx, apid: Id, ctid: Id)
    requires NormalCtx(c)
    ensures IdBytes(c.apid) == apid && IdBytes(c.ctid) == ctid <==> c.apid == Num(apid) && c.ctid == Num(ctid)
  {
    NumRoundTrip(apid);
    NumRoundTrip(ctid);
    IdBytesRoundTrip(c.apid);
    IdBytesRoundTrip(c.ctid);
  }

  /** A context found by both ids is the only one meant, and if none is found none is meant. */
  lemma FoundIsMeant(m: Machine, apid: Id, ctid: Id)
    requires Tidy(m) && Given(apid) && Given(ctid)
    ensures var k := FindCtx(m.u.ctxs, Num(apid), Num(ctid));
            forall j :: 0 <= j < |m.u.ctxs| ==> (Meant(m.u.ctxs[j], apid, ctid) <==> j == k)
  {
    forall j | 0 <= j < |m.u.ctxs|
      ensures Meant(m.u.ctxs[j], apid, ctid) <==> j == FindCtx(m.u.ctxs, Num(apid), Num(ctid))
    {
      WholeId(m.u.ctxs[j], apid, ctid);
      CtxAt(m.u.ctxs, j);
    }
  }

  lemma {:induction false} ToldOne(ctxs: seq<Ctx>, chosen: set<nat>, i: nat, f: Field, v: int, lv: Levels, cfg: Config, k: nat)
    requires k <= |ctxs| && i < |ctxs| && forall j :: k <= j < |ctxs| && j != i ==> j !in chosen
    ensures Told(ctxs, chosen, f, v, lv, cfg, k) == if k <= i && i in chosen then [Effective(With(ctxs[i], f, v), lv, cfg)] else []
    decreases |ctxs| - k
  {
    if k < |ctxs| {
      ToldOne(ctxs, chosen, i, f, v, lv, cfg, k + 1);
    }
  }

  lemma {:induction false} ToldNone(ctxs: seq<Ctx>, f: Field, v: int, lv: Levels, cfg: Config, k: nat)
    requires k <= |ctxs|
    ensures Told(ctxs, {}, f, v, lv, cfg, k) == []
    decreases |ctxs| - k
  {
    if k < |ctxs| {
      ToldNone(ctxs, f, v, lv, cfg, k + 1);
    }
  }

  lemma NobodyMeant(m: Machine, apid: Id, ctid: Id, f: Field, v: int, cfg: Config)
    requires forall j :: 0 <= j < |m.u.ctxs| ==> !Meant(m.u.ctxs[j], apid, ctid)
    ensures Honoured(m, m, apid, ctid, f, v, cfg)
  {
    assert MeantLive(m.u.ctxs, apid, ctid) == {};
    ToldNone(m.u.ctxs, f, v, m.lv, cfg, 0);
    assert m.sent + [] == m.sent;
  }

  lemma OneMeant(m: Machine, apid: Id, ctid: Id, k: nat, f: Field, v: int, cfg: Config)
    requires k < |m.u.ctxs| && AllAccept(m) && forall j :: 0 <= j < |m.u.ctxs| ==> (Meant(m.u.ctxs[j], apid, ctid) <==> j == k)
    ensures AllMeant(m, SetOne(m, k, f, v, cfg), apid, ctid, f, v, cfg)
  {
    SetOneAccepted(m, k, f, v, cfg);
    ToldOne(m.u.ctxs, MeantLive(m.u.ctxs, apid, ctid), k, f, v, m.lv, cfg, 0);
    assert m.sent + [] == m.sent;
  }

  lemma SetFoundMeans(m: Machine, apid: Id, ctid: Id, f: Field, v: int, cfg: Config)
    requires Tidy(m) && Given(apid) && Given(ctid)
    ensures var k := FindCtx(m.u.ctxs, Num(apid), Num(ctid));
            Honoured(m, if k >= 0 then SetOne(m, k, f, v, cfg) else m, apid, ctid, f, v, cfg)
  {
    FoundIsMeant(m, apid, ctid);
    var k := FindCtx(m.u.ctxs, Num(apid), Num(ctid));
    if k >= 0 {
      SetOneDoes(m, k, f, v, cfg);
      if AllAccept(m) {
        OneMeant(m, apid, ctid, k, f, v, cfg);
      }
    } else {
      NobodyMeant(m, apid, ctid, f, v, cfg);
    }
  }

  /** The value a request asks for: without enforcement the byte read with its sign, with it the smaller of request and limit. */
  predicate AsksFor(request: byte, f: Field, cfg: Config, v: int) {
    var (asked: int, limit) := (request, if f == Level then cfg.maxLevel else cfg.maxTrace);
    if !cfg.enforce then v == if asked <= 127 then asked else asked - 256
    else -128 <= limit <= 127 ==> v == if asked <= limit then asked else limit
  }

  lemma AppRequest(m: Machine, apid: Id, ctid: Id, f: Field, v: int, cfg: Config)
    requires Tidy(m) && Given(apid) && !Given(ctid)
    ensures Honoured(m, ScanSet(m, Query(true, apid, if EndsInStar(apid) then Strlen(apid) - 1 else 4), f, v, cfg, 0), apid, ctid, f, v, cfg)
  {
    forall j | 0 <= j < |m.u.ctxs|
      ensures Selected(m.u.ctxs[j], Query(true, apid, if EndsInStar(apid) then Strlen(apid) - 1 else 4)) <==> Meant(m.u.ctxs[j], apid, ctid)
    {
      FitsIs(apid, IdBytes(m.u.ctxs[j].apid));
    }
    ScanMeans(m, Query(true, apid, if EndsInStar(apid) then Strlen(apid) - 1 else 4), apid, ctid, f, v, cfg);
  }

  lemma CtxRequest(m: Machine, apid: Id, ctid: Id, f: Field, v: int, cfg: Config)
    requires Tidy(m) && !Given(apid) && Given(ctid)
    ensures Honoured(m, ScanSet(m, Query(false, ctid, if EndsInStar(ctid) then Strlen(ctid) - 1 else 4), f, v, cfg, 0), apid, ctid, f, v, cfg)
  {
    forall j | 0 <= j < |m.u.ctxs|
      ensures Selected(m.u.ctxs[j], Query(false, ctid, if EndsInStar(ctid) then Strlen(ctid) - 1 else 4)) <==> Meant(m.u.ctxs[j], apid, ctid)
    {
      FitsIs(ctid, IdBytes(m.u.ctxs[j].ctid));
    }
    ScanMeans(m, Query(false, ctid, if EndsInStar(ctid) then Strlen(ctid) - 1 else 4), apid, ctid, f, v, cfg);
  }

  /** A set request changes only the contexts meant, and with accepting handles sets and tells all of them that have a live handle. */
  lemma RequestMeans(m: Machine, apid: Id, ctid: Id, f: Field, request: byte, cfg: Config) returns (v: int)
    requires Tidy(m)
    ensures AsksFor(request, f, cfg, v) && Honoured(m, SetRequest(m, apid, ctid, f, request, cfg), apid, ctid, f, v, cfg)
  {
    v := Requested(request, f, cfg);
    if Given(apid) && Given(ctid) {
      SetFoundMeans(m, apid, ctid, f, v, cfg);
    } else if Given(apid) {
      AppRequest(m, apid, ctid, f, v, cfg);
    } else if Given(ctid) {
      CtxRequest(m, apid, ctid, f, v, cfg);
    } else {
      NobodyMeant(m, apid, ctid, f, v, cfg);
    }
  }

  // ---------------------------------------------------------------- requests for all contexts, when no pipe breaks

  /** Messages are accepted or fail, but no pipe breaks. */
  ghost predicate Unbroken(m: Machine) {
    forall i :: 0 <= i < |m.env| ==> m.env[i] != BrokenPipe
  }

  lemma SendUnbroken(m: Machine, k: nat, cfg: Config)
    requires k < |m.u.ctxs| && Unbroken(m)
    ensures var r := SendLevel(m, k, cfg).0;
            Unbroken(r) && r == m.(env := r.env, sent := m.sent + [Effective(m.u.ctxs[k], m.lv, cfg)])
  {
  }

  /** The contexts that can be told. */
  function LiveOnes(ctxs: seq<Ctx>): set<nat> {
    set j: nat | j < |ctxs| && Live(ctxs[j].handle)
  }

  /** From `k` on the chosen contexts have the new value and are told, and nothing else happens. */
  ghost predicate SetsChosen(m: Machine, chosen: set<nat>, f: Field, v: int, cfg: Config, k: nat, r: Machine)
    requires k <= |m.u.ctxs|
  {
    && r.u.apps == m.u.apps && |r.u.ctxs| == |m.u.ctxs| && r.lv == m.lv
    && (forall j: nat :: j < |m.u.ctxs| ==> r.u.ctxs[j] == if k <= j && j in chosen then With(m.u.ctxs[j], f, v) else m.u.ctxs[j])
    && r.sent == m.sent + Told(m.u.ctxs, chosen, f, v, m.lv, cfg, k)
  }

  lemma SetsChosenMore(m: Machine, chosen: set<nat>, f: Field, v: int, cfg: Config, k: nat, m1: Machine, r: Machine)
    requires k < |m.u.ctxs| && m1.lv == m.lv
    requires m1.u == m.u.(ctxs := m.u.ctxs[k := if k in chosen then With(m.u.ctxs[k], f, v) else m.u.ctxs[k]])
    requires SetsChosen(m1, chosen, f, v, cfg, k + 1, r)
    requires m1.sent == if k in chosen then m.sent + [Effective(With(m.u.ctxs[k], f, v), m.lv, cfg)] else m.sent
    ensures SetsChosen(m, chosen, f, v, cfg, k, r)
  {
    ToldSame(m.u.ctxs, m1.u.ctxs, chosen, f, v, m.lv, cfg, k + 1);
    ToldNext(m.sent, m.u.ctxs, chosen, f, v, m.lv, cfg, k);
  }

  /** A request for all contexts sets and tells every context with a live handle and nothing else, and takes nothing back if a message fails. */
  lemma {:induction false} EveryAccepted(m: Machine, chosen: set<nat>, f: Field, v: int, cfg: Config, k: nat)
    requires k <= |m.u.ctxs| && Unbroken(m)
    requires forall j :: k <= j < |m.u.ctxs| ==> (j in chosen <==> Live(m.u.ctxs[j].handle))
    ensures SetsChosen(m, chosen, f, v, cfg, k, SetEvery(m, f, v, cfg, k))
    decreases |m.u.ctxs| - k
  {
    if k < |m.u.ctxs| {
      var m1 := m;
      if Live(m.u.ctxs[k].handle) {
        SendUnbroken(Put(m, k, With(m.u.ctxs[k], f, v)), k, cfg);
        m1 := SendLevel(Put(m, k, With(m.u.ctxs[k], f, v)), k, cfg).0;
      }
      EveryAccepted(m1, chosen, f, v, cfg, k + 1);
      SetsChosenMore(m, chosen, f, v, cfg, k, m1, SetEvery(m1, f, v, cfg, k + 1));
    } else {
      assert m.sent + [] == m.sent;
    }
  }

  /** A context that follows a default and can be told. */
  predicate OnDefault(c: Ctx) {
    (c.level == LOG_DEFAULT || c.trace == TRACE_DEFAULT) && Live(c.handle)
  }

  /** What the contexts from `k` on that follow a default come to. */
  function DefaultsFrom(ctxs: seq<Ctx>, lv: Levels, cfg: Config, k: nat): seq<Sent>
    requires k <= |ctxs|
    decreases |ctxs| - k
  {
    if k == |ctxs| then [] else (if OnDefault(ctxs[k]) then [Effective(ctxs[k], lv, cfg)] else []) + DefaultsFrom(ctxs, lv, cfg, k + 1)
  }

  /** A new default changes no context, and exactly the contexts that follow a default are told, in order. */
  lemma {:induction false} DefaultsAccepted(m: Machine, cfg: Config, k: nat)
    requires k <= |m.u.ctxs| && Unbroken(m)
    ensures var r := SendDefaults(m, cfg, k);
            r.u == m.u && r.lv == m.lv && r.sent == m.sent + DefaultsFrom(m.u.ctxs, m.lv, cfg, k)
    decreases |m.u.ctxs| - k
  {
    if k < |m.u.ctxs| {
      if OnDefault(m.u.ctxs[k]) {
        SendUnbroken(m, k, cfg);
        DefaultsAccepted(SendLevel(m, k, cfg).0, cfg, k + 1);
      } else {
        DefaultsAccepted(m, cfg, k + 1);
      }
    }
  }
}
