/**
 The answer to GET_LOG_INFO (service 3): the size computed in a first pass over
 the tables, the bytes written in a second, and that the two agree.
 */
module LogInfo {
  import opened Bytes
  import opened Ids
  import opened RegistryTables
  import opened RegistrySpec

  /** An id of 0 is an empty one: any application, or any context. */
  datatype Request = Request(options: byte, apid: IdNum, ctid: IdNum)

  /** Options the daemon answers. */
  predicate Answerable(q: Request) {
    3 <= q.options <= 7
  }

  const SERVICE: nat := 3
  const NO_MATCH: byte := 8
  const REMO: seq<byte> := [114, 101, 109, 111]

  predicate HasLevel(o: byte) {
    o == 4 || o == 6 || o == 7
  }

  predicate HasTrace(o: byte) {
    o == 5 || o == 6 || o == 7
  }

  predicate HasTexts(o: byte) {
    o == 7
  }

  // ---------------------------------------------------------------- what a request is about

  ghost predicate BlockIn(u: Users, i: nat)
    requires i < |u.apps|
  {
    0 <= Offset(u.apps, i) <= Offset(u.apps, i) + u.apps[i].numContexts <= |u.ctxs|
  }

  /** Every application's stretch of contexts lies in the table. */
  ghost predicate InBlocks(u: Users) {
    forall i :: 0 <= i < |u.apps| ==> BlockIn(u, i)
  }

  lemma ConsistentInBlocks(u: Users)
    requires Consistent(u.apps, u.ctxs)
    ensures InBlocks(u)
  {
    forall i | 0 <= i < |u.apps|
      ensures BlockIn(u, i)
    {
      BlockTheorem(u.apps, u.ctxs, i);
    }
  }

  /** The contexts of application `i`, found at the sum of the preceding counts. */
  function BlockOf(u: Users, i: nat): (r: seq<Ctx>)
    requires InBlocks(u) && i < |u.apps|
    ensures |r| == u.apps[i].numContexts
  {
    assert BlockIn(u, i);
    u.ctxs[Offset(u.apps, i)..Offset(u.apps, i) + u.apps[i].numContexts]
  }

  function ChosenApps(u: Users, q: Request): seq<App> {
    if q.apid == 0 then u.apps
    else
      var i := FindApp(u.apps, q.apid);
      if i < 0 then [] else [u.apps[i]]
  }

  function ChosenCtxs(u: Users, q: Request): seq<Ctx>
    requires InBlocks(u)
  {
    var i := FindApp(u.apps, q.apid);
    if q.apid == 0 then u.ctxs
    else if i < 0 then []
    else if q.ctid == 0 then BlockOf(u, i)
    else
      var k := FindCtx(u.ctxs, q.apid, q.ctid);
      if k < 0 then [] else [u.ctxs[k]]
  }

  // ---------------------------------------------------------------- first pass: the size

  function TextLen(t: Text): nat {
    match t
    case Null => 0
    case Chars(chars) => |chars|
  }

  function CtxTexts(cs: seq<Ctx>): nat {
    if cs == [] then 0 else CtxTexts(cs[..|cs| - 1]) + 2 + TextLen(cs[|cs| - 1].desc)
  }

  function AppTexts(apps: seq<App>): nat {
    if apps == [] then 0 else AppTexts(apps[..|apps| - 1]) + 2 + TextLen(apps[|apps| - 1].desc)
  }

  function SizeCont(o: byte): nat {
    4 + (if HasLevel(o) then 1 else 0) + (if HasTrace(o) then 1 else 0)
  }

  function DescSize(o: byte, t: Text): nat {
    if HasTexts(o) then 2 + TextLen(t) else 0
  }

  /** The number of bytes of some contexts. */
  function CtxsSize(cs: seq<Ctx>, o: byte): nat {
    if cs == [] then 0 else CtxsSize(cs[..|cs| - 1], o) + SizeCont(o) + DescSize(o, cs[|cs| - 1].desc)
  }

  /** resp.datasize, with the size of the contexts taken one by one; CtxsSizeIs has the product that is computed. */
  function DataSize(u: Users, q: Request): nat
    requires InBlocks(u)
  {
    11 + 6 * |ChosenApps(u, q)| + CtxsSize(ChosenCtxs(u, q), q.options)
    + if HasTexts(q.options) then AppTexts(ChosenApps(u, q)) else 0
  }

  // ---------------------------------------------------------------- second pass: the bytes

  function TextBytes(t: Text): (s: seq<byte>)
    ensures |s| == 2 + TextLen(t)
  {
    match t
    case Null => Le16(0)
    case Chars(chars) => Le16(|chars| % 65536) + chars
  }

  function LevelBytes(given: bool, level: int): seq<byte> {
    if given then [level % 256] else []
  }

  function DescBytes(o: byte, t: Text): (s: seq<byte>)
    ensures |s| == DescSize(o, t)
  {
    if HasTexts(o) then TextBytes(t) else []
  }

  function CtxBytes(c: Ctx, o: byte): (s: seq<byte>)
    ensures |s| == SizeCont(o) + DescSize(o, c.desc)
  {
    IdBytes(c.ctid) + LevelBytes(HasLevel(o), c.level) + LevelBytes(HasTrace(o), c.trace) + DescBytes(o, c.desc)
  }

  function CtxsBytes(cs: seq<Ctx>, o: byte): (s: seq<byte>)
    ensures |s| == CtxsSize(cs, o)
  {
    if cs == [] then [] else CtxsBytes(cs[..|cs| - 1], o) + CtxBytes(cs[|cs| - 1], o)
  }

  /** The contexts with this context id; all of them for an empty one. */
  function Matching(cs: seq<Ctx>, ctid: IdNum): (r: seq<Ctx>)
    ensures |r| <= |cs|
  {
    if cs == [] then []
    else
      var n := |cs| - 1;
      Matching(cs[..n], ctid) + if ctid == 0 || cs[n].ctid == ctid then [cs[n]] else []
  }

  /** count_con_ids, cast to 16 bits. */
  function Count(u: Users, q: Request, i: nat): (n: nat)
    requires InBlocks(u) && i < |u.apps|
    ensures n < TWO_16
  {
    (if q.apid != 0 then |ChosenCtxs(u, q)| else |BlockOf(u, i)|) % 65536
  }

  /** The contexts the second pass writes for application `i`. */
  function WrittenCtxs(u: Users, q: Request, i: nat): seq<Ctx>
    requires InBlocks(u) && i < |u.apps| && (q.apid != 0 ==> i == FindApp(u.apps, q.apid))
  {
    if q.apid != 0 && q.ctid != 0 then ChosenCtxs(u, q) else Matching(BlockOf(u, i)[..Count(u, q, i)], q.ctid)
  }

  /** One application in the answer: its id, its count, its contexts and its description. */
  datatype Section = Section(apid: IdNum, count: nat, ctxs: seq<Ctx>, desc: Text)

  function SectionSize(x: Section, o: byte): nat {
    6 + CtxsSize(x.ctxs, o) + DescSize(o, x.desc)
  }

  function SectionBytes(x: Section, o: byte): (s: seq<byte>)
    ensures |s| == SectionSize(x, o)
  {
    IdBytes(x.apid) + Le16(x.count % 65536) + CtxsBytes(x.ctxs, o) + DescBytes(o, x.desc)
  }

  function SectionsSize(xs: seq<Section>, o: byte): nat {
    if xs == [] then 0 else SectionsSize(xs[..|xs| - 1], o) + SectionSize(xs[|xs| - 1], o)
  }

  function SectionsBytes(xs: seq<Section>, o: byte): (s: seq<byte>)
    ensures |s| == SectionsSize(xs, o)
  {
    if xs == [] then [] else SectionsBytes(xs[..|xs| - 1], o) + SectionBytes(xs[|xs| - 1], o)
  }

  /** What the loop writes for application `i`. */
  function SectionOf(u: Users, q: Request, i: nat): Section
    requires InBlocks(u) && i < |u.apps| && (q.apid != 0 ==> i == FindApp(u.apps, q.apid))
  {
    Section(u.apps[i].apid, Count(u, q, i), WrittenCtxs(u, q, i), u.apps[i].desc)
  }

  /** count_app_ids, cast to 16 bits. */
  function CountApps(u: Users, q: Request): (n: nat)
    ensures n < TWO_16 && n <= |ChosenApps(u, q)|
  {
    |ChosenApps(u, q)| % 65536
  }

  /** Which application turn `j` of the loop writes. */
  function Turn(u: Users, q: Request, j: nat): (i: nat)
    requires j < |ChosenApps(u, q)|
    ensures i < |u.apps| && u.apps[i] == ChosenApps(u, q)[j]
  {
    if q.apid == 0 then j else FindApp(u.apps, q.apid)
  }

  function Sections(u: Users, q: Request): (xs: seq<Section>)
    requires InBlocks(u)
    ensures |xs| == CountApps(u, q)
  {
    seq(CountApps(u, q), j requires 0 <= j < CountApps(u, q) => SectionOf(u, q, Turn(u, q, j)))
  }

  function Status(u: Users, q: Request): byte
    requires InBlocks(u)
  {
    if |ChosenApps(u, q)| != 0 && |ChosenCtxs(u, q)| != 0 then q.options else NO_MATCH
  }

  /** Service, status, and if there are any the applications. */
  function Framed(status: byte, n: nat, apps: seq<byte>): (s: seq<byte>)
    requires n < TWO_16
    ensures |s| == 5 + if n == 0 then 0 else 2 + |apps|
  {
    Le32(SERVICE) + [status] + if n == 0 then [] else Le16(n) + apps
  }

  /** All bytes before the trailing interface id. */
  function Payload(u: Users, q: Request): seq<byte>
    requires InBlocks(u)
  {
    Framed(Status(u, q), CountApps(u, q), SectionsBytes(Sections(u, q), q.options))
  }

  // ---------------------------------------------------------------- sizes of contexts

  lemma {:induction false} CtxsSizeIs(cs: seq<Ctx>, o: byte)
    ensures CtxsSize(cs, o) == |cs| * SizeCont(o) + if HasTexts(o) then CtxTexts(cs) else 0
  {
    if cs != [] {
      var n, size := |cs| - 1, SizeCont(o);
      CtxsSizeIs(cs[..n], o);
      assert |cs| * size == n * size + size;
    }
  }

  lemma {:induction false} CtxsSizeAppend(x: seq<Ctx>, y: seq<Ctx>, o: byte)
    ensures CtxsSize(x + y, o) == CtxsSize(x, o) + CtxsSize(y, o)
  {
    if y == [] {
      assert x + y == x;
    } else {
      var n := |y| - 1;
      CtxsSizeAppend(x, y[..n], o);
      assert (x + y)[..|x + y| - 1] == x + y[..n];
    }
  }

  lemma {:induction false} MatchingIsShorter(cs: seq<Ctx>, ctid: IdNum, o: byte)
    ensures CtxsSize(Matching(cs, ctid), o) <= CtxsSize(cs, o)
    ensures ctid == 0 ==> Matching(cs, ctid) == cs
  {
    if cs != [] {
      var n := |cs| - 1;
      var rest := Matching(cs[..n], ctid);
      MatchingIsShorter(cs[..n], ctid, o);
      assert cs == cs[..n] + [cs[n]];
      if ctid == 0 || cs[n].ctid == ctid {
        assert (rest + [cs[n]])[..|rest|] == rest;
      } else {
        assert Matching(cs, ctid) == rest;
      }
    }
  }

  lemma PrefixIsShorter(cs: seq<Ctx>, n: nat, o: byte)
    requires n <= |cs|
    ensures CtxsSize(cs[..n], o) <= CtxsSize(cs, o)
  {
    CtxsSizeAppend(cs[..n], cs[n..], o);
    assert cs == cs[..n] + cs[n..];
  }

  // ---------------------------------------------------------------- both passes agree

  /** The first `n` contexts that match are no longer than all of them, and are all of them if nothing is asked and left out. */
  lemma PrefixMatches(cs: seq<Ctx>, n: nat, ctid: IdNum, o: byte)
    requires n <= |cs|
    ensures CtxsSize(Matching(cs[..n], ctid), o) <= CtxsSize(cs, o)
    ensures ctid == 0 && n == |cs| ==> Matching(cs[..n], ctid) == cs
  {
    PrefixIsShorter(cs, n, o);
    MatchingIsShorter(cs[..n], ctid, o);
  }

  /** What is written for an application's contexts is no longer than all its contexts, and just that long if the counts fit. */
  lemma WrittenSize(u: Users, q: Request, i: nat)
    requires InBlocks(u) && i < |u.apps| && q.apid == 0
    ensures CtxsSize(WrittenCtxs(u, q, i), q.options) <= CtxsSize(BlockOf(u, i), q.options)
    ensures q.ctid == 0 && u.apps[i].numContexts < TWO_16 ==> WrittenCtxs(u, q, i) == BlockOf(u, i)
  {
    PrefixMatches(BlockOf(u, i), Count(u, q, i), q.ctid, q.options);
  }

  ghost predicate CountsFit(u: Users, n: nat)
    requires n <= |u.apps|
  {
    forall i :: 0 <= i < n ==> u.apps[i].numContexts < TWO_16
  }

  /** What the first `n` applications may take. */
  function Space(u: Users, n: nat, o: byte): nat
    requires InBlocks(u) && n <= |u.apps|
  {
    if n == 0 then 0 else Space(u, n - 1, o) + 6 + CtxsSize(BlockOf(u, n - 1), o) + DescSize(o, u.apps[n - 1].desc)
  }

  /** Section `i` takes no more than application `i` may take. */
  ghost predicate Fits(u: Users, x: Section, i: nat, o: byte, exactly: bool)
    requires InBlocks(u) && i < |u.apps|
  {
    var space := 6 + CtxsSize(BlockOf(u, i), o) + DescSize(o, u.apps[i].desc);
    SectionSize(x, o) <= space && (exactly ==> SectionSize(x, o) == space)
  }

  lemma {:induction false} SectionsFit(u: Users, xs: seq<Section>, o: byte, exactly: bool)
    requires InBlocks(u) && |xs| <= |u.apps| && forall i :: 0 <= i < |xs| ==> Fits(u, xs[i], i, o, exactly)
    ensures SectionsSize(xs, o) <= Space(u, |xs|, o) && (exactly ==> SectionsSize(xs, o) == Space(u, |xs|, o))
  {
    if xs != [] {
      var n := |xs| - 1;
      SectionsFit(u, xs[..n], o, exactly);
      assert Fits(u, xs[n], n, o, exactly);
    }
  }

  lemma AllAppsSize(u: Users, q: Request, exactly: bool)
    requires InBlocks(u) && q.apid == 0 && (exactly ==> q.ctid == 0 && CountsFit(u, CountApps(u, q)))
    ensures var (n, size) := (CountApps(u, q), SectionsSize(Sections(u, q), q.options));
            size <= Space(u, n, q.options) && (exactly ==> size == Space(u, n, q.options))
  {
    var xs := Sections(u, q);
    forall i | 0 <= i < |xs|
      ensures Fits(u, xs[i], i, q.options, exactly)
    {
      WrittenSize(u, q, i);
    }
    SectionsFit(u, xs, q.options, exactly);
  }

  /** The number of bytes of the first `n` contexts. */
  function SizeTo(cs: seq<Ctx>, n: nat, o: byte): nat
    requires n <= |cs|
  {
    if n == 0 then 0 else SizeTo(cs, n - 1, o) + SizeCont(o) + DescSize(o, cs[n - 1].desc)
  }

  lemma {:induction false} SizeToIs(cs: seq<Ctx>, n: nat, o: byte)
    requires n <= |cs|
    ensures CtxsSize(cs[..n], o) == SizeTo(cs, n, o)
  {
    if n > 0 {
      SizeToIs(cs, n - 1, o);
      assert cs[..n][..n - 1] == cs[..n - 1];
    }
  }

  lemma {:induction false} SizeToGrows(cs: seq<Ctx>, n: nat, k: nat, o: byte)
    requires n <= k <= |cs|
    ensures SizeTo(cs, n, o) <= SizeTo(cs, k, o)
    decreases k
  {
    if n < k {
      SizeToGrows(cs, n, k - 1, o);
    }
  }

  /** The texts of the first `n` applications. */
  function TextsTo(apps: seq<App>, n: nat): nat
    requires n <= |apps|
  {
    if n == 0 then 0 else TextsTo(apps, n - 1) + 2 + TextLen(apps[n - 1].desc)
  }

  lemma {:induction false} TextsToIs(apps: seq<App>, n: nat)
    requires n <= |apps|
    ensures AppTexts(apps[..n]) == TextsTo(apps, n)
  {
    if n > 0 {
      TextsToIs(apps, n - 1);
      assert apps[..n][..n - 1] == apps[..n - 1];
    }
  }

  lemma {:induction false} TextsToGrow(apps: seq<App>, n: nat, k: nat)
    requires n <= k <= |apps|
    ensures TextsTo(apps, n) <= TextsTo(apps, k)
    decreases k
  {
    if n < k {
      TextsToGrow(apps, n, k - 1);
    }
  }

  lemma BlockEnds(u: Users, i: nat, o: byte)
    requires InBlocks(u) && i < |u.apps| && BlockIn(u, i)
    ensures SizeTo(u.ctxs, Offset(u.apps, i + 1), o) == SizeTo(u.ctxs, Offset(u.apps, i), o) + CtxsSize(BlockOf(u, i), o)
  {
    StretchSize(u.ctxs, Offset(u.apps, i), u.apps[i].numContexts, o);
  }

  lemma StretchSize(cs: seq<Ctx>, off: nat, len: nat, o: byte)
    requires off + len <= |cs|
    ensures SizeTo(cs, off + len, o) == SizeTo(cs, off, o) + CtxsSize(cs[off..off + len], o)
  {
    SizeToIs(cs, off, o);
    SizeToIs(cs, off + len, o);
    CtxsSizeAppend(cs[..off], cs[off..off + len], o);
    assert cs[..off + len] == cs[..off] + cs[off..off + len];
  }

  /** The blocks follow each other without gaps. */
  lemma {:induction false} SpaceIs(u: Users, n: nat, o: byte)
    requires InBlocks(u) && n <= |u.apps|
    ensures 0 <= Offset(u.apps, n) <= |u.ctxs|
    ensures Space(u, n, o) == 6 * n + SizeTo(u.ctxs, Offset(u.apps, n), o) + if HasTexts(o) then TextsTo(u.apps, n) else 0
  {
    if n > 0 {
      SpaceIs(u, n - 1, o);
      assert BlockIn(u, n - 1);
      BlockEnds(u, n - 1, o);
    }
  }

  /** All contexts belong to some application. */
  lemma OffsetTotal(u: Users)
    requires Consistent(u.apps, u.ctxs)
    ensures Offset(u.apps, |u.apps|) == |u.ctxs|
  {
    ConsistentInBlocks(u);
    var n := |u.apps|;
    assert n > 0 ==> BlockIn(u, n - 1);
    if Offset(u.apps, n) < |u.ctxs| {
      var k := |u.ctxs| - 1;
      assert Known(u.apps, u.ctxs[k].apid);
      var i :| 0 <= i < |u.apps| && u.apps[i].apid == u.ctxs[k].apid;
      BlockTheorem(u.apps, u.ctxs, i);
      OffsetGrows(u, i + 1, n);
      assert false;
    }
  }

  lemma {:induction false} OffsetGrows(u: Users, i: nat, j: nat)
    requires InBlocks(u) && i <= j <= |u.apps|
    ensures Offset(u.apps, i) <= Offset(u.apps, j)
    decreases j
  {
    if i < j {
      OffsetGrows(u, i, j - 1);
      assert BlockIn(u, j - 1);
    }
  }

  lemma WrittenOne(u: Users, q: Request, i: nat)
    requires InBlocks(u) && q.apid != 0 && i == FindApp(u.apps, q.apid)
    ensures CtxsSize(WrittenCtxs(u, q, i), q.options) <= CtxsSize(ChosenCtxs(u, q), q.options)
    ensures |ChosenCtxs(u, q)| < TWO_16 ==> WrittenCtxs(u, q, i) == ChosenCtxs(u, q)
  {
    if q.ctid == 0 {
      PrefixMatches(ChosenCtxs(u, q), Count(u, q, i), 0, q.options);
    }
  }

  lemma OneAppSize(u: Users, q: Request)
    requires InBlocks(u) && q.apid != 0 && FindApp(u.apps, q.apid) >= 0
    ensures var (size, bound) := (SectionsSize(Sections(u, q), q.options), 6 + CtxsSize(ChosenCtxs(u, q), q.options)
                                    + if HasTexts(q.options) then AppTexts(ChosenApps(u, q)) else 0);
            size <= bound && (|ChosenCtxs(u, q)| < TWO_16 ==> size == bound)
  {
    var i := FindApp(u.apps, q.apid);
    WrittenOne(u, q, i);
    var x := SectionOf(u, q, i);
    assert Sections(u, q) == [x];
    assert SectionsSize([x], q.options) == SectionSize(x, q.options) by { assert [x][..0] == []; }
    assert AppTexts(ChosenApps(u, q)) == 2 + TextLen(u.apps[i].desc) by { assert [u.apps[i]][..0] == []; }
  }

  lemma WholeTables(u: Users, o: byte)
    ensures CtxsSize(u.ctxs, o) == SizeTo(u.ctxs, |u.ctxs|, o) && AppTexts(u.apps) == TextsTo(u.apps, |u.apps|)
  {
    SizeToIs(u.ctxs, |u.ctxs|, o);
    TextsToIs(u.apps, |u.apps|);
    assert u.apps[..|u.apps|] == u.apps && u.ctxs[..|u.ctxs|] == u.ctxs;
  }

  /** Nothing is cut off when counts are stored in 16 bits. */
  ghost predicate SixteenBits(u: Users, q: Request)
    requires InBlocks(u)
  {
    && |ChosenApps(u, q)| < TWO_16
    && (if q.apid == 0 then CountsFit(u, |u.apps|) else |ChosenCtxs(u, q)| < TWO_16)
  }

  /** The bytes written and the trailing id never exceed the size computed beforehand, for any tables and request. */
  lemma NeverOverruns(u: Users, q: Request)
    requires InBlocks(u)
    ensures |Payload(u, q)| + |REMO| <= DataSize(u, q)
  {
    var n := CountApps(u, q);
    if q.apid == 0 {
      AllAppsSize(u, q, false);
      SpaceIs(u, n, q.options);
      WholeTables(u, q.options);
      TextsToGrow(u.apps, n, |u.apps|);
      SizeToGrows(u.ctxs, Offset(u.apps, n), |u.ctxs|, q.options);
    } else if n == 1 {
      OneAppSize(u, q);
    }
  }

  /** The blocks cover the table. */
  ghost predicate Covered(u: Users) {
    InBlocks(u) && Offset(u.apps, |u.apps|) == |u.ctxs|
  }

  lemma ConsistentCovered(u: Users)
    requires Consistent(u.apps, u.ctxs)
    ensures Covered(u)
  {
    ConsistentInBlocks(u);
    OffsetTotal(u);
  }

  lemma SpaceTotal(u: Users, o: byte)
    requires Covered(u)
    ensures Space(u, |u.apps|, o) == 6 * |u.apps| + CtxsSize(u.ctxs, o) + if HasTexts(o) then AppTexts(u.apps) else 0
  {
    SpaceIs(u, |u.apps|, o);
    WholeTables(u, o);
  }

  lemma EveryAppSize(u: Users, q: Request)
    requires Covered(u) && q.apid == 0 && q.ctid == 0 && |u.apps| < TWO_16 && CountsFit(u, |u.apps|)
    ensures SectionsSize(Sections(u, q), q.options) == 6 * |u.apps| + CtxsSize(u.ctxs, q.options)
                                           + if HasTexts(q.options) then AppTexts(u.apps) else 0
  {
    assert CountApps(u, q) == |u.apps|;
    AllAppsSize(u, q, true);
    SpaceTotal(u, q.options);
  }

  lemma AllWritten(u: Users, q: Request)
    requires Covered(u) && SixteenBits(u, q) && ChosenApps(u, q) != [] && !(q.apid == 0 && q.ctid != 0)
    ensures SectionsSize(Sections(u, q), q.options) == DataSize(u, q) - 11
  {
    if q.apid == 0 {
      EveryAppSize(u, q);
    } else {
      OneAppSize(u, q);
    }
  }

  /** They use all of it when an application matches, counts fit and the request does not name a context alone. */
  lemma FillsExactly(u: Users, q: Request)
    requires Covered(u) && SixteenBits(u, q) && !(q.apid == 0 && q.ctid != 0)
    ensures |Payload(u, q)| + |REMO| == DataSize(u, q) - if ChosenApps(u, q) == [] then 2 else 0
  {
    assert CountApps(u, q) == |ChosenApps(u, q)|;
    if ChosenApps(u, q) != [] {
      AllWritten(u, q);
    } else if q.apid == 0 {
      assert u.ctxs == [];
    }
  }

  // ---------------------------------------------------------------- requests for a context id alone

  lemma {:induction false} MatchingAll(cs: seq<Ctx>, ctid: IdNum)
    requires forall k :: 0 <= k < |cs| ==> cs[k].ctid == ctid
    ensures Matching(cs, ctid) == cs
  {
    if cs != [] {
      var n := |cs| - 1;
      MatchingAll(cs[..n], ctid);
      assert cs == cs[..n] + [cs[n]];
    }
  }

  lemma {:induction false} MatchingStrict(cs: seq<Ctx>, ctid: IdNum, o: byte, k: nat)
    requires k < |cs| && ctid != 0 && cs[k].ctid != ctid
    ensures CtxsSize(Matching(cs, ctid), o) < CtxsSize(cs, o) && |Matching(cs, ctid)| < |cs|
  {
    var n := |cs| - 1;
    var rest := Matching(cs[..n], ctid);
    if k == n {
      MatchingIsShorter(cs[..n], ctid, o);
      assert Matching(cs, ctid) == rest;
    } else {
      MatchingStrict(cs[..n], ctid, o, k);
      if cs[n].ctid == ctid {
        assert (rest + [cs[n]])[..|rest|] == rest;
      } else {
        assert Matching(cs, ctid) == rest;
      }
    }
  }

  /** The application in whose block a context lies. */
  lemma {:induction false} BlockHolding(u: Users, k: nat, n: nat) returns (i: nat)
    requires InBlocks(u) && n <= |u.apps| && k < Offset(u.apps, n)
    ensures i < n && Offset(u.apps, i) <= k < Offset(u.apps, i) + u.apps[i].numContexts
    decreases n
  {
    if n > 0 && k < Offset(u.apps, n - 1) {
      i := BlockHolding(u, k, n - 1);
    } else {
      i := n - 1;
    }
  }

  lemma {:induction false} SectionsStrict(u: Users, xs: seq<Section>, o: byte, i: nat)
    requires InBlocks(u) && i < |xs| <= |u.apps| && forall j :: 0 <= j < |xs| ==> Fits(u, xs[j], j, o, false)
    requires !Fits(u, xs[i], i, o, true)
    ensures SectionsSize(xs, o) < Space(u, |xs|, o)
  {
    var n := |xs| - 1;
    assert Fits(u, xs[n], n, o, false);
    if i == n {
      SectionsFit(u, xs[..n], o, false);
    } else {
      SectionsStrict(u, xs[..n], o, i);
    }
  }

  lemma WrittenFull(u: Users, q: Request, i: nat)
    requires InBlocks(u) && q.apid == 0 && i < |u.apps| && u.apps[i].numContexts < TWO_16
    ensures WrittenCtxs(u, q, i) == Matching(BlockOf(u, i), q.ctid)
  {
    var b := BlockOf(u, i);
    assert b[..Count(u, q, i)] == b;
  }

  /** A context that does not match leaves its application's section short. */
  lemma BlockShort(u: Users, k: nat, i: nat, ctid: IdNum, o: byte)
    requires InBlocks(u) && ctid != 0 && i < |u.apps| && BlockIn(u, i)
    requires Offset(u.apps, i) <= k < Offset(u.apps, i) + u.apps[i].numContexts && u.ctxs[k].ctid != ctid
    ensures CtxsSize(Matching(BlockOf(u, i), ctid), o) < CtxsSize(BlockOf(u, i), o)
  {
    MatchingStrict(BlockOf(u, i), ctid, o, k - Offset(u.apps, i));
  }

  lemma SectionShort(u: Users, q: Request, i: nat)
    requires InBlocks(u) && q.apid == 0 && i < |u.apps| && u.apps[i].numContexts < TWO_16
    requires CtxsSize(Matching(BlockOf(u, i), q.ctid), q.options) < CtxsSize(BlockOf(u, i), q.options)
    ensures !Fits(u, SectionOf(u, q, i), i, q.options, true)
  {
    WrittenFull(u, q, i);
  }

  lemma OneShort(u: Users, q: Request, k: nat)
    requires Covered(u) && q.apid == 0 && q.ctid != 0 && |u.apps| < TWO_16 && CountsFit(u, |u.apps|)
    requires k < |u.ctxs| && u.ctxs[k].ctid != q.ctid
    ensures SectionsSize(Sections(u, q), q.options) < Space(u, |u.apps|, q.options)
  {
    var xs := Sections(u, q);
    var i := BlockHolding(u, k, |u.apps|);
    assert BlockIn(u, i) && CountApps(u, q) == |u.apps|;
    BlockShort(u, k, i, q.ctid, q.options);
    SectionShort(u, q, i);
    forall j | 0 <= j < |xs|
      ensures Fits(u, xs[j], j, q.options, false)
    {
      WrittenSize(u, q, j);
    }
    SectionsStrict(u, xs, q.options, i);
  }

  lemma SectionFull(u: Users, q: Request, i: nat)
    requires InBlocks(u) && q.apid == 0 && CountsFit(u, |u.apps|) && i < |u.apps|
    requires forall k :: 0 <= k < |u.ctxs| ==> u.ctxs[k].ctid == q.ctid
    ensures Fits(u, SectionOf(u, q, i), i, q.options, true)
  {
    WrittenFull(u, q, i);
    assert BlockIn(u, i);
    MatchingAll(BlockOf(u, i), q.ctid);
  }

  lemma AllFull(u: Users, q: Request)
    requires Covered(u) && q.apid == 0 && |u.apps| < TWO_16 && CountsFit(u, |u.apps|)
    requires forall k :: 0 <= k < |u.ctxs| ==> u.ctxs[k].ctid == q.ctid
    ensures SectionsSize(Sections(u, q), q.options) == Space(u, |u.apps|, q.options)
  {
    var xs := Sections(u, q);
    assert CountApps(u, q) == |u.apps|;
    forall j | 0 <= j < |xs|
      ensures Fits(u, xs[j], j, q.options, true)
    {
      SectionFull(u, q, j);
    }
    SectionsFit(u, xs, q.options, true);
  }

  /** A request for a context id alone uses all of the computed size exactly when every context has that id. */
  lemma CtxAloneFillsIff(u: Users, q: Request)
    requires Covered(u) && SixteenBits(u, q) && q.apid == 0 && q.ctid != 0 && u.apps != []
    ensures |Payload(u, q)| + |REMO| == DataSize(u, q) <==> forall k :: 0 <= k < |u.ctxs| ==> u.ctxs[k].ctid == q.ctid
  {
    assert CountApps(u, q) == |u.apps|;
    SpaceTotal(u, q.options);
    if k :| 0 <= k < |u.ctxs| && u.ctxs[k].ctid != q.ctid {
      OneShort(u, q, k);
    } else {
      AllFull(u, q);
    }
  }
}
