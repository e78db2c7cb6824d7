/**
 A decoder of the GET_LOG_INFO answer, and that it recovers from the daemon's
 bytes exactly what was asked for.
 */
module LogInfoDecode {
  import opened Bytes
  import opened Ids
  import opened RegistryTables
  import opened RegistrySpec
  import opened RegistryInvariants
  import opened LogInfo

  datatype CtxInfo = CtxInfo(ctid: seq<byte>, level: int, trace: int, desc: seq<byte>)

  datatype AppInfo = AppInfo(apid: seq<byte>, ctxs: seq<CtxInfo>, desc: seq<byte>)

  datatype Info = Info(options: byte, apps: seq<AppInfo>)

  // ---------------------------------------------------------------- the decoder

  /** What a client takes the options for: 3 asks for ids alone, 4 for log levels too, 5 for trace statuses, 6 for both, 7 for texts as well. */
  predicate WithLevel(o: byte) {
    o in {4, 6, 7}
  }

  predicate WithTrace(o: byte) {
    o in {5, 6, 7}
  }

  predicate WithTexts(o: byte) {
    o in {7}
  }

  datatype Parsed<+T> = NoParse | Parsed(value: T, rest: seq<byte>)

  function Take(s: seq<byte>, n: nat): (r: Parsed<seq<byte>>)
    ensures r.Parsed? ==> |r.value| == n
  {
    if |s| < n then NoParse else Parsed(s[..n], s[n..])
  }

  function TakeCount(s: seq<byte>): Parsed<nat> {
    match Take(s, 2)
    case NoParse => NoParse
    case Parsed(b, rest) => Parsed(FromLe16(b), rest)
  }

  function TakeLevel(given: bool, s: seq<byte>): Parsed<int> {
    if !given then Parsed(0, s)
    else
      match Take(s, 1)
      case NoParse => NoParse
      case Parsed(b, rest) => Parsed(Int8(b[0]), rest)
  }

  function TakeText(o: byte, s: seq<byte>): Parsed<seq<byte>> {
    if !WithTexts(o) then Parsed([], s)
    else
      match TakeCount(s)
      case NoParse => NoParse
      case Parsed(n, rest) => Take(rest, n)
  }

  function TakeCtx(o: byte, s: seq<byte>): Parsed<CtxInfo> {
    match Take(s, 4)
    case NoParse => NoParse
    case Parsed(id, s1) =>
      match TakeLevel(WithLevel(o), s1)
      case NoParse => NoParse
      case Parsed(level, s2) =>
        match TakeLevel(WithTrace(o), s2)
        case NoParse => NoParse
        case Parsed(trace, s3) =>
          match TakeText(o, s3)
          case NoParse => NoParse
          case Parsed(desc, s4) => Parsed(CtxInfo(id, level, trace, desc), s4)
  }

  function TakeCtxs(o: byte, n: nat, s: seq<byte>): Parsed<seq<CtxInfo>> {
    if n == 0 then Parsed([], s)
    else
      match TakeCtx(o, s)
      case NoParse => NoParse
      case Parsed(c, s1) =>
        match TakeCtxs(o, n - 1, s1)
        case NoParse => NoParse
        case Parsed(cs, s2) => Parsed([c] + cs, s2)
  }

  function TakeApp(o: byte, s: seq<byte>): Parsed<AppInfo> {
    match Take(s, 4)
    case NoParse => NoParse
    case Parsed(id, s1) =>
      match TakeCount(s1)
      case NoParse => NoParse
      case Parsed(n, s2) =>
        match TakeCtxs(o, n, s2)
        case NoParse => NoParse
        case Parsed(cs, s3) =>
          match TakeText(o, s3)
          case NoParse => NoParse
          case Parsed(desc, s4) => Parsed(AppInfo(id, cs, desc), s4)
  }

  function TakeApps(o: byte, n: nat, s: seq<byte>): Parsed<seq<AppInfo>> {
    if n == 0 then Parsed([], s)
    else
      match TakeApp(o, s)
      case NoParse => NoParse
      case Parsed(a, s1) =>
        match TakeApps(o, n - 1, s1)
        case NoParse => NoParse
        case Parsed(apps, s2) => Parsed([a] + apps, s2)
  }

  /** The applications and the interface id at the end. */
  function DecodeBody(o: byte, s: seq<byte>): Parsed<Info> {
    match TakeCount(s)
    case NoParse => NoParse
    case Parsed(n, s1) =>
      match TakeApps(o, n, s1)
      case NoParse => NoParse
      case Parsed(apps, rest) => if rest == [114, 101, 109, 111] then Parsed(Info(o, apps), []) else NoParse
  }

  /** The whole answer: the service, the options as status, and the body. */
  function Decode(s: seq<byte>): Parsed<Info> {
    match Take(s, 5)
    case NoParse => NoParse
    case Parsed(head, s1) =>
      if FromLe32(head[..4]) != 3 || !(3 <= head[4] <= 7) then NoParse else DecodeBody(head[4], s1)
  }

  // ---------------------------------------------------------------- what was asked for

  function TextChars(o: byte, t: Text): seq<byte> {
    if WithTexts(o) && t.Chars? then t.chars else []
  }

  function CtxView(c: Ctx, o: byte): CtxInfo {
    CtxInfo(IdBytes(c.ctid), if WithLevel(o) then c.level else 0, if WithTrace(o) then c.trace else 0, TextChars(o, c.desc))
  }

  function CtxsView(cs: seq<Ctx>, o: byte): (r: seq<CtxInfo>)
    ensures |r| == |cs|
  {
    seq(|cs|, i requires 0 <= i < |cs| => CtxView(cs[i], o))
  }

  predicate Asked(c: Ctx, apid: IdNum, ctid: IdNum) {
    c.apid == apid && (ctid == 0 || c.ctid == ctid)
  }

  /** The contexts of one application that are asked for, by looking at all of them. */
  function AskedCtxs(ctxs: seq<Ctx>, apid: IdNum, ctid: IdNum): seq<Ctx> {
    if ctxs == [] then [] else (if Asked(ctxs[0], apid, ctid) then [ctxs[0]] else []) + AskedCtxs(ctxs[1..], apid, ctid)
  }

  function AppView(u: Users, q: Request, a: App): AppInfo {
    AppInfo(IdBytes(a.apid), CtxsView(AskedCtxs(u.ctxs, a.apid, q.ctid), q.options), TextChars(q.options, a.desc))
  }

  function AppsView(u: Users, q: Request, apps: seq<App>): seq<AppInfo> {
    seq(|apps|, i requires 0 <= i < |apps| => AppView(u, q, apps[i]))
  }

  /** The applications asked for, by looking at all of them. */
  function AskedApps(apps: seq<App>, apid: IdNum): seq<App> {
    if apps == [] then [] else (if apid == 0 || apps[0].apid == apid then [apps[0]] else []) + AskedApps(apps[1..], apid)
  }

  function View(u: Users, q: Request): Info {
    Info(q.options, AppsView(u, q, AskedApps(u.apps, q.apid)))
  }

  // ---------------------------------------------------------------- round trips, piece by piece

  lemma TakeBack(x: seq<byte>, rest: seq<byte>)
    ensures Take(x + rest, |x|) == Parsed(x, rest)
  {
    assert (x + rest)[..|x|] == x && (x + rest)[|x|..] == rest;
  }

  lemma Regroup(a: seq<byte>, b: seq<byte>, c: seq<byte>, d: seq<byte>, rest: seq<byte>)
    ensures a + b + c + d + rest == a + (b + (c + (d + rest)))
  {
  }

  lemma CountBack(n: nat, rest: seq<byte>)
    requires n < TWO_16
    ensures TakeCount(Le16(n) + rest) == Parsed(n, rest)
  {
    TakeBack(Le16(n), rest);
    Le16RoundTrip(n);
  }

  predicate IsInt8(x: int) {
    -128 <= x < 128
  }

  lemma LevelBack(given: bool, level: int, rest: seq<byte>)
    requires IsInt8(level)
    ensures TakeLevel(given, LevelBytes(given, level) + rest) == Parsed(if given then level else 0, rest)
  {
    if given {
      TakeBack([level % 256], rest);
    } else {
      assert LevelBytes(given, level) + rest == rest;
    }
  }

  lemma CharsBack(o: byte, chars: seq<byte>, rest: seq<byte>)
    requires HasTexts(o) && |chars| < TWO_16
    ensures TakeText(o, Le16(|chars|) + chars + rest) == Parsed(chars, rest)
  {
    var more := chars + rest;
    assert Le16(|chars|) + chars + rest == Le16(|chars|) + more;
    CountBack(|chars|, more);
    TakeBack(chars, rest);
  }

  lemma TextBack(o: byte, t: Text, rest: seq<byte>)
    requires TextLen(t) < TWO_16
    ensures TakeText(o, DescBytes(o, t) + rest) == Parsed(TextChars(o, t), rest)
  {
    if HasTexts(o) {
      var chars := TextAsChars(t);
      CharsBack(o, chars, rest);
    } else {
      assert DescBytes(o, t) + rest == rest;
    }
  }

  lemma TextAsChars(t: Text) returns (chars: seq<byte>)
    requires TextLen(t) < TWO_16
    ensures |chars| < TWO_16 && TextBytes(t) == Le16(|chars|) + chars && chars == if t.Chars? then t.chars else []
  {
    chars := if t.Chars? then t.chars else [];
  }

  /** The levels are 8-bit and the length of the description fits its field. */
  predicate Encodable(c: Ctx) {
    IsInt8(c.level) && IsInt8(c.trace) && TextLen(c.desc) < TWO_16
  }

  ghost predicate AllEncodable(cs: seq<Ctx>) {
    forall k :: 0 <= k < |cs| ==> Encodable(cs[k])
  }

  lemma CtxBack(c: Ctx, o: byte, rest: seq<byte>)
    requires Encodable(c)
    ensures TakeCtx(o, CtxBytes(c, o) + rest) == Parsed(CtxView(c, o), rest)
  {
    var s3 := DescBytes(o, c.desc) + rest;
    var s2 := LevelBytes(WithTrace(o), c.trace) + s3;
    var s1 := LevelBytes(WithLevel(o), c.level) + s2;
    OptionsAgree(o);
    Regroup(IdBytes(c.ctid), LevelBytes(HasLevel(o), c.level), LevelBytes(HasTrace(o), c.trace), DescBytes(o, c.desc), rest);
    TakeBack(IdBytes(c.ctid), s1);
    LevelBack(WithLevel(o), c.level, s2);
    LevelBack(WithTrace(o), c.trace, s3);
    TextBack(o, c.desc, rest);
  }

  /** The daemon puts in what a client expects. */
  lemma OptionsAgree(o: byte)
    ensures (HasLevel(o) <==> WithLevel(o)) && (HasTrace(o) <==> WithTrace(o)) && (HasTexts(o) <==> WithTexts(o))
  {
  }

  // ---------------------------------------------------------------- sequences of pieces

  function CtxParts(cs: seq<Ctx>, o: byte): (r: seq<seq<byte>>)
    ensures |r| == |cs|
  {
    seq(|cs|, i requires 0 <= i < |cs| => CtxBytes(cs[i], o))
  }

  lemma {:induction false} CtxsBytesParts(cs: seq<Ctx>, o: byte)
    ensures CtxsBytes(cs, o) == Joined(CtxParts(cs, o), 0)
  {
    if cs != [] {
      var n := |cs| - 1;
      CtxsBytesParts(cs[..n], o);
      var last := LastCtxPart(cs, o);
      JoinedLast(CtxParts(cs[..n], o), last, 0);
    }
  }

  lemma LastCtxPart(cs: seq<Ctx>, o: byte) returns (last: seq<byte>)
    requires cs != []
    ensures CtxParts(cs, o) == CtxParts(cs[..|cs| - 1], o) + [last]
    ensures CtxsBytes(cs, o) == CtxsBytes(cs[..|cs| - 1], o) + last
  {
    last := CtxBytes(cs[|cs| - 1], o);
  }

  /** `part` is read as `c`, whatever follows. */
  ghost predicate ReadsCtx(o: byte, part: seq<byte>, c: CtxInfo) {
    forall rest :: TakeCtx(o, part + rest) == Parsed(c, rest)
  }

  ghost predicate ReadsApp(o: byte, part: seq<byte>, a: AppInfo) {
    forall rest :: TakeApp(o, part + rest) == Parsed(a, rest)
  }

  lemma TakeCtxsStep(o: byte, n: nat, part: seq<byte>, c: CtxInfo, more: seq<byte>, cs: seq<CtxInfo>, rest: seq<byte>)
    requires ReadsCtx(o, part, c) && TakeCtxs(o, n, more) == Parsed(cs, rest)
    ensures TakeCtxs(o, n + 1, part + more) == Parsed([c] + cs, rest)
  {
  }

  lemma {:induction false} TakeCtxParts(o: byte, parts: seq<seq<byte>>, cs: seq<CtxInfo>, rest: seq<byte>)
    requires |parts| == |cs| && forall i :: 0 <= i < |cs| ==> ReadsCtx(o, parts[i], cs[i])
    ensures TakeCtxs(o, |cs|, Joined(parts, 0) + rest) == Parsed(cs, rest)
  {
    if cs == [] {
      assert Joined(parts, 0) + rest == rest;
    } else {
      var more := Joined(parts[1..], 0) + rest;
      TakeCtxParts(o, parts[1..], cs[1..], rest);
      TakeCtxsStep(o, |cs| - 1, parts[0], cs[0], more, cs[1..], rest);
      JoinedFirst(parts, rest);
      assert [cs[0]] + cs[1..] == cs;
    }
  }

  lemma TakeAppsStep(o: byte, n: nat, part: seq<byte>, a: AppInfo, more: seq<byte>, apps: seq<AppInfo>, rest: seq<byte>)
    requires ReadsApp(o, part, a) && TakeApps(o, n, more) == Parsed(apps, rest)
    ensures TakeApps(o, n + 1, part + more) == Parsed([a] + apps, rest)
  {
  }

  lemma {:induction false} TakeAppParts(o: byte, parts: seq<seq<byte>>, apps: seq<AppInfo>, rest: seq<byte>)
    requires |parts| == |apps| && forall i :: 0 <= i < |apps| ==> ReadsApp(o, parts[i], apps[i])
    ensures TakeApps(o, |apps|, Joined(parts, 0) + rest) == Parsed(apps, rest)
  {
    if apps == [] {
      assert Joined(parts, 0) + rest == rest;
    } else {
      var more := Joined(parts[1..], 0) + rest;
      TakeAppParts(o, parts[1..], apps[1..], rest);
      TakeAppsStep(o, |apps| - 1, parts[0], apps[0], more, apps[1..], rest);
      JoinedFirst(parts, rest);
      assert [apps[0]] + apps[1..] == apps;
    }
  }

  lemma CtxsBack(cs: seq<Ctx>, o: byte, rest: seq<byte>)
    requires AllEncodable(cs)
    ensures TakeCtxs(o, |cs|, CtxsBytes(cs, o) + rest) == Parsed(CtxsView(cs, o), rest)
  {
    forall i | 0 <= i < |cs|
      ensures ReadsCtx(o, CtxParts(cs, o)[i], CtxsView(cs, o)[i])
    {
      forall more
        ensures TakeCtx(o, CtxBytes(cs[i], o) + more) == Parsed(CtxView(cs[i], o), more)
      {
        CtxBack(cs[i], o, more);
      }
    }
    CtxsBytesParts(cs, o);
    TakeCtxParts(o, CtxParts(cs, o), CtxsView(cs, o), rest);
  }

  // ---------------------------------------------------------------- the contexts of one application

  /** If exactly one stretch of the table is asked for, looking at all contexts finds that stretch. */
  lemma {:induction false} AskedIsSlice(ctxs: seq<Ctx>, apid: IdNum, ctid: IdNum, off: nat, n: nat)
    requires off + n <= |ctxs|
    requires forall k :: 0 <= k < |ctxs| ==> (Asked(ctxs[k], apid, ctid) <==> off <= k < off + n)
    ensures AskedCtxs(ctxs, apid, ctid) == ctxs[off..off + n]
    decreases |ctxs|
  {
    if ctxs != [] {
      var rest := ctxs[1..];
      if off > 0 {
        AskedIsSlice(rest, apid, ctid, off - 1, n);
        assert rest[off - 1..off - 1 + n] == ctxs[off..off + n];
      } else if n > 0 {
        AskedIsSlice(rest, apid, ctid, 0, n - 1);
        assert [ctxs[0]] + rest[0..n - 1] == ctxs[0..n];
      } else {
        AskedIsSlice(rest, apid, ctid, 0, 0);
      }
    }
  }

  lemma BlockIsAsked(u: Users, i: nat)
    requires Consistent(u.apps, u.ctxs) && InBlocks(u) && i < |u.apps|
    ensures BlockOf(u, i) == AskedCtxs(u.ctxs, u.apps[i].apid, 0)
  {
    BlockTheorem(u.apps, u.ctxs, i);
    AskedIsSlice(u.ctxs, u.apps[i].apid, 0, Offset(u.apps, i), u.apps[i].numContexts);
  }

  lemma FoundIsAsked(u: Users, apid: IdNum, ctid: IdNum)
    requires Increasing(CtxKeys(u.ctxs)) && apid != 0 && ctid != 0
    ensures var k := FindCtx(u.ctxs, apid, ctid);
            AskedCtxs(u.ctxs, apid, ctid) == if k < 0 then [] else [u.ctxs[k]]
  {
    var k := FindCtx(u.ctxs, apid, ctid);
    if k < 0 {
      AskedIsSlice(u.ctxs, apid, ctid, 0, 0);
    } else {
      forall j | 0 <= j < |u.ctxs|
        ensures Asked(u.ctxs[j], apid, ctid) <==> j == k
      {
        CtxAt(u.ctxs, j);
      }
      AskedIsSlice(u.ctxs, apid, ctid, k, 1);
    }
  }

  lemma {:induction false} AskedLast(ctxs: seq<Ctx>, apid: IdNum, ctid: IdNum)
    requires ctxs != []
    ensures var n := |ctxs| - 1;
            AskedCtxs(ctxs, apid, ctid) == AskedCtxs(ctxs[..n], apid, ctid) + if Asked(ctxs[n], apid, ctid) then [ctxs[n]] else []
  {
    var n := |ctxs| - 1;
    if n > 0 {
      AskedLast(ctxs[1..], apid, ctid);
      AskedFirst(ctxs, apid, ctid);
      AskedFirst(ctxs[..n], apid, ctid);
      assert ctxs[1..][..n - 1] == ctxs[..n][1..];
    }
  }

  lemma AskedFirst(ctxs: seq<Ctx>, apid: IdNum, ctid: IdNum)
    requires ctxs != []
    ensures AskedCtxs(ctxs, apid, ctid) == (if Asked(ctxs[0], apid, ctid) then [ctxs[0]] else []) + AskedCtxs(ctxs[1..], apid, ctid)
  {
  }

  /** Choosing by application and then by context id is choosing by both. */
  lemma {:induction false} MatchingAsked(ctxs: seq<Ctx>, apid: IdNum, ctid: IdNum)
    ensures Matching(AskedCtxs(ctxs, apid, 0), ctid) == AskedCtxs(ctxs, apid, ctid)
  {
    if ctxs != [] {
      var n := |ctxs| - 1;
      MatchingAsked(ctxs[..n], apid, ctid);
      AskedLast(ctxs, apid, 0);
      AskedLast(ctxs, apid, ctid);
      if Asked(ctxs[n], apid, 0) {
        MatchingNext(AskedCtxs(ctxs[..n], apid, 0), ctxs[n], ctid);
      } else {
        assert AskedCtxs(ctxs, apid, 0) == AskedCtxs(ctxs[..n], apid, 0);
      }
    }
  }

  lemma MatchingNext(cs: seq<Ctx>, c: Ctx, ctid: IdNum)
    ensures Matching(cs + [c], ctid) == Matching(cs, ctid) + if ctid == 0 || c.ctid == ctid then [c] else []
  {
    assert (cs + [c])[..|cs|] == cs;
  }

  /** What the second pass writes is what is asked for, for every request. */
  lemma WrittenIsAsked(u: Users, q: Request, i: nat)
    requires Consistent(u.apps, u.ctxs) && InBlocks(u) && SixteenBits(u, q)
    requires i < |u.apps| && (q.apid != 0 ==> i == FindApp(u.apps, q.apid))
    ensures WrittenCtxs(u, q, i) == AskedCtxs(u.ctxs, u.apps[i].apid, q.ctid)
  {
    if q.ctid == 0 {
      WrittenIsBlock(u, q, i);
      BlockIsAsked(u, i);
    } else if q.apid != 0 {
      WrittenIsFound(u, q, i);
    } else {
      WrittenFull(u, q, i);
      BlockIsAsked(u, i);
      MatchingAsked(u.ctxs, u.apps[i].apid, q.ctid);
    }
  }

  /** A request for a context id alone finds no other context in the stretch of application `i`. */
  ghost predicate NoneOmitted(u: Users, q: Request, i: nat)
    requires InBlocks(u) && i < |u.apps|
  {
    q.apid == 0 && q.ctid != 0 ==> forall k :: 0 <= k < |BlockOf(u, i)| ==> BlockOf(u, i)[k].ctid == q.ctid
  }

  lemma MatchesAllIff(cs: seq<Ctx>, ctid: IdNum, o: byte)
    requires ctid != 0
    ensures |Matching(cs, ctid)| == |cs| <==> forall k :: 0 <= k < |cs| ==> cs[k].ctid == ctid
  {
    if k :| 0 <= k < |cs| && cs[k].ctid != ctid {
      MatchingStrict(cs, ctid, o, k);
    } else {
      MatchingAll(cs, ctid);
    }
  }

  lemma AloneCount(u: Users, q: Request, i: nat)
    requires InBlocks(u) && i < |u.apps| && u.apps[i].numContexts < TWO_16 && q.apid == 0 && q.ctid != 0
    ensures Count(u, q, i) == |WrittenCtxs(u, q, i)| <==> NoneOmitted(u, q, i)
  {
    WrittenFull(u, q, i);
    MatchesAllIff(BlockOf(u, i), q.ctid, q.options);
  }

  /** The count written for an application is the number of its contexts written exactly when none is left out. */
  lemma CountIff(u: Users, q: Request, i: nat)
    requires InBlocks(u) && Increasing(CtxKeys(u.ctxs)) && SixteenBits(u, q)
    requires i < |u.apps| && (q.apid != 0 ==> i == FindApp(u.apps, q.apid))
    ensures Count(u, q, i) == |WrittenCtxs(u, q, i)| <==> NoneOmitted(u, q, i)
  {
    if q.ctid == 0 {
      WrittenIsBlock(u, q, i);
    } else if q.apid != 0 {
      WrittenIsFound(u, q, i);
    } else {
      AloneCount(u, q, i);
    }
  }

  lemma WrittenIsFound(u: Users, q: Request, i: nat)
    requires InBlocks(u) && Increasing(CtxKeys(u.ctxs)) && q.apid != 0 && q.ctid != 0 && FindApp(u.apps, q.apid) == i
    ensures WrittenCtxs(u, q, i) == AskedCtxs(u.ctxs, u.apps[i].apid, q.ctid)
    ensures Count(u, q, i) == |WrittenCtxs(u, q, i)|
  {
    FoundIsAsked(u, q.apid, q.ctid);
  }

  lemma WrittenIsBlock(u: Users, q: Request, i: nat)
    requires InBlocks(u) && SixteenBits(u, q) && q.ctid == 0
    requires i < |u.apps| && (q.apid != 0 ==> i == FindApp(u.apps, q.apid))
    ensures WrittenCtxs(u, q, i) == BlockOf(u, i) && Count(u, q, i) == |BlockOf(u, i)|
  {
    if q.apid == 0 {
      WrittenFull(u, q, i);
      MatchingIsShorter(BlockOf(u, i), 0, q.options);
    } else {
      WrittenOne(u, q, i);
    }
  }

  lemma {:induction false} AskedEncodable(ctxs: seq<Ctx>, apid: IdNum, ctid: IdNum)
    requires AllEncodable(ctxs)
    ensures AllEncodable(AskedCtxs(ctxs, apid, ctid))
  {
    if ctxs != [] {
      AskedEncodable(ctxs[1..], apid, ctid);
    }
  }

  /** Everything in the tables fits its field. */
  ghost predicate TablesEncodable(u: Users) {
    AllEncodable(u.ctxs) && forall i :: 0 <= i < |u.apps| ==> TextLen(u.apps[i].desc) < TWO_16
  }

  /** Consistent tables whose fields and counts fit. */
  ghost predicate Plain(u: Users, q: Request)
    ensures Plain(u, q) ==> Covered(u)
  {
    Consistent(u.apps, u.ctxs) && (ConsistentCovered(u); TablesEncodable(u) && SixteenBits(u, q))
  }

  /** Reading one application back, once its contexts are known. */
  lemma AppPieces(o: byte, id: seq<byte>, cs: seq<Ctx>, desc: Text, rest: seq<byte>)
    requires |id| == 4 && |cs| < TWO_16 && AllEncodable(cs) && TextLen(desc) < TWO_16
    ensures TakeApp(o, id + Le16(|cs|) + CtxsBytes(cs, o) + DescBytes(o, desc) + rest)
            == Parsed(AppInfo(id, CtxsView(cs, o), TextChars(o, desc)), rest)
  {
    var s3 := DescBytes(o, desc) + rest;
    var s2 := CtxsBytes(cs, o) + s3;
    Regroup(id, Le16(|cs|), CtxsBytes(cs, o), DescBytes(o, desc), rest);
    TakeBack(id, Le16(|cs|) + s2);
    CountBack(|cs|, s2);
    CtxsBack(cs, o, s3);
    TextBack(o, desc, rest);
  }

  function SectionView(x: Section, o: byte): AppInfo {
    AppInfo(IdBytes(x.apid), CtxsView(x.ctxs, o), TextChars(o, x.desc))
  }

  lemma PiecesRead(o: byte, id: seq<byte>, cs: seq<Ctx>, desc: Text, part: seq<byte>)
    requires |id| == 4 && |cs| < TWO_16 && AllEncodable(cs) && TextLen(desc) < TWO_16
    requires part == id + Le16(|cs|) + CtxsBytes(cs, o) + DescBytes(o, desc)
    ensures ReadsApp(o, part, AppInfo(id, CtxsView(cs, o), TextChars(o, desc)))
  {
    forall more
      ensures TakeApp(o, part + more) == Parsed(AppInfo(id, CtxsView(cs, o), TextChars(o, desc)), more)
    {
      AppPieces(o, id, cs, desc, more);
    }
  }

  lemma SectionReads(x: Section, o: byte)
    requires x.count == |x.ctxs| < TWO_16 && AllEncodable(x.ctxs) && TextLen(x.desc) < TWO_16
    ensures ReadsApp(o, SectionBytes(x, o), SectionView(x, o))
  {
    assert x.count % 65536 == |x.ctxs|;
    PiecesRead(o, IdBytes(x.apid), x.ctxs, x.desc, SectionBytes(x, o));
  }

  lemma {:induction false} TakeCtxsLength(o: byte, n: nat, s: seq<byte>)
    ensures TakeCtxs(o, n, s).Parsed? ==> |TakeCtxs(o, n, s).value| == n
  {
    if n > 0 && TakeCtx(o, s).Parsed? {
      TakeCtxsLength(o, n - 1, TakeCtx(o, s).rest);
    }
  }

  /** `part` is never read as `a`, whatever follows. */
  ghost predicate Strays(o: byte, part: seq<byte>, a: AppInfo) {
    forall rest :: TakeApp(o, part + rest).Parsed? ==> TakeApp(o, part + rest).value != a
  }

  /** As many contexts are read as the count says. */
  lemma CountedStrays(o: byte, id: seq<byte>, n: nat, more: seq<byte>)
    requires |id| == 4 && n < TWO_16
    ensures var p := TakeApp(o, id + (Le16(n) + more)); p.Parsed? ==> |p.value.ctxs| == n
  {
    TakeBack(id, Le16(n) + more);
    CountBack(n, more);
    TakeCtxsLength(o, n, more);
  }

  lemma SectionStrays(x: Section, o: byte)
    requires x.count < TWO_16 && x.count != |x.ctxs|
    ensures Strays(o, SectionBytes(x, o), SectionView(x, o))
  {
    assert x.count % 65536 == x.count;
    forall rest
      ensures var p := TakeApp(o, SectionBytes(x, o) + rest); p.Parsed? ==> p.value != SectionView(x, o)
    {
      Regroup(IdBytes(x.apid), Le16(x.count), CtxsBytes(x.ctxs, o), DescBytes(o, x.desc), rest);
      CountedStrays(o, IdBytes(x.apid), x.count, CtxsBytes(x.ctxs, o) + (DescBytes(o, x.desc) + rest));
    }
  }

  /** The section of an application is read as what is asked for of it, or never if a context is left out. */
  lemma AppReads(u: Users, q: Request, i: nat)
    requires Plain(u, q) && i < |u.apps| && (q.apid != 0 ==> i == FindApp(u.apps, q.apid))
    ensures var (part, a) := (SectionBytes(SectionOf(u, q, i), q.options), AppView(u, q, u.apps[i]));
            if NoneOmitted(u, q, i) then ReadsApp(q.options, part, a) else Strays(q.options, part, a)
  {
    CountIff(u, q, i);
    WrittenIsAsked(u, q, i);
    if NoneOmitted(u, q, i) {
      AskedEncodable(u.ctxs, u.apps[i].apid, q.ctid);
      SectionReads(SectionOf(u, q, i), q.options);
    } else {
      SectionStrays(SectionOf(u, q, i), q.options);
    }
  }

  // ---------------------------------------------------------------- all applications

  function SectionParts(xs: seq<Section>, o: byte): (r: seq<seq<byte>>)
    ensures |r| == |xs|
  {
    seq(|xs|, i requires 0 <= i < |xs| => SectionBytes(xs[i], o))
  }

  lemma {:induction false} SectionsBytesParts(xs: seq<Section>, o: byte)
    ensures SectionsBytes(xs, o) == Joined(SectionParts(xs, o), 0)
  {
    if xs != [] {
      var n := |xs| - 1;
      SectionsBytesParts(xs[..n], o);
      var last := LastSectionPart(xs, o);
      JoinedLast(SectionParts(xs[..n], o), last, 0);
    }
  }

  lemma LastSectionPart(xs: seq<Section>, o: byte) returns (last: seq<byte>)
    requires xs != []
    ensures SectionParts(xs, o) == SectionParts(xs[..|xs| - 1], o) + [last]
    ensures SectionsBytes(xs, o) == SectionsBytes(xs[..|xs| - 1], o) + last
  {
    last := SectionBytes(xs[|xs| - 1], o);
  }

  /** Every context has the id asked for, if only a context id is. */
  ghost predicate AllCounted(u: Users, q: Request) {
    q.apid == 0 && q.ctid != 0 ==> forall k :: 0 <= k < |u.ctxs| ==> u.ctxs[k].ctid == q.ctid
  }

  lemma CountedOmitsNone(u: Users, q: Request, i: nat)
    requires InBlocks(u) && AllCounted(u, q) && i < |u.apps|
    ensures NoneOmitted(u, q, i)
  {
    assert BlockIn(u, i);
  }

  /** An application one of whose contexts is left out. */
  lemma Omitting(u: Users, q: Request) returns (i: nat)
    requires Covered(u) && !AllCounted(u, q)
    ensures i < |u.apps| && !NoneOmitted(u, q, i)
  {
    var k :| 0 <= k < |u.ctxs| && u.ctxs[k].ctid != q.ctid;
    i := BlockHolding(u, k, |u.apps|);
    assert BlockIn(u, i);
    assert BlockOf(u, i)[k - Offset(u.apps, i)] == u.ctxs[k];
  }

  lemma AppsBack(u: Users, q: Request, rest: seq<byte>)
    requires Plain(u, q) && AllCounted(u, q)
    ensures var apps := ChosenApps(u, q);
            TakeApps(q.options, |apps|, SectionsBytes(Sections(u, q), q.options) + rest) == Parsed(AppsView(u, q, apps), rest)
  {
    var apps, o, xs := ChosenApps(u, q), q.options, Sections(u, q);
    var parts, views := SectionParts(xs, o), AppsView(u, q, apps);
    assert |xs| == |apps|;
    forall j | 0 <= j < |apps|
      ensures ReadsApp(o, parts[j], views[j])
    {
      AppReads(u, q, Turn(u, q, j));
      CountedOmitsNone(u, q, Turn(u, q, j));
    }
    SectionsBytesParts(xs, o);
    TakeAppParts(o, parts, views, rest);
  }

  lemma StraysFirst(o: byte, n: nat, part: seq<byte>, more: seq<byte>, views: seq<AppInfo>)
    requires views != [] && Strays(o, part, views[0])
    ensures var p := TakeApps(o, n + 1, part + more); p.Parsed? ==> p.value != views
  {
  }

  lemma StraysLater(o: byte, n: nat, part: seq<byte>, more: seq<byte>, views: seq<AppInfo>)
    requires views != [] && ReadsApp(o, part, views[0])
    requires var p := TakeApps(o, n, more); p.Parsed? ==> p.value != views[1..]
    ensures var p := TakeApps(o, n + 1, part + more); p.Parsed? ==> p.value != views
  {
    var p := TakeApps(o, n, more);
    assert p.Parsed? ==> ([views[0]] + p.value)[1..] == p.value;
  }

  /** One section that strays behind sections that are read is enough. */
  lemma {:induction false} TakeAppsStray(o: byte, parts: seq<seq<byte>>, views: seq<AppInfo>, k: nat, rest: seq<byte>)
    requires k < |parts| == |views| && Strays(o, parts[k], views[k])
    requires forall i :: 0 <= i < |parts| ==> ReadsApp(o, parts[i], views[i]) || Strays(o, parts[i], views[i])
    ensures var p := TakeApps(o, |parts|, Joined(parts, 0) + rest); p.Parsed? ==> p.value != views
  {
    var more := Joined(parts[1..], 0) + rest;
    JoinedFirst(parts, rest);
    if Strays(o, parts[0], views[0]) {
      StraysFirst(o, |parts| - 1, parts[0], more, views);
    } else {
      TakeAppsStray(o, parts[1..], views[1..], k - 1, rest);
      StraysLater(o, |parts| - 1, parts[0], more, views);
    }
  }

  lemma AppsStray(u: Users, q: Request, rest: seq<byte>)
    requires Plain(u, q) && !AllCounted(u, q)
    ensures var apps := ChosenApps(u, q);
            var p := TakeApps(q.options, |apps|, SectionsBytes(Sections(u, q), q.options) + rest);
            p.Parsed? ==> p.value != AppsView(u, q, apps)
  {
    var o, xs := q.options, Sections(u, q);
    var parts, views := SectionParts(xs, o), AppsView(u, q, u.apps);
    assert |xs| == |u.apps|;
    forall j | 0 <= j < |parts|
      ensures if NoneOmitted(u, q, j) then ReadsApp(o, parts[j], views[j]) else Strays(o, parts[j], views[j])
    {
      AppReads(u, q, j);
    }
    var k := Omitting(u, q);
    SectionsBytesParts(xs, o);
    TakeAppsStray(o, parts, views, k, rest);
  }

  /** The applications found are those asked for. */
  lemma ChosenIsAsked(u: Users, q: Request)
    requires Increasing(AppKeys(u.apps))
    ensures ChosenApps(u, q) == AskedApps(u.apps, q.apid)
  {
    if q.apid == 0 {
      AllAsked(u.apps);
    } else {
      AskedFrom(u.apps, q.apid);
    }
  }

  lemma {:induction false} AllAsked(apps: seq<App>)
    ensures AskedApps(apps, 0) == apps
  {
    if apps != [] {
      AllAsked(apps[1..]);
    }
  }

  lemma {:induction false} NoneAsked(apps: seq<App>, apid: IdNum)
    requires apid != 0 && forall i :: 0 <= i < |apps| ==> apps[i].apid != apid
    ensures AskedApps(apps, apid) == []
  {
    if apps != [] {
      NoneAsked(apps[1..], apid);
    }
  }

  lemma {:induction false} OneAsked(apps: seq<App>, apid: IdNum, i: nat)
    requires apid != 0 && i < |apps| && forall j :: 0 <= j < |apps| ==> (apps[j].apid == apid <==> j == i)
    ensures AskedApps(apps, apid) == [apps[i]]
    decreases |apps|
  {
    if i == 0 {
      NoneAsked(apps[1..], apid);
    } else {
      OneAsked(apps[1..], apid, i - 1);
    }
  }

  lemma AskedFrom(apps: seq<App>, apid: IdNum)
    requires Increasing(AppKeys(apps)) && apid != 0
    ensures var i := FindApp(apps, apid); AskedApps(apps, apid) == if i < 0 then [] else [apps[i]]
  {
    var i := FindApp(apps, apid);
    if i < 0 {
      NoneAsked(apps, apid);
    } else {
      forall j | 0 <= j < |apps|
        ensures apps[j].apid == apid <==> j == i
      {
        OneOnly(apps, i, j);
      }
      OneAsked(apps, apid, i);
    }
  }

  // ---------------------------------------------------------------- when something is found

  /** By looking at all entries: an application asked for exists, and a context asked for of the application named, or any if none is. */
  predicate Found(u: Users, q: Request) {
    && AskedApps(u.apps, q.apid) != []
    && (if q.apid == 0 then u.ctxs != [] else AskedCtxs(u.ctxs, q.apid, q.ctid) != [])
  }

  /** The contexts of an application named in the request are found by looking at all contexts. */
  lemma ChosenCtxsAsked(u: Users, q: Request)
    requires Consistent(u.apps, u.ctxs) && InBlocks(u) && q.apid != 0
    ensures ChosenCtxs(u, q) == AskedCtxs(u.ctxs, q.apid, q.ctid)
  {
    var i := FindApp(u.apps, q.apid);
    if i < 0 {
      forall k | 0 <= k < |u.ctxs|
        ensures u.ctxs[k].apid != q.apid
      {
        assert Known(u.apps, u.ctxs[k].apid);
      }
      AskedIsSlice(u.ctxs, q.apid, q.ctid, 0, 0);
    } else if q.ctid == 0 {
      BlockIsAsked(u, i);
    } else {
      FoundIsAsked(u, q.apid, q.ctid);
    }
  }

  /** The status is the options asked for exactly when something is found, and otherwise 8, "no matching context". */
  lemma StatusIff(u: Users, q: Request)
    requires Consistent(u.apps, u.ctxs) && InBlocks(u)
    ensures Status(u, q) == if Found(u, q) then q.options else 8
  {
    ChosenIsAsked(u, q);
    if q.apid != 0 {
      ChosenCtxsAsked(u, q);
    }
  }

  /** Applications without contexts: an id, the count 0, and the text if texts are asked for. */
  function BareApps(apps: seq<App>, o: byte): seq<byte> {
    if apps == [] then []
    else
      var a := apps[|apps| - 1];
      BareApps(apps[..|apps| - 1], o) + (IdBytes(a.apid) + Le16(0) + if WithTexts(o) then TextBytes(a.desc) else [])
  }

  /** An application of which nothing is written. */
  ghost predicate Bare(x: Section, a: App) {
    x == Section(a.apid, 0, [], a.desc)
  }

  lemma {:induction false} BareSections(xs: seq<Section>, apps: seq<App>, o: byte)
    requires |xs| == |apps| && forall j :: 0 <= j < |xs| ==> Bare(xs[j], apps[j])
    ensures SectionsBytes(xs, o) == BareApps(apps, o)
  {
    if xs != [] {
      var n := |xs| - 1;
      BareSections(xs[..n], apps[..n], o);
      BareSection(xs[n], apps[n], o);
    }
  }

  lemma BareSection(x: Section, a: App, o: byte)
    requires Bare(x, a)
    ensures SectionBytes(x, o) == IdBytes(a.apid) + Le16(0) + if WithTexts(o) then TextBytes(a.desc) else []
  {
    OptionsAgree(o);
    assert CtxsBytes([], o) == [];
  }

  lemma NothingWritten(u: Users, q: Request, i: nat)
    requires Consistent(u.apps, u.ctxs) && InBlocks(u) && !Found(u, q)
    requires i < |u.apps| && (q.apid != 0 ==> i == FindApp(u.apps, q.apid))
    ensures Bare(SectionOf(u, q, i), u.apps[i])
  {
    assert BlockIn(u, i);
    if q.apid == 0 {
      AllAsked(u.apps);
      assert u.ctxs == [];
    } else {
      ChosenCtxsAsked(u, q);
      ChosenIsAsked(u, q);
    }
  }

  /** When nothing is found the answer says so and lists the applications asked for, if any, without contexts. */
  lemma NothingFound(u: Users, q: Request)
    requires Plain(u, q) && !Found(u, q)
    ensures var apps := AskedApps(u.apps, q.apid);
            && |apps| < TWO_16
            && Payload(u, q) == Le32(3) + [8] + if apps == [] then [] else Le16(|apps|) + BareApps(apps, q.options)
  {
    var apps, xs := ChosenApps(u, q), Sections(u, q);
    StatusIff(u, q);
    ChosenIsAsked(u, q);
    forall j | 0 <= j < |xs|
      ensures Bare(xs[j], apps[j])
    {
      NothingWritten(u, q, Turn(u, q, j));
    }
    BareSections(xs, apps, q.options);
  }

  // ---------------------------------------------------------------- main result

  lemma HeadBack(o: byte, body: seq<byte>)
    requires 3 <= o <= 7
    ensures Decode(Le32(SERVICE) + [o] + body) == DecodeBody(o, body)
  {
    var head := Le32(SERVICE) + [o];
    TakeBack(head, body);
    assert head[..4] == Le32(SERVICE);
    Le32RoundTrip(SERVICE);
  }

  /** What follows the status: the number of applications, their sections, and the rest of the answer. */
  function BodyBytes(n: nat, apps: seq<byte>, rest: seq<byte>): seq<byte>
    requires n < TWO_16
  {
    Le16(n) + (apps + rest)
  }

  function AnswerBody(u: Users, q: Request, rest: seq<byte>): seq<byte>
    requires InBlocks(u) && |ChosenApps(u, q)| < TWO_16
  {
    BodyBytes(|ChosenApps(u, q)|, SectionsBytes(Sections(u, q), q.options), rest)
  }

  lemma BodyBack(u: Users, q: Request)
    requires Plain(u, q) && AllCounted(u, q)
    ensures DecodeBody(q.options, AnswerBody(u, q, REMO)) == Parsed(View(u, q), [])
  {
    CountBack(|ChosenApps(u, q)|, SectionsBytes(Sections(u, q), q.options) + REMO);
    AppsBack(u, q, REMO);
    ChosenIsAsked(u, q);
  }

  lemma BodyStrays(u: Users, q: Request, rest: seq<byte>)
    requires Plain(u, q) && !AllCounted(u, q)
    ensures DecodeBody(q.options, AnswerBody(u, q, rest)) != Parsed(View(u, q), [])
  {
    CountBack(|ChosenApps(u, q)|, SectionsBytes(Sections(u, q), q.options) + rest);
    AppsStray(u, q, rest);
    ChosenIsAsked(u, q);
  }

  lemma FramedIs(status: byte, n: nat, apps: seq<byte>, rest: seq<byte>)
    requires 0 < n < TWO_16
    ensures Framed(status, n, apps) + rest == Le32(SERVICE) + [status] + BodyBytes(n, apps, rest)
  {
    Regroup(Le32(SERVICE), [status], Le16(n), apps, rest);
    assert Framed(status, n, apps) == Le32(SERVICE) + [status] + Le16(n) + apps;
  }

  lemma PayloadIs(u: Users, q: Request, n: nat, apps: seq<byte>, rest: seq<byte>)
    requires InBlocks(u) && Status(u, q) == q.options && 0 < n == CountApps(u, q)
    requires apps == SectionsBytes(Sections(u, q), q.options)
    ensures Payload(u, q) + rest == Le32(SERVICE) + [q.options] + BodyBytes(n, apps, rest)
  {
    FramedIs(q.options, n, apps, rest);
  }

  lemma WholeBack(o: byte, body: seq<byte>, s: seq<byte>)
    requires 3 <= o <= 7 && s == Le32(SERVICE) + [o] + body
    ensures Decode(s) == DecodeBody(o, body)
  {
    HeadBack(o, body);
  }

  lemma FoundMeans(u: Users, q: Request)
    requires Plain(u, q) && Found(u, q)
    ensures Status(u, q) == q.options && 0 < |ChosenApps(u, q)| == CountApps(u, q)
  {
    StatusIff(u, q);
    ChosenIsAsked(u, q);
  }

  lemma PayloadBody(u: Users, q: Request, rest: seq<byte>)
    requires InBlocks(u) && Status(u, q) == q.options && 0 < |ChosenApps(u, q)| == CountApps(u, q)
    ensures Payload(u, q) + rest == Le32(SERVICE) + [q.options] + AnswerBody(u, q, rest)
  {
    PayloadIs(u, q, CountApps(u, q), SectionsBytes(Sections(u, q), q.options), rest);
  }

  /** An answer with a context left out is never read as what was asked for, whatever follows it. */
  lemma NeverBack(u: Users, q: Request, rest: seq<byte>)
    requires Plain(u, q) && 3 <= q.options <= 7 && Found(u, q) && !AllCounted(u, q)
    ensures Decode(Payload(u, q) + rest) != Parsed(View(u, q), [])
  {
    FoundMeans(u, q);
    PayloadBody(u, q, rest);
    BodyStrays(u, q, rest);
    WholeBack(q.options, AnswerBody(u, q, rest), Payload(u, q) + rest);
  }

  /** Decoding the daemon's answer gives exactly the applications, contexts, levels, statuses and descriptions asked for,
      if and only if a request for a context id alone leaves out no context. */
  lemma RoundTrip(u: Users, q: Request)
    requires Plain(u, q) && 3 <= q.options <= 7 && Found(u, q)
    ensures Decode(Payload(u, q) + REMO) == Parsed(View(u, q), []) <==> AllCounted(u, q)
  {
    if AllCounted(u, q) {
      FoundMeans(u, q);
      PayloadBody(u, q, REMO);
      BodyBack(u, q);
      WholeBack(q.options, AnswerBody(u, q, REMO), Payload(u, q) + REMO);
    } else {
      NeverBack(u, q, REMO);
    }
  }

  lemma TwoConsistent(app: App, first: Ctx, second: Ctx)
    requires app.apid == first.apid == second.apid != 0 && first.ctid < second.ctid && app.numContexts == 2
    ensures Consistent([app], [first, second])
  {
    var apps, ctxs := [app], [first, second];
    assert apps[0].apid == app.apid;
    assert ctxs[1..] == [second] && ctxs[1..][1..] == [];
    assert CountOf(ctxs, app.apid) == 1 + CountOf(ctxs[1..], app.apid) == 2 + CountOf(ctxs[1..][1..], app.apid);
    assert Increasing(CtxKeys(ctxs));
    assert AllKnown(apps, ctxs);
  }

  /** One application with two contexts, asked for the contexts with the id of the first: the answer announces two and has one. */
  lemma OneOfTwoMisread() returns (u: Users, q: Request)
    ensures |u.apps| == 1 && |u.ctxs| == 2 && q.apid == 0 && q.ctid == u.ctxs[0].ctid
    ensures Plain(u, q) && 3 <= q.options <= 7 && Found(u, q)
    ensures forall rest :: Decode(Payload(u, q) + rest) != Parsed(View(u, q), [])
  {
    var app := App(0x41505031, 100, -1, false, Null, 2);
    var first := Ctx(0x41505031, 0x43545831, 4, 0, 0, -1, Null, 0, false);
    var second := first.(ctid := 0x43545832, pos := 1);
    u, q := Users([app], [first, second]), Request(7, 0, 0x43545831);
    TwoConsistent(app, first, second);
    ConsistentCovered(u);
    assert u.ctxs[1].ctid != q.ctid;
    AllAsked(u.apps);
    forall rest
      ensures Decode(Payload(u, q) + rest) != Parsed(View(u, q), [])
    {
      NeverBack(u, q, rest);
    }
  }
}
