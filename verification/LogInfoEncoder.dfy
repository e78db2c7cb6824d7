/**
 dlt_daemon_control_get_log_info as it works: a first pass adds up the size, the
 buffer is allocated, and a second pass fills it with a running offset.
 */
module LogInfoEncoder {
  import opened Bytes
  import opened Ids
  import opened RegistryTables
  import opened RegistrySpec
  import RegistryClass
  import opened LogInfo
  import opened LogInfoDecode

  datatype Reply = Refused | Answered(buf: array<byte>)

  // ---------------------------------------------------------------- writing at an offset

  function Spliced(was: seq<byte>, off: nat, s: seq<byte>): (r: seq<byte>)
    requires off + |s| <= |was|
    ensures |r| == |was|
  {
    seq(|was|, k requires 0 <= k < |was| => if off <= k < off + |s| then s[k - off] else was[k])
  }

  lemma SpliceTwice(was: seq<byte>, off: nat, a: seq<byte>, b: seq<byte>)
    requires off + |a| + |b| <= |was|
    ensures Spliced(Spliced(was, off, a), off + |a|, b) == Spliced(was, off, a + b)
  {
  }

  lemma SpliceThrice(was: seq<byte>, off: nat, a: seq<byte>, b: seq<byte>, c: seq<byte>)
    requires off + |a| + |b| + |c| <= |was|
    ensures Spliced(Spliced(Spliced(was, off, a), off + |a|, b), off + |a| + |b|, c) == Spliced(was, off, a + b + c)
  {
    SpliceTwice(was, off, a, b);
    SpliceTwice(was, off, a + b, c);
  }

  lemma SpliceNothing(was: seq<byte>, off: nat)
    requires off <= |was|
    ensures Spliced(was, off, []) == was
  {
  }

  method Emit(buf: array<byte>, off: nat, s: seq<byte>) returns (end: nat)
    requires off + |s| <= buf.Length
    modifies buf
    ensures end == off + |s| && buf[..] == Spliced(old(buf[..]), off, s)
  {
    CopyInto(buf, off, s);
    end := off + |s|;
  }

  /** Two pieces one after the other. */
  method EmitBoth(buf: array<byte>, off: nat, a: seq<byte>, b: seq<byte>) returns (end: nat)
    requires off + |a| + |b| <= buf.Length
    modifies buf
    ensures end == off + |a| + |b| && buf[..] == Spliced(old(buf[..]), off, a + b)
  {
    end := Emit(buf, off, a);
    end := Emit(buf, end, b);
    SpliceTwice(old(buf[..]), off, a, b);
  }

  // ---------------------------------------------------------------- first pass

  method TextsOfCtxs(cs: seq<Ctx>) returns (size: nat)
    ensures size == CtxTexts(cs)
  {
    size := 0;
    for i := 0 to |cs|
      invariant size == CtxTexts(cs[..i])
    {
      assert cs[..i + 1][..i] == cs[..i];
      size := size + 2 + TextLen(cs[i].desc);
    }
    assert cs[..|cs|] == cs;
  }

  method TextsOfApps(apps: seq<App>) returns (size: nat)
    ensures size == AppTexts(apps)
  {
    size := 0;
    for i := 0 to |apps|
      invariant size == AppTexts(apps[..i])
    {
      assert apps[..i + 1][..i] == apps[..i];
      size := size + 2 + TextLen(apps[i].desc);
    }
    assert apps[..|apps|] == apps;
  }

  /** The size of the answer. */
  method Measure(u: Users, q: Request) returns (size: nat)
    requires InBlocks(u)
    ensures size == DataSize(u, q)
  {
    var apps, cs := ChosenApps(u, q), ChosenCtxs(u, q);
    var o := q.options;
    CtxsSizeIs(cs, o);
    size := 9 + |apps| * 6 + |cs| * SizeCont(o) + 2;
    if HasTexts(o) {
      var forCtxs := TextsOfCtxs(cs);
      var forApps := TextsOfApps(apps);
      size := size + forCtxs + forApps;
    }
  }

  // ---------------------------------------------------------------- second pass

  method WriteCtx(buf: array<byte>, off: nat, c: Ctx, o: byte) returns (end: nat)
    requires off + |CtxBytes(c, o)| <= buf.Length
    modifies buf
    ensures end == off + |CtxBytes(c, o)| && buf[..] == Spliced(old(buf[..]), off, CtxBytes(c, o))
  {
    end := EmitFour(buf, off, IdBytes(c.ctid), LevelBytes(HasLevel(o), c.level), LevelBytes(HasTrace(o), c.trace), DescBytes(o, c.desc));
  }

  method EmitFour(buf: array<byte>, off: nat, a: seq<byte>, b: seq<byte>, c: seq<byte>, d: seq<byte>) returns (end: nat)
    requires off + |a + b + c + d| <= buf.Length
    modifies buf
    ensures end == off + |a + b + c + d| && buf[..] == Spliced(old(buf[..]), off, a + b + c + d)
  {
    end := EmitBoth(buf, off, a, b);
    end := EmitBoth(buf, end, c, d);
    SpliceTwice(old(buf[..]), off, a + b, c + d);
    assert a + b + (c + d) == a + b + c + d;
  }

  /** The contexts that the loop for one application goes through. */
  function Candidates(u: Users, q: Request, i: nat): seq<Ctx>
    requires InBlocks(u) && i < |u.apps|
  {
    if q.apid != 0 && q.ctid != 0 then ChosenCtxs(u, q) else BlockOf(u, i)
  }

  lemma WrittenAreCandidates(u: Users, q: Request, i: nat)
    requires InBlocks(u) && i < |u.apps| && (q.apid != 0 ==> i == FindApp(u.apps, q.apid))
    ensures Count(u, q, i) <= |Candidates(u, q, i)|
    ensures WrittenCtxs(u, q, i) == Matching(Candidates(u, q, i)[..Count(u, q, i)], q.ctid)
  {
    var cs := Candidates(u, q, i);
    if q.apid != 0 && q.ctid != 0 && cs != [] {
      assert cs[..1] == cs && cs[..1][..0] == [];
      assert Matching(cs[..1], q.ctid) == Matching([], q.ctid) + [cs[0]];
    }
  }

  /** What is written for one context of the loop. */
  function IfMatching(c: Ctx, ctid: IdNum, o: byte): seq<byte> {
    if ctid == 0 || c.ctid == ctid then CtxBytes(c, o) else []
  }

  ghost predicate IsPiece(c: Ctx, ctid: IdNum, o: byte, s: seq<byte>) {
    s == IfMatching(c, ctid, o)
  }

  /** `s` is what is written for one context. It is said of every such piece, of which there is one: written as the
      plain equation it unfolds in the loops below, and their proofs then run out of resource. */
  ghost predicate PieceBytes(c: Ctx, ctid: IdNum, o: byte, s: seq<byte>) {
    forall p :: IsPiece(c, ctid, o, p) ==> s == p
  }

  /** The pieces of all contexts. */
  ghost predicate Pieces(cs: seq<Ctx>, ctid: IdNum, o: byte, parts: seq<seq<byte>>) {
    |parts| == |cs| && forall j :: 0 <= j < |cs| ==> PieceBytes(cs[j], ctid, o, parts[j])
  }

  lemma {:induction false} PiecesOf(cs: seq<Ctx>, ctid: IdNum, o: byte) returns (parts: seq<seq<byte>>)
    ensures Pieces(cs, ctid, o, parts) && Joined(parts, 0) == CtxsBytes(Matching(cs, ctid), o)
  {
    parts := [];
    if cs != [] {
      var n := |cs| - 1;
      var before := PiecesOf(cs[..n], ctid, o);
      parts := before + [IfMatching(cs[n], ctid, o)];
      JoinedLast(before, IfMatching(cs[n], ctid, o), 0);
      MatchingLast(cs, ctid, o);
    }
  }

  lemma MatchingLast(cs: seq<Ctx>, ctid: IdNum, o: byte)
    requires cs != []
    ensures var n := |cs| - 1;
            CtxsBytes(Matching(cs, ctid), o) == CtxsBytes(Matching(cs[..n], ctid), o) + IfMatching(cs[n], ctid, o)
  {
    var n := |cs| - 1;
    var x := Matching(cs[..n], ctid);
    if ctid == 0 || cs[n].ctid == ctid {
      assert (x + [cs[n]])[..|x|] == x;
    } else {
      assert Matching(cs, ctid) == x;
    }
  }

  method WriteIfMatching(buf: array<byte>, off: nat, c: Ctx, ctid: IdNum, o: byte, ghost s: seq<byte>) returns (end: nat)
    requires PieceBytes(c, ctid, o, s) && off + |s| <= buf.Length
    modifies buf
    ensures end == off + |s| && buf[..] == Spliced(old(buf[..]), off, s)
  {
    assert IsPiece(c, ctid, o, IfMatching(c, ctid, o));
    SpliceNothing(buf[..], off);
    end := off;
    if ctid == 0 || c.ctid == ctid {
      end := WriteCtx(buf, off, c, o);
    }
  }

  /** The loop over the contexts of one application; `parts` are the pieces to write. */
  method WriteCtxs(buf: array<byte>, off: nat, cs: seq<Ctx>, ctid: IdNum, o: byte, ghost parts: seq<seq<byte>>)
    returns (end: nat)
    requires Pieces(cs, ctid, o, parts) && off + |Joined(parts, 0)| <= buf.Length
    modifies buf
    ensures end == off + |Joined(parts, 0)| && buf[..] == Spliced(old(buf[..]), off, Joined(parts, 0))
  {
    ghost var was := buf[..];
    SpliceNothing(was, off);
    end := off;
    ghost var done := [];
    for j := 0 to |cs|
      invariant done + Joined(parts, j) == Joined(parts, 0)
      invariant end == off + |done| && buf[..] == Spliced(was, off, done)
    {
      JoinedNext(done, parts, j);
      SpliceTwice(was, off, done, parts[j]);
      end := WriteIfMatching(buf, end, cs[j], ctid, o, parts[j]);
      done := done + parts[j];
    }
  }

  /** Section `i` of the answer, gathered from the tables. */
  method Gather(u: Users, q: Request, i: nat) returns (x: Section, cs: seq<Ctx>)
    requires InBlocks(u) && i < |u.apps| && (q.apid != 0 ==> i == FindApp(u.apps, q.apid))
    ensures x == SectionOf(u, q, i) && x.ctxs == Matching(cs, q.ctid) && x.count < TWO_16
  {
    WrittenAreCandidates(u, q, i);
    var n := Count(u, q, i);
    cs := ChosenCtxs(u, q);
    if !(q.apid != 0 && q.ctid != 0) {
      var base := RegistryClass.OffsetBase(u.apps, i);
      assert BlockIn(u, i);
      cs := u.ctxs[base..base + u.apps[i].numContexts];
    }
    cs := cs[..n];
    x := Section(u.apps[i].apid, n, Matching(cs, q.ctid), u.apps[i].desc);
  }

  /** Application id, count, the matching ones of `cs`, and the description. */
  method WriteSection(buf: array<byte>, off: nat, x: Section, cs: seq<Ctx>, ctid: IdNum, o: byte) returns (end: nat)
    requires x.ctxs == Matching(cs, ctid) && off + SectionSize(x, o) <= buf.Length
    modifies buf
    ensures end == off + SectionSize(x, o) && buf[..] == Spliced(old(buf[..]), off, SectionBytes(x, o))
  {
    var id, count, desc := IdBytes(x.apid), Le16(x.count % 65536), DescBytes(o, x.desc);
    ghost var parts := PiecesOf(cs, ctid, o);
    assert SectionBytes(x, o) == id + count + Joined(parts, 0) + desc;
    end := WriteAround(buf, off, id, count, desc, cs, ctid, o, parts);
  }

  /** The contexts between what comes before and behind them. */
  method WriteAround(buf: array<byte>, off: nat, id: seq<byte>, count: seq<byte>, desc: seq<byte>,
                     cs: seq<Ctx>, ctid: IdNum, o: byte, ghost parts: seq<seq<byte>>) returns (end: nat)
    requires Pieces(cs, ctid, o, parts) && off + |id + count + Joined(parts, 0) + desc| <= buf.Length
    modifies buf
    ensures end == off + |id + count + Joined(parts, 0) + desc|
    ensures buf[..] == Spliced(old(buf[..]), off, id + count + Joined(parts, 0) + desc)
  {
    ghost var was := buf[..];
    end := EmitBoth(buf, off, id, count);
    end := WriteCtxs(buf, end, cs, ctid, o, parts);
    end := Emit(buf, end, desc);
    SpliceThrice(was, off, id + count, Joined(parts, 0), desc);
  }

  ghost predicate IsTurn(u: Users, q: Request, j: nat, x: Section) {
    InBlocks(u) && j < |ChosenApps(u, q)| && x == SectionOf(u, q, Turn(u, q, j))
  }

  /** `s` is what turn `j` writes; said of every section of that turn, of which there is one, for the same reason. */
  ghost predicate TurnBytes(u: Users, q: Request, j: nat, s: seq<byte>) {
    forall x :: IsTurn(u, q, j, x) ==> s == SectionBytes(x, q.options)
  }

  /** One turn of the loop over applications. */
  method WriteTurn(buf: array<byte>, off: nat, u: Users, q: Request, j: nat, ghost s: seq<byte>) returns (end: nat)
    requires InBlocks(u) && j < |ChosenApps(u, q)| && TurnBytes(u, q, j, s) && off + |s| <= buf.Length
    modifies buf
    ensures end == off + |s| && buf[..] == Spliced(old(buf[..]), off, s)
  {
    var x, cs := Gather(u, q, Turn(u, q, j));
    assert IsTurn(u, q, j, x);
    end := WriteSection(buf, off, x, cs, q.ctid, q.options);
  }

  /** The pieces of all turns. */
  ghost predicate Turns(u: Users, q: Request, parts: seq<seq<byte>>) {
    |parts| == CountApps(u, q) && forall j :: 0 <= j < |parts| ==> TurnBytes(u, q, j, parts[j])
  }

  method WriteSections(buf: array<byte>, off: nat, u: Users, q: Request, ghost parts: seq<seq<byte>>) returns (end: nat)
    requires InBlocks(u) && Turns(u, q, parts) && off + |Joined(parts, 0)| <= buf.Length
    modifies buf
    ensures end == off + |Joined(parts, 0)| && buf[..] == Spliced(old(buf[..]), off, Joined(parts, 0))
  {
    ghost var was := buf[..];
    SpliceNothing(was, off);
    end := off;
    ghost var done := [];
    for j := 0 to CountApps(u, q)
      invariant done + Joined(parts, j) == Joined(parts, 0)
      invariant end == off + |done| && buf[..] == Spliced(was, off, done)
    {
      JoinedNext(done, parts, j);
      SpliceTwice(was, off, done, parts[j]);
      end := WriteTurn(buf, end, u, q, j, parts[j]);
      done := done + parts[j];
    }
  }

  lemma TurnsOf(u: Users, q: Request) returns (parts: seq<seq<byte>>)
    requires InBlocks(u)
    ensures Turns(u, q, parts) && Joined(parts, 0) == SectionsBytes(Sections(u, q), q.options)
  {
    var xs := Sections(u, q);
    parts := SectionParts(xs, q.options);
    SectionsBytesParts(xs, q.options);
  }

  /** Everything but the trailing id. */
  method WritePayload(buf: array<byte>, u: Users, q: Request, ghost parts: seq<seq<byte>>) returns (end: nat)
    requires InBlocks(u) && Turns(u, q, parts)
    requires |Framed(Status(u, q), CountApps(u, q), Joined(parts, 0))| <= buf.Length
    modifies buf
    ensures var s := Framed(Status(u, q), CountApps(u, q), Joined(parts, 0));
            end == |s| && buf[..] == Spliced(old(buf[..]), 0, s)
  {
    ghost var was := buf[..];
    var n, status := CountApps(u, q), Status(u, q);
    end := EmitBoth(buf, 0, Le32(SERVICE), [status]);
    if n != 0 {
      end := Emit(buf, end, Le16(n));
      end := WriteSections(buf, end, u, q, parts);
      SpliceThrice(was, 0, Le32(SERVICE) + [status], Le16(n), Joined(parts, 0));
      assert Framed(status, n, Joined(parts, 0)) == Le32(SERVICE) + [status] + Le16(n) + Joined(parts, 0);
    } else {
      assert Framed(status, n, Joined(parts, 0)) == Le32(SERVICE) + [status];
    }
  }

  /** A buffer of the given size, filled. */
  method Fill(u: Users, q: Request, size: nat, ghost parts: seq<seq<byte>>) returns (buf: array<byte>)
    requires InBlocks(u) && Turns(u, q, parts)
    requires |Framed(Status(u, q), CountApps(u, q), Joined(parts, 0)) + REMO| <= size
    ensures fresh(buf) && buf.Length == size
    ensures buf[..] == Spliced(Zeros(size), 0, Framed(Status(u, q), CountApps(u, q), Joined(parts, 0)) + REMO)
  {
    buf := new byte[size](_ => 0);
    assert buf[..] == Zeros(size);
    var end := WritePayload(buf, u, q, parts);
    end := Emit(buf, end, REMO);
    SpliceTwice(Zeros(size), 0, Framed(Status(u, q), CountApps(u, q), Joined(parts, 0)), REMO);
  }

  /** dlt_daemon_control_get_log_info: the bytes sent are the payload, the interface id, and zeros up to the computed size. */
  method GetLogInfo(u: Users, q: Request) returns (reply: Reply)
    requires Consistent(u.apps, u.ctxs)
    ensures reply.Answered? <==> 3 <= q.options <= 7
    ensures reply.Answered? ==>
              && InBlocks(u) && fresh(reply.buf) && reply.buf.Length == DataSize(u, q)
              && |Payload(u, q)| + |REMO| <= DataSize(u, q)
              && reply.buf[..] == Spliced(Zeros(DataSize(u, q)), 0, Payload(u, q) + REMO)
  {
    if !Answerable(q) {
      return Refused;
    }
    ConsistentInBlocks(u);
    NeverOverruns(u, q);
    ghost var parts := TurnsOf(u, q);
    var size := Measure(u, q);
    var buf := Fill(u, q, size, parts);
    reply := Answered(buf);
  }

  function Zeros(n: nat): (s: seq<byte>)
    ensures |s| == n
  {
    seq(n, _ => 0)
  }

  lemma Padded(size: nat, a: seq<byte>, b: seq<byte>, sent: seq<byte>) returns (padding: seq<byte>)
    requires |a + b| <= size && sent == Spliced(Zeros(size), 0, a + b)
    ensures sent == a + (b + padding) && (|a| + |b| == size ==> sent == a + b)
  {
    padding := Zeros(size - |a| - |b|);
  }

  /** A request that leaves out no context uses all of the buffer. */
  lemma CountedFills(u: Users, q: Request)
    requires Plain(u, q) && Found(u, q) && AllCounted(u, q)
    ensures |Payload(u, q)| + |REMO| == DataSize(u, q)
  {
    ChosenIsAsked(u, q);
    if q.apid == 0 && q.ctid != 0 {
      CtxAloneFillsIff(u, q);
    } else {
      FillsExactly(u, q);
    }
  }

  /** The buffer sent, padding included, decodes to what was asked for exactly when no context is left out. */
  lemma ReplyDecodes(u: Users, q: Request, sent: seq<byte>)
    requires Plain(u, q) && 3 <= q.options <= 7 && Found(u, q)
    requires (NeverOverruns(u, q); sent == Spliced(Zeros(DataSize(u, q)), 0, Payload(u, q) + REMO))
    ensures Decode(sent) == Parsed(View(u, q), []) <==> AllCounted(u, q)
  {
    NeverOverruns(u, q);
    var padding := Padded(DataSize(u, q), Payload(u, q), REMO, sent);
    if AllCounted(u, q) {
      CountedFills(u, q);
      RoundTrip(u, q);
    } else {
      NeverBack(u, q, REMO + padding);
    }
  }
}
