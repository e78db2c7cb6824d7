/**
 What every step of the logging state machine keeps, and what therefore holds of
 every run: the shape of the state, the conservation of the discard count, the
 account of every accepted message, and the depth of the notice recursion.
 */
module LoggingInvariants {
  import opened LoggingSpec

  function WireMsgs(w: seq<(nat, Msg)>): seq<Msg> {
    seq(|w|, i requires 0 <= i < |w| => w[i].1)
  }

  function Carried(m: Msg): nat {
    if m.OverflowNotice? then m.count else 0
  }

  /** The counts carried by the overflow notices among the messages. */
  function NoticeSum(s: seq<Msg>): nat {
    if s == [] then 0 else NoticeSum(s[..|s| - 1]) + Carried(s[|s| - 1])
  }

  /** The state invariants behind every branch of the code. */
  ghost predicate Shape(d: Daemon) {
    && !d.hist.tooDeep
    && d.state != Init
    && (NumClients(d.conns) == 0 ==> d.state == Buffer || d.state == BufferFull)
    && ShapeOfRing(d)
  }

  ghost predicate ShapeOfRing(d: Daemon) {
    && (d.state == SendDirect ==> d.ring == [] && d.overflow == 0)
    && (d.state == BufferFull ==> |d.ring| >= 2)
    && (d.overflow > 0 ==> d.ring != [])
  }

  /** Every accepted message was let go, is still queued, or is lost. */
  ghost predicate Accounted(d: Daemon) {
    multiset(d.hist.accepted) == multiset(d.hist.released) + multiset(d.ring) + multiset(d.hist.lost)
  }

  /** Every message let go, and besides them those in `owed`, reached a client, counted with multiplicity. */
  ghost predicate Delivered(d: Daemon, owed: multiset<Msg>) {
    multiset(d.hist.released) + owed <= multiset(WireMsgs(d.hist.wire))
  }

  function Copies(m: Msg, sent: bool): multiset<Msg> {
    if sent then multiset{m} else multiset{}
  }

  /** Discards still to be reported plus those announced, minus those that happened. */
  function Balance(d: Daemon): int {
    d.overflow + NoticeSum(d.hist.accepted) - d.hist.rejected - d.hist.reported
  }

  // ---------------------------------------------------------------- what a step does to the poll table

  /** No entry is added, and a leading stretch of the poll table without clients is not touched. */
  ghost predicate KeepsLeadingOthers(c: seq<Conn>, c': seq<Conn>) {
    && |c'| <= |c|
    && forall k :: 0 <= k <= |c| && NoClient(c[..k]) ==> k <= |c'| && c'[..k] == c[..k]
  }

  /** The entries before `i`. */
  function Passed(c: seq<Conn>, i: nat): seq<Conn> {
    if i <= |c| then c[..i] else c
  }

  /** Every question still to come is answered yes. */
  ghost predicate Willing(env: seq<bool>) {
    forall k :: 0 <= k < |env| ==> env[k]
  }

  /** What a step may do to the poll table and to the list of lost messages. It loses a message only if it skips a client, and it skips none
      where no two clients are neighbours or nothing is refused. */
  ghost predicate Follows(d: Daemon, d': Daemon) {
    && KeepsLeadingOthers(d.conns, d'.conns)
    && d.hist.skipped <= d'.hist.skipped
    && |d.hist.lost| <= |d'.hist.lost|
    && (d'.hist.skipped == d.hist.skipped ==> d'.hist.lost == d.hist.lost)
    && (NoAdjacentClients(d.conns) ==> NoAdjacentClients(d'.conns) && d'.hist.skipped == d.hist.skipped)
    && (Willing(d.env) ==> Willing(d'.env) && d'.hist.skipped == d.hist.skipped)
  }

  lemma FollowsTransitive(a: Daemon, b: Daemon, c: Daemon)
    requires Follows(a, b) && Follows(b, c)
    ensures Follows(a, c)
  {
    forall k | 0 <= k <= |a.conns| && NoClient(a.conns[..k])
      ensures k <= |c.conns| && c.conns[..k] == a.conns[..k]
    {
      assert NoClient(b.conns[..k]);
    }
  }

  lemma RemovalFollows(d: Daemon, i: nat)
    requires i < |d.conns| && d.conns[i].Client? && !Willing(d.env)
    ensures Follows(d, Gone(d, i))
  {
    var c' := RemoveAt(d.conns, i);
    forall k | 0 <= k <= |d.conns| && NoClient(d.conns[..k])
      ensures k <= |c'| && c'[..k] == d.conns[..k]
    {
      assert forall j :: 0 <= j < k ==> d.conns[..k][j] == d.conns[j];
    }
    assert NoAdjacentClients(d.conns) ==> NoAdjacentClients(c') by {
      assert forall k :: 0 <= k < |c'| ==> c'[k] == d.conns[if k < i then k else k + 1];
    }
  }

  // ---------------------------------------------------------------- the notices and the wire, one element more

  lemma NoticeSumSnoc(s: seq<Msg>, m: Msg)
    ensures NoticeSum(s + [m]) == NoticeSum(s) + Carried(m)
  {
    assert (s + [m])[..|s|] == s;
  }

  lemma WireSnoc(w: seq<(nat, Msg)>, x: (nat, Msg))
    ensures multiset(WireMsgs(w + [x])) == multiset(WireMsgs(w)) + multiset{x.1}
  {
    assert WireMsgs(w + [x]) == WireMsgs(w) + [x.1];
  }

  // ---------------------------------------------------------------- state, ring and counters

  lemma StoreShape(d: Daemon, m: Msg)
    requires Shape(d) && Buffering(d.state)
    ensures var (r, res) := Store(d, m);
            && Shape(r) && Buffering(r.state) && res != ErrSendFailed
            && (res == ErrBufferFull ==> r.state == BufferFull)
            && Balance(r) == Balance(d) + (if res == Ok then Carried(m) else 0)
  {
    NoticeSumSnoc(d.hist.accepted, m);
  }

  lemma {:induction false} ToAllShape(d: Daemon, m: Msg, level: nat)
    requires level <= 1 && Shape(d)
    ensures var (r, res) := SendAll(d, m, level);
            && Shape(r) && res != ErrSendFailed
            && (res == ErrBufferFull ==> r.state == BufferFull)
            && Balance(r) == Balance(d) + (if res == Ok then Carried(m) else 0)
    decreases NumClients(d.conns), 1 - level, 3, 0
  {
    if d.state == SendDirect {
      var d1 := Broadcast(d, m, 0, false, level).0;
      BroadcastShape(d, m, 0, false, level);
      if Buffering(d1.state) {
        StoreShape(d1, m);
      } else {
        assert ReportOverflow(d1, level) == d1;
        NoticeSumSnoc(d1.hist.accepted, m);
      }
    } else {
      StoreShape(d, m);
    }
  }

  lemma {:induction false} BroadcastShape(d: Daemon, m: Msg, i: nat, sent: bool, level: nat)
    requires level <= 1 && Shape(d)
    ensures var r := Broadcast(d, m, i, sent, level).0;
            Shape(r) && Balance(r) == Balance(d)
    decreases NumClients(d.conns), 1 - level, 1, |d.conns| - i
  {
    if i < |d.conns| {
      var (d1, took) := Visit(d, m, i, level);
      VisitShape(d, m, i, level);
      BroadcastShape(d1, m, i + 1, sent || took, level);
    }
  }

  lemma {:induction false} VisitShape(d: Daemon, m: Msg, i: nat, level: nat)
    requires level <= 1 && Shape(d) && i < |d.conns|
    ensures var r := Visit(d, m, i, level).0;
            Shape(r) && Balance(r) == Balance(d)
    decreases NumClients(d.conns), 1 - level, 0, 0
  {
    var (d1, ok) := Ask(d);
    if d.conns[i].Client? && !ok {
      NumClientsRemoveAt(d.conns, i);
      UnregisteredShape(Gone(d1, i), level);
    }
  }

  lemma {:induction false} UnregisteredShape(d: Daemon, level: nat)
    requires level <= 1 && !d.hist.tooDeep && d.state != Init && ShapeOfRing(d)
    ensures var r := Unregistered(d, level);
            Shape(r) && Balance(r) == Balance(d)
    decreases NumClients(d.conns), 1 - level, 4, 0
  {
    var d1 := if NumClients(d.conns) == 0 then d.(state := Buffer) else d;
    ToAllShape(d1, Disconnected, level);
    ToAllShape(SendAll(d1, Disconnected, level).0, ClosedNote, level);
  }

  // ---------------------------------------------------------------- the account of every message

  lemma StoreBooks(d: Daemon, m: Msg, owed: multiset<Msg>)
    requires Accounted(d) && Delivered(d, owed)
    ensures var r := Store(d, m).0; Accounted(r) && Delivered(r, owed)
  {
    var r := Store(d, m).0;
    assert r.hist.released == d.hist.released && r.hist.lost == d.hist.lost && r.hist.wire == d.hist.wire;
    assert (r.ring == d.ring && r.hist.accepted == d.hist.accepted) || (r.ring == d.ring + [m] && r.hist.accepted == d.hist.accepted + [m]);
  }

  /** The end of a direct send: the message reached a client, or it was lost. */
  lemma DirectBooks(d: Daemon, m: Msg, sent: bool, owed: multiset<Msg>)
    requires Accounted(d) && Delivered(d, owed + Copies(m, sent))
    ensures var r := Done(d, m, sent); Accounted(r) && Delivered(r, owed)
  {
  }

  lemma {:induction false} ToAllBooks(d: Daemon, m: Msg, level: nat, owed: multiset<Msg>)
    requires level <= 1 && Shape(d) && Accounted(d) && Delivered(d, owed)
    ensures var r := SendAll(d, m, level).0; Accounted(r) && Delivered(r, owed)
    decreases NumClients(d.conns), 1 - level, 3, 0
  {
    if d.state == SendDirect {
      var (d1, sent) := Broadcast(d, m, 0, false, level);
      BroadcastBooks(d, m, 0, false, level, owed);
      BroadcastShape(d, m, 0, false, level);
      if Buffering(d1.state) {
        StoreBooks(d1, m, owed);
      } else {
        assert ReportOverflow(d1, level) == d1;
        DirectBooks(d1, m, sent, owed);
      }
    } else {
      StoreBooks(d, m, owed);
    }
  }

  lemma {:induction false} BroadcastBooks(d: Daemon, m: Msg, i: nat, sent: bool, level: nat, owed: multiset<Msg>)
    requires level <= 1 && Shape(d) && Accounted(d) && Delivered(d, owed + Copies(m, sent))
    ensures var (r, sent') := Broadcast(d, m, i, sent, level);
            Accounted(r) && Delivered(r, owed + Copies(m, sent'))
    decreases NumClients(d.conns), 1 - level, 1, |d.conns| - i
  {
    if i < |d.conns| {
      var (d1, took) := Visit(d, m, i, level);
      VisitShape(d, m, i, level);
      VisitBooks(d, m, i, sent, level, owed);
      BroadcastBooks(d1, m, i + 1, sent || took, level, owed);
    }
  }

  lemma {:induction false} VisitBooks(d: Daemon, m: Msg, i: nat, sent: bool, level: nat, owed: multiset<Msg>)
    requires level <= 1 && Shape(d) && Accounted(d) && Delivered(d, owed + Copies(m, sent)) && i < |d.conns|
    ensures var (r, took) := Visit(d, m, i, level);
            Accounted(r) && Delivered(r, owed + Copies(m, sent || took))
    decreases NumClients(d.conns), 1 - level, 0, 0
  {
    var (d1, ok) := Ask(d);
    if d.conns[i].Client? {
      if ok {
        WireSnoc(d.hist.wire, (d.conns[i].id, m));
      } else {
        NumClientsRemoveAt(d.conns, i);
        UnregisteredBooks(Gone(d1, i), level, owed + Copies(m, sent));
      }
    }
  }

  lemma {:induction false} UnregisteredBooks(d: Daemon, level: nat, owed: multiset<Msg>)
    requires level <= 1 && !d.hist.tooDeep && d.state != Init && ShapeOfRing(d) && Accounted(d) && Delivered(d, owed)
    ensures var r := Unregistered(d, level); Accounted(r) && Delivered(r, owed)
    decreases NumClients(d.conns), 1 - level, 4, 0
  {
    var d1 := if NumClients(d.conns) == 0 then d.(state := Buffer) else d;
    ToAllShape(d1, Disconnected, level);
    ToAllBooks(d1, Disconnected, level, owed);
    ToAllBooks(SendAll(d1, Disconnected, level).0, ClosedNote, level, owed);
  }

  // ---------------------------------------------------------------- the poll table, and what is never lost

  lemma StoreFollows(d: Daemon, m: Msg)
    ensures Follows(d, Store(d, m).0)
  {
  }

  lemma {:induction false} ToAllFollows(d: Daemon, m: Msg, level: nat)
    requires level <= 1 && Shape(d)
    ensures Follows(d, SendAll(d, m, level).0)
    decreases NumClients(d.conns), 1 - level, 3, 0
  {
    if d.state == SendDirect {
      var (d1, sent) := Broadcast(d, m, 0, false, level);
      BroadcastFollows(d, m, 0, false, level);
      BroadcastShape(d, m, 0, false, level);
      if Buffering(d1.state) {
        StoreFollows(d1, m);
        FollowsTransitive(d, d1, Store(d1, m).0);
      } else {
        assert ReportOverflow(d1, level) == d1;
        if d1.hist.skipped == d.hist.skipped {
          BroadcastReaches(d, m, 0, false, level);
          NoClientIffZero(d1.conns);
        }
      }
    } else {
      StoreFollows(d, m);
    }
  }

  lemma {:induction false} BroadcastFollows(d: Daemon, m: Msg, i: nat, sent: bool, level: nat)
    requires level <= 1 && Shape(d)
    ensures Follows(d, Broadcast(d, m, i, sent, level).0)
    decreases NumClients(d.conns), 1 - level, 1, |d.conns| - i
  {
    if i < |d.conns| {
      var (d1, took) := Visit(d, m, i, level);
      VisitShape(d, m, i, level);
      VisitFollows(d, m, i, level);
      BroadcastFollows(d1, m, i + 1, sent || took, level);
      FollowsTransitive(d, d1, Broadcast(d1, m, i + 1, sent || took, level).0);
    }
  }

  /** And if nobody took the message so far, there is still no client among the entries passed. */
  lemma {:induction false} VisitFollows(d: Daemon, m: Msg, i: nat, level: nat)
    requires level <= 1 && Shape(d) && i < |d.conns|
    ensures var (r, took) := Visit(d, m, i, level);
            && Follows(d, r)
            && (r.hist.skipped == d.hist.skipped && NoClient(d.conns[..i]) && !took ==> NoClient(Passed(r.conns, i + 1)))
    decreases NumClients(d.conns), 1 - level, 0, 0
  {
    var (d1, ok) := Ask(d);
    assert d.conns[..i + 1] == d.conns[..i] + [d.conns[i]];
    if d.conns[i].Client? && !ok {
      var d2 := Gone(d1, i);
      NumClientsRemoveAt(d.conns, i);
      RemovalFollows(d, i);
      UnregisteredFollows(d2, level);
      FollowsTransitive(d, d2.(env := d.env), d2);
      FollowsTransitive(d, d2, Unregistered(d2, level));
      if d2.hist.skipped == d.hist.skipped {
        SkipsNoClient(d.conns, i, Unregistered(d2, level).conns);
      }
    }
  }

  lemma VisitReaches(d: Daemon, m: Msg, i: nat, level: nat)
    requires level <= 1 && Shape(d) && i < |d.conns|
    ensures var (r, took) := Visit(d, m, i, level);
            && d.hist.skipped <= r.hist.skipped
            && (r.hist.skipped == d.hist.skipped && NoClient(Passed(d.conns, i)) && !took ==> NoClient(Passed(r.conns, i + 1)))
    decreases NumClients(d.conns), 1 - level, 0, 1
  {
    VisitFollows(d, m, i, level);
  }

  /** If it skips no client, a broadcast that reached nobody leaves nobody connected. */
  lemma {:induction false} BroadcastReaches(d: Daemon, m: Msg, i: nat, sent: bool, level: nat)
    requires level <= 1 && Shape(d) && (sent || NoClient(Passed(d.conns, i)))
    requires Broadcast(d, m, i, sent, level).0.hist.skipped == d.hist.skipped
    ensures var (r, sent') := Broadcast(d, m, i, sent, level);
            sent' || NoClient(r.conns)
    decreases NumClients(d.conns), 1 - level, 1, |d.conns| - i
  {
    if i < |d.conns| {
      var (d1, took) := Visit(d, m, i, level);
      VisitShape(d, m, i, level);
      VisitReaches(d, m, i, level);
      BroadcastFollows(d1, m, i + 1, sent || took, level);
      BroadcastReaches(d1, m, i + 1, sent || took, level);
    } else {
      assert d.conns[..|d.conns|] == d.conns;
    }
  }

  /** The entry that slid into the place of a removed client is no client, and stays where it is. */
  lemma SkipsNoClient(c: seq<Conn>, i: nat, c': seq<Conn>)
    requires i < |c| && c[i].Client? && KeepsLeadingOthers(RemoveAt(c, i), c')
    requires !(i + 1 < |c| && c[i + 1].Client?)
    ensures NoClient(c[..i]) ==> NoClient(Passed(c', i + 1))
  {
    if NoClient(c[..i]) {
      var r := RemoveAt(c, i);
      if i + 1 < |c| {
        assert r[..i + 1] == c[..i] + [c[i + 1]];
        assert NoClient(r[..i + 1]);
      } else {
        assert r == c[..i] == r[..i];
      }
    }
  }

  lemma {:induction false} UnregisteredFollows(d: Daemon, level: nat)
    requires level <= 1 && !d.hist.tooDeep && d.state != Init && ShapeOfRing(d)
    ensures Follows(d, Unregistered(d, level))
    decreases NumClients(d.conns), 1 - level, 4, 0
  {
    var d1 := if NumClients(d.conns) == 0 then d.(state := Buffer) else d;
    var d2 := SendAll(d1, Disconnected, level).0;
    ToAllShape(d1, Disconnected, level);
    ToAllFollows(d1, Disconnected, level);
    ToAllFollows(d2, ClosedNote, level);
    FollowsTransitive(d1, d2, Unregistered(d, level));
  }
}
