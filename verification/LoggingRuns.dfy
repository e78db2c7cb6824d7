/**
 The theorems about whole runs of the logging state machine.
 */
module LoggingRuns {
  import opened LoggingSpec
  import opened LoggingInvariants

  /** The invariant of every reachable state. */
  ghost predicate Good(d: Daemon) {
    Shape(d) && Accounted(d) && Delivered(d, multiset{})
  }

  /** From a good state to a good state: the balance stays, and so does what Follows says. */
  ghost predicate Keeps(d: Daemon, r: Daemon) {
    Good(d) && Good(r) && Follows(d, r) && Balance(r) == Balance(d)
  }

  lemma KeepsTransitive(a: Daemon, b: Daemon, c: Daemon)
    requires Keeps(a, b) && Keeps(b, c)
    ensures Keeps(a, c)
  {
    FollowsTransitive(a, b, c);
  }

  lemma SpecificKeeps(d: Daemon)
    requires Good(d)
    ensures Keeps(d, d) && Keeps(d, SendSpecific(d).0)
  {
  }

  // ---------------------------------------------------------------- forced sends and the drain

  lemma StoreQueues(d: Daemon, m: Msg)
    requires Buffering(d.state)
    ensures var r := Store(d, m).0;
            Buffering(r.state) && r.conns == d.conns && d.ring <= r.ring && r.hist.wire == d.hist.wire && r.hist.lost == d.hist.lost
  {
  }

  lemma UnregisteredQueues(d: Daemon, level: nat)
    requires level <= 1 && Buffering(d.state)
    ensures var r := Unregistered(d, level);
            Buffering(r.state) && r.conns == d.conns && d.ring <= r.ring && r.hist.wire == d.hist.wire && r.hist.lost == d.hist.lost
  {
    var d1 := if NumClients(d.conns) == 0 then d.(state := Buffer) else d;
    StoreQueues(d1, Disconnected);
    StoreQueues(Store(d1, Disconnected).0, ClosedNote);
  }

  /** A client among the first `i` entries took the message as one of the sends behind the first `w`. */
  ghost predicate Served(d: Daemon, m: Msg, i: nat, w: nat) {
    exists k, j :: 0 <= k < i && k < |d.conns| && w <= j < |d.hist.wire| && d.conns[k].Client? && d.hist.wire[j] == (d.conns[k].id, m)
  }

  lemma ServedConnected(d: Daemon, m: Msg, i: nat, w: nat)
    requires Served(d, m, i, w)
    ensures Served(d, m, |d.conns|, w) && NumClients(d.conns) > 0
  {
    NoClientIffZero(d.conns);
  }

  /** While messages are queued, a broadcast that reached a client leaves such a client connected. */
  lemma {:induction false} QueuedBroadcast(d: Daemon, m: Msg, i: nat, sent: bool, level: nat, w: nat)
    requires level <= 1 && Buffering(d.state) && w <= |d.hist.wire|
    requires sent ==> Served(d, m, i, w)
    ensures var (r, sent') := Broadcast(d, m, i, sent, level);
            && Buffering(r.state) && d.ring <= r.ring && r.hist.lost == d.hist.lost
            && (sent' ==> Served(r, m, |r.conns|, w))
    decreases NumClients(d.conns), |d.conns| - i
  {
    if i >= |d.conns| {
      if sent {
        ServedConnected(d, m, i, w);
      }
    } else {
      var (d1, took) := Visit(d, m, i, level);
      VisitServes(d, m, i, sent, level, w);
      QueuedBroadcast(d1, m, i + 1, sent || took, level, w);
    }
  }

  lemma VisitServes(d: Daemon, m: Msg, i: nat, sent: bool, level: nat, w: nat)
    requires level <= 1 && Buffering(d.state) && i < |d.conns| && w <= |d.hist.wire| && (sent ==> Served(d, m, i, w))
    ensures var (r, took) := Visit(d, m, i, level);
            && Buffering(r.state) && d.ring <= r.ring && r.hist.lost == d.hist.lost && w <= |r.hist.wire|
            && (sent || took ==> Served(r, m, i + 1, w))
  {
    var (d1, took) := Visit(d, m, i, level);
    QueuedVisit(d, m, i, level);
    if sent || took {
      StillServed(d, d1, m, i, sent, took, w);
    }
  }

  lemma StillServed(d: Daemon, d1: Daemon, m: Msg, i: nat, sent: bool, took: bool, w: nat)
    requires i < |d.conns| && w <= |d.hist.wire| && (sent ==> Served(d, m, i, w)) && (sent || took)
    requires Passed(d1.conns, i) == Passed(d.conns, i) && d.hist.wire <= d1.hist.wire
    requires took ==> i < |d1.conns| && d1.conns[i].Client? && d1.hist.wire == d.hist.wire + [(d1.conns[i].id, m)]
    ensures Served(d1, m, i + 1, w)
  {
    if sent {
      var k, j :| 0 <= k < i && w <= j < |d.hist.wire| && d.conns[k].Client? && d.hist.wire[j] == (d.conns[k].id, m);
      assert Passed(d.conns, i)[k] == d.conns[k];
      assert k < |d1.conns| && d1.conns[k] == d.conns[k] by {
        assert Passed(d1.conns, i)[k] == d1.conns[k];
      }
      assert d1.hist.wire[j] == d.hist.wire[j];
    } else {
      assert d1.hist.wire[|d.hist.wire|] == (d1.conns[i].id, m);
    }
  }

  lemma QueuedVisit(d: Daemon, m: Msg, i: nat, level: nat)
    requires level <= 1 && Buffering(d.state) && i < |d.conns|
    ensures var (r, took) := Visit(d, m, i, level);
            && Buffering(r.state) && d.ring <= r.ring && Passed(r.conns, i) == Passed(d.conns, i)
            && d.hist.wire <= r.hist.wire && r.hist.lost == d.hist.lost
            && (took ==> i < |r.conns| && r.conns[i].Client? && r.hist.wire == d.hist.wire + [(r.conns[i].id, m)])
  {
    var (d1, ok) := Ask(d);
    if d.conns[i].Client? && !ok {
      UnregisteredQueues(Gone(d1, i), level);
    }
  }

  /** A forced send of the queued head keeps everything; when it reports success the head has
      reached a client that is still connected, and any count left over stands behind a second message. */
  lemma ForceKeeps(d: Daemon)
    requires Good(d) && Buffering(d.state) && d.ring != []
    ensures var (r, res) := SendForce(d, d.ring[0]);
            && Keeps(d, r) && d.ring <= r.ring && r.hist.lost == d.hist.lost
            && (res == Ok ==>
                  && NumClients(r.conns) > 0 && (r.overflow > 0 ==> |r.ring| >= 2)
                  && Delivered(r, multiset{d.ring[0]}) && Served(r, d.ring[0], |r.conns|, |d.hist.wire|))
  {
    var m := d.ring[0];
    var (b, sent) := Broadcast(d, m, 0, false, 0);
    QueuedBroadcastKeeps(d, m);
    if sent {
      ReportKeeps(b, m);
      KeepsTransitive(d, b, ReportOverflow(b, 0));
    }
  }

  lemma QueuedBroadcastKeeps(d: Daemon, m: Msg)
    requires Good(d) && Buffering(d.state)
    ensures var (b, sent) := Broadcast(d, m, 0, false, 0);
            && Keeps(d, b) && Buffering(b.state) && d.ring <= b.ring && b.hist.lost == d.hist.lost
            && (sent ==> NumClients(b.conns) > 0 && Delivered(b, multiset{m}) && Served(b, m, |b.conns|, |d.hist.wire|))
  {
    BroadcastShape(d, m, 0, false, 0);
    BroadcastFollows(d, m, 0, false, 0);
    QueuedBroadcast(d, m, 0, false, 0, |d.hist.wire|);
    var (b, sent) := Broadcast(d, m, 0, false, 0);
    if sent {
      ServedConnected(b, m, |b.conns|, |d.hist.wire|);
    }
    BroadcastBooks(d, m, 0, false, 0, multiset{});
  }

  lemma ReportQueues(b: Daemon)
    requires Buffering(b.state) && NumClients(b.conns) > 0 && b.overflow > 0
    ensures var (n, res) := Store(b, OverflowNotice(b.overflow));
            ReportOverflow(b, 0) == if res == Ok then n.(overflow := 0) else n
  {
  }

  lemma ReportBooks(b: Daemon, owed: multiset<Msg>)
    requires Buffering(b.state) && NumClients(b.conns) > 0 && b.overflow > 0 && Accounted(b) && Delivered(b, owed)
    ensures var r := ReportOverflow(b, 0); Accounted(r) && Delivered(r, owed)
  {
    ReportQueues(b);
    StoreBooks(b, OverflowNotice(b.overflow), owed);
  }

  lemma ReportShape(b: Daemon)
    requires Shape(b) && Buffering(b.state) && NumClients(b.conns) > 0 && b.overflow > 0
    ensures var r := ReportOverflow(b, 0); Shape(r) && Balance(r) == Balance(b)
  {
    ReportQueues(b);
    StoreShape(b, OverflowNotice(b.overflow));
  }

  lemma ReportFollows(b: Daemon)
    requires Buffering(b.state) && NumClients(b.conns) > 0 && b.overflow > 0
    ensures Follows(b, ReportOverflow(b, 0))
  {
    ReportQueues(b);
    StoreFollows(b, OverflowNotice(b.overflow));
  }

  lemma ReportKeeps(b: Daemon, m: Msg)
    requires Good(b) && Buffering(b.state) && b.ring != [] && NumClients(b.conns) > 0 && Delivered(b, multiset{m})
    ensures var r := ReportOverflow(b, 0);
            && Keeps(b, r) && b.ring <= r.ring
            && NumClients(r.conns) > 0 && (r.overflow > 0 ==> |r.ring| >= 2) && Delivered(r, multiset{m})
            && r.conns == b.conns && r.hist.wire == b.hist.wire && r.hist.lost == b.hist.lost
  {
    if b.overflow > 0 {
      ReportShape(b);
      ReportFollows(b);
      ReportBooks(b, multiset{});
      ReportBooks(b, multiset{m});
      ReportQueues(b);
      StoreQueues(b, OverflowNotice(b.overflow));
    }
  }

  lemma DequeueKeeps(d: Daemon)
    requires Good(d) && d.ring != [] && Delivered(d, multiset{d.ring[0]})
    requires NumClients(d.conns) > 0 && (d.overflow > 0 ==> |d.ring| >= 2)
    ensures var r := Dequeue(d).(state := SendBuffer);
            && Keeps(d, r)
            && (r.ring == [] ==> Keeps(d, r.(state := SendDirect)))
  {
    assert d.ring == [d.ring[0]] + d.ring[1..];
    assert multiset(d.ring) == multiset{d.ring[0]} + multiset(d.ring[1..]);
  }

  lemma DrainStepKeeps(d: Daemon)
    requires Good(d) && d.ring != [] && Buffering(d.state)
    ensures var (r, _, more) := DrainStep(d);
            Keeps(d, r) && r.hist.lost == d.hist.lost && (more ==> r.ring != [] && Buffering(r.state))
  {
    var (d1, res) := SendForce(d, d.ring[0]);
    ForceKeeps(d);
    if res == Ok {
      DequeueKeeps(d1);
      var d2 := Dequeue(d1).(state := SendBuffer);
      if d2.ring == [] {
        KeepsTransitive(d, d1, d2.(state := SendDirect));
      } else {
        KeepsTransitive(d, d1, d2);
      }
    }
  }

  /** The drain keeps the invariant, and no message gets lost in it. */
  lemma {:induction false} DrainKeeps(d: Daemon)
    requires Good(d) && (d.ring != [] ==> Buffering(d.state))
    ensures Keeps(d, Drain(d).0) && Drain(d).0.hist.lost == d.hist.lost
    decreases NumClients(d.conns), if d.overflow > 0 then 1 else 0, |d.ring|
  {
    SpecificKeeps(d);
    if d.ring != [] {
      var (r, _, more) := DrainStep(d);
      DrainStepKeeps(d);
      if more {
        DrainStepCloser(d);
        DrainKeeps(r);
        KeepsTransitive(d, r, Drain(r).0);
      }
    }
  }

  lemma SendRingKeeps(d: Daemon)
    requires Good(d) && (NumClients(d.conns) > 0 || d.ring != [])
    ensures var r := SendRing(d).0; Keeps(d, r) && r.hist.lost == d.hist.lost
  {
    DrainKeeps(d);
  }

  // ---------------------------------------------------------------- one event

  lemma SendKeeps(d: Daemon, m: Msg)
    requires Good(d) && Carried(m) == 0
    ensures var r := SendToAll(d, m); Keeps(d, r)
  {
    ToAllShape(d, m, 0);
    ToAllBooks(d, m, 0, multiset{});
    ToAllFollows(d, m, 0);
  }

  lemma NoticeKeeps(d: Daemon, count: nat)
    requires Good(d)
    ensures var (r, res) := SendAll(d, OverflowNotice(count), 0);
            && Good(r) && Follows(d, r) && (res == Ok || r.state == BufferFull)
            && Balance(r) == Balance(d) + (if res == Ok then count else 0)
  {
    ToAllShape(d, OverflowNotice(count), 0);
    ToAllBooks(d, OverflowNotice(count), 0, multiset{});
    ToAllFollows(d, OverflowNotice(count), 0);
  }

  lemma ReportedKeeps(d: Daemon, d1: Daemon, res: Result, count: nat)
    requires Good(d) && Good(d1) && Follows(d, d1) && (res == Ok || d1.state == BufferFull)
    requires Balance(d1) == Balance(d) + (if res == Ok then count else 0)
    ensures Keeps(d, Reported(d1, res, count))
  {
  }

  lemma ProcessOverflowKeeps(d: Daemon, count: nat)
    requires Good(d)
    ensures Keeps(d, ProcessOverflow(d, count))
  {
    var (d1, res) := SendAll(d, OverflowNotice(count), 0);
    NoticeKeeps(d, count);
    ReportedKeeps(d, d1, res, count);
  }

  lemma SendIfKeeps(d: Daemon, condition: bool, m: Msg)
    requires Good(d) && Carried(m) == 0
    ensures Keeps(d, SendIf(d, condition, m))
  {
    if condition {
      SendKeeps(d, m);
    }
  }

  lemma ConnectedKeeps(d: Daemon, version: bool, timezone: bool)
    requires Good(d)
    ensures Keeps(d, Connected(d, version, timezone))
  {
    var d1 := SendSpecific(d).0;
    SpecificKeeps(d);
    var d2 := SendIf(d1, version, Version);
    SendIfKeeps(d1, version, Version);
    var d3 := SendIf(d2, version && timezone, Timezone);
    SendIfKeeps(d2, version && timezone, Timezone);
    KeepsTransitive(d, d1, d2);
    KeepsTransitive(d, d2, d3);
    AnnouncedKeeps(d3);
    KeepsTransitive(d, d3, Announced(d3));
  }

  lemma AnnouncedKeeps(d: Daemon)
    requires Good(d)
    ensures Keeps(d, Announced(d))
  {
    var d1 := SendToAll(d, ConnectedNote);
    SendKeeps(d, ConnectedNote);
    if NumClients(d1.conns) == 1 {
      HandOverKeeps(d1);
      KeepsTransitive(d, d1, Announced(d));
    }
  }

  lemma HandOverKeeps(d: Daemon)
    requires Good(d) && NumClients(d.conns) == 1
    ensures Keeps(d, SendRing(d.(state := SendBuffer)).0)
  {
    var d1 := d.(state := SendBuffer);
    assert Good(d1);
    SendRingKeeps(d1);
    assert Follows(d, SendRing(d1).0);
  }

  lemma OneSecondKeeps(d: Daemon, timingPackets: bool)
    requires Good(d)
    ensures var r := OneSecond(d, timingPackets); Keeps(d, r)
  {
    var d1 := if d.state == SendBuffer || d.state == BufferFull then SendRing(d).0 else d;
    if d.state == SendBuffer || d.state == BufferFull {
      SendRingKeeps(d);
    }
    if timingPackets && d1.state == SendDirect {
      SendKeeps(d1, Time);
      KeepsTransitive(d, d1, SendToAll(d1, Time));
    }
  }

  lemma ClosedKeeps(t: Daemon)
    requires !t.hist.tooDeep && t.state != Init && ShapeOfRing(t) && Accounted(t) && Delivered(t, multiset{})
    ensures var r := Unregistered(t, 0); Good(r) && Balance(r) == Balance(t) && Follows(t, r)
  {
    UnregisteredShape(t, 0);
    UnregisteredBooks(t, 0, multiset{});
    UnregisteredFollows(t, 0);
  }

  lemma TableKeeps(d: Daemon, e: Event)
    requires Good(d) && !e.Close?
    ensures Good(d.(conns := Table(d, e)))
  {
    NumClientsAppend(d.conns, [Other]);
    if e.Connect? {
      NumClientsAppend(d.conns, [Client(e.client)]);
    } else if e.Unregister? && e.i < |d.conns| {
      NumClientsRemoveAt(d.conns, e.i);
    }
  }

  /** Every event keeps the invariant and the balance, and loses nothing on a table without neighbouring clients. */
  lemma StepKeeps(d: Daemon, e: Event)
    requires Good(d)
    ensures Good(Step(d, e)) && Balance(Step(d, e)) == Balance(d)
    ensures Follows(d.(conns := Table(d, e)), Step(d, e))
  {
    var t := d.(conns := Table(d, e));
    if e.Close? {
      ClosedKeeps(t);
    } else {
      TableKeeps(d, e);
      assert Keeps(t, Step(d, e)) by {
        match e
        case Send(id) => SendKeeps(t, Payload(id));
        case AppOverflow(n) => ProcessOverflowKeeps(t, n);
        case Connect(_, v, z) => ConnectedKeeps(t, v, z);
        case Timer(p) => OneSecondKeeps(t, p);
        case SendOne => SpecificKeeps(t);
        case Register => SpecificKeeps(t);
        case Unregister(_) => SpecificKeeps(t);
      }
    }
  }

  // ---------------------------------------------------------------- whole runs

  lemma {:induction false} RunKeeps(d: Daemon, events: seq<Event>)
    requires Good(d)
    ensures Good(Run(d, events)) && Balance(Run(d, events)) == Balance(d)
    decreases |events|
  {
    if events != [] {
      StepKeeps(d, events[0]);
      RunKeeps(Step(d, events[0]), events[1..]);
    }
  }

  lemma StartedIsGood(table: seq<Conn>, env: seq<bool>)
    ensures Good(Started(table, env)) && Balance(Started(table, env)) == 0
  {
  }

  /** The state invariants hold in every reachable state, and no overflow notice is ever sent from within another. */
  lemma ReachableShape(table: seq<Conn>, env: seq<bool>, events: seq<Event>)
    ensures var d := Run(Started(table, env), events);
            && !d.hist.tooDeep && d.state != Init
            && (NumClients(d.conns) == 0 ==> d.state == Buffer || d.state == BufferFull)
            && (d.state == SendDirect ==> d.ring == [] && d.overflow == 0)
            && (d.state == BufferFull ==> |d.ring| >= 2)
            && (d.overflow > 0 ==> d.ring != [])
  {
    StartedIsGood(table, env);
    RunKeeps(Started(table, env), events);
  }

  /** Discarded calls plus reported losses are what is still counted plus what the accepted notices carry. */
  lemma OverflowConserved(table: seq<Conn>, env: seq<bool>, events: seq<Event>)
    ensures var d := Run(Started(table, env), events);
            d.hist.rejected + d.hist.reported == d.overflow + NoticeSum(d.hist.accepted)
  {
    StartedIsGood(table, env);
    RunKeeps(Started(table, env), events);
  }

  /** On every run, an accepted message was sent to a client, is queued, or is lost, each exactly once. */
  lemma EveryMessageAccounted(table: seq<Conn>, env: seq<bool>, events: seq<Event>)
    ensures var d := Run(Started(table, env), events);
            && multiset(d.hist.accepted) == multiset(d.hist.released) + multiset(d.ring) + multiset(d.hist.lost)
            && multiset(d.hist.released) <= multiset(WireMsgs(d.hist.wire))
  {
    StartedIsGood(table, env);
    RunKeeps(Started(table, env), events);
  }

  /** A run that skips no client loses no message, whatever the table and the answers, and what is lost stays lost. */
  lemma {:induction false} RunFollows(d: Daemon, events: seq<Event>)
    requires Good(d)
    ensures var r := Run(d, events);
            && d.hist.skipped <= r.hist.skipped
            && |d.hist.lost| <= |r.hist.lost|
            && (r.hist.skipped == d.hist.skipped ==> r.hist.lost == d.hist.lost)
            && (Willing(d.env) ==> r.hist.skipped == d.hist.skipped)
    decreases |events|
  {
    if events != [] {
      StepKeeps(d, events[0]);
      RunFollows(Step(d, events[0]), events[1..]);
    }
  }

  /** Every message answered Ok was sent to a client or is still queued, on every run in which no client
      closed by a broadcast had another client right behind it in the poll table. */
  lemma NoLoss(table: seq<Conn>, env: seq<bool>, events: seq<Event>)
    requires Run(Started(table, env), events).hist.skipped == 0
    ensures var d := Run(Started(table, env), events);
            && multiset(d.hist.accepted) == multiset(d.hist.released) + multiset(d.ring)
            && multiset(d.hist.released) <= multiset(WireMsgs(d.hist.wire))
  {
    StartedIsGood(table, env);
    RunFollows(Started(table, env), events);
    EveryMessageAccounted(table, env, events);
  }

  /** A run in which nothing is refused skips no client. */
  lemma NothingRefused(table: seq<Conn>, env: seq<bool>, events: seq<Event>)
    requires Willing(env)
    ensures Run(Started(table, env), events).hist.skipped == 0
  {
    StartedIsGood(table, env);
    RunFollows(Started(table, env), events);
  }

  /** No event of the run works on a poll table with two neighbouring clients. */
  ghost predicate ClientsApart(d: Daemon, events: seq<Event>)
    decreases |events|
  {
    events == [] ||
    (NoAdjacentClients(Table(d, events[0])) && ClientsApart(Step(d, events[0]), events[1..]))
  }

  /** Such a run skips no client either. */
  lemma {:induction false} ApartSkipsNone(d: Daemon, events: seq<Event>)
    requires Good(d) && ClientsApart(d, events)
    ensures Run(d, events).hist.skipped == d.hist.skipped
    decreases |events|
  {
    if events != [] {
      StepKeeps(d, events[0]);
      ApartSkipsNone(Step(d, events[0]), events[1..]);
    }
  }

  lemma NoLossApart(table: seq<Conn>, env: seq<bool>, events: seq<Event>)
    requires ClientsApart(Started(table, env), events)
    ensures var d := Run(Started(table, env), events);
            && d.hist.lost == []
            && multiset(d.hist.accepted) == multiset(d.hist.released) + multiset(d.ring)
  {
    StartedIsGood(table, env);
    ApartSkipsNone(Started(table, env), events);
    RunFollows(Started(table, env), events);
    NoLoss(table, env, events);
  }
}
