/**
 With at most one client connected at a time, the daemon is a FIFO: what has gone
 over the wire, followed by what is queued, is what was accepted, in order and
 exactly once each.
 */
module LoggingSingleClient {
  import opened LoggingSpec
  import opened LoggingInvariants
  import opened LoggingRuns

  /** Up to `behind`, which is on the wire but still at the head of the queue. */
  ghost predicate InOrder(d: Daemon, behind: seq<Msg>) {
    d.hist.released + d.ring == d.hist.accepted && WireMsgs(d.hist.wire) == d.hist.released + behind && d.hist.lost == []
  }

  lemma WireOneMore(w: seq<(nat, Msg)>, x: (nat, Msg))
    ensures WireMsgs(w + [x]) == WireMsgs(w) + [x.1]
  {
  }

  lemma StoreInOrder(d: Daemon, m: Msg, behind: seq<Msg>)
    requires InOrder(d, behind)
    ensures InOrder(Store(d, m).0, behind)
  {
    assert d.hist.released + (d.ring + [m]) == d.hist.released + d.ring + [m];
  }

  lemma TookInOrder(d: Daemon, id: nat, m: Msg)
    requires InOrder(d, [])
    ensures InOrder(Took(d, id, m), [m])
  {
    WireOneMore(d.hist.wire, (id, m));
  }

  /** Behind the last client the loop does nothing. */
  lemma {:induction false} NobodyLeft(d: Daemon, m: Msg, i: nat, sent: bool, level: nat)
    requires level <= 1 && (i <= |d.conns| ==> NumClients(d.conns[i..]) == 0)
    ensures Broadcast(d, m, i, sent, level) == (d, sent)
    decreases |d.conns| - i
  {
    if i < |d.conns| {
      assert d.conns[i..][1..] == d.conns[i + 1..];
      NobodyLeft(d, m, i + 1, sent, level);
    }
  }

  /** The only client takes the message, or is closed and the two messages about it are queued. */
  lemma {:induction false} SoloBroadcast(d: Daemon, m: Msg, i: nat, level: nat)
    requires level <= 1 && Shape(d) && NumClients(d.conns) <= 1 && InOrder(d, [])
    requires i <= |d.conns| && NumClients(d.conns[i..]) == NumClients(d.conns)
    ensures SoloOutcome(d, m, Broadcast(d, m, i, false, level))
    decreases |d.conns| - i
  {
    if i < |d.conns| {
      assert d.conns[i..][1..] == d.conns[i + 1..];
      if d.conns[i].Client? {
        SoloVisit(d, m, i, level);
        var (d1, took) := Visit(d, m, i, level);
        NobodyLeft(d1, m, i + 1, took, level);
      } else {
        SoloBroadcast(d, m, i + 1, level);
      }
    }
  }

  ghost predicate SoloOutcome(d: Daemon, m: Msg, outcome: (Daemon, bool)) {
    match outcome
    case (r, sent) =>
      if sent then InOrder(r, [m]) && r == d.(env := r.env, hist := d.hist.(wire := r.hist.wire))
      else InOrder(r, []) && NumClients(r.conns) == 0
  }

  lemma SoloVisit(d: Daemon, m: Msg, i: nat, level: nat)
    requires level <= 1 && Shape(d) && NumClients(d.conns) <= 1 && InOrder(d, [])
    requires i < |d.conns| && d.conns[i].Client? && NumClients(d.conns[i..]) == NumClients(d.conns)
    ensures var (r, took) := Visit(d, m, i, level);
            SoloOutcome(d, m, (r, took)) && (i + 1 <= |r.conns| ==> NumClients(r.conns[i + 1..]) == 0)
  {
    assert d.conns[i..][1..] == d.conns[i + 1..];
    var (d1, ok) := Ask(d);
    if ok {
      TookInOrder(d1, d.conns[i].id, m);
    } else {
      NumClientsRemoveAt(d.conns, i);
      var d2 := d1.(conns := RemoveAt(d.conns, i));
      LastGone(d2, level);
      NoneBehind(d2.conns, i + 1);
    }
  }

  lemma NoneBehind(c: seq<Conn>, i: nat)
    requires NumClients(c) == 0
    ensures i <= |c| ==> NumClients(c[i..]) == 0
  {
    if i <= |c| {
      NumClientsAppend(c[..i], c[i..]);
      assert c == c[..i] + c[i..];
    }
  }

  lemma LastGone(d: Daemon, level: nat)
    requires level <= 1 && NumClients(d.conns) == 0 && InOrder(d, [])
    ensures var r := Unregistered(d, level); InOrder(r, []) && r.conns == d.conns
  {
    var d1 := d.(state := Buffer);
    StoreQueues(d1, Disconnected);
    StoreInOrder(d1, Disconnected, []);
    StoreInOrder(Store(d1, Disconnected).0, ClosedNote, []);
  }

  lemma SoloToAll(d: Daemon, m: Msg, level: nat)
    requires level <= 1 && Shape(d) && NumClients(d.conns) <= 1 && InOrder(d, [])
    ensures InOrder(SendAll(d, m, level).0, [])
  {
    if d.state == SendDirect {
      var (b, sent) := Broadcast(d, m, 0, false, level);
      assert d.conns[0..] == d.conns;
      SoloBroadcast(d, m, 0, level);
      BroadcastShape(d, m, 0, false, level);
      if sent {
        assert ReportOverflow(b, level) == b;
      } else {
        StoreInOrder(b, m, []);
      }
    } else {
      StoreInOrder(d, m, []);
    }
  }

  // ---------------------------------------------------------------- the drain

  ghost predicate Solo(d: Daemon) {
    Shape(d) && NumClients(d.conns) <= 1 && InOrder(d, [])
  }

  lemma SoloIsGood(d: Daemon)
    requires Shape(d) && InOrder(d, [])
    ensures Good(d)
  {
    assert WireMsgs(d.hist.wire) == d.hist.released;
  }

  lemma SoloForce(d: Daemon)
    requires Solo(d) && Buffering(d.state) && d.ring != []
    ensures var (r, res) := SendForce(d, d.ring[0]);
            InOrder(r, if res == Ok then [d.ring[0]] else [])
  {
    var m := d.ring[0];
    var (b, sent) := Broadcast(d, m, 0, false, 0);
    assert d.conns[0..] == d.conns;
    SoloBroadcast(d, m, 0, 0);
    if sent && b.overflow > 0 && NumClients(b.conns) > 0 {
      ReportQueues(b);
      StoreInOrder(b, OverflowNotice(b.overflow), [m]);
    }
  }

  lemma DequeueInOrder(d: Daemon)
    requires d.ring != [] && InOrder(d, [d.ring[0]])
    ensures InOrder(Dequeue(d), [])
  {
    var h := d.hist;
    assert h.released + d.ring == (h.released + [d.ring[0]]) + d.ring[1..];
    assert (h.released + [d.ring[0]]) + [] == h.released + [d.ring[0]];
  }

  lemma SoloDrainStep(d: Daemon)
    requires Solo(d) && Buffering(d.state) && d.ring != []
    ensures InOrder(DrainStep(d).0, [])
  {
    var (d1, res) := SendForce(d, d.ring[0]);
    SoloForce(d);
    if res == Ok {
      SoloIsGood(d);
      ForceKeeps(d);
      DequeueInOrder(d1);
      assert InOrder(Dequeue(d1).(state := SendBuffer), []) && InOrder(Dequeue(d1).(state := SendDirect), []);
    }
  }

  lemma {:induction false} SoloDrain(d: Daemon)
    requires Solo(d) && (d.ring != [] ==> Buffering(d.state))
    ensures InOrder(Drain(d).0, [])
    decreases NumClients(d.conns), if d.overflow > 0 then 1 else 0, |d.ring|
  {
    if d.ring != [] {
      var (r, _, more) := DrainStep(d);
      SoloDrainStep(d);
      if more {
        SoloIsGood(d);
        DrainStepKeeps(d);
        DrainStepCloser(d);
        SoloDrain(r);
      }
    }
  }

  lemma SoloSendRing(d: Daemon)
    requires Solo(d) && (NumClients(d.conns) > 0 || d.ring != [])
    ensures Solo(SendRing(d).0)
  {
    SoloDrain(d);
    SoloIsGood(d);
    SendRingKeeps(d);
  }

  // ---------------------------------------------------------------- events and runs

  lemma SoloSend(d: Daemon, m: Msg)
    requires Solo(d)
    ensures Solo(SendToAll(d, m))
  {
    SoloToAll(d, m, 0);
    ToAllShape(d, m, 0);
  }

  lemma SoloAnnounced(d: Daemon)
    requires Solo(d)
    ensures Solo(Announced(d))
  {
    var d1 := SendToAll(d, ConnectedNote);
    SoloSend(d, ConnectedNote);
    if NumClients(d1.conns) == 1 {
      SoloSendRing(d1.(state := SendBuffer));
    }
  }

  lemma SoloConnected(d: Daemon, version: bool, timezone: bool)
    requires Solo(d)
    ensures Solo(Connected(d, version, timezone))
  {
    var d1 := SendSpecific(d).0;
    var d2 := SendIf(d1, version, Version);
    var d3 := SendIf(d2, version && timezone, Timezone);
    assert Solo(d1);
    SoloSend(d1, Version);
    SoloSend(d2, Timezone);
    SoloAnnounced(d3);
  }

  lemma SoloClosed(t: Daemon)
    requires !t.hist.tooDeep && t.state != Init && ShapeOfRing(t) && NumClients(t.conns) <= 1 && InOrder(t, [])
    ensures Solo(Unregistered(t, 0))
  {
    var d1 := if NumClients(t.conns) == 0 then t.(state := Buffer) else t;
    UnregisteredShape(t, 0);
    SoloSend(d1, Disconnected);
    SoloSend(SendToAll(d1, Disconnected), ClosedNote);
  }

  lemma SoloOneSecond(d: Daemon, timingPackets: bool)
    requires Solo(d)
    ensures Solo(OneSecond(d, timingPackets))
  {
    var d1 := if d.state == SendBuffer || d.state == BufferFull then SendRing(d).0 else d;
    if d.state == SendBuffer || d.state == BufferFull {
      SoloSendRing(d);
    }
    SoloSend(d1, Time);
  }

  lemma SoloStep(d: Daemon, e: Event)
    requires Solo(d) && NumClients(Table(d, e)) <= 1
    ensures Solo(Step(d, e))
  {
    var t := d.(conns := Table(d, e));
    if e.Close? {
      SoloClosed(t);
    } else {
      SoloIsGood(d);
      TableKeeps(d, e);
      assert Solo(t);
      match e
      case Send(id) => SoloSend(t, Payload(id));
      case AppOverflow(n) =>
        SoloSend(t, OverflowNotice(n));
        SoloIsGood(t);
        ProcessOverflowKeeps(t, n);
      case Connect(_, v, z) => SoloConnected(t, v, z);
      case Timer(p) => SoloOneSecond(t, p);
      case _ =>
    }
  }

  /** At no event of the run is more than one client connected. */
  ghost predicate OneClientAtATime(d: Daemon, events: seq<Event>)
    decreases |events|
  {
    events == [] || (NumClients(Table(d, events[0])) <= 1 && OneClientAtATime(Step(d, events[0]), events[1..]))
  }

  lemma {:induction false} SoloRun(d: Daemon, events: seq<Event>)
    requires Solo(d) && OneClientAtATime(d, events)
    ensures Solo(Run(d, events))
    decreases |events|
  {
    if events != [] {
      SoloStep(d, events[0]);
      SoloRun(Step(d, events[0]), events[1..]);
    }
  }

  /** Delivered messages followed by the queued ones are the accepted ones, in completion order, once each. */
  lemma FifoDelivery(table: seq<Conn>, env: seq<bool>, events: seq<Event>)
    requires NumClients(table) <= 1 && OneClientAtATime(Started(table, env), events)
    ensures var d := Run(Started(table, env), events);
            WireMsgs(d.hist.wire) + d.ring == d.hist.accepted
  {
    var s := Started(table, env);
    assert WireMsgs(s.hist.wire) == [];
    SoloRun(s, events);
    InOrderMeans(Run(s, events));
  }

  lemma InOrderMeans(d: Daemon)
    requires InOrder(d, [])
    ensures WireMsgs(d.hist.wire) + d.ring == d.hist.accepted
  {
    assert d.hist.released + [] == d.hist.released;
  }
}
