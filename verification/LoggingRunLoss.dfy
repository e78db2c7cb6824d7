/**
 When a run can lose a message: exactly when some event of it that sends to all
 clients in the direct state meets two neighbouring clients in the poll table.
 */
module LoggingRunLoss {
  import opened LoggingSpec
  import opened LoggingInvariants
  import opened LoggingRuns
  import opened LoggingLoss
  import opened LoggingScripts

  /** The event sends to all clients, in the direct state or after a drain that ends in it, and two clients are neighbours. */
  ghost predicate CanLose(d: Daemon, e: Event) {
    && !NoAdjacentClients(Table(d, e))
    && match e
       case Send(_) => d.state == SendDirect
       case AppOverflow(_) => d.state == SendDirect
       case Connect(_, _, _) => d.state == SendDirect
       case Close(_) => d.state == SendDirect
       case Timer(timingPackets) => timingPackets && d.state != Buffer
       case _ => false
  }

  /** Some event of the run is such an event. */
  ghost predicate MeetsLoss(d: Daemon, events: seq<Event>)
    decreases |events|
  {
    events != [] && (CanLose(d, events[0]) || MeetsLoss(Step(d, events[0]), events[1..]))
  }

  lemma TwoClients(c: seq<Conn>)
    requires !NoAdjacentClients(c)
    ensures NumClients(c) >= 2
  {
    var k :| 0 <= k < |c| - 1 && c[k].Client? && c[k + 1].Client?;
    var c' := RemoveAt(c, k);
    NumClientsRemoveAt(c, k);
    assert c'[k].Client?;
    NoClientIffZero(c');
  }

  lemma TableGood(d: Daemon, e: Event)
    requires Good(d) && !NoAdjacentClients(Table(d, e))
    ensures Good(d.(conns := Table(d, e))) && NumClients(Table(d, e)) >= 2
  {
    TwoClients(Table(d, e));
  }

  // ---------------------------------------------------------------- other events lose nothing

  lemma QueuedSend(d: Daemon, m: Msg)
    requires Buffering(d.state)
    ensures var r := SendAll(d, m, 0).0; Buffering(r.state) && r.conns == d.conns && r.hist.lost == d.hist.lost
  {
    StoreQueues(d, m);
  }

  lemma QueuedConnect(d: Daemon, version: bool, timezone: bool)
    requires Buffering(d.state) && NumClients(d.conns) >= 2
    ensures Connected(d, version, timezone).hist.lost == d.hist.lost
  {
    var d1 := SendSpecific(d).0;
    QueuedSend(d1, Version);
    var d2 := SendIf(d1, version, Version);
    QueuedSend(d2, Timezone);
    QueuedSend(SendIf(d2, version && timezone, Timezone), ConnectedNote);
  }

  lemma QuietSecond(d: Daemon, timingPackets: bool)
    requires Good(d) && NumClients(d.conns) >= 2 && (!timingPackets || d.state == Buffer)
    ensures OneSecond(d, timingPackets).hist.lost == d.hist.lost
  {
    if d.state == SendBuffer || d.state == BufferFull {
      SendRingKeeps(d);
    }
  }

  lemma StepSafe(d: Daemon, e: Event)
    requires Good(d) && !CanLose(d, e)
    ensures Step(d, e).hist.lost == d.hist.lost
  {
    var t := d.(conns := Table(d, e));
    StepKeeps(d, e);
    if !NoAdjacentClients(t.conns) {
      TableGood(d, e);
      match e
      case Send(id) => QueuedSend(t, Payload(id));
      case AppOverflow(n) => QueuedSend(t, OverflowNotice(n));
      case Connect(_, v, z) => QueuedConnect(t, v, z);
      case Close(_) => UnregisteredQueues(t, 0);
      case Timer(p) => QuietSecond(t, p);
      case _ =>
    }
  }

  // ---------------------------------------------------------------- a drain that nobody refuses

  lemma {:induction false} Exhausted(d: Daemon, m: Msg, i: nat, sent: bool)
    requires d.env == [] && i <= |d.conns|
    ensures var (r, sent') := Broadcast(d, m, i, sent, 0);
            r == d.(hist := d.hist.(wire := r.hist.wire)) && sent' == (sent || NumClients(d.conns[i..]) > 0)
    decreases |d.conns| - i
  {
    if i < |d.conns| {
      assert d.conns[i..][1..] == d.conns[i + 1..];
      var (d1, took) := Visit(d, m, i, 0);
      assert took <==> d.conns[i].Client?;
      Exhausted(d1, m, i + 1, sent || took);
    }
  }

  lemma ReportExhausted(d: Daemon)
    requires d.env == [] && Buffering(d.state) && NumClients(d.conns) > 0
    ensures var r := ReportOverflow(d, 0); r.env == [] && r.conns == d.conns
  {
    if d.overflow > 0 {
      ReportQueues(d);
      StoreQueues(d, OverflowNotice(d.overflow));
    }
  }

  lemma DrainStepExhausted(d: Daemon)
    requires d.env == [] && Buffering(d.state) && NumClients(d.conns) > 0 && d.ring != []
    ensures var (r, _, more) := DrainStep(d); r.env == [] && r.conns == d.conns && (more || r.state == SendDirect)
  {
    var b := Broadcast(d, d.ring[0], 0, false, 0).0;
    assert d.conns[0..] == d.conns;
    Exhausted(d, d.ring[0], 0, false);
    ReportExhausted(b);
  }

  lemma {:induction false} DrainExhausted(d: Daemon)
    requires Good(d) && d.env == [] && Buffering(d.state) && NumClients(d.conns) > 0 && d.ring != []
    ensures Drain(d).0.state == SendDirect && Drain(d).0.conns == d.conns
    decreases NumClients(d.conns), if d.overflow > 0 then 1 else 0, |d.ring|
  {
    var (d1, _, more) := DrainStep(d);
    DrainStepKeeps(d);
    DrainStepExhausted(d);
    if more {
      DrainStepCloser(d);
      DrainExhausted(d1);
    }
  }

  // ---------------------------------------------------------------- answers under which the event loses a message

  lemma ClosedLoses(t: Daemon) returns (answers: seq<bool>)
    requires Good(t) && t.state == SendDirect && !NoAdjacentClients(t.conns)
    ensures |Unregistered(t.(env := answers), 0).hist.lost| > |t.hist.lost|
  {
    TwoClients(t.conns);
    answers := NeighboursCanLose(t, Disconnected);
    var t1 := t.(env := answers);
    ToAllShape(t1, Disconnected, 0);
    ToAllFollows(SendAll(t1, Disconnected, 0).0, ClosedNote, 0);
  }

  lemma ConnectedLoses(t: Daemon, version: bool, timezone: bool) returns (answers: seq<bool>)
    requires Good(t) && t.state == SendDirect && !NoAdjacentClients(t.conns)
    ensures |Connected(t.(env := answers), version, timezone).hist.lost| > |t.hist.lost|
  {
    answers := NeighboursCanLose(t, if version then Version else ConnectedNote);
    var d1 := t.(env := answers);
    answers := AskScript(t, answers);
    assert SendSpecific(t.(env := answers)).0 == d1;
    var d2 := SendIf(d1, version, Version);
    SendIfKeeps(d1, version, Version);
    var d3 := SendIf(d2, version && timezone, Timezone);
    SendIfKeeps(d2, version && timezone, Timezone);
    AnnouncedOnlyAdds(d3);
  }

  lemma AnnouncedOnlyAdds(d: Daemon)
    requires Good(d)
    ensures |SendToAll(d, ConnectedNote).hist.lost| <= |Announced(d).hist.lost|
    ensures |d.hist.lost| <= |Announced(d).hist.lost|
  {
    var d1 := SendToAll(d, ConnectedNote);
    SendKeeps(d, ConnectedNote);
    if NumClients(d1.conns) == 1 {
      HandOverKeeps(d1);
    }
  }

  lemma SecondLoses(t: Daemon) returns (answers: seq<bool>)
    requires Good(t) && t.state != Buffer && !NoAdjacentClients(t.conns)
    ensures |OneSecond(t.(env := answers), true).hist.lost| > |t.hist.lost|
  {
    if t.state == SendDirect {
      answers := NeighboursCanLose(t, Time);
    } else {
      TwoClients(t.conns);
      var t1 := t.(env := []);
      var drained := SendRing(t1).0;
      SendRingKeeps(t1);
      if t1.ring != [] {
        DrainExhausted(t1);
      }
      answers := NeighboursCanLose(drained, Time);
      answers := RingScript(t1, answers);
      assert t.(env := answers) == t1.(env := answers);
    }
  }

  lemma EventLoses(d: Daemon, e: Event) returns (answers: seq<bool>)
    requires Good(d) && CanLose(d, e)
    ensures |Step(d.(env := answers), e).hist.lost| > |d.hist.lost|
  {
    var t := d.(conns := Table(d, e));
    TableGood(d, e);
    match e
    case Send(id) => answers := NeighboursCanLose(t, Payload(id));
    case AppOverflow(n) => answers := NeighboursCanLose(t, OverflowNotice(n));
    case Connect(_, v, z) => answers := ConnectedLoses(t, v, z);
    case Close(_) => answers := ClosedLoses(t);
    case Timer(_) => answers := SecondLoses(t);
  }

  // ---------------------------------------------------------------- whole runs

  /** A run that meets no such event loses nothing, whatever it was answered. */
  lemma {:induction false} RunSafe(d: Daemon, events: seq<Event>)
    requires Good(d) && !MeetsLoss(d, events)
    ensures Run(d, events).hist.lost == d.hist.lost
    decreases |events|
  {
    if events != [] {
      StepSafe(d, events[0]);
      StepKeeps(d, events[0]);
      RunSafe(Step(d, events[0]), events[1..]);
    }
  }

  /** A run that meets one loses a message if the answers are different from there on. */
  lemma {:induction false} RunLoses(d: Daemon, events: seq<Event>) returns (answers: seq<bool>)
    requires Good(d) && MeetsLoss(d, events)
    ensures |Run(d.(env := answers), events).hist.lost| > |d.hist.lost|
    decreases |events|
  {
    if CanLose(d, events[0]) {
      answers := EventLoses(d, events[0]);
      StepKeeps(d.(env := answers), events[0]);
      RunFollows(Step(d.(env := answers), events[0]), events[1..]);
    } else {
      StepSafe(d, events[0]);
      StepKeeps(d, events[0]);
      answers := RunLoses(Step(d, events[0]), events[1..]);
      answers := StepScript(d, events[0], answers);
    }
  }

  /** Some answers of the operating system make the daemon lose a message in a run if and only if some answers
      make it meet, on the way, two neighbouring clients where it sends to all of them directly. */
  lemma RunLossIff(table: seq<Conn>, events: seq<Event>)
    ensures (exists env: seq<bool> :: Run(Started(table, env), events).hist.lost != [])
            <==> (exists env: seq<bool> :: MeetsLoss(Started(table, env), events))
  {
    if env: seq<bool> :| MeetsLoss(Started(table, env), events) {
      StartedIsGood(table, env);
      var env' := RunLoses(Started(table, env), events);
      assert Started(table, env).(env := env') == Started(table, env');
      assert Run(Started(table, env'), events).hist.lost != [];
    } else {
      forall env: seq<bool>
        ensures Run(Started(table, env), events).hist.lost == []
      {
        StartedIsGood(table, env);
        RunSafe(Started(table, env), events);
      }
    }
  }
}
