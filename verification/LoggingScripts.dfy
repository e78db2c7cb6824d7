/**
 Every behaviour can be continued by any other: for each part of the logging state
 machine, whatever it did under some answers of the operating system it also does
 under answers that leave a given list of them for what comes next.
 */
module LoggingScripts {
  import opened LoggingSpec

  lemma AskScript(d: Daemon, rest: seq<bool>) returns (answers: seq<bool>)
    ensures var r := Ask(d); Ask(d.(env := answers)) == (r.0.(env := rest), r.1)
  {
    answers := [Ask(d).1] + rest;
  }

  lemma PushScript(d: Daemon, m: Msg, rest: seq<bool>) returns (answers: seq<bool>)
    ensures var r := RingPush(d, m); RingPush(d.(env := answers), m) == (r.0.(env := rest), r.1)
  {
    answers := rest;
    if |d.ring| >= 2 {
      answers := AskScript(d, rest);
    }
  }

  lemma StoreScript(d: Daemon, m: Msg, rest: seq<bool>) returns (answers: seq<bool>)
    ensures var r := Store(d, m); Store(d.(env := answers), m) == (r.0.(env := rest), r.1)
  {
    answers := rest;
    if d.state != BufferFull {
      answers := PushScript(d, m, rest);
    }
  }

  // ---------------------------------------------------------------- sends

  lemma {:induction false} SendAllScript(d: Daemon, m: Msg, level: nat, rest: seq<bool>) returns (answers: seq<bool>)
    requires level <= 1
    ensures var r := SendAll(d, m, level); SendAll(d.(env := answers), m, level) == (r.0.(env := rest), r.1)
    decreases NumClients(d.conns), 1 - level, 3, 0
  {
    var (d1, sent) := if d.state == SendDirect then Broadcast(d, m, 0, false, level) else (d, false);
    if Buffering(d1.state) {
      answers := StoreScript(d1, m, rest);
    } else {
      answers := ReportScript(d1, level, rest);
    }
    if d.state == SendDirect {
      answers := BroadcastScript(d, m, 0, false, level, answers);
    }
  }

  lemma {:induction false} ReportScript(d: Daemon, level: nat, rest: seq<bool>) returns (answers: seq<bool>)
    requires level <= 1
    ensures ReportOverflow(d.(env := answers), level) == ReportOverflow(d, level).(env := rest)
    decreases NumClients(d.conns), 1 - level, 2, 0
  {
    answers := rest;
    if d.overflow > 0 && NumClients(d.conns) > 0 && level == 0 {
      answers := SendAllScript(d, OverflowNotice(d.overflow), 1, rest);
    }
  }

  lemma {:induction false} BroadcastScript(d: Daemon, m: Msg, i: nat, sent: bool, level: nat, rest: seq<bool>)
    returns (answers: seq<bool>)
    requires level <= 1
    ensures var r := Broadcast(d, m, i, sent, level);
            Broadcast(d.(env := answers), m, i, sent, level) == (r.0.(env := rest), r.1)
    decreases NumClients(d.conns), 1 - level, 1, |d.conns| - i
  {
    answers := rest;
    if i < |d.conns| {
      var (d1, took) := Visit(d, m, i, level);
      answers := BroadcastScript(d1, m, i + 1, sent || took, level, rest);
      answers := VisitScript(d, m, i, level, answers);
    }
  }

  lemma {:induction false} VisitScript(d: Daemon, m: Msg, i: nat, level: nat, rest: seq<bool>) returns (answers: seq<bool>)
    requires level <= 1 && i < |d.conns|
    ensures var r := Visit(d, m, i, level); Visit(d.(env := answers), m, i, level) == (r.0.(env := rest), r.1)
    decreases NumClients(d.conns), 1 - level, 0, 1
  {
    answers := rest;
    if d.conns[i].Client? {
      if Ask(d).1 {
        answers := AskScript(d, rest);
      } else {
        answers := RefusedScript(d, m, i, level, rest);
      }
    }
  }

  lemma RefusedVisit(d: Daemon, m: Msg, i: nat, level: nat, gone: Daemon)
    requires level <= 1 && i < |d.conns| && d.conns[i].Client? && !Ask(d).1 && gone == Gone(Ask(d).0, i)
    ensures Visit(d, m, i, level) == (Unregistered(gone, level), false)
  {
  }

  lemma GoneScript(d: Daemon, i: nat, rest: seq<bool>) returns (answers: seq<bool>)
    requires i < |d.conns|
    ensures Ask(d.(env := answers)).1 == Ask(d).1 && Gone(Ask(d.(env := answers)).0, i) == Gone(Ask(d).0, i).(env := rest)
  {
    answers := AskScript(d, rest);
  }

  lemma {:induction false} RefusedScript(d: Daemon, m: Msg, i: nat, level: nat, rest: seq<bool>) returns (answers: seq<bool>)
    requires level <= 1 && i < |d.conns| && d.conns[i].Client? && !Ask(d).1
    ensures var r := Visit(d, m, i, level); Visit(d.(env := answers), m, i, level) == (r.0.(env := rest), r.1)
    decreases NumClients(d.conns), 1 - level, 0, 0
  {
    var gone := Gone(Ask(d).0, i);
    NumClientsRemoveAt(d.conns, i);
    var later := UnregisteredScript(gone, level, rest);
    answers := GoneScript(d, i, later);
    RefusedVisit(d, m, i, level, gone);
    RefusedVisit(d.(env := answers), m, i, level, gone.(env := later));
  }

  lemma {:induction false} UnregisteredScript(d: Daemon, level: nat, rest: seq<bool>) returns (answers: seq<bool>)
    requires level <= 1
    ensures Unregistered(d.(env := answers), level) == Unregistered(d, level).(env := rest)
    decreases NumClients(d.conns), 1 - level, 4, 0
  {
    var d1 := if NumClients(d.conns) == 0 then d.(state := Buffer) else d;
    answers := SendAllScript(SendAll(d1, Disconnected, level).0, ClosedNote, level, rest);
    answers := SendAllScript(d1, Disconnected, level, answers);
  }

  // ---------------------------------------------------------------- the drain

  lemma ForceScript(d: Daemon, m: Msg, rest: seq<bool>) returns (answers: seq<bool>)
    ensures var r := SendForce(d, m); SendForce(d.(env := answers), m) == (r.0.(env := rest), r.1)
  {
    var (d1, sent) := Broadcast(d, m, 0, false, 0);
    answers := rest;
    if sent {
      answers := ReportScript(d1, 0, rest);
    }
    answers := BroadcastScript(d, m, 0, false, 0, answers);
  }

  lemma {:induction false} DrainScript(d: Daemon, rest: seq<bool>) returns (answers: seq<bool>)
    ensures var r := Drain(d); Drain(d.(env := answers)) == (r.0.(env := rest), r.1)
    decreases NumClients(d.conns), if d.overflow > 0 then 1 else 0, |d.ring|
  {
    answers := rest;
    if d.ring != [] {
      var (d1, res, more) := DrainStep(d);
      if more {
        DrainStepCloser(d);
        answers := DrainScript(d1, rest);
      }
      answers := ForceScript(d, d.ring[0], answers);
    }
  }

  lemma RingScript(d: Daemon, rest: seq<bool>) returns (answers: seq<bool>)
    ensures var r := SendRing(d); SendRing(d.(env := answers)) == (r.0.(env := rest), r.1)
  {
    answers := DrainScript(d, rest);
  }

  // ---------------------------------------------------------------- events

  lemma SendIfScript(d: Daemon, condition: bool, m: Msg, rest: seq<bool>) returns (answers: seq<bool>)
    ensures SendIf(d.(env := answers), condition, m) == SendIf(d, condition, m).(env := rest)
  {
    answers := rest;
    if condition {
      answers := SendAllScript(d, m, 0, rest);
    }
  }

  lemma AnnouncedScript(d: Daemon, rest: seq<bool>) returns (answers: seq<bool>)
    ensures Announced(d.(env := answers)) == Announced(d).(env := rest)
  {
    var d1 := SendToAll(d, ConnectedNote);
    answers := rest;
    if NumClients(d1.conns) == 1 {
      answers := RingScript(d1.(state := SendBuffer), rest);
    }
    answers := SendAllScript(d, ConnectedNote, 0, answers);
  }

  lemma ConnectedScript(d: Daemon, version: bool, timezone: bool, rest: seq<bool>) returns (answers: seq<bool>)
    ensures Connected(d.(env := answers), version, timezone) == Connected(d, version, timezone).(env := rest)
  {
    var d1 := SendSpecific(d).0;
    var d2 := SendIf(d1, version, Version);
    answers := AnnouncedScript(SendIf(d2, version && timezone, Timezone), rest);
    answers := SendIfScript(d2, version && timezone, Timezone, answers);
    answers := SendIfScript(d1, version, Version, answers);
    answers := AskScript(d, answers);
  }

  lemma OneSecondScript(d: Daemon, timingPackets: bool, rest: seq<bool>) returns (answers: seq<bool>)
    ensures OneSecond(d.(env := answers), timingPackets) == OneSecond(d, timingPackets).(env := rest)
  {
    var drains := d.state == SendBuffer || d.state == BufferFull;
    var d1 := if drains then SendRing(d).0 else d;
    answers := SendIfScript(d1, timingPackets && d1.state == SendDirect, Time, rest);
    if drains {
      answers := RingScript(d, answers);
    }
  }

  /** What an event did under some answers it does under answers that leave `rest`. */
  lemma StepScript(d: Daemon, e: Event, rest: seq<bool>) returns (answers: seq<bool>)
    ensures Step(d.(env := answers), e) == Step(d, e).(env := rest)
  {
    var t := d.(conns := Table(d, e));
    match e
    case Send(id) => answers := SendAllScript(t, Payload(id), 0, rest);
    case SendOne => answers := AskScript(t, rest);
    case AppOverflow(n) => answers := SendAllScript(t, OverflowNotice(n), 0, rest);
    case Connect(_, v, z) => answers := ConnectedScript(t, v, z, rest);
    case Close(_) => answers := UnregisteredScript(t, 0, rest);
    case Timer(p) => answers := OneSecondScript(t, p, rest);
    case Register => answers := rest;
    case Unregister(_) => answers := rest;
  }
}
