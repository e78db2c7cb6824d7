/**
 The daemon's logging code as it runs: fields updated in place, the loop over the
 poll table, the drain loop, and the calls that lead back into each other. Every
 method is proved to do what LoggingSpec says. The nesting of overflow notices is
 not guarded in the code; that the recursion ends is proved from the invariants.
 */
module LoggingDaemon {
  import opened LoggingSpec
  import opened LoggingInvariants
  import opened LoggingRuns

  class DltDaemon {
    var state: State
    var ring: seq<Msg>
    var overflowCounter: nat
    var pollTable: seq<Conn>
    var clientConnections: nat
    var env: seq<bool>
    ghost var hist: History

    ghost function Model(): Daemon
      reads this
    {
      Daemon(state, ring, overflowCounter, pollTable, env, hist)
    }

    ghost predicate Counted()
      reads this
    {
      clientConnections == NumClients(pollTable)
    }

    ghost predicate Valid()
      reads this
    {
      Counted() && Shape(Model())
    }

    constructor (table: seq<Conn>, clients: nat, env: seq<bool>)
      requires clients == NumClients(table)
      ensures Valid() && Good(Model()) && Model() == Started(table, env)
    {
      state, ring, overflowCounter := Buffer, [], 0;
      pollTable, clientConnections, this.env := table, clients, env;
      hist := History([], [], [], [], 0, 0, false, 0);
      new;
      StartedIsGood(table, env);
    }

    /** What the operating system answers next. */
    method Answer() returns (ok: bool)
      modifies this`env
      ensures (Model(), ok) == Ask(old(Model()))
    {
      ok := true;
      if env != [] {
        ok := env[0];
        env := env[1..];
      }
    }

    method RingPush(m: Msg) returns (ok: bool)
      modifies this`env, this`ring
      ensures (Model(), ok) == LoggingSpec.RingPush(old(Model()), m)
    {
      ok := true;
      if |ring| >= 2 {
        ok := Answer();
      }
      if ok {
        ring := ring + [m];
      }
    }

    /** dlt_daemon_client_send. `level` counts the overflow notices being sent further up the stack. */
    method ClientSend(target: Target, m: Msg, ghost level: nat) returns (res: Result)
      requires level <= 1 && Valid() && (target == Force ==> level == 0 && Buffering(state))
      modifies this
      ensures Valid() && (Model(), res) == LoggingSpec.ClientSend(old(Model()), target, m, level)
      decreases NumClients(pollTable), 1 - level, 3, 0
    {
      if target == Specific {
        var ok := Answer();
        return if ok then Ok else ErrSendFailed;
      }

      var sent := false;
      if target == Force || state == SendDirect {
        ForcedStaysQueued(Model(), m, target);
        sent := SendAllMultiple(m, level);
        if target == Force && !sent {
          return ErrSendFailed;
        }
      }
      res := Finish(target, m, sent, level);
    }

    /** Its second half: queue a message for all that was not sent, or report what was discarded. */
    method Finish(target: Target, m: Msg, ghost sent: bool, ghost level: nat) returns (res: Result)
      requires level <= 1 && Valid() && target != Specific && (target == Force ==> level == 0 && Buffering(state))
      modifies this
      ensures Valid()
      ensures (Model(), res) ==
              if target == Force then (ReportOverflow(old(Model()), 0), Ok)
              else if Buffering(old(state)) then LoggingSpec.Store(old(Model()), m)
              else (Done(ReportOverflow(old(Model()), level), m, sent), Ok)
      decreases NumClients(pollTable), 1 - level, 2, 1
    {
      if target != Force && (state == Buffer || state == SendBuffer || state == BufferFull) {
        StoreShape(Model(), m);
        res := Store(m);
      } else {
        ReportDiscarded(level);
        if target == ToAll {
          hist := Done(Model(), m, sent).hist;
        }
        res := Ok;
      }
    }

    /** Its buffering branch. */
    method Store(m: Msg) returns (res: Result)
      modifies this`state, this`ring, this`overflowCounter, this`env, this`hist
      ensures (Model(), res) == LoggingSpec.Store(old(Model()), m)
    {
      if state != BufferFull {
        var ok := RingPush(m);
        if !ok {
          state := BufferFull;
        }
      }
      if state == BufferFull {
        overflowCounter := overflowCounter + 1;
        hist := hist.(rejected := hist.rejected + 1);
        return ErrBufferFull;
      }
      hist := hist.(accepted := hist.accepted + [m]);
      res := Ok;
    }

    /** Its branch for messages that went out. In the direct state nothing is left to report. */
    method ReportDiscarded(ghost level: nat)
      requires level <= 1 && Valid() && (Buffering(state) ==> level == 0)
      modifies this
      ensures Valid() && Model() == ReportOverflow(old(Model()), level)
      decreases NumClients(pollTable), 1 - level, 2, 0
    {
      if overflowCounter > 0 && clientConnections > 0 {
        ReportQueues(Model());
        var res := SendMessageOverflow(level);
        if res == Ok {
          overflowCounter := 0;
        }
      }
    }

    /** dlt_daemon_send_message_overflow with dlt_daemon_control_message_buffer_overflow */
    method SendMessageOverflow(ghost level: nat) returns (res: Result)
      requires level == 0 && Valid()
      modifies this
      ensures Valid() && (Model(), res) == SendAll(old(Model()), OverflowNotice(old(overflowCounter)), level + 1)
      decreases NumClients(pollTable), 1 - level, 1, 0
    {
      res := ClientSend(ToAll, OverflowNotice(overflowCounter), level + 1);
    }

    /** dlt_daemon_client_send_all_multiple */
    method SendAllMultiple(m: Msg, ghost level: nat) returns (sent: bool)
      requires level <= 1 && Valid()
      modifies this
      ensures Valid() && (Model(), sent) == Broadcast(old(Model()), m, 0, false, level)
      decreases NumClients(pollTable), 1 - level, 1, 0
    {
      sent := false;
      var i := 0;
      while i < |pollTable|
        invariant Valid() && NumClients(pollTable) <= old(NumClients(pollTable))
        invariant Broadcast(Model(), m, i, sent, level) == Broadcast(old(Model()), m, 0, false, level)
        decreases NumClients(pollTable), |pollTable| - i
      {
        var took := SendEntry(i, m, level);
        sent := sent || took;
        i := i + 1;
      }
    }

    /** One round of that loop. */
    method SendEntry(i: nat, m: Msg, ghost level: nat) returns (took: bool)
      requires level <= 1 && Valid() && i < |pollTable|
      modifies this
      ensures Valid() && (Model(), took) == Visit(old(Model()), m, i, level)
      decreases NumClients(pollTable), 1 - level, 0, 1
    {
      VisitShape(Model(), m, i, level);
      took := false;
      if pollTable[i].Client? {
        took := Answer();
        if took {
          hist := Took(Model(), pollTable[i].id, m).hist;
        } else {
          hist := Slid(Model(), i).hist;
          CloseSocket(i, level);
        }
      }
    }

    /** dlt_event_handler_unregister_connection */
    method UnregisterConnection(i: nat)
      requires Counted() && i < |pollTable|
      modifies this`pollTable, this`clientConnections
      ensures Counted() && Model() == old(Model()).(conns := RemoveAt(old(pollTable), i))
    {
      NumClientsRemoveAt(pollTable, i);
      if pollTable[i].Client? {
        clientConnections := clientConnections - 1;
      }
      pollTable := pollTable[..i] + pollTable[i + 1..];
    }

    /** dlt_daemon_close_socket */
    method CloseSocket(i: nat, ghost level: nat)
      requires level <= 1 && Valid() && i < |pollTable|
      modifies this
      ensures Valid()
      ensures Model() == Unregistered(old(Model()).(conns := RemoveAt(old(pollTable), i)), level)
      decreases NumClients(pollTable), 1 - level, if pollTable[i].Client? then 0 else 5, 0
    {
      NumClientsRemoveAt(pollTable, i);
      UnregisterConnection(i);
      AnnounceClosed(level);
    }

    /** What remains of it once the connection is gone. */
    method AnnounceClosed(ghost level: nat)
      requires level <= 1 && Counted() && !hist.tooDeep && state != Init && ShapeOfRing(Model())
      modifies this
      ensures Valid() && Model() == Unregistered(old(Model()), level)
      decreases NumClients(pollTable), 1 - level, 4, 0
    {
      if clientConnections == 0 {
        state := Buffer;
      }
      var _ := ClientSend(ToAll, Disconnected, level);
      var _ := ClientSend(ToAll, ClosedNote, level);
    }

    // -------------------------------------------------------------- draining the ring

    /** dlt_daemon_send_ringbuffer_to_client */
    method SendRingbufferToClient() returns (res: Result)
      requires Counted() && Good(Model())
      modifies this
      ensures Counted() && (Model(), res) == SendRing(old(Model()))
    {
      res := Ok;
      if ring == [] {
        state := SendDirect;
        return;
      }
      var more := true;
      while more
        invariant Counted() && (more ==> Good(Model()) && ring != [] && Buffering(state))
        invariant (if more then Drain(Model()) else (Model(), res)) == Drain(old(Model()))
        decreases more, NumClients(pollTable), if overflowCounter > 0 then 1 else 0, |ring|
      {
        DrainStepKeeps(Model());
        DrainStepCloser(Model());
        res, more := SendOldest();
      }
    }

    /** One round of its loop: send the oldest message, remove it, and stop at an empty ring or a failed send. */
    method SendOldest() returns (res: Result, more: bool)
      requires Counted() && Good(Model()) && ring != [] && Buffering(state)
      modifies this
      ensures Counted() && (Model(), res, more) == DrainStep(old(Model()))
    {
      ForceKeeps(Model());
      res := ClientSend(Force, ring[0], 0);
      if res != Ok {
        return res, false;
      }
      RemoveOldest();
      more := ring != [];
    }

    /** dlt_buffer_remove, and the state that follows. */
    method RemoveOldest()
      requires ring != []
      modifies this`ring, this`state, this`hist
      ensures Model() == Dequeue(old(Model())).(state := if |old(ring)| == 1 then SendDirect else SendBuffer)
    {
      hist := hist.(released := hist.released + [ring[0]]);
      ring := ring[1..];
      if state != SendBuffer {
        state := SendBuffer;
      }
      if ring == [] {
        state := SendDirect;
      }
    }

    // -------------------------------------------------------------- events

    method SendToAll(m: Msg)
      requires Counted() && Good(Model())
      modifies this
      ensures Counted() && Model() == LoggingSpec.SendToAll(old(Model()), m)
    {
      var _ := ClientSend(ToAll, m, 0);
    }

    /** dlt_daemon_process_user_message_overflow */
    method ProcessUserMessageOverflow(count: nat)
      requires Counted() && Good(Model())
      modifies this
      ensures Counted() && Model() == ProcessOverflow(old(Model()), count)
    {
      var res := ClientSend(ToAll, OverflowNotice(count), 0);
      if res != Ok {
        overflowCounter := overflowCounter + count;
      }
      hist := hist.(reported := hist.reported + count);
    }

    /** dlt_daemon_process_client_connect */
    method ProcessClientConnect(id: nat, version: bool, timezone: bool)
      requires Counted() && Good(Model())
      modifies this
      ensures Counted() && Model() == Step(old(Model()), Connect(id, version, timezone))
    {
      NumClientsAppend(pollTable, [Client(id)]);
      TableKeeps(Model(), Connect(id, version, timezone));
      pollTable, clientConnections := pollTable + [Client(id)], clientConnections + 1;
      SpecificKeeps(Model());
      var _ := ClientSend(Specific, ConnectedNote, 0);
      if version {
        SendKeeps(Model(), Version);
        SendToAll(Version);
        if timezone {
          SendKeeps(Model(), Timezone);
          SendToAll(Timezone);
        }
      }
      Announce();
    }

    method Announce()
      requires Counted() && Good(Model())
      modifies this
      ensures Counted() && Model() == Announced(old(Model()))
    {
      SendKeeps(Model(), ConnectedNote);
      SendToAll(ConnectedNote);
      if clientConnections == 1 {
        HandOver();
      }
    }

    method HandOver()
      requires Counted() && Good(Model()) && clientConnections == 1
      modifies this
      ensures Counted() && Model() == SendRing(old(Model()).(state := SendBuffer)).0
    {
      HandOverKeeps(Model());
      state := SendBuffer;
      var _ := SendRingbufferToClient();
    }

    /** dlt_daemon_process_one_s_timer */
    method ProcessOneSecondTimer(timingPackets: bool)
      requires Counted() && Good(Model())
      modifies this
      ensures Counted() && Model() == OneSecond(old(Model()), timingPackets)
    {
      if state == SendBuffer || state == BufferFull {
        SendRingKeeps(Model());
        var _ := SendRingbufferToClient();
      }
      if timingPackets && state == SendDirect {
        SendToAll(Time);
      }
    }

    /** One event of the daemon's event loop. */
    method Handle(e: Event)
      requires Counted() && Good(Model())
      modifies this
      ensures Counted() && Good(Model()) && Model() == Step(old(Model()), e)
    {
      StepKeeps(Model(), e);
      if e.Close? || e.Register? || e.Unregister? {
        HandleTable(e);
      } else {
        SameTable(Model(), e);
        match e
        case Send(id) => SendToAll(Payload(id));
        case SendOne => var _ := ClientSend(Specific, Payload(0), 0);
        case AppOverflow(n) => ProcessUserMessageOverflow(n);
        case Connect(id, v, z) => ProcessClientConnect(id, v, z);
        case Timer(p) => ProcessOneSecondTimer(p);
      }
    }

    /** The events about descriptors that come and go. */
    method HandleTable(e: Event)
      requires Valid() && (e.Close? || e.Register? || e.Unregister?)
      modifies this
      ensures Counted() && Model() == Step(old(Model()), e)
    {
      if e.Close? {
        if e.i < |pollTable| {
          CloseSocket(e.i, 0);
        } else {
          AnnounceClosed(0);
        }
      } else if e.Register? {
        NumClientsAppend(pollTable, [Other]);
        pollTable := pollTable + [Other];
      } else if e.i < |pollTable| && pollTable[e.i].Other? {
        NumClientsRemoveAt(pollTable, e.i);
        UnregisterConnection(e.i);
      }
    }

    /** The event loop over any sequence of events. */
    method Run(events: seq<Event>)
      requires Counted() && Good(Model())
      modifies this
      ensures Counted() && Good(Model()) && Model() == LoggingSpec.Run(old(Model()), events)
    {
      var n := 0;
      while n < |events|
        invariant n <= |events| && Counted() && Good(Model())
        invariant LoggingSpec.Run(Model(), events[n..]) == LoggingSpec.Run(old(Model()), events)
      {
        assert events[n..][0] == events[n] && events[n..][1..] == events[n + 1..];
        Handle(events[n]);
        n := n + 1;
      }
    }
  }

  lemma SameTable(d: Daemon, e: Event)
    requires !e.Close? && !e.Register? && !e.Unregister?
    ensures !e.Connect? ==> d.(conns := Table(d, e)) == d
  {
  }

  lemma ForcedStaysQueued(d: Daemon, m: Msg, target: Target)
    requires target == Force ==> Buffering(d.state)
    ensures target == Force ==> Buffering(Broadcast(d, m, 0, false, 0).0.state)
  {
    if target == Force {
      QueuedBroadcast(d, m, 0, false, 0, 0);
    }
  }
}
