/**
 The logging state machine of the daemon, as functions on its state.

 What the operating system decides is read from `env`, one answer per question:
 whether a socket send succeeds, and whether the ring still has room once two
 messages are queued. An exhausted `env` answers yes, so the finite scripts cover
 every behaviour of every finite run.
 */
module LoggingSpec {
  import opened Fifo

  datatype State = Init | Buffer | BufferFull | SendBuffer | SendDirect

  datatype Msg =
    | Payload(id: int)              // a log or control message from outside
    | OverflowNotice(count: nat)    // the message-buffer-overflow control message
    | Disconnected                  // connection info sent when a socket is closed
    | ClosedNote                    // the daemon's own "connection closed" log line
    | ConnectedNote                 // the daemon's own "new connection" log line
    | Version
    | Timezone
    | Time

  /** An entry of the poll table: a TCP client, or any other watched descriptor. */
  datatype Conn = Client(id: nat) | Other

  datatype Target = ToAll | Force | Specific

  datatype Result = Ok | ErrBufferFull | ErrSendFailed

  datatype Daemon = Daemon(
    state: State,
    ring: seq<Msg>,
    overflow: nat,
    conns: seq<Conn>,
    env: seq<bool>,
    hist: History)

  /** What happened so far; it decides nothing. */
  datatype History = History(
    accepted: seq<Msg>,             // send-to-all messages answered Ok, in completion order
    released: seq<Msg>,             // messages the daemon let go of after sending them
    wire: seq<(nat, Msg)>,          // every successful broadcast send
    lost: seq<Msg>,                 // answered Ok, but neither sent nor queued
    rejected: nat,                  // send-to-all calls answered BufferFull
    reported: nat,                  // losses reported by applications
    tooDeep: bool,                  // an overflow notice was asked for while sending one
    skipped: nat)                   // clients closed by a broadcast with a client entry right behind them

  // ---------------------------------------------------------------- poll table

  function NumClients(c: seq<Conn>): nat {
    if c == [] then 0 else (if c[0].Client? then 1 else 0) + NumClients(c[1..])
  }

  function RemoveAt(c: seq<Conn>, i: nat): seq<Conn>
    requires i < |c|
  {
    c[..i] + c[i + 1..]
  }

  ghost predicate NoClient(c: seq<Conn>) {
    forall k :: 0 <= k < |c| ==> !c[k].Client?
  }

  /** No two client entries are neighbours in the poll table. */
  ghost predicate NoAdjacentClients(c: seq<Conn>) {
    forall k :: 0 <= k < |c| - 1 ==> !(c[k].Client? && c[k + 1].Client?)
  }

  lemma {:induction false} NumClientsAppend(a: seq<Conn>, b: seq<Conn>)
    ensures NumClients(a + b) == NumClients(a) + NumClients(b)
  {
    if a == [] {
      assert a + b == b;
    } else {
      NumClientsAppend(a[1..], b);
      assert (a + b)[1..] == a[1..] + b;
    }
  }

  lemma NumClientsRemoveAt(c: seq<Conn>, i: nat)
    requires i < |c|
    ensures NumClients(c) == NumClients(RemoveAt(c, i)) + (if c[i].Client? then 1 else 0)
  {
    NumClientsAppend(c[..i], c[i..]);
    assert c == c[..i] + c[i..];
    NumClientsAppend(c[..i], c[i + 1..]);
  }

  lemma {:induction false} NoClientIffZero(c: seq<Conn>)
    ensures NoClient(c) <==> NumClients(c) == 0
  {
    if c != [] {
      NoClientIffZero(c[1..]);
      assert forall k :: 0 <= k < |c| - 1 ==> c[k + 1] == c[1..][k];
      assert forall k :: 1 <= k < |c| ==> c[k] == c[1..][k - 1];
    }
  }

  // ---------------------------------------------------------------- environment

  function Ask(d: Daemon): (Daemon, bool) {
    if d.env == [] then (d, true) else (d.(env := d.env[1..]), d.env[0])
  }

  /** dlt_buffer_push3 as the daemon sees it. */
  function RingPush(d: Daemon, m: Msg): (r: (Daemon, bool))
    ensures PushMeets(d.ring, m, r.1, r.0.ring) && (r.1 <==> |d.ring| < 2 || d.env == [] || d.env[0])
    ensures r.0 == d.(env := r.0.env, ring := r.0.ring)
  {
    var (d1, room) := if |d.ring| >= 2 then Ask(d) else (d, true);
    if room then (d1.(ring := d1.ring + [m]), true) else (d1, false)
  }

  // ---------------------------------------------------------------- dlt_daemon_client_send

  /** Queue a send-to-all message, or count it as discarded. */
  function Store(d: Daemon, m: Msg): (Daemon, Result) {
    var d1 :=
      if d.state == BufferFull then d
      else
        var (p, ok) := RingPush(d, m);
        if ok then p else p.(state := BufferFull);
    if d1.state == BufferFull then
      (d1.(overflow := d1.overflow + 1, hist := d1.hist.(rejected := d1.hist.rejected + 1)), ErrBufferFull)
    else
      (d1.(hist := d1.hist.(accepted := d1.hist.accepted + [m])), Ok)
  }

  predicate Buffering(s: State) {
    s == Buffer || s == SendBuffer || s == BufferFull
  }

  /** A broadcast message answered Ok without being queued: it reached a client, or it is gone. */
  function Done(d: Daemon, m: Msg, sent: bool): Daemon {
    var h := d.hist.(accepted := d.hist.accepted + [m]);
    d.(hist := if sent then h.(released := h.released + [m]) else h.(lost := h.lost + [m]))
  }

  /** One client took the message. */
  function Took(d: Daemon, id: nat, m: Msg): Daemon {
    d.(hist := d.hist.(wire := d.hist.wire + [(id, m)]))
  }

  /** dlt_daemon_client_send */
  function ClientSend(d: Daemon, target: Target, m: Msg, level: nat): (Daemon, Result)
    requires level <= 1
  {
    match target
    case Specific => SendSpecific(d)
    case ToAll => SendAll(d, m, level)
    case Force => SendForce(d, m)
  }

  function SendSpecific(d: Daemon): (Daemon, Result) {
    var (d1, ok) := Ask(d);
    (d1, if ok then Ok else ErrSendFailed)
  }

  function SendForce(d: Daemon, m: Msg): (r: (Daemon, Result))
    ensures NumClients(r.0.conns) <= NumClients(d.conns)
  {
    var (d1, sent) := Broadcast(d, m, 0, false, 0);
    if !sent then (d1, ErrSendFailed) else (ReportOverflow(d1, 0), Ok)
  }

  /** `level` is the number of overflow notices being sent further up the call stack. */
  function SendAll(d: Daemon, m: Msg, level: nat): (r: (Daemon, Result))
    requires level <= 1
    ensures NumClients(r.0.conns) <= NumClients(d.conns)
    decreases NumClients(d.conns), 1 - level, 3, 0
  {
    var (d1, sent) := if d.state == SendDirect then Broadcast(d, m, 0, false, level) else (d, false);
    if Buffering(d1.state) then Store(d1, m) else (Done(ReportOverflow(d1, level), m, sent), Ok)
  }

  /** The discarded-messages notice that follows a successful send. */
  function ReportOverflow(d: Daemon, level: nat): (r: Daemon)
    requires level <= 1
    ensures NumClients(r.conns) <= NumClients(d.conns)
    decreases NumClients(d.conns), 1 - level, 2, 0
  {
    if d.overflow > 0 && NumClients(d.conns) > 0 then
      if level == 1 then
        d.(hist := d.hist.(tooDeep := true))
      else
        var (d1, res) := SendAll(d, OverflowNotice(d.overflow), level + 1);
        if res == Ok then d1.(overflow := 0) else d1
    else
      d
  }

  /** dlt_daemon_client_send_all_multiple: the loop over the poll table from entry `i` on.
      A client whose send fails is removed, and the entry that moves into its place is skipped. */
  function Broadcast(d: Daemon, m: Msg, i: nat, sent: bool, level: nat): (r: (Daemon, bool))
    requires level <= 1
    ensures NumClients(r.0.conns) <= NumClients(d.conns)
    decreases NumClients(d.conns), 1 - level, 1, |d.conns| - i
  {
    if i >= |d.conns| then
      (d, sent)
    else
      var (d1, took) := Visit(d, m, i, level);
      Broadcast(d1, m, i + 1, sent || took, level)
  }

  /** The body of that loop: whether entry `i` took the message, and the state afterwards. */
  function Visit(d: Daemon, m: Msg, i: nat, level: nat): (r: (Daemon, bool))
    requires level <= 1 && i < |d.conns|
    ensures r.0.conns == d.conns || NumClients(r.0.conns) < NumClients(d.conns)
    decreases NumClients(d.conns), 1 - level, 0, 0
  {
    if !d.conns[i].Client? then
      (d, false)
    else
      var (d1, ok) := Ask(d);
      if ok then
        (Took(d1, d.conns[i].id, m), true)
      else
        NumClientsRemoveAt(d.conns, i);
        (Unregistered(Gone(d1, i), level), false)
  }

  /** Client `i` has left the poll table. */
  function Gone(d: Daemon, i: nat): Daemon
    requires i < |d.conns|
  {
    Slid(d, i).(conns := RemoveAt(d.conns, i))
  }

  /** Entry `i` is about to be closed: if the entry behind it is a client, the loop will skip that one. */
  function Slid(d: Daemon, i: nat): Daemon {
    if i + 1 < |d.conns| && d.conns[i + 1].Client? then d.(hist := d.hist.(skipped := d.hist.skipped + 1)) else d
  }

  /** dlt_daemon_close_socket, after the entry has left the poll table. */
  function Unregistered(d: Daemon, level: nat): (r: Daemon)
    requires level <= 1
    ensures NumClients(r.conns) <= NumClients(d.conns)
    decreases NumClients(d.conns), 1 - level, 4, 0
  {
    var d1 := if NumClients(d.conns) == 0 then d.(state := Buffer) else d;
    var d2 := SendAll(d1, Disconnected, level).0;
    SendAll(d2, ClosedNote, level).0
  }

  // ---------------------------------------------------------------- draining the ring

  /** One message to every client of a poll table from entry `i` on, in the order of the table. */
  function ToClients(c: seq<Conn>, m: Msg, i: nat): seq<(nat, Msg)>
    decreases |c| - i
  {
    if i >= |c| then [] else (if c[i].Client? then [(c[i].id, m)] else []) + ToClients(c, m, i + 1)
  }

  /** A broadcast that closes nobody sends the message to every client once, in the order of the table, and changes nothing else. */
  lemma {:induction false} QuietBroadcast(d: Daemon, m: Msg, i: nat, sent: bool, level: nat)
    requires level <= 1
    ensures var (r, sent') := Broadcast(d, m, i, sent, level);
            NumClients(r.conns) == NumClients(d.conns) ==>
              && r == d.(env := r.env, hist := d.hist.(wire := d.hist.wire + ToClients(d.conns, m, i)))
              && (sent' <==> sent || ToClients(d.conns, m, i) != [])
    decreases |d.conns| - i
  {
    if i < |d.conns| {
      var (d1, took) := Visit(d, m, i, level);
      NumClientsRemoveAt(d.conns, i);
      if d1.conns == d.conns {
        QuietBroadcast(d1, m, i + 1, sent || took, level);
        QuietVisit(d, m, i, level);
      }
    }
  }

  lemma QuietVisit(d: Daemon, m: Msg, i: nat, level: nat)
    requires level <= 1 && i < |d.conns| && Visit(d, m, i, level).0.conns == d.conns
    ensures var (r, took) := Visit(d, m, i, level);
            && r == d.(env := r.env, hist := d.hist.(wire := r.hist.wire))
            && r.hist.wire + ToClients(d.conns, m, i + 1) == d.hist.wire + ToClients(d.conns, m, i)
            && (took <==> d.conns[i].Client?)
  {
    RefusedCloses(d, m, i, level);
    ToClientsNext(d.hist.wire, d.conns, m, i);
  }

  lemma RefusedCloses(d: Daemon, m: Msg, i: nat, level: nat)
    requires level <= 1 && i < |d.conns|
    ensures d.conns[i].Client? && !Ask(d).1 ==> NumClients(Visit(d, m, i, level).0.conns) < NumClients(d.conns)
  {
    NumClientsRemoveAt(d.conns, i);
  }

  lemma ToClientsNext(w: seq<(nat, Msg)>, c: seq<Conn>, m: Msg, i: nat)
    requires i < |c|
    ensures w + ToClients(c, m, i) == (if c[i].Client? then w + [(c[i].id, m)] else w) + ToClients(c, m, i + 1)
  {
  }

  /** Why the drain loop ends: a forced send closes a client, or turns a positive
      discard count into a queued notice, or leaves the queue as long as it was. */
  lemma ForceProgress(d: Daemon, m: Msg)
    ensures var d1 := SendForce(d, m).0;
            || NumClients(d1.conns) < NumClients(d.conns)
            || (d1.overflow == 0 && d.overflow > 0)
            || (|d1.ring| == |d.ring| && (d1.overflow == 0 <==> d.overflow == 0))
  {
    var b := Broadcast(d, m, 0, false, 0).0;
    QuietBroadcast(d, m, 0, false, 0);
    NoticeProgress(b, OverflowNotice(b.overflow));
  }

  lemma NoticeProgress(b: Daemon, notice: Msg)
    ensures var (n, res) := SendAll(b, notice, 1);
            || NumClients(n.conns) < NumClients(b.conns)
            || (n.overflow >= b.overflow && (res == Ok || |n.ring| == |b.ring|))
  {
    var (c, sent) := if b.state == SendDirect then Broadcast(b, notice, 0, false, 1) else (b, false);
    QuietBroadcast(b, notice, 0, false, 1);
    if Buffering(c.state) {
      StoreProgress(c, notice);
      assert SendAll(b, notice, 1) == Store(c, notice);
    } else {
      var r := ReportOverflow(c, 1);
      assert r.overflow == c.overflow && r.conns == c.conns;
      assert SendAll(b, notice, 1) == (Done(r, notice, sent), Ok);
    }
  }

  lemma StoreProgress(d: Daemon, m: Msg)
    ensures var (n, res) := Store(d, m);
            n.conns == d.conns && n.overflow >= d.overflow && (res == Ok || |n.ring| == |d.ring|)
  {
  }

  /** One round of the loop of dlt_daemon_send_ringbuffer_to_client, and whether another follows. */
  function DrainStep(d: Daemon): (r: (Daemon, Result, bool))
    requires d.ring != []
    ensures NumClients(r.0.conns) <= NumClients(d.conns)
  {
    var (d1, res) := SendForce(d, d.ring[0]);
    if res != Ok then
      (d1, res, false)
    else
      var d2 := Dequeue(d1).(state := SendBuffer);
      if d2.ring == [] then (d2.(state := SendDirect), Ok, false) else (d2, Ok, true)
  }

  /** The measure under which the loop ends. */
  ghost predicate Closer(d: Daemon, r: Daemon) {
    || NumClients(r.conns) < NumClients(d.conns)
    || (NumClients(r.conns) == NumClients(d.conns) && r.overflow == 0 < d.overflow)
    || (NumClients(r.conns) == NumClients(d.conns) && (r.overflow == 0 <==> d.overflow == 0) && |r.ring| < |d.ring|)
  }

  lemma DrainStepCloser(d: Daemon)
    requires d.ring != []
    ensures var (r, _, more) := DrainStep(d); more ==> Closer(d, r)
  {
    ForceProgress(d, d.ring[0]);
  }

  /** The whole loop. */
  function Drain(d: Daemon): (r: (Daemon, Result))
    ensures NumClients(r.0.conns) <= NumClients(d.conns)
    decreases NumClients(d.conns), if d.overflow > 0 then 1 else 0, |d.ring|
  {
    if d.ring == [] then
      (d, Ok)
    else
      var (d1, res, more) := DrainStep(d);
      if more then DrainStepCloser(d); Drain(d1) else (d1, res)
  }

  /** dlt_buffer_remove: drop the oldest message, which has just been sent. */
  function Dequeue(d: Daemon): Daemon {
    if d.ring == [] then d else d.(ring := d.ring[1..], hist := d.hist.(released := d.hist.released + [d.ring[0]]))
  }

  /** dlt_daemon_send_ringbuffer_to_client */
  function SendRing(d: Daemon): (Daemon, Result) {
    if d.ring == [] then (d.(state := SendDirect), Ok) else Drain(d)
  }

  // ---------------------------------------------------------------- events and runs

  datatype Event =
    | Send(payload: int)                                     // a message for all clients
    | SendOne                                                // a reply to one socket
    | AppOverflow(count: nat)                                // an application reports losses
    | Connect(client: nat, version: bool, timezone: bool)    // a client was accepted
    | Close(i: nat)                                          // any socket is closed
    | Register                                               // another descriptor is watched
    | Unregister(i: nat)                                     // another descriptor is dropped
    | Timer(timingPackets: bool)                             // the one-second timer

  function SendToAll(d: Daemon, m: Msg): Daemon {
    SendAll(d, m, 0).0
  }

  /** dlt_daemon_process_user_message_overflow */
  function ProcessOverflow(d: Daemon, count: nat): Daemon {
    var (d1, res) := SendAll(d, OverflowNotice(count), 0);
    Reported(d1, res, count)
  }

  /** What was not announced is counted. */
  function Reported(d: Daemon, res: Result, count: nat): Daemon {
    var d1 := if res != Ok then d.(overflow := d.overflow + count) else d;
    d1.(hist := d1.hist.(reported := d1.hist.reported + count))
  }

  function SendIf(d: Daemon, condition: bool, m: Msg): Daemon {
    if condition then SendToAll(d, m) else d
  }

  /** dlt_daemon_process_client_connect, once the connection is in the poll table. */
  function Connected(d: Daemon, version: bool, timezone: bool): Daemon {
    var d1 := SendSpecific(d).0;
    var d2 := SendIf(d1, version, Version);
    var d3 := SendIf(d2, version && timezone, Timezone);
    Announced(d3)
  }

  /** Its end: log the new connection, and hand the ring over if it is the only one. */
  function Announced(d: Daemon): Daemon {
    var d1 := SendToAll(d, ConnectedNote);
    if NumClients(d1.conns) == 1 then SendRing(d1.(state := SendBuffer)).0 else d1
  }

  /** dlt_daemon_process_one_s_timer */
  function OneSecond(d: Daemon, timingPackets: bool): Daemon {
    var d1 := if d.state == SendBuffer || d.state == BufferFull then SendRing(d).0 else d;
    if timingPackets && d1.state == SendDirect then SendToAll(d1, Time) else d1
  }

  /** The poll table an event works with. */
  function Table(d: Daemon, e: Event): seq<Conn> {
    TableAfter(d.conns, e)
  }

  function TableAfter(c: seq<Conn>, e: Event): seq<Conn> {
    match e
    case Connect(id, _, _) => c + [Client(id)]
    case Close(i) => if i < |c| then RemoveAt(c, i) else c
    case Register => c + [Other]
    case Unregister(i) => if i < |c| && c[i].Other? then RemoveAt(c, i) else c
    case _ => c
  }

  function Step(d: Daemon, e: Event): Daemon {
    var t := d.(conns := Table(d, e));
    match e
    case Send(id) => SendToAll(t, Payload(id))
    case SendOne => SendSpecific(t).0
    case AppOverflow(n) => ProcessOverflow(t, n)
    case Connect(_, v, z) => Connected(t, v, z)
    case Close(_) => Unregistered(t, 0)
    case Register => t
    case Unregister(_) => t
    case Timer(p) => OneSecond(t, p)
  }

  function Run(d: Daemon, events: seq<Event>): Daemon
    decreases |events|
  {
    if events == [] then d else Run(Step(d, events[0]), events[1..])
  }

  /** The daemon as main() leaves it before its event loop. */
  function Started(table: seq<Conn>, env: seq<bool>): Daemon {
    Daemon(Buffer, [], 0, table, env, History([], [], [], [], 0, 0, false, 0))
  }
}
