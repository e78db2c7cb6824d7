/**
 What the logging code is for: a send is queued exactly when there is room, whoever
 connects first gets everything that is queued, and as long as the operating system
 refuses nothing the daemon is the ideal one, which hands every message to all clients
 that are connected, or keeps it for the next.
 */
module LoggingIdeal {
  import opened LoggingSpec
  import opened LoggingInvariants
  import opened LoggingRuns

  // ---------------------------------------------------------------- one send

  /** What the operating system answers next. */
  predicate NextYes(env: seq<bool>) {
    env == [] || env[0]
  }

  function Later(env: seq<bool>): seq<bool> {
    if env == [] then [] else env[1..]
  }

  /** While messages are queued, a send to all is accepted exactly when the ring is not full yet and has fewer than two
      messages or is answered that there is room; otherwise it is counted. Nothing else changes. */
  lemma QueuedOrCounted(d: Daemon, m: Msg, level: nat)
    requires level <= 1 && Buffering(d.state)
    ensures var (r, res) := ClientSend(d, ToAll, m, level);
            var env := if d.state != BufferFull && |d.ring| >= 2 then Later(d.env) else d.env;
            if d.state != BufferFull && (|d.ring| < 2 || NextYes(d.env)) then
              res == Ok && r == d.(ring := d.ring + [m], env := env, hist := d.hist.(accepted := d.hist.accepted + [m]))
            else
              && res == ErrBufferFull
              && r == d.(state := BufferFull, overflow := d.overflow + 1, env := env, hist := d.hist.(rejected := d.hist.rejected + 1))
  {
  }

  /** A send to one socket fails exactly when the socket refuses it, and changes nothing. */
  lemma SpecificOrFailed(d: Daemon, m: Msg)
    ensures ClientSend(d, Specific, m, 0) == (d.(env := Later(d.env)), if NextYes(d.env) then Ok else ErrSendFailed)
  {
  }

  ghost predicate Tells(m: Msg, outcome: (Daemon, Result)) {
    var (r, res) := outcome;
    && (res == if r.state == BufferFull then ErrBufferFull else Ok)
    && (r.state == BufferFull ==> r.overflow > 0)
    && (r.state == Buffer || r.state == SendBuffer ==> r.ring != [] && r.ring[|r.ring| - 1] == m)
  }

  /** Whatever the sockets answer, the state after a send to all tells its result: in the direct state nothing is owed, in a
      full ring it was counted, and otherwise it is the newest queued message, even if a client that took it has left since. */
  lemma StateTellsResult(d: Daemon, m: Msg, level: nat)
    requires level <= 1 && Shape(d)
    ensures Tells(m, ClientSend(d, ToAll, m, level))
  {
    if d.state == SendDirect {
      var (b, sent) := Broadcast(d, m, 0, false, level);
      BroadcastShape(d, m, 0, false, level);
      if Buffering(b.state) {
        QueuedOrCounted(b, m, level);
        assert SendAll(d, m, level) == SendAll(b, m, level);
      } else {
        assert ReportOverflow(b, level) == b;
        assert SendAll(d, m, level) == (Done(b, m, sent), Ok);
      }
    } else {
      QueuedOrCounted(d, m, level);
    }
  }

  /** Losses an application reports while messages are queued are announced in the ring, or counted with the notice itself. */
  lemma ReportQueuedOrCounted(d: Daemon, count: nat)
    requires Buffering(d.state)
    ensures var (r, notice) := (Step(d, AppOverflow(count)), OverflowNotice(count));
            && r.hist.reported == d.hist.reported + count && r.conns == d.conns && r.hist.wire == d.hist.wire
            && if d.state != BufferFull && (|d.ring| < 2 || NextYes(d.env)) then r.ring == d.ring + [notice] && r.overflow == d.overflow
               else r.ring == d.ring && r.state == BufferFull && r.overflow == d.overflow + 1 + count
  {
    QueuedOrCounted(d, OverflowNotice(count), 0);
  }

  // ---------------------------------------------------------------- when nothing is refused

  lemma AskWilling(d: Daemon)
    requires Willing(d.env)
    ensures Ask(d).1 && Ask(d).0 == d.(env := Later(d.env)) && Willing(Later(d.env))
  {
  }

  /** A broadcast that nobody refuses reaches every client. */
  lemma {:induction false} WillingBroadcast(d: Daemon, m: Msg, i: nat, sent: bool, level: nat)
    requires level <= 1 && Willing(d.env)
    ensures var r := Broadcast(d, m, i, sent, level).0; Willing(r.env) && r.conns == d.conns
    decreases |d.conns| - i
  {
    if i < |d.conns| {
      AskWilling(d);
      var (d1, took) := Visit(d, m, i, level);
      WillingBroadcast(d1, m, i + 1, sent || took, level);
    }
  }

  lemma {:induction false} SomebodyThere(c: seq<Conn>, m: Msg, i: nat)
    requires i <= |c|
    ensures ToClients(c, m, i) != [] <==> NumClients(c[i..]) > 0
    decreases |c| - i
  {
    if i < |c| {
      SomebodyThere(c, m, i + 1);
      assert c[i..][1..] == c[i + 1..];
    }
  }

  lemma ReachesAll(d: Daemon, m: Msg, level: nat)
    requires level <= 1 && Willing(d.env)
    ensures var (r, sent) := Broadcast(d, m, 0, false, level);
            && Willing(r.env) && (sent <==> NumClients(d.conns) > 0)
            && r == d.(env := r.env, hist := d.hist.(wire := d.hist.wire + ToClients(d.conns, m, 0)))
  {
    WillingBroadcast(d, m, 0, false, level);
    QuietBroadcast(d, m, 0, false, level);
    SomebodyThere(d.conns, m, 0);
    assert d.conns[0..] == d.conns;
  }

  /** The messages one after the other, each to every client. */
  function Deliveries(c: seq<Conn>, ms: seq<Msg>): seq<(nat, Msg)> {
    if ms == [] then [] else ToClients(c, ms[0], 0) + Deliveries(c, ms[1..])
  }

  lemma {:induction false} DeliveriesAppend(c: seq<Conn>, a: seq<Msg>, b: seq<Msg>)
    ensures Deliveries(c, a + b) == Deliveries(c, a) + Deliveries(c, b)
  {
    if a == [] {
      assert a + b == b;
    } else {
      DeliveriesAppend(c, a[1..], b);
      assert (a + b)[1..] == a[1..] + b;
    }
  }

  lemma DeliveriesOne(c: seq<Conn>, m: Msg)
    ensures Deliveries(c, [m]) == ToClients(c, m, 0)
  {
    assert [m][1..] == [];
  }

  /** These messages went to all clients and were let go. */
  function Handed(h: History, c: seq<Conn>, ms: seq<Msg>): History {
    h.(released := h.released + ms, wire := h.wire + Deliveries(c, ms))
  }

  lemma HandedTwice(h: History, c: seq<Conn>, a: seq<Msg>, b: seq<Msg>)
    ensures Handed(Handed(h, c, a), c, b) == Handed(h, c, a + b)
  {
    DeliveriesAppend(c, a, b);
    Regroup(h.wire, Deliveries(c, a), Deliveries(c, b));
    Regroup(h.released, a, b);
  }

  lemma Regroup<T>(x: seq<T>, a: seq<T>, b: seq<T>)
    ensures x + a + b == x + (a + b)
  {
  }

  function Accepted(h: History, ms: seq<Msg>): History {
    h.(accepted := h.accepted + ms)
  }

  // ---------------------------------------------------------------- the drain when nothing is refused

  /** The notice about discarded messages that a drain adds; in a full ring it is first discarded itself, and counted. */
  function Late(d: Daemon): seq<Msg> {
    if d.overflow == 0 then [] else [OverflowNotice(d.overflow + if d.state == BufferFull then 1 else 0)]
  }

  /** Everything has gone to every client, and the daemon is in the direct state. */
  function Drained(d: Daemon, env: seq<bool>): Daemon {
    var h := Accepted(Handed(d.hist, d.conns, d.ring + Late(d)), Late(d));
    d.(state := SendDirect, ring := [], overflow := 0, env := env,
       hist := h.(rejected := h.rejected + if d.state == BufferFull && d.overflow > 0 then 1 else 0))
  }

  ghost predicate Drainable(d: Daemon) {
    && Buffering(d.state) && d.ring != [] && (d.state == BufferFull ==> |d.ring| >= 2)
    && NumClients(d.conns) > 0 && Willing(d.env)
  }

  lemma ReportTaken(b: Daemon)
    requires Buffering(b.state) && NumClients(b.conns) > 0 && Willing(b.env)
    ensures var (r, notice) := (ReportOverflow(b, 0), OverflowNotice(b.overflow));
            && Willing(r.env)
            && r == if b.overflow == 0 then b
                    else if b.state == BufferFull then b.(overflow := b.overflow + 1, hist := b.hist.(rejected := b.hist.rejected + 1))
                    else b.(ring := b.ring + [notice], overflow := 0, env := r.env, hist := Accepted(b.hist, [notice]))
  {
    if b.overflow > 0 {
      QueuedOrCounted(b, OverflowNotice(b.overflow), 1);
      AskWilling(b);
    }
  }

  /** What a round of the drain leaves in the ring: all but the head, with the notice if it was accepted. */
  function Left(d: Daemon): seq<Msg>
    requires d.ring != []
  {
    if d.state == BufferFull && d.overflow > 0 then d.ring[1..] else d.ring[1..] + Late(d)
  }

  function Round(d: Daemon, env: seq<bool>): Daemon
    requires d.ring != []
  {
    var h := Handed(d.hist, d.conns, [d.ring[0]]);
    var d1 := d.(state := if Left(d) == [] then SendDirect else SendBuffer, ring := Left(d), env := env);
    if d.state == BufferFull && d.overflow > 0 then d1.(overflow := d.overflow + 1, hist := h.(rejected := h.rejected + 1))
    else d1.(overflow := 0, hist := Accepted(h, Late(d)))
  }

  /** The head has gone to every client and the notice is dealt with; now the head leaves the ring. */
  lemma RoundEnds(d: Daemon, b: Daemon, r: Daemon)
    requires d.ring != [] && Buffering(d.state)
    requires b == d.(env := b.env, hist := d.hist.(wire := d.hist.wire + Deliveries(d.conns, [d.ring[0]])))
    requires r == if d.overflow == 0 then b
                  else if d.state == BufferFull then b.(overflow := d.overflow + 1, hist := b.hist.(rejected := d.hist.rejected + 1))
                  else b.(ring := d.ring + Late(d), overflow := 0, env := r.env, hist := Accepted(b.hist, Late(d)))
    ensures var d2 := Dequeue(r).(state := SendBuffer);
            d2.ring == Left(d) && Round(d, r.env) == if d2.ring == [] then d2.(state := SendDirect) else d2
  {
    assert r.ring[0] == d.ring[0] && r.ring[1..] == Left(d);
    assert d.hist.accepted + [] == d.hist.accepted;
  }

  lemma RoundTaken(d: Daemon)
    requires Drainable(d)
    ensures var (r, res, more) := DrainStep(d);
            res == Ok && Willing(r.env) && r == Round(d, r.env) && (more <==> Left(d) != [])
  {
    var m := d.ring[0];
    var b := Broadcast(d, m, 0, false, 0).0;
    ReachesAll(d, m, 0);
    DeliveriesOne(d.conns, m);
    ReportTaken(b);
    RoundEnds(d, b, ReportOverflow(b, 0));
    assert SendForce(d, m) == (ReportOverflow(b, 0), Ok);
  }

  lemma RoundThenRest(d: Daemon, env: seq<bool>, env': seq<bool>)
    requires d.ring != [] && (d.state == BufferFull ==> |d.ring| >= 2)
    ensures Left(d) == [] ==> Round(d, env) == Drained(d, env)
    ensures Left(d) != [] ==> Drained(Round(d, env), env') == Drained(d, env')
  {
    var r := Round(d, env);
    assert [d.ring[0]] + (Left(d) + Late(r)) == d.ring + Late(d);
    HandedTwice(d.hist, d.conns, [d.ring[0]], Left(d) + Late(r));
  }

  /** As long as nothing is refused, the drain hands the whole ring and the notice to every client, in order. */
  lemma {:induction false} DrainTaken(d: Daemon)
    requires Drainable(d)
    ensures var (r, res) := Drain(d); res == Ok && Willing(r.env) && r == Drained(d, r.env)
    decreases NumClients(d.conns), if d.overflow > 0 then 1 else 0, |d.ring|
  {
    var (r, _, more) := DrainStep(d);
    RoundTaken(d);
    RoundThenRest(d, r.env, Drain(d).0.env);
    if more {
      DrainStepCloser(d);
      DrainTaken(r);
    }
  }

  lemma RingTaken(d: Daemon)
    requires Good(d) && NumClients(d.conns) > 0 && Willing(d.env) && (d.ring != [] ==> Buffering(d.state))
    ensures var (r, res) := SendRing(d); res == Ok && Willing(r.env) && r == Drained(d, r.env)
  {
    if d.ring == [] {
      assert d.ring + Late(d) == [];
      assert d.hist.wire + [] == d.hist.wire && d.hist.released + [] == d.hist.released && d.hist.accepted + [] == d.hist.accepted;
    } else {
      DrainTaken(d);
    }
  }

  // ---------------------------------------------------------------- messages to all when nothing is refused

  /** The messages are handed to all clients, queued, or in a full ring counted. */
  function Emitted(d: Daemon, ms: seq<Msg>, env: seq<bool>): Daemon {
    if d.state == SendDirect then
      d.(env := env, hist := Accepted(Handed(d.hist, d.conns, ms), ms))
    else if d.state == BufferFull then
      d.(env := env, overflow := d.overflow + |ms|, hist := d.hist.(rejected := d.hist.rejected + |ms|))
    else
      d.(env := env, ring := d.ring + ms, hist := Accepted(d.hist, ms))
  }

  /** `r` is `d` after these messages, and the operating system still refuses nothing. */
  ghost predicate Emits(d: Daemon, ms: seq<Msg>, r: Daemon) {
    Willing(r.env) && r == Emitted(d, ms, r.env)
  }

  lemma EmitsTwice(d: Daemon, a: seq<Msg>, r: Daemon, b: seq<Msg>, r': Daemon)
    requires Emits(d, a, r) && Emits(r, b, r')
    ensures Emits(d, a + b, r')
  {
    if d.state == SendDirect {
      HandedTwice(d.hist, d.conns, a, b);
      Regroup(d.hist.accepted, a, b);
    } else if d.state != BufferFull {
      Regroup(d.ring, a, b);
      Regroup(d.hist.accepted, a, b);
    }
  }

  lemma EmitsNothing(d: Daemon, r: Daemon)
    requires Willing(r.env) && r == d.(env := r.env)
    ensures Emits(d, [], r)
  {
    assert d.hist.wire + [] == d.hist.wire && d.hist.released + [] == d.hist.released;
    assert d.hist.accepted + [] == d.hist.accepted && d.ring + [] == d.ring;
  }

  lemma SendTaken(d: Daemon, m: Msg)
    requires Shape(d) && Willing(d.env)
    ensures var (r, res) := SendAll(d, m, 0); Emits(d, [m], r) && (res == Ok <==> d.state != BufferFull)
  {
    if d.state == SendDirect {
      ReachesAll(d, m, 0);
      DeliveriesOne(d.conns, m);
    } else {
      QueuedOrCounted(d, m, 0);
      AskWilling(d);
    }
  }

  lemma SendIfTaken(d: Daemon, condition: bool, m: Msg)
    requires Shape(d) && Willing(d.env)
    ensures Emits(d, if condition then [m] else [], SendIf(d, condition, m))
  {
    if condition {
      SendTaken(d, m);
    } else {
      EmitsNothing(d, d);
    }
  }

  // ---------------------------------------------------------------- events when nothing is refused

  /** What a new client is greeted with, and everybody else with it. */
  function Greeting(version: bool, timezone: bool): seq<Msg> {
    (if version then [Version] else []) + (if version && timezone then [Timezone] else []) + [ConnectedNote]
  }

  /** The same between good states. */
  ghost predicate GoodEmits(d: Daemon, ms: seq<Msg>, r: Daemon) {
    Good(d) && Good(r) && Emits(d, ms, r)
  }

  lemma GoodTwice(d: Daemon, a: seq<Msg>, r: Daemon, b: seq<Msg>, r': Daemon)
    requires GoodEmits(d, a, r) && GoodEmits(r, b, r')
    ensures GoodEmits(d, a + b, r')
  {
    EmitsTwice(d, a, r, b, r');
  }

  lemma SendIfGood(d: Daemon, condition: bool, m: Msg)
    requires Good(d) && Willing(d.env) && Carried(m) == 0
    ensures GoodEmits(d, if condition then [m] else [], SendIf(d, condition, m))
  {
    SendIfKeeps(d, condition, m);
    SendIfTaken(d, condition, m);
  }

  lemma AskedGood(d: Daemon)
    requires Good(d) && Willing(d.env)
    ensures GoodEmits(d, [], SendSpecific(d).0)
  {
    SpecificKeeps(d);
    AskWilling(d);
    EmitsNothing(d, SendSpecific(d).0);
  }

  lemma FourSteps(d: Daemon, d1: Daemon, a: seq<Msg>, d2: Daemon, b: seq<Msg>, d3: Daemon, c: seq<Msg>, r: Daemon)
    requires GoodEmits(d, [], d1) && GoodEmits(d1, a, d2) && GoodEmits(d2, b, d3) && GoodEmits(d3, c, r)
    ensures GoodEmits(d, a + b + c, r)
  {
    GoodTwice(d, [], d1, a, d2);
    assert [] + a == a;
    GoodTwice(d, a, d2, b, d3);
    GoodTwice(d, a + b, d3, c, r);
  }

  /** A connect up to the hand-over. */
  function Welcomed(t: Daemon, version: bool, timezone: bool): Daemon {
    SendIf(SendIf(SendIf(SendSpecific(t).0, version, Version), version && timezone, Timezone), true, ConnectedNote)
  }

  lemma ConnectedIs(t: Daemon, version: bool, timezone: bool)
    ensures var r := Welcomed(t, version, timezone);
            Connected(t, version, timezone) == if NumClients(r.conns) == 1 then SendRing(r.(state := SendBuffer)).0 else r
  {
  }

  lemma Greeted(t: Daemon, version: bool, timezone: bool)
    requires Good(t) && Willing(t.env)
    ensures GoodEmits(t, Greeting(version, timezone), Welcomed(t, version, timezone))
  {
    var d1 := SendSpecific(t).0;
    AskedGood(t);
    var d2 := SendIf(d1, version, Version);
    SendIfGood(d1, version, Version);
    var d3 := SendIf(d2, version && timezone, Timezone);
    SendIfGood(d2, version && timezone, Timezone);
    SendIfGood(d3, true, ConnectedNote);
    FourSteps(t, d1, if version then [Version] else [], d2, if version && timezone then [Timezone] else [], d3,
              [ConnectedNote], SendIf(d3, true, ConnectedNote));
  }

  /** Messages as they go to one client. */
  function To(id: nat, ms: seq<Msg>): (r: seq<(nat, Msg)>)
    ensures |r| == |ms|
  {
    seq(|ms|, k requires 0 <= k < |ms| => (id, ms[k]))
  }

  lemma {:induction false} OnlyClient(c: seq<Conn>, id: nat, m: Msg, i: nat)
    requires i <= |c| && NoClient(c)
    ensures ToClients(c + [Client(id)], m, i) == [(id, m)]
    decreases |c| - i
  {
    if i < |c| {
      OnlyClient(c, id, m, i + 1);
    } else {
      assert ToClients(c + [Client(id)], m, i + 1) == [];
    }
  }

  lemma {:induction false} OnlyTo(c: seq<Conn>, id: nat, ms: seq<Msg>)
    requires NoClient(c)
    ensures Deliveries(c + [Client(id)], ms) == To(id, ms)
  {
    if ms != [] {
      OnlyTo(c, id, ms[1..]);
      OnlyClient(c, id, ms[0], 0);
      assert To(id, ms) == [(id, ms[0])] + To(id, ms[1..]);
    }
  }

  /** What the first client gets: all that is queued, its greeting unless the ring is full, and the notice about all that was discarded. */
  function HandOverOf(d: Daemon, greeting: seq<Msg>): seq<Msg> {
    var full := d.state == BufferFull;
    var discarded := d.overflow + if full then |greeting| else 0;
    d.ring + (if full then [] else greeting) + if discarded > 0 then [OverflowNotice(discarded)] else []
  }

  lemma HandsOver(d1: Daemon)
    requires Good(d1) && NumClients(d1.conns) == 1 && Willing(d1.env)
    ensures var d2 := d1.(state := SendBuffer); var r := SendRing(d2).0; Willing(r.env) && r == Drained(d2, r.env)
  {
    var d2 := d1.(state := SendBuffer);
    assert Good(d2);
    RingTaken(d2);
  }

  lemma FirstConnected(t: Daemon, version: bool, timezone: bool)
    requires Good(t) && NumClients(t.conns) == 1 && Willing(t.env) && t.state != SendDirect
    ensures var (r, g) := (Connected(t, version, timezone), Greeting(version, timezone));
            Willing(r.env) && r == HandedOver(t, g, r.env)
  {
    var d1 := Welcomed(t, version, timezone);
    Greeted(t, version, timezone);
    ConnectedIs(t, version, timezone);
    HandsOver(d1);
    HandOverIs(t, Greeting(version, timezone), d1, SendRing(d1.(state := SendBuffer)).0.env);
  }

  /** The only client has everything. */
  function HandedOver(t: Daemon, g: seq<Msg>, env: seq<bool>): Daemon {
    var ms := HandOverOf(t, g);
    t.(state := SendDirect, ring := [], overflow := 0, env := env,
       hist := t.hist.(accepted := t.hist.accepted + ms[|t.ring|..], released := t.hist.released + ms,
                       wire := t.hist.wire + Deliveries(t.conns, ms),
                       rejected := t.hist.rejected + if t.state == BufferFull then |g| else 0))
  }

  /** What has happened once the ring is handed over behind a greeting. */
  lemma HandOverIs(t: Daemon, g: seq<Msg>, d1: Daemon, env: seq<bool>)
    requires Emits(t, g, d1) && t.state != SendDirect
    ensures Drained(d1.(state := SendBuffer), env) == HandedOver(t, g, env)
  {
    var d2 := d1.(state := SendBuffer);
    var ms := HandOverOf(t, g);
    assert d2.ring + Late(d2) == ms;
    assert d1.hist.accepted + Late(d2) == t.hist.accepted + ms[|t.ring|..];
  }

  /** The first client to connect, and to take what it is sent, gets everything, in order, whether the ring was full or not. */
  lemma ConnectHandsOver(d: Daemon, id: nat, version: bool, timezone: bool)
    requires Good(d) && NumClients(d.conns) == 0 && Willing(d.env)
    ensures var (r, ms) := (Step(d, Connect(id, version, timezone)), HandOverOf(d, Greeting(version, timezone)));
            && r.state == SendDirect && r.ring == [] && r.overflow == 0 && r.conns == d.conns + [Client(id)] && Willing(r.env)
            && r.hist == d.hist.(accepted := d.hist.accepted + ms[|d.ring|..], released := d.hist.released + ms,
                                 wire := d.hist.wire + To(id, ms),
                                 rejected := d.hist.rejected + if d.state == BufferFull then |Greeting(version, timezone)| else 0)
  {
    var e, g := Connect(id, version, timezone), Greeting(version, timezone);
    var t := d.(conns := Table(d, e));
    TableKeeps(d, e);
    NumClientsAppend(d.conns, [Client(id)]);
    NoClientIffZero(d.conns);
    FirstConnected(t, version, timezone);
    OnlyTo(d.conns, id, HandOverOf(d, g));
  }

  lemma TimerIs(d: Daemon, env: seq<bool>, ms: seq<Msg>, r: Daemon)
    requires Emits(Drained(d, env), ms, r)
    ensures r.state == SendDirect && r.ring == [] && r.overflow == 0 && r.conns == d.conns
    ensures r.hist.wire == d.hist.wire + Deliveries(d.conns, d.ring + Late(d) + ms)
  {
    HandedTwice(d.hist, d.conns, d.ring + Late(d), ms);
  }

  /** The timer hands everything over as well, and the timing message after it. */
  lemma TimerHandsOver(d: Daemon, timingPackets: bool)
    requires Good(d) && NumClients(d.conns) > 0 && Willing(d.env) && (d.state == SendBuffer || d.state == BufferFull)
    ensures var r := Step(d, Timer(timingPackets));
            && r.state == SendDirect && r.ring == [] && r.overflow == 0 && r.conns == d.conns && Willing(r.env)
            && r.hist.wire == d.hist.wire + Deliveries(d.conns, d.ring + Late(d) + if timingPackets then [Time] else [])
  {
    assert d.(conns := Table(d, Timer(timingPackets))) == d;
    var r := SendRing(d).0;
    RingTaken(d);
    SendRingKeeps(d);
    SendIfTaken(r, timingPackets, Time);
    TimerIs(d, r.env, if timingPackets then [Time] else [], SendIf(r, timingPackets, Time));
  }

  /** A closed connection is announced to whoever is left; with nobody left the daemon queues again, even if the ring was full. */
  lemma CloseAnnounces(d: Daemon, i: nat)
    requires Good(d) && Willing(d.env)
    ensures var t := d.(conns := Table(d, Close(i)));
            Emits(if NumClients(t.conns) == 0 then t.(state := Buffer) else t, [Disconnected, ClosedNote], Step(d, Close(i)))
  {
    var t := d.(conns := Table(d, Close(i)));
    var t1 := if NumClients(t.conns) == 0 then t.(state := Buffer) else t;
    var r := SendAll(t1, Disconnected, 0).0;
    ToAllShape(t1, Disconnected, 0);
    SendTaken(t1, Disconnected);
    SendTaken(r, ClosedNote);
    EmitsTwice(t1, [Disconnected], r, [ClosedNote], SendAll(r, ClosedNote, 0).0);
    assert [Disconnected] + [ClosedNote] == [Disconnected, ClosedNote];
  }

  // ---------------------------------------------------------------- the ideal daemon

  /** Who is connected, what is kept for the next one, what went to whom, what was taken on, and losses applications reported. */
  datatype Ideal = Ideal(conns: seq<Conn>, queue: seq<Msg>, wire: seq<(nat, Msg)>, accepted: seq<Msg>, reported: nat)

  /** The messages an event gives rise to. */
  function Produced(e: Event, connected: bool): seq<Msg> {
    match e
    case Send(id) => [Payload(id)]
    case AppOverflow(n) => [OverflowNotice(n)]
    case Connect(_, version, timezone) => Greeting(version, timezone)
    case Close(_) => [Disconnected, ClosedNote]
    case Timer(timingPackets) => if timingPackets && connected then [Time] else []
    case _ => []
  }

  /** Whoever is connected gets all that is kept and the new messages; with nobody there they are kept. */
  function Take(s: Ideal, ms: seq<Msg>): Ideal {
    if NumClients(s.conns) == 0 then s.(queue := s.queue + ms, accepted := s.accepted + ms)
    else s.(queue := [], wire := s.wire + Deliveries(s.conns, s.queue + ms), accepted := s.accepted + ms)
  }

  function IdealStep(s: Ideal, e: Event): Ideal {
    var c := TableAfter(s.conns, e);
    var t := Take(s.(conns := c), Produced(e, NumClients(c) > 0));
    if e.AppOverflow? then t.(reported := t.reported + e.count) else t
  }

  function IdealRun(s: Ideal, events: seq<Event>): Ideal
    decreases |events|
  {
    if events == [] then s else IdealRun(IdealStep(s, events[0]), events[1..])
  }

  /** The daemon is where the ideal one is: nothing was discarded, lost or skipped. */
  function Concrete(s: Ideal, released: seq<Msg>, env: seq<bool>): Daemon {
    Daemon(if NumClients(s.conns) > 0 then SendDirect else Buffer, s.queue, 0, s.conns, env,
           History(s.accepted, released, s.wire, [], 0, s.reported, false, 0))
  }

  ghost predicate Like(d: Daemon, s: Ideal) {
    && Willing(d.env) && d == Concrete(s, d.hist.released, d.env) && d.hist.released + s.queue == s.accepted
    && (NumClients(s.conns) > 0 ==> s.queue == [])
  }

  lemma LikeTake(d: Daemon, s: Ideal, ms: seq<Msg>, r: Daemon)
    requires Like(d, s) && Emits(d, ms, r)
    ensures Like(r, Take(s, ms))
  {
    if d.state == SendDirect {
      assert s.queue + ms == ms;
      assert d.hist.released + [] == d.hist.released;
    } else {
      Regroup(d.hist.released, s.queue, ms);
    }
  }

  /** The first client gets what was kept and its greeting. */
  lemma LikeFirst(d: Daemon, s: Ideal, e: Event)
    requires Good(d) && Like(d, s) && e.Connect? && NumClients(s.conns) == 0
    ensures Like(Step(d, e), IdealStep(s, e))
  {
    var g := Greeting(e.version, e.timezone);
    ConnectHandsOver(d, e.client, e.version, e.timezone);
    NumClientsAppend(d.conns, [Client(e.client)]);
    NoClientIffZero(d.conns);
    assert HandOverOf(d, g) == s.queue + g && (s.queue + g)[|s.queue|..] == g;
    OnlyTo(d.conns, e.client, s.queue + g);
    Regroup(d.hist.released, s.queue, g);
  }

  lemma LikeNext(d: Daemon, s: Ideal, e: Event)
    requires Good(d) && Like(d, s) && e.Connect? && NumClients(s.conns) > 0
    ensures Like(Step(d, e), IdealStep(s, e))
  {
    var t := d.(conns := Table(d, e));
    NumClientsAppend(d.conns, [Client(e.client)]);
    TableKeeps(d, e);
    Greeted(t, e.version, e.timezone);
    ConnectedIs(t, e.version, e.timezone);
    LikeTake(t, s.(conns := t.conns), Greeting(e.version, e.timezone), Step(d, e));
  }

  lemma LikeClose(d: Daemon, s: Ideal, e: Event)
    requires Good(d) && Like(d, s) && e.Close?
    ensures Like(Step(d, e), IdealStep(s, e))
  {
    var t := d.(conns := Table(d, e));
    if e.i < |d.conns| {
      NumClientsRemoveAt(d.conns, e.i);
    }
    CloseAnnounces(d, e.i);
    LikeTake(if NumClients(t.conns) == 0 then t.(state := Buffer) else t, s.(conns := t.conns), [Disconnected, ClosedNote], Step(d, e));
  }

  lemma LikeSend(d: Daemon, s: Ideal, condition: bool, m: Msg)
    requires Good(d) && Like(d, s)
    ensures Like(SendIf(d, condition, m), Take(s, if condition then [m] else []))
    ensures condition ==> SendAll(d, m, 0).1 == Ok
  {
    SendIfTaken(d, condition, m);
    SendTaken(d, m);
    LikeTake(d, s, if condition then [m] else [], SendIf(d, condition, m));
  }

  /** The same clients in the same or another table. */
  lemma LikeTable(d: Daemon, s: Ideal, e: Event)
    requires Good(d) && Like(d, s) && !e.Close? && !e.Connect?
    ensures var c := Table(d, e); Good(d.(conns := c)) && Like(d.(conns := c), s.(conns := c)) && NumClients(c) == NumClients(d.conns)
  {
    TableKeeps(d, e);
    NumClientsAppend(d.conns, [Other]);
    if e.Unregister? && e.i < |d.conns| {
      NumClientsRemoveAt(d.conns, e.i);
    }
  }

  lemma LikeNothing(d: Daemon, s: Ideal, env: seq<bool>)
    requires Like(d, s) && Willing(env)
    ensures Like(d.(env := env), Take(s, []))
  {
    EmitsNothing(d, d.(env := env));
    LikeTake(d, s, [], d.(env := env));
  }

  lemma LikeStep(d: Daemon, s: Ideal, e: Event)
    requires Good(d) && Like(d, s)
    ensures Like(Step(d, e), IdealStep(s, e))
  {
    if e.Close? {
      LikeClose(d, s, e);
    } else if e.Connect? {
      if NumClients(s.conns) == 0 {
        LikeFirst(d, s, e);
      } else {
        LikeNext(d, s, e);
      }
    } else {
      LikeTable(d, s, e);
      LikeOther(d.(conns := Table(d, e)), s.(conns := Table(d, e)), d, e);
    }
  }

  lemma LikeOther(t: Daemon, s: Ideal, d: Daemon, e: Event)
    requires Good(t) && Like(t, s) && !e.Close? && !e.Connect? && t == d.(conns := Table(d, e))
    ensures var r := Take(s, Produced(e, NumClients(s.conns) > 0));
            Like(Step(d, e), if e.AppOverflow? then r.(reported := r.reported + e.count) else r)
  {
    match e
    case Send(id) => LikeSend(t, s, true, Payload(id));
    case AppOverflow(n) => LikeSend(t, s, true, OverflowNotice(n));
    case Timer(p) => LikeSend(t, s, p && t.state == SendDirect, Time);
    case _ =>
      AskWilling(t);
      LikeNothing(t, s, Step(d, e).env);
  }

  lemma {:induction false} LikeRun(d: Daemon, s: Ideal, events: seq<Event>)
    requires Good(d) && Like(d, s)
    ensures Like(Run(d, events), IdealRun(s, events))
    decreases |events|
  {
    if events != [] {
      LikeStep(d, s, events[0]);
      StepKeeps(d, events[0]);
      LikeRun(Step(d, events[0]), IdealStep(s, events[0]), events[1..]);
    }
  }

  /** On every run in which nothing is refused, the daemon is the ideal one. */
  lemma WillingRunIsIdeal(table: seq<Conn>, env: seq<bool>, events: seq<Event>)
    requires NumClients(table) == 0 && Willing(env)
    ensures var (d, s) := (Run(Started(table, env), events), IdealRun(Ideal(table, [], [], [], 0), events));
            && d.conns == s.conns && d.ring == s.queue && d.hist.wire == s.wire && d.hist.accepted == s.accepted
            && d.state == (if NumClients(s.conns) > 0 then SendDirect else Buffer)
            && d.overflow == 0 && d.hist.rejected == 0 && d.hist.lost == [] && d.hist.reported == s.reported
  {
    StartedIsGood(table, env);
    LikeRun(Started(table, env), Ideal(table, [], [], [], 0), events);
  }

  function Sends(ids: seq<int>): (r: seq<Event>)
    ensures |r| == |ids|
  {
    seq(|ids|, i requires 0 <= i < |ids| => Send(ids[i]))
  }

  function Payloads(ids: seq<int>): (r: seq<Msg>)
    ensures |r| == |ids|
  {
    seq(|ids|, i requires 0 <= i < |ids| => Payload(ids[i]))
  }

  lemma {:induction false} IdealKeeps(s: Ideal, ids: seq<int>)
    requires NumClients(s.conns) == 0
    ensures IdealRun(s, Sends(ids)).queue == s.queue + Payloads(ids)
    decreases |ids|
  {
    if ids != [] {
      var s1 := IdealStep(s, Send(ids[0]));
      assert Sends(ids)[1..] == Sends(ids[1..]);
      IdealKeeps(s1, ids[1..]);
      assert s1.queue + Payloads(ids[1..]) == s.queue + Payloads(ids);
    }
  }

  /** Before any client connects, any number of messages are queued, all of them and in order, as long as there is room. */
  lemma AllQueued(table: seq<Conn>, env: seq<bool>, ids: seq<int>)
    requires NumClients(table) == 0 && Willing(env)
    ensures var d := Run(Started(table, env), Sends(ids)); d.ring == Payloads(ids) && d.hist.rejected == 0
  {
    WillingRunIsIdeal(table, env, Sends(ids));
    IdealKeeps(Ideal(table, [], [], [], 0), ids);
  }
}
