/**
 When a message can be lost. The broadcast loop skips the poll-table entry behind
 a client it has just closed; if that entry is a client too and nobody else took
 the message, the message is neither sent nor queued, and the sender is told Ok.
 */
module LoggingLoss {
  import opened LoggingSpec
  import opened LoggingInvariants

  function Yes(n: nat): seq<bool> {
    seq(n, _ => true)
  }

  /** The answers under which every client the loop visits refuses the message itself,
      while the messages about closed connections reach everybody left. */
  function RefuseAll(c: seq<Conn>, i: nat): seq<bool>
    decreases |c| - i
  {
    if i >= |c| then []
    else if !c[i].Client? then RefuseAll(c, i + 1)
    else
      var c' := RemoveAt(c, i);
      [false] + Yes(2 * NumClients(c')) + RefuseAll(c', i + 1)
  }

  lemma {:induction false} AllTake(d: Daemon, m: Msg, i: nat, sent: bool, level: nat, rest: seq<bool>)
    requires level <= 1 && i <= |d.conns| && d.env == Yes(NumClients(d.conns[i..])) + rest
    ensures var (r, sent') := Broadcast(d, m, i, sent, level);
            r == d.(env := rest, hist := d.hist.(wire := r.hist.wire)) && sent' == (sent || NumClients(d.conns[i..]) > 0)
    decreases |d.conns| - i
  {
    if i < |d.conns| {
      assert d.conns[i..][1..] == d.conns[i + 1..];
      var n := NumClients(d.conns[i + 1..]);
      var (d1, took) := Visit(d, m, i, level);
      assert took <==> d.conns[i].Client?;
      assert d1.env == Yes(n) + rest;
      AllTake(d1, m, i + 1, sent || took, level, rest);
    }
  }

  ghost predicate StillDirect(d: Daemon, r: Daemon, rest: seq<bool>) {
    r.state == SendDirect && r.overflow == 0 && r.conns == d.conns && r.hist.lost == d.hist.lost && r.env == rest
  }

  lemma DirectTaken(d: Daemon, m: Msg, level: nat, rest: seq<bool>)
    requires level <= 1 && d.state == SendDirect && d.overflow == 0 && NumClients(d.conns) > 0
    requires d.env == Yes(NumClients(d.conns)) + rest
    ensures StillDirect(d, SendAll(d, m, level).0, rest)
  {
    assert d.conns[0..] == d.conns;
    AllTake(d, m, 0, false, level, rest);
  }

  lemma CloseAnnounced(d: Daemon, level: nat, rest: seq<bool>)
    requires level <= 1 && d.state == SendDirect && d.overflow == 0 && NumClients(d.conns) > 0
    requires d.env == Yes(2 * NumClients(d.conns)) + rest
    ensures StillDirect(d, Unregistered(d, level), rest)
  {
    var n := NumClients(d.conns);
    assert d.env == Yes(n) + (Yes(n) + rest);
    DirectTaken(d, Disconnected, level, Yes(n) + rest);
    DirectTaken(SendAll(d, Disconnected, level).0, ClosedNote, level, rest);
  }

  /** At `k` there are two neighbouring clients ahead of the loop, or one it has skipped. */
  ghost predicate WillSkip(c: seq<Conn>, i: nat, k: nat) {
    || (i <= k < |c| - 1 && c[k].Client? && c[k + 1].Client?)
    || (k < i && k < |c| && c[k].Client?)
  }

  ghost predicate Refusing(d: Daemon, i: nat) {
    d.state == SendDirect && d.overflow == 0 && d.env == RefuseAll(d.conns, i)
  }

  lemma OneRefuses(d: Daemon, m: Msg, i: nat, k: nat) returns (k': nat)
    requires Refusing(d, i) && i < |d.conns| && WillSkip(d.conns, i, k)
    ensures var (r, took) := Visit(d, m, i, 0);
            !took && Refusing(r, i + 1) && r.hist.lost == d.hist.lost && |r.conns| <= |d.conns| && WillSkip(r.conns, i + 1, k')
  {
    if d.conns[i].Client? {
      var c' := RemoveAt(d.conns, i);
      k' := SomebodyLeft(d.conns, i, k);
      var rest := RefuseAll(c', i + 1);
      assert d.env[1..] == Yes(2 * NumClients(c')) + rest;
      CloseAnnounced(Slid(d, i).(env := d.env[1..], conns := c'), 0, rest);
    } else {
      k' := k;
    }
  }

  lemma SomebodyLeft(c: seq<Conn>, i: nat, k: nat) returns (k': nat)
    requires i < |c| && c[i].Client? && WillSkip(c, i, k)
    ensures NumClients(RemoveAt(c, i)) > 0 && WillSkip(RemoveAt(c, i), i + 1, k')
  {
    var c' := RemoveAt(c, i);
    k' := if k <= i then k else k - 1;
    assert k' < |c'| && c'[k'].Client?;
    NoClientIffZero(c');
  }

  /** Two neighbours ahead, or a client already skipped: the loop ends with nobody served and the state direct. */
  lemma {:induction false} RefusedByAll(d: Daemon, m: Msg, i: nat, k: nat)
    requires Refusing(d, i) && WillSkip(d.conns, i, k)
    ensures var (r, sent) := Broadcast(d, m, i, false, 0);
            !sent && r.state == SendDirect && r.overflow == 0 && r.hist.lost == d.hist.lost
    decreases |d.conns| - i
  {
    if i < |d.conns| {
      var k' := OneRefuses(d, m, i, k);
      RefusedByAll(Visit(d, m, i, 0).0, m, i + 1, k');
    }
  }

  lemma RefusedIsLost(d: Daemon, m: Msg, k: nat)
    requires Refusing(d, 0) && WillSkip(d.conns, 0, k)
    ensures var (r, res) := SendAll(d, m, 0);
            res == Ok && r.hist.lost == d.hist.lost + [m]
  {
    RefusedByAll(d, m, 0, k);
  }

  /** Two neighbouring clients are enough: some behaviour of the sockets loses the message. */
  lemma NeighboursCanLose(d: Daemon, m: Msg) returns (answers: seq<bool>)
    requires d.state == SendDirect && d.overflow == 0 && !NoAdjacentClients(d.conns)
    ensures var (r, res) := ClientSend(d.(env := answers), ToAll, m, 0);
            res == Ok && r.hist.lost == d.hist.lost + [m]
  {
    var k :| 0 <= k < |d.conns| - 1 && d.conns[k].Client? && d.conns[k + 1].Client?;
    answers := RefuseAll(d.conns, 0);
    RefusedIsLost(d.(env := answers), m, k);
  }

  /** In the direct state, a message can be lost if and only if two client entries are neighbours in the poll table. */
  lemma LossIffNeighbours(d: Daemon, m: Msg)
    requires Shape(d) && d.state == SendDirect
    ensures (exists env: seq<bool> :: ClientSend(d.(env := env), ToAll, m, 0).0.hist.lost != d.hist.lost)
            <==> !NoAdjacentClients(d.conns)
  {
    if NoAdjacentClients(d.conns) {
      forall env: seq<bool>
        ensures ClientSend(d.(env := env), ToAll, m, 0).0.hist.lost == d.hist.lost
      {
        ToAllFollows(d.(env := env), m, 0);
      }
    } else {
      var env := NeighboursCanLose(d, m);
      assert ClientSend(d.(env := env), ToAll, m, 0).0.hist.lost != d.hist.lost;
    }
  }

  // ---------------------------------------------------------------- a run that loses a message

  lemma FirstClient(env: seq<bool>)
    ensures var d := Step(Started([], Yes(2) + env), Connect(1, false, false));
            d.state == SendDirect && d.overflow == 0 && d.conns == [Client(1)] && d.env == env && d.hist.lost == []
  {
    var t := Started([Client(1)], Yes(2) + env);
    assert Table(Started([], Yes(2) + env), Connect(1, false, false)) == [Client(1)];
    var a := SendSpecific(t).0;
    assert a.env == Yes(1) + env;
    var b := Store(a, ConnectedNote).0.(state := SendBuffer);
    assert b.ring == [ConnectedNote];
    assert Announced(a) == SendRing(b).0;
    assert b.conns[0..] == b.conns;
    assert b.env == Yes(NumClients(b.conns)) + env;
    AllTake(b, ConnectedNote, 0, false, 0, env);
    var (f, res) := SendForce(b, ConnectedNote);
    assert res == Ok && f.overflow == 0 && f.ring == [ConnectedNote] && f.conns == b.conns && f.env == env;
  }

  lemma SecondClient(d: Daemon, env: seq<bool>)
    requires d.state == SendDirect && d.overflow == 0 && d.conns == [Client(1)] && d.env == Yes(3) + env && d.hist.lost == []
    ensures var r := Step(d, Connect(2, false, false));
            r.state == SendDirect && r.overflow == 0 && r.conns == [Client(1), Client(2)] && r.env == env && r.hist.lost == []
  {
    var t := d.(conns := [Client(1), Client(2)]);
    assert Table(d, Connect(2, false, false)) == t.conns;
    var a := SendSpecific(t).0;
    assert a.env == Yes(2) + env;
    assert t.conns[1..] == [Client(2)] && NumClients(t.conns) == 2;
    DirectTaken(a, ConnectedNote, 0, env);
    assert a.conns[0..] == a.conns;
    AllTake(a, ConnectedNote, 0, false, 0, env);
  }

  /** Two clients connect one after the other, and the first fails to take the next message. */
  lemma TwoClientsLoseAMessage() returns (answers: seq<bool>)
    ensures var d := Run(Started([], answers), [Connect(1, false, false), Connect(2, false, false), Send(7)]);
            d.hist.lost == [Payload(7)]
  {
    var c := [Client(1), Client(2)];
    var refuse := RefuseAll(c, 0);
    answers := Yes(2) + (Yes(3) + refuse);
    var events := [Connect(1, false, false), Connect(2, false, false), Send(7)];
    var d0 := Started([], answers);
    FirstClient(Yes(3) + refuse);
    var d1 := Step(d0, events[0]);
    SecondClient(d1, refuse);
    var d2 := Step(d1, events[1]);
    RefusedIsLost(d2, Payload(7), 0);
    assert d2.(conns := Table(d2, events[2])) == d2;
    var d3 := Step(d2, events[2]);
    assert events[1..][0] == events[1] && events[1..][1..][0] == events[2];
    assert Run(d0, events) == Run(d1, events[1..]) == Run(d2, events[1..][1..]) == Run(d3, events[1..][1..][1..]) == d3;
  }
}
