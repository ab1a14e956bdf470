/** A small server and a client that asks for replies: runs from the start of the server into states in
    which packets are queued or in flight. */
module SmallRuns {
  import opened Common
  import opened Framing
  import opened ServerState
  import opened ServerRuns

  /** One listening port, room for one client, no timers. */
  const SMALL := Config(1, 1, 0, false, 5, false)

  /** A ping, and its answer: a packet without a body and with code 0. */
  function Ping(): Packet { [0, 8, 0, 0, 0, 0, 0, 0] }

  /** Connection 0 listens and connection 1 is the client; n replies are queued for it, nothing is sent yet. */
  predicate Waiting(s: Server, n: nat) {
    |s.conns| == 2 && s.recvQ == [] && s.held == [] && s.pass == None && s.sem == n && s.sendN == n == |s.sendQ| &&
    Fresh(s.conns[1], n, s.sendQ) && forall i :: 0 <= i < n ==> s.sendQ[i].h == Current(s.conns, 1) && s.sendQ[i].pkt == Ping()
  }

  predicate Fresh(k: Conn, n: nat, q: seq<Msg>) {
    k.place == InUse && !k.listener && k.rx == INITIAL && k.recvMem == None && k.sendMem == None && k.throwCount == 0 &&
    k.sendCount == n && k.enqueued == q && k.picks == [] && k.wire == []
  }

  lemma SmallStart()
    ensures var s := Initial(SMALL, 0);
            |s.conns| == 1 && s.conns[0].listener && s.conns[0].place == InUse && s.free == [] && s.recvQ == [] &&
            s.held == [] && s.sendQ == [] && s.sendN == 0 && s.sem == 0 && s.pass == None && s.online == 0
  {
    var p := PoolOf(1, 0);
    assert p.free == [0];
    assert Listen(p, 1) == Listen(ListenOne(p), 0) == ListenOne(p);
  }

  lemma FirstClient()
    ensures var s := Initial(SMALL, 0);
            Runs(SMALL, s, [Accepting(0, true)]) && Waiting(After(SMALL, s, [Accepting(0, true)]), 0)
  {
    var s := Initial(SMALL, 0);
    SmallStart();
    RunsOne(SMALL, s, Accepting(0, true));
  }

  function Request(): seq<Step> { [Reading(1, Ping(), false), Taking] }
  function Answer(): seq<Step> { [Checking(0, true), Replying(0, true, Some(Ping()))] }

  /** The client's request is in the hands of a worker. */
  predicate Asked(s: Server, n: nat) {
    |s.held| == 1 && !s.held[0].checked && s.held[0].msg.h.conn == 1 && Waiting(s.(held := []), n) &&
    s.held[0].msg.h == Current(s.conns, 1)
  }

  lemma RequestRuns(s: Server, n: nat)
    requires Waiting(s, n)
    ensures Runs(SMALL, s, Request()) && Asked(After(SMALL, s, Request()), n)
  {
    var step := Reading(1, Ping(), false);
    assert CanReceive(s, 1, Ping());
    RunsOne(SMALL, s, step);
    var s1 := Next(SMALL, s, step);
    assert [] + Ping() == Ping() && [] + [Msg(Current(s.conns, 1), s.next, Ping())] == s1.recvQ;
    RunsOne(SMALL, s1, Taking);
    RunsAppend(SMALL, s, [step], [Taking]);
    assert Request() == [step] + [Taking];
  }

  lemma AnswerRuns(s: Server, n: nat)
    requires Asked(s, n) && n < 3
    ensures Runs(SMALL, s, Answer()) && Waiting(After(SMALL, s, Answer()), n + 1)
  {
    RunsOne(SMALL, s, Checking(0, true));
    var s1 := Next(SMALL, s, Checking(0, true));
    RunsOne(SMALL, s1, Replying(0, true, Some(Ping())));
    RunsAppend(SMALL, s, [Checking(0, true)], [Replying(0, true, Some(Ping()))]);
    assert Answer() == [Checking(0, true)] + [Replying(0, true, Some(Ping()))];
  }

  /** A client that asks n times before the send thread runs. */
  function Asking(n: nat): seq<Step> {
    if n == 0 then [Accepting(0, true)] else Asking(n - 1) + (Request() + Answer())
  }

  lemma {:induction false} AskingRuns(n: nat)
    requires n <= 3
    ensures Runs(SMALL, Initial(SMALL, 0), Asking(n)) && Waiting(After(SMALL, Initial(SMALL, 0), Asking(n)), n)
  {
    hide Next, Enabled;
    var s := Initial(SMALL, 0);
    if n == 0 {
      FirstClient();
    } else {
      AskingRuns(n - 1);
      var s1 := After(SMALL, s, Asking(n - 1));
      RequestRuns(s1, n - 1);
      AnswerRuns(After(SMALL, s1, Request()), n - 1);
      RunsAppend(SMALL, s1, Request(), Answer());
      RunsAppend(SMALL, s, Asking(n - 1), Request() + Answer());
    }
  }

  // ---- A packet in flight and another one waiting ----

  /** `done` bytes of a packet are sent; one more message is queued behind it; n wake-ups are left. */
  predicate Parked(s: Server, n: nat, done: nat) {
    |s.conns| == 2 && done < 8 && InFlight(s.conns[1], done) && s.pass == None &&
    s.sem == n && s.sendN == 1 == |s.sendQ| && s.sendQ[0].h == Current(s.conns, 1) && s.sendQ[0].pkt == Ping()
  }

  predicate InFlight(k: Conn, done: nat)
    requires done < 8
  {
    k.place == InUse && !k.listener && k.throwCount == 1 && k.sendMem.Some? && k.sendMem.value.pkt == Ping() &&
    k.sent == done && k.left == 8 - done && k.wire == Ping()[..done] && k.picks == [Pick(k.sendMem.value, false)]
  }

  /** What the first send() of a packet returns when it takes `done` of its bytes. */
  function Taken(done: nat): SendResult {
    if done == 0 then Again else Sent(done)
  }

  /** The send thread has just started the first of two packets. */
  predicate Started(s: Server, done: nat) {
    |s.conns| == 2 && done < 8 && InFlight(s.conns[1], done) && s.pass == Some(0) &&
    s.sem == 1 && s.sendN == 1 == |s.sendQ| && s.sendQ[0].h == Current(s.conns, 1) && s.sendQ[0].pkt == Ping()
  }

  function Starting(done: nat): seq<Step> { [SendBegin] + [SendNext(Taken(done))] }

  lemma PassStarts(s: Server, done: nat)
    requires Waiting(s, 2) && done < 8
    ensures Runs(SMALL, s, Starting(done)) && Started(After(SMALL, s, Starting(done)), done)
  {
    var r := Taken(done);
    RunsOne(SMALL, s, SendBegin);
    var s1 := Next(SMALL, s, SendBegin);
    RunsOne(SMALL, s1, SendNext(r));
    RunsAppend(SMALL, s, [SendBegin], [SendNext(r)]);
    assert [] + Ping()[..done] == Ping()[..done] && [] + [Pick(s.sendQ[0], false)] == [Pick(s.sendQ[0], false)];
  }

  function Skipping(): seq<Step> { [SendNext(Again)] + [SendEnd] }

  lemma PassSkips(s: Server, done: nat)
    requires Started(s, done)
    ensures Runs(SMALL, s, Skipping()) && Parked(After(SMALL, s, Skipping()), 1, done)
  {
    RunsOne(SMALL, s, SendNext(Again));
    var s1 := Next(SMALL, s, SendNext(Again));
    RunsOne(SMALL, s1, SendEnd);
    RunsAppend(SMALL, s, [SendNext(Again)], [SendEnd]);
  }

  function ParkedSteps(done: nat): seq<Step> { Asking(2) + Starting(done) + Skipping() }

  lemma ParkedRuns(done: nat)
    requires done < 8
    ensures IsRun(Run(SMALL, 0, ParkedSteps(done))) && Parked(Reached(Run(SMALL, 0, ParkedSteps(done))), 1, done)
  {
    hide Next, Enabled;
    var s := Initial(SMALL, 0);
    AskingRuns(2);
    var s1 := After(SMALL, s, Asking(2));
    PassStarts(s1, done);
    RunsAppend(SMALL, s, Asking(2), Starting(done));
    PassSkips(After(SMALL, s1, Starting(done)), done);
    RunsAppend(SMALL, s, Asking(2) + Starting(done), Skipping());
  }
}
