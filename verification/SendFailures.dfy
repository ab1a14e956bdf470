/** What a hard send failure or an error bit leaves behind, and what the send thread does to the
    connection if it gets to it before the connection is closed. */
module SendFailures {
  import opened Common
  import opened ServerState
  import opened ServerInvariant
  import opened Sending
  import opened Ownership
  import opened ServerRuns
  import opened SmallRuns

  // ---- What the two failures leave behind ----

  /** The handler keeps the send fields consistent exactly when the send does not fail for good:
      otherwise EPOLLOUT stays set with nothing to send. */
  lemma WriteEventKeepsSendOk(s: Server, c: nat, r: SendResult)
    requires c < |s.conns| && Sound(c, s.conns[c]) && s.conns[c].place == InUse && s.conns[c].sendMem.Some?
    requires r.Sent? ==> r.n <= s.conns[c].left && s.conns[c].sent + r.n <= |Data(s.conns[c].sendMem.value)|
    ensures SendOk(WriteEvent(s, c, r).conns[c]) <==> r.Sent? || r.Again?
  {
    if r.Sent? {
      WriteKeepsSound(s, c, r.n);
      WriteKeepsPlace(s, c, r.n);
    }
  }

  lemma WriteKeepsPlace(s: Server, c: nat, n: nat)
    requires c < |s.conns| && s.conns[c].sendMem.Some? && n <= s.conns[c].left
    requires s.conns[c].sent + n <= |Data(s.conns[c].sendMem.value)|
    ensures WriteMore(s, c, n).conns[c].place == s.conns[c].place
  {
  }

  /** The error-bit branch never leaves them consistent: the counter drops, whether or not a packet
      is in flight, and nothing else changes. */
  lemma ErrorBitsBreakSendOk(s: Server, c: nat)
    requires c < |s.conns| && s.conns[c].place == InUse && SendOk(s.conns[c])
    ensures var k := ErrorBits(s, c).conns[c];
            !SendOk(k) && k.sendMem == s.conns[c].sendMem && k.epollOut == s.conns[c].epollOut &&
            k.throwCount == (if k.sendMem.Some? then 0 else -1)
  {
  }

  // ---- Before the connection is closed ----

  /** The send thread wakes up and starts the message that waits. */
  function Pass(): seq<Step> { [SendBegin] + [SendNext(Sent(8))] }

  /** `done` bytes of a packet are sent, the connection does not count as sending any more, and
      another message waits. */
  predicate Broken(s: Server, done: nat) {
    |s.conns| == 2 && done < 8 && s.conns[1].place == InUse && s.conns[1].throwCount == 0 && s.conns[1].wire == Ping()[..done] &&
    |s.conns[1].picks| == 1 && !s.conns[1].picks[0].lost && s.conns[1].picks[0].msg.pkt == Ping() &&
    s.pass == None && s.sem > 0 && s.sendN == 1 == |s.sendQ| && s.sendQ[0].h == Current(s.conns, 1) && s.sendQ[0].pkt == Ping()
  }

  lemma ErrorIsBroken(s: Server, done: nat)
    requires Parked(s, 1, done)
    ensures Broken(ErrorBits(s, 1), done)
  {
  }

  lemma FailureIsBroken(s: Server, done: nat)
    requires Parked(s, 1, done)
    ensures Broken(WriteFailed(s, 1), done)
  {
  }

  /** The state in which the pass starts the waiting message. */
  function Woken(s: Server): Server
    requires s.sem > 0
  {
    s.(sem := s.sem - 1, pass := Some(0))
  }

  lemma PassStartsNext(s: Server, done: nat)
    requires Broken(s, done)
    ensures Runs(SMALL, s, Pass()) && After(SMALL, s, Pass()) == PickQueued(Woken(s), 0, Sent(8))
  {
    RunsOne(SMALL, s, SendBegin);
    RunsOne(SMALL, Woken(s), SendNext(Sent(8)));
    RunsAppend(SMALL, s, [SendBegin], [SendNext(Sent(8))]);
  }

  lemma SendsWhole(k: Conn, m: Msg)
    requires m.pkt == Ping()
    ensures Data(m) == Ping()
    ensures SendFirst(k, m, Sent(8)).wire == k.wire + Ping() && SendFirst(k, m, Sent(8)).picks == k.picks + [Pick(m, false)]
  {
  }

  /** The kernel was given something other than the packets one after the other. */
  predicate Garbled(s: Server, c: nat) {
    c < |s.conns| && !(s.conns[c].wire <= Carried(s.conns[c].picks))
  }

  lemma CarriedTwo(p: Pick, q: Pick)
    requires !p.lost && !q.lost
    ensures Carried([p] + [q]) == Data(p.msg) + Data(q.msg)
  {
    CarriedStep([], p);
    CarriedStep([p], q);
    assert [] + [p] == [p];
  }

  /** What the kernel then has: part of the first packet, and the second right behind it. */
  lemma PassGarbles(s: Server, done: nat)
    requires Broken(s, done) && 0 < done
    ensures Garbled(PickQueued(Woken(s), 0, Sent(8)), 1)
  {
    var p, m := s.conns[1].picks[0], s.sendQ[0];
    SendsWhole(s.conns[1], m);
    SendsWhole(s.conns[1], p.msg);
    CarriedTwo(p, Pick(m, false));
    assert s.conns[1].picks == [p];
    Misplaced(done);
    assert PickQueued(Woken(s), 0, Sent(8)).conns == s.conns[1 := SendFirst(s.conns[1], m, Sent(8))];
  }

  /** The length byte of the second packet is where the first packet has another byte. */
  lemma Misplaced(done: nat)
    requires 0 < done < 8
    ensures !(Ping()[..done] + Ping() <= Ping() + Ping())
  {
    var garbled := Ping()[..done] + Ping();
    assert garbled[done + 1] == 8;
    assert (Ping() + Ping())[done + 1] == 0 || done == 0;
  }

  function HalfSentRun(): Run { Run(SMALL, 0, ParkedSteps(3)) }

  /** An error bit while a packet is in flight: the next pass overwrites psendMemPointer, so that the
      packet's block is never freed, and the client gets half a packet followed by another one. */
  lemma ErrorBitsLoseBlock()
    ensures IsRun(HalfSentRun()) && Parked(Reached(HalfSentRun()), 1, 3)
    ensures var s := ErrorBits(Reached(HalfSentRun()), 1);
            Runs(SMALL, s, Pass()) && !OwnedOnce(After(SMALL, s, Pass())) && Garbled(After(SMALL, s, Pass()), 1)
  {
    hide Next, Enabled;
    ParkedRuns(3);
    ReachedInv(HalfSentRun());
    var s := ErrorBits(Reached(HalfSentRun()), 1);
    ErrorIsBroken(Reached(HalfSentRun()), 3);
    PassStartsNext(s, 3);
    PassGarbles(s, 3);
    ErrorLeavesOwned(Reached(HalfSentRun()));
    PickOwnsOnce(Woken(s), 0, Sent(8));
  }

  lemma ErrorLeavesOwned(s: Server)
    requires OwnedOnce(s) && 1 < |s.conns| && s.sem > 0
    ensures OwnedOnce(Woken(ErrorBits(s, 1)))
  {
    TouchKeepsOwned(s, 1, ErrorBits(s, 1).conns[1]);
  }

  /** A write that fails for good: the block is freed, but the client still gets half a packet
      followed by another one. */
  lemma FailedWriteGarbles()
    ensures IsRun(HalfSentRun()) && Parked(Reached(HalfSentRun()), 1, 3)
    ensures var s := WriteFailed(Reached(HalfSentRun()), 1);
            Runs(SMALL, s, Pass()) && Garbled(After(SMALL, s, Pass()), 1)
  {
    hide Next, Enabled;
    ParkedRuns(3);
    FailureIsBroken(Reached(HalfSentRun()), 3);
    PassStartsNext(WriteFailed(Reached(HalfSentRun()), 1), 3);
    PassGarbles(WriteFailed(Reached(HalfSentRun()), 1), 3);
  }
}
