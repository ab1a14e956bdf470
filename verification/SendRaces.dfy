/** Two ways in which the send protocol depends on timing: a write event that finishes in the middle of
    a pass, and the write handler taken apart at the point where it posts the semaphore. */
module SendRaces {
  import opened Common
  import opened ServerState
  import opened ServerInvariant
  import opened Sending
  import opened ServerRuns
  import opened SendOrder
  import opened SmallRuns

  // ---- The write handler in two halves ----

  /** The last bytes are sent, EPOLLOUT is dropped, and the semaphore is posted ... */
  function Posted(s: Server, c: nat): Server
    requires c < |s.conns| && s.conns[c].sendMem.Some? && s.conns[c].sent <= |Data(s.conns[c].sendMem.value)|
  {
    var k := s.conns[c];
    s.(conns := s.conns[c := k.(epollOut := false, wire := k.wire + Data(k.sendMem.value)[k.sent..])], sem := s.sem + 1)
  }

  /** ... and only then the packet is freed and iThrowsendCount decremented. */
  function Released(s: Server, c: nat): Server
    requires c < |s.conns| && s.conns[c].sendMem.Some?
  {
    var k := s.conns[c];
    s.(conns := s.conns[c := k.(sendMem := None, throwCount := k.throwCount - 1)],
       freed := s.freed + multiset{k.sendMem.value.buf})
  }

  lemma HalvesMakeWhole(s: Server, c: nat)
    requires c < |s.conns| && Sound(c, s.conns[c]) && s.conns[c].place == InUse && s.conns[c].sendMem.Some?
    ensures s.conns[c].sent + s.conns[c].left == |Data(s.conns[c].sendMem.value)|
    ensures WriteMore(s, c, s.conns[c].left) == Released(Posted(s, c), c)
  {
    var k := s.conns[c];
    assert Data(k.sendMem.value)[k.sent..k.sent + k.left] == Data(k.sendMem.value)[k.sent..];
  }

  /** Nothing of this connection is queued where the send thread has already passed. */
  predicate NothingPassed(s: Server, c: nat)
    requires c < |s.conns|
  {
    forall i :: 0 <= i < |s.sendQ| && s.sendQ[i].h == Current(s.conns, c) ==> s.pass.Some? && s.pass.value <= i
  }

  /** The second half strands no message exactly when the semaphore is still positive, or no message
      for this connection was passed over. */
  lemma ReleaseStrands(s: Server, c: nat)
    requires StrandOk(s) && HeadersOk(s) && IsClient(s, c) && s.conns[c].sendMem.Some? && s.conns[c].throwCount == 1
    ensures StrandOk(Released(s, c)) <==> s.sem > 0 || NothingPassed(s, c)
  {
    var s' := Released(s, c);
    assert s'.sendQ == s.sendQ && s'.pass == s.pass && s'.sem == s.sem;
    forall i | 0 <= i < |s.sendQ|
      ensures s.sendQ[i].h == Current(s.conns, c) <==> s.sendQ[i].h.conn == c && !Stale(s.conns, s.sendQ[i].h)
      ensures Blocked(s'.conns, s.sendQ[i].h) <==> Blocked(s.conns, s.sendQ[i].h) && s.sendQ[i].h != Current(s.conns, c)
    {
      assert HeaderOk(s.conns, s.sendQ[i].h);
    }
    if s.sem == 0 && !NothingPassed(s, c) {
      var i :| 0 <= i < |s.sendQ| && s.sendQ[i].h == Current(s.conns, c) && !(s.pass.Some? && s.pass.value <= i);
      assert !Blocked(s'.conns, s.sendQ[i].h);
    }
  }

  // ---- A packet overtakes another ----

  predicate Blocking(s: Server) {
    |s.conns| == 2 && s.conns[1].place == InUse && !s.conns[1].listener && s.conns[1].throwCount == 1 && s.conns[1].epollOut &&
    s.conns[1].sendMem.Some? && s.conns[1].sendMem.value.pkt == Ping() && s.conns[1].sent == 0 && s.conns[1].left == 8 &&
    s.pass == Some(0) && |s.sendQ| == 2 &&
    forall i :: 0 <= i < 2 ==> s.sendQ[i].h == Current(s.conns, 1) && s.sendQ[i].pkt == Ping()
  }

  lemma PassBlocks(s: Server)
    requires Waiting(s, 3)
    ensures Runs(SMALL, s, [SendBegin, SendNext(Again)]) && Blocking(After(SMALL, s, [SendBegin, SendNext(Again)]))
  {
    RunsOne(SMALL, s, SendBegin);
    var s1 := Next(SMALL, s, SendBegin);
    RunsOne(SMALL, s1, SendNext(Again));
    RunsAppend(SMALL, s, [SendBegin], [SendNext(Again)]);
    assert [SendBegin, SendNext(Again)] == [SendBegin] + [SendNext(Again)];
  }

  lemma PassOvertakes(s: Server)
    requires Blocking(s)
    ensures Runs(SMALL, s, [SendNext(Again), Writing(1, 8)])
    ensures var s' := After(SMALL, s, [SendNext(Again), Writing(1, 8)]);
            Enabled(SMALL, s', SendNext(Sent(8))) && !InTurn(s', SendNext(Sent(8)))
  {
    RunsOne(SMALL, s, SendNext(Again));
    var s1 := Next(SMALL, s, SendNext(Again));
    RunsOne(SMALL, s1, Writing(1, 8));
    RunsAppend(SMALL, s, [SendNext(Again)], [Writing(1, 8)]);
    assert [SendNext(Again), Writing(1, 8)] == [SendNext(Again)] + [Writing(1, 8)];
    var s2 := Next(SMALL, s1, Writing(1, 8));
    assert s2.pass == Some(1) && s2.sendQ == s.sendQ && s2.sendQ[..1] == [s.sendQ[0]];
    QueueOfOne(s.sendQ[0], s.sendQ[1].h);
  }

  /** The first packet finds no room, the second is passed over, the first goes out by a write event,
      and the same pass starts the third. */
  function OvertakingRun(): Run {
    Run(SMALL, 0, Asking(3) + [SendBegin, SendNext(Again)] + [SendNext(Again), Writing(1, 8)] + [SendNext(Sent(8))])
  }

  lemma {:induction false} LastInTurn(cfg: Config, s: Server, steps: seq<Step>, step: Step)
    requires cfg.wait > 0 && Runs(cfg, s, steps) && Enabled(cfg, After(cfg, s, steps), step)
    requires Runs(cfg, s, steps + [step]) && AlwaysInTurn(cfg, s, steps + [step])
    ensures InTurn(After(cfg, s, steps), step)
    decreases steps
  {
    if steps != [] {
      assert (steps + [step])[1..] == steps[1..] + [step];
      LastInTurn(cfg, Next(cfg, s, steps[0]), steps[1..], step);
    }
  }

  lemma OvertakingRuns()
    ensures var front := Asking(3) + [SendBegin, SendNext(Again)] + [SendNext(Again), Writing(1, 8)];
            var s := Initial(SMALL, 0);
            Runs(SMALL, s, front) && Enabled(SMALL, After(SMALL, s, front), SendNext(Sent(8))) &&
            !InTurn(After(SMALL, s, front), SendNext(Sent(8)))
  {
    var s := Initial(SMALL, 0);
    AskingRuns(3);
    var s1 := After(SMALL, s, Asking(3));
    PassBlocks(s1);
    RunsAppend(SMALL, s, Asking(3), [SendBegin, SendNext(Again)]);
    PassOvertakes(After(SMALL, s1, [SendBegin, SendNext(Again)]));
    RunsAppend(SMALL, s, Asking(3) + [SendBegin, SendNext(Again)], [SendNext(Again), Writing(1, 8)]);
  }

  /** A write event in the middle of a pass lets a packet overtake an earlier one of the same connection. */
  lemma PacketsCanOvertake()
    ensures IsRun(OvertakingRun()) && !AlwaysInOrder(SMALL, Initial(SMALL, 0), OvertakingRun().steps)
  {
    var s, step := Initial(SMALL, 0), SendNext(Sent(8));
    var front := Asking(3) + [SendBegin, SendNext(Again)] + [SendNext(Again), Writing(1, 8)];
    OvertakingRuns();
    RunsOne(SMALL, After(SMALL, s, front), step);
    RunsAppend(SMALL, s, front, [step]);
    InitialInv(SMALL, 0);
    InitialIsOrdered(SMALL, 0);
    OrderIffInTurn(SMALL, s, front + [step]);
    if AlwaysInTurn(SMALL, s, front + [step]) {
      LastInTurn(SMALL, s, front, step);
    }
  }

  // ---- A message stranded by the order of the two halves ----

  function WakeAndSkip(): seq<Step> { [SendBegin] + [SendNext(Again)] + [SendEnd] }

  lemma WakeAndSkipRuns(s: Server, n: nat)
    requires Passed(s, n + 1)
    ensures Runs(SMALL, s, WakeAndSkip()) && Passed(After(SMALL, s, WakeAndSkip()), n)
    ensures After(SMALL, s, WakeAndSkip()).conns == s.conns
  {
    RunsOne(SMALL, s, SendBegin);
    var s1 := Next(SMALL, s, SendBegin);
    RunsOne(SMALL, s1, SendNext(Again));
    var s2 := Next(SMALL, s1, SendNext(Again));
    RunsOne(SMALL, s2, SendEnd);
    RunsAppend(SMALL, s, [SendBegin], [SendNext(Again)]);
    RunsAppend(SMALL, s, [SendBegin] + [SendNext(Again)], [SendEnd]);
  }

  /** A packet is in flight, n wake-ups are left, one message is queued behind it. */
  predicate Passed(s: Server, n: nat) {
    |s.conns| == 2 && s.conns[1].place == InUse && !s.conns[1].listener && s.conns[1].throwCount == 1 &&
    s.conns[1].sendMem.Some? && s.pass == None && s.sem == n && s.sendN == 1 == |s.sendQ| &&
    s.sendQ[0].h == Current(s.conns, 1) && Data(s.sendQ[0]) != [] && s.conns[1].sent <= |Data(s.conns[1].sendMem.value)|
  }

  lemma ParkedIsPassed(s: Server, n: nat, done: nat)
    requires Parked(s, n, done)
    ensures Passed(s, n)
  {
  }

  /** The send thread has looked at the waiting message once more and sleeps. */
  function AsleepRun(): Run {
    Run(SMALL, 0, ParkedSteps(0) + WakeAndSkip())
  }

  lemma AsleepRuns()
    ensures IsRun(AsleepRun()) && Passed(Reached(AsleepRun()), 0)
  {
    hide Next, Enabled;
    var s := Initial(SMALL, 0);
    ParkedRuns(0);
    ParkedIsPassed(After(SMALL, s, ParkedSteps(0)), 1, 0);
    WakeAndSkipRuns(After(SMALL, s, ParkedSteps(0)), 0);
    RunsAppend(SMALL, s, ParkedSteps(0), WakeAndSkip());
  }

  lemma PostedIsPassed(s: Server)
    requires Passed(s, 0)
    ensures Passed(Posted(s, 1), 1)
  {
  }

  lemma ReleasedStrands(s: Server)
    requires Passed(s, 0)
    ensures !StrandOk(Released(s, 1))
  {
    var s' := Released(s, 1);
    assert !Blocked(s'.conns, s'.sendQ[0].h);
  }

  /** If the send thread makes a pass between the two halves of the write handler, it uses up the
      wake-up while the connection still counts as sending, and the next message is stranded. */
  lemma SplitHandlerStrands()
    ensures IsRun(AsleepRun()) && Passed(Reached(AsleepRun()), 0)
    ensures Runs(SMALL, Posted(Reached(AsleepRun()), 1), WakeAndSkip())
    ensures var s := After(SMALL, Posted(Reached(AsleepRun()), 1), WakeAndSkip());
            Passed(s, 0) && !StrandOk(Released(s, 1))
  {
    hide Next, Enabled;
    AsleepRuns();
    var s := Reached(AsleepRun());
    PostedIsPassed(s);
    WakeAndSkipRuns(Posted(s, 1), 0);
    ReleasedStrands(After(SMALL, Posted(s, 1), WakeAndSkip()));
  }
}
