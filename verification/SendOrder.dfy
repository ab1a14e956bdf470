/** The order in which the packets of one connection are started, and the two places where the send
    protocol depends on how its steps interleave. */
module SendOrder {
  import opened Bits
  import opened Common
  import opened Framing
  import opened Timers
  import opened ServerState
  import opened ServerInvariant
  import opened ConnectionPool
  import opened Incarnations
  import opened Sending
  import opened Ownership
  import opened ServerSteps
  import opened ServerRuns

  /** The messages of a connection in use were queued in the order in which they were, or will be, picked. */
  predicate InOrder(conns: seq<Conn>, sendQ: seq<Msg>, c: nat)
    requires c < |conns|
  {
    conns[c].enqueued == PickMsgs(conns[c].picks) + QueueOf(sendQ, Current(conns, c))
  }

  predicate OrderFit(conns: seq<Conn>, sendQ: seq<Msg>) {
    forall c :: 0 <= c < |conns| && conns[c].place == InUse ==> InOrder(conns, sendQ, c)
  }

  predicate OrderOk(s: Server) {
    OrderFit(s.conns, s.sendQ)
  }

  /** During a pass the send thread has passed over blocked messages only. */
  predicate SkippedOk(s: Server) {
    s.pass.Some? ==> StrandFit(s.conns, s.sendQ, 0, s.pass)
  }

  // ---- Steps that leave the queue alone ----

  /** A connection in use keeps its messages, or is new and has none. */
  predicate KeepsLedger(conns: seq<Conn>, conns': seq<Conn>, sendQ: seq<Msg>) {
    forall c :: 0 <= c < |conns'| && conns'[c].place == InUse ==>
      (c < |conns| && SameAccount(conns[c], conns'[c])) ||
      (conns'[c].enqueued == [] && conns'[c].picks == [] && QueueOf(sendQ, Current(conns', c)) == [])
  }

  predicate KeepsSending(conns: seq<Conn>, conns': seq<Conn>) {
    |conns| <= |conns'| &&
    forall c :: 0 <= c < |conns| && conns[c].place == InUse && conns[c].throwCount > 0 && conns'[c].sequence == conns[c].sequence ==>
      conns'[c].throwCount > 0
  }

  predicate Quietly(s: Server, s': Server) {
    s'.sendQ == s.sendQ && s'.pass == s.pass && KeepsLedger(s.conns, s'.conns, s.sendQ) &&
    Evolves(s.conns, s'.conns) && KeepsSending(s.conns, s'.conns)
  }

  lemma QuietlyKeepsOrder(s: Server, s': Server)
    requires OrderOk(s) && Quietly(s, s')
    ensures OrderOk(s')
  {
    forall c | 0 <= c < |s'.conns| && s'.conns[c].place == InUse
      ensures InOrder(s'.conns, s'.sendQ, c)
    {
      if c < |s.conns| && SameAccount(s.conns[c], s'.conns[c]) {
        assert InOrder(s.conns, s.sendQ, c) && Current(s'.conns, c) == Current(s.conns, c);
      }
    }
  }

  lemma QuietlyKeepsSkipped(s: Server, s': Server)
    requires SkippedOk(s) && HeadersOk(s) && Quietly(s, s')
    ensures SkippedOk(s')
  {
    forall i | 0 <= i < |s.sendQ|
      ensures Blocked(s.conns, s.sendQ[i].h) ==> Blocked(s'.conns, s.sendQ[i].h)
    {
      var h := s.sendQ[i].h;
      assert HeaderOk(s.conns, h) && Later(s.conns[h.conn], s'.conns[h.conn]);
    }
  }

  /** A change of one connection that concerns neither its messages nor whether it is sending. */
  lemma TouchIsQuiet(s: Server, s': Server, c: nat)
    requires c < |s.conns| && c < |s'.conns| && s'.conns == s.conns[c := s'.conns[c]] && s'.sendQ == s.sendQ && s'.pass == s.pass
    requires SameAccount(s.conns[c], s'.conns[c]) && s'.conns[c].throwCount == s.conns[c].throwCount
    ensures Quietly(s, s')
  {
  }

  lemma GetIsQuiet(s: Server, s1: Server, c: nat)
    requires HeadersOk(s) && HandedOut(s, s1, c)
    ensures Quietly(s, s1)
  {
    GetEvolves(s, s1, c);
    QueueOfNone(s.sendQ, Current(s1.conns, c));
  }

  /** Closing a connection whose send fields may be in disorder. */
  lemma CloseIsQuiet(cfg: Config, s: Server, s1: Server, c: nat)
    requires PoolOk(cfg, s1) && Closable(s1, c) && c < |s.conns| && s1.conns == s.conns[c := s1.conns[c]]
    requires SamePlace(s.conns[c], s1.conns[c]) && s1.sendQ == s.sendQ && s1.pass == s.pass
    ensures Quietly(s, CloseConn(cfg, s1, c))
  {
    CloseEffect(cfg, s1, c);
  }

  lemma FreeIsQuiet(s: Server, s1: Server, c: nat, k: Conn)
    requires c < |s.conns| && s1.conns == s.conns[c := k] && s.conns[c].place != InUse && k.place == Free
    requires k.sequence > s.conns[c].sequence && k.inc >= s.conns[c].inc && k.listener == s.conns[c].listener
    requires s1.sendQ == s.sendQ && s1.pass == s.pass
    ensures Quietly(s, s1)
  {
  }

  lemma AcceptIsQuiet(cfg: Config, s: Server, registered: bool)
    requires Inv(cfg, s) && FreeValid(s)
    ensures Quietly(s, Accept(cfg, s, registered))
  {
    if Admits(cfg, s) {
      var (s1, c) := GetConnection(s);
      GetEffect(cfg, s);
      if registered {
        GetIsQuiet(s, s1, c);
      } else {
        GiveBackIsQuiet(s, s1, c);
      }
    } else {
      SameIsQuiet(s);
    }
  }

  lemma SameIsQuiet(s: Server)
    ensures Quietly(s, s)
  {
  }

  lemma GiveBackIsQuiet(s: Server, s1: Server, c: nat)
    requires HandedOut(s, s1, c)
    ensures Quietly(s, GiveBack(s1, c))
  {
  }

  lemma ReadIsQuiet(cfg: Config, s: Server, c: nat, chunk: seq<Byte>, flood: bool)
    requires Inv(cfg, s) && CanReceive(s, c, chunk)
    ensures Quietly(s, Read(cfg, s, c, chunk, flood))
  {
    var s1 := ReceiveBytes(s, c, chunk, flood).0;
    ReceiveKeepsInv(cfg, s, c, chunk, flood);
    ReceiveFields(s, c, chunk, flood);
    ReceiveMoves(s, c, chunk, flood);
    TouchIsQuiet(s, s1, c);
    if ReceiveBytes(s, c, chunk, flood).1 {
      CloseIsQuiet(cfg, s, s1, c);
    }
  }

  lemma FailedIsQuiet(cfg: Config, s: Server, c: nat)
    requires Inv(cfg, s) && Closable(s, c)
    ensures Quietly(s, CloseConn(cfg, WriteFailed(s, c), c))
  {
    FailedKeepsInv(cfg, s, c);
    CloseIsQuiet(cfg, s, WriteFailed(s, c), c);
  }

  lemma ErrorIsQuiet(cfg: Config, s: Server, c: nat)
    requires Inv(cfg, s) && Closable(s, c)
    ensures Quietly(s, CloseConn(cfg, ErrorBits(s, c), c))
  {
    ErrorKeepsInv(cfg, s, c);
    CloseIsQuiet(cfg, s, ErrorBits(s, c), c);
  }

  lemma WriteIsQuiet(cfg: Config, s: Server, c: nat, n: nat)
    requires Inv(cfg, s) && IsClient(s, c) && s.conns[c].sendMem.Some? && n <= s.conns[c].left
    requires s.conns[c].sent + n <= |Data(s.conns[c].sendMem.value)|
    ensures var s' := WriteMore(s, c, n);
            s'.sendQ == s.sendQ && s'.pass == s.pass && KeepsLedger(s.conns, s'.conns, s.sendQ) &&
            (n < s.conns[c].left ==> Quietly(s, s'))
  {
    WriteMoves(s, c, n);
    if n < s.conns[c].left {
      TouchIsQuiet(s, WriteMore(s, c, n), c);
    }
  }

  lemma RecycleIsQuiet(cfg: Config, s: Server, i: nat)
    requires Inv(cfg, s) && i < |s.recy|
    ensures Quietly(s, RecycleOne(s, i))
  {
    FreeIsQuiet(s, RecycleOne(s, i), s.recy[i], PutOneToFree(s.conns[s.recy[i]]));
  }

  lemma KickIsQuiet(cfg: Config, s: Server)
    requires Inv(cfg, s) && s.idle != [] && s.idle[0].h.conn < |s.conns|
    ensures Quietly(s, CheckIdle(cfg, s))
  {
    assert HeaderOk(s.conns, s.idle[0].h);
    if Kicks(cfg, s, s.idle[0].h) {
      CloseIsQuiet(cfg, s, s, s.idle[0].h.conn);
    } else {
      SameIsQuiet(s);
    }
  }

  // ---- Queueing ----

  lemma EnqueueKeepsOrder(s: Server, h: Header, pkt: Packet)
    requires OrderOk(s) && HeaderOk(s.conns, h) && NotRecycled(s.conns, h)
    ensures OrderOk(Enqueue(s, h, pkt))
  {
    var s', m := Enqueue(s, h, pkt), Msg(h, s.next, pkt);
    forall c | 0 <= c < |s'.conns| && s'.conns[c].place == InUse
      ensures InOrder(s'.conns, s'.sendQ, c)
    {
      var cur := Current(s.conns, c);
      assert InOrder(s.conns, s.sendQ, c) && Current(s'.conns, c) == cur;
      QueueOfSplit(s.sendQ, [m], cur);
      QueueOfOne(m, cur);
      Associate(PickMsgs(s.conns[c].picks), QueueOf(s.sendQ, cur), QueueOf([m], cur));
      assert QueueOf(s.sendQ, cur) + [] == QueueOf(s.sendQ, cur);
    }
  }

  lemma MsgSendKeepsOrder(cfg: Config, s: Server, h: Header, pkt: Packet)
    requires PoolOk(cfg, s) && OrderOk(s) && HeaderOk(s.conns, h) && NotRecycled(s.conns, h)
    ensures OrderOk(MsgSend(cfg, s, h, pkt))
  {
    assert PoolOk(cfg, Discard(s));
    CloseIsQuiet(cfg, s, Discard(s), h.conn);
    if s.sendN <= MAX_QUEUED && s.conns[h.conn].sendCount > MAX_PENDING {
      QuietlyKeepsOrder(s, CloseConn(cfg, Discard(s), h.conn));
    } else {
      EnqueueKeepsOrder(s, h, pkt);
    }
  }

  lemma ReplyKeepsOrder(cfg: Config, s: Server, h: Header, ping: bool, reply: Option<Packet>)
    requires Inv(cfg, s) && OrderOk(s) && HeaderOk(s.conns, h) && NotRecycled(s.conns, h)
    ensures OrderOk(Reply(cfg, s, h, ping, reply))
  {
    var k := s.conns[h.conn].(lastPing := s.now);
    var s1 := if ping then SetConn(s, h.conn, k) else s;
    if ping {
      TouchIsQuiet(s, s1, h.conn);
      QuietlyKeepsOrder(s, s1);
      TouchKeepsPool(cfg, s, h.conn, k);
      TouchKeepsHeader(s, h.conn, k, h);
    }
    if reply.Some? {
      MsgSendKeepsOrder(cfg, s1, h, reply.value);
    }
  }

  // ---- Picking ----

  lemma DropKeepsOrder(s: Server, p: nat)
    requires OrderOk(s) && p < |s.sendQ| && Stale(s.conns, s.sendQ[p].h)
    ensures OrderOk(DropQueued(s, p))
  {
    forall c | 0 <= c < |s.conns| && s.conns[c].place == InUse
      ensures InOrder(s.conns, RemoveAt(s.sendQ, p), c)
    {
      assert InOrder(s.conns, s.sendQ, c);
      QueueOfAround(s.sendQ, p, Current(s.conns, c));
      assert QueueOf(s.sendQ[..p], Current(s.conns, c)) + [] == QueueOf(s.sendQ[..p], Current(s.conns, c));
    }
  }

  lemma PickKeepsOthersInOrder(s: Server, p: nat, r: SendResult, c: nat)
    requires p < |s.sendQ| && s.sendQ[p].h.conn < |s.conns| && c < |s.conns| && c != s.sendQ[p].h.conn
    requires InOrder(s.conns, s.sendQ, c)
    ensures InOrder(PickQueued(s, p, r).conns, RemoveAt(s.sendQ, p), c)
  {
    var cur := Current(s.conns, c);
    QueueOfAround(s.sendQ, p, cur);
    assert QueueOf(s.sendQ[..p], cur) + [] == QueueOf(s.sendQ[..p], cur);
    assert Current(PickQueued(s, p, r).conns, c) == cur;
  }

  /** No message is twice in the send queue. */
  lemma QueuedOnce(s: Server, i: nat, j: nat)
    requires OwnedOnce(s) && i < j < |s.sendQ|
    ensures s.sendQ[i] != s.sendQ[j]
  {
    var id := s.sendQ[i].buf;
    MsgUsesRemove(s.sendQ, j, id);
    MsgUsesRemove(RemoveAt(s.sendQ, j), i, id);
    assert Owners(s, id) <= 1;
  }

  lemma {:induction false} QueueOfHas(q: seq<Msg>, h: Header, m: Msg)
    requires m in QueueOf(q, h)
    ensures m in q
  {
    if q[0] != m {
      QueueOfHas(q[1..], h, m);
    }
  }

  /** Of messages that are all different, taking one out of turn changes the order. */
  lemma OutOfTurn(done: seq<Msg>, front: seq<Msg>, m: Msg, rest: seq<Msg>)
    requires front != [] && front[0] != m
    ensures done + (front + [m] + rest) != done + [m] + (front + rest)
  {
    assert (done + (front + [m] + rest))[|done|] == front[0];
    assert (done + [m] + (front + rest))[|done|] == m;
  }

  /** The lists that decide: done before, in front, and behind the picked message. */
  lemma TurnDecides(done: seq<Msg>, front: seq<Msg>, m: Msg, rest: seq<Msg>)
    requires m !in front
    ensures done + (front + [m] + rest) == done + [m] + (front + rest) <==> front == []
  {
    if front == [] {
      assert done + ([] + [m] + rest) == done + [m] + ([] + rest);
    } else {
      OutOfTurn(done, front, m, rest);
    }
  }

  lemma NotInFront(s: Server, p: nat)
    requires OwnedOnce(s) && p < |s.sendQ|
    ensures s.sendQ[p] !in QueueOf(s.sendQ[..p], s.sendQ[p].h)
  {
    var m := s.sendQ[p];
    forall i | 0 <= i < p
      ensures s.sendQ[i] != m
    {
      QueuedOnce(s, i, p);
    }
    if m in QueueOf(s.sendQ[..p], m.h) {
      QueueOfHas(s.sendQ[..p], m.h, m);
    }
  }

  /** Picking keeps a connection's messages in order exactly when none of them is in front of the picked one. */
  lemma PickInOrder(s: Server, p: nat, r: SendResult)
    requires HeadersOk(s) && OwnedOnce(s) && p < |s.sendQ| && Pickable(s.conns, s.sendQ[p].h)
    requires InOrder(s.conns, s.sendQ, s.sendQ[p].h.conn)
    ensures InOrder(PickQueued(s, p, r).conns, RemoveAt(s.sendQ, p), s.sendQ[p].h.conn) <==>
            QueueOf(s.sendQ[..p], s.sendQ[p].h) == []
  {
    var m, c := s.sendQ[p], s.sendQ[p].h.conn;
    var k, k' := s.conns[c], SendFirst(s.conns[c], m, r);
    StartCounts(k, m, r);
    assert HeaderOk(s.conns, m.h) && Current(s.conns, c) == m.h && Current(s.conns[c := k'], c) == m.h;
    CarriedStep(k.picks, Pick(m, r.Gone? || r.Broken?));
    QueueOfAround(s.sendQ, p, m.h);
    NotInFront(s, p);
    TurnDecides(PickMsgs(k.picks), QueueOf(s.sendQ[..p], m.h), m, QueueOf(s.sendQ[p + 1..], m.h));
  }

  // ---- Steps ----

  /** The send thread picks a message only when it is the first one queued for its connection. */
  predicate InTurn(s: Server, step: Step) {
    step.SendNext? && s.pass.Some? && s.pass.value < |s.sendQ| && Pickable(s.conns, s.sendQ[s.pass.value].h) ==>
      QueueOf(s.sendQ[..s.pass.value], s.sendQ[s.pass.value].h) == []
  }

  lemma PickKeepsAllInOrder(s: Server, p: nat, r: SendResult)
    requires HeadersOk(s) && OwnedOnce(s) && OrderOk(s) && p < |s.sendQ| && Pickable(s.conns, s.sendQ[p].h)
    ensures OrderOk(PickQueued(s, p, r)) <==> QueueOf(s.sendQ[..p], s.sendQ[p].h) == []
  {
    var h := s.sendQ[p].h;
    PickIsInUse(s, p, r);
    PickInOrder(s, p, r);
    forall c | 0 <= c < |s.conns| && s.conns[c].place == InUse && c != h.conn
      ensures InOrder(PickQueued(s, p, r).conns, RemoveAt(s.sendQ, p), c)
    {
      PickKeepsOthersInOrder(s, p, r, c);
    }
  }

  lemma SendInOrder(cfg: Config, s: Server, r: SendResult)
    requires Inv(cfg, s) && OrderOk(s) && s.pass.Some? && s.pass.value < |s.sendQ| && s.sendQ[s.pass.value].h.conn < |s.conns|
    ensures OrderOk(SendStep(s, r)) <==> InTurn(s, SendNext(r))
  {
    var p := s.pass.value;
    var h := s.sendQ[p].h;
    if Stale(s.conns, h) {
      DropKeepsOrder(s, p);
    } else if Pickable(s.conns, h) {
      PickKeepsAllInOrder(s, p, r);
    }
  }

  lemma PickIsInUse(s: Server, p: nat, r: SendResult)
    requires HeadersOk(s) && p < |s.sendQ| && Pickable(s.conns, s.sendQ[p].h)
    ensures var s', c := PickQueued(s, p, r), s.sendQ[p].h.conn;
            |s'.conns| == |s.conns| && s'.conns[c].place == InUse && s.conns[c].place == InUse &&
            forall i :: 0 <= i < |s.conns| && i != c ==> s'.conns[i] == s.conns[i]
  {
    assert HeaderOk(s.conns, s.sendQ[p].h);
    StartCounts(s.conns[s.sendQ[p].h.conn], s.sendQ[p], r);
  }

  lemma EpollIsQuiet(cfg: Config, s: Server, step: Step)
    requires cfg.wait > 0 && Inv(cfg, s) && Enabled(cfg, s, step) && OfEpoll(step) && !step.Writing?
    ensures Quietly(s, Next(cfg, s, step))
  {
    match step
    case Accepting(_, registered) => AcceptIsQuiet(cfg, s, registered);
    case Reading(c, chunk, flood) => ReadIsQuiet(cfg, s, c, chunk, flood);
    case ReadClosed(c) => CloseIsQuiet(cfg, s, s, c);
    case WriteBroken(c) => FailedIsQuiet(cfg, s, c);
    case ErrorEvent(c) => ErrorIsQuiet(cfg, s, c);
  }

  /** The steps of the recycle and timer threads, and of workers that do not reply. */
  predicate OfOthers(step: Step) {
    step.Taking? || step.Checking? || step.Recycle? || step.Monitor? || step.PingCheck? || step.Tick?
  }

  lemma OthersAreQuiet(cfg: Config, s: Server, step: Step)
    requires cfg.wait > 0 && Inv(cfg, s) && Enabled(cfg, s, step) && OfOthers(step)
    ensures Quietly(s, Next(cfg, s, step))
  {
    if step.Recycle? {
      RecycleIsQuiet(cfg, s, step.i);
    } else if step.PingCheck? {
      KickIsQuiet(cfg, s);
    } else {
      NothingTouched(cfg, s, step);
      SameIsQuiet(s);
    }
  }

  lemma NothingTouched(cfg: Config, s: Server, step: Step)
    requires cfg.wait > 0 && Enabled(cfg, s, step) && OfOthers(step) && !step.Recycle? && !step.PingCheck?
    ensures var s' := Next(cfg, s, step); s'.conns == s.conns && s'.sendQ == s.sendQ && s'.pass == s.pass
  {
  }

  /** One step keeps every connection's messages in order exactly when it does not pick one out of turn. */
  lemma StepKeepsOrder(cfg: Config, s: Server, step: Step)
    requires cfg.wait > 0 && Inv(cfg, s) && OrderOk(s) && Enabled(cfg, s, step)
    ensures OrderOk(Next(cfg, s, step)) <==> InTurn(s, step)
  {
    if step.SendNext? {
      SendInOrder(cfg, s, step.r);
    } else if step.Writing? {
      WriteIsQuiet(cfg, s, step.c, step.n);
      LedgerKeepsOrder(s, WriteMore(s, step.c, step.n));
    } else if step.Replying? {
      ReplyKeepsOrder(cfg, s, s.held[step.i].msg.h, step.ping, step.reply);
    } else if step.SendBegin? || step.SendEnd? {
    } else {
      QuietStep(cfg, s, step);
      QuietlyKeepsOrder(s, Next(cfg, s, step));
    }
  }

  lemma QuietStep(cfg: Config, s: Server, step: Step)
    requires cfg.wait > 0 && Inv(cfg, s) && Enabled(cfg, s, step)
    requires (OfEpoll(step) && !step.Writing?) || OfOthers(step)
    ensures Quietly(s, Next(cfg, s, step))
  {
    if OfEpoll(step) {
      EpollIsQuiet(cfg, s, step);
    } else {
      OthersAreQuiet(cfg, s, step);
    }
  }

  lemma LedgerKeepsOrder(s: Server, s': Server)
    requires OrderOk(s) && s'.sendQ == s.sendQ && KeepsLedger(s.conns, s'.conns, s.sendQ)
    ensures OrderOk(s')
  {
    forall c | 0 <= c < |s'.conns| && s'.conns[c].place == InUse
      ensures InOrder(s'.conns, s'.sendQ, c)
    {
      if c < |s.conns| && SameAccount(s.conns[c], s'.conns[c]) {
        assert InOrder(s.conns, s.sendQ, c) && Current(s'.conns, c) == Current(s.conns, c);
      }
    }
  }

  // ---- Runs ----

  predicate AlwaysInOrder(cfg: Config, s: Server, steps: seq<Step>)
    requires cfg.wait > 0 && Runs(cfg, s, steps)
    decreases steps
  {
    OrderOk(s) && (steps == [] || AlwaysInOrder(cfg, Next(cfg, s, steps[0]), steps[1..]))
  }

  predicate AlwaysInTurn(cfg: Config, s: Server, steps: seq<Step>)
    requires cfg.wait > 0 && Runs(cfg, s, steps)
    decreases steps
  {
    steps == [] || (InTurn(s, steps[0]) && AlwaysInTurn(cfg, Next(cfg, s, steps[0]), steps[1..]))
  }

  /** Through a whole run the packets of each connection start in the order of msgSend exactly when
      the send thread never picks a message out of turn. */
  lemma {:induction false} OrderIffInTurn(cfg: Config, s: Server, steps: seq<Step>)
    requires cfg.wait > 0 && Inv(cfg, s) && OrderOk(s) && Runs(cfg, s, steps)
    ensures AlwaysInOrder(cfg, s, steps) <==> AlwaysInTurn(cfg, s, steps)
    decreases steps
  {
    if steps != [] {
      StepKeepsInv(cfg, s, steps[0]);
      StepKeepsOrder(cfg, s, steps[0]);
      if InTurn(s, steps[0]) {
        OrderIffInTurn(cfg, Next(cfg, s, steps[0]), steps[1..]);
      }
    }
  }

  /** No write event finishes a packet while the send thread is in the middle of a pass. */
  predicate WholePasses(cfg: Config, s: Server, steps: seq<Step>)
    requires cfg.wait > 0 && Runs(cfg, s, steps)
    decreases steps
  {
    steps == [] || (Undisturbed(s, steps[0]) && WholePasses(cfg, Next(cfg, s, steps[0]), steps[1..]))
  }

  predicate Undisturbed(s: Server, step: Step) {
    step.Writing? && step.c < |s.conns| && step.n == s.conns[step.c].left ==> s.pass == None
  }

  lemma SkippedMeansInTurn(s: Server, step: Step)
    requires HeadersOk(s) && SkippedOk(s)
    ensures InTurn(s, step)
  {
    if step.SendNext? && s.pass.Some? && s.pass.value < |s.sendQ| && Pickable(s.conns, s.sendQ[s.pass.value].h) {
      var p := s.pass.value;
      forall i | 0 <= i < p
        ensures s.sendQ[..p][i].h != s.sendQ[p].h
      {
      }
      QueueOfNone(s.sendQ[..p], s.sendQ[p].h);
    }
  }

  lemma SendKeepsSkipped(cfg: Config, s: Server, r: SendResult)
    requires Inv(cfg, s) && SkippedOk(s) && s.pass.Some? && s.pass.value < |s.sendQ| && s.sendQ[s.pass.value].h.conn < |s.conns|
    ensures SkippedOk(SendStep(s, r))
  {
    var p := s.pass.value;
    var h := s.sendQ[p].h;
    if Stale(s.conns, h) {
      DropKeepsStrand(s, p, 0);
    } else if IsSending(s.conns, h) {
      SkipKeepsStrand(s, p, 0);
    } else {
      PickKeepsStrand(s, p, r, 0);
    }
  }

  lemma StepKeepsSkipped(cfg: Config, s: Server, step: Step)
    requires cfg.wait > 0 && Inv(cfg, s) && SkippedOk(s) && Enabled(cfg, s, step) && Undisturbed(s, step)
    ensures SkippedOk(Next(cfg, s, step))
  {
    if step.SendNext? {
      SendKeepsSkipped(cfg, s, step.r);
    } else if step.Writing? {
      WriteIsQuiet(cfg, s, step.c, step.n);
      if step.n < s.conns[step.c].left {
        QuietlyKeepsSkipped(s, WriteMore(s, step.c, step.n));
      }
    } else if step.Replying? {
      ReplyKeepsSkipped(cfg, s, step.i, step.ping, step.reply);
    } else if step.SendBegin? || step.SendEnd? {
    } else {
      QuietStep(cfg, s, step);
      QuietlyKeepsSkipped(s, Next(cfg, s, step));
    }
  }

  lemma ReplyKeepsSkipped(cfg: Config, s: Server, i: nat, ping: bool, reply: Option<Packet>)
    requires Inv(cfg, s) && SkippedOk(s) && Enabled(cfg, s, Replying(i, ping, reply)) && cfg.wait > 0
    ensures SkippedOk(Next(cfg, s, Replying(i, ping, reply)))
  {
    var h := s.held[i].msg.h;
    if reply.None? {
      if ping {
        TouchIsQuiet(s, SetConn(s, h.conn, s.conns[h.conn].(lastPing := s.now)), h.conn);
        QuietlyKeepsSkipped(s, SetConn(s, h.conn, s.conns[h.conn].(lastPing := s.now)));
      }
    } else {
      ReplyKeepsPass(cfg, s, h, ping, reply);
    }
  }

  lemma ReplyKeepsPass(cfg: Config, s: Server, h: Header, ping: bool, reply: Option<Packet>)
    requires PoolOk(cfg, s) && HeaderOk(s.conns, h) && NotRecycled(s.conns, h)
    ensures Reply(cfg, s, h, ping, reply).pass == s.pass
  {
    var s1 := if ping then SetConn(s, h.conn, s.conns[h.conn].(lastPing := s.now)) else s;
    if ping {
      TouchKeepsPool(cfg, s, h.conn, s1.conns[h.conn]);
    }
    if reply.Some? && s1.sendN <= MAX_QUEUED && s1.conns[h.conn].sendCount > MAX_PENDING {
      assert PoolOk(cfg, Discard(s1));
      CloseEffect(cfg, Discard(s1), h.conn);
    }
  }

  /** When passes of the send thread and finishing write events do not overlap, packets of one
      incarnation start in the order of msgSend. */
  lemma {:induction false} WholePassesKeepOrder(cfg: Config, s: Server, steps: seq<Step>)
    requires cfg.wait > 0 && Inv(cfg, s) && OrderOk(s) && SkippedOk(s) && Runs(cfg, s, steps) && WholePasses(cfg, s, steps)
    ensures AlwaysInOrder(cfg, s, steps)
    decreases steps
  {
    if steps != [] {
      StepKeepsInv(cfg, s, steps[0]);
      SkippedMeansInTurn(s, steps[0]);
      StepKeepsOrder(cfg, s, steps[0]);
      StepKeepsSkipped(cfg, s, steps[0]);
      WholePassesKeepOrder(cfg, Next(cfg, s, steps[0]), steps[1..]);
    }
  }

  /** First in, first out per connection, from the start of the server. */
  lemma PacketsStartInOrder(run: Run)
    requires IsRun(run) && WholePasses(run.cfg, Initial(run.cfg, run.start), run.steps)
    ensures AlwaysInOrder(run.cfg, Initial(run.cfg, run.start), run.steps)
  {
    InitialInv(run.cfg, run.start);
    InitialIsOrdered(run.cfg, run.start);
    WholePassesKeepOrder(run.cfg, Initial(run.cfg, run.start), run.steps);
  }

  lemma InitialIsOrdered(cfg: Config, now: int)
    ensures OrderOk(Initial(cfg, now)) && SkippedOk(Initial(cfg, now))
  {
    InitialIsQuiet(cfg, now);
  }
}
