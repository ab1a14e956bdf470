/** What a run has done to a connection, told by its steps alone, and that the fields of the connection
    say the same: when the client was last heard from, what it sent, what was handed to the workers of
    it, and when it was closed. */
module Histories {
  import opened Bits
  import opened Common
  import opened Framing
  import opened Timers
  import opened ServerState
  import opened ServerInvariant
  import opened ConnectionPool
  import opened Incarnations
  import opened Sending
  import opened ServerSteps
  import opened ServerRuns

  // ---- What is told ----

  datatype History = History(
    heard: int,         // when the client was accepted, or a worker last handled a ping of it
    stream: seq<Byte>,  // what was received from the client
    handed: seq<Msg>,   // what was put into the receive queue of it
    closed: int)        // when the connection was last taken out of use

  /** What is behind the messages that were queued before. */
  function Queued(before: seq<Msg>, after: seq<Msg>): seq<Msg> {
    if |before| <= |after| then after[|before|..] else []
  }

  predicate Pings(s: Server, step: Step, c: nat) {
    step.Replying? && step.ping && step.i < |s.held| && s.held[step.i].msg.h.conn == c
  }

  predicate Reads(step: Step, c: nat) {
    step.Reading? && step.c == c
  }

  predicate InPlace(s: Server, c: nat, place: Place) {
    c < |s.conns| && s.conns[c].place == place
  }

  /** The history of connection c with one more step, which leads from s to s1. */
  function Record(s: Server, step: Step, s1: Server, c: nat, h: History): History {
    if IsClient(s1, c) && !IsClient(s, c) then h.(heard := s.now, stream := [], handed := [])
    else
      History(if Pings(s, step, c) then s.now else h.heard,
              if Reads(step, c) then h.stream + step.chunk else h.stream,
              if Reads(step, c) then h.handed + Queued(s.recvQ, s1.recvQ) else h.handed,
              if InPlace(s, c, InUse) && InPlace(s1, c, Recycling) then s.now else h.closed)
  }

  function Recall(cfg: Config, s: Server, steps: seq<Step>, c: nat, h: History): History
    requires cfg.wait > 0 && Runs(cfg, s, steps)
    decreases steps
  {
    if steps == [] then h
    else
      var s1 := Next(cfg, s, steps[0]);
      Recall(cfg, s1, steps[1..], c, Record(s, steps[0], s1, c, h))
  }

  function HistoryOf(run: Run, c: nat): History
    requires IsRun(run)
  {
    Recall(run.cfg, Initial(run.cfg, run.start), run.steps, c, History(run.start, [], [], run.start))
  }

  function PacketsOf(q: seq<Msg>): (r: seq<Packet>)
    ensures |r| == |q| && forall i :: 0 <= i < |q| ==> r[i] == q[i].pkt
  {
    seq(|q|, i requires 0 <= i < |q| => q[i].pkt)
  }

  /** The fields of a client agree with its history. */
  predicate Tells(k: Conn, cur: Header, h: History) {
    k.lastPing == h.heard && Unfinished(Residue(h.stream)) && k.rx == Holding(Residue(h.stream)) &&
    PacketsOf(h.handed) == Packets(h.stream) && forall i :: 0 <= i < |h.handed| ==> h.handed[i].h == cur
  }

  predicate Faithful(s: Server, c: nat, h: History) {
    (IsClient(s, c) ==> Tells(s.conns[c], Current(s.conns, c), h)) &&
    (InPlace(s, c, Recycling) ==> s.conns[c].recyTime == h.closed)
  }

  // ---- Operations ----

  /** A connection goes on as it was, or is closed at time now. */
  predicate GoesOn(k: Conn, k': Conn, now: int) {
    (k'.place == InUse ==> SamePlace(k, k') && k'.lastPing == k.lastPing && k'.rx == k.rx) &&
    (k'.place == Recycling ==>
      if k.place == Recycling then k'.recyTime == k.recyTime else k.place == InUse && k'.recyTime == now)
  }

  predicate Calm(s: Server, s': Server) {
    s'.now == s.now && |s'.conns| >= |s.conns| &&
    (forall c :: 0 <= c < |s.conns| ==> GoesOn(s.conns[c], s'.conns[c], s.now)) &&
    forall c :: |s.conns| <= c < |s'.conns| ==> s'.conns[c].place == Free
  }

  lemma CalmTwice(s: Server, s1: Server, s2: Server)
    requires Calm(s, s1) && Calm(s1, s2)
    ensures Calm(s, s2)
  {
    forall c | 0 <= c < |s2.conns|
      ensures if c < |s.conns| then GoesOn(s.conns[c], s2.conns[c], s.now) else s2.conns[c].place == Free
    {
      if c < |s1.conns| {
        assert GoesOn(s1.conns[c], s2.conns[c], s1.now);
      }
    }
  }

  lemma SameIsCalm(s: Server, s': Server)
    requires s'.conns == s.conns && s'.now == s.now
    ensures Calm(s, s')
  {
  }

  predicate Unmoved(k: Conn, k': Conn) {
    SamePlace(k, k') && k'.lastPing == k.lastPing && k'.rx == k.rx && k'.recyTime == k.recyTime
  }

  lemma TouchIsCalm(s: Server, s': Server, c: nat)
    requires c < |s.conns| && c < |s'.conns| && s'.conns == s.conns[c := s'.conns[c]] && s'.now == s.now
    requires Unmoved(s.conns[c], s'.conns[c])
    ensures Calm(s, s')
  {
  }

  lemma CloseIsCalm(cfg: Config, s: Server, c: nat)
    requires PoolOk(cfg, s) && Closable(s, c)
    ensures Calm(s, CloseConn(cfg, s, c))
  {
    hide CloseConn, PoolOk;
    CloseEffect(cfg, s, c);
  }

  /** A client that does not get into epoll leaves no trace. */
  lemma GiveBackIsCalm(s: Server, s1: Server, c: nat)
    requires HandedOut(s, s1, c)
    ensures Calm(s, GiveBack(s1, c))
  {
  }

  lemma FailureIsCalm(cfg: Config, s: Server, c: nat)
    requires Inv(cfg, s) && Closable(s, c)
    ensures Calm(s, CloseConn(cfg, WriteFailed(s, c), c))
  {
    FailedKeepsInv(cfg, s, c);
    TouchIsCalm(s, WriteFailed(s, c), c);
    CloseIsCalm(cfg, WriteFailed(s, c), c);
    CalmTwice(s, WriteFailed(s, c), CloseConn(cfg, WriteFailed(s, c), c));
  }

  lemma ErrorIsCalm(cfg: Config, s: Server, c: nat)
    requires Inv(cfg, s) && Closable(s, c)
    ensures Calm(s, CloseConn(cfg, ErrorBits(s, c), c))
  {
    ErrorKeepsInv(cfg, s, c);
    TouchIsCalm(s, ErrorBits(s, c), c);
    CloseIsCalm(cfg, ErrorBits(s, c), c);
    CalmTwice(s, ErrorBits(s, c), CloseConn(cfg, ErrorBits(s, c), c));
  }

  lemma MsgSendIsCalm(cfg: Config, s: Server, h: Header, pkt: Packet)
    requires PoolOk(cfg, s) && HeaderOk(s.conns, h) && NotRecycled(s.conns, h)
    ensures Calm(s, MsgSend(cfg, s, h, pkt))
  {
    assert PoolOk(cfg, Discard(s));
    SameIsCalm(s, Discard(s));
    CloseIsCalm(cfg, Discard(s), h.conn);
    CalmTwice(s, Discard(s), CloseConn(cfg, Discard(s), h.conn));
    TouchIsCalm(s, Enqueue(s, h, pkt), h.conn);
  }

  lemma SendIsCalm(s: Server, r: SendResult)
    requires s.pass.Some? && s.pass.value < |s.sendQ| && s.sendQ[s.pass.value].h.conn < |s.conns|
    ensures Calm(s, SendStep(s, r))
  {
    var p := s.pass.value;
    SameIsCalm(s, DropQueued(s, p));
    SameIsCalm(s, s.(pass := Some(p + 1)));
    TouchIsCalm(s, PickQueued(s, p, r), s.sendQ[p].h.conn);
  }

  lemma WriteIsCalm(s: Server, c: nat, n: nat)
    requires c < |s.conns| && s.conns[c].sendMem.Some? && n <= s.conns[c].left
    requires s.conns[c].sent + n <= |Data(s.conns[c].sendMem.value)|
    ensures Calm(s, WriteMore(s, c, n))
  {
    TouchIsCalm(s, WriteMore(s, c, n), c);
  }

  lemma RecycleIsCalm(s: Server, i: nat)
    requires i < |s.recy| && s.recy[i] < |s.conns|
    ensures Calm(s, RecycleOne(s, i))
  {
  }

  lemma CheckIsCalm(cfg: Config, s: Server)
    requires Inv(cfg, s) && s.idle != [] && s.idle[0].h.conn < |s.conns|
    ensures Calm(s, CheckIdle(cfg, s))
  {
    assert HeaderOk(s.conns, s.idle[0].h);
    var s1 := KickIdle(cfg, s);
    if Kicks(cfg, s, s.idle[0].h) {
      CloseIsCalm(cfg, s, s.idle[0].h.conn);
    } else {
      SameIsCalm(s, s1);
    }
    SameIsCalm(s1, DropIdle(s1));
    CalmTwice(s, s1, DropIdle(s1));
  }

  // ---- Steps ----

  /** The steps that change neither a connection nor the clock. */
  predicate Standing(step: Step) {
    step.Taking? || step.Checking? || step.SendBegin? || step.SendEnd? || step.Monitor?
  }

  lemma StandingStands(cfg: Config, s: Server, step: Step)
    requires cfg.wait > 0 && Enabled(cfg, s, step) && Standing(step)
    ensures Next(cfg, s, step).conns == s.conns && Next(cfg, s, step).now == s.now
  {
  }

  /** The steps that nobody is heard in, and no client comes in. */
  predicate Unheard(step: Step) {
    !(step.Accepting? && step.registered) && !step.Reading? && !step.Replying? && !step.Tick?
  }

  lemma UnheardIsCalm(cfg: Config, s: Server, step: Step)
    requires cfg.wait > 0 && Inv(cfg, s) && Enabled(cfg, s, step) && Unheard(step)
    ensures Calm(s, Next(cfg, s, step))
  {
    if Standing(step) {
      StandingStands(cfg, s, step);
      SameIsCalm(s, Next(cfg, s, step));
    } else if OfEpoll(step) {
      EpollIsCalm(cfg, s, step);
    } else {
      match step
      case SendNext(r) => SendIsCalm(s, r);
      case Recycle(i) => RecycleIsCalm(s, i);
      case PingCheck => CheckIsCalm(cfg, s);
    }
  }

  lemma EpollIsCalm(cfg: Config, s: Server, step: Step)
    requires cfg.wait > 0 && Inv(cfg, s) && Enabled(cfg, s, step) && Unheard(step) && OfEpoll(step)
    ensures Calm(s, Next(cfg, s, step))
  {
    match step
    case Accepting(_, _) => RefusedIsCalm(cfg, s);
    case ReadClosed(c) => CloseIsCalm(cfg, s, c);
    case Writing(c, n) => WriteIsCalm(s, c, n);
    case WriteBroken(c) => FailureIsCalm(cfg, s, c);
    case ErrorEvent(c) => ErrorIsCalm(cfg, s, c);
  }

  lemma RefusedIsCalm(cfg: Config, s: Server)
    requires Inv(cfg, s) && FreeValid(s)
    ensures Calm(s, Accept(cfg, s, false))
  {
    if Admits(cfg, s) {
      GetEffect(cfg, s);
      GiveBackIsCalm(s, GetConnection(s).0, GetConnection(s).1);
    } else {
      SameIsCalm(s, s);
    }
  }

  /** What a step does to the moments of connection c. */
  predicate MomentsAt(s: Server, step: Step, s': Server, c: nat) {
    (!step.Tick? ==> s'.now == s.now) &&
    (IsClient(s', c) ==>
      if IsClient(s, c) then
        Current(s'.conns, c) == Current(s.conns, c) &&
        s'.conns[c].lastPing == (if Pings(s, step, c) then s.now else s.conns[c].lastPing) &&
        (!Reads(step, c) ==> s'.conns[c].rx == s.conns[c].rx)
      else s'.conns[c].lastPing == s.now && s'.conns[c].rx == INITIAL) &&
    (InPlace(s', c, Recycling) ==>
      c < |s.conns| &&
      if s.conns[c].place == Recycling then s'.conns[c].recyTime == s.conns[c].recyTime
      else s.conns[c].place == InUse && s'.conns[c].recyTime == s.now)
  }

  lemma CalmMoments(s: Server, step: Step, s': Server, c: nat)
    requires Calm(s, s') && !Pings(s, step, c)
    ensures MomentsAt(s, step, s', c)
  {
    if c < |s.conns| {
      assert GoesOn(s.conns[c], s'.conns[c], s.now);
    }
  }

  lemma AcceptedMoments(cfg: Config, s: Server, l: nat, c: nat)
    requires cfg.wait > 0 && Inv(cfg, s) && Enabled(cfg, s, Accepting(l, true))
    ensures MomentsAt(s, Accepting(l, true), Next(cfg, s, Accepting(l, true)), c)
  {
    if Admits(cfg, s) {
      GetEffect(cfg, s);
      HandedOutMoments(cfg, s, GetConnection(s).0, GetConnection(s).1, Accepting(l, true), c);
    }
  }

  lemma HandedOutMoments(cfg: Config, s: Server, s1: Server, d: nat, step: Step, c: nat)
    requires HandedOut(s, s1, d) && step.Accepting?
    ensures MomentsAt(s, step, Register(cfg, s1, d), c)
  {
    assert Register(cfg, s1, d).conns == s1.conns;
  }

  /** Reading changes the receive fields of one connection, and may close it then. */
  lemma ReadIsCalm(cfg: Config, s: Server, i: nat, chunk: seq<Byte>, flood: bool)
    requires Inv(cfg, s) && CanReceive(s, i, chunk)
    ensures var s1 := ReceiveBytes(s, i, chunk, flood).0;
            Calm(s1, Read(cfg, s, i, chunk, flood)) && OneMoves(s, s1, i) && s1.conns[i].lastPing == s.conns[i].lastPing &&
            s1.conns[i].recyTime == s.conns[i].recyTime && s1.conns[i].rx == Receive(s.conns[i].rx, chunk).0
  {
    var s1 := ReceiveBytes(s, i, chunk, flood).0;
    ReceiveKeepsInv(cfg, s, i, chunk, flood);
    ReceiveFields(s, i, chunk, flood);
    ReceiveMoves(s, i, chunk, flood);
    if ReceiveBytes(s, i, chunk, flood).1 {
      CloseIsCalm(cfg, s1, i);
    } else {
      SameIsCalm(s1, s1);
    }
  }

  lemma ReadMoments(cfg: Config, s: Server, i: nat, chunk: seq<Byte>, flood: bool, c: nat)
    requires cfg.wait > 0 && Inv(cfg, s) && Enabled(cfg, s, Reading(i, chunk, flood))
    ensures MomentsAt(s, Reading(i, chunk, flood), Next(cfg, s, Reading(i, chunk, flood)), c)
  {
    ReadIsCalm(cfg, s, i, chunk, flood);
    var s1 := ReceiveBytes(s, i, chunk, flood).0;
    TouchedMoments(s, Reading(i, chunk, flood), s1, i, Read(cfg, s, i, chunk, flood), c);
  }

  /** One connection changes, and then everything goes on as it is. */
  lemma TouchedMoments(s: Server, step: Step, s1: Server, i: nat, s2: Server, c: nat)
    requires i < |s.conns| && i < |s1.conns| && s1.conns == s.conns[i := s1.conns[i]] && s1.now == s.now && Calm(s1, s2)
    requires SamePlace(s.conns[i], s1.conns[i]) && s1.conns[i].recyTime == s.conns[i].recyTime
    requires s1.conns[i].lastPing == (if Pings(s, step, i) then s.now else s.conns[i].lastPing)
    requires s1.conns[i].rx == s.conns[i].rx || Reads(step, i)
    requires c != i ==> !Pings(s, step, c)
    ensures MomentsAt(s, step, s2, c)
  {
    if c < |s.conns| {
      assert GoesOn(s1.conns[c], s2.conns[c], s.now);
    }
  }

  /** The reply of a worker, after the ping was noted. */
  lemma ReplyIsCalm(cfg: Config, s: Server, h: Header, ping: bool, reply: Option<Packet>)
    requires PoolOk(cfg, s) && HeaderOk(s.conns, h) && NotRecycled(s.conns, h)
    ensures Calm(SetConn(s, h.conn, if ping then s.conns[h.conn].(lastPing := s.now) else s.conns[h.conn]),
                 Reply(cfg, s, h, ping, reply))
  {
    var k := if ping then s.conns[h.conn].(lastPing := s.now) else s.conns[h.conn];
    var s1 := SetConn(s, h.conn, k);
    TouchKeepsPool(cfg, s, h.conn, k);
    TouchKeepsHeader(s, h.conn, k, h);
    assert !ping ==> s1 == s;
    if reply.Some? {
      MsgSendIsCalm(cfg, s1, h, reply.value);
    } else {
      SameIsCalm(s1, s1);
    }
  }

  lemma ReplyMoments(cfg: Config, s: Server, i: nat, ping: bool, reply: Option<Packet>, c: nat)
    requires cfg.wait > 0 && Inv(cfg, s) && Enabled(cfg, s, Replying(i, ping, reply))
    ensures MomentsAt(s, Replying(i, ping, reply), Next(cfg, s, Replying(i, ping, reply)), c)
  {
    hide Reply, DropHeld;
    var h := s.held[i].msg.h;
    ReplyIsCalm(cfg, s, h, ping, reply);
    MsgSendKeepsHeld(cfg, s, h, ping, reply);
    var s2 := Reply(cfg, s, h, ping, reply);
    var s1 := SetConn(s, h.conn, if ping then s.conns[h.conn].(lastPing := s.now) else s.conns[h.conn]);
    DroppingIsCalm(s2, i);
    CalmTwice(s1, s2, DropHeld(s2, i));
    TouchedMoments(s, Replying(i, ping, reply), s1, h.conn, DropHeld(s2, i), c);
  }

  lemma DroppingIsCalm(s: Server, i: nat)
    requires i < |s.held|
    ensures Calm(s, DropHeld(s, i))
  {
    SameIsCalm(s, DropHeld(s, i));
  }

  lemma StepMoments(cfg: Config, s: Server, step: Step, c: nat)
    requires cfg.wait > 0 && Inv(cfg, s) && Enabled(cfg, s, step)
    ensures MomentsAt(s, step, Next(cfg, s, step), c)
  {
    hide Inv, Enabled, Next, MomentsAt;
    if step.Tick? {
      TickMoments(cfg, s, step.d, c);
    } else if Unheard(step) {
      UnheardIsCalm(cfg, s, step);
      CalmMoments(s, step, Next(cfg, s, step), c);
    } else if step.Accepting? {
      AcceptedMoments(cfg, s, step.listener, c);
    } else if step.Reading? {
      ReadMoments(cfg, s, step.c, step.chunk, step.flood, c);
    } else {
      ReplyMoments(cfg, s, step.i, step.ping, step.reply, c);
    }
  }

  lemma TickMoments(cfg: Config, s: Server, d: nat, c: nat)
    requires cfg.wait > 0
    ensures MomentsAt(s, Tick(d), Next(cfg, s, Tick(d)), c)
  {
  }

  // ---- The bytes of a client ----

  /** Parsing can be interrupted anywhere and resumed with the residue. */
  lemma {:induction false} PacketsAppend(a: seq<Byte>, b: seq<Byte>)
    ensures Packets(a + b) == Packets(a) + Packets(Residue(a) + b)
    ensures Residue(a + b) == Residue(Residue(a) + b)
    decreases |a|
  {
    if |a| < HEADER_LENGTH || (!BadLength(PacketLength(a)) && |a| < PacketLength(a)) {
      assert [] + Packets(a + b) == Packets(a + b);
    } else {
      var n := if BadLength(PacketLength(a)) then HEADER_LENGTH else PacketLength(a);
      PacketsAppend(a[n..], b);
      assert (a + b)[n..] == a[n..] + b && (a + b)[..n] == a[..n] && PacketLength(a + b) == PacketLength(a);
      if !BadLength(PacketLength(a)) {
        Associate([a[..n]], Packets(a[n..]), Packets(Residue(a[n..]) + b));
      }
    }
  }

  lemma ReceiveParses(rx: Rx, stream: seq<Byte>, chunk: seq<Byte>)
    requires Unfinished(Residue(stream)) && rx == Holding(Residue(stream)) && 1 <= |chunk| <= rx.want
    ensures var (rx', out) := Receive(rx, chunk);
            Packets(stream + chunk) == Packets(stream) + AsSeq(out) &&
            Unfinished(Residue(stream + chunk)) && rx' == Holding(Residue(stream + chunk))
  {
    var (rx', out) := Receive(rx, chunk);
    PacketsAppend(stream, chunk);
    ReceiveKeepsValid(rx, chunk);
    ReceiveFollowsParser(rx, chunk, []);
    assert rx.got + chunk + [] == rx.got + chunk && rx'.got + [] == rx'.got;
    UnfinishedIsResidue(rx'.got);
    assert AsSeq(out) + [] == AsSeq(out);
  }

  lemma UnfinishedIsResidue(got: seq<Byte>)
    requires Unfinished(got)
    ensures Packets(got) == [] && Residue(got) == got
  {
  }

  /** The messages of one receive, for the packet it completed. */
  predicate Hands(before: seq<Msg>, after: seq<Msg>, out: Option<Packet>, h: Header) {
    before <= after && PacketsOf(Queued(before, after)) == AsSeq(out) && forall m :: m in Queued(before, after) ==> m.h == h
  }

  lemma HandsOne(before: seq<Msg>, m: Msg)
    ensures Hands(before, before + [m], Some(m.pkt), m.h)
  {
    assert Queued(before, before + [m]) == [m];
  }

  lemma HandsNone(before: seq<Msg>, h: Header)
    ensures Hands(before, before, None, h)
  {
    assert Queued(before, before) == [];
  }

  /** Received bytes that complete a packet put it into the receive queue, stamped for the client. */
  lemma Completed(s: Server, c: nat, chunk: seq<Byte>, flood: bool)
    requires CanReceive(s, c, chunk) && Sound(c, s.conns[c]) && !ReceiveBytes(s, c, chunk, flood).1
    ensures Hands(s.recvQ, ReceiveBytes(s, c, chunk, flood).0.recvQ, Receive(s.conns[c].rx, chunk).1, Current(s.conns, c))
  {
    hide Receive, Hands, Allocates;
    var (rx, out) := Receive(s.conns[c].rx, chunk);
    var s1 := if Allocates(s.conns[c], chunk) then Stamped(s, c) else s;
    assert s1.recvQ == s.recvQ;
    match out
    case None => HandsNone(s.recvQ, Current(s.conns, c));
    case Some(p) =>
      StampIsCurrent(s, c, chunk);
      HandsOne(s.recvQ, Msg(s1.conns[c].recvMem.value.h, s1.conns[c].recvMem.value.buf, p));
  }

  lemma StampIsCurrent(s: Server, c: nat, chunk: seq<Byte>)
    requires CanReceive(s, c, chunk) && Sound(c, s.conns[c]) && Receive(s.conns[c].rx, chunk).1.Some?
    ensures var s1 := if Allocates(s.conns[c], chunk) then Stamped(s, c) else s;
            s1.conns[c].recvMem.Some? && s1.conns[c].recvMem.value.h == Current(s.conns, c)
  {
  }

  lemma ClosedIsNoClient(cfg: Config, s: Server, c: nat)
    requires PoolOk(cfg, s) && Closable(s, c)
    ensures !IsClient(CloseConn(cfg, s, c), c)
  {
    CloseEffect(cfg, s, c);
  }

  lemma FloodCloses(cfg: Config, s: Server, c: nat, chunk: seq<Byte>, flood: bool)
    requires Inv(cfg, s) && CanReceive(s, c, chunk) && IsClient(Read(cfg, s, c, chunk, flood), c)
    ensures !ReceiveBytes(s, c, chunk, flood).1
  {
    hide ReceiveBytes, CloseConn, Receive;
    ReceiveKeepsInv(cfg, s, c, chunk, flood);
    ReceiveFields(s, c, chunk, flood);
    var (s1, kick) := ReceiveBytes(s, c, chunk, flood);
    if kick {
      ReceiveMoves(s, c, chunk, flood);
      ClosedIsNoClient(cfg, s1, c);
    }
  }

  /** A receive of a client that stays queues the packet it completes, with the stamp of its incarnation. */
  lemma ReadHandsOver(cfg: Config, s: Server, c: nat, chunk: seq<Byte>, flood: bool)
    requires Inv(cfg, s) && CanReceive(s, c, chunk) && IsClient(Read(cfg, s, c, chunk, flood), c)
    ensures var s', (rx, out) := Read(cfg, s, c, chunk, flood), Receive(s.conns[c].rx, chunk);
            s'.conns[c].rx == rx && Hands(s.recvQ, s'.recvQ, out, Current(s.conns, c))
  {
    hide ReceiveBytes, Receive, Hands;
    assert Sound(c, s.conns[c]);
    FloodCloses(cfg, s, c, chunk, flood);
    ReceiveFields(s, c, chunk, flood);
    Completed(s, c, chunk, flood);
  }

  // ---- Histories are true ----

  /** Received bytes, and the packet they complete, extend the history. */
  lemma TellsMore(k: Conn, k': Conn, cur: Header, h: History, chunk: seq<Byte>, before: seq<Msg>, after: seq<Msg>)
    requires Tells(k, cur, h) && 1 <= |chunk| <= k.rx.want && k'.lastPing == k.lastPing
    requires k'.rx == Receive(k.rx, chunk).0 && Hands(before, after, Receive(k.rx, chunk).1, cur)
    ensures Tells(k', cur, History(h.heard, h.stream + chunk, h.handed + Queued(before, after), h.closed))
  {
    hide Receive, Packets, Residue, Unfinished, Holding;
    ReceiveParses(k.rx, h.stream, chunk);
    assert PacketsOf(h.handed + Queued(before, after)) == PacketsOf(h.handed) + PacketsOf(Queued(before, after));
  }

  lemma ReadRecords(cfg: Config, s: Server, c: nat, chunk: seq<Byte>, flood: bool, h: History)
    requires cfg.wait > 0 && Inv(cfg, s) && Enabled(cfg, s, Reading(c, chunk, flood)) && Faithful(s, c, h)
    ensures var s1 := Next(cfg, s, Reading(c, chunk, flood)); Faithful(s1, c, Record(s, Reading(c, chunk, flood), s1, c, h))
  {
    hide Read, Receive, Hands, Tells;
    var s1 := Read(cfg, s, c, chunk, flood);
    ReadMoments(cfg, s, c, chunk, flood, c);
    if IsClient(s1, c) {
      ReadHandsOver(cfg, s, c, chunk, flood);
      TellsMore(s.conns[c], s1.conns[c], Current(s.conns, c), h, chunk, s.recvQ, s1.recvQ);
    }
  }

  lemma StepRecords(cfg: Config, s: Server, step: Step, c: nat, h: History)
    requires cfg.wait > 0 && Inv(cfg, s) && Enabled(cfg, s, step) && Faithful(s, c, h)
    ensures Faithful(Next(cfg, s, step), c, Record(s, step, Next(cfg, s, step), c, h))
  {
    if Reads(step, c) {
      ReadRecords(cfg, s, c, step.chunk, step.flood, h);
    } else {
      StepMoments(cfg, s, step, c);
      MomentsRecord(s, step, Next(cfg, s, step), c, h);
    }
  }

  lemma MomentsRecord(s: Server, step: Step, s1: Server, c: nat, h: History)
    requires MomentsAt(s, step, s1, c) && !Reads(step, c) && Faithful(s, c, h)
    ensures Faithful(s1, c, Record(s, step, s1, c, h))
  {
    if IsClient(s1, c) && !IsClient(s, c) {
      assert Packets([]) == [] && Residue([]) == [];
    }
  }

  lemma {:induction false} RunRecords(cfg: Config, s: Server, steps: seq<Step>, c: nat, h: History)
    requires cfg.wait > 0 && Inv(cfg, s) && Runs(cfg, s, steps) && Faithful(s, c, h)
    ensures Faithful(After(cfg, s, steps), c, Recall(cfg, s, steps, c, h))
    decreases steps
  {
    if steps != [] {
      var s1 := Next(cfg, s, steps[0]);
      StepKeepsInv(cfg, s, steps[0]);
      StepRecords(cfg, s, steps[0], c, h);
      RunRecords(cfg, s1, steps[1..], c, Record(s, steps[0], s1, c, h));
    }
  }

  lemma HistoryIsFaithful(run: Run, c: nat)
    requires IsRun(run)
    ensures Faithful(Reached(run), c, HistoryOf(run, c))
  {
    InitialInv(run.cfg, run.start);
    InitialIsQuiet(run.cfg, run.start);
    RunRecords(run.cfg, Initial(run.cfg, run.start), run.steps, c, History(run.start, [], [], run.start));
  }

  /** In every reachable state the last ping of a client is when it was accepted or a ping of it was last handled. */
  lemma LastPingIsLastHeard(run: Run, c: nat)
    requires IsRun(run) && IsClient(Reached(run), c)
    ensures Reached(run).conns[c].lastPing == HistoryOf(run, c).heard
  {
    HistoryIsFaithful(run, c);
  }

  /** In every reachable state the packets of what a client sent since it was accepted, as the whole-stream
      parser finds them, were put into the receive queue once each and in order, each stamped for the client,
      and the receive fields hold the rest. */
  lemma PacketsReachWorkers(run: Run, c: nat)
    requires IsRun(run) && IsClient(Reached(run), c)
    ensures var h := HistoryOf(run, c);
            PacketsOf(h.handed) == Packets(h.stream) && Unfinished(Residue(h.stream)) &&
            Reached(run).conns[c].rx == Holding(Residue(h.stream)) &&
            forall i :: 0 <= i < |h.handed| ==> h.handed[i].h == Current(Reached(run).conns, c)
  {
    HistoryIsFaithful(run, c);
  }

  /** A connection is freed only when the configured wait has passed since it was closed. */
  lemma RecycledAfterWait(run: Run, i: nat)
    requires IsRun(run) && Enabled(run.cfg, Reached(run), Recycle(i))
    ensures HistoryOf(run, Reached(run).recy[i]).closed + run.cfg.recyWait <= Reached(run).now
  {
    ReachedInv(run);
    HistoryIsFaithful(run, Reached(run).recy[i]);
  }
}
