/** What each step decides in the states the server reaches, in terms of clients, packets and limits. */
module Decisions {
  import opened Bits
  import opened Common
  import opened Framing
  import opened Timers
  import opened ServerState
  import opened ServerInvariant
  import opened ConnectionPool
  import opened Sending
  import opened ServerSteps
  import opened ServerRuns

  // ---- Start ----

  /** The server starts with as many listening connections as ports, all others free, and a pool no
      larger than it must be. */
  lemma StartListens(cfg: Config, now: int)
    ensures var s := Initial(cfg, now);
            |s.conns| - |s.free| == cfg.ports &&
            |s.conns| == (if cfg.ports > cfg.workers then cfg.ports else cfg.workers) &&
            forall c :: 0 <= c < |s.conns| ==>
              (s.conns[c].listener <==> s.conns[c].place == InUse) && (!s.conns[c].listener ==> c in s.free)
  {
    PoolOfIsQuiet(cfg, now);
    PoolOfIsOk(cfg, now);
    ListenSizes(cfg, PoolOf(cfg.workers, now), cfg.ports);
    InitialIsQuiet(cfg, now);
  }

  lemma {:induction false} ListenSizes(cfg: Config, s: Server, ports: nat)
    requires PoolOk(cfg, s) && Quiet(s) && |s.conns| - |s.free| + ports <= PoolLimit(cfg)
    ensures var s' := Listen(s, ports);
            |s'.conns| - |s'.free| == |s.conns| - |s.free| + ports &&
            |s'.conns| == |s.conns| + (if ports > |s.free| then ports - |s.free| else 0)
    decreases ports
  {
    hide ListenOne, Quiet, PoolOk;
    if ports > 0 {
      ListenOneKeepsPool(cfg, s);
      ListenOneKeepsQuiet(cfg, s);
      ListenOneGrows(cfg, s);
      ListenSizes(cfg, ListenOne(s), ports - 1);
    }
  }

  lemma ListenOneGrows(cfg: Config, s: Server)
    requires PoolOk(cfg, s)
    ensures FreeValid(s) && |ListenOne(s).conns| == |s.conns| + (if s.free == [] then 1 else 0)
    ensures |ListenOne(s).free| == |s.free| - (if s.free == [] then 0 else 1)
  {
    GetEffect(cfg, s);
  }

  // ---- Accepting ----

  /** Whether there is room for one more client. */
  predicate Room(cfg: Config, s: Server) {
    Clients(s.conns) < cfg.workers && (|s.conns| <= 5 * cfg.workers || |s.free| >= cfg.workers)
  }

  /** A connection as it is handed to a client. */
  predicate NewClient(k: Conn, before: Conn, now: int) {
    k.place == InUse && !k.listener && k.open && k.inc == before.inc + 1 && k.sequence == before.sequence + 1 &&
    k.rx == INITIAL && k.recvMem == None && k.sendMem == None && !k.epollOut && k.throwCount == 0 && k.sendCount == 0 &&
    k.lastPing == now && k.enqueued == [] && k.picks == [] && k.wire == []
  }

  /** Connection c became a client with, if clients are kicked, a timer entry `wait` seconds from now. */
  predicate Accepted(cfg: Config, s: Server, s': Server, c: nat) {
    c < |s'.conns| && NewClient(s'.conns[c], if c < |s.conns| then s.conns[c] else NewConn(), s.now) &&
    s'.online == s.online + 1 &&
    s'.timers.entries == if cfg.kick then Insert(s.timers.entries, Timer(s.now + cfg.wait, Current(s'.conns, c), s.next))
                         else s.timers.entries
  }

  /** Connection c went from the front of the free list, or as a new one, to its end. */
  predicate Refused(s: Server, s': Server, c: nat) {
    c < |s'.conns| && s'.conns[c].place == Free && s'.online == s.online && s'.timers == s.timers &&
    s'.free == (if s.free == [] then [] else s.free[1..]) + [c]
  }

  predicate OthersStay(s: Server, s': Server, c: nat) {
    forall i :: 0 <= i < |s'.conns| && i != c ==> i < |s.conns| && s'.conns[i] == s.conns[i]
  }

  /** A connection request makes a client exactly when there is room and its socket gets into epoll. The
      client takes the first free connection, or a new one. */
  lemma AcceptDecides(cfg: Config, s: Server, l: nat, registered: bool)
    requires cfg.wait > 0 && Inv(cfg, s) && Enabled(cfg, s, Accepting(l, registered))
    ensures var s', c := Next(cfg, s, Accepting(l, registered)), if s.free == [] then |s.conns| else s.free[0];
            if !Room(cfg, s) then s' == s
            else OthersStay(s, s', c) && if registered then Accepted(cfg, s, s', c) else Refused(s, s', c)
  {
    hide GetConnection, Register, GiveBack, HandedOut, Accepted, Refused, OthersStay;
    GetEffect(cfg, s);
    if Admits(cfg, s) {
      HandedOutDecides(cfg, s, GetConnection(s).0, GetConnection(s).1);
    }
  }

  lemma HandedOutDecides(cfg: Config, s: Server, s1: Server, c: nat)
    requires HandedOut(s, s1, c)
    ensures c == (if s.free == [] then |s.conns| else s.free[0]) && c < |s1.conns|
    ensures Accepted(cfg, s, Register(cfg, s1, c), c) && OthersStay(s, Register(cfg, s1, c), c)
    ensures Refused(s, GiveBack(s1, c), c) && OthersStay(s, GiveBack(s1, c), c)
  {
    HandedOutRegisters(cfg, s, s1, c);
    HandedOutReturns(s, s1, c);
  }

  lemma RegisterFields(cfg: Config, s: Server, c: nat)
    requires c < |s.conns|
    ensures var s' := Register(cfg, s, c);
            s'.conns == s.conns && s'.online == s.online + 1 &&
            s'.timers.entries == if cfg.kick then Insert(s.timers.entries, Timer(s.now + cfg.wait, Current(s.conns, c), s.next))
                                 else s.timers.entries
  {
  }

  lemma HandedOutRegisters(cfg: Config, s: Server, s1: Server, c: nat)
    requires HandedOut(s, s1, c)
    ensures c < |s1.conns| && Accepted(cfg, s, Register(cfg, s1, c), c) && OthersStay(s, Register(cfg, s1, c), c)
  {
    hide Register, Insert;
    RegisterFields(cfg, s1, c);
  }

  lemma HandedOutReturns(s: Server, s1: Server, c: nat)
    requires HandedOut(s, s1, c)
    ensures c < |s1.conns| && Refused(s, GiveBack(s1, c), c) && OthersStay(s, GiveBack(s1, c), c)
  {
  }

  // ---- Receiving ----

  predicate IsClosed(s: Server, c: nat) {
    c < |s.conns| && s.conns[c].place == Recycling && !s.conns[c].open
  }

  /** Received bytes close the client exactly when they complete a packet that is judged a flood; then
      nothing reaches the workers. */
  lemma ReadDecides(cfg: Config, s: Server, c: nat, chunk: seq<Byte>, flood: bool)
    requires cfg.wait > 0 && Inv(cfg, s) && Enabled(cfg, s, Reading(c, chunk, flood))
    ensures var s', out := Next(cfg, s, Reading(c, chunk, flood)), Receive(s.conns[c].rx, chunk).1;
            (IsClosed(s', c) <==> flood && out.Some?) && (IsClient(s', c) <==> !(flood && out.Some?)) &&
            (out.None? || flood ==> s'.recvQ == s.recvQ)
  {
    hide Receive;
    var (s1, kick) := ReceiveBytes(s, c, chunk, flood);
    ReceiveKeepsInv(cfg, s, c, chunk, flood);
    ReceiveFields(s, c, chunk, flood);
    ReceiveMoves(s, c, chunk, flood);
    FloodQueuesNothing(s, c, chunk, flood);
    if kick {
      CloseEffect(cfg, s1, c);
    }
  }

  lemma FloodQueuesNothing(s: Server, c: nat, chunk: seq<Byte>, flood: bool)
    requires CanReceive(s, c, chunk)
    ensures var out := Receive(s.conns[c].rx, chunk).1;
            (ReceiveBytes(s, c, chunk, flood).1 <==> flood && out.Some?) &&
            (out.None? || flood ==> ReceiveBytes(s, c, chunk, flood).0.recvQ == s.recvQ)
  {
  }

  lemma CloseCloses(cfg: Config, s: Server, c: nat)
    requires PoolOk(cfg, s) && Closable(s, c)
    ensures var s' := CloseConn(cfg, s, c); IsClosed(s', c) && s'.sem == s.sem && s'.idle == s.idle && s.freed <= s'.freed
  {
    CloseEffect(cfg, s, c);
  }

  /** The end of a stream, a failed write and an error bit close the connection. */
  lemma FailuresClose(cfg: Config, s: Server, c: nat, step: Step)
    requires cfg.wait > 0 && Inv(cfg, s) && Enabled(cfg, s, step)
    requires step == ReadClosed(c) || step == WriteBroken(c) || step == ErrorEvent(c)
    ensures IsClosed(Next(cfg, s, step), c)
    ensures step == WriteBroken(c) ==> Next(cfg, s, step).sem == s.sem + 1
  {
    hide CloseConn, HeadersOk, AccountOk, ConnsOk, StrandOk, TimersOk, HeartOk, OwnedOnce;
    if step == ReadClosed(c) {
      CloseCloses(cfg, s, c);
    } else if step == WriteBroken(c) {
      FailedKeepsInv(cfg, s, c);
      CloseCloses(cfg, WriteFailed(s, c), c);
    } else {
      ErrorKeepsInv(cfg, s, c);
      CloseCloses(cfg, ErrorBits(s, c), c);
    }
  }

  // ---- Workers ----

  /** The incarnation that stamped a header is still in use. */
  predicate StillThere(s: Server, h: Header) {
    h.conn < |s.conns| && s.conns[h.conn].place == InUse && s.conns[h.conn].inc == h.inc
  }

  /** A message passes the guard exactly when it is valid and the incarnation that sent it is in use. */
  lemma CheckDecides(cfg: Config, s: Server, i: nat, valid: bool)
    requires cfg.wait > 0 && Inv(cfg, s) && Enabled(cfg, s, Checking(i, valid))
    ensures var m := s.held[i].msg;
            Next(cfg, s, Checking(i, valid)) ==
            if valid && StillThere(s, m.h) then s.(held := s.held[i := Held(m, true)])
            else s.(held := s.held[..i] + s.held[i + 1..], freed := s.freed + multiset{m.buf})
  {
    assert HeaderOk(s.conns, s.held[i].msg.h);
  }

  /** A reply to a client in use is queued behind the others and the send thread is woken, unless more than
      50000 messages are queued in all; or, when more than 400 wait for this client, the client is closed. */
  lemma MsgSendDecides(cfg: Config, s: Server, h: Header, pkt: Packet)
    requires Inv(cfg, s) && HeaderOk(s.conns, h) && StillThere(s, h)
    ensures var s' := MsgSend(cfg, s, h, pkt);
            if |s.sendQ| > 50000 then
              s'.sendQ == s.sendQ && s'.sem == s.sem && s'.conns == s.conns && s'.discarded == s.discarded + 1
            else if |QueueOf(s.sendQ, h)| > 400 then
              s'.sendQ == s.sendQ && s'.sem == s.sem && IsClosed(s', h.conn) && s'.discarded == s.discarded + 1
            else
              s'.sendQ == s.sendQ + [Msg(h, s.next, pkt)] && s'.sem == s.sem + 1 && s'.discarded == s.discarded &&
              StillThere(s', h) && s'.conns[h.conn].sendCount == s.conns[h.conn].sendCount + 1
  {
    assert Accounted(s.conns, s.sendQ, h.conn) && Current(s.conns, h.conn) == h;
    assert PoolOk(cfg, Discard(s));
    CloseEffect(cfg, Discard(s), h.conn);
  }

  // ---- Sending ----

  /** Starting a message hands the kernel its first bytes: what is left of it stays with the connection,
      and its block is freed when nothing is left to be done. */
  lemma PickDecides(cfg: Config, s: Server, r: SendResult)
    requires cfg.wait > 0 && Enabled(cfg, s, SendNext(r)) && Pickable(s.conns, s.sendQ[s.pass.value].h)
    ensures var m := s.sendQ[s.pass.value];
            var k, s' := s.conns[m.h.conn], Next(cfg, s, SendNext(r));
            var k', rest := s'.conns[m.h.conn], r.Again? || (r.Sent? && r.n < |Data(m)|);
            k'.wire == k.wire + (if r.Sent? then Data(m)[..r.n] else []) &&
            k'.picks == k.picks + [Pick(m, r.Gone? || r.Broken?)] && k'.sendCount == k.sendCount - 1 &&
            k'.sendMem == (if rest then Some(m) else None) && s'.sem == s.sem &&
            s'.freed == (if rest then s.freed else s.freed + multiset{m.buf}) &&
            (rest ==> k'.sent == (if r.Sent? then r.n else 0) && k'.sent + k'.left == |Data(m)|)
  {
    var m := s.sendQ[s.pass.value];
    assert r.Sent? && r.n == |Data(m)| ==> Data(m)[..r.n] == Data(m);
    assert s.conns[m.h.conn].wire + [] == s.conns[m.h.conn].wire;
  }

  /** The next n bytes of packet m went to the kernel; with the last of them the connection is done with
      it, the block is freed, and the send thread is woken. */
  predicate Continued(s: Server, s': Server, c: nat, m: Msg, n: nat) {
    c < |s.conns| && c < |s'.conns| && s.conns[c].sent + n <= |Data(m)| &&
    var k, k' := s.conns[c], s'.conns[c];
    k'.wire == k.wire + Data(m)[k.sent..k.sent + n] &&
    if k.sent + n < |Data(m)| then
      k'.sendMem == Some(m) && k'.sent == k.sent + n && k'.epollOut && s'.sem == s.sem && s'.freed == s.freed
    else
      k'.sendMem == None && !k'.epollOut && k'.throwCount == 0 && s'.sem == s.sem + 1 &&
      s'.freed == s.freed + multiset{m.buf}
  }

  /** A write event hands the kernel the next bytes of the packet in flight. */
  lemma WriteDecides(cfg: Config, s: Server, c: nat, n: nat)
    requires cfg.wait > 0 && Inv(cfg, s) && Enabled(cfg, s, Writing(c, n))
    ensures Continued(s, Next(cfg, s, Writing(c, n)), c, s.conns[c].sendMem.value, n)
  {
    assert Sound(c, s.conns[c]);
    MoreContinues(s, c, n);
  }

  lemma MoreContinues(s: Server, c: nat, n: nat)
    requires c < |s.conns| && SendOk(s.conns[c]) && s.conns[c].sendMem.Some? && n <= s.conns[c].left
    ensures s.conns[c].sent + n <= |Data(s.conns[c].sendMem.value)|
    ensures Continued(s, WriteMore(s, c, n), c, s.conns[c].sendMem.value, n)
  {
  }

  // ---- The timer thread ----

  /** What a pass of the timer thread makes of the expired entries. */
  predicate Monitored(cfg: Config, s: Server, s': Server) {
    var t, n := s.timers.entries, UpperBound(s.timers.entries, s.now);
    s'.passTime == s.now && s'.conns == s.conns && AllDue(t[..n], s.now) && AllLater(t[n..], s.now) &&
    if t != [] && t[0].key < s.now then
      s'.idle == t[..n] &&
      s'.timers.entries == (if cfg.timeOutKick then t[n..] else PutBack(t[n..], t[..n], s.now + cfg.wait, s.next))
    else s'.idle == [] && s'.timers == s.timers
  }

  lemma MonitorMonitors(cfg: Config, s: Server)
    requires cfg.wait > 0 && Consistent(s.timers) && s.idle == []
    ensures Monitored(cfg, s, MonitorPass(cfg, s))
  {
    hide UpperBound, Drain, PutBack, Drained;
    var due := s.timers.entries[..UpperBound(s.timers.entries, s.now)];
    DueBeforeLater(s.timers.entries, s.now);
    DrainTakesExpired(cfg, s.(passTime := s.now));
    assert [] + due == due;
  }

  /** A pass of the timer thread leaves everything as it is unless the earliest entry is overdue by a second or
      more; then it takes all entries that have expired by now, in order, and puts their headers back `wait`
      seconds from now unless every expired client is to be kicked. */
  lemma MonitorDecides(cfg: Config, s: Server)
    requires cfg.wait > 0 && Inv(cfg, s) && Enabled(cfg, s, Monitor)
    ensures Monitored(cfg, s, Next(cfg, s, Monitor))
  {
    hide Monitored, MonitorPass, HeadersOk, PoolOk, ConnsOk, AccountOk, StrandOk, HeartOk, OwnedOnce;
    MonitorMonitors(cfg, s);
  }

  lemma DrainTakesExpired(cfg: Config, s: Server)
    requires cfg.wait > 0 && Consistent(s.timers)
    ensures var s', t := Drained(cfg, s), s.timers.entries;
            var n := UpperBound(t, s.passTime);
            s'.passTime == s.passTime && s'.conns == s.conns && s'.idle == s.idle + t[..n] &&
            s'.timers.entries == if cfg.timeOutKick then t[n..] else PutBack(t[n..], t[..n], s.passTime + cfg.wait, s.next)
  {
    hide UpperBound, Drain, PutBack, Drained;
    var t := s.timers.entries;
    var n := UpperBound(t, s.passTime);
    DueBeforeLater(t, s.passTime);
    DrainExact(s.timers, s.passTime, cfg.wait, !cfg.timeOutKick, s.next, t[..n], t[n..]);
    var (q, due) := Drain(s.timers, s.passTime, cfg.wait, !cfg.timeOutKick, s.next);
    DrainedIsJoined(cfg, s, q, due);
  }

  /** Whether the client of an expired header is to be closed. */
  predicate Overdue(cfg: Config, s: Server, h: Header) {
    StillThere(s, h) && (cfg.timeOutKick || s.passTime - s.conns[h.conn].lastPing > 3 * cfg.wait + 10)
  }

  lemma KickDecides(cfg: Config, s: Server)
    requires Inv(cfg, s) && s.idle != []
    ensures var h := s.idle[0].h;
            h.conn < |s.conns| &&
            var s' := KickIdle(cfg, s);
            s'.idle == s.idle && s.freed <= s'.freed && if Overdue(cfg, s, h) then IsClosed(s', h.conn) else s' == s
  {
    hide CloseConn, AccountOk, ConnsOk, StrandOk, TimersOk, HeartOk, OwnedOnce, IsClosed;
    var h := s.idle[0].h;
    assert HeaderOk(s.conns, h);
    if Kicks(cfg, s, h) {
      CloseCloses(cfg, s, h.conn);
    }
  }

  /** The check of an expired header closes its client exactly when that client is still there and either
      every expired client is kicked or it was silent for more than 3w + 10 seconds; the header is freed. */
  lemma PingCheckDecides(cfg: Config, s: Server)
    requires cfg.wait > 0 && Inv(cfg, s) && Enabled(cfg, s, PingCheck)
    ensures var h, s' := s.idle[0].h, Next(cfg, s, PingCheck);
            s'.idle == s.idle[1..] && s.freed[s.idle[0].buf] < s'.freed[s.idle[0].buf] &&
            if Overdue(cfg, s, h) then IsClosed(s', h.conn) else s'.conns == s.conns && s'.timers == s.timers
  {
    hide KickIdle, Overdue, Inv;
    KickDecides(cfg, s);
  }

  // ---- What can happen ----

  /** The kernel can report the end of any client, and the timer thread is never stuck. */
  lemma StepsAreOffered(cfg: Config, s: Server, c: nat)
    requires cfg.wait > 0 && Inv(cfg, s)
    ensures IsClient(s, c) ==>
              Enabled(cfg, s, ReadClosed(c)) && Enabled(cfg, s, WriteBroken(c)) && Enabled(cfg, s, ErrorEvent(c))
    ensures Enabled(cfg, s, Taking) <==> s.recvQ != []
    ensures cfg.kick ==> if s.idle == [] then Enabled(cfg, s, Monitor) else Enabled(cfg, s, PingCheck)
  {
    hide PoolOk, ConnsOk, AccountOk, StrandOk, TimersOk, HeartOk, OwnedOnce, MsgsOk, HeldOk;
    if s.idle != [] {
      assert HeaderOk(s.conns, s.idle[0].h);
    }
  }

  /** The send thread goes on whenever the semaphore lets it, and then to the end of the queue, whatever
      send() returns: any number of bytes it was given, or an error. */
  lemma SendThreadGoesOn(cfg: Config, s: Server, n: nat)
    requires cfg.wait > 0 && Inv(cfg, s)
    ensures s.pass == None ==> (Enabled(cfg, s, SendBegin) <==> s.sem > 0)
    ensures s.pass.Some? ==>
              if s.pass.value == |s.sendQ| then Enabled(cfg, s, SendEnd)
              else
                var m := s.sendQ[s.pass.value];
                Enabled(cfg, s, SendNext(Gone)) && Enabled(cfg, s, SendNext(Broken)) &&
                (Enabled(cfg, s, SendNext(Again)) <==> Data(m) != []) &&
                (Enabled(cfg, s, SendNext(Sent(n))) <==> 1 <= n <= |Data(m)|)
  {
    hide PoolOk, ConnsOk, StrandOk, TimersOk, HeartOk, OwnedOnce, IdleOk, HeldOk;
    if s.pass.Some? && s.pass.value < |s.sendQ| {
      assert HeaderOk(s.conns, s.sendQ[s.pass.value].h);
    }
  }

  /** A worker can check any message it holds, and answer any that passed the check, once the send thread
      has left the queue. */
  lemma WorkersCanGoOn(cfg: Config, s: Server, i: nat, valid: bool, ping: bool, pkt: Packet)
    requires cfg.wait > 0 && Inv(cfg, s) && i < |s.held|
    ensures Enabled(cfg, s, Checking(i, valid)) <==> !s.held[i].checked
    ensures Enabled(cfg, s, Replying(i, ping, None)) <==> s.held[i].checked
    ensures s.pass == None && WellSized(pkt) ==> (Enabled(cfg, s, Replying(i, ping, Some(pkt))) <==> s.held[i].checked)
  {
    hide PoolOk, ConnsOk, AccountOk, StrandOk, TimersOk, HeartOk, OwnedOnce, MsgsOk, IdleOk;
    assert HeaderOk(s.conns, s.held[i].msg.h);
  }
}
