/** Every step of the server keeps the invariant. */
module ServerSteps {
  import opened Bits
  import opened Common
  import opened Framing
  import opened Timers
  import opened ServerState
  import opened ServerInvariant
  import opened ConnectionPool
  import opened Incarnations
  import opened Sending
  import opened Heartbeat
  import opened Ownership

  // ---- Closing ----

  /** The invariant, except that the send fields of connection c may be in disorder. */
  ghost predicate InvBut(cfg: Config, s: Server, c: nat) {
    HeadersOk(s) && PoolOk(cfg, s) && SoundBut(s.conns, c) && AccountOk(s) && StrandBut(s.conns, s.sendQ, s.sem, s.pass, c) &&
    TimersOk(cfg, s) && HeartOk(cfg, s) && OwnedOnce(s)
  }

  predicate SoundBut(conns: seq<Conn>, c: nat) {
    forall i :: 0 <= i < |conns| ==> if i == c then Steady(i, conns[i]) else Sound(i, conns[i])
  }

  lemma CloseKeepsSound(cfg: Config, s: Server, c: nat)
    requires PoolOk(cfg, s) && SoundBut(s.conns, c) && Closable(s, c)
    ensures ConnsOk(CloseConn(cfg, s, c).conns)
  {
    CloseIsSound(cfg, s, c);
    CloseEffect(cfg, s, c);
  }

  lemma CloseKeepsInv(cfg: Config, s: Server, c: nat)
    requires InvBut(cfg, s, c) && Closable(s, c)
    ensures Inv(cfg, CloseConn(cfg, s, c))
  {
    CloseKeepsHeaders(cfg, s, c);
    CloseKeepsPool(cfg, s, c);
    CloseKeepsSound(cfg, s, c);
    CloseKeepsAccount(cfg, s, c);
    CloseKeepsStrand(cfg, s, c, s.sem);
    CloseKeepsTimers(cfg, s, c);
    CloseKeepsHeart(cfg, s, c);
    CloseKeepsOwned(cfg, s, c);
  }

  lemma InvIsInvBut(cfg: Config, s: Server, c: nat)
    requires Inv(cfg, s)
    ensures InvBut(cfg, s, c)
  {
  }

  // ---- Changes of one connection ----

  /** Neither the account nor the life cycle nor the memory of the connection changes. */
  predicate Minor(k: Conn, k': Conn, now: int) {
    SameAccount(k, k') && k'.throwCount == k.throwCount && k'.recvMem == k.recvMem && k'.sendMem == k.sendMem &&
    k.lastPing <= k'.lastPing <= now
  }

  /** One connection changes without moving on, and messages move between the queues. */
  predicate OneMoves(s: Server, s': Server, c: nat) {
    c < |s.conns| && c < |s'.conns| && s'.conns == s.conns[c := s'.conns[c]] && SamePlace(s.conns[c], s'.conns[c]) &&
    s.conns[c].lastPing <= s'.conns[c].lastPing <= s.now &&
    s' == s.(conns := s'.conns, recvQ := s'.recvQ, sendQ := s'.sendQ, sendN := s'.sendN, sem := s'.sem,
             next := s'.next, freed := s'.freed)
  }

  lemma OneMovesKeepsInv(cfg: Config, s: Server, s': Server, c: nat)
    requires Inv(cfg, s) && OneMoves(s, s', c) && Sound(c, s'.conns[c])
    requires HeadersOk(s') && AccountOk(s') && StrandOk(s') && OwnedOnce(s')
    ensures Inv(cfg, s')
  {
    TouchKeepsPool(cfg, s, c, s'.conns[c]);
    TouchKeepsTimers(cfg, s, c, s'.conns[c]);
    HeartStays(cfg, s, s'.conns);
  }

  lemma TouchKeepsInv(cfg: Config, s: Server, c: nat, k: Conn)
    requires Inv(cfg, s) && c < |s.conns| && Minor(s.conns[c], k, s.now) && Sound(c, k)
    ensures Inv(cfg, SetConn(s, c, k))
  {
    TouchKeepsHeaders(s, c, k);
    TouchKeepsAccount(s, c, k);
    TouchKeepsStrand(s, c, k, s.sem);
    TouchKeepsOwned(s, c, k);
    OneMovesKeepsInv(cfg, s, SetConn(s, c, k), c);
  }

  // ---- Accepting ----

  /** The part of the invariant that holds as soon as a connection is handed out. */
  ghost predicate InvHandedOut(cfg: Config, s: Server) {
    HeadersOk(s) && ConnsOk(s.conns) && AccountOk(s) && StrandOk(s) && HeartOk(cfg, s) && OwnedOnce(s)
  }

  lemma GetKeepsInv(cfg: Config, s: Server, s1: Server, c: nat)
    requires Inv(cfg, s) && HandedOut(s, s1, c)
    ensures InvHandedOut(cfg, s1)
  {
    GetKeepsHeaders(s, s1, c);
    GetKeepsSound(s, s1, c);
    GetKeepsAccount(s, s1, c);
    GetKeepsStrand(s, s1, c, s.sem);
    GetKeepsHeart(cfg, s, s1, c);
    GetKeepsOwned(s, s1, c);
  }

  lemma GetKeepsSound(s: Server, s1: Server, c: nat)
    requires ConnsOk(s.conns) && HandedOut(s, s1, c)
    ensures ConnsOk(s1.conns)
  {
    NewIsSound(c, if c < |s.conns| then s.conns[c] else NewConn(), s.now);
  }

  predicate SoundToFree(conns: seq<Conn>, c: nat) {
    forall i :: 0 <= i < |conns| ==> if i == c then Freeable(i, conns[i]) else Sound(i, conns[i])
  }

  lemma FreeKeepsRest(cfg: Config, s: Server, c: nat)
    requires HeadersOk(s) && AccountOk(s) && c < |s.conns| && StrandOk(s) && SoundToFree(s.conns, c) && HeartOk(cfg, s) && OwnedOnce(s)
    ensures var s' := FreeConnection(s, c); ConnsOk(s'.conns) && AccountOk(s') && StrandOk(s') && HeartOk(cfg, s') && OwnedOnce(s')
  {
    FreedIsSound(c, s.conns[c]);
    RetireKeepsAccount(s, c, PutOneToFree(s.conns[c]));
    FreeKeepsStrand(s, c, s.sem);
    HeartStays(cfg, s, FreeConnection(s, c).conns);
    FreeKeepsOwned(s, c);
  }

  lemma GiveBackKeepsRest(cfg: Config, s: Server, c: nat)
    requires InvHandedOut(cfg, s) && c < |s.conns| && s.conns[c].place == InUse
    ensures var s' := GiveBack(s, c);
            ConnsOk(s'.conns) && AccountOk(s') && StrandOk(s') && HeartOk(cfg, s') && OwnedOnce(s')
  {
    var k := s.conns[c].(open := false);
    assert Sound(c, s.conns[c]) && k.(open := true) == s.conns[c];
    TouchKeepsStrand(s, c, k, s.sem);
    TouchKeepsHeaders(s, c, k);
    TouchKeepsOwned(s, c, k);
    TouchKeepsAccount(s, c, k);
    HeartStays(cfg, s, s.conns[c := k]);
    FreeKeepsRest(cfg, SetConn(s, c, k), c);
  }

  lemma GiveBackKeepsInv(cfg: Config, s: Server, s1: Server, c: nat)
    requires Inv(cfg, s) && HandedOut(s, s1, c) && PoolOk(cfg, s1.(online := s1.online + 1))
    ensures Inv(cfg, GiveBack(s1, c))
  {
    GetKeepsInv(cfg, s, s1, c);
    GiveBackKeepsHeaders(s, s1, c);
    GiveBackKeepsPool(cfg, s1, c);
    GiveBackKeepsRest(cfg, s1, c);
    GiveBackKeepsTimers(cfg, s, s1, c);
  }

  lemma RegisterKeepsRest(cfg: Config, s: Server, c: nat)
    requires InvHandedOut(cfg, s) && c < |s.conns| && s.conns[c].lastPing == s.now && PoolOk(cfg, s.(online := s.online + 1))
    ensures var s' := Register(cfg, s, c); InvHandedOut(cfg, s') && PoolOk(cfg, s')
  {
    RegisterKeepsHeart(cfg, s, c);
    RegisterKeepsOwned(cfg, s, c);
  }

  lemma RegisterKeepsInv(cfg: Config, s: Server, s1: Server, c: nat)
    requires Inv(cfg, s) && HandedOut(s, s1, c) && PoolOk(cfg, s1.(online := s1.online + 1))
    ensures Inv(cfg, Register(cfg, s1, c))
  {
    GetKeepsInv(cfg, s, s1, c);
    RegisterKeepsRest(cfg, s1, c);
    RegisterKeepsTimers(cfg, s, s1, c);
  }

  lemma AcceptKeepsInv(cfg: Config, s: Server, registered: bool)
    requires Inv(cfg, s)
    ensures FreeValid(s) && Inv(cfg, Accept(cfg, s, registered))
  {
    hide GetConnection, Register, GiveBack, HandedOut;
    if Admits(cfg, s) {
      var (s1, c) := GetConnection(s);
      GetEffect(cfg, s);
      GetKeepsPool(cfg, s);
      if registered {
        RegisterKeepsInv(cfg, s, s1, c);
      } else {
        GiveBackKeepsInv(cfg, s, s1, c);
      }
    }
  }

  // ---- Receiving ----

  lemma ReceiveKeepsInv(cfg: Config, s: Server, c: nat, chunk: seq<Byte>, flood: bool)
    requires Inv(cfg, s) && CanReceive(s, c, chunk)
    ensures Inv(cfg, ReceiveBytes(s, c, chunk, flood).0)
  {
    var s' := ReceiveBytes(s, c, chunk, flood).0;
    ReceiveFields(s, c, chunk, flood);
    ReceiveMoves(s, c, chunk, flood);
    ReceiveKeepsHeaders(s, c, chunk, flood);
    ReceiveKeepsSound(s, c, chunk, flood);
    TouchKeepsAccount(s, c, s'.conns[c]);
    TouchKeepsStrand(s, c, s'.conns[c], s.sem);
    ReceiveKeepsOwned(s, c, chunk, flood);
    OneMovesKeepsInv(cfg, s, s', c);
  }

  lemma ReceiveMoves(s: Server, c: nat, chunk: seq<Byte>, flood: bool)
    requires CanReceive(s, c, chunk) && s.conns[c].lastPing <= s.now
    ensures var s' := ReceiveBytes(s, c, chunk, flood).0;
            OneMoves(s, s', c) && s'.sendQ == s.sendQ && s'.sendN == s.sendN && s'.sem == s.sem
  {
    ReceiveFields(s, c, chunk, flood);
  }

  lemma ReadKeepsInv(cfg: Config, s: Server, c: nat, chunk: seq<Byte>, flood: bool)
    requires Inv(cfg, s) && CanReceive(s, c, chunk)
    ensures Inv(cfg, Read(cfg, s, c, chunk, flood))
  {
    ReceiveKeepsInv(cfg, s, c, chunk, flood);
    ReceiveFields(s, c, chunk, flood);
    var (s1, kick) := ReceiveBytes(s, c, chunk, flood);
    if kick {
      InvIsInvBut(cfg, s1, c);
      CloseKeepsInv(cfg, s1, c);
    }
  }

  // ---- Workers ----

  lemma TakeKeepsInv(cfg: Config, s: Server)
    requires Inv(cfg, s) && s.recvQ != []
    ensures Inv(cfg, s.(recvQ := s.recvQ[1..], held := s.held + [Held(s.recvQ[0], false)]))
  {
    TakeKeepsOwned(s);
  }

  lemma CheckKeepsInv(cfg: Config, s: Server, i: nat)
    requires Inv(cfg, s) && i < |s.held| && s.conns[s.held[i].msg.h.conn].sequence == s.held[i].msg.h.sequence
    ensures Inv(cfg, s.(held := s.held[i := Held(s.held[i].msg, true)]))
  {
    CheckKeepsHeaders(s, i);
    CheckKeepsOwned(s, i);
  }

  lemma DropHeldKeepsInv(cfg: Config, s: Server, i: nat)
    requires Inv(cfg, s) && i < |s.held|
    ensures Inv(cfg, DropHeld(s, i))
  {
    DropHeldKeepsHeaders(s, i);
    DropHeldKeepsOwned(s, i);
  }

  lemma DiscardKeepsInv(cfg: Config, s: Server)
    requires Inv(cfg, s)
    ensures Inv(cfg, Discard(s))
  {
    DiscardKeepsOwned(s);
  }

  lemma EnqueueKeepsInv(cfg: Config, s: Server, h: Header, pkt: Packet)
    requires Inv(cfg, s) && HeaderOk(s.conns, h) && NotRecycled(s.conns, h) && WellSized(pkt)
    requires s.sendN <= MAX_QUEUED && s.conns[h.conn].sendCount <= MAX_PENDING && s.pass == None
    ensures Inv(cfg, Enqueue(s, h, pkt))
  {
    var s' := Enqueue(s, h, pkt);
    assert Sound(h.conn, s.conns[h.conn]);
    EnqueueKeepsHeaders(s, h, pkt);
    EnqueueKeepsAccount(s, h, pkt);
    EnqueueKeepsOwned(s, h, pkt);
    EnqueueMoves(s, h, pkt);
    OneMovesKeepsInv(cfg, s, s', h.conn);
  }

  lemma EnqueueMoves(s: Server, h: Header, pkt: Packet)
    requires h.conn < |s.conns| && s.conns[h.conn].lastPing <= s.now
    ensures var s' := Enqueue(s, h, pkt);
            OneMoves(s, s', h.conn) && StrandOk(s') && (Sound(h.conn, s.conns[h.conn]) ==> Sound(h.conn, s'.conns[h.conn]))
  {
  }

  lemma MsgSendKeepsInv(cfg: Config, s: Server, h: Header, pkt: Packet)
    requires Inv(cfg, s) && HeaderOk(s.conns, h) && NotRecycled(s.conns, h) && WellSized(pkt) && s.pass == None
    ensures Inv(cfg, MsgSend(cfg, s, h, pkt))
  {
    if s.sendN > MAX_QUEUED {
      DiscardKeepsInv(cfg, s);
    } else if s.conns[h.conn].sendCount > MAX_PENDING {
      DiscardKeepsInv(cfg, s);
      InvIsInvBut(cfg, Discard(s), h.conn);
      CloseKeepsInv(cfg, Discard(s), h.conn);
    } else {
      EnqueueKeepsInv(cfg, s, h, pkt);
    }
  }

  lemma MsgSendKeepsHeld(cfg: Config, s: Server, h: Header, ping: bool, reply: Option<Packet>)
    requires PoolOk(cfg, s) && HeaderOk(s.conns, h) && NotRecycled(s.conns, h)
    ensures Reply(cfg, s, h, ping, reply).held == s.held
  {
    var s1 := if ping then SetConn(s, h.conn, s.conns[h.conn].(lastPing := s.now)) else s;
    if ping {
      TouchKeepsPool(cfg, s, h.conn, s1.conns[h.conn]);
    }
    if reply.Some? && s1.sendN <= MAX_QUEUED && s1.conns[h.conn].sendCount > MAX_PENDING {
      assert PoolOk(cfg, Discard(s1));
      CloseEffect(cfg, Discard(s1), h.conn);
    }
  }

  lemma ReplyKeepsInv(cfg: Config, s: Server, h: Header, ping: bool, reply: Option<Packet>)
    requires Inv(cfg, s) && HeaderOk(s.conns, h) && NotRecycled(s.conns, h)
    requires reply.Some? ==> s.pass.None? && WellSized(reply.value)
    ensures Inv(cfg, Reply(cfg, s, h, ping, reply))
  {
    var k := s.conns[h.conn].(lastPing := s.now);
    var s1 := if ping then SetConn(s, h.conn, k) else s;
    if ping {
      assert Sound(h.conn, s.conns[h.conn]);
      TouchKeepsInv(cfg, s, h.conn, k);
      TouchKeepsHeader(s, h.conn, k, h);
    }
    if reply.Some? {
      MsgSendKeepsInv(cfg, s1, h, reply.value);
    }
  }

  // ---- The send thread ----

  lemma BeginKeepsInv(cfg: Config, s: Server)
    requires Inv(cfg, s) && s.pass.None? && s.sem > 0
    ensures Inv(cfg, s.(sem := s.sem - 1, pass := if s.sendN > 0 then Some(0) else None))
  {
  }

  lemma EndKeepsInv(cfg: Config, s: Server)
    requires Inv(cfg, s) && s.pass.Some? && s.pass.value == |s.sendQ|
    ensures Inv(cfg, s.(pass := None))
  {
  }

  lemma SkipKeepsInv(cfg: Config, s: Server, p: nat)
    requires Inv(cfg, s) && s.pass == Some(p) && p < |s.sendQ| && IsSending(s.conns, s.sendQ[p].h)
    ensures Inv(cfg, s.(pass := Some(p + 1)))
  {
    SkipKeepsStrand(s, p, s.sem);
  }

  lemma DropQueuedKeepsInv(cfg: Config, s: Server, p: nat)
    requires Inv(cfg, s) && s.pass == Some(p) && p < |s.sendQ| && Stale(s.conns, s.sendQ[p].h)
    ensures Inv(cfg, DropQueued(s, p))
  {
    DropKeepsHeaders(s, p);
    DropKeepsAccount(s, p);
    DropKeepsStrand(s, p, s.sem);
    DropKeepsOwned(s, p);
  }

  lemma PickKeepsInv(cfg: Config, s: Server, p: nat, r: SendResult)
    requires Inv(cfg, s) && s.pass == Some(p) && p < |s.sendQ| && Pickable(s.conns, s.sendQ[p].h)
    requires CanResult(s.sendQ[p], r)
    ensures Inv(cfg, PickQueued(s, p, r))
  {
    var m, c := s.sendQ[p], s.sendQ[p].h.conn;
    assert HeaderOk(s.conns, m.h) && Sound(c, s.conns[c]);
    PickKeepsHeaders(s, p, r);
    PickKeepsSound(c, s.conns[c], m, r);
    PickKeepsAccount(s, p, r);
    PickKeepsStrand(s, p, r, s.sem);
    PickKeepsOwned(s, p, r);
    PickMovesOne(s, p, r);
    OneMovesKeepsInv(cfg, s, PickQueued(s, p, r), c);
  }

  lemma PickMovesOne(s: Server, p: nat, r: SendResult)
    requires p < |s.sendQ| && s.sendQ[p].h.conn < |s.conns| && s.conns[s.sendQ[p].h.conn].lastPing <= s.now
    ensures OneMoves(s, PickQueued(s, p, r), s.sendQ[p].h.conn)
    ensures PickQueued(s, p, r).conns[s.sendQ[p].h.conn] == SendFirst(s.conns[s.sendQ[p].h.conn], s.sendQ[p], r)
  {
    StartCounts(s.conns[s.sendQ[p].h.conn], s.sendQ[p], r);
  }

  lemma SendKeepsInv(cfg: Config, s: Server, r: SendResult)
    requires Inv(cfg, s) && s.pass.Some? && s.pass.value < |s.sendQ|
    requires CanResult(s.sendQ[s.pass.value], r)
    ensures s.sendQ[s.pass.value].h.conn < |s.conns| && Inv(cfg, SendStep(s, r))
  {
    var p := s.pass.value;
    var h := s.sendQ[p].h;
    assert HeaderOk(s.conns, h);
    if Stale(s.conns, h) {
      DropQueuedKeepsInv(cfg, s, p);
    } else if IsSending(s.conns, h) {
      SkipKeepsInv(cfg, s, p);
    } else {
      PickKeepsInv(cfg, s, p, r);
    }
  }

  // ---- Write events ----

  lemma WriteKeepsInv(cfg: Config, s: Server, c: nat, n: nat)
    requires Inv(cfg, s) && IsClient(s, c) && s.conns[c].sendMem.Some? && n <= s.conns[c].left
    ensures s.conns[c].sent + n <= |Data(s.conns[c].sendMem.value)| && Inv(cfg, WriteMore(s, c, n))
  {
    assert Sound(c, s.conns[c]);
    WriteKeepsSound(s, c, n);
    var s' := WriteMore(s, c, n);
    var k := s'.conns[c];
    WriteMoves(s, c, n);
    TouchKeepsHeaders(s, c, k);
    TouchKeepsAccount(s, c, k);
    WriteKeepsOwned(s, c, n);
    if n < s.conns[c].left {
      TouchKeepsStrand(s, c, k, s.sem);
    }
    OneMovesKeepsInv(cfg, s, s', c);
  }

  lemma WriteMoves(s: Server, c: nat, n: nat)
    requires c < |s.conns| && s.conns[c].sendMem.Some? && n <= s.conns[c].left && s.conns[c].lastPing <= s.now
    requires s.conns[c].sent + n <= |Data(s.conns[c].sendMem.value)|
    ensures var s', k := WriteMore(s, c, n), s.conns[c];
            OneMoves(s, s', c) && SameAccount(k, s'.conns[c]) && s'.sendQ == s.sendQ && s'.sendN == s.sendN &&
            s'.recvQ == s.recvQ && (n < k.left ==> s'.sem == s.sem && s'.conns[c].throwCount == k.throwCount) &&
            (n == k.left ==> s'.sem == s.sem + 1)
  {
  }

  /** InvBut without the count of owners. */
  predicate InvSend(cfg: Config, s: Server, c: nat) {
    HeadersOk(s) && PoolOk(cfg, s) && SoundBut(s.conns, c) && AccountOk(s) &&
    StrandBut(s.conns, s.sendQ, s.sem, s.pass, c) && TimersOk(cfg, s) && HeartOk(cfg, s)
  }

  /** After a failure the connection's send fields no longer tell what is being sent. */
  lemma BrokenKeepsInv(cfg: Config, s: Server, c: nat, k: Conn)
    requires Inv(cfg, s) && c < |s.conns| && SameAccount(s.conns[c], k) && Steady(c, k) && k.lastPing == s.conns[c].lastPing
    ensures InvSend(cfg, SetConn(s, c, k), c)
  {
    TouchKeepsHeaders(s, c, k);
    TouchKeepsPool(cfg, s, c, k);
    TouchKeepsAccount(s, c, k);
    TouchKeepsTimers(cfg, s, c, k);
    HeartStays(cfg, s, s.conns[c := k]);
    OthersKeepStrand(s, c, k, s.sem);
  }

  lemma FailedKeepsInv(cfg: Config, s: Server, c: nat)
    requires Inv(cfg, s) && c < |s.conns|
    ensures InvBut(cfg, WriteFailed(s, c), c)
  {
    assert Sound(c, s.conns[c]);
    FailedIsSteady(s, c);
    WriteFailedKeepsOwned(s, c);
    BrokenKeepsInv(cfg, s, c, WriteFailed(s, c).conns[c]);
  }

  lemma ErrorKeepsInv(cfg: Config, s: Server, c: nat)
    requires Inv(cfg, s) && c < |s.conns|
    ensures InvBut(cfg, ErrorBits(s, c), c)
  {
    assert Sound(c, s.conns[c]);
    FailedIsSteady(s, c);
    TouchKeepsOwned(s, c, ErrorBits(s, c).conns[c]);
    BrokenKeepsInv(cfg, s, c, ErrorBits(s, c).conns[c]);
  }

  // ---- Recycling ----

  lemma RecycleKeepsInv(cfg: Config, s: Server, i: nat)
    requires Inv(cfg, s) && i < |s.recy|
    requires forall j :: 0 <= j < |s.held| && s.held[j].checked ==> s.held[j].msg.h.conn != s.recy[i]
    ensures Inv(cfg, RecycleOne(s, i))
  {
    var c := s.recy[i];
    var s1 := s.(recy := RemoveAt(s.recy, i), recyN := s.recyN - 1);
    RecycleKeepsPool(cfg, s, i);
    FreeKeepsHeaders(s1, c);
    FreeKeepsTimers(cfg, s1, c);
    assert Sound(c, s.conns[c]) && s.conns[c].(open := false) == s.conns[c];
    FreeKeepsRest(cfg, s1, c);
  }

  // ---- The timer thread ----

  /** The invariant during the drain loop, in which entries may be overdue. */
  ghost predicate InvDraining(cfg: Config, s: Server) {
    HeadersOk(s) && PoolOk(cfg, s) && ConnsOk(s.conns) && AccountOk(s) && StrandOk(s) &&
    TimersOk(cfg, s) && DueOk(cfg, s) && OwnedOnce(s)
  }

  lemma DrainOneKeepsInv(cfg: Config, s: Server)
    requires cfg.wait > 0 && cfg.kick && Expired(s.timers, s.passTime) && InvDraining(cfg, s)
    ensures InvDraining(cfg, DrainOne(cfg, s))
  {
    DrainKeepsHeaders(cfg, s);
    DrainKeepsTimers(cfg, s);
    DrainKeepsDue(cfg, s);
    DrainKeepsOwned(cfg, s);
  }

  function Joined(cfg: Config, s: Server, q: Queue, due: seq<Timer>): Server {
    s.(timers := q, idle := s.idle + due, next := if cfg.timeOutKick then s.next else s.next + |due|)
  }

  lemma JoinedStep(cfg: Config, s: Server, q: Queue, due: seq<Timer>)
    requires cfg.wait > 0 && Expired(s.timers, s.passTime)
    ensures Joined(cfg, s, q, [s.timers.entries[0]] + due) == Joined(cfg, DrainOne(cfg, s), q, due)
  {
    Associate(s.idle, [s.timers.entries[0]], due);
  }

  lemma DrainOneFields(cfg: Config, s: Server, s1: Server)
    requires cfg.wait > 0 && Expired(s.timers, s.passTime) && s1 == DrainOne(cfg, s)
    ensures s1.timers == TakeExpired(s.timers, s.passTime, cfg.wait, !cfg.timeOutKick, s.next)
    ensures s1.passTime == s.passTime && s1.next == (if !cfg.timeOutKick then s.next + 1 else s.next)
  {
  }

  lemma DrainFirst(cfg: Config, s: Server, s1: Server, rest: (Queue, seq<Timer>))
    requires cfg.wait > 0 && Expired(s.timers, s.passTime) && s1.passTime == s.passTime
    requires s1.timers == TakeExpired(s.timers, s.passTime, cfg.wait, !cfg.timeOutKick, s.next)
    requires s1.next == (if !cfg.timeOutKick then s.next + 1 else s.next)
    requires rest == Drain(s1.timers, s1.passTime, cfg.wait, !cfg.timeOutKick, s1.next)
    ensures Drain(s.timers, s.passTime, cfg.wait, !cfg.timeOutKick, s.next) == (rest.0, [s.timers.entries[0]] + rest.1)
  {
    DrainStep(s.timers, s.passTime, cfg.wait, !cfg.timeOutKick, s.next);
  }

  /** Draining is taking expired entries one by one. */
  lemma DrainedStep(cfg: Config, s: Server)
    requires cfg.wait > 0 && Expired(s.timers, s.passTime)
    ensures Drained(cfg, s) == Drained(cfg, DrainOne(cfg, s))
  {
    var s1 := DrainOne(cfg, s);
    DrainOneFields(cfg, s, s1);
    var rest := Drain(s1.timers, s1.passTime, cfg.wait, !cfg.timeOutKick, s1.next);
    DrainFirst(cfg, s, s1, rest);
    DrainedIsJoined(cfg, s, rest.0, [s.timers.entries[0]] + rest.1);
    DrainedIsJoined(cfg, s1, rest.0, rest.1);
    JoinedStep(cfg, s, rest.0, rest.1);
  }

  lemma DrainedIsJoined(cfg: Config, s: Server, q: Queue, due: seq<Timer>)
    requires cfg.wait > 0 && Drain(s.timers, s.passTime, cfg.wait, !cfg.timeOutKick, s.next) == (q, due)
    ensures Drained(cfg, s) == Joined(cfg, s, q, due)
  {
  }

  lemma DrainedDone(cfg: Config, s: Server)
    requires cfg.wait > 0 && !Expired(s.timers, s.passTime)
    ensures Drained(cfg, s) == s
  {
    assert s.idle + [] == s.idle;
  }

  lemma {:induction false} DrainedKeepsInv(cfg: Config, s: Server)
    requires cfg.wait > 0 && cfg.kick && InvDraining(cfg, s)
    ensures Inv(cfg, Drained(cfg, s))
    decreases ExpiredCount(s.timers.entries, s.passTime)
  {
    if Expired(s.timers, s.passTime) {
      DrainedStep(cfg, s);
      TakeExpiredShrinks(s.timers, s.passTime, cfg.wait, !cfg.timeOutKick, s.next);
      DrainOneKeepsInv(cfg, s);
      DrainedKeepsInv(cfg, DrainOne(cfg, s));
    } else {
      DrainedDone(cfg, s);
      NothingExpired(s.timers, s.passTime);
    }
  }

  lemma MonitorKeepsInv(cfg: Config, s: Server)
    requires cfg.wait > 0 && cfg.kick && s.idle == [] && Inv(cfg, s)
    ensures Inv(cfg, MonitorPass(cfg, s))
  {
    var s1 := s.(passTime := s.now);
    assert DueOk(cfg, s1) by {
      forall i | 0 <= i < |s.timers.entries|
        ensures Due(cfg, s.conns, s.idle, s.now, s.timers.entries[i])
      {
        assert Due(cfg, s.conns, s.idle, s.passTime, s.timers.entries[i]);
      }
    }
    if s.timers.size > 0 && s.timers.first < s.now {
      DrainedKeepsInv(cfg, s1);
    }
  }

  lemma DropIdleKeepsInv(cfg: Config, s: Server)
    requires Inv(cfg, s) && s.idle != [] && s.idle[0].h.conn < |s.conns| && !Kicks(cfg, s, s.idle[0].h)
    ensures Inv(cfg, DropIdle(s))
  {
    DropIdleKeepsTimers(cfg, s);
    DropIdleKeepsHeart(cfg, s);
    DropIdleKeepsOwned(s);
  }

  lemma KickKeepsInv(cfg: Config, s: Server)
    requires Inv(cfg, s) && s.idle != []
    ensures s.idle[0].h.conn < |s.conns|
    ensures var s1 := KickIdle(cfg, s);
            Inv(cfg, s1) && s1.idle == s.idle && s.idle[0].h.conn < |s1.conns| && !Kicks(cfg, s1, s.idle[0].h)
  {
    var h := s.idle[0].h;
    assert HeaderOk(s.conns, h);
    if Kicks(cfg, s, h) {
      InvIsInvBut(cfg, s, h.conn);
      CloseKeepsInv(cfg, s, h.conn);
      CloseEffect(cfg, s, h.conn);
    }
  }

  lemma TickKeepsInv(cfg: Config, s: Server, d: nat)
    requires Inv(cfg, s)
    ensures Inv(cfg, s.(now := s.now + d))
  {
  }

  // ---- Any step ----

  /** The steps of the epoll thread. */
  predicate OfEpoll(step: Step) {
    step.Accepting? || step.Reading? || step.ReadClosed? || step.Writing? || step.WriteBroken? || step.ErrorEvent?
  }

  lemma EpollKeepsInv(cfg: Config, s: Server, step: Step)
    requires cfg.wait > 0 && Inv(cfg, s) && Enabled(cfg, s, step) && OfEpoll(step)
    ensures Inv(cfg, Next(cfg, s, step))
  {
    match step
    case Accepting(_, registered) => AcceptKeepsInv(cfg, s, registered);
    case Reading(c, chunk, flood) => ReadKeepsInv(cfg, s, c, chunk, flood);
    case ReadClosed(c) => InvIsInvBut(cfg, s, c); CloseKeepsInv(cfg, s, c);
    case Writing(c, n) => WriteKeepsInv(cfg, s, c, n);
    case WriteBroken(c) => FailedKeepsInv(cfg, s, c); CloseKeepsInv(cfg, WriteFailed(s, c), c);
    case ErrorEvent(c) => ErrorKeepsInv(cfg, s, c); CloseKeepsInv(cfg, ErrorBits(s, c), c);
  }

  /** The steps of the workers. */
  predicate OfWorkers(step: Step) {
    step.Taking? || step.Checking? || step.Replying?
  }

  lemma WorkersKeepInv(cfg: Config, s: Server, step: Step)
    requires cfg.wait > 0 && Inv(cfg, s) && Enabled(cfg, s, step) && OfWorkers(step)
    ensures Inv(cfg, Next(cfg, s, step))
  {
    match step
    case Taking => TakeKeepsInv(cfg, s);
    case Checking(i, valid) =>
      if valid && s.conns[s.held[i].msg.h.conn].sequence == s.held[i].msg.h.sequence {
        CheckKeepsInv(cfg, s, i);
      } else {
        DropHeldKeepsInv(cfg, s, i);
      }
    case Replying(i, ping, reply) =>
      ReplyKeepsInv(cfg, s, s.held[i].msg.h, ping, reply);
      MsgSendKeepsHeld(cfg, s, s.held[i].msg.h, ping, reply);
      DropHeldKeepsInv(cfg, Reply(cfg, s, s.held[i].msg.h, ping, reply), i);
  }

  /** Every step of every thread keeps the invariant. */
  lemma StepKeepsInv(cfg: Config, s: Server, step: Step)
    requires cfg.wait > 0 && Inv(cfg, s) && Enabled(cfg, s, step)
    ensures Inv(cfg, Next(cfg, s, step))
  {
    if OfEpoll(step) {
      EpollKeepsInv(cfg, s, step);
    } else if OfWorkers(step) {
      WorkersKeepInv(cfg, s, step);
    } else {
      OthersKeepInv(cfg, s, step);
    }
  }

  lemma OthersKeepInv(cfg: Config, s: Server, step: Step)
    requires cfg.wait > 0 && Inv(cfg, s) && Enabled(cfg, s, step) && !OfEpoll(step) && !OfWorkers(step)
    ensures Inv(cfg, Next(cfg, s, step))
  {
    match step
    case SendBegin => BeginKeepsInv(cfg, s);
    case SendNext(r) => SendKeepsInv(cfg, s, r);
    case SendEnd => EndKeepsInv(cfg, s);
    case Recycle(i) => RecycleKeepsInv(cfg, s, i);
    case Monitor => MonitorKeepsInv(cfg, s);
    case PingCheck => KickKeepsInv(cfg, s); DropIdleKeepsInv(cfg, KickIdle(cfg, s));
    case Tick(d) => TickKeepsInv(cfg, s, d);
  }
}
