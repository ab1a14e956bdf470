/** One worker process of the server: the connection pool, the receive and send queues, the timer
    queue, and the steps that the epoll, worker, send, recycle and timer threads take on them. */
module ServerState {
  import opened Bits
  import opened Common
  import opened Framing
  import opened Timers

  const MAX_QUEUED := 50000
  const MAX_PENDING := 400

  datatype Config = Config(
    workers: nat,       // m_worker_connections
    ports: nat,         // m_ListenPortCount
    recyWait: nat,      // m_RecyConnectionWaitTime
    kick: bool,         // m_ifkickTimeCount == 1
    wait: nat,          // m_iWaitTime, at least 5
    timeOutKick: bool)  // m_ifTimeOutKick == 1

  /** History: where a pooled connection is in its life cycle. */
  datatype Place = Free | InUse | Recycling

  /** A message in memory: message header, memory block, and packet. */
  datatype Msg = Msg(h: Header, buf: nat, pkt: Packet)

  /** What send() is asked to send of a message: as many bytes as its length field says. */
  function Data(m: Msg): Packet {
    Declared(m.pkt)
  }

  /** The block a packet is being received into, stamped when its header was complete. */
  datatype Stamp = Stamp(h: Header, buf: nat)

  /** History: a message the send thread picked; `lost` when its first send failed for good. */
  datatype Pick = Pick(msg: Msg, lost: bool)

  /** ngx_connection_s */
  datatype Conn = Conn(
    sequence: nat,           // iCurrsequence
    open: bool,              // fd != -1
    rx: Rx,                  // curStat, dataHeadInfo, precvbuf, irecvlen
    recvMem: Option<Stamp>,  // precvMemPointer
    throwCount: int,         // iThrowsendCount
    sendMem: Option<Msg>,    // psendMemPointer
    sent: nat,               // psendbuf, as an offset into the packet
    left: nat,               // isendlen
    epollOut: bool,          // EPOLLOUT in events
    sendCount: int,          // iSendCount
    recyTime: int,           // inRecyTime
    lastPing: int,           // lastPingTime
    // history
    place: Place,
    inc: nat,                // how often GetOneToUse has run
    listener: bool,          // belongs to a listening socket
    enqueued: seq<Msg>,      // messages queued for this incarnation
    picks: seq<Pick>,        // messages of this incarnation picked by the send thread
    wire: seq<Byte>)         // bytes the kernel accepted for this incarnation

  /** A message in the hands of a worker; `checked` once it passed the sequence guard. */
  datatype Held = Held(msg: Msg, checked: bool)

  datatype Server = Server(
    conns: seq<Conn>,        // m_connectionList
    free: seq<nat>,          // m_freeconnectionList
    recy: seq<nat>,          // m_recyconnectionList
    totalN: int,             // m_total_connection_n
    freeN: int,              // m_free_connection_n
    recyN: int,              // m_totol_recyconnection_n
    online: int,             // m_onlineUserCount
    recvQ: seq<Msg>,         // m_MsgRecvQueue of the thread pool
    held: seq<Held>,
    sendQ: seq<Msg>,         // m_MsgSendQueue
    sendN: int,              // m_iSendMsgQueueCount
    sem: nat,                // m_semEventSendQueue
    pass: Option<nat>,       // position of the send thread while it holds m_sendMessageQueueMutex
    discarded: nat,          // m_iDiscardSendPkgCount
    timers: Queue,
    idle: seq<Timer>,        // m_lsIdleList of the timer thread
    passTime: int,           // cur_time of the last monitor pass
    now: int,                // time(NULL)
    next: nat,               // history: number of memory blocks allocated so far
    freed: multiset<nat>)    // history: blocks given to FreeMemory

  // ---- Connections ----

  function NewConn(): Conn {
    Conn(0, false, INITIAL, None, 0, None, 0, 0, false, 0, 0, 0, Free, 0, false, [], [], [])
  }

  function GetOneToUse(k: Conn, now: int): Conn {
    k.(sequence := k.sequence + 1, open := false, rx := INITIAL, recvMem := None, throwCount := 0, sendMem := None,
       epollOut := false, lastPing := now, sendCount := 0,
       place := InUse, inc := k.inc + 1, enqueued := [], picks := [], wire := [])
  }

  function PutOneToFree(k: Conn): Conn {
    k.(sequence := k.sequence + 1, recvMem := None, sendMem := None, throwCount := 0, place := Free)
  }

  /** The memory blocks a connection points to. */
  function ConnBlocks(k: Conn): multiset<nat> {
    (match k.recvMem case None => multiset{} case Some(st) => multiset{st.buf}) +
    (match k.sendMem case None => multiset{} case Some(m) => multiset{m.buf})
  }

  /** The header a message of the current incarnation of a connection carries. */
  function Current(conns: seq<Conn>, c: nat): Header
    requires c < |conns|
  {
    Header(c, conns[c].sequence, conns[c].inc)
  }

  function SetConn(s: Server, c: nat, k: Conn): Server
    requires c < |s.conns|
  {
    s.(conns := s.conns[c := k])
  }

  function RemoveAt<T>(q: seq<T>, i: nat): (r: seq<T>)
    requires i < |q|
    ensures |r| == |q| - 1
  {
    q[..i] + q[i + 1..]
  }

  // ---- The pool ----

  predicate FreeValid(s: Server) {
    forall i :: 0 <= i < |s.free| ==> s.free[i] < |s.conns|
  }

  /** ngx_get_connection, with the socket stored by its caller. */
  function GetConnection(s: Server): (Server, nat)
    requires FreeValid(s)
  {
    if s.free != [] then
      var c := s.free[0];
      (s.(free := s.free[1..], freeN := s.freeN - 1, conns := s.conns[c := GetOneToUse(s.conns[c], s.now).(open := true)]), c)
    else
      (s.(conns := s.conns + [GetOneToUse(NewConn(), s.now).(open := true)], totalN := s.totalN + 1), |s.conns|)
  }

  /** ngx_free_connection */
  function FreeConnection(s: Server, c: nat): Server
    requires c < |s.conns|
  {
    s.(conns := s.conns[c := PutOneToFree(s.conns[c])], free := s.free + [c], freeN := s.freeN + 1,
       freed := s.freed + ConnBlocks(s.conns[c]))
  }

  /** inRecyConnectQueue */
  function InRecyQueue(s: Server, c: nat): Server
    requires c < |s.conns|
  {
    if c in s.recy then s else PushRecycling(Outdated(s, c), c)
  }

  function Outdated(s: Server, c: nat): Server
    requires c < |s.conns|
  {
    SetConn(s, c, s.conns[c].(recyTime := s.now, sequence := s.conns[c].sequence + 1, place := Recycling))
  }

  function PushRecycling(s: Server, c: nat): Server {
    s.(recy := s.recy + [c], recyN := s.recyN + 1, online := s.online - 1)
  }

  /** The timer entries of one connection. */
  function OfConn(t: seq<Timer>, c: nat): seq<Timer> {
    if t == [] then []
    else if t[0].h.conn == c then [t[0]] + OfConn(t[1..], c)
    else OfConn(t[1..], c)
  }

  function TimerBlocks(t: seq<Timer>): multiset<nat> {
    if t == [] then multiset{} else multiset{t[0].buf} + TimerBlocks(t[1..])
  }

  /** zdClosesocketProc */
  function CloseConn(cfg: Config, s: Server, c: nat): Server
    requires c < |s.conns|
  {
    var s1 := if cfg.kick then
                s.(timers := Delete(s.timers, c), freed := s.freed + TimerBlocks(OfConn(s.timers.entries, c)))
              else s;
    var k := s1.conns[c];
    InRecyQueue(SetConn(s1, c, k.(open := false, throwCount := if k.throwCount > 0 then k.throwCount - 1 else k.throwCount)), c)
  }

  // ---- Accepting ----

  /** The admission limits of ngx_event_accept. */
  predicate Admits(cfg: Config, s: Server) {
    s.online < cfg.workers && !(|s.conns| > cfg.workers * 5 && |s.free| < cfg.workers)
  }

  /** A new client; `registered` is false when making the socket non-blocking or adding it to epoll fails. */
  function Accept(cfg: Config, s: Server, registered: bool): Server
    requires FreeValid(s)
  {
    if !Admits(cfg, s) then s
    else
      var (s1, c) := GetConnection(s);
      if registered then Register(cfg, s1, c) else GiveBack(s1, c)
  }

  /** ngx_close_connection on a connection that did not get into epoll */
  function GiveBack(s: Server, c: nat): Server
    requires c < |s.conns|
  {
    FreeConnection(SetConn(s, c, s.conns[c].(open := false)), c)
  }

  function Register(cfg: Config, s: Server, c: nat): Server
    requires c < |s.conns|
  {
    if cfg.kick then
      s.(timers := Add(s.timers, Timer(s.now + cfg.wait, Current(s.conns, c), s.next)), next := s.next + 1,
         online := s.online + 1)
    else s.(online := s.online + 1)
  }

  // ---- Receiving ----

  predicate IsClient(s: Server, c: nat) {
    c < |s.conns| && s.conns[c].place == InUse && !s.conns[c].listener
  }

  predicate CanReceive(s: Server, c: nat, chunk: seq<Byte>) {
    c < |s.conns| && s.conns[c].place == InUse && !s.conns[c].listener &&
    var k := s.conns[c];
    Framing.Valid(k.rx) && (k.recvMem.Some? <==> InBody(k.rx)) && 1 <= |chunk| <= k.rx.want
  }

  /** The first half of ngx_wait_request_handler_proc_p1: a complete header gets a message block with a stamp. */
  function Stamped(s: Server, c: nat): Server
    requires c < |s.conns|
  {
    s.(conns := s.conns[c := s.conns[c].(recvMem := Some(Stamp(Current(s.conns, c), s.next)))], next := s.next + 1)
  }

  /** ngx_wait_request_handler_proc_plast: the message goes to the workers, or is freed when it is a flood. */
  function HandOver(s: Server, c: nat, p: Packet, flood: bool): Server
    requires c < |s.conns| && s.conns[c].recvMem.Some?
  {
    var stamp := s.conns[c].recvMem.value;
    var s1 := SetConn(s, c, s.conns[c].(rx := INITIAL, recvMem := None));
    if flood then s1.(freed := s1.freed + multiset{stamp.buf})
    else s1.(recvQ := s1.recvQ + [Msg(stamp.h, stamp.buf, p)])
  }

  /** Whether these bytes complete a header of a packet that is received further. */
  predicate Allocates(k: Conn, chunk: seq<Byte>)
    requires Framing.Valid(k.rx) && 1 <= |chunk| <= k.rx.want
  {
    var (rx, out) := Receive(k.rx, chunk);
    !InBody(k.rx) && (InBody(rx) || out.Some?)
  }

  /** What ngx_read_request_handler does with received bytes, up to the point where a flooding
      client is closed. */
  function ReceiveBytes(s: Server, c: nat, chunk: seq<Byte>, flood: bool): (Server, bool)
    requires CanReceive(s, c, chunk)
  {
    var (rx, out) := Receive(s.conns[c].rx, chunk);
    var s1 := if Allocates(s.conns[c], chunk) then Stamped(s, c) else s;
    match out
    case None => (SetConn(s1, c, s1.conns[c].(rx := rx)), false)
    case Some(p) => (HandOver(s1, c, p, flood), flood)
  }

  function Read(cfg: Config, s: Server, c: nat, chunk: seq<Byte>, flood: bool): Server
    requires CanReceive(s, c, chunk)
  {
    var (s1, kick) := ReceiveBytes(s, c, chunk, flood);
    if kick then CloseConn(cfg, s1, c) else s1
  }

  // ---- Sending ----

  datatype SendResult = Sent(n: nat) | Again | Gone | Broken // > 0, -1, 0, -2

  /** send() takes at least one byte when it succeeds, and never blocks when there is nothing to send. */
  predicate CanResult(m: Msg, r: SendResult) {
    (r.Sent? ==> 1 <= r.n <= |Data(m)|) && (r.Again? ==> Data(m) != [])
  }

  /** msgSend, with the message built by the send helpers from the header of the request. */
  function MsgSend(cfg: Config, s: Server, h: Header, pkt: Packet): Server
    requires h.conn < |s.conns|
  {
    if s.sendN > MAX_QUEUED then Discard(s)
    else if s.conns[h.conn].sendCount > MAX_PENDING then CloseConn(cfg, Discard(s), h.conn)
    else Enqueue(s, h, pkt)
  }

  /** The new message is freed at once. */
  function Discard(s: Server): Server {
    s.(discarded := s.discarded + 1, next := s.next + 1, freed := s.freed + multiset{s.next})
  }

  function Enqueue(s: Server, h: Header, pkt: Packet): Server
    requires h.conn < |s.conns|
  {
    Append(Counted(s, Msg(h, s.next, pkt)), Msg(h, s.next, pkt))
  }

  /** The connection has one more message pending. */
  function Counted(s: Server, m: Msg): Server
    requires m.h.conn < |s.conns|
  {
    var k := s.conns[m.h.conn];
    SetConn(s, m.h.conn, k.(sendCount := k.sendCount + 1,
                            enqueued := if m.h == Current(s.conns, m.h.conn) then k.enqueued + [m] else k.enqueued))
  }

  /** The new message goes to the end of the queue, and the send thread is woken. */
  function Append(s: Server, m: Msg): Server {
    s.(next := s.next + 1, sendQ := s.sendQ + [m], sendN := s.sendN + 1, sem := s.sem + 1)
  }

  /** The send thread takes a message of a connection whose last send is complete, and sends. */
  function SendFirst(k: Conn, m: Msg, r: SendResult): Conn {
    var k1 := k.(sendCount := k.sendCount - 1, sent := 0, left := |Data(m)|);
    match r
    case Sent(n) =>
      if n >= |Data(m)| then
        k1.(sendMem := None, throwCount := 0, picks := k.picks + [Pick(m, false)], wire := k.wire + Data(m))
      else
        k1.(sendMem := Some(m), sent := n, left := |Data(m)| - n, throwCount := k.throwCount + 1, epollOut := true,
            picks := k.picks + [Pick(m, false)], wire := k.wire + Data(m)[..n])
    case Again =>
      k1.(sendMem := Some(m), throwCount := k.throwCount + 1, epollOut := true, picks := k.picks + [Pick(m, false)])
    case Gone => k1.(sendMem := None, throwCount := 0, picks := k.picks + [Pick(m, true)])
    case Broken => k1.(sendMem := None, throwCount := 0, picks := k.picks + [Pick(m, true)])
  }

  /** One turn of the loop of ServerSendQueueThread over the queue. */
  function SendStep(s: Server, r: SendResult): Server
    requires s.pass.Some? && s.pass.value < |s.sendQ| && s.sendQ[s.pass.value].h.conn < |s.conns|
  {
    var p := s.pass.value;
    var m := s.sendQ[p];
    if s.conns[m.h.conn].sequence != m.h.sequence then DropQueued(s, p)
    else if s.conns[m.h.conn].throwCount > 0 then s.(pass := Some(p + 1))
    else PickQueued(s, p, r)
  }

  predicate KnownConns(s: Server) {
    forall i :: 0 <= i < |s.sendQ| ==> s.sendQ[i].h.conn < |s.conns|
  }

  /** A pass of the send thread to the end of the queue; kernel[i] is what send() returns in turn i,
      if it is called. */
  function WholePass(s: Server, kernel: seq<SendResult>): Server
    requires s.pass.Some? && KnownConns(s) && s.pass.value + |kernel| == |s.sendQ|
    decreases |kernel|
  {
    if kernel == [] then s else WholePass(SendStep(s, kernel[0]), kernel[1..])
  }

  /** A stale message leaves the queue and is freed. */
  function DropQueued(s: Server, p: nat): Server
    requires p < |s.sendQ|
  {
    s.(sendQ := RemoveAt(s.sendQ, p), sendN := s.sendN - 1, freed := s.freed + multiset{s.sendQ[p].buf})
  }

  function PickQueued(s: Server, p: nat, r: SendResult): Server
    requires p < |s.sendQ| && s.sendQ[p].h.conn < |s.conns|
  {
    var m := s.sendQ[p];
    var k' := SendFirst(s.conns[m.h.conn], m, r);
    s.(conns := s.conns[m.h.conn := k'], sendQ := RemoveAt(s.sendQ, p), sendN := s.sendN - 1,
       freed := if k'.sendMem.None? then s.freed + multiset{m.buf} else s.freed)
  }

  /** A write event, ngx_write_request_handler, when send() does not fail for good. */
  function WriteMore(s: Server, c: nat, n: nat): Server
    requires c < |s.conns| && s.conns[c].sendMem.Some? && n <= s.conns[c].left
    requires s.conns[c].sent + n <= |Data(s.conns[c].sendMem.value)|
  {
    var k := s.conns[c];
    var m := k.sendMem.value;
    var wire := k.wire + Data(m)[k.sent..k.sent + n];
    if n < k.left then
      SetConn(s, c, k.(sent := k.sent + n, left := k.left - n, wire := wire))
    else
      s.(conns := s.conns[c := k.(epollOut := false, sendMem := None, throwCount := k.throwCount - 1, wire := wire)],
         sem := s.sem + 1, freed := s.freed + multiset{m.buf})
  }

  /** The same handler when send() returns 0 or fails: EPOLLOUT stays set. */
  function WriteFailed(s: Server, c: nat): Server
    requires c < |s.conns|
  {
    var k := s.conns[c];
    s.(conns := s.conns[c := k.(sendMem := None, throwCount := k.throwCount - 1)], sem := s.sem + 1,
       freed := s.freed + (match k.sendMem case None => multiset{} case Some(m) => multiset{m.buf}))
  }

  /** ngx_write_request_handler with the result of its send(). */
  function WriteEvent(s: Server, c: nat, r: SendResult): Server
    requires c < |s.conns| && s.conns[c].sendMem.Some?
    requires r.Sent? ==> r.n <= s.conns[c].left && s.conns[c].sent + r.n <= |Data(s.conns[c].sendMem.value)|
  {
    match r
    case Sent(n) => WriteMore(s, c, n)
    case Again => s
    case Gone => WriteFailed(s, c)
    case Broken => WriteFailed(s, c)
  }

  /** EPOLLOUT with an error bit: only the counter changes. */
  function ErrorBits(s: Server, c: nat): Server
    requires c < |s.conns|
  {
    SetConn(s, c, s.conns[c].(throwCount := s.conns[c].throwCount - 1))
  }

  // ---- Recycling ----

  function RecycleOne(s: Server, i: nat): Server
    requires i < |s.recy| && s.recy[i] < |s.conns|
  {
    FreeConnection(s.(recy := RemoveAt(s.recy, i), recyN := s.recyN - 1), s.recy[i])
  }

  /** The wait of a connection in the recycle list is over. */
  predicate Ripe(cfg: Config, s: Server, c: nat)
    requires c < |s.conns|
  {
    s.conns[c].recyTime + cfg.recyWait <= s.now
  }

  predicate RecyValid(s: Server) {
    forall i :: 0 <= i < |s.recy| ==> s.recy[i] < |s.conns|
  }

  /** The position of the first connection whose wait is over, counted from position i. */
  function FirstRipe(cfg: Config, s: Server, i: nat): (r: nat)
    requires RecyValid(s) && i <= |s.recy|
    ensures i <= r <= |s.recy| && (r < |s.recy| ==> Ripe(cfg, s, s.recy[r]))
    ensures forall j :: i <= j < r ==> !Ripe(cfg, s, s.recy[j])
    decreases |s.recy| - i
  {
    if i == |s.recy| || Ripe(cfg, s, s.recy[i]) then i else FirstRipe(cfg, s, i + 1)
  }

  /** A pass of ServerRecyConnectionThread: it starts over after every connection it frees. */
  function Sweep(cfg: Config, s: Server): Server
    requires RecyValid(s)
    decreases |s.recy|
  {
    var i := FirstRipe(cfg, s, 0);
    if i == |s.recy| then s else Sweep(cfg, RecycleOne(s, i))
  }

  // ---- Steps ----

  datatype Step =
    | Accepting(listener: nat, registered: bool)
    | Reading(c: nat, chunk: seq<Byte>, flood: bool)
    | ReadClosed(c: nat)                  // recv returns 0 or an error
    | Taking                              // a worker pops the receive queue
    | Checking(i: nat, valid: bool)       // ... and checks packet and sequence number
    | Replying(i: nat, ping: bool, reply: Option<Packet>) // ... and runs the handler
    | SendBegin                           // the send thread passes the semaphore
    | SendNext(r: SendResult)
    | SendEnd
    | Writing(c: nat, n: nat)             // a write event; n == 0 stands for EAGAIN
    | WriteBroken(c: nat)                 // a failed write, and the connection is closed
    | ErrorEvent(c: nat)                  // EPOLLOUT with an error bit, and the connection is closed
    | Recycle(i: nat)                     // the recycle thread frees one expired connection
    | Monitor                             // a pass of the timer thread
    | PingCheck                           // procPingTimeOutChecking on the next idle header
    | Tick(d: nat)

  predicate Enabled(cfg: Config, s: Server, step: Step) {
    match step
    case Accepting(l, _) => FreeValid(s) && l < |s.conns| && s.conns[l].listener && s.conns[l].place == InUse
    case Reading(c, chunk, _) => CanReceive(s, c, chunk)
    case ReadClosed(c) => c < |s.conns| && s.conns[c].place != Free && !s.conns[c].listener
    case Taking => s.recvQ != []
    case Checking(i, _) => i < |s.held| && !s.held[i].checked && s.held[i].msg.h.conn < |s.conns|
    case Replying(i, _, reply) =>
      i < |s.held| && s.held[i].checked && s.held[i].msg.h.conn < |s.conns| &&
      (reply.Some? ==> s.pass.None? && WellSized(reply.value))
    case SendBegin => s.pass.None? && s.sem > 0
    case SendNext(r) =>
      s.pass.Some? && s.pass.value < |s.sendQ| && s.sendQ[s.pass.value].h.conn < |s.conns| &&
      CanResult(s.sendQ[s.pass.value], r)
    case SendEnd => s.pass.Some? && s.pass.value == |s.sendQ|
    case Writing(c, n) =>
      IsClient(s, c) && s.conns[c].epollOut && s.conns[c].sendMem.Some? && n <= s.conns[c].left &&
      s.conns[c].sent + n <= |Data(s.conns[c].sendMem.value)|
    case WriteBroken(c) => c < |s.conns| && s.conns[c].place != Free && !s.conns[c].listener
    case ErrorEvent(c) => c < |s.conns| && s.conns[c].place != Free && !s.conns[c].listener
    case Recycle(i) =>
      i < |s.recy| && s.recy[i] < |s.conns| && s.conns[s.recy[i]].recyTime + cfg.recyWait <= s.now &&
      // the recycle delay outlasts the handler of any message that passed the sequence guard
      forall j :: 0 <= j < |s.held| && s.held[j].checked ==> s.held[j].msg.h.conn != s.recy[i]
    case Monitor => cfg.kick && s.idle == []
    case PingCheck => s.idle != [] && s.idle[0].h.conn < |s.conns|
    case Tick(_) => true
  }

  /** The worker is done with a message. */
  function DropHeld(s: Server, i: nat): Server
    requires i < |s.held|
  {
    s.(held := RemoveAt(s.held, i), freed := s.freed + multiset{s.held[i].msg.buf})
  }

  function Reply(cfg: Config, s: Server, h: Header, ping: bool, reply: Option<Packet>): Server
    requires h.conn < |s.conns|
  {
    var s1 := if ping then SetConn(s, h.conn, s.conns[h.conn].(lastPing := s.now)) else s;
    match reply
    case None => s1
    case Some(pkt) => MsgSend(cfg, s1, h, pkt)
  }

  /** Whether the heartbeat check closes the connection of a header. */
  predicate Kicks(cfg: Config, s: Server, h: Header)
    requires h.conn < |s.conns|
  {
    h.sequence == s.conns[h.conn].sequence &&
    (cfg.timeOutKick || s.passTime - s.conns[h.conn].lastPing > cfg.wait * 3 + 10)
  }

  /** procPingTimeOutChecking, up to the release of the header. */
  function KickIdle(cfg: Config, s: Server): Server
    requires s.idle != [] && s.idle[0].h.conn < |s.conns|
  {
    if Kicks(cfg, s, s.idle[0].h) then CloseConn(cfg, s, s.idle[0].h.conn) else s
  }

  function CheckIdle(cfg: Config, s: Server): Server
    requires s.idle != [] && s.idle[0].h.conn < |s.conns|
  {
    DropIdle(KickIdle(cfg, s))
  }

  /** The checked header is freed. */
  function DropIdle(s: Server): Server
  {
    if s.idle == [] then s else s.(idle := s.idle[1..], freed := s.freed + multiset{s.idle[0].buf})
  }

  /** A pass of ServerTimerQueueMonitorThread, up to where it releases the mutex. */
  function MonitorPass(cfg: Config, s: Server): Server
    requires cfg.wait > 0
  {
    var s1 := s.(passTime := s.now);
    if s.timers.size > 0 && s.timers.first < s.now then Drained(cfg, s1) else s1
  }

  /** The expired headers join the idle list. */
  function Drained(cfg: Config, s: Server): Server
    requires cfg.wait > 0
  {
    var (q, due) := Drain(s.timers, s.passTime, cfg.wait, !cfg.timeOutKick, s.next);
    s.(timers := q, idle := s.idle + due, next := if cfg.timeOutKick then s.next else s.next + |due|)
  }

  /** One turn of the drain loop. */
  function DrainOne(cfg: Config, s: Server): Server
    requires cfg.wait > 0 && Expired(s.timers, s.passTime)
  {
    s.(timers := TakeExpired(s.timers, s.passTime, cfg.wait, !cfg.timeOutKick, s.next),
       idle := s.idle + [s.timers.entries[0]], next := if cfg.timeOutKick then s.next else s.next + 1)
  }

  function Next(cfg: Config, s: Server, step: Step): Server
    requires cfg.wait > 0 && Enabled(cfg, s, step)
  {
    match step
    case Accepting(_, registered) => Accept(cfg, s, registered)
    case Reading(c, chunk, flood) => Read(cfg, s, c, chunk, flood)
    case ReadClosed(c) => CloseConn(cfg, s, c)
    case Taking => s.(recvQ := s.recvQ[1..], held := s.held + [Held(s.recvQ[0], false)])
    case Checking(i, valid) =>
      var m := s.held[i].msg;
      if valid && s.conns[m.h.conn].sequence == m.h.sequence then s.(held := s.held[i := Held(m, true)])
      else DropHeld(s, i)
    case Replying(i, ping, reply) => DropHeld(Reply(cfg, s, s.held[i].msg.h, ping, reply), i)
    case SendBegin => s.(sem := s.sem - 1, pass := if s.sendN > 0 then Some(0) else None)
    case SendNext(r) => SendStep(s, r)
    case SendEnd => s.(pass := None)
    case Writing(c, n) => WriteMore(s, c, n)
    case WriteBroken(c) => CloseConn(cfg, WriteFailed(s, c), c)
    case ErrorEvent(c) => CloseConn(cfg, ErrorBits(s, c), c)
    case Recycle(i) => RecycleOne(s, i)
    case Monitor => MonitorPass(cfg, s)
    case PingCheck => CheckIdle(cfg, s)
    case Tick(d) => s.(now := s.now + d)
  }

  // ---- Start-up ----

  /** initconnection followed by the loop of ngx_epoll_init over the listening ports. */
  function Initial(cfg: Config, now: int): Server {
    Listen(PoolOf(cfg.workers, now), cfg.ports)
  }

  function PoolOf(n: nat, now: int): Server {
    Server(seq(n, _ => GetOneToUse(NewConn(), now).(place := Free, inc := 0)), seq(n, i => i), [], n, n, 0, 0,
           [], [], [], 0, 0, None, 0, Queue([], 0, 0), [], now, now, 0, multiset{})
  }

  function Listen(s: Server, ports: nat): Server
    decreases ports
  {
    if ports == 0 || !FreeValid(s) then s else Listen(ListenOne(s), ports - 1)
  }

  /** A connection for one listening socket. */
  function ListenOne(s: Server): Server
    requires FreeValid(s)
  {
    var (s1, c) := GetConnection(s);
    SetConn(s1, c, s1.conns[c].(listener := true))
  }
}
