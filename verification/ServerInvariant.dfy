/** What every reachable state of the server satisfies, one predicate for each concern. */
module ServerInvariant {
  import opened Bits
  import opened Common
  import opened Framing
  import opened Timers
  import opened ServerState

  // ---- Stamped headers ----

  /** A header never runs ahead of its connection, and has the connection's sequence number exactly
      while the incarnation that stamped it is in use. */
  predicate HeaderOk(conns: seq<Conn>, h: Header) {
    h.conn < |conns| &&
    var k := conns[h.conn];
    !k.listener && h.inc <= k.inc && h.sequence <= k.sequence &&
    (h.sequence == k.sequence <==> k.place == InUse && h.inc == k.inc)
  }

  predicate MsgsOk(conns: seq<Conn>, q: seq<Msg>) {
    forall i :: 0 <= i < |q| ==> HeaderOk(conns, q[i].h)
  }

  /** The connection of a message that passed the sequence guard is not recycled before the worker is done. */
  predicate HeldOk(conns: seq<Conn>, q: seq<Held>) {
    forall i :: 0 <= i < |q| ==> HeaderOk(conns, q[i].msg.h) && (q[i].checked ==> NotRecycled(conns, q[i].msg.h))
  }

  predicate NotRecycled(conns: seq<Conn>, h: Header) {
    h.conn < |conns| && conns[h.conn].place != Free && conns[h.conn].inc == h.inc
  }

  predicate IdleOk(conns: seq<Conn>, t: seq<Timer>) {
    forall i :: 0 <= i < |t| ==> HeaderOk(conns, t[i].h)
  }

  predicate HeadersFit(conns: seq<Conn>, recvQ: seq<Msg>, held: seq<Held>, sendQ: seq<Msg>, idle: seq<Timer>) {
    MsgsOk(conns, recvQ) && HeldOk(conns, held) && MsgsOk(conns, sendQ) && IdleOk(conns, idle)
  }

  predicate HeadersOk(s: Server) {
    HeadersFit(s.conns, s.recvQ, s.held, s.sendQ, s.idle)
  }

  // ---- The pool ----

  predicate Distinct(q: seq<nat>) {
    forall i, j :: 0 <= i < j < |q| ==> q[i] != q[j]
  }

  /** The list holds exactly the connections at one place of the life cycle, each once. */
  predicate Lists(conns: seq<Conn>, q: seq<nat>, place: Place) {
    Distinct(q) &&
    (forall i :: 0 <= i < |q| ==> q[i] < |conns| && conns[q[i]].place == place) &&
    (forall c :: 0 <= c < |conns| && conns[c].place == place ==> c in q)
  }

  function IsOnline(k: Conn): nat {
    if k.place == InUse && !k.listener then 1 else 0
  }

  function Clients(conns: seq<Conn>): nat {
    if conns == [] then 0 else IsOnline(conns[0]) + Clients(conns[1..])
  }

  /** The pool may outgrow five times the connection limit by one, or start out larger for the listening sockets. */
  function PoolLimit(cfg: Config): nat {
    if cfg.ports > 5 * cfg.workers + 1 then cfg.ports else 5 * cfg.workers + 1
  }

  /** The lists follow the places, the counters follow the lists, and the clients are counted. */
  predicate PoolFit(cfg: Config, conns: seq<Conn>, free: seq<nat>, recy: seq<nat>,
                    totalN: int, freeN: int, recyN: int, online: int) {
    Lists(conns, free, Free) && Lists(conns, recy, Recycling) &&
    (forall c :: 0 <= c < |conns| && conns[c].listener ==> conns[c].place == InUse) &&
    totalN == |conns| && freeN == |free| && recyN == |recy| && online == Clients(conns) <= cfg.workers &&
    |conns| <= PoolLimit(cfg)
  }

  predicate PoolOk(cfg: Config, s: Server) {
    PoolFit(cfg, s.conns, s.free, s.recy, s.totalN, s.freeN, s.recyN, s.online)
  }

  // ---- One connection ----

  /** What send() was asked to send of the picked messages, except those whose first send failed. */
  function Carried(picks: seq<Pick>): seq<Byte> {
    if picks == [] then []
    else Carried(picks[..|picks| - 1]) + (if picks[|picks| - 1].lost then [] else Data(picks[|picks| - 1].msg))
  }

  /** A header stamped for connection c by its present incarnation. */
  predicate Own(c: nat, k: Conn, h: Header) {
    h.conn == c && h.inc == k.inc && h.sequence <= k.sequence && (h.sequence == k.sequence <==> k.place == InUse)
  }

  /** What holds of a connection at any place. */
  predicate Steady(c: nat, k: Conn) {
    Framing.Valid(k.rx) && (k.open <==> k.place == InUse) &&
    (if k.place == Free then k.recvMem == None && k.sendMem == None else k.recvMem.Some? <==> InBody(k.rx)) &&
    (k.recvMem.Some? ==> Own(c, k, k.recvMem.value.h)) &&
    (k.sendMem.Some? ==> Own(c, k, k.sendMem.value.h)) &&
    (forall i :: 0 <= i < |k.picks| ==> k.picks[i].msg.h.conn == c && k.picks[i].msg.h.inc == k.inc) &&
    k.wire <= Carried(k.picks)
  }

  /** Either nothing is being sent, or the last picked packet is partly sent and epoll watches for
      room; the kernel has whole packets back to back and the sent part of that one. */
  predicate SendOk(k: Conn) {
    match k.sendMem
    case None => k.throwCount == 0 && !k.epollOut && k.wire == Carried(k.picks)
    case Some(m) =>
      k.throwCount == 1 && k.epollOut && k.left > 0 && k.sent + k.left == |Data(m)| &&
      k.picks != [] && k.picks[|k.picks| - 1] == Pick(m, false) &&
      k.wire == Carried(k.picks[..|k.picks| - 1]) + Data(m)[..k.sent]
  }

  predicate Sound(c: nat, k: Conn) {
    Steady(c, k) && (k.place == InUse ==> SendOk(k))
  }

  predicate ConnsOk(conns: seq<Conn>) {
    forall c :: 0 <= c < |conns| ==> Sound(c, conns[c])
  }

  // ---- The send queue ----

  /** The queued messages with a given header, in order. */
  function QueueOf(q: seq<Msg>, h: Header): seq<Msg> {
    if q == [] then []
    else if q[0].h == h then [q[0]] + QueueOf(q[1..], h)
    else QueueOf(q[1..], h)
  }

  function PickMsgs(picks: seq<Pick>): (r: seq<Msg>)
    ensures |r| == |picks|
    ensures forall i :: 0 <= i < |picks| ==> r[i] == picks[i].msg
  {
    if picks == [] then [] else PickMsgs(picks[..|picks| - 1]) + [picks[|picks| - 1].msg]
  }

  /** The pending count of a connection in use is exact, and every message queued for it is either
      still queued or was picked, once. */
  predicate Accounted(conns: seq<Conn>, sendQ: seq<Msg>, c: nat)
    requires c < |conns|
  {
    var k, queued := conns[c], QueueOf(sendQ, Current(conns, c));
    k.sendCount == |queued| <= MAX_PENDING + 1 &&
    multiset(k.enqueued) == multiset(PickMsgs(k.picks)) + multiset(queued)
  }

  predicate AccountFit(conns: seq<Conn>, sendQ: seq<Msg>, sendN: int, pass: Option<nat>) {
    sendN == |sendQ| <= MAX_QUEUED + 1 && (pass.Some? ==> pass.value <= |sendQ|) &&
    (forall i :: 0 <= i < |sendQ| ==> WellSized(sendQ[i].pkt)) &&
    forall c :: 0 <= c < |conns| && conns[c].place == InUse ==> Accounted(conns, sendQ, c)
  }

  predicate AccountOk(s: Server) {
    AccountFit(s.conns, s.sendQ, s.sendN, s.pass)
  }

  predicate Stale(conns: seq<Conn>, h: Header) {
    h.conn < |conns| && conns[h.conn].sequence != h.sequence
  }

  predicate IsSending(conns: seq<Conn>, h: Header) {
    h.conn < |conns| && conns[h.conn].throwCount > 0
  }

  /** The send thread has been or will be woken for every message it could send. */
  predicate StrandFit(conns: seq<Conn>, sendQ: seq<Msg>, sem: nat, pass: Option<nat>) {
    sem > 0 ||
    forall i :: 0 <= i < |sendQ| ==>
      Stale(conns, sendQ[i].h) || IsSending(conns, sendQ[i].h) || (pass.Some? && pass.value <= i)
  }

  predicate StrandOk(s: Server) {
    StrandFit(s.conns, s.sendQ, s.sem, s.pass)
  }

  // ---- Timers and heartbeat ----

  predicate OneEach(t: seq<Timer>) {
    forall i, j :: 0 <= i < j < |t| ==> t[i].h.conn != t[j].h.conn
  }

  /** The header is that of a client in use. */
  predicate Live(conns: seq<Conn>, h: Header) {
    h.conn < |conns| && conns[h.conn].place == InUse && !conns[h.conn].listener && h == Current(conns, h.conn)
  }

  predicate AllLive(conns: seq<Conn>, t: seq<Timer>) {
    forall i :: 0 <= i < |t| ==> Live(conns, t[i].h)
  }

  predicate Has(t: seq<Timer>, h: Header) {
    exists i :: 0 <= i < |t| && t[i].h == h
  }

  /** Every client in use has a timer entry, unless it expired and is about to be closed for it. */
  predicate TimersFit(cfg: Config, conns: seq<Conn>, q: Queue, online: int, idle: seq<Timer>) {
    Consistent(q) && OneEach(q.entries) && AllLive(conns, q.entries) &&
    (cfg.kick && !cfg.timeOutKick ==> |q.entries| == online) &&
    if cfg.kick then
      forall c :: 0 <= c < |conns| && conns[c].place == InUse && !conns[c].listener ==> Timed(cfg, q, idle, Current(conns, c))
    else q.entries == [] && idle == []
  }

  predicate Timed(cfg: Config, q: Queue, idle: seq<Timer>, h: Header) {
    Has(q.entries, h) || (cfg.timeOutKick && Has(idle, h))
  }

  predicate TimersOk(cfg: Config, s: Server) {
    TimersFit(cfg, s.conns, s.timers, s.online, s.idle)
  }

  /** A timer entry is due within the heartbeat window, or its check is still to be made. */
  predicate Due(cfg: Config, conns: seq<Conn>, idle: seq<Timer>, passTime: int, e: Timer) {
    e.h.conn < |conns| &&
    (cfg.timeOutKick || e.key <= conns[e.h.conn].lastPing + 4 * cfg.wait + 10 ||
     (Has(idle, e.h) && e.key == passTime + cfg.wait))
  }

  predicate DueFit(cfg: Config, conns: seq<Conn>, entries: seq<Timer>, idle: seq<Timer>, passTime: int, now: int) {
    passTime <= now && (forall c :: 0 <= c < |conns| ==> conns[c].lastPing <= now) &&
    forall i :: 0 <= i < |entries| ==> Due(cfg, conns, idle, passTime, entries[i])
  }

  predicate NoneOverdue(entries: seq<Timer>, passTime: int) {
    forall i :: 0 <= i < |entries| ==> passTime <= entries[i].key
  }

  predicate HeartOk(cfg: Config, s: Server) {
    DueFit(cfg, s.conns, s.timers.entries, s.idle, s.passTime, s.now) && NoneOverdue(s.timers.entries, s.passTime)
  }

  // ---- Memory blocks ----

  function ConnUses(conns: seq<Conn>, id: nat): nat {
    if conns == [] then 0 else ConnBlocks(conns[0])[id] + ConnUses(conns[1..], id)
  }

  function MsgUses(q: seq<Msg>, id: nat): nat {
    if q == [] then 0 else (if q[0].buf == id then 1 else 0) + MsgUses(q[1..], id)
  }

  function HeldUses(q: seq<Held>, id: nat): nat {
    if q == [] then 0 else (if q[0].msg.buf == id then 1 else 0) + HeldUses(q[1..], id)
  }

  function TimerUses(t: seq<Timer>, id: nat): nat {
    if t == [] then 0 else (if t[0].buf == id then 1 else 0) + TimerUses(t[1..], id)
  }

  /** How many places point to a block. */
  function Pointers(conns: seq<Conn>, recvQ: seq<Msg>, held: seq<Held>, sendQ: seq<Msg>,
                    entries: seq<Timer>, idle: seq<Timer>, id: nat): nat {
    ConnUses(conns, id) + MsgUses(recvQ, id) + HeldUses(held, id) + MsgUses(sendQ, id) +
    TimerUses(entries, id) + TimerUses(idle, id)
  }

  /** Every allocated block has one owner or was freed, once. */
  ghost predicate OwnedFit(conns: seq<Conn>, recvQ: seq<Msg>, held: seq<Held>, sendQ: seq<Msg>,
                           entries: seq<Timer>, idle: seq<Timer>, freed: multiset<nat>, next: nat) {
    forall id: nat :: Pointers(conns, recvQ, held, sendQ, entries, idle, id) + freed[id] == if id < next then 1 else 0
  }

  /** How many places point to a block, plus how often it was freed. */
  function Owners(s: Server, id: nat): nat {
    Pointers(s.conns, s.recvQ, s.held, s.sendQ, s.timers.entries, s.idle, id) + s.freed[id]
  }

  ghost predicate OwnedOnce(s: Server) {
    OwnedFit(s.conns, s.recvQ, s.held, s.sendQ, s.timers.entries, s.idle, s.freed, s.next)
  }

  // ---- All of it ----

  ghost predicate Inv(cfg: Config, s: Server) {
    HeadersOk(s) && PoolOk(cfg, s) && ConnsOk(s.conns) && AccountOk(s) && StrandOk(s) &&
    TimersOk(cfg, s) && HeartOk(cfg, s) && OwnedOnce(s)
  }
}
