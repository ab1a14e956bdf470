/** Sequence numbers: a header stamped by one incarnation of a pooled connection is never taken for
    a header of another. */
module Incarnations {
  import opened Bits
  import opened Common
  import opened Framing
  import opened Timers
  import opened ServerState
  import opened ServerInvariant
  import opened ConnectionPool

  /** A connection either keeps its sequence number and place, or gets a greater number and is not
      in use again without a new incarnation. */
  predicate Later(k: Conn, k': Conn) {
    k'.listener == k.listener &&
    ((k'.sequence == k.sequence && k'.inc == k.inc && k'.place == k.place) ||
     (k'.sequence > k.sequence && k'.inc >= k.inc && (k'.place == InUse ==> k'.inc > k.inc)))
  }

  predicate Evolves(conns: seq<Conn>, conns': seq<Conn>) {
    |conns| <= |conns'| && forall c :: 0 <= c < |conns| ==> Later(conns[c], conns'[c])
  }

  lemma HeaderStaysOk(conns: seq<Conn>, conns': seq<Conn>, h: Header)
    requires HeaderOk(conns, h) && Evolves(conns, conns')
    ensures HeaderOk(conns', h)
  {
    assert Later(conns[h.conn], conns'[h.conn]);
  }

  /** No message of a worker that passed the guard loses its connection. */
  predicate GuardHolds(conns: seq<Conn>, conns': seq<Conn>, held: seq<Held>) {
    forall i :: 0 <= i < |held| && held[i].checked && NotRecycled(conns, held[i].msg.h) ==>
      NotRecycled(conns', held[i].msg.h)
  }

  /** Stamped headers survive every change of the connections that only moves them forward. */
  lemma HeadersStayOk(s: Server, conns': seq<Conn>)
    requires HeadersOk(s) && Evolves(s.conns, conns') && GuardHolds(s.conns, conns', s.held)
    ensures HeadersOk(s.(conns := conns'))
  {
    forall i | 0 <= i < |s.recvQ| ensures HeaderOk(conns', s.recvQ[i].h) { HeaderStaysOk(s.conns, conns', s.recvQ[i].h); }
    forall i | 0 <= i < |s.sendQ| ensures HeaderOk(conns', s.sendQ[i].h) { HeaderStaysOk(s.conns, conns', s.sendQ[i].h); }
    forall i | 0 <= i < |s.idle| ensures HeaderOk(conns', s.idle[i].h) { HeaderStaysOk(s.conns, conns', s.idle[i].h); }
    forall i | 0 <= i < |s.held| ensures HeaderOk(conns', s.held[i].msg.h) { HeaderStaysOk(s.conns, conns', s.held[i].msg.h); }
  }

  predicate SamePlace(k: Conn, k': Conn) {
    k'.sequence == k.sequence && k'.inc == k.inc && k'.place == k.place && k'.listener == k.listener
  }

  lemma TouchKeepsHeaders(s: Server, c: nat, k: Conn)
    requires HeadersOk(s) && c < |s.conns| && SamePlace(s.conns[c], k)
    ensures HeadersOk(SetConn(s, c, k))
  {
    HeadersStayOk(s, s.conns[c := k]);
  }

  lemma GetEvolves(s: Server, s1: Server, c: nat)
    requires HandedOut(s, s1, c)
    ensures Evolves(s.conns, s1.conns)
  {
  }

  lemma FreeEvolves(s: Server, c: nat)
    requires c < |s.conns|
    ensures Evolves(s.conns, FreeConnection(s, c).conns)
  {
  }

  lemma CloseEvolves(cfg: Config, s: Server, c: nat)
    requires PoolOk(cfg, s) && Closable(s, c)
    ensures Evolves(s.conns, CloseConn(cfg, s, c).conns)
  {
    CloseEffect(cfg, s, c);
  }

  lemma GetKeepsHeaders(s: Server, s1: Server, c: nat)
    requires HeadersOk(s) && HandedOut(s, s1, c)
    ensures HeadersOk(s1)
  {
    GetEvolves(s, s1, c);
    HeadersStayOk(s, s1.conns);
  }

  lemma FreeKeepsHeaders(s: Server, c: nat)
    requires HeadersOk(s) && c < |s.conns|
    requires forall i :: 0 <= i < |s.held| && s.held[i].checked ==> s.held[i].msg.h.conn != c
    ensures HeadersOk(FreeConnection(s, c))
  {
    FreeEvolves(s, c);
    HeadersStayOk(s, FreeConnection(s, c).conns);
  }

  lemma CloseKeepsHeaders(cfg: Config, s: Server, c: nat)
    requires HeadersOk(s) && PoolOk(cfg, s) && Closable(s, c)
    ensures HeadersOk(CloseConn(cfg, s, c))
  {
    CloseEvolves(cfg, s, c);
    CloseEffect(cfg, s, c);
    HeadersStayOk(s, CloseConn(cfg, s, c).conns);
  }

  lemma DrainKeepsHeaders(cfg: Config, s: Server)
    requires cfg.wait > 0 && Expired(s.timers, s.passTime) && HeadersOk(s) && AllLive(s.conns, s.timers.entries)
    ensures HeadersOk(DrainOne(cfg, s))
  {
    assert Live(s.conns, s.timers.entries[0].h);
  }

  // ---- Operations ----

  /** The connection just handed out is not in the hands of a worker. */
  lemma GiveBackKeepsHeaders(s: Server, s1: Server, c: nat)
    requires HeadersOk(s) && HandedOut(s, s1, c)
    ensures HeadersOk(GiveBack(s1, c))
  {
    GetKeepsHeaders(s, s1, c);
    var k := s1.conns[c].(open := false);
    TouchKeepsHeaders(s1, c, k);
    FreeKeepsHeaders(SetConn(s1, c, k), c);
  }

  lemma HandOverKeepsHeaders(s: Server, c: nat, p: Packet, flood: bool)
    requires HeadersOk(s) && c < |s.conns| && s.conns[c].recvMem.Some? && HeaderOk(s.conns, s.conns[c].recvMem.value.h)
    ensures HeadersOk(HandOver(s, c, p, flood))
  {
    TouchKeepsHeaders(s, c, s.conns[c].(rx := INITIAL, recvMem := None));
  }

  /** A message is stamped by the incarnation that is in use when its header is complete. */
  lemma ReceiveKeepsHeaders(s: Server, c: nat, chunk: seq<Byte>, flood: bool)
    requires HeadersOk(s) && CanReceive(s, c, chunk) && Sound(c, s.conns[c])
    ensures HeadersOk(ReceiveBytes(s, c, chunk, flood).0)
  {
    var (rx, out) := Receive(s.conns[c].rx, chunk);
    var s1 := if Allocates(s.conns[c], chunk) then Stamped(s, c) else s;
    assert HeaderOk(s.conns, Current(s.conns, c));
    TouchKeepsHeaders(s, c, s1.conns[c]);
    match out
    case None => TouchKeepsHeaders(s1, c, s1.conns[c].(rx := rx));
    case Some(p) =>
      TouchKeepsHeader(s, c, s1.conns[c], s1.conns[c].recvMem.value.h);
      HandOverKeepsHeaders(s1, c, p, flood);
  }

  lemma TouchKeepsHeader(s: Server, c: nat, k: Conn, h: Header)
    requires c < |s.conns| && SamePlace(s.conns[c], k) && HeaderOk(s.conns, h)
    ensures HeaderOk(s.conns[c := k], h)
  {
  }

  lemma EnqueueKeepsHeaders(s: Server, h: Header, pkt: Packet)
    requires HeadersOk(s) && HeaderOk(s.conns, h)
    ensures HeadersOk(Enqueue(s, h, pkt))
  {
    TouchKeepsHeaders(s, h.conn, Enqueue(s, h, pkt).conns[h.conn]);
  }

  lemma DropKeepsHeaders(s: Server, p: nat)
    requires HeadersOk(s) && p < |s.sendQ|
    ensures HeadersOk(DropQueued(s, p))
  {
  }

  lemma PickKeepsHeaders(s: Server, p: nat, r: SendResult)
    requires HeadersOk(s) && p < |s.sendQ|
    ensures HeadersOk(PickQueued(s, p, r))
  {
    var c := s.sendQ[p].h.conn;
    TouchKeepsHeaders(s, c, SendFirst(s.conns[c], s.sendQ[p], r));
    DropKeepsHeaders(SetConn(s, c, SendFirst(s.conns[c], s.sendQ[p], r)), p);
  }

  /** A message that passes the guard belongs to the incarnation in use. */
  lemma CheckKeepsHeaders(s: Server, i: nat)
    requires HeadersOk(s) && i < |s.held| && s.conns[s.held[i].msg.h.conn].sequence == s.held[i].msg.h.sequence
    ensures HeadersOk(s.(held := s.held[i := Held(s.held[i].msg, true)]))
  {
  }

  lemma DropHeldKeepsHeaders(s: Server, i: nat)
    requires HeadersOk(s) && i < |s.held|
    ensures HeadersOk(DropHeld(s, i))
  {
  }
}
