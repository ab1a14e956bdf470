/** The send machine: the send thread starts packets, write events finish them, and iThrowsendCount,
    psendMemPointer and EPOLLOUT tell the two apart. */
module Sending {
  import opened Bits
  import opened Common
  import opened Framing
  import opened Timers
  import opened ServerState
  import opened ServerInvariant
  import opened ConnectionPool
  import opened Incarnations

  // ---- One connection ----

  lemma CarriedStep(picks: seq<Pick>, p: Pick)
    ensures Carried(picks + [p]) == Carried(picks) + (if p.lost then [] else Data(p.msg))
    ensures PickMsgs(picks + [p]) == PickMsgs(picks) + [p.msg]
  {
    assert (picks + [p])[..|picks|] == picks;
  }

  lemma NewIsSound(c: nat, k: Conn, now: int)
    ensures Sound(c, GetOneToUse(k, now).(open := true))
  {
  }

  /** The socket is closed before the connection is freed. */
  predicate Freeable(c: nat, k: Conn) {
    !k.open && Steady(c, k.(open := k.place == InUse))
  }

  lemma FreedIsSound(c: nat, k: Conn)
    requires Freeable(c, k)
    ensures Sound(c, PutOneToFree(k))
  {
  }

  lemma ReceiveFields(s: Server, c: nat, chunk: seq<Byte>, flood: bool)
    requires CanReceive(s, c, chunk)
    ensures var k, k' := s.conns[c], ReceiveBytes(s, c, chunk, flood).0.conns[c];
            k' == k.(rx := Receive(k.rx, chunk).0, recvMem := k'.recvMem) && (k'.recvMem.Some? <==> InBody(k'.rx)) &&
            (k'.recvMem.Some? ==> k'.recvMem == k.recvMem || k'.recvMem.value.h == Current(s.conns, c))
  {
    var (rx, out) := Receive(s.conns[c].rx, chunk);
    var s1 := if Allocates(s.conns[c], chunk) then Stamped(s, c) else s;
    match out
    case None =>
      var k1 := s1.conns[c].(rx := rx);
      assert ReceiveBytes(s, c, chunk, flood).0.conns[c] == k1;
      assert k1.recvMem == s1.conns[c].recvMem;
    case Some(p) =>
      assert rx == INITIAL;
      assert ReceiveBytes(s, c, chunk, flood).0.conns[c] == s1.conns[c].(rx := INITIAL, recvMem := None);
  }

  /** Receiving keeps a body buffer exactly while a body is being received. */
  lemma ReceiveKeepsSound(s: Server, c: nat, chunk: seq<Byte>, flood: bool)
    requires CanReceive(s, c, chunk) && Sound(c, s.conns[c])
    ensures Sound(c, ReceiveBytes(s, c, chunk, flood).0.conns[c])
  {
    ReceiveFields(s, c, chunk, flood);
    ReceiveKeepsValid(s.conns[c].rx, chunk);
    RxChangeIsSound(c, s.conns[c], Receive(s.conns[c].rx, chunk).0, ReceiveBytes(s, c, chunk, flood).0.conns[c].recvMem);
  }

  lemma RxChangeIsSound(c: nat, k: Conn, rx: Rx, mem: Option<Stamp>)
    requires Sound(c, k) && k.place == InUse && Framing.Valid(rx) && (mem.Some? <==> InBody(rx))
    requires mem.Some? ==> Own(c, k, mem.value.h)
    ensures Sound(c, k.(rx := rx, recvMem := mem))
  {
  }

  /** Whether the send thread may start a queued message. */
  predicate Pickable(conns: seq<Conn>, h: Header) {
    h.conn < |conns| && !Stale(conns, h) && !IsSending(conns, h)
  }

  /** A connection that may start a packet of its own. */
  predicate Starts(c: nat, k: Conn, m: Msg, r: SendResult) {
    Sound(c, k) && k.place == InUse && k.throwCount <= 0 && Own(c, k, m.h) && CanResult(m, r)
  }

  /** The connection after one more pick `p`, of which the kernel took the bytes `w`. */
  predicate Picked(k: Conn, k': Conn, p: Pick, w: seq<Byte>) {
    k'.picks == k.picks + [p] && k'.wire == k.wire + w && w <= (if p.lost then [] else Data(p.msg)) &&
    (k'.sendMem == None || k'.sendMem == Some(p.msg)) &&
    k'.rx == k.rx && k'.recvMem == k.recvMem && k'.open == k.open && SamePlace(k, k')
  }

  lemma PickedIsSteady(c: nat, k: Conn, k': Conn, p: Pick, w: seq<Byte>)
    requires Steady(c, k) && k.place == InUse && k.wire == Carried(k.picks) && Own(c, k, p.msg.h) && Picked(k, k', p, w)
    ensures Steady(c, k')
  {
    CarriedStep(k.picks, p);
  }

  lemma PickedIsSent(c: nat, k: Conn, k': Conn, p: Pick, w: seq<Byte>)
    requires k.wire == Carried(k.picks) && Picked(k, k', p, w)
    requires if k'.sendMem == None then w == (if p.lost then [] else Data(p.msg)) && k'.throwCount == 0 && !k'.epollOut
             else !p.lost && |w| < |Data(p.msg)| && k'.sent == |w| && k'.left == |Data(p.msg)| - |w| && k'.throwCount == 1 && k'.epollOut
    ensures SendOk(k')
  {
    CarriedStep(k.picks, p);
    assert k'.picks[..|k.picks|] == k.picks;
  }

  /** Starting a packet appends to the wire what the kernel took of it. */
  lemma PickKeepsSound(c: nat, k: Conn, m: Msg, r: SendResult)
    requires Starts(c, k, m, r)
    ensures Sound(c, SendFirst(k, m, r))
  {
    var k' := SendFirst(k, m, r);
    var p := Pick(m, r.Gone? || r.Broken?);
    var w := if r.Sent? then Data(m)[..r.n] else [];
    assert k.wire + [] == k.wire;
    assert r.Sent? && r.n == |Data(m)| ==> w == Data(m);
    PickedIsSteady(c, k, k', p, w);
    PickedIsSent(c, k, k', p, w);
  }

  /** A write event sends the next bytes of the packet in flight. */
  lemma WriteKeepsSound(s: Server, c: nat, n: nat)
    requires c < |s.conns| && Sound(c, s.conns[c]) && s.conns[c].place == InUse
    requires s.conns[c].sendMem.Some? && n <= s.conns[c].left
    ensures s.conns[c].sent + n <= |Data(s.conns[c].sendMem.value)|
    ensures Sound(c, WriteMore(s, c, n).conns[c])
  {
    var k := s.conns[c];
    var m := k.sendMem.value;
    var before := Carried(k.picks[..|k.picks| - 1]);
    SliceStep(before, Data(m), k.sent, n);
    assert Carried(k.picks) == before + Data(m);
  }

  lemma SliceStep(before: seq<Byte>, pkt: Packet, sent: nat, n: nat)
    requires sent + n <= |pkt|
    ensures before + pkt[..sent] + pkt[sent..sent + n] == before + pkt[..sent + n] <= before + pkt
    ensures sent + n == |pkt| ==> before + pkt[..sent + n] == before + pkt
  {
  }

  lemma FailedIsSteady(s: Server, c: nat)
    requires c < |s.conns| && Steady(c, s.conns[c])
    ensures Steady(c, WriteFailed(s, c).conns[c]) && Steady(c, ErrorBits(s, c).conns[c])
  {
  }

  lemma CloseIsSound(cfg: Config, s: Server, c: nat)
    requires PoolOk(cfg, s) && Closable(s, c) && Steady(c, s.conns[c])
    ensures Sound(c, CloseConn(cfg, s, c).conns[c])
  {
    CloseEffect(cfg, s, c);
  }

  // ---- Accounting ----

  lemma {:induction false} QueueOfSplit(a: seq<Msg>, b: seq<Msg>, h: Header)
    ensures QueueOf(a + b, h) == QueueOf(a, h) + QueueOf(b, h)
  {
    if a == [] {
      assert a + b == b;
    } else {
      QueueOfSplit(a[1..], b, h);
      assert (a + b)[1..] == a[1..] + b;
    }
  }

  lemma {:induction false} QueueOfNone(q: seq<Msg>, h: Header)
    requires forall i :: 0 <= i < |q| ==> q[i].h != h
    ensures QueueOf(q, h) == []
  {
    if q != [] {
      QueueOfNone(q[1..], h);
    }
  }

  lemma QueueOfOne(m: Msg, h: Header)
    ensures QueueOf([m], h) == if m.h == h then [m] else []
  {
    assert [m][1..] == [];
  }

  /** What is queued for a header, around one position of the queue. */
  lemma QueueOfAround(q: seq<Msg>, p: nat, h: Header)
    requires p < |q|
    ensures QueueOf(RemoveAt(q, p), h) == QueueOf(q[..p], h) + QueueOf(q[p + 1..], h)
    ensures QueueOf(q, h) == QueueOf(q[..p], h) + (if q[p].h == h then [q[p]] else []) + QueueOf(q[p + 1..], h)
  {
    QueueOfSplit(q[..p], q[p + 1..], h);
    QueueOfSplit(q[..p] + [q[p]], q[p + 1..], h);
    QueueOfSplit(q[..p], [q[p]], h);
    QueueOfOne(q[p], h);
    assert q == q[..p] + [q[p]] + q[p + 1..];
  }

  predicate SameAccount(k: Conn, k': Conn) {
    SamePlace(k, k') && k'.sendCount == k.sendCount && k'.enqueued == k.enqueued && k'.picks == k.picks
  }

  lemma TouchKeepsAccount(s: Server, c: nat, k: Conn)
    requires AccountOk(s) && c < |s.conns| && SameAccount(s.conns[c], k)
    ensures AccountOk(SetConn(s, c, k))
  {
    forall i | 0 <= i < |s.conns| && s.conns[i].place == InUse
      ensures Accounted(s.conns[c := k], s.sendQ, i)
    {
      assert Accounted(s.conns, s.sendQ, i);
      assert Current(s.conns[c := k], i) == Current(s.conns, i);
    }
  }

  /** Taking a connection out of use, or moving it on when it is out of use, ends its account. */
  lemma RetireKeepsAccount(s: Server, c: nat, k: Conn)
    requires AccountOk(s) && c < |s.conns| && k.place != InUse
    ensures AccountOk(SetConn(s, c, k))
  {
    forall i | 0 <= i < |s.conns| && i != c && s.conns[i].place == InUse
      ensures Accounted(s.conns[c := k], s.sendQ, i)
    {
      assert Accounted(s.conns, s.sendQ, i);
    }
  }

  /** Nothing is queued for a new incarnation. */
  lemma FreshIsAccounted(s: Server, s1: Server, c: nat)
    requires HeadersOk(s) && HandedOut(s, s1, c)
    ensures Accounted(s1.conns, s.sendQ, c)
  {
    QueueOfNone(s.sendQ, Current(s1.conns, c));
  }

  lemma GetKeepsAccount(s: Server, s1: Server, c: nat)
    requires AccountOk(s) && HeadersOk(s) && HandedOut(s, s1, c)
    ensures AccountOk(s1)
  {
    FreshIsAccounted(s, s1, c);
    forall i | 0 <= i < |s1.conns| && i != c && s1.conns[i].place == InUse
      ensures Accounted(s1.conns, s.sendQ, i)
    {
      assert Accounted(s.conns, s.sendQ, i);
      SameIsAccounted(s.conns, s1.conns, s.sendQ, i);
    }
  }

  lemma SameIsAccounted(conns: seq<Conn>, conns': seq<Conn>, q: seq<Msg>, c: nat)
    requires c < |conns| && c < |conns'| && SameAccount(conns[c], conns'[c]) && Accounted(conns, q, c)
    ensures Accounted(conns', q, c)
  {
    assert Current(conns', c) == Current(conns, c);
  }

  lemma CloseKeepsAccount(cfg: Config, s: Server, c: nat)
    requires AccountOk(s) && PoolOk(cfg, s) && Closable(s, c)
    ensures AccountOk(CloseConn(cfg, s, c))
  {
    CloseEffect(cfg, s, c);
    RetireKeepsAccount(s, c, CloseConn(cfg, s, c).conns[c]);
  }

  lemma {:induction false} EnqueueKeepsAccounted(s: Server, h: Header, pkt: Packet, c: nat)
    requires AccountOk(s) && HeaderOk(s.conns, h) && NotRecycled(s.conns, h)
    requires s.conns[h.conn].sendCount <= MAX_PENDING
    requires c < |s.conns| && s.conns[c].place == InUse
    ensures Accounted(Enqueue(s, h, pkt).conns, Enqueue(s, h, pkt).sendQ, c)
  {
    var m, cur := Msg(h, s.next, pkt), Current(s.conns, c);
    var k := s.conns[c];
    assert Accounted(s.conns, s.sendQ, c);
    QueueOfSplit(s.sendQ, [m], cur);
    QueueOfOne(m, cur);
    assert multiset(QueueOf(s.sendQ, cur) + [m]) == multiset(QueueOf(s.sendQ, cur)) + multiset{m};
    assert multiset(k.enqueued + [m]) == multiset(k.enqueued) + multiset{m};
    assert c == h.conn <==> h == cur;
    assert Current(Enqueue(s, h, pkt).conns, c) == cur;
    assert QueueOf(s.sendQ, cur) + [] == QueueOf(s.sendQ, cur);
  }

  lemma EnqueueKeepsAccount(s: Server, h: Header, pkt: Packet)
    requires AccountOk(s) && HeaderOk(s.conns, h) && NotRecycled(s.conns, h) && WellSized(pkt)
    requires s.sendN <= MAX_QUEUED && s.conns[h.conn].sendCount <= MAX_PENDING && s.pass == None
    ensures AccountOk(Enqueue(s, h, pkt))
  {
    forall c | 0 <= c < |s.conns| && s.conns[c].place == InUse
      ensures Accounted(Enqueue(s, h, pkt).conns, Enqueue(s, h, pkt).sendQ, c)
    {
      EnqueueKeepsAccounted(s, h, pkt, c);
    }
  }

  lemma DropKeepsAccount(s: Server, p: nat)
    requires AccountOk(s) && HeadersOk(s) && s.pass == Some(p) && p < |s.sendQ| && Stale(s.conns, s.sendQ[p].h)
    ensures AccountOk(DropQueued(s, p))
  {
    forall c | 0 <= c < |s.conns| && s.conns[c].place == InUse
      ensures Accounted(s.conns, RemoveAt(s.sendQ, p), c)
    {
      assert Accounted(s.conns, s.sendQ, c);
      QueueOfAround(s.sendQ, p, Current(s.conns, c));
      assert QueueOf(s.sendQ[..p], Current(s.conns, c)) + [] == QueueOf(s.sendQ[..p], Current(s.conns, c));
    }
  }

  lemma StartCounts(k: Conn, m: Msg, r: SendResult)
    ensures var k' := SendFirst(k, m, r);
            k'.sendCount == k.sendCount - 1 && k'.enqueued == k.enqueued && SamePlace(k, k') &&
            k'.picks == k.picks + [Pick(m, r.Gone? || r.Broken?)]
  {
  }

  lemma PickMoves(k: Conn, k': Conn, queue: seq<Msg>, p: nat, m: Msg, h: Header)
    requires p < |queue| && queue[p] == m && m.h == h
    requires k.sendCount == |QueueOf(queue, h)| <= MAX_PENDING + 1
    requires multiset(k.enqueued) == multiset(PickMsgs(k.picks)) + multiset(QueueOf(queue, h))
    requires PickMsgs(k'.picks) == PickMsgs(k.picks) + [m] && k'.enqueued == k.enqueued && k'.sendCount == k.sendCount - 1
    ensures k'.sendCount == |QueueOf(RemoveAt(queue, p), h)| <= MAX_PENDING + 1
    ensures multiset(k'.enqueued) == multiset(PickMsgs(k'.picks)) + multiset(QueueOf(RemoveAt(queue, p), h))
  {
    QueueOfAround(queue, p, h);
    var a, b := QueueOf(queue[..p], h), QueueOf(queue[p + 1..], h);
    assert multiset(a + [m] + b) == multiset(a + b) + multiset{m};
  }

  lemma PickKeepsAccounted(s: Server, p: nat, r: SendResult)
    requires AccountOk(s) && HeadersOk(s) && p < |s.sendQ| && Pickable(s.conns, s.sendQ[p].h)
    ensures Accounted(PickQueued(s, p, r).conns, RemoveAt(s.sendQ, p), s.sendQ[p].h.conn)
  {
    var m, c := s.sendQ[p], s.sendQ[p].h.conn;
    var k, k' := s.conns[c], SendFirst(s.conns[c], m, r);
    assert HeaderOk(s.conns, m.h) && m.h == Current(s.conns, c);
    assert Accounted(s.conns, s.sendQ, c);
    StartCounts(k, m, r);
    CarriedStep(k.picks, Pick(m, r.Gone? || r.Broken?));
    PickMoves(k, k', s.sendQ, p, m, m.h);
    AccountedHere(s.conns, c, k', RemoveAt(s.sendQ, p));
  }

  lemma AccountedHere(conns: seq<Conn>, c: nat, k: Conn, q: seq<Msg>)
    requires c < |conns| && SamePlace(conns[c], k)
    requires k.sendCount == |QueueOf(q, Current(conns, c))| <= MAX_PENDING + 1
    requires multiset(k.enqueued) == multiset(PickMsgs(k.picks)) + multiset(QueueOf(q, Current(conns, c)))
    ensures Accounted(conns[c := k], q, c)
  {
    assert Current(conns[c := k], c) == Current(conns, c);
  }

  lemma PickKeepsOthers(s: Server, p: nat, r: SendResult, c: nat)
    requires AccountOk(s) && p < |s.sendQ| && s.sendQ[p].h.conn < |s.conns|
    requires c < |s.conns| && s.conns[c].place == InUse && c != s.sendQ[p].h.conn
    ensures Accounted(PickQueued(s, p, r).conns, RemoveAt(s.sendQ, p), c)
  {
    var cur := Current(s.conns, c);
    assert Accounted(s.conns, s.sendQ, c);
    QueueOfAround(s.sendQ, p, cur);
    assert QueueOf(s.sendQ[..p], cur) + [] == QueueOf(s.sendQ[..p], cur);
    assert Current(PickQueued(s, p, r).conns, c) == cur;
  }

  lemma PickKeepsAccount(s: Server, p: nat, r: SendResult)
    requires AccountOk(s) && HeadersOk(s) && s.pass == Some(p) && p < |s.sendQ| && Pickable(s.conns, s.sendQ[p].h)
    ensures AccountOk(PickQueued(s, p, r))
  {
    var s' := PickQueued(s, p, r);
    forall c | 0 <= c < |s'.conns| && s'.conns[c].place == InUse
      ensures Accounted(s'.conns, s'.sendQ, c)
    {
      if c == s.sendQ[p].h.conn { PickKeepsAccounted(s, p, r); } else { PickKeepsOthers(s, p, r, c); }
    }
  }

  // ---- No message is stranded ----

  /** The send thread passes over such a message for now, or drops it. */
  predicate Blocked(conns: seq<Conn>, h: Header) {
    Stale(conns, h) || IsSending(conns, h)
  }

  /** Connections other than c that are sending go on sending. */
  predicate GoOnSending(conns: seq<Conn>, conns': seq<Conn>, c: nat) {
    |conns| <= |conns'| &&
    forall i :: 0 <= i < |conns| && i != c && conns[i].throwCount > 0 && conns'[i].sequence == conns[i].sequence ==>
      conns'[i].throwCount > 0
  }

  /** A message stays blocked when the connections move on, if that of c is stale afterwards. */
  lemma BlockedStays(conns: seq<Conn>, conns': seq<Conn>, c: nat, h: Header)
    requires HeaderOk(conns, h) && Evolves(conns, conns') && GoOnSending(conns, conns', c)
    requires h.conn == c ==> Stale(conns', h)
    ensures Blocked(conns, h) || h.conn == c ==> Blocked(conns', h)
  {
    assert Later(conns[h.conn], conns'[h.conn]);
  }

  // The lemmas below hold for any count `sem`: with the semaphore's they are about wake-ups, with 0
  // they say that the send thread is past blocked messages only.

  /** Like StrandFit, except for the messages of one connection. */
  predicate StrandBut(conns: seq<Conn>, sendQ: seq<Msg>, sem: nat, pass: Option<nat>, c: nat) {
    sem > 0 ||
    forall i :: 0 <= i < |sendQ| ==>
      sendQ[i].h.conn == c || Blocked(conns, sendQ[i].h) || (pass.Some? && pass.value <= i)
  }

  /** When connection c is out of use, or in use anew, nothing queued for it can be stranded. */
  lemma RetireKeepsStrand(conns: seq<Conn>, conns': seq<Conn>, q: seq<Msg>, sem: nat, pass: Option<nat>, c: nat)
    requires StrandBut(conns, q, sem, pass, c) && MsgsOk(conns, q) && Evolves(conns, conns') && GoOnSending(conns, conns', c)
    requires forall i :: 0 <= i < |q| && q[i].h.conn == c ==> Stale(conns', q[i].h)
    ensures StrandFit(conns', q, sem, pass)
  {
    forall i | 0 <= i < |q|
      ensures Blocked(conns, q[i].h) || q[i].h.conn == c ==> Blocked(conns', q[i].h)
    {
      BlockedStays(conns, conns', c, q[i].h);
    }
  }

  lemma GetKeepsStrand(s: Server, s1: Server, c: nat, sem: nat)
    requires StrandFit(s.conns, s.sendQ, sem, s.pass) && HeadersOk(s) && HandedOut(s, s1, c)
    ensures StrandFit(s1.conns, s1.sendQ, sem, s1.pass)
  {
    GetEvolves(s, s1, c);
    RetireKeepsStrand(s.conns, s1.conns, s.sendQ, sem, s.pass, c);
  }

  lemma FreeKeepsStrand(s: Server, c: nat, sem: nat)
    requires StrandFit(s.conns, s.sendQ, sem, s.pass) && HeadersOk(s) && c < |s.conns|
    ensures StrandFit(FreeConnection(s, c).conns, s.sendQ, sem, s.pass)
  {
    FreeEvolves(s, c);
    RetireKeepsStrand(s.conns, FreeConnection(s, c).conns, s.sendQ, sem, s.pass, c);
  }

  lemma CloseKeepsStrand(cfg: Config, s: Server, c: nat, sem: nat)
    requires StrandBut(s.conns, s.sendQ, sem, s.pass, c) && HeadersOk(s) && PoolOk(cfg, s) && Closable(s, c)
    ensures var s' := CloseConn(cfg, s, c); StrandFit(s'.conns, s'.sendQ, sem, s'.pass)
  {
    CloseEvolves(cfg, s, c);
    CloseEffect(cfg, s, c);
    RetireKeepsStrand(s.conns, CloseConn(cfg, s, c).conns, s.sendQ, sem, s.pass, c);
  }

  lemma TouchKeepsStrand(s: Server, c: nat, k: Conn, sem: nat)
    requires StrandFit(s.conns, s.sendQ, sem, s.pass) && c < |s.conns|
    requires k.sequence == s.conns[c].sequence && k.throwCount == s.conns[c].throwCount
    ensures StrandFit(s.conns[c := k], s.sendQ, sem, s.pass)
  {
    var conns' := s.conns[c := k];
    forall i | 0 <= i < |s.sendQ|
      ensures Blocked(s.conns, s.sendQ[i].h) ==> Blocked(conns', s.sendQ[i].h)
    {
    }
  }

  /** Whatever happens to connection c, the messages of the others are not affected. */
  lemma OthersKeepStrand(s: Server, c: nat, k: Conn, sem: nat)
    requires StrandFit(s.conns, s.sendQ, sem, s.pass) && c < |s.conns|
    ensures StrandBut(s.conns[c := k], s.sendQ, sem, s.pass, c)
  {
    forall i | 0 <= i < |s.sendQ| && s.sendQ[i].h.conn != c
      ensures Blocked(s.conns, s.sendQ[i].h) ==> Blocked(s.conns[c := k], s.sendQ[i].h)
    {
    }
  }

  lemma SkipKeepsStrand(s: Server, p: nat, sem: nat)
    requires StrandFit(s.conns, s.sendQ, sem, Some(p)) && p < |s.sendQ| && IsSending(s.conns, s.sendQ[p].h)
    ensures StrandFit(s.conns, s.sendQ, sem, Some(p + 1))
  {
  }

  lemma DropKeepsStrand(s: Server, p: nat, sem: nat)
    requires StrandFit(s.conns, s.sendQ, sem, Some(p)) && p < |s.sendQ|
    ensures StrandFit(s.conns, RemoveAt(s.sendQ, p), sem, Some(p))
  {
  }

  lemma PickKeepsStrand(s: Server, p: nat, r: SendResult, sem: nat)
    requires StrandFit(s.conns, s.sendQ, sem, Some(p)) && p < |s.sendQ| && Pickable(s.conns, s.sendQ[p].h)
    ensures StrandFit(PickQueued(s, p, r).conns, RemoveAt(s.sendQ, p), sem, Some(p))
  {
    var s' := PickQueued(s, p, r);
    forall i | 0 <= i < p
      ensures Blocked(s.conns, s.sendQ[i].h) ==> Blocked(s'.conns, s.sendQ[i].h)
    {
    }
  }
}
