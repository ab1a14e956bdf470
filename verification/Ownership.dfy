/** Every memory block has one owner, or has been freed once. */
module Ownership {
  import opened Bits
  import opened Common
  import opened Framing
  import opened Timers
  import opened ServerState
  import opened ServerInvariant
  import opened ConnectionPool

  // ---- Counting ----

  lemma {:induction false} ConnUsesUpdate(conns: seq<Conn>, c: nat, k: Conn, id: nat)
    requires c < |conns|
    ensures ConnUses(conns[c := k], id) + ConnBlocks(conns[c])[id] == ConnUses(conns, id) + ConnBlocks(k)[id]
  {
    if c > 0 {
      ConnUsesUpdate(conns[1..], c - 1, k, id);
      assert conns[c := k][1..] == conns[1..][c - 1 := k];
    } else {
      assert conns[c := k][1..] == conns[1..];
    }
  }

  lemma {:induction false} ConnUsesAppend(conns: seq<Conn>, k: Conn, id: nat)
    ensures ConnUses(conns + [k], id) == ConnUses(conns, id) + ConnBlocks(k)[id]
  {
    if conns == [] {
      assert conns + [k] == [k] && [k][1..] == [];
    } else {
      ConnUsesAppend(conns[1..], k, id);
      assert (conns + [k])[1..] == conns[1..] + [k];
    }
  }

  /** The blocks of a connection, one pointer at a time. */
  lemma BlocksAt(k: Conn, id: nat)
    ensures ConnBlocks(k)[id] ==
            (if k.recvMem.Some? && k.recvMem.value.buf == id then 1 else 0) +
            (if k.sendMem.Some? && k.sendMem.value.buf == id then 1 else 0)
  {
  }

  function Is(buf: nat, id: nat): nat { if buf == id then 1 else 0 }

  lemma {:induction false} MsgUsesSplit(a: seq<Msg>, b: seq<Msg>, id: nat)
    ensures MsgUses(a + b, id) == MsgUses(a, id) + MsgUses(b, id)
  {
    if a == [] {
      assert a + b == b;
    } else {
      MsgUsesSplit(a[1..], b, id);
      assert (a + b)[1..] == a[1..] + b;
    }
  }

  lemma MsgUsesAppend(q: seq<Msg>, m: Msg, id: nat)
    ensures MsgUses(q + [m], id) == MsgUses(q, id) + Is(m.buf, id)
  {
    MsgUsesSplit(q, [m], id);
    assert [m][1..] == [];
  }

  lemma MsgUsesRemove(q: seq<Msg>, i: nat, id: nat)
    requires i < |q|
    ensures MsgUses(q, id) == MsgUses(RemoveAt(q, i), id) + Is(q[i].buf, id)
  {
    MsgUsesSplit(q[..i], q[i + 1..], id);
    MsgUsesSplit(q[..i] + [q[i]], q[i + 1..], id);
    MsgUsesAppend(q[..i], q[i], id);
    assert q == q[..i] + [q[i]] + q[i + 1..];
  }

  lemma {:induction false} HeldUsesSplit(a: seq<Held>, b: seq<Held>, id: nat)
    ensures HeldUses(a + b, id) == HeldUses(a, id) + HeldUses(b, id)
  {
    if a == [] {
      assert a + b == b;
    } else {
      HeldUsesSplit(a[1..], b, id);
      assert (a + b)[1..] == a[1..] + b;
    }
  }

  lemma HeldUsesAround(q: seq<Held>, i: nat, x: Held, id: nat)
    requires i < |q|
    ensures HeldUses(q, id) == HeldUses(RemoveAt(q, i), id) + Is(q[i].msg.buf, id)
    ensures HeldUses(q[i := x], id) == HeldUses(RemoveAt(q, i), id) + Is(x.msg.buf, id)
    ensures HeldUses(q + [x], id) == HeldUses(q, id) + Is(x.msg.buf, id)
  {
    HeldUsesSplit(q, [x], id);
    HeldUsesSplit(q[..i], q[i + 1..], id);
    HeldUsesSplit(q[..i], [q[i]] + q[i + 1..], id);
    HeldUsesSplit(q[..i], [x] + q[i + 1..], id);
    assert q == q[..i] + ([q[i]] + q[i + 1..]) && q[i := x] == q[..i] + ([x] + q[i + 1..]);
    assert [x][1..] == [] && ([x] + q[i + 1..])[1..] == q[i + 1..] && ([q[i]] + q[i + 1..])[1..] == q[i + 1..];
  }

  lemma {:induction false} TimerUsesSplit(a: seq<Timer>, b: seq<Timer>, id: nat)
    ensures TimerUses(a + b, id) == TimerUses(a, id) + TimerUses(b, id)
  {
    if a == [] {
      assert a + b == b;
    } else {
      TimerUsesSplit(a[1..], b, id);
      assert (a + b)[1..] == a[1..] + b;
    }
  }

  lemma TimerUsesInsert(t: seq<Timer>, e: Timer, id: nat)
    ensures TimerUses(Insert(t, e), id) == TimerUses(t, id) + Is(e.buf, id)
    ensures TimerUses(t + [e], id) == TimerUses(t, id) + Is(e.buf, id)
  {
    var p := UpperBound(t, e.key);
    TimerUsesSplit(t[..p], t[p..], id);
    TimerUsesSplit(t[..p] + [e], t[p..], id);
    TimerUsesSplit(t[..p], [e], id);
    TimerUsesSplit(t, [e], id);
    assert t == t[..p] + t[p..] && [e][1..] == [];
  }

  /** Deleting a connection's entries frees exactly their blocks. */
  lemma {:induction false} TimerUsesWithout(t: seq<Timer>, c: nat, id: nat)
    ensures TimerUses(t, id) == TimerUses(Without(t, c), id) + TimerBlocks(OfConn(t, c))[id]
  {
    if t != [] {
      TimerUsesWithout(t[1..], c, id);
      if t[0].h.conn == c {
        assert ([t[0]] + OfConn(t[1..], c))[1..] == OfConn(t[1..], c);
      } else {
        assert ([t[0]] + Without(t[1..], c))[1..] == Without(t[1..], c);
      }
    }
  }

  ghost predicate EachOwned(s: Server) {
    forall id: nat :: Owners(s, id) == if id < s.next then 1 else 0
  }

  lemma OwnedBy(s: Server)
    requires EachOwned(s)
    ensures OwnedOnce(s)
  {
    forall id: nat
      ensures Pointers(s.conns, s.recvQ, s.held, s.sendQ, s.timers.entries, s.idle, id) + s.freed[id] == if id < s.next then 1 else 0
    {
      assert Owners(s, id) == if id < s.next then 1 else 0;
    }
  }

  // ---- Operations ----

  function NewBlocks(s: Server, s': Server): multiset<nat> {
    if s'.next > s.next then multiset{s.next} else multiset{}
  }

  /** Only connection c and the freed blocks change. */
  predicate OneChanges(s: Server, s': Server, c: nat, k: Conn) {
    c < |s.conns| && s'.conns == s.conns[c := k] && s'.recvQ == s.recvQ && s'.held == s.held &&
    s'.sendQ == s.sendQ && s'.timers == s.timers && s'.idle == s.idle && s.next <= s'.next <= s.next + 1
  }

  /** No block is lost or doubled when the connection takes a new one or frees what it no longer points to. */
  lemma ConnKeepsOwned(s: Server, s': Server, c: nat, k: Conn)
    requires OwnedOnce(s) && OneChanges(s, s', c, k)
    requires ConnBlocks(k) + s'.freed == ConnBlocks(s.conns[c]) + s.freed + NewBlocks(s, s')
    ensures OwnedOnce(s')
  {
    forall id: nat
      ensures Owners(s', id) == if id < s'.next then 1 else 0
    {
      assert Owners(s, id) == if id < s.next then 1 else 0;
      ConnUsesUpdate(s.conns, c, k, id);
      assert (ConnBlocks(k) + s'.freed)[id] == (ConnBlocks(s.conns[c]) + s.freed + NewBlocks(s, s'))[id];
    }
    OwnedBy(s');
  }

  lemma TouchKeepsOwned(s: Server, c: nat, k: Conn)
    requires OwnedOnce(s) && c < |s.conns| && k.recvMem == s.conns[c].recvMem && k.sendMem == s.conns[c].sendMem
    ensures OwnedOnce(SetConn(s, c, k))
  {
    var s' := SetConn(s, c, k);
    forall id: nat
      ensures Owners(s', id) == if id < s'.next then 1 else 0
    {
      assert Owners(s, id) == if id < s.next then 1 else 0;
      ConnUsesUpdate(s.conns, c, k, id);
      BlocksAt(k, id);
      BlocksAt(s.conns[c], id);
    }
    OwnedBy(s');
  }

  lemma GetKeepsOwned(s: Server, s1: Server, c: nat)
    requires OwnedOnce(s) && ConnsOk(s.conns) && HandedOut(s, s1, c)
    ensures OwnedOnce(s1)
  {
    forall id: nat
      ensures Owners(s1, id) == if id < s1.next then 1 else 0
    {
      assert Owners(s, id) == if id < s.next then 1 else 0;
      GetKeepsUses(s, s1, c, id);
    }
    OwnedBy(s1);
  }

  lemma GetKeepsUses(s: Server, s1: Server, c: nat, id: nat)
    requires ConnsOk(s.conns) && HandedOut(s, s1, c)
    ensures ConnUses(s1.conns, id) == ConnUses(s.conns, id)
  {
    if c < |s.conns| {
      assert Sound(c, s.conns[c]);
      ConnUsesUpdate(s.conns, c, s1.conns[c], id);
    } else {
      ConnUsesAppend(s.conns, s1.conns[c], id);
    }
  }

  lemma FreeKeepsOwned(s: Server, c: nat)
    requires OwnedOnce(s) && c < |s.conns|
    ensures OwnedOnce(FreeConnection(s, c))
  {
    var s' := FreeConnection(s, c);
    forall id: nat
      ensures Owners(s', id) == if id < s'.next then 1 else 0
    {
      assert Owners(s, id) == if id < s.next then 1 else 0;
      ConnUsesUpdate(s.conns, c, s'.conns[c], id);
    }
    OwnedBy(s');
  }

  lemma RegisterKeepsOwned(cfg: Config, s: Server, c: nat)
    requires OwnedOnce(s) && c < |s.conns|
    ensures OwnedOnce(Register(cfg, s, c))
  {
    var s', e := Register(cfg, s, c), Timer(s.now + cfg.wait, Current(s.conns, c), s.next);
    if cfg.kick {
      assert s'.timers.entries == Insert(s.timers.entries, e) && s'.idle == s.idle && s'.freed == s.freed;
      TimersKeepOwned(s, s', e);
    } else {
      forall id: nat
        ensures Owners(s', id) == if id < s'.next then 1 else 0
      {
        assert Owners(s, id) == if id < s.next then 1 else 0;
      }
      OwnedBy(s');
    }
  }

  lemma TimersKeepOwned(s: Server, s': Server, e: Timer)
    requires OwnedOnce(s) && e.buf == s.next && s'.next == s.next + 1 && s'.freed == s.freed && s'.conns == s.conns
    requires s'.recvQ == s.recvQ && s'.held == s.held && s'.sendQ == s.sendQ
    requires (s'.timers.entries == Insert(s.timers.entries, e) && s'.idle == s.idle) ||
             (s.timers.entries != [] && s'.timers.entries == Insert(s.timers.entries[1..], e) &&
              s'.idle == s.idle + [s.timers.entries[0]])
    ensures OwnedOnce(s')
  {
    forall id: nat
      ensures Owners(s', id) == if id < s'.next then 1 else 0
    {
      assert Owners(s, id) == if id < s.next then 1 else 0;
      if s'.idle == s.idle {
        TimerUsesInsert(s.timers.entries, e, id);
      } else {
        TimerUsesInsert(s.timers.entries[1..], e, id);
        TimerUsesInsert(s.idle, s.timers.entries[0], id);
      }
    }
    OwnedBy(s');
  }

  lemma CloseKeepsOwned(cfg: Config, s: Server, c: nat)
    requires OwnedOnce(s) && PoolOk(cfg, s) && Closable(s, c)
    ensures OwnedOnce(CloseConn(cfg, s, c))
  {
    CloseEffect(cfg, s, c);
    ClosedKeepsOwned(s, CloseConn(cfg, s, c), c, cfg.kick);
  }

  lemma SameUses(conns: seq<Conn>, c: nat, k: Conn, id: nat)
    requires c < |conns| && k.recvMem == conns[c].recvMem && k.sendMem == conns[c].sendMem
    ensures ConnUses(conns[c := k], id) == ConnUses(conns, id)
  {
    ConnUsesUpdate(conns, c, k, id);
    BlocksAt(k, id);
    BlocksAt(conns[c], id);
  }

  lemma ClosedKeepsOwned(s: Server, s': Server, c: nat, kick: bool)
    requires OwnedOnce(s) && c < |s.conns| && c < |s'.conns| && s'.conns == s.conns[c := s'.conns[c]]
    requires s'.conns[c].recvMem == s.conns[c].recvMem && s'.conns[c].sendMem == s.conns[c].sendMem
    requires s'.recvQ == s.recvQ && s'.held == s.held && s'.sendQ == s.sendQ && s'.idle == s.idle && s'.next == s.next
    requires s'.timers == (if kick then Delete(s.timers, c) else s.timers)
    requires s'.freed == (if kick then s.freed + TimerBlocks(OfConn(s.timers.entries, c)) else s.freed)
    ensures OwnedOnce(s')
  {
    forall id: nat
      ensures Owners(s', id) == if id < s'.next then 1 else 0
    {
      assert Owners(s, id) == if id < s.next then 1 else 0;
      SameUses(s.conns, c, s'.conns[c], id);
      TimersAreFreed(s.timers, s'.timers, s.freed, s'.freed, c, kick, id);
    }
    OwnedBy(s');
  }

  lemma TimersAreFreed(q: Queue, q': Queue, freed: multiset<nat>, freed': multiset<nat>, c: nat, kick: bool, id: nat)
    requires q' == (if kick then Delete(q, c) else q)
    requires freed' == (if kick then freed + TimerBlocks(OfConn(q.entries, c)) else freed)
    ensures TimerUses(q'.entries, id) + freed'[id] == TimerUses(q.entries, id) + freed[id]
  {
    TimerUsesWithout(q.entries, c, id);
  }

  lemma StampKeepsOwned(s: Server, c: nat)
    requires OwnedOnce(s) && c < |s.conns| && s.conns[c].recvMem == None
    ensures OwnedOnce(Stamped(s, c))
  {
    ConnKeepsOwned(s, Stamped(s, c), c, Stamped(s, c).conns[c]);
  }

  lemma HandOverKeepsOwned(s: Server, c: nat, p: Packet, flood: bool)
    requires OwnedOnce(s) && c < |s.conns| && s.conns[c].recvMem.Some?
    ensures OwnedOnce(HandOver(s, c, p, flood))
  {
    var s', k, stamp := HandOver(s, c, p, flood), s.conns[c], s.conns[c].recvMem.value;
    var k', m := k.(rx := INITIAL, recvMem := None), Msg(stamp.h, stamp.buf, p);
    assert s'.conns == s.conns[c := k'] && s'.recvQ == (if flood then s.recvQ else s.recvQ + [m]);
    assert s'.freed == (if flood then s.freed + multiset{m.buf} else s.freed);
    forall id: nat
      ensures Owners(s', id) == if id < s'.next then 1 else 0
    {
      assert Owners(s, id) == if id < s.next then 1 else 0;
      ConnUsesUpdate(s.conns, c, k', id);
      BlocksAt(k, id);
      BlocksAt(k', id);
      MsgUsesAppend(s.recvQ, m, id);
    }
    OwnedBy(s');
  }

  lemma ReceiveKeepsOwned(s: Server, c: nat, chunk: seq<Byte>, flood: bool)
    requires OwnedOnce(s) && CanReceive(s, c, chunk)
    ensures OwnedOnce(ReceiveBytes(s, c, chunk, flood).0)
  {
    var (rx, out) := Receive(s.conns[c].rx, chunk);
    var s1 := if Allocates(s.conns[c], chunk) then Stamped(s, c) else s;
    if Allocates(s.conns[c], chunk) {
      StampKeepsOwned(s, c);
    }
    match out
    case None => TouchKeepsOwned(s1, c, s1.conns[c].(rx := rx));
    case Some(p) => HandOverKeepsOwned(s1, c, p, flood);
  }

  lemma TakeKeepsOwned(s: Server)
    requires OwnedOnce(s) && s.recvQ != []
    ensures OwnedOnce(s.(recvQ := s.recvQ[1..], held := s.held + [Held(s.recvQ[0], false)]))
  {
    var s' := s.(recvQ := s.recvQ[1..], held := s.held + [Held(s.recvQ[0], false)]);
    forall id: nat
      ensures Owners(s', id) == if id < s'.next then 1 else 0
    {
      assert Owners(s, id) == if id < s.next then 1 else 0;
      HeldUsesSplit(s.held, [Held(s.recvQ[0], false)], id);
      assert [Held(s.recvQ[0], false)][1..] == [];
    }
    OwnedBy(s');
  }

  lemma CheckKeepsOwned(s: Server, i: nat)
    requires OwnedOnce(s) && i < |s.held|
    ensures OwnedOnce(s.(held := s.held[i := Held(s.held[i].msg, true)]))
  {
    var s' := s.(held := s.held[i := Held(s.held[i].msg, true)]);
    forall id: nat
      ensures Owners(s', id) == if id < s'.next then 1 else 0
    {
      assert Owners(s, id) == if id < s.next then 1 else 0;
      HeldUsesAround(s.held, i, Held(s.held[i].msg, true), id);
    }
    OwnedBy(s');
  }

  lemma DropHeldKeepsOwned(s: Server, i: nat)
    requires OwnedOnce(s) && i < |s.held|
    ensures OwnedOnce(DropHeld(s, i))
  {
    var s' := DropHeld(s, i);
    forall id: nat
      ensures Owners(s', id) == if id < s'.next then 1 else 0
    {
      assert Owners(s, id) == if id < s.next then 1 else 0;
      HeldUsesAround(s.held, i, s.held[i], id);
    }
    OwnedBy(s');
  }

  lemma DiscardKeepsOwned(s: Server)
    requires OwnedOnce(s)
    ensures OwnedOnce(Discard(s))
  {
    forall id: nat
      ensures Owners(Discard(s), id) == if id < s.next + 1 then 1 else 0
    {
      assert Owners(s, id) == if id < s.next then 1 else 0;
    }
    OwnedBy(Discard(s));
  }

  lemma EnqueueKeepsOwned(s: Server, h: Header, pkt: Packet)
    requires OwnedOnce(s) && h.conn < |s.conns|
    ensures OwnedOnce(Enqueue(s, h, pkt))
  {
    var s', m := Enqueue(s, h, pkt), Msg(h, s.next, pkt);
    var k, k' := s.conns[h.conn], s'.conns[h.conn];
    assert k'.recvMem == k.recvMem && k'.sendMem == k.sendMem;
    assert s'.conns == s.conns[h.conn := k'] && s'.sendQ == s.sendQ + [m];
    forall id: nat
      ensures Owners(s', id) == if id < s'.next then 1 else 0
    {
      assert Owners(s, id) == if id < s.next then 1 else 0;
      ConnUsesUpdate(s.conns, h.conn, k', id);
      BlocksAt(k, id);
      BlocksAt(k', id);
      MsgUsesAppend(s.sendQ, m, id);
    }
    OwnedBy(s');
  }

  lemma DropKeepsOwned(s: Server, p: nat)
    requires OwnedOnce(s) && p < |s.sendQ|
    ensures OwnedOnce(DropQueued(s, p))
  {
    forall id: nat
      ensures Owners(DropQueued(s, p), id) == if id < s.next then 1 else 0
    {
      assert Owners(s, id) == if id < s.next then 1 else 0;
      MsgUsesRemove(s.sendQ, p, id);
    }
    OwnedBy(DropQueued(s, p));
  }

  lemma StartBlocks(k: Conn, m: Msg, r: SendResult)
    ensures var k' := SendFirst(k, m, r);
            k'.recvMem == k.recvMem && (k'.sendMem == None || k'.sendMem == Some(m))
  {
  }

  lemma PickKeepsOwned(s: Server, p: nat, r: SendResult)
    requires OwnedOnce(s) && p < |s.sendQ| && s.sendQ[p].h.conn < |s.conns| && s.conns[s.sendQ[p].h.conn].sendMem == None
    ensures OwnedOnce(PickQueued(s, p, r))
  {
    var m, s' := s.sendQ[p], PickQueued(s, p, r);
    var k, k' := s.conns[m.h.conn], SendFirst(s.conns[m.h.conn], m, r);
    StartBlocks(k, m, r);
    assert s'.freed == if k'.sendMem.None? then s.freed + multiset{m.buf} else s.freed;
    forall id: nat
      ensures Owners(s', id) == if id < s'.next then 1 else 0
    {
      assert Owners(s, id) == if id < s.next then 1 else 0;
      ConnUsesUpdate(s.conns, m.h.conn, k', id);
      MsgUsesRemove(s.sendQ, p, id);
      PickMovesBlock(k, k', m, s.freed, s'.freed, id);
      assert Owners(s', id) - ConnUses(s'.conns, id) - MsgUses(s'.sendQ, id) - s'.freed[id] ==
             Owners(s, id) - ConnUses(s.conns, id) - MsgUses(s.sendQ, id) - s.freed[id];
    }
    OwnedBy(s');
  }

  lemma PickMovesBlock(k: Conn, k': Conn, m: Msg, freed: multiset<nat>, freed': multiset<nat>, id: nat)
    requires k.sendMem == None && k'.recvMem == k.recvMem && (k'.sendMem == None || k'.sendMem == Some(m))
    requires freed' == if k'.sendMem.None? then freed + multiset{m.buf} else freed
    ensures ConnBlocks(k')[id] + freed'[id] == ConnBlocks(k)[id] + freed[id] + Is(m.buf, id)
  {
    BlocksAt(k, id);
    BlocksAt(k', id);
  }

  /** Picking overwrites psendMemPointer: no block is lost exactly when it was null. */
  lemma PickOwnsOnce(s: Server, p: nat, r: SendResult)
    requires OwnedOnce(s) && p < |s.sendQ| && s.sendQ[p].h.conn < |s.conns|
    ensures OwnedOnce(PickQueued(s, p, r)) <==> s.conns[s.sendQ[p].h.conn].sendMem == None
  {
    var m, k := s.sendQ[p], s.conns[s.sendQ[p].h.conn];
    if k.sendMem == None {
      PickKeepsOwned(s, p, r);
    } else {
      PickLosesBlock(s, p, r, k.sendMem.value.buf);
    }
  }

  lemma PickLosesBlock(s: Server, p: nat, r: SendResult, id: nat)
    requires OwnedOnce(s) && p < |s.sendQ| && s.sendQ[p].h.conn < |s.conns|
    requires s.conns[s.sendQ[p].h.conn].sendMem.Some? && s.conns[s.sendQ[p].h.conn].sendMem.value.buf == id
    ensures !OwnedOnce(PickQueued(s, p, r))
  {
    var m, s' := s.sendQ[p], PickQueued(s, p, r);
    var k, k' := s.conns[m.h.conn], SendFirst(s.conns[m.h.conn], m, r);
    assert Owners(s, id) == if id < s.next then 1 else 0;
    ConnUsesAt(s.conns, m.h.conn, id);
    MsgUsesRemove(s.sendQ, p, id);
    BlocksAt(k, id);
    StartBlocks(k, m, r);
    BlocksAt(k', id);
    ConnUsesUpdate(s.conns, m.h.conn, k', id);
    assert s'.freed[id] == 0;
    assert Owners(s', id) == 0;
  }

  lemma {:induction false} ConnUsesAt(conns: seq<Conn>, c: nat, id: nat)
    requires c < |conns|
    ensures ConnUses(conns, id) >= ConnBlocks(conns[c])[id]
  {
    if c > 0 {
      ConnUsesAt(conns[1..], c - 1, id);
    }
  }

  lemma WriteKeepsOwned(s: Server, c: nat, n: nat)
    requires OwnedOnce(s) && c < |s.conns| && s.conns[c].sendMem.Some? && n <= s.conns[c].left
    requires s.conns[c].sent + n <= |Data(s.conns[c].sendMem.value)|
    ensures OwnedOnce(WriteMore(s, c, n))
  {
    var s' := WriteMore(s, c, n);
    ConnKeepsOwned(s, s', c, s'.conns[c]);
  }

  lemma WriteFailedKeepsOwned(s: Server, c: nat)
    requires OwnedOnce(s) && c < |s.conns|
    ensures OwnedOnce(WriteFailed(s, c))
  {
    var s' := WriteFailed(s, c);
    forall id: nat
      ensures Owners(s', id) == if id < s'.next then 1 else 0
    {
      assert Owners(s, id) == if id < s.next then 1 else 0;
      ConnUsesUpdate(s.conns, c, s'.conns[c], id);
    }
    OwnedBy(s');
  }

  lemma DrainKeepsOwned(cfg: Config, s: Server)
    requires OwnedOnce(s) && cfg.wait > 0 && Expired(s.timers, s.passTime)
    ensures OwnedOnce(DrainOne(cfg, s))
  {
    var s', first := DrainOne(cfg, s), s.timers.entries[0];
    if cfg.timeOutKick {
      forall id: nat
        ensures Owners(s', id) == if id < s'.next then 1 else 0
      {
        assert Owners(s, id) == if id < s.next then 1 else 0;
        TimerUsesInsert(s.idle, first, id);
      }
      OwnedBy(s');
    } else {
      TimersKeepOwned(s, s', Timer(s.passTime + cfg.wait, first.h, s.next));
    }
  }

  lemma DropIdleKeepsOwned(s: Server)
    requires OwnedOnce(s) && s.idle != []
    ensures OwnedOnce(DropIdle(s))
  {
    forall id: nat
      ensures Owners(DropIdle(s), id) == if id < s.next then 1 else 0
    {
      assert Owners(s, id) == if id < s.next then 1 else 0;
    }
    OwnedBy(DropIdle(s));
  }
}
