/** The connection pool of net/ngx_c_socket_conn.cpp: every connection is free, in use or waiting to
    be recycled, and the lists and counters say so. */
module ConnectionPool {
  import opened Common
  import opened Timers
  import opened ServerState
  import opened ServerInvariant

  // ---- Lists ----

  lemma ListsKeep(conns: seq<Conn>, q: seq<nat>, place: Place, c: nat, k: Conn)
    requires Lists(conns, q, place) && c < |conns| && (k.place == place <==> conns[c].place == place)
    ensures Lists(conns[c := k], q, place)
  {
  }

  lemma ListsRemove(conns: seq<Conn>, q: seq<nat>, place: Place, i: nat, k: Conn)
    requires Lists(conns, q, place) && i < |q| && k.place != place
    ensures Lists(conns[q[i] := k], RemoveAt(q, i), place)
  {
    var r, conns' := RemoveAt(q, i), conns[q[i] := k];
    forall c | 0 <= c < |conns'| && conns'[c].place == place
      ensures c in r
    {
      var j :| 0 <= j < |q| && q[j] == c;
      assert r[if j < i then j else j - 1] == c;
    }
  }

  lemma ListsAppend(conns: seq<Conn>, q: seq<nat>, place: Place, c: nat, k: Conn)
    requires Lists(conns, q, place) && c < |conns| && conns[c].place != place && k.place == place
    ensures Lists(conns[c := k], q + [c], place)
  {
  }

  lemma ListsExtend(conns: seq<Conn>, q: seq<nat>, place: Place, k: Conn)
    requires Lists(conns, q, place) && k.place != place
    ensures Lists(conns + [k], q, place)
  {
  }

  // ---- Counting clients ----

  lemma {:induction false} ClientsUpdate(conns: seq<Conn>, c: nat, k: Conn)
    requires c < |conns|
    ensures Clients(conns[c := k]) + IsOnline(conns[c]) == Clients(conns) + IsOnline(k)
  {
    if c > 0 {
      ClientsUpdate(conns[1..], c - 1, k);
      assert conns[c := k][1..] == conns[1..][c - 1 := k];
    } else {
      assert conns[c := k][1..] == conns[1..];
    }
  }

  lemma {:induction false} ClientsAppend(conns: seq<Conn>, k: Conn)
    ensures Clients(conns + [k]) == Clients(conns) + IsOnline(k)
  {
    if conns == [] {
      assert conns + [k] == [k];
      assert Clients([k][1..]) == 0;
    } else {
      ClientsAppend(conns[1..], k);
      assert (conns + [k])[1..] == conns[1..] + [k];
    }
  }

  // ---- Operations ----

  /** A change that leaves a connection where it is. */
  lemma TouchKeepsPool(cfg: Config, s: Server, c: nat, k: Conn)
    requires PoolOk(cfg, s) && c < |s.conns| && k.place == s.conns[c].place && k.listener == s.conns[c].listener
    ensures PoolOk(cfg, SetConn(s, c, k))
  {
    ListsKeep(s.conns, s.free, Free, c, k);
    ListsKeep(s.conns, s.recy, Recycling, c, k);
    ClientsUpdate(s.conns, c, k);
  }

  /** The connection handed out was free, or is new. */
  lemma GetKeepsPool(cfg: Config, s: Server)
    requires PoolOk(cfg, s) && Admits(cfg, s)
    ensures var (s', c) := GetConnection(s);
            c < |s'.conns| && s'.conns[c].place == InUse && !s'.conns[c].listener &&
            (c < |s.conns| ==> s.conns[c].place == Free && c in s.free) &&
            PoolOk(cfg, s'.(online := s'.online + 1))
  {
    if s.free != [] {
      var c := s.free[0];
      var k := GetOneToUse(s.conns[c], s.now).(open := true);
      ListsRemove(s.conns, s.free, Free, 0, k);
      assert RemoveAt(s.free, 0) == s.free[1..];
      ListsKeep(s.conns, s.recy, Recycling, c, k);
      ClientsUpdate(s.conns, c, k);
    } else {
      var k := GetOneToUse(NewConn(), s.now).(open := true);
      ListsExtend(s.conns, s.free, Free, k);
      ListsExtend(s.conns, s.recy, Recycling, k);
      ClientsAppend(s.conns, k);
    }
  }

  /** What handing out a connection does: a free or a new one comes into use, nothing else changes. */
  predicate HandedOut(s: Server, s1: Server, c: nat) {
    c <= |s.conns| &&
    var k := GetOneToUse(if c < |s.conns| then s.conns[c] else NewConn(), s.now).(open := true);
    s1.conns == (if c < |s.conns| then s.conns[c := k] else s.conns + [k]) &&
    !s1.conns[c].listener && (c < |s.conns| ==> s.conns[c].place == Free) &&
    c == (if s.free == [] then |s.conns| else s.free[0]) && s1.free == (if s.free == [] then [] else s.free[1..]) &&
    (forall i :: 0 <= i < |s1.conns| && i != c ==> i < |s.conns| && s1.conns[i] == s.conns[i]) &&
    s1 == s.(conns := s1.conns, free := s1.free, freeN := s1.freeN, totalN := s1.totalN)
  }

  lemma GetEffect(cfg: Config, s: Server)
    requires PoolOk(cfg, s)
    ensures HandedOut(s, GetConnection(s).0, GetConnection(s).1)
  {
  }

  /** Giving back a client that never got online. */
  lemma GiveBackKeepsPool(cfg: Config, s: Server, c: nat)
    requires PoolOk(cfg, s.(online := s.online + 1)) && IsClient(s, c)
    ensures PoolOk(cfg, GiveBack(s, c))
  {
    var k := PutOneToFree(s.conns[c].(open := false));
    assert s.conns[c := s.conns[c].(open := false)][c := k] == s.conns[c := k];
    ListsAppend(s.conns, s.free, Free, c, k);
    ListsKeep(s.conns, s.recy, Recycling, c, k);
    ClientsUpdate(s.conns, c, k);
  }

  lemma RecycleKeepsPool(cfg: Config, s: Server, i: nat)
    requires PoolOk(cfg, s) && i < |s.recy|
    ensures PoolOk(cfg, RecycleOne(s, i))
  {
    var c := s.recy[i];
    var k := PutOneToFree(s.conns[c]);
    ListsRemove(s.conns, s.recy, Recycling, i, k);
    ListsAppend(s.conns, s.free, Free, c, k);
    ClientsUpdate(s.conns, c, k);
  }

  lemma QueueKeepsPool(cfg: Config, s: Server, c: nat)
    requires PoolOk(cfg, s) && c < |s.conns| && s.conns[c].place != Free && !s.conns[c].listener
    ensures PoolOk(cfg, InRecyQueue(s, c))
  {
    if c !in s.recy {
      var k := InRecyQueue(s, c).conns[c];
      ListsAppend(s.conns, s.recy, Recycling, c, k);
      ListsKeep(s.conns, s.free, Free, c, k);
      ClientsUpdate(s.conns, c, k);
    }
  }

  predicate Closable(s: Server, c: nat) {
    c < |s.conns| && s.conns[c].place != Free && !s.conns[c].listener
  }

  /** What closing does to the connections: only this one changes, and it ends up in the recycle list. */
  lemma CloseEffect(cfg: Config, s: Server, c: nat)
    requires PoolOk(cfg, s) && Closable(s, c)
    ensures var k, k', s' := s.conns[c], CloseConn(cfg, s, c).conns[c], CloseConn(cfg, s, c);
            s'.conns == s.conns[c := k'] &&
            k'.place == Recycling && !k'.open && k'.inc == k.inc && !k'.listener &&
            k'.rx == k.rx && k'.recvMem == k.recvMem && k'.sendMem == k.sendMem &&
            k'.picks == k.picks && k'.wire == k.wire && k'.enqueued == k.enqueued && k'.lastPing == k.lastPing &&
            k'.sequence == (if k.place == InUse then k.sequence + 1 else k.sequence) &&
            k'.recyTime == (if k.place == InUse then s.now else k.recyTime) &&
            k'.throwCount == (if k.throwCount > 0 then k.throwCount - 1 else k.throwCount) &&
            s'.recvQ == s.recvQ && s'.held == s.held && s'.sendQ == s.sendQ && s'.sendN == s.sendN &&
            s'.sem == s.sem && s'.pass == s.pass && s'.idle == s.idle && s'.passTime == s.passTime &&
            s'.now == s.now && s'.next == s.next && s'.free == s.free && s'.discarded == s.discarded &&
            s'.recy == (if k.place == InUse then s.recy + [c] else s.recy) &&
            s'.online == (if k.place == InUse then s.online - 1 else s.online) &&
            s'.timers == (if cfg.kick then Delete(s.timers, c) else s.timers) &&
            s'.freed == (if cfg.kick then s.freed + TimerBlocks(OfConn(s.timers.entries, c)) else s.freed)
  {
    assert c in s.recy <==> s.conns[c].place == Recycling;
  }

  lemma CloseKeepsPool(cfg: Config, s: Server, c: nat)
    requires PoolOk(cfg, s) && Closable(s, c)
    ensures PoolOk(cfg, CloseConn(cfg, s, c))
  {
    var s1 := if cfg.kick then
                s.(timers := Delete(s.timers, c), freed := s.freed + TimerBlocks(OfConn(s.timers.entries, c)))
              else s;
    var k := s1.conns[c];
    var k1 := k.(open := false, throwCount := if k.throwCount > 0 then k.throwCount - 1 else k.throwCount);
    TouchKeepsPool(cfg, s1, c, k1);
    QueueKeepsPool(cfg, SetConn(s1, c, k1), c);
  }

  // ---- The recycle pass is a filter ----

  predicate AllKnown(s: Server, q: seq<nat>) {
    forall i :: 0 <= i < |q| ==> q[i] < |s.conns|
  }

  /** Those of the connections that entered the recycle list at least the configured wait ago, or later. */
  function Those(cfg: Config, s: Server, q: seq<nat>, ripe: bool): seq<nat>
    requires AllKnown(s, q)
  {
    if q == [] then []
    else if (s.conns[q[0]].recyTime + cfg.recyWait <= s.now) == ripe then [q[0]] + Those(cfg, s, q[1..], ripe)
    else Those(cfg, s, q[1..], ripe)
  }

  lemma {:induction false} ThoseSplit(cfg: Config, s: Server, a: seq<nat>, b: seq<nat>, ripe: bool)
    requires AllKnown(s, a) && AllKnown(s, b)
    ensures Those(cfg, s, a + b, ripe) == Those(cfg, s, a, ripe) + Those(cfg, s, b, ripe)
  {
    if a == [] {
      assert a + b == b;
    } else {
      ThoseSplit(cfg, s, a[1..], b, ripe);
      assert (a + b)[1..] == a[1..] + b;
    }
  }

  lemma {:induction false} NoneRipe(cfg: Config, s: Server, q: seq<nat>)
    requires AllKnown(s, q) && forall i :: 0 <= i < |q| ==> !Ripe(cfg, s, q[i])
    ensures Those(cfg, s, q, false) == q && Those(cfg, s, q, true) == []
  {
    if q != [] {
      NoneRipe(cfg, s, q[1..]);
    }
  }

  /** Freeing one connection does not change whose wait is over. */
  lemma {:induction false} ThoseStay(cfg: Config, s: Server, i: nat, q: seq<nat>, ripe: bool)
    requires i < |s.recy| && s.recy[i] < |s.conns| && AllKnown(s, q)
    ensures Those(cfg, RecycleOne(s, i), q, ripe) == Those(cfg, s, q, ripe)
  {
    if q != [] {
      ThoseStay(cfg, s, i, q[1..], ripe);
    }
  }

  lemma ThoseMiddle(cfg: Config, s: Server, a: seq<nat>, c: nat, b: seq<nat>)
    requires AllKnown(s, a) && AllKnown(s, b) && c < |s.conns| && Ripe(cfg, s, c)
    requires forall i :: 0 <= i < |a| ==> !Ripe(cfg, s, a[i])
    ensures Those(cfg, s, a + ([c] + b), false) == Those(cfg, s, a + b, false)
    ensures Those(cfg, s, a + ([c] + b), true) == [c] + Those(cfg, s, a + b, true)
  {
    NoneRipe(cfg, s, a);
    assert ([c] + b)[1..] == b;
    assert Those(cfg, s, [c] + b, false) == Those(cfg, s, b, false);
    assert Those(cfg, s, [c] + b, true) == [c] + Those(cfg, s, b, true);
    ThoseSplit(cfg, s, a, [c] + b, false);
    ThoseSplit(cfg, s, a, b, false);
    ThoseSplit(cfg, s, a, [c] + b, true);
    ThoseSplit(cfg, s, a, b, true);
  }

  /** What freeing the first connection whose wait is over leaves to do. */
  lemma ThoseAround(cfg: Config, s: Server, i: nat)
    requires RecyValid(s) && i == FirstRipe(cfg, s, 0) < |s.recy|
    ensures Those(cfg, s, s.recy, false) == Those(cfg, s, RemoveAt(s.recy, i), false)
    ensures Those(cfg, s, s.recy, true) == [s.recy[i]] + Those(cfg, s, RemoveAt(s.recy, i), true)
  {
    ThoseMiddle(cfg, s, s.recy[..i], s.recy[i], s.recy[i + 1..]);
    assert s.recy == s.recy[..i] + ([s.recy[i]] + s.recy[i + 1..]);
  }

  lemma RecycleOneLists(s: Server, i: nat)
    requires i < |s.recy| && s.recy[i] < |s.conns|
    ensures var s1 := RecycleOne(s, i);
            s1.recy == RemoveAt(s.recy, i) && s1.free == s.free + [s.recy[i]] && s1.recyN == s.recyN - 1 &&
            s1.freeN == s.freeN + 1 && |s1.conns| == |s.conns|
  {
  }

  /** A pass moves exactly the connections whose wait is over to the free list, in order, and keeps the
      others in order. */
  lemma {:induction false} SweepIsFilter(cfg: Config, s: Server)
    requires RecyValid(s)
    ensures Sweep(cfg, s).recy == Those(cfg, s, s.recy, false)
    ensures Sweep(cfg, s).free == s.free + Those(cfg, s, s.recy, true)
    ensures Sweep(cfg, s).freeN - s.freeN == s.recyN - Sweep(cfg, s).recyN == |Those(cfg, s, s.recy, true)|
    decreases |s.recy|
  {
    var i := FirstRipe(cfg, s, 0);
    if i == |s.recy| {
      NoneRipe(cfg, s, s.recy);
    } else {
      var s1 := RecycleOne(s, i);
      RecycleOneLists(s, i);
      ThoseAround(cfg, s, i);
      ThoseStay(cfg, s, i, s1.recy, false);
      ThoseStay(cfg, s, i, s1.recy, true);
      SweepIsFilter(cfg, s1);
      SweepStep(cfg, s, i);
      Associate(s.free, [s.recy[i]], Those(cfg, s, s1.recy, true));
    }
  }

  lemma SweepStep(cfg: Config, s: Server, i: nat)
    requires RecyValid(s) && i == FirstRipe(cfg, s, 0) < |s.recy|
    ensures RecyValid(RecycleOne(s, i)) && Sweep(cfg, s) == Sweep(cfg, RecycleOne(s, i))
  {
  }

  lemma RemoveMember(q: seq<nat>, i: nat, c: nat)
    requires i < |q| && Distinct(q)
    ensures Distinct(RemoveAt(q, i)) && (c in RemoveAt(q, i) <==> c in q && c != q[i])
  {
    assert q == q[..i] + [q[i]] + q[i + 1..];
  }

  lemma RecycleOneAt(cfg: Config, s: Server, i: nat, c: nat)
    requires RecyValid(s) && i < |s.recy| && c < |s.conns|
    ensures var s1 := RecycleOne(s, i);
            |s1.conns| == |s.conns| && s1.recy == RemoveAt(s.recy, i) && RecyValid(s1) &&
            s1.conns[c] == (if c == s.recy[i] then PutOneToFree(s.conns[c]) else s.conns[c]) &&
            (Ripe(cfg, s1, c) <==> Ripe(cfg, s, c))
  {
  }

  /** Each freed connection gives up its blocks and a sequence number; the others are not touched. */
  lemma {:induction false} SweepFreesEach(cfg: Config, s: Server, c: nat)
    requires RecyValid(s) && Distinct(s.recy) && c < |s.conns|
    ensures |Sweep(cfg, s).conns| == |s.conns|
    ensures Sweep(cfg, s).conns[c] ==
            if c in s.recy && s.conns[c].recyTime + cfg.recyWait <= s.now then PutOneToFree(s.conns[c]) else s.conns[c]
    ensures var k, k' := s.conns[c], PutOneToFree(s.conns[c]);
            k'.place == Free && k'.sequence == k.sequence + 1 && k'.recvMem == None && k'.sendMem == None &&
            k'.throwCount == 0
    decreases |s.recy|
  {
    var i := FirstRipe(cfg, s, 0);
    if i < |s.recy| {
      RemoveMember(s.recy, i, c);
      RecycleOneAt(cfg, s, i, c);
      SweepFreesEach(cfg, RecycleOne(s, i), c);
    }
  }
}
