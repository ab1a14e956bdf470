/** The timer entries follow the clients in use one to one, and each is due within the heartbeat window. */
module Heartbeat {
  import opened Timers
  import opened ServerState
  import opened ServerInvariant
  import opened ConnectionPool
  import opened Incarnations

  // ---- Entries ----

  lemma InsertHasHeader(t: seq<Timer>, e: Timer, h: Header)
    requires Has(t, h) || e.h == h
    ensures Has(Insert(t, e), h)
  {
    var p := UpperBound(t, e.key);
    assert Insert(t, e)[p] == e;
    if Has(t, h) {
      var i :| 0 <= i < |t| && t[i].h == h;
      assert Insert(t, e)[if i < p then i else i + 1] == t[i];
    }
  }

  lemma InsertOneEach(t: seq<Timer>, e: Timer)
    requires OneEach(t) && forall i :: 0 <= i < |t| ==> t[i].h.conn != e.h.conn
    ensures OneEach(Insert(t, e))
  {
  }

  lemma InsertLive(conns: seq<Conn>, t: seq<Timer>, e: Timer)
    requires AllLive(conns, t) && Live(conns, e.h)
    ensures AllLive(conns, Insert(t, e))
  {
  }

  lemma AddConsistent(q: Queue, e: Timer)
    requires Consistent(q)
    ensures Consistent(Add(q, e))
  {
    InsertSorted(q.entries, e);
  }

  lemma DeleteConsistent(q: Queue, c: nat)
    requires Consistent(q)
    ensures Consistent(Delete(q, c))
  {
    WithoutSorted(q.entries, c);
  }

  lemma {:induction false} WithoutOneEach(t: seq<Timer>, c: nat)
    requires OneEach(t)
    ensures OneEach(Without(t, c))
  {
    if t != [] {
      WithoutOneEach(t[1..], c);
      assert OneEach(t[1..]);
    }
  }

  lemma {:induction false} WithoutHas(t: seq<Timer>, c: nat, h: Header)
    requires Has(t, h) && h.conn != c
    ensures Has(Without(t, c), h)
  {
    var i :| 0 <= i < |t| && t[i].h == h;
    if i > 0 {
      assert t[1..][i - 1].h == h;
      WithoutHas(t[1..], c, h);
      var j :| 0 <= j < |Without(t[1..], c)| && Without(t[1..], c)[j].h == h;
      assert Without(t, c)[if t[0].h.conn == c then j else j + 1].h == h;
    } else {
      assert Without(t, c)[0].h == h;
    }
  }

  /** Deleting a connection that has an entry deletes that one entry. */
  lemma WithoutOne(t: seq<Timer>, i: nat)
    requires OneEach(t) && i < |t|
    ensures |Without(t, t[i].h.conn)| == |t| - 1
  {
    WithoutErase(t, i, t[i].h.conn);
    WithoutNone(t[..i] + t[i + 1..], t[i].h.conn);
  }

  // ---- Timers ----

  /** The same clients are in use, in the same incarnations. */
  predicate SameClients(conns: seq<Conn>, conns': seq<Conn>) {
    |conns| <= |conns'| &&
    forall c :: 0 <= c < |conns'| ==>
      (IsOnline(conns'[c]) == 1 <==> c < |conns| && IsOnline(conns[c]) == 1) &&
      (IsOnline(conns'[c]) == 1 ==> conns'[c].sequence == conns[c].sequence && conns'[c].inc == conns[c].inc)
  }

  lemma TimersStay(cfg: Config, s: Server, conns': seq<Conn>)
    requires TimersOk(cfg, s) && SameClients(s.conns, conns')
    ensures TimersOk(cfg, s.(conns := conns'))
  {
    forall i | 0 <= i < |s.timers.entries|
      ensures Live(conns', s.timers.entries[i].h)
    {
      assert Live(s.conns, s.timers.entries[i].h);
      assert IsOnline(s.conns[s.timers.entries[i].h.conn]) == 1;
    }
    forall c | 0 <= c < |conns'| && conns'[c].place == InUse && !conns'[c].listener
      ensures cfg.kick ==> Timed(cfg, s.timers, s.idle, Current(conns', c))
    {
      assert IsOnline(conns'[c]) == 1;
      assert Current(conns', c) == Current(s.conns, c);
    }
  }

  lemma TouchKeepsTimers(cfg: Config, s: Server, c: nat, k: Conn)
    requires TimersOk(cfg, s) && c < |s.conns| && SamePlace(s.conns[c], k)
    ensures TimersOk(cfg, SetConn(s, c, k))
  {
    TimersStay(cfg, s, s.conns[c := k]);
  }

  lemma FreeKeepsTimers(cfg: Config, s: Server, c: nat)
    requires TimersOk(cfg, s) && c < |s.conns| && s.conns[c].place == Recycling
    ensures TimersOk(cfg, FreeConnection(s, c))
  {
    TimersStay(cfg, s, FreeConnection(s, c).conns);
  }

  lemma GiveBackKeepsTimers(cfg: Config, s: Server, s1: Server, c: nat)
    requires TimersOk(cfg, s) && HandedOut(s, s1, c)
    ensures TimersOk(cfg, GiveBack(s1, c))
  {
    TimersStay(cfg, s, GiveBack(s1, c).conns);
  }

  /** A new client gets the one entry with its header. */
  lemma RegisterKeepsTimers(cfg: Config, s: Server, s1: Server, c: nat)
    requires TimersOk(cfg, s) && HandedOut(s, s1, c)
    ensures TimersOk(cfg, Register(cfg, s1, c))
  {
    if cfg.kick {
      AddFits(cfg, s, s1, c);
    }
    RegisterFits(cfg, s1, c);
  }

  lemma RegisterFits(cfg: Config, s: Server, c: nat)
    requires c < |s.conns|
    requires var q := if cfg.kick then Add(s.timers, Timer(s.now + cfg.wait, Current(s.conns, c), s.next)) else s.timers;
             TimersFit(cfg, s.conns, q, s.online + 1, s.idle)
    ensures TimersOk(cfg, Register(cfg, s, c))
  {
  }

  lemma AddFits(cfg: Config, s: Server, s1: Server, c: nat)
    requires TimersOk(cfg, s) && HandedOut(s, s1, c) && cfg.kick
    ensures var q := Add(s1.timers, Timer(s1.now + cfg.wait, Current(s1.conns, c), s1.next));
            TimersFit(cfg, s1.conns, q, s1.online + 1, s1.idle)
  {
    assert s1.timers == s.timers && s1.idle == s.idle && s1.online == s.online && IsClient(s1, c);
    OtherClients(cfg, s, s1, c);
    EntryAdded(cfg, s1, c);
    EveryoneHasEntry(cfg, s, s1, c);
  }

  lemma EntryAdded(cfg: Config, s: Server, c: nat)
    requires IsClient(s, c) && AllLive(s.conns, s.timers.entries) && Consistent(s.timers) && OneEach(s.timers.entries)
    requires forall i :: 0 <= i < |s.timers.entries| ==> s.timers.entries[i].h.conn != c
    ensures var q := Add(s.timers, Timer(s.now + cfg.wait, Current(s.conns, c), s.next));
            Consistent(q) && OneEach(q.entries) && AllLive(s.conns, q.entries) && |q.entries| == |s.timers.entries| + 1
  {
    var e := Timer(s.now + cfg.wait, Current(s.conns, c), s.next);
    AddConsistent(s.timers, e);
    InsertOneEach(s.timers.entries, e);
    InsertLive(s.conns, s.timers.entries, e);
  }

  lemma EveryoneHasEntry(cfg: Config, s: Server, s1: Server, c: nat)
    requires TimersOk(cfg, s) && cfg.kick && HandedOut(s, s1, c)
    ensures var q := Add(s.timers, Timer(s1.now + cfg.wait, Current(s1.conns, c), s1.next));
            forall i :: 0 <= i < |s1.conns| && s1.conns[i].place == InUse && !s1.conns[i].listener ==>
              Timed(cfg, q, s.idle, Current(s1.conns, i))
  {
    var e := Timer(s1.now + cfg.wait, Current(s1.conns, c), s1.next);
    forall i | 0 <= i < |s1.conns| && s1.conns[i].place == InUse && !s1.conns[i].listener
      ensures Timed(cfg, Add(s.timers, e), s.idle, Current(s1.conns, i))
    {
      var h := Current(s1.conns, i);
      assert i != c ==> h == Current(s.conns, i) && Timed(cfg, s.timers, s.idle, h);
      if i == c || Has(s.timers.entries, h) {
        InsertHasHeader(s.timers.entries, e, h);
      }
    }
  }

  /** The entries are still those of the other clients when a free connection is handed out. */
  lemma OtherClients(cfg: Config, s: Server, s1: Server, c: nat)
    requires TimersOk(cfg, s) && HandedOut(s, s1, c)
    ensures AllLive(s1.conns, s.timers.entries)
    ensures forall i :: 0 <= i < |s.timers.entries| ==> s.timers.entries[i].h.conn != c
  {
    forall i | 0 <= i < |s.timers.entries|
      ensures s.timers.entries[i].h.conn != c && Live(s1.conns, s.timers.entries[i].h)
    {
      assert Live(s.conns, s.timers.entries[i].h);
    }
  }

  lemma ClosedIsOut(cfg: Config, s: Server, c: nat)
    requires TimersOk(cfg, s) && PoolOk(cfg, s) && Closable(s, c)
    ensures var s' := CloseConn(cfg, s, c);
            Consistent(s'.timers) && OneEach(s'.timers.entries) && AllLive(s'.conns, s'.timers.entries)
  {
    CloseEffect(cfg, s, c);
    DeleteConsistent(s.timers, c);
    WithoutOneEach(s.timers.entries, c);
    var s' := CloseConn(cfg, s, c);
    forall i | 0 <= i < |s'.timers.entries|
      ensures Live(s'.conns, s'.timers.entries[i].h)
    {
      assert s'.timers.entries[i] in s.timers.entries;
      assert Live(s.conns, s'.timers.entries[i].h);
    }
  }

  /** Closing deletes the entry of a client in use, and nothing when the connection is being recycled. */
  lemma CloseCounts(cfg: Config, s: Server, c: nat)
    requires TimersOk(cfg, s) && PoolOk(cfg, s) && Closable(s, c) && cfg.kick && !cfg.timeOutKick
    ensures |CloseConn(cfg, s, c).timers.entries| == CloseConn(cfg, s, c).online
  {
    CloseEffect(cfg, s, c);
    var t := s.timers.entries;
    if s.conns[c].place == InUse {
      assert Timed(cfg, s.timers, s.idle, Current(s.conns, c));
      var i :| 0 <= i < |t| && t[i].h == Current(s.conns, c);
      WithoutOne(t, i);
    } else {
      forall i | 0 <= i < |t|
        ensures t[i].h.conn != c
      {
        assert Live(s.conns, t[i].h);
      }
      WithoutNone(t, c);
    }
  }

  lemma CloseKeepsTimers(cfg: Config, s: Server, c: nat)
    requires TimersOk(cfg, s) && PoolOk(cfg, s) && Closable(s, c)
    ensures TimersOk(cfg, CloseConn(cfg, s, c))
  {
    ClosedIsOut(cfg, s, c);
    CloseEffect(cfg, s, c);
    if cfg.kick {
      var s' := CloseConn(cfg, s, c);
      forall i | 0 <= i < |s'.conns| && s'.conns[i].place == InUse && !s'.conns[i].listener
        ensures Timed(cfg, s'.timers, s'.idle, Current(s'.conns, i))
      {
        var h := Current(s.conns, i);
        assert s'.conns[i] == s.conns[i] && Timed(cfg, s.timers, s.idle, h);
        if Has(s.timers.entries, h) {
          WithoutHas(s.timers.entries, c, h);
        }
      }
      if !cfg.timeOutKick {
        CloseCounts(cfg, s, c);
      }
    }
  }

  lemma HasAfter(t: seq<Timer>, e: Timer, h: Header)
    requires Has(t, h) || e.h == h
    ensures Has(t + [e], h)
  {
    assert (t + [e])[|t|] == e;
    if Has(t, h) {
      var i :| 0 <= i < |t| && t[i].h == h;
      assert (t + [e])[i] == t[i];
    }
  }

  lemma TakeShape(conns: seq<Conn>, q: Queue, now: int, wait: nat, rearm: bool, buf: nat)
    requires Expired(q, now) && Consistent(q) && OneEach(q.entries) && AllLive(conns, q.entries)
    ensures var q' := TakeExpired(q, now, wait, rearm, buf);
            Consistent(q') && OneEach(q'.entries) && AllLive(conns, q'.entries) && (rearm ==> |q'.entries| == |q.entries|)
  {
    var rest, first := q.entries[1..], q.entries[0];
    var e := Timer(now + wait, first.h, buf);
    assert Live(conns, first.h) && Sorted(rest);
    InsertSorted(rest, e);
    InsertOneEach(rest, e);
    InsertLive(conns, rest, e);
  }

  lemma TakeKeepsTimed(cfg: Config, q: Queue, idle: seq<Timer>, now: int, buf: nat, h: Header)
    requires Expired(q, now) && Timed(cfg, q, idle, h)
    ensures Timed(cfg, TakeExpired(q, now, cfg.wait, !cfg.timeOutKick, buf), idle + [q.entries[0]], h)
  {
    var rest, first := q.entries[1..], q.entries[0];
    var e := Timer(now + cfg.wait, first.h, buf);
    if first.h == h || Has(idle, h) {
      HasAfter(idle, first, h);
    }
    if Has(q.entries, h) && first.h != h {
      HasBehind(q.entries, h);
    }
    if Has(rest, h) || e.h == h {
      InsertHasHeader(rest, e, h);
    }
  }

  lemma DrainKeepsTimers(cfg: Config, s: Server)
    requires cfg.wait > 0 && cfg.kick && Expired(s.timers, s.passTime) && TimersOk(cfg, s)
    ensures TimersOk(cfg, DrainOne(cfg, s))
  {
    TakeShape(s.conns, s.timers, s.passTime, cfg.wait, !cfg.timeOutKick, s.next);
    forall i | 0 <= i < |s.conns| && s.conns[i].place == InUse && !s.conns[i].listener
      ensures Timed(cfg, DrainOne(cfg, s).timers, s.idle + [s.timers.entries[0]], Current(s.conns, i))
    {
      TakeKeepsTimed(cfg, s.timers, s.idle, s.passTime, s.next, Current(s.conns, i));
    }
  }

  lemma HasBehind(t: seq<Timer>, h: Header)
    requires Has(t, h) && t[0].h != h
    ensures Has(t[1..], h)
  {
    var i :| 0 <= i < |t| && t[i].h == h;
    assert t[1..][i - 1].h == h;
  }

  /** The header checked is not one a client still depends on. */
  lemma DropIdleKeepsTimers(cfg: Config, s: Server)
    requires TimersOk(cfg, s) && s.idle != [] && s.idle[0].h.conn < |s.conns| && !Kicks(cfg, s, s.idle[0].h)
    ensures TimersOk(cfg, DropIdle(s))
  {
    forall c | cfg.kick && 0 <= c < |s.conns| && s.conns[c].place == InUse && !s.conns[c].listener
      ensures Timed(cfg, s.timers, s.idle[1..], Current(s.conns, c))
    {
      var h := Current(s.conns, c);
      assert Timed(cfg, s.timers, s.idle, h);
      if !Has(s.timers.entries, h) {
        HasBehind(s.idle, h);
      }
    }
  }

  // ---- Heartbeat ----

  predicate NotEarlier(conns: seq<Conn>, conns': seq<Conn>, now: int) {
    |conns| <= |conns'| &&
    forall c :: 0 <= c < |conns'| ==> conns'[c].lastPing <= now && (c < |conns| ==> conns[c].lastPing <= conns'[c].lastPing)
  }

  lemma HeartStays(cfg: Config, s: Server, conns': seq<Conn>)
    requires HeartOk(cfg, s) && NotEarlier(s.conns, conns', s.now)
    ensures HeartOk(cfg, s.(conns := conns'))
  {
    forall i | 0 <= i < |s.timers.entries|
      ensures Due(cfg, conns', s.idle, s.passTime, s.timers.entries[i])
    {
      assert Due(cfg, s.conns, s.idle, s.passTime, s.timers.entries[i]);
    }
  }

  lemma GetKeepsHeart(cfg: Config, s: Server, s1: Server, c: nat)
    requires HeartOk(cfg, s) && HandedOut(s, s1, c)
    ensures HeartOk(cfg, s1)
  {
    HeartStays(cfg, s, s1.conns);
  }

  lemma RegisterKeepsHeart(cfg: Config, s: Server, c: nat)
    requires HeartOk(cfg, s) && c < |s.conns| && s.conns[c].lastPing == s.now
    ensures HeartOk(cfg, Register(cfg, s, c))
  {
    var e := Timer(s.now + cfg.wait, Current(s.conns, c), s.next);
    InsertDue(cfg, s.conns, s.idle, s.passTime, s.timers.entries, e);
  }

  predicate AllDueSoon(cfg: Config, conns: seq<Conn>, idle: seq<Timer>, passTime: int, t: seq<Timer>) {
    forall i :: 0 <= i < |t| ==> Due(cfg, conns, idle, passTime, t[i])
  }

  lemma InsertDue(cfg: Config, conns: seq<Conn>, idle: seq<Timer>, passTime: int, t: seq<Timer>, e: Timer)
    requires AllDueSoon(cfg, conns, idle, passTime, t) && Due(cfg, conns, idle, passTime, e)
    ensures AllDueSoon(cfg, conns, idle, passTime, Insert(t, e))
    ensures NoneOverdue(t, passTime) && passTime <= e.key ==> NoneOverdue(Insert(t, e), passTime)
  {
  }

  lemma WithoutDue(cfg: Config, conns: seq<Conn>, idle: seq<Timer>, passTime: int, t: seq<Timer>, c: nat)
    requires AllDueSoon(cfg, conns, idle, passTime, t)
    ensures AllDueSoon(cfg, conns, idle, passTime, Without(t, c))
    ensures NoneOverdue(t, passTime) ==> NoneOverdue(Without(t, c), passTime)
  {
    forall i | 0 <= i < |Without(t, c)|
      ensures exists j :: 0 <= j < |t| && t[j] == Without(t, c)[i]
    {
      assert Without(t, c)[i] in t;
    }
  }

  lemma CloseKeepsHeart(cfg: Config, s: Server, c: nat)
    requires HeartOk(cfg, s) && PoolOk(cfg, s) && Closable(s, c)
    ensures HeartOk(cfg, CloseConn(cfg, s, c))
  {
    CloseEffect(cfg, s, c);
    HeartStays(cfg, s, CloseConn(cfg, s, c).conns);
    WithoutDue(cfg, CloseConn(cfg, s, c).conns, s.idle, s.passTime, s.timers.entries, c);
  }

  /** HeartOk, except that entries may be overdue: what the drain loop keeps. */
  predicate DueOk(cfg: Config, s: Server) {
    DueFit(cfg, s.conns, s.timers.entries, s.idle, s.passTime, s.now)
  }

  lemma MoreIdleDue(cfg: Config, conns: seq<Conn>, idle: seq<Timer>, passTime: int, t: seq<Timer>, first: Timer)
    requires AllDueSoon(cfg, conns, idle, passTime, t)
    ensures AllDueSoon(cfg, conns, idle + [first], passTime, t)
  {
    forall i | 0 <= i < |t|
      ensures Due(cfg, conns, idle + [first], passTime, t[i])
    {
      assert Due(cfg, conns, idle, passTime, t[i]);
      if Has(idle, t[i].h) {
        HasAfter(idle, first, t[i].h);
      }
    }
  }

  lemma DrainKeepsDue(cfg: Config, s: Server)
    requires cfg.wait > 0 && Expired(s.timers, s.passTime) && DueOk(cfg, s)
    ensures DueOk(cfg, DrainOne(cfg, s))
  {
    var rest, first := s.timers.entries[1..], s.timers.entries[0];
    var e := Timer(s.passTime + cfg.wait, first.h, s.next);
    HasAfter(s.idle, first, e.h);
    assert Due(cfg, s.conns, s.idle, s.passTime, first);
    MoreIdleDue(cfg, s.conns, s.idle, s.passTime, rest, first);
    InsertDue(cfg, s.conns, s.idle + [first], s.passTime, rest, e);
  }

  /** A client that is not kicked has been heard from recently enough for its new entry. */
  lemma DropIdleKeepsHeart(cfg: Config, s: Server)
    requires HeartOk(cfg, s) && s.idle != [] && s.idle[0].h.conn < |s.conns| && !Kicks(cfg, s, s.idle[0].h)
    requires AllLive(s.conns, s.timers.entries)
    ensures HeartOk(cfg, DropIdle(s))
  {
    forall i | 0 <= i < |s.timers.entries|
      ensures Due(cfg, s.conns, s.idle[1..], s.passTime, s.timers.entries[i])
    {
      var e := s.timers.entries[i];
      assert Due(cfg, s.conns, s.idle, s.passTime, e) && Live(s.conns, e.h);
      if Has(s.idle, e.h) && s.idle[0].h != e.h {
        HasBehind(s.idle, e.h);
      }
    }
  }

  /** After the drain loop no entry is overdue. */
  lemma NothingExpired(q: Queue, passTime: int)
    requires Consistent(q) && !Expired(q, passTime)
    ensures NoneOverdue(q.entries, passTime)
  {
  }
}
