/** The receive queue and the messages held by workers, as ServerState has them, are what the worker
    pool's machine makes of them. */
module WorkerQueue {
  import opened Bits
  import opened Common
  import opened Framing
  import opened Timers
  import opened ServerState
  import opened ServerInvariant
  import opened ConnectionPool
  import opened Ownership
  import opened ServerSteps
  import opened Histories
  import opened Decisions
  import ThreadPool

  function Blocks(q: seq<Msg>): (r: seq<nat>)
    ensures |r| == |q| && forall i :: 0 <= i < |q| ==> r[i] == q[i].buf
  {
    seq(|q|, i requires 0 <= i < |q| => q[i].buf)
  }

  /** The pool queues the same messages in the same order, and each block is in the hands of as many workers. */
  ghost predicate Matches(pool: ThreadPool.Pool, s: Server) {
    pool.queue == Blocks(s.recvQ) && forall id: nat :: ThreadPool.HeldCount(pool.workers, id) == HeldUses(s.held, id)
  }

  lemma QueueingIsEnqueue(pool: ThreadPool.Pool, s: Server, s': Server, m: Msg)
    requires Matches(pool, s) && s'.recvQ == s.recvQ + [m] && s'.held == s.held
    ensures Matches(ThreadPool.Next(pool, ThreadPool.Enqueue(m.buf)), s')
  {
    assert Blocks(s.recvQ + [m]) == Blocks(s.recvQ) + [m.buf];
  }

  /** A receive that completes a packet which is no flood is an enqueue step of the pool; any other receive
      is none. */
  lemma ReadingIsEnqueue(pool: ThreadPool.Pool, cfg: Config, s: Server, c: nat, chunk: seq<Byte>, flood: bool)
    requires cfg.wait > 0 && Inv(cfg, s) && Matches(pool, s) && Enabled(cfg, s, Reading(c, chunk, flood))
    ensures var s', out := Next(cfg, s, Reading(c, chunk, flood)), Receive(s.conns[c].rx, chunk).1;
            if out.Some? && !flood then
              s'.recvQ != [] && Matches(ThreadPool.Next(pool, ThreadPool.Enqueue(s'.recvQ[|s'.recvQ| - 1].buf)), s')
            else Matches(pool, s')
  {
    hide Receive, Matches, Next;
    var s', out := Next(cfg, s, Reading(c, chunk, flood)), Receive(s.conns[c].rx, chunk).1;
    ReadQueues(cfg, s, c, chunk, flood);
    if out.Some? && !flood {
      QueueingIsEnqueue(pool, s, s', s'.recvQ[|s'.recvQ| - 1]);
    } else {
      SameMatches(pool, s, s');
    }
  }

  lemma SameMatches(pool: ThreadPool.Pool, s: Server, s': Server)
    requires Matches(pool, s) && s'.recvQ == s.recvQ && s'.held == s.held
    ensures Matches(pool, s')
  {
  }

  lemma ReadQueues(cfg: Config, s: Server, c: nat, chunk: seq<Byte>, flood: bool)
    requires cfg.wait > 0 && Inv(cfg, s) && Enabled(cfg, s, Reading(c, chunk, flood))
    ensures var s', out := Next(cfg, s, Reading(c, chunk, flood)), Receive(s.conns[c].rx, chunk).1;
            s'.held == s.held &&
            if out.Some? && !flood then s'.recvQ != [] && s'.recvQ == s.recvQ + [s'.recvQ[|s'.recvQ| - 1]]
            else s'.recvQ == s.recvQ
  {
    hide Receive, Read, Inv;
    var s' := Read(cfg, s, c, chunk, flood);
    ReadDecides(cfg, s, c, chunk, flood);
    ReadKeepsHeld(cfg, s, c, chunk, flood);
    if IsClient(s', c) {
      ReadHandsOver(cfg, s, c, chunk, flood);
      assert |Queued(s.recvQ, s'.recvQ)| == |PacketsOf(Queued(s.recvQ, s'.recvQ))|;
      assert s'.recvQ == s.recvQ + Queued(s.recvQ, s'.recvQ);
    }
  }

  lemma ReadKeepsHeld(cfg: Config, s: Server, c: nat, chunk: seq<Byte>, flood: bool)
    requires Inv(cfg, s) && CanReceive(s, c, chunk)
    ensures Read(cfg, s, c, chunk, flood).held == s.held
  {
    hide Receive;
    var (s1, kick) := ReceiveBytes(s, c, chunk, flood);
    ReceiveKeepsInv(cfg, s, c, chunk, flood);
    ReceiveMoves(s, c, chunk, flood);
    if kick {
      CloseEffect(cfg, s1, c);
    }
  }

  /** A worker that takes a message pops the front of the queue. */
  lemma TakingIsPop(pool: ThreadPool.Pool, cfg: Config, s: Server, w: nat)
    requires cfg.wait > 0 && Matches(pool, s) && Enabled(cfg, s, Taking) && ThreadPool.Enabled(pool, ThreadPool.Check(w))
    ensures Matches(ThreadPool.Next(pool, ThreadPool.Check(w)), Next(cfg, s, Taking))
  {
    var m := s.recvQ[0];
    assert pool.queue[0] == m.buf && Blocks(s.recvQ[1..]) == Blocks(s.recvQ)[1..];
    ThreadPool.MoveWorker(pool, w, ThreadPool.Popped(m.buf));
    forall id: nat
      ensures ThreadPool.HeldCount(pool.workers[w := ThreadPool.Popped(m.buf)], id) ==
              HeldUses(s.held + [ServerState.Held(m, false)], id)
    {
      HeldUsesSplit(s.held, [ServerState.Held(m, false)], id);
      assert [ServerState.Held(m, false)][1..] == [];
      assert ThreadPool.HeldCount(pool.workers, id) == HeldUses(s.held, id);
    }
  }

  /** A worker that drops a message finishes it. */
  lemma DroppingIsFinish(pool: ThreadPool.Pool, s: Server, w: nat, i: nat)
    requires Matches(pool, s) && i < |s.held| && ThreadPool.Enabled(pool, ThreadPool.Finish(w))
    requires pool.workers[w].job == s.held[i].msg.buf
    ensures Matches(ThreadPool.Next(pool, ThreadPool.Finish(w)), DropHeld(s, i))
  {
    ThreadPool.MoveWorker(pool, w, ThreadPool.Ready);
    forall id: nat
      ensures ThreadPool.HeldCount(pool.workers[w := ThreadPool.Ready], id) == HeldUses(RemoveAt(s.held, i), id)
    {
      HeldUsesAround(s.held, i, s.held[i], id);
      assert ThreadPool.HeldCount(pool.workers, id) == HeldUses(s.held, id);
    }
  }

  /** A worker that has answered a message finishes it. */
  lemma AnsweringIsFinish(pool: ThreadPool.Pool, cfg: Config, s: Server, w: nat, i: nat, ping: bool, reply: Option<Packet>)
    requires cfg.wait > 0 && Inv(cfg, s) && Matches(pool, s) && Enabled(cfg, s, Replying(i, ping, reply))
    requires ThreadPool.Enabled(pool, ThreadPool.Finish(w)) && pool.workers[w].job == s.held[i].msg.buf
    ensures Matches(ThreadPool.Next(pool, ThreadPool.Finish(w)), Next(cfg, s, Replying(i, ping, reply)))
  {
    hide Matches;
    var s1 := Reply(cfg, s, s.held[i].msg.h, ping, reply);
    ReplyKeepsQueue(cfg, s, s.held[i].msg.h, ping, reply);
    SameMatches(pool, s, s1);
    DroppingIsFinish(pool, s1, w, i);
  }

  lemma ReplyKeepsQueue(cfg: Config, s: Server, h: Header, ping: bool, reply: Option<Packet>)
    requires PoolOk(cfg, s) && HeaderOk(s.conns, h) && NotRecycled(s.conns, h)
    ensures Reply(cfg, s, h, ping, reply).recvQ == s.recvQ && Reply(cfg, s, h, ping, reply).held == s.held
  {
    hide CloseConn;
    var s1 := if ping then SetConn(s, h.conn, s.conns[h.conn].(lastPing := s.now)) else s;
    if ping {
      TouchKeepsPool(cfg, s, h.conn, s1.conns[h.conn]);
    }
    assert PoolOk(cfg, Discard(s1));
    CloseEffect(cfg, Discard(s1), h.conn);
  }

  /** A worker that finds a message invalid or stale finishes it; with one that passes the check it goes on. */
  lemma CheckingIsFinish(pool: ThreadPool.Pool, cfg: Config, s: Server, w: nat, i: nat, valid: bool)
    requires cfg.wait > 0 && Inv(cfg, s) && Matches(pool, s) && Enabled(cfg, s, Checking(i, valid))
    requires ThreadPool.Enabled(pool, ThreadPool.Finish(w)) && pool.workers[w].job == s.held[i].msg.buf
    ensures Matches(if valid && StillThere(s, s.held[i].msg.h) then pool else ThreadPool.Next(pool, ThreadPool.Finish(w)),
                    Next(cfg, s, Checking(i, valid)))
  {
    hide Matches;
    CheckDecides(cfg, s, i, valid);
    if valid && StillThere(s, s.held[i].msg.h) {
      PassingMatches(pool, s, i);
    } else {
      DroppingIsFinish(pool, s, w, i);
    }
  }

  lemma PassingMatches(pool: ThreadPool.Pool, s: Server, i: nat)
    requires Matches(pool, s) && i < |s.held|
    ensures Matches(pool, s.(held := s.held[i := ServerState.Held(s.held[i].msg, true)]))
  {
    forall id: nat
      ensures HeldUses(s.held[i := ServerState.Held(s.held[i].msg, true)], id) == HeldUses(s.held, id)
    {
      HeldUsesAround(s.held, i, ServerState.Held(s.held[i].msg, true), id);
    }
  }
}
