/** CSocekt as an object: connections whose fields are updated in place, lists that are scanned and
    spliced, and counters. Every method is proved against the step of ServerState it implements: when
    the object shows a state before the call, it shows the state after that step afterwards.
    A pointer to a connection is its position in m_connectionList, which only grows. */
module Socket {
  import opened Common
  import opened Framing
  import opened Timers
  import opened ServerState
  import S = ServerState

  /** ngx_connection_s */
  class Connection {
    var iCurrsequence: nat
    var open: bool                      // fd != -1
    var rx: Rx                          // curStat, dataHeadInfo, precvbuf, irecvlen
    var precvMemPointer: Option<Stamp>
    var iThrowsendCount: int
    var psendMemPointer: Option<Msg>
    var psendbuf: nat                   // offset into the packet
    var isendlen: nat
    var epollOut: bool                  // EPOLLOUT in events
    var iSendCount: int
    var inRecyTime: int
    var lastPingTime: int
    var inc: nat                        // history: which incarnation stamps headers

    ghost predicate Shows(k: Conn)
      reads this
    {
      k.sequence == iCurrsequence && k.open == open && k.rx == rx && k.recvMem == precvMemPointer &&
      k.throwCount == iThrowsendCount && k.sendMem == psendMemPointer && k.sent == psendbuf && k.left == isendlen &&
      k.epollOut == epollOut && k.sendCount == iSendCount && k.recyTime == inRecyTime && k.lastPing == lastPingTime &&
      k.inc == inc
    }

    constructor ()
      ensures Shows(NewConn())
    {
      iCurrsequence, open, rx, precvMemPointer, iThrowsendCount, psendMemPointer := 0, false, INITIAL, None, 0, None;
      psendbuf, isendlen, epollOut, iSendCount, inRecyTime, lastPingTime, inc := 0, 0, false, 0, 0, 0, 0;
    }

    method GetOneToUse(now: int, ghost k: Conn)
      requires Shows(k)
      modifies this
      ensures Shows(S.GetOneToUse(k, now))
    {
      iCurrsequence := iCurrsequence + 1;
      open := false;
      inc := inc + 1;
      ResetReceive();
      ResetSend();
      lastPingTime := now;
    }

    method ResetReceive()
      modifies this`rx, this`precvMemPointer
      ensures rx == INITIAL && precvMemPointer == None
    {
      rx := INITIAL;
      precvMemPointer := None;
    }

    method ResetSend()
      modifies this`iThrowsendCount, this`psendMemPointer, this`epollOut, this`iSendCount
      ensures iThrowsendCount == 0 && psendMemPointer == None && !epollOut && iSendCount == 0
    {
      iThrowsendCount := 0;
      psendMemPointer := None;
      epollOut := false;
      iSendCount := 0;
    }

    method Close(ghost k: Conn)
      requires Shows(k)
      modifies this`open, this`iThrowsendCount
      ensures Shows(k.(open := false, throwCount := if k.throwCount > 0 then k.throwCount - 1 else k.throwCount))
    {
      if open {
        open := false;
      }
      if iThrowsendCount > 0 {
        iThrowsendCount := iThrowsendCount - 1;
      }
    }

    /** The send thread starts a message, with the result of its first send(); `done` when the
        message is to be freed. */
    method StartPacket(m: Msg, r: SendResult, ghost k: Conn) returns (done: bool)
      requires Shows(k) && WellSized(m.pkt) && CanResult(m, r)
      modifies this`iSendCount, this`psendMemPointer, this`psendbuf, this`isendlen, this`iThrowsendCount, this`epollOut
      ensures Shows(S.SendFirst(k, m, r)) && done == S.SendFirst(k, m, r).sendMem.None?
    {
      PointAt(m);
      done := !r.Again? && (r.Sent? ==> r.n == isendlen);
      if done {
        DropPacket();
      } else if r.Sent? {
        psendbuf, isendlen := r.n, isendlen - r.n;
        WaitForRoom();
      } else {
        WaitForRoom();
      }
    }

    /** pkgLen, in network byte order, says how much to send. */
    method PointAt(m: Msg)
      requires WellSized(m.pkt)
      modifies this`iSendCount, this`psendMemPointer, this`psendbuf, this`isendlen
      ensures iSendCount == old(iSendCount) - 1 && psendMemPointer == Some(m) && psendbuf == 0 && isendlen == |Data(m)|
    {
      iSendCount := iSendCount - 1;
      psendMemPointer := Some(m);
      psendbuf, isendlen := 0, 256 * (m.pkt[0] as int) + m.pkt[1] as int;
    }

    method DropPacket()
      modifies this`psendMemPointer, this`iThrowsendCount
      ensures psendMemPointer == None && iThrowsendCount == 0
    {
      psendMemPointer := None;
      iThrowsendCount := 0;
    }

    method WaitForRoom()
      modifies this`iThrowsendCount, this`epollOut
      ensures iThrowsendCount == old(iThrowsendCount) + 1 && epollOut
    {
      iThrowsendCount := iThrowsendCount + 1;
      epollOut := true;
    }

    method CountMessage(ghost k: Conn, ghost enqueued: seq<Msg>)
      requires Shows(k)
      modifies this`iSendCount
      ensures Shows(k.(sendCount := k.sendCount + 1, enqueued := enqueued))
    {
      iSendCount := iSendCount + 1;
    }

    /** The rest of a packet goes out; `done` when all of it did. */
    method ContinuePacket(n: nat, ghost s: Server, ghost c: nat) returns (done: bool)
      requires c < |s.conns| && Shows(s.conns[c]) && psendMemPointer.Some? && n <= isendlen
      requires psendbuf + n <= |Data(psendMemPointer.value)|
      modifies this`psendMemPointer, this`psendbuf, this`isendlen, this`iThrowsendCount, this`epollOut
      ensures Shows(S.WriteMore(s, c, n).conns[c]) && done == (n == old(isendlen))
    {
      done := n == isendlen;
      if done {
        epollOut := false;
        psendMemPointer := None;
        iThrowsendCount := iThrowsendCount - 1;
      } else {
        psendbuf, isendlen := psendbuf + n, isendlen - n;
      }
    }

    /** The send failed for good; EPOLLOUT stays set. */
    method AbandonPacket(ghost s: Server, ghost c: nat)
      requires c < |s.conns| && Shows(s.conns[c])
      modifies this`psendMemPointer, this`iThrowsendCount
      ensures Shows(S.WriteFailed(s, c).conns[c])
    {
      psendMemPointer := None;
      iThrowsendCount := iThrowsendCount - 1;
    }

    method Shut(ghost k: Conn)
      requires Shows(k)
      modifies this`open
      ensures Shows(k.(open := false))
    {
      if open {
        open := false;
      }
    }

    method Recycle(now: int, ghost k: Conn)
      requires Shows(k)
      modifies this`inRecyTime, this`iCurrsequence
      ensures Shows(k.(recyTime := now, sequence := k.sequence + 1, place := Recycling))
    {
      inRecyTime := now;
      iCurrsequence := iCurrsequence + 1;
    }

    /** Returns the memory blocks given to FreeMemory. */
    method PutOneToFree(ghost k: Conn) returns (blocks: multiset<nat>)
      requires Shows(k)
      modifies this`iCurrsequence, this`precvMemPointer, this`psendMemPointer, this`iThrowsendCount
      ensures Shows(S.PutOneToFree(k)) && blocks == ConnBlocks(k)
    {
      blocks := multiset{};
      iCurrsequence := iCurrsequence + 1;
      if precvMemPointer.Some? {
        blocks := blocks + multiset{precvMemPointer.value.buf};
        precvMemPointer := None;
      }
      if psendMemPointer.Some? {
        blocks := blocks + multiset{psendMemPointer.value.buf};
        psendMemPointer := None;
      }
      iThrowsendCount := 0;
    }
  }

  /** Different pointers point to different connections. */
  predicate Separate(conns: seq<Connection>) {
    forall i, j :: 0 <= i < j < |conns| ==> conns[i] != conns[j]
  }

  ghost predicate AllShow(conns: seq<Connection>, ks: seq<Conn>)
    reads conns
  {
    |conns| == |ks| && forall i :: 0 <= i < |conns| ==> conns[i].Shows(ks[i])
  }

  /** After i turns of a pass that started at s, the messages from there on are still ahead. */
  predicate Ahead(s: Server, t: Server, i: nat) {
    KnownConns(t) && t.pass.Some? && t.pass.value <= |t.sendQ| && i <= |s.sendQ| && t.sendQ[t.pass.value..] == s.sendQ[i..]
  }

  lemma TurnAhead(s: Server, t: Server, i: nat, kernel: seq<SendResult>)
    requires Ahead(s, t, i) && t.pass.value < |t.sendQ| && |kernel| == |s.sendQ|
    ensures i < |s.sendQ| && t.sendQ[t.pass.value] == s.sendQ[i] && Ahead(s, S.SendStep(t, kernel[i]), i + 1)
    ensures S.WholePass(t, kernel[i..]) == S.WholePass(S.SendStep(t, kernel[i]), kernel[i + 1..])
  {
    var p, t' := t.pass.value, S.SendStep(t, kernel[i]);
    assert t.sendQ[p] == t.sendQ[p..][0] == s.sendQ[i] && |t.sendQ[p..]| == |s.sendQ[i..]|;
    assert kernel[i..][0] == kernel[i] && kernel[i..][1..] == kernel[i + 1..];
    SendStepPasses(t, kernel[i]);
    assert t'.sendQ[t'.pass.value..] == t.sendQ[p..][1..] == s.sendQ[i..][1..] == s.sendQ[i + 1..];
  }

  lemma SendStepPasses(t: Server, r: SendResult)
    requires KnownConns(t) && t.pass.Some? && t.pass.value < |t.sendQ|
    ensures var t', p := S.SendStep(t, r), t.pass.value;
            KnownConns(t') && t'.pass.Some? && t'.pass.value <= |t'.sendQ| &&
            t'.sendQ[t'.pass.value..] == t.sendQ[p + 1..]
  {
    assert RemoveAt(t.sendQ, t.pass.value)[t.pass.value..] == t.sendQ[t.pass.value + 1..];
  }

  class CSocekt {
    const cfg: Config
    var m_connectionList: seq<Connection>
    var m_freeconnectionList: seq<nat>
    var m_recyconnectionList: seq<nat>
    var m_total_connection_n: int
    var m_free_connection_n: int
    var m_totol_recyconnection_n: int
    var m_onlineUserCount: int
    const m_timers: TimerQueue
    var m_MsgSendQueue: seq<Msg>
    var m_iSendMsgQueueCount: int
    var m_semEventSendQueue: nat
    var m_iDiscardSendPkgCount: nat
    var m_lsIdleList: seq<Timer>
    var now: int                      // time(NULL)
    var nextBlock: nat                // AllocMemory numbers the blocks it hands out
    ghost var freed: multiset<nat>    // history: blocks given to FreeMemory

    /** The pool part of a server state. */
    ghost predicate ShowsPool(s: Server)
      reads this, m_connectionList
    {
      Separate(m_connectionList) && AllShow(m_connectionList, s.conns) && s.free == m_freeconnectionList &&
      s.recy == m_recyconnectionList && s.totalN == m_total_connection_n && s.freeN == m_free_connection_n &&
      s.recyN == m_totol_recyconnection_n && s.online == m_onlineUserCount
    }

    ghost predicate Shows(s: Server)
      reads this, m_connectionList, m_timers
    {
      ShowsPool(s) && s.timers == m_timers.View() && s.sendQ == m_MsgSendQueue && s.sendN == m_iSendMsgQueueCount &&
      s.sem == m_semEventSendQueue && s.discarded == m_iDiscardSendPkgCount && s.idle == m_lsIdleList &&
      s.now == now && s.next == nextBlock && s.freed == freed
    }

    /** The pool is filled by initconnection. */
    constructor (config: Config, time: int)
      ensures Shows(PoolOf(config.workers, time)) && cfg == config
      ensures fresh(m_connectionList) && fresh(m_timers)
    {
      cfg := config;
      m_connectionList, m_freeconnectionList, m_recyconnectionList := [], [], [];
      m_total_connection_n, m_free_connection_n, m_totol_recyconnection_n, m_onlineUserCount := 0, 0, 0, 0;
      m_timers := new TimerQueue();
      m_MsgSendQueue, m_iSendMsgQueueCount, m_semEventSendQueue, m_iDiscardSendPkgCount := [], 0, 0, 0;
      m_lsIdleList, now, nextBlock, freed := [], time, 0, multiset{};
      new;
      InitConnection(time);
    }

    method InitConnection(time: int)
      requires m_connectionList == [] && m_freeconnectionList == []
      modifies this`m_connectionList, this`m_freeconnectionList, this`m_free_connection_n, this`m_total_connection_n
      ensures Separate(m_connectionList) && AllShow(m_connectionList, PoolOf(cfg.workers, time).conns) && fresh(m_connectionList)
      ensures m_freeconnectionList == seq(cfg.workers, i => i)
      ensures m_free_connection_n == m_total_connection_n == cfg.workers
    {
      var i := 0;
      ghost var k0 := S.GetOneToUse(NewConn(), time).(place := Free, inc := 0);
      while i < cfg.workers
        invariant i <= cfg.workers && |m_connectionList| == i && m_freeconnectionList == seq(i, j => j)
        invariant Separate(m_connectionList) && fresh(m_connectionList)
        invariant forall j :: 0 <= j < i ==> m_connectionList[j].Shows(k0)
        modifies this`m_connectionList, this`m_freeconnectionList
      {
        var k := new Connection();
        k.GetOneToUse(time, NewConn());
        k.inc := 0;
        m_connectionList := m_connectionList + [k];
        m_freeconnectionList := m_freeconnectionList + [i];
        i := i + 1;
      }
      m_total_connection_n := |m_connectionList|;
      m_free_connection_n := m_total_connection_n;
    }

    /** ngx_get_connection */
    method NgxGetConnection(ghost s: Server) returns (c: nat)
      requires Shows(s) && FreeValid(s)
      modifies this`m_connectionList, this`m_freeconnectionList, this`m_free_connection_n, this`m_total_connection_n, m_connectionList
      ensures Shows(S.GetConnection(s).0) && c == S.GetConnection(s).1
      ensures |m_connectionList| >= old(|m_connectionList|)
      ensures fresh(set k | k in m_connectionList && k !in old(m_connectionList))
    {
      if m_freeconnectionList != [] {
        c := m_freeconnectionList[0];
        TakeFree(c, s);
      } else {
        c := |m_connectionList|;
        GrowPool(s);
      }
    }

    method TakeFree(c: nat, ghost s: Server)
      requires Shows(s) && FreeValid(s) && s.free != [] && c == s.free[0]
      modifies this`m_freeconnectionList, this`m_free_connection_n, m_connectionList
      ensures Shows(S.GetConnection(s).0)
    {
      PopFree(s);
      HandOut(c, s.(free := s.free[1..], freeN := s.freeN - 1));
    }

    method PopFree(ghost s: Server)
      requires Shows(s) && s.free != []
      modifies this`m_freeconnectionList, this`m_free_connection_n
      ensures Shows(s.(free := s.free[1..], freeN := s.freeN - 1))
    {
      m_freeconnectionList := m_freeconnectionList[1..];
      m_free_connection_n := m_free_connection_n - 1;
    }

    method HandOut(c: nat, ghost s: Server)
      requires Shows(s) && c < |m_connectionList|
      modifies m_connectionList
      ensures Shows(SetConn(s, c, S.GetOneToUse(s.conns[c], now).(open := true)))
    {
      Hand(m_connectionList[c], s.conns[c]);
    }

    method GrowPool(ghost s: Server)
      requires Shows(s) && FreeValid(s) && s.free == []
      modifies this`m_connectionList, this`m_total_connection_n
      ensures Shows(S.GetConnection(s).0)
      ensures fresh(set k | k in m_connectionList && k !in old(m_connectionList))
    {
      var k := new Connection();
      Hand(k, NewConn());
      m_connectionList := m_connectionList + [k];
      m_total_connection_n := m_total_connection_n + 1;
    }

    /** A connection comes into use for a socket. */
    method Hand(k: Connection, ghost conn: Conn)
      requires k.Shows(conn)
      modifies k
      ensures k.Shows(S.GetOneToUse(conn, now).(open := true))
    {
      k.GetOneToUse(now, conn);
      k.open := true;
    }

    /** ngx_free_connection */
    method NgxFreeConnection(c: nat, ghost s: Server)
      requires Shows(s) && c < |m_connectionList|
      modifies this`m_freeconnectionList, this`m_free_connection_n, this`freed, m_connectionList
      ensures Shows(S.FreeConnection(s, c))
    {
      var blocks := Retire(c, s);
      PushFree(c, blocks, SetConn(s, c, S.PutOneToFree(s.conns[c])));
    }

    method PushFree(c: nat, blocks: multiset<nat>, ghost s: Server)
      requires Shows(s)
      modifies this`m_freeconnectionList, this`m_free_connection_n, this`freed
      ensures Shows(s.(free := s.free + [c], freeN := s.freeN + 1, freed := s.freed + blocks))
    {
      m_freeconnectionList := m_freeconnectionList + [c];
      m_free_connection_n := m_free_connection_n + 1;
      freed := freed + blocks;
    }

    method Retire(c: nat, ghost s: Server) returns (blocks: multiset<nat>)
      requires Shows(s) && c < |m_connectionList|
      modifies m_connectionList
      ensures Shows(SetConn(s, c, S.PutOneToFree(s.conns[c]))) && blocks == ConnBlocks(s.conns[c])
    {
      blocks := m_connectionList[c].PutOneToFree(s.conns[c]);
    }

    method InRecyConnectQueue(c: nat, ghost s: Server)
      requires Shows(s) && c < |m_connectionList|
      modifies this`m_recyconnectionList, this`m_totol_recyconnection_n, this`m_onlineUserCount, m_connectionList
      ensures Shows(S.InRecyQueue(s, c))
    {
      var found, pos := false, 0;
      while pos < |m_recyconnectionList|
        invariant pos <= |m_recyconnectionList| && c !in m_recyconnectionList[..pos] && !found
        modifies {}
      {
        if m_recyconnectionList[pos] == c {
          found := true;
          break;
        }
        pos := pos + 1;
      }
      if found {
        return;
      }
      assert m_recyconnectionList[..pos] == m_recyconnectionList;
      PutInQueue(c, s);
    }

    method PutInQueue(c: nat, ghost s: Server)
      requires Shows(s) && c < |m_connectionList| && c !in m_recyconnectionList
      modifies this`m_recyconnectionList, this`m_totol_recyconnection_n, this`m_onlineUserCount, m_connectionList
      ensures Shows(S.InRecyQueue(s, c))
    {
      StampRecycling(c, s);
      PushRecycling(c, S.Outdated(s, c));
    }

    method StampRecycling(c: nat, ghost s: Server)
      requires Shows(s) && c < |m_connectionList|
      modifies m_connectionList
      ensures Shows(S.Outdated(s, c))
    {
      m_connectionList[c].Recycle(now, s.conns[c]);
    }

    method PushRecycling(c: nat, ghost s: Server)
      requires Shows(s)
      modifies this`m_recyconnectionList, this`m_totol_recyconnection_n, this`m_onlineUserCount
      ensures Shows(S.PushRecycling(s, c))
    {
      m_recyconnectionList := m_recyconnectionList + [c];
      m_totol_recyconnection_n := m_totol_recyconnection_n + 1;
      m_onlineUserCount := m_onlineUserCount - 1;
    }

    /** zdClosesocketProc */
    method ZdClosesocketProc(c: nat, ghost s: Server)
      requires Shows(s) && c < |m_connectionList| && Consistent(s.timers)
      modifies this`m_recyconnectionList, this`m_totol_recyconnection_n, this`m_onlineUserCount, this`freed,
               m_connectionList, m_timers
      ensures Shows(S.CloseConn(cfg, s, c)) && Consistent(m_timers.View())
    {
      ghost var s1 := s;
      if cfg.kick {
        freed := freed + TimerBlocks(OfConn(m_timers.m_timerQueuemap, c));
        m_timers.DeleteFromTimerQueue(c);
        s1 := s.(timers := Delete(s.timers, c), freed := freed);
      }
      ghost var k := s.conns[c];
      m_connectionList[c].Close(k);
      InRecyConnectQueue(c, SetConn(s1, c, k.(open := false, throwCount := if k.throwCount > 0 then k.throwCount - 1 else k.throwCount)));
    }

    /** One pass of ServerRecyConnectionThread while the server is not stopping: the scan starts over
        after every connection it frees. */
    method ServerRecyConnectionPass(ghost s: Server)
      requires Shows(s) && RecyValid(s)
      modifies this`m_recyconnectionList, this`m_totol_recyconnection_n, this`m_freeconnectionList,
               this`m_free_connection_n, this`freed, m_connectionList
      ensures Shows(S.Sweep(cfg, s))
    {
      ghost var t := s;
      var again := true;
      while again
        invariant Shows(t) && RecyValid(t) && S.Sweep(cfg, t) == S.Sweep(cfg, s)
        invariant !again ==> S.Sweep(cfg, t) == t
        decreases |m_recyconnectionList|, again
      {
        again := false;
        var pos := FindRipe(t);
        if pos < |m_recyconnectionList| {
          t := FreeRipe(pos, t);
          again := true;
        }
      }
    }

    method FreeRipe(pos: nat, ghost s: Server) returns (ghost t: Server)
      requires Shows(s) && RecyValid(s) && pos == S.FirstRipe(cfg, s, 0) < |m_recyconnectionList|
      modifies this`m_recyconnectionList, this`m_totol_recyconnection_n, this`m_freeconnectionList,
               this`m_free_connection_n, this`freed, m_connectionList
      ensures Shows(t) && RecyValid(t) && S.Sweep(cfg, t) == S.Sweep(cfg, s)
      ensures |m_recyconnectionList| < old(|m_recyconnectionList|)
    {
      var c := m_recyconnectionList[pos];
      m_totol_recyconnection_n := m_totol_recyconnection_n - 1;
      m_recyconnectionList := RemoveAt(m_recyconnectionList, pos);
      NgxFreeConnection(c, s.(recy := RemoveAt(s.recy, pos), recyN := s.recyN - 1));
      t := S.RecycleOne(s, pos);
    }

    /** The scan for a connection whose wait is over. */
    method FindRipe(ghost s: Server) returns (pos: nat)
      requires Shows(s) && RecyValid(s)
      ensures pos == S.FirstRipe(cfg, s, 0) <= |m_recyconnectionList|
      ensures pos == |m_recyconnectionList| ==> S.Sweep(cfg, s) == s
    {
      pos := 0;
      while pos < |m_recyconnectionList|
        invariant pos <= |m_recyconnectionList| && S.FirstRipe(cfg, s, 0) == S.FirstRipe(cfg, s, pos)
      {
        if m_connectionList[m_recyconnectionList[pos]].inRecyTime + cfg.recyWait > now {
          pos := pos + 1;
          continue;
        }
        return;
      }
    }

    /** msgSend */
    method MsgSend(h: Header, pkt: Packet, ghost s: Server)
      requires Shows(s) && h.conn < |m_connectionList| && Consistent(s.timers)
      modifies this`m_recyconnectionList, this`m_totol_recyconnection_n, this`m_onlineUserCount, this`freed, this`nextBlock,
               this`m_iDiscardSendPkgCount, this`m_MsgSendQueue, this`m_iSendMsgQueueCount, this`m_semEventSendQueue,
               m_connectionList, m_timers
      ensures Shows(S.MsgSend(cfg, s, h, pkt)) && Consistent(m_timers.View())
    {
      if m_iSendMsgQueueCount > MAX_QUEUED {
        DiscardMessage(s);
      } else if m_connectionList[h.conn].iSendCount > MAX_PENDING {
        DiscardMessage(s);
        ZdClosesocketProc(h.conn, S.Discard(s));
      } else {
        QueueMessage(h, pkt, s);
      }
    }

    method DiscardMessage(ghost s: Server)
      requires Shows(s)
      modifies this`m_iDiscardSendPkgCount, this`nextBlock, this`freed
      ensures Shows(S.Discard(s))
    {
      m_iDiscardSendPkgCount := m_iDiscardSendPkgCount + 1;
      freed := freed + multiset{nextBlock};
      nextBlock := nextBlock + 1;
    }

    method QueueMessage(h: Header, pkt: Packet, ghost s: Server)
      requires Shows(s) && h.conn < |m_connectionList|
      modifies this`m_MsgSendQueue, this`m_iSendMsgQueueCount, this`m_semEventSendQueue, this`nextBlock, m_connectionList
      ensures Shows(S.Enqueue(s, h, pkt))
    {
      var m := Msg(h, nextBlock, pkt);
      CountMessage(m, s);
      AppendMessage(m, S.Counted(s, m));
    }

    method CountMessage(m: Msg, ghost s: Server)
      requires Shows(s) && m.h.conn < |m_connectionList|
      modifies m_connectionList
      ensures Shows(S.Counted(s, m))
    {
      ghost var k := S.Counted(s, m).conns[m.h.conn];
      m_connectionList[m.h.conn].CountMessage(s.conns[m.h.conn], k.enqueued);
    }

    method AppendMessage(m: Msg, ghost s: Server)
      requires Shows(s)
      modifies this`m_MsgSendQueue, this`m_iSendMsgQueueCount, this`m_semEventSendQueue, this`nextBlock
      ensures Shows(S.Append(s, m))
    {
      nextBlock := nextBlock + 1;
      m_MsgSendQueue := m_MsgSendQueue + [m];
      m_iSendMsgQueueCount := m_iSendMsgQueueCount + 1;
      m_semEventSendQueue := m_semEventSendQueue + 1;
    }

    /** The loop of ServerSendQueueThread over the queue; kernel[i] is what send() returns for the i-th message. */
    method ServerSendQueuePass(kernel: seq<SendResult>, ghost s: Server)
      requires Shows(s) && s.pass == Some(0) && KnownConns(s) && |kernel| == |m_MsgSendQueue|
      requires forall i :: 0 <= i < |kernel| ==> WellSized(s.sendQ[i].pkt) && CanResult(s.sendQ[i], kernel[i])
      modifies this`m_MsgSendQueue, this`m_iSendMsgQueueCount, this`freed, m_connectionList
      ensures Shows(S.WholePass(s, kernel))
    {
      ghost var t := s;
      var pos, i := 0, 0;
      assert kernel[0..] == kernel;
      while pos < |m_MsgSendQueue|
        invariant Shows(t) && t.pass == Some(pos) && Ahead(s, t, i)
        invariant S.WholePass(s, kernel) == S.WholePass(t, kernel[i..])
        decreases |kernel| - i
      {
        pos, t := SendTurn(pos, i, kernel, s, t);
        i := i + 1;
      }
    }

    /** The i-th turn of the pass that started at s. */
    method SendTurn(pos: nat, i: nat, kernel: seq<SendResult>, ghost s: Server, ghost t: Server) returns (next: nat, ghost t': Server)
      requires Shows(t) && t.pass == Some(pos) && Ahead(s, t, i) && pos < |m_MsgSendQueue| && |kernel| == |s.sendQ|
      requires forall j :: 0 <= j < |kernel| ==> WellSized(s.sendQ[j].pkt) && CanResult(s.sendQ[j], kernel[j])
      modifies this`m_MsgSendQueue, this`m_iSendMsgQueueCount, this`freed, m_connectionList
      ensures Shows(t') && t'.pass == Some(next) && Ahead(s, t', i + 1)
      ensures S.WholePass(t', kernel[i + 1..]) == S.WholePass(t, kernel[i..])
    {
      TurnAhead(s, t, i, kernel);
      var m := m_MsgSendQueue[pos];
      var k := m_connectionList[m.h.conn];
      next, t' := pos, S.SendStep(t, kernel[i]);
      if k.iCurrsequence != m.h.sequence {
        DropMessage(pos, t);
      } else if k.iThrowsendCount > 0 {
        next := pos + 1;
      } else {
        StartMessage(pos, kernel[i], t);
      }
    }

    method DropMessage(pos: nat, ghost s: Server)
      requires Shows(s) && pos < |m_MsgSendQueue|
      modifies this`m_MsgSendQueue, this`m_iSendMsgQueueCount, this`freed
      ensures Shows(S.DropQueued(s, pos))
    {
      Unlink(pos, true, s);
    }

    method StartMessage(pos: nat, r: SendResult, ghost s: Server)
      requires Shows(s) && pos < |m_MsgSendQueue| && s.sendQ[pos].h.conn < |s.conns|
      requires WellSized(m_MsgSendQueue[pos].pkt) && CanResult(m_MsgSendQueue[pos], r)
      modifies this`m_MsgSendQueue, this`m_iSendMsgQueueCount, this`freed, m_connectionList
      ensures Shows(S.PickQueued(s, pos, r))
    {
      var m := m_MsgSendQueue[pos];
      var done := StartOn(m, r, s);
      Unlink(pos, done, SetConn(s, m.h.conn, S.SendFirst(s.conns[m.h.conn], m, r)));
    }

    method StartOn(m: Msg, r: SendResult, ghost s: Server) returns (done: bool)
      requires Shows(s) && m.h.conn < |s.conns| && WellSized(m.pkt) && CanResult(m, r)
      modifies m_connectionList
      ensures var k := S.SendFirst(s.conns[m.h.conn], m, r); Shows(SetConn(s, m.h.conn, k)) && done == k.sendMem.None?
    {
      done := m_connectionList[m.h.conn].StartPacket(m, r, s.conns[m.h.conn]);
    }

    method Unlink(pos: nat, release: bool, ghost s: Server)
      requires Shows(s) && pos < |m_MsgSendQueue|
      modifies this`m_MsgSendQueue, this`m_iSendMsgQueueCount, this`freed
      ensures Shows(s.(sendQ := RemoveAt(s.sendQ, pos), sendN := s.sendN - 1,
                       freed := if release then s.freed + multiset{s.sendQ[pos].buf} else s.freed))
    {
      if release {
        freed := freed + multiset{m_MsgSendQueue[pos].buf};
      }
      m_MsgSendQueue := m_MsgSendQueue[..pos] + m_MsgSendQueue[pos + 1..];
      m_iSendMsgQueueCount := m_iSendMsgQueueCount - 1;
    }

    /** ngx_write_request_handler, with the result of its send() */
    method NgxWriteRequestHandler(c: nat, r: SendResult, ghost s: Server)
      requires Shows(s) && c < |m_connectionList| && s.conns[c].sendMem.Some?
      requires r.Sent? ==> r.n <= s.conns[c].left && s.conns[c].sent + r.n <= |Data(s.conns[c].sendMem.value)|
      modifies this`m_semEventSendQueue, this`freed, m_connectionList
      ensures Shows(S.WriteEvent(s, c, r))
    {
      if r.Sent? {
        WriteSome(c, r.n, s);
      } else if r.Again? {
        return;
      } else {
        WriteNothing(c, s);
      }
    }

    method WriteSome(c: nat, n: nat, ghost s: Server)
      requires Shows(s) && c < |m_connectionList| && s.conns[c].sendMem.Some? && n <= s.conns[c].left
      requires s.conns[c].sent + n <= |Data(s.conns[c].sendMem.value)|
      modifies this`m_semEventSendQueue, this`freed, m_connectionList
      ensures Shows(S.WriteMore(s, c, n))
    {
      var buf := m_connectionList[c].psendMemPointer.value.buf;
      var done := m_connectionList[c].ContinuePacket(n, s, c);
      if done {
        m_semEventSendQueue := m_semEventSendQueue + 1;
        freed := freed + multiset{buf};
      }
    }

    method WriteNothing(c: nat, ghost s: Server)
      requires Shows(s) && c < |m_connectionList| && s.conns[c].sendMem.Some?
      modifies this`m_semEventSendQueue, this`freed, m_connectionList
      ensures Shows(S.WriteFailed(s, c))
    {
      var buf := m_connectionList[c].psendMemPointer.value.buf;
      m_semEventSendQueue := m_semEventSendQueue + 1;
      m_connectionList[c].AbandonPacket(s, c);
      freed := freed + multiset{buf};
    }

    /** ngx_event_accept for one accepted socket; `registered` is false when preparing the socket or
        adding it to epoll fails. */
    method NgxEventAccept(registered: bool, ghost s: Server)
      requires Shows(s) && FreeValid(s) && Consistent(s.timers)
      modifies this`m_connectionList, this`m_freeconnectionList, this`m_free_connection_n, this`m_total_connection_n,
               this`m_onlineUserCount, this`nextBlock, this`freed, m_connectionList, m_timers
      ensures Shows(S.Accept(cfg, s, registered))
    {
      if m_onlineUserCount >= cfg.workers {
        return;
      }
      if |m_connectionList| > cfg.workers * 5 {
        if |m_freeconnectionList| < cfg.workers {
          return;
        }
      }
      var c := NgxGetConnection(s);
      ghost var s1 := S.GetConnection(s).0;
      if registered {
        RegisterClient(c, s1);
      } else {
        NgxCloseConnection(c, s1);
      }
    }

    method RegisterClient(c: nat, ghost s: Server)
      requires Shows(s) && c < |m_connectionList| && Consistent(s.timers)
      modifies this`m_onlineUserCount, this`nextBlock, m_timers
      ensures Shows(S.Register(cfg, s, c))
    {
      if cfg.kick {
        var h := Header(c, m_connectionList[c].iCurrsequence, m_connectionList[c].inc);
        m_timers.AddToTimerQueue(h, now, cfg.wait, nextBlock);
        nextBlock := nextBlock + 1;
      }
      m_onlineUserCount := m_onlineUserCount + 1;
    }

    /** ngx_close_connection */
    method NgxCloseConnection(c: nat, ghost s: Server)
      requires Shows(s) && c < |m_connectionList|
      modifies this`m_freeconnectionList, this`m_free_connection_n, this`freed, m_connectionList
      ensures Shows(S.GiveBack(s, c))
    {
      NgxFreeConnection(c, s);
      m_connectionList[c].Shut(S.FreeConnection(s, c).conns[c]);
      assert S.FreeConnection(s, c).conns[c := S.PutOneToFree(s.conns[c]).(open := false)] == S.GiveBack(s, c).conns;
    }

    /** procPingTimeOutChecking on the first idle header */
    method ProcPingTimeOutChecking(curTime: int, ghost s: Server)
      requires Shows(s) && s.idle != [] && s.idle[0].h.conn < |m_connectionList| && Consistent(s.timers) && s.passTime == curTime
      modifies this`m_recyconnectionList, this`m_totol_recyconnection_n, this`m_onlineUserCount, this`freed,
               this`m_lsIdleList, m_connectionList, m_timers
      ensures Shows(S.CheckIdle(cfg, s))
    {
      var tmpmsg := m_lsIdleList[0];
      var k := m_connectionList[tmpmsg.h.conn];
      if tmpmsg.h.sequence == k.iCurrsequence {
        if cfg.timeOutKick {
          ZdClosesocketProc(tmpmsg.h.conn, s);
        } else if curTime - k.lastPingTime > cfg.wait * 3 + 10 {
          ZdClosesocketProc(tmpmsg.h.conn, s);
        }
      }
      DropIdle(S.KickIdle(cfg, s));
    }

    method DropIdle(ghost s: Server)
      requires Shows(s) && s.idle != []
      modifies this`m_lsIdleList, this`freed
      ensures Shows(S.DropIdle(s))
    {
      freed := freed + multiset{m_lsIdleList[0].buf};
      m_lsIdleList := m_lsIdleList[1..];
    }

    /** A pass of ServerTimerQueueMonitorThread up to where it releases the mutex */
    method ServerTimerQueuePass(ghost s: Server)
      requires Shows(s) && Consistent(s.timers) && cfg.wait > 0
      modifies this`m_lsIdleList, this`nextBlock, m_timers
      ensures Shows(S.MonitorPass(cfg, s))
    {
      var due, next := m_timers.MonitorPass(now, cfg.wait, cfg.timeOutKick, nextBlock);
      m_lsIdleList := m_lsIdleList + due;
      nextBlock := next;
    }
  }
}
