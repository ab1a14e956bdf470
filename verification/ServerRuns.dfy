/** Whole runs of the server, and what holds in every state they reach. */
module ServerRuns {
  import opened Bits
  import opened Common
  import opened Framing
  import opened Timers
  import opened ServerState
  import opened ServerInvariant
  import opened ConnectionPool
  import opened Ownership
  import opened ServerSteps

  // ---- Start-up ----

  /** Nothing but the listening sockets is in use. */
  predicate Quiet(s: Server) {
    s.recvQ == [] && s.held == [] && s.sendQ == [] && s.sendN == 0 && s.pass == None && s.online == 0 &&
    s.timers == Queue([], 0, 0) && s.idle == [] && s.passTime == s.now && s.next == 0 && s.freed == multiset{} &&
    (forall c :: 0 <= c < |s.conns| ==> Unused(s.conns[c]) && s.conns[c].lastPing <= s.now)
  }

  predicate Unused(k: Conn) {
    k.rx == INITIAL && k.recvMem == None && k.sendMem == None && k.throwCount == 0 && k.sendCount == 0 && !k.epollOut &&
    k.enqueued == [] && k.picks == [] && k.wire == [] && (k.place == InUse ==> k.listener) && k.place != Recycling &&
    (k.open <==> k.place == InUse)
  }

  lemma {:induction false} NoneUsed(conns: seq<Conn>, id: nat)
    requires forall c :: 0 <= c < |conns| ==> Unused(conns[c])
    ensures ConnUses(conns, id) == 0 && Clients(conns) == 0
  {
    if conns != [] {
      NoneUsed(conns[1..], id);
    }
  }

  /** A quiet server with correct lists satisfies the invariant. */
  lemma QuietIsInv(cfg: Config, s: Server)
    requires Quiet(s) && PoolOk(cfg, s)
    ensures Inv(cfg, s)
  {
    forall id: nat
      ensures Owners(s, id) == if id < s.next then 1 else 0
    {
      NoneUsed(s.conns, id);
    }
    OwnedBy(s);
  }

  lemma PoolOfIsQuiet(cfg: Config, now: int)
    ensures Quiet(PoolOf(cfg.workers, now))
  {
  }

  lemma PoolOfIsOk(cfg: Config, now: int)
    ensures PoolOk(cfg, PoolOf(cfg.workers, now))
  {
    hide ConnUses, Clients;
    var s := PoolOf(cfg.workers, now);
    PoolOfIsQuiet(cfg, now);
    NoneUsed(s.conns, 0);
    forall c | 0 <= c < |s.conns|
      ensures c in s.free
    {
      assert s.free[c] == c;
    }
  }

  lemma ListenTakes(cfg: Config, s: Server, k: Conn)
    requires PoolOk(cfg, s) && s.free != [] && k.place == InUse && k.listener
    ensures PoolOk(cfg, s.(conns := s.conns[s.free[0] := k], free := RemoveAt(s.free, 0), freeN := s.freeN - 1))
  {
    ListsRemove(s.conns, s.free, Free, 0, k);
    ListsKeep(s.conns, s.recy, Recycling, s.free[0], k);
    ClientsUpdate(s.conns, s.free[0], k);
  }

  lemma ListenGrows(cfg: Config, s: Server, k: Conn)
    requires PoolOk(cfg, s) && k.place == InUse && k.listener && |s.conns| < PoolLimit(cfg)
    ensures PoolOk(cfg, s.(conns := s.conns + [k], totalN := s.totalN + 1))
  {
    ListsExtend(s.conns, s.free, Free, k);
    ListsExtend(s.conns, s.recy, Recycling, k);
    ClientsAppend(s.conns, k);
  }

  lemma ListenKeepsLists(cfg: Config, s: Server, s1: Server, c: nat, k: Conn)
    requires PoolOk(cfg, s) && HandedOut(s, s1, c) && k == s1.conns[c].(listener := true) && |s1.conns| <= PoolLimit(cfg)
    requires s1.free == (if s.free == [] then [] else s.free[1..]) && (if s.free == [] then c == |s.conns| else c == s.free[0])
    requires s1.freeN == |s1.free| && s1.totalN == |s1.conns|
    ensures PoolOk(cfg, SetConn(s1, c, k))
  {
    if s.free != [] {
      assert s1.conns[c := k] == s.conns[c := k] && RemoveAt(s.free, 0) == s.free[1..];
      ListenTakes(cfg, s, k);
    } else {
      assert s1.conns[c := k] == s.conns + [k];
      ListenGrows(cfg, s, k);
    }
  }

  /** A listening socket takes a connection; the pool grows only when the free list is empty. */
  lemma ListenOneKeepsPool(cfg: Config, s: Server)
    requires PoolOk(cfg, s) && (s.free == [] ==> |s.conns| < PoolLimit(cfg))
    ensures var s' := ListenOne(s); PoolOk(cfg, s') && |s'.conns| - |s'.free| == |s.conns| - |s.free| + 1
  {
    GetEffect(cfg, s);
    var (s1, c) := GetConnection(s);
    ListenKeepsLists(cfg, s, s1, c, s1.conns[c].(listener := true));
  }

  lemma ListenOneKeepsQuiet(cfg: Config, s: Server)
    requires Quiet(s) && PoolOk(cfg, s)
    ensures Quiet(ListenOne(s))
  {
    GetEffect(cfg, s);
  }

  lemma {:induction false} ListenKeepsQuiet(cfg: Config, s: Server, ports: nat)
    requires Quiet(s) && PoolOk(cfg, s) && |s.conns| - |s.free| + ports <= PoolLimit(cfg)
    ensures Quiet(Listen(s, ports)) && PoolOk(cfg, Listen(s, ports))
    decreases ports
  {
    if ports > 0 {
      ListenOneKeepsPool(cfg, s);
      ListenOneKeepsQuiet(cfg, s);
      ListenKeepsQuiet(cfg, ListenOne(s), ports - 1);
    }
  }

  lemma InitialIsQuiet(cfg: Config, now: int)
    ensures Quiet(Initial(cfg, now)) && PoolOk(cfg, Initial(cfg, now))
  {
    PoolOfIsQuiet(cfg, now);
    PoolOfIsOk(cfg, now);
    ListenKeepsQuiet(cfg, PoolOf(cfg.workers, now), cfg.ports);
  }

  lemma InitialInv(cfg: Config, now: int)
    ensures Inv(cfg, Initial(cfg, now))
  {
    InitialIsQuiet(cfg, now);
    QuietIsInv(cfg, Initial(cfg, now));
  }

  // ---- Runs ----

  predicate Runs(cfg: Config, s: Server, steps: seq<Step>)
    requires cfg.wait > 0
    decreases steps
  {
    steps == [] || (Enabled(cfg, s, steps[0]) && Runs(cfg, Next(cfg, s, steps[0]), steps[1..]))
  }

  function After(cfg: Config, s: Server, steps: seq<Step>): Server
    requires cfg.wait > 0 && Runs(cfg, s, steps)
    decreases steps
  {
    if steps == [] then s else After(cfg, Next(cfg, s, steps[0]), steps[1..])
  }

  lemma {:induction false} RunKeepsInv(cfg: Config, s: Server, steps: seq<Step>)
    requires cfg.wait > 0 && Inv(cfg, s) && Runs(cfg, s, steps)
    ensures Inv(cfg, After(cfg, s, steps))
    decreases steps
  {
    if steps != [] {
      StepKeepsInv(cfg, s, steps[0]);
      RunKeepsInv(cfg, Next(cfg, s, steps[0]), steps[1..]);
    }
  }

  // ---- Runs put together ----

  lemma RunsOne(cfg: Config, s: Server, step: Step)
    requires cfg.wait > 0 && Enabled(cfg, s, step)
    ensures Runs(cfg, s, [step]) && After(cfg, s, [step]) == Next(cfg, s, step)
  {
    assert [step][1..] == [];
  }

  lemma RunsFirst(cfg: Config, s: Server, steps: seq<Step>, s1: Server)
    requires cfg.wait > 0 && steps != [] && Runs(cfg, s, steps) && s1 == Next(cfg, s, steps[0])
    ensures Runs(cfg, s1, steps[1..]) && After(cfg, s, steps) == After(cfg, s1, steps[1..])
  {
  }

  lemma RunsBefore(cfg: Config, s: Server, steps: seq<Step>, s1: Server)
    requires cfg.wait > 0 && steps != [] && Enabled(cfg, s, steps[0]) && s1 == Next(cfg, s, steps[0]) && Runs(cfg, s1, steps[1..])
    ensures Runs(cfg, s, steps) && After(cfg, s, steps) == After(cfg, s1, steps[1..])
  {
  }

  lemma {:induction false} RunsAppend(cfg: Config, s: Server, a: seq<Step>, b: seq<Step>)
    requires cfg.wait > 0 && Runs(cfg, s, a) && Runs(cfg, After(cfg, s, a), b)
    ensures Runs(cfg, s, a + b) && After(cfg, s, a + b) == After(cfg, After(cfg, s, a), b)
    decreases a
  {
    hide Next, Enabled;
    if a == [] {
      assert a + b == b;
    } else {
      var s1 := Next(cfg, s, a[0]);
      RunsFirst(cfg, s, a, s1);
      RunsAppend(cfg, s1, a[1..], b);
      assert (a + b)[0] == a[0] && (a + b)[1..] == a[1..] + b;
      RunsBefore(cfg, s, a + b, s1);
    }
  }

  lemma {:induction false} RunsSplit(cfg: Config, s: Server, a: seq<Step>, b: seq<Step>)
    requires cfg.wait > 0 && Runs(cfg, s, a + b)
    ensures Runs(cfg, s, a) && Runs(cfg, After(cfg, s, a), b)
    ensures After(cfg, s, a + b) == After(cfg, After(cfg, s, a), b)
    decreases a
  {
    hide Next, Enabled;
    if a == [] {
      assert a + b == b;
    } else {
      assert (a + b)[1..] == a[1..] + b;
      var s1 := Next(cfg, s, a[0]);
      RunsFirst(cfg, s, a + b, s1);
      RunsSplit(cfg, s1, a[1..], b);
      RunsBefore(cfg, s, a, s1);
    }
  }

  /** A start of the server followed by any interleaving of steps of its threads. */
  datatype Run = Run(cfg: Config, start: int, steps: seq<Step>)

  predicate IsRun(run: Run) {
    run.cfg.wait > 0 && Runs(run.cfg, Initial(run.cfg, run.start), run.steps)
  }

  function Reached(run: Run): Server
    requires IsRun(run)
  {
    After(run.cfg, Initial(run.cfg, run.start), run.steps)
  }

  lemma ReachedInv(run: Run)
    requires IsRun(run)
    ensures Inv(run.cfg, Reached(run))
  {
    InitialInv(run.cfg, run.start);
    RunKeepsInv(run.cfg, Initial(run.cfg, run.start), run.steps);
  }

  /** The turns of a pass as steps. */
  function Turns(kernel: seq<SendResult>): seq<Step> {
    if kernel == [] then [] else [SendNext(kernel[0])] + Turns(kernel[1..])
  }

  lemma NextTurn(cfg: Config, s: Server, r: SendResult)
    requires cfg.wait > 0 && Enabled(cfg, s, SendNext(r)) && KnownConns(s)
    ensures Next(cfg, s, SendNext(r)) == SendStep(s, r) && KnownConns(SendStep(s, r)) && SendStep(s, r).pass.Some?
    ensures |SendStep(s, r).sendQ| - SendStep(s, r).pass.value == |s.sendQ| - s.pass.value - 1
  {
  }

  /** The loop over the send queue is a run of single turns. */
  lemma {:induction false} PassIsRun(cfg: Config, s: Server, kernel: seq<SendResult>)
    requires cfg.wait > 0 && s.pass.Some? && KnownConns(s) && s.pass.value + |kernel| == |s.sendQ|
    requires Runs(cfg, s, Turns(kernel))
    ensures After(cfg, s, Turns(kernel)) == WholePass(s, kernel)
    decreases |kernel|
  {
    if kernel != [] {
      assert Turns(kernel)[0] == SendNext(kernel[0]) && Turns(kernel)[1..] == Turns(kernel[1..]);
      NextTurn(cfg, s, kernel[0]);
      PassIsRun(cfg, SendStep(s, kernel[0]), kernel[1..]);
    }
  }

  /** Which connections the recycle thread frees, as steps. */
  function Freeing(cfg: Config, s: Server): seq<Step>
    requires RecyValid(s)
    decreases |s.recy|
  {
    var i := FirstRipe(cfg, s, 0);
    if i == |s.recy| then [] else SweepStep(cfg, s, i); [Recycle(i)] + Freeing(cfg, RecycleOne(s, i))
  }

  /** No worker has a checked message of a connection that is due to be freed. */
  predicate NoneHeld(cfg: Config, s: Server) {
    forall i, j :: 0 <= i < |s.recy| && 0 <= j < |s.held| && s.held[j].checked && s.held[j].msg.h.conn == s.recy[i] ==>
      s.recy[i] >= |s.conns| || s.conns[s.recy[i]].recyTime + cfg.recyWait > s.now
  }

  lemma FreedOne(cfg: Config, s: Server, i: nat)
    requires RecyValid(s) && NoneHeld(cfg, s) && i < |s.recy| && Ripe(cfg, s, s.recy[i])
    ensures Enabled(cfg, s, Recycle(i)) && RecyValid(RecycleOne(s, i)) && NoneHeld(cfg, RecycleOne(s, i))
  {
  }

  /** A pass of the recycle thread is a run of Recycle steps when no worker still handles a message of a
      connection it frees: each of them has waited out the delay when its turn comes. */
  lemma {:induction false} SweepIsRun(cfg: Config, s: Server)
    requires cfg.wait > 0 && RecyValid(s) && NoneHeld(cfg, s)
    ensures Runs(cfg, s, Freeing(cfg, s)) && After(cfg, s, Freeing(cfg, s)) == Sweep(cfg, s)
    decreases |s.recy|
  {
    var i := FirstRipe(cfg, s, 0);
    if i < |s.recy| {
      FreedOne(cfg, s, i);
      var s1 := RecycleOne(s, i);
      SweepStep(cfg, s, i);
      SweepIsRun(cfg, s1);
      var steps := Freeing(cfg, s);
      assert steps[0] == Recycle(i) && steps[1..] == Freeing(cfg, s1) && Next(cfg, s, steps[0]) == s1;
      RunsBefore(cfg, s, steps, s1);
    }
  }

  // ---- No stale header is acted on ----

  /** A stamped header somewhere in the server. */
  predicate Waits(s: Server, h: Header) {
    (exists i :: 0 <= i < |s.recvQ| && s.recvQ[i].h == h) || (exists i :: 0 <= i < |s.held| && s.held[i].msg.h == h) ||
    (exists i :: 0 <= i < |s.sendQ| && s.sendQ[i].h == h) || Has(s.timers.entries, h) || Has(s.idle, h)
  }

  /** Wherever a header waits, the sequence number test tells exactly whether the incarnation that
      stamped it is still in use. */
  lemma NoStaleHeader(run: Run, h: Header)
    requires IsRun(run) && Waits(Reached(run), h)
    ensures var s := Reached(run);
            h.conn < |s.conns| && !s.conns[h.conn].listener && h.sequence <= s.conns[h.conn].sequence &&
            (h.sequence == s.conns[h.conn].sequence <==> s.conns[h.conn].place == InUse && s.conns[h.conn].inc == h.inc)
  {
    ReachedInv(run);
    var s := Reached(run);
    if Has(s.timers.entries, h) {
      var i :| 0 <= i < |s.timers.entries| && s.timers.entries[i].h == h;
      assert Live(s.conns, h);
    } else {
      assert HeaderOk(s.conns, h);
    }
  }

  // ---- The pool ----

  /** Each connection is in exactly one place, and the counters are exact. */
  lemma PoolPartition(run: Run, c: nat)
    requires IsRun(run) && c < |Reached(run).conns|
    ensures var s := Reached(run);
            (c in s.free <==> s.conns[c].place == Free) && (c in s.recy <==> s.conns[c].place == Recycling) &&
            Distinct(s.free) && Distinct(s.recy) &&
            s.totalN == |s.conns| && s.freeN == |s.free| && s.recyN == |s.recy| &&
            s.online == Clients(s.conns) <= run.cfg.workers
  {
    ReachedInv(run);
  }

  /** With at most as many listening ports as five times the connection limit, plus one, that is how
      large the pool gets. */
  lemma PoolBounded(run: Run)
    requires IsRun(run)
    ensures |Reached(run).conns| <= PoolLimit(run.cfg)
  {
    ReachedInv(run);
  }

  /** A socket is open exactly while its connection is in use. */
  lemma OpenWhileInUse(run: Run, c: nat)
    requires IsRun(run) && c < |Reached(run).conns|
    ensures Reached(run).conns[c].open <==> Reached(run).conns[c].place == InUse
  {
    ReachedInv(run);
    assert Sound(c, Reached(run).conns[c]);
  }

  /** The side conditions of the steps exclude nothing: a client in use can receive and be written to
      as the kernel likes, and every pointer in the lists and queues is one. */
  lemma NothingExcluded(run: Run, c: nat, chunk: seq<Byte>, n: nat)
    requires IsRun(run)
    ensures var s := Reached(run);
            FreeValid(s) && RecyValid(s) && KnownConns(s) && Consistent(s.timers) &&
            (forall i :: 0 <= i < |s.held| ==> s.held[i].msg.h.conn < |s.conns|) &&
            (forall i :: 0 <= i < |s.idle| ==> s.idle[i].h.conn < |s.conns|) &&
            (forall l, ok :: 0 <= l < |s.conns| && s.conns[l].listener ==> Enabled(run.cfg, s, Accepting(l, ok)))
    ensures var s := Reached(run);
            IsClient(s, c) ==>
              (1 <= |chunk| <= s.conns[c].rx.want ==> CanReceive(s, c, chunk)) &&
              (s.conns[c].epollOut && n <= s.conns[c].left ==> Enabled(run.cfg, s, Writing(c, n)))
  {
    ReachedInv(run);
    var s := Reached(run);
    if IsClient(s, c) {
      assert Sound(c, s.conns[c]);
    }
    forall i | 0 <= i < |s.sendQ|
      ensures s.sendQ[i].h.conn < |s.conns|
    {
      assert HeaderOk(s.conns, s.sendQ[i].h);
    }
  }

  // ---- Packet integrity ----

  /** What the kernel got for a connection in use are whole packets, in the order they were picked,
      and a prefix of the one in flight; the three send fields agree on whether there is one. */
  lemma PacketIntegrity(run: Run, c: nat)
    requires IsRun(run) && c < |Reached(run).conns| && Reached(run).conns[c].place == InUse
    ensures var k := Reached(run).conns[c];
            (k.throwCount == 1 <==> k.sendMem.Some?) && (k.throwCount == 0 <==> k.sendMem.None?) &&
            (k.epollOut <==> k.sendMem.Some?) &&
            (k.sendMem.None? ==> k.wire == Carried(k.picks)) &&
            (k.sendMem.Some? ==>
              k.picks != [] && k.picks[|k.picks| - 1].msg == k.sendMem.value && 0 < k.left &&
              k.sent + k.left == |Data(k.sendMem.value)| &&
              k.wire == Carried(k.picks[..|k.picks| - 1]) + Data(k.sendMem.value)[..k.sent])
  {
    ReachedInv(run);
    assert Sound(c, Reached(run).conns[c]);
  }

  /** Every message queued for a connection in use is sent at most once: it is still queued or it was picked. */
  lemma SentAtMostOnce(run: Run, c: nat)
    requires IsRun(run) && c < |Reached(run).conns| && Reached(run).conns[c].place == InUse
    ensures var s := Reached(run);
            var k := s.conns[c];
            multiset(k.enqueued) == multiset(PickMsgs(k.picks)) + multiset(QueueOf(s.sendQ, Current(s.conns, c)))
  {
    ReachedInv(run);
    assert Accounted(Reached(run).conns, Reached(run).sendQ, c);
  }

  /** Even for a connection that was closed, the kernel got no byte that was not picked for it. */
  lemma NothingElseSent(run: Run, c: nat)
    requires IsRun(run) && c < |Reached(run).conns|
    ensures var k := Reached(run).conns[c];
            k.wire <= Carried(k.picks) && forall i :: 0 <= i < |k.picks| ==> k.picks[i].msg.h.conn == c && k.picks[i].msg.h.inc == k.inc
  {
    ReachedInv(run);
    assert Sound(c, Reached(run).conns[c]);
  }

  // ---- Accounting and wake-ups ----

  lemma SendAccounting(run: Run, c: nat)
    requires IsRun(run) && c < |Reached(run).conns| && Reached(run).conns[c].place == InUse
    ensures var s := Reached(run);
            s.sendN == |s.sendQ| <= 50001 && s.conns[c].sendCount == |QueueOf(s.sendQ, Current(s.conns, c))| <= 401
  {
    ReachedInv(run);
    assert Accounted(Reached(run).conns, Reached(run).sendQ, c);
  }

  /** When the send thread sleeps, every queued message is stale or waits for a write event. */
  lemma NothingStranded(run: Run, i: nat)
    requires IsRun(run) && i < |Reached(run).sendQ| && Reached(run).sem == 0 && Reached(run).pass == None
    ensures var s := Reached(run);
            var h := s.sendQ[i].h;
            h.conn < |s.conns| &&
            (h.sequence != s.conns[h.conn].sequence || (s.conns[h.conn].throwCount > 0 && s.conns[h.conn].epollOut))
  {
    ReachedInv(run);
    var s := Reached(run);
    var h := s.sendQ[i].h;
    assert HeaderOk(s.conns, h) && Sound(h.conn, s.conns[h.conn]);
  }

  // ---- Timers and heartbeat ----

  /** Exactly the clients in use have a timer entry, one each, with their present sequence number. */
  lemma TimersMatchClients(run: Run)
    requires IsRun(run) && run.cfg.kick && !run.cfg.timeOutKick
    ensures var s := Reached(run);
            var t := s.timers.entries;
            s.timers.size == |t| == s.online == Clients(s.conns) && (t != [] ==> s.timers.first == t[0].key) &&
            (forall i, j :: 0 <= i < j < |t| ==> t[i].key <= t[j].key && t[i].h.conn != t[j].h.conn) &&
            (forall i :: 0 <= i < |t| ==> Live(s.conns, t[i].h)) &&
            (forall c :: 0 <= c < |s.conns| && s.conns[c].place == InUse && !s.conns[c].listener ==> Has(t, Current(s.conns, c)))
  {
    ReachedInv(run);
    var s := Reached(run);
    forall c | 0 <= c < |s.conns| && s.conns[c].place == InUse && !s.conns[c].listener
      ensures Has(s.timers.entries, Current(s.conns, c))
    {
      assert Timed(run.cfg, s.timers, s.idle, Current(s.conns, c));
    }
  }

  /** When the monitor has made its checks, every client in use was heard from within the window. */
  lemma ClientsWithinWindow(cfg: Config, s: Server, c: nat)
    requires Inv(cfg, s) && cfg.kick && !cfg.timeOutKick && IsClient(s, c) && s.idle == []
    ensures s.passTime < s.conns[c].lastPing + 4 * cfg.wait + 11
  {
    var h := Current(s.conns, c);
    assert Timed(cfg, s.timers, s.idle, h);
    var i :| 0 <= i < |s.timers.entries| && s.timers.entries[i].h == h;
    assert Due(cfg, s.conns, s.idle, s.passTime, s.timers.entries[i]);
  }

  /** A heartbeat check leaves alone every client heard from within the last 3w + 10 seconds. */
  lemma CheckSparesClient(cfg: Config, s: Server, c: nat)
    requires Inv(cfg, s) && s.idle != [] && IsClient(s, c) && !cfg.timeOutKick
    requires s.now <= s.conns[c].lastPing + 3 * cfg.wait + 10
    ensures s.idle[0].h.conn < |s.conns| && c < |CheckIdle(cfg, s).conns| && CheckIdle(cfg, s).conns[c] == s.conns[c]
  {
    assert HeaderOk(s.conns, s.idle[0].h);
    if Kicks(cfg, s, s.idle[0].h) {
      CloseEffect(cfg, s, s.idle[0].h.conn);
    }
  }

  // ---- Memory ----

  /** Every block ever allocated has exactly one owner, or none and was freed exactly once; a
      connection has a receive block exactly while it receives a body. */
  lemma BlocksOwnedOnce(run: Run, id: nat)
    requires IsRun(run)
    ensures var s := Reached(run);
            Pointers(s.conns, s.recvQ, s.held, s.sendQ, s.timers.entries, s.idle, id) + s.freed[id] ==
            (if id < s.next then 1 else 0)
  {
    ReachedInv(run);
  }

  lemma ReceiveBlockWhileInBody(run: Run, c: nat)
    requires IsRun(run) && c < |Reached(run).conns| && Reached(run).conns[c].place != Free
    ensures var k := Reached(run).conns[c]; k.recvMem.Some? <==> InBody(k.rx)
  {
    ReachedInv(run);
    assert Sound(c, Reached(run).conns[c]);
  }
}
