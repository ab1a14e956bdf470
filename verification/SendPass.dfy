/** What a whole pass of the send thread does to the queue it walks. */
module SendPass {
  import opened Common
  import opened ServerState
  import opened ServerInvariant
  import opened Sending
  import opened ServerRuns

  /** What becomes of a message when the send thread comes to it. */
  datatype Fate = Dropped | Passed | Started

  function FateOf(s: Server, m: Msg): Fate
    requires m.h.conn < |s.conns|
  {
    if Stale(s.conns, m.h) then Dropped else if IsSending(s.conns, m.h) then Passed else Started
  }

  /** The fates of the messages from the position of the pass on. */
  function Fates(s: Server, kernel: seq<SendResult>): (f: seq<Fate>)
    requires s.pass.Some? && KnownConns(s) && s.pass.value + |kernel| == |s.sendQ|
    ensures |f| == |kernel|
    decreases |kernel|
  {
    if kernel == [] then [] else [FateOf(s, s.sendQ[s.pass.value])] + Fates(SendStep(s, kernel[0]), kernel[1..])
  }

  /** The messages with a given fate, in order. */
  function With(q: seq<Msg>, fates: seq<Fate>, fate: Fate): seq<Msg>
    requires |fates| == |q|
  {
    if q == [] then [] else (if fates[0] == fate then [q[0]] else []) + With(q[1..], fates[1..], fate)
  }

  function ForConn(q: seq<Msg>, c: nat): seq<Msg> {
    if q == [] then [] else (if q[0].h.conn == c then [q[0]] else []) + ForConn(q[1..], c)
  }

  function MsgBlocks(q: seq<Msg>): multiset<nat> {
    if q == [] then multiset{} else multiset{q[0].buf} + MsgBlocks(q[1..])
  }

  /** One turn, or several, for all connections: no sequence number changes, and a connection that is
      sending goes on sending. */
  predicate Steadily(s: Server, s1: Server) {
    |s1.conns| == |s.conns| &&
    forall c :: 0 <= c < |s.conns| ==>
      s1.conns[c].sequence == s.conns[c].sequence && (s.conns[c].throwCount > 0 ==> s1.conns[c].throwCount > 0)
  }

  /** The messages that connection c was given to send. */
  predicate Gained(s: Server, s1: Server, c: nat, ms: seq<Msg>) {
    c < |s.conns| && c < |s1.conns| && PickMsgs(s1.conns[c].picks) == PickMsgs(s.conns[c].picks) + ms
  }

  /** What a turn on message m with a given fate does. */
  predicate Turned(s: Server, s1: Server, fate: Fate, c: nat)
    requires s.pass.Some? && s.pass.value < |s.sendQ|
  {
    var p, m := s.pass.value, s.sendQ[s.pass.value];
    Steadily(s, s1) && KnownConns(s1) && s.freed <= s1.freed &&
    s1.pass == Some(if fate == Passed then p + 1 else p) &&
    s1.sendQ == (if fate == Passed then s.sendQ else s.sendQ[..p] + s.sendQ[p + 1..]) &&
    (fate == Dropped ==> s1.freed == s.freed + multiset{m.buf}) &&
    Gained(s, s1, c, if fate == Started && m.h.conn == c then [m] else [])
  }

  lemma PickTurn(s: Server, r: SendResult, c: nat)
    requires s.pass.Some? && KnownConns(s) && s.pass.value < |s.sendQ| && c < |s.conns|
    requires s.conns[s.sendQ[s.pass.value].h.conn].throwCount <= 0
    ensures Turned(s, PickQueued(s, s.pass.value, r), Started, c)
  {
    hide SendFirst, PickMsgs;
    var m := s.sendQ[s.pass.value];
    var k := s.conns[m.h.conn];
    CarriedStep(k.picks, Pick(m, r.Gone? || r.Broken?));
    StartCounts(k, m, r);
    if c != m.h.conn {
      assert PickMsgs(s.conns[c].picks) + [] == PickMsgs(s.conns[c].picks);
    }
  }

  lemma StayTurn(s: Server, s1: Server, c: nat)
    requires s1.conns == s.conns && c < |s.conns|
    ensures Steadily(s, s1) && Gained(s, s1, c, [])
  {
    assert PickMsgs(s.conns[c].picks) + [] == PickMsgs(s.conns[c].picks);
  }

  lemma TurnEffect(s: Server, r: SendResult, c: nat)
    requires s.pass.Some? && KnownConns(s) && s.pass.value < |s.sendQ| && c < |s.conns|
    ensures Turned(s, SendStep(s, r), FateOf(s, s.sendQ[s.pass.value]), c)
  {
    var s1 := SendStep(s, r);
    if FateOf(s, s.sendQ[s.pass.value]) == Started {
      PickTurn(s, r, c);
    } else {
      StayTurn(s, s1, c);
    }
  }

  /** A message still behind the position belongs to a connection that is sending. */
  predicate AllSending(s: Server, q: seq<Msg>) {
    forall i :: 0 <= i < |q| ==> IsSending(s.conns, q[i].h)
  }

  lemma Around(q: seq<Msg>, p: nat)
    requires p < |q|
    ensures (q[..p] + q[p + 1..])[p..] == q[p + 1..] && (q[..p] + q[p + 1..])[..p] == q[..p] == q[..p] + []
    ensures q[..p + 1] == q[..p] + [q[p]]
  {
  }

  lemma PassBegins(s: Server, r: SendResult)
    requires s.pass.Some? && KnownConns(s) && s.pass.value < |s.sendQ|
    ensures var p, m, s1 := s.pass.value, s.sendQ[s.pass.value], SendStep(s, r);
            s1.pass.Some? && s1.pass.value <= |s1.sendQ| && s1.sendQ[s1.pass.value..] == s.sendQ[p + 1..] &&
            s1.sendQ[..s1.pass.value] == s.sendQ[..p] + (if FateOf(s, m) == Passed then [m] else [])
  {
    hide SendStep, FateOf, Steadily, Gained;
    TurnEffect(s, r, s.sendQ[s.pass.value].h.conn);
    Around(s.sendQ, s.pass.value);
  }

  lemma NoMoreTurns(s: Server)
    requires s.pass.Some? && KnownConns(s) && s.pass.value == |s.sendQ|
    ensures WholePass(s, []) == s && Fates(s, []) == []
    ensures s.sendQ[s.pass.value..] == [] && s.sendQ[..s.pass.value] == s.sendQ
  {
  }

  lemma WithFirst(q: seq<Msg>, fates: seq<Fate>, fate: Fate)
    requires |fates| == |q| && q != []
    ensures With(q, fates, fate) == (if fates[0] == fate then [q[0]] else []) + With(q[1..], fates[1..], fate)
  {
  }

  /** The fates are those of a list that is taken apart from the front. */
  lemma FatesStep(s: Server, kernel: seq<SendResult>)
    requires s.pass.Some? && KnownConns(s) && s.pass.value + |kernel| == |s.sendQ| && kernel != []
    ensures var s1 := SendStep(s, kernel[0]);
            s1.pass.Some? && KnownConns(s1) && s1.pass.value + |kernel[1..]| == |s1.sendQ| &&
            Fates(s, kernel)[1..] == Fates(s1, kernel[1..]) && Fates(s, kernel)[0] == FateOf(s, s.sendQ[s.pass.value]) &&
            WholePass(s, kernel) == WholePass(s1, kernel[1..])
  {
    TurnEffect(s, kernel[0], s.sendQ[s.pass.value].h.conn);
  }

  /** A message is dropped exactly when it was stale when the pass began. */
  lemma {:induction false} StaleIsDropped(s: Server, kernel: seq<SendResult>, i: nat)
    requires s.pass.Some? && KnownConns(s) && s.pass.value + |kernel| == |s.sendQ| && i < |kernel|
    ensures Fates(s, kernel)[i] == Dropped <==> Stale(s.conns, s.sendQ[s.pass.value + i].h)
    decreases |kernel|
  {
    hide SendStep, WholePass, Fates, Gained;
    FatesStep(s, kernel);
    if i > 0 {
      var s1 := SendStep(s, kernel[0]);
      TurnEffect(s, kernel[0], s.sendQ[s.pass.value].h.conn);
      PassBegins(s, kernel[0]);
      assert s1.sendQ[s1.pass.value..][i - 1] == s.sendQ[s.pass.value + 1..][i - 1];
      StaleIsDropped(s1, kernel[1..], i - 1);
      assert Fates(s, kernel)[i] == Fates(s, kernel)[1..][i - 1];
    }
  }

  lemma SteadilyTwice(s: Server, s1: Server, s2: Server)
    requires Steadily(s, s1) && Steadily(s1, s2)
    ensures Steadily(s, s2)
  {
  }

  lemma {:induction false} PassIsSteady(s: Server, kernel: seq<SendResult>)
    requires s.pass.Some? && KnownConns(s) && s.pass.value + |kernel| == |s.sendQ|
    ensures Steadily(s, WholePass(s, kernel))
    decreases |kernel|
  {
    hide SendStep, WholePass, Gained;
    if kernel == [] {
      NoMoreTurns(s);
    } else {
      FatesStep(s, kernel);
      TurnEffect(s, kernel[0], s.sendQ[s.pass.value].h.conn);
      PassIsSteady(SendStep(s, kernel[0]), kernel[1..]);
      SteadilyTwice(s, SendStep(s, kernel[0]), WholePass(s, kernel));
    }
  }

  /** The pass ends at the end of the queue, in which the messages passed over remain, in order. */
  lemma {:induction false} PassKeepsPassed(s: Server, kernel: seq<SendResult>)
    requires s.pass.Some? && KnownConns(s) && s.pass.value + |kernel| == |s.sendQ|
    ensures var e, passed := WholePass(s, kernel), With(s.sendQ[s.pass.value..], Fates(s, kernel), Passed);
            e.sendQ == s.sendQ[..s.pass.value] + passed && e.pass == Some(|e.sendQ|) && AllSending(e, passed)
    decreases |kernel|
  {
    hide SendStep, WholePass, Fates, With, FateOf;
    var p, rest := s.pass.value, s.sendQ[s.pass.value..];
    if kernel == [] {
      NoMoreTurns(s);
      NoneWith(Passed);
    } else {
      var s1 := SendStep(s, kernel[0]);
      FatesStep(s, kernel);
      PassBegins(s, kernel[0]);
      PassKeepsPassed(s1, kernel[1..]);
      assert rest[1..] == s.sendQ[p + 1..] && rest[0] == s.sendQ[p];
      WithFirst(rest, Fates(s, kernel), Passed);
      Associate(s.sendQ[..p], if FateOf(s, rest[0]) == Passed then [rest[0]] else [],
                With(rest[1..], Fates(s1, kernel[1..]), Passed));
      StillSending(s, kernel);
    }
  }

  lemma NoneWith(fate: Fate)
    ensures With([], [], fate) == []
  {
  }

  lemma StillSending(s: Server, kernel: seq<SendResult>)
    requires s.pass.Some? && KnownConns(s) && s.pass.value + |kernel| == |s.sendQ| && kernel != []
    ensures FateOf(s, s.sendQ[s.pass.value]) == Passed ==> IsSending(WholePass(s, kernel).conns, s.sendQ[s.pass.value].h)
  {
    PassIsSteady(s, kernel);
  }

  /** The block of every dropped message is freed. */
  lemma {:induction false} PassFreesDropped(s: Server, kernel: seq<SendResult>)
    requires s.pass.Some? && KnownConns(s) && s.pass.value + |kernel| == |s.sendQ|
    ensures s.freed + MsgBlocks(With(s.sendQ[s.pass.value..], Fates(s, kernel), Dropped)) <= WholePass(s, kernel).freed
    decreases |kernel|
  {
    hide SendStep, WholePass, Fates, With, FateOf, Steadily, Gained, MsgBlocks;
    if kernel == [] {
      NoMoreTurns(s);
      NoneWith(Dropped);
      NoBlocks();
    } else {
      var s1, m, rest := SendStep(s, kernel[0]), s.sendQ[s.pass.value], s.sendQ[s.pass.value..];
      FatesStep(s, kernel);
      TurnEffect(s, kernel[0], m.h.conn);
      PassBegins(s, kernel[0]);
      PassFreesDropped(s1, kernel[1..]);
      assert rest[1..] == s.sendQ[s.pass.value + 1..];
      WithFirst(rest, Fates(s, kernel), Dropped);
      BlocksOfFirst(m, With(rest[1..], Fates(s1, kernel[1..]), Dropped));
    }
  }

  lemma NoBlocks()
    ensures MsgBlocks([]) == multiset{}
  {
  }

  lemma BlocksOfFirst(m: Msg, q: seq<Msg>)
    ensures MsgBlocks([m] + q) == multiset{m.buf} + MsgBlocks(q)
    ensures [] + q == q
  {
    assert ([m] + q)[1..] == q;
  }

  /** Every started message goes to its connection, in order. */
  lemma {:induction false} PassStartsStarted(s: Server, kernel: seq<SendResult>, c: nat)
    requires s.pass.Some? && KnownConns(s) && s.pass.value + |kernel| == |s.sendQ| && c < |s.conns|
    ensures Gained(s, WholePass(s, kernel), c, ForConn(With(s.sendQ[s.pass.value..], Fates(s, kernel), Started), c))
    decreases |kernel|
  {
    hide SendStep, WholePass, Fates, With, FateOf, Steadily, ForConn, PickMsgs;
    var p, rest := s.pass.value, s.sendQ[s.pass.value..];
    if kernel == [] {
      NoMoreTurns(s);
      NoneWith(Started);
      NoneForConn(c);
      assert PickMsgs(s.conns[c].picks) + [] == PickMsgs(s.conns[c].picks);
    } else {
      var m, s1 := s.sendQ[p], SendStep(s, kernel[0]);
      FatesStep(s, kernel);
      TurnEffect(s, kernel[0], c);
      StillKnown(s, kernel[0]);
      PassBegins(s, kernel[0]);
      PassStartsStarted(s1, kernel[1..], c);
      assert rest[1..] == s.sendQ[p + 1..];
      var behind := With(rest[1..], Fates(s1, kernel[1..]), Started);
      WithFirst(rest, Fates(s, kernel), Started);
      FirstForConn(m, behind, c);
      Associate(PickMsgs(s.conns[c].picks), if FateOf(s, m) == Started && m.h.conn == c then [m] else [],
                ForConn(behind, c));
    }
  }

  lemma StillKnown(s: Server, r: SendResult)
    requires s.pass.Some? && KnownConns(s) && s.pass.value < |s.sendQ|
    ensures |SendStep(s, r).conns| == |s.conns|
  {
    hide SendStep, Gained;
    TurnEffect(s, r, s.sendQ[s.pass.value].h.conn);
  }

  lemma NoneForConn(c: nat)
    ensures ForConn([], c) == []
  {
  }

  lemma FirstForConn(m: Msg, q: seq<Msg>, c: nat)
    ensures ForConn([m] + q, c) == (if m.h.conn == c then [m] else []) + ForConn(q, c)
    ensures [] + q == q && [] + ForConn(q, c) == ForConn(q, c)
  {
    assert ([m] + q)[1..] == q;
  }

  // ---- A pass from the semaphore to the end of the queue ----

  /** The send thread is woken, walks the whole queue, and sleeps again. */
  function Pass(kernel: seq<SendResult>): seq<Step> {
    [SendBegin] + (Turns(kernel) + [SendEnd])
  }

  lemma KnownInInv(cfg: Config, s: Server)
    requires Inv(cfg, s)
    ensures KnownConns(s)
  {
    forall i | 0 <= i < |s.sendQ|
      ensures s.sendQ[i].h.conn < |s.conns|
    {
      assert HeaderOk(s.conns, s.sendQ[i].h);
    }
  }

  /** Taking the semaphore starts a pass at the front exactly when the queue is not empty. */
  lemma BeginStarts(cfg: Config, s: Server)
    requires cfg.wait > 0 && Inv(cfg, s) && Enabled(cfg, s, SendBegin)
    ensures Next(cfg, s, SendBegin) == s.(sem := s.sem - 1, pass := if s.sendQ != [] then Some(0) else None)
  {
  }

  lemma PassRuns(cfg: Config, s: Server, kernel: seq<SendResult>)
    requires cfg.wait > 0 && Inv(cfg, s) && s.sendQ != [] && |kernel| == |s.sendQ| && Runs(cfg, s, Pass(kernel))
    ensures KnownConns(s) && s.sem > 0
    ensures After(cfg, s, Pass(kernel)) == WholePass(s.(sem := s.sem - 1, pass := Some(0)), kernel).(pass := None)
  {
    KnownInInv(cfg, s);
    BeginStarts(cfg, s);
    var s1 := s.(sem := s.sem - 1, pass := Some(0));
    assert Pass(kernel)[0] == SendBegin && Pass(kernel)[1..] == Turns(kernel) + [SendEnd];
    RunsSplit(cfg, s1, Turns(kernel), [SendEnd]);
    PassIsRun(cfg, s1, kernel);
    EndEnds(cfg, WholePass(s1, kernel));
  }

  lemma EndEnds(cfg: Config, s: Server)
    requires cfg.wait > 0 && Runs(cfg, s, [SendEnd])
    ensures After(cfg, s, [SendEnd]) == s.(pass := None)
  {
    assert [SendEnd][1..] == [];
  }

  /** When the send thread has been woken and walked the queue, whatever the kernel took: of the messages
      that were queued, the stale ones are gone and their blocks freed; those left were passed over,
      are in order, are not stale and belong to connections that are sending; all others were given to
      their connections in order. */
  lemma PassCleansQueue(cfg: Config, s: Server, kernel: seq<SendResult>, c: nat)
    requires cfg.wait > 0 && Inv(cfg, s) && s.sendQ != [] && |kernel| == |s.sendQ| && Runs(cfg, s, Pass(kernel))
    requires c < |s.conns|
    ensures KnownConns(s) && s.sem > 0
    ensures var e, f := After(cfg, s, Pass(kernel)), Fates(s.(sem := s.sem - 1, pass := Some(0)), kernel);
            (forall i :: 0 <= i < |s.sendQ| ==>
              (f[i] == Dropped <==> s.conns[s.sendQ[i].h.conn].sequence != s.sendQ[i].h.sequence)) &&
            e.sendQ == With(s.sendQ, f, Passed) && s.freed + MsgBlocks(With(s.sendQ, f, Dropped)) <= e.freed &&
            Gained(s, e, c, ForConn(With(s.sendQ, f, Started), c)) &&
            forall i :: 0 <= i < |e.sendQ| ==> !Stale(e.conns, e.sendQ[i].h) && IsSending(e.conns, e.sendQ[i].h)
  {
    PassRuns(cfg, s, kernel);
    var s1 := s.(sem := s.sem - 1, pass := Some(0));
    var e := WholePass(s1, kernel);
    assert s1.sendQ[0..] == s.sendQ && s1.sendQ[..0] == [];
    PassKeepsPassed(s1, kernel);
    PassFreesDropped(s1, kernel);
    PassStartsStarted(s1, kernel, c);
    PassIsSteady(s1, kernel);
    forall i | 0 <= i < |s.sendQ|
      ensures Fates(s1, kernel)[i] == Dropped <==> Stale(s.conns, s.sendQ[i].h)
    {
      StaleIsDropped(s1, kernel, i);
    }
    assert [] + With(s.sendQ, Fates(s1, kernel), Passed) == With(s.sendQ, Fates(s1, kernel), Passed);
    NoneIsStale(s, e, s.sendQ, Fates(s1, kernel));
  }

  lemma {:induction false} NoneIsStale(s: Server, e: Server, q: seq<Msg>, fates: seq<Fate>)
    requires Steadily(s, e) && |fates| == |q| && forall i :: 0 <= i < |q| ==> q[i].h.conn < |s.conns|
    requires forall i :: 0 <= i < |q| ==> (fates[i] == Dropped <==> Stale(s.conns, q[i].h))
    ensures forall i :: 0 <= i < |With(q, fates, Passed)| ==> !Stale(e.conns, With(q, fates, Passed)[i].h)
  {
    if q != [] {
      NoneIsStale(s, e, q[1..], fates[1..]);
    }
  }
}
