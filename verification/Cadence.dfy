/** The heartbeat over whole runs: who is closed for silence, and who is not. With a finished monitor pass
    in every second, no client stays open long after it fell silent. */
module Cadence {
  import opened ServerState
  import opened ServerInvariant
  import opened ServerSteps
  import opened ServerRuns
  import opened Histories

  /** The timer thread closes no client heard from within the last 3w + 10 seconds. */
  lemma NoEarlyKick(run: Run, c: nat)
    requires IsRun(run) && !run.cfg.timeOutKick && IsClient(Reached(run), c)
    requires Reached(run).now <= HistoryOf(run, c).heard + 3 * run.cfg.wait + 10
    ensures MonitorPass(run.cfg, Reached(run)).conns == Reached(run).conns
    ensures Reached(run).idle != [] ==>
              Reached(run).idle[0].h.conn < |Reached(run).conns| && c < |CheckIdle(run.cfg, Reached(run)).conns| &&
              CheckIdle(run.cfg, Reached(run)).conns[c] == Reached(run).conns[c]
  {
    ReachedInv(run);
    LastPingIsLastHeard(run, c);
    var s := Reached(run);
    if s.idle != [] {
      CheckSparesClient(run.cfg, s, c);
    }
  }

  /** A client silent since time p is closed by the first pass at p + 4w + 11 or later. */
  lemma SilentClientsAreClosed(run: Run, c: nat)
    requires IsRun(run) && run.cfg.kick && !run.cfg.timeOutKick
    requires IsClient(Reached(run), c) && Reached(run).idle == []
    ensures Reached(run).passTime < HistoryOf(run, c).heard + 4 * run.cfg.wait + 11
  {
    ReachedInv(run);
    LastPingIsLastHeard(run, c);
    ClientsWithinWindow(run.cfg, Reached(run), c);
  }

  /** No client in use was last heard from more than 4w + 11 seconds ago. */
  predicate Prompt(cfg: Config, s: Server) {
    forall c :: 0 <= c < |s.conns| && IsClient(s, c) ==> s.now <= s.conns[c].lastPing + 4 * cfg.wait + 11
  }

  /** A pass is finished in every second: the clock never gets more than a second past the last one. */
  predicate OnTime(s: Server, step: Step) {
    step.Tick? ==> s.idle == [] && s.now + step.d <= s.passTime + 1
  }

  lemma TickIsPrompt(cfg: Config, s: Server, d: nat)
    requires Inv(cfg, s) && cfg.kick && !cfg.timeOutKick && s.idle == [] && s.now + d <= s.passTime + 1
    ensures Prompt(cfg, s.(now := s.now + d))
  {
    forall c | 0 <= c < |s.conns| && IsClient(s, c)
      ensures s.now + d <= s.conns[c].lastPing + 4 * cfg.wait + 11
    {
      ClientsWithinWindow(cfg, s, c);
    }
  }

  lemma StepIsPrompt(cfg: Config, s: Server, step: Step)
    requires cfg.wait > 0 && Inv(cfg, s) && Enabled(cfg, s, step) && cfg.kick && !cfg.timeOutKick
    requires Prompt(cfg, s) && OnTime(s, step)
    ensures Prompt(cfg, Next(cfg, s, step))
  {
    if step.Tick? {
      TickIsPrompt(cfg, s, step.d);
    } else {
      hide Next, Inv, Enabled;
      var s1 := Next(cfg, s, step);
      forall c | 0 <= c < |s1.conns| && IsClient(s1, c)
        ensures s1.now <= s1.conns[c].lastPing + 4 * cfg.wait + 11
      {
        StepMoments(cfg, s, step, c);
      }
    }
  }

  // ---- Runs ----

  predicate AlwaysOnTime(cfg: Config, s: Server, steps: seq<Step>)
    requires cfg.wait > 0 && Runs(cfg, s, steps)
    decreases steps
  {
    steps == [] || (OnTime(s, steps[0]) && AlwaysOnTime(cfg, Next(cfg, s, steps[0]), steps[1..]))
  }

  lemma {:induction false} RunIsPrompt(cfg: Config, s: Server, steps: seq<Step>)
    requires cfg.wait > 0 && Inv(cfg, s) && Prompt(cfg, s) && Runs(cfg, s, steps) && AlwaysOnTime(cfg, s, steps)
    requires cfg.kick && !cfg.timeOutKick
    ensures Prompt(cfg, After(cfg, s, steps))
    decreases steps
  {
    if steps != [] {
      StepKeepsInv(cfg, s, steps[0]);
      StepIsPrompt(cfg, s, steps[0]);
      RunIsPrompt(cfg, Next(cfg, s, steps[0]), steps[1..]);
    }
  }

  /** In every state of every run with a finished pass in every second, each client still in use was heard
      from within the last 4w + 11 seconds. */
  lemma NeverSilentTooLong(run: Run, c: nat)
    requires IsRun(run) && run.cfg.kick && !run.cfg.timeOutKick && IsClient(Reached(run), c)
    requires AlwaysOnTime(run.cfg, Initial(run.cfg, run.start), run.steps)
    ensures Reached(run).now <= HistoryOf(run, c).heard + 4 * run.cfg.wait + 11
  {
    InitialInv(run.cfg, run.start);
    InitialIsQuiet(run.cfg, run.start);
    RunIsPrompt(run.cfg, Initial(run.cfg, run.start), run.steps);
    LastPingIsLastHeard(run, c);
  }
}
