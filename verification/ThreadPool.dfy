/** The worker pool of misc/ngx_c_threadpool.cpp: a queue guarded by a mutex and a condition
    variable. Each critical section is one step, and steps of all threads interleave freely. */
module ThreadPool {
  import opened Common

  type Job = nat // the message buffer, by identity

  /** Where a worker thread is in ThreadFunc. */
  datatype Worker =
    | Ready          // about to lock the mutex and test the queue
    | Waiting        // inside pthread_cond_wait
    | Popped(job: Job) // holds a message, mutex released
    | Busy(job: Job)   // counted in m_iRunningThreadNum, handling the message

  datatype Pool = Pool(
    workers: seq<Worker>,
    queue: seq<Job>,     // m_MsgRecvQueue
    queued: int,         // m_iRecvMsgQueueCount
    running: int,        // m_iRunningThreadNum
    unsent: nat,         // messages enqueued whose Call() has not signalled yet
    arrived: seq<Job>,   // history: every message ever enqueued
    taken: seq<Job>,     // history: every message popped, in order
    freed: seq<Job>)     // history: every message freed after handling

  datatype Step =
    | Enqueue(job: Job)
    | Signal(wakes: Option<nat>)
    | Check(w: nat)
    | Start(w: nat)
    | Finish(w: nat)
    | Spurious(w: nat)   // pthread_cond_wait may return without a signal

  function Initial(threads: nat): Pool {
    Pool(seq(threads, _ => Ready), [], 0, 0, 0, [], [], [])
  }

  predicate Enabled(s: Pool, step: Step) {
    match step
    case Enqueue(_) => true
    case Signal(None) => s.unsent > 0 && forall i :: 0 <= i < |s.workers| ==> s.workers[i] != Waiting
    case Signal(Some(w)) => s.unsent > 0 && w < |s.workers| && s.workers[w] == Waiting
    case Check(w) => w < |s.workers| && s.workers[w] == Ready
    case Start(w) => w < |s.workers| && s.workers[w].Popped?
    case Finish(w) => w < |s.workers| && s.workers[w].Busy?
    case Spurious(w) => w < |s.workers| && s.workers[w] == Waiting
  }

  function Next(s: Pool, step: Step): Pool
    requires Enabled(s, step)
  {
    match step
    case Enqueue(job) =>
      s.(queue := s.queue + [job], queued := s.queued + 1, unsent := s.unsent + 1, arrived := s.arrived + [job])
    case Signal(None) => s.(unsent := s.unsent - 1)
    case Signal(Some(w)) => s.(unsent := s.unsent - 1, workers := s.workers[w := Ready])
    case Check(w) =>
      if s.queue == [] then s.(workers := s.workers[w := Waiting])
      else s.(workers := s.workers[w := Popped(s.queue[0])], queue := s.queue[1..], queued := s.queued - 1,
              taken := s.taken + [s.queue[0]])
    case Start(w) => s.(workers := s.workers[w := Busy(s.workers[w].job)], running := s.running + 1)
    case Finish(w) =>
      s.(workers := s.workers[w := Ready], running := s.running - 1, freed := s.freed + [s.workers[w].job])
    case Spurious(w) => s.(workers := s.workers[w := Ready])
  }

  // ---- Counting over the workers ----

  function Sum(ws: seq<Worker>, f: Worker -> nat): nat {
    if ws == [] then 0 else f(ws[0]) + Sum(ws[1..], f)
  }

  lemma {:induction false} SumUpdate(ws: seq<Worker>, w: nat, x: Worker, f: Worker -> nat)
    requires w < |ws|
    ensures Sum(ws[w := x], f) + f(ws[w]) == Sum(ws, f) + f(x)
  {
    if w > 0 {
      SumUpdate(ws[1..], w - 1, x, f);
      assert ws[w := x][1..] == ws[1..][w - 1 := x];
    } else {
      assert ws[w := x][1..] == ws[1..];
    }
  }

  lemma {:induction false} SumZero(ws: seq<Worker>, f: Worker -> nat)
    requires forall i :: 0 <= i < |ws| ==> f(ws[i]) == 0
    ensures Sum(ws, f) == 0
  {
    if ws != [] {
      SumZero(ws[1..], f);
    }
  }

  function IsReady(w: Worker): nat { if w == Ready then 1 else 0 }
  function IsBusy(w: Worker): nat { if w.Busy? then 1 else 0 }

  function ReadyCount(ws: seq<Worker>): nat { Sum(ws, IsReady) }
  function BusyCount(ws: seq<Worker>): nat { Sum(ws, IsBusy) }

  /** How many workers hold a given message. */
  function Holds(job: Job): Worker -> nat {
    w => if w == Popped(job) || w == Busy(job) then 1 else 0
  }

  function HeldCount(ws: seq<Worker>, job: Job): nat { Sum(ws, Holds(job)) }

  function Count(q: seq<Job>, job: Job): nat { multiset(q)[job] }

  // ---- The invariant ----

  /** No wake-up is lost: if some worker sleeps, every queued message is covered by a signal still
      to be sent or by a worker that is about to look at the queue. */
  predicate WakeUpsCovered(s: Pool) {
    (forall i :: 0 <= i < |s.workers| ==> s.workers[i] != Waiting) ||
    |s.queue| <= s.unsent + ReadyCount(s.workers)
  }

  ghost predicate Inv(s: Pool) {
    s.queued == |s.queue| && s.running == BusyCount(s.workers) &&
    s.arrived == s.taken + s.queue &&
    (forall job :: Count(s.taken, job) == Count(s.freed, job) + HeldCount(s.workers, job)) &&
    WakeUpsCovered(s)
  }

  lemma {:induction false} InitialInv(threads: nat)
    ensures Inv(Initial(threads))
  {
    var s := Initial(threads);
    SumZero(s.workers, IsBusy);
    forall job
      ensures Count(s.taken, job) == Count(s.freed, job) + HeldCount(s.workers, job)
    {
      SumZero(s.workers, Holds(job));
    }
    assert s.taken + s.queue == s.arrived;
  }

  lemma {:induction false} StepKeepsInv(s: Pool, step: Step)
    requires Inv(s) && Enabled(s, step)
    ensures Inv(Next(s, step))
  {
    match step
    case Enqueue(job) => assert s.taken + (s.queue + [job]) == s.taken + s.queue + [job];
    case Signal(None) =>
    case Signal(Some(w)) => MoveWorker(s, w, Ready);
    case Check(w) =>
      if s.queue == [] {
        MoveWorker(s, w, Waiting);
      } else {
        PopKeepsInv(s, w);
      }
    case Start(w) => MoveWorker(s, w, Busy(s.workers[w].job));
    case Finish(w) => MoveWorker(s, w, Ready);
    case Spurious(w) => MoveWorker(s, w, Ready);
  }

  lemma {:induction false} PopKeepsInv(s: Pool, w: nat)
    requires Inv(s) && Enabled(s, Check(w)) && s.queue != []
    ensures Inv(Next(s, Check(w)))
  {
    var job, rest := s.queue[0], s.queue[1..];
    MoveWorker(s, w, Popped(job));
    assert s.taken + s.queue == s.taken + [job] + rest;
  }

  /** How the tallies change when one worker moves on. */
  lemma {:induction false} MoveWorker(s: Pool, w: nat, x: Worker)
    requires w < |s.workers|
    ensures var ws, y := s.workers[w := x], s.workers[w];
            ReadyCount(ws) + IsReady(y) == ReadyCount(s.workers) + IsReady(x) &&
            BusyCount(ws) + IsBusy(y) == BusyCount(s.workers) + IsBusy(x) &&
            (forall job :: HeldCount(ws, job) + Holds(job)(y) == HeldCount(s.workers, job) + Holds(job)(x))
  {
    SumUpdate(s.workers, w, x, IsReady);
    SumUpdate(s.workers, w, x, IsBusy);
    forall job
      ensures HeldCount(s.workers[w := x], job) + Holds(job)(s.workers[w]) == HeldCount(s.workers, job) + Holds(job)(x)
    {
      SumUpdate(s.workers, w, x, Holds(job));
    }
  }

  // ---- Whole runs ----

  predicate Runs(s: Pool, steps: seq<Step>)
    decreases steps
  {
    steps == [] || (Enabled(s, steps[0]) && Runs(Next(s, steps[0]), steps[1..]))
  }

  function After(s: Pool, steps: seq<Step>): Pool
    requires Runs(s, steps)
    decreases steps
  {
    if steps == [] then s else After(Next(s, steps[0]), steps[1..])
  }

  lemma {:induction false} RunKeepsInv(s: Pool, steps: seq<Step>)
    requires Inv(s) && Runs(s, steps)
    ensures Inv(After(s, steps))
    decreases steps
  {
    if steps != [] {
      StepKeepsInv(s, steps[0]);
      RunKeepsInv(Next(s, steps[0]), steps[1..]);
    }
  }

  /** The steps the pool takes by itself: no new message and no spurious wake-up. */
  predicate Internal(step: Step) {
    !step.Enqueue? && !step.Spurious?
  }

  function Weight(w: Worker): nat {
    match w
    case Waiting => 0
    case Ready => 1
    case Busy(_) => 2
    case Popped(_) => 3
  }

  function Measure(s: Pool): nat {
    3 * |s.queue| + 2 * s.unsent + Sum(s.workers, Weight)
  }

  lemma {:induction false} InternalStepsShrink(s: Pool, step: Step)
    requires Enabled(s, step) && Internal(step)
    ensures Measure(Next(s, step)) < Measure(s)
  {
    match step
    case Signal(None) =>
    case Signal(Some(w)) => SumUpdate(s.workers, w, Ready, Weight);
    case Check(w) => SumUpdate(s.workers, w, if s.queue == [] then Waiting else Popped(s.queue[0]), Weight);
    case Start(w) => SumUpdate(s.workers, w, Busy(s.workers[w].job), Weight);
    case Finish(w) => SumUpdate(s.workers, w, Ready, Weight);
  }

  /** A pool left alone comes to rest after a bounded number of steps. */
  lemma {:induction false} InternalRunsAreBounded(s: Pool, steps: seq<Step>)
    requires Runs(s, steps) && forall i :: 0 <= i < |steps| ==> Internal(steps[i])
    ensures |steps| + Measure(After(s, steps)) <= Measure(s)
    decreases steps
  {
    if steps != [] {
      assert Internal(steps[0]);
      InternalStepsShrink(s, steps[0]);
      InternalRunsAreBounded(Next(s, steps[0]), steps[1..]);
    }
  }

  predicate AtRest(s: Pool) {
    s.unsent == 0 && forall i :: 0 <= i < |s.workers| ==> s.workers[i] == Waiting
  }

  /** Nothing but rest stops the pool: otherwise some thread can take a step. */
  lemma {:induction false} SomeoneCanMove(s: Pool) returns (step: Step)
    requires !AtRest(s)
    ensures Internal(step) && Enabled(s, step)
  {
    if i :| 0 <= i < |s.workers| && s.workers[i] != Waiting {
      step := if s.workers[i] == Ready then Check(i) else if s.workers[i].Popped? then Start(i) else Finish(i);
    } else if |s.workers| > 0 {
      step := Signal(Some(0));
    } else {
      step := Signal(None);
    }
  }

  /** When a pool with at least one worker rests, every message that ever arrived has been popped once,
      in arrival order, and handled and freed once. */
  lemma {:induction false} RestMeansDelivered(threads: nat, steps: seq<Step>)
    requires threads > 0 && Runs(Initial(threads), steps) && AtRest(After(Initial(threads), steps))
    ensures var s := After(Initial(threads), steps);
            s.queue == [] && s.taken == s.arrived && s.queued == 0 && s.running == 0 &&
            (forall job :: Count(s.freed, job) == Count(s.arrived, job))
  {
    var s := After(Initial(threads), steps);
    InitialInv(threads);
    RunKeepsInv(Initial(threads), steps);
    RunKeepsWorkers(Initial(threads), steps);
    SumZero(s.workers, IsReady);
    SumZero(s.workers, IsBusy);
    assert s.workers[0] == Waiting;
    forall job
      ensures HeldCount(s.workers, job) == 0
    {
      SumZero(s.workers, Holds(job));
    }
    assert s.taken + [] == s.taken;
  }

  lemma {:induction false} RunKeepsWorkers(s: Pool, steps: seq<Step>)
    requires Runs(s, steps)
    ensures |After(s, steps).workers| == |s.workers|
    decreases steps
  {
    if steps != [] {
      RunKeepsWorkers(Next(s, steps[0]), steps[1..]);
    }
  }

  /** At every moment of every run: messages are popped in arrival order, no message is popped twice
      or lost, and each popped message is either in the hands of one worker or freed. */
  lemma {:induction false} DeliveryIsExact(threads: nat, steps: seq<Step>)
    requires Runs(Initial(threads), steps)
    ensures var s := After(Initial(threads), steps);
            s.arrived == s.taken + s.queue &&
            (forall job :: Count(s.arrived, job) == Count(s.freed, job) + HeldCount(s.workers, job) + Count(s.queue, job)) &&
            WakeUpsCovered(s)
  {
    InitialInv(threads);
    RunKeepsInv(Initial(threads), steps);
  }

  // ---- The pool as an object; the mutex makes each method one step ----

  class CThreadPool {
    var workers: seq<Worker>
    var m_MsgRecvQueue: seq<Job>
    var m_iRecvMsgQueueCount: int
    var m_iRunningThreadNum: int
    ghost var unsent: nat
    ghost var arrived: seq<Job>
    ghost var taken: seq<Job>
    ghost var freed: seq<Job>

    ghost function View(): Pool
      reads this
    {
      Pool(workers, m_MsgRecvQueue, m_iRecvMsgQueueCount, m_iRunningThreadNum, unsent, arrived, taken, freed)
    }

    constructor (threads: nat)
      ensures View() == Initial(threads)
    {
      workers := seq(threads, _ => Ready);
      m_MsgRecvQueue, m_iRecvMsgQueueCount, m_iRunningThreadNum := [], 0, 0;
      unsent, arrived, taken, freed := 0, [], [], [];
    }

    /** The locked part of inMsgRecvQueueAndSignal. */
    method PushMessage(buf: Job)
      modifies this
      ensures View() == Next(old(View()), Enqueue(buf))
    {
      m_MsgRecvQueue := m_MsgRecvQueue + [buf];
      m_iRecvMsgQueueCount := m_iRecvMsgQueueCount + 1;
      unsent, arrived := unsent + 1, arrived + [buf];
    }

    /** pthread_cond_signal in Call(): wakes one waiting worker, if there is one. */
    method Call() returns (woken: Option<nat>)
      requires unsent > 0
      modifies this
      ensures Enabled(old(View()), Signal(woken)) && View() == Next(old(View()), Signal(woken))
    {
      unsent := unsent - 1;
      woken := None;
      for i := 0 to |workers|
        invariant forall k :: 0 <= k < i ==> workers[k] != Waiting
        invariant workers == old(workers) && woken == None && View() == old(View()).(unsent := unsent) && unsent + 1 == old(unsent)
      {
        if workers[i] == Waiting {
          woken := Some(i);
          workers := workers[i := Ready];
          return;
        }
      }
    }

    /** One turn of the worker loop with the mutex held: wait, or take the front message. */
    method TakeJob(w: nat) returns (job: Option<Job>)
      requires Enabled(View(), Check(w))
      modifies this
      ensures View() == Next(old(View()), Check(w))
      ensures job == if old(m_MsgRecvQueue) == [] then None else Some(old(m_MsgRecvQueue)[0])
    {
      if |m_MsgRecvQueue| == 0 {
        workers := workers[w := Waiting];
        return None;
      }
      var jobbuf := m_MsgRecvQueue[0];
      m_MsgRecvQueue := m_MsgRecvQueue[1..];
      m_iRecvMsgQueueCount := m_iRecvMsgQueueCount - 1;
      workers, taken := workers[w := Popped(jobbuf)], taken + [jobbuf];
      return Some(jobbuf);
    }

    method StartJob(w: nat)
      requires Enabled(View(), Start(w))
      modifies this
      ensures View() == Next(old(View()), Start(w))
    {
      m_iRunningThreadNum := m_iRunningThreadNum + 1;
      workers := workers[w := Busy(workers[w].job)];
    }

    method FinishJob(w: nat)
      requires Enabled(View(), Finish(w))
      modifies this
      ensures View() == Next(old(View()), Finish(w))
    {
      freed := freed + [workers[w].job];
      m_iRunningThreadNum := m_iRunningThreadNum - 1;
      workers := workers[w := Ready];
    }

    /** Frees what is left in the queue; the counter is not touched. */
    method ClearMsgRecvQueue()
      modifies this
      ensures View() == old(View()).(queue := [], freed := old(freed) + old(m_MsgRecvQueue))
    {
      ghost var all := m_MsgRecvQueue;
      while |m_MsgRecvQueue| > 0
        invariant View() == old(View()).(queue := m_MsgRecvQueue, freed := freed)
        invariant freed + m_MsgRecvQueue == old(freed) + all
        decreases |m_MsgRecvQueue|
      {
        freed := freed + [m_MsgRecvQueue[0]];
        m_MsgRecvQueue := m_MsgRecvQueue[1..];
      }
      assert freed + [] == freed;
    }
  }
}
