/** The timer queue of net/ngx_c_socket_time.cpp: an ordered multimap with a cached size and a
    cached earliest key. */
module Timers {
  import opened Common

  /** STRUC_MSG_HEADER: the connection and its sequence number when the header was stamped.
      `inc` is a history variable: which incarnation of the pooled connection stamped it. */
  datatype Header = Header(conn: nat, sequence: nat, inc: nat)

  /** A multimap entry; `buf` identifies the header's memory block. */
  datatype Timer = Timer(key: int, h: Header, buf: nat)

  datatype Queue = Queue(entries: seq<Timer>, size: int, first: int) // m_timerQueuemap, m_cur_size_, m_timer_value_

  predicate Sorted(t: seq<Timer>) {
    forall i, j :: 0 <= i < j < |t| ==> t[i].key <= t[j].key
  }

  predicate Consistent(q: Queue) {
    Sorted(q.entries) && q.size == |q.entries| && (q.entries != [] ==> q.first == q.entries[0].key)
  }

  /** How many leading entries have a key of at most `key`. */
  function UpperBound(t: seq<Timer>, key: int): (p: nat)
    ensures p <= |t|
    ensures forall i :: 0 <= i < p ==> t[i].key <= key
    ensures p < |t| ==> key < t[p].key
  {
    if t == [] || key < t[0].key then 0 else 1 + UpperBound(t[1..], key)
  }

  /** multimap::insert puts an entry behind all entries with the same key. */
  function Insert(t: seq<Timer>, e: Timer): (r: seq<Timer>)
    ensures |r| == |t| + 1
  {
    var p := UpperBound(t, e.key);
    t[..p] + [e] + t[p..]
  }

  lemma InsertSorted(t: seq<Timer>, e: Timer)
    requires Sorted(t)
    ensures Sorted(Insert(t, e))
  {
  }

  /** The entries of all other connections. */
  function Without(t: seq<Timer>, c: nat): (r: seq<Timer>)
    ensures |r| <= |t|
    ensures forall i :: 0 <= i < |r| ==> r[i] in t && r[i].h.conn != c
  {
    if t == [] then []
    else if t[0].h.conn == c then Without(t[1..], c)
    else [t[0]] + Without(t[1..], c)
  }

  /** Erasing one of the connection's own entries does not change what is kept. */
  lemma {:induction false} WithoutErase(t: seq<Timer>, k: nat, c: nat)
    requires k < |t| && t[k].h.conn == c
    ensures Without(t[..k] + t[k + 1..], c) == Without(t, c)
    decreases k
  {
    var r := t[..k] + t[k + 1..];
    if k > 0 {
      WithoutErase(t[1..], k - 1, c);
      assert r[1..] == t[1..][..k - 1] + t[1..][k..];
      assert r[0] == t[0];
    } else {
      assert r == t[1..];
    }
  }

  lemma {:induction false} WithoutNone(t: seq<Timer>, c: nat)
    requires forall i :: 0 <= i < |t| ==> t[i].h.conn != c
    ensures Without(t, c) == t
  {
    if t != [] {
      WithoutNone(t[1..], c);
    }
  }

  lemma {:induction false} WithoutSorted(t: seq<Timer>, c: nat)
    requires Sorted(t)
    ensures Sorted(Without(t, c))
  {
    if t != [] {
      WithoutSorted(t[1..], c);
    }
  }

  /** Deletion keeps every entry of another connection exactly as often as before. */
  lemma {:induction false} WithoutCounts(t: seq<Timer>, c: nat, e: Timer)
    ensures multiset(Without(t, c))[e] == if e.h.conn == c then 0 else multiset(t)[e]
  {
    if t != [] {
      WithoutCounts(t[1..], c, e);
      assert t == [t[0]] + t[1..];
      assert multiset(t)[e] == multiset{t[0]}[e] + multiset(t[1..])[e];
    }
  }

  // ---- Operations ----

  function Refreshed(entries: seq<Timer>, first: int): Queue {
    Queue(entries, |entries|, if entries == [] then first else entries[0].key)
  }

  /** AddToTimerQueue */
  function Add(q: Queue, e: Timer): Queue {
    Refreshed(Insert(q.entries, e), q.first)
  }

  /** DeleteFromTimerQueue */
  function Delete(q: Queue, c: nat): Queue {
    Refreshed(Without(q.entries, c), q.first)
  }

  predicate Expired(q: Queue, now: int) {
    q.entries != [] && q.entries[0].key <= now
  }

  /** GetOverTimeTimer when the earliest entry has expired: it is removed and, unless clients are
      kicked at once, a copy of its header is put back `wait` seconds from now. */
  function TakeExpired(q: Queue, now: int, wait: nat, rearm: bool, buf: nat): Queue
    requires Expired(q, now)
  {
    var rest := q.entries[1..];
    Refreshed(if rearm then Insert(rest, Timer(now + wait, q.entries[0].h, buf)) else rest, q.first)
  }

  function ExpiredCount(t: seq<Timer>, now: int): (n: nat) {
    if t == [] then 0 else (if t[0].key <= now then 1 else 0) + ExpiredCount(t[1..], now)
  }

  lemma {:induction false} ExpiredCountSplit(a: seq<Timer>, b: seq<Timer>, now: int)
    ensures ExpiredCount(a + b, now) == ExpiredCount(a, now) + ExpiredCount(b, now)
  {
    if a == [] {
      assert a + b == b;
    } else {
      ExpiredCountSplit(a[1..], b, now);
      assert (a + b)[1..] == a[1..] + b;
    }
  }

  lemma ExpiredCountInsert(t: seq<Timer>, e: Timer, now: int)
    requires e.key > now
    ensures ExpiredCount(Insert(t, e), now) == ExpiredCount(t, now)
  {
    var p := UpperBound(t, e.key);
    var a, b := t[..p], t[p..];
    assert t == a + b;
    assert Insert(t, e) == a + [e] + b;
    ExpiredCountSplit(a + [e], b, now);
    ExpiredCountSplit(a, [e], now);
    ExpiredCountSplit(a, b, now);
    assert ExpiredCount([e], now) == ExpiredCount([], now);
  }

  lemma TakeExpiredShrinks(q: Queue, now: int, wait: nat, rearm: bool, buf: nat)
    requires Expired(q, now) && wait > 0
    ensures ExpiredCount(TakeExpired(q, now, wait, rearm, buf).entries, now) < ExpiredCount(q.entries, now)
  {
    ExpiredCountInsert(q.entries[1..], Timer(now + wait, q.entries[0].h, buf), now);
  }

  /** The loop of the monitor thread: the expired entries in order, and the queue left behind.
      New header blocks are numbered from `buf` on. */
  function Drain(q: Queue, now: int, wait: nat, rearm: bool, buf: nat): (Queue, seq<Timer>)
    requires wait > 0
    decreases ExpiredCount(q.entries, now)
  {
    if !Expired(q, now) then (q, [])
    else
      TakeExpiredShrinks(q, now, wait, rearm, buf);
      var (last, idle) := Drain(TakeExpired(q, now, wait, rearm, buf), now, wait, rearm, if rearm then buf + 1 else buf);
      (last, [q.entries[0]] + idle)
  }

  /** The entries left when the headers of `due` have been put back, one by one, due at `key`. */
  function PutBack(later: seq<Timer>, due: seq<Timer>, key: int, buf: nat): seq<Timer>
    decreases due
  {
    if due == [] then later else PutBack(Insert(later, Timer(key, due[0].h, buf)), due[1..], key, buf + 1)
  }

  lemma {:induction false} UpperBoundSplit(a: seq<Timer>, b: seq<Timer>, key: int)
    requires forall i :: 0 <= i < |a| ==> a[i].key <= key
    ensures UpperBound(a + b, key) == |a| + UpperBound(b, key)
  {
    if a == [] {
      assert a + b == b;
    } else {
      UpperBoundSplit(a[1..], b, key);
      assert (a + b)[1..] == a[1..] + b;
    }
  }

  lemma InsertBehind(a: seq<Timer>, b: seq<Timer>, e: Timer)
    requires forall i :: 0 <= i < |a| ==> a[i].key <= e.key
    ensures Insert(a + b, e) == a + Insert(b, e)
  {
    UpperBoundSplit(a, b, e.key);
    SpliceBehind(a, b, UpperBound(b, e.key), e);
  }

  lemma SpliceBehind(a: seq<Timer>, b: seq<Timer>, p: nat, e: Timer)
    requires p <= |b|
    ensures (a + b)[..|a| + p] + [e] + (a + b)[|a| + p..] == a + (b[..p] + [e] + b[p..])
  {
  }

  predicate AllDue(t: seq<Timer>, now: int) {
    forall i :: 0 <= i < |t| ==> t[i].key <= now
  }

  predicate AllLater(t: seq<Timer>, now: int) {
    forall i :: 0 <= i < |t| ==> t[i].key > now
  }

  /** A drain returns exactly the expired entries, in key order, and when clients are not kicked at
      once puts each of their headers back exactly once. */
  lemma {:induction false} DrainExact(q: Queue, now: int, wait: nat, rearm: bool, buf: nat, due: seq<Timer>, later: seq<Timer>)
    requires wait > 0 && q.entries == due + later && AllDue(due, now) && AllLater(later, now)
    ensures var (last, idle) := Drain(q, now, wait, rearm, buf);
            idle == due && last.entries == (if rearm then PutBack(later, due, now + wait, buf) else later)
    decreases |due|
  {
    if due != [] {
      var later' := if rearm then Insert(later, Timer(now + wait, due[0].h, buf)) else later;
      TakeFromDue(q, now, wait, rearm, buf, due, later);
      TakeExpiredShrinks(q, now, wait, rearm, buf);
      DrainExact(TakeExpired(q, now, wait, rearm, buf), now, wait, rearm, if rearm then buf + 1 else buf, due[1..], later');
      DrainStep(q, now, wait, rearm, buf);
      assert due == [due[0]] + due[1..];
    }
  }

  lemma DrainStep(q: Queue, now: int, wait: nat, rearm: bool, buf: nat)
    requires Expired(q, now) && wait > 0
    ensures var d := Drain(TakeExpired(q, now, wait, rearm, buf), now, wait, rearm, if rearm then buf + 1 else buf);
            Drain(q, now, wait, rearm, buf) == (d.0, [q.entries[0]] + d.1)
  {
  }

  lemma TakeFromDue(q: Queue, now: int, wait: nat, rearm: bool, buf: nat, due: seq<Timer>, later: seq<Timer>)
    requires wait > 0 && q.entries == due + later && due != [] && AllDue(due, now) && AllLater(later, now)
    ensures Expired(q, now) && q.entries[0] == due[0] && AllDue(due[1..], now)
    ensures var later' := if rearm then Insert(later, Timer(now + wait, due[0].h, buf)) else later;
            TakeExpired(q, now, wait, rearm, buf).entries == due[1..] + later' && AllLater(later', now)
  {
    assert q.entries[1..] == due[1..] + later;
    if rearm {
      InsertBehind(due[1..], later, Timer(now + wait, due[0].h, buf));
    }
  }

  /** Every sorted queue falls into the expired entries and the others. */
  lemma DueBeforeLater(t: seq<Timer>, now: int)
    requires Sorted(t)
    ensures var p := UpperBound(t, now); t == t[..p] + t[p..] && AllDue(t[..p], now) && AllLater(t[p..], now)
  {
    hide UpperBound;
    var p := UpperBound(t, now);
    forall i | p <= i < |t|
      ensures t[i].key > now
    {
      assert t[p].key <= t[i].key;
    }
  }

  function HeaderCount(t: seq<Timer>, h: Header): nat {
    if t == [] then 0 else (if t[0].h == h then 1 else 0) + HeaderCount(t[1..], h)
  }

  lemma {:induction false} HeaderCountSplit(a: seq<Timer>, b: seq<Timer>, h: Header)
    ensures HeaderCount(a + b, h) == HeaderCount(a, h) + HeaderCount(b, h)
  {
    if a == [] {
      assert a + b == b;
    } else {
      HeaderCountSplit(a[1..], b, h);
      assert (a + b)[1..] == a[1..] + b;
    }
  }

  lemma InsertCounts(t: seq<Timer>, e: Timer, h: Header)
    ensures HeaderCount(Insert(t, e), h) == HeaderCount(t, h) + (if e.h == h then 1 else 0)
  {
    var p := UpperBound(t, e.key);
    HeaderCountSplit(t[..p], t[p..], h);
    HeaderCountSplit(t[..p] + [e], t[p..], h);
    HeaderCountSplit(t[..p], [e], h);
    assert t == t[..p] + t[p..] && [e][1..] == [];
  }

  /** Each header of `due` is put back once, and the others are left as they were. */
  lemma {:induction false} PutBackCounts(later: seq<Timer>, due: seq<Timer>, key: int, buf: nat, h: Header)
    ensures HeaderCount(PutBack(later, due, key, buf), h) == HeaderCount(later, h) + HeaderCount(due, h)
    decreases due
  {
    if due != [] {
      InsertCounts(later, Timer(key, due[0].h, buf), h);
      PutBackCounts(Insert(later, Timer(key, due[0].h, buf)), due[1..], key, buf + 1, h);
    }
  }

  /** A drain of a consistent queue returns exactly the expired entries, in key order; afterwards the queue
      has every header as often as before, or without those when clients are kicked at once. */
  lemma DrainCounts(q: Queue, now: int, wait: nat, rearm: bool, buf: nat, h: Header)
    requires Consistent(q) && wait > 0
    ensures var (last, idle), p := Drain(q, now, wait, rearm, buf), UpperBound(q.entries, now);
            idle == q.entries[..p] && AllDue(idle, now) && AllLater(q.entries[p..], now) &&
            HeaderCount(last.entries, h) == HeaderCount(q.entries, h) - (if rearm then 0 else HeaderCount(idle, h))
  {
    var p := UpperBound(q.entries, now);
    DueBeforeLater(q.entries, now);
    SplitCounts(q, now, wait, rearm, buf, h, q.entries[..p], q.entries[p..]);
  }

  lemma SplitCounts(q: Queue, now: int, wait: nat, rearm: bool, buf: nat, h: Header, due: seq<Timer>, later: seq<Timer>)
    requires wait > 0 && q.entries == due + later && AllDue(due, now) && AllLater(later, now)
    ensures var (last, idle) := Drain(q, now, wait, rearm, buf);
            idle == due && HeaderCount(last.entries, h) == HeaderCount(q.entries, h) - (if rearm then 0 else HeaderCount(due, h))
  {
    hide Drain, PutBack, HeaderCount;
    DrainExact(q, now, wait, rearm, buf, due, later);
    PutBackCounts(later, due, now + wait, buf, h);
    HeaderCountSplit(due, later, h);
  }

  /** Draining ends with a consistent queue in which nothing has expired. */
  lemma {:induction false} DrainLeavesNothingExpired(q: Queue, now: int, wait: nat, rearm: bool, buf: nat)
    requires Consistent(q) && wait > 0
    ensures var last := Drain(q, now, wait, rearm, buf).0;
            Consistent(last) && AllLater(last.entries, now)
    decreases ExpiredCount(q.entries, now)
  {
    if Expired(q, now) {
      InsertSorted(q.entries[1..], Timer(now + wait, q.entries[0].h, buf));
      TakeExpiredShrinks(q, now, wait, rearm, buf);
      DrainLeavesNothingExpired(TakeExpired(q, now, wait, rearm, buf), now, wait, rearm, if rearm then buf + 1 else buf);
    }
  }

  // ---- The queue as an object; m_timequeueMutex makes each method one step ----

  class TimerQueue {
    var m_timerQueuemap: seq<Timer>
    var m_cur_size_: int
    var m_timer_value_: int

    ghost function View(): Queue
      reads this
    {
      Queue(m_timerQueuemap, m_cur_size_, m_timer_value_)
    }

    constructor ()
      ensures View() == Queue([], 0, 0)
    {
      m_timerQueuemap, m_cur_size_, m_timer_value_ := [], 0, 0;
    }

    method AddToTimerQueue(h: Header, now: int, wait: nat, buf: nat)
      requires Consistent(View())
      modifies this
      ensures View() == Add(old(View()), Timer(now + wait, h, buf)) && Consistent(View())
    {
      InsertSorted(m_timerQueuemap, Timer(now + wait, h, buf));
      m_timerQueuemap := Insert(m_timerQueuemap, Timer(now + wait, h, buf));
      m_cur_size_ := m_cur_size_ + 1;
      m_timer_value_ := GetEarliestTime();
    }

    method GetEarliestTime() returns (key: int)
      requires m_timerQueuemap != []
      ensures key == m_timerQueuemap[0].key
    {
      key := m_timerQueuemap[0].key;
    }

    method RemoveFirstTimer() returns (first: Option<Timer>)
      requires m_cur_size_ == |m_timerQueuemap|
      modifies this
      ensures old(m_timerQueuemap) == [] ==> first == None && View() == old(View())
      ensures old(m_timerQueuemap) != [] ==>
        first == Some(old(m_timerQueuemap)[0]) && m_timerQueuemap == old(m_timerQueuemap)[1..] &&
        m_cur_size_ == old(m_cur_size_) - 1 && m_timer_value_ == old(m_timer_value_)
    {
      if m_cur_size_ <= 0 {
        return None;
      }
      first := Some(m_timerQueuemap[0]);
      m_timerQueuemap := m_timerQueuemap[1..];
      m_cur_size_ := m_cur_size_ - 1;
    }

    method GetOverTimeTimer(now: int, wait: nat, timeOutKick: bool, buf: nat) returns (over: Option<Timer>)
      requires Consistent(View())
      modifies this
      ensures Consistent(View())
      ensures over.Some? <==> Expired(old(View()), now)
      ensures over == None ==> View() == old(View())
      ensures over.Some? ==>
        over.value == old(m_timerQueuemap)[0] && View() == TakeExpired(old(View()), now, wait, !timeOutKick, buf)
    {
      if m_cur_size_ == 0 || |m_timerQueuemap| == 0 {
        return None;
      }
      var earliest := GetEarliestTime();
      if earliest <= now {
        over := RemoveFirstTimer();
        if !timeOutKick {
          var e := Timer(now + wait, over.value.h, buf);
          InsertSorted(m_timerQueuemap, e);
          m_timerQueuemap := Insert(m_timerQueuemap, e);
          m_cur_size_ := m_cur_size_ + 1;
        }
        if m_cur_size_ > 0 {
          m_timer_value_ := GetEarliestTime();
        }
      } else {
        over := None;
      }
    }

    /** The scan that starts over after every erased entry. */
    method DeleteFromTimerQueue(c: nat)
      requires Consistent(View())
      modifies this
      ensures View() == Delete(old(View()), c) && Consistent(View())
    {
      ghost var kept := Without(m_timerQueuemap, c);
      WithoutSorted(m_timerQueuemap, c);
      var again := true;
      while again
        invariant Without(m_timerQueuemap, c) == kept
        invariant m_cur_size_ == |m_timerQueuemap| && m_timer_value_ == old(m_timer_value_)
        invariant !again ==> forall i :: 0 <= i < |m_timerQueuemap| ==> m_timerQueuemap[i].h.conn != c
        decreases |m_timerQueuemap|, again
      {
        again := false;
        ghost var before := m_timerQueuemap;
        var pos := 0;
        while pos < |m_timerQueuemap|
          invariant pos <= |m_timerQueuemap| && View() == Queue(before, |before|, old(m_timer_value_)) && !again
          invariant forall i :: 0 <= i < pos ==> before[i].h.conn != c
        {
          if m_timerQueuemap[pos].h.conn == c {
            WithoutErase(m_timerQueuemap, pos, c);
            m_timerQueuemap := m_timerQueuemap[..pos] + m_timerQueuemap[pos + 1..];
            m_cur_size_ := m_cur_size_ - 1;
            again := true;
            break;
          }
          pos := pos + 1;
        }
      }
      WithoutNone(m_timerQueuemap, c);
      if m_cur_size_ > 0 {
        m_timer_value_ := GetEarliestTime();
      }
    }

    /** One pass of the monitor thread up to the point where it releases the mutex. */
    method MonitorPass(now: int, wait: nat, timeOutKick: bool, buf: nat) returns (idle: seq<Timer>, next: nat)
      requires Consistent(View()) && wait > 0
      modifies this
      ensures Consistent(View())
      ensures (View(), idle) == if old(m_cur_size_) > 0 && old(m_timer_value_) < now
                                then Drain(old(View()), now, wait, !timeOutKick, buf) else (old(View()), [])
      ensures next == if timeOutKick then buf else buf + |idle|
    {
      idle, next := [], buf;
      if m_cur_size_ > 0 {
        var absolute := m_timer_value_;
        if absolute < now {
          ghost var all := Drain(View(), now, wait, !timeOutKick, buf);
          var more := true;
          assert [] + all.1 == all.1;
          while more
            invariant Consistent(View()) && (!more ==> !Expired(View(), now))
            invariant next == if timeOutKick then buf else buf + |idle|
            invariant var (last, rest) := Drain(View(), now, wait, !timeOutKick, next); all == (last, idle + rest)
            decreases ExpiredCount(m_timerQueuemap, now), more
          {
            ghost var before := View();
            var result := GetOverTimeTimer(now, wait, timeOutKick, next);
            if result.Some? {
              TakeExpiredShrinks(before, now, wait, !timeOutKick, next);
              DrainStep(before, now, wait, !timeOutKick, next);
              Associate(idle, [result.value], Drain(View(), now, wait, !timeOutKick, if timeOutKick then next else next + 1).1);
              idle := idle + [result.value];
              next := if timeOutKick then next else next + 1;
            } else {
              more := false;
            }
          }
          assert idle + [] == idle;
        }
      }
    }
  }
}
