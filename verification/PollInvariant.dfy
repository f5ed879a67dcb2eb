/** The registry invariant is kept by every step, except the two families of steps that break it. */
module PollInvariant {
  import opened Basics
  import opened PollMachine

  // ----- Steps about one completion leave the others alone -----

  ghost predicate TimersSame(ts: seq<Timer>, us: seq<Timer>, q: Ptr) {
    forall at :: multiset(ts)[Timer(at, q)] == multiset(us)[Timer(at, q)]
  }

  ghost predicate SameView(s: Reactor, t: Reactor, q: Ptr) {
    && (q in s.heap <==> q in t.heap)
    && (q in s.heap && q in t.heap ==> s.heap[q] == t.heap[q])
    && (q in s.awaited <==> q in t.awaited)
    && (q in s.log <==> q in t.log)
    && LogOf(s, q) == LogOf(t, q)
    && Times(s.batch, q) == Times(t.batch, q)
    && (forall fd, dir :: Times(Queue(s.requests, fd, dir), q) == Times(Queue(t.requests, fd, dir), q))
    && TimersSame(s.timeouts, t.timeouts, q)
  }

  lemma SameViewSameVerdict(s: Reactor, t: Reactor, q: Ptr)
    requires LocalInv(s, q) && SameView(s, t, q) && s.next <= t.next
    ensures LocalInv(t, q)
  {
    assert Waiting(s, q) == Waiting(t, q);
    assert QueuesAgree(t, q);
    assert TimersAgree(t, q);
  }

  /** t came from s by handling p alone. */
  ghost predicate Only(s: Reactor, t: Reactor, p: Ptr) {
    && s.next == t.next
    && Sorted(t.timeouts)
    && forall q :: q != p ==> SameView(s, t, q)
  }

  lemma OnlyChain(s: Reactor, t: Reactor, u: Reactor, p: Ptr)
    requires Only(s, t, p) && Only(t, u, p)
    ensures Only(s, u, p)
  {
    forall q | q != p ensures SameView(s, u, q) {
      assert SameView(s, t, q) && SameView(t, u, q);
    }
  }

  lemma OnlyCloses(s: Reactor, t: Reactor, p: Ptr)
    requires Inv(s) && Only(s, t, p) && LocalInv(t, p)
    ensures Inv(t)
  {
    forall q ensures LocalInv(t, q) {
      if q != p {
        assert SameView(s, t, q) && LocalInv(s, q);
        SameViewSameVerdict(s, t, q);
      }
    }
  }

  // ----- What p itself looks like in between -----

  ghost predicate NoQueues(s: Reactor, p: Ptr) {
    forall fd, dir :: Times(Queue(s.requests, fd, dir), p) == 0
  }

  ghost predicate NoTimers(s: Reactor, p: Ptr) {
    forall at :: multiset(s.timeouts)[Timer(at, p)] == 0
  }

  /** Its own timer if it has a deadline. */
  ghost predicate OwnTimer(s: Reactor, p: Ptr)
    requires p in s.heap
  {
    forall at :: multiset(s.timeouts)[Timer(at, p)] == if s.heap[p].deadline == Some(at) then 1 else 0
  }

  /** Awaited, not resumed, and taken out of the batch. */
  ghost predicate InHand(s: Reactor, p: Ptr) {
    && Waiting(s, p) && p < s.next && s.heap[p].handle.Some?
    && DeadlineFits(s.heap[p].kind, s.heap[p].deadline)
    && Times(s.batch, p) == 0
  }

  lemma OneTimerMore(ts: seq<Timer>, us: seq<Timer>, t: Timer, q: Ptr)
    requires multiset(us) == multiset(ts) + multiset{t} && q != t.who
    ensures TimersSame(ts, us, q)
  {
  }

  lemma OnlyTimers(s: Reactor, ts: seq<Timer>, p: Ptr)
    requires Sorted(ts) && forall q :: q != p ==> TimersSame(s.timeouts, ts, q)
    ensures Only(s, s.(timeouts := ts), p)
  {
    forall q | q != p ensures SameView(s, s.(timeouts := ts), q) {
      assert TimersSame(s.timeouts, ts, q);
    }
  }

  lemma InsertTimeoutEffect(s: Reactor, p: Ptr)
    requires p in s.heap && Sorted(s.timeouts)
    ensures Only(s, InsertTimeout(s, p), p)
    ensures NoTimers(s, p) ==> OwnTimer(InsertTimeout(s, p), p)
  {
    if s.heap[p].deadline.Some? {
      var t := Timer(s.heap[p].deadline.value, p);
      var ts := InsertTimer(s.timeouts, t);
      InsertTimerAdds(s.timeouts, t);
      InsertTimerSorts(s.timeouts, t);
      forall q | q != p ensures TimersSame(s.timeouts, ts, q) { OneTimerMore(s.timeouts, ts, t, q); }
      OnlyTimers(s, ts, p);
    }
  }

  lemma EraseOwnTimer(ts: seq<Timer>, p: Ptr, d: int)
    requires forall at :: multiset(ts)[Timer(at, p)] == if at == d then 1 else 0
    ensures multiset(ts) == multiset(EraseTimer(ts, p)) + multiset{Timer(d, p)}
  {
    assert Timer(d, p) in multiset(ts);
    EraseTimerDrops(ts, p);
    var at :| Timer(at, p) in ts && multiset(ts) == multiset(EraseTimer(ts, p)) + multiset{Timer(at, p)};
    assert Timer(at, p) in multiset(ts);
  }

  lemma EraseNoTimer(ts: seq<Timer>, p: Ptr)
    requires forall at :: multiset(ts)[Timer(at, p)] == 0
    ensures EraseTimer(ts, p) == ts
  {
    EraseTimerDrops(ts, p);
    forall t: Timer | t in ts ensures t.who != p {
      assert t in multiset(ts) && t == Timer(t.at, t.who);
    }
  }

  lemma CancelTimeoutEffect(s: Reactor, p: Ptr)
    requires p in s.heap && Sorted(s.timeouts) && (OwnTimer(s, p) || NoTimers(s, p))
    ensures Only(s, CancelTimeout(s, p), p)
    ensures NoTimers(CancelTimeout(s, p), p)
  {
    if s.heap[p].deadline.Some? {
      var ts := EraseTimer(s.timeouts, p);
      EraseTimerSorts(s.timeouts, p);
      if OwnTimer(s, p) {
        var t := Timer(s.heap[p].deadline.value, p);
        EraseOwnTimer(s.timeouts, p, t.at);
        forall q | q != p ensures TimersSame(s.timeouts, ts, q) { OneTimerMore(ts, s.timeouts, t, q); }
      } else {
        EraseNoTimer(s.timeouts, p);
      }
      OnlyTimers(s, ts, p);
    }
  }

  /** Queues that differ at most in p. */
  ghost predicate QueuesSame(a: map<int, Request>, b: map<int, Request>, q: Ptr) {
    forall fd, dir :: Times(Queue(a, fd, dir), q) == Times(Queue(b, fd, dir), q)
  }

  lemma OnlyQueues(s: Reactor, rs: map<int, Request>, p: Ptr)
    requires Sorted(s.timeouts) && forall q :: q != p ==> QueuesSame(s.requests, rs, q)
    ensures Only(s, s.(requests := rs), p)
  {
    forall q | q != p ensures SameView(s, s.(requests := rs), q) {
      assert QueuesSame(s.requests, rs, q);
    }
  }

  lemma PushedQueue(rs: map<int, Request>, fd: int, dir: Direction, p: Ptr, q: Ptr)
    requires q != p
    ensures QueuesSame(rs, WithQueue(rs, fd, dir, Queue(rs, fd, dir) + [p]), q)
  {
  }

  lemma EnqueueEffect(s: Reactor, p: Ptr)
    requires p in s.heap && Sorted(s.timeouts)
    ensures Only(s, Enqueue(s, p), p)
    ensures NoQueues(s, p) ==> forall fd, dir ::
      Times(Queue(Enqueue(s, p).requests, fd, dir), p) == if IsHome(s, p, fd, dir) then 1 else 0
  {
    match DirectionOf(s.heap[p].kind)
    case Some(dir) =>
      var rs := Enqueue(s, p).requests;
      forall q | q != p ensures QueuesSame(s.requests, rs, q) { PushedQueue(s.requests, s.heap[p].fd, dir, p, q); }
      OnlyQueues(s, rs, p);
    case None =>
  }

  lemma ErasedQueue(rs: map<int, Request>, fd: int, dir: Direction, p: Ptr, q: Ptr)
    requires q != p
    ensures QueuesSame(rs, WithQueue(rs, fd, dir, Erase(Queue(rs, fd, dir), p)), q)
  {
  }

  lemma CancelIopEffect(s: Reactor, p: Ptr)
    requires p in s.heap && Sorted(s.timeouts)
    requires forall fd, dir :: !IsHome(s, p, fd, dir) ==> Times(Queue(s.requests, fd, dir), p) == 0
    ensures Only(s, CancelIop(s, p), p)
    ensures NoQueues(CancelIop(s, p), p)
  {
    match DirectionOf(s.heap[p].kind)
    case Some(dir) =>
      var rs := CancelIop(s, p).requests;
      forall q | q != p ensures QueuesSame(s.requests, rs, q) { ErasedQueue(s.requests, s.heap[p].fd, dir, p, q); }
      OnlyQueues(s, rs, p);
    case None =>
  }

  ghost predicate Good(st: Status) {
    !st.Fault? && (st.Running? ==> Inv(st.reactor))
  }

  /** A completion in hand that is tied to nothing is resumed for good. */
  lemma ResumeKeeps(s: Reactor, t: Reactor, p: Ptr)
    requires Inv(s) && Only(s, t, p) && InHand(t, p) && NoQueues(t, p) && NoTimers(t, p)
    ensures Good(Resume(t, p))
  {
    var u := Resume(t, p).reactor;
    assert LocalInv(u, p);
    assert Only(t, u, p);
    OnlyChain(s, t, u, p);
    OnlyCloses(s, u, p);
  }

  lemma SetResultEffect(s: Reactor, p: Ptr, o: Outcome)
    requires p in s.heap && Sorted(s.timeouts)
    ensures Only(s, SetResult(s, p, o), p)
    ensures InHand(s, p) ==> InHand(SetResult(s, p, o), p)
  {
  }

  /** Storing an outcome, dropping the timer and resuming. */
  lemma FinishOff(s: Reactor, t: Reactor, p: Ptr, o: Outcome)
    requires Inv(s) && Only(s, t, p) && InHand(t, p) && NoQueues(t, p) && (OwnTimer(t, p) || NoTimers(t, p))
    ensures Good(CancelTimeoutThenResume(SetResult(t, p, o), p))
    ensures NoTimers(t, p) ==> Good(Resume(SetResult(t, p, o), p))
  {
    var u := SetResult(t, p, o);
    SetResultEffect(t, p, o);
    OnlyChain(s, t, u, p);
    CancelTimeoutEffect(u, p);
    OnlyChain(s, u, CancelTimeout(u, p), p);
    ResumeKeeps(s, CancelTimeout(u, p), p);
    if NoTimers(t, p) {
      ResumeKeeps(s, u, p);
    }
  }

  lemma FinishOffAsIs(s: Reactor, t: Reactor, p: Ptr)
    requires Inv(s) && Only(s, t, p) && InHand(t, p) && NoQueues(t, p) && (OwnTimer(t, p) || NoTimers(t, p))
    ensures Good(CancelTimeoutThenResume(t, p))
  {
    CancelTimeoutEffect(t, p);
    OnlyChain(s, t, CancelTimeout(t, p), p);
    ResumeKeeps(s, CancelTimeout(t, p), p);
  }

  /** A completion in hand goes to the tail of its queue with its own timer set. */
  lemma ParkKeeps(s: Reactor, t: Reactor, p: Ptr)
    requires Inv(s) && Only(s, t, p) && InHand(t, p) && NoQueues(t, p) && OwnTimer(t, p)
    requires t.heap[p].result == FRESH_OUTCOME && t.heap[p].kind != Close
    ensures Inv(Enqueue(t, p))
  {
    var u := Enqueue(t, p);
    EnqueueEffect(t, p);
    OnlyChain(s, t, u, p);
    assert LocalInv(u, p);
    OnlyCloses(s, u, p);
  }

  /** The branch of connect that inserts a second timer for the same deadline. */
  predicate IsTimedRetry(c: Completion, sys: Sys) {
    c.kind == Connect && c.deadline.Some? && sys.SoError? && sys.errvalue != 0 && sys.errno == EINPROGRESS
  }

  lemma TryTransferKeeps(s: Reactor, t: Reactor, p: Ptr, sys: Sys)
    requires Inv(s) && Only(s, t, p) && InHand(t, p) && NoQueues(t, p) && OwnTimer(t, p)
    requires t.heap[p].result == FRESH_OUTCOME && t.heap[p].kind != Close
    ensures Good(TryTransfer(t, p, sys))
  {
    var r := t.heap[p].result;
    match sys
    case Done(n) => FinishOff(s, t, p, r.AssignValue(n));
    case Errno(code) =>
      if code == EAGAIN {
        ParkKeeps(s, t, p);
      } else {
        FinishOff(s, t, p, r.AssignValue(-1));
        FinishOff(s, t, p, r.AssignError(code));
      }
    case SoError(_, _) =>
  }

  lemma TryConnectKeeps(s: Reactor, t: Reactor, p: Ptr, sys: Sys)
    requires Inv(s) && Only(s, t, p) && InHand(t, p) && NoQueues(t, p) && OwnTimer(t, p)
    requires t.heap[p].result == FRESH_OUTCOME && t.heap[p].kind == Connect && !IsTimedRetry(t.heap[p], sys)
    ensures Good(TryConnect(t, p, sys))
  {
    match sys
    case Done(_) =>
    case Errno(code) => FinishOff(s, t, p, t.heap[p].result.AssignError(code));
    case SoError(errvalue, errno) =>
      if errvalue == 0 {
        FinishOffAsIs(s, t, p);
      } else if errno == EINPROGRESS {
        ParkKeeps(s, t, p);
      } else {
        FinishOff(s, t, p, t.heap[p].result.AssignError(errno));
      }
  }

  /** The retry is exactly this, and two timers of one waiter break the registry. */
  lemma RetryDoublesTimer(t: Reactor, p: Ptr, sys: Sys)
    requires p in t.heap && OwnTimer(t, p) && IsTimedRetry(t.heap[p], sys)
    ensures var u := InsertTimeout(Enqueue(t, p), p); var w := Timer(t.heap[p].deadline.value, p);
      && TryOrResume(t, p, sys) == Running(u)
      && p in u.heap && u.heap == t.heap && multiset(u.timeouts)[w] == 2
  {
    InsertTimerAdds(t.timeouts, Timer(t.heap[p].deadline.value, p));
  }

  lemma TwoTimersBreak(u: Reactor, p: Ptr, w: Timer)
    requires multiset(u.timeouts)[w] == 2 && w.who == p && p in u.heap
    ensures !Inv(u) && w in CancelTimeout(u, p).timeouts
  {
    assert w == Timer(w.at, p);
    assert !TimersAgree(u, p);
    assert !LocalInv(u, p);
    SecondTimerStays(u.timeouts, w);
    assert w in multiset(u.timeouts);
  }

  /** try_or_resume on a continuation keeps the registry sound iff it is not the timed retry of connect. */
  lemma TryKeeps(s: Reactor, t: Reactor, p: Ptr, sys: Sys)
    requires Inv(s) && Only(s, t, p) && InHand(t, p) && NoQueues(t, p) && OwnTimer(t, p)
    requires t.heap[p].result == FRESH_OUTCOME
    ensures Good(TryOrResume(t, p, sys)) <==> !IsTimedRetry(t.heap[p], sys)
  {
    if IsTimedRetry(t.heap[p], sys) {
      RetryDoublesTimer(t, p, sys);
      TwoTimersBreak(InsertTimeout(Enqueue(t, p), p), p, Timer(t.heap[p].deadline.value, p));
    } else {
      TryKeepsOthers(s, t, p, sys);
    }
  }

  lemma TryKeepsOthers(s: Reactor, t: Reactor, p: Ptr, sys: Sys)
    requires Inv(s) && Only(s, t, p) && InHand(t, p) && NoQueues(t, p) && OwnTimer(t, p)
    requires t.heap[p].result == FRESH_OUTCOME && !IsTimedRetry(t.heap[p], sys)
    ensures Good(TryOrResume(t, p, sys))
  {
    match t.heap[p].kind
    case Close => FinishOffAsIs(s, t, p);
    case ReadReady => FinishOffAsIs(s, t, p);
    case WriteReady => FinishOffAsIs(s, t, p);
    case Sleep => ParkKeeps(s, t, p);
    case Connect => TryConnectKeeps(s, t, p, sys);
    case _ => TryTransferKeeps(s, t, p, sys);
  }

  /** await_suspend of a completion in hand that is tied to nothing yet. */
  lemma StartKeeps(s: Reactor, t: Reactor, p: Ptr, sys: Sys)
    requires Inv(s) && Only(s, t, p) && InHand(t, p) && NoQueues(t, p) && NoTimers(t, p)
    requires t.heap[p].result == FRESH_OUTCOME
    ensures Good(AwaitSuspend(t, p, sys))
  {
    match t.heap[p].kind
    case Connect =>
      ParkAnewKeeps(s, t, p);
      ResumeKeeps(s, t, p);
      if sys.Errno? { FinishOff(s, t, p, t.heap[p].result.AssignError(sys.code)); }
    case ReadReady => ParkAnewKeeps(s, t, p);
    case WriteReady => ParkAnewKeeps(s, t, p);
    case _ =>
      InsertTimeoutEffect(t, p);
      OnlyChain(s, t, InsertTimeout(t, p), p);
      TryKeeps(s, InsertTimeout(t, p), p, sys);
  }

  lemma ParkAnewKeeps(s: Reactor, t: Reactor, p: Ptr)
    requires Inv(s) && Only(s, t, p) && InHand(t, p) && NoQueues(t, p) && NoTimers(t, p)
    requires t.heap[p].result == FRESH_OUTCOME && t.heap[p].kind != Close
    ensures Inv(InsertTimeout(Enqueue(t, p), p))
  {
    var u := InsertTimeout(t, p);
    InsertTimeoutEffect(t, p);
    OnlyChain(s, t, u, p);
    ParkKeeps(s, u, p);
    assert InsertTimeout(Enqueue(t, p), p) == Enqueue(u, p);
  }

  lemma AwaitKeeps(s: Reactor, p: Ptr, h: Handle, sys: Sys)
    requires Inv(s)
    ensures Good(Apply(s, Await(p, h, sys)))
  {
    if p in s.heap && p !in s.awaited {
      var t := s.(heap := s.heap[p := s.heap[p].(handle := Some(h))], awaited := s.awaited + {p});
      assert LocalInv(s, p);
      assert Only(s, t, p) && InHand(t, p) && NoQueues(t, p) && NoTimers(t, p);
      StartKeeps(s, t, p, sys);
    }
  }

  /** The next continuation, taken out of the batch. */
  lemma HeadInHand(s: Reactor)
    requires Inv(s) && s.batch != []
    ensures var p := s.batch[0]; var t := s.(batch := s.batch[1..]);
      && Only(s, t, p) && InHand(t, p) && NoQueues(t, p) && OwnTimer(t, p)
      && t.heap[p].result == FRESH_OUTCOME && DirectionOf(t.heap[p].kind).Some?
  {
    var p := s.batch[0];
    var t := s.(batch := s.batch[1..]);
    assert s.batch == [p] + t.batch;
    assert LocalInv(s, p);
    assert Times(s.batch, p) == Times(t.batch, p) + 1;
    assert Only(s, t, p);
    assert NoQueues(t, p);
  }

  lemma ContinueKeeps(s: Reactor, sys: Sys)
    requires Inv(s)
    requires s.batch != [] && s.batch[0] in s.heap ==> !IsTimedRetry(s.heap[s.batch[0]], sys)
    ensures Good(Apply(s, Continue(sys)))
  {
    if s.batch != [] {
      HeadInHand(s);
      TryKeeps(s, s.(batch := s.batch[1..]), s.batch[0], sys);
    }
  }

  /** delete of a completion nothing points at any more. */
  lemma DeleteKeeps(s: Reactor, t: Reactor, p: Ptr)
    requires Inv(s) && Only(s, t, p) && p < t.next
    requires NoQueues(t, p) && NoTimers(t, p) && Times(t.batch, p) == 0
    requires |LogOf(t, p)| <= 1 && (LogOf(t, p) != [] ==> p in t.awaited)
    ensures Inv(t.(heap := t.heap - {p}))
  {
    var u := t.(heap := t.heap - {p});
    assert Only(t, u, p);
    OnlyChain(s, t, u, p);
    assert LocalInv(u, p);
    OnlyCloses(s, u, p);
  }

  lemma OnlyAtHome(s: Reactor, p: Ptr)
    requires LocalInv(s, p) && p in s.heap
    ensures OwnTimer(s, p) || NoTimers(s, p)
    ensures forall fd, dir :: !IsHome(s, p, fd, dir) ==> Times(Queue(s.requests, fd, dir), p) == 0
  {
  }

  lemma DetachEffect(s: Reactor, p: Ptr)
    requires Inv(s) && p in s.heap
    ensures var u := CancelIop(CancelTimeout(s, p), p);
      Only(s, u, p) && NoQueues(u, p) && NoTimers(u, p) && u == s.(timeouts := u.timeouts, requests := u.requests)
  {
    assert LocalInv(s, p);
    OnlyAtHome(s, p);
    var t := CancelTimeout(s, p);
    CancelTimeoutEffect(s, p);
    StillAtHome(s, t.timeouts, p);
    CancelIopEffect(t, p);
    OnlyChain(s, t, CancelIop(t, p), p);
  }

  lemma StillAtHome(s: Reactor, ts: seq<Timer>, p: Ptr)
    requires forall fd, dir :: !IsHome(s, p, fd, dir) ==> Times(Queue(s.requests, fd, dir), p) == 0
    ensures var t := s.(timeouts := ts);
      forall fd, dir :: !IsHome(t, p, fd, dir) ==> Times(Queue(t.requests, fd, dir), p) == 0
  {
  }

  lemma DestroyKeeps(s: Reactor, p: Ptr)
    requires Inv(s) && p !in s.batch
    ensures Good(Apply(s, Destroy(p)))
  {
    if p in s.heap {
      assert LocalInv(s, p);
      DetachEffect(s, p);
      assert Times(s.batch, p) == 0;
      DeleteKeeps(s, CancelIop(CancelTimeout(s, p), p), p);
    }
  }

  /** Taking the first timer off leaves its waiter without any. */
  lemma PopTimerEffect(s: Reactor)
    requires Inv(s) && s.timeouts != []
    ensures var t := s.(timeouts := s.timeouts[1..]); var p := s.timeouts[0].who;
      Only(s, t, p) && NoTimers(t, p) && Waiting(s, p) && s.heap[p].deadline == Some(s.timeouts[0].at)
  {
    var w := s.timeouts[0];
    var ts := s.timeouts[1..];
    assert s.timeouts == [w] + ts;
    assert w == Timer(w.at, w.who) && w in multiset(s.timeouts);
    assert LocalInv(s, w.who);
    SortedTail(s.timeouts);
    forall q | q != w.who ensures TimersSame(s.timeouts, ts, q) { OneTimerMore(ts, s.timeouts, w, q); }
    OnlyTimers(s, ts, w.who);
  }

  lemma FireKeeps(s: Reactor, now: int)
    requires Inv(s)
    ensures Good(Apply(s, Fire(now)))
  {
    if s.batch == [] && s.timeouts != [] {
      var p := s.timeouts[0].who;
      PopTimerEffect(s);
      assert LocalInv(s, p);
      var t := s.(timeouts := s.timeouts[1..]);
      if s.heap[p].kind == Sleep {
        ResumeKeeps(s, t, p);
      } else {
        CancelIopEffect(t, p);
        OnlyChain(s, t, CancelIop(t, p), p);
        FinishOff(s, CancelIop(t, p), p, t.heap[p].result.AssignError(ETIME));
      }
    }
  }

  lemma CreateKeeps(s: Reactor, kind: Kind, fd: int, deadline: Option<int>)
    requires Inv(s)
    ensures Good(Apply(s, Create(kind, fd, deadline)))
  {
    if DeadlineFits(kind, deadline) {
      var t := Apply(s, Create(kind, fd, deadline)).reactor;
      forall q ensures LocalInv(t, q) {
        assert LocalInv(s, q) && LocalInv(s, s.next);
        if q != s.next {
          SameViewSameVerdict(s, t, q);
        }
      }
    }
  }

  lemma TimesAppend(a: seq<Ptr>, b: seq<Ptr>, c: seq<Ptr>, p: Ptr)
    ensures Times(a + b + c, p) == Times(a, p) + Times(b, p) + Times(c, p)
  {
  }

  /** Only the queue (fd, dir) can hold p. */
  ghost predicate AtMostIn(requests: map<int, Request>, p: Ptr, fd: int, dir: Direction) {
    forall f, d :: f != fd || d != dir ==> Times(Queue(requests, f, d), p) == 0
  }

  lemma MovedTimes(requests: map<int, Request>, revents: map<int, Revents>, f: int, d: Direction,
                   p: Ptr, fd: int, dir: Direction)
    requires AtMostIn(requests, p, fd, dir)
    ensures Times(Moved(requests, revents, f, d), p)
      == if f == fd && d == dir && Matched(revents, fd, dir) then Times(Queue(requests, fd, dir), p) else 0
  {
  }

  lemma LastIsNew(order: seq<int>)
    requires Ascending(order) && order != []
    ensures var n := |order| - 1;
      && Ascending(order[..n]) && order[n] !in order[..n]
      && forall fd :: fd in order <==> fd in order[..n] || fd == order[n]
  {
    assert order == order[..|order| - 1] + [order[|order| - 1]];
  }

  /** The batch holds what the matched queues held. */
  lemma {:induction false} GatherTimes(requests: map<int, Request>, revents: map<int, Revents>, order: seq<int>,
                                       p: Ptr, fd: int, dir: Direction)
    requires Ascending(order)
    requires AtMostIn(requests, p, fd, dir)
    ensures Times(Gather(requests, revents, order), p)
      == if fd in order && Matched(revents, fd, dir) then Times(Queue(requests, fd, dir), p) else 0
  {
    if order != [] {
      var n := |order| - 1;
      var rest, ins, outs := Gather(requests, revents, order[..n]), Moved(requests, revents, order[n], In),
        Moved(requests, revents, order[n], Out);
      LastIsNew(order);
      GatherTimes(requests, revents, order[..n], p, fd, dir);
      MovedTimes(requests, revents, order[n], In, p, fd, dir);
      MovedTimes(requests, revents, order[n], Out, p, fd, dir);
      TimesAppend(rest, ins, outs, p);
      assert Gather(requests, revents, order) == rest + ins + outs;
    }
  }

  /** t is s after do_poll moved the matched queues into the batch. */
  ghost predicate PolledInto(s: Reactor, t: Reactor, order: seq<int>, revents: map<int, Revents>) {
    && s.batch == []
    && t == s.(batch := t.batch, requests := t.requests)
    && (forall f, d :: Queue(t.requests, f, d) == if Matched(revents, f, d) then [] else Queue(s.requests, f, d))
    && (forall p, fd, dir :: AtMostIn(s.requests, p, fd, dir) ==>
          Times(t.batch, p) == if Matched(revents, fd, dir) then Times(Queue(s.requests, fd, dir), p) else 0)
  }

  lemma PollMoves(s: Reactor, order: seq<int>, revents: map<int, Revents>)
    requires s.batch == [] && Enumerates(order, s.requests)
    ensures PolledInto(s, Apply(s, Poll(order, revents)).reactor, order, revents)
  {
    forall p, fd, dir | AtMostIn(s.requests, p, fd, dir)
      ensures Times(Gather(s.requests, revents, order), p)
        == if Matched(revents, fd, dir) then Times(Queue(s.requests, fd, dir), p) else 0
    {
      GatherTimes(s.requests, revents, order, p, fd, dir);
    }
  }

  lemma PollKeepsLocal(s: Reactor, t: Reactor, order: seq<int>, revents: map<int, Revents>, p: Ptr)
    requires LocalInv(s, p) && PolledInto(s, t, order, revents)
    ensures LocalInv(t, p)
  {
    assert Waiting(s, p) == Waiting(t, p);
    if Waiting(s, p) && DirectionOf(s.heap[p].kind).Some? {
      var fd, dir := s.heap[p].fd, DirectionOf(s.heap[p].kind).value;
      assert AtMostIn(s.requests, p, fd, dir);
      assert Times(Queue(s.requests, fd, dir), p) == 1;
      assert QueuesAgree(t, p);
    } else {
      assert AtMostIn(s.requests, p, 0, In);
      assert QueuesAgree(t, p);
    }
  }

  lemma PollKeeps(s: Reactor, order: seq<int>, revents: map<int, Revents>)
    requires Inv(s)
    ensures Good(Apply(s, Poll(order, revents)))
  {
    if s.batch == [] && Enumerates(order, s.requests) {
      PollMoves(s, order, revents);
      var t := Apply(s, Poll(order, revents)).reactor;
      forall p ensures LocalInv(t, p) {
        assert LocalInv(s, p);
        PollKeepsLocal(s, t, order, revents, p);
      }
    }
  }

  // ----- Which steps keep it, and which do not -----

  /** The two guards: no iop of the batch is destroyed, and no timed connect is told EINPROGRESS again. */
  predicate Benign(s: Reactor, e: Event) {
    && (e.Destroy? ==> e.p !in s.batch)
    && (e.Continue? && s.batch != [] && s.batch[0] in s.heap ==> !IsTimedRetry(s.heap[s.batch[0]], e.sys))
  }

  lemma StepKeeps(s: Reactor, e: Event)
    requires Inv(s) && Benign(s, e)
    ensures Good(Apply(s, e))
  {
    match e
    case Create(kind, fd, deadline) => CreateKeeps(s, kind, fd, deadline);
    case Await(p, h, sys) => AwaitKeeps(s, p, h, sys);
    case Destroy(p) => DestroyKeeps(s, p);
    case Fire(now) => FireKeeps(s, now);
    case Poll(order, revents) => PollKeeps(s, order, revents);
    case Continue(sys) => ContinueKeeps(s, sys);
  }

  /** The retry leaves two timers for one waiter, so destroying the iop later leaves one of them dangling. */
  lemma TimedRetryBreaks(s: Reactor, sys: Sys)
    requires Inv(s) && s.batch != [] && s.batch[0] in s.heap && IsTimedRetry(s.heap[s.batch[0]], sys)
    ensures var p := s.batch[0]; var w := Timer(s.heap[p].deadline.value, p); var u := Retried(s);
      && Apply(s, Continue(sys)) == Running(u)
      && multiset(u.timeouts)[w] == 2 && !Inv(u)
      && p in u.heap && w in CancelTimeout(u, p).timeouts
  {
    var p := s.batch[0];
    var w := Timer(s.heap[p].deadline.value, p);
    assert OwnTimer(s, p) by { HeadInHand(s); }
    RetryIs(s, sys);
    RetryDoubles(s, p, w);
    TwoTimersBreak(Retried(s), p, w);
  }

  lemma RetryIs(s: Reactor, sys: Sys)
    requires s.batch != [] && s.batch[0] in s.heap && IsTimedRetry(s.heap[s.batch[0]], sys)
    ensures Apply(s, Continue(sys)) == Running(Retried(s))
  {
  }

  lemma RetryDoubles(s: Reactor, p: Ptr, w: Timer)
    requires s.batch != [] && s.batch[0] == p && p in s.heap && OwnTimer(s, p)
    requires w.who == p && s.heap[p].deadline == Some(w.at)
    ensures multiset(Retried(s).timeouts)[w] == 2 && Retried(s).heap == s.heap
  {
    InsertTimerAdds(s.timeouts, w);
    assert w == Timer(w.at, p);
  }

  /** The next continuation back in its queue, its timer set once more. */
  ghost function Retried(s: Reactor): Reactor
    requires s.batch != [] && s.batch[0] in s.heap
  {
    InsertTimeout(Enqueue(s.(batch := s.batch[1..]), s.batch[0]), s.batch[0])
  }

  lemma SecondTimerStays(ts: seq<Timer>, w: Timer)
    requires multiset(ts)[w] == 2
    ensures w in EraseTimer(ts, w.who)
  {
    assert w in multiset(ts);
    EraseTimerDrops(ts, w.who);
    assert w in multiset(EraseTimer(ts, w.who));
  }

  /** A destroyed continuation is still tried. */
  lemma BatchDestroyBreaks(s: Reactor, p: Ptr)
    requires Inv(s) && p in s.batch
    ensures var st := Apply(s, Destroy(p));
      && st.Running? && !Inv(st.reactor)
      && (s.batch[0] == p ==> forall sys :: Apply(st.reactor, Continue(sys)) == Fault)
  {
    assert LocalInv(s, p);
    var t := Apply(s, Destroy(p)).reactor;
    assert t.batch == s.batch;
    assert Times(t.batch, p) == 1 && !BatchAgrees(t, p);
    assert !LocalInv(t, p);
  }

  /** A step of a good reactor keeps the invariant exactly when both guards hold. */
  lemma StepKeepsIff(s: Reactor, e: Event)
    requires Inv(s) && Apply(s, e).Running?
    ensures Inv(Apply(s, e).reactor) <==> Benign(s, e)
  {
    if Benign(s, e) {
      StepKeeps(s, e);
    } else if e.Destroy? {
      BatchDestroyBreaks(s, e.p);
    } else {
      TimedRetryBreaks(s, e.sys);
    }
  }

  ghost predicate BenignRun(es: seq<Event>) {
    es == [] ||
    (var es' := es[..|es| - 1];
     BenignRun(es') && (Run(es').Running? ==> Benign(Run(es').reactor, es[|es| - 1])))
  }

  /** Every run that respects the guards keeps the registry sound and never touches a dead completion. */
  lemma {:induction false} RunIsSafe(es: seq<Event>)
    requires BenignRun(es)
    ensures Good(Run(es))
  {
    if es == [] {
      forall p ensures LocalInv(INITIAL, p) {}
    } else {
      RunIsSafe(es[..|es| - 1]);
      if Run(es[..|es| - 1]).Running? {
        StepKeeps(Run(es[..|es| - 1]).reactor, es[|es| - 1]);
      }
    }
  }

  lemma RunExtends(es: seq<Event>, e: Event)
    ensures Run(es + [e]) == if Run(es).Running? then Apply(Run(es).reactor, e) else Run(es)
    ensures BenignRun(es + [e]) <==> BenignRun(es) && (Run(es).Running? ==> Benign(Run(es).reactor, e))
  {
    assert (es + [e])[..|es|] == es;
  }

  /** Some guarded run leads to s. */
  ghost predicate Reachable(s: Reactor) {
    exists es :: BenignRun(es) && Run(es) == Running(s)
  }

  lemma ReachableIsSound(s: Reactor)
    requires Reachable(s)
    ensures Inv(s)
  {
    var es :| BenignRun(es) && Run(es) == Running(s);
    RunIsSafe(es);
  }

  lemma ReachableStep(s: Reactor, e: Event)
    requires Reachable(s) && Benign(s, e) && Apply(s, e).Running?
    ensures Reachable(Apply(s, e).reactor)
  {
    var es :| BenignRun(es) && Run(es) == Running(s);
    RunExtends(es, e);
  }
}
