/** What every guarded run of the poll registry guarantees. */
module PollTheorems {
  import opened Basics
  import opened Lifecycle
  import opened PollMachine
  import opened PollInvariant

  // ----- At most one resumption, and only of a completion tied to nothing -----

  ghost predicate TiedToNothing(s: Reactor, p: Ptr) {
    Times(s.batch, p) == 0 && NoQueues(s, p) && NoTimers(s, p)
  }

  /** Readiness and timeout exclude each other: a resumed completion is out of every queue, batch and timer. */
  lemma ResumedOnceAndUntied(s: Reactor, p: Ptr)
    requires Reachable(s)
    ensures |LogOf(s, p)| <= 1
    ensures LogOf(s, p) != [] ==> TiedToNothing(s, p)
    ensures p !in s.heap ==> TiedToNothing(s, p)
  {
    ReachableIsSound(s);
    assert LocalInv(s, p);
  }

  lemma FirstTimerWaits(s: Reactor)
    requires Inv(s) && s.timeouts != []
    ensures var w := s.timeouts[0];
      Waiting(s, w.who) && s.heap[w.who].deadline == Some(w.at)
  {
    var w := s.timeouts[0];
    assert w == Timer(w.at, w.who) && w in multiset(s.timeouts);
    assert LocalInv(s, w.who);
  }

  /** A turn of clear_timeouts fires the earliest timer, less than a millisecond early, to its own waiter. */
  lemma FiresEarliest(s: Reactor, now: int)
    requires Reachable(s) && Apply(s, Fire(now)).Running?
    ensures var w := s.timeouts[0];
      && (forall t: Timer :: t in s.timeouts ==> w.at <= t.at)
      && now > w.at - MILLISECOND
      && Waiting(s, w.who) && s.heap[w.who].deadline == Some(w.at)
      && TiedToNothing(Apply(s, Fire(now)).reactor, w.who)
  {
    var w := s.timeouts[0];
    ReachableIsSound(s);
    ReachableStep(s, Fire(now));
    FirstTimerWaits(s);
    ResumedOnceAndUntied(Apply(s, Fire(now)).reactor, w.who);
  }

  // ----- No waiter is stranded -----

  datatype PollFd = PollFd(fd: int, pollin: bool, pollout: bool)

  function PollFdOf(requests: map<int, Request>, fd: int): PollFd {
    PollFd(fd, Queue(requests, fd, In) != [], Queue(requests, fd, Out) != [])
  }

  /** The set do_poll hands to poll, without the wake-up descriptor in front. */
  function PollSet(requests: map<int, Request>, order: seq<int>): seq<PollFd> {
    if order == [] then []
    else PollSet(requests, order[..|order| - 1]) + [PollFdOf(requests, order[|order| - 1])]
  }

  predicate Raised(f: PollFd, dir: Direction) {
    if dir == In then f.pollin else f.pollout
  }

  lemma {:induction false} PollSetContents(requests: map<int, Request>, order: seq<int>, f: PollFd)
    ensures f in PollSet(requests, order) <==> f.fd in order && f == PollFdOf(requests, f.fd)
  {
    if order != [] {
      var n := |order| - 1;
      PollSetContents(requests, order[..n], f);
      assert order == order[..n] + [order[n]];
    }
  }

  /** At every poll a suspended IOP is a sleep with its timer, or its descriptor is polled in its direction. */
  lemma NoStrandedWaiter(s: Reactor, order: seq<int>, p: Ptr)
    requires Reachable(s) && s.batch == [] && Enumerates(order, s.requests) && Waiting(s, p)
    ensures var c := s.heap[p];
      if c.kind == Sleep then c.deadline.Some? && Timer(c.deadline.value, p) in s.timeouts
      else DirectionOf(c.kind).Some? && var dir := DirectionOf(c.kind).value;
        && p in Queue(s.requests, c.fd, dir)
        && PollFdOf(s.requests, c.fd) in PollSet(s.requests, order)
        && Raised(PollFdOf(s.requests, c.fd), dir)
  {
    ReachableIsSound(s);
    assert LocalInv(s, p);
    var c := s.heap[p];
    if c.kind == Sleep {
      assert multiset(s.timeouts)[Timer(c.deadline.value, p)] == 1;
    } else {
      var dir := DirectionOf(c.kind).value;
      assert Times(Queue(s.requests, c.fd, dir), p) == 1;
      PollSetContents(s.requests, order, PollFdOf(s.requests, c.fd));
    }
  }

  /** And every raised flag has a waiter behind it. */
  lemma NoIdleFlag(s: Reactor, order: seq<int>, f: PollFd, dir: Direction)
    requires Reachable(s) && Enumerates(order, s.requests) && f in PollSet(s.requests, order)
    ensures Raised(f, dir) <==> exists p :: p in Queue(s.requests, f.fd, dir) && Waiting(s, p) && IsHome(s, p, f.fd, dir)
  {
    ReachableIsSound(s);
    PollSetContents(s.requests, order, f);
    var q := Queue(s.requests, f.fd, dir);
    if q != [] {
      assert LocalInv(s, q[0]) && q[0] in q && Times(q, q[0]) > 0;
      assert Waiting(s, q[0]) && IsHome(s, q[0], f.fd, dir);
    }
  }

  /** Nothing but p was handled, and p may have been put at the tail of its queue. */
  ghost predicate MayPark(s: Reactor, st: Status, p: Ptr)
    requires p in s.heap
  {
    st.Running? ==>
      var t := st.reactor;
      && (t.requests == s.requests || t.requests == Enqueue(s, p).requests)
      && t.batch == s.batch && t.awaited == s.awaited && t.next == s.next
      && p in t.heap && (t.heap == s.heap || t.heap == s.heap[p := s.heap[p].(result := t.heap[p].result)])
      && (t.log == s.log || (s.heap[p].handle.Some? && t.log == s.log[p := LogOf(s, p) + [
                               Resumption(s.heap[p].handle.value, t.heap[p].result)]]))
  }

  lemma FinishRequests(s: Reactor, p: Ptr, o: Outcome)
    requires p in s.heap
    ensures MayPark(s, CancelTimeoutThenResume(SetResult(s, p, o), p), p)
    ensures MayPark(s, Resume(SetResult(s, p, o), p), p)
    ensures MayPark(s, CancelTimeoutThenResume(s, p), p) && MayPark(s, Resume(s, p), p)
  {
  }

  lemma ParkRequests(s: Reactor, p: Ptr)
    requires p in s.heap
    ensures MayPark(s, Running(Enqueue(s, p)), p) && MayPark(s, Running(InsertTimeout(Enqueue(s, p), p)), p)
  {
  }

  lemma TransferRequests(s: Reactor, p: Ptr, sys: Sys)
    requires p in s.heap
    ensures MayPark(s, TryTransfer(s, p, sys), p)
  {
    var r := s.heap[p].result;
    match sys
    case Done(n) => FinishRequests(s, p, r.AssignValue(n));
    case Errno(code) =>
      ParkRequests(s, p);
      FinishRequests(s, p, r.AssignValue(-1));
      FinishRequests(s, p, r.AssignError(code));
    case SoError(_, _) =>
  }

  lemma ConnectRequests(s: Reactor, p: Ptr, sys: Sys)
    requires p in s.heap
    ensures MayPark(s, TryConnect(s, p, sys), p)
  {
    match sys
    case Done(_) =>
    case Errno(code) => FinishRequests(s, p, s.heap[p].result.AssignError(code));
    case SoError(_, errno) =>
      ParkRequests(s, p);
      FinishRequests(s, p, s.heap[p].result.AssignError(errno));
  }

  lemma AttemptRequests(s: Reactor, p: Ptr, sys: Sys)
    requires p in s.heap
    ensures MayPark(s, TryOrResume(s, p, sys), p)
  {
    FinishRequests(s, p, FRESH_OUTCOME);
    match s.heap[p].kind
    case Close =>
    case Sleep =>
    case ReadReady =>
    case WriteReady =>
    case Connect => ConnectRequests(s, p, sys);
    case _ => TransferRequests(s, p, sys);
  }

  lemma StartRequests(s: Reactor, p: Ptr, sys: Sys)
    requires p in s.heap
    ensures MayPark(s, AwaitSuspend(s, p, sys), p)
  {
    ParkRequests(s, p);
    match s.heap[p].kind
    case Connect => FinishRequests(s, p, if sys.Errno? then s.heap[p].result.AssignError(sys.code) else FRESH_OUTCOME);
    case ReadReady =>
    case WriteReady =>
    case _ =>
      AttemptRequests(InsertTimeout(s, p), p, sys);
      MayParkFrom(s, InsertTimeout(s, p).timeouts, TryOrResume(InsertTimeout(s, p), p, sys), p);
  }

  lemma MayParkFrom(s: Reactor, ts: seq<Timer>, st: Status, p: Ptr)
    requires p in s.heap && MayPark(s.(timeouts := ts), st, p)
    ensures MayPark(s, st, p)
  {
  }

  lemma DescriptorsGrow(s: Reactor, e: Event)
    requires Apply(s, e).Running?
    ensures s.requests.Keys <= Apply(s, e).reactor.requests.Keys
  {
    match e
    case Await(p, h, sys) =>
      StartRequests(s.(heap := s.heap[p := s.heap[p].(handle := Some(h))], awaited := s.awaited + {p}), p, sys);
    case Continue(sys) => AttemptRequests(s.(batch := s.batch[1..]), s.batch[0], sys);
    case _ =>
  }

  // ----- do_poll conserves waiters and their order -----

  ghost function OfHome(s: Reactor, ps: seq<Ptr>, fd: int, dir: Direction): seq<Ptr> {
    if ps == [] then []
    else (if IsHome(s, ps[0], fd, dir) then [ps[0]] else []) + OfHome(s, ps[1..], fd, dir)
  }

  lemma {:induction false} OfHomeAppend(s: Reactor, a: seq<Ptr>, b: seq<Ptr>, fd: int, dir: Direction)
    ensures OfHome(s, a + b, fd, dir) == OfHome(s, a, fd, dir) + OfHome(s, b, fd, dir)
  {
    if a == [] {
      assert a + b == b;
    } else {
      var first := if IsHome(s, a[0], fd, dir) then [a[0]] else [];
      assert (a + b)[1..] == a[1..] + b && (a + b)[0] == a[0];
      OfHomeAppend(s, a[1..], b, fd, dir);
      assert OfHome(s, a + b, fd, dir) == first + OfHome(s, a[1..] + b, fd, dir);
      assert OfHome(s, a, fd, dir) == first + OfHome(s, a[1..], fd, dir);
    }
  }

  lemma {:induction false} OfHomeAllOrNone(s: Reactor, ps: seq<Ptr>, f: int, d: Direction, fd: int, dir: Direction)
    requires forall p :: p in ps ==> IsHome(s, p, f, d)
    ensures OfHome(s, ps, fd, dir) == if f == fd && d == dir then ps else []
  {
    if ps != [] {
      assert IsHome(s, ps[0], f, d);
      OfHomeAllOrNone(s, ps[1..], f, d, fd, dir);
    }
  }

  ghost predicate AllHome(s: Reactor) {
    forall f, d :: forall p :: p in Queue(s.requests, f, d) ==> IsHome(s, p, f, d)
  }

  lemma InvAllHome(s: Reactor)
    requires Inv(s)
    ensures AllHome(s)
  {
    forall f, d, p | p in Queue(s.requests, f, d) ensures IsHome(s, p, f, d) {
      assert LocalInv(s, p) && Times(Queue(s.requests, f, d), p) > 0;
    }
  }

  lemma MovedOfHome(s: Reactor, revents: map<int, Revents>, f: int, d: Direction, fd: int, dir: Direction)
    requires AllHome(s)
    ensures OfHome(s, Moved(s.requests, revents, f, d), fd, dir)
      == if f == fd && d == dir then Moved(s.requests, revents, fd, dir) else []
  {
    forall p | p in Moved(s.requests, revents, f, d) ensures IsHome(s, p, f, d) {
      assert p in Queue(s.requests, f, d);
    }
    OfHomeAllOrNone(s, Moved(s.requests, revents, f, d), f, d, fd, dir);
  }

  lemma {:induction false} GatherKeepsOrder(s: Reactor, revents: map<int, Revents>, order: seq<int>, fd: int, dir: Direction)
    requires AllHome(s) && Ascending(order)
    ensures OfHome(s, Gather(s.requests, revents, order), fd, dir)
      == if fd in order then Moved(s.requests, revents, fd, dir) else []
  {
    if order != [] {
      var n := |order| - 1;
      var rest := Gather(s.requests, revents, order[..n]);
      var ins, outs := Moved(s.requests, revents, order[n], In), Moved(s.requests, revents, order[n], Out);
      LastIsNew(order);
      GatherKeepsOrder(s, revents, order[..n], fd, dir);
      MovedOfHome(s, revents, order[n], In, fd, dir);
      MovedOfHome(s, revents, order[n], Out, fd, dir);
      assert Gather(s.requests, revents, order) == rest + ins + outs;
      OfHomeAppends(s, rest, ins, outs, fd, dir);
      var a, b, c := OfHome(s, rest, fd, dir), OfHome(s, ins, fd, dir), OfHome(s, outs, fd, dir);
      OnlyOneOfThree(a, b, c);
      if fd != order[n] {
        assert b == [] && c == [];
      } else if dir == In {
        assert a == [] && c == [];
      } else {
        assert a == [] && b == [];
      }
    }
  }

  lemma OfHomeAppends(s: Reactor, a: seq<Ptr>, b: seq<Ptr>, c: seq<Ptr>, fd: int, dir: Direction)
    ensures OfHome(s, a + b + c, fd, dir) == OfHome(s, a, fd, dir) + OfHome(s, b, fd, dir) + OfHome(s, c, fd, dir)
  {
    OfHomeAppend(s, a + b, c, fd, dir);
    OfHomeAppend(s, a, b, fd, dir);
  }

  lemma OnlyOneOfThree(a: seq<Ptr>, b: seq<Ptr>, c: seq<Ptr>)
    ensures b == [] && c == [] ==> a + b + c == a
    ensures a == [] && c == [] ==> a + b + c == b
    ensures a == [] && b == [] ==> a + b + c == c
  {
  }

  lemma MovedWhole(s: Reactor, order: seq<int>, revents: map<int, Revents>, fd: int, dir: Direction)
    requires Inv(s) && s.batch == [] && Enumerates(order, s.requests)
    ensures var t := Apply(s, Poll(order, revents)).reactor;
      var q := Queue(s.requests, fd, dir);
      if Matched(revents, fd, dir) then OfHome(s, t.batch, fd, dir) == q && Queue(t.requests, fd, dir) == []
      else OfHome(s, t.batch, fd, dir) == [] && Queue(t.requests, fd, dir) == q
  {
    InvAllHome(s);
    GatherKeepsOrder(s, revents, order, fd, dir);
  }

  /** Per descriptor and direction: a matched queue moves as it stands, any other queue stays as it is. */
  lemma PollConserves(s: Reactor, order: seq<int>, revents: map<int, Revents>, fd: int, dir: Direction)
    requires Reachable(s) && s.batch == [] && Enumerates(order, s.requests)
    ensures var t := Apply(s, Poll(order, revents)).reactor;
      var q := Queue(s.requests, fd, dir);
      if Matched(revents, fd, dir) then OfHome(s, t.batch, fd, dir) == q && Queue(t.requests, fd, dir) == []
      else OfHome(s, t.batch, fd, dir) == [] && Queue(t.requests, fd, dir) == q
  {
    ReachableIsSound(s);
    MovedWhole(s, order, revents, fd, dir);
  }

  // ----- A wake-up at which everything would still block changes nothing -----

  function Replay(s: Reactor, es: seq<Event>): Status
    decreases |es|
  {
    if es == [] then Running(s)
    else match Apply(s, es[0])
      case Running(t) => Replay(t, es[1..])
      case bad => bad
  }

  function BlockedAgain(n: nat): seq<Event> {
    if n == 0 then [] else [Continue(Errno(EAGAIN))] + BlockedAgain(n - 1)
  }

  ghost predicate AllTransfers(s: Reactor, ps: seq<Ptr>) {
    forall p :: p in ps ==> p in s.heap && s.heap[p].kind in {Read, Write, Accept} && s.heap[p].fd in s.requests
  }

  /** t is s with the continuations `done` put back, each at the tail of its own queue; nothing else moved. */
  ghost predicate Requeued(s: Reactor, t: Reactor, done: seq<Ptr>) {
    && t == s.(batch := t.batch, requests := t.requests)
    && s.batch == done + t.batch
    && t.requests.Keys == s.requests.Keys
    && forall fd, dir :: Queue(t.requests, fd, dir) == Queue(s.requests, fd, dir) + OfHome(s, done, fd, dir)
  }

  /** A continuation that would block again goes to the tail of its queue, whatever else is in the batch. */
  lemma RequeueOne(s: Reactor)
    requires s.batch != [] && AllTransfers(s, [s.batch[0]])
    ensures var st := Apply(s, Continue(Errno(EAGAIN)));
      st.Running? && st.reactor.batch == s.batch[1..] && Requeued(s, st.reactor, [s.batch[0]])
  {
    assert s.batch[0] in [s.batch[0]];
    assert s.batch == [s.batch[0]] + s.batch[1..];
    assert Apply(s, Continue(Errno(EAGAIN))) == Running(Enqueue(s.(batch := s.batch[1..]), s.batch[0]));
  }

  lemma RequeuedChain(s: Reactor, t: Reactor, u: Reactor, a: seq<Ptr>, b: seq<Ptr>)
    requires Requeued(s, t, a) && Requeued(t, u, b)
    ensures Requeued(s, u, a + b)
  {
    forall fd, dir ensures Queue(u.requests, fd, dir) == Queue(s.requests, fd, dir) + OfHome(s, a + b, fd, dir) {
      OfHomeSame(s, t, b, fd, dir);
      OfHomeAppend(s, a, b, fd, dir);
    }
    assert a + b + u.batch == a + (b + u.batch);
  }

  lemma ReplayHead(s: Reactor, n: nat)
    requires n > 0
    ensures Replay(s, BlockedAgain(n)) ==
      match Apply(s, Continue(Errno(EAGAIN))) case Running(t) => Replay(t, BlockedAgain(n - 1)) case bad => bad
  {
    assert BlockedAgain(n)[1..] == BlockedAgain(n - 1);
  }

  /** Each blocked continuation goes to the tail of its own queue; nothing else moves. */
  lemma {:induction false} RequeueKeepsOrder(s: Reactor)
    requires AllTransfers(s, s.batch)
    ensures var st := Replay(s, BlockedAgain(|s.batch|));
      st.Running? && st.reactor.batch == [] && Requeued(s, st.reactor, s.batch)
    decreases |s.batch|
  {
    if s.batch != [] {
      RequeueOne(s);
      ReplayHead(s, |s.batch|);
      var t := Apply(s, Continue(Errno(EAGAIN))).reactor;
      RequeueKeepsOrder(t);
      RequeuedChain(s, t, Replay(t, BlockedAgain(|t.batch|)).reactor, [s.batch[0]], t.batch);
      assert [s.batch[0]] + s.batch[1..] == s.batch;
    }
  }

  lemma {:induction false} OfHomeSame(s: Reactor, t: Reactor, ps: seq<Ptr>, fd: int, dir: Direction)
    requires s.heap == t.heap
    ensures OfHome(s, ps, fd, dir) == OfHome(t, ps, fd, dir)
  {
    if ps != [] { OfHomeSame(s, t, ps[1..], fd, dir); }
  }

  lemma SameQueuesSameMap(a: map<int, Request>, b: map<int, Request>)
    requires a.Keys == b.Keys && forall fd, dir :: Queue(a, fd, dir) == Queue(b, fd, dir)
    ensures a == b
  {
    forall fd | fd in a ensures a[fd] == b[fd] {
      assert Queue(a, fd, In) == Queue(b, fd, In) && Queue(a, fd, Out) == Queue(b, fd, Out);
    }
  }

  lemma RequeuedQueue(s: Reactor, t: Reactor, u: Reactor, order: seq<int>, revents: map<int, Revents>)
    requires AllHome(s) && Enumerates(order, s.requests)
    requires t == s.(batch := Gather(s.requests, revents, order), requests := ClearMatched(s.requests, revents))
    requires Requeued(t, u, t.batch)
    ensures forall fd, dir :: Queue(u.requests, fd, dir) == Queue(s.requests, fd, dir)
  {
    forall fd, dir ensures Queue(u.requests, fd, dir) == Queue(s.requests, fd, dir) {
      OfHomeSame(s, t, t.batch, fd, dir);
      GatherKeepsOrder(s, revents, order, fd, dir);
    }
  }

  /** Poll, then every read, write and accept finds that it would block: the reactor is as it was. */
  lemma SpuriousWakeUpIsIdentity(s: Reactor, order: seq<int>, revents: map<int, Revents>)
    requires Reachable(s) && s.batch == [] && Enumerates(order, s.requests)
    requires AllTransfers(s, Apply(s, Poll(order, revents)).reactor.batch)
    ensures var t := Apply(s, Poll(order, revents)).reactor;
      Replay(t, BlockedAgain(|t.batch|)) == Running(s)
  {
    ReachableIsSound(s);
    InvAllHome(s);
    var t := Apply(s, Poll(order, revents)).reactor;
    RequeueKeepsOrder(t);
    var u := Replay(t, BlockedAgain(|t.batch|)).reactor;
    RequeuedQueue(s, t, u, order, revents);
    SameQueuesSameMap(u.requests, s.requests);
  }

  // ----- connect reports errno, not SO_ERROR -----

  /** After a failed connect the coroutine learns the socket's error iff errno happens to hold it and is not EINPROGRESS. */
  lemma ConnectLearnsErrorIff(s: Reactor, errvalue: int, errno: int)
    requires Inv(s) && s.batch != [] && s.heap[HeadOf(s)].kind == Connect && errvalue != 0
    ensures var p := HeadOf(s); var st := Apply(s, Continue(SoError(errvalue, errno)));
      && st.Running?
      && (LogOf(st.reactor, p) == [] <==> errno == EINPROGRESS)
      && ((LogOf(st.reactor, p) != [] && LogOf(st.reactor, p)[0].outcome.error == errvalue)
          <==> errno == errvalue && errno != EINPROGRESS)
      && (LogOf(st.reactor, p) != [] ==>
            (AwaitResume(true, LogOf(st.reactor, p)[0].outcome) == ReturnedVoid <==> errno == 0))
  {
    HeadInHand(s);
    var sys := SoError(errvalue, errno);
    if errno != EINPROGRESS {
      ContinueKeeps(s, sys);
    }
  }

  /** The next continuation, which is alive. */
  ghost function HeadOf(s: Reactor): (p: Ptr)
    requires Inv(s) && s.batch != []
    ensures p in s.heap
  {
    assert LocalInv(s, s.batch[0]) && s.batch[0] in s.batch;
    s.batch[0]
  }

  // ----- Simulation of the abstract life -----

  predicate IsVoid(kind: Kind) {
    kind !in {Read, Write, Accept}
  }

  function LifeOf(s: Reactor, p: Ptr): Life {
    if p >= s.next then Unborn
    else if p !in s.heap then Destroyed
    else if p !in s.awaited then Created
    else if LogOf(s, p) == [] then Suspended
    else Life.Done(AwaitResume(IsVoid(s.heap[p].kind), LogOf(s, p)[0].outcome))
  }

  /** The histories of t extend those of s. */
  ghost predicate Continues(s: Reactor, t: Reactor) {
    && s.awaited == t.awaited && s.next == t.next && s.heap.Keys == t.heap.Keys
    && (forall q :: q in s.heap ==> s.heap[q].kind == t.heap[q].kind)
    && forall q :: LogOf(s, q) <= LogOf(t, q)
  }

  lemma ContinuesResume(s: Reactor, t: Reactor, p: Ptr)
    requires Continues(s, t) && Resume(t, p).Running?
    ensures Continues(s, Resume(t, p).reactor)
  {
  }

  /** None of the helpers touches a history. */
  lemma ContinuesHelpers(s: Reactor, p: Ptr)
    requires p in s.heap
    ensures Continues(s, InsertTimeout(s, p)) && Continues(s, Enqueue(s, p)) && Continues(s, CancelTimeout(s, p))
    ensures Continues(s, InsertTimeout(Enqueue(s, p), p))
  {
  }

  lemma ContinuesSetResult(s: Reactor, p: Ptr, o: Outcome)
    requires p in s.heap
    ensures Continues(s, SetResult(s, p, o)) && Continues(s, CancelTimeout(SetResult(s, p, o), p))
  {
  }

  lemma ContinuesThenResume(s: Reactor, p: Ptr)
    requires p in s.heap
    ensures CancelTimeoutThenResume(s, p).Running? ==> Continues(s, CancelTimeoutThenResume(s, p).reactor)
  {
    ContinuesHelpers(s, p);
    if Resume(CancelTimeout(s, p), p).Running? { ContinuesResume(s, CancelTimeout(s, p), p); }
  }

  lemma ContinuesFinish(s: Reactor, p: Ptr, o: Outcome)
    requires p in s.heap
    ensures var st := CancelTimeoutThenResume(SetResult(s, p, o), p); st.Running? ==> Continues(s, st.reactor)
    ensures var st := Resume(SetResult(s, p, o), p); st.Running? ==> Continues(s, st.reactor)
  {
    ContinuesSetResult(s, p, o);
    var t, u := CancelTimeout(SetResult(s, p, o), p), SetResult(s, p, o);
    if Resume(t, p).Running? { ContinuesResume(s, t, p); }
    if Resume(u, p).Running? { ContinuesResume(s, u, p); }
  }

  lemma ContinuesTransfer(s: Reactor, p: Ptr, sys: Sys)
    requires p in s.heap && TryTransfer(s, p, sys).Running?
    ensures Continues(s, TryTransfer(s, p, sys).reactor)
  {
    var r := s.heap[p].result;
    match sys
    case Done(n) => ContinuesFinish(s, p, r.AssignValue(n));
    case Errno(code) =>
      ContinuesHelpers(s, p);
      ContinuesFinish(s, p, r.AssignValue(-1));
      ContinuesFinish(s, p, r.AssignError(code));
  }

  lemma ContinuesConnect(s: Reactor, p: Ptr, sys: Sys)
    requires p in s.heap && TryConnect(s, p, sys).Running?
    ensures Continues(s, TryConnect(s, p, sys).reactor)
  {
    var r := s.heap[p].result;
    match sys
    case Errno(code) => ContinuesFinish(s, p, r.AssignError(code));
    case SoError(_, errno) =>
      ContinuesHelpers(s, p);
      ContinuesThenResume(s, p);
      ContinuesFinish(s, p, r.AssignError(errno));
  }

  lemma ContinuesTry(s: Reactor, p: Ptr, sys: Sys)
    requires p in s.heap && TryOrResume(s, p, sys).Running?
    ensures Continues(s, TryOrResume(s, p, sys).reactor)
  {
    match s.heap[p].kind
    case Close => ContinuesThenResume(s, p);
    case ReadReady => ContinuesThenResume(s, p);
    case WriteReady => ContinuesThenResume(s, p);
    case Sleep =>
    case Connect => ContinuesConnect(s, p, sys);
    case _ => ContinuesTransfer(s, p, sys);
  }

  lemma ContinuesAwaitConnect(s: Reactor, p: Ptr, sys: Sys)
    requires p in s.heap && s.heap[p].kind == Connect && AwaitSuspend(s, p, sys).Running?
    ensures Continues(s, AwaitSuspend(s, p, sys).reactor)
  {
    match sys
    case Done(_) => ContinuesResume(s, s, p);
    case Errno(code) =>
      ContinuesHelpers(s, p);
      ContinuesFinish(s, p, s.heap[p].result.AssignError(code));
  }

  lemma ContinuesAwait(s: Reactor, p: Ptr, sys: Sys)
    requires p in s.heap && AwaitSuspend(s, p, sys).Running?
    ensures Continues(s, AwaitSuspend(s, p, sys).reactor)
  {
    ContinuesHelpers(s, p);
    match s.heap[p].kind
    case Connect => ContinuesAwaitConnect(s, p, sys);
    case ReadReady =>
    case WriteReady =>
    case _ => ContinuesTry(InsertTimeout(s, p), p, sys);
  }

  lemma ContinuesTimedOut(s: Reactor, p: Ptr)
    requires p in s.heap && IopTimedOut(s, p).Running?
    ensures Continues(s, IopTimedOut(s, p).reactor)
  {
  }

  /** Between an event that is neither a creation, an await of p nor its destruction. */
  lemma ContinuedLife(s: Reactor, t: Reactor, p: Ptr)
    requires Inv(s) && Inv(t) && Continues(s, t)
    ensures LifeStep(LifeOf(s, p), LifeOf(t, p))
  {
    assert LocalInv(s, p) && LocalInv(t, p);
  }

  lemma AwaitLife(s: Reactor, p: Ptr, h: Handle, sys: Sys, q: Ptr)
    requires Inv(s) && Apply(s, Await(p, h, sys)).Running? && Inv(Apply(s, Await(p, h, sys)).reactor)
    ensures LifeStep(LifeOf(s, q), LifeOf(Apply(s, Await(p, h, sys)).reactor, q))
  {
    var t := Apply(s, Await(p, h, sys)).reactor;
    var u := s.(heap := s.heap[p := s.heap[p].(handle := Some(h))], awaited := s.awaited + {p});
    ContinuesAwait(u, p, sys);
    assert LocalInv(s, q) && LocalInv(t, q);
  }

  lemma CreateLife(s: Reactor, kind: Kind, fd: int, deadline: Option<int>, p: Ptr)
    requires Inv(s) && Apply(s, Create(kind, fd, deadline)).Running?
    ensures LifeStep(LifeOf(s, p), LifeOf(Apply(s, Create(kind, fd, deadline)).reactor, p))
  {
    assert LocalInv(s, p) && LocalInv(s, s.next);
  }

  lemma DestroyLife(s: Reactor, q: Ptr, p: Ptr)
    requires Inv(s) && Apply(s, Destroy(q)).Running?
    ensures LifeStep(LifeOf(s, p), LifeOf(Apply(s, Destroy(q)).reactor, p))
  {
    assert LocalInv(s, p);
  }

  /** Every guarded step is a step, or a stutter, of every IOP's abstract life. */
  lemma ReactorSimulatesLife(s: Reactor, e: Event, p: Ptr)
    requires Reachable(s) && Benign(s, e) && Apply(s, e).Running?
    ensures LifeStep(LifeOf(s, p), LifeOf(Apply(s, e).reactor, p))
  {
    ReachableIsSound(s);
    ReachableStep(s, e);
    ReachableIsSound(Apply(s, e).reactor);
    StepLife(s, e, p);
  }

  lemma StepLife(s: Reactor, e: Event, p: Ptr)
    requires Inv(s) && Apply(s, e).Running? && Inv(Apply(s, e).reactor)
    ensures LifeStep(LifeOf(s, p), LifeOf(Apply(s, e).reactor, p))
  {
    match e
    case Create(kind, fd, deadline) => CreateLife(s, kind, fd, deadline, p);
    case Await(q, h, sys) => AwaitLife(s, q, h, sys, p);
    case Destroy(q) => DestroyLife(s, q, p);
    case Poll(_, _) => ContinuedLife(s, Apply(s, e).reactor, p);
    case Fire(_) =>
      ContinuesTimedOut(s.(timeouts := s.timeouts[1..]), s.timeouts[0].who);
      ContinuedLife(s, Apply(s, e).reactor, p);
    case Continue(sys) =>
      ContinuesTry(s.(batch := s.batch[1..]), s.batch[0], sys);
      ContinuedLife(s, Apply(s, e).reactor, p);
  }

  /** What a coroutine reads when clear_timeouts resumes it. */
  lemma TimeoutReply(s: Reactor, now: int)
    requires Reachable(s) && s.batch == [] && s.timeouts != [] && s.timeouts[0].at - now < MILLISECOND
    ensures var p := s.timeouts[0].who;
      && p in s.heap && Apply(s, Fire(now)).Running?
      && LifeOf(Apply(s, Fire(now)).reactor, p)
         == Life.Done(if s.heap[p].kind == Sleep then ReturnedVoid else ThrewTimeout)
  {
    ReachableIsSound(s);
    FirstTimerWaits(s);
    FireKeeps(s, now);
    assert LocalInv(s, s.timeouts[0].who);
  }
}
