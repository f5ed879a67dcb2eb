/** Runs of the poll registry that do not go as one would like, each from an empty reactor. */
module PollCounterexamples {
  import opened Basics
  import opened PollMachine
  import opened PollInvariant
  import opened PollOrder
  import opened PollService
  import opened PollTheorems

  const WRITABLE := Revents(false, true, false, false, false)

  function PollOnce(fd: int): Event {
    Poll([fd], map[fd := WRITABLE])
  }

  /** One connect at address 0: before each attempt it is in the queue, and poll moves it into the batch. */
  function ConnectQueued(fd: int, deadline: Option<int>, h: Handle, timeouts: seq<Timer>): Reactor {
    Reactor(map[0 := Completion(Connect, fd, deadline, Some(h), FRESH_OUTCOME)], map[fd := Request([], [0])],
            timeouts, [], 1, {0}, map[0 := []])
  }

  function ConnectReady(fd: int, deadline: Option<int>, h: Handle, timeouts: seq<Timer>): Reactor {
    ConnectQueued(fd, deadline, h, timeouts).(requests := map[fd := Request([], [])], batch := [0])
  }

  function TimerOf(deadline: Option<int>): seq<Timer> {
    match deadline case Some(at) => [Timer(at, 0)] case None => []
  }

  lemma Awaits(fd: int, deadline: Option<int>, h: Handle)
    ensures var s := Apply(INITIAL, Create(Connect, fd, deadline));
      && s.Running?
      && Apply(s.reactor, Await(0, h, Errno(EINPROGRESS))) == Running(ConnectQueued(fd, deadline, h, TimerOf(deadline)))
  {
    var s := Apply(INITIAL, Create(Connect, fd, deadline)).reactor;
    var t := Apply(s, Await(0, h, Errno(EINPROGRESS))).reactor;
    assert t.timeouts == TimerOf(deadline);
    assert t.heap == map[0 := Completion(Connect, fd, deadline, Some(h), FRESH_OUTCOME)];
    assert Queue(s.requests, fd, Out) + [0] == [0];
    assert t.requests == s.requests[fd := Request([], [0])] == map[fd := Request([], [0])];
    assert t.awaited == {0} && t.log == map[0 := []];
  }

  lemma Starts(fd: int, deadline: Option<int>, h: Handle)
    ensures var es := [Create(Connect, fd, deadline), Await(0, h, Errno(EINPROGRESS))];
      Run(es) == Running(ConnectQueued(fd, deadline, h, TimerOf(deadline))) && BenignRun(es)
  {
    var e0, e1 := Create(Connect, fd, deadline), Await(0, h, Errno(EINPROGRESS));
    RunExtends([], e0);
    assert [] + [e0] == [e0];
    RunExtends([e0], e1);
    assert [e0] + [e1] == [e0, e1];
    Awaits(fd, deadline, h);
  }

  lemma Polls(fd: int, deadline: Option<int>, h: Handle, timeouts: seq<Timer>)
    ensures Apply(ConnectQueued(fd, deadline, h, timeouts), PollOnce(fd))
         == Running(ConnectReady(fd, deadline, h, timeouts))
  {
    var rs := map[fd := Request([], [0])];
    var revents := map[fd := WRITABLE];
    assert [fd][..0] == [];
    assert Gather(rs, revents, [fd]) == [0];
    assert ClearMatched(rs, revents) == map[fd := Request([], [])];
  }

  /** A run that ends in a connect whose socket error was answered with a stale EINPROGRESS. */
  function RetriedConnect(fd: int, deadline: Option<int>, h: Handle, errvalue: int): seq<Event> {
    [Create(Connect, fd, deadline), Await(0, h, Errno(EINPROGRESS))]
    + [PollOnce(fd)] + [Continue(SoError(errvalue, EINPROGRESS))]
  }

  lemma InsertAgain(w: Timer)
    ensures InsertTimer([w], w) == [w] + [w]
  {
    assert [w][1..] == [];
    assert InsertTimer([], w) == [w];
  }

  lemma QueuesAgain(fd: int, deadline: Option<int>, h: Handle, errvalue: int)
    requires errvalue != 0
    ensures Apply(ConnectReady(fd, deadline, h, TimerOf(deadline)), Continue(SoError(errvalue, EINPROGRESS)))
         == Running(ConnectQueued(fd, deadline, h, TimerOf(deadline) + TimerOf(deadline)))
  {
    var s := ConnectReady(fd, deadline, h, TimerOf(deadline));
    var t := Apply(s, Continue(SoError(errvalue, EINPROGRESS))).reactor;
    assert Queue(s.requests, fd, Out) + [0] == [0];
    assert t.requests == map[fd := Request([], [0])];
    if deadline.Some? {
      InsertAgain(Timer(deadline.value, 0));
      assert t.timeouts == [Timer(deadline.value, 0)] + [Timer(deadline.value, 0)];
    }
  }

  lemma Retries(fd: int, deadline: Option<int>, h: Handle, errvalue: int)
    requires errvalue != 0
    ensures Run(RetriedConnect(fd, deadline, h, errvalue))
         == Running(ConnectQueued(fd, deadline, h, TimerOf(deadline) + TimerOf(deadline)))
    ensures deadline.None? ==> BenignRun(RetriedConnect(fd, deadline, h, errvalue))
  {
    var es := [Create(Connect, fd, deadline), Await(0, h, Errno(EINPROGRESS))];
    Starts(fd, deadline, h);
    RunExtends(es, PollOnce(fd));
    Polls(fd, deadline, h, TimerOf(deadline));
    RunExtends(es + [PollOnce(fd)], Continue(SoError(errvalue, EINPROGRESS)));
    QueuesAgain(fd, deadline, h, errvalue);
  }

  lemma Succeeds(fd: int, h: Handle, errno: int)
    ensures var st := Apply(ConnectReady(fd, None, h, []), Continue(SoError(0, errno)));
      st.Running? && LogOf(st.reactor, 0) == [Resumption(h, FRESH_OUTCOME)]
  {
  }

  /** The socket error is gone once it was read, so a connect that failed comes back as a success. */
  lemma ConnectFailureIsSwallowed(fd: int, h: Handle, errvalue: int, errno: int)
    requires errvalue != 0
    ensures var es := RetriedConnect(fd, None, h, errvalue) + [PollOnce(fd)] + [Continue(SoError(0, errno))];
      && BenignRun(es) && Run(es).Running?
      && LogOf(Run(es).reactor, 0) == [Resumption(h, FRESH_OUTCOME)] && AwaitResume(true, FRESH_OUTCOME) == ReturnedVoid
  {
    var es := RetriedConnect(fd, None, h, errvalue);
    Retries(fd, None, h, errvalue);
    RunExtends(es, PollOnce(fd));
    Polls(fd, None, h, []);
    RunExtends(es + [PollOnce(fd)], Continue(SoError(0, errno)));
    Succeeds(fd, h, errno);
  }

  /** The second timer outlives its iop, and clear_timeouts touches a dead completion. */
  lemma RetryThenDestroyFaults(fd: int, at: int, h: Handle, errvalue: int)
    requires errvalue != 0
    ensures Run(RetriedConnect(fd, Some(at), h, errvalue) + [Destroy(0)] + [Fire(at)]) == Fault
  {
    var es := RetriedConnect(fd, Some(at), h, errvalue);
    Retries(fd, Some(at), h, errvalue);
    RunExtends(es, Destroy(0));
    RunExtends(es + [Destroy(0)], Fire(at));
  }

  lemma FiresTwice(fd: int, at: int, h: Handle)
    ensures var s := Apply(ConnectQueued(fd, Some(at), h, [Timer(at, 0)] + [Timer(at, 0)]), Fire(at));
      && s.Running? && |LogOf(s.reactor, 0)| == 1 && 0 in s.reactor.heap && s.reactor.heap[0].handle.Some?
      && Apply(s.reactor, Fire(at)).Running? && |LogOf(Apply(s.reactor, Fire(at)).reactor, 0)| == 2
  {
    var s := ConnectQueued(fd, Some(at), h, [Timer(at, 0)] + [Timer(at, 0)]);
    assert s.timeouts[1..] == [Timer(at, 0)];
    var t := Apply(s, Fire(at)).reactor;
    assert t.timeouts == [Timer(at, 0)] && t.batch == [];
  }

  /** While the iop lives, the second timer resumes its handle a second time. */
  lemma RetryResumesTwice(fd: int, at: int, h: Handle, errvalue: int)
    requires errvalue != 0
    ensures var st := Run(RetriedConnect(fd, Some(at), h, errvalue) + [Fire(at)] + [Fire(at)]);
      st.Running? && |LogOf(st.reactor, 0)| == 2
  {
    var es := RetriedConnect(fd, Some(at), h, errvalue);
    Retries(fd, Some(at), h, errvalue);
    RunExtends(es, Fire(at));
    RunExtends(es + [Fire(at)], Fire(at));
    FiresTwice(fd, at, h);
  }

  // ----- Two readers of one descriptor -----

  const READABLE := Revents(true, false, false, false, false)

  ghost predicate ReaderAt(s: Reactor, p: Ptr, fd: int) {
    && Waiting(s, p) && p < s.next
    && s.heap[p].kind == Read && s.heap[p].fd == fd && s.heap[p].deadline == None && s.heap[p].handle.Some?
  }

  /** Readers of fd are all there is: some parked, some still to be tried. */
  ghost predicate Readers(s: Reactor, fd: int, queue: seq<Ptr>, batch: seq<Ptr>) {
    && (s.requests == map[fd := Request(queue, [])] || (s.requests == map[] && queue == []))
    && s.batch == batch && s.timeouts == []
    && (forall p :: p in queue || p in batch ==> ReaderAt(s, p, fd))
    && (forall p :: p in s.heap || p in s.awaited || p in s.log ==> p < s.next)
  }

  function ReaderPoll(fd: int): Event {
    Poll([fd], map[fd := READABLE])
  }

  lemma ReaderCreated(s: Reactor, fd: int, queue: seq<Ptr>, batch: seq<Ptr>)
    requires Readers(s, fd, queue, batch)
    ensures var st := Apply(s, Create(Read, fd, None));
      && st.Running? && Readers(st.reactor, fd, queue, batch)
      && st.reactor.next == s.next + 1 && Idle(st.reactor, s.next, fd)
      && forall p :: p != s.next ==> LogOf(st.reactor, p) == LogOf(s, p) && (Idle(s, p, fd) ==> Idle(st.reactor, p, fd))
  {
    var t := Apply(s, Create(Read, fd, None)).reactor;
    forall p | p in queue || p in batch ensures ReaderAt(t, p, fd) {
      assert ReaderAt(s, p, fd);
    }
  }

  /** A reader nobody has awaited yet. */
  ghost predicate Idle(s: Reactor, p: Ptr, fd: int) {
    && p in s.heap && p !in s.awaited && p < s.next && LogOf(s, p) == []
    && s.heap[p].kind == Read && s.heap[p].fd == fd && s.heap[p].deadline == None
  }

  lemma ReaderParks(s: Reactor, fd: int, queue: seq<Ptr>, batch: seq<Ptr>, p: Ptr, h: Handle)
    requires Readers(s, fd, queue, batch) && Idle(s, p, fd)
    ensures var st := Apply(s, Await(p, h, Errno(EAGAIN)));
      && st.Running? && Readers(st.reactor, fd, queue + [p], batch)
      && st.reactor.next == s.next && st.reactor.log == s.log
      && forall q :: q != p && Idle(s, q, fd) ==> Idle(st.reactor, q, fd)
  {
    var t := Apply(s, Await(p, h, Errno(EAGAIN))).reactor;
    assert t.requests == map[fd := Request(queue + [p], [])];
    forall q | q in queue + [p] || q in batch ensures ReaderAt(t, q, fd) {
      assert q != p ==> ReaderAt(s, q, fd);
    }
  }

  lemma ReadersGathered(requests: map<int, Request>, fd: int, queue: seq<Ptr>)
    requires requests == map[fd := Request(queue, [])]
    ensures Gather(requests, map[fd := READABLE], [fd]) == queue && Enumerates([fd], requests)
    ensures ClearMatched(requests, map[fd := READABLE]) == map[fd := Request([], [])]
  {
    assert [fd][..0] == [];
  }

  lemma ReadersPolled(s: Reactor, fd: int, queue: seq<Ptr>)
    requires Readers(s, fd, queue, []) && queue != []
    ensures var st := Apply(s, ReaderPoll(fd));
      && st.Running? && Readers(st.reactor, fd, [], queue) && st.reactor.next == s.next && st.reactor.log == s.log
  {
    ReadersGathered(s.requests, fd, queue);
    var t := Apply(s, ReaderPoll(fd)).reactor;
    forall p | p in queue ensures ReaderAt(t, p, fd) {
      assert ReaderAt(s, p, fd);
    }
  }

  /** The next reader gets its bytes and its coroutine is resumed. */
  lemma ReaderServed(s: Reactor, fd: int, queue: seq<Ptr>, a: Ptr, rest: seq<Ptr>, n: nat)
    requires Readers(s, fd, queue, [a] + rest) && a !in queue && a !in rest
    ensures var st := Apply(s, Continue(Done(n)));
      && st.Running? && Readers(st.reactor, fd, queue, rest) && st.reactor.next == s.next
      && |LogOf(st.reactor, a)| == 1 && forall p :: p != a ==> LogOf(st.reactor, p) == LogOf(s, p)
  {
    assert ReaderAt(s, a, fd) && s.batch[1..] == rest && s.batch[0] == a;
    var t := Apply(s, Continue(Done(n))).reactor;
    forall p | p in queue || p in rest ensures ReaderAt(t, p, fd) {
      assert ReaderAt(s, p, fd);
    }
  }

  lemma ReaderBlocked(s: Reactor, fd: int, queue: seq<Ptr>, a: Ptr, rest: seq<Ptr>)
    requires Readers(s, fd, queue, [a] + rest)
    ensures var st := Apply(s, Continue(Errno(EAGAIN)));
      && st.Running? && Readers(st.reactor, fd, queue + [a], rest) && st.reactor.next == s.next && st.reactor.log == s.log
  {
    assert ReaderAt(s, a, fd) && s.batch[1..] == rest && s.batch[0] == a;
    var t := Apply(s, Continue(Errno(EAGAIN))).reactor;
    assert t.requests == map[fd := Request(queue + [a], [])];
    forall p | p in queue + [a] || p in rest ensures ReaderAt(t, p, fd) {
      assert ReaderAt(s, p, fd);
    }
  }

  // ----- The same over runs -----

  /** es' tells the same about overtaking and jumping in as es. */
  ghost predicate SameHistory(es: seq<Event>, es': seq<Event>, fd: int) {
    && (Overtaken(es', fd, In) <==> Overtaken(es, fd, In))
    && (JumpedIn(es', fd, In) <==> JumpedIn(es, fd, In))
    && forall c, b :: Overtook(es', c, b, fd, In) <==> Overtook(es, c, b, fd, In)
  }

  lemma HistoryExtends(es: seq<Event>, s: Reactor, e: Event, fd: int)
    requires Run(es) == Running(s)
    ensures Overtaken(es + [e], fd, In) <==> Overtaken(es, fd, In) || Overtakes(s, e, fd, In)
    ensures JumpedIn(es + [e], fd, In) <==> JumpedIn(es, fd, In) || Jumps(es, s, e, fd, In)
    ensures forall c, b :: Overtook(es + [e], c, b, fd, In)
                      <==> Overtook(es, c, b, fd, In) || OvertakesOne(s, e, c, b, fd, In)
  {
    assert (es + [e])[..|es|] == es;
  }

  lemma QuietStep(es: seq<Event>, s: Reactor, e: Event, fd: int)
    requires Run(es) == Running(s) && !ServesNext(s, e, fd, In) && !AnsweredAtOnce(s, e, fd, In)
    requires !ParksAt(s, e, fd, In) || s.batch == []
    ensures SameHistory(es, es + [e], fd)
  {
    HistoryExtends(es, s, e, fd);
  }

  lemma OneMoreReader(es: seq<Event>, s: Reactor, fd: int, batch: seq<Ptr>) returns (es': seq<Event>, t: Reactor)
    requires BenignRun(es) && Run(es) == Running(s) && Readers(s, fd, [], batch)
    ensures BenignRun(es') && Run(es') == Running(t) && Readers(t, fd, [], batch) && SameHistory(es, es', fd)
    ensures t.next == s.next + 1 && Idle(t, s.next, fd)
    ensures forall p :: p != s.next ==> LogOf(t, p) == LogOf(s, p) && (Idle(s, p, fd) ==> Idle(t, p, fd))
  {
    var e := Create(Read, fd, None);
    RunExtends(es, e);
    ReaderCreated(s, fd, [], batch);
    QuietStep(es, s, e, fd);
    es', t := es + [e], Apply(s, e).reactor;
  }

  lemma ReaderWaits(es: seq<Event>, s: Reactor, fd: int, queue: seq<Ptr>, p: Ptr, h: Handle)
    returns (es': seq<Event>, t: Reactor)
    requires BenignRun(es) && Run(es) == Running(s) && Readers(s, fd, queue, []) && Idle(s, p, fd)
    ensures BenignRun(es') && Run(es') == Running(t) && Readers(t, fd, queue + [p], []) && SameHistory(es, es', fd)
    ensures t.next == s.next && forall q :: q != p && Idle(s, q, fd) ==> Idle(t, q, fd)
  {
    var e := Await(p, h, Errno(EAGAIN));
    RunExtends(es, e);
    ReaderParks(s, fd, queue, [], p, h);
    QuietStep(es, s, e, fd);
    es', t := es + [e], Apply(s, e).reactor;
  }

  /** Readers 0 and 1 come in this order and both have to wait. */
  lemma TwoReaders(fd: int, h: Handle) returns (es: seq<Event>, s: Reactor)
    ensures BenignRun(es) && Run(es) == Running(s) && s.next == 2 && Readers(s, fd, [0, 1], [])
    ensures SameHistory([], es, fd)
  {
    es, s := OneMoreReader([], INITIAL, fd, []);
    es, s := OneMoreReader(es, s, fd, []);
    es, s := ReaderWaits(es, s, fd, [], 0, h);
    es, s := ReaderWaits(es, s, fd, [] + [0], 1, h);
    assert [] + [0] + [1] == [0, 1];
  }

  lemma PollFinds(es: seq<Event>, s: Reactor, fd: int, queue: seq<Ptr>) returns (es': seq<Event>, t: Reactor)
    requires BenignRun(es) && Run(es) == Running(s) && Readers(s, fd, queue, []) && queue != []
    ensures BenignRun(es') && Run(es') == Running(t) && Readers(t, fd, [], queue) && SameHistory(es, es', fd)
    ensures t.next == s.next && t.log == s.log
  {
    RunExtends(es, ReaderPoll(fd));
    ReadersPolled(s, fd, queue);
    QuietStep(es, s, ReaderPoll(fd), fd);
    es', t := es + [ReaderPoll(fd)], Apply(s, ReaderPoll(fd)).reactor;
  }

  lemma NextBlocks(es: seq<Event>, s: Reactor, fd: int, queue: seq<Ptr>, a: Ptr, rest: seq<Ptr>)
    returns (es': seq<Event>, t: Reactor)
    requires BenignRun(es) && Run(es) == Running(s) && Readers(s, fd, queue, [a] + rest)
    ensures BenignRun(es') && Run(es') == Running(t) && Readers(t, fd, queue + [a], rest) && SameHistory(es, es', fd)
    ensures t.next == s.next && t.log == s.log
  {
    var e := Continue(Errno(EAGAIN));
    RunExtends(es, e);
    assert ReaderAt(s, a, fd);
    ReaderBlocked(s, fd, queue, a, rest);
    QuietStep(es, s, e, fd);
    es', t := es + [e], Apply(s, e).reactor;
  }

  lemma {:induction false} ReadersAtHome(s: Reactor, ps: seq<Ptr>, fd: int)
    requires forall p :: p in ps ==> ReaderAt(s, p, fd)
    ensures OfHome(s, ps, fd, In) == ps
  {
    if ps != [] {
      assert ps[0] in ps && forall p :: p in ps[1..] ==> p in ps;
      ReadersAtHome(s, ps[1..], fd);
    }
  }

  /** The next reader is served: in turn iff all those parked overtook it and it overtook none of the rest. */
  lemma NextIsServed(es: seq<Event>, s: Reactor, fd: int, queue: seq<Ptr>, a: Ptr, rest: seq<Ptr>)
    returns (es': seq<Event>, t: Reactor)
    requires BenignRun(es) && Run(es) == Running(s) && Readers(s, fd, queue, [a] + rest) && a !in queue && a !in rest
    ensures BenignRun(es') && Run(es') == Running(t) && Readers(t, fd, queue, rest) && t.next == s.next
    ensures |LogOf(t, a)| == 1 && forall p :: p != a ==> LogOf(t, p) == LogOf(s, p)
    ensures Overtaken(es', fd, In) <==> Overtaken(es, fd, In)
    ensures forall c, b :: Overtook(es', c, b, fd, In) <==> Overtook(es, c, b, fd, In)
    ensures JumpedIn(es', fd, In)
       <==> || JumpedIn(es, fd, In)
            || (exists q :: q in queue && !Overtook(es, q, a, fd, In))
            || (exists q :: q in rest && Overtook(es, a, q, fd, In))
  {
    var e := Continue(Done(5));
    RunExtends(es, e);
    ReaderServed(s, fd, queue, a, rest, 5);
    HistoryExtends(es, s, e, fd);
    es', t := es + [e], Apply(s, e).reactor;
    JumpsIff(es, s, t, fd, queue, a, rest);
  }

  lemma JumpsIff(es: seq<Event>, s: Reactor, t: Reactor, fd: int, queue: seq<Ptr>, a: Ptr, rest: seq<Ptr>)
    requires Readers(s, fd, queue, [a] + rest) && Apply(s, Continue(Done(5))) == Running(t) && |LogOf(t, a)| == 1
    ensures Jumps(es, s, Continue(Done(5)), fd, In)
       <==> || (exists q :: q in queue && !Overtook(es, q, a, fd, In))
            || (exists q :: q in rest && Overtook(es, a, q, fd, In))
  {
    assert s.batch[0] == a && s.batch[1..] == rest && ReaderAt(s, a, fd);
    assert forall p :: p in rest ==> p in s.batch;
    ReadersAtHome(s, rest, fd);
    assert ServesNext(s, Continue(Done(5)), fd, In);
    assert Queue(s.requests, fd, In) == queue;
  }

  /** A newcomer parks in front of b, which do_poll is still to try. */
  lemma NewcomerOvertakes(es: seq<Event>, s: Reactor, fd: int, b: Ptr, h: Handle) returns (es': seq<Event>, t: Reactor)
    requires BenignRun(es) && Run(es) == Running(s) && Readers(s, fd, [], [b])
    ensures BenignRun(es') && Run(es') == Running(t) && Readers(t, fd, [s.next], [b]) && t.next == s.next + 1
    ensures Overtaken(es', fd, In) && Overtook(es', s.next, b, fd, In) && (JumpedIn(es', fd, In) <==> JumpedIn(es, fd, In))
    ensures s.next != b && forall p: Ptr :: p < s.next ==> LogOf(t, p) == LogOf(s, p)
  {
    assert ReaderAt(s, b, fd);
    var es1, s1 := OneMoreReader(es, s, fd, [b]);
    var e := Await(s.next, h, Errno(EAGAIN));
    RunExtends(es1, e);
    ReaderParks(s1, fd, [], [b], s.next, h);
    es', t := es1 + [e], Apply(s1, e).reactor;
    assert [] + [s.next] == [s.next];
    ParksInFront(s1, t, e, fd, b);
    HistoryExtends(es1, s1, e, fd);
  }

  lemma ParksInFront(s: Reactor, t: Reactor, e: Event, fd: int, b: Ptr)
    requires e.Await? && Apply(s, e) == Running(t) && t.log == s.log
    requires Readers(s, fd, [], [b]) && Readers(t, fd, [e.p], [b])
    ensures Overtakes(s, e, fd, In) && OvertakesOne(s, e, e.p, b, fd, In) && !Jumps([], s, e, fd, In)
    ensures !AnsweredAtOnce(s, e, fd, In)
  {
    assert e.p in [e.p] && ReaderAt(t, e.p, fd);
    assert b in [b] && ReaderAt(s, b, fd);
    ReadersAtHome(s, [b], fd);
  }

  // ----- What can go wrong, and what need not -----

  /** Nobody is overtaken and all are lined up in order, yet the second reader is served and the first still waits. */
  lemma LaterReaderServedFirst(fd: int, h: Handle) returns (es: seq<Event>, s: Reactor)
    ensures BenignRun(es) && Run(es) == Running(s) && Waiting(s, 0) && |LogOf(s, 1)| == 1
    ensures !Overtaken(es, fd, In) && LinedUpInOrder(es, fd, In) && !ServedInTurn(es, fd, In)
  {
    es, s := TwoReaders(fd, h);
    es, s := PollFinds(es, s, fd, [0, 1]);
    assert [0, 1] == [0] + [1] && [1] == [1] + [];
    es, s := NextBlocks(es, s, fd, [], 0, [1]);
    assert 0 in [] + [0];
    es, s := NextIsServed(es, s, fd, [] + [0], 1, []);
    assert ReaderAt(s, 0, fd);
    LinedUpInOrderIff(es, fd, In);
    ServedInTurnIff(es, fd, In);
  }

  /** A newcomer overtakes the second reader, yet all three are served in the order in which they came. */
  lemma OvertakenYetInTurn(fd: int, h: Handle) returns (es: seq<Event>, s: Reactor)
    ensures BenignRun(es) && Run(es) == Running(s) && |LogOf(s, 1)| == 1 && |LogOf(s, 2)| == 1
    ensures Overtaken(es, fd, In) && !LinedUpInOrder(es, fd, In) && ServedInTurn(es, fd, In)
  {
    es, s := FirstOfTwoServed(fd, h);
    es, s := NewcomerOvertakes(es, s, fd, 1, h);
    es, s := BothServed(es, s, fd);
    LinedUpInOrderIff(es, fd, In);
    ServedInTurnIff(es, fd, In);
  }

  lemma FirstOfTwoServed(fd: int, h: Handle) returns (es: seq<Event>, s: Reactor)
    ensures BenignRun(es) && Run(es) == Running(s) && Readers(s, fd, [], [1]) && s.next == 2
    ensures !JumpedIn(es, fd, In)
  {
    es, s := TwoReaders(fd, h);
    es, s := PollFinds(es, s, fd, [0, 1]);
    assert [0, 1] == [0] + [1];
    es, s := NextIsServed(es, s, fd, [], 0, [1]);
  }

  lemma BothServed(es: seq<Event>, s: Reactor, fd: int) returns (es': seq<Event>, t: Reactor)
    requires BenignRun(es) && Run(es) == Running(s) && Readers(s, fd, [2], [1]) && Overtook(es, 2, 1, fd, In)
    ensures BenignRun(es') && Run(es') == Running(t) && |LogOf(t, 1)| == 1 && |LogOf(t, 2)| == 1
    ensures (Overtaken(es', fd, In) <==> Overtaken(es, fd, In)) && (JumpedIn(es', fd, In) <==> JumpedIn(es, fd, In))
  {
    assert [1] == [1] + [] && [2] == [2] + [];
    var es1, s1 := NextIsServed(es, s, fd, [2], 1, []);
    var es2, s2 := PollFinds(es1, s1, fd, [2]);
    es', t := NextIsServed(es2, s2, fd, [], 2, []);
  }

  /** All readers up to the one in front, except reader 1, have had their bytes. */
  ghost predicate OthersServed(s: Reactor, front: Ptr) {
    forall p: Ptr :: p < front && p != 1 ==> |LogOf(s, p)| == 1
  }

  /** Reader 1 waits behind `front`; once that is not reader 0, it has been overtaken by it. */
  ghost predicate StillBehind(es: seq<Event>, s: Reactor, fd: int, front: Ptr) {
    && BenignRun(es) && Run(es) == Running(s) && Readers(s, fd, [front, 1], []) && front != 1
    && s.next == (if front == 0 then 2 else front + 1) && OthersServed(s, front)
    && (front != 0 ==> Overtook(es, front, 1, fd, In))
  }

  lemma FrontIsServed(s: Reactor, t: Reactor, front: Ptr, next: Ptr)
    requires OthersServed(s, front) && |LogOf(t, front)| == 1 && next == if front == 0 then 2 else front + 1
    requires forall p: Ptr :: p != front ==> LogOf(t, p) == LogOf(s, p)
    ensures OthersServed(t, next)
  {
    forall p: Ptr | p < next && p != 1 ensures |LogOf(t, p)| == 1 {
      assert p != front ==> LogOf(t, p) == LogOf(s, p);
    }
  }

  lemma SameServed(s: Reactor, t: Reactor, front: Ptr)
    requires OthersServed(s, front) && forall p: Ptr :: p < front ==> LogOf(t, p) == LogOf(s, p)
    ensures OthersServed(t, front)
  {
    forall p: Ptr | p < front && p != 1 ensures |LogOf(t, p)| == 1 {
      assert LogOf(t, p) == LogOf(s, p);
    }
  }

  /** The reader in front is served. */
  lemma FrontServed(es: seq<Event>, s: Reactor, fd: int, front: Ptr) returns (es': seq<Event>, t: Reactor)
    requires StillBehind(es, s, fd, front)
    ensures BenignRun(es') && Run(es') == Running(t) && Readers(t, fd, [], [1]) && t.next == s.next
    ensures OthersServed(t, s.next) && (front != 0 ==> JumpedIn(es', fd, In))
  {
    var es1, s1 := PollFinds(es, s, fd, [front, 1]);
    assert [front, 1] == [front] + [1];
    es', t := NextIsServed(es1, s1, fd, [], front, [1]);
    FrontIsServed(s, t, front, s.next);
    if front != 0 { assert 1 in [1] && Overtook(es1, front, 1, fd, In); }
  }

  /** A new one parks, and reader 1 has to wait again. */
  lemma NewcomerFirst(es: seq<Event>, s: Reactor, fd: int, h: Handle) returns (es': seq<Event>, t: Reactor)
    requires BenignRun(es) && Run(es) == Running(s) && Readers(s, fd, [], [1]) && OthersServed(s, s.next) && s.next >= 2
    ensures StillBehind(es', t, fd, s.next) && (JumpedIn(es, fd, In) ==> JumpedIn(es', fd, In))
  {
    var es1, s1 := NewcomerOvertakes(es, s, fd, 1, h);
    assert [1] == [1] + [];
    es', t := NextBlocks(es1, s1, fd, [s.next], 1, []);
    SameServed(s, t, s.next);
    assert [s.next] + [1] == [s.next, 1];
  }

  /** And reader 1 is behind again. */
  lemma OnceMore(es: seq<Event>, s: Reactor, fd: int, h: Handle, front: Ptr) returns (es': seq<Event>, t: Reactor)
    requires StillBehind(es, s, fd, front)
    ensures StillBehind(es', t, fd, s.next) && (front != 0 ==> JumpedIn(es', fd, In))
  {
    es', t := FrontServed(es, s, fd, front);
    es', t := NewcomerFirst(es', t, fd, h);
  }

  /**
   * Reader 1, the second to come, can be overtaken for ever: after n rounds, in each of which a newcomer parks in front
   * of it and the reader in front is served, it still waits.
   */
  lemma {:induction false} SecondReaderStarves(fd: int, h: Handle, n: nat) returns (es: seq<Event>, s: Reactor)
    ensures StillBehind(es, s, fd, if n == 0 then 0 else n + 1)
    ensures n > 1 ==> !ServedInTurn(es, fd, In)
  {
    if n == 0 {
      es, s := TwoReaders(fd, h);
    } else {
      var es1, s1 := SecondReaderStarves(fd, h, n - 1);
      es, s := OnceMore(es1, s1, fd, h, if n == 1 then 0 else n);
      ServedInTurnIff(es, fd, In);
    }
  }

  // ----- A destroyed member of the batch -----

  /** The first reader's coroutine destroys the second one's iop, which do_poll tries next. */
  lemma DestroyInBatchFaults(fd: int, h: Handle, sys: Sys) returns (es: seq<Event>, s: Reactor)
    ensures BenignRun(es) && Run(es) == Running(s) && s.batch == [1]
    ensures Run(es + [Destroy(1)] + [Continue(sys)]) == Fault
  {
    es, s := FirstOfTwoServed(fd, h);
    RunExtends(es, Destroy(1));
    RunExtends(es + [Destroy(1)], Continue(sys));
    DeadNext(s, fd, sys);
  }

  lemma DeadNext(s: Reactor, fd: int, sys: Sys)
    requires Readers(s, fd, [], [1])
    ensures Apply(s, Destroy(1)).Running? && Apply(Apply(s, Destroy(1)).reactor, Continue(sys)) == Fault
  {
    assert 1 in [1] && ReaderAt(s, 1, fd);
  }

  /** The batch names p, which was destroyed. */
  ghost predicate DeadInBatch(s: Reactor, p: Ptr) {
    p in s.batch && p !in s.heap && p < s.next
  }

  lemma DestroyLeavesDead(s: Reactor, p: Ptr)
    requires LocalInv(s, p) && p in s.batch && Apply(s, Destroy(p)).Running?
    ensures DeadInBatch(Apply(s, Destroy(p)).reactor, p)
  {
  }

  lemma DeadFaults(s: Reactor, p: Ptr)
    requires DeadInBatch(s, p) && s.batch[0] == p
    ensures forall sys :: Apply(s, Continue(sys)) == Fault
  {
  }

  lemma DeadStays(s: Reactor, e: Event, p: Ptr)
    requires DeadInBatch(s, p) && Apply(s, e).Running?
    ensures DeadInBatch(Apply(s, e).reactor, p)
  {
    match e
    case Await(q, h, sys) =>
      StartRequests(s.(heap := s.heap[q := s.heap[q].(handle := Some(h))], awaited := s.awaited + {q}), q, sys);
    case Continue(sys) =>
      AttemptRequests(s.(batch := s.batch[1..]), s.batch[0], sys);
      assert s.batch == [s.batch[0]] + s.batch[1..];
    case _ =>
  }

  /** Wherever in the batch it was: do_poll never gets past it.  A run either touches it or has not come to it yet. */
  lemma {:induction false} BatchNeverEmpties(es: seq<Event>, s: Reactor, p: Ptr, more: seq<Event>, t: Reactor)
    requires BenignRun(es) && Run(es) == Running(s) && p in s.batch
    requires Run(es + [Destroy(p)] + more) == Running(t)
    ensures DeadInBatch(t, p)
    ensures t.batch[0] == p ==> forall sys :: Apply(t, Continue(sys)) == Fault
  {
    var es1 := es + [Destroy(p)];
    if more == [] {
      RunIsSafe(es);
      assert LocalInv(s, p);
      RunExtends(es, Destroy(p));
      assert es1 + more == es1;
      DestroyLeavesDead(s, p);
    } else {
      var more', e := more[..|more| - 1], more[|more| - 1];
      assert es1 + more == es1 + more' + [e];
      RunExtends(es1 + more', e);
      BatchNeverEmpties(es, s, p, more', Run(es1 + more').reactor);
      DeadStays(Run(es1 + more').reactor, e, p);
    }
    if t.batch[0] == p { DeadFaults(t, p); }
  }
}
