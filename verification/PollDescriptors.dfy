/** Which descriptors do_poll hands to poll, told from what coroutines did. */
module PollDescriptors {
  import opened Basics
  import opened PollMachine
  import opened PollInvariant
  import opened PollTheorems

  predicate AtDescriptor(c: Completion, fd: int) {
    c.fd == fd && DirectionOf(c.kind).Some?
  }

  /** e parks a completion of fd, or destroys one, whether it was ever awaited or not. */
  ghost predicate Names(s: Reactor, e: Event, fd: int) {
    match e
    case Await(p, _, _) =>
      && p in s.heap && AtDescriptor(s.heap[p], fd)
      && Apply(s, e).Running? && LogOf(Apply(s, e).reactor, p) == []
    case Destroy(p) => p in s.heap && AtDescriptor(s.heap[p], fd)
    case _ => false
  }

  ghost predicate Named(es: seq<Event>, fd: int) {
    es != [] &&
    var es', e := es[..|es| - 1], es[|es| - 1];
    Named(es', fd) || (Run(es').Running? && Names(Run(es').reactor, e, fd))
  }

  /** Whoever waits at a descriptor, parked or in the batch, has made it a key. */
  ghost predicate WaitersKeyed(s: Reactor) {
    forall p :: Waiting(s, p) && DirectionOf(s.heap[p].kind).Some? ==> s.heap[p].fd in s.requests
  }

  lemma QueuedIsKeyed(s: Reactor, p: Ptr)
    requires Inv(s) && Waiting(s, p) && DirectionOf(s.heap[p].kind).Some? && p !in s.batch
    ensures s.heap[p].fd in s.requests
  {
    var fd, dir := s.heap[p].fd, DirectionOf(s.heap[p].kind).value;
    assert LocalInv(s, p) && IsHome(s, p, fd, dir) && Times(s.batch, p) == 0;
    assert Times(Queue(s.requests, fd, dir), p) == 1;
  }

  /** What an await or an attempt on p alone adds. */
  lemma ParkedKeys(s: Reactor, st: Status, p: Ptr, fd: int)
    requires p in s.heap && MayPark(s, st, p) && st.Running?
    ensures fd in st.reactor.requests ==> fd in s.requests || AtDescriptor(s.heap[p], fd)
    ensures fd in s.requests ==> fd in st.reactor.requests
    ensures forall q :: q != p && q in st.reactor.heap ==>
              q in s.heap && st.reactor.heap[q] == s.heap[q] && LogOf(st.reactor, q) == LogOf(s, q)
  {
  }

  lemma AwaitKeys(s: Reactor, p: Ptr, h: Handle, sys: Sys, fd: int)
    requires Inv(s) && Apply(s, Await(p, h, sys)).Running? && Inv(Apply(s, Await(p, h, sys)).reactor)
    ensures fd in Apply(s, Await(p, h, sys)).reactor.requests <==> fd in s.requests || Names(s, Await(p, h, sys), fd)
  {
    var u := s.(heap := s.heap[p := s.heap[p].(handle := Some(h))], awaited := s.awaited + {p});
    var t := Apply(s, Await(p, h, sys)).reactor;
    StartRequests(u, p, sys);
    ParkedKeys(u, AwaitSuspend(u, p, sys), p, fd);
    assert LocalInv(s, p) && Times(t.batch, p) == 0;
    if Waiting(t, p) && AtDescriptor(t.heap[p], fd) {
      QueuedIsKeyed(t, p);
    }
    if AtDescriptor(s.heap[p], fd) && fd in t.requests && fd !in s.requests {
      NewKeyWaits(u, t, p);
    }
  }

  /** When the requests have a key more, p is parked under it. */
  lemma NewKeyWaits(u: Reactor, t: Reactor, p: Ptr)
    requires p in u.heap && p in t.heap && Inv(t) && t.requests == Enqueue(u, p).requests && t.requests != u.requests
    requires t.heap[p].kind == u.heap[p].kind && t.heap[p].fd == u.heap[p].fd
    ensures LogOf(t, p) == []
  {
    var fd, dir := u.heap[p].fd, DirectionOf(u.heap[p].kind).value;
    assert p in Queue(t.requests, fd, dir) && Times(Queue(t.requests, fd, dir), p) > 0;
    assert LocalInv(t, p);
  }

  /** One step adds exactly the descriptors it names. */
  lemma StepKeys(s: Reactor, e: Event, fd: int)
    requires Inv(s) && WaitersKeyed(s) && Benign(s, e) && Apply(s, e).Running?
    ensures fd in Apply(s, e).reactor.requests <==> fd in s.requests || Names(s, e, fd)
  {
    StepKeeps(s, e);
    match e
    case Await(p, h, sys) => AwaitKeys(s, p, h, sys, fd);
    case Continue(sys) =>
      HeadInHand(s);
      AttemptRequests(s.(batch := s.batch[1..]), s.batch[0], sys);
      ParkedKeys(s.(batch := s.batch[1..]), TryOrResume(s.(batch := s.batch[1..]), s.batch[0], sys), s.batch[0], fd);
      assert Waiting(s, s.batch[0]);
    case Fire(_) =>
      PopTimerEffect(s);
      assert Waiting(s, s.timeouts[0].who);
    case _ =>
  }

  lemma KeyedStays(s: Reactor, e: Event)
    requires Inv(s) && WaitersKeyed(s) && Benign(s, e) && Apply(s, e).Running?
    ensures WaitersKeyed(Apply(s, e).reactor)
  {
    StepKeeps(s, e);
    var t := Apply(s, e).reactor;
    forall p | Waiting(t, p) && DirectionOf(t.heap[p].kind).Some? ensures t.heap[p].fd in t.requests {
      if p !in t.batch {
        QueuedIsKeyed(t, p);
      } else {
        BatchWaited(s, e, p);
        DescriptorsGrow(s, e);
      }
    }
  }

  /** Whoever is in the batch was waiting at the same descriptor before. */
  lemma BatchWaited(s: Reactor, e: Event, p: Ptr)
    requires Inv(s) && Benign(s, e) && Apply(s, e).Running? && p in Apply(s, e).reactor.batch
    requires p in Apply(s, e).reactor.heap && DirectionOf(Apply(s, e).reactor.heap[p].kind).Some?
    ensures Waiting(s, p) && s.heap[p].fd == Apply(s, e).reactor.heap[p].fd && DirectionOf(s.heap[p].kind).Some?
  {
    var t := Apply(s, e).reactor;
    StepKeeps(s, e);
    assert LocalInv(s, p) && LocalInv(t, p);
    match e
    case Poll(_, _) =>
    case Create(_, _, _) => assert LocalInv(s, s.next) && Times(s.batch, p) > 0;
    case Destroy(_) => assert Times(s.batch, p) > 0;
    case Fire(_) =>
    case Await(q, h, sys) =>
      StartRequests(s.(heap := s.heap[q := s.heap[q].(handle := Some(h))], awaited := s.awaited + {q}), q, sys);
      assert Times(s.batch, p) > 0;
    case Continue(sys) =>
      AttemptRequests(s.(batch := s.batch[1..]), s.batch[0], sys);
      assert p in s.batch && Times(s.batch, p) > 0;
  }

  lemma {:induction false} RunKeys(es: seq<Event>, fd: int)
    requires BenignRun(es) && Run(es).Running?
    ensures WaitersKeyed(Run(es).reactor)
    ensures fd in Run(es).reactor.requests <==> Named(es, fd)
  {
    if es != [] {
      var es', e := es[..|es| - 1], es[|es| - 1];
      RunKeys(es', fd);
      RunIsSafe(es');
      StepKeys(Run(es').reactor, e, fd);
      KeyedStays(Run(es').reactor, e);
    }
  }

  // ----- The main results -----

  predicate IsPolled(s: Reactor, order: seq<int>, fd: int) {
    PollFdOf(s.requests, fd) in PollSet(s.requests, order)
  }

  ghost predicate HasWaiter(s: Reactor, fd: int) {
    exists p :: Waiting(s, p) && AtDescriptor(s.heap[p], fd)
  }

  /** A descriptor is in the poll set iff some await parked on it or some iop of it was destroyed. */
  lemma PolledIffNamed(es: seq<Event>, s: Reactor, order: seq<int>, fd: int)
    requires BenignRun(es) && Run(es) == Running(s) && Enumerates(order, s.requests)
    ensures IsPolled(s, order, fd) <==> Named(es, fd)
  {
    RunKeys(es, fd);
    PollSetContents(s.requests, order, PollFdOf(s.requests, fd));
  }

  lemma {:induction false} NamedForEver(es: seq<Event>, more: seq<Event>, fd: int)
    requires Named(es, fd)
    ensures Named(es + more, fd)
  {
    if more == [] {
      assert es + more == es;
    } else {
      NamedForEver(es, more[..|more| - 1], fd);
      assert (es + more)[..|es + more| - 1] == es + more[..|more| - 1];
    }
  }

  /** Once in the poll set it stays there, whatever happens. */
  lemma PolledForEver(es: seq<Event>, more: seq<Event>, s: Reactor, order: seq<int>, fd: int)
    requires BenignRun(es + more) && Run(es + more) == Running(s) && Enumerates(order, s.requests)
    requires Named(es, fd)
    ensures IsPolled(s, order, fd)
  {
    NamedForEver(es, more, fd);
    PolledIffNamed(es + more, s, order, fd);
  }

  /** The poll set is the set of the waiters' descriptors iff every descriptor ever named still has a waiter. */
  lemma PollSetAgreesIff(es: seq<Event>, s: Reactor, order: seq<int>)
    requires BenignRun(es) && Run(es) == Running(s) && Enumerates(order, s.requests)
    ensures (forall fd :: IsPolled(s, order, fd) <==> HasWaiter(s, fd))
       <==> (forall fd :: Named(es, fd) ==> HasWaiter(s, fd))
  {
    RunKeys(es, 0);
    forall fd ensures IsPolled(s, order, fd) <==> Named(es, fd) { PolledIffNamed(es, s, order, fd); }
    forall fd | HasWaiter(s, fd) ensures Named(es, fd) {
      var p :| Waiting(s, p) && AtDescriptor(s.heap[p], fd);
      RunKeys(es, fd);
    }
  }

  /** Nobody needs to have waited: an iop that is made and destroyed leaves its descriptor in the poll set. */
  lemma IdleDescriptorIsPolled(fd: int)
    ensures var es := [Create(Read, fd, None), Destroy(0)];
      && BenignRun(es) && Run(es).Running? && Run(es).reactor.awaited == {}
      && PollSet(Run(es).reactor.requests, [fd]) == [PollFd(fd, false, false)]
      && Named(es, fd) && !HasWaiter(Run(es).reactor, fd)
  {
    var e0, e1 := Create(Read, fd, None), Destroy(0);
    RunExtends([], e0);
    assert [] + [e0] == [e0];
    RunExtends([e0], e1);
    assert [e0] + [e1] == [e0, e1];
    var s := Run([e0, e1]).reactor;
    assert [e0, e1][..1] == [e0] && Names(Run([e0]).reactor, e1, fd);
    assert [fd][..0] == [];
    assert s.heap == map[];
  }
}
