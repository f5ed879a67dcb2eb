/** In which order the waiters of one descriptor and direction are lined up, and when a newcomer overtakes them. */
module PollOrder {
  import opened Basics
  import opened PollMachine
  import opened PollInvariant
  import opened PollTheorems

  ghost function Waiters(s: Reactor): set<Ptr> {
    set p | p in s.heap && Waiting(s, p)
  }

  /** Those parked at (fd, dir), then those do_poll is still to try: the queue if all of these block again. */
  ghost function Line(s: Reactor, fd: int, dir: Direction): seq<Ptr> {
    Queue(s.requests, fd, dir) + OfHome(s, s.batch, fd, dir)
  }

  /** The members of W in the order of ps. */
  ghost function Keep(ps: seq<Ptr>, W: set<Ptr>): seq<Ptr> {
    if ps == [] then []
    else (if ps[0] in W then [ps[0]] else []) + Keep(ps[1..], W)
  }

  lemma {:induction false} KeepAppend(a: seq<Ptr>, b: seq<Ptr>, W: set<Ptr>)
    ensures Keep(a + b, W) == Keep(a, W) + Keep(b, W)
  {
    if a == [] {
      assert a + b == b;
    } else {
      var first := if a[0] in W then [a[0]] else [];
      assert (a + b)[1..] == a[1..] + b;
      KeepAppend(a[1..], b, W);
      assert first + (Keep(a[1..], W) + Keep(b, W)) == first + Keep(a[1..], W) + Keep(b, W);
    }
  }

  lemma {:induction false} KeepSame(ps: seq<Ptr>, V: set<Ptr>, W: set<Ptr>)
    requires forall p :: p in ps ==> (p in V <==> p in W)
    ensures Keep(ps, V) == Keep(ps, W)
  {
    if ps != [] {
      assert forall p :: p in ps[1..] ==> p in ps;
      KeepSame(ps[1..], V, W);
    }
  }

  lemma {:induction false} KeepAll(ps: seq<Ptr>, W: set<Ptr>)
    requires forall p :: p in ps ==> p in W
    ensures Keep(ps, W) == ps
  {
    if ps != [] {
      assert forall p :: p in ps[1..] ==> p in ps;
      KeepAll(ps[1..], W);
      assert ps == [ps[0]] + ps[1..];
    }
  }

  lemma {:induction false} KeepKeep(ps: seq<Ptr>, V: set<Ptr>, W: set<Ptr>)
    ensures Keep(Keep(ps, V), W) == Keep(ps, V * W)
  {
    if ps != [] {
      KeepKeep(ps[1..], V, W);
      KeepAppend(if ps[0] in V then [ps[0]] else [], Keep(ps[1..], V), W);
    }
  }

  /** When only p has left W, keeping W is erasing p. */
  lemma {:induction false} KeepErases(ps: seq<Ptr>, p: Ptr, W: set<Ptr>)
    requires p !in W && forall q :: q in ps && q != p ==> q in W
    ensures Keep(ps, W) == Erase(ps, p)
  {
    if ps != [] {
      assert forall q :: q in ps[1..] ==> q in ps;
      KeepErases(ps[1..], p, W);
    }
  }

  lemma {:induction false} OfHomeIn(s: Reactor, ps: seq<Ptr>, fd: int, dir: Direction)
    ensures forall p :: p in OfHome(s, ps, fd, dir) ==> p in ps && IsHome(s, p, fd, dir)
  {
    if ps != [] { OfHomeIn(s, ps[1..], fd, dir); }
  }

  lemma {:induction false} SameHomes(s: Reactor, t: Reactor, ps: seq<Ptr>, fd: int, dir: Direction)
    requires forall p :: p in ps ==> (IsHome(s, p, fd, dir) <==> IsHome(t, p, fd, dir))
    ensures OfHome(s, ps, fd, dir) == OfHome(t, ps, fd, dir)
  {
    if ps != [] {
      assert ps[0] in ps && forall p :: p in ps[1..] ==> p in ps;
      SameHomes(s, t, ps[1..], fd, dir);
    }
  }

  /** Everybody in line is waiting. */
  lemma LineWaits(s: Reactor, fd: int, dir: Direction)
    requires Inv(s)
    ensures forall p :: p in Queue(s.requests, fd, dir) || p in s.batch ==> p in Waiters(s) && p in s.awaited
    ensures forall p :: p in Line(s, fd, dir) ==> p in Waiters(s) && p in s.awaited
    ensures forall p :: p in Queue(s.requests, fd, dir) ==> p !in s.batch
  {
    OfHomeIn(s, s.batch, fd, dir);
    forall p | p in Queue(s.requests, fd, dir) || p in s.batch
      ensures p in Waiters(s) && p in s.awaited && (p in Queue(s.requests, fd, dir) ==> p !in s.batch)
    {
      assert LocalInv(s, p);
      assert p in Queue(s.requests, fd, dir) ==> Times(Queue(s.requests, fd, dir), p) > 0;
      assert p in s.batch ==> Times(s.batch, p) > 0;
    }
  }

  /** What is left of the line of s are its members still waiting in t, in the same order; others are new. */
  ghost predicate OrderKept(s: Reactor, t: Reactor, fd: int, dir: Direction) {
    Keep(Line(t, fd, dir), s.awaited) == Keep(Line(s, fd, dir), Waiters(t))
  }

  /** Nobody in line but p is treated differently in t. */
  ghost predicate OthersAlike(s: Reactor, t: Reactor, p: Ptr, fd: int, dir: Direction) {
    forall q :: q in Line(s, fd, dir) || q in s.batch ==> q != p ==>
      q in Waiters(t) && (IsHome(s, q, fd, dir) <==> IsHome(t, q, fd, dir))
  }

  lemma KeepLine(s: Reactor, W: set<Ptr>, fd: int, dir: Direction)
    ensures Keep(Line(s, fd, dir), W) == Keep(Queue(s.requests, fd, dir), W) + Keep(OfHome(s, s.batch, fd, dir), W)
  {
    KeepAppend(Queue(s.requests, fd, dir), OfHome(s, s.batch, fd, dir), W);
  }

  /** A newcomer p may have lined up. */
  lemma ArrivalKeepsOrder(s: Reactor, t: Reactor, p: Ptr, fd: int, dir: Direction)
    requires Inv(s) && t.batch == s.batch && p !in s.awaited && OthersAlike(s, t, p, fd, dir)
    requires var q := Queue(s.requests, fd, dir);
      Queue(t.requests, fd, dir) == q || Queue(t.requests, fd, dir) == q + [p]
    ensures OrderKept(s, t, fd, dir)
  {
    var q := Queue(s.requests, fd, dir);
    LineWaits(s, fd, dir);
    SameHomes(s, t, s.batch, fd, dir);
    KeepAll(Line(s, fd, dir), Waiters(t));
    KeepAll(Line(s, fd, dir), s.awaited);
    KeepLine(s, s.awaited, fd, dir);
    KeepLine(t, s.awaited, fd, dir);
    KeepAppend(q, [p], s.awaited);
  }

  /** p, which is not in the batch, has left the line. */
  lemma DepartureKeepsOrder(s: Reactor, t: Reactor, p: Ptr, fd: int, dir: Direction)
    requires Inv(s) && t.batch == s.batch && p !in s.batch && p !in Waiters(t) && OthersAlike(s, t, p, fd, dir)
    requires Queue(t.requests, fd, dir) == Erase(Queue(s.requests, fd, dir), p)
    ensures OrderKept(s, t, fd, dir)
  {
    var q, b := Queue(s.requests, fd, dir), OfHome(s, s.batch, fd, dir);
    LineWaits(s, fd, dir);
    OfHomeIn(s, s.batch, fd, dir);
    SameHomes(s, t, s.batch, fd, dir);
    KeepErases(q, p, Waiters(t));
    KeepAll(b, Waiters(t));
    KeepAll(b, s.awaited);
    assert multiset(Erase(q, p)) <= multiset(q);
    assert forall x :: x in Erase(q, p) ==> x in multiset(q);
    KeepAll(Erase(q, p), s.awaited);
    KeepLine(s, Waiters(t), fd, dir);
    KeepLine(t, s.awaited, fd, dir);
  }

  lemma KeepAppends(a: seq<Ptr>, b: seq<Ptr>, c: seq<Ptr>, W: set<Ptr>)
    ensures Keep(a + b + c, W) == Keep(a, W) + Keep(b, W) + Keep(c, W)
  {
    KeepAppend(a + b, c, W);
    KeepAppend(a, b, W);
  }

  lemma {:induction false} KeepIn(ps: seq<Ptr>, W: set<Ptr>)
    ensures forall p :: p in Keep(ps, W) ==> p in ps && p in W
  {
    if ps != [] { KeepIn(ps[1..], W); }
  }

  lemma KeepThree(q: seq<Ptr>, me: seq<Ptr>, rest: seq<Ptr>, V: set<Ptr>, W: set<Ptr>)
    requires forall x :: x in q || x in rest ==> x in V && x in W
    requires forall x :: x in me ==> x in V
    ensures Keep(q + Keep(me, W) + rest, V) == Keep(q + me + rest, W)
  {
    var kept := q + Keep(me, W) + rest;
    KeepAppends(q, me, rest, W);
    KeepAll(q, W);
    KeepAll(rest, W);
    KeepIn(me, W);
    assert forall x :: x in kept ==> x in q || x in Keep(me, W) || x in rest;
    KeepAll(kept, V);
  }

  /** The next continuation p was tried: it lined up again or was resumed. */
  lemma AttemptKeepsOrder(s: Reactor, t: Reactor, p: Ptr, fd: int, dir: Direction)
    requires Inv(s) && s.batch == [p] + t.batch && OthersAlike(s, t, p, fd, dir)
    requires var q := Queue(s.requests, fd, dir);
      Queue(t.requests, fd, dir) == if p in Waiters(t) && IsHome(s, p, fd, dir) then q + [p] else q
    ensures OrderKept(s, t, fd, dir)
  {
    var q := Queue(s.requests, fd, dir);
    var me, rest := OfHome(s, [p], fd, dir), OfHome(s, t.batch, fd, dir);
    TriedLine(s, p, t.batch, fd, dir);
    OnlyOnce(s, p, t.batch);
    LineMembers(s, t, p, fd, dir);
    SameHomes(s, t, t.batch, fd, dir);
    assert Queue(t.requests, fd, dir) == q + Keep(me, Waiters(t));
    KeepThree(q, me, rest, s.awaited, Waiters(t));
  }

  lemma TriedLine(s: Reactor, p: Ptr, rest: seq<Ptr>, fd: int, dir: Direction)
    requires s.batch == [p] + rest
    ensures Line(s, fd, dir) == Queue(s.requests, fd, dir) + OfHome(s, [p], fd, dir) + OfHome(s, rest, fd, dir)
  {
    OfHomeAppend(s, [p], rest, fd, dir);
  }

  lemma LineMembers(s: Reactor, t: Reactor, p: Ptr, fd: int, dir: Direction)
    requires Inv(s) && s.batch == [p] + t.batch && OthersAlike(s, t, p, fd, dir)
    ensures forall x :: x in Queue(s.requests, fd, dir) || x in OfHome(s, t.batch, fd, dir)
              ==> x in s.awaited && x in Waiters(t)
    ensures p in s.awaited
  {
    LineWaits(s, fd, dir);
    OnlyOnce(s, p, t.batch);
    OfHomeIn(s, t.batch, fd, dir);
  }

  lemma OnlyOnce(s: Reactor, p: Ptr, rest: seq<Ptr>)
    requires Inv(s) && s.batch == [p] + rest
    ensures p !in rest && forall x :: x in s.batch <==> x == p || x in rest
    ensures forall fd, dir :: p !in Queue(s.requests, fd, dir)
  {
    assert LocalInv(s, p) && Times(s.batch, p) == Times(rest, p) + 1;
    forall fd, dir ensures p !in Queue(s.requests, fd, dir) {
      assert Times(Queue(s.requests, fd, dir), p) == 0;
    }
  }

  lemma SameLineKeepsOrder(s: Reactor, t: Reactor, fd: int, dir: Direction)
    requires Inv(s) && Line(t, fd, dir) == Line(s, fd, dir)
    requires forall p :: p in Waiters(s) ==> p in Waiters(t)
    ensures OrderKept(s, t, fd, dir)
  {
    LineWaits(s, fd, dir);
    KeepAll(Line(s, fd, dir), s.awaited);
    KeepAll(Line(s, fd, dir), Waiters(t));
  }

  lemma PollKeepsLine(s: Reactor, order: seq<int>, revents: map<int, Revents>, fd: int, dir: Direction)
    requires Inv(s) && s.batch == [] && Enumerates(order, s.requests)
    ensures Line(Apply(s, Poll(order, revents)).reactor, fd, dir) == Line(s, fd, dir)
  {
    var t := Apply(s, Poll(order, revents)).reactor;
    MovedWhole(s, order, revents, fd, dir);
    OfHomeSame(s, t, t.batch, fd, dir);
    EitherPart(Queue(t.requests, fd, dir), OfHome(t, t.batch, fd, dir), Queue(s.requests, fd, dir));
  }

  lemma EitherPart(a: seq<Ptr>, b: seq<Ptr>, q: seq<Ptr>)
    requires (a == [] && b == q) || (a == q && b == [])
    ensures a + b == q + []
  {
  }

  lemma PollKeepsOrder(s: Reactor, order: seq<int>, revents: map<int, Revents>, fd: int, dir: Direction)
    requires Inv(s) && Apply(s, Poll(order, revents)).Running?
    ensures OrderKept(s, Apply(s, Poll(order, revents)).reactor, fd, dir)
  {
    PollKeepsLine(s, order, revents, fd, dir);
    SameLineKeepsOrder(s, Apply(s, Poll(order, revents)).reactor, fd, dir);
  }

  lemma CreateKeepsOrder(s: Reactor, kind: Kind, at: int, deadline: Option<int>, fd: int, dir: Direction)
    requires Inv(s) && Apply(s, Create(kind, at, deadline)).Running?
    ensures OrderKept(s, Apply(s, Create(kind, at, deadline)).reactor, fd, dir)
  {
    var t := Apply(s, Create(kind, at, deadline)).reactor;
    assert LocalInv(s, s.next);
    LineWaits(s, fd, dir);
    SameHomes(s, t, s.batch, fd, dir);
    SameLineKeepsOrder(s, t, fd, dir);
  }

  /** What was handled was p alone, so nobody else in line is affected. */
  lemma ParkedAlike(s: Reactor, u: Reactor, st: Status, p: Ptr, fd: int, dir: Direction)
    requires Inv(s) && p in u.heap && MayPark(u, st, p) && st.Running?
    requires u == s.(heap := u.heap, awaited := u.awaited, batch := u.batch) && s.awaited <= u.awaited
    requires u.heap.Keys == s.heap.Keys && p in s.heap && u.heap == s.heap[p := s.heap[p].(handle := u.heap[p].handle)]
    ensures OthersAlike(s, st.reactor, p, fd, dir) && (IsHome(s, p, fd, dir) <==> IsHome(st.reactor, p, fd, dir))
    ensures var q := Queue(s.requests, fd, dir); var q' := Queue(st.reactor.requests, fd, dir);
      q' == q || (q' == q + [p] && IsHome(s, p, fd, dir))
  {
    LineWaits(s, fd, dir);
  }

  lemma AwaitKeepsOrder(s: Reactor, p: Ptr, h: Handle, sys: Sys, fd: int, dir: Direction)
    requires Inv(s) && Apply(s, Await(p, h, sys)).Running?
    ensures OrderKept(s, Apply(s, Await(p, h, sys)).reactor, fd, dir)
  {
    var u := s.(heap := s.heap[p := s.heap[p].(handle := Some(h))], awaited := s.awaited + {p});
    StartRequests(u, p, sys);
    ParkedAlike(s, u, AwaitSuspend(u, p, sys), p, fd, dir);
    ArrivalKeepsOrder(s, Apply(s, Await(p, h, sys)).reactor, p, fd, dir);
  }

  lemma ContinueKeepsOrder(s: Reactor, sys: Sys, fd: int, dir: Direction)
    requires Inv(s) && Apply(s, Continue(sys)).Running? && Inv(Apply(s, Continue(sys)).reactor)
    ensures OrderKept(s, Apply(s, Continue(sys)).reactor, fd, dir)
  {
    var p, u, t := s.batch[0], s.(batch := s.batch[1..]), Apply(s, Continue(sys)).reactor;
    AttemptRequests(u, p, sys);
    assert u.heap == s.heap[p := s.heap[p]];
    ParkedAlike(s, u, TryOrResume(u, p, sys), p, fd, dir);
    assert s.batch == [p] + t.batch;
    OnlyOnce(s, p, t.batch);
    assert LocalInv(t, p);
    assert Times(t.batch, p) == 0;
    assert Times(Queue(t.requests, fd, dir), p) == if Waiting(t, p) && IsHome(t, p, fd, dir) then 1 else 0;
    AttemptKeepsOrder(s, t, p, fd, dir);
  }

  lemma CancelledQueue(s: Reactor, p: Ptr, fd: int, dir: Direction)
    requires Inv(s) && p in s.heap
    ensures Queue(CancelIop(s, p).requests, fd, dir) == Erase(Queue(s.requests, fd, dir), p)
  {
    CancelAtHome(s, p, fd, dir);
    assert !IsHome(s, p, fd, dir) ==> Times(Queue(s.requests, fd, dir), p) == 0 by { assert LocalInv(s, p); }
  }

  lemma CancelAtHome(s: Reactor, p: Ptr, fd: int, dir: Direction)
    requires p in s.heap
    ensures var q := Queue(s.requests, fd, dir);
      Queue(CancelIop(s, p).requests, fd, dir) == if IsHome(s, p, fd, dir) then Erase(q, p) else q
  {
  }

  ghost predicate LeftAlone(s: Reactor, t: Reactor, q: Ptr) {
    && (Waiting(s, q) ==> Waiting(t, q))
    && (forall fd, dir :: IsHome(s, q, fd, dir) <==> IsHome(t, q, fd, dir))
  }

  /** p stopped waiting and was cancelled; nobody else is affected. */
  lemma GoneKeepsOrder(s: Reactor, t: Reactor, p: Ptr, fd: int, dir: Direction)
    requires Inv(s) && p in s.heap && p !in s.batch && !Waiting(t, p)
    requires t.batch == s.batch && t.requests == CancelIop(s, p).requests
    requires forall q :: q != p ==> LeftAlone(s, t, q)
    ensures OrderKept(s, t, fd, dir)
  {
    CancelledQueue(s, p, fd, dir);
    LineWaits(s, fd, dir);
    forall q | q in Line(s, fd, dir) || q in s.batch
      ensures q != p ==> q in Waiters(t) && (IsHome(s, q, fd, dir) <==> IsHome(t, q, fd, dir))
    {
      assert q != p ==> LeftAlone(s, t, q);
    }
    DepartureKeepsOrder(s, t, p, fd, dir);
  }

  lemma DestroyEffect(s: Reactor, p: Ptr)
    requires p in s.heap
    ensures var t := Apply(s, Destroy(p)).reactor;
      t == s.(heap := s.heap - {p}, timeouts := t.timeouts, requests := CancelIop(s, p).requests)
  {
  }

  lemma DestroyKeepsOrder(s: Reactor, p: Ptr, fd: int, dir: Direction)
    requires Inv(s) && p in s.heap && p !in s.batch
    ensures OrderKept(s, Apply(s, Destroy(p)).reactor, fd, dir)
  {
    var t := Apply(s, Destroy(p)).reactor;
    DestroyEffect(s, p);
    forall q | q != p ensures LeftAlone(s, t, q) {}
    GoneKeepsOrder(s, t, p, fd, dir);
  }

  lemma FireEffect(s: Reactor, now: int)
    requires Inv(s) && Apply(s, Fire(now)).Running?
    ensures var p := s.timeouts[0].who; var t := Apply(s, Fire(now)).reactor;
      && p in s.heap && t.heap == s.heap[p := s.heap[p].(result := t.heap[p].result)]
      && t == s.(heap := t.heap, timeouts := s.timeouts[1..], requests := CancelIop(s, p).requests, log := t.log)
      && t.log == s.log[p := LogOf(t, p)] && |LogOf(t, p)| == |LogOf(s, p)| + 1
  {
    var p := s.timeouts[0].who;
    assert s.heap == s.heap[p := s.heap[p]];
  }

  lemma FireKeepsOrder(s: Reactor, now: int, fd: int, dir: Direction)
    requires Inv(s) && Apply(s, Fire(now)).Running?
    ensures OrderKept(s, Apply(s, Fire(now)).reactor, fd, dir)
  {
    var p, t := s.timeouts[0].who, Apply(s, Fire(now)).reactor;
    FireEffect(s, now);
    forall q | q != p ensures LeftAlone(s, t, q) {}
    GoneKeepsOrder(s, t, p, fd, dir);
  }

  /** One guarded step leaves those who stay in line in the same order. */
  lemma StepKeepsOrder(s: Reactor, e: Event, fd: int, dir: Direction)
    requires Inv(s) && Benign(s, e) && Apply(s, e).Running?
    ensures OrderKept(s, Apply(s, e).reactor, fd, dir)
  {
    StepKeeps(s, e);
    match e
    case Create(kind, at, deadline) => CreateKeepsOrder(s, kind, at, deadline, fd, dir);
    case Await(p, h, sys) => AwaitKeepsOrder(s, p, h, sys, fd, dir);
    case Destroy(p) => DestroyKeepsOrder(s, p, fd, dir);
    case Fire(now) => FireKeepsOrder(s, now, fd, dir);
    case Poll(order, revents) => PollKeepsOrder(s, order, revents, fd, dir);
    case Continue(sys) => ContinueKeepsOrder(s, sys, fd, dir);
  }

  // ----- Over runs -----

  lemma AwaitedGrows(s: Reactor, e: Event)
    requires Apply(s, e).Running?
    ensures s.awaited <= Apply(s, e).reactor.awaited
  {
    match e
    case Await(p, h, sys) =>
      StartRequests(s.(heap := s.heap[p := s.heap[p].(handle := Some(h))], awaited := s.awaited + {p}), p, sys);
    case Continue(sys) => AttemptRequests(s.(batch := s.batch[1..]), s.batch[0], sys);
    case _ =>
  }

  /** Nobody who was awaited waits again after having stopped. */
  lemma WaitingIsNotRegained(s: Reactor, e: Event, p: Ptr)
    requires Inv(s) && Apply(s, e).Running? && Inv(Apply(s, e).reactor)
    requires p in s.awaited && p in Waiters(Apply(s, e).reactor)
    ensures p in Waiters(s)
  {
    StepLife(s, e, p);
    assert LocalInv(s, p) && LocalInv(Apply(s, e).reactor, p);
  }

  lemma OrderChain(s: Reactor, t: Reactor, u: Reactor, fd: int, dir: Direction)
    requires Inv(s) && s.awaited <= t.awaited && OrderKept(s, t, fd, dir) && OrderKept(t, u, fd, dir)
    requires forall p :: p in t.awaited && p in Waiters(u) ==> p in Waiters(t)
    ensures OrderKept(s, u, fd, dir)
  {
    var ls, lt, lu := Line(s, fd, dir), Line(t, fd, dir), Line(u, fd, dir);
    KeepKeep(lu, t.awaited, s.awaited);
    assert t.awaited * s.awaited == s.awaited;
    KeepKeep(lt, Waiters(u), s.awaited);
    KeepKeep(lt, s.awaited, Waiters(u));
    assert Waiters(u) * s.awaited == s.awaited * Waiters(u);
    KeepKeep(ls, Waiters(t), Waiters(u));
    LineWaits(s, fd, dir);
    KeepSame(ls, Waiters(t) * Waiters(u), Waiters(u));
  }

  /**
   * Over any guarded run, whatever coroutines do in between: those of one descriptor and direction who wait all the
   * while keep their order among themselves, in the queue, in the batch and back in the queue.
   */
  lemma {:induction false} RunKeepsOrder(es: seq<Event>, more: seq<Event>, fd: int, dir: Direction)
    requires BenignRun(es + more) && Run(es + more).Running?
    ensures BenignRun(es) && Run(es).Running?
    ensures OrderKept(Run(es).reactor, Run(es + more).reactor, fd, dir)
    ensures Run(es).reactor.awaited <= Run(es + more).reactor.awaited
  {
    if more == [] {
      assert es + more == es;
      RunIsSafe(es);
      SameLineKeepsOrder(Run(es).reactor, Run(es).reactor, fd, dir);
    } else {
      var more', e := more[..|more| - 1], more[|more| - 1];
      assert es + more == es + more' + [e];
      RunExtends(es + more', e);
      RunKeepsOrder(es, more', fd, dir);
      RunIsSafe(es);
      RunIsSafe(es + more');
      RunIsSafe(es + more);
      var t := Run(es + more').reactor;
      StepKeepsOrder(t, e, fd, dir);
      AwaitedGrows(t, e);
      forall p | p in t.awaited && p in Waiters(Apply(t, e).reactor) ensures p in Waiters(t) {
        WaitingIsNotRegained(t, e, p);
      }
      OrderChain(Run(es).reactor, t, Apply(t, e).reactor, fd, dir);
    }
  }

  // ----- Lined up in order of arrival? -----

  /** e is an await that parks its completion at (fd, dir). */
  ghost predicate ParksAt(s: Reactor, e: Event, fd: int, dir: Direction) {
    && e.Await? && Apply(s, e).Running?
    && Waiting(Apply(s, e).reactor, e.p) && IsHome(Apply(s, e).reactor, e.p, fd, dir)
  }

  ghost function Arrived(s: Reactor, e: Event, fd: int, dir: Direction): seq<Ptr> {
    if ParksAt(s, e, fd, dir) then [e.p] else []
  }

  /** It parks while do_poll is still to try somebody else of (fd, dir). */
  ghost predicate Overtakes(s: Reactor, e: Event, fd: int, dir: Direction) {
    ParksAt(s, e, fd, dir) && OfHome(s, s.batch, fd, dir) != []
  }

  /** A step takes people out of the line and puts newcomers at its end. */
  ghost predicate LinesUp(s: Reactor, e: Event, fd: int, dir: Direction)
    requires Apply(s, e).Running?
  {
    var t := Apply(s, e).reactor;
    Line(t, fd, dir) == Keep(Line(s, fd, dir), Waiters(t)) + Arrived(s, e, fd, dir)
  }

  lemma AwaitLinesUpIff(s: Reactor, p: Ptr, h: Handle, sys: Sys, fd: int, dir: Direction)
    requires Inv(s) && Apply(s, Await(p, h, sys)).Running? && Inv(Apply(s, Await(p, h, sys)).reactor)
    ensures LinesUp(s, Await(p, h, sys), fd, dir) <==> !Overtakes(s, Await(p, h, sys), fd, dir)
  {
    var u := s.(heap := s.heap[p := s.heap[p].(handle := Some(h))], awaited := s.awaited + {p});
    StartRequests(u, p, sys);
    ParkedAlike(s, u, AwaitSuspend(u, p, sys), p, fd, dir);
    ParkLinesUpIff(s, Apply(s, Await(p, h, sys)).reactor, Await(p, h, sys), fd, dir);
  }

  lemma ParkLinesUpIff(s: Reactor, t: Reactor, e: Event, fd: int, dir: Direction)
    requires Inv(s) && Inv(t) && e.Await? && Apply(s, e) == Running(t) && t.batch == s.batch
    requires OthersAlike(s, t, e.p, fd, dir)
    requires var q := Queue(s.requests, fd, dir); var q' := Queue(t.requests, fd, dir); q' == q || q' == q + [e.p]
    ensures LinesUp(s, e, fd, dir) <==> !Overtakes(s, e, fd, dir)
  {
    QueuedIffParked(s, t, e, fd, dir);
    assert Keep(Line(s, fd, dir), Waiters(t)) == Line(s, fd, dir) by {
      LineWaits(s, fd, dir);
      KeepAll(Line(s, fd, dir), Waiters(t));
    }
    assert OfHome(t, t.batch, fd, dir) == OfHome(s, s.batch, fd, dir) by {
      LineWaits(s, fd, dir);
      SameHomes(s, t, s.batch, fd, dir);
    }
    TailOrNot(Queue(s.requests, fd, dir), OfHome(s, s.batch, fd, dir), e.p);
  }

  lemma QueuedIffParked(s: Reactor, t: Reactor, e: Event, fd: int, dir: Direction)
    requires Inv(s) && Inv(t) && e.Await? && Apply(s, e) == Running(t) && t.batch == s.batch
    requires var q := Queue(s.requests, fd, dir); var q' := Queue(t.requests, fd, dir); q' == q || q' == q + [e.p]
    ensures e.p !in s.batch
    ensures Queue(t.requests, fd, dir) == Queue(s.requests, fd, dir) + Arrived(s, e, fd, dir)
    ensures e.p !in Line(s, fd, dir)
  {
    LineWaits(s, fd, dir);
    assert LocalInv(t, e.p) && LocalInv(s, e.p);
    assert Times(t.batch, e.p) == 0;
    assert Times(Queue(s.requests, fd, dir), e.p) == 0;
  }

  lemma TailOrNot(q: seq<Ptr>, b: seq<Ptr>, p: Ptr)
    requires p !in q + b
    ensures q + [p] + b == q + b + [p] <==> b == []
  {
    if b != [] {
      assert (q + [p] + b)[|q|] == p && (q + b + [p])[|q|] == b[0];
      assert b[0] in q + b;
    }
  }

  /** A step puts newcomers behind everybody iff no await parks while do_poll still has someone of that queue to try. */
  lemma StepLinesUpIff(s: Reactor, e: Event, fd: int, dir: Direction)
    requires Inv(s) && Benign(s, e) && Apply(s, e).Running?
    ensures LinesUp(s, e, fd, dir) <==> !Overtakes(s, e, fd, dir)
  {
    StepKeeps(s, e);
    var t := Apply(s, e).reactor;
    match e
    case Await(p, h, sys) => AwaitLinesUpIff(s, p, h, sys, fd, dir);
    case _ =>
      StepKeepsOrder(s, e, fd, dir);
      OnlyAwaitAwaits(s, e);
      LineWaits(t, fd, dir);
      KeepAll(Line(t, fd, dir), s.awaited);
  }

  lemma OnlyAwaitAwaits(s: Reactor, e: Event)
    requires Apply(s, e).Running? && !e.Await?
    ensures Apply(s, e).reactor.awaited == s.awaited
  {
    match e
    case Continue(sys) => AttemptRequests(s.(batch := s.batch[1..]), s.batch[0], sys);
    case _ =>
  }

  /** Everybody who ever parked at (fd, dir), in the order of their awaits. */
  ghost function Arrivals(es: seq<Event>, fd: int, dir: Direction): seq<Ptr> {
    if es == [] then []
    else
      var es', e := es[..|es| - 1], es[|es| - 1];
      Arrivals(es', fd, dir) + if Run(es').Running? then Arrived(Run(es').reactor, e, fd, dir) else []
  }

  /** Some await of this run overtook someone at (fd, dir). */
  ghost predicate Overtaken(es: seq<Event>, fd: int, dir: Direction) {
    es != [] &&
    var es', e := es[..|es| - 1], es[|es| - 1];
    Overtaken(es', fd, dir) || (Run(es').Running? && Overtakes(Run(es').reactor, e, fd, dir))
  }

  /** The line is made up of those still waiting in the order in which they came. */
  ghost predicate InOrderOfArrival(es: seq<Event>, fd: int, dir: Direction)
    requires Run(es).Running?
  {
    Line(Run(es).reactor, fd, dir) == Keep(Arrivals(es, fd, dir), Waiters(Run(es).reactor))
  }

  /** And it was so after every step. */
  ghost predicate LinedUpInOrder(es: seq<Event>, fd: int, dir: Direction)
    requires Run(es).Running?
  {
    && InOrderOfArrival(es, fd, dir)
    && (es != [] ==> Run(es[..|es| - 1]).Running? && LinedUpInOrder(es[..|es| - 1], fd, dir))
  }

  /** Those who arrived were awaited. */
  lemma {:induction false} ArrivalsAwaited(es: seq<Event>, fd: int, dir: Direction)
    requires Run(es).Running?
    ensures forall p :: p in Arrivals(es, fd, dir) ==> p in Run(es).reactor.awaited
  {
    if es != [] {
      var es', e := es[..|es| - 1], es[|es| - 1];
      ArrivalsAwaited(es', fd, dir);
      AwaitedGrows(Run(es').reactor, e);
    }
  }

  /** One more step after those who arrived so far. */
  lemma NextInOrderIff(s: Reactor, e: Event, arrivals: seq<Ptr>, fd: int, dir: Direction)
    requires Inv(s) && Benign(s, e) && Apply(s, e).Running?
    requires Line(s, fd, dir) == Keep(arrivals, Waiters(s)) && forall p :: p in arrivals ==> p in s.awaited
    ensures var t := Apply(s, e).reactor;
      Line(t, fd, dir) == Keep(arrivals + Arrived(s, e, fd, dir), Waiters(t)) <==> !Overtakes(s, e, fd, dir)
  {
    var t, new' := Apply(s, e).reactor, Arrived(s, e, fd, dir);
    StepKeeps(s, e);
    StepLinesUpIff(s, e, fd, dir);
    KeepAppend(arrivals, new', Waiters(t));
    KeepAll(new', Waiters(t));
    KeepKeep(arrivals, Waiters(s), Waiters(t));
    forall p | p in arrivals ensures p in Waiters(t) ==> p in Waiters(s) {
      if p in Waiters(t) { WaitingIsNotRegained(s, e, p); }
    }
    KeepSame(arrivals, Waiters(s) * Waiters(t), Waiters(t));
  }

  /** Over a whole run everybody is lined up in order of arrival at every step iff no await ever overtook someone. */
  lemma {:induction false} LinedUpInOrderIff(es: seq<Event>, fd: int, dir: Direction)
    requires BenignRun(es) && Run(es).Running?
    ensures LinedUpInOrder(es, fd, dir) <==> !Overtaken(es, fd, dir)
  {
    if es == [] {
      assert Line(INITIAL, fd, dir) == [];
    } else {
      var es', e := es[..|es| - 1], es[|es| - 1];
      LinedUpInOrderIff(es', fd, dir);
      if LinedUpInOrder(es', fd, dir) {
        RunIsSafe(es');
        ArrivalsAwaited(es', fd, dir);
        NextInOrderIff(Run(es').reactor, e, Arrivals(es', fd, dir), fd, dir);
      }
    }
  }
}
