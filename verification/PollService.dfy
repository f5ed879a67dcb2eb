/** In which order the waiters of one descriptor and direction are served. */
module PollService {
  import opened Basics
  import opened PollMachine
  import opened PollInvariant
  import opened PollTheorems
  import opened PollOrder

  // ----- Pairs in a sequence without repetition -----

  ghost predicate Once(xs: seq<Ptr>) {
    forall x :: Times(xs, x) <= 1
  }

  /** a and b occur in xs, in this order. */
  ghost predicate Before(xs: seq<Ptr>, a: Ptr, b: Ptr) {
    Keep(xs, {a, b}) == [a, b]
  }

  lemma OnceTail(xs: seq<Ptr>)
    requires xs != []
    ensures forall x :: Times(xs, x) == Times(xs[1..], x) + if x == xs[0] then 1 else 0
    ensures Once(xs) ==> Once(xs[1..]) && xs[0] !in xs[1..]
  {
    assert xs == [xs[0]] + xs[1..];
    if Once(xs) {
      assert Times(xs, xs[0]) <= 1;
      forall x ensures Times(xs[1..], x) <= 1 { assert Times(xs, x) <= 1; }
    }
  }

  lemma {:induction false} KeepOne(xs: seq<Ptr>, a: Ptr, b: Ptr)
    requires Times(xs, a) <= 1 && b !in xs
    ensures Keep(xs, {a, b}) == if a in xs then [a] else []
  {
    if xs != [] {
      OnceTail(xs);
      assert xs[0] in xs && forall x :: x in xs[1..] ==> x in xs;
      KeepOne(xs[1..], a, b);
    }
  }

  lemma {:induction false} InOneOrder(xs: seq<Ptr>, a: Ptr, b: Ptr)
    requires Once(xs) && a != b && a in xs && b in xs
    ensures Before(xs, a, b) || Before(xs, b, a)
  {
    OnceTail(xs);
    assert {a, b} == {b, a};
    if xs[0] == a {
      KeepOne(xs[1..], b, a);
    } else if xs[0] == b {
      KeepOne(xs[1..], a, b);
    } else {
      InOneOrder(xs[1..], a, b);
    }
  }

  /** p is the first iff it is before everybody else. */
  lemma FirstIff(xs: seq<Ptr>, p: Ptr)
    requires Once(xs) && p in xs
    ensures xs[0] == p <==> forall q :: q in xs && q != p ==> Before(xs, p, q)
  {
    OnceTail(xs);
    if xs[0] == p {
      forall q | q in xs && q != p ensures Before(xs, p, q) {
        KeepOne(xs[1..], q, p);
        assert {p, q} == {q, p};
      }
    } else {
      assert Keep(xs, {p, xs[0]})[0] == xs[0];
      assert !Before(xs, p, xs[0]);
    }
  }

  lemma {:induction false} KeepTimes(xs: seq<Ptr>, W: set<Ptr>)
    ensures forall x :: Times(Keep(xs, W), x) == if x in W then Times(xs, x) else 0
  {
    if xs != [] {
      KeepTimes(xs[1..], W);
      OnceTail(xs);
    }
  }

  lemma KeepMembers(xs: seq<Ptr>, W: set<Ptr>)
    ensures forall x :: x in Keep(xs, W) <==> x in xs && x in W
  {
    KeepTimes(xs, W);
    forall x ensures x in Keep(xs, W) <==> x in xs && x in W {
      assert x in Keep(xs, W) <==> Times(Keep(xs, W), x) > 0;
      assert x in xs <==> Times(xs, x) > 0;
    }
  }

  lemma BeforeKept(xs: seq<Ptr>, W: set<Ptr>, a: Ptr, b: Ptr)
    requires a in W && b in W
    ensures Keep(Keep(xs, W), {a, b}) == Keep(xs, {a, b})
  {
    KeepKeep(xs, W, {a, b});
    assert W * {a, b} == {a, b};
  }

  // ----- The line and the arrivals have the same members -----

  lemma {:induction false} OfHomeOnce(s: Reactor, ps: seq<Ptr>, fd: int, dir: Direction)
    requires Once(ps)
    ensures Once(OfHome(s, ps, fd, dir))
  {
    if ps != [] {
      OnceTail(ps);
      OfHomeOnce(s, ps[1..], fd, dir);
      OfHomeIn(s, ps[1..], fd, dir);
      var rest := OfHome(s, ps[1..], fd, dir);
      assert ps[0] !in rest;
      forall x ensures Times(OfHome(s, ps, fd, dir), x) <= 1 {
        assert Times([ps[0]] + rest, x) == Times(rest, x) + if x == ps[0] then 1 else 0;
        assert Times(rest, x) <= 1 && (x !in rest ==> Times(rest, x) == 0);
        assert OfHome(s, ps, fd, dir) == rest || OfHome(s, ps, fd, dir) == [ps[0]] + rest;
      }
    }
  }

  /** Nobody stands in line twice. */
  lemma LineOnce(s: Reactor, fd: int, dir: Direction)
    requires Inv(s)
    ensures Once(Queue(s.requests, fd, dir)) && Once(OfHome(s, s.batch, fd, dir)) && Once(Line(s, fd, dir))
    ensures forall x :: x in Queue(s.requests, fd, dir) ==> x !in OfHome(s, s.batch, fd, dir)
  {
    var q, b := Queue(s.requests, fd, dir), OfHome(s, s.batch, fd, dir);
    forall x ensures Times(q, x) <= 1 && Times(s.batch, x) <= 1 { assert LocalInv(s, x); }
    OfHomeOnce(s, s.batch, fd, dir);
    OfHomeIn(s, s.batch, fd, dir);
    LineWaits(s, fd, dir);
    forall x ensures Times(q + b, x) <= 1 {
      assert Times(q + b, x) == Times(q, x) + Times(b, x) && Times(q, x) <= 1 && Times(b, x) <= 1;
      assert x in q <==> Times(q, x) > 0;
      assert x in b <==> Times(b, x) > 0;
    }
  }

  /** Everybody waiting at (fd, dir) is in line, and nobody else. */
  lemma InLineIff(s: Reactor, p: Ptr, fd: int, dir: Direction)
    requires Inv(s)
    ensures p in Line(s, fd, dir) <==> Waiting(s, p) && IsHome(s, p, fd, dir)
  {
    var q := Queue(s.requests, fd, dir);
    LineWaits(s, fd, dir);
    OfHomeIn(s, s.batch, fd, dir);
    assert LocalInv(s, p);
    assert p in q <==> Times(q, p) > 0;
    if Waiting(s, p) && IsHome(s, p, fd, dir) && p !in q {
      assert Times(s.batch, p) == 1 && p in s.batch;
      HomeListed(s, s.batch, p, fd, dir);
    }
  }

  lemma {:induction false} HomeListed(s: Reactor, ps: seq<Ptr>, p: Ptr, fd: int, dir: Direction)
    requires p in ps && IsHome(s, p, fd, dir)
    ensures p in OfHome(s, ps, fd, dir)
  {
    if ps[0] != p { HomeListed(s, ps[1..], p, fd, dir); }
  }

  lemma ArrivalsStep(es: seq<Event>, fd: int, dir: Direction)
    requires es != [] && Run(es).Running?
    ensures var es', e := es[..|es| - 1], es[|es| - 1];
      Run(es').Running? && Arrivals(es, fd, dir) == Arrivals(es', fd, dir) + Arrived(Run(es').reactor, e, fd, dir)
  {
  }

  /** Those in line who were awaited before the last step were in line before it. */
  lemma StillInLine(s: Reactor, e: Event, p: Ptr, fd: int, dir: Direction)
    requires Inv(s) && Benign(s, e) && Apply(s, e).Running? && p in s.awaited
    ensures p in Line(Apply(s, e).reactor, fd, dir) <==> p in Line(s, fd, dir) && p in Waiters(Apply(s, e).reactor)
  {
    var t := Apply(s, e).reactor;
    StepKeeps(s, e);
    StepKeepsOrder(s, e, fd, dir);
    LineWaits(t, fd, dir);
    KeepMembers(Line(t, fd, dir), s.awaited);
    KeepMembers(Line(s, fd, dir), Waiters(t));
  }

  lemma OnlyOneIsAwaited(s: Reactor, e: Event, p: Ptr)
    requires Apply(s, e).Running? && p in Apply(s, e).reactor.awaited && p !in s.awaited
    ensures e.Await? && e.p == p
  {
    if e.Await? {
      StartRequests(s.(heap := s.heap[e.p := s.heap[e.p].(handle := Some(e.h))], awaited := s.awaited + {e.p}), e.p, e.sys);
    } else {
      OnlyAwaitAwaits(s, e);
    }
  }

  /** Whoever is in line has arrived, once; whoever has arrived and still waits is in line. */
  lemma {:induction false} LineIsArrivals(es: seq<Event>, s: Reactor, fd: int, dir: Direction)
    requires BenignRun(es) && Run(es) == Running(s)
    ensures Once(Arrivals(es, fd, dir)) && forall p :: p in Arrivals(es, fd, dir) ==> p in s.awaited
    ensures forall p :: p in Line(s, fd, dir) <==> p in Arrivals(es, fd, dir) && p in Waiters(s)
  {
    if es == [] {
      assert Line(s, fd, dir) == [];
    } else {
      var es', e := es[..|es| - 1], es[|es| - 1];
      var s' := Run(es').reactor;
      LineIsArrivals(es', s', fd, dir);
      ArrivalsAwaited(es, fd, dir);
      RunIsSafe(es');
      ArrivalsStep(es, fd, dir);
      ArrivedOnce(s', e, Arrivals(es', fd, dir), fd, dir);
      forall p ensures p in Line(s, fd, dir) <==> p in Arrivals(es, fd, dir) && p in Waiters(s) {
        InLineNow(es', s', e, s, p, fd, dir);
      }
    }
  }

  lemma ArrivedOnce(s: Reactor, e: Event, arrivals: seq<Ptr>, fd: int, dir: Direction)
    requires Once(arrivals) && forall p :: p in arrivals ==> p in s.awaited
    ensures Once(arrivals + Arrived(s, e, fd, dir))
  {
    forall x ensures Times(arrivals + Arrived(s, e, fd, dir), x) <= 1 {
      assert Times(arrivals, x) <= 1 && (x !in arrivals ==> Times(arrivals, x) == 0);
      assert Times(Arrived(s, e, fd, dir), x) <= 1;
      assert x in Arrived(s, e, fd, dir) ==> x !in s.awaited;
    }
  }

  lemma InLineNow(es': seq<Event>, s': Reactor, e: Event, s: Reactor, p: Ptr, fd: int, dir: Direction)
    requires Inv(s') && Benign(s', e) && Apply(s', e) == Running(s)
    requires forall x :: x in Line(s', fd, dir) <==> x in Arrivals(es', fd, dir) && x in Waiters(s')
    requires forall x :: x in Arrivals(es', fd, dir) ==> x in s'.awaited
    ensures p in Line(s, fd, dir)
       <==> p in Arrivals(es', fd, dir) + Arrived(s', e, fd, dir) && p in Waiters(s)
  {
    StepKeeps(s', e);
    LineWaits(s, fd, dir);
    InLineIff(s, p, fd, dir);
    if p in s'.awaited {
      StillInLine(s', e, p, fd, dir);
      if p in Waiters(s) { WaitingIsNotRegained(s', e, p); }
    } else if p in s.awaited {
      OnlyOneIsAwaited(s', e, p);
    }
  }

  // ----- Who overtook whom -----

  /** c parked while do_poll was still to try b. */
  ghost predicate Overtook(es: seq<Event>, c: Ptr, b: Ptr, fd: int, dir: Direction) {
    es != [] &&
    var es', e := es[..|es| - 1], es[|es| - 1];
    || Overtook(es', c, b, fd, dir)
    || (Run(es').Running? && OvertakesOne(Run(es').reactor, e, c, b, fd, dir))
  }

  ghost predicate OvertakesOne(s: Reactor, e: Event, c: Ptr, b: Ptr, fd: int, dir: Direction) {
    ParksAt(s, e, fd, dir) && e.p == c && b in OfHome(s, s.batch, fd, dir)
  }

  lemma BeforeExtends(xs: seq<Ptr>, ys: seq<Ptr>, a: Ptr, b: Ptr)
    requires a !in ys && b !in ys
    ensures Keep(xs + ys, {a, b}) == Keep(xs, {a, b})
  {
    KeepAppend(xs, ys, {a, b});
    KeepNone(ys, {a, b});
  }

  lemma {:induction false} KeepNone(xs: seq<Ptr>, W: set<Ptr>)
    requires forall x :: x in xs ==> x !in W
    ensures Keep(xs, W) == []
  {
    if xs != [] {
      assert xs[0] in xs && forall x :: x in xs[1..] ==> x in xs;
      KeepNone(xs[1..], W);
    }
  }

  lemma KeepAround(u: seq<Ptr>, p: Ptr, h: seq<Ptr>, q: Ptr)
    requires p !in u && p !in h && q != p && (q in u <==> q !in h) && Times(u, q) <= 1 && Times(h, q) <= 1
    ensures Keep(u + [p] + h, {p, q}) == if q in h then [p, q] else [q, p]
  {
    KeepAppends(u, [p], h, {p, q});
    KeepOther(u, q, p);
    KeepOther(h, q, p);
    KeepJust(p, {p, q});
  }

  lemma KeepOther(xs: seq<Ptr>, a: Ptr, b: Ptr)
    requires Times(xs, a) <= 1 && b !in xs
    ensures Keep(xs, {b, a}) == if a in xs then [a] else []
  {
    KeepOne(xs, a, b);
    assert {b, a} == {a, b};
  }

  lemma KeepJust(p: Ptr, W: set<Ptr>)
    requires p in W
    ensures Keep([p], W) == [p]
  {
    assert [p][1..] == [];
  }

  lemma OnceAround(u: seq<Ptr>, p: Ptr, h: seq<Ptr>, q: Ptr)
    requires Once(u + [p] + h) && q != p && q in u + [p] + h
    ensures p !in u && p !in h && (q in u <==> q !in h) && Times(u, q) <= 1 && Times(h, q) <= 1
  {
    assert forall x :: Times(u + [p] + h, x) == Times(u, x) + Times([p], x) + Times(h, x);
    assert Times(u + [p] + h, p) <= 1 && Times([p], p) == 1;
    assert Times(u + [p] + h, q) <= 1 && Times([p], q) == 0;
    assert forall x :: (x in u <==> Times(u, x) > 0) && (x in h <==> Times(h, x) > 0);
  }

  /** Of two, the one appended came second. */
  lemma NewcomerIsSecond(xs: seq<Ptr>, a: Ptr, b: Ptr, c: Ptr)
    requires Once(xs) && a != b && c !in xs && (c == a || c == b) && Before(xs + [c], a, b)
    ensures c == b && a in xs
  {
    KeepMembers(xs + [c], {a, b});
    assert a in [a, b] && b in [a, b];
    if c == a { BeforeNewcomer(xs, b, a); }
  }

  lemma BeforeNewcomer(xs: seq<Ptr>, a: Ptr, c: Ptr)
    requires Once(xs) && a in xs && c !in xs
    ensures Before(xs + [c], a, c) && !Before(xs + [c], c, a)
  {
    KeepAppend(xs, [c], {a, c});
    KeepOne(xs, a, c);
    assert Times(xs, a) <= 1;
    assert Keep([c], {a, c}) == [c] by { assert [c][1..] == []; }
    assert {a, c} == {c, a};
  }

  /** Whoever was overtaken had come earlier. */
  lemma {:induction false} OvertookLater(es: seq<Event>, s: Reactor, c: Ptr, b: Ptr, fd: int, dir: Direction)
    requires BenignRun(es) && Run(es) == Running(s) && Overtook(es, c, b, fd, dir)
    ensures c in Arrivals(es, fd, dir) && b in Arrivals(es, fd, dir) && c != b
    ensures Before(Arrivals(es, fd, dir), b, c)
  {
    var es', e := es[..|es| - 1], es[|es| - 1];
    var s' := Run(es').reactor;
    ArrivalsStep(es, fd, dir);
    LineIsArrivals(es', s', fd, dir);
    if Overtook(es', c, b, fd, dir) {
      OvertookLater(es', s', c, b, fd, dir);
      BeforeExtends(Arrivals(es', fd, dir), Arrived(s', e, fd, dir), b, c);
    } else {
      assert b in Line(s', fd, dir);
      BeforeNewcomer(Arrivals(es', fd, dir), b, c);
    }
  }

  /** Before b came, a was there; they stand in line in that order unless b overtook a. */
  lemma {:induction false} LinePairs(es: seq<Event>, s: Reactor, a: Ptr, b: Ptr, fd: int, dir: Direction)
    requires BenignRun(es) && Run(es) == Running(s) && a != b
    requires a in Line(s, fd, dir) && b in Line(s, fd, dir) && Before(Arrivals(es, fd, dir), a, b)
    ensures Keep(Line(s, fd, dir), {a, b}) == if Overtook(es, b, a, fd, dir) then [b, a] else [a, b]
  {
    if es != [] {
      var es', e := es[..|es| - 1], es[|es| - 1];
      var s' := Run(es').reactor;
      RunIsSafe(es');
      LineIsArrivals(es', s', fd, dir);
      LineIsArrivals(es, s, fd, dir);
      ArrivalsStep(es, fd, dir);
      if a in s'.awaited && b in s'.awaited {
        OldPair(es', s', e, s, a, b, fd, dir);
        LinePairs(es', s', a, b, fd, dir);
      } else {
        NewPair(es', s', e, s, a, b, fd, dir);
      }
    }
  }

  /** Two who were in line before: nothing about them changes. */
  lemma OldPair(es': seq<Event>, s': Reactor, e: Event, s: Reactor, a: Ptr, b: Ptr, fd: int, dir: Direction)
    requires Inv(s') && Benign(s', e) && Apply(s', e) == Running(s) && a in s'.awaited && b in s'.awaited
    requires a in Line(s, fd, dir) && b in Line(s, fd, dir)
    ensures a in Line(s', fd, dir) && b in Line(s', fd, dir)
    ensures Keep(Line(s, fd, dir), {a, b}) == Keep(Line(s', fd, dir), {a, b})
    ensures var xs := Arrivals(es', fd, dir); Keep(xs + Arrived(s', e, fd, dir), {a, b}) == Keep(xs, {a, b})
    ensures !OvertakesOne(s', e, b, a, fd, dir)
  {
    StepKeeps(s', e);
    StillInLine(s', e, a, fd, dir);
    StillInLine(s', e, b, fd, dir);
    StepKeepsOrder(s', e, fd, dir);
    BeforeKept(Line(s, fd, dir), s'.awaited, a, b);
    BeforeKept(Line(s', fd, dir), Waiters(s), a, b);
    BeforeExtends(Arrivals(es', fd, dir), Arrived(s', e, fd, dir), a, b);
  }

  /** One of them has just come: it is b, and a is in front of it iff a is not in the batch. */
  lemma NewPair(es': seq<Event>, s': Reactor, e: Event, s: Reactor, a: Ptr, b: Ptr, fd: int, dir: Direction)
    requires BenignRun(es') && Run(es') == Running(s') && Inv(s') && Benign(s', e) && Apply(s', e) == Running(s) && a != b
    requires a in Line(s, fd, dir) && b in Line(s, fd, dir) && (a !in s'.awaited || b !in s'.awaited)
    requires forall p :: p in Arrivals(es', fd, dir) ==> p in s'.awaited
    requires Once(Arrivals(es', fd, dir)) && Before(Arrivals(es', fd, dir) + Arrived(s', e, fd, dir), a, b)
    ensures Keep(Line(s, fd, dir), {a, b}) == if OvertakesOne(s', e, b, a, fd, dir) then [b, a] else [a, b]
    ensures !Overtook(es', b, a, fd, dir)
  {
    var c := if a in s'.awaited then b else a;
    NewcomerParked(s', e, s, c, fd, dir);
    NewcomerIsSecond(Arrivals(es', fd, dir), a, b, c);
    StillInLine(s', e, a, fd, dir);
    ParkedLine(s', e, s, fd, dir);
    NewcomerPlace(s', a, b, fd, dir);
    if Overtook(es', b, a, fd, dir) { OvertookLater(es', s', b, a, fd, dir); }
  }

  lemma NewcomerParked(s: Reactor, e: Event, t: Reactor, c: Ptr, fd: int, dir: Direction)
    requires Inv(s) && Benign(s, e) && Apply(s, e) == Running(t) && c in Line(t, fd, dir) && c !in s.awaited
    ensures ParksAt(s, e, fd, dir) && e.p == c && c !in Line(s, fd, dir)
  {
    StepKeeps(s, e);
    LineWaits(t, fd, dir);
    LineWaits(s, fd, dir);
    OnlyOneIsAwaited(s, e, c);
    InLineIff(t, c, fd, dir);
  }

  /** Where the line is when somebody has just parked. */
  lemma ParkedLine(s: Reactor, e: Event, t: Reactor, fd: int, dir: Direction)
    requires Inv(s) && Benign(s, e) && Apply(s, e) == Running(t) && ParksAt(s, e, fd, dir)
    ensures Line(t, fd, dir) == Queue(s.requests, fd, dir) + [e.p] + OfHome(s, s.batch, fd, dir)
  {
    var u := s.(heap := s.heap[e.p := s.heap[e.p].(handle := Some(e.h))], awaited := s.awaited + {e.p});
    StepKeeps(s, e);
    StartRequests(u, e.p, e.sys);
    ParkedAlike(s, u, AwaitSuspend(u, e.p, e.sys), e.p, fd, dir);
    QueuedIffParked(s, t, e, fd, dir);
    LineWaits(s, fd, dir);
    SameHomes(s, t, s.batch, fd, dir);
  }

  lemma NewcomerPlace(s: Reactor, a: Ptr, b: Ptr, fd: int, dir: Direction)
    requires Inv(s) && a in Line(s, fd, dir) && b !in Line(s, fd, dir)
    ensures Keep(Queue(s.requests, fd, dir) + [b] + OfHome(s, s.batch, fd, dir), {a, b})
         == if a in OfHome(s, s.batch, fd, dir) then [b, a] else [a, b]
  {
    var q, h := Queue(s.requests, fd, dir), OfHome(s, s.batch, fd, dir);
    LineOnce(s, fd, dir);
    assert Times(q, a) <= 1 && Times(h, a) <= 1;
    KeepAround(q, b, h, a);
    assert {a, b} == {b, a};
  }

  /** Who came first, told from where they stand and who overtook whom. */
  lemma CameFirstIff(es: seq<Event>, s: Reactor, p: Ptr, q: Ptr, fd: int, dir: Direction)
    requires BenignRun(es) && Run(es) == Running(s) && p != q && p in Line(s, fd, dir) && q in Line(s, fd, dir)
    ensures Before(Arrivals(es, fd, dir), p, q)
       <==> if Before(Line(s, fd, dir), p, q) then !Overtook(es, p, q, fd, dir) else Overtook(es, q, p, fd, dir)
  {
    var xs := Arrivals(es, fd, dir);
    LineIsArrivals(es, s, fd, dir);
    InOneOrder(xs, p, q);
    assert {p, q} == {q, p};
    if Before(xs, p, q) {
      LinePairs(es, s, p, q, fd, dir);
      if Overtook(es, p, q, fd, dir) { OvertookLater(es, s, p, q, fd, dir); }
    } else {
      LinePairs(es, s, q, p, fd, dir);
      if Overtook(es, q, p, fd, dir) { OvertookLater(es, s, q, p, fd, dir); }
    }
  }

  // ----- Service -----

  /** do_poll's attempt on the next continuation, which is of (fd, dir), resumes it. */
  ghost predicate ServesNext(s: Reactor, e: Event, fd: int, dir: Direction) {
    && e.Continue? && s.batch != [] && Apply(s, e).Running? && IsHome(s, s.batch[0], fd, dir)
    && LogOf(Apply(s, e).reactor, s.batch[0]) != LogOf(s, s.batch[0])
  }

  /** An await at (fd, dir) is answered at once. */
  ghost predicate AnsweredAtOnce(s: Reactor, e: Event, fd: int, dir: Direction) {
    && e.Await? && Apply(s, e).Running? && IsHome(s, e.p, fd, dir)
    && LogOf(Apply(s, e).reactor, e.p) != LogOf(s, e.p)
  }

  /** Those who wait at (fd, dir) after es, which led to s, in order of arrival. */
  ghost function InOrder(es: seq<Event>, s: Reactor, fd: int, dir: Direction): seq<Ptr> {
    Keep(Arrivals(es, fd, dir), Waiters(s))
  }

  /** The next continuation has waited longest. */
  ghost predicate NextCameFirst(es: seq<Event>, s: Reactor, fd: int, dir: Direction) {
    s.batch != [] && InOrder(es, s, fd, dir) != [] && InOrder(es, s, fd, dir)[0] == s.batch[0]
  }

  /** Whom this step serves has waited longest, or nobody waits. */
  ghost predicate InTurn(es: seq<Event>, s: Reactor, e: Event, fd: int, dir: Direction) {
    && (ServesNext(s, e, fd, dir) ==> NextCameFirst(es, s, fd, dir))
    && (AnsweredAtOnce(s, e, fd, dir) ==> InOrder(es, s, fd, dir) == [])
  }

  ghost predicate ServedInTurn(es: seq<Event>, fd: int, dir: Direction) {
    es == [] ||
    (var es', e := es[..|es| - 1], es[|es| - 1];
     ServedInTurn(es', fd, dir) && (Run(es').Running? ==> InTurn(es', Run(es').reactor, e, fd, dir)))
  }

  /** Somebody is parked who did not overtake the next continuation: he was tried before it and blocked again. */
  ghost predicate SomeParked(es: seq<Event>, s: Reactor, fd: int, dir: Direction)
    requires s.batch != []
  {
    exists q :: q in Queue(s.requests, fd, dir) && !Overtook(es, q, s.batch[0], fd, dir)
  }

  /** Somebody is still to be tried whom the next continuation overtook. */
  ghost predicate SomeOvertaken(es: seq<Event>, s: Reactor, fd: int, dir: Direction)
    requires s.batch != []
  {
    exists q :: q in OfHome(s, s.batch[1..], fd, dir) && Overtook(es, s.batch[0], q, fd, dir)
  }

  /** It serves somebody past a waiter: at once, or past one parked again, or past one it overtook. */
  ghost predicate Jumps(es: seq<Event>, s: Reactor, e: Event, fd: int, dir: Direction) {
    || (AnsweredAtOnce(s, e, fd, dir) && Line(s, fd, dir) != [])
    || (ServesNext(s, e, fd, dir) && (SomeParked(es, s, fd, dir) || SomeOvertaken(es, s, fd, dir)))
  }

  ghost predicate JumpedIn(es: seq<Event>, fd: int, dir: Direction) {
    es != [] &&
    var es', e := es[..|es| - 1], es[|es| - 1];
    JumpedIn(es', fd, dir) || (Run(es').Running? && Jumps(es', Run(es').reactor, e, fd, dir))
  }

  lemma InOrderMembers(es: seq<Event>, s: Reactor, fd: int, dir: Direction)
    requires BenignRun(es) && Run(es) == Running(s)
    ensures Once(InOrder(es, s, fd, dir)) && forall p :: p in InOrder(es, s, fd, dir) <==> p in Line(s, fd, dir)
    ensures forall p, q :: p in Line(s, fd, dir) && q in Line(s, fd, dir) ==>
              (Before(InOrder(es, s, fd, dir), p, q) <==> Before(Arrivals(es, fd, dir), p, q))
  {
    var xs := Arrivals(es, fd, dir);
    LineIsArrivals(es, s, fd, dir);
    KeepMembers(xs, Waiters(s));
    KeepTimes(xs, Waiters(s));
    forall x ensures Times(InOrder(es, s, fd, dir), x) <= 1 { assert Times(xs, x) <= 1; }
    forall p, q | p in Line(s, fd, dir) && q in Line(s, fd, dir)
      ensures Before(InOrder(es, s, fd, dir), p, q) <==> Before(xs, p, q)
    {
      BeforeKept(xs, Waiters(s), p, q);
    }
  }

  /** Where the others stand when p is next in the batch. */
  lemma PlacesAroundNext(s: Reactor, p: Ptr, rest: seq<Ptr>, q: Ptr, fd: int, dir: Direction)
    requires Inv(s) && s.batch == [p] + rest && IsHome(s, p, fd, dir) && q != p && q in Line(s, fd, dir)
    ensures Before(Line(s, fd, dir), p, q) <==> q in OfHome(s, rest, fd, dir)
    ensures q in Queue(s.requests, fd, dir) <==> q !in OfHome(s, rest, fd, dir)
  {
    LineOnce(s, fd, dir);
    TriedLine(s, p, rest, fd, dir);
    assert OfHome(s, [p], fd, dir) == [p] by { assert [p][1..] == []; }
    OnceAround(Queue(s.requests, fd, dir), p, OfHome(s, rest, fd, dir), q);
    KeepAround(Queue(s.requests, fd, dir), p, OfHome(s, rest, fd, dir), q);
  }

  lemma NextInLine(s: Reactor, p: Ptr, rest: seq<Ptr>, fd: int, dir: Direction)
    requires Inv(s) && s.batch == [p] + rest && IsHome(s, p, fd, dir)
    ensures p in Line(s, fd, dir) && p !in Queue(s.requests, fd, dir) && p !in OfHome(s, rest, fd, dir)
    ensures forall q :: q in Line(s, fd, dir) <==>
              q == p || q in Queue(s.requests, fd, dir) || q in OfHome(s, rest, fd, dir)
  {
    TriedLine(s, p, rest, fd, dir);
    OnlyOnce(s, p, rest);
    OfHomeIn(s, rest, fd, dir);
    assert OfHome(s, [p], fd, dir) == [p] by { assert [p][1..] == []; }
  }

  /** The next continuation came first iff all those parked overtook it and it overtook nobody still in the batch. */
  lemma NextCameFirstIff(es: seq<Event>, s: Reactor, fd: int, dir: Direction)
    requires BenignRun(es) && Run(es) == Running(s) && s.batch != [] && IsHome(s, s.batch[0], fd, dir)
    ensures NextCameFirst(es, s, fd, dir) <==> !SomeParked(es, s, fd, dir) && !SomeOvertaken(es, s, fd, dir)
  {
    var p, rest := s.batch[0], s.batch[1..];
    assert s.batch == [p] + rest;
    RunIsSafe(es);
    NextInLine(s, p, rest, fd, dir);
    InOrderMembers(es, s, fd, dir);
    FirstIff(InOrder(es, s, fd, dir), p);
    forall q | q in Line(s, fd, dir) && q != p
      ensures Before(InOrder(es, s, fd, dir), p, q)
         <==> if q in OfHome(s, rest, fd, dir) then !Overtook(es, p, q, fd, dir) else Overtook(es, q, p, fd, dir)
      ensures q in Queue(s.requests, fd, dir) <==> q !in OfHome(s, rest, fd, dir)
    {
      PlacesAroundNext(s, p, rest, q, fd, dir);
      CameFirstIff(es, s, p, q, fd, dir);
    }
  }

  lemma NobodyWaitsIff(es: seq<Event>, s: Reactor, fd: int, dir: Direction)
    requires BenignRun(es) && Run(es) == Running(s)
    ensures InOrder(es, s, fd, dir) == [] <==> Line(s, fd, dir) == []
  {
    InOrderMembers(es, s, fd, dir);
    if InOrder(es, s, fd, dir) != [] { assert InOrder(es, s, fd, dir)[0] in Line(s, fd, dir); }
    if Line(s, fd, dir) != [] { assert Line(s, fd, dir)[0] in InOrder(es, s, fd, dir); }
  }

  /** A step serves in turn iff it does not jump. */
  lemma StepInTurnIff(es: seq<Event>, s: Reactor, e: Event, fd: int, dir: Direction)
    requires BenignRun(es) && Run(es) == Running(s)
    ensures InTurn(es, s, e, fd, dir) <==> !Jumps(es, s, e, fd, dir)
  {
    NobodyWaitsIff(es, s, fd, dir);
    if s.batch != [] && IsHome(s, s.batch[0], fd, dir) {
      NextCameFirstIff(es, s, fd, dir);
    }
  }

  /**
   * Over a whole run everybody is served in order of arrival iff nobody is answered at once past a waiter, no
   * continuation is served past one that was parked again, and no newcomer past one it overtook.
   */
  lemma {:induction false} ServedInTurnIff(es: seq<Event>, fd: int, dir: Direction)
    requires BenignRun(es) && Run(es).Running?
    ensures ServedInTurn(es, fd, dir) <==> !JumpedIn(es, fd, dir)
  {
    if es != [] {
      var es', e := es[..|es| - 1], es[|es| - 1];
      ServedInTurnIff(es', fd, dir);
      StepInTurnIff(es', Run(es').reactor, e, fd, dir);
    }
  }

  // ----- When nobody was ever overtaken -----

  lemma {:induction false} NobodyOvertook(es: seq<Event>, c: Ptr, b: Ptr, fd: int, dir: Direction)
    requires !Overtaken(es, fd, dir)
    ensures !Overtook(es, c, b, fd, dir)
  {
    if es != [] {
      NobodyOvertook(es[..|es| - 1], c, b, fd, dir);
    }
  }

  /** Then the next continuation came first iff nobody is parked, and a step jumps iff it serves past such a one. */
  lemma JumpsWithoutOvertaking(es: seq<Event>, s: Reactor, e: Event, fd: int, dir: Direction)
    requires BenignRun(es) && Run(es) == Running(s) && !Overtaken(es, fd, dir)
    ensures Jumps(es, s, e, fd, dir)
       <==> || (AnsweredAtOnce(s, e, fd, dir) && Line(s, fd, dir) != [])
            || (ServesNext(s, e, fd, dir) && Queue(s.requests, fd, dir) != [])
  {
    if s.batch != [] {
      forall c, b ensures !Overtook(es, c, b, fd, dir) { NobodyOvertook(es, c, b, fd, dir); }
      if Queue(s.requests, fd, dir) != [] { assert Queue(s.requests, fd, dir)[0] in Queue(s.requests, fd, dir); }
    }
  }
}
