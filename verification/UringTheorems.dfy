/** What every run of the io_uring protocol guarantees. */
module UringTheorems {
  import opened Basics
  import opened Lifecycle
  import opened UringMachine

  // ----- Counters and memory -----

  lemma CounterTellsWhatIsDue(s: Ring, p: Ptr)
    requires Reachable(s) && p in s.heap && InFlight(s, p)
    ensures s.heap[p].iopCount == Due(s, p)
  {
    ReachableIsSound(s);
    assert LocalInv(s, p);
  }

  /** The iop of p was destroyed while its counter still stood at two. */
  ghost predicate DestroyedEarly(es: seq<Event>, p: Ptr) {
    es != [] &&
    var es', e := es[..|es| - 1], es[|es| - 1];
    || DestroyedEarly(es', p)
    || (e == Destroy(p) && Run(es').Running? && p in Run(es').ring.heap && Run(es').ring.heap[p].iopCount == 2)
  }

  /** Its iop was destroyed early and exactly one of its two CQEs is still to come or being executed. */
  ghost predicate AwaitsSecondCqe(es: seq<Event>, p: Ptr)
    requires Run(es).Running?
  {
    DestroyedEarly(es, p) && Due(Run(es).ring, p) == 1
  }

  /** How often an orphan is listed, depending on when its iop was destroyed. */
  ghost predicate OrphanListed(s: Ring, early: bool, p: Ptr) {
    && (early ==> p !in s.owned && p in s.posted && |s.posted[p]| == 2)
    && (p in s.heap && !s.heap[p].iopExists ==>
          if early then Times(s.outstanding, p) == s.heap[p].iopCount - 1
          else s.heap[p].iopCount == 1 && Times(s.outstanding, p) == 1)
  }

  /** Finish takes one off the counter of q; an orphan leaves `outstanding` with its first CQE. */
  lemma FinishListed(before: Ring, s: Ring, q: Ptr, early: bool, p: Ptr)
    requires Inv(before) && OneAhead(before, s, q) && Finish(s, q).Running?
    requires OrphanListed(before, early, p)
    ensures OrphanListed(Finish(s, q).ring, early, p)
  {
    assert LocalInv(before, p) && LocalInv(before, q);
  }

  lemma TakeListed(s: Ring, q: Ptr, i: nat, early: bool, p: Ptr)
    requires Inv(s) && Apply(s, Take(q, i)).Running? && OrphanListed(s, early, p)
    ensures OrphanListed(Apply(s, Take(q, i)).ring, early, p)
  {
    assert LocalInv(s, q);
    TakeIsOneAhead(s, q, i);
    if !(s.heap[q].iopExists && DeliverResult(s.heap[q], s.cqes[q][i]).Some?) {
      FinishListed(s, TakeCqe(s, q, i), q, early, p);
    }
  }

  lemma ReturnListed(s: Ring, early: bool, p: Ptr)
    requires Inv(s) && Apply(s, Return).Running? && OrphanListed(s, early, p)
    ensures OrphanListed(Apply(s, Return).ring, early, p)
  {
    var n := |s.frames| - 1;
    assert s.frames == s.frames[..n] + [s.frames[n]];
    FinishListed(s, s.(frames := s.frames[..n]), s.frames[n], early, p);
  }

  lemma StepListed(s: Ring, e: Event, early: bool, p: Ptr)
    requires Inv(s) && Apply(s, e).Running? && OrphanListed(s, early, p)
    ensures OrphanListed(Apply(s, e).ring,
                         early || (e == Destroy(p) && p in s.heap && s.heap[p].iopCount == 2), p)
  {
    assert LocalInv(s, p);
    match e
    case Take(q, i) => TakeListed(s, q, i, early, p);
    case Return => ReturnListed(s, early, p);
    case _ =>
  }

  lemma {:induction false} RunListed(es: seq<Event>, p: Ptr)
    requires Run(es).Running?
    ensures OrphanListed(Run(es).ring, DestroyedEarly(es, p), p)
  {
    if es != [] {
      var es' := es[..|es| - 1];
      RunIsSafe(es');
      RunListed(es', p);
      StepListed(Run(es').ring, es[|es| - 1], DestroyedEarly(es', p), p);
    }
  }

  /** What is alive with neither an owner nor an entry in `outstanding` is told by the run alone. */
  lemma HalfDrainedIff(es: seq<Event>, p: Ptr)
    requires Run(es).Running?
    ensures HalfDrained(Run(es).ring, p) <==> AwaitsSecondCqe(es, p)
  {
    RunIsSafe(es);
    RunListed(es, p);
    assert LocalInv(Run(es).ring, p);
  }

  /** In how many of the four places an address is found. */
  ghost function Places(es: seq<Event>, p: Ptr): nat
    requires Run(es).Running?
  {
    var s := Run(es).ring;
    (if p in s.owned then 1 else 0)
    + Times(s.outstanding, p)
    + (if AwaitsSecondCqe(es, p) then 1 else 0)
    + Times(s.freed, p)
  }

  /** Between execute calls every completion ever allocated is in exactly one place. */
  lemma MemoryIsAccounted(es: seq<Event>, p: Ptr)
    requires Run(es).Running? && Run(es).ring.frames == []
    ensures Places(es, p) == if p < Run(es).ring.next then 1 else 0
  {
    RunIsSafe(es);
    HalfDrainedIff(es, p);
    assert LocalInv(Run(es).ring, p);
  }

  ghost function Without(heap: map<Ptr, Delivery>, ps: seq<Ptr>): map<Ptr, Delivery> {
    map q | q in heap && q !in ps :: heap[q]
  }

  lemma {:induction false} DeleteAllDeletes(heap: map<Ptr, Delivery>, ps: seq<Ptr>)
    requires forall p :: p in ps ==> p in heap
    requires forall p :: Times(ps, p) <= 1
    ensures DeleteAll(heap, ps) == Some(Without(heap, ps))
  {
    if ps == [] {
      assert Without(heap, ps) == heap;
    } else {
      assert ps == [ps[0]] + ps[1..];
      forall p ensures Times(ps[1..], p) <= 1 { assert Times(ps, p) <= 1; }
      assert Times(ps, ps[0]) <= 1;
      assert ps[0] !in ps[1..];
      DeleteAllDeletes(heap - {ps[0]}, ps[1..]);
      assert Without(heap - {ps[0]}, ps[1..]) == Without(heap, ps);
    }
  }

  /** ~impl never frees twice; it leaves behind the owned and the early orphans whose second CQE is not in. */
  lemma TeardownLeaves(es: seq<Event>)
    requires Run(es).Running?
    ensures var s := Run(es).ring;
      var left := DeleteAll(s.heap, s.outstanding);
      && left.Some?
      && forall p :: p in left.value <==> p in s.owned || AwaitsSecondCqe(es, p)
  {
    var s := Run(es).ring;
    RunIsSafe(es);
    forall p ensures Times(s.outstanding, p) <= 1 && (p in s.outstanding ==> p in s.heap) {
      assert LocalInv(s, p);
    }
    DeleteAllDeletes(s.heap, s.outstanding);
    forall p ensures p in DeleteAll(s.heap, s.outstanding).value <==> p in s.owned || AwaitsSecondCqe(es, p) {
      assert LocalInv(s, p);
      HalfDrainedIff(es, p);
    }
  }

  /** With every iop gone, teardown frees everything iff no iop destroyed early still waits for its second CQE. */
  lemma TeardownFreesAllIff(es: seq<Event>)
    requires Run(es).Running? && Run(es).ring.owned == {}
    ensures var s := Run(es).ring;
      DeleteAll(s.heap, s.outstanding) == Some(map[]) <==> forall p :: !AwaitsSecondCqe(es, p)
  {
    var s := Run(es).ring;
    TeardownLeaves(es);
    var left := DeleteAll(s.heap, s.outstanding).value;
    if forall p :: !AwaitsSecondCqe(es, p) {
      assert left == map[];
    } else {
      var p :| AwaitsSecondCqe(es, p);
      assert p in left;
    }
  }

  lemma RunExtends(es: seq<Event>, e: Event)
    ensures Run(es + [e]) == if Run(es).Running? then Apply(Run(es).ring, e) else Run(es)
  {
    assert (es + [e])[..|es|] == es;
  }

  /** A timed read orphaned before its first CQE and torn down before its second is never freed. */
  lemma TeardownCanLeak()
    ensures var es := [Create(ValueOp, true), Await(0, 7, Submitted([5, -ECANCELED])), Destroy(0), Take(0, 0)];
      && Run(es).Running? && Run(es).ring.frames == [] && Run(es).ring.owned == {}
      && DeleteAll(Run(es).ring.heap, Run(es).ring.outstanding) != Some(map[])
  {
    var e0, e1 := Create(ValueOp, true), Await(0, 7, Submitted([5, -ECANCELED]));
    RunExtends([], e0);
    RunExtends([e0], e1);
    assert [e0] + [e1] == [e0, e1];
    RunExtends([e0, e1], Destroy(0));
    assert [e0, e1] + [Destroy(0)] == [e0, e1, Destroy(0)];
    RunExtends([e0, e1, Destroy(0)], Take(0, 0));
    var es := [e0, e1, Destroy(0), Take(0, 0)];
    assert [e0, e1, Destroy(0)] + [Take(0, 0)] == es;
    assert [] + [e0] == [e0];
    assert Erase([0], 0) == [];
    assert 0 in Run(es).ring.heap;
  }

  // ----- Resumption -----

  /** The CQEs of a completion that would resume it. */
  function Live(deadline: bool, results: seq<int>): multiset<int> {
    if deadline then multiset(results)[-ECANCELED := 0] else multiset(results)
  }

  function Codes(log: seq<Resumption>): multiset<int> {
    if log == [] then multiset{} else Codes(log[..|log| - 1]) + multiset{log[|log| - 1].res}
  }

  /** What the coroutine must read when its completion is resumed by a CQE with this result. */
  function ReplyTo(kind: Kind, res: int): Reply {
    if kind == SleepOp && res == -ETIME then ReturnedVoid
    else if res == -ETIME then ThrewTimeout
    else if res < 0 then ThrewSystem(-res)
    else if kind == ValueOp then Returned(res)
    else ReturnedVoid
  }

  function Lookup<V>(m: map<Ptr, V>, p: Ptr): Option<V> {
    if p in m then Some(m[p]) else None
  }

  /** The first resumption of a live completion hands over the result of the CQE that caused it. */
  ghost predicate ReplyAgrees(d: Option<Delivery>, log: seq<Resumption>) {
    d.Some? ==>
      && (d.value.kind == SleepOp ==> !d.value.deadline)
      && if log == [] then d.value.result == FRESH_OUTCOME
         else AwaitResume(d.value.kind != ValueOp, log[0].outcome) == ReplyTo(d.value.kind, log[0].res)
  }

  /** While its iop lives, a completion has been resumed by exactly the live CQEs executed so far. */
  ghost predicate LogAgrees(d: Option<Delivery>, owned: bool, due: Option<seq<int>>, posted: Option<seq<int>>,
                            log: seq<Resumption>) {
    if posted.None? then log == [] && (due.Some? ==> due.value == [])
    else
      && (owned && d.Some? && due.Some? ==>
            Codes(log) + Live(d.value.deadline, due.value) == Live(d.value.deadline, posted.value))
      && Codes(log) <= Live(|posted.value| == 2, posted.value)
  }

  ghost predicate ResumeOk(s: Ring, p: Ptr) {
    && ReplyAgrees(Lookup(s.heap, p), LogOf(s, p))
    && LogAgrees(Lookup(s.heap, p), p in s.owned, Lookup(s.cqes, p), Lookup(s.posted, p), LogOf(s, p))
  }

  ghost predicate ResumeInv(s: Ring) {
    Inv(s) && forall p :: ResumeOk(s, p)
  }

  lemma CodesAppend(log: seq<Resumption>, r: Resumption)
    ensures Codes(log + [r]) == Codes(log) + multiset{r.res}
  {
    assert (log + [r])[..|log|] == log;
  }

  lemma LiveRemove(deadline: bool, rs: seq<int>, i: nat)
    requires i < |rs|
    ensures Live(deadline, rs) ==
      Live(deadline, RemoveAt(rs, i)) + if deadline && rs[i] == -ECANCELED then multiset{} else multiset{rs[i]}
  {
  }

  /** Everything ResumeOk reads about p, up to losing the owner or the object. */
  ghost predicate SameTale(s: Ring, t: Ring, p: Ptr) {
    && (p in t.owned ==> p in s.owned)
    && (p in t.heap ==>
          && p in s.heap
          && t.heap[p].kind == s.heap[p].kind && t.heap[p].deadline == s.heap[p].deadline
          && t.heap[p].result == s.heap[p].result)
    && Lookup(s.cqes, p) == Lookup(t.cqes, p)
    && Lookup(s.posted, p) == Lookup(t.posted, p)
    && LogOf(s, p) == LogOf(t, p)
  }

  lemma SameTaleSameVerdict(s: Ring, t: Ring, p: Ptr)
    requires ResumeOk(s, p) && SameTale(s, t, p)
    ensures ResumeOk(t, p)
  {
  }

  lemma FinishKeepsResume(s: Ring, p: Ptr)
    requires Finish(s, p).Running?
    requires forall q :: ResumeOk(s, q)
    ensures forall q :: ResumeOk(Finish(s, p).ring, q)
  {
    forall q ensures ResumeOk(Finish(s, p).ring, q) {
      SameTaleSameVerdict(s, Finish(s, p).ring, q);
    }
  }

  /** A CQE that resumes nobody: the iop is gone or the CQE is the cancelled one. */
  lemma SilentCqe(d: Delivery, owned: bool, due: seq<int>, posted: seq<int>, log: seq<Resumption>, i: nat)
    requires i < |due| && LogAgrees(Some(d), owned, Some(due), Some(posted), log)
    requires owned ==> DeliverResult(d, due[i]).None?
    requires d.kind == SleepOp ==> !d.deadline
    ensures LogAgrees(Some(d), owned, Some(RemoveAt(due, i)), Some(posted), log)
  {
    LiveRemove(d.deadline, due, i);
  }

  lemma MoveOne(done: multiset<int>, due: multiset<int>, all: multiset<int>, x: int)
    requires done + (due + multiset{x}) == all
    ensures (done + multiset{x}) + due == all && done + multiset{x} <= all
  {
  }

  lemma LiveIsPosted(deadline: bool, posted: seq<int>)
    requires |posted| == 2 ==> deadline
    ensures Live(deadline, posted) <= Live(|posted| == 2, posted)
  {
  }

  lemma LiveCqe(h: Handle, d: Delivery, due: seq<int>, posted: seq<int>, log: seq<Resumption>, i: nat, o: Outcome)
    requires i < |due| && LogAgrees(Some(d), true, Some(due), Some(posted), log)
    requires d.deadline ==> due[i] != -ECANCELED
    requires |posted| == 2 ==> d.deadline
    ensures LogAgrees(Some(d.(result := o)), true, Some(RemoveAt(due, i)), Some(posted),
                      log + [Resumption(h, due[i], o)])
  {
    LiveRemove(d.deadline, due, i);
    CodesAppend(log, Resumption(h, due[i], o));
    MoveOne(Codes(log), Live(d.deadline, RemoveAt(due, i)), Live(d.deadline, posted), due[i]);
    LiveIsPosted(d.deadline, posted);
  }

  lemma LiveReply(h: Handle, d: Delivery, log: seq<Resumption>, res: int)
    requires ReplyAgrees(Some(d), log) && DeliverResult(d, res).Some?
    ensures var d' := DeliverResult(d, res).value;
      ReplyAgrees(Some(d'), log + [Resumption(h, res, d'.result)])
  {
    if log != [] {
      assert (log + [Resumption(h, res, DeliverResult(d, res).value.result)])[0] == log[0];
    }
  }

  lemma SilentTake(s: Ring, p: Ptr, i: nat)
    requires ResumeInv(s) && p in s.cqes && i < |s.cqes[p]| && p in s.heap
    requires s.heap[p].iopExists ==> DeliverResult(s.heap[p], s.cqes[p][i]).None?
    ensures forall q :: ResumeOk(TakeCqe(s, p, i), q)
  {
    var t := TakeCqe(s, p, i);
    assert LocalInv(s, p) && ResumeOk(s, p);
    SilentCqe(s.heap[p], p in s.owned, s.cqes[p], s.posted[p], LogOf(s, p), i);
    forall q ensures ResumeOk(t, q) {
      assert ResumeOk(s, q);
      if q != p { SameTaleSameVerdict(s, t, q); }
    }
  }

  predicate IsResumingTake(s: Ring, e: Event) {
    && e.Take? && e.p in s.heap && s.heap[e.p].iopExists && e.p in s.cqes && e.i < |s.cqes[e.p]|
    && DeliverResult(s.heap[e.p], s.cqes[e.p][e.i]).Some?
  }

  /** What deliver may do to a completion it resumes. */
  lemma DeliverKeepsRest(d: Delivery, res: int)
    requires DeliverResult(d, res).Some?
    ensures var d' := DeliverResult(d, res).value; d' == d.(result := d'.result)
    ensures d.deadline ==> res != -ECANCELED
  {
  }

  lemma ResumingTakeTale(h: Handle, d: Delivery, d': Delivery, due: seq<int>, posted: seq<int>, log: seq<Resumption>, i: nat)
    requires i < |due| && DeliverResult(d, due[i]) == Some(d')
    requires LogAgrees(Some(d), true, Some(due), Some(posted), log) && (|posted| == 2 ==> d.deadline)
    ensures LogAgrees(Some(d'), true, Some(RemoveAt(due, i)), Some(posted), log + [Resumption(h, due[i], d'.result)])
  {
    DeliverKeepsRest(d, due[i]);
    LiveCqe(h, d, due, posted, log, i, d'.result);
  }

  /** t is s after one CQE of p was executed and its coroutine resumed. */
  ghost predicate ResumedInto(s: Ring, t: Ring, p: Ptr, i: nat) {
    && p in s.heap && p in s.cqes && i < |s.cqes[p]|
    && var d := DeliverResult(s.heap[p], s.cqes[p][i]);
      && d.Some? && d.value.handle.Some?
      && t.heap == s.heap[p := d.value] && t.cqes == s.cqes[p := RemoveAt(s.cqes[p], i)]
      && t.posted == s.posted && t.owned == s.owned && t.next == s.next
      && t.log == s.log[p := LogOf(s, p) + [Resumption(d.value.handle.value, s.cqes[p][i], d.value.result)]]
  }

  lemma ResumingTakeState(s: Ring, p: Ptr, i: nat)
    requires IsResumingTake(s, Take(p, i)) && Apply(s, Take(p, i)).Running?
    ensures ResumedInto(s, Apply(s, Take(p, i)).ring, p, i)
  {
  }

  lemma ResumedTale(s: Ring, t: Ring, p: Ptr, i: nat)
    requires ResumedInto(s, t, p, i) && ResumeOk(s, p)
    requires p in s.owned && p in s.posted && (|s.posted[p]| == 2 ==> s.heap[p].deadline)
    ensures ResumeOk(t, p)
  {
    LiveReply(t.heap[p].handle.value, s.heap[p], LogOf(s, p), s.cqes[p][i]);
    ResumingTakeTale(t.heap[p].handle.value, s.heap[p], t.heap[p], s.cqes[p], s.posted[p], LogOf(s, p), i);
  }

  lemma ResumedOthers(s: Ring, t: Ring, p: Ptr, i: nat, q: Ptr)
    requires ResumedInto(s, t, p, i) && q != p && ResumeOk(s, q)
    ensures ResumeOk(t, q)
  {
    assert SameTale(s, t, q);
    SameTaleSameVerdict(s, t, q);
  }

  lemma ResumingTake(s: Ring, p: Ptr, i: nat)
    requires ResumeInv(s) && IsResumingTake(s, Take(p, i)) && Apply(s, Take(p, i)).Running?
    ensures forall q :: ResumeOk(Apply(s, Take(p, i)).ring, q)
  {
    var t := Apply(s, Take(p, i)).ring;
    ResumingTakeState(s, p, i);
    forall q ensures ResumeOk(t, q) {
      if q == p {
        OwedIsPosted(s, p);
        ResumedTale(s, t, p, i);
      } else {
        ResumedOthers(s, t, p, i, q);
      }
    }
  }

  lemma OwedIsPosted(s: Ring, p: Ptr)
    requires Inv(s) && p in s.heap && p in s.cqes && s.cqes[p] != []
    ensures p in s.posted && (|s.posted[p]| == 2 ==> s.heap[p].deadline)
    ensures p in s.owned <==> s.heap[p].iopExists
  {
    assert LocalInv(s, p);
  }

  lemma TakeKeepsResume(s: Ring, p: Ptr, i: nat)
    requires ResumeInv(s) && Apply(s, Take(p, i)).Running?
    ensures forall q :: ResumeOk(Apply(s, Take(p, i)).ring, q)
  {
    assert LocalInv(s, p);
    if IsResumingTake(s, Take(p, i)) {
      ResumingTake(s, p, i);
    } else {
      SilentTake(s, p, i);
      FinishKeepsResume(TakeCqe(s, p, i), p);
    }
  }

  lemma AwaitKeepsResume(s: Ring, p: Ptr, h: Handle, sub: Submission)
    requires ResumeInv(s) && Apply(s, Await(p, h, sub)).Running?
    ensures forall q :: ResumeOk(Apply(s, Await(p, h, sub)).ring, q)
  {
    var t := Apply(s, Await(p, h, sub)).ring;
    assert LocalInv(s, p);
    assert Codes([]) == multiset{};
    forall q ensures ResumeOk(t, q) {
      assert ResumeOk(s, q);
      if q != p { SameTaleSameVerdict(s, t, q); }
    }
  }

  lemma ReturnKeepsResume(s: Ring)
    requires ResumeInv(s) && Apply(s, Return).Running?
    ensures forall q :: ResumeOk(Apply(s, Return).ring, q)
  {
    var n := |s.frames| - 1;
    var u := s.(frames := s.frames[..n]);
    forall q ensures ResumeOk(u, q) { SameTaleSameVerdict(s, u, q); }
    FinishKeepsResume(u, s.frames[n]);
  }

  lemma DestroyKeepsResume(s: Ring, p: Ptr)
    requires ResumeInv(s) && Apply(s, Destroy(p)).Running?
    ensures forall q :: ResumeOk(Apply(s, Destroy(p)).ring, q)
  {
    forall q ensures ResumeOk(Apply(s, Destroy(p)).ring, q) {
      SameTaleSameVerdict(s, Apply(s, Destroy(p)).ring, q);
    }
  }

  lemma CreateKeepsResume(s: Ring, kind: Kind, deadline: bool)
    requires ResumeInv(s) && Apply(s, Create(kind, deadline)).Running?
    ensures forall q :: ResumeOk(Apply(s, Create(kind, deadline)).ring, q)
  {
    assert LocalInv(s, s.next);
    forall q ensures ResumeOk(Apply(s, Create(kind, deadline)).ring, q) {
      assert ResumeOk(s, q);
      if q != s.next { SameTaleSameVerdict(s, Apply(s, Create(kind, deadline)).ring, q); }
    }
  }

  lemma StepKeepsResume(s: Ring, e: Event)
    requires ResumeInv(s) && Apply(s, e).Running?
    ensures ResumeInv(Apply(s, e).ring)
  {
    StepKeeps(s, e);
    match e
    case Take(p, i) => TakeKeepsResume(s, p, i);
    case Await(p, h, sub) => AwaitKeepsResume(s, p, h, sub);
    case Return => ReturnKeepsResume(s);
    case Destroy(p) => DestroyKeepsResume(s, p);
    case Create(kind, deadline) => CreateKeepsResume(s, kind, deadline);
  }

  lemma {:induction false} RunKeepsResume(es: seq<Event>)
    requires Run(es).Running?
    ensures ResumeInv(Run(es).ring)
  {
    RunIsSafe(es);
    if es == [] {
      forall p ensures ResumeOk(INITIAL, p) {}
    } else {
      RunKeepsResume(es[..|es| - 1]);
      StepKeepsResume(Run(es[..|es| - 1]).ring, es[|es| - 1]);
    }
  }

  // ----- The main results on resumption -----

  /** The two results of a linked pair: the op's own one and a cancelled timer, or a timer that fired. */
  predicate LinkedTimeout(op: int, timer: int) {
    || (timer == -ECANCELED && op != -ECANCELED)
    || (op == -ECANCELED && timer == -ETIME)
  }

  /** The kernel keeps the linked-timeout contract; the environment is free otherwise. */
  predicate Honest(e: Event) {
    e.Await? && e.sub.Submitted? && |e.sub.results| == 2 ==> LinkedTimeout(e.sub.results[0], e.sub.results[1])
  }

  ghost predicate HonestRun(es: seq<Event>) {
    forall k :: 0 <= k < |es| ==> Honest(es[k])
  }

  ghost predicate HonestPosts(s: Ring) {
    forall p :: p in s.posted && |s.posted[p]| == 2 ==> LinkedTimeout(s.posted[p][0], s.posted[p][1])
  }

  lemma StepPosts(s: Ring, e: Event)
    requires Apply(s, e).Running?
    ensures Apply(s, e).ring.posted == if e.Await? then s.posted[e.p := Posted(e.sub)] else s.posted
    ensures e.Await? ==> e.p in s.heap && Fits(s.heap[e.p].deadline, e.sub)
  {
  }

  lemma {:induction false} HonestRunPostsHonestly(es: seq<Event>)
    requires Run(es).Running? && HonestRun(es)
    ensures HonestPosts(Run(es).ring)
  {
    if es != [] {
      var es', e := es[..|es| - 1], es[|es| - 1];
      assert forall k :: 0 <= k < |es'| ==> es'[k] == es[k];
      HonestRunPostsHonestly(es');
      assert Honest(e);
      StepPosts(Run(es').ring, e);
    }
  }

  /** Some run with an honest kernel leads to s. */
  ghost predicate HonestlyReachable(s: Ring) {
    exists es :: HonestRun(es) && Run(es) == Running(s)
  }

  lemma HonestlyReachableIsSound(s: Ring)
    requires HonestlyReachable(s)
    ensures Reachable(s) && ResumeInv(s) && HonestPosts(s)
  {
    var es :| HonestRun(es) && Run(es) == Running(s);
    RunKeepsResume(es);
    HonestRunPostsHonestly(es);
  }

  lemma HonestlyReachableStep(s: Ring, e: Event)
    requires HonestlyReachable(s) && Honest(e) && Apply(s, e).Running?
    ensures HonestlyReachable(Apply(s, e).ring)
  {
    var es :| HonestRun(es) && Run(es) == Running(s);
    RunExtends(es, e);
    assert HonestRun(es + [e]);
  }

  lemma ReachableResumes(s: Ring)
    requires Reachable(s)
    ensures ResumeInv(s)
  {
    var es :| Run(es) == Running(s);
    RunKeepsResume(es);
  }

  lemma {:induction false} CodesCount(log: seq<Resumption>)
    ensures |Codes(log)| == |log|
    ensures |log| == 1 ==> Codes(log) == multiset{log[0].res}
  {
    if log != [] {
      CodesCount(log[..|log| - 1]);
    }
  }

  /** Awaited, still owned, and no CQE is left to execute. */
  ghost predicate Drained(s: Ring, p: Ptr) {
    && p in s.owned && p in s.heap && p in s.posted
    && p in s.cqes && s.cqes[p] == []
  }

  lemma DrainedLog(d: Delivery, posted: seq<int>, log: seq<Resumption>)
    requires LogAgrees(Some(d), true, Some([]), Some(posted), log)
    ensures Codes(log) == Live(d.deadline, posted)
  {
    assert Live(d.deadline, []) == multiset{};
  }

  /** Whatever the kernel answers, a completion that stays owned is resumed once per live CQE. */
  lemma DrainedResumesPerLiveCqe(s: Ring, p: Ptr)
    requires Reachable(s) && Drained(s, p)
    ensures Codes(LogOf(s, p)) == Live(s.heap[p].deadline, s.posted[p])
    ensures |LogOf(s, p)| == |Live(s.heap[p].deadline, s.posted[p])|
  {
    ReachableResumes(s);
    assert ResumeOk(s, p);
    DrainedLog(s.heap[p], s.posted[p], LogOf(s, p));
    CodesCount(LogOf(s, p));
  }

  /** The one result a linked pair leaves to its coroutine. */
  function Verdict(results: seq<int>): int
    requires |results| == 1 || |results| == 2
  {
    if |results| == 2 && results[0] == -ECANCELED then results[1] else results[0]
  }

  lemma LinkedPairHasOneLive(op: int, timer: int)
    requires LinkedTimeout(op, timer)
    ensures Live(true, [op, timer]) == multiset{Verdict([op, timer])}
  {
  }

  /** For either CQE order: resumed exactly once, with the op's own result or the timeout error. */
  lemma ResumedExactlyOnce(s: Ring, p: Ptr)
    requires HonestlyReachable(s) && Drained(s, p)
    requires |s.posted[p]| == Submissions(s.heap[p].deadline)
    ensures |LogOf(s, p)| == 1 && LogOf(s, p)[0].res == Verdict(s.posted[p])
    ensures AwaitResume(s.heap[p].kind != ValueOp, LogOf(s, p)[0].outcome) == ReplyTo(s.heap[p].kind, Verdict(s.posted[p]))
  {
    HonestlyReachableIsSound(s);
    DrainedResumesPerLiveCqe(s, p);
    assert ResumeOk(s, p);
    var rs := s.posted[p];
    if |rs| == 2 {
      assert rs == [rs[0], rs[1]];
      LinkedPairHasOneLive(rs[0], rs[1]);
    } else {
      assert rs == [rs[0]];
    }
    CodesCount(LogOf(s, p));
    assert LogOf(s, p)[0].res in Codes(LogOf(s, p));
  }

  lemma LiveOfHonestIsOne(posted: seq<int>)
    requires |posted| == 2 ==> LinkedTimeout(posted[0], posted[1])
    requires |posted| <= 2
    ensures |Live(|posted| == 2, posted)| <= 1
  {
    if |posted| == 2 {
      assert posted == [posted[0], posted[1]];
      LinkedPairHasOneLive(posted[0], posted[1]);
    }
  }

  lemma SubsetCard(a: multiset<int>, b: multiset<int>)
    requires a <= b
    ensures |a| <= |b|
  {
    assert b == a + (b - a);
  }

  /** Owned, orphaned or long freed: no completion is ever resumed a second time. */
  lemma NeverResumedTwice(s: Ring, p: Ptr)
    requires HonestlyReachable(s)
    ensures |LogOf(s, p)| <= 1
  {
    HonestlyReachableIsSound(s);
    assert LocalInv(s, p) && ResumeOk(s, p);
    var es :| HonestRun(es) && Run(es) == Running(s);
    PostedIsShort(es, p);
    CodesCount(LogOf(s, p));
    if p in s.posted {
      LiveOfHonestIsOne(s.posted[p]);
      SubsetCard(Codes(LogOf(s, p)), Live(|s.posted[p]| == 2, s.posted[p]));
    }
  }

  lemma {:induction false} PostedIsShort(es: seq<Event>, p: Ptr)
    requires Run(es).Running?
    ensures p in Run(es).ring.posted ==> |Run(es).ring.posted[p]| <= 2
  {
    if es != [] {
      PostedIsShort(es[..|es| - 1], p);
      StepPosts(Run(es[..|es| - 1]).ring, es[|es| - 1]);
    }
  }

  ghost predicate Resumes(s: Ring, e: Event, p: Ptr) {
    Apply(s, e).Running? && LogOf(Apply(s, e).ring, p) != LogOf(s, p)
  }

  lemma FinishKeepsHistory(s: Ring, p: Ptr)
    requires Finish(s, p).Running?
    ensures var t := Finish(s, p).ring;
      && t.log == s.log && t.posted == s.posted && t.cqes == s.cqes && t.owned == s.owned && t.next == s.next
      && forall q :: q in t.heap ==> q in s.heap && t.heap[q].kind == s.heap[q].kind
                                     && t.heap[q].deadline == s.heap[q].deadline
  {
  }

  lemma QuietStepKeepsLog(s: Ring, e: Event, p: Ptr)
    requires ResumeInv(s) && Apply(s, e).Running?
    requires !(IsResumingTake(s, e) && e.p == p)
    ensures LogOf(Apply(s, e).ring, p) == LogOf(s, p)
  {
    match e
    case Create(_, _) => assert LocalInv(s, s.next) && ResumeOk(s, s.next);
    case Await(_, _, _) =>
    case Destroy(_) =>
    case Take(q, i) =>
      if !IsResumingTake(s, e) {
        FinishKeepsHistory(TakeCqe(s, q, i), q);
      }
    case Return => FinishKeepsHistory(s.(frames := s.frames[..|s.frames| - 1]), s.frames[|s.frames| - 1]);
  }

  lemma OnlyTakeOfOwnedLogs(s: Ring, e: Event, p: Ptr)
    requires ResumeInv(s) && Resumes(s, e, p)
    ensures p in s.owned && e.Take? && e.p == p && IsResumingTake(s, e)
  {
    assert LocalInv(s, p);
    if !(IsResumingTake(s, e) && e.p == p) {
      QuietStepKeepsLog(s, e, p);
    }
  }

  /** Once the iop is destroyed nothing resumes its handle any more. */
  lemma NoResumeAfterDestroy(s: Ring, e: Event, p: Ptr)
    requires Reachable(s) && Resumes(s, e, p)
    ensures p in s.owned && e.Take? && e.p == p
  {
    ReachableResumes(s);
    OnlyTakeOfOwnedLogs(s, e, p);
  }

  /** The coroutine is parked in its co_await: everything was submitted and nothing resumed it yet. */
  ghost predicate IsSuspended(s: Ring, p: Ptr) {
    && p in s.owned && p in s.heap && p in s.posted
    && |s.posted[p]| == Submissions(s.heap[p].deadline)
    && LogOf(s, p) == []
  }

  /** A resumption finds its coroutine suspended iff its await did not throw half way through submitting. */
  lemma ResumesSuspendedIff(s: Ring, e: Event, p: Ptr)
    requires HonestlyReachable(s) && Honest(e) && Resumes(s, e, p)
    ensures p in s.heap && p in s.posted && (IsSuspended(s, p) <==> |s.posted[p]| == Submissions(s.heap[p].deadline))
  {
    HonestlyReachableIsSound(s);
    NoResumeAfterDestroy(s, e, p);
    assert LocalInv(s, p);
    HonestlyReachableStep(s, e);
    NeverResumedTwice(Apply(s, e).ring, p);
  }

  /** When the linked timeout finds no SQE the await throws, yet the op's CQE resumes the handle later. */
  lemma ThrownAwaitIsResumed(s: Ring, p: Ptr, h: Handle, res: int)
    requires Inv(s) && p in s.owned && p !in s.posted && p in s.heap && s.heap[p].deadline && res != -ECANCELED
    ensures var st := Apply(s, Await(p, h, NoTimeoutSqe(res)));
      && st.Running?
      && !IsSuspended(st.ring, p)
      && Resumes(st.ring, Take(p, 0), p)
  {
    assert LocalInv(s, p);
  }

  // ----- Simulation of the abstract life -----

  function LifeOf(s: Ring, p: Ptr): Life {
    if p >= s.next then Unborn
    else if p !in s.owned || p !in s.heap then Destroyed
    else if p !in s.posted then Created
    else if |s.posted[p]| != Submissions(s.heap[p].deadline) then Threw
    else if LogOf(s, p) == [] then Suspended
    else Done(AwaitResume(s.heap[p].kind != ValueOp, LogOf(s, p)[0].outcome))
  }

  /** Nothing that decides the life of p differs. */
  ghost predicate SameLife(s: Ring, t: Ring, p: Ptr) {
    && (p < s.next <==> p < t.next)
    && (p in s.owned <==> p in t.owned)
    && Lookup(s.posted, p) == Lookup(t.posted, p)
    && LogOf(s, p) == LogOf(t, p)
    && (p in t.heap && p in s.heap ==>
          t.heap[p].kind == s.heap[p].kind && t.heap[p].deadline == s.heap[p].deadline)
  }

  lemma SameLifeSame(s: Ring, t: Ring, p: Ptr)
    requires LocalInv(s, p) && LocalInv(t, p) && SameLife(s, t, p)
    ensures LifeOf(s, p) == LifeOf(t, p)
  {
  }

  lemma FinishSameLife(s: Ring, r: Ring, q: Ptr, p: Ptr)
    requires r == s.(cqes := r.cqes, frames := r.frames) && Finish(r, q).Running?
    ensures SameLife(s, Finish(r, q).ring, p)
  {
    FinishKeepsHistory(r, q);
  }

  lemma TakeSameLife(s: Ring, q: Ptr, i: nat, p: Ptr)
    requires Inv(s) && Apply(s, Take(q, i)).Running?
    requires IsResumingTake(s, Take(q, i)) ==> p != q
    ensures SameLife(s, Apply(s, Take(q, i)).ring, p)
  {
    assert LocalInv(s, q);
    if IsResumingTake(s, Take(q, i)) {
      ResumingTakeState(s, q, i);
    } else {
      FinishSameLife(s, TakeCqe(s, q, i), q, p);
    }
  }

  /** A step leaves alone what decides the life of p, unless it is about p. */
  lemma LifeOfOthers(s: Ring, e: Event, p: Ptr)
    requires Inv(s) && Apply(s, e).Running? && Inv(Apply(s, e).ring)
    requires IsResumingTake(s, e) ==> e.p != p
    requires e.Create? ==> p != s.next
    requires (e.Await? || e.Destroy?) ==> e.p != p
    ensures LifeOf(Apply(s, e).ring, p) == LifeOf(s, p)
  {
    StepSameLife(s, e, p);
    assert LocalInv(s, p) && LocalInv(Apply(s, e).ring, p);
    SameLifeSame(s, Apply(s, e).ring, p);
  }

  lemma StepSameLife(s: Ring, e: Event, p: Ptr)
    requires Inv(s) && Apply(s, e).Running?
    requires IsResumingTake(s, e) ==> e.p != p
    requires e.Create? ==> p != s.next
    requires (e.Await? || e.Destroy?) ==> e.p != p
    ensures SameLife(s, Apply(s, e).ring, p)
  {
    match e
    case Take(q, i) => TakeSameLife(s, q, i, p);
    case Return =>
      var n := |s.frames| - 1;
      FinishSameLife(s, s.(frames := s.frames[..n]), s.frames[n], p);
    case _ =>
  }

  lemma ResumingTakeResumes(s: Ring, e: Event)
    requires IsResumingTake(s, e) && Apply(s, e).Running?
    ensures Resumes(s, e, e.p)
  {
    ResumingTakeState(s, e.p, e.i);
    assert |LogOf(Apply(s, e).ring, e.p)| == |LogOf(s, e.p)| + 1;
  }

  lemma LifeOfResumed(s: Ring, e: Event, p: Ptr)
    requires HonestlyReachable(s) && Honest(e) && Resumes(s, e, p)
    ensures LifeStep(LifeOf(s, p), LifeOf(Apply(s, e).ring, p))
  {
    ResumesSuspendedIff(s, e, p);
    HonestlyReachableIsSound(s);
    OnlyTakeOfOwnedLogs(s, e, p);
    assert LocalInv(s, p);
    ResumingTakeState(s, p, e.i);
  }

  /** Every step of an honest run is a step, or a stutter, of every IOP's abstract life. */
  lemma RingSimulatesLife(s: Ring, e: Event, p: Ptr)
    requires HonestlyReachable(s) && Honest(e) && Apply(s, e).Running?
    ensures LifeStep(LifeOf(s, p), LifeOf(Apply(s, e).ring, p))
  {
    HonestlyReachableIsSound(s);
    StepKeepsResume(s, e);
    assert LocalInv(s, p) && ResumeOk(s, p);
    if Resumes(s, e, p) {
      LifeOfResumed(s, e, p);
    } else if (e.Create? && p == s.next) || ((e.Await? || e.Destroy?) && e.p == p) {
    } else {
      if IsResumingTake(s, e) { ResumingTakeResumes(s, e); }
      LifeOfOthers(s, e, p);
    }
  }
}
