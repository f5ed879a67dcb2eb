/** What the state of a ring owes to the events that led to it. */
module UringHistory {
  import opened Basics
  import opened UringMachine
  import opened UringTheorems

  datatype Made = Made(kind: Kind, deadline: bool)

  datatype Awaiting = Awaiting(handle: Handle, sub: Submission)

  function Creates(es: seq<Event>): nat {
    if es == [] then 0 else Creates(es[..|es| - 1]) + if es[|es| - 1].Create? then 1 else 0
  }

  /** How the p-th completion was created. */
  function CreatedAs(es: seq<Event>, p: Ptr): Option<Made> {
    if es == [] then None
    else
      var es', e := es[..|es| - 1], es[|es| - 1];
      if e.Create? && Creates(es') == p then Some(Made(e.kind, e.deadline)) else CreatedAs(es', p)
  }

  /** Who awaited p, and what became of its submission. */
  function AwaitedBy(es: seq<Event>, p: Ptr): Option<Awaiting> {
    if es == [] then None
    else
      var es', e := es[..|es| - 1], es[|es| - 1];
      if e.Await? && e.p == p then Some(Awaiting(e.h, e.sub)) else AwaitedBy(es', p)
  }

  /** The results the kernel was to produce for p. */
  function ResultsOf(a: Awaiting): seq<int> {
    if a.sub.Submitted? then a.sub.results else if a.sub.NoTimeoutSqe? then [a.sub.res] else []
  }

  /** Every one of these resumptions was of h. */
  ghost predicate AllResume(log: seq<Resumption>, h: Handle) {
    forall r: Resumption :: r in log ==> r.handle == h
  }

  /** Everything s says about p was said by an event. */
  ghost predicate Tells(s: Ring, p: Ptr, made: Option<Made>, told: Option<Awaiting>) {
    && (p in s.heap ==> made == Some(Made(s.heap[p].kind, s.heap[p].deadline)))
    && (p in s.posted <==> told.Some?)
    && (told.Some? ==>
          && s.posted[p] == ResultsOf(told.value)
          && (p in s.heap ==> s.heap[p].handle == Some(told.value.handle))
          && AllResume(LogOf(s, p), told.value.handle))
  }

  lemma AwaitTells(s: Ring, e: Event, p: Ptr, made: Option<Made>, told: Option<Awaiting>)
    requires ResumeInv(s) && e.Await? && Apply(s, e).Running? && Tells(s, p, made, told)
    ensures Tells(Apply(s, e).ring, p, made, if e.p == p then Some(Awaiting(e.h, e.sub)) else told)
  {
    assert ResumeOk(s, p);
  }

  lemma FinishTells(s: Ring, q: Ptr, p: Ptr, made: Option<Made>, told: Option<Awaiting>)
    requires Finish(s, q).Running? && Tells(s, p, made, told)
    ensures Tells(Finish(s, q).ring, p, made, told)
  {
  }

  lemma TakeTells(s: Ring, q: Ptr, i: nat, p: Ptr, made: Option<Made>, told: Option<Awaiting>)
    requires ResumeInv(s) && Apply(s, Take(q, i)).Running? && Tells(s, p, made, told)
    ensures Tells(Apply(s, Take(q, i)).ring, p, made, told)
  {
    assert LocalInv(s, q);
    if IsResumingTake(s, Take(q, i)) {
      ResumingTakeState(s, q, i);
      DeliverKeepsRest(s.heap[q], s.cqes[q][i]);
    } else {
      FinishTells(TakeCqe(s, q, i), q, p, made, told);
    }
  }

  lemma StepTells(s: Ring, e: Event, p: Ptr, made: Option<Made>, told: Option<Awaiting>)
    requires ResumeInv(s) && Apply(s, e).Running? && Tells(s, p, made, told)
    ensures Tells(Apply(s, e).ring, p,
                  if e.Create? && s.next == p then Some(Made(e.kind, e.deadline)) else made,
                  if e.Await? && e.p == p then Some(Awaiting(e.h, e.sub)) else told)
  {
    match e
    case Create(_, _) => assert LocalInv(s, s.next) && ResumeOk(s, s.next);
    case Await(_, _, _) => AwaitTells(s, e, p, made, told);
    case Destroy(_) =>
    case Take(q, i) => TakeTells(s, q, i, p, made, told);
    case Return =>
      var n := |s.frames| - 1;
      FinishTells(s.(frames := s.frames[..n]), s.frames[n], p, made, told);
  }

  lemma StepOwned(s: Ring, e: Event)
    requires Apply(s, e).Running?
    ensures var t := Apply(s, e).ring;
      && t.next == s.next + (if e.Create? then 1 else 0)
      && t.owned == (if e.Create? then s.owned + {s.next} else if e.Destroy? then s.owned - {e.p} else s.owned)
      && (e.Destroy? ==> e.p in s.owned)
  {
  }

  /** An iop is owned from its creation to its destruction. */
  lemma {:induction false} OwnedIff(es: seq<Event>, s: Ring, p: Ptr)
    requires Run(es) == Running(s)
    ensures s.next == Creates(es)
    ensures p in s.owned <==> p < Creates(es) && Destroy(p) !in es
  {
    if es != [] {
      var es', e := es[..|es| - 1], es[|es| - 1];
      var s' := Run(es').ring;
      assert es == es' + [e];
      OwnedIff(es', s', p);
      RunIsSafe(es');
      assert LocalInv(s', p);
      StepOwned(s', e);
      if e == Destroy(p) { assert p in s'.owned; }
      if e.Create? && p == s'.next { NotYetDestroyed(es', s', p); }
    }
  }

  lemma {:induction false} NotYetDestroyed(es: seq<Event>, s: Ring, p: Ptr)
    requires Run(es) == Running(s) && s.next <= p
    ensures Destroy(p) !in es
  {
    if es != [] {
      var es', e := es[..|es| - 1], es[|es| - 1];
      assert es == es' + [e];
      StepOwned(Run(es').ring, e);
      NotYetDestroyed(es', Run(es').ring, p);
      RunIsSafe(es');
      assert LocalInv(Run(es').ring, p);
    }
  }

  /** Kind, deadline, results and handle are those of the events, up to every single resumption. */
  lemma {:induction false} RunTells(es: seq<Event>, s: Ring, p: Ptr)
    requires Run(es) == Running(s)
    ensures Tells(s, p, CreatedAs(es, p), AwaitedBy(es, p))
  {
    if es != [] {
      var es', e := es[..|es| - 1], es[|es| - 1];
      var s' := Run(es').ring;
      RunTells(es', s', p);
      OwnedIff(es', s', p);
      RunKeepsResume(es');
      StepTells(s', e, p, CreatedAs(es', p), AwaitedBy(es', p));
    }
  }

  /**
   * Under an honest kernel the coroutine that awaited p, and no other, is resumed once its CQEs are in, with the one
   * result of p's submission that is not a cancellation, as an IOP of the kind that was asked for reads it.
   */
  lemma AwaiterIsResumed(es: seq<Event>, s: Ring, p: Ptr)
    requires HonestRun(es) && Run(es) == Running(s) && Drained(s, p)
    requires AwaitedBy(es, p).Some? && AwaitedBy(es, p).value.sub.Submitted?
    ensures CreatedAs(es, p).Some? && p in s.owned
    ensures var a := AwaitedBy(es, p).value; var kind := CreatedAs(es, p).value.kind;
      && (|a.sub.results| == 1 || |a.sub.results| == 2)
      && |LogOf(s, p)| == 1 && LogOf(s, p)[0].handle == a.handle
      && LogOf(s, p)[0].res == Verdict(a.sub.results)
      && AwaitResume(kind != ValueOp, LogOf(s, p)[0].outcome) == ReplyTo(kind, Verdict(a.sub.results))
  {
    RunTells(es, s, p);
    AllSubmitted(es, s, p);
    ResumedExactlyOnce(s, p);
  }

  lemma {:induction false} AllSubmitted(es: seq<Event>, s: Ring, p: Ptr)
    requires Run(es) == Running(s) && AwaitedBy(es, p).Some? && AwaitedBy(es, p).value.sub.Submitted? && p in s.heap
    ensures |AwaitedBy(es, p).value.sub.results| == Submissions(s.heap[p].deadline)
  {
    var es', e := es[..|es| - 1], es[|es| - 1];
    var s' := Run(es').ring;
    RunTells(es, s, p);
    RunTells(es', s', p);
    RunIsSafe(es');
    assert LocalInv(s', p);
    if !(e.Await? && e.p == p) {
      OwnedIff(es', s', p);
      AllSubmitted(es', s', p);
    }
  }
}
