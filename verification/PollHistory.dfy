/** What the state of a reactor owes to the events that led to it. */
module PollHistory {
  import opened Basics
  import opened PollMachine
  import opened PollInvariant
  import opened PollTheorems

  datatype Made = Made(kind: Kind, fd: int, deadline: Option<int>)

  function Creates(es: seq<Event>): nat {
    if es == [] then 0 else Creates(es[..|es| - 1]) + if es[|es| - 1].Create? then 1 else 0
  }

  /** How the p-th completion was created. */
  function CreatedAs(es: seq<Event>, p: Ptr): Option<Made> {
    if es == [] then None
    else
      var es', e := es[..|es| - 1], es[|es| - 1];
      if e.Create? && Creates(es') == p then Some(Made(e.kind, e.fd, e.deadline)) else CreatedAs(es', p)
  }

  /** The coroutine that awaited p. */
  function AwaitedBy(es: seq<Event>, p: Ptr): Option<Handle> {
    if es == [] then None
    else
      var es', e := es[..|es| - 1], es[|es| - 1];
      if e.Await? && e.p == p then Some(e.h) else AwaitedBy(es', p)
  }

  ghost predicate AllResume(log: seq<Resumption>, h: Handle) {
    forall r: Resumption :: r in log ==> r.handle == h
  }

  /** Everything s says about p was said by an event. */
  ghost predicate Tells(s: Reactor, p: Ptr, made: Option<Made>, told: Option<Handle>) {
    && (p in s.heap ==> made == Some(Made(s.heap[p].kind, s.heap[p].fd, s.heap[p].deadline)))
    && (p in s.awaited <==> told.Some?)
    && (p in s.heap || p in s.awaited || p in s.log ==> p < s.next)
    && (told.None? ==> LogOf(s, p) == [] && (p in s.heap ==> s.heap[p].handle.None?))
    && (told.Some? ==> (p in s.heap ==> s.heap[p].handle == told) && AllResume(LogOf(s, p), told.value))
  }

  lemma ParkedTells(s: Reactor, st: Status, q: Ptr, p: Ptr, made: Option<Made>, told: Option<Handle>)
    requires q in s.heap && MayPark(s, st, q) && st.Running? && Tells(s, p, made, told)
    ensures Tells(st.reactor, p, made, told)
  {
  }

  lemma AwaitTells(s: Reactor, e: Event, p: Ptr, made: Option<Made>, told: Option<Handle>)
    requires e.Await? && Apply(s, e).Running? && Tells(s, p, made, told)
    ensures Tells(Apply(s, e).reactor, p, made, if e.p == p then Some(e.h) else told)
  {
    var u := s.(heap := s.heap[e.p := s.heap[e.p].(handle := Some(e.h))], awaited := s.awaited + {e.p});
    StartRequests(u, e.p, e.sys);
    ParkedTells(u, AwaitSuspend(u, e.p, e.sys), e.p, p, made, if e.p == p then Some(e.h) else told);
  }

  lemma TimedOutTells(s: Reactor, q: Ptr, p: Ptr, made: Option<Made>, told: Option<Handle>)
    requires q in s.heap && IopTimedOut(s, q).Running? && Tells(s, p, made, told)
    ensures Tells(IopTimedOut(s, q).reactor, p, made, told)
  {
  }

  lemma StepTells(s: Reactor, e: Event, p: Ptr, made: Option<Made>, told: Option<Handle>)
    requires Apply(s, e).Running? && Tells(s, p, made, told)
    requires p == s.next ==> told.None?
    ensures Tells(Apply(s, e).reactor, p,
                  if e.Create? && s.next == p then Some(Made(e.kind, e.fd, e.deadline)) else made,
                  if e.Await? && e.p == p then Some(e.h) else told)
  {
    match e
    case Create(_, _, _) =>
    case Await(_, _, _) => AwaitTells(s, e, p, made, told);
    case Destroy(_) =>
    case Fire(_) => TimedOutTells(s.(timeouts := s.timeouts[1..]), s.timeouts[0].who, p, made, told);
    case Poll(_, _) =>
    case Continue(sys) =>
      var t := s.(batch := s.batch[1..]);
      AttemptRequests(t, s.batch[0], sys);
      ParkedTells(t, TryOrResume(t, s.batch[0], sys), s.batch[0], p, made, told);
  }

  lemma StepHeap(s: Reactor, e: Event)
    requires Apply(s, e).Running?
    ensures var t := Apply(s, e).reactor;
      && t.next == s.next + (if e.Create? then 1 else 0)
      && t.heap.Keys == (if e.Create? then s.heap.Keys + {s.next} else if e.Destroy? then s.heap.Keys - {e.p} else s.heap.Keys)
      && (e.Destroy? ==> e.p in s.heap)
  {
    match e
    case Await(p, h, sys) =>
      StartRequests(s.(heap := s.heap[p := s.heap[p].(handle := Some(h))], awaited := s.awaited + {p}), p, sys);
    case Continue(sys) => AttemptRequests(s.(batch := s.batch[1..]), s.batch[0], sys);
    case _ =>
  }

  /** Kind, descriptor, deadline and handle are those of the events, up to every single resumption. */
  lemma {:induction false} RunTells(es: seq<Event>, s: Reactor, p: Ptr)
    requires Run(es) == Running(s)
    ensures s.next == Creates(es) && Tells(s, p, CreatedAs(es, p), AwaitedBy(es, p))
  {
    if es != [] {
      var es', e := es[..|es| - 1], es[|es| - 1];
      RunTells(es', Run(es').reactor, p);
      StepHeap(Run(es').reactor, e);
      StepTells(Run(es').reactor, e, p, CreatedAs(es', p), AwaitedBy(es', p));
    }
  }

  lemma InPrefix(es: seq<Event>, x: Event)
    requires es != []
    ensures x in es <==> x in es[..|es| - 1] || x == es[|es| - 1]
  {
    assert es == es[..|es| - 1] + [es[|es| - 1]];
  }

  lemma {:induction false} DestroyedWasCreated(es: seq<Event>, s: Reactor, p: Ptr)
    requires Run(es) == Running(s) && Destroy(p) in es
    ensures p < s.next
  {
    var es', e := es[..|es| - 1], es[|es| - 1];
    InPrefix(es, Destroy(p));
    RunTells(es', Run(es').reactor, p);
    StepHeap(Run(es').reactor, e);
    if e != Destroy(p) { DestroyedWasCreated(es', Run(es').reactor, p); }
  }

  /** A completion is alive from its creation to the destruction of its iop. */
  lemma {:induction false} AliveIff(es: seq<Event>, s: Reactor, p: Ptr)
    requires Run(es) == Running(s)
    ensures p in s.heap <==> p < s.next && Destroy(p) !in es
  {
    if es != [] {
      var es', e := es[..|es| - 1], es[|es| - 1];
      var s' := Run(es').reactor;
      AliveIff(es', s', p);
      RunTells(es', s', p);
      InPrefix(es, Destroy(p));
      if Destroy(p) in es' { DestroyedWasCreated(es', s', p); }
      StepAlive(s', e, s, p, Destroy(p) in es');
    }
  }

  lemma StepAlive(s: Reactor, e: Event, t: Reactor, p: Ptr, gone: bool)
    requires Apply(s, e) == Running(t) && (p in s.heap <==> p < s.next && !gone) && (gone ==> p < s.next)
    ensures p in t.heap <==> p < t.next && !gone && e != Destroy(p)
  {
    StepHeap(s, e);
  }
}
