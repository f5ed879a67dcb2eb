/**
 * The io_uring completion lifetime protocol as a transition system.
 *
 * Addresses are never reused, `heap` holds the objects that are still allocated, and touching any
 * other address is a Fault.  A coroutine is a handle plus whatever events the environment chooses
 * while an `execute` call is inside handle.resume(), so `frames` is a stack.
 */
module UringMachine {
  import opened Basics

  type Ptr = nat
  type Handle = nat

  /** completion<R> for a value, completion<void>, and sleep_completion. */
  datatype Kind = ValueOp | VoidOp | SleepOp

  datatype Delivery = Delivery(kind: Kind, deadline: bool, iopExists: bool, isOutstanding: bool, iopCount: int,
                               handle: Option<Handle>, result: Outcome)

  /** One call of handle.resume(): whose handle, the CQE result that caused it and the outcome stored by then. */
  datatype Resumption = Resumption(handle: Handle, res: int, outcome: Outcome)

  datatype Ring = Ring(
    heap: map<Ptr, Delivery>,
    outstanding: seq<Ptr>,
    cqes: map<Ptr, seq<int>>,           // results still to be executed, in no particular order
    frames: seq<Ptr>,                   // execute calls inside handle.resume(), innermost last
    next: Ptr,                          // every address below was allocated once
    owned: set<Ptr>,                    // held by an iop
    freed: seq<Ptr>,                    // history of delete
    posted: map<Ptr, seq<int>>,         // per awaited completion, the CQEs its submission causes
    log: map<Ptr, seq<Resumption>>)     // history of resumptions

  const INITIAL := Ring(map[], [], map[], [], 0, {}, [], map[], map[])

  /** How await_suspend ends: no SQE at all, none left for the linked timeout, or submitted. */
  datatype Submission = NoSqe | NoTimeoutSqe(res: int) | Submitted(results: seq<int>)

  datatype Event =
    | Create(kind: Kind, deadline: bool)
    | Await(p: Ptr, h: Handle, sub: Submission)
    | Destroy(p: Ptr)
    | Take(p: Ptr, i: nat)              // execute picks up a CQE of p
    | Return                            // the innermost handle.resume() comes back

  /** Illegal: the client or the kernel broke its side.  Fault: the library touched a dead object. */
  datatype Status = Running(ring: Ring) | Fault | Illegal

  function Submissions(deadline: bool): nat {
    if deadline then 2 else 1
  }

  predicate Fits(deadline: bool, sub: Submission) {
    match sub
    case NoSqe => true
    case NoTimeoutSqe(_) => deadline
    case Submitted(rs) => |rs| == Submissions(deadline)
  }

  function Posted(sub: Submission): seq<int> {
    match sub
    case NoSqe => []
    case NoTimeoutSqe(res) => [res]
    case Submitted(rs) => rs
  }

  /** completion<void>::deliver up to the resume. */
  function DeliverVoid(d: Delivery, res: int): Option<Delivery> {
    if res == -ETIME then Some(d.(result := d.result.AssignError(ETIME)))
    else if d.deadline && res == -ECANCELED then None
    else if res < 0 then Some(d.(result := d.result.AssignError(-res)))
    else Some(d)
  }

  /** deliver up to the resume: None when the CQE is ignored. */
  function DeliverResult(d: Delivery, res: int): Option<Delivery> {
    match d.kind
    case ValueOp =>
      if res < 0 then
        if d.deadline && res == -ECANCELED then None
        else Some(d.(result := d.result.AssignError(-res)))
      else Some(d.(result := d.result.AssignValue(res)))
    case VoidOp => DeliverVoid(d, res)
    case SleepOp => DeliverVoid(d, if res == -ETIME then 0 else res)
  }

  /** What execute does once deliver is behind it. */
  function Finish(s: Ring, p: Ptr): Status {
    if p !in s.heap || s.heap[p].iopCount <= 0 then Fault
    else
      var d := s.heap[p].(iopCount := s.heap[p].iopCount - 1);
      var s' := s.(outstanding := if d.isOutstanding then Erase(s.outstanding, p) else s.outstanding);
      if d.iopCount == 0 && !d.iopExists
      then Running(s'.(heap := s.heap - {p}, freed := s.freed + [p]))
      else Running(s'.(heap := s.heap[p := d]))
  }

  function TakeCqe(s: Ring, p: Ptr, i: nat): Ring
    requires p in s.cqes && i < |s.cqes[p]|
  {
    s.(cqes := s.cqes[p := RemoveAt(s.cqes[p], i)])
  }

  function LogOf(s: Ring, p: Ptr): seq<Resumption> {
    if p in s.log then s.log[p] else []
  }

  function Resume(s: Ring, p: Ptr, d: Delivery, res: int): Status {
    if d.handle.None? then Fault
    else Running(s.(heap := s.heap[p := d], frames := s.frames + [p],
                    log := s.log[p := LogOf(s, p) + [Resumption(d.handle.value, res, d.result)]]))
  }

  function Apply(s: Ring, e: Event): Status {
    match e
    case Create(kind, deadline) =>
      if kind == SleepOp && deadline then Illegal
      else
        var d := Delivery(kind, deadline, true, false, 1, None, FRESH_OUTCOME);
        Running(s.(heap := s.heap[s.next := d], cqes := s.cqes[s.next := []], log := s.log[s.next := []],
                   owned := s.owned + {s.next}, next := s.next + 1))
    case Await(p, h, sub) =>
      if p !in s.owned || p in s.posted then Illegal
      else if p !in s.heap then Fault
      else if !Fits(s.heap[p].deadline, sub) then Illegal
      else
        var n := if sub.Submitted? && s.heap[p].deadline then 2 else s.heap[p].iopCount;
        Running(s.(heap := s.heap[p := s.heap[p].(handle := Some(h), iopCount := n)],
                   posted := s.posted[p := Posted(sub)], cqes := s.cqes[p := Posted(sub)]))
    case Destroy(p) =>
      if p !in s.owned then Illegal
      else if p !in s.heap then Fault
      else
        var s' := s.(owned := s.owned - {p});
        if s.heap[p].iopCount == 0 then Running(s'.(heap := s.heap - {p}, freed := s.freed + [p]))
        else Running(s'.(heap := s.heap[p := s.heap[p].(iopExists := false, isOutstanding := true)],
                         outstanding := s.outstanding + [p]))
    case Take(p, i) =>
      if p !in s.cqes || i >= |s.cqes[p]| then Illegal
      else if p !in s.heap then Fault
      else if !s.heap[p].iopExists then Finish(TakeCqe(s, p, i), p)
      else
        var d := DeliverResult(s.heap[p], s.cqes[p][i]);
        if d.None? then Finish(TakeCqe(s, p, i), p)
        else Resume(TakeCqe(s, p, i), p, d.value, s.cqes[p][i])
    case Return =>
      if s.frames == [] then Illegal
      else
        var n := |s.frames| - 1;
        Finish(s.(frames := s.frames[..n]), s.frames[n])
  }

  function Run(es: seq<Event>): Status {
    if es == [] then Running(INITIAL)
    else match Run(es[..|es| - 1])
      case Running(s) => Apply(s, es[|es| - 1])
      case bad => bad
  }

  /** ~impl: deletes everything in `outstanding`; None is a double free. */
  function DeleteAll(heap: map<Ptr, Delivery>, ps: seq<Ptr>): Option<map<Ptr, Delivery>> {
    if ps == [] then Some(heap)
    else if ps[0] !in heap then None
    else DeleteAll(heap - {ps[0]}, ps[1..])
  }

  // ----- The invariant -----

  ghost function Times(ps: seq<Ptr>, p: Ptr): nat {
    multiset(ps)[p]
  }

  /** CQEs still to be executed plus execute frames now running. */
  ghost function Due(s: Ring, p: Ptr): nat {
    (if p in s.cqes then |s.cqes[p]| else 0) + Times(s.frames, p)
  }

  predicate InFlight(s: Ring, p: Ptr) {
    p in s.posted && s.posted[p] != []
  }

  /** An orphan outside `outstanding` is a deadline IOP whose first CQE is behind it. */
  ghost predicate HalfDrained(s: Ring, p: Ptr) {
    && p in s.heap && !s.heap[p].iopExists && Times(s.outstanding, p) == 0
    && s.heap[p].deadline && s.heap[p].iopCount == 1
    && p in s.posted && |s.posted[p]| == 2
  }

  /** The counter of a live completion tells exactly what is still to come for it. */
  ghost predicate CountAgrees(s: Ring, p: Ptr) {
    p in s.heap ==>
      && s.heap[p].iopCount == (if InFlight(s, p) then Due(s, p) else 1)
      && (!InFlight(s, p) ==> Due(s, p) == 0)
      && s.heap[p].iopCount <= Submissions(s.heap[p].deadline)
      && (s.heap[p].iopCount == 2 ==> |s.posted[p]| == 2)
      && (p in s.posted ==> s.heap[p].handle.Some? && |s.posted[p]| <= Submissions(s.heap[p].deadline))
  }

  /** The flags, the owner and the `outstanding` vector tell the same story. */
  ghost predicate FlagsAgree(s: Ring, p: Ptr) {
    if p in s.heap && !s.heap[p].iopExists then
      && p !in s.owned && s.heap[p].isOutstanding
      && s.heap[p].iopCount >= 1
      && (Times(s.outstanding, p) == 1 || HalfDrained(s, p))
    else
      && (p in s.owned <==> p in s.heap)
      && (p in s.heap ==> !s.heap[p].isOutstanding)
      && Times(s.outstanding, p) == 0
  }

  /** Allocated once, freed at most once, and never spoken of before or after. */
  ghost predicate AllocatedOnce(s: Ring, p: Ptr) {
    && (p in s.cqes <==> p < s.next)
    && (p in s.posted ==> p < s.next)
    && (p in s.heap ==> p < s.next)
    && (p !in s.heap ==> Due(s, p) == 0)
    && Times(s.freed, p) == if p < s.next && p !in s.heap then 1 else 0
  }

  ghost predicate LocalInv(s: Ring, p: Ptr) {
    CountAgrees(s, p) && FlagsAgree(s, p) && AllocatedOnce(s, p)
  }

  ghost predicate Inv(s: Ring) {
    forall p :: LocalInv(s, p)
  }

  ghost predicate Good(st: Status) {
    !st.Fault? && (st.Running? ==> Inv(st.ring))
  }

  lemma CreateKeeps(s: Ring, kind: Kind, deadline: bool)
    requires Inv(s)
    ensures Good(Apply(s, Create(kind, deadline)))
  {
    var st := Apply(s, Create(kind, deadline));
    assert LocalInv(s, s.next);
    if st.Running? {
      forall q ensures LocalInv(st.ring, q) { assert LocalInv(s, q); }
    }
  }

  lemma AwaitKeeps(s: Ring, p: Ptr, h: Handle, sub: Submission)
    requires Inv(s)
    ensures Good(Apply(s, Await(p, h, sub)))
  {
    var st := Apply(s, Await(p, h, sub));
    assert LocalInv(s, p);
    if st.Running? {
      forall q ensures LocalInv(st.ring, q) { assert LocalInv(s, q); }
    }
  }

  lemma DestroyKeeps(s: Ring, p: Ptr)
    requires Inv(s)
    ensures Good(Apply(s, Destroy(p)))
  {
    var st := Apply(s, Destroy(p));
    assert LocalInv(s, p);
    if st.Running? {
      forall q ensures LocalInv(st.ring, q) { assert LocalInv(s, q); }
    }
  }

  /** `s` is `before` with one CQE or frame of p taken off: the counter of p is one ahead. */
  ghost predicate OneAhead(before: Ring, s: Ring, p: Ptr) {
    && s == before.(cqes := s.cqes, frames := s.frames)
    && s.cqes.Keys == before.cqes.Keys
    && (forall q :: Due(s, q) + (if q == p then 1 else 0) == Due(before, q))
  }

  lemma FinishKeeps(before: Ring, s: Ring, p: Ptr)
    requires Inv(before) && OneAhead(before, s, p)
    ensures Good(Finish(s, p))
  {
    assert LocalInv(before, p);
    assert Due(before, p) == Due(s, p) + 1;
    var st := Finish(s, p);
    forall q ensures LocalInv(st.ring, q) {
      assert LocalInv(before, q) && Due(st.ring, q) == Due(s, q);
    }
  }

  lemma ResumeKeeps(before: Ring, s: Ring, p: Ptr, d: Delivery, res: int)
    requires Inv(before) && OneAhead(before, s, p)
    requires p in s.heap && d == s.heap[p].(result := d.result)
    ensures Good(Resume(s, p, d, res))
  {
    assert LocalInv(before, p);
    assert Due(before, p) == Due(s, p) + 1;
    var st := Resume(s, p, d, res);
    if st.Running? {
      forall q ensures LocalInv(st.ring, q) {
        assert LocalInv(before, q) && Due(before, q) == Due(st.ring, q);
      }
    }
  }

  lemma TakeIsOneAhead(s: Ring, p: Ptr, i: nat)
    requires p in s.cqes && i < |s.cqes[p]|
    ensures OneAhead(s, TakeCqe(s, p, i), p)
  {
  }

  lemma TakeKeeps(s: Ring, p: Ptr, i: nat)
    requires Inv(s)
    ensures Good(Apply(s, Take(p, i)))
  {
    if p in s.cqes && i < |s.cqes[p]| {
      assert LocalInv(s, p);
      var t := TakeCqe(s, p, i);
      TakeIsOneAhead(s, p, i);
      var d := DeliverResult(s.heap[p], s.cqes[p][i]);
      if s.heap[p].iopExists && d.Some? {
        ResumeKeeps(s, t, p, d.value, s.cqes[p][i]);
      } else {
        FinishKeeps(s, t, p);
      }
    }
  }

  lemma ReturnKeeps(s: Ring)
    requires Inv(s)
    ensures Good(Apply(s, Return))
  {
    if s.frames != [] {
      var n := |s.frames| - 1;
      assert s.frames == s.frames[..n] + [s.frames[n]];
      FinishKeeps(s, s.(frames := s.frames[..n]), s.frames[n]);
    }
  }

  lemma StepKeeps(s: Ring, e: Event)
    requires Inv(s)
    ensures Good(Apply(s, e))
  {
    match e
    case Create(kind, deadline) => CreateKeeps(s, kind, deadline);
    case Await(p, h, sub) => AwaitKeeps(s, p, h, sub);
    case Destroy(p) => DestroyKeeps(s, p);
    case Take(p, i) => TakeKeeps(s, p, i);
    case Return => ReturnKeeps(s);
  }

  /** No run, however the environment interleaves its events, ever touches a dead object. */
  lemma {:induction false} RunIsSafe(es: seq<Event>)
    ensures Good(Run(es))
  {
    if es != [] {
      RunIsSafe(es[..|es| - 1]);
      if Run(es[..|es| - 1]).Running? {
        StepKeeps(Run(es[..|es| - 1]).ring, es[|es| - 1]);
      }
    }
  }

  /** Some run leads to s. */
  ghost predicate Reachable(s: Ring) {
    exists es :: Run(es) == Running(s)
  }

  lemma ReachableIsSound(s: Ring)
    requires Reachable(s)
    ensures Inv(s)
  {
    var es :| Run(es) == Running(s);
    RunIsSafe(es);
  }
}
