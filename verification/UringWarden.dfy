/**
 * The io_uring warden's own code over a mutable heap.  Its ghost `trace` is the run it has performed
 * so far: Valid() ties every field to UringMachine.Run(trace), so each theorem on runs is one on this class.
 */
module UringWarden {
  import opened Basics
  import opened UringMachine
  import opened UringTheorems

  lemma TakeIsSafe(s: Ring, p: Ptr, i: nat)
    requires Reachable(s) && p in s.cqes && i < |s.cqes[p]|
    ensures p in s.heap && Apply(s, Take(p, i)).Running?
  {
    ReachableIsSound(s);
    assert LocalInv(s, p);
    StepKeeps(s, Take(p, i));
  }

  lemma ReturnIsSafe(es: seq<Event>, s: Ring)
    requires Run(es) == Running(s) && s.frames != []
    ensures var n := |s.frames| - 1;
      var st := Finish(s.(frames := s.frames[..n]), s.frames[n]);
      Run(es + [Return]) == st && st.Running?
  {
    RunIsSafe(es);
    ReturnKeeps(s);
    RunExtends(es, Return);
  }

  lemma ChangedThenRemoved(heap: map<Ptr, Delivery>, p: Ptr, d: Delivery)
    ensures heap[p := d] - {p} == heap - {p}
  {
  }

  /** At each of these points, one behind the other, a CQE was taken. */
  ghost predicate TakenAt(trace: seq<Event>, at: seq<nat>, from: nat) {
    && (forall k :: 0 <= k < |at| ==> from <= at[k] < |trace| && trace[at[k]].Take?)
    && forall j, k :: 0 <= j < k < |at| ==> at[j] < at[k]
  }

  class Warden {
    var heap: map<Ptr, Delivery>
    var outstanding: seq<Ptr>
    var cqes: map<Ptr, seq<int>>
    var next: Ptr
    var owned: set<Ptr>
    var posted: map<Ptr, seq<int>>
    ghost var frames: seq<Ptr>
    ghost var freed: seq<Ptr>
    ghost var log: map<Ptr, seq<Resumption>>
    ghost var trace: seq<Event>

    ghost function State(): Ring
      reads this
    {
      Ring(heap, outstanding, cqes, frames, next, owned, freed, posted, log)
    }

    ghost predicate Valid()
      reads this
    {
      Run(trace) == Running(State())
    }

    /** The CQE with this result has been taken from s and its completion is alive. */
    ghost predicate Taking(s: Ring, p: Ptr, i: nat, res: int)
      reads this
    {
      && Run(trace) == Running(s) && p in s.heap && p in s.cqes && i < |s.cqes[p]| && res == s.cqes[p][i]
      && State() == TakeCqe(s, p, i) && Apply(s, Take(p, i)).Running?
    }

    /** Of the run performed so far only the part after deliver is still to be done, for p, which is alive. */
    ghost predicate OwesFinish(p: Ptr)
      reads this
    {
      Finish(State(), p).Running? && Run(trace) == Finish(State(), p)
    }

    constructor ()
      ensures Valid() && trace == []
    {
      heap, outstanding, cqes, next, owned, posted := map[], [], map[], 0, {}, map[];
      frames, freed, log, trace := [], [], map[], [];
    }

    /** Records e as the step that led from s to the present state. */
    ghost method Commit(s: Ring, e: Event)
      requires Run(trace) == Running(s) && Apply(s, e) == Running(State())
      modifies this`trace
      ensures Valid() && trace == old(trace) + [e]
    {
      RunExtends(trace, e);
      trace := trace + [e];
    }

    /** do_read_some and its siblings: a fresh completion inside a fresh iop. */
    method CreateIop(kind: Kind, deadline: bool) returns (p: Ptr)
      requires Valid() && (kind == SleepOp ==> !deadline)
      modifies this
      ensures Valid() && trace == old(trace) + [Create(kind, deadline)]
      ensures p == old(next) && frames == old(frames)
    {
      ghost var s := State();
      p := next;
      heap := heap[p := Delivery(kind, deadline, true, false, 1, None, FRESH_OUTCOME)];
      cqes, log := cqes[p := []], log[p := []];
      owned, next := owned + {p}, next + 1;
      Commit(s, Create(kind, deadline));
    }

    /** setup_submission and setup_timeout; `sub` is how the ring answers the calls of next_sqe. */
    method AwaitSuspend(p: Ptr, h: Handle, sub: Submission) returns (threw: bool)
      requires Valid() && p in owned && p !in posted
      requires p in heap && Fits(heap[p].deadline, sub)
      modifies this
      ensures Valid() && trace == old(trace) + [Await(p, h, sub)] && frames == old(frames)
      ensures threw <==> !sub.Submitted?
    {
      ghost var s := State();
      posted := posted[p := Posted(sub)];
      heap := heap[p := heap[p].(handle := Some(h))];
      match sub {
        case NoSqe =>
          cqes := cqes[p := []];
          threw := true;
        case NoTimeoutSqe(res) =>
          cqes := cqes[p := [res]];
          threw := true;
        case Submitted(results) =>
          cqes := cqes[p := results];
          if heap[p].deadline {
            heap := heap[p := heap[p].(iopCount := 2)];
          }
          threw := false;
      }
      ghost var t := Apply(s, Await(p, h, sub)).ring;
      assert heap == t.heap && cqes == t.cqes && posted == t.posted;
      Commit(s, Await(p, h, sub));
    }

    /** delete_due_to_iop_destructed: may the iop delete the completion itself? */
    method DeleteDueToIopDestructed(p: Ptr) returns (del: bool)
      requires p in heap
      modifies this`heap, this`outstanding
      ensures del <==> old(heap)[p].iopCount == 0
      ensures heap == old(heap)[p := old(heap)[p].(iopExists := false, isOutstanding := if del then old(heap)[p].isOutstanding else true)]
      ensures outstanding == if del then old(outstanding) else old(outstanding) + [p]
    {
      heap := heap[p := heap[p].(iopExists := false)];
      if heap[p].iopCount == 0 {
        del := true;
      } else {
        heap := heap[p := heap[p].(isOutstanding := true)];
        outstanding := outstanding + [p];
        del := false;
      }
    }

    /** ~iop */
    method DestroyIop(p: Ptr)
      requires Valid() && p in owned
      modifies this
      ensures Valid() && trace == old(trace) + [Destroy(p)] && frames == old(frames)
    {
      ghost var s := State();
      RunIsSafe(trace);
      assert LocalInv(s, p);
      owned := owned - {p};
      var del := DeleteDueToIopDestructed(p);
      if del {
        heap, freed := heap - {p}, freed + [p];
      }
      assert heap == Apply(s, Destroy(p)).ring.heap;
      Commit(s, Destroy(p));
    }

    /** deliver up to handle.resume(): stores the outcome, or ignores a cancelled CQE. */
    method StoreResult(p: Ptr, res: int) returns (resume: bool)
      requires p in heap
      modifies this`heap
      ensures resume <==> DeliverResult(old(heap)[p], res).Some?
      ensures heap == if resume then old(heap)[p := DeliverResult(old(heap)[p], res).value] else old(heap)
    {
      var d := heap[p];
      var code := if d.kind == SleepOp && res == -ETIME then 0 else res;
      if d.kind != ValueOp && code == -ETIME {
        heap := heap[p := d.(result := d.result.AssignError(ETIME))];
      } else if code < 0 {
        if d.deadline && code == -ECANCELED {
          return false;
        }
        heap := heap[p := d.(result := d.result.AssignError(-code))];
      } else if d.kind == ValueOp {
        heap := heap[p := d.(result := d.result.AssignValue(code))];
      }
      resume := true;
    }

    /** What execute does after deliver; the counter is read and decremented on a live object. */
    method CountDown(p: Ptr)
      requires OwesFinish(p)
      modifies this`heap, this`outstanding, this`freed
      ensures Valid() && Running(State()) == old(Finish(State(), p))
    {
      ChangedThenRemoved(heap, p, heap[p].(iopCount := heap[p].iopCount - 1));
      if heap[p].isOutstanding {
        outstanding := Erase(outstanding, p);
      }
      heap := heap[p := heap[p].(iopCount := heap[p].iopCount - 1)];
      if heap[p].iopCount == 0 && !heap[p].iopExists {
        heap, freed := heap - {p}, freed + [p];
      }
    }

    /** The resuming half of a Take, up to the call of handle.resume(). */
    ghost method EnterResume(p: Ptr, i: nat, s: Ring)
      requires Run(trace) == Running(s) && IsResumingTake(s, Take(p, i)) && Apply(s, Take(p, i)).Running?
      requires State() == TakeCqe(s, p, i).(heap := s.heap[p := DeliverResult(s.heap[p], s.cqes[p][i]).value])
      modifies this`frames, this`log, this`trace
      ensures Valid() && trace == old(trace) + [Take(p, i)] && frames == old(frames) + [p]
    {
      var r := Resumption(heap[p].handle.value, s.cqes[p][i], heap[p].result);
      frames, log := frames + [p], log[p := LogOf(State(), p) + [r]];
      Commit(s, Take(p, i));
    }

    /** A CQE that resumes nobody: Finish is still to be done. */
    ghost method NoteSilentTake(p: Ptr, i: nat, s: Ring)
      requires Run(trace) == Running(s) && Apply(s, Take(p, i)).Running? && !IsResumingTake(s, Take(p, i))
      requires State() == TakeCqe(s, p, i)
      modifies this`trace
      ensures trace == old(trace) + [Take(p, i)]
      ensures OwesFinish(p)
    {
      RunExtends(trace, Take(p, i));
      trace := trace + [Take(p, i)];
    }

    /** handle.resume() came back: the frame goes, and Finish is still to be done. */
    ghost method LeaveResume(p: Ptr)
      requires Valid() && frames != [] && frames[|frames| - 1] == p
      modifies this`frames, this`trace
      ensures trace == old(trace) + [Return] && frames == old(frames)[..|old(frames)| - 1]
      ensures OwesFinish(p)
    {
      ReturnIsSafe(trace, State());
      trace := trace + [Return];
      frames := frames[..|frames| - 1];
    }

    /** impl::execute on CQE i of p.  `depth` bounds how deep this finite run re-enters execute. */
    method Execute(p: Ptr, i: nat, depth: nat)
      requires Valid() && p in cqes && i < |cqes[p]|
      modifies this
      ensures Valid() && frames == old(frames)
      ensures old(trace) + [Take(p, i)] <= trace
      ensures !old(IsResumingTake(State(), Take(p, i))) ==> trace == old(trace) + [Take(p, i)]
      ensures old(IsResumingTake(State(), Take(p, i))) ==> trace[|trace| - 1] == Return
      decreases depth, 2
    {
      ghost var s := State();
      var res := SeeCqe(p, i);
      Deliver(p, res, i, s, depth);
      CountDown(p);
    }

    /** io_uring_cqe_seen: the CQE is gone and its completion is alive. */
    method SeeCqe(p: Ptr, i: nat) returns (res: int)
      requires Valid() && p in cqes && i < |cqes[p]|
      modifies this`cqes
      ensures Taking(old(State()), p, i, res)
    {
      TakeIsSafe(State(), p, i);
      res := cqes[p][i];
      cqes := cqes[p := RemoveAt(cqes[p], i)];
    }

    /** d->deliver(cqe): afterwards only the counting down of execute is missing. */
    method Deliver(p: Ptr, res: int, ghost i: nat, ghost s: Ring, depth: nat)
      requires Taking(s, p, i, res)
      modifies this
      ensures OwesFinish(p) && frames == old(frames)
      ensures old(trace) + [Take(p, i)] <= trace
      ensures !IsResumingTake(s, Take(p, i)) ==> trace == old(trace) + [Take(p, i)]
      ensures IsResumingTake(s, Take(p, i)) ==> trace[|trace| - 1] == Return
      decreases depth, 1
    {
      var resume := false;
      if heap[p].iopExists {
        resume := StoreResult(p, res);
      }
      if resume {
        EnterResume(p, i, s);
        assert Valid();
        Resume(depth);
        LeaveResume(p);
      } else {
        NoteSilentTake(p, i, s);
      }
    }

    /** handle.resume(): the coroutine does anything it likes, any finite number of times. */
    method Resume(depth: nat)
      requires Valid()
      modifies this
      ensures Valid() && frames == old(frames) && old(trace) <= trace
      decreases depth, 0
    {
      var n: nat :| true;
      for k := 0 to n
        invariant Valid() && frames == old(frames) && old(trace) <= trace
      {
        var p: Ptr, i: nat := *, *;
        if * {
          var kind: Kind, deadline: bool := *, *;
          if kind != SleepOp || !deadline {
            var q := CreateIop(kind, deadline);
          }
        } else if * {
          var h: Handle, sub: Submission := *, *;
          if p in owned && p !in posted && p in heap && Fits(heap[p].deadline, sub) {
            var threw := AwaitSuspend(p, h, sub);
          }
        } else if * {
          if p in owned {
            DestroyIop(p);
          }
        } else if depth > 0 && p in cqes && i < |cqes[p]| {
          Execute(p, i, depth - 1);
        }
      }
    }

    /**
     * The loops over ready CQEs in run_until and run_batch, `count` of them in any order; `at` says where in the trace
     * each was taken.  Fewer are executed only when none is left.
     */
    method ExecuteReady(count: nat, depth: nat) returns (ghost at: seq<nat>)
      requires Valid()
      modifies this
      ensures Valid() && frames == old(frames) && old(trace) <= trace
      ensures |at| <= count && (|at| < count ==> forall p :: p in cqes ==> cqes[p] == [])
      ensures TakenAt(trace, at, |old(trace)|)
    {
      at := [];
      for k := 0 to count
        invariant Valid() && frames == old(frames) && old(trace) <= trace
        invariant |at| == k && TakenAt(trace, at, |old(trace)|)
      {
        if p: Ptr :| p in cqes && cqes[p] != [] {
          var i: nat :| i < |cqes[p]|;
          at := at + [|trace|];
          Execute(p, i, depth);
        } else {
          break;
        }
      }
    }

    /** ~impl, once no execute call is running. */
    method Teardown()
      requires Valid() && frames == []
      modifies this`heap
      ensures forall p :: p in heap <==> p in owned || AwaitsSecondCqe(trace, p)
    {
      TeardownLeaves(trace);
      ghost var left := DeleteAll(heap, outstanding);
      for k := 0 to |outstanding|
        invariant DeleteAll(heap, outstanding[k..]) == left && left.Some?
      {
        heap := heap - {outstanding[k]};
      }
    }
  }
}
