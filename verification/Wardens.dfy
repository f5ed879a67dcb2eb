/** Where the two wardens must look the same to a coroutine. */
module Wardens {
  import opened Basics
  import opened Lifecycle
  import Poll = PollMachine
  import PollInvariant
  import PollTheorems
  import Uring = UringMachine
  import UringTheorems

  /** The completion class each poll IOP corresponds to on io_uring. */
  function SameOperation(kind: Poll.Kind): Uring.Kind {
    match kind
    case Sleep => Uring.SleepOp
    case _ => if PollTheorems.IsVoid(kind) then Uring.VoidOp else Uring.ValueOp
  }

  /**
   * A deadline that passes in clear_timeouts, or a sleep that ends there, leaves an IOP just where io_uring leaves
   * one of the same kind once its CQEs, which say that time is up, are executed.
   */
  lemma TimeoutsLookAlike(s: Poll.Reactor, now: int, r: Uring.Ring, q: Uring.Ptr)
    requires PollInvariant.Reachable(s) && s.batch == [] && s.timeouts != []
    requires s.timeouts[0].at - now < Poll.MILLISECOND && s.timeouts[0].who in s.heap
    requires UringTheorems.HonestlyReachable(r) && UringTheorems.Drained(r, q)
    requires |r.posted[q]| == Uring.Submissions(r.heap[q].deadline) && UringTheorems.Verdict(r.posted[q]) == -ETIME
    requires r.heap[q].kind == SameOperation(s.heap[s.timeouts[0].who].kind)
    ensures Poll.Apply(s, Poll.Fire(now)).Running?
    ensures PollTheorems.LifeOf(Poll.Apply(s, Poll.Fire(now)).reactor, s.timeouts[0].who) == UringTheorems.LifeOf(r, q)
    ensures UringTheorems.LifeOf(r, q).Done?
  {
    PollTheorems.TimeoutReply(s, now);
    UringTheorems.ResumedExactlyOnce(r, q);
    DrainedIsDone(r, q);
  }

  lemma DrainedIsDone(r: Uring.Ring, q: Uring.Ptr)
    requires UringTheorems.HonestlyReachable(r) && UringTheorems.Drained(r, q)
    requires |r.posted[q]| == Uring.Submissions(r.heap[q].deadline) && |Uring.LogOf(r, q)| == 1
    ensures UringTheorems.LifeOf(r, q)
      == Done(AwaitResume(r.heap[q].kind != Uring.ValueOp, Uring.LogOf(r, q)[0].outcome))
  {
    UringTheorems.HonestlyReachableIsSound(r);
    assert Uring.LocalInv(r, q);
  }
}
