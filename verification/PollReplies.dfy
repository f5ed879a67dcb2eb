/** What a coroutine reads, told from the kind of its IOP and the answer of the system call, and when poll wakes it. */
module PollReplies {
  import opened Basics
  import opened Lifecycle
  import opened PollMachine
  import opened PollInvariant
  import opened PollTheorems

  // ----- Replies -----

  /** How co_await ends when an error number is stored; zero is no error and leaves no value either. */
  function Failure(isVoid: bool, code: int): Reply {
    if code == ETIME then ThrewTimeout
    else if code != 0 then ThrewSystem(code)
    else if isVoid then ReturnedVoid
    else ThrewEmpty
  }

  /** read, write and accept; None while they would block. */
  function TransferReply(kind: Kind, sys: Sys): Option<Reply> {
    match sys
    case Done(n) => Some(Returned(n))
    case Errno(code) =>
      if code == EAGAIN then None
      else if kind == Accept && code == EBADF then Some(Returned(-1))
      else Some(Failure(false, code))
    case SoError(_, _) => None
  }

  /** What an await reads at once, given the answer of its first system call; None if it suspends. */
  function FirstReply(kind: Kind, sys: Sys): Option<Reply> {
    match kind
    case Close => Some(ReturnedVoid)
    case Sleep => None
    case ReadReady => None
    case WriteReady => None
    case Connect => (
      match sys
      case Done(_) => Some(ReturnedVoid)
      case Errno(code) => if code == EINPROGRESS then None else Some(Failure(true, code))
      case SoError(_, _) => None)
    case _ => TransferReply(kind, sys)
  }

  /** What it reads once its descriptor was ready and the call has been made again; None if it has to wait again. */
  function LaterReply(kind: Kind, sys: Sys): Option<Reply> {
    match kind
    case Close => Some(ReturnedVoid)
    case Sleep => None
    case ReadReady => Some(ReturnedVoid)
    case WriteReady => Some(ReturnedVoid)
    case Connect => (
      match sys
      case Done(_) => None
      case Errno(code) => Some(Failure(true, code))
      case SoError(errvalue, errno) =>
        if errvalue == 0 then Some(ReturnedVoid)
        else if errno == EINPROGRESS then None
        else Some(Failure(true, errno)))
    case _ => TransferReply(kind, sys)
  }

  function LifeAfter(reply: Option<Reply>): Life {
    match reply
    case Some(r) => Life.Done(r)
    case None => Suspended
  }

  /** Awaited, not resumed so far, nothing stored. */
  ghost predicate Ready(s: Reactor, p: Ptr) {
    Waiting(s, p) && p < s.next && s.heap[p].handle.Some? && s.heap[p].result == FRESH_OUTCOME
  }

  /** Storing an outcome and resuming. */
  lemma FinishReplies(s: Reactor, p: Ptr, o: Outcome)
    requires Ready(s, p)
    ensures var st := CancelTimeoutThenResume(SetResult(s, p, o), p);
      st.Running? && LifeOf(st.reactor, p) == Life.Done(AwaitResume(IsVoid(s.heap[p].kind), o))
    ensures var st := Resume(SetResult(s, p, o), p);
      st.Running? && LifeOf(st.reactor, p) == Life.Done(AwaitResume(IsVoid(s.heap[p].kind), o))
  {
  }

  lemma PlainReplies(s: Reactor, p: Ptr)
    requires Ready(s, p) && IsVoid(s.heap[p].kind)
    ensures var st := CancelTimeoutThenResume(s, p); st.Running? && LifeOf(st.reactor, p) == Life.Done(ReturnedVoid)
    ensures var st := Resume(s, p); st.Running? && LifeOf(st.reactor, p) == Life.Done(ReturnedVoid)
    ensures LifeOf(Enqueue(s, p), p) == Suspended && LifeOf(InsertTimeout(Enqueue(s, p), p), p) == Suspended
  {
  }

  lemma TransferReplies(s: Reactor, p: Ptr, sys: Sys)
    requires Ready(s, p) && s.heap[p].kind in {Read, Write, Accept} && TryTransfer(s, p, sys).Running?
    ensures LifeOf(TryTransfer(s, p, sys).reactor, p) == LifeAfter(TransferReply(s.heap[p].kind, sys))
  {
    match sys
    case Done(n) => FinishReplies(s, p, Outcome(0, Some(n)));
    case Errno(code) =>
      FinishReplies(s, p, Outcome(0, Some(-1)));
      FinishReplies(s, p, Outcome(code, None));
  }

  lemma ConnectReplies(s: Reactor, p: Ptr, sys: Sys)
    requires Ready(s, p) && s.heap[p].kind == Connect && TryConnect(s, p, sys).Running?
    ensures LifeOf(TryConnect(s, p, sys).reactor, p) == LifeAfter(LaterReply(Connect, sys))
  {
    PlainReplies(s, p);
    match sys
    case Errno(code) => FinishReplies(s, p, Outcome(code, None));
    case SoError(_, errno) => FinishReplies(s, p, Outcome(errno, None));
  }

  lemma AttemptReplies(s: Reactor, p: Ptr, sys: Sys)
    requires Ready(s, p) && TryOrResume(s, p, sys).Running?
    ensures LifeOf(TryOrResume(s, p, sys).reactor, p) == LifeAfter(LaterReply(s.heap[p].kind, sys))
  {
    match s.heap[p].kind
    case Read => TransferReplies(s, p, sys);
    case Write => TransferReplies(s, p, sys);
    case Accept => TransferReplies(s, p, sys);
    case Connect => ConnectReplies(s, p, sys);
    case Sleep =>
    case _ => PlainReplies(s, p);
  }

  lemma StartReplies(s: Reactor, p: Ptr, sys: Sys)
    requires Ready(s, p) && AwaitSuspend(s, p, sys).Running?
    ensures LifeOf(AwaitSuspend(s, p, sys).reactor, p) == LifeAfter(FirstReply(s.heap[p].kind, sys))
  {
    match s.heap[p].kind
    case Connect =>
      PlainReplies(s, p);
      if sys.Errno? { FinishReplies(s, p, Outcome(sys.code, None)); }
    case ReadReady => PlainReplies(s, p);
    case WriteReady => PlainReplies(s, p);
    case _ => AttemptReplies(InsertTimeout(s, p), p, sys);
  }

  /** An await that is answered at once reads that answer; any other suspends. */
  lemma AwaitReplies(s: Reactor, p: Ptr, h: Handle, sys: Sys)
    requires Reachable(s) && Apply(s, Await(p, h, sys)).Running?
    ensures p in s.heap
    ensures LifeOf(Apply(s, Await(p, h, sys)).reactor, p) == LifeAfter(FirstReply(s.heap[p].kind, sys))
  {
    ReachableIsSound(s);
    assert LocalInv(s, p);
    StartReplies(s.(heap := s.heap[p := s.heap[p].(handle := Some(h))], awaited := s.awaited + {p}), p, sys);
  }

  /** A continuation of do_poll that is answered reads that answer; any other goes on waiting. */
  lemma ContinueReplies(s: Reactor, sys: Sys)
    requires Reachable(s) && Apply(s, Continue(sys)).Running?
    ensures s.batch != [] && s.batch[0] in s.heap
    ensures LifeOf(Apply(s, Continue(sys)).reactor, s.batch[0]) == LifeAfter(LaterReply(s.heap[s.batch[0]].kind, sys))
  {
    ReachableIsSound(s);
    HeadInHand(s);
    AttemptReplies(s.(batch := s.batch[1..]), s.batch[0], sys);
  }

  // ----- Readiness -----

  predicate Reads(kind: Kind) {
    kind == Read || kind == Accept || kind == ReadReady
  }

  predicate Writes(kind: Kind) {
    kind == Write || kind == Connect || kind == WriteReady
  }

  lemma Parked(s: Reactor, p: Ptr)
    requires Inv(s) && Waiting(s, p) && p !in s.batch
    ensures Reads(s.heap[p].kind) ==> s.heap[p].fd in s.requests && p in s.requests[s.heap[p].fd].readers
    ensures Writes(s.heap[p].kind) ==> s.heap[p].fd in s.requests && p in s.requests[s.heap[p].fd].writers
  {
    var fd := s.heap[p].fd;
    assert LocalInv(s, p) && Times(s.batch, p) == 0;
    if Reads(s.heap[p].kind) {
      assert IsHome(s, p, fd, In) && Times(Queue(s.requests, fd, In), p) == 1;
    } else if Writes(s.heap[p].kind) {
      assert IsHome(s, p, fd, Out) && Times(Queue(s.requests, fd, Out), p) == 1;
    }
  }

  /** Also between continuations: whoever waits and is not in the batch is in the queue its kind calls for. */
  lemma QueuedByKind(s: Reactor, p: Ptr)
    requires Reachable(s) && Waiting(s, p) && p !in s.batch
    ensures var c := s.heap[p];
      if c.kind == Sleep then c.deadline.Some? && Timer(c.deadline.value, p) in s.timeouts
      else c.fd in s.requests && if Reads(c.kind) then p in s.requests[c.fd].readers else p in s.requests[c.fd].writers
  {
    ReachableIsSound(s);
    Parked(s, p);
    assert LocalInv(s, p);
    if s.heap[p].kind == Sleep {
      assert multiset(s.timeouts)[Timer(s.heap[p].deadline.value, p)] == 1;
    }
  }

  lemma MovedIff(s: Reactor, order: seq<int>, revents: map<int, Revents>, p: Ptr)
    requires Inv(s) && s.batch == [] && Enumerates(order, s.requests) && Waiting(s, p)
    requires DirectionOf(s.heap[p].kind).Some?
    ensures p in Apply(s, Poll(order, revents)).reactor.batch
       <==> Matched(revents, s.heap[p].fd, DirectionOf(s.heap[p].kind).value)
  {
    var t := Apply(s, Poll(order, revents)).reactor;
    var fd, dir := s.heap[p].fd, DirectionOf(s.heap[p].kind).value;
    PollMoves(s, order, revents);
    assert LocalInv(s, p) && IsHome(s, p, fd, dir) && Times(s.batch, p) == 0;
    assert AtMostIn(s.requests, p, fd, dir) && Times(Queue(s.requests, fd, dir), p) == 1;
    assert p in t.batch <==> Times(t.batch, p) > 0;
  }

  lemma StaysParked(s: Reactor, order: seq<int>, revents: map<int, Revents>, p: Ptr)
    requires Inv(s) && s.batch == [] && Enumerates(order, s.requests) && Waiting(s, p)
    ensures var t := Apply(s, Poll(order, revents)).reactor; var c := s.heap[p];
      p !in t.batch ==>
        && (Reads(c.kind) ==> c.fd in t.requests && p in t.requests[c.fd].readers)
        && (Writes(c.kind) ==> c.fd in t.requests && p in t.requests[c.fd].writers)
  {
    PollKeeps(s, order, revents);
    if p !in Apply(s, Poll(order, revents)).reactor.batch { Parked(Apply(s, Poll(order, revents)).reactor, p); }
  }

  /** Whoever waits to read or accept, or to be able to, is polled for input and woken by it, a hang-up or an error. */
  lemma ReaderWakesIff(s: Reactor, order: seq<int>, revents: map<int, Revents>, p: Ptr)
    requires Reachable(s) && s.batch == [] && Enumerates(order, s.requests)
    requires Waiting(s, p) && Reads(s.heap[p].kind)
    ensures var fd := s.heap[p].fd; var t := Apply(s, Poll(order, revents)).reactor;
      && fd in s.requests && p in s.requests[fd].readers
      && PollFd(fd, true, s.requests[fd].writers != []) in PollSet(s.requests, order)
      && (p in t.batch <==>
            fd in revents && (revents[fd].pollin || revents[fd].pollhup || revents[fd].pollerr || revents[fd].pollnval))
      && (p !in t.batch ==> fd in t.requests && p in t.requests[fd].readers)
  {
    ReachableIsSound(s);
    Parked(s, p);
    MovedIff(s, order, revents, p);
    PollSetContents(s.requests, order, PollFdOf(s.requests, s.heap[p].fd));
    StaysParked(s, order, revents, p);
  }

  /** Whoever waits to write or connect, or to be able to, is polled for output and woken by it or an error. */
  lemma WriterWakesIff(s: Reactor, order: seq<int>, revents: map<int, Revents>, p: Ptr)
    requires Reachable(s) && s.batch == [] && Enumerates(order, s.requests)
    requires Waiting(s, p) && Writes(s.heap[p].kind)
    ensures var fd := s.heap[p].fd; var t := Apply(s, Poll(order, revents)).reactor;
      && fd in s.requests && p in s.requests[fd].writers
      && PollFd(fd, s.requests[fd].readers != [], true) in PollSet(s.requests, order)
      && (p in t.batch <==>
            fd in revents && (revents[fd].pollout || revents[fd].pollerr || revents[fd].pollnval))
      && (p !in t.batch ==> fd in t.requests && p in t.requests[fd].writers)
  {
    ReachableIsSound(s);
    Parked(s, p);
    MovedIff(s, order, revents, p);
    PollSetContents(s.requests, order, PollFdOf(s.requests, s.heap[p].fd));
    StaysParked(s, order, revents, p);
  }

  /** p is tried before q: by descriptor, and for one descriptor those who read before those who write. */
  ghost predicate TriedBefore(s: Reactor, p: Ptr, q: Ptr) {
    && p in s.heap && q in s.heap
    && (s.heap[p].fd < s.heap[q].fd || (s.heap[p].fd == s.heap[q].fd && (Writes(s.heap[p].kind) ==> Writes(s.heap[q].kind))))
  }

  ghost predicate InTryOrder(s: Reactor, ps: seq<Ptr>) {
    forall i, j :: 0 <= i < j < |ps| ==> TriedBefore(s, ps[i], ps[j])
  }

  lemma InTryOrderAppend(s: Reactor, a: seq<Ptr>, b: seq<Ptr>)
    requires InTryOrder(s, a) && InTryOrder(s, b) && forall p, q :: p in a && q in b ==> TriedBefore(s, p, q)
    ensures InTryOrder(s, a + b)
  {
    forall i, j | 0 <= i < j < |a + b| ensures TriedBefore(s, (a + b)[i], (a + b)[j]) {
      if i < |a| <= j {
        assert a[i] in a && b[j - |a|] in b;
      } else if i >= |a| {
        assert TriedBefore(s, b[i - |a|], b[j - |a|]);
      }
    }
  }

  lemma MovedInOrder(s: Reactor, revents: map<int, Revents>, fd: int, dir: Direction)
    requires AllHome(s)
    ensures InTryOrder(s, Moved(s.requests, revents, fd, dir))
    ensures forall p :: p in Moved(s.requests, revents, fd, dir) ==>
              p in s.heap && s.heap[p].fd == fd && (dir == Out <==> Writes(s.heap[p].kind))
  {
    var ps := Moved(s.requests, revents, fd, dir);
    forall p | p in ps ensures p in s.heap && s.heap[p].fd == fd && (dir == Out <==> Writes(s.heap[p].kind)) {
      assert p in Queue(s.requests, fd, dir) && IsHome(s, p, fd, dir);
    }
    forall i, j | 0 <= i < j < |ps| ensures TriedBefore(s, ps[i], ps[j]) {
      assert ps[i] in ps && ps[j] in ps;
    }
  }

  lemma {:induction false} GatherInOrder(s: Reactor, revents: map<int, Revents>, order: seq<int>)
    requires AllHome(s) && Ascending(order)
    ensures InTryOrder(s, Gather(s.requests, revents, order))
    ensures forall p :: p in Gather(s.requests, revents, order) ==> p in s.heap && s.heap[p].fd in order
  {
    if order != [] {
      var n := |order| - 1;
      var rest := Gather(s.requests, revents, order[..n]);
      var ins, outs := Moved(s.requests, revents, order[n], In), Moved(s.requests, revents, order[n], Out);
      LastIsNew(order);
      GatherInOrder(s, revents, order[..n]);
      MovedInOrder(s, revents, order[n], In);
      MovedInOrder(s, revents, order[n], Out);
      assert forall fd :: fd in order[..n] ==> fd < order[n];
      InTryOrderAppend(s, rest, ins);
      InTryOrderAppend(s, rest + ins, outs);
    }
  }

  /** do_poll tries its continuations by descriptor, readers first, and for each in the order of their queue. */
  lemma BatchInOrder(s: Reactor, order: seq<int>, revents: map<int, Revents>)
    requires Reachable(s) && s.batch == [] && Enumerates(order, s.requests)
    ensures InTryOrder(s, Apply(s, Poll(order, revents)).reactor.batch)
  {
    ReachableIsSound(s);
    InvAllHome(s);
    GatherInOrder(s, revents, order);
  }
}
