/**
 * The poll warden's registry as a transition system.
 *
 * Raw pointers to one completion may sit in a per-descriptor queue, in the timeouts and in the batch of
 * continuations that do_poll is working through.  Every event is one uninterrupted stretch of library code;
 * what coroutines do when resumed are further events.  Touching an address outside `heap` is a Fault.
 */
module PollMachine {
  import opened Basics

  type Ptr = nat
  type Handle = nat

  const MILLISECOND := 1_000_000      // times are in nanoseconds

  datatype Kind = Close | Sleep | Read | Write | Accept | Connect | ReadReady | WriteReady

  datatype Direction = In | Out

  datatype Completion = Completion(kind: Kind, fd: int, deadline: Option<int>, handle: Option<Handle>, result: Outcome)

  datatype Request = Request(readers: seq<Ptr>, writers: seq<Ptr>)

  datatype Timer = Timer(at: int, who: Ptr)

  /** One call of handle.resume(): whose handle, and the outcome stored by then. */
  datatype Resumption = Resumption(handle: Handle, outcome: Outcome)

  datatype Reactor = Reactor(
    heap: map<Ptr, Completion>,
    requests: map<int, Request>,
    timeouts: seq<Timer>,             // the multimap, in iteration order
    batch: seq<Ptr>,                  // continuations of do_poll not tried yet
    next: Ptr,                        // every address below was allocated once
    awaited: set<Ptr>,
    log: map<Ptr, seq<Resumption>>)   // history of resumptions

  const INITIAL := Reactor(map[], map[], [], [], 0, {}, map[])

  /** What a system call answers: a non-negative number, -1 with errno, or SO_ERROR next to a stale errno. */
  datatype Sys = Done(n: nat) | Errno(code: int) | SoError(errvalue: int, errno: int)

  datatype Revents = Revents(pollin: bool, pollout: bool, pollhup: bool, pollerr: bool, pollnval: bool)

  datatype Event =
    | Create(kind: Kind, fd: int, deadline: Option<int>)
    | Await(p: Ptr, h: Handle, sys: Sys)
    | Destroy(p: Ptr)
    | Fire(now: int)                                            // one turn of clear_timeouts
    | Poll(order: seq<int>, revents: map<int, Revents>)         // do_poll up to the continuations
    | Continue(sys: Sys)                                        // do_poll tries the next continuation

  /** Illegal: the client broke its side or the event cannot happen.  Fault: a dead object was touched. */
  datatype Status = Running(reactor: Reactor) | Fault | Illegal

  // ----- Queues and timers -----

  function DirectionOf(kind: Kind): Option<Direction> {
    match kind
    case Read => Some(In)
    case Accept => Some(In)
    case ReadReady => Some(In)
    case Write => Some(Out)
    case Connect => Some(Out)
    case WriteReady => Some(Out)
    case Close => None
    case Sleep => None
  }

  function RequestOf(requests: map<int, Request>, fd: int): Request {
    if fd in requests then requests[fd] else Request([], [])
  }

  function Queue(requests: map<int, Request>, fd: int, dir: Direction): seq<Ptr> {
    var r := RequestOf(requests, fd);
    if dir == In then r.readers else r.writers
  }

  function WithQueue(requests: map<int, Request>, fd: int, dir: Direction, q: seq<Ptr>): (rs: map<int, Request>)
    ensures forall f, d :: Queue(rs, f, d) == if f == fd && d == dir then q else Queue(requests, f, d)
    ensures rs.Keys == requests.Keys + {fd}
  {
    var r := RequestOf(requests, fd);
    requests[fd := if dir == In then r.(readers := q) else r.(writers := q)]
  }

  ghost predicate Sorted(ts: seq<Timer>) {
    forall i, j :: 0 <= i < j < |ts| ==> ts[i].at <= ts[j].at
  }

  /** multimap::insert puts equal keys in order of insertion. */
  function InsertTimer(ts: seq<Timer>, t: Timer): seq<Timer> {
    if ts == [] || t.at < ts[0].at then [t] + ts else [ts[0]] + InsertTimer(ts[1..], t)
  }

  /** find_if by completion, then erase: only the first match goes. */
  function EraseTimer(ts: seq<Timer>, p: Ptr): seq<Timer> {
    if ts == [] then []
    else if ts[0].who == p then ts[1..]
    else [ts[0]] + EraseTimer(ts[1..], p)
  }

  lemma {:induction false} InsertTimerAdds(ts: seq<Timer>, t: Timer)
    ensures multiset(InsertTimer(ts, t)) == multiset(ts) + multiset{t}
  {
    if ts != [] && ts[0].at <= t.at {
      assert ts == [ts[0]] + ts[1..];
      InsertTimerAdds(ts[1..], t);
    }
  }

  lemma {:induction false} EraseTimerDrops(ts: seq<Timer>, p: Ptr)
    ensures (forall t: Timer :: t in ts ==> t.who != p) ==> EraseTimer(ts, p) == ts
    ensures (exists t: Timer :: t in ts && t.who == p) ==>
      exists at :: Timer(at, p) in ts && multiset(ts) == multiset(EraseTimer(ts, p)) + multiset{Timer(at, p)}
  {
    if ts != [] {
      assert ts == [ts[0]] + ts[1..];
      if ts[0].who == p {
        assert ts[0] == Timer(ts[0].at, p) && ts[0] in ts;
      } else {
        EraseTimerDrops(ts[1..], p);
        if t: Timer :| t in ts && t.who == p {
          assert t in ts[1..];
          var at :| Timer(at, p) in ts[1..]
            && multiset(ts[1..]) == multiset(EraseTimer(ts[1..], p)) + multiset{Timer(at, p)};
          assert Timer(at, p) in ts && multiset(ts) == multiset(EraseTimer(ts, p)) + multiset{Timer(at, p)};
        }
      }
    }
  }

  lemma SortedCons(t: Timer, ts: seq<Timer>)
    requires Sorted(ts) && forall x: Timer :: x in multiset(ts) ==> t.at <= x.at
    ensures Sorted([t] + ts)
  {
    forall i, j | 0 <= i < j < |ts| + 1 ensures ([t] + ts)[i].at <= ([t] + ts)[j].at {
      assert ([t] + ts)[j] in multiset(ts);
    }
  }

  lemma SortedTail(ts: seq<Timer>)
    requires Sorted(ts) && ts != []
    ensures Sorted(ts[1..]) && forall x: Timer :: x in multiset(ts[1..]) ==> ts[0].at <= x.at
  {
  }

  lemma {:induction false} InsertTimerSorts(ts: seq<Timer>, t: Timer)
    requires Sorted(ts)
    ensures Sorted(InsertTimer(ts, t))
  {
    if ts != [] {
      SortedTail(ts);
      if ts[0].at <= t.at {
        InsertTimerSorts(ts[1..], t);
        InsertTimerAdds(ts[1..], t);
        SortedCons(ts[0], InsertTimer(ts[1..], t));
      } else {
        SortedCons(t, ts);
      }
    }
  }

  /** The new timer goes behind those due no later and in front of those due later: equal keys in order of insertion. */
  lemma {:induction false} InsertTimerPlace(ts: seq<Timer>, t: Timer) returns (k: nat)
    requires Sorted(ts)
    ensures k <= |ts| && InsertTimer(ts, t) == ts[..k] + [t] + ts[k..]
    ensures forall i :: 0 <= i < |ts| ==> (i < k <==> ts[i].at <= t.at)
  {
    if ts == [] || t.at < ts[0].at {
      k := 0;
    } else {
      SortedTail(ts);
      k := InsertTimerPlace(ts[1..], t);
      k := k + 1;
      assert ts[..k] == [ts[0]] + ts[1..][..k - 1] && ts[k..] == ts[1..][k - 1..];
      forall i | 0 <= i < |ts| ensures i < k <==> ts[i].at <= t.at {
        assert i > 0 ==> ts[i] == ts[1..][i - 1];
      }
    }
  }

  lemma {:induction false} EraseTimerSorts(ts: seq<Timer>, p: Ptr)
    requires Sorted(ts)
    ensures Sorted(EraseTimer(ts, p)) && multiset(EraseTimer(ts, p)) <= multiset(ts)
  {
    if ts != [] {
      SortedTail(ts);
      assert ts == [ts[0]] + ts[1..];
      if ts[0].who != p {
        EraseTimerSorts(ts[1..], p);
        SortedCons(ts[0], EraseTimer(ts[1..], p));
      }
    }
  }

  // ----- completion<R> -----

  function InsertTimeout(s: Reactor, p: Ptr): Reactor
    requires p in s.heap
  {
    if s.heap[p].deadline.Some? then s.(timeouts := InsertTimer(s.timeouts, Timer(s.heap[p].deadline.value, p))) else s
  }

  function CancelTimeout(s: Reactor, p: Ptr): Reactor
    requires p in s.heap
  {
    if s.heap[p].deadline.Some? then s.(timeouts := EraseTimer(s.timeouts, p)) else s
  }

  function CancelIop(s: Reactor, p: Ptr): Reactor
    requires p in s.heap
  {
    match DirectionOf(s.heap[p].kind)
    case Some(dir) =>
      var fd := s.heap[p].fd;
      s.(requests := WithQueue(s.requests, fd, dir, Erase(Queue(s.requests, fd, dir), p)))
    case None => s
  }

  function Enqueue(s: Reactor, p: Ptr): Reactor
    requires p in s.heap
  {
    match DirectionOf(s.heap[p].kind)
    case Some(dir) =>
      var fd := s.heap[p].fd;
      s.(requests := WithQueue(s.requests, fd, dir, Queue(s.requests, fd, dir) + [p]))
    case None => s
  }

  function SetResult(s: Reactor, p: Ptr, o: Outcome): Reactor
    requires p in s.heap
  {
    s.(heap := s.heap[p := s.heap[p].(result := o)])
  }

  function LogOf(s: Reactor, p: Ptr): seq<Resumption> {
    if p in s.log then s.log[p] else []
  }

  function Resume(s: Reactor, p: Ptr): Status {
    if p !in s.heap || s.heap[p].handle.None? then Fault
    else Running(s.(log := s.log[p := LogOf(s, p) + [Resumption(s.heap[p].handle.value, s.heap[p].result)]]))
  }

  function CancelTimeoutThenResume(s: Reactor, p: Ptr): Status
    requires p in s.heap
  {
    Resume(CancelTimeout(s, p), p)
  }

  /** A read, write or accept attempt. */
  function TryTransfer(s: Reactor, p: Ptr, sys: Sys): Status
    requires p in s.heap
  {
    match sys
    case Done(n) => CancelTimeoutThenResume(SetResult(s, p, s.heap[p].result.AssignValue(n)), p)
    case Errno(code) =>
      if code == EAGAIN then Running(Enqueue(s, p))
      else if s.heap[p].kind == Accept && code == EBADF
      then CancelTimeoutThenResume(SetResult(s, p, s.heap[p].result.AssignValue(-1)), p)
      else CancelTimeoutThenResume(SetResult(s, p, s.heap[p].result.AssignError(code)), p)
    case SoError(_, _) => Illegal
  }

  /** connect's follow up; the branch on errno and the second insert_timeout are the code's own. */
  function TryConnect(s: Reactor, p: Ptr, sys: Sys): Status
    requires p in s.heap
  {
    match sys
    case Done(_) => Illegal
    case Errno(code) => CancelTimeoutThenResume(SetResult(s, p, s.heap[p].result.AssignError(code)), p)
    case SoError(errvalue, errno) =>
      if errvalue == 0 then CancelTimeoutThenResume(s, p)
      else if errno == EINPROGRESS then Running(InsertTimeout(Enqueue(s, p), p))
      else CancelTimeoutThenResume(SetResult(s, p, s.heap[p].result.AssignError(errno)), p)
  }

  function TryOrResume(s: Reactor, p: Ptr, sys: Sys): Status
    requires p in s.heap
  {
    match s.heap[p].kind
    case Close => CancelTimeoutThenResume(s, p)
    case Sleep => Running(s)
    case Connect => TryConnect(s, p, sys)
    case ReadReady => CancelTimeoutThenResume(s, p)
    case WriteReady => CancelTimeoutThenResume(s, p)
    case _ => TryTransfer(s, p, sys)
  }

  function AwaitSuspend(s: Reactor, p: Ptr, sys: Sys): Status
    requires p in s.heap
  {
    match s.heap[p].kind
    case Connect => (
      match sys
      case Done(_) => Resume(s, p)
      case Errno(code) =>
        if code == EINPROGRESS then Running(InsertTimeout(Enqueue(s, p), p))
        else Resume(SetResult(s, p, s.heap[p].result.AssignError(code)), p)
      case SoError(_, _) => Illegal)
    case ReadReady => Running(InsertTimeout(Enqueue(s, p), p))
    case WriteReady => Running(InsertTimeout(Enqueue(s, p), p))
    case _ => TryOrResume(InsertTimeout(s, p), p, sys)
  }

  function IopTimedOut(s: Reactor, p: Ptr): Status
    requires p in s.heap
  {
    if s.heap[p].kind == Sleep then Resume(s, p)
    else
      var t := CancelIop(s, p);
      Resume(SetResult(t, p, t.heap[p].result.AssignError(ETIME)), p)
  }

  // ----- do_poll -----

  predicate Readable(r: Revents) {
    r.pollin || r.pollhup || r.pollerr || r.pollnval
  }

  predicate Writable(r: Revents) {
    r.pollout || r.pollerr || r.pollnval
  }

  /** The descriptor reported an event that moves this queue. */
  predicate Matched(revents: map<int, Revents>, fd: int, dir: Direction) {
    fd in revents && if dir == In then Readable(revents[fd]) else Writable(revents[fd])
  }

  function Moved(requests: map<int, Request>, revents: map<int, Revents>, fd: int, dir: Direction): seq<Ptr> {
    if Matched(revents, fd, dir) then Queue(requests, fd, dir) else []
  }

  function Gather(requests: map<int, Request>, revents: map<int, Revents>, order: seq<int>): seq<Ptr> {
    if order == [] then []
    else
      var n := |order| - 1;
      Gather(requests, revents, order[..n])
      + Moved(requests, revents, order[n], In) + Moved(requests, revents, order[n], Out)
  }

  function ClearMatched(requests: map<int, Request>, revents: map<int, Revents>): (rs: map<int, Request>)
    ensures forall f, d :: Queue(rs, f, d) == if f in requests && Matched(revents, f, d) then [] else Queue(requests, f, d)
  {
    map fd | fd in requests :: Request(if Matched(revents, fd, In) then [] else requests[fd].readers,
                                       if Matched(revents, fd, Out) then [] else requests[fd].writers)
  }

  predicate Ascending(order: seq<int>) {
    forall i, j :: 0 <= i < j < |order| ==> order[i] < order[j]
  }

  /** The iteration order of std::map. */
  predicate Enumerates(order: seq<int>, requests: map<int, Request>) {
    && Ascending(order)
    && (forall fd :: fd in order ==> fd in requests)
    && (forall fd :: fd in requests ==> fd in order)
  }

  // ----- Steps and runs -----

  predicate DeadlineFits(kind: Kind, deadline: Option<int>) {
    (kind == Close ==> deadline.None?) && (kind == Sleep ==> deadline.Some?)
  }

  function Apply(s: Reactor, e: Event): Status {
    match e
    case Create(kind, fd, deadline) =>
      if !DeadlineFits(kind, deadline) then Illegal
      else
        Running(s.(heap := s.heap[s.next := Completion(kind, fd, deadline, None, FRESH_OUTCOME)],
                   log := s.log[s.next := []], next := s.next + 1))
    case Await(p, h, sys) =>
      if p !in s.heap || p in s.awaited then Illegal
      else
        var t := s.(heap := s.heap[p := s.heap[p].(handle := Some(h))], awaited := s.awaited + {p});
        AwaitSuspend(t, p, sys)
    case Destroy(p) =>
      if p !in s.heap then Illegal
      else
        var t := CancelIop(CancelTimeout(s, p), p);
        Running(t.(heap := t.heap - {p}))
    case Fire(now) =>
      if s.batch != [] || s.timeouts == [] || s.timeouts[0].at - now >= MILLISECOND then Illegal
      else if s.timeouts[0].who !in s.heap then Fault
      else IopTimedOut(s.(timeouts := s.timeouts[1..]), s.timeouts[0].who)
    case Poll(order, revents) =>
      if s.batch != [] || !Enumerates(order, s.requests) then Illegal
      else Running(s.(batch := Gather(s.requests, revents, order), requests := ClearMatched(s.requests, revents)))
    case Continue(sys) =>
      if s.batch == [] then Illegal
      else if s.batch[0] !in s.heap then Fault
      else TryOrResume(s.(batch := s.batch[1..]), s.batch[0], sys)
  }

  function Run(es: seq<Event>): Status {
    if es == [] then Running(INITIAL)
    else match Run(es[..|es| - 1])
      case Running(s) => Apply(s, es[|es| - 1])
      case bad => bad
  }

  // ----- The invariant -----

  ghost function Times(ps: seq<Ptr>, p: Ptr): nat {
    multiset(ps)[p]
  }

  /** Suspended in its co_await. */
  ghost predicate Waiting(s: Reactor, p: Ptr) {
    p in s.heap && p in s.awaited && LogOf(s, p) == []
  }

  ghost predicate IsHome(s: Reactor, p: Ptr, fd: int, dir: Direction) {
    p in s.heap && s.heap[p].fd == fd && DirectionOf(s.heap[p].kind) == Some(dir)
  }

  /** A waiter is in the one queue of its descriptor and direction, or in the batch, and nobody else is. */
  ghost predicate QueuesAgree(s: Reactor, p: Ptr) {
    forall fd, dir :: Times(Queue(s.requests, fd, dir), p)
      == if Waiting(s, p) && IsHome(s, p, fd, dir) && Times(s.batch, p) == 0 then 1 else 0
  }

  ghost predicate BatchAgrees(s: Reactor, p: Ptr) {
    && Times(s.batch, p) <= 1
    && (Times(s.batch, p) == 1 ==> Waiting(s, p) && DirectionOf(s.heap[p].kind).Some?)
  }

  /** One timer per waiter with a deadline, at that deadline, and no other. */
  ghost predicate TimersAgree(s: Reactor, p: Ptr) {
    forall at :: multiset(s.timeouts)[Timer(at, p)] == if Waiting(s, p) && s.heap[p].deadline == Some(at) then 1 else 0
  }

  ghost predicate HistoryAgrees(s: Reactor, p: Ptr) {
    && (p in s.heap || p in s.awaited || p in s.log ==> p < s.next)
    && (p in s.heap ==> DeadlineFits(s.heap[p].kind, s.heap[p].deadline))
    && (Waiting(s, p) ==> s.heap[p].kind != Close)
    && (p in s.heap && p in s.awaited ==> s.heap[p].handle.Some?)
    && |LogOf(s, p)| <= 1
    && (LogOf(s, p) != [] ==> p in s.awaited)
    && (p in s.heap && LogOf(s, p) == [] ==> s.heap[p].result == FRESH_OUTCOME)
  }

  ghost predicate LocalInv(s: Reactor, p: Ptr) {
    QueuesAgree(s, p) && BatchAgrees(s, p) && TimersAgree(s, p) && HistoryAgrees(s, p)
  }

  ghost predicate Inv(s: Reactor) {
    Sorted(s.timeouts) && forall p :: LocalInv(s, p)
  }
}
