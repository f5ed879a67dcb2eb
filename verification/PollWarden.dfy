/**
 * The poll warden's own code over mutable fields.  Its ghost `trace` is the run it has performed so far:
 * Valid() ties every field to PollMachine.Run(trace), so each theorem on runs is one on this class.
 */
module PollWarden {
  import opened Basics
  import opened PollMachine
  import opened PollInvariant
  import opened PollRetry
  import opened PollTheorems

  // ----- Arithmetic of the time out -----

  const TWO_32 := 0x1_0000_0000
  const TWO_31 := 0x8000_0000

  /** Conversion of a 64 bit count to int. */
  function ToInt(n: int): int {
    var low := n % TWO_32;
    if low < TWO_31 then low else low - TWO_32
  }

  /** What clear_timeouts returns when the earliest timer is this far away. */
  function PollTimeout(gap: int): int {
    ToInt(gap / MILLISECOND)
  }

  /** poll(t) wakes no later than the deadline and less than a millisecond before it. */
  predicate WakesInTime(gap: int, t: int) {
    t >= 1 && t * MILLISECOND <= gap < (t + 1) * MILLISECOND
  }

  /** The time out is exact up to a millisecond iff the gap fits an int. */
  lemma WakesInTimeIff(gap: int)
    requires gap >= MILLISECOND
    ensures WakesInTime(gap, PollTimeout(gap)) <==> gap < TWO_31 * MILLISECOND
  {
    var ms := gap / MILLISECOND;
    assert ms * MILLISECOND <= gap < (ms + 1) * MILLISECOND;
    if ms >= TWO_31 {
      var t := ToInt(ms);
      assert t < TWO_31;
      assert t + 1 <= ms;
      assert (t + 1) * MILLISECOND <= ms * MILLISECOND;
    }
  }

  /** poll(t) is still asleep when a deadline this far away has passed; a negative t never wakes by itself. */
  predicate SleepsPast(gap: int, t: int) {
    t < 0 || t * MILLISECOND > gap
  }

  /** The first deadline is slept past iff the gap in ms, cut to 32 bits, has its sign bit set. */
  lemma SleepsPastIff(gap: int)
    requires gap >= MILLISECOND
    ensures SleepsPast(gap, PollTimeout(gap)) <==> (gap / MILLISECOND) % TWO_32 >= TWO_31
  {
    var ms := gap / MILLISECOND;
    var low := ms % TWO_32;
    assert ms * MILLISECOND <= gap && low <= ms;
    assert low * MILLISECOND <= ms * MILLISECOND;
  }

  /** What clear_timeouts is to return at `now`: -1 iff there is no timer, else a sleep in time for every timer. */
  ghost predicate IsTimeoutFor(ts: seq<Timer>, now: int, t: int) {
    && (t == -1 <==> ts == [])
    && (ts != [] ==> t >= 1 && ts[0].at < now + (t + 1) * MILLISECOND)
    && forall w: Timer :: w in ts ==> now + t * MILLISECOND <= w.at
  }

  /** clear_timeouts returns that iff the first timer is less than 2^31 ms away. */
  lemma TimeoutIsRightIff(s: Reactor, now: int)
    requires Reachable(s) && (s.timeouts != [] ==> s.timeouts[0].at - now >= MILLISECOND)
    ensures IsTimeoutFor(s.timeouts, now, ResultAt(s.timeouts, now))
      <==> s.timeouts == [] || s.timeouts[0].at - now < TWO_31 * MILLISECOND
  {
    if s.timeouts != [] {
      WakesInTimeIff(s.timeouts[0].at - now);
      RightIffInTime(s, now, ResultAt(s.timeouts, now));
    }
  }

  /** A time out is right for all timers iff it is in time for the first. */
  lemma RightIffInTime(s: Reactor, now: int, t: int)
    requires Reachable(s) && s.timeouts != []
    ensures IsTimeoutFor(s.timeouts, now, t) <==> WakesInTime(s.timeouts[0].at - now, t)
  {
    assert s.timeouts[0] in s.timeouts;
    if WakesInTime(s.timeouts[0].at - now, t) { SleepIsBounded(s, now, t); }
  }

  function ResultAt(ts: seq<Timer>, now: int): int {
    if ts == [] then -1 else PollTimeout(ts[0].at - now)
  }

  // ----- Sizes -----

  lemma {:induction false} InsertTimerSize(ts: seq<Timer>, t: Timer)
    ensures |InsertTimer(ts, t)| == |ts| + 1
  {
    if ts != [] { InsertTimerSize(ts[1..], t); }
  }

  lemma {:induction false} EraseTimerSize(ts: seq<Timer>, p: Ptr)
    ensures |EraseTimer(ts, p)| <= |ts|
  {
    if ts != [] { EraseTimerSize(ts[1..], p); }
  }

  lemma {:induction false} EraseTimerAt(ts: seq<Timer>, p: Ptr, i: nat)
    requires i <= |ts| && forall k :: 0 <= k < i ==> ts[k].who != p
    requires i < |ts| ==> ts[i].who == p
    ensures EraseTimer(ts, p) == if i < |ts| then ts[..i] + ts[i + 1..] else ts
  {
    if i > 0 {
      EraseTimerAt(ts[1..], p, i - 1);
      if i < |ts| {
        assert ts[..i] + ts[i + 1..] == [ts[0]] + (ts[1..][..i - 1] + ts[1..][i..]);
      }
    }
  }

  // ----- std::map iteration -----

  lemma NonEmpty(s: set<int>)
    ensures s == {} || exists x :: x in s
  {
    if forall x :: x !in s { assert s == {}; }
  }

  method Minimum(s: set<int>) returns (m: int)
    requires s != {}
    ensures m in s && forall x :: x in s ==> m <= x
  {
    NonEmpty(s);
    m :| m in s;
    var left := s - {m};
    while left != {}
      invariant m in s && left <= s && forall x :: x in s && x !in left ==> m <= x
      decreases left
    {
      NonEmpty(left);
      var x :| x in left;
      if x < m { m := x; }
      left := left - {x};
    }
  }

  method KeysInOrder(requests: map<int, Request>) returns (order: seq<int>)
    ensures Enumerates(order, requests)
  {
    order := [];
    var left := requests.Keys;
    while left != {}
      invariant left <= requests.Keys && Ascending(order)
      invariant forall fd :: fd in requests <==> fd in left || fd in order
      invariant forall a, b :: a in order && b in left ==> a < b
      decreases left
    {
      var fd := Minimum(left);
      forall k | 0 <= k < |order| ensures order[k] < fd {
        assert order[k] in order && fd in left;
      }
      order := order + [fd];
      left := left - {fd};
    }
  }

  /** A system call a completion of this kind can make. */
  predicate Answers(c: Completion, sys: Sys) {
    && (c.kind in {Read, Write, Accept} ==> !sys.SoError?)
    && (c.kind == Connect ==> !sys.Done?)
  }

  predicate AnswersFirst(c: Completion, sys: Sys) {
    c.kind in {Read, Write, Accept, Connect} ==> !sys.SoError?
  }

  lemma StartIsLegal(s: Reactor, p: Ptr, sys: Sys)
    requires p in s.heap && AnswersFirst(s.heap[p], sys)
    ensures !PollMachine.AwaitSuspend(s, p, sys).Illegal?
  {
  }

  lemma AwaitIsSafe(es: seq<Event>, s: Reactor, p: Ptr, h: Handle, sys: Sys)
    requires Run(es) == Running(s) && CarefulRun(es) && p in s.heap && p !in s.awaited && AnswersFirst(s.heap[p], sys)
    ensures Apply(s, Await(p, h, sys)).Running?
  {
    StartIsLegal(s.(heap := s.heap[p := s.heap[p].(handle := Some(h))], awaited := s.awaited + {p}), p, sys);
    CarefulRunIsSafe(es);
    StepKeepsQueues(s, Await(p, h, sys));
  }

  lemma FireIsSafe(s: Reactor, now: int)
    requires Reachable(s)
    requires s.batch == [] && s.timeouts != [] && s.timeouts[0].at - now < MILLISECOND
    ensures s.timeouts[0].who in s.heap && Apply(s, Fire(now)).Running?
  {
    ReachableIsSound(s);
    FireKeeps(s, now);
  }

  lemma BatchIsAlive(es: seq<Event>, s: Reactor)
    requires Run(es) == Running(s) && CarefulRun(es) && s.batch != []
    ensures s.batch[0] in s.heap && Answers(s.heap[s.batch[0]], Errno(EAGAIN))
  {
    CarefulRunIsSafe(es);
    QueueSoundPlaces(s, s.batch[0]);
    assert s.batch[0] in s.batch && Times(s.batch, s.batch[0]) > 0;
  }

  lemma AnswersIsLegal(s: Reactor, p: Ptr, sys: Sys)
    requires p in s.heap && Answers(s.heap[p], sys)
    ensures !PollMachine.TryOrResume(s, p, sys).Illegal?
  {
  }

  lemma ContinueIsSafe(es: seq<Event>, s: Reactor, sys: Sys)
    requires Run(es) == Running(s) && CarefulRun(es) && s.batch != []
    requires s.batch[0] in s.heap && Answers(s.heap[s.batch[0]], sys)
    ensures Apply(s, Continue(sys)).Running?
  {
    AnswersIsLegal(s.(batch := s.batch[1..]), s.batch[0], sys);
    CarefulRunIsSafe(es);
    StepKeepsQueues(s, Continue(sys));
  }

  /** The queues of `done` have been looked at. */
  ghost predicate Gathered(before: map<int, Request>, requests: map<int, Request>, batch: seq<Ptr>,
                           revents: map<int, Revents>, done: seq<int>) {
    && batch == Gather(before, revents, done)
    && requests.Keys == before.Keys
    && forall f, d ::
      Queue(requests, f, d) == (if f in done && Matched(revents, f, d) then [] else Queue(before, f, d))
  }

  lemma ClearedIs(before: map<int, Request>, after: map<int, Request>, revents: map<int, Revents>, order: seq<int>)
    requires after.Keys == before.Keys && forall fd :: fd in before ==> fd in order
    requires forall f, d ::
      Queue(after, f, d) == (if f in order && Matched(revents, f, d) then [] else Queue(before, f, d))
    ensures after == ClearMatched(before, revents)
  {
    var cleared := ClearMatched(before, revents);
    forall f, d ensures Queue(after, f, d) == Queue(cleared, f, d) {
      if f !in before {
        assert Queue(before, f, d) == [];
      }
    }
    SameQueuesSameMap(after, cleared);
  }

  lemma GatheredIsPoll(s: Reactor, t: Reactor, order: seq<int>, revents: map<int, Revents>)
    requires s.batch == [] && Enumerates(order, s.requests)
    requires t == s.(batch := t.batch, requests := t.requests)
    requires Gathered(s.requests, t.requests, t.batch, revents, order)
    ensures Apply(s, Poll(order, revents)) == Running(t)
  {
    ClearedIs(s.requests, t.requests, revents, order);
  }

  /** A time out that is in time for the earliest timer is so for all: poll returns by every deadline. */
  lemma SleepIsBounded(s: Reactor, now: int, t: int)
    requires Reachable(s) && s.timeouts != [] && WakesInTime(s.timeouts[0].at - now, t)
    ensures var ts := s.timeouts;
      && ts[0].at < now + (t + 1) * MILLISECOND
      && forall w: Timer :: w in ts ==> now + t * MILLISECOND <= w.at
  {
    var ts := s.timeouts;
    ReachableIsSound(s);
    var until := now + t * MILLISECOND;
    assert until <= ts[0].at;
    forall w: Timer | w in ts ensures until <= w.at {
      var i :| 0 <= i < |ts| && ts[i] == w;
    }
  }

  /** What poll answers: nothing after EINTR or a time out, or events per descriptor. */
  type Answer = Option<map<int, Revents>>

  /** poll is called at a point of the trace and of time, with this time out. */
  datatype Wait = Wait(at: nat, now: int, t: int)

  /** No timer was due then, and the time out is what clear_timeouts makes of the first one. */
  ghost predicate NothingDue(trace: seq<Event>, w: Wait) {
    && w.at <= |trace| && Run(trace[..w.at]).Running?
    && var ts := Run(trace[..w.at]).reactor.timeouts;
      (ts != [] ==> ts[0].at - w.now >= MILLISECOND) && w.t == ResultAt(ts, w.now)
  }

  lemma NothingDueGrows(tr: seq<Event>, tr': seq<Event>, w: Wait)
    requires NothingDue(tr, w) && tr <= tr'
    ensures NothingDue(tr', w)
  {
    assert tr'[..w.at] == tr[..w.at];
  }

  /** What poll answered then, do_poll went on with. */
  ghost predicate Polled(trace: seq<Event>, w: Wait, reply: Answer) {
    NothingDue(trace, w)
    && (reply.Some? ==> w.at < |trace| && trace[w.at].Poll? && trace[w.at].revents == reply.value)
  }

  /** One call of poll after the other, each with the answer it got. */
  ghost predicate PolledAll(trace: seq<Event>, waits: seq<Wait>, replies: seq<Answer>, from: int) {
    && |waits| <= |replies|
    && (forall i :: 0 <= i < |waits| ==> from <= waits[i].now && Polled(trace, waits[i], replies[i]))
    && forall i, j :: 0 <= i < j < |waits| ==> waits[i].at <= waits[j].at && waits[i].now <= waits[j].now
  }

  lemma PolledOnce(tr: seq<Event>, tr': seq<Event>, waits: seq<Wait>, replies: seq<Answer>, from: int, now: int, w: Wait)
    requires PolledAll(tr, waits, replies, from) && tr <= tr' && |waits| < |replies|
    requires |tr| <= w.at && from <= now <= w.now && Polled(tr', w, replies[|waits|])
    requires forall i :: 0 <= i < |waits| ==> waits[i].now <= now
    ensures PolledAll(tr', waits + [w], replies, from)
    ensures forall i :: 0 <= i < |waits + [w]| ==> (waits + [w])[i].now <= w.now
  {
    forall i | 0 <= i < |waits| ensures Polled(tr', waits[i], replies[i]) && waits[i].at <= w.at {
      NothingDueGrows(tr, tr', waits[i]);
    }
  }

  class Warden {
    var heap: map<Ptr, Completion>
    var requests: map<int, Request>
    var timeouts: seq<Timer>
    var continuations: seq<Ptr>           // those do_poll has not tried yet
    var next: Ptr
    var awaited: set<Ptr>
    var clock: int
    ghost var log: map<Ptr, seq<Resumption>>
    ghost var trace: seq<Event>

    ghost function State(): Reactor
      reads this
    {
      Reactor(heap, requests, timeouts, continuations, next, awaited, log)
    }

    ghost predicate Valid()
      reads this
    {
      Run(trace) == Running(State()) && CarefulRun(trace)
    }

    /** And so far no timed retry of connect has doubled a timer. */
    ghost predicate Sound()
      reads this
    {
      Valid() && BenignRun(trace)
    }

    constructor ()
      ensures Sound() && trace == []
    {
      heap, requests, timeouts, continuations, next, awaited := map[], map[], [], [], 0, {};
      log, trace := map[], [];
    }

    ghost method Commit(s: Reactor, e: Event)
      requires Run(trace) == Running(s) && CarefulRun(trace)
      requires (e.Destroy? ==> e.p !in s.batch) && (e.Fire? ==> BenignRun(trace))
      requires Apply(s, e) == Running(State())
      modifies this`trace
      ensures Valid() && trace == old(trace) + [e]
      ensures BenignRun(trace) <==> BenignRun(old(trace)) && Benign(s, e)
    {
      RunExtends(trace, e);
      CarefulExtends(trace, e);
      trace := trace + [e];
    }

    /** handle.resume(), as the history sees it. */
    ghost method NoteResumed(p: Ptr)
      requires Resume(State(), p).Running?
      modifies this`log
      ensures Running(State()) == old(Resume(State(), p))
    {
      log := log[p := LogOf(State(), p) + [Resumption(heap[p].handle.value, heap[p].result)]];
    }

    method CreateIop(kind: Kind, fd: int, deadline: Option<int>) returns (p: Ptr)
      requires Valid() && DeadlineFits(kind, deadline)
      modifies this
      ensures Valid() && trace == old(trace) + [Create(kind, fd, deadline)] && (Sound() <==> old(Sound()))
      ensures p == old(next) && clock == old(clock)
      ensures timeouts == old(timeouts) && continuations == old(continuations)
    {
      ghost var s := State();
      p := next;
      heap := heap[p := Completion(kind, fd, deadline, None, FRESH_OUTCOME)];
      log := log[p := []];
      next := next + 1;
      Commit(s, Create(kind, fd, deadline));
    }

    method InsertTimeout(p: Ptr)
      requires p in heap
      modifies this`timeouts
      ensures State() == old(PollMachine.InsertTimeout(State(), p))
      ensures |timeouts| <= |old(timeouts)| + 1
    {
      if heap[p].deadline.Some? {
        InsertTimerSize(timeouts, Timer(heap[p].deadline.value, p));
        timeouts := InsertTimer(timeouts, Timer(heap[p].deadline.value, p));
      }
    }

    method CancelTimeout(p: Ptr)
      requires p in heap
      modifies this`timeouts
      ensures State() == old(PollMachine.CancelTimeout(State(), p))
      ensures |timeouts| <= |old(timeouts)|
    {
      if heap[p].deadline.Some? {
        var pos := 0;
        while pos < |timeouts| && timeouts[pos].who != p
          invariant pos <= |timeouts| && forall k :: 0 <= k < pos ==> timeouts[k].who != p
        {
          pos := pos + 1;
        }
        EraseTimerAt(timeouts, p, pos);
        if pos != |timeouts| {
          timeouts := timeouts[..pos] + timeouts[pos + 1..];
        }
      }
    }

    method CancelIop(p: Ptr)
      requires p in heap
      modifies this`requests
      ensures State() == old(PollMachine.CancelIop(State(), p))
    {
      var fd := heap[p].fd;
      match DirectionOf(heap[p].kind)
      case Some(In) =>
        var r := RequestOf(requests, fd);
        requests := requests[fd := r.(readers := Erase(r.readers, p))];
      case Some(Out) =>
        var r := RequestOf(requests, fd);
        requests := requests[fd := r.(writers := Erase(r.writers, p))];
      case None =>
    }

    /** self->requests[fd].reads.push_back(this), or the same for writes. */
    method Enqueue(p: Ptr)
      requires p in heap
      modifies this`requests
      ensures State() == old(PollMachine.Enqueue(State(), p))
    {
      var fd := heap[p].fd;
      match DirectionOf(heap[p].kind)
      case Some(In) =>
        var r := RequestOf(requests, fd);
        requests := requests[fd := r.(readers := r.readers + [p])];
      case Some(Out) =>
        var r := RequestOf(requests, fd);
        requests := requests[fd := r.(writers := r.writers + [p])];
      case None =>
    }

    method SetResult(p: Ptr, o: Outcome)
      requires p in heap
      modifies this`heap
      ensures State() == old(PollMachine.SetResult(State(), p, o))
    {
      heap := heap[p := heap[p].(result := o)];
    }

    /** Stores an outcome and drops the timer; the caller resumes the handle. */
    method FinishWith(p: Ptr, o: Outcome)
      requires p in heap
      modifies this`heap, this`timeouts
      ensures State() == old(PollMachine.CancelTimeout(PollMachine.SetResult(State(), p, o), p))
      ensures |timeouts| <= |old(timeouts)|
    {
      SetResult(p, o);
      CancelTimeout(p);
    }

    method TryTransfer(p: Ptr, sys: Sys) returns (resume: bool)
      requires p in heap && heap[p].kind in {Read, Write, Accept} && !sys.SoError?
      modifies this`heap, this`requests, this`timeouts
      ensures old(PollMachine.TryTransfer(State(), p, sys)) == if resume then Resume(State(), p) else Running(State())
      ensures |timeouts| <= |old(timeouts)|
    {
      match sys
      case Done(n) =>
        FinishWith(p, heap[p].result.AssignValue(n));
        resume := true;
      case Errno(code) =>
        if code == EAGAIN {
          Enqueue(p);
          resume := false;
        } else {
          FinishWith(p, if heap[p].kind == Accept && code == EBADF then heap[p].result.AssignValue(-1)
                        else heap[p].result.AssignError(code));
          resume := true;
        }
    }

    method TryConnect(p: Ptr, sys: Sys) returns (resume: bool)
      requires p in heap && heap[p].kind == Connect && !sys.Done?
      modifies this`heap, this`requests, this`timeouts
      ensures old(PollMachine.TryConnect(State(), p, sys)) == if resume then Resume(State(), p) else Running(State())
      ensures |timeouts| <= |old(timeouts)| + if IsTimedRetry(old(heap)[p], sys) then 1 else 0
    {
      match sys
      case Errno(code) =>
        FinishWith(p, heap[p].result.AssignError(code));
        resume := true;
      case SoError(errvalue, errno) =>
        if errvalue == 0 {
          CancelTimeout(p);
          resume := true;
        } else if errno == EINPROGRESS {
          Enqueue(p);
          InsertTimeout(p);
          resume := false;
        } else {
          FinishWith(p, heap[p].result.AssignError(errno));
          resume := true;
        }
    }

    /** try_or_resume: `resume` tells whether it returns the handle or a no-op coroutine. */
    method TryOrResume(p: Ptr, sys: Sys) returns (resume: bool)
      requires p in heap && Answers(heap[p], sys)
      modifies this`heap, this`requests, this`timeouts
      ensures old(PollMachine.TryOrResume(State(), p, sys)) == if resume then Resume(State(), p) else Running(State())
      ensures |timeouts| <= |old(timeouts)| + if IsTimedRetry(old(heap)[p], sys) then 1 else 0
    {
      match heap[p].kind
      case Sleep => resume := false;
      case Connect => resume := TryConnect(p, sys);
      case Close =>
        CancelTimeout(p);
        resume := true;
      case ReadReady =>
        CancelTimeout(p);
        resume := true;
      case WriteReady =>
        CancelTimeout(p);
        resume := true;
      case _ => resume := TryTransfer(p, sys);
    }

    /** await_suspend past the assignment of the handle. */
    method Start(p: Ptr, sys: Sys) returns (resume: bool)
      requires p in heap && AnswersFirst(heap[p], sys)
      modifies this`heap, this`requests, this`timeouts
      ensures old(PollMachine.AwaitSuspend(State(), p, sys)) == if resume then Resume(State(), p) else Running(State())
      ensures |timeouts| <= |old(timeouts)| + 1
    {
      if heap[p].kind == Connect && (sys.Done? || sys.code != EINPROGRESS) {
        if sys.Errno? {
          SetResult(p, heap[p].result.AssignError(sys.code));
        }
        resume := true;
      } else if heap[p].kind in {Connect, ReadReady, WriteReady} {
        Enqueue(p);
        InsertTimeout(p);
        resume := false;
      } else {
        InsertTimeout(p);
        resume := TryOrResume(p, sys);
      }
    }

    method AwaitSuspend(p: Ptr, h: Handle, sys: Sys) returns (resume: bool)
      requires Valid() && p in heap && p !in awaited && AnswersFirst(heap[p], sys)
      modifies this
      ensures Valid() && trace == old(trace) + [Await(p, h, sys)] && (Sound() <==> old(Sound()))
      ensures |timeouts| <= |old(timeouts)| + 1
      ensures continuations == old(continuations) && clock == old(clock)
    {
      ghost var s := State();
      AwaitIsSafe(trace, s, p, h, sys);
      heap := heap[p := heap[p].(handle := Some(h))];
      awaited := awaited + {p};
      resume := Start(p, sys);
      if resume {
        NoteResumed(p);
      }
      Commit(s, Await(p, h, sys));
    }

    /** ~iop: delete_due_to_iop_destructed, then delete. */
    method DestroyIop(p: Ptr)
      requires Valid() && p in heap && p !in continuations
      modifies this
      ensures Valid() && trace == old(trace) + [Destroy(p)] && (Sound() <==> old(Sound()))
      ensures |timeouts| <= |old(timeouts)|
      ensures continuations == old(continuations) && clock == old(clock)
    {
      ghost var s := State();
      CancelTimeout(p);
      CancelIop(p);
      heap := heap - {p};
      Commit(s, Destroy(p));
    }

    /** handle.resume(): the coroutine does anything it likes, starting at most `patience` more awaits. */
    method RunCoroutine(patience: nat) returns (left: nat)
      requires Valid()
      modifies this
      ensures Valid() && old(trace) <= trace && (Sound() <==> old(Sound()))
      ensures left + |timeouts| <= patience + |old(timeouts)|
      ensures continuations == old(continuations) && clock == old(clock)
    {
      left := patience;
      var n: nat :| true;
      for k := 0 to n
        invariant Valid() && old(trace) <= trace && (Sound() <==> old(Sound()))
        invariant left + |timeouts| <= patience + |old(timeouts)|
        invariant continuations == old(continuations) && clock == old(clock)
      {
        var p: Ptr, h: Handle := *, *;
        if * {
          var kind: Kind, fd: int, deadline: Option<int> := *, *, *;
          if DeadlineFits(kind, deadline) {
            var q := CreateIop(kind, fd, deadline);
          }
        } else if * {
          var sys: Sys := *;
          if left > 0 && p in heap && p !in awaited && AnswersFirst(heap[p], sys) {
            var resumed := AwaitSuspend(p, h, sys);
            left := left - 1;
          }
        } else if p in heap && p !in continuations {
          DestroyIop(p);
        }
      }
    }

    /** iop_timedout: afterwards the caller resumes the handle. */
    method IopTimedOut(p: Ptr)
      requires p in heap
      modifies this`heap, this`requests
      ensures old(PollMachine.IopTimedOut(State(), p)) == Resume(State(), p)
    {
      if heap[p].kind != Sleep {
        CancelIop(p);
        SetResult(p, heap[p].result.AssignError(ETIME));
      }
    }

    /** steady_clock::now() */
    method Now() returns (now: int)
      modifies this`clock
      ensures now == clock >= old(clock)
    {
      var tick: nat :| true;
      clock := clock + tick;
      now := clock;
    }

    /**
     * The loop of clear_timeouts.  Coroutines may re-arm timers while it runs; `patience` is how many awaits
     * they start in all, whatever finite number that is.
     */
    method FireAllDue(patience: nat)
      requires Sound() && continuations == []
      modifies this
      ensures Sound() && continuations == [] && old(trace) <= trace && clock >= old(clock)
      ensures timeouts != [] ==> timeouts[0].at - clock >= MILLISECOND
    {
      var left: nat := patience;
      while timeouts != []
        invariant Sound() && continuations == [] && old(trace) <= trace && clock >= old(clock)
        decreases left + |timeouts|
      {
        var now := Now();
        var tdiff := timeouts[0].at - now;
        if tdiff >= MILLISECOND {
          return;
        }
        left := FireFirst(now, left);
      }
    }

    /** Resumes what has timed out and says how long poll may sleep. */
    method ClearTimeouts(patience: nat) returns (t: int)
      requires Sound() && continuations == []
      modifies this
      ensures Sound() && continuations == [] && old(trace) <= trace && clock >= old(clock)
      ensures timeouts != [] ==> timeouts[0].at - clock >= MILLISECOND
      ensures t == ResultAt(timeouts, clock)
      ensures IsTimeoutFor(timeouts, clock, t) <==> timeouts == [] || timeouts[0].at - clock < TWO_31 * MILLISECOND
    {
      FireAllDue(patience);
      t := TimeToFirst();
      TimeoutIsRightIff(State(), clock);
    }

    method TimeToFirst() returns (t: int)
      ensures t == ResultAt(timeouts, clock)
    {
      if timeouts == [] {
        t := -1;
      } else {
        t := PollTimeout(timeouts[0].at - clock);
      }
    }

    /** One timer goes off: erased first, then its waiter is told and resumed. */
    method FireFirst(now: int, patience: nat) returns (left: nat)
      requires Sound() && continuations == [] && timeouts != [] && timeouts[0].at - now < MILLISECOND
      modifies this
      ensures Sound() && continuations == [] && clock == old(clock)
      ensures old(trace) + [Fire(now)] <= trace
      ensures left + |timeouts| < patience + |old(timeouts)|
    {
      TakeFirst(now);
      left := RunCoroutine(patience);
    }

    /** The first timer is erased and its waiter told, up to handle.resume(). */
    method TakeFirst(now: int)
      requires Sound() && continuations == [] && timeouts != [] && timeouts[0].at - now < MILLISECOND
      modifies this
      ensures Sound() && continuations == [] && clock == old(clock)
      ensures trace == old(trace) + [Fire(now)] && |timeouts| < |old(timeouts)|
    {
      ghost var s := State();
      FireIsSafe(s, now);
      var retry := timeouts[0].who;
      timeouts := timeouts[1..];
      IopTimedOut(retry);
      NoteResumed(retry);
      Commit(s, Fire(now));
    }

    /** One turn of the loop over `iops` after poll: ready waiters of fd join the batch. */
    method MoveReady(fd: int, revents: map<int, Revents>)
      requires fd in requests
      modifies this`continuations, this`requests
      ensures requests.Keys == old(requests).Keys
      ensures continuations == old(continuations) + Moved(old(requests), revents, fd, In) + Moved(old(requests), revents, fd, Out)
      ensures forall f, d ::
        Queue(requests, f, d) == (if f == fd && Matched(revents, f, d) then [] else Queue(old(requests), f, d))
    {
      if Matched(revents, fd, In) {
        continuations := continuations + requests[fd].readers;
        requests := requests[fd := requests[fd].(readers := [])];
      }
      if Matched(revents, fd, Out) {
        continuations := continuations + requests[fd].writers;
        requests := requests[fd := requests[fd].(writers := [])];
      }
    }

    ghost predicate GatheredSoFar(before: map<int, Request>, revents: map<int, Revents>, done: seq<int>)
      reads this
    {
      Gathered(before, requests, continuations, revents, done)
    }

    method GatherNext(ghost before: map<int, Request>, revents: map<int, Revents>, ghost done: seq<int>, fd: int)
      requires GatheredSoFar(before, revents, done) && fd in requests && fd !in done
      modifies this`continuations, this`requests
      ensures GatheredSoFar(before, revents, done + [fd])
    {
      assert Queue(requests, fd, In) == Queue(before, fd, In) && Queue(requests, fd, Out) == Queue(before, fd, Out);
      assert (done + [fd])[..|done|] == done;
      MoveReady(fd, revents);
    }

    method GatherAll(order: seq<int>, revents: map<int, Revents>)
      requires continuations == [] && Enumerates(order, requests)
      modifies this`continuations, this`requests
      ensures GatheredSoFar(old(requests), revents, order)
    {
      for i := 0 to |order|
        invariant GatheredSoFar(old(requests), revents, order[..i])
      {
        assert order[i] in order && order[i] !in order[..i];
        GatherNext(old(requests), revents, order[..i], order[i]);
        assert order[..i + 1] == order[..i] + [order[i]];
      }
      assert order[..|order|] == order;
    }

    /** Sorts the waiters whose descriptor is ready into the batch. */
    method GatherReady(order: seq<int>, revents: map<int, Revents>)
      requires Valid() && continuations == [] && Enumerates(order, requests)
      modifies this
      ensures Valid() && trace == old(trace) + [Poll(order, revents)] && (Sound() <==> old(Sound()))
      ensures clock == old(clock) && |timeouts| == |old(timeouts)|
    {
      ghost var s := State();
      GatherAll(order, revents);
      GatheredIsPoll(s, State(), order, revents);
      Commit(s, Poll(order, revents));
    }

    /** continuation->try_or_resume() for the next continuation. */
    method TryFirst(sys: Sys) returns (resume: bool)
      requires Valid() && continuations != [] && continuations[0] in heap && Answers(heap[continuations[0]], sys)
      modifies this
      ensures Valid() && trace == old(trace) + [Continue(sys)]
      ensures Sound() <==> old(Sound()) && !old(IsTimedRetry(heap[continuations[0]], sys))
      ensures continuations == old(continuations)[1..] && clock == old(clock)
      ensures |timeouts| <= |old(timeouts)| + 1
    {
      ghost var s := State();
      var p := continuations[0];
      ContinueIsSafe(trace, s, sys);
      continuations := continuations[1..];
      resume := TryOrResume(p, sys);
      if resume {
        NoteResumed(p);
      }
      Commit(s, Continue(sys));
    }

    /** Tries the next continuation and resumes whatever coroutine that yields. */
    method TryNext(patience: nat) returns (left: nat, retried: bool)
      requires Valid() && continuations != []
      modifies this
      ensures Valid() && continuations == old(continuations)[1..] && clock == old(clock)
      ensures exists sys :: && old(trace) + [Continue(sys)] <= trace
                            && (retried <==> old(RetriesTimed(State(), Continue(sys))))
      ensures Sound() <==> old(Sound()) && !retried
      ensures left + |timeouts| <= patience + |old(timeouts)| + 1
    {
      BatchIsAlive(trace, State());
      var sys: Sys :| Answers(heap[continuations[0]], sys);
      retried := IsTimedRetry(heap[continuations[0]], sys);
      var resume := TryFirst(sys);
      left := patience;
      if resume {
        left := RunCoroutine(patience);
      }
    }

    /** What do_poll hands to poll. */
    method BuildPollSet(fds: seq<int>) returns (iops: seq<PollFd>)
      requires forall i :: 0 <= i < |fds| ==> fds[i] in requests
      ensures iops == PollSet(requests, fds)
    {
      iops := [];
      for i := 0 to |fds|
        invariant iops == PollSet(requests, fds[..i])
      {
        var req := requests[fds[i]];
        iops := iops + [PollFd(fds[i], req.readers != [], req.writers != [])];
        assert fds[..i + 1][..i] == fds[..i];
      }
      assert fds[..|fds|] == fds;
    }

    /**
     * do_poll on what poll answers.  `retried` tells whether a timed retry of connect was among the continuations.
     */
    method DoPoll(reply: Answer, patience: nat)
      returns (iops: seq<PollFd>, retried: bool, ghost order: seq<int>)
      requires Valid() && continuations == []
      modifies this
      ensures Valid() && continuations == []
      ensures Enumerates(order, old(requests)) && iops == PollSet(old(requests), order)
      ensures reply.None? ==> State() == old(State()) && trace == old(trace)
      ensures reply.Some? ==> old(trace) + [Poll(order, reply.value)] <= trace
      ensures old(trace) <= trace && clock == old(clock)
      ensures Sound() <==> old(Sound()) && !retried
      ensures old(Sound()) ==> (retried <==> TimedRetryIn(trace))
    {
      retried := false;
      var fds := KeysInOrder(requests);
      order := fds;
      assert forall i :: 0 <= i < |fds| ==> fds[i] in fds;
      iops := BuildPollSet(fds);
      if reply.Some? {
        GatherReady(fds, reply.value);
        var left: nat := patience;
        while continuations != []
          invariant Valid()
          invariant old(trace) + [Poll(order, reply.value)] <= trace
          invariant (Sound() <==> old(Sound()) && !retried) && clock == old(clock)
          decreases |continuations|
        {
          var again;
          left, again := TryNext(left);
          retried := retried || again;
        }
      }
      CarefulIsBenignIff(trace);
    }

    /** One turn of run_until: timers, poll and its continuations, then what resume_all resumes. */
    method RunTurn(reply: Answer, patience: nat) returns (retried: bool, ghost w: Wait)
      requires Sound() && continuations == []
      modifies this
      ensures Valid() && continuations == [] && old(trace) <= trace && (Sound() <==> !retried)
      ensures |old(trace)| <= w.at && old(clock) <= w.now <= clock && Polled(trace, w, reply)
    {
      var t := ClearTimeouts(patience);
      w := Wait(|trace|, clock, t);
      ghost var before := trace;
      assert trace[..|trace|] == trace;
      retried := PollAndResume(reply, patience);
      assert trace[..w.at] == before;
    }

    method PollAndResume(reply: Answer, patience: nat) returns (retried: bool)
      requires Sound() && continuations == []
      modifies this
      ensures Valid() && continuations == [] && old(trace) <= trace && (Sound() <==> !retried)
      ensures clock == old(clock)
      ensures reply.Some? ==>
        |trace| > |old(trace)| && trace[|old(trace)|].Poll? && trace[|old(trace)|].revents == reply.value
    {
      var iops;
      ghost var order;
      iops, retried, order := DoPoll(reply, patience);
      var left := RunCoroutine(patience);
    }

    /**
     * run_until for as many turns as there are answers of poll; `waits` says how it was called in each.  After the
     * turn with the first timed retry of connect nothing more is promised, so the model stops there.
     */
    method RunUntil(replies: seq<Answer>, patience: nat) returns (retried: bool, ghost waits: seq<Wait>)
      requires Sound() && continuations == []
      modifies this
      ensures Valid() && continuations == [] && old(trace) <= trace
      ensures (retried <==> !Sound()) && (retried <==> TimedRetryIn(trace))
      ensures PolledAll(trace, waits, replies, old(clock)) && (!retried ==> |waits| == |replies|)
    {
      retried, waits := false, [];
      var left := RunCoroutine(patience);
      for k := 0 to |replies|
        invariant Sound() && continuations == [] && old(trace) <= trace && !retried
        invariant |waits| == k && old(clock) <= clock && forall i :: 0 <= i < k ==> waits[i].now <= clock
        invariant PolledAll(trace, waits, replies, old(clock))
      {
        ghost var tr, now := trace, clock;
        ghost var w;
        retried, w := RunTurn(replies[k], patience);
        PolledOnce(tr, trace, waits, replies, old(clock), now, w);
        waits := waits + [w];
        if retried {
          break;
        }
      }
      CarefulIsBenignIff(trace);
    }
  }
}
