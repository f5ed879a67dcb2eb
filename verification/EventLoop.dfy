/**
 * async_resumption and the two run loops over mutable fields.  Its ghost `trace` is the run performed so far:
 * Valid() ties every field to WakeUp.Run(trace), so each theorem on runs is one on this class.
 */
module EventLoop {
  import opened Basics
  import opened WakeUp

  lemma Regroup(a: seq<Handle>, b: seq<Handle>, c: seq<Handle>)
    ensures a + b + c == a + (b + c)
  {
  }

  lemma Advance(done: seq<Handle>, todo: seq<Handle>)
    requires todo != []
    ensures done + [todo[0]] + todo[1..] == done + todo
  {
  }

  predicate PollReturned(e: Event) {
    e.Interrupted? || e.PollTimedOut? || e.PollReady?
  }

  /** poll returned at event n; when it was called a byte covered any queued work, all of which is resumed by now. */
  ghost predicate PolledAt(backend: Backend, trace: seq<Event>, n: nat, resumed: seq<Handle>) {
    && n < |trace| && PollReturned(trace[n]) && Run(backend, trace[..n]).Some?
    && var w := Run(backend, trace[..n]).value;
      && w.phase == Working && (w.queued != [] ==> w.tokens > 0) && w.tokens <= 2 + w.interrupted
      && w.resumed + w.queued <= resumed
  }

  lemma PolledAtGrows(backend: Backend, tr: seq<Event>, tr': seq<Event>, n: nat, r: seq<Handle>, r': seq<Handle>)
    requires PolledAt(backend, tr, n, r) && tr <= tr' && r <= r'
    ensures PolledAt(backend, tr', n, r')
  {
    assert tr'[..n] == tr[..n] && tr'[n] == tr[n];
  }

  /** The wait for a CQE ended at event n; it stranded handles iff their edge was missed. */
  ghost predicate WaitedAt(trace: seq<Event>, n: nat, resumed: seq<Handle>) {
    && n < |trace| && (trace[n].Interrupted? || trace[n].Executed?) && Run(UringNop, trace[..n]).Some?
    && var w := Run(UringNop, trace[..n]).value;
      && w.phase == Working && (w.queued != [] && w.tokens == 0 <==> EdgeMissed(trace[..n]))
      && (trace[n].Executed? ==> w.resumed + w.queued <= resumed)
  }

  lemma WaitedAtGrows(tr: seq<Event>, tr': seq<Event>, n: nat, r: seq<Handle>, r': seq<Handle>)
    requires WaitedAt(tr, n, r) && tr <= tr' && r <= r'
    ensures WaitedAt(tr', n, r')
  {
    assert tr'[..n] == tr[..n] && tr'[n] == tr[n];
  }

  ghost predicate Increasing(at: seq<nat>, from: nat) {
    && (forall i :: 0 <= i < |at| ==> from <= at[i])
    && forall i, j :: 0 <= i < j < |at| ==> at[i] < at[j]
  }

  lemma IncreasingMore(at: seq<nat>, from: nat, bound: nat, n: nat)
    requires Increasing(at, from) && (forall m :: m in at ==> m < bound) && from <= bound <= n
    ensures Increasing(at + [n], from)
  {
    forall i | 0 <= i < |at| ensures at[i] < n {
      assert at[i] in at;
    }
  }

  class Warden {
    const backend: Backend
    var queued: seq<Handle>
    var resuming: seq<Handle>               // of the batch being resumed, what is still to come
    var tokens: nat
    ghost var phase: Phase
    ghost var interrupted: nat
    ghost var posted: seq<Handle>
    ghost var resumed: seq<Handle>
    ghost var trace: seq<Event>

    ghost function State(): Loop
      reads this
    {
      Loop(backend, phase, queued, resuming, tokens, interrupted, posted, resumed)
    }

    ghost predicate Valid()
      reads this
    {
      backend != PollPipe(0) && Run(backend, trace) == Some(State())
    }

    constructor (b: Backend)
      requires b != PollPipe(0)
      ensures Valid() && trace == [] && backend == b
    {
      backend := b;
      queued, resuming, tokens, phase, interrupted := [], [], 0, Working, 0;
      posted, resumed, trace := [], [], [];
    }

    ghost method Commit(s: Loop, e: Event)
      requires backend != PollPipe(0) && Run(backend, trace) == Some(s)
      requires Enabled(s, e) && State() == Apply(s, e)
      modifies this`trace
      ensures Valid() && trace == old(trace) + [e]
    {
      RunExtends(backend, trace, e);
      trace := trace + [e];
    }

    /** async_resumption::queue */
    method Queue(handles: seq<Option<Handle>>) returns (queuedAny: bool)
      modifies this`queued
      ensures queued == old(queued) + NonNull(handles)
      ensures queuedAny <==> NonNull(handles) != []
    {
      queuedAny := false;
      for i := 0 to |handles|
        invariant queued == old(queued) + NonNull(handles[..i])
        invariant queuedAny <==> NonNull(handles[..i]) != []
      {
        assert handles[..i + 1][..i] == handles[..i];
        if handles[i].Some? {
          queued := queued + [handles[i].value];
          queuedAny := true;
        }
      }
      assert handles[..|handles|] == handles;
    }

    /** has_requests */
    predicate HasRequests()
      reads this`queued
    {
      queued != []
    }

    method WakeEventLoop(room: bool)
      modifies this`tokens
      ensures State() == old(Wake(State(), room))
    {
      match backend
      case PollPipe(capacity) =>
        if tokens < capacity {
          tokens := tokens + 1;
        }
      case UringNop =>
        if room {
          tokens := tokens + 1;
        }
    }

    /** do_async_resume of either warden */
    method DoAsyncResume(handles: seq<Option<Handle>>, room: bool)
      requires Valid()
      modifies this`queued, this`tokens, this`posted, this`trace
      ensures Valid() && trace == old(trace) + [Post(handles, room)]
      ensures queued == old(queued) + NonNull(handles) && posted == old(posted) + NonNull(handles)
    {
      ghost var s := State();
      var wasEmpty := !HasRequests();
      var any := Queue(handles);
      posted := posted + NonNull(handles);
      if any && wasEmpty {
        WakeEventLoop(room);
      }
      Commit(s, Post(handles, room));
    }

    /** Coroutines run: any finite number of calls of async_resume. */
    method RunCoroutines() returns (ghost more: seq<Handle>)
      requires Valid()
      modifies this`queued, this`tokens, this`posted, this`trace
      ensures Valid() && old(trace) <= trace
      ensures queued == old(queued) + more && posted == old(posted) + more
    {
      more := [];
      var n: nat :| true;
      for k := 0 to n
        invariant Valid() && old(trace) <= trace
        invariant queued == old(queued) + more && posted == old(posted) + more
      {
        var handles: seq<Option<Handle>>, room: bool := *, *;
        DoAsyncResume(handles, room);
        more := more + NonNull(handles);
      }
    }

    /** One turn of the loop in resume_all. */
    method ResumeNextHandle() returns (ghost more: seq<Handle>)
      requires Valid() && phase == Resuming && resuming != []
      modifies this`queued, this`resuming, this`tokens, this`posted, this`resumed, this`trace
      ensures Valid() && phase == Resuming && old(trace) <= trace
      ensures resuming == old(resuming)[1..] && resumed == old(resumed) + [old(resuming)[0]]
      ensures queued == old(queued) + more && posted == old(posted) + more
    {
      ghost var s := State();
      resumed := resumed + [resuming[0]];
      resuming := resuming[1..];
      Commit(s, ResumeNext);
      more := RunCoroutines();
    }

    method ResumeBatch()
      requires Valid() && phase == Resuming && queued == []
      modifies this`queued, this`resuming, this`tokens, this`posted, this`resumed, this`trace
      ensures Valid() && phase == Resuming && resuming == [] && old(trace) <= trace
      ensures resumed == old(resumed) + old(resuming)
      ensures posted == old(posted) + queued
    {
      ghost var all := resumed + resuming;
      while resuming != []
        invariant Valid() && phase == Resuming && old(trace) <= trace
        invariant resumed + resuming == all
        invariant posted == old(posted) + queued
        decreases |resuming|
      {
        Advance(resumed, resuming);
        ghost var q := queued;
        ghost var more := ResumeNextHandle();
        Regroup(old(posted), q, more);
      }
    }

    /** resume_all resumes exactly what was queued when it began; what is queued meanwhile waits. */
    method ResumeAll()
      requires Valid() && Enabled(State(), SwapQueues) && resuming == []
      modifies this
      ensures Valid() && phase == Working && resuming == [] && old(trace) <= trace
      ensures resumed == old(resumed) + old(queued)
      ensures posted == old(posted) + queued
    {
      ghost var s := State();
      resuming, queued, phase := queued, resuming, Resuming;
      Commit(s, SwapQueues);
      ResumeBatch();
      s := State();
      phase := Working;
      Commit(s, EndResume);
    }

    /** drain_wakeup reads 64 bytes at a time until nothing is left. */
    method DrainWakeup()
      modifies this`tokens
      ensures tokens == 0
    {
      while tokens > 0
      {
        var n := if tokens < 64 then tokens else 64;
        tokens := tokens - n;
      }
    }

    /** What do_poll does with poll's answer before any continuation runs. */
    method PollReturns(eintr: bool, ready: bool)
      requires Valid() && backend.PollPipe? && phase == Working
      requires !eintr && tokens > 0 ==> ready
      modifies this`tokens, this`phase, this`interrupted, this`trace
      ensures Valid() && phase == Delivering && |trace| == |old(trace)| + 1 && old(trace) <= trace
      ensures PollReturned(trace[|old(trace)|]) && (eintr <==> trace[|old(trace)|].Interrupted?)
      ensures tokens == if eintr then old(tokens) else 0
    {
      ghost var s := State();
      phase := Delivering;
      if eintr {
        interrupted := interrupted + 1;
        Commit(s, Interrupted);
      } else if ready {
        var wake := tokens > 0;
        if wake {
          DrainWakeup();
          interrupted := 0;
        }
        Commit(s, PollReady(wake));
      } else {
        Commit(s, PollTimedOut);
      }
    }

    /** One turn: clear_timeouts, poll, the continuations, resume_all.  `at` is where in the trace poll returned. */
    method TurnPoll() returns (ghost at: nat)
      requires Valid() && backend.PollPipe? && phase == Working && resuming == []
      modifies this
      ensures Valid() && phase == Working && resuming == [] && old(trace) <= trace && old(resumed) <= resumed
      ensures |old(trace)| <= at < |trace| && PolledAt(backend, trace, at, resumed)
    {
      ghost var timed := RunCoroutines();             // clear_timeouts
      RunKeeps(backend, trace);
      assert queued != [] ==> tokens > 0;
      assert tokens <= 2 + interrupted;
      at := |trace|;
      ghost var before, done := trace, resumed + queued;
      assert trace[..at] == trace;
      var eintr: bool, ready: bool := *, *;
      PollReturns(eintr, ready || tokens > 0);
      ghost var continued := RunCoroutines();         // the continuations
      ResumeAll();
      assert trace[..at] == before && done <= resumed;
    }

    /**
     * poll_warden::run_until for some number of turns.  `at` says where poll returned: every time it was called,
     * queued work had its byte, and by the end all that was queued then has been resumed.
     */
    method RunUntilPoll(turns: nat) returns (ghost at: seq<nat>)
      requires Valid() && backend.PollPipe? && phase == Working && resuming == []
      modifies this
      ensures Valid() && phase == Working && resuming == [] && old(trace) <= trace
      ensures |at| == turns && Increasing(at, |old(trace)|)
      ensures forall n :: n in at ==> PolledAt(backend, trace, n, resumed)
    {
      ghost var first := RunCoroutines();
      at := [];
      for k := 0 to turns
        invariant Valid() && phase == Working && resuming == [] && old(trace) <= trace
        invariant |at| == k && Increasing(at, |old(trace)|) && forall n :: n in at ==> n < |trace|
        invariant forall n :: n in at ==> PolledAt(backend, trace, n, resumed)
      {
        ghost var tr, done := trace, resumed;
        ghost var n := TurnPoll();
        forall m | m in at ensures m < |trace| && PolledAt(backend, trace, m, resumed) {
          PolledAtGrows(backend, tr, trace, m, done, resumed);
        }
        IncreasingMore(at, |old(trace)|, |tr|, n);
        at := at + [n];
      }
    }

    /** execute on one CQE: a NOP only uses its token up, any other may run a coroutine. */
    method ExecuteCqe(nop: bool)
      requires Valid() && backend.UringNop? && phase != Resuming && (nop ==> tokens > 0)
      modifies this`queued, this`tokens, this`posted, this`phase, this`trace
      ensures Valid() && phase == Delivering && old(trace) + [Executed(nop)] <= trace && old(queued) <= queued
    {
      ghost var s := State();
      phase := Delivering;
      if nop {
        tokens := tokens - 1;
      }
      Commit(s, Executed(nop));
      if !nop {
        ghost var more := RunCoroutines();
      }
    }

    /** The CQEs of one turn: the one that ended the wait and any number of others. */
    method ExecuteSome()
      requires Valid() && backend.UringNop? && phase == Working && resuming == []
      modifies this`queued, this`tokens, this`posted, this`phase, this`trace
      ensures Valid() && phase == Delivering && old(trace) <= trace && old(queued) <= queued
      ensures |old(trace)| < |trace| && trace[|old(trace)|].Executed?
    {
      var wake: bool, cqes: nat := *, *;
      ExecuteCqe(wake && tokens > 0);
      for j := 0 to cqes
        invariant Valid() && phase == Delivering && old(trace) <= trace && old(queued) <= queued
        invariant |old(trace)| < |trace| && trace[|old(trace)|].Executed?
      {
        var nop: bool := *;
        ExecuteCqe(nop && tokens > 0);
      }
    }

    /** One turn: the wait, which a signal may cut short, then CQEs and resume_all. */
    method TurnUring() returns (ghost at: nat)
      requires Valid() && backend.UringNop? && phase == Working && resuming == []
      modifies this
      ensures Valid() && phase == Working && resuming == [] && old(trace) <= trace && old(resumed) <= resumed
      ensures |old(trace)| <= at < |trace| && WaitedAt(trace, at, resumed)
      ensures trace[at].Interrupted? ==> trace == old(trace) + [Interrupted] && resumed == old(resumed)
    {
      RingStrandsHandlesIff(trace);
      at := |trace|;
      ghost var before, done := trace, resumed + queued;
      assert trace[..at] == trace;
      if * {
        Commit(State(), Interrupted);
      } else {
        ExecuteSome();
        ResumeAll();
        assert done <= resumed;
      }
      assert trace[..at] == before;
    }

    /**
     * uring_warden::run_until for some number of turns.  `at` says where each wait ended: a wait strands handles iff
     * their edge was missed, and by the end all that was queued at a wait that a CQE ended has been resumed.
     */
    method RunUntilUring(turns: nat) returns (ghost at: seq<nat>)
      requires Valid() && backend.UringNop? && phase == Working && resuming == []
      modifies this
      ensures Valid() && phase == Working && resuming == [] && old(trace) <= trace
      ensures |at| == turns && Increasing(at, |old(trace)|)
      ensures forall n :: n in at ==> WaitedAt(trace, n, resumed)
    {
      ghost var first := RunCoroutines();
      at := [];
      for k := 0 to turns
        invariant Valid() && phase == Working && resuming == [] && old(trace) <= trace
        invariant |at| == k && Increasing(at, |old(trace)|) && forall n :: n in at ==> n < |trace|
        invariant forall n :: n in at ==> WaitedAt(trace, n, resumed)
      {
        ghost var tr, done := trace, resumed;
        ghost var n := TurnUring();
        forall m | m in at ensures m < |trace| && WaitedAt(trace, m, resumed) {
          WaitedAtGrows(tr, trace, m, done, resumed);
        }
        IncreasingMore(at, |old(trace)|, |tr|, n);
        at := at + [n];
      }
    }
  }
}
