/**
 * Deferred resumption and the wake-up of a blocked loop, for both wardens.
 *
 * A token is a byte in poll's self-pipe or a NOP on its way through the ring.  It is sent only when the queue
 * of handles turns from empty to non-empty, so the loop must never block with handles queued and no token.
 */
module WakeUp {
  import opened Basics

  type Handle = nat

  datatype Backend = PollPipe(capacity: nat) | UringNop

  /** Working: up to the blocking call.  Delivering: from its return to resume_all.  Resuming: in resume_all. */
  datatype Phase = Working | Delivering | Resuming

  datatype Loop = Loop(
    backend: Backend, phase: Phase,
    queued: seq<Handle>, resuming: seq<Handle>,     // async_resumption; of `resuming` what is still to come
    tokens: nat,
    interrupted: nat,                               // polls cut short by a signal since the last drain
    posted: seq<Handle>, resumed: seq<Handle>)      // history

  datatype Event =
    | Post(handles: seq<Option<Handle>>, room: bool)    // do_async_resume; `room`: next_sqe has an SQE
    | Interrupted                                       // EINTR
    | PollTimedOut                                      // poll returns 0
    | PollReady(wake: bool)                             // poll returns > 0; `wake`: the pipe is readable
    | Executed(nop: bool)                               // a CQE is executed
    | SwapQueues | ResumeNext | EndResume               // resume_all

  function Initial(backend: Backend): Loop {
    Loop(backend, Working, [], [], 0, 0, [], [])
  }

  function NonNull(handles: seq<Option<Handle>>): seq<Handle> {
    if handles == [] then []
    else
      var n := |handles| - 1;
      NonNull(handles[..n]) + match handles[n] case Some(h) => [h] case None => []
  }

  /** Each non-null handle of a span is taken once, in the order of the span. */
  lemma {:induction false} NonNullAppends(a: seq<Option<Handle>>, b: seq<Option<Handle>>)
    ensures NonNull(a + b) == NonNull(a) + NonNull(b)
  {
    if b == [] {
      assert a + b == a;
    } else {
      var n := |b| - 1;
      assert (a + b)[..|a + b| - 1] == a + b[..n];
      NonNullAppends(a, b[..n]);
    }
  }

  lemma NonNullOne(h: Handle)
    ensures NonNull([Some(h)]) == [h] && NonNull([None]) == []
  {
    assert [Some(h)][..0] == [];
    var none: seq<Option<Handle>> := [None];
    assert none[..0] == [];
  }

  /** wake_event_loop: a full pipe already holds a byte, a full ring makes next_sqe throw. */
  function Wake(s: Loop, room: bool): Loop {
    match s.backend
    case PollPipe(capacity) => if s.tokens < capacity then s.(tokens := s.tokens + 1) else s
    case UringNop => if room then s.(tokens := s.tokens + 1) else s
  }

  /** do_async_resume */
  function DoPost(s: Loop, handles: seq<Option<Handle>>, room: bool): Loop {
    var hs := NonNull(handles);
    var t := s.(queued := s.queued + hs, posted := s.posted + hs);
    if hs != [] && s.queued == [] then Wake(t, room) else t
  }

  /** Whether the event can happen; poll is level triggered, so it reports the pipe iff a byte is in it. */
  predicate Enabled(s: Loop, e: Event) {
    match e
    case Post(_, _) => true
    case Interrupted => s.phase == Working
    case PollTimedOut => s.backend.PollPipe? && s.phase == Working && s.tokens == 0
    case PollReady(wake) => s.backend.PollPipe? && s.phase == Working && (wake <==> s.tokens > 0)
    case Executed(nop) => s.backend.UringNop? && s.phase != Resuming && (nop ==> s.tokens > 0)
    case SwapQueues => s.phase == Delivering || (s.phase == Working && s.backend.UringNop?)
    case ResumeNext => s.phase == Resuming && s.resuming != []
    case EndResume => s.phase == Resuming && s.resuming == []
  }

  function Apply(s: Loop, e: Event): Loop
    requires Enabled(s, e)
  {
    match e
    case Post(handles, room) => DoPost(s, handles, room)
    case Interrupted =>
      if s.backend.UringNop? then s else s.(phase := Delivering, interrupted := s.interrupted + 1)
    case PollTimedOut => s.(phase := Delivering)
    case PollReady(wake) => if wake then s.(phase := Delivering, tokens := 0, interrupted := 0) else s.(phase := Delivering)
    case Executed(nop) => s.(phase := Delivering, tokens := if nop then s.tokens - 1 else s.tokens)
    case SwapQueues => s.(phase := Resuming, resuming := s.queued, queued := [])
    case ResumeNext => s.(resumed := s.resumed + [s.resuming[0]], resuming := s.resuming[1..])
    case EndResume => s.(phase := Working)
  }

  function Run(backend: Backend, es: seq<Event>): Option<Loop> {
    if es == [] then Some(Initial(backend))
    else match Run(backend, es[..|es| - 1])
      case Some(s) => if Enabled(s, es[|es| - 1]) then Some(Apply(s, es[|es| - 1])) else None
      case None => None
  }

  function QueueEdge(s: Loop): nat {
    if s.queued != [] then 1 else 0
  }

  predicate PipeBounded(s: Loop) {
    if s.phase == Delivering then s.tokens <= s.interrupted + QueueEdge(s)
    else s.tokens <= 1 + s.interrupted + QueueEdge(s)
  }

  predicate Inv(s: Loop) {
    && (s.backend.PollPipe? && s.phase != Delivering && s.queued != [] ==> s.tokens > 0)
    && (s.phase != Resuming ==> s.resuming == [])
    && s.posted == s.resumed + s.resuming + s.queued
    && (s.backend.PollPipe? ==> s.backend.capacity > 0 && PipeBounded(s))
  }

  lemma StepKeeps(s: Loop, e: Event)
    requires Inv(s) && Enabled(s, e)
    ensures Inv(Apply(s, e)) && Apply(s, e).backend == s.backend
  {
    match e
    case Post(handles, room) =>
      var hs := NonNull(handles);
      assert s.posted + hs == s.resumed + s.resuming + (s.queued + hs);
    case ResumeNext =>
      assert s.resuming == [s.resuming[0]] + s.resuming[1..];
      assert s.resumed + s.resuming == (s.resumed + [s.resuming[0]]) + s.resuming[1..];
    case _ =>
  }

  lemma {:induction false} RunKeeps(backend: Backend, es: seq<Event>)
    requires Run(backend, es).Some? && backend != PollPipe(0)
    ensures Inv(Run(backend, es).value) && Run(backend, es).value.backend == backend
  {
    if es != [] {
      RunKeeps(backend, es[..|es| - 1]);
      StepKeeps(Run(backend, es[..|es| - 1]).value, es[|es| - 1]);
    }
  }

  // ----- The main results -----

  /** The poll loop never blocks with handles queued and no byte in the pipe. */
  lemma NoLostWakeUp(capacity: nat, es: seq<Event>)
    requires capacity > 0 && Run(PollPipe(capacity), es).Some?
    requires var s := Run(PollPipe(capacity), es).value; s.phase == Working && s.queued != []
    ensures Run(PollPipe(capacity), es).value.tokens > 0
  {
    RunKeeps(PollPipe(capacity), es);
  }

  /** On the ring: the post that filled the present queue found no NOP in flight and no SQE to send one. */
  predicate EdgeMissed(es: seq<Event>) {
    es != [] &&
    var es', e := es[..|es| - 1], es[|es| - 1];
    var before := Run(UringNop, es');
    if before.Some? && e.Post? && NonNull(e.handles) != [] && before.value.queued == []
    then before.value.tokens == 0 && !e.room
    else !e.SwapQueues? && EdgeMissed(es')
  }

  lemma {:induction false} EdgeMissedRuns(es: seq<Event>)
    requires Run(UringNop, es).Some?
    ensures var s := Run(UringNop, es).value;
      && (EdgeMissed(es) ==> s.queued != [] && s.tokens == 0)
      && (s.phase != Delivering && s.queued != [] && s.tokens == 0 ==> EdgeMissed(es))
  {
    if es != [] {
      var es', e := es[..|es| - 1], es[|es| - 1];
      EdgeMissedRuns(es');
      RunKeeps(UringNop, es');
      RunKeeps(UringNop, es);
    }
  }

  /** About to block, the ring has handles queued and no NOP on its way iff the edge that queued them was missed. */
  lemma RingStrandsHandlesIff(es: seq<Event>)
    requires Run(UringNop, es).Some? && Run(UringNop, es).value.phase == Working
    ensures var s := Run(UringNop, es).value; s.queued != [] && s.tokens == 0 <==> EdgeMissed(es)
  {
    EdgeMissedRuns(es);
  }

  /** How many posts filled an empty queue while next_sqe had an SQE. */
  function EdgesSent(es: seq<Event>): nat {
    if es == [] then 0
    else
      var es', e := es[..|es| - 1], es[|es| - 1];
      var before := Run(UringNop, es');
      EdgesSent(es') +
        if before.Some? && e.Post? && NonNull(e.handles) != [] && before.value.queued == [] && e.room then 1 else 0
  }

  function NopsExecuted(es: seq<Event>): nat {
    if es == [] then 0 else NopsExecuted(es[..|es| - 1]) + if es[|es| - 1] == Executed(true) then 1 else 0
  }

  /** The ring sends one NOP for each such edge and no other, and none is lost before it is executed. */
  lemma {:induction false} RingSendsOneNopPerEdge(es: seq<Event>)
    requires Run(UringNop, es).Some?
    ensures Run(UringNop, es).value.tokens + NopsExecuted(es) == EdgesSent(es)
  {
    if es != [] {
      RingSendsOneNopPerEdge(es[..|es| - 1]);
      RunKeeps(UringNop, es[..|es| - 1]);
    }
  }

  /** A missed wake-up is never made up for: until the next resume_all no later call sends a token either. */
  lemma {:induction false} MissedTokenStaysMissed(es: seq<Event>, more: seq<Event>)
    requires EdgeMissed(es) && Run(UringNop, es + more).Some? && SwapQueues !in more
    ensures var s := Run(UringNop, es + more).value; EdgeMissed(es + more) && s.queued != [] && s.tokens == 0
  {
    if more == [] {
      assert es + more == es;
    } else {
      var more', e := more[..|more| - 1], more[|more| - 1];
      assert more == more' + [e] && es + more == es + more' + [e];
      RunExtends(UringNop, es + more', e);
      MissedTokenStaysMissed(es, more');
      assert e in more;
    }
    EdgeMissedRuns(es + more);
  }

  /** It takes a single call: the first async_resume on a full ring. */
  lemma EdgeCanBeMissed(h: Handle)
    ensures Run(UringNop, [Post([Some(h)], false)]).Some? && EdgeMissed([Post([Some(h)], false)])
  {
    assert NonNull([Some(h)]) == [h] by { assert [Some(h)][..0] == []; }
    RunExtends(UringNop, [], Post([Some(h)], false));
    assert [] + [Post([Some(h)], false)] == [Post([Some(h)], false)];
  }

  /** However many async_resume calls occur, the pipe holds at most two bytes more than interrupted polls. */
  lemma PipeIsBounded(capacity: nat, es: seq<Event>)
    requires capacity > 0 && Run(PollPipe(capacity), es).Some?
    ensures Run(PollPipe(capacity), es).value.tokens <= 2 + Run(PollPipe(capacity), es).value.interrupted
  {
    RunKeeps(PollPipe(capacity), es);
  }

  lemma RunExtends(backend: Backend, es: seq<Event>, e: Event)
    ensures Run(backend, es + [e]) ==
      if Run(backend, es).Some? && Enabled(Run(backend, es).value, e) then Some(Apply(Run(backend, es).value, e)) else None
  {
    assert (es + [e])[..|es|] == es;
  }

  /** One handle is drained by resume_all and posted again. */
  lemma OneMoreRound(backend: Backend, es: seq<Event>, h: Handle) returns (es': seq<Event>)
    requires Run(backend, es).Some?
    requires var s := Run(backend, es).value; s.phase == Delivering && s.queued == [h] && s.resuming == []
    requires backend.PollPipe? && Run(backend, es).value.backend == backend
    requires Run(backend, es).value.tokens < backend.capacity
    ensures Run(backend, es').Some?
    ensures var s, t := Run(backend, es).value, Run(backend, es').value;
      && t.phase == Working && t.queued == [h] && t.resuming == [] && t.backend == backend
      && t.tokens == s.tokens + 1 && t.interrupted == s.interrupted
  {
    var a := es + [SwapQueues];
    RunExtends(backend, es, SwapQueues);
    var b := a + [ResumeNext];
    RunExtends(backend, a, ResumeNext);
    var c := b + [EndResume];
    RunExtends(backend, b, EndResume);
    assert NonNull([Some(h)]) == [h] by { assert [Some(h)][..0] == []; }
    es' := c + [Post([Some(h)], true)];
    RunExtends(backend, c, Post([Some(h)], true));
  }

  /** The bound is tight for every number of interruptions. */
  lemma {:induction false} PipeBoundIsReached(capacity: nat, k: nat, h: Handle) returns (es: seq<Event>)
    requires capacity >= k + 2
    ensures Run(PollPipe(capacity), es).Some?
    ensures var s := Run(PollPipe(capacity), es).value;
      && s.tokens == k + 2 && s.interrupted == k
      && s.phase == Working && s.queued == [h] && s.resuming == [] && s.backend == PollPipe(capacity)
  {
    var b := PollPipe(capacity);
    assert NonNull([Some(h)]) == [h] by { assert [Some(h)][..0] == []; }
    if k == 0 {
      RunExtends(b, [], PollTimedOut);
      assert [] + [PollTimedOut] == [PollTimedOut];
      RunExtends(b, [PollTimedOut], Post([Some(h)], true));
      es := OneMoreRound(b, [PollTimedOut] + [Post([Some(h)], true)], h);
    } else {
      es := PipeBoundIsReached(capacity, k - 1, h);
      RunExtends(b, es, Interrupted);
      es := OneMoreRound(b, es + [Interrupted], h);
    }
  }

  /** All non-null handles ever handed to async_resume, in order. */
  function PostedBy(es: seq<Event>): seq<Handle> {
    if es == [] then []
    else
      var n := |es| - 1;
      PostedBy(es[..n]) + if es[n].Post? then NonNull(es[n].handles) else []
  }

  lemma {:induction false} PostedIsPostedBy(backend: Backend, es: seq<Event>)
    requires Run(backend, es).Some?
    ensures Run(backend, es).value.posted == PostedBy(es)
  {
    if es != [] {
      PostedIsPostedBy(backend, es[..|es| - 1]);
    }
  }

  /** Resumption is first in first out and exactly once. */
  lemma ResumesInOrder(backend: Backend, es: seq<Event>)
    requires Run(backend, es).Some? && backend != PollPipe(0)
    ensures var s := Run(backend, es).value; PostedBy(es) == s.resumed + s.resuming + s.queued
  {
    RunKeeps(backend, es);
    PostedIsPostedBy(backend, es);
  }
}
