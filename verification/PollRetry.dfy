/** What survives a timed retry of connect: everything but the timers, until the next timer fires. */
module PollRetry {
  import opened Basics
  import opened PollMachine
  import opened PollInvariant

  /** The registry is sound but for its timers. */
  ghost predicate QueueSound(s: Reactor) {
    exists ts: seq<Timer> :: Inv(s.(timeouts := ts))
  }

  predicate SameButTimers(a: Status, b: Status) {
    match a
    case Running(s) => b.Running? && b.reactor == s.(timeouts := b.reactor.timeouts)
    case Fault => b == Fault
    case Illegal => b == Illegal
  }

  // ----- No step but a timer going off looks at the timers -----

  lemma FinishIgnoresTimers(s: Reactor, ts: seq<Timer>, p: Ptr, o: Outcome)
    requires p in s.heap
    ensures var t := s.(timeouts := ts);
      && SameButTimers(CancelTimeoutThenResume(SetResult(s, p, o), p), CancelTimeoutThenResume(SetResult(t, p, o), p))
      && SameButTimers(CancelTimeoutThenResume(s, p), CancelTimeoutThenResume(t, p))
      && SameButTimers(Resume(SetResult(s, p, o), p), Resume(SetResult(t, p, o), p))
      && SameButTimers(Resume(s, p), Resume(t, p))
  {
  }

  lemma ParkIgnoresTimers(s: Reactor, ts: seq<Timer>, p: Ptr)
    requires p in s.heap
    ensures var t := s.(timeouts := ts);
      && SameButTimers(Running(Enqueue(s, p)), Running(Enqueue(t, p)))
      && SameButTimers(Running(InsertTimeout(Enqueue(s, p), p)), Running(InsertTimeout(Enqueue(t, p), p)))
  {
  }

  lemma TransferIgnoresTimers(s: Reactor, ts: seq<Timer>, p: Ptr, sys: Sys)
    requires p in s.heap
    ensures SameButTimers(TryTransfer(s, p, sys), TryTransfer(s.(timeouts := ts), p, sys))
  {
    var r := s.heap[p].result;
    match sys
    case Done(n) => FinishIgnoresTimers(s, ts, p, r.AssignValue(n));
    case Errno(code) =>
      ParkIgnoresTimers(s, ts, p);
      FinishIgnoresTimers(s, ts, p, r.AssignValue(-1));
      FinishIgnoresTimers(s, ts, p, r.AssignError(code));
    case SoError(_, _) =>
  }

  lemma ConnectIgnoresTimers(s: Reactor, ts: seq<Timer>, p: Ptr, sys: Sys)
    requires p in s.heap
    ensures SameButTimers(TryConnect(s, p, sys), TryConnect(s.(timeouts := ts), p, sys))
  {
    match sys
    case Done(_) =>
    case Errno(code) => FinishIgnoresTimers(s, ts, p, s.heap[p].result.AssignError(code));
    case SoError(_, errno) =>
      ParkIgnoresTimers(s, ts, p);
      FinishIgnoresTimers(s, ts, p, s.heap[p].result.AssignError(errno));
  }

  lemma TryIgnoresTimers(s: Reactor, ts: seq<Timer>, p: Ptr, sys: Sys)
    requires p in s.heap
    ensures SameButTimers(TryOrResume(s, p, sys), TryOrResume(s.(timeouts := ts), p, sys))
  {
    FinishIgnoresTimers(s, ts, p, FRESH_OUTCOME);
    match s.heap[p].kind
    case Close =>
    case Sleep =>
    case ReadReady =>
    case WriteReady =>
    case Connect => ConnectIgnoresTimers(s, ts, p, sys);
    case _ => TransferIgnoresTimers(s, ts, p, sys);
  }

  lemma StartIgnoresTimers(s: Reactor, ts: seq<Timer>, p: Ptr, sys: Sys)
    requires p in s.heap
    ensures SameButTimers(AwaitSuspend(s, p, sys), AwaitSuspend(s.(timeouts := ts), p, sys))
  {
    ParkIgnoresTimers(s, ts, p);
    match s.heap[p].kind
    case Connect =>
      FinishIgnoresTimers(s, ts, p, if sys.Errno? then s.heap[p].result.AssignError(sys.code) else FRESH_OUTCOME);
    case ReadReady =>
    case WriteReady =>
    case _ => TryIgnoresTimers(InsertTimeout(s, p), InsertTimeout(s.(timeouts := ts), p).timeouts, p, sys);
  }

  lemma StepIgnoresTimers(s: Reactor, ts: seq<Timer>, e: Event)
    requires !e.Fire?
    ensures SameButTimers(Apply(s, e), Apply(s.(timeouts := ts), e))
  {
    match e
    case Await(p, h, sys) =>
      if p in s.heap {
        StartIgnoresTimers(s.(heap := s.heap[p := s.heap[p].(handle := Some(h))], awaited := s.awaited + {p}), ts, p, sys);
      }
    case Continue(sys) =>
      if s.batch != [] && s.batch[0] in s.heap {
        TryIgnoresTimers(s.(batch := s.batch[1..]), ts, s.batch[0], sys);
      }
    case _ =>
  }

  // ----- So the queues survive the retry -----

  lemma RetryKeepsQueues(s: Reactor, ts: seq<Timer>, sys: Sys)
    requires Inv(s.(timeouts := ts)) && s.batch != [] && s.batch[0] in s.heap && IsTimedRetry(s.heap[s.batch[0]], sys)
    ensures Apply(s, Continue(sys)) == Running(Retried(s)) && QueueSound(Retried(s))
  {
    var sound := s.(timeouts := ts);
    var p, t := s.batch[0], sound.(batch := s.batch[1..]);
    HeadInHand(sound);
    ParkKeeps(sound, t, p);
    RetryIs(s, sys);
    assert Retried(s).(timeouts := ts) == Enqueue(t, p);
  }

  /** A step that is no timer and destroys no member of the batch keeps everything but the timers sound. */
  lemma StepKeepsQueues(s: Reactor, e: Event)
    requires QueueSound(s) && !e.Fire? && (e.Destroy? ==> e.p !in s.batch)
    ensures var st := Apply(s, e); !st.Fault? && (st.Running? ==> QueueSound(st.reactor))
  {
    var ts: seq<Timer> :| Inv(s.(timeouts := ts));
    if e.Continue? && s.batch != [] && s.batch[0] in s.heap && IsTimedRetry(s.heap[s.batch[0]], e.sys) {
      RetryKeepsQueues(s, ts, e.sys);
    } else {
      SoundStepKeepsQueues(s, ts, e);
    }
  }

  lemma SoundStepKeepsQueues(s: Reactor, ts: seq<Timer>, e: Event)
    requires Inv(s.(timeouts := ts)) && !e.Fire? && Benign(s.(timeouts := ts), e)
    ensures var st := Apply(s, e); !st.Fault? && (st.Running? ==> QueueSound(st.reactor))
  {
    var st, sound := Apply(s, e), Apply(s.(timeouts := ts), e);
    StepKeeps(s.(timeouts := ts), e);
    StepIgnoresTimers(s, ts, e);
    if st.Running? {
      assert st.reactor.(timeouts := sound.reactor.timeouts) == sound.reactor;
    }
  }

  /** No member of the batch is destroyed, and no timer fires once a timed retry has happened. */
  ghost predicate CarefulRun(es: seq<Event>) {
    es == [] ||
    (var es', e := es[..|es| - 1], es[|es| - 1];
     && CarefulRun(es')
     && (Run(es').Running? ==> (e.Destroy? ==> e.p !in Run(es').reactor.batch) && (e.Fire? ==> BenignRun(es'))))
  }

  lemma InvIsQueueSound(s: Reactor)
    requires Inv(s)
    ensures QueueSound(s)
  {
    assert s.(timeouts := s.timeouts) == s;
  }

  /** Such a run touches nothing dead, and each waiter is in exactly one place, timed retries of connect or not. */
  lemma {:induction false} CarefulRunIsSafe(es: seq<Event>)
    requires CarefulRun(es)
    ensures !Run(es).Fault? && (Run(es).Running? ==> QueueSound(Run(es).reactor))
  {
    if es == [] {
      RunIsSafe(es);
      InvIsQueueSound(INITIAL);
    } else {
      var es', e := es[..|es| - 1], es[|es| - 1];
      CarefulRunIsSafe(es');
      if Run(es').Running? {
        if e.Fire? {
          RunIsSafe(es');
          StepKeeps(Run(es').reactor, e);
          if Run(es).Running? { InvIsQueueSound(Run(es).reactor); }
        } else {
          StepKeepsQueues(Run(es').reactor, e);
        }
      }
    }
  }

  lemma CarefulExtends(es: seq<Event>, e: Event)
    requires Run(es).Running?
    ensures CarefulRun(es + [e]) <==>
      CarefulRun(es) && (e.Destroy? ==> e.p !in Run(es).reactor.batch) && (e.Fire? ==> BenignRun(es))
  {
    assert (es + [e])[..|es|] == es;
  }

  /** The retry of connect that doubles a timer has happened in this run. */
  ghost predicate TimedRetryIn(es: seq<Event>) {
    es != [] &&
    var es', e := es[..|es| - 1], es[|es| - 1];
    TimedRetryIn(es') || (Run(es').Running? && RetriesTimed(Run(es').reactor, e))
  }

  predicate RetriesTimed(s: Reactor, e: Event) {
    e.Continue? && s.batch != [] && s.batch[0] in s.heap && IsTimedRetry(s.heap[s.batch[0]], e.sys)
  }

  /** A careful run respects both guards iff it has had no timed retry. */
  lemma {:induction false} CarefulIsBenignIff(es: seq<Event>)
    requires CarefulRun(es)
    ensures BenignRun(es) <==> !TimedRetryIn(es)
  {
    if es != [] {
      CarefulIsBenignIff(es[..|es| - 1]);
    }
  }

  /** What QueueSound says about a single waiter. */
  lemma QueueSoundPlaces(s: Reactor, p: Ptr)
    requires QueueSound(s)
    ensures QueuesAgree(s, p) && BatchAgrees(s, p) && HistoryAgrees(s, p)
  {
    var ts: seq<Timer> :| Inv(s.(timeouts := ts));
    assert LocalInv(s.(timeouts := ts), p);
    assert QueuesAgree(s.(timeouts := ts), p) && BatchAgrees(s.(timeouts := ts), p) && HistoryAgrees(s.(timeouts := ts), p);
  }
}
