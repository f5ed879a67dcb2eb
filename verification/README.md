# Verified model of the felspar-io reactors

felspar-io drives C++ coroutines from a single-threaded event loop with two back ends, `io_uring` and `poll`. This project models the parts of it where raw pointers, counters and queues must agree on every interleaving, and proves what holds over all runs. `dafny verify dfyconfig.toml` checks everything.

## How the model is built

* Each protocol is a **transition system**: an event, a step function, and `Run` over a sequence of events. Allocation is explicit: `heap` maps addresses to live objects, `delete` removes one, and touching any other address is the status `Fault`. `Illegal` means the client, the kernel or the surrounding loop did something the model rules out. Theorems quantify over all event sequences, or over every state such a sequence leads to (`Reachable`; `HonestlyReachable` when the kernel keeps the linked-timeout contract).
* A **resumed coroutine is an adversary**. In the transition systems its actions are simply the next events; on `io_uring`, where `execute` can be re-entered from inside `handle.resume()`, the frames are a stack in the state.
* The code itself is **imperative**: classes whose fields are those of the C++ classes and whose methods follow its statements, branches and loops. A ghost `trace` records the run a warden has performed, and `Valid()` says that the fields are the state `Run(trace)` leads to. Every method says which events it appends, which determines its whole effect, and every theorem on runs is thereby a theorem on the class. Inside the classes the adversary is a loop that makes an arbitrary number of arbitrary calls.
* What coroutines read, which events wake whom, and who is resumed are **specified by kind, answer and event**, without the functions that implement the steps (`PollReplies`, `PollHistory`, `UringHistory`, `UringTheorems.ReplyTo`); the streams record every operation they issue.
* `depth` (in `UringWarden`), `patience` (in `PollWarden`), `turns`/`count` and the list of answers of `poll` are chosen freely by the caller: any finite execution has some finite re-entry depth, number of awaits and number of turns.

| file | content |
|---|---|
| `Basics.dfy`, `Lifecycle.dfy` | outcomes, error numbers, `std::erase`; the abstract life of an IOP |
| `Iops.dfy` | ownership of completions by iop objects |
| `UringMachine.dfy`, `UringTheorems.dfy`, `UringHistory.dfy`, `UringWarden.dfy` | the completion lifetime protocol of the `io_uring` warden |
| `PollMachine.dfy`, `PollInvariant.dfy`, `PollTheorems.dfy`, `PollReplies.dfy`, `PollHistory.dfy`, `PollOrder.dfy`, `PollService.dfy`, `PollDescriptors.dfy`, `PollRetry.dfy`, `PollCounterexamples.dfy`, `PollWarden.dfy` | the registry, the timeouts and the poll loop of the `poll` warden |
| `Wardens.dfy` | where the two wardens must look alike |
| `WakeUp.dfy`, `EventLoop.dfy` | deferred resumption and the wake-up of a blocked loop |
| `Lines.dfy`, `Streams.dfy` | partial transfers, the read buffer and the line reader |

## What turned out not to hold

The code is modelled as it is. Where an expected property fails, the exact condition for it is proved.

* **Teardown can leak** (`UringTheorems.TeardownFreesAllIff`, witness `TeardownCanLeak`). Something leaks iff an iop was destroyed while its `iop_count` was two and exactly one of its CQEs has been executed when the warden goes: such an orphan has left `outstanding` and nobody frees it.
* **An await that throws may still be resumed** (`UringTheorems.ResumesSuspendedIff`, `ThrownAwaitIsResumed`). When the second `next_sqe` throws, the operation's own SQE is already prepared; its CQE later resumes a handle that is not suspended there.
* **A wake-up can be missed on the ring** (`WakeUp.RingStrandsHandlesIff`, `MissedTokenStaysMissed`, witness `EdgeCanBeMissed`). The loop blocks with handles queued and no NOP on its way iff the call that filled the queue found no NOP in flight and no SQE; no later `async_resume` makes up for it before the next `resume_all`.
* **connect reports `errno` instead of `SO_ERROR`** (`PollTheorems.ConnectLearnsErrorIff`). The socket's error reaches the coroutine iff `errno` happens to hold the same number and that is not EINPROGRESS. With the EINPROGRESS that the first `connect` left in `errno`, the failure is dropped and the next attempt reports success (`PollCounterexamples.ConnectFailureIsSwallowed`).
* **connect's retry** inserts a second timer (`PollInvariant.TimedRetryBreaks`). It can then touch a dead completion or resume one handle twice (`PollCounterexamples.RetryThenDestroyFaults`, `RetryResumesTwice`).
* **Destroying an IOP that waits in the poll batch** is not safe (`PollInvariant.BatchDestroyBreaks`, `PollCounterexamples.BatchNeverEmpties`, witness `DestroyInBatchFaults`). The two guards together are exact: `PollInvariant.StepKeepsIff`.
* **Waiters are not lined up in order of arrival** (`PollOrder.LinedUpInOrderIff`). They are, after every step of a run, iff no await ever parks while `do_poll` is still to try another waiter of the same descriptor and direction; such a newcomer overtakes that waiter.
* **Nor are they served in order of arrival** (`PollService.ServedInTurnIff`). They are, over a whole run, iff no await is answered at once while somebody waits, and no continuation is resumed while somebody is parked who did not overtake it or somebody it overtook is still to be tried. Without overtaking the latter means: while anybody is parked (`JumpsWithoutOvertaking`). Lining up and service are independent: a later reader can be served first though nobody is overtaken (`PollCounterexamples.LaterReaderServedFirst`), and all can be served in turn though somebody is (`OvertakenYetInTurn`). A reader can be overtaken and passed over for ever (`SecondReaderStarves`).
* **`clear_timeouts` returns an int**: the result is right iff there is no timer or the gap is below 2^31 ms (`PollWarden.TimeoutIsRightIff`); beyond that poll wakes early, unless the gap in ms has bit 31 set, when it never wakes by itself (`SleepsPastIff`).
* **The poll set is not the set of the waiters' descriptors** (`PollDescriptors.PollSetAgreesIff`). It is iff every descriptor on which an IOP was ever parked, or of which an iop was ever destroyed, still has a waiter: a descriptor so named is polled for ever (`PolledIffNamed`, `PolledForEver`), also after it was closed, and even if nobody ever waited on it (witness `IdleDescriptorIsPolled`).
* **The line reader's documentation** (include/felspar/io/read.hpp:237-241) says that an empty span means a closed descriptor. The code also returns one for a blank line and when the storage behind the buffered data is used up; the documentation holds for a call iff the first line left is neither and, when no line is there and the storage is full, the stream is closed (`Streams.ReadBuffer.ReadSpan`, witness `Streams.EmptySpanMidStream`).

The comment in include/felspar/io/write.hpp:57 that doubts the count `write_all` returns is settled: the count is right (`Streams.WriteAll`).

## Assumptions

* Each IOP is awaited at most once; a handle does not throw out of `resume()`; the run loops are not nested, except that a coroutine on `io_uring` may make `execute` run again.
* The results of a linked pair are (r, -ECANCELED) with r other than -ECANCELED, or (-ECANCELED, -ETIME), in either order. Only the theorems on `HonestlyReachable` states need this; counters and memory are right for any results.
* `poll` is level triggered for the self-pipe, and the pipe has room for at least one byte.
* Addresses are not reused, so that "freed once" can be said.

## Model

| member | source | states |
|---|---|---|
| UringMachine.RunIsSafe | src/uring.warden.cpp:95-120 | in every run, with execute re-entered at will, no dead completion is touched and the counter never underflows |
| UringMachine.FinishKeeps | src/uring.warden.cpp:118-119 | erasing from outstanding, counting down and deleting keep counters, flags and the list in agreement |
| UringMachine.DestroyKeeps | src/uring.hpp:98-108 | destroying an iop at any point, also inside its own delivery, keeps the agreement |
| UringTheorems.CounterTellsWhatIsDue | src/uring.hpp:19-21 | iop_count of a live submitted completion is the CQEs still to execute plus the execute frames now running for it |
| UringTheorems.HalfDrainedIff | src/uring.hpp:98-108 | a completion is alive with neither owner nor entry in outstanding iff its iop was destroyed at count two and one of its CQEs is behind it |
| UringTheorems.MemoryIsAccounted | src/uring.warden.cpp:95-120 | between execute calls each completion ever allocated is in exactly one place: owned, once in outstanding, an orphan of a destruction at count two that awaits its second CQE, freed once |
| UringTheorems.TeardownLeaves | src/uring.hpp:28-31 | ~impl never frees twice and leaves exactly the owned completions and the early orphans that await their second CQE |
| UringTheorems.TeardownFreesAllIff | src/uring.hpp:28-31 | with no iop left, teardown frees everything iff no iop destroyed at count two has exactly one CQE still to come |
| UringTheorems.TeardownCanLeak | src/uring.warden.cpp:117-119 | a four step run after which teardown leaks |
| UringTheorems.DrainedResumesPerLiveCqe | src/uring.hpp:83-97 | whatever the kernel answers, an owned IOP whose CQEs are all executed was resumed once per CQE that is not a cancellation |
| UringTheorems.ResumedExactlyOnce | src/uring.hpp:83-97 | under the linked timeout contract, in either order: resumed exactly once, with the op's own result or the time out |
| UringHistory.AwaiterIsResumed | src/uring.hpp:60-63 | in every honest run: once the CQEs of an awaited, owned IOP are executed, the coroutine that awaited it and no other was resumed, once, with the result of its own submission that is no cancellation, read as the kind it was created with reads it |
| UringHistory.RunTells | src/uring.hpp:53-63 | in every run kind, deadline, posted results and handle are those of the events that created and awaited the completion, and every resumption is of the handle that awaited it |
| UringHistory.OwnedIff | include/felspar/io/warden.hpp:407-410 | an iop is owned from the event that creates it to the one that destroys it |
| UringTheorems.NeverResumedTwice | src/uring.warden.cpp:117 | owned, orphaned or freed, nothing is resumed twice |
| UringTheorems.NoResumeAfterDestroy | src/uring.warden.cpp:109-117 | once its iop is destroyed a handle is never resumed |
| UringTheorems.ResumesSuspendedIff | src/uring.hpp:64-81 | a resumption finds its coroutine suspended iff the await did not throw between the op's SQE and the timer's |
| UringTheorems.ThrownAwaitIsResumed | src/uring.warden.cpp:85-92 | the failing case, from any sound state |
| UringTheorems.RingSimulatesLife | src/uring.hpp:45-109 | each step is a step or a stutter of every IOP's abstract life |
| UringWarden.Warden.AwaitSuspend | src/uring.hpp:60-81 | handle, SQE, linked timer and iop_count = 2, for each way next_sqe can answer |
| UringWarden.Warden.DeleteDueToIopDestructed | src/uring.hpp:98-108 | deletable now, or marked and pushed onto outstanding |
| UringWarden.Warden.DestroyIop | include/felspar/io/warden.hpp:407-410 | the owner's decision to delete is one Destroy step of the protocol |
| UringWarden.Warden.StoreResult | src/uring.iops.cpp:38-40 | stores the outcome of a CQE or ignores it, with sleep's -ETIME turned into success |
| UringWarden.Warden.Deliver | src/uring.hpp:83-97 | whatever the coroutine does inside deliver, the completion is alive afterwards and only the counting down is missing |
| UringWarden.Warden.CountDown | src/uring.warden.cpp:118-119 | what follows deliver is exactly the Finish step |
| UringWarden.Warden.Execute | src/uring.warden.cpp:95-120 | one execute call, re-entered to any depth, is a Take, whatever the coroutine did, and the matching Return |
| UringWarden.Warden.ExecuteReady | src/uring.warden.cpp:44-47 | as many CQEs as asked for, in any order, each taken behind the other; fewer only when none is left |
| UringWarden.Warden.Teardown | src/uring.hpp:29-31 | after ~impl exactly the owned and the early orphans that await their second CQE are left |
| PollMachine.InsertTimerSorts | src/poll.hpp:30-32 | the multimap stays ordered under insertion |
| PollMachine.InsertTimerPlace | include/felspar/io/warden.poll.hpp:30-31 | a new timer goes behind all those due no later and in front of all those due later |
| PollMachine.EraseTimerDrops | src/poll.hpp:33-41 | find_if and erase take off exactly one timer of the completion, if it has any |
| PollWarden.EraseTimerAt | src/poll.hpp:33-41 | namely the first one, and everything else stays in order |
| PollInvariant.TryKeeps | src/poll.iops.cpp:58-76 | try_or_resume of every kind, for every answer, keeps the registry sound iff it is not the timed retry of connect |
| PollInvariant.AwaitKeeps | src/poll.hpp:43-48 | await_suspend of every kind keeps the registry sound for every system call answer |
| PollInvariant.FireKeeps | src/poll.warden.cpp:189-191 | a timer going off takes its waiter out of the queue before resuming it |
| PollInvariant.DestroyKeeps | src/poll.hpp:59-63 | destroying an iop outside the batch leaves no pointer to it behind |
| PollInvariant.PollKeeps | src/poll.warden.cpp:155-176 | moving the ready queues into the batch keeps every waiter in exactly one place |
| PollInvariant.StepKeepsIff | src/poll.hpp:18-64 | a step of a sound registry keeps it sound iff it neither destroys a batch member nor retries a timed connect |
| PollInvariant.TimedRetryBreaks | src/poll.iops.cpp:225-228 | the retry is exactly the queueing plus a second timer, and one of the two survives cancel_timeout |
| PollInvariant.BatchDestroyBreaks | src/poll.warden.cpp:177-179 | destroying a batch member leaves its pointer in the batch; at the head the next attempt touches a dead object |
| PollCounterexamples.BatchNeverEmpties | src/poll.warden.cpp:177-179 | wherever in the batch it was, no run gets past the destroyed member: it is still there, or was touched |
| PollCounterexamples.DestroyInBatchFaults | src/poll.warden.cpp:177-179 | two readers from an empty reactor: the first one's coroutine destroys the second iop, and the next attempt touches it |
| PollRetry.CarefulRunIsSafe | src/poll.iops.cpp:225-228 | with timed retries at will, nothing dead is touched and every waiter stays in one place, as long as no timer fires after one and no batch member is destroyed |
| PollInvariant.RunIsSafe | include/felspar/io/warden.poll.hpp:30-31 | in every guarded run: each waiter at most once over all queues, in that of its own descriptor and direction, one timer at its own deadline, no dangling pointer |
| PollTheorems.ResumedOnceAndUntied | src/poll.hpp:49-57 | a handle is handed out at most once, and then its completion is in no queue, batch or timer |
| PollTheorems.FiresEarliest | src/poll.warden.cpp:184-191 | each timer fired is the earliest present, less than a millisecond early, and its waiter's own |
| PollReplies.AwaitReplies | src/poll.iops.cpp:58-76 | for every kind and answer of the system call: whether the await suspends, and otherwise exactly what the coroutine reads |
| PollReplies.ContinueReplies | src/poll.iops.cpp:214-241 | the same for each attempt of do_poll: a transferred count is read as that count, EBADF of accept as -1, any other error as its exception |
| PollReplies.QueuedByKind | src/poll.iops.cpp:70 | also between continuations: whoever waits to read, accept or for readability is among the readers of its descriptor, to write, connect or for writability among the writers, and a sleep has its timer |
| PollReplies.ReaderWakesIff | src/poll.warden.cpp:104-168 | a waiting reader, accept or readability wait is polled for input, and goes into the batch iff its descriptor reports input, hang-up, error or an invalid descriptor; otherwise it stays queued |
| PollReplies.WriterWakesIff | src/poll.warden.cpp:104-175 | a waiting writer, connect or writability wait is polled for output, and goes into the batch iff its descriptor reports output, error or an invalid descriptor; otherwise it stays queued |
| PollReplies.BatchInOrder | src/poll.warden.cpp:155-176 | continuations are tried by ascending descriptor, readers before writers |
| PollHistory.RunTells | src/poll.hpp:43-48 | in every run kind, descriptor, deadline and handle are those of the events that created and awaited the completion, and every resumption is of the handle that awaited it |
| PollHistory.AliveIff | include/felspar/io/warden.hpp:407-410 | a completion is alive from the event that creates it to the one that destroys it |
| PollTheorems.NoStrandedWaiter | src/poll.warden.cpp:100-114 | at each poll every suspended IOP is a sleep with its timer or is polled in its direction |
| PollTheorems.NoIdleFlag | src/poll.warden.cpp:104-108 | a flag in the poll set is raised iff a waiter is behind it |
| PollDescriptors.PolledIffNamed | src/poll.iops.cpp:58-76 | in every guarded run a descriptor is in the poll set iff some await parked on it or some iop of it was destroyed |
| PollDescriptors.PolledForEver | src/poll.warden.cpp:104-108 | once named so, it is in the poll set of every continuation of the run |
| PollDescriptors.PollSetAgreesIff | src/poll.warden.cpp:100-114 | the poll set is the set of the waiters' descriptors iff every descriptor ever named still has a waiter |
| PollDescriptors.IdleDescriptorIsPolled | src/poll.iops.cpp:58 | creating and destroying an iop that nobody awaits leaves its descriptor in the poll set |
| PollTheorems.PollConserves | src/poll.warden.cpp:155-176 | per descriptor and direction, a matched queue moves in order and whole, any other stays |
| PollTheorems.RequeueOne | src/poll.iops.cpp:69-71 | a read, write or accept that would block again goes to the tail of its own queue, whatever else is in the batch; timers and the rest stay |
| PollOrder.StepKeepsOrder | src/poll.warden.cpp:155-180 | no guarded step changes the order of those who stay in line for a descriptor and direction |
| PollOrder.RunKeepsOrder | src/poll.warden.cpp:155-180 | over any run, with batches of all kinds and coroutines acting in between, those who wait all the while keep their order among themselves in the queue, in the batch and back in the queue |
| PollOrder.StepLinesUpIff | src/poll.warden.cpp:155-180 | a step puts newcomers behind everybody iff it is no await that parks while a waiter of that descriptor and direction is still in the batch |
| PollOrder.LinedUpInOrderIff | src/poll.warden.cpp:155-180 | over a run the waiters are lined up in order of arrival after every step iff no await overtook anybody |
| PollService.CameFirstIff | src/poll.iops.cpp:69-71 | of two waiters the one in front came first iff it did not overtake the other |
| PollService.NextCameFirstIff | src/poll.warden.cpp:177-179 | the next continuation has waited longest iff all those parked overtook it and it overtook nobody still in the batch |
| PollService.ServedInTurnIff | src/poll.iops.cpp:58-68 | over a run every attempt that resumes its completion resumes the one that has waited longest, and every await answered at once finds nobody waiting, iff no step jumps in |
| PollService.JumpsWithoutOvertaking | src/poll.warden.cpp:155-180 | if nobody was overtaken, a step jumps in iff it answers an await at once past a waiter or resumes a continuation while somebody is parked |
| PollCounterexamples.LaterReaderServedFirst | src/poll.iops.cpp:58-71 | the first of two readers blocks again, the second is served: nobody overtaken, all lined up in order, not in turn |
| PollCounterexamples.OvertakenYetInTurn | src/poll.iops.cpp:58-71 | a newcomer overtakes the second reader, and still all three are served in order |
| PollCounterexamples.SecondReaderStarves | src/poll.iops.cpp:69-71 | for every n a run of n rounds in each of which a newcomer parks in front of the second reader and the one in front is served; the second still waits, overtaken by the last, and from the second round on service was out of turn |
| PollTheorems.SpuriousWakeUpIsIdentity | src/poll.warden.cpp:155-180 | a poll at which every read, write and accept still blocks leaves the registry exactly as it was |
| PollTheorems.ConnectLearnsErrorIff | src/poll.iops.cpp:221-234 | after a failed connect the coroutine learns the socket error iff errno holds the same number and is not EINPROGRESS, in which case it is not resumed; it reads success iff errno is 0 |
| PollCounterexamples.ConnectFailureIsSwallowed | src/poll.iops.cpp:193-228 | a guarded run in which a connect that failed comes back as a success |
| PollCounterexamples.RetryThenDestroyFaults | src/poll.iops.cpp:225-228 | retry, destruction and the next timer: clear_timeouts touches a dead completion |
| PollCounterexamples.RetryResumesTwice | src/poll.iops.cpp:225-228 | retry and two timers: one handle is resumed twice |
| PollTheorems.ReactorSimulatesLife | src/poll.hpp:43-63 | each guarded step is a step or a stutter of every IOP's abstract life |
| PollTheorems.TimeoutReply | src/poll.hpp:50-53 | what a coroutine reads when its deadline passes or its sleep ends |
| Wardens.TimeoutsLookAlike | include/felspar/io/completion.hpp:35-39 | an IOP whose deadline passes, or whose sleep ends, is left by clear_timeouts where any honest ring run leaves one of the same kind whose CQEs say that time is up |
| PollWarden.WakesInTimeIff | src/poll.warden.cpp:186-194 | the time out in ms is exact to under a millisecond iff the gap is below 2^31 ms |
| PollWarden.SleepsPastIff | src/poll.warden.cpp:186-194 | poll sleeps past the first deadline iff the gap in ms modulo 2^32 is at least 2^31 |
| PollWarden.TimeoutIsRightIff | src/poll.warden.cpp:184-198 | -1 exactly when no timer is left and otherwise at least 1 and in time for every timer, iff there is none or the first is less than 2^31 ms away |
| PollWarden.SleepIsBounded | src/poll.warden.cpp:186-194 | a time out that is in time for the first timer passes no deadline that remains and ends within a millisecond of the first |
| PollWarden.KeysInOrder | src/poll.warden.cpp:104 | the iteration order of the map of requests |
| PollWarden.Warden.CancelTimeout | src/poll.hpp:33-41 | the search and erase loop is the abstract erase |
| PollWarden.Warden.TryOrResume | src/poll.iops.cpp:58-76 | try_or_resume of every kind does the abstract attempt |
| PollWarden.Warden.TryConnect | src/poll.iops.cpp:214-241 | connect's follow up, branch on errno and timed retry included |
| PollWarden.Warden.AwaitSuspend | src/poll.hpp:43-48 | one Await step, for every kind and answer |
| PollWarden.Warden.DestroyIop | src/poll.hpp:59-63 | one Destroy step |
| PollWarden.Warden.FireAllDue | src/poll.warden.cpp:184-198 | unless a timed retry doubled a timer: the loop re-reads begin() each turn, tolerates re-arming and ends with nothing due |
| PollWarden.Warden.ClearTimeouts | src/poll.warden.cpp:184-198 | unless a timed retry doubled a timer: nothing due is left, and the result is -1 or the truncated gap to the earliest, right for all timers iff the gap is below 2^31 ms |
| PollWarden.Warden.GatherReady | src/poll.warden.cpp:156-176 | the loop over poll's answers is one Poll step |
| PollWarden.Warden.TryFirst | src/poll.warden.cpp:177-179 | one continuation is one Continue step on a live completion |
| PollWarden.Warden.TryNext | src/poll.warden.cpp:177-179 | and then whatever its coroutine does |
| PollWarden.Warden.DoPoll | src/poll.warden.cpp:100-181 | builds the poll set of the registry, does nothing after EINTR or a time out, otherwise empties the batch; the registry stays sound iff no timed retry was among the continuations |
| PollWarden.Warden.RunTurn | src/poll.warden.cpp:51-56 | one turn: when poll was called nothing was due, with the time out clear_timeouts gives for the first timer, and what poll answered is what do_poll went on with |
| PollWarden.Warden.RunUntil | src/poll.warden.cpp:49-57 | one such turn after the other for every list of answers of poll is one run, sound up to the first timed retry |
| WakeUp.NoLostWakeUp | src/poll.warden.cpp:67-72 | about to block with handles queued, the poll loop has a byte in its pipe |
| WakeUp.RingStrandsHandlesIff | src/uring.warden.cpp:61-79 | in every run of the ring: about to block, handles are queued with no NOP on its way iff the call that filled the queue found none in flight and no SQE |
| WakeUp.RingSendsOneNopPerEdge | src/uring.warden.cpp:61-79 | NOPs in flight plus NOPs executed are the calls that filled an empty queue and found an SQE |
| WakeUp.MissedTokenStaysMissed | src/uring.warden.cpp:61-66 | from a missed wake-up on, any further run up to the next resume_all has handles queued and no token |
| WakeUp.EdgeCanBeMissed | src/uring.warden.cpp:69-79 | one async_resume on a full ring is such a run |
| WakeUp.PipeIsBounded | src/poll.warden.cpp:67-97 | the pipe holds at most 2 + k bytes after k interrupted polls |
| WakeUp.PipeBoundIsReached | src/poll.warden.cpp:140-150 | and for every k some run reaches that bound |
| WakeUp.NonNullAppends | include/felspar/io/async_resumption.hpp:27-36 | the handles taken from two spans one behind the other are those of the first and then those of the second |
| WakeUp.NonNullOne | include/felspar/io/async_resumption.hpp:30-31 | a handle is taken, a null handle is not |
| WakeUp.ResumesInOrder | include/felspar/io/async_resumption.hpp:27-47 | handles resumed, being resumed and queued are, in this order, all non-null handles ever posted |
| EventLoop.Warden.Queue | include/felspar/io/async_resumption.hpp:27-36 | the loop appends the non-null handles and tells whether there were any |
| EventLoop.Warden.DoAsyncResume | src/poll.warden.cpp:67-72 | one Post step, with a wake-up only on the empty to non-empty edge |
| EventLoop.Warden.ResumeAll | include/felspar/io/async_resumption.hpp:43-47 | resumes exactly what was queued at its start, in order, whatever the handles queue meanwhile |
| EventLoop.Warden.DrainWakeup | src/poll.warden.cpp:88-97 | reads in chunks until the pipe is empty |
| EventLoop.Warden.PollReturns | src/poll.warden.cpp:140-161 | EINTR leaves the bytes, any other return leaves none |
| EventLoop.Warden.RunUntilPoll | src/poll.warden.cpp:49-57 | in each turn poll is called with a byte in the pipe if handles are queued, and all handles queued then are resumed by the end |
| EventLoop.Warden.TurnUring | src/uring.warden.cpp:27-49 | one turn of the ring: a wait cut short by EINTR resumes nobody, any other is followed by resume_all |
| EventLoop.Warden.RunUntilUring | src/uring.warden.cpp:25-50 | in each turn the wait strands queued handles iff their edge was missed, and all handles queued at a wait that a CQE ended are resumed by the end |
| Iops.OneOwnerUntilHooked | include/felspar/io/completion.hpp:127-136 | however iops are moved, swapped and destroyed, each completion has one owner until its hook runs, and it runs once |
| Iops.Iop.Move | include/felspar/io/completion.hpp:132 | the moved-from iop holds nothing |
| Iops.Iop.MoveAssign | include/felspar/io/completion.hpp:133-136 | a swap, also with itself |
| Iops.Client.AssignIop | include/felspar/io/completion.hpp:133-136 | on the objects a move assignment is the MoveAssign step of the program, for the same object too |
| Iops.Client.DestroyIop | include/felspar/io/warden.hpp:407-410 | ~iop hooks what the object still holds, which is the Destroy step |
| Lines.SplitUndoesJoin | include/felspar/io/read.hpp:237-263 | splitting into lines undoes joining them with LF or CR LF |
| Streams.Channel.ReadSome | include/felspar/io/read.hpp:16-25 | an arbitrary partial read of the next bytes of the stream |
| Streams.WriteAll | include/felspar/io/write.hpp:46-62 | the count returned is exactly the prefix the channel took; each write offers all that is left, with the deadline given; the loop ends iff all is written or a write takes nothing or throws |
| Streams.ReadExactly | include/felspar/io/read.hpp:157-172 | fills the buffer with exactly the next bytes; short only at the end of the stream; each read has room for all that is missing, and the deadline given; the loop ends iff the buffer is full or a read brings nothing or throws |
| Streams.TransferRoundTrip | include/felspar/io/read.hpp:157-172 | both loops over one channel under any schedule: the buffer holds exactly the first bytes written, a short read means that all written bytes arrived, and when both complete the shorter length is transferred in full; each loop issues exactly the operations it owes, and stops short only on one that moves nothing |
| Streams.ReadBuffer.Move | include/felspar/io/read.hpp:76-80 | move construction keeps both spans and their bytes |
| Streams.ReadBuffer.MoveAssign | include/felspar/io/read.hpp:83-90 | move assignment over the storage this buffer has gives it the spans and bytes of the other, also from itself |
| Streams.ReadBuffer.DoReadSome | include/felspar/io/read.hpp:94-110 | one read into all of empty_buffer with the deadline given; data_read grows by what was read, empty_buffer shrinks by it, nothing is lost |
| Streams.ReadBuffer.Consume | include/felspar/io/read.hpp:128-139 | takes the first bytes; bytes consumed and data_read are all bytes received, also across the reset |
| Streams.ReadBuffer.FillUntilLf | include/felspar/io/read.hpp:249-255 | reads exactly as long as no LF is buffered and every read brings something, each into all the storage left and with the deadline given |
| Streams.ReadBuffer.ReadUntilLfStripCr | include/felspar/io/read.hpp:243-263 | for every chunking: the next line with at most one CR removed and exactly the rest left, or nothing lost; no read is issued once the LF is buffered |
| Streams.ReadBuffer.ReadLineOfFiniteStream | include/felspar/io/read.hpp:243-263 | a line is found iff its LF is within reach of the storage left; no throw on a faultless channel |
| Streams.ReadBuffer.ReadEveryLine | include/felspar/io/read.hpp:243-263 | if the stream fits, repeated calls give the lines of the stream however it is cut up |
| Streams.ReadBuffer.ReadSpan | include/felspar/io/read.hpp:237-263 | for any stream, closed or not: the span is empty iff no line was sent yet or the first one is blank or out of reach; it tells the two apart iff the first line is neither; and it means closed with no line left iff in addition a full storage without a line comes with a closed stream |
| Streams.EmptySpanMidStream | include/felspar/io/read.hpp:237-241 | two bytes of storage and a three byte line: an empty span with the line still to come |

## Left out

- PollWarden.Warden.ClearTimeouts: promises nothing after a timed retry of connect (`Sound`), because a doubled timer can belong to a dead completion (`PollCounterexamples.RetryThenDestroyFaults`).
- PollWarden.Warden.FireAllDue: the same.
- PollWarden.Warden.RunUntil: ends after the turn with the first timed retry, for the same reason.
- The kernel and libc: system calls and liburing answer arbitrarily within the assumptions above; `kts` and the conversion of a deadline for the kernel are not modelled.
- Windows branches, TLS, socket and address helpers, `accept` streams, the allocator wrapper, source locations and exception texts.
- Coroutine frames: a coroutine is a handle and arbitrary actions.
- The three concerns of a loop (completions, timeouts and registry, wake-up) are separate classes; a coroutine's actions in one do not restrict those in another.
- The self-pipe's descriptor is not an entry of `PollTheorems.PollSet`; `WakeUp` models it. Users cannot register it.
- In-place update of one completion through several pointers is expressed by addresses into one map, not by Dafny objects, because only so can `delete` and a dangling pointer be expressed.
- Termination of `clear_timeouts` and of the run loops without a bound: a coroutine may re-arm timers for ever.
- `std::vector` storage for `read_buffer`: a moved-from vector is empty, so the spans are those of `std::array` only.
