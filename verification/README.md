# libuc reactor model

A Dafny model of the hard core of libuc: the single-threaded fiber reactor
(`src/scheduler`, `src/fiber`), the io_uring ring it drives (`src/ring`,
`src/string/memmove.c`), the word-wise `memcmp` (`src/string/memcmp.c`) and the placement
of thread-local blocks (`src/thread_local`, `src/arch/*/thread_local_arch.h`).
`dafny verify dfyconfig.toml` checks all of it.

## How the model is built

**The reactor is described twice.** `Machine.dfy` is a state machine: the control points of
`__libuc_scheduler_run`, `park` and `__libuc_ring_submit`, and one step for each thing that
can happen next. Fibers and the kernel are arbitrary: a run is any sequence of events
`Admit`, `Tick` (the reactor), `Ask` (the running fiber suspends with any request) and
`Kernel` (an `io_uring_enter` returns, or a completion lands at any moment). `Scheduler.dfy`
is the code as written: a class `Reactor` with the intrusive list, the three counters, the
nested loops and the ring object of `Ring.dfy`, whose slots are moved in place and whose
completion queue is addressed by two wrapping 32-bit words. `Scheduler.Reactor.Run` is proved
to do on every history exactly what the machine does. `EndToEnd.Launch` joins the two: it sets
up the ring and the reactor, admits the fibers and runs; what it did is a run of the machine
from boot, so the theorems about such runs hold of the loop.

**Whole runs.** `Trace.dfy` says what an observer of a run sees: sweeps, resumes, calls
returning, submissions written, taken, completed and reaped, births, exits, releases.
`Fairness`, `Delivery`, `Attribution` and `Reclaim` prove, by induction over runs, that automata reading
this record never reach their broken state. `Theorems` and `Conservation` restate the results
without automata, on positions of the record of a run that starts at boot. `Answers` says what
each event leads to in terms of that record: the exact causes of an abort, the exact status of
an exit, and what every request is answered with. `Scenarios` writes
two runs out event by event, so that the hypotheses are seen to be met by real histories.

**Addresses.** A record or a request is a key of a map; a release removes the key, and a
use of a missing key is the outcome `Trapped(Fault, _)`. Addresses may be used again after a
release. `serial`, `born` and `stage` are history variables that no branch reads. Every
`__builtin_trap` is an explicit terminal outcome with its reason.

**What is assumed of the environment** (`Machine.Legal`, `RingModel.KernelLegal`): a request
lies on a frame of its own; a fresh mapping is not in use and not null; fewer than 2^32 records
exist at once; JOIN and DETACH name a handle that is not dead (`src/fiber/fiber.h:112-121`); a
successful enter accepts a prefix of the batch, nonempty unless the batch is empty
(`src/ring/ring.c:121-126`); each accepted submission completes at most once, with its own
`user_data`, in any order; `sq_entries` is positive and `cq_entries` is a power of two below
2^32. Only `Fairness.NoIdleRounds` and `Theorems.EveryRoundProgresses` assume more: that the
kernel honours `min_complete`.

**Imperative where the source is.** `Ring`, `Scheduler`, `Memory`, `MemCmp` and block creation in
`ThreadLocal` keep the source's loops and in-place updates; 32-bit and 64-bit wrap-around is
written out, bit masks are defined bit by bit, and their arithmetic meaning is proved
(`Bits.dfy`). Placement is straight-line checked arithmetic and is modelled as a function.

A handle the header calls dead after a DETACH (`src/fiber/fiber.h:118-121`) may still be named
in the model for as long as its record exists: a JOIN or a second DETACH of it then traps, as
`src/scheduler/scheduler.c:120-123` and `138-141` do.

## Model

| member | source | states |
|---|---|---|
| `InvariantProof.StepKeeps` | src/scheduler/scheduler.c:62-193 | every step from a legal event keeps the invariant: frames belong to suspended undestroyed fibers, the queue is exactly the ready ones, ring and kernel hold exactly the parked ones, join slots and blocked joins point at each other, counters are sizes, no fault |
| `InvariantProof.RunKeeps` | src/scheduler/scheduler.c:62-193 | the invariant holds after every legal run |
| `InvariantProof.BootHolds` | src/scheduler/scheduler.c:9-17 | a reactor that just became one satisfies the invariant |
| `InvariantProof.KeepTop` | src/scheduler/scheduler.c:63-64 | the 32-bit sum of the loop test cannot wrap: the loop is left exactly when both counters are zero, and the verdict keeps the invariant |
| `InvariantProof.KeepDispatch` | src/scheduler/scheduler.c:65-73 | while turns remain the head is a live suspended or fresh fiber, and popping and resuming it keeps the invariant |
| `InvariantProof.KeepExit` | src/scheduler/scheduler.c:78-98 | the three ways an exit ends (detached, unclaimed, joined) keep the invariant |
| `InvariantProof.KeepJoin` | src/scheduler/scheduler.c:118-135 | a join that traps, takes a status or blocks keeps the invariant |
| `InvariantProof.KeepDetach` | src/scheduler/scheduler.c:136-151 | a detach before or after the exit, of oneself or another, keeps the invariant |
| `InvariantProof.KeepAppend` | src/scheduler/scheduler.c:44-60 | both append attempts of `park` keep the invariant; the second never finds the batch full |
| `InvariantProof.KeepReap` | src/scheduler/scheduler.c:167-183 | delivering a completion keeps the invariant: its request is alive and its fiber in no queue |
| `Ownership.Partition` | src/scheduler/scheduler.c:62-184 | queued, in the ring, join-blocked, exited-unclaimed, running and being parked are pairwise disjoint and exhaust the undestroyed fibers; the three counters are the sizes of their classes |
| `Theorems.EveryFiberHasOnePlace` | src/scheduler/scheduler.c:62-184 | the same for every state of every run from boot |
| `Theorems.EveryRunIsSafe` | src/scheduler/scheduler.c:34-60 | in every state of every run no access went through a stale address, `park` never traps on its second append, every address in batch, kernel, completion queue or join slot is that of a suspended undestroyed fiber, and batch, in-flight and unreaped together are `parked_count`, at most `cq_entries` |
| `Theorems.WaitsOnlyWhenIdle` | src/scheduler/scheduler.c:157-165 | at the loop test the batch is always empty; the kernel is asked to wait exactly when something is parked and nothing is ready |
| `Deadlock.BlockedOnCycle` | src/scheduler/scheduler.c:118-135 | once nothing is ready or parked, every blocked joiner lies on a cycle of joins without repetition |
| `Deadlock.DrainVerdict` | src/scheduler/scheduler.c:186-192 | a drained reactor traps if and only if there is a join cycle, returns 0 if and only if there is none, and the blocked fibers are exactly those on cycles |
| `Deadlock.DrainLeavesExited` | src/scheduler/scheduler.c:186-192 | after a return by draining only exited, unjoined records are left, and no request is anywhere |
| `Theorems.AbortMeansCycle` | src/scheduler/scheduler.c:186-190 | in every run from boot a deadlock trap means a nonempty set of blocked fibers, each on a cycle |
| `Fairness.SweepsAreGenerations` | src/scheduler/scheduler.c:62-76 | in every run each sweep resumes the queue it began with, in order, and the next begins only afterwards |
| `Theorems.SweepRunsItsQueue` | src/scheduler/scheduler.c:64-76 | between two consecutive sweeps the resumes are exactly the first one's queue, in order, and that queue lists nobody twice |
| `Theorems.SweepUnderWay` | src/scheduler/scheduler.c:64-76 | the queue of the last sweep is what it has resumed followed by the first `turns` of the present queue, whatever was enqueued meanwhile; after a process exit or trap the resumes are a prefix of it |
| `Fairness.CompletionsAreNotStarved` | src/scheduler/scheduler.c:157-183 | from any state of any run completions are delivered in the order posted, and all that are due before the next sweep, whose queue holds every fiber woken; due is what was visible at a submit and, from any state of the reap loop, the whole queue |
| `Theorems.VisibleIsReaped` | src/scheduler/scheduler.c:157-183 | a completion posted before a submit succeeds is delivered with its own result before any later sweep begins |
| `Theorems.QueuedIsReaped` | src/scheduler/scheduler.c:167-183 | a completion in the queue at any point of the reap loop, one that the submit itself produced included, is delivered with its own result before the next sweep begins |
| `Theorems.WokenRunsNext` | src/scheduler/scheduler.c:176-183 | a woken fiber is in the queue of the very next sweep |
| `Theorems.AnswerReturnsInTime` | src/scheduler/scheduler.c:62-184 | a request of any kind, once answered by a completion, on the spot or by an exit, has returned from its call with that answer by the end of the first whole sweep after the answer |
| `Theorems.VisibleReturnsInTime` | src/scheduler/scheduler.c:157-183 | a completion posted before a submit succeeds has returned from its call, with its result, by the end of the first whole sweep after that submit |
| `Theorems.QueuedReturnsInTime` | test/sweep_generation.c:7-32 | a completion in the queue at any point of the reap loop, one that the submit itself produced included, has returned from its call, with its result, by the end of the very next sweep, however many fibers keep yielding |
| `Fairness.NoIdleRounds` | src/scheduler/scheduler.c:63-165 | with a kernel that honours `min_complete`, no round passes without a resume or a wake |
| `Theorems.EveryRoundProgresses` | src/scheduler/scheduler.c:157-183 | between any two sweeps some fiber was resumed or woken |
| `Conservation.ReapLoopBounded` | src/scheduler/scheduler.c:167-183 | `parked_count` is the reap loop's measure: as long as control stays in it, turns taken plus the present count is the count at the start, whatever completions land meanwhile |
| `Fairness.ParentRunsFirst` | src/scheduler/scheduler.c:102-117 | in every run no child is resumed while its spawner is still owed a turn |
| `Theorems.ParentBeforeChild` | src/scheduler/scheduler.c:102-117 | between a birth and the child's first resume its parent is resumed (section 7.26.5.1 of C11) |
| `Conservation.SpawnReturnsItsChild` | src/fiber/fiber.c:178-196 | a returned SPAWN yields its asker the handle of the child born of that very request, and null exactly when none was born |
| `Answers.Receptive` | src/fiber/fiber.h:112-121 | the reactor takes whatever comes: any request from an unused frame about records that exist, any answer the kernel may give, any completion at any time; otherwise it can go on by itself |
| `Answers.AbortsExactly` | src/scheduler/scheduler.c:32-192 | in every run the process aborts exactly for these causes, and for the one that applies: an AWAIT with flags or with as many operations parked as the completion queue has entries; a JOIN of oneself, of a fiber detached before, or of one another request waits for; a DETACH of either of the latter two; a release that was called for and failed; an error of the submit; a stream; a drained reactor with a join cycle |
| `Answers.ReturnsExactly` | src/scheduler/scheduler.c:152-193 | in every run the reactor returns exactly when a fiber asks for process exit, with the status asked for, or when it is drained without a join cycle, with 0 |
| `Answers.JoinOutcome` | src/scheduler/scheduler.c:118-135 | a JOIN that does not abort: if the record of the run says that the target has exited, it is answered at once with the status it exited with and the record is released; otherwise it waits |
| `Answers.DetachOutcome` | src/scheduler/scheduler.c:136-151 | a DETACH that does not abort releases the record of a fiber that has exited and marks any other |
| `Answers.ExitOutcome` | src/scheduler/scheduler.c:78-98 | an EXIT that does not abort: a detached record is released, a waiting join is answered with the status and the record released, and otherwise the record stays |
| `Answers.SpawnOutcome` | src/scheduler/scheduler.c:102-117 | a SPAWN is answered with the handle that was allocated, whose record is born there and then, or with null and no birth |
| `Answers.AwaitOutcome` | src/scheduler/scheduler.c:38-44 | an AWAIT that does not abort is held by `park` with its asker, and asks nothing else |
| `Answers.ParkOutcome` | src/scheduler/scheduler.c:44-60 | `park` writes the caller's submission under the request's address, after a flush exactly when the batch is full |
| `Delivery.EveryRequestServedOnce` | src/fiber/fiber.c:119-196 | in every run and at every address a request is asked, submitted, completed, answered and returned at most once each, in that order, and its phase can be read off the state |
| `Theorems.AwaitReturnsItsCompletion` | src/fiber/fiber.c:129-140 | an AWAIT that returns gives its own asker the `res` of the one completion posted for it since it was asked; in between, in this order, its submission was written, taken by the kernel and completed, and that completion was reaped |
| `Conservation.AwaitSubmitsItsSqe` | src/scheduler/scheduler.c:44-60 | between an AWAIT and its return the kernel took exactly one submission under that address: the caller's with only `user_data` changed |
| `Theorems.AnswerIsExitStatus` | src/scheduler/scheduler.c:87-96 | every status handed to a join was recorded by an earlier exit of that record |
| `Theorems.EndsOnce` | src/fiber/fiber.c:12-24 | a fiber exits at most once in any run |
| `Theorems.JoinReturnsExitStatus` | src/fiber/fiber.c:142-153 | a JOIN that returns gives its own asker the one status its target ever exited with, whether the join came before or after the exit; the target is the record last born at that address before the join was asked, and nobody else is born there before the answer |
| `Attribution.JoinsKeepTheirTargets` | src/scheduler/scheduler.c:118-135 | in every run nobody is born at an address while a join waits on it, and the join is answered for the record last born there |
| `Attribution.JoinAnswersItsTarget` | src/scheduler/scheduler.c:87-96 | from any state in which a join waits, for as long as it does, the answer comes from the record its target was in that state |
| `Attribution.AnsweredCallsReturn` | src/scheduler/scheduler.c:62-184 | in every run, once a request is answered, its asker's next resume is the return of that call, and at most one sweep begins before it |
| `Reclaim.EveryRecordReleasedOnce` | src/scheduler/scheduler.c:78-151 | in every run each record is born, exits, is taken by one join or detach and is released, in that order and at most once each; where it stands can be read off the state |
| `Theorems.ReleasedForGood` | src/fiber/fiber.c:77-89 | after its release a record is never resumed, marked, answered for or released again |
| `Reclaim.DrainConservesRecords` | src/scheduler/scheduler.c:186-192 | after a return by draining each record ever born was released, or exited undetached and is still there |
| `Conservation.EveryRecordAccounted` | src/scheduler/scheduler.c:78-151 | in every run, however it ends or goes on, a record is released exactly once if its fiber has exited and a join or a detach disposed of it, in either order, and not at all otherwise; it exists if and only if its birth is on record and its release is not |
| `Conservation.DrainedRunAccounts` | src/scheduler/scheduler.h:29-32 | after a return by draining every fiber whose birth is on record has exited; its record was released exactly once if a join or a detach disposed of it, and is still there otherwise |
| `Scenarios.MutualJoinTraps` | src/scheduler/scheduler.c:118-190 | two fibers that join each other: a run from boot that ends in the deadlock trap |
| `Scenarios.AwaitThenExitDrains` | src/scheduler/scheduler.c:62-193 | a fiber that awaits through an interrupted submit, is woken and exits: a run from boot that drains, returns 0 and leaves its exited record |
| `RingModel.BatchConserved` | src/ring/ring.c:101-131 | for every pattern of interrupts, errors and short counts, what the kernel took followed by what is left is the original batch, in order |
| `Conservation.SubmissionsConserved` | src/ring/ring.c:89-131 | in every state of every run the submissions ever written are those the kernel took followed by the batch, through every flush and failure |
| `Conservation.CompletionsInOrder` | src/ring/ring.c:133-146 | in every run the completions delivered are a prefix of those posted, and the rest is the completion queue |
| `Ring.PassesBounded` | src/ring/ring.c:103-130 | `batch_count` is the submit loop's measure: interrupts aside, a whole submit makes at most one successful pass for each submission, the one that ends it included, and at most one when there are none |
| `Ring.BacklogZero` | src/ring/ring.c:135-141 | with at most `cq_entries` outstanding, tail less head on 32-bit words is the true backlog, so equal words mean an empty queue and nothing else |
| `Ring.RingBuffer.SlotsApart` | src/ring/ring.c:143-143 | places within one queue length fall in distinct slots, at every position of the wrapping head word |
| `Ring.RingBuffer.constructor` | src/ring/ring.c:64-87 | a ring as set up is empty, with the head word anywhere |
| `Ring.RingBuffer.AppendSqe` | src/ring/ring.c:89-99 | the next slot, zeroed; nothing exactly when the batch is full |
| `Ring.RingBuffer.WriteSlot` | src/scheduler/scheduler.c:55-58 | filling the slot changes that entry of the batch only |
| `Ring.RingBuffer.KernelPost` | src/scheduler/scheduler.c:34-37 | with room in the queue a post adds one completion at the end and overwrites no unreaped one |
| `Ring.RingBuffer.Reap` | src/ring/ring.c:133-146 | the oldest completion, removed; nothing exactly when there is none, across any number of wraps |
| `Ring.RingBuffer.EnterReturned` | src/ring/ring.c:104-130 | one pass of the loop: the accepted prefix leaves, the rest is at slot zero, and the loop ends exactly on an error or a full count |
| `Ring.RingBuffer.Submit` | src/ring/ring.c:101-131 | the whole loop against any kernel history: every enter asks for the present batch and the caller's `min_complete`, the history is used exactly up to the enter that ends it, success leaves the batch empty, and taken plus left is the original batch |
| `Memory.MemMove` | src/string/memmove.c:5-18 | the destination becomes what the source was, whatever the overlap, and nothing else changes |
| `Scheduler.Reactor.constructor` | src/scheduler/scheduler.c:9-17 | the memory of a new reactor represents the machine at boot |
| `Scheduler.Reactor.Enqueue` | src/scheduler/scheduler.c:19-30 | the links from head to tail spell the old queue followed by the fiber; only links change |
| `Scheduler.Reactor.Dequeue` | src/scheduler/scheduler.c:65-71 | the old head comes off and the links spell the rest |
| `Scheduler.Reactor.Admit` | src/scheduler/scheduler.c:19-30 | enqueuing a new fiber before the run is the machine's `Admit` |
| `Scheduler.Reactor.SwitchIn` | src/fiber/fiber.c:91-100 | popping and resuming the head is the machine's dispatch, through live addresses only |
| `Scheduler.Reactor.SwitchOut` | src/fiber/fiber.c:119-176 | the request is on the asker's frame and stamped with the asker |
| `Scheduler.Reactor.OnYield` | src/scheduler/scheduler.c:75-77 | refines the machine's YIELD |
| `Scheduler.Reactor.OnExit` | src/scheduler/scheduler.c:78-98 | refines the machine's EXIT, with `exit_fiber` and the end of resume; the joiner's slot is read only while the record exists |
| `Scheduler.Reactor.OnAwait` | src/scheduler/scheduler.c:38-42 | refines the machine's AWAIT up to the append, with both traps |
| `Scheduler.Reactor.OnSpawn` | src/scheduler/scheduler.c:102-117 | refines the machine's SPAWN, failed or not |
| `Scheduler.Reactor.OnJoin` | src/scheduler/scheduler.c:118-135 | refines the machine's JOIN in all its branches |
| `Scheduler.Reactor.OnDetach` | src/scheduler/scheduler.c:136-151 | refines the machine's DETACH in all its branches |
| `Scheduler.Reactor.Append` | src/scheduler/scheduler.c:44-59 | refines one append attempt of `park`, and never fails the second time |
| `Scheduler.Reactor.Park` | src/scheduler/scheduler.c:32-60 | `park` with its mid-sweep flush follows the machine and returns to the sweep unless the flush fails |
| `Scheduler.Reactor.ReapOne` | src/scheduler/scheduler.c:168-183 | refines one turn of the reap loop, through live addresses only |
| `Scheduler.Reactor.ReapAll` | src/scheduler/scheduler.c:167-183 | the reap loop follows the machine while completions keep landing |
| `Scheduler.Reactor.SubmitBatch` | src/scheduler/scheduler.c:161-165 | the ring's submit loop, run inside the reactor, takes the machine to where that history takes it |
| `Scheduler.Reactor.Turn` | src/scheduler/scheduler.c:64-155 | one turn of the sweep follows the machine and uses up one turn |
| `Scheduler.Reactor.LoopTest` | src/scheduler/scheduler.c:63-64 | refines the machine's loop test and its verdict once drained |
| `Scheduler.Reactor.AfterSweep` | src/scheduler/scheduler.c:157-183 | skip, or submit and reap, as the machine does |
| `Scheduler.Reactor.Run` | src/scheduler/scheduler.c:62-193 | on every legal history of fibers and kernel the loop ends in the state the machine reaches on the same history, with its verdict |
| `Machine.RunAppend` | src/scheduler/scheduler.c:62-193 | one run followed by another from where it ended is a run |
| `EndToEnd.AdmitsLegal` | src/scheduler/scheduler.c:19-30 | any list of distinct spawned fibers can be admitted to a new reactor |
| `EndToEnd.OutcomeHolds` | src/scheduler/scheduler.c:152-193 | of every run from boot: the verdict is an exit with the status asked for by the last event, or 0 of a drained reactor without join cycles, or an abort for one of the causes above and never for a stale access or a full batch; a deadlock abort means blocked fibers, each on a join cycle; a drained return means every fiber exited; and records are released exactly as they were disposed of |
| `EndToEnd.Launch` | src/scheduler/scheduler.c:9-193 | become a scheduler, enqueue, run: the imperative loop's history is a run from boot, its memory is where that run ends, and its verdict has the outcome above |
| `Nesting.ResumeShows` | src/fiber/fiber.c:91-100 | a resume of a fiber off the chain adds it as innermost and keeps every outer level's way back |
| `Nesting.SuspendShows` | src/fiber/fiber.c:119-127 | a suspension finds the innermost fiber by the thread pointer, returns to its resumer and clears its `return_to` |
| `Nesting.NestedResumes` | src/fiber/fiber.c:91-117 | after every well-nested history nothing has faulted, the current fiber is the innermost resumed one, and `return_to` is set exactly along the chain |
| `Nesting.ResumeRestores` | src/fiber/fiber.c:96-101 | whatever ran in between, coming back to the same chain restores the caller's thread pointer |
| `Nesting.Core.Perform` | src/fiber/fiber.c:91-127 | any well-nested history carried out in memory goes through live pointers only and ends with exactly the pending resumes showing: the innermost fiber is current, `return_to` is set along the chain, and the thread pointer is back once nothing is pending |
| `Nesting.Replay` | src/fiber/fiber.c:91-127 | the same from a given memory to the memory it ends with |
| `MemCmp.SwapLoad` | src/string/memcmp.c:31-34 | byte-swapping a little-endian word gives the big-endian value of its bytes |
| `MemCmp.BigEndianOrder` | src/string/memcmp.c:27-34 | big-endian numeric order is lexicographic byte order, both ways |
| `MemCmp.NoDifferences` | src/string/memcmp.c:15-21 | the or-reduction of the lane-wise xor is zero if and only if the blocks are equal |
| `MemCmp.MemCmp` | src/string/memcmp.c:9-48 | for all lengths and contents: negative, positive or zero exactly as the first differing unsigned byte is smaller on the left, on the right, or absent (section 7.24.4.1 of C11) |
| `Bits.LowMask` | src/ring/ring.c:143-143 | masking with a power of two less one is the remainder |
| `Bits.HighMask` | src/arch/x86_64/thread_local_arch.h:37-43 | masking with the complement rounds down to a multiple |
| `Bits.PopCountOne` | src/thread_local/thread_local.c:78-81 | a population count of one means a power of two, and conversely |
| `ThreadLocal.CheckedRound` | src/arch/x86_64/thread_local_arch.h:29-37 | the checked sum fits exactly when the rounded value does, and masking it gives that value |
| `ThreadLocal.PlaceBelowSound` | src/arch/x86_64/thread_local_arch.h:26-55 | placement fails exactly when the span exceeds 64 bits; otherwise block and TCB are apart, inside, aligned and at the distance the ABI fixes |
| `ThreadLocal.PlaceAboveSound` | src/arch/aarch64/thread_local_arch.h:23-43 | the same for variant 1 |
| `ThreadLocal.PlaceSound` | src/thread_local/thread_local.c:107-110 | the same for whichever placement the architecture has |
| `ThreadLocal.ReadLayout` | src/thread_local/thread_local.c:51-96 | no PT_TLS gives the empty layout and two give none; exactly one is accepted if and only if its file size is at most its memory size, its end does not wrap and its alignment is 0 or a power of two, and then the block is as long as its memory size, the image is its file size at its address, and the alignment its own, or 1 for 0 |
| `ThreadLocal.BaseInMapping` | src/thread_local/thread_local.c:132-139 | the raised base lies within the slack of the mapping and suits both alignments |
| `ThreadLocal.FillBlock` | src/thread_local/thread_local.c:144-149 | the block holds the image, then zeros, and nothing else changes |
| `ThreadLocal.InitBlock` | src/thread_local/thread_local.c:144-151 | the block holds image and zeros and the TCB points to itself with no fiber; other bytes are untouched |
| `ThreadLocal.CreateBlock` | src/thread_local/thread_local.c:99-160 | fails exactly when a sum exceeds 64 bits or the mapping is refused; otherwise block and TCB are inside the mapping, apart, aligned, at the ABI distance, and initialised; the mapping is the span plus the slack of the coarser alignment; one obtained is handed out or unmapped, with its own length, never both |

## Left out

- `src/uc/scheduler` and `include/uc/fiber.h`: a design sketch that is not built.
- `__libuc_ring_create`: the set-up and mapping calls; their result is the initial state of the ring.
- The context switch, `_start`, the system-call stubs and the thread-register instructions are assembly; a switch is a transfer of control carrying a request.
- The memory order of the completion-queue atomics: a load of the tail and a store of the head are atomic steps.
- `__libuc_fiber_spawn`: mapping, `stack_length` check and block creation are folded into whether a SPAWN yields a record; block creation is modelled on its own in `ThreadLocal`.
- `__libuc_fiber_destroy`: whether both unmappings succeed is one answer of the environment; a failure is the trap it leads to.
- The EXIT request's own frame: it is read once before anything else happens, so it never enters the map of frames.
- Memory after a trap: the process is gone, and `Scheduler.Reactor` then represents the verdict only.
- The numeric value of a successful `__libuc_ring_submit`: the last pass's count, which no caller reads.
- What the kernel makes of `min_complete`: the ring passes it on, but only the progress theorem assumes that the kernel waits for it.
- Scheduler.Reactor.Run: fibers are admitted before the run, not by the caller during it; fibers spawned during the run come from SPAWN requests.
- Nesting.NestedResumes: leaves out an exit with a foreign block installed, where the source goes by the fiber's pointer and not by the thread pointer; and a resume that never comes back.
- `__libuc_thread_local_layout`: the auxiliary-vector lookup, the checks on the header table's address and size, and the cached result.
- `memcpy` and `memset` appear only as the loops of block creation.
- Stack overflow, signals, sanitizer handlers, the socket, unistd and threads wrappers, the linker script and the build: thin or outside the reactor.
