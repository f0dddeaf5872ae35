# A verified model of the asio_uring proactor

The project models four parts of the library that only work together, and proves what ties them
together.

- The run loop of `execution_context`. One thread runs `run`, `run_one`, `poll`, `poll_one` or
  `restart` and sleeps on an io_uring that holds at most one one-shot poll for each of three eventfds
  (queue, stop, zero) beside user operations. Any number of other threads are at any step of `post`,
  `on_work_started`, `on_work_finished`, `stop` and `initiate`. `Proactor` is the step relation,
  `ProactorInvariant` the inductive invariant, `ProactorTheorems` and `ProactorCalls` what follows for
  every run, `ProactorLiveness` that calls come to their end. `ExecutionContexts` has the source's methods
  with their fields and loops. They are given any sequence of steps of others and of failures, and are
  proved to come to exactly the state that the machine determines then (`ProactorPlay`), so the
  theorems hold of those loops.
- `eventfd_queue`. `EventfdQueues` is the queue as a class over heap nodes, with functions that throw
  and that post to the queue that is calling them. `SpinQueue` splits the four critical sections into
  single loads, stores and test-and-sets of fields by any number of threads, and `SpinQueueProof` shows
  that under the two spin locks each of them is one atomic operation on a sequence, and that the counts
  handed out through the eventfd never exceed what is linked. `CountedQueue` is what both this and the
  queue of the run-loop machine are proved to be.
- `service`. `ServicePool` is the pool of completions as a value, with its histories, and `Services` is
  the source's classes, proved against it. `ServiceInLoop` runs it together with the run-loop
  machine.
- The scatter/gather transfers. `Transfer` has the partial-read and partial-write loops and the loops
  over buffer sequences above them, against a kernel that answers whatever it likes.

## What the proofs say

**Wake-ups.** A runner that sleeps with no poll ready and no eventfd write under way has an empty queue,
work left and a clear stop flag (`NoLostWakeup`). Before that point each reason to wake up is carried by
exactly the call or poll that will deliver it (`WakeupCarried`), and finitely many steps of those calls
and of the kernel do deliver it (`WakeupInevitable`). A call that was told to stop, or has no work, comes
back within a bound on the steps of everyone that is computed from the state (`CallComesBack`), and where
nothing more can happen everything that was posted has been called (`PostedIsCalled`).

**Accounting.** `QueueIsCounted` and `WorkConserved` are equations over every reachable state, and
`SourceAssertions` and `RunnerNeverStuck` draw from them that the queue is never popped when it is empty,
that the eventfd reads never block, and that no counter goes below zero. `CleanExhaustion` says what is
true at the instant the last unit of work is taken.

**Results of calls.** `ReturnsHandlerCount` and `ReturnsForAReason` speak about the steps of the run of
one call: the result is the number of handlers that those steps started, and a call of `run` that returns
has a reason among them.

**Two places where code and documentation differ.**
`src/core/include/asio_uring/execution_context.hpp:158-162` says that it is safe to call `run` again
without `restart` when a handler's exception ended it. In the code a function called straight from the
queue's completion entry runs before the queue's poll is armed again, so after its exception the next call
returns 0 at once with functions still queued. `RerunAfterThrow` gives the exact condition, whatever other
threads do in between, and `RerunDoesNothing` a run in which it happens. `src/core/include/asio_uring/execution_context.hpp:174-177`
says that `run_one` returns when one handler has run or the work is exhausted. In the code the entry of the
stop or zero eventfd also ends the call. `OneRunsNothing` gives the exact condition and `RunOneLeavesWork` a
run in which work is left.

**Overlapping buffers.** A `read` into buffers that overlap cannot keep all it read; `OverlappingRead` is
such a read, of a stream that no memory could hold in the buffers, and `ReadAll` loses nothing otherwise.

## Model

| member | source | states |
|---|---|---|
| `ProactorTheorems.NoLostWakeup` | src/core/execution_context.cpp:246-325 | In every reachable state in which the runner sleeps in `io_uring_wait_cqe` with no entry, no poll ready and no call between its first atomic operation and its eventfd write: the queue is empty, `pending_` is 0, `work_` is positive and `stopped_` is false. |
| `ProactorTheorems.WakeupCarried` | src/core/execution_context.cpp:104-119 | While the runner sleeps all three polls are armed; the queue is non-empty if and only if a `post` has yet to write or the kernel can complete the queue's poll; a set stop flag and exhausted work are each carried by their own writer or poll. |
| `ProactorLiveness.WakeupInevitable` | src/core/execution_context.cpp:104-119 | From a sleeping runner with something to do, calls under way and the kernel take at most a bounded number of steps, and until an entry is there one of them can always take another. |
| `ProactorLiveness.CallComesBack` | src/core/include/asio_uring/execution_context.hpp:237-243 | A call of `run`, `run_one`, `poll` or `poll_one` whose stop flag is set, or without work, comes back, by a return or by any exception: when no new call is made, the runner, the kernel and the calls under way take a bounded number of steps, and until the runner is out one of them can take another. |
| `ProactorLiveness.PostedIsCalled` | src/core/execution_context.cpp:246-277 | From every reachable state the steps of the runner, with exceptions, of the kernel and of calls under way are bounded; where none but an exception is left, no call and no operation is outstanding and either the runner is out of the run loop or it sleeps in a blocking call and every linked function has been called; `poll` and `poll_one` are always out. |
| `ProactorLiveness.RunsAreBounded` | src/core/execution_context.cpp:246-446 | However threads, handlers and the kernel interleave, between two calls of the run loop there are no more steps than a bound computed from the state and the number of calls begun. |
| `ProactorLiveness.FlagIsHistory` | src/core/execution_context.cpp:189-193 | Over every run the stop flag is set exactly when, since the last `restart` cleared it, `stop` was called or a call of the run loop returned. |
| `ProactorLiveness.StopStays` | src/core/execution_context.cpp:189-193 | A `stop` sets the flag, and it stays set until a `restart` clears it. |
| `ProactorLiveness.StopEndsTheCall` | src/core/include/asio_uring/execution_context.hpp:237-243 | Once `stop` was called during a call of the run loop the call comes back: any further steps that begin no call are bounded, and until the runner is out another is possible. |
| `ProactorTheorems.RunnerNeverStuck` | src/core/execution_context.cpp:369-431 | Outside a call and apart from that sleep the runner's next step is always possible: it neither pops an empty queue nor blocks in an eventfd read. |
| `ProactorTheorems.SourceAssertions` | src/core/execution_context.cpp:433-446 | What the source asserts on the runner: decrements do not wrap, a drained queue counter was positive, a batch leaves `pending_` at 0, re-arming finds a clear flag, a completed operation still has its handler. |
| `ProactorTheorems.NoDecrementWraps` | src/core/execution_context.cpp:110-119 | Where a guard is given back, or a `post` or `initiate` undone, there is a unit of work to take. |
| `ProactorTheorems.OthersKeepRunner` | src/core/execution_context.cpp:104-119 | No run of other calls and of the kernel changes what belongs to the runner: its place, result, `pending_`, three flags and the functions called. |
| `ProactorTheorems.OnePollPerEventfd` | src/core/execution_context.cpp:337-367 | After any run, also when exceptions left calls early, a `*_started_` flag is set exactly when exactly one of an armed poll and an unhandled entry exists for that eventfd, and an entry finds its counter positive. |
| `ProactorTheorems.QueueIsCounted` | src/core/include/asio_uring/eventfd_queue.hpp:208-235 | The bookkeeping that `consume` demands of its caller: linked nodes equal `pending_` plus the eventfd counter plus nodes linked and not written plus a count just read. |
| `ProactorTheorems.WorkConserved` | src/core/execution_context.cpp:433-446 | `work_` is the number of functions queued, being posted or popped and not yet discounted, operations that hold a handler, and units counted from outside. |
| `ProactorTheorems.CompletionIdentity` | src/core/include/asio_uring/service.hpp:266-288 | An operation holds a handler exactly when it is in exactly one of: being initiated, in the ring, completed, in the runner's hand; a completion free for `initiate` is in none. |
| `ProactorTheorems.CleanExhaustion` | src/core/execution_context.cpp:435-444 | `service_queue` reports done if and only if its decrement took `work_` from 1 to 0, and then the item is the last of its batch, nothing is queued, counted or being posted, and no operation or guard holds work. |
| `ProactorTheorems.ExactlyOnceFifo` | src/core/include/asio_uring/eventfd_queue.hpp:153-174 | Functions called, then the one in hand, then the queue, are the functions linked in link order, at every state of a run; what was called stays called. |
| `ProactorTheorems.ConsumeRunsTheFirst` | src/core/include/asio_uring/eventfd_queue.hpp:238-244 | A `consume(n)` of the run loop that completes calls exactly the first n functions present at its start, in order, while any thread posts. |
| `ProactorTheorems.EntriesInOrder` | src/core/execution_context.cpp:299-325 | Over every run the entries handled followed by those still queued are those queued at its start followed by those that the kernel appended: entries are handled in the order of their arrival. |
| `ProactorInvariant.InvStep` | src/core/execution_context.cpp:246-446 | Each step of the runner, of another call or of the kernel keeps the invariant that couples polls, flags, counters, queue, work, operations, results and reasons. |
| `ProactorInvariant.InvReachable` | src/core/execution_context.cpp:131-156 | The invariant holds from the constructor's `restart` through every run. |
| `ProactorCalls.HistoryIsTrue` | src/core/execution_context.cpp:246-297 | The recorded observations of a call are facts of its run: handlers counted are steps that started one, stops, exhausted work, empty peeks and refusals occurred. |
| `ProactorCalls.ReturnsHandlerCount` | src/core/execution_context.cpp:246-277 | A normal return's value is the number of posted functions called plus completions delivered by the steps of that call, own entries not counted; at most one for `run_one` and `poll_one`. |
| `ProactorCalls.ReturnsForAReason` | src/core/execution_context.cpp:246-277 | `run` and `poll` return normally only if in that call a `stop()` set the flag, the work was 0, the entry check refused and nothing ran, or, for `poll` alone, no entry was there; a count left in `stop_` or `zero_` is no reason. |
| `ProactorCalls.OneRunsNothing` | src/core/execution_context.cpp:279-297 | A normal `run_one` or `poll_one` returns 0 if and only if its entry check refused, a peek found nothing, or the first entry it took was that of the stop or zero eventfd. |
| `ProactorCalls.RunOneLeavesWork` | src/core/execution_context.cpp:405-417 | A reachable `run_one` that returns 0 with a function queued, work 1 and no stop. |
| `ProactorCalls.RerunAfterThrow` | src/core/include/asio_uring/execution_context.hpp:153-171 | After a handler's exception, with any steps of other threads and the kernel before the next call and before its check, the call without `restart` passes its flag check if and only if the handler was not called from the queue's entry and the stop flag is clear at the check; otherwise it returns 0. |
| `ProactorCalls.RerunDoesNothing` | src/core/execution_context.cpp:418-427 | A run in which a handler throws, and the next `run` returns 0 with a function still queued and no stop. |
| `ProactorCalls.RestartRepairs` | src/core/execution_context.cpp:162-171 | A `restart` that completes leaves all three flags set and the stop flag clear, from any state a run or an exception can leave. |
| `ExecutionContexts.ExecutionContext.ServiceQueue` | src/core/execution_context.cpp:433-446 | The loop calls exactly the first `max` functions that were queued at its start, in order, or stops with the first that throws, while any thread posts; it returns whether it took the last unit of work. |
| `ExecutionContexts.ExecutionContext.RestartIf` | src/core/execution_context.cpp:358-367 | Arms a poll when the flag is clear, or throws; does nothing, and never throws, when it is set. |
| `ExecutionContexts.ExecutionContext.constructor` | src/core/execution_context.cpp:131-140 | The fields as initialised are the first state of the machine. |
| `ExecutionContexts.ExecutionContext.Create` | src/core/execution_context.cpp:131-156 | A constructed context is idle in the state that the machine determines from the first one, with all flags set and the stop flag clear, unless `restart` threw. |
| `ExecutionContexts.ExecutionContext.RestartContext` | src/core/execution_context.cpp:162-171 | Given what others do, the state is the one that the machine determines; it returns with flags set and stop clear, or its last step found no submission entry. |
| `ExecutionContexts.ExecutionContext.HandleCqe` | src/core/execution_context.cpp:369-431 | From the entry taken off the ring to the handler count and stop result of the machine, or left by an exception. |
| `ExecutionContexts.ExecutionContext.Impl` | src/core/execution_context.cpp:299-325 | Handles one entry; without one a peek reports stop and a wait stays asleep. |
| `ExecutionContexts.ExecutionContext.AllImpl` | src/core/execution_context.cpp:246-277 | For every sequence of steps of others and of failures, `run` and `poll` end in exactly the state that the machine determines for the call. On return the value is the number of handlers that this run started, the reason is one of the others' steps or what the runner observed, and `stopped_` is set; else the last step was the exception, or the call sleeps and nothing is to come. |
| `ExecutionContexts.ExecutionContext.OneImpl` | src/core/execution_context.cpp:279-297 | The same for `run_one` and `poll_one`, with at most one handler, and none exactly when the run passed by. |
| `ExecutionContexts.ExecutionContext.OnWorkFinished` | src/core/execution_context.cpp:110-119 | Exactly the decrement, and, when it took the last unit, exactly the write to `zero_`, whatever everyone else does in between. |
| `ExecutionContexts.ExecutionContext.StopContext` | src/core/execution_context.cpp:189-193 | Exactly setting the flag and the write, whatever everyone else does in between. |
| `ExecutionContexts.ExecutionContext.Post` | src/core/include/asio_uring/execution_context.hpp:107-118 | Exactly counting a unit, linking the function once, and the write, whatever everyone else does in between. |
| `ExecutionContexts.ExecutionContext.PostFails` | src/core/include/asio_uring/execution_context.hpp:107-118 | When the queue throws: exactly counting a unit and giving it back, with the write to `zero_` if that was the last. |
| `ProactorPlay.PlayRun` | src/core/execution_context.cpp:246-446 | The state that a call comes to under given steps of others is reached by a run in which the runner's part is its own steps, and every other step is one of the given ones. |
| `ProactorPlay.EndOfCall` | src/core/execution_context.cpp:246-297 | At its end a call's result is the number of handlers that its run started, with a reason that is not of its own making: others set the flag, or the runner met a refusing flag, zero work or an empty peek. |
| `EventfdQueues.ConsumingIsFifo` | src/core/include/asio_uring/eventfd_queue.hpp:208-244 | `consume(n)` calls exactly the n functions that were in front, or up to and including the first that throws; the rest stays in order, with what the functions posted behind it. |
| `EventfdQueues.EventfdQueue.GetNode` | src/core/include/asio_uring/eventfd_queue.hpp:311-334 | Takes the first free node, allocates only when there is none, and keeps allocations equal to the peak of nodes queued or in flight. |
| `EventfdQueues.EventfdQueue.ReleaseNode` | src/core/include/asio_uring/eventfd_queue.hpp:335-339 | Puts a node in flight at the front of the free list and leaves the queue's contents alone. |
| `EventfdQueues.EventfdQueue.Emplace` | src/core/include/asio_uring/eventfd_queue.hpp:153-174 | Appends the function; when allocating or constructing throws, the contents are unchanged and the node is not lost. |
| `EventfdQueues.EventfdQueue.Pending` | src/core/include/asio_uring/eventfd_queue.hpp:205-207 | Hands the whole counter over to the consumer and zeroes it. |
| `EventfdQueues.EventfdQueue.PopNode` | src/core/include/asio_uring/eventfd_queue.hpp:300-310 | With a count in hand the queue is not empty, and its first function is taken. |
| `EventfdQueues.EventfdQueue.ConsumeOne` | src/core/include/asio_uring/eventfd_queue.hpp:288-299 | Calls the first function while its node is in flight and holds it, so that the node counts beside those of what it posts; puts the node back whether or not it throws. |
| `EventfdQueues.EventfdQueue.Consume` | src/core/include/asio_uring/eventfd_queue.hpp:238-244 | Computes the specification function that `ConsumingIsFifo` is about, over linked nodes and re-entrant posts; as many nodes were in use at once as functions were queued or running. |
| `EventfdQueues.EventfdQueue.ConsumeAll` | src/core/include/asio_uring/eventfd_queue.hpp:262-268 | Consumes as many as the eventfd had counted and returns that number, which is everything queued less what an earlier count still covers. |
| `EventfdQueues.EventfdQueue.Teardown` | src/core/include/asio_uring/eventfd_queue.hpp:108-120 | Both destructor loops end, and free exactly the nodes ever allocated, each once. |
| `SpinQueueProof.MutualExclusion` | src/core/spin_lock.cpp:12-23 | No two threads are inside the section of the same lock. |
| `SpinQueueProof.LocksHaveHolders` | src/core/spin_lock.cpp:12-23 | In every reachable state each lock is set exactly while some thread is in its section. |
| `SpinQueueProof.SomeoneMoves` | src/core/spin_lock.cpp:12-23 | While some thread is inside a call, some thread can take a step that is not spinning. |
| `SpinQueueProof.MovesAreBounded` | src/core/spin_lock.cpp:12-23 | With no new call the steps that are not spinning are bounded, so every call comes to its end. |
| `SpinQueueProof.NoBadPointer` | src/core/include/asio_uring/eventfd_queue.hpp:300-339 | No field access of any thread follows a null or dangling pointer or pops an empty list, with pops guarded by the eventfd's counts alone, and the function that a thread takes from its node is the one that was popped. |
| `SpinQueueProof.CriticalSectionsAreAtomic` | src/core/include/asio_uring/eventfd_queue.hpp:162-172 | On the two lists as sequences, every single field access is either no change or exactly one append, pop, take or put, made by the thread whose section it is; `get_node` allocates only when the free list was empty at its test. |
| `SpinQueueProof.FifoOverRuns` | src/core/include/asio_uring/eventfd_queue.hpp:153-174 | Over a whole run, every field access a step of its own: the functions unlinked so far followed by those queued are the functions linked, in link order. |
| `SpinQueueProof.RunIsTrace` | src/core/include/asio_uring/eventfd_queue.hpp:300-310 | Every run of the threads is, step by step, a trace of a counted queue: link, write, read, pop or nothing. |
| `ProactorQueue.RunIsTrace` | src/core/execution_context.cpp:418-446 | Every run of the run-loop machine is a trace of the same counted queue, so its atomic link, write, read and pop are what the locked lists provide. |
| `CountedQueue.TraceIsFifo` | src/core/include/asio_uring/eventfd_queue.hpp:208-244 | Every trace of a counted queue is first in first out, and keeps as many functions queued as are counted, about to be, or owed to the consumer. |
| `SpinQueueProof.ListsAreReal` | src/core/include/asio_uring/eventfd_queue.hpp:349-354 | Following `next` from `head_` and from `free_` through memory gives exactly those sequences, which end. |
| `SpinQueueProof.NodesAreCounted` | src/core/include/asio_uring/eventfd_queue.hpp:208-235 | With threads anywhere inside `emplace`, `pending` and `pop_node`, linked nodes equal the eventfd's counter, plus counts read and not used, plus threads between linking and writing, plus pops under way; so `pop_node` always finds a node. |
| `SpinQueueProof.NodesAccounted` | src/core/include/asio_uring/eventfd_queue.hpp:311-339 | Each allocated node is in the queue, free, or in the hands of a thread, and in only one of them. |
| `ServicePool.FailedInitiateIsNeutral` | src/core/service.cpp:38-46 | An `initiate` that throws at storing the handler or for want of an entry restores work, in-use and handle lists, and leaves the completion on the free list. |
| `ServicePool.ShutdownOnce` | src/core/service.cpp:74-78 | `shutdown` gives back each held unit once; again, or releasing later, gives back nothing. |
| `ServicePool.CompletionIdentity` | src/core/service.cpp:17-23 | After any history a completion is in use exactly when its operation is outstanding or its handler is running, not both, and none that `initiate` may take is either. |
| `ServicePool.DeliveredHasHandler` | src/core/service.cpp:17-23 | Without a shutdown every outstanding operation still has its handler. |
| `ServicePool.PoolAfterHistory` | src/core/service.cpp:109-146 | After any history the service's work is one unit per stored handler, free and in-use lists are apart and together are exactly the completions ever allocated, handles list only completions in use, and as many were allocated as were ever in use at once. |
| `ServicePool.HandleMembers` | src/core/service.cpp:52-60 | Iterating a handle yields exactly the operations initiated on it, or moved to it, that have not completed and whose handle was not destroyed or assigned to. |
| `ServicePool.HandleOrder` | src/core/service.cpp:118-125 | A handle yields its operations newest first through all releases and moves. |
| `ServicePool.InUseOrder` | src/core/service.cpp:118-125 | The completions in use are listed newest first after any history. |
| `ServicePool.LastReleasedFirstUsed` | src/core/service.cpp:109-146 | The completion released last is the one acquired next. |
| `ServicePool.WithoutMiddle` | src/core/service.cpp:139-146 | Unlinking one from the middle keeps the order of the others. |
| `Services.Service.ViewInv` | src/core/include/asio_uring/service.hpp:62-74 | Consistent hooks and lists of the objects imply the pool's invariant. |
| `Services.Service.Acquire` | src/core/service.cpp:118-125 | The objects change as the pool's acquire: first free completion, or a new one only when there is none, first in use, first of the handle; every completion stays in one of the two lists. |
| `Services.Service.Reset` | src/core/service.cpp:25-30 | Gives the unit back only when a handler was stored. |
| `Services.Service.Release` | src/core/service.cpp:139-146 | The objects change as the pool's release, also when the handle was destroyed or moved meanwhile. |
| `Services.Service.Initiate` | src/core/include/asio_uring/service.hpp:266-288 | The objects change as the pool's initiate, on success and on both failures. |
| `Services.Service.Complete` | src/core/service.cpp:17-23 | Whatever list of calls the handler turns out to make, constructing, moving and destroying handles and initiating on them: it runs with its completion still in use, and the completion is released whether or not it throws. |
| `Services.Service.Destroy` | src/core/service.cpp:88-90 | Empties the handle, and leaves its operations in use. |
| `Services.Service.MoveConstruct` | src/core/service.cpp:92-97 | The list, and every hook in it, passes to the handle, new or empty. |
| `Services.Service.MoveAssign` | src/core/service.cpp:99-107 | Drops the target's operations, then moves; a self-move drops all. |
| `Services.Service.Shutdown` | src/core/service.cpp:74-78 | The loop changes the objects as the pool's shutdown. |
| `Services.Service.DestroyFree` | src/core/service.cpp:174-180 | The loop ends, empties the free list, and deletes each of its completions once, in order. |
| `Services.Service.DestroyInUse` | src/core/service.cpp:174-180 | The same for the completions in use, whose hooks leave the lists of their handles, which end empty. |
| `Services.Service.Teardown` | src/core/service.cpp:66-72 | Gives back each held unit once, deletes every completion ever allocated exactly once, and leaves both lists and every handle empty. |
| `ServiceInLoop.JointRunsAgree` | src/core/include/asio_uring/service.hpp:266-288 | In every interleaving of the machine's steps with the service's events, from construction on and with any steps of others between the two halves of an `initiate`: the machine's part is a run of the machine, the service's part a history of the pool, and the two agree on handlers held, operations outstanding and the handler running. |
| `ServiceInLoop.FreeMeansUnknownToTheLoop` | src/core/service.cpp:109-125 | In every joint run a completion in use is in exactly one place of the kernel and the run loop, and one that is not in use in none, but for the one that an `initiate` under way has acquired. |
| `ServiceInLoop.NothingIsBlocked` | src/core/service.cpp:17-23 | The joint runs leave nothing out: what the pool may acquire the machine may initiate, an `initiate` can end either way, and where the runner delivers an entry or releases a completion the pool's event can happen. |
| `Transfer.Read` | src/core/read.cpp:12-47 | The first `retr` bytes of the buffer are the first `retr` of the descriptor's stream, in order, and exactly those are gone from it; the rest of memory is untouched; short exactly when one answer stopped it, with the code of that answer, would-block and end of file being no error. |
| `Transfer.ReadAll` | src/asio/include/asio_uring/asio/read.hpp:59-83 | The first `retr` bytes of the concatenated buffers, none overlapping, are the first `retr` of the stream, and exactly those are gone from it; nothing outside the buffers changes; short exactly when one answer stopped it; complete, or to the end of the stream, when the kernel keeps giving. |
| `Transfer.OverlappingRead` | src/asio/include/asio_uring/asio/read.hpp:59-83 | For any buffers that overlap, a read that takes the whole of a stream and reports success, with a stream that no contents of memory hold in those buffers; so the previous row's condition cannot be weakened. |
| `Transfer.Write` | src/core/write.cpp:12-44 | The bytes that the kernel took are the first `retr` of the buffer, in order; short exactly when one error or would-block stopped it. |
| `Transfer.WriteAll` | src/asio/include/asio_uring/asio/write.hpp:60-84 | The bytes taken are the first `retr` of the concatenated buffers, overlapping or not; short exactly when one error or would-block stopped it. |

## Left out

What the model assumes:

- Memory orders: every atomic operation is one sequentially consistent step.
- An eventfd write that fails after the node is linked, an `io_uring_submit` that fails, and 64-bit overflow of counters.
- The release build: the `assert(!stopped())` lines, which a `stop()` during a run makes false, are not statements of the model. The other assertions of the run loop are proved.
- Completion queue capacity: an entry is off the queue when its handling begins, not when it ends.
- A submission entry can be missing at any time, a wait can fail and a handler can throw at any time.
- Handlers that call `run` or `restart`. Their other calls take the same steps as those of another thread.
- In Proactor `initiate` may interleave with the runner at every step; in ServiceInLoop the calls that change a service's lists exclude each other, because a service is not thread safe.
- Completion objects of users that do not come from a service count as units from outside.
- `dispatch` on the runner's own thread calls its function inside the running handler and takes no step; elsewhere it is `post`.
- `shutdown` and the destructors are in the service and queue modules and not in the run-loop machine; `complete` after `shutdown` requires a handler and is not modelled.

What single members do not say:

- ExecutionContexts.ExecutionContext.AllImpl: what others do during the call is a finite sequence, any one, because the source's loop need not end while threads keep posting; a blocking call that finds no entry when nothing more is to come is left asleep, which is the state `NoLostWakeup` is about.
- ExecutionContexts.ExecutionContext.Post: what everyone else does between the steps of a call, here and in `PostFails`, `OnWorkFinished` and `StopContext`, is given by the states that it leaves, each reached by a run of the machine that keeps the call's place.
- EventfdQueues.EventfdQueue.Call: posts made by a running function can fail at constructing the function but not at allocating the node.
- EventfdQueues.EventfdQueue.GetNode: the bound on allocations counts allocations that succeeded.
- EventfdQueues.EventfdQueue.Teardown: no function is running and no thread is inside the queue.
- Services.Service.Acquire: the intrusive list is a sequence field, and the hook is the handle that the completion is linked into; the hook's neighbours are not modelled.
- Transfer.Write: a write of a non-empty range that does not fail moves at least one byte, without which the source's loop need not end.
- Transfer.ReadAll: what came through equals the buffers' bytes only if no two buffers overlap; see `OverlappingRead`.

What is not modelled at all:

- The `iovec` cache of the service: its cached vectors play no part in ownership or work.
- `callable_storage`, the `fd` wrapper, `accept`, `connect`, and translation of error codes.
- The Boost.Asio layer above the transfer loops: asynchronous results, associated allocators and executors, file and stream objects.
