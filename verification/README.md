# Verified models of the task queue, the worker pool, the lobby and the retry loop

This project models the protocols of a Go library for asynchronous tasks and proves what they
promise. It covers four parts.

**The task queue.** Ready items sit in a binary heap; a claim leases one out under a fresh token;
Ack and Nack settle the lease; a reaper routes expired leases through the same retry policy as
Nack; a task out of attempts moves to a dead-letter map, and Redrive moves it back.
`LeaseModel` says what the backend does to a bag of ready items and a table of leases.
`TaskHeap` and `MemoryBackend` are the heap and the backend as they are written, index fields and
in-place swaps included, proved to do exactly what `LeaseModel` says. `DeadLetter`, `QueuePolicy`
and `TaskQueue` are the dead-letter map, the policy and the queue's own methods on top.
`LeaseProtocol` lets any number of producers, consumers, sweeps and operators interleave: each
mutex-guarded call is one atomic step, and a `route` or `Redrive` between two such calls is a
pending job that may be overtaken by anyone or abandoned when its context ends. Claim handles may
outlive their lease. `LeaseInvariants` and `LeaseTheorems` hold the invariants and the theorems
about every reachable state; `AtomicRedrive` is the no-loss theorem for runs in which Redrive is one
step, and `RacedRedrive` shows where the promise stops when it is not. `Refinement` shows that
Enqueue, a successful Dequeue, Ack, Redrive on a live context, and Nack, route and a whole sweep
under any context are, when nobody interferes, runs of the protocol. `Consumers` treats whole runs
of a sole consumer on the abstract store, and `ConsumerLoops` the loops that make such runs on the
real backend and queue.

**The worker pool.** `PoolDispatch` is the rendezvous between submitters, the dispatcher and the
workers' run loops, with joins, leaves and both kinds of shutdown at any moment. `AutoScale` is the
scaling policy and what it guarantees over whole runs of ticks. `WorkerPool` is the claims table
and the pool's membership code.

**The lobby.** `Lobby` is the close protocol over the read-write lock, the flags, the once and the
intake channel, together with the yielder that takes over what is left in the channel.

**Retry.** `Float64` is what the backoff needs of double arithmetic: rounding to 53 significant bits,
nearest with ties to even, and overflow. `Retry` is the backoff formulas on top of it, the exact
conditions under which they are the documented ones, and the retry loop. `Arithmetic` is shared by
it and the scaling policy.

Time, contexts, random draws and tokens are arguments or free choices: a clock reading is any
integer, a context may be found done at any step, a select takes any ready branch, jitter is any
value in its range, and a token or incarnation number is the next unused one.

## Where code and documentation differ

The model follows the code in each case.

- `ExponentialBackoff.Delay` is documented as baseDelay * 2^attempt, capped at maxDelay. It answers 0 for
  a base that is not positive and else computes in doubles, so this holds exactly under the condition of
  `ExponentialExactly`, and for negative attempts under that of `NegativeExactly`. It holds at every
  attempt for a positive base that is a double under a cap that is one or is not positive
  (`ExponentialDoubles`), which covers delays of at most 53 bits (`ExponentialExact`); it fails one above,
  and for a negative base (`ExponentialRounds`).
- `Linear.Delay` is documented as baseDelay * (attempt + 1), capped at maxDelay. The product wraps in
  int64, so this holds exactly under the condition of `LinearExactly`; `LinearWraps` is a failing case.
- `runScaler` says a failed batch does not advance the cooldown. It advances exactly when at least one
  join of the batch succeeded (`StampMovesExactly`); `PartialBatchStamps` is a failed batch that does
  (pkg/workerpool/scaler.go:160-174).
- `CloseContext` is documented to return ErrLobbyClosed on a closed lobby. It does so exactly when the
  flag was set at the moment the call read it (`ClosedReplyExactly`); of two overlapping calls the
  second can return nil (`SecondCloserGetsNil`, pkg/taskqueue/lobby.go:205-237).
- `HandoffTasks` is documented to return a nil yielder on a closed lobby only when building it failed. It
  does so exactly when building failed or the close has not got past building (`HandoffNilExactly`);
  `HandoffNilWhileClosing` is such a state (pkg/taskqueue/lobby.go:189-198).
- A worker whose claim the dispatcher pulled and gave up on stays subscribed and parked but can never be
  given a job again (pkg/workerpool/claims.go:176-197, pkg/workerpool/worker.go:217-222).
  `StarvesExactly` says which steps do this, `StarvationHappens` reaches such a state and
  `StarvedForever` proves it permanent.
- Redrive splits its Enqueue and its Remove, and a new dead-lettering in between can lose the task
  (`RacedRedriveLosesTask`); `RemoveIsSafeExactly` says when a Remove is safe.

## Model

| member | source | states |
|---|---|---|
| LeaseTheorems.NoTaskIsLost | pkg/taskqueue/queue.go:144-168 | over every interleaving with distinct task IDs and no raced Remove, an enqueued task was acked, is ready, is under a lease that no route is about to drop, or is in the dead-letter store |
| AtomicRedrive.NoTaskIsLostAtomically | pkg/taskqueue/queue.go:144-168 | over every run in which each Redrive's Enqueue is followed at once by its Remove, done or abandoned, and IDs identify tasks, an enqueued task was acked, is ready, is safely leased, or is in the dead-letter store |
| AtomicRedrive.AtomicRunsNeverRace | pkg/taskqueue/queue.go:334-338 | no run whose Redrives are one step ever removes an entry newer than the one redriven |
| RacedRedrive.RacedRedriveLosesTask | pkg/taskqueue/queue.go:334-338 | a concrete run in which the Enqueue and Remove of a Redrive are split by a new dead-lettering and the task ends up nowhere |
| RacedRedrive.RemoveIsSafeExactly | pkg/taskqueue/queue.go:334-338 | a Remove keeps every task if and only if it finds no entry or some copy of the task is acked, ready or safely leased; a Remove that is not raced always has such a copy |
| LeaseTheorems.DeliveryBound | pkg/taskqueue/queue.go:158-168 | ready items are below the attempt ceiling, leased ones between 1 and it, attempt counts are true delivery counts, and no incarnation is delivered more than max times |
| LeaseTheorems.LeaseStaysUntilDue | pkg/taskqueue/memory_backend.go:171-189 | after a claim, whatever everybody else does, its lease stays in the table unchanged until its own consumer settles it or a sweep finds its deadline over |
| LeaseTheorems.NoneIsOvertaken | pkg/taskqueue/memory_backend.go:119-139 | at every delivery of every run no ready task has a higher priority than the one delivered, nor an equal one and a lower sequence number (in FIFO mode none has a lower sequence number) |
| LeaseTheorems.SingleSettlement | pkg/taskqueue/memory_backend.go:141-169 | per token at most one Ack or Nack ever succeeds, one did exactly when the token was issued and left the table, and a late call changes nothing |
| LeaseTheorems.Conservation | pkg/taskqueue/memory_backend.go:106-169 | the incarnations ever enqueued are the ready, leased, acked and dropped ones as bags, each once |
| LeaseTheorems.BudgetStep | pkg/taskqueue/memory_backend.go:119-169 | the deliveries left drop by exactly one per claim, rise by max per Enqueue or Redrive, and never rise otherwise |
| LeaseTheorems.DeliveriesArePaidFor | pkg/taskqueue/memory_backend.go:119-169 | over any run, deliveries plus the non-negative rest are at most the initial budget plus max per Enqueue and Redrive |
| LeaseTheorems.InvKept | pkg/taskqueue/queue.go:130-168 | the joint invariant over heap, leases, dead letters, handles and half-done calls is kept by every step |
| Refinement.RouteIsARun | pkg/taskqueue/queue.go:158-168 | an undisturbed route is one or two protocol steps with the same effect, also when its context ends before or between its calls |
| Refinement.NackIsARun | pkg/taskqueue/queue.go:224-230 | an undisturbed Claim.Nack is a protocol run with the effect of route under any context, and uses up the handle |
| Refinement.SweepIsARun | pkg/taskqueue/queue.go:144-153 | an undisturbed sweep is a protocol run that reaps every expired lease and routes each under whatever context it meets; on a live context it has the exact effect Routed |
| Refinement.AckIsARun | pkg/taskqueue/queue.go:215-221 | an undisturbed Claim.Ack is a protocol run that drops the lease and uses up the handle; its token is settled in the history exactly when the context is live and the token is in the table |
| Refinement.NackCounts | pkg/taskqueue/queue.go:224-230 | the run of Claim.Nack settles its token in the history exactly when no ended context stops it and the token is in the table, at the attempt ceiling as below it |
| Refinement.AckSettles | pkg/taskqueue/queue.go:215-221 | Claim.Ack beside the protocol: it returns nil exactly when the settled count of its token rises by one, and on a live context ErrLeaseNotFound exactly when the token is not in the table |
| Refinement.NackSettles | pkg/taskqueue/queue.go:224-230 | the same for Claim.Nack, below the ceiling and at it |
| Refinement.EnqueueIsARun | pkg/taskqueue/queue.go:186-201 | Enqueue is a protocol step |
| Refinement.DequeueIsARun | pkg/taskqueue/queue.go:235-268 | a successful Dequeue is a protocol step that leaves the claim's handle |
| Refinement.RedriveIsARun | pkg/taskqueue/queue.go:311-339 | an undisturbed Redrive is a protocol run that moves the task from the dead-letter store to ready and is not raced |
| Tasks.BeforeIsStrictWeakOrder | pkg/taskqueue/memory_backend.go:30-36 | the heap's comparison is a strict weak order in both modes, and puts the higher priority first in priority mode, then or in FIFO mode the lower sequence number |
| TaskHeaps.RootIsLeast | pkg/taskqueue/memory_backend.go:30-36 | in heap order nothing precedes the root |
| TaskHeaps.TaskHeap.Swap | pkg/taskqueue/memory_backend.go:38-42 | swaps two items and their index fields, and nothing else |
| TaskHeaps.TaskHeap.Push | pkg/taskqueue/memory_backend.go:44-48 | pushing keeps heap order and index fields and adds exactly the item |
| TaskHeaps.TaskHeap.Pop | pkg/taskqueue/memory_backend.go:50-58 | popping returns an item that none precedes, removes exactly it, and keeps heap order and index fields |
| MemoryBackends.MemoryBackend.constructor | pkg/taskqueue/memory_backend.go:99-104 | a new backend of the given mode, with nothing ready and nothing leased |
| MemoryBackends.MemoryBackend.Enqueue | pkg/taskqueue/memory_backend.go:106-117 | the error cases, and on success one new incarnation in the ready bag |
| MemoryBackends.MemoryBackend.Claim | pkg/taskqueue/memory_backend.go:119-139 | the error cases; on success no ready task has a higher priority than the one taken, nor an equal one and a lower sequence number (in FIFO mode none has a lower sequence number), and exactly it moves from ready to the table, under a fresh token, with its attempt counted and the deadline now + visibility |
| MemoryBackends.MemoryBackend.Ack | pkg/taskqueue/memory_backend.go:141-152 | on a live context nil exactly when the token is in the table, which then loses just that lease, and ErrLeaseNotFound exactly when it is not, changing nothing |
| MemoryBackends.MemoryBackend.Nack | pkg/taskqueue/memory_backend.go:154-169 | the same, and with requeue the item goes back to ready with its attempt kept |
| MemoryBackends.MemoryBackend.ReapExpired | pkg/taskqueue/memory_backend.go:171-189 | the tokens returned are exactly those in the table with a deadline at or before now, each once, with the task, attempt and deadline the table has for it |
| DeadLetters.MemoryDeadLetter.Add | pkg/taskqueue/deadletter.go:38-53 | stores or replaces the entry under the task's ID, with the reason, the time and zero attempts, or reports the error |
| DeadLetters.MemoryDeadLetter.List | pkg/taskqueue/deadletter.go:55-69 | lists stored entries, each once, all of them without a limit and exactly the smaller of limit and count with one |
| DeadLetters.MemoryDeadLetter.Remove | pkg/taskqueue/deadletter.go:71-79 | removes exactly the entry of that ID |
| TaskQueues.NewQueue | pkg/taskqueue/queue.go:82-128 | the context errors, and else a new open empty queue whose settings are positive and the given ones where those are |
| TaskQueues.Queue.constructor | pkg/taskqueue/queue.go:101-117 | the defaults for unusable settings |
| TaskQueues.Queue.Enqueue | pkg/taskqueue/queue.go:186-201 | the error cases in their order, and on success one new incarnation |
| TaskQueues.Queue.Route | pkg/taskqueue/queue.go:158-168 | below the ceiling the lease is requeued, at it the task is dead-lettered and then the lease dropped, also when the lease is already gone, and the status says whether it was; a context that ends before or between the calls cuts it short there |
| TaskQueues.Queue.Sweep | pkg/taskqueue/queue.go:144-153 | a snapshot of exactly the expired leases, then one route each under whatever context it meets; on a live context no lease with a deadline at or before now is left, every later one is untouched, and what was below the ceiling is ready again |
| QueuePolicy.SweepRouted | pkg/taskqueue/queue.go:144-168 | on a live context exactly the leases with a later deadline remain, unchanged; those due and below the ceiling are ready again with their attempt kept, the tasks of the others are in the dead-letter store, all else is unchanged |
| QueuePolicy.RoutedMore | pkg/taskqueue/queue.go:149-152 | one more route of a sweep extends the exact effect by its lease |
| QueuePolicy.RoutedDeadByFields | pkg/taskqueue/queue.go:158-168 | after a sweep on a live context the dead-letter store has gained exactly the IDs of the tasks that were due and at the ceiling, each entry with the reason and time of the sweep |
| TaskQueues.Queue.Redrive | pkg/taskqueue/queue.go:311-339 | the error cases in their order, also when the context ends before the listing or around the two moving calls; on success the task is ready as a new incarnation and out of the dead-letter store |
| TaskQueues.Queue.Dequeue | pkg/taskqueue/queue.go:235-268 | which outcome occurs at which poll while tasks arrive, with no earlier poll finding a done context or anything ready, and that a claim leases out a least ready item of that moment and returns an unsettled handle for it |
| TaskQueues.PollLoop | pkg/taskqueue/queue.go:241-267 | with tasks arriving between polls, the first poll that finds a live context and something ready claims; earlier polls change nothing |
| QueuePolicy.AtPollHolds | pkg/taskqueue/queue.go:241-267 | what a poll finds is what was ready at the start and every task enqueued since, as new items; leases and mode are as before |
| TaskQueues.Claim.Ack | pkg/taskqueue/queue.go:215-221 | the first settlement of a handle reaches the backend, and on a live context returns nil exactly when the token is in the table; a later one reports it and changes nothing |
| TaskQueues.Claim.Nack | pkg/taskqueue/queue.go:224-230 | the first settlement of a handle reaches route, whose effect it has, and on a live context returns nil exactly when the token is in the table, at the ceiling as below it; a later one reports it and changes nothing |
| Consumers.LeastExists | pkg/taskqueue/memory_backend.go:119-139 | a non-empty ready bag has an item that none precedes |
| Consumers.DrainSorts | pkg/taskqueue/memory_backend.go:119-139 | claims alone until nothing is ready deliver a permutation of the ready items in which priorities never rise and within one priority sequence numbers never fall (in FIFO mode sequence numbers never fall) |
| Consumers.FailingConsumer | pkg/taskqueue/queue.go:158-168 | with distinct IDs and strictly ordered keys, Dequeue then Nack until empty delivers each task as often as it has attempts left, in a row, tasks in mode order, and leaves ready and leases empty and exactly those tasks added to the dead-letter store |
| Consumers.BlocksInOrder | pkg/taskqueue/memory_backend.go:30-36 | repeating each task in place keeps the order of the mode, so the deliveries of a failing consumer are in that order too |
| Consumers.FailingRunExists | pkg/taskqueue/queue.go:224-268 | such a run exists from every store without leases whose items are below the ceiling, and has exactly as many rounds as there are deliveries left |
| ConsumerLoops.Drain | pkg/taskqueue/memory_backend.go:119-139 | calling Claim until nothing is ready terminates, and returns the tasks of exactly the items that were ready, each once; priorities never rise along the result and within one priority sequence numbers never fall (in FIFO mode sequence numbers never fall) |
| ConsumerLoops.FailOnce | pkg/taskqueue/queue.go:224-268 | Dequeue then Nack: nothing changes if nothing is ready, and else a least ready item is claimed and routed |
| ConsumerLoops.FailAll | pkg/taskqueue/queue.go:158-268 | calling Dequeue then Nack until nothing is ready terminates; with distinct IDs and strictly ordered keys it returns each task as often as it has attempts left, in a row, with priorities never rising and sequence numbers never falling within one, and leaves ready and leases empty and exactly those tasks added to the dead-letter store |
| PoolDispatch.ExactlyOnePlace | pkg/workerpool/pool.go:488-504 | the accepted jobs are those handed over or reported, then the one in hand, then the backlog, in order; distinct jobs are in one place only |
| PoolDispatch.NoJobReceivedTwice | pkg/workerpool/claims.go:153-201 | what run loops received is what they were handed: no job reaches two of them or is also reported |
| PoolDispatch.HandedOnlyIfSubscribed | pkg/workerpool/claims.go:176-197 | over every run, a job is handed over only after an alive check of the very claim it is handed over by, at a moment when its worker was subscribed and with no claim pulled since |
| PoolDispatch.ClaimsInOrder | pkg/workerpool/claims.go:170-176 | over every run, claims are pulled in the order in which they were posted |
| PoolDispatch.OneClaimWhileAdvertising | pkg/workerpool/worker.go:203-234 | a live run loop has at most one claim outstanding and only while it advertises; it lacks one exactly when the dispatcher discarded it; a worker has one live run loop |
| PoolDispatch.GracefulDrain | pkg/workerpool/pool.go:398-425 | if the context was live when the dispatcher returned, then ever after every job accepted before shutdown closed has been handed over or reported, in order |
| PoolDispatch.ShutdownDrains | pkg/workerpool/pool.go:398-425 | over every run, when the dispatcher returns on a live context after shutdown was closed, the outcomes begin with all jobs accepted by the time of the close, in order |
| PoolDispatch.ReturnedLive | pkg/workerpool/pool.go:488-504 | while the context is live, a dispatcher that returned did so on a live context |
| PoolDispatch.RejectStops | pkg/workerpool/pool.go:446-467 | once the pool rejects, in any continuation only submissions already past that check can be accepted, each at most once |
| PoolDispatch.StaysUntilAsked | pkg/workerpool/worker.go:203-234 | while the pool context is live, a worker that was not made to leave is still in its run loop |
| PoolDispatch.StoppedAfterUnsubscribed | pkg/workerpool/worker.go:246-258 | over every run, a run loop is told to stop only after a step that unsubscribed its worker, and at a moment when the worker is not subscribed |
| PoolDispatch.DoneStopsJoins | pkg/workerpool/worker.go:149-185 | once the pool context is done nobody joins or subscribes in any continuation |
| PoolDispatch.StarvesExactly | pkg/workerpool/claims.go:176-197 | a step takes a live worker's claim away for good exactly when it is the dispatcher giving up on that worker's pulled claim, by a send that timed out if the worker is still subscribed |
| PoolDispatch.StarvedForever | pkg/workerpool/claims.go:176-197 | a live worker without a claim never receives another job in any continuation |
| PoolDispatch.StarvationHappens | pkg/workerpool/claims.go:191-197 | a reachable state with a subscribed, parked worker and no claim anywhere |
| PoolDispatch.InvKept | pkg/workerpool/pool.go:488-504 | the joint invariant over backlog, hand, claims, run loops and shutdown is kept by every step |
| AutoScale.DefaultsMakeUsable | pkg/workerpool/pool.go:158-190 | after the defaults a configuration is usable exactly when it validates; usable settings are left alone and each unusable one becomes its documented default; defaults are idempotent |
| AutoScale.DecisionInBounds | pkg/workerpool/scaler.go:31-73 | the decision is up exactly when something is queued, no more are idle than the headroom, the pool is below its ceiling and the cooldown is over, and then by a whole step or all the room there is; down exactly when nothing is queued, more are idle than the headroom, it is above its floor and the cooldown is over; they exclude each other |
| AutoScale.PickVictim | pkg/workerpool/scaler.go:86-101 | finds the longest-idle eligible candidate, the first among equals, or that there is none |
| AutoScale.BoundsAfter | pkg/workerpool/scaler.go:138-187 | the size stays between MinSize and MaxSize over every run of ticks |
| AutoScale.TickBySizes | pkg/workerpool/scaler.go:150-185 | a tick with an empty backlog, more idle workers than the headroom, a full pool or a running cooldown never adds a worker, and dually for removal; the size changes by the joins that succeeded or by one, and the stamps move exactly with it |
| AutoScale.DownCooldownBound | pkg/workerpool/scaler.go:175-183 | k scale-downs inside a window W satisfy (k-1) times the cooldown at most W |
| AutoScale.UpCooldownBound | pkg/workerpool/scaler.go:160-174 | with a cooldown, the workers added inside a window W are at most step times (W div cooldown + 1) |
| AutoScale.StampMovesExactly | pkg/workerpool/scaler.go:160-174 | the scale-up stamp moves exactly when at least one join of the batch succeeded |
| AutoScale.PartialBatchStamps | pkg/workerpool/scaler.go:160-174 | a concrete batch that fails half way and still holds back the next one |
| AutoScale.Settles | pkg/workerpool/scaler.go:56-62 | under calm load the pool shrinks by one per tick and is at MinSize after exactly joined - MinSize ticks, for good |
| AutoScale.Grows | pkg/workerpool/scaler.go:42-71 | under sustained pressure with every join succeeding, the size after n ticks is the smaller of MaxSize and joined + n * step |
| WorkerPools.NewClaims | pkg/workerpool/claims.go:98-110 | the nil config error, and else an empty claims table of the configured or default size |
| WorkerPools.Claims.Subscribe | pkg/workerpool/claims.go:116-131 | adds the worker, or reports a full pool and changes nothing |
| WorkerPools.Claims.Unsubscribe | pkg/workerpool/claims.go:135-151 | removes exactly this worker |
| WorkerPools.Claims.Submit | pkg/workerpool/claims.go:153-201 | undisturbed, the job goes to the first claim whose worker is subscribed and whose input is being read, before its context or the deadline ends the wait; every claim tried before it, or all of them on failure, had a worker not subscribed or an input not being read; claims pulled are gone, one pulled at the deadline untried; the error says what ended the wait and whether anyone is subscribed |
| WorkerPools.Worker.Join | pkg/workerpool/worker.go:149-185 | the error cases in their order, nil arguments included; subscribed exactly on success |
| WorkerPools.CreateWorkers | pkg/workerpool/pool.go:325-340 | n workers with the IDs 1 to n |
| WorkerPools.JoinInitial | pkg/workerpool/pool.go:342-354 | the first n workers are joined and subscribed |
| WorkerPools.NewPool | pkg/workerpool/pool.go:238-323 | the error cases in their order; a fixed pool starts with all its workers joined, an auto-scaled one valid with exactly MinSize of MaxSize |
| WorkerPools.Pool.JoinOneIdle | pkg/workerpool/scaler.go:108-132 | joins the worker with the lowest ID not joined yet; the pool is full exactly when all MaxSize workers are joined |
| WorkerPools.SpareBelow | pkg/workerpool/scaler.go:103-107 | the pigeonhole step: a spare ID means fewer than MaxSize joined |
| WorkerPools.Pool.JoinBatch | pkg/workerpool/scaler.go:160-174 | the batch never meets a full pool and stops early only on a done context or a worker still running |
| WorkerPools.Pool.JoinedCandidates | pkg/workerpool/scaler.go:192-206 | two parallel slices of exactly the joined workers, in ID order |
| WorkerPools.Pool.FindVictim | pkg/workerpool/scaler.go:175-183 | a joined worker not running and idle for the idle period, and none of the others not running is idle for longer (among equals the lowest ID), or that there is none |
| WorkerPools.Pool.FindSpare | pkg/workerpool/scaler.go:108-117 | the first worker not joined, which is missing exactly when all MaxSize workers are joined |
| WorkerPools.Pool.LeaveOne | pkg/workerpool/scaler.go:212-220 | the worker leaves both membership tables, and the outcome says whether its run loop exited in time |
| WorkerPools.Pool.OnTick | pkg/workerpool/scaler.go:150-185 | with an empty backlog, more idle than the headroom, a full pool or a running cooldown no worker is added; under pressure and if all joins succeed the size is the smaller of MaxSize and the old one plus a step; a worker is removed only in the dual case and is then not running and idle long enough; stamps move exactly with the size; both tables stay equal and in bounds, and the pool is never met full |
| WorkerPools.Pool.Reclaim | pkg/workerpool/pool.go:410-424 | closing leaves nobody joined or subscribed |
| LobbyProtocol.NeverPanics | pkg/taskqueue/lobby.go:205-237 | no interleaving of submitters, retrievers and closers sends on the closed intake or closes a channel twice |
| LobbyProtocol.ReceivedInOrder | pkg/taskqueue/lobby.go:90-119 | received followed by buffered is what was accepted, and nothing is accepted once the write lock was taken |
| LobbyProtocol.HandoffCompleteInOrder | pkg/yielder/yielder.go:65-86 | undisturbed, the handoff emits exactly what was buffered at the write lock, first in first out, always has room to write, and ends with ErrInputClosed; once it ended so, a context that is cancelled later changes nothing |
| LobbyProtocol.ForwarderFinishes | pkg/yielder/yielder.go:171-199 | the forwarder finishes in exactly the steps it has left although no consumer reads |
| LobbyProtocol.HandoffHasRoom | pkg/yielder/yielder.go:171-199 | with any receivers about, the handoff buffers no more than its output channel has room for, which is at least one |
| LobbyProtocol.CleanEndLosesNothing | pkg/yielder/yielder.go:65-86 | with other receivers about, ErrInputClosed still means an empty closed channel and nothing dropped |
| LobbyProtocol.FirstErrorStays | pkg/yielder/yielder.go:150-152 | the first error recorded is the yielder's error in every continuation |
| LobbyProtocol.ClosedReplyExactly | pkg/taskqueue/lobby.go:205-237 | over every run, a close call that has returned gave ErrLobbyClosed exactly when the lobby was closed at the moment the call started |
| LobbyProtocol.BuildErrorExactly | pkg/taskqueue/lobby.go:205-237 | over every run, the close call that entered the once, when it has returned, gave the build error exactly when the handoff could not be built, and nil exactly when there is a handoff |
| LobbyProtocol.ReturnedMeansClosed | pkg/taskqueue/lobby.go:205-237 | when any close call has returned anything but ErrLobbyClosed, the intake is closed and nothing is accepted beyond what was when the write lock was taken |
| LobbyProtocol.SecondCloserGetsNil | pkg/taskqueue/lobby.go:205-237 | a reachable state in which two overlapping close calls have both returned nil |
| LobbyProtocol.HandoffNilExactly | pkg/taskqueue/lobby.go:189-198 | HandoffTasks says whether the lobby is closed, on an open one without a yielder; it returns none exactly while building it is not past, or when that failed |
| LobbyProtocol.HandoffNilWhileClosing | pkg/taskqueue/lobby.go:189-198 | a reachable closed state with a nil handoff although nothing failed |
| LobbyProtocol.InvKept | pkg/taskqueue/lobby.go:205-237 | the joint invariant over locks, flags, once, channel, close calls and handoff is kept by every step |
| Float64.RoundFixes | pkg/retry/exponential.go:25-26 | a significand of at most 53 bits times a power of two is a fixed point of rounding |
| Float64.RepresentableExactly | pkg/retry/exponential.go:25-26 | a number is such a product exactly when rounding leaves it alone |
| Float64.RoundIsNearest | pkg/retry/exponential.go:25-26 | rounding goes to a nearest double |
| Retry.ExponentialExactly | pkg/retry/exponential.go:19-35 | for all int64 settings and every attempt from 0 on, Delay is min(base * 2^attempt, max) if and only if: for a base that is not positive, it is zero and the cap not negative; else, where the computed product is below the rounded cap, the base is a double; elsewhere, the cap is not above the exact product |
| Retry.NegativeExactly | pkg/retry/exponential.go:19-22 | for all int64 settings and every attempt below 0, Delay is 0, which is min(base * 2^attempt, max) if and only if the base is zero and the cap not negative, or the cap zero and the base not negative |
| Retry.ExponentialDoubles | pkg/retry/exponential.go:19-35 | a positive base that is a double, under a cap that is one or is not positive, gives min(base * 2^attempt, max) at every attempt, overflow to infinity included |
| Retry.ExponentialExact | pkg/retry/exponential.go:19-35 | the same for a positive base of at most 53 bits under a cap of at most 53 bits |
| Retry.ExponentialRounds | pkg/retry/exponential.go:19-30 | a base of -1 breaks it, and so does a base or a cap of 2^53 + 1 |
| Retry.LinearExactly | pkg/retry/linear.go:16-22 | for all int64 settings and every attempt, Delay is min(base * (attempt + 1), max) exactly when the product fits int64 or neither it nor what it wraps to is below the cap |
| Retry.LinearWraps | pkg/retry/linear.go:16-22 | a concrete configuration whose fourth delay is zero |
| Retry.ApplyJitter | pkg/retry/strategy.go:61-67 | a jittered delay is between zero and the delay |
| Retry.JitterExactly | pkg/retry/strategy.go:61-67 | with jitter a delay can be exactly the values from zero to the one without, for both strategies at every attempt; without jitter it is that one |
| Retry.RetryTask.GoRetry | pkg/task/task.go:215-256 | how many runs each outcome takes, that all earlier runs failed, and the exact total wait, in which a wait cut short by its context counts for the time it lasted; from zero attempts at most maxRetries failed runs and, with exponential backoff, a wait of at most min(k * max, base * (2^k - 1)) |
| Retry.TotalWaitBound | pkg/task/task.go:235-251 | k failed runs wait at most min(k * max, base * (2^k - 1)) in all, jitter included |
| Retry.TotalWaitExact | pkg/task/task.go:235-251 | without jitter and below the cap the wait is exactly base * (2^k - 1) |
| Retry.LinearWaitBound | pkg/task/task.go:235-251 | with linear backoff k failed runs wait at most min(k * max, base * k * (k + 1) / 2) in all, as long as the products fit int64, and exactly the latter without jitter and below the cap |
| Retry.ConstantWait | pkg/task/task.go:235-251 | without a strategy k failed runs wait k times the fixed delay |

## Left out

- Concurrency of the queue, the dispatcher, the run loops, the lobby and the yielder: modelled as state machines on values whose steps are the atomic operations, not as Go routines; the queue's data structures and the pool's membership code are modelled as classes besides.
- TaskQueues.Queue.Sweep: nobody interferes; in LeaseProtocol a sweep snapshots its leases one step at a time, which allows more interleavings than one locked snapshot.
- TaskQueues.Queue.Dequeue: other producers act between polls, other consumers do not; LeaseProtocol has them. Time is counted in polls.
- TaskQueues.NewQueue: the reaper goroutine is not started; LeaseProtocol has its sweeps.
- LeaseTheorems.NoTaskIsLost: needs distinct task IDs, as the dead-letter map is keyed by them, and no raced Remove, as RacedRedriveLosesTask shows; NoTaskIsLostAtomically has the condition on the run instead.
- PoolDispatch.OneClaimWhileAdvertising: a worker rejoins only after its earlier run loop has exited, which the code assures only while no leave has timed out.
- PoolDispatch.GracefulDrain: says nothing of a Submit that races with shutdown and is accepted afterwards; the code may leave such a job in the backlog.
- WorkerPools.Pool.FindVictim: the running flags and idle times of the candidates are read together; in the code each is a separate atomic read.
- WorkerPools.Claims.Submit: the inputs being read do not change during the call; PoolDispatch has the general case. The claims channel is never closed, so its error is not modelled.
- WorkerPools.NewClaims: only the size default; the timeouts and backoffs are durations.
- Retry.RetryTask.GoRetry: whether a run failed is an argument; the task state machine behind it is not part of this model.
- Closing the task queue and its reaper goroutine, and the Stream, PushTasks and FetchTasks pipelines: channel plumbing over modelled parts.
- Event observers, hooks, handlers, the rate limiter, panics in observers: foreign calls without effect on the protocol state.
- The semaphore, task group, task builder, task state and option setters: only easy members.
- Custom backends and dead-letter stores: only the in-memory ones.
