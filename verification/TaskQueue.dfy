/** The queue: claims, the route policy, the reaper sweep and Redrive over one backend. */
module TaskQueues {
  import opened Tasks
  import opened TaskHeaps
  import opened MemoryBackends
  import opened DeadLetters
  import opened QueuePolicy
  import LM = LeaseModel

  class Queue {
    const backend: MemoryBackend
    const deadLetter: MemoryDeadLetter
    const maxAttempts: nat
    const visibility: int
    const reapInterval: int
    var closed: bool

    ghost predicate Valid()
      reads backend, backend.ready`items, backend.ready.items`index, backend.ready.items`attempt,
            ItemsIn(backend.leases)`attempt, deadLetter`tasks
    {
      1 <= maxAttempts && backend.Valid() && Keyed(deadLetter.tasks)
    }

    ghost function State(): Store
      reads backend`view, deadLetter`tasks
    {
      Store(backend.view, deadLetter.tasks)
    }

    /** Non-positive settings fall back to 3 attempts, 30 seconds and 5 seconds (in nanoseconds). */
    constructor (mode: Mode, maxAttempts: int, visibility: int, reapInterval: int)
      ensures Valid() && State() == Store(LM.Empty(mode), map[]) && !closed && backend.view.mode == mode
      ensures this.maxAttempts == if maxAttempts <= 0 then 3 else maxAttempts
      ensures this.visibility == if visibility <= 0 then 30_000_000_000 else visibility
      ensures this.reapInterval == if reapInterval <= 0 then 5_000_000_000 else reapInterval
    {
      backend := new MemoryBackend(mode);
      deadLetter := new MemoryDeadLetter();
      this.maxAttempts := if maxAttempts <= 0 then 3 else maxAttempts;
      this.visibility := if visibility <= 0 then 30_000_000_000 else visibility;
      this.reapInterval := if reapInterval <= 0 then 5_000_000_000 else reapInterval;
      closed := false;
    }

    method Enqueue(live: bool, task: Option<Task>) returns (status: Status)
      requires Valid()
      modifies backend`view, backend.ready`items, backend.ready.items`index
      ensures Valid()
      ensures status == if !live then ContextDone else if closed then QueueClosed
                        else if task.None? then TaskNil else Ok
      ensures State() ==
        if status == Ok then old(State()).(b := LM.Enqueue(old(backend.view), task.value)) else old(State())
      ensures status == Ok ==>
        && backend.view.leases == old(backend.view).leases
        && backend.view.ready == old(backend.view).ready
             + multiset{LM.Item(LM.Incarnation(old(backend.view).nextUid, task.value), 0)}
    {
      if !live {
        return ContextDone;
      }
      if closed {
        return QueueClosed;
      }
      if task.None? {
        return TaskNil;
      }
      status := backend.Enqueue(live, task);
    }

    /** The branch of route at the ceiling: Add to the dead-letter store, then drop the lease. */
    method Kill(ctx: Liveness, lease: LM.Lease, reason: Reason, now: int) returns (status: Status)
      requires Valid()
      modifies backend`leases, backend`nextToken, backend`view, backend.ready`items, backend.Items()`index,
               deadLetter`tasks
      ensures Valid() && backend.Items() <= old(backend.Items())
      ensures status == if ctx != Live then ContextDone
                        else if lease.token in old(backend.view).leases then Ok else LeaseNotFound
      ensures backend.view == if ctx == Live then LM.Drop(old(backend.view), lease.token) else old(backend.view)
      ensures deadLetter.tasks ==
        if ctx == Over then old(deadLetter.tasks)
        else old(deadLetter.tasks)[lease.task.id := Dead(lease.task, reason, now)]
    {
      status := deadLetter.Add(ctx != Over, Some(lease.task), reason, now);
      if status != Ok {
        return;
      }
      status := backend.Nack(ctx == Live, lease.token, false);
    }

    /** The two branches of route. */
    method Settle(ctx: Liveness, lease: LM.Lease, reason: Reason, now: int) returns (status: Status)
      requires Valid()
      modifies backend`leases, backend`nextToken, backend`view, backend.ready`items, backend.Items()`index,
               deadLetter`tasks
      ensures Valid() && backend.Items() <= old(backend.Items())
      ensures status == if ctx == Over || (ctx == Ending && maxAttempts <= lease.attempt) then ContextDone
                        else if lease.token in old(backend.view).leases then Ok else LeaseNotFound
      ensures State() == RouteUnder(old(State()), lease, maxAttempts, reason, now, ctx)
    {
      hide Agrees, Keyed;
      if lease.attempt >= maxAttempts {
        status := Kill(ctx, lease, reason, now);
      } else {
        status := backend.Nack(ctx != Over, lease.token, true);
      }
    }

    /** The retry and dead-letter policy; the context may end before it or between its two calls. */
    method Route(ctx: Liveness, lease: LM.Lease, reason: Reason, now: int) returns (status: Status)
      requires Valid()
      modifies backend`leases, backend`nextToken, backend`view, backend.ready`items, backend.Items()`index,
               deadLetter`tasks
      ensures Valid() && backend.Items() <= old(backend.Items())
      ensures status == if ctx == Over || (ctx == Ending && maxAttempts <= lease.attempt) then ContextDone
                        else if lease.token in old(backend.view).leases then Ok else LeaseNotFound
      ensures State() == RouteUnder(old(State()), lease, maxAttempts, reason, now, ctx)
      ensures ctx == Live ==>
        && backend.view.leases == old(backend.view).leases - {lease.token}
        && backend.view.ready == old(backend.view).ready
             + (if lease.token in old(backend.view).leases && lease.attempt < maxAttempts
                then multiset{old(backend.view).leases[lease.token].item} else multiset{})
        && deadLetter.tasks == if lease.attempt < maxAttempts then old(deadLetter.tasks)
                               else old(deadLetter.tasks)[lease.task.id := DeadTask(lease.task, reason, 0, now)]
    {
      hide Agrees, Keyed, RouteUnder;
      ghost var was := State();
      status := Settle(ctx, lease, reason, now);
      if ctx == Live {
        RouteByFields(was, State(), lease, maxAttempts, reason, now);
      }
    }

    /** The loop of a sweep: one route per snapshot, each finding the context as it is by then. */
    method RouteAll(expired: seq<LM.Lease>, now: int, ctxs: nat -> Liveness, ghost was: Store)
      requires Valid() && State() == was
      modifies backend`leases, backend`nextToken, backend`view, backend.ready`items, backend.Items()`index,
               deadLetter`tasks
      ensures Valid() && State() == RouteEach(was, expired, |expired|, maxAttempts, LeaseExpired, now, ctxs)
    {
      for i := 0 to |expired|
        invariant Valid() && backend.Items() <= old(backend.Items())
        invariant State() == RouteEach(was, expired, i, maxAttempts, LeaseExpired, now, ctxs)
      {
        var status := Route(ctxs(i), expired[i], LeaseExpired, now);
      }
    }

    /**
      One sweep: a snapshot of exactly the expired leases, then one route for each. What this
      comes to on a live context is SweepRouted.
     */
    method Sweep(live: bool, now: int, ctxs: nat -> Liveness) returns (ghost expired: seq<LM.Lease>)
      requires Valid()
      modifies backend`leases, backend`nextToken, backend`view, backend.ready`items, backend.Items()`index,
               deadLetter`tasks
      ensures Valid()
      ensures !live ==> State() == old(State())
      ensures live ==>
        && LM.ExactlyExpired(old(backend.view), expired, now)
        && State() == RouteEach(old(State()), expired, |expired|, maxAttempts, LeaseExpired, now, ctxs)
      ensures live && (forall i :: 0 <= i < |expired| ==> ctxs(i) == Live) ==>
        && Routed(old(State()), State(), ExpiredTokens(old(backend.view), now), maxAttempts, LeaseExpired, now)
        && backend.view.leases ==
             (map t | t in old(backend.view).leases && now < old(backend.view).leases[t].deadline ::
                old(backend.view).leases[t])
        && backend.view.ready == old(backend.view).ready
             + LM.Held(Retried(old(backend.view).leases, ExpiredTokens(old(backend.view), now), maxAttempts))
        && Retried(old(backend.view).leases, ExpiredTokens(old(backend.view), now), maxAttempts) ==
             (map t | t in old(backend.view).leases && old(backend.view).leases[t].deadline <= now
                      && old(backend.view).leases[t].item.attempt < maxAttempts ::
                old(backend.view).leases[t])
        && deadLetter.tasks.Keys == old(deadLetter.tasks).Keys + set t |
             t in old(backend.view).leases && old(backend.view).leases[t].deadline <= now
             && maxAttempts <= old(backend.view).leases[t].item.attempt ::
             old(backend.view).leases[t].item.inc.task.id
    {
      hide Agrees, RoutedBackend, RoutedDead, LM.ExactlyExpired, RouteEach;
      var status, listed := backend.ReapExpired(live, now);
      expired := listed;
      if status == Ok {
        if forall i :: 0 <= i < |expired| ==> ctxs(i) == Live {
          SweepRouted(State(), expired, maxAttempts, LeaseExpired, now, ctxs);
        }
        ghost var was := State();
        RouteAll(listed, now, ctxs, was);
        if forall i :: 0 <= i < |expired| ==> ctxs(i) == Live {
          RoutedBackendByFields(was.b, backend.view, maxAttempts, now);
          RoutedDeadByFields(was.b, was.dlq, deadLetter.tasks, maxAttempts, LeaseExpired, now);
        }
      }
    }

    /** The part of Redrive after its target was found, with no step of others in between. */
    method MoveBack(task: Task, ctx: Liveness) returns (status: Status)
      requires Valid()
      modifies backend`view, backend.ready`items, backend.ready.items`index, deadLetter`tasks
      ensures Valid() && status == if ctx == Live then Ok else ContextDone
      ensures backend.view == if ctx == Over then old(backend.view) else LM.Enqueue(old(backend.view), task)
      ensures ctx != Over ==>
        && backend.view.leases == old(backend.view).leases
        && backend.view.ready == old(backend.view).ready
             + multiset{LM.Item(LM.Incarnation(old(backend.view).nextUid, task), 0)}
      ensures deadLetter.tasks == if ctx == Live then old(deadLetter.tasks) - {task.id} else old(deadLetter.tasks)
    {
      hide TaskHeap.Valid, Separate, ReadyBag, LM.Enqueue;
      status := backend.Enqueue(ctx != Over, Some(task));
      if status != Ok {
        return;
      }
      status := deadLetter.Remove(ctx == Live, task.id);
    }

    /**
      Redrive: puts the dead task with this ID back into ready as a new incarnation and takes it
      out of the dead-letter store. The context may end before the call, before the listing, or
      around the two calls that move the task.
     */
    method Redrive(live: bool, listLive: bool, moving: Liveness, id: nat) returns (status: Status)
      requires Valid()
      modifies backend`view, backend.ready`items, backend.ready.items`index, deadLetter`tasks
      ensures Valid()
      ensures status == if !live then ContextDone
                        else if closed then QueueClosed
                        else if !listLive then ContextDone
                        else if id !in old(deadLetter.tasks) then LeaseNotFound
                        else if moving == Live then Ok
                        else ContextDone
      ensures backend.view ==
        if live && !closed && listLive && id in old(deadLetter.tasks) && moving != Over
        then LM.Enqueue(old(backend.view), old(deadLetter.tasks)[id].task) else old(backend.view)
      ensures deadLetter.tasks ==
        if status == Ok then old(deadLetter.tasks) - {id} else old(deadLetter.tasks)
      ensures status == Ok ==>
        && backend.view.leases == old(backend.view).leases
        && backend.view.ready == old(backend.view).ready
             + multiset{LM.Item(LM.Incarnation(old(backend.view).nextUid, old(deadLetter.tasks)[id].task), 0)}
    {
      hide TaskHeap.Valid, Separate, ReadyBag, LM.Enqueue;
      if !live {
        return ContextDone;
      }
      if closed {
        return QueueClosed;
      }
      var listed;
      status, listed := deadLetter.List(listLive, 0);
      if status != Ok {
        return;
      }
      var target := FindById(listed, id);
      assert id in deadLetter.tasks ==> deadLetter.tasks[id] in listed;
      if target.None? {
        return LeaseNotFound;
      }
      status := MoveBack(target.value, moving);
    }

    /**
      Dequeue, waiting for at most so many polls; what others enqueue meanwhile arrives between
      polls, and cancelAt is the first poll that finds the context done.
     */
    method Dequeue(cancelAt: Option<nat>, waits: nat, clock: nat -> int, arrivals: nat -> seq<Task>)
      returns (status: Status, claim: Option<Claim>, ghost polls: nat, ghost item: Option<LM.Item>)
      requires Valid()
      modifies backend`leases, backend`nextToken, backend`view, backend.ready`items, backend.ready.items`index,
               backend.ready.items`attempt
      ensures backend.Valid()
      ensures closed ==> status == QueueClosed && backend.view == old(backend.view)
      ensures !closed ==> Polled(status, old(backend.view), arrivals, cancelAt, waits, polls)
      ensures !closed ==>
        && polls <= waits
        && (forall k :: 0 <= k < polls ==>
              cancelAt != Some(k) && AtPoll(old(backend.view), arrivals, k).ready == multiset{})
        && status == (if cancelAt == Some(polls) then ContextDone
                      else if AtPoll(old(backend.view), arrivals, polls).ready == multiset{} then QueueEmpty else Ok)
        && (status == QueueEmpty ==> polls == waits)
      ensures status != Ok ==> claim == None
      ensures !closed && status != Ok ==> backend.view == AtPoll(old(backend.view), arrivals, polls)
      ensures forall x :: x in backend.Items() ==> x in old(backend.Items()) || fresh(x)
      ensures status == Ok ==> item.Some? && claim.Some? && fresh(claim.value) && !claim.value.settled
      ensures status == Ok ==>
        Took(AtPoll(old(backend.view), arrivals, polls), backend.view, item.value, claim.value.lease,
             clock(polls) + visibility)
    {
      hide Agrees, Took, AtPoll, Polled;
      if closed {
        return QueueClosed, None, 0, None;
      }
      ghost var was := backend.view;
      status, claim, polls, item := DequeueFrom(backend, visibility, cancelAt, waits, clock, arrivals);
      PolledByCases(status, was, arrivals, cancelAt, waits, polls);
    }
  }

  /** New: a missing context is an invalid queue, a done one an error; else an empty queue with usable settings. */
  method NewQueue(ctxGiven: bool, live: bool, mode: Mode, maxAttempts: int, visibility: int, reapInterval: int)
    returns (status: Status, queue: Queue?)
    ensures status == if !ctxGiven then InvalidQueue else if !live then ContextDone else Ok
    ensures status == Ok <==> queue != null
    ensures queue != null ==>
      && fresh(queue) && queue.Valid() && queue.State() == Store(LM.Empty(mode), map[]) && !queue.closed
      && 1 <= queue.maxAttempts && 1 <= queue.visibility && 1 <= queue.reapInterval
      && (1 <= maxAttempts ==> queue.maxAttempts == maxAttempts)
      && (1 <= visibility ==> queue.visibility == visibility)
      && (1 <= reapInterval ==> queue.reapInterval == reapInterval)
  {
    if !ctxGiven {
      return InvalidQueue, null;
    }
    if !live {
      return ContextDone, null;
    }
    queue := new Queue(mode, maxAttempts, visibility, reapInterval);
    status := Ok;
  }

  /** A consumer's handle on a leased task; only its first Ack or Nack reaches the backend. */
  class Claim {
    const lease: LM.Lease
    var settled: bool

    constructor (lease: LM.Lease)
      ensures this.lease == lease && !settled
    {
      this.lease := lease;
      settled := false;
    }

    method Ack(queue: Queue, live: bool) returns (status: Status)
      requires queue.Valid()
      modifies this`settled, queue.backend`leases, queue.backend`nextToken, queue.backend`view
      ensures queue.Valid() && settled
      ensures old(settled) ==> status == ClaimSettled && queue.State() == old(queue.State())
      ensures !old(settled) ==>
        && status == (if !live then ContextDone
                      else if lease.token in old(queue.backend.view).leases then Ok else LeaseNotFound)
        && queue.State() == old(queue.State()).(b :=
             if live then LM.Drop(old(queue.backend.view), lease.token) else old(queue.backend.view))
    {
      if settled {
        return ClaimSettled;
      }
      settled := true;
      status := queue.backend.Ack(live, lease.token);
    }

    method Nack(queue: Queue, ctx: Liveness, reason: Reason, now: int) returns (status: Status)
      requires queue.Valid()
      modifies this`settled, queue.backend`leases, queue.backend`nextToken, queue.backend`view,
               queue.backend.ready`items, queue.backend.Items()`index, queue.deadLetter`tasks
      ensures queue.Valid() && settled && queue.backend.Items() <= old(queue.backend.Items())
      ensures old(settled) ==> status == ClaimSettled && queue.State() == old(queue.State())
      ensures !old(settled) ==>
        && status == (if ctx == Over || (ctx == Ending && queue.maxAttempts <= lease.attempt) then ContextDone
                      else if lease.token in old(queue.backend.view).leases then Ok else LeaseNotFound)
        && queue.State() == RouteUnder(old(queue.State()), lease, queue.maxAttempts, reason, now, ctx)
    {
      if settled {
        return ClaimSettled;
      }
      settled := true;
      status := queue.Route(ctx, lease, reason, now);
    }
  }

  /** The polls before this one found a live context and nothing ready. */
  ghost predicate Waiting(b: LM.Backend, arrivals: nat -> seq<Task>, cancelAt: Option<nat>, polls: nat) {
    forall k: nat :: k < polls ==> AtPoll(b, arrivals, k).ready == multiset{} && cancelAt != Some(k)
  }

  lemma StartWaiting(b: LM.Backend, arrivals: nat -> seq<Task>, cancelAt: Option<nat>)
    ensures Waiting(b, arrivals, cancelAt, 0) && BeforePoll(b, arrivals, 0) == b
  {
  }

  lemma WaitingMore(b: LM.Backend, arrivals: nat -> seq<Task>, cancelAt: Option<nat>, polls: nat)
    requires Waiting(b, arrivals, cancelAt, polls)
    requires AtPoll(b, arrivals, polls).ready == multiset{} && cancelAt != Some(polls)
    ensures Waiting(b, arrivals, cancelAt, polls + 1)
  {
  }

  /**
    How a polling Dequeue ends: at the first poll that finds the context done or something ready,
    or at the last poll allowed.
   */
  ghost predicate Polled(status: Status, b: LM.Backend, arrivals: nat -> seq<Task>, cancelAt: Option<nat>, waits: nat,
                         polls: nat) {
    && polls <= waits && Waiting(b, arrivals, cancelAt, polls)
    && (status == ContextDone <==> cancelAt == Some(polls))
    && (status == Ok <==> cancelAt != Some(polls) && AtPoll(b, arrivals, polls).ready != multiset{})
    && (status == Ok || status == ContextDone || (status == QueueEmpty && polls == waits))
  }

  lemma PolledByCases(status: Status, b: LM.Backend, arrivals: nat -> seq<Task>, cancelAt: Option<nat>, waits: nat,
                      polls: nat)
    requires Polled(status, b, arrivals, cancelAt, waits, polls)
    ensures polls <= waits
    ensures forall k :: 0 <= k < polls ==> cancelAt != Some(k) && AtPoll(b, arrivals, k).ready == multiset{}
    ensures status == if cancelAt == Some(polls) then ContextDone
                      else if AtPoll(b, arrivals, polls).ready == multiset{} then QueueEmpty else Ok
    ensures status == QueueEmpty ==> polls == waits
  {
    hide AtPoll;
  }

  /** Other producers enqueue some tasks. */
  method Arrive(backend: MemoryBackend, tasks: seq<Task>)
    requires backend.Valid()
    modifies backend`view, backend.ready`items, backend.ready.items`index
    ensures backend.Valid() && backend.view == EnqueueEach(old(backend.view), tasks)
    ensures forall x :: x in backend.ready.items ==> x in old(backend.ready.items) || fresh(x)
  {
    hide Agrees;
    for i := 0 to |tasks|
      invariant backend.Valid() && backend.view == EnqueueEach(old(backend.view), tasks[..i])
      invariant forall x :: x in backend.ready.items ==> x in old(backend.ready.items) || fresh(x)
    {
      assert tasks[..i + 1][..i] == tasks[..i];
      assert forall k :: 0 <= k < |backend.ready.items| ==>
        backend.ready.items[k] in old(backend.ready.items) || fresh(backend.ready.items[k]);
      var status := backend.Enqueue(true, Some(tasks[i]));
    }
    assert tasks[..|tasks|] == tasks;
  }

  /** One poll: what has arrived is enqueued, then a live context may claim. */
  method PollOnce(backend: MemoryBackend, arrived: seq<Task>, done: bool, now: int, visibility: int)
    returns (status: Status, lease: Option<LM.Lease>, ghost item: Option<LM.Item>)
    requires backend.Valid()
    modifies backend`leases, backend`nextToken, backend`view, backend.ready`items, backend.ready.items`index,
             backend.ready.items`attempt
    ensures backend.Valid()
    ensures status == if done then ContextDone
                      else if EnqueueEach(old(backend.view), arrived).ready == multiset{} then QueueEmpty
                      else Ok
    ensures status != Ok ==> backend.view == EnqueueEach(old(backend.view), arrived)
    ensures status != Ok ==> forall k :: 0 <= k < |backend.ready.items| ==>
      backend.ready.items[k] in old(backend.ready.items) || fresh(backend.ready.items[k])
    ensures forall x :: x in backend.Items() ==> x in old(backend.Items()) || fresh(x)
    ensures status == Ok ==> item.Some? && lease.Some?
    ensures status == Ok ==>
      Took(EnqueueEach(old(backend.view), arrived), backend.view, item.value, lease.value, now + visibility)
  {
    hide Agrees, Took;
    Arrive(backend, arrived);
    assert forall k :: 0 <= k < |backend.ready.items| ==>
      backend.ready.items[k] in old(backend.ready.items) || fresh(backend.ready.items[k]);
    if done {
      return ContextDone, None, None;
    }
    status, lease, item := backend.Claim(true, now, visibility);
  }

  /** The polling loop of Dequeue. */
  method PollLoop(backend: MemoryBackend, visibility: int, cancelAt: Option<nat>, waits: nat, clock: nat -> int,
                  arrivals: nat -> seq<Task>)
    returns (status: Status, lease: Option<LM.Lease>, ghost polls: nat, ghost item: Option<LM.Item>)
    requires backend.Valid()
    modifies backend`leases, backend`nextToken, backend`view, backend.ready`items, backend.ready.items`index,
             backend.ready.items`attempt
    ensures backend.Valid() && Polled(status, old(backend.view), arrivals, cancelAt, waits, polls)
    ensures status != Ok ==> backend.view == AtPoll(old(backend.view), arrivals, polls)
    ensures forall x :: x in backend.Items() ==> x in old(backend.Items()) || fresh(x)
    ensures status == Ok ==> item.Some? && lease.Some?
    ensures status == Ok ==>
      Took(AtPoll(old(backend.view), arrivals, polls), backend.view, item.value, lease.value, clock(polls) + visibility)
  {
    hide Agrees, Took, EnqueueEach, AtPoll, BeforePoll, Waiting;
    ghost var was := backend.view;
    var i := 0;
    StartWaiting(was, arrivals, cancelAt);
    while true
      invariant i <= waits && backend.Valid()
      invariant backend.view == BeforePoll(was, arrivals, i) && Waiting(was, arrivals, cancelAt, i)
      invariant forall k :: 0 <= k < |backend.ready.items| ==>
        backend.ready.items[k] in old(backend.ready.items) || fresh(backend.ready.items[k])
      invariant forall x :: x in backend.Items() ==> x in old(backend.Items()) || fresh(x)
      decreases waits - i
    {
      PollStep(was, arrivals, i);
      status, lease, item := PollOnce(backend, arrivals(i), cancelAt == Some(i), clock(i), visibility);
      polls := i;
      if status != QueueEmpty || i == waits {
        return;
      }
      WaitingMore(was, arrivals, cancelAt, i);
      i := i + 1;
    }
  }

  /** Dequeue from an open queue: the polling loop, and a handle for what it claims. */
  method DequeueFrom(backend: MemoryBackend, visibility: int, cancelAt: Option<nat>, waits: nat, clock: nat -> int,
                     arrivals: nat -> seq<Task>)
    returns (status: Status, claim: Option<Claim>, ghost polls: nat, ghost item: Option<LM.Item>)
    requires backend.Valid()
    modifies backend`leases, backend`nextToken, backend`view, backend.ready`items, backend.ready.items`index,
             backend.ready.items`attempt
    ensures backend.Valid() && Polled(status, old(backend.view), arrivals, cancelAt, waits, polls)
    ensures status != Ok ==> backend.view == AtPoll(old(backend.view), arrivals, polls) && claim == None
    ensures forall x :: x in backend.Items() ==> x in old(backend.Items()) || fresh(x)
    ensures status == Ok ==> item.Some? && claim.Some? && fresh(claim.value) && !claim.value.settled
    ensures status == Ok ==>
      Took(AtPoll(old(backend.view), arrivals, polls), backend.view, item.value, claim.value.lease,
           clock(polls) + visibility)
  {
    hide TaskHeap.Valid, Separate, ReadyBag, Took, AtPoll, Polled;
    claim := None;
    var lease;
    status, lease, polls, item := PollLoop(backend, visibility, cancelAt, waits, clock, arrivals);
    if status == Ok {
      var handle := new Claim(lease.value);
      claim := Some(handle);
    }
  }

  /** The first listed entry with this task ID. */
  method FindById(listed: seq<DeadTask>, id: nat) returns (target: Option<Task>)
    ensures target.Some? ==> target.value.id == id && exists i :: 0 <= i < |listed| && listed[i].task == target.value
    ensures target.None? ==> forall i :: 0 <= i < |listed| ==> listed[i].task.id != id
  {
    for i := 0 to |listed|
      invariant forall k :: 0 <= k < i ==> listed[k].task.id != id
    {
      if listed[i].task.id == id {
        return Some(listed[i].task);
      }
    }
    return None;
  }
}
