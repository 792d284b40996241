/** A sole consumer at work on the real backend and queue. */
module ConsumerLoops {
  import opened Tasks
  import opened TaskHeaps
  import opened MemoryBackends
  import opened DeadLetters
  import opened QueuePolicy
  import opened TaskQueues
  import C = Consumers
  import LM = LeaseModel

  lemma TasksMore(log: seq<C.Delivery>, d: C.Delivery)
    ensures C.TasksIn(C.ItemsOf(log + [d])) == C.TasksIn(C.ItemsOf(log)) + [d.item.inc.task]
  {
  }

  /** What a claim and then its log entry add to a drain. */
  lemma DrainStep(was: LM.Backend, log: seq<C.Delivery>, b: LM.Backend, b': LM.Backend, item: LM.Item, lease: LM.Lease,
                  deadline: int)
    requires C.Claiming(was, log, b) && Took(b, b', item, lease, deadline)
    ensures var more := log + [C.Delivery(item, deadline, 0)];
      && C.Claiming(was, more, b')
      && C.TasksIn(C.ItemsOf(more)) == C.TasksIn(C.ItemsOf(log)) + [lease.task]
    ensures |b'.ready| < |b.ready|
  {
    var d := C.Delivery(item, deadline, 0);
    TasksMore(log, d);
    hide C.Claiming, C.TasksIn, C.ItemsOf;
    C.ClaimingMore(was, log, b, d);
  }

  /** One claim, when something is ready. */
  method DrainOnce(backend: MemoryBackend, now: int, visibility: int, ghost was: LM.Backend, ghost log: seq<C.Delivery>)
    returns (delivered: Option<Task>, ghost more: seq<C.Delivery>)
    requires backend.Valid() && C.Claiming(was, log, backend.view)
    modifies backend`leases, backend`nextToken, backend`view, backend.ready`items, backend.ready.items`index,
             backend.ready.items`attempt
    ensures backend.Valid() && C.Claiming(was, more, backend.view)
    ensures delivered.None? ==> backend.view.ready == multiset{} && more == log
    ensures delivered.Some? ==>
      && |backend.view.ready| < |old(backend.view).ready|
      && C.TasksIn(C.ItemsOf(more)) == C.TasksIn(C.ItemsOf(log)) + [delivered.value]
    ensures forall k :: 0 <= k < |backend.ready.items| ==> backend.ready.items[k] in old(backend.ready.items)
  {
    hide Agrees, Took, C.Claiming, C.TasksIn, C.ItemsOf;
    ghost var b := backend.view;
    var status, lease;
    ghost var item;
    status, lease, item := backend.Claim(true, now, visibility);
    if status == QueueEmpty {
      return None, log;
    }
    DrainStep(was, log, b, backend.view, item.value, lease.value, now + visibility);
    return Some(lease.value.task), log + [C.Delivery(item.value, now + visibility, 0)];
  }

  /** A drain that reached the end delivered every item that was ready, sorted. */
  lemma Drained(was: LM.Backend, log: seq<C.Delivery>, b': LM.Backend)
    requires C.Claiming(was, log, b') && b'.ready == multiset{}
    ensures multiset(C.ItemsOf(log)) == was.ready && InOrder(was.mode, C.TasksIn(C.ItemsOf(log)))
    ensures was.mode == b'.mode
  {
    hide C.Claiming, InOrder, C.TasksIn, C.ItemsOf;
    C.ClaimingDrains(was, log, b');
    C.DrainSorts(was, log);
  }

  lemma DeliveredIs(log: seq<C.Delivery>)
    ensures |C.TasksIn(C.ItemsOf(log))| == |log|
    ensures forall i :: 0 <= i < |log| ==> C.TasksIn(C.ItemsOf(log))[i] == log[i].item.inc.task
  {
  }

  /**
    Claims until the backend is empty: the heap sorts, in either mode and from any size. The
    tasks come out in the order of the mode, each ready item once: priorities never rise and
    within one priority the order never falls, or in FIFO mode the order never falls.
   */
  method Drain(backend: MemoryBackend, clock: nat -> int, visibility: int)
    returns (delivered: seq<Task>, ghost log: seq<C.Delivery>)
    requires backend.Valid()
    modifies backend`leases, backend`nextToken, backend`view, backend.ready`items, backend.ready.items`index,
             backend.ready.items`attempt
    ensures backend.Valid() && backend.view.ready == multiset{}
    ensures C.Claiming(old(backend.view), log, backend.view)
    ensures delivered == C.TasksIn(C.ItemsOf(log)) && multiset(C.ItemsOf(log)) == old(backend.view).ready
    ensures |delivered| == |log| && forall i :: 0 <= i < |log| ==> delivered[i] == log[i].item.inc.task
    ensures backend.view.mode == PriorityMode ==> forall i, j :: 0 <= i < j < |delivered| ==>
      && delivered[j].priority <= delivered[i].priority
      && (delivered[j].priority == delivered[i].priority ==> delivered[i].order <= delivered[j].order)
    ensures backend.view.mode == FifoMode ==> forall i, j :: 0 <= i < j < |delivered| ==>
      delivered[i].order <= delivered[j].order
    ensures backend.view.mode == old(backend.view).mode
  {
    hide Agrees, C.Claiming, InOrder, C.TasksIn, C.ItemsOf;
    ghost var was := backend.view;
    delivered, log := [], [];
    NothingClaimed(was);
    var next: Option<Task>;
    next, log := DrainOnce(backend, clock(0), visibility, was, log);
    while next.Some?
      invariant backend.Valid() && C.Claiming(was, log, backend.view)
      invariant next.None? ==> backend.view.ready == multiset{}
      invariant C.TasksIn(C.ItemsOf(log)) == if next.Some? then delivered + [next.value] else delivered
      invariant forall k :: 0 <= k < |backend.ready.items| ==> backend.ready.items[k] in old(backend.ready.items)
      decreases |backend.view.ready|, next.Some?
    {
      delivered := delivered + [next.value];
      next, log := DrainOnce(backend, clock(|delivered|), visibility, was, log);
    }
    Drained(was, log, backend.view);
    DeliveredIs(log);
    InOrderByFields(was.mode, delivered);
  }

  lemma NothingClaimed(b: LM.Backend)
    ensures C.Claiming(b, [], b) && C.TasksIn(C.ItemsOf([])) == []
  {
  }

  /** A claim, then a nack, is a round. */
  lemma RoundStep(was: Store, log: seq<C.Delivery>, s: Store, b': LM.Backend, item: LM.Item, lease: LM.Lease,
                  deadline: int, max: nat, reason: Reason, now: int)
    requires C.Failing(was, log, max, reason, s) && Took(s.b, b', item, lease, deadline)
    requires s.b.leases == map[] && C.Below(s.b.ready, max)
    ensures var d, s' := C.Delivery(item, deadline, now), Route(Store(b', s.dlq), lease, max, reason, now);
      && C.Failing(was, log + [d], max, reason, s')
      && s'.b.leases == map[] && C.Below(s'.b.ready, max)
      && 0 <= LM.Remaining(s'.b.ready, max) < LM.Remaining(s.b.ready, max)
      && C.TasksIn(C.ItemsOf(log + [d])) == C.TasksIn(C.ItemsOf(log)) + [lease.task]
  {
    hide C.Failing, C.TasksIn, C.ItemsOf, C.Below, C.NextReady, LM.Remaining, Route, Before;
    var d := C.Delivery(item, deadline, now);
    TasksMore(log, d);
    C.FailingMore(was, log, max, reason, s, d);
    C.RoundEffect(s, d, max, reason);
    C.RemainingRound(s.b.ready, item, max);
  }

  lemma NoArrivals(b: LM.Backend, arrivals: nat -> seq<Task>)
    requires arrivals(0) == []
    ensures AtPoll(b, arrivals, 0) == b
  {
  }

  /** Dequeue, when nobody else enqueues and the first poll is the last. */
  method TakeOne(queue: Queue, now: int) returns (claim: Option<Claim>, ghost item: Option<LM.Item>)
    requires queue.Valid() && !queue.closed
    modifies queue.backend`leases, queue.backend`nextToken, queue.backend`view, queue.backend.ready`items,
             queue.backend.ready.items`index, queue.backend.ready.items`attempt
    ensures queue.backend.Valid()
    ensures forall x :: x in queue.backend.Items() ==> x in old(queue.backend.Items()) || fresh(x)
    ensures claim.None? <==> old(queue.backend.view).ready == multiset{}
    ensures claim.None? ==> queue.backend.view == old(queue.backend.view)
    ensures claim.Some? ==>
      && fresh(claim.value) && !claim.value.settled && item.Some?
      && Took(old(queue.backend.view), queue.backend.view, item.value, claim.value.lease, now + queue.visibility)
  {
    hide Agrees, Took;
    var none: nat -> seq<Task> := _ => [];
    NoArrivals(queue.backend.view, none);
    var status;
    ghost var polls;
    status, claim, polls, item := queue.Dequeue(None, 0, _ => now, none);
  }

  /** Dequeue and Nack once: nothing was ready, or one round was made. */
  method FailOnce(queue: Queue, reason: Reason, now: int)
    returns (delivered: Option<Task>, ghost lease: LM.Lease, ghost item: LM.Item, ghost b': LM.Backend)
    requires queue.Valid() && !queue.closed
    modifies queue.backend`leases, queue.backend`nextToken, queue.backend`view, queue.backend.ready`items,
             queue.backend.Items()`index, queue.backend.Items()`attempt, queue.deadLetter`tasks
    ensures queue.Valid() && !queue.closed
    ensures forall x :: x in queue.backend.Items() ==> x in old(queue.backend.Items()) || fresh(x)
    ensures delivered.None? <==> old(queue.backend.view).ready == multiset{}
    ensures delivered.None? ==> queue.State() == old(queue.State())
    ensures delivered.Some? ==>
      && delivered.value == lease.task
      && Took(old(queue.backend.view), b', item, lease, now + queue.visibility)
      && queue.State() == Route(Store(b', old(queue.deadLetter.tasks)), lease, queue.maxAttempts, reason, now)
  {
    hide Agrees, Took, Route;
    var claim;
    ghost var got;
    claim, got := TakeOne(queue, now);
    if claim.None? {
      delivered := None;
      lease, item, b' := *, *, *;
      return;
    }
    lease, item, b' := claim.value.lease, got.value, queue.backend.view;
    delivered := Some(claim.value.lease.task);
    var settled := claim.value.Nack(queue, Live, reason, now);
  }

  /** What a failing consumer keeps between rounds. */
  ghost predicate Rounds(was: Store, log: seq<C.Delivery>, s: Store, max: nat, reason: Reason) {
    C.Failing(was, log, max, reason, s) && s.b.leases == map[] && C.Below(s.b.ready, max)
  }

  lemma NoRounds(s: Store, max: nat, reason: Reason)
    requires s.b.leases == map[] && C.Below(s.b.ready, max)
    ensures Rounds(s, [], s, max, reason) && C.TasksIn(C.ItemsOf([])) == []
  {
  }

  lemma RoundsMore(was: Store, log: seq<C.Delivery>, s: Store, b': LM.Backend, item: LM.Item, lease: LM.Lease,
                   deadline: int, max: nat, reason: Reason, now: int)
    requires Rounds(was, log, s, max, reason) && Took(s.b, b', item, lease, deadline)
    ensures var d, s' := C.Delivery(item, deadline, now), Route(Store(b', s.dlq), lease, max, reason, now);
      && Rounds(was, log + [d], s', max, reason)
      && 0 <= LM.Remaining(s'.b.ready, max) < LM.Remaining(s.b.ready, max)
      && C.TasksIn(C.ItemsOf(log + [d])) == C.TasksIn(C.ItemsOf(log)) + [lease.task]
  {
    hide C.Failing, C.TasksIn, C.ItemsOf, C.Below, LM.Remaining, Route, Before;
    RoundStep(was, log, s, b', item, lease, deadline, max, reason, now);
  }

  /** One round, when something is ready. */
  method FailRound(queue: Queue, reason: Reason, now: int, ghost was: Store, ghost log: seq<C.Delivery>)
    returns (delivered: Option<Task>, ghost more: seq<C.Delivery>)
    requires queue.Valid() && !queue.closed && Rounds(was, log, queue.State(), queue.maxAttempts, reason)
    modifies queue.backend`leases, queue.backend`nextToken, queue.backend`view, queue.backend.ready`items,
             queue.backend.Items()`index, queue.backend.Items()`attempt, queue.deadLetter`tasks
    ensures queue.Valid() && !queue.closed && Rounds(was, more, queue.State(), queue.maxAttempts, reason)
    ensures forall x :: x in queue.backend.Items() ==> x in old(queue.backend.Items()) || fresh(x)
    ensures delivered.None? ==>
      queue.State().b.ready == multiset{} && queue.State() == old(queue.State()) && more == log
    ensures delivered.Some? ==>
      && 0 <= LM.Remaining(queue.backend.view.ready, queue.maxAttempts)
           < LM.Remaining(old(queue.backend.view).ready, queue.maxAttempts)
      && C.TasksIn(C.ItemsOf(more)) == C.TasksIn(C.ItemsOf(log)) + [delivered.value]
  {
    hide Agrees, Took, Route, Rounds, LM.Remaining, C.TasksIn, C.ItemsOf;
    ghost var s := queue.State();
    ghost var lease, item, b';
    delivered, lease, item, b' := FailOnce(queue, reason, now);
    more := log;
    if delivered.Some? {
      RoundsMore(was, log, s, b', item, lease, now + queue.visibility, queue.maxAttempts, reason, now);
      more := log + [C.Delivery(item, now + queue.visibility, now)];
    }
  }

  /** Rounds until nothing is ready exhaust a strict bag of ready items. */
  lemma Exhausted(was: Store, log: seq<C.Delivery>, s: Store, max: nat, reason: Reason)
    returns (order: seq<LM.Item>)
    requires Rounds(was, log, s, max, reason) && s.b.ready == multiset{}
    requires was.b.leases == map[] && C.Strict(was.b.mode, was.b.ready) && C.Below(was.b.ready, max)
    ensures s.b.leases == map[]
    ensures C.Exhausts(was.b.mode, was.b.ready, max, order, C.TasksIn(C.ItemsOf(log)), was.dlq, s.dlq)
    ensures InOrder(was.b.mode, C.TasksIn(C.ItemsOf(log)))
  {
    hide C.Failing, C.Strict, C.Below, C.TasksIn, C.ItemsOf, C.Blocks, C.Buried, InOrder;
    C.FailingFails(was, log, max, reason, s);
    order := C.FailingConsumer(was, log, max, reason);
    C.BlocksInOrder(was.b.mode, order, max);
  }

  /**
    Dequeues and nacks until nothing is ready: each task is delivered as often as it has
    deliveries left, all in a row, tasks in the order of the mode, and ends in the dead-letter
    store.
   */
  method FailAll(queue: Queue, reason: Reason, clock: nat -> int)
    returns (delivered: seq<Task>, ghost order: seq<LM.Item>)
    requires queue.Valid() && !queue.closed && queue.backend.view.leases == map[]
    requires C.Strict(queue.backend.view.mode, queue.backend.view.ready)
    requires C.Below(queue.backend.view.ready, queue.maxAttempts)
    modifies queue.backend`leases, queue.backend`nextToken, queue.backend`view, queue.backend.ready`items,
             queue.backend.Items()`index, queue.backend.Items()`attempt, queue.deadLetter`tasks
    ensures queue.Valid() && queue.backend.view.ready == multiset{} && queue.backend.view.leases == map[]
    ensures C.Exhausts(old(queue.backend.view).mode, old(queue.backend.view).ready, queue.maxAttempts, order, delivered,
                       old(queue.deadLetter.tasks), queue.deadLetter.tasks)
    ensures old(queue.backend.view).mode == PriorityMode ==> forall i, j :: 0 <= i < j < |delivered| ==>
      && delivered[j].priority <= delivered[i].priority
      && (delivered[j].priority == delivered[i].priority ==> delivered[i].order <= delivered[j].order)
    ensures old(queue.backend.view).mode == FifoMode ==> forall i, j :: 0 <= i < j < |delivered| ==>
      delivered[i].order <= delivered[j].order
  {
    hide Agrees, Rounds, LM.Remaining, C.TasksIn, C.ItemsOf, C.Strict, C.Below, C.Exhausts, InOrder;
    ghost var was, log := queue.State(), [];
    delivered := [];
    NoRounds(was, queue.maxAttempts, reason);
    var next;
    next, log := FailRound(queue, reason, clock(0), was, log);
    while next.Some?
      invariant queue.Valid() && !queue.closed && Rounds(was, log, queue.State(), queue.maxAttempts, reason)
      invariant next.None? ==> queue.backend.view.ready == multiset{}
      invariant next.Some? ==> 0 <= LM.Remaining(queue.backend.view.ready, queue.maxAttempts)
      invariant C.TasksIn(C.ItemsOf(log)) == if next.Some? then delivered + [next.value] else delivered
      invariant forall x :: x in queue.backend.Items() ==> x in old(queue.backend.Items()) || fresh(x)
      decreases LM.Remaining(queue.backend.view.ready, queue.maxAttempts), next.Some?
    {
      delivered := delivered + [next.value];
      next, log := FailRound(queue, reason, clock(|delivered|), was, log);
    }
    order := Exhausted(was, log, queue.State(), queue.maxAttempts, reason);
    InOrderByFields(was.b.mode, delivered);
  }
}
