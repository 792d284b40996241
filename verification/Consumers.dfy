/** Whole runs of a sole consumer: draining the ready tasks, and failing every delivery. */
module Consumers {
  import opened Tasks
  import opened DeadLetters
  import opened QueuePolicy
  import LM = LeaseModel

  /** One successful Dequeue, and for a failing consumer the time of its Nack. */
  datatype Delivery = Delivery(item: LM.Item, deadline: int, now: int)

  function TasksIn(items: seq<LM.Item>): seq<Task> {
    seq(|items|, i requires 0 <= i < |items| => items[i].inc.task)
  }

  function ItemsOf(log: seq<Delivery>): seq<LM.Item> {
    seq(|log|, i requires 0 <= i < |log| => log[i].item)
  }

  // ---------- There is always something to claim ----------

  /** A backend with ready tasks has a least one. */
  lemma {:induction false} LeastExists(mode: Mode, ready: multiset<LM.Item>) returns (least: LM.Item)
    requires ready != multiset{}
    ensures LM.IsLeast(mode, least, ready)
    decreases |ready|
  {
    var item := LM.Pick(ready);
    var rest := ready - multiset{item};
    least := item;
    BeforeIsStrictWeakOrder(mode, item.inc.task, item.inc.task, item.inc.task);
    LM.BagRemove(ready, item);
    if rest != multiset{} {
      var other := LeastExists(mode, rest);
      least := if Before(mode, other.inc.task, item.inc.task) then other else item;
      hide Before;
      forall x | x in ready
        ensures !Before(mode, x.inc.task, least.inc.task)
      {
        assert x == item || x in rest;
        BeforeIsStrictWeakOrder(mode, item.inc.task, other.inc.task, x.inc.task);
        BeforeIsStrictWeakOrder(mode, other.inc.task, item.inc.task, x.inc.task);
      }
    }
  }

  // ---------- Draining ----------

  /** Claims, with no enqueue or requeue in between, until nothing is ready. */
  ghost predicate Drains(b: LM.Backend, log: seq<Delivery>)
    decreases |log|
  {
    if log == [] then b.ready == multiset{}
    else LM.IsLeast(b.mode, log[0].item, b.ready) && Drains(LM.Claim(b, log[0].item, log[0].deadline), log[1..])
  }

  lemma SortedPrepend(mode: Mode, ready: multiset<LM.Item>, item: LM.Item, rest: seq<LM.Item>)
    requires LM.IsLeast(mode, item, ready)
    requires multiset(rest) == ready - multiset{item} && InOrder(mode, TasksIn(rest))
    ensures multiset([item] + rest) == ready && InOrder(mode, TasksIn([item] + rest))
  {
    assert TasksIn([item] + rest) == [item.inc.task] + TasksIn(rest);
    forall k | 0 <= k < |rest|
      ensures !Before(mode, rest[k].inc.task, item.inc.task)
    {
      assert rest[k] in multiset(rest);
    }
  }

  lemma ItemsOfFirst(log: seq<Delivery>)
    requires log != []
    ensures ItemsOf(log) == [log[0].item] + ItemsOf(log[1..])
  {
  }

  /**
    Draining sorts: every ready item is delivered exactly once, in the order of the mode. That is,
    priorities never rise and within one priority the order never falls, or in FIFO mode the order
    never falls at all.
   */
  lemma DrainSorts(b: LM.Backend, log: seq<Delivery>)
    requires Drains(b, log)
    ensures multiset(ItemsOf(log)) == b.ready
    ensures InOrder(b.mode, TasksIn(ItemsOf(log)))
    ensures forall i, j :: 0 <= i < j < |log| ==>
      var a, b' := log[i].item.inc.task, log[j].item.inc.task;
      if b.mode == PriorityMode then b'.priority < a.priority || (b'.priority == a.priority && a.order <= b'.order)
      else a.order <= b'.order
  {
    DrainOrdered(b, log);
    hide InOrder;
    var tasks := TasksIn(ItemsOf(log));
    InOrderByFields(b.mode, tasks);
    assert forall i :: 0 <= i < |log| ==> tasks[i] == log[i].item.inc.task;
  }

  lemma {:induction false} DrainOrdered(b: LM.Backend, log: seq<Delivery>)
    requires Drains(b, log)
    ensures multiset(ItemsOf(log)) == b.ready
    ensures InOrder(b.mode, TasksIn(ItemsOf(log)))
    decreases |log|
  {
    if log != [] {
      DrainOrdered(LM.Claim(b, log[0].item, log[0].deadline), log[1..]);
      ItemsOfFirst(log);
      hide InOrder, TasksIn, ItemsOf;
      SortedPrepend(b.mode, b.ready, log[0].item, ItemsOf(log[1..]));
    }
  }

  /** The claims of the log, in this order, take b to b'. */
  ghost predicate Claiming(b: LM.Backend, log: seq<Delivery>, b': LM.Backend)
    decreases |log|
  {
    if log == [] then b' == b
    else
      && LM.IsLeast(b.mode, log[0].item, b.ready)
      && Claiming(LM.Claim(b, log[0].item, log[0].deadline), log[1..], b')
  }

  lemma {:induction false} ClaimingMore(b: LM.Backend, log: seq<Delivery>, b': LM.Backend, d: Delivery)
    requires Claiming(b, log, b') && LM.IsLeast(b'.mode, d.item, b'.ready)
    ensures Claiming(b, log + [d], LM.Claim(b', d.item, d.deadline))
    decreases |log|
  {
    hide Before;
    if log == [] {
      assert log + [d] == [d] && [d][1..] == [];
    } else {
      assert (log + [d])[0] == log[0] && (log + [d])[1..] == log[1..] + [d];
      ClaimingMore(LM.Claim(b, log[0].item, log[0].deadline), log[1..], b', d);
    }
  }

  /** Claims until nothing is ready are a drain. */
  lemma {:induction false} ClaimingDrains(b: LM.Backend, log: seq<Delivery>, b': LM.Backend)
    requires Claiming(b, log, b') && b'.ready == multiset{}
    ensures Drains(b, log) && b'.mode == b.mode
    decreases |log|
  {
    hide Before;
    if log != [] {
      ClaimingDrains(LM.Claim(b, log[0].item, log[0].deadline), log[1..], b');
    }
  }

  // ---------- Failing every delivery ----------

  /** Dequeue of this item, then Nack of its claim. */
  function Round(s: Store, d: Delivery, max: nat, reason: Reason): Store
    requires d.item in s.b.ready
  {
    Route(Store(LM.Claim(s.b, d.item, d.deadline), s.dlq), LM.ClaimLease(s.b, d.item, d.deadline), max, reason, d.now)
  }

  /** Rounds until nothing is ready. */
  ghost predicate Fails(s: Store, log: seq<Delivery>, max: nat, reason: Reason)
    decreases |log|
  {
    if log == [] then s.b.ready == multiset{}
    else LM.IsLeast(s.b.mode, log[0].item, s.b.ready) && Fails(Round(s, log[0], max, reason), log[1..], max, reason)
  }

  ghost function AfterFailing(s: Store, log: seq<Delivery>, max: nat, reason: Reason): Store
    requires Fails(s, log, max, reason)
    decreases |log|
  {
    if log == [] then s else AfterFailing(Round(s, log[0], max, reason), log[1..], max, reason)
  }

  /** Distinct items have distinct task IDs and one is strictly before the other. */
  ghost predicate Strict(mode: Mode, ready: multiset<LM.Item>) {
    && (forall x :: x in ready ==> ready[x] == 1)
    && (forall x, y :: x in ready && y in ready && x != y ==>
          && x.inc.task.id != y.inc.task.id
          && (Before(mode, x.inc.task, y.inc.task) || Before(mode, y.inc.task, x.inc.task)))
  }

  ghost predicate Below(ready: multiset<LM.Item>, max: nat) {
    forall x :: x in ready ==> x.attempt < max
  }

  predicate AllBelow(order: seq<LM.Item>, max: nat) {
    forall i :: 0 <= i < |order| ==> order[i].attempt < max
  }

  function Repeat(task: Task, n: nat): seq<Task> {
    seq(n, i => task)
  }

  /** Each item's task as often as it has deliveries left, items in this order. */
  function Blocks(order: seq<LM.Item>, max: nat): seq<Task>
    requires AllBelow(order, max)
  {
    if order == [] then []
    else Repeat(order[0].inc.task, max - order[0].attempt) + Blocks(order[1..], max)
  }

  lemma {:induction false} BlocksHave(order: seq<LM.Item>, max: nat, task: Task)
    requires AllBelow(order, max) && task in Blocks(order, max)
    ensures exists i :: 0 <= i < |order| && order[i].inc.task == task
  {
    if order != [] && task != order[0].inc.task {
      BlocksHave(order[1..], max, task);
      var i :| 0 <= i < |order[1..]| && order[1..][i].inc.task == task;
      assert order[i + 1].inc.task == task;
    }
  }

  /** Repeating each task in place keeps the order. */
  lemma {:induction false} BlocksInOrder(mode: Mode, order: seq<LM.Item>, max: nat)
    requires AllBelow(order, max) && InOrder(mode, TasksIn(order))
    ensures InOrder(mode, Blocks(order, max))
  {
    hide Before;
    if order != [] {
      TailInOrder(mode, order);
      BlocksInOrder(mode, order[1..], max);
      var first, rest := order[0].inc.task, Blocks(order[1..], max);
      forall k | 0 <= k < |rest|
        ensures !Before(mode, rest[k], first)
      {
        BlocksHave(order[1..], max, rest[k]);
        var i :| 0 <= i < |order[1..]| && order[1..][i].inc.task == rest[k];
        assert TasksIn(order)[i + 1] == rest[k] && TasksIn(order)[0] == first;
      }
      BeforeIsStrictWeakOrder(mode, first, first, first);
    }
  }

  function Ids(items: seq<LM.Item>): set<nat> {
    set i | 0 <= i < |items| :: items[i].inc.task.id
  }

  /** The ready items after a round. */
  function NextReady(ready: multiset<LM.Item>, item: LM.Item, max: nat): multiset<LM.Item> {
    if item.attempt + 1 < max then ready - multiset{item} + multiset{LM.Claimed(item)} else ready - multiset{item}
  }

  lemma RoundEffect(s: Store, d: Delivery, max: nat, reason: Reason)
    requires d.item in s.b.ready && s.b.leases == map[]
    ensures var s' := Round(s, d, max, reason);
      && s'.b.leases == map[] && s'.b.mode == s.b.mode && s'.b.ready == NextReady(s.b.ready, d.item, max)
      && s'.dlq == if d.item.attempt + 1 < max then s.dlq
                   else s.dlq[d.item.inc.task.id := Dead(d.item.inc.task, reason, d.now)]
  {
  }

  /** Nothing else in a strict bag has the ID of one of its items. */
  lemma StrictOthers(mode: Mode, ready: multiset<LM.Item>, item: LM.Item, y: LM.Item)
    requires Strict(mode, ready) && item in ready && y in ready && y != item
    ensures y.inc.task.id != item.inc.task.id
    ensures Before(mode, item.inc.task, y.inc.task) || Before(mode, y.inc.task, item.inc.task)
  {
  }

  lemma StrictLess(mode: Mode, ready: multiset<LM.Item>, item: LM.Item)
    requires Strict(mode, ready) && item in ready
    ensures Strict(mode, ready - multiset{item}) && item !in ready - multiset{item}
  {
    hide Before;
  }

  /** Counting a delivery changes neither the ID nor the place in the order. */
  lemma StrictAgain(mode: Mode, rest: multiset<LM.Item>, item: LM.Item)
    requires Strict(mode, rest)
    requires forall y :: y in rest ==>
      && y.inc.task.id != item.inc.task.id
      && (Before(mode, item.inc.task, y.inc.task) || Before(mode, y.inc.task, item.inc.task))
    ensures Strict(mode, rest + multiset{LM.Claimed(item)})
  {
    hide Before;
    assert LM.Claimed(item) !in rest;
  }

  lemma StrictKept(mode: Mode, ready: multiset<LM.Item>, item: LM.Item, max: nat)
    requires Strict(mode, ready) && Below(ready, max) && item in ready
    ensures Strict(mode, NextReady(ready, item, max)) && Below(NextReady(ready, item, max), max)
  {
    StrictLess(mode, ready, item);
    forall y | y in ready - multiset{item}
      ensures y.inc.task.id != item.inc.task.id
      ensures Before(mode, item.inc.task, y.inc.task) || Before(mode, y.inc.task, item.inc.task)
    {
      StrictOthers(mode, ready, item, y);
    }
    hide Strict, Before;
    if item.attempt + 1 < max {
      StrictAgain(mode, ready - multiset{item}, item);
    }
  }

  /** What is strictly before everything else comes first. */
  lemma FirstInOrder(mode: Mode, bag: multiset<LM.Item>, first: LM.Item, order: seq<LM.Item>)
    requires first in bag && forall y :: y in bag && y != first ==> Before(mode, first.inc.task, y.inc.task)
    requires multiset(order) == bag && InOrder(mode, TasksIn(order))
    ensures order != [] && order[0] == first && multiset(order[1..]) == bag - multiset{first}
  {
    hide Before;
    assert first in multiset(order);
    assert order == [order[0]] + order[1..];
    var k :| 0 <= k < |order| && order[k] == first;
    assert order[0] in multiset(order);
    assert k == 0 || !Before(mode, TasksIn(order)[k], TasksIn(order)[0]);
  }

  /** The item just returned to ready comes first again. */
  lemma FirstAgain(mode: Mode, ready: multiset<LM.Item>, item: LM.Item, max: nat, order: seq<LM.Item>)
    requires Strict(mode, ready) && LM.IsLeast(mode, item, ready) && item.attempt + 1 < max
    requires multiset(order) == NextReady(ready, item, max) && InOrder(mode, TasksIn(order))
    ensures order != [] && order[0] == LM.Claimed(item)
    ensures multiset(order[1..]) == ready - multiset{item}
  {
    hide Before, InOrder, TasksIn;
    FirstInOrder(mode, NextReady(ready, item, max), LM.Claimed(item), order);
    LM.BagRemove(ready - multiset{item}, LM.Claimed(item));
  }

  lemma TailInOrder(mode: Mode, order: seq<LM.Item>)
    requires InOrder(mode, TasksIn(order)) && order != []
    ensures InOrder(mode, TasksIn(order[1..]))
  {
    assert TasksIn(order[1..]) == TasksIn(order)[1..];
  }

  /** One delivery in front of the blocks that start with the redelivered item. */
  lemma BlocksAgain(item: LM.Item, rest: seq<LM.Item>, max: nat)
    requires item.attempt + 1 < max && AllBelow(rest, max)
    ensures AllBelow([item] + rest, max) && AllBelow([LM.Claimed(item)] + rest, max)
    ensures Blocks([item] + rest, max) == [item.inc.task] + Blocks([LM.Claimed(item)] + rest, max)
  {
    assert ([item] + rest)[1..] == rest && ([LM.Claimed(item)] + rest)[1..] == rest;
    var task, n := item.inc.task, max - item.attempt;
    assert Repeat(task, n) == [task] + Repeat(task, n - 1);
  }

  /** The last delivery of an item is its whole block. */
  lemma BlocksLast(item: LM.Item, rest: seq<LM.Item>, max: nat)
    requires item.attempt + 1 == max && AllBelow(rest, max)
    ensures AllBelow([item] + rest, max)
    ensures Blocks([item] + rest, max) == [item.inc.task] + Blocks(rest, max)
  {
    assert ([item] + rest)[1..] == rest;
    assert Repeat(item.inc.task, 1) == [item.inc.task];
  }

  lemma IdsFirst(item: LM.Item, rest: seq<LM.Item>)
    ensures Ids([item] + rest) == {item.inc.task.id} + Ids(rest)
  {
    var all := [item] + rest;
    assert forall i :: 0 <= i < |rest| ==> all[i + 1] == rest[i];
    assert all[0] == item;
  }

  lemma TasksFirst(log: seq<Delivery>)
    requires log != []
    ensures TasksIn(ItemsOf(log)) == [log[0].item.inc.task] + TasksIn(ItemsOf(log[1..]))
  {
  }

  /** The dead-letter store after a failing run: these items died, nothing else changed. */
  ghost predicate Buried(dlq: map<nat, DeadTask>, dlq': map<nat, DeadTask>, order: seq<LM.Item>) {
    && dlq'.Keys == dlq.Keys + Ids(order)
    && (forall id :: id in dlq && id !in Ids(order) ==> dlq'[id] == dlq[id])
    && (forall i :: 0 <= i < |order| ==>
          order[i].inc.task.id in dlq' && dlq'[order[i].inc.task.id].task == order[i].inc.task)
  }

  lemma BuriedFirst(dlq: map<nat, DeadTask>, dead: DeadTask, dlq': map<nat, DeadTask>, item: LM.Item,
                    rest: seq<LM.Item>)
    requires dead.task == item.inc.task && item.inc.task.id !in Ids(rest)
    requires Buried(dlq[item.inc.task.id := dead], dlq', rest)
    ensures Buried(dlq, dlq', [item] + rest)
  {
    IdsFirst(item, rest);
    hide Ids;
    assert forall i :: 0 < i < |rest| + 1 ==> ([item] + rest)[i] == rest[i - 1];
  }

  lemma IdNotInRest(mode: Mode, ready: multiset<LM.Item>, item: LM.Item, rest: seq<LM.Item>)
    requires Strict(mode, ready) && item in ready && multiset(rest) == ready - multiset{item}
    ensures item.inc.task.id !in Ids(rest)
  {
    forall i | 0 <= i < |rest|
      ensures rest[i].inc.task.id != item.inc.task.id
    {
      assert rest[i] in multiset(rest);
    }
  }

  lemma BuriedAgain(dlq: map<nat, DeadTask>, dlq': map<nat, DeadTask>, item: LM.Item, rest: seq<LM.Item>)
    requires Buried(dlq, dlq', [LM.Claimed(item)] + rest)
    ensures Buried(dlq, dlq', [item] + rest)
  {
    IdsFirst(item, rest);
    IdsFirst(LM.Claimed(item), rest);
    hide Ids;
    forall i | 0 <= i < |rest| + 1
      ensures ([item] + rest)[i].inc == ([LM.Claimed(item)] + rest)[i].inc
    {
    }
  }

  /** What a failing run of a set of ready items has to show: an order, the tasks delivered, the dead-letter store. */
  ghost predicate Exhausts(mode: Mode, ready: multiset<LM.Item>, max: nat, order: seq<LM.Item>, tasks: seq<Task>,
                           dlq: map<nat, DeadTask>, dlq': map<nat, DeadTask>) {
    && multiset(order) == ready && InOrder(mode, TasksIn(order))
    && AllBelow(order, max) && tasks == Blocks(order, max)
    && Buried(dlq, dlq', order)
  }

  lemma AllBelowTail(order: seq<LM.Item>, max: nat)
    requires AllBelow(order, max) && order != []
    ensures AllBelow(order[1..], max)
  {
  }

  /** A round in which the item goes back to ready. */
  lemma ExhaustsAgain(mode: Mode, ready: multiset<LM.Item>, item: LM.Item, max: nat, rest: seq<LM.Item>,
                      tasks: seq<Task>, dlq: map<nat, DeadTask>, dlq': map<nat, DeadTask>)
    requires Strict(mode, ready) && LM.IsLeast(mode, item, ready) && item.attempt + 1 < max
    requires Exhausts(mode, NextReady(ready, item, max), max, rest, tasks, dlq, dlq')
    ensures rest != []
    ensures Exhausts(mode, ready, max, [item] + rest[1..], [item.inc.task] + tasks, dlq, dlq')
  {
    hide InOrder, TasksIn, Before, Strict, LM.IsLeast, Blocks, Buried, NextReady, AllBelow;
    FirstAgain(mode, ready, item, max, rest);
    TailInOrder(mode, rest);
    AllBelowTail(rest, max);
    var tail := rest[1..];
    assert rest == [LM.Claimed(item)] + tail;
    BlocksAgain(item, tail, max);
    BuriedAgain(dlq, dlq', item, tail);
    SortedPrepend(mode, ready, item, tail);
  }

  /** A round in which the item dies. */
  lemma ExhaustsLast(mode: Mode, ready: multiset<LM.Item>, item: LM.Item, max: nat, rest: seq<LM.Item>,
                     tasks: seq<Task>, dlq: map<nat, DeadTask>, dlq': map<nat, DeadTask>, dead: DeadTask)
    requires Strict(mode, ready) && LM.IsLeast(mode, item, ready) && item.attempt + 1 == max
    requires dead.task == item.inc.task
    requires Exhausts(mode, NextReady(ready, item, max), max, rest, tasks, dlq[item.inc.task.id := dead], dlq')
    ensures Exhausts(mode, ready, max, [item] + rest, [item.inc.task] + tasks, dlq, dlq')
  {
    IdNotInRest(mode, ready, item, rest);
    hide InOrder, TasksIn, Before, Strict, LM.IsLeast, Blocks, Buried;
    BlocksLast(item, rest, max);
    BuriedFirst(dlq, dead, dlq', item, rest);
    SortedPrepend(mode, ready, item, rest);
  }

  lemma NothingExhausts(mode: Mode, max: nat, dlq: map<nat, DeadTask>)
    ensures Exhausts(mode, multiset{}, max, [], TasksIn(ItemsOf([])), dlq, dlq)
  {
  }

  lemma BelowHere(ready: multiset<LM.Item>, item: LM.Item, max: nat, mode: Mode)
    requires Below(ready, max) && LM.IsLeast(mode, item, ready)
    ensures item in ready && item.attempt < max
  {
  }

  /**
    A sole consumer that fails every delivery: each task is delivered as often as it has
    deliveries left, all in a row, tasks in the order of the mode; in the end nothing is ready or
    leased, and the dead-letter store has gained exactly these tasks.
   */
  lemma {:induction false} FailingConsumer(s: Store, log: seq<Delivery>, max: nat, reason: Reason)
    returns (order: seq<LM.Item>)
    requires Fails(s, log, max, reason) && s.b.leases == map[]
    requires Strict(s.b.mode, s.b.ready) && Below(s.b.ready, max)
    ensures var t := AfterFailing(s, log, max, reason);
      && t.b.ready == multiset{} && t.b.leases == map[]
      && Exhausts(s.b.mode, s.b.ready, max, order, TasksIn(ItemsOf(log)), s.dlq, t.dlq)
    decreases |log|
  {
    hide TasksIn, ItemsOf, Strict, Below, Round, Exhausts, LM.IsLeast, Before, NextReady;
    if log == [] {
      order := [];
      NothingExhausts(s.b.mode, max, s.dlq);
    } else {
      var item := log[0].item;
      BelowHere(s.b.ready, item, max, s.b.mode);
      var s' := Round(s, log[0], max, reason);
      var dlq' := AfterFailing(s, log, max, reason).dlq;
      RoundEffect(s, log[0], max, reason);
      StrictKept(s.b.mode, s.b.ready, item, max);
      TasksFirst(log);
      var rest := FailingConsumer(s', log[1..], max, reason);
      var tasks := TasksIn(ItemsOf(log[1..]));
      if item.attempt + 1 < max {
        ExhaustsAgain(s.b.mode, s.b.ready, item, max, rest, tasks, s.dlq, dlq');
        order := [item] + rest[1..];
      } else {
        ExhaustsLast(s.b.mode, s.b.ready, item, max, rest, tasks, s.dlq, dlq', Dead(item.inc.task, reason, log[0].now));
        order := [item] + rest;
      }
    }
  }

  /** Such a run exists from every store, and takes exactly the deliveries left. */
  lemma {:induction false} FailingRunExists(s: Store, max: nat, reason: Reason) returns (log: seq<Delivery>)
    requires s.b.leases == map[] && Below(s.b.ready, max)
    ensures Fails(s, log, max, reason) && |log| == LM.Remaining(s.b.ready, max)
    decreases LM.Remaining(s.b.ready, max)
  {
    if s.b.ready == multiset{} {
      log := [];
    } else {
      var item := LeastExists(s.b.mode, s.b.ready);
      var d := Delivery(item, 0, 0);
      RoundEffect(s, d, max, reason);
      RemainingRound(s.b.ready, item, max);
      var rest := FailingRunExists(Round(s, d, max, reason), max, reason);
      log := [d] + rest;
      assert log[1..] == rest;
    }
  }

  lemma RemainingRound(ready: multiset<LM.Item>, item: LM.Item, max: nat)
    requires item in ready && Below(ready, max)
    ensures Below(NextReady(ready, item, max), max)
    ensures 0 <= LM.Remaining(NextReady(ready, item, max), max) == LM.Remaining(ready, max) - 1
  {
    var rest := ready - multiset{item};
    LM.BagRemove(ready, item);
    LM.RemainingAdd(rest, item, max);
    LM.RemainingAdd(rest, LM.Claimed(item), max);
    LM.RemainingNonNegative(NextReady(ready, item, max), max);
  }

  // ---------- Failing, round by round ----------

  /** The rounds of the log, in this order, take s to s'. */
  ghost predicate Failing(s: Store, log: seq<Delivery>, max: nat, reason: Reason, s': Store)
    decreases |log|
  {
    if log == [] then s' == s
    else
      && LM.IsLeast(s.b.mode, log[0].item, s.b.ready)
      && Failing(Round(s, log[0], max, reason), log[1..], max, reason, s')
  }

  lemma {:induction false} FailingMore(s: Store, log: seq<Delivery>, max: nat, reason: Reason, s': Store, d: Delivery)
    requires Failing(s, log, max, reason, s') && LM.IsLeast(s'.b.mode, d.item, s'.b.ready)
    ensures Failing(s, log + [d], max, reason, Round(s', d, max, reason))
    decreases |log|
  {
    hide Route;
    if log == [] {
      assert log + [d] == [d] && [d][1..] == [];
    } else {
      assert (log + [d])[0] == log[0] && (log + [d])[1..] == log[1..] + [d];
      FailingMore(Round(s, log[0], max, reason), log[1..], max, reason, s', d);
    }
  }

  /** Rounds until nothing is ready are a failing run. */
  lemma {:induction false} FailingFails(s: Store, log: seq<Delivery>, max: nat, reason: Reason, s': Store)
    requires Failing(s, log, max, reason, s') && s'.b.ready == multiset{}
    ensures Fails(s, log, max, reason) && AfterFailing(s, log, max, reason) == s'
    decreases |log|
  {
    hide Route;
    if log != [] {
      FailingFails(Round(s, log[0], max, reason), log[1..], max, reason, s');
    }
  }
}
