/** The in-memory backend, proved against the abstract backend of LeaseModel. */
module MemoryBackends {
  import opened Tasks
  import opened TaskHeaps
  import LM = LeaseModel

  datatype LeaseEntry = LeaseEntry(item: QueueItem, deadline: int)

  ghost function PickItem(m: multiset<QueueItem>): QueueItem
    requires m != multiset{}
    ensures PickItem(m) in m
  {
    var x :| x in m; x
  }

  /** The values of a bag of queue items, as a bag. */
  ghost function ItemsOf(m: multiset<QueueItem>): multiset<LM.Item>
    reads (set x | x in m)`attempt
    decreases |m|
  {
    if m == multiset{} then multiset{}
    else multiset{PickItem(m).Value()} + ItemsOf(m - multiset{PickItem(m)})
  }

  lemma {:induction false} ItemsAdd(m: multiset<QueueItem>, x: QueueItem)
    ensures ItemsOf(m + multiset{x}) == ItemsOf(m) + multiset{x.Value()}
    decreases |m|
  {
    var n := m + multiset{x};
    var y := PickItem(n);
    if y == x {
      assert n - multiset{y} == m;
    } else {
      var r := m - multiset{y};
      assert n - multiset{y} == r + multiset{x};
      assert m == r + multiset{y};
      ItemsAdd(r, x);
      ItemsAdd(r, y);
      LM.BagSwap(ItemsOf(r), y.Value(), x.Value());
    }
  }

  lemma {:induction false} ItemsHas(m: multiset<QueueItem>, v: LM.Item)
    ensures v in ItemsOf(m) <==> exists x :: x in m && x.Value() == v
    decreases |m|
  {
    if m != multiset{} {
      ItemsHas(m - multiset{PickItem(m)}, v);
    }
  }

  /** The values of the ready items. */
  ghost function ReadyBag(heap: TaskHeap): multiset<LM.Item>
    reads heap`items, heap.items`attempt
  {
    ItemsOf(multiset(heap.items))
  }

  /** Items that know their index occur once. */
  lemma IndexedDistinct(s: seq<QueueItem>)
    requires Indexed(s)
    ensures forall x :: x in s ==> multiset(s)[x] == 1
  {
    forall x | x in s
      ensures multiset(s)[x] == 1
    {
      var i := x.index;
      assert s == s[..i] + [x] + s[i + 1..];
      assert x !in s[..i] && x !in s[i + 1..];
    }
  }

  /** An item none of the others precedes has a least value. */
  lemma LeastValue(mode: Mode, items: multiset<QueueItem>, item: QueueItem)
    requires item in items && forall other :: other in items ==> !Before(mode, other.task, item.task)
    ensures LM.IsLeast(mode, item.Value(), ItemsOf(items))
  {
    forall v | v in ItemsOf(items)
      ensures !Before(mode, v.inc.task, item.task)
    {
      ItemsHas(items, v);
    }
    ItemsHas(items, item.Value());
  }

  /** Heap push, seen on values. */
  method PushValue(heap: TaskHeap, item: QueueItem)
    requires heap.Valid() && item !in heap.items
    modifies heap`items, heap.items`index, item`index
    ensures heap.Valid() && multiset(heap.items) == multiset(old(heap.items)) + multiset{item}
    ensures ReadyBag(heap) == old(ReadyBag(heap)) + multiset{item.Value()}
  {
    ItemsAdd(multiset(heap.items), item);
    heap.Push(item);
  }

  /** Heap pop, seen on values: the item taken is least. */
  method PopValue(heap: TaskHeap) returns (item: QueueItem)
    requires heap.Valid() && heap.items != []
    modifies heap`items, heap.items`index
    ensures heap.Valid() && item in old(heap.items)
    ensures multiset(heap.items) == multiset(old(heap.items)) - multiset{item} && item !in heap.items
    ensures LM.IsLeast(heap.mode, item.Value(), old(ReadyBag(heap)))
    ensures ReadyBag(heap) == old(ReadyBag(heap)) - multiset{item.Value()}
  {
    ghost var items := multiset(heap.items);
    IndexedDistinct(heap.items);
    item := heap.Pop();
    LeastValue(heap.mode, items, item);
    ItemsAdd(multiset(heap.items), item);
    LM.BagRemove(items, item);
    LM.BagRemove(ReadyBag(heap), item.Value());
  }

  /** Counts one more delivery of an item that is in no heap. */
  method CountDelivery(heap: TaskHeap, item: QueueItem)
    requires heap.Valid() && item !in heap.items
    modifies item`attempt
    ensures heap.Valid() && ReadyBag(heap) == old(ReadyBag(heap))
    ensures item.Value() == LM.Claimed(old(item.Value()))
  {
    item.attempt := item.attempt + 1;
  }

  // ---------- The lease table ----------

  ghost function ItemsIn(leases: map<nat, LeaseEntry>): set<QueueItem> {
    set t | t in leases :: leases[t].item
  }

  /** Tokens are below the next one, and no queue item is in two places. */
  ghost predicate Separate(leases: map<nat, LeaseEntry>, nextToken: nat, items: seq<QueueItem>) {
    && (forall t :: t in leases ==> t < nextToken && leases[t].item !in items)
    && (forall t, u :: t in leases && u in leases && t != u ==> leases[t].item != leases[u].item)
  }

  /** The abstract lease table has the same tokens, items and deadlines. */
  ghost predicate Mirrors(leases: map<nat, LeaseEntry>, view: map<nat, LM.Entry>)
    reads ItemsIn(leases)`attempt
  {
    && view.Keys == leases.Keys
    && (forall t :: t in leases ==> view[t] == LM.Entry(leases[t].item.Value(), leases[t].deadline))
  }

  lemma SeparatePush(leases: map<nat, LeaseEntry>, nextToken: nat, items: seq<QueueItem>, items': seq<QueueItem>,
                     item: QueueItem)
    requires Separate(leases, nextToken, items) && item !in ItemsIn(leases)
    requires multiset(items') == multiset(items) + multiset{item}
    ensures Separate(leases, nextToken, items')
    ensures forall x :: x in items' ==> x in items || x == item
  {
    forall x | x in items'
      ensures x in items || x == item
    {
      assert x in multiset(items');
    }
  }

  lemma SeparatePop(leases: map<nat, LeaseEntry>, nextToken: nat, items: seq<QueueItem>, items': seq<QueueItem>,
                    item: QueueItem, deadline: int)
    requires Separate(leases, nextToken, items) && item in items
    requires multiset(items') == multiset(items) - multiset{item} && item !in items'
    ensures Separate(leases[nextToken := LeaseEntry(item, deadline)], nextToken + 1, items')
    ensures forall x :: x in items' ==> x in items
  {
    forall x | x in items'
      ensures x in items
    {
      assert x in multiset(items');
    }
  }

  /** The heap and the lease table stand for the abstract backend. */
  ghost predicate Agrees(heap: TaskHeap, leases: map<nat, LeaseEntry>, nextToken: nat, view: LM.Backend)
    reads heap`items, heap.items`index, heap.items`attempt, ItemsIn(leases)`attempt
  {
    && heap.Valid()
    && Separate(leases, nextToken, heap.items)
    && Mirrors(leases, view.leases)
    && view.mode == heap.mode && view.ready == ReadyBag(heap) && view.nextToken == nextToken
  }

  lemma MirrorsInsert(leases: map<nat, LeaseEntry>, view: map<nat, LM.Entry>, token: nat, item: QueueItem,
                      deadline: int)
    requires Mirrors(leases, view)
    ensures Mirrors(leases[token := LeaseEntry(item, deadline)], view[token := LM.Entry(item.Value(), deadline)])
  {
  }

  /** What agreement says without looking at the items. */
  lemma AgreesOutside(heap: TaskHeap, leases: map<nat, LeaseEntry>, nextToken: nat, view: LM.Backend)
    requires Agrees(heap, leases, nextToken, view)
    ensures heap.items == [] <==> view.ready == multiset{}
    ensures view.leases.Keys == leases.Keys && view.nextToken == nextToken && view.mode == heap.mode
    ensures nextToken !in view.leases
  {
    if heap.items != [] {
      ItemsHas(multiset(heap.items), heap.items[0].Value());
    }
  }

  /** Pushes an item that is in no other place. */
  method PushApart(heap: TaskHeap, item: QueueItem, ghost leases: map<nat, LeaseEntry>, ghost nextToken: nat,
                   ghost view: LM.Backend)
    requires Agrees(heap, leases, nextToken, view)
    requires item !in heap.items && item !in ItemsIn(leases)
    modifies heap`items, heap.items`index, item`index
    ensures Agrees(heap, leases, nextToken, view.(ready := view.ready + multiset{item.Value()}))
    ensures forall x :: x in heap.items ==> x in old(heap.items) || x == item
  {
    ghost var items := heap.items;
    PushValue(heap, item);
    SeparatePush(leases, nextToken, items, heap.items, item);
  }

  /** Counts a delivery of an item that is in no other place, and enters its lease. */
  method CountApart(heap: TaskHeap, item: QueueItem, ghost leases: map<nat, LeaseEntry>, ghost view: map<nat, LM.Entry>,
                    ghost token: nat, ghost deadline: int)
    requires heap.Valid() && item !in heap.items && Mirrors(leases, view) && item !in ItemsIn(leases)
    modifies item`attempt
    ensures heap.Valid() && ReadyBag(heap) == old(ReadyBag(heap))
    ensures item.Value() == LM.Claimed(old(item.Value()))
    ensures Mirrors(leases[token := LeaseEntry(item, deadline)], view[token := LM.Entry(item.Value(), deadline)])
  {
    CountDelivery(heap, item);
    assert Mirrors(leases, view);
    MirrorsInsert(leases, view, token, item, deadline);
  }

  /** Pops a least item, which is then in no place. */
  method PopOut(heap: TaskHeap, ghost leases: map<nat, LeaseEntry>, ghost nextToken: nat, ghost view: LM.Backend,
                ghost deadline: int)
    returns (item: QueueItem, ghost value: LM.Item)
    requires Agrees(heap, leases, nextToken, view) && heap.items != []
    modifies heap`items, heap.items`index
    ensures item in old(heap.items) && item.Value() == value && LM.IsLeast(view.mode, value, view.ready)
    ensures heap.Valid() && item !in heap.items && ReadyBag(heap) == view.ready - multiset{value}
    ensures Mirrors(leases, view.leases) && item !in ItemsIn(leases)
    ensures Separate(leases[nextToken := LeaseEntry(item, deadline)], nextToken + 1, heap.items)
    ensures forall x :: x in heap.items ==> x in old(heap.items)
  {
    hide TaskHeap.Valid, ReadyBag, LM.IsLeast;
    ghost var items := heap.items;
    item := PopValue(heap);
    value := item.Value();
    SeparatePop(leases, nextToken, items, heap.items, item, deadline);
  }

  /** Pops a least item and counts its delivery; it can then be leased under the next token. */
  method PopApart(heap: TaskHeap, ghost leases: map<nat, LeaseEntry>, ghost nextToken: nat, ghost view: LM.Backend,
                  ghost deadline: int)
    returns (item: QueueItem, ghost value: LM.Item)
    requires Agrees(heap, leases, nextToken, view) && heap.items != []
    modifies heap`items, heap.items`index, heap.items`attempt
    ensures item in old(heap.items) && item.Value() == LM.Claimed(value)
    ensures LM.IsLeast(view.mode, value, view.ready)
    ensures Agrees(heap, leases[nextToken := LeaseEntry(item, deadline)], nextToken + 1,
                   LM.Claim(view, value, deadline))
    ensures forall x :: x in heap.items ==> x in old(heap.items)
  {
    hide TaskHeap.Valid, ReadyBag, Separate, Mirrors, ItemsIn, LM.IsLeast;
    item, value := PopOut(heap, leases, nextToken, view, deadline);
    CountApart(heap, item, leases, view.leases, nextToken, deadline);
  }

  /** A least ready item of b was leased out under a fresh token, giving b'. */
  ghost predicate Took(b: LM.Backend, b': LM.Backend, item: LM.Item, lease: LM.Lease, deadline: int) {
    && LM.IsLeast(b.mode, item, b.ready)
    && b' == LM.Claim(b, item, deadline)
    && lease == LM.ClaimLease(b, item, deadline)
  }

  /** What a claim takes, in the fields: the task of highest priority or lowest order, with its attempt counted. */
  lemma TookByFields(b: LM.Backend, b': LM.Backend, item: LM.Item, lease: LM.Lease, deadline: int)
    requires Took(b, b', item, lease, deadline)
    ensures item in b.ready && lease.token == b.nextToken
    ensures b.mode == PriorityMode ==> forall x :: x in b.ready ==> x.inc.task.priority <= lease.task.priority
    ensures b.mode == PriorityMode ==>
      forall x :: x in b.ready && x.inc.task.priority == lease.task.priority ==> lease.task.order <= x.inc.task.order
    ensures b.mode == FifoMode ==> forall x :: x in b.ready ==> lease.task.order <= x.inc.task.order
    ensures lease.task == item.inc.task && lease.attempt == item.attempt + 1 && lease.deadline == deadline
    ensures b'.mode == b.mode && b'.ready == b.ready - multiset{item}
    ensures b'.leases == b.leases[lease.token := LM.Entry(LM.Item(item.inc, lease.attempt), deadline)]
  {
    LM.LeastByFields(b.mode, item, b.ready);
    hide LM.IsLeast;
  }

  class MemoryBackend {
    const ready: TaskHeap
    var leases: map<nat, LeaseEntry>
    var nextToken: nat
    /** The abstract backend this object stands for. */
    ghost var view: LM.Backend

    ghost predicate Valid()
      reads this, ready`items, ready.items`index, ready.items`attempt, ItemsIn(leases)`attempt
    {
      Agrees(ready, leases, nextToken, view)
    }

    /** The queue items in the heap or under lease. */
    ghost function Items(): set<QueueItem>
      reads this`leases, ready`items
    {
      (set x | x in ready.items) + ItemsIn(leases)
    }

    constructor (mode: Mode)
      ensures Valid() && view == LM.Empty(mode)
      ensures view.mode == mode && view.ready == multiset{} && view.leases == map[]
      ensures fresh(ready) && ready.items == [] && leases == map[]
    {
      ready := new TaskHeap(mode);
      leases := map[];
      nextToken := 0;
      view := LM.Empty(mode);
    }

    /** Pushes an item that is in no other place; the view gains its value. */
    method Put(item: QueueItem, ghost nextUid: nat)
      requires Valid() && item !in ready.items && item !in ItemsIn(leases)
      modifies this`view, ready`items, ready.items`index, item`index
      ensures Valid() && view == old(view).(ready := old(view).ready + multiset{item.Value()}, nextUid := nextUid)
      ensures forall x :: x in ready.items ==> x in old(ready.items) || x == item
    {
      hide TaskHeap.Valid, ReadyBag, Mirrors, Separate;
      PushApart(ready, item, leases, nextToken, view);
      view := view.(ready := view.ready + multiset{item.Value()}, nextUid := nextUid);
    }

    /** Installs a lease table the heap already agrees with. */
    method Install(leases': map<nat, LeaseEntry>, nextToken': nat, ghost view': LM.Backend)
      requires Agrees(ready, leases', nextToken', view')
      modifies this`leases, this`nextToken, this`view
      ensures Valid() && leases == leases' && view == view'
    {
      hide TaskHeap.Valid, ReadyBag, Mirrors, Separate, ItemsIn;
      leases, nextToken, view := leases', nextToken', view';
    }

    method Enqueue(live: bool, task: Option<Task>) returns (status: Status)
      requires Valid()
      modifies this`view, ready`items, ready.items`index
      ensures Valid()
      ensures status == if !live then ContextDone else if task.None? then TaskNil else Ok
      ensures view == if status == Ok then LM.Enqueue(old(view), task.value) else old(view)
      ensures status == Ok ==>
        && view.ready == old(view).ready + multiset{LM.Item(LM.Incarnation(old(view).nextUid, task.value), 0)}
        && view.leases == old(view).leases && view.mode == old(view).mode
      ensures forall x :: x in ready.items ==> x in old(ready.items) || fresh(x)
    {
      hide TaskHeap.Valid, Separate, ReadyBag;
      if !live {
        return ContextDone;
      }
      if task.None? {
        return TaskNil;
      }
      var item := new QueueItem(task.value, view.nextUid);
      Put(item, view.nextUid + 1);
      return Ok;
    }

    /** The critical section of Claim: a least ready item is leased under a fresh token. */
    method TakeLeast(deadline: int) returns (lease: LM.Lease, ghost item: LM.Item)
      requires Valid() && ready.items != []
      modifies this`leases, this`nextToken, this`view, ready`items, ready.items`index, ready.items`attempt
      ensures Valid()
      ensures Took(old(view), view, item, lease, deadline)
      ensures Items() <= old(Items())
      ensures forall k :: 0 <= k < |ready.items| ==> ready.items[k] in old(ready.items)
    {
      hide Agrees;
      AgreesOutside(ready, leases, nextToken, view);
      var popped;
      popped, item := PopApart(ready, leases, nextToken, view, deadline);
      lease := LM.Lease(nextToken, popped.task, popped.attempt, deadline);
      Install(leases[nextToken := LeaseEntry(popped, deadline)], nextToken + 1, LM.Claim(view, item, deadline));
    }

    /** Takes a least ready item, counts the delivery and leases it under a fresh token. */
    method Claim(live: bool, now: int, visibility: int)
      returns (status: Status, lease: Option<LM.Lease>, ghost item: Option<LM.Item>)
      requires Valid()
      modifies this`leases, this`nextToken, this`view, ready`items, ready.items`index, ready.items`attempt
      ensures Valid()
      ensures status == if !live then ContextDone else if old(view).ready == multiset{} then QueueEmpty else Ok
      ensures status != Ok ==> view == old(view) && lease == None && ready.items == old(ready.items)
      ensures status == Ok ==>
        item.Some? && lease.Some? && Took(old(view), view, item.value, lease.value, now + visibility)
      ensures status == Ok && view.mode == PriorityMode ==>
        && (forall x :: x in old(view).ready ==> x.inc.task.priority <= lease.value.task.priority)
        && (forall x :: x in old(view).ready && x.inc.task.priority == lease.value.task.priority ==>
              lease.value.task.order <= x.inc.task.order)
      ensures status == Ok && view.mode == FifoMode ==>
        forall x :: x in old(view).ready ==> lease.value.task.order <= x.inc.task.order
      ensures status == Ok ==>
        && item.value in old(view).ready && lease.value.token !in old(view).leases
        && lease.value.task == item.value.inc.task && lease.value.attempt == item.value.attempt + 1
        && lease.value.deadline == now + visibility
        && view.ready == old(view).ready - multiset{item.value} && view.mode == old(view).mode
        && view.leases == old(view).leases[lease.value.token :=
             LM.Entry(LM.Item(item.value.inc, lease.value.attempt), now + visibility)]
      ensures Items() <= old(Items())
      ensures forall k :: 0 <= k < |ready.items| ==> ready.items[k] in old(ready.items)
    {
      hide Agrees, Took;
      AgreesOutside(ready, leases, nextToken, view);
      if !live {
        return ContextDone, None, None;
      }
      if |ready.items| == 0 {
        return QueueEmpty, None, None;
      }
      var taken;
      ghost var value;
      ghost var b := view;
      taken, value := TakeLeast(now + visibility);
      TookByFields(b, view, value, taken, now + visibility);
      return Ok, Some(taken), Some(value);
    }

    /** Deletes a lease; its item is then nowhere in the backend. */
    method Release(token: nat) returns (item: QueueItem)
      requires Valid() && token in leases
      modifies this`leases, this`nextToken, this`view
      ensures Valid() && view == LM.Drop(old(view), token)
      ensures leases == old(leases) - {token} && item == old(leases)[token].item
      ensures item !in ready.items && item !in ItemsIn(leases) && item.Value() == old(view).leases[token].item
    {
      item := leases[token].item;
      Install(leases - {token}, nextToken, LM.Drop(view, token));
    }

    /** Deletes a lease and pushes its item back. */
    method PutBack(token: nat)
      requires Valid() && token in leases
      modifies this`leases, this`nextToken, this`view, ready`items, ready.items`index, {leases[token].item}`index
      ensures Valid() && view == LM.Requeue(old(view), token) && leases == old(leases) - {token}
      ensures forall x :: x in ready.items ==> x in old(ready.items) || x == old(leases)[token].item
    {
      var item := Release(token);
      Put(item, view.nextUid);
    }

    method Ack(live: bool, token: nat) returns (status: Status)
      requires Valid()
      modifies this`leases, this`nextToken, this`view
      ensures Valid() && leases == if status == Ok then old(leases) - {token} else old(leases)
      ensures status == if !live then ContextDone else if token in old(view).leases then Ok else LeaseNotFound
      ensures view == if status == Ok then LM.Drop(old(view), token) else old(view)
      ensures status == Ok ==> view == old(view).(leases := old(view).leases - {token})
    {
      hide Agrees;
      AgreesOutside(ready, leases, nextToken, view);
      if !live {
        return ContextDone;
      }
      if token !in leases {
        return LeaseNotFound;
      }
      var item := Release(token);
      return Ok;
    }

    /** Releases a lease; with requeue its item becomes ready again, else it is dropped. */
    method Nack(live: bool, token: nat, requeue: bool) returns (status: Status)
      requires Valid()
      modifies this`leases, this`nextToken, this`view, ready`items, Items()`index
      ensures Valid() && leases == if status == Ok then old(leases) - {token} else old(leases)
      ensures status == if !live then ContextDone else if token in old(view).leases then Ok else LeaseNotFound
      ensures status != Ok ==> view == old(view)
      ensures status == Ok ==> view.leases == old(view).leases - {token} && view.mode == old(view).mode
      ensures status == Ok ==>
        view.ready == old(view).ready + if requeue then multiset{old(view).leases[token].item} else multiset{}
      ensures status == Ok && requeue ==> view == LM.Requeue(old(view), token)
      ensures status == Ok && !requeue ==> view == LM.Drop(old(view), token)
      ensures Items() <= old(Items())
    {
      hide Agrees;
      AgreesOutside(ready, leases, nextToken, view);
      if !live {
        return ContextDone;
      }
      if token !in leases {
        return LeaseNotFound;
      }
      if requeue {
        PutBack(token);
      } else {
        var item := Release(token);
      }
      return Ok;
    }

    /** Snapshots, in some order, of the leases whose deadline is at or before now; nothing changes. */
    method ReapExpired(live: bool, now: int) returns (status: Status, expired: seq<LM.Lease>)
      requires Valid()
      ensures status == if live then Ok else ContextDone
      ensures status != Ok ==> expired == []
      ensures status == Ok ==> LM.ExactlyExpired(view, expired, now)
      ensures status == Ok ==>
        && (set i | 0 <= i < |expired| :: expired[i].token)
           == (set t | t in view.leases && view.leases[t].deadline <= now)
        && (forall i, j :: 0 <= i < j < |expired| ==> expired[i].token != expired[j].token)
        && (forall i :: 0 <= i < |expired| ==>
              && expired[i].token in view.leases
              && expired[i].deadline == view.leases[expired[i].token].deadline
              && expired[i].task == view.leases[expired[i].token].item.inc.task
              && expired[i].attempt == view.leases[expired[i].token].item.attempt)
    {
      expired := [];
      if !live {
        return ContextDone, expired;
      }
      var todo := leases.Keys;
      while todo != {}
        invariant todo <= leases.Keys
        invariant forall i :: 0 <= i < |expired| ==>
          && expired[i].token !in todo
          && LM.Expired(view, expired[i].token, now)
          && expired[i] == LM.Snapshot(view, expired[i].token)
        invariant forall i, j :: 0 <= i < j < |expired| ==> expired[i].token != expired[j].token
        invariant forall t :: LM.Expired(view, t, now) && t !in todo ==> LM.Snapshot(view, t) in expired
        decreases todo
      {
        var token :| token in todo;
        var entry := leases[token];
        if entry.deadline <= now {
          expired := expired + [LM.Lease(token, entry.item.task, entry.item.attempt, entry.deadline)];
        }
        todo := todo - {token};
      }
      LM.ExpiredByFields(view, expired, now);
      return Ok, expired;
    }
  }
}
