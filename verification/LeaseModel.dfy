/**
  The abstract backend: a bag of ready items with "take a least element" and a table of leases.
  The heap-backed class in MemoryBackend.dfy is proved to refine it, and the concurrent
  protocol in LeaseProtocol.dfy is built from it.
 */
module LeaseModel {
  import opened Tasks

  /** One incarnation of a task in the backend; uid stands for the address of its queue item. */
  datatype Incarnation = Incarnation(uid: nat, task: Task)

  datatype Item = Item(inc: Incarnation, attempt: nat)

  datatype Entry = Entry(item: Item, deadline: int)

  /** The immutable snapshot handed out by Claim and by ReapExpired. */
  datatype Lease = Lease(token: nat, task: Task, attempt: nat, deadline: int)

  datatype Backend = Backend(
    mode: Mode,
    ready: multiset<Item>,
    leases: map<nat, Entry>,
    nextToken: nat,
    nextUid: nat)

  // ---------- The backend operations ----------

  function Empty(mode: Mode): Backend {
    Backend(mode, multiset{}, map[], 0, 0)
  }

  function Enqueue(b: Backend, task: Task): Backend {
    b.(ready := b.ready + multiset{Item(Incarnation(b.nextUid, task), 0)}, nextUid := b.nextUid + 1)
  }

  /** Nothing ready comes strictly before the item. */
  ghost predicate IsLeast(mode: Mode, item: Item, ready: multiset<Item>) {
    item in ready && forall other :: other in ready ==> !Before(mode, other.inc.task, item.inc.task)
  }

  /** What being least means in the fields of the tasks. */
  lemma LeastByFields(mode: Mode, item: Item, ready: multiset<Item>)
    requires IsLeast(mode, item, ready)
    ensures mode == PriorityMode ==> forall x :: x in ready ==> x.inc.task.priority <= item.inc.task.priority
    ensures mode == PriorityMode ==> forall x :: x in ready && x.inc.task.priority == item.inc.task.priority ==>
      item.inc.task.order <= x.inc.task.order
    ensures mode == FifoMode ==> forall x :: x in ready ==> item.inc.task.order <= x.inc.task.order
  {
  }

  function Claimed(item: Item): Item {
    item.(attempt := item.attempt + 1)
  }

  function Claim(b: Backend, item: Item, deadline: int): Backend
    requires item in b.ready
  {
    b.(ready := b.ready - multiset{item},
       leases := b.leases[b.nextToken := Entry(Claimed(item), deadline)],
       nextToken := b.nextToken + 1)
  }

  function ClaimLease(b: Backend, item: Item, deadline: int): Lease {
    Lease(b.nextToken, item.inc.task, item.attempt + 1, deadline)
  }

  /** Ack, and Nack without requeue: the lease and its item leave the backend. */
  function Drop(b: Backend, token: nat): Backend {
    if token !in b.leases then b else b.(leases := b.leases - {token})
  }

  /** Nack with requeue: the item goes back to ready with its attempt count kept. */
  function Requeue(b: Backend, token: nat): Backend {
    if token !in b.leases then b
    else b.(leases := b.leases - {token}, ready := b.ready + multiset{b.leases[token].item})
  }

  function Snapshot(b: Backend, token: nat): Lease
    requires token in b.leases
  {
    var e := b.leases[token];
    Lease(token, e.item.inc.task, e.item.attempt, e.deadline)
  }

  predicate Expired(b: Backend, token: nat, now: int) {
    token in b.leases && b.leases[token].deadline <= now
  }

  /** A snapshot of exactly the leases of b that have expired, each once. */
  ghost predicate ExactlyExpired(b: Backend, expired: seq<Lease>, now: int) {
    && (forall i :: 0 <= i < |expired| ==>
          Expired(b, expired[i].token, now) && expired[i] == Snapshot(b, expired[i].token))
    && (forall i, j :: 0 <= i < j < |expired| ==> expired[i].token != expired[j].token)
    && (forall t :: Expired(b, t, now) ==> Snapshot(b, t) in expired)
  }

  /** The same in the fields of the table: the tokens due, and what the table says of each. */
  lemma ExpiredByFields(b: Backend, expired: seq<Lease>, now: int)
    requires ExactlyExpired(b, expired, now)
    ensures (set i | 0 <= i < |expired| :: expired[i].token) == set t | t in b.leases && b.leases[t].deadline <= now
    ensures forall i :: 0 <= i < |expired| ==>
      && expired[i].token in b.leases
      && expired[i].deadline == b.leases[expired[i].token].deadline <= now
      && expired[i].task == b.leases[expired[i].token].item.inc.task
      && expired[i].attempt == b.leases[expired[i].token].item.attempt
  {
    forall t | t in b.leases && b.leases[t].deadline <= now
      ensures exists i :: 0 <= i < |expired| && expired[i].token == t
    {
      var i :| 0 <= i < |expired| && expired[i] == Snapshot(b, t);
    }
  }

  // ---------- Counting items ----------

  /** The items under lease, as a bag. */
  ghost function Held(leases: map<nat, Entry>): multiset<Item>
    decreases |leases|
  {
    if leases == map[] then multiset{}
    else
      var t :| t in leases;
      multiset{leases[t].item} + Held(leases - {t})
  }

  /** Every item the backend holds, ready or leased. */
  ghost function Live(b: Backend): multiset<Item> {
    b.ready + Held(b.leases)
  }

  /** Regrouping of bags, used where the verifier would otherwise search for it. */
  lemma BagSwap<T>(m: multiset<T>, x: T, y: T)
    ensures multiset{x} + (m + multiset{y}) == (m + multiset{x}) + multiset{y}
  {
  }

  lemma BagMove<T>(a: multiset<T>, b: multiset<T>, c: multiset<T>, x: T)
    ensures (a + b + c) + multiset{x} == (a + multiset{x}) + b + c
    ensures (a + multiset{x}) + b + c == a + (b + multiset{x}) + c
    ensures (a + multiset{x}) + b + c == a + b + (c + multiset{x})
  {
  }

  lemma BagRemove<T>(m: multiset<T>, x: T)
    ensures (m + multiset{x}) - multiset{x} == m
    ensures x in m ==> m - multiset{x} + multiset{x} == m
  {
  }

  lemma {:induction false} HeldRemove(leases: map<nat, Entry>, t: nat)
    requires t in leases
    ensures Held(leases) == Held(leases - {t}) + multiset{leases[t].item}
    decreases |leases|
  {
    var u :| u in leases && Held(leases) == multiset{leases[u].item} + Held(leases - {u});
    if u != t {
      var rest := leases - {u, t};
      assert leases - {u} - {t} == rest && leases - {t} - {u} == rest;
      HeldRemove(leases - {u}, t);
      HeldRemove(leases - {t}, u);
      BagSwap(Held(rest), leases[u].item, leases[t].item);
    }
  }

  lemma HeldInsert(leases: map<nat, Entry>, t: nat, e: Entry)
    requires t !in leases
    ensures Held(leases[t := e]) == Held(leases) + multiset{e.item}
  {
    HeldRemove(leases[t := e], t);
    assert leases[t := e] - {t} == leases;
  }

  /** An item is held exactly when some lease carries it. */
  lemma {:induction false} HeldHas(leases: map<nat, Entry>, item: Item)
    ensures item in Held(leases) <==> exists t :: t in leases && leases[t].item == item
    decreases |leases|
  {
    if leases != map[] {
      var u :| u in leases && Held(leases) == multiset{leases[u].item} + Held(leases - {u});
      HeldHas(leases - {u}, item);
      forall t | t in leases && leases[t].item == item
        ensures item in Held(leases)
      {
        if t != u {
          assert t in leases - {u};
        }
      }
    }
  }

  ghost function Pick(m: multiset<Item>): Item
    requires m != multiset{}
    ensures Pick(m) in m
  {
    var x :| x in m; x
  }

  /** What is left to deliver: each item may still be delivered max - attempt times. */
  ghost function Remaining(m: multiset<Item>, max: nat): int
    decreases |m|
  {
    if m == multiset{} then 0
    else max - Pick(m).attempt + Remaining(m - multiset{Pick(m)}, max)
  }

  ghost function Budget(b: Backend, max: nat): int {
    Remaining(Live(b), max)
  }

  lemma {:induction false} RemainingAdd(m: multiset<Item>, x: Item, max: nat)
    ensures Remaining(m + multiset{x}, max) == Remaining(m, max) + max - x.attempt
    decreases |m|
  {
    var n := m + multiset{x};
    var y := Pick(n);
    if y == x {
      assert n - multiset{y} == m;
    } else {
      var r := m - multiset{y};
      assert n - multiset{y} == r + multiset{x};
      assert m == r + multiset{y};
      RemainingAdd(r, x, max);
      RemainingAdd(r, y, max);
    }
  }

  lemma {:induction false} RemainingNonNegative(m: multiset<Item>, max: nat)
    requires forall x :: x in m ==> x.attempt <= max
    ensures 0 <= Remaining(m, max)
    decreases |m|
  {
    if m != multiset{} {
      RemainingNonNegative(m - multiset{Pick(m)}, max);
    }
  }

  /** The incarnations behind a bag of items, with multiplicity. */
  ghost function Incarnations(m: multiset<Item>): multiset<Incarnation>
    decreases |m|
  {
    if m == multiset{} then multiset{}
    else
      multiset{Pick(m).inc} + Incarnations(m - multiset{Pick(m)})
  }

  lemma {:induction false} IncarnationsAdd(m: multiset<Item>, x: Item)
    ensures Incarnations(m + multiset{x}) == Incarnations(m) + multiset{x.inc}
    decreases |m|
  {
    var n := m + multiset{x};
    var y := Pick(n);
    if y == x {
      assert n - multiset{y} == m;
    } else {
      var r := m - multiset{y};
      assert n - multiset{y} == r + multiset{x};
      assert m == r + multiset{y};
      IncarnationsAdd(r, x);
      IncarnationsAdd(r, y);
      assert Incarnations(n) == multiset{y.inc} + Incarnations(r + multiset{x});
      hide Incarnations;
      BagSwap(Incarnations(r), y.inc, x.inc);
    }
  }

  // ---------- What each operation does to the live items ----------

  lemma LiveEnqueue(b: Backend, task: Task)
    ensures Live(Enqueue(b, task)) == Live(b) + multiset{Item(Incarnation(b.nextUid, task), 0)}
  {
  }

  lemma LiveClaim(b: Backend, item: Item, deadline: int)
    requires item in b.ready && b.nextToken !in b.leases
    ensures Live(Claim(b, item, deadline)) == Live(b) - multiset{item} + multiset{Claimed(item)}
  {
    HeldInsert(b.leases, b.nextToken, Entry(Claimed(item), deadline));
  }

  lemma LiveRelease(b: Backend, token: nat)
    requires token in b.leases
    ensures Live(b) == Live(Drop(b, token)) + multiset{b.leases[token].item}
    ensures Live(Requeue(b, token)) == Live(b)
  {
    HeldRemove(b.leases, token);
  }

  // ---------- The budget ----------

  lemma BudgetEnqueue(b: Backend, task: Task, max: nat)
    ensures Budget(Enqueue(b, task), max) == Budget(b, max) + max
  {
    LiveEnqueue(b, task);
    RemainingAdd(Live(b), Item(Incarnation(b.nextUid, task), 0), max);
  }

  /** A claim spends exactly one delivery. */
  lemma BudgetClaim(b: Backend, item: Item, deadline: int, max: nat)
    requires item in b.ready && b.nextToken !in b.leases
    ensures Budget(Claim(b, item, deadline), max) == Budget(b, max) - 1
  {
    LiveClaim(b, item, deadline);
    var rest := Live(b) - multiset{item};
    BagRemove(Live(b), item);
    RemainingAdd(rest, item, max);
    RemainingAdd(rest, Claimed(item), max);
  }

  lemma BudgetRelease(b: Backend, token: nat, max: nat)
    requires token in b.leases
    ensures Budget(Drop(b, token), max) == Budget(b, max) - (max - b.leases[token].item.attempt)
    ensures Budget(Requeue(b, token), max) == Budget(b, max)
  {
    LiveRelease(b, token);
    RemainingAdd(Live(Drop(b, token)), b.leases[token].item, max);
  }

  lemma {:induction false} IncarnationsUnion(m: multiset<Item>, n: multiset<Item>)
    ensures Incarnations(m + n) == Incarnations(m) + Incarnations(n)
    decreases |n|
  {
    if n == multiset{} {
      assert m + n == m;
    } else {
      var x := Pick(n);
      var rest := n - multiset{x};
      BagRemove(n, x);
      assert m + n == (m + rest) + multiset{x};
      IncarnationsUnion(m, rest);
      IncarnationsAdd(m + rest, x);
      IncarnationsAdd(rest, x);
    }
  }
}
