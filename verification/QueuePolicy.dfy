/** The retry and dead-letter policy on values: what one route and one whole sweep do. */
module QueuePolicy {
  import opened Tasks
  import opened DeadLetters
  import LM = LeaseModel

  datatype Store = Store(b: LM.Backend, dlq: map<nat, DeadTask>)

  /** A route with a live context: below the ceiling requeue, at or above it dead-letter. */
  function Route(s: Store, lease: LM.Lease, max: nat, reason: Reason, now: int): Store {
    if lease.attempt >= max then
      Store(LM.Drop(s.b, lease.token), s.dlq[lease.task.id := Dead(lease.task, reason, now)])
    else s.(b := LM.Requeue(s.b, lease.token))
  }

  /** A context over two calls in a row: done before the first, done between them, or live throughout. */
  datatype Liveness = Over | Ending | Live

  /** A route under any context: at the ceiling it makes two calls, below it one. */
  function RouteUnder(s: Store, lease: LM.Lease, max: nat, reason: Reason, now: int, ctx: Liveness): Store {
    if ctx == Over then s
    else if ctx == Ending && lease.attempt >= max then
      s.(dlq := s.dlq[lease.task.id := Dead(lease.task, reason, now)])
    else Route(s, lease, max, reason, now)
  }

  /** What a route on a live context does, in the fields of the table, the ready bag and the dead-letter map. */
  lemma RouteByFields(s: Store, s': Store, lease: LM.Lease, max: nat, reason: Reason, now: int)
    requires s' == RouteUnder(s, lease, max, reason, now, Live)
    ensures s'.b.leases == s.b.leases - {lease.token} && s'.b.mode == s.b.mode
    ensures s'.b.ready == s.b.ready + if lease.token in s.b.leases && lease.attempt < max
                                      then multiset{s.b.leases[lease.token].item} else multiset{}
    ensures s'.dlq == if lease.attempt < max then s.dlq
                      else s.dlq[lease.task.id := DeadTask(lease.task, reason, 0, now)]
  {
    assert lease.token !in s.b.leases ==> s.b.leases - {lease.token} == s.b.leases;
  }

  /** The first n routes of a sweep, each under its own context. */
  function RouteEach(s: Store, leases: seq<LM.Lease>, n: nat, max: nat, reason: Reason, now: int,
                     ctxs: nat -> Liveness): Store
    requires n <= |leases|
  {
    if n == 0 then s
    else RouteUnder(RouteEach(s, leases, n - 1, max, reason, now, ctxs), leases[n - 1], max, reason, now, ctxs(n - 1))
  }

  ghost function ExpiredTokens(b: LM.Backend, now: int): set<nat> {
    set t | t in b.leases && LM.Expired(b, t, now)
  }

  ghost function TokensOf(leases: seq<LM.Lease>, n: nat): set<nat>
    requires n <= |leases|
  {
    set k | 0 <= k < n :: leases[k].token
  }

  lemma TokensOfNext(leases: seq<LM.Lease>, n: nat)
    requires n < |leases|
    requires forall i, j :: 0 <= i < j < |leases| ==> leases[i].token != leases[j].token
    ensures TokensOf(leases, n + 1) == TokensOf(leases, n) + {leases[n].token}
    ensures leases[n].token !in TokensOf(leases, n)
  {
  }

  lemma AllExpired(b: LM.Backend, now: int, expired: seq<LM.Lease>)
    requires LM.ExactlyExpired(b, expired, now)
    ensures TokensOf(expired, |expired|) == ExpiredTokens(b, now)
  {
    forall t | LM.Expired(b, t, now)
      ensures t in TokensOf(expired, |expired|)
    {
      var k :| 0 <= k < |expired| && expired[k] == LM.Snapshot(b, t);
      assert expired[k].token == t;
    }
  }

  /** The leases of the given tokens that have deliveries left. */
  function Retried(leases: map<nat, LM.Entry>, tokens: set<nat>, max: nat): map<nat, LM.Entry> {
    map t | t in leases && t in tokens && leases[t].item.attempt < max :: leases[t]
  }

  ghost predicate Exhausted(leases: map<nat, LM.Entry>, tokens: set<nat>, max: nat, t: nat) {
    t in leases && t in tokens && max <= leases[t].item.attempt
  }

  ghost predicate DiedOf(leases: map<nat, LM.Entry>, tokens: set<nat>, max: nat, t: nat, id: nat) {
    Exhausted(leases, tokens, max, t) && leases[t].item.inc.task.id == id
  }

  /** The IDs of the tasks under the given tokens that are out of deliveries. */
  ghost function DeadIds(leases: map<nat, LM.Entry>, tokens: set<nat>, max: nat): set<nat> {
    set t | t in leases && Exhausted(leases, tokens, max, t) :: leases[t].item.inc.task.id
  }

  /** What routing the leases of these tokens has done to the backend. */
  ghost predicate RoutedBackend(b: LM.Backend, b': LM.Backend, tokens: set<nat>, max: nat) {
    b' == b.(leases := b.leases - tokens, ready := b.ready + LM.Held(Retried(b.leases, tokens, max)))
  }

  ghost predicate RoutedDead(leases: map<nat, LM.Entry>, dlq: map<nat, DeadTask>, dlq': map<nat, DeadTask>,
                             tokens: set<nat>, max: nat, reason: Reason, now: int) {
    && dlq'.Keys == dlq.Keys + DeadIds(leases, tokens, max)
    && (forall id :: id in dlq && id !in DeadIds(leases, tokens, max) ==> dlq'[id] == dlq[id])
    && (forall id :: id in DeadIds(leases, tokens, max) ==>
          exists t :: DiedOf(leases, tokens, max, t, id) && dlq'[id] == Dead(leases[t].item.inc.task, reason, now))
  }

  /**
    The exact effect of routing a set of leases: all of them leave the table, those with
    deliveries left are back in ready with their attempt count kept, the tasks of the others
    are in the dead-letter store, and nothing else changes.
   */
  ghost predicate Routed(s: Store, s': Store, tokens: set<nat>, max: nat, reason: Reason, now: int) {
    && RoutedBackend(s.b, s'.b, tokens, max)
    && RoutedDead(s.b.leases, s.dlq, s'.dlq, tokens, max, reason, now)
  }

  lemma RoutedNone(s: Store, max: nat, reason: Reason, now: int)
    ensures Routed(s, s, {}, max, reason, now)
  {
    assert Retried(s.b.leases, {}, max) == map[];
    assert s.b.leases - {} == s.b.leases;
    assert DeadIds(s.b.leases, {}, max) == {};
  }

  lemma RoutedBackendMore(b: LM.Backend, b': LM.Backend, tokens: set<nat>, t: nat, max: nat)
    requires RoutedBackend(b, b', tokens, max) && t in b.leases && t !in tokens
    ensures max <= b.leases[t].item.attempt ==> RoutedBackend(b, LM.Drop(b', t), tokens + {t}, max)
    ensures b.leases[t].item.attempt < max ==> RoutedBackend(b, LM.Requeue(b', t), tokens + {t}, max)
  {
    var was, now := Retried(b.leases, tokens, max), Retried(b.leases, tokens + {t}, max);
    assert b.leases - tokens - {t} == b.leases - (tokens + {t});
    if b.leases[t].item.attempt < max {
      assert now == was[t := b.leases[t]];
      LM.HeldInsert(was, t, b.leases[t]);
      var item := b.leases[t].item;
      assert b.ready + (LM.Held(was) + multiset{item}) == b.ready + LM.Held(was) + multiset{item};
    } else {
      assert now == was;
    }
  }

  /** Every dead task has a lease it died of, after one more lease at the ceiling. */
  lemma DiedMore(leases: map<nat, LM.Entry>, dlq: map<nat, DeadTask>, dlq': map<nat, DeadTask>,
                 tokens: set<nat>, t: nat, max: nat, reason: Reason, now: int)
    requires RoutedDead(leases, dlq, dlq', tokens, max, reason, now)
    requires t in leases && t !in tokens && max <= leases[t].item.attempt
    ensures var task := leases[t].item.inc.task;
      forall id :: id in DeadIds(leases, tokens, max) + {task.id} ==>
        (exists u :: DiedOf(leases, tokens + {t}, max, u, id) &&
          dlq'[task.id := Dead(task, reason, now)][id] == Dead(leases[u].item.inc.task, reason, now))
  {
    var task := leases[t].item.inc.task;
    forall id | id in DeadIds(leases, tokens, max) + {task.id}
      ensures exists u ::
        && DiedOf(leases, tokens + {t}, max, u, id)
        && dlq'[task.id := Dead(task, reason, now)][id] == Dead(leases[u].item.inc.task, reason, now)
    {
      if id == task.id {
        assert DiedOf(leases, tokens + {t}, max, t, id);
      } else {
        var u :| DiedOf(leases, tokens, max, u, id) && dlq'[id] == Dead(leases[u].item.inc.task, reason, now);
        assert DiedOf(leases, tokens + {t}, max, u, id);
      }
    }
  }

  lemma RoutedDeadKill(leases: map<nat, LM.Entry>, dlq: map<nat, DeadTask>, dlq': map<nat, DeadTask>,
                       tokens: set<nat>, t: nat, max: nat, reason: Reason, now: int)
    requires RoutedDead(leases, dlq, dlq', tokens, max, reason, now)
    requires t in leases && t !in tokens && max <= leases[t].item.attempt
    ensures var task := leases[t].item.inc.task;
      RoutedDead(leases, dlq, dlq'[task.id := Dead(task, reason, now)], tokens + {t}, max, reason, now)
  {
    assert DeadIds(leases, tokens + {t}, max) == DeadIds(leases, tokens, max) + {leases[t].item.inc.task.id} by {
      assert forall u :: Exhausted(leases, tokens + {t}, max, u) <==> Exhausted(leases, tokens, max, u) || u == t;
    }
    DiedMore(leases, dlq, dlq', tokens, t, max, reason, now);
    hide DeadIds, DiedOf;
  }

  lemma RoutedDeadRetry(leases: map<nat, LM.Entry>, dlq: map<nat, DeadTask>, dlq': map<nat, DeadTask>,
                        tokens: set<nat>, t: nat, max: nat, reason: Reason, now: int)
    requires RoutedDead(leases, dlq, dlq', tokens, max, reason, now)
    requires t in leases && leases[t].item.attempt < max
    ensures RoutedDead(leases, dlq, dlq', tokens + {t}, max, reason, now)
  {
    assert forall u :: Exhausted(leases, tokens + {t}, max, u) <==> Exhausted(leases, tokens, max, u);
    assert DeadIds(leases, tokens + {t}, max) == DeadIds(leases, tokens, max);
    assert forall u, id :: DiedOf(leases, tokens + {t}, max, u, id) == DiedOf(leases, tokens, max, u, id);
    hide DeadIds, DiedOf;
  }

  /** One more truthful route extends the routed set by its token. */
  lemma RoutedMore(s: Store, s': Store, tokens: set<nat>, t: nat, max: nat, reason: Reason, now: int)
    requires Routed(s, s', tokens, max, reason, now) && t in s.b.leases && t !in tokens
    ensures Routed(s, Route(s', LM.Snapshot(s.b, t), max, reason, now), tokens + {t}, max, reason, now)
  {
    RoutedBackendMore(s.b, s'.b, tokens, t, max);
    if max <= s.b.leases[t].item.attempt {
      RoutedDeadKill(s.b.leases, s.dlq, s'.dlq, tokens, t, max, reason, now);
    } else {
      RoutedDeadRetry(s.b.leases, s.dlq, s'.dlq, tokens, t, max, reason, now);
    }
  }

  lemma NoTokens(leases: seq<LM.Lease>)
    ensures TokensOf(leases, 0) == {}
  {
  }

  lemma RoutedNext(s: Store, was: Store, expired: seq<LM.Lease>, n: nat, max: nat, reason: Reason, now: int)
    requires LM.ExactlyExpired(s.b, expired, now) && n < |expired|
    requires Routed(s, was, TokensOf(expired, n), max, reason, now)
    ensures Routed(s, Route(was, expired[n], max, reason, now), TokensOf(expired, n + 1), max, reason, now)
  {
    TokensOfNext(expired, n);
    assert LM.Expired(s.b, expired[n].token, now) && expired[n] == LM.Snapshot(s.b, expired[n].token);
    hide Routed, Route, TokensOf, LM.ExactlyExpired, LM.Snapshot;
    RoutedMore(s, was, TokensOf(expired, n), expired[n].token, max, reason, now);
  }

  /** The routes of a sweep on a live context have the exact effect on the leases they were made for. */
  lemma {:induction false} RouteEachRouted(s: Store, expired: seq<LM.Lease>, n: nat, max: nat, reason: Reason, now: int,
                                           ctxs: nat -> Liveness)
    requires LM.ExactlyExpired(s.b, expired, now) && n <= |expired| && forall i :: 0 <= i < n ==> ctxs(i) == Live
    ensures Routed(s, RouteEach(s, expired, n, max, reason, now, ctxs), TokensOf(expired, n), max, reason, now)
  {
    hide Routed, Route, TokensOf, LM.ExactlyExpired;
    if n == 0 {
      NoTokens(expired);
      RoutedNone(s, max, reason, now);
    } else {
      RouteEachRouted(s, expired, n - 1, max, reason, now, ctxs);
      RoutedNext(s, RouteEach(s, expired, n - 1, max, reason, now, ctxs), expired, n - 1, max, reason, now);
    }
  }

  /** The backend after routing all expired leases, by deadline and attempt. */
  lemma RoutedBackendByFields(b: LM.Backend, b': LM.Backend, max: nat, now: int)
    requires RoutedBackend(b, b', ExpiredTokens(b, now), max)
    ensures b'.leases == map t | t in b.leases && now < b.leases[t].deadline :: b.leases[t]
    ensures b'.ready == b.ready + LM.Held(Retried(b.leases, ExpiredTokens(b, now), max))
    ensures Retried(b.leases, ExpiredTokens(b, now), max) ==
      map t | t in b.leases && b.leases[t].deadline <= now && b.leases[t].item.attempt < max :: b.leases[t]
  {
  }

  /** The dead-letter map after routing all expired leases, by deadline and attempt. */
  lemma RoutedDeadByFields(b: LM.Backend, dlq: map<nat, DeadTask>, dlq': map<nat, DeadTask>, max: nat, reason: Reason,
                           now: int)
    requires RoutedDead(b.leases, dlq, dlq', ExpiredTokens(b, now), max, reason, now)
    ensures dlq'.Keys == dlq.Keys + set t |
      t in b.leases && b.leases[t].deadline <= now && max <= b.leases[t].item.attempt :: b.leases[t].item.inc.task.id
    ensures forall id :: id in dlq' ==>
      || (id in dlq && dlq'[id] == dlq[id])
      || (exists t :: t in b.leases && dlq'[id] == DeadTask(b.leases[t].item.inc.task, reason, 0, now))
  {
    assert DeadIds(b.leases, ExpiredTokens(b, now), max) == set t |
      t in b.leases && b.leases[t].deadline <= now && max <= b.leases[t].item.attempt :: b.leases[t].item.inc.task.id;
  }

  /**
    One uninterrupted sweep on a live context: no lease with deadline at or before now remains,
    those with a later one are untouched, and the expired ones went back to ready or to the
    dead-letter store exactly as Routed says.
   */
  lemma SweepRouted(s: Store, expired: seq<LM.Lease>, max: nat, reason: Reason, now: int, ctxs: nat -> Liveness)
    requires LM.ExactlyExpired(s.b, expired, now) && forall i :: 0 <= i < |expired| ==> ctxs(i) == Live
    ensures var s' := RouteEach(s, expired, |expired|, max, reason, now, ctxs);
      && Routed(s, s', ExpiredTokens(s.b, now), max, reason, now)
      && s'.b.leases == map t | t in s.b.leases && now < s.b.leases[t].deadline :: s.b.leases[t]
  {
    RouteEachRouted(s, expired, |expired|, max, reason, now, ctxs);
    AllExpired(s.b, now, expired);
    hide RouteEach, LM.ExactlyExpired, RoutedBackend, RoutedDead;
    RoutedBackendByFields(s.b, RouteEach(s, expired, |expired|, max, reason, now, ctxs).b, max, now);
  }

  // ---------- Polling ----------

  function EnqueueEach(b: LM.Backend, tasks: seq<Task>): LM.Backend {
    if tasks == [] then b else LM.Enqueue(EnqueueEach(b, tasks[..|tasks| - 1]), tasks[|tasks| - 1])
  }

  /** The backend at poll n of a waiting Dequeue: before each poll some tasks have arrived. */
  function AtPoll(b: LM.Backend, arrivals: nat -> seq<Task>, n: nat): LM.Backend {
    EnqueueEach(if n == 0 then b else AtPoll(b, arrivals, n - 1), arrivals(n))
  }

  /** What arrives before the polls up to number n, in order. */
  function Arrived(arrivals: nat -> seq<Task>, n: nat): seq<Task> {
    (if n == 0 then [] else Arrived(arrivals, n - 1)) + arrivals(n)
  }

  /** The items of newly enqueued tasks, in order. */
  function NewItems(uid: nat, tasks: seq<Task>): seq<LM.Item> {
    seq(|tasks|, i requires 0 <= i < |tasks| => LM.Item(LM.Incarnation(uid + i, tasks[i]), 0))
  }

  lemma {:induction false} EnqueueEachConcat(b: LM.Backend, tasks: seq<Task>, more: seq<Task>)
    ensures EnqueueEach(EnqueueEach(b, tasks), more) == EnqueueEach(b, tasks + more)
    decreases |more|
  {
    var n := |more|;
    if n == 0 {
      assert tasks + more == tasks;
    } else {
      EnqueueEachConcat(b, tasks, more[..n - 1]);
      assert (tasks + more)[..|tasks + more| - 1] == tasks + more[..n - 1];
    }
  }

  /** What enqueuing some tasks in a row adds; nothing else moves. */
  ghost predicate Adds(b: LM.Backend, tasks: seq<Task>, b': LM.Backend) {
    && b'.ready == b.ready + multiset(NewItems(b.nextUid, tasks))
    && b'.leases == b.leases && b'.mode == b.mode && b'.nextUid == b.nextUid + |tasks|
  }

  lemma AddsMore(b: LM.Backend, tasks: seq<Task>, b': LM.Backend)
    requires tasks != [] && Adds(b, tasks[..|tasks| - 1], b')
    ensures Adds(b, tasks, LM.Enqueue(b', tasks[|tasks| - 1]))
  {
    var n := |tasks| - 1;
    NewItemsMore(b.nextUid, tasks);
    BagMore(b.ready, NewItems(b.nextUid, tasks[..n]), LM.Item(LM.Incarnation(b.nextUid + n, tasks[n]), 0));
    hide NewItems;
  }

  lemma AddsNothing(b: LM.Backend)
    ensures Adds(b, [], b)
  {
  }

  lemma {:induction false} EnqueueEachAdds(b: LM.Backend, tasks: seq<Task>)
    ensures Adds(b, tasks, EnqueueEach(b, tasks))
    decreases |tasks|
  {
    hide Adds;
    if tasks == [] {
      AddsNothing(b);
    } else {
      EnqueueEachAdds(b, tasks[..|tasks| - 1]);
      AddsMore(b, tasks, EnqueueEach(b, tasks[..|tasks| - 1]));
    }
  }

  lemma NewItemsMore(uid: nat, tasks: seq<Task>)
    requires tasks != []
    ensures var n := |tasks| - 1;
      NewItems(uid, tasks) == NewItems(uid, tasks[..n]) + [LM.Item(LM.Incarnation(uid + n, tasks[n]), 0)]
  {
  }

  lemma BagMore(bag: multiset<LM.Item>, items: seq<LM.Item>, item: LM.Item)
    ensures bag + multiset(items + [item]) == bag + multiset(items) + multiset{item}
  {
  }

  /** What poll n finds: the items that were ready, and every task arrived by then as a new one; nothing else moved. */
  lemma AtPollHolds(b: LM.Backend, arrivals: nat -> seq<Task>, n: nat)
    ensures AtPoll(b, arrivals, n).ready == b.ready + multiset(NewItems(b.nextUid, Arrived(arrivals, n)))
    ensures AtPoll(b, arrivals, n).leases == b.leases && AtPoll(b, arrivals, n).mode == b.mode
  {
    hide AtPoll, EnqueueEach, NewItems, Arrived;
    AtPollEnqueues(b, arrivals, n);
    EnqueueEachAdds(b, Arrived(arrivals, n));
  }

  lemma {:induction false} AtPollEnqueues(b: LM.Backend, arrivals: nat -> seq<Task>, n: nat)
    ensures AtPoll(b, arrivals, n) == EnqueueEach(b, Arrived(arrivals, n))
  {
    hide EnqueueEach;
    if n == 0 {
      assert Arrived(arrivals, 0) == arrivals(0);
    } else {
      AtPollEnqueues(b, arrivals, n - 1);
      EnqueueEachConcat(b, Arrived(arrivals, n - 1), arrivals(n));
    }
  }

  /** The backend poll n finds before its own arrivals. */
  function BeforePoll(b: LM.Backend, arrivals: nat -> seq<Task>, n: nat): LM.Backend {
    if n == 0 then b else AtPoll(b, arrivals, n - 1)
  }

  lemma PollStep(b: LM.Backend, arrivals: nat -> seq<Task>, n: nat)
    ensures AtPoll(b, arrivals, n) == EnqueueEach(BeforePoll(b, arrivals, n), arrivals(n))
    ensures BeforePoll(b, arrivals, n + 1) == AtPoll(b, arrivals, n)
  {
  }
}
