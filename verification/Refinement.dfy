/**
  The bridge between the queue's methods and the protocol: Enqueue, a successful Dequeue, Ack, Nack,
  route, a whole sweep and Redrive are, when nobody interferes, runs of the protocol's steps, so the
  theorems about all interleavings apply to them.
 */
module Refinement {
  import opened Tasks
  import opened DeadLetters
  import opened QueuePolicy
  import opened TaskQueues
  import opened LeaseProtocol
  import LM = LeaseModel

  function TasksOf(dlq: map<nat, DeadTask>): map<nat, Task> {
    map id | id in dlq :: dlq[id].task
  }

  /** The protocol state and the queue hold the same backend and the same dead tasks. */
  ghost predicate Stands(p: State, s: Store) {
    p.b == s.b && p.dlq == TasksOf(s.dlq)
  }

  lemma OneStep(s: State, a: Action)
    requires Enabled(s, a)
    ensures CanRun(s, [a]) && After(s, [a]) == Apply(s, a)
  {
    assert [a][1..] == [];
  }

  lemma TwoSteps(s: State, a: Action, b: Action)
    requires Enabled(s, a) && Enabled(Apply(s, a), b)
    ensures CanRun(s, [a, b]) && After(s, [a, b]) == Apply(Apply(s, a), b)
  {
    OneStep(Apply(s, a), b);
    assert [a, b][1..] == [b];
  }

  lemma ThreeSteps(s: State, a: Action, b: Action, c: Action)
    requires Enabled(s, a) && Enabled(Apply(s, a), b) && Enabled(Apply(Apply(s, a), b), c)
    ensures CanRun(s, [a, b, c]) && After(s, [a, b, c]) == Apply(Apply(Apply(s, a), b), c)
  {
    TwoSteps(Apply(s, a), b, c);
    assert [a, b, c][1..] == [b, c];
  }

  /** The second step of a route at the ceiling: the drop call is off the list, and the lease gone if it was there. */
  lemma DropStep(q: State, lease: LM.Lease)
    requires DropCall(lease) in q.jobs
    ensures var r := Apply(q, Run(DropCall(lease)));
      r.b == LM.Drop(q.b, lease.token) && r.dlq == q.dlq && r.jobs == q.jobs - multiset{DropCall(lease)}
  {
  }

  lemma AddStep(p: State, lease: LM.Lease)
    requires RouteCall(lease) in p.jobs && lease.attempt >= p.max
    ensures var q := Apply(p, Run(RouteCall(lease)));
      && q.b == p.b && q.dlq == p.dlq[lease.task.id := lease.task]
      && q.jobs == p.jobs - multiset{RouteCall(lease)} + multiset{DropCall(lease)}
  {
  }

  lemma TasksOfAdd(dlq: map<nat, DeadTask>, task: Task, reason: Reason, now: int)
    ensures TasksOf(dlq[task.id := Dead(task, reason, now)]) == TasksOf(dlq)[task.id := task]
  {
  }

  lemma KillSteps(p: State, s: Store, lease: LM.Lease, reason: Reason, now: int)
    requires Stands(p, s) && RouteCall(lease) in p.jobs && lease.attempt >= p.max
    ensures var q := Apply(p, Run(RouteCall(lease)));
      && Enabled(q, Run(DropCall(lease)))
      && Stands(Apply(q, Run(DropCall(lease))), Route(s, lease, p.max, reason, now))
      && Apply(q, Run(DropCall(lease))).jobs == p.jobs - multiset{RouteCall(lease)}
  {
    AddStep(p, lease);
    TasksOfAdd(s.dlq, lease.task, reason, now);
    hide RunJob, TasksOf, LM.Drop;
    var q := Apply(p, Run(RouteCall(lease)));
    DropStep(q, lease);
    hide Apply;
    LM.BagRemove(p.jobs - multiset{RouteCall(lease)}, DropCall(lease));
  }

  lemma RetryStep(p: State, s: Store, lease: LM.Lease, reason: Reason, now: int)
    requires Stands(p, s) && RouteCall(lease) in p.jobs && lease.attempt < p.max
    ensures var q := Apply(p, Run(RouteCall(lease)));
      Stands(q, Route(s, lease, p.max, reason, now)) && q.jobs == p.jobs - multiset{RouteCall(lease)}
  {
    hide TasksOf;
  }

  /** A route at the ceiling whose context ends after the Add. */
  lemma AddThenAbort(p: State, s: Store, lease: LM.Lease, reason: Reason, now: int)
    requires Stands(p, s) && RouteCall(lease) in p.jobs && lease.attempt >= p.max
    ensures var q := Apply(p, Run(RouteCall(lease)));
      && Enabled(q, Abort(DropCall(lease)))
      && Stands(Apply(q, Abort(DropCall(lease))), RouteUnder(s, lease, p.max, reason, now, Ending))
      && Apply(q, Abort(DropCall(lease))).jobs == p.jobs - multiset{RouteCall(lease)}
  {
    AddStep(p, lease);
    TasksOfAdd(s.dlq, lease.task, reason, now);
    hide RunJob, TasksOf, LM.Drop;
    LM.BagRemove(p.jobs - multiset{RouteCall(lease)}, DropCall(lease));
  }

  lemma AbortStep(p: State, s: Store, lease: LM.Lease)
    requires Stands(p, s) && RouteCall(lease) in p.jobs
    ensures var q := Apply(p, Abort(RouteCall(lease)));
      Stands(q, s) && q.jobs == p.jobs - multiset{RouteCall(lease)}
  {
  }

  /** The steps a route makes, by the context it has. */
  function RouteSteps(lease: LM.Lease, max: nat, ctx: Liveness): seq<Action> {
    if ctx == Over then [Abort(RouteCall(lease))]
    else if lease.attempt < max then [Run(RouteCall(lease))]
    else [Run(RouteCall(lease)), if ctx == Live then Run(DropCall(lease)) else Abort(DropCall(lease))]
  }

  /** Queue.Route is one step below the ceiling and two at it, Add before the drop, unless its context ends. */
  lemma RouteIsARun(p: State, s: Store, lease: LM.Lease, reason: Reason, now: int, ctx: Liveness)
    requires Stands(p, s) && RouteCall(lease) in p.jobs
    ensures var run := RouteSteps(lease, p.max, ctx);
      && CanRun(p, run) && Stands(After(p, run), RouteUnder(s, lease, p.max, reason, now, ctx))
      && After(p, run).jobs == p.jobs - multiset{RouteCall(lease)}
  {
    hide CanRun, After, Apply, Stands, Route, Enabled;
    if ctx == Over {
      AbortStep(p, s, lease);
      OneStep(p, Abort(RouteCall(lease)));
    } else if lease.attempt < p.max {
      RetryStep(p, s, lease, reason, now);
      OneStep(p, Run(RouteCall(lease)));
    } else if ctx == Live {
      KillSteps(p, s, lease, reason, now);
      TwoSteps(p, Run(RouteCall(lease)), Run(DropCall(lease)));
    } else {
      AddThenAbort(p, s, lease, reason, now);
      TwoSteps(p, Run(RouteCall(lease)), Abort(DropCall(lease)));
    }
  }

  /** Claim.Nack: settle the handle, then route. */
  lemma NackIsARun(p: State, s: Store, lease: LM.Lease, reason: Reason, now: int, ctx: Liveness)
    requires Stands(p, s) && lease in p.handles
    ensures var run := [SettleNack(lease)] + RouteSteps(lease, p.max, ctx);
      && CanRun(p, run) && Stands(After(p, run), RouteUnder(s, lease, p.max, reason, now, ctx))
      && After(p, run).jobs == p.jobs && lease !in After(p, run).handles
  {
    var settled, rest := Apply(p, SettleNack(lease)), RouteSteps(lease, p.max, ctx);
    assert ([SettleNack(lease)] + rest)[1..] == rest;
    LM.BagRemove(p.jobs, RouteCall(lease));
    RouteIsARun(settled, s, lease, reason, now, ctx);
    hide RouteUnder, Stands;
    HandlesKept(settled, rest, lease);
  }

  /** Only a claim adds a handle, and always one with a fresh token. */
  lemma {:induction false} HandlesKept(p: State, run: seq<Action>, lease: LM.Lease)
    requires CanRun(p, run) && lease !in p.handles && forall i :: 0 <= i < |run| ==> !run[i].DoClaim?
    ensures lease !in After(p, run).handles
    decreases |run|
  {
    if run != [] {
      HandlesKept(Apply(p, run[0]), run[1..], lease);
    }
  }

  // ---------- Settlement and its status ----------

  function Settlements(p: State, token: nat): nat {
    p.log.settled[token]
  }

  /** The steps of Ack, by whether its context is live. */
  function AckSteps(lease: LM.Lease, live: bool): seq<Action> {
    [SettleAck(lease), if live then Run(AckCall(lease)) else Abort(AckCall(lease))]
  }

  /**
    Claim.Ack: settle the handle, then acknowledge. On a live context it settles its token in the history if and only if
    the token is in the table.
   */
  lemma AckIsARun(p: State, s: Store, lease: LM.Lease, live: bool)
    requires Stands(p, s) && lease in p.handles
    ensures CanRun(p, AckSteps(lease, live))
    ensures Stands(After(p, AckSteps(lease, live)), if live then s.(b := LM.Drop(s.b, lease.token)) else s)
    ensures After(p, AckSteps(lease, live)).handles == p.handles - {lease}
    ensures Settlements(After(p, AckSteps(lease, live)), lease.token) ==
      Settlements(p, lease.token) + if live && lease.token in s.b.leases then 1 else 0
  {
    var steps := AckSteps(lease, live);
    TwoSteps(p, steps[0], steps[1]);
    hide CanRun, After, TasksOf;
  }

  lemma RequeueCounts(p: State, lease: LM.Lease)
    requires RouteCall(lease) in p.jobs && lease.attempt < p.max
    ensures Settlements(Apply(p, Run(RouteCall(lease))), lease.token) ==
      Settlements(p, lease.token) + if lease.token in p.b.leases then 1 else 0
  {
  }

  lemma KillCounts(p: State, lease: LM.Lease, ctx: Liveness)
    requires RouteCall(lease) in p.jobs && p.max <= lease.attempt && ctx != Over
    ensures var q := Apply(p, Run(RouteCall(lease)));
      var last := if ctx == Live then Run(DropCall(lease)) else Abort(DropCall(lease));
      && Enabled(q, last)
      && Settlements(Apply(q, last), lease.token) ==
           Settlements(p, lease.token) + if ctx == Live && lease.token in p.b.leases then 1 else 0
  {
    AddStep(p, lease);
  }

  /** A route settles its token if and only if no ended context stops it and the token is in the table. */
  lemma RouteCounts(p: State, lease: LM.Lease, ctx: Liveness)
    requires RouteCall(lease) in p.jobs && CanRun(p, RouteSteps(lease, p.max, ctx))
    ensures Settlements(After(p, RouteSteps(lease, p.max, ctx)), lease.token) ==
      Settlements(p, lease.token) +
        if ctx == Over || (ctx == Ending && p.max <= lease.attempt) || lease.token !in p.b.leases then 0 else 1
  {
    hide CanRun, After, Apply, Enabled, Settlements;
    if ctx == Over {
      OneStep(p, Abort(RouteCall(lease)));
      AbortCounts(p, lease);
    } else if lease.attempt < p.max {
      OneStep(p, Run(RouteCall(lease)));
      RequeueCounts(p, lease);
    } else {
      KillCounts(p, lease, ctx);
      TwoSteps(p, Run(RouteCall(lease)), if ctx == Live then Run(DropCall(lease)) else Abort(DropCall(lease)));
    }
  }

  lemma AbortCounts(p: State, lease: LM.Lease)
    requires RouteCall(lease) in p.jobs
    ensures Enabled(p, Abort(RouteCall(lease))) && Enabled(p, Run(RouteCall(lease)))
    ensures Settlements(Apply(p, Abort(RouteCall(lease))), lease.token) == Settlements(p, lease.token)
  {
  }

  lemma NackCounts(p: State, s: Store, lease: LM.Lease, reason: Reason, now: int, ctx: Liveness)
    requires Stands(p, s) && lease in p.handles
    ensures var run := [SettleNack(lease)] + RouteSteps(lease, p.max, ctx);
      && CanRun(p, run) && Stands(After(p, run), RouteUnder(s, lease, p.max, reason, now, ctx))
      && Settlements(After(p, run), lease.token) ==
           Settlements(p, lease.token) +
             if ctx == Over || (ctx == Ending && p.max <= lease.attempt) || lease.token !in s.b.leases then 0 else 1
  {
    NackIsARun(p, s, lease, reason, now, ctx);
    var settled, rest := Apply(p, SettleNack(lease)), RouteSteps(lease, p.max, ctx);
    assert ([SettleNack(lease)] + rest)[1..] == rest;
    hide RouteUnder, RouteSteps, TasksOf;
    RouteCounts(settled, lease, ctx);
  }

  /** Claim.Ack beside the protocol: its status is Ok if and only if the history gains a settlement of its token. */
  method AckSettles(queue: Queue, claim: Claim, live: bool, ghost p: State)
    returns (status: Status, ghost run: seq<Action>)
    requires queue.Valid() && !claim.settled && Stands(p, queue.State()) && claim.lease in p.handles
    modifies claim`settled, queue.backend`leases, queue.backend`nextToken, queue.backend`view
    ensures queue.Valid() && CanRun(p, run) && Stands(After(p, run), queue.State())
    ensures status == Ok <==> After(p, run).log.settled[claim.lease.token] == p.log.settled[claim.lease.token] + 1
    ensures status != Ok <==> After(p, run).log.settled[claim.lease.token] == p.log.settled[claim.lease.token]
    ensures status == LeaseNotFound <==> live && claim.lease.token !in p.b.leases
  {
    hide CanRun, After, LM.Drop, TasksOf;
    AckIsARun(p, queue.State(), claim.lease, live);
    run := AckSteps(claim.lease, live);
    status := claim.Ack(queue, live);
  }

  /** Claim.Nack beside the protocol, below the ceiling and at it, in the same way. */
  method NackSettles(queue: Queue, claim: Claim, ctx: Liveness, reason: Reason, now: int, ghost p: State)
    returns (status: Status, ghost run: seq<Action>)
    requires queue.Valid() && !claim.settled && Stands(p, queue.State()) && claim.lease in p.handles
    requires p.max == queue.maxAttempts
    modifies claim`settled, queue.backend`leases, queue.backend`nextToken, queue.backend`view,
             queue.backend.ready`items, queue.backend.Items()`index, queue.deadLetter`tasks
    ensures queue.Valid() && CanRun(p, run) && Stands(After(p, run), queue.State())
    ensures status == Ok <==> After(p, run).log.settled[claim.lease.token] == p.log.settled[claim.lease.token] + 1
    ensures status != Ok <==> After(p, run).log.settled[claim.lease.token] == p.log.settled[claim.lease.token]
    ensures ctx == Live ==> (status == LeaseNotFound <==> claim.lease.token !in p.b.leases)
  {
    hide CanRun, After, RouteUnder, RouteSteps, TasksOf;
    NackCounts(p, queue.State(), claim.lease, reason, now, ctx);
    run := [SettleNack(claim.lease)] + RouteSteps(claim.lease, p.max, ctx);
    status := claim.Nack(queue, ctx, reason, now);
  }

  lemma EnqueueIsARun(p: State, s: Store, task: Task)
    requires Stands(p, s)
    ensures CanRun(p, [DoEnqueue(task)])
    ensures Stands(After(p, [DoEnqueue(task)]), s.(b := LM.Enqueue(s.b, task)))
  {
    OneStep(p, DoEnqueue(task));
  }

  /** Dequeue: a claim of a least item, with a handle for its lease. */
  lemma DequeueIsARun(p: State, s: Store, item: LM.Item, deadline: int)
    requires Stands(p, s) && LM.IsLeast(s.b.mode, item, s.b.ready)
    ensures CanRun(p, [DoClaim(item, deadline)])
    ensures Stands(After(p, [DoClaim(item, deadline)]), s.(b := LM.Claim(s.b, item, deadline)))
    ensures LM.ClaimLease(s.b, item, deadline) in After(p, [DoClaim(item, deadline)]).handles
  {
    OneStep(p, DoClaim(item, deadline));
  }

  lemma RedriveSteps(p: State, s: Store, id: nat, task: Task, remove: Job)
    requires Stands(p, s) && Keyed(s.dlq) && id in s.dlq && task == s.dlq[id].task
    requires remove == RemoveCall(task, p.b.nextUid, p.log.adds[id])
    ensures Enabled(p, FindDead(id))
    ensures var q := Apply(p, FindDead(id)); Enabled(q, Run(RedriveCall(task)))
    ensures var r := Apply(Apply(p, FindDead(id)), Run(RedriveCall(task)));
      && Enabled(r, Run(remove)) && r.jobs == p.jobs + multiset{remove}
      && r.b == LM.Enqueue(s.b, task) && r.dlq == p.dlq && r.log.adds == p.log.adds && r.log.raced == p.log.raced
  {
    hide LM.Enqueue;
    LM.BagRemove(p.jobs, RedriveCall(task));
  }

  /** Redrive: find the task, enqueue it, remove the entry. */
  lemma RedriveIsARun(p: State, s: Store, id: nat) returns (run: seq<Action>)
    requires Stands(p, s) && Keyed(s.dlq) && id in s.dlq
    ensures CanRun(p, run)
    ensures Stands(After(p, run), Store(LM.Enqueue(s.b, s.dlq[id].task), s.dlq - {id}))
    ensures After(p, run).jobs == p.jobs && After(p, run).log.raced == p.log.raced
  {
    hide CanRun, After, LM.Enqueue;
    var task := s.dlq[id].task;
    var remove := RemoveCall(task, p.b.nextUid, p.log.adds[id]);
    run := [FindDead(id), Run(RedriveCall(task)), Run(remove)];
    RedriveSteps(p, s, id, task, remove);
    LM.BagRemove(p.jobs, remove);
    ThreeSteps(p, run[0], run[1], run[2]);
    assert TasksOf(s.dlq - {id}) == TasksOf(s.dlq) - {id};
  }

  // ---------- A sweep ----------

  lemma {:induction false} RunConcat(s: State, run: seq<Action>, more: seq<Action>)
    requires CanRun(s, run) && CanRun(After(s, run), more)
    ensures CanRun(s, run + more) && After(s, run + more) == After(After(s, run), more)
    decreases |run|
  {
    hide Enabled, Apply;
    if run == [] {
      assert run + more == more;
    } else {
      assert (run + more)[1..] == run[1..] + more;
      RunConcat(Apply(s, run[0]), run[1..], more);
    }
  }

  /** The calls that routing the leases from number n on takes. */
  function CallsFrom(leases: seq<LM.Lease>, n: nat): multiset<Job>
    requires n <= |leases|
    decreases |leases| - n
  {
    if n == |leases| then multiset{} else multiset{RouteCall(leases[n])} + CallsFrom(leases, n + 1)
  }

  lemma ReapStep(p: State, b: LM.Backend, lease: LM.Lease, now: int)
    requires p.b == b && LM.Expired(b, lease.token, now) && lease == LM.Snapshot(b, lease.token)
    ensures Enabled(p, Reap(lease.token, now))
    ensures Apply(p, Reap(lease.token, now)) == p.(jobs := p.jobs + multiset{RouteCall(lease)})
  {
  }

  lemma EmptyRun(s: State)
    ensures CanRun(s, []) && After(s, []) == s
  {
  }

  lemma ExpiredAt(b: LM.Backend, expired: seq<LM.Lease>, n: nat, now: int)
    requires LM.ExactlyExpired(b, expired, now) && n < |expired|
    ensures LM.Expired(b, expired[n].token, now) && expired[n] == LM.Snapshot(b, expired[n].token)
  {
  }

  lemma CallsMore(jobs: multiset<Job>, leases: seq<LM.Lease>, n: nat)
    requires n < |leases|
    ensures jobs + CallsFrom(leases, n + 1) + multiset{RouteCall(leases[n])} == jobs + CallsFrom(leases, n)
    ensures jobs + CallsFrom(leases, n) - multiset{RouteCall(leases[n])} == jobs + CallsFrom(leases, n + 1)
    ensures RouteCall(leases[n]) in jobs + CallsFrom(leases, n)
  {
    LM.BagRemove(jobs + CallsFrom(leases, n + 1), RouteCall(leases[n]));
  }

  /** The snapshot of a sweep: one reap per expired lease, which only makes route calls pending. */
  lemma {:induction false} ReapsAreARun(p: State, expired: seq<LM.Lease>, n: nat, now: int) returns (run: seq<Action>)
    requires LM.ExactlyExpired(p.b, expired, now) && n <= |expired|
    ensures CanRun(p, run) && After(p, run) == p.(jobs := p.jobs + CallsFrom(expired, n))
    decreases |expired| - n
  {
    hide LM.ExactlyExpired, LM.Snapshot, CanRun, After, Apply, Enabled;
    if n == |expired| {
      run := [];
      EmptyRun(p);
    } else {
      var rest := ReapsAreARun(p, expired, n + 1, now);
      var q, a := After(p, rest), Reap(expired[n].token, now);
      ExpiredAt(p.b, expired, n, now);
      CallsMore(p.jobs, expired, n);
      hide CallsFrom;
      ReapStep(q, p.b, expired[n], now);
      OneStep(q, a);
      RunConcat(p, rest, [a]);
      run := rest + [a];
    }
  }

  lemma MaxKept(s: State, run: seq<Action>)
    requires CanRun(s, run)
    ensures After(s, run).max == s.max
    decreases |run|
  {
    if run != [] {
      MaxKept(Apply(s, run[0]), run[1..]);
    }
  }

  /** The routes of a sweep, from number n on, under any contexts. */
  lemma {:induction false} RoutesAreARun(p: State, s: Store, expired: seq<LM.Lease>, n: nat, base: multiset<Job>,
                                         reason: Reason, now: int, ctxs: nat -> Liveness) returns (run: seq<Action>)
    requires n <= |expired| && p.jobs == base + CallsFrom(expired, n)
    requires Stands(p, RouteEach(s, expired, n, p.max, reason, now, ctxs))
    ensures CanRun(p, run) && After(p, run).jobs == base
    ensures Stands(After(p, run), RouteEach(s, expired, |expired|, p.max, reason, now, ctxs))
    decreases |expired| - n
  {
    hide Stands, RouteUnder, RouteSteps, Apply, Enabled, CanRun, After;
    if n == |expired| {
      run := [];
      EmptyRun(p);
    } else {
      var first := RouteSteps(expired[n], p.max, ctxs(n));
      CallsMore(base, expired, n);
      RouteIsARun(p, RouteEach(s, expired, n, p.max, reason, now, ctxs), expired[n], reason, now, ctxs(n));
      MaxKept(p, first);
      var rest := RoutesAreARun(After(p, first), s, expired, n + 1, base, reason, now, ctxs);
      RunConcat(p, first, rest);
      run := first + rest;
    }
  }

  /** Queue.Sweep: reap every expired lease, then route each under whatever context it meets. */
  lemma SweepIsARun(p: State, s: Store, expired: seq<LM.Lease>, reason: Reason, now: int, ctxs: nat -> Liveness)
    returns (run: seq<Action>)
    requires Stands(p, s) && LM.ExactlyExpired(s.b, expired, now)
    ensures CanRun(p, run) && After(p, run).jobs == p.jobs
    ensures Stands(After(p, run), RouteEach(s, expired, |expired|, p.max, reason, now, ctxs))
    ensures (forall i :: 0 <= i < |expired| ==> ctxs(i) == Live) ==>
      Routed(s, RouteEach(s, expired, |expired|, p.max, reason, now, ctxs), ExpiredTokens(s.b, now), p.max, reason, now)
  {
    var reaps := ReapsAreARun(p, expired, 0, now);
    var routes := RoutesAreARun(After(p, reaps), s, expired, 0, p.jobs, reason, now, ctxs);
    RunConcat(p, reaps, routes);
    run := reaps + routes;
    if forall i :: 0 <= i < |expired| ==> ctxs(i) == Live {
      SweepRouted(s, expired, p.max, reason, now, ctxs);
    }
  }
}
