/** Where the no-loss promise stops: a Redrive split by a new dead-lettering of its task. */
module RacedRedrive {
  import opened Tasks
  import LM = LeaseModel
  import opened LeaseProtocol
  import opened LeaseInvariants
  import opened LeaseTheorems

  lemma {:induction false} RunAppend(s: State, run: seq<Action>, a: Action)
    requires CanRun(s, run) && Enabled(After(s, run), a)
    ensures CanRun(s, run + [a]) && After(s, run + [a]) == Apply(After(s, run), a)
    decreases |run|
  {
    if run == [] {
      assert run + [a] == [a] && [a][1..] == [];
    } else {
      assert (run + [a])[0] == run[0] && (run + [a])[1..] == run[1..] + [a];
      RunAppend(Apply(s, run[0]), run[1..], a);
    }
  }

  lemma ReachableStep(s: State, mode: Mode, max: nat, a: Action)
    requires Reachable(s, mode, max) && Enabled(s, a)
    ensures Reachable(Apply(s, a), mode, max)
  {
    var run :| CanRun(Init(mode, max), run) && After(Init(mode, max), run) == s;
    RunAppend(Init(mode, max), run, a);
  }

  /** Nothing ready or leased, and no claim in anyone's hand. */
  ghost predicate Quiet(s: State) {
    s.b.ready == multiset{} && s.b.leases == map[] && s.handles == {}
  }

  /** A sole ready item can be claimed, and the consumer can nack. */
  lemma ClaimAndNack(s: State, item: LM.Item) returns (s1: State, s': State, lease: LM.Lease)
    requires s.b.ready == multiset{item} && s.b.leases == map[] && s.handles == {}
    ensures Enabled(s, DoClaim(item, 0)) && s1 == Apply(s, DoClaim(item, 0))
    ensures lease == LM.ClaimLease(s.b, item, 0)
    ensures Enabled(s1, SettleNack(lease)) && s' == Apply(s1, SettleNack(lease))
    ensures s'.b == LM.Claim(s.b, item, 0) && s'.jobs == s.jobs + multiset{RouteCall(lease)}
    ensures s'.handles == {} && s'.dlq == s.dlq && s'.max == s.max
    ensures s'.log == s.log.(delivered := s'.log.delivered)
  {
    lease := LM.ClaimLease(s.b, item, 0);
    BeforeIsStrictWeakOrder(s.b.mode, item.inc.task, item.inc.task, item.inc.task);
    s1 := Apply(s, DoClaim(item, 0));
    s' := Apply(s1, SettleNack(lease));
    assert s'.handles == s.handles;
  }

  /** A route of a lease at its last attempt dead-letters the task and drops the lease. */
  lemma RouteKills(s: State, lease: LM.Lease) returns (s1: State, s': State)
    requires RouteCall(lease) in s.jobs && lease.attempt == s.max && lease.token in s.b.leases
    ensures s1 == Apply(s, Run(RouteCall(lease)))
    ensures Enabled(s1, Run(DropCall(lease))) && s' == Apply(s1, Run(DropCall(lease)))
    ensures s'.b == LM.Drop(s.b, lease.token) && s'.dlq == s.dlq[lease.task.id := lease.task]
    ensures s'.jobs == s.jobs - multiset{RouteCall(lease)} && s'.handles == s.handles && s'.max == s.max
    ensures s'.log.adds == s.log.adds + multiset{lease.task.id}
    ensures s'.log == s.log.(adds := s'.log.adds, dropped := s'.log.dropped, settled := s'.log.settled)
  {
    s1 := Apply(s, Run(RouteCall(lease)));
    s' := Apply(s1, Run(DropCall(lease)));
    LM.BagRemove(s.jobs - multiset{RouteCall(lease)}, DropCall(lease));
  }

  /** The four steps in which a claimed item is nacked, dead-lettered and dropped. */
  ghost predicate DiesTo(s: State, item: LM.Item, s': State) {
    var lease := LM.ClaimLease(s.b, item, 0);
    && Enabled(s, DoClaim(item, 0))
    && var s1 := Apply(s, DoClaim(item, 0));
    && Enabled(s1, SettleNack(lease))
    && var s2 := Apply(s1, SettleNack(lease));
    && Enabled(s2, Run(RouteCall(lease)))
    && var s3 := Apply(s2, Run(RouteCall(lease)));
    && Enabled(s3, Run(DropCall(lease)))
    && s' == Apply(s3, Run(DropCall(lease)))
  }

  /** A sole ready item at its last attempt goes from ready to the dead-letter store. */
  lemma DeadRound(s: State, item: LM.Item) returns (s': State)
    requires s.b.ready == multiset{item} && s.b.leases == map[] && item.attempt + 1 == s.max && s.handles == {}
    ensures DiesTo(s, item, s')
    ensures Quiet(s') && s'.max == s.max && s'.b.nextUid == s.b.nextUid && s'.jobs == s.jobs
    ensures s'.dlq == s.dlq[item.inc.task.id := item.inc.task]
    ensures s'.log.adds == s.log.adds + multiset{item.inc.task.id}
    ensures s'.log.acked == s.log.acked && s'.log.enqueued == s.log.enqueued && s'.log.raced == s.log.raced
  {
    var s1, s2, lease := ClaimAndNack(s, item);
    var s3;
    s3, s' := RouteKills(s2, lease);
    LM.BagRemove(s.jobs, RouteCall(lease));
    assert s'.b.leases == map[] && s'.b.ready == multiset{};
  }

  lemma ReachableDeath(s: State, mode: Mode, max: nat, item: LM.Item, s': State)
    requires Reachable(s, mode, max) && DiesTo(s, item, s')
    ensures Reachable(s', mode, max)
  {
    var lease := LM.ClaimLease(s.b, item, 0);
    var s1 := Apply(s, DoClaim(item, 0));
    var s2 := Apply(s1, SettleNack(lease));
    ReachableStep(s, mode, max, DoClaim(item, 0));
    ReachableStep(s1, mode, max, SettleNack(lease));
    ReachableStep(s2, mode, max, Run(RouteCall(lease)));
    ReachableStep(Apply(s2, Run(RouteCall(lease))), mode, max, Run(DropCall(lease)));
  }

  /** With one entry in the dead-letter store, a Redrive gets as far as its Enqueue. */
  lemma HalfRedrive(s: State, task: Task) returns (s1: State, s': State)
    requires Quiet(s) && s.jobs == multiset{} && s.dlq == map[task.id := task]
    ensures Enabled(s, FindDead(task.id)) && s1 == Apply(s, FindDead(task.id))
    ensures Enabled(s1, Run(RedriveCall(task))) && s' == Apply(s1, Run(RedriveCall(task)))
    ensures s'.b.ready == multiset{LM.Item(LM.Incarnation(s.b.nextUid, task), 0)}
    ensures s'.b.leases == map[] && s'.handles == {} && s'.max == s.max && s'.dlq == s.dlq
    ensures s'.jobs == multiset{RemoveCall(task, s.b.nextUid, s.log.adds[task.id])}
    ensures s'.log == s.log.(born := s'.log.born)
  {
    s1 := Apply(s, FindDead(task.id));
    s' := Apply(s1, Run(RedriveCall(task)));
  }

  /** The run of RacedRedriveLosesTask, step by step. */
  ghost predicate LosingRun(task: Task, s1: State, s2: State, s3: State, s4: State, s5: State, s: State) {
    var remove := RemoveCall(task, 1, 1);
    && s1 == Apply(Init(FifoMode, 1), DoEnqueue(task))
    && DiesTo(s1, LM.Item(LM.Incarnation(0, task), 0), s2)
    && Enabled(s2, FindDead(task.id)) && s3 == Apply(s2, FindDead(task.id))
    && Enabled(s3, Run(RedriveCall(task))) && s4 == Apply(s3, Run(RedriveCall(task)))
    && DiesTo(s4, LM.Item(LM.Incarnation(1, task), 0), s5)
    && Enabled(s5, Run(remove)) && s == Apply(s5, Run(remove))
  }

  /** A new task dies at its only attempt. */
  lemma FirstDeath(task: Task) returns (s1: State, s2: State)
    ensures s1 == Apply(Init(FifoMode, 1), DoEnqueue(task))
    ensures DiesTo(s1, LM.Item(LM.Incarnation(0, task), 0), s2)
    ensures Quiet(s2) && s2.max == 1 && s2.b.nextUid == 1 && s2.jobs == multiset{} && s2.dlq == map[task.id := task]
    ensures s2.log.adds == multiset{task.id} && s2.log.enqueued == {task} && s2.log.acked == multiset{}
  {
    s1 := Apply(Init(FifoMode, 1), DoEnqueue(task));
    s2 := DeadRound(s1, LM.Item(LM.Incarnation(0, task), 0));
  }

  lemma LastRemove(s: State, task: Task, remove: Job) returns (s': State)
    requires Quiet(s) && s.jobs == multiset{remove} && s.dlq == map[task.id := task]
    requires remove == RemoveCall(task, 1, 1) && s.log.adds[task.id] == 2
    ensures s' == Apply(s, Run(remove)) && Quiet(s') && s'.dlq == map[] && s'.log == s.log.(raced := true)
  {
    s' := Apply(s, Run(remove));
    assert s'.dlq == map[];
  }

  /** Redriven, the task dies again while the Remove of that Redrive is still to come. */
  lemma SecondDeath(s: State, task: Task) returns (s': State)
    requires s.b.ready == multiset{LM.Item(LM.Incarnation(1, task), 0)} && s.b.leases == map[] && s.handles == {}
    requires s.max == 1 && s.dlq == map[task.id := task] && s.log.adds == multiset{task.id}
    ensures DiesTo(s, LM.Item(LM.Incarnation(1, task), 0), s')
    ensures Quiet(s') && s'.jobs == s.jobs && s'.dlq == map[task.id := task] && s'.log.adds[task.id] == 2
    ensures s'.log.enqueued == s.log.enqueued && s'.log.acked == s.log.acked
  {
    s' := DeadRound(s, LM.Item(LM.Incarnation(1, task), 0));
  }

  lemma LosingRunLoses(task: Task) returns (s1: State, s2: State, s3: State, s4: State, s5: State, s: State)
    ensures LosingRun(task, s1, s2, s3, s4, s5, s)
    ensures Quiet(s) && s.log.enqueued == {task} && s.dlq == map[] && s.log.acked == multiset{} && s.log.raced
  {
    s1, s2 := FirstDeath(task);
    s3, s4 := HalfRedrive(s2, task);
    s5 := SecondDeath(s4, task);
    s := LastRemove(s5, task, RemoveCall(task, 1, 1));
  }

  lemma LosingRunIsReal(task: Task, s1: State, s2: State, s3: State, s4: State, s5: State, s: State)
    requires LosingRun(task, s1, s2, s3, s4, s5, s)
    ensures Reachable(s, FifoMode, 1)
  {
    var s0 := Init(FifoMode, 1);
    assert CanRun(s0, []) && After(s0, []) == s0;
    ReachableStep(s0, FifoMode, 1, DoEnqueue(task));
    ReachableDeath(s1, FifoMode, 1, LM.Item(LM.Incarnation(0, task), 0), s2);
    ReachableStep(s2, FifoMode, 1, FindDead(task.id));
    ReachableStep(s3, FifoMode, 1, Run(RedriveCall(task)));
    ReachableDeath(s4, FifoMode, 1, LM.Item(LM.Incarnation(1, task), 0), s5);
    ReachableStep(s5, FifoMode, 1, Run(RemoveCall(task, 1, 1)));
  }

  lemma NowhereIsLost(s: State, task: Task)
    requires Quiet(s) && s.dlq == map[] && s.log.acked == multiset{}
    ensures !Kept(s, task)
  {
  }

  /**
    A Redrive whose Enqueue and Remove are split by a new dead-lettering of the same task
    loses the task: this run ends with the task nowhere at all.
   */
  lemma RacedRedriveLosesTask(task: Task)
    ensures exists s :: Reachable(s, FifoMode, 1) && task in s.log.enqueued && s.log.raced && !Kept(s, task)
  {
    var s1, s2, s3, s4, s5, s := LosingRunLoses(task);
    NowhereIsLost(s, task);
    LosingRunIsReal(task, s1, s2, s3, s4, s5, s);
  }

  /**
    When exactly a Remove is safe: it loses its task if and only if it takes an entry out of
    the dead-letter store while no copy of the task is acked, ready or safely leased. A Remove
    that does not race always finds such a copy.
   */
  lemma RemoveIsSafeExactly(s: State, remove: Job)
    requires Inv(s) && remove in s.jobs && remove.RemoveCall?
    requires IdsIdentify(s.log.enqueued) && NoTaskLost(s)
    ensures NoTaskLost(Apply(s, Run(remove))) <==> remove.task.id !in s.dlq || PlacedTask(s, remove.task)
    ensures !Races(s, Run(remove)) ==> PlacedTask(s, remove.task)
  {
    var s' := Apply(s, Run(remove));
    assert JobTask(remove) == remove.task;
    forall task | task in s.log.enqueued
      ensures Kept(s', task) <==> if task == remove.task then PlacedTask(s, task) else Kept(s, task)
    {
      RemoveKeepsPlaces(s, remove, task);
      RemoveKeepsDead(s, remove, task);
    }
    assert remove.task.id !in s.dlq ==> Kept(s, remove.task);
    assert !Races(s, Run(remove)) ==> Placed(s, LM.Incarnation(remove.uid, remove.task));
  }

  lemma RemoveKeepsDead(s: State, remove: Job, task: Task)
    requires Tracked(s) && remove.RemoveCall? && remove in s.jobs
    requires IdsIdentify(s.log.enqueued) && task in s.log.enqueued && remove.task in s.log.enqueued
    ensures var s' := Apply(s, Run(remove));
      s'.log.enqueued == s.log.enqueued
      && (task.id in s'.dlq && s'.dlq[task.id] == task
          <==> task != remove.task && task.id in s.dlq && s.dlq[task.id] == task)
  {
  }

  lemma RemoveKeepsPlaces(s: State, remove: Job, task: Task)
    requires remove.RemoveCall? && remove in s.jobs
    ensures PlacedTask(Apply(s, Run(remove)), task) <==> PlacedTask(s, task)
  {
    var s' := Apply(s, Run(remove));
    forall t: nat
      ensures Dropping(s.jobs, t) <==> Dropping(s'.jobs, t)
    {
      if j :| j in s.jobs && j.DropCall? && j.lease.token == t {
        assert j in s'.jobs;
      }
    }
    forall uid: nat
      ensures Placed(s', LM.Incarnation(uid, task)) <==> Placed(s, LM.Incarnation(uid, task))
    {
    }
  }
}
