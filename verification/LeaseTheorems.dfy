/** What holds over whole runs of the lease protocol. */
module LeaseTheorems {
  import opened Tasks
  import LM = LeaseModel
  import opened LeaseProtocol
  import opened LeaseInvariants

  /** What every step keeps. */
  ghost predicate Inv(s: State) {
    && Control(s)
    && Ledger(s)
    && Tracked(s)
    && RedrivesPlaced(s)
    && (IdsIdentify(s.log.enqueued) && !s.log.raced ==> NoTaskLost(s))
  }

  lemma InvInit(mode: Mode, max: nat)
    requires 1 <= max
    ensures Inv(Init(mode, max))
  {
    var s := Init(mode, max);
    assert LM.Live(s.b) == multiset{} && LM.Incarnations(multiset{}) == multiset{};
    assert Control(s);
    assert Conserved(LM.Live(s.b), s.log.born, s.log.acked, s.log.dropped);
    assert Unique(s.b.nextUid, s.log.born);
    assert Counted(LM.Live(s.b), s.b.nextUid, s.max, s.log.delivered);
  }

  lemma NoTaskLostKept(s: State, a: Action)
    requires Inv(s) && Enabled(s, a)
    requires IdsIdentify(Apply(s, a).log.enqueued) && !Apply(s, a).log.raced
    ensures NoTaskLost(Apply(s, a))
  {
    var s' := Apply(s, a);
    HistoryGrows(s, a);
    RacedGrows(s, a);
    forall task | task in s'.log.enqueued
      ensures Kept(s', task)
    {
      if task in s.log.enqueued {
        KeptKept(s, a, task);
      } else {
        EnqueuePlaces(s, task);
      }
    }
  }

  lemma HistoryGrows(s: State, a: Action)
    requires Enabled(s, a)
    ensures a.DoEnqueue? ==> Apply(s, a).log.enqueued == s.log.enqueued + {a.task}
    ensures !a.DoEnqueue? ==> Apply(s, a).log.enqueued == s.log.enqueued
    ensures Apply(s, a).max == s.max
  {
    if a.Run? {
      RunHistory(Without(s, a.job), a.job);
    }
  }

  lemma RunHistory(s: State, job: Job)
    ensures RunJob(s, job).log.enqueued == s.log.enqueued && RunJob(s, job).max == s.max
    ensures RunJob(s, job).log.raced == (s.log.raced || Races(s, Run(job)))
  {
  }

  lemma RacedGrows(s: State, a: Action)
    requires Enabled(s, a)
    ensures Apply(s, a).log.raced == (s.log.raced || Races(s, a))
  {
    if a.Run? {
      RunHistory(Without(s, a.job), a.job);
    }
  }

  lemma InvKept(s: State, a: Action)
    requires Inv(s) && Enabled(s, a)
    ensures Inv(Apply(s, a))
  {
    ControlKept(s, a);
    LedgerKept(s, a);
    TrackedKept(s, a);
    RedrivesPlacedKept(s, a);
    if IdsIdentify(Apply(s, a).log.enqueued) && !Apply(s, a).log.raced {
      NoTaskLostKept(s, a);
    }
  }

  lemma {:induction false} InvAfter(s: State, run: seq<Action>)
    requires Inv(s) && CanRun(s, run)
    ensures Inv(After(s, run)) && After(s, run).max == s.max
    decreases |run|
  {
    if run != [] {
      InvKept(s, run[0]);
      HistoryGrows(s, run[0]);
      InvAfter(Apply(s, run[0]), run[1..]);
    }
  }

  /** A state some run from the start reaches. */
  ghost predicate Reachable(s: State, mode: Mode, max: nat) {
    exists run :: CanRun(Init(mode, max), run) && After(Init(mode, max), run) == s
  }

  lemma ReachableInv(s: State, mode: Mode, max: nat)
    requires 1 <= max && Reachable(s, mode, max)
    ensures Inv(s) && s.max == max
  {
    var run :| CanRun(Init(mode, max), run) && After(Init(mode, max), run) == s;
    InvInit(mode, max);
    InvAfter(Init(mode, max), run);
  }

  /**
    No task is lost, over every interleaving: as long as no Remove hit an entry newer than the
    one its Redrive put back, each enqueued task was acked, is ready, is under a lease that is
    not about to be dropped, or is in the dead-letter store.
   */
  lemma NoTaskIsLost(s: State, mode: Mode, max: nat, task: Task)
    requires 1 <= max && Reachable(s, mode, max)
    requires IdsIdentify(s.log.enqueued) && !s.log.raced && task in s.log.enqueued
    ensures
      || (exists inc :: inc in s.log.acked && inc.task == task)
      || (exists x :: x in s.b.ready && x.inc.task == task)
      || (exists t :: t in s.b.leases && s.b.leases[t].item.inc.task == task && !Dropping(s.jobs, t))
      || (task.id in s.dlq && s.dlq[task.id] == task)
  {
    ReachableInv(s, mode, max);
    assert Kept(s, task);
  }

  /**
    Delivery bound: ready items are below the ceiling, leased ones at or below it, and no
    incarnation was ever claimed more than max times.
   */
  lemma DeliveryBound(s: State, mode: Mode, max: nat)
    requires 1 <= max && Reachable(s, mode, max)
    ensures forall x :: x in s.b.ready ==> s.log.delivered[x.inc.uid] == x.attempt < max
    ensures forall t :: t in s.b.leases ==>
      1 <= s.log.delivered[s.b.leases[t].item.inc.uid] == s.b.leases[t].item.attempt <= max
    ensures forall uid: nat :: s.log.delivered[uid] <= max
  {
    ReachableInv(s, mode, max);
    forall t | t in s.b.leases
      ensures s.b.leases[t].item in LM.Live(s.b)
    {
      LiveDropped(s.b, t);
    }
  }

  /**
    Single settlement: per token at most one Ack or Nack, by consumer or reaper, ever succeeded,
    and one did exactly when the token was issued and has left the table. A call that comes
    late changes neither the backend nor the history.
   */
  lemma SingleSettlement(s: State, mode: Mode, max: nat, lease: LM.Lease)
    requires 1 <= max && Reachable(s, mode, max)
    ensures s.log.settled[lease.token] <= 1
    ensures s.log.settled[lease.token] == 1 <==> lease.token < s.b.nextToken && lease.token !in s.b.leases
    ensures s.log.settled[lease.token] == 1 ==>
      RunAck(s, lease) == s && RunRequeue(s, lease) == s && RunDrop(s, lease) == s
  {
    ReachableInv(s, mode, max);
  }

  /**
    Conservation: the incarnations put into ready are the ready, leased, acked and dropped ones
    as bags, and none of them occurs twice.
   */
  lemma Conservation(s: State, mode: Mode, max: nat)
    requires 1 <= max && Reachable(s, mode, max)
    ensures s.log.born
         == LM.Incarnations(s.b.ready) + LM.Incarnations(LM.Held(s.b.leases)) + s.log.acked + s.log.dropped
    ensures forall inc :: s.log.born[inc] <= 1
    ensures forall i, j :: i in s.log.born && j in s.log.born && i.uid == j.uid ==> i == j
  {
    ReachableInv(s, mode, max);
    LM.IncarnationsUnion(s.b.ready, LM.Held(s.b.leases));
  }

  // ---------- The order of deliveries ----------

  lemma {:induction false} StepEnabled(s: State, run: seq<Action>, i: nat)
    requires CanRun(s, run) && i < |run|
    ensures CanRun(s, run[..i]) && Enabled(After(s, run[..i]), run[i])
    decreases i
  {
    hide Enabled, Apply;
    if i == 0 {
      assert run[..0] == [];
    } else {
      StepEnabled(Apply(s, run[0]), run[1..], i - 1);
      assert run[..i][1..] == run[1..][..i - 1];
    }
  }

  /**
    Every delivery of every run, whoever makes it and after whatever requeues: no ready task has a
    higher priority than the one delivered, nor an equal one and a lower order.
   */
  lemma NoneIsOvertaken(s: State, run: seq<Action>, i: nat)
    requires CanRun(s, run) && i < |run| && run[i].DoClaim?
    ensures CanRun(s, run[..i])
    ensures var b, task := After(s, run[..i]).b, run[i].item.inc.task;
      && run[i].item in b.ready
      && (b.mode == PriorityMode ==> forall x :: x in b.ready ==>
            && x.inc.task.priority <= task.priority
            && (x.inc.task.priority == task.priority ==> task.order <= x.inc.task.order))
      && (b.mode == FifoMode ==> forall x :: x in b.ready ==> task.order <= x.inc.task.order)
  {
    StepEnabled(s, run, i);
    hide CanRun, After, Apply, Before;
    var b := After(s, run[..i]).b;
    LM.LeastByFields(b.mode, run[i].item, b.ready);
  }

  // ---------- The visibility timeout ----------

  /** The lease is in the table, and nobody is about to settle it. */
  ghost predicate Protected(b: LM.Backend, jobs: multiset<Job>, t: nat, e: LM.Entry) {
    && t in b.leases && b.leases[t] == e && t < b.nextToken
    && forall j :: j in jobs && HasLease(j) ==> j.lease.token != t
  }

  /** No settlement of this lease by its consumer, and no sweep of it before its deadline is over. */
  predicate LeavesAlone(a: Action, t: nat, deadline: int) {
    && (a.SettleAck? || a.SettleNack? ==> a.lease.token != t)
    && (a.Reap? && a.token == t ==> a.now < deadline)
  }

  lemma ProtectedReleases(b: LM.Backend, jobs: multiset<Job>, t: nat, e: LM.Entry, other: nat)
    requires Protected(b, jobs, t, e) && other != t
    ensures Protected(LM.Drop(b, other), jobs, t, e) && Protected(LM.Requeue(b, other), jobs, t, e)
  {
  }

  lemma ProtectedCall(b: LM.Backend, jobs: multiset<Job>, t: nat, e: LM.Entry, job: Job)
    requires Protected(b, jobs, t, e)
    ensures Protected(b, jobs - multiset{job}, t, e)
    ensures (HasLease(job) ==> job.lease.token != t) ==> Protected(b, jobs + multiset{job}, t, e)
    ensures job in jobs && HasLease(job) ==> job.lease.token != t
  {
  }

  lemma ProtectedEnqueue(b: LM.Backend, jobs: multiset<Job>, t: nat, e: LM.Entry, task: Task)
    requires Protected(b, jobs, t, e)
    ensures Protected(LM.Enqueue(b, task), jobs, t, e)
  {
  }

  lemma ProtectedClaim(b: LM.Backend, jobs: multiset<Job>, t: nat, e: LM.Entry, item: LM.Item, deadline: int)
    requires Protected(b, jobs, t, e) && item in b.ready
    ensures Protected(LM.Claim(b, item, deadline), jobs, t, e)
  {
  }

  lemma ProtectedJob(s: State, job: Job, t: nat, e: LM.Entry)
    requires Protected(s.b, s.jobs, t, e) && (HasLease(job) ==> job.lease.token != t)
    ensures Protected(RunJob(s, job).b, RunJob(s, job).jobs, t, e)
  {
    if HasLease(job) {
      ProtectedReleases(s.b, s.jobs, t, e, job.lease.token);
      ProtectedCall(s.b, s.jobs, t, e, DropCall(job.lease));
    } else if job.RedriveCall? {
      ProtectedEnqueue(s.b, s.jobs, t, e, job.task);
      ProtectedCall(LM.Enqueue(s.b, job.task), s.jobs, t, e,
                    RemoveCall(job.task, s.b.nextUid, s.log.adds[job.task.id]));
    }
    hide Protected;
  }

  lemma ProtectedStep(s: State, a: Action, t: nat, e: LM.Entry)
    requires Protected(s.b, s.jobs, t, e) && Enabled(s, a) && LeavesAlone(a, t, e.deadline)
    ensures Protected(Apply(s, a).b, Apply(s, a).jobs, t, e)
  {
    assert a.Reap? ==> a.token != t;
    hide Protected, RunJob, LM.Claim, LM.Enqueue, Before;
    match a
    case DoEnqueue(task) => ProtectedEnqueue(s.b, s.jobs, t, e, task);
    case DoClaim(item, deadline) => ProtectedClaim(s.b, s.jobs, t, e, item, deadline);
    case SettleAck(lease) => ProtectedCall(s.b, s.jobs, t, e, AckCall(lease));
    case SettleNack(lease) => ProtectedCall(s.b, s.jobs, t, e, RouteCall(lease));
    case Reap(token, _) => ProtectedCall(s.b, s.jobs, t, e, RouteCall(LM.Snapshot(s.b, token)));
    case FindDead(id) => ProtectedCall(s.b, s.jobs, t, e, RedriveCall(s.dlq[id]));
    case Run(job) =>
      ProtectedCall(s.b, s.jobs, t, e, job);
      ProtectedJob(Without(s, job), job, t, e);
    case Abort(job) => ProtectedCall(s.b, s.jobs, t, e, job);
  }

  lemma {:induction false} ProtectedStays(s: State, run: seq<Action>, t: nat, e: LM.Entry)
    requires Protected(s.b, s.jobs, t, e) && CanRun(s, run)
    requires forall i :: 0 <= i < |run| ==> LeavesAlone(run[i], t, e.deadline)
    ensures t in After(s, run).b.leases && After(s, run).b.leases[t] == e
    decreases |run|
  {
    if run != [] {
      ProtectedStep(s, run[0], t, e);
      hide Apply, Enabled, LeavesAlone;
      ProtectedStays(Apply(s, run[0]), run[1..], t, e);
    }
  }

  /**
    The visibility timeout protects a consumer: whatever everybody else does after its claim, the
    lease stays in the table unchanged until this consumer settles it or a sweep finds its
    deadline over.
   */
  lemma LeaseStaysUntilDue(s: State, item: LM.Item, deadline: int, run: seq<Action>)
    requires Inv(s) && Enabled(s, DoClaim(item, deadline)) && CanRun(Apply(s, DoClaim(item, deadline)), run)
    requires forall i :: 0 <= i < |run| ==>
      && (run[i].SettleAck? || run[i].SettleNack? ==> run[i].lease.token != s.b.nextToken)
      && (run[i].Reap? && run[i].token == s.b.nextToken ==> run[i].now < deadline)
    ensures var b := After(Apply(s, DoClaim(item, deadline)), run).b;
      s.b.nextToken in b.leases && b.leases[s.b.nextToken] == LM.Entry(LM.Item(item.inc, item.attempt + 1), deadline)
  {
    hide Before, Control, Ledger, Tracked, RedrivesPlaced, NoTaskLost, CanRun, After, Protected, LM.Claim;
    ClaimProtects(s, item, deadline);
    var e := LM.Entry(LM.Claimed(item), deadline);
    ProtectedStays(Apply(s, DoClaim(item, deadline)), run, s.b.nextToken, e);
  }

  lemma ClaimProtects(s: State, item: LM.Item, deadline: int)
    requires Control(s) && item in s.b.ready
    ensures Protected(LM.Claim(s.b, item, deadline), s.jobs, s.b.nextToken, LM.Entry(LM.Claimed(item), deadline))
  {
    assert forall j :: j in s.jobs && HasLease(j) ==> Truthful(s.b, j.lease);
  }

  // ---------- Termination ----------

  function Deliveries(run: seq<Action>): nat {
    if run == [] then 0 else (if run[0].DoClaim? then 1 else 0) + Deliveries(run[1..])
  }

  predicate IsBirth(a: Action) {
    a.DoEnqueue? || (a.Run? && a.job.RedriveCall?)
  }

  /** How many deliveries the Enqueues and Redrives of a run pay for. */
  function Allowance(run: seq<Action>, max: nat): nat {
    if run == [] then 0 else (if IsBirth(run[0]) then max else 0) + Allowance(run[1..], max)
  }

  /** Each claim spends one delivery of the budget; only an Enqueue or a Redrive adds to it. */
  lemma BudgetStep(s: State, a: Action)
    requires Inv(s) && Enabled(s, a)
    ensures a.DoClaim? ==> LM.Budget(Apply(s, a).b, s.max) == LM.Budget(s.b, s.max) - 1
    ensures IsBirth(a) ==> LM.Budget(Apply(s, a).b, s.max) == LM.Budget(s.b, s.max) + s.max
    ensures !a.DoClaim? && !IsBirth(a) ==> LM.Budget(Apply(s, a).b, s.max) <= LM.Budget(s.b, s.max)
  {
    assert Bounds(s.b, s.max);
    hide Inv, Control, RunJob, LM.Budget, Before, LM.Enqueue, LM.Claim, LM.Snapshot;
    match a
    case DoEnqueue(task) => LM.BudgetEnqueue(s.b, task, s.max);
    case DoClaim(item, deadline) => LM.BudgetClaim(s.b, item, deadline, s.max);
    case Run(job) => BudgetRun(Without(s, job), job);
    case _ =>
  }

  /** Releasing a lease at or below the ceiling never adds to the budget. */
  lemma BudgetReleased(s: State, lease: LM.Lease)
    requires Bounds(s.b, s.max)
    ensures LM.Budget(RunAck(s, lease).b, s.max) <= LM.Budget(s.b, s.max)
    ensures LM.Budget(RunDrop(s, lease).b, s.max) <= LM.Budget(s.b, s.max)
    ensures LM.Budget(RunRequeue(s, lease).b, s.max) == LM.Budget(s.b, s.max)
  {
    hide LM.Budget;
    if lease.token in s.b.leases {
      LM.BudgetRelease(s.b, lease.token, s.max);
    }
  }

  lemma BudgetRun(s: State, job: Job)
    requires Bounds(s.b, s.max)
    ensures job.RedriveCall? ==> LM.Budget(RunJob(s, job).b, s.max) == LM.Budget(s.b, s.max) + s.max
    ensures !job.RedriveCall? ==> LM.Budget(RunJob(s, job).b, s.max) <= LM.Budget(s.b, s.max)
  {
    hide LM.Budget, Bounds, RunAck, RunDrop, RunRequeue;
    if job.RedriveCall? {
      LM.BudgetEnqueue(s.b, job.task, s.max);
    } else if HasLease(job) {
      BudgetReleased(s, job.lease);
    }
  }

  lemma BudgetNonNegative(s: State)
    requires Inv(s)
    ensures 0 <= LM.Budget(s.b, s.max)
  {
    forall x | x in LM.Live(s.b)
      ensures x.attempt <= s.max
    {
      LM.HeldHas(s.b.leases, x);
    }
    LM.RemainingNonNegative(LM.Live(s.b), s.max);
  }

  /**
    Termination: over any run, deliveries are paid for by the initial budget and by max for
    every Enqueue and Redrive, so without those a run makes at most Budget(s) deliveries.
   */
  lemma {:induction false} DeliveriesArePaidFor(s: State, run: seq<Action>)
    requires Inv(s) && CanRun(s, run)
    ensures 0 <= LM.Budget(After(s, run).b, s.max)
    ensures Deliveries(run) + LM.Budget(After(s, run).b, s.max) <= LM.Budget(s.b, s.max) + Allowance(run, s.max)
    decreases |run|
  {
    if run == [] {
      BudgetNonNegative(s);
    } else {
      InvKept(s, run[0]);
      HistoryGrows(s, run[0]);
      BudgetStep(s, run[0]);
      DeliveriesArePaidFor(Apply(s, run[0]), run[1..]);
    }
  }
}
