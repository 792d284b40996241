/** What every step of the lease protocol keeps, invariant by invariant. */
module LeaseInvariants {
  import opened Tasks
  import LM = LeaseModel
  import opened LeaseProtocol

  // ---------- Snapshots and attempt counts ----------

  predicate HasLease(j: Job) {
    j.AckCall? || j.RouteCall? || j.DropCall?
  }

  /** While its token is in the table, a snapshot tells the truth about the item under it. */
  predicate Truthful(b: LM.Backend, l: LM.Lease) {
    l.token < b.nextToken && (l.token in b.leases ==> LM.Snapshot(b, l.token) == l)
  }

  ghost predicate Snapshots(s: State) {
    && (forall l :: l in s.handles ==> Truthful(s.b, l))
    && (forall j :: j in s.jobs && HasLease(j) ==> Truthful(s.b, j.lease))
  }

  /** Attempt counts never pass the ceiling, and tokens are issued once. */
  ghost predicate Bounds(b: LM.Backend, max: nat) {
    && 1 <= max
    && (forall x :: x in b.ready ==> x.attempt < max)
    && (forall t :: t in b.leases ==> t < b.nextToken && 1 <= b.leases[t].item.attempt <= max)
  }

  /** Every issued token is either still in the table or settled exactly once. */
  ghost predicate Settlement(b: LM.Backend, settled: multiset<nat>) {
    forall t: nat :: settled[t] == if t < b.nextToken && t !in b.leases then 1 else 0
  }

  ghost predicate Control(s: State) {
    Bounds(s.b, s.max) && Snapshots(s) && Settlement(s.b, s.log.settled)
  }

  lemma ControlBirth(s: State, task: Task)
    requires Control(s)
    ensures Control(Birth(s, task))
  {
  }

  lemma ControlDeliver(s: State, item: LM.Item, deadline: int)
    requires Control(s) && item in s.b.ready
    ensures Control(Deliver(s, item, deadline))
  {
  }

  lemma ControlWithout(s: State, job: Job)
    requires Control(s)
    ensures Control(Without(s, job))
  {
  }

  lemma ControlWith(s: State, job: Job)
    requires Control(s) && (HasLease(job) ==> Truthful(s.b, job.lease))
    ensures Control(With(s, job))
  {
  }

  lemma ControlAck(s: State, lease: LM.Lease)
    requires Control(s) && lease.token < s.b.nextToken
    ensures Control(RunAck(s, lease))
  {
  }

  lemma ControlDrop(s: State, lease: LM.Lease)
    requires Control(s) && lease.token < s.b.nextToken
    ensures Control(RunDrop(s, lease))
  {
  }

  lemma ControlRequeue(s: State, lease: LM.Lease)
    requires Control(s) && Truthful(s.b, lease) && lease.attempt < s.max
    ensures Control(RunRequeue(s, lease))
  {
  }

  lemma ControlAdd(s: State, lease: LM.Lease)
    requires Control(s) && Truthful(s.b, lease)
    ensures Control(RunAdd(s, lease))
  {
    ControlWith(s, DropCall(lease));
  }

  lemma ControlRedrive(s: State, task: Task)
    requires Control(s)
    ensures Control(RunRedrive(s, task))
  {
    ControlBirth(s, task);
    ControlWith(Birth(s, task), RemoveCall(task, s.b.nextUid, s.log.adds[task.id]));
  }

  lemma ControlRemove(s: State, task: Task, adds: nat)
    requires Control(s)
    ensures Control(RunRemove(s, task, adds))
  {
  }

  lemma ControlTruthful(s: State, job: Job)
    requires Control(s) && job in s.jobs && HasLease(job)
    ensures Truthful(Without(s, job).b, job.lease) && job.lease.token < s.b.nextToken
  {
  }

  lemma ControlSettle(s: State, lease: LM.Lease, job: Job)
    requires Control(s) && lease in s.handles && HasLease(job) && job.lease == lease
    ensures Control(With(s.(handles := s.handles - {lease}), job))
  {
    ControlWith(s.(handles := s.handles - {lease}), job);
  }

  lemma ControlKeptByRun(s: State, job: Job)
    requires Control(s) && job in s.jobs
    ensures Control(RunJob(Without(s, job), job))
  {
    hide Control, Truthful, RunAck, RunRequeue, RunAdd, RunDrop, RunRedrive, RunRemove;
    var s' := Without(s, job);
    ControlWithout(s, job);
    if HasLease(job) {
      ControlTruthful(s, job);
    }
    match job
    case AckCall(lease) => ControlAck(s', lease);
    case RouteCall(lease) =>
      if lease.attempt >= s.max {
        ControlAdd(s', lease);
      } else {
        ControlRequeue(s', lease);
      }
    case DropCall(lease) => ControlDrop(s', lease);
    case RedriveCall(task) => ControlRedrive(s', task);
    case RemoveCall(task, _, adds) => ControlRemove(s', task, adds);
  }

  lemma ControlKept(s: State, a: Action)
    requires Control(s) && Enabled(s, a)
    ensures Control(Apply(s, a))
  {
    hide Control, Birth, Deliver, RunJob, With, Without;
    match a
    case DoEnqueue(task) => ControlEnqueue(s, task);
    case DoClaim(item, deadline) => ControlDeliver(s, item, deadline);
    case SettleAck(lease) => ControlSettle(s, lease, AckCall(lease));
    case SettleNack(lease) => ControlSettle(s, lease, RouteCall(lease));
    case Reap(token, _) => ControlReap(s, token);
    case FindDead(id) => ControlWith(s, RedriveCall(s.dlq[id]));
    case Run(job) => ControlKeptByRun(s, job);
    case Abort(job) => ControlWithout(s, job);
  }

  lemma ControlEnqueue(s: State, task: Task)
    requires Control(s)
    ensures Control(Apply(s, DoEnqueue(task)))
  {
    ControlBirth(s, task);
  }

  lemma ControlReap(s: State, token: nat)
    requires Control(s) && token in s.b.leases
    ensures Control(With(s, RouteCall(LM.Snapshot(s.b, token))))
  {
    ControlWith(s, RouteCall(LM.Snapshot(s.b, token)));
  }

  // ---------- Conservation and delivery counts ----------

  /** A bag of incarnations. */
  type Bag = multiset<LM.Incarnation>

  /** Every incarnation ever put into ready is live, acked or dropped, exactly once. */
  ghost predicate Conserved(live: multiset<LM.Item>, born: Bag, acked: Bag, dropped: Bag) {
    born == LM.Incarnations(live) + acked + dropped
  }

  ghost predicate Unique(nextUid: nat, born: Bag) {
    && (forall i :: i in born ==> i.uid < nextUid && born[i] == 1)
    && (forall i, j :: i in born && j in born && i.uid == j.uid ==> i == j)
  }

  /** An item's attempt count is the number of times its incarnation was claimed. */
  ghost predicate Counted(live: multiset<LM.Item>, nextUid: nat, max: nat, delivered: multiset<nat>) {
    && (forall x :: x in live ==> delivered[x.inc.uid] == x.attempt)
    && (forall u: nat :: delivered[u] <= if u < nextUid then max else 0)
  }

  ghost predicate Ledger(s: State) {
    && Conserved(LM.Live(s.b), s.log.born, s.log.acked, s.log.dropped)
    && Unique(s.b.nextUid, s.log.born)
    && Counted(LM.Live(s.b), s.b.nextUid, s.max, s.log.delivered)
  }

  lemma LiveIncarnation(live: multiset<LM.Item>, x: LM.Item)
    requires x in live
    ensures LM.Incarnations(live) == LM.Incarnations(live - multiset{x}) + multiset{x.inc}
  {
    LM.IncarnationsAdd(live - multiset{x}, x);
    LM.BagRemove(live, x);
  }

  /** A live item's incarnation was born. */
  lemma LiveBorn(live: multiset<LM.Item>, born: Bag, acked: Bag, dropped: Bag, x: LM.Item)
    requires Conserved(live, born, acked, dropped) && x in live
    ensures x.inc in born
  {
    LiveIncarnation(live, x);
  }

  /** No queue item occurs twice: two occurrences among the live items have different uids. */
  lemma LiveDistinct(live: multiset<LM.Item>, nextUid: nat, born: Bag, acked: Bag, dropped: Bag,
                     x: LM.Item, y: LM.Item)
    requires Conserved(live, born, acked, dropped) && Unique(nextUid, born)
    requires x in live && y in live - multiset{x}
    ensures x.inc.uid != y.inc.uid
  {
    LiveIncarnation(live, x);
    LiveIncarnation(live - multiset{x}, y);
    assert x.inc in born && y.inc in born;
  }

  lemma ConservedBirth(live: multiset<LM.Item>, born: Bag, acked: Bag, dropped: Bag, inc: LM.Incarnation)
    requires Conserved(live, born, acked, dropped)
    ensures Conserved(live + multiset{LM.Item(inc, 0)}, born + multiset{inc}, acked, dropped)
  {
    LM.IncarnationsAdd(live, LM.Item(inc, 0));
    LM.BagMove(LM.Incarnations(live), acked, dropped, inc);
  }

  lemma ConservedDeliver(live: multiset<LM.Item>, born: Bag, acked: Bag, dropped: Bag, item: LM.Item)
    requires Conserved(live, born, acked, dropped) && item in live
    ensures Conserved(live - multiset{item} + multiset{LM.Claimed(item)}, born, acked, dropped)
  {
    LiveIncarnation(live, item);
    LM.IncarnationsAdd(live - multiset{item}, LM.Claimed(item));
  }

  lemma ConservedRelease(live: multiset<LM.Item>, born: Bag, acked: Bag, dropped: Bag, item: LM.Item)
    requires Conserved(live, born, acked, dropped) && item in live
    ensures Conserved(live - multiset{item}, born, acked + multiset{item.inc}, dropped)
    ensures Conserved(live - multiset{item}, born, acked, dropped + multiset{item.inc})
  {
    LiveIncarnation(live, item);
    LM.BagMove(LM.Incarnations(live - multiset{item}), acked, dropped, item.inc);
  }

  lemma UniqueBirth(nextUid: nat, born: Bag, task: Task)
    requires Unique(nextUid, born)
    ensures Unique(nextUid + 1, born + multiset{LM.Incarnation(nextUid, task)})
  {
    assert LM.Incarnation(nextUid, task) !in born;
  }

  lemma CountedDeliver(live: multiset<LM.Item>, nextUid: nat, max: nat, born: Bag, acked: Bag, dropped: Bag,
                       delivered: multiset<nat>, item: LM.Item)
    requires Conserved(live, born, acked, dropped) && Unique(nextUid, born)
    requires Counted(live, nextUid, max, delivered) && item in live && item.attempt < max
    ensures Counted(live - multiset{item} + multiset{LM.Claimed(item)}, nextUid, max,
                    delivered + multiset{item.inc.uid})
  {
    LiveBorn(live, born, acked, dropped, item);
    forall y | y in live - multiset{item}
      ensures y in live && y.inc.uid != item.inc.uid
    {
      LiveDistinct(live, nextUid, born, acked, dropped, item, y);
    }
  }

  lemma CountedRelease(live: multiset<LM.Item>, nextUid: nat, max: nat, delivered: multiset<nat>, item: LM.Item)
    requires Counted(live, nextUid, max, delivered)
    ensures Counted(live - multiset{item}, nextUid, max, delivered)
  {
  }

  lemma LedgerBirth(s: State, task: Task)
    requires Ledger(s)
    ensures Ledger(Birth(s, task))
  {
    LM.LiveEnqueue(s.b, task);
    ConservedBirth(LM.Live(s.b), s.log.born, s.log.acked, s.log.dropped, LM.Incarnation(s.b.nextUid, task));
    UniqueBirth(s.b.nextUid, s.log.born, task);
  }

  lemma LedgerDeliver(s: State, item: LM.Item, deadline: int)
    requires Control(s) && Ledger(s) && item in s.b.ready
    ensures Ledger(Deliver(s, item, deadline))
  {
    var live, log := LM.Live(s.b), s.log;
    LM.LiveClaim(s.b, item, deadline);
    ConservedDeliver(live, log.born, log.acked, log.dropped, item);
    CountedDeliver(live, s.b.nextUid, s.max, log.born, log.acked, log.dropped, log.delivered, item);
  }

  lemma LiveDropped(b: LM.Backend, token: nat)
    requires token in b.leases
    ensures b.leases[token].item in LM.Live(b)
    ensures LM.Live(LM.Drop(b, token)) == LM.Live(b) - multiset{b.leases[token].item}
  {
    LM.LiveRelease(b, token);
    LM.BagRemove(LM.Live(LM.Drop(b, token)), b.leases[token].item);
  }

  lemma LedgerDrop(s: State, lease: LM.Lease)
    requires Ledger(s) && lease.token in s.b.leases
    ensures Ledger(RunAck(s, lease))
    ensures Ledger(RunDrop(s, lease))
  {
    var live, item := LM.Live(s.b), s.b.leases[lease.token].item;
    LiveDropped(s.b, lease.token);
    ConservedRelease(live, s.log.born, s.log.acked, s.log.dropped, item);
    CountedRelease(live, s.b.nextUid, s.max, s.log.delivered, item);
  }

  lemma LedgerAck(s: State, lease: LM.Lease)
    requires Ledger(s)
    ensures Ledger(RunAck(s, lease)) && Ledger(RunDrop(s, lease))
  {
    if lease.token in s.b.leases {
      LedgerDrop(s, lease);
    }
  }

  lemma LedgerRequeue(s: State, lease: LM.Lease)
    requires Ledger(s)
    ensures Ledger(RunRequeue(s, lease))
  {
    if lease.token in s.b.leases {
      LM.LiveRelease(s.b, lease.token);
    }
    hide Conserved, Unique, Counted, LM.Live;
  }

  /** Steps that leave the backend, the ceiling and the counts alone. */
  lemma LedgerSame(s: State, s': State)
    requires Ledger(s) && s'.b == s.b && s'.max == s.max
    requires s'.log.born == s.log.born && s'.log.acked == s.log.acked && s'.log.dropped == s.log.dropped
    requires s'.log.delivered == s.log.delivered
    ensures Ledger(s')
  {
  }

  lemma LedgerRedrive(s: State, task: Task)
    requires Ledger(s)
    ensures Ledger(RunRedrive(s, task))
  {
    LedgerBirth(s, task);
    hide Ledger;
    LedgerSame(Birth(s, task), RunRedrive(s, task));
  }

  lemma LedgerKeptByRun(s: State, job: Job)
    requires Ledger(s) && job in s.jobs
    ensures Ledger(RunJob(Without(s, job), job))
  {
    hide Ledger, RunAck, RunRequeue, RunDrop, RunRedrive;
    var s' := Without(s, job);
    LedgerSame(s, s');
    match job
    case AckCall(lease) => LedgerAck(s', lease);
    case RouteCall(lease) =>
      if lease.attempt >= s.max {
        LedgerSame(s', RunAdd(s', lease));
      } else {
        LedgerRequeue(s', lease);
      }
    case DropCall(lease) => LedgerAck(s', lease);
    case RedriveCall(task) => LedgerRedrive(s', task);
    case RemoveCall(task, _, adds) => LedgerSame(s', RunRemove(s', task, adds));
  }

  lemma LedgerKept(s: State, a: Action)
    requires Control(s) && Ledger(s) && Enabled(s, a)
    ensures Ledger(Apply(s, a))
  {
    hide Control, Ledger, Birth, Deliver, RunJob;
    match a
    case DoEnqueue(task) =>
      LedgerBirth(s, task);
      LedgerSame(Birth(s, task), Apply(s, a));
    case DoClaim(item, deadline) => LedgerDeliver(s, item, deadline);
    case Run(job) => LedgerKeptByRun(s, job);
    case _ => LedgerSame(s, Apply(s, a));
  }

  // ---------- No task is lost ----------

  ghost predicate Dropping(jobs: multiset<Job>, token: nat) {
    exists j :: j in jobs && j.DropCall? && j.lease.token == token
  }

  /** The incarnation was acked, is ready, or is under a lease that no route is about to drop. */
  ghost predicate PlacedIn(b: LM.Backend, jobs: multiset<Job>, acked: Bag, inc: LM.Incarnation) {
    || inc in acked
    || (exists x :: x in b.ready && x.inc == inc)
    || (exists t :: t in b.leases && b.leases[t].item.inc == inc && !Dropping(jobs, t))
  }

  ghost predicate Placed(s: State, inc: LM.Incarnation) {
    PlacedIn(s.b, s.jobs, s.log.acked, inc)
  }

  ghost predicate PlacedTask(s: State, task: Task) {
    exists uid :: Placed(s, LM.Incarnation(uid, task))
  }

  /** The task was acked or can still be delivered, from the queue or from the dead-letter store. */
  ghost predicate Kept(s: State, task: Task) {
    (task.id in s.dlq && s.dlq[task.id] == task) || PlacedTask(s, task)
  }

  ghost predicate NoTaskLost(s: State) {
    forall task :: task in s.log.enqueued ==> Kept(s, task)
  }

  /** The caller's promise: two enqueued tasks with one ID are the same task. */
  ghost predicate IdsIdentify(enqueued: set<Task>) {
    forall t, u :: t in enqueued && u in enqueued && t.id == u.id ==> t == u
  }

  ghost predicate TrackedBackend(b: LM.Backend, enqueued: set<Task>) {
    && (forall x :: x in b.ready ==> x.inc.task in enqueued)
    && (forall t :: t in b.leases ==> b.leases[t].item.inc.task in enqueued)
  }

  ghost predicate TrackedHandles(handles: set<LM.Lease>, enqueued: set<Task>) {
    forall l :: l in handles ==> l.task in enqueued
  }

  ghost predicate TrackedJobs(jobs: multiset<Job>, enqueued: set<Task>) {
    forall j :: j in jobs ==> JobTask(j) in enqueued
  }

  ghost predicate TrackedDead(dlq: map<nat, Task>, enqueued: set<Task>) {
    forall id :: id in dlq ==> dlq[id].id == id && dlq[id] in enqueued
  }

  /** Only enqueued tasks are around. */
  ghost predicate Tracked(s: State) {
    && TrackedBackend(s.b, s.log.enqueued)
    && TrackedHandles(s.handles, s.log.enqueued)
    && TrackedJobs(s.jobs, s.log.enqueued)
    && TrackedDead(s.dlq, s.log.enqueued)
  }

  function JobTask(j: Job): Task {
    if HasLease(j) then j.lease.task else j.task
  }

  /** A redriven incarnation stays placed until its task is dead-lettered again. */
  ghost predicate RedrivesPlaced(s: State) {
    forall j :: j in s.jobs && j.RemoveCall? ==>
      && j.adds <= s.log.adds[j.task.id]
      && (j.adds == s.log.adds[j.task.id] ==> Placed(s, LM.Incarnation(j.uid, j.task)))
  }

  lemma TrackedBackendKept(b: LM.Backend, enqueued: set<Task>, token: nat, task: Task)
    requires TrackedBackend(b, enqueued)
    ensures TrackedBackend(LM.Drop(b, token), enqueued)
    ensures TrackedBackend(LM.Requeue(b, token), enqueued)
    ensures task in enqueued ==> TrackedBackend(LM.Enqueue(b, task), enqueued)
  {
  }

  lemma TrackedJobsKept(jobs: multiset<Job>, enqueued: set<Task>, job: Job)
    requires TrackedJobs(jobs, enqueued)
    ensures TrackedJobs(jobs - multiset{job}, enqueued)
    ensures JobTask(job) in enqueued ==> TrackedJobs(jobs + multiset{job}, enqueued)
  {
  }

  lemma TrackedDeadKept(dlq: map<nat, Task>, enqueued: set<Task>, task: Task)
    requires TrackedDead(dlq, enqueued) && task in enqueued
    ensures TrackedDead(dlq[task.id := task], enqueued)
    ensures TrackedDead(dlq - {task.id}, enqueued)
  {
  }

  lemma TrackedRelease(s: State, lease: LM.Lease)
    requires Tracked(s) && lease.task in s.log.enqueued
    ensures Tracked(RunAck(s, lease)) && Tracked(RunDrop(s, lease)) && Tracked(RunRequeue(s, lease))
  {
    TrackedBackendKept(s.b, s.log.enqueued, lease.token, lease.task);
  }

  lemma TrackedAdd(s: State, lease: LM.Lease)
    requires Tracked(s) && lease.task in s.log.enqueued
    ensures Tracked(RunAdd(s, lease))
  {
    TrackedDeadKept(s.dlq, s.log.enqueued, lease.task);
    TrackedJobsKept(s.jobs, s.log.enqueued, DropCall(lease));
  }

  lemma TrackedRedrive(s: State, task: Task, adds: nat)
    requires Tracked(s) && task in s.log.enqueued
    ensures Tracked(RunRedrive(s, task)) && Tracked(RunRemove(s, task, adds))
  {
    TrackedBackendKept(s.b, s.log.enqueued, 0, task);
    TrackedJobsKept(s.jobs, s.log.enqueued, RemoveCall(task, s.b.nextUid, s.log.adds[task.id]));
    TrackedDeadKept(s.dlq, s.log.enqueued, task);
  }

  lemma TrackedWithout(s: State, job: Job)
    requires Tracked(s)
    ensures Tracked(Without(s, job)) && (job in s.jobs ==> JobTask(job) in s.log.enqueued)
  {
    TrackedJobsKept(s.jobs, s.log.enqueued, job);
  }

  lemma TrackedWith(s: State, job: Job)
    requires Tracked(s) && JobTask(job) in s.log.enqueued
    ensures Tracked(With(s, job))
  {
    TrackedJobsKept(s.jobs, s.log.enqueued, job);
  }

  lemma TrackedSettle(s: State, lease: LM.Lease, job: Job)
    requires Tracked(s) && lease in s.handles && HasLease(job) && job.lease == lease
    ensures Tracked(With(s.(handles := s.handles - {lease}), job))
  {
    TrackedWith(s.(handles := s.handles - {lease}), job);
  }

  lemma TrackedEnqueue(s: State, task: Task)
    requires Tracked(s)
    ensures Tracked(Apply(s, DoEnqueue(task)))
  {
  }

  lemma TrackedDeliver(s: State, item: LM.Item, deadline: int)
    requires Tracked(s) && item in s.b.ready
    ensures Tracked(Deliver(s, item, deadline))
  {
  }

  lemma TrackedFound(s: State, id: nat)
    requires Tracked(s) && id in s.dlq
    ensures s.dlq[id] in s.log.enqueued
  {
  }

  lemma TrackedLeased(s: State, token: nat)
    requires Tracked(s) && token in s.b.leases
    ensures JobTask(RouteCall(LM.Snapshot(s.b, token))) in s.log.enqueued
  {
  }

  lemma TrackedKeptByRun(s: State, job: Job)
    requires Tracked(s) && job in s.jobs
    ensures Tracked(RunJob(Without(s, job), job))
  {
    hide Tracked, RunAck, RunRequeue, RunAdd, RunDrop, RunRedrive, RunRemove;
    var s' := Without(s, job);
    TrackedWithout(s, job);
    match job
    case AckCall(lease) => TrackedRelease(s', lease);
    case RouteCall(lease) =>
      TrackedRelease(s', lease);
      TrackedAdd(s', lease);
    case DropCall(lease) => TrackedRelease(s', lease);
    case RedriveCall(task) => TrackedRedrive(s', task, 0);
    case RemoveCall(task, _, adds) => TrackedRedrive(s', task, adds);
  }

  lemma TrackedKept(s: State, a: Action)
    requires Tracked(s) && Enabled(s, a)
    ensures Tracked(Apply(s, a))
  {
    hide Tracked, Deliver, RunJob, With, Without;
    match a
    case DoEnqueue(task) => TrackedEnqueue(s, task);
    case DoClaim(item, deadline) => TrackedDeliver(s, item, deadline);
    case SettleAck(lease) => TrackedSettle(s, lease, AckCall(lease));
    case SettleNack(lease) => TrackedSettle(s, lease, RouteCall(lease));
    case Reap(token, _) =>
      TrackedLeased(s, token);
      TrackedWith(s, RouteCall(LM.Snapshot(s.b, token)));
    case FindDead(id) =>
      TrackedFound(s, id);
      TrackedWith(s, RedriveCall(s.dlq[id]));
    case Run(job) => TrackedKeptByRun(s, job);
    case Abort(job) => TrackedWithout(s, job);
  }

  /** The action dead-letters the task. */
  predicate DeadLetters(max: nat, a: Action, task: Task) {
    a.Run? && a.job.RouteCall? && a.job.lease.attempt >= max && a.job.lease.task == task
  }

  lemma PlacedBirth(b: LM.Backend, jobs: multiset<Job>, acked: Bag, inc: LM.Incarnation, task: Task)
    requires PlacedIn(b, jobs, acked, inc)
    ensures PlacedIn(LM.Enqueue(b, task), jobs, acked, inc)
  {
    if x :| x in b.ready && x.inc == inc {
      assert x in LM.Enqueue(b, task).ready;
    }
  }

  lemma PlacedDeliver(b: LM.Backend, jobs: multiset<Job>, acked: Bag, inc: LM.Incarnation, item: LM.Item,
                      deadline: int)
    requires PlacedIn(b, jobs, acked, inc) && item in b.ready
    requires b.nextToken !in b.leases && !Dropping(jobs, b.nextToken)
    ensures PlacedIn(LM.Claim(b, item, deadline), jobs, acked, inc)
  {
    var b' := LM.Claim(b, item, deadline);
    if x :| x in b.ready && x.inc == inc {
      if x == item {
        assert b'.leases[b.nextToken].item.inc == inc;
      } else {
        assert x in b'.ready;
      }
    } else if t :| t in b.leases && b.leases[t].item.inc == inc && !Dropping(jobs, t) {
      assert t in b'.leases && b'.leases[t] == b.leases[t];
    }
  }

  lemma PlacedWithout(b: LM.Backend, jobs: multiset<Job>, acked: Bag, inc: LM.Incarnation, job: Job)
    requires PlacedIn(b, jobs, acked, inc)
    ensures PlacedIn(b, jobs - multiset{job}, acked, inc)
  {
    if t :| t in b.leases && b.leases[t].item.inc == inc && !Dropping(jobs, t) {
      assert !Dropping(jobs - multiset{job}, t);
    }
  }

  lemma PlacedWith(b: LM.Backend, jobs: multiset<Job>, acked: Bag, inc: LM.Incarnation, job: Job)
    requires PlacedIn(b, jobs, acked, inc)
    requires job.DropCall? && job.lease.token in b.leases ==> b.leases[job.lease.token].item.inc != inc
    ensures PlacedIn(b, jobs + multiset{job}, acked, inc)
  {
    if t :| t in b.leases && b.leases[t].item.inc == inc && !Dropping(jobs, t) {
      assert !Dropping(jobs + multiset{job}, t);
    }
  }

  lemma PlacedAck(b: LM.Backend, jobs: multiset<Job>, acked: Bag, inc: LM.Incarnation, token: nat)
    requires PlacedIn(b, jobs, acked, inc) && token in b.leases
    ensures PlacedIn(LM.Drop(b, token), jobs, acked + multiset{b.leases[token].item.inc}, inc)
  {
    if t :| t in b.leases && b.leases[t].item.inc == inc && !Dropping(jobs, t) {
      assert t != token ==> t in LM.Drop(b, token).leases;
    }
  }

  lemma PlacedRequeue(b: LM.Backend, jobs: multiset<Job>, acked: Bag, inc: LM.Incarnation, token: nat)
    requires PlacedIn(b, jobs, acked, inc) && token in b.leases
    ensures PlacedIn(LM.Requeue(b, token), jobs, acked, inc)
  {
    var b' := LM.Requeue(b, token);
    if x :| x in b.ready && x.inc == inc {
      assert x in b'.ready;
    } else if t :| t in b.leases && b.leases[t].item.inc == inc && !Dropping(jobs, t) {
      assert if t == token then b.leases[t].item in b'.ready else t in b'.leases;
    }
  }

  /** The lease a route drops was no incarnation's place any more. */
  lemma PlacedDrop(b: LM.Backend, jobs: multiset<Job>, acked: Bag, inc: LM.Incarnation, token: nat)
    requires PlacedIn(b, jobs, acked, inc) && Dropping(jobs, token)
    ensures PlacedIn(LM.Drop(b, token), jobs, acked, inc)
  {
    if t :| t in b.leases && b.leases[t].item.inc == inc && !Dropping(jobs, t) {
      assert t in LM.Drop(b, token).leases;
    }
  }

  /** Only the step that dead-letters its task can take an incarnation out of its place. */
  lemma PlacedKept(s: State, a: Action, inc: LM.Incarnation)
    requires Control(s) && Enabled(s, a) && Placed(s, inc)
    requires !DeadLetters(s.max, a, inc.task)
    ensures Placed(Apply(s, a), inc)
  {
    match a
    case DoEnqueue(task) => PlacedBirth(s.b, s.jobs, s.log.acked, inc, task);
    case DoClaim(item, deadline) => PlacedDeliver(s.b, s.jobs, s.log.acked, inc, item, deadline);
    case SettleAck(lease) => PlacedWith(s.b, s.jobs, s.log.acked, inc, AckCall(lease));
    case SettleNack(lease) => PlacedWith(s.b, s.jobs, s.log.acked, inc, RouteCall(lease));
    case Reap(token, _) => PlacedWith(s.b, s.jobs, s.log.acked, inc, RouteCall(LM.Snapshot(s.b, token)));
    case FindDead(id) => PlacedWith(s.b, s.jobs, s.log.acked, inc, RedriveCall(s.dlq[id]));
    case Run(job) => PlacedKeptByRun(s, job, inc);
    case Abort(job) => PlacedWithout(s.b, s.jobs, s.log.acked, inc, job);
  }

  lemma PlacedKeptByRun(s: State, job: Job, inc: LM.Incarnation)
    requires Control(s) && job in s.jobs && Placed(s, inc)
    requires !DeadLetters(s.max, Run(job), inc.task)
    ensures Placed(RunJob(Without(s, job), job), inc)
  {
    var jobs := s.jobs - multiset{job};
    PlacedWithout(s.b, s.jobs, s.log.acked, inc, job);
    match job
    case AckCall(lease) =>
      if lease.token in s.b.leases {
        PlacedAck(s.b, jobs, s.log.acked, inc, lease.token);
      }
    case RouteCall(lease) =>
      if lease.attempt >= s.max {
        assert Truthful(s.b, lease);
        PlacedWith(s.b, jobs, s.log.acked, inc, DropCall(lease));
      } else if lease.token in s.b.leases {
        PlacedRequeue(s.b, jobs, s.log.acked, inc, lease.token);
      }
    case DropCall(lease) =>
      PlacedDrop(s.b, s.jobs, s.log.acked, inc, lease.token);
      PlacedWithout(LM.Drop(s.b, lease.token), s.jobs, s.log.acked, inc, job);
    case RedriveCall(task) =>
      PlacedBirth(s.b, jobs, s.log.acked, inc, task);
      PlacedWith(LM.Enqueue(s.b, task), jobs, s.log.acked, inc,
                 RemoveCall(task, s.b.nextUid, s.log.adds[task.id]));
    case RemoveCall(_, _, _) =>
  }

  /** The step removes a dead-letter entry newer than the one its Redrive put back. */
  predicate Races(s: State, a: Action) {
    a.Run? && a.job.RemoveCall? && s.log.adds[a.job.task.id] != a.job.adds
  }

  lemma KeptKept(s: State, a: Action, task: Task)
    requires Control(s) && Tracked(s) && RedrivesPlaced(s) && Enabled(s, a)
    requires IdsIdentify(s.log.enqueued) && task in s.log.enqueued
    requires Kept(s, task) && !Races(s, a)
    ensures Kept(Apply(s, a), task)
  {
    var s' := Apply(s, a);
    if DeadLetters(s.max, a, task) {
      assert s'.dlq[task.id] == task;
    } else if uid :| Placed(s, LM.Incarnation(uid, task)) {
      PlacedKept(s, a, LM.Incarnation(uid, task));
    } else {
      DeadKept(s, a, task);
    }
  }

  lemma DeadKept(s: State, a: Action, task: Task)
    requires Control(s) && Tracked(s) && RedrivesPlaced(s) && Enabled(s, a)
    requires IdsIdentify(s.log.enqueued) && task in s.log.enqueued && !Races(s, a)
    requires task.id in s.dlq && s.dlq[task.id] == task
    ensures Kept(Apply(s, a), task)
  {
    if a.Run? && a.job.RemoveCall? && a.job.task.id == task.id {
      assert JobTask(a.job) in s.log.enqueued;
      PlacedKept(s, a, LM.Incarnation(a.job.uid, task));
    } else if a.Run? && a.job.RouteCall? && a.job.lease.task.id == task.id {
      assert JobTask(a.job) in s.log.enqueued;
      DeadStays(s, a, task);
    } else {
      DeadStays(s, a, task);
    }
  }

  lemma DeadStays(s: State, a: Action, task: Task)
    requires Enabled(s, a) && task.id in s.dlq && s.dlq[task.id] == task
    requires !(a.Run? && a.job.RemoveCall? && a.job.task.id == task.id)
    requires a.Run? && a.job.RouteCall? && a.job.lease.task.id == task.id ==> a.job.lease.task == task
    ensures var s' := Apply(s, a); task.id in s'.dlq && s'.dlq[task.id] == task
  {
  }

  lemma NewRemoveByRun(s: State, job: Job, j: Job)
    requires j.RemoveCall? && j in RunJob(Without(s, job), job).jobs && j !in s.jobs
    ensures job == RedriveCall(j.task) && j.uid == s.b.nextUid && j.adds == s.log.adds[j.task.id]
  {
  }

  /** A Remove call is new only in the step that ran its Redrive's Enqueue. */
  lemma NewRemove(s: State, a: Action, j: Job)
    requires Enabled(s, a) && j.RemoveCall? && j in Apply(s, a).jobs && j !in s.jobs
    ensures a == Run(RedriveCall(j.task)) && j.uid == s.b.nextUid && j.adds == s.log.adds[j.task.id]
  {
    hide RunJob;
    if a.Run? {
      NewRemoveByRun(s, a.job, j);
    }
  }

  lemma AddsGrow(s: State, a: Action, task: Task)
    requires Enabled(s, a)
    ensures s.log.adds[task.id] <= Apply(s, a).log.adds[task.id]
    ensures DeadLetters(s.max, a, task) ==> s.log.adds[task.id] < Apply(s, a).log.adds[task.id]
  {
  }

  lemma RedrivesPlacedKept(s: State, a: Action)
    requires Control(s) && RedrivesPlaced(s) && Enabled(s, a)
    ensures RedrivesPlaced(Apply(s, a))
  {
    var s' := Apply(s, a);
    forall j | j in s'.jobs && j.RemoveCall?
      ensures j.adds <= s'.log.adds[j.task.id]
      ensures j.adds == s'.log.adds[j.task.id] ==> Placed(s', LM.Incarnation(j.uid, j.task))
    {
      AddsGrow(s, a, j.task);
      if j !in s.jobs {
        NewRemove(s, a, j);
        RedrivePlaces(s, j.task);
      } else if j.adds == s'.log.adds[j.task.id] {
        PlacedKept(s, a, LM.Incarnation(j.uid, j.task));
      }
    }
  }

  lemma RedrivePlaces(s: State, task: Task)
    requires RedriveCall(task) in s.jobs
    ensures Placed(Apply(s, Run(RedriveCall(task))), LM.Incarnation(s.b.nextUid, task))
  {
    var s' := Apply(s, Run(RedriveCall(task)));
    assert LM.Item(LM.Incarnation(s.b.nextUid, task), 0) in s'.b.ready;
  }

  lemma EnqueuePlaces(s: State, task: Task)
    ensures Kept(Apply(s, DoEnqueue(task)), task)
  {
    var s' := Apply(s, DoEnqueue(task));
    assert LM.Item(LM.Incarnation(s.b.nextUid, task), 0) in s'.b.ready;
    assert Placed(s', LM.Incarnation(s.b.nextUid, task));
  }
}
