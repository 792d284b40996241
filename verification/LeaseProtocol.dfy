/**
  The lease protocol: any number of producers, consumers, reaper sweeps and operators acting on
  one backend and one dead-letter store. Every mutex-guarded call is one atomic step; what a
  goroutine still has to call is a pending Job, so that steps of different goroutines
  interleave in every order and a claim handle may outlive its lease.
 */
module LeaseProtocol {
  import opened Tasks
  import LM = LeaseModel

  /** A call some goroutine is committed to make next. */
  datatype Job =
    | AckCall(lease: LM.Lease)                     // Claim.Ack, past its settled flag
    | RouteCall(lease: LM.Lease)                   // route, nothing done yet
    | DropCall(lease: LM.Lease)                    // route, dead-letter Add done, Nack(drop) to come
    | RedriveCall(task: Task)                      // Redrive, task found, Enqueue to come
    | RemoveCall(task: Task, uid: nat, adds: nat)  // Redrive, Enqueue done, Remove to come

  datatype Action =
    | DoEnqueue(task: Task)
    | DoClaim(item: LM.Item, deadline: int)
    | SettleAck(lease: LM.Lease)
    | SettleNack(lease: LM.Lease)
    | Reap(token: nat, now: int)     // a sweep snapshots one expired lease
    | FindDead(id: nat)              // Redrive finds its target in the listing
    | Run(job: Job)                  // the pending call takes effect
    | Abort(job: Job)                // the pending call finds its context done

  /** What happened so far. */
  datatype Log = Log(
    enqueued: set<Task>,
    born: multiset<LM.Incarnation>,
    acked: multiset<LM.Incarnation>,
    dropped: multiset<LM.Incarnation>,
    settled: multiset<nat>,          // tokens of the Ack and Nack calls that succeeded
    delivered: multiset<nat>,        // uids of the incarnations claimed
    adds: multiset<nat>,             // task IDs added to the dead-letter store
    raced: bool)                     // some Remove hit an entry newer than the one redriven

  datatype State = State(
    max: nat,
    b: LM.Backend,
    dlq: map<nat, Task>,
    handles: set<LM.Lease>,          // unsettled claims
    jobs: multiset<Job>,
    log: Log)

  function Init(mode: Mode, max: nat): State {
    State(max, LM.Empty(mode), map[], {}, multiset{},
          Log({}, multiset{}, multiset{}, multiset{}, multiset{}, multiset{}, multiset{}, false))
  }

  // ---------- Steps ----------

  function Birth(s: State, task: Task): State {
    s.(b := LM.Enqueue(s.b, task),
       log := s.log.(born := s.log.born + multiset{LM.Incarnation(s.b.nextUid, task)}))
  }

  function Deliver(s: State, item: LM.Item, deadline: int): State
    requires item in s.b.ready
  {
    s.(b := LM.Claim(s.b, item, deadline),
       handles := s.handles + {LM.ClaimLease(s.b, item, deadline)},
       log := s.log.(delivered := s.log.delivered + multiset{item.inc.uid}))
  }

  function Settle(log: Log, token: nat): Log {
    log.(settled := log.settled + multiset{token})
  }

  function RunAck(s: State, lease: LM.Lease): State {
    if lease.token !in s.b.leases then s
    else
      var inc := s.b.leases[lease.token].item.inc;
      s.(b := LM.Drop(s.b, lease.token),
         log := Settle(s.log, lease.token).(acked := s.log.acked + multiset{inc}))
  }

  function RunRequeue(s: State, lease: LM.Lease): State {
    if lease.token !in s.b.leases then s
    else s.(b := LM.Requeue(s.b, lease.token), log := Settle(s.log, lease.token))
  }

  function RunAdd(s: State, lease: LM.Lease): State {
    s.(dlq := s.dlq[lease.task.id := lease.task],
       jobs := s.jobs + multiset{DropCall(lease)},
       log := s.log.(adds := s.log.adds + multiset{lease.task.id}))
  }

  function RunDrop(s: State, lease: LM.Lease): State {
    if lease.token !in s.b.leases then s
    else
      var inc := s.b.leases[lease.token].item.inc;
      s.(b := LM.Drop(s.b, lease.token),
         log := Settle(s.log, lease.token).(dropped := s.log.dropped + multiset{inc}))
  }

  function RunRedrive(s: State, task: Task): State {
    Birth(s, task).(jobs := s.jobs + multiset{RemoveCall(task, s.b.nextUid, s.log.adds[task.id])})
  }

  function RunRemove(s: State, task: Task, adds: nat): State {
    s.(dlq := s.dlq - {task.id}, log := s.log.(raced := s.log.raced || s.log.adds[task.id] != adds))
  }

  /** The effect of a pending call on a state from which it has been taken off. */
  function RunJob(s: State, job: Job): State {
    match job
    case AckCall(lease) => RunAck(s, lease)
    case RouteCall(lease) => if lease.attempt >= s.max then RunAdd(s, lease) else RunRequeue(s, lease)
    case DropCall(lease) => RunDrop(s, lease)
    case RedriveCall(task) => RunRedrive(s, task)
    case RemoveCall(task, _, adds) => RunRemove(s, task, adds)
  }

  ghost predicate Enabled(s: State, a: Action) {
    match a
    case DoEnqueue(_) => true
    case DoClaim(item, _) => LM.IsLeast(s.b.mode, item, s.b.ready)
    case SettleAck(lease) => lease in s.handles
    case SettleNack(lease) => lease in s.handles
    case Reap(token, now) => LM.Expired(s.b, token, now)
    case FindDead(id) => id in s.dlq
    case Run(job) => job in s.jobs
    case Abort(job) => job in s.jobs
  }

  function Without(s: State, job: Job): State {
    s.(jobs := s.jobs - multiset{job})
  }

  function With(s: State, job: Job): State {
    s.(jobs := s.jobs + multiset{job})
  }

  function Apply(s: State, a: Action): State
    requires Enabled(s, a)
  {
    match a
    case DoEnqueue(task) => var s' := Birth(s, task); s'.(log := s'.log.(enqueued := s.log.enqueued + {task}))
    case DoClaim(item, deadline) => Deliver(s, item, deadline)
    case SettleAck(lease) => With(s.(handles := s.handles - {lease}), AckCall(lease))
    case SettleNack(lease) => With(s.(handles := s.handles - {lease}), RouteCall(lease))
    case Reap(token, _) => With(s, RouteCall(LM.Snapshot(s.b, token)))
    case FindDead(id) => With(s, RedriveCall(s.dlq[id]))
    case Run(job) => RunJob(Without(s, job), job)
    case Abort(job) => Without(s, job)
  }

  ghost predicate CanRun(s: State, run: seq<Action>)
    decreases |run|
  {
    run == [] || (Enabled(s, run[0]) && CanRun(Apply(s, run[0]), run[1..]))
  }

  ghost function After(s: State, run: seq<Action>): State
    requires CanRun(s, run)
    decreases |run|
  {
    if run == [] then s else After(Apply(s, run[0]), run[1..])
  }
}
