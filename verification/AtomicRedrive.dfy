/** No loss as a promise about runs: every Redrive is one step, its Remove following its Enqueue at once. */
module AtomicRedrive {
  import opened Tasks
  import LM = LeaseModel
  import opened LeaseProtocol
  import opened LeaseInvariants
  import opened LeaseTheorems

  /** The Remove call that running this Redrive call leaves pending. */
  function RemoveOf(s: State, task: Task): Job {
    RemoveCall(task, s.b.nextUid, s.log.adds[task.id])
  }

  predicate StartsRedrive(a: Action) {
    a.Run? && a.job.RedriveCall?
  }

  /** The Remove of the Redrive just run takes effect or finds its context done. */
  predicate Closes(a: Action, remove: Job) {
    a == Run(remove) || a == Abort(remove)
  }

  /** The Remove that has to come next after this step. */
  function DueAfter(s: State, a: Action): Option<Job> {
    if StartsRedrive(a) then Some(RemoveOf(s, a.job.task)) else None
  }

  /** Every Redrive's Enqueue is followed at once by its own Remove, or the run ends there. */
  ghost predicate AtomicRun(s: State, due: Option<Job>, run: seq<Action>)
    requires CanRun(s, run)
    decreases |run|
  {
    run == [] || (
      && (due.Some? ==> Closes(run[0], due.value))
      && AtomicRun(Apply(s, run[0]), DueAfter(s, run[0]), run[1..]))
  }

  ghost predicate NoRemove(jobs: multiset<Job>) {
    forall j :: j in jobs ==> !j.RemoveCall?
  }

  /** Only a Redrive call leaves a Remove pending. */
  lemma NoRemoveStep(s: State, a: Action)
    requires NoRemove(s.jobs) && Enabled(s, a) && !StartsRedrive(a)
    ensures NoRemove(Apply(s, a).jobs) && Apply(s, a).log.raced == s.log.raced
  {
    RacedGrows(s, a);
  }

  lemma RedriveJobs(s: State, task: Task)
    requires RedriveCall(task) in s.jobs
    ensures var t := Apply(s, Run(RedriveCall(task)));
      && t.jobs == s.jobs - multiset{RedriveCall(task)} + multiset{RemoveOf(s, task)}
      && t.log.adds == s.log.adds && t.log.raced == s.log.raced
  {
  }

  lemma ClosingStep(t: State, remove: Job, a: Action)
    requires Enabled(t, a) && Closes(a, remove) && remove.RemoveCall? && remove.adds == t.log.adds[remove.task.id]
    ensures Apply(t, a).jobs == t.jobs - multiset{remove} && Apply(t, a).log.raced == t.log.raced
  {
  }

  /** The Remove that is due is the only one pending, and nothing has been dead-lettered since its Enqueue. */
  ghost predicate OnlyDue(s: State, due: Option<Job>) {
    match due
    case None => NoRemove(s.jobs)
    case Some(remove) =>
      && remove.RemoveCall? && remove in s.jobs && NoRemove(s.jobs - multiset{remove})
      && remove.adds == s.log.adds[remove.task.id]
  }

  lemma OnlyDueKept(s: State, due: Option<Job>, a: Action)
    requires OnlyDue(s, due) && Enabled(s, a) && (due.Some? ==> Closes(a, due.value))
    ensures OnlyDue(Apply(s, a), DueAfter(s, a)) && Apply(s, a).log.raced == s.log.raced
  {
    if due.Some? {
      ClosingStep(s, due.value, a);
    } else if StartsRedrive(a) {
      RedriveJobs(s, a.job.task);
      LM.BagRemove(s.jobs - multiset{a.job}, RemoveOf(s, a.job.task));
    } else {
      NoRemoveStep(s, a);
    }
    hide Apply, Enabled;
  }

  /** A run whose Redrives are atomic never races. */
  lemma {:induction false} AtomicRunsNeverRace(s: State, due: Option<Job>, run: seq<Action>)
    requires CanRun(s, run) && AtomicRun(s, due, run) && OnlyDue(s, due) && !s.log.raced
    ensures !After(s, run).log.raced
    decreases |run|
  {
    hide Apply, Enabled, OnlyDue;
    if run != [] {
      OnlyDueKept(s, due, run[0]);
      AtomicRunsNeverRace(Apply(s, run[0]), DueAfter(s, run[0]), run[1..]);
    }
  }

  /**
    No task is lost, over every interleaving of Enqueue, Claim, Ack, Nack, sweep and Redrive calls
    in which Redrive's Enqueue and Remove are one step and IDs identify tasks.
   */
  lemma NoTaskIsLostAtomically(mode: Mode, max: nat, run: seq<Action>, task: Task)
    requires 1 <= max && CanRun(Init(mode, max), run) && AtomicRun(Init(mode, max), None, run)
    requires var s := After(Init(mode, max), run); IdsIdentify(s.log.enqueued) && task in s.log.enqueued
    ensures var s := After(Init(mode, max), run);
      || (exists inc :: inc in s.log.acked && inc.task == task)
      || (exists x :: x in s.b.ready && x.inc.task == task)
      || (exists t :: t in s.b.leases && s.b.leases[t].item.inc.task == task && !Dropping(s.jobs, t))
      || (task.id in s.dlq && s.dlq[task.id] == task)
  {
    AtomicRunsNeverRace(Init(mode, max), None, run);
    hide CanRun, AtomicRun, After;
    NoTaskIsLost(After(Init(mode, max), run), mode, max, task);
  }
}
