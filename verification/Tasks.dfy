/** The vocabulary shared by the task queue and the lobby: tasks, ordering modes, status codes. */
module Tasks {

  /** Ordering disciplines of a backend. */
  datatype Mode = PriorityMode | FifoMode

  /** The identity and scheduling metadata of a task; what the task does when run is not modelled. */
  datatype Task = Task(id: nat, order: nat, priority: nat)

  /** The outcome of a call: success or one of the package's error values. */
  datatype Status =
    | Ok
    | ContextDone
    | TaskNil
    | QueueEmpty
    | QueueClosed
    | LeaseNotFound
    | ClaimSettled
    | InvalidQueue

  datatype Option<+T> = None | Some(value: T)

  /** The strict order in which a backend delivers: a is delivered before b. */
  predicate Before(mode: Mode, a: Task, b: Task) {
    if mode == PriorityMode && a.priority != b.priority
    then a.priority > b.priority
    else a.order < b.order
  }

  /**
    Before is a strict weak order, which is what makes "a least ready task" meaningful; it puts
    the higher priority first where the mode says so, and else the lower order.
   */
  lemma BeforeIsStrictWeakOrder(mode: Mode, a: Task, b: Task, c: Task)
    ensures mode == PriorityMode && b.priority < a.priority ==> Before(mode, a, b)
    ensures mode == PriorityMode && b.priority == a.priority && a.order < b.order ==> Before(mode, a, b)
    ensures mode == FifoMode && a.order < b.order ==> Before(mode, a, b)
    ensures !Before(mode, a, a)
    ensures Before(mode, a, b) ==> !Before(mode, b, a)
    ensures !Before(mode, b, a) && !Before(mode, c, b) ==> !Before(mode, c, a)
  {
  }

  /** A sequence of tasks in delivery order. */
  ghost predicate InOrder(mode: Mode, s: seq<Task>) {
    forall i, j :: 0 <= i < j < |s| ==> !Before(mode, s[j], s[i])
  }

  /** A sequence in delivery order, in the fields of its tasks. */
  lemma InOrderByFields(mode: Mode, s: seq<Task>)
    requires InOrder(mode, s)
    ensures mode == PriorityMode ==> forall i, j :: 0 <= i < j < |s| ==> s[j].priority <= s[i].priority
    ensures mode == PriorityMode ==>
      forall i, j :: 0 <= i < j < |s| && s[j].priority == s[i].priority ==> s[i].order <= s[j].order
    ensures mode == FifoMode ==> forall i, j :: 0 <= i < j < |s| ==> s[i].order <= s[j].order
  {
  }
}
