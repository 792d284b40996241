/** The in-memory dead-letter store: a map keyed by task ID. */
module DeadLetters {
  import opened Tasks

  datatype Reason = Failed(code: nat) | LeaseExpired

  /** The attempts field exists in the record, but Add never sets it. */
  datatype DeadTask = DeadTask(task: Task, reason: Reason, attempts: nat, deadAt: int)

  function Dead(task: Task, reason: Reason, now: int): DeadTask {
    DeadTask(task, reason, 0, now)
  }

  ghost predicate Keyed(tasks: map<nat, DeadTask>) {
    forall id :: id in tasks ==> tasks[id].task.id == id
  }

  class MemoryDeadLetter {
    var tasks: map<nat, DeadTask>

    constructor ()
      ensures tasks == map[]
    {
      tasks := map[];
    }

    method Add(live: bool, task: Option<Task>, reason: Reason, now: int) returns (status: Status)
      requires Keyed(tasks)
      modifies this`tasks
      ensures Keyed(tasks)
      ensures status == if !live then ContextDone else if task.None? then TaskNil else Ok
      ensures status == Ok ==> tasks == old(tasks)[task.value.id := DeadTask(task.value, reason, 0, now)]
      ensures status != Ok ==> tasks == old(tasks)
    {
      if !live {
        return ContextDone;
      }
      if task.None? {
        return TaskNil;
      }
      tasks := tasks[task.value.id := Dead(task.value, reason, now)];
      return Ok;
    }

    /** Up to limit entries in some order, each once; all of them when limit is not positive. */
    method List(live: bool, limit: int) returns (status: Status, listed: seq<DeadTask>)
      requires Keyed(tasks)
      ensures status == if live then Ok else ContextDone
      ensures forall i :: 0 <= i < |listed| ==> listed[i].task.id in tasks && tasks[listed[i].task.id] == listed[i]
      ensures forall i, j :: 0 <= i < j < |listed| ==> listed[i].task.id != listed[j].task.id
      ensures status == Ok && limit <= 0 ==> forall id :: id in tasks ==> tasks[id] in listed
      ensures status == Ok && 0 < limit ==> |listed| == if limit < |tasks| then limit else |tasks|
      ensures status != Ok ==> listed == []
    {
      listed := [];
      if !live {
        return ContextDone, listed;
      }
      var todo := tasks.Keys;
      while todo != {} && !(0 < limit <= |listed|)
        invariant todo <= tasks.Keys && |listed| + |todo| == |tasks|
        invariant 0 < limit ==> |listed| <= limit
        invariant forall i :: 0 <= i < |listed| ==>
          listed[i].task.id in tasks.Keys - todo && tasks[listed[i].task.id] == listed[i]
        invariant forall i, j :: 0 <= i < j < |listed| ==> listed[i].task.id != listed[j].task.id
        invariant forall id :: id in tasks && id !in todo ==> tasks[id] in listed
        decreases todo
      {
        var id :| id in todo;
        listed := listed + [tasks[id]];
        todo := todo - {id};
      }
      return Ok, listed;
    }

    method Remove(live: bool, id: nat) returns (status: Status)
      requires Keyed(tasks)
      modifies this`tasks
      ensures Keyed(tasks)
      ensures status == if live then Ok else ContextDone
      ensures tasks == if live then old(tasks) - {id} else old(tasks)
    {
      if !live {
        return ContextDone;
      }
      tasks := tasks - {id};
      return Ok;
    }
  }
}
