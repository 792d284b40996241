/**
  Worker membership: the claims table with its subscribers and its rendezvous loop, and the pool
  whose scaler joins and leaves workers.
 */
module WorkerPools {
  import opened AutoScale
  import Tasks

  datatype Outcome =
    | Ok
    | NilContext
    | ContextDone
    | NilJobs
    | NilConfig
    | AlreadyRunning
    | MaxPoolSize
    | InvalidPool
    | SubmitTimeout
    | NoWorkers
    | WorkerTimeout

  /** A context argument. */
  datatype Ctx = NilCtx | DoneCtx | LiveCtx

  // ---------- Claims ----------

  /** An advertised claim: the worker's ID and which of its joins offered it. */
  datatype Ticket = Ticket(worker: nat, input: nat)

  /** What ends a wait for a worker: the deadline, possibly just after a pull, or the job's own context. */
  datatype WaitEnd = Deadline | DeadlineAfterPull | CallerDone

  function Least(a: nat, b: nat): nat {
    if a < b then a else b
  }

  class Claims {
    const size: nat
    var subscribers: set<nat>
    var queue: seq<Ticket>

    constructor (size: nat)
      ensures this.size == size && subscribers == {} && queue == []
    {
      this.size := size;
      subscribers := {};
      queue := [];
    }

    method Subscribe(id: nat) returns (outcome: Outcome)
      modifies this`subscribers
      ensures outcome == if |old(subscribers)| >= size then MaxPoolSize else Ok
      ensures subscribers == if outcome == Ok then old(subscribers) + {id} else old(subscribers)
    {
      if |subscribers| >= size {
        return MaxPoolSize;
      }
      subscribers := subscribers + {id};
      return Ok;
    }

    method Unsubscribe(id: nat)
      modifies this`subscribers
      ensures subscribers == old(subscribers) - {id}
    {
      if id !in subscribers {
        return;
      }
      subscribers := subscribers - {id};
    }

    /** The wait for a worker is over; a claim pulled at the very deadline is thrown away untried. */
    method GiveUp(end: WaitEnd) returns (outcome: Outcome)
      modifies this`queue
      ensures outcome == if end == CallerDone then ContextDone
                         else if subscribers == {} then NoWorkers else SubmitTimeout
      ensures queue == if end == DeadlineAfterPull && old(queue) != [] then old(queue)[1..] else old(queue)
    {
      if end == CallerDone {
        return ContextDone;
      }
      if end == DeadlineAfterPull && queue != [] {
        queue := queue[1..];
      }
      return if subscribers == {} then NoWorkers else SubmitTimeout;
    }

    /**
      Hands one job to a worker while nothing else moves: receiving are the inputs being read,
      and rounds is how many claims can be tried before the wait ends. What ends it is the job's
      context, or the deadline, which may pass right after one more claim was pulled. The job goes
      to the first usable claim among those tried; every other claim pulled is thrown away.
     */
    method Submit(receiving: set<nat>, rounds: nat, end: WaitEnd) returns (outcome: Outcome, taker: int)
      modifies this`queue
      ensures outcome == Ok ==>
        && 0 <= taker < |old(queue)| && taker < rounds
        && old(queue)[taker].worker in subscribers && old(queue)[taker].input in receiving
        && (forall k :: 0 <= k < taker ==>
              old(queue)[k].worker !in subscribers || old(queue)[k].input !in receiving)
        && queue == old(queue)[taker + 1..]
      ensures outcome != Ok ==>
        && taker == -1
        && outcome == (if end == CallerDone then ContextDone
                       else if subscribers == {} then NoWorkers else SubmitTimeout)
        && (forall k :: 0 <= k < |old(queue)| && k < rounds ==>
              old(queue)[k].worker !in subscribers || old(queue)[k].input !in receiving)
        && queue == old(queue)[Least(if end == DeadlineAfterPull then rounds + 1 else rounds, |old(queue)|)..]
    {
      ghost var all := queue;
      var pulled := 0;
      while pulled < rounds && queue != []
        invariant pulled <= rounds && pulled <= |all| && queue == all[pulled..]
        invariant forall k :: 0 <= k < pulled ==> all[k].worker !in subscribers || all[k].input !in receiving
        decreases rounds - pulled
      {
        var ticket := queue[0];
        assert ticket == all[pulled] && queue[1..] == all[pulled + 1..];
        queue := queue[1..];
        pulled := pulled + 1;
        if ticket.worker !in subscribers {
          continue;
        }
        if ticket.input in receiving {
          return Ok, pulled - 1;
        }
      }
      assert queue != [] ==> queue[1..] == all[pulled + 1..];
      taker := -1;
      outcome := GiveUp(end);
    }
  }

  /** The claims table for a configured size; a size that is not positive becomes the number of processors. */
  function ClaimsSize(size: int, cpus: nat): nat {
    if size <= 0 then cpus else size
  }

  method NewClaims(size: Tasks.Option<int>, cpus: nat) returns (outcome: Outcome, claims: Claims?)
    ensures outcome == if size.None? then NilConfig else Ok
    ensures outcome == Ok <==> claims != null
    ensures claims != null ==>
      && fresh(claims) && claims.size == (if 0 < size.value then size.value else cpus)
      && claims.subscribers == {} && claims.queue == []
  {
    if size.None? {
      return NilConfig, null;
    }
    claims := new Claims(ClaimsSize(size.value, cpus));
    outcome := Ok;
  }

  // ---------- The pool ----------

  class Worker {
    const id: nat
    var running: bool
    var lastActiveAt: int

    constructor (id: nat, now: int)
      ensures this.id == id && !running && lastActiveAt == now
    {
      this.id := id;
      running := false;
      lastActiveAt := now;
    }

    /** Join, up to starting the run loop; the worker is subscribed exactly when it returns Ok. */
    method Join(ctx: Ctx, jobs: Claims?, now: int) returns (outcome: Outcome)
      modifies this`lastActiveAt, (if jobs == null then {} else {jobs})`subscribers
      ensures outcome == if ctx == NilCtx then NilContext else if ctx == DoneCtx then ContextDone
                         else if jobs == null then NilJobs else if running then AlreadyRunning
                         else if |old(jobs.subscribers)| >= jobs.size then MaxPoolSize else Ok
      ensures jobs != null ==>
        jobs.subscribers == if outcome == Ok then old(jobs.subscribers) + {id} else old(jobs.subscribers)
      ensures lastActiveAt == if outcome == Ok then now else old(lastActiveAt)
    {
      if ctx == NilCtx {
        return NilContext;
      }
      if ctx == DoneCtx {
        return ContextDone;
      }
      if jobs == null {
        return NilJobs;
      }
      if running {
        return AlreadyRunning;
      }
      outcome := jobs.Subscribe(id);
      if outcome != Ok {
        return;
      }
      lastActiveAt := now;
    }
  }

  /** The IDs 1 to n. */
  function Ids(n: nat): (ids: set<nat>)
    ensures |ids| == n
    ensures forall i: nat :: i in ids <==> 1 <= i <= n
  {
    if n == 0 then {} else Ids(n - 1) + {n}
  }

  lemma SubsetSize(joined: set<nat>, all: set<nat>)
    requires joined <= all
    ensures |joined| <= |all|
  {
    assert all == joined + (all - joined);
  }

  /** Worker i of the slice has ID i + 1. */
  ghost predicate Numbered(workers: seq<Worker>) {
    forall i :: 0 <= i < |workers| ==> workers[i].id == i + 1
  }

  /** What a scan that stopped at i has found: either all are joined, or i + 1 is the first spare ID. */
  lemma PrefixJoined(workers: seq<Worker>, i: nat, joined: set<nat>)
    requires Numbered(workers) && i <= |workers| && joined <= Ids(|workers|)
    requires forall k :: 0 <= k < i ==> workers[k].id in joined
    requires i < |workers| ==> workers[i].id !in joined
    ensures i == |workers| ==> |joined| == |workers|
    ensures i < |workers| ==>
      && Spare(joined, i + 1, |workers|) && joined + {i + 1} <= Ids(|workers|)
      && |joined + {i + 1}| == |joined| + 1 <= |workers|
  {
    forall id | id in Ids(i)
      ensures id in joined
    {
      assert workers[id - 1].id == id;
    }
    if i == |workers| {
      assert joined == Ids(i);
    } else {
      SpareBelow(joined, i + 1, |workers|);
    }
  }

  class Pool {
    const cfg: Config
    const workers: seq<Worker>
    const claims: Claims
    var joinedIDs: set<nat>
    var lastUp: int
    var lastDown: int

    /** Both membership tables agree, over n workers numbered from 1. */
    ghost predicate Members(n: nat)
      reads this`joinedIDs, claims`subscribers
    {
      && |workers| == claims.size == n && Numbered(workers)
      && joinedIDs <= Ids(n)
      && claims.subscribers == joinedIDs
    }

    /** An auto-scaled pool: its tables agree, and the size is between its bounds. */
    ghost predicate Valid()
      reads this`joinedIDs, claims`subscribers
    {
      AutoScale.Usable(cfg) && Members(cfg.maxSize) && cfg.minSize <= |joinedIDs| <= cfg.maxSize
    }

    ghost function View(): Scaler
      reads this
    {
      Scaler(|joinedIDs|, lastUp, lastDown)
    }

    constructor (cfg: Config, workers: seq<Worker>, claims: Claims, joined: set<nat>)
      ensures this.cfg == cfg && this.workers == workers && this.claims == claims && joinedIDs == joined
      ensures lastUp == 0 && lastDown == 0
    {
      this.cfg, this.workers, this.claims, joinedIDs, lastUp, lastDown := cfg, workers, claims, joined, 0, 0;
    }

    /** The first worker that is not joined, if any. */
    method FindSpare() returns (i: nat)
      requires Valid()
      ensures i <= |workers|
      ensures i < |workers| ==>
        && workers[i].id == i + 1 && Spare(joinedIDs, i + 1, |workers|)
        && joinedIDs + {i + 1} <= Ids(|workers|) && |joinedIDs + {i + 1}| == |joinedIDs| + 1 <= cfg.maxSize
      ensures i < |workers| ==> workers[i].id !in joinedIDs && forall k :: 0 <= k < i ==> workers[k].id in joinedIDs
      ensures i == |workers| ==> |joinedIDs| == cfg.maxSize
    {
      hide Ids, Spare;
      i := 0;
      while i < |workers| && workers[i].id in joinedIDs
        invariant i <= |workers|
        invariant forall k :: 0 <= k < i ==> workers[k].id in joinedIDs
      {
        i := i + 1;
      }
      PrefixJoined(workers, i, joinedIDs);
    }

    /** Joins a worker and records it in the joined set. */
    method Admit(w: Worker, ctxLive: bool, now: int) returns (outcome: Outcome)
      requires claims.subscribers == joinedIDs && |joinedIDs| < claims.size
      modifies this`joinedIDs, claims`subscribers, w`lastActiveAt
      ensures outcome == if !ctxLive then ContextDone else if w.running then AlreadyRunning else Ok
      ensures joinedIDs == if outcome == Ok then old(joinedIDs) + {w.id} else old(joinedIDs)
      ensures claims.subscribers == joinedIDs
    {
      outcome := w.Join(if ctxLive then LiveCtx else DoneCtx, claims, now);
      if outcome == Ok {
        joinedIDs := joinedIDs + {w.id};
      }
    }

    /** Joins the first worker that is not joined; there is one exactly when the pool is below its ceiling. */
    method JoinOneIdle(ctxLive: bool, now: int) returns (outcome: Outcome, ghost first: nat)
      requires Valid()
      modifies this`joinedIDs, claims`subscribers, workers`lastActiveAt
      ensures Valid()
      ensures outcome == MaxPoolSize <==> |old(joinedIDs)| == cfg.maxSize
      ensures outcome != MaxPoolSize ==>
        && Spare(old(joinedIDs), first, |workers|) && workers[first - 1] in workers
        && workers[first - 1].id == first && first !in old(joinedIDs)
        && (forall k :: 0 <= k < first - 1 ==> workers[k].id in old(joinedIDs))
      ensures outcome != MaxPoolSize ==>
        outcome == if !ctxLive then ContextDone else if workers[first - 1].running then AlreadyRunning else Ok
      ensures joinedIDs == if outcome == Ok then old(joinedIDs) + {first} else old(joinedIDs)
      ensures outcome == Ok ==> |joinedIDs| == |old(joinedIDs)| + 1
    {
      var i := FindSpare();
      first := i + 1;
      if i == |workers| {
        return MaxPoolSize, first;
      }
      hide Ids, Numbered, Spare;
      assert workers[i] in workers;
      outcome := Admit(workers[i], ctxLive, now);
    }

    /** The batch of an up-decision; it stops early only on a done context or a worker still running a job. */
    method JoinBatch(step: nat, cancelAfter: nat, now: int) returns (added: nat, outcome: Outcome)
      requires Valid() && |joinedIDs| + step <= cfg.maxSize
      modifies this`joinedIDs, claims`subscribers, workers`lastActiveAt
      ensures Valid()
      ensures added <= step && |joinedIDs| == |old(joinedIDs)| + added && old(joinedIDs) <= joinedIDs
      ensures outcome == Ok <==> added == step
      ensures outcome == Ok || outcome == AlreadyRunning || (outcome == ContextDone && cancelAfter <= added)
      ensures outcome == AlreadyRunning ==> exists w :: w in workers && w.id !in joinedIDs && w.running
    {
      added, outcome := 0, Ok;
      while added < step
        invariant Valid() && added <= step && old(joinedIDs) <= joinedIDs
        invariant |joinedIDs| == |old(joinedIDs)| + added
        invariant outcome == Ok
      {
        ghost var first;
        outcome, first := JoinOneIdle(added < cancelAfter, now);
        if outcome != Ok {
          break;
        }
        added := added + 1;
      }
    }

    /** The joined workers in slice order, with the candidate view of each at the same index. */
    method JoinedCandidates() returns (candidates: seq<Candidate>, picked: seq<Worker>)
      requires Valid()
      ensures |candidates| == |picked|
      ensures forall i :: 0 <= i < |picked| ==> candidates[i] == Candidate(picked[i].running, picked[i].lastActiveAt)
      ensures forall i :: 0 <= i < |picked| ==> picked[i] in workers && picked[i].id in joinedIDs
      ensures forall i, k :: 0 <= i < k < |picked| ==> picked[i].id < picked[k].id
      ensures forall w :: w in workers && w.id in joinedIDs ==> w in picked
    {
      candidates, picked := [], [];
      for n := 0 to |workers|
        invariant |candidates| == |picked|
        invariant forall i :: 0 <= i < |picked| ==>
          candidates[i] == Candidate(picked[i].running, picked[i].lastActiveAt)
        invariant forall i :: 0 <= i < |picked| ==>
          picked[i] in workers && picked[i].id in joinedIDs && picked[i].id <= n
        invariant forall i, k :: 0 <= i < k < |picked| ==> picked[i].id < picked[k].id
        invariant forall w :: w in workers && w.id in joinedIDs && w.id <= n ==> w in picked
      {
        if workers[n].id in joinedIDs {
          candidates := candidates + [Candidate(workers[n].running, workers[n].lastActiveAt)];
          picked := picked + [workers[n]];
        }
      }
    }

    /** The joined worker to remove at this time: longest idle, first by ID among equals. */
    ghost predicate Victim(v: Worker, joined: set<nat>, now: int)
      reads workers`running, workers`lastActiveAt
    {
      && v in workers && v.id in joined && Removable(v, now, cfg.idlePeriod)
      && forall w :: w in workers && w.id in joined && Removable(w, now, cfg.idlePeriod) ==>
           v.lastActiveAt <= w.lastActiveAt && (w.id < v.id ==> v.lastActiveAt < w.lastActiveAt)
    }

    /** Finds the worker to remove, if any joined worker is removable. */
    method FindVictim(now: int) returns (victim: Worker?)
      requires Valid()
      ensures victim != null ==> Victim(victim, joinedIDs, now)
      ensures victim != null ==>
        && victim in workers && victim.id in joinedIDs
        && !victim.running && cfg.idlePeriod <= now - victim.lastActiveAt
        && (forall w :: w in workers && w.id in joinedIDs && !w.running ==>
              && victim.lastActiveAt <= w.lastActiveAt
              && (w.id < victim.id ==> victim.lastActiveAt < w.lastActiveAt))
      ensures victim == null ==> forall w :: w in workers && w.id in joinedIDs ==> !Removable(w, now, cfg.idlePeriod)
      ensures victim == null ==>
        forall w :: w in workers && w.id in joinedIDs ==> w.running || now - w.lastActiveAt < cfg.idlePeriod
    {
      var candidates, picked := JoinedCandidates();
      var best, found := PickVictim(candidates, now, cfg.idlePeriod);
      forall w | w in workers && w.id in joinedIDs
        ensures exists k :: 0 <= k < |picked| && picked[k] == w && candidates[k] == Candidate(w.running, w.lastActiveAt)
      {
        assert w in picked;
      }
      return if found then picked[best] else null;
    }

    /**
      Unsubscribes a worker and takes it out of the joined set, whether or not its run loop exits
      in time.
     */
    method LeaveOne(target: Worker, exits: bool) returns (outcome: Outcome)
      requires claims.subscribers == joinedIDs
      modifies this`joinedIDs, claims`subscribers
      ensures outcome == if exits then Ok else WorkerTimeout
      ensures joinedIDs == old(joinedIDs) - {target.id} && claims.subscribers == joinedIDs
    {
      claims.Unsubscribe(target.id);
      joinedIDs := joinedIDs - {target.id};
      outcome := if exits then Ok else WorkerTimeout;
    }

    /**
      One tick of the scaler. The size moves as the policy's Next says, the batch of an
      up-decision never finds the pool full, and a worker made to leave is the one to remove.
     */
    method OnTick(now: int, idle: nat, backlog: nat, cancelAfter: nat, exits: bool)
      returns (ghost tick: Tick, outcome: Outcome, victim: Worker?)
      requires Valid()
      modifies this`joinedIDs, this`lastUp, this`lastDown, claims`subscribers, workers`lastActiveAt
      ensures Valid()
      ensures tick.now == now && tick.idle == idle && tick.backlog == backlog
      ensures CanTick(cfg, old(View()), tick) && View() == Next(cfg, old(View()), tick)
      ensures outcome != MaxPoolSize
      ensures Act(cfg, old(View()), tick).0 == Up ==> old(joinedIDs) <= joinedIDs && victim == null
      ensures Act(cfg, old(View()), tick).0 == Down ==>
        && (victim != null <==> tick.victim)
        && (victim != null ==>
              && victim in workers && old(Victim(victim, joinedIDs, now))
              && joinedIDs == old(joinedIDs) - {victim.id})
        && (victim == null ==>
              forall w :: w in workers && w.id in old(joinedIDs) ==> !old(Removable(w, now, cfg.idlePeriod)))
      ensures victim == null && Act(cfg, old(View()), tick).0 != Up ==> joinedIDs == old(joinedIDs)
      ensures backlog == 0 || idle > cfg.headroom || |old(joinedIDs)| == cfg.maxSize
              || now - old(lastUp) < cfg.upCooldown
        ==> joinedIDs <= old(joinedIDs) && lastUp == old(lastUp)
      ensures backlog > 0 && idle <= cfg.headroom && now - old(lastUp) >= cfg.upCooldown && outcome == Ok ==>
        |joinedIDs| == AtMost(cfg.maxSize, |old(joinedIDs)| + cfg.upStep)
      ensures backlog > 0 || idle <= cfg.headroom || |old(joinedIDs)| == cfg.minSize
              || now - old(lastDown) < cfg.downCooldown
        ==> old(joinedIDs) <= joinedIDs && lastDown == old(lastDown)
      ensures backlog == 0 && idle > cfg.headroom && |old(joinedIDs)| > cfg.minSize
              && now - old(lastDown) >= cfg.downCooldown
        ==> |joinedIDs| == |old(joinedIDs)| - (if victim == null then 0 else 1)
      ensures victim != null ==>
        && victim in workers && victim.id in old(joinedIDs) && joinedIDs == old(joinedIDs) - {victim.id}
        && !old(victim.running) && cfg.idlePeriod <= now - old(victim.lastActiveAt)
      ensures lastUp == if |joinedIDs| > |old(joinedIDs)| then now else old(lastUp)
      ensures lastDown == if |joinedIDs| < |old(joinedIDs)| then now else old(lastDown)
    {
      hide Numbered, Ids, Eligible;
      tick, outcome, victim := Tick(now, idle, backlog, 0, false), Ok, null;
      var snap := Snapshot(|joinedIDs|, idle, backlog, now, lastUp, lastDown);
      var (action, step) := Decide(snap, cfg);
      DecisionInBounds(snap, cfg);
      match action
      case Up =>
        var added;
        added, outcome := JoinBatch(step, cancelAfter, now);
        if added > 0 {
          lastUp := now;
        }
        tick := tick.(added := added);
      case Down =>
        victim := FindVictim(now);
        if victim != null {
          var left := LeaveOne(victim, exits);
          lastDown := now;
          tick := tick.(victim := true);
        }
      case Hold =>
    }

    /** The reclaiming part of close: nobody stays subscribed. */
    method Reclaim()
      requires Valid()
      modifies this`joinedIDs, claims`subscribers
      ensures joinedIDs == {} && claims.subscribers == {}
    {
      var joined: seq<Worker> := [];
      for n := 0 to |workers|
        invariant forall w :: w in joined ==> w in workers
        invariant forall i :: 0 <= i < n && workers[i].id in joinedIDs ==> workers[i] in joined
      {
        if workers[n].id in joinedIDs {
          joined := joined + [workers[n]];
        }
      }
      assert forall id :: id in joinedIDs ==> workers[id - 1] in joined && workers[id - 1].id == id;
      joinedIDs := {};
      for k := 0 to |joined|
        invariant joinedIDs == {}
        invariant forall id :: id in claims.subscribers ==> exists i :: k <= i < |joined| && joined[i].id == id
      {
        claims.Unsubscribe(joined[k].id);
      }
    }
  }

  predicate Removable(w: Worker, now: int, idlePeriod: int)
    reads w`running, w`lastActiveAt
  {
    Eligible(Candidate(w.running, w.lastActiveAt), now, idlePeriod)
  }

  /** The least ID of 1 to n that is not joined. */
  ghost predicate Spare(joined: set<nat>, i: nat, n: nat) {
    1 <= i <= n && i !in joined && Ids(i - 1) <= joined
  }

  /** Pigeonhole: a spare ID means fewer than n are joined. */
  lemma SpareBelow(joined: set<nat>, i: nat, n: nat)
    requires joined <= Ids(n) && Spare(joined, i, n)
    ensures |joined| < n && joined + {i} <= Ids(n)
  {
    SubsetSize(joined, Ids(n) - {i});
  }

  /** The worker slice of a new pool: n workers with the IDs 1 to n. */
  method CreateWorkers(n: nat, now: int) returns (workers: seq<Worker>)
    ensures |workers| == n && Numbered(workers) && fresh(workers)
    ensures forall w :: w in workers ==> !w.running && w.lastActiveAt == now
  {
    workers := [];
    for i := 0 to n
      invariant |workers| == i && Numbered(workers) && fresh(workers)
      invariant forall w :: w in workers ==> !w.running && w.lastActiveAt == now
    {
      var w := new Worker(i + 1, now);
      workers := workers + [w];
    }
  }

  /** The first joins of a new pool, in slice order. */
  method JoinInitial(n: nat, ctxLive: bool, workers: seq<Worker>, claims: Claims, now: int)
    returns (outcome: Outcome, joined: set<nat>)
    requires Numbered(workers) && claims.subscribers == {} && claims.size == |workers|
    requires forall w :: w in workers ==> !w.running
    modifies claims`subscribers, workers`lastActiveAt
    ensures outcome == if ctxLive || n == 0 || workers == [] then Ok else ContextDone
    ensures outcome == Ok ==> joined == Ids(if n < |workers| then n else |workers|) && claims.subscribers == joined
  {
    var count := if n < |workers| then n else |workers|;
    joined, outcome := {}, Ok;
    for i := 0 to count
      invariant claims.subscribers == joined == Ids(i) && outcome == Ok
      invariant i == 0 || ctxLive
    {
      outcome := workers[i].Join(if ctxLive then LiveCtx else DoneCtx, claims, now);
      if outcome != Ok {
        return;
      }
      joined := joined + {workers[i].id};
    }
  }

  datatype Mode = FixedSize | AutoScaled | UnknownMode

  /** What New is configured with, as far as the worker set depends on it. */
  datatype PoolConfig = PoolConfig(mode: Mode, size: int, auto: Config)

  /** How many workers a pool has, and how many of them it starts with. */
  function PoolSize(cfg: PoolConfig, cpus: nat): nat {
    if cfg.mode == AutoScaled && 0 <= ApplyDefaults(cfg.auto, cpus).maxSize then ApplyDefaults(cfg.auto, cpus).maxSize
    else ClaimsSize(cfg.size, cpus)
  }

  /** The worker set of a valid configuration: created, and the first ones joined. */
  method StartPool(auto: Config, size: nat, first: nat, joinLive: bool, now: int)
    returns (outcome: Outcome, pool: Pool?)
    requires 1 <= first <= size
    ensures outcome == if joinLive then Ok else ContextDone
    ensures outcome == Ok <==> pool != null
    ensures pool != null ==>
      && fresh(pool) && pool.Members(size) && pool.cfg == auto
      && pool.joinedIDs == Ids(first) && pool.View() == Scaler(first, 0, 0)
  {
    var made, claims := NewClaims(Tasks.Some(size), size);
    var workers := CreateWorkers(size, now);
    var joined;
    outcome, joined := JoinInitial(first, joinLive, workers, claims, now);
    if outcome != Ok {
      return outcome, null;
    }
    pool := new Pool(auto, workers, claims, joined);
  }

  /**
    New: the checks in their order, the defaults, the worker set and the first joins. A fixed pool
    starts with all its workers joined, an auto-scaled one with MinSize of MaxSize.
   */
  method NewPool(ctx: Ctx, handler: bool, cfg: Tasks.Option<PoolConfig>, cpus: nat, joinLive: bool, now: int)
    returns (outcome: Outcome, pool: Pool?)
    requires 1 <= cpus
    ensures outcome == if ctx == NilCtx then InvalidPool
                       else if ctx == DoneCtx then ContextDone
                       else if !handler || cfg.None? || cfg.value.mode == UnknownMode then InvalidPool
                       else if cfg.value.mode == AutoScaled
                               && (if cfg.value.auto.maxSize <= 0 then cpus else cfg.value.auto.maxSize)
                                  < (if cfg.value.auto.minSize <= 0 then 1 else cfg.value.auto.minSize)
                            then InvalidPool
                       else if !joinLive then ContextDone
                       else Ok
    ensures outcome == Ok <==> pool != null
    ensures pool != null ==>
      fresh(pool) && pool.Members(PoolSize(cfg.value, cpus)) && pool.lastUp == pool.lastDown == 0
    ensures pool != null && cfg.value.mode == FixedSize ==>
      |pool.workers| == (if 0 < cfg.value.size then cfg.value.size else cpus) && pool.joinedIDs == Ids(|pool.workers|)
    ensures pool != null && cfg.value.mode == AutoScaled ==>
      && pool.Valid() && pool.cfg == ApplyDefaults(cfg.value.auto, cpus)
      && |pool.workers| == pool.cfg.maxSize && pool.joinedIDs == Ids(pool.cfg.minSize)
      && (1 <= cfg.value.auto.minSize ==> |pool.joinedIDs| == cfg.value.auto.minSize)
      && (1 <= cfg.value.auto.maxSize ==> |pool.workers| == cfg.value.auto.maxSize)
  {
    pool := null;
    if ctx == NilCtx {
      return InvalidPool, pool;
    }
    if ctx == DoneCtx {
      return ContextDone, pool;
    }
    if !handler || cfg.None? {
      return InvalidPool, pool;
    }
    match cfg.value.mode
    case AutoScaled =>
      var usable := ApplyDefaults(cfg.value.auto, cpus);
      if !Validate(usable) {
        return InvalidPool, pool;
      }
      DefaultsMakeUsable(cfg.value.auto, cpus);
      outcome, pool := StartPool(usable, usable.maxSize, usable.minSize, joinLive, now);
    case FixedSize =>
      var size := ClaimsSize(cfg.value.size, cpus);
      outcome, pool := StartPool(cfg.value.auto, size, size, joinLive, now);
    case UnknownMode =>
      return InvalidPool, pool;
  }
}
