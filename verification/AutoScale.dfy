/** The autoscaler's policy, and what it guarantees over whole runs of ticks. */
module AutoScale {
  import opened Arithmetic

  datatype Config = Config(
    minSize: int,
    maxSize: int,
    upStep: int,
    headroom: int,
    interval: int,
    upCooldown: int,
    downCooldown: int,
    idlePeriod: int)

  /** Unusable fields take their defaults; durations are in nanoseconds. */
  function ApplyDefaults(cfg: Config, cpus: nat): Config {
    Config(
      if cfg.minSize <= 0 then 1 else cfg.minSize,
      if cfg.maxSize <= 0 then cpus else cfg.maxSize,
      if cfg.upStep <= 0 then 1 else cfg.upStep,
      if cfg.headroom <= 0 then 1 else cfg.headroom,
      if cfg.interval <= 0 then 100_000_000 else cfg.interval,
      if cfg.upCooldown < 0 then 0 else cfg.upCooldown,
      if cfg.downCooldown <= 0 then 5_000_000_000 else cfg.downCooldown,
      if cfg.idlePeriod <= 0 then 2_000_000_000 else cfg.idlePeriod)
  }

  predicate Validate(cfg: Config) {
    cfg.minSize <= cfg.maxSize
  }

  /** The configurations a pool runs with: defaults applied, then validated. */
  predicate Usable(cfg: Config) {
    && 1 <= cfg.minSize <= cfg.maxSize && 1 <= cfg.upStep && 1 <= cfg.headroom && 1 <= cfg.interval
    && 0 <= cfg.upCooldown && 1 <= cfg.downCooldown && 1 <= cfg.idlePeriod
  }

  /** Applying the defaults changes exactly the unusable settings, and validation is then the one remaining check. */
  lemma DefaultsMakeUsable(cfg: Config, cpus: nat)
    requires 1 <= cpus
    ensures Usable(ApplyDefaults(cfg, cpus)) <==> Validate(ApplyDefaults(cfg, cpus))
    ensures Usable(cfg) ==> ApplyDefaults(cfg, cpus) == cfg
    ensures ApplyDefaults(ApplyDefaults(cfg, cpus), cpus) == ApplyDefaults(cfg, cpus)
    ensures ApplyDefaults(Config(0, 0, 0, 0, 0, -1, 0, 0), cpus) ==
      Config(1, cpus, 1, 1, 100_000_000, 0, 5_000_000_000, 2_000_000_000)
    ensures var c := ApplyDefaults(cfg, cpus);
      && (c.minSize == cfg.minSize || (cfg.minSize <= 0 && c.minSize == 1))
      && (c.maxSize == cfg.maxSize || (cfg.maxSize <= 0 && c.maxSize == cpus))
      && (c.upStep == cfg.upStep || (cfg.upStep <= 0 && c.upStep == 1))
      && (c.headroom == cfg.headroom || (cfg.headroom <= 0 && c.headroom == 1))
      && (c.interval == cfg.interval || (cfg.interval <= 0 && c.interval == 100_000_000))
      && (c.upCooldown == cfg.upCooldown || (cfg.upCooldown < 0 && c.upCooldown == 0))
      && (c.downCooldown == cfg.downCooldown || (cfg.downCooldown <= 0 && c.downCooldown == 5_000_000_000))
      && (c.idlePeriod == cfg.idlePeriod || (cfg.idlePeriod <= 0 && c.idlePeriod == 2_000_000_000))
  {
  }

  // ---------- One decision ----------

  /** The load reading of one tick. */
  datatype Snapshot = Snapshot(joined: nat, idle: nat, backlog: nat, now: int, lastUp: int, lastDown: int)

  datatype Decision = Hold | Up | Down

  predicate ShouldScaleUp(s: Snapshot, cfg: Config) {
    s.joined < cfg.maxSize && (s.backlog > 0 && s.idle <= cfg.headroom) && s.now - s.lastUp >= cfg.upCooldown
  }

  predicate ShouldScaleDown(s: Snapshot, cfg: Config) {
    s.joined > cfg.minSize && (s.backlog == 0 && s.idle > cfg.headroom) && s.now - s.lastDown >= cfg.downCooldown
  }

  function ScaleUpStep(s: Snapshot, cfg: Config): int {
    var room := cfg.maxSize - s.joined;
    if cfg.upStep > room then room else cfg.upStep
  }

  function Decide(s: Snapshot, cfg: Config): (d: (Decision, int)) {
    if ShouldScaleUp(s, cfg) then (Up, ScaleUpStep(s, cfg))
    else if ShouldScaleDown(s, cfg) then (Down, 0)
    else (Hold, 0)
  }

  /**
    When a decision is to grow or to shrink, in the reading: up exactly under pressure, below the
    ceiling and after the cooldown, and then by a whole step or by all the room there is; down
    exactly when nothing is queued and more are idle than the headroom, above the floor and after
    the cooldown. The two pressures exclude each other.
   */
  lemma DecisionInBounds(s: Snapshot, cfg: Config)
    requires Usable(cfg)
    ensures var (d, step) := Decide(s, cfg);
      && (d == Up ==> 1 <= step <= cfg.upStep && s.joined + step <= cfg.maxSize)
      && (d == Down ==> cfg.minSize <= s.joined - 1)
      && (d != Up ==> step == 0)
      && (d == Up <==> s.backlog > 0 && s.idle <= cfg.headroom && s.joined < cfg.maxSize
                       && s.now - s.lastUp >= cfg.upCooldown)
      && (d == Up ==> step == cfg.upStep || s.joined + step == cfg.maxSize)
      && (d == Down <==> s.backlog == 0 && s.idle > cfg.headroom && s.joined > cfg.minSize
                         && s.now - s.lastDown >= cfg.downCooldown)
    ensures !(ShouldScaleUp(s, cfg) && ShouldScaleDown(s, cfg))
  {
  }

  // ---------- The victim ----------

  datatype Candidate = Candidate(running: bool, lastActiveAt: int)

  predicate Eligible(c: Candidate, now: int, idlePeriod: int) {
    !c.running && now - c.lastActiveAt >= idlePeriod
  }

  /** The longest-idle eligible candidate, the first one among equals. */
  ghost predicate IsVictim(candidates: seq<Candidate>, now: int, idlePeriod: int, best: nat) {
    && best < |candidates| && Eligible(candidates[best], now, idlePeriod)
    && forall k :: 0 <= k < |candidates| && Eligible(candidates[k], now, idlePeriod) ==>
         && candidates[best].lastActiveAt <= candidates[k].lastActiveAt
         && (k < best ==> candidates[best].lastActiveAt < candidates[k].lastActiveAt)
  }

  method PickVictim(candidates: seq<Candidate>, now: int, idlePeriod: int) returns (best: int, found: bool)
    ensures found ==> 0 <= best && IsVictim(candidates, now, idlePeriod, best)
    ensures found ==> !candidates[best].running && idlePeriod <= now - candidates[best].lastActiveAt
    ensures found ==> forall k :: 0 <= k < |candidates| && !candidates[k].running ==>
      && candidates[best].lastActiveAt <= candidates[k].lastActiveAt
      && (k < best ==> candidates[best].lastActiveAt < candidates[k].lastActiveAt)
    ensures !found ==> best == -1 && forall k :: 0 <= k < |candidates| ==> !Eligible(candidates[k], now, idlePeriod)
    ensures !found ==> forall k :: 0 <= k < |candidates| ==>
      candidates[k].running || now - candidates[k].lastActiveAt < idlePeriod
  {
    best := -1;
    for i := 0 to |candidates|
      invariant -1 <= best < i
      invariant best == -1 ==> forall k :: 0 <= k < i ==> !Eligible(candidates[k], now, idlePeriod)
      invariant best != -1 ==> IsVictim(candidates[..i], now, idlePeriod, best)
    {
      if candidates[i].running {
        continue;
      }
      if now - candidates[i].lastActiveAt < idlePeriod {
        continue;
      }
      if best == -1 || candidates[i].lastActiveAt < candidates[best].lastActiveAt {
        best := i;
      }
    }
    assert candidates[..|candidates|] == candidates;
    found := best != -1;
  }

  // ---------- Runs of ticks ----------

  /** What the scaler goroutine keeps between ticks, with the size of the joined set. */
  datatype Scaler = Scaler(joined: nat, lastUp: int, lastDown: int)

  /** One tick: its reading, how many of the asked joins succeeded, and whether a victim was found. */
  datatype Tick = Tick(now: int, idle: nat, backlog: nat, added: nat, victim: bool)

  function Reading(s: Scaler, t: Tick): Snapshot {
    Snapshot(s.joined, t.idle, t.backlog, t.now, s.lastUp, s.lastDown)
  }

  function Act(cfg: Config, s: Scaler, t: Tick): (Decision, int) {
    Decide(Reading(s, t), cfg)
  }

  predicate CanTick(cfg: Config, s: Scaler, t: Tick) {
    t.added <= Act(cfg, s, t).1
  }

  function Next(cfg: Config, s: Scaler, t: Tick): Scaler
    requires Usable(cfg) && CanTick(cfg, s, t)
  {
    match Act(cfg, s, t).0
    case Up => s.(joined := s.joined + t.added, lastUp := if t.added > 0 then t.now else s.lastUp)
    case Down => if t.victim then s.(joined := s.joined - 1, lastDown := t.now) else s
    case Hold => s
  }

  /**
    What one tick does to the size and the stamps, by its reading. Workers are added only under
    pressure, below the ceiling and after the cooldown, and at most as many as a step and the
    room allow; one is removed only when nothing is queued and more are idle than the headroom,
    above the floor and after the cooldown; else nothing changes.
   */
  lemma TickBySizes(cfg: Config, s: Scaler, t: Tick)
    requires Usable(cfg) && CanTick(cfg, s, t)
    ensures var s' := Next(cfg, s, t);
      var up := t.backlog > 0 && t.idle <= cfg.headroom && s.joined < cfg.maxSize && t.now - s.lastUp >= cfg.upCooldown;
      var down := t.backlog == 0 && t.idle > cfg.headroom && s.joined > cfg.minSize
                  && t.now - s.lastDown >= cfg.downCooldown;
      && (s'.joined > s.joined ==> up && s'.joined - s.joined <= cfg.upStep && s'.joined <= cfg.maxSize)
      && (s'.joined < s.joined ==> down && s'.joined == s.joined - 1)
      && (up ==> s'.joined == s.joined + t.added)
      && (down && t.victim ==> s'.joined == s.joined - 1)
      && s'.lastUp == (if s'.joined > s.joined then t.now else s.lastUp)
      && s'.lastDown == (if s'.joined < s.joined then t.now else s.lastDown)
  {
  }

  ghost predicate CanRun(cfg: Config, s: Scaler, run: seq<Tick>)
    requires Usable(cfg)
    decreases |run|
  {
    run == [] || (CanTick(cfg, s, run[0]) && CanRun(cfg, Next(cfg, s, run[0]), run[1..]))
  }

  ghost function After(cfg: Config, s: Scaler, run: seq<Tick>): Scaler
    requires Usable(cfg) && CanRun(cfg, s, run)
    decreases |run|
  {
    if run == [] then s else After(cfg, Next(cfg, s, run[0]), run[1..])
  }

  predicate InBounds(cfg: Config, s: Scaler) {
    cfg.minSize <= s.joined <= cfg.maxSize
  }

  /** The size stays between its bounds over every run of ticks. */
  lemma {:induction false} BoundsAfter(cfg: Config, s: Scaler, run: seq<Tick>)
    requires Usable(cfg) && InBounds(cfg, s) && CanRun(cfg, s, run)
    ensures InBounds(cfg, After(cfg, s, run))
    decreases |run|
  {
    if run != [] {
      BoundsAfter(cfg, Next(cfg, s, run[0]), run[1..]);
    }
  }

  predicate Shrinks(cfg: Config, s: Scaler, t: Tick) {
    Act(cfg, s, t).0 == Down && t.victim
  }

  /** The times of the applied scale-downs of a run. */
  ghost function Downs(cfg: Config, s: Scaler, run: seq<Tick>): seq<int>
    requires Usable(cfg) && CanRun(cfg, s, run)
    decreases |run|
  {
    if run == [] then []
    else (if Shrinks(cfg, s, run[0]) then [run[0].now] else []) + Downs(cfg, Next(cfg, s, run[0]), run[1..])
  }

  /** The times of the applied scale-ups of a run, and how many workers each added. */
  ghost function Ups(cfg: Config, s: Scaler, run: seq<Tick>): seq<(int, nat)>
    requires Usable(cfg) && CanRun(cfg, s, run)
    decreases |run|
  {
    if run == [] then []
    else (if run[0].added > 0 then [(run[0].now, run[0].added)] else []) + Ups(cfg, Next(cfg, s, run[0]), run[1..])
  }

  /** Times at which each is at least gap after the one before. */
  ghost predicate Spaced(times: seq<int>, gap: int) {
    forall i :: 0 < i < |times| ==> times[i] - times[i - 1] >= gap
  }

  function Times(ups: seq<(int, nat)>): seq<int> {
    seq(|ups|, i requires 0 <= i < |ups| => ups[i].0)
  }

  lemma DownTick(cfg: Config, s: Scaler, t: Tick)
    requires Usable(cfg) && CanTick(cfg, s, t)
    ensures Shrinks(cfg, s, t) ==> t.now - s.lastDown >= cfg.downCooldown
    ensures Next(cfg, s, t).lastDown == if Shrinks(cfg, s, t) then t.now else s.lastDown
  {
  }

  lemma {:induction false} DownsSpaced(cfg: Config, s: Scaler, run: seq<Tick>)
    requires Usable(cfg) && CanRun(cfg, s, run)
    ensures var times := Downs(cfg, s, run);
      && Spaced(times, cfg.downCooldown)
      && (times != [] ==> times[0] - s.lastDown >= cfg.downCooldown)
    decreases |run|
  {
    if run != [] {
      DownTick(cfg, s, run[0]);
      DownsSpaced(cfg, Next(cfg, s, run[0]), run[1..]);
      hide Next, Shrinks;
    }
  }

  lemma UpTick(cfg: Config, s: Scaler, t: Tick)
    requires Usable(cfg) && CanTick(cfg, s, t)
    ensures t.added > 0 ==> t.now - s.lastUp >= cfg.upCooldown && t.added <= cfg.upStep
    ensures Next(cfg, s, t).lastUp == if t.added > 0 then t.now else s.lastUp
  {
  }

  /**
    The scale-up stamp moves if and only if at least one join of the batch succeeded, so also
    after a batch that failed part of the way.
   */
  lemma StampMovesExactly(cfg: Config, s: Scaler, t: Tick)
    requires Usable(cfg) && CanTick(cfg, s, t) && Act(cfg, s, t).0 == Up && t.now != s.lastUp
    ensures Next(cfg, s, t).lastUp != s.lastUp <==> t.added > 0
  {
    UpTick(cfg, s, t);
  }

  /** A batch of two joins of which one fails, after which the cooldown holds back the next batch. */
  lemma PartialBatchStamps()
    ensures var cfg := Config(1, 4, 2, 1, 1, 10, 1, 1);
      var s, t := Scaler(1, 0, 0), Tick(100, 0, 1, 1, false);
      && Usable(cfg) && Act(cfg, s, t) == (Up, 2) && CanTick(cfg, s, t) && t.added < 2
      && Next(cfg, s, t) == Scaler(2, 100, 0)
      && Act(cfg, Next(cfg, s, t), t.(now := 109, added := 0)).0 == Hold
  {
  }

  lemma SpacedUp(first: (int, nat), rest: seq<(int, nat)>, gap: int)
    requires Spaced(Times(rest), gap) && (rest != [] ==> rest[0].0 - first.0 >= gap)
    ensures Spaced(Times([first] + rest), gap)
  {
    assert Times([first] + rest) == [first.0] + Times(rest);
  }

  lemma {:induction false} UpsSpaced(cfg: Config, s: Scaler, run: seq<Tick>)
    requires Usable(cfg) && CanRun(cfg, s, run)
    ensures var ups := Ups(cfg, s, run);
      && Spaced(Times(ups), cfg.upCooldown)
      && (ups != [] ==> ups[0].0 - s.lastUp >= cfg.upCooldown)
      && (forall i :: 0 <= i < |ups| ==> 1 <= ups[i].1 <= cfg.upStep)
    decreases |run|
  {
    if run != [] {
      var s' := Next(cfg, s, run[0]);
      var rest := Ups(cfg, s', run[1..]);
      UpTick(cfg, s, run[0]);
      UpsSpaced(cfg, s', run[1..]);
      hide Next, Usable, Spaced, Times, CanTick;
      if run[0].added > 0 {
        SpacedUp((run[0].now, run[0].added), rest, cfg.upCooldown);
      } else {
        assert Ups(cfg, s, run) == rest;
      }
    }
  }

  lemma {:induction false} SpacedSpan(times: seq<int>, gap: int, i: nat, k: nat)
    requires Spaced(times, gap) && i <= k < |times|
    ensures times[k] - times[i] >= (k - i) * gap
    decreases k - i
  {
    if i < k {
      SpacedSpan(times, gap, i, k - 1);
      assert (k - i) * gap == (k - 1 - i) * gap + gap;
    }
  }

  /** Any scale-downs number i to k of a run that fall into a window of length w satisfy (k - i) cooldowns <= w. */
  lemma DownCooldownBound(cfg: Config, s: Scaler, run: seq<Tick>, i: nat, k: nat, start: int, w: int)
    requires Usable(cfg) && CanRun(cfg, s, run)
    requires i <= k < |Downs(cfg, s, run)|
    requires start <= Downs(cfg, s, run)[i] && Downs(cfg, s, run)[k] <= start + w
    ensures (k - i) * cfg.downCooldown <= w
  {
    DownsSpaced(cfg, s, run);
    SpacedSpan(Downs(cfg, s, run), cfg.downCooldown, i, k);
  }

  ghost function Added(ups: seq<(int, nat)>): nat {
    if ups == [] then 0 else ups[0].1 + Added(ups[1..])
  }

  lemma {:induction false} AddedAtMost(ups: seq<(int, nat)>, step: nat)
    requires forall i :: 0 <= i < |ups| ==> ups[i].1 <= step
    ensures Added(ups) <= step * |ups|
  {
    if ups != [] {
      AddedAtMost(ups[1..], step);
      assert step * |ups| == step + step * (|ups| - 1);
    }
  }

  /**
    With a cooldown, the workers added by scale-ups i to k - 1 inside a window of length w are at
    most step * (w / cooldown + 1).
   */
  lemma UpCooldownBound(cfg: Config, s: Scaler, run: seq<Tick>, i: nat, k: nat, start: int, w: nat)
    requires Usable(cfg) && CanRun(cfg, s, run) && 0 < cfg.upCooldown
    requires i < k <= |Ups(cfg, s, run)|
    requires start <= Ups(cfg, s, run)[i].0 && Ups(cfg, s, run)[k - 1].0 <= start + w
    ensures Added(Ups(cfg, s, run)[i..k]) <= cfg.upStep * (w / cfg.upCooldown + 1)
  {
    UpsSpaced(cfg, s, run);
    hide Ups, CanRun, Spaced;
    var ups := Ups(cfg, s, run);
    SpacedSpan(Times(ups), cfg.upCooldown, i, k - 1);
    AddedAtMost(ups[i..k], cfg.upStep);
    QuotientBound(k - 1 - i, cfg.upCooldown, w);
    StepsBound(Added(ups[i..k]), cfg.upStep, k - i, w / cfg.upCooldown + 1);
  }

  lemma StepsBound(added: int, step: nat, n: nat, most: nat)
    requires added <= step * n && n <= most
    ensures added <= step * most
  {
    ProductMonotone(n, most, step);
  }

  lemma QuotientBound(n: nat, d: nat, w: nat)
    requires 0 < d && n * d <= w
    ensures n <= w / d
  {
    var q := w / d;
    assert w < d * (q + 1);
    if q < n {
      ProductMonotone(q + 1, n, d);
    }
  }

  // ---------- Settling ----------

  /** Ticks with an empty backlog, spare idle workers, the cooldown over and someone to remove. */
  ghost predicate Calm(cfg: Config, s: Scaler, run: seq<Tick>)
    requires Usable(cfg) && CanRun(cfg, s, run)
    decreases |run|
  {
    run == [] || (
      && run[0].backlog == 0 && run[0].idle > cfg.headroom
      && run[0].now - s.lastDown >= cfg.downCooldown && run[0].victim
      && Calm(cfg, Next(cfg, s, run[0]), run[1..]))
  }

  /** Under calm load the pool loses one worker a tick until it is at its floor, and stays there. */
  lemma {:induction false} Settles(cfg: Config, s: Scaler, run: seq<Tick>)
    requires Usable(cfg) && InBounds(cfg, s) && CanRun(cfg, s, run) && Calm(cfg, s, run)
    ensures After(cfg, s, run).joined == if |run| <= s.joined - cfg.minSize then s.joined - |run| else cfg.minSize
    decreases |run|
  {
    if run != [] {
      Settles(cfg, Next(cfg, s, run[0]), run[1..]);
    }
  }

  function AtMost(a: int, b: int): int {
    if a < b then a else b
  }

  /**
    Ticks with something queued, few workers idle and the cooldown over, in which every join the
    step and the room allow succeeds; joined and lastUp are what the first of them starts from.
   */
  ghost predicate Pressed(cfg: Config, joined: nat, lastUp: int, run: seq<Tick>)
    decreases |run|
  {
    run == [] || (
      && run[0].backlog > 0 && run[0].idle <= cfg.headroom && run[0].now - lastUp >= cfg.upCooldown
      && run[0].added == AtMost(cfg.upStep, cfg.maxSize - joined)
      && Pressed(cfg, joined + run[0].added, if run[0].added > 0 then run[0].now else lastUp, run[1..]))
  }

  lemma PressedStep(cfg: Config, s: Scaler, t: Tick)
    requires Usable(cfg) && InBounds(cfg, s)
    requires t.backlog > 0 && t.idle <= cfg.headroom && t.now - s.lastUp >= cfg.upCooldown
    requires t.added == AtMost(cfg.upStep, cfg.maxSize - s.joined)
    ensures CanTick(cfg, s, t)
    ensures Next(cfg, s, t) ==
      Scaler(s.joined + t.added, if t.added > 0 then t.now else s.lastUp, s.lastDown)
    ensures InBounds(cfg, Next(cfg, s, t))
  {
  }

  /** Under sustained pressure the pool gains a full step a tick until it is at its ceiling, and stays there. */
  lemma {:induction false} Grows(cfg: Config, s: Scaler, run: seq<Tick>)
    requires Usable(cfg) && InBounds(cfg, s) && Pressed(cfg, s.joined, s.lastUp, run)
    ensures CanRun(cfg, s, run)
    ensures After(cfg, s, run).joined == AtMost(cfg.maxSize, s.joined + |run| * cfg.upStep)
    decreases |run|
  {
    if run != [] {
      PressedStep(cfg, s, run[0]);
      hide Usable, CanTick, Next;
      Grows(cfg, Next(cfg, s, run[0]), run[1..]);
      OneStepMore(|run|, cfg.upStep);
    }
  }

  lemma OneStepMore(n: nat, step: int)
    requires 1 <= n
    ensures n * step == step + (n - 1) * step
    ensures 0 <= step ==> 0 <= (n - 1) * step
  {
  }
}
