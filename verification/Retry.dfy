/** The backoff strategies and the retry loop of a task. */
module Retry {
  import opened Arithmetic
  import opened Float64

  // ---------- Strategies ----------

  datatype Config = Config(base: int, max: int, jitter: bool)

  function Min(a: int, b: int): int {
    if a < b then a else b
  }

  predicate Int64(x: int) {
    -LIMIT <= x < LIMIT
  }

  /** Durations are int64 values. */
  predicate Durations(cfg: Config) {
    Int64(cfg.base) && Int64(cfg.max)
  }

  /** float64(base) * math.Pow(2, float64(attempt)). */
  function Product(base: int, attempt: nat): Double
    requires 1 <= base < LIMIT
  {
    RoundFinite(base);
    RoundBound(Pow2(attempt));
    Times(Round(base), Round(Pow2(attempt)))
  }

  /** An int64 converts to a finite double of the same sign. */
  lemma RoundFinite(x: int)
    requires Int64(x)
    ensures Round(x).Finite? && (0 < x ==> 0 < Round(x).value) && (x <= 0 ==> Round(x).value <= 0)
    ensures 0 < x ==> Round(x).value == RoundNat(x)
  {
    RoundBound(if x < 0 then -x else x);
    hide RoundNat, Overflow;
  }

  lemma RoundBound(x: nat)
    ensures 0 <= RoundNat(x) <= 2 * x
    ensures 0 < x ==> 0 < RoundNat(x)
  {
    RoundNearBound(x, x / Ulp(x), x % Ulp(x), Ulp(x));
  }

  lemma RoundNearBound(x: nat, q: int, r: int, u: int)
    requires 0 <= q && 0 <= r < u && x == u * q + r && (u == 1 || SIGNIFICAND / 2 * u <= x)
    ensures 0 <= q * u <= x && (q + 1) * u <= x + u && u <= x + 1 && (u == 1 ==> r == 0)
    ensures 2 * r < u && 0 < x ==> 0 < q * u
    ensures u != 1 ==> u <= x
  {
    if q == 0 {
    } else {
      ProductMonotone(1, q, u);
    }
  }

  /** ExponentialBackoff.Delay before jitter. */
  function Exponential(cfg: Config, attempt: int): int
    requires Durations(cfg)
  {
    if cfg.base <= 0 || attempt < 0 then 0
    else
      var delay := Product(cfg.base, attempt);
      if Less(delay, Round(cfg.max)) then delay.value else cfg.max
  }

  /** The range of int64 arithmetic. */
  function Wrap64(x: int): int {
    var m := x % (2 * LIMIT);
    if m < LIMIT then m else m - 2 * LIMIT
  }

  function CapDelay(delay: int, max: int): int {
    if delay > max then max else delay
  }

  /** Linear.Delay before jitter. */
  function Linear(cfg: Config, attempt: int): int {
    CapDelay(Wrap64(cfg.base * Wrap64(attempt + 1)), cfg.max)
  }

  /** A random draw from 0 to delay; what is drawn is an argument. */
  function ApplyJitter(delay: int, draw: nat): (d: int)
    ensures 0 <= d && (0 <= delay ==> d <= delay)
  {
    if delay <= 0 then 0 else draw % (delay + 1)
  }

  lemma PowerRounds(n: nat)
    ensures Round(Pow2(n)) == if Pow2(n) < Overflow() then Finite(Pow2(n)) else Infinite
  {
    hide RoundNat, Overflow;
    RoundFixes(1, n);
  }

  /** A rounded base is off by no more than a factor of two, so what overflows is far above every int64. */
  lemma OverflowScaled(base: int, p: int)
    requires 1 <= base && 1 <= p
    ensures Overflow() <= p ==> Overflow() <= RoundNat(base) * p
    ensures Overflow() <= RoundNat(base) * p ==> LIMIT <= base * p
  {
    RoundBound(base);
    hide RoundNat, Overflow;
    var rounded := RoundNat(base);
    ProductMonotone(1, rounded, p);
    ProductMonotone(rounded, 2 * base, p);
    Regroup(2, base, p);
  }

  /** A rounded base times a power of two is a double. */
  lemma ScaledFixed(base: nat, attempt: nat)
    ensures var scaled := RoundNat(base) * Pow2(attempt); 0 <= scaled && RoundNat(scaled) == scaled
  {
    var m, k := RoundRepresentable(base);
    Pow2Add(k, attempt);
    hide RoundNat;
    Regroup(m, Pow2(k), Pow2(attempt));
    RoundFixes(m, k + attempt);
  }

  /** The double that is computed: the rounded base times the power exactly, or infinity far above every int64. */
  lemma ProductValue(base: int, attempt: nat)
    requires 1 <= base < LIMIT
    ensures var p, scaled := Product(base, attempt), RoundNat(base) * Pow2(attempt);
      if p.Finite? then 0 <= scaled && p.value == scaled && RoundNat(scaled) == scaled
      else LIMIT <= base * Pow2(attempt)
  {
    RoundFinite(base);
    PowerRounds(attempt);
    ScaledFixed(base, attempt);
    OverflowScaled(base, Pow2(attempt));
    hide RoundNat, Overflow, Pow2;
  }

  /**
    Delay is the documented min(base * 2^attempt, max) if and only if: for a base that is not
    positive, it is zero and the cap not negative; else, where the computed product is below the
    rounded cap, the base is a double; elsewhere, the cap is not above the exact product.
   */
  lemma ExponentialExactly(cfg: Config, attempt: nat)
    requires Durations(cfg)
    ensures Exponential(cfg, attempt) == Min(cfg.base * Pow2(attempt), cfg.max) <==>
      if cfg.base <= 0 then cfg.base == 0 && 0 <= cfg.max
      else if Less(Product(cfg.base, attempt), Round(cfg.max)) then Representable(cfg.base)
      else cfg.max <= cfg.base * Pow2(attempt)
  {
    if cfg.base <= 0 {
      ProductMonotone(cfg.base, if cfg.base < 0 then -1 else 0, Pow2(attempt));
    } else {
      PositiveExactly(cfg, attempt);
    }
  }

  lemma PositiveExactly(cfg: Config, attempt: nat)
    requires Durations(cfg) && 1 <= cfg.base
    ensures Exponential(cfg, attempt) == Min(cfg.base * Pow2(attempt), cfg.max) <==>
      if Less(Product(cfg.base, attempt), Round(cfg.max)) then Representable(cfg.base)
      else cfg.max <= cfg.base * Pow2(attempt)
  {
    var product := Product(cfg.base, attempt);
    ProductValue(cfg.base, attempt);
    RoundFinite(cfg.max);
    RepresentableExactly(cfg.base);
    if Less(product, Round(cfg.max)) {
      BelowRoundedCap(product.value, cfg.max);
      FactorsEqual(RoundNat(cfg.base), cfg.base, Pow2(attempt));
    }
  }

  /** Before the first attempt the formula is a fraction; scaled to integers, Delay meets it only where it is zero. */
  lemma NegativeExactly(cfg: Config, k: int)
    requires Durations(cfg) && 1 <= k
    ensures Exponential(cfg, -k) * Pow2(k) == Min(cfg.base, cfg.max * Pow2(k)) <==>
      (cfg.base == 0 && 0 <= cfg.max) || (cfg.max == 0 && 0 <= cfg.base)
  {
    if cfg.max < 0 {
      ProductMonotone(cfg.max, -1, Pow2(k));
    } else if cfg.max > 0 {
      ProductMonotone(1, cfg.max, Pow2(k));
    }
  }

  /** A double below the rounded cap is below the cap. */
  lemma BelowRoundedCap(value: nat, max: int)
    requires RoundNat(value) == value && 0 < max && value < RoundNat(max)
    ensures value < max
  {
    if max <= value {
      AboveRounding(value, max);
    }
  }

  lemma FactorsEqual(a: int, b: int, p: int)
    requires 1 <= p
    ensures a * p == b * p <==> a == b
  {
    if a < b {
      ProductMonotone(a + 1, b, p);
    } else if b < a {
      ProductMonotone(b + 1, a, p);
    }
  }

  /**
    A positive base that is a double, under a cap that is one or is not positive, gives the
    formula at every attempt.
   */
  lemma ExponentialDoubles(cfg: Config, attempt: nat)
    requires Durations(cfg) && 1 <= cfg.base && Representable(cfg.base)
    requires cfg.max <= 0 || Representable(cfg.max)
    ensures Exponential(cfg, attempt) == Min(cfg.base * Pow2(attempt), cfg.max)
  {
    PositiveExactly(cfg, attempt);
    ProductValue(cfg.base, attempt);
    RepresentableExactly(cfg.base);
    RoundFinite(cfg.max);
    ProductMonotone(1, cfg.base, Pow2(attempt));
    if 0 < cfg.max {
      RepresentableExactly(cfg.max);
    }
    hide RoundNat, Pow2, Exponential, Product, Representable;
  }

  /** Delays of at most 53 bits. */
  predicate Exact(cfg: Config) {
    cfg.base <= SIGNIFICAND && -SIGNIFICAND <= cfg.max <= SIGNIFICAND
  }

  /** Positive bases of at most 53 bits under caps of at most 53 bits give the formula at every attempt. */
  lemma ExponentialExact(cfg: Config, attempt: nat)
    requires Exact(cfg) && 1 <= cfg.base
    ensures Durations(cfg) && Exponential(cfg, attempt) == Min(cfg.base * Pow2(attempt), cfg.max)
  {
    SmallRepresentable(cfg.base);
    if 0 < cfg.max {
      SmallRepresentable(cfg.max);
    }
    hide Representable;
    ExponentialDoubles(cfg, attempt);
  }

  lemma SmallRepresentable(x: nat)
    requires x <= SIGNIFICAND
    ensures Representable(x) && RoundNat(x) == x
  {
    assert Scaled(x, 0) == x;
    RoundFixes(x, 0);
  }

  lemma RoundsDown()
    ensures RoundNat(SIGNIFICAND + 1) == SIGNIFICAND
  {
    assert Ulp(SIGNIFICAND / 2) == 1;
    assert Ulp(SIGNIFICAND + 1) == 2;
  }

  /** One more than 53 bits breaks it, as a base and as a cap, and so does a negative base. */
  lemma ExponentialRounds()
    ensures Exponential(Config(-1, 10, false), 0) == 0 != Min(-1 * Pow2(0), 10)
    ensures Exponential(Config(9_007_199_254_740_993, 18_014_398_509_481_984, false), 0) == 9_007_199_254_740_992
    ensures Exponential(Config(9_007_199_254_740_992, 9_007_199_254_740_993, false), 0) == 9_007_199_254_740_993
  {
    assert Pow2(0) == 1 && Pow2(1) == 2;
    RoundsDown();
    SmallRepresentable(SIGNIFICAND);
    RoundFixes(SIGNIFICAND, 1);
    ProductValue(SIGNIFICAND + 1, 0);
    ProductValue(SIGNIFICAND, 0);
    RoundFinite(SIGNIFICAND + 1);
    RoundFinite(2 * SIGNIFICAND);
    hide RoundNat, Pow2, Overflow, Product, Round;
  }

  /** Arithmetic modulo 2^64 does not see where the first factor wrapped. */
  lemma WrapProduct(base: int, n: int)
    ensures Wrap64(base * Wrap64(n)) == Wrap64(base * n)
  {
    var m := 2 * LIMIT;
    var k := (n - Wrap64(n)) / m;
    assert n == Wrap64(n) + m * k;
    Distribute(base, Wrap64(n), m, k);
    WrapShift(base * Wrap64(n), base * k);
  }

  lemma Distribute(a: int, b: int, m: int, k: int)
    ensures a * (b + m * k) == a * b + m * (a * k)
  {
  }

  lemma WrapShift(x: int, k: int)
    ensures Wrap64(x + 2 * LIMIT * k) == Wrap64(x)
  {
    var m := 2 * LIMIT;
    QuotientUnique(x + m * k, m, x / m + k, x % m);
  }

  /**
    The linear delay is the documented min(base * (attempt + 1), max) if and only if the product
    fits int64, or neither it nor what it wraps to is below the cap.
   */
  lemma LinearExactly(cfg: Config, attempt: int)
    requires Durations(cfg)
    ensures var exact := cfg.base * (attempt + 1);
      Linear(cfg, attempt) == Min(exact, cfg.max) <==> Int64(exact) || (cfg.max <= exact && cfg.max <= Wrap64(exact))
  {
    WrapProduct(cfg.base, attempt + 1);
  }

  /** A configuration whose fourth delay wraps to zero. */
  lemma LinearWraps()
    ensures var cfg := Config(4_611_686_018_427_387_904, 9_223_372_036_854_775_807, false);
      Durations(cfg) && Linear(cfg, 0) == cfg.base && Linear(cfg, 3) == 0 != Min(cfg.base * 4, cfg.max)
  {
  }

  // ---------- The retry loop ----------

  /** What the task waits by: its strategy, or the fixed retry delay when it has none. */
  datatype Strategy = NoStrategy(delay: int) | ExponentialStrategy(cfg: Config) | LinearStrategy(cfg: Config)

  predicate Supported(s: Strategy) {
    s.ExponentialStrategy? ==> Durations(s.cfg)
  }

  /** An exponential backoff whose settings fit 53 bits. */
  predicate Backoff(s: Strategy) {
    s.ExponentialStrategy? && Exact(s.cfg) && 1 <= s.cfg.base && 1 <= s.cfg.max
  }

  /** After k failed runs of an exponential backoff, the total wait is at most min(k * max, base * (2^k - 1)). */
  predicate WithinBackoff(s: Strategy, k: nat, waited: int) {
    Backoff(s) ==> waited <= Min(k * s.cfg.max, s.cfg.base * (Pow2(k) - 1))
  }

  /** The delay after the given attempt failed. */
  function DelayAfter(s: Strategy, attempt: nat, draw: nat): int
    requires Supported(s)
  {
    match s
    case NoStrategy(delay) => delay
    case ExponentialStrategy(cfg) =>
      var d := Exponential(cfg, attempt);
      if cfg.jitter then ApplyJitter(d, draw) else d
    case LinearStrategy(cfg) =>
      var d := Linear(cfg, attempt);
      if cfg.jitter then ApplyJitter(d, draw) else d
  }

  /** How one run of the task went: Go refused it, it succeeded, or it failed. */
  datatype Trial = Refused | Succeeded | Failed

  /** How the wait after a failed run goes: to its end, or cut short by a done context after some time. */
  datatype Wait = Whole | CutAfter(elapsed: nat)

  datatype RetryOutcome = Done | MaxRetriesNotSet | MaxRetriesExceeded | GoError | Cancelled

  /** Time spent waiting after runs first, ..., next - 1 failed. */
  function Waited(s: Strategy, draws: nat -> nat, first: nat, next: nat): int
    requires Supported(s) && first <= next
    decreases next
  {
    if first == next then 0
    else
      var d := DelayAfter(s, next - 1, draws(next - 1));
      Waited(s, draws, first, next - 1) + if d > 0 then d else 0
  }

  lemma NothingWaited(s: Strategy, draws: nat -> nat, first: nat)
    requires Supported(s)
    ensures Waited(s, draws, first, first) == 0
  {
  }

  /** One more wait, whole or cut short. */
  lemma WaitedMore(s: Strategy, draws: nat -> nat, wait: Wait, first: nat, last: nat)
    requires Supported(s) && first <= last
    ensures var so, d := Waited(s, draws, first, last), DelayAfter(s, last, draws(last));
      && Waited(s, draws, first, last + 1) == so + (if d > 0 then d else 0)
      && (0 < d && wait.CutAfter? ==> so + Min(wait.elapsed, d) <= Waited(s, draws, first, last + 1))
  {
    hide DelayAfter;
  }

  class RetryTask {
    const maxRetries: int
    const strategy: Strategy
    var attempts: nat

    constructor (maxRetries: int, strategy: Strategy)
      requires Supported(strategy)
      ensures this.maxRetries == maxRetries && this.strategy == strategy && attempts == 0
    {
      this.maxRetries, this.strategy, attempts := maxRetries, strategy, 0;
    }

    /**
      Runs the task until it succeeds, is refused, is cancelled or has used up its attempts. The
      arguments say how run number n goes, what its jitter draw is, and how the wait after it goes.
     */
    method GoRetry(trials: nat -> Trial, draws: nat -> nat, waits: nat -> Wait)
      returns (outcome: RetryOutcome, runs: nat, waited: int)
      requires Supported(strategy)
      modifies this`attempts
      ensures maxRetries <= 0 <==> outcome == MaxRetriesNotSet
      ensures outcome == MaxRetriesNotSet ==> runs == 0 && waited == 0 && attempts == old(attempts)
      ensures runs <= if old(attempts) <= maxRetries then maxRetries - old(attempts) else 0
      ensures old(attempts) <= attempts && attempts == old(attempts) + (if outcome == Done then runs - 1 else runs)
      ensures forall n :: old(attempts) <= n < attempts ==> trials(n) == Failed
      ensures outcome == Done ==> 1 <= runs && trials(attempts) == Succeeded
      ensures outcome == GoError ==> trials(attempts) == Refused
      ensures outcome == MaxRetriesExceeded ==> attempts >= maxRetries
      ensures outcome == Cancelled ==>
        && 1 <= runs && waits(attempts - 1).CutAfter?
        && 0 < DelayAfter(strategy, attempts - 1, draws(attempts - 1))
        && waited == Waited(strategy, draws, old(attempts), attempts - 1)
                   + Min(waits(attempts - 1).elapsed, DelayAfter(strategy, attempts - 1, draws(attempts - 1)))
      ensures outcome != Cancelled ==> waited == Waited(strategy, draws, old(attempts), attempts)
      ensures old(attempts) == 0 && maxRetries > 0 ==> attempts <= maxRetries
      ensures old(attempts) == 0 ==> WithinBackoff(strategy, attempts, waited)
    {
      hide DelayAfter, WithinBackoff, Waited;
      runs, waited := 0, 0;
      BackoffBound(strategy, draws, 0);
      NothingWaited(strategy, draws, attempts);
      if maxRetries <= 0 {
        return MaxRetriesNotSet, runs, waited;
      }
      outcome := MaxRetriesExceeded;
      while attempts < maxRetries
        invariant old(attempts) <= attempts && runs == attempts - old(attempts)
        invariant (attempts <= maxRetries || runs == 0) && outcome == MaxRetriesExceeded
        invariant forall n :: old(attempts) <= n < attempts ==> trials(n) == Failed
        invariant waited == Waited(strategy, draws, old(attempts), attempts)
        decreases maxRetries - attempts
      {
        if trials(attempts) == Refused {
          outcome := GoError;
          break;
        }
        runs := runs + 1;
        if trials(attempts) == Succeeded {
          outcome := Done;
          break;
        }
        var attempt := attempts;
        attempts := attempts + 1;
        var d := DelayAfter(strategy, attempt, draws(attempt));
        WaitedMore(strategy, draws, waits(attempt), old(attempts), attempt);
        if d > 0 {
          if waits(attempt).CutAfter? {
            waited := waited + Min(waits(attempt).elapsed, d);
            outcome := Cancelled;
            break;
          }
          waited := waited + d;
        }
      }
      assert waited <= Waited(strategy, draws, old(attempts), attempts);
      BackoffBound(strategy, draws, attempts);
    }
  }

  lemma BackoffBound(s: Strategy, draws: nat -> nat, k: nat)
    requires Supported(s)
    ensures forall waited :: waited <= Waited(s, draws, 0, k) ==> WithinBackoff(s, k, waited)
  {
    hide Waited, DelayAfter;
    if Backoff(s) {
      TotalWaitBound(s.cfg, draws, k);
    }
  }

  /** One wait is at most the cap, and at most base * 2^attempt. */
  lemma WaitBound(cfg: Config, attempt: nat, draw: nat)
    requires Exact(cfg) && 1 <= cfg.base && 1 <= cfg.max
    ensures DelayAfter(ExponentialStrategy(cfg), attempt, draw) <= Min(cfg.base * Pow2(attempt), cfg.max)
    ensures 0 <= DelayAfter(ExponentialStrategy(cfg), attempt, draw)
  {
    ExponentialExact(cfg, attempt);
    hide Exponential;
    ProductMonotone(1, cfg.base, Pow2(attempt));
  }

  /** One more failed run, in both bounds. */
  lemma SumBound(waited: int, d: int, base: int, p: int, max: int, k: int)
    requires waited <= Min((k - 1) * max, base * (p - 1)) && d <= Min(base * p, max)
    ensures waited + d <= Min(k * max, base * (2 * p - 1))
  {
    OneMore(base, p, max, k);
  }

  lemma OneMore(base: int, p: int, max: int, k: int)
    ensures base * (2 * p - 1) == base * (p - 1) + base * p
    ensures k * max == (k - 1) * max + max
  {
  }

  lemma Twice(base: int, p: int)
    ensures base * (2 * p) == 2 * (base * p)
  {
  }

  /** A loop that starts at zero attempts and fails k times waits at most min(k * max, base * (2^k - 1)) in all. */
  lemma {:induction false} TotalWaitBound(cfg: Config, draws: nat -> nat, k: nat)
    requires Exact(cfg) && 1 <= cfg.base && 1 <= cfg.max
    ensures Waited(ExponentialStrategy(cfg), draws, 0, k) <= Min(k * cfg.max, cfg.base * (Pow2(k) - 1))
    decreases k
  {
    hide DelayAfter;
    if k > 0 {
      assert Pow2(k) == 2 * Pow2(k - 1);
      TotalWaitBound(cfg, draws, k - 1);
      WaitBound(cfg, k - 1, draws(k - 1));
      var d := DelayAfter(ExponentialStrategy(cfg), k - 1, draws(k - 1));
      hide Min, Pow2;
      SumBound(Waited(ExponentialStrategy(cfg), draws, 0, k - 1), d, cfg.base, Pow2(k - 1), cfg.max, k);
    }
  }

  /** A wait below the cap and without jitter is exactly base * 2^attempt. */
  lemma WaitExact(cfg: Config, attempt: nat, draw: nat)
    requires Exact(cfg) && 1 <= cfg.base && !cfg.jitter && cfg.base * Pow2(attempt) <= cfg.max
    ensures DelayAfter(ExponentialStrategy(cfg), attempt, draw) == cfg.base * Pow2(attempt) > 0
  {
    ExponentialExact(cfg, attempt);
    hide Exponential;
    ProductMonotone(1, cfg.base, Pow2(attempt));
  }

  /** Without jitter the bound by doubling is reached exactly until the cap cuts in. */
  lemma {:induction false} TotalWaitExact(cfg: Config, draws: nat -> nat, k: nat)
    requires Exact(cfg) && 1 <= cfg.base && !cfg.jitter
    requires k == 0 || cfg.base * Pow2(k - 1) <= cfg.max
    ensures Waited(ExponentialStrategy(cfg), draws, 0, k) == cfg.base * (Pow2(k) - 1)
    decreases k
  {
    hide DelayAfter;
    if k > 0 {
      assert Pow2(k) == 2 * Pow2(k - 1);
      WaitExact(cfg, k - 1, draws(k - 1));
      if k > 1 {
        Twice(cfg.base, Pow2(k - 2));
      }
      OneMore(cfg.base, Pow2(k - 1), cfg.max, k);
      hide Pow2;
      TotalWaitExact(cfg, draws, k - 1);
    }
  }

  // ---------- Linear and constant waits ----------

  lemma Triangle(base: int, k: nat)
    requires 1 <= k
    ensures base * k * (k + 1) == base * (k - 1) * k + 2 * (base * k)
  {
  }

  /** A linear wait whose product fits int64 is at most min(base * (attempt + 1), max), and just that without jitter. */
  lemma LinearWait(cfg: Config, attempt: nat, draw: nat)
    requires Durations(cfg) && 1 <= cfg.base && 1 <= cfg.max && Int64(cfg.base * (attempt + 1))
    ensures var d := DelayAfter(LinearStrategy(cfg), attempt, draw);
      && 0 <= d <= Min(cfg.base * (attempt + 1), cfg.max)
      && (!cfg.jitter ==> d == Min(cfg.base * (attempt + 1), cfg.max))
  {
    LinearExactly(cfg, attempt);
    ProductMonotone(1, attempt + 1, cfg.base);
    hide Linear;
  }

  /**
    A loop that starts at zero attempts and fails k times with linear backoff waits at most
    min(k * max, base * k * (k + 1) / 2) in all, as long as the products fit int64.
   */
  lemma {:induction false} LinearWaitBound(cfg: Config, draws: nat -> nat, k: nat)
    requires Durations(cfg) && 1 <= cfg.base && 1 <= cfg.max && Int64(cfg.base * k)
    ensures Waited(LinearStrategy(cfg), draws, 0, k) <= k * cfg.max
    ensures 2 * Waited(LinearStrategy(cfg), draws, 0, k) <= cfg.base * k * (k + 1)
    ensures !cfg.jitter && cfg.base * k <= cfg.max ==>
      2 * Waited(LinearStrategy(cfg), draws, 0, k) == cfg.base * k * (k + 1)
    decreases k
  {
    hide DelayAfter;
    if k > 0 {
      ProductMonotone(k - 1, k, cfg.base);
      ProductMonotone(0, k - 1, cfg.base);
      LinearWaitBound(cfg, draws, k - 1);
      LinearWait(cfg, k - 1, draws(k - 1));
      Triangle(cfg.base, k);
      OneMore(cfg.base, 1, cfg.max, k);
    }
  }

  /** Without a strategy every wait is the fixed delay, or none if that is not positive. */
  lemma {:induction false} ConstantWait(delay: int, draws: nat -> nat, k: nat)
    ensures Waited(NoStrategy(delay), draws, 0, k) == k * if delay > 0 then delay else 0
    decreases k
  {
    if k > 0 {
      ConstantWait(delay, draws, k - 1);
      OneMore(0, 0, if delay > 0 then delay else 0, k);
    }
  }

  /** The delays a strategy with jitter can take are exactly those from zero to the one it would have without. */
  lemma JitterExactly(cfg: Config, attempt: nat, d: int)
    requires Durations(cfg)
    ensures var e, l := Exponential(cfg, attempt), Linear(cfg, attempt);
      && ((exists draw :: DelayAfter(ExponentialStrategy(cfg), attempt, draw) == d) <==>
            if !cfg.jitter then d == e else d == 0 || 0 <= d <= e)
      && ((exists draw :: DelayAfter(LinearStrategy(cfg), attempt, draw) == d) <==>
            if !cfg.jitter then d == l else d == 0 || 0 <= d <= l)
  {
    hide Exponential, Linear;
    var draw: nat := if d < 0 then 0 else d;
    var one := DelayAfter(ExponentialStrategy(cfg), attempt, draw);
    var two := DelayAfter(LinearStrategy(cfg), attempt, draw);
    if 0 <= d <= Exponential(cfg, attempt) {
      SmallRemainder(d, Exponential(cfg, attempt) + 1);
    }
    if 0 <= d <= Linear(cfg, attempt) {
      SmallRemainder(d, Linear(cfg, attempt) + 1);
    }
  }

  lemma SmallRemainder(d: nat, n: nat)
    requires d < n
    ensures d % n == d
  {
  }
}
