/** Integers as doubles: rounding to 53 significant bits, nearest with ties to even, and overflow. */
module Float64 {
  import opened Arithmetic

  function Pow2(n: nat): (p: int)
    ensures 1 <= p
  {
    if n == 0 then 1 else 2 * Pow2(n - 1)
  }

  lemma {:induction false} Pow2Monotone(m: nat, n: nat)
    requires m <= n
    ensures Pow2(m) <= Pow2(n)
    decreases n
  {
    if m < n {
      Pow2Monotone(m, n - 1);
    }
  }

  lemma {:induction false} Pow2Add(m: nat, n: nat)
    ensures Pow2(m + n) == Pow2(m) * Pow2(n)
    decreases n
  {
    if n > 0 {
      Pow2Add(m, n - 1);
      assert Pow2(m) * (2 * Pow2(n - 1)) == 2 * (Pow2(m) * Pow2(n - 1));
    }
  }

  lemma Pow2Sixfold(n: nat)
    ensures Pow2(n + 6) == 64 * Pow2(n)
  {
    assert Pow2(n + 2) == 4 * Pow2(n);
    assert Pow2(n + 4) == 4 * Pow2(n + 2);
    assert Pow2(n + 6) == 4 * Pow2(n + 4);
  }

  /** 2^53: significands are at most this. */
  const SIGNIFICAND := 0x20_0000_0000_0000

  lemma Pow2At66()
    ensures Pow2(66) == 0x4_0000_0000_0000_0000
  {
    for i := 0 to 11
      invariant Pow2(6 * i) == [1, 0x40, 0x1000, 0x4_0000, 0x100_0000, 0x4000_0000, 0x10_0000_0000, 0x400_0000_0000,
                                0x1_0000_0000_0000, 0x40_0000_0000_0000, 0x1000_0000_0000_0000,
                                0x4_0000_0000_0000_0000][i]
    {
      Pow2Sixfold(6 * i);
      assert 6 * i + 6 == 6 * (i + 1);
    }
  }

  /** The first power of two beyond the doubles. */
  function Overflow(): (limit: int)
    ensures 0x4_0000_0000_0000_0000 <= limit
  {
    Pow2At66();
    Pow2Monotone(66, 1024);
    Pow2(1024)
  }

  /** The distance between neighbouring doubles at x, a power of two. */
  function Ulp(x: nat): (u: int)
    ensures 1 <= u && x < SIGNIFICAND * u
    ensures u == 1 || SIGNIFICAND / 2 * u <= x
  {
    if x < SIGNIFICAND then 1 else 2 * Ulp(x / 2)
  }

  /** Round to nearest, ties to even. */
  function RoundNat(x: nat): int {
    var u := Ulp(x);
    var q, r := x / u, x % u;
    if 2 * r < u || (2 * r == u && q % 2 == 0) then q * u else (q + 1) * u
  }

  /** The int64 values are at least -LIMIT and below LIMIT. */
  const LIMIT := 0x8000_0000_0000_0000

  datatype Double = Finite(value: int) | Infinite

  /** Conversion to a double; negative arguments are int64 values. */
  function Round(x: int): Double
    requires -LIMIT <= x
  {
    if x < 0 then Finite(-RoundNat(-x))
    else if RoundNat(x) < Overflow() then Finite(RoundNat(x))
    else Infinite
  }

  /** The product of non-negative doubles, the first one finite and positive. */
  function Times(a: Double, b: Double): Double
    requires a.Finite? && a.value > 0 && (b.Finite? ==> b.value >= 0)
  {
    if b.Infinite? then Infinite else Round(a.value * b.value)
  }

  predicate Less(a: Double, b: Double) {
    a.Finite? && (b.Infinite? || a.value < b.value)
  }

  // ---------- Doubles are what rounding leaves alone ----------

  function Scaled(significand: nat, exponent: nat): nat {
    significand * Pow2(exponent)
  }

  /** A significand of at most 53 bits times a power of two. */
  ghost predicate Representable(x: nat) {
    exists m: nat, k: nat :: m <= SIGNIFICAND && x == Scaled(m, k)
  }

  lemma UlpDouble(y: nat)
    requires SIGNIFICAND <= 2 * y
    ensures Ulp(2 * y) == 2 * Ulp(y)
  {
    assert 2 * y / 2 == y;
  }

  /** x is so many steps of its own grid. */
  lemma {:induction false} OnGrid(m: nat, n: nat) returns (c: nat)
    requires m <= SIGNIFICAND
    ensures m * Pow2(n) == c * Ulp(m * Pow2(n))
  {
    if n == 0 {
      c := if m < SIGNIFICAND then m else SIGNIFICAND / 2;
    } else {
      var y := m * Pow2(n - 1);
      Regroup(2, m, Pow2(n - 1));
      assert m * Pow2(n) == 2 * y;
      c := OnGrid(m, n - 1);
      if 2 * y < SIGNIFICAND {
        c := 2 * y;
      } else {
        UlpDouble(y);
        Regroup(2, c, Ulp(y));
      }
    }
  }

  lemma RoundOnGrid(x: nat, c: nat)
    requires x == c * Ulp(x)
    ensures RoundNat(x) == x
  {
    DivideExactly(c, Ulp(x));
  }

  lemma DivideExactly(c: nat, u: int)
    requires 1 <= u
    ensures (c * u) / u == c && (c * u) % u == 0
  {
    assert c * u == u * c + 0;
    QuotientUnique(c * u, u, c, 0);
  }

  lemma QuotientUnique(x: int, u: int, q: int, r: int)
    requires 1 <= u && x == u * q + r && 0 <= r < u
    ensures x / u == q && x % u == r
  {
    var d := x / u - q;
    assert u * d == r - x % u;
    if d >= 1 {
      ProductMonotone(1, d, u);
    } else if d <= -1 {
      ProductMonotone(d, -1, u);
    }
  }

  /** Every significand of at most 53 bits times a power of two is a fixed point of rounding. */
  lemma RoundFixes(m: nat, n: nat)
    requires m <= SIGNIFICAND
    ensures RoundNat(m * Pow2(n)) == m * Pow2(n)
  {
    var c := OnGrid(m, n);
    RoundOnGrid(m * Pow2(n), c);
  }

  lemma {:induction false} UlpIsPower(x: nat) returns (k: nat)
    ensures Ulp(x) == Pow2(k)
  {
    if x < SIGNIFICAND {
      k := 0;
    } else {
      k := UlpIsPower(x / 2);
      k := k + 1;
    }
  }

  /** Rounding yields a double. */
  lemma RoundRepresentable(x: nat) returns (m: nat, k: nat)
    ensures m <= SIGNIFICAND && RoundNat(x) == m * Pow2(k)
  {
    var u := Ulp(x);
    k := UlpIsPower(x);
    QuotientBelow(x, u, SIGNIFICAND);
    hide Ulp, Pow2;
    m := if RoundNat(x) == x / u * u then x / u else x / u + 1;
  }

  lemma QuotientBelow(x: nat, u: int, bound: int)
    requires 1 <= u && x < bound * u
    ensures 0 <= x / u < bound
  {
    assert x == u * (x / u) + x % u;
    if x / u >= bound {
      ProductMonotone(bound, x / u, u);
    }
  }

  /** A number is a double if and only if rounding leaves it alone. */
  lemma RepresentableExactly(x: nat)
    ensures Representable(x) <==> RoundNat(x) == x
  {
    if m: nat, k: nat :| m <= SIGNIFICAND && x == Scaled(m, k) {
      RoundFixes(m, k);
    }
    var m, k := RoundRepresentable(x);
    assert RoundNat(x) == Scaled(m, k);
  }

  // ---------- Nearest ----------

  /** The grid is no finer above the smallest number with the same step. */
  lemma {:induction false} UlpCoarser(x: nat, y: nat) returns (c: nat)
    requires y <= x || SIGNIFICAND / 2 * Ulp(y) <= x
    ensures Ulp(x) == c * Ulp(y)
    decreases y
  {
    if y < SIGNIFICAND {
      c := Ulp(x);
    } else if Ulp(y / 2) == 1 {
      c := Ulp(x / 2);
    } else {
      c := UlpCoarser(x / 2, y / 2);
      Regroup(2, c, Ulp(y / 2));
    }
  }

  /** A double at or above y is at or above the next grid point. */
  lemma AboveStep(x: nat, y: nat)
    requires RoundNat(x) == x && y <= x
    ensures y % Ulp(y) == 0 || (y / Ulp(y) + 1) * Ulp(y) <= x
    ensures y / Ulp(y) * Ulp(y) <= x
  {
    var u := Ulp(y);
    var c := UlpCoarser(x, y);
    var d := x / Ulp(x);
    RoundedOnGrid(x);
    hide Ulp;
    Regroup(d, c, u);
    NextStep(d * c, y, u);
  }

  /** A double at or above y is at or above y's rounding. */
  lemma AboveRounding(x: nat, y: nat)
    requires RoundNat(x) == x && y <= x
    ensures RoundNat(y) <= x
  {
    AboveStep(x, y);
    hide Ulp;
  }

  /** A number that rounding leaves alone is a whole number of steps. */
  lemma RoundedOnGrid(x: nat)
    requires RoundNat(x) == x
    ensures x == x / Ulp(x) * Ulp(x)
  {
    var m, k := RoundRepresentable(x);
    var c := OnGrid(m, k);
    DivideExactly(c, Ulp(x));
  }

  lemma NextStep(n: int, y: nat, u: int)
    requires 1 <= u && y <= n * u
    ensures y % u == 0 || (y / u + 1) * u <= n * u
    ensures y / u * u <= n * u
  {
    assert y == u * (y / u) + y % u;
    if n < y / u {
      ProductMonotone(n + 1, y / u, u);
    } else if n > y / u {
      ProductMonotone(y / u + 1, n, u);
    }
  }

  /** A double at or below y is at or below the grid point under y. */
  lemma BelowRounding(x: nat, y: nat)
    requires RoundNat(x) == x && x <= y
    ensures x <= y / Ulp(y) * Ulp(y)
  {
    var u := Ulp(y);
    if u == 1 {
    } else if x < SIGNIFICAND / 2 * u {
      PreviousStep(SIGNIFICAND / 2, y, u);
    } else {
      var c := UlpCoarser(x, y);
      var d := x / Ulp(x);
      RoundedOnGrid(x);
      hide Ulp;
      Regroup(d, c, u);
      PreviousStep(d * c, y, u);
    }
  }

  lemma PreviousStep(n: int, y: nat, u: int)
    requires 1 <= u && n * u <= y
    ensures n * u <= y / u * u
  {
    assert y == u * (y / u) + y % u;
    if n > y / u {
      ProductMonotone(y / u + 1, n, u);
    } else {
      ProductMonotone(n, y / u, u);
    }
  }

  function Distance(x: int, y: int): int {
    if x < y then y - x else x - y
  }

  /** The grid point at or below y. */
  function Lower(y: nat): int {
    y / Ulp(y) * Ulp(y)
  }

  lemma RoundSides(y: nat)
    ensures var lo, u, r := Lower(y), Ulp(y), y % Ulp(y);
      && y == lo + r && 0 <= r < u
      && ((RoundNat(y) == lo && 2 * r <= u) || (RoundNat(y) == lo + u && u <= 2 * r))
  {
    SplitUp(y, Ulp(y));
  }

  lemma SplitUp(y: nat, u: int)
    requires 1 <= u
    ensures y == y / u * u + y % u && (y / u + 1) * u == y / u * u + u
  {
  }

  lemma DoubleSides(x: nat, y: nat)
    requires RoundNat(x) == x
    ensures x <= Lower(y) || Lower(y) + Ulp(y) <= x || (y % Ulp(y) == 0 && Lower(y) <= x)
  {
    SplitUp(y, Ulp(y));
    if x <= y {
      BelowRounding(x, y);
    } else {
      AboveStep(x, y);
    }
  }

  lemma NearerSide(lo: int, u: int, r: int, x: int, rounded: int)
    requires 0 <= r < u && (x <= lo || lo + u <= x || (r == 0 && lo <= x))
    requires (rounded == lo && 2 * r <= u) || (rounded == lo + u && u <= 2 * r)
    ensures Distance(rounded, lo + r) <= Distance(x, lo + r)
  {
  }

  /** Rounding goes to a nearest double. */
  lemma RoundIsNearest(x: nat, y: nat)
    requires Representable(x)
    ensures Distance(RoundNat(y), y) <= Distance(x, y)
  {
    RepresentableExactly(x);
    RoundSides(y);
    DoubleSides(x, y);
    hide Ulp, RoundNat, Lower, Representable;
    NearerSide(Lower(y), Ulp(y), y % Ulp(y), x, RoundNat(y));
  }
}
