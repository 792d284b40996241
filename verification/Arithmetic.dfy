/** Facts about products that the solver is better told than asked to find. */
module Arithmetic {

  lemma ProductMonotone(a: int, b: int, u: int)
    requires a <= b && 0 <= u
    ensures a * u <= b * u
  {
  }

  lemma Regroup(a: int, b: int, u: int)
    ensures a * (b * u) == (a * b) * u == b * (a * u)
  {
  }
}
