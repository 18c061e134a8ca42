// Scores and the one order every ranking in the swarm rests on.

module Health {

  /** A health cost. NaN and the two infinities are one class: `Unavailable`. */
  datatype Score = Unavailable | Measured(value: real)

  predicate IsValidScore(s: Score) {
    s.Measured?
  }

  /** Lower is better; a measured score beats an unavailable one. */
  predicate Better(a: Score, b: Score) {
    if !IsValidScore(a) then false
    else if !IsValidScore(b) then true
    else a.value < b.value
  }

  /** The floating-point test `a - b >= margin`, which NaN makes false. */
  predicate GapAtLeast(a: Score, b: Score, margin: real) {
    a.Measured? && b.Measured? && a.value - b.value >= margin
  }

  /** `Better` is a strict weak order, so "neither is better" is an equivalence and ranking by it is well defined. */
  lemma BetterIsStrictWeakOrder(a: Score, b: Score, c: Score)
    ensures !Better(a, a)
    ensures Better(a, b) ==> !Better(b, a)
    ensures Better(a, b) ==> Better(a, c) || Better(c, b)
    ensures !Better(a, b) && !Better(b, a) <==> a == b
  {
  }
}
