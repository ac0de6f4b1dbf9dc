/**
 * Accumulated costs and queue priorities. The source keeps them as JavaScript
 * numbers, seeded with `Infinity` for nodes not yet reached; here a cost is
 * either a finite real or `Inf`, and the comparisons and sums follow the
 * IEEE rules the source relies on: `x < Infinity` for finite `x`,
 * `Infinity < y` never, and `Infinity + w == Infinity`.
 */
module Costs {

  datatype Cost = Fin(value: real) | Inf

  /** JavaScript's `a < b` on the two costs. */
  predicate Less(a: Cost, b: Cost) {
    match a
    case Inf => false
    case Fin(x) => b.Inf? || x < b.value
  }

  /** `!(b < a)`: `a` comes no later than `b` in priority order. */
  predicate AtMost(a: Cost, b: Cost) {
    !Less(b, a)
  }

  /** JavaScript's `c + w` for a finite weight `w`. */
  function Add(c: Cost, w: real): (r: Cost)
    ensures r.Inf? <==> c.Inf?
    ensures w >= 0.0 ==> AtMost(c, r)
  {
    match c
    case Inf => Inf
    case Fin(x) => Fin(x + w)
  }

  /** A cost the engine can hold: `Infinity` or a finite value that is not negative. */
  predicate NonNegative(c: Cost) {
    c.Fin? ==> c.value >= 0.0
  }
}
