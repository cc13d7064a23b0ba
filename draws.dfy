/** Each `Math.random()` call of the sources becomes a parameter drawn from [0, 1). */
module Draws {

  predicate IsDraw(r: real)
  {
    0.0 <= r < 1.0
  }
}
