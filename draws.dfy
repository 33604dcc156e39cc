// The random numbers the game draws.

module Draws {
  /** A value of `Math.random()` or `Random.nextDouble()`: a real in [0, 1). */
  type Draw = r: real | 0.0 <= r < 1.0
}
