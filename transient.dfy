// Lifetimes and random placement of the short-lived pickups
// (TransientActiveActorDestructible, HealthPoint, FireDeactivator).

module Transient {

  /** `System.currentTimeMillis() / 1000` for a non-negative clock reading. */
  function SecondsOf(millis: nat): int {
    millis / 1000
  }

  /**
   * `isExpired(now)`: strictly more than `lingerSecond` seconds have passed
   * since `createdSecond`.
   */
  predicate Expired(createdSecond: int, lingerSecond: int, nowSecond: int) {
    nowSecond - createdSecond > lingerSecond
  }

  /** Once expired, an actor stays expired at every later second. */
  lemma ExpiryIsMonotone(createdSecond: int, lingerSecond: int, t: int, later: int)
    requires t <= later && Expired(createdSecond, lingerSecond, t)
    ensures Expired(createdSecond, lingerSecond, later)
  {
  }

  /** With a non-negative linger time, an actor is not expired at its creation second. */
  lemma NotExpiredWhenCreated(createdSecond: int, lingerSecond: int)
    requires lingerSecond >= 0
    ensures !Expired(createdSecond, lingerSecond, createdSecond)
  {
  }

  /**
   * `getRandomPosition(lower, upper)` for the draw `Random.nextDouble()`:
   * the point at fraction `draw` of the way from `lower` to `upper`.
   */
  function RandomPosition(lower: real, upper: real, draw: real): real {
    lower + draw * (upper - lower)
  }

  /**
   * For a draw in [0, 1) the position lies between the two bounds, may equal
   * `lower` and never reaches `upper` (when the bounds differ).
   */
  lemma RandomPositionBetween(lower: real, upper: real, draw: real)
    requires 0.0 <= draw < 1.0
    ensures lower <= upper ==> lower <= RandomPosition(lower, upper, draw) <= upper
    ensures lower < upper ==> RandomPosition(lower, upper, draw) < upper
    ensures upper <= lower ==> upper <= RandomPosition(lower, upper, draw) <= lower
    ensures upper < lower ==> upper < RandomPosition(lower, upper, draw)
  {
    var d := upper - lower;
    var rest := 1.0 - draw;
    assert d - draw * d == rest * d;
    if d >= 0.0 {
      ProductSign(draw, d);
      ProductSign(rest, d);
    } else {
      ProductSign(draw, -d);
      ProductSign(rest, -d);
    }
  }

  lemma ProductSign(a: real, b: real)
    requires a >= 0.0 && b >= 0.0
    ensures a * b >= 0.0
    ensures a > 0.0 && b > 0.0 ==> a * b > 0.0
  {
  }
}
