// A counter that steps up by one only while it is below a cap.

module Capped {

  /**
   * A counter after `n` steps that each add one only while it is below `cap`:
   * the user's health under health pickups, and the kill counter.
   */
  function CappedIncrements(value: int, cap: int, n: nat): int {
    if n == 0 then value
    else
      var v := CappedIncrements(value, cap, n - 1);
      if v < cap then v + 1 else v
  }

  /**
   * Each step adds one until the cap is reached and never goes past it; a
   * value already at or above the cap is left alone.
   */
  lemma {:induction false} CappedIncrementsClosedForm(value: int, cap: int, n: nat)
    ensures CappedIncrements(value, cap, n) ==
      if value >= cap then value
      else if value + n <= cap then value + n
      else cap
  {
    if n > 0 {
      CappedIncrementsClosedForm(value, cap, n - 1);
    }
  }

  /** Starting at or below the cap, the steps never take the value above it. */
  lemma CappedIncrementsStayBelowCap(value: int, cap: int, n: nat)
    requires value <= cap
    ensures value <= CappedIncrements(value, cap, n) <= cap
  {
    CappedIncrementsClosedForm(value, cap, n);
  }
}
