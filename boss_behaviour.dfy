// The Boss's move pattern, its shuffling, its move counters and its shield,
// as values and step functions.

module BossBehaviour {
  import opened Draws

  const BossHealth := 100
  const VerticalVelocity := 8
  const MoveFrequencyPerCycle := 5
  const MaxFramesWithSameMove := 10
  const MaxFramesWithShield := 50
  const PatternSize := 15
  const FireRate: real := 0.05
  const ShieldProbability: real := 0.1

  /** The list built by `k` rounds of the loop in `initializeMovePattern`. */
  function Cycles(k: nat): seq<int> {
    if k == 0 then [] else Cycles(k - 1) + [VerticalVelocity, -VerticalVelocity, 0]
  }

  /** `k` rounds give 3k moves: k climbs (+8), k dives (-8) and k holds (0). */
  lemma {:induction false} CyclesCounts(k: nat)
    ensures |Cycles(k)| == 3 * k
    ensures multiset(Cycles(k))[VerticalVelocity] == k
    ensures multiset(Cycles(k))[-VerticalVelocity] == k
    ensures multiset(Cycles(k))[0] == k
    ensures forall m :: m in Cycles(k) ==> m in {VerticalVelocity, -VerticalVelocity, 0}
  {
    if k > 0 {
      CyclesCounts(k - 1);
    }
  }

  /**
   * Draws for one `Collections.shuffle` of a list of `n` elements:
   * `draws[i - 1]` is the value `Random.nextInt(i)` returned, so it is below i.
   */
  predicate ShuffleDraws(draws: seq<nat>, n: nat) {
    |draws| == n && forall i :: 0 <= i < n ==> draws[i] <= i
  }

  function Swap(s: seq<int>, i: nat, j: nat): seq<int>
    requires i < |s| && j < |s|
  {
    s[i := s[j]][j := s[i]]
  }

  /** The swaps of `Collections.shuffle` for the positions i - 1 down to 1. */
  function ShuffleDown(s: seq<int>, i: nat, draws: seq<nat>): seq<int>
    requires i <= |s| && ShuffleDraws(draws, |s|)
    decreases i
  {
    if i <= 1 then s else ShuffleDown(Swap(s, i - 1, draws[i - 1]), i - 1, draws)
  }

  /** `Collections.shuffle(s)` driven by the given draws (Fisher-Yates). */
  function Shuffle(s: seq<int>, draws: seq<nat>): seq<int>
    requires ShuffleDraws(draws, |s|)
  {
    ShuffleDown(s, |s|, draws)
  }

  lemma {:induction false} ShuffleDownPermutes(s: seq<int>, i: nat, draws: seq<nat>)
    requires i <= |s| && ShuffleDraws(draws, |s|)
    ensures |ShuffleDown(s, i, draws)| == |s|
    ensures multiset(ShuffleDown(s, i, draws)) == multiset(s)
    decreases i
  {
    if i > 1 {
      var t := Swap(s, i - 1, draws[i - 1]);
      assert multiset(t) == multiset(s);
      ShuffleDownPermutes(t, i - 1, draws);
    }
  }

  /** Shuffling keeps the length and the multiset of moves. */
  lemma ShufflePermutes(s: seq<int>, draws: seq<nat>)
    requires ShuffleDraws(draws, |s|)
    ensures |Shuffle(s, draws)| == |s|
    ensures multiset(Shuffle(s, draws)) == multiset(s)
  {
    ShuffleDownPermutes(s, |s|, draws);
  }

  /** A pattern of 15 moves holding 5 copies each of +8, -8 and 0, in any order. */
  ghost predicate BalancedPattern(p: seq<int>) {
    |p| == PatternSize &&
    multiset(p)[VerticalVelocity] == MoveFrequencyPerCycle &&
    multiset(p)[-VerticalVelocity] == MoveFrequencyPerCycle &&
    multiset(p)[0] == MoveFrequencyPerCycle
  }

  /** The three moves and any fourth value together occur at most |p| times. */
  lemma {:induction false} MoveCountsBound(p: seq<int>, v: int)
    requires v != VerticalVelocity && v != -VerticalVelocity && v != 0
    ensures multiset(p)[VerticalVelocity] + multiset(p)[-VerticalVelocity] + multiset(p)[0] + multiset(p)[v] <= |p|
  {
    if |p| > 0 {
      MoveCountsBound(p[1..], v);
      assert p == [p[0]] + p[1..];
    }
  }

  /** A shuffled balanced pattern is balanced again. */
  lemma ShuffleKeepsBalance(p: seq<int>, draws: seq<nat>)
    requires BalancedPattern(p) && ShuffleDraws(draws, |p|)
    ensures BalancedPattern(Shuffle(p, draws))
  {
    ShufflePermutes(p, draws);
  }

  /** The pattern `initializeMovePattern` leaves behind is balanced, whatever the shuffle. */
  lemma InitialPatternBalanced(draws: seq<nat>)
    requires ShuffleDraws(draws, PatternSize)
    ensures BalancedPattern(Shuffle(Cycles(MoveFrequencyPerCycle), draws))
  {
    CyclesCounts(MoveFrequencyPerCycle);
    ShuffleKeepsBalance(Cycles(MoveFrequencyPerCycle), draws);
  }

  /** Every move of a balanced pattern is +8, -8 or 0. */
  lemma BalancedPatternMoves(p: seq<int>, i: int)
    requires BalancedPattern(p) && 0 <= i < |p|
    ensures p[i] in {VerticalVelocity, -VerticalVelocity, 0}
  {
    if p[i] != VerticalVelocity && p[i] != -VerticalVelocity && p[i] != 0 {
      assert p[i] in multiset(p);
      MoveCountsBound(p, p[i]);
      assert false;
    }
  }

  /** `indexOfCurrentMove` and `consecutiveMovesInSameDirection`. */
  datatype MoveCounters = MoveCounters(index: int, run: int)

  predicate CountersValid(c: MoveCounters, size: int) {
    0 <= c.index < size && 0 <= c.run < MaxFramesWithSameMove
  }

  /** The counter updates of `getNextMove` on a pattern of `size` moves. */
  function NextCounters(c: MoveCounters, size: int): MoveCounters {
    var run := c.run + 1;
    var advanced := if run == MaxFramesWithSameMove then MoveCounters(c.index + 1, 0) else MoveCounters(c.index, run);
    if advanced.index == size then advanced.(index := 0) else advanced
  }

  /**
   * The index stays in [0, size) and the run counter in [0, 10); the index
   * advances by one, wrapping, exactly on the call that brings the counter to 10.
   */
  lemma NextCountersSpec(c: MoveCounters, size: int)
    requires CountersValid(c, size)
    ensures CountersValid(NextCounters(c, size), size)
    ensures c.run + 1 == MaxFramesWithSameMove ==> NextCounters(c, size) == MoveCounters((c.index + 1) % size, 0)
    ensures c.run + 1 < MaxFramesWithSameMove ==> NextCounters(c, size) == MoveCounters(c.index, c.run + 1)
  {
    if c.index + 1 < size {
      assert (c.index + 1) % size == c.index + 1;
    }
  }

  /** The counters after `n` calls of `getNextMove`. */
  function CountersAfter(c: MoveCounters, size: int, n: nat): MoveCounters {
    if n == 0 then c else NextCounters(CountersAfter(c, size, n - 1), size)
  }

  lemma {:induction false} CountersAfterSplit(c: MoveCounters, size: int, n: nat, m: nat)
    ensures CountersAfter(c, size, n + m) == CountersAfter(CountersAfter(c, size, n), size, m)
  {
    if m > 0 {
      CountersAfterSplit(c, size, n, m - 1);
    }
  }

  lemma {:induction false} RunOfOneSlot(index: int, size: int, j: nat)
    requires 0 <= index < size && j < MaxFramesWithSameMove
    ensures CountersAfter(MoveCounters(index, 0), size, j) == MoveCounters(index, j)
  {
    if j > 0 {
      RunOfOneSlot(index, size, j - 1);
    }
  }

  /** A fresh run on slot `index` lasts 10 moves and ends with a fresh run on the next slot. */
  lemma OneSlotRun(index: int)
    requires 0 <= index < PatternSize
    ensures CountersAfter(MoveCounters(index, 0), PatternSize, MaxFramesWithSameMove)
         == MoveCounters((index + 1) % PatternSize, 0)
  {
    RunOfOneSlot(index, PatternSize, MaxFramesWithSameMove - 1);
    NextCountersSpec(MoveCounters(index, MaxFramesWithSameMove - 1), PatternSize);
  }

  /**
   * Starting a fresh run on slot `index` of the 15-move pattern, every slot is
   * played for exactly 10 frames: after 10k moves the index has advanced by k,
   * modulo 15, and a new run starts.
   */
  lemma {:induction false} EachSlotHeldTenFrames(index: int, k: nat)
    requires 0 <= index < PatternSize
    ensures CountersAfter(MoveCounters(index, 0), PatternSize, MaxFramesWithSameMove * k)
         == MoveCounters((index + k) % PatternSize, 0)
  {
    if k > 0 {
      var start := MoveCounters(index, 0);
      var before := MaxFramesWithSameMove * (k - 1);
      EachSlotHeldTenFrames(index, k - 1);
      assert MaxFramesWithSameMove * k == before + MaxFramesWithSameMove;
      CountersAfterSplit(start, PatternSize, before, MaxFramesWithSameMove);
      OneSlotRun((index + k - 1) % PatternSize);
      SuccessorModulo(index + k - 1);
    }
  }

  /** Stepping past the last slot wraps to the first. */
  lemma SuccessorModulo(a: nat)
    ensures (a % PatternSize + 1) % PatternSize == (a + 1) % PatternSize
  {
    var q := a / PatternSize;
    assert a == PatternSize * q + a % PatternSize;
    if a % PatternSize + 1 == PatternSize {
      assert a + 1 == PatternSize * (q + 1);
    } else {
      assert a + 1 == PatternSize * q + (a % PatternSize + 1);
    }
  }

  /** `isShielded` and `framesWithShieldActivated`. */
  datatype Shield = Shield(up: bool, frames: int)

  /** The frame counter is in [0, 50) and is 0 whenever the shield is down. */
  predicate ShieldValid(s: Shield) {
    0 <= s.frames < MaxFramesWithShield && (!s.up ==> s.frames == 0)
  }

  /** `(1 - health / 100) * 0.1`, the per-update chance of raising the shield. */
  function ShieldActivationProbability(health: int): real {
    (1.0 - health as real / BossHealth as real) * ShieldProbability
  }

  /** `shieldShouldBeActivated` for the random draw `draw`. */
  predicate ShieldShouldBeActivated(health: int, draw: Draw) {
    draw < ShieldActivationProbability(health)
  }

  /** `bossFiresInCurrentFrame` for the random draw `draw`. */
  predicate FiresInCurrentFrame(draw: Draw) {
    draw < FireRate
  }

  /** `updateShield`, with `activate` the outcome of `shieldShouldBeActivated`. */
  function ShieldStep(s: Shield, activate: bool): Shield {
    var counted := if s.up then s.(frames := s.frames + 1) else if activate then s.(up := true) else s;
    if counted.frames == MaxFramesWithShield then Shield(false, 0) else counted
  }

  /** `updateShield` keeps the shield counters valid. */
  lemma ShieldStepValid(s: Shield, activate: bool)
    requires ShieldValid(s)
    ensures ShieldValid(ShieldStep(s, activate))
  {
  }

  /** The shield state after one `updateShield` per element of `activations`. */
  function ShieldAfter(s: Shield, activations: seq<bool>): Shield {
    if activations == [] then s
    else ShieldStep(ShieldAfter(s, activations[..|activations| - 1]), activations[|activations| - 1])
  }

  /**
   * A shield that has just gone up stays up for exactly 50 further updates,
   * whatever the draws: the 50th update lowers it and resets the counter.
   */
  lemma {:induction false} RaisedShieldLastsFifty(activations: seq<bool>)
    requires |activations| <= MaxFramesWithShield
    ensures ShieldAfter(Shield(true, 0), activations) ==
      if |activations| < MaxFramesWithShield then Shield(true, |activations|) else Shield(false, 0)
  {
    if activations != [] {
      RaisedShieldLastsFifty(activations[..|activations| - 1]);
    }
  }

  /** At full health the activation probability is 0, so no draw in [0, 1) raises the shield. */
  lemma FullHealthNeverShields(draw: Draw)
    ensures ShieldActivationProbability(BossHealth) == 0.0
    ensures !ShieldShouldBeActivated(BossHealth, draw)
  {
  }
}
