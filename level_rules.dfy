// The decisions and per-level constants of LevelParent and its four
// subclasses LevelOne, LevelTwo, LevelThree and LevelBoss, as values.

module LevelRules {
  import opened Actors
  import Levels
  import opened Draws

  /** The concrete subclass of LevelParent. */
  datatype LevelKind = LevelOne | LevelTwo | LevelThree | LevelBoss

  /** Position of the level's class in LevelSelector's LEVELS. */
  function LevelIndex(k: LevelKind): (i: nat)
    ensures i < |Levels.LevelNames| && (i == |Levels.LevelNames| - 1 <==> k.LevelBoss?)
  {
    match k
    case LevelOne => 0
    case LevelTwo => 1
    case LevelThree => 2
    case LevelBoss => 3
  }

  /** `getClass().getName()` of the level. */
  function ClassName(k: LevelKind): (name: string)
    ensures name in Levels.LevelNames && Levels.IndexOf(Levels.LevelNames, name) == LevelIndex(k)
  {
    Levels.IndexOfLevelName(LevelIndex(k));
    Levels.LevelNames[LevelIndex(k)]
  }

  // Constants shared by all four levels.
  const PlayerInitialHealth := 5
  const EnemySpawnProbability: real := 0.2
  const HpSpawnProbability: real := 0.01
  const HpLingerSec := 5
  const BackgroundScrollSpeed: real := 2.0
  const ScreenHeightAdjustment: real := 150.0

  /**
   * TOTAL_ENEMIES of LevelOne, LevelTwo and LevelThree; LevelBoss has no
   * such constant but never holds more than its one boss.
   */
  function TotalEnemies(k: LevelKind): int {
    match k
    case LevelOne => 5
    case LevelTwo => 4
    case LevelThree => 3
    case LevelBoss => 1
  }

  /** KILLS_TO_ADVANCE; LevelBoss is won by destroying the boss instead. */
  function KillsToAdvance(k: LevelKind): int
    requires !k.LevelBoss?
  {
    match k
    case LevelOne => 50
    case LevelTwo => 50
    case LevelThree => 20
  }

  /** LevelNotification.Action */
  datatype Action = NextLevel | WinGame | LoseGame

  /** The record a level hands to its observers. */
  datatype LevelNotification = LevelNotification(levelName: string, nextAction: Action)

  /** What `checkIfGameOver` decides on one tick. */
  datatype Outcome = Continue | Lose | Advance | Win

  /**
   * checkIfGameOver(): a destroyed user loses; otherwise the three ordinary
   * levels advance once the kill target is reached and the boss level is
   * won once the boss is destroyed.
   */
  function GameOutcome(k: LevelKind, userDestroyed: bool, kills: int, bossDestroyed: bool): Outcome {
    if userDestroyed then Lose
    else if k.LevelBoss? then (if bossDestroyed then Win else Continue)
    else if kills >= KillsToAdvance(k) then Advance
    else Continue
  }

  /**
   * Losing takes precedence: the level is lost exactly when the user is
   * destroyed, whatever the kills or the boss; it is advanced exactly when
   * an ordinary level's kill target is met by a surviving user; it is won
   * exactly when a surviving user has destroyed the boss.
   */
  lemma OutcomeCases(k: LevelKind, userDestroyed: bool, kills: int, bossDestroyed: bool)
    ensures GameOutcome(k, userDestroyed, kills, bossDestroyed) == Lose <==> userDestroyed
    ensures GameOutcome(k, userDestroyed, kills, bossDestroyed) == Advance <==>
      !userDestroyed && !k.LevelBoss? && kills >= KillsToAdvance(k)
    ensures GameOutcome(k, userDestroyed, kills, bossDestroyed) == Win <==>
      !userDestroyed && k.LevelBoss? && bossDestroyed
  {
  }

  /** More kills never turn an advance back into continuing. */
  lemma AdvanceIsMonotone(k: LevelKind, kills: int, more: int)
    requires !k.LevelBoss? && kills <= more
    requires GameOutcome(k, false, kills, false) == Advance
    ensures GameOutcome(k, false, more, false) == Advance
  {
  }

  /**
   * animateBackground(): two pixels to the left, back to 0 once the image has
   * moved a whole screen width.
   */
  function BackgroundStep(position: real, screenWidth: real): (next: real)
    ensures screenWidth > 0.0 && -screenWidth < position <= 0.0 ==> -screenWidth < next <= 0.0
    ensures next == 0.0 || next == position - BackgroundScrollSpeed
  {
    var moved := position - BackgroundScrollSpeed;
    if moved <= -screenWidth then 0.0 else moved
  }

  /** One random record per iteration of a spawn loop. */
  datatype SpawnDraw = SpawnDraw(spawn: Draw, y: Draw, variant: Draw)

  /** The iterations of a spawn loop that create an enemy, in order. */
  function Spawns(draws: seq<SpawnDraw>): (r: seq<SpawnDraw>)
    ensures |r| <= |draws|
    ensures forall d :: d in r ==> d in draws && d.spawn < EnemySpawnProbability
  {
    if |draws| == 0 then []
    else (if draws[0].spawn < EnemySpawnProbability then [draws[0]] else []) + Spawns(draws[1..])
  }

  /** Spawns distributes over concatenation, so a loop may collect it draw by draw. */
  lemma {:induction false} SpawnsAppend(draws: seq<SpawnDraw>, d: SpawnDraw)
    ensures Spawns(draws + [d]) == Spawns(draws) + (if d.spawn < EnemySpawnProbability then [d] else [])
  {
    if |draws| == 0 {
      assert draws + [d] == [d];
    } else {
      assert (draws + [d])[1..] == draws[1..] + [d];
      SpawnsAppend(draws[1..], d);
    }
  }

  /**
   * The number of iterations of `spawnEnemyUnits`: TOTAL_ENEMIES minus the
   * current enemy count, none when the level is already full.
   */
  function SpawnIterations(k: LevelKind, current: nat): (n: nat)
    ensures current + n <= if current <= TotalEnemies(k) then TotalEnemies(k) else current
  {
    if current < TotalEnemies(k) then TotalEnemies(k) - current else 0
  }

  /**
   * However the draws fall, a spawn pass never takes an ordinary level above
   * its TOTAL_ENEMIES, and never adds to a level already at or above it.
   */
  lemma SpawnStaysWithinCap(k: LevelKind, current: nat, draws: seq<SpawnDraw>)
    requires |draws| == SpawnIterations(k, current)
    ensures current + |Spawns(draws)| <= if current <= TotalEnemies(k) then TotalEnemies(k) else current
    ensures current >= TotalEnemies(k) ==> |Spawns(draws)| == 0
  {
  }

  /** The EnemyPlaneMutator LevelTwo prepares for `makeEnemyPlane(x, y, 1)`. */
  function HeavyEnemyConfig(): EnemyConfig {
    DefaultEnemyConfig().(imageHeight := 100, initialHealth := 5,
      settings := DefaultEnemyConfig().settings.(projectileYOffset := 40.0))
  }

  /** LevelThree's enemies: the heavy enemy, firing at rate 0.02. */
  function LevelThreeEnemyConfig(): EnemyConfig {
    HeavyEnemyConfig().(settings := HeavyEnemyConfig().settings.(fireRate := 0.02))
  }

  /** `makeEnemyPlane(x, y, type)` of LevelTwo: type 1 is the heavy enemy, every other type the default one. */
  function EnemyConfigFor(enemyType: int): (c: EnemyConfig)
    ensures enemyType == 1 ==> c.initialHealth == 5 && c.imageHeight == 100 && c.settings.projectileYOffset == 40.0
    ensures enemyType != 1 ==> c == DefaultEnemyConfig()
  {
    if enemyType == 1 then HeavyEnemyConfig() else DefaultEnemyConfig()
  }

  /** The type LevelTwo passes to makeEnemyPlane for a spawning draw. */
  function EnemyTypeFor(d: SpawnDraw): int {
    if d.variant < EnemySpawnProbability then 1 else 0
  }

  /** The configuration of the enemy a spawning draw creates, per level. */
  function SpawnConfig(k: LevelKind, d: SpawnDraw): (c: EnemyConfig)
    ensures k.LevelOne? ==> c == DefaultEnemyConfig()
    ensures k.LevelTwo? ==> c == (if d.variant < EnemySpawnProbability then HeavyEnemyConfig() else DefaultEnemyConfig())
    ensures k.LevelThree? ==> c.initialHealth == 5 && c.imageHeight == 100 && c.settings.fireRate == 0.02
  {
    match k
    case LevelOne => DefaultEnemyConfig()
    case LevelTwo => EnemyConfigFor(EnemyTypeFor(d))
    case LevelThree => LevelThreeEnemyConfig()
    case LevelBoss => DefaultEnemyConfig()
  }

  /**
   * The chance that `spawnHealthPoints` adds a pickup on this tick, for a
   * user with `health`: LevelTwo scales HP_SPAWN_PROBABILITY by the missing
   * fraction of PLAYER_INITIAL_HEALTH, LevelThree uses it as it is, and the
   * other two levels spawn none. Below full health only.
   */
  function HealthPointChance(k: LevelKind, health: int): (p: real)
    ensures p >= 0.0
    ensures p > 0.0 <==> health < PlayerInitialHealth && (k.LevelTwo? || k.LevelThree?)
    ensures 0 <= health ==> p <= HpSpawnProbability
  {
    if health >= PlayerInitialHealth then 0.0
    else if k.LevelTwo? then (PlayerInitialHealth - health) as real / PlayerInitialHealth as real * HpSpawnProbability
    else if k.LevelThree? then HpSpawnProbability
    else 0.0
  }

  /** Whether the draw `chance` spawns a pickup. */
  predicate SpawnsHealthPoint(k: LevelKind, health: int, chance: Draw) {
    chance < HealthPointChance(k, health)
  }

  /** In LevelTwo a more damaged user is at least as likely to receive a pickup. */
  lemma LowerHealthMorePickups(health: int, lower: int)
    requires lower <= health
    ensures HealthPointChance(LevelTwo, lower) >= HealthPointChance(LevelTwo, health)
  {
    if health < PlayerInitialHealth {
      var a := (PlayerInitialHealth - health) as real;
      var b := (PlayerInitialHealth - lower) as real;
      assert a <= b;
      assert a / 5.0 * 0.01 <= b / 5.0 * 0.01;
    }
  }
}

// Removal of flagged list elements, kept apart from the heap.
module Filtering {

  /** The number of `true` entries. */
  function CountTrue(bs: seq<bool>): (n: nat)
    ensures n <= |bs|
  {
    if |bs| == 0 then 0 else (if bs[0] then 1 else 0) + CountTrue(bs[1..])
  }

  lemma {:induction false} CountTrueAppend(bs: seq<bool>, b: bool)
    ensures CountTrue(bs + [b]) == CountTrue(bs) + (if b then 1 else 0)
  {
    if |bs| == 0 {
      assert bs + [b] == [b];
    } else {
      assert (bs + [b])[1..] == bs[1..] + [b];
      CountTrueAppend(bs[1..], b);
    }
  }

  /** The elements whose `drop` entry is false, in their original order. */
  function Kept<T>(xs: seq<T>, drop: seq<bool>): (r: seq<T>)
    requires |xs| == |drop|
    ensures |r| == |xs| - CountTrue(drop)
  {
    if |xs| == 0 then []
    else (if drop[0] then [] else [xs[0]]) + Kept(xs[1..], drop[1..])
  }

  lemma {:induction false} KeptAppend<T>(xs: seq<T>, drop: seq<bool>, x: T, b: bool)
    requires |xs| == |drop|
    ensures Kept(xs + [x], drop + [b]) == Kept(xs, drop) + (if b then [] else [x])
  {
    if |xs| == 0 {
      assert xs + [x] == [x] && drop + [b] == [b];
    } else {
      assert (xs + [x])[1..] == xs[1..] + [x];
      assert (drop + [b])[1..] == drop[1..] + [b];
      KeptAppend(xs[1..], drop[1..], x, b);
    }
  }

  /** `a` is `b` with some elements left out and the rest in order. */
  predicate IsSubsequence<T(==)>(a: seq<T>, b: seq<T>) {
    if |a| == 0 then true
    else if |b| == 0 then false
    else if a[0] == b[0] then IsSubsequence(a[1..], b[1..])
    else IsSubsequence(a, b[1..])
  }

  /** The whole list as its own prefix. */
  lemma KeptWhole<T>(xs: seq<T>, drop: seq<bool>)
    requires |xs| == |drop|
    ensures Kept(xs[..|xs|], drop[..|drop|]) == Kept(xs, drop)
  {
    assert xs[..|xs|] == xs && drop[..|drop|] == drop;
  }

  /** One more position of a prefix: what a filtering loop adds in its step `i`. */
  lemma KeptPrefixStep<T>(xs: seq<T>, drop: seq<bool>, i: nat)
    requires |xs| == |drop| && i < |xs|
    ensures Kept(xs[..i + 1], drop[..i + 1]) == Kept(xs[..i], drop[..i]) + (if drop[i] then [] else [xs[i]])
  {
    assert xs[..i + 1] == xs[..i] + [xs[i]];
    assert drop[..i + 1] == drop[..i] + [drop[i]];
    KeptAppend(xs[..i], drop[..i], xs[i], drop[i]);
  }

  /** The entries of `bs` negated. */
  function Not(bs: seq<bool>): (r: seq<bool>)
    ensures |r| == |bs| && forall k :: 0 <= k < |bs| ==> r[k] == !bs[k]
  {
    if |bs| == 0 then [] else [!bs[0]] + Not(bs[1..])
  }

  /** What is kept keeps its order. */
  lemma {:induction false} KeptIsSubsequence<T>(xs: seq<T>, drop: seq<bool>)
    requires |xs| == |drop|
    ensures IsSubsequence(Kept(xs, drop), xs)
  {
    if |xs| > 0 {
      KeptIsSubsequence(xs[1..], drop[1..]);
      if !drop[0] {
        assert Kept(xs, drop) == [xs[0]] + Kept(xs[1..], drop[1..]);
      } else {
        assert Kept(xs, drop) == Kept(xs[1..], drop[1..]);
        SubsequenceOfTail(Kept(xs[1..], drop[1..]), xs);
      }
    }
  }

  /** A subsequence of a tail is a subsequence of the whole. */
  lemma {:induction false} SubsequenceOfTail<T>(a: seq<T>, b: seq<T>)
    requires |b| > 0 && IsSubsequence(a, b[1..])
    ensures IsSubsequence(a, b)
    decreases |b|, 0
  {
    if |a| > 0 && a[0] == b[0] {
      DropHead(a, b[1..]);
    }
  }

  /** Leaving out the first element of a subsequence keeps it a subsequence. */
  lemma {:induction false} DropHead<T>(a: seq<T>, c: seq<T>)
    requires |a| > 0 && IsSubsequence(a, c)
    ensures IsSubsequence(a[1..], c)
    decreases |c|, 1
  {
    if a[0] == c[0] {
      SubsequenceOfTail(a[1..], c);
    } else {
      DropHead(a, c[1..]);
      SubsequenceOfTail(a[1..], c);
    }
  }

  /** The complement of a tail is the tail of the complement. */
  lemma NotTail(bs: seq<bool>)
    requires |bs| > 0
    ensures Not(bs)[1..] == Not(bs[1..])
  {
    assert forall k :: 0 <= k < |bs| - 1 ==> Not(bs)[1..][k] == Not(bs[1..])[k];
  }

  /** The head of a list goes to the kept side or the dropped side, and the two sides grow to the whole list. */
  lemma PartitionStep<T>(xs: seq<T>, kept: seq<T>, dropped: seq<T>, isDropped: bool, isKept: bool)
    requires |xs| > 0 && multiset(kept) + multiset(dropped) == multiset(xs[1..]) && isKept == !isDropped
    ensures multiset((if isDropped then [] else [xs[0]]) + kept) + multiset((if isKept then [] else [xs[0]]) + dropped)
      == multiset(xs)
  {
    assert xs == [xs[0]] + xs[1..];
  }

  /** What is kept and what is dropped together are the whole list. */
  lemma {:induction false} KeptAndDroppedPartition<T>(xs: seq<T>, drop: seq<bool>)
    requires |xs| == |drop|
    ensures multiset(Kept(xs, drop)) + multiset(Kept(xs, Not(drop))) == multiset(xs)
  {
    if |xs| > 0 {
      var keep := Not(drop);
      NotTail(drop);
      KeptAndDroppedPartition(xs[1..], drop[1..]);
      PartitionStep(xs, Kept(xs[1..], drop[1..]), Kept(xs[1..], keep[1..]), drop[0], keep[0]);
    }
  }

  /**
   * An element is kept exactly when one of its occurrences is not dropped;
   * in a list without duplicates, exactly when it is not dropped.
   */
  lemma {:induction false} KeptMembers<T>(xs: seq<T>, drop: seq<bool>, k: nat)
    requires |xs| == |drop| && k < |xs|
    ensures !drop[k] ==> xs[k] in Kept(xs, drop)
    ensures (forall p :: 0 <= p < |xs| && p != k ==> xs[p] != xs[k]) ==> (xs[k] in Kept(xs, drop) <==> !drop[k])
  {
    if k > 0 {
      KeptMembers(xs[1..], drop[1..], k - 1);
      if forall p :: 0 <= p < |xs| && p != k ==> xs[p] != xs[k] {
        forall p | 0 <= p < |xs[1..]| && p != k - 1
          ensures xs[1..][p] != xs[1..][k - 1]
        {
          assert xs[1..][p] == xs[p + 1];
        }
        assert xs[0] != xs[k];
      }
    } else {
      if forall p :: 0 <= p < |xs| && p != k ==> xs[p] != xs[k] {
        KeptOmits(xs[1..], drop[1..], xs[0]);
      }
    }
  }

  /** Nothing absent from a list is kept. */
  lemma {:induction false} KeptOmits<T>(xs: seq<T>, drop: seq<bool>, x: T)
    requires |xs| == |drop| && x !in xs
    ensures x !in Kept(xs, drop)
  {
    if |xs| > 0 {
      KeptOmits(xs[1..], drop[1..], x);
    }
  }

  /** An element that is kept comes from a position that is not dropped. */
  lemma {:induction false} KeptFrom<T>(xs: seq<T>, drop: seq<bool>, x: T)
    requires |xs| == |drop| && x in Kept(xs, drop)
    ensures exists p :: 0 <= p < |xs| && xs[p] == x && !drop[p]
  {
    if |xs| > 0 {
      if !drop[0] && x == xs[0] {
        assert xs[0] == x && !drop[0];
      } else {
        assert x in Kept(xs[1..], drop[1..]);
        KeptFrom(xs[1..], drop[1..], x);
        var p :| 0 <= p < |xs[1..]| && xs[1..][p] == x && !drop[1..][p];
        assert xs[p + 1] == x && !drop[p + 1];
      }
    }
  }

  /** Kept elements are elements of the list. */
  lemma KeptSubset<T>(xs: seq<T>, drop: seq<bool>)
    requires |xs| == |drop|
    ensures forall x :: x in Kept(xs, drop) ==> x in xs
  {
    forall x | x in Kept(xs, drop)
      ensures x in xs
    {
      KeptFrom(xs, drop, x);
    }
  }

  /** For each element, whether it occurs in `removed`: what `removeAll(removed)` drops. */
  function MemberFlags<T(==)>(xs: seq<T>, removed: seq<T>): (r: seq<bool>)
    ensures |r| == |xs| && forall k :: 0 <= k < |xs| ==> r[k] == (xs[k] in removed)
  {
    if |xs| == 0 then [] else MemberFlags(xs[..|xs| - 1], removed) + [xs[|xs| - 1] in removed]
  }

  /**
   * Counting the true entries of `a` that survive dropping the positions
   * where `r` is false loses none, when `a` implies `r` position by position.
   */
  lemma {:induction false} CountKeptImplied(a: seq<bool>, r: seq<bool>)
    requires |a| == |r| && forall k :: 0 <= k < |a| ==> a[k] ==> r[k]
    ensures CountTrue(Kept(a, Not(r))) == CountTrue(a)
  {
    if |a| > 0 {
      NotTail(r);
      CountKeptImplied(a[1..], r[1..]);
      assert Kept(a, Not(r)) == (if r[0] then [a[0]] else []) + Kept(a[1..], Not(r[1..]));
      CountTrueConcat(if r[0] then [a[0]] else [], Kept(a[1..], Not(r[1..])));
    }
  }

  lemma {:induction false} CountTrueConcat(a: seq<bool>, b: seq<bool>)
    ensures CountTrue(a + b) == CountTrue(a) + CountTrue(b)
  {
    if |a| > 0 {
      assert (a + b)[1..] == a[1..] + b;
      CountTrueConcat(a[1..], b);
    } else {
      assert a + b == b;
    }
  }
}
