# Sky battle simulation core, modelled in Dafny

This project models the simulation core of a JavaFX side-scrolling shooter.
The user plane flies at the left edge. Enemy planes cross the screen from the
right. Projectiles fly both ways. Health points and fire deactivators appear
as pickups, and a shielded Boss guards the last level. The model covers:

- **Actors.** `ActiveActor`, `ActiveActorDestructible`, `FighterPlane`,
  `UserPlane`, `EnemyPlane` and `EnemyPlaneMutator`, `Boss`, the three
  projectiles, `HealthPoint`, `TransientActiveActorDestructible` and
  `FireDeactivator`. They become one class `Actors.Actor` whose constant
  `kind` names the concrete Java class. Damage and repair are also modelled as
  values (`Damage`).
- **The Boss.** Its 15-move pattern and the shuffle of that pattern
  (`BossBehaviour`), its move counters, its vertical bounds and its shield.
- **Collision rules.** The three collision handlers:
  - `util/CollisionHandler` becomes `Collisions`. Every rule is specified by a
    pure outcome function over snapshots of the two lists.
  - `misc/CollisionHandler` becomes `MiscCollisions`.
  - `level/CollisionHandler` becomes `LevelCollisions`.
- **Scoring.**
  - The two score calculators and score holders: `Scoring` for `util`,
    `MiscScoring` for `misc`.
  - The kill counter, with its text.
- **Levels.**
  - The level selector (`Levels`).
  - The per-level rules of `LevelOne`, `LevelTwo`, `LevelThree` and
    `LevelBoss` (`LevelRules`).
  - The passes of `LevelParent` over its actor lists (`Filtering`,
    `ActorPasses`).
  - `LevelParent` itself as the class `LevelParent.Level`, with one method per
    step of its update loop.

Several things the Java code reads from its environment become parameters of
the model:

- **Randomness.** Each `Math.random()` or `Random.nextDouble()` becomes a
  value of the type `Draws.Draw`, a real in [0, 1). Each `Collections.shuffle` becomes a list of Fisher-Yates
  draws.
- **The clock.** The clock is a `now` parameter.
- **Images.** The aspect ratio of each image is an `ImageAspects` record.

`getBoundsInParent().intersects` is the closed-rectangle test
`Geometry.Intersects`.

## Model

| member | source | states |
|---|---|---|
| Geometry.IntersectsIffSharedPoint | src/main/java/com/example/demo/util/CollisionHandler.java:36 | The bounds test the handlers use holds exactly when the two boxes share a point (touching edges count) |
| Damage.FighterHits | src/main/java/com/example/demo/actor/FighterPlane.java:37-43 | n hits take exactly n health points, with no lower clamp. The plane ends destroyed iff it was destroyed already or its health passed through 0, i.e. 1 <= health <= n |
| Damage.DestroyedFighterStaysDestroyed | src/main/java/com/example/demo/actor/FighterPlane.java:37-43 | Further damage never revives a destroyed plane |
| Damage.FighterDestroyedByHealthHits | src/main/java/com/example/demo/actor/FighterPlane.java:37-43 | An intact plane with health h > 0 is destroyed by n hits iff n >= h |
| Damage.FragileHits | src/main/java/com/example/demo/actor/Projectile.java:25-28 | A projectile or health point is destroyed by its first hit. Further hits change nothing and health is untouched |
| Damage.ImmuneHits | src/main/java/com/example/demo/actor/FireDeactivator.java:52-55 | Any number of hits leaves an immune actor exactly as it was |
| Damage.WrecksIdempotent | src/main/java/com/example/demo/actor/ActiveActorDestructible.java:63-66 | Calling destroy() repeatedly is the same as calling it once |
| Capped.CappedIncrementsClosedForm | src/main/java/com/example/demo/util/CollisionHandler.java:128-135 | Each pickup repairs one point while health is below the initial health. After n pickups health is min(value + n, cap), and a value already at or above the cap stays unchanged |
| Capped.CappedIncrementsStayBelowCap | src/main/java/com/example/demo/util/CollisionHandler.java:128-135 | Pickups never lift health above the initial health, and never lower it |
| Transient.ExpiryIsMonotone | src/main/java/com/example/demo/actor/TransientActiveActorDestructible.java:51-53 | Once a transient pickup has expired, it stays expired at every later second |
| Transient.NotExpiredWhenCreated | src/main/java/com/example/demo/actor/TransientActiveActorDestructible.java:40-41 | With a non-negative linger time, a pickup is not expired at its creation second |
| Transient.RandomPositionBetween | src/main/java/com/example/demo/actor/TransientActiveActorDestructible.java:62-65 | For a draw in [0, 1) the random position lies between the two bounds, in either order. It may equal the lower bound and never reaches the upper one |
| BossBehaviour.CyclesCounts | src/main/java/com/example/demo/actor/Boss.java:106-111 | k rounds of the initialisation loop give 3k moves: k climbs (+8), k dives (-8) and k holds (0), and nothing else |
| BossBehaviour.ShuffleDownPermutes | src/main/java/com/example/demo/actor/Boss.java:112 | The swaps of the shuffle keep the length and the multiset of the pattern |
| BossBehaviour.ShufflePermutes | src/main/java/com/example/demo/actor/Boss.java:134 | Collections.shuffle, for any draws, returns a permutation of the pattern |
| BossBehaviour.ShuffleKeepsBalance | src/main/java/com/example/demo/actor/Boss.java:134 | Reshuffling keeps the pattern 15 long, with 5 copies each of +8, -8 and 0 |
| BossBehaviour.InitialPatternBalanced | src/main/java/com/example/demo/actor/Boss.java:106-113 | Whatever the shuffle, the initial pattern has 15 moves with 5 copies each of +8, -8 and 0 |
| BossBehaviour.BalancedPatternMoves | src/main/java/com/example/demo/actor/Boss.java:21-24 | Every move of a balanced pattern is +8, -8 or 0 |
| BossBehaviour.NextCountersSpec | src/main/java/com/example/demo/actor/Boss.java:130-142 | getNextMove keeps the index in [0, 15) and the run counter in [0, 10). The index advances by one, wrapping to 0, exactly on the call that brings the run to 10 |
| BossBehaviour.OneSlotRun | src/main/java/com/example/demo/actor/Boss.java:130-142 | A run that starts fresh on a slot lasts 10 moves, then a fresh run starts on the next slot |
| BossBehaviour.EachSlotHeldTenFrames | src/main/java/com/example/demo/actor/Boss.java:25 | After 10k moves from a fresh run, the index has advanced by k modulo 15 and a new run starts. Every slot is played exactly 10 frames |
| BossBehaviour.ShieldStepValid | src/main/java/com/example/demo/actor/Boss.java:119-123 | updateShield keeps the shield frame counter in [0, 50), and 0 whenever the shield is down |
| BossBehaviour.RaisedShieldLastsFifty | src/main/java/com/example/demo/actor/Boss.java:176-193 | Whatever the draws, a shield that has just gone up stays up for 49 more updates. The 50th update lowers it and resets the counter |
| BossBehaviour.FullHealthNeverShields | src/main/java/com/example/demo/actor/Boss.java:167-169 | At full health the activation chance is 0, so no draw raises the shield |
| Text.ToLower | src/main/java/com/example/demo/actor/UserPlane.java:90 | toLowerCase, on A-Z only: maps A-Z to a-z, keeps every other character, and keeps the length |
| Text.ToLowerIdempotent | src/main/java/com/example/demo/actor/UserPlane.java:90 | Lower-casing twice is the same as lower-casing once |
| Text.NatToStringRoundTrip | src/main/java/com/example/demo/misc/KillCounter.java:51 | The decimal digits of a count are non-empty, have no sign, and read back as the same number |
| Text.IntToStringRoundTrip | src/main/java/com/example/demo/misc/KillCounter.java:51 | Java's decimal rendering of any int, negative included, reads back as the same int |
| Actors.PickupsAppearWithinUserReach | src/main/java/com/example/demo/actor/HealthPoint.java:22-28 | A pickup is placed in (300, 600] x (120, 650]. That lies inside the area the user plane is confined to, so the user can always reach it |
| Actors.EnemyPlaneMutator.constructor | src/main/java/com/example/demo/actor/EnemyPlaneMutator.java:10-16 | A fresh mutator holds the default enemy: "enemyplane.png", height 50, health 1, velocity -6, offsets (-50, 10), fire rate 0.015 |
| Actors.EnemyPlaneMutator.SetImageName | src/main/java/com/example/demo/actor/EnemyPlaneMutator.java:32-34 | Sets the image name and nothing else |
| Actors.EnemyPlaneMutator.SetImageHeight | src/main/java/com/example/demo/actor/EnemyPlaneMutator.java:50-52 | Sets the image height and nothing else |
| Actors.EnemyPlaneMutator.SetInitialHealth | src/main/java/com/example/demo/actor/EnemyPlaneMutator.java:68-70 | Sets the initial health and nothing else |
| Actors.EnemyPlaneMutator.SetHorizontalVelocity | src/main/java/com/example/demo/actor/EnemyPlaneMutator.java:86-88 | Sets the horizontal velocity and nothing else |
| Actors.EnemyPlaneMutator.SetProjectileXPositionOffset | src/main/java/com/example/demo/actor/EnemyPlaneMutator.java:104-106 | Sets the projectile X offset and nothing else |
| Actors.EnemyPlaneMutator.SetProjectileYPositionOffset | src/main/java/com/example/demo/actor/EnemyPlaneMutator.java:122-124 | Sets the projectile Y offset and nothing else |
| Actors.EnemyPlaneMutator.SetFireRate | src/main/java/com/example/demo/actor/EnemyPlaneMutator.java:140-142 | Sets the fire rate and nothing else |
| Actors.Actor.UserPlane | src/main/java/com/example/demo/actor/UserPlane.java:31-34 | The user plane starts at (5, 300), 40 high and untranslated, with the given health. It has no kills, is not moving, and lies within its bounds |
| Actors.Actor.EnemyPlane | src/main/java/com/example/demo/actor/EnemyPlane.java:19-21 | A plane built without a mutator is configured exactly as a fresh mutator would configure it |
| Actors.Actor.EnemyPlaneFrom | src/main/java/com/example/demo/actor/EnemyPlane.java:30-42 | The plane takes its image, height, health, velocity, offsets and fire rate from the mutator. Because the settings are copied, later changes to the mutator cannot reach the plane |
| Actors.Actor.Boss | src/main/java/com/example/demo/actor/Boss.java:40-48 | The boss starts at (1000, 400), 120 high, with health 100. Its shield is down, its counters are zero, and its pattern is the shuffled initial pattern, so it starts in a valid state |
| Actors.Actor.UserProjectile | src/main/java/com/example/demo/actor/UserProjectile.java:19-21 | A user shot is "userfire.png", 50 high, placed at the given point |
| Actors.Actor.EnemyProjectile | src/main/java/com/example/demo/actor/EnemyProjectile.java:19-21 | An enemy shot is "enemyFire.png", 30 high, placed at the given point |
| Actors.Actor.BossProjectile | src/main/java/com/example/demo/actor/BossProjectile.java:26-28 | A fireball always starts at X = 950, wherever the boss is, at the given Y |
| Actors.Actor.HealthPoint | src/main/java/com/example/demo/actor/HealthPoint.java:22-30 | A heart is placed by two random draws relative to the user's bounds and stamped with the current second |
| Actors.Actor.FireDeactivator | src/main/java/com/example/demo/actor/FireDeactivator.java:20-28 | A fire deactivator is placed like a heart. It records its creation second and its linger time |
| Actors.Actor.MoveHorizontally | src/main/java/com/example/demo/actor/ActiveActor.java:50-52 | The X translation grows by the move |
| Actors.Actor.MoveVertically | src/main/java/com/example/demo/actor/ActiveActor.java:59-61 | The Y translation grows by the move |
| Actors.Actor.UpdateBoundingBox | src/main/java/com/example/demo/actor/ActiveActorDestructible.java:142-147 | The bounding box becomes the image's current bounds in its parent |
| Actors.Actor.Destroy | src/main/java/com/example/demo/actor/ActiveActorDestructible.java:63-66 | The actor is destroyed afterwards, and only the destroyed flag changes |
| Actors.Actor.SetDestroyed | src/main/java/com/example/demo/actor/ActiveActorDestructible.java:82-84 | Sets the destroyed flag and nothing else |
| Actors.Actor.Remove | src/main/java/com/example/demo/actor/ActiveActorDestructible.java:89-92 | The actor is marked for removal, and only that flag changes |
| Actors.Actor.SetShouldRemove | src/main/java/com/example/demo/actor/ActiveActorDestructible.java:108-110 | Sets the removal flag and nothing else |
| Actors.Actor.TakeDamage | src/main/java/com/example/demo/actor/Boss.java:87-92 | Every override is one step of its damage mode. Planes, and the boss with its shield down, act as fighters. Projectiles and hearts act as fragile. Fire deactivators, and the shielded boss, are immune |
| Actors.Actor.FighterTakeDamage | src/main/java/com/example/demo/actor/FighterPlane.java:37-43 | Health drops by one. The plane is destroyed when health reaches exactly 0 |
| Actors.Actor.RepairDamage | src/main/java/com/example/demo/actor/FighterPlane.java:48-51 | Planes gain one health point. Projectiles and pickups are unchanged |
| Actors.Actor.IsMovingIgnoresCase | src/main/java/com/example/demo/actor/UserPlane.java:89-96 | isMoving accepts a direction iff its lower-case form is "vertical", "horizontal" or "any", and otherwise throws. Every spelling gets the same answer |
| Actors.Actor.MoveUp | src/main/java/com/example/demo/actor/UserPlane.java:101-103 | The vertical multiplier becomes -1 |
| Actors.Actor.MoveDown | src/main/java/com/example/demo/actor/UserPlane.java:108-110 | The vertical multiplier becomes 1 |
| Actors.Actor.MoveLeft | src/main/java/com/example/demo/actor/UserPlane.java:115-117 | The horizontal multiplier becomes -1 |
| Actors.Actor.MoveRight | src/main/java/com/example/demo/actor/UserPlane.java:122-124 | The horizontal multiplier becomes 1 |
| Actors.Actor.Stop | src/main/java/com/example/demo/actor/UserPlane.java:129-132 | Both multipliers become 0 |
| Actors.Actor.IncrementKillCount | src/main/java/com/example/demo/actor/UserPlane.java:146-148 | The user's kill count grows by exactly one |
| Actors.Actor.DeactivateFire | src/main/java/com/example/demo/util/CollisionHandler.java:161 | The boss's fire is deactivated for good |
| Actors.Actor.InitializeMovePattern | src/main/java/com/example/demo/actor/Boss.java:106-113 | The pattern becomes the shuffle of the old pattern followed by five rounds of (+8, -8, 0) |
| Actors.Actor.GetNextMove | src/main/java/com/example/demo/actor/Boss.java:130-142 | Returns the move at the current index, always +8, -8 or 0. The counters take one step. The pattern is reshuffled exactly when a run of 10 ends. The boss stays valid |
| Actors.Actor.UpdateShield | src/main/java/com/example/demo/actor/Boss.java:119-123 | The shield takes one step of the shield state machine for this draw, and stays valid. A boss at full health that is not shielded stays unshielded |
| Actors.Actor.UpdateUserPlanePosition | src/main/java/com/example/demo/actor/UserPlane.java:40-60 | Vertical movement wins over horizontal, and only one axis moves. A move that would leave [0, 600] x [20, 650] is reverted, so the plane never leaves its bounds |
| Actors.Actor.UpdateBossPosition | src/main/java/com/example/demo/actor/Boss.java:54-63 | The boss moves by the next pattern move. The move is reverted if it would leave [-10, 600]. The pattern and counters advance, and the boss stays valid |
| Actors.Actor.MoveWithinBossBounds | src/main/java/com/example/demo/actor/Boss.java:56-62 | The move is kept iff the effective Y stays in [-10, 600]. The boss is never outside that range afterwards |
| Actors.Actor.UpdatePosition | src/main/java/com/example/demo/actor/EnemyPlane.java:47-51 | Enemies and projectiles cruise by their fixed velocity. The user and the boss move as stated above. Pickups stay where they are. Validity is kept |
| Actors.Actor.UpdateActor | src/main/java/com/example/demo/actor/Boss.java:68-72 | Every actor updates its position. Only the boss also updates its shield |
| Actors.Actor.FireProjectile | src/main/java/com/example/demo/actor/EnemyPlane.java:66-74 | The user always fires from (+60, +10). An enemy fires iff the draw is below its fire rate, from its offsets. The boss fires iff the draw is below 0.05, from X 950 and Y + 75. Otherwise the result is null |
| Scoring.ScoreByPosition | src/main/java/com/example/demo/util/GameScoreCalculator.java:21-24 | A hit scores between 1 and 6, for any position and any bounds, equal bounds included |
| Scoring.CalculateUserScoreByPosition | src/main/java/com/example/demo/util/GameScoreCalculator.java:16-25 | The user's hit scores between 1 and 6 |
| Scoring.ScoreMonotone | src/main/java/com/example/demo/util/GameScoreCalculator.java:21-22 | With proper bounds, a position further right never scores less |
| Scoring.ScoreAtBounds | src/main/java/com/example/demo/util/GameScoreCalculator.java:21-24 | At or left of the upper bound a hit scores 1. At or right of the lower bound it scores 6 |
| Scoring.FurtherRightScoresMore | test/com/example/demo/level/GameScoreCalculatorTest.java:11-30 | With bounds (600, 0), translateX 500 scores more than translateX 0 |
| Scoring.GameScore.constructor | src/main/java/com/example/demo/util/GameScore.java:16-18 | The score starts at the given value, and no increment has been made yet |
| Scoring.GameScore.ResetScore | src/main/java/com/example/demo/util/GameScore.java:32-34 | The score goes to 0 and the last increment is kept. The score stays the sum of the increments since the reset |
| Scoring.GameScore.IncreaseScoreBy | src/main/java/com/example/demo/util/GameScore.java:41-44 | The score grows by the increment, which becomes the last increment. The score remains its base plus the sum of all increments |
| MiscScoring.ScoreByPosition | src/main/java/com/example/demo/misc/GameScoreCalculator.java:11-18 | Fails iff upperBound >= lowerBound. Otherwise it agrees with the util calculator, in [1, 6] |
| MiscScoring.CalculateUserScoreByPosition | src/main/java/com/example/demo/misc/GameScoreCalculator.java:6-19 | The user's bounds never make it throw, and it scores the user as the util calculator does |
| MiscScoring.ScoreMonotone | src/main/java/com/example/demo/misc/GameScoreCalculator.java:15-18 | With valid bounds, a position further right never scores less |
| MiscScoring.GameScore.constructor | src/main/java/com/example/demo/misc/GameScore.java:7-9 | The score starts at the given value, and no increment has been made yet |
| MiscScoring.GameScore.ResetScore | src/main/java/com/example/demo/misc/GameScore.java:13-15 | The score goes to 0 and the last increment is kept |
| MiscScoring.GameScore.IncreaseScoreBy | src/main/java/com/example/demo/misc/GameScore.java:17-20 | The score grows by the increment, which becomes the last increment. The score remains its base plus the sum of all increments |
| MiscScoring.KillCounterText | src/main/java/com/example/demo/misc/KillCounter.java:50-52 | The text starts with "Kills: " |
| MiscScoring.KillCounterTextShowsBoth | src/main/java/com/example/demo/misc/KillCounter.java:50-52 | The current kills and the target can both be read back from the text, separated by " / " |
| MiscScoring.KillCounter.constructor | src/main/java/com/example/demo/misc/KillCounter.java:15-18 | The counter starts at 0 kills and shows "Kills: 0 / target" |
| MiscScoring.KillCounter.IncrementKillCount | src/main/java/com/example/demo/misc/KillCounter.java:29-34 | Adds one kill only while below the target. The text is refreshed only when the count changed |
| MiscScoring.KillCounter.ResetKillCount | src/main/java/com/example/demo/misc/KillCounter.java:36-39 | The count goes back to 0 and the text shows it |
| MiscScoring.KillCounter.SetCurrentKills | src/main/java/com/example/demo/misc/KillCounter.java:41-44 | Sets any count, even past the target, and returns the counter itself. The text is left stale |
| MiscScoring.KillCounter.UpdateKillCounterText | src/main/java/com/example/demo/misc/KillCounter.java:46-48 | The text shows the current count and the target |
| MiscScoring.IncrementsStayWithinTarget | src/main/java/com/example/demo/misc/KillCounter.java:29-34 | Starting at or below the target, increments never pass it, and enough of them reach it exactly |
| Collisions.RowHits | src/main/java/com/example/demo/util/CollisionHandler.java:35-41 | One projectile makes at most one contact per actor of the other list |
| Collisions.ColHits | src/main/java/com/example/demo/util/CollisionHandler.java:34-42 | One enemy receives at most one contact per projectile |
| Collisions.RowHitsZero | src/main/java/com/example/demo/util/CollisionHandler.java:35-41 | An actor makes no contact iff its box meets no box of the other list |
| Collisions.ColHitsZero | src/main/java/com/example/demo/util/CollisionHandler.java:34-42 | An actor receives no contact iff no box of the first list meets it |
| Collisions.PairHitsZero | src/main/java/com/example/demo/util/CollisionHandler.java:34-42 | The rule counts no hit iff no pair of boxes intersects |
| Collisions.ContactsMadeEqualContactsReceived | src/main/java/com/example/demo/util/CollisionHandler.java:34-42 | Each hit is one pair, so the contacts the first list makes add up to the contacts the second list receives |
| Collisions.Respond | src/main/java/com/example/demo/util/CollisionHandler.java:108-110 | One response to one contact. takeDamage is one step of the actor's damage mode. destroy() sets the destroyed flag. A health pickup repairs the user only while its health is below the cap |
| Collisions.StrikeFirst | src/main/java/com/example/demo/util/CollisionHandler.java:36-37 | The pair test reports exactly the intersection of the entry boxes. The first actor responds exactly when they intersect |
| Collisions.StrikeSecond | src/main/java/com/example/demo/util/CollisionHandler.java:38 | The second actor responds exactly when the pair intersects, and no other actor is touched |
| Collisions.Strike | src/main/java/com/example/demo/util/CollisionHandler.java:36-40 | One pair test. When the boxes intersect, both actors respond once, and the lists' progress moves one column on |
| Collisions.ResolveRow | src/main/java/com/example/demo/util/CollisionHandler.java:35-41 | One projectile against every enemy. Returns the number it met, and afterwards that projectile has responded once per enemy it met |
| Collisions.ResolveRows | src/main/java/com/example/demo/util/CollisionHandler.java:34-42 | The nested loop. It returns the number of intersecting pairs. Every actor has responded once per contact, counted on the boxes at entry, and nothing else has changed |
| Collisions.ResolvePairs | src/main/java/com/example/demo/util/CollisionHandler.java:86-93 | For two distinct, disjoint lists: each actor of the first list responds once per actor of the second it met at entry, and the reverse. Only health and destroyed flags change. Returns the number of intersecting pairs |
| Collisions.ResolvedKeepsRest | src/main/java/com/example/demo/util/CollisionHandler.java:82-94 | An actor a rule visits keeps its position, bounding box, removal flag and all kind-specific state |
| Collisions.NoContactNoEffect | src/main/java/com/example/demo/util/CollisionHandler.java:34-42 | A projectile that meets nothing is left exactly as it was |
| Collisions.NoContactReceivedNoEffect | src/main/java/com/example/demo/util/CollisionHandler.java:86-93 | A friendly unit that no shot meets is left exactly as it was |
| Collisions.DestroyedByAnyContact | src/main/java/com/example/demo/util/CollisionHandler.java:106-113 | An enemy that meets any friendly plane is destroyed with its health unchanged. One that meets none is untouched |
| Collisions.SingleRow | src/main/java/com/example/demo/util/CollisionHandler.java:62-71 | Against the single boss, the contact count of a projectile is its intersection test |
| Collisions.HandleUserProjectileCollisions | src/main/java/com/example/demo/util/CollisionHandler.java:27-45 | Both actors of every intersecting pair take damage. The score is the number of hits times the user's position score. Between 1 and 6 points per hit |
| Collisions.StrikeBoss | src/main/java/com/example/demo/util/CollisionHandler.java:66-69 | The boss is damaged exactly when the projectile met it and its shield was down |
| Collisions.StrikeProjectileBoss | src/main/java/com/example/demo/util/CollisionHandler.java:63-70 | The projectile takes damage whenever it meets the boss. The boss takes it only when it is unshielded |
| Collisions.HandleUserProjectileBossCollisions | src/main/java/com/example/demo/util/CollisionHandler.java:55-74 | Every projectile that meets the boss takes damage. So does the boss, unless shielded, since its takeDamage ignores hits under the shield. The score is hits times the position score, and 0 while the boss is shielded |
| Collisions.BossScore | src/main/java/com/example/demo/util/CollisionHandler.java:60-73 | A shielded boss yields no score |
| Collisions.BossScoreIsHitsTimesPoints | src/main/java/com/example/demo/util/CollisionHandler.java:60-73 | The score the boss loop adds up is the number of hits times the points of one hit, or nothing under the shield |
| Collisions.ScoreProjectileBoss | src/main/java/com/example/demo/util/CollisionHandler.java:63-70 | One pass of the boss loop adds the points exactly for an unshielded hit |
| Collisions.ResolveBossRows | src/main/java/com/example/demo/util/CollisionHandler.java:62-71 | After the boss loop, every actor has responded once per contact. The score is the unshielded hits times the points |
| Collisions.HandleEnemyProjectileCollisions | src/main/java/com/example/demo/util/CollisionHandler.java:82-94 | Both actors of every intersecting pair take damage, once per contact |
| Collisions.HandlePlaneCollisions | src/main/java/com/example/demo/util/CollisionHandler.java:102-114 | The friendly plane takes one damage per enemy it meets. Every enemy it meets is destroyed outright |
| Collisions.HandleUserHealthPointCollisions | src/main/java/com/example/demo/util/CollisionHandler.java:123-136 | Each pickup the user meets repairs one health point while the user is below its initial health, and is destroyed either way |
| Collisions.DeactivateFireOnContact | src/main/java/com/example/demo/util/CollisionHandler.java:156-163 | Reports a collision iff the user meets some fire deactivator, and deactivates the boss's fire exactly then |
| Collisions.DestroyAll | src/main/java/com/example/demo/util/CollisionHandler.java:165-169 | Every actor of the list is destroyed, and nothing else about it changes |
| Collisions.HandleUserBossFireDeactivatorCollisions | src/main/java/com/example/demo/util/CollisionHandler.java:151-170 | If the user meets any fire deactivator, the boss's fire is deactivated and every deactivator in the list, met or not, is destroyed. Otherwise nothing changes |
| MiscCollisions.HandleUserProjectileCollisions | src/main/java/com/example/demo/misc/CollisionHandler.java:11-30 | The same outcome as the util rule. The misc calculator never throws on the user's bounds, so the score is the same |
| MiscCollisions.HandleEnemyProjectileCollisions | src/main/java/com/example/demo/misc/CollisionHandler.java:32-42 | The same outcome as the util rule: both actors of every intersecting pair take damage |
| MiscCollisions.HandlePlaneCollisions | src/main/java/com/example/demo/misc/CollisionHandler.java:44-54 | The same outcome as the util rule: the friendly plane is damaged and the enemy destroyed |
| MiscCollisions.HandleUserHealthPointCollisions | src/main/java/com/example/demo/misc/CollisionHandler.java:56-69 | The same outcome as the util rule: repair below the cap, and the pickup destroyed |
| LevelCollisions.HandleUserProjectileCollisions | src/main/java/com/example/demo/level/CollisionHandler.java:11-21 | Both actors of every intersecting pair take damage, and no score is kept |
| LevelCollisions.HandleEnemyProjectileCollisions | src/main/java/com/example/demo/level/CollisionHandler.java:23-33 | Both actors of every intersecting pair take damage |
| LevelCollisions.HandlePlaneCollisions | src/main/java/com/example/demo/level/CollisionHandler.java:35-45 | The friendly plane is damaged once per contact, and every enemy it meets is destroyed |
| LevelCollisions.HandleUserHealthPointCollisions | src/main/java/com/example/demo/level/CollisionHandler.java:47-60 | Repair below the cap, and every pickup met is destroyed |
| Levels.IndexOf | src/main/java/com/example/demo/level/LevelSelector.java:88 | The first position holding the name, and -1 exactly when the name is absent |
| Levels.IndexOfLevelName | src/main/java/com/example/demo/level/LevelSelector.java:19-24 | The four level names differ, so each is found at its own position in LEVELS |
| Levels.FirstLevel | src/main/java/com/example/demo/level/LevelSelector.java:77-79 | The first level is the name at position 0 of LEVELS |
| Levels.LevelSelector.constructor | src/main/java/com/example/demo/level/LevelSelector.java:30-36 | A new selector starts at the first level |
| Levels.LevelSelector.GetNextLevel | src/main/java/com/example/demo/level/LevelSelector.java:55-61 | Before the last level it steps on and names the next level; on the last it answers "" and stays |
| Levels.LevelSelector.GetCurrentLevel | src/main/java/com/example/demo/level/LevelSelector.java:68-70 | The current name is a level name, found at the current index |
| Levels.LevelSelector.SetCurrentLevel | src/main/java/com/example/demo/level/LevelSelector.java:87-93 | Fails with "Invalid level: " plus the name exactly when the name is unknown, and leaves the index alone then; otherwise that name becomes the current level |
| Levels.NewLevelSelector | src/main/java/com/example/demo/level/LevelSelector.java:44-46 | A selector placed at the name, or the same failure exactly for an unknown name |
| Levels.NextLevelIndex | src/main/java/com/example/demo/level/LevelSelector.java:55-61 | The index of the next getNextLevel stays in LEVELS, rises by at most one, and stays put exactly on the last level |
| Levels.StepsReachBossLevel | src/main/java/com/example/demo/level/LevelSelector.java:55-61 | Enough getNextLevel calls from any level end on the boss level |
| Levels.Iterate | src/main/java/com/example/demo/level/LevelSelector.java:55-61 | Any number of getNextLevel calls keeps the index within LEVELS |
| LevelRules.LevelIndex | src/main/java/com/example/demo/level/LevelSelector.java:19-24 | Each level class has a position in LEVELS, and only LevelBoss has the last one |
| LevelRules.ClassName | src/main/java/com/example/demo/level/LevelOne.java:39 | The class name a level hands its selector is a level name found at the level's own position |
| LevelRules.OutcomeCases | src/main/java/com/example/demo/level/LevelOne.java:58-65 | A destroyed user loses whatever else holds; a surviving user advances exactly when an ordinary level's kill target is met, and wins exactly when the boss is destroyed |
| LevelRules.AdvanceIsMonotone | src/main/java/com/example/demo/level/LevelTwo.java:154-156 | Once the kill target is reached, more kills still advance |
| LevelRules.BackgroundStep | src/main/java/com/example/demo/level/LevelParent.java:369-374 | The background scrolls two pixels left or wraps to 0, and never leaves (-screenWidth, 0] |
| LevelRules.Spawns | src/main/java/com/example/demo/level/LevelOne.java:71-80 | The iterations that spawn are a subsequence of the draws whose spawn draw is below ENEMY_SPAWN_PROBABILITY |
| LevelRules.SpawnsAppend | src/main/java/com/example/demo/level/LevelOne.java:73-78 | One more iteration adds its draw exactly when that draw spawns |
| LevelRules.SpawnIterations | src/main/java/com/example/demo/level/LevelOne.java:73 | The loop runs TOTAL_ENEMIES minus the current count times, and not at all when the level is full |
| LevelRules.SpawnStaysWithinCap | src/main/java/com/example/demo/level/LevelOne.java:70-80 | Whatever the draws, a spawn pass never takes the enemy count above TOTAL_ENEMIES and adds nothing to a full level |
| LevelRules.EnemyConfigFor | src/main/java/com/example/demo/level/LevelTwo.java:166-183 | Type 1 is the heavy enemy (height 100, health 5, projectile offset 40); every other type is the default enemy |
| LevelRules.SpawnConfig | src/main/java/com/example/demo/level/LevelTwo.java:88-104 | LevelOne spawns default enemies, LevelTwo a heavy enemy exactly when its second draw is below the probability, LevelThree heavy enemies firing at rate 0.02 |
| LevelRules.HealthPointChance | src/main/java/com/example/demo/level/LevelTwo.java:109-124 | The pickup chance is positive exactly below full health in LevelTwo or LevelThree, and never above HP_SPAWN_PROBABILITY |
| LevelRules.LowerHealthMorePickups | src/main/java/com/example/demo/level/LevelTwo.java:113 | In LevelTwo a more damaged user is at least as likely to receive a pickup |
| Filtering.Kept | src/main/java/com/example/demo/level/LevelParent.java:243-245 | Filtering drops exactly as many elements as are flagged |
| Filtering.KeptIsSubsequence | src/main/java/com/example/demo/level/LevelParent.java:243-245 | What a filter keeps stays in its original order |
| Filtering.KeptAndDroppedPartition | src/main/java/com/example/demo/level/LevelParent.java:243-256 | The kept and the dropped elements together are the whole list |
| Filtering.KeptMembers | src/main/java/com/example/demo/level/LevelParent.java:256 | An unflagged element is kept; in a list without duplicates an element is kept exactly when it is not flagged |
| Filtering.KeptSubset | src/main/java/com/example/demo/level/LevelParent.java:243-245 | Every kept element comes from the list |
| Filtering.MemberFlags | src/main/java/com/example/demo/level/LevelParent.java:256 | removeAll drops exactly the elements that occur in the removed list |
| ActorPasses.RemovalFlags | src/main/java/com/example/demo/level/LevelParent.java:244 | An actor is filtered out exactly when it is destroyed or marked for removal |
| ActorPasses.DestroyedFlags | src/main/java/com/example/demo/level/LevelParent.java:251 | Marks exactly the destroyed actors of a list |
| ActorPasses.OffScreenFlags | src/main/java/com/example/demo/level/LevelParent.java:381 | Marks exactly the projectiles whose translateX exceeds the screen width |
| ActorPasses.PenetrationFlags | src/main/java/com/example/demo/level/LevelParent.java:310-312 | Marks exactly the enemies whose absolute translateX exceeds the screen width |
| ActorPasses.FireFlags | src/main/java/com/example/demo/level/LevelParent.java:213-215 | Marks exactly the enemies whose own draw makes them fire |
| ActorPasses.KeptDistinct | src/main/java/com/example/demo/level/LevelParent.java:256 | Filtering a list without duplicates leaves a list without duplicates |
| ActorPasses.DestroyedFlagsOfKept | src/main/java/com/example/demo/level/LevelParent.java:247-256 | The destroyed marks of the kept actors are the marks of the whole list, filtered alike |
| ActorPasses.RemovingFlaggedDropsFlags | src/main/java/com/example/demo/level/LevelParent.java:243-256 | Removing all the flagged actors drops exactly the flagged positions, duplicates or not |
| ActorPasses.FlaggedActors | src/main/java/com/example/demo/level/LevelParent.java:243-245 | The loop collects exactly the actors destroyed or marked for removal, in list order |
| ActorPasses.CountKills | src/main/java/com/example/demo/level/LevelParent.java:247-254 | The user gains one kill per destroyed actor of the enemy list, and nothing else changes |
| ActorPasses.RemoveAll | src/main/java/com/example/demo/level/LevelParent.java:256 | Every element occurring in the removed list goes; the rest keep their order |
| ActorPasses.AppendedEnemiesHold | src/main/java/com/example/demo/level/LevelParent.java:346-352 | Appending enemy planes, none twice, keeps the enemy list holding only enemies or the boss, without duplicates |
| ActorPasses.KeptHolds | src/main/java/com/example/demo/level/LevelParent.java:242-257 | Filtering any of the five lists keeps it holding only its own category, without duplicates |
| ActorPasses.RemoveDestroyed | src/main/java/com/example/demo/level/LevelParent.java:242-257 | The destroyed and removed actors leave the list, the rest keep their order |
| ActorPasses.RemoveDestroyedEnemies | src/main/java/com/example/demo/level/LevelParent.java:242-257 | As for any list, and the user gains exactly one kill per destroyed enemy; an enemy merely marked for removal scores nothing |
| ActorPasses.RemoveOffScreen | src/main/java/com/example/demo/level/LevelParent.java:380-386 | Exactly the projectiles past the right edge leave the list, the rest keep their order |
| ActorPasses.PenetrationPass | src/main/java/com/example/demo/level/LevelParent.java:294-301 | The user takes one fighter hit per penetrating enemy, and exactly the penetrating enemies become marked for removal |
| ActorPasses.PenetrationKeepingRests | src/main/java/com/example/demo/level/LevelParent.java:294-301 | As PenetrationPass, and the user's and the boss's position, pattern and flags other than removal stay |
| ActorPasses.ExpirePass | src/main/java/com/example/demo/level/LevelParent.java:70-78 | Exactly the pickups older than HP_LINGER_SEC seconds become destroyed; nothing else about them changes |
| ActorPasses.UpdateOne | src/main/java/com/example/demo/level/LevelParent.java:228-231 | One actor takes its own updateActor step, keeping its health, flags and kills |
| ActorPasses.UpdateAll | src/main/java/com/example/demo/level/LevelParent.java:227-232 | Every actor of a list takes exactly one updateActor step |
| ActorPasses.EnemyFire | src/main/java/com/example/demo/level/LevelParent.java:213-225 | One new enemy or boss projectile per enemy that fires, all of them different and new |
| LevelParent.MakeEnemyPlane | src/main/java/com/example/demo/level/LevelTwo.java:166-183 | A new valid enemy at (x, y), configured as the level's enemy type asks |
| LevelParent.NewEnemy | src/main/java/com/example/demo/level/LevelThree.java:38-53 | The new enemy one spawning iteration creates, configured as its level and draw ask |
| LevelParent.SpawnEnemies | src/main/java/com/example/demo/level/LevelOne.java:70-80 | One new enemy per spawning iteration, in order, all different, at the right edge and at the drawn height, configured by level |
| LevelParent.SpawnStep | src/main/java/com/example/demo/level/LevelOne.java:74-78 | An iteration adds one new enemy exactly when its draw spawns, and keeps those already spawned |
| LevelParent.PickupsKeepHealthAtMostInitial | src/main/java/com/example/demo/level/LevelThree.java:71-76 | However many pickups the user meets in one tick, health never goes above PLAYER_INITIAL_HEALTH |
| LevelParent.ResolveKeepingRests | src/main/java/com/example/demo/level/LevelParent.java:274-292 | The nested loop of handleCollisions applies the collision rule to the two lists, and leaves the user and boss alone beyond health and destruction |
| LevelParent.Level.ListsDisjoint | src/main/java/com/example/demo/level/LevelParent.java:29-33 | No actor is in two of the level's lists, and the user is only ever a friendly unit |
| LevelParent.Level.constructor | src/main/java/com/example/demo/level/LevelParent.java:43-62 | The user at full health is the only friendly unit, every other list is empty and nothing runs; LevelBoss builds its boss at full health, the other levels a selector at their own class name |
| LevelParent.Level.StartGame | src/main/java/com/example/demo/level/LevelParent.java:89-92 | The game loop runs |
| LevelParent.Level.StopGame | src/main/java/com/example/demo/level/LevelParent.java:94-96 | The game loop stops |
| LevelParent.Level.PauseGame | src/main/java/com/example/demo/level/LevelParent.java:98-114 | Pauses a running loop and resumes a stopped one, so paused exactly when the loop no longer runs |
| LevelParent.Level.KeyPressed | src/main/java/com/example/demo/level/LevelParent.java:153-169 | While paused only ESCAPE acts, resuming; otherwise the arrows set the user's velocity multipliers, SPACE starts firing and ESCAPE pauses |
| LevelParent.Level.KeyReleased | src/main/java/com/example/demo/level/LevelParent.java:170-182 | Ignored while paused; otherwise an arrow stops the user, and SPACE fires one new projectile and stops firing |
| LevelParent.Level.StartFiring | src/main/java/com/example/demo/level/LevelParent.java:191-197 | Firing is on |
| LevelParent.Level.StopFiring | src/main/java/com/example/demo/level/LevelParent.java:198-203 | Firing is off |
| LevelParent.Level.FireProjectile | src/main/java/com/example/demo/level/LevelParent.java:204-211 | Exactly one new user projectile, placed at the user's gun, joins the end of the user projectiles |
| LevelParent.Level.GoToNextLevel | src/main/java/com/example/demo/level/LevelParent.java:116-122 | The observers receive one NEXT_LEVEL notification naming the level |
| LevelParent.Level.WinGame | src/main/java/com/example/demo/level/LevelParent.java:314-322 | The loop stops and the observers receive one WIN_GAME notification |
| LevelParent.Level.LoseGame | src/main/java/com/example/demo/level/LevelParent.java:324-332 | The loop stops and the observers receive one LOSE_GAME notification |
| LevelParent.Level.CheckIfGameOver | src/main/java/com/example/demo/level/LevelOne.java:58-65 | A lost tick stops and sends LOSE_GAME, a won tick stops and sends WIN_GAME, an advancing tick sends NEXT_LEVEL with the selector's next level, any other tick sends nothing |
| LevelParent.Level.UpdateLevelView | src/main/java/com/example/demo/level/LevelParent.java:305-308 | Hearts and kills shown follow the user; on LevelBoss the boss's health and shield too |
| LevelParent.Level.AnimateBackground | src/main/java/com/example/demo/level/LevelParent.java:369-378 | The ordinary levels take one background step; LevelBoss leaves the background where it is |
| LevelParent.Level.UpdateNumberOfEnemies | src/main/java/com/example/demo/level/LevelParent.java:366-368 | The enemy count equals the number of enemy units |
| LevelParent.Level.RemoveAllDestroyedActors | src/main/java/com/example/demo/level/LevelParent.java:234-240 | Each of the five lists loses exactly its destroyed and removed actors, in order, and only destroyed enemies add kills |
| LevelParent.Level.RemoveDestroyedUnits | src/main/java/com/example/demo/level/LevelParent.java:234-236 | The friendly and the enemy list lose their destroyed and removed actors, destroyed enemies adding kills |
| LevelParent.Level.RemoveDestroyedShotsAndPickups | src/main/java/com/example/demo/level/LevelParent.java:237-239 | The projectile and pickup lists lose their destroyed and removed actors |
| LevelParent.Level.SpawnEnemyUnits | src/main/java/com/example/demo/level/LevelOne.java:70-80 | Ordinary levels append one configured new enemy per spawning iteration and never exceed TOTAL_ENEMIES; LevelBoss adds its boss exactly when there are no enemies |
| LevelParent.Level.SpawnBossUnit | src/main/java/com/example/demo/level/LevelBoss.java:39-44 | The boss joins the enemy units exactly when the enemy list is empty |
| LevelParent.Level.SpawnOrdinaryUnits | src/main/java/com/example/demo/level/LevelTwo.java:88-104 | The enemies spawned are appended, configured by level, and the cap holds |
| LevelParent.Level.AddEnemyUnits | src/main/java/com/example/demo/level/LevelParent.java:346-352 | The new enemies join the end of the enemy list |
| LevelParent.Level.SpawnHealthPoints | src/main/java/com/example/demo/level/LevelThree.java:55-69 | A new pickup, stamped with the current second and at the drawn position, appears exactly when the draw is below the level's chance. LevelOne and LevelBoss never add one, and neither does any level while the user is at full health |
| LevelParent.Level.GenerateEnemyFire | src/main/java/com/example/demo/level/LevelParent.java:213-225 | The enemy projectiles grow by one new projectile per enemy that fires, after the old ones |
| LevelParent.Level.UpdateActors | src/main/java/com/example/demo/level/LevelParent.java:227-232 | Every plane and projectile takes its updateActor step once; the user and boss stay valid and kills do not change |
| LevelParent.Level.UpdatePlanes | src/main/java/com/example/demo/level/LevelParent.java:228-229 | Every friendly and enemy plane takes its step once |
| LevelParent.Level.UpdateFriendlyUnits | src/main/java/com/example/demo/level/LevelParent.java:228 | The user takes its step |
| LevelParent.Level.UpdateEnemyUnits | src/main/java/com/example/demo/level/LevelParent.java:229 | Every enemy takes its step once, and the boss stays valid |
| LevelParent.Level.UpdateProjectiles | src/main/java/com/example/demo/level/LevelParent.java:230-231 | Every projectile takes its step once |
| LevelParent.Level.PlanesApart | src/main/java/com/example/demo/level/LevelParent.java:228-229 | The friendly and enemy planes are different objects |
| LevelParent.Level.PairReady | src/main/java/com/example/demo/level/LevelParent.java:259-273 | Each pair of lists handed to handleCollisions is duplicate-free and disjoint |
| LevelParent.Level.HandlePlaneCollisions | src/main/java/com/example/demo/level/LevelParent.java:259-261 | Each friendly plane takes damage per enemy it meets, and every enemy met is destroyed |
| LevelParent.Level.HandleUserProjectileCollisions | src/main/java/com/example/demo/level/LevelParent.java:263-265 | Both the user projectile and the enemy of every meeting take damage |
| LevelParent.Level.HandleEnemyProjectileCollisions | src/main/java/com/example/demo/level/LevelParent.java:267-269 | Both the enemy projectile and the friendly plane of every meeting take damage |
| LevelParent.Level.HandleUserHealthPointCollisions | src/main/java/com/example/demo/level/LevelParent.java:271-273 | LevelTwo applies the capped repair and destroys the pickups met; the other levels repair by their own rule and damage the pickups |
| LevelParent.Level.HandleCappedPickups | src/main/java/com/example/demo/level/LevelTwo.java:130-137 | The user is repaired below PLAYER_INITIAL_HEALTH once per pickup met, and each pickup met is destroyed |
| LevelParent.Level.HandleFriendlyPickupCollisions | src/main/java/com/example/demo/level/LevelThree.java:71-76 | Friendly planes are repaired by the level's rule and each pickup met takes damage |
| LevelParent.Level.HandleEnemyPenetration | src/main/java/com/example/demo/level/LevelParent.java:294-301 | The user takes one hit per enemy past the screen width, and exactly those enemies become marked for removal |
| LevelParent.Level.DestroyExpiredHealthPoints | src/main/java/com/example/demo/level/LevelParent.java:70-78 | Exactly the pickups older than HP_LINGER_SEC whole seconds become destroyed |
| LevelParent.Level.RemoveOffScreenProjectiles | src/main/java/com/example/demo/level/LevelParent.java:379-395 | Both projectile lists lose exactly the projectiles past the right edge |
| LevelParent.Level.UpdateScene | src/main/java/com/example/demo/level/LevelParent.java:124-141 | A tick keeps the level, user and boss valid, never lowers the kills, never takes an ordinary level above its cap, and ends with the notification its outcome calls for; only losing or winning stops the loop |
| LevelParent.Level.SpawnAndMove | src/main/java/com/example/demo/level/LevelParent.java:125-129 | Spawning, moving and firing keep everything valid and leave the kills and the cap alone |
| LevelParent.Level.SpawnUnitsAndPickups | src/main/java/com/example/demo/level/LevelParent.java:125-126 | LevelBoss adds its boss exactly when there are no enemies. The other levels append one configured enemy per spawning draw after the old ones. A pickup is appended exactly when its draw is below the level's chance, never in LevelOne or LevelBoss or at full health. The cap is kept |
| LevelParent.Level.MoveAndFire | src/main/java/com/example/demo/level/LevelParent.java:127-129 | After the actors move, one fresh enemy projectile per firing enemy is appended to the old ones, and the enemy count matches the enemy list |
| LevelParent.Level.FireAndCount | src/main/java/com/example/demo/level/LevelParent.java:128-129 | One fresh enemy projectile per firing enemy is appended to the old ones, and the enemy count matches the enemy list |
| LevelParent.Level.ResolveCollisions | src/main/java/com/example/demo/level/LevelParent.java:130-135 | The collision steps keep everything valid, the kills and the number of enemies |
| LevelParent.Level.PenetrationStep | src/main/java/com/example/demo/level/LevelParent.java:130 | The user takes one hit per enemy past the screen width, each such enemy is marked for removal, and the user and the boss stay valid |
| LevelParent.Level.CollidePairs | src/main/java/com/example/demo/level/LevelParent.java:131-134 | The four collision rules keep the level, user and boss valid and the kills unchanged |
| LevelParent.Level.ShotCollisions | src/main/java/com/example/demo/level/LevelParent.java:131-132 | The two projectile rules keep the level, user and boss valid and leave the pilots' other state alone |
| LevelParent.Level.ContactCollisions | src/main/java/com/example/demo/level/LevelParent.java:133-134 | The two contact rules keep the level, user and boss valid and leave the pilots' other state alone |
| LevelParent.Level.UserProjectileStep | src/main/java/com/example/demo/level/LevelParent.java:131 | User projectiles and enemies end as the level's response to their contacts prescribes, and the pilots' movement state is unchanged |
| LevelParent.Level.EnemyProjectileStep | src/main/java/com/example/demo/level/LevelParent.java:132 | Enemy projectiles and friendly units end as the level's response to their contacts prescribes, and the pilots' movement state is unchanged |
| LevelParent.Level.PlaneStep | src/main/java/com/example/demo/level/LevelParent.java:133 | Friendly and enemy planes end as the level's response to their contacts prescribes, and the pilots' movement state is unchanged |
| LevelParent.Level.PickupStep | src/main/java/com/example/demo/level/LevelParent.java:134 | In LevelTwo the user is repaired up to the cap per pickup touched; elsewhere friendly units and pickups end as the level's response prescribes. The pilots' movement state is unchanged |
| LevelParent.Level.ClearAndCheck | src/main/java/com/example/demo/level/LevelParent.java:136-140 | The kills grow by the destroyed enemies removed, no enemy is added, and the tick ends with the notification its outcome calls for |
| LevelParent.Level.ClearDestroyedAndOffScreen | src/main/java/com/example/demo/level/LevelParent.java:136-137 | The kills grow by exactly the number of destroyed enemies removed, and no enemy is added |
| LevelParent.Level.RedrawAndCheck | src/main/java/com/example/demo/level/LevelParent.java:138-140 | The view follows the level, the outcome does not change, and the notification and loop state are those the outcome calls for |
| LevelParent.Level.RedrawView | src/main/java/com/example/demo/level/LevelParent.java:138-139 | The view shows the user's hearts and kills, and the boss's health and shield when there is a boss. The background scrolls one step, except on LevelBoss |

## Left out

- JavaFX rendering is not modelled. That covers image loading, the `Group` children added and removed, bounding-box rectangles (`isBoundingBoxVisible` is always false), the pause overlay and every widget. `LevelView` and `LevelViewLevelBoss` appear only as the four values the level shows.
- The two `Timeline`s are not modelled as schedulers. The game loop is a `timelineRunning` flag, and one tick is a call of `UpdateScene`. The 400 ms firing timeline that `startFiring` creates is left out: `StartFiring` only sets `isFiring`, and a user projectile is modelled only on the SPACE release.
- Navigation is not modelled: `Controller`, `Main`, the menu and game-over controllers, and the reflection-based loading of the next level. `Observable` becomes the list `notifications`.
- `src/main/java/com/example/demo/UserPlane.java` is an older copy of the actor `UserPlane`. It extends classes that are not part of this model, so it is left out.
- `Math.random`, `Random.nextDouble`, `Collections.shuffle` and `System.currentTimeMillis` are parameters. Where a whole tick needs them, `UpdateScene` requires that enough draws are supplied (`Supplies`).
- Java `int` is unbounded here. Health, kills and score have no 32-bit wrap-around, because no reachable game state comes near it.
- Java `double` is `real` here. Rounding, NaN and infinity are not modelled.
- Aliasing is not modelled. The collision rules and list passes require their lists to be duplicate-free and, for a pair, disjoint. `Level.Valid` shows that every call from `updateScene` meets this, by actor category.
- `handleCollisions` tests which pair of lists it received inside the loop. The model makes that decision once per call, since the lists cannot change during it.
- `Boss.deactivateFire()` is called by the util fire-deactivator rule but does not exist in `Boss.java`. It is modelled as a flag `isFireDeactivated` that nothing reads or clears.
- `LevelOne` overrides a `spawnTransientObjects` that `LevelParent` does not declare, and it defines neither `spawnHealthPoints` nor `repairUserDamage`. The model treats both as doing nothing in LevelOne.
- `LevelTwo.handleUserHealthPointCollisions` overrides a private method and calls a `getHealthPoints` that does not exist. It is modelled as the evident intent: the util pickup rule applied to the user, with cap PLAYER_INITIAL_HEALTH (5), whether or not the user is still in the friendly list. `Controller`'s `addGameScore` does not exist either and is not modelled.
- `TransientActiveActorDestructible` declares a private `getCreatedTimeStamp` that clashes with the public one. Expiry is therefore modelled directly on `createdTimeStampSecond`.
- The `Destructible` and `EnemyVariation` interfaces are carried by the `Actor` class and its `kind` tag, not as separate types.
- Repeated moves: that k calls of `moveHorizontally(d)` move the actor by k·d follows from `Actors.Actor.MoveHorizontally`'s per-call contract. It is not restated as a lemma of its own.
- MiscScoring.KillCounterText: its contract states only the "Kills: " prefix; `MiscScoring.KillCounterTextShowsBoth` proves that both numbers can be read back from the text.
- Collisions.RowHits: its contract states only the bounds of a row's contact count; `Collisions.ContactsMadeEqualContactsReceived` and the Resolve methods tie it to the actors.
- Collisions.ColHits: its contract states only the bounds of a column's contact count, for the same reason.
- Levels.Iterate: its contract states only that the index stays in LEVELS; `Levels.StepsReachBossLevel` states where it ends.
- Filtering.Kept: its contract states only the length; order, membership and the partition are separate lemmas.
- LevelRules.Spawns: its contract states only that the spawning draws come from the draws and spawn; `LevelRules.SpawnsAppend` fixes which ones.
- ActorPasses.EnemyFire: states the number, distinctness, freshness and kind of the new projectiles, but not each one's position; `Actors.Actor.FireProjectile` states that per enemy.
- LevelParent.Level.GenerateEnemyFire: the same as `ActorPasses.EnemyFire`.
- LevelParent.Level.UpdateScene: states the tick's invariants and its notification, not the whole new state. Each step's own method states its effect.
- LevelParent.Level.ResolveCollisions: states only validity, kills and the enemy count. The four Handle methods state each rule's outcome.
- LevelParent.Level.SpawnAndMove: states only validity, the cap and where the new actors come from. SpawnUnitsAndPickups, UpdateActors and MoveAndFire state their effects.
- LevelParent.Level.MoveAndFire: states the new enemy fire and the enemy count, not how each actor moved. `UpdateActors` states the movement; restating it here would leave `SpawnAndMove` too costly to verify.
- LevelParent.Level.CollidePairs: does not restate the four rules' outcomes. `UserProjectileStep`, `EnemyProjectileStep`, `PlaneStep` and `PickupStep` each state one, in the order it calls them. Their composition is not stated, because it is too costly to verify.
- LevelParent.Level.ShotCollisions: does not restate the outcomes of its two rules, for the same reason; `UserProjectileStep` and `EnemyProjectileStep` state them.
- LevelParent.Level.ContactCollisions: does not restate the outcomes of its two rules, for the same reason; `PlaneStep` and `PickupStep` state them.
- LevelParent.Level.ClearDestroyedAndOffScreen: states the kills but not which actors each list loses, because the combined contract is too costly to verify. `RemoveAllDestroyedActors` and `RemoveOffScreenProjectiles` state the two removals.
- LevelParent.Level.ClearAndCheck: states the kills and the outcome but not which actors each list loses, for the same reason.
- Text.ToLower: lowers only A-Z and ignores the locale. Java's `toLowerCase` also lowers non-ASCII letters and can lengthen a string ('İ' becomes two characters), and under a Turkish locale 'I' does not become 'i'. `isMoving` is only called with the lower-case literals "vertical" and "horizontal", so the game's behaviour does not depend on the difference.
