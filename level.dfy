// LevelParent and its subclasses LevelOne, LevelTwo, LevelThree and
// LevelBoss. One class `Level` stands for all five: its constant `kind`
// names the subclass, and each overridden method dispatches on it. A tick of
// the game loop is the method UpdateScene; everything Math.random and the
// system clock would supply is a parameter.

module LevelParent {
  import opened Wrappers
  import opened Damage
  import opened Transient
  import opened BossBehaviour
  import opened Actors
  import opened Collisions
  import opened Levels
  import opened LevelRules
  import opened Filtering
  import opened ActorPasses
  import opened Capped
  import opened Draws

  /** The keys the level reacts to; every other key is `Other`. */
  datatype KeyCode = Up | Down | Left | Right | Space | Escape | Other

  /** The random numbers and clock reading one tick consumes. */
  datatype TickInput = TickInput(
    spawns: seq<SpawnDraw>,     // spawnEnemyUnits, one record per loop iteration
    pickupChance: Draw,         // spawnHealthPoints: the spawn draw
    pickupX: Draw,              // HealthPoint: the two position draws
    pickupY: Draw,
    moveDraws: seq<nat>,        // Boss: the reshuffle of its move pattern
    shieldDraw: Draw,           // Boss: shieldShouldBeActivated
    fireDraws: seq<Draw>,       // generateEnemyFire, one per enemy
    nowMillis: nat)             // System.currentTimeMillis()

  /** The name `getNextLevel` answers at index `i`. */
  function NextLevelName(i: int): string
    requires 0 <= i < |LevelNames|
  {
    if i < |LevelNames| - 1 then LevelNames[i + 1] else ""
  }

  /**
   * makeEnemyPlane(x, y, type) of LevelTwo: type 1 is the heavy enemy of
   * height 100, health 5 and projectile Y offset 40; type 0 and every other
   * type is the default enemy.
   */
  method MakeEnemyPlane(x: real, y: real, enemyType: int, aspect: real) returns (enemy: Actor)
    ensures fresh(enemy) && enemy.Valid()
    ensures enemy.Configured(x, y, EnemyConfigFor(enemyType), aspect)
  {
    if enemyType == 1 {
      var mutator := new EnemyPlaneMutator();
      mutator.SetImageHeight(100);
      mutator.SetProjectileYPositionOffset(40.0);
      mutator.SetInitialHealth(5);
      enemy := new Actor.EnemyPlaneFrom(x, y, mutator, aspect);
    } else {
      enemy := new Actor.EnemyPlane(x, y, aspect);
    }
  }

  /**
   * The enemy one spawning iteration of `spawnEnemyUnits` creates at (x, y):
   * LevelOne's default enemy, LevelTwo's `makeEnemyPlane` of the type its
   * third draw picks, LevelThree's heavy enemy firing at rate 0.02.
   */
  method NewEnemy(k: LevelKind, x: real, y: real, d: SpawnDraw, aspect: real) returns (enemy: Actor)
    requires !k.LevelBoss?
    ensures fresh(enemy) && enemy.Valid()
    ensures enemy.Configured(x, y, SpawnConfig(k, d), aspect)
  {
    if k.LevelOne? {
      enemy := new Actor.EnemyPlane(x, y, aspect);
    } else if k.LevelTwo? {
      if d.variant < EnemySpawnProbability {
        enemy := MakeEnemyPlane(x, y, 1, aspect);
      } else {
        enemy := MakeEnemyPlane(x, y, 0, aspect);
      }
    } else {
      var mutator := new EnemyPlaneMutator();
      mutator.SetImageHeight(100);
      mutator.SetProjectileYPositionOffset(40.0);
      mutator.SetInitialHealth(5);
      mutator.SetFireRate(0.02);
      enemy := new Actor.EnemyPlaneFrom(x, y, mutator, aspect);
    }
  }

  /** The height a spawning draw places its enemy at: `Math.random() * getEnemyMaximumYPosition()`. */
  function SpawnHeight(d: SpawnDraw, maxY: real): real {
    d.y * maxY
  }

  /**
   * The loop of `spawnEnemyUnits` in the three ordinary levels: `n`
   * iterations, the `i`th spawning an enemy at the right edge exactly when
   * its draw is below ENEMY_SPAWN_PROBABILITY, at a height drawn below
   * `maxY`. Returns the new enemies in spawn order.
   */
  method SpawnEnemies(k: LevelKind, draws: seq<SpawnDraw>, n: nat, screenWidth: real, maxY: real, aspect: real)
    returns (spawned: seq<Actor>)
    requires !k.LevelBoss? && n <= |draws|
    ensures var spawning := Spawns(draws[..n]);
      |spawned| == |spawning| && Distinct(spawned) &&
      (forall j :: 0 <= j < |spawned| ==> fresh(spawned[j])) &&
      forall j :: 0 <= j < |spawned| ==>
        spawned[j].Configured(screenWidth, SpawnHeight(spawning[j], maxY), SpawnConfig(k, spawning[j]), aspect)
  {
    spawned := [];
    ghost var plan: seq<SpawnDraw> := [];
    var i := 0;
    while i < n
      invariant 0 <= i <= n && plan == Spawns(draws[..i])
      invariant |spawned| == |plan| && Distinct(spawned)
      invariant forall j :: 0 <= j < |spawned| ==>
        fresh(spawned[j]) &&
        spawned[j].Configured(screenWidth, SpawnHeight(plan[j], maxY), SpawnConfig(k, plan[j]), aspect)
    {
      assert draws[..i + 1] == draws[..i] + [draws[i]];
      SpawnsAppend(draws[..i], draws[i]);
      spawned, plan := SpawnStep(k, draws[i], screenWidth, maxY, aspect, spawned, plan);
      i := i + 1;
    }
  }

  /** One iteration of the spawn loop: an enemy for the draw `d` when its spawn draw is below the probability. */
  method SpawnStep(k: LevelKind, d: SpawnDraw, screenWidth: real, maxY: real, aspect: real,
                   spawned: seq<Actor>, ghost plan: seq<SpawnDraw>)
    returns (spawned': seq<Actor>, ghost plan': seq<SpawnDraw>)
    requires !k.LevelBoss? && |spawned| == |plan| && Distinct(spawned)
    requires forall j :: 0 <= j < |spawned| ==>
      spawned[j].Configured(screenWidth, SpawnHeight(plan[j], maxY), SpawnConfig(k, plan[j]), aspect)
    ensures plan' == plan + if d.spawn < EnemySpawnProbability then [d] else []
    ensures |spawned'| == |plan'| && Distinct(spawned')
    ensures forall j :: 0 <= j < |spawned'| ==> if j < |spawned| then spawned'[j] == spawned[j] else fresh(spawned'[j])
    ensures forall j :: 0 <= j < |spawned'| ==>
      spawned'[j].Configured(screenWidth, SpawnHeight(plan'[j], maxY), SpawnConfig(k, plan'[j]), aspect)
  {
    spawned', plan' := spawned, plan;
    if d.spawn < EnemySpawnProbability {
      var enemy := NewEnemy(k, screenWidth, SpawnHeight(d, maxY), d, aspect);
      DistinctConcat(spawned, [enemy]);
      spawned' := spawned + [enemy];
      plan' := plan + [d];
    }
  }

  /** The list pairs `handleCollisions` is called with. */
  predicate CollisionPair(first: ActorList, second: ActorList) {
    (first == UserProjectiles && second == EnemyUnits) ||
    (first == EnemyProjectiles && second == FriendlyUnits) ||
    (first == FriendlyUnits && second == EnemyUnits) ||
    (first == FriendlyUnits && second == HealthPoints)
  }

  /**
   * repairUserDamage of each level: LevelThree repairs while the user's
   * health is below PLAYER_INITIAL_HEALTH; LevelBoss overrides it with a
   * method that does nothing, and LevelOne and LevelTwo define none.
   */
  function RepairUserDamage(k: LevelKind): Response {
    if k.LevelThree? then RepairBelow(Some(PlayerInitialHealth)) else RepairBelow(None)
  }

  /**
   * What `handleCollisions(actors1, actors2)` does to the two actors of an
   * intersecting pair: friendly against enemy damages the friendly and
   * destroys the enemy, friendly against pickup repairs the friendly and
   * damages the pickup, any other pair damages both.
   */
  function PairResponses(k: LevelKind, first: ActorList, second: ActorList): (Response, Response) {
    if first == FriendlyUnits && second == EnemyUnits then (TakeDamage, Destroy)
    else if first == FriendlyUnits && second == HealthPoints then (RepairUserDamage(k), TakeDamage)
    else (TakeDamage, TakeDamage)
  }

  /** A pickup never takes the user above PLAYER_INITIAL_HEALTH, however many it meets in a tick. */
  lemma PickupsKeepHealthAtMostInitial(k: LevelKind, first: ActorList, second: ActorList, m: Mode, v: Vitals, n: nat)
    requires first == FriendlyUnits && second == HealthPoints && v.health <= PlayerInitialHealth
    ensures Undergo(PairResponses(k, first, second).0, m, v, n).health <= PlayerInitialHealth
  {
    if k.LevelThree? {
      CappedIncrementsStayBelowCap(v.health, PlayerInitialHealth, n);
    }
  }

  /** Two lists a collision rule may run over: neither holds an actor twice, and they share none. */
  predicate PairReadyFor(xs: seq<Actor>, ys: seq<Actor>) {
    Distinct(xs) && Distinct(ys) && Disjoint(xs, ys)
  }

  /**
   * The nested loop of handleCollisions, and what it keeps: the actors `a`
   * and `b` keep everything but health and the destroyed flag, whether or
   * not it visits them.
   */
  method ResolveKeepingRests(xs: seq<Actor>, ys: seq<Actor>, r1: Response, r2: Response, a: Actor, b: Actor,
                             selector: LevelSelector?)
    requires Distinct(xs) && Distinct(ys) && Disjoint(xs, ys)
    requires r1.RepairBelow? ==> forall k :: 0 <= k < |xs| ==> xs[k].kind.IsFighter()
    requires r2.RepairBelow? ==> forall k :: 0 <= k < |ys| ==> ys[k].kind.IsFighter()
    modifies xs, ys
    ensures Resolved(xs, ys, r1, r2, old(SnapshotOf(xs)), old(SnapshotOf(ys)))
    ensures a.Rest() == old(a.Rest()) && b.Rest() == old(b.Rest())
    ensures selector != null ==> unchanged(selector)
  {
    ghost var s, t := SnapshotOf(xs), SnapshotOf(ys);
    ghost var aRest, bRest := a.Rest(), b.Rest();
    var _ := ResolvePairs(xs, ys, r1, r2);
    ResolvedKeepsRest(xs, ys, r1, r2, s, t, a, aRest);
    ResolvedKeepsRest(xs, ys, r1, r2, s, t, b, bRest);
  }

  class Level {
    const kind: LevelKind
    const screenHeight: real
    const screenWidth: real
    const enemyMaximumYPosition: real
    const aspects: ImageAspects
    const user: Actor
    // LevelBoss: its one boss; null in the other levels.
    const boss: Actor?
    // LevelOne, LevelTwo, LevelThree: the selector placed at the level itself; null in LevelBoss.
    const levelSelector: LevelSelector?

    var friendlyUnits: seq<Actor>
    var enemyUnits: seq<Actor>
    var userProjectiles: seq<Actor>
    var enemyProjectiles: seq<Actor>
    var healthPoints: seq<Actor>
    var currentNumberOfEnemies: int
    var isFiring: bool
    var isPaused: bool
    // Whether the game-loop Timeline is RUNNING.
    var timelineRunning: bool
    var backgroundPosition: real
    // Every LevelNotification sent to the observers, oldest first.
    var notifications: seq<LevelNotification>
    // What the LevelView shows.
    var heartsShown: int
    var killsShown: int
    var bossHealthShown: int
    var shieldShown: bool

    /** The list a name stands for. */
    function List(which: ActorList): seq<Actor>
      reads this
    {
      match which
      case FriendlyUnits => friendlyUnits
      case EnemyUnits => enemyUnits
      case UserProjectiles => userProjectiles
      case EnemyProjectiles => enemyProjectiles
      case HealthPoints => healthPoints
    }

    ghost predicate ListsValid()
      reads this`friendlyUnits, this`enemyUnits, this`userProjectiles, this`enemyProjectiles, this`healthPoints
    {
      Holds(FriendlyUnits, user, boss, friendlyUnits) && Holds(EnemyUnits, user, boss, enemyUnits) &&
      Holds(UserProjectiles, user, boss, userProjectiles) && Holds(EnemyProjectiles, user, boss, enemyProjectiles) &&
      Holds(HealthPoints, user, boss, healthPoints)
    }

    /** The fixed parts of the level and what its lists hold. */
    ghost predicate Valid()
      reads this`friendlyUnits, this`enemyUnits, this`userProjectiles, this`enemyProjectiles, this`healthPoints,
            this`backgroundPosition, levelSelector
    {
      user.kind.UserPlaneKind? &&
      (kind.LevelBoss? <==> boss != null) &&
      (boss != null ==> boss.kind.BossKind?) &&
      (!kind.LevelBoss? ==> levelSelector != null && levelSelector.Valid()) &&
      ListsValid() &&
      (screenWidth > 0.0 ==> -screenWidth < backgroundPosition <= 0.0)
    }

    /** The user plane, and the boss on LevelBoss. */
    function Pilots(): (r: seq<Actor>)
      ensures |r| > 0 && r[0] == user && (boss != null ==> |r| > 1 && r[1] == boss)
    {
      if boss != null then [user, boss] else [user]
    }

    /** The user stays inside its bounds; the boss keeps its balanced pattern, counters, shield and bounds. */
    ghost predicate ActorsValid()
      reads Pilots()`translateX, Pilots()`translateY, Pilots()`movePattern, Pilots()`isShielded,
            Pilots()`framesWithShieldActivated, Pilots()`indexOfCurrentMove, Pilots()`consecutiveMovesInSameDirection
    {
      user.Valid() && (boss != null ==> boss.Valid())
    }

    /** Actors of different categories are different objects. */
    lemma ListsDisjoint()
      requires Valid()
      ensures Disjoint(friendlyUnits, enemyUnits) && Disjoint(userProjectiles, enemyUnits)
      ensures Disjoint(enemyProjectiles, friendlyUnits) && Disjoint(friendlyUnits, healthPoints)
      ensures Disjoint(enemyProjectiles, enemyUnits) && Disjoint(userProjectiles, enemyProjectiles)
      ensures Disjoint(userProjectiles, friendlyUnits)
      ensures Disjoint([user], healthPoints)
      ensures user !in enemyUnits && user !in userProjectiles && user !in enemyProjectiles && user !in healthPoints
      ensures boss != null ==> boss !in friendlyUnits && boss !in userProjectiles && boss !in healthPoints
      ensures boss != null ==> boss !in enemyProjectiles
    {
      forall p, q | 0 <= p < |enemyProjectiles| && 0 <= q < |enemyUnits|
        ensures enemyProjectiles[p] != enemyUnits[q]
      {
        assert enemyProjectiles[p] in enemyProjectiles && enemyUnits[q] in enemyUnits;
      }
      forall p, q | 0 <= p < |userProjectiles| && 0 <= q < |enemyProjectiles|
        ensures userProjectiles[p] != enemyProjectiles[q]
      {
        assert userProjectiles[p] in userProjectiles && enemyProjectiles[q] in enemyProjectiles;
      }
      forall p, q | 0 <= p < |userProjectiles| && 0 <= q < |enemyUnits|
        ensures userProjectiles[p] != enemyUnits[q]
      {
        assert userProjectiles[p] in userProjectiles && enemyUnits[q] in enemyUnits;
      }
      forall p, q | 0 <= p < |friendlyUnits| && 0 <= q < |enemyUnits|
        ensures friendlyUnits[p] != enemyUnits[q]
      {
        assert enemyUnits[q] in enemyUnits;
      }
    }

    /**
     * LevelParent(...) with the subclass constructor: the user at
     * PLAYER_INITIAL_HEALTH is the only friendly unit, every other list is
     * empty, nothing runs yet; LevelBoss builds its boss (whose move pattern
     * is shuffled by `bossDraws`), the other levels a selector placed at
     * their own class name.
     */
    constructor (kind: LevelKind, screenHeight: real, screenWidth: real, aspects: ImageAspects, bossDraws: seq<nat>)
      requires kind.LevelBoss? ==> ShuffleDraws(bossDraws, PatternSize)
      ensures this.kind == kind && this.screenHeight == screenHeight && this.screenWidth == screenWidth
      ensures enemyMaximumYPosition == screenHeight - ScreenHeightAdjustment
      ensures fresh(user) && user.health == PlayerInitialHealth && user.numberOfKills == 0 && !user.isDestroyed
      ensures friendlyUnits == [user] && enemyUnits == [] && userProjectiles == [] && enemyProjectiles == []
      ensures healthPoints == [] && currentNumberOfEnemies == 0
      ensures !isFiring && !isPaused && !timelineRunning && backgroundPosition == 0.0 && notifications == []
      ensures kind.LevelBoss? ==> fresh(boss) && boss.health == BossHealth && !boss.isDestroyed
      ensures !kind.LevelBoss? ==> fresh(levelSelector) && levelSelector.Valid() && levelSelector.GetCurrentLevel() == ClassName(kind)
      ensures Valid() && ActorsValid()
    {
      this.kind := kind;
      this.screenHeight := screenHeight;
      this.screenWidth := screenWidth;
      this.aspects := aspects;
      enemyMaximumYPosition := screenHeight - ScreenHeightAdjustment;
      user := new Actor.UserPlane(PlayerInitialHealth, aspects.userPlane);
      if kind.LevelBoss? {
        boss := new Actor.Boss(aspects.bossPlane, bossDraws);
        levelSelector := null;
      } else {
        boss := null;
        var selector := new LevelSelector();
        var placed := selector.SetCurrentLevel(ClassName(kind));
        levelSelector := selector;
      }
      enemyUnits, userProjectiles, enemyProjectiles, healthPoints := [], [], [], [];
      currentNumberOfEnemies := 0;
      isFiring, isPaused, timelineRunning := false, false, false;
      backgroundPosition := 0.0;
      notifications := [];
      heartsShown, killsShown, bossHealthShown, shieldShown := PlayerInitialHealth, 0, 0, false;
      friendlyUnits := [user];
    }

    /** startGame(): the game loop runs. */
    method StartGame()
      modifies `timelineRunning
      ensures timelineRunning
    {
      timelineRunning := true;
    }

    /** stopGame(): the game loop stops. */
    method StopGame()
      modifies `timelineRunning
      ensures !timelineRunning
    {
      timelineRunning := false;
    }

    /**
     * pauseGame(): pauses a running game loop and resumes one that is not
     * running, so a second call undoes the first.
     */
    method PauseGame()
      modifies `isPaused, `timelineRunning
      ensures isPaused == old(timelineRunning) && timelineRunning == !old(timelineRunning)
      ensures isPaused == !timelineRunning
    {
      if timelineRunning {
        isPaused := true;
        timelineRunning := false;
      } else {
        isPaused := false;
        timelineRunning := true;
      }
    }

    /**
     * The key-pressed handler. While paused only ESCAPE is acted on, and it
     * resumes; otherwise the arrows steer the user, SPACE starts firing unless
     * it already is, and ESCAPE pauses.
     */
    method KeyPressed(code: KeyCode)
      requires Valid()
      modifies `isPaused, `timelineRunning, `isFiring,
               user`verticalVelocityMultiplier, user`horizontalVelocityMultiplier
      ensures Valid()
      ensures old(isPaused) && code != Escape ==>
        isPaused && timelineRunning == old(timelineRunning) && isFiring == old(isFiring) &&
        user.verticalVelocityMultiplier == old(user.verticalVelocityMultiplier) &&
        user.horizontalVelocityMultiplier == old(user.horizontalVelocityMultiplier)
      ensures old(isPaused) ==> (isFiring == old(isFiring) &&
        user.verticalVelocityMultiplier == old(user.verticalVelocityMultiplier) &&
        user.horizontalVelocityMultiplier == old(user.horizontalVelocityMultiplier))
      ensures code == Escape ==> isPaused == old(timelineRunning) && timelineRunning == !old(timelineRunning)
      ensures code != Escape ==> isPaused == old(isPaused) && timelineRunning == old(timelineRunning)
      ensures !old(isPaused) ==>
        isFiring == (old(isFiring) || code == Space) &&
        user.verticalVelocityMultiplier ==
          (if code == Up then -1 else if code == Down then 1 else old(user.verticalVelocityMultiplier)) &&
        user.horizontalVelocityMultiplier ==
          (if code == Left then -1 else if code == Right then 1 else old(user.horizontalVelocityMultiplier))
    {
      if isPaused {
        if code == Escape {
          PauseGame();
        }
        return;
      }
      if code == Up { user.MoveUp(); }
      if code == Down { user.MoveDown(); }
      if code == Left { user.MoveLeft(); }
      if code == Right { user.MoveRight(); }
      if code == Space && !isFiring { StartFiring(); }
      if code == Escape { PauseGame(); }
    }

    /**
     * The key-released handler, ignored while paused: an arrow stops the
     * user, SPACE fires one projectile and stops firing.
     */
    method KeyReleased(code: KeyCode)
      requires Valid()
      modifies `userProjectiles, `isFiring, user`verticalVelocityMultiplier, user`horizontalVelocityMultiplier
      ensures Valid()
      ensures old(isPaused) ==> (userProjectiles == old(userProjectiles) && isFiring == old(isFiring) &&
        user.verticalVelocityMultiplier == old(user.verticalVelocityMultiplier) &&
        user.horizontalVelocityMultiplier == old(user.horizontalVelocityMultiplier))
      ensures !old(isPaused) && code in {Up, Down, Left, Right} ==>
        user.verticalVelocityMultiplier == 0 && user.horizontalVelocityMultiplier == 0
      ensures !old(isPaused) && code == Space ==>
        !isFiring && |userProjectiles| == |old(userProjectiles)| + 1 &&
        userProjectiles[..|old(userProjectiles)|] == old(userProjectiles) &&
        fresh(userProjectiles[|old(userProjectiles)|])
      ensures code != Space ==> userProjectiles == old(userProjectiles) && isFiring == old(isFiring)
    {
      if isPaused {
        return;
      }
      if code == Up || code == Down || code == Left || code == Right {
        user.Stop();
      }
      if code == Space {
        FireProjectile();
        StopFiring();
      }
    }

    /** startFiring(): the 400 ms firing timeline itself is not modelled. */
    method StartFiring()
      modifies `isFiring
      ensures isFiring
    {
      isFiring := true;
    }

    /** stopFiring() */
    method StopFiring()
      modifies `isFiring
      ensures !isFiring
    {
      isFiring := false;
    }

    /** fireProjectile(): the user's new projectile joins the user projectiles. */
    method FireProjectile()
      requires Valid()
      modifies `userProjectiles
      ensures Valid()
      ensures |userProjectiles| == |old(userProjectiles)| + 1
      ensures userProjectiles[..|old(userProjectiles)|] == old(userProjectiles)
      ensures var p := userProjectiles[|old(userProjectiles)|];
        fresh(p) && p.kind == UserProjectileKind &&
        p.Placed(user.ProjectileXPosition(60.0), user.ProjectileYPosition(10.0), 50, aspects.userFire)
    {
      var projectile := user.FireProjectile(0.0, aspects);
      userProjectiles := userProjectiles + [projectile];
    }

    /** goToNextLevel(name): tells the observers to load `levelName`. */
    method GoToNextLevel(levelName: string)
      modifies `notifications
      ensures notifications == old(notifications) + [LevelNotification(levelName, NextLevel)]
    {
      notifications := notifications + [LevelNotification(levelName, NextLevel)];
    }

    /** winGame() */
    method WinGame()
      modifies `timelineRunning, `notifications
      ensures !timelineRunning && notifications == old(notifications) + [LevelNotification("", Action.WinGame)]
    {
      StopGame();
      notifications := notifications + [LevelNotification("", Action.WinGame)];
    }

    /** loseGame() */
    method LoseGame()
      modifies `timelineRunning, `notifications
      ensures !timelineRunning && notifications == old(notifications) + [LevelNotification("", Action.LoseGame)]
    {
      StopGame();
      notifications := notifications + [LevelNotification("", Action.LoseGame)];
    }

    /** The outcome `checkIfGameOver` reaches in the current state. */
    ghost function Outcome(): Outcome
      reads user, boss
    {
      GameOutcome(kind, user.isDestroyed, user.numberOfKills, boss != null && boss.isDestroyed)
    }

    /**
     * checkIfGameOver() of each level. Losing stops the loop and sends
     * LOSE_GAME, winning stops it and sends WIN_GAME, advancing sends
     * NEXT_LEVEL with the selector's next level (and moves the selector on);
     * otherwise nothing happens.
     */
    method CheckIfGameOver()
      requires Valid()
      modifies `timelineRunning, `notifications, levelSelector
      ensures Valid()
      ensures old(Outcome()) == Lose ==>
        !timelineRunning && notifications == old(notifications) + [LevelNotification("", Action.LoseGame)]
      ensures old(Outcome()) == Win ==>
        !timelineRunning && notifications == old(notifications) + [LevelNotification("", Action.WinGame)]
      ensures old(Outcome()) == Advance ==>
        levelSelector != null && timelineRunning == old(timelineRunning) &&
        notifications == old(notifications) +
          [LevelNotification(NextLevelName(old(levelSelector.currentLevelIndex)), NextLevel)]
      ensures old(Outcome()) == Continue ==>
        timelineRunning == old(timelineRunning) && notifications == old(notifications)
      ensures old(Outcome()) != Advance && levelSelector != null ==>
        levelSelector.currentLevelIndex == old(levelSelector.currentLevelIndex)
    {
      if user.isDestroyed {
        LoseGame();
      } else if kind.LevelBoss? {
        if boss.isDestroyed {
          WinGame();
        }
      } else if user.numberOfKills >= KillsToAdvance(kind) {
        var next := levelSelector.GetNextLevel();
        GoToNextLevel(next);
      }
    }

    /**
     * updateLevelView(): hearts and kills follow the user; LevelBoss also
     * shows the boss's health and the shield exactly while the boss is
     * shielded.
     */
    method UpdateLevelView()
      requires Valid()
      modifies `heartsShown, `killsShown, `bossHealthShown, `shieldShown
      ensures Valid()
      ensures heartsShown == user.health && killsShown == user.numberOfKills
      ensures boss != null ==> bossHealthShown == boss.health && shieldShown == boss.isShielded
      ensures boss == null ==> bossHealthShown == old(bossHealthShown) && shieldShown == old(shieldShown)
    {
      heartsShown := user.health;
      killsShown := user.numberOfKills;
      if kind.LevelBoss? {
        bossHealthShown := boss.health;
        if boss.isShielded {
          shieldShown := true;
        } else {
          shieldShown := false;
        }
      }
    }

    /** animateBackground(): LevelBoss overrides it with a method that does nothing. */
    method AnimateBackground()
      requires Valid()
      modifies `backgroundPosition
      ensures Valid()
      ensures backgroundPosition ==
        if kind.LevelBoss? then old(backgroundPosition) else BackgroundStep(old(backgroundPosition), screenWidth)
    {
      if !kind.LevelBoss? {
        backgroundPosition := backgroundPosition - BackgroundScrollSpeed;
        if backgroundPosition <= -screenWidth {
          backgroundPosition := 0.0;
        }
      }
    }

    /** updateNumberOfEnemies() */
    method UpdateNumberOfEnemies()
      modifies `currentNumberOfEnemies
      ensures currentNumberOfEnemies == |enemyUnits|
    {
      currentNumberOfEnemies := |enemyUnits|;
    }

    /**
     * removeAllDestroyedActors(): the five lists in turn lose their destroyed
     * and removed actors; only the enemy list's destroyed actors score kills.
     */
    method RemoveAllDestroyedActors()
      requires Valid()
      modifies `friendlyUnits, `enemyUnits, `userProjectiles, `enemyProjectiles, `healthPoints, user`numberOfKills
      ensures Valid()
      ensures friendlyUnits == old(Kept(friendlyUnits, RemovalFlags(friendlyUnits)))
      ensures enemyUnits == old(Kept(enemyUnits, RemovalFlags(enemyUnits)))
      ensures userProjectiles == old(Kept(userProjectiles, RemovalFlags(userProjectiles)))
      ensures enemyProjectiles == old(Kept(enemyProjectiles, RemovalFlags(enemyProjectiles)))
      ensures healthPoints == old(Kept(healthPoints, RemovalFlags(healthPoints)))
      ensures user.numberOfKills == old(user.numberOfKills) + old(CountTrue(DestroyedFlags(enemyUnits)))
    {
      RemoveDestroyedUnits();
      RemovalFlagsKept(userProjectiles);
      RemovalFlagsKept(enemyProjectiles);
      RemovalFlagsKept(healthPoints);
      RemoveDestroyedShotsAndPickups();
    }

    /** The first two lists of removeDestroyedActors(): friendly units, then enemies (scoring kills). */
    method RemoveDestroyedUnits()
      requires Valid()
      modifies `friendlyUnits, `enemyUnits, user`numberOfKills
      ensures Valid()
      ensures friendlyUnits == old(Kept(friendlyUnits, RemovalFlags(friendlyUnits)))
      ensures enemyUnits == old(Kept(enemyUnits, RemovalFlags(enemyUnits)))
      ensures user.numberOfKills == old(user.numberOfKills) + old(CountTrue(DestroyedFlags(enemyUnits)))
    {
      ghost var friendlyFlags := RemovalFlags(friendlyUnits);
      ghost var enemyFlags := RemovalFlags(enemyUnits);
      ghost var destroyed := DestroyedFlags(enemyUnits);
      KeptHolds(FriendlyUnits, user, boss, friendlyUnits, friendlyFlags);
      KeptHolds(EnemyUnits, user, boss, enemyUnits, enemyFlags);
      var friendlies := RemoveDestroyed(friendlyUnits, friendlyFlags);
      var enemies := RemoveDestroyedEnemies(user, enemyUnits, enemyFlags, destroyed);
      friendlyUnits, enemyUnits := friendlies, enemies;
    }

    /** The last three lists of removeDestroyedActors(): user projectiles, enemy projectiles, health points. */
    method RemoveDestroyedShotsAndPickups()
      requires Valid()
      modifies `userProjectiles, `enemyProjectiles, `healthPoints
      ensures Valid()
      ensures userProjectiles == old(Kept(userProjectiles, RemovalFlags(userProjectiles)))
      ensures enemyProjectiles == old(Kept(enemyProjectiles, RemovalFlags(enemyProjectiles)))
      ensures healthPoints == old(Kept(healthPoints, RemovalFlags(healthPoints)))
    {
      ghost var userShotFlags := RemovalFlags(userProjectiles);
      ghost var enemyShotFlags := RemovalFlags(enemyProjectiles);
      ghost var pickupFlags := RemovalFlags(healthPoints);
      KeptHolds(UserProjectiles, user, boss, userProjectiles, userShotFlags);
      KeptHolds(EnemyProjectiles, user, boss, enemyProjectiles, enemyShotFlags);
      KeptHolds(HealthPoints, user, boss, healthPoints, pickupFlags);
      var userShots := RemoveDestroyed(userProjectiles, userShotFlags);
      var enemyShots := RemoveDestroyed(enemyProjectiles, enemyShotFlags);
      var pickups := RemoveDestroyed(healthPoints, pickupFlags);
      userProjectiles, enemyProjectiles, healthPoints := userShots, enemyShots, pickups;
    }

    /**
     * spawnEnemyUnits() of each level. The three ordinary levels run their
     * spawn loop TOTAL_ENEMIES minus the current enemy count times and append
     * the enemies it creates, at the right edge of the screen; LevelBoss adds
     * its boss exactly when the enemy list is empty. Either way the enemy
     * count does not rise above the level's cap.
     */
    method SpawnEnemyUnits(draws: seq<SpawnDraw>)
      requires Valid()
      requires SpawnIterations(kind, |enemyUnits|) <= |draws|
      modifies `enemyUnits
      ensures Valid()
      ensures kind.LevelBoss? ==> enemyUnits == if old(enemyUnits) == [] then [boss] else old(enemyUnits)
      ensures !kind.LevelBoss? ==>
        var spawning := Spawns(draws[..SpawnIterations(kind, |old(enemyUnits)|)]);
        |enemyUnits| == |old(enemyUnits)| + |spawning| && enemyUnits[..|old(enemyUnits)|] == old(enemyUnits) &&
        forall j :: 0 <= j < |spawning| ==>
          fresh(enemyUnits[|old(enemyUnits)| + j]) &&
          enemyUnits[|old(enemyUnits)| + j].Configured(screenWidth, SpawnHeight(spawning[j], enemyMaximumYPosition),
            SpawnConfig(kind, spawning[j]), aspects.enemyPlane)
      ensures |old(enemyUnits)| <= TotalEnemies(kind) ==> |enemyUnits| <= TotalEnemies(kind)
      ensures |old(enemyUnits)| >= TotalEnemies(kind) ==> enemyUnits == old(enemyUnits)
      ensures forall k :: 0 <= k < |enemyUnits| ==>
        enemyUnits[k] in old(enemyUnits) || fresh(enemyUnits[k]) || enemyUnits[k] == boss
    {
      if kind.LevelBoss? {
        SpawnBossUnit();
      } else {
        ghost var before := enemyUnits;
        ghost var spawned := SpawnOrdinaryUnits(draws);
        forall k | 0 <= k < |enemyUnits|
          ensures enemyUnits[k] in before || fresh(enemyUnits[k])
        {
          if k < |before| {
            assert enemyUnits[k] == before[k];
          } else {
            assert enemyUnits[k] == spawned[k - |before|];
          }
        }
        assert enemyUnits[..|before|] == before;
      }
    }

    /** LevelBoss.spawnEnemyUnits(): the boss joins the enemy units whenever there are none. */
    method SpawnBossUnit()
      requires Valid() && kind.LevelBoss?
      modifies `enemyUnits
      ensures Valid()
      ensures enemyUnits == if old(enemyUnits) == [] then [boss] else old(enemyUnits)
    {
      if |enemyUnits| == 0 {
        enemyUnits := [boss];
      }
    }

    /**
     * spawnEnemyUnits() of LevelOne, LevelTwo and LevelThree: one spawn
     * draw per missing enemy, and the enemies it yields join the enemy units.
     */
    method SpawnOrdinaryUnits(draws: seq<SpawnDraw>) returns (ghost spawned: seq<Actor>)
      requires Valid() && !kind.LevelBoss?
      requires SpawnIterations(kind, |enemyUnits|) <= |draws|
      modifies `enemyUnits
      ensures Valid()
      ensures var spawning := Spawns(draws[..SpawnIterations(kind, |old(enemyUnits)|)]);
        enemyUnits == old(enemyUnits) + spawned && |spawned| == |spawning| &&
        forall j :: 0 <= j < |spawning| ==>
          fresh(spawned[j]) &&
          spawned[j].Configured(screenWidth, SpawnHeight(spawning[j], enemyMaximumYPosition),
            SpawnConfig(kind, spawning[j]), aspects.enemyPlane)
      ensures |old(enemyUnits)| <= TotalEnemies(kind) ==> |enemyUnits| <= TotalEnemies(kind)
      ensures |old(enemyUnits)| >= TotalEnemies(kind) ==> enemyUnits == old(enemyUnits)
    {
      var currentNumberOfEnemies := |enemyUnits|;
      var iterations := SpawnIterations(kind, currentNumberOfEnemies);
      var newEnemies := SpawnEnemies(kind, draws, iterations, screenWidth, enemyMaximumYPosition, aspects.enemyPlane);
      SpawnStaysWithinCap(kind, currentNumberOfEnemies, draws[..iterations]);
      DistinctConcat(enemyUnits, newEnemies);
      forall k | 0 <= k < |newEnemies|
        ensures newEnemies[k].kind.EnemyPlaneKind?
      {
      }
      AddEnemyUnits(newEnemies);
      spawned := newEnemies;
    }

    /** addEnemyUnit(enemy) for each of `spawned`, in turn. */
    method AddEnemyUnits(spawned: seq<Actor>)
      requires Valid() && Distinct(enemyUnits + spawned)
      requires forall k :: 0 <= k < |spawned| ==> spawned[k].kind.EnemyPlaneKind?
      modifies `enemyUnits
      ensures Valid() && enemyUnits == old(enemyUnits) + spawned
    {
      AppendedEnemiesHold(user, boss, enemyUnits, spawned);
      enemyUnits := enemyUnits + spawned;
    }

    /**
     * spawnHealthPoints() of each level: a pickup appears, at the position
     * its two draws give and stamped with the current second, exactly when
     * the spawn draw falls below the level's chance for the user's health.
     */
    method SpawnHealthPoints(chance: Draw, xDraw: Draw, yDraw: Draw, nowMillis: nat)
      requires Valid()
      modifies `healthPoints
      ensures Valid()
      ensures !SpawnsHealthPoint(kind, user.health, chance) ==> healthPoints == old(healthPoints)
      ensures kind.LevelOne? || kind.LevelBoss? || user.health >= PlayerInitialHealth ==>
        healthPoints == old(healthPoints)
      ensures SpawnsHealthPoint(kind, user.health, chance) ==>
        |healthPoints| == |old(healthPoints)| + 1 && healthPoints[..|old(healthPoints)|] == old(healthPoints) &&
        var point := healthPoints[|old(healthPoints)|];
        fresh(point) && point.kind == HealthPointKind(SecondsOf(nowMillis)) &&
        point.Placed(PickupX(xDraw), PickupY(yDraw), 30, aspects.heart)
    {
      if SpawnsHealthPoint(kind, user.health, chance) {
        var healthPoint := new Actor.HealthPoint(xDraw, yDraw, nowMillis, aspects.heart);
        DistinctConcat(healthPoints, [healthPoint]);
        healthPoints := healthPoints + [healthPoint];
      }
    }

    /**
     * generateEnemyFire(): every enemy whose draw says it fires adds its
     * projectile to the enemy projectiles, in enemy order.
     */
    method GenerateEnemyFire(draws: seq<Draw>)
      requires Valid() && |enemyUnits| <= |draws|
      modifies `enemyProjectiles
      ensures Valid()
      ensures |enemyProjectiles| == |old(enemyProjectiles)| + CountTrue(FireFlags(enemyUnits, draws))
      ensures enemyProjectiles[..|old(enemyProjectiles)|] == old(enemyProjectiles)
      ensures forall j :: |old(enemyProjectiles)| <= j < |enemyProjectiles| ==> fresh(enemyProjectiles[j])
    {
      forall k | 0 <= k < |enemyUnits|
        ensures enemyUnits[k].kind.EnemyPlaneKind? || enemyUnits[k].kind.BossKind?
      {
        assert enemyUnits[k] in enemyUnits;
      }
      var projectiles := EnemyFire(enemyUnits, draws, aspects);
      DistinctConcat(enemyProjectiles, projectiles);
      enemyProjectiles := enemyProjectiles + projectiles;
    }

    /**
     * updateActors(): every friendly unit, enemy unit, user projectile and
     * enemy projectile takes its step, once each; the pickups do not move.
     */
    method UpdateActors(moveDraws: seq<nat>, shieldDraw: Draw)
      requires Valid() && ActorsValid()
      requires kind.LevelBoss? ==> ShuffleDraws(moveDraws, PatternSize)
      modifies friendlyUnits, enemyUnits, userProjectiles, enemyProjectiles
      ensures Valid() && ActorsValid()
      ensures forall k :: 0 <= k < |friendlyUnits| ==>
        UpdatedFrom(friendlyUnits[k], old(friendlyUnits[k].Rest()), old(friendlyUnits[k].Condition()), moveDraws, shieldDraw)
      ensures forall k :: 0 <= k < |enemyUnits| ==>
        UpdatedFrom(enemyUnits[k], old(enemyUnits[k].Rest()), old(enemyUnits[k].Condition()), moveDraws, shieldDraw)
      ensures forall k :: 0 <= k < |userProjectiles| ==>
        UpdatedFrom(userProjectiles[k], old(userProjectiles[k].Rest()), old(userProjectiles[k].Condition()), moveDraws, shieldDraw)
      ensures forall k :: 0 <= k < |enemyProjectiles| ==>
        UpdatedFrom(enemyProjectiles[k], old(enemyProjectiles[k].Rest()), old(enemyProjectiles[k].Condition()), moveDraws, shieldDraw)
      ensures user.numberOfKills == old(user.numberOfKills)
    {
      ListsDisjoint();
      UpdatePlanes(moveDraws, shieldDraw);
      UpdateProjectiles(moveDraws, shieldDraw);
    }

    /** The planes' half of updateActors(). */
    method UpdatePlanes(moveDraws: seq<nat>, shieldDraw: Draw)
      requires Valid() && ActorsValid()
      requires kind.LevelBoss? ==> ShuffleDraws(moveDraws, PatternSize)
      modifies friendlyUnits, enemyUnits
      ensures ActorsValid()
      ensures forall k :: 0 <= k < |friendlyUnits| ==>
        UpdatedFrom(friendlyUnits[k], old(friendlyUnits[k].Rest()), old(friendlyUnits[k].Condition()), moveDraws, shieldDraw)
      ensures forall k :: 0 <= k < |enemyUnits| ==>
        UpdatedFrom(enemyUnits[k], old(enemyUnits[k].Rest()), old(enemyUnits[k].Condition()), moveDraws, shieldDraw)
      ensures user.numberOfKills == old(user.numberOfKills)
    {
      PlanesApart();
      UpdateFriendlyUnits(moveDraws, shieldDraw);
      UpdateEnemyUnits(moveDraws, shieldDraw);
    }

    /** friendlyUnits.forEach(plane -> plane.updateActor()): the list holds at most the user. */
    method UpdateFriendlyUnits(moveDraws: seq<nat>, shieldDraw: Draw)
      requires Valid() && user.Valid()
      modifies friendlyUnits
      ensures user.Valid()
      ensures forall k :: 0 <= k < |friendlyUnits| ==>
        UpdatedFrom(friendlyUnits[k], old(friendlyUnits[k].Rest()), old(friendlyUnits[k].Condition()), moveDraws, shieldDraw)
      ensures user.numberOfKills == old(user.numberOfKills)
    {
      if friendlyUnits == [user] {
        UpdateAll(friendlyUnits, moveDraws, shieldDraw);
      }
    }

    /** enemyUnits.forEach(enemy -> enemy.updateActor()). */
    method UpdateEnemyUnits(moveDraws: seq<nat>, shieldDraw: Draw)
      requires Valid() && (boss != null ==> boss.Valid()) && user !in enemyUnits
      requires kind.LevelBoss? ==> ShuffleDraws(moveDraws, PatternSize)
      modifies enemyUnits
      ensures boss != null ==> boss.Valid()
      ensures forall k :: 0 <= k < |enemyUnits| ==>
        UpdatedFrom(enemyUnits[k], old(enemyUnits[k].Rest()), old(enemyUnits[k].Condition()), moveDraws, shieldDraw)
      ensures user.numberOfKills == old(user.numberOfKills)
    {
      forall k | 0 <= k < |enemyUnits|
        ensures enemyUnits[k].Valid() && (enemyUnits[k].kind.BossKind? ==> ShuffleDraws(moveDraws, PatternSize))
      {
      }
      UpdateAll(enemyUnits, moveDraws, shieldDraw);
      if boss != null && boss in enemyUnits {
        var k :| 0 <= k < |enemyUnits| && enemyUnits[k] == boss;
      }
    }

    /** The friendly and the enemy planes are different objects. */
    lemma PlanesApart()
      requires Valid()
      ensures Disjoint(friendlyUnits, enemyUnits) && user !in enemyUnits
      ensures boss != null ==> boss !in friendlyUnits
    {
      forall p, q | 0 <= p < |friendlyUnits| && 0 <= q < |enemyUnits|
        ensures friendlyUnits[p] != enemyUnits[q]
      {
      }
    }

    /** The projectiles' half of updateActors(). */
    method UpdateProjectiles(moveDraws: seq<nat>, shieldDraw: Draw)
      requires Valid()
      modifies userProjectiles, enemyProjectiles
      ensures forall k :: 0 <= k < |userProjectiles| ==>
        UpdatedFrom(userProjectiles[k], old(userProjectiles[k].Rest()), old(userProjectiles[k].Condition()), moveDraws, shieldDraw)
      ensures forall k :: 0 <= k < |enemyProjectiles| ==>
        UpdatedFrom(enemyProjectiles[k], old(enemyProjectiles[k].Rest()), old(enemyProjectiles[k].Condition()), moveDraws, shieldDraw)
      ensures user.numberOfKills == old(user.numberOfKills)
    {
      ListsDisjoint();
      forall k | 0 <= k < |userProjectiles|
        ensures userProjectiles[k].Valid()
      {
        assert userProjectiles[k] in userProjectiles;
      }
      UpdateAll(userProjectiles, moveDraws, shieldDraw);
      forall k | 0 <= k < |enemyProjectiles|
        ensures enemyProjectiles[k].Valid()
      {
        assert enemyProjectiles[k] in enemyProjectiles;
      }
      UpdateAll(enemyProjectiles, moveDraws, shieldDraw);
    }

    /** Changing nothing but actors keeps the level valid. */
    twostate lemma ValidWhileActorsChange()
      requires old(Valid()) && unchanged(this) && (levelSelector != null ==> unchanged(levelSelector))
      ensures Valid()
    {
    }

    /** The user plane and the boss keep everything but their health and destroyed flags. */
    twostate predicate KeepsPilots()
      reads this, user, boss
    {
      user.Rest() == old(user.Rest()) && (boss != null ==> boss.Rest() == old(boss.Rest()))
    }

    /** What a collision rule leaves alone keeps the user and the boss valid. */
    twostate lemma PilotsStayValid()
      requires old(ActorsValid()) && KeepsPilots()
      ensures ActorsValid()
    {
      assert user.ValidRest(old(user.Rest()));
      user.ValidIsValidRest();
      if boss != null {
        assert boss.ValidRest(old(boss.Rest()));
        boss.ValidIsValidRest();
      }
    }

    /** Marking the boss for removal keeps the user and the boss valid, as a collision rule does. */
    twostate predicate KeepsPilotsButMarks()
      reads this, user, boss
    {
      user.Rest() == old(user.Rest()) &&
      (boss != null ==> boss.Rest() == old(boss.Rest()).(shouldRemove := boss.shouldRemove))
    }

    twostate lemma MarkedPilotsStayValid()
      requires old(ActorsValid()) && KeepsPilotsButMarks()
      ensures ActorsValid()
    {
      assert user.ValidRest(old(user.Rest()));
      user.ValidIsValidRest();
      if boss != null {
        assert boss.ValidRest(old(boss.Rest()));
        boss.ValidIsValidRest();
      }
    }

    /** The lists of the pair `first`, `second` satisfy PairReadyFor; the friendly units are fighters. */
    lemma PairReady(first: ActorList, second: ActorList)
      requires Valid() && CollisionPair(first, second)
      ensures PairReadyFor(List(first), List(second))
      ensures forall k :: 0 <= k < |friendlyUnits| ==> friendlyUnits[k].kind.IsFighter()
      ensures user !in healthPoints
    {
      ListsDisjoint();
    }

    /** handlePlaneCollisions(): handleCollisions(friendlyUnits, enemyUnits). */
    method HandlePlaneCollisions()
      requires PairReadyFor(friendlyUnits, enemyUnits)
      modifies friendlyUnits, enemyUnits
      ensures unchanged(this) && KeepsPilots() && (levelSelector != null ==> unchanged(levelSelector))
      ensures var (r1, r2) := PairResponses(kind, FriendlyUnits, EnemyUnits);
        Resolved(friendlyUnits, enemyUnits, r1, r2, old(SnapshotOf(friendlyUnits)), old(SnapshotOf(enemyUnits)))
    {
      var (r1, r2) := PairResponses(kind, FriendlyUnits, EnemyUnits);
      ResolveKeepingRests(friendlyUnits, enemyUnits, r1, r2, user, if boss != null then boss else user, levelSelector);
    }

    /** handleUserProjectileCollisions(): handleCollisions(userProjectiles, enemyUnits). */
    method HandleUserProjectileCollisions()
      requires PairReadyFor(userProjectiles, enemyUnits)
      modifies userProjectiles, enemyUnits
      ensures unchanged(this) && KeepsPilots() && (levelSelector != null ==> unchanged(levelSelector))
      ensures var (r1, r2) := PairResponses(kind, UserProjectiles, EnemyUnits);
        Resolved(userProjectiles, enemyUnits, r1, r2, old(SnapshotOf(userProjectiles)), old(SnapshotOf(enemyUnits)))
    {
      var (r1, r2) := PairResponses(kind, UserProjectiles, EnemyUnits);
      ResolveKeepingRests(userProjectiles, enemyUnits, r1, r2, user, if boss != null then boss else user, levelSelector);
    }

    /** handleEnemyProjectileCollisions(): handleCollisions(enemyProjectiles, friendlyUnits). */
    method HandleEnemyProjectileCollisions()
      requires PairReadyFor(enemyProjectiles, friendlyUnits)
      modifies enemyProjectiles, friendlyUnits
      ensures unchanged(this) && KeepsPilots() && (levelSelector != null ==> unchanged(levelSelector))
      ensures var (r1, r2) := PairResponses(kind, EnemyProjectiles, FriendlyUnits);
        Resolved(enemyProjectiles, friendlyUnits, r1, r2, old(SnapshotOf(enemyProjectiles)), old(SnapshotOf(friendlyUnits)))
    {
      var (r1, r2) := PairResponses(kind, EnemyProjectiles, FriendlyUnits);
      ResolveKeepingRests(enemyProjectiles, friendlyUnits, r1, r2, user, if boss != null then boss else user, levelSelector);
    }

    /**
     * handleUserHealthPointCollisions(): LevelTwo replaces the rule with
     * the one of util.CollisionHandler on its user, capped at
     * PLAYER_INITIAL_HEALTH; the other levels run handleCollisions on the
     * friendly units and the pickups.
     */
    method HandleUserHealthPointCollisions()
      requires PairReadyFor(friendlyUnits, healthPoints) && user.kind.UserPlaneKind? && user !in healthPoints
      requires forall k :: 0 <= k < |friendlyUnits| ==> friendlyUnits[k].kind.IsFighter()
      modifies user, friendlyUnits, healthPoints
      ensures unchanged(this) && KeepsPilots() && (levelSelector != null ==> unchanged(levelSelector))
      ensures kind.LevelTwo? ==>
        Resolved([user], healthPoints, RepairBelow(Some(PlayerInitialHealth)), Destroy,
                 old(SnapshotOf([user])), old(SnapshotOf(healthPoints)))
      ensures !kind.LevelTwo? ==> var (r1, r2) := PairResponses(kind, FriendlyUnits, HealthPoints);
        Resolved(friendlyUnits, healthPoints, r1, r2, old(SnapshotOf(friendlyUnits)), old(SnapshotOf(healthPoints)))
    {
      if kind.LevelTwo? {
        HandleCappedPickups();
      } else {
        HandleFriendlyPickupCollisions();
      }
    }

    /** LevelTwo's handleUserHealthPointCollisions(): util.CollisionHandler's pickup rule on the user. */
    method HandleCappedPickups()
      requires Disjoint([user], healthPoints) && Distinct(healthPoints) && user.kind.UserPlaneKind?
      modifies user, healthPoints
      ensures unchanged(this) && KeepsPilots() && (levelSelector != null ==> unchanged(levelSelector))
      ensures Resolved([user], healthPoints, RepairBelow(Some(PlayerInitialHealth)), Destroy,
                       old(SnapshotOf([user])), old(SnapshotOf(healthPoints)))
    {
      ghost var s, t := SnapshotOf([user]), SnapshotOf(healthPoints);
      ghost var userRest, bossRest := user.Rest(), if boss != null then boss.Rest() else user.Rest();
      Collisions.HandleUserHealthPointCollisions(PlayerInitialHealth, user, healthPoints);
      ResolvedKeepsRest([user], healthPoints, RepairBelow(Some(PlayerInitialHealth)), Destroy, s, t, user, userRest);
      if boss != null {
        ResolvedKeepsRest([user], healthPoints, RepairBelow(Some(PlayerInitialHealth)), Destroy, s, t, boss, bossRest);
      }
    }

    /** LevelParent's handleUserHealthPointCollisions(): handleCollisions(friendlyUnits, healthPoints). */
    method HandleFriendlyPickupCollisions()
      requires PairReadyFor(friendlyUnits, healthPoints)
      requires forall k :: 0 <= k < |friendlyUnits| ==> friendlyUnits[k].kind.IsFighter()
      modifies friendlyUnits, healthPoints
      ensures unchanged(this) && KeepsPilots() && (levelSelector != null ==> unchanged(levelSelector))
      ensures var (r1, r2) := PairResponses(kind, FriendlyUnits, HealthPoints);
        Resolved(friendlyUnits, healthPoints, r1, r2, old(SnapshotOf(friendlyUnits)), old(SnapshotOf(healthPoints)))
    {
      var (r1, r2) := PairResponses(kind, FriendlyUnits, HealthPoints);
      ResolveKeepingRests(friendlyUnits, healthPoints, r1, r2, user, if boss != null then boss else user, levelSelector);
    }

    /**
     * handleEnemyPenetration(): each enemy past the screen width (in either
     * direction) costs the user one hit and is marked for removal.
     */
    method HandleEnemyPenetration()
      requires Valid()
      modifies user`health, user`isDestroyed, enemyUnits`shouldRemove
      ensures Valid()
      ensures user.Condition() ==
        Hits(Fighter, old(user.Condition()), old(CountTrue(PenetrationFlags(enemyUnits, screenWidth))))
      ensures forall k :: 0 <= k < |enemyUnits| ==>
        enemyUnits[k].shouldRemove == old(enemyUnits[k].shouldRemove || Penetrated(enemyUnits[k].translateX, screenWidth))
      ensures KeepsPilotsButMarks()
    {
      PlanesApart();
      PenetrationKeepingRests(user, enemyUnits, screenWidth, if boss != null then boss else user);
    }

    /**
     * destroyExpiredHealthPoints(): with `nowMillis` the clock reading, every
     * pickup that has lingered more than HP_LINGER_SEC whole seconds is
     * destroyed.
     */
    method DestroyExpiredHealthPoints(nowMillis: nat)
      requires Valid()
      modifies healthPoints
      ensures Valid()
      ensures forall k :: 0 <= k < |healthPoints| ==>
        healthPoints[k].Rest() == old(healthPoints[k].Rest()) &&
        healthPoints[k].health == old(healthPoints[k].health) &&
        healthPoints[k].isDestroyed ==
          (old(healthPoints[k].isDestroyed) || Expired(healthPoints[k].CreatedTimeStamp(), HpLingerSec, SecondsOf(nowMillis)))
    {
      ListsDisjoint();
      var currentTimeSec := nowMillis / 1000;
      ExpirePass(healthPoints, currentTimeSec);
    }

    /**
     * removeOffScreenProjectiles(): both projectile lists lose the
     * projectiles whose translateX exceeds the screen width.
     */
    method RemoveOffScreenProjectiles()
      requires Valid()
      modifies `userProjectiles, `enemyProjectiles
      ensures Valid()
      ensures userProjectiles == old(Kept(userProjectiles, OffScreenFlags(userProjectiles, screenWidth)))
      ensures enemyProjectiles == old(Kept(enemyProjectiles, OffScreenFlags(enemyProjectiles, screenWidth)))
    {
      ghost var userDrop := OffScreenFlags(userProjectiles, screenWidth);
      ghost var enemyDrop := OffScreenFlags(enemyProjectiles, screenWidth);
      KeptHolds(UserProjectiles, user, boss, userProjectiles, userDrop);
      KeptHolds(EnemyProjectiles, user, boss, enemyProjectiles, enemyDrop);
      var remainingUser := RemoveOffScreen(userProjectiles, screenWidth, userDrop);
      var remainingEnemy := RemoveOffScreen(enemyProjectiles, screenWidth, enemyDrop);
      userProjectiles := remainingUser;
      enemyProjectiles := remainingEnemy;
    }

    /** What one tick needs of its draws: enough of them, and a reshuffle the boss can use. */
    predicate Supplies(input: TickInput)
      reads this
    {
      SpawnIterations(kind, |enemyUnits|) <= |input.spawns| &&
      |enemyUnits| + |input.spawns| < |input.fireDraws| &&
      (kind.LevelBoss? ==> ShuffleDraws(input.moveDraws, PatternSize))
    }

    /**
     * updateScene(), the body of the game loop's KeyFrame: spawning and
     * moving, then the collision rules, then removal, the view, the
     * background and the game-over check, in the order LevelParent runs
     * them. The level and its user and boss stay valid, the user's kills
     * never go down, an ordinary level never goes above its enemy cap, and
     * the tick ends in the notification its outcome calls for: only losing
     * or winning stops the loop.
     */
    method UpdateScene(input: TickInput)
      requires Valid() && ActorsValid() && Supplies(input)
      modifies this, user, boss, levelSelector, friendlyUnits, enemyUnits, userProjectiles, enemyProjectiles, healthPoints
      ensures Valid() && ActorsValid()
      ensures user.numberOfKills >= old(user.numberOfKills)
      ensures |old(enemyUnits)| <= TotalEnemies(kind) ==> |enemyUnits| <= TotalEnemies(kind)
      ensures Outcome() == Lose ==>
        !timelineRunning && notifications == old(notifications) + [LevelNotification("", Action.LoseGame)]
      ensures Outcome() == Win ==>
        !timelineRunning && notifications == old(notifications) + [LevelNotification("", Action.WinGame)]
      ensures Outcome() == Advance ==>
        levelSelector != null && timelineRunning == old(timelineRunning) &&
        notifications == old(notifications) +
          [LevelNotification(NextLevelName(old(levelSelector.currentLevelIndex)), NextLevel)]
      ensures Outcome() == Continue ==>
        timelineRunning == old(timelineRunning) && notifications == old(notifications)
    {
      SpawnAndMove(input);
      ResolveCollisions(input.nowMillis);
      assert notifications == old(notifications) && timelineRunning == old(timelineRunning);
      assert levelSelector != null ==> levelSelector.currentLevelIndex == old(levelSelector.currentLevelIndex);
      ClearAndCheck();
    }

    /** spawnEnemyUnits() to updateNumberOfEnemies(): the first five steps of updateScene(). */
    method SpawnAndMove(input: TickInput)
      requires Valid() && ActorsValid() && Supplies(input)
      modifies `enemyUnits, `healthPoints, `enemyProjectiles, `currentNumberOfEnemies
      modifies friendlyUnits, enemyUnits, userProjectiles, enemyProjectiles, boss
      ensures Valid() && ActorsValid()
      ensures user.numberOfKills == old(user.numberOfKills)
      ensures |old(enemyUnits)| <= TotalEnemies(kind) ==> |enemyUnits| <= TotalEnemies(kind)
      ensures forall k :: 0 <= k < |enemyUnits| ==>
        enemyUnits[k] in old(enemyUnits) || fresh(enemyUnits[k]) || enemyUnits[k] == boss
      ensures forall k :: 0 <= k < |enemyProjectiles| ==>
        enemyProjectiles[k] in old(enemyProjectiles) || fresh(enemyProjectiles[k])
      ensures forall k :: 0 <= k < |healthPoints| ==> healthPoints[k] in old(healthPoints) || fresh(healthPoints[k])
    {
      SpawnUnitsAndPickups(input);
      MoveAndFire(input.moveDraws, input.shieldDraw, input.fireDraws);
    }

    /** updateActors(), generateEnemyFire() and updateNumberOfEnemies(): the actors move, then the enemies fire. */
    method MoveAndFire(moveDraws: seq<nat>, shieldDraw: Draw, fireDraws: seq<Draw>)
      requires Valid() && ActorsValid() && |enemyUnits| <= |fireDraws|
      requires kind.LevelBoss? ==> ShuffleDraws(moveDraws, PatternSize)
      modifies `enemyProjectiles, `currentNumberOfEnemies
      modifies friendlyUnits, enemyUnits, userProjectiles, enemyProjectiles
      ensures Valid() && ActorsValid()
      ensures user.numberOfKills == old(user.numberOfKills)
      ensures currentNumberOfEnemies == |enemyUnits|
      ensures |enemyProjectiles| == |old(enemyProjectiles)| + CountTrue(FireFlags(enemyUnits, fireDraws))
      ensures enemyProjectiles[..|old(enemyProjectiles)|] == old(enemyProjectiles)
      ensures forall j :: |old(enemyProjectiles)| <= j < |enemyProjectiles| ==> fresh(enemyProjectiles[j])
    {
      UpdateActors(moveDraws, shieldDraw);
      FireAndCount(fireDraws);
    }

    /**
     * spawnEnemyUnits() and spawnHealthPoints(): the enemies and the pickup
     * each of them adds, and no actor already in the level changes.
     */
    method SpawnUnitsAndPickups(input: TickInput)
      requires Valid() && Supplies(input)
      modifies `enemyUnits, `healthPoints
      ensures Valid()
      ensures kind.LevelBoss? ==> enemyUnits == if old(enemyUnits) == [] then [boss] else old(enemyUnits)
      ensures !kind.LevelBoss? ==>
        var spawning := Spawns(input.spawns[..SpawnIterations(kind, |old(enemyUnits)|)]);
        |enemyUnits| == |old(enemyUnits)| + |spawning| && enemyUnits[..|old(enemyUnits)|] == old(enemyUnits) &&
        forall j :: 0 <= j < |spawning| ==>
          fresh(enemyUnits[|old(enemyUnits)| + j]) &&
          enemyUnits[|old(enemyUnits)| + j].Configured(screenWidth, SpawnHeight(spawning[j], enemyMaximumYPosition),
            SpawnConfig(kind, spawning[j]), aspects.enemyPlane)
      ensures !SpawnsHealthPoint(kind, user.health, input.pickupChance) ==> healthPoints == old(healthPoints)
      ensures kind.LevelOne? || kind.LevelBoss? || user.health >= PlayerInitialHealth ==>
        healthPoints == old(healthPoints)
      ensures SpawnsHealthPoint(kind, user.health, input.pickupChance) ==>
        |healthPoints| == |old(healthPoints)| + 1 && healthPoints[..|old(healthPoints)|] == old(healthPoints) &&
        var point := healthPoints[|old(healthPoints)|];
        fresh(point) && point.kind == HealthPointKind(SecondsOf(input.nowMillis)) &&
        point.Placed(PickupX(input.pickupX), PickupY(input.pickupY), 30, aspects.heart)
      ensures |old(enemyUnits)| <= TotalEnemies(kind) ==> |enemyUnits| <= TotalEnemies(kind)
      ensures |enemyUnits| < |input.fireDraws|
      ensures forall k :: 0 <= k < |enemyUnits| ==>
        enemyUnits[k] in old(enemyUnits) || fresh(enemyUnits[k]) || enemyUnits[k] == boss
      ensures forall k :: 0 <= k < |healthPoints| ==> healthPoints[k] in old(healthPoints) || fresh(healthPoints[k])
    {
      SpawnEnemyUnits(input.spawns);
      ghost var pickups := healthPoints;
      SpawnHealthPoints(input.pickupChance, input.pickupX, input.pickupY, input.nowMillis);
      forall k | 0 <= k < |pickups|
        ensures healthPoints[k] in pickups
      {
        assert healthPoints[..|pickups|][k] == healthPoints[k];
      }
    }

    /** generateEnemyFire() and updateNumberOfEnemies(): the new enemy fire, then the enemy count. */
    method FireAndCount(draws: seq<Draw>)
      requires Valid() && |enemyUnits| <= |draws|
      modifies `enemyProjectiles, `currentNumberOfEnemies
      ensures Valid()
      ensures currentNumberOfEnemies == |enemyUnits|
      ensures |enemyProjectiles| == |old(enemyProjectiles)| + CountTrue(FireFlags(enemyUnits, draws))
      ensures enemyProjectiles[..|old(enemyProjectiles)|] == old(enemyProjectiles)
      ensures forall j :: |old(enemyProjectiles)| <= j < |enemyProjectiles| ==> fresh(enemyProjectiles[j])
      ensures forall k :: 0 <= k < |enemyProjectiles| ==>
        enemyProjectiles[k] in old(enemyProjectiles) || fresh(enemyProjectiles[k])
    {
      ghost var before := enemyProjectiles;
      GenerateEnemyFire(draws);
      forall k | 0 <= k < |before|
        ensures enemyProjectiles[k] in before
      {
        assert enemyProjectiles[..|before|][k] == enemyProjectiles[k];
      }
      UpdateNumberOfEnemies();
    }

    /** handleEnemyPenetration() to destroyExpiredHealthPoints(): the collision steps of updateScene(). */
    method ResolveCollisions(nowMillis: nat)
      requires Valid() && ActorsValid()
      modifies user, friendlyUnits, enemyUnits, userProjectiles, enemyProjectiles, healthPoints
      ensures Valid() && ActorsValid()
      ensures user.numberOfKills == old(user.numberOfKills)
      ensures |enemyUnits| == |old(enemyUnits)|
    {
      PenetrationStep();
      CollidePairs();
      ListsDisjoint();
      DestroyExpiredHealthPoints(nowMillis);
    }

    /** handleEnemyPenetration(), with the user and the boss still valid afterwards. */
    method PenetrationStep()
      requires Valid() && ActorsValid()
      modifies user`health, user`isDestroyed, enemyUnits`shouldRemove
      ensures Valid() && ActorsValid()
      ensures user.numberOfKills == old(user.numberOfKills)
      ensures user.Condition() ==
        Hits(Fighter, old(user.Condition()), old(CountTrue(PenetrationFlags(enemyUnits, screenWidth))))
      ensures forall k :: 0 <= k < |enemyUnits| ==>
        enemyUnits[k].shouldRemove == old(enemyUnits[k].shouldRemove || Penetrated(enemyUnits[k].translateX, screenWidth))
    {
      HandleEnemyPenetration();
      MarkedPilotsStayValid();
    }

    /** The four collision rules of updateScene(), in its order. */
    method CollidePairs()
      requires Valid() && ActorsValid()
      modifies user, friendlyUnits, enemyUnits, userProjectiles, enemyProjectiles, healthPoints
      ensures Valid() && ActorsValid()
      ensures user.numberOfKills == old(user.numberOfKills)
    {
      ShotCollisions();
      ContactCollisions();
    }

    /** The two projectile rules of updateScene(): user projectiles on enemies, enemy projectiles on friendlies. */
    method ShotCollisions()
      requires Valid() && ActorsValid()
      modifies userProjectiles, enemyUnits, enemyProjectiles, friendlyUnits
      ensures Valid() && ActorsValid() && KeepsPilots()
    {
      UserProjectileStep();
      EnemyProjectileStep();
    }

    /** The two contact rules of updateScene(): planes on planes, then friendlies on pickups. */
    method ContactCollisions()
      requires Valid() && ActorsValid()
      modifies user, friendlyUnits, enemyUnits, healthPoints
      ensures Valid() && ActorsValid() && KeepsPilots()
    {
      PlaneStep();
      PickupStep();
    }

    /** handleUserProjectileCollisions(), with the level, the user and the boss still valid afterwards. */
    method UserProjectileStep()
      requires Valid() && ActorsValid()
      modifies userProjectiles, enemyUnits
      ensures Valid() && ActorsValid() && KeepsPilots()
      ensures var (r1, r2) := PairResponses(kind, UserProjectiles, EnemyUnits);
        Resolved(userProjectiles, enemyUnits, r1, r2, old(SnapshotOf(userProjectiles)), old(SnapshotOf(enemyUnits)))
    {
      PairReady(UserProjectiles, EnemyUnits);
      HandleUserProjectileCollisions();
      ValidWhileActorsChange();
      PilotsStayValid();
    }

    /** handleEnemyProjectileCollisions(), with the level, the user and the boss still valid afterwards. */
    method EnemyProjectileStep()
      requires Valid() && ActorsValid()
      modifies enemyProjectiles, friendlyUnits
      ensures Valid() && ActorsValid() && KeepsPilots()
      ensures var (r1, r2) := PairResponses(kind, EnemyProjectiles, FriendlyUnits);
        Resolved(enemyProjectiles, friendlyUnits, r1, r2, old(SnapshotOf(enemyProjectiles)), old(SnapshotOf(friendlyUnits)))
    {
      PairReady(EnemyProjectiles, FriendlyUnits);
      HandleEnemyProjectileCollisions();
      ValidWhileActorsChange();
      PilotsStayValid();
    }

    /** handlePlaneCollisions(), with the level, the user and the boss still valid afterwards. */
    method PlaneStep()
      requires Valid() && ActorsValid()
      modifies friendlyUnits, enemyUnits
      ensures Valid() && ActorsValid() && KeepsPilots()
      ensures var (r1, r2) := PairResponses(kind, FriendlyUnits, EnemyUnits);
        Resolved(friendlyUnits, enemyUnits, r1, r2, old(SnapshotOf(friendlyUnits)), old(SnapshotOf(enemyUnits)))
    {
      PairReady(FriendlyUnits, EnemyUnits);
      HandlePlaneCollisions();
      PilotsStayValid();
      ValidWhileActorsChange();
    }

    /** handleUserHealthPointCollisions(), with the level, the user and the boss still valid afterwards. */
    method PickupStep()
      requires Valid() && ActorsValid()
      modifies user, friendlyUnits, healthPoints
      ensures Valid() && ActorsValid() && KeepsPilots()
      ensures kind.LevelTwo? ==>
        Resolved([user], healthPoints, RepairBelow(Some(PlayerInitialHealth)), Destroy,
                 old(SnapshotOf([user])), old(SnapshotOf(healthPoints)))
      ensures !kind.LevelTwo? ==> var (r1, r2) := PairResponses(kind, FriendlyUnits, HealthPoints);
        Resolved(friendlyUnits, healthPoints, r1, r2, old(SnapshotOf(friendlyUnits)), old(SnapshotOf(healthPoints)))
    {
      PairReady(FriendlyUnits, HealthPoints);
      HandleUserHealthPointCollisions();
      ValidWhileActorsChange();
      PilotsStayValid();
    }

    /** removeAllDestroyedActors() to checkIfGameOver(): the last five steps of updateScene(). */
    method ClearAndCheck()
      requires Valid() && ActorsValid()
      modifies this, user`numberOfKills, levelSelector
      ensures Valid() && ActorsValid()
      ensures user.numberOfKills == old(user.numberOfKills) + old(CountTrue(DestroyedFlags(enemyUnits)))
      ensures |enemyUnits| <= |old(enemyUnits)|
      ensures Outcome() == Lose ==>
        !timelineRunning && notifications == old(notifications) + [LevelNotification("", Action.LoseGame)]
      ensures Outcome() == Win ==>
        !timelineRunning && notifications == old(notifications) + [LevelNotification("", Action.WinGame)]
      ensures Outcome() == Advance ==>
        levelSelector != null && timelineRunning == old(timelineRunning) &&
        notifications == old(notifications) +
          [LevelNotification(NextLevelName(old(levelSelector.currentLevelIndex)), NextLevel)]
      ensures Outcome() == Continue ==>
        timelineRunning == old(timelineRunning) && notifications == old(notifications)
    {
      ClearDestroyedAndOffScreen();
      RedrawAndCheck();
    }

    /** updateLevelView() to checkIfGameOver(): the view follows the level, then the outcome is acted on. */
    method RedrawAndCheck()
      requires Valid() && ActorsValid()
      modifies `heartsShown, `killsShown, `bossHealthShown, `shieldShown, `backgroundPosition,
               `timelineRunning, `notifications, levelSelector
      ensures Valid() && ActorsValid()
      ensures heartsShown == user.health && killsShown == user.numberOfKills
      ensures boss != null ==> bossHealthShown == boss.health && shieldShown == boss.isShielded
      ensures boss == null ==> bossHealthShown == old(bossHealthShown) && shieldShown == old(shieldShown)
      ensures backgroundPosition ==
        if kind.LevelBoss? then old(backgroundPosition) else BackgroundStep(old(backgroundPosition), screenWidth)
      ensures Outcome() == old(Outcome())
      ensures Outcome() == Lose ==>
        !timelineRunning && notifications == old(notifications) + [LevelNotification("", Action.LoseGame)]
      ensures Outcome() == Win ==>
        !timelineRunning && notifications == old(notifications) + [LevelNotification("", Action.WinGame)]
      ensures Outcome() == Advance ==>
        levelSelector != null && timelineRunning == old(timelineRunning) &&
        notifications == old(notifications) +
          [LevelNotification(NextLevelName(old(levelSelector.currentLevelIndex)), NextLevel)]
      ensures Outcome() == Continue ==>
        timelineRunning == old(timelineRunning) && notifications == old(notifications)
    {
      RedrawView();
      assert notifications == old(notifications) && timelineRunning == old(timelineRunning);
      ghost var outcome := Outcome();
      ghost var index := if levelSelector != null then levelSelector.currentLevelIndex else 0;
      assert levelSelector != null ==> index == old(levelSelector.currentLevelIndex);
      CheckIfGameOver();
      assert Outcome() == outcome;
    }

    /** updateLevelView() and animateBackground(): only what is shown changes. */
    method RedrawView()
      requires Valid()
      modifies `heartsShown, `killsShown, `bossHealthShown, `shieldShown, `backgroundPosition
      ensures Valid()
      ensures heartsShown == user.health && killsShown == user.numberOfKills
      ensures boss != null ==> bossHealthShown == boss.health && shieldShown == boss.isShielded
      ensures boss == null ==> bossHealthShown == old(bossHealthShown) && shieldShown == old(shieldShown)
      ensures backgroundPosition ==
        if kind.LevelBoss? then old(backgroundPosition) else BackgroundStep(old(backgroundPosition), screenWidth)
    {
      UpdateLevelView();
      AnimateBackground();
    }

    /**
     * removeAllDestroyedActors() and removeOffScreenProjectiles(): the five
     * lists lose their removed actors and the projectile lists then their
     * off-screen ones; only the kills change on the user.
     */
    method ClearDestroyedAndOffScreen()
      requires Valid() && ActorsValid()
      modifies `friendlyUnits, `enemyUnits, `userProjectiles, `enemyProjectiles, `healthPoints, user`numberOfKills
      ensures Valid() && ActorsValid()
      ensures user.numberOfKills == old(user.numberOfKills) + old(CountTrue(DestroyedFlags(enemyUnits)))
      ensures |enemyUnits| <= |old(enemyUnits)|
    {
      RemoveAllDestroyedActors();
      RemoveOffScreenProjectiles();
      user.StaysValid();
      if boss != null {
        boss.StaysValid();
      }
    }
  }
}
