// The actor hierarchy: ActiveActor, ActiveActorDestructible, FighterPlane,
// UserPlane, EnemyPlane (with EnemyPlaneMutator), Boss, the three projectiles,
// HealthPoint and FireDeactivator.
//
// Java spreads these over a class hierarchy; here one class `Actor` carries a
// constant `kind` that names the concrete Java class and holds the data that
// class fixes at construction. Each Java override becomes one branch of a
// method that dispatches on `kind`.

module Actors {
  import opened Wrappers
  import opened Geometry
  import opened Damage
  import opened BossBehaviour
  import opened Transient
  import opened Text
  import opened Draws

  /**
   * Width over height of each image file. An actor's fitWidth is this ratio
   * times its image height.
   */
  datatype ImageAspects = ImageAspects(
    userPlane: real, enemyPlane: real, bossPlane: real,
    userFire: real, enemyFire: real, fireball: real, heart: real, noFire: real)

  /** The four final fields an EnemyPlane copies out of its mutator. */
  datatype EnemySettings = EnemySettings(
    horizontalVelocity: int, projectileXOffset: real, projectileYOffset: real, fireRate: real)

  /** Everything an EnemyPlaneMutator holds. */
  datatype EnemyConfig = EnemyConfig(
    imageName: string, imageHeight: int, initialHealth: int, settings: EnemySettings)

  /** The field initialisers of EnemyPlaneMutator. */
  function DefaultEnemyConfig(): EnemyConfig {
    EnemyConfig("enemyplane.png", 50, 1, EnemySettings(-6, -50.0, 10.0, 0.015))
  }

  /** The concrete Java class of an actor, with what that class fixes at construction. */
  datatype Kind =
    | UserPlaneKind
    | EnemyPlaneKind(settings: EnemySettings)
    | BossKind
    | UserProjectileKind
    | EnemyProjectileKind
    | BossProjectileKind
    | HealthPointKind(createdTimeStamp: int)
    | FireDeactivatorKind(createdTimeStampSecond: int, lingerTimeSecond: int)
  {
    predicate IsFighter() {
      UserPlaneKind? || EnemyPlaneKind? || BossKind?
    }

    predicate IsProjectile() {
      UserProjectileKind? || EnemyProjectileKind? || BossProjectileKind?
    }

    /** The stationary pickups, whose motion methods are empty. */
    predicate IsPickup() {
      HealthPointKind? || FireDeactivatorKind?
    }

    /** The actors that move by a fixed horizontal velocity on every update. */
    predicate Cruises() {
      EnemyPlaneKind? || IsProjectile()
    }
  }

  /** HORIZONTAL_VELOCITY of the actors that cruise. */
  function HorizontalVelocity(k: Kind): int {
    match k
    case EnemyPlaneKind(settings) => settings.horizontalVelocity
    case UserProjectileKind => 15
    case EnemyProjectileKind => -10
    case BossProjectileKind => -15
    case _ => 0
  }

  // UserPlane bounds; in screen coordinates the "upper" bound is the smaller one.
  const UserYUpperBound: real := 20.0
  const UserYLowerBound: real := 650.0
  const UserXUpperBound: real := 0.0
  const UserXLowerBound: real := 600.0
  const UserVelocity := 13

  // Boss vertical bounds.
  const BossYUpperBound: real := -10.0
  const BossYLowerBound: real := 600.0

  // Where pickups appear, relative to the user plane's bounds.
  const PickupXUpperOffset: real := 300.0
  const PickupYUpperOffset: real := 100.0

  predicate InUserBounds(x: real, y: real) {
    UserXUpperBound <= x <= UserXLowerBound && UserYUpperBound <= y <= UserYLowerBound
  }

  predicate InBossBounds(y: real) {
    BossYUpperBound <= y <= BossYLowerBound
  }

  /** The X coordinate a pickup is given for the draw `r`. */
  function PickupX(r: real): real {
    RandomPosition(UserXLowerBound, UserXUpperBound + PickupXUpperOffset, r)
  }

  /** The Y coordinate a pickup is given for the draw `r`. */
  function PickupY(r: real): real {
    RandomPosition(UserYLowerBound, UserYUpperBound + PickupYUpperOffset, r)
  }

  /**
   * Pickups appear in (300, 600] x (120, 650], inside the area the user
   * plane's position is confined to, so the user can always reach them.
   */
  lemma PickupsAppearWithinUserReach(xDraw: real, yDraw: real)
    requires 0.0 <= xDraw < 1.0 && 0.0 <= yDraw < 1.0
    ensures 300.0 < PickupX(xDraw) <= 600.0 && 120.0 < PickupY(yDraw) <= 650.0
    ensures InUserBounds(PickupX(xDraw), PickupY(yDraw))
  {
    RandomPositionBetween(UserXLowerBound, UserXUpperBound + PickupXUpperOffset, xDraw);
    RandomPositionBetween(UserYLowerBound, UserYUpperBound + PickupYUpperOffset, yDraw);
  }

  /**
   * The fields of an actor other than health and the destroyed flag, which
   * the collision rules leave as they are.
   */
  datatype ActorRest = ActorRest(
    translateX: real, translateY: real, shouldRemove: bool, boundingBox: Box,
    verticalVelocityMultiplier: int, horizontalVelocityMultiplier: int, numberOfKills: int,
    movePattern: seq<int>, isShielded: bool, framesWithShieldActivated: int,
    consecutiveMovesInSameDirection: int, indexOfCurrentMove: int, isFireDeactivated: bool)

  /** The mutable configuration record EnemyPlane reads at construction. */
  class EnemyPlaneMutator {
    var imageName: string
    var imageHeight: int
    var initialHealth: int
    var horizontalVelocity: int
    var projectileXPositionOffset: real
    var projectileYPositionOffset: real
    var fireRate: real

    /** The whole record as a value. */
    function Config(): EnemyConfig
      reads this
    {
      EnemyConfig(imageName, imageHeight, initialHealth,
        EnemySettings(horizontalVelocity, projectileXPositionOffset, projectileYPositionOffset, fireRate))
    }

    constructor ()
      ensures Config() == DefaultEnemyConfig()
    {
      imageName := "enemyplane.png";
      imageHeight := 50;
      initialHealth := 1;
      horizontalVelocity := -6;
      projectileXPositionOffset := -50.0;
      projectileYPositionOffset := 10.0;
      fireRate := 0.015;
    }

    method SetImageName(name: string)
      modifies `imageName
      ensures imageName == name
    {
      imageName := name;
    }

    method SetImageHeight(height: int)
      modifies `imageHeight
      ensures imageHeight == height
    {
      imageHeight := height;
    }

    method SetInitialHealth(health: int)
      modifies `initialHealth
      ensures initialHealth == health
    {
      initialHealth := health;
    }

    method SetHorizontalVelocity(velocity: int)
      modifies `horizontalVelocity
      ensures horizontalVelocity == velocity
    {
      horizontalVelocity := velocity;
    }

    method SetProjectileXPositionOffset(offset: real)
      modifies `projectileXPositionOffset
      ensures projectileXPositionOffset == offset
    {
      projectileXPositionOffset := offset;
    }

    method SetProjectileYPositionOffset(offset: real)
      modifies `projectileYPositionOffset
      ensures projectileYPositionOffset == offset
    {
      projectileYPositionOffset := offset;
    }

    method SetFireRate(rate: real)
      modifies `fireRate
      ensures fireRate == rate
    {
      fireRate := rate;
    }
  }

  class Actor {
    const kind: Kind
    const imageName: string
    // ActiveActor: layout position and fit size never change after construction.
    const layoutX: real
    const layoutY: real
    const fitWidth: real
    const fitHeight: real
    var translateX: real
    var translateY: real
    // ActiveActorDestructible
    var isDestroyed: bool
    var shouldRemove: bool
    var boundingBox: Box
    // FighterPlane (0 and unused for the other kinds)
    var health: int
    // UserPlane
    var verticalVelocityMultiplier: int
    var horizontalVelocityMultiplier: int
    var numberOfKills: int
    // Boss
    var movePattern: seq<int>
    var isShielded: bool
    var consecutiveMovesInSameDirection: int
    var indexOfCurrentMove: int
    var framesWithShieldActivated: int
    var isFireDeactivated: bool

    /** getBoundsInParent(): the image at its effective position. */
    function BoundsInParent(): Box
      reads this`translateX, this`translateY
    {
      Box(layoutX + translateX, layoutY + translateY, fitWidth, fitHeight)
    }

    function Condition(): Vitals
      reads this`health, this`isDestroyed
    {
      Damage.Vitals(health, isDestroyed)
    }

    /** How this actor's `takeDamage` override behaves right now. */
    function DamageMode(): Mode
      reads this`isShielded
    {
      match kind
      case UserPlaneKind => Fighter
      case EnemyPlaneKind(_) => Fighter
      case BossKind => if isShielded then Immune else Fighter
      case FireDeactivatorKind(_, _) => Immune
      case _ => Fragile
    }

    function ShieldState(): Shield
      reads this`isShielded, this`framesWithShieldActivated
    {
      Shield(isShielded, framesWithShieldActivated)
    }

    function Counters(): MoveCounters
      reads this`indexOfCurrentMove, this`consecutiveMovesInSameDirection
    {
      MoveCounters(indexOfCurrentMove, consecutiveMovesInSameDirection)
    }

    /**
     * getCreatedTimeStamp(): the second a HealthPoint was created; every
     * other actor inherits the default 0.
     */
    function CreatedTimeStamp(): int {
      if kind.HealthPointKind? then kind.createdTimeStamp else 0
    }

    /** isExpired(now) of a FireDeactivator. */
    predicate IsExpired(nowSecond: int)
      requires kind.FireDeactivatorKind?
    {
      Expired(kind.createdTimeStampSecond, kind.lingerTimeSecond, nowSecond)
    }

    /** healthAtZero() */
    predicate HealthAtZero()
      reads this`health
    {
      health == 0
    }

    /** getProjectileXPosition(offset) */
    function ProjectileXPosition(offset: real): real
      reads this`translateX
    {
      layoutX + translateX + offset
    }

    /** getProjectileYPosition(offset) */
    function ProjectileYPosition(offset: real): real
      reads this`translateY
    {
      layoutY + translateY + offset
    }

    /** The invariants the kind-specific motion keeps. */
    ghost predicate Valid()
      reads this`translateX, this`translateY, this`movePattern, this`isShielded,
            this`framesWithShieldActivated, this`indexOfCurrentMove,
            this`consecutiveMovesInSameDirection
    {
      (kind.UserPlaneKind? ==> InUserBounds(layoutX + translateX, layoutY + translateY)) &&
      (kind.BossKind? ==> BossValid())
    }

    /** Validity survives any change that leaves the fields it reads alone. */
    twostate lemma StaysValid()
      requires old(Valid())
      requires unchanged(this`translateX, this`translateY, this`movePattern, this`isShielded,
                         this`framesWithShieldActivated, this`indexOfCurrentMove, this`consecutiveMovesInSameDirection)
      ensures Valid()
    {
    }

    /**
     * The Boss keeps a balanced 15-move pattern, counters in range, a valid
     * shield and an effective Y inside [-10, 600].
     */
    ghost predicate BossValid()
      reads this`translateY, this`movePattern, this`isShielded, this`framesWithShieldActivated,
            this`indexOfCurrentMove, this`consecutiveMovesInSameDirection
    {
      BalancedPattern(movePattern) && CountersValid(Counters(), PatternSize) &&
      ShieldValid(ShieldState()) && InBossBounds(layoutY + translateY)
    }

    /** `Valid()` of this actor were its other state `r`. */
    ghost predicate ValidRest(r: ActorRest) {
      (kind.UserPlaneKind? ==> InUserBounds(layoutX + r.translateX, layoutY + r.translateY)) &&
      (kind.BossKind? ==>
        BalancedPattern(r.movePattern) &&
        CountersValid(MoveCounters(r.indexOfCurrentMove, r.consecutiveMovesInSameDirection), PatternSize) &&
        ShieldValid(Shield(r.isShielded, r.framesWithShieldActivated)) && InBossBounds(layoutY + r.translateY))
    }

    /** Validity depends on nothing a collision changes: not on health, not on the destroyed flag. */
    lemma ValidIsValidRest()
      ensures Valid() == ValidRest(Rest())
    {
    }

    /**
     * Everything but health and the destroyed flag is as it was: what a
     * collision rule leaves alone in the actors it visits.
     */
    function Rest(): ActorRest
      reads this`translateX, this`translateY, this`shouldRemove, this`boundingBox,
            this`verticalVelocityMultiplier, this`horizontalVelocityMultiplier,
            this`numberOfKills, this`movePattern, this`isShielded,
            this`framesWithShieldActivated, this`consecutiveMovesInSameDirection,
            this`indexOfCurrentMove, this`isFireDeactivated
    {
      ActorRest(translateX, translateY, shouldRemove, boundingBox,
                verticalVelocityMultiplier, horizontalVelocityMultiplier, numberOfKills,
                movePattern, isShielded, framesWithShieldActivated,
                consecutiveMovesInSameDirection, indexOfCurrentMove, isFireDeactivated)
    }

    twostate predicate OnlyConditionChanged()
      reads this`translateX, this`translateY, this`shouldRemove, this`boundingBox,
            this`verticalVelocityMultiplier, this`horizontalVelocityMultiplier,
            this`numberOfKills, this`movePattern, this`isShielded,
            this`framesWithShieldActivated, this`consecutiveMovesInSameDirection,
            this`indexOfCurrentMove, this`isFireDeactivated
    {
      Rest() == old(Rest())
    }

    /**
     * What the ActiveActor and ActiveActorDestructible constructors establish:
     * placed at (x, y) with no translation, fit to `height` at the image's
     * aspect ratio, neither destroyed nor marked for removal, and the bounding
     * box at the initial position.
     */
    ghost predicate Placed(x: real, y: real, height: int, aspect: real)
      reads this
    {
      layoutX == x && layoutY == y && translateX == 0.0 && translateY == 0.0 &&
      fitHeight == height as real && fitWidth == aspect * height as real &&
      !isDestroyed && !shouldRemove && boundingBox == Box(x, y, fitWidth, fitHeight)
    }

    constructor UserPlane(initialHealth: int, aspect: real)
      ensures kind == UserPlaneKind && imageName == "userplane.png"
      ensures Placed(5.0, 300.0, 40, aspect)
      ensures health == initialHealth && numberOfKills == 0
      ensures verticalVelocityMultiplier == 0 && horizontalVelocityMultiplier == 0
      ensures Valid()
    {
      kind := UserPlaneKind;
      imageName := "userplane.png";
      layoutX, layoutY := 5.0, 300.0;
      fitHeight := 40.0;
      fitWidth := aspect * 40.0;
      translateX, translateY := 0.0, 0.0;
      isDestroyed, shouldRemove := false, false;
      boundingBox := Box(5.0, 300.0, aspect * 40.0, 40.0);
      health := initialHealth;
      verticalVelocityMultiplier, horizontalVelocityMultiplier := 0, 0;
      numberOfKills := 0;
    }

    /** EnemyPlane(x, y): the configuration of a fresh EnemyPlaneMutator. */
    constructor EnemyPlane(x: real, y: real, aspect: real)
      ensures Configured(x, y, DefaultEnemyConfig(), aspect)
      ensures Valid()
    {
      var config := DefaultEnemyConfig();
      kind := EnemyPlaneKind(config.settings);
      imageName := config.imageName;
      layoutX, layoutY := x, y;
      fitHeight := config.imageHeight as real;
      fitWidth := aspect * config.imageHeight as real;
      translateX, translateY := 0.0, 0.0;
      isDestroyed, shouldRemove := false, false;
      boundingBox := Box(x, y, aspect * config.imageHeight as real, config.imageHeight as real);
      health := config.initialHealth;
    }

    /**
     * EnemyPlane(x, y, mutator): the mutator's values are copied, so later
     * changes to the mutator cannot reach the plane.
     */
    constructor EnemyPlaneFrom(x: real, y: real, mutator: EnemyPlaneMutator, aspect: real)
      ensures Configured(x, y, mutator.Config(), aspect)
      ensures Valid()
    {
      var config := mutator.Config();
      kind := EnemyPlaneKind(config.settings);
      imageName := config.imageName;
      layoutX, layoutY := x, y;
      fitHeight := config.imageHeight as real;
      fitWidth := aspect * config.imageHeight as real;
      translateX, translateY := 0.0, 0.0;
      isDestroyed, shouldRemove := false, false;
      boundingBox := Box(x, y, aspect * config.imageHeight as real, config.imageHeight as real);
      health := config.initialHealth;
    }

    /** An EnemyPlane built at (x, y) from `config`. */
    ghost predicate Configured(x: real, y: real, config: EnemyConfig, aspect: real)
      reads this
    {
      kind == EnemyPlaneKind(config.settings) && imageName == config.imageName &&
      Placed(x, y, config.imageHeight, aspect) && health == config.initialHealth
    }

    /** Boss(): `shuffleDraws` drive the shuffle in `initializeMovePattern`. */
    constructor Boss(aspect: real, shuffleDraws: seq<nat>)
      requires ShuffleDraws(shuffleDraws, PatternSize)
      ensures kind == BossKind && imageName == "bossplane.png"
      ensures Placed(1000.0, 400.0, 120, aspect)
      ensures health == BossHealth && !isShielded && !isFireDeactivated
      ensures indexOfCurrentMove == 0 && consecutiveMovesInSameDirection == 0
      ensures framesWithShieldActivated == 0
      ensures movePattern == Shuffle(Cycles(MoveFrequencyPerCycle), shuffleDraws)
      ensures Valid()
    {
      kind := BossKind;
      imageName := "bossplane.png";
      layoutX, layoutY := 1000.0, 400.0;
      fitHeight := 120.0;
      fitWidth := aspect * 120.0;
      translateX, translateY := 0.0, 0.0;
      isDestroyed, shouldRemove := false, false;
      boundingBox := Box(1000.0, 400.0, aspect * 120.0, 120.0);
      health := BossHealth;
      movePattern := [];
      consecutiveMovesInSameDirection := 0;
      indexOfCurrentMove := 0;
      framesWithShieldActivated := 0;
      isShielded := false;
      isFireDeactivated := false;
      new;
      InitializeMovePattern(shuffleDraws);
      ghost var cycles := Cycles(MoveFrequencyPerCycle);
      assert [] + cycles == cycles;
      InitialPatternBalanced(shuffleDraws);
    }

    constructor UserProjectile(x: real, y: real, aspect: real)
      ensures kind == UserProjectileKind && imageName == "userfire.png"
      ensures Placed(x, y, 50, aspect)
      ensures Valid()
    {
      kind := UserProjectileKind;
      imageName := "userfire.png";
      layoutX, layoutY := x, y;
      fitHeight := 50.0;
      fitWidth := aspect * 50.0;
      translateX, translateY := 0.0, 0.0;
      isDestroyed, shouldRemove := false, false;
      boundingBox := Box(x, y, aspect * 50.0, 50.0);
    }

    constructor EnemyProjectile(x: real, y: real, aspect: real)
      ensures kind == EnemyProjectileKind && imageName == "enemyFire.png"
      ensures Placed(x, y, 30, aspect)
      ensures Valid()
    {
      kind := EnemyProjectileKind;
      imageName := "enemyFire.png";
      layoutX, layoutY := x, y;
      fitHeight := 30.0;
      fitWidth := aspect * 30.0;
      translateX, translateY := 0.0, 0.0;
      isDestroyed, shouldRemove := false, false;
      boundingBox := Box(x, y, aspect * 30.0, 30.0);
    }

    /** BossProjectile(y) always starts at X = 950, wherever the boss is. */
    constructor BossProjectile(y: real, aspect: real)
      ensures kind == BossProjectileKind && imageName == "fireball.png"
      ensures Placed(950.0, y, 50, aspect)
      ensures Valid()
    {
      kind := BossProjectileKind;
      imageName := "fireball.png";
      layoutX, layoutY := 950.0, y;
      fitHeight := 50.0;
      fitWidth := aspect * 50.0;
      translateX, translateY := 0.0, 0.0;
      isDestroyed, shouldRemove := false, false;
      boundingBox := Box(950.0, y, aspect * 50.0, 50.0);
    }

    /**
     * HealthPoint(user): placed by two random draws inside the user's reach,
     * stamped with the current second.
     */
    constructor HealthPoint(xDraw: Draw, yDraw: Draw, nowMillis: nat, aspect: real)
      ensures kind == HealthPointKind(SecondsOf(nowMillis)) && imageName == "heart.png"
      ensures Placed(PickupX(xDraw), PickupY(yDraw), 30, aspect)
      ensures Valid()
    {
      kind := HealthPointKind(SecondsOf(nowMillis));
      imageName := "heart.png";
      layoutX, layoutY := PickupX(xDraw), PickupY(yDraw);
      fitHeight := 30.0;
      fitWidth := aspect * 30.0;
      translateX, translateY := 0.0, 0.0;
      isDestroyed, shouldRemove := false, false;
      boundingBox := Box(PickupX(xDraw), PickupY(yDraw), aspect * 30.0, 30.0);
    }

    /** FireDeactivator(user, linger): placed like a HealthPoint, alive for `lingerSecond`. */
    constructor FireDeactivator(xDraw: Draw, yDraw: Draw, nowMillis: nat, lingerSecond: int, aspect: real)
      ensures kind == FireDeactivatorKind(SecondsOf(nowMillis), lingerSecond)
      ensures imageName == "NoFireImage.png"
      ensures Placed(PickupX(xDraw), PickupY(yDraw), 30, aspect)
      ensures Valid()
    {
      kind := FireDeactivatorKind(SecondsOf(nowMillis), lingerSecond);
      imageName := "NoFireImage.png";
      layoutX, layoutY := PickupX(xDraw), PickupY(yDraw);
      fitHeight := 30.0;
      fitWidth := aspect * 30.0;
      translateX, translateY := 0.0, 0.0;
      isDestroyed, shouldRemove := false, false;
      boundingBox := Box(PickupX(xDraw), PickupY(yDraw), aspect * 30.0, 30.0);
    }

    method MoveHorizontally(horizontalMove: real)
      modifies `translateX
      ensures translateX == old(translateX) + horizontalMove
    {
      translateX := translateX + horizontalMove;
    }

    method MoveVertically(verticalMove: real)
      modifies `translateY
      ensures translateY == old(translateY) + verticalMove
    {
      translateY := translateY + verticalMove;
    }

    method UpdateBoundingBox()
      modifies `boundingBox
      ensures boundingBox == Box(layoutX + translateX, layoutY + translateY, fitWidth, fitHeight)
    {
      boundingBox := Box(layoutX + translateX, layoutY + translateY, fitWidth, fitHeight);
    }

    method Destroy()
      modifies `isDestroyed
      ensures isDestroyed
    {
      SetDestroyed(true);
    }

    method SetDestroyed(destroyed: bool)
      modifies `isDestroyed
      ensures isDestroyed == destroyed
    {
      isDestroyed := destroyed;
    }

    method Remove()
      modifies `shouldRemove
      ensures shouldRemove
    {
      SetShouldRemove(true);
    }

    method SetShouldRemove(remove: bool)
      modifies `shouldRemove
      ensures shouldRemove == remove
    {
      shouldRemove := remove;
    }

    /** takeDamage(), as overridden by each concrete class. */
    method TakeDamage()
      modifies `health, `isDestroyed
      ensures Condition() == Hit(DamageMode(), old(Condition()))
    {
      if kind.UserPlaneKind? || kind.EnemyPlaneKind? {
        FighterTakeDamage();
      } else if kind.BossKind? {
        if !isShielded {
          FighterTakeDamage();
        }
      } else if !kind.FireDeactivatorKind? {
        Destroy();
      }
    }

    /** FighterPlane.takeDamage(): one health point less, destroyed on reaching 0. */
    method FighterTakeDamage()
      modifies `health, `isDestroyed
      ensures Condition() == Hit(Fighter, old(Condition()))
    {
      health := health - 1;
      if HealthAtZero() {
        Destroy();
      }
    }

    /** repairDamage(): one health point more for planes, nothing for the others. */
    method RepairDamage()
      modifies `health
      ensures health == old(health) + (if kind.IsFighter() then 1 else 0)
    {
      if kind.IsFighter() {
        health := health + 1;
      }
    }

    /** isMoving(direction), case-insensitive; unknown directions throw. */
    function IsMoving(direction: string): Result<bool>
      reads this`verticalVelocityMultiplier, this`horizontalVelocityMultiplier
    {
      var d := ToLower(direction);
      if d == "vertical" then Success(verticalVelocityMultiplier != 0)
      else if d == "horizontal" then Success(horizontalVelocityMultiplier != 0)
      else if d == "any" then Success(verticalVelocityMultiplier != 0 || horizontalVelocityMultiplier != 0)
      else Failure("Invalid direction: " + direction)
    }

    /**
     * `isMoving` accepts a direction exactly when its lower-cased form is one
     * of "vertical", "horizontal" and "any", and answers the same for every
     * spelling of it.
     */
    lemma IsMovingIgnoresCase(direction: string)
      ensures IsMoving(direction).Success? <==> ToLower(direction) in {"vertical", "horizontal", "any"}
      ensures IsMoving(direction).Success? ==> IsMoving(ToLower(direction)) == IsMoving(direction)
    {
      ToLowerIdempotent(direction);
    }

    method MoveUp()
      requires kind.UserPlaneKind?
      modifies `verticalVelocityMultiplier
      ensures verticalVelocityMultiplier == -1
    {
      verticalVelocityMultiplier := -1;
    }

    method MoveDown()
      requires kind.UserPlaneKind?
      modifies `verticalVelocityMultiplier
      ensures verticalVelocityMultiplier == 1
    {
      verticalVelocityMultiplier := 1;
    }

    method MoveLeft()
      requires kind.UserPlaneKind?
      modifies `horizontalVelocityMultiplier
      ensures horizontalVelocityMultiplier == -1
    {
      horizontalVelocityMultiplier := -1;
    }

    method MoveRight()
      requires kind.UserPlaneKind?
      modifies `horizontalVelocityMultiplier
      ensures horizontalVelocityMultiplier == 1
    {
      horizontalVelocityMultiplier := 1;
    }

    method Stop()
      requires kind.UserPlaneKind?
      modifies `verticalVelocityMultiplier, `horizontalVelocityMultiplier
      ensures verticalVelocityMultiplier == 0 && horizontalVelocityMultiplier == 0
    {
      verticalVelocityMultiplier := 0;
      horizontalVelocityMultiplier := 0;
    }

    method IncrementKillCount()
      requires kind.UserPlaneKind?
      modifies `numberOfKills
      ensures numberOfKills == old(numberOfKills) + 1
    {
      numberOfKills := numberOfKills + 1;
    }

    /** Boss.deactivateFire(): raises a flag that nothing lowers again. */
    method DeactivateFire()
      requires kind.BossKind?
      modifies `isFireDeactivated
      ensures isFireDeactivated
    {
      isFireDeactivated := true;
    }

    /**
     * The user plane's move of one update from the state `b`: the vertical
     * multiplier wins over the horizontal one, only one axis moves, and a
     * move that would leave the bounds is reverted.
     */
    ghost predicate UserMovedFrom(b: ActorRest)
      reads this
    {
      var dy := (UserVelocity * verticalVelocityMultiplier) as real;
      var dx := (UserVelocity * horizontalVelocityMultiplier) as real;
      if verticalVelocityMultiplier != 0 then
        translateX == b.translateX &&
        translateY == (if UserYUpperBound <= layoutY + b.translateY + dy <= UserYLowerBound
                       then b.translateY + dy else b.translateY)
      else if horizontalVelocityMultiplier != 0 then
        translateY == b.translateY &&
        translateX == (if UserXUpperBound <= layoutX + b.translateX + dx <= UserXLowerBound
                       then b.translateX + dx else b.translateX)
      else
        translateX == b.translateX && translateY == b.translateY
    }

    twostate predicate UserMoved()
      reads this
    {
      UserMovedFrom(old(Rest()))
    }

    /**
     * One `getNextMove` on the counters and the pattern of the state `b`: the
     * counters take a step, and the pattern is reshuffled with `draws`
     * exactly when a run of 10 ends.
     */
    ghost predicate PatternAdvancedFrom(b: ActorRest, draws: seq<nat>)
      reads this
    {
      Counters() == NextCounters(MoveCounters(b.indexOfCurrentMove, b.consecutiveMovesInSameDirection), |b.movePattern|) &&
      movePattern == (if b.consecutiveMovesInSameDirection + 1 == MaxFramesWithSameMove
                         && ShuffleDraws(draws, |b.movePattern|)
                      then Shuffle(b.movePattern, draws) else b.movePattern)
    }

    twostate predicate PatternAdvanced(draws: seq<nat>)
      reads this
    {
      PatternAdvancedFrom(old(Rest()), draws)
    }

    /** The boss's move of one update from `b`: the next pattern move, reverted if it leaves [-10, 600]. */
    ghost predicate BossMovedFrom(b: ActorRest, draws: seq<nat>)
      reads this
    {
      0 <= b.indexOfCurrentMove < |b.movePattern| &&
      var move := b.movePattern[b.indexOfCurrentMove] as real;
      translateX == b.translateX &&
      translateY == (if InBossBounds(layoutY + b.translateY + move)
                     then b.translateY + move else b.translateY) &&
      PatternAdvancedFrom(b, draws)
    }

    twostate predicate BossMoved(draws: seq<nat>)
      reads this
    {
      BossMovedFrom(old(Rest()), draws)
    }

    /** What `updatePosition` does from the state `b`, for every kind. */
    ghost predicate PositionUpdatedFrom(b: ActorRest, draws: seq<nat>)
      reads this
    {
      (kind.Cruises() ==>
        translateX == b.translateX + HorizontalVelocity(kind) as real &&
        translateY == b.translateY) &&
      (kind.UserPlaneKind? ==> UserMovedFrom(b)) &&
      (kind.BossKind? ==> BossMovedFrom(b, draws)) &&
      (kind.IsPickup() ==>
        translateX == b.translateX && translateY == b.translateY &&
        boundingBox == b.boundingBox) &&
      (!kind.IsPickup() ==> boundingBox == BoundsInParent()) &&
      (!kind.BossKind? ==>
        movePattern == b.movePattern &&
        Counters() == MoveCounters(b.indexOfCurrentMove, b.consecutiveMovesInSameDirection))
    }

    twostate predicate PositionUpdated(draws: seq<nat>)
      reads this
    {
      PositionUpdatedFrom(old(Rest()), draws)
    }

    method InitializeMovePattern(draws: seq<nat>)
      requires ShuffleDraws(draws, |movePattern| + PatternSize)
      modifies `movePattern
      ensures movePattern == Shuffle(old(movePattern) + Cycles(MoveFrequencyPerCycle), draws)
    {
      ghost var start := movePattern;
      var i := 0;
      while i < MoveFrequencyPerCycle
        invariant 0 <= i <= MoveFrequencyPerCycle
        invariant movePattern == start + Cycles(i) && |movePattern| == |start| + 3 * i
      {
        assert Cycles(i + 1) == Cycles(i) + [VerticalVelocity, -VerticalVelocity, 0];
        movePattern := movePattern + [VerticalVelocity];
        movePattern := movePattern + [-VerticalVelocity];
        movePattern := movePattern + [0];
        i := i + 1;
      }
      movePattern := Shuffle(movePattern, draws);
    }

    /** getNextMove(): the current move; `draws` drive the reshuffle at the end of a run. */
    method GetNextMove(draws: seq<nat>) returns (currentMove: int)
      requires kind.BossKind? && BossValid() && ShuffleDraws(draws, PatternSize)
      modifies `movePattern, `consecutiveMovesInSameDirection, `indexOfCurrentMove
      ensures currentMove == old(movePattern[indexOfCurrentMove])
      ensures currentMove in {VerticalVelocity, -VerticalVelocity, 0}
      ensures PatternAdvanced(draws) && BossValid()
    {
      BalancedPatternMoves(movePattern, indexOfCurrentMove);
      NextCountersSpec(Counters(), PatternSize);
      currentMove := movePattern[indexOfCurrentMove];
      consecutiveMovesInSameDirection := consecutiveMovesInSameDirection + 1;
      if consecutiveMovesInSameDirection == MaxFramesWithSameMove {
        ShuffleKeepsBalance(movePattern, draws);
        movePattern := Shuffle(movePattern, draws);
        consecutiveMovesInSameDirection := 0;
        indexOfCurrentMove := indexOfCurrentMove + 1;
      }
      if indexOfCurrentMove == |movePattern| {
        indexOfCurrentMove := 0;
      }
      assert BalancedPattern(movePattern) && |movePattern| == PatternSize;
      assert Counters() == NextCounters(old(Counters()), PatternSize);
    }

    /** updateShield(), with `draw` the random number of `shieldShouldBeActivated`. */
    method UpdateShield(draw: Draw)
      requires kind.BossKind? && ShieldValid(ShieldState())
      modifies `isShielded, `framesWithShieldActivated
      ensures ShieldState() == ShieldStep(old(ShieldState()), ShieldShouldBeActivated(health, draw))
      ensures ShieldValid(ShieldState())
      ensures health == BossHealth && !old(isShielded) ==> !isShielded
    {
      if health == BossHealth {
        FullHealthNeverShields(draw);
      }
      if isShielded {
        framesWithShieldActivated := framesWithShieldActivated + 1;
      } else if ShieldShouldBeActivated(health, draw) {
        isShielded := true;
      }
      if framesWithShieldActivated == MaxFramesWithShield {
        isShielded := false;
        framesWithShieldActivated := 0;
      }
    }

    method UpdateUserPlanePosition()
      requires kind.UserPlaneKind? && Valid()
      modifies `translateX, `translateY, `boundingBox
      ensures UserMoved() && boundingBox == BoundsInParent() && Valid()
    {
      var initialTranslateY := translateY;
      var initialTranslateX := translateX;
      if IsMoving("vertical") == Success(true) {
        MoveVertically((UserVelocity * verticalVelocityMultiplier) as real);
        var newPositionY := layoutY + translateY;
        if newPositionY < UserYUpperBound || newPositionY > UserYLowerBound {
          translateY := initialTranslateY;
        }
      } else if IsMoving("horizontal") == Success(true) {
        MoveHorizontally((UserVelocity * horizontalVelocityMultiplier) as real);
        var newPositionX := layoutX + translateX;
        if newPositionX < UserXUpperBound || newPositionX > UserXLowerBound {
          translateX := initialTranslateX;
        }
      }
      UpdateBoundingBox();
    }

    method UpdateBossPosition(draws: seq<nat>)
      requires kind.BossKind? && BossValid() && ShuffleDraws(draws, PatternSize)
      modifies `translateY, `boundingBox, `movePattern, `consecutiveMovesInSameDirection,
               `indexOfCurrentMove
      ensures BossMoved(draws) && boundingBox == BoundsInParent() && BossValid()
    {
      ghost var b := Rest();
      var move := GetNextMove(draws);
      assert PatternAdvancedFrom(b, draws);
      ghost var pattern := movePattern;
      ghost var counters := Counters();
      ghost var shield := ShieldState();
      MoveWithinBossBounds(move as real);
      assert movePattern == pattern && Counters() == counters && ShieldState() == shield;
    }

    /** The vertical half of the boss's updatePosition(): a move that would leave [-10, 600] is taken back. */
    method MoveWithinBossBounds(move: real)
      requires InBossBounds(layoutY + translateY)
      modifies `translateY, `boundingBox
      ensures translateY == if InBossBounds(layoutY + old(translateY) + move) then old(translateY) + move else old(translateY)
      ensures InBossBounds(layoutY + translateY) && boundingBox == BoundsInParent()
    {
      var initialTranslateY := translateY;
      MoveVertically(move);
      var currentPosition := layoutY + translateY;
      if currentPosition < BossYUpperBound || currentPosition > BossYLowerBound {
        translateY := initialTranslateY;
      }
      UpdateBoundingBox();
    }

    /** updatePosition(), as overridden by each concrete class. */
    method UpdatePosition(draws: seq<nat>)
      requires Valid() && (kind.BossKind? ==> ShuffleDraws(draws, PatternSize))
      modifies `translateX, `translateY, `boundingBox, `movePattern,
               `consecutiveMovesInSameDirection, `indexOfCurrentMove
      ensures PositionUpdated(draws) && Valid()
    {
      if kind.UserPlaneKind? {
        UpdateUserPlanePosition();
      } else if kind.BossKind? {
        UpdateBossPosition(draws);
      } else if kind.Cruises() {
        MoveHorizontally(HorizontalVelocity(kind) as real);
        UpdateBoundingBox();
      }
    }

    /**
     * updateActor(): `updatePosition` for every kind, followed for the Boss by
     * `updateShield` with the draw `shieldDraw`.
     */
    method UpdateActor(draws: seq<nat>, shieldDraw: Draw)
      requires Valid() && (kind.BossKind? ==> ShuffleDraws(draws, PatternSize))
      modifies `translateX, `translateY, `boundingBox, `movePattern,
               `consecutiveMovesInSameDirection, `indexOfCurrentMove,
               `isShielded, `framesWithShieldActivated
      ensures PositionUpdated(draws) && Valid()
      ensures kind.BossKind? ==>
        ShieldState() == ShieldStep(old(ShieldState()), ShieldShouldBeActivated(health, shieldDraw))
      ensures !kind.BossKind? ==> ShieldState() == old(ShieldState())
    {
      UpdatePosition(draws);
      if kind.BossKind? {
        UpdateShield(shieldDraw);
      }
    }

    /**
     * fireProjectile() of the three planes. The user always fires; an enemy
     * fires when the draw is below its fire rate, the boss when it is below
     * 0.05; otherwise the result is null.
     */
    method FireProjectile(draw: Draw, aspects: ImageAspects) returns (projectile: Actor?)
      requires kind.IsFighter()
      ensures projectile != null ==> fresh(projectile) && projectile.Valid()
      ensures kind.UserPlaneKind? ==>
        projectile != null && projectile.kind == UserProjectileKind &&
        projectile.Placed(ProjectileXPosition(60.0), ProjectileYPosition(10.0), 50, aspects.userFire)
      ensures kind.EnemyPlaneKind? ==>
        (projectile != null <==> draw < kind.settings.fireRate) &&
        (projectile != null ==>
          projectile.kind == EnemyProjectileKind &&
          projectile.Placed(ProjectileXPosition(kind.settings.projectileXOffset),
                            ProjectileYPosition(kind.settings.projectileYOffset), 30, aspects.enemyFire))
      ensures kind.BossKind? ==>
        (projectile != null <==> FiresInCurrentFrame(draw)) &&
        (projectile != null ==>
          projectile.kind == BossProjectileKind &&
          projectile.Placed(950.0, ProjectileYPosition(75.0), 50, aspects.fireball))
    {
      if kind.UserPlaneKind? {
        projectile := new Actor.UserProjectile(ProjectileXPosition(60.0), ProjectileYPosition(10.0), aspects.userFire);
      } else if kind.EnemyPlaneKind? {
        if draw < kind.settings.fireRate {
          var projectileXPosition := ProjectileXPosition(kind.settings.projectileXOffset);
          var projectileYPosition := ProjectileYPosition(kind.settings.projectileYOffset);
          projectile := new Actor.EnemyProjectile(projectileXPosition, projectileYPosition, aspects.enemyFire);
        } else {
          projectile := null;
        }
      } else {
        if FiresInCurrentFrame(draw) {
          projectile := new Actor.BossProjectile(ProjectileYPosition(75.0), aspects.fireball);
        } else {
          projectile := null;
        }
      }
    }
  }
}
