// misc.CollisionHandler and level.CollisionHandler: two older revisions of
// the collision rules. Their loops are the nested loop of the util rules
// (`Collisions.ResolvePairs`), and each rule is proved to have the same
// outcome, `Collisions.Resolved` with the same two responses.

module MiscCollisions {
  import opened Wrappers
  import opened Geometry
  import opened Actors
  import opened Collisions
  import Scoring
  import MiscScoring

  /**
   * misc.handleUserProjectileCollisions: both damaged per intersecting pair,
   * and the per-hit score of the misc calculator, which on the user plane's
   * bounds is the util score.
   */
  method HandleUserProjectileCollisions(user: Actor, userProjectiles: seq<Actor>, enemyUnits: seq<Actor>)
    returns (scoreIndex: int)
    requires Distinct(userProjectiles) && Distinct(enemyUnits) && Disjoint(userProjectiles, enemyUnits)
    modifies userProjectiles, enemyUnits
    ensures Resolved(userProjectiles, enemyUnits, TakeDamage, TakeDamage,
                     old(SnapshotOf(userProjectiles)), old(SnapshotOf(enemyUnits)))
    ensures var hits := PairHits(old(BoxesOf(userProjectiles)), old(BoxesOf(enemyUnits)));
      scoreIndex == hits * old(Scoring.CalculateUserScoreByPosition(user)) && hits <= scoreIndex <= 6 * hits
  {
    var points := MiscScoring.CalculateUserScoreByPosition(user);
    var hits := ResolvePairs(userProjectiles, enemyUnits, TakeDamage, TakeDamage);
    scoreIndex := hits * points.value;
    ScoreSum(hits, points.value);
  }

  /** misc.handleEnemyProjectileCollisions: both damaged per intersecting pair. */
  method HandleEnemyProjectileCollisions(enemyProjectiles: seq<Actor>, friendlyUnits: seq<Actor>)
    requires Distinct(enemyProjectiles) && Distinct(friendlyUnits) && Disjoint(enemyProjectiles, friendlyUnits)
    modifies enemyProjectiles, friendlyUnits
    ensures Resolved(enemyProjectiles, friendlyUnits, TakeDamage, TakeDamage,
                     old(SnapshotOf(enemyProjectiles)), old(SnapshotOf(friendlyUnits)))
  {
    var _ := ResolvePairs(enemyProjectiles, friendlyUnits, TakeDamage, TakeDamage);
  }

  /** misc.handlePlaneCollisions: the friendly damaged, the enemy destroyed. */
  method HandlePlaneCollisions(friendlyUnits: seq<Actor>, enemyUnits: seq<Actor>)
    requires Distinct(friendlyUnits) && Distinct(enemyUnits) && Disjoint(friendlyUnits, enemyUnits)
    modifies friendlyUnits, enemyUnits
    ensures Resolved(friendlyUnits, enemyUnits, TakeDamage, Destroy,
                     old(SnapshotOf(friendlyUnits)), old(SnapshotOf(enemyUnits)))
  {
    var _ := ResolvePairs(friendlyUnits, enemyUnits, TakeDamage, Destroy);
  }

  /** misc.handleUserHealthPointCollisions: repair below the cap, the pickup destroyed. */
  method HandleUserHealthPointCollisions(playerInitHealth: int, user: Actor, healthPoints: seq<Actor>)
    requires user.kind.UserPlaneKind?
    requires Distinct(healthPoints) && Disjoint([user], healthPoints)
    modifies user, healthPoints
    ensures Resolved([user], healthPoints, RepairBelow(Some(playerInitHealth)), Destroy,
                     old(SnapshotOf([user])), old(SnapshotOf(healthPoints)))
  {
    var _ := ResolvePairs([user], healthPoints, RepairBelow(Some(playerInitHealth)), Destroy);
  }
}

module LevelCollisions {
  import opened Wrappers
  import opened Actors
  import opened Collisions

  /** level.handleUserProjectileCollisions: both damaged per intersecting pair, no score. */
  method HandleUserProjectileCollisions(userProjectiles: seq<Actor>, enemyUnits: seq<Actor>)
    requires Distinct(userProjectiles) && Distinct(enemyUnits) && Disjoint(userProjectiles, enemyUnits)
    modifies userProjectiles, enemyUnits
    ensures Resolved(userProjectiles, enemyUnits, TakeDamage, TakeDamage,
                     old(SnapshotOf(userProjectiles)), old(SnapshotOf(enemyUnits)))
  {
    var _ := ResolvePairs(userProjectiles, enemyUnits, TakeDamage, TakeDamage);
  }

  /** level.handleEnemyProjectileCollisions: both damaged per intersecting pair. */
  method HandleEnemyProjectileCollisions(enemyProjectiles: seq<Actor>, friendlyUnits: seq<Actor>)
    requires Distinct(enemyProjectiles) && Distinct(friendlyUnits) && Disjoint(enemyProjectiles, friendlyUnits)
    modifies enemyProjectiles, friendlyUnits
    ensures Resolved(enemyProjectiles, friendlyUnits, TakeDamage, TakeDamage,
                     old(SnapshotOf(enemyProjectiles)), old(SnapshotOf(friendlyUnits)))
  {
    var _ := ResolvePairs(enemyProjectiles, friendlyUnits, TakeDamage, TakeDamage);
  }

  /** level.handlePlaneCollisions: the friendly damaged, the enemy destroyed. */
  method HandlePlaneCollisions(friendlyUnits: seq<Actor>, enemyUnits: seq<Actor>)
    requires Distinct(friendlyUnits) && Distinct(enemyUnits) && Disjoint(friendlyUnits, enemyUnits)
    modifies friendlyUnits, enemyUnits
    ensures Resolved(friendlyUnits, enemyUnits, TakeDamage, Destroy,
                     old(SnapshotOf(friendlyUnits)), old(SnapshotOf(enemyUnits)))
  {
    var _ := ResolvePairs(friendlyUnits, enemyUnits, TakeDamage, Destroy);
  }

  /** level.handleUserHealthPointCollisions: repair below the cap, the pickup destroyed. */
  method HandleUserHealthPointCollisions(playerInitHealth: int, user: Actor, healthPoints: seq<Actor>)
    requires user.kind.UserPlaneKind?
    requires Distinct(healthPoints) && Disjoint([user], healthPoints)
    modifies user, healthPoints
    ensures Resolved([user], healthPoints, RepairBelow(Some(playerInitHealth)), Destroy,
                     old(SnapshotOf([user])), old(SnapshotOf(healthPoints)))
  {
    var _ := ResolvePairs([user], healthPoints, RepairBelow(Some(playerInitHealth)), Destroy);
  }
}
