// The passes LevelParent makes over one actor list in a tick: filtering out
// destroyed actors, counting kills, dropping projectiles that left the
// screen, charging the user for enemies that got through, expiring health
// points, updating every actor and collecting enemy fire. Each pass is a
// method over a list of actors, proved against a flag sequence that says,
// position by position, what the pass does to that actor.

module ActorPasses {
  import opened Damage
  import opened Transient
  import opened BossBehaviour
  import opened Actors
  import opened Collisions
  import opened LevelRules
  import opened Filtering
  import opened Draws

  /** The flags `removeDestroyedActors` filters on, in list order. */
  ghost function RemovalFlags(xs: seq<Actor>): (r: seq<bool>)
    reads xs`isDestroyed, xs`shouldRemove
    ensures |r| == |xs| && forall k :: 0 <= k < |xs| ==> r[k] == (xs[k].isDestroyed || xs[k].shouldRemove)
  {
    if |xs| == 0 then [] else RemovalFlags(xs[..|xs| - 1]) + [xs[|xs| - 1].isDestroyed || xs[|xs| - 1].shouldRemove]
  }

  /** The removal flags of a list depend only on the destroyed and removal marks of its actors. */
  twostate lemma RemovalFlagsKept(xs: seq<Actor>)
    requires forall k :: 0 <= k < |xs| ==>
      xs[k].isDestroyed == old(xs[k].isDestroyed) && xs[k].shouldRemove == old(xs[k].shouldRemove)
    ensures RemovalFlags(xs) == old(RemovalFlags(xs))
  {
    assert forall k :: 0 <= k < |xs| ==> RemovalFlags(xs)[k] == old(RemovalFlags(xs))[k];
  }

  /** The complement of the removal flags: which actors `removeDestroyedActors` keeps. */
  lemma KeepFlagsOf(xs: seq<Actor>)
    ensures |Not(RemovalFlags(xs))| == |xs|
    ensures forall k :: 0 <= k < |xs| ==> Not(RemovalFlags(xs))[k] == !(xs[k].isDestroyed || xs[k].shouldRemove)
  {
  }

  /** Which actors of a list are destroyed, in list order. */
  ghost function DestroyedFlags(xs: seq<Actor>): (r: seq<bool>)
    reads xs`isDestroyed
    ensures |r| == |xs| && forall k :: 0 <= k < |xs| ==> r[k] == xs[k].isDestroyed
  {
    if |xs| == 0 then [] else DestroyedFlags(xs[..|xs| - 1]) + [xs[|xs| - 1].isDestroyed]
  }

  /** Which projectiles have flown past the right edge of a screen `width` wide. */
  ghost function OffScreenFlags(xs: seq<Actor>, width: real): (r: seq<bool>)
    reads xs`translateX
    ensures |r| == |xs| && forall k :: 0 <= k < |xs| ==> r[k] == (xs[k].translateX > width)
  {
    if |xs| == 0 then [] else OffScreenFlags(xs[..|xs| - 1], width) + [xs[|xs| - 1].translateX > width]
  }

  /** `enemyHasPenetratedDefenses` for each enemy of the list. */
  ghost function PenetrationFlags(xs: seq<Actor>, width: real): (r: seq<bool>)
    reads xs`translateX
    ensures |r| == |xs| && forall k :: 0 <= k < |xs| ==> r[k] == Penetrated(xs[k].translateX, width)
  {
    if |xs| == 0 then [] else PenetrationFlags(xs[..|xs| - 1], width) + [Penetrated(xs[|xs| - 1].translateX, width)]
  }

  /** enemyHasPenetratedDefenses: |translateX| > screenWidth. */
  predicate Penetrated(translateX: real, width: real) {
    (if translateX < 0.0 then -translateX else translateX) > width
  }

  /** Whether a plane of kind `k` fires when `fireProjectile` draws `draw`. */
  predicate Fires(k: Kind, draw: Draw) {
    (k.EnemyPlaneKind? && draw < k.settings.fireRate) || (k.BossKind? && FiresInCurrentFrame(draw))
  }

  /** Which enemies of `generateEnemyFire` fire, the `k`th drawing `draws[k]`. */
  function FireFlags(enemies: seq<Actor>, draws: seq<Draw>): (r: seq<bool>)
    requires |enemies| <= |draws|
    ensures |r| == |enemies| && forall k :: 0 <= k < |enemies| ==> r[k] == Fires(enemies[k].kind, draws[k])
  {
    if |enemies| == 0 then []
    else FireFlags(enemies[..|enemies| - 1], draws) + [Fires(enemies[|enemies| - 1].kind, draws[|enemies| - 1])]
  }

  /** Keeping some actors of a duplicate-free list leaves it duplicate-free. */
  lemma {:induction false} KeptDistinct(xs: seq<Actor>, drop: seq<bool>)
    requires |xs| == |drop| && Distinct(xs)
    ensures Distinct(Kept(xs, drop))
  {
    if |xs| > 0 {
      var tail := Kept(xs[1..], drop[1..]);
      assert Distinct(xs[1..]) by {
        forall p, q | 0 <= p < |xs[1..]| && 0 <= q < |xs[1..]| && p != q
          ensures xs[1..][p] != xs[1..][q]
        {
          assert xs[1..][p] == xs[p + 1] && xs[1..][q] == xs[q + 1];
        }
      }
      KeptDistinct(xs[1..], drop[1..]);
      if !drop[0] {
        KeptOmits(xs[1..], drop[1..], xs[0]);
        assert Kept(xs, drop) == [xs[0]] + tail;
        forall p, q | 0 <= p < |[xs[0]] + tail| && 0 <= q < |[xs[0]] + tail| && p != q
          ensures ([xs[0]] + tail)[p] != ([xs[0]] + tail)[q]
        {
          if p > 0 && q > 0 {
            assert ([xs[0]] + tail)[p] == tail[p - 1] && ([xs[0]] + tail)[q] == tail[q - 1];
          }
        }
      } else {
        assert Kept(xs, drop) == tail;
      }
    }
  }

  /** Two duplicate-free lists with no actor in common make a duplicate-free list. */
  lemma DistinctConcat(xs: seq<Actor>, ys: seq<Actor>)
    requires Distinct(xs) && Distinct(ys) && Disjoint(xs, ys)
    ensures Distinct(xs + ys)
  {
    forall p, q | 0 <= p < |xs + ys| && 0 <= q < |xs + ys| && p != q
      ensures (xs + ys)[p] != (xs + ys)[q]
    {
      if p >= |xs| && q >= |xs| {
        assert (xs + ys)[p] == ys[p - |xs|] && (xs + ys)[q] == ys[q - |xs|];
      } else if p >= |xs| {
        assert (xs + ys)[p] == ys[p - |xs|];
      } else if q >= |xs| {
        assert (xs + ys)[q] == ys[q - |xs|];
      }
    }
  }

  lemma DestroyedFlagsConcat(a: seq<Actor>, b: seq<Actor>)
    ensures DestroyedFlags(a + b) == DestroyedFlags(a) + DestroyedFlags(b)
  {
    assert forall k :: 0 <= k < |a + b| ==> DestroyedFlags(a + b)[k] == (DestroyedFlags(a) + DestroyedFlags(b))[k];
  }

  /** Which of the kept actors are destroyed: the flags of the whole list, filtered alike. */
  lemma {:induction false} DestroyedFlagsOfKept(xs: seq<Actor>, drop: seq<bool>)
    requires |xs| == |drop|
    ensures DestroyedFlags(Kept(xs, drop)) == Kept(DestroyedFlags(xs), drop)
  {
    if |xs| > 0 {
      var head := if drop[0] then [] else [xs[0]];
      var rest := Kept(xs[1..], drop[1..]);
      var flags := DestroyedFlags(xs);
      assert Kept(xs, drop) == head + rest;
      DestroyedFlagsConcat(head, rest);
      DestroyedFlagsOfKept(xs[1..], drop[1..]);
      assert DestroyedFlags(xs[1..]) == flags[1..];
      assert DestroyedFlags(head) == if drop[0] then [] else [flags[0]];
      assert Kept(flags, drop) == (if drop[0] then [] else [flags[0]]) + Kept(flags[1..], drop[1..]);
    }
  }

  /**
   * `actors.removeAll(destroyedActors)`, with `destroyedActors` the actors
   * flagged for removal, drops exactly the flagged positions.
   */
  lemma RemovingFlaggedDropsFlags(xs: seq<Actor>)
    ensures MemberFlags(xs, Kept(xs, Not(RemovalFlags(xs)))) == RemovalFlags(xs)
  {
    var flags := RemovalFlags(xs);
    var flagged := Kept(xs, Not(flags));
    forall k | 0 <= k < |xs|
      ensures MemberFlags(xs, flagged)[k] == flags[k]
    {
      KeptMembers(xs, Not(flags), k);
      if xs[k] in flagged {
        KeptFrom(xs, Not(flags), xs[k]);
      }
    }
  }

  /** The filter step of `removeDestroyedActors`: the actors destroyed or marked for removal, in order. */
  method FlaggedActors(actors: seq<Actor>, ghost keep: seq<bool>) returns (flagged: seq<Actor>)
    requires |keep| == |actors|
    requires forall k :: 0 <= k < |actors| ==> keep[k] == !(actors[k].isDestroyed || actors[k].shouldRemove)
    ensures flagged == Kept(actors, keep)
  {
    flagged := [];
    var i := 0;
    while i < |actors|
      invariant 0 <= i <= |actors|
      invariant flagged == Kept(actors[..i], keep[..i])
    {
      KeptPrefixStep(actors, keep, i);
      if actors[i].isDestroyed || actors[i].shouldRemove {
        flagged := flagged + [actors[i]];
      }
      i := i + 1;
    }
    KeptWhole(actors, keep);
  }



  /**
   * The loop of `removeDestroyedActors` over the enemy list: one kill per
   * destroyed actor (`destroyed`, their marks on entry).
   */
  method CountKills(user: Actor, destroyedActors: seq<Actor>, ghost destroyed: seq<bool>)
    requires user.kind.UserPlaneKind?
    requires |destroyed| == |destroyedActors|
    requires forall k :: 0 <= k < |destroyedActors| ==> destroyed[k] == destroyedActors[k].isDestroyed
    modifies user`numberOfKills
    ensures user.numberOfKills == old(user.numberOfKills) + CountTrue(destroyed)
  {
    var i := 0;
    while i < |destroyedActors|
      invariant 0 <= i <= |destroyedActors|
      invariant user.numberOfKills == old(user.numberOfKills) + CountTrue(destroyed[..i])
    {
      CountTrueAppend(destroyed[..i], destroyed[i]);
      assert destroyed[..i + 1] == destroyed[..i] + [destroyed[i]];
      if destroyedActors[i].isDestroyed {
        user.IncrementKillCount();
      }
      i := i + 1;
    }
    assert destroyed[..i] == destroyed;
  }

  /** `List.removeAll(removed)`: every element that occurs in `removed` goes, the rest keep their order. */
  method RemoveAll(actors: seq<Actor>, removed: seq<Actor>) returns (remaining: seq<Actor>)
    ensures remaining == Kept(actors, MemberFlags(actors, removed))
  {
    ghost var drop := MemberFlags(actors, removed);
    remaining := [];
    var i := 0;
    while i < |actors|
      invariant 0 <= i <= |actors|
      invariant remaining == Kept(actors[..i], drop[..i])
    {
      KeptPrefixStep(actors, drop, i);
      if actors[i] !in removed {
        remaining := remaining + [actors[i]];
      }
      i := i + 1;
    }
    assert actors[..i] == actors && drop[..i] == drop;
  }

  /** The five actor lists of a level; `handleCollisions` and `removeDestroyedActors` tell them apart by identity. */
  datatype ActorList = FriendlyUnits | EnemyUnits | UserProjectiles | EnemyProjectiles | HealthPoints

  /**
   * What the list `which` of a level with this user and boss may hold: the
   * friendly list at most the user, every other list actors of its own
   * category only, none twice.
   */
  ghost predicate Holds(which: ActorList, user: Actor, boss: Actor?, xs: seq<Actor>) {
    match which
    case FriendlyUnits => xs == [] || xs == [user]
    case EnemyUnits => (forall k :: 0 <= k < |xs| ==> xs[k].kind.EnemyPlaneKind? || xs[k] == boss) && Distinct(xs)
    case UserProjectiles => (forall k :: 0 <= k < |xs| ==> xs[k].kind.UserProjectileKind?) && Distinct(xs)
    case EnemyProjectiles =>
      (forall k :: 0 <= k < |xs| ==> xs[k].kind.EnemyProjectileKind? || xs[k].kind.BossProjectileKind?) && Distinct(xs)
    case HealthPoints => (forall k :: 0 <= k < |xs| ==> xs[k].kind.HealthPointKind?) && Distinct(xs)
  }

  /** Enemy planes appended to the enemy list, none of them twice, keep what it may hold. */
  lemma AppendedEnemiesHold(user: Actor, boss: Actor?, xs: seq<Actor>, ys: seq<Actor>)
    requires Holds(EnemyUnits, user, boss, xs) && Distinct(xs + ys)
    requires forall k :: 0 <= k < |ys| ==> ys[k].kind.EnemyPlaneKind?
    ensures Holds(EnemyUnits, user, boss, xs + ys)
  {
    forall k | 0 <= k < |xs + ys|
      ensures (xs + ys)[k].kind.EnemyPlaneKind? || (xs + ys)[k] == boss
    {
      if k < |xs| {
        assert (xs + ys)[k] == xs[k];
      } else {
        assert (xs + ys)[k] == ys[k - |xs|];
      }
    }
  }

  /** Filtering a list keeps what it may hold. */
  lemma KeptHolds(which: ActorList, user: Actor, boss: Actor?, xs: seq<Actor>, drop: seq<bool>)
    requires |xs| == |drop| && Holds(which, user, boss, xs)
    ensures Holds(which, user, boss, Kept(xs, drop))
  {
    KeptSubset(xs, drop);
    if which.FriendlyUnits? {
      if xs == [user] {
        assert Kept(xs, drop) == (if drop[0] then [] else [user]) + Kept([], []);
      }
    } else {
      KeptDistinct(xs, drop);
    }
  }

  /**
   * removeDestroyedActors(actors) for a list other than the enemy list: the
   * actors destroyed or marked for removal (`flags`, read on entry) leave
   * it, the rest keep their order.
   */
  method RemoveDestroyed(actors: seq<Actor>, ghost flags: seq<bool>) returns (remaining: seq<Actor>)
    requires flags == RemovalFlags(actors)
    ensures remaining == Kept(actors, flags)
  {
    KeepFlagsOf(actors);
    RemovingFlaggedDropsFlags(actors);
    var destroyedActors := FlaggedActors(actors, Not(flags));
    remaining := RemoveAll(actors, destroyedActors);
  }

  /**
   * removeDestroyedActors(enemyUnits): as RemoveDestroyed, and the user
   * gains one kill per destroyed enemy among them (`destroyed`, read on
   * entry; an enemy merely marked for removal scores nothing).
   */
  method RemoveDestroyedEnemies(user: Actor, enemies: seq<Actor>, ghost flags: seq<bool>, ghost destroyed: seq<bool>)
    returns (remaining: seq<Actor>)
    requires user.kind.UserPlaneKind?
    requires flags == RemovalFlags(enemies) && destroyed == DestroyedFlags(enemies)
    modifies user`numberOfKills
    ensures remaining == Kept(enemies, flags)
    ensures user.numberOfKills == old(user.numberOfKills) + CountTrue(destroyed)
  {
    KeepFlagsOf(enemies);
    RemovingFlaggedDropsFlags(enemies);
    CountKeptImplied(destroyed, flags);
    ghost var keep := Not(flags);
    var destroyedActors := FlaggedActors(enemies, keep);
    DestroyedFlagsOfKept(enemies, keep);
    assert DestroyedFlags(enemies) == destroyed;
    CountKills(user, destroyedActors, Kept(destroyed, keep));
    remaining := RemoveAll(enemies, destroyedActors);
  }

  /** One `removeIf` of removeOffScreenProjectiles: projectiles right of `width` go. */
  method RemoveOffScreen(projectiles: seq<Actor>, width: real, ghost drop: seq<bool>) returns (remaining: seq<Actor>)
    requires drop == OffScreenFlags(projectiles, width)
    ensures remaining == Kept(projectiles, drop)
  {
    remaining := [];
    var i := 0;
    while i < |projectiles|
      invariant 0 <= i <= |projectiles|
      invariant remaining == Kept(projectiles[..i], drop[..i])
    {
      KeptPrefixStep(projectiles, drop, i);
      var isOffScreen := projectiles[i].translateX > width;
      if !isOffScreen {
        remaining := remaining + [projectiles[i]];
      }
      i := i + 1;
    }
    assert projectiles[..i] == projectiles && drop[..i] == drop;
  }

  /**
   * handleEnemyPenetration(): every enemy whose |translateX| exceeds the
   * screen width is marked for removal and costs the user one hit; the
   * frame leaves every other field of the enemies as it was.
   */
  method PenetrationPass(user: Actor, enemies: seq<Actor>, width: real)
    requires user.kind.UserPlaneKind? && user !in enemies && Distinct(enemies)
    modifies user`health, user`isDestroyed, enemies`shouldRemove
    ensures user.Condition() == Hits(Fighter, old(user.Condition()), old(CountTrue(PenetrationFlags(enemies, width))))
    ensures forall k :: 0 <= k < |enemies| ==>
      enemies[k].shouldRemove == old(enemies[k].shouldRemove || Penetrated(enemies[k].translateX, width))
  {
    ghost var flags := PenetrationFlags(enemies, width);
    var i := 0;
    while i < |enemies|
      invariant 0 <= i <= |enemies|
      invariant user.Condition() == Hits(Fighter, old(user.Condition()), CountTrue(flags[..i]))
      invariant forall k :: 0 <= k < |enemies| ==>
        enemies[k].shouldRemove == (old(enemies[k].shouldRemove) || (k < i && flags[k]))
    {
      CountTrueAppend(flags[..i], flags[i]);
      assert flags[..i + 1] == flags[..i] + [flags[i]];
      if Penetrated(enemies[i].translateX, width) {
        user.TakeDamage();
        enemies[i].Remove();
      }
      i := i + 1;
    }
    assert flags[..i] == flags;
  }

  /** PenetrationPass, with what it leaves alone in the user and in one other actor (the boss) spelled out. */
  method PenetrationKeepingRests(user: Actor, enemies: seq<Actor>, width: real, other: Actor)
    requires user.kind.UserPlaneKind? && user !in enemies && Distinct(enemies)
    modifies user`health, user`isDestroyed, enemies`shouldRemove
    ensures user.Condition() == Hits(Fighter, old(user.Condition()), old(CountTrue(PenetrationFlags(enemies, width))))
    ensures forall k :: 0 <= k < |enemies| ==>
      enemies[k].shouldRemove == old(enemies[k].shouldRemove || Penetrated(enemies[k].translateX, width))
    ensures user.Rest() == old(user.Rest()) && other.Rest() == old(other.Rest()).(shouldRemove := other.shouldRemove)
  {
    PenetrationPass(user, enemies, width);
  }

  /**
   * destroyExpiredHealthPoints(): a pickup older than HP_LINGER_SEC seconds
   * at second `nowSecond` is destroyed; nothing else changes.
   */
  method ExpirePass(points: seq<Actor>, nowSecond: int)
    requires Distinct(points)
    modifies points
    ensures forall k :: 0 <= k < |points| ==>
      points[k].Rest() == old(points[k].Rest()) && points[k].health == old(points[k].health) &&
      points[k].isDestroyed == (old(points[k].isDestroyed) || Expired(points[k].CreatedTimeStamp(), HpLingerSec, nowSecond))
  {
    var i := 0;
    while i < |points|
      invariant 0 <= i <= |points|
      invariant forall k :: 0 <= k < |points| ==>
        points[k].Rest() == old(points[k].Rest()) && points[k].health == old(points[k].health) &&
        points[k].isDestroyed == (old(points[k].isDestroyed) || (k < i && Expired(points[k].CreatedTimeStamp(), HpLingerSec, nowSecond)))
    {
      if nowSecond - points[i].CreatedTimeStamp() > HpLingerSec {
        points[i].Destroy();
      }
      i := i + 1;
    }
  }

  /** What an actor needs before its `updateActor`. */
  ghost predicate ReadyToUpdate(xs: seq<Actor>, moveDraws: seq<nat>)
    reads set x | x in xs
  {
    forall k :: 0 <= k < |xs| ==> xs[k].Valid() && (xs[k].kind.BossKind? ==> ShuffleDraws(moveDraws, PatternSize))
  }

  /**
   * What `updateActor` does to one actor that was in state (`b`, `c`): it
   * makes its move and keeps its invariant, its health, flags, kill count and
   * steering stay, and the boss's shield takes its step.
   */
  ghost predicate UpdatedFrom(a: Actor, b: ActorRest, c: Vitals, moveDraws: seq<nat>, shieldDraw: Draw)
    reads a
  {
    a.PositionUpdatedFrom(b, moveDraws) && a.Valid() &&
    a.Condition() == c && a.shouldRemove == b.shouldRemove &&
    a.numberOfKills == b.numberOfKills && a.isFireDeactivated == b.isFireDeactivated &&
    a.verticalVelocityMultiplier == b.verticalVelocityMultiplier &&
    a.horizontalVelocityMultiplier == b.horizontalVelocityMultiplier &&
    (a.kind.BossKind? ==>
      a.ShieldState() == ShieldStep(Shield(b.isShielded, b.framesWithShieldActivated), ShieldShouldBeActivated(a.health, shieldDraw)))
  }

  /** One actor's `updateActor()`. */
  method UpdateOne(a: Actor, moveDraws: seq<nat>, shieldDraw: Draw)
    requires a.Valid() && (a.kind.BossKind? ==> ShuffleDraws(moveDraws, PatternSize))
    modifies a
    ensures UpdatedFrom(a, old(a.Rest()), old(a.Condition()), moveDraws, shieldDraw)
  {
    a.UpdateActor(moveDraws, shieldDraw);
  }

  /** `xs.forEach(a -> a.updateActor())`: every actor of the list is updated once. */
  method UpdateAll(xs: seq<Actor>, moveDraws: seq<nat>, shieldDraw: Draw)
    requires Distinct(xs) && ReadyToUpdate(xs, moveDraws)
    modifies xs
    ensures forall k :: 0 <= k < |xs| ==>
      UpdatedFrom(xs[k], old(xs[k].Rest()), old(xs[k].Condition()), moveDraws, shieldDraw)
  {
    var i := 0;
    while i < |xs|
      invariant 0 <= i <= |xs|
      invariant forall k :: i <= k < |xs| ==> unchanged(xs[k])
      invariant forall k :: 0 <= k < i ==>
        UpdatedFrom(xs[k], old(xs[k].Rest()), old(xs[k].Condition()), moveDraws, shieldDraw)
    {
      UpdateOne(xs[i], moveDraws, shieldDraw);
      i := i + 1;
    }
  }

  /**
   * generateEnemyFire() without the list it feeds: the projectiles of the
   * enemies that fire, the `k`th enemy drawing `draws[k]`, in enemy order.
   */
  method EnemyFire(enemies: seq<Actor>, draws: seq<Draw>, aspects: ImageAspects) returns (projectiles: seq<Actor>)
    requires |enemies| <= |draws|
    requires forall k :: 0 <= k < |enemies| ==> enemies[k].kind.EnemyPlaneKind? || enemies[k].kind.BossKind?
    ensures |projectiles| == CountTrue(FireFlags(enemies, draws))
    ensures Distinct(projectiles)
    ensures forall j :: 0 <= j < |projectiles| ==>
      fresh(projectiles[j]) && projectiles[j].Valid() &&
      (projectiles[j].kind.EnemyProjectileKind? || projectiles[j].kind.BossProjectileKind?)
  {
    var fires := FireFlags(enemies, draws);
    projectiles := [];
    var i := 0;
    while i < |enemies|
      invariant 0 <= i <= |enemies|
      invariant |projectiles| == CountTrue(fires[..i])
      invariant Distinct(projectiles)
      invariant forall j :: 0 <= j < |projectiles| ==>
        fresh(projectiles[j]) && projectiles[j].Valid() &&
        (projectiles[j].kind.EnemyProjectileKind? || projectiles[j].kind.BossProjectileKind?)
    {
      CountTrueAppend(fires[..i], fires[i]);
      assert fires[..i + 1] == fires[..i] + [fires[i]];
      var projectile := enemies[i].FireProjectile(draws[i], aspects);
      if projectile != null {
        projectiles := projectiles + [projectile];
      }
      i := i + 1;
    }
    assert fires[..i] == fires;
  }
}
