// What `takeDamage`, `destroy` and `repairDamage` do to an actor's health and
// destroyed flag, as values.

module Damage {

  /** How an actor answers `takeDamage`. */
  datatype Mode =
    | Fighter   // FighterPlane: loses one health point, destroyed when health reaches 0
    | Fragile   // Projectile, HealthPoint: destroyed by any hit
    | Immune    // FireDeactivator, and a Boss while its shield is up: ignores hits

  /** The part of an actor's state that damage and repair act on. */
  datatype Vitals = Vitals(health: int, destroyed: bool)

  /** One `takeDamage` call. */
  function Hit(m: Mode, v: Vitals): Vitals {
    match m
    case Fighter => Vitals(v.health - 1, v.destroyed || v.health - 1 == 0)
    case Fragile => v.(destroyed := true)
    case Immune => v
  }

  /** `n` successive `takeDamage` calls. */
  function Hits(m: Mode, v: Vitals, n: nat): Vitals {
    if n == 0 then v else Hit(m, Hits(m, v, n - 1))
  }

  /** One `destroy` call. */
  function Wreck(v: Vitals): Vitals {
    v.(destroyed := true)
  }

  /** `destroy` called once for each of `n` collisions. */
  function Wrecks(v: Vitals, n: nat): Vitals {
    if n == 0 then v else Wreck(Wrecks(v, n - 1))
  }

  /**
   * A fighter loses exactly one health point per hit, without a lower clamp,
   * and is destroyed after `n` hits exactly when it already was or its health
   * passed through 0 on the way, that is when 1 <= health <= n.
   */
  lemma {:induction false} FighterHits(v: Vitals, n: nat)
    ensures Hits(Fighter, v, n) == Vitals(v.health - n, v.destroyed || 1 <= v.health <= n)
  {
    if n > 0 {
      FighterHits(v, n - 1);
    }
  }

  /** Once destroyed, a fighter stays destroyed whatever further damage it takes. */
  lemma DestroyedFighterStaysDestroyed(v: Vitals, n: nat)
    requires v.destroyed
    ensures Hits(Fighter, v, n).destroyed
  {
    FighterHits(v, n);
  }

  /** An intact fighter with health h > 0 is destroyed by exactly its h-th hit. */
  lemma FighterDestroyedByHealthHits(v: Vitals, n: nat)
    requires !v.destroyed && v.health > 0
    ensures Hits(Fighter, v, n).destroyed <==> n >= v.health
  {
    FighterHits(v, n);
  }

  /** A fragile actor is destroyed by its first hit; later hits change nothing more. */
  lemma {:induction false} FragileHits(v: Vitals, n: nat)
    ensures Hits(Fragile, v, n) == if n == 0 then v else v.(destroyed := true)
  {
    if n > 1 {
      FragileHits(v, n - 1);
    }
  }

  /** An immune actor ignores any number of hits. */
  lemma {:induction false} ImmuneHits(v: Vitals, n: nat)
    ensures Hits(Immune, v, n) == v
  {
    if n > 0 {
      ImmuneHits(v, n - 1);
    }
  }

  /** Repeated `destroy` is the same as a single one. */
  lemma {:induction false} WrecksIdempotent(v: Vitals, n: nat)
    ensures Wrecks(v, n) == if n == 0 then v else Wreck(v)
  {
    if n > 1 {
      WrecksIdempotent(v, n - 1);
    }
  }
}
