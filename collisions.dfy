// The collision rules between actor lists (util.CollisionHandler, and the
// nested loop of LevelParent.handleCollisions).
//
// Each rule tests every pair of a first and a second list for intersection
// and, for every intersecting pair, applies one response to the first actor
// and one to the second. Bounds do not move during a rule, so its outcome is
// fixed by the boxes at entry: an actor responds once for every box of the
// other list it intersects. The functions below count those contacts on box
// snapshots; the methods are proved to apply exactly that many responses.

module Collisions {
  import opened Wrappers
  import opened Geometry
  import opened Damage
  import opened Capped
  import opened Actors
  import opened Scoring

  /** How many of `others` the box `a` intersects. */
  function RowHits(a: Box, others: seq<Box>): (n: nat)
    ensures n <= |others|
  {
    if |others| == 0 then 0
    else RowHits(a, others[..|others| - 1]) + (if Intersects(a, others[|others| - 1]) then 1 else 0)
  }

  /** How many of `others` intersect the box `b`. */
  function ColHits(others: seq<Box>, b: Box): (n: nat)
    ensures n <= |others|
  {
    if |others| == 0 then 0
    else ColHits(others[..|others| - 1], b) + (if Intersects(others[|others| - 1], b) then 1 else 0)
  }

  /** The number of intersecting pairs, counted row by row. */
  function PairHits(firsts: seq<Box>, seconds: seq<Box>): nat {
    if |firsts| == 0 then 0
    else PairHits(firsts[..|firsts| - 1], seconds) + RowHits(firsts[|firsts| - 1], seconds)
  }

  /** The number of intersecting pairs, counted column by column. */
  function ColumnTotal(firsts: seq<Box>, seconds: seq<Box>): nat {
    if |seconds| == 0 then 0
    else ColumnTotal(firsts, seconds[..|seconds| - 1]) + ColHits(firsts, seconds[|seconds| - 1])
  }

  /** A box meets none of the others exactly when it makes no contact with them. */
  lemma {:induction false} RowHitsZero(a: Box, others: seq<Box>)
    ensures RowHits(a, others) == 0 <==> forall k :: 0 <= k < |others| ==> !Intersects(a, others[k])
  {
    if |others| > 0 {
      var rest := others[..|others| - 1];
      RowHitsZero(a, rest);
      assert forall k :: 0 <= k < |rest| ==> rest[k] == others[k];
    }
  }

  /** No box of the first list meets `b` exactly when `b` receives no contact. */
  lemma {:induction false} ColHitsZero(others: seq<Box>, b: Box)
    ensures ColHits(others, b) == 0 <==> forall k :: 0 <= k < |others| ==> !Intersects(others[k], b)
  {
    if |others| > 0 {
      var rest := others[..|others| - 1];
      ColHitsZero(rest, b);
      assert forall k :: 0 <= k < |rest| ==> rest[k] == others[k];
    }
  }

  /** No pair intersects exactly when the pair count is zero. */
  lemma {:induction false} PairHitsZero(firsts: seq<Box>, seconds: seq<Box>)
    ensures PairHits(firsts, seconds) == 0 <==>
      forall i, j :: 0 <= i < |firsts| && 0 <= j < |seconds| ==> !Intersects(firsts[i], seconds[j])
  {
    if |firsts| > 0 {
      var rest := firsts[..|firsts| - 1];
      PairHitsZero(rest, seconds);
      RowHitsZero(firsts[|firsts| - 1], seconds);
      assert forall i :: 0 <= i < |rest| ==> rest[i] == firsts[i];
    }
  }

  /** Counting one more of `others` adds that one's contact. */
  lemma RowHitsPrefix(a: Box, others: seq<Box>, j: nat)
    requires j < |others|
    ensures RowHits(a, others[..j + 1]) == RowHits(a, others[..j]) + (if Intersects(a, others[j]) then 1 else 0)
  {
    assert others[..j + 1][..j] == others[..j];
  }

  /** Counting one more row adds that row's contacts. */
  lemma PairHitsPrefix(firsts: seq<Box>, seconds: seq<Box>, i: nat)
    requires i < |firsts|
    ensures PairHits(firsts[..i + 1], seconds) == PairHits(firsts[..i], seconds) + RowHits(firsts[i], seconds)
  {
    assert firsts[..i + 1][..i] == firsts[..i];
  }

  /** Adding a row adds one contact to every column that row meets. */
  lemma ColHitsAppend(firsts: seq<Box>, a: Box, b: Box)
    ensures ColHits(firsts + [a], b) == ColHits(firsts, b) + (if Intersects(a, b) then 1 else 0)
  {
    assert (firsts + [a])[..|firsts|] == firsts;
  }

  lemma {:induction false} ColumnTotalAppend(firsts: seq<Box>, a: Box, seconds: seq<Box>)
    ensures ColumnTotal(firsts + [a], seconds) == ColumnTotal(firsts, seconds) + RowHits(a, seconds)
  {
    if |seconds| > 0 {
      ColumnTotalAppend(firsts, a, seconds[..|seconds| - 1]);
      ColHitsAppend(firsts, a, seconds[|seconds| - 1]);
    }
  }

  lemma {:induction false} ColumnTotalOfNoRows(seconds: seq<Box>)
    ensures ColumnTotal([], seconds) == 0
  {
    if |seconds| > 0 {
      ColumnTotalOfNoRows(seconds[..|seconds| - 1]);
    }
  }

  /**
   * Contacts made equal contacts received: summing the contacts each actor of
   * the first list makes gives the same total as summing the contacts each
   * actor of the second list receives.
   */
  lemma {:induction false} ContactsMadeEqualContactsReceived(firsts: seq<Box>, seconds: seq<Box>)
    ensures PairHits(firsts, seconds) == ColumnTotal(firsts, seconds)
  {
    if |firsts| == 0 {
      ColumnTotalOfNoRows(seconds);
    } else {
      var rest := firsts[..|firsts| - 1];
      ContactsMadeEqualContactsReceived(rest, seconds);
      assert rest + [firsts[|firsts| - 1]] == firsts;
      ColumnTotalAppend(rest, firsts[|firsts| - 1], seconds);
    }
  }

  /** What a rule does to one actor of an intersecting pair. */
  datatype Response =
    | TakeDamage                     // takeDamage()
    | Destroy                        // destroy()
    | RepairBelow(cap: Option<int>)  // repairDamage() while health is below the cap; nothing without a cap

  /** The health and destroyed flag after `n` responses `r`, for an actor that answers damage as `m`. */
  function Undergo(r: Response, m: Mode, v: Vitals, n: nat): Vitals {
    match r
    case TakeDamage => Hits(m, v, n)
    case Destroy => Wrecks(v, n)
    case RepairBelow(None) => v
    case RepairBelow(Some(cap)) => v.(health := CappedIncrements(v.health, cap, n))
  }

  /** One more contact is one more response. */
  lemma UndergoOneMore(r: Response, m: Mode, v: Vitals, n: nat)
    ensures Undergo(r, m, v, n + 1) == Undergo(r, m, Undergo(r, m, v, n), 1)
  {
    match r
    case TakeDamage =>
      assert Hits(m, Hits(m, v, n), 1) == Hit(m, Hits(m, v, n));
    case Destroy =>
      assert Wrecks(Wrecks(v, n), 1) == Wreck(Wrecks(v, n));
    case RepairBelow(None) =>
    case RepairBelow(Some(cap)) =>
      var h := CappedIncrements(v.health, cap, n);
      assert CappedIncrements(h, cap, 1) == if h < cap then h + 1 else h;
  }

  /** The boxes of a list of actors, in list order. */
  ghost function BoxesOf(xs: seq<Actor>): (r: seq<Box>)
    reads set x | x in xs
    ensures |r| == |xs| && forall k :: 0 <= k < |xs| ==> r[k] == xs[k].BoundsInParent()
  {
    if |xs| == 0 then [] else BoxesOf(xs[..|xs| - 1]) + [xs[|xs| - 1].BoundsInParent()]
  }

  /** The health and destroyed flags of a list of actors, in list order. */
  ghost function ConditionsOf(xs: seq<Actor>): (r: seq<Vitals>)
    reads set x | x in xs
    ensures |r| == |xs| && forall k :: 0 <= k < |xs| ==> r[k] == xs[k].Condition()
  {
    if |xs| == 0 then [] else ConditionsOf(xs[..|xs| - 1]) + [xs[|xs| - 1].Condition()]
  }

  /** The remaining fields of a list of actors, in list order. */
  ghost function RestsOf(xs: seq<Actor>): (r: seq<ActorRest>)
    reads set x | x in xs
    ensures |r| == |xs| && forall k :: 0 <= k < |xs| ==> r[k] == xs[k].Rest()
  {
    if |xs| == 0 then [] else RestsOf(xs[..|xs| - 1]) + [xs[|xs| - 1].Rest()]
  }

  /** A list of actors as it was when a rule started. */
  datatype Snapshot = Snapshot(boxes: seq<Box>, conds: seq<Vitals>, rests: seq<ActorRest>)
  {
    predicate Of(n: nat) {
      |boxes| == n && |conds| == n && |rests| == n
    }
  }

  ghost function SnapshotOf(xs: seq<Actor>): (s: Snapshot)
    reads set x | x in xs
    ensures s.Of(|xs|)
  {
    Snapshot(BoxesOf(xs), ConditionsOf(xs), RestsOf(xs))
  }

  predicate Distinct(xs: seq<Actor>) {
    forall p, q :: 0 <= p < |xs| && 0 <= q < |xs| && p != q ==> xs[p] != xs[q]
  }

  predicate Disjoint(xs: seq<Actor>, ys: seq<Actor>) {
    forall p, q :: 0 <= p < |xs| && 0 <= q < |ys| ==> xs[p] != ys[q]
  }

  /**
   * Progress of the first list: rows before `i` are done, row `i` has been
   * tested against the first `j` boxes of the second list, and every actor
   * kept its box and its other fields.
   */
  ghost predicate FirstsStruck(xs: seq<Actor>, s: Snapshot, seconds: seq<Box>, r: Response, i: nat, j: nat)
    reads set x | x in xs
  {
    s.Of(|xs|) && j <= |seconds| &&
    forall k :: 0 <= k < |xs| ==>
      xs[k].Rest() == s.rests[k] && xs[k].BoundsInParent() == s.boxes[k] &&
      xs[k].Condition() == Undergo(r, xs[k].DamageMode(), s.conds[k],
        if k < i then RowHits(s.boxes[k], seconds)
        else if k == i then RowHits(s.boxes[k], seconds[..j])
        else 0)
  }

  /**
   * Progress of the second list: every actor has received its contacts from
   * the rows before `i`, and from row `i` if it is among the first `j`.
   */
  ghost predicate SecondsStruck(ys: seq<Actor>, t: Snapshot, firsts: seq<Box>, r: Response, i: nat, j: nat)
    reads set y | y in ys
  {
    t.Of(|ys|) && i <= |firsts| &&
    forall k :: 0 <= k < |ys| ==>
      ys[k].Rest() == t.rests[k] && ys[k].BoundsInParent() == t.boxes[k] &&
      ys[k].Condition() == Undergo(r, ys[k].DamageMode(), t.conds[k],
        ColHits(firsts[..i], t.boxes[k]) +
        (if i < |firsts| && k < j && Intersects(firsts[i], t.boxes[k]) then 1 else 0))
  }

  /** `a` answers one contact with `r`. */
  method Respond(a: Actor, r: Response)
    requires r.RepairBelow? ==> a.kind.IsFighter()
    modifies a`health, a`isDestroyed
    ensures a.Condition() == Undergo(r, a.DamageMode(), old(a.Condition()), 1)
  {
    if r.TakeDamage? {
      a.TakeDamage();
      assert Hits(a.DamageMode(), old(a.Condition()), 1) == Hit(a.DamageMode(), old(a.Condition()));
    } else if r.Destroy? {
      a.Destroy();
      assert Wrecks(old(a.Condition()), 1) == Wreck(old(a.Condition()));
    } else if r.cap.Some? {
      if a.health < r.cap.value {
        a.RepairDamage();
      }
      assert CappedIncrements(old(a.health), r.cap.value, 1) ==
        if old(a.health) < r.cap.value then old(a.health) + 1 else old(a.health);
    }
  }

  /** The first half of a pair test: the intersection test, and the first actor's response. */
  method StrikeFirst(xs: seq<Actor>, a: Actor, b: Actor, ghost s: Snapshot, ghost seconds: seq<Box>,
                     r: Response, ghost i: nat, ghost j: nat)
    returns (met: bool)
    requires i < |xs| && j < |seconds| && a == xs[i] && Distinct(xs)
    requires r.RepairBelow? ==> a.kind.IsFighter()
    requires FirstsStruck(xs, s, seconds, r, i, j) && b.BoundsInParent() == seconds[j]
    modifies a`health, a`isDestroyed
    ensures met == Intersects(s.boxes[i], seconds[j])
    ensures FirstsStruck(xs, s, seconds, r, i, j + 1)
  {
    met := Intersects(a.BoundsInParent(), b.BoundsInParent());
    if met {
      Respond(a, r);
    }
    assert seconds[..j + 1][..j] == seconds[..j];
    UndergoOneMore(r, a.DamageMode(), s.conds[i], RowHits(s.boxes[i], seconds[..j]));
  }

  /** The second half of a pair test: the second actor's response. */
  method StrikeSecond(ys: seq<Actor>, b: Actor, ghost t: Snapshot, ghost firsts: seq<Box>,
                      r: Response, met: bool, ghost i: nat, ghost j: nat)
    requires i < |firsts| && j < |ys| && b == ys[j] && Distinct(ys)
    requires r.RepairBelow? ==> b.kind.IsFighter()
    requires SecondsStruck(ys, t, firsts, r, i, j) && met == Intersects(firsts[i], t.boxes[j])
    modifies b`health, b`isDestroyed
    ensures SecondsStruck(ys, t, firsts, r, i, j + 1)
  {
    if met {
      Respond(b, r);
    }
    UndergoOneMore(r, b.DamageMode(), t.conds[j], ColHits(firsts[..i], t.boxes[j]));
  }

  /**
   * What a rule over `xs` and `ys` may rely on throughout: the snapshots fit
   * the lists, no actor appears twice in a list or in both, and only fighters
   * are asked to repair.
   */
  ghost predicate Setting(xs: seq<Actor>, ys: seq<Actor>, s: Snapshot, t: Snapshot, r1: Response, r2: Response) {
    s.Of(|xs|) && t.Of(|ys|) && Distinct(xs) && Distinct(ys) && Disjoint(xs, ys) &&
    (r1.RepairBelow? ==> forall k :: 0 <= k < |xs| ==> xs[k].kind.IsFighter()) &&
    (r2.RepairBelow? ==> forall k :: 0 <= k < |ys| ==> ys[k].kind.IsFighter())
  }

  /** Where the nested loop stands: row `i`, column `j`, both lists' progress. */
  ghost predicate Progress(xs: seq<Actor>, ys: seq<Actor>, s: Snapshot, t: Snapshot, r1: Response, r2: Response,
                           i: nat, j: nat)
    reads set x | x in xs, set y | y in ys
  {
    Setting(xs, ys, s, t, r1, r2) && i <= |xs| &&
    FirstsStruck(xs, s, t.boxes, r1, i, j) && SecondsStruck(ys, t, s.boxes, r2, i, j)
  }

  /**
   * One pair test: the intersection test, the first actor's response and the
   * second actor's response. Neither list's progress disturbs the other's.
   */
  method Strike(xs: seq<Actor>, ys: seq<Actor>, a: Actor, b: Actor, ghost s: Snapshot, ghost t: Snapshot,
                r1: Response, r2: Response, ghost i: nat, ghost j: nat)
    returns (met: bool)
    requires Progress(xs, ys, s, t, r1, r2, i, j) && i < |xs| && j < |ys| && a == xs[i] && b == ys[j]
    modifies a`health, a`isDestroyed, b`health, b`isDestroyed
    ensures met == Intersects(s.boxes[i], t.boxes[j])
    ensures Progress(xs, ys, s, t, r1, r2, i, j + 1)
  {
    assert a !in ys && b !in xs;
    met := StrikeFirst(xs, a, b, s, t.boxes, r1, i, j);
    StrikeSecond(ys, b, t, s.boxes, r2, met, i, j);
  }

  /** A finished row of the first list is a done row. */
  lemma FirstsRowDone(xs: seq<Actor>, s: Snapshot, seconds: seq<Box>, r: Response, i: nat)
    requires FirstsStruck(xs, s, seconds, r, i, |seconds|)
    ensures FirstsStruck(xs, s, seconds, r, i + 1, 0)
  {
    assert seconds[..|seconds|] == seconds;
  }

  /** After a full row, every second actor has received that row's contacts. */
  lemma SecondsRowDone(ys: seq<Actor>, t: Snapshot, firsts: seq<Box>, r: Response, i: nat)
    requires i < |firsts| && SecondsStruck(ys, t, firsts, r, i, |ys|)
    ensures SecondsStruck(ys, t, firsts, r, i + 1, 0)
  {
    assert firsts[..i + 1] == firsts[..i] + [firsts[i]];
    forall k | 0 <= k < |ys| {
      ColHitsAppend(firsts[..i], firsts[i], t.boxes[k]);
    }
  }

  /** A finished row moves the nested loop to the start of the next one. */
  lemma RowDone(xs: seq<Actor>, ys: seq<Actor>, s: Snapshot, t: Snapshot, r1: Response, r2: Response, i: nat)
    requires Progress(xs, ys, s, t, r1, r2, i, |ys|) && i < |xs|
    ensures Progress(xs, ys, s, t, r1, r2, i + 1, 0)
  {
    FirstsRowDone(xs, s, t.boxes, r1, i);
    SecondsRowDone(ys, t, s.boxes, r2, i);
  }

  /**
   * The outcome of a rule over the lists `xs` and `ys` that were `s` and `t`
   * before it: each actor of `xs` responded with `r1` once per box of `ys` it
   * met, each actor of `ys` with `r2` once per box of `xs` that met it, and
   * nothing but health and the destroyed flags changed.
   */
  ghost predicate Resolved(xs: seq<Actor>, ys: seq<Actor>, r1: Response, r2: Response, s: Snapshot, t: Snapshot)
    reads set x | x in xs, set y | y in ys
  {
    s.Of(|xs|) && t.Of(|ys|) &&
    (forall k :: 0 <= k < |xs| ==>
      xs[k].Rest() == s.rests[k] &&
      xs[k].Condition() == Undergo(r1, xs[k].DamageMode(), s.conds[k], RowHits(s.boxes[k], t.boxes))) &&
    (forall k :: 0 <= k < |ys| ==>
      ys[k].Rest() == t.rests[k] &&
      ys[k].Condition() == Undergo(r2, ys[k].DamageMode(), t.conds[k], ColHits(s.boxes, t.boxes[k])))
  }

  /** The prefix as long as the whole sequence is the whole sequence. */
  lemma WholePrefix(bs: seq<Box>)
    ensures bs[..|bs|] == bs
  {
  }

  /** A nested loop that has gone through every row leaves the state `Resolved` describes. */
  lemma ResolvedFromProgress(xs: seq<Actor>, ys: seq<Actor>, r1: Response, r2: Response, s: Snapshot, t: Snapshot)
    requires FirstsStruck(xs, s, t.boxes, r1, |xs|, 0) && SecondsStruck(ys, t, s.boxes, r2, |xs|, 0)
    ensures Resolved(xs, ys, r1, r2, s, t)
  {
    assert s.boxes[..|xs|] == s.boxes;
  }

  /**
   * One row of the nested loop: the actor `xs[i]` against every actor of
   * `ys`. Returns the number of them it met.
   */
  method ResolveRow(xs: seq<Actor>, ys: seq<Actor>, a: Actor, ghost s: Snapshot, ghost t: Snapshot,
                    r1: Response, r2: Response, ghost i: nat)
    returns (rowHits: nat)
    requires Progress(xs, ys, s, t, r1, r2, i, 0) && i < |xs| && a == xs[i]
    modifies a`health, a`isDestroyed, ys
    ensures rowHits == RowHits(s.boxes[i], t.boxes)
    ensures Progress(xs, ys, s, t, r1, r2, i + 1, 0)
  {
    rowHits := 0;
    var j := 0;
    while j < |ys|
      invariant j <= |ys| && Progress(xs, ys, s, t, r1, r2, i, j)
      invariant rowHits == RowHits(s.boxes[i], t.boxes[..j])
    {
      var met := Strike(xs, ys, a, ys[j], s, t, r1, r2, i, j);
      if met {
        rowHits := rowHits + 1;
      }
      RowHitsPrefix(s.boxes[i], t.boxes, j);
      j := j + 1;
    }
    assert t.boxes[..|ys|] == t.boxes;
    RowDone(xs, ys, s, t, r1, r2, i);
  }

  /** The rows of the nested loop, from lists that have not been touched yet. */
  method ResolveRows(xs: seq<Actor>, ys: seq<Actor>, ghost s: Snapshot, ghost t: Snapshot, r1: Response, r2: Response)
    returns (hits: nat)
    requires Progress(xs, ys, s, t, r1, r2, 0, 0)
    modifies xs, ys
    ensures hits == PairHits(s.boxes, t.boxes)
    ensures Resolved(xs, ys, r1, r2, s, t)
  {
    hits := 0;
    var i := 0;
    while i < |xs|
      invariant Progress(xs, ys, s, t, r1, r2, i, 0)
      invariant hits == PairHits(s.boxes[..i], t.boxes)
    {
      var rowHits := ResolveRow(xs, ys, xs[i], s, t, r1, r2, i);
      hits := hits + rowHits;
      PairHitsPrefix(s.boxes, t.boxes, i);
      i := i + 1;
    }
    assert s.boxes[..|xs|] == s.boxes;
    ResolvedFromProgress(xs, ys, r1, r2, s, t);
  }

  /**
   * The nested loop shared by the pair rules: every actor of `xs` against
   * every actor of `ys`, `r1` for the first and `r2` for the second of each
   * intersecting pair. Returns the number of intersecting pairs.
   */
  method ResolvePairs(xs: seq<Actor>, ys: seq<Actor>, r1: Response, r2: Response) returns (hits: nat)
    requires Distinct(xs) && Distinct(ys) && Disjoint(xs, ys)
    requires r1.RepairBelow? ==> forall k :: 0 <= k < |xs| ==> xs[k].kind.IsFighter()
    requires r2.RepairBelow? ==> forall k :: 0 <= k < |ys| ==> ys[k].kind.IsFighter()
    modifies xs, ys
    ensures Resolved(xs, ys, r1, r2, old(SnapshotOf(xs)), old(SnapshotOf(ys)))
    ensures hits == PairHits(old(BoxesOf(xs)), old(BoxesOf(ys)))
  {
    ghost var s := SnapshotOf(xs);
    ghost var t := SnapshotOf(ys);
    hits := ResolveRows(xs, ys, s, t, r1, r2);
  }

  /** An actor a rule visits, in either list, keeps everything but its health and destroyed flag. */
  lemma ResolvedKeepsRest(xs: seq<Actor>, ys: seq<Actor>, r1: Response, r2: Response, s: Snapshot, t: Snapshot,
                          a: Actor, rest: ActorRest)
    requires Resolved(xs, ys, r1, r2, s, t)
    requires forall k :: 0 <= k < |xs| && xs[k] == a ==> s.rests[k] == rest
    requires forall k :: 0 <= k < |ys| && ys[k] == a ==> t.rests[k] == rest
    ensures a in xs || a in ys ==> a.Rest() == rest
  {
    if a in xs {
      var k :| 0 <= k < |xs| && xs[k] == a;
    } else if a in ys {
      var k :| 0 <= k < |ys| && ys[k] == a;
    }
  }

  /** A response answered no time leaves the actor as it was. */
  lemma NoContactNoEffect(r: Response, m: Mode, v: Vitals, a: Box, others: seq<Box>)
    requires forall k :: 0 <= k < |others| ==> !Intersects(a, others[k])
    ensures Undergo(r, m, v, RowHits(a, others)) == v
  {
    RowHitsZero(a, others);
  }

  /** The same for an actor of the second list that no box of the first list meets. */
  lemma NoContactReceivedNoEffect(r: Response, m: Mode, v: Vitals, others: seq<Box>, b: Box)
    requires forall k :: 0 <= k < |others| ==> !Intersects(others[k], b)
    ensures Undergo(r, m, v, ColHits(others, b)) == v
  {
    ColHitsZero(others, b);
  }

  /** `destroy` answered any positive number of times only sets the destroyed flag. */
  lemma DestroyedByAnyContact(m: Mode, v: Vitals, n: nat)
    ensures Undergo(Destroy, m, v, n) == if n == 0 then v else Vitals(v.health, true)
  {
    WrecksIdempotent(v, n);
  }

  /** Against a single box, the contact count is that pair's intersection test. */
  lemma SingleRow(a: Box, b: Box)
    ensures ColHits([a], b) == (if Intersects(a, b) then 1 else 0)
    ensures RowHits(b, [a]) == (if Intersects(b, a) then 1 else 0)
  {
    assert [a][..0] == [];
  }

  /**
   * handleUserProjectileCollisions: each intersecting pair damages both the
   * projectile and the enemy and adds the score of the user's position.
   * The user plane does not move during the rule, so every hit adds the same
   * score, and the sum lies between one and six points per hit.
   */
  method HandleUserProjectileCollisions(user: Actor, userProjectiles: seq<Actor>, enemyUnits: seq<Actor>)
    returns (scoreIndex: int)
    requires Distinct(userProjectiles) && Distinct(enemyUnits) && Disjoint(userProjectiles, enemyUnits)
    modifies userProjectiles, enemyUnits
    ensures Resolved(userProjectiles, enemyUnits, TakeDamage, TakeDamage,
                     old(SnapshotOf(userProjectiles)), old(SnapshotOf(enemyUnits)))
    ensures var hits := PairHits(old(BoxesOf(userProjectiles)), old(BoxesOf(enemyUnits)));
      scoreIndex == hits * old(CalculateUserScoreByPosition(user)) && hits <= scoreIndex <= 6 * hits
  {
    var points := CalculateUserScoreByPosition(user);
    var hits := ResolvePairs(userProjectiles, enemyUnits, TakeDamage, TakeDamage);
    scoreIndex := hits * points;
    ScoreSum(hits, points);
  }

  /** The boss's half of a projectile test: damage only while it is unshielded. */
  method StrikeBoss(ys: seq<Actor>, boss: Actor, ghost t: Snapshot, ghost firsts: seq<Box>, met: bool, ghost i: nat)
    returns (damaged: bool)
    requires i < |firsts| && ys == [boss] && boss.kind.BossKind?
    requires SecondsStruck(ys, t, firsts, TakeDamage, i, 0) && met == Intersects(firsts[i], t.boxes[0])
    modifies boss`health, boss`isDestroyed
    ensures damaged == (met && !t.rests[0].isShielded)
    ensures SecondsStruck(ys, t, firsts, TakeDamage, i, 1)
  {
    ghost var v := boss.Condition();
    damaged := met && !boss.isShielded;
    if damaged {
      boss.TakeDamage();
    }
    assert Hits(boss.DamageMode(), v, 1) == Hit(boss.DamageMode(), v);
    assert boss.Condition() == if met then Hit(boss.DamageMode(), v) else v;
    UndergoOneMore(TakeDamage, boss.DamageMode(), t.conds[0], ColHits(firsts[..i], t.boxes[0]));
  }

  /** One projectile against the boss, with the row finished on both sides. */
  method StrikeProjectileBoss(xs: seq<Actor>, ys: seq<Actor>, a: Actor, boss: Actor, ghost s: Snapshot, ghost t: Snapshot,
                              ghost i: nat)
    returns (damaged: bool)
    requires ys == [boss] && boss.kind.BossKind?
    requires Progress(xs, ys, s, t, TakeDamage, TakeDamage, i, 0) && i < |xs| && a == xs[i]
    modifies a`health, a`isDestroyed, boss`health, boss`isDestroyed
    ensures damaged == (Intersects(s.boxes[i], t.boxes[0]) && !t.rests[0].isShielded)
    ensures Progress(xs, ys, s, t, TakeDamage, TakeDamage, i + 1, 0)
  {
    assert a !in ys && boss !in xs;
    var met := StrikeFirst(xs, a, boss, s, t.boxes, TakeDamage, i, 0);
    damaged := StrikeBoss(ys, boss, t, s.boxes, met, i);
    RowDone(xs, ys, s, t, TakeDamage, TakeDamage, i);
  }

  /** Scores of equal size add up to their count times their size. */
  lemma ScoreSum(hits: nat, points: int)
    requires 1 <= points <= 6
    ensures hits <= hits * points <= 6 * hits
    ensures (hits + 1) * points == hits * points + points
  {
  }

  /**
   * handleUserProjectileBossCollisions: an intersecting projectile always
   * takes damage; the boss takes damage and the hit scores only while the
   * boss is unshielded. A shielded boss is not asked to take damage at all,
   * and its `takeDamage` would ignore the hit anyway, so the outcome is the
   * pair rule with damage on both sides.
   */
  method HandleUserProjectileBossCollisions(user: Actor, userProjectiles: seq<Actor>, boss: Actor)
    returns (scoreIndex: int)
    requires boss.kind.BossKind?
    requires Distinct(userProjectiles) && Disjoint(userProjectiles, [boss])
    modifies userProjectiles, boss`health, boss`isDestroyed
    ensures Resolved(userProjectiles, [boss], TakeDamage, TakeDamage,
                     old(SnapshotOf(userProjectiles)), old(SnapshotOf([boss])))
    ensures var hits := ColHits(old(BoxesOf(userProjectiles)), old(boss.BoundsInParent()));
      scoreIndex == (if old(boss.isShielded) then 0 else hits * old(CalculateUserScoreByPosition(user)))
  {
    ghost var s := SnapshotOf(userProjectiles);
    ghost var t := SnapshotOf([boss]);
    var points := CalculateUserScoreByPosition(user);
    scoreIndex := ResolveBossRows(userProjectiles, [boss], boss, s, t, points);
  }

  /**
   * The score the boss rule adds up over the projectile boxes `firsts`:
   * `points` for each one that meets the boss box `b`, none while the boss
   * is shielded.
   */
  function BossScore(firsts: seq<Box>, b: Box, points: int, shielded: bool): (score: int)
    ensures shielded ==> score == 0
  {
    if |firsts| == 0 || shielded then 0
    else BossScore(firsts[..|firsts| - 1], b, points, shielded) + (if Intersects(firsts[|firsts| - 1], b) then points else 0)
  }

  /** The boss rule's score is the number of hits times the points of one hit, or nothing while shielded. */
  lemma {:induction false} BossScoreIsHitsTimesPoints(firsts: seq<Box>, b: Box, points: int, shielded: bool)
    ensures BossScore(firsts, b, points, shielded) == if shielded then 0 else ColHits(firsts, b) * points
  {
    if |firsts| > 0 && !shielded {
      var n := |firsts| - 1;
      BossScoreIsHitsTimesPoints(firsts[..n], b, points, shielded);
      var hits := ColHits(firsts[..n], b);
      assert (hits + 1) * points == hits * points + points;
    }
  }

  /** The boss rule's score after one more projectile. */
  lemma BossScoreStep(firsts: seq<Box>, b: Box, i: nat, points: int, shielded: bool)
    requires i < |firsts|
    ensures BossScore(firsts[..i + 1], b, points, shielded) ==
      BossScore(firsts[..i], b, points, shielded) + (if Intersects(firsts[i], b) && !shielded then points else 0)
  {
    assert firsts[..i + 1][..i] == firsts[..i];
  }

  /** One pass of the loop of handleUserProjectileBossCollisions: the test, and the score of a hit. */
  method ScoreProjectileBoss(xs: seq<Actor>, ys: seq<Actor>, a: Actor, boss: Actor, ghost s: Snapshot,
                             ghost t: Snapshot, ghost i: nat, points: int, scoreIndex: int)
    returns (scoreIndex': int)
    requires ys == [boss] && boss.kind.BossKind?
    requires Progress(xs, ys, s, t, TakeDamage, TakeDamage, i, 0) && i < |xs| && a == xs[i]
    requires scoreIndex == BossScore(s.boxes[..i], t.boxes[0], points, t.rests[0].isShielded)
    modifies a`health, a`isDestroyed, boss`health, boss`isDestroyed
    ensures Progress(xs, ys, s, t, TakeDamage, TakeDamage, i + 1, 0)
    ensures scoreIndex' == BossScore(s.boxes[..i + 1], t.boxes[0], points, t.rests[0].isShielded)
  {
    var damaged := StrikeProjectileBoss(xs, ys, a, boss, s, t, i);
    scoreIndex' := scoreIndex;
    if damaged {
      scoreIndex' := scoreIndex + points;
    }
    BossScoreStep(s.boxes, t.boxes[0], i, points, t.rests[0].isShielded);
  }

  /** The loop of handleUserProjectileBossCollisions, from untouched actors. */
  method ResolveBossRows(xs: seq<Actor>, ys: seq<Actor>, boss: Actor, ghost s: Snapshot, ghost t: Snapshot, points: int)
    returns (scoreIndex: int)
    requires ys == [boss] && boss.kind.BossKind?
    requires Progress(xs, ys, s, t, TakeDamage, TakeDamage, 0, 0)
    modifies xs, boss`health, boss`isDestroyed
    ensures Resolved(xs, ys, TakeDamage, TakeDamage, s, t)
    ensures scoreIndex == if t.rests[0].isShielded then 0 else ColHits(s.boxes, t.boxes[0]) * points
  {
    scoreIndex := 0;
    var i := 0;
    while i < |xs|
      invariant Progress(xs, ys, s, t, TakeDamage, TakeDamage, i, 0)
      invariant scoreIndex == BossScore(s.boxes[..i], t.boxes[0], points, t.rests[0].isShielded)
    {
      scoreIndex := ScoreProjectileBoss(xs, ys, xs[i], boss, s, t, i, points, scoreIndex);
      i := i + 1;
    }
    WholePrefix(s.boxes);
    BossScoreIsHitsTimesPoints(s.boxes, t.boxes[0], points, t.rests[0].isShielded);
    ResolvedFromProgress(xs, ys, TakeDamage, TakeDamage, s, t);
  }

  /** handleEnemyProjectileCollisions: each intersecting pair damages both. */
  method HandleEnemyProjectileCollisions(enemyProjectiles: seq<Actor>, friendlyUnits: seq<Actor>)
    requires Distinct(enemyProjectiles) && Distinct(friendlyUnits) && Disjoint(enemyProjectiles, friendlyUnits)
    modifies enemyProjectiles, friendlyUnits
    ensures Resolved(enemyProjectiles, friendlyUnits, TakeDamage, TakeDamage,
                     old(SnapshotOf(enemyProjectiles)), old(SnapshotOf(friendlyUnits)))
  {
    var _ := ResolvePairs(enemyProjectiles, friendlyUnits, TakeDamage, TakeDamage);
  }

  /** handlePlaneCollisions: the friendly takes damage, the enemy is destroyed outright. */
  method HandlePlaneCollisions(friendlyUnits: seq<Actor>, enemyUnits: seq<Actor>)
    requires Distinct(friendlyUnits) && Distinct(enemyUnits) && Disjoint(friendlyUnits, enemyUnits)
    modifies friendlyUnits, enemyUnits
    ensures Resolved(friendlyUnits, enemyUnits, TakeDamage, Destroy,
                     old(SnapshotOf(friendlyUnits)), old(SnapshotOf(enemyUnits)))
  {
    var _ := ResolvePairs(friendlyUnits, enemyUnits, TakeDamage, Destroy);
  }

  /**
   * handleUserHealthPointCollisions: each pickup the user meets repairs the
   * user while its health is below `playerInitHealth`, and is destroyed
   * either way.
   */
  method HandleUserHealthPointCollisions(playerInitHealth: int, user: Actor, healthPoints: seq<Actor>)
    requires user.kind.UserPlaneKind?
    requires Distinct(healthPoints) && Disjoint([user], healthPoints)
    modifies user, healthPoints
    ensures Resolved([user], healthPoints, RepairBelow(Some(playerInitHealth)), Destroy,
                     old(SnapshotOf([user])), old(SnapshotOf(healthPoints)))
  {
    var _ := ResolvePairs([user], healthPoints, RepairBelow(Some(playerInitHealth)), Destroy);
  }

  /** Whether the actor `a` intersects any actor of `xs`. */
  ghost predicate MeetsAny(a: Actor, xs: seq<Actor>)
    reads a, set x | x in xs
  {
    exists k :: 0 <= k < |xs| && Intersects(a.BoundsInParent(), xs[k].BoundsInParent())
  }

  /**
   * The first loop of handleUserBossFireDeactivatorCollisions: fire is
   * deactivated on the boss for every deactivator the user plane meets, and
   * the loop reports whether there was any.
   */
  method DeactivateFireOnContact(user: Actor, boss: Actor, fireDeactivators: seq<Actor>) returns (collided: bool)
    requires boss.kind.BossKind?
    modifies boss`isFireDeactivated
    ensures collided <==> MeetsAny(user, fireDeactivators)
    ensures boss.isFireDeactivated == (old(boss.isFireDeactivated) || collided)
  {
    collided := false;
    var j := 0;
    while j < |fireDeactivators|
      invariant 0 <= j <= |fireDeactivators|
      invariant collided <==> MeetsAny(user, fireDeactivators[..j])
      invariant boss.isFireDeactivated == (old(boss.isFireDeactivated) || collided)
    {
      if Intersects(user.BoundsInParent(), fireDeactivators[j].BoundsInParent()) {
        collided := true;
        boss.DeactivateFire();
      }
      j := j + 1;
    }
  }

  /** The second loop: every actor of the list is destroyed, and nothing else changes. */
  method DestroyAll(xs: seq<Actor>)
    modifies xs
    ensures forall k :: 0 <= k < |xs| ==>
      xs[k].isDestroyed && xs[k].health == old(xs[k].health) && xs[k].OnlyConditionChanged()
  {
    var j := 0;
    while j < |xs|
      invariant 0 <= j <= |xs|
      invariant forall k :: 0 <= k < j ==> xs[k].isDestroyed
      invariant forall k :: 0 <= k < |xs| ==> xs[k].health == old(xs[k].health) && xs[k].OnlyConditionChanged()
    {
      xs[j].Destroy();
      j := j + 1;
    }
  }

  /**
   * handleUserBossFireDeactivatorCollisions: when the user plane meets any
   * fire deactivator, fire is deactivated on the boss and every deactivator
   * of the list is destroyed; when it meets none, nothing changes.
   */
  method HandleUserBossFireDeactivatorCollisions(user: Actor, boss: Actor, fireDeactivators: seq<Actor>)
    requires boss.kind.BossKind?
    modifies boss`isFireDeactivated, fireDeactivators
    ensures var collided := old(MeetsAny(user, fireDeactivators));
      boss.isFireDeactivated == (old(boss.isFireDeactivated) || collided) &&
      forall k :: 0 <= k < |fireDeactivators| ==>
        fireDeactivators[k].isDestroyed == (old(fireDeactivators[k].isDestroyed) || collided) &&
        fireDeactivators[k].health == old(fireDeactivators[k].health) &&
        (fireDeactivators[k] != boss ==> fireDeactivators[k].OnlyConditionChanged())
  {
    var collided := DeactivateFireOnContact(user, boss, fireDeactivators);
    if collided {
      DestroyAll(fireDeactivators);
    }
  }
}
