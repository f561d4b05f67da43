/**
 The active -> removed lifecycle of the entities in a child list: the
 capacity gate that admits a new balloon, and the expiry of entities whose
 removal timers have fired.
 */
module Lifecycle {
  import opened Entities

  /** Every id in `s` was handed out before `next`. */
  ghost predicate IdsBelow(s: seq<Entity>, next: nat)
  {
    forall e :: e in s ==> e.id < next
  }

  /** Ids grow along the list (entities are appended in creation order). */
  ghost predicate IdsIncreasing(s: seq<Entity>)
  {
    forall i, j :: 0 <= i < j < |s| ==> s[i].id < s[j].id
  }

  /** No entity of `a` shares an id with an entity of `b`. */
  ghost predicate IdsDisjoint(a: seq<Entity>, b: seq<Entity>)
  {
    forall e, f :: e in a && f in b ==> e.id != f.id
  }

  /**
   The child list after every removal timer due by time `now` has fired: an
   entity stays exactly when its deadline is still in the future, and the
   survivors keep their relative order.
   */
  function Expire(es: seq<Entity>, now: int): (r: seq<Entity>)
    ensures forall e :: e in r <==> e in es && now < e.deadline
    ensures |r| <= |es|
    ensures IdsIncreasing(es) ==> IdsIncreasing(r)
  {
    if es == [] then []
    else
      var rest := Expire(es[1..], now);
      if now < es[0].deadline then [es[0]] + rest else rest
  }

  /** Expiry acts on each part of a list independently. */
  lemma {:induction false} ExpireAppend(a: seq<Entity>, b: seq<Entity>, now: int)
    ensures Expire(a + b, now) == Expire(a, now) + Expire(b, now)
  {
    if a == [] {
      assert a + b == b;
    } else {
      assert (a + b)[1..] == a[1..] + b;
      ExpireAppend(a[1..], b, now);
    }
  }

  /** Entities whose deadlines have not passed are left exactly as they were. */
  lemma {:induction false} ExpireNoneDue(es: seq<Entity>, now: int)
    requires forall e :: e in es ==> now < e.deadline
    ensures Expire(es, now) == es
  {
    if es != [] {
      ExpireNoneDue(es[1..], now);
    }
  }

  /** Firing the timers due by `t1` and then those due by `t2` is firing those due by the later of the two. */
  lemma {:induction false} ExpireTwice(es: seq<Entity>, t1: int, t2: int)
    ensures Expire(Expire(es, t1), t2) == Expire(es, if t1 < t2 then t2 else t1)
  {
    if es != [] {
      ExpireTwice(es[1..], t1, t2);
      var rest := Expire(es[1..], t1);
      if t1 < es[0].deadline {
        assert ([es[0]] + rest)[1..] == rest;
      }
    }
  }

  /** A later clock never brings an entity back: the survivors shrink with time. */
  lemma ExpireShrinksWithTime(es: seq<Entity>, t1: int, t2: int)
    requires t1 <= t2
    ensures forall e :: e in Expire(es, t2) ==> e in Expire(es, t1)
    ensures |Expire(es, t2)| <= |Expire(es, t1)|
  {
    ExpireTwice(es, t1, t2);
  }

  /**
   An entity appended at some point is gone once the clock reaches its deadline,
   and it alone is affected: the rest of the list expires as it would have.
   */
  lemma ExpireAfterAppend(es: seq<Entity>, e: Entity, now: int)
    ensures Expire(es + [e], now) ==
              Expire(es, now) + (if now < e.deadline then [e] else [])
  {
    ExpireAppend(es, [e], now);
    assert [e][1..] == [];
  }

  /**
   A balloon spawned at `now` is still on the page for its first 8 seconds, is
   gone 14 seconds after its spawn at the latest, and leaves exactly when the
   clock reaches its deadline; whether an earlier child stays does not depend on it.
   */
  lemma BalloonLifetime(children: seq<Entity>, id: nat, now: int, width: int, d: BalloonDraws, t: int)
    requires ValidBalloonDraws(d)
    ensures var e := NewBalloon(id, now, width, d);
            && (e in Expire(children + [e], t) <==> t < e.deadline)
            && (t < now + 8000 ==> e in Expire(children + [e], t))
            && (now + 14000 <= t ==> e !in Expire(children + [e], t))
            && (forall c :: c in children ==> (c in Expire(children + [e], t) <==> c in Expire(children, t)))
  {
    var e := NewBalloon(id, now, width, d);
    ExpireAfterAppend(children, e, t);
  }

  /** Once the clock passes every deadline the list is empty: no entity outlives its timer. */
  lemma ExpireAllDue(es: seq<Entity>, now: int)
    requires forall e :: e in es ==> e.deadline <= now
    ensures Expire(es, now) == []
  {
  }

  /**
   The capacity gate: a new entity is appended only when the container exists
   and holds fewer children than the capacity; otherwise the list is unchanged.
   */
  function Admit(present: bool, children: seq<Entity>, capacity: nat, e: Entity): (r: seq<Entity>)
    ensures r == children || r == children + [e]
    ensures r != children <==> present && |children| < capacity
    ensures |r| <= if |children| < capacity then capacity else |children|
  {
    if present && |children| < capacity then children + [e] else children
  }

  /** Admitting the entities of `es` one after another, with no timer firing in between. */
  function AdmitAll(present: bool, children: seq<Entity>, capacity: nat, es: seq<Entity>): seq<Entity>
    decreases |es|
  {
    if es == [] then children
    else AdmitAll(present, Admit(present, children, capacity, es[0]), capacity, es[1..])
  }

  /**
   A run of spawns with no expiry in between fills the container up to its
   capacity and no further; children beyond the capacity (left over from a
   larger tier, or added as sparkles) are never joined by a new balloon.
   */
  lemma {:induction false} AdmitAllFillsToCapacity(present: bool, children: seq<Entity>, capacity: nat, es: seq<Entity>)
    ensures var r := AdmitAll(present, children, capacity, es);
            && |children| <= |r|
            && r[..|children|] == children
            && |r| - |children| <= |es|
            && r == children + es[..|r| - |children|]
            && (!present || capacity <= |children| ==> r == children)
            && (present && |children| <= capacity ==>
                  |r| == if |children| + |es| < capacity then |children| + |es| else capacity)
    decreases |es|
  {
    if es != [] {
      var next := Admit(present, children, capacity, es[0]);
      AdmitAllFillsToCapacity(present, next, capacity, es[1..]);
      var r := AdmitAll(present, next, capacity, es[1..]);
      assert r[..|next|] == next;
      assert r[..|children|] == next[..|children|];
    }
  }

  /**
   A child that is not a balloon still counts against the capacity: with one
   slot left, a sparkle appended first makes the next balloon be refused.
   */
  lemma SparkleTakesBalloonSlot(children: seq<Entity>, capacity: nat, sparkle: Entity, balloon: Entity)
    requires |children| + 1 == capacity
    ensures Admit(true, children, capacity, balloon) == children + [balloon]
    ensures Admit(true, children + [sparkle], capacity, balloon) == children + [sparkle]
  {
  }
}
