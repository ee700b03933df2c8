/** Identifiers on a circle of 2^160 points, and who is responsible for which. */
module ChordRing {
  import opened Collections

  const KEY_SIZE: nat := 160

  function Points(): nat {
    Pow2(KEY_SIZE)
  }

  predicate IsPoint(x: int) {
    0 <= x < Points()
  }

  /** Is `elt` met on the way from `start` to `end`? */
  predicate Between(start: int, elt: int, end: int, inclusive: bool) {
    if end > start then
      (start < elt && elt < end) || (inclusive && elt == end)
    else
      start < elt || elt < end || (inclusive && elt == end)
  }

  /** Steps clockwise from `a` to `b`, a full circle if they are the same. */
  function Dist(a: int, b: int): int {
    if b > a then b - a else b - a + Points()
  }

  /** Steps clockwise from `a` to `b`, none if they are the same. */
  function Gap(a: int, b: int): int {
    if b >= a then b - a else b - a + Points()
  }

  /** The case distinction of `Between` is one comparison of clockwise distances. */
  lemma BetweenComparesDistances(start: int, elt: int, end: int, inclusive: bool)
    requires IsPoint(start) && IsPoint(elt) && IsPoint(end)
    ensures Between(start, elt, end, inclusive) <==>
      if inclusive then Dist(start, elt) <= Dist(start, end) else Dist(start, elt) < Dist(start, end)
  {
    hide Points;
  }

  /** Stopping on the way shortens the rest of the way by what has been walked. */
  lemma StopOnTheWay(a: int, b: int, c: int)
    requires IsPoint(a) && IsPoint(b) && IsPoint(c) && Dist(a, b) < Dist(a, c)
    ensures Dist(b, c) == Dist(a, c) - Dist(a, b)
  {
    hide Points;
  }

  // ----- who is responsible

  /** Every member's identifier is a point of its own. */
  ghost predicate DistinctIds(id: string -> int, members: set<string>) {
    && (forall a :: a in members ==> IsPoint(id(a)))
    && (forall a, b :: a in members && b in members && id(a) == id(b) ==> a == b)
  }

  /** The member met first, at `point` or clockwise from it. */
  ghost predicate Owner(id: string -> int, members: set<string>, point: int, a: string) {
    a in members && forall b :: b in members ==> Gap(point, id(a)) <= Gap(point, id(b))
  }

  /** The member met first after `a`, which is `a` itself if it is alone. */
  ghost predicate Successor(id: string -> int, members: set<string>, a: string, s: string) {
    s in members && forall b :: b in members ==> Dist(id(a), id(s)) <= Dist(id(a), id(b))
  }

  /** The member met last before `point`. */
  ghost predicate Predecessor(id: string -> int, members: set<string>, point: int, p: string) {
    p in members && forall b :: b in members ==> Dist(id(p), point) <= Dist(id(b), point)
  }

  lemma OneOwner(id: string -> int, members: set<string>, point: int, a: string, b: string)
    requires DistinctIds(id, members) && IsPoint(point) && Owner(id, members, point, a) && Owner(id, members, point, b)
    ensures a == b
  {
    hide Points;
    assert Gap(point, id(a)) == Gap(point, id(b));
  }

  /** A node's successor owns exactly the points on the way to it. */
  lemma SuccessorOwnsExactly(id: string -> int, members: set<string>, a: string, s: string, point: int)
    requires DistinctIds(id, members) && a in members && Successor(id, members, a, s) && IsPoint(point)
    ensures Owner(id, members, point, s) <==> Between(id(a), point, id(s), true)
  {
    BetweenComparesDistances(id(a), point, id(s), true);
    hide Points;
    if Dist(id(a), point) <= Dist(id(a), id(s)) {
      forall b | b in members ensures Gap(point, id(s)) <= Gap(point, id(b)) {
        assert Dist(id(a), id(s)) <= Dist(id(a), id(b));
      }
    } else {
      assert Dist(id(a), id(s)) <= Dist(id(a), id(a));
      assert Gap(point, id(a)) < Gap(point, id(s));
    }
  }

  /** The node right after `a` is the owner of the next point. */
  lemma SuccessorOwnsNextPoint(id: string -> int, members: set<string>, a: string, s: string, point: int)
    requires DistinctIds(id, members) && a in members && IsPoint(point) && Dist(id(a), point) == 1
    ensures Owner(id, members, point, s) <==> Successor(id, members, a, s)
  {
    hide Points;
    forall b | b in members ensures Dist(id(a), id(b)) == Gap(point, id(b)) + 1 {
    }
  }

  // ----- halving

  lemma {:induction false} Pow2Grows(a: nat, b: nat)
    requires a <= b
    ensures Pow2(a) <= Pow2(b)
    decreases b - a
  {
    if a < b {
      Pow2Grows(a + 1, b);
    }
  }

  /** The power of two that a distance reaches but does not double. */
  lemma {:induction false} Magnitude(x: nat, limit: nat) returns (i: nat)
    requires 1 <= x < Pow2(limit)
    ensures 1 <= i <= limit && Pow2(i - 1) <= x < Pow2(i)
    decreases limit
  {
    if x < Pow2(limit - 1) {
      i := Magnitude(x, limit - 1);
    } else {
      i := limit;
    }
  }

  /** The owner of a point at distance `step` from `a` lies at least that far, or is `a`, all round. */
  lemma OwnerLiesBeyond(id: string -> int, members: set<string>, a: string, point: int, o: string)
    requires DistinctIds(id, members) && a in members && IsPoint(point) && Owner(id, members, point, o)
    ensures Dist(id(a), id(o)) >= Dist(id(a), point)
  {
    hide Points;
    assert Gap(point, id(o)) <= Gap(point, id(a));
  }

  /** The owner of a point not beyond member `p` is not beyond `p` either. */
  lemma OwnerNotBeyond(id: string -> int, members: set<string>, a: string, point: int, o: string, p: string)
    requires DistinctIds(id, members) && a in members && p in members && IsPoint(point) && Owner(id, members, point, o)
    requires Dist(id(a), point) <= Dist(id(a), id(p))
    ensures Dist(id(a), id(o)) <= Dist(id(a), id(p))
  {
    hide Points;
    assert Gap(point, id(o)) <= Gap(point, id(p));
  }
}
