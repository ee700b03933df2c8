/** The bound on the nodes a lookup may visit is exact: a ring of 35 nodes that know nothing but their
    successors, and a lookup on it that fails. */
module ChordLargeRing {
  import opened Collections
  import opened ChordRing
  import opened Chord

  /** The address whose identifier is `i`. */
  function Name(i: nat): (a: string)
    ensures |a| == i
  {
    seq(i, k => 'a')
  }

  function IdOf(a: string): int {
    if |a| < 1000 then |a| else 0
  }

  function After(i: nat, n: nat): nat {
    if i == n then 1 else i + 1
  }

  function Names(n: nat): set<string> {
    set i | 1 <= i <= n :: Name(i)
  }

  /** Nodes 1 to `n` in a circle, each with its successor as first finger and no other finger. */
  ghost function Circle(n: nat): map<string, Table> {
    map a | a in Names(n) :: Table([Name(After(|a|, n))], seq(KEY_SIZE + 1, k => if k == 1 then Name(After(|a|, n)) else ""))
  }

  lemma {:induction false} CountNames(n: nat)
    ensures |Names(n)| == n
  {
    if n == 0 {
      assert Names(n) == {};
    } else {
      CountNames(n - 1);
      forall a | a in Names(n - 1) ensures |a| < n {
        NameOf(n - 1, a);
      }
      assert Names(n) == Names(n - 1) + {Name(n)};
    }
  }

  lemma ManyPoints()
    ensures Points() >= 1000
  {
    Pow2Grows(10, KEY_SIZE);
    assert Pow2(10) == 1024;
  }

  lemma NameOf(n: nat, a: string)
    requires a in Names(n)
    ensures 1 <= |a| <= n && a == Name(|a|)
  {
    var i :| 1 <= i <= n && a == Name(i);
  }

  lemma NameIn(n: nat, i: nat)
    requires 1 <= i <= n
    ensures Name(i) in Names(n)
  {
  }

  lemma CircleNode(n: nat, a: string)
    requires 1 <= n < 1000 && a in Names(n)
    ensures RingNode(IdOf, Circle(n), a)
  {
    ManyPoints();
    hide Points;
    NameOf(n, a);
    var s := Name(After(|a|, n));
    NameIn(n, After(|a|, n));
    assert Circle(n).Keys == Names(n);
    forall b | b in Names(n) ensures Dist(IdOf(a), IdOf(s)) <= Dist(IdOf(a), IdOf(b)) {
      NameOf(n, b);
    }
  }

  lemma NamesDistinct(n: nat)
    requires n < 1000
    ensures DistinctIds(IdOf, Names(n)) && "" !in Names(n)
  {
    ManyPoints();
    hide Points;
    forall a, b | a in Names(n) && b in Names(n) && IdOf(a) == IdOf(b) ensures a == b {
      NameOf(n, a);
      NameOf(n, b);
    }
    if "" in Names(n) {
      NameOf(n, "");
    }
  }

  lemma IdsArePoints()
    ensures HashesArePoints(IdOf)
  {
    ManyPoints();
    hide Points;
  }

  lemma CircleIsRing(n: nat)
    requires 1 <= n < 1000
    ensures HashesArePoints(IdOf) && Ring(IdOf, Circle(n)) && Full(Circle(n))
  {
    hide Points, RingNode, DistinctIds, Names, IdOf, HashesArePoints;
    IdsArePoints();
    NamesDistinct(n);
    var tables := Circle(n);
    assert tables.Keys == Names(n);
    forall a | a in tables ensures RingNode(IdOf, tables, a) {
      CircleNode(n, a);
    }
  }

  /** A node with only its first finger set goes there or stays. */
  lemma {:induction false} FirstFingerOnly(self: string, fingers: seq<string>, point: int, i: nat)
    requires 1 <= i < |fingers| && forall k :: 2 <= k < |fingers| ==> fingers[k] == ""
    ensures Closest(IdOf, self, fingers, point, i) == if Precedes(IdOf, self, fingers[1], point) then fingers[1] else self
    decreases i
  {
    if i > 1 {
      FirstFingerOnly(self, fingers, point, i - 1);
    } else {
      assert Closest(IdOf, self, fingers, point, 0) == self;
    }
  }

  /** Towards its own identifier, node `i` hands on to node `i + 1`. */
  lemma HandsOn(n: nat, i: nat)
    requires 1 <= i < n < 1000
    ensures Name(i) in Circle(n) && Full(Circle(n))
    ensures var t := Circle(n)[Name(i)];
      && t.successors == [Name(i + 1)] && Closest(IdOf, Name(i), t.fingers, 1, KEY_SIZE) == Name(i + 1)
  {
    NameIn(n, i);
    var t := Circle(n)[Name(i)];
    FirstFingerOnly(Name(i), t.fingers, 1, KEY_SIZE);
    hide Closest;
  }

  lemma {:induction false} WalksTooFar(n: nat, steps: nat)
    requires 35 <= n < 1000 && steps <= 33 && Full(Circle(n))
    ensures Walk(IdOf, Circle(n), 1, Name(steps + 2), steps) == Err(StepsExceeded)
    decreases 33 - steps
  {
    hide Circle, Closest, Full;
    if steps < 33 {
      HandsOn(n, steps + 2);
      WalksTooFar(n, steps + 1);
    }
  }

  /** On a settled ring of 35 nodes with first fingers only, a node that looks up its own identifier gets
      an error: with one node less it would not. */
  lemma LookupFailsOn35()
    ensures var tables := Circle(35);
      && |tables.Keys| == 35 && HashesArePoints(IdOf) && Ring(IdOf, tables) && Full(tables)
      && (forall a, k :: a in tables && 2 <= k < 161 ==> tables[a].fingers[k] == "")
      && Name(1) in tables && Lookup(IdOf, tables, 1, Name(1)) == Err(StepsExceeded)
  {
    CountNames(35);
    assert Circle(35).Keys == Names(35);
    CircleIsRing(35);
    HandsOn(35, 1);
    WalksTooFar(35, 0);
    assert |Name(2)| != |Name(1)|;
    hide Closest, Ring, Walk;
  }
}
