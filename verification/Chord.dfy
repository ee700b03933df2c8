/** Chord's iterative lookup. A remote call is a method call on the node that the network has at an
    address; a missing node is a failed call. Identifiers are the hashes of addresses. */
module Chord {
  import opened Collections
  import opened Options
  import opened ChordRing

  const MAX_LOOKUP_STEPS: int := 32

  datatype LookupError = NoSuccessor | StepsExceeded | EmptySuccessorList | Unreachable

  datatype Result<+T> = Ok(value: T) | Err(error: LookupError)

  datatype Network = Network(hash: string -> int, nodes: map<string, Node>) {
    ghost function Objects(): set<Node> {
      set a | a in nodes :: nodes[a]
    }
  }

  /** What a lookup sees of a node. */
  datatype Table = Table(successors: seq<string>, fingers: seq<string>)

  ghost function Tables(net: Network): map<string, Table>
    reads net.Objects()
  {
    map a | a in net.nodes :: Table(net.nodes[a].successors, net.nodes[a].fingerTable)
  }

  /** Every node has a slot for every finger, and is found at its own address. */
  ghost predicate Valid(net: Network)
    reads net.Objects()
  {
    && HashesArePoints(net.hash)
    && (forall a :: a in net.nodes ==> net.nodes[a].address == a && |net.nodes[a].fingerTable| == KEY_SIZE + 1)
  }

  /** Hashes are points of the circle. */
  ghost predicate HashesArePoints(hash: string -> int) {
    forall a :: IsPoint(hash(a))
  }

  /** Membership has settled: first successors are right, the first finger agrees with them, and
      every finger in use is a member. */
  ghost predicate Ring(hash: string -> int, tables: map<string, Table>) {
    && DistinctIds(hash, tables.Keys) && "" !in tables
    && (forall a {:trigger RingNode(hash, tables, a)} :: a in tables ==> RingNode(hash, tables, a))
  }

  ghost predicate RingNode(hash: string -> int, tables: map<string, Table>, a: string)
    requires a in tables
  {
    var t := tables[a];
    && t.successors != [] && Successor(hash, tables.Keys, a, t.successors[0])
    && |t.fingers| == KEY_SIZE + 1 && t.fingers[1] == t.successors[0] && FingersIn(t.fingers, tables.Keys)
  }

  /** The point that finger `i` of a node is to own. */
  function FingerStart(point: int, i: nat): int
    requires i >= 1
  {
    (point + Pow2(i - 1)) % Points()
  }

  ghost predicate ExactFingers(hash: string -> int, members: set<string>, a: string, fingers: seq<string>) {
    |fingers| == KEY_SIZE + 1 &&
    forall i {:trigger FingerStart(hash(a), i)} :: 1 <= i <= KEY_SIZE ==>
      Owner(hash, members, FingerStart(hash(a), i), fingers[i])
  }

  ghost predicate AllExact(hash: string -> int, tables: map<string, Table>) {
    forall a :: a in tables ==> ExactFingers(hash, tables.Keys, a, tables[a].fingers)
  }

  ghost predicate FingersIn(fingers: seq<string>, members: set<string>) {
    forall i :: 1 <= i < |fingers| && fingers[i] != "" ==> fingers[i] in members
  }

  // ----- the closest predecessor among the fingers

  predicate Precedes(hash: string -> int, self: string, finger: string, point: int) {
    finger != "" && Between(hash(self), hash(finger), point, false)
  }

  /** The last of the first `i` fingers that precedes the point, or the node itself. */
  function Closest(hash: string -> int, self: string, fingers: seq<string>, point: int, i: nat): string
    requires i < |fingers|
  {
    if i == 0 then self
    else if Precedes(hash, self, fingers[i], point) then fingers[i]
    else Closest(hash, self, fingers, point, i - 1)
  }

  lemma {:induction false} ClosestIsLast(hash: string -> int, self: string, fingers: seq<string>, point: int, i: nat)
    requires i < |fingers|
    ensures var c := Closest(hash, self, fingers, point, i);
      || (c == self && forall j :: 1 <= j <= i ==> !Precedes(hash, self, fingers[j], point))
      || (exists k :: 1 <= k <= i && c == fingers[k] && Precedes(hash, self, c, point)
                   && forall j :: k < j <= i ==> !Precedes(hash, self, fingers[j], point))
  {
    if i > 0 && !Precedes(hash, self, fingers[i], point) {
      ClosestIsLast(hash, self, fingers, point, i - 1);
    }
  }

  // ----- the way of a lookup

  ghost predicate Approaches(hash: string -> int, members: set<string>, point: int, path: seq<string>) {
    && (forall t :: 0 <= t < |path| ==> path[t] in members)
    && (forall t, u :: 0 <= t < u < |path| ==> Dist(hash(path[u]), point) < Dist(hash(path[t]), point))
  }

  /** Every hop more than halves the way to the last member before the point. */
  ghost predicate HalvesWay(hash: string -> int, members: set<string>, point: int, path: seq<string>) {
    forall p, t :: Predecessor(hash, members, point, p) && 0 <= t < |path| - 1 ==>
      2 * Gap(hash(path[t + 1]), hash(p)) < Gap(hash(path[t]), hash(p))
  }

  lemma LastIsMember(hash: string -> int, members: set<string>, point: int, path: seq<string>)
    requires Approaches(hash, members, point, path) && path != []
    ensures path[|path| - 1] in members
  {
  }

  /** The nodes visited are all different, so there are no more of them than members. */
  lemma {:induction false} PathFits(hash: string -> int, members: set<string>, point: int, path: seq<string>)
    requires Approaches(hash, members, point, path)
    ensures |path| <= |members|
    decreases |path|
  {
    if path != [] {
      var last := path[|path| - 1];
      PathFits(hash, members - {last}, point, path[..|path| - 1]);
    }
  }

  /** With no finger before the point, the point lies between the node and its successor. */
  lemma OnlySuccessorLeft(hash: string -> int, tables: map<string, Table>, a: string, point: int)
    requires HashesArePoints(hash) && Ring(hash, tables) && a in tables && IsPoint(point)
    requires |tables[a].fingers| == KEY_SIZE + 1
    requires Closest(hash, a, tables[a].fingers, point, KEY_SIZE) == a
    ensures tables[a].successors != [] && Owner(hash, tables.Keys, point, tables[a].successors[0])
  {
    hide Points, Pow2, Owner, DistinctIds, Closest, Between;
    assert RingNode(hash, tables, a);
    var t := tables[a];
    var s := t.successors[0];
    ClosestIsLast(hash, a, t.fingers, point, KEY_SIZE);
    BetweenComparesDistances(hash(a), hash(a), point, false);
    BetweenComparesDistances(hash(a), hash(s), point, false);
    BetweenComparesDistances(hash(a), point, hash(s), true);
    assert s in tables.Keys && !Precedes(hash, a, t.fingers[1], point);
    SuccessorOwnsExactly(hash, tables.Keys, a, s, point);
  }

  /** A hop goes to a member strictly on the way to the point. */
  lemma HopMember(hash: string -> int, members: set<string>, a: string, fingers: seq<string>, point: int)
    requires HashesArePoints(hash) && IsPoint(point) && |fingers| == KEY_SIZE + 1 && FingersIn(fingers, members)
    ensures var c := Closest(hash, a, fingers, point, KEY_SIZE);
      c != a ==> c in members && Dist(hash(a), hash(c)) < Dist(hash(a), point)
                 && Dist(hash(c), point) == Dist(hash(a), point) - Dist(hash(a), hash(c))
  {
    hide Points, Pow2;
    var c := Closest(hash, a, fingers, point, KEY_SIZE);
    ClosestIsLast(hash, a, fingers, point, KEY_SIZE);
    if c != a {
      BetweenComparesDistances(hash(a), hash(c), point, false);
      StopOnTheWay(hash(a), hash(c), point);
    }
  }

  lemma Product(q: int, p: int)
    requires p > 0
    ensures q >= 2 ==> p * q >= 2 * p
    ensures q <= 0 ==> p * q <= 0
  {
  }

  lemma Wraps(y: int, p: int)
    requires 0 <= y < 2 * p
    ensures y % p == if y < p then y else y - p
  {
    assert y == p * (y / p) + y % p;
    Product(y / p, p);
  }

  lemma StartIsPoint(x: int, i: nat)
    requires IsPoint(x) && 1 <= i <= KEY_SIZE
    ensures IsPoint(FingerStart(x, i)) && Dist(x, FingerStart(x, i)) == Pow2(i - 1) < Points()
  {
    hide Pow2;
    Pow2Grows(i, KEY_SIZE);
    Doubled(i);
    Wraps(x + Pow2(i - 1), Points());
  }

  lemma NextPoint(x: int)
    requires IsPoint(x)
    ensures Dist(x, FingerStart(x, 1)) == 1
  {
    StartIsPoint(x, 1);
  }

  /** The member before a point lies on the way to it from anywhere else. */
  lemma PredecessorOnTheWay(hash: string -> int, members: set<string>, point: int, p: string, b: string)
    requires DistinctIds(hash, members) && Predecessor(hash, members, point, p) && b in members && b != p
    requires IsPoint(point)
    ensures p in members && 1 <= Gap(hash(b), hash(p)) == Dist(hash(b), hash(p)) < Dist(hash(b), point)
  {
    hide Points;
    assert Dist(hash(p), point) <= Dist(hash(b), point);
  }

  /** With exact fingers the hop covers more than half of the way to the point's predecessor. */
  lemma HopHalves(hash: string -> int, members: set<string>, a: string, fingers: seq<string>, point: int, p: string)
    requires HashesArePoints(hash) && DistinctIds(hash, members) && "" !in members && a in members && IsPoint(point)
    requires ExactFingers(hash, members, a, fingers) && FingersIn(fingers, members)
    requires Predecessor(hash, members, point, p)
    ensures var c := Closest(hash, a, fingers, point, KEY_SIZE);
      c != a ==> 2 * Gap(hash(c), hash(p)) < Gap(hash(a), hash(p))
  {
    hide Points, Pow2, FingerStart, Owner, Predecessor, DistinctIds, Closest;
    var c := Closest(hash, a, fingers, point, KEY_SIZE);
    if c != a {
      HopMember(hash, members, a, fingers, point);
      NotThePredecessor(hash, members, a, c, point, p);
      PredecessorOnTheWay(hash, members, point, p, a);
      GapIsSmall(hash(a), hash(p));
      var i := Magnitude(Gap(hash(a), hash(p)), KEY_SIZE);
      LargeFinger(hash, members, a, fingers, point, p, i);
      NotBeyond(hash, members, a, c, point, p);
      Doubled(i);
    }
  }

  lemma Doubled(i: nat)
    requires i >= 1
    ensures Pow2(i) == 2 * Pow2(i - 1)
  {
  }

  lemma GapIsSmall(a: int, b: int)
    requires IsPoint(a) && IsPoint(b)
    ensures Gap(a, b) < Pow2(KEY_SIZE)
  {
  }

  /** A node with a member between itself and the point is not the last one before it. */
  lemma NotThePredecessor(hash: string -> int, members: set<string>, a: string, c: string, point: int, p: string)
    requires HashesArePoints(hash) && IsPoint(point) && Predecessor(hash, members, point, p) && c in members
    requires Dist(hash(a), hash(c)) < Dist(hash(a), point)
    ensures p != a
  {
    hide Points;
    StopOnTheWay(hash(a), hash(c), point);
    assert Dist(hash(p), point) <= Dist(hash(c), point);
  }

  /** A member on the way to the point is not beyond the last one before it. */
  lemma NotBeyond(hash: string -> int, members: set<string>, a: string, c: string, point: int, p: string)
    requires HashesArePoints(hash) && DistinctIds(hash, members) && IsPoint(point)
    requires Predecessor(hash, members, point, p) && c in members
    requires Dist(hash(a), hash(c)) < Dist(hash(a), point)
    requires 1 <= Gap(hash(a), hash(p)) == Dist(hash(a), hash(p)) < Dist(hash(a), point)
    ensures Gap(hash(c), hash(p)) == Gap(hash(a), hash(p)) - Dist(hash(a), hash(c))
  {
    hide Points;
    StopOnTheWay(hash(a), hash(c), point);
    StopOnTheWay(hash(a), hash(p), point);
    assert Dist(hash(p), point) <= Dist(hash(c), point);
  }

  /** The finger for the largest power of two that is not beyond the point's predecessor is found, or
      one for a larger power. */
  lemma LargeFinger(hash: string -> int, members: set<string>, a: string, fingers: seq<string>, point: int, p: string,
          i: nat)
    requires HashesArePoints(hash) && DistinctIds(hash, members) && "" !in members && a in members && IsPoint(point)
    requires p in members
    requires ExactFingers(hash, members, a, fingers)
    requires 1 <= i <= KEY_SIZE && Pow2(i - 1) <= Dist(hash(a), hash(p)) < Dist(hash(a), point)
    ensures Dist(hash(a), hash(Closest(hash, a, fingers, point, KEY_SIZE))) >= Pow2(i - 1)
  {
    hide Points, Pow2, FingerStart, DistinctIds;
    var t := FingerStart(hash(a), i);
    StartIsPoint(hash(a), i);
    OwnerNotBeyond(hash, members, a, t, fingers[i], p);
    BetweenComparesDistances(hash(a), hash(fingers[i]), point, false);
    assert Precedes(hash, a, fingers[i], point);
    ClosestIsLast(hash, a, fingers, point, KEY_SIZE);
    var c := Closest(hash, a, fingers, point, KEY_SIZE);
    var k :| 1 <= k <= KEY_SIZE && c == fingers[k] && k >= i;
    var u := FingerStart(hash(a), k);
    StartIsPoint(hash(a), k);
    OwnerLiesBeyond(hash, members, a, u, c);
    Pow2Grows(i - 1, k - 1);
  }

  /** The next hop of a lookup keeps what is said of its way. */
  lemma Hop(hash: string -> int, tables: map<string, Table>, a: string, point: int, path: seq<string>)
    requires HashesArePoints(hash) && Ring(hash, tables) && a in tables && IsPoint(point) && path != []
    requires path[|path| - 1] == a
    requires Approaches(hash, tables.Keys, point, path) && |tables[a].fingers| == KEY_SIZE + 1
    requires Closest(hash, a, tables[a].fingers, point, KEY_SIZE) != a
    ensures var more := path + [Closest(hash, a, tables[a].fingers, point, KEY_SIZE)];
      && Approaches(hash, tables.Keys, point, more)
      && (AllExact(hash, tables) && HalvesWay(hash, tables.Keys, point, path) ==>
          HalvesWay(hash, tables.Keys, point, more))
  {
    hide Points, Pow2, Closest, FingerStart, DistinctIds, Predecessor, Owner, ExactFingers, HashesArePoints, Dist, Gap,
      Successor;
    assert RingNode(hash, tables, a);
    var fingers := tables[a].fingers;
    var c := Closest(hash, a, fingers, point, KEY_SIZE);
    HopMember(hash, tables.Keys, a, fingers, point);
    DistPositive(hash, a, c);
    var more := path + [c];
    if AllExact(hash, tables) && HalvesWay(hash, tables.Keys, point, path) {
      forall p, t | Predecessor(hash, tables.Keys, point, p) && 0 <= t < |more| - 1
        ensures 2 * Gap(hash(more[t + 1]), hash(p)) < Gap(hash(more[t]), hash(p))
      {
        if t == |path| - 1 {
          HopHalves(hash, tables.Keys, a, fingers, point, p);
        }
      }
    }
  }

  lemma DistPositive(hash: string -> int, a: string, b: string)
    requires HashesArePoints(hash)
    ensures Dist(hash(a), hash(b)) > 0
  {
    assert IsPoint(hash(a)) && IsPoint(hash(b));
  }

  /** What is said of the nodes a lookup visits. */
  ghost predicate OnTheWay(hash: string -> int, tables: map<string, Table>, point: int, path: seq<string>) {
    && Approaches(hash, tables.Keys, point, path)
    && (AllExact(hash, tables) ==> HalvesWay(hash, tables.Keys, point, path))
  }

  /** What is said of the answer to a lookup that starts at `first`: it is right, and there is one
      unless the ring is large and, when fingers are exact, the way is long. */
  ghost predicate Answers(hash: string -> int, tables: map<string, Table>, point: int, first: string,
          r: Result<string>) {
    && (r.Ok? ==> Owner(hash, tables.Keys, point, r.value))
    && (|tables.Keys| <= 34 ==> r.Ok?)
    && (forall p :: AllExact(hash, tables) && Predecessor(hash, tables.Keys, point, p) ==>
          Gap(hash(first), hash(p)) < Pow2(34) - 1 ==> r.Ok?)
  }

  /** Halving at every hop bounds the number of hops by the logarithm of the way. */
  lemma {:induction false} HalvingBoundsHops(hash: string -> int, members: set<string>, point: int, path: seq<string>,
          p: string)
    requires HashesArePoints(hash) && HalvesWay(hash, members, point, path) && Predecessor(hash, members, point, p)
    requires path != []
    ensures Gap(hash(path[0]), hash(p)) >= Pow2(|path| - 1) - 1
    decreases |path|
  {
    assert IsPoint(hash(path[0])) && IsPoint(hash(p));
    if |path| > 1 {
      var rest := path[1..];
      forall q, t | Predecessor(hash, members, point, q) && 0 <= t < |rest| - 1
        ensures 2 * Gap(hash(rest[t + 1]), hash(q)) < Gap(hash(rest[t]), hash(q))
      {
        assert rest[t] == path[t + 1] && rest[t + 1] == path[t + 2];
      }
      HalvingBoundsHops(hash, members, point, rest, p);
      assert 2 * Gap(hash(path[0 + 1]), hash(p)) < Gap(hash(path[0]), hash(p));
    }
  }

  lemma FirstStop(hash: string -> int, tables: map<string, Table>, point: int, a: string)
    requires a in tables
    ensures OnTheWay(hash, tables, point, [a])
  {
  }

  lemma NextStop(hash: string -> int, tables: map<string, Table>, point: int, path: seq<string>)
    requires HashesArePoints(hash) && IsPoint(point) && path != [] && path[|path| - 1] in tables
    requires |tables[path[|path| - 1]].fingers| == KEY_SIZE + 1
    requires Closest(hash, path[|path| - 1], tables[path[|path| - 1]].fingers, point, KEY_SIZE) != path[|path| - 1]
    ensures Ring(hash, tables) && OnTheWay(hash, tables, point, path) ==>
      OnTheWay(hash, tables, point, path + [Closest(hash, path[|path| - 1], tables[path[|path| - 1]].fingers, point, KEY_SIZE)])
  {
    hide Ring, Approaches, AllExact, HalvesWay, IsPoint, HashesArePoints, Closest;
    if Ring(hash, tables) && OnTheWay(hash, tables, point, path) {
      Hop(hash, tables, path[|path| - 1], point, path);
    }
  }

  lemma LastStop(hash: string -> int, tables: map<string, Table>, point: int, a: string)
    requires HashesArePoints(hash) && IsPoint(point) && a in tables && |tables[a].fingers| == KEY_SIZE + 1
    requires Closest(hash, a, tables[a].fingers, point, KEY_SIZE) == a
    ensures Ring(hash, tables) ==>
      tables[a].successors != [] && (forall f :: Answers(hash, tables, point, f, Ok(tables[a].successors[0])))
  {
    hide Ring, IsPoint, HashesArePoints, Closest, Owner;
    if Ring(hash, tables) {
      OnlySuccessorLeft(hash, tables, a, point);
    }
  }

  lemma TooManyStops(hash: string -> int, tables: map<string, Table>, point: int, path: seq<string>)
    requires HashesArePoints(hash) && |path| > MAX_LOOKUP_STEPS + 2
    ensures Ring(hash, tables) && OnTheWay(hash, tables, point, path) ==>
      Answers(hash, tables, point, path[0], Err(StepsExceeded))
  {
    hide Ring, Approaches, HalvesWay, Predecessor, AllExact, HashesArePoints, Pow2, Gap;
    if OnTheWay(hash, tables, point, path) {
      PathFits(hash, tables.Keys, point, path);
      forall p | AllExact(hash, tables) && Predecessor(hash, tables.Keys, point, p)
        ensures Gap(hash(path[0]), hash(p)) >= Pow2(34) - 1
      {
        HalvingBoundsHops(hash, tables.Keys, point, path, p);
        Pow2Grows(34, |path| - 1);
      }
    }
  }

  /** A stop on the way is a member with a successor, which owns what lies between the two. */
  lemma IsStop(hash: string -> int, tables: map<string, Table>, point: int, path: seq<string>)
    requires HashesArePoints(hash) && IsPoint(point) && path != []
    ensures var a := path[|path| - 1];
      Ring(hash, tables) && OnTheWay(hash, tables, point, path) ==>
        && a in tables && tables[a].successors != []
        && (Between(hash(a), point, hash(tables[a].successors[0]), true) ==>
            (forall f :: Answers(hash, tables, point, f, Ok(tables[a].successors[0]))))
  {
    hide DistinctIds, Owner, Successor, Between, HalvesWay, AllExact, IsPoint;
    if Ring(hash, tables) && OnTheWay(hash, tables, point, path) {
      var a := path[|path| - 1];
      LastIsMember(hash, tables.Keys, point, path);
      assert RingNode(hash, tables, a);
      SuccessorOwnsExactly(hash, tables.Keys, a, tables[a].successors[0], point);
    }
  }

  /** A settled ring stays settled when a finger is set to the owner of its start. */
  lemma FingerFixed(hash: string -> int, tables: map<string, Table>, a: string, i: nat, o: string)
    requires HashesArePoints(hash) && a in tables && 1 <= i <= KEY_SIZE && |tables[a].fingers| == KEY_SIZE + 1
    ensures Ring(hash, tables) && Owner(hash, tables.Keys, FingerStart(hash(a), i), o) ==>
      Ring(hash, tables[a := tables[a].(fingers := tables[a].fingers[i := o])])
  {
    hide DistinctIds, Successor, FingerStart, Points, Pow2;
    if Ring(hash, tables) && Owner(hash, tables.Keys, FingerStart(hash(a), i), o) {
      var now := tables[a := tables[a].(fingers := tables[a].fingers[i := o])];
      assert now.Keys == tables.Keys;
      assert RingNode(hash, tables, a);
      StartIsPoint(hash(a), i);
      if i == 1 {
        NextPoint(hash(a));
        var s := tables[a].successors[0];
        SuccessorOwnsNextPoint(hash, tables.Keys, a, s, FingerStart(hash(a), 1));
        OneOwner(hash, tables.Keys, FingerStart(hash(a), 1), s, o);
      }
      forall b | b in now ensures RingNode(hash, now, b) {
        assert RingNode(hash, tables, b);
      }
    }
  }

  function FingerNumber(i: int): (n: nat)
    ensures 1 <= n <= KEY_SIZE
  {
    if i < 1 || i > KEY_SIZE then 1 else i
  }

  /** A finger either stays or points to the right owner; on a ring of up to 34 nodes it does. */
  ghost predicate FingerUpdated(hash: string -> int, members: set<string>, a: string, i: nat, before: seq<string>,
          after: seq<string>)
    requires 1 <= i < |before| == |after|
  {
    && (after[i] == before[i] || Owner(hash, members, FingerStart(hash(a), i), after[i]))
    && (|members| <= 34 ==> Owner(hash, members, FingerStart(hash(a), i), after[i]))
  }

  lemma HashIsPoint(hash: string -> int, a: string)
    requires HashesArePoints(hash)
    ensures IsPoint(hash(a))
  {
  }

  lemma AnswerFacts(hash: string -> int, tables: map<string, Table>, point: int, first: string, r: Result<string>)
    ensures Ring(hash, tables) && Answers(hash, tables, point, first, r) ==>
      && (r.Ok? ==> Owner(hash, tables.Keys, point, r.value) && r.value != "")
      && (|tables.Keys| <= 34 ==> r.Ok?)
  {
  }

  // ----- what a lookup computes

  ghost predicate Full(tables: map<string, Table>) {
    forall a :: a in tables ==> |tables[a].fingers| == KEY_SIZE + 1
  }

  /** The rounds of a lookup from a candidate on. */
  ghost function Walk(hash: string -> int, tables: map<string, Table>, point: int, candidate: string,
          steps: nat): Result<string>
    requires Full(tables)
    decreases MAX_LOOKUP_STEPS + 1 - steps
  {
    if steps > MAX_LOOKUP_STEPS then Err(StepsExceeded)
    else if candidate !in tables || tables[candidate].successors == [] then Err(EmptySuccessorList)
    else
      var t := tables[candidate];
      if Between(hash(candidate), point, hash(t.successors[0]), true) then Ok(t.successors[0])
      else
        var next := Closest(hash, candidate, t.fingers, point, KEY_SIZE);
        if next == candidate then Ok(t.successors[0]) else Walk(hash, tables, point, next, steps + 1)
  }

  ghost function Lookup(hash: string -> int, tables: map<string, Table>, point: int, a: string): Result<string>
    requires Full(tables) && a in tables
  {
    var candidate := Closest(hash, a, tables[a].fingers, point, KEY_SIZE);
    if candidate != a then Walk(hash, tables, point, candidate, 0)
    else if tables[a].successors == [] then Err(NoSuccessor)
    else Ok(tables[a].successors[0])
  }

  /** One round of a lookup. */
  lemma WalkRound(hash: string -> int, tables: map<string, Table>, point: int, candidate: string, steps: nat)
    requires Full(tables)
    ensures var w := Walk(hash, tables, point, candidate, steps);
      if steps > MAX_LOOKUP_STEPS then w == Err(StepsExceeded)
      else if candidate !in tables || tables[candidate].successors == [] then w == Err(EmptySuccessorList)
      else
        var t := tables[candidate];
        var next := Closest(hash, candidate, t.fingers, point, KEY_SIZE);
        if Between(hash(candidate), point, hash(t.successors[0]), true) || next == candidate
        then w == Ok(t.successors[0])
        else w == Walk(hash, tables, point, next, steps + 1)
  {
  }

  class Node {
    const address: string
    var successors: seq<string>
    var fingerTable: seq<string>

    /** A node that starts a ring of its own, or that joins through another. */
    constructor (address: string, contact: Option<string>)
      ensures this.address == address && successors == [if contact.Some? then contact.value else address]
      ensures |fingerTable| == 161 && forall i :: 0 <= i < 161 ==> fingerTable[i] == ""
    {
      this.address := address;
      successors := [match contact case Some(c) => c case None => address];
      fingerTable := seq(KEY_SIZE + 1, i => "");
    }

    method FindClosestPredecessor(hash: string -> int, point: int) returns (a: string)
      requires |fingerTable| == KEY_SIZE + 1
      ensures a == Closest(hash, address, fingerTable, point, KEY_SIZE)
    {
      var currentId := hash(address);
      var i := KEY_SIZE;
      while i >= 1
        invariant 0 <= i <= KEY_SIZE
        invariant Closest(hash, address, fingerTable, point, KEY_SIZE) == Closest(hash, address, fingerTable, point, i)
      {
        var fingerAddr := fingerTable[i];
        if fingerAddr != "" && Between(currentId, hash(fingerAddr), point, false) {
          return fingerAddr;
        }
        i := i - 1;
      }
      a := address;
    }

    /** `path` is every node the lookup has been at, this one first. */
    method FindSuccessor(net: Network, point: int) returns (r: Result<string>, ghost path: seq<string>)
      requires Valid(net) && address in net.nodes && net.nodes[address] == this && IsPoint(point)
      ensures path != [] && path[0] == address
      ensures Full(Tables(net)) && r == Lookup(net.hash, Tables(net), point, address)
      ensures Ring(net.hash, Tables(net)) ==> Answers(net.hash, Tables(net), point, address, r)
      ensures Ring(net.hash, Tables(net)) ==> OnTheWay(net.hash, Tables(net), point, path)
    {
      hide Ring, OnTheWay, Answers, Closest, Owner, IsPoint, Between, Walk;
      ghost var tables := Tables(net);
      var candidate := FindClosestPredecessor(net.hash, point);
      assert Tables(net) == tables;
      path := [address];
      FirstStop(net.hash, tables, point, address);
      if candidate == address {
        LastStop(net.hash, tables, point, address);
        if |successors| == 0 {
          return Err(NoSuccessor), path;
        }
        return Ok(successors[0]), path;
      }
      NextStop(net.hash, tables, point, path);
      path := path + [candidate];
      var steps := 0;
      while true
        invariant 0 <= steps <= MAX_LOOKUP_STEPS + 1 && |path| == steps + 2 && path[0] == address
        invariant candidate == path[|path| - 1] && Tables(net) == tables
        invariant Ring(net.hash, tables) ==> OnTheWay(net.hash, tables, point, path)
        invariant Lookup(net.hash, tables, point, address) == Walk(net.hash, tables, point, candidate, steps)
        decreases MAX_LOOKUP_STEPS + 1 - steps
      {
        WalkRound(net.hash, tables, point, candidate, steps);
        if steps > MAX_LOOKUP_STEPS {
          TooManyStops(net.hash, tables, point, path);
          return Err(StepsExceeded), path;
        }
        steps := steps + 1;
        IsStop(net.hash, tables, point, path);
        var candidateSuccessors := GetSuccessorList(net, candidate);
        assert Tables(net) == tables;
        if |candidateSuccessors| == 0 {
          return Err(EmptySuccessorList), path;
        }
        if Between(net.hash(candidate), point, net.hash(candidateSuccessors[0]), true) {
          return Ok(candidateSuccessors[0]), path;
        }
        if candidate !in net.nodes {
          return Err(Unreachable), path;
        }
        var nextHop := net.nodes[candidate].FindClosestPredecessor(net.hash, point);
        assert Tables(net) == tables;
        if nextHop == candidate {
          LastStop(net.hash, tables, point, candidate);
          return Ok(candidateSuccessors[0]), path;
        }
        NextStop(net.hash, tables, point, path);
        path := path + [nextHop];
        candidate := nextHop;
      }
    }

    /** Refreshes one finger; returns which one comes next. */
    method FixFingers(net: Network, nextFinger: int) returns (next: int)
      requires Valid(net) && address in net.nodes && net.nodes[address] == this
      modifies `fingerTable
      ensures Valid(net) && next == (if 1 <= nextFinger < 160 then nextFinger + 1 else if nextFinger == 160 then 1 else 2)
      ensures fingerTable == old(fingerTable)[FingerNumber(nextFinger) := fingerTable[FingerNumber(nextFinger)]]
      ensures old(Full(Tables(net)))
      ensures var i := if 1 <= nextFinger <= 160 then nextFinger else 1;
        var r := old(Lookup(net.hash, Tables(net), FingerStart(net.hash(address), i), address));
        fingerTable[i] == if r.Ok? && r.value != "" then r.value else old(fingerTable[i])
      ensures old(Ring(net.hash, Tables(net))) ==>
        && Ring(net.hash, Tables(net))
        && FingerUpdated(net.hash, net.nodes.Keys, address, FingerNumber(nextFinger), old(fingerTable), fingerTable)
    {
      hide Ring, OnTheWay, Answers, Owner, Pow2, Points, IsPoint, FingerStart, HashesArePoints;
      var i := FingerNumber(nextFinger);
      var target := FingerStart(net.hash(address), i);
      ghost var tables := Tables(net);
      HashIsPoint(net.hash, address);
      StartIsPoint(net.hash(address), i);
      var r, path := FindSuccessor(net, target);
      AnswerFacts(net.hash, tables, target, address, r);
      assert Tables(net) == tables && tables.Keys == net.nodes.Keys;
      if r.Ok? && r.value != "" {
        fingerTable := fingerTable[i := r.value];
        FingerFixed(net.hash, tables, address, i, r.value);
        assert Tables(net) == tables[address := tables[address].(fingers := tables[address].fingers[i := r.value])];
      }
      next := i + 1;
      if next > KEY_SIZE {
        next := 1;
      }
    }
  }

  /** A full turn of the node's maintenance task, on a settled ring of up to 34 nodes, makes every
      finger of the node exact. */
  method RefreshFingers(net: Network, n: Node)
    requires Valid(net) && n.address in net.nodes && net.nodes[n.address] == n
    requires Ring(net.hash, Tables(net)) && |net.nodes.Keys| <= 34
    modifies n`fingerTable
    ensures Valid(net) && Ring(net.hash, Tables(net))
    ensures ExactFingers(net.hash, net.nodes.Keys, n.address, n.fingerTable)
  {
    hide Ring, Owner, FingerStart;
    var nextFinger, turns := 1, 0;
    while turns < KEY_SIZE
      invariant 0 <= turns <= KEY_SIZE && Valid(net) && Ring(net.hash, Tables(net))
      invariant nextFinger == if turns == KEY_SIZE then 1 else turns + 1
      invariant forall i {:trigger FingerStart(net.hash(n.address), i)} :: 1 <= i <= turns ==>
        Owner(net.hash, net.nodes.Keys, FingerStart(net.hash(n.address), i), n.fingerTable[i])
    {
      nextFinger := n.FixFingers(net, nextFinger);
      turns := turns + 1;
    }
  }

  /** The remote call: no list when the node cannot be reached. */
  method GetSuccessorList(net: Network, a: string) returns (list: seq<string>)
    ensures list == if a in net.nodes then net.nodes[a].successors else []
  {
    list := if a in net.nodes then net.nodes[a].successors else [];
  }
}
