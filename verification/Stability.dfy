/** Transformations of data sets, and the stability the DSL tracks for them. */
module Stability {
  import opened Collections
  import opened EditDistance

  /** Records of every type a pipeline may produce. */
  datatype Value = Num(x: real) | Text(s: string) | Group(key: Value, members: seq<Value>)

  // ----- the transformations

  function Filter<T>(p: T -> bool, data: seq<T>): seq<T> {
    if data == [] then []
    else Filter(p, data[..|data| - 1]) + if p(data[|data| - 1]) then [data[|data| - 1]] else []
  }

  function Map<T, U>(f: T -> U, data: seq<T>): (r: seq<U>)
    ensures |r| == |data|
  {
    seq(|data|, i requires 0 <= i < |data| => f(data[i]))
  }

  /** The place of a key among the groups, or their number. */
  function Find(groups: seq<Value>, key: Value): (i: nat)
    ensures i <= |groups|
    ensures i < |groups| ==> groups[i].Group? && groups[i].key == key
    ensures forall j :: 0 <= j < i ==> !(groups[j].Group? && groups[j].key == key)
  {
    if groups == [] then 0
    else if groups[0].Group? && groups[0].key == key then 0
    else 1 + Find(groups[1..], key)
  }

  /** One more record: into its group, or into a new group after the others. */
  function AddTo(groups: seq<Value>, key: Value, item: Value): seq<Value> {
    var i := Find(groups, key);
    if i < |groups| then groups[i := Group(key, groups[i].members + [item])] else groups + [Group(key, [item])]
  }

  /** Groups in the order in which their keys first occur. */
  function GroupBy(keyf: Value -> Value, data: seq<Value>): seq<Value> {
    if data == [] then []
    else AddTo(GroupBy(keyf, data[..|data| - 1]), keyf(data[|data| - 1]), data[|data| - 1])
  }

  function Intersect<T(==)>(a: seq<T>, b: seq<T>): seq<T> {
    Filter(x => x in b, a)
  }

  // ----- one record more or less

  lemma {:induction false} FilterConcat<T>(p: T -> bool, a: seq<T>, b: seq<T>)
    ensures Filter(p, a + b) == Filter(p, a) + Filter(p, b)
    decreases |b|
  {
    if b == [] {
      assert a + b == a;
    } else {
      assert (a + b)[..|a + b| - 1] == a + b[..|b| - 1];
      FilterConcat(p, a, b[..|b| - 1]);
    }
  }

  lemma FilterInsert<T>(p: T -> bool, a: seq<T>, i: nat, x: T)
    requires i <= |a|
    ensures |Filter(p, a[..i])| <= |Filter(p, a)|
    ensures Filter(p, InsertAt(a, i, x)) == if p(x) then InsertAt(Filter(p, a), |Filter(p, a[..i])|, x) else Filter(p, a)
  {
    assert a == a[..i] + a[i..];
    FilterConcat(p, a[..i], a[i..]);
    FilterConcat(p, a[..i] + [x], a[i..]);
    FilterConcat(p, a[..i], [x]);
    assert [x][..0] == [];
  }

  lemma FilterLipschitz<T(!new)>(p: T -> bool)
    ensures Lipschitz((s: seq<T>) => Filter(p, s), 1)
  {
    forall a: seq<T>, b: seq<T> | Inserted(a, b)
      ensures Apart(Filter(p, a), Filter(p, b), 1) && Apart(Filter(p, b), Filter(p, a), 1)
    {
      var i: nat, x :| i <= |a| && b == InsertAt(a, i, x);
      FilterInsert(p, a, i, x);
      if p(x) {
        assert Inserted(Filter(p, a), Filter(p, b));
        StepIsApart(Filter(p, a), Filter(p, b));
        StepIsApart(Filter(p, b), Filter(p, a));
      }
    }
  }

  lemma MapLipschitz<T(!new), U(!new)>(f: T -> U)
    ensures Lipschitz((s: seq<T>) => Map(f, s), 1)
  {
    forall a: seq<T>, b: seq<T> | Inserted(a, b)
      ensures Apart(Map(f, a), Map(f, b), 1) && Apart(Map(f, b), Map(f, a), 1)
    {
      var i: nat, x :| i <= |a| && b == InsertAt(a, i, x);
      assert Map(f, b) == InsertAt(Map(f, a), i, f(x));
      assert Inserted(Map(f, a), Map(f, b));
      StepIsApart(Map(f, a), Map(f, b));
      StepIsApart(Map(f, b), Map(f, a));
    }
  }

  // ----- grouping: one record changes one group

  function OtherKey(keyf: Value -> Value, key: Value): Value -> bool {
    x => keyf(x) != key
  }

  /** `all` is `others` with at most one group put in, which is that of `key`. */
  ghost predicate OneGroupMore(others: seq<Value>, all: seq<Value>, key: Value) {
    && Find(others, key) == |others|
    && (all == others || exists j: nat, m :: j <= |others| && all == InsertAt(others, j, Group(key, m)))
  }

  lemma FindIs(groups: seq<Value>, key: Value, i: nat)
    requires i <= |groups| && (i < |groups| ==> groups[i].Group? && groups[i].key == key)
    requires forall j :: 0 <= j < i ==> !(groups[j].Group? && groups[j].key == key)
    ensures Find(groups, key) == i
  {
  }

  /** A record of another key does the same with the group of `key` there or not. */
  lemma AddAround(others: seq<Value>, j: nat, g: Value, key: Value, item: Value)
    requires j <= |others| && g.Group? && g.key != key
    ensures j <= |AddTo(others, key, item)|
    ensures AddTo(InsertAt(others, j, g), key, item) == InsertAt(AddTo(others, key, item), j, g)
  {
    hide Find;
    var i := Find(others, key);
    var all := InsertAt(others, j, g);
    FindIs(all, key, if i < j then i else i + 1);
    if i == |others| {
      assert all + [Group(key, [item])] == InsertAt(others + [Group(key, [item])], j, g);
    } else {
      var grown := Group(key, others[i].members + [item]);
      assert all[if i < j then i else i + 1] == others[i];
      assert all[if i < j then i else i + 1 := grown] == InsertAt(others[i := grown], j, g);
    }
  }

  /** One more record at the end, as filtering and grouping see it. */
  lemma LastRecord(keyf: Value -> Value, p: Value -> bool, data: seq<Value>)
    requires data != []
    ensures var front, last := data[..|data| - 1], data[|data| - 1];
      && GroupBy(keyf, data) == AddTo(GroupBy(keyf, front), keyf(last), last)
      && GroupBy(keyf, Filter(p, data)) ==
         if p(last) then AddTo(GroupBy(keyf, Filter(p, front)), keyf(last), last) else GroupBy(keyf, Filter(p, front))
  {
    hide AddTo;
    var front, last := data[..|data| - 1], data[|data| - 1];
    var kept := Filter(p, front);
    if p(last) {
      assert Filter(p, data) == kept + [last];
      assert (kept + [last])[..|kept|] == kept;
    } else {
      assert Filter(p, data) == kept + [] == kept;
    }
  }

  lemma {:induction false} GroupsOfOneKey(keyf: Value -> Value, data: seq<Value>, key: Value)
    ensures OneGroupMore(GroupBy(keyf, Filter(OtherKey(keyf, key), data)), GroupBy(keyf, data), key)
    decreases |data|
  {
    var p := OtherKey(keyf, key);
    if data == [] {
      NoGroups(key);
    } else {
      hide AddTo, OneGroupMore, Filter, GroupBy;
      var front, last := data[..|data| - 1], data[|data| - 1];
      GroupsOfOneKey(keyf, front, key);
      LastRecord(keyf, p, data);
      var others, all := GroupBy(keyf, Filter(p, front)), GroupBy(keyf, front);
      if keyf(last) == key {
        OwnGroup(others, all, key, last);
      } else {
        OtherGroup(others, all, key, keyf(last), last);
      }
    }
  }

  lemma NoGroups(key: Value)
    ensures OneGroupMore([], [], key)
  {
  }

  lemma OwnGroup(others: seq<Value>, all: seq<Value>, key: Value, item: Value)
    requires OneGroupMore(others, all, key)
    ensures OneGroupMore(others, AddTo(all, key, item), key)
  {
    hide Find;
    if all == others {
      assert AddTo(all, key, item) == InsertAt(others, |others|, Group(key, [item]));
    } else {
      var j: nat, m :| j <= |others| && all == InsertAt(others, j, Group(key, m));
      Regroup(others, j, key, m, item);
    }
  }

  lemma Regroup(others: seq<Value>, j: nat, key: Value, m: seq<Value>, item: Value)
    requires j <= |others| && Find(others, key) == |others|
    ensures AddTo(InsertAt(others, j, Group(key, m)), key, item) == InsertAt(others, j, Group(key, m + [item]))
  {
    hide Find;
    var all := InsertAt(others, j, Group(key, m));
    FindIs(all, key, j);
  }

  lemma OtherGroup(others: seq<Value>, all: seq<Value>, key: Value, other: Value, item: Value)
    requires OneGroupMore(others, all, key) && other != key
    ensures OneGroupMore(AddTo(others, other, item), AddTo(all, other, item), key)
  {
    var more := AddTo(others, other, item);
    FindIs(more, key, |more|);
    if all != others {
      var j: nat, m :| j <= |others| && all == InsertAt(others, j, Group(key, m));
      AddAround(others, j, Group(key, m), other, item);
    }
  }

  /** Grouping turns one record more or less into at most one group lost and one gained. */
  lemma GroupByLipschitz(keyf: Value -> Value)
    ensures Lipschitz(s => GroupBy(keyf, s), 2)
  {
    forall a: seq<Value>, b: seq<Value> | Inserted(a, b)
      ensures Apart(GroupBy(keyf, a), GroupBy(keyf, b), 2) && Apart(GroupBy(keyf, b), GroupBy(keyf, a), 2)
    {
      var i: nat, x :| i <= |a| && b == InsertAt(a, i, x);
      var key := keyf(x);
      FilterInsert(OtherKey(keyf, key), a, i, x);
      GroupsOfOneKey(keyf, a, key);
      GroupsOfOneKey(keyf, b, key);
      Through(GroupBy(keyf, Filter(OtherKey(keyf, key), a)), GroupBy(keyf, a), GroupBy(keyf, b), key);
    }
  }

  lemma Through(others: seq<Value>, g: seq<Value>, h: seq<Value>, key: Value)
    requires OneGroupMore(others, g, key) && OneGroupMore(others, h, key)
    ensures Apart(g, h, 2) && Apart(h, g, 2)
  {
    OneGroupAway(others, g, key);
    OneGroupAway(others, h, key);
    Triangle(g, others, h, 1, 1);
    Triangle(h, others, g, 1, 1);
  }

  lemma OneGroupAway(others: seq<Value>, g: seq<Value>, key: Value)
    requires OneGroupMore(others, g, key)
    ensures Apart(others, g, 1) && Apart(g, others, 1)
  {
    if g != others {
      var j: nat, m :| j <= |others| && g == InsertAt(others, j, Group(key, m));
      assert Inserted(others, g);
      StepIsApart(others, g);
      StepIsApart(g, others);
    }
  }

  // ----- intersection

  lemma {:induction false} FilterAgrees<T>(p: T -> bool, q: T -> bool, a: seq<T>)
    requires forall x :: x in a ==> p(x) == q(x)
    ensures Filter(p, a) == Filter(q, a)
    decreases |a|
  {
    if a != [] {
      FilterAgrees(p, q, a[..|a| - 1]);
    }
  }

  /** One record less in `a`, everything else the same. */
  lemma InsertedElements<T(!new)>(b: seq<T>, c: seq<T>) returns (x: T)
    requires Inserted(b, c)
    ensures forall y :: y in c <==> y in b || y == x
  {
    var i: nat, z :| i <= |b| && c == InsertAt(b, i, z);
    x := z;
    assert b == b[..i] + b[i..];
  }

  lemma LetsOneThrough<T(!new)>(p: T -> bool, q: T -> bool, rest: seq<T>, i: nat, x: T)
    requires i <= |rest| && !p(x) && q(x) && forall y :: y in rest ==> p(y) == q(y)
    ensures Apart(Filter(p, InsertAt(rest, i, x)), Filter(q, InsertAt(rest, i, x)), 1)
    ensures Apart(Filter(q, InsertAt(rest, i, x)), Filter(p, InsertAt(rest, i, x)), 1)
  {
    FilterInsert(p, rest, i, x);
    FilterInsert(q, rest, i, x);
    FilterAgrees(p, q, rest);
    hide Filter;
    var few, more := Filter(p, rest), Filter(q, InsertAt(rest, i, x));
    assert Inserted(few, more);
    StepIsApart(few, more);
    StepIsApart(more, few);
  }

  /** What a second operand lets through more when it gains `x`. */
  lemma IntersectGains<T(!new)>(a: seq<T>, b: seq<T>, c: seq<T>, x: T)
    requires Distinct(a) && forall y :: y in c <==> y in b || y == x
    ensures Apart(Intersect(a, b), Intersect(a, c), 1) && Apart(Intersect(a, c), Intersect(a, b), 1)
  {
    if x in b || x !in a {
      FilterAgrees(y => y in b, y => y in c, a);
    } else {
      var i :| 0 <= i < |a| && a[i] == x;
      var p, q := (y: T) => y in b, (y: T) => y in c;
      var rest := a[..i] + a[i + 1..];
      assert a == InsertAt(rest, i, x);
      forall y | y in rest ensures p(y) == q(y) {
      }
      LetsOneThrough(p, q, rest, i, x);
    }
  }

  /** With a duplicate in the first operand one record in the second moves two. */
  lemma DuplicatesMoveTogether<T(!new)>(a: seq<T>, i: nat, j: nat)
    requires i < j < |a| && a[i] == a[j]
    ensures Inserted([], [a[i]]) && |Intersect(a, [])| == 0 && |Intersect(a, [a[i]])| >= 2
  {
    var x := a[i];
    assert [x] == InsertAt([], 0, x);
    NothingThrough(a);
    var p := (y: T) => y in [x];
    assert a == a[..i] + [x] + a[i + 1..j] + [x] + a[j + 1..];
    FilterConcat(p, a[..i] + [x] + a[i + 1..j] + [x], a[j + 1..]);
    FilterConcat(p, a[..i] + [x] + a[i + 1..j], [x]);
    FilterConcat(p, a[..i] + [x], a[i + 1..j]);
    FilterConcat(p, a[..i], [x]);
    assert [x][..0] == [];
    assert Filter(p, [x]) == [x];
  }

  lemma {:induction false} NothingThrough<T>(a: seq<T>)
    ensures Intersect(a, []) == []
    decreases |a|
  {
    if a != [] {
      NothingThrough(a[..|a| - 1]);
    }
  }

  /** For distinct records each step of the second operand moves one record at most. */
  lemma {:induction false} IntersectSecond<T(!new)>(a: seq<T>, b: seq<T>, c: seq<T>, d: nat)
    requires Distinct(a) && Apart(b, c, d)
    ensures Apart(Intersect(a, b), Intersect(a, c), d)
    decreases d
  {
    hide Intersect;
    if b != c {
      var s :| Step(b, s) && Apart(s, c, d - 1);
      IntersectSecond(a, s, c, d - 1);
      IntersectStep(a, b, s);
      Triangle(Intersect(a, b), Intersect(a, s), Intersect(a, c), 1, d - 1);
    }
  }

  lemma IntersectStep<T(!new)>(a: seq<T>, b: seq<T>, c: seq<T>)
    requires Distinct(a) && Step(b, c)
    ensures Apart(Intersect(a, b), Intersect(a, c), 1)
  {
    if Inserted(b, c) {
      var x := InsertedElements(b, c);
      IntersectGains(a, b, c, x);
    } else {
      var x := InsertedElements(c, b);
      IntersectGains(a, c, b, x);
    }
  }

  /** With distinct records in one of the first operands the distances of the operands add up. */
  lemma IntersectApart<T(!new)>(a: seq<T>, a': seq<T>, b: seq<T>, b': seq<T>, m: nat, n: nat)
    requires Distinct(a) && Apart(a, a', m) && Apart(b, b', n)
    ensures Apart(Intersect(a, b), Intersect(a', b'), m + n)
  {
    var p := (x: T) => x in b';
    IntersectSecond(a, b, b', n);
    FilterLipschitz(p);
    LipschitzApart(s => Filter(p, s), 1, a, a', m);
    hide Apart, Intersect, Filter;
    assert Intersect(a, b') == Filter(p, a) && Intersect(a', b') == Filter(p, a');
    Triangle(Intersect(a, b), Intersect(a, b'), Intersect(a', b'), n, m);
  }

  /** What tracking the sum of the operands' stabilities promises of an intersection with `a`: operands
      that are `m` and `n` apart give outputs at most `m + n` apart. */
  ghost predicate IntersectStable<T(!new)>(a: seq<T>) {
    forall a', b, b', m: nat, n: nat {:trigger Apart(a, a', m), Apart(b, b', n)} ::
      Apart(a, a', m) && Apart(b, b', n) ==> Apart(Intersect(a, b), Intersect(a', b'), m + n)
  }

  /** The promise is kept if and only if the first operand has no duplicates. */
  lemma IntersectStableExactlyWithoutDuplicates<T(!new)>(a: seq<T>)
    ensures IntersectStable(a) <==> Distinct(a)
  {
    hide Apart;
    if Distinct(a) {
      forall a', b, b', m: nat, n: nat | Apart(a, a', m) && Apart(b, b', n)
        ensures Apart(Intersect(a, b), Intersect(a', b'), m + n)
      {
        IntersectApart(a, a', b, b', m, n);
      }
    } else {
      var i, j :| 0 <= i < j < |a| && a[i] == a[j];
      var none: seq<T> := [];
      DuplicatesMoveTogether(a, i, j);
      StepIsApart(none, [a[i]]);
      NoStep(a);
      assert Apart(a, a, 0) && Apart(none, [a[i]], 1);
      if Apart(Intersect(a, none), Intersect(a, [a[i]]), 0 + 1) {
        CountApart(Intersect(a, none), Intersect(a, [a[i]]), 1);
      }
    }
  }

  lemma NoStep<T(!new)>(a: seq<T>)
    ensures Apart(a, a, 0)
  {
  }

  // ----- pipelines

  /** What an analyst may build from data sets of his own. */
  datatype Pipeline =
    | Source(i: nat)
    | FilterOf(p: Value -> bool, from: Pipeline)
    | MapOf(f: Value -> Value, from: Pipeline)
    | UnionOf(left: Pipeline, right: Pipeline)
    | GroupByOf(keyf: Value -> Value, from: Pipeline)
    | IntersectOf(left: Pipeline, right: Pipeline)

  ghost predicate Uses(p: Pipeline, n: nat) {
    match p
    case Source(i) => i < n
    case FilterOf(_, q) => Uses(q, n)
    case MapOf(_, q) => Uses(q, n)
    case UnionOf(q, r) => Uses(q, n) && Uses(r, n)
    case GroupByOf(_, q) => Uses(q, n)
    case IntersectOf(q, r) => Uses(q, n) && Uses(r, n)
  }

  function Run(p: Pipeline, sources: seq<seq<Value>>): seq<Value>
    requires Uses(p, |sources|)
  {
    match p
    case Source(i) => sources[i]
    case FilterOf(f, q) => Filter(f, Run(q, sources))
    case MapOf(f, q) => Map(f, Run(q, sources))
    case UnionOf(q, r) => Run(q, sources) + Run(r, sources)
    case GroupByOf(keyf, q) => GroupBy(keyf, Run(q, sources))
    case IntersectOf(q, r) => Intersect(Run(q, sources), Run(r, sources))
  }

  /** The stability the DSL computes from those of the sources. */
  function Tracked(p: Pipeline, stabilities: seq<nat>): nat
    requires Uses(p, |stabilities|)
  {
    match p
    case Source(i) => stabilities[i]
    case FilterOf(_, q) => Tracked(q, stabilities)
    case MapOf(_, q) => Tracked(q, stabilities)
    case UnionOf(q, r) => Tracked(q, stabilities) + Tracked(r, stabilities)
    case GroupByOf(_, q) => 2 * Tracked(q, stabilities)
    case IntersectOf(q, r) => Tracked(q, stabilities) + Tracked(r, stabilities)
  }

  /** On these sources, wherever the pipeline intersects, the first operand has no duplicates. */
  ghost predicate IntersectsDistinct(p: Pipeline, sources: seq<seq<Value>>)
    requires Uses(p, |sources|)
  {
    match p
    case Source(i) => true
    case FilterOf(_, q) => IntersectsDistinct(q, sources)
    case MapOf(_, q) => IntersectsDistinct(q, sources)
    case UnionOf(q, r) => IntersectsDistinct(q, sources) && IntersectsDistinct(r, sources)
    case GroupByOf(_, q) => IntersectsDistinct(q, sources)
    case IntersectOf(q, r) =>
      Distinct(Run(q, sources)) && IntersectsDistinct(q, sources) && IntersectsDistinct(r, sources)
  }

  ghost predicate SourcesApart(a: seq<seq<Value>>, b: seq<seq<Value>>, ds: seq<nat>) {
    |a| == |b| == |ds| && forall i :: 0 <= i < |a| ==> Apart(a[i], b[i], ds[i])
  }

  /** The tracked number bounds the distance of the outputs, whatever the distances of the sources and
      whatever the other sources hold. */
  lemma {:induction false} TrackedBoundsDistance(p: Pipeline, a: seq<seq<Value>>, b: seq<seq<Value>>, ds: seq<nat>)
    requires SourcesApart(a, b, ds) && Uses(p, |a|) && IntersectsDistinct(p, a)
    ensures Apart(Run(p, a), Run(p, b), Tracked(p, ds))
    decreases p
  {
    hide Apart;
    match p
    case Source(i) =>
    case FilterOf(f, q) =>
      TrackedBoundsDistance(q, a, b, ds);
      FilterLipschitz(f);
      LipschitzApart(s => Filter(f, s), 1, Run(q, a), Run(q, b), Tracked(q, ds));
    case MapOf(f, q) =>
      TrackedBoundsDistance(q, a, b, ds);
      MapLipschitz(f);
      LipschitzApart(s => Map(f, s), 1, Run(q, a), Run(q, b), Tracked(q, ds));
    case UnionOf(q, r) =>
      TrackedBoundsDistance(q, a, b, ds);
      TrackedBoundsDistance(r, a, b, ds);
      UnionApart(Run(q, a), Run(q, b), Run(r, a), Run(r, b), Tracked(q, ds), Tracked(r, ds));
    case GroupByOf(keyf, q) =>
      TrackedBoundsDistance(q, a, b, ds);
      GroupByLipschitz(keyf);
      LipschitzApart(s => GroupBy(keyf, s), 2, Run(q, a), Run(q, b), Tracked(q, ds));
    case IntersectOf(q, r) =>
      TrackedBoundsDistance(q, a, b, ds);
      TrackedBoundsDistance(r, a, b, ds);
      IntersectApart(Run(q, a), Run(q, b), Run(r, a), Run(r, b), Tracked(q, ds), Tracked(r, ds));
  }

  lemma Before<T(!new)>(a: seq<T>, b: seq<T>, q: seq<T>, d: nat)
    requires Apart(a, b, d)
    ensures Apart(a + q, b + q, d)
  {
    InContext([], a, b, q, d);
    hide Apart;
    assert [] + a == a && [] + b == b;
  }

  lemma After<T(!new)>(p: seq<T>, a: seq<T>, b: seq<T>, d: nat)
    requires Apart(a, b, d)
    ensures Apart(p + a, p + b, d)
  {
    InContext(p, a, b, [], d);
    hide Apart;
    assert p + a + [] == p + a && p + b + [] == p + b;
  }

  lemma UnionApart<T(!new)>(a: seq<T>, b: seq<T>, c: seq<T>, d: seq<T>, m: nat, n: nat)
    requires Apart(a, b, m) && Apart(c, d, n)
    ensures Apart(a + c, b + d, m + n)
  {
    hide Apart;
    Before(a, b, c, m);
    After(b, c, d, n);
    Triangle(a + c, b + c, b + d, m, n);
  }

  function Scaled(k: nat, n: nat): nat {
    k * n
  }

  lemma ScaledSum(k: nat, m: nat, n: nat)
    ensures Scaled(k, m + n) == Scaled(k, m) + Scaled(k, n)
  {
  }

  ghost predicate IsScaled(k: nat, stabilities: seq<nat>, ds: seq<nat>) {
    |ds| == |stabilities| && forall i :: 0 <= i < |ds| ==> ds[i] == Scaled(k, stabilities[i])
  }

  /** The tracked number is proportional to the stabilities of the sources. */
  lemma {:induction false} TrackedIsLinear(p: Pipeline, stabilities: seq<nat>, ds: seq<nat>, k: nat)
    requires IsScaled(k, stabilities, ds) && Uses(p, |ds|)
    ensures Tracked(p, ds) == Scaled(k, Tracked(p, stabilities))
    decreases p
  {
    hide Scaled;
    match p
    case Source(i) =>
    case FilterOf(_, q) => TrackedIsLinear(q, stabilities, ds, k);
    case MapOf(_, q) => TrackedIsLinear(q, stabilities, ds, k);
    case UnionOf(q, r) =>
      TrackedIsLinear(q, stabilities, ds, k);
      TrackedIsLinear(r, stabilities, ds, k);
      ScaledSum(k, Tracked(q, stabilities), Tracked(r, stabilities));
    case GroupByOf(_, q) =>
      TrackedIsLinear(q, stabilities, ds, k);
      ScaledSum(k, Tracked(q, stabilities), Tracked(q, stabilities));
    case IntersectOf(q, r) =>
      TrackedIsLinear(q, stabilities, ds, k);
      TrackedIsLinear(r, stabilities, ds, k);
      ScaledSum(k, Tracked(q, stabilities), Tracked(r, stabilities));
  }

  /** Stability is sound: sources that are `k` times their stability apart give outputs that are at most
      `k` times the tracked stability apart. */
  lemma StabilityIsSound(p: Pipeline, a: seq<seq<Value>>, b: seq<seq<Value>>, stabilities: seq<nat>, k: nat)
    requires |a| == |b| == |stabilities| && Uses(p, |a|) && IntersectsDistinct(p, a)
    requires forall i :: 0 <= i < |a| ==> Apart(a[i], b[i], Scaled(k, stabilities[i]))
    ensures Apart(Run(p, a), Run(p, b), Scaled(k, Tracked(p, stabilities)))
  {
    var ds: seq<nat> := seq(|stabilities|, i requires 0 <= i < |stabilities| => Scaled(k, stabilities[i]));
    TrackedBoundsDistance(p, a, b, ds);
    TrackedIsLinear(p, stabilities, ds, k);
  }

  // ----- measurements

  lemma {:induction false} CountApart<T(!new)>(a: seq<T>, b: seq<T>, d: nat)
    requires Apart(a, b, d)
    ensures |a| <= |b| + d && |b| <= |a| + d
    decreases d
  {
    if a != b {
      var s :| Step(a, s) && Apart(s, b, d - 1);
      CountApart(s, b, d - 1);
    }
  }

  function Max(a: real, b: real): (m: real)
    ensures m >= a && m >= b && (m == a || m == b)
  {
    if b > a then b else a
  }

  function Min(a: real, b: real): (m: real)
    ensures m <= a && m <= b && (m == a || m == b)
  {
    if b < a then b else a
  }

  function Abs(a: real): (m: real)
    ensures m >= 0.0 && (m == a || m == -a)
  {
    if a < 0.0 then -a else a
  }

  /** A value between the bounds counts as itself, another one as the bound it is beyond. */
  function Clamped(x: real, lower: real, upper: real): (c: real)
    ensures lower <= upper ==> c == if x < lower then lower else if x > upper then upper else x
    ensures lower > upper ==> c == upper
  {
    Min(upper, Max(lower, x))
  }

  function ClampedSum(data: seq<real>, lower: real, upper: real): real {
    if data == [] then 0.0
    else ClampedSum(data[..|data| - 1], lower, upper) + Clamped(data[|data| - 1], lower, upper)
  }

  /** The sum counts every record once, by its clamped value. */
  lemma SumCountsEach(data: seq<real>, x: real, lower: real, upper: real)
    ensures ClampedSum([], lower, upper) == 0.0
    ensures lower <= upper ==>
      ClampedSum(data + [x], lower, upper)
        == ClampedSum(data, lower, upper) + if x < lower then lower else if x > upper then upper else x
  {
    assert (data + [x])[..|data|] == data;
  }

  lemma {:induction false} SumConcat(a: seq<real>, b: seq<real>, lower: real, upper: real)
    ensures ClampedSum(a + b, lower, upper) == ClampedSum(a, lower, upper) + ClampedSum(b, lower, upper)
    decreases |b|
  {
    if b == [] {
      assert a + b == a;
    } else {
      assert (a + b)[..|a + b| - 1] == a + b[..|b| - 1];
      SumConcat(a, b[..|b| - 1], lower, upper);
    }
  }

  /** No contribution exceeds the larger bound in magnitude, even if the bounds are the wrong way round. */
  lemma ClampedBound(x: real, lower: real, upper: real)
    ensures -Max(Abs(lower), Abs(upper)) <= Clamped(x, lower, upper) <= Max(Abs(lower), Abs(upper))
  {
  }

  lemma SumInsert(a: seq<real>, i: nat, x: real, lower: real, upper: real)
    requires i <= |a|
    ensures ClampedSum(InsertAt(a, i, x), lower, upper) == ClampedSum(a, lower, upper) + Clamped(x, lower, upper)
  {
    hide Clamped;
    assert a == a[..i] + a[i..];
    SumConcat(a[..i], a[i..], lower, upper);
    SumConcat(a[..i] + [x], a[i..], lower, upper);
    SumConcat(a[..i], [x], lower, upper);
    assert [x][..0] == [];
  }

  lemma SumSensitive(lower: real, upper: real)
    ensures Sensitive(s => ClampedSum(s, lower, upper), Max(Abs(lower), Abs(upper)))
  {
    hide ClampedSum, Clamped, Max, Abs;
    var k := Max(Abs(lower), Abs(upper));
    forall a: seq<real>, b: seq<real> | Inserted(a, b)
      ensures -k <= ClampedSum(b, lower, upper) - ClampedSum(a, lower, upper) <= k
    {
      var i, x := Insertion(a, b);
      SumInsert(a, i, x, lower, upper);
      ClampedBound(x, lower, upper);
    }
  }

  lemma SumApart(a: seq<real>, b: seq<real>, lower: real, upper: real, d: nat)
    requires Apart(a, b, d)
    ensures var k := Max(Abs(lower), Abs(upper)) * d as real;
      -k <= ClampedSum(b, lower, upper) - ClampedSum(a, lower, upper) <= k
  {
    SumSensitive(lower, upper);
    MeasureApart(s => ClampedSum(s, lower, upper), Max(Abs(lower), Abs(upper)), a, b, d);
  }

  // ----- partitions

  ghost function BucketOf<T, K>(classifier: T -> K, key: K, data: seq<T>): seq<T> {
    Filter(x => classifier(x) == key, data)
  }

  function Sum(ds: seq<nat>): nat {
    if ds == [] then 0 else Sum(ds[..|ds| - 1]) + ds[|ds| - 1]
  }

  lemma {:induction false} SumUpdate(ds: seq<nat>, i: nat)
    requires i < |ds|
    ensures Sum(ds[i := ds[i] + 1]) == Sum(ds) + 1
  {
    var more := ds[i := ds[i] + 1];
    if i == |ds| - 1 {
      assert more[..i] == ds[..i];
    } else {
      assert more[..|ds| - 1] == ds[..|ds| - 1][i := ds[i] + 1];
      SumUpdate(ds[..|ds| - 1], i);
    }
  }

  lemma {:induction false} SumZeros(n: nat)
    ensures Sum(seq(n, i => 0)) == 0
  {
    if n > 0 {
      assert seq(n, i => 0)[..n - 1] == seq(n - 1, i => 0);
      SumZeros(n - 1);
    }
  }

  /** A record is in one bucket at most: the distances of the buckets add up to no more than that of
      the inputs. */
  lemma {:induction false} BucketDistancesAddUp<T(!new), K(!new)>(classifier: T -> K, keys: seq<K>, a: seq<T>,
          b: seq<T>, d: nat)
    returns (ds: seq<nat>)
    requires Apart(a, b, d) && forall i, j :: 0 <= i < j < |keys| ==> keys[i] != keys[j]
    ensures |ds| == |keys| && Sum(ds) <= d
    ensures forall i :: 0 <= i < |keys| ==>
      Apart(BucketOf(classifier, keys[i], a), BucketOf(classifier, keys[i], b), ds[i])
    decreases d
  {
    if a == b {
      ds := seq(|keys|, i => 0);
      SumZeros(|keys|);
    } else {
      var s :| Step(a, s) && Apart(s, b, d - 1);
      var rest := BucketDistancesAddUp(classifier, keys, s, b, d - 1);
      var x := OneBucketMoves(classifier, a, s);
      var i := Place(keys, classifier(x));
      ds := if i < |keys| then rest[i := rest[i] + 1] else rest;
      if i < |keys| {
        SumUpdate(rest, i);
      }
      hide Apart, BucketOf;
      forall j | 0 <= j < |keys|
        ensures Apart(BucketOf(classifier, keys[j], a), BucketOf(classifier, keys[j], b), ds[j])
      {
        if j == i {
          Triangle(BucketOf(classifier, keys[j], a), BucketOf(classifier, keys[j], s), BucketOf(classifier, keys[j], b),
            1, rest[j]);
        }
      }
    }
  }

  lemma Place<K>(keys: seq<K>, key: K) returns (i: nat)
    requires forall i, j :: 0 <= i < j < |keys| ==> keys[i] != keys[j]
    ensures i <= |keys| && forall j :: 0 <= j < |keys| ==> (keys[j] == key <==> j == i)
  {
    if j :| 0 <= j < |keys| && keys[j] == key {
      i := j;
    } else {
      i := |keys|;
    }
  }

  /** One step changes the bucket of one record, by one step. */
  lemma OneBucketMoves<T(!new), K(!new)>(classifier: T -> K, a: seq<T>, b: seq<T>) returns (x: T)
    requires Step(a, b)
    ensures forall key :: key != classifier(x) ==> BucketOf(classifier, key, a) == BucketOf(classifier, key, b)
    ensures Apart(BucketOf(classifier, classifier(x), a), BucketOf(classifier, classifier(x), b), 1)
  {
    var less, more := if Inserted(a, b) then a else b, if Inserted(a, b) then b else a;
    var i: nat, y :| i <= |less| && more == InsertAt(less, i, y);
    x := y;
    forall key ensures key != classifier(x) ==> BucketOf(classifier, key, a) == BucketOf(classifier, key, b) {
      FilterInsert(z => classifier(z) == key, less, i, y);
    }
    var key := classifier(y);
    FilterLipschitz((z: T) => classifier(z) == key);
    assert Inserted(less, more);
  }
}
