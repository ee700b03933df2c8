/** The stability that is tracked cannot be smaller: for every transformation there are data sets whose
    outputs are as far apart as the tracked number allows. */
module Tightness {
  import opened Collections
  import opened EditDistance
  import opened Stability

  /** `d` copies of a record. */
  function Copies(x: Value, d: nat): (r: seq<Value>)
    ensures |r| == d
  {
    seq(d, i => x)
  }

  lemma {:induction false} CopiesApart(data: seq<Value>, x: Value, d: nat)
    ensures Apart(data, data + Copies(x, d), d)
  {
    hide Step;
    if d == 0 {
      assert data + Copies(x, d) == data;
    } else {
      CopiesApart(data, x, d - 1);
      var less, more := data + Copies(x, d - 1), data + Copies(x, d);
      assert more == InsertAt(less, |less|, x);
      OneMore(less, x);
      StepIsApart(less, more);
      hide Apart;
      Triangle(data, less, more, d - 1, 1);
    }
  }

  lemma OneMore(a: seq<Value>, x: Value)
    ensures Inserted(a, InsertAt(a, |a|, x)) && Step(a, InsertAt(a, |a|, x))
  {
  }

  lemma NotCloser(a: seq<Value>, b: seq<Value>, d: nat)
    requires |b| - |a| > d
    ensures !Apart(a, b, d)
  {
    if Apart(a, b, d) {
      CountApart(a, b, d);
    }
  }

  lemma {:induction false} FilterKeepsCopies(p: Value -> bool, x: Value, d: nat)
    requires p(x)
    ensures |Filter(p, Copies(x, d))| == d
  {
    if d > 0 {
      assert Copies(x, d)[..d - 1] == Copies(x, d - 1);
      FilterKeepsCopies(p, x, d - 1);
    }
  }

  /** What moves with `d` records less than the outputs of two data sets `d` apart does. */
  ghost predicate Moves(f: seq<Value> -> seq<Value>, d: nat, e: nat) {
    exists a, b :: Apart(a, b, d) && Apart(f(a), f(b), e) && forall k: nat :: k < e ==> !Apart(f(a), f(b), k)
  }

  lemma MovesBy(f: seq<Value> -> seq<Value>, d: nat, e: nat, a: seq<Value>, b: seq<Value>)
    requires Apart(a, b, d) && Apart(f(a), f(b), e) && |f(b)| - |f(a)| == e
    ensures Moves(f, d, e)
  {
    forall k: nat | k < e ensures !Apart(f(a), f(b), k) {
      NotCloser(f(a), f(b), k);
    }
  }

  /** A filter that lets anything through moves by as much as its input. */
  lemma FilterIsTight(p: Value -> bool, x: Value, d: nat)
    requires p(x)
    ensures Moves(s => Filter(p, s), d, d)
  {
    var f := (s: seq<Value>) => Filter(p, s);
    var none: seq<Value> := [];
    CopiesApart(none, x, d);
    assert none + Copies(x, d) == Copies(x, d);
    FilterKeepsCopies(p, x, d);
    FilterLipschitz(p);
    LipschitzApart(f, 1, none, Copies(x, d), d);
    MovesBy(f, d, d, none, Copies(x, d));
  }

  /** So does a map. */
  lemma MapIsTight(g: Value -> Value, x: Value, d: nat)
    ensures Moves(s => Map(g, s), d, d)
  {
    var f := (s: seq<Value>) => Map(g, s);
    var none: seq<Value> := [];
    CopiesApart(none, x, d);
    assert none + Copies(x, d) == Copies(x, d);
    MapLipschitz(g);
    LipschitzApart(f, 1, none, Copies(x, d), d);
    MovesBy(f, d, d, none, Copies(x, d));
  }

  /** Operands that are `m` and `n` apart, and outputs that are no less than `m + n` apart. */
  ghost predicate BothMove(a: seq<Value>, a': seq<Value>, b: seq<Value>, b': seq<Value>, m: nat, n: nat,
          out: seq<Value>, out': seq<Value>)
  {
    Apart(a, a', m) && Apart(b, b', n) && forall k: nat :: k < m + n ==> !Apart(out, out', k)
  }

  /** A union may move by the sum of its operands' distances. */
  lemma UnionIsTight(x: Value, m: nat, n: nat)
    ensures exists a, a', b, b' :: BothMove(a, a', b, b', m, n, a + b, a' + b')
  {
    var none: seq<Value> := [];
    var a', b' := none + Copies(x, m), none + Copies(x, n);
    CopiesApart(none, x, m);
    CopiesApart(none, x, n);
    forall k: nat | k < m + n ensures !Apart(none + none, a' + b', k) {
      NotCloser(none + none, a' + b', k);
    }
    assert BothMove(none, a', none, b', m, n, none + none, a' + b');
  }

  // ----- intersection

  function Numbers(n: nat): (r: seq<Value>)
    ensures |r| == n
  {
    seq(n, i => Num(i as real))
  }

  lemma NumbersDistinct(n: nat)
    ensures Distinct(Numbers(n))
  {
  }

  lemma NumbersStep(n: nat)
    requires n > 0
    ensures Step(Numbers(n - 1), Numbers(n))
  {
    var x := Num((n - 1) as real);
    assert Numbers(n) == InsertAt(Numbers(n - 1), n - 1, x);
    OneMore(Numbers(n - 1), x);
  }

  lemma {:induction false} NumbersApart(n: nat)
    ensures Apart([], Numbers(n), n)
  {
    hide Step, Numbers;
    if n == 0 {
      assert Numbers(n) == [];
    } else {
      NumbersApart(n - 1);
      NumbersStep(n);
      StepIsApart(Numbers(n - 1), Numbers(n));
      hide Apart;
      Triangle([], Numbers(n - 1), Numbers(n), n - 1, 1);
    }
  }

  lemma {:induction false} FilterAll(p: Value -> bool, s: seq<Value>)
    requires forall x :: x in s ==> p(x)
    ensures Filter(p, s) == s
    decreases |s|
  {
    if s != [] {
      FilterAll(p, s[..|s| - 1]);
    }
  }

  /** An intersection may move by the sum of its operands' distances, even with no duplicates at first. */
  lemma IntersectIsTight(m: nat, n: nat)
    requires n > 0
    ensures exists a, a', b, b' :: Distinct(a) && BothMove(a, a', b, b', m, n, Intersect(a, b), Intersect(a', b'))
  {
    var a, none: seq<Value> := Numbers(n), [];
    var a' := a + Copies(a[0], m);
    NumbersDistinct(n);
    CopiesApart(a, a[0], m);
    NumbersApart(n);
    NothingThrough(a);
    assert forall x :: x in a' ==> x in a;
    FilterAll(x => x in a, a');
    forall k: nat | k < m + n ensures !Apart(Intersect(a, none), Intersect(a', a), k) {
      NotCloser(Intersect(a, none), Intersect(a', a), k);
    }
    assert BothMove(a, a', none, a, m, n, Intersect(a, none), Intersect(a', a));
  }

  // ----- grouping

  /** The group has two members, rather than another number. */
  function Paired(x: Value): bool {
    x.Group? && |x.members| == 2
  }

  function Unpaired(x: Value): bool {
    !Paired(x)
  }

  /** How many more records are groups of two than are not. */
  function Balance(s: seq<Value>): real {
    |Filter(Paired, s)| as real - |Filter(Unpaired, s)| as real
  }

  lemma BalanceSensitive()
    ensures Sensitive(Balance, 1.0)
  {
    forall a: seq<Value>, b: seq<Value> | Inserted(a, b) ensures -1.0 <= Balance(b) - Balance(a) <= 1.0 {
      var i: nat, x :| i <= |a| && b == InsertAt(a, i, x);
      FilterInsert(Paired, a, i, x);
      FilterInsert(Unpaired, a, i, x);
    }
  }

  function Same(x: Value): Value {
    x
  }

  function Singles(n: nat): (r: seq<Value>)
    ensures |r| == n
  {
    seq(n, i => Group(Num(i as real), [Num(i as real)]))
  }

  /** Of `n` groups the first `k` have two members. */
  function Doubles(n: nat, k: nat): (r: seq<Value>)
    ensures |r| == n
  {
    seq(n, i => Group(Num(i as real), if i < k then [Num(i as real), Num(i as real)] else [Num(i as real)]))
  }

  lemma {:induction false} GroupNumbers(n: nat)
    ensures GroupBy(Same, Numbers(n)) == Singles(n)
  {
    hide Find;
    if n > 0 {
      var x := Num((n - 1) as real);
      assert Numbers(n)[..n - 1] == Numbers(n - 1);
      GroupNumbers(n - 1);
      FindIs(Singles(n - 1), x, n - 1);
    }
  }

  lemma {:induction false} GroupAgain(n: nat, k: nat)
    requires k <= n
    ensures GroupBy(Same, Numbers(n) + Numbers(k)) == Doubles(n, k)
    decreases k
  {
    hide Find, GroupBy;
    if k == 0 {
      GroupNumbers(n);
      assert Numbers(n) + Numbers(0) == Numbers(n);
      assert Doubles(n, 0) == Singles(n);
    } else {
      var data, x := Numbers(n) + Numbers(k), Num((k - 1) as real);
      GroupAgain(n, k - 1);
      assert data[..|data| - 1] == Numbers(n) + Numbers(k - 1) && data[|data| - 1] == x;
      FindIs(Doubles(n, k - 1), x, k - 1);
      GroupLast(data);
      assert Doubles(n, k - 1)[k - 1 := Group(x, [x, x])] == Doubles(n, k);
      assert [x] + [x] == [x, x];
    }
  }

  lemma GroupLast(data: seq<Value>)
    requires data != []
    ensures GroupBy(Same, data) == AddTo(GroupBy(Same, data[..|data| - 1]), data[|data| - 1], data[|data| - 1])
  {
    hide AddTo;
  }

  lemma {:induction false} FilterNone(p: Value -> bool, s: seq<Value>)
    requires forall x :: x in s ==> !p(x)
    ensures Filter(p, s) == []
    decreases |s|
  {
    if s != [] {
      FilterNone(p, s[..|s| - 1]);
    }
  }

  lemma Balances(d: nat)
    ensures Balance(Singles(d)) == -(d as real) && Balance(Doubles(d, d)) == d as real
  {
    FilterNone(Paired, Singles(d));
    FilterAll(Unpaired, Singles(d));
    FilterAll(Paired, Doubles(d, d));
    FilterNone(Unpaired, Doubles(d, d));
  }

  lemma FarByBalance(g: seq<Value>, h: seq<Value>, k: nat)
    requires Balance(h) - Balance(g) > k as real
    ensures !Apart(g, h, k)
  {
    if Apart(g, h, k) {
      BalanceSensitive();
      MeasureApart(Balance, 1.0, g, h, k);
    }
  }

  /** Twice as many records, `d` apart, and twice that when grouped. */
  lemma GroupsApart(d: nat)
    ensures Apart(Numbers(d), Numbers(d) + Numbers(d), d) && Apart(Singles(d), Doubles(d, d), 2 * d)
  {
    hide Apart, Numbers, Singles, Doubles, GroupBy;
    NumbersApart(d);
    After(Numbers(d), [], Numbers(d), d);
    assert Numbers(d) + [] == Numbers(d);
    GroupNumbers(d);
    GroupAgain(d, d);
    GroupByLipschitz(Same);
    LipschitzApart(s => GroupBy(Same, s), 2, Numbers(d), Numbers(d) + Numbers(d), d);
  }

  /** Grouping may move by twice the distance of its inputs. */
  lemma GroupByIsTight(d: nat)
    ensures Moves(s => GroupBy(Same, s), d, 2 * d)
  {
    hide Apart, Numbers, Singles, Doubles, GroupBy, Balance;
    GroupsApart(d);
    GroupNumbers(d);
    GroupAgain(d, d);
    Balances(d);
    forall k: nat | k < 2 * d ensures !Apart(Singles(d), Doubles(d, d), k) {
      FarByBalance(Singles(d), Doubles(d, d), k);
    }
    var f := (s: seq<Value>) => GroupBy(Same, s);
    assert f(Numbers(d)) == Singles(d) && f(Numbers(d) + Numbers(d)) == Doubles(d, d);
  }
}
