/** What the linearizability checker decides: sequential models, sets of operations with their
    real-time order, and the orders that explain them. */
module Linearizability {
  import opened Collections

  /** A sequential specification. `step` says whether the object may take a step with the given
      input and output and yields the next state; `equal` is the equality used for pruning. */
  datatype Model<!S, !V> = Model(init: S, step: (S, V, V) -> (bool, S), equal: (S, S) -> bool)

  /** The object accepts the input/output pairs `ops` one after the other from `state`. */
  ghost predicate Accepts<S, V>(m: Model<S, V>, state: S, ops: seq<(V, V)>) {
    ops == [] ||
    var (ok, next) := m.step(state, ops[0].0, ops[0].1);
    ok && Accepts(m, next, ops[1..])
  }

  /** No sequence of operations tells the two states apart. */
  ghost predicate SameFuture<S, V(!new)>(m: Model<S, V>, s: S, t: S) {
    forall ops :: Accepts(m, s, ops) <==> Accepts(m, t, ops)
  }

  /** What the checker needs of `equal`: it relates only states with the same future. */
  ghost predicate EqualIsSound<S(!new), V(!new)>(m: Model<S, V>) {
    forall s, t :: m.equal(s, t) ==> SameFuture(m, s, t)
  }

  lemma SameFutureStep<S, V(!new)>(m: Model<S, V>, s: S, t: S, input: V, output: V)
    requires SameFuture(m, s, t)
    ensures m.step(s, input, output).0 == m.step(t, input, output).0
    ensures m.step(s, input, output).0
         ==> SameFuture(m, m.step(s, input, output).1, m.step(t, input, output).1)
  {
    var (okS, nextS) := m.step(s, input, output);
    var (okT, nextT) := m.step(t, input, output);
    assert Accepts(m, nextS, []) && Accepts(m, nextT, []);
    assert [(input, output)][1..] == [];
    assert Accepts(m, s, [(input, output)]) == okS;
    assert Accepts(m, t, [(input, output)]) == okT;
    if okS {
      forall ops ensures Accepts(m, nextS, ops) <==> Accepts(m, nextT, ops) {
        var more := [(input, output)] + ops;
        assert more[1..] == ops;
        assert Accepts(m, s, more) == Accepts(m, nextS, ops);
        assert Accepts(m, t, more) == Accepts(m, nextT, ops);
      }
    }
  }

  // ----- the decision problem

  /** Operations 0..n-1, each with its input and output, and the pairs (a, b) such that `a`
      returned before `b` was called. */
  datatype Problem<V> = Problem(ops: seq<(V, V)>, before: set<(int, int)>) {
    predicate Before(a: int, b: int) {
      (a, b) in before
    }
  }

  function All<V>(p: Problem<V>): set<int> {
    UpTo(|p.ops|)
  }

  ghost predicate InRange(order: seq<int>, n: nat) {
    forall i :: 0 <= i < |order| ==> 0 <= order[i] < n
  }

  function Ops<V>(p: Problem<V>, order: seq<int>): seq<(V, V)>
    requires InRange(order, |p.ops|)
  {
    seq(|order|, i requires 0 <= i < |order| => p.ops[order[i]])
  }

  /** An order of all operations that the object accepts and that never puts `b` before `a`
      when `a` returned before `b` was called. */
  ghost predicate Linearization<S, V>(m: Model<S, V>, p: Problem<V>, order: seq<int>) {
    && InRange(order, |p.ops|) && Distinct(order) && |order| == |p.ops|
    && Accepts(m, m.init, Ops(p, order))
    && forall i, j {:trigger p.Before(order[j], order[i])} :: 0 <= i < j < |order| ==> !p.Before(order[j], order[i])
  }

  ghost predicate Linearizable<S, V>(m: Model<S, V>, p: Problem<V>) {
    exists order :: Linearization(m, p, order)
  }

  /** An order of some operations that the object accepts and that contains, before each of its
      operations, every operation that returned before that one was called. */
  ghost predicate PartialLinearization<S, V>(m: Model<S, V>, p: Problem<V>, order: seq<int>) {
    && InRange(order, |p.ops|) && Distinct(order)
    && Accepts(m, m.init, Ops(p, order))
    && DownwardClosed(p, All(p), order)
  }

  /** Every operation of `open` that precedes one of `order` occurs earlier in `order`. */
  ghost predicate DownwardClosed<V>(p: Problem<V>, open: set<int>, order: seq<int>) {
    forall i, b {:trigger p.Before(b, order[i])} ::
      0 <= i < |order| && b in open && p.Before(b, order[i]) ==> b in order[..i]
  }

  // ----- the search's view: which operations can come next

  /** Among the operations still open, none returned before `a` was called. */
  ghost predicate Minimal<V>(p: Problem<V>, open: set<int>, a: int) {
    && a in open && 0 <= a < |p.ops|
    && forall b :: b in open ==> !p.Before(b, a)
  }

  /** From `state`, with the operations `open` left to order, `order` takes a legal next
      operation at every step. */
  ghost predicate Legal<S, V>(m: Model<S, V>, p: Problem<V>, open: set<int>, state: S, order: seq<int>) {
    order == [] ||
    (&& Minimal(p, open, order[0])
     && var (ok, next) := m.step(state, p.ops[order[0]].0, p.ops[order[0]].1);
        ok && Legal(m, p, open - {order[0]}, next, order[1..]))
  }

  /** No legal order from here consumes every open operation. */
  ghost predicate Dead<S, V>(m: Model<S, V>, p: Problem<V>, open: set<int>, state: S) {
    forall order :: Legal(m, p, open, state, order) ==> |order| != |open|
  }

  function Elems(order: seq<int>): (r: set<int>)
    ensures forall x :: x in r <==> x in order
  {
    set i | 0 <= i < |order| :: order[i]
  }

  lemma ElemsCons(a: int, rest: seq<int>)
    ensures Elems([a] + rest) == {a} + Elems(rest)
  {
  }

  lemma {:induction false} DistinctElems(order: seq<int>)
    requires Distinct(order)
    ensures |Elems(order)| == |order|
  {
    if order != [] {
      assert order == [order[0]] + order[1..];
      ElemsCons(order[0], order[1..]);
      DistinctElems(order[1..]);
    }
  }

  /** A legal order runs through distinct open operations. */
  lemma {:induction false} LegalIsDistinct<S, V>(m: Model<S, V>, p: Problem<V>, open: set<int>, state: S,
          order: seq<int>)
    requires Legal(m, p, open, state, order)
    ensures Distinct(order) && Elems(order) <= open && InRange(order, |p.ops|)
    decreases |order|
  {
    if order != [] {
      var (_, next) := m.step(state, p.ops[order[0]].0, p.ops[order[0]].1);
      var rest := order[1..];
      LegalIsDistinct(m, p, open - {order[0]}, next, rest);
      assert forall j :: 1 <= j < |order| ==> order[j] == rest[j - 1] && order[j] in Elems(rest);
    }
  }

  /** States with the same future have the same legal orders. */
  lemma {:induction false} SameFutureSameLegal<S, V(!new)>(m: Model<S, V>, p: Problem<V>, open: set<int>, s: S, t: S,
          order: seq<int>)
    requires SameFuture(m, s, t)
    ensures Legal(m, p, open, s, order) == Legal(m, p, open, t, order)
    decreases |order|
  {
    if order != [] && Minimal(p, open, order[0]) {
      var (input, output) := p.ops[order[0]];
      SameFutureStep(m, s, t, input, output);
      if m.step(s, input, output).0 {
        SameFutureSameLegal(m, p, open - {order[0]}, m.step(s, input, output).1, m.step(t, input, output).1, order[1..]);
      }
    }
  }

  // ----- the search's view agrees with the declarative one

  lemma DownwardClosedCons<V>(p: Problem<V>, open: set<int>, a: int, rest: seq<int>)
    requires a in open && a !in rest
    ensures DownwardClosed(p, open, [a] + rest)
       <==> (forall b :: b in open ==> !p.Before(b, a)) && DownwardClosed(p, open - {a}, rest)
  {
    var order := [a] + rest;
    if DownwardClosed(p, open, order) {
      forall b | b in open ensures !p.Before(b, a) {
        assert order[0] == a && order[..0] == [];
      }
      forall i, b | 0 <= i < |rest| && b in open - {a} && p.Before(b, rest[i]) ensures b in rest[..i] {
        assert rest[i] == order[i + 1] && order[..i + 1] == [a] + rest[..i];
      }
    }
    if (forall b :: b in open ==> !p.Before(b, a)) && DownwardClosed(p, open - {a}, rest) {
      forall i, b | 0 <= i < |order| && b in open && p.Before(b, order[i]) ensures b in order[..i] {
        if i > 0 {
          assert order[i] == rest[i - 1] && order[..i] == [a] + rest[..i - 1];
          if b != a {
            assert p.Before(b, rest[i - 1]);
          }
        }
      }
    }
  }

  lemma {:induction false} LegalIffClosed<S, V>(m: Model<S, V>, p: Problem<V>, open: set<int>, state: S,
          order: seq<int>)
    requires InRange(order, |p.ops|) && Distinct(order) && Elems(order) <= open
    ensures Legal(m, p, open, state, order)
       <==> Accepts(m, state, Ops(p, order)) && DownwardClosed(p, open, order)
    decreases |order|
  {
    if order != [] {
      var a, rest := order[0], order[1..];
      assert order == [a] + rest;
      DownwardClosedCons(p, open, a, rest);
      assert Ops(p, order)[1..] == Ops(p, rest);
      var (ok, next) := m.step(state, p.ops[a].0, p.ops[a].1);
      LegalIffClosed(m, p, open - {a}, next, rest);
      assert a in Elems(order);
    }
  }

  /** The legal orders from the start are exactly the partial linearizations. */
  lemma LegalIffPartial<S, V>(m: Model<S, V>, p: Problem<V>, order: seq<int>)
    ensures Legal(m, p, All(p), m.init, order) <==> PartialLinearization(m, p, order)
  {
    if Legal(m, p, All(p), m.init, order) {
      LegalIsDistinct(m, p, All(p), m.init, order);
    }
    if InRange(order, |p.ops|) && Distinct(order) {
      LegalIffClosed(m, p, All(p), m.init, order);
    }
  }

  /** A duplicate-free order of n operations contains all of them. */
  lemma FullOrderHasAll(order: seq<int>, n: nat)
    requires InRange(order, n) && Distinct(order) && |order| == n
    ensures Elems(order) == UpTo(n)
  {
    DistinctElems(order);
    SubsetSize(Elems(order), UpTo(n));
  }

  /** For an order of everything, containing the predecessors and having no inversion are one. */
  lemma PredecessorIsEarlier<V>(p: Problem<V>, order: seq<int>, i: int, j: int)
    requires InRange(order, |p.ops|) && Distinct(order)
    requires DownwardClosed(p, All(p), order)
    requires 0 <= i < |order| && 0 <= j < |order| && p.Before(order[j], order[i])
    ensures j < i
  {
    var k :| 0 <= k < i && order[..i][k] == order[j];
    assert order[k] == order[j];
  }

  lemma NoInversionIsClosed<V>(p: Problem<V>, order: seq<int>, i: int, b: int)
    requires InRange(order, |p.ops|) && Distinct(order) && |order| == |p.ops|
    requires 0 <= i < |order| && b in All(p) && b != order[i]
    requires forall k :: i < k < |order| ==> order[k] != b
    ensures b in order[..i]
  {
    hide Distinct, InRange, Elems;
    FullOrderHasAll(order, |p.ops|);
    assert b in Elems(order);
    var k :| 0 <= k < |order| && order[k] == b;
    assert k < i;
    assert order[..i][k] == b;
  }

  /** Real-time precedence never relates an operation to itself. */
  ghost predicate Irreflexive<V>(p: Problem<V>) {
    forall a :: !p.Before(a, a)
  }

  lemma FullPartialIsLinearization<S, V>(m: Model<S, V>, p: Problem<V>, order: seq<int>)
    requires PartialLinearization(m, p, order) && |order| == |p.ops|
    ensures Linearization(m, p, order)
  {
    forall i, j {:trigger p.Before(order[j], order[i])} | 0 <= i < j < |order| ensures !p.Before(order[j], order[i]) {
      if p.Before(order[j], order[i]) {
        PredecessorIsEarlier(p, order, i, j);
      }
    }
  }

  lemma LinearizationIsFullPartial<S, V>(m: Model<S, V>, p: Problem<V>, order: seq<int>)
    requires Irreflexive(p) && Linearization(m, p, order)
    ensures PartialLinearization(m, p, order) && |order| == |p.ops|
  {
    forall i, b {:trigger p.Before(b, order[i])} | 0 <= i < |order| && b in All(p) && p.Before(b, order[i])
      ensures b in order[..i]
    {
      NoInversionIsClosed(p, order, i, b);
    }
  }

  /** The history is linearizable exactly when the initial configuration is not dead. */
  lemma LinearizableIffNotDead<S, V>(m: Model<S, V>, p: Problem<V>)
    requires Irreflexive(p)
    ensures Linearizable(m, p) <==> !Dead(m, p, All(p), m.init)
  {
    forall order ensures Legal(m, p, All(p), m.init, order) && |order| == |p.ops| <==> Linearization(m, p, order) {
      LegalIffPartial(m, p, order);
      if PartialLinearization(m, p, order) && |order| == |p.ops| {
        FullPartialIsLinearization(m, p, order);
      }
      if Linearization(m, p, order) {
        LinearizationIsFullPartial(m, p, order);
      }
    }
  }
}
