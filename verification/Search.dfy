/** The proof side of the search: what the list, the stack and the cache of `checkSingle` mean
    for the decision problem. Nothing here reads a mutable field. */
module Search {
  import opened Collections
  import opened Linearizability
  import opened Histories
  import opened LinkedEntries

  /** What stays fixed during one search: the model, the history, the nodes of its entries and
      the sentinel in front of them. */
  datatype Instance<!S, !V> = Instance(model: Model<S, V>, history: History<V>, nodes: seq<Node<V>>, head: Node<V>)
  {
    ghost predicate Valid() {
      WellFormed(history) && HoldsFrom(nodes, history, 0) && head.pos == -1
    }

    ghost function Problem(): Problem<V>
      requires Valid()
    {
      ToProblem(history)
    }
  }

  /** One level of the search: the list at that level, the cursor, the operations still open and
      the state. When the level is on the stack the cursor is at the call that was taken and
      `ret` is the index of its return. */
  datatype Level<S, V> = Level(list: seq<Node<V>>, at: nat, ret: nat, open: set<int>, state: S)

  // ----- the list of a level

  /** `list` is the sentinel followed by the nodes of the open operations in history order. */
  ghost predicate Lists<S, V>(x: Instance<S, V>, list: seq<Node<V>>, open: set<int>)
    requires x.Valid()
  {
    && |list| > 0 && list[0] == x.head
    && (forall k :: 0 <= k < |list| ==> list[k].pos < |x.nodes|)
    && (forall k :: 1 <= k < |list| ==> 0 <= list[k].pos && x.nodes[list[k].pos] == list[k])
    && (forall k :: 1 <= k < |list| ==> list[k].id in open)
    && (forall j, k :: 0 <= j < k < |list| ==> list[j].pos < list[k].pos)
    && (forall i {:trigger Listed(x.nodes[i], list, open)} :: 0 <= i < |x.nodes| ==> Listed(x.nodes[i], list, open))
  }

  ghost predicate Listed<V>(n: Node<V>, list: seq<Node<V>>, open: set<int>) {
    n.id in open ==> n in list
  }

  /** The node of an entry, with what it says about its operation. */
  lemma NodeFacts<S, V>(x: Instance<S, V>, i: int)
    requires x.Valid() && 0 <= i < |x.nodes|
    ensures var n, h := x.nodes[i], x.history;
      && n.pos == i && 0 <= n.id < Size(h) && n.id == h[i].id && HasOp(h, n.id)
      && (if n.match_ == null then i == Span(h, n.id).1 else i == Span(h, n.id).0)
      && (n.match_ != null ==>
            && n.match_.pos == Span(h, n.id).1 && x.nodes[Span(h, n.id).1] == n.match_
            && n.match_.id == n.id && n.match_.match_ == null
            && n.value.Some? && n.match_.value.Some?
            && x.Problem().ops[n.id] == (n.value.value, n.match_.value.value))
  {
    var n, h := x.nodes[i], x.history;
    assert Holds(n, h) && Matched(n, x.nodes, h, 0);
    EntryIsCallOrReturn(h, i);
    if n.match_ != null {
      EntryIsCallOrReturn(h, n.match_.pos);
      assert Holds(n.match_, h);
    }
  }

  /** The call and the return of an open operation are in the list, in this order. */
  lemma OpenIsListed<S, V>(x: Instance<S, V>, list: seq<Node<V>>, open: set<int>, a: int) returns (c: nat, r: nat)
    requires x.Valid() && Lists(x, list, open) && a in open && 0 <= a < Size(x.history)
    ensures HasOp(x.history, a)
    ensures 1 <= c < r < |list|
    ensures list[c].pos == Span(x.history, a).0 && list[c].id == a && list[c].match_ == list[r]
    ensures list[r].pos == Span(x.history, a).1 && list[r].id == a
  {
    var (ci, ri) := Span(x.history, a);
    NodeFacts(x, ci);
    NodeFacts(x, ri);
    assert Holds(x.nodes[ci], x.history);
    assert Listed(x.nodes[ci], list, open) && Listed(x.nodes[ri], list, open);
    c :| 0 <= c < |list| && list[c] == x.nodes[ci];
    r :| 0 <= r < |list| && list[r] == x.nodes[ri];
  }

  /** A call in the list is followed by its return. */
  lemma ReturnFollows<S, V>(x: Instance<S, V>, list: seq<Node<V>>, open: set<int>, k: nat) returns (r: nat)
    requires x.Valid() && Lists(x, list, open) && 1 <= k < |list| && list[k].match_ != null
    ensures k < r < |list| && list[r] == list[k].match_
  {
    NodeFacts(x, list[k].pos);
    var c;
    c, r := OpenIsListed(x, list, open, list[k].id);
    assert c == k;
  }

  /** A call that only calls come before is a minimal operation. */
  lemma FrontCallIsMinimal<S, V>(x: Instance<S, V>, list: seq<Node<V>>, open: set<int>, k: nat)
    requires x.Valid() && Lists(x, list, open) && open <= UpTo(Size(x.history))
    requires 1 <= k < |list| && forall j :: 1 <= j <= k ==> list[j].match_ != null
    ensures Minimal(x.Problem(), open, list[k].id)
  {
    NodeFacts(x, list[k].pos);
    forall b | b in open ensures !x.Problem().Before(b, list[k].id) {
      var c, r := OpenIsListed(x, list, open, b);
      NodeFacts(x, list[r].pos);
      assert k < r;
    }
  }

  /** A call behind a return in the list is not minimal. */
  lemma LaterCallIsNotMinimal<S, V>(x: Instance<S, V>, list: seq<Node<V>>, open: set<int>, k: nat, j: nat)
    requires x.Valid() && Lists(x, list, open) && open <= UpTo(Size(x.history))
    requires 1 <= k < j < |list| && list[k].match_ == null && list[j].match_ != null
    ensures !Minimal(x.Problem(), open, list[j].id)
  {
    NodeFacts(x, list[k].pos);
    NodeFacts(x, list[j].pos);
    assert Earlier(x.history, list[k].id, list[j].id);
    assert x.Problem().Before(list[k].id, list[j].id);
    assert list[k].id in open;
  }

  /** Every minimal operation is called before the first return in the list. */
  lemma MinimalIsInFront<S, V>(x: Instance<S, V>, list: seq<Node<V>>, open: set<int>, k: nat, a: int) returns (j: nat)
    requires x.Valid() && Lists(x, list, open) && open <= UpTo(Size(x.history))
    requires 1 <= k < |list| && list[k].match_ == null && Minimal(x.Problem(), open, a)
    ensures 1 <= j < k && list[j].id == a && list[j].match_ != null
  {
    var r;
    j, r := OpenIsListed(x, list, open, a);
    assert j != k;
    if k < j {
      LaterCallIsNotMinimal(x, list, open, k, j);
    }
  }

  /** Only the call and the return of an operation carry its id. */
  lemma OnlyTwoNodes<S, V>(x: Instance<S, V>, list: seq<Node<V>>, open: set<int>, k: nat, r: nat, q: nat)
    requires x.Valid() && Lists(x, list, open)
    requires 1 <= k < r < |list| && list[k].match_ == list[r]
    requires 1 <= q < |list| && list[q].id == list[k].id
    ensures q == k || q == r
  {
    NodeFacts(x, list[k].pos);
    NodeFacts(x, list[q].pos);
  }

  /** Taking an operation out of the list closes it. */
  lemma WithoutBothLists<S, V>(x: Instance<S, V>, list: seq<Node<V>>, open: set<int>, k: nat, r: nat)
    requires x.Valid() && Lists(x, list, open)
    requires 1 <= k < r < |list| && list[k].match_ == list[r]
    ensures Lists(x, WithoutBoth(list, k, r), open - {list[k].id})
  {
    var rest := WithoutBoth(list, k, r);
    var a := list[k].id;
    assert |rest| == |list| - 2;
    forall j | 0 <= j < |rest|
      ensures rest[j] == list[if j < k then j else if j < r - 1 then j + 1 else j + 2]
    {
    }
    forall j | 1 <= j < |rest| ensures rest[j].id in open - {a} {
      var q := if j < k then j else if j < r - 1 then j + 1 else j + 2;
      if list[q].id == a {
        OnlyTwoNodes(x, list, open, k, r, q);
      }
    }
    forall i | 0 <= i < |x.nodes| ensures Listed(x.nodes[i], rest, open - {a}) {
      if x.nodes[i].id in open - {a} {
        assert Listed(x.nodes[i], list, open);
        StillListed(x, list, open, k, r, x.nodes[i]);
      }
    }
  }

  lemma StillListed<S, V>(x: Instance<S, V>, list: seq<Node<V>>, open: set<int>, k: nat, r: nat, n: Node<V>)
    requires x.Valid() && Lists(x, list, open)
    requires 1 <= k < r < |list| && list[k].match_ == list[r]
    requires n in list && n.id != list[k].id
    ensures n in WithoutBoth(list, k, r)
  {
    var q :| 0 <= q < |list| && list[q] == n;
    NodeFacts(x, list[k].pos);
    var rest := WithoutBoth(list, k, r);
    assert q != k && q != r;
    assert n == rest[if q < k then q else if q < r then q - 1 else q - 2];
  }

  lemma ListsNoDuplicates<S, V>(x: Instance<S, V>, list: seq<Node<V>>, open: set<int>)
    requires x.Valid() && Lists(x, list, open)
    ensures Distinct(list)
  {
  }

  /** A list that is down to the sentinel has nothing open. */
  lemma NothingOpen<S, V>(x: Instance<S, V>, list: seq<Node<V>>, open: set<int>)
    requires x.Valid() && Lists(x, list, open) && open <= UpTo(Size(x.history)) && |list| == 1
    ensures open == {}
  {
    forall a ensures a !in open {
      if a in open {
        var c, r := OpenIsListed(x, list, open, a);
      }
    }
  }

  /** The list holds the sentinel and two nodes for each open operation. */
  lemma {:induction false} ListSize<S, V>(x: Instance<S, V>, list: seq<Node<V>>, open: set<int>)
    requires x.Valid() && Lists(x, list, open) && open <= UpTo(Size(x.history))
    ensures |list| == 2 * |open| + 1
    decreases |open|
  {
    if |list| == 1 {
      NothingOpen(x, list, open);
    } else {
      var a := list[1].id;
      assert a in open;
      var c, r := OpenIsListed(x, list, open, a);
      WithoutBothLists(x, list, open, c, r);
      ListSize(x, WithoutBoth(list, c, r), open - {a});
    }
  }
}
