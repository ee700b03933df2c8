/** The doubly linked list of call and return entries that the checker rewires in place. A list is
    described by the sequence of its nodes, whose `next` and `prev` fields chain them; a lifted pair of
    nodes is in no list, but remembers its neighbours, and that is what lets `Unlift` undo `Lift`. */
module LinkedEntries {
  import opened Collections
  import opened Options
  import opened Histories

  class Node<V> {
    const value: Option<V>
    const match_: Node?<V>  // the return entry if this is a call, otherwise null
    const id: int
    ghost const pos: int    // position of the entry in the history, -1 for the head
    var next: Node?<V>
    var prev: Node?<V>

    constructor (value: Option<V>, match_: Node?<V>, id: int, ghost pos: int)
      ensures this.value == value && this.match_ == match_ && this.id == id && this.pos == pos
      ensures next == null && prev == null
    {
      this.value := value;
      this.match_ := match_;
      this.id := id;
      this.pos := pos;
      this.next := null;
      this.prev := null;
    }
  }

  function At<V>(list: seq<Node<V>>, k: int): Node?<V> {
    if 0 <= k < |list| then list[k] else null
  }

  /** The `next` and `prev` fields chain exactly the nodes of `list`, in this order. */
  ghost predicate Linked<V>(list: seq<Node<V>>)
    reads list
  {
    && Distinct(list)
    && (list != [] ==> list[0].prev == null && list[|list| - 1].next == null)
    && (forall k {:trigger list[k].next} :: 0 <= k < |list| - 1 ==> list[k].next == list[k + 1])
    && (forall k {:trigger list[k].prev} :: 1 <= k < |list| ==> list[k].prev == list[k - 1])
  }

  function Without<T>(s: seq<T>, k: nat): seq<T>
    requires k < |s|
  {
    seq(|s| - 1, i requires 0 <= i < |s| - 1 => if i < k then s[i] else s[i + 1])
  }

  /** The list with a call at `k` and its return at `r` taken out. */
  function WithoutBoth<T>(s: seq<T>, k: nat, r: nat): seq<T>
    requires k < r < |s|
  {
    Without(Without(s, k), r - 1)
  }

  /** Inserts `n` before `mark`; does nothing when `mark` is nil. */
  method InsertBefore<V>(n: Node<V>, mark: Node?<V>, ghost list: seq<Node<V>>, ghost k: nat) returns (r: Node<V>)
    requires Linked(list) && n !in list && n.next == null && n.prev == null
    requires if mark == null then list == [] && k == 0 else k < |list| && mark == list[k]
    modifies n, list
    ensures r == n && Linked(list[..k] + [n] + list[k..])
    ensures k == 0 ==> Linked([n] + list)
  {
    if mark != null {
      var beforeMark := mark.prev;
      mark.prev := n;
      n.next := mark;
      if beforeMark != null {
        n.prev := beforeMark;
        beforeMark.next := n;
      }
    }
    ghost var more := list[..k] + [n] + list[k..];
    forall j {:trigger more[j].next} | 0 <= j < |more| - 1 ensures more[j].next == more[j + 1] {
      assert more[j] == if j < k then list[j] else if j == k then n else list[j - 1];
    }
    forall j {:trigger more[j].prev} | 1 <= j < |more| ensures more[j].prev == more[j - 1] {
      assert more[j] == if j < k then list[j] else if j == k then n else list[j - 1];
    }
    assert k == 0 ==> more == [n] + list;
    return n;
  }

  method Length<V>(n: Node?<V>, ghost list: seq<Node<V>>) returns (l: nat)
    requires Linked(list) && n == At(list, 0)
    ensures l == |list|
  {
    l := 0;
    var cursor := n;
    while cursor != null
      invariant l <= |list| && cursor == At(list, l)
      decreases |list| - l
    {
      cursor := cursor.next;
      l := l + 1;
    }
  }

  /** Node `n`, taken out of `list` at `k`, still points to its old neighbours. */
  ghost predicate Remembers<V>(n: Node<V>, list: seq<Node<V>>, k: int)
    reads n
  {
    n.next == At(list, k + 1) && n.prev == At(list, k - 1)
  }

  /** One half of `lift`: the neighbours of `n` are pointed at each other. The source tests the
      successor for nil only in the second half; a call always has one, its return. */
  method Bypass<V>(n: Node<V>, ghost list: seq<Node<V>>, ghost k: nat)
    requires Linked(list) && 1 <= k < |list| && n == list[k]
    modifies list
    ensures Linked(Without(list, k)) && Remembers(n, list, k)
    ensures forall m {:trigger m.next} :: m in list && m != list[k - 1] ==> m.next == old(m.next)
    ensures forall m {:trigger m.prev} :: m in list && m != At(list, k + 1) ==> m.prev == old(m.prev)
  {
    n.prev.next := n.next;
    if n.next != null {
      n.next.prev := n.prev;
    }
    ghost var rest := Without(list, k);
    forall j {:trigger rest[j].next} | 0 <= j < |rest| - 1 ensures rest[j].next == rest[j + 1] {
    }
    forall j {:trigger rest[j].prev} | 1 <= j < |rest| ensures rest[j].prev == rest[j - 1] {
    }
  }

  /** One half of `unlift`: the remembered neighbours of `n` are pointed back at it. */
  method Reinsert<V>(n: Node<V>, ghost list: seq<Node<V>>, ghost k: nat)
    requires Distinct(list) && 1 <= k < |list| && n == list[k]
    requires Linked(Without(list, k)) && Remembers(n, list, k)
    modifies list
    ensures Linked(list)
    ensures forall m {:trigger m.next} :: m in list && m != list[k - 1] ==> m.next == old(m.next)
    ensures forall m {:trigger m.prev} :: m in list && m != At(list, k + 1) ==> m.prev == old(m.prev)
  {
    n.prev.next := n;
    if n.next != null {
      n.next.prev := n;
    }
    ghost var rest := Without(list, k);
    forall j {:trigger list[j].next} | 0 <= j < |list| - 1 ensures list[j].next == list[j + 1] {
      if j < k - 1 {
        assert old(rest[j].next) == rest[j + 1];
      } else if j > k {
        assert old(rest[j - 1].next) == rest[j];
      }
    }
    forall j {:trigger list[j].prev} | 1 <= j < |list| ensures list[j].prev == list[j - 1] {
      if j < k {
        assert old(rest[j].prev) == rest[j - 1];
      } else if j > k + 1 {
        assert old(rest[j - 1].prev) == rest[j - 2];
      }
    }
  }

  /** A call and its return, lifted out of `list` in that order, remember their neighbours. */
  ghost predicate Lifted<V>(list: seq<Node<V>>, k: int, r: int)
    requires 0 <= k < r < |list|
    reads list[k], list[r]
  {
    Remembers(list[k], list, k) && Remembers(list[r], Without(list, k), r - 1)
  }

  method Lift<V>(entry: Node<V>, ghost list: seq<Node<V>>, ghost k: nat, ghost r: nat)
    requires Linked(list) && 1 <= k < r < |list|
    requires entry == list[k] && entry.match_ == list[r]
    modifies list
    ensures Linked(WithoutBoth(list, k, r)) && Lifted(list, k, r)
  {
    Bypass(entry, list, k);
    ghost var between := Without(list, k);
    assert between[r - 1] == list[r];
    Bypass(entry.match_, between, r - 1);
  }

  /** Undoes `Lift`, which wrote to the nodes that stay in the list only. */
  method Unlift<V>(entry: Node<V>, ghost list: seq<Node<V>>, ghost k: nat, ghost r: nat)
    requires Distinct(list) && 1 <= k < r < |list|
    requires entry == list[k] && entry.match_ == list[r]
    requires Linked(WithoutBoth(list, k, r)) && Lifted(list, k, r)
    modifies list
    ensures Linked(list)
  {
    ghost var between := Without(list, k);
    assert between[r - 1] == list[r];
    Reinsert(entry.match_, between, r - 1);
    Reinsert(entry, list, k);
  }

  // ----- building the list

  /** Node `n` holds its entry of `h`. */
  ghost predicate Holds<V>(n: Node<V>, h: History<V>) {
    && 0 <= n.pos < |h|
    && n.id == h[n.pos].id && n.value == Some(h[n.pos].value)
    && (n.match_ == null <==> h[n.pos].kind == Return)
  }

  /** Node `n`, if a call, points at the node of its return among `nodes`. */
  ghost predicate Matched<V>(n: Node<V>, nodes: seq<Node<V>>, h: History<V>, from: int) {
    n.match_ != null ==>
      var r := n.match_.pos;
      && 0 <= n.pos < r < |h| && 0 <= r - from < |nodes| && nodes[r - from] == n.match_
      && h[r].kind == Return && h[r].id == n.id
  }

  /** The nodes of the entries of `h` from position `from` on. */
  ghost predicate HoldsFrom<V>(nodes: seq<Node<V>>, h: History<V>, from: int) {
    && 0 <= from <= |h| && |nodes| == |h| - from
    && (forall j :: 0 <= j < |nodes| ==> nodes[j].pos == from + j)
    && (forall j {:trigger Holds(nodes[j], h)} :: 0 <= j < |nodes| ==> Holds(nodes[j], h))
    && (forall j {:trigger Matched(nodes[j], nodes, h, from)} :: 0 <= j < |nodes| ==> Matched(nodes[j], nodes, h, from))
  }

  lemma HoldsCons<V>(n: Node<V>, nodes: seq<Node<V>>, h: History<V>, from: int)
    requires 0 < from <= |h| && HoldsFrom(nodes, h, from)
    requires n.pos == from - 1 && Holds(n, h) && Matched(n, nodes, h, from)
    ensures HoldsFrom([n] + nodes, h, from - 1)
  {
    var more := [n] + nodes;
    forall j | 0 <= j < |more| ensures Holds(more[j], h) && Matched(more[j], more, h, from - 1) {
      if j > 0 {
        assert Holds(nodes[j - 1], h) && Matched(nodes[j - 1], nodes, h, from);
      }
    }
  }

  /** `matches` finds the node of every return from position `from` on. */
  ghost predicate Finds<V>(matches: map<int, Node<V>>, nodes: seq<Node<V>>, h: History<V>, from: int)
    requires 0 <= from <= |h| && |nodes| == |h| - from
  {
    forall i {:trigger h[i]} :: from <= i < |h| && h[i].kind == Return ==>
      h[i].id in matches && matches[h[i].id] == nodes[i - from]
  }

  lemma FindsCons<V>(matches: map<int, Node<V>>, n: Node<V>, nodes: seq<Node<V>>, h: History<V>, from: int)
    requires WellFormed(h) && 0 < from <= |h| && |nodes| == |h| - from
    requires Finds(matches, nodes, h, from)
    ensures Finds(if h[from - 1].kind == Return then matches[h[from - 1].id := n] else matches, [n] + nodes, h, from - 1)
  {
    EntryIsCallOrReturn(h, from - 1);
    forall i | from <= i < |h| && h[i].kind == Return && h[from - 1].kind == Return
      ensures h[i].id != h[from - 1].id
    {
      EntryIsCallOrReturn(h, i);
    }
  }

  lemma FindsReturn<V>(matches: map<int, Node<V>>, nodes: seq<Node<V>>, h: History<V>, from: int)
    requires WellFormed(h) && 0 < from <= |h| && HoldsFrom(nodes, h, from)
    requires Finds(matches, nodes, h, from) && h[from - 1].kind == Call
    ensures h[from - 1].id in matches
    ensures var r := matches[h[from - 1].id];
            && from <= r.pos < |h| && nodes[r.pos - from] == r
            && h[r.pos].kind == Return && h[r.pos].id == h[from - 1].id
  {
    EntryIsCallOrReturn(h, from - 1);
    var r := Span(h, h[from - 1].id).1;
    assert h[r].kind == Return;
  }

  lemma Cons<V>(before: map<int, Node<V>>, matches: map<int, Node<V>>, n: Node<V>, nodes: seq<Node<V>>, h: History<V>,
          from: int)
    requires WellFormed(h) && 0 < from <= |h|
    requires HoldsFrom(nodes, h, from) && Finds(before, nodes, h, from)
    requires n.pos == from - 1 && n.id == h[from - 1].id && n.value == Some(h[from - 1].value)
    requires h[from - 1].kind == Return ==> n.match_ == null && matches == before[n.id := n]
    requires h[from - 1].kind == Call ==> n.id in before && n.match_ == before[n.id] && matches == before
    ensures HoldsFrom([n] + nodes, h, from - 1) && Finds(matches, [n] + nodes, h, from - 1)
  {
    if h[from - 1].kind == Call {
      FindsReturn(before, nodes, h, from);
    }
    HoldsCons(n, nodes, h, from);
    FindsCons(before, n, nodes, h, from);
  }

  lemma NoNodes<V>(matches: map<int, Node<V>>, h: History<V>)
    ensures HoldsFrom([], h, |h|) && Finds(matches, [], h, |h|)
  {
  }

  method MakeLinkedEntries<V>(entries: History<V>) returns (root: Node?<V>, ghost nodes: seq<Node<V>>)
    requires WellFormed(entries)
    ensures HoldsFrom(nodes, entries, 0) && Linked(nodes) && root == At(nodes, 0)
    ensures fresh(nodes)
  {
    hide HoldsFrom, Finds, WellFormed;
    root := null;
    nodes := [];
    var matches: map<int, Node<V>> := map[];
    var i := |entries|;
    NoNodes(matches, entries);
    while i > 0
      invariant 0 <= i <= |entries| && |nodes| == |entries| - i
      invariant HoldsFrom(nodes, entries, i) && Finds(matches, nodes, entries, i)
      invariant Linked(nodes) && root == At(nodes, 0) && fresh(nodes)
    {
      i := i - 1;
      var elem := entries[i];
      ghost var before := matches;
      if elem.kind == Call {
        FindsReturn(matches, nodes, entries, i + 1);
      }
      var entry := new Node(Some(elem.value), if elem.kind == Call then matches[elem.id] else null, elem.id, i);
      if elem.kind == Return {
        matches := matches[elem.id := entry];
      }
      Cons(before, matches, entry, nodes, entries, i + 1);
      root := InsertBefore(entry, root, nodes, 0);
      nodes := [entry] + nodes;
    }
  }
}
