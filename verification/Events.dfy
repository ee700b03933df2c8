/** Histories given as events: ids of any kind are renumbered by first appearance, and positions serve
    as times. */
module Events {
  import opened Linearizability
  import opened Histories
  import opened CheckOperations

  datatype Event<V> = Event(kind: Kind, value: V, id: int)

  function Ids<V>(events: seq<Event<V>>): (ids: seq<int>)
    ensures |ids| == |events|
  {
    seq(|events|, i requires 0 <= i < |events| => events[i].id)
  }

  /** The different ids, in the order in which they first appear. */
  function Order(ids: seq<int>): seq<int> {
    if ids == [] then []
    else
      var order := Order(ids[..|ids| - 1]);
      var last := ids[|ids| - 1];
      if last in order then order else order + [last]
  }

  lemma {:induction false} OrderFacts(ids: seq<int>)
    ensures forall x :: x in Order(ids) <==> x in ids
    ensures forall i, j :: 0 <= i < j < |Order(ids)| ==> Order(ids)[i] != Order(ids)[j]
  {
    if ids != [] {
      var front := ids[..|ids| - 1];
      OrderFacts(front);
      assert ids == front + [ids[|ids| - 1]];
    }
  }

  /** `e` is `events` with every id replaced by its place in the order of first appearance. */
  ghost predicate Renumbered<V>(events: seq<Event<V>>, e: seq<Event<V>>) {
    var order := Order(Ids(events));
    && |e| == |events|
    && forall i :: 0 <= i < |e| ==>
         && e[i].kind == events[i].kind && e[i].value == events[i].value
         && 0 <= e[i].id < |order| && order[e[i].id] == events[i].id
  }

  lemma OrderStep(ids: seq<int>, i: nat)
    requires i < |ids|
    ensures var order := Order(ids[..i]); Order(ids[..i + 1]) == if ids[i] in order then order else order + [ids[i]]
  {
    assert ids[..i + 1][..i] == ids[..i];
  }

  lemma OrderOfNothing(ids: seq<int>)
    ensures Order(ids[..0]) == []
  {
  }

  method Renumber<V>(events: seq<Event<V>>) returns (e: seq<Event<V>>)
    ensures Renumbered(events, e) && Numbered(events, e)
  {
    hide Order;
    e := [];
    var m: map<int, int> := map[];
    var id := 0;
    ghost var ids := Ids(events);
    OrderOfNothing(ids);
    for i := 0 to |events|
      invariant |e| == i && id == |Order(ids[..i])|
      invariant forall x :: x in m <==> x in Order(ids[..i])
      invariant forall x :: x in m ==> 0 <= m[x] < id && Order(ids[..i])[m[x]] == x
      invariant forall k :: 0 <= k < i ==> e[k].kind == events[k].kind && e[k].value == events[k].value
      invariant forall k :: 0 <= k < i ==> 0 <= e[k].id < id && Order(ids[..i])[e[k].id] == events[k].id
    {
      var v := events[i];
      OrderStep(ids, i);
      if v.id in m {
        e := e + [Event(v.kind, v.value, m[v.id])];
      } else {
        e := e + [Event(v.kind, v.value, id)];
        m := m[v.id := id];
        id := id + 1;
      }
    }
    assert ids[..|events|] == ids;
    RenumberedIsNumbered(events, e);
  }

  method ConvertEntries<V>(events: seq<Event<V>>) returns (h: History<V>)
    ensures Converted(events, h)
  {
    h := [];
    for i := 0 to |events|
      invariant |h| == i
      invariant forall k :: 0 <= k < i ==> h[k] == Entry(events[k].kind, events[k].value, events[k].id, k)
    {
      h := h + [Entry(events[i].kind, events[i].value, events[i].id, i)];
    }
  }

  /** Entries in the order of the events, with positions as times. */
  ghost predicate Converted<V>(events: seq<Event<V>>, h: History<V>) {
    |h| == |events| && forall i :: 0 <= i < |h| ==> h[i] == Entry(events[i].kind, events[i].value, events[i].id, i)
  }

  /** New ids count up from 0 in the order of first appearance, and equal ids get equal numbers. */
  ghost predicate Numbered<V>(events: seq<Event<V>>, e: seq<Event<V>>) {
    && |e| == |events|
    && (forall i :: 0 <= i < |e| ==> e[i].kind == events[i].kind && e[i].value == events[i].value && e[i].id >= 0)
    && (forall i, j :: 0 <= i < |e| && 0 <= j < |e| ==> (e[i].id == e[j].id <==> events[i].id == events[j].id))
    && (forall i, n {:trigger Used(e, i, n)} :: 0 <= i < |e| && 0 <= n < e[i].id ==> Used(e, i, n))
  }

  ghost predicate Used<V>(e: seq<Event<V>>, i: int, n: int) {
    exists j :: 0 <= j < i && j < |e| && e[j].id == n
  }

  /** The first elements of the order have appeared before the later ones. */
  lemma {:induction false} EarlierAppears(ids: seq<int>, i: nat, k: nat, n: nat)
    requires i < |ids| && n < k < |Order(ids)| && Order(ids)[k] == ids[i]
    ensures exists j :: 0 <= j < i && ids[j] == Order(ids)[n]
    decreases |ids|
  {
    var m := |ids| - 1;
    var front := ids[..m];
    OrderFacts(ids);
    OrderFacts(front);
    if i < m {
      FrontPlace(ids, m, i, k);
      EarlierAppears(front, i, k, n);
      var j :| 0 <= j < i && front[j] == Order(front)[n];
      assert ids[j] == Order(ids)[n];
    } else if n < |Order(front)| {
      assert Order(front)[n] in front;
      var j :| 0 <= j < m && front[j] == Order(front)[n];
      assert ids[j] == Order(ids)[n];
    }
  }

  lemma RenumberedIsNumbered<V>(events: seq<Event<V>>, e: seq<Event<V>>)
    requires Renumbered(events, e)
    ensures Numbered(events, e)
  {
    var ids := Ids(events);
    OrderFacts(ids);
    forall i, n | 0 <= i < |e| && 0 <= n < e[i].id ensures Used(e, i, n) {
      EarlierAppears(ids, i, e[i].id, n);
      var j :| 0 <= j < i && ids[j] == Order(ids)[n];
      assert e[j].id == n;
    }
    forall i, j | 0 <= i < |e| && 0 <= j < |e| ensures e[i].id == e[j].id <==> events[i].id == events[j].id {
      SameName(events, e, i, j);
    }
  }

  // ----- which event histories pose a decision problem

  ghost predicate EventOpAt<V>(events: seq<Event<V>>, id: int, c: int, r: int) {
    && 0 <= c < r < |events|
    && events[c].id == id && events[c].kind == Call
    && events[r].id == id && events[r].kind == Return
    && forall i :: 0 <= i < |events| && events[i].id == id ==> i == c || i == r
  }

  ghost predicate HasEvents<V>(events: seq<Event<V>>, id: int) {
    exists c, r :: EventOpAt(events, id, c, r)
  }

  /** Every id has one call, before its one return. */
  ghost predicate Matched<V>(events: seq<Event<V>>) {
    forall i :: 0 <= i < |events| ==> HasEvents(events, events[i].id)
  }

  lemma TwoPlaces(s: seq<int>, x: int, c: nat, r: nat)
    requires c < r < |s| && s[c] == x == s[r] && forall i :: 0 <= i < |s| && s[i] == x ==> i == c || i == r
    ensures multiset(s)[x] == 2
  {
    var a, b, d := s[..c], s[c + 1..r], s[r + 1..];
    assert s == a + [x] + b + [x] + d;
    assert x !in a && x !in b && x !in d;
    assert multiset(a)[x] == 0 && multiset(b)[x] == 0 && multiset(d)[x] == 0;
  }

  lemma Pick<T>(keys: set<T>) returns (x: T)
    requires keys != {}
    ensures x in keys
  {
    x :| x in keys;
  }

  ghost predicate Twice(m: multiset<int>, keys: set<int>) {
    (forall x :: x in m ==> x in keys) && (forall x :: x in keys ==> m[x] == 2)
  }

  lemma {:induction false} TwiceEach(m: multiset<int>, keys: set<int>)
    requires Twice(m, keys)
    ensures |m| == 2 * |keys|
    decreases |keys|
  {
    if keys == {} {
      assert forall x :: x !in m;
      assert m == multiset{};
    } else {
      var x := Pick(keys);
      var rest := m - multiset{x, x};
      assert rest[x] == 0;
      forall y | y in rest ensures y in keys - {x} {
        assert y in m;
      }
      forall y | y in keys - {x} ensures rest[y] == 2 {
        assert m[y] == 2;
      }
      TwiceEach(rest, keys - {x});
      assert m == rest + multiset{x, x};
    }
  }

  lemma {:induction false} DistinctSize(s: seq<int>)
    requires forall i, j :: 0 <= i < j < |s| ==> s[i] != s[j]
    ensures |(set x | x in s)| == |s|
  {
    if s != [] {
      var front, last := s[..|s| - 1], s[|s| - 1];
      DistinctSize(front);
      assert (set x | x in s) == (set x | x in front) + {last};
    }
  }

  lemma TwoEvents<V>(events: seq<Event<V>>, id: int, c: int, r: int)
    requires EventOpAt(events, id, c, r)
    ensures multiset(Ids(events))[id] == 2
  {
    var ids := Ids(events);
    assert forall k :: 0 <= k < |ids| ==> ids[k] == events[k].id;
    TwoPlaces(ids, id, c, r);
  }

  lemma TwicePresent<V>(events: seq<Event<V>>, x: int)
    requires Matched(events) && x in Ids(events)
    ensures multiset(Ids(events))[x] == 2
  {
    var i :| 0 <= i < |events| && Ids(events)[i] == x;
    hide EventOpAt;
    assert HasEvents(events, events[i].id);
    var c, r :| EventOpAt(events, events[i].id, c, r);
    TwoEvents(events, x, c, r);
  }

  /** Each id occurs twice, so there are half as many ids as events. */
  lemma MatchedSize<V>(events: seq<Event<V>>)
    requires Matched(events)
    ensures |events| == 2 * |Order(Ids(events))|
  {
    var ids := Ids(events);
    OrderFacts(ids);
    var keys := set x | x in Order(ids);
    DistinctSize(Order(ids));
    forall x | x in keys ensures multiset(ids)[x] == 2 {
      TwicePresent(events, x);
    }
    hide Matched, Order;
    TwiceEach(multiset(ids), keys);
    assert |multiset(ids)| == |ids|;
  }

  /** Renumbered events are a well-formed history exactly when calls and returns are matched. */
  lemma WellFormedIffMatched<V>(events: seq<Event<V>>, e: seq<Event<V>>, h: History<V>)
    requires Renumbered(events, e) && Converted(e, h)
    ensures WellFormed(h) <==> Matched(events)
  {
    OrderFacts(Ids(events));
    if Matched(events) {
      MatchedIsWellFormed(events, e, h);
    }
    if WellFormed(h) {
      WellFormedIsMatched(events, e, h);
    }
  }

  ghost predicate DistinctOrder(ids: seq<int>) {
    && (forall i, j :: 0 <= i < j < |Order(ids)| ==> Order(ids)[i] != Order(ids)[j])
    && (forall x :: x in Order(ids) <==> x in ids)
  }

  lemma MatchedIsWellFormed<V>(events: seq<Event<V>>, e: seq<Event<V>>, h: History<V>)
    requires Renumbered(events, e) && Converted(e, h) && DistinctOrder(Ids(events)) && Matched(events)
    ensures WellFormed(h)
  {
    hide Order;
    MatchedSize(events);
    var order := Order(Ids(events));
    forall id | 0 <= id < Size(h) ensures HasOp(h, id) {
      assert order[id] in order && order[id] in Ids(events);
      var i :| 0 <= i < |events| && events[i].id == order[id];
      assert HasEvents(events, events[i].id);
      var c, r :| EventOpAt(events, events[i].id, c, r);
      SameOp(events, e, h, id, c, r);
    }
  }

  lemma WellFormedIsMatched<V>(events: seq<Event<V>>, e: seq<Event<V>>, h: History<V>)
    requires Renumbered(events, e) && Converted(e, h) && DistinctOrder(Ids(events)) && WellFormed(h)
    ensures Matched(events)
  {
    hide Order, OpAt, EventOpAt;
    forall i | 0 <= i < |events| ensures HasEvents(events, events[i].id) {
      assert HasOp(h, h[i].id);
      var c, r :| OpAt(h, h[i].id, c, r);
      SameOp(events, e, h, h[i].id, c, r);
    }
  }

  lemma SameOp<V>(events: seq<Event<V>>, e: seq<Event<V>>, h: History<V>, id: int, c: int, r: int)
    requires Renumbered(events, e) && Converted(e, h) && 0 <= id < |Order(Ids(events))|
    requires DistinctOrder(Ids(events))
    ensures OpAt(h, id, c, r) <==> EventOpAt(events, Order(Ids(events))[id], c, r)
  {
    forall i | 0 <= i < |h| ensures h[i].id == id <==> events[i].id == Order(Ids(events))[id] {
    }
  }

  // ----- names do not matter

  ghost predicate SameUpToNames<V>(a: seq<Event<V>>, b: seq<Event<V>>) {
    && |a| == |b|
    && (forall i :: 0 <= i < |a| ==> a[i].kind == b[i].kind && a[i].value == b[i].value)
    && (forall i, j :: 0 <= i < |a| && 0 <= j < |a| ==> (a[i].id == a[j].id <==> b[i].id == b[j].id))
  }

  ghost predicate SamePattern(a: seq<int>, b: seq<int>) {
    |a| == |b| && forall i, j :: 0 <= i < |a| && 0 <= j < |a| ==> (a[i] == a[j] <==> b[i] == b[j])
  }

  lemma LastIsNew(a: seq<int>, b: seq<int>, n: nat)
    requires |a| == n + 1 && SamePattern(a, b) && a[n] in a[..n]
    ensures b[n] in b[..n]
  {
    var j :| 0 <= j < n && a[j] == a[n];
    assert b[j] == b[n] && b[j] == b[..n][j];
  }

  lemma OrderLength(a: seq<int>, n: nat)
    requires |a| == n + 1
    ensures |Order(a)| == |Order(a[..n])| + if a[n] in a[..n] then 0 else 1
  {
    OrderFacts(a[..n]);
  }

  lemma FrontPattern(a: seq<int>, b: seq<int>, n: nat)
    requires |a| == n + 1 && SamePattern(a, b)
    ensures SamePattern(a[..n], b[..n]) && SamePattern(b, a)
  {
  }

  lemma {:induction false} SameLength(a: seq<int>, b: seq<int>)
    requires SamePattern(a, b)
    ensures |Order(a)| == |Order(b)|
  {
    if a != [] {
      var n := |a| - 1;
      FrontPattern(a, b, n);
      OrderLength(a, n);
      OrderLength(b, n);
      hide Order, SamePattern;
      SameLength(a[..n], b[..n]);
      if a[n] in a[..n] { LastIsNew(a, b, n); }
      if b[n] in b[..n] { LastIsNew(b, a, n); }
    }
  }

  lemma FrontPlace(a: seq<int>, n: nat, i: nat, k: nat)
    requires |a| == n + 1 && i < n && k < |Order(a)| && Order(a)[k] == a[i]
    ensures k < |Order(a[..n])| && Order(a[..n])[k] == a[..n][i]
  {
    OrderFacts(a);
    OrderFacts(a[..n]);
    assert a[..n][i] in Order(a[..n]);
  }

  /** The place of an id in the order depends only on which ids are the same. */
  lemma {:induction false} SameOrder(a: seq<int>, b: seq<int>, i: nat, k: nat, l: nat)
    requires SamePattern(a, b)
    requires i < |a| && k < |Order(a)| && l < |Order(b)| && Order(a)[k] == a[i] && Order(b)[l] == b[i]
    ensures k == l
    decreases |a|
  {
    var n := |a| - 1;
    if i < n {
      FrontPlace(a, n, i, k);
      FrontPlace(b, n, i, l);
      hide Order;
      SameOrder(a[..n], b[..n], i, k, l);
    } else if a[n] in a[..n] {
      var j :| 0 <= j < n && a[j] == a[n];
      FrontPlace(a, n, j, k);
      FrontPlace(b, n, j, l);
      hide Order;
      SameOrder(a[..n], b[..n], j, k, l);
    } else {
      if b[n] in b[..n] { LastIsNew(b, a, n); }
      SameLength(a[..n], b[..n]);
      LastPlace(a, n, k);
      LastPlace(b, n, l);
    }
  }

  lemma LastPlace(a: seq<int>, n: nat, k: nat)
    requires |a| == n + 1 && a[n] !in a[..n] && k < |Order(a)| && Order(a)[k] == a[n]
    ensures k == |Order(a[..n])|
  {
    OrderFacts(a);
    OrderFacts(a[..n]);
  }

  /** Renumbering forgets the names of operations and nothing else. */
  lemma RenumberingForgetsNames<V>(a: seq<Event<V>>, b: seq<Event<V>>, e: seq<Event<V>>, f: seq<Event<V>>)
    requires Renumbered(a, e) && Renumbered(b, f)
    ensures SameUpToNames(a, b) <==> e == f
  {
    OrderFacts(Ids(a));
    OrderFacts(Ids(b));
    if SameUpToNames(a, b) {
      forall i | 0 <= i < |e| ensures e[i] == f[i] {
        SameOrder(Ids(a), Ids(b), i, e[i].id, f[i].id);
      }
    }
    if e == f {
      forall i, j | 0 <= i < |a| && 0 <= j < |a| ensures a[i].id == a[j].id <==> b[i].id == b[j].id {
        SameName(a, e, i, j);
        SameName(b, f, i, j);
      }
    }
  }

  lemma SameName<V>(a: seq<Event<V>>, e: seq<Event<V>>, i: nat, j: nat)
    requires Renumbered(a, e) && i < |a| && j < |a|
    requires forall i, j :: 0 <= i < j < |Order(Ids(a))| ==> Order(Ids(a))[i] != Order(Ids(a))[j]
    ensures a[i].id == a[j].id <==> e[i].id == e[j].id
  {
  }

  // ----- the verdict

  /** What the checker is given for a list of events. */
  ghost predicate Prepared<V(!new)>(events: seq<Event<V>>, h: History<V>) {
    exists e :: Renumbered(events, e) && Converted(e, h)
  }

  method PrepareEvents<V(!new)>(events: seq<Event<V>>) returns (h: History<V>)
    ensures Prepared(events, h) && (WellFormed(h) <==> Matched(events))
  {
    hide Matched, WellFormed, Renumbered, Converted;
    var e := Renumber(events);
    h := ConvertEntries(e);
    WellFormedIffMatched(events, e, h);
  }

  /** The checker on a history of events: the verdict on all parts of the model's partition, each
      renumbered by itself, and what is recorded of them. */
  method CheckEvents<S(!new), V(!new)>(model: Model<S, V>, partitionEvent: seq<Event<V>> -> seq<seq<Event<V>>>,
                                       history: seq<Event<V>>, verbose: bool)
    returns (result: CheckResult, l: seq<History<V>>, partials: seq<set<seq<int>>>)
    requires EqualIsSound(model) && partitionEvent(history) != []
    requires forall i :: 0 <= i < |partitionEvent(history)| ==> Matched(partitionEvent(history)[i])
    ensures |l| == |partitionEvent(history)| && AllWellFormed(l)
    ensures forall i :: 0 <= i < |l| ==> Prepared(partitionEvent(history)[i], l[i])
    ensures result == if forall i :: 0 <= i < |l| ==> Linearizable(model, ToProblem(l[i])) then Ok else Illegal
    ensures verbose ==> |partials| == |l| && forall i :: 0 <= i < |l| ==> Collected(model, ToProblem(l[i]), partials[i])
  {
    hide Linearizable, ToProblem, Matched, Prepared, WellFormed, Collected;
    var parts := partitionEvent(history);
    l := [];
    for i := 0 to |parts|
      invariant |l| == i && AllWellFormed(l) && forall j :: 0 <= j < i ==> Prepared(parts[j], l[j])
    {
      var h := PrepareEvents(parts[i]);
      l := l + [h];
    }
    result, partials := CheckParallel(model, l, verbose);
  }
}
