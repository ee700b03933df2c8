/** Histories as lists of timed operations, and the event lists the checker makes of them. */
module Operations {
  import opened Collections
  import opened Linearizability
  import opened Histories
  import opened Sorting

  datatype Operation<V> = Operation(input: V, call: int, output: V, ret: int)

  /** The decision problem a list of operations poses. */
  ghost function OpsProblem<V>(history: seq<Operation<V>>): Problem<V> {
    Problem(seq(|history|, i requires 0 <= i < |history| => (history[i].input, history[i].output)),
            set a, b | 0 <= a < |history| && 0 <= b < |history| && ReturnsBefore(history[a], history[b]) :: (a, b))
  }

  predicate ReturnsBefore<V>(a: Operation<V>, b: Operation<V>) {
    a.ret < b.call
  }

  ghost predicate Timely<V>(history: seq<Operation<V>>) {
    forall i :: 0 <= i < |history| ==> history[i].call <= history[i].ret
  }

  // ----- makeEntries

  /** Entries are ordered by time; at one time calls come before returns. */
  predicate Less<V>(a: Entry<V>, b: Entry<V>) {
    if a.time != b.time then a.time < b.time else a.kind == Call && b.kind == Return
  }

  function CallEntry<V>(history: seq<Operation<V>>, id: nat): Entry<V>
    requires id < |history|
  {
    Entry(Call, history[id].input, id, history[id].call)
  }

  function ReturnEntry<V>(history: seq<Operation<V>>, id: nat): Entry<V>
    requires id < |history|
  {
    Entry(Return, history[id].output, id, history[id].ret)
  }

  /** The call and the return of each operation, in the order of the operations. */
  function Unsorted<V>(history: seq<Operation<V>>): seq<Entry<V>> {
    seq(2 * |history|, k requires 0 <= k < 2 * |history| =>
      if k % 2 == 0 then CallEntry(history, k / 2) else ReturnEntry(history, k / 2))
  }

  lemma SameMultisetNoDuplicates<T>(a: seq<T>, b: seq<T>)
    requires multiset(a) == multiset(b) && Distinct(a)
    ensures Distinct(b) && |a| == |b|
    ensures forall x :: x in a <==> x in b
  {
    assert |multiset(a)| == |a| && |multiset(b)| == |b|;
    forall x ensures x in a <==> x in b {
      assert x in a <==> x in multiset(a);
    }
    forall i, j | 0 <= i < j < |b| ensures b[i] != b[j] {
      if b[i] == b[j] {
        Twice(b, i, j);
        var k :| 0 <= k < |a| && a[k] == b[i];
        Once(a, k);
      }
    }
  }

  lemma Twice<T>(s: seq<T>, i: nat, j: nat)
    requires i < j < |s| && s[i] == s[j]
    ensures multiset(s)[s[i]] >= 2
  {
    assert s == s[..j] + s[j..];
    assert s[..j][i] == s[i] && s[j..][0] == s[j];
    assert s[i] in multiset(s[..j]) && s[i] in multiset(s[j..]);
  }

  lemma Once<T>(s: seq<T>, k: nat)
    requires k < |s| && Distinct(s)
    ensures multiset(s)[s[k]] == 1
  {
    assert s == s[..k] + [s[k]] + s[k + 1..];
    assert s[k] !in s[..k] && s[k] !in s[k + 1..];
  }

  /** `entries` is some arrangement of the entries of `history` that the sort may produce. */
  ghost predicate Arranges<V>(history: seq<Operation<V>>, entries: History<V>) {
    multiset(entries) == multiset(Unsorted(history)) && Sorted((a: Entry<V>, b: Entry<V>) => Less(a, b), entries)
  }

  lemma UnsortedFacts<V>(history: seq<Operation<V>>)
    ensures Distinct(Unsorted(history)) && |Unsorted(history)| == 2 * |history|
    ensures forall x :: x in Unsorted(history) ==>
      0 <= x.id < |history| && x == if x.kind == Call then CallEntry(history, x.id) else ReturnEntry(history, x.id)
    ensures forall id :: 0 <= id < |history| ==>
      CallEntry(history, id) in Unsorted(history) && ReturnEntry(history, id) in Unsorted(history)
  {
    var u := Unsorted(history);
    forall id | 0 <= id < |history| ensures CallEntry(history, id) in u && ReturnEntry(history, id) in u {
      assert u[2 * id] == CallEntry(history, id);
      assert u[2 * id + 1] == ReturnEntry(history, id);
    }
  }

  /** Each operation has one call, before its one return. */
  lemma Positions<V>(history: seq<Operation<V>>, entries: History<V>, id: nat) returns (c: nat, r: nat)
    requires Timely(history) && Arranges(history, entries) && id < |history|
    ensures OpAt(entries, id, c, r)
    ensures entries[c] == CallEntry(history, id) && entries[r] == ReturnEntry(history, id)
  {
    UnsortedFacts(history);
    SameMultisetNoDuplicates(Unsorted(history), entries);
    hide Unsorted;
    c :| 0 <= c < |entries| && entries[c] == CallEntry(history, id);
    r :| 0 <= r < |entries| && entries[r] == ReturnEntry(history, id);
    assert Less(entries[c], entries[r]);
    forall i | 0 <= i < |entries| && entries[i].id == id ensures i == c || i == r {
      assert entries[i] in Unsorted(history);
    }
  }

  lemma ArrangedIsWellFormed<V>(history: seq<Operation<V>>, entries: History<V>)
    requires Timely(history) && Arranges(history, entries)
    ensures WellFormed(entries) && Size(entries) == |history|
  {
    UnsortedFacts(history);
    SameMultisetNoDuplicates(Unsorted(history), entries);
    forall i | 0 <= i < |entries| ensures 0 <= entries[i].id < |history| {
      assert entries[i] in Unsorted(history);
    }
    forall id | 0 <= id < |history| ensures HasOp(entries, id) {
      var c, r := Positions(history, entries, id);
    }
  }

  /** The entries form a history the search can work on exactly when no operation returns before
      it is called. */
  lemma WellFormedIffTimely<V>(history: seq<Operation<V>>, entries: History<V>)
    requires Arranges(history, entries)
    ensures WellFormed(entries) <==> Timely(history)
  {
    if Timely(history) {
      ArrangedIsWellFormed(history, entries);
    }
    if WellFormed(entries) {
      UnsortedFacts(history);
      SameMultisetNoDuplicates(Unsorted(history), entries);
      forall id | 0 <= id < |history| ensures history[id].call <= history[id].ret {
        assert HasOp(entries, id);
        var (c, r) := Span(entries, id);
        assert entries[c] in Unsorted(history) && entries[r] in Unsorted(history);
        assert !Less(entries[r], entries[c]);
      }
    }
  }

  /** Whatever the sort does with ties, the entries pose the problem of the operations: a return
      lies before a call exactly when its time is strictly smaller. */
  lemma ArrangedPosesTheProblem<V>(history: seq<Operation<V>>, entries: History<V>)
    requires Timely(history) && Arranges(history, entries)
    ensures WellFormed(entries) && ToProblem(entries) == OpsProblem(history)
  {
    ArrangedIsWellFormed(history, entries);
    var p, q := ToProblem(entries), OpsProblem(history);
    forall id | 0 <= id < |history|
      ensures entries[Span(entries, id).0] == CallEntry(history, id)
      ensures entries[Span(entries, id).1] == ReturnEntry(history, id)
    {
      var c, r := Positions(history, entries, id);
      assert OpAt(entries, id, Span(entries, id).0, Span(entries, id).1);
    }
    assert p.ops == q.ops;
    forall a, b | 0 <= a < |history| && 0 <= b < |history|
      ensures Earlier(entries, a, b) <==> ReturnsBefore(history[a], history[b])
    {
      var r, c := Span(entries, a).1, Span(entries, b).0;
      assert entries[r] == ReturnEntry(history, a) && entries[c] == CallEntry(history, b);
    }
    assert p.before == q.before;
  }

  lemma LessIsStrictWeak<V(!new)>()
    ensures StrictWeakOrder((a: Entry<V>, b: Entry<V>) => Less(a, b))
  {
  }

  method MakeEntries<V(!new)>(history: seq<Operation<V>>) returns (entries: History<V>)
    ensures Arranges(history, entries)
  {
    var unsorted: seq<Entry<V>> := [];
    for id := 0 to |history|
      invariant unsorted == Unsorted(history)[..2 * id]
    {
      unsorted := unsorted + [Entry(Call, history[id].input, id, history[id].call)];
      unsorted := unsorted + [Entry(Return, history[id].output, id, history[id].ret)];
    }
    assert unsorted == Unsorted(history);
    LessIsStrictWeak<V>();
    entries := Sort((a: Entry<V>, b: Entry<V>) => Less(a, b), unsorted);
  }

  // ----- linearizations as lists of operations

  function Pair<V>(o: Operation<V>): (V, V) {
    (o.input, o.output)
  }

  function Pairs<V>(order: seq<Operation<V>>): seq<(V, V)> {
    seq(|order|, i requires 0 <= i < |order| => Pair(order[i]))
  }

  /** No operation of `order` returned before an earlier one was called. */
  ghost predicate InRealTime<V>(order: seq<Operation<V>>) {
    forall i, j :: 0 <= i < j < |order| ==> !ReturnsBefore(order[j], order[i])
  }

  /** `order` is an arrangement of `ops` that respects real time and that the object accepts. */
  ghost predicate Explains<S, V>(m: Model<S, V>, state: S, ops: multiset<Operation<V>>, order: seq<Operation<V>>) {
    multiset(order) == ops && InRealTime(order) && Accepts(m, state, Pairs(order))
  }

  function Pick<V>(history: seq<Operation<V>>, order: seq<int>): seq<Operation<V>>
    requires InRange(order, |history|)
  {
    seq(|order|, i requires 0 <= i < |order| => history[order[i]])
  }

  /** The operations of `history` with an id in `open`, counted. */
  ghost function Open<V>(history: seq<Operation<V>>, open: set<int>): multiset<Operation<V>> {
    if history == [] then multiset{}
    else Open(history[..|history| - 1], open) + if |history| - 1 in open then multiset{history[|history| - 1]} else multiset{}
  }

  lemma {:induction false} OpenRemove<V>(history: seq<Operation<V>>, open: set<int>, a: int)
    requires 0 <= a < |history| && a in open
    ensures Open(history, open) == Open(history, open - {a}) + multiset{history[a]}
  {
    var init := history[..|history| - 1];
    if a == |history| - 1 {
      OpenIgnores(init, open, a);
    } else {
      OpenRemove(init, open, a);
    }
  }

  lemma {:induction false} OpenIgnores<V>(history: seq<Operation<V>>, open: set<int>, a: int)
    requires a >= |history|
    ensures Open(history, open) == Open(history, open - {a})
  {
    if history != [] {
      OpenIgnores(history[..|history| - 1], open, a);
    }
  }

  lemma {:induction false} OpenAll<V>(history: seq<Operation<V>>, open: set<int>)
    requires forall i :: 0 <= i < |history| ==> i in open
    ensures Open(history, open) == multiset(history)
  {
    if history != [] {
      var init := history[..|history| - 1];
      OpenAll(init, open);
      assert history == init + [history[|history| - 1]];
    }
  }

  lemma {:induction false} OpenFind<V>(history: seq<Operation<V>>, open: set<int>, o: Operation<V>) returns (a: int)
    requires o in Open(history, open)
    ensures 0 <= a < |history| && a in open && history[a] == o
  {
    if |history| - 1 in open && history[|history| - 1] == o {
      a := |history| - 1;
    } else {
      a := OpenFind(history[..|history| - 1], open, o);
    }
  }

  /** A list of distinct ids picks exactly the operations with these ids. */
  lemma {:induction false} PickedMultiset<V>(history: seq<Operation<V>>, open: set<int>, order: seq<int>)
    requires InRange(order, |history|) && Distinct(order) && Elems(order) == open
    ensures multiset(Pick(history, order)) == Open(history, open)
  {
    if order == [] {
      OpenNone(history, open);
    } else {
      var a, rest := order[0], order[1..];
      assert order == [a] + rest;
      ElemsCons(a, rest);
      assert a !in rest;
      PickedMultiset(history, open - {a}, rest);
      OpenRemove(history, open, a);
      assert Pick(history, order) == [history[a]] + Pick(history, rest);
    }
  }

  lemma {:induction false} OpenNone<V>(history: seq<Operation<V>>, open: set<int>)
    requires open == {}
    ensures Open(history, open) == multiset{}
  {
    if history != [] {
      OpenNone(history[..|history| - 1], open);
    }
  }

  lemma Cancel<T>(a: multiset<T>, b: multiset<T>, x: T)
    requires multiset{x} + a == b + multiset{x}
    ensures a == b
  {
    forall y ensures a[y] == b[y] {
      assert (multiset{x} + a)[y] == (b + multiset{x})[y];
    }
  }

  lemma PickCons<V>(history: seq<Operation<V>>, open: set<int>, a: int, rest: seq<int>)
    requires InRange(rest, |history|) && Distinct(rest) && Elems(rest) <= open - {a} && 0 <= a < |history| && a in open
    ensures InRange([a] + rest, |history|) && Distinct([a] + rest) && Elems([a] + rest) <= open
    ensures Pick(history, [a] + rest) == [history[a]] + Pick(history, rest)
  {
    ElemsCons(a, rest);
    forall i | 0 <= i < |rest| ensures rest[i] != a {
      assert rest[i] in Elems(rest);
    }
  }

  /** Every arrangement of the operations comes from a list of distinct ids. */
  lemma {:induction false} FindIds<V>(history: seq<Operation<V>>, open: set<int>, order: seq<Operation<V>>)
    returns (ids: seq<int>)
    requires multiset(order) == Open(history, open)
    ensures InRange(ids, |history|) && Distinct(ids) && Elems(ids) <= open && |ids| == |order|
    ensures Pick(history, ids) == order
    decreases |order|
  {
    if order == [] {
      ids := [];
    } else {
      assert order == [order[0]] + order[1..];
      var a := OpenFind(history, open, order[0]);
      OpenRemove(history, open, a);
      assert multiset(order) == multiset{order[0]} + multiset(order[1..]);
      Cancel(multiset(order[1..]), Open(history, open - {a}), order[0]);
      hide Open, Distinct;
      var rest := FindIds(history, open - {a}, order[1..]);
      ids := [a] + rest;
      PickCons(history, open, a, rest);
    }
  }

  lemma RealTimeAgrees<V>(history: seq<Operation<V>>, ids: seq<int>)
    requires InRange(ids, |history|)
    ensures InRealTime(Pick(history, ids))
       <==> forall i, j {:trigger OpsProblem(history).Before(ids[j], ids[i])} :: 0 <= i < j < |ids| ==>
         !OpsProblem(history).Before(ids[j], ids[i])
  {
    var p, order := OpsProblem(history), Pick(history, ids);
    forall i, j | 0 <= i < j < |ids| ensures p.Before(ids[j], ids[i]) == ReturnsBefore(order[j], order[i]) {
      assert order[i] == history[ids[i]] && order[j] == history[ids[j]];
    }
  }

  lemma LinearizationExplains<S, V>(m: Model<S, V>, history: seq<Operation<V>>, ids: seq<int>)
    requires InRange(ids, |history|) && Distinct(ids) && |ids| == |history|
    ensures Linearization(m, OpsProblem(history), ids) <==> Explains(m, m.init, multiset(history), Pick(history, ids))
  {
    hide Accepts, Distinct;
    var p, order := OpsProblem(history), Pick(history, ids);
    assert multiset(order) == multiset(history) by {
      FullOrderHasAll(ids, |history|);
      PickedMultiset(history, UpTo(|history|), ids);
      OpenAll(history, UpTo(|history|));
    }
    assert Ops(p, ids) == Pairs(order);
    RealTimeAgrees(history, ids);
  }

  /** Both formulations of linearizability agree. */
  lemma LinearizableIffExplained<S, V>(m: Model<S, V>, history: seq<Operation<V>>)
    ensures Linearizable(m, OpsProblem(history)) <==> exists order :: Explains(m, m.init, multiset(history), order)
  {
    if ids :| Linearization(m, OpsProblem(history), ids) {
      LinearizationExplains(m, history, ids);
      assert Explains(m, m.init, multiset(history), Pick(history, ids));
    }
    if order :| Explains(m, m.init, multiset(history), order) {
      OpenAll(history, UpTo(|history|));
      var ids := FindIds(history, UpTo(|history|), order);
      assert |multiset(order)| == |order| && |multiset(history)| == |history|;
      LinearizationExplains(m, history, ids);
    }
  }
}
