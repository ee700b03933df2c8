/** What a verdict on a key/value history says about puts, appends and gets: every get returns the last
    put to its key before it, followed by the appends since. */
module KvMeaning {
  import opened Linearizability
  import opened Operations
  import opened Kv

  /** The operation carries an input and an output. */
  predicate Typed(o: KvOperation) {
    o.input.Input? && o.output.Output?
  }

  predicate Gets(o: KvOperation) {
    Typed(o) && o.input.op == 0
  }

  predicate Puts(o: KvOperation, key: string) {
    Typed(o) && o.input.key == key && o.input.op == 1
  }

  predicate Appends(o: KvOperation, key: string) {
    Typed(o) && o.input.key == key && o.input.op != 0 && o.input.op != 1
  }

  /** What is appended to `key` by the operations from position `a` up to position `b`. */
  function Appended(order: seq<KvOperation>, key: string, a: nat, b: nat): string
    requires a <= b <= |order|
    decreases b
  {
    if a == b then ""
    else Appended(order, key, a, b - 1) + if Appends(order[b - 1], key) then order[b - 1].input.value else ""
  }

  /** Position `j` holds the last put to `key` before position `i`, or is -1 if there is none. */
  ghost predicate LastPut(order: seq<KvOperation>, i: nat, key: string, j: int)
    requires i <= |order|
  {
    && -1 <= j < i && (j >= 0 ==> Puts(order[j], key))
    && forall k :: j < k < i ==> !Puts(order[k], key)
  }

  /** `v` is the value of `key` just before position `i`: the last put, or nothing, and the appends since. */
  ghost predicate ValueAt(order: seq<KvOperation>, i: nat, key: string, v: string)
    requires i <= |order|
  {
    exists j :: LastPut(order, i, key, j)
      && v == (if j >= 0 then order[j].input.value else "") + Appended(order, key, j + 1, i)
  }

  /** Every operation is well-formed, and every get returns the value its key has at that point. */
  ghost predicate Reads(order: seq<KvOperation>) {
    forall i :: 0 <= i < |order| ==> ReadsAt(order, i)
  }

  ghost predicate ReadsAt(order: seq<KvOperation>, i: nat)
    requires i < |order|
  {
    Typed(order[i]) && (Gets(order[i]) ==> ValueAt(order, i, order[i].input.key, order[i].output.value))
  }

  lemma OneValue(order: seq<KvOperation>, i: nat, key: string, v: string, w: string)
    requires i <= |order| && ValueAt(order, i, key, v) && ValueAt(order, i, key, w)
    ensures v == w
  {
    var j :| LastPut(order, i, key, j)
      && v == (if j >= 0 then order[j].input.value else "") + Appended(order, key, j + 1, i);
    var k :| LastPut(order, i, key, k)
      && w == (if k >= 0 then order[k].input.value else "") + Appended(order, key, k + 1, i);
    assert j == k;
  }

  lemma FirstValue(order: seq<KvOperation>, key: string)
    ensures ValueAt(order, 0, key, "")
  {
    assert LastPut(order, 0, key, -1);
    assert "" + Appended(order, key, 0, 0) == "";
  }

  /** How one operation moves the value of a key on. */
  lemma NextValue(order: seq<KvOperation>, i: nat, key: string, v: string)
    requires i < |order| && Typed(order[i]) && ValueAt(order, i, key, v)
    ensures var next := if KeyOf(order[i]) == key then Step(v, order[i].input, order[i].output).1 else v;
      ValueAt(order, i + 1, key, next)
  {
    var j :| LastPut(order, i, key, j)
      && v == (if j >= 0 then order[j].input.value else "") + Appended(order, key, j + 1, i);
    if Puts(order[i], key) {
      assert LastPut(order, i + 1, key, i);
      assert order[i].input.value + Appended(order, key, i + 1, i + 1) == order[i].input.value;
    } else {
      assert LastPut(order, i + 1, key, j);
      var base := if j >= 0 then order[j].input.value else "";
      var more := if Appends(order[i], key) then order[i].input.value else "";
      assert base + Appended(order, key, j + 1, i + 1) == v + more;
      assert v + "" == v;
    }
  }

  lemma StepsExactly(order: seq<KvOperation>, i: nat, v: string)
    requires i < |order| && ValueAt(order, i, KeyOf(order[i]), v)
    ensures Step(v, order[i].input, order[i].output).0 <==> ReadsAt(order, i)
  {
    if Gets(order[i]) && ReadsAt(order, i) {
      OneValue(order, i, KeyOf(order[i]), v, order[i].output.value);
    }
  }

  // ----- the single value

  lemma PairsFrom(order: seq<KvOperation>, i: nat)
    requires i < |order|
    ensures Pairs(order[i..]) == [Pair(order[i])] + Pairs(order[i + 1..])
    ensures Pairs(order[i..])[0] == Pair(order[i]) && Pairs(order[i..])[1..] == Pairs(order[i + 1..])
  {
    assert order[i..] == [order[i]] + order[i + 1..];
    PairsCons(order[i], order[i + 1..]);
  }

  lemma {:induction false} KeyAcceptsFrom(order: seq<KvOperation>, key: string, i: nat, v: string)
    requires i <= |order| && ValueAt(order, i, key, v)
    requires forall k :: 0 <= k < |order| ==> KeyOf(order[k]) == key
    ensures Accepts(KvModel, v, Pairs(order[i..])) <==> forall k :: i <= k < |order| ==> ReadsAt(order, k)
    decreases |order| - i
  {
    hide ValueAt, ReadsAt, Step;
    if i < |order| {
      PairsFrom(order, i);
      StepsExactly(order, i, v);
      if ReadsAt(order, i) {
        ReadIsTyped(order, i);
        NextValue(order, i, key, v);
        KeyAcceptsFrom(order, key, i + 1, Step(v, order[i].input, order[i].output).1);
      }
    }
  }

  lemma ReadIsTyped(order: seq<KvOperation>, i: nat)
    requires i < |order| && ReadsAt(order, i)
    ensures Typed(order[i])
  {
  }

  /** The specification of one key accepts an order of operations on it, from the value it starts with,
      if and only if every get returns the last put before it followed by the appends since. */
  lemma KeyAcceptsExactly(order: seq<KvOperation>, key: string)
    requires forall k :: 0 <= k < |order| ==> KeyOf(order[k]) == key
    ensures KvModel.init == "" && (Accepts(KvModel, KvModel.init, Pairs(order)) <==> Reads(order))
  {
    FirstValue(order, key);
    KeyAcceptsFrom(order, key, 0, "");
    assert order[0..] == order;
  }

  // ----- the whole store

  lemma NextStore(order: seq<KvOperation>, i: nat, store: map<string, string>)
    requires i < |order| && Typed(order[i]) && forall key :: ValueAt(order, i, key, Lookup(store, key))
    ensures var next := StoreStep(store, order[i].input, order[i].output).1;
      forall key :: ValueAt(order, i + 1, key, Lookup(next, key))
  {
    hide ValueAt, Step;
    var next := StoreStep(store, order[i].input, order[i].output).1;
    forall key ensures ValueAt(order, i + 1, key, Lookup(next, key)) {
      NextValue(order, i, key, Lookup(store, key));
    }
  }

  lemma {:induction false} StoreAcceptsFrom(order: seq<KvOperation>, i: nat, store: map<string, string>)
    requires i <= |order| && forall key :: ValueAt(order, i, key, Lookup(store, key))
    ensures Accepts(StoreModel, store, Pairs(order[i..])) <==> forall k :: i <= k < |order| ==> ReadsAt(order, k)
    decreases |order| - i
  {
    hide ValueAt, ReadsAt, Step;
    if i < |order| {
      PairsFrom(order, i);
      StepsExactly(order, i, Lookup(store, KeyOf(order[i])));
      if ReadsAt(order, i) {
        ReadIsTyped(order, i);
        NextStore(order, i, store);
        StoreAcceptsFrom(order, i + 1, StoreStep(store, order[i].input, order[i].output).1);
      }
    }
  }

  /** So does the store, key by key. */
  lemma StoreAcceptsExactly(order: seq<KvOperation>)
    ensures Accepts(StoreModel, StoreModel.init, Pairs(order)) <==> Reads(order)
  {
    forall key ensures ValueAt(order, 0, key, Lookup(map[], key)) {
      FirstValue(order, key);
    }
    StoreAcceptsFrom(order, 0, map[]);
    assert order[0..] == order;
  }

  /** An order of all operations that keeps real time and in which every get returns what it should. */
  ghost predicate Consistent(history: seq<KvOperation>, order: seq<KvOperation>) {
    && multiset(order) == multiset(history) && Reads(order)
    && forall i, j :: 0 <= i < j < |order| ==> !(order[j].ret < order[i].call)
  }

  /** A history of the store is linearizable if and only if it has such an order. */
  lemma LinearizableIffConsistent(history: seq<KvOperation>)
    ensures Linearizable(StoreModel, OpsProblem(history)) <==> exists order :: Consistent(history, order)
  {
    hide Linearizable, OpsProblem, Accepts, Reads;
    LinearizableIffExplained(StoreModel, history);
    if order :| Explains(StoreModel, StoreModel.init, multiset(history), order) {
      StoreAcceptsExactly(order);
      assert Consistent(history, order);
    }
    if order :| Consistent(history, order) {
      StoreAcceptsExactly(order);
      assert Explains(StoreModel, StoreModel.init, multiset(history), order);
    }
  }
}
