/** The key/value specification, its partition by key, and why checking key by key is enough. */
module Kv {
  import opened Linearizability
  import opened Operations

  /** What operations carry: an input with its operation code (0 get, 1 put, anything else append)
      or an output. */
  datatype Value = Input(op: nat, key: string, value: string) | Output(value: string)

  type KvOperation = Operation<Value>

  /** One step of a single key's value. The program's type assertions become a refused step. */
  function Step(state: string, input: Value, output: Value): (bool, string) {
    if !input.Input? || !output.Output? then (false, state)
    else if input.op == 0 then (output.value == state, state)
    else if input.op == 1 then (true, input.value)
    else (true, state + input.value)
  }

  const KvModel: Model<string, Value> := Model("", Step, (a: string, b: string) => a == b)

  // ----- the whole store

  function Lookup(store: map<string, string>, key: string): string {
    if key in store then store[key] else ""
  }

  function KeyOf(o: KvOperation): string {
    if o.input.Input? then o.input.key else ""
  }

  function StoreStep(store: map<string, string>, input: Value, output: Value): (bool, map<string, string>) {
    var key := if input.Input? then input.key else "";
    var (ok, next) := Step(Lookup(store, key), input, output);
    (ok, store[key := next])
  }

  /** A map from keys to values, all keys being empty at first. */
  const StoreModel: Model<map<string, string>, Value> :=
    Model(map[], StoreStep, (a: map<string, string>, b: map<string, string>) => a == b)

  /** The operations on one key, in their order. */
  function ByKey(key: string, ops: seq<KvOperation>): seq<KvOperation> {
    if ops == [] then []
    else
      var rest := ByKey(key, ops[..|ops| - 1]);
      if KeyOf(ops[|ops| - 1]) == key then rest + [ops[|ops| - 1]] else rest
  }

  lemma {:induction false} ByKeyCons(key: string, o: KvOperation, ops: seq<KvOperation>)
    ensures ByKey(key, [o] + ops) == (if KeyOf(o) == key then [o] else []) + ByKey(key, ops)
  {
    if ops == [] {
      assert [o] + ops == [] + [o];
      assert ByKey(key, []) == [];
    } else {
      var init := ops[..|ops| - 1];
      ByKeyCons(key, o, init);
      assert ([o] + ops)[..|ops|] == [o] + init;
    }
  }

  lemma {:induction false} ByKeyMultiset(key: string, ops: seq<KvOperation>)
    ensures forall o :: multiset(ByKey(key, ops))[o] == if KeyOf(o) == key then multiset(ops)[o] else 0
  {
    if ops != [] {
      var init, last := ops[..|ops| - 1], ops[|ops| - 1];
      ByKeyMultiset(key, init);
      assert ops == init + [last];
    }
  }

  // ----- from the whole store to each key

  lemma LastInRealTime(order: seq<KvOperation>, last: KvOperation)
    requires InRealTime(order)
    ensures (forall x :: x in order ==> !ReturnsBefore(last, x)) ==> InRealTime(order + [last])
  {
  }

  lemma FirstInRealTime(first: KvOperation, order: seq<KvOperation>)
    requires InRealTime(order) && forall x :: x in order ==> !ReturnsBefore(x, first)
    ensures InRealTime([first] + order)
  {
  }

  lemma RestInRealTime(order: seq<KvOperation>)
    requires InRealTime(order) && order != []
    ensures InRealTime(order[1..])
  {
  }

  lemma {:induction false} ByKeyInRealTime(key: string, order: seq<KvOperation>)
    requires InRealTime(order)
    ensures InRealTime(ByKey(key, order))
    ensures forall x :: x in ByKey(key, order) ==> x in order && KeyOf(x) == key
  {
    if order != [] {
      var init := order[..|order| - 1];
      ByKeyInRealTime(key, init);
      assert forall x :: x in init ==> x in order;
      forall x | x in init ensures !ReturnsBefore(order[|order| - 1], x) {
        var i :| 0 <= i < |init| && init[i] == x;
        assert order[i] == x;
      }
      LastInRealTime(ByKey(key, init), order[|order| - 1]);
    }
  }

  lemma PairsCons<V>(o: Operation<V>, rest: seq<Operation<V>>)
    ensures Pairs([o] + rest) == [Pair(o)] + Pairs(rest)
    ensures ([Pair(o)] + Pairs(rest))[1..] == Pairs(rest)
  {
  }

  /** A sequence of operations the store accepts is accepted key by key. */
  lemma {:induction false} AcceptsByKey(key: string, store: map<string, string>, order: seq<KvOperation>)
    requires Accepts(StoreModel, store, Pairs(order))
    ensures Accepts(KvModel, Lookup(store, key), Pairs(ByKey(key, order)))
    decreases |order|
  {
    if order == [] {
      assert ByKey(key, order) == [];
    } else {
      var o, rest := order[0], order[1..];
      assert order == [o] + rest;
      PairsCons(o, rest);
      var next := StoreStep(store, o.input, o.output).1;
      AcceptsByKey(key, next, rest);
      ByKeyCons(key, o, rest);
      if KeyOf(o) == key {
        PairsCons(o, ByKey(key, rest));
      } else {
        assert [] + ByKey(key, rest) == ByKey(key, rest);
      }
    }
  }

  lemma KeyIsLinearizable(history: seq<KvOperation>, key: string)
    requires Linearizable(StoreModel, OpsProblem(history))
    ensures Linearizable(KvModel, OpsProblem(ByKey(key, history)))
  {
    hide Linearizable, OpsProblem, ByKey;
    LinearizableIffExplained(StoreModel, history);
    LinearizableIffExplained(KvModel, ByKey(key, history));
    var order :| Explains(StoreModel, map[], multiset(history), order);
    ByKeyMultiset(key, order);
    ByKeyMultiset(key, history);
    ByKeyInRealTime(key, order);
    AcceptsByKey(key, map[], order);
    assert Explains(KvModel, "", multiset(ByKey(key, history)), ByKey(key, order));
  }

  // ----- from each key to the whole store

  /** What is left to order of each key. */
  type Queues = map<string, seq<KvOperation>>

  /** The operations of one key are in an order that explains them from its value on. */
  ghost predicate ReadyKey(queue: seq<KvOperation>, key: string, value: string) {
    && InRealTime(queue) && Accepts(KvModel, value, Pairs(queue))
    && forall o :: o in queue ==> KeyOf(o) == key
  }

  ghost predicate Ready(queues: Queues, store: map<string, string>) {
    forall key :: key in queues ==> ReadyKey(queues[key], key, Lookup(store, key))
  }

  ghost predicate Holds(queues: Queues, ops: multiset<KvOperation>) {
    forall o :: ops[o] == if KeyOf(o) in queues then multiset(queues[KeyOf(o)])[o] else 0
  }

  lemma {:induction false} EarliestReturn(ops: multiset<KvOperation>) returns (b: KvOperation)
    requires ops != multiset{}
    ensures b in ops && forall c :: c in ops ==> b.ret <= c.ret
    decreases |ops|
  {
    var o :| o in ops;
    var rest := ops - multiset{o};
    if rest == multiset{} {
      b := o;
      forall c | c in ops ensures b.ret <= c.ret {
        assert c == o || c in rest;
      }
    } else {
      var d := EarliestReturn(rest);
      b := if d.ret < o.ret then d else o;
      forall c | c in ops ensures b.ret <= c.ret {
        assert c == o || c in rest;
      }
    }
  }

  /** The head of the queue that holds the operation to return first can go next: nothing left has
      returned before it was called. */
  lemma NextToGo(queues: Queues, store: map<string, string>, ops: multiset<KvOperation>) returns (key: string)
    requires Ready(queues, store) && Holds(queues, ops) && ops != multiset{}
    requires forall o :: o in ops ==> o.call <= o.ret
    ensures key in queues && queues[key] != [] && queues[key][0] in ops
    ensures forall c :: c in ops ==> !ReturnsBefore(c, queues[key][0])
  {
    var b := EarliestReturn(ops);
    key := KeyOf(b);
    assert ops[b] == multiset(queues[key])[b];
    assert b in multiset(queues[key]);
    var i :| 0 <= i < |queues[key]| && queues[key][i] == b;
    assert ReadyKey(queues[key], key, Lookup(store, key));
    var a := queues[key][0];
    assert a in multiset(queues[key]) && KeyOf(a) == key;
    assert ops[a] == multiset(queues[key])[a];
    assert a.call <= b.ret;
  }

  lemma KeyGoesNext(queue: seq<KvOperation>, key: string, value: string)
    requires ReadyKey(queue, key, value) && queue != []
    ensures Step(value, queue[0].input, queue[0].output).0
    ensures ReadyKey(queue[1..], key, Step(value, queue[0].input, queue[0].output).1)
  {
    var rest := queue[1..];
    assert queue == [queue[0]] + rest;
    PairsCons(queue[0], rest);
    RestInRealTime(queue);
  }

  lemma ReadyGoesNext(queues: Queues, store: map<string, string>, key: string)
    requires Ready(queues, store) && key in queues && queues[key] != []
    ensures var a := queues[key][0];
      var (ok, next) := StoreStep(store, a.input, a.output);
      ok && KeyOf(a) == key && Ready(queues[key := queues[key][1..]], next)
  {
    hide ReadyKey, Step;
    var a := queues[key][0];
    assert ReadyKey(queues[key], key, Lookup(store, key));
    HeadKey(queues[key], key, Lookup(store, key));
    KeyGoesNext(queues[key], key, Lookup(store, key));
    var more, next := queues[key := queues[key][1..]], StoreStep(store, a.input, a.output).1;
    forall k | k in more ensures ReadyKey(more[k], k, Lookup(next, k)) {
      if k != key {
        assert ReadyKey(queues[k], k, Lookup(store, k));
      }
    }
  }

  lemma HeadKey(queue: seq<KvOperation>, key: string, value: string)
    requires ReadyKey(queue, key, value) && queue != []
    ensures KeyOf(queue[0]) == key
  {
    assert queue[0] in queue;
  }

  lemma HoldsGoesNext(queues: Queues, ops: multiset<KvOperation>, key: string)
    requires Holds(queues, ops) && key in queues && queues[key] != [] && KeyOf(queues[key][0]) == key
    ensures Holds(queues[key := queues[key][1..]], ops - multiset{queues[key][0]})
  {
    var a, rest := queues[key][0], queues[key][1..];
    assert queues[key] == [a] + rest;
    var more, less := queues[key := rest], ops - multiset{a};
    forall o ensures less[o] == if KeyOf(o) in more then multiset(more[KeyOf(o)])[o] else 0 {
      assert ops[o] == if KeyOf(o) in queues then multiset(queues[KeyOf(o)])[o] else 0;
      assert multiset(queues[key])[o] == multiset{a}[o] + multiset(rest)[o];
    }
  }

  lemma ExplainsCons(store: map<string, string>, a: KvOperation, next: map<string, string>, ops: multiset<KvOperation>,
          rest: seq<KvOperation>)
    requires StoreStep(store, a.input, a.output) == (true, next) && a in ops
    requires Explains(StoreModel, next, ops - multiset{a}, rest)
    requires forall c :: c in ops ==> !ReturnsBefore(c, a)
    ensures Explains(StoreModel, store, ops, [a] + rest)
  {
    PairsCons(a, rest);
    forall x | x in rest ensures !ReturnsBefore(x, a) {
      assert x in multiset(rest);
    }
    FirstInRealTime(a, rest);
    assert multiset([a] + rest) == multiset{a} + multiset(rest);
  }

  /** Orders of the keys merge into an order of the store. */
  lemma {:induction false} Merge(queues: Queues, store: map<string, string>, ops: multiset<KvOperation>)
    returns (order: seq<KvOperation>)
    requires Ready(queues, store) && Holds(queues, ops)
    requires forall o :: o in ops ==> o.call <= o.ret
    ensures Explains(StoreModel, store, ops, order)
    decreases |ops|
  {
    if ops == multiset{} {
      order := [];
    } else {
      hide Ready, Holds, Explains, StoreStep;
      var key := NextToGo(queues, store, ops);
      var a := queues[key][0];
      ReadyGoesNext(queues, store, key);
      HoldsGoesNext(queues, ops, key);
      var next := StoreStep(store, a.input, a.output).1;
      var rest := Merge(queues[key := queues[key][1..]], next, ops - multiset{a});
      ExplainsCons(store, a, next, ops, rest);
      order := [a] + rest;
    }
  }

  function KeysOf(history: seq<KvOperation>): set<string> {
    set i | 0 <= i < |history| :: KeyOf(history[i])
  }

  /** The history of every key is linearizable on its own. */
  ghost predicate EachKeyLinearizable(history: seq<KvOperation>) {
    forall key :: Linearizable(KvModel, OpsProblem(ByKey(key, history)))
  }

  ghost function KeyOrder(history: seq<KvOperation>, key: string): (order: seq<KvOperation>)
    requires Linearizable(KvModel, OpsProblem(ByKey(key, history)))
    ensures Explains(KvModel, "", multiset(ByKey(key, history)), order)
  {
    LinearizableIffExplained(KvModel, ByKey(key, history));
    var order :| Explains(KvModel, "", multiset(ByKey(key, history)), order); order
  }

  lemma KeyOrderIsReady(history: seq<KvOperation>, key: string)
    requires Linearizable(KvModel, OpsProblem(ByKey(key, history)))
    ensures ReadyKey(KeyOrder(history, key), key, "")
    ensures forall o :: multiset(KeyOrder(history, key))[o] == if KeyOf(o) == key then multiset(history)[o] else 0
  {
    hide Linearizable, OpsProblem, ByKey;
    var order := KeyOrder(history, key);
    ByKeyMultiset(key, history);
    forall o | o in order ensures KeyOf(o) == key {
      assert o in multiset(order);
    }
  }

  lemma StoreIsLinearizable(history: seq<KvOperation>)
    requires Timely(history) && EachKeyLinearizable(history)
    ensures Linearizable(StoreModel, OpsProblem(history))
  {
    hide Linearizable, OpsProblem, ByKey, ReadyKey, Explains;
    var queues: Queues := map key | key in KeysOf(history) :: KeyOrder(history, key);
    forall key | key in queues ensures ReadyKey(queues[key], key, Lookup(map[], key)) {
      KeyOrderIsReady(history, key);
    }
    forall o ensures multiset(history)[o] == if KeyOf(o) in queues then multiset(queues[KeyOf(o)])[o] else 0 {
      if KeyOf(o) in queues {
        KeyOrderIsReady(history, KeyOf(o));
      } else {
        NotThere(history, o);
      }
    }
    forall o | o in multiset(history) ensures o.call <= o.ret {
      var i :| 0 <= i < |history| && history[i] == o;
    }
    var order := Merge(queues, map[], multiset(history));
    LinearizableIffExplained(StoreModel, history);
  }

  lemma NotThere(history: seq<KvOperation>, o: KvOperation)
    requires KeyOf(o) !in KeysOf(history)
    ensures multiset(history)[o] == 0
  {
    assert o !in history;
  }

  /** Locality: a history of the store is linearizable exactly when that of each key is. */
  lemma Locality(history: seq<KvOperation>)
    requires Timely(history)
    ensures Linearizable(StoreModel, OpsProblem(history)) <==> EachKeyLinearizable(history)
  {
    hide Linearizable, OpsProblem, ByKey;
    if Linearizable(StoreModel, OpsProblem(history)) {
      forall key ensures Linearizable(KvModel, OpsProblem(ByKey(key, history))) {
        KeyIsLinearizable(history, key);
      }
    }
    if EachKeyLinearizable(history) {
      StoreIsLinearizable(history);
    }
  }
}
