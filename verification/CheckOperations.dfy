/** From a history of the key/value store to a verdict: the partition by key, and the verdicts on the
    parts put together. */
module CheckOperations {
  import opened Collections
  import opened Linearizability
  import opened Histories
  import opened SearchLevels
  import opened Checker
  import opened Operations
  import opened Kv
  import opened KvMeaning
  import opened Sorting

  // ----- the partition of the key/value model

  /** The parts are the histories of the keys that occur, each exactly once. */
  ghost predicate PartsByKey(history: seq<KvOperation>, keys: seq<string>, parts: seq<seq<KvOperation>>) {
    && |parts| == |keys| && Distinct(keys)
    && (forall k :: k in keys <==> k in KeysOf(history))
    && forall i :: 0 <= i < |keys| ==> parts[i] == ByKey(keys[i], history)
  }

  lemma {:induction false} ByKeyEmpty(key: string, history: seq<KvOperation>)
    ensures ByKey(key, history) == [] <==> key !in KeysOf(history)
  {
    if history != [] {
      var init, last := history[..|history| - 1], history[|history| - 1];
      ByKeyEmpty(key, init);
      assert KeysOf(history) == KeysOf(init) + {KeyOf(last)} by {
        assert forall i :: 0 <= i < |init| ==> init[i] == history[i];
      }
    }
  }

  /** One more operation goes to the end of the list of its key. */
  lemma GroupOne(history: seq<KvOperation>, i: nat, m: map<string, seq<KvOperation>>)
    requires i < |history|
    requires forall k :: k in m <==> k in KeysOf(history[..i])
    requires forall k :: k in m ==> m[k] == ByKey(k, history[..i])
    ensures var o := history[i];
      var more := m[KeyOf(o) := (if KeyOf(o) in m then m[KeyOf(o)] else []) + [o]];
      && (forall k :: k in more <==> k in KeysOf(history[..i + 1]))
      && (forall k :: k in more ==> more[k] == ByKey(k, history[..i + 1]))
  {
    var init := history[..i + 1];
    assert init[..i] == history[..i];
    ByKeyEmpty(KeyOf(history[i]), history[..i]);
    assert KeysOf(init) == KeysOf(history[..i]) + {KeyOf(history[i])} by {
      assert forall j :: 0 <= j < i ==> init[j] == history[..i][j];
      assert init[i] == history[i];
    }
  }

  /** The lists of operations by key. */
  method Group(history: seq<KvOperation>) returns (m: map<string, seq<KvOperation>>)
    ensures forall k :: k in m <==> k in KeysOf(history)
    ensures forall k :: k in m ==> m[k] == ByKey(k, history)
  {
    hide KeysOf, ByKey;
    m := map[];
    GroupNone();
    for i := 0 to |history|
      invariant forall k :: k in m <==> k in KeysOf(history[..i])
      invariant forall k :: k in m ==> m[k] == ByKey(k, history[..i])
    {
      GroupOne(history, i, m);
      var key := KeyOf(history[i]);
      m := m[key := (if key in m then m[key] else []) + [history[i]]];
    }
    assert history[..|history|] == history;
  }

  lemma GroupNone()
    ensures KeysOf([]) == {}
  {
  }

  /** The keys in ascending order. */
  method SortedKeys(all: set<string>) returns (keys: seq<string>)
    ensures Distinct(keys) && Sorted(StringLess, keys)
    ensures forall k :: k in keys <==> k in all
  {
    var unsorted: seq<string> := [];
    var rest := all;
    while rest != {}
      invariant rest <= all && Distinct(unsorted)
      invariant forall k :: k in unsorted <==> k in all && k !in rest
      decreases |rest|
    {
      var k :| k in rest;
      unsorted := unsorted + [k];
      rest := rest - {k};
    }
    StringLessIsStrictWeak();
    keys := Sort(StringLess, unsorted);
    SameMultisetNoDuplicates(unsorted, keys);
  }

  method Partition(history: seq<KvOperation>) returns (parts: seq<seq<KvOperation>>, keys: seq<string>)
    ensures PartsByKey(history, keys, parts) && Sorted(StringLess, keys)
  {
    var m := Group(history);
    keys := SortedKeys(m.Keys);
    parts := [];
    for i := 0 to |keys|
      invariant |parts| == i && forall j :: 0 <= j < i ==> parts[j] == ByKey(keys[j], history)
    {
      assert keys[i] in keys;
      parts := parts + [m[keys[i]]];
    }
  }

  // ----- combining the verdicts

  datatype CheckResult = Unknown | Ok | Illegal

  ghost predicate AllWellFormed<V>(parts: seq<History<V>>) {
    forall i :: 0 <= i < |parts| ==> WellFormed(parts[i])
  }

  /** What is collected of one part: partial linearizations, and among those that contain an operation
      one that is as long as any. */
  ghost predicate Collected<S, V>(m: Model<S, V>, p: Problem<V>, partials: set<seq<int>>) {
    && (forall order :: order in partials ==> PartialLinearization(m, p, order))
    && (forall order, i :: PartialLinearization(m, p, order) && i in order ==> HasAsLong(partials, i, |order|))
  }

  ghost predicate HasAsLong(partials: set<seq<int>>, i: int, length: int) {
    exists q :: q in partials && i in q && |q| >= length
  }

  ghost function Values(longest: Longest): set<seq<int>> {
    set k | 0 <= k < |longest| && longest[k].Some? :: longest[k].value
  }

  lemma RecordIsCollected<S, V>(m: Model<S, V>, p: Problem<V>, longest: Longest)
    requires SoundRecord(m, p, longest) && MaximalRecord(m, p, longest)
    ensures Collected(m, p, Values(longest))
  {
    hide PartialLinearization;
    forall order, i | PartialLinearization(m, p, order) && i in order ensures HasAsLong(Values(longest), i, |order|) {
      assert Reaches(longest, i, |order|);
      assert longest[i].value in Values(longest);
    }
  }

  /** A linearization contains every operation and is as long as anything. */
  lemma FullIsCollected<S, V>(m: Model<S, V>, p: Problem<V>, longest: Longest)
    requires Irreflexive(p) && |longest| == |p.ops|
    requires forall i :: 0 <= i < |longest| ==> longest[i].Some? && Linearization(m, p, longest[i].value)
    ensures Collected(m, p, Values(longest))
  {
    hide Linearization;
    forall order | order in Values(longest) ensures PartialLinearization(m, p, order) {
      LinearizationIsFullPartial(m, p, order);
    }
    forall order, i | PartialLinearization(m, p, order) && i in order ensures HasAsLong(Values(longest), i, |order|) {
      var q := longest[i].value;
      LinearizationIsFullPartial(m, p, q);
      FullOrderHasAll(q, |p.ops|);
      assert i in Elems(q) && q in Values(longest);
      DistinctElems(order);
      SubsetSize(Elems(order), UpTo(|p.ops|));
    }
  }

  /** The verdict on all parts, and for each the recorded sequences when they are asked for. The parts
      are checked one after the other here, and the search is never interrupted. */
  method CheckParallel<S(!new), V(!new)>(model: Model<S, V>, parts: seq<History<V>>, computeInfo: bool)
    returns (result: CheckResult, partials: seq<set<seq<int>>>)
    requires EqualIsSound(model) && AllWellFormed(parts) && parts != []
    ensures result == if forall i :: 0 <= i < |parts| ==> Linearizable(model, ToProblem(parts[i])) then Ok else Illegal
    ensures computeInfo ==> |partials| == |parts|
    ensures computeInfo ==> forall i :: 0 <= i < |parts| ==> Collected(model, ToProblem(parts[i]), partials[i])
  {
    hide Linearizable, Linearization, SoundRecord, MaximalRecord, Collected, ToProblem, EqualIsSound, Irreflexive;
    var ok := true;
    partials := [];
    for i := 0 to |parts|
      invariant ok <==> forall j :: 0 <= j < i ==> Linearizable(model, ToProblem(parts[j]))
      invariant computeInfo ==> |partials| == i
      invariant computeInfo ==> forall j :: 0 <= j < i ==> Collected(model, ToProblem(parts[j]), partials[j])
    {
      var partOk, longest := CheckSingle(model, parts[i], computeInfo);
      ok := ok && partOk;
      if !ok && !computeInfo {
        return Illegal, partials;
      }
      var recorded := set k | 0 <= k < longest.Length && longest[k].Some? :: longest[k].value;
      assert recorded == Values(longest[..]);
      if partOk {
        FullIsCollected(model, ToProblem(parts[i]), longest[..]);
      } else if computeInfo {
        RecordIsCollected(model, ToProblem(parts[i]), longest[..]);
      }
      partials := partials + [recorded];
    }
    result := if ok then Ok else Illegal;
  }

  lemma KvEqualIsSound()
    ensures EqualIsSound(KvModel)
  {
  }

  lemma ByKeyTimely(key: string, history: seq<KvOperation>)
    requires Timely(history)
    ensures Timely(ByKey(key, history))
  {
    var part := ByKey(key, history);
    ByKeyMultiset(key, history);
    forall i | 0 <= i < |part| ensures part[i].call <= part[i].ret {
      assert part[i] in multiset(part);
      assert part[i] in multiset(history);
    }
  }

  /** An empty history needs no check. */
  lemma EmptyIsLinearizable<S, V>(m: Model<S, V>)
    ensures Linearizable(m, OpsProblem<V>([]))
  {
    assert Linearization(m, OpsProblem<V>([]), []);
  }

  lemma PartsDecide(history: seq<KvOperation>, keys: seq<string>, parts: seq<seq<KvOperation>>)
    requires Timely(history) && PartsByKey(history, keys, parts)
    ensures Linearizable(StoreModel, OpsProblem(history))
       <==> forall i :: 0 <= i < |parts| ==> Linearizable(KvModel, OpsProblem(parts[i]))
  {
    hide Linearizable;
    Locality(history);
    if forall i :: 0 <= i < |parts| ==> Linearizable(KvModel, OpsProblem(parts[i])) {
      forall key ensures Linearizable(KvModel, OpsProblem(ByKey(key, history))) {
        if key in keys {
          var i :| 0 <= i < |keys| && keys[i] == key;
          assert parts[i] == ByKey(key, history);
        } else {
          ByKeyEmpty(key, history);
          EmptyIsLinearizable(KvModel);
        }
      }
    }
  }

  /** The verdict on a history of the store: Ok if and only if some order of all operations keeps real time
      and has every get return the last put to its key followed by the appends since. The program never
      answers for an empty history, whose partition is empty. */
  method CheckKvOperations(history: seq<KvOperation>, verbose: bool) returns (result: CheckResult)
    requires history != [] && Timely(history)
    ensures result == if Linearizable(StoreModel, OpsProblem(history)) then Ok else Illegal
    ensures result == Ok <==> exists order :: Consistent(history, order)
  {
    var parts, keys := Partition(history);
    var l: seq<History<Value>> := [];
    for i := 0 to |parts|
      invariant |l| == i && AllWellFormed(l)
      invariant forall j :: 0 <= j < i ==> ToProblem(l[j]) == OpsProblem(parts[j])
    {
      ByKeyTimely(keys[i], history);
      var entries := MakeEntries(parts[i]);
      ArrangedPosesTheProblem(parts[i], entries);
      l := l + [entries];
    }
    KvEqualIsSound();
    assert KeyOf(history[0]) in keys;
    var partials;
    result, partials := CheckParallel(KvModel, l, verbose);
    PartsDecide(history, keys, parts);
    LinearizableIffConsistent(history);
  }
}
