/** Which records the DSL's transformations keep, and in which order, said by positions in the data. */
module DslRecords {
  import opened Collections
  import opened Stability

  /** `r` is the records of `data` at the positions `at`, which are those that satisfy `p`, in order. */
  ghost predicate Positions<T>(p: T -> bool, data: seq<T>, r: seq<T>, at: seq<nat>) {
    && |at| == |r|
    && (forall j, k :: 0 <= j < k < |at| ==> at[j] < at[k])
    && (forall j :: 0 <= j < |at| ==> at[j] < |data| && r[j] == data[at[j]])
    && (forall i :: 0 <= i < |data| ==> (p(data[i]) <==> i in at))
  }

  /** `r` keeps exactly the records that satisfy `p`, in their order. */
  ghost predicate Selected<T>(p: T -> bool, data: seq<T>, r: seq<T>) {
    exists at :: Positions(p, data, r, at)
  }

  /** One more record at the end is kept, or not. */
  lemma SelectedMore<T>(p: T -> bool, front: seq<T>, r: seq<T>, x: T)
    requires Selected(p, front, r)
    ensures Selected(p, front + [x], if p(x) then r + [x] else r)
  {
    var at: seq<nat> :| Positions(p, front, r, at);
    if p(x) {
      PositionsKeep(p, front, r, at, x);
    } else {
      PositionsSkip(p, front, r, at, x);
    }
  }

  lemma PositionsKeep<T>(p: T -> bool, front: seq<T>, r: seq<T>, at: seq<nat>, x: T)
    requires Positions(p, front, r, at) && p(x)
    ensures Positions(p, front + [x], r + [x], at + [|front|])
  {
    var data, more := front + [x], at + [|front|];
    forall i | 0 <= i < |data| ensures p(data[i]) <==> i in more {
      if i < |front| {
        assert data[i] == front[i] && (i in more <==> i in at);
      } else {
        assert more[|at|] == i;
      }
    }
  }

  lemma PositionsSkip<T>(p: T -> bool, front: seq<T>, r: seq<T>, at: seq<nat>, x: T)
    requires Positions(p, front, r, at) && !p(x)
    ensures Positions(p, front + [x], r, at)
  {
    var data := front + [x];
    forall i | 0 <= i < |data| ensures p(data[i]) <==> i in at {
      if i < |front| {
        assert data[i] == front[i];
      }
    }
  }

  lemma NothingSelected<T>(p: T -> bool)
    ensures Selected(p, [], [])
  {
    assert Positions(p, [], [], []);
  }

  lemma {:induction false} FilterSelects<T>(p: T -> bool, data: seq<T>)
    ensures Selected(p, data, Filter(p, data))
    decreases |data|
  {
    hide Selected;
    if data == [] {
      NothingSelected(p);
    } else {
      var front, last := data[..|data| - 1], data[|data| - 1];
      FilterSelects(p, front);
      SelectedMore(p, front, Filter(p, front), last);
      assert data == front + [last];
      assert Filter(p, front) + [] == Filter(p, front);
    }
  }

  // ----- groups

  function OfKey(keyf: Value -> Value, key: Value): Value -> bool {
    x => keyf(x) == key
  }

  /** Group `g` is that of the key which record `i` has and no record before it, with all its records. */
  ghost predicate GroupAt(keyf: Value -> Value, data: seq<Value>, g: Value, i: nat) {
    && g.Group? && i < |data| && keyf(data[i]) == g.key
    && (forall k :: 0 <= k < i ==> keyf(data[k]) != g.key)
    && Selected(OfKey(keyf, g.key), data, g.members)
  }

  ghost predicate HasGroup(groups: seq<Value>, key: Value) {
    exists j :: 0 <= j < |groups| && groups[j].Group? && groups[j].key == key
  }

  ghost predicate GroupsAt(keyf: Value -> Value, data: seq<Value>, groups: seq<Value>, firsts: seq<nat>) {
    && |firsts| == |groups|
    && (forall j, k :: 0 <= j < k < |firsts| ==> firsts[j] < firsts[k])
    && (forall j {:trigger GroupAt(keyf, data, groups[j], firsts[j])} :: 0 <= j < |groups| ==>
          GroupAt(keyf, data, groups[j], firsts[j]))
    && (forall i {:trigger HasGroup(groups, keyf(data[i]))} :: 0 <= i < |data| ==> HasGroup(groups, keyf(data[i])))
  }

  /** One group for each key that occurs, in the order of first appearance, with its records in order. */
  ghost predicate GroupsOf(keyf: Value -> Value, data: seq<Value>, groups: seq<Value>) {
    exists firsts :: GroupsAt(keyf, data, groups, firsts)
  }

  lemma GroupStays(keyf: Value -> Value, front: seq<Value>, g: Value, i: nat, x: Value)
    requires GroupAt(keyf, front, g, i)
    ensures keyf(x) != g.key ==> GroupAt(keyf, front + [x], g, i)
    ensures keyf(x) == g.key ==> GroupAt(keyf, front + [x], Group(g.key, g.members + [x]), i)
  {
    SelectedMore(OfKey(keyf, g.key), front, g.members, x);
    hide Selected;
  }

  lemma NoneSelected(p: Value -> bool, data: seq<Value>)
    requires forall i :: 0 <= i < |data| ==> !p(data[i])
    ensures Selected(p, data, [])
  {
    assert Positions(p, data, [], []);
  }

  lemma GroupBegins(keyf: Value -> Value, front: seq<Value>, x: Value)
    requires forall i :: 0 <= i < |front| ==> keyf(front[i]) != keyf(x)
    ensures GroupAt(keyf, front + [x], Group(keyf(x), [x]), |front|)
  {
    NoneSelected(OfKey(keyf, keyf(x)), front);
    SelectedMore(OfKey(keyf, keyf(x)), front, [], x);
    assert [] + [x] == [x];
    hide Selected;
  }

  lemma GroupsMore(keyf: Value -> Value, front: seq<Value>, groups: seq<Value>, x: Value)
    requires GroupsOf(keyf, front, groups)
    ensures GroupsOf(keyf, front + [x], AddTo(groups, keyf(x), x))
  {
    hide Find, GroupAt;
    var firsts: seq<nat> :| GroupsAt(keyf, front, groups, firsts);
    var key, data, more := keyf(x), front + [x], AddTo(groups, keyf(x), x);
    var i := Find(groups, key);
    forall k | 0 <= k < |data| ensures HasGroup(more, keyf(data[k])) {
      if k < |front| {
        assert HasGroup(groups, keyf(front[k])) && data[k] == front[k];
        var j :| 0 <= j < |groups| && groups[j].Group? && groups[j].key == keyf(front[k]);
        assert more[j].Group? && more[j].key == keyf(data[k]);
      } else {
        assert more[i].Group? && more[i].key == key;
      }
    }
    forall j | 0 <= j < |groups| ensures GroupAt(keyf, data, more[j], firsts[j]) {
      assert GroupAt(keyf, front, groups[j], firsts[j]);
      GroupStays(keyf, front, groups[j], firsts[j], x);
      OneOfKey(keyf, front, groups, firsts, i, j, key);
    }
    if i == |groups| {
      forall k | 0 <= k < |front| ensures keyf(front[k]) != key {
        assert HasGroup(groups, keyf(front[k]));
      }
      GroupBegins(keyf, front, x);
      FirstsInFront(keyf, front, groups, firsts);
      assert GroupsAt(keyf, data, more, firsts + [|front|]);
    } else {
      assert GroupsAt(keyf, data, more, firsts);
    }
  }

  /** Only the group that is found has the key. */
  lemma OneOfKey(keyf: Value -> Value, data: seq<Value>, groups: seq<Value>, firsts: seq<nat>, i: nat, j: nat,
          key: Value)
    requires GroupsAt(keyf, data, groups, firsts) && i == Find(groups, key) && j < |groups|
    ensures groups[j].Group? && (groups[j].key == key <==> j == i)
  {
    assert GroupAt(keyf, data, groups[j], firsts[j]);
    if i < |groups| {
      assert GroupAt(keyf, data, groups[i], firsts[i]);
    }
  }

  lemma FirstsInFront(keyf: Value -> Value, data: seq<Value>, groups: seq<Value>, firsts: seq<nat>)
    requires GroupsAt(keyf, data, groups, firsts)
    ensures forall j :: 0 <= j < |firsts| ==> firsts[j] < |data|
  {
    forall j | 0 <= j < |firsts| ensures firsts[j] < |data| {
      assert GroupAt(keyf, data, groups[j], firsts[j]);
    }
  }

  lemma {:induction false} GroupByGroups(keyf: Value -> Value, data: seq<Value>)
    ensures GroupsOf(keyf, data, GroupBy(keyf, data))
    decreases |data|
  {
    hide GroupsOf, AddTo;
    if data == [] {
      NoGroupsYet(keyf);
    } else {
      var front, last := data[..|data| - 1], data[|data| - 1];
      GroupByGroups(keyf, front);
      GroupsMore(keyf, front, GroupBy(keyf, front), last);
      assert data == front + [last];
    }
  }

  lemma NoGroupsYet(keyf: Value -> Value)
    ensures GroupsOf(keyf, [], [])
  {
    assert GroupsAt(keyf, [], [], []);
  }
}
