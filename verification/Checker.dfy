/** The backtracking search for a linearization of one partition, on the linked list, the bitset, the
    cache and the stack as the program has them. The loop keeps one invariant, `Inv`, about values and
    one, `HeapOk`, about the nodes; the lemmas before the methods say what each branch of the loop
    does to the first. */
module Checker {
  import opened Collections
  import opened Options
  import opened Linearizability
  import opened Histories
  import opened LinkedEntries
  import opened Search
  import opened SearchLevels
  import opened SearchCache
  import opened Bitset

  /** An operation taken by the search and the state it was taken in. */
  datatype CallsEntry<S, V> = CallsEntry(entry: Node<V>, state: S)

  /** The stack of the program is the stack of levels, seen from outside. */
  ghost predicate CallsOf<S, V>(calls: seq<CallsEntry<S, V>>, stack: seq<Level<S, V>>) {
    && |calls| == |stack|
    && forall d :: 0 <= d < |stack| ==>
         && stack[d].at < |stack[d].list|
         && calls[d] == CallsEntry(stack[d].list[stack[d].at], stack[d].state)
  }

  /** Every lifted pair of nodes remembers where it was. */
  ghost predicate AllLifted<S, V>(stack: seq<Level<S, V>>)
    reads set d, k | 0 <= d < |stack| && 0 <= k < |stack[d].list| :: stack[d].list[k]
  {
    forall d :: 0 <= d < |stack| ==>
      stack[d].at < stack[d].ret < |stack[d].list| && Lifted(stack[d].list, stack[d].at, stack[d].ret)
  }

  lemma ListIsFromInstance<S, V>(x: Instance<S, V>, l: Level<S, V>)
    requires x.Valid() && OkLevel(x, l)
    ensures forall k :: 0 <= k < |l.list| ==> l.list[k] == x.head || l.list[k] in x.nodes
  {
  }

  lemma TakenNodesAreGone<S, V>(x: Instance<S, V>, stack: seq<Level<S, V>>, cur: Level<S, V>, d: nat)
    requires x.Valid() && IsPath(x, stack, cur) && d < |stack|
    ensures var l := stack[d];
      l.at < l.ret < |l.list| && l.list[l.at] !in cur.list && l.list[l.ret] !in cur.list
  {
    assert TakenAt(x, stack, cur, d);
    var l := stack[d];
    PathCloses(x, stack, cur, 0);
    assert TakenIds(stack)[0..][d] == l.list[l.at].id;
    assert l.list[l.at].id !in cur.open;
    NodeFacts(x, l.list[l.at].pos);
    forall k | 0 <= k < |cur.list| ensures cur.list[k] != l.list[l.at] && cur.list[k] != l.list[l.ret] {
      if k > 0 {
        assert cur.list[k].id in cur.open;
      }
    }
  }

  // ----- the record of longest partial linearizations

  function CallIds<S, V>(calls: seq<CallsEntry<S, V>>): seq<int> {
    seq(|calls|, i requires 0 <= i < |calls| => calls[i].entry.id)
  }

  method CollectIds<S, V>(calls: seq<CallsEntry<S, V>>) returns (sequence: seq<int>)
    ensures sequence == CallIds(calls)
  {
    sequence := [];
    for i := 0 to |calls|
      invariant sequence == CallIds(calls)[..i]
    {
      sequence := sequence + [calls[i].entry.id];
    }
  }

  /** What one backtrack records: the current sequence, for each of its operations that has no
      sequence yet or a shorter one. */
  ghost predicate Records(before: Longest, after: Longest, ids: seq<int>) {
    && |before| == |after|
    && forall i :: 0 <= i < |after| ==>
         after[i] == if i in ids && (before[i].None? || |ids| > |before[i].value|) then Some(ids) else before[i]
  }

  method RecordCalls<S, V>(calls: seq<CallsEntry<S, V>>, longest: array<Option<seq<int>>>)
    requires InRange(CallIds(calls), longest.Length)
    modifies longest
    ensures Records(old(longest[..]), longest[..], CallIds(calls))
  {
    var callsLen := |calls|;
    ghost var ids := CallIds(calls);
    var lazySeq: Option<seq<int>> := None;
    for k := 0 to |calls|
      invariant lazySeq.Some? ==> lazySeq.value == ids
      invariant forall i :: 0 <= i < longest.Length ==>
        longest[i] == if i in ids[..k] && (old(longest[i]).None? || |ids| > |old(longest[i]).value|)
                         then Some(ids) else old(longest[i])
    {
      var id := calls[k].entry.id;
      assert id == ids[k];
      assert ids[..k + 1] == ids[..k] + [id];
      if longest[id].None? || callsLen > |longest[id].value| {
        // the sequence is created lazily
        if lazySeq.None? {
          var sequence := CollectIds(calls);
          lazySeq := Some(sequence);
        }
        longest[id] := lazySeq;
      }
    }
    assert ids[..|calls|] == ids;
  }

  method RecordComplete(longest: array<Option<seq<int>>>, sequence: seq<int>)
    modifies longest
    ensures forall i :: 0 <= i < longest.Length ==> longest[i] == Some(sequence)
  {
    for i := 0 to longest.Length
      invariant forall j :: 0 <= j < i ==> longest[j] == Some(sequence)
    {
      longest[i] := Some(sequence);
    }
  }

  /** Every recorded sequence is a partial linearization that contains its operation. */
  ghost predicate SoundRecord<S, V>(m: Model<S, V>, p: Problem<V>, longest: Longest) {
    && |longest| == |p.ops|
    && forall i :: 0 <= i < |longest| && longest[i].Some? ==>
         PartialLinearization(m, p, longest[i].value) && i in longest[i].value
  }

  /** No partial linearization that contains an operation is longer than its recorded one. */
  ghost predicate MaximalRecord<S, V>(m: Model<S, V>, p: Problem<V>, longest: Longest) {
    forall order, i :: PartialLinearization(m, p, order) && i in order ==> Reaches(longest, i, |order|)
  }

  lemma CallIdsAreTaken<S, V>(calls: seq<CallsEntry<S, V>>, stack: seq<Level<S, V>>)
    requires CallsOf(calls, stack)
    ensures CallIds(calls) == TakenIds(stack)
  {
  }

  /** What the current path says about the operations on the stack. */
  lemma PathFacts<S, V>(x: Instance<S, V>, stack: seq<Level<S, V>>, cur: Level<S, V>)
    requires x.Valid() && IsPath(x, stack, cur)
    ensures var ids := TakenIds(stack);
      && PartialLinearization(x.model, x.Problem(), ids) && InRange(ids, Size(x.history))
      && (forall i :: 0 <= i < Size(x.history) ==> (i in ids <==> i !in cur.open))
      && |cur.open| + |ids| == Size(x.history)
  {
    var ids := TakenIds(stack);
    PathIsLegal(x, stack, cur, 0);
    PathCloses(x, stack, cur, 0);
    assert ids[0..] == ids;
    LegalIffPartial(x.model, x.Problem(), ids);
  }

  /** Recording the current sequence keeps the record sound, shortens nothing, and covers the
      current configuration. */
  lemma RecordingCovers<S, V>(x: Instance<S, V>, stack: seq<Level<S, V>>, cur: Level<S, V>, before: Longest,
          after: Longest)
    requires x.Valid() && IsPath(x, stack, cur)
    requires SoundRecord(x.model, x.Problem(), before) && Records(before, after, TakenIds(stack))
    ensures SoundRecord(x.model, x.Problem(), after) && Grows(Some(before), Some(after))
    ensures Covers(after, Size(x.history), cur.open, [])
  {
    PathFacts(x, stack, cur);
    hide IsPath, PartialLinearization, TakenIds;
    forall i, length | Reaches(before, i, length) ensures Reaches(after, i, length) {
    }
  }

  /** The search gives up at the first level: nothing explains the history, and what has been
      recorded cannot be beaten. */
  lemma Negative<S(!new), V>(x: Instance<S, V>, cur: Level<S, V>, record: Option<Longest>)
    requires x.Valid() && IsPath(x, [], cur) && AllTried(x, cur, record)
    requires cur.at < |cur.list| && cur.list[cur.at].match_ == null
    ensures !Linearizable(x.model, x.Problem())
    ensures record.Some? ==> MaximalRecord(x.model, x.Problem(), record.value)
  {
    var m, p, n := x.model, x.Problem(), Size(x.history);
    assert record.Some? ==> Covers(record.value, n, cur.open, []);
    LevelIsSettled(x, cur, record);
    LinearizableIffNotDead(m, p);
    if record.Some? {
      forall order, i | PartialLinearization(m, p, order) && i in order ensures Reaches(record.value, i, |order|) {
        LegalIffPartial(m, p, order);
        assert Covers(record.value, n, cur.open, order);
      }
    }
  }

  /** The list is empty: the stack is a linearization. */
  lemma Positive<S, V>(x: Instance<S, V>, stack: seq<Level<S, V>>, cur: Level<S, V>)
    requires x.Valid() && IsPath(x, stack, cur) && |cur.list| == 1
    ensures Linearization(x.model, x.Problem(), TakenIds(stack))
  {
    PathFacts(x, stack, cur);
    ListSize(x, cur.list, cur.open);
    FullPartialIsLinearization(x.model, x.Problem(), TakenIds(stack));
  }

  /** The start of the search. */
  lemma StartLists<S, V>(x: Instance<S, V>)
    requires x.Valid()
    ensures Lists(x, [x.head] + x.nodes, UpTo(Size(x.history)))
  {
    var list := [x.head] + x.nodes;
    forall i | 0 <= i < |x.nodes| ensures Listed(x.nodes[i], list, UpTo(Size(x.history))) {
      assert list[i + 1] == x.nodes[i];
    }
    forall k | 1 <= k < |list| ensures list[k].id in UpTo(Size(x.history)) && list[k].pos == k - 1 {
      NodeFacts(x, k - 1);
    }
  }

  lemma Start<S(!new), V>(x: Instance<S, V>, cur: Level<S, V>, record: Option<Longest>)
    requires x.Valid()
    requires cur == Level([x.head] + x.nodes, 1, 0, UpTo(Size(x.history)), x.model.init)
    ensures SearchOk(x, map[], [], cur, record)
  {
    StartLists(x);
    hide Lists, Settled;
  }

  /** What the fields of the node under the cursor say. */
  lemma Cursor<S(!new), V>(x: Instance<S, V>, cache: Cache<S>, stack: seq<Level<S, V>>, cur: Level<S, V>,
          record: Option<Longest>)
    requires SearchOk(x, cache, stack, cur, record) && Linked(cur.list)
    ensures x.Valid() && IsPath(x, stack, cur) && OkLevel(x, cur) && AllTried(x, cur, record)
    ensures |cur.list| > 0 && cur.list[0] == x.head && 1 <= cur.at && x.head.next == At(cur.list, 1)
    ensures cur.at < |cur.list| ==>
      var entry := cur.list[cur.at];
      && entry.next == At(cur.list, cur.at + 1)
      && entry.id in cur.open && 0 <= entry.id < Size(x.history)
      && (entry.match_ != null ==>
            && entry.value.Some? && entry.match_.value.Some?
            && StepOf(x, entry.id, cur.state) == x.model.step(cur.state, entry.value.value, entry.match_.value.value))
  {
    hide Settled, Minimal, Legal;
    if cur.at < |cur.list| {
      NodeFacts(x, cur.list[cur.at].pos);
    }
  }

  lemma StackIsGone<S, V>(x: Instance<S, V>, stack: seq<Level<S, V>>, cur: Level<S, V>)
    requires x.Valid() && IsPath(x, stack, cur)
    ensures 1 <= cur.at
    ensures forall d :: 0 <= d < |stack| ==>
      && stack[d].at < stack[d].ret < |stack[d].list|
      && stack[d].list[stack[d].at] !in cur.list && stack[d].list[stack[d].ret] !in cur.list
  {
    PathIsOk(x, stack, cur);
    hide IsPath, Lists;
    forall d | 0 <= d < |stack| ensures stack[d].at < stack[d].ret < |stack[d].list|
        && stack[d].list[stack[d].at] !in cur.list && stack[d].list[stack[d].ret] !in cur.list {
      TakenNodesAreGone(x, stack, cur, d);
    }
  }

  lemma TakenParts<S, V>(x: Instance<S, V>, l: Level<S, V>, above: Level<S, V>)
    requires x.Valid() && Taken(x, l, above)
    ensures l.at < l.ret < |l.list| && l.list[l.at].match_ == l.list[l.ret]
    ensures above.list == WithoutBoth(l.list, l.at, l.ret)
    ensures Distinct(l.list)
  {
    ListsNoDuplicates(x, l.list, l.open);
  }

  /** The nodes of the current level are linked, those of the levels below remember where they were,
      and all of them are among `objects`. */
  ghost predicate HeapOk<S, V>(objects: set<Node<V>>, stack: seq<Level<S, V>>, list: seq<Node<V>>)
    reads objects
  {
    && (forall k :: 0 <= k < |list| ==> list[k] in objects)
    && (forall d, k :: 0 <= d < |stack| && 0 <= k < |stack[d].list| ==> stack[d].list[k] in objects)
    && Linked(list) && AllLifted(stack)
  }

  lemma WithoutBothElements<T>(s: seq<T>, k: nat, r: nat)
    requires k < r < |s|
    ensures forall i :: 0 <= i < |WithoutBoth(s, k, r)| ==> WithoutBoth(s, k, r)[i] in s
  {
  }

  /** `lift` takes the operation under the cursor out of the list; the nodes lifted earlier keep
      remembering their neighbours. */
  method LiftCursor<S, V>(entry: Node<V>, ghost x: Instance<S, V>, ghost stack: seq<Level<S, V>>,
          ghost cur: Level<S, V>, ghost r: nat, ghost objects: set<Node<V>>)
    requires x.Valid() && IsPath(x, stack, cur) && HeapOk(objects, stack, cur.list)
    requires cur.at < r < |cur.list| && entry == cur.list[cur.at] && entry.match_ == cur.list[r]
    modifies objects
    ensures HeapOk(objects, stack + [cur.(ret := r)], WithoutBoth(cur.list, cur.at, r))
  {
    hide IsPath, Linked, WithoutBoth, Without;
    StackIsGone(x, stack, cur);
    Lift(entry, cur.list, cur.at, r);
    WithoutBothElements(cur.list, cur.at, r);
    ghost var more := stack + [cur.(ret := r)];
    forall d | 0 <= d < |more|
      ensures more[d].at < more[d].ret < |more[d].list| && Lifted(more[d].list, more[d].at, more[d].ret)
    {
      if d < |stack| {
        assert old(Lifted(stack[d].list, stack[d].at, stack[d].ret));
      }
    }
  }

  /** `unlift` puts the operation taken last back into the list. */
  method UnliftTop<S, V>(entry: Node<V>, ghost x: Instance<S, V>, ghost stack: seq<Level<S, V>>, ghost cur: Level<S, V>,
                         ghost objects: set<Node<V>>)
    requires x.Valid() && IsPath(x, stack, cur) && HeapOk(objects, stack, cur.list) && stack != []
    requires var top := stack[|stack| - 1]; top.at < |top.list| && entry == top.list[top.at]
    modifies objects
    ensures HeapOk(objects, stack[..|stack| - 1], stack[|stack| - 1].list)
  {
    hide IsPath, Linked, WithoutBoth, Without, Distinct, Taken, Remembers;
    ghost var less, top := stack[..|stack| - 1], stack[|stack| - 1];
    PathPops(x, stack, cur);
    TakenParts(x, top, cur);
    StackIsGone(x, less, top);
    assert AllLifted(less);
    assert Lifted(top.list, top.at, top.ret);
    Unlift(entry, top.list, top.at, top.ret);
    assert AllLifted(less);
  }

  lemma CallsPush<S, V>(calls: seq<CallsEntry<S, V>>, stack: seq<Level<S, V>>, l: Level<S, V>)
    requires CallsOf(calls, stack) && l.at < |l.list|
    ensures CallsOf(calls + [CallsEntry(l.list[l.at], l.state)], stack + [l])
  {
  }

  lemma CallsPop<S, V>(calls: seq<CallsEntry<S, V>>, stack: seq<Level<S, V>>)
    requires CallsOf(calls, stack) && stack != []
    ensures var top := stack[|stack| - 1];
      top.at < |top.list| && calls[|calls| - 1] == CallsEntry(top.list[top.at], top.state)
    ensures CallsOf(calls[..|calls| - 1], stack[..|stack| - 1])
  {
  }

  /** The bitset holds exactly the operations that are no longer open. */
  ghost predicate IsLinearized(n: nat, words: seq<Word>, open: set<int>) {
    open <= UpTo(n) && Members(words) == UpTo(n) - open
  }

  lemma LinearizedIsOpen<S, V>(x: Instance<S, V>, words: seq<Word>, open: set<int>)
    requires IsLinearized(Size(x.history), words, open)
    ensures OpenOf(x, words) == open
  {
  }

  lemma NewlyLinearized(n: nat, words: seq<Word>, more: seq<Word>, open: set<int>, a: int)
    requires IsLinearized(n, words, open) && a in open && a >= 0 && Members(more) == Members(words) + {a}
    ensures IsLinearized(n, more, open - {a})
  {
  }

  lemma NoLongerLinearized(n: nat, words: seq<Word>, less: seq<Word>, open: set<int>, a: int)
    requires IsLinearized(n, words, open - {a}) && 0 <= a < n && open <= UpTo(n)
    requires Members(less) == Members(words) - {a}
    ensures a in open ==> IsLinearized(n, less, open)
  {
  }

  lemma CursorReturn<S(!new), V>(x: Instance<S, V>, cache: Cache<S>, stack: seq<Level<S, V>>, cur: Level<S, V>,
          record: Option<Longest>)
    returns (r: nat)
    requires SearchOk(x, cache, stack, cur, record) && cur.at < |cur.list| && cur.list[cur.at].match_ != null
    ensures cur.at < r < |cur.list| && cur.list[r] == cur.list[cur.at].match_
  {
    r := ReturnFollows(x, cur.list, cur.open, cur.at);
  }

  function RecordOf(partial: bool, longest: Longest): Option<Longest> {
    if partial then Some(longest) else None
  }

  /** The invariant of the search loop, in terms of values only. */
  ghost predicate Inv<S(!new), V(!new)>(x: Instance<S, V>, partial: bool, cache: Cache<S>, stack: seq<Level<S, V>>,
          cur: Level<S, V>, calls: seq<CallsEntry<S, V>>, state: S, entry: Node?<V>, words: seq<Word>,
          longest: Longest) {
    && x.Valid() && EqualIsSound(x.model)
    && SearchOk(x, cache, stack, cur, RecordOf(partial, longest))
    && CallsOf(calls, stack)
    && state == cur.state && entry == At(cur.list, cur.at)
    && Size(x.history) <= WORD * |words|
    && IsLinearized(Size(x.history), words, cur.open)
    && Bucketed(cache, |words|)
    && SoundRecord(x.model, x.Problem(), longest)
    && (!partial ==> forall i :: 0 <= i < |longest| ==> longest[i].None?)
    && (cur.at < |cur.list| || |cur.list| == 1)
  }

  lemma NothingLinearized(n: nat, words: seq<Word>)
    requires Members(words) == {}
    ensures IsLinearized(n, words, UpTo(n))
  {
  }

  lemma EmptyRecord<S, V>(x: Instance<S, V>, longest: Longest)
    requires x.Valid() && |longest| == Size(x.history) && forall i :: 0 <= i < |longest| ==> longest[i].None?
    ensures SoundRecord(x.model, x.Problem(), longest)
  {
  }

  lemma Initially<S(!new), V(!new)>(x: Instance<S, V>, partial: bool, words: seq<Word>, longest: Longest)
    requires WellFormed(x.history) && HoldsFrom(x.nodes, x.history, 0) && x.head.pos == -1 && EqualIsSound(x.model)
    requires Members(words) == {} && Size(x.history) <= WORD * |words|
    requires |longest| == Size(x.history) && forall i :: 0 <= i < |longest| ==> longest[i].None?
    ensures Inv(x, partial, map[], [], Level([x.head] + x.nodes, 1, 0, UpTo(Size(x.history)), x.model.init), [], x.model.init,
                At(x.nodes, 0), words, longest)
  {
    hide SearchOk, Settled, Lists, HoldsFrom, WellFormed, SoundRecord, Members;
    EmptyRecord(x, longest);
    NothingLinearized(Size(x.history), words);
    Start(x, Level([x.head] + x.nodes, 1, 0, UpTo(Size(x.history)), x.model.init), RecordOf(partial, longest));
  }

  /** What the loop may conclude from its invariant before it branches. */
  lemma Peek<S(!new), V(!new)>(x: Instance<S, V>, partial: bool, cache: Cache<S>, stack: seq<Level<S, V>>,
          cur: Level<S, V>, calls: seq<CallsEntry<S, V>>, state: S, entry: Node?<V>, words: seq<Word>, longest: Longest)
    requires Inv(x, partial, cache, stack, cur, calls, state, entry, words, longest) && Linked(cur.list)
    ensures x.Valid() && IsPath(x, stack, cur) && |longest| == Size(x.history) <= WORD * |words|
    ensures forall k :: 0 <= k < |cur.list| ==> cur.list[k] == x.head || cur.list[k] in x.nodes
    ensures x.head.next == At(cur.list, 1) && (x.head.next == null <==> |cur.list| == 1)
    ensures cur.at < |cur.list| ==> entry != null && entry == cur.list[cur.at] && entry.next == At(cur.list, cur.at + 1)
    ensures cur.at < |cur.list| ==> 0 <= entry.id < Size(x.history)
    ensures x.head.next != null ==> cur.at < |cur.list|
    ensures cur.at < |cur.list| && entry.match_ != null ==>
      && entry.value.Some? && entry.match_.value.Some?
      && StepOf(x, entry.id, state) == x.model.step(state, entry.value.value, entry.match_.value.value)
  {
    hide SearchOk, IsPath, OkLevel, AllTried, StepOf, Linked, SoundRecord, CallsOf, IsLinearized, Bucketed,
      EqualIsSound;
    Cursor(x, cache, stack, cur, RecordOf(partial, longest));
    ListIsFromInstance(x, cur);
    assert |longest| == Size(x.history) by { SoundSize(x, longest); }
  }

  lemma SoundSize<S, V>(x: Instance<S, V>, longest: Longest)
    requires x.Valid() && SoundRecord(x.model, x.Problem(), longest)
    ensures |longest| == Size(x.history)
  {
  }

  lemma FoundIsTried<S(!new), V(!new)>(x: Instance<S, V>, cache: Cache<S>, stack: seq<Level<S, V>>, cur: Level<S, V>,
          record: Option<Longest>, words: seq<Word>, state: S)
    requires EqualIsSound(x.model) && SearchOk(x, cache, stack, cur, record)
    requires exists e :: e in Bucket(cache, Hash(words)) && Hits(x.model, e, words, state)
    requires cur.at < |cur.list| && cur.list[cur.at].id in cur.open && 0 <= cur.list[cur.at].id < Size(x.history)
    requires StepOf(x, cur.list[cur.at].id, cur.state) == (true, state)
    requires OpenOf(x, words) == cur.open - {cur.list[cur.at].id}
    ensures Tried(x, cur, cur.at, record)
  {
    hide SearchOk, Tried, Hits, OpenOf, StepOf;
    var e :| e in Bucket(cache, Hash(words)) && Hits(x.model, e, words, state);
    assert InCache(cache, e);
    HitIsTried(x, cache, stack, cur, record, e, words, state);
  }

  lemma RefusedIsTried<S, V>(x: Instance<S, V>, l: Level<S, V>, record: Option<Longest>)
    requires x.Valid() && OkLevel(x, l) && l.at < |l.list| && 0 <= l.list[l.at].id < Size(x.history)
    requires !StepOf(x, l.list[l.at].id, l.state).0
    ensures Tried(x, l, l.at, record)
  {
  }

  /** Going on to the next entry when the call under the cursor was refused or is cached. */
  lemma GoOn<S(!new), V(!new)>(x: Instance<S, V>, partial: bool, cache: Cache<S>, stack: seq<Level<S, V>>,
          cur: Level<S, V>, calls: seq<CallsEntry<S, V>>, state: S, entry: Node?<V>, words: seq<Word>, longest: Longest)
    requires Inv(x, partial, cache, stack, cur, calls, state, entry, words, longest)
    requires cur.at < |cur.list| && cur.list[cur.at].match_ != null && OkLevel(x, cur)
    requires Tried(x, cur, cur.at, RecordOf(partial, longest))
    ensures var next := cur.(at := cur.at + 1, ret := 0);
      && Inv(x, partial, cache, stack, next, calls, state, At(cur.list, cur.at + 1), words, longest)
      && Potential(stack, next) < Potential(stack, cur)
  {
    hide SearchOk, CallsOf, IsLinearized, Bucketed, SoundRecord, Potential, Tried, OkLevel, EqualIsSound;
    MoveOn(x, cache, stack, cur, RecordOf(partial, longest));
  }

  lemma GoOnRefused<S(!new), V(!new)>(x: Instance<S, V>, partial: bool, cache: Cache<S>, stack: seq<Level<S, V>>,
          cur: Level<S, V>, calls: seq<CallsEntry<S, V>>, state: S, entry: Node?<V>, words: seq<Word>, longest: Longest)
    requires Inv(x, partial, cache, stack, cur, calls, state, entry, words, longest)
    requires cur.at < |cur.list| && entry != null && entry.match_ != null && 0 <= entry.id < Size(x.history)
    requires !StepOf(x, entry.id, state).0
    ensures var next := cur.(at := cur.at + 1, ret := 0);
      && Inv(x, partial, cache, stack, next, calls, state, At(cur.list, cur.at + 1), words, longest)
      && Potential(stack, next) < Potential(stack, cur)
  {
    InvIsOk(x, partial, cache, stack, cur, calls, state, entry, words, longest);
    hide Inv, OkLevel, Potential, StepOf;
    RefusedIsTried(x, cur, RecordOf(partial, longest));
    GoOn(x, partial, cache, stack, cur, calls, state, entry, words, longest);
  }

  lemma InvIsOk<S(!new), V(!new)>(x: Instance<S, V>, partial: bool, cache: Cache<S>, stack: seq<Level<S, V>>,
          cur: Level<S, V>, calls: seq<CallsEntry<S, V>>, state: S, entry: Node?<V>, words: seq<Word>, longest: Longest)
    requires Inv(x, partial, cache, stack, cur, calls, state, entry, words, longest)
    ensures OkLevel(x, cur) && IsPath(x, stack, cur) && AllTried(x, cur, RecordOf(partial, longest))
    ensures EqualIsSound(x.model) && SearchOk(x, cache, stack, cur, RecordOf(partial, longest))
    ensures state == cur.state && entry == At(cur.list, cur.at)
    ensures CallsOf(calls, stack) && SoundRecord(x.model, x.Problem(), longest)
    ensures cur.at < |cur.list| ==> cur.list[cur.at].id in cur.open && 0 <= cur.list[cur.at].id < Size(x.history)
    ensures IsLinearized(Size(x.history), words, cur.open) && Bucketed(cache, |words|)
  {
    hide CallsOf, IsLinearized, Bucketed, SoundRecord, EqualIsSound;
    PathIsOk(x, stack, cur);
  }

  lemma GoOnFound<S(!new), V(!new)>(x: Instance<S, V>, partial: bool, cache: Cache<S>, stack: seq<Level<S, V>>,
          cur: Level<S, V>, calls: seq<CallsEntry<S, V>>, state: S, entry: Node?<V>, words: seq<Word>, longest: Longest,
          newWords: seq<Word>, newState: S)
    requires Inv(x, partial, cache, stack, cur, calls, state, entry, words, longest)
    requires cur.at < |cur.list| && entry != null && entry.match_ != null && 0 <= entry.id < Size(x.history)
    requires StepOf(x, entry.id, state) == (true, newState)
    requires Members(newWords) == Members(words) + {entry.id}
    requires exists e :: e in Bucket(cache, Hash(newWords)) && Hits(x.model, e, newWords, newState)
    ensures var next := cur.(at := cur.at + 1, ret := 0);
      && Inv(x, partial, cache, stack, next, calls, state, At(cur.list, cur.at + 1), words, longest)
      && Potential(stack, next) < Potential(stack, cur)
  {
    InvIsOk(x, partial, cache, stack, cur, calls, state, entry, words, longest);
    hide Inv, OkLevel, Potential, StepOf, SearchOk, IsPath, IsLinearized, Members, OpenOf, Hits, EqualIsSound;
    NewlyLinearized(Size(x.history), words, newWords, cur.open, entry.id);
    LinearizedIsOpen(x, newWords, cur.open - {entry.id});
    FoundIsTried(x, cache, stack, cur, RecordOf(partial, longest), newWords, newState);
    GoOn(x, partial, cache, stack, cur, calls, state, entry, words, longest);
  }

  /** Taking the call under the cursor. */
  lemma Push<S(!new), V(!new)>(x: Instance<S, V>, partial: bool, cache: Cache<S>, stack: seq<Level<S, V>>,
          cur: Level<S, V>, calls: seq<CallsEntry<S, V>>, state: S, entry: Node?<V>, words: seq<Word>, longest: Longest,
          newWords: seq<Word>, newState: S, words': seq<Word>)
    returns (r: nat)
    requires Inv(x, partial, cache, stack, cur, calls, state, entry, words, longest)
    requires cur.at < |cur.list| && entry != null && entry.match_ != null && 0 <= entry.id < Size(x.history)
    requires StepOf(x, entry.id, state) == (true, newState)
    requires Members(newWords) == Members(words') == Members(words) + {entry.id}
    requires |newWords| == |words'| == |words|
    ensures cur.at < r < |cur.list| && cur.list[r] == entry.match_
    ensures var taken := cur.(ret := r);
      var above := Above(taken, newState);
      && Inv(x, partial, Insert(cache, CacheEntry(newWords, newState)), stack + [taken], above,
             calls + [CallsEntry(entry, state)], newState, At(above.list, 1), words', longest)
      && Potential(stack + [taken], above) < Potential(stack, cur)
  {
    InvIsOk(x, partial, cache, stack, cur, calls, state, entry, words, longest);
    var record := RecordOf(partial, longest);
    r := CursorReturn(x, cache, stack, cur, record);
    var taken := cur.(ret := r);
    var above := Above(taken, newState);
    PushOk(x, partial, cache, stack, cur, calls, state, entry, words, longest, newWords, newState, r);
    hide OkLevel, Potential, StepOf, SearchOk, IsPath, IsLinearized, Members, OpenOf, CallsOf, Bucketed, Insert,
      WithoutBoth, SoundRecord, EqualIsSound;
    NewlyLinearized(Size(x.history), words, words', cur.open, entry.id);
    InsertAdds(cache, CacheEntry(newWords, newState), |words|);
    CallsPush(calls, stack, taken);
    AboveHasCursor(x, above, cache, stack, taken, record, newWords, newState);
  }

  lemma PushOk<S(!new), V(!new)>(x: Instance<S, V>, partial: bool, cache: Cache<S>, stack: seq<Level<S, V>>,
          cur: Level<S, V>, calls: seq<CallsEntry<S, V>>, state: S, entry: Node?<V>, words: seq<Word>, longest: Longest,
          newWords: seq<Word>, newState: S, r: nat)
    requires Inv(x, partial, cache, stack, cur, calls, state, entry, words, longest)
    requires cur.at < r < |cur.list| && entry != null && entry.match_ == cur.list[r] && 0 <= entry.id < Size(x.history)
    requires StepOf(x, entry.id, state) == (true, newState)
    requires Members(newWords) == Members(words) + {entry.id} && |newWords| == |words|
    ensures var taken := cur.(ret := r);
      var above := Above(taken, newState);
      && SearchOk(x, Insert(cache, CacheEntry(newWords, newState)), stack + [taken], above, RecordOf(partial, longest))
      && Potential(stack + [taken], above) < Potential(stack, cur)
  {
    InvIsOk(x, partial, cache, stack, cur, calls, state, entry, words, longest);
    hide Inv, OkLevel, Potential, StepOf, SearchOk, IsPath, IsLinearized, Members, OpenOf, CallsOf, Bucketed, Insert,
      Above;
    NewlyLinearized(Size(x.history), words, newWords, cur.open, entry.id);
    LinearizedIsOpen(x, newWords, cur.open - {entry.id});
    MovePush(x, cache, CacheEntry(newWords, newState), stack, cur, r, RecordOf(partial, longest));
  }

  lemma AboveHasCursor<S(!new), V(!new)>(x: Instance<S, V>, above: Level<S, V>, cache: Cache<S>,
          stack: seq<Level<S, V>>, taken: Level<S, V>, record: Option<Longest>, newWords: seq<Word>, newState: S)
    requires SearchOk(x, Insert(cache, CacheEntry(newWords, newState)), stack + [taken], above, record) && above.at == 1
    ensures above.at < |above.list| || |above.list| == 1
  {
  }

  /** What a backtrack may use of the stack. */
  lemma PeekTop<S(!new), V(!new)>(x: Instance<S, V>, partial: bool, cache: Cache<S>, stack: seq<Level<S, V>>,
          cur: Level<S, V>, calls: seq<CallsEntry<S, V>>, state: S, entry: Node?<V>, words: seq<Word>, longest: Longest)
    requires Inv(x, partial, cache, stack, cur, calls, state, entry, words, longest)
    ensures |calls| == |stack|
    ensures CallIds(calls) == TakenIds(stack) && InRange(CallIds(calls), Size(x.history))
    ensures stack != [] ==> var top := stack[|stack| - 1];
      && top.at < |top.list| && calls[|calls| - 1] == CallsEntry(top.list[top.at], top.state)
      && 0 <= top.list[top.at].id < Size(x.history)
      && forall k :: 0 <= k < |top.list| ==> top.list[k] == x.head || top.list[k] in x.nodes
  {
    InvIsOk(x, partial, cache, stack, cur, calls, state, entry, words, longest);
    hide SearchOk, IsPath, SoundRecord, IsLinearized, Bucketed, OkLevel, EqualIsSound, Taken;
    CallIdsAreTaken(calls, stack);
    PathFacts(x, stack, cur);
    if stack != [] {
      CallsPop(calls, stack);
      assert CallIds(calls)[|calls| - 1] == calls[|calls| - 1].entry.id;
      PathPops(x, stack, cur);
      TakenIsOk(x, stack[|stack| - 1], cur);
      ListIsFromInstance(x, stack[|stack| - 1]);
    }
  }

  /** Undoing the operation taken last. */
  lemma Pop<S(!new), V(!new)>(x: Instance<S, V>, partial: bool, cache: Cache<S>, stack: seq<Level<S, V>>,
          cur: Level<S, V>, calls: seq<CallsEntry<S, V>>, state: S, entry: Node?<V>, words: seq<Word>, longest: Longest,
          longest': Longest, words': seq<Word>)
    requires Inv(x, partial, cache, stack, cur, calls, state, entry, words, longest)
    requires cur.at < |cur.list| && entry != null && entry.match_ == null && stack != []
    requires if partial then Records(longest, longest', TakenIds(stack)) else longest' == longest
    requires Members(words') == Members(words) - {TakenId(stack[|stack| - 1])} && |words'| == |words|
    ensures var less, top := stack[..|stack| - 1], stack[|stack| - 1];
      var next := top.(at := top.at + 1, ret := 0);
      && Inv(x, partial, cache, less, next, calls[..|calls| - 1], top.state, At(top.list, top.at + 1), words', longest')
      && Potential(less, next) < Potential(stack, cur)
  {
    InvIsOk(x, partial, cache, stack, cur, calls, state, entry, words, longest);
    PopRecord(x, partial, cache, stack, cur, calls, state, entry, words, longest, longest');
    hide SearchOk, IsPath, SoundRecord, IsLinearized, Bucketed, OkLevel, EqualIsSound, Taken, CallsOf, Potential,
      Members, Records, TakenIds, Covers, Grows, Instance.Problem;
    MovePop(x, cache, stack, cur, RecordOf(partial, longest), RecordOf(partial, longest'));
    CallsPop(calls, stack);
    TakenCloses(x, stack[|stack| - 1], cur);
    NoLongerLinearized(Size(x.history), words, words', stack[|stack| - 1].open, TakenId(stack[|stack| - 1]));
  }

  lemma TakenCloses<S, V>(x: Instance<S, V>, l: Level<S, V>, above: Level<S, V>)
    requires x.Valid() && Taken(x, l, above)
    ensures above.open == l.open - {TakenId(l)} && TakenId(l) in l.open
    ensures l.open <= UpTo(Size(x.history)) && 0 <= TakenId(l) < Size(x.history)
  {
    assert l.list[l.at].id in l.open;
  }

  lemma PopRecord<S(!new), V(!new)>(x: Instance<S, V>, partial: bool, cache: Cache<S>, stack: seq<Level<S, V>>,
          cur: Level<S, V>, calls: seq<CallsEntry<S, V>>, state: S, entry: Node?<V>, words: seq<Word>, longest: Longest,
          longest': Longest)
    requires Inv(x, partial, cache, stack, cur, calls, state, entry, words, longest)
    requires if partial then Records(longest, longest', TakenIds(stack)) else longest' == longest
    ensures Grows(RecordOf(partial, longest), RecordOf(partial, longest'))
    ensures partial ==> Covers(longest', Size(x.history), cur.open, [])
    ensures SoundRecord(x.model, x.Problem(), longest')
    ensures !partial ==> forall i :: 0 <= i < |longest'| ==> longest'[i].None?
  {
    InvIsOk(x, partial, cache, stack, cur, calls, state, entry, words, longest);
    if partial {
      hide Inv, SearchOk, IsPath, SoundRecord, Records, TakenIds, Covers;
      RecordingCovers(x, stack, cur, longest, longest');
    }
  }

  lemma HoldsSize<V>(nodes: seq<Node<V>>, h: History<V>)
    requires HoldsFrom(nodes, h, 0)
    ensures |nodes| == |h|
  {
  }

  lemma LinkedNext<V>(list: seq<Node<V>>, k: nat)
    requires Linked(list) && k < |list|
    ensures list[k].next == At(list, k + 1)
  {
  }

  lemma GiveUp<S(!new), V(!new)>(x: Instance<S, V>, partial: bool, cache: Cache<S>, stack: seq<Level<S, V>>,
          cur: Level<S, V>, calls: seq<CallsEntry<S, V>>, state: S, entry: Node?<V>, words: seq<Word>, longest: Longest)
    requires Inv(x, partial, cache, stack, cur, calls, state, entry, words, longest)
    requires cur.at < |cur.list| && entry != null && entry.match_ == null && stack == []
    ensures !Linearizable(x.model, x.Problem())
    ensures SoundRecord(x.model, x.Problem(), longest)
    ensures if partial then MaximalRecord(x.model, x.Problem(), longest) else forall i :: 0 <= i < |longest| ==>
      longest[i].None?
  {
    InvIsOk(x, partial, cache, stack, cur, calls, state, entry, words, longest);
    hide SearchOk, IsPath, OkLevel, AllTried, SoundRecord, MaximalRecord, Linearizable;
    Negative(x, cur, RecordOf(partial, longest));
  }

  /** One round of the search at a call: it is taken, unless the model refuses it or the cache knows
      the configuration it leads to. */
  method TryCall<S(!new), V(!new)>(model: Model<S, V>, headEntry: Node<V>, entry: Node<V>, state: S, cache: Cache<S>,
          calls: seq<CallsEntry<S, V>>, linearized: array<Word>, ghost x: Instance<S, V>, ghost partial: bool,
          ghost stack: seq<Level<S, V>>, ghost cur: Level<S, V>, ghost longest: Longest, ghost objects: set<Node<V>>)
    returns (nextEntry: Node?<V>, nextState: S, nextCache: Cache<S>, nextCalls: seq<CallsEntry<S, V>>,
             ghost nextStack: seq<Level<S, V>>, ghost next: Level<S, V>)
    requires x.model == model && x.head == headEntry
    requires Inv(x, partial, cache, stack, cur, calls, state, entry, linearized[..], longest)
    requires HeapOk(objects, stack, cur.list)
    requires cur.at < |cur.list| && entry.match_ != null
    modifies linearized, objects
    ensures Inv(x, partial, nextCache, nextStack, next, nextCalls, nextState, nextEntry, linearized[..], longest)
    ensures HeapOk(objects, nextStack, next.list)
    ensures Potential(nextStack, next) < Potential(stack, cur)
  {
    hide Inv, Linked, AllLifted, Potential, StepOf, Above, WithoutBoth, Insert, IsPath, Instance.Valid, EqualIsSound,
      Members, UpTo;
    nextEntry, nextState, nextCache, nextCalls, nextStack, next := entry, state, cache, calls, stack, cur;
    Peek(x, partial, cache, stack, cur, calls, state, entry, linearized[..], longest);
    var matching := entry.match_;
    var (ok, newState) := model.step(state, entry.value.value, matching.value.value);
    if ok {
      var newLinearized := Clone(linearized);
      Set(newLinearized, entry.id);
      ghost var newWords := newLinearized[..];
      var found := CacheContains(model, cache, newLinearized, newState);
      if !found {
        ghost var words := linearized[..];
        Set(linearized, entry.id);
        ghost var r := Push(x, partial, cache, stack, cur, calls, state, entry, words, longest,
                            newWords, newState, linearized[..]);
        nextCache := Insert(cache, CacheEntry(newLinearized[..], newState));
        nextCalls := calls + [CallsEntry(entry, state)];
        nextState := newState;
        LiftCursor(entry, x, stack, cur, r, objects);
        ghost var taken := cur.(ret := r);
        nextStack, next := stack + [taken], Above(taken, newState);
        AboveList(taken, newState);
        Peek(x, partial, nextCache, nextStack, next, nextCalls, nextState, At(next.list, 1), linearized[..], longest);
        nextEntry := headEntry.next;
      } else {
        GoOnFound(x, partial, cache, stack, cur, calls, state, entry, linearized[..], longest, newWords, newState);
        nextEntry := entry.next;
        next := cur.(at := cur.at + 1, ret := 0);
      }
    } else {
      GoOnRefused(x, partial, cache, stack, cur, calls, state, entry, linearized[..], longest);
      nextEntry := entry.next;
      next := cur.(at := cur.at + 1, ret := 0);
    }
  }

  lemma AboveList<S, V>(l: Level<S, V>, state: S)
    requires l.at < l.ret < |l.list|
    ensures Above(l, state).list == WithoutBoth(l.list, l.at, l.ret) && Above(l, state).at == 1
  {
  }

  /** One round of the search at a return: the call taken last is taken back, and the cursor goes on
      behind it. */
  method Backtrack<S(!new), V(!new)>(entry: Node<V>, state: S, cache: Cache<S>, calls: seq<CallsEntry<S, V>>,
          linearized: array<Word>, longest: array<Option<seq<int>>>, computePartial: bool, ghost x: Instance<S, V>,
          ghost stack: seq<Level<S, V>>, ghost cur: Level<S, V>, ghost objects: set<Node<V>>)
    returns (nextEntry: Node?<V>, nextState: S, nextCalls: seq<CallsEntry<S, V>>,
             ghost less: seq<Level<S, V>>, ghost next: Level<S, V>)
    requires Inv(x, computePartial, cache, stack, cur, calls, state, entry, linearized[..], longest[..])
    requires HeapOk(objects, stack, cur.list)
    requires cur.at < |cur.list| && entry.match_ == null && |calls| > 0
    modifies linearized, longest, objects
    ensures Inv(x, computePartial, cache, less, next, nextCalls, nextState, nextEntry, linearized[..], longest[..])
    ensures HeapOk(objects, less, next.list)
    ensures Potential(less, next) < Potential(stack, cur)
  {
    hide Inv, Linked, AllLifted, Potential, IsPath, Records, TakenIds, CallIds, InRange, Instance.Valid, Members;
    Peek(x, computePartial, cache, stack, cur, calls, state, entry, linearized[..], longest[..]);
    PeekTop(x, computePartial, cache, stack, cur, calls, state, entry, linearized[..], longest[..]);
    ghost var before, words := longest[..], linearized[..];
    if computePartial {
      RecordCalls(calls, longest);
    }
    var callsTop := calls[|calls| - 1];
    Clear(linearized, callsTop.entry.id);
    Pop(x, computePartial, cache, stack, cur, calls, state, entry, words, before, longest[..], linearized[..]);
    nextEntry := callsTop.entry;
    nextState := callsTop.state;
    nextCalls := calls[..|calls| - 1];
    UnliftTop(nextEntry, x, stack, cur, objects);
    ghost var top := stack[|stack| - 1];
    less, next := stack[..|stack| - 1], top.(at := top.at + 1, ret := 0);
    LinkedNext(top.list, top.at);
    nextEntry := nextEntry.next;
  }

  /** The list of entries behind its sentinel. */
  method Prepare<V>(history: History<V>)
    returns (entry: Node?<V>, headEntry: Node<V>, n: nat, ghost nodes: seq<Node<V>>, ghost objects: set<Node<V>>)
    requires WellFormed(history)
    ensures HoldsFrom(nodes, history, 0) && headEntry.pos == -1 && n == Size(history) && entry == At(nodes, 0)
    ensures Linked([headEntry] + nodes) && fresh(objects)
    ensures headEntry in objects && forall k :: 0 <= k < |nodes| ==> nodes[k] in objects
  {
    hide HoldsFrom, WellFormed, Linked;
    entry, nodes := MakeLinkedEntries(history);
    var entries := Length(entry, nodes);
    HoldsSize(nodes, history);
    n := entries / 2;
    var head := new Node<V>(None, null, -1, -1);
    headEntry := InsertBefore(head, entry, nodes, 0);
    objects := {headEntry} + set k | 0 <= k < |nodes| :: nodes[k];
  }

  lemma HeapStarts<S, V>(x: Instance<S, V>, objects: set<Node<V>>)
    requires Linked([x.head] + x.nodes) && x.head in objects && forall k :: 0 <= k < |x.nodes| ==> x.nodes[k] in objects
    ensures HeapOk<S, V>(objects, [], [x.head] + x.nodes)
  {
    hide Linked;
  }

  method CheckSingle<S(!new), V(!new)>(model: Model<S, V>, history: History<V>, computePartial: bool)
    returns (ok: bool, longest: array<Option<seq<int>>>)
    requires WellFormed(history) && EqualIsSound(model)
    ensures fresh(longest) && longest.Length == Size(history)
    ensures ok <==> Linearizable(model, ToProblem(history))
    ensures ok ==> forall i :: 0 <= i < longest.Length ==>
      longest[i].Some? && Linearization(model, ToProblem(history), longest[i].value)
    ensures !ok && computePartial ==>
      && SoundRecord(model, ToProblem(history), longest[..])
      && MaximalRecord(model, ToProblem(history), longest[..])
    ensures !ok && !computePartial ==> forall i :: 0 <= i < longest.Length ==> longest[i].None?
  {
    hide Inv, Linked, HeapOk, Potential, IsPath, TakenIds, CallIds, InRange, Instance.Valid, WellFormed, HoldsFrom,
      EqualIsSound, Linearization, SoundRecord, MaximalRecord, Members, UpTo;
    var entry: Node?<V>;
    var headEntry: Node<V>;
    var n: nat;
    ghost var nodes, objects;
    entry, headEntry, n, nodes, objects := Prepare(history);
    var linearized := NewBitset(n);
    var cache: Cache<S> := map[];
    var calls: seq<CallsEntry<S, V>> := [];
    longest := new Option<seq<int>>[n](_ => None);
    var state := model.init;

    ghost var x := Instance(model, history, nodes, headEntry);
    ghost var stack: seq<Level<S, V>> := [];
    ghost var cur := Level([x.head] + x.nodes, 1, 0, UpTo(n), model.init);
    Initially(x, computePartial, linearized[..], longest[..]);
    HeapStarts(x, objects);
    HeapLinked(objects, stack, cur.list);
    Peek(x, computePartial, cache, stack, cur, calls, state, entry, linearized[..], longest[..]);

    while headEntry.next != null
      invariant fresh(objects) && fresh(linearized) && fresh(longest) && longest.Length == n
      invariant Inv(x, computePartial, cache, stack, cur, calls, state, entry, linearized[..], longest[..])
      invariant HeapOk(objects, stack, cur.list) && Linked(cur.list)
      decreases Potential(stack, cur)
    {
      Peek(x, computePartial, cache, stack, cur, calls, state, entry, linearized[..], longest[..]);
      if entry.match_ != null {
        entry, state, cache, calls, stack, cur :=
          TryCall(model, headEntry, entry, state, cache, calls, linearized, x, computePartial, stack, cur, longest[..], objects);
      } else {
        PeekTop(x, computePartial, cache, stack, cur, calls, state, entry, linearized[..], longest[..]);
        if |calls| == 0 {
          GiveUp(x, computePartial, cache, stack, cur, calls, state, entry, linearized[..], longest[..]);
          return false, longest;
        }
        entry, state, calls, stack, cur :=
          Backtrack(entry, state, cache, calls, linearized, longest, computePartial, x, stack, cur, objects);
      }
      HeapLinked(objects, stack, cur.list);
    }
    Peek(x, computePartial, cache, stack, cur, calls, state, entry, linearized[..], longest[..]);
    PeekTop(x, computePartial, cache, stack, cur, calls, state, entry, linearized[..], longest[..]);
    Positive(x, stack, cur);
    // the longest linearization is the complete one, which is calls
    var sequence := CollectIds(calls);
    RecordComplete(longest, sequence);
    return true, longest;
  }

  lemma HeapLinked<S, V>(objects: set<Node<V>>, stack: seq<Level<S, V>>, list: seq<Node<V>>)
    requires HeapOk(objects, stack, list)
    ensures Linked(list)
  {
  }
}
