/** The stack of the search: settled configurations, the path to the current one, and the measure
    that makes the search end. A level is settled when its cursor has come to a return and every call
    before it has been tried; the potential bounds the steps that are left, at the cursor and at every
    level below, and each of the three moves lowers it. */
module SearchLevels {
  import opened Collections
  import opened Options
  import opened Linearizability
  import opened Histories
  import opened LinkedEntries
  import opened Search

  // ----- settled configurations

  /** For each operation, the longest sequence recorded so far that contains it. */
  type Longest = seq<Option<seq<int>>>

  ghost predicate Reaches(longest: Longest, i: int, length: int) {
    0 <= i < |longest| && longest[i].Some? && |longest[i].value| >= length
  }

  /** With `open` left over, continuing by `order` is reflected in the record of every operation
      that is then ordered. */
  ghost predicate Covers(longest: Longest, n: nat, open: set<int>, order: seq<int>) {
    forall i {:trigger i in open} {:trigger i in order} ::
      0 <= i < n && (i !in open || i in order) ==> Reaches(longest, i, n - |open| + |order|)
  }

  /** The search is done with a configuration: it has no completion and, when sequences are
      recorded, no continuation of it is longer than what has been recorded. */
  ghost predicate Settled<S, V>(x: Instance<S, V>, open: set<int>, state: S, record: Option<Longest>)
    requires x.Valid()
  {
    && Dead(x.model, x.Problem(), open, state)
    && (record.Some? ==>
          forall order :: Legal(x.model, x.Problem(), open, state, order)
            ==> Covers(record.value, Size(x.history), open, order))
  }

  /** A record in which no operation gets a shorter sequence. */
  ghost predicate Grows(before: Option<Longest>, after: Option<Longest>) {
    && before.Some? == after.Some?
    && (before.Some? ==>
          forall i, length {:trigger Reaches(before.value, i, length)} ::
            Reaches(before.value, i, length) ==> Reaches(after.value, i, length))
  }

  lemma StaysSettled<S, V>(x: Instance<S, V>, open: set<int>, state: S, before: Option<Longest>, after: Option<Longest>)
    requires x.Valid() && Settled(x, open, state, before) && Grows(before, after)
    ensures Settled(x, open, state, after)
  {
    if after.Some? {
      var n := Size(x.history);
      forall order | Legal(x.model, x.Problem(), open, state, order) ensures Covers(after.value, n, open, order) {
        assert Covers(before.value, n, open, order);
      }
    }
  }

  /** Pruning is safe: what is settled for a state is settled for every state with the same future. */
  lemma SettledForSameFuture<S, V(!new)>(x: Instance<S, V>, open: set<int>, s: S, t: S, record: Option<Longest>)
    requires x.Valid() && Settled(x, open, s, record) && SameFuture(x.model, s, t)
    ensures Settled(x, open, t, record)
  {
    forall order ensures Legal(x.model, x.Problem(), open, s, order) == Legal(x.model, x.Problem(), open, t, order) {
      SameFutureSameLegal(x.model, x.Problem(), open, s, t, order);
    }
  }

  // ----- levels

  ghost function StepOf<S, V>(x: Instance<S, V>, a: int, state: S): (bool, S)
    requires x.Valid() && 0 <= a < Size(x.history)
  {
    x.model.step(state, x.Problem().ops[a].0, x.Problem().ops[a].1)
  }

  /** A well-formed level: only calls lie before the cursor. */
  ghost predicate OkLevel<S, V>(x: Instance<S, V>, l: Level<S, V>)
    requires x.Valid()
  {
    && l.open <= UpTo(Size(x.history))
    && Lists(x, l.list, l.open)
    && 1 <= l.at <= |l.list|
    && forall j :: 1 <= j < l.at ==> l.list[j].match_ != null
  }

  /** Taking the call at `j` is either refused by the model or leads to a settled configuration. */
  ghost predicate Tried<S, V>(x: Instance<S, V>, l: Level<S, V>, j: int, record: Option<Longest>)
    requires x.Valid() && OkLevel(x, l) && 1 <= j < |l.list|
  {
    var a := l.list[j].id;
    var (ok, next) := StepOf(x, a, l.state);
    ok ==> Settled(x, l.open - {a}, next, record)
  }

  ghost predicate AllTried<S, V>(x: Instance<S, V>, l: Level<S, V>, record: Option<Longest>)
    requires x.Valid() && OkLevel(x, l)
  {
    forall j :: 1 <= j < l.at ==> Tried(x, l, j, record)
  }

  /** Every legal order from a level whose cursor stands at a return begins with a tried call. */
  lemma LegalOrderWasTried<S, V>(x: Instance<S, V>, l: Level<S, V>, record: Option<Longest>, order: seq<int>)
    requires x.Valid() && OkLevel(x, l) && AllTried(x, l, record)
    requires l.at < |l.list| && l.list[l.at].match_ == null
    requires order != [] && Legal(x.model, x.Problem(), l.open, l.state, order)
    ensures order[0] in l.open && 0 <= order[0] < Size(x.history)
    ensures var (ok, next) := StepOf(x, order[0], l.state);
      && Settled(x, l.open - {order[0]}, next, record)
      && Legal(x.model, x.Problem(), l.open - {order[0]}, next, order[1..])
  {
    var j := MinimalIsInFront(x, l.list, l.open, l.at, order[0]);
    assert Tried(x, l, j, record);
  }

  lemma CoversCons(longest: Longest, n: nat, open: set<int>, a: int, rest: seq<int>)
    requires a in open && Covers(longest, n, open - {a}, rest)
    ensures Covers(longest, n, open, [a] + rest)
  {
    assert |open - {a}| == |open| - 1;
    forall i | 0 <= i < n && (i !in open || i in [a] + rest)
      ensures Reaches(longest, i, n - |open| + |[a] + rest|)
    {
      assert i !in open - {a} || i in rest;
    }
  }

  lemma OrderIsSettled<S, V>(x: Instance<S, V>, l: Level<S, V>, record: Option<Longest>, order: seq<int>)
    requires x.Valid() && OkLevel(x, l) && AllTried(x, l, record)
    requires l.at < |l.list| && l.list[l.at].match_ == null
    requires order != [] && Legal(x.model, x.Problem(), l.open, l.state, order)
    ensures |order| != |l.open|
    ensures record.Some? ==> Covers(record.value, Size(x.history), l.open, order)
  {
    hide OkLevel, AllTried, Legal, Covers, Settled, StepOf;
    var a, rest := order[0], order[1..];
    LegalOrderWasTried(x, l, record, order);
    SettledRest(x, l.open - {a}, StepOf(x, a, l.state).1, record, rest);
    assert |l.open - {a}| == |l.open| - 1;
    if record.Some? {
      CoversCons(record.value, Size(x.history), l.open, a, rest);
      assert order == [a] + rest;
    }
  }

  lemma SettledRest<S, V>(x: Instance<S, V>, open: set<int>, state: S, record: Option<Longest>, rest: seq<int>)
    requires x.Valid() && Settled(x, open, state, record) && Legal(x.model, x.Problem(), open, state, rest)
    ensures |rest| != |open|
    ensures record.Some? ==> Covers(record.value, Size(x.history), open, rest)
  {
  }

  /** A level whose cursor stands at a return, with every call before it tried, is settled. */
  lemma LevelIsSettled<S, V>(x: Instance<S, V>, l: Level<S, V>, record: Option<Longest>)
    requires x.Valid() && OkLevel(x, l) && AllTried(x, l, record)
    requires l.at < |l.list| && l.list[l.at].match_ == null
    requires record.Some? ==> Covers(record.value, Size(x.history), l.open, [])
    ensures Settled(x, l.open, l.state, record)
  {
    assert l.list[l.at].id in l.open;
    forall order | Legal(x.model, x.Problem(), l.open, l.state, order)
      ensures |order| != |l.open|
      ensures record.Some? ==> Covers(record.value, Size(x.history), l.open, order)
    {
      if order != [] {
        OrderIsSettled(x, l, record, order);
      }
    }
  }

  // ----- the path to the current configuration

  /** `above` is what `l` turns into when the call under its cursor is taken. */
  ghost predicate Taken<S, V>(x: Instance<S, V>, l: Level<S, V>, above: Level<S, V>)
    requires x.Valid()
  {
    && OkLevel(x, l)
    && l.at < l.ret < |l.list| && l.list[l.at].match_ == l.list[l.ret]
    && above.list == WithoutBoth(l.list, l.at, l.ret)
    && above.open == l.open - {l.list[l.at].id}
    && StepOf(x, l.list[l.at].id, l.state) == (true, above.state)
  }

  function LevelAt<S, V>(stack: seq<Level<S, V>>, cur: Level<S, V>, d: nat): Level<S, V>
    requires d <= |stack|
  {
    if d < |stack| then stack[d] else cur
  }

  ghost predicate TakenAt<S, V>(x: Instance<S, V>, stack: seq<Level<S, V>>, cur: Level<S, V>, d: nat)
    requires x.Valid() && d < |stack|
  {
    Taken(x, stack[d], LevelAt(stack, cur, d + 1))
  }

  /** The levels on the stack lead from the start to the current level. */
  ghost predicate IsPath<S, V>(x: Instance<S, V>, stack: seq<Level<S, V>>, cur: Level<S, V>)
    requires x.Valid()
  {
    && OkLevel(x, cur)
    && (forall d {:trigger TakenAt(x, stack, cur, d)} :: 0 <= d < |stack| ==> TakenAt(x, stack, cur, d))
    && LevelAt(stack, cur, 0).open == UpTo(Size(x.history))
    && LevelAt(stack, cur, 0).state == x.model.init
  }

  /** Below the current level everything before the cursors has been tried. */
  ghost predicate StackTried<S, V>(x: Instance<S, V>, stack: seq<Level<S, V>>, record: Option<Longest>)
    requires x.Valid()
  {
    forall d :: 0 <= d < |stack| ==> OkLevel(x, stack[d]) && AllTried(x, stack[d], record)
  }

  lemma LevelStaysTried<S, V>(x: Instance<S, V>, l: Level<S, V>, before: Option<Longest>, after: Option<Longest>)
    requires x.Valid() && OkLevel(x, l) && AllTried(x, l, before) && Grows(before, after)
    ensures AllTried(x, l, after)
  {
    hide OkLevel, Tried, Grows;
    LevelBounds(x, l);
    forall j | 1 <= j < l.at ensures Tried(x, l, j, after) {
      assert Tried(x, l, j, before);
      StaysTried(x, l, j, before, after);
    }
  }

  lemma LevelBounds<S, V>(x: Instance<S, V>, l: Level<S, V>)
    requires x.Valid() && OkLevel(x, l)
    ensures 1 <= l.at <= |l.list|
  {
  }

  lemma StaysTried<S, V>(x: Instance<S, V>, l: Level<S, V>, j: int, before: Option<Longest>, after: Option<Longest>)
    requires x.Valid() && OkLevel(x, l) && 1 <= j < |l.list| && Tried(x, l, j, before) && Grows(before, after)
    ensures Tried(x, l, j, after)
  {
    hide Settled, Grows;
    var a := l.list[j].id;
    var (ok, next) := StepOf(x, a, l.state);
    if ok {
      StaysSettled(x, l.open - {a}, next, before, after);
    }
  }

  lemma StackStaysTried<S, V>(x: Instance<S, V>, stack: seq<Level<S, V>>, before: Option<Longest>,
          after: Option<Longest>)
    requires x.Valid() && StackTried(x, stack, before) && Grows(before, after)
    ensures StackTried(x, stack, after)
  {
    hide OkLevel, AllTried, Grows;
    forall d | 0 <= d < |stack| ensures AllTried(x, stack[d], after) {
      LevelStaysTried(x, stack[d], before, after);
    }
  }

  /** The operations taken along the stack, in order. */
  function TakenIds<S, V>(stack: seq<Level<S, V>>): seq<int> {
    seq(|stack|, d requires 0 <= d < |stack| => TakenId(stack[d]))
  }

  function TakenId<S, V>(l: Level<S, V>): int {
    if l.at < |l.list| then l.list[l.at].id else -1
  }

  lemma TakenIsLegal<S, V>(x: Instance<S, V>, l: Level<S, V>, above: Level<S, V>, rest: seq<int>)
    requires x.Valid() && Taken(x, l, above)
    requires Legal(x.model, x.Problem(), above.open, above.state, rest)
    ensures Legal(x.model, x.Problem(), l.open, l.state, [TakenId(l)] + rest)
  {
    FrontCallIsMinimal(x, l.list, l.open, l.at);
    var order := [l.list[l.at].id] + rest;
    assert order[1..] == rest;
  }

  lemma TakenShrinks<S, V>(x: Instance<S, V>, l: Level<S, V>, above: Level<S, V>)
    requires x.Valid() && Taken(x, l, above)
    ensures above.open == l.open - {TakenId(l)} && |above.open| == |l.open| - 1
  {
    assert l.list[l.at].id in l.open;
  }

  lemma TakenIdsFrom<S, V>(stack: seq<Level<S, V>>, d: nat)
    requires d < |stack|
    ensures TakenIds(stack)[d..] == [TakenId(stack[d])] + TakenIds(stack)[d + 1..]
  {
  }

  /** The operations taken from a level on are the ones that are no longer open. */
  lemma {:induction false} PathCloses<S, V>(x: Instance<S, V>, stack: seq<Level<S, V>>, cur: Level<S, V>, d: nat)
    requires x.Valid() && IsPath(x, stack, cur) && d <= |stack|
    ensures var l := LevelAt(stack, cur, d);
      && cur.open == l.open - Elems(TakenIds(stack)[d..])
      && |cur.open| == |l.open| - (|stack| - d)
    decreases |stack| - d
  {
    if d < |stack| {
      PathCloses(x, stack, cur, d + 1);
      assert TakenAt(x, stack, cur, d);
      TakenShrinks(x, stack[d], LevelAt(stack, cur, d + 1));
      TakenIdsFrom(stack, d);
      ElemsCons(TakenId(stack[d]), TakenIds(stack)[d + 1..]);
    }
  }

  /** From any level on, the operations taken above it are a legal order. */
  lemma {:induction false} PathIsLegal<S, V>(x: Instance<S, V>, stack: seq<Level<S, V>>, cur: Level<S, V>, d: nat)
    requires x.Valid() && IsPath(x, stack, cur) && d <= |stack|
    ensures var l := LevelAt(stack, cur, d);
      Legal(x.model, x.Problem(), l.open, l.state, TakenIds(stack)[d..])
    decreases |stack| - d
  {
    if d < |stack| {
      PathIsLegal(x, stack, cur, d + 1);
      assert TakenAt(x, stack, cur, d);
      TakenIdsFrom(stack, d);
      TakenIsLegal(x, stack[d], LevelAt(stack, cur, d + 1), TakenIds(stack)[d + 1..]);
    }
  }

  // ----- termination

  /** An upper bound on the steps of a search over `open` operations. */
  function Work(open: nat): nat {
    if open == 0 then 1 else 1 + 2 * open * (1 + Work(open - 1))
  }

  /** What is left to do at a level when `entries` entries lie at or after the cursor. */
  function Rest(open: nat, entries: nat): nat {
    if open == 0 then 1 else 1 + entries * (1 + Work(open - 1))
  }

  lemma RestAdvance(open: nat, entries: nat)
    requires open > 0 && entries > 0
    ensures Rest(open, entries) == Rest(open, entries - 1) + 1 + Work(open - 1)
  {
  }

  function Left<S, V>(l: Level<S, V>, at: nat): nat {
    Rest(|l.open|, if at <= |l.list| then |l.list| - at else 0)
  }

  /** The steps that remain: at the current cursor, and after the taken call at every level below. */
  function Potential<S, V>(stack: seq<Level<S, V>>, cur: Level<S, V>): nat {
    Left(cur, cur.at) + Below(stack)
  }

  function Below<S, V>(stack: seq<Level<S, V>>): nat {
    if stack == [] then 0
    else var top := stack[|stack| - 1]; Left(top, top.at + 1) + Below(stack[..|stack| - 1])
  }

  // ----- the three moves of the search

  /** The level with the cursor past a call that has been tried. */
  lemma LevelAdvances<S, V>(x: Instance<S, V>, l: Level<S, V>, record: Option<Longest>)
    requires x.Valid() && OkLevel(x, l) && AllTried(x, l, record)
    requires l.at < |l.list| && l.list[l.at].match_ != null && Tried(x, l, l.at, record)
    ensures var next := l.(at := l.at + 1, ret := 0);
      OkLevel(x, next) && AllTried(x, next, record) && next.at < |next.list|
  {
    hide OkLevel, Tried, Settled, Lists, WellFormed, HoldsFrom;
    var next := l.(at := l.at + 1, ret := 0);
    CursorAdvances(x, l);
    LevelBounds(x, l);
    forall j | 1 <= j < next.at ensures Tried(x, next, j, record) {
      assert Tried(x, l, j, record);
      SameTried(x, l, next, j, record);
    }
  }

  lemma CursorAdvances<S, V>(x: Instance<S, V>, l: Level<S, V>)
    requires x.Valid() && OkLevel(x, l) && l.at < |l.list| && l.list[l.at].match_ != null
    ensures var next := l.(at := l.at + 1, ret := 0);
      OkLevel(x, next) && next.at < |next.list|
  {
    var r := ReturnFollows(x, l.list, l.open, l.at);
    hide Lists;
  }

  lemma SameTried<S, V>(x: Instance<S, V>, l: Level<S, V>, next: Level<S, V>, j: int, record: Option<Longest>)
    requires x.Valid() && OkLevel(x, l) && OkLevel(x, next) && 1 <= j < |l.list| && Tried(x, l, j, record)
    requires next.list == l.list && next.open == l.open && next.state == l.state
    ensures Tried(x, next, j, record)
  {
    hide Settled;
  }

  lemma LeftAdvances<S, V>(x: Instance<S, V>, l: Level<S, V>)
    requires x.Valid() && OkLevel(x, l) && l.at < |l.list|
    ensures |l.open| > 0
    ensures Left(l, l.at + 1) + 1 + Work(|l.open| - 1) == Left(l, l.at)
  {
    assert l.list[l.at].id in l.open;
    RestAdvance(|l.open|, |l.list| - l.at);
  }

  lemma PathMovesCursor<S, V>(x: Instance<S, V>, stack: seq<Level<S, V>>, cur: Level<S, V>, next: Level<S, V>)
    requires x.Valid() && IsPath(x, stack, cur) && OkLevel(x, next)
    requires next.list == cur.list && next.open == cur.open && next.state == cur.state
    ensures IsPath(x, stack, next)
  {
    hide OkLevel, WithoutBoth, StepOf;
    forall d | 0 <= d < |stack| ensures TakenAt(x, stack, next, d) {
      assert TakenAt(x, stack, cur, d);
    }
  }

  /** The level that taking the call under the cursor of `l` leads to. */
  ghost function Above<S, V>(l: Level<S, V>, state: S): Level<S, V>
    requires l.at < l.ret < |l.list|
  {
    Level(WithoutBoth(l.list, l.at, l.ret), 1, 0, l.open - {l.list[l.at].id}, state)
  }

  lemma AboveIsOk<S, V>(x: Instance<S, V>, l: Level<S, V>, state: S)
    requires x.Valid() && OkLevel(x, l) && l.at < l.ret < |l.list| && l.list[l.at].match_ == l.list[l.ret]
    ensures OkLevel(x, Above(l, state))
  {
    WithoutBothLists(x, l.list, l.open, l.at, l.ret);
    hide Lists;
  }

  lemma PathPushes<S, V>(x: Instance<S, V>, stack: seq<Level<S, V>>, cur: Level<S, V>, above: Level<S, V>)
    requires x.Valid() && IsPath(x, stack, cur) && Taken(x, cur, above) && OkLevel(x, above)
    ensures IsPath(x, stack + [cur], above)
  {
    hide OkLevel, Taken;
    var more := stack + [cur];
    forall d | 0 <= d < |more| ensures TakenAt(x, more, above, d) {
      if d < |stack| {
        assert TakenAt(x, stack, cur, d);
      }
    }
  }

  lemma PathPops<S, V>(x: Instance<S, V>, stack: seq<Level<S, V>>, cur: Level<S, V>)
    requires x.Valid() && IsPath(x, stack, cur) && stack != []
    ensures var less, top := stack[..|stack| - 1], stack[|stack| - 1];
      Taken(x, top, cur) && IsPath(x, less, top)
  {
    hide OkLevel, Taken;
    var less, top := stack[..|stack| - 1], stack[|stack| - 1];
    assert TakenAt(x, stack, cur, |stack| - 1);
    TakenIsOk(x, top, cur);
    forall d | 0 <= d < |less| ensures TakenAt(x, less, top, d) {
      assert TakenAt(x, stack, cur, d);
    }
  }

  lemma TakenIsOk<S, V>(x: Instance<S, V>, l: Level<S, V>, above: Level<S, V>)
    requires x.Valid() && Taken(x, l, above)
    ensures OkLevel(x, l)
  {
  }
}
