/** The cache of the search: looking up one bucket answers as a scan of everything cached would, a hit
    may be pruned because it is never on the current path, and the three moves of the search keep
    everything that is said of list, stack, cache and record. */
module SearchCache {
  import opened Collections
  import opened Options
  import opened Linearizability
  import opened Histories
  import opened LinkedEntries
  import opened Search
  import opened SearchLevels
  import opened Bitset

  datatype CacheEntry<S> = CacheEntry(linearized: seq<Word>, state: S)

  type Cache<S> = map<Word, seq<CacheEntry<S>>>

  function Bucket<S>(cache: Cache<S>, hash: Word): seq<CacheEntry<S>> {
    if hash in cache then cache[hash] else []
  }

  function Insert<S>(cache: Cache<S>, entry: CacheEntry<S>): Cache<S> {
    cache[Hash(entry.linearized) := Bucket(cache, Hash(entry.linearized)) + [entry]]
  }

  ghost predicate InCache<S>(cache: Cache<S>, e: CacheEntry<S>) {
    exists hash :: hash in cache && e in cache[hash]
  }

  /** What the program compares an entry by. */
  predicate Hits<S, V>(model: Model<S, V>, e: CacheEntry<S>, linearized: seq<Word>, state: S) {
    linearized == e.linearized && model.equal(state, e.state)
  }

  /** Every entry is in the bucket of its hash, and all bitsets have one length. */
  ghost predicate Bucketed<S>(cache: Cache<S>, words: nat) {
    forall hash, e :: hash in cache && e in cache[hash] ==> Hash(e.linearized) == hash && |e.linearized| == words
  }

  /** Looking into one bucket answers as a scan of all cached pairs for the same set of
      operations and an equal state would. */
  lemma BucketLookupIsScan<S, V>(model: Model<S, V>, cache: Cache<S>, linearized: seq<Word>, state: S)
    requires Bucketed(cache, |linearized|)
    ensures (exists e :: e in Bucket(cache, Hash(linearized)) && Hits(model, e, linearized, state))
       <==> (exists e :: InCache(cache, e) && Members(e.linearized) == Members(linearized) && model.equal(state, e.state))
  {
    if e :| e in Bucket(cache, Hash(linearized)) && Hits(model, e, linearized, state) {
      assert InCache(cache, e);
    }
    if e :| InCache(cache, e) && Members(e.linearized) == Members(linearized) && model.equal(state, e.state) {
      var hash :| hash in cache && e in cache[hash];
      SameWordsSameMembers(e.linearized, linearized);
      assert e in Bucket(cache, Hash(linearized)) && Hits(model, e, linearized, state);
    }
  }

  method CacheContains<S, V>(model: Model<S, V>, cache: Cache<S>, linearized: array<Word>, state: S)
    returns (found: bool)
    ensures found <==> exists e :: e in Bucket(cache, Hash(linearized[..])) && Hits(model, e, linearized[..], state)
  {
    var hash := HashOf(linearized);
    var bucket := Bucket(cache, hash);
    for i := 0 to |bucket|
      invariant forall j :: 0 <= j < i ==> !Hits(model, bucket[j], linearized[..], state)
    {
      var same := Equals(linearized, bucket[i].linearized);
      if same && model.equal(state, bucket[i].state) {
        assert bucket[i] in bucket && Hits(model, bucket[i], linearized[..], state);
        return true;
      }
    }
    return false;
  }

  // ----- what the cache knows

  /** A configuration the search is in the middle of. */
  ghost predicate OnPath<S, V>(stack: seq<Level<S, V>>, cur: Level<S, V>, open: set<int>, state: S) {
    IsLevel(cur, open, state) || exists d :: 0 <= d < |stack| && IsLevel(stack[d], open, state)
  }

  ghost predicate IsLevel<S, V>(l: Level<S, V>, open: set<int>, state: S) {
    l.open == open && l.state == state
  }

  ghost function OpenOf<S, V>(x: Instance<S, V>, linearized: seq<Word>): set<int> {
    UpTo(Size(x.history)) - Members(linearized)
  }

  /** A cached configuration is on the current path or settled. */
  ghost predicate CacheOk<S(!new), V>(x: Instance<S, V>, cache: Cache<S>, stack: seq<Level<S, V>>, cur: Level<S, V>,
          record: Option<Longest>)
    requires x.Valid()
  {
    forall e {:trigger InCache(cache, e)} :: InCache(cache, e) ==>
      OnPath(stack, cur, OpenOf(x, e.linearized), e.state) || Settled(x, OpenOf(x, e.linearized), e.state, record)
  }

  /** The invariant of the search. */
  ghost predicate SearchOk<S(!new), V>(x: Instance<S, V>, cache: Cache<S>, stack: seq<Level<S, V>>, cur: Level<S, V>,
          record: Option<Longest>) {
    && x.Valid() && IsPath(x, stack, cur)
    && AllTried(x, cur, record) && StackTried(x, stack, record)
    && CacheOk(x, cache, stack, cur, record)
  }

  lemma InsertAdds<S>(cache: Cache<S>, entry: CacheEntry<S>, words: nat)
    requires Bucketed(cache, words) && |entry.linearized| == words
    ensures Bucketed(Insert(cache, entry), words)
    ensures forall e :: InCache(Insert(cache, entry), e) ==> InCache(cache, e) || e == entry
  {
    var more := Insert(cache, entry);
    hide Hash;
    forall e | InCache(more, e) ensures InCache(cache, e) || e == entry {
      var hash :| hash in more && e in more[hash];
      if e != entry {
        assert hash in cache && e in cache[hash];
      }
    }
  }

  /** Configurations with fewer open operations than the current one are not on the path. */
  lemma SmallerIsNotOnPath<S, V>(x: Instance<S, V>, stack: seq<Level<S, V>>, cur: Level<S, V>, open: set<int>, state: S)
    requires x.Valid() && IsPath(x, stack, cur) && |open| < |cur.open|
    ensures !OnPath(stack, cur, open, state)
  {
    forall d | 0 <= d < |stack| ensures !IsLevel(stack[d], open, state) {
      PathCloses(x, stack, cur, d);
    }
  }

  lemma SameFutureIsSymmetric<S, V(!new)>(m: Model<S, V>, s: S, t: S)
    requires SameFuture(m, s, t)
    ensures SameFuture(m, t, s)
  {
  }

  /** A hit is never a configuration on the path, so it is settled: pruning is safe. */
  lemma HitIsTried<S(!new), V(!new)>(x: Instance<S, V>, cache: Cache<S>, stack: seq<Level<S, V>>, cur: Level<S, V>,
          record: Option<Longest>, e: CacheEntry<S>, linearized: seq<Word>, state: S)
    requires EqualIsSound(x.model) && SearchOk(x, cache, stack, cur, record)
    requires cur.at < |cur.list| && 0 <= cur.list[cur.at].id < Size(x.history) && cur.list[cur.at].id in cur.open
    requires StepOf(x, cur.list[cur.at].id, cur.state) == (true, state)
    requires OpenOf(x, linearized) == cur.open - {cur.list[cur.at].id}
    requires InCache(cache, e) && Hits(x.model, e, linearized, state)
    ensures Tried(x, cur, cur.at, record)
  {
    hide Settled, IsPath, AllTried, StackTried, SameFuture, OnPath;
    var open := cur.open - {cur.list[cur.at].id};
    assert |open| < |cur.open|;
    SmallerIsNotOnPath(x, stack, cur, open, e.state);
    assert SameFuture(x.model, state, e.state);
    SameFutureIsSymmetric(x.model, state, e.state);
    SettledForSameFuture(x, open, e.state, state, record);
    PathIsOk(x, stack, cur);
  }

  // ----- going past a call

  lemma CacheKeepsCursor<S(!new), V>(x: Instance<S, V>, cache: Cache<S>, stack: seq<Level<S, V>>, cur: Level<S, V>,
          next: Level<S, V>, record: Option<Longest>)
    requires x.Valid() && CacheOk(x, cache, stack, cur, record) && next.open == cur.open && next.state == cur.state
    ensures CacheOk(x, cache, stack, next, record)
  {
    hide Settled, OpenOf;
    forall e | InCache(cache, e)
      ensures OnPath(stack, next, OpenOf(x, e.linearized), e.state) || Settled(x, OpenOf(x, e.linearized), e.state, record)
    {
    }
  }

  lemma MoveOn<S(!new), V>(x: Instance<S, V>, cache: Cache<S>, stack: seq<Level<S, V>>, cur: Level<S, V>,
          record: Option<Longest>)
    requires SearchOk(x, cache, stack, cur, record)
    requires cur.at < |cur.list| && cur.list[cur.at].match_ != null && Tried(x, cur, cur.at, record)
    ensures var next := cur.(at := cur.at + 1, ret := 0);
      && SearchOk(x, cache, stack, next, record) && next.at < |next.list|
      && Potential(stack, next) < Potential(stack, cur)
  {
    hide IsPath, OkLevel, AllTried, StackTried, CacheOk, Tried, Left, Below;
    var next := cur.(at := cur.at + 1, ret := 0);
    PathIsOk(x, stack, cur);
    LevelAdvances(x, cur, record);
    PathMovesCursor(x, stack, cur, next);
    CacheKeepsCursor(x, cache, stack, cur, next, record);
    LeftAdvances(x, cur);
    SameLeft(cur, next, cur.at + 1);
  }

  lemma SameLeft<S, V>(l: Level<S, V>, next: Level<S, V>, at: nat)
    requires next.list == l.list && next.open == l.open
    ensures Left(next, at) == Left(l, at)
  {
  }

  lemma PathIsOk<S, V>(x: Instance<S, V>, stack: seq<Level<S, V>>, cur: Level<S, V>)
    requires x.Valid() && IsPath(x, stack, cur)
    ensures OkLevel(x, cur)
  {
  }

  // ----- taking a call

  lemma CachePushes<S(!new), V>(x: Instance<S, V>, cache: Cache<S>, e: CacheEntry<S>, stack: seq<Level<S, V>>,
          cur: Level<S, V>, above: Level<S, V>, taken: Level<S, V>, record: Option<Longest>)
    requires x.Valid() && CacheOk(x, cache, stack, cur, record) && Bucketed(cache, |e.linearized|)
    requires taken.open == cur.open && taken.state == cur.state
    requires above.open == OpenOf(x, e.linearized) && above.state == e.state
    ensures CacheOk(x, Insert(cache, e), stack + [taken], above, record)
  {
    InsertAdds(cache, e, |e.linearized|);
    hide Settled, OpenOf, Insert, InCache, Bucketed;
    var more := stack + [taken];
    forall f | InCache(Insert(cache, e), f)
      ensures OnPath(more, above, OpenOf(x, f.linearized), f.state) || Settled(x, OpenOf(x, f.linearized), f.state, record)
    {
      if f != e {
        assert InCache(cache, f);
        StillOnPath(stack, cur, taken, above, OpenOf(x, f.linearized), f.state);
      }
    }
  }

  lemma StillOnPath<S, V>(stack: seq<Level<S, V>>, cur: Level<S, V>, taken: Level<S, V>, above: Level<S, V>,
          open: set<int>, state: S)
    requires taken.open == cur.open && taken.state == cur.state
    ensures OnPath(stack, cur, open, state) ==> OnPath(stack + [taken], above, open, state)
  {
    var more := stack + [taken];
    if IsLevel(cur, open, state) {
      assert IsLevel(more[|stack|], open, state);
    } else if d :| 0 <= d < |stack| && IsLevel(stack[d], open, state) {
      assert IsLevel(more[d], open, state);
    }
  }

  lemma MovePush<S(!new), V>(x: Instance<S, V>, cache: Cache<S>, e: CacheEntry<S>, stack: seq<Level<S, V>>,
          cur: Level<S, V>, r: nat, record: Option<Longest>)
    requires SearchOk(x, cache, stack, cur, record)
    requires cur.at < r < |cur.list| && cur.list[cur.at].match_ == cur.list[r]
    requires 0 <= cur.list[cur.at].id < Size(x.history) && StepOf(x, cur.list[cur.at].id, cur.state) == (true, e.state)
    requires OpenOf(x, e.linearized) == cur.open - {cur.list[cur.at].id}
    requires Bucketed(cache, |e.linearized|)
    ensures var taken := cur.(ret := r);
      var above := Above(taken, e.state);
      && SearchOk(x, Insert(cache, e), stack + [taken], above, record)
      && Potential(stack + [taken], above) < Potential(stack, cur)
  {
    hide IsPath, AllTried, StackTried, CacheOk, Insert, OpenOf, StepOf, Lists, WithoutBoth;
    var taken := cur.(ret := r);
    var above := Above(taken, e.state);
    PathIsOk(x, stack, cur);
    AboveIsOk(x, taken, e.state);
    CursorIsOpen(x, cur);
    PathMovesCursor(x, stack, cur, taken);
    PathPushes(x, stack, taken, above);
    TriedPushes(x, stack, cur, taken, above, record);
    CachePushes(x, cache, e, stack, cur, above, taken, record);
    PotentialPushes(x, stack, cur, taken, above);
  }

  lemma CursorIsOpen<S, V>(x: Instance<S, V>, l: Level<S, V>)
    requires x.Valid() && OkLevel(x, l) && l.at < |l.list|
    ensures l.list[l.at].id in l.open
  {
  }

  lemma TriedPushes<S, V>(x: Instance<S, V>, stack: seq<Level<S, V>>, cur: Level<S, V>, taken: Level<S, V>,
          above: Level<S, V>, record: Option<Longest>)
    requires x.Valid() && OkLevel(x, cur) && OkLevel(x, taken) && OkLevel(x, above) && above.at == 1
    requires AllTried(x, cur, record) && StackTried(x, stack, record) && taken == cur.(ret := taken.ret)
    ensures AllTried(x, above, record) && StackTried(x, stack + [taken], record)
  {
    hide OkLevel, Tried;
    LevelBounds(x, cur);
    forall j | 1 <= j < taken.at ensures Tried(x, taken, j, record) {
      assert Tried(x, cur, j, record);
      SameTried(x, cur, taken, j, record);
    }
    assert AllTried(x, taken, record);
  }

  lemma PotentialPushes<S, V>(x: Instance<S, V>, stack: seq<Level<S, V>>, cur: Level<S, V>, taken: Level<S, V>,
          above: Level<S, V>)
    requires x.Valid() && OkLevel(x, cur) && cur.at < |cur.list| && taken == cur.(ret := taken.ret)
    requires OkLevel(x, above) && above.at == 1 && cur.list[cur.at].id in cur.open
    requires above.open == cur.open - {cur.list[cur.at].id}
    ensures Potential(stack + [taken], above) < Potential(stack, cur)
  {
    AboveIsOkSize(x, above);
    hide OkLevel;
    var more := stack + [taken];
    assert more[..|more| - 1] == stack;
    LeftAdvances(x, cur);
    SameLeft(cur, taken, cur.at + 1);
    FreshLevel(above);
    hide Left, Work;
    assert |above.open| == |cur.open| - 1;
  }

  lemma AboveIsOkSize<S, V>(x: Instance<S, V>, l: Level<S, V>)
    requires x.Valid() && OkLevel(x, l)
    ensures |l.list| == 2 * |l.open| + 1
  {
    ListSize(x, l.list, l.open);
  }

  /** A fresh level has all of its own work before it. */
  lemma FreshLevel<S, V>(l: Level<S, V>)
    requires |l.list| == 2 * |l.open| + 1 && l.at == 1
    ensures Left(l, l.at) == Work(|l.open|)
  {
  }

  // ----- taking a call back

  /** What is on the path above a level is the current configuration or below it. */
  lemma PathShrinks<S, V>(stack: seq<Level<S, V>>, cur: Level<S, V>, open: set<int>, state: S)
    requires stack != []
    ensures OnPath(stack, cur, open, state) ==>
      IsLevel(cur, open, state) || OnPath(stack[..|stack| - 1], stack[|stack| - 1], open, state)
  {
    var less, top := stack[..|stack| - 1], stack[|stack| - 1];
    if d :| 0 <= d < |stack| && IsLevel(stack[d], open, state) {
      if d < |less| {
        assert IsLevel(less[d], open, state);
      }
    }
  }

  lemma CachePops<S(!new), V>(x: Instance<S, V>, cache: Cache<S>, stack: seq<Level<S, V>>, cur: Level<S, V>,
          before: Option<Longest>, record: Option<Longest>)
    requires x.Valid() && CacheOk(x, cache, stack, cur, before) && Grows(before, record) && stack != []
    requires Settled(x, cur.open, cur.state, record)
    ensures CacheOk(x, cache, stack[..|stack| - 1], stack[|stack| - 1], record)
  {
    hide Settled, OpenOf, Grows, InCache;
    var less, top := stack[..|stack| - 1], stack[|stack| - 1];
    forall e | InCache(cache, e)
      ensures OnPath(less, top, OpenOf(x, e.linearized), e.state) || Settled(x, OpenOf(x, e.linearized), e.state, record)
    {
      var open := OpenOf(x, e.linearized);
      PathShrinks(stack, cur, open, e.state);
      if Settled(x, open, e.state, before) {
        StaysSettled(x, open, e.state, before, record);
      }
    }
  }

  lemma TopIsTried<S, V>(x: Instance<S, V>, stack: seq<Level<S, V>>, cur: Level<S, V>, record: Option<Longest>)
    requires x.Valid() && stack != [] && Taken(x, stack[|stack| - 1], cur) && Settled(x, cur.open, cur.state, record)
    ensures var top := stack[|stack| - 1]; Tried(x, top, top.at, record)
  {
    hide Settled;
  }

  lemma MovePop<S(!new), V>(x: Instance<S, V>, cache: Cache<S>, stack: seq<Level<S, V>>, cur: Level<S, V>,
          before: Option<Longest>, record: Option<Longest>)
    requires SearchOk(x, cache, stack, cur, before) && Grows(before, record)
    requires cur.at < |cur.list| && cur.list[cur.at].match_ == null && stack != []
    requires record.Some? ==> Covers(record.value, Size(x.history), cur.open, [])
    ensures var less, top := stack[..|stack| - 1], stack[|stack| - 1];
      var next := top.(at := top.at + 1, ret := 0);
      && Taken(x, top, cur)
      && SearchOk(x, cache, less, next, record) && next.at < |next.list|
      && Potential(less, next) < Potential(stack, cur)
  {
    hide IsPath, OkLevel, AllTried, StackTried, CacheOk, Tried, Taken, Covers, Grows, Settled;
    var less, top := stack[..|stack| - 1], stack[|stack| - 1];
    PathIsOk(x, stack, cur);
    LevelStaysTried(x, cur, before, record);
    StackStaysTried(x, stack, before, record);
    LevelIsSettled(x, cur, record);
    PathPops(x, stack, cur);
    TopIsTried(x, stack, cur, record);
    CachePops(x, cache, stack, cur, before, record);
    TakenIsCall(x, top, cur);
    TopOfStack(x, stack, record);
    MoveOn(x, cache, less, top, record);
    PotentialPops(stack, cur);
  }

  lemma TopOfStack<S, V>(x: Instance<S, V>, stack: seq<Level<S, V>>, record: Option<Longest>)
    requires x.Valid() && StackTried(x, stack, record) && stack != []
    ensures var less, top := stack[..|stack| - 1], stack[|stack| - 1];
      OkLevel(x, top) && AllTried(x, top, record) && StackTried(x, less, record)
  {
    hide OkLevel, AllTried;
  }

  lemma PotentialPops<S, V>(stack: seq<Level<S, V>>, cur: Level<S, V>)
    requires stack != []
    ensures var less, top := stack[..|stack| - 1], stack[|stack| - 1];
      Potential(less, top.(at := top.at + 1, ret := 0)) < Potential(stack, cur)
  {
  }

  lemma TakenIsCall<S, V>(x: Instance<S, V>, l: Level<S, V>, above: Level<S, V>)
    requires x.Valid() && Taken(x, l, above)
    ensures l.at < |l.list| && l.list[l.at].match_ != null
  {
  }
}
