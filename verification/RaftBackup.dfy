/** Fast log backup: with a leader and one follower talking and nobody else moving, refusals bring the
    leader's `nextIndex` to a place where the logs agree, in finitely many rounds. */
module RaftBackup {
  import opened RaftLog
  import opened RaftCore
  import opened RaftCoreSteps
  import opened RaftServer
  import opened RaftSystem
  import opened RaftSystemSteps
  import opened RaftReplication
  import opened RaftCommit
  import opened RaftCommitSteps
  import opened RaftSafety
  import opened RaftNextIndex

  datatype Outcome = Refused | Replicated | Snapshot | Panic

  /** One request of leader `o` to follower `f`, server `k`, its answer, and what the leader makes of it. */
  function Round(o: Server, f: Server, k: int): (r: (Server, Server, Outcome))
    requires 0 <= k < o.n == |o.next| == |o.match_|
    ensures r.0.n == o.n == |r.0.next| == |r.0.match_|
  {
    if NeedsSnapshot(o, k) then (o, f, Snapshot)
    else if !Readable(o, o.next[k] - 1) then (o, f, Panic)
    else
      var a := MakeAppendArgs(o, k);
      var (d, r) := AppendEntries(f, a);
      (HandleAppendReply(o, k, a, r), d, if r.success then Replicated else Refused)
  }

  /** As many rounds as it takes, but no more than `m`. */
  function Rounds(o: Server, f: Server, k: int, m: nat): (r: (Server, Server, Outcome))
    requires 0 <= k < o.n == |o.next| == |o.match_|
    ensures r.0.n == o.n == |r.0.next| == |r.0.match_|
    decreases m
  {
    if m == 0 then (o, f, Refused)
    else
      var (e, d, out) := Round(o, f, k);
      if out == Refused then Rounds(e, d, k, m - 1) else (e, d, out)
  }

  /** The leader's snapshot request, its answer, and what the leader makes of it. */
  function HandOver(o: Server, f: Server, k: int): (r: (Server, Server))
    requires 0 <= k < o.n == |o.next| == |o.match_|
    ensures r.0.n == o.n == |r.0.next| == |r.0.match_|
  {
    var a := MakeInstallArgs(o);
    var (d, t) := InstallSnapshot(f, a);
    (HandleInstallReply(o, k, a, t), d)
  }

  /** All it takes: rounds, and where these end at the snapshot, handing that over and two more. */
  function Backup(o: Server, f: Server, k: int): (Server, Server, Outcome)
    requires 0 <= k < o.n == |o.next| == |o.match_|
  {
    var (e, d, out) := Rounds(o, f, k, |Full(o)| + 2);
    if out != Snapshot then (e, d, out)
    else
      var (l, g) := HandOver(e, d, k);
      Rounds(l, g, k, 2)
  }

  // ----- what a run guarantees of a leader and a follower

  /** Where both logs have entries of one term, they agree as far as the shorter run goes. */
  ghost predicate SameRuns(a: Log, b: Log) {
    forall i, j {:trigger a[i], b[j]} :: 0 <= j <= i < |a| && j < |b| && a[i].term == b[j].term ==>
      a[..j + 1] == b[..j + 1]
  }

  ghost predicate Pair(o: Server, f: Server, s: int, k: int, n: nat) {
    && Shape(o, s, n) && Shape(f, k, n) && s != k && o.role == Leader
    && (f.term < o.term || (f.term == o.term && f.role != Leader))
    && SameRuns(Full(o), Full(f))
    && f.base < |Full(o)| && Full(o)[f.base] == Full(f)[f.base]
    && o.next[k] <= |Full(o)|
  }

  lemma CoherentRuns(c: Core, a: Log, b: Log)
    requires Coherent(c, a) && Coherent(c, b)
    ensures SameRuns(a, b)
  {
    forall i, j | 0 <= j <= i < |a| && j < |b| && a[i].term == b[j].term ensures a[..j + 1] == b[..j + 1] {
      if j > 0 {
        assert StartsLeader(c, a[i].term, a[..i + 1]) && StartsLeader(c, b[j].term, b[..j + 1]);
        var l := c.leaders[b[j].term].log;
        assert a[..j + 1] == l[..j + 1] && b[..j + 1] == l[..j + 1];
      } else {
        assert a[..1] == [DUMMY] == b[..1];
      }
    }
  }

  /** Any leader and any server that is not ahead of it form such a pair, in every state of a run in
      which no late reply does harm or sends the leader past its log. */
  lemma LeaderAndFollower(x: System, s: int, k: int)
    requires Strong(x) && NextInv(x) && Has(x, s) && Has(x, k) && s != k && x.servers[s].role == Leader
    requires x.servers[k].term <= x.servers[s].term
    ensures Pair(x.servers[s], x.servers[k], s, k, x.core.n)
  {
    hide Strong, CommitOk, Inv, SysInv, Coherent, Full, Chosen, SameRuns, TermsUpTo;
    var o, f := x.servers[s], x.servers[k];
    StrongServer(x, s);
    StrongServer(x, k);
    ServerAt(x, s);
    ServerAt(x, k);
    LeaderLog(x.core, o, s);
    CommitFacts(x.core, f);
    NextBound(o, s, x.core.n);
    CoherentRuns(x.core, Full(o), Full(f));
    ChosenStartsLeader(x.core, Full(f)[..f.commit + 1], f.term, o.term);
    var p := Full(f)[..f.commit + 1];
    assert p[f.base] == Full(o)[f.base];
  }

  lemma NextBound(o: Server, s: int, n: nat)
    requires Shape(o, s, n) && o.role == Leader && NextOk(o)
    ensures |o.next| == n && forall i :: 0 <= i < n ==> o.next[i] <= |Full(o)|
  {
    forall i | 0 <= i < n ensures o.next[i] <= |Full(o)| {
      assert Readable(o, o.next[i] - 1);
    }
  }

  // ----- one round

  /** How far the leader may still have to go: not at all just behind the follower's snapshot. */
  function Distance(next: int, base: int): nat {
    if next - 1 == base then 0 else if next - 1 < base then 1 else next - base + 1
  }

  lemma {:induction false} LastOfTermIs(log: Log, term: int)
    ensures -1 <= LastOfTerm(log, term) < |log|
    ensures LastOfTerm(log, term) >= 0 ==> log[LastOfTerm(log, term)].term == term
  {
    if log != [] && log[|log| - 1].term != term {
      LastOfTermIs(log[..|log| - 1], term);
    }
  }

  /** The leader's last entry of the conflicting term lies below the place that was refused. */
  lemma ConflictLiesBelow(o: Server, f: Server, s: int, k: int, n: nat, prev: int)
    requires Pair(o, f, s, k, n) && o.base <= prev <= LastIndex(o) && f.base <= prev <= LastIndex(f)
    requires LogTerm(f, prev) != LogTerm(o, prev)
    ensures prev > f.base
    ensures LastOfTerm(o.log, LogTerm(f, prev)) + o.base < prev
    ensures ScanBack(f, prev, LogTerm(f, prev)) < prev
  {
    hide Full, LastOfTerm, ScanBack, SameRuns;
    FullFacts(o, s, n);
    FullFacts(f, k, n);
    hide Shape;
    var t := LogTerm(f, prev);
    LastOfTermIs(o.log, t);
    var slot := LastOfTerm(o.log, t);
    if slot >= 0 {
      SlotTerm(o, s, n, slot);
      RunsBelow(Full(o), Full(f), slot + o.base, prev);
    }
    assert prev > f.base;
    ScanBackStep(f, prev);
  }

  lemma SlotTerm(o: Server, s: int, n: nat, slot: nat)
    requires Shape(o, s, n) && slot < |o.log|
    ensures slot + o.base < |Full(o)| && Full(o)[slot + o.base].term == o.log[slot].term
  {
    FullFacts(o, s, n);
    hide Full;
    assert LogTerm(o, slot + o.base) == o.log[slot].term;
  }

  lemma RunsBelow(a: Log, b: Log, i: int, j: int)
    requires SameRuns(a, b) && 0 <= i < |a| && 0 <= j < |a| && j < |b| && a[i].term == b[j].term
    ensures i < j || a[j].term == b[j].term
  {
    if j <= i {
      assert a[..j + 1] == b[..j + 1];
      assert a[..j + 1][j] == b[..j + 1][j];
    }
  }

  lemma ScanBackStep(f: Server, prev: int)
    requires prev > f.base && Readable(f, prev)
    ensures ScanBack(f, prev, LogTerm(f, prev)) < prev
  {
    ScanBackBound(f, prev - 1, LogTerm(f, prev));
  }

  ghost predicate SameButNext(o: Server, e: Server, k: int) {
    |e.next| == |o.next| && e == o.(next := e.next)
  }

  /** A refusal brings the leader strictly closer, and otherwise changes neither log. */
  lemma RoundProgress(o: Server, f: Server, s: int, k: int, n: nat)
    requires Pair(o, f, s, k, n)
    ensures var (e, d, out) := Round(o, f, k);
      && out != Panic
      && (out == Refused ==> Pair(e, d, s, k, n) && Distance(e.next[k], d.base) < Distance(o.next[k], f.base)
                             && SameButNext(o, e, k) && d.base == f.base && Full(d) == Full(f) && Persisted(d))
      && (out == Snapshot ==> o.next[k] - 1 < o.base && e == o && d == f)
      && (out == Replicated ==> Full(o) <= Full(d))
  {
    FullFacts(o, s, n);
    if !NeedsSnapshot(o, k) {
      AppendArgsFacts(o, s, n, k);
      var a := MakeAppendArgs(o, k);
      if AppendEntries(f, a).1.success {
        RoundAccepts(o, f, s, k, n);
      } else {
        RoundRefuses(o, f, s, k, n);
      }
    }
    hide Full, Shape, SameRuns, AppendEntries, HandleAppendReply, MakeAppendArgs;
  }

  lemma FollowerStays(f: Server, k: int, n: nat, a: AppendArgs)
    requires Shape(f, k, n) && !AppendEntries(f, a).1.success
    ensures var d := AppendEntries(f, a).0;
      && Shape(d, k, n) && Full(d) == Full(f) && d.base == f.base && Persisted(d)
      && (a.term > f.term || (a.term == f.term && f.role != Leader) ==> d.term == a.term && d.role != Leader)
  {
    hide ScanBack;
  }

  /** What a refusal says when the request is not of an older term. */
  lemma Hint(f: Server, a: AppendArgs)
    requires |f.log| >= 1 && (a.term > f.term || (a.term == f.term && f.role != Leader))
    requires !AppendEntries(f, a).1.success
    ensures var r := AppendEntries(f, a).1;
      && r.term == a.term
      && (a.prevIndex < f.base ==> r.conflictTerm == -1 && r.conflictIndex == f.base + 1)
      && (a.prevIndex > LastIndex(f) ==> r.conflictTerm == -1 && r.conflictIndex == LastIndex(f) + 1)
      && (f.base <= a.prevIndex <= LastIndex(f) ==>
            && r.conflictTerm == LogTerm(f, a.prevIndex) != a.prevTerm
            && r.conflictIndex == ScanBack(f, a.prevIndex, LogTerm(f, a.prevIndex)) + 1)
  {
    if f.base <= a.prevIndex <= LastIndex(f) {
      var b := if a.term > f.term then StepDown(f, a.term) else f;
      var t := LogTerm(f, a.prevIndex);
      ScanBackSame(f, b, a.prevIndex, t);
      ScanBackSame(f, b.(role := Follower), a.prevIndex, t);
      hide ScanBack;
    }
  }

  lemma RoundRefuses(o: Server, f: Server, s: int, k: int, n: nat)
    requires Pair(o, f, s, k, n) && !NeedsSnapshot(o, k) && Readable(o, o.next[k] - 1)
    requires !AppendEntries(f, MakeAppendArgs(o, k)).1.success
    ensures var (e, d, out) := Round(o, f, k);
      && out == Refused && Pair(e, d, s, k, n) && Distance(e.next[k], d.base) < Distance(o.next[k], f.base)
      && SameButNext(o, e, k) && d.base == f.base && Full(d) == Full(f) && Persisted(d)
  {
    hide Full, SameRuns, AppendEntries, MakeAppendArgs, ScanBack, LastOfTerm, Persisted;
    var a := MakeAppendArgs(o, k);
    var prev := o.next[k] - 1;
    AppendArgsFacts(o, s, n, k);
    FullFacts(o, s, n);
    FullFacts(f, k, n);
    Hint(f, a);
    FollowerStays(f, k, n, a);
    if f.base <= prev <= LastIndex(f) {
      ConflictLiesBelow(o, f, s, k, n, prev);
    }
    var (e, d, out) := Round(o, f, k);
    SameLog(o, e, s, n);
  }

  lemma RoundAccepts(o: Server, f: Server, s: int, k: int, n: nat)
    requires Pair(o, f, s, k, n) && !NeedsSnapshot(o, k) && Readable(o, o.next[k] - 1)
    requires AppendEntries(f, MakeAppendArgs(o, k)).1.success
    ensures Round(o, f, k).2 == Replicated && Full(o) <= Full(Round(o, f, k).1)
  {
    hide Full, AppendEntries, MakeAppendArgs, SameRuns, Matching, Merge, Adopt, HandleAppendReply, Segment;
    var a := MakeAppendArgs(o, k);
    SentTail(o, s, n, k);
    AcceptedLog(f, k, n, a);
    RunsMatch(Full(o), Full(f));
    TailAdopted(Full(o), Full(f), a.prevIndex, a.entries);
  }

  /** Merging in everything after a place where the logs agree leaves the leader's whole log. */
  lemma TailAdopted(l: Log, g: Log, prev: nat, entries: seq<Entry>)
    requires Matching(g, l) && prev < |g| && prev < |l| && g[prev].term == l[prev].term
    requires prev + |entries| == |l| - 1 && Segment(l, prev + 1, entries)
    ensures l <= Merge(g, prev + 1, entries)
  {
    hide Matching, Merge, Adopt, Segment;
    MergeAtMatch(g, l, prev, entries);
    AdoptWhole(l, g, prev + 1 + |entries|);
  }

  lemma AdoptWhole(l: Log, g: Log, m: nat)
    requires m == |l|
    ensures l <= Adopt(g, l[..m])
  {
    assert l[..m] == l;
  }

  lemma SentTail(o: Server, s: int, n: nat, k: int)
    requires Shape(o, s, n) && 0 <= k < n && !NeedsSnapshot(o, k) && Readable(o, o.next[k] - 1)
    ensures var a, l := MakeAppendArgs(o, k), Full(o);
      && 0 <= o.base <= a.prevIndex && a.prevIndex + |a.entries| == |l| - 1 && l[a.prevIndex].term == a.prevTerm
      && Segment(l, a.prevIndex + 1, a.entries)
  {
    AppendArgsFacts(o, s, n, k);
    hide Full, MakeAppendArgs;
  }

  lemma RunsMatch(a: Log, b: Log)
    requires SameRuns(a, b)
    ensures Matching(b, a)
  {
    forall i | 0 <= i < |b| && i < |a| && b[i].term == a[i].term ensures b[..i + 1] == a[..i + 1] {
      MatchUpTo(a, b, i);
    }
  }

  lemma MatchUpTo(a: Log, b: Log, i: nat)
    requires SameRuns(a, b) && i < |a| && i < |b| && a[i].term == b[i].term
    ensures b[..i + 1] == a[..i + 1]
  {
  }

  lemma AcceptedLog(f: Server, k: int, n: nat, a: AppendArgs)
    requires Shape(f, k, n) && AppendEntries(f, a).1.success && a.prevIndex >= 0
    ensures a.prevIndex < |Full(f)| && Full(f)[a.prevIndex].term == a.prevTerm
    ensures Full(AppendEntries(f, a).0) == Merge(Full(f), a.prevIndex + 1, a.entries)
  {
    var b := if a.term > f.term then StepDown(f, a.term) else f;
    var c := if b.role == Candidate then b.(role := Follower) else b;
    hide Full, Merge, Accepted, LastTerm;
    FullFacts(f, k, n);
    SameLog(f, c, k, n);
    AcceptedFacts(c, k, n, a);
    hide Shape;
  }

  // ----- all the rounds it takes

  /** Never more rounds than there are places to try: the follower then holds the leader's whole log,
      or the leader is about to send its snapshot. */
  lemma {:induction false} CatchesUp(o: Server, f: Server, s: int, k: int, n: nat, m: nat)
    requires Pair(o, f, s, k, n) && m > Distance(o.next[k], f.base)
    ensures var (e, d, out) := Rounds(o, f, k, m);
      && (out == Replicated || out == Snapshot)
      && (out == Replicated ==> Full(o) <= Full(d))
      && (out == Snapshot ==>
            && Pair(e, d, s, k, n) && e.next[k] - 1 < e.base && SameButNext(o, e, k) && d.base == f.base
            && (Persisted(f) ==> Persisted(d)))
    decreases m
  {
    hide Shape, SameRuns, Round, Full, Persisted;
    PairNext(o, f, s, k, n);
    RoundProgress(o, f, s, k, n);
    var (e, d, out) := Round(o, f, k);
    if out == Refused {
      PairNext(e, d, s, k, n);
      SameFull(o, e);
      CatchesUp(e, d, s, k, n, m - 1);
    }
  }

  lemma PairNext(o: Server, f: Server, s: int, k: int, n: nat)
    requires Pair(o, f, s, k, n)
    ensures 0 <= k < n == o.n == |o.next| == |o.match_|
  {
  }

  // ----- handing over to a snapshot

  lemma PrefixRuns(a: Log, m: nat)
    requires m <= |a|
    ensures SameRuns(a, a[..m])
  {
    forall i, j | 0 <= j <= i < |a| && j < |a[..m]| && a[i].term == a[..m][j].term
      ensures a[..j + 1] == a[..m][..j + 1]
    {
    }
  }

  /** With the snapshot in place the logs still go together, at the snapshot at the latest. */
  lemma InstalledRuns(l: Log, g: Log, a: InstallArgs)
    requires SameRuns(l, g) && 0 <= a.lastIndex < |l| && a.data == l[..a.lastIndex + 1]
    requires a.lastTerm == l[a.lastIndex].term
    ensures var h := InstallLog(g, a); SameRuns(l, h) && a.lastIndex < |h| && h[a.lastIndex] == l[a.lastIndex]
  {
    hide SameRuns;
    if a.lastIndex < |g| && g[a.lastIndex].term == a.lastTerm {
      MatchUpTo(l, g, a.lastIndex);
      HasSnapshot(g, a);
      assert l[..a.lastIndex + 1][a.lastIndex] == g[..a.lastIndex + 1][a.lastIndex];
    } else {
      PrefixRuns(l, a.lastIndex + 1);
    }
  }

  lemma HasSnapshot(g: Log, a: InstallArgs)
    requires 0 <= a.lastIndex < |g| && g[a.lastIndex].term == a.lastTerm && a.data == g[..a.lastIndex + 1]
    ensures InstallLog(g, a) == g
  {
    assert g == g[..a.lastIndex + 1] + g[a.lastIndex + 1..];
  }

  lemma HandOverLeader(o: Server, k: int, a: InstallArgs, t: int)
    requires 0 <= k < o.n == |o.next| == |o.match_| && o.role == Leader && a.term == o.term && t <= o.term
    ensures var e := HandleInstallReply(o, k, a, t);
      && e == o.(next := e.next, match_ := e.match_, commit := e.commit) && |e.next| == |o.next| && |e.match_| == |o.match_|
      && e.next[k] == if o.next[k] < a.lastIndex + 1 then a.lastIndex + 1 else o.next[k]
  {
    hide CommitFrom;
  }

  lemma HandOverFollower(f: Server, k: int, n: nat, a: InstallArgs)
    requires ServerOk(f, k, n) && (f.term < a.term || (f.term == a.term && f.role != Leader))
    requires a.lastIndex >= 0 && |a.data| == a.lastIndex + 1 && a.lastTerm == a.data[a.lastIndex].term
    ensures var (d, t) := InstallSnapshot(f, a);
      && ServerOk(d, k, n) && t == a.term == d.term && d.role != Leader
      && d.base == (if a.lastIndex > f.base then a.lastIndex else f.base)
      && Full(d) == (if a.lastIndex > f.base then InstallLog(Full(f), a) else Full(f))
  {
    InstallFacts(f, k, n, a);
    hide InstallLog, Full, ServerOk;
    if a.lastIndex > f.base {
      InstalledIndexes(f, a) by { LogNonempty(f, k, n); }
    } else {
      NotInstalledIndexes(f, a) by { LogNonempty(f, k, n); }
    }
  }

  lemma LogNonempty(f: Server, k: int, n: nat)
    requires ServerOk(f, k, n)
    ensures |f.log| >= 1
  {
  }

  lemma HandOverPair(o: Server, f: Server, s: int, k: int, n: nat)
    requires Pair(o, f, s, k, n) && Persisted(f) && o.next[k] - 1 < o.base
    ensures var (e, d) := HandOver(o, f, k);
      Pair(e, d, s, k, n) && e.next[k] == e.base + 1 && d.base >= e.base && Full(e) == Full(o)
  {
    hide SameRuns, InstallSnapshot, HandleInstallReply, InstallLog, Full;
    var a := MakeInstallArgs(o);
    var (d, t) := InstallSnapshot(f, a);
    FullFacts(o, s, n);
    HandOverFollower(f, k, n, a);
    HandOverLeader(o, k, a, t);
    if a.lastIndex > f.base {
      InstalledRuns(Full(o), Full(f), a);
    }
    SameLog(o, HandleInstallReply(o, k, a, t), s, n);
  }

  /** After handing over its snapshot the leader needs at most two more rounds. */
  lemma SnapshotThenReplicated(o: Server, f: Server, s: int, k: int, n: nat)
    requires Pair(o, f, s, k, n) && Persisted(f) && o.next[k] - 1 < o.base
    ensures 0 <= k < HandOver(o, f, k).0.n == |HandOver(o, f, k).0.next| == |HandOver(o, f, k).0.match_|
    ensures var (e, d) := HandOver(o, f, k);
      var (e', d', out) := Rounds(e, d, k, 2);
      out == Replicated && Full(o) <= Full(d')
  {
    hide SameRuns, HandOver, Full, Round, Shape;
    PairNext(o, f, s, k, n);
    HandOverPair(o, f, s, k, n);
    var (e, d) := HandOver(o, f, k);
    PairNext(e, d, s, k, n);
    RoundProgress(e, d, s, k, n);
    var (e1, d1, out) := Round(e, d, k);
    if out == Refused {
      PairNext(e1, d1, s, k, n);
      SameFull(e, e1);
      RoundProgress(e1, d1, s, k, n);
      assert Rounds(e, d, k, 2) == Rounds(e1, d1, k, 1);
    }
  }

  lemma DistanceBound(o: Server, f: Server, s: int, k: int, n: nat)
    requires Pair(o, f, s, k, n)
    ensures Distance(o.next[k], f.base) < |Full(o)| + 2
  {
  }

  /** A leader left alone with a follower that is not ahead of it replicates its whole log, in no more
      rounds than its log is long, or its snapshot first and the rest in two more. */
  lemma PairFinishes(o: Server, f: Server, s: int, k: int, n: nat)
    requires Pair(o, f, s, k, n) && Persisted(f)
    ensures 0 <= k < o.n == |o.next| == |o.match_|
    ensures var (e, d, out) := Backup(o, f, k); out == Replicated && Full(o) <= Full(d)
  {
    hide Full, SameRuns, Shape, Rounds, Persisted, HandOver;
    PairNext(o, f, s, k, n);
    DistanceBound(o, f, s, k, n);
    CatchesUp(o, f, s, k, n, |Full(o)| + 2);
    var (e, d, out) := Rounds(o, f, k, |Full(o)| + 2);
    if out == Snapshot {
      SameFull(o, e);
      SnapshotThenReplicated(e, d, s, k, n);
    }
  }

  /** So it is for every leader and every server not ahead of it, in every state of a run in which no
      late reply does harm or sends a leader past its log. */
  lemma BackupFinishes(xs: seq<System>, es: seq<Event>, i: nat, s: int, k: int)
    requires Run(xs, es) && NoHarm(xs, es) && RepliesKeepNext(xs, es) && i < |xs|
    requires Has(xs[i], s) && Has(xs[i], k) && s != k
    requires xs[i].servers[s].role == Leader && xs[i].servers[k].term <= xs[i].servers[s].term
    ensures var o, f := xs[i].servers[s], xs[i].servers[k];
      && 0 <= k < o.n == |o.next| == |o.match_|
      && var (e, d, out) := Backup(o, f, k);
         out == Replicated && Full(o) <= Full(d)
  {
    hide Strong, Full, SameRuns, Shape, Backup, NextInv, SysInv, Init;
    RunStrong(xs, es, i);
    RunNext(xs, es, i);
    LeaderAndFollower(xs[i], s, k);
    StrongServer(xs[i], k);
    ServerAt(xs[i], k);
    PairFinishes(xs[i].servers[s], xs[i].servers[k], s, k, xs[i].core.n);
  }
}
