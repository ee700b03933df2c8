/** Every step of the cluster is a step of Raft on uncompacted logs, or leaves those as they are: the
    replication, snapshot, restart and delivery steps. The lemmas named `Facts` say what a handler that
    works on the offset slice does to the full log, for any arguments; the lemmas named `Keeps` use them
    to show that the step keeps the invariant of every run. */
module RaftReplication {
  import opened Options
  import opened RaftLog
  import opened RaftCore
  import opened RaftCoreSteps
  import opened RaftServer
  import opened RaftSystem
  import opened RaftSystemSteps

  // ----- sending

  /** The entries sent from the offset slice are those of the full log. */
  lemma AppendArgsFacts(o: Server, me: int, n: nat, to: int)
    requires Shape(o, me, n) && 0 <= to < n && !NeedsSnapshot(o, to) && Readable(o, o.next[to] - 1)
    ensures var a, f := MakeAppendArgs(o, to), Full(o);
      && a.term == o.term && a.leader == me && a.commit == o.commit && a.prevIndex == o.next[to] - 1
      && o.base <= a.prevIndex && a.prevIndex + |a.entries| == |f| - 1
      && f[a.prevIndex].term == a.prevTerm
      && f[a.prevIndex + 1..a.prevIndex + 1 + |a.entries|] == a.entries
  {
    FullFacts(o, me, n);
    var a, f := MakeAppendArgs(o, to), Full(o);
    if LastIndex(o) > a.prevIndex {
      assert a.entries == o.log[1..][a.prevIndex - o.base..];
      assert f[a.prevIndex + 1..] == f[o.base + 1..][a.prevIndex - o.base..];
    }
  }

  lemma SendAppendKeeps(x: System, y: System, s: int, to: int)
    requires SysInv(x) && SendAppend(x, y, s, to)
    ensures SysInv(y) && Grows(x.core, y.core)
  {
    hide ServerOk, Full, Inv, Grows, SysInv, PeerOk, CountOk, NetOk, MakeAppendArgs;
    var o := x.servers[s];
    ServerAt(x, s);
    SentOk(x.core, o, s, to);
    var m := AppendReqMsg(to, MakeAppendArgs(o, to));
    OneMsg(x.core, m);
    GrowsRefl(x.core);
    Assemble(x, y, s, o, x.core, {m});
  }

  lemma SentOk(c: Core, o: Server, s: int, to: int)
    requires IsPeer(c, s) && PeerOk(c, s) && c.peers[s] == PeerOf(o) && o.role == Leader && Shape(o, s, c.n)
    requires to != s && 0 <= to < c.n && !NeedsSnapshot(o, to) && Readable(o, o.next[to] - 1)
    ensures AppendReqOk(c, to, MakeAppendArgs(o, to))
  {
    AppendArgsFacts(o, s, c.n, to);
    hide Full, MakeAppendArgs, Coherent, TermsUpTo;
  }

  lemma SendInstallKeeps(x: System, y: System, s: int, to: int)
    requires SysInv(x) && SendInstall(x, y, s, to)
    ensures SysInv(y) && Grows(x.core, y.core)
  {
    var o := x.servers[s];
    ServerAt(x, s);
    FullFacts(o, s, x.core.n);
    var m := InstallReqMsg(to, MakeInstallArgs(o));
    assert MsgOk(x.core, m);
    hide ServerOk, Full, Inv, Grows, SysInv, PeerOk, CountOk, NetOk;
    OneMsg(x.core, m);
    GrowsRefl(x.core);
    Assemble(x, y, s, o, x.core, {m});
  }

  // ----- hearing from a leader

  function HeardFromLeader(p: Peer, term: int): Peer {
    var h := Heard(p, term);
    if term >= p.term && h.role == Candidate then h.(role := Follower) else h
  }

  lemma HeardLeaderIsHeard(c: Core, s: int, term: int)
    requires IsPeer(c, s)
    ensures IsPeer(HeardLeader(c, s, term), s) && HeardLeader(c, s, term).peers[s] == HeardFromLeader(c.peers[s], term)
    ensures HeardLeader(c, s, term).leaders == c.leaders && HeardLeader(c, s, term).n == c.n
  {
  }

  /** A server that hears from the leader of its term is not a leader itself. */
  lemma HearerFollows(c: Core, s: int, term: int)
    requires Inv(c) && IsPeer(c, s) && term in c.leaders && c.leaders[term].owner != s && term >= c.peers[s].term
    ensures HeardFromLeader(c.peers[s], term).role == Follower && HeardFromLeader(c.peers[s], term).term == term
  {
    assert PeerOk(c, s);
  }

  // ----- AppendEntries

  /** What `AppendEntries` has found out when it succeeds. */
  lemma AppendFacts(o: Server, me: int, n: nat, a: AppendArgs)
    requires ServerOk(o, me, n) && 0 <= a.prevIndex
    ensures var (d, r) := AppendEntries(o, a);
      && ServerOk(d, me, n)
      && (!r.success ==> PeerOf(d) == HeardFromLeader(PeerOf(o), a.term))
      && (r.success ==>
            && a.term >= o.term && o.base <= a.prevIndex < |Full(o)| && Full(o)[a.prevIndex].term == a.prevTerm
            && PeerOf(d) == HeardFromLeader(PeerOf(o), a.term).(log := Merge(Full(o), a.prevIndex + 1, a.entries)))
      && (d.role == Candidate ==> a.term < o.term && d == Persist(o))
  {
    if AppendEntries(o, a).1.success {
      AppendSucceeds(o, me, n, a);
    } else {
      AppendRefused(o, me, n, a);
    }
    hide Shape, Full, Merge, AppendEntries, HeardFromLeader;
  }

  lemma AppendSucceeds(o: Server, me: int, n: nat, a: AppendArgs)
    requires ServerOk(o, me, n) && 0 <= a.prevIndex && AppendEntries(o, a).1.success
    ensures var d := AppendEntries(o, a).0;
      && ServerOk(d, me, n) && d.role != Candidate
      && a.term >= o.term && o.base <= a.prevIndex < |Full(o)| && Full(o)[a.prevIndex].term == a.prevTerm
      && PeerOf(d) == HeardFromLeader(PeerOf(o), a.term).(log := Merge(Full(o), a.prevIndex + 1, a.entries))
  {
    hide Full, Merge, Accepted;
    var b := if a.term > o.term then StepDown(o, a.term) else o;
    var c := if b.role == Candidate then b.(role := Follower) else b;
    FullFacts(o, me, n);
    SameLog(o, c, me, n);
    AcceptedFacts(c, me, n, a);
    hide Shape;
  }

  lemma AppendRefused(o: Server, me: int, n: nat, a: AppendArgs)
    requires ServerOk(o, me, n) && !AppendEntries(o, a).1.success
    ensures var d := AppendEntries(o, a).0;
      && ServerOk(d, me, n) && PeerOf(d) == HeardFromLeader(PeerOf(o), a.term)
      && (d.role == Candidate ==> a.term < o.term && d == Persist(o))
  {
    SameLog(o, AppendEntries(o, a).0, me, n);
    hide Shape, Full, LastIndex, LastTerm, ScanBack;
  }

  lemma AcceptedFacts(c: Server, me: int, n: nat, a: AppendArgs)
    requires Shape(c, me, n) && c.base <= a.prevIndex <= LastIndex(c)
    ensures |Full(c)| == LastIndex(c) + 1
    ensures var d := Persist(Accepted(c, a));
      ServerOk(d, me, n) && d.role == c.role && PeerOf(d) == PeerOf(c).(log := Merge(Full(c), a.prevIndex + 1, a.entries))
  {
    MergeFull(c, me, n, a);
    SameLog(c.(log := Merge(c.log, a.prevIndex + 1 - c.base, a.entries)), Persist(Accepted(c, a)), me, n);
    hide Shape, Full, LastIndex, LastTerm, Merge;
  }

  lemma MergeFull(o: Server, me: int, n: nat, a: AppendArgs)
    requires Shape(o, me, n) && o.base <= a.prevIndex <= LastIndex(o)
    ensures |Full(o)| == LastIndex(o) + 1
    ensures var d := o.(log := Merge(o.log, a.prevIndex + 1 - o.base, a.entries));
      Shape(d, me, n) && Full(d) == Merge(Full(o), a.prevIndex + 1, a.entries)
  {
    FullFacts(o, me, n);
    MergeTail(o.log, o.disk.snapshot, o.base, a.prevIndex + 1, a.entries);
  }

  /** Merging never touches slot 0, and on the rest it is merging into the full log. */
  lemma {:induction false} MergeTail(log: Log, snapshot: Log, base: nat, k: nat, entries: seq<Entry>)
    requires |log| >= 1 && |snapshot| == base + 1 && base < k <= base + |log|
    ensures var m := Merge(log, k - base, entries);
      && |m| >= 1 && m[0] == log[0]
      && snapshot + m[1..] == Merge(snapshot + log[1..], k, entries)
    decreases |entries|
  {
    var full := snapshot + log[1..];
    if entries == [] {
    } else if k < |full| {
      assert full[k] == log[k - base];
      if log[k - base].term != entries[0].term {
        assert (log[..k - base] + entries)[1..] == log[1..k - base] + entries;
        assert full[..k] == snapshot + log[1..k - base];
      } else {
        MergeTail(log, snapshot, base, k + 1, entries[1..]);
      }
    } else {
      var more := log + [entries[0]];
      assert snapshot + more[1..] == full + [entries[0]];
      MergeTail(more, snapshot, base, k + 1, entries[1..]);
    }
  }

  /** On logs that match, an accepted request makes the follower adopt the leader's prefix. */
  lemma AppendAdopts(c: Core, log: Log, a: AppendArgs, to: int)
    requires Inv(c) && AppendReqOk(c, to, a) && Coherent(c, log)
    requires a.prevIndex < |log| && log[a.prevIndex].term == a.prevTerm
    ensures Merge(log, a.prevIndex + 1, a.entries) == Adopt(log, c.leaders[a.term].log[..a.prevIndex + 1 + |a.entries|])
  {
    hide Inv, Coherent, LeaderOk, Matching, Merge, Adopt, AppendReqOk, Segment;
    SentSegment(c, a, to);
    LeaderMatches(c, log, a.term);
    MergeAtMatch(log, c.leaders[a.term].log, a.prevIndex, a.entries);
  }

  lemma SentSegment(c: Core, a: AppendArgs, to: int)
    requires AppendReqOk(c, to, a)
    ensures a.term in c.leaders && a.prevIndex >= 0 && a.prevIndex + |a.entries| < |c.leaders[a.term].log|
    ensures c.leaders[a.term].log[a.prevIndex].term == a.prevTerm
    ensures Segment(c.leaders[a.term].log, a.prevIndex + 1, a.entries)
  {
  }

  lemma LeaderMatches(c: Core, log: Log, term: int)
    requires Inv(c) && term in c.leaders && Coherent(c, log)
    ensures Matching(log, c.leaders[term].log)
  {
    assert LeaderOk(c, term);
    LogsMatch(c, log, c.leaders[term].log);
  }

  /** A server that follows the leader of a term and adopts a prefix of its log. */
  lemma AdoptFromLeader(c: Core, s: int, term: int, m: int)
    requires Inv(c) && IsPeer(c, s) && term >= c.peers[s].term
    requires term in c.leaders && c.leaders[term].owner != s && 1 <= m <= |c.leaders[term].log|
    ensures var b := HeardLeader(c, s, term);
      && MayAdopt(b, s, m)
      && var d := TakePrefix(b, s, m);
         && Inv(d) && Grows(c, d) && IsPeer(d, s)
         && d.peers[s] == HeardFromLeader(c.peers[s], term).(log := Adopt(c.peers[s].log, c.leaders[term].log[..m]))
         && (forall q :: 0 <= q < c.n && q != s ==> d.peers[q] == c.peers[q])
         && Acked(d, s, term, m - 1)
  {
    hide Inv, Grows, Adopt, HeardLeader;
    HeardLeaderKeeps(c, s, term);
    HeardLeaderIsHeard(c, s, term);
    HearerFollows(c, s, term);
    var b := HeardLeader(c, s, term);
    AdoptKeepsInv(b, s, m);
    GrowsTrans(c, b, TakePrefix(b, s, m));
  }

  /** The history after an `AppendEntries`, and that the server mirrors it. */
  lemma AfterAppendKeeps(x: System, s: int, a: AppendArgs)
    requires SysInv(x) && Has(x, s) && AppendReqMsg(s, a) in x.net
    ensures var (d, r) := AppendEntries(x.servers[s], a);
      var c := AfterAppend(x.core, s, a, r.success);
      && Inv(c) && Grows(x.core, c) && IsPeer(c, s) && c.peers[s] == PeerOf(d)
      && (forall q :: 0 <= q < x.core.n && q != s ==> c.peers[q] == x.core.peers[q])
      && (r.success ==>
            && MayAdopt(HeardLeader(x.core, s, a.term), s, a.prevIndex + 1 + |a.entries|)
            && Acked(c, s, a.term, a.prevIndex + |a.entries|))
  {
    hide AppendEntries, ServerOk, Full, Inv, Grows, SysInv, CountOk, NetOk, HeardLeader, TermsUpTo, Coherent,
      HeardFromLeader, Merge, Adopt, MayAdopt, TakePrefix;
    var o := x.servers[s];
    var (d, r) := AppendEntries(o, a);
    ServerAt(x, s);
    MsgIn(x, AppendReqMsg(s, a));
    AppendFacts(o, s, x.core.n, a);
    if r.success {
      AppendAdopts(x.core, Full(o), a, s);
      AdoptFromLeader(x.core, s, a.term, a.prevIndex + 1 + |a.entries|);
    } else {
      HeardLeaderKeeps(x.core, s, a.term);
      HeardLeaderIsHeard(x.core, s, a.term);
    }
  }

  lemma OnAppendReqKeeps(x: System, y: System, s: int, a: AppendArgs)
    requires SysInv(x) && OnAppendReq(x, y, s, a)
    ensures SysInv(y) && Grows(x.core, y.core)
  {
    hide AppendEntries, AfterAppend, ServerOk, Full, Inv, Grows, SysInv, CountOk, NetOk, MayAdopt, HeardFromLeader,
      PeerOk, Acked;
    var o := x.servers[s];
    var (d, r) := AppendEntries(o, a);
    var c := AfterAppend(x.core, s, a, r.success);
    ServerAt(x, s);
    MsgIn(x, AppendReqMsg(s, a));
    assert AppendReqOk(x.core, s, a);
    AppendFacts(o, s, x.core.n, a);
    AfterAppendKeeps(x, s, a);
    VoteCountStays(x.core, c, o, d);
    MsgGrows(x.core, c, AppendReqMsg(s, a));
    OneMsg(c, AppendRepMsg(s, a, r));
    Assemble(x, y, s, d, c, {AppendRepMsg(s, a, r)});
  }

  // ----- handling replies to a leader

  lemma AppendReplyFacts(o: Server, me: int, n: nat, from: int, a: AppendArgs, r: AppendReply)
    requires ServerOk(o, me, n) && 0 <= from < n
    ensures var d := HandleAppendReply(o, from, a, r);
      && ServerOk(d, me, n) && PeerOf(d) == Heard(PeerOf(o), r.term)
      && (d.role == Candidate ==>
          o.role == Candidate && d.term == o.term && d.me == o.me && d.votes == o.votes && d.awaiting == o.awaiting)
  {
    SameLog(o, HandleAppendReply(o, from, a, r), me, n);
    hide Shape, Full, LastIndex, LastTerm, CommitFrom, LastOfTerm;
  }

  lemma OnAppendRepKeeps(x: System, y: System, s: int, from: int, a: AppendArgs, r: AppendReply)
    requires SysInv(x) && OnAppendRep(x, y, s, from, a, r)
    ensures SysInv(y) && Grows(x.core, y.core)
  {
    hide HandleAppendReply, ServerOk, Full, Inv, Grows, SysInv, CountOk, NetOk, HeardOf, PeerOk;
    var o := x.servers[s];
    var d := HandleAppendReply(o, from, a, r);
    ServerAt(x, s);
    ShapeMe(o, s, x.core.n);
    AppendReplyFacts(o, s, x.core.n, from, a, r);
    var c := HeardOf(x.core, s, r.term);
    HeardOfKeeps(x.core, s, r.term);
    HeardIsHeard(x.core, s, r.term);
    VoteCountStays(x.core, c, o, d);
    NoMsgs(c);
    Assemble(x, y, s, d, c, {});
  }

  lemma InstallReplyFacts(o: Server, me: int, n: nat, from: int, a: InstallArgs, t: int)
    requires ServerOk(o, me, n) && 0 <= from < n
    ensures var d := HandleInstallReply(o, from, a, t);
      && ServerOk(d, me, n) && PeerOf(d) == Heard(PeerOf(o), t)
      && (d.role == Candidate ==>
          o.role == Candidate && d.term == o.term && d.me == o.me && d.votes == o.votes && d.awaiting == o.awaiting)
  {
    SameLog(o, HandleInstallReply(o, from, a, t), me, n);
    hide Shape, Full, LastIndex, LastTerm, CommitFrom;
  }

  lemma OnInstallRepKeeps(x: System, y: System, s: int, from: int, a: InstallArgs, t: int)
    requires SysInv(x) && OnInstallRep(x, y, s, from, a, t)
    ensures SysInv(y) && Grows(x.core, y.core)
  {
    hide HandleInstallReply, ServerOk, Full, Inv, Grows, SysInv, CountOk, NetOk, HeardOf, PeerOk;
    var o := x.servers[s];
    var d := HandleInstallReply(o, from, a, t);
    ServerAt(x, s);
    ShapeMe(o, s, x.core.n);
    InstallReplyFacts(o, s, x.core.n, from, a, t);
    var c := HeardOf(x.core, s, t);
    HeardOfKeeps(x.core, s, t);
    HeardIsHeard(x.core, s, t);
    VoteCountStays(x.core, c, o, d);
    NoMsgs(c);
    Assemble(x, y, s, d, c, {});
  }

  // ----- InstallSnapshot

  function InstallLog(full: Log, a: InstallArgs): Log {
    if 0 <= a.lastIndex < |full| && full[a.lastIndex].term == a.lastTerm then a.data + full[a.lastIndex + 1..] else a.data
  }

  lemma InstallFacts(o: Server, me: int, n: nat, a: InstallArgs)
    requires ServerOk(o, me, n) && a.lastIndex >= 0 && |a.data| == a.lastIndex + 1
    requires a.lastTerm == a.data[a.lastIndex].term
    ensures var (d, t) := InstallSnapshot(o, a);
      var h := HeardFromLeader(PeerOf(o), a.term);
      && ServerOk(d, me, n)
      && PeerOf(d) == (if a.term >= o.term && a.lastIndex > o.base then h.(log := InstallLog(Full(o), a)) else h)
      && (d.role == Candidate ==> a.term < o.term && d == o)
  {
    if a.term >= o.term && a.lastIndex > o.base {
      InstalledFacts(o, me, n, a);
    } else {
      SameLog(o, InstallSnapshot(o, a).0, me, n);
      hide Shape, Full, LastIndex, LastTerm;
    }
  }

  lemma InstalledFacts(o: Server, me: int, n: nat, a: InstallArgs)
    requires ServerOk(o, me, n) && a.lastIndex >= 0 && |a.data| == a.lastIndex + 1
    requires a.lastTerm == a.data[a.lastIndex].term
    requires a.term >= o.term && a.lastIndex > o.base
    ensures var (d, t) := InstallSnapshot(o, a);
      && ServerOk(d, me, n) && d.role == HeardFromLeader(PeerOf(o), a.term).role && d.role != Candidate
      && PeerOf(d) == HeardFromLeader(PeerOf(o), a.term).(log := InstallLog(Full(o), a))
  {
    var b := if a.term > o.term then Persist(StepDown(o, a.term)) else o;
    var c := if b.role == Candidate then b.(role := Follower) else b;
    SameLog(o, c, me, n);
    InstalledShape(c, me, n, a);
    hide Shape, Full, LastIndex, LastTerm, Installed, InstallLog;
  }

  lemma InstalledShape(c: Server, me: int, n: nat, a: InstallArgs)
    requires Shape(c, me, n) && a.lastIndex > c.base
    requires |a.data| == a.lastIndex + 1 && a.lastTerm == a.data[a.lastIndex].term
    ensures var d := Installed(c, a);
      && ServerOk(d, me, n) && Full(d) == InstallLog(Full(c), a)
      && d.term == c.term && d.vote == c.vote && d.role == c.role
  {
    FullFacts(c, me, n);
    InstallTail(c, me, n, a);
    InstalledFull(Installed(c, a), a);
    hide Full;
  }

  lemma InstalledFull(d: Server, a: InstallArgs)
    requires |d.log| >= 1 && d.disk.snapshot == a.data
    ensures Full(d) == a.data + d.log[1..]
  {
  }

  lemma InstallTail(o: Server, me: int, n: nat, a: InstallArgs)
    requires Shape(o, me, n) && a.lastIndex > o.base && |a.data| == a.lastIndex + 1
    ensures a.lastIndex <= LastIndex(o) ==>
      o.log[a.lastIndex - o.base + 1..] == Full(o)[a.lastIndex + 1..] && o.log[a.lastIndex - o.base] == Full(o)[a.lastIndex]
  {
    FullFacts(o, me, n);
    if a.lastIndex <= LastIndex(o) {
      assert Full(o)[a.lastIndex + 1..] == Full(o)[o.base + 1..][a.lastIndex - o.base..];
      assert o.log[a.lastIndex - o.base + 1..] == o.log[1..][a.lastIndex - o.base..];
    }
  }

  /** On logs that match, installing a snapshot makes the follower adopt what it stands for. */
  lemma InstallAdopts(c: Core, log: Log, a: InstallArgs, to: int)
    requires Inv(c) && InstallReqOk(c, to, a) && Coherent(c, log)
    ensures InstallLog(log, a) == Adopt(log, c.leaders[a.term].log[..a.lastIndex + 1])
  {
    assert LeaderOk(c, a.term);
    var l := c.leaders[a.term].log;
    LogsMatch(c, log, l);
    assert l[..a.lastIndex + 1] == a.data;
    assert l[a.lastIndex].term == a.lastTerm;
    assert a.data <= log ==> log[a.lastIndex] == a.data[a.lastIndex];
    if a.lastIndex < |log| && log[a.lastIndex].term == a.lastTerm {
      assert log[..a.lastIndex + 1] == a.data;
      assert log == log[..a.lastIndex + 1] + log[a.lastIndex + 1..];
    }
  }

  lemma AfterInstallKeeps(x: System, s: int, a: InstallArgs)
    requires SysInv(x) && Has(x, s) && InstallReqMsg(s, a) in x.net
    ensures var o := x.servers[s];
      var (d, t) := InstallSnapshot(o, a);
      var installed := a.term >= o.term && a.lastIndex > o.base;
      var c := AfterInstall(x.core, s, a, installed);
      && Inv(c) && Grows(x.core, c) && IsPeer(c, s) && c.peers[s] == PeerOf(d)
      && (forall q :: 0 <= q < x.core.n && q != s ==> c.peers[q] == x.core.peers[q])
      && (installed ==> MayAdopt(HeardLeader(x.core, s, a.term), s, a.lastIndex + 1))
  {
    hide InstallSnapshot, ServerOk, Full, Inv, Grows, SysInv, CountOk, NetOk, HeardLeader, TermsUpTo, Coherent,
      HeardFromLeader, InstallLog, Adopt, MayAdopt, TakePrefix;
    var o := x.servers[s];
    ServerAt(x, s);
    MsgIn(x, InstallReqMsg(s, a));
    InstallFacts(o, s, x.core.n, a);
    if a.term >= o.term && a.lastIndex > o.base {
      InstallAdopts(x.core, Full(o), a, s);
      AdoptFromLeader(x.core, s, a.term, a.lastIndex + 1);
    } else {
      HeardLeaderKeeps(x.core, s, a.term);
      HeardLeaderIsHeard(x.core, s, a.term);
    }
  }

  lemma OnInstallReqKeeps(x: System, y: System, s: int, a: InstallArgs)
    requires SysInv(x) && OnInstallReq(x, y, s, a)
    ensures SysInv(y) && Grows(x.core, y.core)
  {
    hide InstallSnapshot, AfterInstall, ServerOk, Full, Inv, Grows, SysInv, CountOk, NetOk, MayAdopt, HeardFromLeader,
      PeerOk;
    var o := x.servers[s];
    var (d, t) := InstallSnapshot(o, a);
    var c := AfterInstall(x.core, s, a, a.term >= o.term && a.lastIndex > o.base);
    ServerAt(x, s);
    MsgIn(x, InstallReqMsg(s, a));
    assert InstallReqOk(x.core, s, a);
    InstallFacts(o, s, x.core.n, a);
    AfterInstallKeeps(x, s, a);
    VoteCountStays(x.core, c, o, d);
    OneMsg(c, InstallRepMsg(s, a, t));
    Assemble(x, y, s, d, c, {InstallRepMsg(s, a, t)});
  }

  // ----- commands, compaction, restart, delivery

  lemma ClientFacts(o: Server, me: int, n: nat, command: Command)
    requires ServerOk(o, me, n) && o.role == Leader
    ensures var (d, i) := StartCommand(o, command);
      && ServerOk(d, me, n) && PeerOf(d) == PeerOf(o).(log := Full(o) + [Entry(Some(command), o.term)])
      && i == Some(|Full(o)|)
  {
    FullFacts(o, me, n);
    var (d, i) := StartCommand(o, command);
    assert (o.log + [Entry(Some(command), o.term)])[1..] == o.log[1..] + [Entry(Some(command), o.term)];
  }

  lemma ClientKeeps(x: System, y: System, s: int, command: Command)
    requires SysInv(x) && Client(x, y, s, command)
    ensures SysInv(y) && Grows(x.core, y.core)
  {
    var o := x.servers[s];
    var e := Entry(Some(command), o.term);
    var (d, i) := StartCommand(o, command);
    ServerAt(x, s);
    ClientFacts(o, s, x.core.n, command);
    assert d.role == Leader;
    hide StartCommand, ServerOk, Full, Inv, Grows, SysInv, NetOk, PeerOk;
    AppendKeeps(x.core, s, e);
    NoMsgs(Append(x.core, s, e));
    Assemble(x, y, s, d, Append(x.core, s, e), {});
  }

  lemma RebasedTail(snapshot: Log, log: Log, base: nat, i: nat)
    requires |log| >= 1 && |snapshot| == base + 1 && base <= i < base + |log|
    requires log[0].term == snapshot[base].term
    ensures var full := snapshot + log[1..];
      && full == full[..i + 1] + log[i - base + 1..]
      && log[i - base].term == full[i].term
  {
    var full := snapshot + log[1..];
    assert full[i + 1..] == log[1..][i - base..] == log[i - base + 1..];
  }

  lemma RebasedShape(o: Server, me: int, n: nat, i: int, data: Log)
    requires Shape(o, me, n) && o.base <= i <= LastIndex(o) && |data| == i + 1 && data[i].term == o.log[i - o.base].term
    ensures var d := Rebased(o, i, data);
      ServerOk(d, me, n) && d.base == i && d.disk.snapshot == data && d.log[1..] == o.log[i - o.base + 1..]
  {
  }

  lemma RebasedFacts(o: Server, me: int, n: nat, i: int)
    requires ServerOk(o, me, n) && o.base <= i < |Full(o)|
    ensures i <= LastIndex(o)
    ensures var d := Rebased(o, i, Full(o)[..i + 1]);
      ServerOk(d, me, n) && Full(d) == Full(o) && d.base == i
  {
    FullFacts(o, me, n);
    RebasedTail(o.disk.snapshot, o.log, o.base, i);
    hide Rebased, Persisted;
    RebasedShape(o, me, n, i, Full(o)[..i + 1]);
  }

  /** Compaction does not change the full log. */
  lemma CompactFacts(o: Server, me: int, n: nat, index: int)
    requires ServerOk(o, me, n)
    ensures var i := Min(index, LastIndex(o));
      && (index > o.base ==> o.base <= i < |Full(o)|)
      && var d := TakeSnapshot(o, index, if index > o.base then Full(o)[..i + 1] else []);
         && ServerOk(d, me, n) && PeerOf(d) == PeerOf(o) && d.role == o.role
         && d == d.(me := o.me, term := o.term, votes := o.votes, awaiting := o.awaiting, commit := o.commit)
         && d.base == (if index > o.base then i else o.base)
  {
    FullFacts(o, me, n);
    if index > o.base {
      RebasedFacts(o, me, n, Min(index, LastIndex(o)));
    }
    hide Full, Shape;
  }

  lemma CompactKeeps(x: System, y: System, s: int, index: int)
    requires SysInv(x) && Compact(x, y, s, index)
    ensures SysInv(y) && Grows(x.core, y.core)
  {
    var o := x.servers[s];
    var d := TakeSnapshot(o, index, if index > o.base then Full(o)[..Min(index, LastIndex(o)) + 1] else []);
    ServerAt(x, s);
    CompactFacts(o, s, x.core.n, index);
    assert CountOk(x.core, d);
    hide TakeSnapshot, ServerOk, Full, Inv, Grows, SysInv, NetOk, PeerOk, CountOk;
    GrowsRefl(x.core);
    NoMsgs(x.core);
    Assemble(x, y, s, d, x.core, {});
  }

  /** Restarting from stable storage loses nothing that was promised. */
  lemma RestartFacts(o: Server, me: int, n: nat)
    requires ServerOk(o, me, n)
    ensures var d := Make(me, n, o.disk);
      && ServerOk(d, me, n) && PeerOf(d) == PeerOf(o).(role := Follower) && d.base == o.base
      && d.commit == d.applied == d.base && d.applying == None
  {
    FullFacts(o, me, n);
    assert |o.log| >= 1;
  }

  lemma RestartKeeps(x: System, y: System, s: int)
    requires SysInv(x) && Restart(x, y, s)
    ensures SysInv(y) && Grows(x.core, y.core)
  {
    var o := x.servers[s];
    var d := Make(s, x.core.n, o.disk);
    ServerAt(x, s);
    RestartFacts(o, s, x.core.n);
    hide Make, ServerOk, Full, Inv, Grows, NetOk, PeerOk, Granted;
    var p := x.core.peers[s].(role := Follower);
    var c := Quiet(x.core, s, p);
    NoMsgs(c);
    MovesPosition(x, y, s, d, c);
  }

  /** Positions and deliveries do not matter to the invariant. */
  lemma MovesPosition(x: System, y: System, s: int, d: Server, c: Core)
    requires SysInv(x) && Has(x, s) && y.servers == x.servers[s := d] && y.core == c && y.net == x.net
    requires |y.position| == |x.position|
    requires Inv(c) && Grows(x.core, c)
    requires forall r :: 0 <= r < x.core.n && r != s ==> c.peers[r] == x.core.peers[r]
    requires ServerOk(d, s, x.core.n) && c.peers[s] == PeerOf(d) && CountOk(c, d)
    ensures SysInv(y)
  {
    var z := x.(servers := x.servers[s := d], core := c);
    hide ServerOk, Full, Inv, Grows, NetOk, PeerOk, CountOk;
    NoMsgs(c);
    assert x.net + {} == x.net;
    Assemble(x, z, s, d, c, {});
    forall r | 0 <= r < y.core.n ensures ServerInv(y, r) {
      assert ServerInv(z, r);
    }
  }

  lemma ApplierFacts(o: Server, me: int, n: nat)
    requires ServerOk(o, me, n)
    ensures ServerOk(ApplierTake(o).0, me, n) && PeerOf(ApplierTake(o).0) == PeerOf(o)
    ensures ServerOk(ApplierDone(o), me, n) && PeerOf(ApplierDone(o)) == PeerOf(o)
  {
  }

  lemma DeliverKeeps(x: System, y: System, s: int)
    requires SysInv(x) && Deliver(x, y, s)
    ensures SysInv(y) && Grows(x.core, y.core)
  {
    ServerAt(x, s);
    ApplierFacts(x.servers[s], s, x.core.n);
    var (d, msgs) := ApplierTake(x.servers[s]);
    assert CountOk(x.core, d);
    hide ServerOk, Full, Inv, Grows, NetOk, PeerOk, CountOk, ApplierTake;
    GrowsRefl(x.core);
    MovesPosition(x, y, s, d, x.core);
  }

  lemma DeliveredKeeps(x: System, y: System, s: int)
    requires SysInv(x) && Delivered(x, y, s)
    ensures SysInv(y) && Grows(x.core, y.core)
  {
    ServerAt(x, s);
    ApplierFacts(x.servers[s], s, x.core.n);
    var d := ApplierDone(x.servers[s]);
    assert CountOk(x.core, d);
    hide ServerOk, Full, Inv, Grows, NetOk, PeerOk, CountOk, ApplierDone;
    GrowsRefl(x.core);
    MovesPosition(x, y, s, d, x.core);
  }
}
