/** Every step keeps what servers and messages say about commitment true, provided the replies to
    `AppendEntries` that a leader handles late, in a term after that of the request, do no harm. What
    has to be shown of a step beyond the invariant of every run is that the server that moved still has a chosen prefix up to its
    commit index, that a leader's books are still true, and that what it sends about commitment is. */
module RaftCommitSteps {
  import opened Collections
  import opened Options
  import opened RaftLog
  import opened RaftCore
  import opened RaftCoreSteps
  import opened RaftServer
  import opened RaftSystem
  import opened RaftSystemSteps
  import opened RaftReplication
  import opened RaftCommit

  /** The reply makes the server step down, finds it no longer leading, or belongs to its term. */
  predicate InItsTerm(o: Server, a: AppendArgs, r: AppendReply) {
    r.term > o.term || o.role != Leader || o.term == a.term
  }

  /** The reply is in its term, or it refuses, or it claims nothing new above the leader's snapshot. */
  predicate Harmless(o: Server, from: int, a: AppendArgs, r: AppendReply)
    requires 0 <= from < |o.match_|
  {
    || InItsTerm(o, a, r) || !r.success
    || a.prevIndex + |a.entries| <= o.match_[from] || a.prevIndex + |a.entries| <= o.base
  }

  // ----- what a server keeps when its log and commit index stay as they are

  ghost predicate SameIndexes(o: Server, d: Server) {
    && Full(d) == Full(o) && d.commit == o.commit && d.base == o.base && d.term >= o.term
    && (d.role == Leader ==>
        o.role == Leader && d.term == o.term && d.n == o.n && d.me == o.me && d.next == o.next && d.match_ == o.match_)
  }

  lemma CommitCarries(c: Core, e: Core, o: Server, d: Server)
    requires Grows(c, e) && CommitOk(c, o) && SameIndexes(o, d)
    ensures CommitOk(e, d)
  {
    ChosenGrows(c, e, Full(o)[..o.commit + 1], o.term, d.term);
    hide Chosen, Full;
  }

  /** A server whose log and indexes stay moves, and what it sends says nothing about commitment. */
  lemma QuietStrong(x: System, y: System, s: int, sent: set<Msg>)
    requires Strong(x) && SysInv(y) && Has(x, s) && Grows(x.core, y.core)
    requires |y.servers| == |x.servers| && y.net == x.net + sent
    requires forall r :: 0 <= r < x.core.n && r != s ==> y.servers[r] == x.servers[r]
    requires SameIndexes(x.servers[s], y.servers[s])
    requires forall m :: m in sent ==> m.VoteReqMsg? || m.VoteRepMsg?
    ensures Strong(y)
  {
    StrongServer(x, s);
    CommitCarries(x.core, y.core, x.servers[s], y.servers[s]);
    hide SysInv, CommitOk, Grows, Strong;
    StrongAssemble(x, y, s, sent);
  }

  // ----- elections

  lemma TimeoutStrong(x: System, y: System, s: int)
    requires Strong(x) && Timeout(x, y, s)
    ensures Strong(y)
  {
    StrongServer(x, s);
    TimeoutKeeps(x, y, s);
    var (d, a) := StartElection(x.servers[s]);
    assert SameIndexes(x.servers[s], d);
    hide SysInv, CommitOk, Grows, Strong, SameIndexes, StartElection, Campaign;
    QuietStrong(x, y, s, set to | to in UpTo(x.core.n) - {s} :: VoteReqMsg(to, a));
  }

  lemma OnVoteReqStrong(x: System, y: System, s: int, a: VoteArgs)
    requires Strong(x) && OnVoteReq(x, y, s, a)
    ensures Strong(y)
  {
    StrongServer(x, s);
    OnVoteReqKeeps(x, y, s, a);
    var (d, r) := RequestVote(x.servers[s], a);
    assert SameIndexes(x.servers[s], d);
    hide SysInv, CommitOk, Grows, Strong, SameIndexes, RequestVote, Grant, HeardOf;
    QuietStrong(x, y, s, {VoteRepMsg(s, a, r)});
  }

  lemma ElectedBooks(c: Core, o: Server, s: int, n: nat, q: set<int>)
    requires ServerOk(o, s, n) && IsPeer(c, s) && c.peers[s].log == Full(o) && c.peers[s].term == o.term
    ensures LeaderBooks(Elect(c, s, q), BecomeLeader(o))
  {
    FullFacts(o, s, n);
    var d := BecomeLeader(o);
    assert Full(d) == Full(o);
  }

  lemma ElectedStrong(x: System, y: System, s: int, d: Server, e: Server)
    requires Strong(x) && Has(x, s) && SysInv(y) && Grows(x.core, y.core)
    requires e.role == Leader && x.servers[s].role == Candidate && e == BecomeLeader(d)
    requires ServerOk(d, s, x.core.n) && SameIndexes(x.servers[s], d) && d.role == Candidate
    requires d.term == x.servers[s].term
    requires Moves(x, y, s, e, Elect(x.core, s, Granted(x.core, s, d.term, d.awaiting)), {})
    ensures Strong(y)
  {
    hide SysInv, Grows, Strong, Elect, Full, Chosen, LeaderBooks, Inv, PeerOk, CountOk, Persisted, Shape, Granted;
    StrongServer(x, s);
    ServerAt(x, s);
    ElectedBooks(x.core, d, s, x.core.n, Granted(x.core, s, d.term, d.awaiting));
    CommitCarries(x.core, y.core, x.servers[s], d);
    SameFull(d, e);
    assert CommitOk(y.core, e);
    hide CommitOk;
    StrongAssemble(x, y, s, {});
  }

  lemma SameFull(d: Server, e: Server)
    requires d.log == e.log && d.disk.snapshot == e.disk.snapshot
    ensures Full(d) == Full(e)
  {
  }

  lemma OnVoteRepStrong(x: System, y: System, s: int, from: int, a: VoteArgs, r: VoteReply)
    requires Strong(x) && OnVoteRep(x, y, s, from, a, r)
    ensures Strong(y)
  {
    hide SysInv, CommitOk, Grows, Strong, Elect, HeardOf, Inv, PeerOk, CountOk, Granted, ServerOk, Full;
    StrongServer(x, s);
    ServerAt(x, s);
    OnVoteRepKeeps(x, y, s, from, a, r);
    var o := x.servers[s];
    var d := HandleVoteReply(o, from, a, r);
    if o.term == a.term && o.role == Candidate && d.role == Leader {
      var b := o.(awaiting := o.awaiting - {from}, votes := o.votes + 1);
      SameFull(o, b);
      StaysOk(o, b, s, x.core.n);
      ElectedStrong(x, y, s, b, d);
    } else {
      SameFull(o, d);
      QuietStrong(x, y, s, {});
    }
  }

  lemma StaysOk(o: Server, b: Server, s: int, n: nat)
    requires ServerOk(o, s, n) && b == o.(awaiting := b.awaiting, votes := b.votes)
    ensures ServerOk(b, s, n)
  {
  }

  // ----- AppendEntries

  lemma LeaderLog(c: Core, o: Server, s: int)
    requires IsPeer(c, s) && PeerOk(c, s) && c.peers[s] == PeerOf(o) && o.role == Leader
    ensures o.term in c.leaders && c.leaders[o.term].owner == s && c.leaders[o.term].log == Full(o)
  {
  }

  lemma CommitFacts(c: Core, o: Server)
    requires CommitOk(c, o)
    ensures 0 <= o.base <= o.commit < |Full(o)| && Chosen(c, Full(o)[..o.commit + 1], o.term)
  {
  }

  /** What a leader says of its commit index is covered by the entries up to what it sends. */
  lemma SentCommit(c: Core, o: Server, s: int, to: int)
    requires IsPeer(c, s) && PeerOk(c, s) && c.peers[s] == PeerOf(o) && o.role == Leader
    requires Shape(o, s, c.n) && CommitOk(c, o) && 0 <= to < c.n && !NeedsSnapshot(o, to) && Readable(o, o.next[to] - 1)
    ensures AppendCommitOk(c, MakeAppendArgs(o, to))
  {
    AppendArgsFacts(o, s, c.n, to);
    LeaderLog(c, o, s);
    CommitFacts(c, o);
    hide PeerOk, Full, Shape, CommitOk, MakeAppendArgs, Chosen;
  }

  lemma SendAppendStrong(x: System, y: System, s: int, to: int)
    requires Strong(x) && SendAppend(x, y, s, to)
    ensures Strong(y)
  {
    hide SysInv, Grows, CommitOk, Strong, MakeAppendArgs, AppendCommitOk, PeerOk, Inv, CountOk, PeerOf, Persisted;
    StrongServer(x, s);
    ServerAt(x, s);
    SendAppendKeeps(x, y, s, to);
    var o := x.servers[s];
    SentCommit(x.core, o, s, to);
    StrongAssemble(x, y, s, {AppendReqMsg(to, MakeAppendArgs(o, to))});
  }

  /** The hint in a refusal never points beyond the leader's log. */
  lemma HintBound(c: Core, o: Server, me: int, n: nat, a: AppendArgs)
    requires Inv(c) && ServerOk(o, me, n) && CommitOk(c, o) && AppendReqOk(c, me, a)
    ensures var r := AppendEntries(o, a).1;
      r.term >= a.term && (!r.success && r.term == a.term ==> r.conflictIndex <= |c.leaders[a.term].log|)
  {
    if a.term >= o.term {
      ChosenStartsLeader(c, Full(o)[..o.commit + 1], o.term, a.term);
      hide Inv, Chosen, Full;
      var b := if a.term > o.term then StepDown(o, a.term) else o;
      if o.base <= a.prevIndex <= LastIndex(o) {
        ScanBackBound(o, a.prevIndex, LogTerm(o, a.prevIndex));
        ScanBackSame(o, b, a.prevIndex, LogTerm(o, a.prevIndex));
        ScanBackSame(o, b.(role := Follower), a.prevIndex, LogTerm(o, a.prevIndex));
      }
    }
  }

  lemma {:induction false} ScanBackBound(o: Server, index: int, term: int)
    requires Readable(o, index)
    ensures ScanBack(o, index, term) <= index
    decreases index - o.base
  {
    if index > o.base && LogTerm(o, index) == term {
      ScanBackBound(o, index - 1, term);
    }
  }

  lemma {:induction false} ScanBackSame(o: Server, d: Server, index: int, term: int)
    requires Readable(o, index) && d.log == o.log && d.base == o.base && d.baseTerm == o.baseTerm
    ensures ScanBack(o, index, term) == ScanBack(d, index, term)
    decreases index - o.base
  {
    if index > o.base && LogTerm(o, index) == term {
      ScanBackSame(o, d, index - 1, term);
    }
  }

  lemma RefusedIndexes(o: Server, a: AppendArgs)
    requires |o.log| >= 1 && !AppendEntries(o, a).1.success
    ensures var d := AppendEntries(o, a).0;
      Full(d) == Full(o) && d.commit == o.commit && d.base == o.base && d.term >= o.term && (a.term < o.term ==> d == Persist(o))
  {
  }

  lemma RefusedCommit(x: System, s: int, a: AppendArgs)
    requires Strong(x) && Has(x, s) && AppendReqMsg(s, a) in x.net && !AppendEntries(x.servers[s], a).1.success
    ensures var o := x.servers[s];
      var d := AppendEntries(o, a).0;
      CommitOk(AfterAppend(x.core, s, a, false), d) && d.base == o.base
  {
    hide AppendEntries, Inv, Grows, Strong, HeardFromLeader, Full, CommitOk, AfterAppend;
    var o := x.servers[s];
    var d := AppendEntries(o, a).0;
    StrongServer(x, s);
    StrongMsg(x, AppendReqMsg(s, a));
    ServerAt(x, s);
    AppendFacts(o, s, x.core.n, a);
    AfterAppendKeeps(x, s, a);
    RefusedIndexes(o, a);
    if a.term >= o.term {
      HearerFollows(x.core, s, a.term);
    }
    assert SameIndexes(o, d);
    CommitCarries(x.core, AfterAppend(x.core, s, a, false), o, d);
  }

  lemma AcceptedIndexes(o: Server, a: AppendArgs)
    requires |o.log| >= 1 && AppendEntries(o, a).1.success
    ensures var d := AppendEntries(o, a).0;
      && d.base == o.base && d.term == a.term >= o.term
      && d.commit == if a.commit > o.commit then Min(a.commit, a.prevIndex + |a.entries|) else o.commit
  {
  }

  /** The commit index a follower takes over is covered by the leader's prefix it has adopted. */
  lemma AcceptedCommit(x: System, s: int, a: AppendArgs)
    requires Strong(x) && Has(x, s) && AppendReqMsg(s, a) in x.net && AppendEntries(x.servers[s], a).1.success
    ensures var o := x.servers[s];
      var d := AppendEntries(o, a).0;
      CommitOk(AfterAppend(x.core, s, a, true), d) && d.base == o.base
  {
    hide AppendEntries, Grows, Strong, HeardFromLeader, Full, Chosen, Inv, Adopt, HeardLeader, LeaderBooks, Acked,
      Coherent, TermsUpTo;
    var o := x.servers[s];
    var d := AppendEntries(o, a).0;
    StrongServer(x, s);
    StrongMsg(x, AppendReqMsg(s, a));
    var l, m := x.core.leaders[a.term].log, a.prevIndex + 1 + |a.entries|;
    ServerAt(x, s);
    AppendFacts(o, s, x.core.n, a);
    AfterAppendKeeps(x, s, a);
    AcceptedIndexes(o, a);
    AdoptFromLeader(x.core, s, a.term, m);
    HearerFollows(x.core, s, a.term);
    var c := AfterAppend(x.core, s, a, true);
    assert Full(d) == Adopt(Full(o), l[..m]);
    if a.commit > o.commit {
      AdoptedChosen(x.core, c, Full(o), l, m, a.commit, a.term);
    } else {
      KeptChosen(x.core, c, s, Full(o), l, m, o.commit, o.term, a.term);
    }
  }

  lemma AdoptedChosen(c: Core, e: Core, log: Log, l: Log, m: nat, k: nat, term: int)
    requires Grows(c, e) && k < m <= |l| && Chosen(c, l[..k + 1], term)
    ensures var f := Adopt(log, l[..m]); k < |f| && Chosen(e, f[..k + 1], term)
  {
    var f := Adopt(log, l[..m]);
    assert l[..m] <= f;
    assert f[..k + 1] == l[..k + 1];
    ChosenGrows(c, e, l[..k + 1], term, term);
  }

  lemma KeptChosen(c: Core, e: Core, s: int, log: Log, l: Log, m: nat, k: nat, t: int, term: int)
    requires Inv(c) && Grows(c, e) && term in c.leaders && l == c.leaders[term].log && m <= |l| && t <= term
    requires k < |log| && Chosen(c, log[..k + 1], t)
    ensures var f := Adopt(log, l[..m]); k < |f| && Chosen(e, f[..k + 1], term)
  {
    var f, p := Adopt(log, l[..m]), log[..k + 1];
    ChosenStartsLeader(c, p, t, term);
    hide Chosen, Inv, Grows;
    AdoptKeeps(log, l, m, p);
    assert f[..k + 1] == p;
    ChosenGrows(c, e, p, t, term);
  }

  lemma OnAppendReqStrong(x: System, y: System, s: int, a: AppendArgs)
    requires Strong(x) && OnAppendReq(x, y, s, a)
    ensures Strong(y)
  {
    hide AppendEntries, SysInv, Grows, CommitOk, Strong, AfterAppend, Inv, ServerOk;
    StrongServer(x, s);
    ServerAt(x, s);
    StrongMsg(x, AppendReqMsg(s, a));
    OnAppendReqKeeps(x, y, s, a);
    var o := x.servers[s];
    var (d, r) := AppendEntries(o, a);
    HintBound(x.core, o, s, x.core.n, a);
    if r.success { AcceptedCommit(x, s, a); } else { RefusedCommit(x, s, a); }
    MsgStrongGrows(x.core, y.core, AppendReqMsg(s, a));
    LeaderLogGrows(x.core, y.core, a.term);
    assert MsgStrong(y.core, AppendRepMsg(s, a, r));
    hide MsgStrong;
    StrongAssemble(x, y, s, {AppendRepMsg(s, a, r)});
  }

  lemma LeaderLogGrows(c: Core, e: Core, t: int)
    requires Grows(c, e) && t in c.leaders
    ensures t in e.leaders && |c.leaders[t].log| <= |e.leaders[t].log|
  {
  }

  // ----- replies to the leader

  /** Bookkeeping for one follower, and then the commit rule. */
  lemma BooksThenCommit(c: Core, o: Server, s: int, match_: seq<int>, next: seq<int>)
    requires Inv(c) && IsPeer(c, s) && c.peers[s] == PeerOf(o) && Shape(o, s, c.n) && CommitOk(c, o) && o.role == Leader
    requires |match_| == |next| == o.n
    requires forall i :: 0 <= i < o.n && i != s && match_[i] > o.base ==>
      match_[i] == o.match_[i] || Acked(c, i, o.term, match_[i])
    ensures CommitOk(c, o.(match_ := match_, next := next))
    ensures CommitOk(c, CheckCommit(o.(match_ := match_, next := next)))
  {
    var d := o.(match_ := match_, next := next);
    assert Full(d) == Full(o);
    hide Chosen, Full, Inv, Acked;
    assert CommitOk(c, d);
    CheckCommitOk(c, d, s);
  }

  lemma AppendReplyBooks(x: System, s: int, from: int, a: AppendArgs, r: AppendReply)
    requires Strong(x) && Has(x, s) && AppendRepMsg(from, a, r) in x.net && a.leader == s && 0 <= from < |x.servers|
    requires ServerOk(x.servers[s], s, x.core.n) && x.servers[s].role == Leader && x.servers[s].term >= r.term
    requires Harmless(x.servers[s], from, a, r) || Acked(x.core, from, x.servers[s].term, a.prevIndex + |a.entries|)
    ensures CommitOk(x.core, HandleAppendReply(x.servers[s], from, a, r))
  {
    hide Chosen, Full, Inv, Acked, LastOfTerm, CheckCommit, CommitOk, Strong, SysInv, CountOk, PeerOk, PeerOf,
      Persisted;
    var o := x.servers[s];
    StrongServer(x, s);
    ServerAt(x, s);
    StrongMsg(x, AppendRepMsg(from, a, r));
    var m := a.prevIndex + |a.entries|;
    var next := o.next[from := if r.success then m + 1
      else if r.conflictTerm == -1 || LastOfTerm(o.log, r.conflictTerm) == -1 then r.conflictIndex
      else LastOfTerm(o.log, r.conflictTerm) + o.base + 1];
    BooksThenCommit(x.core, o, s, if r.success && m > o.match_[from] then o.match_[from := m] else o.match_, next);
  }

  lemma OnAppendRepStrong(x: System, y: System, s: int, from: int, a: AppendArgs, r: AppendReply)
    requires Strong(x) && OnAppendRep(x, y, s, from, a, r)
    requires Harmless(x.servers[s], from, a, r) || Acked(x.core, from, x.servers[s].term, a.prevIndex + |a.entries|)
    ensures Strong(y)
  {
    StrongServer(x, s);
    ServerAt(x, s);
    OnAppendRepKeeps(x, y, s, from, a, r);
    var o := x.servers[s];
    var d := HandleAppendReply(o, from, a, r);
    if r.term > o.term || o.role != Leader {
      assert SameIndexes(o, d);
      hide SysInv, CommitOk, Grows, Strong, SameIndexes, HandleAppendReply, HeardOf, ServerOk, Inv, Harmless, Acked;
      QuietStrong(x, y, s, {});
    } else {
      AppendReplyBooks(x, s, from, a, r);
      assert d.base == o.base;
      hide SysInv, CommitOk, Grows, Strong, HandleAppendReply, ServerOk, Inv, Harmless, Acked;
      StrongAssemble(x, y, s, {});
    }
  }

  // ----- snapshots

  lemma SendInstallStrong(x: System, y: System, s: int, to: int)
    requires Strong(x) && SendInstall(x, y, s, to)
    ensures Strong(y)
  {
    hide SysInv, Grows, CommitOk, Strong, Chosen, Full, Inv, Coherent, TermsUpTo;
    StrongServer(x, s);
    ServerAt(x, s);
    SendInstallKeeps(x, y, s, to);
    var o := x.servers[s];
    FullFacts(o, s, x.core.n);
    assert o.disk.snapshot <= Full(o)[..o.commit + 1];
    ChosenPrefix(x.core, Full(o)[..o.commit + 1], o.disk.snapshot, o.term);
    StrongAssemble(x, y, s, {InstallReqMsg(to, MakeInstallArgs(o))});
  }

  lemma NotInstalledIndexes(o: Server, a: InstallArgs)
    requires |o.log| >= 1 && !(a.term >= o.term && a.lastIndex > o.base)
    ensures var d := InstallSnapshot(o, a).0;
      Full(d) == Full(o) && d.commit == o.commit && d.base == o.base && d.term >= o.term && (a.term < o.term ==> d == o)
  {
  }

  lemma InstalledIndexes(o: Server, a: InstallArgs)
    requires |o.log| >= 1 && a.term >= o.term && a.lastIndex > o.base
    ensures var d := InstallSnapshot(o, a).0;
      d.base == a.lastIndex && d.term == a.term && d.commit == if o.commit < a.lastIndex then a.lastIndex else o.commit
  {
  }

  /** A server that has a snapshot in place holds a committed prefix, and so does what it keeps. */
  lemma InstallCommit(x: System, s: int, a: InstallArgs)
    requires Strong(x) && Has(x, s) && InstallReqMsg(s, a) in x.net
    ensures var o := x.servers[s];
      var d := InstallSnapshot(o, a).0;
      CommitOk(AfterInstall(x.core, s, a, a.term >= o.term && a.lastIndex > o.base), d) && d.base >= o.base
  {
    hide InstallSnapshot, Grows, Strong, HeardFromLeader, Full, Chosen, Inv, Adopt, HeardLeader, LeaderBooks, Acked,
      InstallLog, Coherent, TermsUpTo;
    var o := x.servers[s];
    var d := InstallSnapshot(o, a).0;
    var installed := a.term >= o.term && a.lastIndex > o.base;
    var c := AfterInstall(x.core, s, a, installed);
    StrongServer(x, s);
    StrongMsg(x, InstallReqMsg(s, a));
    ServerAt(x, s);
    InstallFacts(o, s, x.core.n, a);
    AfterInstallKeeps(x, s, a);
    if a.term >= o.term {
      HearerFollows(x.core, s, a.term);
    }
    if installed {
      InstalledIndexes(o, a);
      var l, m := x.core.leaders[a.term].log, a.lastIndex + 1;
      AdoptFromLeader(x.core, s, a.term, m);
      InstallAdopts(x.core, Full(o), a, s);
      if o.commit < a.lastIndex {
        assert l[..m] == a.data;
        AdoptedChosen(x.core, c, Full(o), l, m, a.lastIndex, a.term);
      } else {
        KeptChosen(x.core, c, s, Full(o), l, m, o.commit, o.term, a.term);
      }
    } else {
      NotInstalledIndexes(o, a);
      assert SameIndexes(o, d);
      CommitCarries(x.core, c, o, d);
    }
  }

  lemma OnInstallReqStrong(x: System, y: System, s: int, a: InstallArgs)
    requires Strong(x) && OnInstallReq(x, y, s, a)
    ensures Strong(y)
  {
    hide InstallSnapshot, SysInv, Grows, CommitOk, Strong, AfterInstall, Inv;
    StrongServer(x, s);
    StrongMsg(x, InstallReqMsg(s, a));
    OnInstallReqKeeps(x, y, s, a);
    InstallCommit(x, s, a);
    var (d, t) := InstallSnapshot(x.servers[s], a);
    assert BaseOk(y.servers, InstallRepMsg(s, a, t));
    StrongAssemble(x, y, s, {InstallRepMsg(s, a, t)});
  }

  lemma InstallReplyBooks(x: System, s: int, from: int, a: InstallArgs, t: int)
    requires Strong(x) && Has(x, s) && InstallRepMsg(from, a, t) in x.net && a.leader == s && 0 <= from < |x.servers|
    requires ServerOk(x.servers[s], s, x.core.n)
    requires x.servers[s].role == Leader && x.servers[s].term == a.term >= t
    ensures CommitOk(x.core, HandleInstallReply(x.servers[s], from, a, t))
  {
    hide Chosen, Full, Inv, Acked, CheckCommit, CommitOk, Strong, SysInv, CountOk, PeerOk, PeerOf, Persisted;
    var o := x.servers[s];
    StrongServer(x, s);
    ServerAt(x, s);
    StrongMsg(x, InstallRepMsg(from, a, t));
    BooksThenCommit(x.core, o, s, if o.match_[from] < a.lastIndex then o.match_[from := a.lastIndex] else o.match_,
      if o.next[from] < a.lastIndex + 1 then o.next[from := a.lastIndex + 1] else o.next);
  }

  lemma OnInstallRepStrong(x: System, y: System, s: int, from: int, a: InstallArgs, t: int)
    requires Strong(x) && OnInstallRep(x, y, s, from, a, t)
    ensures Strong(y)
  {
    StrongServer(x, s);
    ServerAt(x, s);
    OnInstallRepKeeps(x, y, s, from, a, t);
    var o := x.servers[s];
    var d := HandleInstallReply(o, from, a, t);
    if t > o.term || o.role != Leader || o.term != a.term {
      assert SameIndexes(o, d);
      hide SysInv, CommitOk, Grows, Strong, SameIndexes, HandleInstallReply, HeardOf, ServerOk, Inv;
      QuietStrong(x, y, s, {});
    } else {
      InstallReplyBooks(x, s, from, a, t);
      assert d.base == o.base;
      hide SysInv, CommitOk, Grows, Strong, HandleInstallReply, ServerOk, Inv;
      StrongAssemble(x, y, s, {});
    }
  }

  // ----- commands, compaction, restart, delivery

  lemma ClientStrong(x: System, y: System, s: int, command: Command)
    requires Strong(x) && Client(x, y, s, command)
    ensures Strong(y)
  {
    StrongServer(x, s);
    ServerAt(x, s);
    ClientKeeps(x, y, s, command);
    var o := x.servers[s];
    var d := StartCommand(o, command).0;
    ClientFacts(o, s, x.core.n, command);
    ClientBooks(x.core, o, s, d, command);
    hide SysInv, CommitOk, Grows, Strong, StartCommand, ServerOk, Inv, Append;
    StrongAssemble(x, y, s, {});
  }

  lemma ClientBooks(c: Core, o: Server, s: int, d: Server, command: Command)
    requires Inv(c) && IsPeer(c, s) && c.peers[s] == PeerOf(o) && CommitOk(c, o) && o.role == Leader
    requires o.term in c.leaders && o.me == s
    requires |o.log| >= 1 && d == StartCommand(o, command).0 && Full(d) == Full(o) + [Entry(Some(command), o.term)]
    ensures CommitOk(Append(c, s, Entry(Some(command), o.term)), d)
  {
    var e := Append(c, s, Entry(Some(command), o.term));
    AppendGrows(c, s, Entry(Some(command), o.term));
    ChosenGrows(c, e, Full(o)[..o.commit + 1], o.term, o.term);
    assert Full(d)[..o.commit + 1] == Full(o)[..o.commit + 1];
    hide Chosen, Full, Inv;
  }

  lemma CompactStrong(x: System, y: System, s: int, index: int)
    requires Strong(x) && Compact(x, y, s, index)
    ensures Strong(y)
  {
    StrongServer(x, s);
    ServerAt(x, s);
    CompactKeeps(x, y, s, index);
    var o := x.servers[s];
    var d := TakeSnapshot(o, index, if index > o.base then Full(o)[..Min(index, LastIndex(o)) + 1] else []);
    CompactFacts(o, s, x.core.n, index);
    CompactBooks(x.core, o, d);
    hide SysInv, CommitOk, Grows, Strong, TakeSnapshot, ServerOk, Inv;
    StrongAssemble(x, y, s, {});
  }

  lemma CompactBooks(c: Core, o: Server, d: Server)
    requires CommitOk(c, o) && PeerOf(d) == PeerOf(o) && d.commit == o.commit && o.base <= d.base <= o.commit
    requires d.n == o.n && d.me == o.me && d.next == o.next && d.match_ == o.match_
    ensures CommitOk(c, d)
  {
    hide Full, Chosen;
  }

  lemma RestartStrong(x: System, y: System, s: int)
    requires Strong(x) && Restart(x, y, s)
    ensures Strong(y)
  {
    hide SysInv, CommitOk, Grows, Strong, Make, ServerOk, Inv;
    StrongServer(x, s);
    ServerAt(x, s);
    RestartKeeps(x, y, s);
    var o := x.servers[s];
    var d := Make(s, x.core.n, o.disk);
    RestartFacts(o, s, x.core.n);
    RestartCommit(x.core, y.core, o, d);
    assert y.net == x.net + {};
    StrongAssemble(x, y, s, {});
  }

  lemma RestartCommit(c: Core, e: Core, o: Server, d: Server)
    requires CommitOk(c, o) && Grows(c, e) && PeerOf(d) == PeerOf(o).(role := Follower) && d.commit == d.base == o.base
    ensures CommitOk(e, d)
  {
    var p := Full(o)[..o.base + 1];
    assert p <= Full(o)[..o.commit + 1];
    ChosenPrefix(c, Full(o)[..o.commit + 1], p, o.term);
    ChosenGrows(c, e, p, o.term, o.term);
    hide Chosen, Full;
  }

  lemma DeliverStrong(x: System, y: System, s: int)
    requires Strong(x) && Deliver(x, y, s)
    ensures Strong(y)
  {
    StrongServer(x, s);
    DeliverKeeps(x, y, s);
    assert SameIndexes(x.servers[s], ApplierTake(x.servers[s]).0);
    hide SysInv, CommitOk, Grows, Strong, SameIndexes, ApplierTake;
    assert y.net == x.net + {};
    QuietStrong(x, y, s, {});
  }

  lemma DeliveredStrong(x: System, y: System, s: int)
    requires Strong(x) && Delivered(x, y, s)
    ensures Strong(y)
  {
    StrongServer(x, s);
    DeliveredKeeps(x, y, s);
    assert SameIndexes(x.servers[s], ApplierDone(x.servers[s]));
    hide SysInv, CommitOk, Grows, Strong, SameIndexes, ApplierDone;
    QuietStrong(x, y, s, {});
  }
}
