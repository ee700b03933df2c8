/** What servers and messages say about commitment is true, as long as no late reply makes a leader
    believe what a follower has not confirmed. */
module RaftCommit {
  import opened Quorums
  import opened RaftCore
  import opened RaftCoreSteps
  import opened RaftServer
  import opened RaftSystem

  /** A leader's bookkeeping: what `match_` claims above the leader's own snapshot is confirmed. */
  ghost predicate LeaderBooks(c: Core, o: Server) {
    && o.n == |o.next| == |o.match_|
    && Acked(c, o.me, o.term, |Full(o)| - 1)
    && (forall i :: 0 <= i < o.n && i != o.me && o.match_[i] > o.base ==> Acked(c, i, o.term, o.match_[i]))
  }

  /** Everything up to the commit index is chosen. */
  ghost predicate CommitOk(c: Core, o: Server) {
    && 0 <= o.base <= o.commit < |Full(o)|
    && Chosen(c, Full(o)[..o.commit + 1], o.term)
    && (o.role == Leader ==> LeaderBooks(c, o))
  }

  ghost predicate MsgStrong(c: Core, m: Msg) {
    match m
    case AppendReqMsg(to, a) => AppendCommitOk(c, a)
    case AppendRepMsg(from, a, r) =>
      && AppendCommitOk(c, a) && r.term >= a.term
      && (!r.success && r.term == a.term ==> a.term in c.leaders && r.conflictIndex <= |c.leaders[a.term].log|)
    case InstallReqMsg(to, a) => Chosen(c, a.data, a.term)
    case _ => true
  }

  ghost predicate AppendCommitOk(c: Core, a: AppendArgs) {
    && 0 <= a.commit <= a.prevIndex + |a.entries|
    && a.term in c.leaders && a.prevIndex + |a.entries| < |c.leaders[a.term].log|
    && Chosen(c, c.leaders[a.term].log[..a.commit + 1], a.term)
  }

  /** A snapshot a leader has sent is not ahead of what it has compacted. */
  ghost predicate BaseOk(servers: seq<Server>, m: Msg) {
    match m
    case InstallReqMsg(to, a) => 0 <= a.leader < |servers| && a.lastIndex <= servers[a.leader].base
    case InstallRepMsg(from, a, t) => 0 <= a.leader < |servers| && a.lastIndex <= servers[a.leader].base
    case _ => true
  }

  ghost predicate Strong(x: System) {
    && SysInv(x)
    && (forall s {:trigger CommitOk(x.core, x.servers[s])} :: 0 <= s < x.core.n ==> CommitOk(x.core, x.servers[s]))
    && (forall m {:trigger MsgStrong(x.core, m)} :: m in x.net ==> MsgStrong(x.core, m))
    && (forall m {:trigger BaseOk(x.servers, m)} :: m in x.net ==> BaseOk(x.servers, m))
  }

  // ----- frames

  lemma CommitFrame(c: Core, d: Core, o: Server)
    requires Grows(c, d) && CommitOk(c, o)
    ensures CommitOk(d, o)
  {
    ChosenGrows(c, d, Full(o)[..o.commit + 1], o.term, o.term);
    hide Chosen, Full;
  }

  lemma MsgStrongGrows(c: Core, d: Core, m: Msg)
    requires Grows(c, d) && MsgStrong(c, m)
    ensures MsgStrong(d, m)
  {
    if m.AppendReqMsg? || m.AppendRepMsg? {
      var a := m.appendArgs;
      var l := c.leaders[a.term].log;
      ChosenGrows(c, d, l[..a.commit + 1], a.term, a.term);
      assert l[..a.commit + 1] == d.leaders[a.term].log[..a.commit + 1];
      hide Chosen;
    } else if m.InstallReqMsg? {
      ChosenGrows(c, d, m.installArgs.data, m.installArgs.term, m.installArgs.term);
    }
  }

  lemma StrongServer(x: System, s: int)
    requires Strong(x) && Has(x, s)
    ensures SysInv(x) && CommitOk(x.core, x.servers[s])
  {
    assert CommitOk(x.core, x.servers[s]);
  }

  lemma StrongMsg(x: System, m: Msg)
    requires Strong(x) && m in x.net
    ensures MsgOk(x.core, m) && MsgStrong(x.core, m) && BaseOk(x.servers, m)
  {
    assert MsgOk(x.core, m) && MsgStrong(x.core, m) && BaseOk(x.servers, m);
  }

  /** What has to be shown of a step beyond the invariant of every run. */
  lemma StrongAssemble(x: System, y: System, s: int, sent: set<Msg>)
    requires Strong(x) && SysInv(y) && Has(x, s) && Grows(x.core, y.core)
    requires |y.servers| == |x.servers| && y.net == x.net + sent
    requires forall r :: 0 <= r < x.core.n && r != s ==> y.servers[r] == x.servers[r]
    requires y.servers[s].base >= x.servers[s].base && CommitOk(y.core, y.servers[s])
    requires forall m :: m in sent ==> MsgStrong(y.core, m) && BaseOk(y.servers, m)
    ensures Strong(y)
  {
    hide SysInv, CommitOk, MsgStrong, Grows;
    GrowsPeers(x.core, y.core);
    forall r | 0 <= r < y.core.n ensures CommitOk(y.core, y.servers[r]) {
      if r != s {
        assert CommitOk(x.core, x.servers[r]);
        CommitFrame(x.core, y.core, x.servers[r]);
      }
    }
    forall m | m in y.net ensures MsgStrong(y.core, m) && BaseOk(y.servers, m) {
      if m in x.net {
        assert MsgStrong(x.core, m) && BaseOk(x.servers, m);
        MsgStrongGrows(x.core, y.core, m);
      }
    }
  }

  // ----- the commit rule

  /** The servers that `Holders` counts. */
  ghost function HoldersSet(o: Server, index: int, k: nat): (q: set<int>)
    requires k <= |o.match_|
    ensures |q| == Holders(o, index, k)
    ensures forall i :: i in q <==> i == o.me || (0 <= i < k && o.match_[i] >= index)
  {
    if k == 0 then {o.me}
    else HoldersSet(o, index, k - 1) + if k - 1 != o.me && o.match_[k - 1] >= index then {k - 1} else {}
  }

  lemma {:induction false} CommitFromFacts(o: Server, index: int)
    requires |o.match_| >= o.n && index <= LastIndex(o)
    ensures var r := CommitFrom(o, index);
      r == o.commit ||
      (o.commit < r <= index && o.base < r && Holders(o, r, o.n) > o.n / 2 && LogTerm(o, r) == o.term)
    decreases index - o.commit
  {
    if index <= o.commit || index <= o.base {
    } else if Holders(o, index, o.n) > o.n / 2 && LogTerm(o, index) == o.term {
    } else {
      CommitFromFacts(o, index - 1);
    }
  }

  /** The commit rule only commits what a majority has confirmed in the leader's term. */
  lemma CheckCommitOk(c: Core, o: Server, s: int)
    requires Inv(c) && IsPeer(c, s) && c.peers[s] == PeerOf(o) && Shape(o, s, c.n)
    requires CommitOk(c, o)
    ensures CommitOk(c, CheckCommit(o))
  {
    hide Chosen, Inv, CommitFrom, Acked, Holders;
    if o.role == Leader {
      var d := CheckCommit(o);
      CommitFromFacts(o, LastIndex(o));
      SameLog(o, d, s, c.n);
      FullFacts(o, s, c.n);
      if d.commit != o.commit {
        HeldIsCommitted(c, o, s, d.commit);
      }
    }
  }

  lemma HeldIsCommitted(c: Core, o: Server, s: int, k: int)
    requires Inv(c) && IsPeer(c, s) && c.peers[s] == PeerOf(o) && Shape(o, s, c.n) && o.role == Leader
    requires LeaderBooks(c, o)
    requires o.base < k < |Full(o)| && Full(o)[k].term == o.term && |HoldersSet(o, k, o.n)| > o.n / 2
    ensures Chosen(c, Full(o)[..k + 1], o.term)
  {
    assert PeerOk(c, s);
    var q := HoldersSet(o, k, o.n);
    assert Quorum(c.n, q);
    assert AllAcked(c, q, o.term, k);
    assert Own(c, o.term, k);
    assert Committed(c, o.term, k);
    assert ChosenBy(c, Full(o)[..k + 1], o.term, o.term, k);
  }
}
