/** Every step of the cluster is a step of Raft on uncompacted logs, or leaves those as they are: the
    election steps. A step is proved to keep the invariant in three parts, which `Assemble` puts together:
    what the server's new state is as a peer, what the step does to the history, and that the messages
    it sends say what is true and stays true. */
module RaftSystemSteps {
  import opened Collections
  import opened Quorums
  import opened RaftCore
  import opened RaftCoreSteps
  import opened RaftServer
  import opened RaftSystem

  lemma GrantedGrows(c: Core, d: Core, s: int, t: int, awaiting: set<int>)
    requires Grows(c, d)
    ensures |Granted(c, s, t, awaiting)| <= |Granted(d, s, t, awaiting)|
  {
    SubsetSize(Granted(c, s, t, awaiting), Granted(d, s, t, awaiting));
  }

  lemma NetGrows(c: Core, d: Core, net: set<Msg>, sent: set<Msg>)
    requires Grows(c, d) && NetOk(c, net) && NetOk(d, sent)
    ensures NetOk(d, net + sent)
  {
    hide MsgOk, Grows;
    forall m | m in net + sent ensures MsgOk(d, m) {
      if m in net {
        assert MsgOk(c, m);
        MsgGrows(c, d, m);
      } else {
        assert MsgOk(d, m);
      }
    }
  }

  lemma OthersStay(x: System, y: System, s: int)
    requires SysInv(x) && Has(x, s) && Grows(x.core, y.core)
    requires |y.servers| == |x.servers| && |y.core.peers| == |x.core.peers|
    requires forall r :: 0 <= r < x.core.n && r != s ==>
      y.servers[r] == x.servers[r] && y.core.peers[r] == x.core.peers[r]
    ensures forall r {:trigger ServerInv(y, r)} :: 0 <= r < x.core.n && r != s ==> ServerInv(y, r)
  {
    forall r | 0 <= r < x.core.n && r != s ensures ServerInv(y, r) {
      assert ServerInv(x, r);
      GrantedGrows(x.core, y.core, r, x.servers[r].term, x.servers[r].awaiting);
    }
  }

  /** What has to be shown of a step: the history grows and keeps its invariant, the server that
      moved mirrors its peer, and what it sends is true. */
  lemma Assemble(x: System, y: System, s: int, d: Server, c: Core, sent: set<Msg>)
    requires SysInv(x) && Has(x, s) && Moves(x, y, s, d, c, sent)
    requires Inv(c) && Grows(x.core, c)
    requires forall r :: 0 <= r < x.core.n && r != s ==> c.peers[r] == x.core.peers[r]
    requires ServerOk(d, s, x.core.n) && c.peers[s] == PeerOf(d) && CountOk(c, d)
    requires NetOk(c, sent)
    ensures SysInv(y)
  {
    NetGrows(x.core, c, x.net, sent);
    hide ServerOk, CountOk, Inv, NetOk, PeerOf;
    GrowsPeers(x.core, c);
    OthersStay(x, y, s);
    assert ServerInv(y, s);
  }

  lemma HeardOfKeeps(c: Core, s: int, term: int)
    requires Inv(c) && IsPeer(c, s)
    ensures Inv(HeardOf(c, s, term)) && Grows(c, HeardOf(c, s, term))
    ensures forall r :: 0 <= r < c.n && r != s ==> HeardOf(c, s, term).peers[r] == c.peers[r]
  {
    if term > c.peers[s].term {
      var p := c.peers[s].(term := term, vote := NOBODY, role := Follower);
      var d := Quiet(c, s, p);
    } else {
      GrowsRefl(c);
    }
  }

  lemma HeardLeaderKeeps(c: Core, s: int, term: int)
    requires Inv(c) && IsPeer(c, s)
    ensures Inv(HeardLeader(c, s, term)) && Grows(c, HeardLeader(c, s, term))
    ensures forall r :: 0 <= r < c.n && r != s ==> HeardLeader(c, s, term).peers[r] == c.peers[r]
  {
    HeardOfKeeps(c, s, term);
    var b := HeardOf(c, s, term);
    if term >= c.peers[s].term && b.peers[s].role == Candidate {
      var d := Quiet(b, s, b.peers[s].(role := Follower));
      GrowsTrans(c, b, d);
    }
  }

  lemma ServerAt(x: System, s: int)
    requires SysInv(x) && Has(x, s)
    ensures Inv(x.core) && IsPeer(x.core, s) && PeerOk(x.core, s)
    ensures ServerOk(x.servers[s], s, x.core.n) && x.core.peers[s] == PeerOf(x.servers[s])
    ensures CountOk(x.core, x.servers[s])
  {
    assert ServerInv(x, s) && PeerOk(x.core, s);
  }

  lemma MsgIn(x: System, m: Msg)
    requires SysInv(x) && m in x.net
    ensures MsgOk(x.core, m)
  {
  }

  // ----- elections

  lemma StartElectionFacts(o: Server, me: int, n: nat)
    requires ServerOk(o, me, n)
    ensures var (d, a) := StartElection(o);
      && ServerOk(d, me, n) && PeerOf(d) == Peer(o.term + 1, me, Full(o), Candidate)
      && a == VoteArgs(o.term + 1, me, |Full(o)| - 1, Last(Full(o)).term) && Full(o) != []
      && d.votes == 1 && me !in d.awaiting
  {
    FullFacts(o, me, n);
    SameLog(o, StartElection(o).0, me, n);
    SameLog(o, o.(role := Candidate, term := o.term + 1, vote := o.me, votes := 1, awaiting := UpTo(o.n) - {o.me}), me, n);
    hide Shape, Full, LastIndex, LastTerm;
  }

  lemma OwnVoteCounts(c: Core, s: int, d: Server)
    requires IsPeer(c, s) && PeerOk(c, s) && c.peers[s] == PeerOf(d) && d.me == s && d.votes == 1 && s !in d.awaiting
    ensures CountOk(c, d)
  {
    if d.role == Candidate {
      assert s in Granted(c, s, d.term, d.awaiting);
    }
  }

  lemma TimeoutKeeps(x: System, y: System, s: int)
    requires SysInv(x) && Timeout(x, y, s)
    ensures SysInv(y) && Grows(x.core, y.core)
  {
    hide StartElection, ServerOk, Full, Inv, Grows, SysInv, PeerOk, CountOk, Granted, NetOk;
    var o := x.servers[s];
    ServerAt(x, s);
    StartElectionFacts(o, s, x.core.n);
    var (d, a) := StartElection(o);
    var c := Campaign(x.core, s);
    CampaignKeeps(x.core, s);
    InvPeer(c, s);
    assert d.me == s by { ShapeMe(d, s, x.core.n); }
    OwnVoteCounts(c, s, d);
    var sent := set to | to in UpTo(x.core.n) - {s} :: VoteReqMsg(to, a);
    forall m | m in sent ensures MsgOk(c, m) {
      assert c.cands[(s, a.term)] == Full(o);
    }
    assert NetOk(c, sent) by { AllMsgs(c, sent); }
    Assemble(x, y, s, d, c, sent);
  }

  lemma ShapeMe(d: Server, s: int, n: nat)
    requires ServerOk(d, s, n)
    ensures d.me == s && d.n == n == |d.next| == |d.match_| && 0 <= s < n
  {
  }

  lemma InvPeer(c: Core, s: int)
    requires Inv(c) && 0 <= s < c.n
    ensures IsPeer(c, s) && PeerOk(c, s)
  {
    assert PeerOk(c, s);
  }

  lemma AllMsgs(c: Core, sent: set<Msg>)
    requires forall m :: m in sent ==> MsgOk(c, m)
    ensures NetOk(c, sent)
  {
  }

  lemma VoteCountStays(c: Core, e: Core, o: Server, d: Server)
    requires Grows(c, e) && CountOk(c, o)
    requires d.role == Candidate ==>
      o.role == Candidate && d.term == o.term && d.me == o.me && d.votes == o.votes && d.awaiting == o.awaiting
    ensures CountOk(e, d)
  {
    if d.role == Candidate {
      GrantedGrows(c, e, o.me, o.term, o.awaiting);
    }
  }

  function Heard(p: Peer, term: int): Peer {
    if term > p.term then p.(term := term, vote := NOBODY, role := Follower) else p
  }

  /** What a vote request does to the server, seen as a peer. */
  lemma RequestVoteFacts(o: Server, me: int, n: nat, a: VoteArgs)
    requires ServerOk(o, me, n)
    ensures var (d, r) := RequestVote(o, a);
      var h := Heard(PeerOf(o), a.term);
      && ServerOk(d, me, n)
      && PeerOf(d) == (if r.granted then h.(vote := a.candidate) else h)
      && (r.granted ==>
            && a.term == h.term && (h.vote == NOBODY || h.vote == a.candidate)
            && (a.lastTerm > Last(Full(o)).term || (a.lastTerm == Last(Full(o)).term && a.lastIndex >= |Full(o)| - 1)))
      && (d.role == Candidate ==>
          o.role == Candidate && d.term == o.term && d.me == o.me && d.votes == o.votes && d.awaiting == o.awaiting)
  {
    hide Shape, Full, LastIndex, LastTerm;
    FullFacts(o, me, n);
    SameLog(o, StepDown(o, a.term), me, n);
    SameLog(o, RequestVote(o, a).0, me, n);
  }

  lemma GrantOnRequest(x: System, s: int, a: VoteArgs)
    requires SysInv(x) && Has(x, s) && VoteReqMsg(s, a) in x.net
    ensures var (d, r) := RequestVote(x.servers[s], a);
      var c := HeardOf(x.core, s, a.term);
      && Inv(c) && Grows(x.core, c) && IsPeer(c, s) && c.peers[s] == Heard(PeerOf(x.servers[s]), a.term)
      && (r.granted ==> MayGrant(c, s, a.candidate) && c.peers[s].term == a.term)
  {
    ServerAt(x, s);
    MsgIn(x, VoteReqMsg(s, a));
    RequestVoteFacts(x.servers[s], s, x.core.n, a);
    HeardOfKeeps(x.core, s, a.term);
    MsgGrows(x.core, HeardOf(x.core, s, a.term), VoteReqMsg(s, a));
    hide RequestVote, ServerOk, Full, Inv, Grows, SysInv, PeerOk, CountOk, Granted;
  }

  lemma OnVoteReqKeeps(x: System, y: System, s: int, a: VoteArgs)
    requires SysInv(x) && OnVoteReq(x, y, s, a)
    ensures SysInv(y) && Grows(x.core, y.core)
  {
    hide RequestVote, ServerOk, Full, Inv, Grows, SysInv, PeerOk, CountOk, Granted, MayGrant, HeardOf, NetOk;
    var o := x.servers[s];
    ServerAt(x, s);
    RequestVoteFacts(o, s, x.core.n, a);
    GrantOnRequest(x, s, a);
    HeardOfKeeps(x.core, s, a.term);
    var (d, r) := RequestVote(o, a);
    var c := HeardOf(x.core, s, a.term);
    var e := if r.granted then Grant(c, s, a.candidate) else c;
    if r.granted {
      GrantKeeps(c, s, a.candidate);
      GrowsTrans(x.core, c, e);
    }
    VoteCountStays(x.core, e, o, d);
    GrowsPeers(x.core, c);
    OneMsg(e, VoteRepMsg(s, a, r));
    Assemble(x, y, s, d, e, {VoteRepMsg(s, a, r)});
  }

  lemma OneMsg(c: Core, m: Msg)
    ensures MsgOk(c, m) ==> NetOk(c, {m})
  {
  }

  /** What a vote reply does to the server, seen as a peer. */
  lemma VoteReplyFacts(o: Server, me: int, n: nat, from: int, a: VoteArgs, r: VoteReply)
    requires ServerOk(o, me, n) && o.term == a.term && o.role == Candidate
    ensures var d := HandleVoteReply(o, from, a, r);
      && ServerOk(d, me, n)
      && PeerOf(d) == (if d.role == Leader then PeerOf(o).(role := Leader) else Heard(PeerOf(o), r.term))
      && (d.role == Leader ==>
          r.granted && r.term <= o.term && o.votes + 1 > n / 2 && d.awaiting == o.awaiting - {from})
      && (d.role == Candidate ==>
          r.term <= o.term && d.awaiting == o.awaiting - {from} && d.votes == o.votes + if r.granted then 1 else 0)
  {
    SameLog(o, HandleVoteReply(o, from, a, r), me, n);
    hide Shape, Full, LastIndex, LastTerm;
  }

  /** Handling one more answer: the servers that voted and have been heard of cover the count. */
  lemma CountOneMore(c: Core, o: Server, from: int, granted: bool)
    requires CountOk(c, o) && o.role == Candidate && from in o.awaiting
    requires granted ==> (from, o.term) in c.votes && c.votes[(from, o.term)] == o.me && 0 <= from < c.n
    ensures o.votes + (if granted then 1 else 0) <= |Granted(c, o.me, o.term, o.awaiting - {from})|
  {
    var before, after := Granted(c, o.me, o.term, o.awaiting), Granted(c, o.me, o.term, o.awaiting - {from});
    if granted {
      assert before + {from} <= after && from !in before;
      SubsetSize(before + {from}, after);
    } else {
      SubsetSize(before, after);
    }
  }

  lemma OnVoteRepKeeps(x: System, y: System, s: int, from: int, a: VoteArgs, r: VoteReply)
    requires SysInv(x) && OnVoteRep(x, y, s, from, a, r)
    ensures SysInv(y) && Grows(x.core, y.core)
  {
    hide HandleVoteReply, ServerOk, Full, Inv, Grows, SysInv, PeerOk, Granted, NetOk, HeardOf;
    var o := x.servers[s];
    var d := HandleVoteReply(o, from, a, r);
    ServerAt(x, s);
    ShapeMe(o, s, x.core.n);
    MsgIn(x, VoteRepMsg(from, a, r));
    if o.term != a.term || o.role != Candidate {
      StaleVoteReply(o, from, a, r);
      GrowsRefl(x.core);
      NoMsgs(x.core);
      Assemble(x, y, s, o, x.core, {});
    } else {
      VoteReplyFacts(o, s, x.core.n, from, a, r);
      ShapeMe(d, s, x.core.n);
      CountOneMore(x.core, o, from, r.granted);
      if d.role == Leader {
        var q := Granted(x.core, s, o.term, d.awaiting);
        GrantedIsQuorum(x.core, s, o.term, d.awaiting);
        assert MayElect(x.core, s, q);
        ElectKeeps(x.core, s, q);
        NoMsgs(Elect(x.core, s, q));
        Assemble(x, y, s, d, Elect(x.core, s, q), {});
      } else {
        var c := HeardOf(x.core, s, r.term);
        HeardOfKeeps(x.core, s, r.term);
        HeardIsHeard(x.core, s, r.term);
        GrantedGrows(x.core, c, s, o.term, d.awaiting);
        NoMsgs(c);
        Assemble(x, y, s, d, c, {});
      }
    }
  }

  lemma StaleVoteReply(o: Server, from: int, a: VoteArgs, r: VoteReply)
    requires o.term != a.term || o.role != Candidate
    ensures HandleVoteReply(o, from, a, r) == o
  {
  }

  lemma NoMsgs(c: Core)
    ensures NetOk(c, {})
  {
  }

  lemma GrantedIsQuorum(c: Core, s: int, t: int, awaiting: set<int>)
    requires |Granted(c, s, t, awaiting)| > c.n / 2
    ensures Quorum(c.n, Granted(c, s, t, awaiting))
    ensures forall v :: v in Granted(c, s, t, awaiting) ==> (v, t) in c.votes && c.votes[(v, t)] == s
  {
  }

  lemma HeardIsHeard(c: Core, s: int, term: int)
    requires IsPeer(c, s)
    ensures IsPeer(HeardOf(c, s, term), s) && HeardOf(c, s, term).peers[s] == Heard(c.peers[s], term)
    ensures HeardOf(c, s, term).n == c.n
  {
  }
}
