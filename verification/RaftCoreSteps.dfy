/** The steps of Raft on uncompacted logs, and that each of them keeps the invariant. */
module RaftCoreSteps {
  import opened Quorums
  import opened RaftLog
  import opened RaftCore

  // ----- frames: what survives any growing step

  lemma PeerFrame(c: Core, d: Core, s: int)
    requires Grows(c, d) && IsPeer(c, s) && PeerOk(c, s)
    requires d.peers[s] == c.peers[s]
    requires c.peers[s].role == Candidate && c.peers[s].term in d.leaders ==> d.leaders[c.peers[s].term].owner != s
    requires c.peers[s].role == Leader && c.peers[s].term in c.leaders ==>
      d.leaders[c.peers[s].term].log == c.leaders[c.peers[s].term].log
    ensures PeerOk(d, s)
  {
    CoherentGrows(c, d, c.peers[s].log);
    hide Coherent, TermsUpTo;
  }

  lemma CandFrame(c: Core, d: Core, s: int, t: int)
    requires Grows(c, d) && (s, t) in c.cands && CandOk(c, s, t)
    ensures CandOk(d, s, t)
  {
    CoherentGrows(c, d, c.cands[(s, t)]);
    hide Coherent, TermsUpTo;
  }

  lemma LeaderFrame(c: Core, d: Core, t: int)
    requires Grows(c, d) && t in c.leaders && LeaderOk(c, t) && d.leaders[t].log == c.leaders[t].log
    ensures LeaderOk(d, t)
  {
    CoherentGrows(c, d, c.leaders[t].log);
    hide Coherent, TermsUpTo;
  }

  lemma OwnBack(c: Core, d: Core, t: int, k: int)
    requires LeadersGrow(c, d) && t in c.leaders && k < |c.leaders[t].log| && Own(d, t, k)
    ensures Own(c, t, k)
  {
  }

  lemma AckFrame(c: Core, d: Core, s: int, t: int)
    requires Grows(c, d) && (s, t) in c.acks && AckOk(c, s, t)
    requires (s, t) in d.acks && d.acks[(s, t)] == c.acks[(s, t)] && c.peers[s].log <= d.peers[s].log
    ensures AckOk(d, s, t)
  {
    forall k | Own(d, t, k) && k <= d.acks[(s, t)] ensures Safe(d, t, k, d.peers[s].log) {
      OwnBack(c, d, t, k);
      SafeGrows(c, d, t, k, c.peers[s].log);
    }
  }

  lemma LaterFrame(c: Core, d: Core, t: int, u: int)
    requires Grows(c, d) && u in c.leaders && LaterOk(c, t, u)
    requires t in d.leaders ==> t in c.leaders && d.leaders[t].log == c.leaders[t].log
    ensures LaterOk(d, t, u)
  {
    forall k | Own(d, t, k) && t < u ensures Safe(d, t, k, d.leaders[u].log) {
      SafeGrows(c, d, t, k, c.leaders[u].log);
    }
  }

  lemma VoteSafeFrame(c: Core, d: Core, s: int, u: int, t: int)
    requires Grows(c, d) && (s, u) in c.votes && VoteOk(c, s, u) && VoteSafe(c, s, u, t)
    requires (s, t) in c.acks ==> AckOk(c, s, t)
    ensures VoteSafe(d, s, u, t)
  {
    var cand := c.cands[(c.votes[(s, u)], u)];
    forall k | Own(d, t, k) && t < u && Acked(d, s, t, k) ensures Safe(d, t, k, cand) {
      assert Acked(c, s, t, k);
      OwnBack(c, d, t, k);
      SafeGrows(c, d, t, k, cand);
    }
  }

  // ----- frames for whole families

  lemma PeersFrame(c: Core, d: Core, s: int)
    requires Inv(c) && Grows(c, d)
    requires forall r :: 0 <= r < c.n && r != s ==> d.peers[r] == c.peers[r]
    requires forall r :: (0 <= r < c.n && r != s && c.peers[r].role == Candidate && c.peers[r].term in d.leaders ==>
      d.leaders[c.peers[r].term].owner != r)
    requires forall r :: (0 <= r < c.n && r != s && c.peers[r].role == Leader && c.peers[r].term in c.leaders ==>
      d.leaders[c.peers[r].term].log == c.leaders[c.peers[r].term].log)
    ensures forall r {:trigger PeerOk(d, r)} :: 0 <= r < c.n && r != s ==> PeerOk(d, r)
  {
    hide Grows, PeerOk;
    GrowsPeers(c, d);
    forall r | 0 <= r < c.n && r != s ensures PeerOk(d, r) {
      assert PeerOk(c, r);
      PeerFrame(c, d, r);
    }
  }

  lemma GrowsPeers(c: Core, d: Core)
    requires Grows(c, d)
    ensures d.n == c.n == |c.peers| == |d.peers|
    ensures LeadersGrow(c, d)
  {
  }

  lemma VotesFrame(c: Core, d: Core, s: int)
    requires Inv(c) && Grows(c, d) && IsPeer(c, s)
    requires forall r :: 0 <= r < c.n && r != s ==>
      d.peers[r].term == c.peers[r].term && d.peers[r].vote == c.peers[r].vote
    requires d.peers[s].term == c.peers[s].term ==>
      d.peers[s].vote == c.peers[s].vote || (s, c.peers[s].term) !in c.votes
    ensures forall r, t {:trigger VoteOk(d, r, t)} :: (r, t) in c.votes ==> (r, t) in d.votes && VoteOk(d, r, t)
  {
    forall r, t | (r, t) in c.votes ensures (r, t) in d.votes && VoteOk(d, r, t) {
      assert VoteOk(c, r, t);
    }
  }

  lemma CandsFrame(c: Core, d: Core)
    requires Inv(c) && Grows(c, d)
    ensures forall r, t {:trigger CandOk(d, r, t)} :: (r, t) in c.cands ==> (r, t) in d.cands && CandOk(d, r, t)
  {
    hide PeerOk, VoteOk, CandOk, LeaderOk, AckOk, LaterOk, VoteSafe;
    forall r, t | (r, t) in c.cands ensures (r, t) in d.cands && CandOk(d, r, t) {
      assert CandOk(c, r, t);
      CandFrame(c, d, r, t);
    }
  }

  lemma LeadersFrame(c: Core, d: Core)
    requires Inv(c) && Grows(c, d)
    ensures forall t {:trigger LeaderOk(d, t)} :: t in c.leaders && d.leaders[t].log == c.leaders[t].log ==>
      LeaderOk(d, t)
  {
    hide PeerOk, VoteOk, CandOk, LeaderOk, AckOk, LaterOk, VoteSafe;
    forall t | t in c.leaders && d.leaders[t].log == c.leaders[t].log ensures LeaderOk(d, t) {
      assert LeaderOk(c, t);
      LeaderFrame(c, d, t);
    }
  }

  lemma AcksInRange(c: Core)
    requires Inv(c)
    ensures forall r, t :: (r, t) in c.acks ==> IsPeer(c, r) && t <= c.peers[r].term
  {
    forall r, t | (r, t) in c.acks ensures IsPeer(c, r) && t <= c.peers[r].term {
      assert AckOk(c, r, t);
    }
  }

  lemma AcksFrame(c: Core, d: Core)
    requires Inv(c) && Grows(c, d)
    ensures forall r, t :: (r, t) in c.acks ==> IsPeer(c, r) && t <= c.peers[r].term
    ensures forall r, t {:trigger AckOk(d, r, t)} ::
      ((r, t) in c.acks && (r, t) in d.acks && d.acks[(r, t)] == c.acks[(r, t)]
        && IsPeer(c, r) && c.peers[r].log <= d.peers[r].log ==>
        AckOk(d, r, t))
  {
    AcksInRange(c);
    hide PeerOk, VoteOk, CandOk, LeaderOk, AckOk, LaterOk, VoteSafe;
    forall r, t | (r, t) in c.acks && (r, t) in d.acks && d.acks[(r, t)] == c.acks[(r, t)]
                  && IsPeer(c, r) && c.peers[r].log <= d.peers[r].log
      ensures AckOk(d, r, t)
    {
      assert AckOk(c, r, t);
      AckFrame(c, d, r, t);
    }
  }

  lemma LatersFrame(c: Core, d: Core)
    requires Inv(c) && Grows(c, d)
    ensures forall t, u {:trigger LaterOk(d, t, u)} ::
      u in c.leaders && (t in d.leaders ==> t in c.leaders && d.leaders[t].log == c.leaders[t].log) ==>
        u in d.leaders && LaterOk(d, t, u)
  {
    hide PeerOk, VoteOk, CandOk, LeaderOk, AckOk, LaterOk, VoteSafe;
    forall t, u | u in c.leaders && (t in d.leaders ==> t in c.leaders && d.leaders[t].log == c.leaders[t].log)
      ensures LaterOk(d, t, u)
    {
      assert LaterOk(c, t, u);
      LaterFrame(c, d, t, u);
    }
  }

  lemma VotesStay(c: Core, d: Core)
    requires Inv(c) && Grows(c, d)
    ensures forall r, u :: (r, u) in c.votes ==> (r, u) in d.votes && (d.votes[(r, u)], u) in d.cands
  {
    forall r, u | (r, u) in c.votes ensures (r, u) in d.votes && (d.votes[(r, u)], u) in d.cands {
      assert VoteOk(c, r, u);
    }
  }

  lemma VoteSafesFrame(c: Core, d: Core)
    requires Inv(c) && Grows(c, d)
    ensures forall r, u :: (r, u) in c.votes ==> (r, u) in d.votes && (d.votes[(r, u)], u) in d.cands
    ensures forall r, u, t {:trigger VoteSafe(d, r, u, t)} :: (r, u) in c.votes ==> VoteSafe(d, r, u, t)
  {
    hide PeerOk, CandOk, LeaderOk, AckOk, LaterOk, VoteSafe;
    VotesStay(c, d);
    forall r, u, t {:trigger VoteSafe(d, r, u, t)} | (r, u) in c.votes ensures VoteSafe(d, r, u, t) {
      assert VoteOk(c, r, u) && VoteSafe(c, r, u, t);
      assert (r, t) in c.acks ==> AckOk(c, r, t);
      VoteSafeFrame(c, d, r, u, t);
    }
  }

  /** A candidate has not been elected in its term. */
  lemma CandidatesAreNew(c: Core)
    requires Inv(c)
    ensures forall r :: (0 <= r < c.n && c.peers[r].role == Candidate && c.peers[r].term in c.leaders ==>
      c.leaders[c.peers[r].term].owner != r)
  {
    forall r | 0 <= r < c.n && c.peers[r].role == Candidate && c.peers[r].term in c.leaders
      ensures c.leaders[c.peers[r].term].owner != r
    {
      assert PeerOk(c, r);
    }
  }

  // ----- a server learns of a newer term, or falls back to following

  lemma Quiet(c: Core, s: int, p: Peer) returns (d: Core)
    requires Inv(c) && IsPeer(c, s)
    requires p.log == c.peers[s].log && p.term >= c.peers[s].term && p.role == Follower
    requires p.term == c.peers[s].term ==> p.vote == c.peers[s].vote
    ensures d == c.(peers := c.peers[s := p])
    ensures Inv(d) && Grows(c, d)
  {
    d := c.(peers := c.peers[s := p]);
    assert PeerOk(c, s);
    assert Grows(c, d);
    assert PeerOk(d, s) by { CoherentGrows(c, d, p.log); }
    CandidatesAreNew(c);
    PeersFrame(c, d, s);
    VotesFrame(c, d, s);
    CandsFrame(c, d);
    LeadersFrame(c, d);
    AcksFrame(c, d);
    LatersFrame(c, d);
    VoteSafesFrame(c, d);
    hide PeerOk, VoteOk, CandOk, LeaderOk, AckOk, LaterOk, VoteSafe, Grows;
  }

  // ----- starting an election

  ghost function Campaign(c: Core, s: int): Core
    requires IsPeer(c, s)
  {
    var p := c.peers[s];
    c.(peers := c.peers[s := Peer(p.term + 1, s, p.log, Candidate)],
       votes := c.votes[(s, p.term + 1) := s],
       cands := c.cands[(s, p.term + 1) := p.log])
  }

  /** A server's history lies in terms it has reached. */
  lemma HistoryIsPast(c: Core, s: int)
    requires Inv(c) && IsPeer(c, s)
    ensures forall t :: (s, t) in c.votes ==> t <= c.peers[s].term
    ensures forall t :: (s, t) in c.cands ==> t <= c.peers[s].term
    ensures forall t :: t in c.leaders && c.leaders[t].owner == s ==> t <= c.peers[s].term
  {
    forall t | (s, t) in c.votes ensures t <= c.peers[s].term {
      assert VoteOk(c, s, t);
    }
    forall t | (s, t) in c.cands ensures t <= c.peers[s].term {
      assert CandOk(c, s, t);
    }
    forall t | t in c.leaders && c.leaders[t].owner == s ensures t <= c.peers[s].term {
      assert LeaderOk(c, t);
    }
  }

  lemma CampaignKeeps(c: Core, s: int)
    requires Inv(c) && IsPeer(c, s)
    ensures Inv(Campaign(c, s)) && Grows(c, Campaign(c, s))
  {
    var d, p := Campaign(c, s), c.peers[s];
    var t := p.term + 1;
    HistoryIsPast(c, s);
    assert PeerOk(c, s);
    assert Grows(c, d);
    CoherentGrows(c, d, p.log);
    assert PeerOk(d, s) && VoteOk(d, s, t) && CandOk(d, s, t);
    forall u ensures VoteSafe(d, s, t, u) {
      OwnLogIsSafe(c, d, s, u);
    }
    CandidatesAreNew(c);
    PeersFrame(c, d, s);
    VotesFrame(c, d, s);
    CandsFrame(c, d);
    LeadersFrame(c, d);
    AcksFrame(c, d);
    LatersFrame(c, d);
    VoteSafesFrame(c, d);
    hide PeerOk, VoteOk, CandOk, LeaderOk, AckOk, LaterOk, VoteSafe, Grows;
  }

  /** What a server has confirmed is in its own log, in which it starts its campaign. */
  lemma OwnLogIsSafe(c: Core, d: Core, s: int, u: int)
    requires Inv(c) && IsPeer(c, s) && d == Campaign(c, s) && Grows(c, d)
    ensures VoteSafe(d, s, c.peers[s].term + 1, u)
  {
    var log := c.peers[s].log;
    forall k | Own(d, u, k) && u < c.peers[s].term + 1 && Acked(d, s, u, k) ensures Safe(d, u, k, log) {
      assert Acked(c, s, u, k);
      assert AckOk(c, s, u);
      SafeGrows(c, d, u, k, log);
    }
  }

  // ----- granting a vote

  ghost predicate MayGrant(c: Core, s: int, x: int) {
    && IsPeer(c, s) && IsPeer(c, x)
    && var p := c.peers[s];
       && (p.vote == NOBODY || p.vote == x)
       && (x, p.term) in c.cands && c.cands[(x, p.term)] != [] && p.log != []
       && UpToDate(c.cands[(x, p.term)], p.log)
  }

  ghost function Grant(c: Core, s: int, x: int): Core
    requires IsPeer(c, s)
  {
    c.(peers := c.peers[s := c.peers[s].(vote := x)], votes := c.votes[(s, c.peers[s].term) := x])
  }

  /** Terms never decrease along a log. */
  lemma TermsSorted(c: Core, log: Log, i: int, j: int)
    requires Inv(c) && Coherent(c, log) && 0 <= i <= j < |log|
    ensures log[i].term <= log[j].term
  {
    if j > 0 {
      assert StartsLeader(c, log[j].term, log[..j + 1]);
      assert LeaderOk(c, log[j].term);
      var l := c.leaders[log[j].term].log;
      assert l[i] == log[..j + 1][i] == log[i];
    }
  }

  /** A log as new as one that contains an entry contains it too, or the entry is dead. */
  lemma NewerLogIsSafe(c: Core, cand: Log, log: Log, t: int, k: int)
    requires Inv(c) && Coherent(c, cand) && Coherent(c, log) && UpToDate(cand, log)
    requires Own(c, t, k) && c.leaders[t].log[..k + 1] <= log
    ensures Safe(c, t, k, cand)
  {
    var l, last := c.leaders[t].log, |cand| - 1;
    assert LeaderOk(c, t);
    assert log[k] == l[..k + 1][k] == l[k];
    TermsSorted(c, log, k, |log| - 1);
    var u := cand[last].term;
    assert u >= t >= 1;
    assert last >= 1;
    assert StartsLeader(c, u, cand[..last + 1]);
    assert cand[..last + 1] == cand;
    if u == t {
      var j := |log| - 1;
      assert StartsLeader(c, log[j].term, log[..j + 1]);
      assert log[..j + 1] == log;
      assert log[j].term == t;
    } else {
      assert LaterOk(c, t, u);
      assert Safe(c, t, k, c.leaders[u].log);
      if !Dead(c, t, k) {
        LaterEntryIsBehind(c, cand, t, u, k);
      }
    }
  }

  lemma LaterEntryIsBehind(c: Core, cand: Log, t: int, u: int, k: int)
    requires Inv(c) && Own(c, t, k) && u in c.leaders && t < u
    requires cand != [] && Last(cand).term == u && cand <= c.leaders[u].log
    requires c.leaders[t].log[..k + 1] <= c.leaders[u].log
    ensures c.leaders[t].log[..k + 1] <= cand
  {
    var m := c.leaders[u].log;
    assert LeaderOk(c, u);
    assert m[k] == c.leaders[t].log[..k + 1][k] == c.leaders[t].log[k];
    assert m[|cand| - 1] == cand[|cand| - 1];
    if |cand| - 1 <= k {
      TermsSorted(c, m, |cand| - 1, k);
    }
  }

  lemma GrantedIsSafe(c: Core, d: Core, s: int, x: int, u: int)
    requires Inv(c) && MayGrant(c, s, x) && d == Grant(c, s, x) && Grows(c, d)
    ensures VoteSafe(d, s, c.peers[s].term, u)
  {
    var p := c.peers[s];
    var cand := c.cands[(x, p.term)];
    assert PeerOk(c, s) && CandOk(c, x, p.term);
    forall k | Own(d, u, k) && u < p.term && Acked(d, s, u, k) ensures Safe(d, u, k, cand) {
      assert Acked(c, s, u, k);
      assert AckOk(c, s, u);
      assert Safe(c, u, k, p.log);
      if !Dead(c, u, k) {
        NewerLogIsSafe(c, cand, p.log, u, k);
      }
      SafeGrows(c, d, u, k, cand);
    }
  }

  lemma GrantKeeps(c: Core, s: int, x: int)
    requires Inv(c) && MayGrant(c, s, x)
    ensures Inv(Grant(c, s, x)) && Grows(c, Grant(c, s, x))
  {
    var d, p := Grant(c, s, x), c.peers[s];
    assert PeerOk(c, s);
    assert (s, p.term) in c.votes ==> VoteOk(c, s, p.term);
    assert Grows(c, d);
    CoherentGrows(c, d, p.log);
    assert PeerOk(d, s);
    assert VoteOk(d, s, p.term);
    forall u ensures VoteSafe(d, s, p.term, u) {
      GrantedIsSafe(c, d, s, x, u);
    }
    CandidatesAreNew(c);
    PeersFrame(c, d, s);
    VotesFrame(c, d, s);
    CandsFrame(c, d);
    LeadersFrame(c, d);
    AcksFrame(c, d);
    LatersFrame(c, d);
    VoteSafesFrame(c, d);
    hide PeerOk, VoteOk, CandOk, LeaderOk, AckOk, LaterOk, VoteSafe, Grows;
  }

  // ----- winning an election

  ghost predicate MayElect(c: Core, s: int, q: set<int>) {
    && IsPeer(c, s) && c.peers[s].role == Candidate && Quorum(c.n, q)
    && forall v :: v in q ==> (v, c.peers[s].term) in c.votes && c.votes[(v, c.peers[s].term)] == s
  }

  ghost function Elect(c: Core, s: int, q: set<int>): Core
    requires IsPeer(c, s)
  {
    var p := c.peers[s];
    c.(peers := c.peers[s := p.(role := Leader)],
       leaders := c.leaders[p.term := Leadership(s, q, p.log)],
       acks := c.acks[(s, p.term) := |p.log| - 1])
  }

  /** Two majorities share a voter, who votes once per term: the term has no leader yet. */
  lemma TermHasNoLeader(c: Core, s: int, q: set<int>)
    requires Inv(c) && MayElect(c, s, q)
    ensures c.peers[s].term !in c.leaders
  {
    var t := c.peers[s].term;
    if t in c.leaders {
      assert LeaderOk(c, t) && PeerOk(c, s);
      var v := Intersect(c.n, q, c.leaders[t].voters);
    }
  }

  /** No log has entries of a term without a leader. */
  lemma NoEntriesYet(c: Core, log: Log, t: int)
    requires Coherent(c, log) && t >= 1 && t !in c.leaders
    ensures forall k :: 0 <= k < |log| ==> log[k].term != t
  {
    forall k | 0 <= k < |log| ensures log[k].term != t {
      if k >= 1 {
        assert StartsLeader(c, log[k].term, log[..k + 1]);
      }
    }
  }

  /** The new leader's log contains whatever was committed before: some voter confirmed it, or the
      voters make it dead. */
  lemma ElectedIsLater(c: Core, s: int, q: set<int>, u: int, k: int)
    requires Inv(c) && MayElect(c, s, q) && Own(c, u, k) && u < c.peers[s].term
    ensures Safe(c, u, k, c.peers[s].log)
  {
    var t := c.peers[s].term;
    assert PeerOk(c, s);
    if v :| v in q && Acked(c, v, u, k) {
      assert VoteOk(c, v, t) && VoteSafe(c, v, t, u);
    } else {
      forall v | v in q ensures IsPeer(c, v) && c.peers[v].term > u && !Acked(c, v, u, k) {
        assert VoteOk(c, v, t);
      }
      assert NoneWill(c, q, u, k);
    }
  }

  lemma ElectGrows(c: Core, s: int, q: set<int>)
    requires Inv(c) && MayElect(c, s, q)
    ensures Grows(c, Elect(c, s, q)) && c.peers[s].term !in c.leaders && c.peers[s].term >= 1
    ensures (s, c.peers[s].term) !in c.acks
  {
    TermHasNoLeader(c, s, q);
    var t := c.peers[s].term;
    assert PeerOk(c, s) && CandOk(c, s, t);
    assert (s, t) in c.acks ==> AckOk(c, s, t);
  }

  lemma ElectedLaterOk(c: Core, s: int, q: set<int>, u: int)
    requires Inv(c) && MayElect(c, s, q) && Grows(c, Elect(c, s, q)) && c.peers[s].term !in c.leaders
    requires c.peers[s].term >= 1
    ensures LaterOk(Elect(c, s, q), u, c.peers[s].term)
    ensures u in c.leaders ==> LaterOk(Elect(c, s, q), c.peers[s].term, u)
  {
    var d, t, log := Elect(c, s, q), c.peers[s].term, c.peers[s].log;
    assert PeerOk(c, s);
    NoEntriesYet(c, log, t);
    forall k | Own(d, u, k) && u < t ensures Safe(d, u, k, log) {
      assert Own(c, u, k);
      ElectedIsLater(c, s, q, u, k);
      SafeGrows(c, d, u, k, log);
    }
  }

  lemma ElectKeeps(c: Core, s: int, q: set<int>)
    requires Inv(c) && MayElect(c, s, q)
    ensures Inv(Elect(c, s, q)) && Grows(c, Elect(c, s, q))
  {
    ElectGrows(c, s, q);
    var d, p := Elect(c, s, q), c.peers[s];
    var t := p.term;
    assert PeerOk(c, s);
    CoherentGrows(c, d, p.log);
    assert PeerOk(d, s) && LeaderOk(d, t) && AckOk(d, s, t);
    forall u ensures LaterOk(d, u, t) && (u in c.leaders ==> LaterOk(d, t, u)) {
      ElectedLaterOk(c, s, q, u);
    }
    CandidatesAreNew(c);
    PeersFrame(c, d, s);
    VotesFrame(c, d, s);
    CandsFrame(c, d);
    LeadersFrame(c, d);
    AcksFrame(c, d);
    LatersFrame(c, d);
    VoteSafesFrame(c, d);
    hide PeerOk, VoteOk, CandOk, LeaderOk, AckOk, LaterOk, VoteSafe, Grows;
  }

  // ----- the leader appends an entry

  ghost function Append(c: Core, s: int, e: Entry): Core
    requires IsPeer(c, s) && c.peers[s].term in c.leaders
  {
    var p := c.peers[s];
    var log := p.log + [e];
    c.(peers := c.peers[s := p.(log := log)],
       leaders := c.leaders[p.term := c.leaders[p.term].(log := log)],
       acks := c.acks[(s, p.term) := |log| - 1])
  }

  lemma AppendGrows(c: Core, s: int, e: Entry)
    requires Inv(c) && IsPeer(c, s) && c.peers[s].role == Leader
    ensures c.peers[s].term in c.leaders && Grows(c, Append(c, s, e))
    ensures c.leaders[c.peers[s].term].log == c.peers[s].log && c.leaders[c.peers[s].term].owner == s
  {
    assert PeerOk(c, s);
    var t := c.peers[s].term;
    assert (s, t) in c.acks ==> AckOk(c, s, t);
  }

  /** When a later leader exists, its voters have moved on without the new entry: it is dead. */
  lemma AppendedIsDead(c: Core, s: int, e: Entry, u: int)
    requires Inv(c) && IsPeer(c, s) && c.peers[s].role == Leader && c.peers[s].term in c.leaders
    requires c.leaders[c.peers[s].term].log == c.peers[s].log
    requires u in c.leaders && c.peers[s].term < u
    ensures Dead(Append(c, s, e), c.peers[s].term, |c.peers[s].log|)
  {
    var d, t, k := Append(c, s, e), c.peers[s].term, |c.peers[s].log|;
    assert LeaderOk(c, u);
    var q := c.leaders[u].voters;
    forall v | v in q ensures IsPeer(d, v) && d.peers[v].term > t && !Acked(d, v, t, k) {
      assert VoteOk(c, v, u);
      assert (v, t) in c.acks ==> AckOk(c, v, t);
    }
    assert NoneWill(d, q, t, k);
  }

  lemma AppendedLaterOk(c: Core, s: int, e: Entry, u: int)
    requires Inv(c) && IsPeer(c, s) && c.peers[s].role == Leader && c.peers[s].term in c.leaders
    requires c.leaders[c.peers[s].term].log == c.peers[s].log && Grows(c, Append(c, s, e))
    requires u in c.leaders
    ensures LaterOk(Append(c, s, e), c.peers[s].term, u)
  {
    var d, t, n := Append(c, s, e), c.peers[s].term, |c.peers[s].log|;
    forall k | Own(d, t, k) && t < u ensures Safe(d, t, k, d.leaders[u].log) {
      if k == n {
        AppendedIsDead(c, s, e, u);
      } else {
        assert LaterOk(c, t, u);
        OwnBack(c, d, t, k);
        SafeGrows(c, d, t, k, c.leaders[u].log);
      }
    }
  }

  lemma AppendedCoherent(c: Core, d: Core, log: Log, e: Entry)
    requires LeadersGrow(c, d) && Coherent(c, log) && TermsUpTo(log, e.term)
    requires e.term >= 1 && StartsLeader(d, e.term, log + [e])
    ensures Coherent(d, log + [e]) && TermsUpTo(log + [e], e.term)
  {
    CoherentGrows(c, d, log);
    var more := log + [e];
    forall i | 1 <= i < |more| ensures more[i].term >= 1 && StartsLeader(d, more[i].term, more[..i + 1]) {
      if i < |log| {
        assert more[..i + 1] == log[..i + 1];
        assert StartsLeader(d, log[i].term, log[..i + 1]);
      } else {
        assert more[..i + 1] == more;
      }
    }
  }

  lemma AppendKeeps(c: Core, s: int, e: Entry)
    requires Inv(c) && IsPeer(c, s) && c.peers[s].role == Leader && e.term == c.peers[s].term
    ensures c.peers[s].term in c.leaders && Inv(Append(c, s, e)) && Grows(c, Append(c, s, e))
  {
    AppendGrows(c, s, e);
    var d, p := Append(c, s, e), c.peers[s];
    var t := p.term;
    assert PeerOk(c, s) && LeaderOk(c, t);
    AppendedCoherent(c, d, p.log, e);
    hide Coherent, TermsUpTo;
    assert PeerOk(d, s) && LeaderOk(d, t) && AckOk(d, s, t);
    forall u | u in c.leaders ensures LaterOk(d, t, u) {
      AppendedLaterOk(c, s, e, u);
    }
    CandidatesAreNew(c);
    LeadersOwnTheirTerm(c, s);
    PeersFrame(c, d, s);
    VotesFrame(c, d, s);
    CandsFrame(c, d);
    LeadersFrame(c, d);
    AcksFrame(c, d);
    LatersFrame(c, d);
    VoteSafesFrame(c, d);
    hide PeerOk, VoteOk, CandOk, LeaderOk, AckOk, LaterOk, VoteSafe, Grows;
  }

  /** Election safety: at most one server is leader in a term. */
  lemma LeadersOwnTheirTerm(c: Core, s: int)
    requires Inv(c) && IsPeer(c, s) && c.peers[s].role == Leader
    ensures forall r :: 0 <= r < c.n && c.peers[r].role == Leader && c.peers[r].term == c.peers[s].term ==> r == s
  {
    assert PeerOk(c, s);
    forall r | 0 <= r < c.n && c.peers[r].role == Leader && c.peers[r].term == c.peers[s].term ensures r == s {
      assert PeerOk(c, r);
    }
  }

  // ----- a follower adopts the beginning of the leader's log

  ghost predicate MayAdopt(c: Core, s: int, m: int) {
    && IsPeer(c, s) && c.peers[s].role == Follower
    && var t := c.peers[s].term;
       t in c.leaders && c.leaders[t].owner != s && 1 <= m <= |c.leaders[t].log|
  }

  ghost function TakePrefix(c: Core, s: int, m: int): Core
    requires MayAdopt(c, s, m)
  {
    var p := c.peers[s];
    var ack := if (s, p.term) in c.acks && c.acks[(s, p.term)] > m - 1 then c.acks[(s, p.term)] else m - 1;
    c.(peers := c.peers[s := p.(log := Adopt(p.log, c.leaders[p.term].log[..m]))],
       acks := c.acks[(s, p.term) := ack])
  }

  lemma AdoptGrows(c: Core, s: int, m: int)
    requires Inv(c) && MayAdopt(c, s, m)
    ensures Grows(c, TakePrefix(c, s, m))
  {
  }

  lemma PrefixCoherent(c: Core, log: Log, m: int)
    requires Coherent(c, log) && 1 <= m <= |log|
    ensures Coherent(c, log[..m])
  {
    var p := log[..m];
    forall i | 1 <= i < |p| ensures p[i].term >= 1 && StartsLeader(c, p[i].term, p[..i + 1]) {
      assert p[..i + 1] == log[..i + 1];
      assert StartsLeader(c, log[i].term, log[..i + 1]);
    }
  }

  /** What a server has confirmed survives adopting the log of the current leader. */
  lemma AdoptSafe(c: Core, s: int, m: int, t: int, k: int)
    requires Inv(c) && MayAdopt(c, s, m) && Own(c, t, k) && t <= c.peers[s].term
    requires Safe(c, t, k, c.peers[s].log) || (t == c.peers[s].term && k < m)
    ensures Safe(c, t, k, Adopt(c.peers[s].log, c.leaders[c.peers[s].term].log[..m]))
  {
    var u := c.peers[s].term;
    var leader, p := c.leaders[u].log, c.leaders[t].log[..k + 1];
    if !Dead(c, t, k) {
      if t < u {
        assert LaterOk(c, t, u);
      }
      assert p <= leader;
      if p <= c.peers[s].log {
        AdoptKeeps(c.peers[s].log, leader, m, p);
      } else {
        assert p <= leader[..m];
      }
    }
  }

  lemma AdoptAckOk(c: Core, s: int, m: int, t: int)
    requires Inv(c) && MayAdopt(c, s, m) && Grows(c, TakePrefix(c, s, m)) && (s, t) in TakePrefix(c, s, m).acks
    ensures AckOk(TakePrefix(c, s, m), s, t)
  {
    var d := TakePrefix(c, s, m);
    if (s, t) in c.acks {
      assert AckOk(c, s, t);
    }
    forall k | Own(d, t, k) && k <= d.acks[(s, t)] ensures Safe(d, t, k, d.peers[s].log) {
      AdoptSafe(c, s, m, t, k);
      SafeGrows(c, d, t, k, d.peers[s].log);
    }
  }

  lemma AdoptPeerOk(c: Core, s: int, m: int)
    requires Inv(c) && MayAdopt(c, s, m) && Grows(c, TakePrefix(c, s, m))
    ensures PeerOk(TakePrefix(c, s, m), s)
  {
    var d, p := TakePrefix(c, s, m), c.peers[s];
    assert PeerOk(c, s) && LeaderOk(c, p.term);
    PrefixCoherent(c, c.leaders[p.term].log, m);
    CoherentGrows(c, d, d.peers[s].log);
  }

  lemma AdoptKeepsInv(c: Core, s: int, m: int)
    requires Inv(c) && MayAdopt(c, s, m)
    ensures Inv(TakePrefix(c, s, m)) && Grows(c, TakePrefix(c, s, m))
  {
    hide PeerOk, VoteOk, CandOk, LeaderOk, AckOk, LaterOk, VoteSafe, Grows;
    var d := TakePrefix(c, s, m);
    AdoptGrows(c, s, m);
    AdoptPeerOk(c, s, m);
    forall t | (s, t) in d.acks ensures AckOk(d, s, t) {
      AdoptAckOk(c, s, m, t);
    }
    CandidatesAreNew(c);
    PeersFrame(c, d, s);
    VotesFrame(c, d, s);
    CandsFrame(c, d);
    LeadersFrame(c, d);
    AcksFrame(c, d);
    LatersFrame(c, d);
    VoteSafesFrame(c, d);

  }

  // ----- the properties of every state

  /** Log matching: logs that agree on the term at an index agree on everything up to it. */
  lemma LogsMatch(c: Core, a: Log, b: Log)
    requires Coherent(c, a) && Coherent(c, b)
    ensures Matching(a, b)
  {
    forall i | 0 <= i < |a| && i < |b| && a[i].term == b[i].term ensures a[..i + 1] == b[..i + 1] {
      if i > 0 {
        assert StartsLeader(c, a[i].term, a[..i + 1]);
        assert StartsLeader(c, b[i].term, b[..i + 1]);
        var l := c.leaders[a[i].term].log;
        assert a[..i + 1] == l[..i + 1] == b[..i + 1];
      }
    }
  }

  /** Leader completeness: a committed entry is in the log of every later leader, with everything
      before it. */
  lemma LeaderCompleteness(c: Core, t: int, k: int, u: int)
    requires Inv(c) && Committed(c, t, k) && u in c.leaders && t <= u
    ensures c.leaders[t].log[..k + 1] <= c.leaders[u].log
  {
    if t < u {
      assert LaterOk(c, t, u);
      CommittedIsNotDead(c, t, k);
    }
  }

  /** `p` lies within what has been committed up to `term`. */
  ghost predicate Chosen(c: Core, p: Log, term: int) {
    p == [DUMMY] || exists t, k :: ChosenBy(c, p, term, t, k)
  }

  ghost predicate ChosenBy(c: Core, p: Log, term: int, t: int, k: int) {
    t <= term && Committed(c, t, k) && p <= c.leaders[t].log[..k + 1]
  }

  lemma ChosenGrows(c: Core, d: Core, p: Log, term: int, later: int)
    requires Grows(c, d) && Chosen(c, p, term) && term <= later
    ensures Chosen(d, p, later)
  {
    if p != [DUMMY] {
      var t, k :| ChosenBy(c, p, term, t, k);
      CommittedGrows(c, d, t, k);
      assert ChosenBy(d, p, later, t, k);
    }
  }

  lemma ChosenPrefix(c: Core, p: Log, q: Log, term: int)
    requires Chosen(c, p, term) && q <= p && |q| >= 1
    ensures Chosen(c, q, term)
  {
    if p != [DUMMY] {
      var t, k :| ChosenBy(c, p, term, t, k);
      assert ChosenBy(c, q, term, t, k);
    } else {
      assert q == p;
    }
  }

  /** What is chosen is the beginning of the log of every leader from then on. */
  lemma ChosenStartsLeader(c: Core, p: Log, term: int, u: int)
    requires Inv(c) && Chosen(c, p, term) && u in c.leaders && term <= u
    ensures p <= c.leaders[u].log
  {
    if p != [DUMMY] {
      var t, k :| ChosenBy(c, p, term, t, k);
      LeaderCompleteness(c, t, k, u);
    } else {
      assert LeaderOk(c, u);
    }
  }

  /** Any two chosen logs agree as far as both go. */
  lemma ChosenAgree(c: Core, p: Log, q: Log, t: int, u: int)
    requires Inv(c) && Chosen(c, p, t) && Chosen(c, q, u)
    ensures p <= q || q <= p
  {
    if p != [DUMMY] && q != [DUMMY] {
      var a, i :| ChosenBy(c, p, t, a, i);
      var b, j :| ChosenBy(c, q, u, b, j);
      if a <= b {
        LeaderCompleteness(c, a, i, b);
      } else {
        LeaderCompleteness(c, b, j, a);
      }
    } else {
      ChosenStartsWithDummy(c, p, t);
      ChosenStartsWithDummy(c, q, u);
    }
  }

  lemma ChosenStartsWithDummy(c: Core, p: Log, term: int)
    requires Inv(c) && Chosen(c, p, term)
    ensures p != [] ==> [DUMMY] <= p
  {
    if p != [DUMMY] {
      var t, k :| ChosenBy(c, p, term, t, k);
      assert LeaderOk(c, t);
      var l := c.leaders[t].log;
      assert p != [] ==> p[0] == l[..k + 1][0] == l[0];
    }
  }

}
