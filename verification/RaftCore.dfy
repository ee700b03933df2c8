/** Raft on uncompacted logs, with a history: who voted for whom, which log each candidate and each
    leader had, and up to which index each server has ever confirmed a leader's log. */
module RaftCore {
  import opened Quorums
  import opened RaftLog

  datatype Role = Follower | Candidate | Leader

  const NOBODY: int := -1

  datatype Peer = Peer(term: int, vote: int, log: Log, role: Role)

  /** The leader of a term, the majority that elected it, and its log as of now. */
  datatype Leadership = Leadership(owner: int, voters: set<int>, log: Log)

  /** Keys of `votes`, `cands` and `acks` are pairs of a server and a term. */
  datatype Core = Core(n: nat, peers: seq<Peer>, leaders: map<int, Leadership>,
                       votes: map<(int, int), int>, cands: map<(int, int), Log>, acks: map<(int, int), int>)

  ghost predicate IsPeer(c: Core, s: int) {
    0 <= s < c.n == |c.peers|
  }

  function Last(log: Log): Entry
    requires log != []
  {
    log[|log| - 1]
  }

  /** The comparison of `RequestVote`: the candidate's log is at least as new. */
  predicate UpToDate(cand: Log, log: Log)
    requires cand != [] && log != []
  {
    Last(cand).term > Last(log).term || (Last(cand).term == Last(log).term && |cand| >= |log|)
  }

  // ----- what logs look like

  ghost predicate StartsLeader(c: Core, term: int, p: Log) {
    term in c.leaders && p <= c.leaders[term].log
  }

  /** Every prefix of a log that ends in an entry of some term is a prefix of the log of that
      term's leader. */
  ghost predicate Coherent(c: Core, log: Log) {
    && |log| >= 1 && log[0] == DUMMY
    && forall i {:trigger StartsLeader(c, log[i].term, log[..i + 1])} :: 1 <= i < |log| ==>
         log[i].term >= 1 && StartsLeader(c, log[i].term, log[..i + 1])
  }

  ghost predicate TermsUpTo(log: Log, term: int) {
    forall i :: 0 <= i < |log| ==> log[i].term <= term
  }

  // ----- confirmed, committed and dead entries

  ghost predicate Acked(c: Core, s: int, term: int, k: int) {
    (s, term) in c.acks && c.acks[(s, term)] >= k
  }

  /** Entry `k` of the leader's log of `term` was created in that term. */
  ghost predicate Own(c: Core, term: int, k: int) {
    term in c.leaders && 0 <= k < |c.leaders[term].log| && c.leaders[term].log[k].term == term
  }

  ghost predicate AllAcked(c: Core, q: set<int>, term: int, k: int) {
    forall v :: v in q ==> Acked(c, v, term, k)
  }

  /** The commit rule: an entry of the leader's own term that a majority has confirmed. */
  ghost predicate Committed(c: Core, term: int, k: int) {
    Own(c, term, k) && exists q :: Quorum(c.n, q) && AllAcked(c, q, term, k)
  }

  ghost predicate NoneWill(c: Core, q: set<int>, term: int, k: int) {
    forall v :: v in q ==> IsPeer(c, v) && c.peers[v].term > term && !Acked(c, v, term, k)
  }

  /** The entry can no longer be committed: a majority has moved on without confirming it. */
  ghost predicate Dead(c: Core, term: int, k: int) {
    exists q :: Quorum(c.n, q) && NoneWill(c, q, term, k)
  }

  /** The entry is dead or its leader's log up to it is part of `log`. */
  ghost predicate Safe(c: Core, term: int, k: int, log: Log)
    requires Own(c, term, k)
  {
    Dead(c, term, k) || c.leaders[term].log[..k + 1] <= log
  }

  lemma CommittedIsNotDead(c: Core, term: int, k: int)
    requires Committed(c, term, k)
    ensures !Dead(c, term, k)
  {
    if Dead(c, term, k) {
      var p :| Quorum(c.n, p) && AllAcked(c, p, term, k);
      var q :| Quorum(c.n, q) && NoneWill(c, q, term, k);
      var v := Intersect(c.n, p, q);
    }
  }

  // ----- the invariant

  ghost predicate PeerOk(c: Core, s: int)
    requires IsPeer(c, s)
  {
    var p := c.peers[s];
    && p.term >= 0 && Coherent(c, p.log) && TermsUpTo(p.log, p.term)
    && (p.role == Candidate ==>
          && p.vote == s && (s, p.term) in c.votes && c.votes[(s, p.term)] == s
          && (s, p.term) in c.cands && c.cands[(s, p.term)] == p.log
          && (p.term in c.leaders ==> c.leaders[p.term].owner != s))
    && (p.role == Leader ==>
          && p.term in c.leaders && c.leaders[p.term].owner == s && c.leaders[p.term].log == p.log)
  }

  ghost predicate VoteOk(c: Core, s: int, term: int)
    requires (s, term) in c.votes
  {
    && IsPeer(c, s) && term <= c.peers[s].term
    && (term == c.peers[s].term ==> c.peers[s].vote == c.votes[(s, term)])
    && 0 <= c.votes[(s, term)] < c.n
    && (c.votes[(s, term)], term) in c.cands
  }

  ghost predicate CandOk(c: Core, s: int, term: int)
    requires (s, term) in c.cands
  {
    && IsPeer(c, s) && 1 <= term <= c.peers[s].term
    && Coherent(c, c.cands[(s, term)]) && TermsUpTo(c.cands[(s, term)], term)
  }

  ghost predicate LeaderOk(c: Core, term: int)
    requires term in c.leaders
  {
    var l := c.leaders[term];
    && IsPeer(c, l.owner) && 1 <= term <= c.peers[l.owner].term
    && Quorum(c.n, l.voters)
    && (forall v :: v in l.voters ==> (v, term) in c.votes && c.votes[(v, term)] == l.owner)
    && Coherent(c, l.log) && TermsUpTo(l.log, term)
  }

  ghost predicate AckOk(c: Core, s: int, term: int)
    requires (s, term) in c.acks
  {
    && IsPeer(c, s) && term <= c.peers[s].term
    && term in c.leaders && 0 <= c.acks[(s, term)] < |c.leaders[term].log|
    && forall k :: Own(c, term, k) && k <= c.acks[(s, term)] ==> Safe(c, term, k, c.peers[s].log)
  }

  /** What was committed in one term is in the log of every later leader. */
  ghost predicate LaterOk(c: Core, term: int, later: int)
    requires later in c.leaders
  {
    forall k :: Own(c, term, k) && term < later ==> Safe(c, term, k, c.leaders[later].log)
  }

  /** What a voter has confirmed is in the log it votes for. */
  ghost predicate VoteSafe(c: Core, s: int, later: int, term: int)
    requires (s, later) in c.votes && (c.votes[(s, later)], later) in c.cands
  {
    forall k :: Own(c, term, k) && term < later && Acked(c, s, term, k)
      ==> Safe(c, term, k, c.cands[(c.votes[(s, later)], later)])
  }

  ghost predicate Inv(c: Core) {
    && |c.peers| == c.n
    && (forall s {:trigger PeerOk(c, s)} :: 0 <= s < c.n ==> PeerOk(c, s))
    && (forall s, t {:trigger VoteOk(c, s, t)} :: (s, t) in c.votes ==> VoteOk(c, s, t))
    && (forall s, t {:trigger CandOk(c, s, t)} :: (s, t) in c.cands ==> CandOk(c, s, t))
    && (forall t {:trigger LeaderOk(c, t)} :: t in c.leaders ==> LeaderOk(c, t))
    && (forall s, t {:trigger AckOk(c, s, t)} :: (s, t) in c.acks ==> AckOk(c, s, t))
    && (forall t, u {:trigger LaterOk(c, t, u)} :: u in c.leaders ==> LaterOk(c, t, u))
    && (forall s, u, t {:trigger VoteSafe(c, s, u, t)} ::
          (s, u) in c.votes && (c.votes[(s, u)], u) in c.cands ==> VoteSafe(c, s, u, t))
  }

  // ----- growth: what later states keep

  ghost predicate LeadersGrow(c: Core, d: Core) {
    forall t :: t in c.leaders ==>
      && t in d.leaders && d.leaders[t].owner == c.leaders[t].owner && d.leaders[t].voters == c.leaders[t].voters
      && c.leaders[t].log <= d.leaders[t].log
  }

  ghost predicate Grows(c: Core, d: Core) {
    && d.n == c.n == |c.peers| == |d.peers|
    && (forall s :: 0 <= s < c.n ==> c.peers[s].term <= d.peers[s].term)
    && LeadersGrow(c, d)
    && (forall x :: x in c.votes ==> x in d.votes && d.votes[x] == c.votes[x])
    && (forall x :: x in c.cands ==> x in d.cands && d.cands[x] == c.cands[x])
    && (forall s, t, k {:trigger Acked(c, s, t, k)} {:trigger Acked(d, s, t, k)} ::
          Acked(c, s, t, k) ==> Acked(d, s, t, k))
    && (forall s, t, k {:trigger Acked(c, s, t, k)} {:trigger Acked(d, s, t, k)} ::
          0 <= s < c.n && c.peers[s].term > t && Acked(d, s, t, k) ==> Acked(c, s, t, k))
  }

  lemma GrowsRefl(c: Core)
    requires |c.peers| == c.n
    ensures Grows(c, c)
  {
  }

  lemma GrowsTrans(c: Core, d: Core, e: Core)
    requires Grows(c, d) && Grows(d, e)
    ensures Grows(c, e)
  {
  }

  lemma CoherentGrows(c: Core, d: Core, log: Log)
    requires LeadersGrow(c, d) && Coherent(c, log)
    ensures Coherent(d, log)
  {
    forall i | 1 <= i < |log| ensures log[i].term >= 1 && StartsLeader(d, log[i].term, log[..i + 1]) {
      assert StartsLeader(c, log[i].term, log[..i + 1]);
    }
  }

  lemma SafeGrows(c: Core, d: Core, term: int, k: int, log: Log)
    requires Grows(c, d) && Own(c, term, k) && Safe(c, term, k, log)
    ensures Own(d, term, k) && Safe(d, term, k, log)
  {
    if Dead(c, term, k) {
      var q :| Quorum(c.n, q) && NoneWill(c, q, term, k);
      assert NoneWill(d, q, term, k);
    }
  }

  lemma CommittedGrows(c: Core, d: Core, term: int, k: int)
    requires Grows(c, d) && Committed(c, term, k)
    ensures Committed(d, term, k)
  {
    var q :| Quorum(c.n, q) && AllAcked(c, q, term, k);
    assert AllAcked(d, q, term, k);
  }
}
