/** Why the commit-level results exclude harmful late replies: the handler does not check for them, and
    one makes two services apply different commands at one index. */
module RaftStaleReply {
  import opened Options
  import opened RaftLog
  import opened RaftCore
  import opened RaftCoreSteps
  import opened RaftServer
  import opened RaftSystem
  import opened RaftSystemSteps
  import opened RaftCommit
  import opened RaftCommitSteps
  import opened RaftSafety
  import opened RaftLateReplyRun

  // ----- the missing guard

  /** What a leader believes of its followers' logs, above its own snapshot, is true. */
  ghost predicate MatchSound(c: Core, o: Server) {
    forall i :: 0 <= i < o.n && i < |o.match_| && i != o.me && o.match_[i] > o.base ==> Acked(c, i, o.term, o.match_[i])
  }

  /** Handling a success reply that does not end the leader's term keeps its beliefs true, and with them
      the whole invariant, if and only if the reply is of that term, claims nothing new above the
      snapshot, or happens to claim what the follower has confirmed in the leader's term as well. */
  lemma ReplySoundExactly(x: System, y: System, s: int, from: int, a: AppendArgs, r: AppendReply)
    requires Strong(x) && OnAppendRep(x, y, s, from, a, r)
    requires x.servers[s].role == Leader && r.success && r.term <= x.servers[s].term
    ensures MatchSound(y.core, y.servers[s])
      <==> Harmless(x.servers[s], from, a, r) || Acked(x.core, from, x.servers[s].term, a.prevIndex + |a.entries|)
    ensures Strong(y) <==> MatchSound(y.core, y.servers[s])
  {
    hide Inv, Chosen, Full, SysInv, CountOk, PeerOk, Persisted, Acked, Strong, CheckCommit;
    var o, d, m := x.servers[s], y.servers[s], a.prevIndex + |a.entries|;
    StrongServer(x, s);
    ServerAt(x, s);
    StrongMsg(x, AppendRepMsg(from, a, r));
    CheckCommitBooks(o.(match_ := o.match_[from := m], next := o.next[from := m + 1]));
    if Harmless(o, from, a, r) || Acked(x.core, from, o.term, m) {
      OnAppendRepStrong(x, y, s, from, a, r);
    } else {
      assert d.match_[from] == m > o.base == d.base && d.me == o.me != from && d.term == o.term;
    }
    if Strong(y) {
      StrongBooks(y, s);
    }
  }

  lemma StrongBooks(x: System, s: int)
    requires Strong(x) && Has(x, s) && x.servers[s].role == Leader
    ensures MatchSound(x.core, x.servers[s])
  {
    StrongServer(x, s);
  }

  lemma CheckCommitBooks(o: Server)
    requires |o.match_| >= o.n
    ensures CheckCommit(o) == o.(commit := CheckCommit(o).commit)
  {
  }

  // ----- a run with one late reply

  /** Two services have been handed different commands for index 2. */
  ghost predicate Disagree(x: System) {
    exists u, v :: u in x.delivered && v in x.delivered && Says(u.msg, 2, Some("c")) && Says(v.msg, 2, Some("d"))
  }

  /** Two servers differ in what they regard as committed, and the one with the newer term leads. */
  ghost predicate Diverged(x: System, s: int, r: int) {
    && Has(x, s) && Has(x, r) && Leads(x, r, x.servers[r].term) && x.servers[s].term < x.servers[r].term
    && var o, p := x.servers[s], x.servers[r];
       && 0 <= o.commit < |Full(o)| && 0 <= p.commit < |Full(p)|
       && !(CommittedLog(o) <= CommittedLog(p)) && !(CommittedLog(p) <= CommittedLog(o)) && !(CommittedLog(o) <= Full(p))
  }

  ghost predicate Breaks(xs: seq<System>, es: seq<Event>) {
    Run(xs, es) && Disagree(xs[|es|]) && exists s, r :: Diverged(xs[|es|], s, r)
  }

  /** With one reply handled in a later term than its own, two services are handed different commands
      for index 2, committed logs disagree, and a newer leader lacks what an older one has committed. */
  lemma StaleReplyBreaksSafety()
    ensures exists xs, es :: Breaks(xs, es)
  {
    hide Reaches, MakeAppendArgs, AppendEntries, HandleAppendReply, ApplierTake, NeedsSnapshot, Readable;
    var sv, msgs := LastTerms();
    // Server 2 replicates `d` to server 1 and commits it.
    GetsD(sv[2], sv[1]);
    DoAppend(sv, msgs, {}, 2, 1);
    var a := MakeAppendArgs(sv[2], 1);
    var (f, r) := AppendEntries(sv[1], a);
    var s1, m1 := sv[1 := f], msgs + {AppendRepMsg(1, a, r)};
    DoAppendRep(s1, m1, {}, 2, 1, a, r);
    CommitsTwo(sv[2], 2, 6, [DUMMY, B, D], [2, 2, 2], [0, 0, 1], a, D);
    var s2 := s1[2 := HandleAppendReply(sv[2], 1, a, r)];
    DoDeliver(s2, m1, {}, 2, 1);
    var v := Delivery(2, ApplyCommand(2, Some("d")));
    assert {} + {v} == {v};
    TakeStays(s2[2]);
    var s3 := s2[2 := ApplierTake(s2[2]).0];
    // The late reply reaches server 0.
    DoAppendRep(s3, m1, {v}, 0, 1, LateArgs(), AppendReply(3, 0, 0, true));
    CommitsTwo(sv[0], 0, 5, [DUMMY, B, C], [2, 2, 2], [1, 0, 0], LateArgs(), C);
    var s4 := s3[0 := HandleAppendReply(sv[0], 1, LateArgs(), AppendReply(3, 0, 0, true))];
    DoDeliver(s4, m1, {v}, 0, 1);
    var u := Delivery(0, ApplyCommand(2, Some("c")));
    TakeStays(s4[0]);
    BothTold(s4[0 := ApplierTake(s4[0]).0], m1, u, v);
  }

  /** Taking what is to be delivered changes nothing else. */
  lemma TakeStays(o: Server)
    requires |o.log| >= 1
    ensures ApplierTake(o).0 == o.(applying := ApplierTake(o).0.applying)
  {
  }

  /** The server has committed its entry at index 2. */
  ghost predicate HasTwo(o: Server, term: int, e: Entry) {
    o.log == [DUMMY, B, e] && o.base == 0 && o.commit == 2 && o.term == term && o.role == Leader
  }

  lemma BothTold(sv: seq<Server>, msgs: set<Msg>, u: Delivery, v: Delivery)
    requires Reaches(sv, msgs, {v} + {u}) && Says(u.msg, 2, Some("c")) && Says(v.msg, 2, Some("d"))
    requires |sv| == 3 && HasTwo(sv[0], 5, C) && HasTwo(sv[2], 6, D)
    ensures exists xs, es :: Breaks(xs, es)
  {
    var xs: seq<System>, es: seq<Event> :| Ends(xs, es, sv, msgs, {v} + {u});
    var x := xs[|es|];
    RunInv(xs, es, |es|, |es|);
    hide Run;
    ThirdEntry(x, 0, 5, C);
    ThirdEntry(x, 2, 6, D);
    assert CommittedLog(sv[0])[2] != CommittedLog(sv[2])[2] == Full(sv[2])[2];
    assert u in x.delivered && v in x.delivered;
    assert Disagree(x);
    assert Diverged(x, 0, 2);
    assert Breaks(xs, es);
  }

  lemma ThirdEntry(x: System, s: int, term: int, e: Entry)
    requires SysInv(x) && Has(x, s) && HasTwo(x.servers[s], term, e)
    ensures |Full(x.servers[s])| == 3 && Full(x.servers[s])[2] == e
  {
    ServerAt(x, s);
    FullFacts(x.servers[s], s, x.core.n);
  }
}
