/** What else one late reply can do: a server whose log is cut below its commit index skips commands, and
    as a leader it makes the commit index of another server fall. */
module RaftCutRun {
  import opened Options
  import opened Collections
  import opened RaftLog
  import opened RaftCore
  import opened RaftServer
  import opened RaftSystem
  import opened RaftSafety
  import opened RaftApplied
  import opened RaftLateReplyRun

  const C2: Entry := Entry(Some("c2"), 5)
  const C3: Entry := Entry(Some("c3"), 5)
  const E: Entry := Entry(Some("e"), 7)

  /** Server 0 counts four entries as committed and has applied none. */
  ghost predicate Ahead(o: Server, term: int, log: Log) {
    && o.me == 0 && o.n == 3 && o.term == term && o.log == log
    && o.base == 0 == o.baseTerm && |o.next| == |o.match_| == 3
    && o.commit == 4 && o.applied == 0 && o.applying == None
  }

  /** The late reply confirms four entries that are not those of the log. */
  lemma CommitsFour(o: Server)
    requires Plain(o, 0, 5, [DUMMY, B, C, C2, C3]) && Leading(o, [2, 2, 2], [1, 0, 0])
    ensures Ahead(HandleAppendReply(o, 1, LateArgs(), AppendReply(3, 0, 0, true)), 5, [DUMMY, B, C, C2, C3])
  {
    var b := o.(match_ := [1, 4, 0], next := [2, 5, 2]);
    assert o.match_[1 := 4] == b.match_ && o.next[1 := 5] == b.next;
    assert Holders(b, 4, 0) == 1 && Holders(b, 4, 1) == 1 && Holders(b, 4, 2) == 2 && Holders(b, 4, 3) == 2;
    assert CommitFrom(b, 4) == 4;
  }

  /** A newer leader cuts the log below the commit index. */
  lemma CutsDown(o: Server, f: Server)
    requires Plain(o, 2, 6, [DUMMY, B, D]) && Leading(o, [2, 2, 2], [0, 0, 1]) && Ahead(f, 5, [DUMMY, B, C, C2, C3])
    ensures !NeedsSnapshot(o, 0) && Readable(o, 1)
    ensures var d := AppendEntries(f, MakeAppendArgs(o, 0)).0;
      Ahead(d, 6, [DUMMY, B, D]) && d.role == Follower
  {
    var a := MakeAppendArgs(o, 0);
    assert a.entries == [D];
    assert f.log[..2] + [D] == [DUMMY, B, D];
  }

  /** Server 0 takes two more commands in term 5, then the late reply, and then the entries of term 6. */
  lemma CutTerms() returns (now: seq<Server>)
    ensures Reaches(now, {}, {}) && |now| == 3
    ensures Ahead(now[0], 6, [DUMMY, B, D]) && now[0].role == Follower
    ensures Plain(now[2], 2, 6, [DUMMY, B, D])
  {
    hide Reaches, MakeAppendArgs, AppendEntries, HandleAppendReply, NeedsSnapshot, Readable;
    var sv, m := LastTerms();
    sv := DoCommand(sv, m, {}, 0, 5, [DUMMY, B, C], [2, 2, 2], [1, 0, 0], "c2");
    sv := DoCommand(sv, m, {}, 0, 5, [DUMMY, B, C] + [C2], [2, 2, 2], [1, 0, 0], "c3");
    assert [DUMMY, B, C] + [C2] + [C3] == [DUMMY, B, C, C2, C3];
    var r := AppendReply(3, 0, 0, true);
    CommitsFour(sv[0]);
    DoAppendRep(sv, m, {}, 0, 1, LateArgs(), r);
    var s1 := sv[0 := HandleAppendReply(sv[0], 1, LateArgs(), r)];
    CutsDown(s1[2], s1[0]);
    DoAppend(s1, m, {}, 2, 0);
    var a := MakeAppendArgs(s1[2], 0);
    now := s1[0 := AppendEntries(s1[0], a).0];
    Forget(now, m + {AppendRepMsg(0, a, AppendEntries(s1[0], a).1)}, {}, {});
  }

  // ----- commands that are skipped

  /** Round `i` finds committed commands, hands over none of them and marks all as applied. */
  ghost predicate Skips(xs: seq<System>, es: seq<Event>, i: nat) {
    && Run(xs, es) && i < |es| && Delivers(xs[i], es[i]) && !InOrder(xs, es)
    && var o := xs[i].servers[es[i].s];
       && o.applied < o.commit == ApplierDone(ApplierTake(o).0).applied && ApplierTake(o).1 == []
  }

  /** With one late reply a service is never handed commands that its server marks as applied. */
  lemma LateReplySkipsCommands()
    ensures exists xs, es, i :: Skips(xs, es, i)
  {
    hide Reaches, ApplierTake, NewPosition, Run, SysInv;
    var now := CutTerms();
    var xs, es, x := RunTo(now, {}, {});
    var (d, ms) := ApplierTake(now[0]);
    var y := x.(servers := x.servers[0 := d], position := x.position[0 := NewPosition(ms, x.position[0])],
                delivered := x.delivered + set i | 0 <= i < |ms| :: Delivery(0, ms[i]));
    assert Deliver(x, y, 0);
    Longer(xs, es, y, EDeliver(0));
    SkippedRound(xs + [y], es + [EDeliver(0)], |es|);
  }

  lemma SkippedRound(xs: seq<System>, es: seq<Event>, i: nat)
    requires Run(xs, es) && i < |es| && es[i] == EDeliver(0) && Has(xs[i], 0) && Ahead(xs[i].servers[0], 6, [DUMMY, B, D])
    ensures Skips(xs, es, i)
  {
    hide Init, Step, InOrder;
    AppliedInOrderExactly(xs, es);
    assert !RoundInLog(xs[i], es[i]);
  }

  // ----- a commit index that falls

  /** Server 0 is elected again with what it counts as committed. */
  lemma AheadWins(o: Server)
    requires Ahead(o, 6, [DUMMY, B, D]) && o.role == Follower
    ensures var (c, a) := StartElection(o);
      && a == VoteArgs(7, 0, 2, 6) && 2 in c.awaiting
      && var d := HandleVoteReply(c, 2, a, VoteReply(7, true));
         Ahead(d, 7, [DUMMY, B, D]) && Leading(d, [3, 3, 3], [2, 0, 0])
  {
    assert seq(3, i => 3) == [3, 3, 3] && seq(3, i => if i == 0 then 2 else 0) == [2, 0, 0];
  }

  lemma AheadAppends(o: Server)
    requires Ahead(o, 7, [DUMMY, B, D]) && Leading(o, [3, 3, 3], [2, 0, 0])
    ensures !NeedsSnapshot(o, 2) && Readable(o, 2) && MakeAppendArgs(o, 2) == AppendArgs(7, 0, 2, 6, [], 4)
    ensures var d := StartCommand(o, "e").0;
      && Ahead(d, 7, [DUMMY, B, D, E]) && Leading(d, [3, 3, 3], [2, 0, 0])
      && !NeedsSnapshot(d, 2) && Readable(d, 2) && MakeAppendArgs(d, 2) == AppendArgs(7, 0, 2, 6, [E], 4)
  {
    assert [DUMMY, B, D] + [E] == [DUMMY, B, D, E];
    assert [DUMMY, B, D, E][3..] == [E];
  }

  /** The later of two requests is handled first, and the earlier one takes back what it announced. */
  lemma LaterThenEarlier(f: Server)
    requires Plain(f, 2, 7, [DUMMY, B, D]) && f.role == Follower
    ensures var d := AppendEntries(f, AppendArgs(7, 0, 2, 6, [E], 4)).0;
      d.commit == 3 && AppendEntries(d, AppendArgs(7, 0, 2, 6, [], 4)).0.commit == 2
  {
    assert Merge([DUMMY, B, D], 3, [E]) == Merge([DUMMY, B, D] + [E], 4, [E][1..]) == [DUMMY, B, D, E];
    var d := AppendEntries(f, AppendArgs(7, 0, 2, 6, [E], 4)).0;
    assert d.log == [DUMMY, B, D, E];
  }

  /** Server 0 wins term 7 with the vote of server 2. */
  lemma WonAgain() returns (now: seq<Server>, msgs: set<Msg>)
    ensures Reaches(now, msgs, {}) && |now| == 3
    ensures Ahead(now[0], 7, [DUMMY, B, D]) && Leading(now[0], [3, 3, 3], [2, 0, 0])
    ensures Plain(now[2], 2, 7, [DUMMY, B, D]) && now[2].role == Follower
  {
    hide Reaches, StartElection, RequestVote, HandleVoteReply;
    var sv := CutTerms();
    var (c, a) := StartElection(sv[0]);
    AheadWins(sv[0]);
    Votes(sv[2], 2, 6, [DUMMY, B, D], a);
    DoTimeout(sv, {}, {}, 0);
    var asked := {} + set to | to in UpTo(3) - {0} :: VoteReqMsg(to, a);
    assert 2 in UpTo(3) - {0} && VoteReqMsg(2, a) in asked;
    DoVoteReq(sv[0 := c], asked, {}, 2, a);
    var (f, r) := RequestVote(sv[2], a);
    msgs := asked + {VoteRepMsg(2, a, r)};
    DoVoteRep(sv[0 := c][2 := f], msgs, {}, 0, 2, a, r);
    now := sv[0 := c][2 := f][0 := HandleVoteReply(c, 2, a, r)];
  }

  /** It sends twice, and server 2 has handled the later of the two requests. */
  lemma SeventhTerm() returns (now: seq<Server>, msgs: set<Msg>)
    ensures Reaches(now, msgs, {}) && |now| == 3 && AppendReqMsg(2, AppendArgs(7, 0, 2, 6, [], 4)) in msgs
    ensures now[2].commit == 3 && AppendEntries(now[2], AppendArgs(7, 0, 2, 6, [], 4)).0.commit == 2
  {
    hide Reaches, MakeAppendArgs, AppendEntries, StartCommand, NeedsSnapshot, Readable;
    var sv, m := WonAgain();
    var early, late := AppendArgs(7, 0, 2, 6, [], 4), AppendArgs(7, 0, 2, 6, [E], 4);
    AheadAppends(sv[0]);
    DoSend(sv, m, {}, 0, 2);
    msgs := m + {AppendReqMsg(2, early)};
    DoClient(sv, msgs, {}, 0, "e");
    var s1 := sv[0 := StartCommand(sv[0], "e").0];
    DoAppend(s1, msgs, {}, 0, 2);
    LaterThenEarlier(sv[2]);
    now, msgs := s1[2 := AppendEntries(sv[2], late).0], msgs + {AppendRepMsg(2, late, AppendEntries(sv[2], late).1)};
  }

  /** The last event, a request, leaves server 2 with a lower commit index. */
  ghost predicate Falls(xs: seq<System>, es: seq<Event>) {
    && Run(xs, es) && es != [] && es[|es| - 1].EAppendReq? && !NeverFalls(xs, es)
    && Has(xs[|es| - 1], 2) && Has(xs[|es|], 2)
    && xs[|es|].servers[2].commit < xs[|es| - 1].servers[2].commit
  }

  /** With one late reply, and two requests that overtake one another, a commit index falls. */
  lemma LateReplyLowersCommit()
    ensures exists xs, es :: Falls(xs, es)
  {
    hide Reaches, AppendEntries, AfterAppend, Run, SysInv;
    var now, msgs := SeventhTerm();
    var xs, es, x := RunTo(now, msgs, {});
    var a := AppendArgs(7, 0, 2, 6, [], 4);
    var (d, r) := AppendEntries(now[2], a);
    var c := AfterAppend(x.core, 2, a, r.success);
    var y := x.(servers := x.servers[2 := d], core := c, net := x.net + {AppendRepMsg(2, a, r)});
    assert OnAppendReq(x, y, 2, a);
    StepHas(x, y, EAppendReq(2, a));
    Longer(xs, es, y, EAppendReq(2, a));
    FallenCommit(xs + [y], es + [EAppendReq(2, a)]);
  }

  lemma StepHas(x: System, y: System, e: Event)
    requires SysInv(x) && Step(x, y, e) && Has(x, 2)
    ensures Has(y, 2)
  {
    StepKeeps(x, y, e);
  }

  lemma FallenCommit(xs: seq<System>, es: seq<Event>)
    requires Run(xs, es) && es != [] && es[|es| - 1].EAppendReq? && Has(xs[|es| - 1], 2) && Has(xs[|es|], 2)
    requires xs[|es|].servers[2].commit < xs[|es| - 1].servers[2].commit
    ensures Falls(xs, es)
  {
    hide Init, Step;
    assert !NoneFalls(xs[|es| - 1], xs[|es|], es[|es| - 1]);
  }
}
