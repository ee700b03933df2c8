/** Where a leader reads when it prepares a request: inside its log, in exactly the runs in which every
    reply it handles passes a check that the handler does not make. */
module RaftNextIndex {
  import opened Collections
  import opened RaftLog
  import opened RaftCore
  import opened RaftCoreSteps
  import opened RaftServer
  import opened RaftSystem
  import opened RaftSystemSteps
  import opened RaftCommit
  import opened RaftCommitSteps
  import opened RaftSafety
  import opened RaftLateReplyRun

  /** A success is no news or lies within the leader's log; after a refusal the leader goes back to its
      last entry of the conflicting term, or to a place that is not past the end of its log. */
  predicate KeepsNext(o: Server, from: int, a: AppendArgs, r: AppendReply)
    requires 0 <= from < |o.match_|
  {
    if r.success then
      a.prevIndex + |a.entries| <= o.match_[from] || a.prevIndex + |a.entries| <= LastIndex(o)
    else
      || (r.conflictTerm != -1 && LastOfTerm(o.log, r.conflictTerm) != -1)
      || r.conflictIndex <= LastIndex(o) + 1
  }

  /** A leader can prepare a request for every server. */
  predicate NextOk(o: Server) {
    o.role == Leader ==> forall i :: 0 <= i < |o.next| ==> Readable(o, o.next[i] - 1)
  }

  lemma {:induction false} LastOfTermBound(log: Log, term: int)
    ensures -1 <= LastOfTerm(log, term) < |log|
  {
    if log != [] && log[|log| - 1].term != term {
      LastOfTermBound(log[..|log| - 1], term);
    }
  }

  /** What a leader makes of a reply that does not end its term keeps it inside its log exactly if the
      reply passes the check. */
  lemma ReplyKeepsNextExactly(o: Server, me: int, n: nat, from: int, a: AppendArgs, r: AppendReply)
    requires Shape(o, me, n) && o.role == Leader && NextOk(o) && 0 <= from < n && r.term <= o.term
    ensures NextOk(HandleAppendReply(o, from, a, r)) <==> KeepsNext(o, from, a, r)
  {
    hide CommitFrom;
    LastOfTermBound(o.log, r.conflictTerm);
    var d := HandleAppendReply(o, from, a, r);
    assert forall i :: 0 <= i < n && i != from ==> d.next[i] == o.next[i];
    assert d.log == o.log && d.base == o.base && d.role == Leader;
    assert Readable(o, d.next[from] - 1) <==> KeepsNext(o, from, a, r);
    assert NextOk(d) ==> Readable(d, d.next[from] - 1);
  }

  // ----- what the other steps keep

  /** A server that leads after a step led before, with the same places to read. */
  ghost predicate Carries(o: Server, d: Server) {
    d.role == Leader ==> o.role == Leader && d.term == o.term && d.next == o.next
  }

  lemma VoteReplyNext(o: Server, from: int, a: VoteArgs, r: VoteReply)
    requires |o.log| >= 1 && NextOk(o)
    ensures NextOk(HandleVoteReply(o, from, a, r)) && HandleVoteReply(o, from, a, r).base == o.base
  {
  }

  /** A snapshot that has been handed over lies within the leader's own, so within its log. */
  lemma InstallReplyNext(o: Server, me: int, n: nat, from: int, a: InstallArgs, t: int)
    requires Shape(o, me, n) && NextOk(o) && 0 <= from < n && a.lastIndex <= o.base
    ensures NextOk(HandleInstallReply(o, from, a, t)) && HandleInstallReply(o, from, a, t).base == o.base
  {
    hide CommitFrom;
  }

  lemma AppendReplyBase(o: Server, from: int, a: AppendArgs, r: AppendReply)
    requires 0 <= from < o.n == |o.next| == |o.match_|
    ensures HandleAppendReply(o, from, a, r).base == o.base
    ensures r.term > o.term || o.role != Leader ==> Carries(o, HandleAppendReply(o, from, a, r))
  {
    hide CommitFrom, LastOfTerm;
  }

  ghost predicate ToLeader(e: Event) {
    e.EVoteRep? || e.EAppendRep? || e.EInstallRep?
  }

  lemma RequestsCarry(o: Server)
    requires |o.log| >= 1
    ensures forall a :: Carries(o, AppendEntries(o, a).0) && AppendEntries(o, a).0.base == o.base
    ensures forall a :: Carries(o, InstallSnapshot(o, a).0) && InstallSnapshot(o, a).0.base >= o.base
    ensures forall a :: Carries(o, RequestVote(o, a).0) && RequestVote(o, a).0.base == o.base
  {
    hide Merge, ScanBack, LastIndex, LastTerm;
  }

  lemma OthersCarry(o: Server, me: int, n: nat, index: int, command: Command)
    requires ServerOk(o, me, n)
    ensures Carries(o, o)
    ensures Carries(o, StartElection(o).0) && StartElection(o).0.base == o.base
    ensures Carries(o, StartCommand(o, command).0) && StartCommand(o, command).0.base == o.base
    ensures forall data :: Carries(o, TakeSnapshot(o, index, data)) && TakeSnapshot(o, index, data).base >= o.base
    ensures Carries(o, Make(me, n, o.disk)) && Make(me, n, o.disk).base == o.base
    ensures Carries(o, ApplierTake(o).0) && ApplierTake(o).0.base == o.base
    ensures Carries(o, ApplierDone(o)) && ApplierDone(o).base == o.base
  {
    hide Full, UpTo, LastTerm;
  }

  lemma VoteReplyBase(o: Server, from: int, a: VoteArgs, r: VoteReply)
    ensures HandleVoteReply(o, from, a, r).base == o.base
  {
  }

  lemma InstallReplyBase(o: Server, from: int, a: InstallArgs, t: int)
    requires 0 <= from < o.n == |o.next| == |o.match_|
    ensures HandleInstallReply(o, from, a, t).base == o.base
  {
    hide CommitFrom;
  }

  /** One server moves; its snapshot does not shrink. */
  lemma StepMoves(x: System, y: System, e: Event)
    requires SysInv(x) && Step(x, y, e)
    ensures Has(x, e.s) && |y.servers| == |x.servers| && y.servers == x.servers[e.s := y.servers[e.s]]
    ensures y.servers[e.s].base >= x.servers[e.s].base
    ensures !ToLeader(e) ==> Carries(x.servers[e.s], y.servers[e.s])
  {
    hide SysInv, AppendEntries, InstallSnapshot, RequestVote, StartElection, StartCommand, TakeSnapshot, Make,
      ApplierTake, ApplierDone, HandleAppendReply, HandleInstallReply, HandleVoteReply, Carries, ServerOk, Full,
      AfterAppend, AfterInstall, HeardOf, Elect, Grant, Campaign, Append, MakeAppendArgs, UpTo;
    assert Has(x, e.s);
    ServerAt(x, e.s);
    var o := x.servers[e.s];
    SysMe(x, e.s);
    RequestsCarry(o);
    OthersCarry(o, e.s, x.core.n, if e.ECompact? then e.index else 0, if e.EClient? then e.command else "");
    if e.EVoteRep? {
      VoteReplyBase(o, e.from, e.voteArgs, e.voteReply);
    } else if e.EAppendRep? {
      AppendReplyBase(o, e.from, e.appendArgs, e.appendReply);
    } else if e.EInstallRep? {
      InstallReplyBase(o, e.from, e.installArgs, e.term);
    }
  }

  // ----- the invariant of runs whose replies pass the check

  ghost predicate NextInv(x: System) {
    && SysInv(x)
    && (forall s {:trigger NextOk(x.servers[s])} :: 0 <= s < |x.servers| ==> NextOk(x.servers[s]))
    && (forall m {:trigger BaseOk(x.servers, m)} :: m in x.net ==> BaseOk(x.servers, m))
  }

  /** A reply that the leader does not handle as news, or that passes the check. */
  ghost predicate ReplyKeepsNext(x: System, e: Event) {
    IsReply(x, e) && x.servers[e.s].role == Leader && e.appendReply.term <= x.servers[e.s].term
    ==> KeepsNext(x.servers[e.s], e.from, e.appendArgs, e.appendReply)
  }

  /** A leader's log does not get shorter. */
  lemma CarriesNext(x: System, y: System, s: int)
    requires SysInv(x) && SysInv(y) && Grows(x.core, y.core) && Has(x, s) && |y.servers| == |x.servers|
    requires NextOk(x.servers[s]) && Carries(x.servers[s], y.servers[s])
    ensures NextOk(y.servers[s])
  {
    var o, d := x.servers[s], y.servers[s];
    if d.role == Leader {
      LeadsFacts(x, s, o.term);
      LeadsFacts(y, s, o.term);
      ServerAt(x, s);
      ServerAt(y, s);
      FullFacts(o, s, x.core.n);
      FullFacts(d, s, y.core.n);
      assert |Full(o)| <= |Full(d)|;
      hide SysInv, Grows, Full, Inv, PeerOk, CountOk, Persisted;
      forall i | 0 <= i < |d.next| ensures Readable(d, d.next[i] - 1) {
        assert Readable(o, o.next[i] - 1);
      }
    }
  }

  lemma StepNext(x: System, y: System, e: Event)
    requires NextInv(x) && Step(x, y, e) && ReplyKeepsNext(x, e)
    requires SysInv(y) && Grows(x.core, y.core) && Has(x, e.s) && |y.servers| == |x.servers|
    requires !ToLeader(e) ==> Carries(x.servers[e.s], y.servers[e.s])
    ensures NextOk(y.servers[e.s])
  {
    hide SysInv, NextOk, Carries, HandleAppendReply, HandleInstallReply, HandleVoteReply, KeepsNext, Inv, PeerOk,
      CountOk, Full, AppendEntries, InstallSnapshot, RequestVote, StartElection, StartCommand, TakeSnapshot, Make,
      ApplierTake, ApplierDone, Grows, AfterAppend, AfterInstall, HeardOf, Elect, Grant, Campaign, Append,
      MakeAppendArgs, UpTo, Persisted;
    var o := x.servers[e.s];
    assert NextOk(o);
    ServerAt(x, e.s);
    if e.EVoteRep? {
      VoteReplyNext(o, e.from, e.voteArgs, e.voteReply);
    } else if e.EInstallRep? {
      assert BaseOk(x.servers, InstallRepMsg(e.from, e.installArgs, e.term));
      InstallReplyNext(o, e.s, x.core.n, e.from, e.installArgs, e.term);
    } else if e.EAppendRep? {
      if o.role == Leader && e.appendReply.term <= o.term {
        ReplyKeepsNextExactly(o, e.s, x.core.n, e.from, e.appendArgs, e.appendReply);
      } else {
        AppendReplyBase(o, e.from, e.appendArgs, e.appendReply);
        CarriesNext(x, y, e.s);
      }
    } else {
      CarriesNext(x, y, e.s);
    }
  }

  lemma StepBases(x: System, y: System, e: Event)
    requires NextInv(x) && Step(x, y, e) && Has(x, e.s)
    requires |y.servers| == |x.servers| && y.servers == x.servers[e.s := y.servers[e.s]]
    requires y.servers[e.s].base >= x.servers[e.s].base
    ensures forall m {:trigger BaseOk(y.servers, m)} :: m in y.net ==> BaseOk(y.servers, m)
  {
    hide SysInv, HandleAppendReply, HandleInstallReply, HandleVoteReply, AppendEntries, InstallSnapshot, RequestVote,
      StartElection, StartCommand, TakeSnapshot, Make, ApplierTake, ApplierDone, AfterAppend, AfterInstall, HeardOf,
      Elect, Grant, Campaign, Append, MakeAppendArgs, UpTo, NextOk;
    forall m | m in y.net ensures BaseOk(y.servers, m) {
      if m in x.net {
        assert BaseOk(x.servers, m);
      } else if e.EInstallReq? {
        assert BaseOk(x.servers, InstallReqMsg(e.s, e.installArgs));
      } else if e.ESendInstall? {
        SysMe(x, e.s);
      }
    }
  }

  lemma SysMe(x: System, s: int)
    requires SysInv(x) && Has(x, s)
    ensures x.servers[s].me == s && |x.servers[s].log| >= 1
  {
    ServerAt(x, s);
  }

  lemma StepKeepsNext(x: System, y: System, e: Event)
    requires NextInv(x) && Step(x, y, e) && ReplyKeepsNext(x, e)
    ensures NextInv(y)
  {
    hide SysInv, Step, Grows, NextOk, BaseOk, Carries, ReplyKeepsNext, ToLeader;
    StepKeeps(x, y, e);
    StepMoves(x, y, e);
    StepNext(x, y, e);
    StepBases(x, y, e);
    forall s | 0 <= s < |y.servers| ensures NextOk(y.servers[s]) {
      assert NextOk(x.servers[s]);
    }
  }

  // ----- whole runs

  ghost predicate RepliesKeepNext(xs: seq<System>, es: seq<Event>)
    requires |xs| == |es| + 1
  {
    forall i {:trigger es[i]} :: 0 <= i < |es| ==> ReplyKeepsNext(xs[i], es[i])
  }

  lemma {:induction false} RunNext(xs: seq<System>, es: seq<Event>, i: nat)
    requires Run(xs, es) && RepliesKeepNext(xs, es) && i < |xs|
    ensures NextInv(xs[i])
  {
    hide SysInv, Step, ReplyKeepsNext, NextOk;
    if i == 0 {
      InitNext(xs[0]);
    } else {
      RunNext(xs, es, i - 1);
      assert Step(xs[i - 1], xs[i], es[i - 1]) && ReplyKeepsNext(xs[i - 1], es[i - 1]);
      StepKeepsNext(xs[i - 1], xs[i], es[i - 1]);
    }
  }

  lemma InitNext(x: System)
    requires Init(x)
    ensures NextInv(x)
  {
    InitInv(x);
  }

  /** In no state does a leader have to read past its log to prepare a request. */
  ghost predicate NeverPast(xs: seq<System>) {
    forall i, s {:trigger NextOk(xs[i].servers[s])} :: 0 <= i < |xs| && 0 <= s < |xs[i].servers| ==>
      NextOk(xs[i].servers[s])
  }

  /** Over a whole run no leader ever has to read past its log, if and only if every reply that is
      handled by a leader and does not end its term passes the check. */
  lemma LeadersReadInsideExactly(xs: seq<System>, es: seq<Event>)
    requires Run(xs, es)
    ensures NeverPast(xs) <==> RepliesKeepNext(xs, es)
  {
    hide SysInv, Init, NextOk, KeepsNext;
    if RepliesKeepNext(xs, es) {
      forall i, s | 0 <= i < |xs| && 0 <= s < |xs[i].servers| ensures NextOk(xs[i].servers[s]) {
        RunNext(xs, es, i);
      }
    }
    if NeverPast(xs) {
      forall i | 0 <= i < |es| ensures ReplyKeepsNext(xs[i], es[i]) {
        RunInv(xs, es, i, i);
        assert Step(xs[i], xs[i + 1], es[i]);
        ReplyKept(xs[i], xs[i + 1], es[i]);
      }
    }
  }

  lemma ReplyKept(x: System, y: System, e: Event)
    requires SysInv(x) && Step(x, y, e)
    requires forall s {:trigger NextOk(x.servers[s])} :: 0 <= s < |x.servers| ==> NextOk(x.servers[s])
    requires forall s {:trigger NextOk(y.servers[s])} :: 0 <= s < |y.servers| ==> NextOk(y.servers[s])
    ensures ReplyKeepsNext(x, e)
  {
    hide SysInv, NextOk, KeepsNext, HandleAppendReply, Inv, PeerOk, CountOk, Full, Persisted, HeardOf;
    if e.EAppendRep? && IsReply(x, e) && x.servers[e.s].role == Leader && e.appendReply.term <= x.servers[e.s].term {
      var o := x.servers[e.s];
      ServerAt(x, e.s);
      assert NextOk(o) && NextOk(y.servers[e.s]);
      ReplyKeepsNextExactly(o, e.s, x.core.n, e.from, e.appendArgs, e.appendReply);
    }
  }

  // ----- replies in their term pass the check

  ghost predicate InTermEvent(x: System, e: Event) {
    IsReply(x, e) ==> InItsTerm(x.servers[e.s], e.appendArgs, e.appendReply)
  }

  lemma InTermPasses(x: System, y: System, e: Event)
    requires Strong(x) && Step(x, y, e) && InTermEvent(x, e)
    ensures ReplyKeepsNext(x, e)
  {
    hide Strong, SysInv, HandleAppendReply, Chosen, Inv, PeerOk, CountOk, Full, Persisted, HeardOf, LastOfTerm;
    if e.EAppendRep? && IsReply(x, e) && x.servers[e.s].role == Leader && e.appendReply.term <= x.servers[e.s].term {
      var o := x.servers[e.s];
      StrongServer(x, e.s);
      ServerAt(x, e.s);
      StrongMsg(x, AppendRepMsg(e.from, e.appendArgs, e.appendReply));
      LeaderLog(x.core, o, e.s);
      FullFacts(o, e.s, x.core.n);
    }
  }

  /** When every reply is handled in the term of its request, no leader ever has to read past its log. */
  lemma RepliesInTermReadInside(xs: seq<System>, es: seq<Event>)
    requires Run(xs, es) && forall i {:trigger es[i]} :: 0 <= i < |es| ==> InTermEvent(xs[i], es[i])
    ensures NeverPast(xs) && NoHarm(xs, es)
  {
    hide Strong, Init, ReplyKeepsNext, NeverPast, Step;
    forall i | 0 <= i < |es| ensures HarmlessEvent(xs[i], es[i]) {
      assert InTermEvent(xs[i], es[i]);
    }
    forall i | 0 <= i < |es| ensures ReplyKeepsNext(xs[i], es[i]) {
      RunStrong(xs, es, i);
      assert Step(xs[i], xs[i + 1], es[i]);
      InTermPasses(xs[i], xs[i + 1], es[i]);
    }
    LeadersReadInsideExactly(xs, es);
  }

  // ----- a run in which one late reply does not pass it

  ghost predicate ReadsPast(xs: seq<System>, es: seq<Event>, s: int, to: int) {
    && Run(xs, es) && var x := xs[|es|];
    && 0 <= s < |x.servers| && 0 <= to < |x.servers[s].next|
    && x.servers[s].role == Leader && !NeedsSnapshot(x.servers[s], to) && !Readable(x.servers[s], x.servers[s].next[to] - 1)
  }

  /** A success of term 3, handled in term 5, sends the leader past the end of its log: the next
      broadcast would panic. */
  lemma LateReplyReadsPast()
    ensures exists xs, es, s, to :: ReadsPast(xs, es, s, to)
  {
    hide Reaches, HandleAppendReply;
    var sv, m := MiddleTerms();
    sv := Election(sv, m, {}, 0, 1, 2, [4, 4, 4], [[DUMMY, B], [DUMMY, B], [DUMMY, B]]);
    var r := AppendReply(3, 0, 0, true);
    DoAppendRep(sv, m, {}, 0, 1, LateArgs(), r);
    BelievesLateReply(sv[0], sv[0].next, sv[0].match_);
    var now := sv[0 := HandleAppendReply(sv[0], 1, LateArgs(), r)];
    var xs, es, x := RunTo(now, m, {});
    assert ReadsPast(xs, es, 0, 1);
  }

  lemma BelievesLateReply(o: Server, next: seq<int>, match_: seq<int>)
    requires Plain(o, 0, 5, [DUMMY, B]) && Leading(o, next, match_) && match_[1] == 0
    ensures var d := HandleAppendReply(o, 1, LateArgs(), AppendReply(3, 0, 0, true));
      d.role == Leader && d.log == o.log && d.base == 0 && |d.next| == 3 && d.next[1] == 5
  {
    hide CommitFrom;
  }
}
