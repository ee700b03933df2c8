/** What a service is handed, and how commit indexes move: the exact conditions under which the applied
    stream has no gap and no repeat and commit indexes never fall, for all runs. */
module RaftApplied {
  import opened RaftLog
  import opened RaftCore
  import opened RaftServer
  import opened RaftSystem
  import opened RaftSystemSteps
  import opened RaftReplication
  import opened RaftSafety

  // ----- one round of the applier

  /** What the server has applied, or will have when the running round is over. */
  function Marked(o: Server): int {
    if o.applying.Some? then o.applying.value else o.applied
  }

  /** `position` is where the service will be once everything taken has been handed over. */
  ghost predicate Placed(o: Server, position: int) {
    position == Marked(o) && (o.applying.Some? ==> o.applied < o.applying.value)
  }

  /** One round hands over a snapshot that lies strictly ahead, or the commands that come next,
      without a gap or a repeat. */
  ghost predicate Follows(msgs: seq<ApplyMsg>, position: int) {
    || (|msgs| == 1 && msgs[0].ApplySnapshot? && msgs[0].index > position)
    || (forall k :: 0 <= k < |msgs| ==> msgs[k].ApplyCommand? && msgs[k].index == position + 1 + k)
  }

  /** The round hands over what comes next, and all of what it marks as applied. */
  ghost predicate HandsOver(o: Server, position: int)
    requires |o.log| >= 1
  {
    var (d, msgs) := ApplierTake(o);
    Follows(msgs, position) && NewPosition(msgs, position) == Marked(d)
  }

  /** The round has commands to take only if the commit index lies within the log. */
  predicate TakesInLog(o: Server) {
    o.applying.Some? || o.applied < o.base || o.applied >= o.commit || o.commit <= LastIndex(o)
  }

  /** A round hands over exactly what it should if and only if the commit index lies within the log when
      it takes commands. If it does not, nothing is handed over, and all is marked as applied. */
  lemma RoundExactly(o: Server, position: int)
    requires |o.log| >= 1 && Placed(o, position)
    ensures HandsOver(o, position) <==> TakesInLog(o)
    ensures o.applying.None? && o.base <= o.applied < o.commit ==>
      (|ApplierTake(o).1| == o.commit - o.applied <==> o.commit <= LastIndex(o))
    ensures !TakesInLog(o) ==>
      ApplierTake(o).1 == [] && o.applied < o.commit == ApplierDone(ApplierTake(o).0).applied
  {
    var (d, msgs) := ApplierTake(o);
    if o.applying.None? && o.base <= o.applied < o.commit && o.commit <= LastIndex(o) {
      assert |msgs| == o.commit - o.applied;
    }
  }

  lemma RoundPlaces(o: Server, position: int)
    requires |o.log| >= 1 && Placed(o, position) && HandsOver(o, position)
    ensures var (d, msgs) := ApplierTake(o); Placed(d, NewPosition(msgs, position))
  {
  }

  // ----- whole runs

  ghost predicate AllPlaced(x: System) {
    |x.position| == |x.servers| &&
    forall s {:trigger Placed(x.servers[s], x.position[s])} :: 0 <= s < |x.servers| ==>
      Placed(x.servers[s], x.position[s])
  }

  ghost predicate Delivers(x: System, e: Event) {
    e.EDeliver? && Has(x, e.s) && |x.servers[e.s].log| >= 1
  }

  ghost predicate RoundHandsOver(x: System, e: Event) {
    Delivers(x, e) ==> HandsOver(x.servers[e.s], x.position[e.s])
  }

  ghost predicate RoundInLog(x: System, e: Event) {
    Delivers(x, e) ==> TakesInLog(x.servers[e.s])
  }

  lemma PlacedAt(x: System, y: System, s: int)
    requires AllPlaced(x) && Has(x, s) && |y.servers| == |x.servers| && |y.position| == |x.position|
    requires y.servers == x.servers[s := y.servers[s]] && y.position == x.position[s := y.position[s]]
    requires Placed(y.servers[s], y.position[s])
    ensures AllPlaced(y)
  {
    hide Placed;
    forall r | 0 <= r < |y.servers| ensures Placed(y.servers[r], y.position[r]) {
      assert Placed(x.servers[r], x.position[r]);
    }
  }

  lemma IdlePlaces(o: Server, d: Server, position: int)
    requires Placed(o, position) && Idle(o, d)
    ensures Placed(d, position)
  {
  }

  lemma StepPlaced(x: System, y: System, e: Event)
    requires SysInv(x) && AllPlaced(x) && Step(x, y, e) && RoundHandsOver(x, e)
    ensures AllPlaced(y)
  {
    hide SysInv, AllPlaced, Placed, HandsOver, Idle, ApplierTake, ApplierDone, Make, NewPosition, ServerOk, PeerOf,
      AppendEntries, HandleAppendReply, HandleInstallReply, InstallSnapshot, RequestVote, HandleVoteReply, StartElection,
      StartCommand, TakeSnapshot, MakeAppendArgs, AfterAppend, AfterInstall, HeardOf, Inv, PeerOk, CountOk;
    if e.ERestart? {
      ServerAt(x, e.s);
      RestartFacts(x.servers[e.s], e.s, x.core.n);
      FreshIsPlaced(y.servers[e.s]);
      PlacedAt(x, y, e.s);
    } else if e.EDeliver? {
      PlacedOne(x, e.s);
      RoundPlaces(x.servers[e.s], x.position[e.s]);
      PlacedAt(x, y, e.s);
    } else if e.EDelivered? {
      PlacedOne(x, e.s);
      DonePlaces(x.servers[e.s], x.position[e.s]);
      PlacedAt(x, y, e.s);
    } else {
      StepIdle(x, y, e);
      PlacedOne(x, e.s);
      IdlePlaces(x.servers[e.s], y.servers[e.s], x.position[e.s]);
      PlacedAt(x, y, e.s);
    }
  }

  lemma PlacedOne(x: System, s: int)
    requires AllPlaced(x) && Has(x, s)
    ensures Placed(x.servers[s], x.position[s])
  {
  }

  lemma FreshIsPlaced(o: Server)
    requires o.applying.None?
    ensures Placed(o, o.applied)
  {
  }

  lemma DonePlaces(o: Server, position: int)
    requires Placed(o, position)
    ensures Placed(ApplierDone(o), position)
  {
  }

  lemma InitPlaced(x: System)
    requires Init(x)
    ensures AllPlaced(x)
  {
  }

  /** The first `i` events of a run. */
  lemma {:induction false} HandsOverWhileInLog(xs: seq<System>, es: seq<Event>, i: nat)
    requires Run(xs, es) && i < |xs|
    ensures (forall j {:trigger es[j]} :: 0 <= j < i ==> RoundHandsOver(xs[j], es[j]))
       <==> (forall j {:trigger es[j]} :: 0 <= j < i ==> RoundInLog(xs[j], es[j]))
    ensures (forall j {:trigger es[j]} :: 0 <= j < i ==> RoundHandsOver(xs[j], es[j])) ==> AllPlaced(xs[i])
  {
    hide Step, AllPlaced, RoundHandsOver, RoundInLog, SysInv;
    if i == 0 {
      InitPlaced(xs[0]);
    } else {
      HandsOverWhileInLog(xs, es, i - 1);
      assert Step(xs[i - 1], xs[i], es[i - 1]);
      if forall j {:trigger es[j]} :: 0 <= j < i - 1 ==> RoundHandsOver(xs[j], es[j]) {
        RunInv(xs, es, i - 1, i - 1);
        EventExactly(xs[i - 1], es[i - 1]);
        if RoundHandsOver(xs[i - 1], es[i - 1]) {
          StepPlaced(xs[i - 1], xs[i], es[i - 1]);
        }
      }
    }
  }

  lemma EventExactly(x: System, e: Event)
    requires AllPlaced(x)
    ensures RoundHandsOver(x, e) <==> RoundInLog(x, e)
  {
    hide HandsOver, TakesInLog, Placed;
    if Delivers(x, e) {
      assert Placed(x.servers[e.s], x.position[e.s]);
      RoundExactly(x.servers[e.s], x.position[e.s]);
    }
  }

  /** Every service is handed its snapshots and commands in order, without a gap or a repeat, and all of
      what its server marks as applied. */
  ghost predicate InOrder(xs: seq<System>, es: seq<Event>)
    requires |xs| == |es| + 1
  {
    forall i {:trigger es[i]} :: 0 <= i < |es| ==> RoundHandsOver(xs[i], es[i])
  }

  /** Over a whole run the applied stream has no gap and no repeat if and only if every round that takes
      commands finds its commit index within its log. */
  lemma AppliedInOrderExactly(xs: seq<System>, es: seq<Event>)
    requires Run(xs, es)
    ensures InOrder(xs, es) <==> forall i {:trigger es[i]} :: 0 <= i < |es| ==> RoundInLog(xs[i], es[i])
  {
    HandsOverWhileInLog(xs, es, |es|);
    hide Init, Step, RoundHandsOver, RoundInLog;
  }

  // ----- commit indexes

  /** An accepted request does not announce a newer commit index than it backs with entries, unless it
      backs one that is not older than the follower's own. */
  predicate KeepsCommit(o: Server, a: AppendArgs) {
    AppendEntries(o, a).1.success ==> a.commit <= o.commit || o.commit <= a.prevIndex + |a.entries|
  }

  lemma RequestKeepsCommitExactly(o: Server, a: AppendArgs)
    ensures AppendEntries(o, a).0.commit >= o.commit <==> KeepsCommit(o, a)
  {
    hide Merge, ScanBack;
  }

  ghost predicate EventKeepsCommit(x: System, e: Event) {
    e.EAppendReq? && Has(x, e.s) ==> KeepsCommit(x.servers[e.s], e.appendArgs)
  }

  /** No server but one that restarts is left with a lower commit index. */
  ghost predicate NoneFalls(x: System, y: System, e: Event) {
    |y.servers| == |x.servers| &&
    forall s :: 0 <= s < |x.servers| && e != ERestart(s) ==> x.servers[s].commit <= y.servers[s].commit
  }

  lemma ApplierKeepsCommit(x: System, y: System, e: Event)
    requires Step(x, y, e) && Applies(e)
    ensures Has(x, e.s) && |y.servers| == |x.servers| && y.servers == x.servers[e.s := y.servers[e.s]]
    ensures e.ERestart? || y.servers[e.s].commit == x.servers[e.s].commit
  {
    hide Make, NewPosition;
  }

  lemma StepCommitExactly(x: System, y: System, e: Event)
    requires Step(x, y, e)
    ensures NoneFalls(x, y, e) <==> EventKeepsCommit(x, e)
  {
    hide KeepsCommit, Idle, AppendEntries;
    if Applies(e) {
      ApplierKeepsCommit(x, y, e);
    } else {
      StepIdle(x, y, e);
      if e.EAppendReq? {
        RequestKeepsCommitExactly(x.servers[e.s], e.appendArgs);
        assert y.servers[e.s] == AppendEntries(x.servers[e.s], e.appendArgs).0;
      }
    }
    hide Step;
  }

  ghost predicate NeverFalls(xs: seq<System>, es: seq<Event>)
    requires |xs| == |es| + 1
  {
    forall i {:trigger es[i]} :: 0 <= i < |es| ==> NoneFalls(xs[i], xs[i + 1], es[i])
  }

  /** Over a whole run no commit index ever falls while its server is up if and only if every request
      that is accepted backs the commit index the follower has, or announces no newer one. */
  lemma CommitNeverFallsExactly(xs: seq<System>, es: seq<Event>)
    requires Run(xs, es)
    ensures NeverFalls(xs, es) <==> forall i {:trigger es[i]} :: 0 <= i < |es| ==> EventKeepsCommit(xs[i], es[i])
  {
    hide Init, Step, NoneFalls, EventKeepsCommit;
    forall i | 0 <= i < |es| ensures NoneFalls(xs[i], xs[i + 1], es[i]) <==> EventKeepsCommit(xs[i], es[i]) {
      assert Step(xs[i], xs[i + 1], es[i]);
      StepCommitExactly(xs[i], xs[i + 1], es[i]);
    }
  }

  // ----- commit indexes within the logs

  /** At all times every commit index lies within the log of its server. */
  ghost predicate CommitInLog(xs: seq<System>) {
    forall i, s {:trigger xs[i].servers[s]} :: 0 <= i < |xs| && 0 <= s < |xs[i].servers| ==>
      xs[i].servers[s].commit <= LastIndex(xs[i].servers[s])
  }

  /** Requests back the commit index they announce. */
  ghost predicate Backing(x: System) {
    forall to, a {:trigger AppendReqMsg(to, a)} :: AppendReqMsg(to, a) in x.net ==>
      a.commit <= a.prevIndex + |a.entries|
  }

  lemma StepBacking(x: System, y: System, e: Event)
    requires SysInv(x) && Backing(x) && Step(x, y, e)
    requires forall s :: 0 <= s < |x.servers| ==> x.servers[s].commit <= LastIndex(x.servers[s])
    ensures Backing(y)
  {
    hide SysInv, AppendEntries, HandleAppendReply, HandleInstallReply, InstallSnapshot, RequestVote, HandleVoteReply,
      StartElection, StartCommand, TakeSnapshot, Make, ApplierTake, MakeAppendArgs, AfterAppend, AfterInstall, HeardOf;
    if e.ESendAppend? {
      SentIsBacked(x, e.s, e.to);
    }
  }

  lemma SentIsBacked(x: System, s: int, to: int)
    requires SysInv(x) && Has(x, s) && Has(x, to) && x.servers[s].commit <= LastIndex(x.servers[s])
    requires to < |x.servers[s].next| && !NeedsSnapshot(x.servers[s], to)
    requires Readable(x.servers[s], x.servers[s].next[to] - 1)
    ensures var a := MakeAppendArgs(x.servers[s], to); a.commit <= a.prevIndex + |a.entries|
  {
    var o := x.servers[s];
    ServerAt(x, s);
    FullFacts(o, s, x.core.n);
    AppendArgsFacts(o, s, x.core.n, to);
  }

  lemma {:induction false} RunBacking(xs: seq<System>, es: seq<Event>, i: nat)
    requires Run(xs, es) && CommitInLog(xs) && i < |xs|
    ensures Backing(xs[i])
  {
    hide Step, SysInv, LastIndex;
    if i > 0 {
      RunBacking(xs, es, i - 1);
      RunInv(xs, es, i - 1, i - 1);
      assert Step(xs[i - 1], xs[i], es[i - 1]);
      hide Backing;
      StepBacking(xs[i - 1], xs[i], es[i - 1]);
    }
  }

  /** With commit indexes within the logs, the applied stream has no gap and no repeat. */
  lemma AppliedInOrder(xs: seq<System>, es: seq<Event>)
    requires Run(xs, es) && CommitInLog(xs)
    ensures InOrder(xs, es)
  {
    hide Init, Step, RoundHandsOver, LastIndex;
    forall i | 0 <= i < |es| ensures RoundInLog(xs[i], es[i]) {
      if Delivers(xs[i], es[i]) {
        assert xs[i].servers[es[i].s].commit <= LastIndex(xs[i].servers[es[i].s]);
      }
    }
    AppliedInOrderExactly(xs, es);
  }

  /** And no commit index ever falls while its server is up. */
  lemma CommitNeverFalls(xs: seq<System>, es: seq<Event>)
    requires Run(xs, es) && CommitInLog(xs)
    ensures NeverFalls(xs, es)
  {
    hide Init, AppendEntries, NoneFalls;
    forall i | 0 <= i < |es| ensures EventKeepsCommit(xs[i], es[i]) {
      if es[i].EAppendReq? {
        RunBacking(xs, es, i);
        assert Step(xs[i], xs[i + 1], es[i]);
        assert AppendReqMsg(es[i].s, es[i].appendArgs) in xs[i].net;
      }
    }
    CommitNeverFallsExactly(xs, es);
  }

  /** Without harmful late replies commit indexes lie within the logs, so both hold. */
  lemma NoHarmInOrder(xs: seq<System>, es: seq<Event>)
    requires Run(xs, es) && NoHarm(xs, es)
    ensures CommitInLog(xs) && InOrder(xs, es) && NeverFalls(xs, es)
  {
    hide Run, InOrder, NeverFalls, NoHarm;
    forall i, s | 0 <= i < |xs| && 0 <= s < |xs[i].servers|
      ensures xs[i].servers[s].commit <= LastIndex(xs[i].servers[s])
    {
      CommittedIsChosen(xs, es, i, s);
      ServerAt(xs[i], s);
      FullFacts(xs[i].servers[s], s, xs[i].core.n);
    }
    AppliedInOrder(xs, es);
    CommitNeverFalls(xs, es);
  }
}
