/** Whole runs of the cluster. Whatever replies arrive when: election safety and log matching. Without
    harmful late replies: committed entries stay, and services are handed the same commands. */
module RaftSafety {
  import opened Collections
  import opened Options
  import opened RaftLog
  import opened RaftCore
  import opened RaftCoreSteps
  import opened RaftServer
  import opened RaftSystem
  import opened RaftSystemSteps
  import opened RaftReplication
  import opened RaftCommit
  import opened RaftCommitSteps

  datatype Event =
    | ETimeout(s: int)
    | EVoteReq(s: int, voteArgs: VoteArgs)
    | EVoteRep(s: int, from: int, voteArgs: VoteArgs, voteReply: VoteReply)
    | ESendAppend(s: int, to: int)
    | EAppendReq(s: int, appendArgs: AppendArgs)
    | EAppendRep(s: int, from: int, appendArgs: AppendArgs, appendReply: AppendReply)
    | ESendInstall(s: int, to: int)
    | EInstallReq(s: int, installArgs: InstallArgs)
    | EInstallRep(s: int, from: int, installArgs: InstallArgs, term: int)
    | EClient(s: int, command: Command)
    | ECompact(s: int, index: int)
    | ERestart(s: int)
    | EDeliver(s: int)
    | EDelivered(s: int)

  ghost predicate Step(x: System, y: System, e: Event) {
    match e
    case ETimeout(s) => Timeout(x, y, s)
    case EVoteReq(s, a) => OnVoteReq(x, y, s, a)
    case EVoteRep(s, from, a, r) => OnVoteRep(x, y, s, from, a, r)
    case ESendAppend(s, to) => SendAppend(x, y, s, to)
    case EAppendReq(s, a) => OnAppendReq(x, y, s, a)
    case EAppendRep(s, from, a, r) => OnAppendRep(x, y, s, from, a, r)
    case ESendInstall(s, to) => SendInstall(x, y, s, to)
    case EInstallReq(s, a) => OnInstallReq(x, y, s, a)
    case EInstallRep(s, from, a, t) => OnInstallRep(x, y, s, from, a, t)
    case EClient(s, command) => Client(x, y, s, command)
    case ECompact(s, index) => Compact(x, y, s, index)
    case ERestart(s) => Restart(x, y, s)
    case EDeliver(s) => Deliver(x, y, s)
    case EDelivered(s) => Delivered(x, y, s)
  }

  /** States joined by events, from a fresh cluster. */
  ghost predicate Run(xs: seq<System>, es: seq<Event>) {
    && |xs| == |es| + 1 && Init(xs[0])
    && forall i {:trigger es[i]} :: 0 <= i < |es| ==> Step(xs[i], xs[i + 1], es[i])
  }

  /** A leader or former leader is about to handle the answer to an `AppendEntries`. */
  predicate IsReply(x: System, e: Event) {
    e.EAppendRep? && 0 <= e.s < |x.servers| && 0 <= e.from < |x.servers[e.s].match_|
  }

  /** The named assumption of the commit-level results: no leader takes a late success for news. */
  ghost predicate HarmlessEvent(x: System, e: Event) {
    IsReply(x, e) ==> Harmless(x.servers[e.s], e.from, e.appendArgs, e.appendReply)
  }

  ghost predicate NoHarm(xs: seq<System>, es: seq<Event>)
    requires |xs| == |es| + 1
  {
    forall i {:trigger es[i]} :: 0 <= i < |es| ==> HarmlessEvent(xs[i], es[i])
  }

  // ----- what every run keeps

  lemma StepKeeps(x: System, y: System, e: Event)
    requires SysInv(x) && Step(x, y, e)
    ensures SysInv(y) && Grows(x.core, y.core)
  {
    hide SysInv, Grows, Timeout, OnVoteReq, OnVoteRep, SendAppend, OnAppendReq, OnAppendRep,
      SendInstall, OnInstallReq, OnInstallRep, Client, Compact, Restart, Deliver, Delivered;
    match e
    case ETimeout(s) => TimeoutKeeps(x, y, s);
    case EVoteReq(s, a) => OnVoteReqKeeps(x, y, s, a);
    case EVoteRep(s, from, a, r) => OnVoteRepKeeps(x, y, s, from, a, r);
    case ESendAppend(s, to) => SendAppendKeeps(x, y, s, to);
    case EAppendReq(s, a) => OnAppendReqKeeps(x, y, s, a);
    case EAppendRep(s, from, a, r) => OnAppendRepKeeps(x, y, s, from, a, r);
    case ESendInstall(s, to) => SendInstallKeeps(x, y, s, to);
    case EInstallReq(s, a) => OnInstallReqKeeps(x, y, s, a);
    case EInstallRep(s, from, a, t) => OnInstallRepKeeps(x, y, s, from, a, t);
    case EClient(s, command) => ClientKeeps(x, y, s, command);
    case ECompact(s, index) => CompactKeeps(x, y, s, index);
    case ERestart(s) => RestartKeeps(x, y, s);
    case EDeliver(s) => DeliverKeeps(x, y, s);
    case EDelivered(s) => DeliveredKeeps(x, y, s);
  }

  lemma StepStrong(x: System, y: System, e: Event)
    requires Strong(x) && Step(x, y, e) && HarmlessEvent(x, e)
    ensures Strong(y)
  {
    hide Strong, Harmless, SysInv, Grows, Timeout, OnVoteReq, OnVoteRep, SendAppend, OnAppendReq, OnAppendRep,
      SendInstall, OnInstallReq, OnInstallRep, Client, Compact, Restart, Deliver, Delivered;
    match e
    case ETimeout(s) => TimeoutStrong(x, y, s);
    case EVoteReq(s, a) => OnVoteReqStrong(x, y, s, a);
    case EVoteRep(s, from, a, r) => OnVoteRepStrong(x, y, s, from, a, r);
    case ESendAppend(s, to) => SendAppendStrong(x, y, s, to);
    case EAppendReq(s, a) => OnAppendReqStrong(x, y, s, a);
    case EAppendRep(s, from, a, r) =>
      HasReply(x, y, e);
      OnAppendRepStrong(x, y, s, from, a, r);
    case ESendInstall(s, to) => SendInstallStrong(x, y, s, to);
    case EInstallReq(s, a) => OnInstallReqStrong(x, y, s, a);
    case EInstallRep(s, from, a, t) => OnInstallRepStrong(x, y, s, from, a, t);
    case EClient(s, command) => ClientStrong(x, y, s, command);
    case ECompact(s, index) => CompactStrong(x, y, s, index);
    case ERestart(s) => RestartStrong(x, y, s);
    case EDeliver(s) => DeliverStrong(x, y, s);
    case EDelivered(s) => DeliveredStrong(x, y, s);
  }

  lemma HasReply(x: System, y: System, e: Event)
    requires Step(x, y, e) && e.EAppendRep?
    ensures Has(x, e.s) && IsReply(x, e)
  {
  }

  lemma InitStrong(x: System)
    requires Init(x)
    ensures Strong(x)
  {
    InitInv(x);
    forall s | 0 <= s < x.core.n ensures CommitOk(x.core, x.servers[s]) {
      var o := x.servers[s];
      assert Full(o) == [DUMMY];
      assert Full(o)[..o.commit + 1] == [DUMMY];
    }
  }

  /** Every state of every run satisfies the invariant, and histories only grow. */
  lemma {:induction false} RunInv(xs: seq<System>, es: seq<Event>, i: nat, j: nat)
    requires Run(xs, es) && i <= j < |xs|
    ensures SysInv(xs[i]) && SysInv(xs[j]) && Grows(xs[i].core, xs[j].core)
    decreases j
  {
    hide SysInv, Grows, Init, Step;
    if j == 0 {
      InitInv(xs[0]);
      SelfGrows(xs[0]);
    } else {
      RunInv(xs, es, j - 1, j - 1);
      assert Step(xs[j - 1], xs[j], es[j - 1]);
      StepKeeps(xs[j - 1], xs[j], es[j - 1]);
      if i == j {
        SelfGrows(xs[j]);
      } else {
        RunInv(xs, es, i, j - 1);
        GrowsTrans(xs[i].core, xs[j - 1].core, xs[j].core);
      }
    }
  }

  lemma SelfGrows(x: System)
    requires SysInv(x)
    ensures Grows(x.core, x.core)
  {
    GrowsRefl(x.core);
  }

  lemma {:induction false} RunStrong(xs: seq<System>, es: seq<Event>, i: nat)
    requires Run(xs, es) && NoHarm(xs, es) && i < |xs|
    ensures Strong(xs[i])
  {
    hide Strong, Init, Step, HarmlessEvent;
    if i == 0 {
      InitStrong(xs[0]);
    } else {
      RunStrong(xs, es, i - 1);
      assert Step(xs[i - 1], xs[i], es[i - 1]) && HarmlessEvent(xs[i - 1], es[i - 1]);
      StepStrong(xs[i - 1], xs[i], es[i - 1]);
    }
  }

  // ----- whatever the network does

  ghost predicate Leads(x: System, s: int, term: int) {
    0 <= s < |x.servers| && x.servers[s].role == Leader && x.servers[s].term == term
  }

  lemma LeadsFacts(x: System, s: int, term: int)
    requires SysInv(x) && Leads(x, s, term)
    ensures term in x.core.leaders && x.core.leaders[term].owner == s && x.core.leaders[term].log == Full(x.servers[s])
  {
    assert ServerInv(x, s) && PeerOk(x.core, s);
  }

  /** Election safety: over a whole run, crashes and restarts included, one server at most ever leads
      in a term. */
  lemma ElectionSafety(xs: seq<System>, es: seq<Event>, i: nat, s: int, j: nat, r: int, term: int)
    requires Run(xs, es) && i <= j < |xs| && Leads(xs[i], s, term) && Leads(xs[j], r, term)
    ensures s == r
  {
    RunInv(xs, es, i, j);
    LeadsFacts(xs[i], s, term);
    LeadsFacts(xs[j], r, term);
  }

  /** While a server leads, it never drops or replaces an entry. */
  lemma LeaderAppendOnly(xs: seq<System>, es: seq<Event>, i: nat, j: nat, s: int, term: int)
    requires Run(xs, es) && i <= j < |xs| && Leads(xs[i], s, term) && Leads(xs[j], s, term)
    ensures Full(xs[i].servers[s]) <= Full(xs[j].servers[s])
  {
    RunInv(xs, es, i, j);
    LeadsFacts(xs[i], s, term);
    LeadsFacts(xs[j], s, term);
  }

  /** Log matching: where two full logs, even of different moments, have the same term at an index,
      they agree on every entry up to it. */
  lemma LogMatching(xs: seq<System>, es: seq<Event>, i: nat, s: int, j: nat, r: int)
    requires Run(xs, es) && i <= j < |xs| && 0 <= s < |xs[i].servers| && 0 <= r < |xs[j].servers|
    ensures Matching(Full(xs[i].servers[s]), Full(xs[j].servers[r]))
  {
    RunInv(xs, es, i, j);
    ServerAt(xs[i], s);
    ServerAt(xs[j], r);
    var a, b := Full(xs[i].servers[s]), Full(xs[j].servers[r]);
    hide SysInv, Full, Coherent, Matching;
    CoherentGrows(xs[i].core, xs[j].core, a);
    LogsMatch(xs[j].core, a, b);
  }

  /** The offset log, its slot 0, and the persisted image, whenever the lock is free. */
  lemma CompactionRefinesFullLog(xs: seq<System>, es: seq<Event>, i: nat, s: int)
    requires Run(xs, es) && i < |xs| && 0 <= s < |xs[i].servers|
    ensures var o := xs[i].servers[s];
      && Persisted(o)
      && o.base >= 0 && |o.log| >= 1 && o.log[0].term == o.baseTerm
      && |Full(o)| == LastIndex(o) + 1 && Full(o)[0] == DUMMY
      && (forall k :: o.base <= k <= LastIndex(o) ==> Readable(o, k) && LogTerm(o, k) == Full(o)[k].term)
      && Full(o)[o.base + 1..] == o.log[1..]
      && PeerOf(Make(s, xs[i].core.n, o.disk)) == PeerOf(o).(role := Follower)
  {
    RunInv(xs, es, i, i);
    ServerAt(xs[i], s);
    FullFacts(xs[i].servers[s], s, xs[i].core.n);
    RestartFacts(xs[i].servers[s], s, xs[i].core.n);
    hide SysInv, Make, PeerOf, Full;
    assert Coherent(xs[i].core, xs[i].core.peers[s].log);
  }

  // ----- without harmful late replies

  /** What a server holds up to its commit index. */
  function CommittedLog(o: Server): Log
    requires -1 <= o.commit < |Full(o)|
  {
    Full(o)[..o.commit + 1]
  }

  lemma CommittedIsChosen(xs: seq<System>, es: seq<Event>, i: nat, s: int)
    requires Run(xs, es) && NoHarm(xs, es) && i < |xs| && 0 <= s < |xs[i].servers|
    ensures SysInv(xs[i]) && Has(xs[i], s)
    ensures 0 <= xs[i].servers[s].base <= xs[i].servers[s].commit < |Full(xs[i].servers[s])|
    ensures Chosen(xs[i].core, CommittedLog(xs[i].servers[s]), xs[i].servers[s].term)
  {
    RunStrong(xs, es, i);
    assert Has(xs[i], s);
    StrongServer(xs[i], s);
  }

  /** Leader completeness: whatever any server has ever regarded as committed is in the log of every
      later leader of the same or a newer term. */
  lemma LeadersHaveCommitted(xs: seq<System>, es: seq<Event>, i: nat, s: int, j: nat, r: int, term: int)
    requires Run(xs, es) && NoHarm(xs, es) && i <= j < |xs| && 0 <= s < |xs[i].servers|
    requires Leads(xs[j], r, term) && term >= xs[i].servers[s].term
    ensures -1 <= xs[i].servers[s].commit < |Full(xs[i].servers[s])|
    ensures CommittedLog(xs[i].servers[s]) <= Full(xs[j].servers[r])
  {
    CommittedIsChosen(xs, es, i, s);
    RunInv(xs, es, i, j);
    LeadsFacts(xs[j], r, term);
    var o := xs[i].servers[s];
    ChosenGrows(xs[i].core, xs[j].core, CommittedLog(o), o.term, o.term);
    ChosenStartsLeader(xs[j].core, CommittedLog(o), o.term, term);
  }

  /** No two servers ever disagree about a committed entry, at any two moments. */
  lemma CommittedAgree(xs: seq<System>, es: seq<Event>, i: nat, s: int, j: nat, r: int)
    requires Run(xs, es) && NoHarm(xs, es) && i <= j < |xs| && 0 <= s < |xs[i].servers| && 0 <= r < |xs[j].servers|
    ensures -1 <= xs[i].servers[s].commit < |Full(xs[i].servers[s])|
    ensures -1 <= xs[j].servers[r].commit < |Full(xs[j].servers[r])|
    ensures
      || CommittedLog(xs[i].servers[s]) <= CommittedLog(xs[j].servers[r])
      || CommittedLog(xs[j].servers[r]) <= CommittedLog(xs[i].servers[s])
  {
    CommittedIsChosen(xs, es, i, s);
    CommittedIsChosen(xs, es, j, r);
    RunInv(xs, es, i, j);
    var o, p := xs[i].servers[s], xs[j].servers[r];
    ChosenGrows(xs[i].core, xs[j].core, CommittedLog(o), o.term, o.term);
    ChosenAgree(xs[j].core, CommittedLog(o), CommittedLog(p), o.term, p.term);
  }

  // ----- what services are handed

  /** What is handed over stands at its index in a chosen log. */
  ghost predicate Backs(c: Core, p: Log, term: int, msg: ApplyMsg) {
    && Chosen(c, p, term) && msg.index >= 0 && |p| == msg.index + 1
    && (msg.ApplyCommand? ==> p[msg.index].command == msg.command)
    && (msg.ApplySnapshot? ==> p == msg.data && p[msg.index].term == msg.term)
  }

  ghost predicate Backed(c: Core, msg: ApplyMsg) {
    exists p, term :: Backs(c, p, term, msg)
  }

  ghost predicate AllBacked(x: System) {
    forall v {:trigger Backed(x.core, v.msg)} :: v in x.delivered ==> Backed(x.core, v.msg)
  }

  lemma BackedGrows(c: Core, d: Core, msg: ApplyMsg)
    requires Grows(c, d) && Backed(c, msg)
    ensures Backed(d, msg)
  {
    var p, term :| Backs(c, p, term, msg);
    ChosenGrows(c, d, p, term, term);
    assert Backs(d, p, term, msg);
  }

  /** The applier takes a snapshot ahead of what was applied, or every committed entry from there on. */
  lemma TakeFacts(o: Server, me: int, n: nat)
    requires ServerOk(o, me, n) && o.base <= o.commit < |Full(o)| && o.applied >= 0
    requires o.applying.None? && !(o.applied >= o.commit && o.applied >= o.base)
    ensures var (d, msgs) := ApplierTake(o);
      if o.applied < o.base then
        msgs == [ApplySnapshot(o.base, o.baseTerm, Full(o)[..o.base + 1])] && d == o.(applying := Some(o.base))
      else
        && |msgs| == o.commit - o.applied && d == o.(applying := Some(o.commit))
        && (forall k :: 0 <= k < |msgs| ==>
            msgs[k] == ApplyCommand(o.applied + 1 + k, Full(o)[o.applied + 1 + k].command))
  {
    FullFacts(o, me, n);
    var (d, msgs) := ApplierTake(o);
    if o.applied >= o.base {
      assert |msgs| == o.commit - o.applied;
      forall k | 0 <= k < |msgs|
        ensures msgs[k] == ApplyCommand(o.applied + 1 + k, Full(o)[o.applied + 1 + k].command)
      {
        assert o.log[1..][o.applied - o.base + k] == Full(o)[o.base + 1..][o.applied - o.base + k];
      }
    }
  }

  lemma TakenIsBacked(c: Core, o: Server, me: int, n: nat, k: nat)
    requires ServerOk(o, me, n) && CommitOk(c, o) && o.applied >= 0 && k < |ApplierTake(o).1|
    ensures Backed(c, ApplierTake(o).1[k])
  {
    hide Chosen, CommitOk, Full;
    var msg := ApplierTake(o).1[k];
    CommitFacts(c, o);
    TakeFacts(o, me, n);
    FullFacts(o, me, n);
    hide ApplierTake, ServerOk;
    var p := Full(o)[..msg.index + 1];
    ChosenPrefix(c, Full(o)[..o.commit + 1], p, o.term);
    assert Backs(c, p, o.term, msg);
  }

  /** Nothing is applied below the start. */
  ghost predicate AllApplied(x: System) {
    forall s {:trigger x.servers[s]} :: 0 <= s < |x.servers| ==> x.servers[s].applied >= 0
  }

  ghost predicate Applies(e: Event) {
    e.ERestart? || e.EDeliver? || e.EDelivered?
  }

  /** The applier's fields stay. */
  ghost predicate Idle(o: Server, d: Server) {
    d.applied == o.applied && d.applying == o.applying
  }

  lemma CheckCommitRaises(o: Server)
    requires |o.match_| >= o.n
    ensures Idle(o, CheckCommit(o)) && CheckCommit(o).commit >= o.commit
  {
    CommitFromFacts(o, LastIndex(o));
  }

  lemma RepliesRaise(o: Server, from: int)
    requires 0 <= from < o.n == |o.next| == |o.match_|
    ensures forall a: AppendArgs, r: AppendReply ::
      Idle(o, HandleAppendReply(o, from, a, r)) && HandleAppendReply(o, from, a, r).commit >= o.commit
    ensures forall a: InstallArgs, t: int ::
      Idle(o, HandleInstallReply(o, from, a, t)) && HandleInstallReply(o, from, a, t).commit >= o.commit
  {
    forall a: AppendArgs, r: AppendReply
      ensures Idle(o, HandleAppendReply(o, from, a, r)) && HandleAppendReply(o, from, a, r).commit >= o.commit
    {
      var m := a.prevIndex + |a.entries|;
      CheckCommitRaises(o.(match_ := o.match_[from := m], next := o.next[from := m + 1]));
    }
    forall a: InstallArgs, t: int
      ensures Idle(o, HandleInstallReply(o, from, a, t)) && HandleInstallReply(o, from, a, t).commit >= o.commit
    {
      var m := if o.match_[from] < a.lastIndex then o.match_[from := a.lastIndex] else o.match_;
      var x := if o.next[from] < a.lastIndex + 1 then o.next[from := a.lastIndex + 1] else o.next;
      CheckCommitRaises(o.(match_ := m, next := x));
    }
  }

  /** Steps that are not about applying leave the applier alone, and all but the handling of entries
      leave every commit index where it is or raise it. */
  lemma StepIdle(x: System, y: System, e: Event)
    requires Step(x, y, e) && !Applies(e)
    ensures Has(x, e.s) && y.position == x.position && y.delivered == x.delivered
    ensures |y.servers| == |x.servers| && y.servers == x.servers[e.s := y.servers[e.s]]
    ensures Idle(x.servers[e.s], y.servers[e.s]) && (e.EAppendReq? || y.servers[e.s].commit >= x.servers[e.s].commit)
  {
    hide CheckCommit, AfterAppend, AfterInstall, HeardOf, Elect, Grant, Campaign, Append, LastOfTerm, Full,
      MakeAppendArgs, UpTo, Merge, ScanBack;
    if e.EAppendRep? || e.EInstallRep? {
      RepliesRaise(x.servers[e.s], e.from);
      hide AppendEntries, HandleAppendReply, HandleInstallReply, Idle;
    } else {
      hide HandleAppendReply, HandleInstallReply;
    }
  }

  lemma SameDeliveries(x: System, y: System, e: Event)
    requires Step(x, y, e) && !e.EDeliver?
    ensures y.delivered == x.delivered
  {
    if !Applies(e) {
      StepIdle(x, y, e);
    }
    hide AppendEntries;
  }

  lemma BackedStays(x: System, y: System)
    requires AllBacked(x) && y.delivered == x.delivered && Grows(x.core, y.core)
    ensures AllBacked(y)
  {
    forall v | v in y.delivered ensures Backed(y.core, v.msg) {
      BackedGrows(x.core, y.core, v.msg);
    }
  }

  lemma DeliverBacked(x: System, y: System, s: int)
    requires Strong(x) && AllApplied(x) && AllBacked(x) && Deliver(x, y, s)
    ensures AllBacked(y)
  {
    hide Strong, SysInv, Full, ServerOk, CommitOk, Chosen, ApplierTake, Backed, NewPosition;
    StrongServer(x, s);
    ServerAt(x, s);
    var o := x.servers[s];
    var msgs := ApplierTake(o).1;
    forall v | v in y.delivered ensures Backed(y.core, v.msg) {
      if v !in x.delivered {
        var k :| 0 <= k < |msgs| && v == Delivery(s, msgs[k]);
        TakenIsBacked(x.core, o, s, x.core.n, k);
      }
    }
  }

  lemma StepApplied(x: System, y: System, e: Event)
    requires AllApplied(x) && Step(x, y, e)
    ensures AllApplied(y)
  {
    if !Applies(e) {
      StepIdle(x, y, e);
    }
    hide AppendEntries, HandleAppendReply, HandleInstallReply, InstallSnapshot, RequestVote;
  }

  lemma StepBacked(x: System, y: System, e: Event)
    requires Strong(x) && AllApplied(x) && AllBacked(x) && Step(x, y, e)
    ensures AllBacked(y)
  {
    hide Strong, SysInv, AllApplied, AllBacked, Grows, Deliver;
    StrongSys(x);
    StepKeeps(x, y, e);
    if e.EDeliver? {
      DeliverBacked(x, y, e.s);
    } else {
      SameDeliveries(x, y, e);
      BackedStays(x, y);
    }
  }

  lemma StrongSys(x: System)
    requires Strong(x)
    ensures SysInv(x)
  {
  }

  lemma {:induction false} RunBacked(xs: seq<System>, es: seq<Event>, i: nat)
    requires Run(xs, es) && NoHarm(xs, es) && i < |xs|
    ensures Strong(xs[i]) && AllApplied(xs[i]) && AllBacked(xs[i])
  {
    hide Strong, Step, HarmlessEvent;
    RunStrong(xs, es, i);
    if i > 0 {
      RunBacked(xs, es, i - 1);
      assert Step(xs[i - 1], xs[i], es[i - 1]);
      hide AllApplied, AllBacked;
      StepApplied(xs[i - 1], xs[i], es[i - 1]);
      StepBacked(xs[i - 1], xs[i], es[i - 1]);
    }
  }

  /** What stands at `index` in a message, when it says so. */
  predicate Says(msg: ApplyMsg, index: int, command: Option<Command>) {
    match msg
    case ApplyCommand(i, c) => i == index && c == command
    case ApplySnapshot(i, t, data) => 0 <= index < |data| && data[index].command == command
  }

  /** State machine safety: whatever two services are told about one index, by a command or inside a
      snapshot, at any two moments of a run with crashes, snapshots and message loss, is the same. */
  lemma StateMachineSafety(xs: seq<System>, es: seq<Event>, u: Delivery, v: Delivery, index: int, a: Option<Command>,
          b: Option<Command>)
    requires Run(xs, es) && NoHarm(xs, es)
    requires u in xs[|es|].delivered && v in xs[|es|].delivered
    requires Says(u.msg, index, a) && Says(v.msg, index, b)
    ensures a == b
  {
    RunBacked(xs, es, |es|);
    var c := xs[|es|].core;
    StrongSys(xs[|es|]);
    assert Backed(c, u.msg) && Backed(c, v.msg);
    var p: Log, t: int :| Backs(c, p, t, u.msg);
    var q: Log, w: int :| Backs(c, q, w, v.msg);
    hide Chosen;
    ChosenAgree(c, p, q, t, w);
    assert p[index].command == a && q[index].command == b;
  }
}
