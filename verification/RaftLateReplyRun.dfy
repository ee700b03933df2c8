/** A run of three servers with one late reply, chapter by chapter. A chapter is a lemma that extends
    any run ending in servers of a given shape: an election, a command, a replication with its backup.
    The run itself takes six terms and some fifty events; `LastTerms` is where it stands before the late
    reply and the last replication are handled. */
module RaftLateReplyRun {
  import opened Collections
  import opened Options
  import opened RaftLog
  import opened RaftCore
  import opened RaftCoreSteps
  import opened RaftServer
  import opened RaftSystem
  import opened RaftSystemSteps
  import opened RaftSafety

  // ----- a run with one late reply

  ghost predicate Ends(xs: seq<System>, es: seq<Event>, sv: seq<Server>, msgs: set<Msg>, told: set<Delivery>) {
    && Run(xs, es) && xs[|es|].core.n == 3 == |sv| && xs[|es|].servers == sv
    && msgs <= xs[|es|].net && told <= xs[|es|].delivered
  }

  /** Some run of three servers ends with these servers, with at least these messages sent and these
      deliveries made. */
  ghost predicate Reaches(sv: seq<Server>, msgs: set<Msg>, told: set<Delivery>) {
    exists xs, es :: Ends(xs, es, sv, msgs, told)
  }

  lemma RunTo(sv: seq<Server>, msgs: set<Msg>, told: set<Delivery>) returns (xs: seq<System>, es: seq<Event>, x: System)
    requires Reaches(sv, msgs, told)
    ensures Ends(xs, es, sv, msgs, told) && x == xs[|es|] && SysInv(x)
    ensures |x.servers| == |x.core.peers| == x.core.n == |x.position| == 3
  {
    xs, es :| Ends(xs, es, sv, msgs, told);
    x := xs[|es|];
    RunInv(xs, es, |es|, |es|);
  }

  lemma Longer(xs: seq<System>, es: seq<Event>, y: System, e: Event)
    requires Run(xs, es) && Step(xs[|es|], y, e)
    ensures Run(xs + [y], es + [e])
    ensures |xs| == |es| + 1 && (xs + [y])[|es|] == xs[|es|] && (xs + [y])[|es| + 1] == y
  {
    hide Step, Init;
    var ys, fs := xs + [y], es + [e];
    forall i | 0 <= i < |fs| ensures Step(ys[i], ys[i + 1], fs[i]) {
      if i < |es| {
        assert Step(xs[i], xs[i + 1], es[i]);
      }
    }
  }

  lemma Extend(xs: seq<System>, es: seq<Event>, y: System, e: Event, sv: seq<Server>, msgs: set<Msg>,
          told: set<Delivery>)
    requires Run(xs, es) && Step(xs[|es|], y, e)
    requires y.core.n == 3 == |sv| && y.servers == sv && msgs <= y.net && told <= y.delivered
    ensures Reaches(sv, msgs, told)
  {
    hide Step, Run;
    Longer(xs, es, y, e);
    assert Ends(xs + [y], es + [e], sv, msgs, told);
  }

  lemma DoTimeout(sv: seq<Server>, msgs: set<Msg>, told: set<Delivery>, s: int)
    requires Reaches(sv, msgs, told) && 0 <= s < |sv| && sv[s].role != Leader
    ensures var (d, a) := StartElection(sv[s]);
      Reaches(sv[s := d], msgs + set to | to in UpTo(3) - {s} :: VoteReqMsg(to, a), told)
  {
    hide SysInv, Campaign, StartElection, UpTo, Run, Reaches, Inv;
    var xs, es, x := RunTo(sv, msgs, told);
    ServerAt(x, s);
    var (d, a) := StartElection(sv[s]);
    var sent := set to | to in UpTo(3) - {s} :: VoteReqMsg(to, a);
    var y := x.(servers := x.servers[s := d], core := Campaign(x.core, s), net := x.net + sent);
    assert Timeout(x, y, s);
    StepGrows(x, y, ETimeout(s));
    Extend(xs, es, y, ETimeout(s), sv[s := d], msgs + sent, told);
  }

  lemma StepGrows(x: System, y: System, e: Event)
    requires SysInv(x) && Step(x, y, e)
    ensures y.core.n == x.core.n
  {
    StepKeeps(x, y, e);
  }

  lemma DoVoteReq(sv: seq<Server>, msgs: set<Msg>, told: set<Delivery>, s: int, a: VoteArgs)
    requires Reaches(sv, msgs, told) && 0 <= s < |sv| && VoteReqMsg(s, a) in msgs
    ensures var (d, r) := RequestVote(sv[s], a);
      Reaches(sv[s := d], msgs + {VoteRepMsg(s, a, r)}, told)
  {
    hide SysInv, Grant, HeardOf, RequestVote, Run, Reaches;
    var xs, es, x := RunTo(sv, msgs, told);
    var (d, r) := RequestVote(sv[s], a);
    var c := HeardOf(x.core, s, a.term);
    HeardIsHeard(x.core, s, a.term);
    var y := x.(servers := x.servers[s := d], core := if r.granted then Grant(c, s, a.candidate) else c,
                net := x.net + {VoteRepMsg(s, a, r)});
    assert OnVoteReq(x, y, s, a);
    StepGrows(x, y, EVoteReq(s, a));
    Extend(xs, es, y, EVoteReq(s, a), sv[s := d], msgs + {VoteRepMsg(s, a, r)}, told);
  }

  lemma DoVoteRep(sv: seq<Server>, msgs: set<Msg>, told: set<Delivery>, s: int, from: int, a: VoteArgs, r: VoteReply)
    requires Reaches(sv, msgs, told) && 0 <= s < |sv| && VoteRepMsg(from, a, r) in msgs && a.candidate == s
    requires from in sv[s].awaiting
    ensures Reaches(sv[s := HandleVoteReply(sv[s], from, a, r)], msgs, told)
  {
    hide SysInv, Elect, HeardOf, HandleVoteReply, Run, Reaches, Granted;
    var xs, es, x := RunTo(sv, msgs, told);
    var o, d := sv[s], HandleVoteReply(sv[s], from, a, r);
    var c := if o.term != a.term || o.role != Candidate then x.core
             else if d.role == Leader then Elect(x.core, s, Granted(x.core, s, o.term, d.awaiting))
             else HeardOf(x.core, s, r.term);
    var y := x.(servers := x.servers[s := d], core := c, net := x.net + {});
    assert OnVoteRep(x, y, s, from, a, r);
    StepGrows(x, y, EVoteRep(s, from, a, r));
    Extend(xs, es, y, EVoteRep(s, from, a, r), sv[s := d], msgs, told);
  }

  lemma DoClient(sv: seq<Server>, msgs: set<Msg>, told: set<Delivery>, s: int, command: Command)
    requires Reaches(sv, msgs, told) && 0 <= s < |sv| && sv[s].role == Leader
    ensures Reaches(sv[s := StartCommand(sv[s], command).0], msgs, told)
  {
    hide SysInv, StartCommand, Run, Reaches, Inv;
    var xs, es, x := RunTo(sv, msgs, told);
    ServerAt(x, s);
    var d := StartCommand(sv[s], command).0;
    var y := x.(servers := x.servers[s := d], core := Append(x.core, s, Entry(Some(command), sv[s].term)), net := x.net + {});
    assert Client(x, y, s, command);
    StepGrows(x, y, EClient(s, command));
    Extend(xs, es, y, EClient(s, command), sv[s := d], msgs, told);
  }

  lemma DoSend(sv: seq<Server>, msgs: set<Msg>, told: set<Delivery>, s: int, to: int)
    requires Reaches(sv, msgs, told) && 0 <= s < |sv| && 0 <= to < |sv| && to != s
    requires sv[s].role == Leader && to < |sv[s].next| && !NeedsSnapshot(sv[s], to) && Readable(sv[s], sv[s].next[to] - 1)
    ensures Reaches(sv, msgs + {AppendReqMsg(to, MakeAppendArgs(sv[s], to))}, told)
  {
    hide SysInv, MakeAppendArgs, Run, Reaches;
    var xs, es, x := RunTo(sv, msgs, told);
    var a := MakeAppendArgs(sv[s], to);
    var y := x.(servers := x.servers[s := sv[s]], net := x.net + {AppendReqMsg(to, a)});
    assert SendAppend(x, y, s, to);
    Extend(xs, es, y, ESendAppend(s, to), sv, msgs + {AppendReqMsg(to, a)}, told);
  }

  /** The leader sends, and the request is handled right away. */
  lemma DoAppend(sv: seq<Server>, msgs: set<Msg>, told: set<Delivery>, s: int, to: int)
    requires Reaches(sv, msgs, told) && 0 <= s < |sv| && 0 <= to < |sv| && to != s
    requires sv[s].role == Leader && to < |sv[s].next| && !NeedsSnapshot(sv[s], to)
    requires Readable(sv[s], sv[s].next[to] - 1)
    ensures var a := MakeAppendArgs(sv[s], to);
      var (d, r) := AppendEntries(sv[to], a);
      Reaches(sv[to := d], msgs + {AppendRepMsg(to, a, r)}, told)
  {
    hide MakeAppendArgs, Run, Reaches, AppendEntries;
    DoSend(sv, msgs, told, s, to);
    var a := MakeAppendArgs(sv[s], to);
    DoAppendReq(sv, msgs + {AppendReqMsg(to, a)}, told, to, a);
    var (d, r) := AppendEntries(sv[to], a);
    Forget(sv[to := d], msgs + {AppendReqMsg(to, a)} + {AppendRepMsg(to, a, r)}, msgs + {AppendRepMsg(to, a, r)}, told);
  }

  lemma Forget(sv: seq<Server>, msgs: set<Msg>, fewer: set<Msg>, told: set<Delivery>)
    requires Reaches(sv, msgs, told) && fewer <= msgs
    ensures Reaches(sv, fewer, told)
  {
    var xs, es :| Ends(xs, es, sv, msgs, told);
    assert Ends(xs, es, sv, fewer, told);
  }

  lemma DoAppendReq(sv: seq<Server>, msgs: set<Msg>, told: set<Delivery>, s: int, a: AppendArgs)
    requires Reaches(sv, msgs, told) && 0 <= s < |sv| && AppendReqMsg(s, a) in msgs
    ensures var (d, r) := AppendEntries(sv[s], a);
      Reaches(sv[s := d], msgs + {AppendRepMsg(s, a, r)}, told)
  {
    hide SysInv, AfterAppend, AppendEntries, Run, Reaches;
    var xs, es, x := RunTo(sv, msgs, told);
    var (d, r) := AppendEntries(sv[s], a);
    var y := x.(servers := x.servers[s := d], core := AfterAppend(x.core, s, a, r.success),
                net := x.net + {AppendRepMsg(s, a, r)});
    assert OnAppendReq(x, y, s, a);
    StepGrows(x, y, EAppendReq(s, a));
    Extend(xs, es, y, EAppendReq(s, a), sv[s := d], msgs + {AppendRepMsg(s, a, r)}, told);
  }

  lemma DoAppendRep(sv: seq<Server>, msgs: set<Msg>, told: set<Delivery>, s: int, from: int, a: AppendArgs,
          r: AppendReply)
    requires Reaches(sv, msgs, told) && 0 <= s < |sv| && AppendRepMsg(from, a, r) in msgs && a.leader == s
    requires 0 <= from < sv[s].n == |sv[s].next| == |sv[s].match_|
    ensures Reaches(sv[s := HandleAppendReply(sv[s], from, a, r)], msgs, told)
  {
    hide SysInv, HeardOf, HandleAppendReply, Run, Reaches;
    var xs, es, x := RunTo(sv, msgs, told);
    var d := HandleAppendReply(sv[s], from, a, r);
    var y := x.(servers := x.servers[s := d], core := HeardOf(x.core, s, r.term), net := x.net + {});
    assert OnAppendRep(x, y, s, from, a, r);
    StepGrows(x, y, EAppendRep(s, from, a, r));
    Extend(xs, es, y, EAppendRep(s, from, a, r), sv[s := d], msgs, told);
  }

  lemma DoDeliver(sv: seq<Server>, msgs: set<Msg>, told: set<Delivery>, s: int, k: int)
    requires Reaches(sv, msgs, told) && 0 <= s < |sv| && |sv[s].log| >= 1 && 0 <= k < |ApplierTake(sv[s]).1|
    ensures Reaches(sv[s := ApplierTake(sv[s]).0], msgs, told + {Delivery(s, ApplierTake(sv[s]).1[k])})
  {
    hide SysInv, ApplierTake, Run, Reaches, NewPosition;
    var xs, es, x := RunTo(sv, msgs, told);
    var (d, ms) := ApplierTake(sv[s]);
    var y := x.(servers := x.servers[s := d], position := x.position[s := NewPosition(ms, x.position[s])],
                delivered := x.delivered + set i | 0 <= i < |ms| :: Delivery(s, ms[i]));
    assert Deliver(x, y, s);
    Extend(xs, es, y, EDeliver(s), sv[s := d], msgs, told + {Delivery(s, ms[k])});
  }

  // ----- the chapters of the run

  /** A server that has neither compacted nor committed anything. */
  ghost predicate Plain(o: Server, me: int, term: int, log: Log) {
    && o.me == me && o.n == 3 && o.term == term && o.log == log && |log| >= 1 && log[0].term == 0
    && o.base == 0 == o.baseTerm && |o.next| == |o.match_| == 3
    && o.commit == o.applied == 0 && o.applying == None
  }

  ghost predicate Leading(o: Server, next: seq<int>, match_: seq<int>) {
    o.role == Leader && o.next == next && o.match_ == match_
  }

  lemma Wins(o: Server, me: int, term: int, log: Log, from: int)
    requires Plain(o, me, term, log) && 0 <= me < 3 && 0 <= from < 3 && from != me
    ensures var (c, a) := StartElection(o);
      && a == VoteArgs(term + 1, me, |log| - 1, log[|log| - 1].term) && from in c.awaiting
      && var d := HandleVoteReply(c, from, a, VoteReply(term + 1, true));
         Plain(d, me, term + 1, log) && Leading(d, seq(3, i => |log|), seq(3, i => if i == me then |log| - 1 else 0))
  {
  }

  lemma Votes(o: Server, me: int, term: int, log: Log, a: VoteArgs)
    requires Plain(o, me, term, log) && a.term > term
    ensures var (d, r) := RequestVote(o, a);
      && Plain(d, me, a.term, log) && d.role == Follower
      && ((a.lastTerm > log[|log| - 1].term || (a.lastTerm == log[|log| - 1].term && a.lastIndex >= |log| - 1)) ==>
          r == VoteReply(a.term, true))
  {
  }

  /** Server `i` wins an election with the vote of `v`. */
  lemma Elected(sv: seq<Server>, msgs: set<Msg>, told: set<Delivery>, i: int, v: int, term: int, older: int, log: Log,
          behind: Log)
    returns (now: seq<Server>, sent: set<Msg>, a: VoteArgs)
    requires Reaches(sv, msgs, told) && |sv| == 3 && 0 <= i < 3 && 0 <= v < 3 && v != i
    requires Plain(sv[i], i, term, log) && Plain(sv[v], v, older, behind) && older <= term
    requires sv[i].role != Leader && log != [] && behind != [] && UpToDate(log, behind)
    ensures Reaches(now, sent, told) && msgs <= sent && now == sv[i := now[i]][v := now[v]] && |now| == 3
    ensures a.term == term + 1 && forall h :: 0 <= h < 3 && h != i ==> VoteReqMsg(h, a) in sent
    ensures Plain(now[i], i, term + 1, log) && Plain(now[v], v, term + 1, behind) && now[v].role == Follower
    ensures Leading(now[i], seq(3, k => |log|), seq(3, k => if k == i then |log| - 1 else 0))
  {
    hide StartElection, RequestVote, HandleVoteReply, Reaches;
    var c := StartElection(sv[i]).0;
    a := StartElection(sv[i]).1;
    Wins(sv[i], i, term, log, v);
    Votes(sv[v], v, older, behind, a);
    DoTimeout(sv, msgs, told, i);
    var asked := msgs + set to | to in UpTo(3) - {i} :: VoteReqMsg(to, a);
    forall h | 0 <= h < 3 && h != i ensures VoteReqMsg(h, a) in asked {
      assert h in UpTo(3) - {i};
    }
    DoVoteReq(sv[i := c], asked, told, v, a);
    var (d, r) := RequestVote(sv[v], a);
    sent := asked + {VoteRepMsg(v, a, r)};
    DoVoteRep(sv[i := c][v := d], sent, told, i, v, a, r);
    now := sv[i := c][v := d][i := HandleVoteReply(c, v, a, r)];
  }

  /** Server `i` wins an election with the vote of `v`, and `h` hears of it. */
  lemma Election(sv: seq<Server>, msgs: set<Msg>, told: set<Delivery>, i: int, v: int, h: int, terms: seq<int>,
          logs: seq<Log>)
    returns (now: seq<Server>)
    requires Reaches(sv, msgs, told) && |sv| == |terms| == |logs| == 3 && {i, v, h} == {0, 1, 2}
    requires forall k :: 0 <= k < 3 ==> Plain(sv[k], k, terms[k], logs[k]) && terms[k] <= terms[i]
    requires sv[i].role != Leader && logs[i] != [] && logs[v] != [] && UpToDate(logs[i], logs[v])
    ensures Reaches(now, msgs, told) && |now| == 3
    ensures forall k :: 0 <= k < 3 ==> Plain(now[k], k, terms[i] + 1, logs[k]) && (k != i ==> now[k].role == Follower)
    ensures Leading(now[i], seq(3, k => |logs[i]|), seq(3, k => if k == i then |logs[i]| - 1 else 0))
  {
    hide RequestVote, Reaches;
    ThreeServers(i, v, h);
    var won, sent, a := Elected(sv, msgs, told, i, v, terms[i], terms[v], logs[i], logs[v]);
    Votes(sv[h], h, terms[h], logs[h], a);
    DoVoteReq(won, sent, told, h, a);
    var (d, r) := RequestVote(sv[h], a);
    now := won[h := d];
    Forget(now, sent + {VoteRepMsg(h, a, r)}, msgs, told);
  }

  lemma ThreeServers(i: int, v: int, h: int)
    requires {i, v, h} == {0, 1, 2}
    ensures i in {0, 1, 2} && v in {0, 1, 2} && h in {0, 1, 2} && i != v && v != h && h != i
  {
    assert i in {i, v, h} && v in {i, v, h} && h in {i, v, h};
    assert 0 in {i, v, h} && 1 in {i, v, h} && 2 in {i, v, h};
  }

  lemma Appended(o: Server, me: int, term: int, log: Log, next: seq<int>, match_: seq<int>, command: Command)
    requires Plain(o, me, term, log) && Leading(o, next, match_)
    ensures var d := StartCommand(o, command).0;
      Plain(d, me, term, log + [Entry(Some(command), term)]) && Leading(d, next, match_)
  {
  }

  // The entries of the run: the first four are lost, the last two end up at the same index.
  const A1: Entry := Entry(Some("a1"), 1)
  const A2: Entry := Entry(Some("a2"), 1)
  const A3: Entry := Entry(Some("a3"), 1)
  const A4: Entry := Entry(Some("a4"), 1)
  const LOST: Log := [A1, A2, A3, A4]
  const B: Entry := Entry(Some("b"), 2)
  const C: Entry := Entry(Some("c"), 5)
  const D: Entry := Entry(Some("d"), 6)

  /** The two replacements of the run: the lost entries for nothing, and `B` for the lost entries. */
  ghost predicate Overwrites(log: Log, behind: Log) {
    || (behind == [DUMMY] && log == [DUMMY] + LOST)
    || (behind == [DUMMY] + LOST && log == [DUMMY, B])
  }

  /** A leader that sends nothing but the place where its log ends is refused and goes back to 1. */
  lemma Refused(o: Server, l: int, f: Server, k: int, term: int, log: Log, behind: Log, next: seq<int>,
          match_: seq<int>)
    requires Plain(o, l, term, log) && Leading(o, next, match_) && Plain(f, k, term, behind) && f.role == Follower
    requires 0 <= k < 3 && next[k] == |log|
    requires Overwrites(log, behind)
    ensures !NeedsSnapshot(o, k) && Readable(o, next[k] - 1)
    ensures var a := MakeAppendArgs(o, k);
      var (d, r) := AppendEntries(f, a);
      && Plain(d, k, term, behind) && d.role == Follower && a.leader == l
      && var e := HandleAppendReply(o, k, a, r);
         Plain(e, l, term, log) && Leading(e, next[k := 1], match_)
  {
    var a := MakeAppendArgs(o, k);
    if behind != [DUMMY] {
      assert LogTerm(f, 1) == 1 && ScanBack(f, 0, 1) == 0 && ScanBack(f, 1, 1) == 0;
      assert LastOfTerm(log[..1][..0], 1) == -1 && LastOfTerm(log[..1], 1) == -1;
    }
  }

  /** From index 1 on it gets its log across. */
  lemma Overwritten(o: Server, l: int, f: Server, k: int, term: int, log: Log, behind: Log, next: seq<int>,
          match_: seq<int>)
    requires Plain(o, l, term, log) && Leading(o, next, match_) && Plain(f, k, term, behind) && f.role == Follower
    requires 0 <= k < 3 && next[k] == 1
    requires Overwrites(log, behind)
    ensures !NeedsSnapshot(o, k) && Readable(o, next[k] - 1)
    ensures var a := MakeAppendArgs(o, k);
      var (d, r) := AppendEntries(f, a);
      && Plain(d, k, term, log) && d.role == Follower
      && a == AppendArgs(term, l, 0, 0, log[1..], 0) && r == AppendReply(term, 0, 0, true)
  {
    assert log == [DUMMY] + log[1..];
    if behind == [DUMMY] {
      MergePastEnd(behind, log[1..]);
    } else {
      assert behind[..1] == [DUMMY];
    }
  }

  /** Leader `l` replaces the log of `f`; the reply is on its way. */
  lemma Replicate(sv: seq<Server>, msgs: set<Msg>, told: set<Delivery>, l: int, f: int, term: int, log: Log,
          behind: Log, next: seq<int>, match_: seq<int>)
    returns (now: seq<Server>, sent: set<Msg>)
    requires Reaches(sv, msgs, told) && |sv| == 3 && 0 <= l < 3 && 0 <= f < 3 && f != l
    requires Plain(sv[l], l, term, log) && Leading(sv[l], next, match_) && |next| == |match_| == 3 && next[f] == |log|
    requires Plain(sv[f], f, term, behind) && sv[f].role == Follower
    requires Overwrites(log, behind)
    ensures Reaches(now, sent, told) && |now| == 3 && msgs <= sent
    ensures AppendRepMsg(f, AppendArgs(term, l, 0, 0, log[1..], 0), AppendReply(term, 0, 0, true)) in sent
    ensures now == sv[l := now[l]][f := now[f]]
    ensures Plain(now[l], l, term, log) && Leading(now[l], next[f := 1], match_) && Plain(now[f], f, term, log)
    ensures now[f].role == Follower
  {
    hide MakeAppendArgs, AppendEntries, HandleAppendReply, Reaches, NeedsSnapshot, Readable;
    Refused(sv[l], l, sv[f], f, term, log, behind, next, match_);
    DoAppend(sv, msgs, told, l, f);
    var a := MakeAppendArgs(sv[l], f);
    var (d, r) := AppendEntries(sv[f], a);
    var s1, m1 := sv[f := d], msgs + {AppendRepMsg(f, a, r)};
    DoAppendRep(s1, m1, told, l, f, a, r);
    var e := HandleAppendReply(sv[l], f, a, r);
    var s2 := s1[l := e];
    Overwritten(e, l, d, f, term, log, behind, next[f := 1], match_);
    DoAppend(s2, m1, told, l, f);
    var b := MakeAppendArgs(e, f);
    var (g, q) := AppendEntries(d, b);
    now, sent := s2[f := g], m1 + {AppendRepMsg(f, b, q)};
  }

  lemma DoCommand(sv: seq<Server>, msgs: set<Msg>, told: set<Delivery>, l: int, term: int, log: Log, next: seq<int>,
          match_: seq<int>, command: Command)
    returns (now: seq<Server>)
    requires Reaches(sv, msgs, told) && 0 <= l < |sv| && Plain(sv[l], l, term, log) && Leading(sv[l], next, match_)
    ensures Reaches(now, msgs, told) && |now| == |sv| && now == sv[l := now[l]]
    ensures Plain(now[l], l, term, log + [Entry(Some(command), term)]) && Leading(now[l], next, match_)
  {
    hide StartCommand, Reaches;
    Appended(sv[l], l, term, log, next, match_, command);
    DoClient(sv, msgs, told, l, command);
    now := sv[l := StartCommand(sv[l], command).0];
  }

  /** The late reply: confirmed by server 1 in term 3, overwritten in term 4. */
  function LateArgs(): AppendArgs {
    AppendArgs(3, 0, 0, 0, LOST, 0)
  }

  function LateReply(): Msg {
    AppendRepMsg(1, LateArgs(), AppendReply(3, 0, 0, true))
  }

  lemma Start()
    ensures Reaches(seq(3, i => Make(i, 3, Disk(None, [DUMMY]))), {}, {})
    ensures forall k :: 0 <= k < 3 ==>
      Plain(Make(k, 3, Disk(None, [DUMMY])), k, 0, [DUMMY]) && Make(k, 3, Disk(None, [DUMMY])).role == Follower
  {
    var sv := seq(3, i => Make(i, 3, Disk(None, [DUMMY])));
    var c := Core(3, seq(3, i => Peer(0, NOBODY, [DUMMY], Follower)), map[], map[], map[], map[]);
    var x := System(sv, {}, c, seq(3, i => 0), {});
    assert x.servers == seq(x.core.n, i requires 0 <= i < x.core.n => Make(i, x.core.n, Disk(None, [DUMMY])));
    assert Init(x);
    assert Ends([x], [], sv, {}, {});
  }

  /** Server 0 leads in term 1 and takes four commands, server 2 leads in term 2 and takes one. */
  lemma FirstTerms() returns (now: seq<Server>)
    ensures Reaches(now, {}, {}) && |now| == 3
    ensures Plain(now[0], 0, 2, [DUMMY] + LOST) && now[0].role == Follower
    ensures Plain(now[1], 1, 2, [DUMMY]) && now[1].role == Follower
    ensures Plain(now[2], 2, 2, [DUMMY, B]) && now[2].role == Leader
  {
    hide Reaches, Make;
    Start();
    var sv := seq(3, i => Make(i, 3, Disk(None, [DUMMY])));
    sv := Election(sv, {}, {}, 0, 1, 2, [0, 0, 0], [[DUMMY], [DUMMY], [DUMMY]]);
    sv := DoCommand(sv, {}, {}, 0, 1, [DUMMY], sv[0].next, sv[0].match_, "a1");
    sv := DoCommand(sv, {}, {}, 0, 1, [DUMMY] + [A1], sv[0].next, sv[0].match_, "a2");
    sv := DoCommand(sv, {}, {}, 0, 1, [DUMMY] + [A1] + [A2], sv[0].next, sv[0].match_, "a3");
    sv := DoCommand(sv, {}, {}, 0, 1, [DUMMY] + [A1] + [A2] + [A3], sv[0].next, sv[0].match_, "a4");
    assert [DUMMY] + [A1] + [A2] + [A3] + [A4] == [DUMMY] + LOST;
    sv := Election(sv, {}, {}, 2, 1, 0, [1, 1, 1], [[DUMMY] + LOST, [DUMMY], [DUMMY]]);
    now := DoCommand(sv, {}, {}, 2, 2, [DUMMY], sv[2].next, sv[2].match_, "b");
    assert [DUMMY] + [B] == [DUMMY, B];
  }

  /** Server 0 leads again and gets its four entries to server 1, whose reply is late; server 2 leads
      in term 4 and overwrites both logs. */
  lemma MiddleTerms() returns (now: seq<Server>, msgs: set<Msg>)
    ensures Reaches(now, msgs, {}) && |now| == 3 && LateReply() in msgs
    ensures forall k :: 0 <= k < 3 ==> Plain(now[k], k, 4, [DUMMY, B])
    ensures now[0].role == now[1].role == Follower
  {
    hide Reaches;
    var lost := [DUMMY] + LOST;
    var sv := FirstTerms();
    sv := Election(sv, {}, {}, 0, 1, 2, [2, 2, 2], [lost, [DUMMY], [DUMMY, B]]);
    sv, msgs := Replicate(sv, {}, {}, 0, 1, 3, lost, [DUMMY], sv[0].next, sv[0].match_);
    assert lost[1..] == LOST;
    sv := Election(sv, msgs, {}, 2, 1, 0, [3, 3, 3], [lost, lost, [DUMMY, B]]);
    var one, more := Replicate(sv, msgs, {}, 2, 1, 4, [DUMMY, B], lost, sv[2].next, sv[2].match_);
    now, msgs := Replicate(one, more, {}, 2, 0, 4, [DUMMY, B], lost, one[2].next, one[2].match_);
  }

  /** Server 0 leads in term 5 and appends `c`; server 2 leads in term 6 and appends `d`. Server 0
      does not hear of that. */
  lemma LastTerms() returns (now: seq<Server>, msgs: set<Msg>)
    ensures Reaches(now, msgs, {}) && |now| == 3 && LateReply() in msgs
    ensures Plain(now[0], 0, 5, [DUMMY, B, C]) && Leading(now[0], [2, 2, 2], [1, 0, 0])
    ensures Plain(now[1], 1, 6, [DUMMY, B]) && now[1].role == Follower
    ensures Plain(now[2], 2, 6, [DUMMY, B, D]) && Leading(now[2], [2, 2, 2], [0, 0, 1])
  {
    hide Reaches;
    var sv, m := MiddleTerms();
    sv := Election(sv, m, {}, 0, 1, 2, [4, 4, 4], [[DUMMY, B], [DUMMY, B], [DUMMY, B]]);
    assert seq(3, k => 2) == [2, 2, 2];
    assert seq(3, k => if k == 0 then 1 else 0) == [1, 0, 0] && seq(3, k => if k == 2 then 1 else 0) == [0, 0, 1];
    sv := DoCommand(sv, m, {}, 0, 5, [DUMMY, B], [2, 2, 2], [1, 0, 0], "c");
    assert [DUMMY, B] + [C] == [DUMMY, B, C] && [DUMMY, B] + [D] == [DUMMY, B, D];
    var won, sent, a := Elected(sv, m, {}, 2, 1, 5, 5, [DUMMY, B], [DUMMY, B]);
    msgs := sent;
    now := DoCommand(won, msgs, {}, 2, 6, [DUMMY, B], [2, 2, 2], [0, 0, 1], "d");
  }

  /** One more copy, and the entry at index 2 counts as committed. */
  lemma CommitsTwo(o: Server, l: int, term: int, log: Log, next: seq<int>, match_: seq<int>, a: AppendArgs, e: Entry)
    requires Plain(o, l, term, log) && Leading(o, next, match_) && log == [DUMMY, B, e] && e.term == term && 0 <= l < 3
    requires l != 1
    requires match_[1] < 2 <= a.prevIndex + |a.entries| && a.term <= term
    ensures var d := HandleAppendReply(o, 1, a, AppendReply(a.term, 0, 0, true));
      && d.log == log && d.commit == 2 && d.base == 0 && d.role == Leader && d.term == term
      && 1 < |ApplierTake(d).1| && ApplierTake(d).1[1] == ApplyCommand(2, e.command)
  {
    var m := a.prevIndex + |a.entries|;
    var b := o.(match_ := match_[1 := m], next := next[1 := m + 1]);
    assert Holders(b, 2, 0) == 1 && Holders(b, 2, 1) >= 1 && Holders(b, 2, 2) >= 2 && Holders(b, 2, 3) >= 2;
    assert CommitFrom(b, 2) == 2;
    var d := HandleAppendReply(o, 1, a, AppendReply(a.term, 0, 0, true));
    assert d.commit == 2;
    assert log[1..3] == [B, e];
  }

  lemma GetsD(o: Server, f: Server)
    requires Plain(o, 2, 6, [DUMMY, B, D]) && Leading(o, [2, 2, 2], [0, 0, 1]) && Plain(f, 1, 6, [DUMMY, B])
    requires f.role == Follower
    ensures !NeedsSnapshot(o, 1) && Readable(o, 1)
    ensures var a := MakeAppendArgs(o, 1);
      a.leader == 2 && a.term == 6 && a.prevIndex == 1 && |a.entries| == 1 && AppendEntries(f, a).1 == AppendReply(6, 0, 0, true)
  {
  }
}
