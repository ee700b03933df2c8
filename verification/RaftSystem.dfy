/** A cluster of servers on a network that may lose, delay, reorder and repeat messages, with crashes
    and restarts. Sent messages stay in `net` for ever: losing one is never delivering it. */
module RaftSystem {
  import opened Collections
  import opened Options
  import opened RaftLog
  import opened RaftCore
  import opened RaftCoreSteps
  import opened RaftServer

  datatype Msg =
    | VoteReqMsg(to: int, voteArgs: VoteArgs)
    | VoteRepMsg(from: int, voteArgs: VoteArgs, voteReply: VoteReply)
    | AppendReqMsg(to: int, appendArgs: AppendArgs)
    | AppendRepMsg(from: int, appendArgs: AppendArgs, appendReply: AppendReply)
    | InstallReqMsg(to: int, installArgs: InstallArgs)
    | InstallRepMsg(from: int, installArgs: InstallArgs, installTerm: int)

  /** Something a server handed to its service. */
  datatype Delivery = Delivery(server: int, msg: ApplyMsg)

  /** `core` is the history; `position` is how far each service has been brought by its server since
      the server last started; `delivered` is everything ever handed to a service. */
  datatype System = System(servers: seq<Server>, net: set<Msg>, core: Core, position: seq<int>, delivered: set<Delivery>)

  // ----- a server as a peer with an uncompacted log

  function Full(s: Server): Log {
    if |s.log| >= 1 then s.disk.snapshot + s.log[1..] else s.disk.snapshot
  }

  function PeerOf(s: Server): Peer {
    Peer(s.term, s.vote, Full(s), s.role)
  }

  /** The persisted image decodes to the persistent state in memory. */
  ghost predicate Persisted(s: Server) {
    (if s.disk.raftState.Some? then s.disk.raftState.value else Image(0, NOBODY, [DUMMY], 0, 0)) == ImageOf(s)
  }

  /** The offset log is the full log cut at `base`; slot 0 carries the last included term. */
  ghost predicate ServerOk(s: Server, me: int, n: nat) {
    Shape(s, me, n) && Persisted(s)
  }

  ghost predicate Shape(s: Server, me: int, n: nat) {
    && s.me == me && s.n == n && 0 <= me < n && |s.next| == n && |s.match_| == n
    && |s.log| >= 1 && s.base >= 0 && |s.disk.snapshot| == s.base + 1
    && s.log[0].term == s.baseTerm == s.disk.snapshot[s.base].term
  }

  /** Terms, votes, roles and indexes do not matter to the shape of the log. */
  lemma SameLog(o: Server, d: Server, me: int, n: nat)
    requires Shape(o, me, n)
    requires d.me == o.me && d.n == o.n && |d.next| == |o.next| && |d.match_| == |o.match_|
    requires d.log == o.log && d.base == o.base && d.baseTerm == o.baseTerm && d.disk.snapshot == o.disk.snapshot
    ensures Shape(d, me, n) && Full(d) == Full(o) && LastIndex(d) == LastIndex(o) && LastTerm(d) == LastTerm(o)
  {
  }

  lemma FullFacts(s: Server, me: int, n: nat)
    requires Shape(s, me, n)
    ensures |Full(s)| == LastIndex(s) + 1 && |Full(s)| > s.base
    ensures Last(Full(s)).term == LastTerm(s)
    ensures forall i :: s.base <= i <= LastIndex(s) ==> Readable(s, i) && LogTerm(s, i) == Full(s)[i].term
    ensures Full(s)[..s.base + 1] == s.disk.snapshot
    ensures Full(s)[s.base + 1..] == s.log[1..]
  {
  }

  ghost function Granted(c: Core, s: int, t: int, awaiting: set<int>): set<int> {
    set v | v in UpTo(c.n) && v !in awaiting && (v, t) in c.votes && c.votes[(v, t)] == s
  }

  /** A candidate counts no more votes than it was given. */
  ghost predicate CountOk(c: Core, s: Server) {
    s.role == Candidate ==> s.votes <= |Granted(c, s.me, s.term, s.awaiting)| && s.me !in s.awaiting
  }

  ghost predicate ServerInv(x: System, s: int)
    requires 0 <= s < |x.servers| == |x.core.peers|
  {
    ServerOk(x.servers[s], s, x.core.n) && x.core.peers[s] == PeerOf(x.servers[s]) && CountOk(x.core, x.servers[s])
  }

  // ----- what messages say is true, and stays true

  ghost predicate VoteReqOk(c: Core, to: int, a: VoteArgs) {
    && to != a.candidate && 0 <= a.candidate < c.n && (a.candidate, a.term) in c.cands
    && var cand := c.cands[(a.candidate, a.term)];
       cand != [] && a.lastIndex == |cand| - 1 && a.lastTerm == Last(cand).term
  }

  ghost predicate AppendReqOk(c: Core, to: int, a: AppendArgs) {
    && a.term in c.leaders && c.leaders[a.term].owner == a.leader && to != a.leader
    && var l := c.leaders[a.term].log;
       && 0 <= a.prevIndex && a.prevIndex + |a.entries| < |l|
       && l[a.prevIndex].term == a.prevTerm
       && l[a.prevIndex + 1..a.prevIndex + 1 + |a.entries|] == a.entries
  }

  ghost predicate InstallReqOk(c: Core, to: int, a: InstallArgs) {
    && a.term in c.leaders && c.leaders[a.term].owner == a.leader && to != a.leader
    && 0 <= a.lastIndex && |a.data| == a.lastIndex + 1 && a.data <= c.leaders[a.term].log
    && a.lastTerm == a.data[a.lastIndex].term
  }

  ghost predicate MsgOk(c: Core, m: Msg) {
    match m
    case VoteReqMsg(to, a) => VoteReqOk(c, to, a)
    case VoteRepMsg(from, a, r) => r.granted ==>
      (from, a.term) in c.votes && c.votes[(from, a.term)] == a.candidate && 0 <= from < c.n
    case AppendReqMsg(to, a) => AppendReqOk(c, to, a)
    case AppendRepMsg(from, a, r) =>
      AppendReqOk(c, from, a) && (r.success ==> Acked(c, from, a.term, a.prevIndex + |a.entries|))
    case InstallReqMsg(to, a) => InstallReqOk(c, to, a)
    case InstallRepMsg(from, a, t) => true
  }

  lemma MsgGrows(c: Core, d: Core, m: Msg)
    requires Grows(c, d) && MsgOk(c, m)
    ensures MsgOk(d, m)
  {
    if m.AppendReqMsg? || m.AppendRepMsg? {
      var a := m.appendArgs;
      var l, k := c.leaders[a.term].log, d.leaders[a.term].log;
      assert l <= k;
      assert k[a.prevIndex + 1..a.prevIndex + 1 + |a.entries|] == l[a.prevIndex + 1..a.prevIndex + 1 + |a.entries|];
    }
  }

  ghost predicate NetOk(c: Core, net: set<Msg>) {
    forall m {:trigger MsgOk(c, m)} :: m in net ==> MsgOk(c, m)
  }

  /** The invariant of every run, whatever replies arrive when. */
  ghost predicate SysInv(x: System) {
    && Inv(x.core) && |x.servers| == x.core.n == |x.position|
    && (forall s {:trigger ServerInv(x, s)} :: 0 <= s < x.core.n ==> ServerInv(x, s))
    && NetOk(x.core, x.net)
  }

  // ----- the start

  ghost predicate Init(x: System) {
    && x.servers == seq(x.core.n, i requires 0 <= i < x.core.n => Make(i, x.core.n, Disk(None, [DUMMY])))
    && x.net == {} && x.delivered == {}
    && x.core == Core(x.core.n, seq(x.core.n, i => Peer(0, NOBODY, [DUMMY], Follower)), map[], map[], map[], map[])
    && x.position == seq(x.core.n, i => 0)
  }

  lemma InitInv(x: System)
    requires Init(x)
    ensures SysInv(x)
  {
    forall s | 0 <= s < x.core.n ensures PeerOk(x.core, s) && ServerInv(x, s) {
    }
  }

  // ----- the steps

  ghost predicate Has(x: System, s: int) {
    0 <= s < |x.servers| == |x.core.peers| == x.core.n == |x.position|
  }

  /** Server `s` ends in state `d`, the history in `c`, and `sent` goes out. */
  ghost predicate Moves(x: System, y: System, s: int, d: Server, c: Core, sent: set<Msg>)
    requires Has(x, s)
  {
    y == x.(servers := x.servers[s := d], core := c, net := x.net + sent)
  }

  /** The history when a server hears of a term in a vote request or in a reply. */
  ghost function HeardOf(c: Core, s: int, term: int): Core
    requires IsPeer(c, s)
  {
    if term > c.peers[s].term
    then c.(peers := c.peers[s := c.peers[s].(term := term, vote := NOBODY, role := Follower)])
    else c
  }

  /** The history when a server hears from the leader of a term that is not behind its own. */
  ghost function HeardLeader(c: Core, s: int, term: int): Core
    requires IsPeer(c, s)
  {
    var b := HeardOf(c, s, term);
    if term >= c.peers[s].term && b.peers[s].role == Candidate
    then b.(peers := b.peers[s := b.peers[s].(role := Follower)])
    else b
  }

  ghost predicate Timeout(x: System, y: System, s: int) {
    && Has(x, s) && x.servers[s].role != Leader
    && var (d, a) := StartElection(x.servers[s]);
       Moves(x, y, s, d, Campaign(x.core, s), set to | to in UpTo(x.core.n) - {s} :: VoteReqMsg(to, a))
  }

  ghost predicate OnVoteReq(x: System, y: System, s: int, a: VoteArgs) {
    && Has(x, s) && VoteReqMsg(s, a) in x.net
    && var (d, r) := RequestVote(x.servers[s], a);
       var c := HeardOf(x.core, s, a.term);
       Moves(x, y, s, d, if r.granted then Grant(c, s, a.candidate) else c, {VoteRepMsg(s, a, r)})
  }

  /** Each request of an election is answered at most once. */
  ghost predicate OnVoteRep(x: System, y: System, s: int, from: int, a: VoteArgs, r: VoteReply) {
    && Has(x, s) && VoteRepMsg(from, a, r) in x.net && a.candidate == s
    && var o := x.servers[s];
       var d := HandleVoteReply(o, from, a, r);
       && (o.term == a.term && o.role == Candidate ==> from in o.awaiting)
       && Moves(x, y, s, d,
                if o.term != a.term || o.role != Candidate then x.core
                else if d.role == Leader then Elect(x.core, s, Granted(x.core, s, o.term, d.awaiting))
                else HeardOf(x.core, s, r.term), {})
  }

  ghost predicate SendAppend(x: System, y: System, s: int, to: int) {
    && Has(x, s) && Has(x, to) && to != s
    && var o := x.servers[s];
       && o.role == Leader && to < |o.next| && !NeedsSnapshot(o, to)
       && Readable(o, o.next[to] - 1)
       && Moves(x, y, s, o, x.core, {AppendReqMsg(to, MakeAppendArgs(o, to))})
  }

  ghost function AfterAppend(c: Core, s: int, a: AppendArgs, success: bool): Core
    requires IsPeer(c, s)
  {
    var b := HeardLeader(c, s, a.term);
    var m := a.prevIndex + 1 + |a.entries|;
    if success && MayAdopt(b, s, m) then TakePrefix(b, s, m) else b
  }

  ghost predicate OnAppendReq(x: System, y: System, s: int, a: AppendArgs) {
    && Has(x, s) && AppendReqMsg(s, a) in x.net
    && var (d, r) := AppendEntries(x.servers[s], a);
       Moves(x, y, s, d, AfterAppend(x.core, s, a, r.success), {AppendRepMsg(s, a, r)})
  }

  ghost predicate OnAppendRep(x: System, y: System, s: int, from: int, a: AppendArgs, r: AppendReply) {
    && Has(x, s) && AppendRepMsg(from, a, r) in x.net && a.leader == s
    && var o := x.servers[s];
       && 0 <= from < o.n == |o.next| == |o.match_|
       && Moves(x, y, s, HandleAppendReply(o, from, a, r), HeardOf(x.core, s, r.term), {})
  }

  ghost predicate SendInstall(x: System, y: System, s: int, to: int) {
    && Has(x, s) && Has(x, to) && to != s && x.servers[s].role == Leader
    && Moves(x, y, s, x.servers[s], x.core, {InstallReqMsg(to, MakeInstallArgs(x.servers[s]))})
  }

  ghost function AfterInstall(c: Core, s: int, a: InstallArgs, installed: bool): Core
    requires IsPeer(c, s)
  {
    var b := HeardLeader(c, s, a.term);
    if installed && MayAdopt(b, s, a.lastIndex + 1) then TakePrefix(b, s, a.lastIndex + 1) else b
  }

  ghost predicate OnInstallReq(x: System, y: System, s: int, a: InstallArgs) {
    && Has(x, s) && InstallReqMsg(s, a) in x.net
    && var o := x.servers[s];
       var (d, t) := InstallSnapshot(o, a);
       Moves(x, y, s, d, AfterInstall(x.core, s, a, a.term >= o.term && a.lastIndex > o.base), {InstallRepMsg(s, a, t)})
  }

  ghost predicate OnInstallRep(x: System, y: System, s: int, from: int, a: InstallArgs, t: int) {
    && Has(x, s) && InstallRepMsg(from, a, t) in x.net && a.leader == s
    && var o := x.servers[s];
       && 0 <= from < o.n == |o.next| == |o.match_|
       && Moves(x, y, s, HandleInstallReply(o, from, a, t), HeardOf(x.core, s, t), {})
  }

  ghost predicate Client(x: System, y: System, s: int, command: Command) {
    && Has(x, s) && x.servers[s].role == Leader && x.servers[s].term in x.core.leaders && x.core.peers[s].term in x.core.leaders
    && var (d, i) := StartCommand(x.servers[s], command);
       Moves(x, y, s, d, Append(x.core, s, Entry(Some(command), x.servers[s].term)), {})
  }

  /** The service compacts what it has been given, which is committed as far as the server knows. */
  ghost predicate Compact(x: System, y: System, s: int, index: int) {
    && Has(x, s) && index <= x.servers[s].commit && |x.servers[s].log| >= 1
    && var o := x.servers[s];
       var i := Min(index, LastIndex(o));
       && (index > o.base ==> 0 <= i < |Full(o)|)
       && Moves(x, y, s, TakeSnapshot(o, index, if index > o.base then Full(o)[..i + 1] else []), x.core, {})
  }

  /** A crash loses everything but stable storage; the service restarts from the snapshot. */
  ghost predicate Restart(x: System, y: System, s: int) {
    && Has(x, s)
    && var d := Make(s, x.core.n, x.servers[s].disk);
       y == x.(servers := x.servers[s := d],
               core := x.core.(peers := x.core.peers[s := x.core.peers[s].(role := Follower)]),
               position := x.position[s := d.base])
  }

  function NewPosition(msgs: seq<ApplyMsg>, position: int): int {
    if msgs == [] then position else msgs[|msgs| - 1].index
  }

  ghost predicate Deliver(x: System, y: System, s: int) {
    && Has(x, s) && |x.servers[s].log| >= 1
    && var (d, msgs) := ApplierTake(x.servers[s]);
       y == x.(servers := x.servers[s := d],
               position := x.position[s := NewPosition(msgs, x.position[s])],
               delivered := x.delivered + set i | 0 <= i < |msgs| :: Delivery(s, msgs[i]))
  }

  ghost predicate Delivered(x: System, y: System, s: int) {
    Has(x, s) && Moves(x, y, s, ApplierDone(x.servers[s]), x.core, {})
  }
}
