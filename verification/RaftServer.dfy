/** One Raft server: what each section of code that runs under its lock does to its state. Slot 0 of `log`
    stands for everything up to `base`. Snapshot bytes are the log they summarise, at first `[DUMMY]`. */
module RaftServer {
  import opened Collections
  import opened Options
  import opened RaftLog
  import opened RaftCore

  /** What `persist` encodes. */
  datatype Image = Image(term: int, vote: int, log: Log, base: int, baseTerm: int)

  /** Stable storage: the encoded state, if any was ever saved, and the snapshot. */
  datatype Disk = Disk(raftState: Option<Image>, snapshot: Log)

  /** `awaiting` holds the servers whose answer to the current election's request has not been
      handled; `applying` is the index the applier is busy delivering up to. */
  datatype Server = Server(me: int, n: nat, term: int, vote: int, log: Log, base: int, baseTerm: int,
                           commit: int, applied: int, next: seq<int>, match_: seq<int>, role: Role,
                           votes: int, awaiting: set<int>, applying: Option<int>, disk: Disk)

  datatype VoteArgs = VoteArgs(term: int, candidate: int, lastIndex: int, lastTerm: int)
  datatype VoteReply = VoteReply(term: int, granted: bool)
  datatype AppendArgs = AppendArgs(term: int, leader: int, prevIndex: int, prevTerm: int, entries: seq<Entry>, commit: int)
  datatype AppendReply = AppendReply(term: int, conflictTerm: int, conflictIndex: int, success: bool)
  datatype InstallArgs = InstallArgs(term: int, leader: int, lastIndex: int, lastTerm: int, data: Log)

  // ----- helpers

  function LastIndex(s: Server): int {
    s.base + |s.log| - 1
  }

  function LastTerm(s: Server): int {
    if |s.log| == 0 then s.baseTerm else s.log[|s.log| - 1].term
  }

  /** The logical index lies in the physical log, so reading its term does not panic. */
  predicate Readable(s: Server, index: int) {
    index <= s.base || index - s.base < |s.log|
  }

  function LogTerm(s: Server, index: int): int
    requires Readable(s, index)
  {
    if index < s.base then -1
    else if index == s.base then s.baseTerm
    else s.log[index - s.base].term
  }

  function ImageOf(s: Server): Image {
    Image(s.term, s.vote, s.log, s.base, s.baseTerm)
  }

  function Persist(s: Server): Server {
    s.(disk := Disk(Some(ImageOf(s)), s.disk.snapshot))
  }

  /** Someone has a newer term: follow, without a vote. */
  function StepDown(s: Server, term: int): Server {
    s.(term := term, role := Follower, vote := NOBODY)
  }

  // ----- elections

  function StartElection(s: Server): (Server, VoteArgs) {
    var c := s.(role := Candidate, term := s.term + 1, vote := s.me, votes := 1,
                awaiting := UpTo(s.n) - {s.me});
    (Persist(c), VoteArgs(c.term, c.me, LastIndex(c), LastTerm(c)))
  }

  function RequestVote(s: Server, args: VoteArgs): (Server, VoteReply) {
    if args.term < s.term then (Persist(s), VoteReply(s.term, false))
    else
      var c := if args.term > s.term then StepDown(s, args.term) else s;
      var logOK := args.lastTerm > LastTerm(c) || (args.lastTerm == LastTerm(c) && args.lastIndex >= LastIndex(c));
      if (c.vote == NOBODY || c.vote == args.candidate) && logOK
      then (Persist(c.(vote := args.candidate)), VoteReply(c.term, true))
      else (Persist(c), VoteReply(c.term, false))
  }

  function BecomeLeader(s: Server): Server {
    var last := LastIndex(s);
    s.(role := Leader,
       next := seq(s.n, i => last + 1),
       match_ := seq(s.n, i => if i == s.me then last else s.base))
  }

  function HandleVoteReply(s: Server, from: int, args: VoteArgs, reply: VoteReply): Server {
    if s.term != args.term || s.role != Candidate then s
    else
      var c := s.(awaiting := s.awaiting - {from});
      if reply.term > c.term then Persist(StepDown(c, reply.term))
      else if !reply.granted then c
      else
        var d := c.(votes := c.votes + 1);
        if d.votes > d.n / 2 then BecomeLeader(d) else d
  }

  // ----- replication

  function StartCommand(s: Server, command: Command): (Server, Option<int>) {
    if s.role != Leader then (s, None)
    else (Persist(s.(log := s.log + [Entry(Some(command), s.term)])), Some(LastIndex(s) + 1))
  }

  /** The follower needs an entry that has been compacted away. */
  predicate NeedsSnapshot(s: Server, to: int)
    requires 0 <= to < |s.next|
  {
    s.next[to] - 1 < s.base
  }

  function MakeAppendArgs(s: Server, to: int): AppendArgs
    requires 0 <= to < |s.next| && !NeedsSnapshot(s, to) && Readable(s, s.next[to] - 1)
  {
    var prev := s.next[to] - 1;
    var entries := if LastIndex(s) > prev then s.log[prev + 1 - s.base..] else [];
    AppendArgs(s.term, s.me, prev, LogTerm(s, prev), entries, s.commit)
  }

  /** Scans back over the entries of the conflicting term, stopping at the snapshot. */
  function ScanBack(s: Server, index: int, term: int): int
    requires Readable(s, index)
    decreases index - s.base
  {
    if index > s.base && LogTerm(s, index) == term then ScanBack(s, index - 1, term) else index
  }

  function Min(a: int, b: int): int {
    if a < b then a else b
  }

  function AppendEntries(s: Server, args: AppendArgs): (Server, AppendReply) {
    if args.term < s.term then (Persist(s), AppendReply(s.term, 0, 0, false))
    else
      var b := if args.term > s.term then StepDown(s, args.term) else s;
      var c := if b.role == Candidate then b.(role := Follower) else b;
      if args.prevIndex < c.base then
        (Persist(c), AppendReply(c.term, -1, c.base + 1, false))
      else if args.prevIndex > LastIndex(c) then
        (Persist(c), AppendReply(c.term, -1, LastIndex(c) + 1, false))
      else if LogTerm(c, args.prevIndex) != args.prevTerm then
        var t := LogTerm(c, args.prevIndex);
        (Persist(c), AppendReply(c.term, t, ScanBack(c, args.prevIndex, t) + 1, false))
      else
        (Persist(Accepted(c, args)), AppendReply(c.term, 0, 0, true))
  }

  /** The request fits: its entries are merged in and the commit index follows the leader's. */
  function Accepted(s: Server, args: AppendArgs): Server
    requires s.base <= args.prevIndex <= LastIndex(s)
  {
    var d := s.(log := Merge(s.log, args.prevIndex + 1 - s.base, args.entries));
    if args.commit > d.commit then d.(commit := Min(args.commit, args.prevIndex + |args.entries|)) else d
  }

  /** The number of servers that hold entry `index`, the leader itself included. */
  function Holders(s: Server, index: int, k: nat): nat
    requires k <= |s.match_|
  {
    if k == 0 then 1
    else Holders(s, index, k - 1) + if k - 1 != s.me && s.match_[k - 1] >= index then 1 else 0
  }

  /** The commit rule, tried from `index` downwards. */
  function CommitFrom(s: Server, index: int): int
    requires |s.match_| >= s.n && index <= LastIndex(s)
    decreases index - s.commit
  {
    if index <= s.commit || index <= s.base then s.commit
    else if Holders(s, index, s.n) > s.n / 2 && LogTerm(s, index) == s.term then index
    else CommitFrom(s, index - 1)
  }

  function CheckCommit(s: Server): Server
    requires |s.match_| >= s.n
  {
    if s.role != Leader then s else s.(commit := CommitFrom(s, LastIndex(s)))
  }

  /** The last physical slot with an entry of `term`, or -1. */
  function LastOfTerm(log: Log, term: int): int {
    if log == [] then -1
    else if log[|log| - 1].term == term then |log| - 1
    else LastOfTerm(log[..|log| - 1], term)
  }

  function HandleAppendReply(s: Server, from: int, args: AppendArgs, reply: AppendReply): Server
    requires 0 <= from < s.n == |s.next| == |s.match_|
  {
    if reply.term > s.term then Persist(StepDown(s, reply.term))
    else if s.role != Leader then s
    else if reply.success then
      var m := args.prevIndex + |args.entries|;
      if m > s.match_[from] then CheckCommit(s.(match_ := s.match_[from := m], next := s.next[from := m + 1]))
      else s
    else
      var slot := LastOfTerm(s.log, reply.conflictTerm);
      s.(next := s.next[from := if reply.conflictTerm == -1 || slot == -1 then reply.conflictIndex else slot + s.base + 1])
  }

  // ----- snapshots

  function TakeSnapshot(s: Server, index: int, data: Log): Server
    requires |s.log| >= 1
  {
    if index <= s.base then s
    else
      Rebased(s, Min(index, LastIndex(s)), data)
  }

  /** The log cut at `index`, which slot 0 then stands for. */
  function Rebased(s: Server, index: int, data: Log): Server
    requires s.base <= index <= LastIndex(s)
  {
    var t := s.log[index - s.base].term;
    var c := s.(baseTerm := t, base := index, log := [Entry(None, t)] + s.log[index - s.base + 1..]);
    c.(disk := Disk(Some(ImageOf(c)), data))
  }

  function MakeInstallArgs(s: Server): InstallArgs {
    InstallArgs(s.term, s.me, s.base, s.baseTerm, s.disk.snapshot)
  }

  function InstallSnapshot(s: Server, args: InstallArgs): (Server, int) {
    if args.term < s.term then (s, s.term)
    else
      var b := if args.term > s.term then Persist(StepDown(s, args.term)) else s;
      var c := if b.role == Candidate then b.(role := Follower) else b;
      if args.lastIndex <= c.base then (c, c.term) else (Installed(c, args), c.term)
  }

  /** The server with the snapshot in place: entries after it are kept if the log has its last one. */
  function Installed(s: Server, args: InstallArgs): Server
    requires args.lastIndex > s.base
  {
    var hasEntry := args.lastIndex <= LastIndex(s) && LogTerm(s, args.lastIndex) == args.lastTerm;
    var rest := if hasEntry then s.log[args.lastIndex - s.base + 1..] else [];
    var d := s.(log := [Entry(None, args.lastTerm)] + rest,
                base := args.lastIndex, baseTerm := args.lastTerm,
                commit := if s.commit < args.lastIndex then args.lastIndex else s.commit);
    d.(disk := Disk(Some(ImageOf(d)), args.data))
  }

  function HandleInstallReply(s: Server, from: int, args: InstallArgs, term: int): Server
    requires 0 <= from < s.n == |s.next| == |s.match_|
  {
    if term > s.term then Persist(StepDown(s, term))
    else if s.role != Leader || s.term != args.term then s
    else
      var m := if s.match_[from] < args.lastIndex then s.match_[from := args.lastIndex] else s.match_;
      var x := if s.next[from] < args.lastIndex + 1 then s.next[from := args.lastIndex + 1] else s.next;
      CheckCommit(s.(match_ := m, next := x))
  }

  // ----- crash and restart

  function Make(me: int, n: nat, disk: Disk): Server {
    var s := Server(me, n, 0, NOBODY, [DUMMY], 0, 0, 0, 0, seq(n, i => 0), seq(n, i => 0), Follower, 0, {}, None, disk);
    var r := if disk.raftState.None? then s
             else var i := disk.raftState.value;
                  s.(term := i.term, vote := i.vote, log := i.log, base := i.base, baseTerm := i.baseTerm);
    if r.base > 0 then r.(applied := r.base, commit := r.base) else r
  }

  // ----- applying

  datatype ApplyMsg = ApplyCommand(index: int, command: Option<Command>) | ApplySnapshot(index: int, term: int, data: Log)

  /** The first half of the applier's round: what it takes to deliver. */
  function ApplierTake(s: Server): (Server, seq<ApplyMsg>)
    requires |s.log| >= 1
  {
    if s.applying.Some? || (s.applied >= s.commit && s.applied >= s.base) then (s, [])
    else if s.applied < s.base then
      (s.(applying := Some(s.base)), [ApplySnapshot(s.base, s.baseTerm, s.disk.snapshot)])
    else
      var first := if s.applied + 1 <= s.base then s.base + 1 else s.applied + 1;
      var start, end := first - s.base, s.commit - s.base + 1;
      var entries := if first <= s.commit && start < |s.log| && end <= |s.log| then s.log[start..end] else [];
      (s.(applying := Some(s.commit)),
       seq(|entries|, i requires 0 <= i < |entries| => ApplyCommand(first + i, entries[i].command)))
  }

  /** The second half: everything taken has been delivered. */
  function ApplierDone(s: Server): Server {
    if s.applying.None? then s
    else s.(applied := if s.applying.value > s.applied then s.applying.value else s.applied, applying := None)
  }
}
