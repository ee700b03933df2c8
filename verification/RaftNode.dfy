/** A Raft server as it runs: fields updated in place under the server's lock, with the loops of the
    program. Every method does to the fields exactly what the function of the same name in `RaftServer`
    does to the server's value; what is proved of those functions holds of it. */
module RaftNode {
  import opened Collections
  import opened Options
  import opened RaftLog
  import opened RaftCore
  import S = RaftServer
  import H = RaftHandlers

  /** Stable storage that outlives a server; a save replaces both parts at once. */
  class Persister {
    var raftState: Option<S.Image>
    var snapshot: Log

    constructor ()
      ensures Disk() == S.Disk(None, [DUMMY])
    {
      raftState, snapshot := None, [DUMMY];
    }

    function Disk(): S.Disk
      reads this
    {
      S.Disk(raftState, snapshot)
    }

    method Save(state: S.Image, data: Log)
      modifies this
      ensures Disk() == S.Disk(Some(state), data)
    {
      raftState, snapshot := Some(state), data;
    }

    method ReadRaftState() returns (state: Option<S.Image>)
      ensures state == Disk().raftState
    {
      state := raftState;
    }

    method ReadSnapshot() returns (data: Log)
      ensures data == Disk().snapshot
    {
      data := snapshot;
    }

    /** What a restarted server is given: the same contents, apart from the original from now on. */
    method Copy() returns (p: Persister)
      ensures fresh(p) && p.Disk() == Disk()
    {
      p := new Persister();
      p.raftState, p.snapshot := raftState, snapshot;
    }
  }

  class Raft {
    const me: int
    const peers: nat
    const persister: Persister

    var currentTerm: int
    var votedFor: int
    var log: Log
    var commitIndex: int
    var lastApplied: int
    var nextIndex: seq<int>
    var matchIndex: seq<int>
    var state: Role
    var lastIncludedIndex: int
    var lastIncludedTerm: int

    // Variables of the running election and of the applier, which outlive one lock-held section.
    var votesReceived: int
    var awaiting: set<int>
    var applying: Option<int>

    ghost function State(): S.Server
      reads this, persister
    {
      S.Server(me, peers, currentTerm, votedFor, log, lastIncludedIndex, lastIncludedTerm, commitIndex, lastApplied,
               nextIndex, matchIndex, state, votesReceived, awaiting, applying, persister.Disk())
    }

    /** One slot per server; slot 0 of the log stands for the snapshot and carries its last term. */
    ghost predicate Valid()
      reads this
    {
      0 <= me < peers == |nextIndex| == |matchIndex| && |log| >= 1 && log[0].term == lastIncludedTerm
    }

    function LastLogIndex(): int
      reads this
    {
      lastIncludedIndex + |log| - 1
    }

    function LastLogTerm(): int
      reads this
    {
      if |log| == 0 then lastIncludedTerm else log[|log| - 1].term
    }

    function LogTerm(index: int): int
      requires index <= lastIncludedIndex || index - lastIncludedIndex < |log|
      reads this
    {
      if index < lastIncludedIndex then -1
      else if index == lastIncludedIndex then lastIncludedTerm
      else log[index - lastIncludedIndex].term
    }

    function Image(): S.Image
      reads this
    {
      S.Image(currentTerm, votedFor, log, lastIncludedIndex, lastIncludedTerm)
    }

    method Persist()
      modifies persister
      ensures State() == S.Persist(old(State()))
    {
      var data := persister.ReadSnapshot();
      persister.Save(Image(), data);
    }

    method ReadPersist(data: Option<S.Image>)
      modifies this
      ensures data.None? ==> State() == old(State())
      ensures data.Some? ==>
        State() == old(State()).(term := data.value.term, vote := data.value.vote, log := data.value.log,
                                                      base := data.value.base, baseTerm := data.value.baseTerm)
    {
      if data.Some? {
        currentTerm, votedFor, log := data.value.term, data.value.vote, data.value.log;
        lastIncludedIndex, lastIncludedTerm := data.value.base, data.value.baseTerm;
      }
    }

    /** A server starts, or starts again from what its predecessor has saved. */
    constructor (me: int, peers: nat, persister: Persister)
      requires 0 <= me < peers
      requires persister.raftState.Some? ==>
                 var i := persister.raftState.value; |i.log| >= 1 && i.log[0].term == i.baseTerm
      ensures Valid() && this.persister == persister && State() == S.Make(me, peers, old(persister.Disk()))
    {
      this.me, this.peers, this.persister := me, peers, persister;
      currentTerm, votedFor, log := 0, NOBODY, [DUMMY];
      commitIndex, lastApplied := 0, 0;
      nextIndex, matchIndex := seq(peers, i => 0), seq(peers, i => 0);
      state, lastIncludedIndex, lastIncludedTerm := Follower, 0, 0;
      votesReceived, awaiting, applying := 0, {}, None;
      new;
      var saved := persister.ReadRaftState();
      ReadPersist(saved);
      if lastIncludedIndex > 0 {
        lastApplied := lastIncludedIndex;
        commitIndex := lastIncludedIndex;
      }
    }

    // ----- elections

    method StartElection() returns (args: S.VoteArgs)
      requires Valid()
      modifies this, persister
      ensures Valid() && (State(), args) == S.StartElection(old(State()))
    {
      hide UpTo;
      state := Candidate;
      currentTerm := currentTerm + 1;
      votedFor := me;
      votesReceived, awaiting := 1, UpTo(peers) - {me};
      Persist();
      args := S.VoteArgs(currentTerm, me, LastLogIndex(), LastLogTerm());
    }

    method StepDown(term: int)
      requires Valid()
      modifies this
      ensures Valid() && State() == S.StepDown(old(State()), term)
    {
      currentTerm := term;
      state := Follower;
      votedFor := NOBODY;
    }

    method RequestVote(args: S.VoteArgs) returns (reply: S.VoteReply)
      requires Valid()
      modifies this, persister
      ensures Valid() && (State(), reply) == S.RequestVote(old(State()), args)
    {
      if args.term < currentTerm {
        reply := S.VoteReply(currentTerm, false);
        Persist();
        return;
      }
      if args.term > currentTerm {
        StepDown(args.term);
      }
      var logOK := false;
      if args.lastTerm > LastLogTerm() {
        logOK := true;
      } else if args.lastTerm == LastLogTerm() && args.lastIndex >= LastLogIndex() {
        logOK := true;
      }
      var granted := (votedFor == NOBODY || votedFor == args.candidate) && logOK;
      if granted {
        votedFor := args.candidate;
      }
      reply := S.VoteReply(currentTerm, granted);
      Persist();
    }

    method BecomeLeader()
      requires Valid()
      modifies this
      ensures Valid() && State() == S.BecomeLeader(old(State()))
    {
      state := Leader;
      var last := LastLogIndex();
      var i := 0;
      while i < peers
        invariant 0 <= i <= peers && Valid()
        invariant forall k :: 0 <= k < i ==> nextIndex[k] == last + 1 && matchIndex[k] == lastIncludedIndex
        invariant State() == old(State()).(role := Leader, next := nextIndex, match_ := matchIndex)
      {
        nextIndex, matchIndex := nextIndex[i := last + 1], matchIndex[i := lastIncludedIndex];
        i := i + 1;
      }
      matchIndex := matchIndex[me := last];
      ghost var base := lastIncludedIndex;
      assert nextIndex == seq(peers, i => last + 1);
      assert matchIndex == seq(peers, i => if i == me then last else base);
    }

    method HandleVoteReply(from: int, args: S.VoteArgs, reply: S.VoteReply)
      requires Valid()
      modifies this, persister
      ensures Valid() && State() == S.HandleVoteReply(old(State()), from, args, reply)
    {
      if currentTerm != args.term || state != Candidate {
        return;
      }
      awaiting := awaiting - {from};
      if reply.term > currentTerm {
        StepDown(reply.term);
        Persist();
        return;
      }
      if reply.granted {
        votesReceived := votesReceived + 1;
        if state == Candidate && votesReceived > peers / 2 {
          BecomeLeader();
        }
      }
    }

    // ----- replication

    method Start(command: Command) returns (index: int, term: int, isLeader: bool)
      requires Valid()
      modifies this, persister
      ensures Valid() && State() == S.StartCommand(old(State()), command).0
      ensures isLeader == (old(state) == Leader)
      ensures S.StartCommand(old(State()), command).1 == (if isLeader then Some(index) else None)
      ensures isLeader ==> term == old(currentTerm)
      ensures !isLeader ==> index == term == -1
    {
      if state != Leader {
        return -1, -1, false;
      }
      index, term, isLeader := LastLogIndex() + 1, currentTerm, true;
      log := log + [Entry(Some(command), currentTerm)];
      Persist();
    }

    /** A round of the leader's broadcast for one server: nothing, a snapshot, or entries. */
    method MakeRequest(to: int) returns (install: Option<S.InstallArgs>, append: Option<S.AppendArgs>)
      requires Valid() && 0 <= to < peers && (state == Leader ==> S.Readable(State(), nextIndex[to] - 1))
      ensures state != Leader ==> install == None && append == None
      ensures state == Leader && S.NeedsSnapshot(State(), to) ==>
        install == Some(S.MakeInstallArgs(State())) && append == None
      ensures state == Leader && !S.NeedsSnapshot(State(), to) ==>
        install == None && append == Some(S.MakeAppendArgs(State(), to))
    {
      install, append := None, None;
      if state != Leader {
        return;
      }
      var prevLogIndex := nextIndex[to] - 1;
      if prevLogIndex < lastIncludedIndex {
        var data := persister.ReadSnapshot();
        install := Some(S.InstallArgs(currentTerm, me, lastIncludedIndex, lastIncludedTerm, data));
        return;
      }
      var prevLogTerm := LogTerm(prevLogIndex);
      var entries := [];
      if LastLogIndex() > prevLogIndex {
        var nextPhys := nextIndex[to] - lastIncludedIndex;
        if nextPhys < 1 {
          nextPhys := 1;
        }
        entries := log[nextPhys..];
      }
      append := Some(S.AppendArgs(currentTerm, me, prevLogIndex, prevLogTerm, entries, commitIndex));
    }

    /** Finds where the run of entries of the conflicting term begins. */
    method ScanBack(prevIndex: int, term: int) returns (index: int)
      requires Valid() && lastIncludedIndex <= prevIndex <= LastLogIndex()
      ensures index == S.ScanBack(State(), prevIndex, term)
    {
      index := prevIndex;
      while index > lastIncludedIndex && LogTerm(index) == term
        invariant lastIncludedIndex <= index <= prevIndex
        invariant S.ScanBack(State(), prevIndex, term) == S.ScanBack(State(), index, term)
      {
        index := index - 1;
      }
    }

    /** Takes over the entries that are missing; at the first conflict the rest of the log goes. */
    method MergeEntries(prevIndex: int, entries: seq<Entry>)
      requires Valid() && lastIncludedIndex <= prevIndex <= LastLogIndex()
      modifies `log
      ensures Valid()
      ensures log == Merge(old(log), prevIndex + 1 - lastIncludedIndex, entries)
    {
      var i := 0;
      while i < |entries|
        invariant 0 <= i <= |entries| && Valid() && prevIndex + i <= LastLogIndex()
        invariant Merge(log, prevIndex + 1 + i - lastIncludedIndex, entries[i..])
               == Merge(old(log), prevIndex + 1 - lastIncludedIndex, entries)
      {
        var index := prevIndex + 1 + i;
        if index <= LastLogIndex() {
          if LogTerm(index) != entries[i].term {
            log := log[..index - lastIncludedIndex];
            log := log + entries[i..];
            return;
          }
        } else {
          log := log + [entries[i]];
        }
        assert entries[i..][1..] == entries[i + 1..];
        i := i + 1;
      }
    }

    method Accept(args: S.AppendArgs)
      requires Valid() && lastIncludedIndex <= args.prevIndex <= LastLogIndex()
      modifies `log, `commitIndex
      ensures Valid() && State() == S.Accepted(old(State()), args)
    {
      MergeEntries(args.prevIndex, args.entries);
      if args.commit > commitIndex {
        var lastNewIndex := args.prevIndex + |args.entries|;
        if args.commit < lastNewIndex {
          commitIndex := args.commit;
        } else {
          commitIndex := lastNewIndex;
        }
      }
    }

    method AppendEntries(args: S.AppendArgs) returns (reply: S.AppendReply)
      requires Valid()
      modifies this, persister
      ensures Valid() && (State(), reply) == S.AppendEntries(old(State()), args)
    {
      hide S.Accepted;
      if args.term < currentTerm {
        reply := S.AppendReply(currentTerm, 0, 0, false);
        Persist();
        return;
      }
      if args.term > currentTerm {
        StepDown(args.term);
      }
      if state == Candidate {
        state := Follower;
      }
      if args.prevIndex < lastIncludedIndex {
        reply := S.AppendReply(currentTerm, -1, lastIncludedIndex + 1, false);
      } else if args.prevIndex > LastLogIndex() {
        reply := S.AppendReply(currentTerm, -1, LastLogIndex() + 1, false);
      } else if LogTerm(args.prevIndex) != args.prevTerm {
        var term := LogTerm(args.prevIndex);
        var index := ScanBack(args.prevIndex, term);
        reply := S.AppendReply(currentTerm, term, index + 1, false);
      } else {
        Accept(args);
        reply := S.AppendReply(currentTerm, 0, 0, true);
      }
      Persist();
    }

    method CountHolders(index: int) returns (count: nat)
      requires Valid()
      ensures count == S.Holders(State(), index, peers)
    {
      count := 1;
      var i := 0;
      while i < peers
        invariant 0 <= i <= peers
        invariant count == S.Holders(State(), index, i)
      {
        if i != me && matchIndex[i] >= index {
          count := count + 1;
        }
        i := i + 1;
      }
    }

    method CheckCommit()
      requires Valid()
      modifies this
      ensures Valid() && State() == S.CheckCommit(old(State()))
      ensures state == Leader ==> commitIndex == old(commitIndex) || H.MayCommit(old(State()), commitIndex)
      ensures state == Leader ==> forall k :: H.MayCommit(old(State()), k) ==> k <= commitIndex
    {
      hide H.MayCommit;
      H.CommitsTheLargest(State());
      if state != Leader {
        return;
      }
      var n := LastLogIndex();
      while n > commitIndex
        invariant Valid() && n <= LastLogIndex()
        invariant S.CommitFrom(State(), n) == S.CommitFrom(State(), LastLogIndex())
        invariant State() == old(State())
        decreases n - commitIndex
      {
        if n <= lastIncludedIndex {
          break;
        }
        var count := CountHolders(n);
        if count > peers / 2 && LogTerm(n) == currentTerm {
          commitIndex := n;
          return;
        }
        n := n - 1;
      }
    }

    /** The last physical slot with an entry of `term`, or -1. */
    method LastOfTerm(term: int) returns (last: int)
      ensures last == S.LastOfTerm(log, term)
    {
      last := -1;
      var i := |log| - 1;
      assert log[..i + 1] == log;
      while i >= 0
        invariant -1 <= i < |log| && last == -1
        invariant S.LastOfTerm(log, term) == S.LastOfTerm(log[..i + 1], term)
      {
        if log[i].term == term {
          return i;
        }
        assert log[..i + 1][..i] == log[..i];
        i := i - 1;
      }
    }

    method HandleAppendReply(from: int, args: S.AppendArgs, reply: S.AppendReply)
      requires Valid() && 0 <= from < peers
      modifies this, persister
      ensures Valid() && State() == S.HandleAppendReply(old(State()), from, args, reply)
    {
      if reply.term > currentTerm {
        StepDown(reply.term);
        Persist();
        return;
      }
      if state != Leader {
        return;
      }
      if reply.success {
        var newMatchIndex := args.prevIndex + |args.entries|;
        if newMatchIndex > matchIndex[from] {
          matchIndex := matchIndex[from := newMatchIndex];
          nextIndex := nextIndex[from := matchIndex[from] + 1];
          CheckCommit();
        }
      } else if reply.conflictTerm == -1 {
        nextIndex := nextIndex[from := reply.conflictIndex];
      } else {
        var last := LastOfTerm(reply.conflictTerm);
        if last != -1 {
          nextIndex := nextIndex[from := last + lastIncludedIndex + 1];
        } else {
          nextIndex := nextIndex[from := reply.conflictIndex];
        }
      }
    }

    // ----- snapshots

    method Snapshot(index: int, snapshot: Log)
      requires Valid()
      modifies this, persister
      ensures Valid() && State() == S.TakeSnapshot(old(State()), index, snapshot)
    {
      if index <= lastIncludedIndex {
        return;
      }
      var last := index;
      if last > LastLogIndex() {
        last := LastLogIndex();
      }
      var cutoffOffset := last - lastIncludedIndex;
      lastIncludedTerm := log[cutoffOffset].term;
      lastIncludedIndex := last;
      var newLog := [Entry(None, lastIncludedTerm)];
      if cutoffOffset + 1 < |log| {
        newLog := newLog + log[cutoffOffset + 1..];
      }
      assert newLog == [Entry(None, lastIncludedTerm)] + log[cutoffOffset + 1..];
      log := newLog;
      persister.Save(Image(), snapshot);
    }

    method InstallSnapshot(args: S.InstallArgs) returns (term: int)
      requires Valid()
      modifies this, persister
      ensures Valid() && (State(), term) == S.InstallSnapshot(old(State()), args)
    {
      term := currentTerm;
      if args.term < currentTerm {
        return;
      }
      if args.term > currentTerm {
        StepDown(args.term);
        Persist();
      }
      term := currentTerm;
      if state == Candidate {
        state := Follower;
      }
      if args.lastIndex <= lastIncludedIndex {
        return;
      }
      PutSnapshot(args);
    }

    method PutSnapshot(args: S.InstallArgs)
      requires Valid() && args.lastIndex > lastIncludedIndex
      modifies this, persister
      ensures Valid() && State() == S.Installed(old(State()), args)
    {
      var hasEntry := false;
      if args.lastIndex <= LastLogIndex() {
        if LogTerm(args.lastIndex) == args.lastTerm {
          hasEntry := true;
        }
      }
      if hasEntry {
        var physicalOffset := args.lastIndex - lastIncludedIndex;
        var newLog := [Entry(None, args.lastTerm)];
        if physicalOffset + 1 < |log| {
          newLog := newLog + log[physicalOffset + 1..];
        }
        assert newLog == [Entry(None, args.lastTerm)] + log[physicalOffset + 1..];
        log := newLog;
      } else {
        log := [Entry(None, args.lastTerm)];
        assert log == log + [];
      }
      lastIncludedIndex := args.lastIndex;
      lastIncludedTerm := args.lastTerm;
      if commitIndex < args.lastIndex {
        commitIndex := args.lastIndex;
      }
      persister.Save(Image(), args.data);
    }

    method HandleInstallReply(from: int, args: S.InstallArgs, term: int)
      requires Valid() && 0 <= from < peers
      modifies this, persister
      ensures Valid() && State() == S.HandleInstallReply(old(State()), from, args, term)
    {
      if term > currentTerm {
        StepDown(term);
        Persist();
        return;
      }
      if state != Leader || currentTerm != args.term {
        return;
      }
      if matchIndex[from] < args.lastIndex {
        matchIndex := matchIndex[from := args.lastIndex];
      }
      if nextIndex[from] < args.lastIndex + 1 {
        nextIndex := nextIndex[from := args.lastIndex + 1];
      }
      CheckCommit();
    }

    // ----- applying

    /** The applier's round up to where it lets go of the lock to hand over what it took. */
    method ApplierTake() returns (msgs: seq<S.ApplyMsg>)
      requires Valid()
      modifies this
      ensures Valid() && (State(), msgs) == S.ApplierTake(old(State()))
    {
      msgs := [];
      if applying.Some? || (lastApplied >= commitIndex && lastApplied >= lastIncludedIndex) {
        return;
      }
      if lastApplied < lastIncludedIndex {
        var data := persister.ReadSnapshot();
        msgs := [S.ApplySnapshot(lastIncludedIndex, lastIncludedTerm, data)];
        applying := Some(lastIncludedIndex);
        return;
      }
      var firstIndex, lastIndex := lastApplied + 1, commitIndex;
      if firstIndex <= lastIncludedIndex {
        firstIndex := lastIncludedIndex + 1;
      }
      var entries := [];
      if firstIndex <= lastIndex {
        var start, end := firstIndex - lastIncludedIndex, lastIndex - lastIncludedIndex + 1;
        if start < |log| && end <= |log| {
          entries := log[start..end];
        }
      }
      applying := Some(lastIndex);
      var i := 0;
      while i < |entries|
        invariant 0 <= i <= |entries|
        invariant msgs == seq(i, k requires 0 <= k < i => S.ApplyCommand(firstIndex + k, entries[k].command))
      {
        msgs := msgs + [S.ApplyCommand(firstIndex + i, entries[i].command)];
        i := i + 1;
      }
    }

    method ApplierDone()
      requires Valid()
      modifies this
      ensures Valid() && State() == S.ApplierDone(old(State()))
    {
      if applying.Some? {
        if applying.value > lastApplied {
          lastApplied := applying.value;
        }
        applying := None;
      }
    }
  }
}
