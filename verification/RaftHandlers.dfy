/** What a server makes of each request, reply and election, said of its fields and of the message
    alone: exactly when it votes, leads, accepts and commits, and what it answers. */
module RaftHandlers {
  import opened Options
  import opened RaftLog
  import opened RaftCore
  import opened RaftServer
  import opened RaftCommit
  import opened RaftCommitSteps

  function Newer(a: int, b: int): int {
    if a < b then b else a
  }

  /** The term of the entry at a logical index that the log has. */
  function TermAt(o: Server, index: int): int
    requires o.base <= index < o.base + |o.log|
  {
    if index == o.base then o.baseTerm else o.log[index - o.base].term
  }

  // ----- the commit rule

  /** The leader itself and the servers it believes to hold entry `k`. */
  ghost function Copies(o: Server, k: int): set<int>
    requires |o.match_| == o.n
  {
    set i | 0 <= i < o.n && (i == o.me || o.match_[i] >= k)
  }

  /** Entry `k` is newer than what is committed, of the leader's own term, and on a majority. */
  ghost predicate MayCommit(o: Server, k: int)
    requires |o.match_| == o.n
  {
    && o.commit < k && o.base < k < o.base + |o.log|
    && o.log[k - o.base].term == o.term && 2 * |Copies(o, k)| > o.n
  }

  lemma HoldersAreCopies(o: Server, k: int)
    requires |o.match_| == o.n && 0 <= o.me < o.n
    ensures Holders(o, k, o.n) == |Copies(o, k)|
  {
    assert HoldersSet(o, k, o.n) == Copies(o, k);
  }

  lemma {:induction false} LargestUpTo(o: Server, index: int)
    requires |o.match_| == o.n && 0 <= o.me < o.n && index <= LastIndex(o)
    ensures var c := CommitFrom(o, index); c == o.commit || MayCommit(o, c)
    ensures forall k :: MayCommit(o, k) && k <= index ==> k <= CommitFrom(o, index)
    decreases index - o.commit
  {
    hide Copies, Holders;
    if index > o.commit && index > o.base {
      HoldersAreCopies(o, index);
      if !(Holders(o, index, o.n) > o.n / 2 && LogTerm(o, index) == o.term) {
        LargestUpTo(o, index - 1);
      }
    }
  }

  /** A leader commits the largest index it may commit, and nothing if there is none. */
  lemma CommitsTheLargest(o: Server)
    requires |o.match_| == o.n && 0 <= o.me < o.n
    ensures var d := CheckCommit(o);
      && d == o.(commit := d.commit)
      && (o.role != Leader ==> d.commit == o.commit)
      && (o.role == Leader ==>
            && (d.commit == o.commit || MayCommit(o, d.commit))
            && forall k :: MayCommit(o, k) ==> k <= d.commit)
  {
    LargestUpTo(o, LastIndex(o));
    hide MayCommit, CommitFrom;
    assert forall k {:trigger MayCommit(o, k)} :: MayCommit(o, k) ==> k <= LastIndex(o) by {
      CommitBelowEnd(o);
    }
  }

  lemma CommitBelowEnd(o: Server)
    requires |o.match_| == o.n
    ensures forall k :: MayCommit(o, k) ==> k <= LastIndex(o)
  {
  }

  // ----- elections

  /** What stable storage holds once the lock is released. */
  function Saved(o: Server): Disk {
    Disk(Some(Image(o.term, o.vote, o.log, o.base, o.baseTerm)), o.disk.snapshot)
  }

  /** A server that starts an election votes for itself in the next term and asks all the others. */
  lemma CampaignExactly(o: Server)
    requires |o.log| >= 1
    ensures var (d, a) := StartElection(o);
      && d == o.(term := o.term + 1, vote := o.me, role := Candidate, votes := 1, awaiting := d.awaiting, disk := Saved(d))
      && (forall i :: i in d.awaiting <==> 0 <= i < o.n && i != o.me)
      && a == VoteArgs(o.term + 1, o.me, o.base + |o.log| - 1, o.log[|o.log| - 1].term)
  {
  }

  /** A vote is granted if and only if the term is not old, no one else has the vote in it, and the
      candidate's log is at least as up to date; the answer carries the server's term. */
  lemma VoteExactly(o: Server, a: VoteArgs)
    requires |o.log| >= 1
    ensures var (d, r) := RequestVote(o, a);
      var lastIndex, lastTerm := o.base + |o.log| - 1, o.log[|o.log| - 1].term;
      && (r.granted <==>
            && a.term >= o.term && (a.term > o.term || o.vote == -1 || o.vote == a.candidate)
            && (a.lastTerm > lastTerm || (a.lastTerm == lastTerm && a.lastIndex >= lastIndex)))
      && r.term == d.term == Newer(o.term, a.term)
      && d.vote == (if r.granted then a.candidate else if a.term > o.term then -1 else o.vote)
      && d.role == (if a.term > o.term then Follower else o.role)
      && d == o.(term := d.term, vote := d.vote, role := d.role, disk := Saved(d))
  {
  }

  /** A candidate becomes leader if and only if the answer is a vote and makes its votes a majority; then
      it starts from the end of its log for everyone. */
  lemma LeadsExactly(o: Server, from: int, a: VoteArgs, r: VoteReply)
    requires 0 <= o.me < o.n
    ensures var d := HandleVoteReply(o, from, a, r);
      && (o.role != Candidate || o.term != a.term ==> d == o)
      && (o.role == Candidate && o.term == a.term && r.term > o.term ==>
            d == o.(term := r.term, vote := -1, role := Follower, awaiting := o.awaiting - {from}, disk := Saved(d)))
      && (o.role == Candidate && o.term == a.term && r.term <= o.term ==>
            && (d.role == Leader <==> r.granted && 2 * (o.votes + 1) > o.n)
            && (d.role != Leader ==>
                  d == o.(votes := o.votes + (if r.granted then 1 else 0), awaiting := o.awaiting - {from}))
            && (d.role == Leader ==>
                  && d == o.(role := Leader, votes := o.votes + 1, awaiting := o.awaiting - {from},
                             next := d.next, match_ := d.match_)
                  && |d.next| == |d.match_| == o.n
                  && forall i :: 0 <= i < o.n ==>
                       && d.next[i] == o.base + |o.log|
                       && d.match_[i] == if i == o.me then o.base + |o.log| - 1 else o.base))
  {
  }

  // ----- entries

  /** Position `m` is the first whose entry the log lacks or has with another term. */
  ghost predicate FirstMissing(log: Log, k: nat, entries: seq<Entry>, m: nat) {
    && m <= |entries| && k + m <= |log|
    && (forall j :: 0 <= j < m ==> log[k + j].term == entries[j].term)
    && (m < |entries| && k + m < |log| ==> log[k + m].term != entries[m].term)
  }

  /** Merging keeps the log if it has all the entries; else it cuts the log at the first that is missing
      and puts in the entries from there on. */
  lemma {:induction false} MergeExactly(log: Log, k: nat, entries: seq<Entry>) returns (m: nat)
    requires k <= |log|
    ensures FirstMissing(log, k, entries, m)
    ensures Merge(log, k, entries) == if m == |entries| then log else log[..k + m] + entries[m..]
    decreases |entries|
  {
    if entries == [] {
      m := 0;
    } else if k < |log| {
      if log[k].term != entries[0].term {
        m := 0;
        assert entries[0..] == entries;
      } else {
        var rest := MergeExactly(log, k + 1, entries[1..]);
        m := rest + 1;
        forall j | 0 <= j < m ensures log[k + j].term == entries[j].term {
          if j > 0 {
            assert log[k + 1 + (j - 1)].term == entries[1..][j - 1].term;
          }
        }
        assert entries[1..][rest..] == entries[m..];
      }
    } else {
      m := 0;
      MergePastEnd(log, entries);
      assert log[..k] == log && entries[0..] == entries;
    }
  }

  /** A request is accepted if and only if its term is not old and the log has its previous entry; the
      answer carries the server's term. */
  lemma AcceptsExactly(o: Server, a: AppendArgs)
    requires |o.log| >= 1
    ensures var (d, r) := AppendEntries(o, a);
      && (r.success <==>
            && a.term >= o.term && o.base <= a.prevIndex < o.base + |o.log| && TermAt(o, a.prevIndex) == a.prevTerm)
      && r.term == d.term == Newer(o.term, a.term)
      && d.role == (if a.term > o.term || (a.term == o.term && o.role == Candidate) then Follower else o.role)
      && d.vote == (if a.term > o.term then -1 else o.vote)
      && d.log == (if r.success then Merge(o.log, a.prevIndex + 1 - o.base, a.entries) else o.log)
      && d.commit == (if r.success && a.commit > o.commit
                      then (if a.commit < a.prevIndex + |a.entries| then a.commit else a.prevIndex + |a.entries|)
                      else o.commit)
      && d == o.(term := d.term, role := d.role, vote := d.vote, log := d.log, commit := d.commit, disk := Saved(d))
  {
    hide Merge, ScanBack;
  }

  lemma {:induction false} RunBegins(o: Server, index: int, term: int)
    requires |o.log| >= 1 && o.base <= index < o.base + |o.log|
    ensures var c := ScanBack(o, index, term);
      && o.base <= c <= index && (c > o.base ==> TermAt(o, c) != term)
      && forall k :: c < k <= index ==> TermAt(o, k) == term
    decreases index - o.base
  {
    if index > o.base && LogTerm(o, index) == term {
      RunBegins(o, index - 1, term);
    }
  }

  /** A refusal says how far the log reaches if the previous entry is not there, and otherwise its term
      and the first index after the snapshot of the run of entries of that term. */
  lemma RefusesExactly(o: Server, a: AppendArgs)
    requires |o.log| >= 1 && !AppendEntries(o, a).1.success
    ensures var r := AppendEntries(o, a).1;
      && (a.term < o.term ==> r.conflictTerm == r.conflictIndex == 0)
      && (a.term >= o.term && a.prevIndex < o.base ==> r.conflictTerm == -1 && r.conflictIndex == o.base + 1)
      && (a.term >= o.term && a.prevIndex >= o.base + |o.log| ==>
            r.conflictTerm == -1 && r.conflictIndex == o.base + |o.log|)
      && (a.term >= o.term && o.base <= a.prevIndex < o.base + |o.log| ==>
            var c := r.conflictIndex;
            && r.conflictTerm == TermAt(o, a.prevIndex) && o.base < c <= a.prevIndex + 1
            && (c - 1 > o.base ==> TermAt(o, c - 1) != r.conflictTerm)
            && forall k :: c <= k <= a.prevIndex ==> TermAt(o, k) == r.conflictTerm)
  {
    if a.term >= o.term && o.base <= a.prevIndex < o.base + |o.log| {
      var b := if a.term > o.term then StepDown(o, a.term) else o;
      var t := TermAt(o, a.prevIndex);
      RunBegins(o, a.prevIndex, t);
      ScanBackSame(o, b, a.prevIndex, t);
      ScanBackSame(o, b.(role := Follower), a.prevIndex, t);
    }
    hide ScanBack;
  }

  lemma {:induction false} LastSlot(log: Log, term: int)
    ensures var s := LastOfTerm(log, term);
      && -1 <= s < |log| && (s >= 0 ==> log[s].term == term)
      && forall t :: s < t < |log| ==> log[t].term != term
  {
    if log != [] && log[|log| - 1].term != term {
      LastSlot(log[..|log| - 1], term);
    }
  }

  /** A leader believes a newer success and then commits what it may; after a refusal it goes to just
      behind its last entry of the conflicting term, or to where the follower says. */
  lemma ReplyExactly(o: Server, from: int, a: AppendArgs, r: AppendReply)
    requires 0 <= from < o.n == |o.next| == |o.match_|
    ensures var d := HandleAppendReply(o, from, a, r);
      var m := a.prevIndex + |a.entries|;
      && (r.term > o.term ==> d == o.(term := r.term, role := Follower, vote := -1, disk := Saved(d)))
      && (r.term <= o.term && (o.role != Leader || (r.success && m <= o.match_[from])) ==> d == o)
      && (r.term <= o.term && o.role == Leader && r.success && m > o.match_[from] ==>
            d == CheckCommit(o.(match_ := o.match_[from := m], next := o.next[from := m + 1])))
      && (r.term <= o.term && o.role == Leader && !r.success ==>
            && |d.next| == o.n && d == o.(next := o.next[from := d.next[from]])
            && (if r.conflictTerm == -1 || forall e :: e in o.log ==> e.term != r.conflictTerm
                then d.next[from] == r.conflictIndex
                else exists s :: 0 <= s < |o.log| && o.log[s].term == r.conflictTerm
                       && d.next[from] == o.base + s + 1
                       && forall t :: s < t < |o.log| ==> o.log[t].term != r.conflictTerm))
  {
    hide CheckCommit, LastOfTerm;
    LastSlot(o.log, r.conflictTerm);
  }

  // ----- snapshots

  /** The answer to a snapshot carries the server's term; a newer snapshot raises the commit index. */
  lemma InstallsExactly(o: Server, a: InstallArgs)
    requires |o.log| >= 1
    ensures var (d, t) := InstallSnapshot(o, a);
      && t == d.term == Newer(o.term, a.term)
      && d.role == (if a.term > o.term || (a.term == o.term && o.role == Candidate) then Follower else o.role)
      && d.vote == (if a.term > o.term then -1 else o.vote)
      && (a.term < o.term ==> d == o)
      && (a.term >= o.term && a.lastIndex <= o.base ==> d.base == o.base && d.log == o.log && d.commit == o.commit)
      && (a.term >= o.term && a.lastIndex > o.base ==>
            && d.base == a.lastIndex && d.baseTerm == a.lastTerm && d.disk == Disk(Saved(d).raftState, a.data)
            && d.commit == Newer(o.commit, a.lastIndex)
            && |d.log| >= 1 && d.log[0].term == a.lastTerm
            && d.log[1..] == if a.lastIndex < o.base + |o.log| && TermAt(o, a.lastIndex) == a.lastTerm
                             then o.log[a.lastIndex - o.base + 1..] else [])
  {
  }

  /** A leader that hears of an installed snapshot in its term raises what it believes of the follower
      and then commits what it may. */
  lemma InstallReplyExactly(o: Server, from: int, a: InstallArgs, t: int)
    requires 0 <= from < o.n == |o.next| == |o.match_|
    ensures var d := HandleInstallReply(o, from, a, t);
      && (t > o.term ==> d == o.(term := t, role := Follower, vote := -1, disk := Saved(d)))
      && (t <= o.term && (o.role != Leader || o.term != a.term) ==> d == o)
      && (t <= o.term && o.role == Leader && o.term == a.term ==>
            d == CheckCommit(o.(match_ := o.match_[from := Newer(o.match_[from], a.lastIndex)],
                                next := o.next[from := Newer(o.next[from], a.lastIndex + 1)])))
  {
    hide CheckCommit;
    assert o.match_[from := o.match_[from]] == o.match_ && o.next[from := o.next[from]] == o.next;
  }

  // ----- requests, compaction, restart and applying

  /** A request carries every entry from the follower's next one to the end of the leader's log. */
  lemma SendsExactly(o: Server, to: int)
    requires 0 <= to < |o.next| && o.base < o.next[to] <= o.base + |o.log|
    ensures var a := MakeAppendArgs(o, to);
      && a.term == o.term && a.leader == o.me && a.commit == o.commit
      && a.prevIndex == o.next[to] - 1 && a.prevTerm == TermAt(o, a.prevIndex)
      && a.prevIndex + |a.entries| == o.base + |o.log| - 1
      && forall k :: 0 <= k < |a.entries| ==> a.entries[k] == o.log[o.next[to] + k - o.base]
  {
  }

  /** Compaction ends at the index asked for, or at the end of the log, and never goes back: every later
      entry keeps its index, the last one compacted leaves its term, and the data are stored with it. */
  lemma CompactsExactly(o: Server, index: int, data: Log)
    requires |o.log| >= 1 && o.log[0].term == o.baseTerm
    ensures var d := TakeSnapshot(o, index, data);
      && (index <= o.base ==> d == o)
      && (index > o.base ==>
            && d == o.(base := d.base, baseTerm := d.baseTerm, log := d.log, disk := Disk(Saved(d).raftState, data))
            && (d.base == index || (d.base == o.base + |o.log| - 1 && d.base < index))
            && d.base + |d.log| == o.base + |o.log| && |d.log| >= 1
            && d.baseTerm == d.log[0].term == TermAt(o, d.base) && d.log[0].command == None
            && forall k :: 0 < k < |d.log| ==> d.log[k] == o.log[k + d.base - o.base])
  {
  }

  /** A server that starts again has the term, the vote, the log and the snapshot that were saved last; it
      counts as committed and applied what the snapshot covers, and follows. */
  lemma RestartsExactly(o: Server)
    requires o.base >= 0
    ensures var d := Make(o.me, o.n, Saved(o));
      && d.term == o.term && d.vote == o.vote && d.log == o.log && d.base == o.base && d.baseTerm == o.baseTerm
      && d.disk == Saved(o) && d.me == o.me && d.n == o.n
      && d.commit == d.applied == o.base && d.role == Follower && d.applying == None
  {
  }

  /** The applier hands over the snapshot if it is behind it, else every entry that is committed and not
      applied, in order. */
  lemma TakesExactly(o: Server)
    requires |o.log| >= 1 && o.commit < o.base + |o.log|
    ensures var (d, msgs) := ApplierTake(o);
      && d == o.(applying := d.applying)
      && (o.applying.Some? || (o.applied >= o.commit && o.applied >= o.base) ==> d == o && msgs == [])
      && (o.applying.None? && o.applied < o.base ==>
            d.applying == Some(o.base) && msgs == [ApplySnapshot(o.base, o.baseTerm, o.disk.snapshot)])
      && (o.applying.None? && o.base <= o.applied < o.commit ==>
            && d.applying == Some(o.commit) && |msgs| == o.commit - o.applied
            && forall i :: 0 <= i < |msgs| ==>
                 var index := o.applied + 1 + i; msgs[i] == ApplyCommand(index, o.log[index - o.base].command))
  {
  }
}
