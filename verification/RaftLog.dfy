/** Replicated logs. Index 0 of every full log holds the dummy entry of term 0. */
module RaftLog {
  import opened Options

  type Command = string

  datatype Entry = Entry(command: Option<Command>, term: int)

  type Log = seq<Entry>

  const DUMMY: Entry := Entry(None, 0)

  /** The loop of `AppendEntries`: entries are compared from position `k` on; at the first term
      mismatch the rest of the log is replaced, past the end they are appended. */
  function Merge(log: Log, k: nat, entries: seq<Entry>): Log
    requires k <= |log|
    decreases |entries|
  {
    if entries == [] then log
    else if k < |log| then
      if log[k].term != entries[0].term then log[..k] + entries else Merge(log, k + 1, entries[1..])
    else Merge(log + [entries[0]], k + 1, entries[1..])
  }

  /** Where two logs agree on a term they agree on everything up to there. */
  ghost predicate Matching(a: Log, b: Log) {
    forall i :: 0 <= i < |a| && i < |b| && a[i].term == b[i].term ==> a[..i + 1] == b[..i + 1]
  }

  /** The logs agree on their first `k` entries. */
  ghost predicate Agree(a: Log, b: Log, k: nat) {
    k <= |a| && k <= |b| && a[..k] == b[..k]
  }

  /** The log has these entries from position `k` on. */
  ghost predicate Segment(log: Log, k: nat, entries: seq<Entry>) {
    k + |entries| <= |log| && log[k..k + |entries|] == entries
  }

  lemma MatchAt(g: Log, l: Log, i: nat)
    requires Matching(g, l) && i < |g| && i < |l| && g[i].term == l[i].term
    ensures Agree(g, l, i + 1)
  {
  }

  /** The log after being told that the leader's log starts with `prefix`. */
  ghost function Adopt(log: Log, prefix: Log): Log {
    if prefix <= log then log else prefix
  }

  /** Against a leader log that matches, the loop adopts the leader's prefix: it neither cuts off
      anything the leader has confirmed nor keeps anything that contradicts it. */
  lemma {:induction false} MergeAdopts(log: Log, leader: Log, k: nat, entries: seq<Entry>)
    requires Matching(log, leader)
    requires Agree(log, leader, k) && Segment(leader, k, entries)
    ensures Merge(log, k, entries) == Adopt(log, leader[..k + |entries|])
    decreases |entries|
  {
    var m := k + |entries|;
    if entries == [] {
      assert leader[..m] == log[..k] <= log;
    } else if k < |log| {
      assert entries[0] == leader[k];
      if log[k].term != entries[0].term {
        assert log[..k] + entries == leader[..m];
        assert leader[..m][k] == leader[k] && !(leader[..m] <= log);
      } else {
        assert log[..k + 1] == leader[..k + 1];
        MergeAdopts(log, leader, k + 1, entries[1..]);
      }
    } else {
      MergePastEnd(log, entries);
      assert log + entries == leader[..m];
    }
  }

  lemma {:induction false} MergePastEnd(log: Log, entries: seq<Entry>)
    ensures Merge(log, |log|, entries) == log + entries
    decreases |entries|
  {
    if entries == [] {
      assert log + entries == log;
    } else {
      MergePastEnd(log + [entries[0]], entries[1..]);
      assert log + [entries[0]] + entries[1..] == log + entries;
    }
  }

  /** So it does after a place where the terms agree. */
  lemma MergeAtMatch(log: Log, leader: Log, prev: nat, entries: seq<Entry>)
    requires Matching(log, leader) && prev < |log| && prev < |leader| && log[prev].term == leader[prev].term
    requires Segment(leader, prev + 1, entries)
    ensures prev + 1 + |entries| <= |leader|
    ensures Merge(log, prev + 1, entries) == Adopt(log, leader[..prev + 1 + |entries|])
  {
    hide Matching, Merge, Adopt, Agree, Segment;
    SegmentFits(leader, prev + 1, entries);
    MatchAt(log, leader, prev);
    MergeAdopts(log, leader, prev + 1, entries);
  }

  lemma SegmentFits(log: Log, k: nat, entries: seq<Entry>)
    requires Segment(log, k, entries)
    ensures k + |entries| <= |log|
  {
  }

  /** Whatever a log shares with the leader's log survives. */
  lemma AdoptKeeps(log: Log, leader: Log, m: nat, p: Log)
    requires m <= |leader| && p <= log && p <= leader
    ensures p <= Adopt(log, leader[..m])
    ensures leader[..m] <= Adopt(log, leader[..m])
  {
  }
}
