# Verified models of the lab systems

Dafny models of five programs of this repository, with proofs of what they are for. All `.dfy` files
are one project (`dafny verify dfyconfig.toml`); every module is a file of its own.

* **Linearizability checker** (`lab-2/src/porcupine`, `lab-2/src/models/kv.go`). `Linearizability`
  defines the decision problem. `Search`, `SearchLevels` and `SearchCache` prove the backtracking
  search on sequences and sets: which operations may come next, why a cached configuration is dead, and a
  termination measure. `LinkedEntries` and `Bitset` are the linked list and the bitset as they are
  rewired and flipped in place, and `Checker` runs the search on them and proves the verdict.
  `Operations`, `Events`, `Kv` and `CheckOperations` lead from histories of operations or events to
  the verdict for a whole key/value store, which rests on locality; `KvMeaning` says what that verdict
  means for puts, appends and gets.
* **Raft with log compaction** (`lab-2/src/raft`). `RaftServer` gives every section of code that runs
  under a server's lock as a function on the server's state; `RaftNode` is the server as a class whose
  methods and loops update fields in place and are proved to compute those functions, and `RaftHandlers`
  says of the fields alone what each of them does. `RaftSystem` is the cluster on a network that may
  lose, delay, reorder and repeat messages, with crashes and restarts from stable storage, as a state
  machine; its ghost history (`RaftCore`, `RaftCoreSteps`) records votes, candidates' and leaders' logs
  and confirmations on uncompacted logs. `RaftSafety` holds the theorems about whole runs: election safety and log matching for every run; leader completeness and state machine
  safety for runs without harmful late replies, which `HarmlessEvent` names: no leader takes a success of
  an older term for news about entries above its snapshot. The handler does not check that
  (`raft.go:267-281`); `RaftStaleReply` proves that the condition is exact for one reply and gives, by the
  steps of `RaftLateReplyRun`, a complete run of three servers in which one late reply breaks safety.
  `RaftApplied` proves for all runs exactly when the applied stream has no gap and no repeat and when
  commit indexes never fall; `RaftCutRun` continues the run to where both fail. A late reply can also send
  a leader's `nextIndex` past the end of its log, where the next broadcast panics (`raft.go:124`);
  `RaftNextIndex` gives such a run, and proves for all runs that this never happens if and only if every
  reply passes an exact check.
  `RaftBackup` proves that fast log backup makes progress.
* **Chord lookup** (`lab-3/work`). `ChordRing` is modular arithmetic on the circle of identifiers,
  `Chord` the iterative lookup, finger repair, and the bounds on hops; `ChordLargeRing` shows that the
  bound on the number of nodes is exact.
* **MapReduce data path** (`lab-2/src/mr/worker.go`, `lab-2/src/main/mrsequential.go`). The
  partitioned program against the sequential one.
* **Privacy DSL** (`data-privacy/lab2`). `EditDistance` and `Stability` prove the tracked stability
  sound for every pipeline and `Tightness` that it cannot be smaller; `DslRecords` says which records the
  transformations keep, and `PrivacyDsl` is the DSL with its budget and its measurements.

Where code and comments disagree the code is followed. `matchIndex` is set to the leader's last included
index for every peer on election (`raft.go:409`), which no follower has confirmed; what is said about it
therefore concerns indexes above the leader's snapshot. The commit-level theorems assume that snapshots are
taken of what has been committed, which is all a service can have been handed.

## Model

| member | source | states |
|---|---|---|
| `Linearizability.SameFutureStep` | distributed-system/lab-2/src/porcupine/model.go:41-43 | what pruning needs of `Equal`: states it relates stay indistinguishable under every step |
| `Linearizability.LegalIffPartial` | distributed-system/lab-2/src/porcupine/checker.go:194-213 | taking at each step a call that no open operation has returned before yields exactly the partial linearizations |
| `Linearizability.LinearizableIffNotDead` | distributed-system/lab-2/src/porcupine/checker.go:190-252 | a history is linearizable if and only if the search's first configuration can still be completed |
| `LinkedEntries.InsertBefore` | distributed-system/lab-2/src/porcupine/checker.go:70-81 | the node ends up just before the mark; the list is otherwise the same, with `prev` and `next` consistent |
| `LinkedEntries.Length` | distributed-system/lab-2/src/porcupine/checker.go:83-90 | the number of nodes of the list |
| `LinkedEntries.Lift` | distributed-system/lab-2/src/porcupine/checker.go:159-167 | removes a call and its return from the list and leaves every other node in place, while the two removed nodes remember where they were |
| `LinkedEntries.Unlift` | distributed-system/lab-2/src/porcupine/checker.go:169-177 | puts both back: undoes `Lift` exactly, whatever was lifted and unlifted in between |
| `LinkedEntries.MakeLinkedEntries` | distributed-system/lab-2/src/porcupine/checker.go:121-138 | the list holds the entries in order, every call matched to its own return |
| `Bitset.NewBitset` | distributed-system/lab-2/src/porcupine/bitset.go:10-17 | enough words for all positions, none of them a member |
| `Bitset.Clone` | distributed-system/lab-2/src/porcupine/bitset.go:19-23 | an equal copy that shares nothing |
| `Bitset.Set` | distributed-system/lab-2/src/porcupine/bitset.go:29-33 | adds one position to the set and no other |
| `Bitset.Clear` | distributed-system/lab-2/src/porcupine/bitset.go:35-39 | removes one position from the set and no other |
| `Bitset.Get` | distributed-system/lab-2/src/porcupine/bitset.go:41-44 | membership |
| `Bitset.PopCnt` | distributed-system/lab-2/src/porcupine/bitset.go:46-52 | counts the ones of all words |
| `Bitset.HashOf` | distributed-system/lab-2/src/porcupine/bitset.go:54-60 | the number of members folded with all words by exclusive or, bit by bit |
| `Bitset.Equals` | distributed-system/lab-2/src/porcupine/bitset.go:62-72 | equality of word sequences, hence of the sets they stand for |
| `Bitset.SameWordsSameMembers` | distributed-system/lab-2/src/porcupine/bitset.go:62-72 | two bitsets of one length are word by word equal if and only if they have the same members |
| `Bitset.SameMembersSameHash` | distributed-system/lab-2/src/porcupine/bitset.go:54-60 | equal sets hash equally, so a lookup may confine itself to one bucket |
| `Bitset.OnesIsCardinality` | distributed-system/lab-2/src/porcupine/bitset.go:46-52 | the population count is the cardinality of the set |
| `Search.FrontCallIsMinimal` | distributed-system/lab-2/src/porcupine/checker.go:194-198 | a call with no return before it in the list belongs to an operation nothing open has returned before |
| `Search.MinimalIsInFront` | distributed-system/lab-2/src/porcupine/checker.go:194-215 | every operation that may come next is reached by the cursor before the first return |
| `SearchLevels.LevelIsSettled` | distributed-system/lab-2/src/porcupine/checker.go:214-218 | when the cursor stands at a return, everything that could come next has been tried and the configuration has no completion |
| `SearchLevels.PathIsLegal` | distributed-system/lab-2/src/porcupine/checker.go:203-207 | the stack is at all times a partial linearization that leads to the current state |
| `SearchCache.BucketLookupIsScan` | distributed-system/lab-2/src/porcupine/checker.go:145-152 | looking into the bucket of the hash answers as a scan of all cached pairs would |
| `SearchCache.CacheContains` | distributed-system/lab-2/src/porcupine/checker.go:145-152 | true if and only if the bucket holds the same bitset with an equal state |
| `SearchCache.HitIsTried` | distributed-system/lab-2/src/porcupine/checker.go:198-210 | pruning is safe: a cached pair with the same operations done is never on the current path, and has no completion |
| `SearchCache.MoveOn` | distributed-system/lab-2/src/porcupine/checker.go:208-213 | advancing past a call that was tried keeps the search invariant, leaves the cursor on a node, and lowers the termination measure |
| `SearchCache.MovePush` | distributed-system/lab-2/src/porcupine/checker.go:198-207 | taking a call keeps the invariant with the new pair cached, and lowers the measure |
| `SearchCache.MovePop` | distributed-system/lab-2/src/porcupine/checker.go:235-241 | backtracking keeps the invariant, leaves the cursor on a node, and lowers the measure |
| `Checker.RecordCalls` | distributed-system/lab-2/src/porcupine/checker.go:218-234 | each operation on the stack gets the stack's ids if they are longer than what it has; nothing else changes |
| `Checker.TryCall` | distributed-system/lab-2/src/porcupine/checker.go:194-213 | one round of the search at a call |
| `Checker.Backtrack` | distributed-system/lab-2/src/porcupine/checker.go:235-241 | one round of the search at a return: list, bitset, state and stack are those of before the last call |
| `Checker.CheckSingle` | distributed-system/lab-2/src/porcupine/checker.go:179-253 | always ends; true if and only if some order of all operations is accepted and respects real time; on a negative answer with partial info every recorded sequence is a partial linearization containing its operation (so replaying it never panics) and none is longer |
| `Sorting.Sort` | distributed-system/lab-2/src/porcupine/checker.go:57 | the contract of the library sort: a permutation in order, ties any way |
| `Operations.LessIsStrictWeak` | distributed-system/lab-2/src/porcupine/checker.go:39-46 | the comparison is a strict weak order, as the sort demands |
| `Operations.MakeEntries` | distributed-system/lab-2/src/porcupine/checker.go:48-60 | an arrangement of all call and return entries in the order of `Less`, and nothing about ties |
| `Operations.WellFormedIffTimely` | distributed-system/lab-2/src/porcupine/checker.go:39-60 | however ties fall, the entries are a well-formed history if and only if no operation returns before it is called |
| `Operations.ArrangedPosesTheProblem` | distributed-system/lab-2/src/porcupine/checker.go:39-60 | however ties fall, one operation is before another in the entries exactly when its return time is smaller than the other's call time |
| `Operations.LinearizableIffExplained` | distributed-system/lab-2/src/porcupine/model.go:24-46 | linearizability by ids agrees with an order of the operations themselves that keeps real time |
| `Kv.KeyIsLinearizable` | distributed-system/lab-2/src/models/kv.go:18-53 | a store history that is linearizable is so key by key |
| `Kv.StoreIsLinearizable` | distributed-system/lab-2/src/models/kv.go:18-53 | histories that are linearizable key by key merge into one order of the whole store |
| `Kv.Locality` | distributed-system/lab-2/src/porcupine/model.go:28-32 | a history is linearizable against the whole map if and only if each key's part is against the single value |
| `KvMeaning.KeyAcceptsExactly` | distributed-system/lab-2/src/models/kv.go:36-53 | operations on one key are accepted from the empty value if and only if every get returns the last put before it, or nothing, followed by the appends since |
| `KvMeaning.StoreAcceptsExactly` | distributed-system/lab-2/src/models/kv.go:36-53 | so are operations on all keys, each get reading its own key |
| `KvMeaning.LinearizableIffConsistent` | distributed-system/lab-2/src/models/kv.go:18-53 | a store history is linearizable if and only if some order of its operations keeps real time and has every get return that value |
| `Sorting.StringLessIsFirstDifference` | distributed-system/lab-2/src/models/kv.go:29 | strings are in the order of the first character in which they differ, a proper prefix first |
| `CheckOperations.SortedKeys` | distributed-system/lab-2/src/models/kv.go:25-29 | every key once, in ascending order |
| `CheckOperations.Partition` | distributed-system/lab-2/src/models/kv.go:19-35 | one part for each key in sorted order, each the operations on it in their order |
| `CheckOperations.CheckParallel` | distributed-system/lab-2/src/porcupine/checker.go:274-353 | Ok if and only if every part is linearizable; what is collected of a part are partial linearizations, and for each operation none that contains it is longer than the longest collected one that does |
| `CheckOperations.CheckKvOperations` | distributed-system/lab-2/src/porcupine/checker.go:365-373 | Ok if and only if some order of all operations keeps real time and every get returns the last put to its key followed by the appends since |
| `Events.Renumber` | distributed-system/lab-2/src/porcupine/checker.go:92-106 | ids count up from 0 in the order of first appearance, equal ids get equal numbers, kinds and values stay |
| `Events.ConvertEntries` | distributed-system/lab-2/src/porcupine/checker.go:108-119 | entries in the order of the events, positions as times |
| `Events.WellFormedIffMatched` | distributed-system/lab-2/src/porcupine/checker.go:92-119 | the renumbered entries are well-formed if and only if every id has one call before its one return |
| `Events.RenumberingForgetsNames` | distributed-system/lab-2/src/porcupine/checker.go:92-106 | two event histories renumber to the same one if and only if they differ only in the names of operations |
| `Events.CheckEvents` | distributed-system/lab-2/src/porcupine/checker.go:355-363 | Ok if and only if every part of the model's partition, renumbered by itself, is linearizable; what is recorded of the parts is as long as it can be |
| `RaftLog.MergeAtMatch` | distributed-system/lab-2/src/raft/raft.go:579-620 | the same from the consistency check on: where the terms at `PrevLogIndex` agree, the loop adopts the leader's prefix |
| `Quorums.Intersect` | distributed-system/lab-2/src/raft/raft.go:333-341 | two majorities share a server |
| `RaftLog.MergeAdopts` | distributed-system/lab-2/src/raft/raft.go:600-620 | the entry loop of `AppendEntries`, on logs that match, adopts the leader's prefix and keeps whatever agrees with it |
| `RaftCore.CommittedIsNotDead` | distributed-system/lab-2/src/raft/raft.go:319-347 | what a majority has confirmed in its leader's term can never become uncommittable |
| `RaftCoreSteps.CampaignKeeps` | distributed-system/lab-2/src/raft/raft.go:351-369 | starting an election keeps the invariant of the history |
| `RaftCoreSteps.GrantKeeps` | distributed-system/lab-2/src/raft/raft.go:670-690 | granting a vote by the up-to-date test keeps it: what the voter has confirmed is in the candidate's log |
| `RaftCoreSteps.TermHasNoLeader` | distributed-system/lab-2/src/raft/raft.go:402-405 | a majority of votes for a term that has a leader cannot be collected again |
| `RaftCoreSteps.ElectKeeps` | distributed-system/lab-2/src/raft/raft.go:402-412 | winning an election keeps it: the winner's log holds all that was committed |
| `RaftCoreSteps.AppendKeeps` | distributed-system/lab-2/src/raft/raft.go:884-890 | a leader's new entry keeps it |
| `RaftCoreSteps.AdoptKeepsInv` | distributed-system/lab-2/src/raft/raft.go:600-620 | adopting a prefix of the leader's log keeps it |
| `RaftCoreSteps.LogsMatch` | distributed-system/lab-2/src/raft/raft.go:564-620 | logs that a history accounts for match |
| `RaftCoreSteps.LeaderCompleteness` | distributed-system/lab-2/src/raft/raft.go:670-690 | a committed entry is in the log of every later leader, with everything before it |
| `RaftCoreSteps.ChosenAgree` | distributed-system/lab-2/src/raft/raft.go:319-347 | any two committed prefixes agree as far as both go |
| `RaftHandlers.CommitsTheLargest` | distributed-system/lab-2/src/raft/raft.go:319-347 | a leader commits the largest index above its commit index and snapshot that carries its own term and that a majority, itself included, is believed to hold, and nothing if there is none |
| `RaftHandlers.CampaignExactly` | distributed-system/lab-2/src/raft/raft.go:351-369 | the next term, the vote for itself, and what it tells the others of its log |
| `RaftHandlers.VoteExactly` | distributed-system/lab-2/src/raft/raft.go:646-691 | a vote is granted if and only if the term is not old, no one else has it and the candidate's log is up to date; the answer carries the server's term |
| `RaftHandlers.LeadsExactly` | distributed-system/lab-2/src/raft/raft.go:382-417 | a candidate leads if and only if the answer is a vote that makes a majority; `nextIndex` and `matchIndex` then start from its log and snapshot |
| `RaftHandlers.MergeExactly` | distributed-system/lab-2/src/raft/raft.go:600-620 | on any log: kept if it has all the entries, else cut at the first that is missing and continued with the entries |
| `RaftHandlers.AcceptsExactly` | distributed-system/lab-2/src/raft/raft.go:528-634 | a request is accepted if and only if its term is not old and the log has its previous entry; term, role, vote, log, commit index and answer afterwards |
| `RaftHandlers.RefusesExactly` | distributed-system/lab-2/src/raft/raft.go:563-595 | what a refusal says: how far the log reaches, or the conflicting term and where its run begins |
| `RaftHandlers.ReplyExactly` | distributed-system/lab-2/src/raft/raft.go:255-313 | what a leader makes of a success and of a refusal |
| `RaftHandlers.InstallsExactly` | distributed-system/lab-2/src/raft/raft.go:780-859 | base, log, commit index, stored snapshot and answer after `InstallSnapshot` |
| `RaftHandlers.InstallReplyExactly` | distributed-system/lab-2/src/raft/raft.go:754-776 | what a leader makes of the answer to a snapshot |
| `RaftHandlers.SendsExactly` | distributed-system/lab-2/src/raft/raft.go:222-249 | a request carries the entries from the follower's next one to the end of the log, the entry before them and the leader's commit index |
| `RaftHandlers.CompactsExactly` | distributed-system/lab-2/src/raft/raft.go:426-477 | compaction goes to the index asked for or the end of the log and never back; later entries keep their index, and the data are stored with the state |
| `RaftHandlers.RestartsExactly` | distributed-system/lab-2/src/raft/raft.go:1042-1084 | what was saved is back, and the commit and applied indexes are those of the snapshot |
| `RaftHandlers.TakesExactly` | distributed-system/lab-2/src/raft/raft.go:960-1018 | the snapshot, or each committed command that is not applied, with its index, in order |
| `RaftSafety.TakeFacts` | distributed-system/lab-2/src/raft/raft.go:960-1018 | the applier takes the snapshot, or every committed command from the last applied one on, each with its index |
| `RaftSystem.FullFacts` | distributed-system/lab-2/src/raft/raft.go:104-125 | the offset helpers read the full log: last index, last term and every term from the snapshot on |
| `RaftReplication.AppendArgsFacts` | distributed-system/lab-2/src/raft/raft.go:213-249 | what is sent from the offset slice is the end of the full log after `PrevLogIndex` |
| `RaftReplication.AppendFacts` | distributed-system/lab-2/src/raft/raft.go:528-634 | `AppendEntries` on the offset slice is `AppendEntries` on the full log, for every request |
| `RaftReplication.MergeTail` | distributed-system/lab-2/src/raft/raft.go:600-620 | merging into the slice is merging into the full log, and slot 0 is never touched |
| `RaftReplication.InstallFacts` | distributed-system/lab-2/src/raft/raft.go:780-859 | `InstallSnapshot` on the slice: what the full log becomes, in every branch |
| `RaftReplication.InstallAdopts` | distributed-system/lab-2/src/raft/raft.go:812-843 | on logs that match, installing a snapshot is adopting the prefix it stands for |
| `RaftReplication.ClientFacts` | distributed-system/lab-2/src/raft/raft.go:876-897 | `Start` on the slice appends to the full log and returns the index the command gets there |
| `RaftReplication.CompactFacts` | distributed-system/lab-2/src/raft/raft.go:426-477 | `Snapshot` does not change the full log, whatever the index |
| `RaftReplication.RestartFacts` | distributed-system/lab-2/src/raft/raft.go:1042-1084 | a server started from the image its predecessor persisted has its term, vote and full log |
| `RaftCommit.CheckCommitOk` | distributed-system/lab-2/src/raft/raft.go:319-347 | the commit rule commits only what a majority has confirmed in the leader's own term |
| `RaftCommitSteps.HintBound` | distributed-system/lab-2/src/raft/raft.go:563-595 | the conflict index of a refusal never points beyond the leader's log |
| `RaftCommitSteps.AcceptedCommit` | distributed-system/lab-2/src/raft/raft.go:622-633 | a follower's commit index stays within what is committed |
| `RaftCommitSteps.InstallCommit` | distributed-system/lab-2/src/raft/raft.go:839-843 | so does the commit index after a snapshot |
| `RaftSafety.StepKeeps` | distributed-system/lab-2/src/raft/raft.go:201-420 | every step of the cluster, with any reply at any time, keeps the invariant and only extends the history |
| `RaftSafety.StepStrong` | distributed-system/lab-2/src/raft/raft.go:267-281 | every step but the handling of a harmful late success, one of an older term that claims something new above the snapshot, also keeps what is said about commitment |
| `RaftSafety.ElectionSafety` | distributed-system/lab-2/src/raft/raft.go:351-420 | over a whole run with loss, delay, reordering, crashes and restarts, one server at most ever leads in a term |
| `RaftSafety.LeaderAppendOnly` | distributed-system/lab-2/src/raft/raft.go:876-897 | a server that leads never drops or replaces an entry of its log |
| `RaftSafety.LogMatching` | distributed-system/lab-2/src/raft/raft.go:564-620 | where two full logs of a run, even of different moments, have one term at an index, they agree up to there |
| `RaftSafety.CompactionRefinesFullLog` | distributed-system/lab-2/src/raft/raft.go:104-125 | at all times: slot 0 carries the last included term, every index from the snapshot to the end is in bounds and reads the full log, and the persisted image restarts to the same state |
| `RaftSafety.LeadersHaveCommitted` | distributed-system/lab-2/src/raft/raft.go:670-690 | whatever any server has regarded as committed is in the log of every leader of that or a later term (no harmful late success) |
| `RaftSafety.CommittedAgree` | distributed-system/lab-2/src/raft/raft.go:319-347 | no two servers ever disagree about a committed entry (no harmful late success) |
| `RaftSafety.StateMachineSafety` | distributed-system/lab-2/src/raft/raft.go:960-1031 | two services are never told different commands for one index, by a command or inside a snapshot (no harmful late success) |
| `RaftApplied.RoundExactly` | distributed-system/lab-2/src/raft/raft.go:960-1030 | a round of the applier hands over a snapshot strictly ahead or exactly the next commands, and all that it marks as applied, if and only if the commit index lies within the log when it takes commands (the test at line 1005); otherwise it hands over nothing and marks everything |
| `RaftApplied.AppliedInOrderExactly` | distributed-system/lab-2/src/raft/raft.go:960-1030 | over a whole run the applied stream has no gap and no repeat if and only if every round that takes commands finds its commit index within its log |
| `RaftApplied.CommitNeverFallsExactly` | distributed-system/lab-2/src/raft/raft.go:622-633 | over a whole run no commit index falls while its server is up if and only if every accepted request backs the follower's commit index with entries or announces no newer one |
| `RaftApplied.AppliedInOrder` | distributed-system/lab-2/src/raft/raft.go:960-1031 | the applied stream has no gap and no repeat when commit indexes lie within the logs |
| `RaftApplied.CommitNeverFalls` | distributed-system/lab-2/src/raft/raft.go:622-633 | no step but a restart lowers a commit index when commit indexes lie within the logs, since every `LeaderCommit` is then at most `PrevLogIndex` plus the number of entries |
| `RaftApplied.NoHarmInOrder` | distributed-system/lab-2/src/raft/raft.go:267-281 | without harmful late successes commit indexes lie within the logs, so both hold |
| `RaftCutRun.LateReplySkipsCommands` | distributed-system/lab-2/src/raft/raft.go:1000-1030 | a run of three servers in which, after one late success, a service is never handed commands that its server marks as applied |
| `RaftCutRun.LateReplyLowersCommit` | distributed-system/lab-2/src/raft/raft.go:622-633 | a run of three servers in which, after one late success, two requests that overtake one another lower a follower's commit index |
| `RaftNextIndex.ReplyKeepsNextExactly` | distributed-system/lab-2/src/raft/raft.go:267-311 | handling a reply that does not end the leader's term keeps every place it reads inside its log if and only if the reply passes a check: a success is no news or lies within the log; after a refusal the conflict term is found or the conflict index is not past the end |
| `RaftNextIndex.LeadersReadInsideExactly` | distributed-system/lab-2/src/raft/raft.go:213-224 | over a whole run no leader ever has to read past its log to prepare a request, which panics, if and only if every reply that a leader handles without stepping down passes that check |
| `RaftNextIndex.RepliesInTermReadInside` | distributed-system/lab-2/src/raft/raft.go:267-281 | so it is when every reply is handled in the term of its request |
| `RaftNextIndex.LateReplyReadsPast` | distributed-system/lab-2/src/raft/raft.go:267-281 | a run of three servers in which one late success makes a leader read past its log |
| `RaftStaleReply.ReplySoundExactly` | distributed-system/lab-2/src/raft/raft.go:273-279 | in every state in which what is said about commitment is true: handling a success that does not end the leader's term keeps `matchIndex` true, and all the rest, if and only if the reply is of that term, claims nothing new above the snapshot, or claims what the follower has confirmed in the leader's term as well |
| `RaftStaleReply.StaleReplyBreaksSafety` | distributed-system/lab-2/src/raft/raft.go:267-281 | a run of three servers in which one late reply makes two services apply different commands at index 2, committed logs disagree, and a newer leader lacks what an older one has committed |
| `RaftBackup.ConflictLiesBelow` | distributed-system/lab-2/src/raft/raft.go:286-304 | after a term mismatch the leader's last entry of the conflict term lies below the refused index, and so does the start of the follower's run |
| `RaftBackup.RoundProgress` | distributed-system/lab-2/src/raft/raft.go:282-311 | every refusal brings the leader strictly closer, and an acceptance leaves the follower with the leader's whole log |
| `RaftBackup.CatchesUp` | distributed-system/lab-2/src/raft/raft.go:282-311 | in finitely many rounds the follower has the whole log, or the leader turns to its snapshot |
| `RaftBackup.SnapshotThenReplicated` | distributed-system/lab-2/src/raft/raft.go:733-777 | after the snapshot has been handed over, two more rounds are enough |
| `RaftBackup.PairFinishes` | distributed-system/lab-2/src/raft/raft.go:201-316 | from any place to start and any logs that go together: the follower ends up with the leader's whole log, by rounds alone or by the snapshot and two more rounds |
| `RaftBackup.BackupFinishes` | distributed-system/lab-2/src/raft/raft.go:201-316 | so it is for any leader and any server not ahead of it, in any state of a run (no harmful late success, replies that pass the check on `nextIndex`) |
| `RaftNode.Persister.Save` | distributed-system/lab-2/src/raft/persister.go:53-58 | both parts are replaced together |
| `RaftNode.Persister.Copy` | distributed-system/lab-2/src/raft/persister.go:30-37 | a separate store with the same contents |
| `RaftNode.Raft.constructor` | distributed-system/lab-2/src/raft/raft.go:1042-1084 | a new server is what `RaftServer.Make` says of the stored image, and slot 0 carries the snapshot's term |
| `RaftNode.Raft.Persist` | distributed-system/lab-2/src/raft/raft.go:153-167 | the stored image is the persistent state in memory, the snapshot is kept |
| `RaftNode.Raft.ReadPersist` | distributed-system/lab-2/src/raft/raft.go:170-197 | the five persistent fields come from the image, nothing changes without one |
| `RaftNode.Raft.StartElection` | distributed-system/lab-2/src/raft/raft.go:351-369 | new state and request, as `RaftServer.StartElection` |
| `RaftNode.Raft.RequestVote` | distributed-system/lab-2/src/raft/raft.go:646-691 | new state and reply, as `RaftServer.RequestVote` |
| `RaftNode.Raft.BecomeLeader` | distributed-system/lab-2/src/raft/raft.go:404-412 | the loop over the peers sets every `nextIndex` and `matchIndex` |
| `RaftNode.Raft.HandleVoteReply` | distributed-system/lab-2/src/raft/raft.go:382-417 | new state, as `RaftServer.HandleVoteReply` |
| `RaftNode.Raft.Start` | distributed-system/lab-2/src/raft/raft.go:876-897 | new state and result, as `RaftServer.StartCommand` |
| `RaftNode.Raft.MakeRequest` | distributed-system/lab-2/src/raft/raft.go:203-251 | nothing, a snapshot request or entries, as the follower's `nextIndex` demands |
| `RaftNode.Raft.MergeEntries` | distributed-system/lab-2/src/raft/raft.go:600-620 | the loop over the entries computes `RaftLog.Merge` |
| `RaftNode.Raft.AppendEntries` | distributed-system/lab-2/src/raft/raft.go:528-634 | new state and reply, as `RaftServer.AppendEntries` |
| `RaftNode.Raft.CheckCommit` | distributed-system/lab-2/src/raft/raft.go:319-347 | the two loops compute `RaftServer.CheckCommit` |
| `RaftNode.Raft.HandleAppendReply` | distributed-system/lab-2/src/raft/raft.go:255-313 | new state, as `RaftServer.HandleAppendReply` |
| `RaftNode.Raft.Snapshot` | distributed-system/lab-2/src/raft/raft.go:426-477 | new state, as `RaftServer.TakeSnapshot` |
| `RaftNode.Raft.InstallSnapshot` | distributed-system/lab-2/src/raft/raft.go:780-859 | new state and reply, as `RaftServer.InstallSnapshot` |
| `RaftNode.Raft.HandleInstallReply` | distributed-system/lab-2/src/raft/raft.go:754-776 | new state, as `RaftServer.HandleInstallReply` |
| `RaftNode.Raft.ApplierTake` | distributed-system/lab-2/src/raft/raft.go:960-1018 | what is taken to be handed over, as `RaftServer.ApplierTake` |
| `RaftNode.Raft.ApplierDone` | distributed-system/lab-2/src/raft/raft.go:1025-1030 | the last applied index afterwards |
| `ChordRing.BetweenComparesDistances` | distributed-system/lab-3/work/chord.go:69-75 | the case distinction of `between` is one comparison of clockwise distances |
| `ChordRing.SuccessorOwnsExactly` | distributed-system/lab-3/work/chord.go:174-179 | the first successor is the right answer if and only if the id lies between the node and it |
| `ChordRing.SuccessorOwnsNextPoint` | distributed-system/lab-3/work/chord.go:347-356 | the owner of the first finger's start is the first successor |
| `Chord.ClosestIsLast` | distributed-system/lab-3/work/chord.go:232-244 | the scan finds the last finger that precedes the id, or the node itself if none does |
| `Chord.OnlySuccessorLeft` | distributed-system/lab-3/work/chord.go:172-179 | on a settled ring, a node without such a finger has the owner as its successor |
| `Chord.HopHalves` | distributed-system/lab-3/work/chord.go:205-218 | with exact fingers a hop more than halves the way to the id's predecessor |
| `Chord.HalvingBoundsHops` | distributed-system/lab-3/work/chord.go:183-219 | so the number of hops is at most logarithmic in the way |
| `Chord.PathFits` | distributed-system/lab-3/work/chord.go:183-187 | the nodes visited are distinct |
| `Chord.Node.constructor` | distributed-system/lab-3/work/main.go:71-95 | a node starts with itself or its contact as successor and with empty fingers |
| `Chord.Node.FindClosestPredecessor` | distributed-system/lab-3/work/chord.go:223-245 | the downward loop computes `Closest` |
| `Chord.Node.FindSuccessor` | distributed-system/lab-3/work/chord.go:169-219 | on a settled ring: an answer is the owner, each node visited is strictly closer than the one before, and with up to 34 nodes, or exact fingers and a way below 2^34 - 1, there is an answer; on any ring the answer is that of the rounds of the program |
| `ChordLargeRing.LookupFailsOn35` | distributed-system/lab-3/work/chord.go:19 | a settled ring of 35 nodes with first fingers only, and a lookup on it that exceeds the steps: 34 cannot be improved |
| `Chord.Node.FixFingers` | distributed-system/lab-3/work/chord.go:342-370 | one finger becomes the owner of its start (or stays, on a failed lookup), and a settled ring stays settled |
| `Chord.RefreshFingers` | distributed-system/lab-3/work/main.go:132-150 | a full turn of the maintenance task makes all fingers of a node exact |
| `MapReduce.ReduceRuns` | distributed-system/lab-2/src/mr/worker.go:220-235 | on grouped data the two-index loop writes one line for each key: the key, a space, what the reduce function returns for the key and all its values, and a newline; in ascending order of the keys on sorted data |
| `MapReduce.SortAndReduce` | distributed-system/lab-2/src/main/mrsequential.go:59-84 | sorting first gives that for any data |
| `MapReduce.Sequential` | distributed-system/lab-2/src/main/mrsequential.go:38-84 | the reference program writes these lines, in ascending order of the keys, for all mapped data |
| `MapReduce.ExecuteMapTask` | distributed-system/lab-2/src/mr/worker.go:131-163 | a file for exactly the reduce tasks that get something, each with exactly the pairs whose key hashes to it, in order |
| `MapReduce.ExecuteReduceTask` | distributed-system/lab-2/src/mr/worker.go:167-237 | a reduce task on the files it finds, in the order it finds them |
| `MapReduce.PartsTogether` | distributed-system/lab-2/src/mr/worker.go:75-79 | each key is reduced in exactly one partition, with the values it has in all the data |
| `MapReduce.ReducedTogether` | distributed-system/lab-2/src/mr/worker.go:75-79 | lines of parts that are each reduced once are, together, the lines of all the data reduced once |
| `MapReduce.ReducedAgree` | distributed-system/lab-2/src/mr/worker.go:229-233 | whatever reduces each key of the same data exactly once writes the same lines, in some order, if the reduce function ignores the order of values |
| `MapReduce.SameLines` | distributed-system/lab-2/src/mr/worker.go:229-233 | two programs that reduce each key once with the same values, in any order, write the same lines if the reduce function ignores that order |
| `MapReduce.Distributed` | distributed-system/lab-2/src/mr/worker.go:131-237 | a whole run writes one such line for each key over all partitions, in ascending order of the keys in each output |
| `MapReduce.RunBoth` | distributed-system/lab-2/src/main/mrsequential.go:38-84 | for every number of reducers, hash and file order, the lines of all partitions are a permutation of the sequential program's |
| `PrivacyDsl.FilterDataset` | data-privacy/lab2/dp_dsl.py:106-120 | exactly the records that satisfy the predicate, in order; the stability stays |
| `PrivacyDsl.MapDataset` | data-privacy/lab2/dp_dsl.py:122-136 | every record's image in its place; the stability stays |
| `PrivacyDsl.UnionDataset` | data-privacy/lab2/dp_dsl.py:139-153 | the records of the first operand, then those of the second; the stabilities add up |
| `PrivacyDsl.IntersectDataset` | data-privacy/lab2/dp_dsl.py:155-172 | exactly the records of the first operand that occur in the second, in order; the stabilities add up |
| `PrivacyDsl.GroupByDataset` | data-privacy/lab2/dp_dsl.py:174-195 | one group for each key in the order of first appearance, with its records in order; the stability doubles |
| `Tightness.FilterIsTight` | data-privacy/lab2/dp_dsl.py:106-120 | a filter that lets something through may move as far as its input: a smaller stability would be wrong |
| `Tightness.MapIsTight` | data-privacy/lab2/dp_dsl.py:122-136 | so may a map |
| `Tightness.UnionIsTight` | data-privacy/lab2/dp_dsl.py:139-153 | a union may move as far as the sum |
| `Tightness.IntersectIsTight` | data-privacy/lab2/dp_dsl.py:155-172 | so may an intersection, without duplicates in the first operand |
| `Tightness.GroupByIsTight` | data-privacy/lab2/dp_dsl.py:174-195 | grouping may move twice as far as its input |
| `Stability.FilterLipschitz` | data-privacy/lab2/dp_dsl.py:106-120 | one record more or less moves a filtered data set by at most one |
| `Stability.MapLipschitz` | data-privacy/lab2/dp_dsl.py:122-136 | and a mapped one |
| `Stability.UnionApart` | data-privacy/lab2/dp_dsl.py:139-153 | the distances of the operands of a union add up |
| `Stability.GroupByLipschitz` | data-privacy/lab2/dp_dsl.py:174-195 | one record moves a grouped data set, with groups in order of first appearance, by at most two |
| `Stability.TrackedBoundsDistance` | data-privacy/lab2/dp_dsl.py:106-195 | for every pipeline that intersects only data sets without duplicates with others, the tracked number bounds the distance of the outputs |
| `Stability.StabilityIsSound` | data-privacy/lab2/dp_dsl.py:106-195 | sources `k` times their stability apart give outputs at most `k` times the tracked stability apart |
| `Stability.BucketDistancesAddUp` | data-privacy/lab2/dp_dsl.py:217-231 | over distinct keys the distances of the buckets add up to at most that of the inputs |
| `Stability.CountApart` | data-privacy/lab2/dp_dsl.py:254-273 | the count moves by no more than the distance |
| `Stability.SumCountsEach` | data-privacy/lab2/dp_dsl.py:289-295 | the sum counts every record once: as itself between the bounds, else as the bound it is beyond |
| `Stability.SumApart` | data-privacy/lab2/dp_dsl.py:275-303 | the clamped sum moves by no more than the distance times the larger bound, even for bounds the wrong way round |
| `Stability.IntersectApart` | data-privacy/lab2/dp_dsl.py:155-172 | if the first operand has no duplicates, operands `m` and `n` apart give intersections at most `m + n` apart, whatever the other first operand holds |
| `Stability.DuplicatesMoveTogether` | data-privacy/lab2/dp_dsl.py:155-172 | two equal records in the first operand of an intersection move together when the second operand changes by one |
| `Stability.IntersectStableExactlyWithoutDuplicates` | data-privacy/lab2/dp_dsl.py:155-172 | the sum of the stabilities, which is tracked, bounds what an intersection may move by, both operands moving by any distances, if and only if the first has no duplicates |
| `PrivacyDsl.CreateDataset` | data-privacy/lab2/core.py:41-55 | refused if and only if the stability is below one; otherwise it has the given data and stability |
| `PrivacyDsl.EvaluateIs` | data-privacy/lab2/dp_dsl.py:106-195 | the data and the stability the operations compute together are those of the pipeline |
| `PrivacyDsl.PipelinesAreStable` | data-privacy/lab2/dp_dsl.py:106-195 | what the DSL tracks bounds what any number of people can change (intersections without duplicates) |
| `PrivacyDsl.GroupByLoop` | data-privacy/lab2/dp_dsl.py:186-195 | the dictionary loop computes the grouping, and the stability doubles |
| `PrivacyDsl.Buckets` | data-privacy/lab2/dp_dsl.py:217-231 | one bucket for each listed key with its records in order, and the stability of the whole |
| `PrivacyDsl.Dsl.Create` | data-privacy/lab2/dp_dsl.py:42-52 | refused if and only if the budget is not positive |
| `PrivacyDsl.Dsl.ConsumeBudget` | data-privacy/lab2/dp_dsl.py:79-98 | spends exactly what is allowed, or refuses and spends nothing |
| `PrivacyDsl.Dsl.Partition` | data-privacy/lab2/dp_dsl.py:216-247 | charges once or refuses; runs every computation on its bucket with the charge refunded and forgets what it spends; if one fails, only what was used before and what that one has spent stays used |
| `PrivacyDsl.ChargeCoversExactly` | data-privacy/lab2/dp_dsl.py:227-244 | the charge of a partition pays for what all buckets lose together, wherever the data differ, if and only if none of the computations it runs spends more than the charge, which the code does not check |
| `PrivacyDsl.RestIsNotCovered` | data-privacy/lab2/dp_dsl.py:227-244 | a computation that spends all that is left is allowed to, and is not paid for |
| `PrivacyDsl.PartitionPaysOnce` | data-privacy/lab2/dp_dsl.py:197-247 | parallel composition: over distinct keys, `n` records lose at most `n` times the charge in all buckets together when no computation spends more than the charge |
| `PrivacyDsl.Dsl.Count` | data-privacy/lab2/dp_dsl.py:254-273 | charges the budget and scales the noise to the stability, or refuses and changes nothing |
| `PrivacyDsl.Dsl.Sum` | data-privacy/lab2/dp_dsl.py:275-303 | the same for the clamped sum; with both bounds zero the noise cannot be drawn and the budget is spent all the same |
| `PrivacyDsl.CountOf` | data-privacy/lab2/dp_dsl.py:267-273 | the number of records, with noise of scale stability over epsilon |
| `PrivacyDsl.SumOf` | data-privacy/lab2/dp_dsl.py:289-303 | the clamped sum, with noise of scale stability times the larger bound over epsilon |
| `PrivacyDsl.CountIsCalibrated` | data-privacy/lab2/dp_dsl.py:267-273 | `k` people change the count by at most `k` times epsilon times the noise scale |
| `PrivacyDsl.SumIsCalibrated` | data-privacy/lab2/dp_dsl.py:293-303 | and the clamped sum |

## Left out

- The empty history: `checkParallel` waits forever for a first result when there are no parts (checker.go:292-304), so histories are required not to be empty.
- Concurrency inside the checker: parts are checked one after the other, `kill` stays 0, and there are no timeouts, so the result Unknown never arises.
- Checker.CheckSingle: the loop body is split into two methods and each half of `lift` and `unlift` is a method of its own; the interface-typed node value is an option, and the head node's is none.
- Bitset.HashOf: a word is a sequence of 64 truth values; the cached bitsets are stored as word sequences, since a cached array is never written again.
- CheckOperations.CheckParallel: partial linearizations are collected as a set of sequences, where the program tells equal sequences in different places apart; the link to the visualization is not modelled.
- Events.CheckEvents: the event partition of the model is any function; every part must have one call before one return for each id.
- Kv.Locality: a failing type assertion, which panics in the program, is a refused step.
- Raft's timers, goroutines and random delays: any server that does not lead may time out at any moment.
- Raft's network may also repeat messages, which `labrpc` does not; each request of an election is answered at most once (labrpc.go:222-307).
- Snapshot bytes are represented by the log they summarise, and encoding is assumed to round-trip; an undecodable image, which is ignored, does not occur.
- RaftSafety.StateMachineSafety: assumes that no harmful late success is handled; without that it is false, as RaftStaleReply.StaleReplyBreaksSafety shows. The equivalence proved is for handling one reply (RaftStaleReply.ReplySoundExactly); a run may handle a harmful reply and stay safe by luck. The same assumption stands in LeadersHaveCommitted and CommittedAgree, which the same run breaks.
- RaftBackup.BackupFinishes: assumes besides that every reply handled before passed the check of RaftNextIndex; without that the leader may panic instead, as RaftNextIndex.LateReplyReadsPast shows.
- RaftNode.Raft.Snapshot: steps of the cluster only take snapshots up to the commit index; the function itself is modelled for every index.
- Go slices that share their backing array: a log is a value, since whatever is sent is copied first.
- RaftBackup.PairFinishes: the leader and the follower are alone; how long a cluster with contention takes is not bounded.
- Liveness of Raft elections and of `applyCh` receivers.
- Chord joins, failures, `stabilize`, `Notify`, `checkPredecessor`, replication, the `-i` override of an id, encryption: membership is settled and ids are hashes of addresses, assumed distinct.
- Chord.Node.FindSuccessor: a remote call is a method call on the node the network has at an address, and fails when there is none; other failures are not modelled.
- MapReduce files: a file is the sequence of pairs in it; the JSON encoding is assumed to round-trip, and file discovery is an arbitrary order of the map tasks' files. The `ihash` function is any function to the natural numbers.
- MapReduce coordinators: the remaining count is decremented again when a rescheduled task completes twice (coordinator.go:125-133), so it does not count unfinished tasks.
- MapReduce.SortAndReduce: the data is sorted as a value, not in place in an array.
- PrivacyDsl.Dsl.Partition: a computation is a function that also says how much is used after it; it may only spend, not reset the budget.
- PrivacyDsl.Dsl.Sum: real numbers instead of floating point; the random noise itself is left out, only its scale is given.
- Stability.TrackedBoundsDistance: an intersection whose first operand has duplicates is excluded, since the stability tracked for it is wrong (Stability.IntersectStableExactlyWithoutDuplicates).
- `labrpc`, `labgob`, the key/value and shard servers, visualization, shells, sockets, schedulers and microcontroller code: thin wrappers or I/O with only easy claims.
