# Verification of the Raft key-value store

A Dafny 4.11 model of a replicated key-value store written in C++, with proofs of what its parts
promise. `dafny verify dfyconfig.toml` checks all of it. Nothing of the original program was run.

## What is modelled

**Raft.** `RaftNode` has the handlers of `raft.cpp` as functions on one server's record, branch by
branch; `RaftServer` has them as a class that updates its fields in place with the program's loops,
each method proved equal to its function. `RaftCluster` puts n servers together, n arbitrary: every
critical section is one step, a request stays deliverable for ever (late, reordered, repeated, lost),
and the reply of a call is taken in at most once. A failed assertion exits the process (`alive`).
The proof works on a history beside the records (`RaftHistory`): each server's whole log, entries
under a snapshot included, and every candidacy, vote, reign and acknowledgement.
`RaftInvariant` and the `...Steps` modules show that every step keeps one invariant;
`RaftConsensus`, `RaftSteady`, `RaftClean` and `RaftCleanMerge` carry the stronger one of clean runs.
`RaftAnswers` says, on whole logs, what each handler answers and where the leader's next call starts.

Two things the program does differently from the paper decide what holds. `AppendEntries1` overwrites
a conflicting entry in place and leaves the tail behind it (raft.cpp:72-75), and `InstallSnapshot`
keeps a suffix without comparing terms (raft.cpp:449-453). So:

- Over *all* runs: Election Safety, entry uniqueness, the index space, commit backed by a majority,
  follower commit, harmless repeats, back-off, the apply stream, and which assertion can fail.
- Over *clean* runs (every overwriting AppendEntries reaches the end of the receiver's log, and every
  InstallSnapshot that keeps a suffix finds the snapshot's term there; `RaftCluster.Clean`): Log
  Matching, Leader Completeness, State Machine Safety.
- The line is exact: after clean steps, a delivery leaves the receiver a log that disputes no log any
  server has had if and only if it is clean (`AppendUndisputedIffClean`, `InstallUndisputedIffClean`).
  Both failing sides are reached: `UncleanRunDiverges` is a complete run of five servers, not clean,
  after which two of them have sent up different commands for index 1, and `UncleanInstallHappens` one
  of three in which a snapshot leaves a log that is matched no more.

The one assertion that can fail is the one in `matchLog`: the branch for a previous index under the
snapshot has no `return` (raft.cpp:46-51), so control reaches it (`ExitsOnlyBehindSnapshot`), and it
does in the run of `StaleAppendHappens`.

**Skip list.** A class over linked nodes with `forward` arrays. The abstract list is a sequence of
nodes; the pointers of every level are determined by it, each level is strictly sorted, level i+1 is
a sublist of level i, level 0 is everything. Every operation is proved against a map.

**Key-value server and clerk.** `KvStore` is the state machine (Append overwrites, as the program has
it) with the duplicate table; `KvServer` is the apply loop on the skip list; `KvService` is the whole
service as a step system of clients, handlers, apply loops and snapshots; `KvClerk` is the retry loop.
`ReplicatedStore` joins it to Raft. Raft pushes an installed snapshot from a thread of its own
(raft.cpp:466), so later commands may overtake it; what OK means then, and that it happens, is
`OkMeansApplied` and `OvertakenOk`, and `KvTruth` says exactly which steps take the stronger meaning
away. `KvOnce` says the same of executing at most once, and `ServiceOrder` that what Raft sends up is
what the service model takes for granted.

**Timers.** The ordered set, with 64-bit sums that wrap. `Timely` says that no deadline wrapped,
`Awake` that no wake-up is lost; the operations keep both, given a clock that does not go back and
sums in range.

**IO events.** The table of registrations, the pending counter and the tasks, against a book that
follows each registration to its end.

**RPC frame.** Base-128 varints, the `RpcHeader` message with default fields elided, and the frame.

## Model

| member | source | states |
|---|---|---|
| RaftSafety.StepKeeps | src/raftCore/raft.cpp:9-1166 | From any state of the invariant every step keeps it, history only grows, and the acting server exits if and only if it is handed an AppendEntries from before its snapshot; every other assertion holds |
| RaftSafety.RunKeeps | src/raftCore/raft.cpp:9-1166 | Every state of every run of any number of servers satisfies the invariant |
| RaftSafety.ExitsOnlyBehindSnapshot | src/raftCore/raft.cpp:46-54 | In a run a server exits at a step exactly when the step delivers an AppendEntries whose previous index it has compacted away |
| RaftSafety.ElectionSafety | src/raftCore/raft.cpp:806-857 | Two leaders of one term, at any two moments of a run, are the same server |
| RaftElectionSteps.MajorityWins | src/raftCore/raft.cpp:826-840 | When the counter reaches a majority, distinct servers voted for this candidate in its current term and nobody leads the term yet: the "leader twice" assertion is unreachable |
| RaftHistory.OneWinner | src/raftCore/raft.cpp:672-688 | Two majorities cannot elect different candidates in one term |
| RaftSafety.EntryUniqueness | src/raftCore/raft.cpp:63-71 | An index and a term name one entry over all logs and all AppendEntries ever sent, at any two moments of a run |
| RaftReplicationSteps.NeverClashes | src/raftCore/raft.cpp:63-71 | The entries of an AppendEntries of a leader never meet another command with their index and term, in any server's log |
| RaftSafety.IndexSpaceAlways | src/raftCore/raft.cpp:741-773 | In every run of every server: logical indices are contiguous, snapshot <= applied <= commit <= last, and a leader's next and match indices lie in its log |
| RaftAnswers.BallotsAreTotal | src/raftCore/raft.cpp:693-700 | Of any two servers at least one passes the other's test of its log |
| RaftAnswers.BallotTest | src/raftCore/raft.cpp:693-700 | The test on the record is the one on whole logs: a later last term passes, and at equal terms exactly the logs at least as long |
| RaftAnswers.VoteGrantedIff | src/raftCore/raft.cpp:618-690 | Granted if and only if the term is not older, the candidate's whole log is at least as up to date, and in that term the voter has voted for nobody or for this candidate; with the record and the reply either side leaves |
| RaftAnswers.MajorityLeads | src/raftCore/raft.cpp:826-858 | The vote that makes a majority makes the leader, and its first call to every peer is an empty AppendEntries at its last entry |
| RaftAnswers.OtherVotes | src/raftCore/raft.cpp:807-828 | A newer term deposes, a vote short of the majority is counted, any other reply is ignored |
| RaftAnswers.StartPuts | src/raftCore/raft.cpp:989-1018 | A leader puts the command at the index it returns, behind all it had, in the returned term; any other server changes nothing and answers no |
| RaftProposals.ProposalIdentified | src/raftCore/raft.cpp:1003-1017 | Over a run, any entry of the returned index and term, in any log or call at any moment, is the proposed one |
| RaftProposals.ProposalDelivered | src/raftCore/raft.cpp:359-373 | A server that delivers that entry sends up the proposed command with the returned index |
| RaftAnswers.AppendAnswersTerm | src/raftCore/raft.cpp:9-34 | Whoever lives through an AppendEntries answers its own term, the later of the two, and follows unless the call was older |
| RaftAnswers.RefusalSays | src/raftCore/raft.cpp:39-115 | Exactly the index each refusal sends back: one past the log, or the start of the conflicting term's stretch if that is above the snapshot, else the previous index |
| RaftAnswers.SuccessSays | src/raftCore/raft.cpp:918-958 | After a success the peer's next call starts behind all it is known to hold, no other peer moves, and the reply that makes a majority commits the batch's end exactly if its last entry is of the leader's term |
| RaftAnswers.MismatchSays | src/raftCore/raft.cpp:909-917 | After a mismatch the peer's next call starts at the index sent back, and nothing else changes |
| RaftAnswers.OtherReplies | src/raftCore/raft.cpp:890-905 | A newer term deposes; a reply of an older term or to a server that no longer leads is ignored |
| RaftAnswers.SnapshotAnswerSays | src/raftCore/raft.cpp:548-562 | After the answer to its snapshot the leader's next call to that peer is an AppendEntries right behind it, no other peer moves, and a newer term deposes |
| RaftAnswers.SnapshotAnswerLate | src/raftCore/raft.cpp:548-550 | An answer to a server that no longer leads the term it sent in is ignored |
| RaftAnswers.InstallAnswers | src/raftCore/raft.cpp:421-459 | The term answered: the server's own, or none when the snapshot is not newer |
| RaftAnswers.NewerTermDeposes | src/raftCore/raft.cpp:421-427 | A leader that takes in the answer of a server with a newer term steps down to that term |
| RaftAnswers.SnapshotSentOn | src/raftCore/raft.cpp:534-538 | The snapshot a server sends is the one it took or installed, with index, term and data |
| RaftSnapshotRound.SnapshotRoundCatchesUp | src/raftCore/raft.cpp:531-563 | A heartbeat with the snapshot, its install, the answer taken in and one more heartbeat leave the peer with the leader's log from the snapshot on |
| RaftNode.MergeEntriesIsMerged | src/raftCore/raft.cpp:54-77 | The merge loop on the kept slice is the in-place overwrite on the whole log, with the tail behind the batch kept |
| RaftNode.MergedAt | src/raftCore/raft.cpp:54-83 | What the merged log holds at each index, before, inside and behind the batch, and its length |
| RaftReplicationSteps.AppendMerges | src/raftCore/raft.cpp:54-103 | Where the checks pass, the handler merges, moves its commit index and answers success; its two assertions hold |
| RaftReplicationSteps.StaleAppendExits | src/raftCore/raft.cpp:46-54 | A previous index under the snapshot ends in the exit |
| RaftReplicationSteps.RejectOk | src/raftCore/raft.cpp:39-44 | A rejection, for a short log or another term, sends back an index from 1 to the previous index and changes nothing |
| RaftNode.BackOffExact | src/raftCore/raft.cpp:104-115 | The loop finds exactly the start of the conflicting term's stretch above the snapshot, or keeps the previous index if the stretch reaches down to it |
| RaftReplicationSteps.HeartBeatIs | src/raftCore/raft.cpp:242-289 | A heartbeat sends exactly the leader's log from the peer's next index to the end, or a snapshot if that was compacted |
| RaftCommit.AckWasHeld | src/raftCore/raft.cpp:886-927 | Whoever acknowledged an entry of a leader held exactly that entry, in that term, at some earlier moment of the run |
| RaftCommit.CommitIsChosen | src/raftCore/raft.cpp:934-953 | A leader that raises its commit index to i has at i an entry of its own term that a majority acknowledged |
| RaftCommit.CommitBackedByMajority | src/raftCore/raft.cpp:934-953 | When a leader raises its commit index, more than half of the servers, itself among them, have each held that entry at some moment of the run while in that term |
| RaftCommit.FollowerCommitVerified | src/raftCore/raft.cpp:88-95 | A follower's commit index never falls and never passes max(old, previous index + batch length), and moves only on success |
| RaftStale.RedeliveryChangesNothing | src/raftCore/raft.cpp:36-77 | From any sound state, delivering a batch again right after it succeeded gives the same record and the same answer |
| RaftAcknowledged.AcknowledgedStays | src/raftCore/raft.cpp:36-77 | A batch a follower accepted stays in its log through every later step of the run while it is in that term: in clean runs whatever happens, in any run if the snapshots installed on it fit the batch |
| RaftAcknowledged.HeldIffInstallsFit | src/raftCore/raft.cpp:449-453 | In any run an accepted batch is held all through the term if and only if every snapshot installed meanwhile agrees with it where both reach |
| RaftStale.StepKeepsBatch | src/raftCore/raft.cpp:36-77 | A step within the term keeps an accepted batch exactly if it installs no snapshot that does not fit it |
| RaftStale.CoveredHolds | src/raftCore/raft.cpp:449-453 | A log that holds a batch still holds it under an installed prefix exactly if the prefix agrees with the batch where both reach |
| RaftAcknowledged.RepeatChangesNothing | src/raftCore/raft.cpp:36-103 | At any such later moment, delivering the accepted batch again answers success and changes nothing, or ends in the exit exactly when the follower has compacted the entry before the batch |
| RaftAcknowledged.CommitNeverFalls | src/raftCore/raft.cpp:88-95 | No step of the cluster lowers a commit index |
| RaftBackOff.RoundFails | src/raftCore/raft.cpp:909-917 | A failed heartbeat round keeps the follower's log and strictly lowers the next index |
| RaftBackOff.RoundSucceeds | src/raftCore/raft.cpp:918-927 | A round whose previous entry matches succeeds and leaves the follower equal to the leader over the batch |
| RaftBackOff.BackOffTerminates | src/raftCore/raft.cpp:388-399 | Without snapshots, at most lastLogIndex rounds fail; the next one succeeds and leaves the follower equal to the leader over the whole batch and before it |
| RaftApply.ApplyStream | src/raftCore/raft.cpp:354-375 | In a run whose Snapshot calls name delivered indices, a command's index exceeds all sent before, and every index skipped lies under a snapshot sent up |
| RaftApply.CommandsIncrease | src/raftCore/raft.cpp:354-375 | Commands sent up have strictly increasing indices |
| RaftApply.CommandFollows | src/raftCore/raft.cpp:359-373 | Each command continues an earlier command or snapshot by one |
| RaftApply.EveryIndexAccounted | src/raftCore/raft.cpp:454-464 | Every index up to the highest was a command or lies under a snapshot |
| RaftApply.SnapshotBehindApplied | src/raftCore/raft.cpp:438-464 | A snapshot older than what was applied is sent up exactly when it is newer than the installed one |
| RaftSnapshotSteps.TakeSnapshotIs | src/raftCore/raft.cpp:1132-1166 | Snapshot cuts exactly the entries up to a committed index above the old snapshot and keeps the rest; else it changes nothing; its assertion holds |
| RaftSnapshotSteps.InstallsIs | src/raftCore/raft.cpp:438-464 | A newer snapshot replaces the log's prefix by the covered one and keeps what is behind it; commit and applied rise to it |
| RaftSnapshotSteps.DrainIs | src/raftCore/raft.cpp:359-374 | The delivery loop sends up exactly the committed commands not sent before, and its assertions hold |
| RaftSnapshotSteps.GetApplyLogsIs | src/raftCore/raft.cpp:354-375 | The same for the whole function in the index space of a server |
| RaftConsensus.LogMatching | src/raftCore/raft.cpp:54-77 | Two matched logs with one term at an index agree up to it |
| RaftConsensus.UpToDateHolds | src/raftCore/raft.cpp:693-700 | A log at least as up to date as one that holds a chosen prefix holds it too |
| RaftConsensus.CandidacyComplete | src/raftCore/raft.cpp:618-700 | Whoever a majority elects stood with every prefix chosen in an earlier term |
| RaftConsensus.LeaderCompleteness | src/raftCore/raft.cpp:618-700 | What was chosen in a term is in the log of every later reign, and in its candidacy |
| RaftConsensus.CommittedAgree | src/raftCore/raft.cpp:921-953 | Two committed prefixes agree wherever both reach |
| RaftCleanMerge.CleanRunKeeps | src/raftCore/raft.cpp:9-1166 | Every state of every clean run satisfies the stronger invariant |
| RaftTheorems.LogMatchingHolds | src/raftCore/raft.cpp:54-77 | Log Matching in clean runs: logs of any servers at any two moments with one term at an index are equal up to it, entries under snapshots included |
| RaftTheorems.LeaderCompletenessHolds | src/raftCore/raft.cpp:921-952 | Leader Completeness in clean runs: whatever any server has marked committed in term t is in the log of every leader of a later term |
| RaftTheorems.CommittedEntriesAgree | src/raftCore/raft.cpp:921-952 | No two servers, at any two moments of a clean run, mark different entries committed |
| RaftTheorems.StateMachineSafety | src/raftCore/raft.cpp:354-375 | In clean runs no two servers ever send up different commands for one index |
| RaftTheorems.AppendMatchedIffClean | src/raftCore/raft.cpp:72-75 | From any state of the clean invariant, delivering an AppendEntries keeps the receiver's log matched if and only if it overwrites nothing or reaches the end of the log |
| RaftTheorems.InstallMatchedIffClean | src/raftCore/raft.cpp:449-453 | From any such state, delivering an InstallSnapshot keeps it matched if and only if no suffix is kept or the term at the snapshot's index is the snapshot's |
| RaftUnclean.UncleanRunDiverges | src/raftCore/raft.cpp:72-75 | A reachable state of five servers in which two have sent up different commands for index 1 |
| RaftLine.AppendUndisputedIffClean | src/raftCore/raft.cpp:72-75 | After clean steps, delivering an AppendEntries leaves a log that disputes none of the run so far, at no index with the same term, if and only if it overwrites nothing or reaches the end of the log |
| RaftLine.InstallUndisputedIffClean | src/raftCore/raft.cpp:449-453 | The same for an InstallSnapshot, if and only if no suffix is kept or the snapshot's term is found at its index |
| RaftLine.ReignWasLog | src/raftCore/raft.cpp:1003-1007 | The log the proof keeps for a term was some server's log at some moment of the run |
| RaftSnapshotRuns.StaleAppendHappens | src/raftCore/raft.cpp:46-54 | A clean run of three servers in which a delayed AppendEntries with previous index 0 reaches a server that has compacted index 1, which exits |
| RaftSnapshotRuns.UncleanInstallHappens | src/raftCore/raft.cpp:449-453 | A clean run of three servers, and then a snapshot from term 2 that keeps the suffix of a log of term 1 and leaves it unmatched |
| RaftServer.Raft.constructor | src/raftCore/raft.cpp:1031-1056 | A fresh server with an empty log, term 0, no vote |
| RaftServer.Raft.GetLastLogIndex | src/raftCore/raft.cpp:703-725 | The last index of the record, from the log or the snapshot |
| RaftServer.Raft.GetLogTermFromLogIndex | src/raftCore/raft.cpp:741-756 | The term at a known index, the snapshot's own included |
| RaftServer.Raft.DoElection | src/raftCore/raft.cpp:180-224 | A non-leader stands in the next term with a counter of 1 and one ballot for every other server; a leader does nothing |
| RaftServer.Raft.RequestVote | src/raftCore/raft.cpp:618-690 | The in-place handler does what the vote function of the cluster model says |
| RaftServer.Raft.TakeVote | src/raftCore/raft.cpp:806-858 | The same for a vote's reply, counter and leader arrays included |
| RaftServer.Raft.Start | src/raftCore/raft.cpp:989-1018 | The same for a proposal |
| RaftServer.Raft.ForPeer | src/raftCore/raft.cpp:242-289 | What one peer is sent, copied entry by entry, or which assertion fails |
| RaftServer.Raft.DoHeartBeat | src/raftCore/raft.cpp:227-301 | One call for every other server, in order, with a fresh counter of 1; where an assertion fails, the calls of the peers before it |
| RaftServer.Raft.Merge | src/raftCore/raft.cpp:56-77 | The in-place loop makes the merged log, and exits exactly when two commands clash |
| RaftServer.Raft.FindBackOff | src/raftCore/raft.cpp:106-113 | The loop finds the index to send back |
| RaftServer.Raft.AppendEntries1 | src/raftCore/raft.cpp:9-122 | The in-place handler does what the AppendEntries function of the cluster model says, exits included |
| RaftServer.Raft.TakeAppendReply | src/raftCore/raft.cpp:882-961 | The same for an AppendEntries reply, counter and indices included |
| RaftServer.Raft.Snapshot | src/raftCore/raft.cpp:1132-1166 | The same for a snapshot taken above, with its copying loop |
| RaftServer.Raft.LeaderSendSnapShot | src/raftCore/raft.cpp:531-541 | The request carries the record's snapshot, whatever the role has become |
| RaftServer.Raft.InstallSnapshot | src/raftCore/raft.cpp:417-473 | The same for an installed snapshot, the answered term and the pushed message included |
| RaftServer.Raft.TakeSnapshotReply | src/raftCore/raft.cpp:543-563 | The same for its reply |
| RaftServer.Raft.GetApplyLogs | src/raftCore/raft.cpp:354-375 | The same for delivery |
| SkipListModule.SkipList.constructor | src/skipList/include/skipList.h:634-644 | An empty map |
| SkipListModule.SkipList.GetRandomLevel | src/skipList/include/skipList.h:704-717 | A level from 1 to the maximum, for every seed |
| SkipListModule.SkipList.SearchElement | src/skipList/include/skipList.h:596-621 | Found exactly when the key is in the map, with its value |
| SkipListModule.SkipList.FillUpdate | src/skipList/include/skipList.h:285-299 | The descent fills each slot of update with the last node before the key that reaches that level |
| SkipListModule.SkipList.InsertElement | src/skipList/include/skipList.h:281-341 | Adds an absent key and answers 0, else changes nothing and answers 1, whatever level is drawn |
| SkipListModule.SkipList.DeleteElement | src/skipList/include/skipList.h:498-540 | Removes exactly the key |
| SkipListModule.SkipList.InsertSetElement | src/skipList/include/skipList.h:556-563 | Sets the key's value |
| SkipListModule.SkipList.Size | src/skipList/include/skipList.h:448-450 | The element count is the size of the map |
| SkipListModule.SkipList.DisplayList | src/skipList/include/skipList.h:349-363 | Prints every level up to the current one, each with exactly its elements |
| SkipListModule.SkipList.Dump | src/skipList/include/skipList.h:373-398 | The dump is the map in key order |
| SkipListModule.SkipList.Load | src/skipList/include/skipList.h:407-441 | Loading inserts each absent key with itself for a value |
| SkipListModule.LoadRestoresKeys | src/skipList/include/skipList.h:437-440 | Loading a dump into an empty list restores the key set and the size, and each value is the key |
| SkipListModule.LoadedAt | src/skipList/include/skipList.h:437-440 | Loading adds exactly the missing keys, each with itself for a value, and touches no other |
| SkipListModule.ItemsAt | src/skipList/include/skipList.h:353-360 | What is printed for a level is each node's key and value, in order |
| SkipListNodes.NextWith | src/skipList/include/skipList.h:330-335 | Rewiring each level at its update node gives exactly the pointers of the list with the new node |
| SkipListNodes.NextOfNew | src/skipList/include/skipList.h:330-333 | The new node's pointers are those its predecessors had |
| SkipListNodes.ContentsWith | src/skipList/include/skipList.h:313-338 | The map with the new node is the map with the key set |
| SkipListNodes.ContentsWithout | src/skipList/include/skipList.h:519-537 | The map without a node is the map less its key |
| SkipListNodes.ContentsSize | src/skipList/include/skipList.h:337-337 | A sorted list has as many keys as elements |
| SkipListNodes.LevelStep | src/skipList/include/skipList.h:353-360 | Following a level's pointers visits exactly the nodes of that height, in order |
| SkipListNodes.LevelMembers | src/skipList/include/skipList.h:329-335 | A node is on a level exactly when its height reaches it |
| SkipListNodes.LevelSorted | src/skipList/include/skipList.h:292-299 | Every level is strictly sorted |
| SkipListNodes.LevelSublist | src/skipList/include/skipList.h:329-335 | Level i+1 is level i without the nodes of height i |
| SkipListNodes.LevelZero | src/skipList/include/skipList.h:384-389 | Level 0 holds every element |
| KvStore.TableMonotone | src/raftCore/kvServer.cpp:151-193 | No command stream lowers a client's last request |
| KvStore.ReplayLeaves | src/raftCore/kvServer.cpp:151-174 | Under each key a stream leaves the value of the last update of it that takes effect, that is with a request later than all of its client before, and an untouched key keeps its value; the table has each client's latest request |
| KvStore.SomeLastWrite | src/raftCore/kvServer.cpp:62-70 | A key that is written is written last somewhere, so its value is determined |
| KvStore.SecondPutWins | src/raftCore/kvServer.cpp:62-70 | Put twice, the key has the second value |
| KvStore.UpdateSettles | src/raftCore/kvServer.cpp:165-193 | Once an update has gone by, its id is a duplicate for good |
| KvStore.RetriesAreIdempotent | src/raftCore/kvServer.cpp:151-193 | From any state, deleting every later repeat of an id from a settled stream changes neither store nor table |
| KvStore.RetriesIdempotentIffSettled | src/raftCore/kvServer.cpp:151-193 | For a server that starts empty, that holds at every point of the stream if and only if no repeat is the first update of its client with so late a request |
| KvStore.SettledIdsNeeded | src/raftCore/kvServer.cpp:165-174 | A stream whose id names a Get and then a Put, where deleting the repeat loses the Put |
| KvStore.ExecutedAtMostOnce | src/raftCore/kvServer.cpp:163-174 | Each id is executed at most once, and a client's requests in increasing order |
| KvService.LogIsSettled | src/raftClerk/clerk.cpp:18-19 | Where every id names one request, the committed commands are settled |
| KvService.RetriesIdempotentInRuns | src/raftCore/kvServer.cpp:151-193 | In every run, any first part of the committed commands does to any store what it does without its retries |
| KvServerModule.KvServer.ExecutePutOpOnKVDB | src/raftCore/kvServer.cpp:62-70 | Sets the key and the client's last request, nothing else |
| KvServerModule.KvServer.ExecuteAppendOpOnKVDB | src/raftCore/kvServer.cpp:22-37 | The same: an Append overwrites |
| KvServerModule.KvServer.ExecuteGetOpOnKVDB | src/raftCore/kvServer.cpp:40-59 | Reads the key and sets the client's last request, whatever it was |
| KvServerModule.KvServer.GetCommandFromRaft | src/raftCore/kvServer.cpp:151-183 | A command under the installed snapshot is dropped; a Put or Append that is no duplicate sets its key and its client's entry, any other changes neither; then it is pushed to its index's channel if one is open |
| KvServerModule.KvServer.ReadRaftApplyCommandLoop | src/raftCore/kvServer.cpp:269-285 | The loop over commands and snapshots makes of store, table, snapshot index and channels what the message function says, and over commands leaves each key's last value |
| KvServerModule.CommandsReplay | src/raftCore/kvServer.cpp:151-183 | Between snapshots the store is the replay of the commands above the installed one, with the values and the table that stream leaves |
| KvServerModule.ChannelsHear | src/raftCore/kvServer.cpp:314-330 | Whoever waits on an index gets exactly the commands delivered with it, in order |
| KvServerModule.KvServer.GetSnapShotFromRaft | src/raftCore/kvServer.cpp:342-349 | The table is replaced, the keys are loaded into the store as it stands |
| KvServerModule.KvServer.SendMessageToWaitChan | src/raftCore/kvServer.cpp:314-330 | Pushes exactly when the channel is open |
| KvServerModule.KvServer.OpenChannel | src/raftCore/kvServer.cpp:225-229 | A handler opens the channel of its index unless it is open already, and no other |
| KvServerModule.KvServer.AnswerPutAppend | src/raftCore/kvServer.cpp:236-258 | OK exactly when the popped operation has the request's id, or after a timeout when the table has it |
| KvService.OkMeansApplied | src/raftCore/kvServer.cpp:199-266 | In every interleaving, an OK to a Put or Append comes from a server that executed this very request, or loaded a snapshot that covers it, or whose Raft has installed one that is still on its way to the store |
| KvService.OrderlyOkMeansApplied | src/raftCore/kvServer.cpp:199-266 | In runs in which no command overtakes a snapshot that covers one it skips, the last case is out |
| KvTruth.TruthfulIffNoneMisleads | src/raftCore/kvServer.cpp:151-193 | Exactly when: in any run every table speaks only of what its server executed or loaded, all the time, if and only if no step so far misleads: no executing delivery and no reading Get raises the table over an update of the client that the server has neither executed nor loaded |
| KvTruth.StepTruth | src/raftCore/kvServer.cpp:151-193 | The same for one step of any run, both directions |
| KvTruth.ReceivedTruth | src/raftCore/kvServer.cpp:151-174 | The same for one command taken by a server |
| KvTruth.ReadTruth | src/raftCore/kvServer.cpp:40-49 | The same for a Get handler that reads |
| KvTruth.LackedIsSkipped | src/raftCore/kvServer.cpp:163-174 | After orderly steps the update that is missing lies in the very stretch the delivery skips |
| KvTruth.TimeoutsBackedIffTruthful | src/raftCore/kvServer.cpp:242-246 | A table is truthful exactly when every OK it could give after a timeout is backed by an execution or a loaded snapshot |
| KvTruth.UntruthfulAnswers | src/raftCore/kvServer.cpp:236-246 | Where it is not, a handler that waits and times out gets an OK that nothing backs |
| KvTruth.OkMeansAppliedHere | src/raftCore/kvServer.cpp:199-266 | While no step has misled, every OK comes from a server that executed the request or loaded a snapshot that covers it |
| KvTruth.OrderlyNeverMisleads | src/raftCore/kvServer.cpp:151-193 | No step of an orderly run misleads |
| KvServiceRuns.OvertakenOk | src/raftCore/raft.cpp:454-467 | A run in which a command overtakes a snapshot, and a server answers OK for a request it has neither executed nor loaded |
| KvService.StepInv | src/raftCore/kvServer.cpp:73-349 | Every step keeps the service's invariant, every orderly step the stronger one |
| KvService.ReturnedIsCommitted | src/raftClerk/clerk.cpp:55-93 | A request whose call returned is committed, before any later request of its client |
| KvService.StoreIsReplay | src/raftCore/kvServer.cpp:151-183 | A server with no Get handler and no snapshot installed holds the replay of the commands it has processed |
| KvService.GetLowersTable | src/raftCore/kvServer.cpp:48-48 | A Get handler lowers the table exactly when its request is older than the entry |
| KvService.LateGetRepeatsUpdate | src/raftCore/kvServer.cpp:48-48 | A Get handler between two copies of an update makes the second execute again exactly when the Get is older |
| KvServiceRuns.LateGetExecutesTwice | src/raftCore/kvServer.cpp:48-48 | A run in which one server executes one request twice because of it |
| KvServiceRuns.OldSnapshotExecutesTwice | src/raftCore/kvServer.cpp:342-349 | A run without any handler in which a server loads a snapshot older than its store and executes a request twice |
| KvOnce.StepKnown | src/raftCore/kvServer.cpp:40-49 | While a table knows all its server executed, no step executes anything twice, and a step takes that knowledge away exactly if it is a Get handler reading for a request older than an executed one of its client, or loads a snapshot whose table lacks an executed request |
| KvOnce.KnownIffNoneForgets | src/raftCore/kvServer.cpp:151-193 | Exactly when, over runs: a server knows all it executed, all the time, if and only if no step so far made it forget |
| KvOnce.ExecutedOnceInRuns | src/raftCore/kvServer.cpp:163-174 | While no step has made it forget, a server has executed no request twice |
| KvOnce.ForgottenExecutesAgain | src/raftCore/kvServer.cpp:163-174 | A server that has forgotten a request and has taken all commands executes it again at its next retry |
| ReplicatedStore.StreamsAgree | src/raftCore/raft.cpp:354-375 | In clean disciplined runs two servers that sent up c messages, all commands, sent up the same ones |
| ReplicatedStore.ReplicasAgree | src/raftCore/kvServer.cpp:269-285 | Two servers whose apply loops have taken them hold equal stores and tables, those of replaying the commands from nothing |
| ServiceOrder.StreamsAreLegal | src/raftCore/raft.cpp:354-375 | At any moment of a clean disciplined run there is one log of commands such that what each server was sent, snapshots included, is a sequence the service's own guards allow over it |
| ServiceOrder.StreamIsLegal | src/raftCore/raft.cpp:354-375 | A stream in order over one log passes the guards of delivery and install at every message |
| ServiceOrder.RunSnaps | src/raftCore/raft.cpp:438-464 | In every run the snapshots a server sends up are each newer than those before, up to its own snapshot index |
| KvClerk.Clerk.PutAppend | src/raftClerk/clerk.cpp:55-93 | One new request id for all attempts, the next server after each refusal, stop at the first OK, which is remembered |
| KvClerk.Clerk.Get | src/raftClerk/clerk.cpp:16-50 | The same, stopping also at ErrNoKey, which returns the empty string and remembers nobody |
| KvClerk.RefusedServer | src/raftClerk/clerk.cpp:74-86 | After a refusals attempt a goes to server (first + a) mod n |
| KvClerk.EveryServerAsked | src/raftClerk/clerk.cpp:74-86 | After n refusals every server has been asked |
| TimerModule.TimerManager.AddTimer | src/fiber/timer.cpp:137-145 | At an address no live timer has, the timer goes in at its place, and the owner is woken exactly if it is first and the flag was clear; order and wake-up guarantee are kept |
| TimerModule.TimerManager.AddToSet | src/fiber/timer.cpp:263-283 | The same for the private function |
| TimerModule.TimerManager.Release | src/fiber/timer.cpp:245-258 | A timer outside the set can be freed and its address used again without harm to order or wake-ups |
| TimerModule.TimerManager.Cancel | src/fiber/timer.cpp:47-61 | Succeeds exactly when a callback is set, and what it erases is always in the set |
| TimerModule.TimerManager.Refresh | src/fiber/timer.cpp:65-85 | A new deadline for a timer with a callback; the set keeps its members and its order, and no wake-up is lost though the flag is not set |
| TimerModule.TimerManager.Reset | src/fiber/timer.cpp:90-126 | Period and deadline from now or from the last start, woken exactly if it became first; never fails to find the timer |
| TimerModule.TimerManager.GetNextTimer | src/fiber/timer.cpp:169-189 | The wait up to the earliest deadline; the flag is cleared and the deadline noted |
| TimerModule.TimerManager.DetectClockRollover | src/fiber/timer.cpp:287-301 | Rollover exactly when the clock is behind by more than an hour, or by anything in its first hour, where the subtraction wraps |
| TimerModule.TimerManager.PastDue | src/fiber/timer.cpp:225-234 | Wherever the search lands among equal deadlines, the end found splits the due from the others |
| TimerModule.TimerManager.ListExpiredCb | src/fiber/timer.cpp:193-259 | Without rollover exactly the callbacks due, in deadline order, with it all; recurring timers start again, others lose their callback, the rest is untouched; no wake-up is lost |
| TimerModule.RefreshEarlierIffWraps | src/fiber/timer.cpp:80-83 | A refresh brings a deadline forward exactly when the sum wraps |
| TimerModule.WakeUpLost | src/fiber/timer.cpp:80-83 | A manager in good order whose waiting owner misses an earlier deadline after a refresh that wraps |
| IoModule.IoManager.AddEvent | src/fiber/iomanager.cpp:72-120 | A new registration with its task is entered; a second one for the same event panics; a failed control call changes nothing |
| IoModule.IoManager.DelEvent | src/fiber/iomanager.cpp:122-152 | A standing registration leaves without running |
| IoModule.IoManager.CancelEvent | src/fiber/iomanager.cpp:155-184 | A standing registration leaves by exactly one task, its own |
| IoModule.IoManager.CancelAll | src/fiber/iomanager.cpp:186-221 | Every registration of the descriptor leaves by its own task, READ first, and none is left |
| IoModule.IoManager.Trigger | src/fiber/iomanager.cpp:23-34 | Bit and slot are cleared, the counter falls by one, the slot's task is scheduled |
| IoModule.IoManager.HandleReady | src/fiber/iomanager.cpp:299-340 | One report does to the book what the report function says, or panics where it does |
| IoModule.IoManager.HandleAll | src/fiber/iomanager.cpp:288-341 | The same for a whole batch |
| IoModule.ReadyPanics | src/fiber/iomanager.cpp:304-340 | A report panics exactly when it names an unregistered event beside a registered one, or beside an error while one is registered |
| IoModule.ReportPanics | src/fiber/iomanager.cpp:332-340 | A manager in good order that panics: both events were reported, and WRITE was deleted before the report was handled |
| IoModule.BatchRuns | src/fiber/iomanager.cpp:288-341 | A batch enters nothing, touches no other registration, and schedules one task for each that left |
| IoModule.HandledExactly | src/fiber/iomanager.cpp:304-340 | A report ends exactly the registrations it names, by bit, error or hang-up, each by its own task, READ before WRITE; a failed control call ends none |
| IoModule.Ran | src/fiber/iomanager.cpp:23-34 | Running a registration keeps the book balanced |
| IoModule.LedgerBalances | src/fiber/iomanager.cpp:102-183 | Every registration ever made is pending, or was run by exactly one task, or was deleted: the counts add up |
| IoModule.OpenCount | src/fiber/iomanager.cpp:102-102 | The open entries of the ledger are as many as the registrations that stand |
| IoModule.RunCount | src/fiber/iomanager.cpp:23-34 | The entries run are as many as the tasks |
| RpcFrame.VarintRoundTrip | src/rpc/mprpcchannel.cpp:104-104 | A varint reads back as its number and length, whatever follows |
| RpcFrame.VarintLength | src/rpc/rpcheader.pb.cpp:276-279 | The computed size of a 32-bit varint is its length |
| RpcFrame.ByteSizeIsWritten | src/rpc/rpcheader.pb.cpp:258-287 | The size computed ahead is the number of bytes written |
| RpcFrame.HeaderRoundTrip | src/rpc/rpcheader.pb.cpp:168-256 | A header parses back to itself, elided default fields included |
| RpcFrame.HeaderReadable | src/rpc/rpcheader.pb.cpp:168-256 | A header parses back exactly when both names are short enough for the parser, and else not at all |
| RpcFrame.HeaderShortest | src/rpc/rpcheader.pb.cpp:168-256 | No bytes shorter than a header's own parse to it |
| RpcFrame.OversizeReadsNothing | src/rpc/rpcprovider.cpp:192-214 | A buffer whose size is negative as an int is read as the empty frame, whatever it holds |
| RpcFrame.SmallestOversize | src/rpc/rpcprovider.cpp:192-214 | A 4-byte frame is lost with 2^31 - 4 bytes behind it, and read with one less |
| RpcFrame.FrameRoundTrip | src/rpc/mprpcchannel.cpp:77-112 | Every frame that is sent, with any bytes behind it, decodes to itself if and only if it is the empty frame, or the buffer's size as the receiver's int covers it and is not negative, and both names are short enough for the parser |
| RpcFrame.ArgsCutDropped | src/rpc/rpcprovider.cpp:229-234 | A frame cut short in its arguments is dropped |
| RpcFrame.DecodedArgs | src/rpc/rpcprovider.cpp:214-234 | Whatever is received, the arguments handed on are as many as the parsed header announces, and the bytes right behind it |
| RpcFrame.OneFrame | src/rpc/mprpcchannel.cpp:77-112 | A frame byte by byte, and that its first ten bytes alone are dropped |
| RpcFrame.UnknownSkipped | src/rpc/rpcheader.pb.cpp:204-214 | A field of another number is passed over, for each of the four wire types |
| RpcFrame.NumberParsed | src/rpc/rpcheader.pb.cpp:197-203 | The arguments' size is the low 32 bits of any varint of up to ten bytes, whatever an earlier one said |
| RpcFrame.ServiceParsed | src/rpc/rpcheader.pb.cpp:179-186 | A service name field is read back, whatever an earlier one said |
| RpcFrame.WriteVarint | src/rpc/mprpcchannel.cpp:104-104 | The writing loop makes the varint |
| RpcFrame.Serialize | src/rpc/rpcheader.pb.cpp:225-256 | The buffer becomes the header's bytes |
| RpcFrame.BuildFrame | src/rpc/mprpcchannel.cpp:65-112 | The buffer becomes the frame's bytes; a message of more than INT_MAX bytes is refused and nothing is sent |
| RpcFrame.Parse | src/rpc/rpcheader.pb.cpp:168-223 | The tag loop parses what the parse function does |
| RpcFrame.OnMessage | src/rpc/rpcprovider.cpp:186-234 | The receiver makes of any bytes what the decode function says, failures and oversized buffers included |

## Left out

- Crash recovery: `persist` does nothing here and no server restarts; the persister empties its files when it is made.
- Width of terms and indices: they are unbounded integers, the program's are 32-bit. Timer sums wrap and buffer sizes go through a 32-bit int as in the program.
- Liveness of elections: tickers, sleeps and random timeouts; any enabled step may come next.
- RaftApply.ApplyStream: speaks of the order in which Raft sends up, not of the order in which a snapshot's push thread and the applier reach the apply channel; `KvService` has both orders.
- KvService.OrderlyOkMeansApplied: does not hold of all runs, because Raft pushes snapshots from a thread of their own; `OvertakenOk` is a run, and `TruthfulIffNoneMisleads` the exact condition.
- ReplicatedStore.ReplicasAgree: does not cover Get handlers and pushed snapshots, because both change a store outside the stream of commands, and loading a snapshot stores keys as values.
- KvStore.RetriesIdempotentIffSettled: speaks of every point of the stream; at the end of a stream alone, later commands can hide a difference.
- `leaderUpdateCommitIndex` (never called) and `CondInstallSnapshot` (always true).
- Skip list keys are integers, the map's values strings; locks, destruction and printing are left out. `load_file` stores each key as its value, as written (skipList.h:439).
- Snapshot contents in KvService: the loaded store is arbitrary, the table is that of the server that made the snapshot.
- Append as concatenation: the program overwrites (kvServer.cpp:26).
- Executing at most once in every run: false, by late Get handlers (`LateGetExecutesTwice`) and by snapshots older than the store (`OldSnapshotExecutesTwice`); `KnownIffNoneForgets` is the exact condition.
- KvOnce.ForgottenExecutesAgain: asks that the server has taken every command so far, because those still to come can teach its table again.
- Wait channels: a handler whose channel another handler of the same index has deleted takes no further step here.
- The clerk's loops run over a finite list of answers instead of for ever.
- Timer comparisons with null pointers, and two live timers at one address.
- Fibers, the scheduler's threads, epoll itself, the tickle pipe, locks and memory order.
- Sockets, archives, configuration files, service lookup, and protobuf beyond `RpcHeader`; unknown group fields are rejected here.
