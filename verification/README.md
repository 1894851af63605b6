# Proofs about the linearizability checker, Raft and MapReduce of this repository

The project models three parts of the repository and proves what they are for.

**The linearizability checker** (`src/porcupine`, `src/models/kv.go`). The search
`checkSingle` is modelled with its doubly linked list of nodes that are unlinked and
relinked in place, its undo stack, its bit sets, its table of visited configurations
hashed by bit set, its kill flag and its record of longest partial linearizations. It is
proved to terminate and to answer yes exactly when the history is linearizable. Around it
stand the conversion of operations and of events to entries, the split of a key/value
history by key with the locality theorem that justifies it, the collector of verdicts with
kill flag and timeout, and the replay for the report.

The sort of entries by time is not stable, so a return may come to stand before a call of
the same time, and a linearizable history may be refused (`TieTurnsVerdict`). `Ties.dfy`
says exactly when: every outcome of the sort is accepted iff the operations are *strictly*
linearizable, in an order in which nothing stands before an operation that returned before
its call or at its call; and no outcome turns the verdict iff the operations are strictly
linearizable if they are linearizable at all.

| files | content |
|---|---|
| `Linearizability.dfy`, `Exploration.dfy`, `SearchInvariant.dfy` | what linearizable means; what a search has explored; the invariant of the search |
| `Bitset.dfy`, `DancingList.dfy`, `Checker.dfy`, `Search.dfy` | the data structures and `CheckSingle` |
| `Histories.dfy`, `Ties.dfy`, `Events.dfy` | operations and events become entries; calls and returns at the same time |
| `Locality.dfy`, `KeyOrder.dfy`, `KvModel.dfy`, `KvCheck.dfy` | partitioning by key, and the whole check of a key/value history |
| `Verdict.dfy`, `Visualization.dfy` | `checkParallel` and `computeVisualizationData` |

**Raft** (`src/raft/raft.go`). Each lock region is a function on server states, and a
class performs it in place. A cluster is a transition system over these functions with a
network that loses, delays, reorders and repeats messages. The code relies on five things
that it does not enforce, and they are stated as conditions on the steps of a run
(`RaftSystem.dfy`):

* E1 `SenderLeads`: who sends entries still leads (no check at `raft.go:201-220`);
* E2 `StartAtomic`: `Start` appends in the leadership it has read (two lock regions,
  `raft.go:638-643`);
* E3 `NextPositive`: `nextIndex` is at least 1 at a send (no floor at `raft.go:254` and `257`);
* E4 `MatchFresh`: `matchIndex` is all zero when a leadership begins (`raft.go:497-499`
  resets `nextIndex` only);
* E5 `NoRestart`: nobody restarts with empty memory (`persist` writes nothing, `raft.go:104-113`).

Each theorem asks only for the conditions it needs: none for the bounds of commit and
apply indices and for the full suffix, E1 and E5 for election safety, E1, E2, E3 and E5
for log matching, all five for state machine safety. Without them the properties are false
of the code, and for each condition a complete run shows it: in `RaftLimits.dfy` and
`RaftStaleMatch.dfy` the other four conditions hold and yet a term has two leaders (E1,
E5), two logs hold different commands at the same index and term (E2, E3), or two servers
apply different commands at the same index (E4). These runs take only steps that the code
and `src/labrpc` can take: a ledger (`RaftRuns.dfy`) has every request delivered once, every
reply handled once, every leadership read by `Start` used for one append, and senders only
at servers that have led.

| files | content |
|---|---|
| `RaftServer.dfy`, `RaftSystem.dfy` | one server; the cluster, its actions, its runs, E1 to E5 |
| `RaftRules.dfy` | when a server votes, accepts, commits, applies or steps down, as equivalences |
| `RaftBounds.dfy`, `RaftVotes.dfy`, `RaftLogs.dfy` | what holds with no condition, with E1 and E5, with E1, E2, E3 and E5 |
| `RaftInvariant.dfy`, `RaftFrame.dfy`, `RaftElections.dfy`, `RaftReplication.dfy` | the invariant behind state machine safety and its preservation by every action |
| `RaftSafety.dfy`, `RaftCatchUp.dfy` | the theorems about whole runs; how a diverged follower catches up |
| `RaftRuns.dfy`, `RaftLimits.dfy`, `RaftStaleMatch.dfy` | runs that break the properties when one condition is lifted |

**MapReduce** (`src/mr`, `src/main/mrsequential.go`). The master is a class; master,
workers and files together are a transition system in which tasks are handed out, taken
back after five seconds, executed more than once, abandoned, and reported late or
repeatedly. Once the master says it is done, the output files hold, as a multiset of
lines, what the sequential program prints. The map function may give its records in any
order, and the reduce function must not look at the order of values. Two things are needed
that the code does not check. File names must be distinct; for repeated names the exact
effect is proved (`AgreesExactly`). And a reduce task that is executed a second time reads
its own output, which the pattern `mr-*-r` of `worker.go:85` also matches: every finished
run leaves the right files exactly when that output, read back, never changes what the task
prints (`RereadsExact`). In `OwnOutputCorrupts` it does: the word `null` decodes to an
empty record. And no run gets stuck: from every state, with any workers crashed or late,
the job can still be done, because the master takes tasks back (`FinishesExactly`).

| files | content |
|---|---|
| `MrGroups.dfy`, `MrOutput.dfy`, `MrBuckets.dfy`, `MrWorker.dfy` | grouping, reducing bucket by bucket, what a worker and the sequential program compute |
| `MrMaster.dfy`, `MrScheduler.dfy` | the master and the safety of its scheduling |
| `MrSystem.dfy`, `MrRefinement.dfy` | the whole job, refinement of the sequential program |
| `MrRuns.dfy`, `MrProgress.dfy` | runs put together step by step; every run can be finished |
| `MrRereads.dfy`, `MrLimits.dfy` | when reading its own output does a reduce task harm; where the two programs part ways |

`Collections.dfy` holds facts about lists and sets that several parts share.

## Model

| member | source | states |
|---|---|---|
| `Search.CheckSingle` | src/porcupine/checker.go:174-248 | for every well-formed history and every model whose `Equal` is respected by `Step`, the search ends, and unless the kill flag was seen it answers true iff some order of all operations is accepted and respects real time; every recorded `longest[id]` is a partial linearization with id, after a refusal with `computePartial` it is as long as any, and without `computePartial` a refusal records nothing. The kill flag is looked at before every turn: the search runs on only while it is down, is killed at the first look that finds it up, and a flag raised before the start kills every search of a non-empty history |
| `Search.Setup` | src/porcupine/checker.go:175-184 | the list behind the sentinel is the history in order, with matching returns |
| `Search.TryCall` | src/porcupine/checker.go:189-208 | one turn at a call entry keeps the invariant, the list and the table, and lowers the measure; the operation is pushed, and its configuration recorded, exactly if the model accepts it and the configuration is not known, and otherwise stack, state and table stay |
| `Search.Backtrack` | src/porcupine/checker.go:209-237 | one turn at a return entry takes exactly the last operation off the stack, restores the state and the list, and keeps the invariant; the popped configuration is exhausted; `longest` changes only with `computePartial` |
| `Search.RecordStack` | src/porcupine/checker.go:213-229 | `longest` is replaced for exactly the operations on the stack whose record is missing or shorter |
| `Search.WorkAdvances` | src/porcupine/checker.go:203-208 | moving along the list increases the explicit measure of termination |
| `Search.WorkDeepens` | src/porcupine/checker.go:195-202 | so does pushing an operation |
| `Search.WorkReturns` | src/porcupine/checker.go:230-236 | so does popping one |
| `Search.SuccessorExists` | src/porcupine/checker.go:185-207 | while entries are left a scan that has met no return has a next entry, so `entry` is never nil |
| `SearchInvariant.HitIsTried` | src/porcupine/checker.go:193-205 | skipping a configuration found in the table loses no linearization |
| `SearchInvariant.Push` | src/porcupine/checker.go:195-202 | pushing an operation keeps the search invariant |
| `SearchInvariant.Pop` | src/porcupine/checker.go:230-236 | popping an operation keeps it; the configuration left behind has no completion |
| `Exploration.ReturnExhausts` | src/porcupine/checker.go:209-212 | a configuration whose calls before the first return have all been tried is exhausted |
| `Exploration.PartialIsExtension` | src/porcupine/checker.go:174-248 | the sequences that the search can build are exactly the partial linearizations |
| `Linearizability.CompleteIsLinearization` | src/porcupine/checker.go:239-247 | a partial linearization that leaves nothing out is a linearization |
| `DancingList.Lift` | src/porcupine/checker.go:154-162 | on the heap, call and return leave the list, whose other links skip them; removed nodes keep their links |
| `DancingList.Unlift` | src/porcupine/checker.go:164-172 | the reverse: the list is what it was before the matching lift |
| `DancingList.UnliftUndoesLift` | src/porcupine/checker.go:154-172 | unlift after lift restores every link, adjacent call and return included |
| `DancingList.DancesUnique` | src/porcupine/checker.go:154-172 | what was removed, in which order, determines all links |
| `Checker.InsertBefore` | src/porcupine/checker.go:65-76 | the new links of both neighbours, and no others |
| `Checker.MakeLinkedEntries` | src/porcupine/checker.go:116-133 | the chain holds the entries in order, each call pointing at the return of its id |
| `Checker.ListLength` | src/porcupine/checker.go:78-85 | the number of nodes |
| `Checker.CacheContains` | src/porcupine/checker.go:140-147 | looking in one bucket answers true iff an equal set with an equal state was inserted before |
| `Checker.CacheInsert` | src/porcupine/checker.go:196-197 | the table then stands for one configuration more |
| `Bitset.NewBitset` | src/porcupine/bitset.go:10-17 | the empty set, with room for the positions asked for and less than a word more |
| `Bitset.Clone` | src/porcupine/bitset.go:19-23 | a fresh copy |
| `Bitset.Set` | src/porcupine/bitset.go:29-33 | adds the position to the set |
| `Bitset.Clear` | src/porcupine/bitset.go:35-39 | removes it |
| `Bitset.Get` | src/porcupine/bitset.go:41-44 | membership |
| `Bitset.Popcnt` | src/porcupine/bitset.go:46-52 | the size of the set |
| `Bitset.Hash` | src/porcupine/bitset.go:54-60 | a function of the words, popcount xor all words |
| `Bitset.HashBit` | src/porcupine/bitset.go:54-60 | bit j of the hash is bit j of the size of the set, flipped once for every word with bit j |
| `Bitset.Equals` | src/porcupine/bitset.go:62-72 | true iff both slices have the same length and stand for the same set |
| `Bitset.MembersDetermineWords` | src/porcupine/bitset.go:62-72 | equal sets of equal length are equal words, so equal sets hash alike |
| `Histories.MakeEntries` | src/porcupine/checker.go:43-55 | the entries of all calls and returns, sorted by time, each exactly once |
| `Histories.EntriesFaithful` | src/porcupine/checker.go:43-55 | if the entries are linearizable so are the operations; if no return stands before a call of the same time, the two are equivalent |
| `Histories.NoTiesCallsFirst` | src/porcupine/checker.go:53-53 | that condition holds when no call shares its time with a return |
| `Ties.TiesExact` | src/porcupine/checker.go:43-55 | for every model and all operations that take time: every outcome of the sort is accepted iff the operations are strictly linearizable, and no outcome turns the verdict iff linearizable implies strictly linearizable |
| `Ties.TightLinearizable` | src/porcupine/checker.go:43-55 | strict linearizability is plain linearizability with every return half a tick earlier |
| `Ties.StrictIsStronger` | src/porcupine/checker.go:53-53 | it implies linearizability and is the same when no call shares its time with a return |
| `Ties.TieTurnsVerdict` | src/porcupine/checker.go:53-53 | with a tie the unstable sort may turn a linearizable history into one that is refused |
| `Events.Renumber` | src/porcupine/checker.go:87-101 | ids are renamed injectively onto 0, 1, 2, ... in the order of their first occurrence; nothing else changes |
| `Events.ConvertEntries` | src/porcupine/checker.go:103-114 | event i becomes entry i at time i |
| `Events.EventsWellFormed` | src/porcupine/checker.go:350-358 | paired events give a history that the search accepts |
| `Locality.LocalityTheorem` | src/porcupine/model.go:28-31 | for any model and key function, a history is linearizable against independent copies per key iff the operations of each key are linearizable against one copy |
| `Locality.MergeTimed` | src/porcupine/model.go:28-31 | merging orders by linearization points gives an order that respects real time |
| `KvModel.Partition` | src/models/kv.go:18-34 | one group per key that occurs, in key order, each holding the operations of its key in history order |
| `KvModel.LegalMeaning` | src/models/kv.go:40-54 | an order is accepted by the map iff every operation has input and output and every get reports what was put last to its key, with all that was appended since |
| `KvModel.StoreIsProduct` | src/models/kv.go:35-54 | a map from keys to strings and independent single-string models accept the same orders |
| `KvModel.PartitionSound` | src/models/kv.go:18-54 | a history is linearizable against the map iff every group is linearizable against the single string |
| `KeyOrder.LessMeaning` | src/mr/worker.go:20-20 | the order of strings without recursion: a is before b iff it is a proper prefix, or has the smaller character at the first difference |
| `KeyOrder.SortKeys` | src/models/kv.go:24-28 | the keys in strictly ascending order |
| `KvCheck.CheckPartition` | src/porcupine/checker.go:360-368 | one partition is accepted iff its entries are linearizable; only linearizable operations are accepted, and strictly linearizable ones always |
| `KvCheck.StrictPartition` | src/models/kv.go:18-54 | a history is strictly linearizable against the map iff every group is against the single string |
| `KvCheck.KvTiesExact` | src/porcupine/checker.go:360-368 | however ties are sorted all partitions are accepted: iff the history is strictly linearizable; and they are accepted iff the history is linearizable, however ties are sorted: iff linearizable implies strictly linearizable |
| `KvCheck.KvVerdict` | src/porcupine/checker.go:269-348 | the verdict on a whole key/value history, under every scheduling and every order of ties: Ok is always right, a strictly linearizable history is never refused and without a timeout accepted, and without ties strictly linearizable is linearizable |
| `Verdict.VerdictTheorem` | src/porcupine/checker.go:269-348 | for every arrival order and every timeout: Ok means all partitions are linearizable, Illegal that one was searched to its end and refused, Unknown that the timeout struck |
| `Verdict.VerdictExact` | src/porcupine/checker.go:287-348 | the verdict as a function of what was received: Illegal iff a refusal was, else Unknown iff the timeout was, else Ok |
| `Verdict.ReportWaits` | src/porcupine/checker.go:293-316 | the kill flag is up iff the timeout struck or, without a report, a refusal was received; with a report the collector waits for every partition, and without a timeout each is searched to its end |
| `Verdict.NoPartitions` | src/porcupine/checker.go:287-305 | without partitions only a timeout ends the collector |
| `Visualization.Collect` | src/porcupine/checker.go:317-332 | the set of recorded linearizations |
| `Visualization.SortByLength` | src/porcupine/visualization.go:59-61 | a permutation with longer ones first |
| `Visualization.Replay` | src/porcupine/visualization.go:55-79 | panics iff some partial is not accepted by `Step`; otherwise shows the model's state after every operation, and `Largest` points for each id at the first of the longest partials that hold it |
| `Visualization.CheckAndReport` | src/porcupine/visualization.go:54-79 | search, record and replay: the replay never panics, whether the search accepted, refused or was killed; after an acceptance `Largest` points at linearizations, after a refusal at partial linearizations of maximal length, and without partials a refusal shows nothing; the kill flag stops it as it stops the search |
| `RaftServer.Raft.constructor` | src/raft/raft.go:691-704 | a fresh follower with the placeholder entry |
| `RaftServer.Raft.StartElection` | src/raft/raft.go:805-817 | the new server state, as the function that the cluster uses |
| `RaftServer.Raft.HandleVote` | src/raft/raft.go:538-576 | new state and reply |
| `RaftServer.Raft.HandleVoteReply` | src/raft/raft.go:473-509 | new state and vote count |
| `RaftServer.Raft.HandleAppend` | src/raft/raft.go:266-388 | new state and reply; failure iff the code indexes outside its log |
| `RaftServer.Raft.MergeEntries` | src/raft/raft.go:342-362 | the two-pointer loop computes the merge |
| `RaftServer.Raft.HandleAppendReply` | src/raft/raft.go:222-259 | new state; failure iff the code indexes out of range |
| `RaftServer.Raft.CountHolders` | src/raft/raft.go:239-252 | the number of servers known to hold the index |
| `RaftServer.Raft.ApplyNext` | src/raft/raft.go:772-784 | new state and the command sent, if any |
| `RaftRules.VoteRule` | src/raft/raft.go:538-576 | a vote is granted iff the request is not older, the candidate's (last term, last index) is lexicographically at least the voter's or the voter has no entries, and no one else has the vote of the term; and what changes |
| `RaftRules.CandidateRule` | src/raft/raft.go:419-437 | the request that a candidate makes is granted by comparing the two logs |
| `RaftRules.LongerIsUpToDate` | src/raft/raft.go:555-561 | a log that continues the voter's is up to date |
| `RaftRules.UpToDateIsTotal` | src/raft/raft.go:555-561 | of any two logs one is up to date for the other, and both are only if they end alike |
| `RaftRules.UpToDateIsTransitive` | src/raft/raft.go:555-561 | being up to date is passed on |
| `RaftRules.CampaignRule` | src/raft/raft.go:805-817 | everyone but a leader campaigns, in the next term and with its own vote |
| `RaftRules.VoteReplyRule` | src/raft/raft.go:473-509 | a reply counts iff sent to a candidate still in that term; a candidate leads iff the granted votes are a majority and steps down iff a refusal has a higher term; a new leader starts with nextIndex behind its log |
| `RaftRules.SendRule` | src/raft/raft.go:201-220 | a request holds the log from nextIndex on, the index and term before it, and the sender's term and commit index |
| `RaftRules.AppendRule` | src/raft/raft.go:266-388 | an older request is refused and changes nothing; another is accepted iff the log has the term at PrevLogIndex, or entries are sent from the start; it makes the receiver a follower of its sender |
| `RaftRules.AcceptedRule` | src/raft/raft.go:310-377 | the log and the commit index after an accepted request |
| `RaftRules.AppendReplyRule` | src/raft/raft.go:222-233 | a reply to a request of the own term deposes iff its term is higher, and one to a request of another term does nothing |
| `RaftRules.RefusalRule` | src/raft/raft.go:253-258 | a refusal lowers nextIndex by one, an accepted heartbeat changes nothing |
| `RaftRules.CommitRule` | src/raft/raft.go:234-252 | confirmed entries are committed iff they are above the commit index, of the own term, and held by a majority as a set of servers |
| `RaftRules.TermsAreAdopted` | src/raft/raft.go:540-542 | whoever handles a request is in no lower term afterwards |
| `RaftRules.ApplyRule` | src/raft/raft.go:772-784 | a command is sent iff something committed is unsent, and it is the next one |
| `RaftServer.MergeForm` | src/raft/raft.go:342-362 | the merge keeps the longest agreeing piece and, if entries remain, cuts there and appends them |
| `RaftServer.MergeMeaning` | src/raft/raft.go:337-362 | index 0 and all below the insertion point are untouched, all sent terms are there, and entries are dropped only at a term conflict |
| `RaftServer.MergeIdempotent` | src/raft/raft.go:337-362 | redelivery changes nothing |
| `RaftBounds.BoundsTheorem` | src/raft/raft.go:227-252 | in every run of the code the commit index lies inside the log and the applier reads inside it |
| `RaftBounds.ApplierTheorem` | src/raft/raft.go:768-784 | over any stretch of a run in which a server does not restart its term never falls, what it has applied stays, and each further command is its log entry of the next index when it is sent |
| `RaftBounds.FullSuffixTheorem` | src/raft/raft.go:204-219 | in every run of the code, every request in flight has LeaderCommit <= PrevLogIndex + len(Entries) |
| `RaftVotes.WinsOnce` | src/raft/raft.go:479-501 | whoever gathers a majority wins a term that has no leader yet |
| `RaftVotes.NextKeepsVotes` | src/raft/raft.go:300-336 | every action that keeps E1 and E5 keeps the invariant on terms, votes and roles, although accepting entries overwrites the vote of the same term |
| `RaftSafety.ElectionSafetyTheorem` | src/raft/raft.go:473-509 | under E1 and E5 a term has at most one leader over the whole run |
| `RaftLogs.NextKeepsLogs` | src/raft/raft.go:206-219 | every action that keeps E1, E2, E3 and E5 keeps the invariant on logs |
| `RaftSafety.LogMatchingTheorem` | src/raft/raft.go:337-362 | under E1, E2, E3 and E5, logs with the same term at an index are identical up to it |
| `RaftSafety.AcceptTheorem` | src/raft/raft.go:337-377 | under the same conditions an accepted request leaves the receiver with its own log, if that holds all that was sent, and else the sender's up to the last entry sent, and with the sender's commit index |
| `RaftSafety.HeartbeatTheorem` | src/raft/raft.go:310-325 | an accepted heartbeat leaves the log alone, the logs agree up to PrevLogIndex, and a new commit index is the sender's and lies within |
| `RaftSafety.AcceptsExactly` | src/raft/raft.go:300-381 | under the same conditions a request that is not older is accepted iff the receiver's log agrees with the sender's up to PrevLogIndex; the commit index is then LeaderCommit, except that a heartbeat does not lower it |
| `RaftCatchUp.CatchesUp` | src/raft/raft.go:201-259 | however far a follower's log has diverged, it takes exactly as many exchanges as nextIndex lies above the agreed part, and one more, until it holds the leader's log; an own log that extends the leader's is kept |
| `RaftCatchUp.CatchUpRun` | src/raft/raft.go:201-388 | every run under E1 to E5 can be continued so that a server in no later term than a leader whose nextIndex is at least 1 holds its log and has committed what it had |
| `RaftInvariant.LeaderCompleteness` | src/raft/raft.go:555-561 | what is committed in a term is in the log of every later leader |
| `RaftReplication.MajorityHolds` | src/raft/raft.go:237-252 | the count of the leader is a majority of servers that really hold the entry |
| `RaftReplication.SendOk` | src/raft/raft.go:201-220 | a leader's request is a piece of its log that reaches to its end |
| `RaftReplication.MergeLeader` | src/raft/raft.go:337-362 | the merged log is the old one, if it holds all that was sent, and else the leader's up to the last entry sent |
| `RaftElections.HandleAnswerKeeps` | src/raft/raft.go:473-509 | counting a vote keeps the invariant of state machine safety |
| `RaftReplication.HandleAppendKeeps` | src/raft/raft.go:266-388 | so does handling a request, with its own rules for the vote and the commit index |
| `RaftReplication.HandleAckKeeps` | src/raft/raft.go:222-259 | so does handling a reply and committing |
| `RaftSafety.NextKeepsInv` | src/raft/raft.go:181-649 | every action that keeps E1 to E5 keeps that invariant |
| `RaftSafety.StateMachineSafety` | src/raft/raft.go:768-784 | under E1 to E5 no two servers ever send different commands for the same index |
| `RaftSafety.CommittedPrefixesAgree` | src/raft/raft.go:371-375 | under E1 to E5 logs agree as far as both have committed |
| `RaftLimits.GoodRunApplies` | src/raft/raft.go:181-818 | a run under E1 to E5 in which a leader is elected, commits a command, and two servers apply it |
| `RaftLimits.StaleSenderBreaksElectionSafety` | src/raft/raft.go:201-220 | without E1: a run in which a term has two leaders |
| `RaftLimits.LateStartBreaksLogMatching` | src/raft/raft.go:638-643 | without E2: a run that ends with different commands at the same index and term |
| `RaftLimits.LowNextBreaksLogMatching` | src/raft/raft.go:254-257 | without E3: another such run |
| `RaftLimits.NextIndexFloor` | src/raft/raft.go:206-219 | the sender panics iff nextIndex is negative or beyond its log, and with nextIndex 0 the receiver ends with the sender's terms shifted by one |
| `RaftStaleMatch.StaleMatchBreaksStateMachineSafety` | src/raft/raft.go:497-499 | without E4: a run of five servers in which two apply different commands at the same index |
| `RaftLimits.RestartBreaksElectionSafety` | src/raft/raft.go:104-113 | without E5: a run in which a term has two leaders |
| `MrGroups.ReduceOnePass` | src/mr/worker.go:119-143 | one line per run of equal keys, in order |
| `MrGroups.ReduceNested` | src/main/mrsequential.go:68-84 | the same lines from the nested scan |
| `MrOutput.SortedGroups` | src/mr/worker.go:119-143 | on sorted records: one group per key, keys ascending, with all values of the key |
| `MrGroups.UngroupGroups` | src/mr/worker.go:119-143 | the groups put back together are the input |
| `MrBuckets.BucketsTheorem` | src/mr/worker.go:66-73 | reducing bucket by bucket prints, as a multiset, the lines of reducing everything at once |
| `MrBuckets.ReducedUnique` | src/mr/worker.go:119-143 | with an order-free reduce function the output does not depend on how equal keys were sorted |
| `MrWorker.PartitionRecords` | src/mr/worker.go:54-73 | bucket r holds exactly the records that hash to r, in order; with no reduce tasks the first record panics |
| `MrWorker.ReduceBox` | src/mr/worker.go:110-143 | nothing for an empty box, else the reduced lines of its records |
| `MrWorker.SortByKey` | src/mr/worker.go:119-119 | a sorted permutation |
| `MrWorker.Sequential` | src/main/mrsequential.go:38-84 | the reduced lines of the records of all files |
| `MrMaster.Master.constructor` | src/mr/master.go:169-192 | all tasks fresh; a repeated name keeps its last position as map id |
| `MrMaster.TaskTables` | src/mr/master.go:171-185 | the tables of map tasks and of map ids |
| `MrMaster.Master.TaskFinish` | src/mr/master.go:37-46 | the new state; panics iff the number of a reduce task is out of range |
| `MrMaster.Master.GiveTask` | src/mr/master.go:47-93 | new state and reply, for some name that ranging over the map can come to |
| `MrMaster.Master.MIsFinished` | src/mr/master.go:95-112 | one unfinished task is looked at and taken back if too old, or the stage is closed |
| `MrMaster.Master.RIsFinished` | src/mr/master.go:113-130 | the same for the first unfinished reduce task |
| `MrScheduler.TaskStep` | src/mr/master.go:37-130 | what one call may do to one task: finish it when it is reported, run it when it is handed out, free it when it is too old, and nothing else |
| `MrScheduler.MapAskRule` | src/mr/master.go:55-112 | an ask in the map stage: a fresh task is handed out iff there is one; the stage is closed iff all are finished; else one unfinished task is looked at and becomes fresh iff it has run for more than five seconds; nothing else moves |
| `MrScheduler.OverdueMapReturns` | src/mr/master.go:95-112 | when no task is fresh and every unfinished one has run too long, one of them is fresh after the ask |
| `MrScheduler.ReduceAskRule` | src/mr/master.go:74-130 | the same for the reduce stage, where the first fresh task is handed out and the first unfinished one is looked at |
| `MrScheduler.FinishedForever` | src/mr/master.go:37-46 | finished is absorbing |
| `MrScheduler.ReportedNeverAgain` | src/mr/master.go:47-93 | a reported task is never handed out again |
| `MrScheduler.ReduceAfterMaps` | src/mr/master.go:74-85 | no reduce task is handed out before every map task was reported |
| `MrScheduler.HandedOutAgain` | src/mr/master.go:102-125 | between two hand-outs of a task it was taken back, more than five seconds after the first |
| `MrScheduler.DoneMeansReported` | src/mr/master.go:152-162 | `rdone` implies `mdone`, and done implies that every task was reported |
| `MrScheduler.WorkerIdsDistinct` | src/mr/master.go:50-53 | workers that ask without an id get different ids, none of them 0 |
| `MrRefinement.NextKeeps` | src/mr/worker.go:171-207 | every step of master, workers and files keeps the invariant of the job |
| `MrRefinement.GlobFindsAll` | src/mr/worker.go:83-105 | a reduce task finds one file of every map task, whatever is still being renamed |
| `MrRefinement.RefinementTheorem` | src/mr/master.go:37-130 | for every run: once done, the lines of all outputs are those of reducing the records of all named files |
| `MrRefinement.RefinesSequential` | src/main/mrsequential.go:38-84 | with distinct names that is the output of the sequential program |
| `MrProgress.FinishesExactly` | src/mr/master.go:37-130 | for every job: every run, whatever workers crashed or were too slow, can be continued until the job is done, iff no file name is empty and, without reduce tasks, no file has records; and otherwise no run gets there |
| `MrProgress.MapRetried` | src/mr/master.go:95-112 | from any state of the map stage an unfinished task can be handed out once more |
| `MrProgress.CrashedMapIsRetried` | src/mr/master.go:95-112 | for every job and file: a run in which the worker with its map task crashes, the task is handed out again, and the job finishes |
| `MrRereads.RereadsExact` | src/mr/worker.go:83-105 | every finished run leaves the files that the records call for iff no reduce output, read back by a second execution, changes what the task prints |
| `MrRereads.RereadRun` | src/mr/worker.go:83-167 | for every job, reduce task and output: a run in which the task is executed twice and the job finishes with what the second execution prints |
| `MrLimits.AgreesExactly` | src/mr/master.go:173-185 | for a counting application a finished job agrees with the sequential program iff no file name is given twice |
| `MrLimits.OwnOutputCorrupts` | src/mr/worker.go:83-105 | a run in which a repeated reduce task reads its own output and prints a line too many |

## Left out

- `src/kvraft`, `src/shardkv` and `src/shardmaster`: their handlers are empty, so there is no behaviour to state.
- `src/labrpc`: only what it does to messages enters the Raft model. In the theorems requests and replies stay available and may be delivered repeatedly, which is more than the package allows; a vote still counts once per call, as one goroutine handles one reply.
- `src/labgob` and the JSON encoding of records: encoding and decoding are taken to give back the record. What the decoder makes of a reduce output is a parameter of a job.
- Persistence: `persist` and `readPersist` do nothing, so a restart is a fresh server; safety across restarts is false (`RestartBreaksElectionSafety`).
- Timers, sleeping and random timeouts: they decide when a step is taken and are left free, so nothing is said about what must happen in the end, only about what can still happen (`MrProgress.FinishesExactly`, `RaftCatchUp.CatchUpRun`). A server may ask for votes at any time, not only after starting an election.
- Memory effects of goroutines: in Raft and in the master the steps are the lock regions; in `checkParallel` they are sends, receives and looks at the kill flag.
- HTML and JavaScript of the report, `Visualize` and `VisualizePath`, its table of operations with their times, descriptions of operations and states.
- Testers, scripts, the other programs under `src/main` and the plugins under `src/mrapps`.
- The FNV hash: any function from keys to natural numbers.
- Machine words of the bit sets are sequences of 64 bits, and integers elsewhere are unbounded.
- Search.CheckSingle: a cached bit set is a copy of the words and not a shared array, which the code never writes either; `longest` holds sequences and not pointers to them. Visited entries are well-formed histories only: every id 0..n-1 has one call followed by one return. The model's `Equal` must be respected by `Step`.
- Visualization.Collect: equal linearizations behind different pointers are listed once and not several times.
- Histories.EntriesFaithful: the equivalence is stated for entries in which no return stands before a call of the same time; the exact condition on the operations is in `Ties.TiesExact`.
- RaftServer.Raft.CountHolders: counts to the end of the slice, where the code stops at a majority whose entry is of the current term; the commit index is the same.
- MrRefinement.RefinesSequential: `mr-out-r` is kept apart from the intermediate files except that a reduce task whose pattern matches it reads it through `parse`. Temporary files live in another directory and are not modelled, and a failed open, read or rename ends the worker.
- MrRereads.RereadsExact: for jobs without an empty file name; a worker that is handed one sleeps (`worker.go:187`), so such a job never finishes (`MrProgress.FinishesExactly`).
- MrMaster.Master.GiveTask: the moment is read once per call; the code reads the clock at most once on each path.
