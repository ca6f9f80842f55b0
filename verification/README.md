# raftkv in Dafny

A model of raftkv, a replicated key-value store written in Go, and proofs about it: the Raft core
(`internal/raft`), the log and state files it keeps, the single-node storage engine
(`internal/storage`), the deduplicating key-value state machine (`internal/kvraft`) and the oracle of
its fault-injection workload (`internal/nemesis`).

`dafny verify dfyconfig.toml` checks the whole project.

## How the model is built

**The core.** `RaftCore` has one function for each method of the source's `core`, from states to
states, with the same branches, edge cases and constants. A Go run-time panic, or an error that stops
the event loop, sets `halted`. `CoreImpl` and `NodeImpl` hold the methods of the source that loop over
the log, the peers or the waiters, as loops on fields updated in place, proved to compute those functions.

**The cluster.** `Cluster` puts nodes on a network that may lose, duplicate, delay and reorder
messages. A run is any sequence of events: election timeouts, heartbeats, message receipts, client
proposals and reads, leadership transfers, snapshots, crashes and restarts, crashes in the middle of a
term, vote or log write included. `Exec` gives the state after a run and `At` the state after its first i
events. Every cluster result below is about every run.

**The proof.** `Ledger` is a book of what was ever elected, accepted and chosen, and holds the argument
of the Raft paper. `Trail` adds the reads. `CoreSim`, `VoteSim`, `LeaderSim`, `FollowerSim` and
`SnapshotSim` show that every handler is a step of such a book; `ClusterSim` lifts that to runs, and
`Safety`, `Outcomes`, `Delivery`, `Linearizable` and `Replicas` read the results off it.

**The disk.** `ByteCode`, `Record`, `LogFile`, `DurableFiles`, `KvCommand` and `Store` work on bytes.
The checksum is a parameter, so nothing depends on which function it is.

## Findings

Four places where the code does not do what its comments or its callers expect. Each is stated with
the exact condition, and the first two with a run that reaches it.

1. **A rewinding install** (internal/raft/replication.go:186-188 with internal/raft/raftsnap.go:152).
   An append that carries a higher commit index than it has entries for pulls a follower's commit index
   back. A snapshot above that index and below what the follower has delivered then passes the test
   that the comment calls "stale": the state machine goes back, the delivery cursor does not, and the
   entries between the two are never applied again. `deliverCommitted` promises delivery exactly once.
   `Delivery.GaplessIff` shows that this is the only way to break that promise, and
   `Rewind.RewindHappens` gives a run of three nodes that ends in it.
2. **A halting append** (internal/raft/replication.go:166-176 with 198-205). A node that has compacted
   past index 1 and receives an append that starts at index 1, for example a late copy of its first one,
   takes its entries for a contradiction of committed ones and stops. `Outcomes.HaltsIffRefusing` shows
   that this is the only event after which a running node stops, and `Rewind.HaltHappens` gives a run.
3. **A crash between snapshot and log rewrite** (internal/raft/raftsnap.go:110-121). The comment there
   calls it harmless. Opening the log against the new base refuses any non-empty file
   (internal/raft/log.go:95-100), so the node does not start again: `LogFile.SnapshotBeforeRewrite`.
4. **Oversize records** (internal/raft/log.go:139-174, internal/storage/wal.go:50-53, 102-125 and 178-219,
   internal/storage/store.go:153-201). The append paths check no size, and replay stops at the first
   record over its bound. A batch of log entries is read back if and only if no command in it is over
   64 MiB: `LogFile.BatchReadBackIff`. In the storage engine an acknowledged command whose key and value
   are together over the bound survives if and only if its record takes the active segment to the
   snapshot threshold, which at the default threshold it always does: `Store.SurvivesIff`. But then the
   old segments end in a record that replay cannot read, and from the rotation until the last of them is
   removed a crash leaves a directory that does not open any more: `Store.OversizeRotated`. The limits in
   internal/server/server.go:22-23 keep such sizes from the standalone server, so only direct callers of
   the package reach this half.

## Model

| member | source | states |
|---|---|---|
| `Safety.ElectionSafety` | internal/raft/core.go:348-482 | any two nodes that lead the same term, at any two moments of any run, restarts, pre-votes and forced elections included, are the same node |
| `Safety.LogMatching` | internal/raft/replication.go:143-180 | the logs of any two nodes at any two moments of any run, compacted prefixes included, that hold the same term at an index are identical through that index |
| `Safety.LogsAreOrdered` | internal/raft/replication.go:198-230 | every log in every run is numbered from 1 without gaps, its terms are positive, never fall along the log and never exceed the node's term |
| `Safety.LeadersAreComplete` | internal/raft/core.go:379-432 | whatever any node knows to be committed or has delivered in some term is a prefix of the log of every leader of every later term, at every moment of its leadership |
| `Safety.CommittedAgree` | internal/raft/replication.go:287-337 | the delivered prefixes of any two nodes at any two moments of any run are prefixes of one another |
| `Safety.MatchIndexSound` | internal/raft/replication.go:235-260 | from the moment a leader records a matchIndex for a peer, the peer's durable log agrees with the leader's that far for as long as the peer stays in that term, crashes included |
| `Ledger.LeaderCompleteness` | internal/raft/core.go:424-432 | what a majority has accepted from the leader of one term is in the log of every leader of a later term from its election on |
| `Ledger.LogsMatch` | internal/raft/replication.go:143-159 | any two logs in the book that agree on the term of one entry agree on everything up to it |
| `Outcomes.StateMachineSafety` | internal/raft/node.go:399-416 | entries applied at one index by any nodes, in any of their incarnations, anywhere in any run, are equal |
| `Outcomes.ProposeOkIsTrue` | internal/raft/node.go:399-416 | a proposal reported as applied carries the proposer's command, and no node ever applies a different entry at its index |
| `Outcomes.ProposeLostIsTrue` | internal/raft/replication.go:30-34 | a proposal reported as lost is applied by no node, before or after the report |
| `Outcomes.ReadIndexCovers` | internal/raft/readindex.go:54-108 | a read that is answered is answered at an index at or above everything that any node had committed, delivered or applied when the read was asked |
| `Outcomes.HaltsIffRefusing` | internal/raft/replication.go:198-205 | in every run a running node stops in a step if and only if the step brings it, from the leader of its term or a later one, an append that starts at index 1 although it has compacted past index 1 |
| `Delivery.GaplessIff` | internal/raft/raftsnap.go:130-187 | in a run every state machine always equals its node's delivered prefix, and every snapshot the prefix it replaces, if and only if no event installs a snapshot that is acceptable, above the receiver's commit index and below its delivery cursor |
| `Delivery.HandsOver` | internal/raft/replication.go:312-337 | what a step other than an install or a compaction queues for the state machine is exactly the stretch of the log that the delivery cursor moved over, and what lay below is unchanged |
| `Delivery.InstallFinish` | internal/raft/raftsnap.go:133-187 | installing a snapshot leaves the state machine equal to the delivered prefix if and only if the snapshot does not lie below the delivery cursor |
| `Rewind.RewindHappens` | internal/raft/replication.go:182-189 | for any two commands that fill a message there is a run of three nodes whose last event is a rewinding install, after which a state machine is not its node's delivered prefix |
| `Rewind.HaltHappens` | internal/raft/replication.go:161-180 | there is a run of three nodes whose last event stops a running node |
| `Linearizable.AppliesExactlyOnce` | internal/raft/replication.go:312-337 | between two moments of one incarnation in which a node installs no snapshot (it may receive stale ones), its state machine has been handed exactly the entries between the two delivery cursors, each once and in order, however its commit index moved |
| `Linearizable.StateMachinesAgree` | internal/raft/node.go:374-416 | in a run without rewinding installs, of any two state machines at any two moments one has applied a prefix of what the other has |
| `Linearizable.AlwaysBehind` | internal/raft/node.go:374-416 | in every run no running node has applied more than it has delivered |
| `Linearizable.AnsweredOnceApplied` | internal/raft/node.go:452-482 | in every run a read is answered only by a running node that has by then applied everything up to the index the read was given |
| `Linearizable.HoldsApplied` | internal/raft/node.go:374-416 | a state machine that equals its node's delivered prefix and reaches the index of an entry applied anywhere holds that entry there |
| `Linearizable.ReadsAreLinearizable` | internal/raft/readindex.go:54-108 | in a run without rewinding installs, when a read is answered the answering state machine holds, at its index, every entry any node had applied before the read was asked |
| `Replicas.ReplicasAgree` | internal/kvraft/statemachine.go:67-94 | in a run without rewinding installs, the key-value contents of the node that has applied more follow from those of the other by the commands it has yet to apply |
| `Replicas.ReadsSeeAcknowledgedWrites` | internal/raft/node.go:671-690 | in a run without rewinding installs, a read asked after a write was acknowledged is answered from contents that include the write |
| `Scans.CommitScanIsSearch` | internal/raft/replication.go:293-310 | on every reachable core the early-exit scan moves the commit index exactly when some current-term index above it is held by a majority, and then to the greatest such index |
| `Scans.TermScanIsSearch` | internal/raft/replication.go:355-365 | on every reachable core the early-exit scan finds the greatest visible index of a term, and 0 exactly when there is none |
| `Scans.ReachableOrdered` | internal/raft/core.go:257-289 | every core in every run sees positive terms that never fall at and above its snapshot, and none below |
| `Scans.CompactionNeverShows` | internal/raft/raftsnap.go:92-128 | in every run, a node given an append that starts at or above its snapshot does with it what it would have done had it never compacted, and answers the same unless the answer names a conflicting term; then only the hint differs, as the next row says |
| `Compaction.CompactionInvisible` | internal/raft/replication.go:118-193 | a compacted core and its uncompacted twin stay twins and answer such an append alike, but that where a conflicting term is named the index of its first entry is the larger of the twin's and the snapshot's |
| `Compaction.CompactStutters` | internal/raft/raftsnap.go:96-128 | compacting changes nothing about the uncompacted twin |
| `Compaction.VotesAlike` | internal/raft/core.go:379-432 | a compacted core grants and refuses votes as its uncompacted twin does |
| `Compaction.BelowSnapshotRejected` | internal/raft/replication.go:148-159 | an append that starts strictly between index 0 and the snapshot is rejected and stores nothing |
| `Repair.AcceptsIff` | internal/raft/replication.go:148-159 | a follower accepts a leader's append if and only if it starts within the longest common prefix of the two logs |
| `Repair.HintAboveAgreement` | internal/raft/replication.go:262-275 | the index a conflict hint leads to is always above that common prefix |
| `Repair.RejectionLowers` | internal/raft/replication.go:262-284 | a rejection moves nextIndex strictly down and never to or below the common prefix |
| `Repair.RepairConverges` | internal/raft/replication.go:235-284 | exchanging appends and answers ends, within a bounded number of rounds, with the leader's whole log merged into the follower's, nothing before the first difference touched, and matchIndex at the end |
| `CoreImpl.CountIsHolders` | internal/raft/replication.go:294-303 | counting the leader and the peers one by one comes to the size of the set of members that hold the index |
| `CoreImpl.Core.FindCommit` | internal/raft/replication.go:293-310 | the loop with its early exits computes the recursive scan |
| `CoreImpl.Core.MaybeAdvanceCommit` | internal/raft/replication.go:293-310 | the new commit index, cursor and queue are those of the specification, and nothing else changes |
| `CoreImpl.Core.DeliverCommitted` | internal/raft/replication.go:314-337 | the loop queues exactly the slice of the log above the cursor, or stops where an index would be out of range |
| `CoreImpl.Core.GatherBatch` | internal/raft/replication.go:100-111 | the loop takes the entries from a position on until their payload fills one message, and at least one |
| `CoreImpl.Core.BroadcastAppends` | internal/raft/replication.go:59-63 | the loop over the peers sends each its next batch, numbered in order |
| `CoreImpl.Core.FindNew` | internal/raft/replication.go:165-171 | the loop finds the first entry of a batch that the log does not hold |
| `CoreImpl.Core.FirstIndexOfTerm` | internal/raft/replication.go:347-353 | the loop finds where the run of equal terms below an index starts |
| `CoreImpl.Core.LastIndexOfTerm` | internal/raft/replication.go:355-365 | the loop with its early exits computes the recursive scan |
| `CoreImpl.Core.NoteFreshAck` | internal/raft/readindex.go:82-95 | the loop credits exactly the pending reads whose round the answer belongs to, and confirms only if there is one |
| `CoreImpl.Core.ConfirmReads` | internal/raft/readindex.go:97-110 | the loop splits the pending reads into those with a majority, reported in order, and the rest, kept in order |
| `NodeImpl.Loop.FireAppliedWaiters` | internal/raft/node.go:469-482 | the loop answers exactly the waiting reads whose index is applied, in order, and keeps the rest |
| `NodeImpl.Loop.ApplyCommitted` | internal/raft/node.go:374-416 | the loop applies the queue in order, answering each waiting proposal by whether its term matches |
| `NodeImpl.Loop.ResolveReads` | internal/raft/node.go:452-467 | the loop answers each confirmed read at once or parks it until its index is applied |
| `ByteCode.GetPut` | internal/raft/log.go:139-174 | reading back a little-endian number gives it modulo the width |
| `ByteCode.PutGet` | internal/raft/log.go:86-91 | writing back a little-endian number that was read gives the bytes |
| `Record.ParseFrame` | internal/record/record.go:40-68 | a framed payload is read back, whatever follows it, if and only if it is not over the bound |
| `Record.ParseTorn` | internal/record/record.go:50-68 | no proper prefix of a record is read as a record |
| `Record.ParseIsFrame` | internal/record/record.go:50-68 | bytes that are read as a record start with the frame of what was read |
| `Record.CutReads` | internal/record/record.go:40-68 | after any cut of a run of records exactly its whole records can be read, for every checksum function |
| `LogFile.MemoryAgrees` | internal/raft/replication.go:195-219 | truncating and appending in memory gives the log that replaying the file's supersede rule gives |
| `LogFile.FileIs` | internal/raft/log.go:73-128 | after any history of appends and rewrites the file is the image of what was written, and folding it gives the log in memory |
| `LogFile.CrashRecovers` | internal/raft/log.go:73-128 | after any history and a crash at any byte of a further batch, opening gives the log in memory with the batch's whole entries applied, and cuts the file where that log's file ends |
| `LogFile.CutFileIs` | internal/raft/log.go:112-116 | what recovery keeps of the file is exactly the file of the recovered log |
| `LogFile.CleanRecovers` | internal/raft/log.go:73-128 | without a crash opening gives back the log in memory |
| `LogFile.HistoryContinues` | internal/raft/log.go:112-128 | a recovered log is the log of a history, so recovery may be followed by more of the same |
| `LogFile.SnapshotBeforeRewrite` | internal/raft/raftsnap.go:110-121 | after a crash between a durable snapshot above the file's base and the rewrite of the log, opening is refused if and only if the file holds anything, which is so whenever the snapshot covers an entry of the log |
| `LogFile.BatchReadBackIff` | internal/raft/log.go:139-174 | a fully written batch is fully read back if and only if none of its commands is over 64 MiB |
| `LogFile.LogStore.Append` | internal/raft/log.go:139-174 | the file grows by the image of the batch, written as one |
| `LogFile.LogStore.Rewrite` | internal/raft/log.go:185-215 | the file becomes the image of the entries |
| `LogFile.OpenLog` | internal/raft/log.go:73-128 | the loop with its checks computes the fold: the entries and where valid data ends, or a refusal |
| `DurableFiles.VoteLoadsIff` | internal/raft/state.go:37-72 | a term and vote are loaded from a file if and only if the file is what saving them writes |
| `DurableFiles.SnapshotLoadsIff` | internal/raft/raftsnap.go:37-90 | a snapshot is loaded from a file if and only if the file is what saving it writes |
| `KvCommand.DecodesIff` | internal/storage/command.go:42-81 | bytes decode to a command if and only if they are its encoding and it is well formed |
| `KvCommand.UnwrapsIff` | internal/kvraft/statemachine.go:32-50 | bytes unwrap to a session envelope if and only if they are its encoding |
| `Store.OpenRecovers` | internal/storage/store.go:45-101 | opening a directory gives exactly the map of the commands it stands for, whatever unreadable tail it ends in, and leaves a directory that stands for them without one |
| `Store.AlwaysRunning` | internal/storage/store.go:153-201 | every step of every run, each file operation of a snapshot and crashes between them included, keeps the directory standing for the acknowledged commands; a write over the replay bound is not a step of such a run |
| `Store.Durable` | internal/storage/store.go:123-201 | after any run of writes, deletes, snapshots and crashes, crashes at any byte of a record included, the store holds exactly the map that the acknowledged commands make, and so does a store opened on its directory; writes over the replay bound do nothing in such a run |
| `Store.SurvivesIff` | internal/storage/store.go:153-175 | on any running store, a command of any size that has been acknowledged survives a restart if and only if its key and value are together within the replay bound or its record took the active segment to the snapshot threshold; what was acknowledged before survives either way |
| `Store.OversizeLogged` | internal/storage/wal.go:191-203 | a crash after an oversize record was appended and before its snapshot is written loses that command and nothing else |
| `Store.OversizeSnapped` | internal/storage/store.go:180-183 | a crash between that snapshot and the rotation loses nothing |
| `Store.OversizeRotated` | internal/storage/store.go:184-200 | a crash after the rotation with the first j old segments removed leaves a directory that is refused if and only if one of them is left, for any number of segments |
| `Store.LoggedAndAppliedRuns` | internal/storage/store.go:153-175 | one whole write of a command within the bound, with the snapshot it may trigger, takes a store that stands for some commands to one that stands for those and the new one |
| `Store.SnapshotTakenRuns` | internal/storage/store.go:180-201 | a snapshot, completed or stopped short, changes nothing the store stands for |
| `Store.DurableStore.LogAndApply` | internal/storage/store.go:153-166 | the record is logged, then applied, and the sequence number moves on by one |
| `Store.DurableStore.PutKey` | internal/storage/store.go:123-128 | the engine moves as by a logged put followed by a possible snapshot |
| `Store.DurableStore.DeleteKey` | internal/storage/store.go:130-145 | the answer says whether the key was there, and only then is a delete logged |
| `Store.DurableStore.TakeSnapshot` | internal/storage/store.go:180-201 | snapshot, rotation, removal of covered segments and pruning in this order, or a stop at the rotation that cannot be made |
| `Store.ReplayRecords` | internal/storage/wal.go:178-219 | the loop over a segment applies exactly its records with newer sequence numbers and stops where they end |
| `Store.OpenStore` | internal/storage/store.go:45-101 | the newest snapshot and then the segments in order, or a refusal where an older segment is cut short |
| `Session.CopiesChangeNothing` | internal/kvraft/statemachine.go:67-94 | however many copies of a session command a log holds after the first, the machine ends as if it held the first alone |
| `Session.SerialsRise` | internal/kvraft/statemachine.go:67-94 | for each client the serials that take effect are strictly increasing and the table holds the last of them |
| `Session.StateMachine.ApplyCommand` | internal/kvraft/statemachine.go:67-94 | contents and session table change together, as the specification says, or not at all |
| `Oracle.RemembersExactly` | internal/nemesis/workload.go:45-78 | after any history the oracle remembers the last acknowledged write of a key and exactly the later unknown ones |
| `Oracle.NeverAccusesCorrectRun` | internal/nemesis/workload.go:255-313 | for every log that delivers each acknowledged write before the client's later ones, with any duplicates and any of the unknown writes, the value the state machine ends with is one the oracle allows |
| `Oracle.LegalIsPossible` | internal/nemesis/workload.go:255-313 | every value the oracle allows is the outcome of such a log |
| `Oracle.Workload.Ack` | internal/nemesis/workload.go:51-66 | an acknowledgement replaces the remembered value and drops the unknown writes it supersedes |
| `Oracle.Workload.Unknown` | internal/nemesis/workload.go:68-78 | a write of unknown outcome is remembered if and only if it is later than the last acknowledged one |
| `Oracle.Workload.Check` | internal/nemesis/workload.go:255-313 | the loop accuses exactly when the value read is not a legal one |
| `Membership.DecodesIff` | internal/raft/membership.go:39-60 | bytes decode to a configuration change if and only if they are its encoding and it is well formed |
| `Membership.QuorumsOverlap` | internal/raft/membership.go:107-134 | adding or removing one server leaves every majority before and every majority after with a member in common |
| `Membership.TwoAtOnceMaySplit` | internal/raft/membership.go:107-134 | after two changes at once majorities before and after may be disjoint |
| `Membership.Roster.RecalcConfig` | internal/raft/membership.go:176-203 | the table is the snapshot's configuration folded with every configuration entry of the log, and lastConfigIndex is the index of the last of them, or 0 |
| `Membership.SettledIff` | internal/raft/membership.go:111-117 | lastConfigIndex at or below the commit index means that no change in the log is uncommitted; and the other way round, unless the commit index is below the snapshot |
| `Membership.Roster.ProposeConfChange` | internal/raft/membership.go:107-134 | accepted if and only if the node leads and is not handing leadership over, lastConfigIndex is at or below the commit index and the change changes something; then every change in the log before it is committed, the table takes the new one at once and stays the fold |
| `Membership.Roster.TruncateAndAppend` | internal/raft/replication.go:198-230 | the table stays the fold of the log and lastConfigIndex its last change, both rebuilt only if a configuration entry was cut off |
| `Membership.Roster.NoteAppendedConfigs` | internal/raft/membership.go:158-174 | the table and lastConfigIndex move on by the configuration entries appended |
| `Membership.Roster.ConfigAt` | internal/raft/membership.go:204-226 | the configuration as of a log index is the fold up to it |
| `Membership.Roster.Compact` | internal/raft/raftsnap.go:96-128 | the configuration entries dropped from the log move into the snapshot's configuration, the table stays, and a last change that was dropped is at or below the snapshot |
| `Membership.Roster.InstallSnapshot` | internal/raft/raftsnap.go:156-180 | the table becomes the fold of the snapshot's configuration and the entries kept |
| `MemberTable.TableReadsBack` | internal/raft/membership.go:65-105 | a membership table survives encoding in whatever order its rows are listed |
| `MemberTable.ReadMembers` | internal/raft/membership.go:81-105 | the loop computes the recursive decoder, errors included |
| `MemberTable.WriteMembers` | internal/raft/membership.go:65-79 | the loop over an ordered listing writes the count and the rows |

## Where code and comments disagree

The model follows the code.

- internal/raft/replication.go:312-313 promises delivery exactly once per core lifetime; see finding 1.
- internal/raft/raftsnap.go:153 takes every snapshot at or below the commit index, and no other, to
  cover nothing new; see finding 1.
- internal/raft/raftsnap.go:115-118 takes a crash before the log rewrite to be harmless; see finding 3.
- internal/raft/replication.go:161-164 promises that a duplicated append never rewrites anything; after
  compaction it may stop the node; see finding 2.
- internal/storage/store.go:165-167 takes a write to be durable in the log before its snapshot, and
  internal/storage/wal.go:196-199 takes an unreadable tail to be unacknowledged; see finding 4.

## Left out

- Membership changes in cluster runs: the member set of a run is fixed. `Membership` treats the table, its invariant and the overlap of quorums on their own.
- Liveness and timing: ticks, timeouts and the randomized election timer are events that may happen at any moment.
- Failing disk writes and syncs, and the sticky failure flags they set.
- The strength of the checksum: it is a parameter.
- Goroutines, channels, mutexes, contexts, gRPC, the transport and its connection table.
- Client-side sharding, redirects, the command line, metrics, the proxies and the history checker of the fault-injection tests.
- The bytes of the state-machine image: it is kept as the entries it reflects; the gob coding is not modelled. An installed image of no bytes would not be restored by the source; here every one is.
- The bytes of the storage engine's snapshot files: they are kept as maps, and a snapshot is either whole or absent.
- 64-bit wrap-around of terms, indices and serials: they are unbounded naturals; the codecs bound them.
- The moment of automatic compaction (internal/raft/node.go:421-435): a snapshot is an event of its own.
- The part of the committed queue that is already filled when an index is out of range: the node is halted with the queue as it was.
- Membership.Roster.ProposeConfChange: the replication and the commit of a lone leader that follow the append are not part of it.
- Membership.Roster.ApplyConfChange: that a leader removed from the cluster steps down once the removal commits is not modelled.
- Repair.RepairConverges: is about a leader and a follower that have not compacted; what compaction changes is the subject of `Compaction`.
- Store.Durable: writes over the replay bound do nothing in its runs; `Store.SurvivesIff` and the `Store.Oversize` lemmas say what they do to a running store.
- Store.AlwaysRunning: the same.
- Oracle.NeverAccusesCorrectRun: the client's own writes are puts; deletes are not modelled.
- MemberTable.WriteMembers: takes the rows in the order the source sorts them into; the sort is not modelled, and the round trip holds for every order.
- Rewind.RewindHappens: one refusal is received three times; in the source three heartbeats would each get a refusal of its own.
