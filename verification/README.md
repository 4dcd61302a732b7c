# Verified model of the openraft key-value store

A Dafny model of the consensus engine of the vendored `openraft` crate and of the key-value store built
on it, with proofs of what the code is for and, where the code falls short of it, of exactly when. The main
results are about whole runs of a cluster. At most one node leads with a vote, and votes, commits and accepted I/O
never go back, in every run. As long as no update of a leader's progress raises a voter in place past another one
(a *skip*), no two nodes commit or apply different entries at one index, and a read under a lease misses nothing
committed. With one majority config both hold of every run of the code if and only if there are at most three
voters (`TrackedSplit.AgreeExactly`, `TrackedStale.ReadsExactly`): from four voters on, in any number, there is a run
in which two nodes commit different entries, and one in which a stale read is served.
`dafny verify dfyconfig.toml` checks everything.

## How it is built

**The engine.** `EngineSpec` says what each handler does to the state of a node; the class in `Engine` does
the same to its fields, on the compressed log index (`LogIdIndex`), a leased vote (`LeasedValue`) and a
candidate that counts votes (`CandidateVotes`), and each of its methods is proved to leave exactly the state of
the specification. `EngineLaws` says what that specification comes to: what holds before and after each handler, in
both directions, apart from how it is computed.

**The protocol.** `Cluster` runs those handlers on all nodes of a cluster with a common clock and messages that
are lost, delayed, reordered and delivered again. Its commit step is handed the greatest log id a quorum has
matched. `Ballots` reduces a cluster to its history of candidacies, grants, wins and acknowledgements,
`BallotSteps` proves leader completeness kept by every transition, and `ClusterFrames`, `ClusterVotes`,
`ClusterLog` and `ClusterProgress` show that every step of the cluster is such a transition and keeps the
invariant of every node and message. `Elections` has the part of the invariant that does not look at commits
(votes, candidacies, leaders, clocks) and keeps it in runs whose commit step is handed any value. `ClusterSafety`,
`ClusterLease`, `ClusterLeaseSteps`, `ClusterReads` and `ClusterReadSteps` say what follows for the protocol.

**Quorum tracking.** `ProgressSpec`, `ProgressRuns` and the class in `VecProgress` are the incremental progress;
`ProgressFaults` says when and how it goes wrong, and `ProgressSplit` what happens to the four voters in the middle
of a larger one. Values are compared through any total order.

**The code.** `TrackedCluster` gives every leader of the cluster its progress and its clock in the incremental
form (`LeaderProgress`) and lets it commit whatever `update_with` returns and serve reads by whatever the clock
says. A run of it is a run of `Cluster` with some commit step, and without a skip one with the right commit step;
this is how `TrackedSafety`, `TrackedReads` and `TrackedApply` get their theorems. `TrackedCommits` has the other
direction of the commit: what followers and leaders are bound to commit. Nothing in a run depends on the
history and the flags the proofs keep. The table below names the theorems of the code rather than those of the
protocol they come from. `TrackedRuns` builds runs step by step. `TrackedExample` is a good one; `LargeCluster` has
what two leaders, one after the other, can do in a cluster of any four voters or more, `TrackedSplit` the runs in
which both commit, and `TrackedStale` those in which the first one serves a stale read. In all of them only nodes
that hold the entry naming the voters stand for election. `EngineInCluster` shows that what the engine asks of its
callers holds in the cluster.

**The log index.** `LogIdKeys`, `LogIdIndex` and `LogIdLoader`.

**Membership** (`Membership`), **commands and applying** (`Commands`, `CommandQueues`, `ApplyProgress`,
`ResponderQueue`), **state transfer and storage** (`SnapshotTransport`, `KvStore`, `LogStore`).

Leader ids are totally ordered `(term, node)` pairs, the default of the type configuration. Time is a
natural number; a handler that reads the clock takes the present time as a parameter. Messages,
serialization and the database are values: messages form a set, a stored value is the value itself, and
the database is a map from byte strings.

## Where the code does not do what its documentation says

- `VecProgress` says that entries above the accepted value are sorted
  (kv-store/openraft/openraft/src/progress/vec_progress.rs:33-42). Raising a voter that is already above it
  happens in place and can break that order, after which the accepted value can exceed what any quorum
  has reached. `ProgressSpec.UpdateKeeps` says for every update whether the order survives,
  `ProgressFaults.SkipsDecide` that a skip is exactly what makes later values wrong, and
  `ProgressFaults.VariantRunIsExact` gives a variant without the fault. Vote counting, rebuilding for a new
  quorum set and clusters of at most three voters are never affected.
- For the commit this means that the promise of state machine safety fails from four voters on: when a leader
  flushes its own log twice around the reports of its followers, it can commit an entry that too few nodes hold, so
  that a later leader is elected without it (`TrackedSplit.AgreeExactly`). Without a skip it holds
  (`TrackedSafety.StateMachineSafety`).
- For the lease this means that the time a quorum is said to have acknowledged can be too late, and a stale read
  can be served (`TrackedStale.ReadsExactly`): looking at the clock raises the leader's own entry in place. Without a
  skip of that clock the check is exact (`TrackedReads.LeaseReadIsExact`).
- A wait for a log id to be flushed can be met and then no longer be: the flushed I/O is compared by its vote first,
  and a flush under a later vote may end in a lower log id or in none (`Commands.StaysMet`,
  `Commands.LaterVoteForgets`). Responds already sent, and the order in which they are sent, do not depend on it.
- The answer to a refused vote request can wait longer than its condition asks, behind the answer to an append
  under the same vote (`Commands.RefusalWaitsTooLong`); `Commands.AnswersInOrder` says when.
- The commit documentation and kv-store/openraft/openraft/src/raft_state/io_state.rs:249-253 say that the
  accepted vote always equals the vote of the announced commit. A commit is recorded even when its append
  request was refused for a lower vote (kv-store/openraft/openraft/src/core/raft_core.rs:1314-1321), so the
  accepted vote can be greater. Only "not below" is used, and the proofs need no more.
- A heartbeat that was answered with a higher vote still reports its sending time as acknowledged
  (kv-store/openraft/openraft/src/core/heartbeat/worker.rs:118-158). It does no harm because the higher vote is
  reported first and ends the leadership.
- The counting loop of a majority counts positions, not members: a repeated id can make it answer `true`
  (`Quorum.RepeatedIdMiscounts`). All its callers pass distinct ids.
- A snapshot of the key-value store is labelled with the index its builder copied but holds the map as it
  is when the builder reads it. Replaying up to that later point repairs this
  (`KvStore.LateSnapshotReplays`); stopping before it does not (`KvStore.EarlyReplayDiffers`).

## Model

| member | source | states |
|---|---|---|
| `Quorum.CountedMajority` | kv-store/openraft/openraft/src/quorum/quorum_set_impl.rs:11-23 | The counting loop with its early exit answers whether twice the number of positions holding a member exceeds the size of the config; for ids without repetition that is exactly a majority. |
| `Quorum.CountIsSize` | kv-store/openraft/openraft/src/quorum/quorum_set_impl.rs:36-48 | Counting positions never misses a member, and equals the number of members when no id is repeated. |
| `Quorum.RepeatedIdMiscounts` | kv-store/openraft/openraft/src/quorum/quorum_set_impl.rs:11-23 | A repeated id makes the loop answer `true` without a majority, so distinct ids are needed. |
| `Quorum.JointIsQuorum` | kv-store/openraft/openraft/src/quorum/joint.rs:82-89 | Answers whether the positions counted are more than half of every child; on distinct ids that is a majority of every child. |
| `Quorum.JointIds` | kv-store/openraft/openraft/src/quorum/joint.rs:91-97 | The ids of a joint are the union of its children. |
| `Quorum.SharedChildIntersects` | kv-store/openraft/openraft/src/quorum/coherent.rs:3-9 | Any quorum of one joint config and any quorum of another that shares a child have a member in common. |
| `ProgressSpec.MoveUpIs` | kv-store/openraft/openraft/src/progress/vec_progress.rs:105-117 | `move_up` takes an entry to the front of exactly the smaller entries before it and keeps the order of all others. |
| `ProgressSpec.UpdateKeeps` | kv-store/openraft/openraft/src/progress/vec_progress.rs:178-243 | From an exact and ordered state, one update that does not lower a value keeps the accepted value the greatest one a joint quorum has reached and never lowers it; the descending order of the entries above it survives if and only if the update is not a skip (a voter already above the accepted value raised past the entry before it). |
| `ProgressSpec.UpdateContents` | kv-store/openraft/openraft/src/progress/vec_progress.rs:178-243 | An update sets the value of a tracked id and changes no other value and no role. |
| `ProgressRuns.NewIsExact` | kv-store/openraft/openraft/src/progress/vec_progress.rs:79-93 | A new progress tracks the voters of the quorum set and the learners at the default, is ordered and exact. |
| `ProgressRuns.RunIsExact` | kv-store/openraft/openraft/src/progress/vec_progress.rs:33-42 | Over every sequence of legal updates without a skip the accepted value is exact after each. |
| `ProgressFaults.SkipsDecide` | kv-store/openraft/openraft/src/progress/vec_progress.rs:213-219 | For one majority config, from an exact and ordered state: an update skips if and only if some legal updates after it, none of which skips, make the accepted value wrong. So the skip alone is at fault, and every skip can do harm. |
| `ProgressFaults.SmallNeverSkips` | kv-store/openraft/openraft/src/progress/vec_progress.rs:213-219 | With at most three voters no update skips, whatever it raises. |
| `ProgressFaults.LargeCanSkip` | kv-store/openraft/openraft/src/progress/vec_progress.rs:213-219 | With four voters or more a new progress comes to a skip in three legal updates. |
| `ProgressFaults.SkippedOrderOverstates` | kv-store/openraft/openraft/src/progress/vec_progress.rs:213-240 | Whatever is counted: four legal updates of five voters, the third a skip, after which a value is accepted that two voters have reached, and the value a quorum has reached is a smaller one. |
| `ProgressSplit.MiddleRaised` | kv-store/openraft/openraft/src/progress/vec_progress.rs:213-240 | In a majority of any size from four on, of the four voters that complete it: raising one of them above the accepted value moves it up among them, and makes the value of the third one accepted exactly when three of them are then above it, in order or not. |
| `ProgressFaults.VariantRunIsExact` | kv-store/openraft/openraft/src/progress/vec_progress.rs:213-219 | A labelled variant that moves up on every value above the accepted one is exact and ordered after every sequence of legal updates. |
| `ProgressRuns.UpgradeIsExact` | kv-store/openraft/openraft/src/progress/vec_progress.rs:276-290 | Rebuilding for a new quorum set is exact for it whatever the order of the previous entries, and keeps the value of every id tracked before and after. |
| `ProgressRuns.VoteCountIsExact` | kv-store/openraft/openraft/src/proposer/candidate.rs:93-98 | After any calls of `grant_by`, repeated or not, the count says quorum if and only if the granters hold a majority of every child. |
| `VecProgressImpl.VecProgress.constructor` | kv-store/openraft/openraft/src/progress/vec_progress.rs:79-93 | The object starts as a new progress: voters ascending, then learners, all at the default. |
| `VecProgressImpl.VecProgress.MoveUpFrom` | kv-store/openraft/openraft/src/progress/vec_progress.rs:105-117 | The loop of adjacent swaps leaves the entries and returns the index of `move_up`. |
| `VecProgressImpl.VecProgress.UpdateWith` | kv-store/openraft/openraft/src/progress/vec_progress.rs:178-243 | The in-place update, with its scan for a quorum, leaves exactly the state of the specification, and an unknown id changes nothing. |
| `VecProgressImpl.VecProgress.IncreaseTo` | kv-store/openraft/openraft/src/progress/mod.rs:59-71 | A value that is not greater leaves the progress as it is. |
| `VecProgressImpl.VecProgress.UpgradeQuorumSet` | kv-store/openraft/openraft/src/progress/vec_progress.rs:276-290 | Rebuilding by updating a new object with every previous entry gives the specified progress. |
| `VecProgressImpl.VecProgress.IsVoterOf` | kv-store/openraft/openraft/src/progress/vec_progress.rs:292-295 | Tells voters from learners, and neither from unknown ids. |
| `LeaderProgress.ExactIsQuorumAccepted` | kv-store/openraft/openraft/src/engine/handler/replication_handler/mod.rs:167-184 | An exact progress over log ids returns what the commit step asks for: the greatest log id a joint quorum of members has matched. |
| `LeaderProgress.IncreaseKeeps` | kv-store/openraft/openraft/src/progress/mod.rs:59-71 | Raising a clock from an exact and ordered state keeps the accepted time exact; the order stays if and only if the raise does not skip. |
| `CandidateVotes.Candidate.GrantBy` | kv-store/openraft/openraft/src/proposer/candidate.rs:93-98 | Counting a vote answers whether those who granted so far are a joint quorum. |
| `Ballots.LeaderCompleteness` | kv-store/openraft/openraft/src/engine/engine_impl.rs:308-333 | Once a joint quorum has acknowledged under leader `u` an entry `u` proposed, every leader elected with a later vote starts with it and everything before it. |
| `BallotSteps.RestrictionPasses` | kv-store/openraft/openraft/src/engine/engine_impl.rs:308-324 | The log check of a vote request: a candidate whose last log id is not below a granter's holds whatever acknowledged entry the granter holds, unless an earlier leader was elected without it. |
| `BallotSteps.GrantVoteKeeps` | kv-store/openraft/openraft/src/engine/engine_impl.rs:283-334 | Granting a vote to a candidate with a log not behind keeps the protocol invariant. |
| `BallotSteps.WinKeepsAll` | kv-store/openraft/openraft/src/engine/engine_impl.rs:353-361 | Winning with a joint quorum of grants keeps the protocol invariant. |
| `BallotSteps.OverwriteKeeps` | kv-store/openraft/openraft/src/engine/handler/following_handler/mod.rs:63-111 | Replacing a follower's log keeps the invariant when it keeps every prefix shared with the leader and puts in nothing but that leader's entries. |
| `BallotSteps.AddAckKeeps` | kv-store/openraft/openraft/src/engine/engine_impl.rs:425-434 | Acknowledging entries that agree with the leader's log keeps the protocol invariant. |
| `ClusterFrames.StepKept` | kv-store/openraft/openraft/src/engine/engine_impl.rs:283-453 | A step of one node leaves the invariant of every other node and of every message sent before intact. |
| `ClusterVotes.TickKeeps` | kv-store/openraft/openraft/src/core/raft_core.rs:1658-1709 | Starting an election keeps the cluster invariant. |
| `ClusterVotes.VoteReqKeeps` | kv-store/openraft/openraft/src/engine/engine_impl.rs:283-334 | Answering a vote request, granted or not, keeps the cluster invariant. |
| `ClusterVotes.VoteRespKeeps` | kv-store/openraft/openraft/src/engine/engine_impl.rs:337-396 | Taking a vote response, winning, rejected or late, keeps the cluster invariant. |
| `ClusterVotes.EstablishResult` | kv-store/openraft/openraft/src/engine/engine_impl.rs:703-731 | A candidate with a quorum becomes leader of its own vote with one blank entry after its log. |
| `EngineLaws.ElectsFrom` | kv-store/openraft/openraft/src/core/raft_core.rs:1658-1709 | A tick elects if and only if the node does not lead, is in some child of the config, and is the only voter or past the time it heard from anyone by its lease, the timeout and, after it saw a greater log, the longer wait. It then votes for itself in the next term, with no vote counted yet. |
| `EngineLaws.VoteAnswered` | kv-store/openraft/openraft/src/engine/engine_impl.rs:283-334 | A vote is granted if and only if no lease is running, the last log id of the candidate is not below, and the vote is not below. A refusal changes nothing, and either answer carries the last log id of the node. |
| `EngineLaws.ResponseCounted` | kv-store/openraft/openraft/src/engine/engine_impl.rs:337-361 | A response to another candidacy changes nothing; a grant is counted once and alone, until a joint quorum of them makes the node leader of its vote with one entry of its own after its log. |
| `EngineLaws.RejectionNoted` | kv-store/openraft/openraft/src/engine/engine_impl.rs:364-396 | A rejection notes that a greater log was seen if and only if the log it shows is greater, and its vote is taken as an uncommitted one if it is not below. |
| `EngineLaws.FollowsVote` | kv-store/openraft/openraft/src/engine/handler/vote_handler/mod.rs:104-141 | A vote of another node is taken if and only if it is not below the present one by leader id, or by commitment under the same. The node then leads and stands no more, holds a lease if and only if the vote is committed, and has at least the saving of the vote accepted. |
| `EngineLaws.BecomesLeader` | kv-store/openraft/openraft/src/engine/handler/vote_handler/mod.rs:162-217 | A node that becomes leader by its own committed vote ends its log with an entry of its own, a new one if it had none, knows the first and the last of them, and nothing of its followers. |
| `ClusterLog.WriteKeeps` | kv-store/openraft/openraft/src/engine/handler/leader_handler/mod.rs:53-95 | A leader appending entries keeps the cluster invariant. |
| `ClusterLog.SendKeeps` | kv-store/openraft/openraft/src/core/heartbeat/worker.rs:91-104 | Sending entries or a heartbeat with the leader's commit keeps the cluster invariant. |
| `ClusterLog.TakeFollows` | kv-store/openraft/openraft/src/raft_state/mod.rs:389-408 | Truncating at the first entry a follower lacks and extending with the rest leaves the whole batch in the log and loses nothing shared with the leader. |
| `EngineLaws.AppendAnswered` | kv-store/openraft/openraft/src/engine/engine_impl.rs:438-453 | A request is refused, changing nothing, if and only if its vote is below; it conflicts if and only if its previous log id is neither in the log nor covered by the commit, and then exactly the entries from that index on are cut; otherwise its last log id is accepted. |
| `EngineLaws.LeaderAppends` | kv-store/openraft/openraft/src/engine/handler/leader_handler/mod.rs:53-95 | The new entries of the leader end the log, and its last log id and the accepted I/O are at their end. |
| `ClusterLog.LocalCommitSound` | kv-store/openraft/openraft/src/raft_state/io_state.rs:258-282 | The smaller of what a leader announced and what was accepted under a vote not below it is committed: it is chosen by a quorum, and the node's log agrees with the committing leader up to it. |
| `EngineLaws.CommitsAll` | kv-store/openraft/openraft/src/raft_state/io_state.rs:258-282 | After an announcement the newer one is kept, and a log id is at or below the local commit if and only if it was before, or is at or below both the announced and the accepted one, accepted under a leader not below the announcing one. |
| `EngineLaws.AcceptsLater` | kv-store/openraft/openraft/src/raft_state/mod.rs:259-285 | Of the accepted and a new log I/O the later one is accepted: by leader first, saving a vote before writing under it, then by log id. |
| `TrackedCommits.FollowerCommits` | kv-store/openraft/openraft/src/core/raft_core.rs:1314-1321 | In every run of the code, with skips or without: a node that takes an append request has then committed everything that the commit of the request and the request itself both reach. |
| `TrackedCommits.FollowerCatchesUp` | kv-store/openraft/openraft/src/core/raft_core.rs:1314-1321 | Without a skip: a follower that takes a request reaching as far as the leader had committed when it sent it has then committed all of that. |
| `TrackedCommits.AnswerCovers` | kv-store/openraft/openraft/src/raft/message/append_entries_response.rs:70-84 | A request that is taken is answered with its last log id and the time it was sent. |
| `TrackedCommits.NeverAhead` | kv-store/openraft/openraft/src/raft_state/io_state.rs:249-282 | In every run, no commit a node was told of is of a later leader than its vote. |
| `ClusterLog.AppendKeeps` | kv-store/openraft/openraft/src/core/raft_core.rs:1314-1321 | An append request, refused, conflicting or taken, followed by its commit, keeps the cluster invariant. |
| `ClusterProgress.GrantedIsChosen` | kv-store/openraft/openraft/src/engine/handler/replication_handler/mod.rs:192-208 | What a joint quorum has matched under a leader, and the leader proposed itself, is chosen. |
| `TrackedCommits.LeaderCatchesUp` | kv-store/openraft/openraft/src/engine/handler/replication_handler/mod.rs:154-208 | Without a skip: when a leader records a report, it commits every entry of its own that a joint quorum has reached then. |
| `EngineLaws.LeaderCommits` | kv-store/openraft/openraft/src/engine/handler/replication_handler/mod.rs:192-208 | A leader handed an accepted log id commits exactly what is at or below it or was committed before, and tells itself so; one of an earlier leader changes nothing. |
| `EngineLaws.ReportRecorded` | kv-store/openraft/openraft/src/engine/handler/replication_handler/mod.rs:154-186 | A report to the present leader leaves the greater of what was known and what is told, of its target alone; a report to another leader changes nothing. |
| `EngineLaws.BeatRecorded` | kv-store/openraft/openraft/src/engine/handler/replication_handler/mod.rs:119-148 | A heartbeat answer to the present leader leaves the later sending time, of its target alone. |
| `EngineLaws.HigherVoteEnds` | kv-store/openraft/openraft/src/core/raft_core.rs:1492-1512 | A vote of another node that is not below ends the leadership it is reported to and is taken; otherwise it changes nothing. |
| `ClusterProgress.HeartbeatKeeps` | kv-store/openraft/openraft/src/core/heartbeat/worker.rs:108-158 | A heartbeat answer, with the higher vote it may report handled first, keeps the cluster invariant. |
| `TrackedCluster.StepRefines` | kv-store/openraft/openraft/src/engine/handler/replication_handler/mod.rs:154-208 | In the cluster as the code runs it, where a leader commits what `update_with` returned: a report, a flush or any other step that does not skip hands the commit step the greatest log id a quorum has matched, and leaves the log progress of every leader in agreement with what it was told. |
| `TrackedCluster.NewTrackOk` | kv-store/openraft/openraft/src/proposer/leader.rs:126-143 | The progress and the clock of a new leader track all members at `None`, exact and ordered. |
| `TrackedCluster.LeadersAreTracked` | kv-store/openraft/openraft/src/engine/handler/replication_handler/mod.rs:154-186 | In every run of the code, with skips or without, each leader commits what its own progress returned. |
| `TrackedCluster.ClocksAlwaysOk` | kv-store/openraft/openraft/src/progress/mod.rs:59-71 | In every run of the code, whatever the progresses have skipped, the clock of each leader agrees with the heartbeats it heard of, and is exact and ordered as long as it has not skipped itself. |
| `Elections.StepElects` | kv-store/openraft/openraft/src/engine/engine_impl.rs:283-453 | Whatever value the commit step is handed, every step keeps: candidacies and grants are not above the votes of their nodes, leaders were elected by a joint quorum of grants and hold their own committed vote, candidates count only grants, messages carry votes that were stood for, and clocks know only answers that were sent. |
| `TrackedCluster.Refines` | kv-store/openraft/openraft/src/progress/vec_progress.rs:178-243 | Every run of the code in which no update of a log progress has skipped is a run of the protocol with a right commit step, so the cluster invariant holds in all its states. |
| `TrackedCluster.SmallRunNeverSkips` | kv-store/openraft/openraft/src/progress/vec_progress.rs:207-219 | A cluster of at most three voters never skips, so for it everything below holds of every run of the code. |
| `TrackedSafety.StateMachineSafety` | kv-store/openraft/openraft/src/raft_state/mod.rs:309-347 | In every run of the code without a skip up to then, no two nodes, at any two times, commit different entries at one index. |
| `TrackedSplit.AgreeExactly` | kv-store/openraft/openraft/src/progress/vec_progress.rs:213-240 | With one majority config, whatever its timeouts, learners and ids: no two nodes commit different entries at one index in any run of the code, from its start, if and only if there are at most three voters. |
| `TrackedSafety.CommittedIsChosen` | kv-store/openraft/openraft/src/engine/handler/replication_handler/mod.rs:192-208 | Without a skip, whatever a node has committed lies at or below an entry that its leader proposed and a quorum acknowledged under that leader, and the logs agree up to it. |
| `TrackedSafety.LeaderHasCommitted` | kv-store/openraft/openraft/src/engine/engine_impl.rs:703-731 | Without a skip, a leader whose vote is not below a node's holds everything that node had committed by then. |
| `TrackedSafety.QuorumAckedIsKept` | kv-store/openraft/openraft/src/engine/engine_impl.rs:283-361 | Without a skip, an entry a quorum acknowledged under its leader is, with everything before it, in the log of every leader elected with a greater vote. |
| `TrackedSafety.LogMatching` | kv-store/openraft/openraft/src/engine/handler/following_handler/mod.rs:115-138 | Without a skip, two logs, of any nodes at any times, that hold the same leader id at an index are the same up to it. |
| `TrackedSafety.LogsSorted` | kv-store/openraft/openraft/src/engine/handler/following_handler/mod.rs:145-148 | Without a skip, leader ids never decrease along any log. |
| `TrackedSafety.ElectionSafety` | kv-store/openraft/openraft/src/engine/handler/establish_handler/mod.rs:21-46 | In every run of the code, with skips or without, at most one node ever leads with a given vote, and its log is only appended to. |
| `TrackedSafety.CommittedStays` | kv-store/openraft/openraft/src/raft_state/mod.rs:335-347 | Without a skip, what a node has committed never changes. |
| `TrackedSafety.NeverBack` | kv-store/openraft/openraft/src/engine/handler/vote_handler/mod.rs:104-141 | In every run of the code, with skips or without, the vote, the commit and the accepted log I/O of a node never go back. |
| `ClusterLease.LeaseStepKeeps` | kv-store/openraft/openraft/src/engine/engine_impl.rs:295-305 | Any step in which a node not free of a lease neither grants nor stands keeps the lease invariant. |
| `ClusterLeaseSteps.TickIsFree` | kv-store/openraft/openraft/src/core/raft_core.rs:1662-1702 | A node whose tick starts an election holds no lease given to another leader, the only voter included. |
| `TrackedReads.LeaseReadIsExact` | kv-store/openraft/openraft/src/proposer/leader.rs:211-232 | In every run, whatever log progresses have skipped, and as long as no update of its own clock has: a leader accepts a lease read if and only if some time less than a lease ago has been acknowledged by a quorum, itself counted as of now. The look that skips still answers right. |
| `TrackedReads.LeaseReadIsExclusive` | kv-store/openraft/openraft/src/core/raft_core.rs:300-314 | In every run, whatever log progresses have skipped: when a leader whose clock has not skipped accepts a lease read, every other leader has an earlier vote. |
| `TrackedReads.LeaseReadSeesAllCommits` | kv-store/openraft/openraft/src/engine/handler/leader_handler/mod.rs:109-117 | When neither its clock nor any log progress has skipped, the log id such a read waits for is at or above everything any node has committed by then, and the leader's log holds all of it. |
| `ClusterReads.ReadWaitsFor` | kv-store/openraft/openraft/src/engine/handler/leader_handler/mod.rs:109-117 | A read waits for the first entry of the leader or for its commit, whichever is later. |
| `TrackedReads.SmallRunClean` | kv-store/openraft/openraft/src/proposer/leader.rs:211-232 | With at most three voters the clock of a leader never skips. |
| `TrackedStale.ReadsExactly` | kv-store/openraft/openraft/src/proposer/leader.rs:211-232 | With one majority config: in every run of the code lease reads see every commit, and in every run the leader that accepts one is beside no leader with a later vote, each if and only if there are at most three voters or the lease has no length. |
| `TrackedExample.RunsCommitAndRead` | kv-store/openraft/openraft/src/engine/engine_impl.rs:210-230 | A run of the code on three nodes, one of them initialized, that elects a leader, replicates its entries, commits them and accepts a lease read. |
| `EngineInCluster.InitializeElects` | kv-store/openraft/openraft/src/core/raft_core.rs:692-734 | `initialize()`, which saves its entry under a committed vote, followed by the election `handle_initialize` starts at once, leaves what the first tick leaves of a node that starts with that entry. |
| `EngineInCluster.NodeIsReady` | kv-store/openraft/openraft/src/raft_state/mod.rs:459-473 | In every state of the protocol each node is as its engine takes for granted: log, leadership, candidacy and accepted I/O go with its vote. |
| `EngineInCluster.ReadyIsValid` | kv-store/openraft/openraft/src/raft_state/mod.rs:459-473 | An engine made of valid parts, in such a state, is valid. |
| `EngineInCluster.AppendFits` | kv-store/openraft/openraft/src/engine/handler/following_handler/mod.rs:115-148 | An append request whose vote is not below that of the node agrees with everything the node has committed, continues its log in order where it does not agree, and is not its own. |
| `EngineInCluster.RejectionIsOld` | kv-store/openraft/openraft/src/engine/engine_impl.rs:364-396 | A vote response never carries a later vote of the node that asked. |
| `Engine.Engine.constructor` | kv-store/openraft/openraft/src/storage/helper.rs:87-96 | A node without stored state starts with its own least vote, saved and without a lease, and an empty log. |
| `Engine.Engine.UpdateVoteTo` | kv-store/openraft/openraft/src/engine/handler/vote_handler/mod.rs:104-141 | Refuses a vote below the local one and stores any other, with its lease, then leads or follows as the vote says. |
| `Engine.Engine.UpdateInternalServerState` | kv-store/openraft/openraft/src/engine/handler/vote_handler/mod.rs:143-152 | Leads, stands or follows by the vote that is stored. |
| `Engine.Engine.BecomeLeaderOf` | kv-store/openraft/openraft/src/engine/handler/vote_handler/mod.rs:162-217 | A committed vote of its own makes the node lead with the log ids of its last leader, proposing a blank entry when it has none of its own. |
| `Engine.Engine.Elect` | kv-store/openraft/openraft/src/engine/engine_impl.rs:210-230 | Starts a candidacy of the next term through the usual vote update, whether the node leads or not; a node that did not lead stays valid. |
| `Engine.Engine.HandleTickElection` | kv-store/openraft/openraft/src/core/raft_core.rs:1658-1709 | Elects when not leader, a voter, and the only one or past the timeout, which is longer after a greater log was seen. |
| `Engine.Engine.HandleVoteRequest` | kv-store/openraft/openraft/src/engine/engine_impl.rs:283-334 | Checks the lease, then the last log id, then the vote, whoever asks; a request of another node keeps the node valid. |
| `Engine.Engine.HandleVoteResponse` | kv-store/openraft/openraft/src/engine/engine_impl.rs:337-396 | Counts a grant of the present vote, establishes a leader on a quorum, and otherwise takes only the uncommitted form of the vote; a rejection without a later vote of its own keeps the node valid. |
| `Engine.Engine.EstablishLeader` | kv-store/openraft/openraft/src/engine/engine_impl.rs:703-731 | Turns the candidacy into leadership and proposes a blank entry. |
| `Engine.Engine.AssignLogIds` | kv-store/openraft/openraft/src/proposer/leader.rs:171-198 | Entries get consecutive ids of the leader after its last one. |
| `Engine.Engine.LeaderAppendEntries` | kv-store/openraft/openraft/src/engine/handler/leader_handler/mod.rs:53-95 | Appends entries of the leader to the compressed log ids and accepts the I/O. |
| `Engine.Engine.TakeCommit` | kv-store/openraft/openraft/src/raft_state/mod.rs:309-347 | Records an announced commit and raises the local commit to what `EngineLaws.CommitsAll` allows and no less. |
| `Engine.Engine.AcceptIo` | kv-store/openraft/openraft/src/raft_state/mod.rs:259-285 | Accepted log I/O only moves forward. |
| `Engine.Engine.HasId` | kv-store/openraft/openraft/src/raft_state/log_state_reader.rs:23-35 | Answers yes for anything below the commit, and otherwise looks the id up. |
| `Engine.Engine.FirstConflict` | kv-store/openraft/openraft/src/raft_state/mod.rs:389-408 | The loop finds the first entry the node does not have. |
| `Engine.Engine.TruncateLogs` | kv-store/openraft/openraft/src/engine/handler/following_handler/mod.rs:165-184 | Cuts the log at an index it holds and leaves it alone otherwise. |
| `Engine.Engine.TakeBatch` | kv-store/openraft/openraft/src/engine/handler/following_handler/mod.rs:63-111 | Accepts the I/O, then replaces the log from the first entry it lacks, for any batch whose rest continues the log there in order, as the code asserts. |
| `Engine.Engine.AppendEntriesFrom` | kv-store/openraft/openraft/src/engine/engine_impl.rs:438-453 | Checks the vote, then the previous log id, truncating on a conflict, then takes the entries. A batch that is refused for its vote or its previous log id may be anything. |
| `EngineSpec.FirstConflicting` | kv-store/openraft/openraft/src/raft_state/mod.rs:389-408 | Everything before the result is there, and the entry at the result is not. |
| `FollowerLog.FollowerAppendStep` | kv-store/openraft/openraft/src/raft_state/mod.rs:389-408 | Given that committed ids agree with the leader, the new log agrees with the batch at every batch index, keeps leader ids in order, and is unchanged up to the commit. |
| `Engine.RunFromIndex` | kv-store/openraft/openraft/src/raft_state/mod.rs:481-492 | The log ids a re-created leader starts from are the whole run of the last leader in the log. |
| `LeasedValue.Leased.Update` | kv-store/openraft/openraft/src/utime.rs:132-137 | New content with a lease of its own, enabled. |
| `LeasedValue.Leased.Touch` | kv-store/openraft/openraft/src/utime.rs:156-168 | Moves the time; a disabled lease stays disabled. |
| `LeasedValue.Leased.DisableLease` | kv-store/openraft/openraft/src/utime.rs:141-144 | The lease is zero until the next update. |
| `LogIdKeys.KeysUnique` | kv-store/openraft/openraft/src/engine/log_id_list.rs:16-22 | The compressed form is canonical: whatever list stands for a run of log ids is its first id, its changes of leader and its last id. |
| `LogIdIndex.AppendedKeys` | kv-store/openraft/openraft/src/engine/log_id_list.rs:189-224 | Appending keeps the compressed form, with any gap belonging to the last leader. |
| `LogIdIndex.AppendAllIsCanon` | kv-store/openraft/openraft/src/engine/log_id_list.rs:189-224 | Appending all ids one by one to an empty list gives the canonical form. |
| `LogIdIndex.TruncatedKeys` | kv-store/openraft/openraft/src/engine/log_id_list.rs:229-252 | Truncating leaves the compressed form of exactly the indices below `at`. |
| `LogIdIndex.PurgedSome` | kv-store/openraft/openraft/src/engine/log_id_list.rs:255-282 | Purging inside the log leaves the compressed form of exactly the indices from `upto` on. |
| `LogIdIndex.PurgedAll` | kv-store/openraft/openraft/src/engine/log_id_list.rs:258-263 | Purging past the last id leaves only the purged id. |
| `LogIdIndex.RefAtIs` | kv-store/openraft/openraft/src/engine/log_id_list.rs:294-317 | A lookup gives the leader id of the full log at the index, and nothing outside it. |
| `LogIdIndex.ByLastLeaderIs` | kv-store/openraft/openraft/src/engine/log_id_list.rs:346-361 | The last leader's ids are the whole run that ends the log. |
| `LogIdIndex.LogIdList.Append` | kv-store/openraft/openraft/src/engine/log_id_list.rs:189-224 | In place: the log grows by the gap and the id. |
| `LogIdIndex.LogIdList.Extend` | kv-store/openraft/openraft/src/engine/log_id_list.rs:158-179 | In place: the log grows by all ids, though only changes of leader and the last id are appended. |
| `LogIdIndex.LogIdList.ExtendFromSameLeader` | kv-store/openraft/openraft/src/engine/log_id_list.rs:137-153 | In place: the log grows by all ids, though only the first and the last are appended. |
| `LogIdIndex.LogIdList.Truncate` | kv-store/openraft/openraft/src/engine/log_id_list.rs:229-252 | In place: keeps exactly the indices below `at`. |
| `LogIdIndex.LogIdList.Purge` | kv-store/openraft/openraft/src/engine/log_id_list.rs:255-282 | In place: keeps exactly the indices from `upto` on, or only `upto` past the end. |
| `LogIdIndex.LogIdList.Get` | kv-store/openraft/openraft/src/engine/log_id_list.rs:286-317 | The binary search answers like the full log. |
| `LogIdLoader.GetKeyLogIds` | kv-store/openraft/openraft/src/engine/log_id_list.rs:53-119 | For any log whose leader ids do not decrease the search with its stack ends and loads the canonical form. |
| `LogIdLoader.LoadKeyLogIds` | kv-store/openraft/openraft/src/storage/helper.rs:403-438 | With a purged id in front, what is loaded stands for the purged id followed by the log. |
| `Membership.ChangeConverges` | kv-store/openraft/openraft/src/membership/membership.rs:315-331 | Once a change is accepted, the same change is accepted again, whatever is retained, and gives the single config the change makes of the last one, for every nesting of batches. |
| `Membership.TargetIsEdit` | kv-store/openraft/openraft/src/membership/membership.rs:344-401 | Every change is one edit (remove, then add) of the last config and one of the nodes. |
| `Membership.TwoSteps` | kv-store/openraft/openraft/src/membership/membership.rs:273-291 | Changing towards a goal reaches the goal alone in at most two steps. |
| `Membership.ChangeIsCoherent` | kv-store/openraft/openraft/src/quorum/coherent_impl.rs:68-79 | Every accepted change shares a child with the config it came from, so quorums of the two intersect. |
| `Membership.ChangeIsValid` | kv-store/openraft/openraft/src/membership/membership.rs:238-242 | An accepted change has no empty child and a node for every voter. |
| `Membership.AddressesStay` | kv-store/openraft/openraft/src/membership/membership.rs:215-234 | Adding never changes the node of an id that already has one. |
| `Membership.ExtendNodes` | kv-store/openraft/openraft/src/membership/membership.rs:219-232 | The loop merges two maps in favour of the nodes already there. |
| `Membership.IsCoherent` | kv-store/openraft/openraft/src/quorum/coherent_impl.rs:15-25 | The nested loop finds a shared child if and only if there is one. |
| `Membership.IsVoter` | kv-store/openraft/openraft/src/membership/membership.rs:197-204 | The loop finds a voter if and only if some child holds it. |
| `Membership.EnsureVoterNodes` | kv-store/openraft/openraft/src/membership/membership.rs:258-266 | Reports the least voter without a node, if any. |
| `Membership.ComputeTarget` | kv-store/openraft/openraft/src/membership/membership.rs:344-401 | The rebuilding of the membership, batches applied in order, gives the specified target. |
| `Membership.ChangeMembership` | kv-store/openraft/openraft/src/membership/membership.rs:315-331 | Computes the target, the next coherent config and its validity, as `Membership.ChangeLeaves` and `Membership.AcceptedExactly` describe them. |
| `Membership.ChangeLeaves` | kv-store/openraft/openraft/src/membership/membership.rs:273-331 | An accepted change leaves its goal alone if that was a child, and otherwise the last child joined with it. An id has a node then, the one the change gives it, if and only if the change gives it one and it is retained, or did not vote before, or votes then. |
| `Membership.AcceptedExactly` | kv-store/openraft/openraft/src/membership/membership.rs:238-266 | A change is accepted if and only if the next config has no empty child and every id in any of its children has a node; otherwise an empty child is reported first, then the least voter without a node. |
| `Membership.NodesAreSet` | kv-store/openraft/openraft/src/membership/membership.rs:344-401 | Setting nodes overrides the node of an id that has one and leaves all other nodes and the config; replacing leaves only the given ones. |
| `Membership.NodesAreAdded` | kv-store/openraft/openraft/src/membership/membership.rs:344-401 | Adding nodes or voters gives an id the node given for it, unless it has one. |
| `Membership.VotersAreChanged` | kv-store/openraft/openraft/src/membership/membership.rs:344-401 | Which ids vote after each change of voters, and which have a node after nodes are removed. |
| `ApplyProgress.NextCommandIs` | kv-store/openraft/openraft/src/engine/engine_impl.rs:655-694 | A range to apply begins where applying stands, is not empty, and goes no further than the commit and the submitted log. |
| `ApplyProgress.NothingLeft` | kv-store/openraft/openraft/src/engine/engine_impl.rs:655-694 | There is nothing to apply if and only if every index that is committed, and submitted under the vote of the accepted I/O, is already below the cursor. |
| `ApplyProgress.TakesAll` | kv-store/openraft/openraft/src/engine/engine_impl.rs:655-694 | A command takes exactly those of these indices that are not yet below the cursor. |
| `ApplyProgress.CommitIsSmaller` | kv-store/openraft/openraft/src/raft_state/io_state.rs:258-282 | A commit taken from a leader is at most what it announced and what this node accepted, under a vote not below the leader's. |
| `ApplyProgress.StepKeeps` | kv-store/openraft/openraft/src/core/raft_core.rs:1962-1972 | An event sends at most one range, which starts where applying stands, and keeps applying at or below the local commit, which never goes back. |
| `TrackedApply.CursorsAlwaysOk` | kv-store/openraft/openraft/src/raft_state/io_state.rs:258-282 | In every run of the code without a skip, whatever log I/O nodes submit in order, the log of every node holds its committed, applying and submitted ids, as its cursors take for granted. |
| `TrackedApply.AppliedOnce` | kv-store/openraft/openraft/src/core/raft_core.rs:1962-1972 | An index has been applied if and only if it is below the cursor, and then in exactly one of the ranges sent. |
| `TrackedApply.PollAppliesAll` | kv-store/openraft/openraft/src/core/raft_core.rs:986-996 | In every run without a skip: after a node polls, every index that was committed, and submitted under the vote of its accepted I/O, has been applied. |
| `TrackedApply.AppliedSame` | kv-store/openraft/openraft/src/engine/engine_impl.rs:655-694 | Two nodes that apply an index, at any times, apply the same entry there. |
| `ApplyProgress.RunTiles` | kv-store/openraft/openraft/src/core/raft_core.rs:1962-1972 | Over every run of accepting, submitting, rewriting the uncommitted log, committing and polling, the applied ranges follow each other without a gap or an overlap, never pass the local commit, and the commit never goes back. |
| `ApplyProgress.TilesCover` | kv-store/openraft/openraft/src/core/raft_core.rs:1962-1972 | Every index between the ends is in exactly one range, and no other index is in any. |
| `ApplyProgress.Applier.RunProgressDriven` | kv-store/openraft/openraft/src/core/raft_core.rs:986-996 | The polling loop ends after at most one command, and then every index that is committed, and submitted under the vote of the accepted I/O, is below the cursor. |
| `Commands.QueueSafety` | kv-store/openraft/openraft/src/core/raft_core.rs:934-983 | Over any run of pushes, completions (in any order, under any votes) and drains, commands other than responds execute in push order, none lost and none twice; every respond is sent, put aside or queued exactly once. |
| `Commands.SentWhenMet` | kv-store/openraft/openraft/src/engine/command.rs:320-353 | In every such run each respond that was sent was sent by some event at which what it waits for was done: the flushed I/O or log id, the applied index or the snapshot was not below the one it names. |
| `Commands.ExecutedWhenReady` | kv-store/openraft/openraft/src/core/raft_core.rs:934-983 | In every such run a progress update was executed by some event at which the I/O it waits for was done, and a purge by one at which a snapshot had everything purged. |
| `Commands.QueuesAreRight` | kv-store/openraft/openraft/src/engine/engine_output.rs:48-81 | In every such run each respond put aside is in the queue of the I/O it waits for; and once commands have been run, the first one left, if any, is no respond and is still held back. |
| `Commands.DrainsInTurn` | kv-store/openraft/openraft/src/engine/pending_responds.rs:112-153 | Draining sends, for flushed I/O, flushed logs, applied entries and snapshots in this order, the front of the queue up to the first respond whose own wait is not over, and changes nothing else. |
| `Commands.NoneLeftBehind` | kv-store/openraft/openraft/src/core/raft_core.rs:1002-1022 | After running commands no satisfied respond is still put aside, when none waits behind an unsatisfied one. |
| `Commands.FrontIsAll` | kv-store/openraft/openraft/src/engine/pending_responds.rs:55-66 | Popping the satisfied front leaves no satisfied respond if and only if none waits behind an unsatisfied one. |
| `Commands.AscendingIsInOrder` | kv-store/openraft/openraft/src/engine/pending_responds.rs:15-29 | Waits that never decrease along a queue keep it that way, whatever I/O completes. |
| `Commands.AnswersInOrder` | kv-store/openraft/openraft/src/core/raft_core.rs:1300-1321 | The answers a node puts aside for its own log I/O wait in order if and only if no answer to a vote request follows an answer to an append of entries under the same vote. |
| `TrackedApply.NodeInTime` | kv-store/openraft/openraft/src/raft_state/mod.rs:259-285 | The states of a node along any run of the code, with skips or without, are of the kind `Commands.AnswersInOrder` is about. |
| `Commands.RefusalWaitsTooLong` | kv-store/openraft/openraft/src/engine/pending_responds.rs:55-66 | An input where the order breaks: the answer to a vote request is satisfied and stays behind the answer to an append that is not. |
| `Commands.StaysMet` | kv-store/openraft/openraft/src/engine/command.rs:320-353 | A condition that is met stays met, whatever completes after it, if and only if it does not wait for a log id to be flushed. |
| `Commands.LaterVoteForgets` | kv-store/openraft/openraft/src/raft_state/io_state/io_id.rs:51-67 | The input: saving a later vote, or the log I/O without entries of a later leader, makes any such wait unmet. |
| `Commands.LogFlushedStays` | kv-store/openraft/openraft/src/engine/command.rs:320-353 | A met wait for a log id is still met after more completions if and only if the flushed vote is the same, or the last flushed log id is still not below it. |
| `Commands.SentAtMostOnce` | kv-store/openraft/openraft/src/core/raft_core.rs:1002-1022 | In every run no respond is sent more often than it was pushed. |
| `CommandQueues.EngineOutput.PushCommand` | kv-store/openraft/openraft/src/engine/engine_output.rs:37-40 | A command goes to the end of the queue. |
| `CommandQueues.EngineOutput.PopCommand` | kv-store/openraft/openraft/src/engine/engine_output.rs:84-86 | Takes the command at the front of the queue, if there is one. |
| `CommandQueues.EngineOutput.PostponeCommand` | kv-store/openraft/openraft/src/engine/engine_output.rs:48-81 | A respond goes to the queue of its condition, any other command back to the front. |
| `CommandQueues.EngineOutput.PopIfSatisfied` | kv-store/openraft/openraft/src/engine/pending_responds.rs:55-66 | Takes the front of one queue when its condition is met. |
| `CommandQueues.Runtime.SendSatisfiedResponds` | kv-store/openraft/openraft/src/engine/pending_responds.rs:112-153 | The phases drain the satisfied front of every queue in turn. |
| `CommandQueues.Runtime.RunEngineCommands` | kv-store/openraft/openraft/src/core/raft_core.rs:934-983 | The loop runs the specified steps, sends and executes nothing that waits for something not yet done, and stops only at a command that is no respond and is held back. |
| `ResponderQueue.Conservation` | kv-store/openraft/openraft/src/core/client_responder_queue.rs:43-87 | Over any run the queue stays ascending and every responder pushed is queued, taken by a commit or dropped by a truncation, exactly once. |
| `ResponderQueue.TakenExactly` | kv-store/openraft/openraft/src/core/client_responder_queue.rs:73-87 | A commit takes exactly the indices up to its bound, a truncation exactly the others. |
| `ResponderQueue.LeavesRightly` | kv-store/openraft/openraft/src/core/client_responder_queue.rs:73-87 | Over any run, a responder that was taken was queued when some commit covered its index, and one that was dropped was queued when some truncation did. |
| `ResponderQueue.NoneStays` | kv-store/openraft/openraft/src/core/client_responder_queue.rs:73-87 | What is still queued after a commit is above its bound, and after a truncation below it. |
| `ResponderQueue.ClientResponderQueue.DrainUpto` | kv-store/openraft/openraft/src/core/client_responder_queue.rs:73-76 | In place: takes the indices up to `last` and leaves the rest. |
| `ResponderQueue.ClientResponderQueue.DrainFrom` | kv-store/openraft/openraft/src/core/client_responder_queue.rs:82-87 | In place: takes the indices from `from` on and leaves the rest. |
| `ResponderQueue.ClientResponderQueue.Push` | kv-store/openraft/openraft/src/core/client_responder_queue.rs:43-56 | A greater index goes to the end. |
| `ResponderQueue.ClientResponderQueue.Extend` | kv-store/openraft/openraft/src/core/client_responder_queue.rs:64-68 | Items of ascending indices go to the end, in order. |
| `SnapshotTransport.ReturnedIsSent` | kv-store/openraft/openraft/src/network/snapshot_transport.rs:165-219 | With lost requests and replies, restarts on both sides and interleaved streams, every snapshot the receiver returns is the sender's, byte for byte. |
| `SnapshotTransport.FinishedIsReturned` | kv-store/openraft/openraft/src/network/snapshot_transport.rs:147-162 | In every run, a sender that has learned it finished has had its snapshot returned by the receiver. |
| `SnapshotTransport.SendSnapshot` | kv-store/openraft/openraft/src/network/snapshot_transport.rs:59-162 | With reliable delivery the sending loop ends and the receiver returns exactly the snapshot. |
| `SnapshotTransport.Finishes` | kv-store/openraft/openraft/src/network/snapshot_transport.rs:59-162 | From any state a run can reach, whatever was lost or restarted: once the chunks of a sender and their replies get through, it finishes, and the receiver has returned its snapshot. |
| `SnapshotTransport.WriteExtends` | kv-store/openraft/openraft/src/network/snapshot_transport.rs:229-255 | Writing a chunk at a position the buffer has reached gives a longer prefix of the snapshot. |
| `SnapshotTransport.Streaming.Receive` | kv-store/openraft/openraft/src/network/snapshot_transport.rs:229-255 | Seeks when the offset differs, then writes and moves on. |
| `SnapshotTransport.Receiver.ReceiveSnapshot` | kv-store/openraft/openraft/src/network/snapshot_transport.rs:165-219 | Another id starts a new stream only at offset 0; the last chunk returns the data. |
| `KvStore.LateSnapshotReplays` | kv-store/src/store/mod.rs:80-118 | A snapshot labelled with index j whose map is already at k, followed by entries from j on up to any n not before k, gives exactly the state after entries up to n. |
| `KvStore.EarlyReplayDiffers` | kv-store/src/store/mod.rs:80-118 | Before k the state is ahead of its label: a concrete log where it differs. |
| `KvStore.ReplayMap` | kv-store/src/store/mod.rs:194-230 | Applying entries to a map that already holds the effect of some first ones of them gives the same map as applying them once. |
| `KvStore.StateMachine.ApplyEntries` | kv-store/src/store/mod.rs:194-230 | The loop applies the entries in order and answers each: with the value put, with a word for a deletion, with nothing otherwise. |
| `KvStore.LabelIs` | kv-store/src/store/mod.rs:194-230 | After any entries the last applied id is that of the last of them, and the membership is that of the last entry that sets one, with its id; both are as before if there is none. |
| `KvStore.StateMachine.GetSnapshotBuilder` | kv-store/src/store/mod.rs:232-235 | The builder copies the last id and the membership and shares the map. |
| `KvStore.StateMachine.BuildSnapshot` | kv-store/src/store/mod.rs:81-118 | The snapshot has the builder's label and whatever the shared map holds by now. |
| `KvStore.StateMachine.InstallSnapshot` | kv-store/src/store/mod.rs:241-256 | Installing replaces the whole state and saves the snapshot. |
| `KvStore.SnapshotWhileApplying` | kv-store/src/store/mod.rs:81-118 | Built while entries are applied, installed elsewhere and replayed, two machines agree. |
| `LogStore.KeyRoundTrip` | kv-store/src/store/log_store.rs:289-297 | Keys round-trip for every 64-bit index. |
| `LogStore.KeyOrder` | kv-store/src/store/log_store.rs:289-297 | Byte order of the keys is the order of the indices. |
| `LogStore.RocksLogStore.Append` | kv-store/src/store/log_store.rs:196-221 | Every index holds the last entry appended for it, or what it held before. |
| `LogStore.RocksLogStore.Truncate` | kv-store/src/store/log_store.rs:223-233 | Deletes exactly the indices from the given one on. |
| `LogStore.RocksLogStore.Purge` | kv-store/src/store/log_store.rs:235-249 | Records the purged id and deletes exactly the indices up to it. |
| `LogStore.RocksLogStore.TryGetLogEntries` | kv-store/src/store/log_store.rs:103-134 | Returns exactly the stored entries of the range, in ascending order. |
| `LogStore.RangesAre` | kv-store/src/store/log_store.rs:103-134 | Which indices half open, closed and unbounded ranges contain. |
| `LogStore.RocksLogStore.GetLogState` | kv-store/src/store/log_store.rs:147-176 | Gives the id of the stored entry with the greatest index, or the last purged id when there is none. |

## Left out

- Membership changes during elections: every node of a cluster run has the same fixed joint config.
- Restarts of nodes, leadership transfer, manually triggered elections, log reversion and snapshot
  installation in cluster runs: the code for them is elsewhere or needs assumptions about storage.
- Purging in cluster runs and in the engine: logs start at index 0 there, while `LogIdIndex` covers purging.
- Replication that reads entries from storage after leadership was lost: a leader sends entries of its
  present log.
- Conflict reports to the leader (`update_conflicting`), inflight bookkeeping and snapshot replication:
  they only choose what to send next.
- A replication report that does not raise a follower's match is dropped in the cluster; the code handles
  it in the entry updater, which is not part of this model, and commits again what it has committed.
- `initialize()` as a step of its own: a node starts with or without the entry it writes, and the election it
  starts is the first tick of that node (`EngineInCluster.InitializeElects`).
- User data beside the compared value of a progress entry: an entry is its id and its value.
- Clocks that drift: all nodes read the same time, as the lease check needs.
- Commands other than those that wait are tasks without content: what they do is modelled where it matters
  (votes, log, commit, apply ranges), not in the queue.
- I/O errors, storage errors and closed channels: every operation modelled here succeeds.
- Metrics, tracing, histograms, the balancer, replication lag and display code: only easy members.
- Late or duplicated snapshot chunks: a request arrives at once or not at all, and its snapshot id belongs
  to one snapshot.
- Cancellation of a snapshot transfer and the vote carried by its requests: a sender may stop at any time.
- Integer overflow at the greatest index: indices are naturals, and the log store requires them to be
  smaller than 2^64 - 1.
- `change` on an empty config list with a change that names no voters: the code panics there, and
  `Membership.ChangeMembership` requires a config to take the goal from.
- The async runtimes, the network layer, the HTTP service, the meta server and configuration parsing.
- Engine.Engine.AppendEntriesFrom: requires that its leader is another node and, of a batch that is not refused, that
  the part the node lacks continues its log in order and ends not above the vote, which `do_append_entries` asserts
  in debug builds; `EngineInCluster.AppendFits` shows all of it of every append request in the protocol.
- Engine.Engine.TakeBatch: requires the same, as the step of `AppendEntriesFrom` after the vote.
- TrackedSafety.StateMachineSafety: not claimed after a skip, where it is false, and neither are the other theorems of
  `TrackedSafety` about commits and logs; those about votes and leaders are claimed of every run.
- TrackedSplit.AgreeExactly: about configs of one majority. For joint configs, which a cluster has between two
  memberships, only runs without a skip are covered; whether each of them has a bad run is not decided here, and the
  same goes for TrackedStale.ReadsExactly.
- ApplyProgress.RunTiles: takes from the rest of the node that committed ids are in its log and that the log
  changes only where nothing is committed; `TrackedApply.CursorsAlwaysOk` shows both for every run.
