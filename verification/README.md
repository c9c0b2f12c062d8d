# Raft store, verified

A Dafny model of the Raft implementation in `raft/` and of the key-value state machine it drives
in `kv/`, with proofs about every run of a cluster.

## How it is built

* **One node as a value** (`NodeSpec`). Each critical section of the program, from taking the
  mutex to releasing it, is a function on a `Node`. The log there is the full log: entry `i` sits
  at position `i` even after compaction.
* **One node as the program keeps it** (`RaftNode`, `KvStore`). A class with the program's fields,
  whose `log` starts with a dummy at the snapshot's index. Every handler is a method with the
  program's loops, proved equal to its `NodeSpec` function on a ghost full log, and proved to
  leave the disk in step with memory.
* **The cluster** (`Cluster`). A transition system of nodes with fixed membership. The network
  keeps every packet ever sent and may deliver it never, late, or repeatedly. Nodes time out,
  crash, restart from disk, compact, install snapshots and serve ReadIndex reads. Steps call the
  same `NodeSpec` functions.
* **The proof.** `History` records each term's leader, its log, votes and acknowledgements, and
  contains the leader completeness argument. `Protocol` and `Effects` show that a few indivisible
  effects keep an invariant. `ClusterInv` to `SnapshotSteps` show that each step of the cluster is
  a sequence of such effects. `Discipline` to `CallSteps` show why a snapshot never discards a
  counted entry. `Safety` is the induction over runs (`InvariantHolds`); `Theorems`, `Commits`,
  `Anchors`, `Reads` and `Clients` state the results.
* **How many calls are outstanding.** A `Run` keeps one condition on steps: a leader that may send
  snapshots has at most one call outstanding per peer and term (`MayCall`). `Loose` has the runs
  without it, and `Elections` proves for those what does not depend on it, by an invariant of
  ballots and leaders' logs alone. `Workers` has the program's replication goroutines and its
  `replicating` flags, and shows when they keep the condition; `Attendance` that they leave no
  peer out.
* **Beyond the cluster.** `Membership` (configuration changes, for a single node under arbitrary
  requests), `Ensemble` and `Dating` (nodes whose membership changes, exchanging each other's
  requests), `Compaction` (a compacting node simulates one that keeps its whole log), `Backoff`
  (the retry loop), `Confirm` (counting leadership confirmations).
* **What has to happen.** Safety would also hold of nodes that never act. `Duties` says, for every
  node and request, which votes are granted, which elections won, when a node steps down, commits,
  applies, compacts and follows, and what a membership change tracks; `DutyRuns` what is never left
  undone in any run. `Headway` and `Reunion` extend any run, whatever was lost, delayed, crashed or
  compacted in it, to one whose last state has a leader and everywhere the same, wholly applied log
  (`ProgressIsPossible`).
* **What fails.** `Stage` and `WorkStage` build runs and executions step by step. `Scenario` and
  `StaleRead` are one run of 29 steps that refutes two promises, `LateSnapshot` a run in which a
  snapshot request is overtaken, and `LostEntry` an execution that loses a committed entry; see
  below.

Predicates such as `Inv`, `Base` and `Represents` are stated under a quantifier over a trivial
predicate (`Inside`, `Within`, `Open`). This keeps them a single fact until a proof asks for
their parts.

## Where the code and its promises part

* `Get` is documented as linearizable. It is, provided the entry at the read's index has the term
  that the reader captured with it (`ReadIsLinearizable`). The code checks that an entry of its
  term is committed, and captures term and commit index, in two critical sections, and compares
  nothing; if the term is the same in both, the condition holds (`SameTermIsEnough`), and
  `ReadMayBeStale` is a run in which it is not and a read returns an index below one committed
  before it began.
* `Put` waits for its index to be applied and drops the term that `Propose` returned. The command
  took effect exactly if the entry there still has that term (`PutTookEffectIff`);
  `PutMayBeLost` is a run in which the index is applied and no log or map holds the command.
* `lastApplied` can go back: `HandleInstallSnapshot` assigns it without comparing. In every run
  it does so exactly when a current snapshot lies strictly between the node's own and
  `lastApplied` (`AppliedGoesBackIff`); `AppliedMayGoBack` is a run in which that happens and a
  follower's map forgets a write. The commit index goes back only in a crash
  (`CommitNeverGoesBack`), and a reader's `lastApplied` never falls below its read (`AppliedStays`).
* A leader is meant to have one replication goroutine per peer; the `replicating` flag says
  whether it has. A new leadership makes a new map of flags (raft/node.go:312), but goroutines of
  an earlier leadership of the node may still be there, and when one ends it clears the flag of
  its peer in the new map (raft/log.go:59-63). Then two calls of one term to one peer can be
  outstanding, and if the node compacts, safety fails: `CommittedMayBeLost` is an execution of
  the goroutines in which an entry that its leader has committed and applied is overwritten and
  another committed in its place. It fails only so: if committed entries disagree, some node that
  compacts was elected while a goroutine of its earlier leadership was still there for a peer
  (`LossNeedsLeftOver`). Without such a leftover every execution is a `Run`
  (`WithoutLeftOvers`), of which all theorems below hold. Elections, terms, votes and the matching
  of logs do not depend on it (`Elections`).
* A snapshot request without peers leaves the cached configuration as it is although the log
  behind it is gone (`InstallKeepsMemberIff`; `CacheMayBeStale` is such a node and request). No
  node that starts with a configuration sends one, however membership changes
  (`SnapshotsCarryPeers`).
* The last case of the backoff on a refused request (raft/log.go:143-145) can never be reached,
  nor can the clamps of slice positions (raft/log.go:172-177 and 227-229). `RaftNode` keeps these
  branches and proves that they are not taken.

## Model

| member | source | states |
|---|---|---|
| `Reunion.ProgressIsPossible` | raft/node.go:339-394 | every run, whatever was lost, delayed, crashed or compacted in it, can go on to a state in which a leader has any given command at the end of its log, and every member has that same log, has applied all of it and holds the same map |
| `Reunion.LeadOn` | raft/election.go:109-118 | the leader there can be any node whose log is at least as up to date as all others, and its log is kept, followed only by its no-op and the command |
| `Headway.Elect` | raft/election.go:16-80 | from any state any such node can be elected by timeouts and vote messages alone, with all other logs as they were |
| `Reunion.BringUp` | raft/log.go:58-148 | from any state in which a peer has compacted less than the leader offers it, refusals, snapshots and appends bring the peer to hold the leader's whole log and the leader to know it, with no other node changed |
| `DutyRuns.LateLeadersStepDown` | raft/log.go:115-125 | in every run, whoever heeds a vote, probe, append or snapshot reply of a later term is then a follower of nobody in that term, with no vote and its log and commit index as they were; a reply never changes the term otherwise |
| `DutyRuns.HeldEntriesAreCommitted` | raft/log.go:281-299 | in every run an entry of the leader's term that more than half the members are known to hold, and that it has not compacted, is committed |
| `DutyRuns.CandidatesLackVotes` | raft/election.go:75-79 | in no state of any run has a candidate the votes of more than half the members |
| `DutyRuns.EveryPeerIsServed` | raft/log.go:71-107 | in every run a leader has for every member either its snapshot or a request to send, and never both |
| `DutyRuns.CompactionKeepsUp` | raft/snapshot.go:40-49 | in every run, in every role, the entries applied beyond the snapshot stay fewer than the threshold |
| `DutyRuns.SomeoneCanBeElected` | raft/election.go:109-118 | in every state of every run some member's log is at least as up to date as every member's |
| `Elections.ElectionSafety` | raft/election.go:16-107 | however many calls are outstanding, two nodes that are ever leader in the same term, at any two moments, are one node |
| `Elections.LogMatching` | raft/log.go:190-277 | however many calls are outstanding, two logs, at any two moments, that have the same term at an index are identical through it |
| `Elections.LeaderAppendOnly` | raft/node.go:339-365 | while a node leads a term its log only grows |
| `History.LeaderCompleteness` | raft/election.go:83-118 | an entry of term t acknowledged by a majority is, with all before it, in the log of every later term's leader, given votes only for up-to-date logs |
| `Theorems.LeadersHoldCommitted` | raft/log.go:220-240 | what any node has ever committed is in the log of every leader of a later term, at any moment, and of every leader of its own term from then on |
| `Theorems.TruncationKeepsCommitted` | raft/log.go:220-240 | no AppendEntries or probe request in flight in any run, however stale, removes or changes an entry its receiver has committed |
| `Commits.CommitsAreInLog` | raft/log.go:247-254 | without compaction no commit index ever points past its log |
| `Theorems.CommittedLogsAgree` | raft/log.go:281-299 | any two nodes, at any two moments, agree on all that both have committed |
| `Theorems.StateMachineSafety` | raft/log.go:301-314 | no two nodes, or incarnations of one, ever apply different entries at an index |
| `Theorems.StoresAgree` | kv/client_api.go:72-83 | nodes that have applied equally much hold equal maps; one that lags holds the replay of the other's log |
| `Theorems.ReplayEquivalence` | raft/snapshot.go:51-142 | in every state the map is the replay of the log through lastApplied, and the snapshot through its index |
| `Elections.LogShape` | raft/log.go:220-277 | logs start with the dummy, terms never decrease along them, none exceeds the node's term |
| `Theorems.MatchIndexIsTrue` | raft/log.go:110-137 | a peer in the leader's term holds the leader's log through its matchIndex, with late replies and snapshots too |
| `Theorems.CountedStays` | raft/log.go:126-137 | what a leader has counted for a peer at any earlier moment of its term the peer still holds, even where matchIndex has been lowered since |
| `Theorems.InstallKeepsCounted` | raft/snapshot.go:83-125 | after any snapshot request, however late, the follower still holds all that the leader has counted for it at any moment of its term |
| `Elections.TermsNeverGoBack` | raft/persist.go:96-111 | terms and snapshot indexes never decrease, through any crashes |
| `Elections.OneVotePerTerm` | raft/election.go:92-105 | a vote is never changed or forgotten within its term, through any crashes |
| `Effects.ElectInv` | raft/node.go:306-331 | electing a candidate with a majority of recorded votes keeps the protocol invariant |
| `Effects.AcceptInv` | raft/log.go:209-258 | accepting a slice of the leader's log keeps the protocol invariant and loses nothing the logs agreed on |
| `Effects.InstallInv` | raft/snapshot.go:103-125 | replacing the log by a leader's prefix keeps the invariant if no counted entry lies beyond it |
| `Effects.CommitInv` | raft/log.go:281-299 | committing a majority-held entry of the leader's own term keeps the protocol invariant |
| `LeaderSteps.CommitIsChosen` | raft/log.go:288-296 | an index the commit rule picks is held by a majority in the leader's term |
| `SnapshotSteps.SnapReqBase` | raft/snapshot.go:83-125 | delivering a snapshot request keeps the cluster invariant when the discipline allows it |
| `Discipline.RefusalIsSafe` | raft/log.go:209-218 | a peer that refuses an index has acknowledged nothing of that term above it that counts |
| `CallSteps.RefusedSafe` | raft/log.go:138-147 | backing off uncovers at most the index just refused |
| `DisciplineSteps.SnapMayInstall` | raft/log.go:150-153 | every snapshot request in flight may be installed without losing a counted entry |
| `Theorems.NextIndexNeverClamped` | raft/log.go:161-165 | in every run no leader's nextIndex for any peer lies past the end of its log, so the clamp changes nothing |
| `Commits.RequestReachesEnd` | raft/log.go:166-187 | every request reaches from its previous index exactly to the sender's last index |
| `Commits.ClampNeverDecides` | raft/log.go:247-254 | in every run a request's commit index lies within what it vouches for, so the receiver's clamp never decides |
| `Commits.CommitNeverGoesBack` | raft/log.go:247-254 | a node's commit index decreases only when it crashes |
| `Commits.AppliedGoesBackIff` | raft/snapshot.go:99-119 | in every run, short of a crash, lastApplied falls exactly on delivery of a current snapshot request strictly between the node's snapshot and lastApplied, and then to the request's index |
| `LateSnapshot.AppliedMayGoBack` | raft/snapshot.go:116 | a run in which a late snapshot lowers lastApplied and the map forgets a write it had shown |
| `Anchors.AppliedStays` | raft/snapshot.go:116 | until it crashes, a node's lastApplied never falls below an entry that the node itself committed as leader in that entry's own term |
| `Anchors.LeadersCountThemselves` | raft/node.go:352-361 | in every run each leader has counted its own copy of its whole log |
| `LostEntry.CommittedMayBeLost` | raft/log.go:58-64 | an execution of the goroutines in which one waiting since an earlier leadership ends between two calls of the new term to its peer, which then overlap, and a committed, applied entry is replaced by another committed entry |
| `Workers.LossNeedsLeftOver` | raft/log.go:42-64 | whenever two nodes have committed different entries at an index, some compacting node was elected with a goroutine of its earlier leadership left over for a peer, and later called that peer while another call of its term was waiting |
| `Workers.WithoutLeftOvers` | raft/log.go:42-148 | an execution of the goroutines in which no node is elected while it has goroutines left over is a run with at most one call outstanding per peer and term |
| `Workers.LeftOverIsOld` | raft/node.go:306-331 | a goroutine that is there when its node is elected was started in an earlier term |
| `Workers.LooksAreAble` | raft/log.go:66-107 | in every execution a goroutine whose node leads can make its call |
| `Attendance.EveryPeerIsAttended` | raft/log.go:42-56 | in every execution, once a leader has been elected, has taken a command or sends heartbeats, each of its peers has a goroutine |
| `Attendance.FlagsAlwaysMean` | raft/log.go:42-64 | in every execution a set replicating flag stands for a goroutine that is there to clear it |
| `Attendance.GoroutinesGoOn` | raft/log.go:81-148 | in every execution a goroutine that has its reply stops only if its node no longer leads in the call's term or the peer is known to hold the node's whole log, and goes on only while the node leads in that term |
| `Loose.SaneHolds` | raft/snapshot.go:51-80 | whatever calls are outstanding, in every run the snapshot covers only entries that the log has and that were applied |
| `Commits.PutTookEffectIff` | kv/client_api.go:97-109 | what any node holds at the index of a Put is its command exactly if the term is the one Propose returned |
| `Commits.PutIsDurable` | raft/node.go:339-394 | once applied anywhere with that term, the command is at that index in every later leader's log and in every log applied that far |
| `Clients.ReplayIsLastWrite` | kv/client_api.go:72-83 | the replayed map gives each key the value of the last entry that writes it, and no other keys |
| `Clients.PutIsVisible` | kv/client_api.go:86-111 | a Put in effect is visible in every map that has applied its index, unless overwritten by a later Put |
| `Clients.ReadSeesPut` | kv/client_api.go:116-125 | a read that begins after a Put took effect returns it or a later write of the key |
| `Clients.PutComesAfter` | kv/client_api.go:86-111 | whatever any node had committed before a Put began lies below its index, if it takes effect |
| `Clients.PutsInOrder` | kv/client_api.go:86-111 | a Put that takes effect gets a higher index than every Put applied anywhere before it began |
| `Clients.ReadsInOrder` | kv/client_api.go:116-125 | a read that begins after another's map was looked up is answered from a log that extends all the first had applied |
| `Clients.RequestsAreGentle` | raft/log.go:220-240 | no AppendEntries or probe request in any run changes an entry its receiver has applied |
| `Reads.ReadIsLinearizable` | raft/read.go:11-48 | if the entry at the read's index has the captured term, then, with the wait for it, the last leader check and the lookup in separate moments, the reader's map until it crashes is the replay of a log holding all that any node had committed before the read began |
| `Reads.ReadCovers` | raft/read.go:17-27 | under that condition the index of a read is at least every commit index any node had before it began |
| `Reads.SameTermIsEnough` | raft/read.go:50-53 | a read with one term at check and capture meets the condition |
| `Reads.CheckedLeader` | raft/read.go:50-53 | a leader whose commit index has its own term has committed its first own entry |
| `Reads.VotersAreLater` | raft/read.go:134-159 | who answers a probe in the leader's term had elected no later leader when the read began |
| `Confirm.ConfirmLeadership` | raft/read.go:84-132 | refused exactly if not leading in that term; else confirmed exactly if own vote and replies reach the majority, stale exactly if the replies rule it out, and otherwise timed out or stopped by what ended the wait |
| `Confirm.AllRepliesConfirm` | raft/read.go:100-131 | if every other member answers yes the leader is confirmed; without any answer it is confirmed exactly in a cluster of one |
| `StaleRead.ReadMayBeStale` | raft/read.go:17-27 | a run in which the term changes between check and capture and a read returns an index below one committed before it began |
| `StaleRead.PutMayBeLost` | raft/node.go:378-391 | a run in which a Put's index is applied although its command was overwritten |
| `NodeFacts.BestCommitIsGreatest` | raft/log.go:281-299 | the commit rule picks the greatest majority-held index of the current term above commitIndex, or none |
| `Quorums.QuorumsMeet` | raft/node.go:333-335 | two majorities share a member |
| `Quorums.QuorumIff` | raft/node.go:333-335 | the majorities are exactly the sets of more than half the members |
| `Duties.VotingOrder` | raft/election.go:109-118 | of any two logs one is at least as up to date as the other; a later last term decides whatever the lengths, and length among equal last terms |
| `Duties.VotingOrderIsTransitive` | raft/election.go:109-118 | being at least as up to date is transitive |
| `Duties.SomeoneGetsAllVotes` | raft/election.go:83-118 | among any nodes there is one that, asking in a term later than a node's, always gets that node's vote |
| `Duties.VoteGrantedIff` | raft/election.go:83-107 | granted exactly to a candidate at least as up to date, of a later term, or of the node's own if no other has its vote; then recorded; only term, vote, role and known leader ever change |
| `Duties.VoteIsRepeatable` | raft/election.go:98-105 | a granted request, repeated, is granted again and changes nothing |
| `Duties.CandidateIsHeard` | raft/election.go:30-35 | a node in an earlier term grants a candidate's own request exactly if the candidate's log is at least as up to date as the node's |
| `Duties.CampaignDuty` | raft/election.go:16-50 | a member that is not joining stands in the next term with its own vote, and leads at once exactly in a cluster of one; others do nothing |
| `Duties.VoteIsCounted` | raft/election.go:75-79 | a granted vote of the candidate's term makes it leader exactly if more than half have then voted, with a no-op of its term appended and all peers to be offered it first |
| `Duties.OtherVotesAreIgnored` | raft/election.go:69-74 | a refusal, a reply to an older campaign or one to a node that no longer campaigns changes nothing |
| `Duties.LaterRepliesDepose` | raft/election.go:64-68 | replies of a later term, of all four kinds, depose whoever heeds them and change nothing else; replies to a leadership that is over change nothing |
| `Duties.SuccessIsCounted` | raft/log.go:126-130 | after a success the peer is known to hold all the request reached, every entry of the term that more than half then hold is committed, and the commit index moves to nothing else |
| `Duties.InstallIsCounted` | raft/log.go:92-95 | the same after a snapshot was taken, through its index |
| `Duties.ProposalDuty` | raft/node.go:339-365 | a leader takes every command as its last entry and holds it, committed at once in a cluster of one; others refuse and do nothing |
| `Duties.ApplyDuty` | raft/log.go:301-314 | all that is committed and in the log is applied, in order, and nothing else; and in every role a compaction that is due is made, at the applied index, and none other |
| `Duties.LeadersAreFollowed` | raft/log.go:190-258 | whoever hears from a leader of its own or a later term follows it there, joining no more; accepts exactly if it has the previous entry uncompacted or as its snapshot; its log then reaches past the request's entries and its commit index the request's, within that log |
| `Duties.SnapshotsAreInstalled` | raft/snapshot.go:83-125 | the same on a snapshot, which is installed whole exactly if it reaches beyond the node's own |
| `Duties.JoinedNodesCampaign` | raft/log.go:206 | a node that has heard from a current leader and is a member then stands in the term after it with its own vote |
| `Duties.StartedNodesCampaign` | raft/node.go:176-218 | a fresh node campaigns exactly if it is a member and not told to join; a restarted one also if told to join, when its disk knows of other members |
| `Duties.PeerIsServed` | raft/log.go:150-187 | a tracked peer is to get the snapshot exactly if its next index is not above it, and else a request that completes the log up to its previous entry to the leader's whole log |
| `Duties.ProbeVouches` | raft/read.go:161-170 | a probe names the leader's last entry and carries none |
| `Duties.ChangeTracks` | raft/membership.go:211-227 | after an accepted change members not tracked before match nothing and start at the snapshot, or after the log without one; all others keep what was known of them |
| `Duties.ChangeCommitsHeld` | raft/membership.go:114-134 | a change raises the commit index only to an entry of the term that more than half of the new configuration, the leader or members known before, hold |
| `Duties.FirstPeerIsAwaited` | raft/membership.go:114-134 | adding a first peer to a cluster of one commits nothing until that peer has answered |
| `Duties.NewMemberIsServed` | raft/membership.go:211-227 | a new member's starting index leads to the snapshot exactly if there is one, and otherwise to a request |
| `Duties.ChangeAcceptedIff` | raft/membership.go:75-112 | a change is accepted exactly if the node leads, no change lies above both its commit index and its snapshot, and a stranger is added or another member removed |
| `Duties.ChangesAreSerial` | raft/membership.go:84-86 | with a change above the commit index the next is refused as in progress and nothing happens |
| `Duties.AcceptedIsAlone` | raft/membership.go:136-145 | an accepted change is the only one above the commit index |
| `Duties.DeltasApply` | raft/membership.go:169-195 | a change without a whole configuration adds or removes exactly its member |
| `Logs.MergeFollows` | raft/log.go:220-240 | scanning, truncating and appending a slice of a matching log yields agreement through the slice and loses no agreement |
| `Membership.ProposalOutcome` | raft/membership.go:75-134 | a change is accepted exactly when the checks pass; then the configuration in force changes by that one member, else nothing changes |
| `Membership.ConsecutiveQuorumsMeet` | raft/membership.go:89-109 | majorities before and after an accepted change share a member |
| `Membership.FoldIsLastChange` | raft/membership.go:147-195 | for proposed changes the rebuilt configuration is the last change's full map or the base, and equals folding additions and removals |
| `Membership.ConsecutiveConfigurations` | raft/membership.go:147-158 | along a log of proposed changes neighbouring configurations are equal or differ by one member |
| `Membership.ProposalIsProposed` | raft/membership.go:114-123 | accepting a change keeps the log a log of proposed changes |
| `Membership.CompactionKeepsMembership` | raft/snapshot.go:68-74 | compacting leaves the configuration in force unchanged |
| `Membership.InstallKeepsMemberIff` | raft/snapshot.go:99-110 | installing keeps the cached configuration right exactly if the request is ignored, carries peers, or the cache is the base |
| `Membership.CacheMayBeStale` | raft/snapshot.go:103-110 | a joining node that takes a change from its leader, and a request without peers after which its cached configuration is not its log's, nor what a restart would give |
| `Membership.MemberAlwaysIff` | raft/election.go:17-20 | over any history of one node its cached configuration is its log's, and it campaigns and leads only as a member, exactly if no effective snapshot without peers arrives while the cache differs from the base |
| `Ensemble.MembersThroughout` | raft/membership.go:147-158 | among nodes that exchange only each other's requests, with any membership changes, every cached configuration is the whole map of the last change in the log or the base, is not empty, and only members campaign or lead |
| `Dating.SnapshotsAreDated` | raft/snapshot.go:51-80 | however the membership changes, the configuration kept beside a snapshot, and every one sent with one, is the whole map of the last change the snapshot covers, if it covers any |
| `Ensemble.SnapshotsCarryPeers` | raft/snapshot.go:28-38 | no node ever sends a snapshot without a configuration |
| `Compaction.CompactionRefinesFullLog` | raft/snapshot.go:40-80 | over any history, with restarts and snapshots, a compacting node and one that keeps its whole log, but like it refuses requests from below the snapshot, ignores snapshots up to it and restarts from it, hold the same term, vote, log, configuration, commit index and map, send the same requests and give the same replies |
| `Backoff.BackoffTerminates` | raft/log.go:58-148 | the retry loop is refused exactly nextIndex-1-m times, for m the greatest common index, and then accepted in full |
| `RaftNode.RaftNode.constructor` | raft/node.go:142-222 | a node started from a written disk is the recovered node, otherwise a fresh one |
| `RaftNode.Reboot` | raft/persist.go:96-111 | restarting a node in step with its disk gives that node restarted; with no configuration on disk, one recovered on the configuration given; with a disk never written, a fresh one |
| `RaftNode.RaftNode.LastLogIndex` | raft/log.go:3-5 | the compacted log has the full log's last index |
| `RaftNode.RaftNode.LastLogTerm` | raft/log.go:7-9 | the compacted log has the full log's last term |
| `RaftNode.RaftNode.EntryAt` | raft/log.go:20-40 | found exactly from the snapshot index to the end; same term as the full log there, same entry above |
| `RaftNode.RaftNode.BecomeFollower` | raft/node.go:296-304 | the specified follower, saved if the term rose |
| `RaftNode.RaftNode.BecomeLeader` | raft/node.go:306-331 | the specified leader with its no-op, saved |
| `RaftNode.RaftNode.Propose` | raft/node.go:339-365 | appends at the end and returns that index, or refuses if not leading |
| `RaftNode.RaftNode.StartElection` | raft/election.go:16-50 | the specified candidate or leader, saved; asks for votes only as a candidate |
| `RaftNode.RaftNode.HandleVoteResponse` | raft/election.go:52-80 | steps down, counts the vote, wins, or ignores a stale reply |
| `RaftNode.RaftNode.HandleRequestVote` | raft/election.go:83-107 | grants exactly as specified and saves the vote with the reply |
| `RaftNode.RaftNode.UpToDate` | raft/election.go:109-118 | the up-to-date comparison against the full log |
| `RaftNode.RaftNode.MakeAppendRequest` | raft/log.go:155-187 | the slice of the full log from nextIndex, or none below the snapshot |
| `RaftNode.RaftNode.HandleAppendResponse` | raft/log.go:115-147 | counts the copy, backs off, steps down, or ignores a stale reply |
| `RaftNode.RaftNode.AppendEntries` | raft/log.go:260-277 | appends all entries with contiguous indexes |
| `RaftNode.RaftNode.MergeEntries` | raft/log.go:220-240 | the loop merges into the full log, reports exactly whether it changed, and keeps the dummy |
| `RaftNode.RaftNode.HandleAppendEntries` | raft/log.go:190-258 | the specified state and reply, disk in step |
| `RaftNode.RaftNode.CountHolders` | raft/log.go:288-293 | the number of members known to hold an index |
| `RaftNode.RaftNode.AdvanceCommit` | raft/log.go:281-299 | the downward loop finds the specified commit index |
| `RaftNode.RaftNode.CatchUp` | raft/log.go:301-312 | the map after the loop is the replay of the entries it passed |
| `RaftNode.RaftNode.ApplyCommitted` | raft/log.go:301-314 | applies, then compacts if due, disk in step |
| `RaftNode.RaftNode.Compact` | raft/snapshot.go:51-80 | only the snapshot, its index and its configuration change; the full log is still represented; saved |
| `RaftNode.RaftNode.InstallSnapshotRequest` | raft/snapshot.go:28-38 | the request carries the snapshot's index, term, map and configuration |
| `RaftNode.RaftNode.HandleInstallSnapshot` | raft/snapshot.go:83-125 | the specified state and reply, with the sender's prefix as full log; saved |
| `RaftNode.RaftNode.HandleSnapshotResponse` | raft/log.go:81-97 | counts the copy, steps down, or ignores a stale reply |
| `RaftNode.FoldLog` | raft/membership.go:147-158 | the rebuilt configuration is the fold over the full log since the snapshot |
| `RaftNode.RaftNode.MembershipAt` | raft/membership.go:197-209 | the configuration as of an index |
| `RaftNode.RaftNode.HasUncommittedConfig` | raft/membership.go:136-145 | true exactly if an entry above commitIndex changes the configuration |
| `RaftNode.EnsureTracked` | raft/membership.go:211-227 | exactly the untracked members get a starting index and match nothing |
| `RaftNode.RaftNode.ProposeChange` | raft/membership.go:75-134 | the specified state, the index or the specific error, disk in step |
| `RaftNode.RaftNode.Persist` | raft/persist.go:96-111 | the disk holds exactly the current term, vote, log, snapshot and base configuration |
| `RaftNode.RaftNode.MaybeCompact` | raft/snapshot.go:40-49 | the specified state: compacted exactly when a threshold is set and reached |
| `RaftNode.RaftNode.RebuildMembership` | raft/membership.go:147-158 | the cached configuration becomes the fold over the full log since the snapshot |
| `RaftNode.RaftNode.CheckProposal` | raft/membership.go:81-112 | the error each refused change gets, in the program's order of checks |
| `KvStore.KeyValue.Replace` | kv/store.go:52-60 | exactly the given keys and values remain |
| `KvStore.KeyValue.Snapshot` | kv/store.go:62-65 | the blob stands for the current map |
| `KvStore.KeyValue.Restore` | kv/store.go:67-82 | the map is the blob's |
| `KvStore.KeyValue.OnApply` | kv/client_api.go:72-83 | the map changes as the entry specifies, and only for writes |
| `KvStore.CopyOf` | kv/store.go:42-50 | the copy holds exactly the given keys and values |
| `KvStore.RoundTrip` | kv/store.go:62-82 | a snapshot restored elsewhere gives back the map, whatever was written meanwhile |

## Left out

- Cluster-wide safety theorems hold for fixed membership. `proposeChangeLocked` does not wait for an entry of the leader's term to commit, so changes are covered by the theorems about one node, about neighbouring configurations and about the cached configurations of nodes that change together.
- The theorems about `Run` need a leader that may send snapshots to have at most one call outstanding per peer and term, which the code ensures only while no goroutine of an earlier leadership of the node is left over; `CommittedMayBeLost` shows that they fail without it. A leader that never compacted and has no threshold may have any number of calls outstanding.
- Saving to disk succeeds and is atomic; `persistLocked` only logs an error. Crash means losing all volatile state, waiting calls and reads.
- ReadIsLinearizable: is stated one way, because a read whose entry has an earlier term may be current or stale, depending on what other nodes have committed.
- CompactionRefinesFullLog: leaves out requests that change applied entries (`RequestsAreGentle` shows that runs have none) and snapshots that are not the replay of their prefix, after which no log could tell the map; and the nextIndex of a peer that is to get the snapshot.
- LossNeedsLeftOver: is stated one way, because a leftover goroutine need not do harm.
- JSON encodings are lossless and not modelled; commands are decoded operations, undecodable bytes, or nothing. Integers are unbounded.
- HTTP addresses, peer hooks, transports, gRPC, fault injection, the HTTP control plane and the benchmark.
- Timers, jitter, heartbeat intervals and client timeouts: any of them may fire at any step.
- Liveness under timing and fairness assumptions: `ProgressIsPossible` says that a run can always go on to agreement, `BackoffTerminates` that the retry loop ends, but not that some schedule brings it about.
- The sorted list of peer identifiers is the key set of the configuration; its order is not observable in the properties.
- Stopping a node object while its goroutines are still running.
- `Put`'s check for an empty key, redirects to the leader, and the status and accessor methods.
