# RaftKV in Dafny

A model of a Raft key-value store written in C++: leader election, log replication, commitment, compaction, snapshots,
joint-consensus membership change, linearizable reads through ReadIndex, crash and restart, the text protocol between
nodes and the packets it travels in. What is proved is listed under "Model". `dafny verify dfyconfig.toml` checks it all.

## Layout

The model has two layers that share the records of `Types.dfy`.

**The protocol.** `Election.dfy` is voting alone, with each node in the old, the joint or the new configuration.
`Membership.dfy` has its run theorem, `TwoWinners.dfy` says for which pairs of configurations it holds. `Cluster.dfy` (module
`Protocol`) is the whole cluster in the middle of one membership change, or at a fixed configuration: one step is one
critical section of one node; messages may be lost, delayed and repeated; a reply carries its request;
a crash may come between any two steps, and inside the two handlers that persist a term before they do more.
`Invariant.dfy` states the inductive invariant against a record of what has happened; `Growth`, `Frames`, `LogProof`,
`RoleProof`, `CommitProof`, `NetProof`, `KeepProof`, `Safety`, `Replay`, `StoreProof` and `ReadProof` prove that every
step keeps it; `Theorems.dfy` draws the consequences for whole runs. `EndProof.dfy` and `Acknowledge.dfy` say what the
answer to a write is worth.

**The node.** `RaftNode.dfy` (module `Raft`) is the node object: the fields of the C++ class, its handlers as methods with
their loops, each verified against a function of `Node.dfy` from old state to new state. `KvStore.dfy` and `Storage.dfy`
are the database and the state file. `NodeLog`, `NodeConfig`, `NodeApply` and `NodeInvariant` prove what those functions do
to the log the node stands for, to its configuration, its peers and its database; `NodeRules.dfy` says by which majorities
and whose requests a node decides in every phase of a membership change. `NodeRun.dfy` is about whole lives of a node with
compaction, configuration entries and snapshots; `NodeLives.dfy` and `NodeBooks.dfy` have what holds throughout such a life
of its configuration, its proposals and what it knows of its peers, and `LateReply.dfy` and `TwoProposals.dfy` two lives
that show what their conditions are for. `MemberRefinement.dfy` and `MemberCluster.dfy` are clusters of nodes in the middle
of a membership change: every run of them is a run of the voting system. `NodeRefinement.dfy`, `SnapshotRefinement.dfy` and `ReadRefinement.dfy` prove that each
method is a run of protocol steps, and `NodeCluster.dfy` that every run of a cluster of such nodes, through one membership change, is a run of the
protocol; `NodeGuarantees.dfy` has the guarantees of the objects that follow. `Repair.dfy` is about repeated replication
to one follower. `Limits.dfy` has guarantees that hold only under a condition, with the exact condition, and
`LostEntry.dfy` a run that shows what such a condition is for; `ThreeNodes.dfy` is the small cluster it happens in.

**Text and bytes.** `Text.dfy` is formatted input and output of the standard streams, `Codec.dfy` the records as text,
`RoundTrip.dfy` says exactly which records survive, `Framing.dfy` packets on a byte stream.

## Where the code differs from its description

- Section 5.2 of "In Search of an Understandable Consensus Algorithm (extended version)" has a server vote at most once
  in a term. Here stepping down within a term forgets the vote, so a node may vote twice
  (`Membership.VotesTwiceInOneTerm`). `Membership.VoteIsKeptIff` says when it keeps its vote. Election safety holds all the
  same: the vote is only taken back once the term has a leader (`Membership.RevoteNeedsReset`).
- A follower commits up to the minimum of `leaderCommit` and its own last index, not its last new entry. It makes no
  difference (`Theorems.CommitsOnlyVerified`).
- A restart replays the log over a database that already holds later effects. In between, reads of the database would be
  wrong for keys still to be replayed; the read path never gets there (`StoreProof.LeaderCaughtUp`).
- A snapshot is the database at `lastApplied` under the label `lastIncludedIndex`. The receiver compares labels only;
  `Limits.JointInstallIsSafeIff` and `Limits.StableInstallIsSafeIff` say when that is enough. It also keeps what it held
  beyond the snapshot without comparing terms; `Limits.VoterAfterInstallIff` says when its votes are still a safeguard.
- On the reply to a snapshot the leader counts its boundary of that moment, not the one it sent
  (`Limits.SnapshotReplyOvercounts`); `Limits.SnapshotReplyIsSoundIff` says when that is right.
- A follower that has compacted past `prevLogIndex` answers success without storing anything, and the leader counts every
  entry it sent. `Limits.SuccessMeansStored` says for which requests the answer is true, and
  `LostEntry.CommittedEntryIsLost` is a run in which an untrue answer loses a committed entry.
- `leaderPut` reports success by comparing the commit index with the last index of the moment, `leaderDelete` by comparing
  it with the index of the delete; neither looks whether the node still leads (`Limits.AcknowledgedButGone`).
  `Acknowledge.AcknowledgementIsRightIff` says when the report is right.
- A reply of `replicateToPeer` goes to the slot its request was sent from, whoever is in it by then. After `removeNode` has
  renumbered the peers that can be another node (`LateReply.LateReplyIsMiscredited`);
  `NodeBooks.ReplyIsCreditedIff` and `NodeBooks.SnapshotReplyIsCreditedIff` say when the credit is right.
- `addNode` and `removeNode` look for a change under way in one locked section and append their entry in another, so two
  changes can overlap (`TwoProposals.ProposalsOverlap`); `NodeLives.AppendsInTurnIff` says when they do not.
- Configurations are not persisted, take effect when they are applied, and entries are judged under whichever is applied.
  For one change that is safe, wherever the nodes are and whichever end of it they restart with
  (`NodeGuarantees.WholeLogsAreSafe`); `TwoWinners.ElectionIsSafeIff` says how far apart configurations may be in general.
- The README of the repository calls `cluster.conf` an address book and leaves configuration to the log. The code starts
  with the configuration of that file, and configuration entries that were compacted before a crash are not applied
  again; the model follows the code.

## Model

| member | source | states |
|---|---|---|
| NodeCluster.RunIsMatched | src/raftCore/raft_node.cpp:68-1855 | every run of a cluster of node objects through one addNode or removeNode (votes, replication, configuration entries and their taking effect, commit, apply, compaction, snapshots, reads, crashes between methods, after a persisted term, inside the apply loop and in the middle of an install, restarts with the old or the new start-up file) is matched state by state by a run of the protocol, in which each node is the replica of its whole log; see Left out for the moves it does not have |
| NodeGuarantees.WholeLogsAreSafe | src/raftCore/raft_node.cpp:68-1566 | in every such run, wherever each node is between the old and the new configuration, every node stands for a whole log that moves with its moves; compacted entries included, any two nodes at any times agree up to the smaller commit index and wherever their terms meet, later leaders hold everything committed earlier, leaders only append and are never cut back to a committed beginning of their log, and reads are linearizable |
| NodeGuarantees.OneLeaderPerTerm | src/raftCore/raft_node.cpp:68-145 | in any such run no term ever has two leaders |
| NodeGuarantees.CommittedEntriesAgree | src/raftCore/raft_node.cpp:1008-1038 | read off the objects: two nodes, at whatever times, hold the same entry at every index both consider committed and neither has compacted |
| NodeGuarantees.LeaderHoldsCommitted | src/raftCore/raft_node.cpp:191-200 | read off the objects: a leader of a later term has a log at least as long as anything committed in an earlier term, with the same entries wherever both still hold them |
| NodeGuarantees.ReadIsLinearizable | src/raftCore/raft_node.cpp:1517-1566 | a read that returns gives the value that its leader's whole log, folded through lastApplied, gives the key; that prefix has, for every node and every moment up to the beginning of the read, everything the node considered committed then, compacted or forgotten in a crash since or not |
| NodeGuarantees.ReadsAreMonotone | src/raftCore/raft_node.cpp:1517-1566 | a read that begins after another has returned has applied at least as much, and the log the first one read is the beginning of the log the second one read |
| NodeGuarantees.AcknowledgedWriteIsRead | src/raftCore/raft_node.cpp:698-733 | a write acknowledged by either test (puts compare with the last index, deletes at 2072-2073 with the index of the write) while its node still leads in the term is in the log of every read that begins then or later, and is what the read returns unless a later entry writes the key |
| NodeGuarantees.AcknowledgementIsRightIff | src/raftCore/raft_node.cpp:2072-2073 | whichever test was met, and whoever leads by then: later reads see the write if and only if the whole log of its node still has an entry of the term of the write at its index |
| LostEntry.CommittedEntryIsLost | src/raftCore/raft_node.cpp:614-619 | a run of twenty-seven moves from the start, with threshold 5 on every node, in which one request across its receiver's boundary, answered with success, loses a committed entry: the next leader does not have it |
| NodeCluster.AnyoneCanStand | src/raftCore/raft_node.cpp:68-101 | such runs exist: in a fresh cluster any node can stand in term 1 |
| NodeCluster.MoveSim | src/raftCore/raft_node.cpp:283-696 | one move of one node object, taking any number of configurations into effect or crashing in the middle of a method included, is a run of protocol steps that leaves all other nodes alone, and the whole log moves as the move says |
| Theorems.ElectionSafety | src/raftCore/raft_node.cpp:68-145 | at most one leader per term over all runs with crashes and restarts, although stepping down forgets the vote |
| Theorems.LogMatching | src/raftCore/raft_node.cpp:621-653 | two logs, of any nodes at any times, that have the same term at an index are the same up to it |
| Theorems.LeaderAppendOnly | src/raftCore/raft_node.cpp:707-709 | a leader never deletes or overwrites an entry of its own log within its term |
| Theorems.MatchIndexSound | src/raftCore/raft_node.cpp:988-993 | for a leader with matchIndex m for p, p's log equals the leader's through m for as long as p stays in the term, whatever is delayed or repeated |
| Theorems.CommitNeverOutruns | src/raftCore/raft_node.cpp:942-960 | every AppendEntries in flight satisfies leaderCommit <= prevLogIndex + its number of entries |
| Theorems.CommitsOnlyVerified | src/raftCore/raft_node.cpp:659-662 | the minimum with getLastLogIndex never bites: the follower commits exactly leaderCommit, all of it stored or verified by this request, whatever tail it keeps |
| Theorems.StateMachineSafety | src/raftCore/raft_node.cpp:1017-1036 | any two nodes agree on their logs up to the smaller of their commit indexes, at any two times |
| Theorems.LeaderCompleteness | src/raftCore/raft_node.cpp:191-200 | a leader of a later term agrees with everything any node committed in an earlier term |
| Theorems.LinearizableRead | src/raftCore/raft_node.cpp:1363-1566 | the protocol form of the read guarantee: the returned value is that of the fold of the leader's log through lastApplied, which covers every commit index any node had at any moment until the call began, those reset by a crash included |
| Acknowledge.AcknowledgedWriteIsRead | src/raftCore/raft_node.cpp:698-733 | the protocol form of the guarantee for acknowledged writes, for puts and (2034-2075) for deletes |
| Acknowledge.AcknowledgementIsRightIff | src/raftCore/raft_node.cpp:731-732 | the tests leaderPut and (2072-2073) leaderDelete answer by, made when leadership may be gone: the write is seen by later reads if and only if the node's log still reaches its index and has an entry of the term of the write there |
| Acknowledge.NotLeftBehind | src/raftCore/raft_node.cpp:634-653 | the log of a former leader is never cut back to a shorter beginning of itself that is committed to its end |
| EndProof.EndsStep | src/raftCore/raft_node.cpp:942-960 | every step keeps: every commit index and every boundary, of a node or of a request in flight, is that of an entry counted by the leader of its own term |
| EndProof.TrailStep | src/raftCore/raft_node.cpp:634-653 | every step keeps: where a former leader's log differs from what it was, or is shorter, later leaders had other entries within its length |
| Theorems.StepInv | src/raftCore/raft_node.cpp:283-667 | every protocol step keeps the whole inductive invariant (logs, votes, messages, commits, stores, reads) |
| Safety.LogInvStep | src/raftCore/raft_node.cpp:283-1038 | every step keeps the log invariant: what a node accepted is in every later leader's log, or can no longer be chosen |
| Safety.CommitsAgree | src/raftCore/raft_node.cpp:1017-1036 | two commit indexes of one moment cover agreeing prefixes |
| CommitProof.CommittedInLeader | src/raftCore/raft_node.cpp:191-200 | what is committed in a term is in the log every leader of a later term is elected with |
| CommitProof.AdvanceIsChosen | src/raftCore/raft_node.cpp:1017-1036 | counting matched peers for an entry of the own term finds only entries a majority has accepted in that term |
| KeepProof.UpToDateKeeps | src/raftCore/raft_node.cpp:191-200 | a candidate that passes the up-to-date check holds what its voter accepted |
| StoreProof.LeaderCaughtUp | src/raftCore/raft_node.cpp:1363-1423 | once a leader has committed an entry of its own term and applied it, its database is the fold of its log, even after restarts over a database that was ahead |
| ReadProof.ReadsStep | src/raftCore/raft_node.cpp:1363-1566 | every step keeps what is known of every read in progress |
| ReadProof.FinishedReadCovers | src/raftCore/raft_node.cpp:1425-1488 | when a read finishes, whatever any node had committed when it began is applied at its leader, in the leader's log |
| Election.StepKeepsInv | src/raftCore/raft_node.cpp:68-145 | every voting step keeps: the voters of an elected leader stay with it for the whole term, and only losing candidates are reset |
| Election.NoRival | src/raftCore/raft_node.cpp:125-141 | a candidate that reaches a majority does so in a term nobody has won |
| Election.ElectionQuorumsMeet | src/raftCore/raft_node.cpp:1986-1995 | two election quorums of any two of the kinds old, joint and new share a voter where majorities of the old and the new configuration do |
| Membership.ElectionSafety | src/raftCore/raft_node.cpp:1728-1775 | no term has two leaders, with the nodes in any mix of an old, a joint and a new configuration whose quorums always meet (one addNode or removeNode apart: AnyTwoQuorumsMeet), crashes included |
| TwoWinners.ElectionIsSafeIff | src/raftCore/raft_node.cpp:1986-1995 | for any two configurations, no run of the voting system has two leaders in a term if and only if the two smallest majorities do not fit side by side; otherwise a run in which both candidates win term 1 is built |
| Quorum.MajoritiesMeetIff | src/raftCore/raft_node.cpp:1971-1984 | any two majorities of two configurations meet if and only if half of the one and half of the other, and two more, are more than there are nodes in both |
| Membership.AnyTwoQuorumsMeet | src/raftCore/raft_node.cpp:1986-1995 | the same for configurations that addNode or removeNode can propose |
| Membership.VoteIsKeptIff | src/raftCore/raft_node.cpp:605-607 | a node that has voted stays with its vote for as long as it is in the term if and only if no request of the term reaches it while it is candidate or leader |
| Membership.RevoteNeedsReset | src/raftCore/raft_node.cpp:160-165 | a node votes for two candidates in one term only after such a request, which comes from a node elected in the term |
| Membership.VotesTwiceInOneTerm | src/raftCore/raft_node.cpp:605-607 | a seven-step run in which a node does vote twice in one term |
| Quorum.MajoritiesMeet | src/raftCore/raft_node.cpp:1971-1984 | majorities of two configurations that differ in at most one id share a member of both |
| MemberCluster.OneLeaderPerTerm | src/raftCore/raft_node.cpp:68-145 | in any run of node objects through one addNode or removeNode, every node anywhere between the two configurations, restarts with either start-up file, any logs, requests and replies: no term has two leaders |
| MemberCluster.RunIsMatched | src/raftCore/raft_node.cpp:68-1299 | every such run is matched by a run of the voting system, each object being a voter whose mode is its configuration |
| MemberCluster.MoveSim | src/raftCore/raft_node.cpp:68-1299 | one move of one object, applying any number of configuration entries or crashing in the middle included, is a run of voting steps of that node |
| MemberCluster.CommitMeetsElection | src/raftCore/raft_node.cpp:1986-2032 | whatever an object commits, by the rule of the phase it is in or of a joint entry, is held by one of the nodes whose votes make any other object leader, in whatever phase and at whatever time |
| MemberCluster.ReadMeetsElection | src/raftCore/raft_node.cpp:1425-1488 | the nodes that confirm a read, a majority of the union of both configurations in the joint phase, include one of the nodes whose votes make any object leader |
| MemberCluster.LeadersAreMembers | src/raftCore/raft_node.cpp:1609-1680 | an object that stands or leads is a member of a configuration that has a say where it is, and its peers are the other members, each once |
| MemberCluster.LeaderIdIsElected | src/raftCore/raft_node.cpp:609-609 | the other node that leaderId_ names is the one elected in the node's term |
| MemberRefinement.CountActs | src/raftCore/raft_node.cpp:115-141 | counting a vote makes an object leader exactly when it makes its voter leader: in the joint phase by both configurations |
| MemberRefinement.VoteActs | src/raftCore/raft_node.cpp:283-332 | answering a request is a vote for a member of one of the two configurations, learning a term, or nothing |
| MemberRefinement.LoopModes | src/raftCore/raft_node.cpp:669-696 | the apply loop changes the voter's mode once for every configuration entry it comes to, and nothing else |
| MemberRefinement.AppendActs | src/raftCore/raft_node.cpp:587-667 | handling AppendEntries is heeding its sender and then the mode changes of what it commits, or nothing |
| MemberRefinement.RestartActs | src/raftCore/raft_node.cpp:1138-1178 | a restart keeps the term and the vote, and takes the mode from the start-up file |
| NodeRules.WinsIff | src/raftCore/raft_node.cpp:1986-1995 | a candidate becomes leader with exactly those votes of its term that are a majority of every configuration that has a say: the current one, or in the joint phase the old and the new one; then both arrays start over |
| NodeRules.CommitsLargestDue | src/raftCore/raft_node.cpp:1008-1038 | the commit index goes to the largest index of the leader's term whose holders (the leader by its last index, a peer by its matchIndex slot) are a majority of every configuration that must agree (2014-2032: the two a joint entry names, else both in the joint phase, else the current one), and stays where there is none |
| NodeRules.VoteIs | src/raftCore/raft_node.cpp:283-332 | the vote is granted if and only if the node is a voting member, the candidate a member of a configuration that has a say, the term not older, no vote for another stands in it, and the candidate's last term and index not behind the whole log; a request that fails one of the first three changes nothing |
| NodeRules.StandsIff | src/raftCore/raft_node.cpp:68-101 | a node stands exactly if it votes, is neither leaving nor removed and is a member; one that finds itself outside stops voting |
| NodeRules.AppendHeard | src/raftCore/raft_node.cpp:587-611 | a request of a member in no older term makes the node its follower in that term; any other changes nothing and is refused |
| NodeRules.ProposesIff | src/raftCore/raft_node.cpp:1733-1756 | addNode proposes exactly on a leader in the stable phase for an id that is not a member, removeNode (1892-1919) for a member that is not the last; the proposal is the configuration in force and that with the id added or removed |
| NodeLives.DeafToOutsiders | src/raftCore/raft_node.cpp:290-311 | over any stretch of any life, vote requests from outside the configuration, of older terms or to a node that does not vote, and AppendEntries from outside or of older terms (595-605), leave everything as it was |
| NodeLives.VotesFor | src/raftCore/raft_node.cpp:283-332 | at every moment of every life the vote rule holds on the log the node stands for |
| NodeLives.ConfigurationIsApplied | src/raftCore/raft_node.cpp:1609-1680 | at every moment the configuration is what has been applied since the start: the last final one or the start-up file, and on top the last joint one that no final one has followed |
| NodeLives.ProposesInTurn | src/raftCore/raft_node.cpp:1733-1756 | at every moment a proposal is decided on exactly by a leader that has applied no joint configuration since the last final one or the start, and starts from the configuration in force |
| NodeLives.AppendsInTurnIff | src/raftCore/raft_node.cpp:1777-1813 | addNode decides in one locked section and appends in another: the appended entry starts from the configuration in force with none under way if and only if that holds of the entries applied in between |
| TwoProposals.ProposalsOverlap | src/raftCore/raft_node.cpp:1733-1763 | a life of ten events in which two calls of addNode both find no change under way, and the second appends its joint entry while the first change is under way; the two new configurations have disjoint majorities |
| NodeLives.JointDoesNotCompact | src/raftCore/raft_node.cpp:1084-1107 | whatever step but an install leaves a node in the joint phase has not moved its boundary |
| NodeLives.IndexesRise | src/raftCore/raft_node.cpp:587-1299 | the boundary never falls, and commit index and lastApplied fall only at a restart, to the boundary |
| NodeBooks.MatchIndexIsAcknowledged | src/raftCore/raft_node.cpp:979-993 | at every moment of every life in which replies are taken for the peer that was asked, and through any change of configuration: what a leader counts for a peer is 0 or was acknowledged by that very peer in this leadership |
| NodeBooks.CommitIsAcknowledged | src/raftCore/raft_node.cpp:1008-1038 | in such a life what a leader commits was acknowledged in its term, through that index, by a majority of every configuration that must agree, itself by its log |
| NodeBooks.ReplyIsCreditedIff | src/raftCore/raft_node.cpp:979-993 | matchIndex stays acknowledged by the peer in the slot, for every leader and request, if and only if the peer that was asked is still in the slot, or the leader counted as much already |
| NodeBooks.SnapshotReplyIsCreditedIff | src/raftCore/raft_node.cpp:1216-1229 | after the reply to a snapshot if and only if the leader counted its boundary of the moment already, or the peer asked is still in the slot and was sent no smaller one |
| LateReply.LateReplyIsMiscredited | src/raftCore/raft_node.cpp:979-993 | a life of sixteen events in which a reply arrives after removeNode has moved another peer into its slot: the leader counts an entry that peer never acknowledged, and commits it |
| NodeBooks.ConfigurationStartsOver | src/raftCore/raft_node.cpp:1682-1726 | a leader that comes across a configuration entry while it advances has nextIndex at last + 1 and matchIndex 0 for every peer afterwards |
| NodeConfig.CountIsCardinality | src/raftCore/raft_node.cpp:1971-1984 | in a configuration without duplicates the counting loop computes the number of distinct ids that satisfy the test |
| NodeConfig.GrantsMakeMajority | src/raftCore/raft_node.cpp:1971-1984 | the vote count exceeds half exactly when the granting ids are a majority of the configuration; repeated or foreign grants change nothing |
| NodeConfig.MatchesMakeMajority | src/raftCore/raft_node.cpp:1568-1588 | the match count exceeds half exactly when the ids that hold the index are a majority of the configuration |
| NodeConfig.AddPlanIsOneChange | src/raftCore/raft_node.cpp:1728-1756 | what addNode proposes adds exactly one id and stays free of duplicates |
| NodeConfig.RemovePlanIsOneChange | src/raftCore/raft_node.cpp:1887-1919 | what removeNode proposes drops exactly one id, stays free of duplicates and is not empty |
| NodeConfig.OthersAre | src/raftCore/raft_node.cpp:1682-1689 | the rebuilt peer list has exactly the other members, each once |
| NodeConfig.AddUniqueIs | src/raftCore/raft_node.cpp:1696-1716 | the joint peer list has exactly the members of either configuration other than the node, each once |
| Merging.MergeIs | src/raftCore/raft_node.cpp:634-653 | closed form of the merge: it truncates only at the first real conflict and then takes the rest of the request; without one it keeps the tail or appends what is missing |
| Merging.MergeStores | src/raftCore/raft_node.cpp:634-653 | the prefix is untouched, terms agree with the request through its end, and without a conflict nothing is lost |
| Merging.MergeAgrees | src/raftCore/raft_node.cpp:634-653 | merging a stretch of a leader's log brings agreement with that log through the stretch and never gives up agreement |
| Merging.StalePrefixChangesNothing | src/raftCore/raft_node.cpp:634-653 | the same request again, or a shorter one with the same start, changes nothing |
| Merging.StaleRequestChangesNothing | src/raftCore/raft_node.cpp:634-653 | a delayed request cut from a log the node already agrees with that far changes nothing |
| Merging.FirstConflict | src/raftCore/raft_node.cpp:642-648 | finds the first position whose term differs: none before it, one at it |
| NodeLog.MergeOnFull | src/raftCore/raft_node.cpp:634-653 | the index arithmetic on the compacted log does what the positional merge does to the whole log, and keeps it numbered without gaps |
| NodeLog.CompactedAnswers | src/raftCore/raft_node.cpp:1040-1082 | from the boundary up, the four log accessors answer as on the whole log |
| NodeLog.UpToDateOnFull | src/raftCore/raft_node.cpp:191-200 | the up-to-date check on the compacted log is that of the whole log |
| NodeLog.AppendOnFull | src/raftCore/raft_node.cpp:705-712 | appending an own entry appends it to the whole log with the next index |
| NodeLog.MergedOnFull | src/raftCore/raft_node.cpp:631-657 | the follower's log, changed or not, stands for the merged whole log |
| NodeLog.SnapshotOnFull | src/raftCore/raft_node.cpp:1096-1126 | compaction leaves the whole log as it is |
| NodeLog.BuildOnFull | src/raftCore/raft_node.cpp:942-960 | a request built from the compacted log is the right stretch of the whole log with the right previous term |
| NodeApply.ApplyLoopIs | src/raftCore/raft_node.cpp:669-693 | under the index ordering the early break is unreachable: the loop ends with lastApplied == commitIndex, each entry applied once in order, log and votes untouched |
| NodeApply.JointKeeps | src/raftCore/raft_node.cpp:1609-1647 | a joint entry leaves the peer list exactly old union new without the node, and a leader's arrays fitted to it |
| NodeApply.NewKeeps | src/raftCore/raft_node.cpp:1649-1680 | a final configuration entry does so for the new configuration |
| NodeApply.NewDecidesStanding | src/raftCore/raft_node.cpp:1649-1680 | after a final configuration the node may stand and vote exactly if it is in it; left out, it is a follower outside the voting configuration that knows no leader; kept, it keeps its role and its leader |
| NodeApply.JointDecidesStanding | src/raftCore/raft_node.cpp:1634-1644 | a joint configuration takes role, vote and candidacy from exactly the node that is about to leave; any other keeps its role and may stand and vote as before |
| NodeApply.ConfigResetsBooks | src/raftCore/raft_node.cpp:1682-1726 | right after any configuration entry a leader has nextIndex at last + 1 and matchIndex 0 in every slot, one slot for each peer |
| NodeApply.LoopBooks | src/raftCore/raft_node.cpp:669-696 | over the whole apply loop a leader's arrays stay as they are, or, where a configuration was among the entries, start over |
| NodeInvariant.BoundaryJumps | src/raftCore/raft_node.cpp:1084-1126 | compaction moves the boundary by at least the threshold or not at all |
| NodeRun.LifeIsSettled | src/raftCore/raft_node.cpp:1084-1105 | at every moment of every life a node in a stable configuration has applied less than the threshold past its boundary: compaction is never left behind (entry terms not negative) |
| NodeApply.ApplyKeepsReflects | src/raftCore/raft_node.cpp:683-690 | applying the next committed entry keeps the database a replay of the committed sequence, whether the entry is new or already in it |
| NodeApply.RewindReflects | src/raftCore/raft_node.cpp:1168-1169 | so does going back to the boundary over the same database |
| Replay.CaughtUp | src/raftCore/raft_node.cpp:669-693 | a replay that has caught up is the fold of the sequence |
| Replay.ApplyKeepsReplay | src/raftCore/raft_node.cpp:683-690 | replaying an entry again keeps the database right on every key not written later |
| Replay.LastWriteIsRead | src/stateMachine/kv_store.cpp:33-85 | a key holds what the last entry that writes it says |
| Replay.ApplyNew | src/raftCore/raft_node.cpp:683-690 | applying an entry beyond everything seen extends the sequence |
| Replay.RewindKeepsReplay | src/raftCore/raft_node.cpp:1168-1169 | restarting from an earlier index keeps the replay relation |
| NodeInvariant.ElectionKeeps | src/raftCore/raft_node.cpp:68-101 | starting an election keeps the node's invariant, raises the term by one and asks with the last index and term of the whole log |
| NodeInvariant.VoteKeeps | src/raftCore/raft_node.cpp:283-332 | the vote handler keeps the invariant and never lowers the term |
| NodeInvariant.AppendKeeps | src/raftCore/raft_node.cpp:587-667 | the AppendEntries handler keeps the invariant; the whole log becomes its merge exactly if the request passes the check; success is answered exactly then or below the boundary |
| NodeInvariant.ApplyKeeps | src/raftCore/raft_node.cpp:669-696 | applying and compacting keep the invariant and leave everything committed applied |
| NodeInvariant.ReplyKeeps | src/raftCore/raft_node.cpp:976-1005 | a reply to a request of this leadership keeps nextIndex within [0, last + 1] and matchIndex within [0, last], whoever is in its slot by now |
| NodeInvariant.InstallReplyKeeps | src/raftCore/raft_node.cpp:1216-1229 | so does a snapshot reply |
| NodeInvariant.AdvanceKeeps | src/raftCore/raft_node.cpp:1008-1038 | advancing the commit index keeps the invariant |
| NodeInvariant.InstallKeeps | src/raftCore/raft_node.cpp:1239-1299 | installing a snapshot keeps contiguity, index ordering and the database relation, if the node has not applied past what the sender had applied at dump time |
| NodeInvariant.DumpIsSnapshot | src/raftCore/raft_node.cpp:1195-1199 | a leader's dump reflects what it has applied, while its label is the boundary |
| NodeInvariant.RestartKeeps | src/raftCore/raft_node.cpp:1138-1178 | a restart keeps the invariant and brings back term, vote, boundary and log |
| NodeRun.EventKeepsGood | src/raftCore/raft_node.cpp:283-1299 | every critical section of a node keeps the node invariant, requests in flight and membership proposals included |
| NodeRun.LifeIsGood | src/raftCore/raft_node.cpp:283-1299 | the invariant holds at every moment of every life of a node: any order of sections, late and repeated replies, also to peers that have left, crashes, membership proposals, configuration entries, snapshots |
| NodeRun.CompactionInvisible | src/raftCore/raft_node.cpp:1040-1126 | at every moment logs are numbered on from the boundary, 0 <= lastIncludedIndex <= lastApplied == commitIndex <= last index, and the accessors answer as if nothing had been discarded |
| NodeRun.BooksBalance | src/raftCore/raft_node.cpp:1609-1726 | at every moment the peer list is the active configuration without the node and without duplicates, a leader's two arrays have its length and are within bounds, and disk equals memory |
| NodeRun.StoreIsReplay | src/raftCore/raft_node.cpp:669-696 | at every moment the database is right on every key the committed sequence does not write again; with everything applied it is the fold |
| NodeRefinement.StartElectionRefines | src/raftCore/raft_node.cpp:68-101 | startElection is the protocol step, on a compacted log too; a node that may not stand changes nothing the cluster sees |
| NodeRefinement.RequestVoteRefines | src/raftCore/raft_node.cpp:283-332 | handleRequestVote, refusals included, is the protocol step and sends its reply; a node that does not vote, or does not know the candidate as a member, ignores the request |
| NodeRefinement.CountVoteRefines | src/raftCore/raft_node.cpp:115-141 | counting a reply makes the node leader exactly when the protocol's majority, in the joint phase of both configurations, has granted |
| NodeRefinement.ProposeRefines | src/raftCore/raft_node.cpp:698-719 | appending a client command, or (1777-1855) a configuration entry of the change, is the protocol step |
| NodeRefinement.ReplicateRefines | src/raftCore/raft_node.cpp:933-960 | the request built for a peer is the protocol's request |
| NodeRefinement.AppendRefines | src/raftCore/raft_node.cpp:587-667 | handleAppendEntries of a request that starts at or after the boundary is the receive step followed by one apply step for each entry it commits and a change of mode for each configuration among them, with the same reply; from a sender that is no member it is ignored |
| NodeRefinement.LoopRuns | src/raftCore/raft_node.cpp:669-696 | the apply loop takes the protocol through one apply step for every entry, and for every configuration entry through a change of mode in which a leader that stays starts its books over and a node that leaves gives up its role |
| NodeRefinement.CoveredAppendRefines | src/raftCore/raft_node.cpp:614-619 | of a request that ends at or before the boundary it is the receive step too: the success it answers is true |
| NodeRefinement.ReplyRefines | src/raftCore/raft_node.cpp:976-1005 | processing a reply moves nextIndex and matchIndex as the protocol does, down to the leader's boundary on a refusal |
| NodeRefinement.SameCommitRule | src/raftCore/raft_node.cpp:1017-1036 | the node's commit test holds of an index exactly if its term is the leader's and the nodes that hold it are a majority of every configuration that must agree: for a joint entry its own two, else those of the node's mode |
| NodeRefinement.CommitStepRefines | src/raftCore/raft_node.cpp:1008-1038 | updateCommitIndex goes to the largest index the commit rule allows, and stays where none is larger |
| NodeRefinement.CompactRefines | src/raftCore/raft_node.cpp:1084-1130 | creating a snapshot is the protocol's Compact, and nothing to the whole log |
| SnapshotRefinement.SendInstallRefines | src/raftCore/raft_node.cpp:1180-1200 | the snapshot a leader sends stands for the entries of its whole log through its boundary, which the protocol sends with it |
| SnapshotRefinement.InstallRefines | src/raftCore/raft_node.cpp:1239-1299 | handleInstallSnapshot is the protocol's receive step for those entries and then taking the database, or only the answer where the node has moved on, with the same reply |
| SnapshotRefinement.SliceMerged | src/raftCore/raft_node.cpp:1272-1284 | keeping what is past the boundary makes the whole log the sender's through the boundary and leaves the rest, if the entry at the boundary is the sender's or the log is no longer |
| SnapshotRefinement.InstallCrashRefines | src/raftCore/raft_node.cpp:1268-1294 | a crash after the database of a snapshot was loaded and before anything was persisted is the protocol's step of taking the database alone and a restart |
| StoreProof.DumpStep | src/raftCore/raft_node.cpp:1268-1289 | a database taken from a snapshot is as right for its receiver as for its sender, through what either had applied |
| SnapshotRefinement.InstallReplyRefines | src/raftCore/raft_node.cpp:1216-1229 | taking the reply is the protocol's step, where the leader's boundary is no more than what was sent or than it knows the peer to hold |
| NodeRefinement.RestartRefines | src/raftCore/raft_node.cpp:1138-1178 | a restart from the durable record, compacted or not, is the protocol's restart back to the boundary and to the configuration of the start-up file |
| NodeRefinement.LearnCrashRefines | src/raftCore/raft_node.cpp:603-607 | a crash right after a handler has persisted the term of a request is the protocol's step of learning it and a restart |
| NodeRefinement.AppendCrashRefines | src/raftCore/raft_node.cpp:631-693 | a crash after the entries of a request were persisted, with the apply loop come to any index, configurations included, is the receive step, as many apply steps and a restart |
| NodeRefinement.AdvanceCrashRefines | src/raftCore/raft_node.cpp:1008-1038 | a crash in the apply loop of updateCommitIndex is the commit step, as many apply steps and a restart |
| NodeRefinement.ReachableDelivers | src/raftCore/raft_node.cpp:942-960 | in every reachable state a request in flight is numbered on, comes from an elected leader and never cuts into what its receiver has committed |
| ReadRefinement.ChecksOnFull | src/raftCore/raft_node.cpp:1363-1377 | the check before a read passes exactly if the last committed entry of the whole log is of the leader's term and past the boundary, the one after the no-op (1411-1420) exactly if it is of the term and at or past the no-op |
| ReadRefinement.CheckRefines | src/raftCore/raft_node.cpp:1363-1377 | finding an entry of the own term committed on the compacted log finds it on the whole log |
| ReadRefinement.NoopRefines | src/raftCore/raft_node.cpp:1379-1402 | the no-op append is the protocol's |
| ReadRefinement.NoopCheckRefines | src/raftCore/raft_node.cpp:1411-1420 | so is the check after it |
| ReadRefinement.TakeIndexRefines | src/raftCore/raft_node.cpp:1533-1541 | and taking the read index |
| ReadRefinement.LeaderAsks | src/raftCore/raft_node.cpp:1425-1429 | the peers of a leader are all other members of its mode, each once: of both configurations in the joint phase |
| ReadRefinement.BeatRefines | src/raftCore/raft_node.cpp:1432-1449 | the leadership request carries the whole log's last index and term |
| ReadRefinement.BeatReplyRefines | src/raftCore/raft_node.cpp:1462-1480 | a higher term ends the read and the leadership, a success counts its sender |
| ReadRefinement.ConfirmRefines | src/raftCore/raft_node.cpp:1425-1427 | successes from more than half of the peers asked and the node are a majority of the members at the mode in which the round began, whichever the node has come to since |
| ReadRefinement.WaitRefines | src/raftCore/raft_node.cpp:1490-1515 | the wait ends as the protocol's does |
| ReadRefinement.FinishRefines | src/raftCore/raft_node.cpp:1552-1565 | the value returned is the protocol's |
| Limits.SuccessMeansStored | src/raftCore/raft_node.cpp:614-619 | a successful reply means that the request is stored if and only if it starts at or after the boundary, or ends at or before it |
| Limits.StoresNothing | src/raftCore/raft_node.cpp:614-619 | in between there is a request answered with success of which nothing is stored |
| Limits.JointInstallIsSafeIff | src/raftCore/raft_node.cpp:1256-1283 | a node in the joint phase, which does not compact, has a right database after installing a snapshot, for every content, if and only if it had not applied more than the sender at dump time |
| Limits.StableInstallIsSafeIff | src/raftCore/raft_node.cpp:1256-1283 | in the stable phase if and only if, besides, or if it has applied so much (label + threshold - 1) that its own boundary keeps it from installing, or if the label is the threshold itself, the first a node can have |
| Limits.StableOverwrites | src/raftCore/raft_node.cpp:1259-1283 | in between there is a settled node whose newer value of a key is lost although lastApplied stays past it |
| Limits.JointOverwrites | src/raftCore/raft_node.cpp:1259-1283 | the same for a node waiting for the end of a membership change |
| Limits.VoterAfterInstallIff | src/raftCore/raft_node.cpp:1268-1275 | after installing, every candidate a node finds up to date ends at least as new as the snapshot if and only if the node held nothing beyond the snapshot or something at least as new: the retained entries are not compared |
| Limits.RetainedMisleads | src/raftCore/raft_node.cpp:1268-1275 | a settled follower with uncommitted entries of term 1 beyond a snapshot of term 2, which finds a candidate ending in term 1 up to date after installing it |
| Limits.SnapshotReplyIsSoundIff | src/raftCore/raft_node.cpp:1226-1229 | on the reply to a snapshot matchIndex stays within what the peer holds if and only if the leader's boundary of that moment does |
| Limits.SnapshotReplyOvercounts | src/raftCore/raft_node.cpp:1226-1229 | a leader that sends label 0, compacts to 5 and takes the reply counts 5 entries at a peer that has none |
| Limits.AcknowledgedButGone | src/raftCore/raft_node.cpp:731-732 | for every length: a leader whose log of that length a later leader replaces by one entry finds its test for success true |
| Repair.MatchingRound | src/raftCore/raft_node.cpp:982-993 | a round whose previous terms match succeeds, and then the follower agrees with the leader through its last entry and matchIndex says so |
| Repair.RefusedRound | src/raftCore/raft_node.cpp:996-1004 | a refused round takes nextIndex one back and changes nothing else |
| Repair.SnapshotRepairs | src/raftCore/raft_node.cpp:1180-1299 | a snapshot round deposes the leader only if the follower is in a later term; otherwise the answer has the leader's term, the follower follows with the leader's boundary or its own later one, no index falling, and nextIndex is the boundary + 1, so that entries come next |
| Repair.RepairTerminates | src/raftCore/raft_node.cpp:910-1006 | with no reply lost, some round within the initial nextIndex rounds succeeds, and then the follower agrees with the leader at every index up to the leader's last |
| Raft.RaftNode.constructor | src/raftCore/raft_node.cpp:19-52 | a new node over any durable record and database: term, vote and boundary as saved, applied and committed back at the boundary |
| Raft.ConfigContains | src/common/types.h:119-126 | the loop finds the id exactly if it is there |
| Raft.HasMajorityInConfigByIds | src/raftCore/raft_node.cpp:1971-1984 | the loop counts the members that granted |
| Raft.Remaining | src/raftCore/raft_node.cpp:1116-1121 | the loop keeps the entries past an index, in order |
| Raft.AllBut | src/raftCore/raft_node.cpp:1905-1911 | the loop keeps the members other than one id, in order |
| Raft.RaftNode.IsNodeInCurrentVotingConfig | src/raftCore/raft_node.cpp:2005-2012 | membership in the active configuration or either of the two |
| Raft.RaftNode.HasElectionMajority | src/raftCore/raft_node.cpp:1986-1995 | a majority of the one, or of both configurations; see WinsIff and MemberRefinement.CountActs |
| Raft.RaftNode.FindPeerIndexById | src/raftCore/raft_node.cpp:1590-1597 | the first slot with that id, or -1 if there is none |
| Raft.RaftNode.IsMajorityInConfig | src/raftCore/raft_node.cpp:1568-1588 | the loop counts the members whose matched index reaches the entry; see MatchesMakeMajority for what the count means |
| Raft.RaftNode.IsMajorityMatchedForEntry | src/raftCore/raft_node.cpp:2014-2032 | which configurations must agree, by the kind of entry; see CommitsLargestDue |
| Raft.RaftNode.Persist | src/raftCore/raft_node.cpp:889-898 | the durable record takes term, vote, boundary and log; nothing else changes |
| Raft.RaftNode.BecomeFollower | src/raftCore/raft_node.cpp:160-170 | the whole new state, the vote forgotten and persisted |
| Raft.RaftNode.BecomeCandidate | src/raftCore/raft_node.cpp:172-181 | the whole new state, the own vote persisted |
| Raft.RaftNode.BecomeLeader | src/raftCore/raft_node.cpp:183-189 | the whole new state, both arrays fitted to the peers |
| Raft.RaftNode.InitLeaderState | src/raftCore/raft_node.cpp:900-908 | both arrays, one slot for each peer |
| Raft.RaftNode.StartElection | src/raftCore/raft_node.cpp:68-101 | the new state and the request; see ElectionKeeps, StandsIff and StartElectionRefines |
| Raft.RaftNode.CountVote | src/raftCore/raft_node.cpp:115-141 | the new state and vote list; see CountVoteRefines and WinsIff |
| Raft.RaftNode.HandleRequestVote | src/raftCore/raft_node.cpp:283-332 | the new state and reply; see VoteKeeps and RequestVoteRefines, VoteIs and VotesFor |
| Raft.RaftNode.RebuildPeersFromCurrentConfig | src/raftCore/raft_node.cpp:1682-1694 | the peer list of the new configuration, and a leader's arrays; see EntryPeers and ConfigResetsBooks |
| Raft.RaftNode.RebuildPeersFromJointConfig | src/raftCore/raft_node.cpp:1696-1726 | the peer list of both configurations, and a leader's arrays; see EntryPeers and ConfigResetsBooks |
| Raft.RaftNode.ApplyConfigEntry | src/raftCore/raft_node.cpp:1609-1680 | the new state for both kinds of entry; see JointKeeps and NewKeeps, JointDecidesStanding, NewDecidesStanding and ConfigurationIsApplied |
| Raft.RaftNode.ApplyCommittedLogs | src/raftCore/raft_node.cpp:669-696 | the while loop with its break reaches the state that ApplyLoopIs describes, and then compacts |
| Raft.RaftNode.MaybeCreateSnapshot | src/raftCore/raft_node.cpp:1084-1094 | compacts exactly in a stable configuration and past the threshold |
| Raft.RaftNode.CreateSnapshot | src/raftCore/raft_node.cpp:1096-1136 | the filter loop and the new boundary; see SnapshotOnFull and JointDoesNotCompact |
| Raft.RaftNode.HandleAppendEntries | src/raftCore/raft_node.cpp:587-667 | the new state and reply; see AppendKeeps, AppendHeard and AppendRefines |
| Raft.RaftNode.MergeEntries | src/raftCore/raft_node.cpp:631-657 | the merge loop on the compacted log, persisted exactly if some entry changed it; see MergedOnFull |
| Raft.RaftNode.CommitUpTo | src/raftCore/raft_node.cpp:659-662 | the commit index goes to the minimum and everything up to it is applied |
| Raft.RaftNode.AppendEntry | src/raftCore/raft_node.cpp:698-719 | what leaderPut, leaderDelete, the no-op and both configuration appends do to the log, or nothing on a node that is not leader |
| Raft.RaftNode.PlanAddNode | src/raftCore/raft_node.cpp:1728-1756 | the two configurations or a refusal; see AddPlanIsOneChange, ProposesIff and ProposesInTurn |
| Raft.RaftNode.PlanRemoveNode | src/raftCore/raft_node.cpp:1887-1919 | the two configurations or a refusal; see RemovePlanIsOneChange, ProposesIff and ProposesInTurn |
| Raft.RaftNode.BuildAppendFor | src/raftCore/raft_node.cpp:942-960 | the loop over the entries still held; see BuildOnFull |
| Raft.RaftNode.TakeAppendReply | src/raftCore/raft_node.cpp:976-1005 | the new state; see ReplyKeeps, ReplyRefines and ReplyIsCreditedIff |
| Raft.RaftNode.UpdateCommitIndex | src/raftCore/raft_node.cpp:1008-1038 | the downward loop with its break finds the largest committable index; see CommitStepRefines, CommitsLargestDue and CommitIsAcknowledged |
| Raft.RaftNode.BuildInstallRequest | src/raftCore/raft_node.cpp:1195-1199 | the dump of the database under the label of the boundary; see DumpIsSnapshot |
| Raft.RaftNode.HandleInstallSnapshot | src/raftCore/raft_node.cpp:1239-1299 | the new state and reply; see InstallKeeps, SnapshotRepairs and StableInstallIsSafeIff |
| Raft.RaftNode.TakeInstallReply | src/raftCore/raft_node.cpp:1216-1229 | the new state; see InstallReplyKeeps, SnapshotRepairs and SnapshotReplyIsCreditedIff |
| Raft.RaftNode.IsTermCommitted | src/raftCore/raft_node.cpp:1363-1377 | whether an entry of the own term is known to be committed past the boundary; see ChecksOnFull |
| Raft.RaftNode.IsNoopCommitted | src/raftCore/raft_node.cpp:1411-1420 | whether the no-op is committed in the current term; see ChecksOnFull |
| Raft.RaftNode.BuildReadHeartbeat | src/raftCore/raft_node.cpp:1432-1449 | the empty request, while the node still leads in the term |
| Raft.RaftNode.TakeBeatReply | src/raftCore/raft_node.cpp:1462-1480 | the new state and count; see BeatReplyRefines |
| Raft.RaftNode.FinishRead | src/raftCore/raft_node.cpp:1552-1565 | the value, its absence, or the loss of leadership |
| KvStore.KVStore.Apply | src/stateMachine/kv_store.cpp:33-85 | a put and a delete of one key, anything else nothing |
| KvStore.KVStore.Get | src/stateMachine/kv_store.cpp:87-106 | found exactly if present, with its value |
| KvStore.KVStore.Dump | src/stateMachine/kv_store.cpp:134-155 | the iterator loop, in whatever order, yields the whole content |
| KvStore.KVStore.LoadFromSnapshot | src/stateMachine/kv_store.cpp:157-187 | one batch of deletes and puts leaves exactly the given content |
| Text.IntRead | src/raftCore/raft_node.cpp:377-411 | an integer of 32 bits written after a gap is read back and nothing after it is touched |
| Text.WordRead | src/raftCore/raft_node.cpp:377-411 | so is a word without white space |
| Text.LineRead | src/persistence/storage.cpp:73-79 | so is a line |
| RoundTrip.AppendRoundTripIff | src/raftCore/raft_node.cpp:344-411 | parsing a built AppendEntries, with any number of entries and two nested configurations each, returns the record if and only if all its numbers fit 32 bits and all its keys, values and addresses are words |
| Codec.ConfigRead | src/raftCore/raft_node.cpp:1944-1969 | decoding an encoded configuration inside any text returns it and leaves the rest |
| RoundTrip.VoteRoundTripIff | src/raftCore/raft_node.cpp:334-375 | for RequestVote, if and only if its numbers fit |
| Codec.ReplyRoundTrip | src/raftCore/raft_node.cpp:413-443 | both boolean replies come back |
| RoundTrip.InstallRoundTripIff | src/raftCore/raft_node.cpp:1301-1345 | for InstallSnapshot, in whatever order its pairs were written, if and only if its numbers fit and its keys and values are words |
| Codec.EncodeConfig | src/raftCore/raft_node.cpp:1944-1954 | the writing loop produces the text that ConfigRead reads |
| Codec.DecodeConfig | src/raftCore/raft_node.cpp:1956-1969 | the reading loop, on any text, malformed ones included |
| Codec.EncodeEntry | src/raftCore/raft_node.cpp:355-363 | one entry line with both configurations |
| Codec.BuildAppendEntriesRpc | src/raftCore/raft_node.cpp:344-366 | the writing loop produces the text that AppendRoundTrip parses |
| Codec.ParseAppendEntriesRpc | src/raftCore/raft_node.cpp:377-411 | the reading loop, on any text |
| Codec.BuildInstallSnapshotRpc | src/raftCore/raft_node.cpp:1301-1316 | the writing loop lists every pair once |
| Codec.ParseInstallSnapshotRpc | src/raftCore/raft_node.cpp:1318-1345 | the reading loop, on any text |
| Storage.LoadAfterSave | src/persistence/storage.cpp:11-104 | load after save returns the same term, vote, boundary and log |
| Storage.PersistentStorage.Save | src/persistence/storage.cpp:11-41 | the file becomes the text that LoadAfterSave reads |
| Storage.PersistentStorage.Load | src/persistence/storage.cpp:43-104 | the reading loop over lines, on any file, blank lines skipped |
| Storage.SavedThenLoaded | src/persistence/storage.cpp:11-104 | the two methods in sequence |
| Framing.ReadsBackIff | src/rpc/Buffer.h:79-117 | a packet is read back, whatever follows it, if and only if its body has 1 to 64 MiB |
| Framing.ChunkingDoesNotMatter | src/rpc/TcpConnection.cpp:69-86 | for any bytes, malformed ones included, draining after every chunk yields what draining the whole yields, and leaves the same |
| Framing.FramingIsTransparent | src/rpc/TcpConnection.cpp:44-86 | for bodies of 1 to 64 MiB and any cutting of their packets, exactly those bodies come out in order with nothing left, and at every stop only a part of the next packet is buffered |
| Framing.DrainPrefix | src/rpc/TcpConnection.cpp:44-67 | wherever the stream is cut, the complete packets before the cut come out |
| Framing.BadLengthBlocks | src/rpc/Buffer.h:103-105 | after a length out of range nothing is ever decoded again |
| Framing.Buffer.Append | src/rpc/Buffer.h:12-18 | bytes go to the end |
| Framing.Buffer.Retrieve | src/rpc/Buffer.h:28-30 | bytes leave the front |
| Framing.Buffer.RetrieveAll | src/rpc/Buffer.h:32-36 | everything leaves |
| Framing.TryDecodePacket | src/rpc/Buffer.h:93-117 | takes one complete packet off the front, or touches nothing |
| Framing.TcpConnection.HandleRead | src/rpc/TcpConnection.cpp:69-86 | every complete request is answered once, in order, and the rest stays buffered |

## Left out

- 32-bit wrap-around of terms, indexes and counters: integers are unbounded, except where text is read back.
- `Protocol`: one addNode or removeNode in a run, between configurations of distinct ids. With more than one, nodes may be at
  configurations whose majorities do not meet (`TwoWinners.ElectionIsSafeIff`), since configurations are not persisted and
  each node takes them into effect at its own time.
- MemberCluster.OneLeaderPerTerm: for one addNode or removeNode in a run, as everything about clusters of nodes. Its logs,
  replies and snapshots are arbitrary, so that it holds without the exclusions of NodeCluster.
- MemberCluster.CommitMeetsElection: for the runs of OneLeaderPerTerm.
- MemberCluster.ReadMeetsElection: for the runs of OneLeaderPerTerm.
- NodeBooks.MatchIndexIsAcknowledged: for lives in which every reply is taken while the peer asked is still in its slot, and
  every reply to a snapshot before the boundary moves; without that it is false (`LateReply.LateReplyIsMiscredited`), and the
  two lemmas on single replies say exactly when it stays true.
- NodeBooks.CommitIsAcknowledged: for the same lives.
- NodeLives.ProposesInTurn: about deciding on a proposal; appending it is a later step (`NodeLives.AppendsInTurnIff`).
- NodeCluster.RunIsMatched: four moves are left out, and so out of everything in `NodeGuarantees`. An AppendEntries that
  straddles its receiver's boundary makes leader completeness false (`LostEntry.CommittedEntryIsLost`). A snapshot whose
  receiver has another entry at its boundary can make a voter useless (`Limits.RetainedMisleads`), and one whose receiver
  has applied more than the database holds can make the receiver's wrong (`Limits.StableOverwrites`,
  `Limits.JointOverwrites`). A reply to a snapshot that is taken when the leader's boundary is above what was sent and what
  it knows the peer to hold makes matchIndex unsound (`Limits.SnapshotReplyOvercounts`), and so does a reply that is taken
  after its slot has gone to another peer (`LateReply.LateReplyIsMiscredited`).
- NodeGuarantees.WholeLogsAreSafe: for the runs of `NodeCluster`, without the four moves above, as all of `NodeGuarantees`.
- NodeCluster.MoveSim: for the moves of `NodeCluster`, without the four above.
- NodeRefinement.AppendRefines: not for a request that starts below the boundary; CoveredAppendRefines is for those that end there too.
- SnapshotRefinement.InstallRefines: for the snapshots of `NodeCluster`; for any snapshot, of one node, see `NodeInvariant.InstallKeeps`.
- SnapshotRefinement.InstallReplyRefines: for the replies of `NodeCluster`; for any reply both arrays stay within bounds (`NodeInvariant.InstallReplyKeeps`).
- NodeInvariant.InstallKeeps: what is retained past a snapshot is not compared with it, so for any snapshot contiguity, index
  ordering and the database relation are claimed, log matching and term order only for those of `NodeCluster`.
- `NodeRun`: what the rest of the cluster owes a node (numbered entries, a commit index that is right) is an assumption of
  its events; `NodeRefinement.ReachableDelivers` discharges it for
  AppendEntries in a cluster without the four moves above.
- The gap between the two locked blocks of `replicateToPeer`, and the unlocked iteration over `peers_`: check and build are
  one step, and the peer list is the one of that step; for a read it is the one of the step that takes the read index. A
  reply for a slot that no longer exists is excluded by the precondition of `Raft.RaftNode.TakeAppendReply`.
- Protocol.Step: ReadPropose does not require that the check before it failed, and any read may give up at any moment; both only add runs.
- `leaderPut` and `leaderDelete`: the rounds of replication they start are moves of their own; their answers are the tests of
  `Acknowledge.AcknowledgementIsRightIff`.
- `replicateLogEntry` and `isMajorityMatched`: nothing calls them.
- `waitConfigState`, the two background loops, timeouts, sleeps and threads: a step may happen at any time.
- `snapshotThreshold_` is a parameter, the same for all nodes of a cluster; the code uses 5.
- Failing writes: persisting and every database write are atomic and succeed.
- Codec.GetCount: a count is a number below 2^64; decoding a huge count allocates as much in the code, which is not modelled.
- Codec.OpOf: an operation code outside 0..5 reads as NONE; the code keeps the number, which no case matches.
- `parseInstallSnapshotReply`, and the client commands of `handleRpcText`: one integer or a few words each.
- `TcpConnection::handleRead` when the peer has closed: requests that arrived with the closing are dropped; `readFd`,
  `writeFd`, epoll, `EventLoop`, `Channel`, `TcpServer` and `tcp_client` are input and output only.
- `Clerk`, `node_main.cpp` and `client_main.cpp`: a retry wrapper and entry points.
