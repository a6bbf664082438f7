# The MySQL operator's Raft, failover and replica logic, modelled and proved in Dafny

The operator keeps a MySQL cluster on Kubernetes: it creates the pods and what they need, brings
back lost replicas, and when the master is gone it lets a Raft leader (or, in an older path, a
score) decide who becomes master. This project models that logic and proves what it keeps.

`dafny verify dfyconfig.toml` checks everything (Dafny 4.11).

## How the model is built

**One node.** `RaftNode` describes a node as a value and each method of `raft.go` as a function on
it. `RaftManagers.RaftManager` is the object itself, with the source's fields, branches and loops;
each of its methods is proved to have the effect of one of those functions.

**The cluster.** `RaftCluster` puts N nodes (any N) together with a set of messages. A sent message
stays in the set and any step may deliver any of them, so runs contain every reordering, every
duplication and, by never delivering, every loss. `Apply` gives the steps: an election timeout, a
vote request going out, its delivery, a vote being counted, an AppendEntries going out, its
delivery, the step-down forced by a failover, and three steps the shipped code lacks but its tests
and its guide describe (below). Sends are goroutines in the source: a vote request may go out at any
later time, with the term the node then has, and so may a heartbeat, from a node that no longer leads. A run is any sequence of enabled steps
from new nodes; the theorems are about all runs. The members are the keys of the node map, so a node is always a member of its
own cluster (in the operator this holds as soon as `replicas` is at least 1, see `InitializeRaft`).

**History.** The fields `cast`, `reigns` and `held` of a cluster, the log a vote grant carries and
the logs in a tally record the past for the proofs. No step decides anything by them, with the one
exception that a grant is recognised as a whole message.

**As written, as intended, as published.** The code departs from Raft (Ongaro and Ousterhout, "In
Search of an Understandable Consensus Algorithm", extended version) in five places, the first three
of them also from its own documentation. `RaftNode.Variant` has one flag for each correction, so
that there are 32 variants, from `AS_WRITTEN` (none) over `AS_INTENDED` (the first three) to
`AS_PUBLISHED` (all):

| flag | as written | corrected |
|---|---|---|
| `countsGrants` | a vote counts once the request was stored (`internal/controller/raft.go:150`, `351-352`) | a vote counts when the peer grants it |
| `checksTerm` | the counting goroutine looks only at the role (`internal/controller/raft.go:153`) | the tally must be of the node's current term |
| `keepsVote` | AppendEntries of the current term clears `votedFor` (`internal/controller/raft.go:296-300`) | one vote a term (`RAFT_DEPLOYMENT_GUIDE.md:183`) |
| `keepsSuffix` | a batch deletes all that follows its place (`internal/controller/raft.go:314`) | only from the first conflicting entry on (figure 2, step 3) |
| `boundsCommit` | the commit index rises up to the length of the log (`internal/controller/raft.go:319`) | up to the last entry checked (figure 2, step 5), and it never falls |

`ExactCorrections` and `Failover` say, over all runs and all 32 variants, what each property takes:

| property | holds if and only if the variant has |
|---|---|
| Election Safety | the first three |
| Log Matching | the first three |
| failovers of one term agree on master and slaves | the first three |
| Leader Completeness | the first four |
| no two nodes commit different entries (leaders committing only what they have earned) | all five |

The theorems behind them are stated for single runs of any variant, hence of the code as it stands,
under conditions that are seen before each step:

- `RuledRun` (module `VoteRules`): only granted votes are counted, an electing tally is of the node's
  current term, and no node grants its vote to two candidates of a term. Nothing is asked of AppendEntries: that
  a heartbeat clears a vote is no harm until the node is asked again in the same term. Every run of a
  variant with the first three corrections keeps to this.
- `FreshRun`: no accepted batch leaves the follower with a mere beginning of the log it had.
- `CheckedRun`: no message raises a commit index past what it has checked.
- `EarnedRun`: leaders commit only entries of their term that a majority holds.

None of these is claimed of the operator's own runs. `OrdinaryRuns` gives a run of the code as written
that meets them all, in which a leader's heartbeat reaches the node that elected it, an entry is
replicated, committed and found again in the next leader. `WrittenRuns` also says which steps and runs
of the code are steps and runs of the documented protocol (`StepsAsIntended`, if and only if). That is
a much stronger condition: it leaves out every run in which a node takes AppendEntries of a term it
has voted in, so that no voter other than the leader ever accepts an entry in that term.

`HandlerLaws` says of every variant when a handler must answer true, in terms of the two logs, and that a
leader can always repair a follower. `PaperRules` says exactly on which messages the code and the paper differ. `RaftAsWritten`,
`AsWrittenTheorems` and `CommitIndex` hold for every run of every variant.

**Kubernetes.** `KubeStore.Store` holds pods, volume claims and ConfigMaps by name; every call on it
may fail. The relabelling, creation and reconcile loops work on it as the source does, and their
postconditions say what is there wherever they stop. A store may be `reliable`: then no call fails
by itself, and the same postconditions say exactly when the operation has to succeed. `Convergence`
is about any sequence of initialisations, passes and relabellings, with pods lost in between; every
call of `Reconcile` is one or two of them.

## Model

| member | source | states |
|---|---|---|
| RaftManagers.RaftManager.constructor | internal/controller/raft.go:64-81 | a new manager is a follower in term 0 with an empty log and no vote |
| RaftManagers.RaftManager.StartElection | internal/controller/raft.go:123-144 | the node stands in the next term with its own vote, and opens a tally of one vote against the majority of the members |
| RaftManagers.RaftManager.CountVote | internal/controller/raft.go:149-158 | one more vote; the node is promoted exactly when the tally has its majority while the node is still candidate (and, as intended, in the tally's term) |
| RaftManagers.RaftManager.BecomeLeader | internal/controller/raft.go:164-177 | the loop over the members sets next and match index of every other member and nothing else |
| RaftManagers.RaftManager.SendVoteRequest | internal/controller/raft.go:201-218 | the request carries the current term, log length and last term, whatever election it is sent for |
| RaftManagers.RaftManager.HandleVoteRequest | internal/controller/raft.go:221-258 | the object does what the cluster step `Vote` does, in all four outcomes |
| RaftManagers.RaftManager.SendAppendEntries | internal/controller/raft.go:261-281 | the window starts at the peer's next index and names the term before it |
| RaftManagers.RaftManager.SendHeartbeats | internal/controller/raft.go:187-198 | one empty window for each other member, in the order of the members, and no more |
| RaftManagers.RaftManager.HandleAppendEntries | internal/controller/raft.go:284-323 | the object does what the cluster step `Receive` does: old term, failed check, truncation and commit bound included |
| RaftManagers.RaftManager.ForceStepDown | internal/controller/raft_mysql_integration.go:74-79 | a node that is not leader becomes follower in the same term, with the same vote |
| RaftManagers.RaftManager.AppendLogEntry | test/raft_test.go:273-278 | a write adds one entry at the end, in whatever role |
| RaftManagers.CounterIsTally | internal/controller/raft.go:143-153 | the source's counter is the size of the cluster's tally, so its test is the cluster's test |
| RaftManagers.KeepingVoteMatters | internal/controller/raft.go:296-300 | as written and as intended AppendEntries differ if and only if the sender is of the same term and there is a vote to forget |
| HandlerLaws.FreeNodeVotesExactly | internal/controller/raft.go:242-257 | a node that is free to vote in a term votes for a candidate if and only if the candidate's log ends in a later term than its own, or in the same term and is no shorter |
| HandlerLaws.OneOfTwoVotes | internal/controller/raft.go:242-257 | of two nodes free in a term one at least would vote for the other, so two nodes never refuse each other for good |
| HandlerLaws.VoteIsKept | internal/controller/raft.go:237-257 | a candidate that was given a vote may ask again and is given it again; every other is refused in that term |
| HandlerLaws.RequestedTermTaken | internal/controller/raft.go:225-235 | a request of an old term changes nothing; one of a new term makes the node a follower of it even when refused; nothing but term, role and vote ever changes |
| HandlerLaws.FittingWindowTaken | internal/controller/raft.go:302-322 | a window of a sender whose term is not old, after a part of its log that the receiver has too, is answered with true and leaves the receiver a follower with the sender's log as far as the window goes |
| HandlerLaws.TakenExactly | internal/controller/raft.go:302-310 | where equal terms at an index mean equal logs up to it, a window is taken if and only if the sender is not old and the receiver has the log before it |
| HandlerLaws.LeaderWindowTakenExactly | internal/controller/raft.go:302-310 | so of every leader in every state that keeps Log Matching, wherever in the receiver's log the window begins |
| HandlerLaws.PlacelessHeartbeatTaken | internal/controller/raft.go:303 | a heartbeat that names no place is taken by any node not in a later term |
| HandlerLaws.SenderObeyed | internal/controller/raft.go:290-310 | an old sender changes nothing; any other makes the receiver a follower of its term without a vote of an earlier one, and a window not taken leaves log and commit index alone |
| HandlerLaws.CommitFollows | internal/controller/raft.go:317-320 | as written, a taken batch commits what its sender has, as far as the batch goes, and never less than before it when the sender has less |
| HandlerLaws.LeaderCanRepair | internal/controller/raft.go:261-315 | in any state that keeps Log Matching a leader can bring any node that is not in a later term to its own log in three steps, however far the two had diverged |
| HandlerLaws.PromotedIndexes | internal/controller/raft.go:170-177 | a new leader takes every other member to have its whole log and to have confirmed none of it; what it had noted of others stays |
| HandlerLaws.StandingKeepsRest | internal/controller/raft.go:126-128 | standing for election is a new term, the own vote and the role; log, commit index and what was noted of others stay |
| HandlerLaws.UnknownPeerPlaceless | internal/controller/raft.go:262-266 | to a peer a node has noted nothing of, its window names no place |
| HandlerLaws.SteppedDownIsNotElected | internal/controller/raft_mysql_integration.go:74-79 | after the step-down no tally elects the node until it stands again; a leader stays one; nothing but the role changes |
| HandlerLaws.MajorityIsLeast | internal/controller/raft.go:144 | the majority is the least number of votes that no two candidates can both have |
| AsWrittenTheorems.TermsNeverDecrease | internal/controller/raft.go:123-127 | any variant: along every run no node's term ever falls |
| AsWrittenTheorems.CandidatesVoteForThemselves | internal/controller/raft.go:126-128 | any variant: in every reachable state a candidate or leader has voted for itself |
| AsWrittenTheorems.LeaderAppendOnly | internal/controller/raft.go:295-315 | any variant: between two moments at which a node leads the same term its log has only grown at the end |
| AsWrittenTheorems.LogTermsOrdered | internal/controller/raft.go:284-315 | any variant: terms never decrease along a log or a window in flight, and never exceed the holder's or message's term |
| AsWrittenTheorems.SentWindowsAreTrue | internal/controller/raft.go:261-266 | any variant: every window a leader sends is a slice of its log at a real index with the true term before it; a heartbeat that goes out when its sender no longer leads claims the true term of its place, or the term 0 past the end of the log |
| AsWrittenTheorems.OverlongHeartbeatsRejected | internal/controller/raft.go:303-309 | any variant: no node accepts such a heartbeat for a place past the end of its sender's log |
| AsWrittenTheorems.SlicesStayInRange | internal/controller/raft.go:303-314 | any variant: no delivery in any run makes the handler index or slice out of range |
| AsWrittenTheorems.LoneNodeNeverLeads | internal/controller/raft.go:147-159 | any variant: promotion only happens on a peer's vote, so a cluster of one never has a leader |
| RaftAsWritten.HandlerKeepsNodeOk | internal/controller/raft.go:302-315 | truncating and appending a window in flight keeps the order of terms |
| RaftAsWritten.SoundStep | internal/controller/raft.go:123-323 | the invariant behind these theorems is kept by every step of every variant |
| CommitIndex.CommitKeptExactly | internal/controller/raft.go:312-320 | any variant: an accepted batch leaves the commit index no lower and inside the log if and only if it reaches the old commit index (or, where only conflicts are deleted, meets none) |
| CommitIndex.CommitsGrowExactly | internal/controller/raft.go:312-320 | any variant: over a run no commit index falls or leaves its log if and only if every accepted batch reaches so far |
| CommitIndex.CommitIndexMonotone | internal/controller/raft.go:313-320 | any variant: over those runs each commit index grows between any two moments, and stays in its log |
| LostEntries.StaleBatchLosesCommit | internal/controller/raft.go:313-315 | any variant whose batches delete without a conflict has a run in which a late, shorter batch leaves a log of one entry with a commit index of two |
| CommittedEntries.CommitsStay | internal/controller/raft.go:312-320 | any variant: over the runs that keep the vote rules, accept nothing stale or unchecked and commit what is earned, every batch reaches so far, and no commit index falls |
| CommitIndex.ShippedStepsCommitNothing | internal/controller/raft.go:318-320 | any variant: without a step that advances a leader's commit index, which no method of the operator is, nothing is ever committed |
| ElectionSafety.OneCandidate | internal/controller/raft.go:143-155 | two tallies of one term that each elect share a voter, and so are for one candidate |
| ElectionSafety.FirstElection | internal/controller/raft.go:153-155 | any variant, vote rules kept: a promotion is always the first of its term |
| ElectionSafety.ElectionsStep | internal/controller/raft.go:221-258 | any variant, vote rules kept: every step keeps each vote on record true to its voter, each tally true to the votes and each leader true to a majority |
| RaftSafety.AtMostOneLeaderPerTerm | internal/controller/raft.go:123-184 | Election Safety, any variant, vote rules kept: over a whole run, forced step-downs included, at most one node ever leads a term |
| Counterexamples.CountedRequestsElectTwo | internal/controller/raft.go:150 | any variant that counts requests as votes has a run with two leaders of term 1 |
| Counterexamples.OldTalliesElectTwo | internal/controller/raft.go:153 | any variant that does not check the tally's term has a run with two leaders of term 2 |
| Counterexamples.ClearedVotesElectTwo | internal/controller/raft.go:296-300 | any variant that clears the vote on a heartbeat has a run with two leaders of term 1 |
| ExactCorrections.ElectionSafeExactly | README.md:21-22 | Election Safety holds over all runs of exactly the variants that count grants, check the term and keep votes |
| ExactCorrections.LogsMatchExactly | internal/controller/raft.go:296-315 | Log Matching holds over all runs of exactly the same variants |
| ExactCorrections.LeadersCompleteExactly | internal/controller/raft.go:312-315 | Leader Completeness holds over all runs of exactly the variants that also delete only what conflicts |
| ExactCorrections.CommitsAgreeExactly | internal/controller/raft.go:312-320 | where leaders commit only what they have earned, nodes agree on what is committed over all runs of exactly the variant with all five corrections |
| ExactCorrections.HeldOnce | internal/controller/raft.go:312-322 | the record of accepted entries says nothing that did not happen in the run |
| WrittenRuns.StepExactly | internal/controller/raft.go:149-158 | a step of the code as written is the documented protocol's step if and only if a counted vote was granted, an electing tally is of the current term, and AppendEntries of the current term finds no vote |
| WrittenRuns.RunExactly | internal/controller/raft.go:123-323 | a run of the code as written is a run of the documented protocol if and only if all its steps meet that condition |
| WrittenRuns.WrittenElectionSafety | internal/controller/raft.go:123-184 | Election Safety of the code as written, over all runs that keep the vote rules |
| WrittenRuns.WrittenLogsMatch | internal/controller/raft.go:302-315 | Log Matching of the code as written, over all runs that keep the vote rules |
| WrittenRuns.WrittenLeadersComplete | internal/controller/raft.go:221-323 | Leader Completeness of the code as written, over all runs that keep the vote rules and accept no stale batch |
| WrittenRuns.WrittenCommitsAgree | internal/controller/raft.go:312-320 | agreement on what is committed, of the code as written, over all of these that also commit nothing unearned or unchecked |
| WrittenRuns.IntendedIsRuled | internal/controller/raft.go:221-258 | a run of the code that is one of the documented protocol keeps the vote rules |
| CorrectedElections.VotesOnceIsRuled | internal/controller/raft.go:149-158 | with the three corrections of the elections every run keeps the vote rules |
| CorrectedElections.CastsKeptExactly | internal/controller/raft.go:237-254 | any variant: a step overwrites a vote on record if and only if it grants a request against the rule |
| CorrectedElections.OneVoteExactly | internal/controller/raft.go:237-254 | any variant: over a run no vote is ever overwritten if and only if every granted request meets the rule |
| OrdinaryRuns.ConditionsCanBeMet | internal/controller/raft.go:164-184 | the code as written has a run of two nodes that meets all the conditions of these theorems, in which the voter takes the heartbeat of the leader it elected, an entry is held by both and committed, and the next leader has it |
| LogMatching.BatchIsPrefix | internal/controller/raft.go:302-315 | the follower's log up to the place of an accepted batch, with the batch after it, is a prefix of the sender's log |
| LogMatching.BatchOutcome | internal/controller/raft.go:312-315 | an accepted batch leaves the log as it was, which the batch then repeats, or a prefix of the sender's, under either rule of truncation |
| LogMatching.BatchKeepsExactly | internal/controller/raft.go:312-315 | entries the sender has too stay in the follower's log if and only if the batch reaches them or nothing is deleted without a conflict |
| LogMatching.LogsStep | internal/controller/raft.go:261-315 | any variant, vote rules kept: every step keeps every log, up to each of its entries, equal to the log of the leader of that entry's term |
| RaftSafety.LogsMatch | internal/controller/raft.go:302-315 | Log Matching, any variant, vote rules kept: two logs, at any two moments of a run, with the same term at an index are identical up to it |
| VoteRecency.RecentStep | internal/controller/raft.go:242-251 | any variant, vote rules kept: votes in flight and counted were given by logs no more recent than the candidate's own, late as they may arrive |
| LeaderCompleteness.MemoryStep | internal/controller/raft.go:284-315 | any variant, vote rules kept, no stale batch (which needs no assuming where only conflicts are deleted): a step makes no node forget an entry it held in its own term unless a later leader lacks it |
| LeaderCompleteness.KeptSuffixIsFresh | internal/controller/raft.go:312-315 | where only conflicts are deleted no run has a stale batch |
| LeaderCompleteness.RecentKeeps | internal/controller/raft.go:249-251 | a candidate at least as recent as a voter that has an entry has it too, once all leaders in between do |
| LeaderCompleteness.ElectedComplete | internal/controller/raft.go:221-258 | an entry held by a majority in its own term is in the log every later leader was elected with |
| RaftSafety.AcceptedIsHeld | internal/controller/raft.go:312-322 | answering true to a batch of the sender's own term means holding its entries in that term |
| RaftSafety.LeadersAreComplete | internal/controller/raft.go:221-323 | Leader Completeness, any variant, vote rules kept, over all runs without stale batches: what a majority accepted in its own term, with all before it, is in the log of every leader of a later term |
| LostEntries.StaleBatchLosesEntry | internal/controller/raft.go:313-315 | any variant whose batches delete without a conflict has a run in which a late, shorter batch makes a later leader lack a majority-held entry |
| LostEntries.StaleBatchCommitsAnotherEntry | internal/controller/raft.go:313-315 | ... and one in which that leader then commits another entry where the old one was committed |
| LostEntries.RivalForgets | internal/controller/raft.go:149-158 | any variant with an uncorrected election has a run in which a later leader lacks a majority-held entry |
| LostEntries.RivalsCommit | internal/controller/raft.go:149-158 | ... and one in which two leaders of a term commit different entries |
| PaperRules.TruncationAgreesExactly | internal/controller/raft.go:312-315 | the truncation leaves the paper's log if and only if the batch does not end inside what the follower already had of it |
| PaperRules.CommitBoundAgreesExactly | internal/controller/raft.go:317-320 | the commit bound is the paper's if and only if the message carries entries, or raises nothing, or raises to no more than it has checked |
| LostEntries.HeartbeatCommitsAnotherEntry | internal/controller/raft.go:318-320 | any variant that commits past what was checked has a run in which a heartbeat makes a node commit an entry that the leader, at that index, does not have |
| CommittedEntries.BackedStep | internal/controller/raft.go:312-320 | any variant, vote rules kept, nothing deleted or committed unchecked, leaders committing what they have earned: a step keeps every commit index backed by a majority |
| CommittedEntries.CommittedEntriesAgree | RAFT_DEPLOYMENT_GUIDE.md:226-247 | over such runs no two nodes ever disagree, at any two moments, on an entry both have committed |
| Names.GetClusterNodes | internal/controller/raft.go:326-333 | as many names as replicas, all different, none empty: the length the quorum uses is the number of members |
| Names.NumberRoundTrip | internal/controller/reconcile_replicas.go:36-48 | a pod number printed with two digits or more and read back out of the name is the number again |
| Names.TwoDigitsIsShortest | internal/controller/reconcile_replicas.go:109-115 | of the strings of two digits or more that read as a number the printed form is the shortest: no zeros in front beyond two digits |
| Names.FindsLeftmost | internal/controller/reconcile_replicas.go:98-102 | a number is found at the leftmost place where the pattern matches, with all the digits there, and none exactly if it matches nowhere |
| Names.SomeNames | internal/controller/initialization.go:34-65 | pods 1, 10 and 100 are mysql-01, mysql-10 and mysql-100 |
| Names.NamesDistinct | internal/controller/reconcile_replicas.go:36-37 | pod names and ConfigMap names are equal if and only if the numbers are |
| Names.FirstNodeIsNoPod | internal/controller/mysqlcluster_controller.go:244-248 | the controller's Raft name is never the name of one of the operator's pods |
| Failover.RaftBasedMasterElection | internal/controller/raft_mysql_integration.go:32-67 | a choice is made exactly if some poll finds the node leading, and is the node itself with all other members as slaves |
| Failover.HandleRaftBasedFailover | internal/controller/raft_mysql_integration.go:70-102 | success means the node was seen leading a term and is now the one master among the members, all others slaves; failure leaves the roles alone or part way through that same relabelling; without a pod of the node's name nothing is touched |
| Failover.FailoversOfOneTermAgree | internal/controller/raft_mysql_integration.go:39-60 | any variant, vote rules kept: two completed failovers whose polls show nodes of one run leading the same term were run by the same node, chose the same slaves and leave the same roles |
| Failover.FailoversAgreeExactly | internal/controller/raft_mysql_integration.go:82-90 | they agree over all runs of exactly the variants with corrected elections; of any other, two nodes complete a failover of one term, each making itself the master |
| KubeStore.Store.LabelPod | internal/controller/utlis.go:396-414 | success sets the role of that pod and keeps its other labels, its claim, its ConfigMap and all other pods; failure changes nothing |
| KubeStore.Store.CreateConfigMap | internal/controller/utlis.go:26-78 | create if absent: an existing ConfigMap keeps its server id |
| KubeStore.Store.CreatePVC | internal/controller/utlis.go:81-132 | create if absent, and success means it is there |
| KubeStore.Store.CreatePod | internal/controller/utlis.go:135-241 | create if absent: an existing pod keeps its labels, claim and ConfigMap; a new one is listed as a mysql pod and is neither master nor slave |
| KubeStore.Store.ListMysqlPods | internal/controller/reconcile_replicas.go:65-93 | each pod labelled app=mysql once; a failed list call reads as no pods |
| Roles.SetupMasterSlaveReplication | internal/controller/utlis.go:342-393 | wherever it stops, the pods are the old ones or the master and a first part of the slaves have been relabelled; success reaches them all |
| Roles.SetupMySQLMasterSlaveReplication | internal/controller/raft_mysql_integration.go:224-306 | the same of the Raft integration's loop |
| Roles.MastersAfterStop | internal/controller/raft_mysql_integration.go:224-240 | at any stop the masters are the new one and the old ones the loop has not reached |
| Roles.AssignedWritesRoles | internal/controller/utlis.go:404-407 | a relabelling writes roles: every other label, the claim and the ConfigMap of each pod stay |
| Roles.OneMasterAfterSuccess | internal/controller/raft_mysql_integration.go:224-240 | a completed relabelling of a cluster leaves one master in it and everyone else slave, whatever the labels were |
| Roles.CheckReplicaStatus | internal/controller/reconcile_master_slave.go:93-147 | the master is the pod the endpoint names, and the failed replicas are exactly the other listed pods whose replication does not run; without a reading it fails |
| Roles.EnsureSlaveRoles | internal/controller/reconcile_master_slave.go:150-185 | only pods other than the one the endpoint names become slaves; success leaves no other pod with another role; without a reading nothing is touched |
| Roles.RepairRoles | internal/controller/mysqlcluster_controller.go:199-217 | either reading of the endpoint may fail; after a leader's repair only the pod it names can be master among the mysql pods, and it is if and only if it was before or some replica had to be set up again |
| Roles.AssignedThen | internal/controller/mysqlcluster_controller.go:199-217 | one relabelling after another is a relabelling: the last role written stays |
| MasterFailure.HandleMasterFailure | internal/controller/reconcile_master_slave.go:72-90 | a score failover promotes the winner, demotes no old master, and touches nothing when there is no winner; with a winner only a failing call stops it |
| MasterFailure.OldMastersStay | internal/controller/reconcile_master_slave.go:83-87 | after a completed score failover there is one master if and only if no pod was labelled master before |
| Replicas.ExtractPodNumbers | internal/controller/reconcile_replicas.go:96-106 | the first number after `mysql-` anywhere in each name, in order, names without one left out |
| Replicas.NumbersHold | internal/controller/reconcile_replicas.go:96-106 | a number is extracted if and only if some name is read as it |
| Replicas.NumbersAppend | internal/controller/reconcile_replicas.go:100-104 | numbers are extracted name by name, in order, repeats included |
| Replicas.GenerateExpectedPodNumbers | internal/controller/reconcile_replicas.go:109-115 | the two-digit forms of 1 to count, in order, and no others |
| Replicas.FindMissingPodNumbers | internal/controller/reconcile_replicas.go:118-133 | exactly the expected numbers that are not there, each once, in some order |
| Replicas.ExpectedSize | internal/controller/reconcile_replicas.go:109-115 | count different pod names are expected |
| Replicas.CreateReplica | internal/controller/reconcile_replicas.go:35-55 | wherever it fails, nothing is lost and no pod is without its claim and ConfigMap |
| Replicas.CreateMissing | internal/controller/reconcile_replicas.go:35-58 | objects are made for the missing numbers only; where it stops, the numbers before are made and those after untouched |
| Replicas.ProgressKeepsRoles | internal/controller/reconcile_replicas.go:35-58 | work on the objects makes no pod a master and none a slave |
| Replicas.ReconcileReplicas | internal/controller/reconcile_replicas.go:17-62 | a pass loses nothing, changes no role and adds only expected objects; a skipped one saw the wanted count; when no call fails it is skipped or completes, by that count alone, and makes nothing for a number read from a listed pod; a completed one leaves a pod for every number not so read |
| Replicas.ServerIdsDistinct | internal/controller/initialization.go:33-40 | two of the operator's pods never run with the same server id, and each runs with its own number |
| Replicas.UntouchedIsBacked | internal/controller/initialization.go:33-62 | that holds to begin with when the operator has made nothing yet |
| Convergence.SkipIsRightExactly | internal/controller/reconcile_replicas.go:22 | with the wanted count listed, all expected pods are there if and only if no other pod is listed |
| Convergence.CountTestExact | internal/controller/reconcile_replicas.go:22 | with only expected pods listed, the count test skips if and only if none is missing |
| Convergence.SurplusHidesMissing | internal/controller/reconcile_replicas.go:22-32 | a cluster scaled from three to two without pod 1 is skipped although pod 1 is missing |
| Convergence.TidyPass | internal/controller/reconcile_replicas.go:17-62 | with only expected pods listed, a pass never loses ground, and a completed one makes the listed pods exactly the expected ones |
| Convergence.FurtherPassIdle | internal/controller/reconcile_replicas.go:35-58 | over a cluster with all its pods a pass creates nothing at all |
| Convergence.PassesKeep | internal/controller/reconcile_replicas.go:17-62 | over any store, along any sequence of initialisations, passes and relabellings, failed ones included, the operator loses no pod, makes none that is not expected, and pods that had their objects keep them |
| Convergence.StepsHold | internal/controller/reconcile_replicas.go:35-58 | the same with pods lost in between, except that these are gone: claims and ConfigMaps are never lost or changed |
| Convergence.AlwaysBacked | internal/controller/initialization.go:33-62 | starting from no object of the operator, after any such sequence, with any pods lost in between, each of its pods has its claim and ConfigMap and runs with its own number as server id |
| Convergence.ObjectsOutlivePod | internal/controller/reconcile_replicas.go:39-55 | a pod that was lost and made again has the claim, the ConfigMap and the server id it had |
| Convergence.Restored | internal/controller/reconcile_replicas.go:17-62 | with only expected pods listed at first, and whatever pods were lost since, a completed pass makes the listed pods the expected ones |
| Convergence.Converged | internal/controller/reconcile_replicas.go:17-62 | until the next pod is lost no later step changes anything but roles |
| Initialization.CreateConfigMaps | internal/controller/initialization.go:33-40 | number by number: wherever it stops nothing is lost and no later number was begun; success leaves every number its ConfigMap |
| Initialization.CreatePVCs | internal/controller/initialization.go:45-50 | the same of the claims, with no ConfigMap or pod touched |
| Initialization.CreatePods | internal/controller/initialization.go:53-62 | every pod made finds its claim and ConfigMap there |
| Initialization.CreateObjects | internal/controller/initialization.go:32-62 | no claim before all ConfigMaps, no pod before all claims, and no role given |
| Initialization.AssignFirstRoles | internal/controller/initialization.go:65-76 | success leaves pod 1 the one master of the expected pods and the others slaves |
| Initialization.Init | internal/controller/initialization.go:12-82 | refused below one replica; wherever it stops, objects were made in order, and roles only given once all pods were there; success means all pods with exactly one master, and nothing but a failing call prevents it |
| Reconciler.MysqlClusterReconciler.InitializeRaft | internal/controller/mysqlcluster_controller.go:153-170 | the controller runs as node 0 of as many members as there are replicas, named in order, and is one of them if and only if there are any |
| Reconciler.MysqlClusterReconciler.ReconcileRoles | internal/controller/mysqlcluster_controller.go:173-220 | master down: a failover or an error; master up: only a leader touches any role; labels other than roles are never changed; when no call fails a failover succeeds exactly if the node is seen leading, and a broken replica puts the master's label right |
| Reconciler.MysqlClusterReconciler.ReconcileCluster | internal/controller/mysqlcluster_controller.go:95-105 | a pass over the replicas and then work on the roles; a failed pass leaves roles and Raft node alone |
| Reconciler.MysqlClusterReconciler.Reconcile | internal/controller/mysqlcluster_controller.go:52-122 | every call is a step or two of the sequences above, whatever fails; a cluster not yet initialised is marked so exactly if the call succeeds, with one master then; the Raft node is made once and kept; a completed failover leaves one master, but over a store of the operator's own pods alone none ever completes |
| Reconciler.InitialisedOnce | internal/controller/mysqlcluster_controller.go:61-78 | over any sequence of calls a cluster counts as initialised exactly from the first call on that gave the first roles to all pods, and every call up to it initialises |
| MasterChoice.SplitJoin | internal/controller/elect_new_master.go:139-140 | splitting a GTID set at commas loses nothing and leaves no comma |
| MasterChoice.CalculateGTIDScore | internal/controller/elect_new_master.go:131-155 | the nested loop with its break computes the fraction of the master's pieces, repeats counted, that the slave has |
| MasterChoice.CoveredCounts | internal/controller/elect_new_master.go:143-151 | the count is the number of places in the master's list whose piece the slave has, wherever they stand |
| MasterChoice.GTIDScoreIsShare | internal/controller/elect_new_master.go:153-154 | the score is the share of those places |
| MasterChoice.EmptySetScoresNothing | internal/controller/elect_new_master.go:134-136 | an empty set on either side scores nothing |
| MasterChoice.GTIDScoreBounds | internal/controller/elect_new_master.go:131-155 | the score is between 0 and 1, and 1 if and only if neither set is empty and the slave has every piece |
| MasterChoice.GTIDScoreMonotone | internal/controller/elect_new_master.go:143-154 | a slave with more pieces never scores less |
| MasterChoice.ScoreOrderExactly | internal/controller/elect_new_master.go:79-106 | the order the sum of scores induces: size first, coverage between equal sizes, and one byte more at most drawn level by full coverage against none |
| MasterChoice.ElectNewMaster | internal/controller/elect_new_master.go:23-77 | the first healthy slave of the highest score with all other slaves; failure exactly if listing failed, a healthy slave cannot be read, or none beats -1 |
| MasterChoice.WinnerUnique | internal/controller/elect_new_master.go:41-58 | the pods determine the winner |
| MasterChoice.WinnerHasMostData | internal/controller/elect_new_master.go:54-57 | no healthy slave has two bytes more than the winner, one byte more only with no coverage against full, and at equal size none has better coverage |
| MasterChoice.FirstOfEquals | internal/controller/elect_new_master.go:54 | of pods equal in size and coverage the first is chosen |
| MasterChoice.WinnerIsReady | internal/controller/utlis.go:269-272 | only a running pod whose first container is ready is chosen |
| MasterChoice.NobodyScoresExactly | internal/controller/elect_new_master.go:38-57 | nobody beats the starting score if and only if every ready pod has a size below -1, or -1 with no coverage |
| MasterChoice.CoverageCanLose | internal/controller/elect_new_master.go:17-21 | the comment promises the highest GTID coverage; a slave with all of it loses to one with none and two bytes more |
| MasterChoice.BestCoverageWinsExactly | internal/controller/elect_new_master.go:17-21 | the promise is kept if and only if some best covered healthy pod is outweighed by no healthy pod that covers less: none of those has more data, save one byte against full coverage from a later pod without any |
| MasterChoice.HealthyIsEnough | internal/controller/elect_new_master.go:60-63 | with sizes that are not negative a healthy slave is never passed over for want of a score |
| MasterChoice.NamesButExactly | internal/controller/elect_new_master.go:69-74 | the remaining slaves are all the slaves listed, healthy or not, but the winner |
| MasterChoice.NamesButAppend | internal/controller/elect_new_master.go:69-74 | in the order they are listed |
| MasterChoice.OneLeftOut | internal/controller/elect_new_master.go:69-74 | with distinct names exactly one pod is left out |
| Monitoring.HasQuorum | internal/controller/raft_monitoring.go:326-339 | a quorum is reported if and only if the active peers and the node reach the majority of an election |
| Monitoring.WarnsOfPartition | internal/controller/raft_monitoring.go:258-268 | the partition warning is given if and only if they do not |
| Monitoring.ActiveUpToTwoIntervals | internal/controller/raft_monitoring.go:262-266 | a peer counts as active up to, and not including, two heartbeat intervals after its last contact |
| Monitoring.OneSideHasQuorum | internal/controller/raft_monitoring.go:330-339 | when the nodes fall into sides that only hear themselves, two monitors on different sides, each with its own peer map, do not both report a quorum |
| Monitoring.NoPeersAlwaysQuorum | internal/controller/raft_monitoring.go:330-339 | without peers a node reports a quorum, whatever the size of the cluster |
| Monitoring.MissingPeersErr | internal/controller/raft_monitoring.go:330-339 | a monitor that lacks only peers it has not heard of reports every quorum there is |
| Monitoring.GuideThresholdExactly | RAFT_DEPLOYMENT_GUIDE.md:240-241 | the guide's replication rule asks for a majority if and only if the cluster size is odd |

## Left out

- Steps the shipped code lacks: it has no receive loop, no leader append, no advance of a leader's commit or next index, and its messages carry a count instead of the entries. Messages go straight to the handlers with their entries; `AppendEntry`, `SetNextIndex` (any index from 1 to the end of the log plus one) and `AdvanceCommit` stand for the rest, from `test/raft_test.go:273-278` and `RAFT_DEPLOYMENT_GUIDE.md:226-278`.
- Fields `raft.go` uses without declaring (`ctx` and others), so that it does not compile as it stands: the method bodies are followed.
- Goroutine interleavings inside a send: each send reads the node at one moment, though that moment may be any time after the send was started.
- Restarts: the source keeps term, vote and log in memory only and a new process starts in term 0, so all theorems about runs are about one lifetime of each process; a node that restarts may vote again in a term it has voted in.
- RaftManagers.RaftManager.HandleAppendEntries: takes a negative previous index with entries, on which the source's slice expression panics, as excluded; `SlicesStayInRange` shows no run delivers one.
- LeaderCompleteness.MemoryStep: needs the delivered batch not to be stale where batches delete without a conflict; there it fails, as the run in `StaleBatchLosesEntry` shows, and `LeadersCompleteExactly` says that this correction is what it takes.
- RaftSafety.LeadersAreComplete: is about runs without stale batches, for the same reason; with `keepsSuffix` these are all runs.
- CommittedEntries.CommittedEntriesAgree: is about runs in which nothing is deleted or committed unchecked, which are all runs with `keepsSuffix` and `boundsCommit`, and in which leaders commit what they have earned; the shipped code has no step that commits.
- RaftManagers.RaftManager.StartElection: does not model timers, timeouts and the time of the last heartbeat; any node that does not lead may stand at any time, and nothing is claimed about an election ever succeeding.
- Monitoring.OneSideHasQuorum: is about monitors that know all their peers; nothing in the source enters a peer into the map or sets the heartbeat interval, so that as shipped every monitor reports a quorum (`NoPeersAlwaysQuorum`).
- 64-bit wrap-around of terms and indexes, and of the 32-bit replica count.
- Status updates, metrics, logging, the applied index and the leader's name.
- Failover.RaftBasedMasterElection: the states of the node at the moments it is looked at are a parameter; `FailoversOfOneTermAgree` is about polls taken from a run.
- Failover.HandleRaftBasedFailover: Raft names its members `<cluster>-<number>` while pods are called `mysql-<number>`; the store may hold pods of any names, and `Reconcile` states what follows from this where it holds only the operator's own.
- MySQL itself: SQL text, replication threads, GTID sets and data sizes are outcomes given as parameters; semi-synchronous replication is not part of this model, and its failure does not stop a failover.
- Kubernetes itself: caches, endpoint lag, conflicting writers, services and ConfigMap transport. A write that fails changes nothing, and a list or an endpoint read is of the present store (the two endpoint readings of a repair may differ).
- KubeStore.Store.CreatePod: does not model the wait for the new pod to become ready, which never returns an error.
- KubeStore.Store.LabelPod: a pod's label map is never missing; in the Raft integration and in `ensureSlaveRoles` the source would panic on one.
- MasterChoice.GetDataScore: exact reals instead of 64-bit floats, so no rounding of large sizes.
- MasterFailure.HandleMasterFailure: expects the listing to be of the pods labelled slave at that moment. The surrounding `reconcileMasterSlave`, which nothing calls, is not part of this model; its other half differs from `RepairRoles` only in relabelling the master even when no replica failed.
- The annotation that marks a cluster as initialized is a field of the reconciler; deleting the cluster object or changing the replica count between calls is not modelled.
