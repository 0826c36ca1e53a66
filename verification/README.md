# A verified model of the two-stage PBFT replica

This project models the consensus core of FISCO BCOS: replicas first order blocks (pre-prepare,
prepare, commit, view change), execute what they ordered, and then agree on the result of the
execution with checkpoint votes before a block reaches the ledger. Both stages run as a pipeline
inside a window of indices. The family is Castro and Liskov, "Practical Byzantine Fault
Tolerance", sections 4.2 to 4.4, with two differences that shape the proofs: a replica that has
precommitted at an index never unlocks, and votes are counted per hash and sender, not per view.

`dafny verify dfyconfig.toml` checks everything.

## How it is built

* **Values.** `Types`, `ConfigModel`, `CacheModel` and `ReplicaModel` describe a replica as a
  value with one function for each atomic operation of the cache processor and the engine. What
  leaves a replica (messages, executions, ledger writes) is kept in logs.
* **Classes.** `Config`, `Cache`, `CacheProcessor`, `Engine` and `BlockValidator` have the fields,
  loops and early returns of the C++ classes. Each method is proved to have exactly the effect of
  the function for its operation: `Abs() == F(old(Abs()))`. Vote weights exist only here; the
  `Valid` predicates say that every incremental weight equals the weight of the distinct senders
  cached at that moment. `Steps` holds the lemmas for single loop steps.
* **Network.** `Network` runs honest replicas, one handler per step, against faulty nodes that
  send anything under their own identity; messages are delayed, lost, repeated and reordered at
  will. A `Setting` says of which kinds votes carry a verified signature, whether the signed bytes
  bind the kind, whether the signature of a view change binds its content, and which results an
  execution can have. `CacheInvariant`, `ReplicaInvariant`, `HandlerInvariant`, `Monotone` and
  `ViewChangeInvariant` prove what each step keeps in every setting, and `Runs` extends this to whole
  runs. `VoteOrder`, `PassiveSteps`, `OrderSteps` and `OrderedRuns` order the votes of a run by view.
  `Safety` states what follows. `UntypedVotes`, `LightNodes` (on top of `Collecting` and `LightRuns`),
  `ResultVotes` and `UntypedResults` show runs in which agreement fails because the kind of a vote is
  not bound, `ForgedChange` one in which a new view is refused because the content of a view change
  is not. `LoneReplica` gives a run in which a block is ordered, executed and written.
* **What each operation does, exactly.** These modules say in terms of the fields, and without the
  functions they are about, when an operation acts and what it leaves behind: `Progress` (the passes
  over the caches), `Admission` (pre-prepares and votes), `Certification` (view changes and new views),
  `Outcomes` (timeouts, joining, recovery), `Settlement` (results, checkpoints, written blocks) and
  `Sealing` (ranges of blocks to seal). `Readiness` and `Settlement` show that no run leaves a proposal
  or a checkpoint lying that could be executed or submitted. `Announcements` and `Reproposals` follow
  a lock over whole runs, from the replica that holds it into its view change and into the new view of
  the next leader.
* **Further results.** `Weights` (quorum arithmetic), `NewViewProofs` (the new-view message),
  `FastViewChange` (leader rotation and the recursion over disconnected leaders) and `StateMachine`.

The lock argument in short: a commit vote is broadcast only when a proposal is locked. The lock is
held until its index falls below a watermark, and below a watermark no pre-prepare is accepted.
So each honest replica votes for one hash per index for ever, in whatever views. Two commit
quorums share an honest voter, and if a verified commit vote is one that its sender cast as such,
they are for one hash. The same holds for checkpoint votes, because the expected checkpoint passes
an index with the only vote for it.

If a verified vote may be of another kind, a second argument is left. A replica that locks at an
index has voted for other hashes there only in earlier views, and each member of the quorum behind
its lock signed in its view or a later one. If no quorum can do without any honest node, two locks
on different hashes would each have to be the earlier one.

## Assumptions

* One fixed node list for a run, with total weight at least 1 and below 2^64. The properties of
  node lists and of sealing ranges are proved without this.
* Faulty nodes together weigh at most `m_maxFaultyQuorum`.
* Nobody else produces the signature of an honest node. A signature names the signing key and
  covers the header of a message (view, index, hash, sender). The carried proposal is not covered,
  and the adversary may replace it by any other with the same index and hash. The kind of a vote is
  not covered either: the code signs the header fields
  (bcos-pbft/pbft/protocol/PB/PBFTMessage.cpp:30-43,
  bcos-pbft/pbft/protocol/proto/PBFT.proto:5-16), and the packet type stands in the unsigned packet
  around them (bcos-pbft/pbft/protocol/PB/PBFTCodec.cpp:29-57). This is a setting with
  `signed == VOTES` and `typed == false`. Results that need the kind to be bound say so with
  `typed`; all others hold in every setting, even where votes of any kind may be forged.
  Pre-prepares, new views and recover responses may be forged in every run.
* The content of a view change is not bound to its signature either: the code hashes the payload
  only if it carries no signature of its own
  (bcos-pbft/pbft/protocol/PB/PBFTCodec.cpp:94-103) and otherwise verifies the hash that the payload
  names (bcos-pbft/pbft/protocol/PB/PBFTBaseMessage.h:103-107). This is a setting with
  `bound == false`, in which any view change may come in the name of any node. No result needs
  `bound`, except that the own view change of a replica stays valid.
* A leader that broadcasts a pre-prepare has broadcast a prepare with the same header, and recover
  messages carry no hash, so that votes are all that an honest node signs in this format.
* Delivered pre-prepares and votes are well formed: index and hash equal those of the carried
  proposal, as `populateFrom` builds them
  (bcos-pbft/pbft/interfaces/PBFTMessageFactory.h:75-117). Handlers do not check this.
* A run consists of pre-prepare, prepare, commit and checkpoint messages, view changes, new views,
  recover responses, timeouts, lost leaders, changes of the highest known block, successful
  executions and written blocks. It starts from a replica that has loaded
  its last block and nothing else.
* An execution result has the index of the executed proposal, and block numbers are not negative.
* The hash of a block does not depend on its signature list.
* Node ids are ordered totally, as `ConsensusNodeComparator` orders them; its code is not part of
  this model.

## What the proofs brought up

* **The signature of a vote does not bind its kind.** A prepare of an honest node, delivered as a
  commit vote, verifies and counts. With nodes of weight 1, 1 and 2, of which one of weight 1 is
  faulty, this lets two honest replicas decide different blocks at one index
  (`UntypedVotes.BothDecide`), so ordering agreement over all lists holds exactly if the kind is
  bound (`UntypedVotes.OrderingAgreesIff`). For a given list `LightNodes.OrderingAgreesOnIff` says
  when the code is safe as it is: exactly if every honest node weighs more than the faulty ones may.
  Four nodes of equal weight do not meet this, three do. It takes for granted that no execution
  result has the hash of a proposal voted on at that index; without that a vote for a result counts
  as a vote to order it, and any two honest nodes can be made to disagree
  (`ResultVotes.OrderingAlwaysAgreesIff`). Ledger agreement needs the kind to be bound or that same
  separation (`Safety.LedgerAgreement`); where such results are possible it fails as well
  (`UntypedResults.LedgerAgreesIff`). What a single replica keeps (the lock, both logs, certificates,
  watermarks) does not depend on this.
* **The signature of a view change does not bind its content.** Any signature a node has ever made
  authenticates any view change in its name. Agreement and everything a single replica keeps hold
  with forged view changes. What fails is that the new view of an honest leader is accepted: a view
  change forged in its name, for a block it has not committed yet, is filed in place of its own one,
  and once the block is committed every replica at that height refuses the new view
  (`ForgedChange.NewViewSpoiled`). `NewViewProofs.NewViewAccepted` has the exact condition, and
  `ForgedChange.OwnStaysValidIff` says that its part about the own view change is never violated
  exactly if contents are bound.
* **Repeated entries are weighed again.** Signature lists and lists of view changes are weighed
  entry by entry. The sum is the weight of the distinct nodes exactly if no node with weight is
  listed twice (`CacheModel.ListWeightExact`, `NewViewProofs.ChangesWeightExact`); one node of four
  listed three times passes (`CacheModel.RepeatedSignerPasses`, `NewViewProofs.RepeatedChangePasses`,
  `BlockValidator.RepeatedSignerBlock`). Lists that a replica builds itself never repeat a node
  (`Safety.CertificatesValid`, `NewViewProofs.ListedWeight`).
* **Marks of a view change are cleared while its view changes stay.** Which indices a new leader
  proposes again is bounded by marks that filing a view change raises. Writing a block, or entering a
  view, clears the marks but keeps the view changes filed for later views. A new view built from those
  proposes at most the next index; locks above it are left out although they are filed and uncontested
  (`Reproposals.LockIsForgotten`). `Reproposals.ProposedAgainIff` has the exact condition, and
  `Reproposals.MarksCover` says how long it is met. Agreement does not depend on it.
* **One node can make others join a later view.** The weight behind later views counts a sender once
  for each view it asks for. It is the weight of the senders exactly if none with weight asks for two
  (`Outcomes.GreaterWeightExact`); one of four equal nodes that asks for two views reaches the bound of
  two (`Outcomes.OneSenderSuffices`). Only view changes of the current leader trigger the check.
* A replica that has timed out answers view changes of nodes that have fallen behind while it
  validates a new view. The answer can complete a quorum for a later view that it leads, and the
  valid new view is then refused: `NewViewProofs.NewViewAccepted` states the exact condition.
* `reNotifySealer` admits the committed index, so a renewal can ask the sealer for a block that is
  already committed. `Sealing.RenewedStart` gives the exact condition and
  `Sealing.RenewedBelowProgress` an instance.
* `generatePrePrepareMsg` drops a certificate for the hash it already keeps, whatever its view. The
  highest view can therefore lose against another hash (`NewViewProofs.HighestViewCanLose`);
  `NewViewProofs.HighestViewWinsIff` says exactly when it does not. Agreement does not depend on
  this, since locks are never released.
* With a total weight of zero the quorum arithmetic wraps (`Weights.QuorumArithmetic`).
* `resetConfig` with an empty node list throws after the committed proposal was replaced.
* `tryTriggerFastViewChange` returns false also when it triggered timeouts.

## Model

| member | source | states |
|---|---|---|
| `Safety.OrderingAgreement` | bcos-pbft/pbft/cache/PBFTCache.cpp:229-286 | In every run, at any two moments, across all views and with any faulty nodes of at most the tolerated weight, two honest replicas that see commit quorums at one index see them for the same hash, if the signature of a commit vote binds its kind; and also if it does not, as long as every honest node outweighs the faulty ones and no execution result has the hash of a proposal voted on at that index |
| `LightNodes.OrderingAgreesOnIff` | bcos-pbft/pbft/engine/PBFTEngine.cpp:871-883 | For every list of nodes with distinct ids and every tolerable choice of honest ones: ordering agreement in all runs in which results are apart from proposals holds exactly if the signature of a vote binds its kind or every honest node weighs more than the faulty ones may |
| `LightNodes.LightDisagrees` | bcos-pbft/pbft/engine/PBFTEngine.cpp:853-883 | If votes do not bind their kind and some honest node is not heavier than the faulty ones may be, a run of these nodes lets it and another honest one decide different blocks |
| `ResultVotes.OrderingAlwaysAgreesIff` | bcos-pbft/pbft/engine/PBFTEngine.cpp:159-186 | Without a condition on results, where executing block 1 may result in the hash of block 2: ordering agreement holds exactly if the signature of a vote binds its kind or there is at most one honest node |
| `ResultVotes.ResultDisagrees` | bcos-pbft/pbft/engine/PBFTEngine.cpp:853-883 | If votes do not bind their kind, any two honest nodes decide different blocks in some run in which the vote of one for an execution result is delivered as a vote to order that hash |
| `Safety.LocksAgree` | bcos-pbft/pbft/cache/PBFTCache.cpp:208-227 | In every reachable state whose honest nodes are all heavy and whose results are apart from proposals, commit votes of any two honest replicas for one index carry one hash, whatever kinds the counted votes were signed as |
| `OrderedRuns.RunOrder` | bcos-pbft/pbft/engine/PBFTEngine.cpp:598-625 | In every run in which prepares are signed: a replica that votes to commit has voted for another hash at that index only in earlier views, and a quorum stands behind each commit vote whose honest members signed that index and hash in its view or a later one |
| `OrderSteps.LockOrder` | bcos-pbft/pbft/cache/PBFTCache.cpp:229-263 | Locking keeps the order of votes: what else was voted for at the index was voted for in an earlier view |
| `OrderSteps.AcceptOrder` | bcos-pbft/pbft/engine/PBFTEngine.cpp:598-625 | A pre-prepare that passes the checks for duplicates and conflicts keeps the order of votes: votes at its index are for its hash or of views before its own |
| `VoteOrder.PassiveKeeps` | bcos-pbft/pbft/engine/PBFTEngine.cpp:871-1321 | All other steps, which accept nothing, file no prepare and give up only what is past, keep the order of votes |
| `Safety.LedgerAgreement` | bcos-pbft/pbft/cache/PBFTCache.cpp:338-367 | In every run in which the signature of a checkpoint vote binds its kind, or in which no execution result has the hash of a proposal voted on at that index, two honest replicas never submit stable checkpoints with different hashes for one index |
| `Safety.ExecutionAgreement` | bcos-pbft/pbft/cache/PBFTCacheProcessor.cpp:354-400 | Under the same condition as ordering agreement two honest replicas execute the same proposal at the same index |
| `Safety.StateAgreement` | bcos-pbft/pbft/engine/PBFTEngine.cpp:159-186 | If moreover all replicas start from one block and executing a proposal on a state has one result, the k-th executions of any two honest replicas start from the same state and their checkpoint votes agree |
| `UntypedVotes.OrderingAgreesIff` | bcos-pbft/pbft/engine/PBFTEngine.cpp:871-883 | Ordering agreement over all runs of all lists of nodes holds exactly if the signature of a vote binds its kind; the packet type is not among the signed fields of the code |
| `UntypedVotes.BothDecide` | bcos-pbft/pbft/engine/PBFTEngine.cpp:871-883 | A run of nine steps in which a prepare delivered as a commit vote makes one honest replica decide a block, and another one decides an empty block for the same index in the next view |
| `UntypedResults.LedgerAgreesIff` | bcos-pbft/pbft/engine/PBFTEngine.cpp:1256-1311 | If executions may have any result, ledger agreement over all runs holds exactly if the signature of a vote binds its kind |
| `UntypedResults.BothSubmit` | bcos-pbft/pbft/engine/PBFTEngine.cpp:1256-1311 | That run extended by executions: a result with the hash of the decided block lets a prepare count as a checkpoint vote, and two honest replicas submit different blocks |
| `Safety.PermanentLock` | bcos-pbft/pbft/cache/PBFTCache.cpp:208-227 | In every run, across evictions and view changes, all commit votes one replica broadcasts for an index carry one hash; the same for its checkpoint votes |
| `Safety.ExecutionLog` | bcos-pbft/pbft/cache/PBFTCacheProcessor.cpp:239-330 | In every run the state machine is called on consecutive indices from the first uncommitted one, once each, with at most one call unfinished and that one at the expected checkpoint; each call extends the last state by exactly one, so `apply` neither skips it nor takes the fatal branch |
| `Safety.LedgerLog` | bcos-pbft/pbft/cache/PBFTCacheProcessor.cpp:844-899 | In every run stable checkpoints are submitted in consecutive order from the first uncommitted index, none twice, at most one being written, and the queue holds only later indices |
| `Safety.QueuedUntilSubmitted` | bcos-pbft/pbft/cache/PBFTCacheProcessor.cpp:864-899 | A checkpoint queued at some moment of a run is queued or submitted at every later moment |
| `Safety.CertificatesValid` | bcos-pbft/pbft/cache/PBFTCache.cpp:181-206 | In every reachable state, across view-change resets, each lock certificate a replica would announce and each submitted or decided proposal carries signatures of distinct consensus nodes over its hash with quorum weight |
| `Safety.DecidedValueHasQuorums` | bcos-pbft/pbft/cache/PBFTCacheProcessor.cpp:190-218 | Every proposal handed to the commit queue carries the prepare signatures of a quorum; a quorum stands for its prepare votes and a quorum for its commit votes, the honest members having signed that very index and hash, as that kind of vote where the kind is bound |
| `Safety.WatermarksOk` | bcos-pbft/pbft/config/PBFTConfig.h:132-154 | In every reachable state progressed = committed + 1 <= low watermark, expected checkpoint >= committed + 1, view <= view to reach, and no cached prepare or commit is of an earlier view |
| `Safety.NothingTakenBack` | bcos-pbft/pbft/config/PBFTConfig.h:167-221 | Between any two moments of a run the committed index, the watermarks and the view do not decrease, and no log loses or changes an entry |
| `Runs.StepKeeps` | bcos-pbft/pbft/engine/PBFTEngine.cpp:598-1321 | Any enabled step of any honest replica keeps the invariants of all honest replicas |
| `Runs.RunKeeps` | bcos-pbft/pbft/engine/PBFTEngine.cpp:598-1321 | Every state reachable from a fresh start satisfies the invariants of all honest replicas |
| `Runs.RunIsLater` | bcos-pbft/core/ConsensusConfig.h:62-71 | Along every run logs only grow, marks and views only rise, and no queued checkpoint is lost |
| `Network.ReactKeeps` | bcos-pbft/pbft/engine/PBFTEngine.cpp:678-1321 | Each single event keeps the invariants of the reacting replica, takes nothing back and loses no checkpoint |
| `Network.VoteJustified` | bcos-pbft/pbft/engine/PBFTEngine.cpp:627-665 | A vote whose signature verifies was signed by its sender if that sender is honest: as a vote of this kind where the kind is bound, and as a vote of some kind otherwise |
| `LoneReplica.BlockReachesLedger` | bcos-pbft/pbft/engine/PBFTEngine.cpp:678-808 | There is a run for every block and every possible result, beside a faulty node of the tolerated weight: the pre-prepare makes the honest replica decide the block, its execution submits the result, and the write makes it the committed block |
| `Weights.QuorumArithmetic` | bcos-pbft/pbft/config/PBFTConfig.cpp:356-367 | For a positive total weight the faulty bound f is the largest with 3f + 1 <= total, the quorum is the rest and any two quorums overlap in more than f; with a total of zero the 64-bit subtraction wraps and no set reaches the quorum |
| `Weights.WeightOfAll` | bcos-pbft/pbft/config/PBFTConfig.cpp:356-367 | All nodes together weigh the total that the quorum is computed from |
| `Weights.QuorumsOverlap` | bcos-pbft/pbft/config/PBFTConfig.cpp:356-367 | Two sender sets of quorum weight share weight of at least f + 1, for every weighted node list |
| `Weights.RestIsQuorum` | bcos-pbft/pbft/config/PBFTConfig.cpp:356-367 | All nodes outside any set of weight at most f still reach the quorum |
| `Weights.HonestMember` | bcos-pbft/pbft/config/PBFTConfig.cpp:356-367 | A set that outweighs the faulty nodes contains a node that is not faulty |
| `Weights.InEveryQuorum` | bcos-pbft/pbft/config/PBFTConfig.cpp:356-367 | A node is in every quorum exactly if it weighs more than the faulty nodes may |
| `Weights.WeightAdd` | bcos-pbft/pbft/cache/PBFTCache.cpp:91-115 | Counting one more distinct sender adds exactly its weight, or nothing for an unknown one |
| `Weights.SumIsWeight` | bcos-pbft/pbft/engine/PBFTEngine.cpp:1104-1157 | Adding up list entries gives at least the weight of the distinct nodes, and exactly that weight if and only if no node with weight is listed twice |
| `CacheModel.ListWeightExact` | bcos-pbft/pbft/engine/BlockValidator.cpp:141-173 | The weight a consumer sums over a signature list is that of the set of signers exactly if no signer with weight is listed twice, and never less |
| `CacheModel.RepeatedSignerPasses` | bcos-pbft/pbft/cache/PBFTCacheProcessor.cpp:693-719 | One of four equal nodes, listed three times with the same signature, passes the check for a quorum of three |
| `CacheModel.DistinctListWeight` | bcos-pbft/pbft/engine/BlockValidator.cpp:141-173 | The weight a validator sums over a signature list equals the weight of the set of signers when signers are distinct |
| `CacheModel.SignatureListCertifies` | bcos-pbft/pbft/cache/PBFTCache.cpp:195-206 | The signature list built from a quorum of signed votes passes every check of its consumers, lists each signer once and lists nobody else |
| `CacheInvariant.CommittedValueHasQuorum` | bcos-pbft/pbft/cache/PBFTCache.cpp:265-286 | When a cache reports a commit, the locked message (not only the accepted one) has the commit quorum and carries the prepare certificate |
| `CacheInvariant.IntoPrecommitKeeps` | bcos-pbft/pbft/cache/PBFTCache.cpp:181-193 | The assertion of `setSignatureList` holds when a proposal is locked, and the lock carries a valid certificate and the hash of the accepted message |
| `CacheInvariant.CheckPrecommitKeeps` | bcos-pbft/pbft/cache/PBFTCache.cpp:229-263 | Precommitting keeps the invariants of a cache, and reports a commit only in the call that locks |
| `CacheInvariant.CheckStableKeeps` | bcos-pbft/pbft/cache/PBFTCache.cpp:347-367 | A checkpoint that becomes stable has its checkpoint quorum and a signature list that certifies its hash |
| `CacheInvariant.ResetViewKeeps` | bcos-pbft/pbft/cache/PBFTCache.cpp:297-316 | A view change leaves only votes of the new view on, each still filed and signed, and touches no lock |
| `ReplicaInvariant.LockGrows` | bcos-pbft/pbft/cache/PBFTCache.cpp:208-227 | A new commit vote for an index is for the hash voted before, because the earlier vote is still held or its index is past every watermark |
| `ReplicaInvariant.LockingKeeps` | bcos-pbft/pbft/cache/PBFTCache.cpp:229-263 | Locking and broadcasting the commit vote keeps the replica invariant |
| `ReplicaInvariant.AddPrePrepareCacheKeeps` | bcos-pbft/pbft/cache/PBFTCacheProcessor.cpp:103-111 | Accepting a pre-prepare that passed the checks never replaces a locked hash |
| `ReplicaInvariant.LockFloor` | bcos-pbft/pbft/cache/PBFTCacheProcessor.cpp:742-762 | Votes stay locked when caches are evicted and the watermarks that replace them rise |
| `ReplicaInvariant.NewCallKeeps` | bcos-pbft/pbft/cache/PBFTCacheProcessor.cpp:290-330 | A call of the state machine continues the execution log by one index on the state of the index before |
| `ReplicaInvariant.TryApplyKeeps` | bcos-pbft/pbft/cache/PBFTCacheProcessor.cpp:290-330 | Trying to execute from the commit queue keeps the replica invariant in every outcome |
| `ReplicaInvariant.RecordExecutedKeeps` | bcos-pbft/pbft/engine/PBFTEngine.cpp:159-186 | Recording an execution result casts the only checkpoint vote of its index and moves the expected checkpoint past it |
| `ReplicaInvariant.TryCommitStableMoves` | bcos-pbft/pbft/cache/PBFTCacheProcessor.cpp:875-899 | Submitting keeps the ledger log consecutive, and every queued checkpoint is afterwards submitted or still queued |
| `ReplicaInvariant.CheckAndCommitStableKeeps` | bcos-pbft/pbft/cache/PBFTCacheProcessor.cpp:844-862 | Reporting stable checkpoints keeps the invariant and loses no queued checkpoint |
| `ReplicaInvariant.RemoveConsensusedKeeps` | bcos-pbft/pbft/cache/PBFTCacheProcessor.cpp:742-762 | Evicting the caches of committed and stable indices keeps the replica invariant, the lock included |
| `ReplicaInvariant.WrittenKeeps` | bcos-pbft/pbft/engine/PBFTEngine.cpp:1239-1254 | After a block is written nothing that was queued or submitted is lost |
| `ReplicaInvariant.ReachNewViewKeeps` | bcos-pbft/pbft/engine/PBFTEngine.cpp:1173-1179 | Entering a new view keeps the replica invariant |
| `ReplicaInvariant.TryRecoverKeeps` | bcos-pbft/pbft/cache/PBFTCacheProcessor.cpp:1054-1078 | Recovering a view from the reports of others keeps the replica invariant |
| `HandlerInvariant.HandlePrePrepareKeeps` | bcos-pbft/pbft/engine/PBFTEngine.cpp:678-808 | Any well-formed pre-prepare, from anyone, keeps the replica invariant |
| `HandlerInvariant.HandlePrepareKeeps` | bcos-pbft/pbft/engine/PBFTEngine.cpp:853-869 | A prepare message keeps the replica invariant, whether or not prepares can be traced to their senders |
| `HandlerInvariant.HandleCommitKeeps` | bcos-pbft/pbft/engine/PBFTEngine.cpp:871-883 | A commit message keeps the replica invariant, whether or not commit votes can be traced to their senders |
| `HandlerInvariant.HandleCheckPointKeeps` | bcos-pbft/pbft/engine/PBFTEngine.cpp:1256-1311 | A checkpoint message keeps the replica invariant and every queued checkpoint, whether or not checkpoint votes can be traced to their senders |
| `HandlerInvariant.OnAppliedKeeps` | bcos-pbft/pbft/engine/PBFTEngine.cpp:159-186 | A finished execution keeps the replica invariant, with at most one execution running afterwards |
| `HandlerInvariant.FinalizeKeeps` | bcos-pbft/pbft/engine/PBFTEngine.cpp:1239-1254 | A written block of this replica keeps the replica invariant |
| `HandlerInvariant.OnTimeoutKeeps` | bcos-pbft/pbft/engine/PBFTEngine.cpp:885-914 | A timeout keeps the replica invariant in each of its three outcomes |
| `HandlerInvariant.HandleViewChangeKeeps` | bcos-pbft/pbft/engine/PBFTEngine.cpp:1075-1102 | Any view change keeps the replica invariant, also when it makes the replica join or lead a later view |
| `HandlerInvariant.HandleNewViewKeeps` | bcos-pbft/pbft/engine/PBFTEngine.cpp:1159-1171 | Any new view, even a forged one, keeps the replica invariant |
| `HandlerInvariant.HandleRecoverKeeps` | bcos-pbft/pbft/engine/PBFTEngine.cpp:1313-1321 | Any recover response keeps the replica invariant |
| `ReplicaModel.SmallestAmong` | bcos-pbft/pbft/cache/PBFTCacheProcessor.cpp:628-677 | The view chosen to join is the smallest cached one above the view to reach, and none is chosen only if there is none |
| `Steps.RecoveredIsHighest` | bcos-pbft/pbft/cache/PBFTCacheProcessor.cpp:1054-1070 | The recovered view is the highest positive view that a quorum reports, or zero if there is none |
| `ViewChangeInvariant.OwnChangeValid` | bcos-pbft/pbft/engine/PBFTEngine.cpp:928-950 | Where the signature of a view change binds its content, the cached view change of the replica itself, never validated on arrival, would pass its own validation for any later view |
| `ForgedChange.NewViewSpoiled` | bcos-pbft/pbft/protocol/PB/PBFTCodec.cpp:58-106 | Where it does not bind it, there is a run in which a leader can announce a new view whose other view changes are all valid and which lists a forged one in its own name, and every replica with the same committed block refuses that new view |
| `ForgedChange.OwnStaysValidIff` | bcos-pbft/pbft/protocol/PB/PBFTBaseMessage.h:103-107 | In every run the own view change behind an announceable new view is valid exactly if the signature of a view change binds its content |
| `NewViewProofs.NewViewRoundTrip` | bcos-pbft/pbft/cache/PBFTCacheProcessor.cpp:576-626 | The new view a leader builds is valid for a replica with the same view, committed proposal, node list and recovery flag exactly when it is for a later view and every view change cached for it, the own one included, is valid at the leader |
| `NewViewProofs.NewViewAccepted` | bcos-pbft/pbft/engine/PBFTEngine.cpp:1104-1157 | In every run, with forged view changes or without: the handler of such a replica accepts the new view the leader can build exactly if it is for a later view, the cached view changes of the others and the own one are valid at the leader, and the receiver does not itself complete a still later view by answering while it judges them; where contents are bound the own one always is valid |
| `NewViewProofs.ValidIsAccepted` | bcos-pbft/pbft/engine/PBFTEngine.cpp:1002-1073 | A new view whose changes are all for it is accepted exactly if it is valid and the replica does not move on to a later view during validation |
| `NewViewProofs.ChangesWeightExact` | bcos-pbft/pbft/engine/PBFTEngine.cpp:1104-1157 | The weight summed over a list of view changes is that of the senders exactly if no sender with weight is listed twice, and never less |
| `NewViewProofs.RepeatedChangePasses` | bcos-pbft/pbft/engine/PBFTEngine.cpp:1104-1157 | A new view that lists the view change of one of four equal nodes three times is valid |
| `NewViewProofs.ListedWeight` | bcos-pbft/pbft/engine/PBFTEngine.cpp:1104-1157 | The weight the receiver sums over the listed view changes is the weight of the distinct senders the leader counted |
| `NewViewProofs.BuiltHeader` | bcos-pbft/pbft/cache/PBFTCacheProcessor.cpp:576-626 | The header of the built new view names the leader every replica at that height expects, and its list has quorum weight |
| `NewViewProofs.PrePrepareList` | bcos-pbft/pbft/cache/PBFTCacheProcessor.cpp:490-574 | The pre-prepare list has each index in (highest committed, highest prepared] exactly once, in order, in the view to reach; an index is an empty block exactly when no view change prepared it, otherwise the proposal of the winning certificate |
| `NewViewProofs.AgreedHashIsRepeated` | bcos-pbft/pbft/cache/PBFTCacheProcessor.cpp:490-574 | If all certificates for an index agree on a hash, that hash is proposed again |
| `NewViewProofs.SlotsHold` | bcos-pbft/pbft/cache/PBFTCacheProcessor.cpp:520-553 | The table filled in one pass over all view changes holds, per index, the certificate that wins among those offered for it |
| `NewViewProofs.SlotsAbove` | bcos-pbft/pbft/cache/PBFTCacheProcessor.cpp:508-513 | A certificate below the highest committed index takes no slot |
| `NewViewProofs.WinnerBeatsOthers` | bcos-pbft/pbft/cache/PBFTCacheProcessor.cpp:520-553 | If certificates for one hash share their view, no certificate for another hash has a higher view than the winner |
| `NewViewProofs.HighestViewCanLose` | bcos-pbft/pbft/cache/PBFTCacheProcessor.cpp:539 | Three certificates for which the winner does not have the highest view, because a certificate with the kept hash is dropped whatever its view |
| `NewViewProofs.HighestViewWinsIff` | bcos-pbft/pbft/cache/PBFTCacheProcessor.cpp:520-553 | A highest-view certificate wins exactly when one of them is offered while the slot is empty or holds another hash |
| `NewViewProofs.CertificatesMembers` | bcos-pbft/pbft/cache/PBFTCacheProcessor.cpp:520-553 | The certificates of an index are those with that index in some view change |
| `Sealing.NodeListCanonical` | bcos-pbft/core/ConsensusConfig.cpp:70-138 | Replicas given the same nodes with distinct ids in any order agree on the list, the quorum, every node index and the leader of every index and view |
| `Sealing.OrderedIsCanonical` | bcos-pbft/core/ConsensusConfig.cpp:70-111 | Two id-ordered lists of the same nodes with distinct ids are equal |
| `Sealing.SortNodesSorts` | bcos-pbft/core/ConsensusConfig.cpp:70-111 | Sorting orders the list by id and is a permutation |
| `Sealing.IndexFromFinds` | bcos-pbft/core/ConsensusConfig.cpp:113-128 | A member of the list finds the first position with its id, everybody else the non-consensus mark |
| `Sealing.SealRunOk` | bcos-pbft/pbft/config/PBFTConfig.cpp:240-306 | In every run of requests, renewals, resets and configuration changes each range handed to the sealer is not empty, ends below the high watermark and is led by this node throughout, starts at or after the progressed index if the request was for an uncommitted block, and ranges between two resets are disjoint and increasing |
| `Sealing.SealingIsHeld` | bcos-pbft/pbft/config/PBFTConfig.h:290-293 | After a hold until some index the sealer is given nothing until that index is committed, enforced requests and renewals included |
| `Sealing.ResealingIsHeld` | bcos-pbft/pbft/config/PBFTConfig.h:285-288 | The hold of a new view lasts until its last proposal is committed, unless another one replaces it |
| `Sealing.HighestIndexIs` | bcos-pbft/pbft/engine/PBFTEngine.cpp:1181-1237 | The index until which a new view holds sealing is the highest of its proposals, or the committed one |
| `Sealing.SealedRangeIsLed` | bcos-pbft/pbft/config/PBFTConfig.cpp:369-372 | A range that is handed out is not empty, starts behind the last one and stays within one leader period of this node, for every period, view and node count |
| `Sealing.NotifyKeeps` | bcos-pbft/pbft/config/PBFTConfig.cpp:240-306 | A notification keeps the ranges between resets disjoint and increasing |
| `Sealing.RenotifyKeeps` | bcos-pbft/pbft/config/PBFTConfig.cpp:150-165 | A renewal keeps the ranges between resets disjoint and increasing |
| `Sealing.SealExact` | bcos-pbft/pbft/config/PBFTConfig.cpp:240-306 | A range is handed out exactly if this node leads the index, no hold lasts, something of its leader period is left below the high watermark, and transactions being reset do not stand in between; it is then all that is left and reaches the end of the period or the high watermark; otherwise nothing changes |
| `Sealing.WrappedSealsNothing` | bcos-pbft/pbft/config/PBFTConfig.cpp:240-306 | A leader period whose end does not fit a signed word is never handed out |
| `Sealing.ResetStarts` | bcos-pbft/pbft/config/PBFTConfig.cpp:122-148 | After a reset exactly the indices from the first uncommitted and unexecuted one on are left to hand out |
| `Sealing.NewViewSeals` | bcos-pbft/pbft/engine/PBFTEngine.cpp:1181-1237 | A new view with proposals resets the sealer and holds it until the highest of them, one without makes it start again behind the committed block |
| `Sealing.RenewedStart` | bcos-pbft/pbft/config/PBFTConfig.cpp:150-165 | A renewed range starts at the given index, hence at or after the progressed index exactly when that index is not the committed one |
| `Sealing.RenewedBelowProgress` | bcos-pbft/pbft/config/PBFTConfig.cpp:150-165 | A configuration in which a renewal asks the sealer for the committed block again |
| `FastViewChange.LeaderAdvances` | bcos-pbft/pbft/config/PBFTConfig.cpp:380-389 | The next view is led by the next node of the list |
| `FastViewChange.LeaderRotates` | bcos-pbft/pbft/config/PBFTConfig.cpp:369-389 | The first indices in view 0 are led by the first node, a leader stays for its period, and every further period and every further view is led by the next node |
| `FastViewChange.TimeoutAdvances` | bcos-pbft/pbft/config/PBFTConfig.h:190-202 | One timeout advances the view to reach by one, also if the replica enters the new view at once, and changes neither nodes nor progress |
| `FastViewChange.EscapeEnds` | bcos-pbft/pbft/config/PBFTConfig.cpp:200-238 | The recursion over disconnected leaders fires at most once per node, fires at all exactly if this node takes part and has connections but none to the leader, another known node, and if it fired it ends at a leader that is this node or connected |
| `Progress.VoteCounted` | bcos-pbft/pbft/cache/PBFTCache.cpp:91-115 | A vote adds its sender exactly when it is for this index, from a known node and the first for its hash; older votes stay |
| `Progress.LocksExactly` | bcos-pbft/pbft/cache/PBFTCache.cpp:229-263 | A cache locks exactly if its accepted proposal is of the current view and has a prepare quorum, no commit vote was cast since that view was entered, and an earlier lock is of an earlier view; the lock has its hash and view and is certified by exactly the voters, the own commit vote of the current view is cast, and it decides at once exactly if that completes the commit quorum; otherwise nothing changes |
| `Progress.PrecommitExact` | bcos-pbft/pbft/cache/PBFTCacheProcessor.cpp:190-201 | The pass does this at every index, sends and decides nothing else, and a second pass changes nothing |
| `Progress.CommitsExactly` | bcos-pbft/pbft/cache/PBFTCache.cpp:265-286 | A cache commits exactly if it is locked, has not committed since the view was entered, and its accepted proposal is of the current view and has a commit quorum |
| `Progress.CommitExact` | bcos-pbft/pbft/cache/PBFTCacheProcessor.cpp:203-218 | The pass hands over the locks of exactly those indices; what is handed over is queued or executing unless it is below the expected checkpoint, a view change under way is given up exactly if something is handed over, and nothing is left to hand over |
| `Progress.ApplyExact` | bcos-pbft/pbft/cache/PBFTCacheProcessor.cpp:290-330 | A queued proposal is executed exactly when it is for the expected index, its predecessor is committed or executed, and no proposal of its hash is running |
| `Progress.ApplyEffect` | bcos-pbft/pbft/cache/PBFTCacheProcessor.cpp:290-330 | It is executed on the committed block or the checkpoint right before it and marked as executing; nothing else at or above the expected index leaves the queue |
| `Progress.NothingWaits` | bcos-pbft/pbft/cache/PBFTCacheProcessor.cpp:875-899 | A checkpoint is submitted exactly when one for the index after the committed one is queued, and nothing that is next in order is left |
| `Progress.StabilizesExactly` | bcos-pbft/pbft/cache/PBFTCache.cpp:347-367 | A checkpoint becomes stable exactly if it was not and has a quorum of checkpoint votes; it is certified by exactly these voters and reported unless committed |
| `Progress.StableExact` | bcos-pbft/pbft/cache/PBFTCacheProcessor.cpp:844-862 | The pass makes exactly those caches stable and adds exactly their certified checkpoints to what is queued or submitted |
| `Progress.NewViewExact` | bcos-pbft/pbft/cache/PBFTCacheProcessor.cpp:576-626 | A new view is announced exactly by a node that is not behind the known blocks, has announced none for this view, is the leader of the next index in it and holds view changes of quorum weight; it lists them, and the view is entered |
| `Progress.ViewEntered` | bcos-pbft/pbft/engine/PBFTEngine.cpp:1173-1179 | Entering a view keeps exactly the votes from it on, the up-to-date view changes and recover responses for later views and every lock, and clears the marks; a view below the current one is not entered |
| `Progress.ResetExact` | bcos-pbft/pbft/cache/PBFTCache.h:132-156 | Resetting a cache drops exactly the votes of earlier views, hash by hash, and leaves the others and all locks as they were |
| `Admission.PrePrepareAccepted` | bcos-pbft/pbft/engine/PBFTEngine.cpp:678-808 | For every message and combination of flags: accepted exactly if it has a proposal, is in the window and of no earlier view, its hash is not executing, what was accepted at its index is of an earlier view, a lock there is for its hash, and outside of a new view it is from the leader of its index and signed by it where that is checked; a refused one, and one to be verified, changes nothing |
| `Admission.OnlyLeaderProposes` | bcos-pbft/pbft/engine/PBFTEngine.cpp:709-731 | Outside of a new view, a pre-prepare from another node than the leader or under another key leaves no trace |
| `Admission.PrePrepareFiled` | bcos-pbft/pbft/engine/PBFTEngine.cpp:732-808 | An accepted pre-prepare replaces what was accepted, the own prepare vote of the current view is counted and broadcast, and what these complete is locked |
| `Admission.PrepareAccepted` | bcos-pbft/pbft/engine/PBFTEngine.cpp:828-869 | Accepted exactly if it has a proposal signed by its sender, is in the window and of no earlier view, is from another node under its own key, and its hash was not accepted in a later view; a refused one changes nothing |
| `Admission.CommitAccepted` | bcos-pbft/pbft/engine/PBFTEngine.cpp:828-883 | The same for commit votes, whose proposal need not be signed |
| `Admission.CheckPointAccepted` | bcos-pbft/pbft/engine/PBFTEngine.cpp:1256-1311 | Accepted exactly if its index is not committed, the known blocks are less than a window ahead, it is from a node under its own key and its proposal is signed; a refused one changes nothing |
| `Admission.PrepareCompletes` | bcos-pbft/pbft/cache/PBFTCache.cpp:229-263 | A prepare that completes the quorum of the proposal accepted in the current view locks it, again where an earlier view has locked it before, and casts the commit vote; any other is only counted |
| `Admission.CommitCompletes` | bcos-pbft/pbft/cache/PBFTCache.cpp:265-286 | A commit vote that completes the quorum hands the lock over, and it is queued or executing; any other is only counted |
| `Certification.ViewChangeAccepted` | bcos-pbft/pbft/engine/PBFTEngine.cpp:1002-1102 | A view change is accepted exactly if its committed block is neither behind nor another one of the same height, it is of no earlier view, signed by its sender, each prepared proposal has a list of valid signatures of quorum weight, of no later view once recovered, and the replica does not move on to a later view while it judges |
| `Certification.ViewChangeTrusted` | bcos-pbft/pbft/cache/PBFTCacheProcessor.cpp:679-719 | Of an accepted view change, in whatever state, every prepared proposal is signed by known nodes that weigh a quorum |
| `Certification.NewViewTrusted` | bcos-pbft/pbft/engine/PBFTEngine.cpp:1104-1171 | An accepted new view is for a later view, from and signed by the leader of that view, and its view changes have quorum weight and prepared proposals that are each signed by a quorum |
| `Certification.NewViewAcceptedIff` | bcos-pbft/pbft/engine/PBFTEngine.cpp:1104-1171 | If its view changes are all for it, it is accepted exactly if that holds, they are all credible and the replica does not move on |
| `Certification.OneSpoilsAll` | bcos-pbft/pbft/cache/PBFTCacheProcessor.cpp:693-719 | One prepared proposal without such signatures makes the view change refused and every new view that lists it |
| `Certification.SignersAreQuorum` | bcos-pbft/pbft/cache/PBFTCacheProcessor.cpp:693-719 | Every signer of such a proposal is a known node that signed its very hash, and they are a quorum if none with weight is listed twice |
| `Announcements.OwnChangeLists` | bcos-pbft/pbft/engine/PBFTEngine.cpp:928-950 | The own view change is for the view to reach, names the committed block, and has exactly one certificate per lock, with its index, hash and view, in index order, and nothing else |
| `Announcements.SentListsLocks` | bcos-pbft/pbft/cache/PBFTCacheProcessor.h:91-103 | In every run: a view change lists exactly the locks its sender holds at the moment it is sent |
| `Announcements.EverSentListsLocks` | bcos-pbft/pbft/cache/PBFTCacheProcessor.h:91-103 | In every run every view change a replica has ever sent was sent at some moment with exactly the locks of that moment |
| `Announcements.VotesAreAnnounced` | bcos-pbft/pbft/engine/PBFTEngine.cpp:928-950 | In every run: what a replica has voted to commit at an index that is not past is in every view change it sends |
| `Reproposals.FilingExact` | bcos-pbft/pbft/cache/PBFTCacheProcessor.cpp:440-488 | A view change is filed exactly if it is the first of a known sender for its view, and the marks of that view rise to the highest committed and prepared index it names and no further |
| `Reproposals.ProposedAgainIff` | bcos-pbft/pbft/cache/PBFTCacheProcessor.cpp:490-574 | A filed lock that no certificate contests is proposed again, once and for its hash, exactly if its index lies between the marks |
| `Reproposals.NamesOrigin` | bcos-pbft/pbft/cache/PBFTCacheProcessor.cpp:520-573 | A re-proposal names the sender or the author of a certificate it repeats, an empty block the new leader |
| `Reproposals.MarksCover` | bcos-pbft/pbft/cache/PBFTCacheProcessor.cpp:440-488 | In every run the marks cover everything a replica has filed as long as it sends no new view and takes no step that can clear them |
| `Reproposals.LockIsProposedAgain` | bcos-pbft/pbft/cache/PBFTCacheProcessor.cpp:490-574 | In every run: a lock that one replica held when it sent the view change that a new leader has filed is in the new view, for its hash and once, if no certificate contests it, the marks cover what is filed and nothing filed names its index as committed |
| `Reproposals.WrittenForgets` | bcos-pbft/pbft/cache/PBFTCacheProcessor.cpp:742-762 | Writing a block clears the marks and keeps the view changes for later views; a new view built from them leaves out every lock above the next index |
| `Reproposals.LockIsForgotten` | bcos-pbft/pbft/cache/PBFTCacheProcessor.cpp:742-762 | A state in which this happens: an uncontested valid lock that the marks had covered is missing from the new view that can be built after the block is written |
| `Outcomes.TimeoutExact` | bcos-pbft/pbft/engine/PBFTEngine.cpp:916-926 | A timeout raises the view to reach by one, drops exactly the outdated view changes, announces the own one for that view, files it, and enters a new view it completes |
| `Outcomes.OnTimeoutExact` | bcos-pbft/pbft/engine/PBFTEngine.cpp:885-914 | The timer executes what can be executed, else waits exactly while a proposal above the committed index is executing, else asks for the next view |
| `Outcomes.AnswerExact` | bcos-pbft/pbft/engine/PBFTEngine.cpp:1002-1035 | A view change is answered exactly if its committed block is not behind, a timeout lasts, and its sender is behind the current view or more than one behind the view to reach |
| `Outcomes.NewViewFollowed` | bcos-pbft/pbft/engine/PBFTEngine.cpp:1159-1179 | An accepted new view is entered unless the answers led beyond it |
| `Outcomes.GreaterWeightExact` | bcos-pbft/pbft/cache/PBFTCacheProcessor.cpp:628-660 | The weight behind later views is at least that of the nodes asking for any, and equals it exactly if no node with weight asks for two of them |
| `Outcomes.OneSenderSuffices` | bcos-pbft/pbft/cache/PBFTCacheProcessor.cpp:628-660 | One of four equal nodes that asks for two later views gives the weight that should take two nodes |
| `Outcomes.JoinExact` | bcos-pbft/pbft/engine/PBFTEngine.cpp:1083-1095 | A later view is joined exactly if the view change is from the current leader and the weight behind later views exceeds the faulty bound, and it is the smallest of them |
| `Outcomes.RecoverExact` | bcos-pbft/pbft/cache/PBFTCacheProcessor.cpp:1054-1078 | If a quorum reports a positive view, the highest such view is entered unless it is below the current one, and the responses are forgotten; otherwise nothing changes |
| `Settlement.ResultExact` | bcos-pbft/pbft/engine/PBFTEngine.cpp:159-186 | A result above the committed block casts the checkpoint vote, becomes the checkpoint of its index and moves the expected checkpoint behind it; then stable checkpoints are reported, the next proposal is executed and the mark is dropped; a late result changes nothing |
| `Settlement.WrittenExact` | bcos-pbft/pbft/engine/PBFTEngine.cpp:1239-1254 | A written block becomes the committed one and moves the watermarks behind it unless it is old news; exactly the caches of committed and stable indices and the outdated view changes go, and the marks of a view change are cleared |
| `Readiness.NothingReadyWaits` | bcos-pbft/pbft/cache/PBFTCacheProcessor.cpp:290-330 | In every run in which a replica has not decided one hash at two indices, a proposal queued for the expected index whose predecessor is committed or executed is being executed |
| `Readiness.ApplyIdles` | bcos-pbft/pbft/cache/PBFTCacheProcessor.cpp:290-330 | Trying to execute leaves nothing queued that could be executed |
| `Settlement.NothingLeftLying` | bcos-pbft/pbft/cache/PBFTCacheProcessor.cpp:844-899 | In every reachable state no checkpoint that is next in order waits in the queue, every checkpoint with a quorum above the committed block is queued or submitted, and the one for the next index is the block being written |
| `BlockValidator.BlockAccepted` | bcos-pbft/pbft/engine/BlockValidator.cpp:28-78 | A block passes exactly if it is the genesis block, or above the committed one and either empty or sealed by a known node, listing ids and weights of the consensus nodes in order, with valid signatures over its hash of quorum weight |
| `BlockValidator.CertifiedBlockHasQuorum` | bcos-pbft/pbft/engine/BlockValidator.cpp:141-173 | Every node of an accepted signature list signed this very hash; the checked weight is that of these nodes exactly if no node with weight is listed twice, and then they are a quorum |
| `BlockValidator.RepeatedSignerBlock` | bcos-pbft/pbft/engine/BlockValidator.cpp:28-78 | A block whose signature list names one of four equal nodes three times is accepted |
| `BlockValidator.BlockValidator.CheckBlock` | bcos-pbft/pbft/engine/BlockValidator.cpp:28-78 | Genesis passes, old blocks fail, empty blocks pass, and any other block passes exactly when it lists the consensus nodes and carries a certificate |
| `BlockValidator.BlockValidator.CheckSealerListAndWeightList` | bcos-pbft/pbft/engine/BlockValidator.cpp:80-139 | True exactly when sealer list and weight list equal the consensus node list, entry by entry |
| `BlockValidator.BlockValidator.CheckSignatureList` | bcos-pbft/pbft/engine/BlockValidator.cpp:141-173 | True exactly when every listed signature verifies and the listed weights reach the quorum |
| `StateMachine.Apply` | bcos-pbft/core/StateMachine.cpp:45-84 | Skips exactly the applied indices, executes exactly the others that have a header, and writes the parent exactly when the index extends the last state by one |
| `Config.PBFTConfig.CompareConsensusNode` | bcos-pbft/core/ConsensusConfig.cpp:50-69 | True exactly when two node lists are equal, ids and weights |
| `Config.PBFTConfig.NodeIndexById` | bcos-pbft/core/ConsensusConfig.cpp:113-128 | The index of an id in the stored list, or the non-consensus mark |
| `Config.PBFTConfig.UpdateQuorum` | bcos-pbft/pbft/config/PBFTConfig.cpp:356-367 | Total, faulty bound and quorum become those of the stored list in 64-bit arithmetic; for a positive total 3f + 1 <= total <= 3f + 3 and the quorum is the rest |
| `Config.PBFTConfig.SetConsensusNodeList` | bcos-pbft/core/ConsensusConfig.cpp:70-111 | An empty list is refused; otherwise the canonical list is stored and all derived fields agree with it, also on the unchanged-list return |
| `Config.PBFTConfig.LeaderInPeriod` | bcos-pbft/pbft/config/PBFTConfig.cpp:369-389 | The leader computed from the stored node count is that of the stored list |
| `Config.PBFTConfig.SetCommittedProposal` | bcos-pbft/pbft/config/PBFTConfig.h:132-147 | Progressed index, expected checkpoint and low watermark rise to committed + 1 and never fall |
| `Config.PBFTConfig.SetExpectedCheckPoint` | bcos-pbft/pbft/config/PBFTConfig.h:149-154 | The expected checkpoint is never set below committed + 1 |
| `Config.PBFTConfig.ResetTimeoutState` | bcos-pbft/pbft/config/PBFTConfig.h:190-202 | A timeout raises the view to reach by one |
| `Config.PBFTConfig.ResetNewViewState` | bcos-pbft/pbft/config/PBFTConfig.h:204-221 | A view is entered unless it is below the current one |
| `Config.PBFTConfig.ResetToView` | bcos-pbft/pbft/config/PBFTConfig.h:167-171 | The view to reach falls back to the current view |
| `Config.PBFTConfig.NotifySealer` | bcos-pbft/pbft/config/PBFTConfig.cpp:240-306 | The new sealing marks and the range handed out, keeping ranges disjoint and increasing |
| `Config.PBFTConfig.NotifyResetSealing` | bcos-pbft/pbft/config/PBFTConfig.cpp:122-148 | Both sealing marks fall back to just before the first index to seal |
| `Config.PBFTConfig.ReNotifySealer` | bcos-pbft/pbft/config/PBFTConfig.cpp:150-165 | Sealing is renewed from the given index if it is inside the window, the committed index included |
| `Config.PBFTConfig.SetLeaderSwitchPeriod` | bcos-pbft/pbft/config/PBFTConfig.h:93-104 | A changed period resets sealing, an unchanged one does nothing |
| `Config.PBFTConfig.ResetConfig` | bcos-pbft/pbft/config/PBFTConfig.cpp:28-120 | Old news changes nothing; an empty node list fails after the committed proposal was replaced; otherwise block, nodes, period, timeout flag and sealing marks are exactly those of the new block |
| `Config.PBFTConfig.Reseal` | bcos-pbft/pbft/config/PBFTConfig.cpp:107-119 | What was held back until this block is renewed, then the next range is handed out |
| `Cache.PBFTCache.AddCache` | bcos-pbft/pbft/cache/PBFTCache.cpp:91-115 | The vote book gains the first vote of a known sender, and the incremental weights still equal a recount |
| `Cache.PBFTCache.CollectEnoughQuorum` | bcos-pbft/pbft/cache/PBFTCache.cpp:153-161 | True exactly when the distinct senders for the hash reach the quorum |
| `Cache.PBFTCache.AddPrepareCache` | bcos-pbft/pbft/cache/PBFTCache.h:39-45 | One prepare vote more, weights equal to a recount |
| `Cache.PBFTCache.AddCommitCache` | bcos-pbft/pbft/cache/PBFTCache.h:47-53 | One commit vote more, weights equal to a recount |
| `Cache.PBFTCache.AddCheckPointMsg` | bcos-pbft/pbft/cache/PBFTCache.h:86-93 | One checkpoint vote more, weights equal to a recount |
| `Cache.PBFTCache.AddPrePrepareCache` | bcos-pbft/pbft/cache/PBFTCache.h:55-71 | Accepts a pre-prepare unless the index is stable or another hash was executed |
| `Cache.PBFTCache.ExistPrePrepare` | bcos-pbft/pbft/cache/PBFTCache.cpp:81-89 | True exactly when the accepted message has this hash and no lower view |
| `Cache.PBFTCache.ConflictWithProcessedReq` | bcos-pbft/pbft/cache/PBFTCache.cpp:117-138 | True exactly for an old view, a view below the accepted one, or another hash in the accepted view |
| `Cache.PBFTCache.ConflictWithPrecommitReq` | bcos-pbft/pbft/cache/PBFTCache.cpp:208-227 | True exactly when an uncommitted lock of the same index has another hash |
| `Cache.PBFTCache.CollectEnough` | bcos-pbft/pbft/cache/PBFTCache.cpp:163-179 | True exactly when the proposal accepted in the current view has its quorum |
| `Cache.PBFTCache.SetSignatureList` | bcos-pbft/pbft/cache/PBFTCache.cpp:195-206 | The signature list becomes the signatures of all votes for the hash in sender order |
| `Cache.PBFTCache.IntoPrecommit` | bcos-pbft/pbft/cache/PBFTCache.cpp:181-193 | The accepted message becomes the lock with its certificate, with a copy without payload |
| `Cache.PBFTCache.ShouldPrecommit` | bcos-pbft/pbft/cache/PBFTCache.cpp:229-240 | True exactly when the accepted proposal is of the current view and has a prepare quorum, no commit vote was cast in this view, and an earlier lock is of an earlier view |
| `Cache.PBFTCache.LockAndVote` | bcos-pbft/pbft/cache/PBFTCache.cpp:241-262 | Locks, counts the own commit vote and broadcasts exactly that vote |
| `Cache.PBFTCache.CheckAndPreCommit` | bcos-pbft/pbft/cache/PBFTCache.cpp:229-263 | Exactly then the lock gets the hash of the accepted proposal and the current view, and one own commit vote of that view is sent; otherwise nothing changes; the result says whether the commit quorum is there too |
| `Cache.PBFTCache.CheckAndCommit` | bcos-pbft/pbft/cache/PBFTCache.cpp:265-286 | Reports a commit once, exactly when locked and the commit quorum is there |
| `Cache.PBFTCache.ResetCacheAfterViewChange` | bcos-pbft/pbft/cache/PBFTCache.h:132-156 | Erasing while iterating leaves exactly the votes of the given view on and no empty entry |
| `Cache.PBFTCache.RecalculateQuorum` | bcos-pbft/pbft/cache/PBFTCache.h:158-181 | Every weight equals the weight of the distinct senders cached for its hash |
| `Cache.PBFTCache.ResetCache` | bcos-pbft/pbft/cache/PBFTCache.cpp:297-316 | Flags fall, outdated votes go, and the recounted weights match what is left |
| `Cache.PBFTCache.SetCheckPointProposal` | bcos-pbft/pbft/cache/PBFTCache.cpp:318-336 | The checkpoint is replaced for this uncommitted index only |
| `Cache.PBFTCache.CheckAndCommitStableCheckPoint` | bcos-pbft/pbft/cache/PBFTCache.cpp:347-367 | Becomes stable once, exactly when the checkpoint has its quorum, and attaches the signatures |
| `CacheProcessor.PBFTCacheProcessor.AddPrePrepareCache` | bcos-pbft/pbft/cache/PBFTCacheProcessor.cpp:103-111 | Only the cache of that index changes, and it is created on first use |
| `CacheProcessor.PBFTCacheProcessor.AddPrepareCache` | bcos-pbft/pbft/cache/PBFTCacheProcessor.h:61-67 | Only the cache of that index changes: one prepare vote |
| `CacheProcessor.PBFTCacheProcessor.AddCommitReq` | bcos-pbft/pbft/cache/PBFTCacheProcessor.h:69-75 | Only the cache of that index changes: one commit vote |
| `CacheProcessor.PBFTCacheProcessor.AddCheckPointMsg` | bcos-pbft/pbft/cache/PBFTCacheProcessor.cpp:432-438 | Only the cache of that index changes: one checkpoint vote |
| `CacheProcessor.PBFTCacheProcessor.SetCheckPointProposal` | bcos-pbft/pbft/cache/PBFTCacheProcessor.cpp:402-430 | Only the cache of that index changes: its checkpoint |
| `CacheProcessor.PBFTCacheProcessor.ExistPrePrepare` | bcos-pbft/pbft/cache/PBFTCacheProcessor.cpp:123-131 | Asks the cache of the index, false without one |
| `CacheProcessor.PBFTCacheProcessor.ConflictWithProcessedReq` | bcos-pbft/pbft/cache/PBFTCacheProcessor.cpp:156-164 | Asks the cache of the index, false without one |
| `CacheProcessor.PBFTCacheProcessor.ConflictWithPrecommitReq` | bcos-pbft/pbft/cache/PBFTCacheProcessor.cpp:166-174 | Asks the cache of the index, false without one |
| `CacheProcessor.PBFTCacheProcessor.GetAppliedCheckPointProposal` | bcos-pbft/pbft/cache/PBFTCacheProcessor.cpp:275-288 | The committed proposal, or the checkpoint cached for the index |
| `CacheProcessor.PBFTCacheProcessor.TryToApplyCommitQueue` | bcos-pbft/pbft/cache/PBFTCacheProcessor.cpp:290-330 | Pops executed proposals and starts the expected one exactly when its predecessor was applied and it is not running |
| `CacheProcessor.PBFTCacheProcessor.UpdateCommitQueue` | bcos-pbft/pbft/cache/PBFTCacheProcessor.cpp:239-253 | Queues a proposal that is not executing and tries to execute |
| `CacheProcessor.PBFTCacheProcessor.CheckAndPreCommit` | bcos-pbft/pbft/cache/PBFTCacheProcessor.cpp:190-201 | One pass over all caches in index order, each locking and handing over on its own quorums |
| `CacheProcessor.PBFTCacheProcessor.CheckAndCommit` | bcos-pbft/pbft/cache/PBFTCacheProcessor.cpp:203-218 | One pass over all caches in index order; a commit also takes back the view to reach |
| `CacheProcessor.PBFTCacheProcessor.EraseExecutedProposal` | bcos-pbft/pbft/cache/PBFTCacheProcessor.h:158-165 | Removes one execution mark and no other |
| `CacheProcessor.PBFTCacheProcessor.ClearExpiredExecutingProposal` | bcos-pbft/pbft/cache/PBFTCacheProcessor.cpp:1015-1027 | Erasing while iterating removes exactly the marks of committed indices |
| `CacheProcessor.PBFTCacheProcessor.TryToCommitStableCheckPoint` | bcos-pbft/pbft/cache/PBFTCacheProcessor.cpp:875-899 | Pops written checkpoints and submits the next one exactly when it directly follows the committed index |
| `CacheProcessor.PBFTCacheProcessor.UpdateStableCheckPointQueue` | bcos-pbft/pbft/cache/PBFTCacheProcessor.cpp:864-873 | Queues a checkpoint and tries to submit |
| `CacheProcessor.PBFTCacheProcessor.CheckAndCommitStableCheckPoint` | bcos-pbft/pbft/cache/PBFTCacheProcessor.cpp:844-862 | First marks all stable checkpoints, then queues and submits them |
| `CacheProcessor.PBFTCacheProcessor.AddViewChangeReq` | bcos-pbft/pbft/cache/PBFTCacheProcessor.cpp:440-488 | Files the first view change of a known sender per view, with weight and highest indices; weights equal a recount |
| `CacheProcessor.PBFTCacheProcessor.PreCommitCachesWithoutData` | bcos-pbft/pbft/cache/PBFTCacheProcessor.h:91-103 | The lock certificates of all caches in index order, no other message and none left out |
| `CacheProcessor.PBFTCacheProcessor.RemoveInvalidViewChange` | bcos-pbft/pbft/cache/PBFTCacheProcessor.cpp:794-822 | Leaves exactly the up-to-date view changes for later views, with recounted weights |
| `CacheProcessor.PBFTCacheProcessor.ReCalculateViewChangeWeight` | bcos-pbft/pbft/cache/PBFTCacheProcessor.cpp:824-842 | The weight of each view equals that of its distinct senders |
| `CacheProcessor.PBFTCacheProcessor.RemoveConsensusedCache` | bcos-pbft/pbft/cache/PBFTCacheProcessor.cpp:742-762 | Erasing while iterating evicts exactly the committed and the stable indices, and clears the view-change marks |
| `CacheProcessor.PBFTCacheProcessor.RemoveInvalidRecoverCache` | bcos-pbft/pbft/cache/PBFTCacheProcessor.cpp:779-792 | Leaves exactly the recover responses of later views, weights equal to a recount |
| `CacheProcessor.PBFTCacheProcessor.ResetCacheAfterViewChange` | bcos-pbft/pbft/cache/PBFTCacheProcessor.cpp:765-777 | Resets every cache to the view and drops outdated view changes and recover responses |
| `CacheProcessor.PBFTCacheProcessor.AddRecoverReqCache` | bcos-pbft/pbft/cache/PBFTCacheProcessor.cpp:1029-1052 | Files the first response of a sender per view; weights equal a recount |
| `CacheProcessor.PBFTCacheProcessor.RecoveredView` | bcos-pbft/pbft/cache/PBFTCacheProcessor.cpp:1054-1070 | The highest positive view that a quorum reports, or zero |
| `CacheProcessor.PBFTCacheProcessor.CheckAndTryToRecover` | bcos-pbft/pbft/cache/PBFTCacheProcessor.cpp:1054-1078 | Enters the recovered view, resets the caches and forgets the responses |
| `CacheProcessor.PBFTCacheProcessor.CheckAndTryIntoNewView` | bcos-pbft/pbft/cache/PBFTCacheProcessor.cpp:576-626 | Builds and announces a new view once, exactly when this node leads the view to reach, is not behind and holds a quorum of view changes |
| `CacheProcessor.PBFTCacheProcessor.OfferProposals` | bcos-pbft/pbft/cache/PBFTCacheProcessor.cpp:527-552 | Each certificate fills an empty slot, or replaces another hash of a lower view |
| `CacheProcessor.PBFTCacheProcessor.GeneratePrePrepareMsg` | bcos-pbft/pbft/cache/PBFTCacheProcessor.cpp:490-574 | The pre-prepare list of the new view |
| `CacheProcessor.PBFTCacheProcessor.TryToTriggerFastViewChange` | bcos-pbft/pbft/cache/PBFTCacheProcessor.cpp:628-677 | Aims just below the smallest view above the one to reach if more than the faulty weight asks for later views |
| `CacheProcessor.PBFTCacheProcessor.CheckPrecommitMsg` | bcos-pbft/pbft/cache/PBFTCacheProcessor.cpp:679-691 | True exactly for a proposal whose listed signatures are each valid and have quorum weight, of no later view once recovered |
| `CacheProcessor.PBFTCacheProcessor.CheckPrecommitWeight` | bcos-pbft/pbft/cache/PBFTCacheProcessor.cpp:693-719 | True exactly when every listed signature verifies and the listed weights reach the quorum |
| `Engine.PBFTEngine.OnProposalApplied` | bcos-pbft/pbft/engine/PBFTEngine.cpp:159-186 | The reaction to a finished execution: vote, checkpoint, next expected index, stable checkpoints, next execution |
| `Engine.PBFTEngine.CheckPBFTMsgState` | bcos-pbft/pbft/engine/PBFTEngine.cpp:571-596 | True exactly for a message with a proposal inside the window and of no earlier view |
| `Engine.PBFTEngine.CheckPrePrepareMsg` | bcos-pbft/pbft/engine/PBFTEngine.cpp:598-625 | True exactly when the message is in the window, new, and in conflict with neither the accepted proposal nor a lock |
| `Engine.PBFTEngine.CheckSignature` | bcos-pbft/pbft/engine/PBFTEngine.cpp:627-645 | True exactly when the signing key is that of the claimed sender |
| `Engine.PBFTEngine.CheckProposalSignature` | bcos-pbft/pbft/engine/PBFTEngine.cpp:647-665 | True exactly when the proposal hash is signed by the claimed sender |
| `Engine.PBFTEngine.IsSyncingHigher` | bcos-pbft/pbft/engine/PBFTEngine.cpp:667-676 | True exactly when the ledger of others is a whole window ahead |
| `Engine.PBFTEngine.HandlePrePrepareMsg` | bcos-pbft/pbft/engine/PBFTEngine.cpp:678-808 | The new state and the answer for every message and every combination of flags; outside of a new view only a message from the leader of its index, signed by it where that is checked, is accepted, and a refused one changes nothing |
| `Engine.PBFTEngine.BroadcastPrepareMsg` | bcos-pbft/pbft/engine/PBFTEngine.cpp:810-825 | Counts and broadcasts exactly the own prepare vote, and locks what can be locked |
| `Engine.PBFTEngine.CheckPBFTMsg` | bcos-pbft/pbft/engine/PBFTEngine.cpp:828-851 | True exactly for a vote of another node that verifies, is in the window and does not conflict with an accepted proposal |
| `Engine.PBFTEngine.HandlePrepareMsg` | bcos-pbft/pbft/engine/PBFTEngine.cpp:853-869 | The new state and the answer for every prepare message |
| `Engine.PBFTEngine.HandleCommitMsg` | bcos-pbft/pbft/engine/PBFTEngine.cpp:871-883 | The new state and the answer for every commit message |
| `Engine.PBFTEngine.OnTimeout` | bcos-pbft/pbft/engine/PBFTEngine.cpp:885-914 | Executes what is ready, else waits for what is running, else asks for the next view |
| `Engine.PBFTEngine.TriggerTimeout` | bcos-pbft/pbft/engine/PBFTEngine.cpp:916-926 | Raises the view to reach, drops outdated view changes and announces the own one |
| `Engine.PBFTEngine.GenerateViewChange` | bcos-pbft/pbft/engine/PBFTEngine.cpp:928-950 | The view change carries the committed proposal and exactly the lock certificates of all caches |
| `Engine.PBFTEngine.BroadcastViewChangeReq` | bcos-pbft/pbft/engine/PBFTEngine.cpp:984-1000 | Files the own view change as that of any other sender, and builds the new view if it completes the quorum |
| `Engine.PBFTEngine.IsValidViewChangeMsg` | bcos-pbft/pbft/engine/PBFTEngine.cpp:1002-1073 | Answers a sender that has fallen behind, and is true exactly when in the state after it the view change is not behind, agrees on the committed block, carries valid certificates and verifies; each prepared proposal then has valid signatures of quorum weight |
| `Engine.PBFTEngine.HandleViewChangeMsg` | bcos-pbft/pbft/engine/PBFTEngine.cpp:1075-1102 | Files a valid view change, joins a later view if the leader asks for one, and enters the new view when possible |
| `Engine.PBFTEngine.IsValidNewViewMsg` | bcos-pbft/pbft/engine/PBFTEngine.cpp:1104-1157 | True exactly for a later view from its leader whose view changes are all valid when it is their turn and have quorum weight |
| `Engine.PBFTEngine.HandleNewViewMsg` | bcos-pbft/pbft/engine/PBFTEngine.cpp:1159-1171 | Enters the view of a valid new view and hands its proposals to verification |
| `Engine.PBFTEngine.ReachNewView` | bcos-pbft/pbft/engine/PBFTEngine.cpp:1173-1179 | Enters the view and resets caches to it |
| `Engine.PBFTEngine.ReHandlePrePrepareProposals` | bcos-pbft/pbft/engine/PBFTEngine.cpp:1181-1237 | Enters the view; sealing is reset and then held until the highest proposal of the new view, or renewed behind the committed block if there is none |
| `Engine.PBFTEngine.FinalizeConsensus` | bcos-pbft/pbft/engine/PBFTEngine.cpp:1239-1254 | Advances the committed block, executes, evicts and submits in that order |
| `Engine.PBFTEngine.HandleCheckPointMsg` | bcos-pbft/pbft/engine/PBFTEngine.cpp:1256-1311 | The new state and the answer for every checkpoint message |
| `Engine.PBFTEngine.HandleRecoverResponse` | bcos-pbft/pbft/engine/PBFTEngine.cpp:1313-1321 | Files a response that verifies and recovers the view when a quorum reports it |
| `Engine.PBFTEngine.TryTriggerFastViewChange` | bcos-pbft/pbft/config/PBFTConfig.cpp:200-238 | Runs the recursion to its end; the result is false even when it fired |

## Left out

- Cache.PBFTCache.IntoPrecommit: the copy without payload takes view, index and hash from the message. The code copies the encoded header, which is still empty while a leader handles its own proposal before sending it; if its own weight is a quorum, it locks then, and its later view changes list that certificate for index 0.
- Safety.OrderingAgreement: needs the kind of a vote to be bound by its signature, or heavy honest nodes and results apart from proposals; `LightNodes.OrderingAgreesOnIff` and `ResultVotes.OrderingAlwaysAgreesIff` show that it is false of the code otherwise.
- Safety.ExecutionAgreement: needs the same, because executed proposals are decided ones.
- Safety.StateAgreement: needs the same, one block to start from, and executions with one result.
- Safety.LedgerAgreement: needs the same or results that are apart from ordered proposals; see `UntypedResults.LedgerAgreesIff`.
- Engine.PBFTEngine.IsValidViewChangeMsg: every view change comes over the network, so that its sender can be answered. The recover response sent instead while there is no timeout changes no state and is not modelled.
- Cache.PBFTCache.AddPrePrepareCache: needs the message to carry a proposal, which the checks before it ensure.
- Config.PBFTConfig.ReNotifySealer: a range at or after the progressed index is promised only for an index other than the committed one, because the guard admits that index.
- NewViewProofs.WinnerBeatsOthers: takes as a premise that certificates for one hash share their view; without it the claim is false of the code.
- Reproposals.LockIsProposedAgain: takes as premises that the certificates filed with the leader carry their well-formed proposals, as `populateFrom` builds them, and that the marks cover them; `Reproposals.LockIsForgotten` shows that it is false of the code without the latter.
- Reproposals.MarksCover: counts every recover response as a step that can clear the marks, though only those that complete a quorum do.
- Readiness.NothingReadyWaits: needs that no hash is decided at two indices, because what is executing is marked by its hash alone.
- Sealing.SealExact: needs the end of the leader period to fit a signed word; `Sealing.WrappedSealsNothing` covers the rest.
- Engine.PBFTEngine.FinalizeConsensus: states the case in which node list and leader period stay as they are; `Config.PBFTConfig.ResetConfig` covers their change, after which cached vote weights are not recounted.
- Failed execution, block synchronization with eviction of future proposals, and loading of proposals from storage or from other nodes: they lower the expected checkpoint or drop locked caches, and agreement over whole runs is stated for runs without them.
- Liveness: nothing says that a run makes progress, only what each step does when it is taken and what no reachable state leaves undone.
- Sealing calls made by the ordering handlers and by the call of the state machine, and the retry of a failed notification; each is a request in `Sealing.SealRunOk`, but the marks are not part of the network.
- The callback of a reset notification, which renews sealing later: it is the separate operation `ReNotifySealer`.
- Timers and their lengths: a timeout is a step that may happen at any time.
- The check for a lost leader when the timer is reset is a separate step of a run.
- Filling the payload of a re-proposed block from the local lock or from its author: it changes no index, hash or vote.
- Verification of proposals by the transaction pool: a pre-prepare that has to be verified changes nothing, and the verified message is a later step.
- The message queue and its worker, locks and weak pointers: handlers are atomic steps.
- Sending and receiving, encoding, and the hash fields over encoded payloads: messages are values.
- Execution inside the state machine, the write to storage and the transaction pool's bookkeeping: they are in-flight calls whose completion is a step of the environment.
- The list of committed proposals awaiting replies, the highest notified index and requests for missing checkpoints or precommits: they are log synchronization, which only adds messages already covered.
- The order of equal indices in the two priority queues: the model keeps them as sequences sorted by index, first come first.
- Objects shared between the accepted message, the lock and the messages of a new view: an update of a shared object is written as an update of each place that holds it. The reset of the sender on a certificate that enters the slot table is seen in the table, not in the cached view change.
- Overflow of views, indices and summed weights at 2^64, except in the quorum arithmetic, the leader of an index and the end of a sealing range. A list that repeats a heavy signer could overflow its sum.
- The content of the empty block proposed for an index that nobody prepared: its hash is one constant.
- Factories, status reports, logging and start-up.
