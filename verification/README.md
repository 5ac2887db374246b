# Finality gadget: a Dafny model of the node

The finality gadget runs a partition of validators beside a proof-of-work (PoW) chain. In each round a
leader proposes the PoW block that lies at depth `dFG` below the tip, followers check it against
their own PoW node, every validator asks the root chain to certify the resulting input record, and
the Unicity Certificate (UC) that comes back finalizes the block. A node that missed blocks recovers
them from its peers.

The project models three layers and proves properties that span them:

* the **consensus node**: certificates, proposals, T1 timeouts, replication, epoch changes, start-up
  (`NodeModel.dfy` on values, `Node.dfy` as the object whose handlers update fields in place);
* the **finality rule** of the transaction system (`TxModel.dfy`, `TxSystem.dfy`) over a finite block
  tree with an active chain (`PowTree.dfy`, `FinalityRuns.dfy`);
* **persistence and transport**: ordered keys and scans (`Keys.dfy`, `BlockStore.dfy`), shard
  configurations (`ShardConfs.dfy`), the timer goroutines (`RoundTimer.dfy`), message frames
  (`Streams.dfy`, `Framing.dfy`), root-node selection (`RootSelection.dfy`).

A class method that changes state is proved against a function on values; the theorems are about those
functions and therefore about the objects. `Node.FGPNode.Loop` closes the gap for whole runs: the main
loop over any list of events ends in the state `Runs.Run` gives, and `Node.FGPNode.Restart` does the
same for a new process on an old store.

`Safety.dfy` holds the invariant of a node (`Inv`) and one lemma per handler; `Runs.dfy` lifts them
to every run, `Agreement.dfy` to systems of nodes, `Recovery.dfy`, `Restart.dfy` and
`RoundAgreement.dfy` use the invariant for the properties named in the table. `Outcomes.dfy` says what
certificates, proposals and recovered blocks come to, as equivalences on message, node and answers.
`Local.dfy` and `Steady.dfy` prove what needs no trust in anyone, `RoundProgress.dfy` that a round that goes well finalizes the proposed block
everywhere. `Links.dfy` says exactly when the block headers of a node form a hash chain. `NodeCalls.dfy`
lists the calls a node makes on its transaction system, event by event, and with `TxBook.dfy` and
`NodeBook.dfy` carries depth safety and the order of finalized blocks from the transaction system to
whole runs of the node; `Remembers.dfy` shows that a finalized PoW block is not forgotten.
`Examples.dfy` holds concrete inputs for what the code does not give.

## Assumptions

Calls into bft-go-base and bft-core are fields of the record `Types.Library`; what is relied on is
written out in `RootChain.dfy`:

* `Sound` (safety): only certificates the root chain issued verify; a certificate that passes the
  equivocation check is not from an older root round; a successor of the committed certificate is for
  the next record and extends its state hash (or is the initial certificate when nothing is
  committed); block hashes depend on the content of the hashed byte strings; technical-record hashes
  are injective; no string decodes to the empty peer identifier.
* `Complete` (progress only): these checks accept what the root chain issued in order.
  `Assumptions.AssumptionsCanBeMet` constructs a library that meets both.
* `WellFormed`: the root chain certifies one sequence of records with increasing rounds, and one
  certificate per root round, for the next record or again for the same one. Its quorum is not modelled.
* `Agreement.CertifiedLinks` (for the links of blocks that change the state only): the root chain
  certifies blocks whose header points to the block before, and the hash of a block that changes the
  state binds that link. Block hashes are nil when the state does not change
  (partition/proposal_producer.go:50), so nothing binds the header of such a block.
  `Assumptions.LinksCanBeCertified` shows that this can be met, with nil hashes.
* Definitions given outright: `IsDuplicate` is equality of root rounds, `IsRepeat` is an equal input
  record in a later root round, `AssertEqualIR` compares all fields with byte strings by content,
  `Block.IsValid` is the binding of the block hash.
* The message codec decodes what it encodes and takes no proper prefix of an encoding for a message.

Messages are arbitrary values, so loss, duplication, reordering and forgery are covered. Database
results, PoW answers, sends and reads of configurations are parameters of each step (`Env`,
`PowAnswers`). A nil byte slice and an empty one are different values of `Slice` that compare equal
under `SameBytes`, as with `bytes.Equal`. Unsigned 64-bit sums wrap (`Add64`).

## What the code does not give

* **Restart with only a stored proposal.** Start-up reads whatever entry is last in the store. Without
  a block that is the pending proposal, whose certificate carries no seal. `Restart.RestartSoundIffSafe`
  proves that the restored certificate is an issued one exactly when a block is stored or no proposal is.
  `Restart.ProposingIsUnsafe` shows that a leader brings this about with its first request, and
  `Runs.FirstRequestCommitted` and `Examples.RequestTakenForBlock` follow it from genesis.
* **The latest certificate after a restart** is that of the last stored block. It gets older exactly when
  the node had seen a newer one (`Restart.RestartNeverOlderIff`, `Runs.LatestNeverOlder`);
  `Examples.LatestGetsOlder` is a permitted run from genesis.
* **A proposal taken up at start-up may not link.** Start-up compares the state hash of a stored
  proposal with the committed one, not the block hash in its header (`Restart.TakenUpIff`,
  `Restart.RestoredLinkedIff`). After a record that did not change the state, a proposal left in the store
  passes with a header that points to an earlier block, and if it is for a later round it can still be
  certified, because its block hash is nil. `Examples.LedgerUnlinked` is such a run from genesis: nine
  permitted events, every write and delete successful, a root chain that certifies linked blocks only, and
  a ledger in which block 3 does not point to block 2. `Links.LedgerLinkedIff` is the exact condition over
  every run: the headers form a chain if and only if no certificate finalizes a proposal of a round after
  the last block that a restart took up without a link, and no restart finds such a block left over.
  Under `Agreement.CertifiedLinks` blocks that change the state link in any case, and rounds and state
  hashes always form a chain (`Agreement.CertifiedBlocksChain`).
* **Such a block cannot be recovered.** A recovering node compares the header
  (partition/block_processor.go:43-50) and stays where it is: an exchange moves it on if and only if the
  first block of the reply points to its committed block (`Recovery.ExchangeAdvancesIff`,
  `Recovery.RecoveryRefinesLive`). Servers whose headers form a chain send blocks that link
  (`Recovery.LinkedServer`).
* **A restarted server refuses what it has.** Start-up sets the first certificate to the committed one,
  and requests up to it are answered with blocks not found although all blocks are stored
  (`Recovery.RestartedServerRefuses`), until the next restart, whatever the server commits meanwhile
  (`Recovery.RestartedServerKeepsRefusing`). `Recovery.RequestAcceptedIff` has all conditions under which
  a request is accepted, and the progress theorems ask for an accepted request.
* **A follower does not compare heights.** After finalizing a PoW block it accepts and commits a lower
  active one (`FinalityRuns.FollowerGoesBack`, `Examples.FollowerLedBack`). Finalized blocks ascend
  exactly when no commit goes down (`FinalityRuns.FinalizedAscendIff`, `FinalityRuns.FollowerAscendsIff`,
  for whole runs of a node `NodeBook.NodeAscendsIff`).
* **The end of a replication request wraps.** A request of a recovering node is dropped as invalid exactly
  when begin plus the fetch limit exceeds 64 bits (`Recovery.RequestAcceptedIff`).
* **A live timer on a node that does not lead.** A goroutine that was cancelled after it fired still
  lowers the running flag, which by then may belong to its successor. `RoundTimer.LiveTimerWithoutLeading`
  is such a run; `RoundTimer.NoTimerUnlessDue` and `RoundTimer.SurvivesIffFlagLowered` say when it cannot
  happen.
* **The configuration cache is not refreshed.** It is stale exactly after a different record was stored
  over a cached one (`ShardConfs.StaleIffOverwritten`, `ShardConfs.CacheGoesStale`).

## Model

| member | source | states |
|---|---|---|
| `Agreement.PrefixAgreement` | partition/certificate_handler.go:44-157 | in every interleaving of any number of nodes started from genesis, with lost, repeated, reordered or forged messages and safe restarts, the histories of any two nodes, each ending in the node's committed round and PoW hash, are prefixes of the root chain's sequence and of one another |
| `Agreement.HistoryIsCertified` | txsystem/fgp_txsystem.go:250-273 | a node's history is exactly the root chain's certified sequence up to the record it stands at |
| `Agreement.HistoryEndsCommitted` | txsystem/fgp_txsystem.go:266-272 | the history ends in the committed round and PoW hash, and is empty before the first commit |
| `Agreement.SystemKeeps` | partition/node.go:138-172 | every node of a system keeps the invariant through every run of the system |
| `Agreement.CertifiedBlocksChain` | partition/block_processor.go:33-60 | after every run with safe restarts, whatever proposals were taken up, rounds increase and each record extends the state hash of the one before; if the root chain certifies linked blocks only, every block that changes the state also points to the block before |
| `Links.LedgerLinkedIff` | partition/node_init.go:131-167 | over every run, the headers of a node's committed blocks form a hash chain at the end if and only if no certificate finalizes a proposal of a round after the last block that a restart took up without a link, and no restart finds such a block left over; no committed block ever changes |
| `Links.GenesisLedgerLinkedIff` | partition/node_init.go:64-106 | the same from genesis |
| `Links.StepLinks` | partition/certificate_handler.go:130-156 | at each event: committed blocks stay as they are, exactly the named events commit a block that does not link, and a proposal that does not link is pending exactly when a restart took it up and nothing replaced it |
| `Links.HeadersAreRecords` | partition/block_processor.go:43-50 | the headers form a chain if and only if the block of each record points to the certified hash of the record before |
| `Links.CertificateChanges` | partition/certificate_handler.go:64-156 | exactly when a certificate finalizes the pending proposal, and that otherwise at most the one block it is for is written or deleted |
| `Agreement.ServesEveryBlock` | partition/recovery.go:110-129 | a node has the block of every certificate after its first one up to the committed one |
| `Agreement.QueuedRequestHasReply` | partition/recovery.go:130-142 | the reply to every queued request is non-empty, also when blocks were added before a worker ran |
| `Agreement.ReplyIsUnique` | partition/recovery.go:156-203 | store, request and limits determine the reply: the shortest run of stored rounds that reaches a limit |
| `Agreement.ReplyIsBounded` | partition/recovery.go:169-192 | a reply holds at most as many blocks as may be returned, one at least if there is any, none but the last at or past the requested end, and everything stored from the requested round on if it stops short of both |
| `Recovery.RecoveryRefinesLive` | partition/block_processor.go:33-78 | applying a replicated block gives the committed certificate, state hash and stored blocks that finalizing the own pending proposal gave; a block from a proposal that a restart took up without a link is refused |
| `Recovery.RecoveryRebuildsLedger` | partition/recovery.go:207-263 | a node that starts from a copy of part of the server's ledger and reaches its committed round by exchanges has the server's stored blocks, committed certificate and state hash |
| `Recovery.ExchangeCopies` | partition/recovery.go:233-244 | an exchange leaves a copy of the server's blocks a copy |
| `Recovery.CommitAddsBlock` | partition/certificate_handler.go:130-156 | a certificate that makes a node commit adds exactly its block to the ledger |
| `Recovery.NextBlockAppliesIff` | partition/block_processor.go:12-79 | a recovering node applies the block of the next record, and ends at that record, if and only if its header points to the committed block; otherwise the ledger stays as it is |
| `Recovery.FollowingBlocksApplyIff` | partition/recovery.go:233-237 | a run of following blocks is applied to its end if and only if the headers form a chain from the committed block |
| `Recovery.ReplyFollows` | partition/recovery.go:169-192 | an honest reply holds the blocks of the records right after the client's, without a gap |
| `Recovery.ExchangeProgress` | partition/recovery.go:207-263 | one accepted request, a reply whose blocks link, and its application commits more, shrinks the gap to the latest round or leaves it closed, and ends recovery exactly when nothing is missing |
| `Recovery.ExchangeAdvancesIff` | partition/block_processor.go:43-50 | an exchange moves the client on if and only if the first block of the reply links, and applies all of it if and only if every block does; otherwise the client stays recovering with its ledger |
| `Recovery.LinkedServer` | partition/recovery.go:156-203 | a server whose stored blocks link sends blocks that link to every client |
| `Recovery.RecoveryEnds` | partition/recovery.go:43-53 | as many accepted and linked answers as the gap is wide, and one if it is closed already, end in normal status with committed round equal to latest round |
| `Recovery.ClosedGapEndsRecovery` | partition/recovery.go:216-222 | a node still recovering with nothing missing is back in normal status after the next answer, a refusal or more blocks |
| `Recovery.RecoveryCannotLast` | partition/recovery.go:239-262 | whatever else arrives, and whatever proposal is remembered, a node can keep recovering only for fewer accepted and linked answers than there are uncommitted records |
| `Recovery.RequestAcceptedIff` | partition/recovery.go:96-143 | which of the four answers the request of a recovering node gets: accepted if and only if its committed round lies from the server's first certificate up to below its committed one, the queue has room and the end does not wrap; dropped if and only if it wraps |
| `Recovery.RequestAsks` | partition/recovery.go:43-53 | a recovering node asks in its own name for its shard, from the round after the committed one up to the fetch limit, with the wrap of unsigned sums |
| `Recovery.RestartedServerRefuses` | partition/node_init.go:98-100 | a server that has just restarted has all its blocks and answers every valid request with blocks not found |
| `Recovery.RestartedServerKeepsRefusing` | partition/recovery.go:110-119 | until it restarts again it does so for every block up to its first certificate, whatever events follow |
| `Recovery.ApplyingCopies` | partition/block_processor.go:66-78 | whatever fails on the way, the store of a recovering node stays a copy of the server's |
| `Recovery.RecoveredLedgerIsEqual` | partition/recovery.go:239-246 | a copy at the server's record is the server's ledger |
| `RoundAgreement.InputRecordAgreement` | partition/proposal_producer.go:38-88 | a leader and every follower at the same committed round that accepts its proposal request certification of the same input record |
| `RoundAgreement.SameTechnicalRecord` | network/protocol/blockproposal/block_proposal.go:68-73 | nodes that know a leader under one latest certificate hold the same technical record |
| `RoundAgreement.FollowerCatchesUp` | partition/proposal_handler.go:47-64 | a follower that gets past the proposal's certificate has it as its latest one |
| `RoundAgreement.LeaderRequest` | partition/round.go:62-94 | exactly when a leader sends a proposal and when a request; the proposal has its partition, shard, identifier, latest certificate, technical record and proposed root, the request has round and epoch of the technical record, state hash and seal timestamp of the latest certificate, the proposed root, the hash of its block on the committed one and a plain summary; whenever no request goes out the tentative root is taken back |
| `RoundAgreement.SentProposalIsValid` | network/protocol/blockproposal/block_proposal.go:38-75 | what a leader sends passes the validation of every follower of its shard that has it for a validator |
| `RoundAgreement.FollowerRequest` | partition/proposal_handler.go:66-90 | which proposals a follower considers, when it asks for certification, that the request has the same fields, and what is left behind when the root does not verify, or the block cannot be encoded, stored or sent |
| `RoundAgreement.AcceptedProposalIsGenuine` | network/protocol/blockproposal/block_proposal.go:38-75 | a follower requests certification only for a proposal for its shard, signed by the validator its technical record names as leader, under an issued certificate that binds the record; it then goes by both, and asks for the round, epoch, previous state, time and root they give |
| `RoundProgress.LeaderFinalizes` | partition/round.go:76-93 | a leader whose request is certified as sent finalizes the PoW block it proposed: committed, stored, nothing pending |
| `RoundProgress.FollowerFinalizes` | partition/proposal_handler.go:25-91 | the same for every follower from the arrival of a proposal it accepts, the certificate inside the proposal included |
| `RoundProgress.RoundFinalizes` | partition/proposal_handler.go:47-90 | a whole round: a follower that has the leader's certificate, or gets it with the proposal, accepts what the leader proposes, both request the same record, and its certificate leaves both with the same certificate, the proposed block committed and the same block stored |
| `RoundProgress.ProposalIsFollowed` | partition/proposal_handler.go:25-90 | a follower of the leader's shard that is in step once it has processed the certificate of the proposal, and whose PoW view extends the leader's, accepts the proposal and requests what the leader requested |
| `RoundProgress.RestoredProposalFinalizes` | partition/node_init.go:131-167 | a proposal taken up at a restart is finalized by the certificate that matches it |
| `Outcomes.RecoveryStartsIff` | partition/certificate_handler.go:44-157 | a node that is not recovering starts recovery on a certificate if and only if it is taken, neither duplicate nor repeat, and leaves a gap, certifies another state than the committed one without a proposal, another record than the proposal, or a block that cannot be stored or committed; otherwise what it leaves of round, ledger and tentative state |
| `Outcomes.MissedBlockIsNoticed` | partition/certificate_handler.go:85-118 | whenever a new certificate for a later record is taken the node recovers, has committed that record, or it is the next one and left the state as it is, or could not be set on the own proposal |
| `Outcomes.UpdateIff` | partition/certificate_handler.go:161-203 | exactly which certificates are taken, with the configuration they are verified against, and that any other changes nothing |
| `Outcomes.RecordTaken` | partition/certificate_handler.go:200-220 | a certificate that is taken becomes the latest one and its technical record and leader are taken over, also when it is a duplicate |
| `Outcomes.ResponseTakenIff` | partition/certificate_handler.go:15-27 | a response leaves its certificate, technical record and leader behind if and only if it names this partition and shard everywhere, its record is whole and bound, and the certificate is taken; otherwise nothing changes |
| `Outcomes.EpochChangeIff` | partition/certificate_handler.go:222-235 | an epoch change is scheduled if and only if one was, the epoch changes, or the active configuration lags, so that a failed load is tried again |
| `Outcomes.EqualIffSame` | partition/certificate_handler.go:136-144 | the comparison of a certificate with the proposal leaves no field of the record out |
| `Outcomes.ProposalOutcome` | partition/proposal_handler.go:25-64 | a recovering node remembers a proposal, one that is not genuine or has an older certificate changes nothing, and a newer certificate is handled before the proposal is followed |
| `Outcomes.ProposalTellsLeader` | partition/proposal_handler.go:55-64 | a genuine proposal with a newer certificate brings certificate, technical record and leader |
| `Outcomes.BlockAppliedIff` | partition/block_processor.go:12-79 | a recovering node applies a block, whoever sent it, if and only if it is authentic, later, next by certificate, header and state, verified, plain and stored; it skips authentic ones that are not later, and anything else leaves the ledger as it is |
| `Outcomes.OutsideRecovery` | partition/block_processor.go:36-41 | a gap makes a node recover except during start-up, where no block is written either |
| `Outcomes.LastProposalIsRetried` | partition/recovery.go:246-260 | however long a node recovers and whatever arrives, once the last block is applied it does what it would do if the last proposal received meanwhile arrived then, and forgets it |
| `RoundProgress.CertifiedProposalFinalizes` | partition/certificate_handler.go:130-156 | the next certificate of the root chain, if it matches the pending proposal, finalizes it |
| `Local.LatestBelongTogether` | partition/certificate_handler.go:200-220 | after any events, there is neither technical record nor leader, or the record hashes to what the latest certificate binds and names the leader |
| `Local.RecoveringIsQuiet` | partition/recovery.go:17-31 | after any events a recovering node has no pending proposal and no uncommitted state |
| `Local.EpochIsTracked` | partition/node.go:192-207 | after any events the active configuration is of the current epoch, or a change is queued, or its last load failed |
| `Local.StepLocal` | partition/node.go:177-190 | every handler keeps the three properties above, whatever it receives |
| `Steady.AnswerIff` | partition/recovery.go:96-143 | which requests are dropped, refused for the shard, the blocks or lack of room, or put at the end of the queue, and that nothing else changes |
| `Steady.ServedInOrder` | partition/recovery.go:145-154 | over every run without a restart, the requests taken by workers followed by those still queued are the accepted ones in order |
| `Steady.EpochChanges` | partition/node.go:192-207 | after an epoch change the configuration of the current epoch is active, with its depth if usable, or the old one stays and the load has failed |
| `Steady.DepthIsConfigured` | txsystem/fgp_txsystem.go:60-80 | after any events, restarts included, the depth in force is that of the active configuration, if that has a usable one |
| `Steady.StepSteady` | partition/state.go:12-26 | no message changes the first certificate, and only requests, workers and epoch changes touch queue and configuration |
| `Runs.StepKeeps` | partition/node.go:138-172 | every event keeps the invariant and takes the node to no earlier record |
| `Runs.RunKeeps` | partition/node.go:144-171 | the invariant after every run |
| `Runs.LatestNeverOlder` | partition/certificate_handler.go:161-221 | over every run the latest certificate gets older at no step if and only if no restart finds one newer than that of the last stored block; the committed round never exceeds the latest round |
| `Runs.RestartForgets` | partition/node_init.go:98-100 | from genesis, a certificate and a restart: the latest certificate is gone |
| `Runs.FirstRequestCommitted` | partition/node_init.go:72-96 | from genesis, the leader of the first round restarts after its request: the requested record is its committed one, without a seal |
| `Examples.LatestGetsOlder` | partition/node_init.go:98-100 | a permitted run of a concrete node over which the latest certificate gets older |
| `Examples.RequestTakenForBlock` | partition/node_init.go:72-96 | a run of a concrete node after which its committed certificate was never issued |
| `Examples.LedgerUnlinked` | partition/node_init.go:146-166 | nine permitted events of a concrete node from genesis, without a failed write or delete and with linked blocks certified only, after which its headers do not form a chain, and a block that every node at the record before refuses |
| `Runs.LeavesRecoveryComplete` | partition/recovery.go:216-246 | a node leaves recovery only on a response, with committed round equal to latest round, before a remembered proposal is retried |
| `Restart.RestartEquivalence` | partition/node_init.go:64-106 | start-up on the store of a node with a block rebuilds its committed certificate, hash and height |
| `Restart.RestartKeeps` | partition/node_init.go:98-103 | a safe restart keeps the invariant, at the record the store ends with |
| `Restart.StartsIff` | partition/node_init.go:64-96 | start-up succeeds if and only if the store is empty, or its last entry and the configuration of its epoch can be read, the depth is usable and the PoW node knows the block |
| `Restart.StartsFresh` | partition/node_init.go:98-106 | a started node waits for its first certificate without leader, requests or events, with the configuration of its last block |
| `Restart.RestartSoundIffSafe` | partition/node_init.go:72-96 | the restored certificate is an issued one if and only if a block is stored or no proposal is |
| `Restart.RestartNeverOlderIff` | partition/node_init.go:98-100 | the latest certificate survives a restart without getting older if and only if it is no newer than that of the last block |
| `Restart.TakenUpIff` | partition/node_init.go:131-166 | a stored proposal is taken up if and only if it can be read, extends the state hash of the last block, verifies at the depth of that block's epoch and has a plain summary; its header plays no part; its root is then pending, and nothing is otherwise |
| `Restart.RestoredLinkedIff` | partition/node_init.go:146-150 | the restored node's proposal points to the restored block if and only if start-up does not find one that passes these checks with another header |
| `Restart.ProposingIsUnsafe` | partition/proposal_producer.go:71-79 | a leader without a block is no longer safe to restart after its first request |
| `Restart.ProposalTakenForBlock` | partition/node_init.go:65-96 | with only a proposal stored, start-up commits its unsealed certificate |
| `Restart.CrashAfterWrite` | partition/consensus_helpers.go:50-59 | a crash between writing and committing a block is made good by the restart |
| `Restart.LastBlock` | partition/store_helpers.go:13-15 | the last stored block is of the committed record or of the next one, and of the committed one when deletes succeed |
| `Safety.HandleCertificateKeeps` | partition/certificate_handler.go:44-157 | certificate handling keeps the invariant and moves on by at most one record |
| `Safety.ActOnCertificateKeeps` | partition/certificate_handler.go:64-128 | the same for each branch after the update of the latest certificate |
| `Safety.UpdateLUCAdvances` | partition/certificate_handler.go:178-221 | the latest certificate stays issued and moves to no older root round or round |
| `Safety.ProposalBecomesNextBlock` | partition/certificate_handler.go:130-146 | a certificate that matches the pending proposal makes it the block of the next record |
| `Safety.FinalizeKeeps` | partition/consensus_helpers.go:45-71 | finalizing moves to the next record or leaves the ledger where it was, for every outcome of write, commit and delete |
| `Safety.HandleBlockKeeps` | partition/block_processor.go:12-79 | a replicated block keeps the invariant and moves on by at most one record |
| `Safety.HandleProposalKeeps` | partition/proposal_handler.go:25-91 | proposal handling keeps the invariant |
| `Safety.HandleT1TimeoutKeeps` | partition/round.go:62-94 | the T1 timeout keeps the invariant |
| `Safety.HandleReplicationResponseKeeps` | partition/recovery.go:207-263 | a replication response keeps the invariant |
| `Safety.HandleEpochChangeKeeps` | partition/node.go:192-207 | an epoch change keeps the invariant |
| `Assumptions.AssumptionsCanBeMet` | partition/certificate_handler.go:85-92 | the contracts assumed of the library are met together, for every root chain with linked records |
| `Assumptions.LinksCanBeCertified` | partition/proposal_producer.go:50-71 | and so is the assumption that only linked blocks are certified, with a block hash that is nil when the state does not change |
| `PowTree.ForkCheckExact` | txsystem/fgp_txsystem.go:142-161 | over any finite block tree whose tips are reported, the fork check passes if and only if no block off the active chain has the candidate height |
| `PowTree.LeaderProposeExact` | txsystem/fgp_txsystem.go:93-172 | over any block tree, and with queries that may fail: a leader proposes if and only if all of them are answered, the block with dFG confirmations is above the committed block's height in the tree and has no competitor; and it proposes that block |
| `PowTree.FollowerVerifyExact` | txsystem/fgp_txsystem.go:174-216 | a follower accepts exactly the committed root and, if its queries are answered, the active blocks with at least dFG confirmations |
| `PowTree.LeaderProposalAccepted` | txsystem/fgp_txsystem.go:186-215 | a leader's proposal is accepted in every view that extends its active chain |
| `PowTree.ForkHeightExact` | pow/types/types.go:6-49 | the path to a block is on the active chain exactly up to its fork height |
| `TxModel.CandidateHeight` | txsystem/fgp_txsystem.go:121-134 | the candidate height exists exactly when the tip is dFG above the finalized height, without underflow |
| `FinalityRuns.DepthSafety` | txsystem/fgp_txsystem.go:250-273 | over every run of calls and restarts, a newly committed hash has been pending since a call at which it was on the active chain with the then-current dFG confirmations |
| `NodeBook.NodeDepthSafety` | partition/consensus_helpers.go:45-71 | over every run of a node with truthful PoW answers, each hash of its history that differs from the one before was found on the active chain with the dFG confirmations then required by a call of the run; if no delete failed, it was pending from such a call until it was committed |
| `NodeBook.NodeAscendsIff` | txsystem/fgp_txsystem.go:250-273 | over every run of a node in which finalized blocks stay active, the PoW hashes of its history form a strictly ascending ancestor chain if and only if no commit goes to a lower block |
| `NodeBook.EnterStep` | partition/node.go:177-190 | the calls listed for an event lead to the transaction state after it, finalize the hashes of the records it moves on to, and justify every block that may be committed without a further call |
| `FinalityRuns.PendingIsJustified` | txsystem/fgp_txsystem.go:93-216 | what is pending is the committed hash or has been pending since a call that found it deep enough |
| `FinalityRuns.EmptyHashForgets` | txsystem/fgp_txsystem.go:250-260 | with nothing pending exactly certificates of an empty hash commit, and the finalized height is then 0 |
| `Remembers.NeverForgets` | partition/proposal_producer.go:40-79 | that does not happen in a node: over every run, failed deletes included, once a PoW block is committed there is one ever after, if the PoW node knows no empty hash |
| `FinalityRuns.FinalizedBlocksAscend` | txsystem/fgp_txsystem.go:174-216 | when followers accept the committed block or higher ones and finalized blocks stay active, finalized blocks are a strictly ascending ancestor chain, for leaders and followers, under any changes of dFG |
| `FinalityRuns.FinalizedAscendIff` | txsystem/fgp_txsystem.go:60-80 | with finalized blocks staying active, and PoW calls that may fail, finalized blocks ascend if and only if no commit goes to a lower block |
| `FinalityRuns.FollowerAscendsIff` | txsystem/fgp_txsystem.go:186-213 | an accepted and certified root keeps the chain ascending if and only if it is the committed one or higher |
| `FinalityRuns.FollowerGoesBack` | txsystem/fgp_txsystem.go:180-213 | a follower that has finalized a block accepts and commits a lower active one |
| `Examples.FollowerLedBack` | txsystem/fgp_txsystem.go:186-213 | a tree of three blocks in which this happens |
| `TxSystem.FGPTxSystem.LeaderPropose` | txsystem/fgp_txsystem.go:93-172 | the object does what `PowTree.LeaderProposeExact` characterizes, without unsigned underflow, and is unchanged on error |
| `TxSystem.FGPTxSystem.CheckForks` | txsystem/fgp_txsystem.go:148-161 | the loop passes if and only if every tip off the active chain has a possible length and ends below the candidate or branches off at or above it |
| `TxSystem.FGPTxSystem.FollowerVerify` | txsystem/fgp_txsystem.go:174-216 | the object does what `PowTree.FollowerVerifyExact` characterizes, and is unchanged on error |
| `TxSystem.FGPTxSystem.RestoreState` | txsystem/fgp_txsystem.go:218-240 | the certified hash with the height the PoW node gives it, nothing pending; unchanged on error |
| `TxSystem.FGPTxSystem.Commit` | txsystem/fgp_txsystem.go:250-273 | exactly a certificate of the pending hash moves the pending block to the committed one; unchanged on error |
| `TxSystem.FGPTxSystem.Revert` | txsystem/fgp_txsystem.go:242-248 | nothing pending, the committed block untouched |
| `TxSystem.FGPTxSystem.UpdateConfig` | txsystem/fgp_txsystem.go:60-80 | a missing, non-numeric or zero dFG is an error that leaves the old one |
| `TxSystem.FGPTxSystem.StateSummary` | txsystem/fgp_txsystem.go:82-91 | the committed root, or an error while a block is pending |
| `TxSystem.FGPTxSystem.FromConf` | txsystem/fgp_txsystem.go:36-58 | the genesis state, or an error for a missing, non-numeric or zero dFG |
| `Node.FGPNode.Loop` | partition/node.go:138-172 | the main loop over any list of events ends in the state that the run on values ends in |
| `Node.FGPNode.Turn` | partition/node.go:145-167 | one turn of the loop is one step |
| `Node.FGPNode.HandleCertificationResponse` | partition/certificate_handler.go:15-27 | a response that is invalid or for another shard changes nothing; any other has the effect of its certificate on all of the state |
| `Node.FGPNode.HandleCertificate` | partition/certificate_handler.go:44-62 | the whole new state, store and transaction system included, is that of `NodeModel.HandleCertificate`, of which `Safety.HandleCertificateKeeps` holds |
| `Node.FGPNode.ActOnCertificate` | partition/certificate_handler.go:64-100 | duplicates, repeats, gaps and successors, as the function says |
| `Node.FGPNode.CertifyWithoutProposal` | partition/certificate_handler.go:100-128 | without a proposal the node starts a round if its state is the certified one, and recovers otherwise, as `Outcomes.RecoveryStartsIff` spells out |
| `Node.FGPNode.CertifyProposal` | partition/certificate_handler.go:130-156 | a certificate that does not match starts recovery; one that does has the effect of `NodeModel.CertifyProposal`, of which `Links.CertificateChanges` and `Safety.HandleCertificateKeeps` hold |
| `Node.FGPNode.SealPending` | partition/certificate_handler.go:145-156 | the certificate is set on the pending block in place before it is stored; one that cannot be encoded leaves the pending block without a certificate |
| `Node.FGPNode.UpdateLUC` | partition/certificate_handler.go:161-203 | which certificates are refused, ignored or taken, and that nothing else changes; `Outcomes.UpdateIff`, `Outcomes.RecordTaken` and `Safety.UpdateLUCAdvances` hold of it |
| `Node.FGPNode.SetLatest` | partition/certificate_handler.go:205-235 | certificate, technical record and leader are set together and an epoch change is scheduled |
| `Node.FGPNode.FinalizeBlock` | partition/consensus_helpers.go:45-71 | write, commit, and delete on failure, as the function says |
| `Node.FGPNode.RevertState` | partition/consensus_helpers.go:39-42 | drops the pending PoW block and nothing else |
| `Node.FGPNode.StartNewRound` | partition/round.go:10-16 | drops the pending proposal from memory, and from the store if the delete succeeds |
| `Node.FGPNode.StartRecovery` | partition/recovery.go:17-31 | recovery starts once, with nothing pending, and the request that goes out begins after the committed round |
| `Node.FGPNode.HandleBlock` | partition/block_processor.go:12-42 | skipping, recovering or applying a block, with the whole new state; `Safety.HandleBlockKeeps` holds of it |
| `Node.FGPNode.ApplyVerified` | partition/block_processor.go:43-79 | a block that does not extend the ledger or does not verify leaves it as it was, with nothing pending after a failed attempt |
| `Node.FGPNode.ApplyBlocks` | partition/recovery.go:233-237 | the loop applies blocks in order up to the first failure |
| `Node.FGPNode.HandleReplicationResponse` | partition/recovery.go:207-263 | the whole new state, of which `Safety.HandleReplicationResponseKeeps` holds; another request goes out exactly when all blocks were applied and some are still missing |
| `Node.FGPNode.FinishRecovery` | partition/recovery.go:246-260 | normal status, a new round, and another try of the last proposal seen |
| `Node.FGPNode.HandleReplicationRequest` | partition/recovery.go:96-143 | queues the request or answers with the status that `Steady.AnswerIff` spells out |
| `Node.FGPNode.ProcessReplicationRequest` | partition/recovery.go:156-203 | the answer to the oldest queued request: the reply, or its part before an unreadable block |
| `Node.FGPNode.HandleProposal` | partition/proposal_handler.go:25-64 | the whole new state, of which `Safety.HandleProposalKeeps` and `Outcomes.ProposalOutcome` hold, and the request that `RoundAgreement.InputRecordAgreement` is about |
| `Node.FGPNode.FollowProposal` | partition/proposal_handler.go:66-90 | only the leader's proposal on the committed state is verified, and the request sent is the one `RoundAgreement.FollowerRequest` describes |
| `Node.FGPNode.SendCertificationRequest` | partition/proposal_producer.go:38-111 | builds, stores and keeps the pending block and sends its record, with the effect of a failure at each stage; the latest certificate is never missing; `RoundAgreement.LeaderRequest` and `RoundAgreement.FollowerRequest` give every field |
| `Node.FGPNode.HandleT1Timeout` | partition/round.go:62-94 | the whole new state, of which `Safety.HandleT1TimeoutKeeps` holds, and the proposal and request of which `RoundAgreement.LeaderRequest` gives every field |
| `Node.FGPNode.HandleEpochChange` | partition/node.go:192-207 | configuration and dFG of the current epoch, or the old ones when the load fails, as `Steady.EpochChanges` spells out |
| `Node.FGPNode.GetCurrentEpoch` | partition/state_helpers.go:21-34 | the epoch of the technical record, else of the latest certificate, else 0 |
| `Node.FGPNode.GetCurrentRound` | partition/state_helpers.go:36-43 | the round of the technical record, else the one after the latest certificate |
| `Node.FGPNode.IsRecoveryComplete` | partition/recovery.go:39-41 | committed round equals latest round |
| `Node.FGPNode.InitState` | partition/node_init.go:64-106 | when start-up succeeds and the whole state it leads to; `Restart.RestartEquivalence` holds of it |
| `Node.FGPNode.RestoreLast` | partition/node_init.go:72-96 | configuration and transaction system restored from the last entry, or an error |
| `Node.FGPNode.RestoreProposal` | partition/node_init.go:131-167 | the stored proposal is taken up again when it extends the restored state and verifies |
| `Node.FGPNode.Restart` | partition/node_init.go:27-62 | a new object on the old store, in the state the function gives, exactly when there is a usable first configuration and the last entry can be restored |
| `BlockStore.Store.CollectReply` | partition/recovery.go:156-203 | the scan yields exactly the reply, or its part before the first unreadable block, with the stored blocks and the first and last round |
| `BlockStore.Scan` | partition/recovery.go:169-192 | where the loop over the iterator stops |
| `BlockStore.Store.Iterate` | partition/recovery.go:160-168 | the iterator passes exactly the stored rounds from the requested one on, in order, and never the proposal |
| `BlockStore.Store.Last` | partition/node_init.go:65-72 | the reverse iterator yields the block of the last round, or else the proposal |
| `BlockStore.LastKeyIsLastEntry` | partition/store_helpers.go:13-15 | the last key leads to the block of the last round when there is one |
| `BlockStore.Store.StoreBlock` | partition/store_helpers.go:17-20 | writes the block of a round and leaves the proposal alone |
| `BlockStore.Store.DeleteBlock` | partition/store_helpers.go:22-25 | removes the block of a round and nothing else |
| `BlockStore.Store.StorePendingProposal` | partition/store_helpers.go:27-33 | writes the proposal and leaves the blocks alone |
| `BlockStore.Store.DeletePendingProposal` | partition/store_helpers.go:35-40 | removes the proposal and leaves the blocks alone |
| `BlockStore.Store.LoadPendingProposal` | partition/store_helpers.go:47-55 | reads the proposal, and tells a failed read from a missing proposal |
| `Keys.RoundKeyOrder` | partition/consensus_helpers.go:46-47 | big-endian round keys sort as the rounds |
| `Keys.ProposalKeySortsFirst` | partition/store_helpers.go:13-15 | the 4-byte proposal key sorts below every round key |
| `Keys.RoundKeyRoundTrip` | partition/recovery.go:176 | the round is read back from its key |
| `ShardConfs.CallsKeep` | partition/shard_conf_store.go:33-91 | any calls keep epochs without a gap, and lookups answer from the database if nothing cached was overwritten |
| `ShardConfs.StaleIffOverwritten` | partition/shard_conf_store.go:43-49 | a call makes the cache stale if and only if an accepted record replaces a different cached one |
| `ShardConfs.StoredIff` | partition/shard_conf_store.go:33-50 | a record is stored if and only if it can be written and passes the check against the stored record of the epoch before, or alone for epoch 0 |
| `ShardConfs.OnlyCheckedStored` | partition/shard_conf_store.go:33-43 | whatever calls are made, a record that fails the check is never stored |
| `ShardConfs.CacheGoesStale` | partition/shard_conf_store.go:67-72 | the calls after which a lookup answers with the replaced record |
| `ShardConfs.BuiltStoreServesNode` | partition/node_init.go:45-49 | a store built by calls has what the node assumes of its configurations |
| `ShardConfs.ShardConfStore.Store` | partition/shard_conf_store.go:33-50 | writes exactly when the previous epoch is there and the record verifies |
| `ShardConfs.ShardConfStore.Get` | partition/shard_conf_store.go:67-91 | cache first, then database; the answer is the database's while the cache agrees |
| `ShardConfs.ShardConfStore.GetFirst` | partition/shard_conf_store.go:52-65 | the first record of a store without gaps is that of epoch 0 |
| `ShardConfs.ShardConfStore.VerifyDb` | partition/shard_conf_store.go:105-138 | passes if and only if all records can be read and belong to one shard |
| `RoundTimer.AtMostOneUncancelled` | partition/round.go:30-43 | in every interleaving at most one goroutine has an uncancelled context |
| `RoundTimer.EventsHandledOnce` | partition/round.go:45-59 | in every interleaving each timer event is handled once or still waiting, and none is handled that was not brought |
| `RoundTimer.LeaderNeverWaitsForever` | partition/round.go:18-28 | in every interleaving, a leader waiting for its next message has an event queued or a goroutine on the way to one |
| `RoundTimer.NoTimerUnlessDue` | partition/round.go:25-27 | without a stale write a node that does not lead or recovers has no live timer |
| `RoundTimer.LiveTimerWithoutLeading` | partition/round.go:45-59 | an interleaving that leaves a live timer on a node that does not lead |
| `RoundTimer.SurvivesIffFlagLowered` | partition/round.go:18-36 | a timer that is not due survives the check if and only if its flag was already lowered |
| `RoundTimer.EventNeedsLeader` | partition/round.go:62-72 | a T1 event leads to a proposal or request only in a node that leads and is not recovering, and changes nothing otherwise |
| `RoundTimer.StepKeeps` | partition/round.go:18-60 | every step of the loop or of a goroutine keeps the timer invariant |
| `Framing.MessagesRoundTrip` | network/cbor.go:12-45 | any list of messages with non-empty encodings up to 16 MB is read back from its concatenated frames |
| `Framing.MessagesCut` | network/libp2p_network.go:219-233 | a stream that breaks off anywhere delivers the messages whose frames arrived whole and nothing else |
| `Framing.FrameRoundTrip` | network/cbor.go:25-45 | a frame is read back whatever follows it |
| `Framing.LengthBufferSuffices` | network/cbor.go:17-19 | the 8-byte buffer holds the length if and only if it is below 2^56 |
| `Framing.UvarintFormat` | network/cbor.go:17-19 | the bytes of a length make up the number, seven bits each and the least significant first, and the top bit tells the last |
| `Framing.PutUvarint` | network/cbor.go:19 | the length is written inside the buffer |
| `Framing.Serialize` | network/cbor.go:12-21 | the bytes sent are the frame of the message; writing the length panics exactly from 2^56 on |
| `Framing.Reader.Deserialize` | network/cbor.go:25-45 | reads one frame, with zero and oversized lengths refused, and leaves on the stream what the decoder does not take |
| `Framing.Reader.ReadStream` | network/libp2p_network.go:219-234 | the read loop delivers what the stream function gives, up to the room in the receive channel |
| `Streams.StreamCut` | network/libp2p_network.go:220-227 | the same for any framing whose frames parse alone and not when cut |
| `RootSelection.SelectRootNodes` | partition/root_node_selector.go:38-74 | the error cases, and the requested number of nodes in order from the position of the hash modulo their number, going round |
| `RootSelection.Pick` | partition/root_node_selector.go:59-73 | the wrapping loop takes exactly the cyclic run of positions |
| `RootSelection.NoNodeTwice` | partition/root_node_selector.go:60-72 | no position and no node is chosen twice |

## Left out

- FinalityRuns.FinalizedAscendIff: finalized blocks stay active in every view, as the finality rule presumes; a reorganization below a finalized block is not modelled.
- NodeBook.NodeDepthSafety: for a block that a failed delete left in the store and a restart committed, only that an earlier call found it deep; it is committed without a call of `Commit`.
- NodeBook.NodeAscendsIff: restarts restore the block that was committed.
- The envelope of a certification request (node identifier, block size, signature): the model sends the input record.
- libp2p hosts, streams, discovery and message dispatch: the network is any list of messages.
- The PoW JSON-RPC client: replaced by the answers of a block-tree view, any of which may be missing.
- Signatures, hashing, trust bases and CBOR: predicates and functions of the library record.
- The choice of the peer a replication request goes to, handshakes, monitoring ticks and wall-clock time: they change no modelled state but the requests that go out.
- Cancellation of the whole process while a handler or worker runs; `Restart.CrashAfterWrite` covers the one point where the store is ahead of the committed state.
- `randomNodeSelector`, string formatting, command line, configuration files and logging: they would only add easy members.
- The root chain's quorum and the CBOR layout of records: not in this repository.
