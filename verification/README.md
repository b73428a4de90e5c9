# Two BFT protocols and their command pool, verified

A Dafny 4.11 model of two atomic-broadcast protocols, each an I/O-free state machine, of the
command pool both of them use, and of the service, the client and the stream reader around them.
`dafny verify dfyconfig.toml` verifies the whole project.

**HotStuff** (`src/hotstuff/mod.rs`). The core is modelled twice: over digests (`HotStuffTree`,
`HotStuffChain`, `HotStuffCore`) and as a class with the program's slabs and index tables
(`HotStuffTables`, `HotStuffReplicaCore`), which refines the first. `HotStuffSystem` puts honest
replicas, up to f Byzantine ones and a lossy, reordering network together; `HotStuffSafety` proves
that nobody finalizes conflicting blocks. `HotStuffReordering` and `HotStuffReplica` are the wrapper
at a backup: causal delivery, then one vote for each stored block. `HotStuffStableLeader`,
`HotStuffLeaderLoop`, `HotStuffVotes` and `HotStuffLeader` are the leader, whose whole state is a closed
form of its last block and of the votes it received; `HotStuffBackups` shows that backups follow it in
whatever order blocks arrive, and `HotStuffRequests` what becomes of every request.

**PBFT** (`src/pbft/mod.rs`), normal case, in one fixed view. `PbftCore` and `PbftNode` say what a
replica does as a function of the votes delivered to it; `PbftInvariant` proves what every message
keeps, `PbftOutcome` that only the set of messages matters, `PbftAgreement` that honest replicas
agree even under an equivocating primary, and `PbftQuiescence` that an honest primary's proposals all
become final once everything sent has arrived. `PbftProgress` proves that ticks make up for lost messages, and
`PbftRequests` follows every request from its pool to execution. `PbftReplicaCore`, `PbftScratch` and `PbftReplica` are the
program's objects with their incremental vote tables and action queue, proved against `PbftNode`.
`PbftService`, `PbftClient` and `PbftEndToEnd` lead from agreement to what a client may rely on.

**Pools** (`src/command/pool.rs`). `CloseLoopPool` and `OpenLoopPool` are plain lists; the classes in
`CloseLoopCommandPool` and `OpenLoopCommandPool` refine them. `CloseLoopPoolRuns`, `CloseLoopPoolOrder`
and `OpenLoopPoolRuns` prove conservation, at-most-once, bounded waiting, order and exactly what is
accepted over all runs; `CommandPoolRuns` joins the two variants.

**Stream reader** (`src/transport/tcp.rs`). `StreamFraming` and `StreamReader`.

Digests are free constructors over what they are computed from, so they are injective. A threshold
certificate is the set of replicas that signed, and an honest replica's signature exists only if it
signed. The outcome of a signature check is a parameter of the method that makes it.

Where code and comments differ, the model follows the code:

- `src/command/pool.rs:10-12` promises that a later push is never handed out earlier. A commit that
  removes an entry with two or more behind it breaks this, and so does a client that replaces its
  own pending command (`OrderFailsByCommit`, `OrderFailsByReplacement`); `FifoKeptIff` gives the
  exact condition.
- `src/command/pool.rs:16-17` takes it that a backup never closes a batch. A HotStuff backup does so
  in every `handle` (`src/hotstuff/mod.rs:204-211`) and drops what it took; `TakenIsProposedIff` and
  `BackupLosesIff` say exactly when commands are lost.
- `src/hotstuff/mod.rs:329` sets the execution pointer unconditionally, so on a forked tree a block
  can be finalized twice (`ForkRepeats`); `RepeatsIff` gives the exact condition for one decision,
  `FinalizedOnceIff` for a run of them and `HotStuffRepeats` for a whole system.
- `src/hotstuff/mod.rs:278-300` copies height and justification unchecked. Safety needs that heights
  are consecutive and that a justified block is a proper ancestor; neither is enough without the other
  (`SkippedHeightsBreakSafety`, `JustifyingAsideBreaksSafety`).
- `src/hotstuff/mod.rs:219-220` would underflow for an empty batch; `UnderflowIff` says when.
- `src/hotstuff/mod.rs:484` asserts that a block is delivered once, and the `unwrap` at line 529 that
  a vote has a scratch. `BufferedIff` and `ScratchIff` say exactly when they hold; `RedeliveryPanics`,
  `StrayVotePanics`, `LateVotePanics` and `WrongSharePanics` are the inputs that fail. One Byzantine
  replica suffices for a stray vote.

## Model

| member | source | states |
|---|---|---|
| HotStuffSafety.Safety | src/hotstuff/mod.rs:302-341 | over every run with n >= 3f+1 and at most f Byzantine replicas, any two blocks finalized by honest replicas, at any two moments, lie on one chain |
| HotStuffSafety.CertifiedOncePerHeight | src/hotstuff/mod.rs:259-265 | in every reachable state two valid certificates for one height are for the same block |
| HotStuffSafety.CertifiedExtendsDecision | src/hotstuff/mod.rs:319-330 | every certified block at or above a decided block descends from it |
| HotStuffSafety.LockAtLaterVote | src/hotstuff/mod.rs:302-326 | of two certified blocks, some honest replica voted for both, for the lower first; at its later vote its lock was certified, at least as high as what the lower block locks, and satisfied the voting rule |
| HotStuffSafety.CertifiedUnique | src/hotstuff/mod.rs:302-307 | two certified blocks of one height are equal, by quorum intersection and strictly rising votes |
| HotStuffSafety.RunKeepsInv | src/hotstuff/mod.rs:245-341 | the safety invariant holds in every state of every run |
| HotStuffCounterexamples.SkippedHeightsBreakSafety | src/hotstuff/mod.rs:278-300 | for every valid configuration there is a run with conflicting finalizations if heights may skip |
| HotStuffCounterexamples.JustifyingAsideBreaksSafety | src/hotstuff/mod.rs:278-300 | the same if a block may justify one outside its branch |
| HotStuffTree.ExtendsIsAncestor | src/hotstuff/mod.rs:309-317 | `extends` implies ancestor-or-equal on any tree, and is exactly that when heights rise |
| HotStuffTree.CommitPathIsPath | src/hotstuff/mod.rs:333-341 | when heights rise, `on_commit` emits the parent-to-child path from the execution pointer to the target |
| HotStuffTree.PathIsUnique | src/hotstuff/mod.rs:333-341 | no other list of blocks is a path between the two |
| HotStuffTree.CommitPathIsBelow | src/hotstuff/mod.rs:333-341 | with no assumption on heights, all that is finalized is an ancestor of the target |
| HotStuffTables.KeysLead | src/hotstuff/mod.rs:93-109 | the key fields of a stored node lead to its parent and to the certificate it justifies, and these are in range |
| HotStuffTables.KeysAreDistinct | src/hotstuff/mod.rs:104-107 | slab keys and digests correspond one to one |
| HotStuffTables.NodeKeepsConsistent | src/hotstuff/mod.rs:288-299 | storing a block keeps slabs and indexes consistent: parents have smaller keys, genesis stops every walk |
| HotStuffTables.IndexedCertKeepsConsistent | src/hotstuff/mod.rs:279-287 | so does storing the certificate a block carries |
| HotStuffReplicaCore.ReplicaCore.constructor | src/hotstuff/mod.rs:129-169 | the initial tables stand for genesis alone |
| HotStuffReplicaCore.ReplicaCore.UpdateQuorumCertHigh | src/hotstuff/mod.rs:177-185 | refines raising the highest certificate and the leaf |
| HotStuffReplicaCore.ReplicaCore.IngestBlock | src/hotstuff/mod.rs:278-300 | refines adding the block and, if new, its certificate; nothing is replaced |
| HotStuffReplicaCore.ReplicaCore.ExtendsKey | src/hotstuff/mod.rs:309-317 | terminates on every reachable tree and equals `extends` over digests |
| HotStuffReplicaCore.ReplicaCore.ShouldVoteKey | src/hotstuff/mod.rs:302-307 | equals the voting rule over digests |
| HotStuffReplicaCore.ReplicaCore.OnCommit | src/hotstuff/mod.rs:333-341 | terminates on every reachable tree; finalizes the commit path and commits its commands in order |
| HotStuffReplicaCore.ReplicaCore.UpdateFrom | src/hotstuff/mod.rs:319-331 | refines the update of certificate, lock and execution pointer |
| HotStuffReplicaCore.ReplicaCore.OnBeatOf | src/hotstuff/mod.rs:210-241 | refines the proposal step; the counter of extra rounds does not underflow |
| HotStuffReplicaCore.ReplicaCore.BeatNow | src/hotstuff/mod.rs:187-208 | refines `beat` |
| HotStuffReplicaCore.ReplicaCore.HandleEvent | src/hotstuff/mod.rs:245-276 | refines one event, with its actions in order; no assertion fails |
| HotStuffCore.HandleEmits | src/hotstuff/mod.rs:245-276 | an event votes for its own block iff the voting rule allows, for nothing else, and finalizes exactly the commit path |
| HotStuffCore.HandleVotes | src/hotstuff/mod.rs:251-266 | at most one vote per event |
| HotStuffCore.BeatBuildsOnJustify | src/hotstuff/mod.rs:224-231 | a proposed block stands on the block it justifies, one higher, and is well formed |
| HotStuffCore.UnderflowIff | src/hotstuff/mod.rs:217-223 | the counter would underflow exactly when an idle leader with no rounds left and pending commands takes batches of size zero |
| HotStuffCore.FirstRequestUnderflows | src/hotstuff/mod.rs:204-223 | the shortest failing run: a leader with batch size zero and one request |
| HotStuffCore.BatchesAreFull | src/hotstuff/mod.rs:204-206 | with a positive batch size a batch is never empty, and there is one iff something is pending |
| HotStuffCore.HandleKeepsConfigured | src/hotstuff/mod.rs:245-276 | configuration and identity never change |
| HotStuffCore.HandleAllConcat | src/hotstuff/mod.rs:245-276 | handling events in two goes is handling them in one |
| HotStuffExecution.ExecutedOnceIff | src/hotstuff/mod.rs:327-341 | the finalized list stays equal to the path from genesis to the execution pointer iff a block decides nothing below the pointer |
| HotStuffExecution.ForkRepeats | src/hotstuff/mod.rs:319-341 | a well-formed fork makes the next block finalize an already finalized block again |
| HotStuffExecution.MovedBackRepeats | src/hotstuff/mod.rs:327-341 | of the blocks up to e that are final, a decision t with the pointer at x finalizes again exactly those above x and no higher than t |
| HotStuffExecution.RepeatsIff | src/hotstuff/mod.rs:327-341 | with all blocks up to e final and the pointer at x, deciding t finalizes something twice iff the pointer had moved back and t is above it |
| HotStuffExecution.FinalizedOnceIff | src/hotstuff/mod.rs:327-341 | any list of decisions on one branch finalizes every block at most once iff none lies above a pointer that an earlier one had moved back |
| HotStuffExecution.RunFinalizesOnceIff | src/hotstuff/mod.rs:245-341 | the same for all events a core handles from its start, by what its blocks decide |
| HotStuffRepeats.FinalizesOnceIff | src/hotstuff/mod.rs:319-341 | the same for an honest replica in any run of the system, where safety puts its decisions on one branch |
| HotStuffReordering.RestIsCausal | src/hotstuff/mod.rs:481-508 | when nothing is pending, the stored blocks are exactly those whose parent and justify closure has arrived |
| HotStuffReordering.PopToStore | src/hotstuff/mod.rs:493-507 | storing a pending block keeps the buffer: each key is missing, each block waits in one place for good reason |
| HotStuffReordering.PopToWaiting | src/hotstuff/mod.rs:494-500 | so does putting it under the block it justifies |
| HotStuffReordering.BufferedLacks | src/hotstuff/mod.rs:485-500 | every buffered block lacks its parent or the block it justifies |
| HotStuffReplica.Replica.ReceiveGeneric | src/hotstuff/mod.rs:459-509 | any `Generic`: the core handles a causally ordered list of the arrived blocks, and what is stored is what has its whole past here; it panics exactly for an admissible block that has already arrived |
| HotStuffReplica.Replica.DrainPending | src/hotstuff/mod.rs:492-508 | the loop ends, by blocks not stored and then pending length |
| HotStuffReplica.Replica.EffectActions | src/hotstuff/mod.rs:561-669 | at a backup each vote finds its signers; what goes out is exactly the votes that the replica was asked for and the batch of each finalized block, in order |
| HotStuffReplica.EffectsAre | src/hotstuff/mod.rs:618-665 | what a backup sends on its core's actions is exactly one execution for each finalized block, with its commands, and one vote to the leader for each voted block that it is asked to sign, in order |
| HotStuffReplica.Replica.ReceiveMessage | src/hotstuff/mod.rs:457-523 | a whole `Generic` message, any at all: exactly when it panics; else the batches executed are those of the blocks the delivered events finalize, the votes sent are for the voted blocks whose signers include this replica, and all outputs so far are kept in order |
| HotStuffReplica.Replica.ReceiveRequest | src/hotstuff/mod.rs:451-455 | a request at a backup changes the pool only |
| HotStuffReplica.BufferedIff | src/hotstuff/mod.rs:481-484 | for a block that is not stored, signers are on record iff it has arrived, so the assertion holds exactly for blocks that have not |
| HotStuffReplica.RedeliveryPanics | src/hotstuff/mod.rs:481-484 | every buffered block, delivered again, passes the checks and trips the assertion |
| HotStuffReplica.DeliverTwice | src/hotstuff/mod.rs:481-490 | the shortest failing run: a block whose parent has not arrived, twice |
| HotStuffReplica.BackupFollowsArrivals | src/hotstuff/mod.rs:459-509 | whatever the order of arrival, a backup object is in the closed form of the last block before the first gap, and has executed the batches of all blocks up to the third before it, once each and in order |
| HotStuffStableLeader.BackupStores | src/hotstuff/mod.rs:259-265 | the next block of the line is voted for, moves the closed form on by one and finalizes the third block before it |
| HotStuffStableLeader.LeaderStores | src/hotstuff/mod.rs:251-258 | the leader may vote for its own block, so the assertion at line 253 holds |
| HotStuffStableLeader.LeaderCertified | src/hotstuff/mod.rs:267-273 | a certificate, new or old, keeps the leader in its closed form |
| HotStuffStableLeader.LeaderNeverPanics | src/hotstuff/mod.rs:187-276 | every request or certificate has a turn: no assertion fails and no counter underflows |
| HotStuffStableLeader.LeaderRunOk | src/hotstuff/mod.rs:187-276 | over every run: closed form, everything taken is on the line, extra rounds are what the line needs, finalized once each in order |
| HotStuffStableLeader.NeedsIsExact | src/hotstuff/mod.rs:213-223 | the counter of extra rounds is exact: j blocks below, all commands are covered iff j plus the counter is at most three |
| HotStuffStableLeader.RoundsUntilFinalized | src/hotstuff/mod.rs:213-223 | all commands up to a block are finalized iff as many blocks stand on it as the counter says |
| HotStuffStableLeader.Quiescence | src/hotstuff/mod.rs:204-223 | when the last block is certified and nothing is proposed, the pool is empty and all taken commands are finalized once, in order |
| HotStuffStableLeader.RoundsAreBounded | src/hotstuff/mod.rs:204-223 | without new requests at most ceil(q / batch) + 3 more blocks are proposed |
| HotStuffStableLeader.BatchesOfRoundsUp | src/hotstuff/mod.rs:204-206 | the number of batches is the quotient rounded up |
| HotStuffBackups.BackupInAnyOrder | src/hotstuff/mod.rs:245-341 | any interleaving of the leader's blocks and requests leaves the closed form, one vote per block in order, each block finalized once in order |
| HotStuffBackups.TipIsLastBeforeGap | src/hotstuff/mod.rs:481-508 | the last stored block is the last one before the first gap in the arrivals |
| HotStuffBackups.SameArrivalsSameState | src/hotstuff/mod.rs:481-508 | two orders of the same arrivals lead to the same state, up to which signatures were kept |
| HotStuffBackups.BackupsFollowLeader | src/hotstuff/mod.rs:245-341 | what a backup finalized is a prefix of what the leader finalized |
| HotStuffBackups.BackupDropsRequest | src/hotstuff/mod.rs:204-211 | under the stable leader a request to a backup with an empty pool is lost at once |
| HotStuffBackups.TakenIsProposedIff | src/hotstuff/mod.rs:204-211 | for any replica, event and tree: what is taken from the pool is proposed, or nothing is taken, iff the replica leads, its highest certificate is not for its leaf, or its pool is empty |
| HotStuffBackups.LeafFollowsHigh | src/hotstuff/mod.rs:177-185 | every event but one's own proposal keeps the highest certificate on the leaf, on any tree |
| HotStuffBackups.BackupLosesIff | src/hotstuff/mod.rs:204-211 | after any events, a backup loses a batch with every event it handles, except exactly when that leaves nothing in its pool |
| HotStuffLeaderLoop.StimulusStep | src/hotstuff/mod.rs:561-617 | after a request or certificate the queue is empty or holds one proposal |
| HotStuffLeaderLoop.ProposeStep | src/hotstuff/mod.rs:566-617 | storing the proposal leaves one vote, then finalizations, and extends the line by one block |
| HotStuffLeaderLoop.CertifyKeepsRunning | src/hotstuff/mod.rs:546-558 | a full tally certifies the last block, and costs as many rounds as it makes the leader propose |
| HotStuffLeader.LeaderReplica.HandleVoteGeneric | src/hotstuff/mod.rs:525-559 | any vote: it panics exactly without a scratch for the block, or when enough shares are there but not good ones of all chosen signers; else it is recorded, the tally holds the last share of every sender, and the block is certified, by exactly the chosen signers, iff n - f replicas have sent a share for it |
| HotStuffLeader.LeaderReplica.EffectPropose | src/hotstuff/mod.rs:566-617 | no signers are replaced, the block may be voted for; it is sent out once, to be signed by n - f replicas that exist, with a certificate signed by such, and is opened for votes |
| HotStuffLeader.LeaderReplica.EffectVote | src/hotstuff/mod.rs:618-662 | the signers are there, and the leader's own vote is counted at once iff it was chosen |
| HotStuffLeader.LeaderReplica.EffectActions | src/hotstuff/mod.rs:561-669 | the loop ends, even if the leader's vote alone certifies; outputs are exactly the new blocks and the newly final commands |
| HotStuffLeader.LeaderReplica.ReceiveRequest | src/hotstuff/mod.rs:451-455 | a request is pushed to the pool and keeps the leader's invariant, with outputs as above |
| HotStuffLeader.LeaderReplica.ReceiveVote | src/hotstuff/mod.rs:510-523 | any vote, of anyone, for anything: when it panics; else it is recorded, and as long as fewer than n - f replicas have voted for the block that is all, while with the last of them the block is certified and the leader goes on |
| HotStuffVotes.SomeoneIsMissing | src/crypto/threshold.rs:197-203 | as long as a block is not certified, a replica that was asked to sign it has sent no share |
| HotStuffVotes.OneMoreShare | src/crypto/threshold.rs:192-203 | a further share is kept as the last one of its sender, and the count is the number of senders |
| HotStuffLeader.ScratchIff | src/hotstuff/mod.rs:526-529 | there is a scratch for a block iff it is the last one and not yet certified |
| HotStuffLeader.StrayVotePanics | src/hotstuff/mod.rs:526-529 | in every state one vote, such as a Byzantine replica can send, for a block nobody proposed fails the `unwrap` |
| HotStuffLeader.LateVotePanics | src/hotstuff/mod.rs:526-529 | so does a second delivery of the vote that certified a block |
| HotStuffLeader.WrongSharePanics | src/crypto/threshold.rs:197-216 | the share that completes the count, bad or of a replica not asked, makes aggregation fail |
| HotStuffLeader.QuietMeansDone | src/hotstuff/mod.rs:204-223 | a leader object that collects no votes has an empty pool and has executed every command it took, once and in order |
| HotStuffLeader.QuietOrWaiting | src/hotstuff/mod.rs:525-559 | in every state the leader has an empty pool and has executed every command it took, or the vote of a replica asked to sign its last block has not come: once all have, it has moved on or is quiet |
| HotStuffLeader.GoodVoteIsTaken | src/crypto/threshold.rs:197-216 | when all shares for the last block are good ones of those asked, a further such share cannot make it panic |
| HotStuffLeader.QuietHasServed | src/hotstuff/mod.rs:204-223 | with a close-loop pool, a leader object that collects no votes has executed, for every request it ever received, one of its client at least as new |
| HotStuffRequests.RunPools | src/hotstuff/mod.rs:187-276 | over every run of any core the pool was given exactly the requests and the finalized commands, in order, and all a leader took out of it went into its blocks, in order |
| HotStuffRequests.HandlePools | src/hotstuff/mod.rs:243-276 | what one event pushes, takes and commits |
| HotStuffRequests.QuietServes | src/hotstuff/mod.rs:204-223 | a quiet leader has finalized, for every request, one of its client at least as new |
| PbftCore.FinalizeAll | src/pbft/mod.rs:199-211 | finalizes all and only consecutive blocks with both quorums, and changes nothing but counter and pool |
| PbftCore.ProposeAll | src/pbft/mod.rs:252-260 | numbers proposals consecutively within the window, and stops only with a full window or an empty pool |
| PbftCore.ProposeAllTakes | src/pbft/mod.rs:252-260 | proposed commands followed by those still pending are those that were pending |
| PbftNode.PerformGetsCloser | src/pbft/mod.rs:484-603 | the action loop comes closer to its end with every action, from any state |
| PbftInvariant.ReceiveKeeps | src/pbft/mod.rs:348-604 | every message, from every settled node: no assertion fails, quorums are exact, only accepted blocks are signed, newly final blocks are executed in order, the window holds |
| PbftInvariant.DrainCommitQuorum | src/pbft/mod.rs:195-213 | a commit quorum finalizes and proposes without a gap, and leaves the node settled |
| PbftInvariant.DrainPrepare | src/pbft/mod.rs:514-557 | accepting a block counts early votes and leaves the node settled |
| PbftInvariant.RetransmitIs | src/pbft/mod.rs:640-663 | the primary's timer finds every block and sends the proposals of exactly those not committed, once each and in order |
| PbftInvariant.TickSends | src/pbft/mod.rs:640-663 | a tick at the primary sends exactly the proposals above its last final block that it had made by the tick before and that are not committed; at a backup it sends nothing |
| PbftInvariant.RepeatAnswer | src/pbft/mod.rs:355-387 | to a proposal it has accepted a replica answers, to the primary alone, with exactly its own Prepare, and its own Commit iff the block is prepared; to one with another digest with nothing |
| PbftOutcome.RunReaches | src/pbft/mod.rs:105-118 | over every run a replica executes blocks 1, 2, ... up to its last final one, once each and in order |
| PbftOutcome.BackupOutcome | src/pbft/mod.rs:412-482 | a block is prepared iff its PrePrepare came first and the Prepare senders with the backup and one more reach n - f, committed iff prepared and the Commit senders with the backup reach n - f; the finalized number is the longest committed prefix |
| PbftOutcome.OrderIndependence | src/pbft/mod.rs:412-482 | the same messages in any two orders, repeated at will: accepted blocks agree iff for every number the first valid PrePrepare does, and then the executed blocks agree |
| PbftOutcome.HonestFirsts | src/pbft/mod.rs:179-188 | the first PrePrepares agree in any two orders if the primary did not equivocate |
| PbftOutcome.EquivocationMatters | src/pbft/mod.rs:179-188 | with an equivocating primary, two orders of the same messages make a backup execute a block in one and nothing in the other |
| PbftOutcome.HonestSuffice | src/pbft/mod.rs:606-638 | the votes of n - f replicas commit a block, with or without a Prepare from the primary |
| PbftAnnouncements.ReceiveAnnounces | src/pbft/mod.rs:484-603 | one call announces every block it accepts and every prepare quorum it forms; a backup forwards requests |
| PbftQuiescence.Quiescence | src/pbft/mod.rs:348-604 | in every run with an honest primary, once every message an honest replica sent is held by every honest node, all honest replicas have executed all proposals and the primary's pool is empty |
| PbftQuiescence.RunOwes | src/pbft/mod.rs:484-578 | over every run each accepted block and each prepare quorum of an honest replica was announced, and a backup's blocks carry the primary's signature |
| PbftProgress.TickMakesProgress | src/pbft/mod.rs:355-387 | over every run: a tick at an honest primary sends an uncommitted block again; once n - f honest replicas were handed it and the primary was handed their answers it has its Prepare quorum, and if they were prepared the block is committed |
| PbftProgress.ProposalIsAnswered | src/pbft/mod.rs:354-411 | a proposal that is delivered, for the first time or again, is answered by the backup's Prepare, and by its Commit if the block was prepared |
| PbftProgress.DeliveryIsHeld | src/pbft/mod.rs:412-482 | under an honest primary every message an honest replica sent is held by the replica it is delivered to, early votes among them |
| PbftProgress.HandedOverToAll | src/pbft/mod.rs:348-482 | once every message was delivered to every honest replica, whenever that was, everything is held |
| PbftRequests.RunPools | src/pbft/mod.rs:166-213 | over every run of any replica the pool was given exactly the delivered requests, what was taken from it went out in proposals, and what was committed in it was executed: all of it, in order |
| PbftRequests.RequestIsCovered | src/pbft/mod.rs:166-213 | for every delivered request one of its client at least as new is pending, proposed or executed |
| PbftRequests.RequestsAreExecuted | src/pbft/mod.rs:348-604 | in every run with an honest primary, once every message an honest replica sent is held by every honest node, all of these have executed, for every request handed to the primary, one of its client at least as new |
| PbftAgreement.Agreement | src/pbft/mod.rs:179-213 | over every run, with loss, repetition, reordering and a Byzantine primary, of two honest replicas' logs at any two moments one is a prefix of the other |
| PbftAgreement.NoPanic | src/pbft/mod.rs:558-581 | in every reachable state no deliverable message and no tick makes an honest replica panic |
| PbftAgreement.SameBlock | src/pbft/mod.rs:623-638 | two honest replicas that finalized a number finalized the same block |
| PbftAgreement.CommitterAccepted | src/pbft/mod.rs:558-578 | an honest replica counted in a commit quorum has accepted that block |
| PbftReplicaCore.ReplicaCore.HandleEvent | src/pbft/mod.rs:166-213 | refines one event; quorums are set once and blocks are found |
| PbftReplicaCore.ReplicaCore.FinalizeReady | src/pbft/mod.rs:199-211 | the loop refines finalizing all that is ready |
| PbftReplicaCore.ReplicaCore.ProposeBatches | src/pbft/mod.rs:252-260 | the loop refines proposing all that the window allows |
| PbftReplicaCore.ReplicaCore.CanProposeNow | src/pbft/mod.rs:162-164 | the subtraction does not underflow |
| PbftReplicaCore.ReplicaCore.IsPreparedNow | src/pbft/mod.rs:269-275 | equals being prepared |
| PbftReplicaCore.ReplicaCore.IsCommittedNow | src/pbft/mod.rs:277-280 | equals being committed, and finds the block it looks up |
| PbftScratch.PrepareHeld | src/pbft/mod.rs:426-447 | a Prepare is counted, parked or ignored just as the full record of votes calls for |
| PbftScratch.GatherKeeps | src/pbft/mod.rs:514-543 | early votes taken in make the scratch equal to the full record |
| PbftScratch.FinalizeKeeps | src/pbft/mod.rs:579-585 | the scratch of a finalized block is there to be removed |
| PbftReplica.Replica.CheckPrepareQuorum | src/pbft/mod.rs:606-621 | a prepare quorum is formed iff the full record of votes has one |
| PbftReplica.Replica.CheckCommitQuorum | src/pbft/mod.rs:623-638 | the same for a commit quorum |
| PbftReplica.Replica.EffectCommit | src/pbft/mod.rs:558-578 | the scratch is there, and the commit goes out for the accepted block |
| PbftReplica.Replica.EffectFinalize | src/pbft/mod.rs:579-585 | the scratch is there, and the block's commands are executed |
| PbftReplica.Replica.EffectActions | src/pbft/mod.rs:484-603 | the loop ends and does what the value-level loop does |
| PbftReplica.Replica.ReceivePrepare | src/pbft/mod.rs:412-448 | refines the Prepare arm over incremental scratch tables |
| PbftReplica.Replica.ReceiveCommit | src/pbft/mod.rs:449-482 | refines the Commit arm |
| PbftReplica.Replica.ReceivePrePrepare | src/pbft/mod.rs:354-411 | refines the PrePrepare arm, including the answer to a repeated one |
| PbftReplica.Replica.ReceiveMessage | src/pbft/mod.rs:348-604 | refines one message: node, outputs, no failed assertion; and the exact answer to a repeated proposal |
| PbftReplica.Replica.TickTimer | src/pbft/mod.rs:640-663 | every lookup succeeds, and it sends exactly the uncommitted proposals of the tick before |
| PbftService.Service.OnFinalized | src/pbft/transport.rs:180-200 | one reply, in order, for each command newer than all before it of its client in the whole log |
| PbftService.Service.OnRequest | src/transport.rs:221-240 | a request is handed on exactly if it is newer than all finalized ones of its client, and answered again, as before, exactly if it is the newest of them |
| Executions.ExecutedPrefix | src/pbft/transport.rs:180-200 | a longer log only adds executions |
| Executions.ExecutedIncreases | src/pbft/transport.rs:180-200 | executed commands are in the log and each client's numbers strictly increase |
| Executions.ExecutedIff | src/pbft/transport.rs:186-189 | the executed list is exactly the subsequence of the log at the positions newer than all before them for their client |
| Executions.NewestIsExecuted | src/pbft/transport.rs:186-189 | for every finalized command one of its client at least as new is executed |
| PbftClient.NeverSteppedOver | src/pbft/transport.rs:128-137 | the test for exactly f + 1 fires whenever f + 1 or more agree, even if replies are overwritten |
| PbftClient.Client.OnReply | src/pbft/transport.rs:124-148 | over all replies since the request was sent: it is settled iff more than f replicas' latest replies agree, then by f + 1 of them; otherwise every reply is kept |
| PbftClient.Client.Invoke | src/pbft/transport.rs:95-122 | a new request is outstanding under a new number, counting replies from now on; only the oldest makes room, and only when full |
| PbftClient.EnoughRepliesSettle | src/pbft/transport.rs:128-137 | a request to which f + 1 replicas have replied with one result since it was sent no longer waits |
| PbftEndToEnd.ExecutionsAgree | src/pbft/transport.rs:180-200 | the services of honest replicas execute prefix-related lists with increasing numbers per client |
| PbftEndToEnd.AcceptedIsExecuted | src/pbft/transport.rs:124-148 | an accepted result comes from an honest replica whose service executed the request, as has every honest replica that got as far |
| PbftEndToEnd.HonestRepliesSettle | src/pbft/transport.rs:124-148 | nor does one to which f + 1 honest replicas of the run have replied |
| PbftEndToEnd.RequestIsServed | src/pbft/transport.rs:180-200 | once all messages between honest replicas are held, every honest service has executed, for every request handed to the honest primary, one of its client at least as new |
| PbftEndToEnd.ServiceIsAt | src/pbft/transport.rs:180-200 | a service object given the log of a replica in the run sent exactly the replies the result above starts from |
| CloseLoopPool.IndexOf | src/command/pool.rs:155-157 | the first, and only, entry of a client |
| CloseLoopCommandPool.CommandPool.ClientPendingIndex | src/command/pool.rs:155-157 | offset arithmetic never underflows and equals linear search |
| CloseLoopCommandPool.CommandPool.PushCommand | src/command/pool.rs:159-185 | refines a push to the plain list: a refused command changes nothing, an accepted one is in the queue |
| CloseLoopCommandPool.CommandPool.TakeBatch | src/command/pool.rs:187-205 | refines closing a batch; the assertion at line 201 holds |
| CloseLoopCommandPool.CommandPool.CommitCommand | src/command/pool.rs:207-224 | refines a commit with its swap removal |
| CloseLoopCommandPool.QueueIsAsLongAsClients | src/command/pool.rs:144-146 | the queue holds one entry per client in the table |
| CloseLoopCommandPool.SwapKeepsIndex | src/command/pool.rs:212-222 | swap removal keeps the table a bijection with the queue |
| CloseLoopCommandPool.StillNewer | src/command/pool.rs:200-201 | in a batch every number is above what was submitted before |
| CloseLoopPoolRuns.RunKeepsLedger | src/command/pool.rs:159-224 | over every run each accepted command is pending, handed out, replaced by a higher number or dropped by a commit: in exactly one place |
| CloseLoopPoolRuns.HandedOutAtMostOnce | src/command/pool.rs:187-205 | a batch holds only numbers above all handed out or committed for their client |
| CloseLoopPoolRuns.AcceptedIsNew | src/command/pool.rs:159-185 | a push is accepted only with a number above all accepted ones of its client |
| CloseLoopPoolRuns.AcceptedIff | src/command/pool.rs:159-185 | over every run a push is accepted iff its number is above all accepted or committed ones of its client |
| CloseLoopPoolRuns.AcceptedIsPending | src/command/pool.rs:163-184 | an accepted command is pending, at its client's old index or at the end, and no other entry moves |
| CloseLoopPoolRuns.PushedIsCovered | src/command/pool.rs:159-224 | over every run, for every pushed command one of its client at least as new is pending, handed out or committed |
| CloseLoopPoolRuns.RefusedAgain | src/command/pool.rs:13-15 | what was accepted or committed once is refused from then on |
| CloseLoopPoolOrder.BoundedWaiting | src/command/pool.rs:163-224 | a waiting client has moved forward by a full batch for every batch closed |
| CloseLoopPoolOrder.GoneAfter | src/command/pool.rs:187-205 | an entry at index i is gone once the closed batches of at least b together exceed i, that is after i / b + 1 of them |
| CloseLoopPoolOrder.SettledAfter | src/command/pool.rs:159-224 | the command at index i is, once the closed batches of at least b together exceed i, handed out, replaced by a higher number, or dropped by a commit of at least its number |
| CloseLoopPoolOrder.LeavesBy | src/command/pool.rs:187-224 | an entry leaves only by being handed out or committed |
| CloseLoopPoolOrder.PositionDrops | src/command/pool.rs:163-224 | no operation moves a waiting client back |
| CloseLoopPoolOrder.FifoKeptIff | src/command/pool.rs:10-12 | order is kept by exactly the operations that replace no entry but the last and remove none with two or more behind |
| CloseLoopPoolOrder.FifoRuns | src/command/pool.rs:10-12 | runs of such operations hand out commands in the order they were pushed |
| CloseLoopPoolOrder.DisorderShows | src/command/pool.rs:10-12 | the batch that takes the whole queue hands it out in queue order, after all that was handed out before |
| CloseLoopPoolOrder.DisorderShowsIff | src/command/pool.rs:10-12 | from a queue in order, the next full batch comes out in the wrong order iff the operation disordered the queue |
| CloseLoopPoolOrder.OrderFailsByCommit | src/command/pool.rs:214-214 | four operations after which the third push is handed out before the second |
| CloseLoopPoolOrder.OrderFailsByReplacement | src/command/pool.rs:172-172 | the same by replacing a pending command |
| OpenLoopCommandPool.CommandPool.PushCommand | src/command/pool.rs:84-96 | refines a push: accepted iff newer than seen, the oldest making room when full |
| OpenLoopCommandPool.CommandPool.TakeBatch | src/command/pool.rs:98-109 | refines closing a batch: the newest commands up to the size, the rest dropped, the numbers kept |
| OpenLoopCommandPool.CommandPool.CommitCommand | src/command/pool.rs:111-114 | refines a commit |
| OpenLoopPoolRuns.HandedInOrderOnce | src/command/pool.rs:84-109 | commands come out in the order they were pushed, each client's numbers strictly increasing |
| OpenLoopPoolRuns.BatchIsNewest | src/command/pool.rs:98-109 | the buffer never exceeds its bound, and a batch is its suffix |
| OpenLoopPoolRuns.AcceptedIff | src/command/pool.rs:84-96 | over every run a push is accepted iff its number is above all accepted or committed ones of its client, and is then the newest in the buffer |
| OpenLoopPoolRuns.RefusedAgain | src/command/pool.rs:13-15 | what was accepted or committed once is refused from then on |
| CommandPoolRuns.HandedOnce | src/command/pool.rs:21-55 | whatever the variant, what is handed out has strictly increasing numbers per client |
| StreamFraming.FramesConcat | src/transport/tcp.rs:36-57 | decoding a stream can stop after any piece and go on from the bytes it kept |
| StreamFraming.FramesSplit | src/transport/tcp.rs:36-57 | a stream is the concatenation of pieces and a rest, each message the decoding at its piece |
| StreamFraming.SplitIsUnique | src/transport/tcp.rs:36-57 | any such split gives these messages: none is dropped, doubled or taken from elsewhere |
| StreamFraming.WrittenIsRead | src/transport/tcp.rs:36-57 | round trip: messages encoded one after the other are the messages read |
| StreamReader.Reader.Feed | src/transport/tcp.rs:28-58 | for any split into reads, messages sent and bytes kept are the greedy decode of the whole stream |
| StreamReader.Reader.TakeMessages | src/transport/tcp.rs:34-55 | the inner loop is the greedy decode of the buffer |
| StreamReader.Reader.CopyWithin | src/transport/tcp.rs:57-57 | the kept bytes move to the front unchanged |
| StreamReader.NeverFull | src/transport/tcp.rs:29-32 | if every message fits the buffer there is always room to read, so a connection is never taken for closed |

## Left out

- Integer widths: heights, block numbers, sequence numbers and counters are unbounded, so wrap-around of `u32` and `u16` is not modelled; subtractions are shown not to go below zero.
- Cryptography, nonces and commitment supply: the leader is taken to have commitments of every replica at hand, so it picks the n - f lowest indices, so the fallback at src/hotstuff/mod.rs:592 is out of reach; a failed aggregation counts as a panic.
- Wire formats and hash encodings: digests are injective by construction, the stream decoder is a parameter.
- PBFT view change, checkpoints and HotStuff leader rotation: unfinished in the source. The view is fixed and arbitrary, the leader is replica 0; an arbitrary proposer appears only in the safety theorem.
- Transports, tasks, timers and channels, latency statistics, `Drop` statistics and the counters `num_push` and `num_commit`.
- The older copies `src/command_pool.rs` and `src/common.rs`, which the library does not declare.
- HotStuffSafety.Safety: assumes that blocks honest replicas process are well formed, because the code does not check it; the two counterexamples show both parts are needed.
- HotStuffReplica.Replica.ReceiveGeneric: says nothing of the state after a panic, which ends the program.
- HotStuffLeader.LeaderReplica.ReceiveVote: says nothing of the state after a panic; that a share is good is a parameter.
- HotStuffLeader.QuietHasServed: speaks of close-loop pools; an open-loop pool drops its oldest commands when the buffer or a batch is full (OpenLoopPoolRuns.BatchIsNewest).
- HotStuffReplica.Replica.EffectActions: covers backups; the leader's replica is the class HotStuffLeader.LeaderReplica. The source has one type for both, and the leader receives no blocks but its own.
- HotStuffReplicaCore.ReplicaCore.HandleEvent: actions carry digests where the program passes slab keys, and slabs, hash maps and queues are `seq` and `map` fields that the methods reassign.
- HotStuffCore.Configured: batches hold at least one command, and in open-loop mode no more than the pool accepts; without it the counter of extra rounds can underflow (UnderflowIff).
- PbftReplica.Replica.ReceiveMessage: requires sender ids below n, and that nobody else signs for an honest primary. Block number 0 is covered: its votes are dropped once anything is final, as in the code.
- PbftOutcome.BackupOutcome: speaks of backups and of block numbers from 1 on. At the primary a Prepare that comes before its own proposal is lost, and one Prepare has to come in; PbftInvariant.SlotOk says so for both.
- PbftNode: the content of a stored quorum is not tied to the votes, since only view change would use it; that one is stored exactly when enough votes match is proved.
- PbftEndToEnd.AcceptedIsExecuted: takes it that a service is given the log of its replica (ServiceIsAt connects the object to the run) and that reply channels are authenticated.
- PbftClient.Client.Invoke: sending the request and missing egress channels are I/O. With a window of zero the open-loop client never drops a request, as in the code.
- StreamReader.Reader.Feed: a message longer than the buffer leaves no room to read, and the empty read is then taken for a closed connection, as in the code; NeverFull excludes it by assumption.
