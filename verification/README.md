# Inca node: segments, chain head, rounds, votes and proposals

A Dafny model of the parts of `inca-go`, a proof-of-stake chain node, whose behaviour spans whole
runs, with proofs of what they keep and what they achieve.

`dafny verify dfyconfig.toml` checks the project.

## What is modelled

- **Blocks and validation** (`Blocks.dfy`). Blocks are content-addressed and immutable; each names a
  parent, a height, a round, a configuration and a proposer. `ValidateChild` is the structural check
  followed by the application's verdict.
- **The segment graph** (`SegmentGraph.dfy`, `GraphInvariant.dfy`). Blocks arrive out of order. A block
  opens a segment, extends one at its head, is pulled in below a tail by rewinding, or makes two
  segments meet in a splice. The operations are functions on the persisted state; the invariant ties
  paths, ownership, validated links, status and the prev/next links together.
- **Outcomes** (`Outcomes.dfy`, and `MempoolSteps.dfy` for the mempool). What one operation leaves behind,
  field by field, stated without the functions of the model.
- **The chain** (`ChainModel.dfy`, `ChainInvariant.dfy`). The head follows the state segment, one splice
  at a time; the round clock turns readings of the time into snapshots. A run is any finite sequence of
  commits, rewinds, management passes and restarts, with every choice of the environment (which queued
  segment the heap gives up, what the application's validator says, which lookups resolve, what the
  clock reads) left open. A management pass that cannot look up the head block moves only the state
  segment; the head then lags behind it by any number of splices.
- **Theorems over runs**: how the head moves (`HeadTheorems.dfy`) and moves across restarts
  (`Restarts.dfy`), the rewind queue (`QueueTheorems.dfy`), catching up (`SyncTheorems.dfy`,
  `Convergence.dfy`), trust (`Trust.dfy`), the clock (`ClockTheorems.dfy`) and proposals
  (`Proposals.dfy`); and runs on small concrete chains that show where a stronger statement would be
  false (`Examples.dfy`, `Rollback.dfy`, `HonestRuns.dfy`, `AdoptionRuns.dfy`).
- **The objects of a running node** (`Node.dfy`). Segments cached over a database, the rewind queue, the
  segment store and the chain as classes whose methods update fields and write the database. Each method
  is proved to take the state exactly where the function of the model takes it, so the theorems over
  runs are about these classes too. The cache agrees with the database after every method, and the chain
  state record with the chain, which is what lets a restart drop the objects.
- **Guards and votes** (`Guards.dfy`, `NodeVotes.dfy`, `Votes.dfy`). The persisted last proposal and last
  vote, with crashes and failed writes; the commit threshold; the loop that collects votes.
- **The mempool pipeline** (`Mempool.dfy`) and **the snapshot broadcast** (`Broadcast.dfy`), as
  interleaved steps of their goroutines, and the way from the mempool to the header (`Production.dfy`).

## Assumptions

- Each handler is one atomic step. References are digests; what a reference resolves to never changes.
- Database writes succeed, except in `Guards.dfy`, where they fail or fail after storing, and in
  `Mempool.dfy`, where an ignored `Enqueue` error is an outcome.
- Heights and rounds are naturals without wrap-around. Times are nanoseconds.
- `SelectProposer`, `SortValidators` and key parsing belong to another repository: they are arbitrary
  functions carried by `Env`. `ProducedBlocksAccepted` assumes that the order of the validators does not
  matter to the selection, because the clock sorts them and validation does not.
- A failing lookup inside validation, or a failing application validator, is the verdict `Rejected`; a
  failing block lookup at the start of a rewind is the event parameter `fetched`.
- No block is its own ancestor (`AcyclicParents`), because references are digests of what they refer to: used
  by `SpliceKeepsIff` and `BranchKeptIff` only.
- `Apply` of a declined transaction leaves the application state alone (`ProposalReplays` only).

## Where the code does less than its names suggest

- Nothing compares a child's `LastBlockRef` with the parent it is validated against. A splice is right
  because of heights: `SpliceNamesHead`, `SpliceNamesHeadIff`, `BranchKeptIff`. When headers state false
  heights the chain head can leave its branch: `HeadLeavesItsBranch` is such a run.
- A restarted node forgets its head, and a rewind can make it adopt a segment before management restores
  the head. It then changes branch, even with honest heights, exactly when the adopted segment does not
  join the last head (`AdoptionIff`, `NoRollbackIff`); `AdoptionLeavesBranch` is such a run, and
  `TwoVotesAfterAdoption` one in which the node votes twice for a height and round.
- Adoption compares validator sets and never the genesis reference. A fresh node can follow another chain and
  propose blocks that its own checks refuse (`ForeignProposalRefused`); `ProposalFitsIff` says exactly when
  a proposal fits.
- A segment the validator marks before it is spliced is VALID without predecessor, and nothing ever
  rewinds, splices or adopts it again: `StrandedForGood`. `CatchUpIff` says exactly when this befalls a
  branch that is being pulled in, and `MarkedBranchIsStranded` is an honest chain on which it does.
- Adoption makes a segment VALID too, and the rewind queue is not rebuilt on a restart. So a node that adopts
  the upper part of its branch, restarts and adopts the lower part never joins the two, even on an honest
  chain without forks and marks: `RestartStrandsBranch`. `CatchesUpIff` says exactly when a node catches up
  with what it holds, from any state.
- The state segment is validated again when another segment is spliced after it and can turn INVALID while
  the head moves on through it: `StateSegmentTurnsInvalid`. Its links are all checked by then (`RunSettled`).
- The heap comparison reads one entry twice, so no segment ever comes before another; the queue is a
  duplicate-free bag, and the theorems hold for every choice of the segment to rewind.
- `NextRoundStartTime` is the start of the round after the next: `SnapshotOk` states it, `RunEmissions`
  proves it.
- The vote standing is redeclared on every pass, so a block is minted exactly when one vote carries the
  threshold alone (`CollectVotes`, `CanMintIff`); `AccumulatedQuorumIsMissed` gives a committee that votes
  unanimously in vain.
- The validator's guard compares rounds across heights: over the life of a key, votes in rounds up to `r`
  number at most `r + 1` (`VotingGuardExact`, `VotesBoundedByRound`).
- `NewChain` builds a VALID segment record but never uses it; the stored genesis segment is DISJOINTED, and
  no segment becomes VALID until the application's validator marks a block or a node without head adopts a
  segment (`ValidOnlyByValidatorOrAdoption`).
- The error return after the apply loop requeues nothing: `FinalAccounting` says exactly when something is
  lost, `AppliedTransactionLost` is a run. `Enqueue` wakes no collector: `IdleForGood`.
- A subscription made in the middle of an emission can receive its first snapshot twice, and no other
  (`ReceivedInOrder`, `RepeatExact`, `OverlapRepeats`).
- A subscriber reads the last snapshot before it registers, without a lock: an emission in between passes it
  by (`EmissionBeforeRegistrationMissed`, `NewestKeptIff`).

## Model

| member | source | states |
|---|---|---|
| Blocks.WalkFacts | block/block.go:161-193 | along any walk of validated links genesis and configuration are constant, timestamps do not decrease and heights count the steps |
| Blocks.NamedWalkAncestor | block/block.go:150-229 | blocks that each name the one before are ancestors at exactly their distance |
| Outcomes.ArrivalIgnored | chain/chain.go:446-470 | a block that is unknown, owned already, or names no known parent changes nothing, and is an error unless it is owned |
| Outcomes.ArrivalOpens | segment/segment_store.go:154-195 | on an unowned parent the block opens a DISJOINTED segment of its own, which is queued; all else stays |
| Outcomes.ArrivalAppends | segment/segment.go:96-140 | on an owned parent the block is appended exactly if it passes and neither parent nor segment has a successor; the segment ends at the block and is VALID if the validator marked it and it was not INVALID |
| Outcomes.ArrivalOk | segment/segment.go:96-120 | it is an error unless appended, or its header already follows the parent |
| Outcomes.RewindIdle | segment/segment.go:151-194 | a settled segment needs no rewind, and one whose tail has no known parent cannot be rewound |
| Outcomes.RewindPulls | segment/segment.go:216-254 | an unowned parent is pulled in below the tail, passing or not; a refusal settles the segment as INVALID and a mark as VALID |
| Outcomes.RewindMeets | segment/segment.go:269-331 | a tail that passes on the head of another segment is linked to it and takes its status, whatever was marked; otherwise the upper segment is INVALID |
| Outcomes.RewindRequeues | segment/segment_store.go:64-98 | a node with a head takes over what the rewind left and queues the reported segment again exactly while it is DISJOINTED |
| GraphInvariant.NewSegmentShape | segment/segment_store.go:154-195 | opening a segment keeps the shape: paths, ownership, checked links, frozen neighbours |
| GraphInvariant.AppendBlockShape | segment/segment.go:96-140 | appending a block keeps the shape and changes nothing already settled; the path grows by the block at its top |
| GraphInvariant.ExtendTailShape | segment/segment.go:216-254 | pulling in the tail's parent keeps the shape; the path grows at its bottom, and a refused link only ever lies there in an INVALID segment |
| GraphInvariant.AppendSegmentShape | segment/segment.go:269-331 | a splice, or a refused one, keeps all paths and the shape, and freezes the predecessor's head and the successor's tail |
| GraphInvariant.MarkValidShape | segment/segment.go:333-341 | marking a disjointed segment valid keeps the shape |
| GraphInvariant.OpenBlockIsHead | segment/segment.go:96-131 | an owned block without successor is the head of its segment, so AppendBlock moves the right head |
| GraphInvariant.PathWalk | segment/segment.go:116-134 | the blocks from any position up to the head form a walk of validated links, unless the lowest one is the refused pair |
| ChainInvariant.StepShape | segment/segment.go:88-331 | every step keeps the shape; a block's segment and successor, a VALID or INVALID status, a predecessor and an attached head never change |
| ChainInvariant.StepInv | chain/chain.go:434-503 | every step of commit, rewind, management, stalled management and restart keeps the invariant of graph and head: segment links lead from the head's segment up to the state segment |
| ChainInvariant.RunInv | chain/chain.go:595-662 | the invariant holds, and settled facts stay, in every state reachable by any events |
| ChainInvariant.NewChainInv | chain/chain.go:251-299 | the state NewChain leaves satisfies the invariant |
| ChainInvariant.StallHead | chain/chain.go:629-649 | a pass that fails to look up the head block keeps the head reachable from the advanced state segment |
| ChainInvariant.RunSettled | segment/segment.go:303-311 | in every run from an empty database or a minted chain, the state segment and the head's own are VALID, attached, or parentless and not INVALID, so all their links are checked |
| ChainInvariant.ManageHead | chain/chain.go:616-662 | after a management pass that finds the head block, the head is the head block of the state segment or of its successor, however far it lagged |
| HeadTheorems.SpliceNamesHead | segment/segment.go:292-331 | with honest heights the tail of an attached segment names the head of its predecessor, which the splice never compares |
| HeadTheorems.SpliceNamesHeadIff | segment/segment.go:185-214 | without honest heights: on a predecessor whose links are all checked, INVALID but attached ones included, it names that head exactly when it states the height after the block it names |
| HeadTheorems.SegmentHeightsRise | segment/segment.go:303-328 | head heights grow by at least one with every SegmentNext hop, so segment links never close a cycle |
| HeadTheorems.ValidatedSegment | segment/segment.go:116-134 | a segment that is not INVALID, or is attached, has one genesis and configuration, non-decreasing times, checked adjacent pairs, and head height equal to tail height plus length minus one |
| HeadTheorems.RunWalk | chain/chain.go:616-696 | between restarts, from any earlier head to any later one there is a walk of validated links |
| HeadTheorems.NoRollback | chain/chain.go:616-696 | with honest heights every later head descends from every earlier one through LastBlockRef, at the distance of their heights, splices and stalled passes included |
| Restarts.AdoptsExact | chain/chain.go:874-963 | a rewind gives a node without head a head exactly when the rewind succeeds, lookups resolve and the guards of adoption hold of the reported segment |
| Restarts.AdoptionExact | chain/chain.go:874-963 | in header fields: exactly if the rewind succeeds, lookups resolve, the reported segment is disjointed and its tail is under the initial configuration or, above height 0, its head under one with the same validator set; the segment is then VALID and the state segment, its head the head, the clock fresh |
| AdoptionRuns.GenesisAdopted | chain/chain.go:929-939 | a fresh node that reaches the genesis block under the initial configuration takes the branch over |
| AdoptionRuns.SameValidatorsAdopted | chain/chain.go:941-962 | a fresh node takes over a branch under another configuration with the same validators, above height 0 |
| AdoptionRuns.OtherGenesisRefused | chain/chain.go:929-939 | and refuses one that reaches height 0 so |
| Restarts.PositionKept | segment/segment.go:88-331 | a block with all links above it checked, in a segment below another, stays so in every step |
| Restarts.AdoptionIff | chain/chain.go:874-963 | with honest heights the head of an adopted segment descends from a block exactly when segment links lead up from the block's segment, or the parents below the lowest segment lead down to the block |
| Restarts.NoRollbackIff | chain/chain.go:305-362 | with honest heights, through any number of restarts, every head descends from the head before it exactly when every adopted segment joins the last head |
| Restarts.NoRollbackAcrossRestarts | chain/chain.go:305-362 | then the last head descends from the first at the distance of their heights |
| Restarts.RunWalkAcross | chain/chain.go:874-963 | whatever heights headers state, a walk of validated links leads across all restarts if segment links lead from the last head to every adopted segment |
| AdoptionRuns.AdoptionLeavesBranch | chain/chain.go:874-963 | a run with honest heights in which a restarted node adopts a head off its branch |
| HeadTheorems.HeadHeightsRise | chain/chain.go:629-655 | whatever headers state, head heights never fall and an unchanged height is an unchanged head |
| Restarts.HeadFromGenesis | chain/chain.go:196-303 | on a minted chain, through any number of restarts, the head descends from genesis by validated links and keeps the genesis and both configuration references, if every adopted segment is spliced above the genesis segment |
| HeadTheorems.SpliceKeepsIff | segment/segment.go:185-331 | across any number of splices the first one decides: a block is an ancestor of the head of a later segment exactly when the tail spliced after the block's segment names a block at least as high |
| HeadTheorems.BranchKeptIff | chain/chain.go:629-655 | in every run from an empty database or a minted chain, a management pass keeps the head on its branch exactly when the first splice above the head's segment is at a block at least as high as the head |
| HonestRuns.StateSegmentTurnsInvalid | segment/segment.go:303-311 | a run on an honest chain in which the state segment becomes INVALID and the head moves on through it |
| Rollback.HeadLeavesItsBranch | segment/segment.go:196-214 | a concrete run with one false height in which the head moves to a block that does not descend from it |
| QueueTheorems.RewindLowersLoad | segment/segment_store.go:64-98 | every rewind that pops a segment strictly lowers the sum of tail height plus one over the queue, also when a predecessor replaces it |
| QueueTheorems.RewindsBounded | segment/segment_store.go:64-98 | over any run the rewinds that pop are paid for by the initial sum and the heights of arriving blocks, so a queue without arrivals drains |
| QueueTheorems.NoStrandedSegment | segment/segment_store.go:71-97 | in every run a disjointed segment without predecessor is queued, unless its own rewind failed or a restart forgot it |
| QueueTheorems.DrainedQueue | segment/segment_store.go:184-192 | in any run of a node that leaves the queue empty, every segment whose own rewind did not fail and that no restart forgot is VALID, INVALID or attached |
| Convergence.DrainedSettles | segment/segment_store.go:64-98 | in one life of a node, from any state in which whatever waits is queued or ends at a block with unknown parent, with honest heights and resolving lookups: an empty queue means that every segment is VALID, INVALID, attached, or so ends |
| SyncTheorems.RewindSucceedsIff | segment/segment.go:144-214 | with honest heights a rewind fails exactly when the tail has no known parent; a segment never resolves to itself |
| SyncTheorems.SpliceOutcome | segment/segment.go:269-331 | on honest blocks a segment is attached with its predecessor's status exactly when its tail names that head, and otherwise becomes INVALID |
| SyncTheorems.StrandedForGood | segment/segment.go:151-153 | a VALID segment without predecessor that is neither the state segment nor holds the head stays so in every run, restarts included, so the head never enters it |
| Convergence.CatchesUpIff | chain/chain.go:616-662 | from any state, with honest heights and no forks, enough management passes put the head at or above every held block of its branch exactly when no segment of the branch starts without predecessor above the head |
| Convergence.DrainedGap | segment/segment.go:151-153 | once the queue is drained and no segment is INVALID, such a segment is VALID |
| Convergence.CatchesUp | segment/segment_store.go:64-98 | in one life of a node that starts ready, on an honest chain without forks, with resolving lookups and no mark, whatever the order of arrivals, rewinds, passes and a first adoption: once the queue is empty, at most one pass per height puts the head at or above every held block of its branch |
| Convergence.StartsReady | chain/chain.go:305-362 | a node on an empty database, one that just minted its chain, and either one reopened are ready |
| Convergence.RestartReadyIff | chain/chain.go:305-362 | a restart leaves a node ready exactly when nothing it forgets could still be rewound and no VALID segment lacks a predecessor |
| HonestRuns.RestartStrandsBranch | chain/chain.go:911-962 | a run on an honest chain of five blocks, without marks, over three lives, after which all blocks are held, the queue is empty, and the upper two never become the head |
| SyncTheorems.CatchUpIff | segment/segment.go:144-331 | told only of the newest block of a branch, a node pulls in the missing blocks, one rewind per block, and ends with that block as its head exactly when the validator marks none of them before the splice |
| SyncTheorems.MarkedBranchStranded | segment/segment.go:226-235 | once a block is marked before the splice, the branch's newest block is never the head, whatever happens next |
| HonestRuns.MarkedBranchIsStranded | segment/segment.go:226-235 | an honest chain of three blocks on which that happens |
| Trust.ValidOnlyByValidatorOrAdoption | chain/chain.go:251-290 | in any run of a node, restarts included, no segment is VALID while the application's validator marks no block and no segment is adopted |
| Trust.AdoptionKeepsValidators | chain/chain.go:874-963 | a node without head adopts one only from a segment all of whose blocks are under the genesis validators, and the segment becomes the VALID state segment |
| Trust.RunTrusted | chain/chain.go:911-962 | in every run of a node, restarts and adoptions included, the state segment and the head are under the genesis validators |
| Trust.HeadProposedBySelected | block/block.go:204-221 | in every run of a node, restarts and adoptions included, the head was proposed by the validator that the genesis validators select for its height and round on the block it was validated on, unless it is the lowest block validated |
| ClockTheorems.RunEmissions | chain/chain.go:698-799 | every emitted snapshot carries its block's height plus one and its round's proposer, starts at the block's time plus (minProposeAfterBlock + roundLength times round) milliseconds, and ends one and two round lengths later; (height, round) never decreases however the clock moves; one block per height |
| ClockTheorems.ReadingExact | chain/chain.go:698-757 | the stored height follows the head, the stored round starts again with it, never falls, and reaches the elapsed rounds if every check passes; nothing is emitted unless the validators are known, too |
| ClockTheorems.EmitOkExact | chain/chain.go:714-786 | a reading is no error exactly without head, or when the block is not in the future and its announced configuration is known, with rounds of a second or more and a known validator set |
| ClockTheorems.ManageExact | chain/chain.go:616-662 | a pass puts the head on top of the state segment or its successor, starts the clock afresh if it is a new head, and reads it |
| ClockTheorems.RunNoRepeat | chain/chain.go:800-818 | snapshots that follow each other differ in round, times, start or proposer, or have no proposer |
| ClockTheorems.OneProposerPerRound | chain/chain.go:780-785 | two snapshots of a run with the same height and round name the same block and proposer |
| ClockTheorems.SnapshotIsCurrent | chain/chain.go:787-818 | after a reading that passes the checks, the last emitted snapshot is about the head at the stored height and round, with that round's times and proposer, and says whether it has started |
| ClockTheorems.RoundIsElapsedTime | chain/chain.go:744-753 | with a clock that does not go back the round is elapsed time over round length, and the intervals of rounds tile time |
| ClockTheorems.ReadingInRound | chain/chain.go:744-760 | with such a clock the reading, moved by minProposeAfterBlock, lies between start and end of the last emitted snapshot |
| Proposals.ProposalFitsIff | chain/proposer.go:121-161 | in any run of a node, a header built from an emitted snapshot by the proposer it names passes every structural check on its parent exactly when the parent carries the node's genesis reference and its own configuration selects the proposer, which it does when it announces no other |
| Proposals.ProposalOnChainFits | chain/proposer.go:121-161 | in any run of a node it passes if the parent is validated down to a minted block |
| Proposals.ProducedBlocksAccepted | chain/proposer.go:121-161 | on a minted chain, through any number of restarts, it passes if every adopted segment is spliced above the genesis segment |
| AdoptionRuns.ForeignProposalRefused | chain/chain.go:911-962 | a run of a fresh node that adopts a chain with another genesis and builds a header its own checks refuse |
| Proposals.ProducedBlockBecomesHead | chain/chain.go:472-503 | such a block, accepted by the application and committed first, becomes the next head |
| Production.HeaderCarriesProposal | chain/proposer.go:121-161 | the header built after a block proposer's run names parent, height, round, proposer and time, and refers to a block state that holds what the recorded transactions make of the application state of the parent's header, with their references |
| Node.Segment.AppendBlock | segment/segment.go:88-141 | the object and the database end where the model's AppendBlock takes them; success and refusal exactly as in the code, the same-header case included |
| Node.Segment.RewindOnce | segment/segment.go:144-267 | the cached object and the database end where the model's rewind takes them, with the model's error cases |
| Node.Segment.ExtendTail | segment/segment.go:216-254 | the backward extension, status included, as in the model |
| Node.Segment.AppendSegment | segment/segment.go:269-331 | both objects and the database end where the model's splice takes them |
| Node.Segment.AttachTo | segment/segment.go:196-214 | the branch that meets the owner of the tail's parent: refused for the segment itself and for an owner that is not stored, otherwise the model's splice |
| Node.Segment.MarkValid | segment/segment.go:333-341 | status VALID in memory and in the database |
| Node.SegmentQueue.Less | segment/segment_queue.go:67-69 | no entry is ever less than another |
| Node.SegmentQueue.Push | segment/segment_queue.go:22-38 | appends unless the segment is already queued; the queue stays duplicate-free |
| Node.SegmentQueue.Pop | segment/segment_queue.go:53-60 | removes exactly the returned entry, nil on an empty queue |
| Node.SegmentQueue.Remove | segment/segment_queue.go:40-51 | removes exactly the given segment |
| Node.SegmentStore.GetSegmentById | segment/segment_store.go:116-146 | returns the one object for a stored id, mirroring the database, null for an id that is not stored, and changes nothing observable |
| Node.SegmentStore.NewSegment | segment/segment_store.go:154-195 | the store ends where the model's NewSegment takes it |
| Node.SegmentStore.RewindOnce | segment/segment_store.go:64-98 | pops some queued segment and ends where the model's rewind of it takes the whole node; reports false on an empty queue or a failed rewind |
| Node.Chain.NewChain | chain/chain.go:251-299 | the minted state of the model, with the chain state record that names the genesis segment in the database |
| Node.Chain.FromConfig | chain/chain.go:305-362 | state segment, height and round are read back from the database; cache, queue, head and last snapshot start empty |
| Node.Chain.Restart | chain/chain.go:305-362 | a chain rebuilt from the database of a running one is that chain after the model's restart step with the recorded height and round |
| Node.Chain.HandleBlockCommit | chain/chain.go:434-503 | the node ends where the model's commit step takes it, invariant included, and reports an error exactly in the code's cases |
| Node.Chain.HandleSegmentUpdated | chain/chain.go:874-963 | the node adopts the segment as head exactly when the model does |
| Node.Chain.SetHeadBlock | chain/chain.go:664-696 | head, state segment, height and round as in the model, and the chain state record written with them |
| Node.Chain.ManageStateOnce | chain/chain.go:616-662 | the node ends where the model's management step takes it, or its stalled one if the head block cannot be looked up, invariant included; an error is reported exactly without state segment, without head block or when the clock's checks fail |
| Node.Chain.ComputeEmitSnapshot | chain/chain.go:698-819 | height, round and emitted snapshots as in the model, and an error exactly when a check on block, time, configuration, round length or validator set fails |
| Guards.OfferExact | chain/proposer.go:236-259 | a role that is eligible and may act puts the round into memory and, unless the write failed, on disk, and acts if it decides to and the write is reported as stored; otherwise nothing changes |
| Guards.ActsIff | chain/validator.go:235-251 | after any run with crashes and failed writes a role acts exactly if eligible, decided, stored, and its last round in memory is lexicographically before, with a smaller round too for a validator |
| Guards.ActionsIncrease | chain/proposer.go:236-259 | over any run with crashes and failed writes a role's actions strictly increase in (height, round) |
| Guards.GuardRunOk | chain/validator.go:235-251 | the last action is covered by the disk and the disk by memory, and all actions pass each role's own guard in order |
| Guards.VotingGuardExact | chain/validator.go:235-247 | the proposer's guard is the lexicographic order; the validator's also demands a growing round |
| Guards.VotesBoundedByRound | chain/validator.go:242-251 | the k-th vote of a key is in round k or later, over its whole life |
| Guards.Proposer.ConsiderSnapshot | chain/proposer.go:223-259 | it proposes exactly if the snapshot names its key, the round has started, its last proposal is before and the write is stored; guard and disk follow the model's guard step |
| Guards.VotingValidator.ProcessStateSnapshot | chain/validator.go:224-278 | it votes exactly if the snapshot names another proposer, its time has come, the last vote is before in height and round with a smaller round, the write is stored, the key is in the set and the proposal arrives |
| NodeVotes.DeliverExact | chain/validator.go:224-278 | what each delivery makes of the two guards, in the snapshot's fields |
| NodeVotes.OneVotePerRound | chain/validator.go:259-275 | a node running both roles on one key sends at most one vote per height and round of one life of the chain |
| NodeVotes.OneProposerAcrossLives | chain/chain.go:780-785 | with honest heights, snapshots of all lives of the chain with the same height and round name the same block and proposer if every adopted segment joins the last head |
| NodeVotes.OneVoteIff | chain/validator.go:235-275 | however a set of snapshots is delivered to both roles, with crashes of either at any time, no two votes of a key are alike exactly when the set holds no two snapshots of one height and round of which the key proposes on one and votes on the other |
| NodeVotes.OneVoteAcrossLives | chain/validator.go:259-275 | a node whose adopted segments join the last head sends at most one vote per height and round over all its lives |
| AdoptionRuns.TwoVotesAfterAdoption | chain/validator.go:235-251 | a run with an adoption off the branch in which it sends two |
| Votes.QuorumExact | chain/proposer.go:271-277 | members are a quorum exactly if they hold 66 of a hundred parts of the total power, cut to a whole unit |
| Votes.QuorumOverlapExact | chain/proposer.go:271-277 | any two quorums share a validator if and only if the total power is 5 or at least 7 |
| Votes.CollectVotes | chain/proposer.go:279-328 | a minted block has votes of different operating validators whose joint power reaches the threshold, and is minted exactly when one vote suffices alone |
| Votes.VoteLoop | chain/proposer.go:314-328 | the loop stops at the first vote that carries the threshold alone and otherwise confirms every vote |
| Votes.CanMintIff | chain/proposer.go:314-328 | some arrivals make the loop mint exactly when one waiting validator holds the threshold alone |
| Votes.AccumulatedQuorumIsMissed | chain/proposer.go:314-328 | a unanimous committee above the threshold that does not mint |
| Votes.ConfirmedDistinct | chain/proposer.go:357-402 | each entry's goroutine contributes at most one vote, and only operating, reachable entries do |
| Votes.ConfirmedIff | chain/proposer.go:357-402 | an entry's vote is confirmed exactly if it is waited for and a resolving vote message of its peer arrives before a cancellation |
| Votes.MintedBlocksShareVoter | chain/proposer.go:271-328 | two minted blocks under one validator set share an operating voter once the total is 5 or at least 7 |
| Mempool.RunBalanced | utils/transaction/mempool/proposer.go:116-286 | for every interleaving each copy of a transaction is in exactly one of heap, collector, resolver, applied list or outcome, rejected and dropped |
| MempoolSteps.CollectorEnds | utils/transaction/mempool/mempool.go:69-114 | once cancelled, an offering or idle collector gives back what it holds, reports and ends |
| MempoolSteps.CollectorHandsOver | utils/transaction/mempool/mempool.go:92-114 | a hand-over counts down a positive maximum, and the last one ends the collector without error |
| MempoolSteps.ResolverLooksUp | utils/transaction/mempool/proposer.go:166-173 | an unresolvable transaction is dismissed, one whose lookup is cancelled goes back |
| MempoolSteps.ResolverChecks | utils/transaction/mempool/proposer.go:175-183 | a rejected transaction is dismissed and ends the resolver; a failing check gives it back, reports, cancels and ends it |
| MempoolSteps.LoopApplies | utils/transaction/mempool/proposer.go:213-223 | a system error gives back everything and fails; a declined transaction is dismissed |
| MempoolSteps.LoopHears | utils/transaction/mempool/proposer.go:189-211 | the first error or a stop gives back what is applied and ends the loop, with abstention exactly for a cancellation with nothing applied |
| MempoolSteps.AfterLoopChecks | utils/transaction/mempool/proposer.go:240-246 | an error found after the loop returns at once and gives nothing back |
| MempoolSteps.ProposalReturns | utils/transaction/mempool/proposer.go:251-285 | a block below the minimum is abstained from and one that cannot be stored fails, both giving back; otherwise the work is the proposal |
| MempoolSteps.RunCancelled | utils/transaction/mempool/proposer.go:107-114 | in every run a stop and a return cancel the collection |
| Mempool.FinalAccounting | utils/transaction/mempool/proposer.go:181-286 | after the return each transaction is in the block, the heap or rejected, exactly when no requeue failed and the run never left the apply loop with transactions applied and a first error waiting |
| Mempool.UntroubledLosesNothing | utils/transaction/mempool/proposer.go:189-246 | without deadline, cancellation and failing lookup or check no run loses a transaction |
| Mempool.AppliedTransactionLost | utils/transaction/mempool/proposer.go:240-246 | a run in which an applied transaction ends up nowhere |
| Mempool.ProposalReplays | utils/transaction/mempool/proposer.go:213-225 | a returned proposal's state is the parent's state with the recorded transactions applied in order, and the references match one for one |
| Mempool.LoopExit | utils/transaction/mempool/proposer.go:227-238 | after a taken transaction the loop is left exactly if more than the minimum (any, if it is 0) are applied, and the maximum is reached or the wait has elapsed |
| Mempool.ProposalSize | utils/transaction/mempool/proposer.go:227-259 | a proposal holds at least the minimum, at most a positive maximum, and at most minimum plus one without a maximum |
| Mempool.RunSized | utils/transaction/mempool/mempool.go:92-114 | the collector's countdown always leaves room for what is past it |
| Mempool.IdleForGood | utils/transaction/mempool/mempool.go:60-67 | a collector that found the heap empty never takes again |
| Mempool.OneTransactionProposed | utils/transaction/mempool/proposer.go:189-285 | a single accepted transaction leads to a proposal of it when no minimum is set and the wait has elapsed, whatever the maximum |
| Broadcast.ReceivedInOrder | chain/chain_state.go:34-58 | a subscriber receives snapshots in emission order, and none twice, except that the first two are the same in some runs that subscribe during an emission |
| Broadcast.RepeatExact | chain/chain_state.go:43-55 | a snapshot is received twice exactly when the enqueue loop sends the initial snapshot after the subscriber received it and the subscriber receives again before the loop drains the channel |
| Broadcast.DrainedOverlapRepeats | chain/chain_state.go:14-24 | a subscription made during an emission and drained before the walk visits it does receive that snapshot again |
| Broadcast.NewestKeptIff | chain/chain_state.go:14-58 | between emissions a subscriber has, or last received, the newest snapshot exactly when it joined at that snapshot or the walk of its emission reached it |
| Broadcast.EmissionAfterRegistrationKept | chain/chain_state.go:34-55 | after an emission that started once the subscriber was registered, it has or last received the newest snapshot |
| Broadcast.EmissionBeforeRegistrationMissed | chain/chain_state.go:14-24 | a run in which a registered subscriber at rest lacks the newest snapshot, because the emission fell between reading and registering |
| Broadcast.TwoPasses | chain/chain_state.go:43-55 | the enqueue loop ends within two passes whatever the subscriber does |
| Broadcast.SendReplaces | chain/chain_state.go:43-55 | with room the send succeeds at once; without, the waiting snapshot is taken out and the second send succeeds |
| Broadcast.OnlyNewestIsLive | chain/chain_state.go:26-38 | exactly the newest snapshot's context is not cancelled |
| Broadcast.OverlapRepeats | chain/chain_state.go:14-24 | subscribing during an emission can deliver one snapshot twice |

## Left out

- Encryption strategies, the object store, storage references, IPFS and pubsub: foreign calls, seen here as immutable maps and arbitrary arrivals.
- Protobuf marshalling: persistence stores the value.
- float32 rounding of the vote threshold and the truncating duration casts of the mempool proposer: integer arithmetic and an arbitrary "wait elapsed" answer take their place.
- The order in which the Fibonacci heap gives up transactions: any transaction of the heap may come next.
- A transaction database entry that is missing without an error: what then happens depends on the application.
- Mempool and broadcast are modelled on values, because their goroutines interleave: update in place of slices and channels is not captured, only the steps.
- Node.SegmentStore.GetSegmentById: the blank object that the code creates and caches for an id missing from the database is null here and not cached; the invariant shows that no caller asks for one.
- SyncTheorems.CatchUpIff: one schedule, in which the branch's rewinds follow each other and every lookup resolves; `Convergence.CatchesUp` covers all schedules without marks, and `Convergence.CatchesUpIff` all states.
- Convergence.CatchesUp: one life of a node, since it is false across restarts (`RestartStrandsBranch`), and chains without forks; which of two forks a node keeps depends on the order of arrivals, and `SpliceOutcome` says what becomes of the other.
- Node.Segment.RewindOnce: a rewind past a block without parent reference is an error, whatever the library does with the nil reference.
- Broadcast.ReceivedInOrder: one subscriber, one emitter; channels of several subscribers do not interact.
- Guards.Proposer.ConsiderSnapshot: building, storing and sending the proposal after the guard is only the decision to do so.
- Commit safety across rounds of one height: the code keeps no lock between rounds and promises none.
- Peer message checks, the command line, node wiring, built-in validators and examples: plumbing with no property that spans runs.
