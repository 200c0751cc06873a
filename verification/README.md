# Lumio node: a verified model of its consensus start-up and read paths

This project models parts of a Lumio validator and full node in Dafny and proves what they promise.

* **Voting** (`Quorum`, `EpochChange`, `SafetyRules`, `SigningRules`, `TwoChain`, `QuorumProgress`, `EpochEndings`,
  `EpochRuns`): the safety rules of each validator, as a class whose methods change its persisted safety data, and a
  state machine of honest validators, faulty ones, restarts and initialisations. Main results: `CommitSafety` within an
  epoch, `CommitSafetyAcrossEpochs` and `EpochsEndOneWay` from epoch to epoch, `VotesExactly` for one validator,
  `RunsCommitAfterTimeout` and `RunsPassEpochs`: runs go on after timeouts and through any number of epochs.
* **Initialisation and retry** (`MetricsSafetyRules`): catching up from paged storage against one unbounded
  initialisation. Main results: `SameWaypointAsUnbounded`, an if and only if, with the case where it fails, and
  `RestartIsTransparent`.
* **Epoch manager** (`EpochManager`, `EpochIsolation`, `EpochDelivery`, `EpochCatchUp`, `EpochStale`): message routing,
  start and stop of the per-epoch processors, verification tasks that finish late, and the epoch retrieval protocol.
  Main results: `EventsStayInTheirEpoch`, `ValidEventsArriveOnce`, `OneProcessorAtATime`, `EpochsAreLeftOnce`,
  `CascadesEnd`, `CatchesUp`.
* **Gas price estimation** (`GasPrices`, `BlockPrices`, `GasEstimator`, `GasCache`, `GasRuns`, `GasAnswers`,
  `GasPruning`, `GasGaps`, `GasExamples`): pricing of a block and the cached backwards walk over blocks, while the
  database is pruned. Main results: `PriceExactly`, `CacheRefinesPlainWalk`, `ForwardAnswersArePlain`,
  `EveryEstimateIsOrdered`, `EstimationIs`, `PrunedRunsRefine`.
* **Other read paths** (`EpochCaches`, `Rendering`, `Pagination`, `PageWindows`, `LongPoll`, `TxnLookup`) and the
  **port allocator** (`PortAllocator`).

Where the code works by changing fields or by a loop, the model has a class or a loop, proved equal to a function;
the properties are then proved about that function, for all inputs and all runs. Concurrent code is a state machine
whose steps are the atomic actions of the code, and results hold for every interleaving.

`dafny verify dfyconfig.toml` checks everything.

## What is taken as given

* Signatures are ideal: a signature is a member of a set that only its author can add to. A block is identified
  with its contents and a waypoint's hash with the ledger info it commits to.
* Less than a third of each epoch's voting power is faulty. A timeout certificate handed to the safety rules, and a
  block to be signed after execution, is of the validator's current epoch, and with signature checks switched off
  certificates were checked before.
* In `TwoChain`, `MetricsSafetyRules` and the epoch manager, a quorum of an epoch signs only the real end of that epoch
  (`Genuine`). `EpochEndings` proves this for proofs made of existing signatures, given that execution is a function of
  the block, that descendants within the epoch of a block that ends it carry the same next epoch, and that, if
  committed blocks end an epoch, at least one of them installs the validator set that the history names for the next.
  That all of them do is proved, and so is that executions which end every epoch meet this.
* The notification after a state sync carries the epoch of the ledger info synced to; the database returns the epoch
  endings in order, at most 100 at a time.
* Blocks partition the versions of the ledger, genesis is version 0 and alone in epoch 0, every other block begins
  with its metadata, and configuration does not change within an epoch. Pruning only ever goes on, and not past the
  ledger version that a request is served at.
* Time is a natural number; the fraction compared with one half is exact.

## Where code and documentation differ

* `get_by_hash` says that it asks the database first; it asks mempool first, and so does the model.
* The comment in `perform_initialize` says that it goes on for as long as the waypoint increases; it goes on only while
  the page ends before the validator's own epoch, and stops after the first page that does not
  (`SameWaypointAsUnbounded`).

## Model

| member | source | states |
|---|---|---|
| `Quorum.QuorumsShareHonest` | types/src/validator_verifier.rs:205-215 | two quorums of one validator set share a member outside any faulty set that the set tolerates |
| `EpochChange.VerifyProof` | types/src/epoch_change.rs:67-119 | succeeds exactly when the last ledger info is not stale and everything after the stale prefix is a chain of trust, and then returns the last one; the empty proof has its own error |
| `EpochChange.VerifyChain` | types/src/epoch_change.rs:80-116 | the loop hands trust from validator set to validator set and stops at the first link that fails |
| `EpochChange.VerifiedProofAgrees` | types/src/epoch_change.rs:67-119 | if quorums sign only real epoch endings, a verified proof ends in the real validator set of the epoch after its last one |
| `EpochChange.ChainAgreement` | types/src/epoch_change.rs:80-116 | along an accepted chain epochs are consecutive and each installed validator set is the real one |
| `SafetyRules.SafetyRules.VerifyQc` | consensus/safety-rules/src/safety_rules.rs:236-246 | accepts exactly the certificates that are valid for the current epoch's validators, unless signature checks are off |
| `SafetyRules.SafetyRules.VerifyProposal` | consensus/safety-rules/src/safety_rules.rs:64-86 | epoch, certificate, signature, well-formedness and extension checks, in that order, with their errors |
| `SafetyRules.SafetyRules.ConstructAndSignVoteTwoChain` | consensus/safety-rules/src/safety_rules_2chain.rs:54-96 | the new safety data and the vote or error are those of the vote function, for which `VotesExactly`, one vote per round and commit safety are proved |
| `SafetyRules.SafetyRules.SignTimeoutWithQc` | consensus/safety-rules/src/safety_rules_2chain.rs:20-52 | likewise for timeouts |
| `SafetyRules.SafetyRules.ConstructAndSignOrderVote` | consensus/safety-rules/src/safety_rules_2chain.rs:98-123 | likewise for order votes |
| `SafetyRules.SafetyRules.SignProposal` | consensus/safety-rules/src/safety_rules.rs:347-371 | likewise for proposals |
| `SafetyRules.SafetyRules.Initialize` | consensus/safety-rules/src/safety_rules.rs:266-345 | likewise for initialisation from an epoch change proof |
| `SafetyRules.SafetyRules.SignCommitVote` | consensus/safety-rules/src/safety_rules.rs:373-420 | likewise for the ledger info of an executed block, with the exception for one already executed; touches no safety data |
| `SigningRules.VotesExactly` | consensus/safety-rules/src/safety_rules_2chain.rs:54-96 | for every state and request: a vote is given if and only if the validator can sign, the proposal and certificates pass, and either it voted in that round already, or the round is newer and follows the parent's or that of a timeout certificate that knows nothing newer than the parent |
| `SigningRules.RevotesAlike` | consensus/safety-rules/src/safety_rules_2chain.rs:70-76 | a second request for a round it voted in returns the stored vote and changes nothing; no refusal changes anything |
| `SigningRules.NewVoteIs` | consensus/safety-rules/src/safety_rules_2chain.rs:77-96 | a new vote is for the proposed block, with its parent as commit exactly if their rounds are consecutive, and the whole of the safety data afterwards, preferred and one-chain rounds included |
| `SigningRules.TimesOutExactly` | consensus/safety-rules/src/safety_rules_2chain.rs:20-149 | a timeout is signed if and only if it passes the checks, is not below the last voted round, follows the certificate it names or the timeout certificate given, and names one no older than the one-chain round |
| `SigningRules.TimeoutIs` | consensus/safety-rules/src/safety_rules_2chain.rs:20-52 | what is then signed, and the whole of the safety data afterwards; a refusal changes nothing |
| `SigningRules.OrdersExactly` | consensus/safety-rules/src/safety_rules_2chain.rs:98-179 | an order vote is given if and only if block and certificate pass and the round is above every round timed out; data and signature afterwards |
| `SigningRules.ProposesExactly` | consensus/safety-rules/src/safety_rules.rs:347-371 | a proposal is signed if and only if it is its own, of its epoch, above the last voted round, with a valid certificate not below the preferred round; nothing is persisted |
| `SigningRules.SignsExactly` | consensus/safety-rules/src/safety_rules.rs:373-420 | an executed block is signed if and only if the ordered ledger info is for it, carries no other result, and passes |
| `SigningRules.InstallsExactly` | consensus/safety-rules/src/safety_rules.rs:266-345 | for every verified ledger info: waypoint, epoch state, safety data, signer and error after taking it over |
| `SigningRules.PowerAddsUp` | types/src/validator_verifier.rs:437-452 | voting power is what the set gives each validator, added up |
| `SigningRules.KeyIsListed` | types/src/validator_verifier.rs:497-502 | a validator's key is the one that the set lists for it |
| `SigningRules.QuorumIsTwoThirds` | types/src/validator_verifier.rs:205-215 | a quorum is of validators of the set only, with three times its power above twice the total |
| `SigningRules.CertifiesExactly` | consensus/consensus-types/src/quorum_cert.rs:120-148 | a certificate is valid if and only if it is the unsigned one of a root, or a quorum signed its block and commit and the block has a parent of its epoch and a lower round |
| `SigningRules.TimeoutCertifiesExactly` | consensus/consensus-types/src/timeout_2chain.rs:142-183 | a timeout certificate is valid if and only if a quorum signed its round, each with a certificate round of its own, and the certificate it carries is valid, older than its round and the newest of those |
| `QuorumProgress.GetsCertified` | consensus/safety-rules/src/safety_rules_2chain.rs:54-96 | validators of a quorum that can vote for a block do, and it is then certified |
| `QuorumProgress.GetsTimedOut` | consensus/safety-rules/src/safety_rules_2chain.rs:20-52 | validators of a quorum in the round after a certificate time out, and the timeout certificate is then valid |
| `QuorumProgress.RunsCommitAfterTimeout` | consensus/safety-rules/src/safety_rules_2chain.rs:20-179 | any run in which an honest quorum is in the round after a certificate can go on so that the round times out, the block proposed after the timeout is certified, and it is committed |
| `TwoChain.StepKeepsInv` | consensus/safety-rules/src/safety_rules_2chain.rs:20-216 | every step of every validator, honest or faulty, keeps the invariant over signatures and safety data |
| `TwoChain.RunKeepsInv` | consensus/safety-rules/src/safety_rules_2chain.rs:20-216 | so the invariant holds in every state of every run, and signatures only accumulate |
| `TwoChain.InitializeKeepsData` | consensus/safety-rules/src/safety_rules.rs:266-345 | initialising never forgets a vote: the epoch's data stay, or a later epoch begins; the waypoint never goes back |
| `TwoChain.CertifiedUnique` | consensus/safety-rules/src/safety_rules_2chain.rs:54-96 | one certified block per epoch and round |
| `TwoChain.OrderedLocks` | consensus/safety-rules/src/safety_rules_2chain.rs:98-179 | a block with a quorum of order votes locks its epoch: no later timeout certificate allows a lower parent |
| `TwoChain.TwoChainLocks` | consensus/safety-rules/src/safety_rules_2chain.rs:125-216 | so does a block committed by the two-chain rule |
| `TwoChain.LockedIsExtended` | consensus/safety-rules/src/safety_rules_2chain.rs:151-167 | every block certified at or above a locked block extends it |
| `TwoChain.CommittedAgree` | consensus/safety-rules/src/safety_rules_2chain.rs:125-216 | two committed blocks of an epoch lie on one chain, for any set of signatures that satisfies the invariant |
| `TwoChain.CommitSafety` | consensus/safety-rules/src/safety_rules_2chain.rs:20-216 | in every run with less than a third of the power faulty, any two blocks of an epoch committed by either rule, at any two moments, lie on one chain |
| `TwoChain.OneVotePerRound` | consensus/safety-rules/src/safety_rules_2chain.rs:54-96 | an honest validator signs at most one vote per epoch and round, across restarts and re-initialisation |
| `EpochEndings.OrderedIsCommitted` | consensus/safety-rules/src/safety_rules.rs:373-420 | the ordered ledger info that a commit vote checks stands for a committed block |
| `EpochEndings.EndsAgree` | consensus/safety-rules/src/safety_rules.rs:373-420 | committed blocks that end the same epoch install the same next one, by commit safety |
| `EpochEndings.NamedInstalls` | consensus/safety-rules/src/safety_rules.rs:373-420 | so if one of them installs the validator set that the history names, all do |
| `EpochEndings.BackedIsGenuine` | types/src/epoch_change.rs:67-119 | a proof whose signatures exist is genuine: its quorum-signed endings install the real next validator set |
| `EpochEndings.EndingsAgree` | consensus/safety-rules/src/safety_rules.rs:373-420 | all quorum-signed ends of an epoch install the same next epoch, with nothing assumed about that epoch |
| `EpochEndings.RunKeepsInv` | consensus/safety-rules/src/safety_rules.rs:266-420 | the invariant holds through every run in which validators also sign executed blocks and initialise from any proof whose signatures exist |
| `EpochEndings.CommitSafetyAcrossEpochs` | consensus/safety-rules/src/safety_rules.rs:266-420 | commit safety in every epoch of such a run |
| `EpochEndings.EpochsEndOneWay` | consensus/safety-rules/src/safety_rules.rs:266-420 | in every such run the quorum-signed ends of an epoch agree, and install the validator set that the history names |
| `EpochRuns.RunsPassEpochs` | consensus/safety-rules/src/safety_rules.rs:266-420 | none of this is empty: for every n a run with an allowed execution commits a block in each of n epochs, signs the end of each, and moves on from proofs made of those signatures into epoch n + 1 |
| `EpochRuns.BlocksGetCommitted` | consensus/safety-rules/src/safety_rules_2chain.rs:20-216 | likewise in any epoch of the state machine within epochs: initialising, voting and ordering commit a block |
| `EpochRuns.BlocksGetCommittedAfterTimeout` | consensus/safety-rules/src/safety_rules_2chain.rs:20-216 | and a run in any epoch in which the first round times out and the block of the second, proposed with the timeout certificate, is committed |
| `MetricsSafetyRules.ProgressIsBounded` | consensus/src/metrics_safety_rules.rs:41-70 | a reported step forward leads to a version that the storage holds: the termination measure of the loop |
| `MetricsSafetyRules.MetricsSafetyRules.PerformInitialize` | consensus/src/metrics_safety_rules.rs:41-70 | the loop terminates, equals initialising page after page, and never returns an out-of-date error that reported progress |
| `MetricsSafetyRules.NeverReportsProgress` | consensus/src/metrics_safety_rules.rs:41-70 | the same, for the page-after-page function |
| `MetricsSafetyRules.MetricsSafetyRules.Attempt` | consensus/src/metrics_safety_rules.rs:98-150 | one signing call of the five kinds, its outcome recorded |
| `MetricsSafetyRules.MetricsSafetyRules.Retry` | consensus/src/metrics_safety_rules.rs:72-86 | at most two attempts, the second if and only if the first was refused as not initialised, of another epoch or out of date, and initialising succeeded, so at most one signature |
| `MetricsSafetyRules.RetriesExactly` | consensus/src/metrics_safety_rules.rs:72-86 | the whole outcome for all states and requests, with the three refusals named one by one |
| `MetricsSafetyRules.RestartedSignsNothing` | consensus/safety-rules/src/safety_rules.rs:114-134 | a restart keeps what is persisted and nothing else; until it is initialised every request is refused |
| `MetricsSafetyRules.RestartedIsInitialised` | consensus/src/metrics_safety_rules.rs:72-86 | a validator without its signer is initialised and then asked again, whatever it is asked |
| `MetricsSafetyRules.RestartIsTransparent` | consensus/src/metrics_safety_rules.rs:41-86 | so a validator of the newest epoch answers every request after a restart as it would have without one, but for a newer waypoint |
| `MetricsSafetyRules.PagesRefineOneInitialization` | consensus/src/metrics_safety_rules.rs:41-70 | paged initialisation leaves the validator as one initialisation with all endings up to the stopping page would, with the same outcome unless its epoch is ahead of the storage |
| `MetricsSafetyRules.StopIsEnd` | consensus/src/metrics_safety_rules.rs:41-70 | the pages stop at the newest ending exactly when the validator's epoch is above the last page boundary |
| `MetricsSafetyRules.SameWaypointAsUnbounded` | consensus/src/metrics_safety_rules.rs:41-70 | the waypoint reached is that of one unbounded initialisation if and only if that condition holds |
| `MetricsSafetyRules.RetryHealsLag` | consensus/src/metrics_safety_rules.rs:72-86 | for a request in the newest epoch, the retry still fails on the epoch if and only if the condition fails |
| `MetricsSafetyRules.LaggingValidatorStopsEarly` | storage/lumiodb/src/db/lumiodb_reader.rs:991-1002 | the failing case, a storage of 250 epochs and a validator in epoch 1: it stops in epoch 100 with another waypoint than the unbounded initialisation |
| `EpochManager.EpochManager.ShutdownCurrentProcessor` | consensus/src/epoch_manager.rs:634-677 | closes and awaits the running processor and drops exactly the listed channels; proposal, DAG and quorum store senders stay |
| `EpochManager.EpochManager.StartEpoch` | consensus/src/epoch_manager.rs:1190-1308 | the whole new state of the manager after a start |
| `EpochManager.EpochManager.StartConsensus` | consensus/src/epoch_manager.rs:1346-1395 | which of the three is started, and the recovery flag, kept on the DAG path |
| `EpochManager.EpochManager.ProcessEpochRetrieval` | consensus/src/epoch_manager.rs:448-473 | one proof to the asking peer, or nothing on a storage error |
| `EpochManager.EpochManager.ProcessDifferentEpoch` | consensus/src/epoch_manager.rs:475-539 | request, proof, silence or error by the order of the epochs and membership in the validator set |
| `EpochManager.EpochManager.InitiateNewEpoch` | consensus/src/epoch_manager.rs:541-566 | a bad proof changes nothing; a good one shuts down, clears pending blocks and starts |
| `EpochManager.EpochManager.CheckMessageEpoch` | consensus/src/epoch_manager.rs:1602-1667 | only events of the current epoch go on |
| `EpochManager.EpochManager.ProcessMessage` | consensus/src/epoch_manager.rs:1503-1600 | the verification task captures the current epoch state and senders |
| `EpochManager.EpochManager.FinishVerification` | consensus/src/epoch_manager.rs:1552-1597 | a finished task uses what it captured, whatever the manager holds by then |
| `EpochManager.EpochManager.ForwardEvent` | consensus/src/epoch_manager.rs:1705-1775 | where each kind of event is pushed |
| `EpochManager.EpochManager.ProcessRpcRequest` | consensus/src/epoch_manager.rs:1778-1860 | requests of another epoch are answered as such, others pushed |
| `EpochManager.EpochManager.ProcessLocalTimeout` | consensus/src/epoch_manager.rs:1862-1876 | a timeout goes to the current round manager sender, with no epoch |
| `EpochIsolation.StepKeepsInv` | consensus/src/epoch_manager.rs:1503-1876 | every step keeps the invariant, and changes epoch exactly when it delivers a verified proof that begins at the current epoch, then to a later one |
| `EpochIsolation.RunKeepsInv` | consensus/src/epoch_manager.rs:1888-1925 | so the invariant holds in every state of every interleaving of messages, timers and finishing tasks |
| `EpochIsolation.EventsStayInTheirEpoch` | consensus/src/epoch_manager.rs:1537-1597 | every event that reaches a round manager or quorum store sender carries the epoch that sender was made for and was verified with that epoch's validators, however late its task finished |
| `EpochIsolation.ProposalsStayIfRoundManaged` | consensus/src/epoch_manager.rs:956-957 | for proposals this holds if and only if the event's epoch began with a round manager; otherwise the sender is an older one |
| `EpochIsolation.RequestsStayInTheirEpoch` | consensus/src/epoch_manager.rs:1778-1860 | likewise for requests, those to the DAG if and only if the epoch began with a DAG |
| `EpochIsolation.EventsFindASender` | consensus/src/epoch_manager.rs:1693-1775 | a verified event finds no sender if and only if it is a proposal before any round manager, or another round manager event while the DAG runs; admitted quorum store events always find one |
| `EpochIsolation.DisabledQuorumStore` | consensus/src/epoch_manager.rs:1669-1691 | with the quorum store off its messages are dropped silently exactly if the last start that was not a DAG was a recovery, and refused otherwise |
| `EpochIsolation.OneProcessorAtATime` | consensus/src/epoch_manager.rs:541-677 | at most one consensus processor at every moment, none spawned before the previous one acknowledged, exactly one between steps and it is of the current epoch, as are all senders that shutdown drops |
| `EpochIsolation.EpochsAreLeftOnce` | consensus/src/epoch_manager.rs:1630-1647 | epochs never go back, change only on a verified proof from the current epoch, and each is left at most once despite repeated or stale proofs |
| `EpochIsolation.ProofsEndInOwnEpoch` | consensus/src/epoch_manager.rs:448-539 | no proof ever sent reaches past the sender's epoch |
| `EpochIsolation.BadProofChangesNothing` | consensus/src/epoch_manager.rs:541-549 | a proof that does not verify, or begins elsewhere, changes nothing at all |
| `EpochDelivery.ValidEventsArriveOnce` | consensus/src/epoch_manager.rs:1693-1775 | in every run a verification task that ends adds exactly one push if the event is valid, by a table of the nine kinds: to the quorum store always, to the round manager unless its epoch ran a DAG, a proposal once a round manager has begun; otherwise none |
| `EpochDelivery.FinishedTask` | consensus/src/epoch_manager.rs:1537-1597 | the whole world after a task ends |
| `EpochDelivery.CurrentEvent` | consensus/src/epoch_manager.rs:1503-1691 | an event of the current epoch adds exactly one task, which captures the state and senders of that moment, unless its kind is switched off |
| `EpochDelivery.OtherEvent` | consensus/src/epoch_manager.rs:475-539 | an event of another epoch is never taken: ahead, the proof is requested; behind, a member is silent and any other node sends at most a hundred endings |
| `EpochDelivery.RetrievalIsAnswered` | consensus/src/epoch_manager.rs:448-473 | exactly which endings are sent, and the two refusals |
| `EpochDelivery.RequestIsPushed` | consensus/src/epoch_manager.rs:1778-1860 | a request of the current epoch is pushed once into the sender for its kind, or refused as not started; block retrievals need no epoch and are then dropped silently |
| `EpochDelivery.TimeoutsReachRoundManager` | consensus/src/epoch_manager.rs:1862-1876 | in every run the round timer adds exactly one push, to the round manager of the current epoch, unless that runs a DAG |
| `EpochDelivery.VotesReachRoundManager` | consensus/src/epoch_manager.rs:1503-1775 | in every run a valid vote, order vote, sync info or round timeout of the current epoch, delivered and verified, is the one new push, at the round manager of its epoch, if it has one |
| `EpochDelivery.NewEpochFields` | consensus/src/epoch_manager.rs:541-677 | every field of the manager after a verified proof, what was closed and awaited, and what was spawned |
| `EpochDelivery.ProofStartsEpoch` | consensus/src/epoch_manager.rs:1630-1647 | a proof starts an epoch if and only if it begins at the current one and verifies |
| `EpochStale.StaleProposalChannel` | consensus/src/epoch_manager.rs:679-708 | the failing case, as a run driven by a genuine proof: in an epoch begun by a recovery manager a proposal goes into the previous round manager's sender |
| `EpochIsolation.PendingBlocksAre` | consensus/src/epoch_manager.rs:1739-1754 | at every moment of every run the pending blocks are exactly the valid proposals whose verification finished since the current epoch began |
| `EpochIsolation.PendingBlocksStayCurrent` | consensus/src/epoch_manager.rs:1739-1754 | so they are all of the current epoch if and only if, since it began, no valid proposal captured in an earlier epoch finished its verification |
| `EpochStale.StalePendingBlock` | consensus/src/epoch_manager.rs:1739-1754 | its failing case, as a run: a proposal verified after the next epoch has begun is then pending |
| `EpochStale.StaleDagChannel` | consensus/src/epoch_manager.rs:634-677 | the failing case for requests, as a run: a DAG request goes into the sender of an earlier epoch's DAG |
| `EpochCatchUp.OneLowerAnswer` | consensus/src/epoch_manager.rs:475-539 | one message or request of another epoch causes at most one message, of lower rank: event or request, retrieval, proof |
| `EpochCatchUp.DeliveryLosesWeight` | consensus/src/epoch_manager.rs:1602-1667 | every delivery to any node lowers the total rank of what is under way |
| `EpochCatchUp.CascadesEnd` | consensus/src/epoch_manager.rs:1602-1860 | in any order of delivery the answers to n messages and requests stop after at most 3n deliveries |
| `EpochCatchUp.PageVerifies` | storage/lumiodb/src/db/lumiodb_reader.rs:1032-1063 | a page of stored endings from a node's own epoch verifies against its validators |
| `EpochCatchUp.AnswersDirectly` | consensus/src/epoch_manager.rs:487-515 | a node outside its validator set answers an old event with the proof, a member stays silent |
| `EpochCatchUp.ExchangeAdvances` | consensus/src/epoch_manager.rs:475-566 | an undisturbed event, request, proof exchange moves the lagging node, to the announced epoch if and only if that is at most 100 epochs ahead |
| `EpochCatchUp.CatchesUp` | consensus/src/epoch_manager.rs:475-566 | after k exchanges exactly k pages are covered, so the announced epoch is reached if and only if they suffice |
| `EpochCaches.EpochCache.Get` | api/src/context.rs:1463-1541 | one call, with what other threads leave between its two looks: the result is for its own epoch, and a failed load leaves the cache alone |
| `EpochCaches.StepKeepsInv` | api/src/context.rs:1463-1583 | every step of every thread keeps exclusion and the match of epoch and value |
| `EpochCaches.ReturnsOwnEpoch` | api/src/context.rs:1463-1583 | in every interleaving a successful call returns the configuration of the epoch it asked for |
| `EpochCaches.ReadableIsConsistent` | api/src/context.rs:1466-1480 | whenever the cache can be read its epoch and value belong together, although they are written separately |
| `EpochCaches.FailedLoadChangesNothing` | api/src/context.rs:1497-1531 | a failed load leaves the cache as it was when the lock was granted |
| `EpochCaches.NeverStuck` | api/src/context.rs:1463-1583 | while a call is unfinished some thread can go on |
| `EpochCaches.StoredIsServed` | api/src/context.rs:1463-1583 | in every interleaving, once a call has stored an epoch's configuration and until another epoch's is stored, every call for it that looks returns the stored value at once and loads nothing |
| `GasPrices.NextBucketIsFirst` | api/src/context.rs:1118-1129 | the first configured bucket above the price |
| `GasPrices.NoBucketAbove` | api/src/context.rs:1118-1129 | the price itself if there is none |
| `GasPrices.GetGasPricesAndUsed` | api/src/context.rs:1169-1224 | exactly the user transactions' prices and block endings, and a majority that is the answer for some maximal entry of the true counts |
| `GasPrices.MaxByCount` | api/src/context.rs:1210-1222 | an entry of highest count, any of them |
| `GasPrices.MajorityIsOrderIndependent` | api/src/context.rs:1226-1284 | whichever maximal entry the hash map yields, the test for more than half gives the same answer |
| `GasPrices.BlockMinInclusionPrice` | api/src/context.rs:1226-1284 | equals the pricing function on the block's transactions |
| `GasPrices.AbortsUnlessPriceable` | api/src/context.rs:1226-1284 | pricing does not panic if and only if the stated condition on the block and configuration holds |
| `BlockPrices.PriceExactly` | api/src/context.rs:1226-1284 | for every block that can be priced, in terms of its transactions alone: there is a price exactly if no counted contract has the majority and it has enough user transactions, or says that its limit was reached, or, saying nothing, used gas that adds up to the limit; the price is the first bucket above the least that a user paid, or that itself if no bucket is above |
| `GasEstimator.DefaultEstimation` | api/src/context.rs:1131-1137 | ordered |
| `GasEstimator.Walk` | api/src/context.rs:1336-1360 | never more blocks than the history, all of the epoch |
| `GasEstimator.PriceIsStable` | api/src/context.rs:1226-1240 | a complete block has the same price at every later ledger version |
| `GasAnswers.BlockPriceIs` | api/src/context.rs:1169-1284 | the price of a block at any ledger version: that of its transactions up to there but the last, if they can be read and make it full, and the minimum otherwise |
| `GasEstimator.Estimator.CollectBlocks` | api/src/context.rs:1327-1360 | the walk loop equals the recursive walk |
| `GasEstimator.Estimator.PriceBlocks` | api/src/context.rs:1370-1380 | fresh prices newest first, each recorded under its block, unless pricing one of them panics |
| `GasEstimator.Estimator.PriceBlock` | api/src/context.rs:1373-1375 | the block's price, or the minimum if it is not full, or cannot be read because its first version is pruned or it is longer than one database request, and a panic exactly when a block that is read cannot be priced |
| `GasEstimator.Estimator.WalkBack` | api/src/context.rs:1327-1360 | the walk from the block before the tip's |
| `GasEstimator.Estimator.MergePrices` | api/src/context.rs:1369-1390 | fresh prices, then cached ones from where the walk met them |
| `GasEstimator.Estimator.SettlePrices` | api/src/context.rs:1392-1456 | estimate, eviction and remembering, or the default with nothing remembered |
| `GasEstimator.Estimator.EvictOldest` | api/src/context.rs:1448-1453 | exactly the newest entries stay |
| `GasEstimator.Estimator.RecomputeGasPrice` | api/src/context.rs:1319-1456 | the whole new cache and the estimate, or a poisoned lock exactly when a block of the walk cannot be priced |
| `GasEstimator.Estimator.EstimateGasPrice` | api/src/context.rs:1286-1456 | the same, with the disabled, override and cached answers first; panics exactly if the lock is poisoned or a block to be priced cannot be |
| `GasRuns.CacheRefinesPlainWalk` | api/src/context.rs:1319-1390 | in every reachable state and for any tip, fresh plus cached prices equal a walk without cache if and only if the run is not cut short: the start is not cached below the newest entry with older readable blocks of the epoch below the oldest |
| `GasRuns.EstimateKeepsInv` | api/src/context.rs:1286-1456 | any request, with any tip, keeps the cache one contiguous run of complete blocks of its epoch with their right prices, as long as an uncached walk, if market blocks are looked at |
| `GasRuns.EveryEstimateIsOrdered` | api/src/context.rs:1118-1456 | after any requests, on any database and configuration, every estimate computed, defaulted or served from the cache is ordered, the static override alone excepted |
| `GasRuns.NoBlockCountedTwice` | api/src/context.rs:1336-1446 | in every run and for any tip the prices used are those of distinct blocks of the database and of the epoch, each strictly older than the one before, and once a block was collected or met there is an estimate: neither branch for empty prices is taken |
| `GasRuns.RunsKeepInv` | api/src/context.rs:1448-1453 | in every run the cache never exceeds the history, if market blocks are looked at |
| `GasRuns.ForwardRunsRefine` | api/src/context.rs:1319-1390 | while tips do not go back within an epoch, every recomputation uses exactly the prices of the plain walk |
| `GasRuns.ForwardEstimates` | api/src/context.rs:1319-1456 | so the estimate is that of the plain walk, or the default where it sees no block |
| `GasAnswers.EveryAnswerIs` | api/src/context.rs:1139-1456 | in every run each request is answered with the estimate of one earlier or equal request of its epoch: the one behind the answer before if less than the expiration time ago, otherwise itself, recomputed |
| `GasAnswers.ForwardAnswersArePlain` | api/src/context.rs:1139-1456 | and while tips move forward that is the estimate that the plain walk gives for that request, or the default where it sees no block |
| `GasAnswers.AnswersWithoutComputing` | api/src/context.rs:1286-1302 | switched off: the minimum twice and the first bucket above it; overridden: the configured numbers; the cache is left alone |
| `GasAnswers.DefaultIs` | api/src/context.rs:1131-1137 | the default is the minimum twice and the first bucket above it |
| `GasRuns.GoingBackLosesPrices` | api/src/context.rs:1337-1342 | the failing case: a tip one block back finds fewer prices than the plain walk |
| `GasExamples.TipGoesBack` | api/src/context.rs:1337-1342 | the same on one chain: history 3, from the end of block 6 to the end of block 5 |
| `GasRuns.NoMarketNoEviction` | api/src/context.rs:1410-1422 | without market blocks the bound fails: two requests leave twice the history |
| `GasExamples.NothingEverEvicted` | api/src/context.rs:1410-1422 | the same on one chain: history 3, two requests, six entries |
| `GasGaps.PrunedRunsRefine` | api/src/context.rs:1337-1390 | for all runs, any tips and any pruning between requests: each price used is that of its block at some floor when the block could be read, and the blocks used are those a walk without cache visits at some floor if and only if the entries fallen back on have no gap: of those at or below the one met, as many as still fit in the history adjoin |
| `GasGaps.ForwardPrunedRunsRefine` | api/src/context.rs:1337-1390 | while tips also move forward within an epoch: every block that can still be walked is used, first, and without a gap the floor is one no higher than now |
| `GasGaps.EstimateKeepsGapInv` | api/src/context.rs:1286-1456 | any request at any floor keeps the cache an ascending selection of blocks of its epoch whose gaps lie below the floor, and that is full or reaches down to what is pruned |
| `GasGaps.PlainExactlyWithoutGap` | api/src/context.rs:1337-1390 | the if and only if for one request, from the carried entries, the floor and the block boundaries alone |
| `GasExamples.PruningPastTheNewestMixesPrices` | api/src/context.rs:1337-1390 | its failing case, on one chain: blocks of two versions, history 4, floor 11 after the first of three requests; the third uses the prices of blocks 8, 7, 6 and 2, which no walk without cache gives at any floor |
| `GasPruning.KeptUpRunsRefine` | api/src/context.rs:1337-1390 | a case without gaps: if pruning has never passed the newest cached block, also the prices are exactly those of a walk without cache at one earlier floor, which visits all that the walk over what is left visits |
| `GasRuns.OrderStatistic` | api/src/context.rs:1400-1441 | entry k of the sorted list is the k-th smallest price |
| `GasRuns.EstimationIs` | api/src/context.rs:1392-1446 | an estimate exists if and only if there is a price and market blocks are looked at; low is the least recent price, market the middle one but not below low, aggressive the bucket above the 90th percentile and market; they are ordered |
| `Rendering.RenderTransactionsSequential` | api/src/context.rs:738-770 | the loop that threads one timestamp equals its recursive form |
| `Rendering.RenderersAgree` | api/src/context.rs:738-796 | for every stretch of versions, wherever in a block it starts, the sequential answer equals the per-version one, errors included |
| `Rendering.LookedUpIs` | storage/lumiodb/src/db/lumiodb_reader.rs:727-734 | a lookup fails exactly outside the versions held, and otherwise gives the time of the last metadata at or before the version, or of genesis |
| `Rendering.ListRenders` | api/src/transactions.rs:825-862 | a listing gives every transaction converted with the time of its own block, fails exactly if one conversion does, and always from a pruned version |
| `Pagination.PagesAreTheScan` | api/src/context.rs:471-616 | with limits of at least one, following cursors returns the filtered scan, no gap and no repeat, if and only if every cursor lands on the first unreturned entry; as many pages as entries suffice |
| `Pagination.ModulePagesAreTheScan` | api/src/context.rs:562-616 | for modules it always does, and fails if and only if an entry cannot be read |
| `Pagination.ScansAre` | api/src/context.rs:471-616 | what the scans hold, in key order: every module from the cursor on with whatever cannot be read, and everything but modules |
| `Pagination.GroupCursorLands` | api/src/context.rs:554-558 | a resource group's cursor lands if and only if nothing shown of its name length, and nothing unreadable, lies between the place of a plain resource of that name and the group |
| `Pagination.ResourcePagesAreTheScan` | api/src/context.rs:471-560 | for resources it does if and only if all entries can be read and every group that begins a page satisfies that condition; with an unreadable entry it never ends, and fails if the groups before satisfy it |
| `Pagination.FlatPagesAreFlattened` | api/src/context.rs:535-552 | expanding groups page by page gives the expansion of the whole scan, or fails if a group does not decode |
| `Pagination.GroupCursorRepeats` | api/src/context.rs:554-558 | the failing case, with keys that are laid out as assumed and never shared by two paths: the same page is returned for ever |
| `PageWindows.DefaultPageIsNewest` | api/src/page.rs:28-57 | without a start, exactly the newest min(limit, ledger version + 1) versions; refused exactly when the limit is zero or too large or the oldest is pruned |
| `PageWindows.PagesAdjoin` | api/src/context.rs:832-878 | adjoining pages together list every version once |
| `PageWindows.BlockPageIs` | api/src/context.rs:707-726 | when a block request fails, what it returns, and that this is the first min(page size, block size) if and only if narrowing to sixteen bits does not go below the page size |
| `PageWindows.FullRangeBlockIsRefused` | api/src/context.rs:707-726 | its failing case: a block of 65536 transactions cannot be listed |
| `LongPoll.CounterIsLoad` | api/src/transactions.rs:249-289 | in every run the counter is the number of requests in flight or dropped, modulo its range |
| `LongPoll.FullCounterAdmits` | api/src/transactions.rs:249-289 | in any run, once as many requests are counted as the counter has values, the next one is admitted, for any limit above zero |
| `LongPoll.CounterCanBeFull` | api/src/transactions.rs:249-289 | such a run exists |
| `LongPoll.StepKeepsInv` | api/src/transactions.rs:249-289 | every separate add, compare and subtract keeps the count of requests in flight and admitted |
| `LongPoll.PollersNeverExceedLimit` | api/src/transactions.rs:249-289 | in every interleaving, unless more requests are in flight than the counter has values, pollers never exceed the limit, the counter never goes below zero, and equals the requests in flight if and only if none was dropped |
| `LongPoll.DroppedRequestsKeepTheirPlace` | api/src/transactions.rs:249-289 | requests dropped while polling keep their place: once they fill the limit every later one is short |
| `TxnLookup.MissingExactlyInTheGap` | api/src/transactions.rs:1056-1083 | a known transaction is reported missing if and only if it was committed after the version read and removed before mempool was asked |
| `TxnLookup.FoundOtherwise` | api/src/transactions.rs:1056-1083 | in mempool when asked, or committed by the version read: found, with its version |
| `TxnLookup.WaitTransactionByHash` | api/src/transactions.rs:864-911 | returns the first answer that is not pending, or the first at or after the timeout, and terminates if the clock passes the timeout at all |
| `PortAllocator.BindPortFromCounter` | config/src/utils.rs:180-206 | the first port that binds, counting cyclically; none only if a thousand fail |
| `PortAllocator.CounterFile.GetUniquePort` | config/src/utils.rs:121-149 | the new counter is one past the port returned; left alone if none binds |
| `PortAllocator.StepKeepsInv` | config/src/utils.rs:121-206 | every system call of every process keeps the lock, counter and grant invariants |
| `PortAllocator.PortsRepeatOnlyAfterFullCycle` | config/src/utils.rs:121-206 | in every interleaving the same port comes again only after the walk advanced by 20000, so not within twenty successful calls |
| `PortAllocator.PortsAreInRange` | config/src/utils.rs:40-45 | every port handed out is the permutation's at its position, from 10000 to 29999 |
| `PortAllocator.StoredCounterIsAnIndex` | config/src/utils.rs:141-146 | after the first write the file holds the walk modulo 20000 whenever nobody is rewriting it |
| `PortAllocator.OneProcessInside` | config/src/utils.rs:151-178 | at most one process between taking and removing the lock file, counting one killed there |
| `PortAllocator.CallGrantsFirstFree` | config/src/utils.rs:121-206 | a call that finds the lock free hands out the first port that binds, counting cyclically from the stored counter, stores one past it, and leaves the lock free |
| `PortAllocator.CallWithoutPortLeavesNothing` | config/src/utils.rs:180-206 | a call for which no attempt binds panics and leaves everything as it was, the lock included |
| `PortAllocator.SomeoneCanGoOn` | config/src/utils.rs:47-65 | unless one was killed inside, some process alive can always go on |
| `PortAllocator.KilledInsideBlocksAll` | config/src/utils.rs:47-65 | after a process is killed inside, nothing is ever granted or written again |

## Left out

- SafetyRules.SafetyRules.VerifyProposal: the proposer's signature, payload, author and timestamp checks enter as flags, because blocks carry none of these here.
- SafetyRules.SafetyRules.SignCommitVote: block timestamps, which may change in a block after the end of an epoch, are not compared.
- EpochManager.EpochManager.ProcessRpcRequest: commit requests are accepted without modelling the execution client behind them.
- EpochManager.EpochManager.StartEpoch: randomness, key loading and on-chain configuration parsing are not modelled; only the senders and processors are.
- TwoChain.CommitSafety: blocks of round zero, the roots of an epoch, are agreed without votes and excluded.
- The block store, the round manager's event handling, leader election, the DAG, the quorum store and the consensus observer.
- Cryptography, encoding of messages, the network layer, and randomness generation.
- The Move virtual machine, view functions, simulation, and the rest of the API endpoints.
- The lookup of a transaction that mempool drops before it is committed: it is then unknown to the node.
- Which hash-map entry is the maximum when several are: any of them, as the language allows.
