# A verified model of the bundler's stateful core

This project models five components of an ERC-4337 bundler in Dafny and proves what holds of
them in every run.

* **The proposer** (`UserOps`, `Proposal`, `Rejections`, `Amendments`, `Rounds`, `Reactions`,
  `Positions`, `BundleGas`, `GasFigures`, `Assembly`, `AssemblyLaws`, `Violations`, `Decisions`,
  `Maximality`, `ProposalContext`, `Signing`, `Loops`, `Retrying`, `Freshness`,
  `BundleProposer`). Operations are grouped by aggregator, taken greedily under gas,
  fee, size, storage and deposit limits, and rejected round after round until the entry point
  accepts what is left. `MakeBundle` is the whole of it: a method that is proved to compute a
  function of the answers it gets from outside, and to return only bundles that can be sent. The
  program sets no bound to its rounds. The method makes any number of them that it is given, and
  says what there is by then; given as many as there are operations, it is unfinished only if the
  program would never end.
* **Expected storage** (`ExpectedStorage`): an index of storage slots with reference counts.
* **The sending protocol** (`Locks`, `Assigner`, `Tracker`, `TrackerLaws`, `TransactionTracker`,
  `SenderMachine`, `Builders`, `Episodes`, `Coverage`, `Transitions`, `BundleSender`, `Offers`,
  `Signers`). Any
  number of builders share one assigner of sender locks; each follows its transactions at one
  nonce and runs a state machine of building, waiting, cancelling and waiting for a cancellation.
  A step is cut at every point where other builders may run, and the pieces interleave freely, on
  values and on the objects that share the assigner.
* **The chain window** (`ChainSync`, `ChainProgress`, `ChainLog`, `Chain`): a bounded, hash-linked window of
  blocks that follows the head through reorganisations and announces what was mined and unmined.
* **Signer funding** (`Funding`): which signers to top up in one transaction.

Each stateful component has a value-level part, where its laws are proved, and a class or method
part that updates fields in loops as the program does and is proved equal to the value-level
part. The value-level part has laws of three kinds: what every step keeps, what each operation does
for every input and from which reason (the lemmas named `...Exactly`), and that what should happen
does happen. Everything answered from outside (simulation, the entry point, aggregators, the node, the
pool, transaction senders, clocks and fee estimates) is a parameter. Within one call answers are
given as functions of the question. A bundle is put to the entry point again only after a round
that left its groups unchanged; for that case the laws assume the same answer to the same bundle.

Some values carry fields the program does not have, to be able to state what happened: skipped
operations and storages counted too many in a draft; exemption, nonce and senders of a
transaction; the number of cancellations issued and the senders of the latest bundle; parent
hashes in the window.

Where the program does not keep a property that one might expect, the model follows the program,
a lemma exhibits the failure, and another says exactly when the property holds:

* The retry loop shrinks the bundle in every round except when the entry point blames an
  aggregator that the bundle does not use. It goes on for ever exactly if it reaches a bundle that
  is answered like that, and otherwise makes no more rounds than there are operations
  (`Rounds.RoundShrinks`, `Rounds.AbsentAggregatorStalls`, `Retrying.StallsExactly`).
* Rejecting by ascending position removes exactly the listed operations only if at most one is
  listed and what is left of its group can be signed again (`Positions.AscendExact`,
  `Positions.SecondSurvives`). If all of two or more operations are listed it ends in an error
  (`Positions.AscendFails`, `Retrying.AllUnmet`).
* Rejecting by descending position after a post-operation revert removes exactly the guilty
  operations if every group that is touched can be signed again; a group that cannot goes at once,
  and its other positions then hit the operations after it (`Positions.PostOpExact`,
  `Positions.PostOpPurges`).
* A group of the final bundle is signed over its operations exactly if it did not lose operations
  last to a round that rejected an entity (`Freshness.BundleFreshness`, `Freshness.StaleExample`).
* A bundle's expected storage is that of its operations exactly if every candidate that was skipped
  after its storage was merged expects only slots that they expect too
  (`AssemblyLaws.StorageOfBundle`, `AssemblyLaws.LeakExample`).
* The limit on storage slots bounds what is sent (`Decisions.SlotsOfBundle`), but not what is held:
  that exceeds it exactly if a candidate was skipped for its slots after they were merged, and then
  no later candidate is taken (`Decisions.OverflowExactly`, `Decisions.OverflowStops`).
* The senders of all transactions still followed stay locked exactly if no builder gives up for
  want of operations while it follows one (`Coverage.CoverageStep`, `Coverage.CarelessRun`). A
  builder whose tracker is about to be reset no longer follows its transactions, although they may
  still be on the network: an abandoned cancellation and an error in a step release locks that way.
* The depth of a reorganisation exceeds the window exactly for heads just below it
  (`ChainSync.SyncWindow`, `ChainSync.UnderflowExample`). With overflow checks the program panics
  there. Without them it replaces the window by the head and takes nothing back, so that what was
  mined in the lost blocks stays in every subscriber's log (`ChainSync.WrappedWindow`,
  `ChainLog.WrappedFold`).

## Model

| member | source | states |
|---|---|---|
| Storage.TracksUnion | crates/types/src/storage.rs:48-57 | the index shows exactly the union of the storages held |
| Storage.TracksAdd | crates/types/src/storage.rs:61-95 | merging a compatible storage keeps every count equal to the number of holders of its slot |
| Storage.TracksConflict | crates/types/src/storage.rs:70-76 | a slot that differs from the index differs from a storage held |
| Storage.TracksRemove | crates/types/src/storage.rs:97-116 | giving back a held storage keeps counts and slots exact |
| Storage.BundleExpectedStorage.Add | crates/types/src/storage.rs:61-95 | fails exactly on a conflicting value and then changes nothing; otherwise one more storage is held |
| Storage.BundleExpectedStorage.Remove | crates/types/src/storage.rs:97-116 | no count underflows; a slot goes with its last holder |
| Proposal.TakeOutFlat | crates/builder/src/bundle_proposer.rs:1503-1530 | rejecting by position removes that position of the flattened list |
| Proposal.TakeOutWellFormed | crates/builder/src/bundle_proposer.rs:1519-1529 | an emptied group goes, keys stay those of the operations, order is kept |
| Proposal.PurgeFlat | crates/builder/src/bundle_proposer.rs:1577-1618 | rejecting an entity keeps exactly the operations it is not responsible for, in order |
| Proposal.PurgeWellFormed | crates/builder/src/bundle_proposer.rs:1577-1618 | no group is left empty or under a foreign key |
| Proposal.AddOpWellFormed | crates/builder/src/bundle_proposer.rs:797-806 | an added operation goes to the group of its aggregator |
| Proposal.AddOpFlat | crates/builder/src/bundle_proposer.rs:797-806 | adding inserts one operation and keeps the others in order |
| Rejections.AmendKeeps | crates/builder/src/bundle_proposer.rs:1958-1975 | a decrement counts exactly the amendments made; an invalidation is not downgraded |
| Rejections.InvalidateKeeps | crates/builder/src/bundle_proposer.rs:1542-1553 | an invalidation may replace a decrement and upholds all others |
| Rejections.RejectIndexKeeps | crates/builder/src/bundle_proposer.rs:1503-1530 | conserves included plus rejected operations, storage surplus, order and accounting |
| Rejections.FilterRejectKeeps | crates/builder/src/bundle_proposer.rs:1577-1618 | the same for a rejected entity |
| Rejections.RejectEntityKeeps | crates/builder/src/bundle_proposer.rs:1534-1554 | the same with the entity invalidated |
| Rejections.ResignKeeps | crates/builder/src/bundle_proposer.rs:938-960 | the same for a group signed again or rejected because it cannot be |
| Amending.RejectEntityAmends | crates/builder/src/bundle_proposer.rs:1534-1618 | a rejected factory, sender or aggregator amends the paymaster of every operation that goes with it, once for each; a rejected paymaster amends nobody |
| Amending.RejectEntityUpdates | crates/builder/src/bundle_proposer.rs:1534-1554 | the entity is invalidated as staked or unstaked; the update of any other address counts up by exactly its operations that go, and an invalidation stays |
| Amending.RejectIndexUpdates | crates/builder/src/bundle_proposer.rs:1503-1530 | a rejected position amends its own paymaster if asked to, and no other address |
| Amending.RejectManyUpdates | crates/builder/src/bundle_proposer.rs:1958-1975 | so many amendments of an address add up to that decrement, from the first on |
| Amending.RejectAndSignAmends | crates/builder/src/bundle_proposer.rs:907-916 | a position rejected with its group amends all operations that go, except itself if not asked to |
| Amending.RejectAllAmends | crates/builder/src/bundle_proposer.rs:1494-1498 | rejecting everything amends every operation |
| Amending.DescendAmends | crates/builder/src/bundle_proposer.rs:1218-1234 | a post-operation revert amends every operation that goes |
| Amending.RejectHashesAmends | crates/builder/src/bundle_proposer.rs:894-905 | blamed hashes are not amended; operations of groups that cannot be signed again are |
| Amending.AscendAmends | crates/builder/src/bundle_proposer.rs:819-845 | nor are operations rejected for their conditions, with the same exception |
| Amending.ReactAmends | crates/builder/src/bundle_proposer.rs:962-1064 | for every answer of the entry point: amendments are the operations that go, less all of a blamed paymaster and less those blamed by hash |
| Rounds.RejectAndSignEffect | crates/builder/src/bundle_proposer.rs:907-916 | one operation goes; more go exactly when its group cannot be signed again |
| Rounds.RejectAllKeeps | crates/builder/src/bundle_proposer.rs:1494-1498 | everything is rejected and recorded |
| Rounds.ProcessRevertEffect | crates/builder/src/bundle_proposer.rs:1034-1062 | a revert removes the blamed operations, or all if none is found |
| Rounds.ProcessFailedOpEffect | crates/builder/src/bundle_proposer.rs:1116-1174 | a failed operation, or everything of the entity its code blames, is rejected |
| Reactions.RejectEntityExactly | crates/builder/src/bundle_proposer.rs:1534-1618 | every operation the entity answers for goes, no copy of any other does, and the entity is invalidated |
| Reactions.RejectAndSignExactly | crates/builder/src/bundle_proposer.rs:907-916 | exactly that operation goes, or exactly its aggregator |
| Reactions.FailedOpFails | crates/builder/src/bundle_proposer.rs:1116-1174 | given up exactly if the position or the code is missing, or the factory or paymaster that the code blames |
| Reactions.FailedOpExactly | crates/builder/src/bundle_proposer.rs:1116-1174 | which of factory, paymaster and operation goes for which code, and as staked or not |
| Reactions.GuiltyExactly | crates/builder/src/bundle_proposer.rs:1176-1216 | a position is condemned exactly if it, or the first of its aggregated group, reverted, or if nobody did |
| Reactions.HashesGo | crates/builder/src/bundle_proposer.rs:894-905 | an operation with a blamed hash that no other has goes |
| Reactions.HashesSpare | crates/builder/src/bundle_proposer.rs:894-905 | one without stays, as long as its group can be signed |
| Reactions.RevertExactly | crates/builder/src/bundle_proposer.rs:1034-1062 | only blamed operations are rejected if one of them is there, and otherwise all |
| Reactions.SignatureRefused | crates/builder/src/bundle_proposer.rs:1022-1027 | an aggregator whose signature is refused goes with all its operations, as staked |
| Reactions.ReactFails | crates/builder/src/bundle_proposer.rs:962-1064 | which answers end the proposal |
| Rounds.RoundShrinks | crates/builder/src/bundle_proposer.rs:962-1064 | a round to be retried shrinks the bundle, unless an absent aggregator is blamed, and exactly then |
| Rounds.AbsentAggregatorStalls | crates/builder/src/bundle_proposer.rs:1022-1027 | in that case the bundle comes back unchanged |
| Positions.PostOpRejectionsAscending | crates/builder/src/bundle_proposer.rs:1176-1234 | the positions to reject are strictly ascending and in range |
| Positions.PostOpExact | crates/builder/src/bundle_proposer.rs:1176-1234 | a post-operation revert removes exactly the guilty operations if and only if every touched group is signed again |
| Positions.PostOpPurges | crates/builder/src/bundle_proposer.rs:1176-1234 | a guilty group that cannot be signed in part goes at once; the rest of its positions hit later operations or run off the end |
| Positions.DescendExact | crates/builder/src/bundle_proposer.rs:1218-1234 | rejecting them from last to first removes exactly those positions, if and only if every group is signed again |
| Positions.SecondSurvives | crates/builder/src/bundle_proposer.rs:835-842 | rejecting upwards, the second listed operation always survives, as long as groups can be signed again |
| Positions.AscendExact | crates/builder/src/bundle_proposer.rs:819-845 | rejecting distinct operations upwards is exact if and only if at most one position is listed and what is left of its group can be signed again |
| Positions.AscendFails | crates/builder/src/bundle_proposer.rs:819-845 | rejecting upwards runs off the end exactly if the last position plus the rejections before it does |
| Positions.PurgeFreshness | crates/builder/src/bundle_proposer.rs:1590-1612 | signatures stay fresh exactly if no aggregated group is hit in part |
| Positions.RoundFreshness | crates/builder/src/bundle_proposer.rs:962-1064 | when all signatures are fresh after a round |
| BundleGas.AggregatedBytesTotal | crates/builder/src/bundle_proposer.rs:1682-1716 | the aggregated layout has three words per group, one per operation, and the signatures |
| GasFigures.GasOfEach | crates/builder/src/bundle_proposer.rs:1736-1746 | each operation brings exactly its computation gas and, if counted, its own and its sponsored data-availability gas |
| GasFigures.FloorOfEach | crates/builder/src/bundle_proposer.rs:1748-1753 | and exactly its calldata floor |
| GasFigures.SizeOfEach | crates/builder/src/bundle_proposer.rs:1649-1665 | and exactly its encoded size, with 125 bytes for an authorization |
| GasFigures.AggregatorOfEach | crates/builder/src/bundle_proposer.rs:1698-1734 | each aggregated group brings exactly its fixed gas and the two parts of its signature length |
| GasFigures.OverheadExact | crates/builder/src/bundle_proposer.rs:1682-1716 | the overhead of both layouts, word by word |
| GasFigures.GasLimitExact | crates/builder/src/bundle_proposer.rs:1718-1760 | the limit covers execution and calldata and is one of the two |
| GasFigures.FiguresExact | crates/builder/src/bundle_proposer.rs:1649-1680 | which of them counts data-availability gas, and what the cost and the size are made of |
| GasFigures.OverheadPercent | crates/builder/src/bundle_proposer.rs:969-976 | the estimate is 105% rounded down, the fee to assemble for 90% rounded down |
| GasFigures.EstimateCovers | crates/builder/src/bundle_proposer.rs:969-976 | the estimate covers the execution and the calldata of the bundle and of whatever is left of it |
| BundleGas.OverheadShrinks | crates/builder/src/bundle_proposer.rs:1682-1716 | overhead bytes do not grow when operations go, across the switch between the two layouts |
| BundleGas.LimitsShrink | crates/builder/src/bundle_proposer.rs:1649-1760 | nor do the gas limit with its calldata floor and the transaction size |
| BundleGas.EstimateWithinFee | crates/builder/src/bundle_proposer.rs:969-976 | 90% buffer, 5% overhead and removals compose to at most 94.5% of the balance |
| AssemblyLaws.ProcessViolationsKeeps | crates/builder/src/bundle_proposer.rs:1773-1895 | a failed simulation amends its paymaster at most once and downgrades nothing |
| Blaming.BlameAllExactly | crates/builder/src/bundle_proposer.rs:1898-1956 | an address that is named is invalidated for the last violation naming it, as staked by its info or for want of one; any other keeps its update |
| Blaming.NamesExactly | crates/builder/src/bundle_proposer.rs:1773-1895 | which violations name whom; nonce errors and deployed senders name nobody |
| Blaming.ViolationsExactly | crates/builder/src/bundle_proposer.rs:1773-1895 | a staked factory answers, else a staked sender, else everybody named; when the paymaster is amended |
| Blaming.PanicsExactly | crates/builder/src/bundle_proposer.rs:1773-1895 | reading panics exactly if nobody staked answers and a message is shorter than its code |
| AssemblyLaws.ConsiderKeeps | crates/builder/src/bundle_proposer.rs:619-806 | one candidate keeps conservation, limits, deposits, isolation and the record of leaks |
| AssemblyLaws.DrawSound | crates/builder/src/bundle_proposer.rs:592-817 | the same for every list of candidates |
| Decisions.DecideExactly | crates/builder/src/bundle_proposer.rs:673-789 | dropped, skipped after merging, blamed or taken: each exactly for its reasons, in their order |
| Decisions.DrawTarget | crates/builder/src/bundle_proposer.rs:673-795 | nothing more is taken exactly once the operations reach the gas target |
| Decisions.SlotsOfBundle | crates/builder/src/bundle_proposer.rs:738-758 | the operations of a bundle expect no more slots than the limit, after any rejections |
| Decisions.OverflowExactly | crates/builder/src/bundle_proposer.rs:738-758 | more slots than the limit are held exactly if a candidate was skipped for its slots |
| Decisions.OverflowStops | crates/builder/src/bundle_proposer.rs:738-758 | and then nothing more is taken |
| Decisions.LeaksExactly | crates/builder/src/bundle_proposer.rs:738-789 | for which reasons a storage is counted too many |
| Decisions.DrawRejects | crates/builder/src/bundle_proposer.rs:619-671 | the assembly rejects exactly the candidates that failed simulation or are out of time, in order |
| Decisions.OutOfTimeExactly | crates/builder/src/bundle_proposer.rs:641-671 | nobody answers for an operation out of time |
| Decisions.BlamedExactly | crates/builder/src/bundle_proposer.rs:776-789 | a paymaster is blamed exactly if its deposit, less what is taken of it, does not cover a candidate that is in order otherwise |
| AssemblyLaws.ShrunkDraft | crates/builder/src/bundle_proposer.rs:288-325 | limits, fee, deposits, known paymasters, isolation and conservation hold of whatever rejections leave of a draft |
| AssemblyLaws.StorageOfBundle | crates/builder/src/bundle_proposer.rs:738-785 | after any rejections, expected storage is that of the operations if and only if every candidate skipped after merging expects only slots they expect |
| AssemblyLaws.LeakHasCandidate | crates/builder/src/bundle_proposer.rs:738-785 | every storage counted too many was expected by a candidate skipped after merging |
| AssemblyLaws.CandidateLeaks | crates/builder/src/bundle_proposer.rs:738-785 | the storage of every such candidate is counted too many |
| AssemblyLaws.IndexUnique | crates/types/src/storage.rs:48-57 | the storages held determine the expected storage |
| AssemblyLaws.StorageCoversOps | crates/builder/src/bundle_proposer.rs:738-806 | each operation finds all its slots with its own values |
| AssemblyLaws.LeakExample | crates/builder/src/bundle_proposer.rs:738-785 | candidates whose draft holds a slot of no operation |
| Maximality.AddBoth | crates/builder/src/bundle_proposer.rs:700-736 | what an operation adds to a bundle is part of what it adds to a larger one |
| Maximality.DrawMaximal | crates/builder/src/bundle_proposer.rs:673-806 | for every skipped operation there is a reason in the finished draft: target, limits, conflict, slots, foreign sender, or a deposit that is unknown or used up |
| Maximality.SkippedStayRefused | crates/builder/src/bundle_proposer.rs:673-806 | no skipped operation could be taken into the finished draft |
| ProposalState.ProposalContext.GetOpAt | crates/builder/src/bundle_proposer.rs:1478-1487 | walks the groups to the position of the flattened list, or fails past its end |
| ProposalState.ProposalContext.GetOpIndex | crates/builder/src/bundle_proposer.rs:1489-1492 | finds the first position of a hash |
| ProposalState.ProposalContext.AddPaymasterAmendment | crates/builder/src/bundle_proposer.rs:1958-1975 | the update map as amended |
| ProposalState.ProposalContext.RejectOp | crates/builder/src/bundle_proposer.rs:1620-1632 | records the operation, amends, gives its storage back |
| ProposalState.ProposalContext.RejectIndex | crates/builder/src/bundle_proposer.rs:1503-1530 | the proposal without that position; the key returned is that of a group still there |
| ProposalState.ProposalContext.RejectAll | crates/builder/src/bundle_proposer.rs:1494-1498 | the proposal with everything rejected |
| ProposalState.ProposalContext.FilterReject | crates/builder/src/bundle_proposer.rs:1577-1618 | rebuilds the groups without the entity's operations, rejecting those in order |
| ProposalState.ProposalContext.RejectEntity | crates/builder/src/bundle_proposer.rs:1534-1575 | the same with the invalidation written |
| ProposalState.ProposalContext.ApplySignature | crates/builder/src/bundle_proposer.rs:1464-1476 | signs the group or rejects its aggregator |
| Signing.OpsUnderResign | crates/builder/src/bundle_proposer.rs:938-960 | applying one answer leaves the other groups as they were when asked about |
| Signing.ResignAllFresh | crates/builder/src/bundle_proposer.rs:929-960 | once all are asked, every group left is validly signed |
| Signing.ComputeAggregatorSignatures | crates/builder/src/bundle_proposer.rs:938-960 | asking all first and applying later equals signing one after the other |
| Signing.RejectIndexAndSign | crates/builder/src/bundle_proposer.rs:907-916 | rejects a position and signs what is left of its group |
| Retrying.RetriesAccepted | crates/builder/src/bundle_proposer.rs:288-325 | what the rounds come to was accepted as it is, or is one operation for an entry point newer than 0.6; its gas is below 2 to the 64 |
| Loops.EndsUnlessStuck | crates/builder/src/bundle_proposer.rs:288-325 | a loop whose turns shrink its state unless it is stuck goes on for ever exactly if it reaches a stuck state |
| Retrying.StallsExactly | crates/builder/src/bundle_proposer.rs:288-325 | every number of rounds is made exactly if a bundle that is reached is refused for an absent aggregator; otherwise there are no more rounds than operations |
| Retrying.GivesUpExactly | crates/builder/src/bundle_proposer.rs:288-325 | the rounds are given up exactly if they reach a bundle too large for 64-bit gas or one whose round fails |
| Retrying.RetriesAfter | crates/builder/src/bundle_proposer.rs:288-325 | where the rounds lead is the same from every proposal on the way |
| Retrying.AllUnmet | crates/builder/src/bundle_proposer.rs:303-312 | if the conditions of all operations fail, one is dropped to an empty bundle, two or more end in an error |
| Retrying.ChecksExactly | crates/builder/src/bundle_proposer.rs:303-312 | conditions are checked exactly if one failed before, on the accepted bundle, whose gas is kept |
| Retrying.OneUnmet | crates/builder/src/bundle_proposer.rs:303-312 | of two or more operations, one whose condition fails is dropped and no other |
| Retrying.NeverStalls | crates/builder/src/bundle_proposer.rs:288-325 | it ends if only aggregators in use are blamed |
| Retrying.SignEachFresh | crates/builder/src/bundle_proposer.rs:929-960 | after assembly every group left is validly signed |
| Retrying.AssembledRejects | crates/builder/src/bundle_proposer.rs:807-817 | an assembled proposal is the draft less recorded rejections |
| Retrying.RejectEachExactly | crates/builder/src/bundle_proposer.rs:809-812 | each blamed paymaster in turn loses its operations, no others, and is invalidated as its info says |
| Retrying.ShortLosesAll | crates/builder/src/bundle_proposer.rs:809-812 | a paymaster that could not pay for a candidate is invalidated and has no operation in the bundle |
| Retrying.NothingToSpend | crates/builder/src/bundle_proposer.rs:602-605 | without balance nothing is bundled and nobody rejected |
| Retrying.Concluded | crates/builder/src/bundle_proposer.rs:296-325 | so is the final one; its gas is the estimate of an accepted bundle that contains it |
| Freshness.RoundEvolves | crates/builder/src/bundle_proposer.rs:962-1064 | what a round leaves of a group that loses operations is freshly signed exactly if no entity was rejected; other groups stay as they are |
| Freshness.RetriesFreshness | crates/builder/src/bundle_proposer.rs:288-325 | a group of the accepted bundle is fresh exactly if the last round that took operations from it did not reject an entity |
| Freshness.BundleFreshness | crates/builder/src/bundle_proposer.rs:288-325 | all signatures of the final bundle are fresh exactly if that holds of all its aggregated groups, conditions checked or not |
| Freshness.UnhitFresh | crates/builder/src/bundle_proposer.rs:1577-1618 | they are if no round rejects an entity that has a part of an aggregated group |
| Freshness.StaleRun | crates/builder/src/bundle_proposer.rs:978-984 | of two operations under one aggregator, one is left unsigned and sent without being asked about |
| Freshness.StaleExample | crates/builder/src/bundle_proposer.rs:1590-1612 | a returned bundle with a group that nobody signed |
| BundleProposer.LimitForSimulation | crates/builder/src/bundle_proposer.rs:1323-1368 | keeps supported operations in order; one left out does not fit in what remains |
| BundleProposer.LimitedLaws | crates/builder/src/bundle_proposer.rs:1323-1368 | what is kept is supported, in order and fits; what is left out does not fit in what remains |
| BundleProposer.LimitedPrefix | crates/builder/src/bundle_proposer.rs:1323-1368 | first come, first served |
| BundleProposer.Simulate | crates/builder/src/bundle_proposer.rs:261-279 | the candidates are the operations with a verdict |
| BundleProposer.SimulatedExactly | crates/builder/src/bundle_proposer.rs:544-590 | each operation with a verdict is a candidate with that verdict, as often as it was given |
| BundleProposer.ProcessSimulationViolations | crates/builder/src/bundle_proposer.rs:1773-1895 | blames a staked factory, else a staked sender, else each violation's entity; fails exactly on a message too short for its code |
| BundleProposer.ConsiderValid | crates/builder/src/bundle_proposer.rs:673-806 | takes, skips or skips after merging, check by check in order, as `Decisions.DecideExactly` says |
| BundleProposer.AssembleDraft | crates/builder/src/bundle_proposer.rs:592-806 | builds the draft in place, unless a message cannot be read |
| BundleProposer.AssembleContext | crates/builder/src/bundle_proposer.rs:592-817 | then rejects paymasters that cannot pay and signs; every group left is validly signed |
| BundleProposer.CollectPostOp | crates/builder/src/bundle_proposer.rs:1176-1216 | the positions a post-operation revert condemns |
| BundleProposer.ProcessPostOpRevert | crates/builder/src/bundle_proposer.rs:1176-1234 | rejects them from the last, conserving operations even if it fails |
| BundleProposer.CheckConditionsMet | crates/builder/src/bundle_proposer.rs:819-845 | rejects the listed positions from the first |
| BundleProposer.ProcessRevertedBundle | crates/builder/src/bundle_proposer.rs:1034-1062 | rejects blamed hashes, or everything when none was there |
| BundleProposer.ProcessFailedOperation | crates/builder/src/bundle_proposer.rs:1116-1174 | rejects by the code of the failure; gives up, and changes nothing, on a message too short for a code |
| BundleProposer.EstimateGasRejectingFailedOps | crates/builder/src/bundle_proposer.rs:962-1064 | one round, for every answer: accepted unchanged, to be retried with the same conclusion and smaller unless it stalls, or given up |
| BundleProposer.RepeatRounds | crates/builder/src/bundle_proposer.rs:288-325 | for any number of rounds: still going exactly if that many leave something to ask about, and with which proposal; else their conclusion |
| BundleProposer.Settle | crates/builder/src/bundle_proposer.rs:288-325 | the same with the conditions checked once more |
| BundleProposer.UnfinishedNeverEnds | crates/builder/src/bundle_proposer.rs:288-325 | given as many rounds as operations, it is unfinished exactly if it never ends |
| BundleProposer.MakeBundle | crates/builder/src/bundle_proposer.rs:187-333 | the bundle, storage included, is a function of the answers; gas at the fee is within the balance and covers execution and calldata; limits, slots, deposits and isolation hold; every candidate is bundled, rejected or skipped once; when storage is exact and signatures are fresh |
| Locks.AssignReturns | crates/builder/src/assigner.rs:85-126 | the first operations no other builder holds, up to the maximum but at least one |
| Locks.AssignExtends | crates/builder/src/assigner.rs:85-126 | locks their senders, no others, and changes no lock held |
| Locks.ConfirmExactly | crates/builder/src/assigner.rs:155-225 | the builder keeps exactly what it had confirmed and confirms now, all confirmed; nobody else is affected |
| Locks.ReleaseExactly | crates/builder/src/assigner.rs:229-256 | the builder keeps nothing, the others everything |
| Locks.ConfirmedStep | crates/builder/src/assigner.rs:155-256 | a confirmed lock survives an action exactly if that is not its builder's release |
| Locks.ConfirmedSurvives | crates/builder/src/assigner.rs:71-256 | the same over every run of all builders |
| Locks.OthersUntouched | crates/builder/src/assigner.rs:71-256 | no action changes what another builder holds |
| Assigning.Assigner.AssignOperations | crates/builder/src/assigner.rs:71-143 | assigns entry by entry; the two maps stay inverse, no entry is empty, gauges show the true counts |
| Assigning.Assigner.ConfirmSendersDropUnused | crates/builder/src/assigner.rs:155-225 | confirms and drops with the same invariant; no panic under its preconditions |
| Assigning.Assigner.Release | crates/builder/src/assigner.rs:229-256 | lets go of everything the builder holds with the same invariant |
| Tracking.SendKeeps | crates/builder/src/transaction_tracker.rs:330-410 | each transaction sent raises both fees by the percentage over the last one sent unless exempt |
| Tracking.CancelKeeps | crates/builder/src/transaction_tracker.rs:412-491 | so does each cancellation; a soft one empties the list |
| Tracking.UpdateKeeps | crates/builder/src/transaction_tracker.rs:493-558 | a reported update raises the nonce and empties the list; otherwise only the balance changes |
| Tracking.ReportFails | crates/builder/src/transaction_tracker.rs:523-555 | an update fails exactly if a mined transaction has an unreadable receipt |
| Tracking.ReportEarliest | crates/builder/src/transaction_tracker.rs:523-555 | the transaction reported is the earliest with a receipt |
| Tracking.FeesCompound | crates/builder/src/transaction_tracker.rs:307-321 | fees along unexempted transactions grow geometrically |
| TrackerLaws.AcceptableExactly | crates/builder/src/transaction_tracker.rs:205-229 | accepted exactly for the current nonce and at least the percentage more than the last recorded, unless there is none or it is abandoned |
| TrackerLaws.IncreaseExactly | crates/types/src/gas.rs:28-36 | fees replace others exactly if both are the percentage more, without rounding |
| TrackerLaws.SendExactly | crates/builder/src/transaction_tracker.rs:330-410 | what is recorded, counted and reported for every answer; an underpriced one only if it outbids the last |
| TrackerLaws.CancelFeesExactly | crates/builder/src/transaction_tracker.rs:412-445 | the least fees that are both as estimated and enough to replace the last transaction sent |
| TrackerLaws.CancelExactly | crates/builder/src/transaction_tracker.rs:412-491 | the same for a cancellation; refused for its price it counts as a refused replacement |
| TrackerLaws.UpdateExactly | crates/builder/src/transaction_tracker.rs:493-558 | reaching the nonce moves on to the one after the update and forgets everything; otherwise only the balance changes |
| Percent.CeilBounds | crates/utils/src/math.rs:48-61 | rounding of the two percentages |
| Percent.IncreaseMonotone | crates/types/src/gas.rs:28-36 | increasing is monotone in both fees |
| Percent.LadderCompounds | crates/utils/src/math.rs:56-61 | rounding never eats the compounding |
| Trackers.TransactionTracker.SendTransaction | crates/builder/src/transaction_tracker.rs:330-410 | validates, records what was sent or refused as underpriced, keeps the invariant |
| Trackers.TransactionTracker.CancelTransaction | crates/builder/src/transaction_tracker.rs:412-491 | prices from the last transaction sent, records, keeps the invariant |
| Trackers.TransactionTracker.ProcessUpdate | crates/builder/src/transaction_tracker.rs:493-558 | scans from the last to the first, then clears for the next nonce |
| Trackers.TransactionTracker.NumPendingTransactions | crates/builder/src/transaction_tracker.rs:323-328 | the number of entries that reached the network |
| Trackers.TransactionTracker.Reset | crates/builder/src/transaction_tracker.rs:560-573 | keeps nonce and balance when the account cannot be read |
| Trackers.TransactionTracker.Abandon | crates/builder/src/transaction_tracker.rs:575-582 | tracks on, without requiring higher fees |
| Trackers.TransactionTracker.Unabandon | crates/builder/src/transaction_tracker.rs:584-586 | requires higher fees again |
| Machines.WaitKeeps | crates/builder/src/bundle_sender.rs:1038-1075 | a due reset is done first; an update raises the nonce, empties the list and never comes with a reset |
| Machines.SendBundleKeeps | crates/builder/src/bundle_sender.rs:649-762 | success exactly if offered, acceptable and accepted; then the last transaction is that bundle |
| Machines.BuildingKeeps | crates/builder/src/bundle_sender.rs:266-379 | what a building step leads to keeps the machine's invariant |
| Transitions.CancelsExactly | crates/builder/src/bundle_sender.rs:266-379 | a builder starts to cancel exactly if the fees leave nothing, it is marked underpriced and the mark is as old as the maximum |
| Transitions.PendsExactly | crates/builder/src/bundle_sender.rs:266-379 | it waits exactly for a bundle that was sent, until the deadline |
| Transitions.MarkExactly | crates/builder/src/bundle_sender.rs:1163-1195 | the mark is set by a refusal for price, keeps the block of the first, counts rounds, and survives exactly refusals, failed conditions and attempts without operations |
| Transitions.IncreasesExactly | crates/builder/src/bundle_sender.rs:1155-1195 | which attempts raise, keep and reset the number of fee increases |
| Transitions.TriggerExactly | crates/builder/src/bundle_sender.rs:266-379 | which attempts are repeated at once |
| Transitions.AbandonsExactly | crates/builder/src/bundle_sender.rs:266-379 | transactions are abandoned exactly if a raised price finds no operations, until one is in the way |
| Transitions.AttemptExactly | crates/builder/src/bundle_sender.rs:649-762 | what comes of an attempt, for every proposal and answer |
| Transitions.SettledExactly | crates/builder/src/bundle_sender.rs:614-641 | which locks are left after each kind of attempt |
| Transitions.WaitExactly | crates/builder/src/bundle_sender.rs:1038-1075 | who waits for a trigger and what is done with its update |
| Transitions.WakeUpExactly | crates/builder/src/bundle_sender.rs:235-243 | all locks go exactly on an update or an error |
| Transitions.AssignExactly | crates/builder/src/bundle_sender.rs:600-607 | which operations are taken and locked |
| Transitions.FetchExactly | crates/builder/src/bundle_sender.rs:608-612 | all locks go exactly if the pool returns nothing |
| Transitions.SendPieceExactly | crates/builder/src/bundle_sender.rs:614-641 | sending settles the locks by its outcome and ends the step |
| Transitions.CheckExactly | crates/builder/src/bundle_sender.rs:381-452 | waiting leaves the locks alone |
| Transitions.CancelPieceExactly | crates/builder/src/bundle_sender.rs:454-593 | an episode lets go of all locks exactly on a soft cancellation or when abandoned at the maximum |
| Transitions.MarkHistory | crates/builder/src/bundle_sender.rs:1163-1195 | in every run a mark comes from a refusal of one of the builder's own bundles at the block it carries |
| Transitions.CancelHistory | crates/builder/src/bundle_sender.rs:266-379 | so in every run from the start, a builder that starts to cancel was refused as many blocks ago as the maximum |
| Transitions.CancellingRun | crates/builder/src/bundle_sender.rs:266-379 | a run from the start that cancels, under all settings |
| Transitions.CancelPendingRun | crates/builder/src/bundle_sender.rs:454-534 | and one that waits for its cancellation |
| Machines.PendingKeeps | crates/builder/src/bundle_sender.rs:381-452 | so does waiting; an update always leads to building |
| Transitions.PendingExactly | crates/builder/src/bundle_sender.rs:381-452 | when a builder goes on waiting, builds afresh, starts over or raises its price |
| Machines.CancellingKeeps | crates/builder/src/bundle_sender.rs:454-534 | so does cancelling, within the maximum of fee increases |
| Transitions.CancellingExactly | crates/builder/src/bundle_sender.rs:454-534 | when a cancellation is waited for, raised or ends the episode; only a soft one releases locks |
| Machines.CancelPendingKeeps | crates/builder/src/bundle_sender.rs:536-593 | so does waiting for a cancellation |
| Transitions.CancelPendingExactly | crates/builder/src/bundle_sender.rs:536-593 | when it is raised or abandoned, which alone releases locks |
| Machines.CancelStepRank | crates/builder/src/bundle_sender.rs:454-593 | a step of an episode ends it, brings its end closer or waits for a deadline |
| Machines.EpisodeEnds | crates/builder/src/bundle_sender.rs:1214-1245 | at most the maximum plus one cancellations are issued; the episode ends after its rank and one step more for each that comes before a deadline |
| Episodes.MoveCloser | crates/builder/src/bundle_sender.rs:454-593 | a move of a cancelling builder ends the episode, brings its end closer, or checks before the deadline |
| Episodes.EpisodeEndsInRun | crates/builder/src/bundle_sender.rs:454-593 | in every run of the system the episode ends within its distance and two moves more for every early check |
| Episodes.EpisodeEndsWithBlocks | crates/builder/src/bundle_sender.rs:1060-1075 | if each check sees a later block, within the moves that remain until the deadlines |
| Episodes.EpisodeBound | crates/builder/src/bundle_sender.rs:1060-1075 | so within (2 * blocks to wait + 4) * (fee increases + 1) of the builder's own moves |
| Builders.StepKeeps | crates/builder/src/bundle_sender.rs:235-264 | every piece of a step keeps a builder and the locks in order |
| Builders.StepActs | crates/builder/src/bundle_sender.rs:595-641 | each piece calls the assigner at most once and never in a way that panics |
| Builders.StepLocal | crates/builder/src/bundle_sender.rs:595-641 | and leaves what the others hold alone |
| Builders.WholeStepCancels | crates/builder/src/bundle_sender.rs:235-264 | uninterrupted steps of a cancelling builder are those of an episode |
| Builders.NextOk | crates/builder/src/bundle_sender.rs:157-181 | every move of any builder keeps the whole system in order |
| Builders.RunOk | crates/builder/src/bundle_sender.rs:157-181 | so does every run |
| Builders.PendingBundlesDisjoint | crates/builder/src/bundle_sender.rs:235-264 | in every interleaving, bundles being waited for are confirmed to their builders and share no sender |
| Builders.ReachableStates | crates/builder/src/bundle_sender.rs:980-988 | waiting implies a transaction sent and no reset due; an update finds no transactions and no locks |
| Coverage.CoverageStep | crates/builder/src/bundle_sender.rs:608-641 | all outstanding senders stay locked exactly if the piece does not give up for want of operations |
| Coverage.OutstandingDisjoint | crates/builder/src/bundle_sender.rs:595-641 | in runs without that, transactions that two builders follow never share a sender |
| Coverage.CarelessRun | crates/builder/src/bundle_sender.rs:608-612 | a run that loses a lock while its transaction is outstanding |
| Senders.BundleSender.WakeUp | crates/builder/src/bundle_sender.rs:235-243 | waits, and releases all locks on an update or an error |
| Senders.BundleSender.BeginAssign | crates/builder/src/bundle_sender.rs:600-607 | takes operations from the assigner |
| Senders.BundleSender.Fetched | crates/builder/src/bundle_sender.rs:608-612 | releases everything when there are none |
| Senders.BundleSender.SendHeld | crates/builder/src/bundle_sender.rs:614-641 | sends, settles the locks, moves on |
| Senders.BundleSender.HandleBuildingState | crates/builder/src/bundle_sender.rs:266-379 | the pieces of a building step in order, each as `Transitions` says |
| Senders.BundleSender.HandlePendingState | crates/builder/src/bundle_sender.rs:381-452 | the piece for a sent bundle |
| Senders.BundleSender.HandleCancellingState | crates/builder/src/bundle_sender.rs:454-534 | the piece for a cancellation |
| Senders.BundleSender.HandleCancelPendingState | crates/builder/src/bundle_sender.rs:536-593 | the piece for a sent cancellation |
| Senders.BundleSender.StepState | crates/builder/src/bundle_sender.rs:235-264 | an uninterrupted step on the real objects is its pieces one after the other |
| Senders.Interleave | crates/builder/src/bundle_sender.rs:157-181 | a piece of one sender on a shared assigner is one move of the system and leaves all senders in order |
| Offers.BundledGiven | crates/builder/src/bundle_sender.rs:649-700 | a bundle has only senders of operations given to the proposer |
| Offers.OfferExactly | crates/builder/src/bundle_sender.rs:649-700 | what each outcome of the proposer is to the builder; a bundle is offered with exactly its senders |
| Offers.MakeOffer | crates/builder/src/bundle_sender.rs:649-700 | a builder can always go on with what the proposer makes of the operations it holds |
| Senders.RunMoves | crates/builder/src/bundle_sender.rs:157-181 | every run of the system is one of the objects |
| Signers.SignerManager.LeaseSigner | crates/signer/src/manager.rs:201-214 | leases an address not leased, for which the wallet has a signer, and fails exactly if none is available |
| Signers.SignerManager.LeaseSignerByAddress | crates/signer/src/manager.rs:216-228 | leases that address exactly if it is available |
| Signers.SignerManager.ReturnLease | crates/signer/src/manager.rs:230-239 | an outstanding lease can be returned without panic; only its signer changes |
| Signers.SignerManager.UpdateSignerStatuses | crates/signer/src/manager.rs:310-348 | marks who needs funding by the last balance reported and never changes who is leased |
| Signers.SignerManager.CreateBuilders | crates/builder/src/task.rs:372-392 | builders run on pairwise different addresses; fewer than asked for only if no signer is left available; the others' statuses stay |
| ChainSync.LoadBackGives | crates/pool/src/chain.rs:711-741 | loading back gives linked blocks down to the number asked for |
| ChainSync.ConnectGives | crates/pool/src/chain.rs:632-685 | connecting ends on a known parent or where the window ends, and never goes further |
| ChainProgress.LoadBackFollows | crates/pool/src/chain.rs:711-741 | loading back succeeds on every linked chain the node has, and gives it from the number asked for |
| ChainProgress.ConnectFollows | crates/pool/src/chain.rs:632-685 | connecting succeeds on every such chain and goes back exactly to the block that meets the window |
| ChainProgress.LoadBackFails | crates/pool/src/chain.rs:711-741 | loading back fails exactly if a parent on the way is missing |
| ChainProgress.ConnectFails | crates/pool/src/chain.rs:632-685 | so does connecting |
| ChainProgress.SyncFollows | crates/pool/src/chain.rs:466-497 | a sync follows every chain within reach that connects to the window, with exactly that depth |
| ChainProgress.ResetFollows | crates/pool/src/chain.rs:499-536 | a reset follows every chain of the history's length and clears the errors |
| ChainProgress.SyncFailsExactly | crates/pool/src/chain.rs:466-497 | a sync fails exactly if the head is too far behind for less than the fiftieth time in a row, or a block or its logs are missing; which failures count |
| ChainProgress.OneBlockReplaced | crates/pool/src/chain.rs:541-629 | a reorganisation of one block |
| ChainSync.AddedBlocks | crates/pool/src/chain.rs:632-685 | at most history plus window blocks are added |
| ChainSync.ResetWindow | crates/pool/src/chain.rs:499-536 | a reset loads exactly the history, or all blocks there are |
| ChainSync.SyncWindow | crates/pool/src/chain.rs:466-497 | after a sync the window is non-empty, bounded, linked and ends at the head; when the depth has no answer |
| ChainSync.UnderflowHead | crates/pool/src/chain.rs:584-591 | with a full window that is exactly the head just below it |
| ChainSync.UnderflowExample | crates/pool/src/chain.rs:584-591 | such a head |
| ChainSync.WrappedWindow | crates/pool/src/chain.rs:588-605 | without overflow checks such a head replaces the window and nothing is unmined |
| ChainLog.WrappedFold | crates/pool/src/chain.rs:588-605 | the log then keeps what the lost blocks held |
| ChainSync.DeepReorg | crates/pool/src/chain.rs:601 | a reorganisation is reported as deeper than history exactly if a full window was replaced |
| ChainLog.SyncShape | crates/pool/src/chain.rs:541-629 | what a sync keeps of the window and what its update carries |
| ChainLog.FoldUpdate | crates/pool/src/chain.rs:546-605 | what is unmined is exactly the end of the log, for operations and balance updates |
| ChainLog.LogsOfRun | crates/pool/src/chain.rs:541-629 | over every run the folded logs are those of the blocks not taken back and end with the window |
| ChainLog.PastLinked | crates/pool/src/chain.rs:632-685 | without skipped gaps and deep reorganisations these blocks are one linked chain |
| ChainLog.DedupNet | crates/pool/src/chain.rs:1082-1104 | cancelling out leaves no hash on both sides and has the same net effect exactly if common hashes were mined |
| ChainLog.DedupInRun | crates/pool/src/chain.rs:1082-1104 | in a run they were |
| ChainWatcher.Chain.LoadBlocksBackToNumber | crates/pool/src/chain.rs:711-741 | the loop that loads back |
| ChainWatcher.Chain.LoadAddedBlocks | crates/pool/src/chain.rs:632-685 | the loop that connects, which fails and succeeds as `ChainProgress` says |
| ChainWatcher.Chain.UpdateWithBlocks | crates/pool/src/chain.rs:541-629 | pops, appends and forgets in place, with and without overflow checks |
| ChainWatcher.Chain.ResetAndInitialize | crates/pool/src/chain.rs:499-536 | replaces the window, or leaves it when loading fails |
| ChainWatcher.Chain.SyncToBlock | crates/pool/src/chain.rs:466-497 | keeps the window in order, with and without overflow checks; a failed sync leaves it unchanged |
| ChainWatcher.DedupedOps | crates/pool/src/chain.rs:1084-1104 | filters both lists; no hash is left on both |
| Funding.SortCorrect | crates/signer/src/funding.rs:155-156 | the sorted list is ordered and has the same elements |
| Funding.NeededExact | crates/signer/src/funding.rs:133-143 | targets are exactly the low holdings, topped up exactly |
| Funding.CostExactly | crates/signer/src/funding.rs:158-192 | what a batch costs and its gas limit, number by number |
| Funding.TotalExactly | crates/signer/src/funding.rs:158-192 | each target brings exactly its amount |
| Funding.CandidatesExactly | crates/signer/src/funding.rs:155-158 | at most the first 128 targets are candidates |
| Funding.PopUntilAffordable | crates/signer/src/funding.rs:194-201 | pops to the longest affordable prefix without going below zero |
| Funding.ChooseBatch | crates/signer/src/funding.rs:123-219 | the batch is that prefix, value and gas within the balance; fails exactly if not one call is affordable |
| Funding.NeediestFirst | crates/signer/src/funding.rs:155-158 | no target left out needs more than one funded |
| Funding.CallsTopUp | crates/signer/src/funding.rs:133-143 | every call brings a low holding exactly to the target balance |

## Left out

- Fee estimation, the fee filter and data-availability gas of operations: single decisions whose results are taken as given numbers.
- Integer widths: gas, fees, nonces and block numbers are unbounded, except for the 64-bit check of the gas estimate.
- Storage.BundleExpectedStorage.Add: the two-level map from address to slot is one map from pairs, so the removal of empty inner maps is not modelled.
- BundleProposer.MakeBundle: an operation carries one set of entity infos for the pool and its simulation, both time-range checks are one verdict, and a panic counts as an error.
- Messages of the entry point are taken to be ASCII: the program cuts codes off by bytes.
- ChainSync.SyncWindow: assumes that a node returns the block whose hash was asked for.
- Builders.NextOk: assumes that the pool returns operations it was asked for.
- The update type for a dropped transaction: the tracker never reports it.
- Address updates of the chain window, flashblocks and preconfirmed operations: they add no law about the window.
- Removing operations of a reverted bundle from the pool, metrics other than the assigner's gauges, events and logging.
- Waiting for the funding transaction and its data-availability estimate: calls to the node.
