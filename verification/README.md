# Budget escrow, index outboxes, activation, belief governance and admission

A Dafny 4.11 model of the stateful core of the program: what its transactions, workers and loops do,
and proofs of what they keep over all inputs and all runs. `dafny verify dfyconfig.toml` checks it.

The model has the program's own parts.

- **Budget vectors** (`BudgetVectors`): checked, canonical, multi-dimensional amounts.
- **Budget ledger** (`LedgerModel` and the modules named Ledger...): accounts, nested reservations and
  spend events as one state machine, where each call decides on an effect and commits it or throws.
  `BudgetLedgers` is the class with the statements and rollbacks, proved against that machine.
  `AccountTree` builds and checks a program's tree of accounts, `RootLimit` says when its root limit holds.
- **Model calls** (`Pricing`, `ModelCalls`): the price of a call and the life of its reservation.
- **Memory index outbox** (`OutboxModel`, `OutboxSafety`, `OutboxDrain`, `OutboxStuck`, `OutboxLeases`): the queue
  between the canonical memories and a vector index, one worker writing the index while the repository
  changes under it. `OutboxRepositories` and `OutboxWorkers` are the classes.
- **Knowledge index outbox** (`KnowledgeOutbox`, `SemanticOutboxes`): the queue that revives rows.
- **Collection activation** (`Activation`, `MigrationFiles`): manifests, registry and pointer as files
  written one at a time by a process that may stop between any two.
- **Belief governance** (`Governance`, `GovernanceTheorems`, `BeliefRepositories` and the modules named
  Governor...): candidates merged, disputed, activated and superseded, one by one and in batches.
- **Admission** (`DependencyOrder`, `Scheduling`, `Estimates`, `Admission`) and the **chunker** (`Chunker`).
- `LedgerEffects`, `Partitions`, `OutboxEffects`, `KnowledgeEffects`, `ActivationEffects`, `GovernanceEffects` and
  `AdmissionEffects` say what each operation does column by column, in the terms of the tables alone.
- `Wrappers`, `Totals`, `Graphs` and `Ranking` hold what they share: options and results, sums over
  tables, paths and cycles, sorting with a limit.

Inputs from outside the model are universally quantified: provider reports, index refusals and durability
checks, crash points, clocks, lease lengths and random draws.

## Findings

Properties the code does not have on every input, each with a concrete input and the exact condition.

- `settle` compares the usage with what was reserved and not with what is left. After a child has drawn on
  an envelope, settling the envelope breaks the limit (`OverspendWithoutDiscipline`). `BoundKeptExactly` says
  when the bound is kept, `ChildSettlementExact` and `TopSettlementExact` when escrow is conserved and the
  committed total does not rise. A caller that settles only reservations without children always meets
  this (`LeafRunKeepsBooks`), and model calls are such (`CallsKeepBooks`).
- Reserving is checked against one account at a time, and the execution account shares its limit with its
  two children. All accounts can be filled, which passes the root limit (`CanBeFilled`), unless nothing is
  allocated to those children (`RootLimitHoldsExactly`).
- The memory outbox does not converge. An upsert that failed and is retried after a newer mutation completed
  undoes it, and queueing that mutation again does not revive its completed row (`EmptyProjectCanGetStuck`,
  `StuckForGood`): in every later validation an active memory is missing and a removed one stale. A mutation
  is carried out for certain exactly under the condition of `CarriedOutExactly`.
- The knowledge outbox revives rows and settles after two rounds (`TwoRoundsStabilise`). One is not enough
  (`OneRoundIsNotEnough`), exactly when an older row is still open (`OneRoundExactly`).
- Starting a second activation after a crash, without recovering first, can leave a manifest and the
  registry in disagreement (`SecondActivationExact`, `UnrecoveredCrashShows`).
- Resuming a failed build, or rolling back, while another collection is building writes the manifest before
  the registry refuses (`ResumeBesideBuild`, `PersistSettledExactly`).
- The governor lists beliefs and then waits for embeddings. A belief confirmed meanwhile is still listed as a
  candidate; the cap of twenty can leave it out of the matches of its denial, which is then activated too
  (`RaceBreaksTheRule`). The condition is `GovernFunctionalExactly` for one candidate and
  `BatchFunctionalExactly` for a batch. Without the wait it is met unless a candidate of a group larger than
  the cap has several sources (`BatchKeepsFunctional`), which takes an edit (`UneditedRunKeepsSingle`).
- The heading of a chunk may be that of the first line after it (`HeadingFromOutside`,
  `HeadingTakenFromNextLine`).

## Model

| member | source | states |
|---|---|---|
| `BudgetVectors.CanonicalIsUnique` | src/budget/budget-types.ts:63-74 | two vectors without stored zeros are equal exactly when they agree in every dimension |
| `BudgetVectors.AddCommutes` | src/budget/budget-types.ts:76-91 | addition overflows in both orders or in neither, and commutes |
| `BudgetVectors.AddAssociates` | src/budget/budget-types.ts:76-91 | both groupings of three summands overflow together, and agree when they do not |
| `BudgetVectors.SubtractUndoesAdd` | src/budget/budget-types.ts:76-108 | subtracting what was added always succeeds and gives the original, compacted |
| `BudgetVectors.AddUndoesSubtract` | src/budget/budget-types.ts:76-108 | adding back what was subtracted never overflows and gives the original, compacted |
| `BudgetVectors.AddBudgetVectors` | src/budget/budget-types.ts:76-91 | the loop succeeds exactly when no dimension overflows, computes the canonical sum, and names an overflowing dimension, an external one only when no built-in one overflows |
| `BudgetVectors.SubtractBudgetVectors` | src/budget/budget-types.ts:93-108 | the loop succeeds exactly when the subtrahend fits, computes the canonical difference, and names a dimension that underflows |
| `BudgetVectors.Fits` | src/budget/budget-types.ts:110-119 | fits means: at most the available amount in every dimension, stored or not |
| `BudgetVectors.SumBudgetVectors` | src/budget/budget-types.ts:125-127 | the fold succeeds exactly when the plain sum is a safe integer in every dimension, and equals it |
| `LedgerInvariants.RunKeepsInv` | src/budget/budget-ledger.ts:224-366 | over every disciplined run each account's reserved amount is the sum of what its reservations still hold, its spent amount is the recorded usage, spent plus reserved stays within the limit plus late usage, and events and used reservations correspond one to one |
| `LedgerInvariants.StepKeepsInv` | src/budget/budget-ledger.ts:224-383 | each single call, refused or not, keeps that invariant |
| `LedgerTheorems.ReleaseSucceedsExactly` | src/budget/budget-ledger.ts:293-316 | release throws only for reasons its caller can see; it never over- or underflows |
| `LedgerTheorems.SettleSucceedsExactly` | src/budget/budget-ledger.ts:335-358 | a disciplined first settlement succeeds exactly when the usage fits the reservation and the account's spend stays a safe integer; it never underflows |
| `LedgerTheorems.SettleWithinReservation` | src/budget/budget-ledger.ts:335-358 | without late usage on the account, usage within the reservation always settles |
| `LedgerTheorems.ChildSettlementExact` | src/budget/budget-ledger.ts:340-350 | settling a child keeps escrow conservation if and only if nothing was drawn from the child |
| `LedgerTheorems.TopSettlementExact` | src/budget/budget-ledger.ts:340-358 | settling a top-level reservation always keeps conservation, and does not raise the committed total if and only if the usage fits what it still holds |
| `LedgerTheorems.BoundKeptExactly` | src/budget/budget-ledger.ts:335-366 | exactly when a settlement keeps the overspend bound: a child's and a late one always, a top-level one if and only if the usage beyond what it still holds fits the room under the limit plus late usage |
| `LedgerTheorems.OverspendWithoutDiscipline` | src/budget/budget-ledger.ts:340-350 | a run of three calls, nothing released, that commits 20 against a limit of 10 because settle compares usage with reserved only |
| `LedgerTheorems.WitnessStartsSound` | src/budget/budget-ledger.ts:340-350 | that run starts in a state with sound books |
| `LedgerEnvelopeRuns.RunKeepsEnvelopes` | src/budget/budget-ledger.ts:257-267 | over every disciplined run an unfinished reservation's amount is what it still holds plus what is held or used below it, at any depth of nesting |
| `LedgerEnvelopeRuns.LeafRunKeepsBooks` | src/budget/budget-ledger.ts:308-350 | a run that settles only reservations without children needs no other care: it keeps the books and the envelopes |
| `LedgerReplay.RedeliveryIsInvisible` | src/budget/budget-ledger.ts:237-247 | inserting repeats of successful reserve and settle calls anywhere later in a run leaves the final ledger identical |
| `LedgerReplay.RepeatChangesNothing` | src/budget/budget-ledger.ts:326-339 | what a repeat returns or is refused with, and that it changes nothing |
| `LedgerReplay.SpentIsSumOfEvents` | src/budget/budget-ledger.ts:359-364 | in every reachable state an account's spent amount is the sum of its spend events |
| `LedgerFrames.RunEvolves` | src/budget/budget-ledger.ts:385-418 | no run changes an identity, an amount reserved, a recorded usage or a spend event, nor revives what was released |
| `BudgetLedgers.BudgetLedger.Reserve` | src/budget/budget-ledger.ts:224-283 | the statements of the transaction, rolled back when they throw, take exactly the step of the state machine and return or throw what it says |
| `BudgetLedgers.BudgetLedger.Activate` | src/budget/budget-ledger.ts:285-287 | the same for activation |
| `BudgetLedgers.BudgetLedger.MarkUncertain` | src/budget/budget-ledger.ts:289-291 | the same for marking a reservation uncertain |
| `BudgetLedgers.BudgetLedger.Release` | src/budget/budget-ledger.ts:293-316 | the same for release |
| `BudgetLedgers.BudgetLedger.Settle` | src/budget/budget-ledger.ts:318-366 | the same for settle, and the books are kept when the discipline is |
| `BudgetLedgers.BudgetLedger.CountActiveChildren` | src/budget/budget-ledger.ts:301-305 | counts the unfinished reservations directly below one other, and is positive exactly when there is one |
| `AccountTree.CheckBatch` | src/budget/budget-ledger.ts:127-147 | createBatch accepts a batch exactly when identifiers are distinct, every account is placed and starts within its limit, and every account's children fit it; otherwise the error is that of the first account, in the order of the checks, that fails |
| `AccountTree.TreeIsBuilt` | src/budget/budget-ledger.ts:176-209 | a tree is built exactly when the whole allocation is a safe amount in every dimension |
| `AccountTree.TreeIsAccepted` | src/budget/budget-ledger.ts:176-209 | every built tree passes createBatch, with the root limit equal to the sum of the six partitions |
| `AccountTree.TreeIdsDistinct` | src/budget/budget-ledger.ts:184-189 | the eight account identifiers differ, in the readable and in the digest form |
| `AccountTree.PartitionIsolation` | src/budget/budget-ledger.ts:112-118 | a run that reserves for one consumer class leaves every account outside that class unchanged; LedgerEffects.ReserveChecks says, kind by kind, which those are |
| `AccountTree.RunWithinRootLimit` | src/budget/budget-ledger.ts:191-201 | a disciplined run that never reserves on the execution account, with no usage late, keeps the whole program within its root limit |
| `RootLimit.RootLimitHoldsExactly` | src/budget/budget-ledger.ts:224-270 | over all disciplined runs of a newly opened program without late usage, the whole program stays within its root limit in a dimension if and only if nothing is allocated to the two children of execution there |
| `RootLimit.CanBeFilled` | src/budget/budget-ledger.ts:252-270 | every account of the tree can be reserved in full, which together is the root limit and the execution limit besides |
| `LedgerEffects.ReserveChecks` | src/budget/budget-ledger.ts:224-256 | each refusal before any amount is looked at, kind of account by kind of account: planning, validation, contingency and closeout accounts each admit one consumer class, the root none, all others execution only |
| `LedgerEffects.ReserveOnAccountExactly` | src/budget/budget-ledger.ts:257-270 | without a parent a new call is granted exactly when spent, reserved and asked for together fit the limit in every dimension |
| `LedgerEffects.ReserveUnderParentExactly` | src/budget/budget-ledger.ts:257-267 | under a parent exactly when the parent is created or active on the same account and holds at least the amount |
| `LedgerEffects.ReserveOnAccountDoes` | src/budget/budget-ledger.ts:268-283 | the new row, the amount it adds to what its account has reserved, and that nothing else changes |
| `LedgerEffects.ReserveUnderParentDoes` | src/budget/budget-ledger.ts:257-283 | the new row, the amount its parent holds less, and that no account changes |
| `LedgerEffects.ActivateDoes` | src/budget/budget-ledger.ts:368-383 | the state, revision and errors of an activation, and the row it leaves |
| `LedgerEffects.MarkUncertainDoes` | src/budget/budget-ledger.ts:368-383 | the same for marking uncertain |
| `LedgerEffects.ReleaseAnswers` | src/budget/budget-ledger.ts:293-306 | which releases are refused and for what, and which change nothing |
| `LedgerEffects.ReleaseToAccountDoes` | src/budget/budget-ledger.ts:307-316 | what a top-level release gives back: the account has that much less reserved and as much spent as before |
| `LedgerEffects.ReleaseToParentDoes` | src/budget/budget-ledger.ts:307-316 | what a child's release gives back: the parent holds that much more and no account changes |
| `LedgerEffects.RepeatedUsage` | src/budget/budget-ledger.ts:326-334 | a repeated report changes nothing and must agree with the usage recorded |
| `LedgerEffects.UsageBeyondReservation` | src/budget/budget-ledger.ts:335-339 | a first report is refused as exceeding exactly when the usage passes what was reserved in some dimension |
| `LedgerEffects.UnknownUsage` | src/budget/budget-ledger.ts:326-332 | an event recorded for something else is a conflict, a reservation that does not exist is not found |
| `LedgerEffects.FirstUsageExactly` | src/budget/budget-ledger.ts:335-358 | whatever happened before, a first report within the reservation settles exactly when the account's spend and what the parent regains stay safe and the account has reserved what is to be freed; otherwise which of the two errors it is |
| `LedgerEffects.SettleLateDoes` | src/budget/budget-ledger.ts:335-339 | usage that arrives after a release is spent by the account and taken from nowhere |
| `LedgerEffects.SettleTopDoes` | src/budget/budget-ledger.ts:351-366 | the account spends the usage and has what the reservation still held less reserved |
| `LedgerEffects.SettleChildDoes` | src/budget/budget-ledger.ts:340-350 | the account spends the usage, has it less reserved, and the parent regains what was reserved and not used |
| `Partitions.TreeRow` | src/budget/budget-ledger.ts:176-209 | the eight rows of a tree: kind, parent, protection and limit of each |
| `Partitions.TreeLimit` | src/budget/budget-ledger.ts:176-209 | the root limit of a tree is the sum of its partitions and the execution limit that of its two children |
| `Partitions.PartitionsAreKept` | src/budget/budget-ledger.ts:112-118 | over every run on a newly built tree, the planning, validation, contingency and closeout accounts each stay as they were unless their own consumer class reserves, and the root always does |
| `Partitions.ExecutionKeepsPartitions` | src/budget/budget-ledger.ts:112-118 | a run that reserves for execution only can change no row but those of the execution, minimum and upgrade accounts |
| `Pricing.CostIsCeiling` | src/budget/pricing-service.ts:75-80 | priced tokens are the exact price for each million rounded up to a whole micro |
| `Pricing.SplitCosts` | src/budget/pricing-service.ts:75-80 | splitting usage into k calls costs at most k-1 extra micros for each rate, and never saves any |
| `Pricing.EstimateSucceedsExactly` | src/budget/pricing-service.ts:95-114 | an estimate succeeds exactly when every count is a safe integer and so is the exact total |
| `Pricing.EstimateMeans` | src/budget/pricing-service.ts:95-114 | a price is the fixed part and each of the four counts at its own rate, stored with the two token counts and one call |
| `Pricing.EstimateRefuses` | src/budget/pricing-service.ts:82-99 | which count is named when one is not a safe integer |
| `Pricing.EstimateMonotone` | src/budget/pricing-service.ts:95-114 | usage at or below a bound is priced whenever the bound is, and never higher in any dimension |
| `Pricing.SumMoney` | src/budget/pricing-service.ts:100-110 | the checked fold succeeds exactly when the whole sum is a safe integer, and equals it |
| `ModelCalls.ReportedUsageNeverExceeds` | src/budget/model-call-service.ts:77-83 | a call begun with a bound and finished with usage within it, after any other ledger operations, is priced and is never refused as exceeding |
| `ModelCalls.ConservativeNeverExceeds` | src/budget/usage-reconciler.ts:79-87 | charging the whole reservation is never refused as exceeding |
| `ModelCalls.ReportsAreAccounted` | src/budget/usage-reconciler.ts:50-87 | what a first report comes to, dimension by dimension: reported usage is spent at its price, unknown usage is spent as the whole reservation and gives the envelope nothing back, and a call that never happened spends nothing and gives back what remained |
| `ModelCalls.GrantedEscrows` | src/budget/model-call-service.ts:54-67 | a granted call holds its upper bound, active and named after its operation, and its envelope holds that much less |
| `ModelCalls.NewCallGrantedExactly` | src/budget/shadow-model-guard.ts:54-83 | a call that was never reserved is granted exactly when its envelope is open, belongs to a running program and an account for execution, and holds a bound that is not zero |
| `ModelCalls.CallsKeepBooks` | src/budget/model-call-service.ts:39-83 | reserving, activating, releasing, and settling calls keeps all books and envelopes without any further discipline |
| `ModelCalls.ModelCallService.ApplyResult` | src/budget/usage-reconciler.ts:50-77 | each report leads to the one ledger operation it should, a final reservation to none, and a refused operation to its error; the action and the row returned are those of that operation, and a first report is accounted as ReportsAreAccounted says |
| `ModelCalls.ModelCallService.Judge` | src/budget/shadow-model-guard.ts:54-65 | a price absent from the snapshot or from the catalog, a changed price or revision, and a lack of budget are told apart exactly; otherwise the call is allowed |
| `ModelCalls.ModelCallService.Begin` | src/budget/model-call-service.ts:39-67 | a call is begun exactly when the operation is new, its envelope exists, the bound can be priced and, outside shadow mode, the price is unchanged, the bound fits the envelope and the reservation is granted; a refusal changes nothing; a reservation made covers the bound |
| `ModelCalls.ModelCallService.Finish` | src/budget/model-call-service.ts:68-87 | an operation never begun and a repeat with other usage are refused and leave the ledger alone; any other finish reconciles the reservation of the begin record at its price |
| `OutboxSafety.RunKeepsInv` | src/memory/memory-repository.ts:1102-1132 | with one index writer, whatever canonical writes, failures, lost leases and crashes come between its steps: a memory without outstanding rows has in the index what its settled membership says |
| `OutboxSafety.CleanMeansEqual` | src/memory/memory-repository.ts:2220-2253 | a clean validation snapshot means that the index, restricted to memories, equals exactly the hashes of the active memories |
| `OutboxSafety.CleanRunMeansEqual` | src/memory/memory-repository.ts:2220-2253 | the same for every run from an empty project |
| `OutboxDrain.CarriedOutExactly` | src/memory/memory-repository.ts:1102-1132 | once a mutation is queued, every way of draining the memory, with crashes, expired leases and temporary failures, ends with the membership it asks for if and only if its row was new or open and every other open row of the memory was one it supersedes |
| `OutboxDrain.RowCarriedOut` | src/memory/memory-repository.ts:1955-2011 | however a row was left over, a claim, a write and a completion carry it out |
| `OutboxDrain.OnlyLeftIsCarriedOut` | src/memory/memory-repository.ts:1955-2026 | while no other row of the memory is open, a queued row stays open until its membership is what it asks for |
| `OutboxStuck.NothingStaleIsQueued` | src/memory/memory-repository.ts:1123-1126 | after an enqueue no pending upsert of the memory is for other content, and none at all is left after a delete; rows in other states are untouched |
| `OutboxStuck.StuckForGood` | src/memory/memory-repository.ts:2052-2075 | a memory whose membership waits for a row that is completed stays missing if it is active, and stale if not, through any run of reconciliations, retries and worker steps until it is written again |
| `OutboxStuck.EmptyProjectCanGetStuck` | src/memory/memory-repository.ts:1127-1130 | from an empty project: an upsert fails once, the memory changes or is removed and that is carried out, the retry carries out the old upsert, and the newer mutation queued again finds its row completed |
| `OutboxLeases.LeasesExclude` | src/memory/memory-repository.ts:1955-2026 | every success on a row is by the worker of its latest claim before that lease expires, each claim has at most one, a second claim finds the first expired, and rows are owned exactly while processing |
| `OutboxRepositories.OutboxRepository.EnqueueIndex` | src/memory/memory-repository.ts:1102-1132 | the statements of the transaction take exactly the step of the model |
| `OutboxRepositories.OutboxRepository.Reconcile` | src/memory/memory-repository.ts:2052-2075 | every memory is treated as if alone: active ones queued, stale ones to be removed, waiting rows made available; returns how many rows are new |
| `OutboxRepositories.OutboxRepository.ClaimBatch` | src/memory/memory-repository.ts:1955-1996 | takes back expired leases and leases the front of the queue, oldest first, upserts before deletes, within the bounded limit |
| `OutboxRepositories.OutboxRepository.CompleteRow` | src/memory/memory-repository.ts:1998-2011 | reports and records a completion exactly when the worker holds the lease |
| `OutboxRepositories.OutboxRepository.FailRow` | src/memory/memory-repository.ts:2013-2026 | retry, dead letter or lost lease, by lease and attempts, with the row and membership that go with it |
| `OutboxRepositories.OutboxRepository.RetryDeadLetters` | src/memory/memory-repository.ts:2208-2218 | all dead rows wait again, their memberships too, and their number is returned |
| `OutboxRepositories.OutboxRepository.Validate` | src/memory/memory-repository.ts:2220-2253 | computes the snapshot CleanMeansEqual speaks of |
| `OutboxWorkers.MemoryIndexWorker.WriteBatch` | src/memory/memory-index-worker.ts:126-134 | document-by-document writes with arbitrary refusals leave, for the last write of a memory reported good, exactly what it asked for, and it is reported good exactly when it was accepted and verified |
| `OutboxWorkers.MemoryIndexWorker.RunOnce` | src/memory/memory-index-worker.ts:99-117 | leases the front of the queue; the claimed upserts and then the claimed deletes are reported item by item, each is counted once, as indexed, deleted, retried, dead or lost by its lease, attempts and write, and the invariant of OutboxSafety holds again |
| `OutboxEffects.EnqueueUpsertDoes` | src/memory/memory-repository.ts:1102-1132 | an upsert changes nothing but the stored hash when the membership has this content, indexed or failed; otherwise the membership waits, waiting upserts of other content are completed, and a row is inserted if there is none |
| `OutboxEffects.EnqueueDeleteDoes` | src/memory/memory-repository.ts:1102-1132 | the same for a delete, which leaves a deleted membership alone and completes every waiting upsert |
| `OutboxEffects.ReconcileActive` | src/memory/memory-repository.ts:2052-2075 | what a reconciliation leaves of an active memory |
| `OutboxEffects.ReconcileRemoved` | src/memory/memory-repository.ts:2052-2075 | and of one that is not active: a membership that is not deleted waits, with a delete row |
| `OutboxEffects.ReconcileKeepsRow` | src/memory/memory-repository.ts:2068-2075 | no row is revived by it, and no row waits for a later time after it |
| `OutboxEffects.ClaimDoes` | src/memory/memory-repository.ts:1955-1980 | claimed rows were waiting or their lease was over, and their time had come; what each row becomes, claimed, taken back or neither |
| `OutboxEffects.ClaimTakesOldest` | src/memory/memory-repository.ts:1962-1973 | a row is left out only when the limit is reached by rows that are not younger, upserts before deletes of one time |
| `OutboxEffects.CompleteDoes` | src/memory/memory-repository.ts:1998-2011 | an upsert leaves its content indexed, a delete leaves the membership deleted with the content it had |
| `OutboxEffects.FailDoes` | src/memory/memory-repository.ts:2013-2026 | a fault not to be retried, or on the last attempt, leaves a dead letter and a failed membership; any other a row that waits |
| `OutboxEffects.RetryDeadDoes` | src/memory/memory-repository.ts:2208-2218 | dead letters wait again without attempts, and so do the memberships of their memories |
| `OutboxEffects.ValidationMeans` | src/memory/memory-repository.ts:2220-2253 | which memories a snapshot lists as missing, mismatched and stale, and which rows it counts |
| `OutboxEffects.CleanMeans` | src/memory/memory-repository.ts:2220-2253 | a snapshot is clean exactly when active memories are indexed with their content, all other memberships are deleted and every row is completed |
| `OutboxWorkers.FateMeans` | src/memory/memory-index-worker.ts:136-177 | when an item counts as indexed, deleted, retried, dead or lost |
| `OutboxWorkers.CountersMean` | src/memory/memory-index-worker.ts:99-117 | each counter of the summary is the number of items of one fate |
| `KnowledgeOutbox.RunKeeps` | src/memory/memory-repository.ts:2077-2181 | in every reachable state a pending membership has an outstanding row |
| `KnowledgeOutbox.TwoRoundsStabilise` | src/memory/memory-repository.ts:2077-2114 | from any reachable state, two rounds of reconciling and draining in any order bring every membership to its document's content and desired status, or leave it failed with that content; a third reconciliation changes nothing |
| `KnowledgeEffects.TwoRoundsEnd` | src/memory/memory-repository.ts:2077-2114 | in the document's own terms: after two rounds an active document has the membership of its content indexed, one that is not active has it deleted, or it failed |
| `KnowledgeEffects.ReconcileDoes` | src/memory/memory-repository.ts:2098-2109 | an active document queues an upsert and any other a delete, with the membership waiting for it, unless the membership already is or asks for that or failed with this content |
| `KnowledgeEffects.RemovalIsQueued` | src/memory/memory-repository.ts:2098-2109 | a document that is not active and still indexed leaves a waiting delete row, is counted, and is not stable |
| `KnowledgeEffects.StableMeans` | src/memory/memory-repository.ts:2077-2114 | what it is for a store to be stable, in the terms of documents and memberships |
| `KnowledgeEffects.ReconcileKeepsRows` | src/memory/memory-repository.ts:2098-2114 | no other row is revived, and none waits for a later time |
| `KnowledgeEffects.ClaimDoes` | src/memory/memory-repository.ts:2116-2154 | what each row becomes by a claim, and when a row may be claimed |
| `KnowledgeEffects.CompleteDoes` | src/memory/memory-repository.ts:2156-2167 | the row and membership a completion leaves, for upserts and for deletes |
| `KnowledgeEffects.FailDoes` | src/memory/memory-repository.ts:2169-2181 | the row and membership a failure leaves, for retry and for good |
| `KnowledgeOutbox.OneRoundExactly` | src/memory/memory-repository.ts:2077-2114 | one round is enough, however the work is drained, exactly when the reconciliation leaves no row open that is not what its document asks for |
| `KnowledgeOutbox.OffTargetIsOld` | src/memory/memory-repository.ts:2098-2114 | such a row was already queued before the reconciliation |
| `KnowledgeOutbox.OneRoundAfterDrain` | src/memory/memory-repository.ts:2077-2114 | so one round is enough when nothing was queued before it |
| `KnowledgeOutbox.OneRoundIsNotEnough` | src/memory/memory-repository.ts:2093-2097 | two queued contents of one document, worked off in the wrong order, leave the old one indexed |
| `KnowledgeOutbox.RewrittenIsReachable` | src/memory/memory-repository.ts:2077-2114 | the state of that witness is reached from an empty store by three events |
| `KnowledgeOutbox.DrainExists` | src/memory/memory-repository.ts:2116-2167 | every reachable store can be drained by claims and completions alone |
| `KnowledgeOutbox.InTurnIsEnqueued` | src/memory/memory-repository.ts:2098-2109 | the loop over the documents does and counts the same in whatever order they come |
| `SemanticOutboxes.SemanticOutbox.Reconcile` | src/memory/memory-repository.ts:2077-2114 | the loop and the last statement take exactly the step of the model and return the number of documents queued |
| `SemanticOutboxes.SemanticOutbox.Claim` | src/memory/memory-repository.ts:2116-2154 | leases the front of the queue within the bounded limit |
| `SemanticOutboxes.SemanticOutbox.Complete` | src/memory/memory-repository.ts:2156-2167 | completes exactly when the worker holds the lease; the membership takes the row's content for both operations |
| `SemanticOutboxes.SemanticOutbox.Fail` | src/memory/memory-repository.ts:2169-2181 | fails exactly when the worker holds the lease, for retry or for good |
| `Activation.CrashSafe` | src/memory/zvec-index-migration.ts:348-356 | an activation stopped after any number of file writes, then recoveries stopped likewise, then one that is not: it succeeds and leaves exactly the files of an uninterrupted activation if the pointer was written, and exactly the old files if not |
| `Activation.GoalIsSettled` | src/memory/zvec-index-migration.ts:514-531 | a completed activation leaves manifests equal to registry states, the pointer's collection the only active one, the old one retired and all others as they were |
| `Activation.ManifestWritten` | src/memory/zvec-index-migration.ts:520-528 | writing one manifest ahead of the registry keeps the files recoverable towards the same end |
| `Activation.HistoryStaysSettled` | src/memory/zvec-index-migration.ts:396-410 | files stay settled over any number of collections created, prepared, rebuilt and destroyed, and of activations with their crashes and recoveries |
| `Activation.PersistSettledExactly` | src/memory/zvec-index-migration.ts:504-512 | moving a collection that is not active keeps the files settled exactly when it does not make it building beside another |
| `Activation.ResumeBesideBuild` | src/memory/zvec-index-migration.ts:302-315 | from no collections at all: a build fails, another begins and the first is resumed, which leaves a manifest building and its entry failed |
| `Activation.CreateKeepsSettled` | src/memory/zvec-memory-index.ts:209-246 | creating a collection while none is building keeps the files settled |
| `Activation.DestroyKeepsSettled` | src/memory/zvec-memory-index.ts:295-318 | and so does destroying one that is retired or failed |
| `Activation.RecoverySucceedsExactly` | src/memory/zvec-index-migration.ts:396-410 | a recovery that is not interrupted succeeds exactly when there is no pointer or it names a ready or active collection |
| `Activation.FinalRegistryValid` | src/memory/zvec-index-registry.ts:42-72 | the final registry satisfies the registry schema |
| `Activation.SecondActivationExact` | src/memory/zvec-index-migration.ts:514-531 | an activation started over a crashed one without recovery ends consistent exactly when no manifest outside it had been written ahead of the registry |
| `Activation.UnrecoveredCrashShows` | src/memory/zvec-index-migration.ts:514-531 | stopping after the first new manifest and activating another collection does leave an inconsistency |
| `MigrationFiles.IndexFiles.WriteLifecycle` | src/memory/zvec-index-migration.ts:514-531 | the loop over the registry entries writes, file by file, what the model says, and stops where the budget of writes ends |
| `MigrationFiles.IndexFiles.CheckRegistry` | src/memory/zvec-index-registry.ts:42-72 | counting active and building entries decides the schema |
| `MigrationFiles.IndexFiles.Activate` | src/memory/zvec-index-migration.ts:348-356 | pointer first, if both files allow it, then the lifecycle writes |
| `MigrationFiles.IndexFiles.RecoverActivation` | src/memory/zvec-index-migration.ts:396-410 | finalizes exactly when the pointed entry is not the only active one |
| `ActivationEffects.ActivationDoes` | src/memory/zvec-index-migration.ts:348-356 | an activation whose pointer was written, crashed or not and recovered, makes its collection active and the one that was active retired, with the times each keeps or gets in entry and manifest, and changes no other collection |
| `ActivationEffects.PointerComesFirst` | src/memory/zvec-index-migration.ts:348-356 | activation is refused before any write exactly for a collection that is not ready or active in the registry and in a valid manifest of the same embedding; for any other the pointer is the first write |
| `ActivationEffects.PersistDoes` | src/memory/zvec-index-migration.ts:504-512 | state by state, the entry and the manifest a move leaves, and that nothing else changes |
| `ActivationEffects.RecoveryDoes` | src/memory/zvec-index-migration.ts:396-410 | recovery writes nothing exactly when nothing is pointed at or the pointed collection is the only active one; a pointer outside the registry is an error |
| `ActivationEffects.CreateDoes` | src/memory/zvec-memory-index.ts:209-246 | the entry and the manifest of a new collection |
| `GovernanceTheorems.RunKeepsInv` | src/memory/memory-repository.ts:1680-1782 | over every run whose candidates are governed with complete matches: at most one active belief per agent and key; merges form a forest; all evidence of a merged belief is kept by every belief it leads to |
| `GovernanceTheorems.GovernFunctionalExactly` | src/memory/memory-repository.ts:1766-1776 | judging a candidate keeps one active belief per key exactly when it does not promote a candidate that has an active peer |
| `GovernanceTheorems.ConfirmFunctional` | src/memory/memory-repository.ts:1805-1847 | confirming keeps one active belief per key, whatever the matches |
| `GovernanceTheorems.JudgeShifts` | src/memory/memory-repository.ts:1709-1738 | the duplicates are dead with the evidence they had, which the canonical belief now holds, and point at it alone |
| `GovernanceTheorems.EvidenceReaches` | src/memory/memory-repository.ts:1715-1738 | evidence is contained along every path of merges |
| `Governance.IndependentBound` | src/memory/memory-repository.ts:1064-1077 | independent evidence is never more than the number of source events |
| `GovernorRuns.OrderlyRunKeepsInv` | src/memory/memory-governor.ts:48-112 | over every run of extractions, edits, confirmations, retention and batches on a fresh listing, in which candidates of groups larger than the cap have one source each: at most one active belief per agent and key, and merges form a forest |
| `GovernorRuns.UneditedRunKeepsSingle` | src/memory/memory-governor.ts:48-112 | they have one source each whenever no candidate that has gathered evidence was edited |
| `GovernorRuns.BatchKeepsFunctional` | src/memory/memory-governor.ts:69-110 | a batch that starts when its listing is taken keeps one active belief per key after each of its candidates, although later ones are matched against outdated statuses and the cap of twenty leaves matches out, as long as candidates of groups larger than the cap have one source each |
| `GovernorRuns.BatchFunctionalExactly` | src/memory/memory-governor.ts:69-110 | for any listing, a batch keeps the rule throughout exactly when it never promotes a belief beside an active peer |
| `GovernorRuns.EmptyIsOrderly` | src/memory/memory-governor.ts:48-112 | the empty base is a start of such runs |
| `GovernorRace.RaceBreaksTheRule` | src/memory/memory-governor.ts:50-69 | from an empty base to two active beliefs about one key: twenty-two candidates, a listing, one of them confirmed while embeddings are awaited, then two candidates judged on that listing |
| `GovernorWindows.WindowOf` | src/memory/memory-governor.ts:87-93 | what the cap keeps of a candidate's group is its first twenty, and what it leaves out comes after all of them |
| `Governor.MemoryGovernor.Candidates` | src/memory/memory-governor.ts:49-51 | the oldest candidates not yet governed, within the limit bounded to 1 and 500; one is left out only for that many that are not younger |
| `Governor.MemoryGovernor.GovernListed` | src/memory/memory-governor.ts:69-110 | the loop governs the candidates one after the other, each with the front of its matches in the one listing, and answers as the repository does |
| `Governor.FreshListingIsComplete` | src/memory/memory-governor.ts:87-93 | with an up-to-date listing the matches kept hold every active belief about the candidate's key exactly when the listing does |
| `Governor.KeptMeans` | src/memory/memory-governor.ts:70-93 | at most twenty matches are kept: same agent, same fact, same predicate or similar; semantic ones last, targets listed as active first, then by score and identifier; one is left out only for twenty before it |
| `Governor.FewMatchesAreComplete` | src/memory/memory-governor.ts:87-93 | the same for any listing when there are fewer matches than the cap |
| `Governor.MatchesFor` | src/memory/memory-governor.ts:70-93 | the matches kept are the front of all matches in the source's order |
| `BeliefRepositories.BeliefRepository.FindCanonical` | src/memory/memory-repository.ts:1711-1713 | the loop finds the one first belief: active first, then oldest, then by identifier |
| `BeliefRepositories.BeliefRepository.GovernCandidate` | src/memory/memory-repository.ts:1680-1782 | row by row, takes exactly the step of the model and returns its action; what that step is, and when it activates, is said by GovernanceEffects |
| `BeliefRepositories.BeliefRepository.ConfirmCandidate` | src/memory/memory-repository.ts:1805-1847 | row by row, confirms as the model says, and tells an absent candidate, a bad interval and the belief that is active now apart |
| `GovernanceEffects.ActivatesExactly` | src/memory/memory-repository.ts:1064-1088 | a belief becomes active by a judgement exactly when it leads the group of a timely candidate and was a candidate, nothing usable contradicts it, its group's evidence is known, internal and from enough different origins, the largest trust of the group is at least 80 and its interval has begun |
| `GovernanceEffects.GovernDoes` | src/memory/memory-repository.ts:1680-1782 | what a judgement makes of each belief: merged with its evidence, superseded, disputed, activated, expired or left alone |
| `GovernanceEffects.GovernRelates` | src/memory/memory-repository.ts:1715-1764 | which relations a judgement adds |
| `GovernanceEffects.GovernAnswers` | src/memory/memory-repository.ts:1680-1782 | which action it answers with |
| `GovernanceEffects.UntimelyDoes` | src/memory/memory-repository.ts:1680-1706 | a candidate with an impossible interval is disputed and one whose interval is over superseded, and nothing else changes |
| `GovernanceEffects.ConfirmDoes` | src/memory/memory-repository.ts:1805-1847 | what a confirmation makes of each belief and when it is refused |
| `GovernanceEffects.ForgetDoes` | src/memory/memory-repository.ts:1397-1420 | what forgetting changes: the status of one belief and its place among the contradictions of those related to it |
| `GovernanceEffects.RetentionDoes` | src/memory/memory-repository.ts:1655-1667 | retention supersedes the active ones of some beliefs and changes nothing else; candidates that lapse are forgotten |
| `DependencyOrder.Order` | src/program/admission-controller.ts:74-87 | the depth-first search terminates, reports a cycle exactly when there is one, and otherwise orders all items with every dependency earlier |
| `DependencyOrder.ScheduleIsAcyclic` | src/program/admission-controller.ts:74-87 | a graph that can be ordered has no cycle |
| `AdmissionEffects.EdgesMean` | src/program/admission-controller.ts:68-75 | the edges of the graph are the dependencies of the items |
| `Scheduling.FinishesAreCritical` | src/program/admission-controller.ts:107-114 | along a schedule every finish time is the length of a longest dependency chain, and no dependency is missing when looked up |
| `Scheduling.LatestWithin` | src/program/admission-controller.ts:107-120 | when the longest durations leave no chain over a bound, nothing finishes after it |
| `Estimates.EstimateIsOrdered` | src/program/cost-estimator.ts:61-73 | p50, p90, p95 and the envelope are in order in every dimension and in time |
| `Estimates.EstimateWithoutHistory` | src/program/cost-estimator.ts:54-87 | without history: 40, 80 and 90 per cent of the envelope rounded up, no calibration, probability 0.85 unless given |
| `Estimates.EstimateWithHistory` | src/program/cost-estimator.ts:54-87 | with history: each percentile is the larger of the observed one, its part of the envelope and the percentile before it; probability 0.95 for high confidence |
| `Estimates.HistoryRefused` | src/program/cost-estimator.ts:66-75 | the two refusals with history, exactly |
| `Estimates.InterpolateMeans` | src/program/admission-controller.ts:34-38 | the three segments of the interpolation: up to the median at one half, to the 90th percentile at nine tenths, to the maximum |
| `Estimates.GuardFiresExactly` | src/program/cost-estimator.ts:62-68 | the guard fires exactly when the history exceeds the envelope somewhere, never without history |
| `Estimates.EstimatePackage` | src/program/cost-estimator.ts:54-87 | the composition of the two loops computes that estimate |
| `Estimates.InterpolateMonotone` | src/program/admission-controller.ts:34-38 | with ordered quantiles the interpolation grows with the draw and never passes the hard maximum |
| `Estimates.InterpolateInRange` | src/program/admission-controller.ts:34-38 | whatever the quantiles, a sample lies between zero and the largest of them |
| `Estimates.SampleVector` | src/program/admission-controller.ts:40-58 | the loops store the interpolation of every built-in dimension and of every external one of the hard maximum, and nothing else |
| `Admission.RunSample` | src/program/admission-controller.ts:97-117 | a sample sums the costs drawn and times the chains drawn; its shares and its acceptance are those of the walk through the stream; a budget that fits at its hard maxima never overflows |
| `Admission.WalkIsFair` | src/program/admission-controller.ts:97-117 | items of one risk group share one draw, and no other draw of the stream is used for two things |
| `Admission.SampleFits` | src/program/admission-controller.ts:98-118 | if fixed costs and all hard maxima fit the limit, so does every sample |
| `Admission.SampleInTime` | src/program/admission-controller.ts:107-120 | if the hard-maximum critical path meets the deadline, so does every sample |
| `AdmissionEffects.SampleMeans` | src/program/admission-controller.ts:97-117 | a sample item by item: one draw for each risk group and two of its own for each item, none used twice; seven tenths of the group's and three tenths of its own place cost and time on the estimate, and decide success; costs are added to the fixed ones and each item finishes at the end of its longest chain |
| `Admission.TallyMeans` | src/program/admission-controller.ts:118-127 | the counts are the numbers of outcomes within the limit in every dimension, with every finish within the deadline, accepted, and all three |
| `Admission.Evaluate` | src/program/admission-controller.ts:61-139 | each refusal exactly, with its order; the probabilities are the numbers of samples within the limit, in time, accepted, and all three, over the number of samples taken one after the other from the stream; feasible exactly when the joint one reaches the target; the joint one lies between the bounds of the three; a guaranteed budget or deadline has probability one, and fixed costs over the limit or a fixed duration over the deadline leave none |
| `Admission.PortionsBounded` | src/program/admission-controller.ts:121-134 | counts within the bounds give probabilities within them |
| `Chunker.ParseText` | src/knowledge/parser.ts:41-70 | windows of at least 512 characters or four for each token, overlapping by four for each token, cover the text; each chunk is the trimmed text of the lines it names, numbered in order, and every line that is not blank lies in one |
| `Chunker.SizeMeans` | src/knowledge/parser.ts:53-54 | the size a window is measured by is one more than the length of its text |
| `Chunker.PartsAreHeading` | src/knowledge/parser.ts:52 | a line of one to six hashes, space and a text without line separators is a heading of that text, trimmed |
| `Chunker.HeadingHasParts` | src/knowledge/parser.ts:52 | and every heading with a text is such a line |
| `Chunker.EmptyHeadingMeans` | src/knowledge/parser.ts:52 | a heading without a text is hashes and two or more spaces |
| `Chunker.FirstHeadingMeans` | src/knowledge/parser.ts:50-52 | the heading of a window is that of the first line whose heading has a text |
| `Chunker.TrimMeans` | src/knowledge/parser.ts:58 | trimming takes away the space at both ends and nothing else |
| `Chunker.WindowsAdvance` | src/knowledge/parser.ts:46-69 | starts strictly increase, ends never decrease, each start is at most the previous end |
| `Chunker.FillWindow` | src/knowledge/parser.ts:47-56 | a window holds one line or fits the maximum, and one line more would not fit |
| `Chunker.Rewind` | src/knowledge/parser.ts:65-68 | the overlap is the shortest that reaches the wanted size, or the whole window but its first line |
| `Chunker.WindowsPartition` | src/knowledge/parser.ts:41-69 | without overlap the windows put together give back the text |
| `Chunker.TrimBlank` | src/knowledge/parser.ts:58-59 | trimming leaves nothing exactly when there is nothing but space |
| `Chunker.HeadingFromOutside` | src/knowledge/parser.ts:50-56 | the heading search also reads the line that did not fit, and that line decides exactly when the window has no heading with a text and it gives something else |
| `Chunker.HeadingTakenFromNextLine` | src/knowledge/parser.ts:50-56 | a line of 512 characters and a heading after it make two chunks, the first with only the line and the heading |

## Left out

- Text, numbers and clocks: parsing and validation of identifiers, JSON and SQL encodings, hashing (digests are injective labels), timestamps that no decision reads, and the width of revision and attempt counters.
- Budget ledger: the table constraints beyond unique reservation identifiers, operation keys and source events; an empty record of external units as against an absent one, which the comparison of repeated inputs can tell apart; the name of the dimension in an arithmetic error raised inside the ledger; the pricing snapshot a spend event refers to; injected faults.
- Model calls: the runtime guard, the barrier, the audit trail beyond the begin and finish records, and the identity checks between a request, its dispatch and its envelope. The account's own availability when there is no parent reservation is left out, because a call is only begun inside an envelope. A finish either reports usage or does not: outcome and usage are one value.
- Pricing: digests of snapshots and the search for a price reference; a snapshot is the price it holds for the model.
- Index outbox: one collection and the level 2 and 3 memories; the columns index_state, indexed_at and error, and the registry and migration conditions of a claim, which are one flag. The index holds a label for each memory, the row's content hash; the vector itself is computed from the content at claim time. Exceptions thrown by the database while an item is being finished are left out.
- OutboxSafety.RunKeepsInv: assumes a single index writer, as the worker is deployed; leases among several workers are the subject of OutboxLeases.
- Knowledge outbox: the worker that consumes it and its vector writes; the index_state column of documents.
- Activation: the mirroring of states into SQLite, crashes inside persistLifecycle, creation and destruction, the repair of a collection whose directory has gone, what resume and rollback do beyond making a collection building, and mismatched project or embedding identities beyond the check made when the pointer is written.
- GovernanceTheorems.RunKeepsInv: needs complete matches, for the reason given under Findings; GovernorRuns.OrderlyRunKeepsInv needs none.
- GovernorRuns.OrderlyRunKeepsInv: a batch starts when its listing is taken, every active structured belief is in the listing, which the source cuts at 5000 candidates and 5000 peers, and a candidate with several sources has at most twenty listed peers. For any other batch GovernorRuns.BatchFunctionalExactly is what holds.
- RootLimit.RootLimitHoldsExactly: starts from a ledger without reservations.
- Governance: promotion to level 3, the older consolidation of unstructured memories, confidence, salience and counts that no branch reads, the saved matches, the relation supersedes and governance runs, and the summary counters of a batch. One normaliser stands for the two slightly different ones. Embedding similarity is an arbitrary score.
- Admission: the seeded random generator; interpolation is in exact reals and the rounding of a duration hint to whole seconds is an input.
- Chunker: HTML cleaning, removal of null characters and unification of line breaks, token estimates and content hashes. A line's length is its number of characters in the model. The branch that advances an empty window is unreachable and not modelled.
- HTTP, embedding providers, native index calls, worker threads, git, containers, plugins, command line, desktop and website: input and output.
