# Cutout, verified

Cutout follows one STRK20 pool on Starknet. An indexer keeps a database of the pool's public events in step with a
chain that may reorganise; a deterministic evaluator scores a proposed shield or withdrawal against those events; a
guarded pipeline lets one reviewed deposit through to a wallet. This project models these parts in Dafny and proves
what they promise together.

`dafny verify dfyconfig.toml` checks everything.

## How it is organised

| Component | Modules |
|---|---|
| The chain, pool events, their order, ordinals and decoding | `Chain`, `PoolEvents`, `Index`, `Headers` |
| Snapshots: canonical form, JSON tree, reading back | `Numerals`, `Json`, `Snapshots`, `SnapshotJson` |
| The store: tables, operations, runs of operations, what the tables mean | `Store`, `StoreRuns`, `IndexedStore` |
| The validator | `Freshness` |
| One attempt against a provider, and sequences of attempts | `Provider`, `Collecting`, `BoundarySearch`, `Publication`, `Indexer`, `Supervisor` |
| The one-shot counterpart of the indexer | `OneShot`, `Ingest` |
| What a successful attempt amounts to | `Refinement`, `History` |
| Where promises end: the horizon, events below the source, stray headers, a forked source | `HorizonEdge`, `BelowSource`, `SourceDip`, `StrayHeader`, `StrayServed`, `ForkedSource` |
| The evaluator and its theorems | `EngineTypes`, `Burst`, `Cohorts`, `CohortTheorems`, `Preflight`, `PreflightRun`, `PreflightTheorems` |
| The public cover ledger | `Cover` |
| Provider failover | `Failover` |
| Amount text and the signing pipeline | `Amounts`, `Guard` |
| Shared sequence, sorting and result types | `Sequences`, `Sorting`, `Wrappers` |

Code that updates state is a class with a method per operation (`Store.CanonicalStore`,
`Indexer.IncrementalPublicIndexer`, `Supervisor.IndexerSupervisor`, `Failover.RpcFailoverManager`,
`Failover.TrackedRpc`), and loops of the source are loops here. Each method is tied to a function of the old state,
and the theorems are about those functions.

## The main results

* **Incremental equals from scratch.** `Indexer.IncrementalPublicIndexer.SyncOnce` keeps the invariant
  `IndexedStore.Anchored` from any anchored state, on success and on failure, so it holds after any sessions
  (`Supervisor.RunSessions`). After a success the tables are those of one single batch over the live chain
  (`Supervisor.InStepIsFromScratch`), which exists and can be published for every clean chain
  (`Refinement.ScratchPublishes`), under the same canonical text and hash (`Refinement.SamePublication`).
* **The bounded history is enough.** Evaluating what the store serves gives, in both model versions, the result of
  evaluating the whole pool history (`Supervisor.InStepEvaluatesHistory`). The one-shot ingestion agrees
  (`Ingest.OneShotSameVerdict`).
* **A stop at any moment is survived** until a rollback lands on a stray source header
  (`StrayHeader.RunStaysLoose`), and that one is survived exactly when neither history has a pool event between the
  fork and the stray block (`StrayHeader.QuietLandings`).
* **The producer meets the validator** exactly when no stored event lies below the source block
  (`Publication.ProducerMeetsValidator`); then the validator can refuse only for age, lag or a clock behind the chain.
* **The recommendation is optimal** over every integer of the authorised range, following it always ends in
  LOW / ALLOW, and v1.4 extends v1.3 conservatively (`PreflightTheorems`).
* **A load serves the last published snapshot** that nothing has withdrawn (`StoreRuns.LoadServesLastPublished`).
* **Failover** returns to a failed primary exactly when every wait is over and secondary has had its turn
  (`Failover.PrimaryRegained`, and `Select` for every run of the manager object).
* **Only the reviewed deposit** reaches the wallet (`Guard.OnlyTheReviewedDeposit`), and what a created plan still
  needs to get there is known exactly (`Guard.WhatStillHasToHappen`).

A block hash is modelled by what it commits to, the bodies of the block and its ancestors. Equal hashes are equal
histories, which is what the source assumes of Starknet block hashes.

## Findings

* The validator demands that the source timestamp be no later than the 30-day horizon
  (`src/starknet/freshness.ts:255`), but the evaluator counts events at the horizon itself
  (`src/engine/evaluate.ts:67-79`). The snapshot holds the evidence of the whole history exactly when no deposit or
  withdrawal below the source block was made at the horizon (`History.SnapshotHoldsTheEvidence`).
  `HorizonEdge.AcceptedSourceMissesTheEdge` gives a chain on which the search chooses such a source, the validator
  accepts the snapshot, and the verdict is WARN instead of ALLOW. The supervisor's positive buffer keeps the source
  strictly before the horizon.
* An assembled snapshot passes the structural checks exactly when no event is stored below the source block
  (`Publication.ProducerMeetsValidator`). Such events come in only after a rollback to a block below the one before the
  source (`BelowSource.OnlyDipsLeave`, `BelowSource.RunStaysAbove`); `SourceDip.RowBelowIsReached` is a run of the
  indexer's own moves that gets there. From then on the index is published again only after a reset
  (`Indexer.FreedOnlyByReset`).
* Retaining the source header and naming the source are two transactions (`src/indexer/indexer.ts:554-560`). A process
  stopped between them leaves a header that a later reorganisation may take for a common ancestor
  (`src/indexer/indexer.ts:365-384`). `StrayServed.StrayGetsServed` is a run in which the validator then accepts a
  snapshot with a deposit that the chain does not have, and the verdict is ALLOW instead of WARN. The last three blocks
  show nothing wrong in it, so that a retained window of that length is linked; a longer window is refused until its
  low end has passed the fork. `StrayHeader.StepsKeepLoose` and `StrayHeader.QuietLandings` say exactly which steps do
  no harm.
* Before the first commit nothing is rolled back (`src/indexer/indexer.ts:350-353`). When a fork replaces the source
  block meanwhile, every batch of the new chain is refused (`ForkedSource.CommitsUnlessForked`), and only a reset or
  the return of the block ends that (`ForkedSource.ForkedUntilReset`).
* The binary search stops at the first block whenever the target is not later than it
  (`src/indexer/indexer.ts:147`). `BoundarySearch.BoundaryIsLast` says exactly when its result is the last block at or
  before the target, and `BoundarySearch.EqualTimestampsStopEarly` is a chain on which it is not.
* The one-shot ingestion numbers events by position where the indexer numbers them within their transaction
  (`src/starknet/ingest.ts:264-275`, `src/indexer/indexer.ts:308-311`). The two use the same identities exactly when all
  events are of one transaction (`OneShot.IdentitiesAgree`); `OneShot.IdentitiesMayDiffer` has two. Verdicts do not see
  the difference.
* A plan keeps the pool address as the snapshot spelled it (`src/workflow/guard.ts:539`), and the simulation is compared
  with that spelling (`src/workflow/guard.ts:559`). A snapshot that spells the pool otherwise than canonically is
  accepted when planning, but no run with it ever reaches the wallet (`Guard.OtherSpellingIsPlannedInVain`).
* The last branch of `RpcFailoverManager.select` (`src/operations/rpc-failover.ts:325-337`) is unreachable.
* Several checks of the source cannot fail with an honest provider: parent links inside a batch and at the boundary, the
  revalidated range head, the retained prior header, and a head that falls behind. They are kept as guards through
  `Wrappers.Require`, each after an assertion that its condition holds.

## Model

| member | source | states |
|---|---|---|
| Burst.TopWindowIsGlobalMax | src/engine/evaluate.ts:38-59 | the fullest window that starts at an observed timestamp is at least as full as every closed 24-hour window, wherever it starts |
| Burst.ScanWindows | src/engine/evaluate.ts:44-56 | the two-pointer scan finds that maximum, its right pointer advancing at most once per timestamp over the whole scan |
| Burst.MaximumBurstShare | src/engine/evaluate.ts:38-59 | for any timestamps in any order the share is the fullest window over their number, and the whole for none |
| Cohorts.Tally | src/engine/evaluate.ts:80-89 | one pass counts each actor with its multiplicity and collects the transactions |
| Cohorts.Largest | src/engine/evaluate.ts:90-92 | the top count is reached by some actor and exceeded by none |
| Cohorts.AssessCohort | src/engine/evaluate.ts:80-131 | the loops compute the statistics and the failures that the thresholds define |
| CohortTheorems.CohortSame | src/engine/evaluate.ts:67-79 | a cohort depends only on which observations lie inside the 30-day horizon, with multiplicity, not on their order |
| CohortTheorems.HealthyBounds | src/engine/evaluate.ts:67-118 | healthy implies at least five exact matches in 24 hours, at least five older ones, and 5(t+1) <= 3(m+1) |
| PreflightRun.CohortFor | src/engine/evaluate.ts:61-132 | the v1.3 filters over deposits yield the cohort of the amount |
| PreflightRun.CohortForV14 | src/engine/evaluate.ts:327-407 | the separate v1.4 code yields the same cohort over its own observations |
| PreflightRun.Enumerate | src/engine/evaluate.ts:160-184 | the candidate map in insertion order holds each observed amount inside the range once, with its cohort |
| PreflightRun.EnumerateV14 | src/engine/evaluate.ts:442-462 | likewise for v1.4, from deposits or withdrawals |
| PreflightRun.PickBest | src/engine/evaluate.ts:185-197 | the three-key sort puts the optimum over the whole range first, and nothing when no amount in it qualifies |
| PreflightRun.FindRegistration | src/engine/evaluate.ts:541-548 | finds a registration of the account in the last 30 minutes exactly when there is one |
| PreflightRun.FindCounterparts | src/engine/evaluate.ts:529-540 | exactly the deposits a withdrawal could be linked to, and the latest of them when it is within the hour |
| PreflightRun.RecommendationFor | src/engine/evaluate.ts:147-206 | the loop-and-sort code returns the specified v1.3 recommendation |
| PreflightRun.RecommendationForV14 | src/engine/evaluate.ts:430-500 | the loop-and-sort code returns the specified v1.4 recommendation |
| PreflightRun.RunPreflight | src/engine/evaluate.ts:208-291 | the v1.3 evaluator computes the specified result for every input, unsupported actions included |
| PreflightRun.RunPreflightV14 | src/engine/evaluate.ts:502-648 | the v1.4 evaluator computes the specified result for every input, decimals out of range included |
| PreflightTheorems.HealthyIsCandidate | src/engine/evaluate.ts:160-184 | an unobserved amount is never healthy, so searching the observed ones loses nothing |
| PreflightTheorems.BestAlternativeOptimal | src/engine/evaluate.ts:147-206 | the alternative is preferred to every other healthy integer in the range, and there is none exactly when no integer qualifies |
| PreflightTheorems.OptimalUnique | src/engine/evaluate.ts:185-197 | the optimum is unique |
| PreflightTheorems.RecommendationDecides | src/engine/evaluate.ts:147-206 | for an unhealthy flexible shield v1.3 proposes a change exactly to the optimum, and refuses exactly when no other amount in the range is healthy |
| PreflightTheorems.RecommendationDecidesV14 | src/engine/evaluate.ts:430-500 | the same for v1.4 shields and withdrawals, where the refusal may become advice to wait |
| PreflightTheorems.PermutedEvidence | src/engine/evaluate.ts:208-233 | reordering observations is no change of evidence |
| PreflightTheorems.EvaluateSame | src/engine/evaluate.ts:208-291 | equal evidence inside the horizon gives the whole v1.3 result unchanged |
| PreflightTheorems.EvaluateSameV14 | src/engine/evaluate.ts:502-648 | equal evidence inside the horizon gives the whole v1.4 result unchanged |
| PreflightTheorems.EntailmentsV13 | src/engine/evaluate.ts:236-271 | S1 fired forces S5 fired, so the band is not LOW |
| PreflightTheorems.EntailmentsV14 | src/engine/evaluate.ts:522-627 | S7 forces S1 and S5 and hence HIGH; S3 forces S2 and hence HIGH |
| PreflightTheorems.RecommendationSettles | src/engine/evaluate.ts:147-206 | following a v1.3 change gives the attached cohort, clears S1 and S5, and ends in LOW / ALLOW with no further advice |
| PreflightTheorems.RecommendationSettlesV14 | src/engine/evaluate.ts:430-478 | following a v1.4 shield change gives the attached cohort, clears S1, S5 and S7, and ends in LOW / ALLOW with no further advice |
| PreflightTheorems.V14ExtendsV13 | src/engine/evaluate.ts:502-648 | on shields v1.4 keeps cohort and S1 to S5, raises the band only when S7 fires and then to HIGH, and turns only refusals into waiting |
| PoolEvents.IdsDistinct | src/starknet/events.ts:38-40 | no two positions of a list share an event identity, whatever duplicates it holds |
| PoolEvents.DuplicatesContiguous | src/indexer/indexer.ts:301-325 | in whatever order events arrive, sorting puts the copies of one event side by side and they receive consecutive ordinals |
| PoolEvents.RawOrderTotal | src/indexer/indexer.ts:67-78 | the order of raw events is total, so only identical events tie |
| PoolEvents.DecodePoolEvent | src/starknet/events.ts:42-142 | a decoded event carries the identity, block, hash and time of its provenance; a header of another block is refused |
| PoolEvents.DecodedWellFormed | src/starknet/events.ts:42-142 | a decoded event has the selector of its kind, valid addresses and an amount within u128 |
| Index.IndexSplit | src/indexer/indexer.ts:571-595 | the index of a range is the concatenation of the indexes of its parts, wherever it is cut into batches |
| Index.OrdinalAcrossCut | src/indexer/indexer.ts:301-311 | ordinals do not depend on earlier batches |
| Index.IndexOfPrefix | src/indexer/indexer.ts:261-347 | growth of the head does not change what was indexed |
| Index.IndexIdentities | src/starknet/events.ts:38-40 | all identities of an index are distinct |
| Index.NoWithdrawalsInV13 | src/indexer/indexer.ts:228-234 | a v1.3 index holds no withdrawal |
| Index.ArrivalOrderIrrelevant | src/indexer/indexer.ts:67-78 | any arrangement of the same events sorts to the same sequence |
| Numerals.PrintRead | src/indexer/store.ts:1155-1191 | a printed numeral is canonical and reads back as its number |
| Numerals.ReadPrint | src/workflow/amounts.ts:4-5 | a canonical numeral is what printing its value gives |
| Snapshots.CanonicalIdempotent | src/starknet/snapshot.ts:28-47 | canonicalising twice is canonicalising once |
| Snapshots.CanonicalForgetsOrder | src/starknet/snapshot.ts:19-47 | with distinct event ids and block numbers the canonical form is the same for every order of the lists |
| Json.MemberOrderIrrelevant | src/starknet/snapshot.ts:4-17 | the sorted rendering of an object does not depend on the order of its members |
| SnapshotJson.StoredRoundTrip | src/indexer/store.ts:1155-1191 | parsing a stored document gives the canonical snapshot, whose document is the stored one, so the hash check passes |
| Store.CanonicalStore.UpsertHeaders | src/indexer/store.ts:665-705 | headers are added one by one and a disagreeing one fails the whole call |
| Store.CanonicalStore.Commit | src/indexer/store.ts:820-852 | headers, events and cursor change together or not at all |
| Store.CanonicalStore.Retain | src/indexer/store.ts:854-867 | headers are added together or not at all, and nothing else changes |
| Store.CanonicalStore.Rollback | src/indexer/store.ts:900-917 | later headers go, with the events and snapshots that depend on them, and the active snapshot is withdrawn |
| Store.CanonicalStore.Reset | src/indexer/store.ts:919-938 | everything but the last error is forgotten |
| Store.CanonicalStore.EnsureModel | src/indexer/store.ts:522-536 | an index of another model version is forgotten, one of the same version untouched |
| Store.CanonicalStore.SetState | src/indexer/store.ts:544-567 | the active snapshot survives exactly under servable statuses |
| Store.CanonicalStore.SetSource | src/indexer/store.ts:645-663 | only the source boundary changes |
| Store.CanonicalStore.Persist | src/indexer/store.ts:1057-1090 | the new row becomes active and at most the two newest others stay |
| Store.CanonicalStore.constructor | src/indexer/store.ts:450-520 | a database is opened as it is, or replayed when it was written under another model |
| Store.CanonicalStore.RecentHeadersDescending | src/indexer/store.ts:869-884 | the highest retained headers, none left out being higher |
| Store.CanonicalStore.LoadObservations | src/indexer/store.ts:944-1011 | every stored row once, under its own kind |
| Store.CanonicalStore.BlockReferences | src/indexer/store.ts:1013-1055 | exactly the mentioned retained headers and the extra ones, each block once, or a refusal when two disagree |
| StoreRuns.LoadServesLastPublished | src/indexer/store.ts:1120-1153 | after any run of operations a load succeeds exactly when a snapshot is active, and gives the last published one that nothing withdrew; the active row is stored and at most three are |
| IndexedStore.CommitAnchored | src/indexer/store.ts:820-852 | committing the next batch of the chain under the cursor keeps the tables an index of that chain |
| IndexedStore.RollbackAnchored | src/indexer/store.ts:900-917 | a rollback keeps exactly what the ancestor's own history contains, on either side of the source block |
| IndexedStore.RetainAnchored | src/indexer/store.ts:854-867 | retaining headers of the cursor's history keeps the invariant |
| IndexedStore.SourceAnchored | src/indexer/indexer.ts:554-560 | choosing a source on the live chain keeps the invariant |
| IndexedStore.FromScratch | src/indexer/indexer.ts:571-595 | with no row below the source, the tables hold exactly the index of the live chain from source to cursor |
| Headers.UniqueHeaders | src/indexer/indexer.ts:112-130 | succeeds exactly when no two headers disagree about a block, and lists each block once in ascending order |
| Freshness.CheckAdjacent | src/starknet/freshness.ts:50-77 | passes exactly when all retained headers with consecutive numbers are linked and monotone |
| Freshness.RequireReference | src/starknet/freshness.ts:79-96 | passes exactly when the point is retained with that hash and timestamp |
| Freshness.CheckReferences | src/starknet/freshness.ts:183-235 | passes exactly when references agree, link up and retain every point the snapshot names |
| Freshness.CheckCoverage | src/starknet/freshness.ts:236-260 | passes exactly when the queried selectors are the expected ones in some order and the horizon is covered |
| Freshness.CheckList | src/starknet/freshness.ts:262-358 | passes exactly when every observation is valid and no identity repeats, across all lists so far |
| Freshness.ValidateSnapshot | src/starknet/freshness.ts:98-386 | accepts exactly the structurally sound and timely snapshots; a sound one is refused only for age, lag or a clock behind |
| Collecting.SortCollected | src/indexer/indexer.ts:67-78 | the position in the provider's answer does not influence the sorted events |
| Collecting.CollectPages | src/indexer/indexer.ts:223-257 | page after page until no token is left yields exactly the matching events of the range; a repeated token is refused |
| Collecting.CountOneMore | src/indexer/indexer.ts:308-311 | the ordinal map counts the events of each transaction seen so far |
| Provider.PublicRpc.GetEvents | src/starknet/rpc.ts:281-283 | pages of one query list exactly the matching events of the range, in any order and any cut |
| BoundarySearch.FindBlockAtOrBeforeTimestamp | src/indexer/indexer.ts:132-157 | returns the first block when the target is not later than it, otherwise the last block not after the target |
| BoundarySearch.BoundaryIsLast | src/indexer/indexer.ts:146-156 | the result is the last block at or before the target exactly when the first block is earlier than the target, or meets it and is not followed by another that does |
| BoundarySearch.EqualTimestampsStopEarly | src/indexer/indexer.ts:147 | two blocks that both meet the target, and the search stops at the first |
| Indexer.IncrementalPublicIndexer.CollectRangeEvents | src/indexer/indexer.ts:214-259 | whatever the pages, the sorted events of the range |
| Indexer.IncrementalPublicIndexer.DecodeEvents | src/indexer/indexer.ts:301-325 | the single pass with its ordinal map yields the index of the range |
| Indexer.IncrementalPublicIndexer.CheckLinks | src/indexer/indexer.ts:283-299 | a batch passes only when its last block follows its parent and its first block follows the cursor's header where it continues it |
| Indexer.IncrementalPublicIndexer.BuildBatch | src/indexer/indexer.ts:261-347 | a batch holds the headers and the index of exactly its range of the live chain |
| Indexer.IncrementalPublicIndexer.RecoverReorg | src/indexer/indexer.ts:349-385 | afterwards the cursor lies on the live chain or there is none; without a fork nothing changes |
| Indexer.IncrementalPublicIndexer.RollBackToAncestor | src/indexer/indexer.ts:366-384 | gives up no block that a recent retained header and the provider's answer vouch for, and resets only when there is none |
| Indexer.IncrementalPublicIndexer.ChooseSource | src/indexer/indexer.ts:539-561 | the source is the searched boundary of the live chain and early enough |
| Indexer.IncrementalPublicIndexer.CatchUp | src/indexer/indexer.ts:571-595 | commits range after range to the target, keeping the invariant after each |
| Indexer.IncrementalPublicIndexer.RetainDenseCursorWindow | src/indexer/indexer.ts:387-417 | every block of the reorg window down to the source is retained afterwards |
| Indexer.IncrementalPublicIndexer.Assemble | src/indexer/indexer.ts:475-520 | the snapshot shows the tables, the cursor, the source and references for every block it mentions |
| Indexer.IncrementalPublicIndexer.CheckSnapshot | src/indexer/indexer.ts:521 | with the horizon met and no row below the source, a refusal can only be about time |
| Indexer.IncrementalPublicIndexer.FinalizeSnapshot | src/indexer/indexer.ts:438-523 | publishes only a validated snapshot of the live chain, which a load then returns |
| Indexer.IncrementalPublicIndexer.SyncOnce | src/indexer/indexer.ts:525-627 | from any anchored tables to anchored tables by the recorded moves; success reaches at least the head seen at the start with an early enough source, failure records its code and keeps serving only when it was transient |
| Indexer.FreedOnlyByReset | src/indexer/indexer.ts:475-523 | an index with an event below its source is published again only after a reset |
| BelowSource.MovesKeepAnchored | src/indexer/store.ts:820-938 | every transaction of the indexer, from any attempt against any chain, keeps the tables the index of one history, the two that choose a source taken as one |
| BelowSource.OnlyDipsLeave | src/indexer/store.ts:900-917 | nothing is stored, or comes next, below the source after a move exactly when it is not a rollback that dips below the source |
| BelowSource.RunStaysAbove | src/indexer/store.ts:820-938 | over every run without such a rollback, no event below the source is stored |
| BelowSource.StuckUntilReset | src/indexer/store.ts:919-938 | an index that starts no later than an event below its source stays so under every move but a reset |
| BelowSource.RowBelowMeansStuck | src/indexer/indexer.ts:475-521 | a stored event below a retained source means such an index |
| BelowSource.RefusedUntilReset | src/indexer/indexer.ts:475-521 | after any moves but a reset, whenever the source is retained an event below it is stored, so the snapshot is refused |
| SourceDip.RowBelowIsReached | src/indexer/indexer.ts:366-384 | a run of moves the indexer makes, with a source where the search puts it and each rollback onto a header of the live chain, from an empty database to sound tables that hold an event below their retained source |
| StrayHeader.ChoiceIsBoth | src/indexer/indexer.ts:544-561 | choosing a source is retaining its header and naming it, one after the other |
| StrayHeader.StepsKeepLoose | src/indexer/indexer.ts:525-621 | with those two transactions apart, every step but a rollback onto a stray header keeps the events the index of one history |
| StrayHeader.RunStaysLoose | src/indexer/indexer.ts:525-621 | over every run of steps, stopped anywhere, the events are the index of one history until such a rollback |
| StrayHeader.LooseFromScratch | src/indexer/indexer.ts:571-595 | stray headers alone change no event: the stored rows are those of the from-scratch index |
| StrayHeader.QuietLandings | src/indexer/store.ts:900-917 | a rollback onto a stray header keeps the events the index of one history exactly when neither history has an event between the fork and that block, as far back as the tables reach |
| StrayServed.StrayGetsServed | src/indexer/indexer.ts:554-560 | a run from an empty database, stopped once between the two transactions, ends with a snapshot that the validator accepts in time, holding a deposit the chain does not have, and with ALLOW where the history gives WARN |
| ForkedSource.CommitsUnlessForked | src/indexer/store.ts:820-852 | the next batch of a chain the cursor lies on always commits, except that before the first commit the retained source block must be on that chain |
| ForkedSource.ForkedUntilReset | src/indexer/indexer.ts:349-353 | over every run without a reset, nothing is committed from chains that do not have the retained source block |
| Publication.ProducerMeetsValidator | src/indexer/indexer.ts:475-521 | an assembled snapshot is structurally sound exactly when no stored row lies below the source block |
| Publication.PersistedIsLoaded | src/indexer/store.ts:1120-1153 | what was persisted last is what a load gives, in canonical form |
| Refinement.ScratchCommits | src/indexer/store.ts:820-852 | a clean range always commits to an empty index in one batch |
| Refinement.ScratchPublishes | src/indexer/indexer.ts:475-521 | for every monotone chain, clean range and good source the from-scratch index has a snapshot that the validator finds sound |
| Refinement.IncrementalEqualsFromScratch | src/indexer/indexer.ts:571-595 | the same events, ordinals and cursor as one single batch over the range committed to an empty index |
| Refinement.SnapshotShowsIndex | src/indexer/indexer.ts:479-520 | the lists of the snapshot are the from-scratch index, kind by kind |
| Refinement.SamePublication | src/indexer/indexer.ts:475-522 | two indexes over the same range of a chain, however they came about, publish the same canonical snapshot and the same text, hence the same hash |
| Supervisor.IndexerSupervisor.RunAttempt | src/operations/indexer-supervisor.ts:93-116 | success leaves the store in step with the provider, with the source strictly before the horizon; failure is recorded |
| Supervisor.IndexerSupervisor.Run | src/operations/indexer-supervisor.ts:118-145 | the same after any number of attempts against any chains, with the wait kept within its bounds |
| Supervisor.RunSessions | src/operations/indexer-supervisor.ts:118-145 | the same from an empty database through any sessions under any model versions, with other attempts stopped after any of these moves in between |
| Supervisor.InStepIsFromScratch | src/indexer/indexer.ts:525-621 | after a success the tables equal those of a single batch over the live chain |
| Supervisor.InStepEvaluatesHistory | src/starknet/preflight.ts:65-108 | from then on, evaluating what is served equals evaluating the whole pool history |
| History.BoundedHistorySuffices | src/operations/indexer-supervisor.ts:104-110 | with the source strictly before the horizon, both versions give the same result on the loaded snapshot as on the whole history |
| History.SnapshotHoldsTheEvidence | src/starknet/freshness.ts:251-260 | with a source no later than the horizon, the loaded snapshot holds the evidence of the whole history exactly when no deposit or withdrawal below the source block was made at the horizon |
| History.HorizonIsInclusive | src/engine/evaluate.ts:67-79 | for one amount: dropping observations no later than the horizon keeps its matches exactly when none of them was made at the horizon |
| HorizonEdge.EdgeDepositDecides | src/engine/evaluate.ts:236-271 | a deposit at the horizon decides whether S1 fires, and with it between ALLOW and WARN |
| HorizonEdge.AcceptedSourceMissesTheEdge | src/starknet/freshness.ts:251-260 | on a concrete chain the searched source lies at the horizon, the validator accepts the snapshot in time, and its verdict differs from that of the whole history |
| OneShot.SelectorBySelector | src/starknet/ingest.ts:220-253 | asking for the selectors one by one finds exactly what one query for all of them finds |
| OneShot.SameContents | src/starknet/ingest.ts:264-279 | events numbered by position say exactly what the index of the range says, and decode exactly when it does |
| OneShot.IdentitiesAgree | src/starknet/ingest.ts:264-275 | the one-shot ingestion and the index use the same identities exactly when all events are of one transaction |
| OneShot.IdentitiesMayDiffer | src/starknet/ingest.ts:264-275 | on a block with two deposits of different transactions the two agree on contents and differ in an identity |
| OneShot.SameContentsSameEvidence | src/engine/evaluate.ts:67-79 | the evaluator does not see how events are numbered |
| Ingest.CollectSelectorEvents | src/starknet/ingest.ts:78-129 | range by range and page by page, exactly the events of one selector |
| Ingest.DecodeAllEvents | src/starknet/ingest.ts:261-279 | succeeds exactly when every event decodes in a known block, and fills the three lists with the events of their kind, numbered by position |
| Ingest.OneShotSameVerdict | src/starknet/ingest.ts:311-343 | evaluating an ingested snapshot equals evaluating the whole pool history, so it agrees with the indexer |
| Ingest.OneShotIsSound | src/starknet/ingest.ts:308-343 | a complete ingested snapshot meets every structural demand of the validator |
| Ingest.IngestPublicSnapshot | src/starknet/ingest.ts:153-349 | a success says what the index of its range says, reaches the head seen at the start, and is sound once covered |
| Failover.FlagMeansOwed | src/operations/rpc-failover.ts:227-230 | the force flag is set exactly while a primary failure is still owed one secondary selection |
| Failover.SuppressionMeansWaiting | src/operations/rpc-failover.ts:227-230 | the suppression time covers exactly the waits of all primary failures so far |
| Failover.PrimaryRegained | src/operations/rpc-failover.ts:298-324 | with both usable and agreeing, primary is chosen exactly when for every failure so far the wait is over and secondary was chosen since |
| Failover.RpcFailoverManager.Probe | src/operations/rpc-failover.ts:180-214 | succeeds exactly for the expected chain with a matching head, and records the outcome |
| Failover.RpcFailoverManager.MarkRuntimeFailure | src/operations/rpc-failover.ts:216-236 | one failure step of the control state, and the provider marked unavailable |
| Failover.RpcFailoverManager.CrossCheck | src/operations/rpc-failover.ts:238-285 | refuses exactly readable disagreement at the common block, marking both degraded |
| Failover.RpcFailoverManager.Select | src/operations/rpc-failover.ts:287-345 | a provider is selected exactly when one is usable and the two do not disagree, and only one probed and readable in this call; of two usable agreeing ones primary exactly when every wait is over and secondary was selected since each failure |
| Failover.TrackedRpc.Call | src/operations/rpc-failover.ts:85-95 | passes the outcome on and extends the recorded run only by the first failure |
| Amounts.UnitsMeaning | src/workflow/amounts.ts:27-33 | the parsed amount is the exact decimal value, digits of both parts read as one numeral |
| Amounts.FormatThenParse | src/workflow/amounts.ts:40-50 | parsing the formatted amount returns it, for every positive u128 and every number of decimals |
| Amounts.ParseThenFormat | src/workflow/amounts.ts:18-38 | formatting a parsed text gives its canonical form, which parses to the same amount |
| Amounts.SameAmountSameText | src/workflow/amounts.ts:18-50 | two accepted texts denote the same amount exactly when their canonical forms coincide |
| Amounts.BaseUnitRoundTrip | src/workflow/amounts.ts:7-16 | base-unit text is accepted exactly when it is the numeral of a positive u128 |
| Amounts.RoundMeansFewDecimals | src/engine/evaluate.ts:409-418 | the evaluator's round amounts are exactly those displayed with at most two decimals |
| Guard.FeltOfAmount | src/starknet/felt.ts:47-49 | the felt of an amount is in canonical spelling and denotes the amount |
| Guard.JoinInjective | src/workflow/guard.ts:396-409 | joining by colons loses nothing: fields without colons cannot be confused with any others, colons or not |
| Guard.BindingInjective | src/workflow/guard.ts:396-409 | the binding of colon-free fields determines chain, pool, account, action, snapshot and decision, whatever is set against them |
| Guard.CompareVersions | src/workflow/guard.ts:117-132 | the component loop decides whether a version is at least the required one |
| Guard.PlanIsFaithful | src/workflow/guard.ts:478-550 | a created plan is for the displayed and selected amount inside the user's bounds, the user's token and the connected account, under fresh evidence that does not deny |
| Guard.CreatedPlanChecks | src/workflow/guard.ts:575-608 | a created plan passes its later re-examination exactly while its evidence is fresh |
| Guard.OnlyTheReviewedDeposit | src/workflow/guard.ts:478-673 | whatever a run was given, the wallet receives only the reviewed deposit: amount, token, account, decision, acknowledgement, approval, and evidence fresh at planning, simulating and authorising |
| Guard.WhatStillHasToHappen | src/workflow/guard.ts:552-673 | once a plan exists, the wallet is reached exactly when the snapshot spelled the pool canonically, the pool was simulated, the user approves, a warning is acknowledged and the evidence is fresh at both later stages |
| Guard.OtherSpellingIsPlannedInVain | src/workflow/guard.ts:478-573 | another spelling of the configured pool is planned like the canonical one, but no run with it reaches the wallet |
| Guard.AlteredAuthorizationRefused | src/workflow/guard.ts:656-673 | an issued authorisation altered in any bound field is refused, whatever the alteration contains |
| Guard.BindingFixesEvidence | src/workflow/guard.ts:275-287 | equal bindings mean equal final intents and equal evidence behind the decision |
| Cover.GroupByAmount | src/cover.ts:168-180 | the single pass groups the recent observations by amount and counts the amounts seen for the first time |
| Cover.CoverAction | src/cover.ts:133-229 | the grouping, shortlist, rows and suggestions are the specified ledger |
| Cover.RowsAgreeWithEvaluator | src/cover.ts:188-204 | a row's count is the evaluator's existing matches, and the trailing events are its traffic |
| Cover.RowsAreTheTop | src/cover.ts:182-187 | rows are seven or all groups in order, and every group left out comes after every row |
| Cover.SecondSortChangesNothing | src/cover.ts:205-212 | the second sort leaves the rows as they are |
| Cover.UnmatchedCountsAmounts | src/cover.ts:224-225 | the share counts the distinct amounts of the last thirty days |
| Cover.CoverForgetsOrder | src/cover.ts:133-229 | the ledger does not depend on the order of the observations |

## Left out

- Each attempt sees one chain whose head may grow. A reorganisation between two calls of the same attempt, for instance
  between reading events and reading headers, is not modelled.
- Liveness: a provider that answers wrongly, or for ever, is not modelled; a provider sends finitely many pages.
- BelowSource.MovesKeepAnchored: takes retaining the source header and naming the source as one move, because with a
  stop between the two the claim is false; `StrayHeader` takes them apart and says what remains true.
- Supervisor.RunSessions: leaves out the stop between these two transactions, for the same reason.
- The constructors' argument checks of `src/indexer/indexer.ts:185-190` and
  `src/operations/indexer-supervisor.ts:59-69` are preconditions of the constructors here.
- `rawPublicJson`, ingestion batch rows, provider state rows, metrics, progress messages and timings: bookkeeping that
  no other modelled behaviour reads.
- SQLite, schema migrations, read-only opening, the chain, pool and ABI checks on opening a database
  (`src/indexer/store.ts:472-507`), backups, and error codes unknown to the program.
- SHA-256, JSON escaping and number syntax: a document is a value tree, and its hash is a function of the tree. The
  scalar members of a snapshot travel as one member.
- Felts, addresses, selectors and transaction hashes are normalised values, which felts are addresses is a given
  predicate, and text collation is an arbitrary total order; in `Guard` addresses are text under an abstract idempotent
  normaliser that accepts no colon, felts are concrete text.
- The duplicated `normalizedFields` of observations, and the validator's comparison of them.
- The safe-integer limit on block numbers and timestamps, except where `syncOnce` checks it.
- The texts that explain signals in an evaluation result, and `nonClaims`.
- Floating-point shares: shares are exact ratios compared by cross-multiplication.
- Waiting between attempts and the stop request of the supervisor; only the sequence of attempts is modelled.
- ABI fixture review and its comparison with the live class (`src/starknet/ingest.ts:162-168`, `:188-189`).
- HTTP routes, user interface, wallet discovery, receipts and the Python census.
- Wallet simulation and submission calls: their answers are inputs; the version text of the wallet is taken as parsed.
- Shape checks on untyped JSON intents (`src/workflow/guard.ts:40-103`): intents are typed records here.
