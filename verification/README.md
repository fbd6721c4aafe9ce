# Printer V1 discovery, verified

A Dafny model of the discovery-to-tracking pipeline under `src/printer_v1/discovery`, with proofs of what
its components promise over whole rounds, cycles, executions and runs.

| component | modules |
|---|---|
| persistent eligible supply: rounds over a token inventory under a budget, a round cap and a deadline, ending ready or with one shortage verdict | `SupplyCampaign`, `CampaignEvidence`, `ShortCampaigns`, `EligibleSupply`, `LiquidityFrontDoor`, `RefreshBatch`, `ShortageVerdict` |
| combined executor: work rows and scheduler jobs, the merge, the categorical selection, the two-slot handoff inside a savepoint, the outer transaction | `CombinedExecutor`, `SelectedCycle`, `TrackingHandoff`, `SchedulerParity`, `CategoricalSelection`, `SeededShuffle`, `IdentityMerge`, `IdentityKeys` |
| frozen candidate acquisition: normalization, the eleven-stage admission funnel, the exact-N manifest, chaining cursor heads | `FrozenAcquisition`, `AdmissionFunnel`, `CursorHeads` |
| batch selection and rotation: the rotation table, the quota composer and its validator, the two-token selector | `SelectionRotation`, `QuotaView`, `TwoTokenSelection` |
| migration intake: a deduplicating loop over two mutually inverse maps | `MigrationIntake` |
| shared definitions: distinctness, permutations, filtering, stable sorting by text keys | `Common`, `Ordering` |

`dafny verify dfyconfig.toml` checks the whole project.

## How the code is rendered

- A database table is a map or a sequence held in a field of a class (`Ledger`, `Connection`, `SupplyStore`,
  `RotationState`, `MarketFloor`, `CursorTable`, `AcquisitionStore`). A savepoint and an outer transaction are saved
  copies of these fields. Methods change the fields in place, and each is proved against a function of the old state.
- A row number is a position: rows are appended, never deleted.
- SHA-256 is a function parameter; where identity rests on it, a lemma asks for injectivity. The shuffle is proved
  over arbitrary in-range choices first.
- The clock, the registry, the market and the tracking assessments are functions of the round. They may change
  between rounds; `FixedRegistry` names the case in which the inventory does not.
- Anything that may raise inside a stage or between two steps of a handoff is a field of the plan, so that the
  proofs cover a failure at every step.
- `complete_job`, `fail_job` without retries and `cancel_job` take an active job to SUCCEEDED, FAILED and CANCELLED.
- Timestamps are integers. Liquidity is a real number.

## Where code and documentation part

Each of these is a property that one would expect and that fails; the model follows the code, and the lemmas say
exactly when the property holds.

- A refresh batch of one over two non-empty partitions has two rows, so a campaign can exceed its operation budget by
  one, although the comment at `eligible_token_supply.py:879-881` says that it cannot. It does exactly when the last
  round began with one operation left and its two rows both called the market (`SupplyCampaign.OperationsBounded`);
  `ShortCampaigns.ACampaignPastItsBudget` is one that does.
- The first shortage classifier and the overrides after it need not agree; `ShortageVerdict.ClassifiersAgreeExactly`
  says when they do. `ShortCampaigns.OneOperationForTwoTokens` is a family of campaigns that end with their last
  operation, where one blames the budget and the other the market.
- The round cap reports that all reachable candidates were evaluated. That holds while the budget has not shrunk a
  batch (`SupplyCampaign.CapNeverFiresEarly`). Over tokens that need no market call it fails exactly when there are
  more of them than the allowed rounds can take: min(batch, operations left) a round, or one of each partition when
  that is one (`ShortCampaigns.CapFiresEarlyExactly`, `ShortCampaigns.CapLeavesATokenUnexplored`).
- `combined_executor.py:929` expects that a cycle may be replayed. The insert of the first work row rejects any row
  that has already ended, so a committed batch is never committed again (`CombinedExecutor.ReplayNeverCommits`), and an
  executor that remembers a completed cycle never completes another (`CombinedExecutor.ExecutorCompletesOnce`).
- `COOLDOWN_REQUALIFICATION_REQUIRED` is not among the codes at `combined_executor.py:856-870` that are committed as a
  failed batch, so it undoes the whole cycle. A faultless cycle is undone exactly when the first token that cannot be
  claimed has a lapsed cooldown and no fresh evidence (`CombinedExecutor.FailedHandoffIsUndoneExactly`,
  `CombinedExecutor.CooledDownTokenUndoesTheCycle`).
- A vacated slot row is reused with all its old fields, its mint included
  (`TrackingHandoff.SlotNamesTheHandedOffToken`, `TrackingHandoff.ReusedSlotKeepsItsOldToken`).
- The round robin over categories is meant to rotate fairly, but every cycle has its own seed. Two categories get one
  turn each exactly when the seeds of two consecutive cycles compare their hashes alike
  (`CategoricalSelection.TurnsNeedOneSeed`); `CategoricalSelection.ACategoryTakesBothTurns` is a case in which they do
  not, and `CategoricalSelection.SeedsThatAgreeAreFair` is the general case in which they do.
- `run_candidate_acquisition` says that it replays idempotently. A replay conflicts as soon as the next batch sequence
  or a blocking reason has changed since the first run (`FrozenAcquisition.ReplaySucceedsExactly`,
  `FrozenAcquisition.ReplayConflictsAfterBatch`).
- A range row is written only for the first cursor of a round, so two namespaces cannot both advance in one round
  (`CursorHeads.OneAdvancePerRound`, `CursorHeads.TwoNamespacesAreRefused`).
- The quota composer exceeds its Group A limit exactly when the audit pick is Group A, the limit is two, and both a
  trap and a winner exist (`QuotaView.GroupALimitExactly`).
- The two-token selector misses a lawful pair when its first accepted candidate has no partner
  (`TwoTokenSelection.ReadyExactlyWhenFirstHasPartner`, `TwoTokenSelection.SelectorMissesAPair`).
- Recording a batch with an older number makes the rotation table forget a newer selection
  (`SelectionRotation.OldNumberForgetsNewerSelection`). For any history the checks answer as a scan exactly when every
  selection is outlived by a row (`SelectionRotation.TokenGateExactly`, `SelectionRotation.PairGateExactly`).
- Merging migration rounds can drop a pair that one pass over all events keeps
  (`MigrationIntake.MergeOfRoundsCanLoseAPair`). It keeps the same pairs after every round exactly when no round hides
  a pair, and at the end exactly when the rounds' pairs follow those of the pass
  (`MigrationIntake.MergeOfRoundsExactly`, `MigrationIntake.MergeAtEndExactly`).
- A pair that one migration round records as a conflict may be used after the merge. None is exactly when every offer
  of such a pair by another round is skipped (`MigrationIntake.ConflictsUnusedExactly`, `MigrationIntake.AUsedConflict`).
- A bar in the mint or in the lifecycle makes two identities share a key (`IdentityKeys.JoinKeyCollidesExactly`). The
  source trims the parts and refuses a blank mint, so some such texts have no second reading; the exact condition for
  accepted identities is `IdentityKeys.AcceptedKeySharedExactly`.

## Model

| member | source | states |
|---|---|---|
| `SupplyCampaign.RunPersistentSupply` | src/printer_v1/discovery/eligible_token_supply.py:513-1160 | The result is `SupplyOf`, a function of configuration, world, reserve and floor table; a completed campaign ends with every clause of `CampaignEnds` (account, validation, budget, walk, order of evaluation, explained stop, verdict), and `CampaignEvidence` restates its verdict over the replies; a blank seed, a capacity or a batch below one is refused without touching the store; otherwise only a failure no governed source owns aborts it |
| `SupplyCampaign.HonestExhaustion` | src/printer_v1/discovery/eligible_token_supply.py:1077-1160 | A campaign that ends short blames the market exactly when the refreshed inventory was evaluated in full, something was evaluated, no fault outcome or governed failure occurred, nothing was tracking-blocked, and it stopped for lack of candidates |
| `SupplyCampaign.EvidenceFailedExactly` | src/printer_v1/discovery/eligible_token_supply.py:954-994 | The facts given to the classifiers report failed evidence exactly when a candidate showed a fault outcome or a stage failure was attributed |
| `SupplyCampaign.BudgetOrArchitecture` | src/printer_v1/discovery/eligible_token_supply.py:1077-1160 | A short campaign without failed evidence blames the budget exactly when it stopped the walk, or tokens were left unexplored, unblocked and in time with no operation to spare; and the architecture exactly when operations were left too |
| `CampaignEvidence.CandidatesAreJudged` | src/printer_v1/discovery/eligible_token_supply.py:854-1059 | Every candidate of a campaign is its registry row judged on the floor table the campaign found and on the market's reply in one of its rounds |
| `CampaignEvidence.CandidateOutcome` | src/printer_v1/discovery/graduated_liquidity_front_door.py:294-328 | A candidate has a market outcome exactly when its row needed a market call and the reply has the form that goes with the outcome |
| `CampaignEvidence.NoFaultExactly` | src/printer_v1/discovery/eligible_token_supply.py:942-994 | No candidate shows a fault outcome exactly when every reply that was needed is an answer whose single exact pair, if there is one, carries an amount |
| `CampaignEvidence.HonestOverReplies` | src/printer_v1/discovery/eligible_token_supply.py:1077-1160 | Honest exhaustion over the replies: the condition for blaming the market, with every reply that was needed an answer that carries evidence |
| `CampaignEvidence.ShortageNamesTheReplies` | src/printer_v1/discovery/eligible_token_supply.py:1094-1160 | One unavailable source makes a short campaign a source failure, otherwise one limited or stale reply makes it stale evidence, otherwise one malformed or partial reply a visibility shortage |
| `SupplyCampaign.Coverage` | src/printer_v1/discovery/eligible_token_supply.py:841-1075 | Over a fixed inventory, with a budget for one call per token and one more batch, a short campaign has evaluated every token unless its deadline passed, and neither budget nor architecture is blamed |
| `SupplyCampaign.CapNeverFiresEarly` | src/printer_v1/discovery/eligible_token_supply.py:849-857 | When the budget never shrank a batch over a fixed inventory, the round cap and an empty walk stop only a campaign that has evaluated every token |
| `ShortCampaigns.CapFiresEarlyExactly` | src/printer_v1/discovery/eligible_token_supply.py:849-1160 | Over tokens that need no market call, with any number of operations left: the inventory is covered exactly when it has at most cap times min(batch, operations left) tokens, or, for batches of one, when neither kind has more tokens than the cap has rounds; otherwise the architecture is blamed |
| `ShortCampaigns.CapLeavesATokenUnexplored` | src/printer_v1/discovery/eligible_token_supply.py:849-857 | Four unconfirmed tokens, batches of five and one operation: the cap of three rounds leaves a token unexplored |
| `SupplyCampaign.CapLeavesRoom` | src/printer_v1/discovery/eligible_token_supply.py:849-857 | A walk that advances by full batches stays two rounds below the cap of `inventory // batch + 3` |
| `SupplyCampaign.RoundAdvances` | src/printer_v1/discovery/eligible_token_supply.py:876-915 | Each round over a fixed inventory completes it or evaluates one more full batch; a focused first round takes at least one token |
| `SupplyCampaign.ShortBatchCompletes` | src/printer_v1/discovery/graduated_liquidity_front_door.py:1016-1058 | A batch that is not full has taken every token it could draw from |
| `SupplyCampaign.AvailableIsUnexplored` | src/printer_v1/discovery/eligible_token_supply.py:841-842 | The rows a batch may draw from are as many as the unexplored mints |
| `SupplyCampaign.EvaluatedOnce` | src/printer_v1/discovery/eligible_token_supply.py:998-1013 | No mint is evaluated twice: evaluated mints are the blocked ones plus one per candidate, and no duplicate is ever seen |
| `SupplyCampaign.ReserveFreshness` | src/printer_v1/discovery/eligible_token_supply.py:742-829 | After a campaign the fresh reserve rows are exactly the tokens it validated itself, at or above the floor on their own pool in one of its rounds; every row that was fresh or stale before is now stale, excluded or removed, and no other row has moved |
| `SupplyCampaign.SmallReserveIsRevalidated` | src/printer_v1/discovery/eligible_token_supply.py:844-886 | A prior reserve that fits into the first batch is evaluated in full before anything else |
| `SupplyCampaign.FocusTaken` | src/printer_v1/discovery/eligible_token_supply.py:865-886 | A focused round takes only members of its focus, as many as fit |
| `SupplyCampaign.OperationsBounded` | src/printer_v1/discovery/eligible_token_supply.py:832-928 | Operations pass both the budget and the starting usage exactly when the last round began with one operation left and its batch of one met two non-empty partitions and called the market for both rows; they never exceed the larger of the starting usage and budget + 1 |
| `SupplyCampaign.OvershootingRound` | src/printer_v1/discovery/eligible_token_supply.py:876-882 | A round that begins with one operation left and takes two rows of two partitions that both need a market call meets the overshooting condition |
| `ShortCampaigns.OneOperationForTwoTokens` | src/printer_v1/discovery/eligible_token_supply.py:876-1160 | A latest and a persisted token that the market does not know, and one operation left: the campaign ends at budget + 1, and its verdict blames the market where the first classifier blames the budget |
| `ShortCampaigns.ACampaignPastItsBudget` | src/printer_v1/discovery/eligible_token_supply.py:876-928 | A two-row world in which a campaign with a budget of one uses two operations |
| `SupplyCampaign.BudgetRound` | src/printer_v1/discovery/eligible_token_supply.py:876-928 | A round keeps the budget bound, with the two-row batch as the only way past it |
| `SupplyCampaign.AccountStarts` | src/printer_v1/discovery/eligible_token_supply.py:742-829 | Ageing the reserve and excluding tracked tokens opens an account that agrees with the reserve |
| `SupplyCampaign.AccountRound` | src/printer_v1/discovery/eligible_token_supply.py:886-1059 | A round keeps evaluated mints, reserve rows, outcome counts, operations and unavailable channels in agreement with the candidates |
| `SupplyCampaign.ValidatedRound` | src/printer_v1/discovery/eligible_token_supply.py:1001-1059 | Every token counted towards capacity met the floor on its own pool in some round of this campaign |
| `SupplyCampaign.RoundHolds` | src/printer_v1/discovery/eligible_token_supply.py:854-1075 | One round keeps everything a campaign promises about account, validation, budget and walk |
| `SupplyCampaign.RoundOrders` | src/printer_v1/discovery/eligible_token_supply.py:865-886 | One round keeps the order in which prior reserve members come first |
| `SupplyCampaign.EarlyStopExplained` | src/printer_v1/discovery/eligible_token_supply.py:854-874 | Every stop before a round is justified by the state: cap, budget, deadline, or nothing left |
| `SupplyCampaign.StopsBeforeRoundExactly` | src/printer_v1/discovery/eligible_token_supply.py:849-874 | Each reason not to begin a round, both directions: the cap of inventory // batch + 3 rounds, then the budget, the deadline, and an inventory without unexplored tokens and nothing left to revalidate |
| `SupplyCampaign.StopsAfterRoundExactly` | src/printer_v1/discovery/eligible_token_supply.py:996-1075 | Each reason to stop after a round, both directions; an empty focused round is tried again while tokens are unexplored |
| `SupplyCampaign.LateStopExplained` | src/printer_v1/discovery/eligible_token_supply.py:996-1075 | Every stop after a round is justified: empty batch only over a changing registry, capacity met, or inventory covered |
| `SupplyCampaign.StartCampaign` | src/printer_v1/discovery/eligible_token_supply.py:742-833 | The opened account, before any round |
| `SupplyCampaign.EvaluateRound` | src/printer_v1/discovery/eligible_token_supply.py:876-994 | Choosing, evaluating and counting a batch: what the round reports and the floor table it leaves |
| `SupplyCampaign.RunRound` | src/printer_v1/discovery/eligible_token_supply.py:876-1059 | A full round: its result and floor table, and the campaign invariant and reserve-first order it keeps in the store |
| `SupplyCampaign.NextRoundHolds` | src/printer_v1/discovery/eligible_token_supply.py:876-1059 | Whatever front door answers with lawful batches, a round that is not aborted keeps the campaign invariant and the reserve-first order, and is empty only over a changing registry |
| `SupplyCampaign.RunOnce` | src/printer_v1/discovery/eligible_token_supply.py:854-1075 | One pass of the loop goes on with the invariant, stops with an explained reason, or aborts on a failure without an owner |
| `SupplyCampaign.RunRounds` | src/printer_v1/discovery/eligible_token_supply.py:854-1075 | The loop is the walk `Walked`; it terminates with the invariant and an explained stop, or on a failure without an owner |
| `EligibleSupply.SupplyStore.MarkPriorReserveStale` | src/printer_v1/discovery/eligible_token_supply.py:742-751 | Exactly the fresh and stale rows become stale, and their mints are the prior reserve |
| `EligibleSupply.SupplyStore.TrackingPrecheck` | src/printer_v1/discovery/eligible_token_supply.py:757-829 | The blocked mints are those tracking holds, and of the prior reserve exactly these are excluded |
| `EligibleSupply.SupplyStore.AdmitBatch` | src/printer_v1/discovery/eligible_token_supply.py:1001-1059 | The account and the reserve after admitting a batch, candidate by candidate |
| `EligibleSupply.AdmitOne` | src/printer_v1/discovery/eligible_token_supply.py:1001-1059 | Admitting one new candidate keeps the ledger and makes its reserve row fresh, removed or absent as its outcome says |
| `EligibleSupply.AdmitAllRecords` | src/printer_v1/discovery/eligible_token_supply.py:998-1013 | A batch of new mints is recorded in full: nothing is dropped as a duplicate |
| `EligibleSupply.AdmitAllKeeps` | src/printer_v1/discovery/eligible_token_supply.py:1001-1059 | Admitting a batch keeps ledger and reserve in agreement |
| `EligibleSupply.CountOutcomes` | src/printer_v1/discovery/eligible_token_supply.py:942-987 | The counting loop: outcomes, attributed failures and unavailable channels of a batch, or its first failure without an owner |
| `EligibleSupply.CountedBatchIs` | src/printer_v1/discovery/eligible_token_supply.py:942-987 | A batch is counted in full exactly when every failure in it has a governed owner, counters grow by its outcomes, and the market channel is unavailable once a source fault was counted |
| `EligibleSupply.FailuresAttributed` | src/printer_v1/discovery/eligible_token_supply.py:954-987 | The failures on record after a batch are those before it and the failure of every candidate, under the source and request kind that own it |
| `EligibleSupply.FrontDoorRound` | src/printer_v1/discovery/eligible_token_supply.py:886-994 | The batch of a round, its counts and the floor table it leaves |
| `EligibleSupply.RoundBatchIs` | src/printer_v1/discovery/graduated_liquidity_front_door.py:1016-1058 | The batch of a round consists of distinct, non-excluded registry rows, has the exact size, and is eligible only on its own round's evidence |
| `EligibleSupply.DoorIsLawful` | src/printer_v1/discovery/graduated_liquidity_front_door.py:1016-1058 | The front door of a campaign answers every request with such a batch |
| `ShortageVerdict.MarketIsBlamedExactlyWhen` | src/printer_v1/discovery/eligible_token_supply.py:340-396 | The exact condition under which the classifier and the overrides after it end at a true market shortage |
| `ShortageVerdict.BudgetIsBlamedExactlyWhen` | src/printer_v1/discovery/eligible_token_supply.py:1094-1159 | The exact condition, without failed evidence, under which the budget is blamed |
| `ShortageVerdict.ArchitectureIsBlamedExactlyWhen` | src/printer_v1/discovery/eligible_token_supply.py:1094-1159 | The architecture is blamed exactly when lawful work, budget and time were all left over and no evidence failed |
| `ShortageVerdict.ClassifiersDisagree` | src/printer_v1/discovery/eligible_token_supply.py:340-396 | There are facts on which the first classifier blames the budget and the final verdict blames the market |
| `ShortageVerdict.ClassifierExactly` | src/printer_v1/discovery/eligible_token_supply.py:340-396 | Without failed evidence, each label of the first classifier, both directions |
| `ShortageVerdict.ClassifiersAgreeExactly` | src/printer_v1/discovery/eligible_token_supply.py:340-396 | The first classifier and the final verdict agree exactly when evidence failed, or an exhausted budget or deadline also shows in what is left, or a walk that ended unblocked left tokens unexplored, or time and operations |
| `ShortageVerdict.ExhaustedWalkIgnoresLeftovers` | src/printer_v1/discovery/eligible_token_supply.py:1094-1159 | When every channel is exhausted the verdict does not depend on the operations or time left |
| `RefreshBatch.CombineSize` | src/printer_v1/discovery/graduated_liquidity_front_door.py:1016-1058 | The size of a combined batch, with the two-row exception for a batch of one over two non-empty partitions |
| `RefreshBatch.CombineIsPrefixes` | src/printer_v1/discovery/graduated_liquidity_front_door.py:1016-1058 | A batch is a prefix of each partition's order, and takes from both when it can |
| `RefreshBatch.BatchSize` | src/printer_v1/discovery/graduated_liquidity_front_door.py:1016-1058 | A batch has min(max_candidates, available) rows, or two in the exceptional case |
| `RefreshBatch.BatchRows` | src/printer_v1/discovery/graduated_liquidity_front_door.py:1016-1058 | Batch rows are distinct registry rows that were not excluded |
| `RefreshBatch.BatchOfOneTakesEach` | src/printer_v1/discovery/graduated_liquidity_front_door.py:1016-1058 | A batch of one takes the first row of each partition that has one |
| `RefreshBatch.BatchIgnoresProviderOrder` | src/printer_v1/discovery/graduated_liquidity_front_door.py:1016-1058 | The batch does not depend on the order in which the registry lists its rows |
| `LiquidityFrontDoor.ProvenExactly` | src/printer_v1/discovery/graduated_liquidity_front_door.py:230-277 | A source reply proves a liquidity value exactly when it carries that value for exactly one item of this mint on this pool; above the floor means proven |
| `LiquidityFrontDoor.OutcomeExactly` | src/printer_v1/discovery/graduated_liquidity_front_door.py:230-328 | Every outcome category, both directions, from the reply alone: status, failure text, the exact pair and its amount; an unanswered reply that says nothing of limits, staleness or malformed data is an unavailable source |
| `LiquidityFrontDoor.ReasonExactly` | src/printer_v1/discovery/graduated_liquidity_front_door.py:230-277 | Every recorded reason, both directions, from the reply alone |
| `LiquidityFrontDoor.EligibleExactly` | src/printer_v1/discovery/graduated_liquidity_front_door.py:1178-1288 | A row is eligible exactly when it is not in cooldown and the market shows its exact pool at or above the floor |
| `LiquidityFrontDoor.BatchEligibility` | src/printer_v1/discovery/graduated_liquidity_front_door.py:1178-1288 | Every eligible candidate of a batch met the floor in this batch |
| `LiquidityFrontDoor.ChargedExactlyForMarketCalls` | src/printer_v1/discovery/graduated_liquidity_front_door.py:1178-1288 | A row is charged one operation exactly when it needed a market call |
| `LiquidityFrontDoor.RowIsJudged` | src/printer_v1/discovery/graduated_liquidity_front_door.py:1178-1288 | What a candidate says about its row: unconfirmed, in cooldown, or the outcome its reply has the form of; its failure, its rejection, and whether it is a latest token |
| `LiquidityFrontDoor.EvaluatedApart` | src/printer_v1/discovery/graduated_liquidity_front_door.py:1178-1288 | Rows of different mints are judged as if each were evaluated alone on the floor table the batch found |
| `LiquidityFrontDoor.MarketFloor.EvaluateOne` | src/printer_v1/discovery/graduated_liquidity_front_door.py:1178-1288 | One row: its candidate, the floor table it leaves, and one market call exactly when identity and cooldown do not decide |
| `LiquidityFrontDoor.BelowFloorIsNotRecheckedWithinAnHour` | src/printer_v1/discovery/graduated_liquidity_front_door.py:958-1013 | Over any run of row visits with a non-decreasing clock, a token found below the floor gets no market call for an hour |
| `LiquidityFrontDoor.MeasuredAgainExactly` | src/printer_v1/discovery/graduated_liquidity_front_door.py:958-1013 | Counted from its last measurement, a confirmed mint is measured again exactly when that found it at the floor or nothing, or an hour has passed |
| `LiquidityFrontDoor.MarketFloor.EvaluateBatch` | src/printer_v1/discovery/graduated_liquidity_front_door.py:1178-1288 | The candidates of a batch, each with the outcome its own reply has the form of, on the floor table that the rows before it left; the floor table at the end and the market calls |
| `SchedulerParity.Ledger.TerminalizeSchedulerJobForWork` | src/printer_v1/discovery/scheduler_parity.py:59-89 | Only an active job is driven, to the outcome of its work state; an unmapped state raises |
| `SchedulerParity.Ledger.CancelOpenRows` | src/printer_v1/discovery/scheduler_parity.py:139-157 | Exactly the open rows of the batch are cancelled, keeping a cause they already have |
| `SchedulerParity.AbandonedExactly` | src/printer_v1/discovery/scheduler_parity.py:139-157 | Exactly the pending, running and cooling rows of the batch become cancelled, each keeping a cause it has; every other row is as it was |
| `SchedulerParity.Ledger.DriveRows` | src/printer_v1/discovery/scheduler_parity.py:158-178 | Whatever the row order, every linked job follows a row, and the action count is the number of changed jobs |
| `SchedulerParity.Ledger.Reconcile` | src/printer_v1/discovery/scheduler_parity.py:92-198 | After a reconciliation no row of the batch is open, linked jobs follow, and the report counts exactly what was done |
| `SchedulerParity.LinkedJobEnds` | src/printer_v1/discovery/scheduler_parity.py:92-198 | Every job a reconciled row links to ends terminal |
| `SchedulerParity.TerminalJobsAreImmutable` | src/printer_v1/discovery/scheduler_parity.py:59-89 | A terminal job is never rewritten, and no reconciliation changes anything but a status |
| `SchedulerParity.ReconcileIsIdempotent` | src/printer_v1/discovery/scheduler_parity.py:92-198 | A second reconciliation, whatever cause it names, changes nothing |
| `SchedulerParity.ReconcileRestoresParity` | src/printer_v1/discovery/scheduler_parity.py:92-198 | From rows that may have ended ahead of their jobs, reconciliation restores full agreement of rows and jobs |
| `SchedulerParity.OwnersAreUnique` | src/printer_v1/discovery/combined_executor.py:910-956 | Two rows that agree with their jobs never own the same job |
| `SchedulerParity.ActiveDuplicateIsNewest` | src/printer_v1/discovery/combined_executor.py:934-949 | When an active job blocks an enqueue, the newest job of that name is that active job |
| `SchedulerParity.EnqueueKeepsParity` | src/printer_v1/discovery/combined_executor.py:910-956 | Enqueuing a job keeps rows and jobs in agreement |
| `SchedulerParity.OpeningKeepsParity` | src/printer_v1/discovery/combined_executor.py:910-956 | Opening a row on an active job of its own name keeps agreement |
| `SchedulerParity.EndingKeepsParity` | src/printer_v1/discovery/combined_executor.py:958-992 | Ending a row and driving its job keeps agreement for every other row |
| `TrackingHandoff.CreateWork` | src/printer_v1/discovery/combined_executor.py:910-956 | The ceiling fault, the conflict fault, or the new running row linked to the newest job of its name with one unit charged |
| `TrackingHandoff.TerminalizeWork` | src/printer_v1/discovery/combined_executor.py:958-992 | The row ends with its cause and its job with the matching outcome |
| `TrackingHandoff.ValidateInitialHandoffPreflight` | src/printer_v1/discovery/combined_executor.py:2199-2244 | The first reason not to start, in the order of the checks (`PreflightExactly`) |
| `TrackingHandoff.PreflightExactly` | src/printer_v1/discovery/combined_executor.py:2199-2244 | Each refusal of a preflight, both directions: not two tokens for ordinals 1 and 2, a handoff counted already, more than nine work rows, a token without identity or origin, an ordinal in use |
| `TrackingHandoff.TakeSlot` | src/printer_v1/discovery/combined_executor.py:2396-2443 | A slot held by another token is refused, a vacated one is reused, and a new row is written as `NewSlotRow` says |
| `TrackingHandoff.SlotRefusalExactly` | src/printer_v1/discovery/combined_executor.py:2396-2443 | Each refusal of a slot, both directions: another token holds it, an initial handoff finds it in use, or the slot table would reject the new row |
| `TrackingHandoff.NewSlotRow` | src/printer_v1/discovery/combined_executor.py:2396-2443 | The row of a free ordinal has this token, its exact pool and lifecycle, state SELECTED, the id of its cycle and ordinal, and the index of the queue row added for that mint and pool; a row that was there keeps every field |
| `TrackingHandoff.ClaimSlot` | src/printer_v1/discovery/combined_executor.py:2246-2479 | The first fault of one claim, or exactly the identity, queue, job, slot, item and link rows it writes |
| `TrackingHandoff.ClaimFaultExactly` | src/printer_v1/discovery/combined_executor.py:2246-2479 | What stops a claim is the first failing check, in the order of the writes, with its code |
| `TrackingHandoff.HandoffOneSlot` | src/printer_v1/discovery/combined_executor.py:2246-2485 | The first fault, or one more handoff within the ceiling, a succeeded work row, and all tables of the slot |
| `TrackingHandoff.HandoffBothSlots` | src/printer_v1/discovery/combined_executor.py:2618-2667 | The first fault of either slot, the second judged on what the first left, or both slots done |
| `TrackingHandoff.PairFaultIsFirst` | src/printer_v1/discovery/combined_executor.py:2618-2667 | Inside the savepoint: a known selection batch, one linked elsewhere, the first slot, then the second on what the first has left, whichever fails first |
| `TrackingHandoff.OpenHandoffWork` | src/printer_v1/discovery/combined_executor.py:2603-2617 | Both handoff rows are open before the savepoint and nothing else changed |
| `TrackingHandoff.HandoffUnderSavepoint` | src/printer_v1/discovery/combined_executor.py:2618-2687 | Committed in full with handoffs raised by two, or tracking tables and handoff count restored and both rows failed with their jobs under the reported cause |
| `TrackingHandoff.FailHandoffWork` | src/printer_v1/discovery/combined_executor.py:2668-2687 | Both handoff rows and their jobs end failed, and nothing else changes |
| `TrackingHandoff.AtomicInitialTwoSlotHandoff` | src/printer_v1/discovery/combined_executor.py:2578-2687 | All or nothing, whichever step of either slot fails, and the outcome is decided by the state it starts from; after a success both ordinals, identities, the selection batch and the two first-window jobs are written as `HandoffWritten` lists them; a handoff turned away before it starts changes nothing |
| `TrackingHandoff.BothSlotsAreWritten` | src/printer_v1/discovery/combined_executor.py:2246-2485 | After a completed handoff: for both ordinals, where free, the slot row with its own mint, exact pool and lifecycle, state, id and queue row; every other slot and pair unchanged; both tokens known; the selection batch linked |
| `TrackingHandoff.HandoffFaultExactly` | src/printer_v1/discovery/combined_executor.py:2578-2687 | After a preflight that passes, the first of: the injected refusal, either row that cannot be opened, what stops either slot; a fault without a code is reported as one of the second slot |
| `TrackingHandoff.BothSlotsHandedOff` | src/printer_v1/discovery/combined_executor.py:2578-2687 | Two successful slots leave only their own rows, jobs and tables changed, with the two first-window jobs last |
| `TrackingHandoff.BothFailed` | src/printer_v1/discovery/combined_executor.py:2668-2687 | Failing both rows touches no other row or job and leaves both jobs terminal |
| `TrackingHandoff.BothSlotsComplete` | src/printer_v1/discovery/combined_executor.py:2246-2485 | A completed handoff has two different exact pairs, one queue row, item and link each, links that name their own job, and a slot row at both ordinals |
| `TrackingHandoff.ClaimedPairIsRefused` | src/printer_v1/lifecycle/tracking_queue.py:133-217 | Once an exact pair is queued, a further claim on it is refused |
| `TrackingHandoff.AssessedByStatus` | src/printer_v1/lifecycle/tracking_queue.py:133-217 | The newest row of an exact token and pair decides by its status: a live row, a running cooldown, a terminal row and an unknown status each refuse with their own code, and only a lapsed cooldown asks for fresh evidence |
| `TrackingHandoff.MayClaimExactly` | src/printer_v1/lifecycle/tracking_queue.py:133-217 | A token may be claimed exactly when its pair was never queued, or its last row is a lapsed cooldown and fresh evidence was evaluated |
| `TrackingHandoff.SlotNamesTheHandedOffToken` | src/printer_v1/discovery/combined_executor.py:2396-2443 | A slot row names the token that was handed off exactly when the ordinal was free or already named it |
| `TrackingHandoff.ReusedSlotKeepsItsOldToken` | src/printer_v1/discovery/combined_executor.py:2396-2443 | A vacated slot row that is reused still names its old token |
| `CombinedExecutor.RunStage` | src/printer_v1/discovery/combined_executor.py:1394-1582 | One stage opens and ends its row with the stage's outcome, or raises, or is left out when its lane is not planned |
| `CombinedExecutor.RunIntake` | src/printer_v1/discovery/combined_executor.py:637-757 | The stages in order, up to the first that raises |
| `CombinedExecutor.IntakeRecords` | src/printer_v1/discovery/combined_executor.py:637-757 | After the intake every stage that ran has a row that says how it ended, and nothing that had ended was touched |
| `CombinedExecutor.IntakeRows` | src/printer_v1/discovery/combined_executor.py:637-757 | The intake adds exactly one row of the batch for each stage that ran, and charges one unit for each |
| `CombinedExecutor.StagesRun` | src/printer_v1/discovery/combined_executor.py:637-757 | The launchpad lane, the merge, the origin and pair verifications and the gates always run; the three secondary lanes exactly when they are planned |
| `CombinedExecutor.NewBatchRows` | src/printer_v1/discovery/combined_executor.py:637-885 | The rows of a batch that a cycle commits for the first time, by kind: six whatever the plan, the secondary lanes exactly as planned, both handoffs exactly when an initial handoff was opened; the scheduler work is their number |
| `CombinedExecutor.FullCycleCharge` | src/printer_v1/discovery/combined_executor.py:306-309 | With every lane planned and both handoffs opened a cycle is charged eleven units |
| `CombinedExecutor.InitialCharge` | src/printer_v1/discovery/combined_executor.py:306-309 | An initial cycle is charged six units, one for each planned lane, and two when its handoffs were opened |
| `CombinedExecutor.FirstStageFault` | src/printer_v1/discovery/combined_executor.py:637-757 | Over a new batch the cycle is undone with the fault of the first stage that raises, in the order launchpad, trending, tracker, active lane, merge, origin, pair confirmation, gates |
| `CombinedExecutor.StageProgress` | src/printer_v1/discovery/combined_executor.py:910-992 | Opening and ending a row keeps parity, opens nothing, and rewrites no ended row and no terminal job |
| `CombinedExecutor.InsertBatch` | src/printer_v1/discovery/persistence.py:285-387 | Insert once; an identical repeat is accepted, a different one is a conflict |
| `CombinedExecutor.ReconcileBatch` | src/printer_v1/discovery/scheduler_parity.py:92-198 | Reconciling rows that may be ahead of their jobs never raises, and restores parity |
| `CombinedExecutor.MarkBatchFailed` | src/printer_v1/discovery/combined_executor.py:2171-2197 | The first terminal cause of a batch stays, and none of its rows stays open |
| `CombinedExecutor.FailShortfall` | src/printer_v1/discovery/combined_executor.py:771-835 | Too few tokens: the selection row, every other open row and the batch fail with the shortfall cause |
| `CombinedExecutor.ReplaceSlot` | src/printer_v1/discovery/combined_executor.py:2530-2576 | One vacancy: the first fault, or the slot handed off and one unit charged |
| `CombinedExecutor.ReplaceSlots` | src/printer_v1/discovery/combined_executor.py:2508-2576 | The vacancies one after the other, up to the first fault |
| `CombinedExecutor.ReplacementProgress` | src/printer_v1/discovery/combined_executor.py:2508-2576 | A replacement queues exactly the selected tokens in order, charges one unit and one handoff each, and keeps parity and history |
| `CombinedExecutor.ReplacementRows` | src/printer_v1/discovery/combined_executor.py:2508-2576 | A replacement adds one ended handoff row for each vacancy, all of different kinds |
| `CombinedExecutor.ReplacementSlots` | src/printer_v1/discovery/combined_executor.py:2508-2576 | A replacement writes each selected token into the slot of its own vacancy where that is free, adds no other slot, and changes none that was there |
| `CombinedExecutor.HandOffInitial` | src/printer_v1/discovery/combined_executor.py:2578-2687 | The initial handoff as a step of the cycle: parity, history and open rows are kept whatever its outcome |
| `CombinedExecutor.ActivateInitial` | src/printer_v1/discovery/combined_executor.py:839-885 | Both slots, or a failed batch that keeps its discovery facts, or a fault that undoes the cycle |
| `CombinedExecutor.Activate` | src/printer_v1/discovery/combined_executor.py:839-885 | The end of an activation in either mode, decided by the state it starts from |
| `CombinedExecutor.EndShort` | src/printer_v1/discovery/combined_executor.py:771-835 | A shortfall leaves tracking and handoffs untouched and the selection row failed |
| `CombinedExecutor.EndSelected` | src/printer_v1/discovery/combined_executor.py:836-885 | A sufficient selection succeeds and hands over to the activation |
| `CombinedExecutor.OpenSelection` | src/printer_v1/discovery/combined_executor.py:613-767 | Batch row, intake and opened selection row, or the first fault |
| `CombinedExecutor.Executor.RunToActivation` | src/printer_v1/discovery/combined_executor.py:548-885 | How a cycle ends before its reports, and that what it hands on is complete |
| `CombinedExecutor.Executor.RunCycle` | src/printer_v1/discovery/combined_executor.py:548-908 | The result of a cycle is decided by plan, database and remembered result; a completed one is remembered, nothing else is |
| `CombinedExecutor.Executor.Execute` | src/printer_v1/discovery/combined_executor.py:464-546 | Either the database is unchanged and the cause is that of the fault, or the committed state satisfies `CycleDone` with exactly the rows of `CycleKinds` added and charged; which of the two is decided by plan and database |
| `CombinedExecutor.SettledRows` | src/printer_v1/discovery/combined_executor.py:464-546 | In a settled database every row is terminal, its job has exactly the matching outcome, and no two rows share a job |
| `CombinedExecutor.CommittedHasBegun` | src/printer_v1/discovery/combined_executor.py:1064-1082 | A committed cycle leaves the first work row of its batch ended, and no cycle undoes that for another batch |
| `CombinedExecutor.ReplayNeverCommits` | src/printer_v1/discovery/persistence.py:438-453 | A batch that was committed once is never committed again, whatever the plan |
| `CombinedExecutor.ExecutorCompletesOnce` | src/printer_v1/discovery/combined_executor.py:886-902 | An executor completes at most one cycle |
| `CombinedExecutor.ExecuteNext` | src/printer_v1/discovery/combined_executor.py:464-546 | One execution keeps a settled database settled and commits only a batch that had not begun |
| `CombinedExecutor.ExecuteAll` | src/printer_v1/discovery/combined_executor.py:464-546 | Over any run of executions the database stays settled and each batch is committed at most once |
| `CombinedExecutor.FreshIntake` | src/printer_v1/discovery/combined_executor.py:306-309 | Stages that do not raise succeed on a new batch while the ceiling leaves room |
| `CombinedExecutor.FreshPairHandsOff` | src/printer_v1/discovery/combined_executor.py:2246-2485 | Two new tokens are handed off whatever else the tracking tables hold |
| `CombinedExecutor.FreshCycleCompletes` | src/printer_v1/discovery/combined_executor.py:548-908 | A faultless initial cycle over a new batch and two new tokens completes: the ceiling of eleven work rows is exactly enough |
| `CombinedExecutor.FailedHandoffIsUndoneExactly` | src/printer_v1/discovery/combined_executor.py:839-885 | A faultless initial cycle over a new batch ends in an error exactly when the first token that cannot be claimed has a lapsed cooldown and no fresh evidence, the second judged on the queue the first left; the error is then the missing requalification |
| `CombinedExecutor.PairFaultExactly` | src/printer_v1/discovery/combined_executor.py:2618-2667 | Without step faults, what stops a handoff is the missing requalification exactly under that condition, and otherwise a failure that is committed as a failed batch or an unexpected one |
| `CombinedExecutor.SlotFaultExactly` | src/printer_v1/discovery/combined_executor.py:2246-2479 | One slot is handed off exactly when its token may be claimed, its slot taken and its candidate linked |
| `CombinedExecutor.CooledDownTokenUndoesTheCycle` | src/printer_v1/discovery/combined_executor.py:856-885 | A queue with one lapsed cooldown and a plan that selects its token without fresh evidence: the cycle is undone |
| `CategoricalSelection.NonLatestExactly` | src/printer_v1/discovery/combined_executor.py:193-194 | A candidate has a category besides the latest graduates exactly when it has another channel than the two latest ones |
| `CategoricalSelection.CollapsedFromMembers` | src/printer_v1/discovery/combined_executor.py:2063-2088 | A collapsed candidate is one of its mint's candidates and carries the channels of all of them |
| `CategoricalSelection.CollapsedIsBest` | src/printer_v1/discovery/combined_executor.py:2063-2088 | Of the candidates of a mint the one with the most channels of its own is kept, then the one with the lowest market, then the first |
| `CategoricalSelection.PickIgnoresOrder` | src/printer_v1/discovery/combined_executor.py:2091-2106 | For one seed a pick does not depend on the order of the candidates |
| `CategoricalSelection.PickIsDistinctMembers` | src/printer_v1/discovery/combined_executor.py:2091-2106 | A uniform pick is min(count, size) distinct members |
| `CategoricalSelection.CategoryOrderIsArrangement` | src/printer_v1/discovery/combined_executor.py:2156-2166 | The seeded order lists every available category once |
| `CategoricalSelection.TurnsAreRotation` | src/printer_v1/discovery/combined_executor.py:2167-2169 | The turns of consecutive batches are a rotation of the category order |
| `CategoricalSelection.EveryCategoryGetsOneTurn` | src/printer_v1/discovery/combined_executor.py:2147-2169 | For one seed, any k consecutive batches give each of the k categories exactly one turn |
| `CategoricalSelection.TurnsNeedOneSeed` | src/printer_v1/discovery/combined_executor.py:2147-2169 | Of two categories, two consecutive batches under their own seeds give each one turn exactly when the two seeds order the categories alike, which is when they compare the two hashes alike |
| `CategoricalSelection.SeedsThatAgreeAreFair` | src/printer_v1/discovery/combined_executor.py:2147-2169 | k consecutive batches under k seeds that order the k categories alike give each category exactly one turn |
| `CategoricalSelection.ACategoryTakesBothTurns` | src/printer_v1/discovery/combined_executor.py:411-425 | Hashes of 64 digits under which the seeds of two consecutive cycles give both turns to one category |
| `CategoricalSelection.TwoSlotRule` | src/printer_v1/discovery/combined_executor.py:2108-2145 | Distinct members within the vacancies; with two vacancies and both kinds present, exactly one latest-only token and one token of the category whose turn it is |
| `CategoricalSelection.SelectionIsLawful` | src/printer_v1/discovery/combined_executor.py:2050-2088 | Selected tokens are graduated, have distinct mints and fit the vacancies, and something is selected whenever it could be |
| `CategoricalSelection.SelectionSize` | src/printer_v1/discovery/combined_executor.py:2050-2145 | Two vacancies are filled as far as there are mints with a graduated candidate |
| `SelectedCycle.ShortExactly` | src/printer_v1/discovery/combined_executor.py:765-785 | An initial cycle falls short exactly when the eligible candidates name fewer than two mints with a graduated candidate |
| `SelectedCycle.SelectedAreGraduated` | src/printer_v1/discovery/combined_executor.py:2050-2088 | The tokens handed off have different mints, and each is a graduated candidate as far as the handoff reads it |
| `SelectedCycle.SelectedCycleCompletesExactly` | src/printer_v1/discovery/combined_executor.py:765-885 | Over tokens new to tracking, a faultless initial cycle over a new batch completes exactly when two mints have a graduated candidate, whichever the seeded rule selects |
| `SeededShuffle.FisherYates` | src/printer_v1/discovery/combined_executor.py:428-436 | The in-place swaps produce the order given by the digest's choices |
| `SeededShuffle.ShuffleIsPermutation` | src/printer_v1/discovery/combined_executor.py:428-436 | Whatever the choices, no item is lost or repeated |
| `SeededShuffle.ShuffleInjective` | src/printer_v1/discovery/combined_executor.py:428-436 | Different choices order distinct items differently |
| `SeededShuffle.ShuffleIsBijection` | src/printer_v1/discovery/combined_executor.py:428-436 | The orders that arise are exactly the permutations, each from exactly one choice sequence |
| `SeededShuffle.EveryOrderArises` | src/printer_v1/discovery/combined_executor.py:428-436 | Every order of distinct items is the seeded order of some digest stream |
| `SeededShuffle.SeededOrderIsPermutation` | src/printer_v1/discovery/combined_executor.py:428-436 | A seeded order is a permutation of its list |
| `IdentityKeys.DecodeUndoesEncode` | src/printer_v1/discovery/combined_executor.py:370-385 | Decoding the length-prefixed encoding gives the parts back |
| `IdentityKeys.EncodePartsInjective` | src/printer_v1/discovery/combined_executor.py:370-385 | Different part lists never share an encoding |
| `IdentityKeys.ObjectIdsIdentify` | src/printer_v1/discovery/combined_executor.py:370-385 | Two batch-scoped identifiers agree exactly when kind, batch and all parts agree |
| `IdentityKeys.JoinKeyInjective` | src/printer_v1/discovery/persistence.py:121-130 | The mint, market and lifecycle key identifies its parts when mint and lifecycle contain no bar |
| `IdentityKeys.JoinKeyCollidesExactly` | src/printer_v1/discovery/persistence.py:121-130 | An identity shares its key with another one whose mint and lifecycle hold no bar exactly when its own mint or lifecycle holds one |
| `IdentityKeys.AcceptedKeySharedExactly` | src/printer_v1/discovery/persistence.py:121-130 | With parts trimmed and blank mints refused: an accepted identity shares its key with another one exactly when its text can be cut at two other bars into unpadded parts, the first not empty |
| `IdentityKeys.JoinKeyCollides` | src/printer_v1/discovery/persistence.py:121-130 | A bar in the mint, and one in the lifecycle, of an accepted identity, each with another accepted identity of the same key |
| `IdentityKeys.LeadingBarSharesNoKey` | src/printer_v1/discovery/persistence.py:121-130 | A mint that starts with its only bar shares its key with no accepted identity, as the mint before the bar would be blank |
| `IdentityMerge.Merge` | src/printer_v1/discovery/combined_executor.py:1662-1711 | The merge fails on the first observation without an identity key, or on a batch that cannot scope the first candidate, and otherwise absorbs every observation |
| `IdentityMerge.AbsorbObservation` | src/printer_v1/discovery/combined_executor.py:1680-1710 | One observation opens or joins the candidate of its key |
| `IdentityMerge.MergeDescribes` | src/printer_v1/discovery/combined_executor.py:1662-1711 | The merged map is exactly the grouping of the observations by identity key |
| `IdentityMerge.CandidateStarts` | src/printer_v1/discovery/combined_executor.py:1662-1711 | A candidate carries the texts of its first observation, and one gap for each observation up to the first whose mint is confirmed |
| `IdentityMerge.MergeFaultExactly` | src/printer_v1/discovery/combined_executor.py:1662-1711 | The two faults of a merge, both directions: a blank mint, and a blank batch met first |
| `IdentityMerge.ExactlyOneCandidate` | src/printer_v1/discovery/combined_executor.py:1662-1711 | Every observation contributes to exactly one candidate, the one of its key |
| `IdentityMerge.CandidateHasOneIdentity` | src/printer_v1/discovery/persistence.py:121-130 | Observations of one candidate agree on mint, market and lifecycle when these hold no bar |
| `IdentityMerge.ConfirmedByMint` | src/printer_v1/discovery/combined_executor.py:1662-1711 | A candidate is confirmed exactly when some observation of the same mint is |
| `IdentityMerge.MergeIgnoresOrder` | src/printer_v1/discovery/combined_executor.py:1662-1711 | Identity, channels, origin, route and contributions do not depend on observation order |
| `SelectionRotation.RotationState.RecordSelectionRotationState` | src/printer_v1/discovery/selection_batch.py:2060-2147 | The table after recording a batch, and the number of upserts |
| `SelectionRotation.RotationState.Latest` | src/printer_v1/discovery/selection_batch.py:2000-2012 | The latest sequence over the rows of some keys, none when there is no row |
| `SelectionRotation.RotationState.CheckTokenSelectionCooldown` | src/printer_v1/discovery/selection_batch.py:1981-2017 | The check by mint over every pair row of the mint |
| `SelectionRotation.RotationState.CheckPairSelectionCooldown` | src/printer_v1/discovery/selection_batch.py:2020-2057 | The check by pair over every mint row of the pair |
| `SelectionRotation.RotationState.ApplySelectionCooldownGates` | src/printer_v1/discovery/selection_batch.py:2150-2214 | Candidates split in order into eligible and rejected |
| `SelectionRotation.GatesPartition` | src/printer_v1/discovery/selection_batch.py:2150-2214 | No candidate is lost or invented by the gates |
| `SelectionRotation.GatesDecide` | src/printer_v1/discovery/selection_batch.py:2150-2214 | Exactly the candidates passing both checks go on, and a rejection names the check that failed |
| `SelectionRotation.RecordAllRows` | src/printer_v1/discovery/selection_batch.py:2060-2147 | Recording a batch gives its keys the batch's number and adds their occurrences; other rows are untouched |
| `SelectionRotation.RecordedExactly` | src/printer_v1/discovery/selection_batch.py:2060-2147 | A batch records a key exactly when it holds a selected, fully named item of it that is neither watch-only nor audit support, and upserts one row for each such item |
| `SelectionRotation.RowsMatchHistory` | src/printer_v1/discovery/selection_batch.py:2060-2147 | After batches with increasing numbers each row holds the last selecting number and the number of selections |
| `SelectionRotation.RowsHoldLastRecord` | src/printer_v1/discovery/selection_batch.py:2060-2147 | In whatever order numbers come, a row exists exactly for a recorded key and holds the number of the last batch that recorded it |
| `SelectionRotation.TokenGateEqualsScan` | src/printer_v1/discovery/selection_batch.py:1981-2017 | After batches with increasing numbers the check by mint answers as a scan of all past batches |
| `SelectionRotation.TokenGateExactly` | src/printer_v1/discovery/selection_batch.py:1981-2017 | For any history, the check by mint answers as a scan for every number and window exactly when each batch that selected the mint is outlived: some key of the mint was last recorded under a number at least as high |
| `SelectionRotation.PairGateEqualsScan` | src/printer_v1/discovery/selection_batch.py:2020-2057 | After batches with increasing numbers the check by pair answers as a scan of all past batches |
| `SelectionRotation.PairGateExactly` | src/printer_v1/discovery/selection_batch.py:2020-2057 | For any history, the same for the check by pair |
| `SelectionRotation.GateAnswersScanExactly` | src/printer_v1/discovery/selection_batch.py:1981-2057 | For any history and any set of keys, the table answers as a scan exactly when no selection is forgotten by all rows of the set |
| `SelectionRotation.SelectionsAreSpaced` | src/printer_v1/discovery/selection_batch.py:2150-2214 | When every batch passed the gate, two batches that select the same mint or pair are at least three apart |
| `SelectionRotation.NextSeqIsSafeGate` | src/printer_v1/discovery/candidate_acquisition.py:509-513 | Gating at MAX + 1 never uses a number beyond the batch about to be assembled |
| `SelectionRotation.RecordingRaisesNext` | src/printer_v1/discovery/candidate_acquisition.py:509-513 | Recording a batch that selects something under an unused number raises MAX + 1 |
| `SelectionRotation.OldNumberForgetsNewerSelection` | src/printer_v1/discovery/selection_batch.py:2060-2147 | A batch recorded out of order makes the check forget a newer selection |
| `TwoTokenSelection.Deduplicate` | src/printer_v1/discovery/selection_authority.py:178-190 | The first candidate of every identity, in order |
| `TwoTokenSelection.FirstStays` | src/printer_v1/discovery/selection_authority.py:178-190 | The first candidate of an identity stays exactly when mint and pair are both named |
| `TwoTokenSelection.OrderIsPermutation` | src/printer_v1/discovery/selection_authority.py:146-158 | The seeded order is a permutation of the pool |
| `TwoTokenSelection.OrderIgnoresArrival` | src/printer_v1/discovery/selection_authority.py:146-158 | For one seed the order does not depend on provider order |
| `TwoTokenSelection.Walk` | src/printer_v1/discovery/selection_authority.py:196-260 | The evaluation loop: at most the cap, the first accepted candidate and the first later one sharing neither mint nor pair, an honest terminal reason |
| `TwoTokenSelection.SelectTwoCandidates` | src/printer_v1/discovery/selection_authority.py:161-260 | The faults, and otherwise the walk over the deduplicated, ordered pool within the cap |
| `TwoTokenSelection.TwoOrNone` | src/printer_v1/discovery/selection_authority.py:95-99 | `selected` has two disjoint accepted members exactly when ready, and none otherwise |
| `TwoTokenSelection.ReadyExactlyWhenFirstHasPartner` | src/printer_v1/discovery/selection_authority.py:161-260 | Ready holds exactly when the first accepted candidate has a disjoint accepted partner within the cap |
| `TwoTokenSelection.ReadyWhenTwoAccepted` | src/printer_v1/discovery/selection_authority.py:161-260 | When mint and pair determine each other, two accepted candidates within the cap are enough, and needed |
| `TwoTokenSelection.GreedyCanMissALawfulPair` | src/printer_v1/discovery/selection_authority.py:161-260 | Without that condition a lawful pair can be missed |
| `TwoTokenSelection.SelectorMissesAPair` | src/printer_v1/discovery/selection_authority.py:161-260 | From the inputs on: for any seed and any three accepted candidates, one overlapping both others, some digest makes the selector end without a selection although two could be selected |
| `TwoTokenSelection.AnyOrderIsPossible` | src/printer_v1/discovery/selection_authority.py:146-158 | Whatever the seed, each order of a pool arises from some digest |
| `MigrationIntake.IntakeMigrationEvents` | src/printer_v1/discovery/direct_migration_discovery.py:151-211 | One round of the deduplicating loop |
| `MigrationIntake.MergeRound` | src/printer_v1/discovery/direct_migration_discovery.py:116-134 | One round's pairs added to the merged ones, with both indexes kept mutually inverse |
| `MigrationIntake.MergeIntakes` | src/printer_v1/discovery/direct_migration_discovery.py:84-148 | All rounds merged in order |
| `MigrationIntake.IndexesAnswerScans` | src/printer_v1/discovery/direct_migration_discovery.py:151-211 | Two map lookups answer what a scan of the kept pairs would |
| `MigrationIntake.RoundIsSound` | src/printer_v1/discovery/direct_migration_discovery.py:151-211 | Within a round kept pairs are one-to-one, conflicts are genuine, and every event is counted once |
| `MigrationIntake.ConflictKindExactly` | src/printer_v1/discovery/direct_migration_discovery.py:151-211 | A contradicting pair is recorded under its mint when a kept pair has that mint with another signature, and otherwise under the signature that a kept pair has with another mint |
| `MigrationIntake.MergeIsSound` | src/printer_v1/discovery/direct_migration_discovery.py:84-148 | Merging any number of balanced rounds keeps pairs one-to-one and accounts for every event |
| `MigrationIntake.MergedConflicts` | src/printer_v1/discovery/direct_migration_discovery.py:84-148 | What a merge records as conflicts are the conflicts of its rounds, and pairs that contradict a merged one |
| `MigrationIntake.ConflictsUnusedExactly` | src/printer_v1/discovery/direct_migration_discovery.py:84-148 | No recorded conflict is used after a merge exactly when every pair that one round recorded as a conflict and another one offers is skipped, because something merged by then touches it |
| `MigrationIntake.AUsedConflict` | src/printer_v1/discovery/direct_migration_discovery.py:84-148 | Two pages: the first keeps a pair that the second records as a conflict |
| `MigrationIntake.IntakeKeeps` | src/printer_v1/discovery/direct_migration_discovery.py:151-211 | The pairs a round keeps are those of its well-formed events that touch no earlier kept pair |
| `MigrationIntake.KeepAllKeeps` | src/printer_v1/discovery/direct_migration_discovery.py:84-148 | The pairs a merge keeps are those that touch no pair kept before |
| `MigrationIntake.MergeEqualsSinglePass` | src/printer_v1/discovery/direct_migration_discovery.py:84-148 | One later round: its own pairs merged keep what one pass would, when none of them conflicts with a merged pair |
| `MigrationIntake.MergeEqualsSinglePassExactly` | src/printer_v1/discovery/direct_migration_discovery.py:84-148 | One later round over any merged pairs: the merge keeps exactly what one pass keeps, if and only if every pair hidden within the round is also hidden in the one pass |
| `MigrationIntake.HiddenPairIsLost` | src/printer_v1/discovery/direct_migration_discovery.py:84-148 | A pair that its round hides and one pass does not is kept by the pass and is not among the merged pairs |
| `MigrationIntake.MergeOfRoundsExactly` | src/printer_v1/discovery/direct_migration_discovery.py:84-148 | Any number of rounds: after every round the merged pairs are those of one pass over all events so far, if and only if no round hides such a pair |
| `MigrationIntake.MergeAtEndExactly` | src/printer_v1/discovery/direct_migration_discovery.py:84-148 | Any number of rounds: at the end the merged pairs are those of one pass over all events, if and only if the pairs the rounds keep name those of the pass in order, each before anything else new |
| `MigrationIntake.KeptExactly` | src/printer_v1/discovery/direct_migration_discovery.py:116-134 | Keeping the first come of a list of offers gives a wanted one-to-one list exactly when the offers follow it |
| `MigrationIntake.MergeLosesAPair` | src/printer_v1/discovery/direct_migration_discovery.py:84-148 | A three-pair instance: the first pair of a page conflicts with the merged one and hides the second, which one pass would keep |
| `MigrationIntake.MergeCanLoseAPair` | src/printer_v1/discovery/direct_migration_discovery.py:84-148 | Three such pairs exist |
| `MigrationIntake.MergeOfRoundsCanLoseAPair` | src/printer_v1/discovery/direct_migration_discovery.py:84-148 | Two pages of events on which the merge of their rounds misses a pair that one pass over both keeps |
| `QuotaView.BuildClassifierQuotaView` | src/printer_v1/discovery/selection_batch.py:1116-1258 | The composed view, refused exactly for sizes outside 1 to 10 |
| `QuotaView.PrepareAll` | src/printer_v1/discovery/selection_batch.py:1132-1176 | The pool after normalizing and deduplicating the candidates |
| `QuotaView.PoolExactly` | src/printer_v1/discovery/selection_batch.py:1132-1176 | The pool: of the active and then the audit-only candidates, in order, those that are traced, fresh and filed as their kind requires and share neither mint nor pair, trimmed, with one that entered before |
| `QuotaView.SelectedAreClean` | src/printer_v1/discovery/selection_batch.py:1136-1164 | Nothing stale, untraced or misfiled is eligible or selected |
| `QuotaView.RejectedExactly` | src/printer_v1/discovery/selection_batch.py:1136-1164 | Each reason of a rejection from the pool, both directions: it is the first check that fails |
| `QuotaView.SelectGreedily` | src/printer_v1/discovery/selection_batch.py:1178-1221 | The greedy passes over the pool |
| `QuotaView.TakeUntilLimit` | src/printer_v1/discovery/selection_batch.py:1178-1221 | Taking until a group reaches its limit |
| `QuotaView.TakeEach` | src/printer_v1/discovery/selection_batch.py:1178-1221 | Taking each choice while there is room |
| `QuotaView.RejectLeftOver` | src/printer_v1/discovery/selection_batch.py:1222-1227 | Every eligible entry not selected is rejected with its reason |
| `QuotaView.EveryCandidateOnce` | src/printer_v1/discovery/selection_batch.py:1116-1258 | Every input candidate is selected or rejected, exactly once |
| `QuotaView.SelectedIdentitiesDistinct` | src/printer_v1/discovery/selection_batch.py:1116-1258 | Selected mints are distinct, and so are selected pairs |
| `QuotaView.SelectedIsDrawn` | src/printer_v1/discovery/selection_batch.py:1178-1221 | Whatever is selected is eligible, at most once, within the target |
| `QuotaView.AuditComesFirst` | src/printer_v1/discovery/selection_batch.py:1178-1221 | A batch of six or more starts with the first audit-only dead token, or else the first audit-only candidate |
| `QuotaView.DecayComesNext` | src/printer_v1/discovery/selection_batch.py:1178-1221 | After it comes the first active B2 or B4, or else the first active one of group B or D |
| `QuotaView.SelectionIsMaximal` | src/printer_v1/discovery/selection_batch.py:1178-1221 | When the target is not filled, no active candidate outside group A is left over, and below the group A limit no trap, no first winner of a limit above one, and no second winner |
| `QuotaView.GroupALimitExactly` | src/printer_v1/discovery/selection_batch.py:1116-1258 | Group A stays within its limit exactly unless the audit pick is Group A, the limit is two, and both a trap and a winner exist |
| `QuotaView.AuditTrapBreaksTheLimit` | src/printer_v1/discovery/selection_batch.py:1116-1258 | Six pool entries on which the limit is exceeded |
| `QuotaView.AuditTrapBreaksTheView` | src/printer_v1/discovery/selection_batch.py:1116-1258 | The same from the inputs: a view of five clean active candidates and one audit candidate exceeds the limit |
| `QuotaView.GroupBFloor` | src/printer_v1/discovery/selection_batch.py:1116-1258 | The Group B floor is met whenever enough active Group B candidates exist |
| `QuotaView.GroupBFloorExactly` | src/printer_v1/discovery/selection_batch.py:1178-1221 | The Group B floor is met exactly when active Group B entries and a Group B audit pick together reach it |
| `QuotaView.CapsNeverBroken` | src/printer_v1/discovery/selection_batch.py:1032-1113 | When the audit pick is not Group A the validator reports no Group A or winner cap |
| `QuotaView.PresenceRulesA` | src/printer_v1/discovery/selection_batch.py:1032-1113 | The validator's two presence rules for group A, on the items |
| `QuotaView.PresenceRulesB` | src/printer_v1/discovery/selection_batch.py:1032-1113 | Its presence rules for groups B and D and for decay, on the items |
| `QuotaView.PresenceRulesOther` | src/printer_v1/discovery/selection_batch.py:1032-1113 | Its rules for dead tokens, watch-only items and the group F corpus, on the items |
| `QuotaView.NumberRules` | src/printer_v1/discovery/selection_batch.py:1032-1113 | Its caps and shares, on the numbers of items of a group |
| `QuotaView.GroupBRulesNeverBroken` | src/printer_v1/discovery/selection_batch.py:1032-1113 | With enough active Group B candidates and a filled target the validator reports no Group B rule |
| `QuotaView.DuplicatesNeverReported` | src/printer_v1/discovery/selection_batch.py:1032-1113 | The validator never reports a duplicate on a composed view |
| `QuotaView.QuotaOkExactly` | src/printer_v1/discovery/selection_batch.py:1116-1258 | `quota_ok` holds exactly when the target is filled and the validator finds no broken rule |
| `QuotaView.QuotaOkOnPool` | src/printer_v1/discovery/selection_batch.py:1116-1258 | `quota_ok` holds exactly when the target is filled, the first group A picks stay within the limit, the pool has enough of group B, and the seven rules that the composer leaves to chance hold |
| `AdmissionFunnel.RunStages` | src/printer_v1/discovery/candidate_acquisition.py:857-887 | The stage loop: results of all eleven stages, and no first failure exactly when all pass |
| `AdmissionFunnel.EvaluateMint` | src/printer_v1/discovery/candidate_acquisition.py:788-965 | The candidate of one mint, its gates judged one after the other up to the first that fails; admitted exactly when its observations make it admissible |
| `AdmissionFunnel.BuildCandidates` | src/printer_v1/discovery/candidate_acquisition.py:788-965 | One candidate for each of the first mints in text order, up to the capacity, admitted exactly when its observations make it admissible; each shows passes, then at most one failure, then stages not reached; no two admitted ones share a mint or a pool |
| `AdmissionFunnel.EvaluateMints` | src/printer_v1/discovery/candidate_acquisition.py:788-965 | The loop over the mints, each judged by the stage loop against all observations |
| `AdmissionFunnel.EvaluatedAreFirst` | src/printer_v1/discovery/candidate_acquisition.py:788-800 | The evaluated mints are distinct, sorted, as many as the capacity allows, and none left out comes before one taken |
| `AdmissionFunnel.FunnelHasShape` | src/printer_v1/discovery/candidate_acquisition.py:857-887 | Passes, then at most one failure, then only stages not reached |
| `AdmissionFunnel.AdmittedExactly` | src/printer_v1/discovery/candidate_acquisition.py:788-965 | A candidate is admitted exactly when all eleven gates pass, exactly when all stages passed |
| `AdmissionFunnel.AdmittedOnObservations` | src/printer_v1/discovery/candidate_acquisition.py:788-965 | A mint is admitted under a pool, program, quote and token program exactly when its observations name that pool alone, say PASS and nothing else for each of the ten stages before the lineage, concern this mint and pool, are fresh, and prove the lineage they claim |
| `AdmissionFunnel.AdmittedExactlyWhenAdmissible` | src/printer_v1/discovery/candidate_acquisition.py:788-965 | The same without naming the pool |
| `AdmissionFunnel.CategoricalPassesExactly` | src/printer_v1/discovery/candidate_acquisition.py:434-444 | A categorical stage passes exactly when some observation states its fact and every one that does says PASS |
| `AdmissionFunnel.FreshExactly` | src/printer_v1/discovery/candidate_acquisition.py:788-856 | The evidence of a mint is fresh at the cutoff exactly when every observation of it expires later |
| `AdmissionFunnel.IdentityExactly` | src/printer_v1/discovery/candidate_acquisition.py:788-856 | The identity of a mint is complete under a pool, program, quote and token program exactly when its observations name these and no others, the base is the mint, and no other mint names the pool |
| `AdmissionFunnel.IdentityStatusExactly` | src/printer_v1/discovery/candidate_acquisition.py:788-856 | An identity is a conflict exactly when two observations disagree on pool, program, base, quote or token program, or another mint names one of the pools; merged exactly when there is none and pool, base and a supported token program are named |
| `AdmissionFunnel.MintEvidenceReason` | src/printer_v1/discovery/candidate_acquisition.py:447-474 | The first mint evidence about another mint decides the reason: its target, or else its response |
| `AdmissionFunnel.LineageStateExactly` | src/printer_v1/discovery/candidate_acquisition.py:692-720 | The lineage of a mint, both directions, from the claims and migration branches of its observations |
| `AdmissionFunnel.LineageGatePassesExactly` | src/printer_v1/discovery/candidate_acquisition.py:722-785 | The lineage gate passes exactly when the claimed lineage is lawful and each fact it needs is stated and undisputed |
| `AdmissionFunnel.StagesInOrder` | src/printer_v1/discovery/candidate_acquisition.py:857-887 | The eleven stages are tried in their fixed order |
| `AdmissionFunnel.LineageGateEstablishes` | src/printer_v1/discovery/candidate_acquisition.py:722-785 | A passing lineage gate excludes conflicts, and for a confirmed graduation requires every proof fact and the pinned contract |
| `AdmissionFunnel.MergedPoolIsExclusive` | src/printer_v1/discovery/candidate_acquisition.py:788-856 | The pool of a merged identity belongs to its mint alone, and the mint to it |
| `AdmissionFunnel.PoolIsExclusive` | src/printer_v1/discovery/candidate_acquisition.py:788-856 | The same over all observations |
| `AdmissionFunnel.AdmissionIsSound` | src/printer_v1/discovery/candidate_acquisition.py:788-965 | Admitted means one pool, base mint equal to the mint, an allowed quote, a supported token program, fresh evidence and a lawful lineage |
| `AdmissionFunnel.AdmittedIdentitiesDistinct` | src/printer_v1/discovery/candidate_acquisition.py:788-965 | No two admitted candidates share a mint or a pool, however many mints were observed |
| `CursorHeads.CursorTable.ValidateCurrentCursorHeads` | src/printer_v1/discovery/candidate_acquisition.py:582-627 | Accepted exactly when every namespace has one range and it starts at the current head; a fault names a real one |
| `CursorHeads.CursorTable.AdvanceHead` | src/printer_v1/discovery/candidate_acquisition.py:645-689 | The first reason not to advance, or the head moved, its version raised and the chain extended |
| `CursorHeads.CursorTable.AdvanceCurrentCursorHeads` | src/printer_v1/discovery/candidate_acquisition.py:630-689 | Succeeds exactly when every advancing range may advance, and then records exactly these |
| `CursorHeads.CursorTable.CommitExecution` | src/printer_v1/discovery/candidate_acquisition.py:1179-1188 | A rejected execution moves no head; a committed one adds exactly its advances |
| `CursorHeads.CursorTable.CommitAll` | src/printer_v1/discovery/candidate_acquisition.py:1151-1513 | Over any run of executions each namespace's advances form a chain without gaps, and the log only grows |
| `CursorHeads.AdvanceKeepsChain` | src/printer_v1/discovery/candidate_acquisition.py:630-689 | An advance from the head extends its own namespace's chain and no other; the version is the number of advances |
| `CursorHeads.OneAdvancePerRound` | src/printer_v1/discovery/candidate_acquisition.py:630-689 | If two namespaces speak first and advance in the same round, the execution is refused |
| `CursorHeads.TwoNamespacesAreRefused` | src/printer_v1/discovery/candidate_acquisition.py:630-689 | Two contiguous ranges of different namespaces that each advance alone and are refused together |
| `FrozenAcquisition.NormalizeObservations` | src/printer_v1/discovery/candidate_acquisition.py:301-431 | The normalized list, or the first problem |
| `FrozenAcquisition.NormalizeExactly` | src/printer_v1/discovery/candidate_acquisition.py:301-431 | Accepted exactly when every observation is sound, rounds agree and budgets cover the use; the result is sorted with one item per observation |
| `FrozenAcquisition.SoundExactly` | src/printer_v1/discovery/candidate_acquisition.py:301-410 | When an observation is sound, field by field |
| `FrozenAcquisition.RoundsExactly` | src/printer_v1/discovery/candidate_acquisition.py:411-431 | The rounds that are charged against a budget: the first item of every ordinal |
| `FrozenAcquisition.StepsExactly` | src/printer_v1/discovery/candidate_acquisition.py:301-410 | The observation loop accepts exactly the acceptable inputs |
| `FrozenAcquisition.BudgetExactly` | src/printer_v1/discovery/candidate_acquisition.py:411-431 | The budget loop passes exactly when every used source and kind is covered |
| `FrozenAcquisition.NormalizeIgnoresOrder` | src/printer_v1/discovery/candidate_acquisition.py:301-431 | If one ordering is accepted every permutation is, with the same list |
| `FrozenAcquisition.SortedItemsUnique` | src/printer_v1/discovery/candidate_acquisition.py:564-572 | Items sorted by round, source and hash do not remember arrival order |
| `FrozenAcquisition.AtomicTrackingAndCooldownRecheck` | src/printer_v1/discovery/candidate_acquisition.py:500-572 | Every item is rechecked, once: a named one says PASS for the tracking stage exactly when nothing blocks its mint and pool and FAIL otherwise, records the blocking facts, and keeps every other field; the result is hashed and sorted again |
| `FrozenAcquisition.RecheckAgreesExactly` | src/printer_v1/discovery/candidate_acquisition.py:500-572 | Two rechecks agree exactly when everything they read agrees |
| `FrozenAcquisition.FreeExactly` | src/printer_v1/discovery/candidate_acquisition.py:500-549 | Nothing blocks a token exactly when both tracking lanes would take it and its mint and pair are out of the selection cooldown |
| `FrozenAcquisition.HeldBackIsNotAdmitted` | src/printer_v1/discovery/candidate_acquisition.py:544-561 | A mint with a named observation that is blocked is not admitted |
| `FrozenAcquisition.HeldBackIsNotSelected` | src/printer_v1/discovery/candidate_acquisition.py:1151-1513 | A mint with a named observation that is blocked does not appear in the manifest of the run, whatever its other observations say |
| `FrozenAcquisition.ManifestIsExact` | src/printer_v1/discovery/candidate_acquisition.py:980-1022 | Exactly n items with ordinals 1 to n and distinct identities when enough were admitted, none otherwise |
| `FrozenAcquisition.ManifestByRank` | src/printer_v1/discovery/candidate_acquisition.py:980-1010 | The manifest holds the n admitted candidates of the lowest ranks, in rank order |
| `FrozenAcquisition.CandidateCount` | src/printer_v1/discovery/candidate_acquisition.py:788-800 | Twice the selection capacity of mints is judged, or all there are |
| `FrozenAcquisition.BuildReport` | src/printer_v1/discovery/candidate_acquisition.py:980-1022 | The report built from the candidates: with a valid plan it is a success exactly when enough were admitted, and only then has a manifest, of exactly n items numbered from one with distinct mints and pools |
| `FrozenAcquisition.AdmittedAreDistinct` | src/printer_v1/discovery/candidate_acquisition.py:788-965 | Admitted candidates have distinct mints and pools |
| `FrozenAcquisition.ReportIsExact` | src/printer_v1/discovery/candidate_acquisition.py:980-1022 | Success, readiness and manifest size agree with the number admitted |
| `FrozenAcquisition.AcquisitionStore.StoreObservations` | src/printer_v1/discovery/candidate_acquisition.py:1189-1368 | Observations, ranges and heads are stored together exactly when ranges start at the heads, may advance, and no observation repeats; otherwise no head has moved |
| `FrozenAcquisition.AcquisitionStore.StoreReport` | src/printer_v1/discovery/candidate_acquisition.py:1400-1513 | The report is stored under its execution, and a manifest exactly when it is a success |
| `FrozenAcquisition.AcquisitionStore.RunCandidateAcquisition` | src/printer_v1/discovery/candidate_acquisition.py:1151-1513 | Which executions succeed, what they store, and that replays and rejections change nothing |
| `FrozenAcquisition.ExecutionIgnoresOrder` | src/printer_v1/discovery/candidate_acquisition.py:1151-1513 | Items, report, manifest and cursor advances do not depend on observation order |
| `FrozenAcquisition.ReplaySucceedsExactly` | src/printer_v1/discovery/candidate_acquisition.py:1179-1189 | A replay matches the stored run exactly when everything the recheck reads is unchanged |
| `FrozenAcquisition.ReplayConflictsAfterRotation` | src/printer_v1/discovery/candidate_acquisition.py:509-513 | A next batch number that differs between two runs of the same plan makes the replay conflict |
| `FrozenAcquisition.ReplayConflictsAfterBatch` | src/printer_v1/discovery/candidate_acquisition.py:509-513 | Over the rotation table and the tracking queue: one batch recorded between two runs of a plan that names a token makes the replay conflict |

## Left out

- Transports, Source Governor execution, stage evidence and measured transport bookkeeping: a market check is a function that returns an outcome.
- SQL text, JSON rendering, schema checks, PRAGMAs and migrations; a table that a migration has not yet created (the code then skips the step) is taken to exist.
- Exact SHA-256 values, the 64-bit modulo bias of the shuffle, floating-point rounding, and text comparison of timestamps.
- Python's rule that a truthy value of another type counts as text: values have the type the code expects.
- Counters of source calls, storage bytes, observations and unique mints in the executor, and their ceilings: reaching one is a stage that raises.
- The bodies of the intake lanes, of origin verification, of PumpSwap confirmation and of the fixed gates in the executor: each is a stage outcome. Which merged candidates pass the gates is therefore an input of the selection, not linked to `IdentityMerge` by a proof.
- Injected handoff failures as features: any step may fault.
- Job retries, leases and scheduling times.
- Rejection reason counters, diagnostics, the contents and the persistence of exhaustion certificates, and front-door reports.
- The front door's own preview of two candidates, holder reserves and the single-branch label tables.
- Candidate reserve claims, failure families, evidence rows and links of an acquisition; a stored report that no longer matches its own hash.
- `assign_bucket`: the bucket of a candidate is a field, and the validator's corpus count is zero, as the composer calls it.
- Validation and hashing of an acquisition plan, except the range of the selection capacity.
- The random active selection of `selection_batch.py`, chart, heat and hardening labels: single-branch tables that would only add easy members.
- The merge and the selection change candidate objects that other code may still hold; the model changes values, so aliasing is not captured.
- SupplyCampaign.RunPersistentSupply: does not model exceptions that the front door or the tracking precheck raise themselves, because the code lets them pass unchanged; and does not say what an aborted campaign leaves in the store, because the code commits round by round and the state then depends on the round that failed.
- CombinedExecutor.Executor.Execute: when the database it finds is not in parity, does not say that the cycle commits, because reconciliation raises on a row in an unmapped state.
- CombinedExecutor.RunStage: does not model the work inside a lane, because the providers behind it are not part of this model.
