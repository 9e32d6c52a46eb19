# Verified model of the ledger pipelines

A Dafny 4.11 model of the daily ledger reconciliation system: Guardrail (Pipeline A), Silver,
reconciliation and supply (Pipeline B), payment facts (Pipeline C), the checkpoint protocol between
them, the keyed merge they store through, and the layered configuration they read. `dafny verify
dfyconfig.toml` checks everything.

The system exists twice, as loops over records (`src/transforms`) and as relational plans
(`src/jobs`). Loops are Dafny methods with invariants, proved against specification functions; plans
are built from the joins, groupings and windows of `Relational.dfy`. A grouping or a window leaves row
order and the choice among ties to the engine, so a plan is a relation to *any* output the engine may
produce, and the refinement theorems hold for each of them; that there always is one is proved too. The protocols are state machines, and
their theorems range over all histories and interleavings. The checkpoint row, the stored tables, the
catalog and the configuration dictionaries are classes whose fields the methods update. Automatic
induction is switched off for every lemma; each induction is written out.

| file | what it holds |
|---|---|
| `Prelude.dfy`, `Relational.dfy`, `KstTime.dfy` | text and sums; joins, groupings, windows; instants and KST days |
| `SilverControls.dfy` | Silver classification, loop and when-chain plan |
| `LedgerControls.dfy`, `PipelineBPlan.dfy`, `SupplyPlan.dfy`, `DqTags.dfy` | reconciliation and supply, loops and plans |
| `Conservation.dfy` | how the supply difference moves over days |
| `AdminPairing.dfy` | transaction pairing, in place and by join |
| `Guardrail.dfy`, `GuardrailVsSilver.dfy` | data-quality metrics, and their relation to Silver's quarantine |
| `JobWindows.dfy`, `PipelineState.dfy`, `GuardrailRuns.dfy`, `SilverRuns.dfy` | parameters, windows, checkpoint, readiness gate, run protocols |
| `MergeStore.dfy`, `Backfill.dfy` | keyed upsert of bags of rows, retries of a write, backfills |
| `TaskGraph.dfy`, `TaskTables.dfy`, `PipelineBTables.dfy` | Pipeline B's task graph over maps, over stored tables, and with the rows the plans hand to it |
| `Category.dfy` | category of a payment, running best and ranked plan |
| `ConfigTree.dfy`, `ConfigStore.dfy` | configuration layers, and environment overrides written in place |

## Reading the model

- Amounts are integer cents, instants integer microseconds since the epoch, dates integer day numbers.
  KST is nine hours ahead of UTC on every date. Thresholds are reals in the unit of the metric they are
  compared with.
- A stored table is a bag of rows (`seq`), absent until the first write. A merge can be refused; where it
  is stated over maps, `MergeStore.MergeIsOverride` and `TaskTables.RunRefines` say when the bag is that
  map.
- A join lists its rows in the order of its left table. The engine leaves that order open, so where a
  plan's table is compared with a loop's list, the list stands for the bag of its rows.
- Records arrive parsed: a missing field is `None`, and where the code tells an unreadable value from a
  missing one, a third value says so (`Garbled`, `NotANumber`, `JOther`).
- The two forms strip text differently (Python's `strip` against SQL's `trim`, which removes spaces
  only). `Clean` says that a text is empty or holds a visible character, and is assumed only where the
  two forms are compared.
- Input tables do not change during one run. `now` is a parameter. Exceptions are `Result` values or
  `ok` flags. The entry types with a sign are constructors of a datatype, every other text is `Other`.
- `generated_at` and `detected_at` are not part of a row.

## What does not hold as stated

Where a promise is true only under a condition, the code is kept as it is and the exact condition is
proved.

- The end a backfill reports can lie beyond its windows, because an explicit end timestamp overrides
  the dates: `JobWindows.ReportedEndIsCoveredIff`, witness `ReportedEndCanRunAhead`. The readiness gate
  cannot see the hole, nor the one left by a Silver run that starts past the watermark
  (`SilverRuns.GateMissesHoles`). Daily runs without parameters leave none exactly when none comes more than
  a day after the one before (`SilverRuns.DailyRunsAreContiguousIff`). After any contiguous history, a commit
  is sound exactly when it reports no more than is processed already, or starts no later than that and
  reports within its windows
  (`SilverRuns.CommitIsSoundIff`).
- The gate asks for the end of a run's window, while a run reads whole days. In both modes the gate
  covers the target days exactly when the reported end is not before their end
  (`SilverRuns.GateCoversTargetsIff`); a run given by a window is covered exactly when the window ends
  at a KST midnight (`SilverRuns.WindowRunCoversItsDaysIff`).
- Overlapping Pipeline A runs take the checkpoint back: a late failure writes back the state read at its
  start, and a late success writes its own, earlier end (`GuardrailRuns.LateCommitsRewindCheckpoint`).
  These two are the only ways (`CheckpointFallsIff`, over histories `CheckpointIsMonotoneIff`). Coverage
  survives. The windows still tile the time exactly when every successful run started from the end of
  the one before (`InterleavingTilesIff`, witness `OverlapBreaksTiling`); the zero-window counts are
  stated for runs that do not overlap.
- An unreadable `created_at` beside a readable `event_time`: the Silver loop quarantines the record, the
  plan falls back (`SilverControls.VerdictsAgreeIff`).
- An empty `entry_type` text beside a supply `type`: only the loop falls through to `type`
  (`SupplyPlan.SupplyTermsAgreeIff`), and the issued supplies differ by exactly what such records carry
  (`SupplyPlan.TwoStageSupplyIsOnePass`).
- A `related_id` of spaces alone makes a pair in the loop and none in the plan: a day's search rows agree
  exactly when no group of two of that day has such an id (`AdminPairing.AdminPlanRefinesLoopIff`).
- Equal snapshot timestamps with different balances: the plan may pick another row than the loop
  (`PipelineBPlan.DeltaDeterminedIff`). Tags other than the two gating ones: `DqTags.TagsAgreeIff`.
- Text of spaces or other whitespace alone, record by record: what the plans and the loops read of it is
  `Prelude.BlankMeans`, `SilverControls.PlanMissing`, `Guardrail.ContractFormsDifferBy`,
  `PipelineBPlan.SnapshotReadIff`, `FlowReadIff` and `AdminPairing.PlanListsIff`.
- The merge inserts both of two source rows that share a key the target does not hold, unless the
  uniqueness check is switched on (`MergeStore.MergeKeepsKeysIff`), and refuses them the next time. So a
  write can be repeated exactly when its rows are keyed (`MergeStore.WriteAgainIff`).
- The transaction search stores by (date, tx) while Silver keys entries by (tx, wallet). Its write can be
  repeated exactly when no two listed records of a day share a transaction
  (`AdminPairing.SearchWriteRepeatsIff`, for the plan `PlanSearchWriteRepeatsIff`). The daily counts are
  keyed by merchant, and are keyed exactly when no order of a target date lacks one
  (`PipelineBTables.OpsRowsKeyedIff`). The two together decide whether the supply and operations task can
  be retried (`PipelineBTables.TaskRetriesIff`).
- The filters pushed into Pipeline B's reads go by stored dates. The ledger filter drops records without
  one: the supply and the net flow that are lost are theirs exactly
  (`SupplyPlan.PushdownLosesUndatedSupply`, `PushdownLosesUndatedFlow`). What the reconciliation plan
  reads is unchanged exactly when every snapshot, and every record, it would read passes its filter
  (`SupplyPlan.SnapshotPushdownIff`, `FlowPushdownIff`).
- A zero quantity counts as one piece in the loop and as none in the plan: the amounts agree exactly when
  the quantity is not zero or the price is missing or zero (`Category.AmountsAgreeIff`).
- The loop's category depends on input order exactly when leading items of an order tie with different
  categories (`Category.CategoryIsOrderIndependentIff`).
- Environment overrides are not all accepted: a list of them is exactly when every path is there to begin
  with and none lies inside one written before it (`ConfigTree.OverridesAcceptedIff`).
- The merges of one Silver run can be repeated exactly when no two accepted wallet records share user and
  snapshot time and no two accepted ledger records share transaction and wallet
  (`SilverRuns.SilverRunRepeatsIff`).

## Model

| member | source | states |
|---|---|---|
| Prelude.BlankMeans | src/jobs/pipeline_b_spark.py:74-75 | Blank for the plans means no character but spaces; for the loops' strip, none but the 29 code points Python strips |
| SilverControls.FirstFailureIsFirst | src/transforms/silver_controls.py:274-382 | A record's quarantine reason is the first failing check in the documented order, and a record with no failing check has none; both directions |
| SilverControls.Accept | src/transforms/silver_controls.py:74-86 | An accepted entry has a positive amount, its signed amount is its type's sign times the amount, its date is the KST day of its own event time, and type and status are in the allowlists |
| SilverControls.CheckEntry | src/transforms/silver_controls.py:274-401 | The loop body, check by check, gives exactly the first-failure verdict |
| SilverControls.TransformLedgerEntries | src/transforms/silver_controls.py:260-403 | The loop splits the records, in input order, into accepted entries and quarantined records with their reasons |
| SilverControls.SplitAccountsForEveryRecord | src/transforms/silver_controls.py:260-403 | Every record ends in exactly one of the two lists: the lengths add up, nothing in a list is without a record, and each record is found in the list its verdict names |
| SilverControls.SplitUnique | src/transforms/silver_controls.py:260-403 | The verdicts determine both lists completely |
| SilverControls.ResolveAllowedValues | src/transforms/silver_controls.py:143-146 | An allowlist is present exactly when the rule lists values, and then never empty |
| SilverControls.LastStatusIs | src/transforms/silver_controls.py:149-162 | The looked-up status is that of the last usable order row with the id; no status means no such row |
| SilverControls.BuildStatusLookup | src/transforms/silver_controls.py:149-162 | The dictionary answers every id with its last status |
| SilverControls.VerdictsAgreeIff | src/jobs/pipeline_silver_spark.py:164-284 | On clean text, loop and when-chain give a record the same verdict except exactly when its created_at is unreadable, its event_time readable, and every earlier check passes |
| SilverControls.PlanMissing | src/jobs/pipeline_silver_spark.py:201-240 | On any text: the plan takes an identifier, or both type columns, of spaces alone for missing, and reads type before entry_type |
| SilverControls.PlanOutputsExist | src/jobs/pipeline_silver_spark.py:139-284 | Every input has an execution of the plan |
| SilverControls.StatusJoinIsLookup | src/jobs/pipeline_silver_spark.py:139-284 | For any lookup table the ranking may produce, the left join keeps every record once and attaches the lookup's answer |
| SilverControls.PlanRefinesLoop | src/jobs/pipeline_silver_spark.py:139-284 | For any execution of the plan, its valid and bad tables are the loop's, record for record |
| SilverControls.TransformWalletSnapshots | src/transforms/silver_controls.py:165-257 | The wallet loop splits its records in input order by verdict |
| SilverControls.WalletVerdict | src/transforms/silver_controls.py:186-255 | An accepted snapshot has non-negative parts, their sum as total, and the KST day of its own timestamp as date |
| SilverControls.WalletVerdictsAgreeIff | src/jobs/pipeline_silver_spark.py:69-136 | When loop and plan judge a wallet record alike, both directions |
| SilverControls.LookupHoldsTheLatest | src/jobs/pipeline_silver_spark.py:139-162 | The plan's status of an order is that of a payment row which no other row with a status follows by creation, then ingestion, then status |
| SilverControls.LookupIsDetermined | src/jobs/pipeline_silver_spark.py:139-162 | Every order with a status has an answer, the same whatever the engine returns |
| SilverControls.GoesOnIffTolerated | src/transforms/silver_controls.py:109-140 | A run goes on exactly without a threshold or when the bad records are at most that share of all, an empty run exactly when the threshold is not negative |
| LedgerControls.SilverRowsAreReadBack | src/transforms/ledger_controls.py:150-253 | What the controls read of rows Silver stored: their own wallet, day, signed amount, supply term and balance |
| LedgerControls.DateColumnWins | src/transforms/ledger_controls.py:196-206 | A record counts on its stored date, and on the KST day of its time only without one |
| LedgerControls.BoundsAreEarliestAndLatest | src/transforms/ledger_controls.py:150-187 | A user's bounds are the balances of the earliest and the latest snapshot of the day, first in input order among equal timestamps |
| LedgerControls.SelectSnapshotBounds | src/transforms/ledger_controls.py:150-187 | The dictionary holds exactly the users with a usable snapshot that day, with those bounds, in insertion order |
| LedgerControls.AggregateNetFlow | src/transforms/ledger_controls.py:190-219 | Every wallet's total is the sum of its signed amounts dated that day, absent wallets answering zero |
| LedgerControls.AggregateSupplyEntries | src/transforms/ledger_controls.py:222-253 | The total is the signed sum of all supply entries dated up to the target |
| LedgerControls.ReconcileUser | src/transforms/ledger_controls.py:276-316 | One row: balance change against net flow, the drift, its share of the flow unless the flow is zero, and the exception when the rule is breached |
| LedgerControls.ReconcileUsers | src/transforms/ledger_controls.py:276-316 | One such row per user in dictionary order, and the exceptions of the rows that raise one |
| LedgerControls.BuildReconSnapshotFlow | src/transforms/ledger_controls.py:256-318 | Exactly one row per snapshotted user of the day, each computed from the user's bounds and net flow |
| LedgerControls.BuildSupplyBalanceDaily | src/transforms/ledger_controls.py:321-377 | The published supply row and exception, wallet total being the sum over all snapshotted users; the flag says that the difference is within the threshold on either side, within the critical level without a threshold, zero without either or without a rule |
| LedgerControls.SupplyOkMeansWithin | src/transforms/ledger_controls.py:112-119 | That meaning of the flag, for every difference and rule |
| PipelineBPlan.SnapshotReadIff | src/jobs/pipeline_b_spark.py:214-232 | On any text the plan reads exactly the snapshots the loop reads whose user id is not spaces alone |
| PipelineBPlan.FlowReadIff | src/jobs/pipeline_b_spark.py:338-345 | The same for ledger records and wallet ids |
| PipelineBPlan.ReconExecutionExists | src/jobs/pipeline_b_spark.py:214-403 | Every input has an execution of the reconciliation plan |
| PipelineBPlan.BoundsJoin | src/jobs/pipeline_b_spark.py:214-259 | Joining first rows with last rows gives one row per (date, user), whatever the engine picks |
| PipelineBPlan.DeltaDeterminedIff | src/jobs/pipeline_b_spark.py:229-259 | The plan's choice among tied snapshots cannot change a day's delta exactly when tied balances agree |
| PipelineBPlan.UniqueTimesHaveNoTies | src/transforms/ledger_controls.py:150-187 | Unique snapshot times per user rule ties out |
| PipelineBPlan.BoundsRowIsLoopBounds | src/jobs/pipeline_b_spark.py:214-259 | Where ties agree, every joined bounds row carries the loop's start and end balance |
| PipelineBPlan.NetRowsAnswer | src/jobs/pipeline_b_spark.py:338-345 | Any grouped net-flow table answers each (date, wallet) with the loop's net flow, a missing group meaning zero |
| PipelineBPlan.ReconPlanRefinesLoop | src/jobs/pipeline_b_spark.py:329-403 | For every execution and every set of target dates, the plan's table restricted to a date is exactly the loop's rows of that date, drift share included, and it has one row per merge key |
| PipelineBPlan.SeveritiesAgree | src/jobs/pipeline_b_spark.py:108-154 | The when-chain severity equals the loop's for every value and rule |
| PipelineBPlan.ReconExceptionsAgree | src/jobs/pipeline_b_spark.py:405-434 | The plan raises on each date exactly the loop's exceptions |
| Relational.LeftJoinKeepsCountIff | src/jobs/pipeline_b_spark.py:347-351 | A left join keeps its row count exactly when no left row has two partners |
| Relational.GroupedSumIsOnePass | src/jobs/pipeline_b_spark.py:450-483 | Grouping first and adding up the groups that pass a test on their key equals one pass over the rows, for any grouping the engine may produce |
| SupplyPlan.SupplyTermsAgreeIff | src/jobs/pipeline_b_spark.py:450-470 | When one ledger record counts the same towards supply in both forms, both directions |
| SupplyPlan.TwoStageSupplyIsOnePass | src/jobs/pipeline_b_spark.py:450-483 | Daily sums joined on date <= target and added up, for every ledger, grouping and target, fall short of the loop's single pass by exactly the supply that empty entry types hide, and equal it where every entry type is read alike |
| SupplyPlan.WalletTotalsAgree | src/jobs/pipeline_b_spark.py:485-500 | The grouped wallet total of a target date is the loop's sum over the day's users |
| SupplyPlan.SupplyExecutionExists | src/jobs/pipeline_b_spark.py:438-500 | Every input has an execution of the supply plan |
| SupplyPlan.SupplyPlanRefinesLoop | src/jobs/pipeline_b_spark.py:438-540 | The plan's supply row of each target date is the loop's |
| SupplyPlan.PlanOkMeansWithin | src/jobs/pipeline_b_spark.py:502-540 | The plan's flag means the same, for every table the groupings may produce |
| SupplyPlan.SilverRowsStoreTheirDates | src/transforms/silver_controls.py:243-255 | Rows Silver accepts store the KST day of their own timestamps, and their entry type is read alike by both forms |
| SupplyPlan.SnapshotPushdownIff | scripts/run_pipeline_b.py:351-353 | The snapshot filter leaves what the plan reads unchanged exactly when every snapshot it would read stores a target date |
| SupplyPlan.FlowPushdownIff | scripts/run_pipeline_b.py:354-356 | The ledger filter leaves the net-flow rows unchanged exactly when every record the plan would add up stores a date up to the latest target |
| SupplyPlan.PushdownIsSound | scripts/run_pipeline_b.py:349-368 | Where both hold, the reconciliation plan has exactly the same executions on the filtered as on the full tables |
| SupplyPlan.StoredDatesLoseNothing | scripts/run_pipeline_b.py:349-368 | Tables as Silver stores them meet both conditions, and lose no issued supply |
| SupplyPlan.SupplyPushdownIsSound | scripts/run_pipeline_b.py:349-368 | Where every snapshot read passes and every ledger row stores a date, the plan's supply row of a target date is the same from the filtered and from the full tables, for any groupings the engine produces on either side |
| SupplyPlan.PushdownLosesUndatedSupply | scripts/run_pipeline_b.py:354-356 | For every ledger the filter loses exactly the supply of the records without a stored date |
| SupplyPlan.PushdownLosesUndatedFlow | scripts/run_pipeline_b.py:354-356 | And the net flow of every wallet loses exactly that of its records without a stored date |
| SupplyPlan.PushdownNeedsStoredDates | scripts/run_pipeline_b.py:354-356 | That loss can be other than zero: a witness |
| DqTags.ResolveDqTag | src/transforms/ledger_controls.py:70-78 | The gating tags win in order, otherwise some carried tag, otherwise none |
| DqTags.TagsAgreeIff | src/jobs/pipeline_b_spark.py:167-211 | Loop and plan agree on a day's tag, whatever the set yields first, exactly when a gating tag is present or there is at most one tag and it is not of spaces alone |
| DqTags.GatingNeverDiffers | src/transforms/ledger_controls.py:70-82 | Whether a day is gated, and by which tag, never differs between the forms |
| Conservation.SignTablesSplit | src/transforms/ledger_controls.py:24-29 | Silver's sign is Gold's supply sign plus a transfer sign, and no type has both |
| Conservation.AcceptedEntriesAreFromSilver | src/transforms/silver_controls.py:74-86 | Every entry Silver accepts meets the assumptions of the conservation laws below |
| Conservation.SupplyDifferenceMoves | src/transforms/ledger_controls.py:222-345 | For every Silver-produced ledger and every snapshots, today's supply difference is yesterday's minus total drift, minus transfer imbalance, plus flow into unsnapshotted wallets, minus the carry-over gap |
| Conservation.ClosedDayMovesByDrift | src/transforms/ledger_controls.py:321-345 | With balances carried over, active wallets snapshotted and transfers balanced, the difference moves by the drift alone |
| Conservation.DifferenceIsAccumulatedDrift | src/transforms/ledger_controls.py:321-345 | Over a run of such days the difference changes by exactly the accumulated drift |
| Conservation.SupplyStaysBalancedIff | src/transforms/ledger_controls.py:321-377 | Started with a zero difference, the difference stays zero through the run exactly when no day has net drift |
| Conservation.ZeroDriftKeepsZeroDifference | src/transforms/ledger_controls.py:256-345 | If every published row of every day shows zero drift, whatever the days' tags, a zero difference stays zero |
| Conservation.DifferenceMovesAtMostPublishedDrift | src/transforms/ledger_controls.py:276-300 | In one such day the difference moves by at most the sum of the users' absolute drifts |
| AdminPairing.PairingIsAnInvolution | src/transforms/ledger_controls.py:600-623 | Pairing is symmetric and has no fixed point, and the partner is unique when no transaction is in two pairs |
| AdminPairing.OneRelatedIdPairsOnce | src/transforms/ledger_controls.py:590-612 | One related id per transaction and day is enough for that |
| AdminPairing.CollectGroups | src/transforms/ledger_controls.py:567-598 | The entries of the day in order, and the member transactions of every related id |
| AdminPairing.BuildLookup | src/transforms/ledger_controls.py:600-612 | Every answer of the lookup is a pair, and every paired transaction has an answer |
| AdminPairing.AttachPartners | src/transforms/ledger_controls.py:614-623 | Rewriting in place changes the partner field only: a partner where there is one, none exactly where there is none |
| AdminPairing.BuildAdminTxSearch | src/transforms/ledger_controls.py:560-623 | The whole function: the day's entries, each with its partner |
| AdminPairing.PlanListsIff | src/jobs/pipeline_b_spark.py:731-747 | The plan lists what the loop lists on a target date, less records whose transaction or wallet id is spaces alone |
| AdminPairing.PairGroupsExist | src/jobs/pipeline_b_spark.py:749-760 | Every input has an output of the grouping |
| AdminPairing.PairJoinKeepsCountIff | src/jobs/pipeline_b_spark.py:749-791 | Joining the pair table back keeps every entry once exactly when no transaction is in two of the groups of two the plan collects for a day |
| AdminPairing.AdminPlanRefinesLoopIff | src/jobs/pipeline_b_spark.py:725-791 | Without double pairing, the plan's rows of a target date, in whatever order the engine returns them, are the loop's entries with their partners exactly when no group of two of that day has a related id of spaces alone |
| AdminPairing.SearchWriteRepeatsIff | src/io/merge_utils.py:47-71 | For every ledger and day: the search rows are keyed, and storing them can be repeated, exactly when no two listed records of the day share a transaction |
| AdminPairing.PlanSearchWriteRepeatsIff | src/jobs/pipeline_b_spark.py:725-791 | The same for the plan's rows of all target dates, for any pair groups the engine produces, paired twice or not |
| AdminPairing.TwoWalletsDefeatTheMerge | src/common/table_metadata.py:36-36 | A transaction with entries of two wallets on one day breaks that condition |
| Guardrail.CountDuplicates | src/transforms/dq_guardrail.py:98-118 | Seen-set duplicates are the complete keys beyond their distinct values |
| Guardrail.MaxTimestamp | src/transforms/dq_guardrail.py:79-95 | The nested loop finds the greatest timestamp of any field of any record, or none when there is none |
| Guardrail.CountBadRecords | src/transforms/dq_guardrail.py:121-139 | The count of records that violate their source's contract |
| Guardrail.ContractFormsAgree | src/jobs/pipeline_a_spark.py:227-270 | On clean text the record check and the validity expression agree for every source |
| Guardrail.ContractFormsDifferBy | src/jobs/pipeline_a_spark.py:227-270 | On any text, the record check is the validity expression and the absence of required texts of whitespace alone |
| Guardrail.PlanKeyedMeans | src/jobs/pipeline_a_spark.py:36-38 | The plan counts an event as keyed when every key column holds a character other than a space |
| Guardrail.MaxOfColumns | src/jobs/pipeline_a_spark.py:172-186 | The loop over collected column maxima finds the greatest, or none when all are null |
| Guardrail.ColumnMaximaAgree | src/jobs/pipeline_a_spark.py:149-186 | The maximum of the column maxima is the maximum of all timestamps |
| Guardrail.MetricsAgree | src/jobs/pipeline_a_spark.py:149-270 | Whatever maxima the engine reports for the timestamp columns, the loops and the aggregates compute the same metrics for every list of clean records, freshness from the greatest of those maxima |
| Guardrail.PickOverallStatus | src/transforms/dq_guardrail.py:205-228 | The overall status is an assessment no other outranks by severity and then priority, and exists exactly when some assessment has a severity |
| Guardrail.OverallIsUnique | src/transforms/dq_guardrail.py:205-228 | There is only one such status |
| Guardrail.BuildDqStatus | src/transforms/dq_guardrail.py:261-414 | The loop's metrics; each of the four alarms is raised, critical or warning, exactly when its own metric reaches a level of its own rule: age in seconds, share of duplicates, consecutive empty windows, share of contract violations; and the overall status is critical before warning and then by the documented order of tags |
| Guardrail.StatusAlarms | src/jobs/pipeline_a_spark.py:340-400 | The alarms of either form, level by level |
| Guardrail.StatusOverall | src/transforms/dq_guardrail.py:205-228 | The overall status of either form, from the alarms alone |
| Guardrail.StatusesAgree | src/jobs/pipeline_a_spark.py:273-455 | Both forms report the same status, exceptions included |
| GuardrailVsSilver.AcceptedEntryMeetsContractIff | src/transforms/dq_guardrail.py:142-178 | An entry Silver accepts meets the Guardrail contract exactly when type and identifiers hold visible text |
| GuardrailVsSilver.GuardrailAlarmStopsSilver | src/transforms/silver_controls.py:109-140 | On the same ledger records Guardrail's bad rate is at most Silver's, and above Silver's fail threshold Silver stops |
| GuardrailVsSilver.GuardrailWalletAlarmStopsSilver | src/transforms/silver_controls.py:109-140 | The same for wallets |
| KstTime.DayHoldsItsInstants | src/common/time_utils.py:24-25 | An instant belongs to the KST day between two midnights and to no other |
| KstTime.KstIsNineHoursAhead | src/common/time_utils.py:7-25 | A KST day starts at 15:00 UTC of the day before and has 24 hours |
| JobWindows.FromMapping | src/common/job_params.py:48-95 | Accepted parameters have an ordered window in incremental mode and ordered dates in backfill mode |
| JobWindows.BackfillTakesTheDaysNamed | src/common/job_params.py:71-134 | A backfill targets exactly the days from the first it names to the last, in order, its windows hold exactly their instants, and it reports their end or the given one |
| JobWindows.BackfillAcceptedIff | src/common/job_params.py:66-85 | A backfill is accepted exactly when its window is in order and it names a first and a last day in order |
| JobWindows.IncrementalWindowIsGiven | src/common/job_params.py:87-134 | An incremental run is accepted exactly with both ends of a window in order, works on that window and reports its end, dates given or not; no other mode is accepted |
| JobWindows.WindowsUtc | src/common/job_params.py:123-134 | The loop returns the window of an incremental run or one window per target day, and fails only on an incremental run without a window |
| JobWindows.BackfillWindowsTileTheirDays | src/common/job_params.py:97-134 | Backfill windows are adjacent; window i holds exactly the instants of target day i; together they hold exactly the target days; without an end timestamp they end at the reported end |
| JobWindows.TargetDatesAreTheDaysTouched | src/common/job_params.py:97-112 | Given only a window, the target dates are exactly the KST days of its instants |
| JobWindows.ReportedEndIsCoveredIff | src/common/job_params.py:114-121 | The reported end stays within the windows exactly when the end timestamp is absent or falls on the last target day or earlier |
| JobWindows.ReportedEndCanRunAhead | src/common/job_params.py:114-121 | A run that processes one day and reports the end of another |
| JobWindows.FilterToWindows | scripts/run_pipeline_silver.py:104-118 | The accumulated condition keeps exactly the rows with some present column in some window; no windows or no columns means no filter |
| JobWindows.WindowFilterIsOneRange | scripts/run_pipeline_silver.py:104-118 | For the windows of a run the condition is one range test per column |
| JobWindows.GivenParametersStand | src/common/window_defaults.py:20-90 | Parameters that are given are never replaced by defaults |
| JobWindows.DailyDefaultIsYesterday | src/common/window_defaults.py:20-46 | Blank daily parameters process exactly the KST day before now and report its end |
| JobWindows.IncrementalDefaultContinuesFromCheckpoint | src/common/window_defaults.py:49-90 | A blank Pipeline A run is one window ending now that starts at a checkpoint in the past, or the default number of minutes ago, ten, without one |
| PipelineState.ParseZeroWindowCounts | src/io/pipeline_state_io.py:99-116 | Parsing keeps the numeric fields, clamped at zero, and drops the rest |
| PipelineState.CountsRoundTripIff | src/io/pipeline_state_io.py:99-121 | Counts survive storing and reading exactly when none is negative |
| PipelineState.ReadBackIsClamped | src/io/pipeline_state_io.py:99-121 | A stored count reads back as itself, a negative one as zero |
| PipelineState.FailuresLeaveNoTrace | src/io/pipeline_state_io.py:124-168 | A success after failures writes the row it would have written without them; failures in a row equal the last one |
| PipelineState.StateRoundTrip | src/io/pipeline_state_io.py:60-96 | A written record reads back as itself; without its status column too, except exactly for a failure stamped at the instant of the last success |
| PipelineState.GateAfterCommit | src/io/pipeline_state_io.py:124-168 | A committed success opens the gate exactly up to its end and stores its counts; a failure leaves gate and counts as they were |
| PipelineState.GateSurvivesFailure | src/io/upstream_readiness.py:14-34 | A failure never changes the gate's answer, and the gate is monotone in the required end |
| GuardrailRuns.CheckpointIsAlwaysCovered | scripts/run_pipeline_a.py:133-149 | Under every interleaving of default runs that succeed, fail with the state read at start, or crash, every instant from the first checkpoint to the current one lies in the window of a successful run |
| GuardrailRuns.CheckpointFallsIff | scripts/run_pipeline_a.py:252-282 | In every reachable world a step lowers the checkpoint exactly when it is a failure that read an older checkpoint at its start, or a success whose window ends before the current one |
| GuardrailRuns.CheckpointIsMonotoneIff | scripts/run_pipeline_a.py:252-282 | Over a whole history the checkpoint never falls exactly when no step commits something older |
| GuardrailRuns.LateCommitsRewindCheckpoint | scripts/run_pipeline_a.py:252-282 | Two overlapping runs: a late failure and a late success both take the checkpoint back |
| GuardrailRuns.SuccessfulWindowsTile | src/common/window_defaults.py:78-90 | Without overlap and with an advancing clock, the windows of successful runs are adjacent, non-empty, and span from the first checkpoint to the last |
| GuardrailRuns.InterleavingTilesIff | scripts/run_pipeline_a.py:133-149 | Over any interleaving of default runs with clocks ahead of the checkpoint, the windows of successful runs tile exactly when each started from the end of the one before |
| GuardrailRuns.OverlapBreaksTiling | scripts/run_pipeline_a.py:133-149 | Two overlapping runs that both succeed process the same time twice |
| GuardrailRuns.AdjacentWindowsAreDisjoint | src/common/window_defaults.py:78-90 | Adjacent windows do not overlap, so no instant is processed twice |
| GuardrailRuns.MeasureWindow | scripts/run_pipeline_a.py:195-226 | One window updates the count of every source and of nothing else |
| GuardrailRuns.MeasureWindows | scripts/run_pipeline_a.py:187-228 | After the nested loop, and after every window of it, each source's count is its trailing run of empty windows, carried on from the stored count |
| GuardrailRuns.StateTable.RunGuardrail | scripts/run_pipeline_a.py:133-282 | The script's effect on the checkpoint row is one whole run of the protocol: success, failure with the initial state, or nothing; and it succeeds exactly when its parameters are accepted and nothing fails |
| GuardrailRuns.StoredCountIsTrailingEmptyRun | scripts/run_pipeline_a.py:189-266 | After any history of runs that do not overlap, the stored count is the trailing run of empty windows over all windows of successful runs |
| GuardrailRuns.EventDropCriticalIff | src/transforms/dq_guardrail.py:189-202 | In any window of a run, with critical level k and no lower threshold, the drop alarm is critical exactly when the last k windows are empty: this one, those before it in the same run, and those of earlier runs |
| SilverRuns.HistoryKeepsInv | scripts/run_pipeline_silver.py:275-308 | In every history, each watermark stored or about to be written back stands for fully processed data |
| SilverRuns.GateMeansCovered | src/io/upstream_readiness.py:14-34 | A run that passes the gate for end r finds everything from the base to r processed by successful Silver runs, also after failures and backfills |
| SilverRuns.DailyRunsAreContiguousIff | src/common/window_defaults.py:20-46 | Daily runs without parameters are contiguous exactly when none comes more than one KST day after the one before |
| SilverRuns.GateCoversTargetsIff | src/common/job_params.py:97-121 | In either mode, the end a run asks the gate for covers every instant of its target days exactly when it is no earlier than the end of the last one |
| SilverRuns.WindowRunCoversItsDaysIff | src/common/job_params.py:97-121 | A run given by a window alone, in either mode, is covered exactly when the window ends at a KST midnight |
| SilverRuns.ReadyRunReadsProcessedDays | src/io/upstream_readiness.py:37-71 | A covered run of either mode that is past the gate reads only processed instants of its target days |
| SilverRuns.CommitIsSoundIff | scripts/run_pipeline_silver.py:275-308 | After any contiguous history, also with the watermark moved back, a committed watermark stands for processed data exactly when it reports no more than is processed already, or starts no later than that and reports within its windows |
| SilverRuns.GateMissesHoles | src/io/upstream_readiness.py:14-34 | Both conditions on Silver runs are needed: two histories in which the gate opens over an unprocessed day |
| SilverRuns.SilverCatalog.Quarantine | scripts/run_pipeline_silver.py:121-134 | Bad records are appended whatever happens next; the run goes on exactly when, in each table, the bad records are at most the threshold's share |
| SilverRuns.SilverCatalog.MergeTables | scripts/run_pipeline_silver.py:256-273 | Snapshots are merged before entries; a refused merge or an exception keeps what was merged before it |
| SilverRuns.SilverCatalog.Materialize | scripts/run_pipeline_silver.py:197-308 | For each point of failure, also after the ledger merge: what is quarantined, which tables are merged, and the state row; only a full run commits the reported end, and a failure keeps the watermark |
| SilverRuns.SilverRunRepeatsIff | src/io/silver_io.py:51-68 | After a run made both merges, the same records go through again exactly when no two accepted records of a table share its merge key |
| MergeStore.MergeIsOverride | src/io/merge_utils.py:61-71 | On keyed rows the merge succeeds, stays keyed, and is the override of one map by the other |
| MergeStore.MergeSucceedsIff | src/io/merge_utils.py:41-71 | A merge without the uniqueness check is refused exactly for a null source key and for two source rows that share the key of a target row |
| MergeStore.MergeKeepsKeysIff | src/io/merge_utils.py:47-71 | With the uniqueness check off, a merge that goes through keeps the table keyed exactly when the source was |
| MergeStore.MergeAgainIff | src/io/merge_utils.py:41-71 | A merge that went through goes through again exactly when its source is keyed, whatever the table held |
| MergeStore.MergeNextIff | src/io/merge_utils.py:41-71 | After a merge that went through, another source with no other keys goes through exactly when it is keyed |
| MergeStore.WriteIsOverride | src/io/gold_io.py:104-119 | Writing keyed rows to a keyed table, present or not, is never refused, keeps it keyed, and overrides it as a map |
| MergeStore.WriteAgainIff | scripts/run_pipeline_b.py:124-153 | The retry law of a write, the first one that creates the table included |
| MergeStore.DeltaTable.MergeDelta | src/io/merge_utils.py:20-71 | Which merges are refused, and that a refused merge changes nothing |
| MergeStore.DeltaTable.Upsert | src/io/silver_io.py:51-68 | The first write creates the table unchecked, later writes merge; a refused one changes nothing |
| MergeStore.DeltaTable.Write | scripts/run_pipeline_b.py:124-153 | An empty frame leaves the table alone, also an absent one; other frames are upserted |
| Backfill.BackfillsConverge | scripts/run_pipeline_b.py:124-153 | For outputs that depend key by key on the date of the key, any sequence of backfills equals one backfill of all their dates |
| Backfill.BackfillOrderIsIrrelevant | tests/integration/test_backfill_idempotency.py:18-109 | Order and repetition do not matter, and rows of other dates stay as they were |
| Backfill.StoredBackfillsConverge | scripts/run_pipeline_b.py:124-153 | On stored bags: when every run hands the merge the keyed rows of its dates, no write is refused, and the table is that of one run over all their dates |
| Backfill.PlanRunExists | src/jobs/pipeline_b_spark.py:214-540 | Over any tables and dates there is an execution of both plans |
| Backfill.PlanWritesReconOut | src/jobs/pipeline_b_spark.py:329-403 | Every execution of the plan hands the merge a keyed table equal to the loop's rows by key |
| Backfill.PlanWritesExceptionOut | src/jobs/pipeline_b_spark.py:405-434 | Every execution hands over a keyed table of exactly the exceptions of its dates |
| Backfill.PlanWritesSupplyOut | src/jobs/pipeline_b_spark.py:438-540 | The same for supply rows |
| Backfill.PlanWritesSupplyExceptionOut | src/jobs/pipeline_b_spark.py:542-569 | The same for supply exceptions |
| Backfill.ReconBackfillsConverge | src/common/table_metadata.py:22-22 | Any executions of any backfills, merged one after another into a keyed stored table, leave the reconciliation rows of one run over all their dates, and no merge is refused |
| Backfill.SupplyBackfillsConverge | src/common/table_metadata.py:23-23 | The same for supply rows |
| Backfill.ExceptionKeyIs | src/common/table_metadata.py:24-31 | The merge key of a reconciliation exception names its day and user, so no two exceptions share one |
| Backfill.ExceptionBackfillsConverge | src/common/table_metadata.py:24-31 | The same for reconciliation exceptions of a fixed run id |
| Backfill.SupplyExceptionBackfillsConverge | src/common/table_metadata.py:24-31 | The same for supply exceptions of a fixed run id |
| TaskGraph.BatchAgrees | src/common/table_metadata.py:24-31 | Because the exception type is in the key, no merge of one task contradicts a merge of the other |
| TaskGraph.SplitMatchesUnsplit | scripts/run_pipeline_b.py:381-415 | Over tables as maps, the two tasks' merges commute and leave the tables of the unsplit script |
| TaskGraph.EveryScheduleKeepsInv | databricks.yml:149-276 | Over tables as maps, under every interleaving of merges, crashes, retries, repairs and finalize tasks, each row is untouched or final, each running task has written what it passed, and a committed success means all merges were made |
| TaskGraph.FinishedJobLeavesCleanTables | databricks.yml:149-276 | Over tables as maps, once both tasks succeeded, or success is committed for the run, the gold tables are those of a run without crashes |
| TaskGraph.CleanScheduleFinishes | databricks.yml:149-276 | A job nothing strikes finishes: both tasks succeed and the success of the run is committed |
| TaskGraph.FinalizeCommits | scripts/run_pipeline_b.py:301-322 | Success is committed exactly when both tasks succeeded and opens the gate up to the run's end; failure exactly when both ended and one failed, and keeps the gate; neither touches a table |
| TaskGraph.ThirdCrashFails | databricks.yml:149-245 | A task is tried three times, each time from its first merge |
| TaskTables.PutIsWrite | scripts/run_pipeline_b.py:124-153 | One merge of keyed rows into keyed bags goes through, keeps them keyed, and is the map write of that table alone |
| TaskTables.NextAttemptIff | databricks.yml:149-276 | The retry law of a task: when all merges of an attempt went through, all merges of another one, which may hand over other rows for the same keys, go through exactly when every batch of it is keyed, whatever the tables held |
| TaskTables.AttemptRepeatsIff | databricks.yml:149-276 | So the same rows go through again exactly when they are keyed |
| TaskTables.RunRefines | databricks.yml:149-276 | With rows evaluated anew for every merge, keyed and the same by key each time, every schedule on keyed stored tables, where a refused merge is a crash, is the same schedule over maps |
| TaskTables.NoMergeIsRefused | databricks.yml:149-276 | After no such schedule would any merge of any evaluation be refused |
| TaskTables.FinishedJobLeavesCleanStoredTables | databricks.yml:149-276 | For such a job, once finished, the stored tables are keyed and hold what a run without crashes writes |
| TaskTables.SteadyJobFinishes | databricks.yml:149-276 | And there is a schedule that finishes such a job and opens its gate |
| TaskTables.UnitedExceptionsAreKeyed | scripts/run_pipeline_b.py:381-415 | The unsplit script's united exceptions are keyed, because the type is in the key |
| TaskTables.StoredSplitMatchesUnsplit | scripts/run_pipeline_b.py:381-415 | On keyed bags with keyed outputs, the unsplit script and the two tasks in either order make all their merges and leave the same tables |
| PipelineBTables.OpsRowCounts | src/jobs/pipeline_b_spark.py:572-606 | A row of daily counts has the number of the merchant's orders of the day, at least one, and of those with a status looked for |
| PipelineBTables.OpsRowsExist | src/jobs/pipeline_b_spark.py:572-606 | Every input has an output of the grouping |
| PipelineBTables.OpsRowsKeyedIff | src/jobs/pipeline_b_spark.py:572-606 | For any grouping, the daily counts have no null and no repeated merge key exactly when every payment order of a target date names its merchant |
| PipelineBTables.ExecutionExists | src/jobs/pipeline_b_spark.py:794-899 | Whatever a run reads, there is an execution of all its plans |
| PipelineBTables.PipelineBOutputsKeyedIff | src/common/table_metadata.py:21-39 | Everything a run hands to its merges is keyed exactly when no two listed ledger records of a day share a transaction and every order of a target date names its merchant |
| PipelineBTables.TaskRetriesIff | databricks.yml:149-276 | After all merges of a task went through, its retry, with the plans executed again, goes through for reconciliation always, and for supply and operations exactly under that condition |
| PipelineBTables.OutputsAreTyped | src/jobs/pipeline_b_spark.py:405-434 | The exceptions Pipeline B computes carry their control's type in their keys |
| PipelineBTables.ExecutionsAgree | src/jobs/pipeline_b_spark.py:794-899 | Any two executions of a run on such inputs hand over the same rows by key, table by table |
| PipelineBTables.FinishedJobStoresTheLoopsRows | databricks.yml:149-276 | End to end: with the plans executed anew for every merge, after any schedule of a finished job, the stored reconciliation row of every user of a target date and the stored supply row of the date are the record loops' rows |
| TaskTables.Catalog.RunPipelineB | scripts/run_pipeline_b.py:296-436 | For each task argument, by table name: a reconciliation run touches only its table and the exceptions, a supply run only its six; after success each holds the merge of its own output; on keyed tables and outputs nothing is refused and the unsplit run leaves everything a complete run writes. For each point of failure and each refused merge: which merges were made, and which state row is left |
| Category.SelectCategories | src/transforms/analytics.py:247-298 | The loop's dictionary gives every order the category of its running best |
| Category.BestIsFirstTop | src/transforms/analytics.py:272-294 | The running best is an item no other item of the order leads, and the first such item |
| Category.CategoryIsOrderIndependentIff | src/transforms/analytics.py:247-298 | The category is the same for every order of the input exactly when all leading items agree on it |
| Category.DistinctIdsAgree | src/transforms/analytics.py:284-294 | Distinct item ids are enough for that |
| Category.PlanCandidatesAreLoopCandidates | src/jobs/pipeline_c_spark.py:60-95 | With one category per product and amounts that agree, the plan ranks exactly the loop's candidates |
| Category.FirstRankedIs | src/jobs/pipeline_c_spark.py:97-108 | The row that ranks first: the largest amount, then the smallest item id with a missing one last, then product and category in text order |
| Category.PlanCategoryIsDetermined | src/jobs/pipeline_c_spark.py:97-120 | The plan's category of an order does not depend on the engine |
| Category.RankedFirstExists | src/jobs/pipeline_c_spark.py:97-120 | Every input has an output of the ranking |
| Category.RankedCategoriesAreLoopCategories | src/jobs/pipeline_c_spark.py:97-120 | Whichever rows rank first, every order gets the loop's category and no other order gets one |
| Category.AmountsAgreeIff | src/jobs/pipeline_c_spark.py:69-76 | Loop and plan give an item the same amount exactly when its quantity is not zero or its price is missing or zero |
| Category.BuildFacts | src/transforms/analytics.py:301-357 | The loop's facts, with the category dictionary it builds on the way |
| Category.SelectionsAgree | src/jobs/pipeline_c_spark.py:122-150 | The plan's filters let through exactly the events the loop does not skip |
| Category.FactPlanRefinesLoop | src/jobs/pipeline_c_spark.py:122-166 | The join with the category table neither drops nor repeats an event, and both forms yield the same facts |
| ConfigTree.DeepMerge | src/common/config_loader.py:71-79 | The loop over the override's keys computes the merge |
| ConfigTree.MergedLookup | src/common/config_loader.py:71-79 | Lookup in a merged configuration, exactly, for every path: the override's leaf, the merged section where both hold one, nothing below an override's leaf, the base elsewhere |
| ConfigTree.MergeIsIdempotent | src/common/config_loader.py:71-79 | Merging the same override again changes nothing |
| ConfigTree.GetConfigValue | src/common/config_loader.py:197-219 | Reading key by key finds what the tree holds at the path; the default replaces a missing path only |
| ConfigTree.SetAcceptedIff | src/common/config_loader.py:114-133 | An environment override is accepted exactly when its path is already there |
| ConfigTree.SetLookup | src/common/config_loader.py:114-133 | An accepted override changes lookups at, below and above its path, in a stated way, and no others |
| ConfigTree.SeparateOverridesCommute | src/common/config_loader.py:136-148 | Overrides at unrelated paths can be applied in either order, acceptance included |
| ConfigTree.OverridesAcceptedIff | src/common/config_loader.py:136-148 | A list of overrides is accepted exactly when every path is there to begin with and none lies inside one written before it; then every path reads: nothing inside a written value, the last value written at it, a section with the overrides inside it applied, or what it read before |
| ConfigTree.PriorityChain | src/common/config_loader.py:151-194 | The same for the two merged files, for every path: acceptable environment overrides over what the environment file says over what the common file says |
| ConfigStore.SetExistingConfigPath | src/common/config_loader.py:114-133 | The in-place write, found by walking the dictionaries, rewrites the tree as specified or changes nothing, and keeps it a tree |
| ConfigStore.ApplyEnvOverrides | src/common/config_loader.py:136-148 | Overrides are applied in order up to the first rejected one; the tree is then the result of exactly that prefix |

## Left out

- Spark, Delta and Unity Catalog themselves: sessions, table creation, partitions, casts; joins, groupings and windows are kept by their relational meaning only.
- Argument parsing, YAML, JSON and environment-variable text, secrets, the hash behind user keys (an arbitrary function here) and the required salt, wall clocks.
- Rounding of rates: the two forms divide at different scale. `drift_pct` and the rates of the guardrail are exact quotients here.
- Decimal values that are not numbers, and decimal overflow in the engine.
- `select_rule`, rule loading modes and rule identifiers in rows: a rule is a parameter.
- Daily counts of failed and refunded payments in the records loop: they are modelled in the plan's grouped form, without the rate column. The figures of pairing quality; its table is any table with one row per target date whose figures are a fixed function of the date.
- Merchant name and status columns of payment facts, which are copied.
- The order, item and product tables of Silver: `SilverCatalog` stores snapshots and ledger entries.
- The `dq_status` and exception rows Pipeline A appends before it commits: appends are repeated by a retried run, and no theorem here counts them.
- Sharing between dictionaries after a configuration merge: `DeepMerge` is modelled on values, whereas the original's result shares unmerged sections with its inputs, which are not read again. YAML aliases are excluded by the tree shape of `ConfigStore.Dict`.
- Equality of the last-seen with the latest-created status lookup: the two forms differ by design, and `PlanRefinesLoop` therefore compares them on the same lookup.
- Run identifiers in the checkpoint rows of Pipeline A and Silver, fixed to one text because nothing depends on them.
- Liveness of the task graph: that retries eventually succeed is not claimed, only that an undisturbed schedule finishes.
