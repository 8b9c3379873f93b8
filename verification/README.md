# Verified model of the inventory system

The repository is a stock and production system for a small factory: parts, bills of materials, production batches and
the lots that parts are drawn from, served to one machine or to a local network. This project models the parts of it
that keep state over many operations, and proves what they promise over every input and every run.

Quantities are integer hundredths, because every quantity the system accepts is validated to two decimals. Tables are
maps and sequences, and a transaction either yields new tables or leaves them alone.

## What is modelled

**The inventory ledger** (`Bom`, `Sums`, `Tables`, `Draw`, `Transactions`, `Effects`, `Invariant`, `Revocation`,
`Runs`, `RoundTrip`, `Projection`, `TraceRecords`, `Refusals`, `Plans`, `Edits`, `Frozen`, `Occurrences`,
`LedgerStore`). `Transactions` says what each operation does to the tables; the class `LedgerStore.Ledger` does it
with the source's own loops and snapshots, and is proved against it. The central result is `Runs.RunKeepsInv`: in
every reachable state a part's lots hold its stock plus an exactly known excess. The excess is not zero in general. A
revocation restores the draws of the whole batch once for each consumed part
(`internal/service/service.go:1157-1184`), so every part after the first is given back twice. The comments promise
that stock and lots always agree; `RoundTrip.ReachableStockMatchesLotsIff` proves that they do if and only if no
revoked batch had consumed more than one part, and `Occurrences.RevocationLeavesExcess` is a run in which they do not.
`Plans` follows a recorded plan to the lots that are drawn, `Edits` says exactly what each edit accepts and changes,
and `Frozen` that nothing changes a closed batch.

**The lot migration** (`Backfill`, `Migrated`): filling the remainders of old lots from the stock, oldest lots drained
first, what happens when it is stopped and run again, and exactly when the ledger's invariant holds afterwards.

**Device admission and sessions** (`Sessions`, `Devices`, `Lan`, `Admission`, `Ending`, `LanServer`). `Lan` is a
protocol of atomic steps: the device table, the in-memory revoked set and the session table are separate, and logins,
requests and administrative changes of any number of clients interleave, with other processes changing the device table
at will. `Admission` is where sessions come from in it, `Ending` what ends them. `LanServer` is the server's own code
for a request and a device change, proved equal to those steps run alone.

**Destructive operations** (`Outcome`, `Lines`, `Dump`, `Unfinished`, `Targets`, `Restore`, `RestoreOutcome`,
`Inspect`). `Outcome` runs both database adapters, the service and the HTTP layer over a connection whose every
statement can be refused, lose its reply, break the connection or, for a commit, end the transaction either way. `Dump`
is the replay of a dump, down to the characters of its lines, and `Unfinished` a replay that cannot reach its end.
`Targets` is the table each statement is written to, read from its whole text as the server reads it, past comments and
with doubled quotes (`Targets.CommentPassed`, `Targets.LineCommentPassed`, `Targets.VersionRead`,
`Targets.DoubledReadBack`), while the replay looks at the first line only; `Restore` is what is left in every table,
and `RestoreOutcome` joins that with the faults and with what the client is told. `Inspect` is the inspector that
judges a dump before it is used.

**Self-update** (`Update`): five files, every file operation able to fail and the process able to die between any two.

**Two smaller loops**: `Pbkdf2` (section 5.2 of RFC 8018) and `LogRotation`.

Where the code does less than its comments say, the code is what is modelled, a lemma gives the exact condition, and
another gives an input or a run that fails:

- a lot named in a batch's plan is passed over by the second pass even if it still has stock, so a completion can be
  refused although the lots suffice (`Refusals.CompletionRefusedIff`, `Occurrences.SufficientLotRefused`);
- the allocation check adds a batch's own earlier allocation back although recording never lowers a remainder, so
  recording again can plan more than a lot holds (`TraceRecords.CheckIsTightIff`,
  `Occurrences.OverplanningHappens`);
- a login under the fingerprint of a former host turns a host row into a client row without looking for a free slot
  (`Devices.LoginKeepsLimitIff`, `Devices.StaleHostExceedsLimit`);
- a request already past the revoked set is still accepted after a revocation is complete (`Lan.RevokedOutIff`,
  `Lan.RevokedRequestAccepted`), and a deletion in flight undoes the revocation in the cache
  (`Lan.RevocationSticksIff`, `Lan.DeletionUndoesRevocation`);
- batches completed before the migration have no draw rows, so the invariant does not hold over their frozen consumption
  (`Migrated.MigratedInvIff`);
- a stop of the migration between the last lot and a surplus loses the surplus (`Backfill.StoppedRunResumes`,
  `Backfill.StopLosesSurplus`);
- the tests for preserved and qualified tables read the first line of a statement only
  (`internal/service/restore.go:225-264`), so a statement that names its table or puts its period on a later line is
  executed (`Targets.ReplayIsSafeIff`, `Restore.UntouchedIff`; `Restore.UsersCanBeWritten`,
  `Restore.HiddenSchemaIsWritten`);
- blank and comment lines inside a statement are lost in a replay, also inside a text value (`Dump.VerbatimIff`,
  `Dump.BlankLineInValueIsLost`);
- the inspector keeps those lines, so it judges other texts than the replay executes (`Inspect.InspectorCutsIff`,
  `Inspect.VerdictIsRightIff`, `Inspect.CommentChangesVerdict`);
- the lot, draw, allocation and temporary-part tables are neither cleared nor preserved by a restore
  (`Restore.RestoreIsExactIff`, `Restore.UnlistedTablesKeepOldRows`);
- the last confirmed program can be lost by an update, a confirmation or a rollback that begins in the wrong state:
  `Update.GuardIsExact` says exactly which states those are, and `Update.RetriedUpdateLoses`,
  `Update.StrandedConfirmLoses` and `Update.InterruptedConfirmLoses` are runs into them.

## Model

| member | source | states |
|---|---|---|
| Bom.BoxesLeast | internal/service/service.go:2525-2539 | the boxes before loss are the least whole number of boxes that covers the plan |
| Bom.ConsumeBoxed | internal/service/service.go:2525-2539 | what a boxed row asks for is a whole number of boxes, the least that covers the plan's boxes raised by the loss rate |
| Bom.BoxedCoversPlan | internal/service/service.go:2525-2539 | what a boxed row asks for always serves the whole plan |
| Bom.BoxedMonotone | internal/service/service.go:2525-2539 | a boxed row asks for no less when the plan or the loss rate rises |
| Bom.BoxedSplit | internal/service/service.go:2525-2539 | planning in two batches instead of one never lowers what a boxed row asks for in all |
| Bom.PerUnitWithinHalf | internal/service/service.go:107-114 | what a per-unit row asks for is the exact product of plan, quantity and loss, rounded to the nearest hundredth with a half upwards |
| Bom.PerUnitSplit | internal/service/service.go:107-114 | splitting a plan in two moves the per-unit total by at most one hundredth |
| Bom.ConsumeNonNegative | internal/service/service.go:2525-2539 | a valid BOM row never asks for a negative quantity |
| Bom.ConsumeCovers | internal/service/service.go:2525-2539 | a valid BOM row asks for something for every plan: per unit at least the plan's quantity without loss and at most twice that |
| Draw.DrawExact | internal/repository/part_inbound.go:117-185 | a draw takes exactly the quantity, or less and is refused; it succeeds if and only if the planned lots' min(remaining, plan) plus the other lots' remaining cover it |
| Draw.DrawOrder | internal/repository/part_inbound.go:159-180 | planned lots give in plan order, other lots oldest first, and a later one gives something only when every earlier one has given all it can |
| Draw.LossBounded | internal/repository/part_inbound.go:132-157 | no lot gives more than it has, and no planned lot more than its plan |
| Draw.OffersTotal | internal/repository/part_inbound.go:117-185 | what the two passes can reach in all is the sum of each lot's contribution, whatever the plan's order and repetitions |
| Draw.GreedyTotal | internal/repository/part_inbound.go:131-157 | the takes of a draw add up to the lesser of the wanted quantity and what the lots offer |
| Draw.GreedyShare | internal/repository/part_inbound.go:132-157 | each lot gives the lesser of its offer and what the lots before it left open |
| Draw.RefusedDespiteLotsIff | internal/repository/part_inbound.go:159-183 | a draw that the lots could cover is refused exactly when the planned lots hold back more than would be left over, because the second pass skips every planned lot |
| Draw.PlannedLotRefused | internal/repository/part_inbound.go:165-174 | one lot of 10.00 planned for 5.00 does not give 10.00 |
| Effects.FifoFacts | internal/repository/part_inbound.go:63-75 | the lots of a part come ordered by creation time and then id, each once |
| Effects.DrawTotals | internal/repository/part_inbound.go:117-185 | a successful draw lowers the part's lots by exactly the quantity and leaves the other parts' lots alone |
| Effects.DrawLosses | internal/repository/part_inbound.go:132-157 | each lot of a part is down by what the draw took from it, every other lot is untouched |
| Effects.TakePartTook | internal/service/service.go:1048-1074 | completing one part moves its stock, its lots, its draw rows and its frozen consumption by the same need, and nothing else |
| Effects.TakePartsTook | internal/service/service.go:1048-1074 | completing all parts takes each part's need once, whatever the order |
| Invariant.StocktakeNeverLacksLots | internal/service/service.go:589-627 | a total stocktake with a valid count always succeeds: the not-enough-lots error cannot happen in a state that satisfies the invariant |
| Invariant.CountingRefusedIffBelowExcess | internal/service/service.go:635-708 | the negative-stock guard of a lot-by-lot stocktake fires if and only if the counted lots total less than the excess left by earlier revocations; without excess it never fires |
| Invariant.StockInKeepsInv | internal/service/service.go:456-499 | stock-in keeps the invariant |
| Invariant.AdjustStockKeepsInv | internal/service/service.go:589-627 | a total stocktake keeps the invariant |
| Invariant.AdjustInboundsKeepsInv | internal/service/service.go:635-708 | a lot-by-lot stocktake keeps the invariant |
| Invariant.CompletionOrderFacts | internal/service/service.go:945-988 | the completion loop visits every part the batch demands exactly once, and no part outside the table |
| Invariant.CompleteTook | internal/service/service.go:990-1088 | a successful completion has taken exactly the demand of each part, and no demand exceeded its stock |
| Invariant.CompleteKeepsInv | internal/service/service.go:861-1132 | completing a batch keeps the invariant, and the new draw rows of each part sum to the frozen consumption |
| Revocation.RowsReturned | internal/service/service.go:1157-1184 | over all frozen rows the stock gets each row back once; the lots get the draws back and every row but the first a second time as a new lot |
| Revocation.FirstRowReturned | internal/service/service.go:1157-1184 | the first row already restores the draws of the whole batch |
| Revocation.LaterRowsAreExcess | internal/service/service.go:1157-1184 | the rows after the first add exactly the batch's consumption of its later parts |
| Runs.RevokeReturned | internal/service/service.go:1134-1217 | revoking gives each stock its consumption back; the lots get it too, plus once more what was consumed of every part after the batch's first |
| Runs.RevokeCompletedKeepsInv | internal/service/service.go:1134-1217 | revoking a completed batch keeps the invariant, the excess growing by what was given back twice |
| Runs.StepKeepsInv | internal/service/service.go:456-1217 | every ledger transaction keeps the invariant, failed ones included |
| Runs.RunKeepsInv | internal/repository/part_inbound.go:77-84 | in every state any run reaches: lots equal stock plus the revocation excess, no remainder and no stock is negative, and each completed batch's draw rows per part sum to its frozen consumption |
| Runs.EmptyInv | internal/service/service.go:317-339 | an empty ledger satisfies the invariant |
| RoundTrip.StockMatchesLotsIff | internal/service/service.go:1157-1184 | under the invariant every part's stock equals its lots' remainders if and only if no revoked batch had consumed more than one part |
| RoundTrip.ReachableStockMatchesLotsIff | internal/service/service.go:456-1217 | in every state any run from an empty ledger reaches, all stocks equal their lots' remainders if and only if no revoked batch had consumed more than one part |
| RoundTrip.CompleteThenRevoke | internal/service/service.go:861-1217 | completing and revoking restores every stock, every lot and every draw row, and adds exactly one new lot per consumed part after the first |
| RoundTrip.RoundTripExactIff | internal/service/service.go:1157-1184 | the lots come back as they were if and only if the batch consumed at most one part |
| RoundTrip.RestoreUndoesRows | internal/repository/part_inbound.go:189-213 | giving a batch's draws back undoes its takes lot by lot and row by row |
| Projection.CompleteMoves | internal/service/service.go:1048-1074 | completing a batch takes its demand off stock, lots and commitments alike, for every part; the demand never exceeds the stock, so the clamp at zero never acts |
| Projection.NoShortage | internal/service/service.go:1012-1024 | with every projection non-negative, no open batch is refused for a shortage |
| Projection.AnyOrderNeverShort | internal/service/projection.go:60-119 | with every projection non-negative, the open batches can be tried in any order and none ever meets the shortage refusal |
| Projection.CompleteAllKeepsAfter | internal/service/projection.go:125-241 | whatever completions are tried, every part's projection stays what it was |
| Projection.AllCompletedIsProjected | internal/service/projection.go:125-241 | once no batch is open, every stock is exactly the projection made at the start, which therefore was not negative |
| Projection.AddTempGuardIsAfter | internal/service/service.go:1289-1298 | the temporary-part guard is the projection of that part in the state the call would create, and no other part's projection moves |
| Projection.AddTempRefusedIff | internal/service/service.go:1235-1327 | a temporary part is refused for stock if and only if it would make the projection negative |
| Projection.PreviewIsAfterCreation | internal/service/projection.go:125-241 | the projection form's preview of a new batch is the projection after creating it |
| Projection.StepKeepsBomOk | internal/service/service.go:712-797 | in every run all BOM rows stay valid, so completion's BOM check cannot fail on stored rows |
| TraceRecords.StepKeepsTracesOk | internal/service/service.go:1742-1878 | every transaction keeps one record per batch and part, every allocation on a lot of its part, and allocations within the used quantity |
| TraceRecords.RunKeepsTracesOk | internal/service/service.go:1742-1878 | in every state a run reaches there is one record per batch and part, with its allocations on lots of its part and within its used quantity |
| TraceRecords.RecordedWithinLots | internal/service/service.go:1864-1868 | after recording any list of records sharing lots, the open batches' allocations on each named lot total at most its remainder plus what one recording batch had allocated there before, hence at most its remainder when none had |
| TraceRecords.NamedLotBound | internal/service/service.go:1860-1870 | after one record, the open allocations on a lot it names total at most the remainder plus the batch's earlier allocation there |
| TraceRecords.CheckIsTightIff | internal/service/service.go:1864-1868 | every quantity the check accepts keeps the open allocations within the lot if and only if the recording batch had nothing allocated there, or nothing can be accepted |
| TraceRecords.RecordingAgainOverplans | internal/service/service.go:1864-1868 | from a state with the whole lot planned, recording again is accepted and plans twice what the lot holds |
| Refusals.DeductOkIff | internal/repository/part_inbound.go:117-185 | on the ledger's tables a draw succeeds exactly when the part's lots, planned ones up to their plan, give enough |
| Refusals.TakePartsRefusedIff | internal/service/service.go:1048-1074 | the deduction loop is refused exactly when some needed part's lots give less than its need, whatever was deducted before it |
| Refusals.CompletionRefusedIff | internal/service/service.go:1048-1074 | a completion that passes every check is refused for lots exactly when some needed part's planned lots hold back more than its need would leave; otherwise it goes through |
| Plans.RecordedPlan | internal/repository/trace_alloc.go:21-49 | recording a use makes its lots, in the order given, the plan of that batch and part, and leaves every other plan alone |
| Plans.RecordTracesPlans | internal/service/service.go:1742-1878 | after an accepted list each named batch and part has the plan given for it, every other one keeps its own |
| Plans.RunKeepsPlan | internal/repository/trace_alloc.go:122-134 | a plan stays through every run that neither records that use again nor drops it |
| Plans.TakePartDraws | internal/service/service.go:1048-1074 | one part's turn adds, to that part's draws only, the draw along the plan recorded for it |
| Plans.CompletionFollowsPlan | internal/service/service.go:1048-1088 | the draw rows of a completion are, part by part and in order, the draw along the plan recorded for that part |
| Plans.RecordedIsDrawn | internal/repository/trace_alloc.go:122-134 | from the recording to the completion, whatever runs in between and leaves the record alone, a part is drawn along the recorded lots in the recorded order |
| Plans.DrawnInRecordedOrder | internal/repository/part_inbound.go:159-171 | with two lots of 10.00, 3.00 of the second and 5.00 of the first recorded in that order, a need of 6.00 takes 3.00 of each |
| Plans.CompletionChecksIff | internal/service/service.go:887-1046 | a completion passes its checks if and only if the plan is positive, the BOM rows are valid and every needed part has the stock and a recorded use |
| Plans.LastInQueue | internal/repository/part_inbound.go:63-75 | a lot no older than the others goes to the end of its part's queue and of no other |
| Plans.ArrivalOrder | internal/service/service.go:456-499 | lots received one after the other stand in their part's queue in that order, each with the time it arrived |
| Edits.EditSeesEveryChange | internal/service/service.go:349-380 | an edit carrying the version read before a run goes through only if nothing in the run changed the part's row; it leaves the stock, and makes every other edit from the same reading stale |
| Edits.BomEdits | internal/service/service.go:712-808 | adding, updating and removing a BOM row does that and no more, and keeps one row for each part of a product |
| Edits.RunKeepsOneRowEach | internal/service/service.go:712-743 | in every run a product has at most one BOM row for each part |
| Edits.NewRowsAcceptedIff | internal/service/service.go:317-855 | a new part, batch or BOM row is refused exactly when a value is out of its range, what it refers to is missing, or it is there already |
| Edits.SkipDemand | internal/service/service.go:1642-1723 | a skip mark takes exactly the BOM's need of that part away from that batch, temporary parts stay, and taking the mark back restores it |
| Edits.RemovedTempDemand | internal/service/service.go:1329-1378 | removing a temporary part leaves the BOM's need of it and moves no other |
| Edits.TempAcceptedIff | internal/service/service.go:1235-1327 | a temporary part is accepted if and only if its quantity is positive, the batch open, the part known and not in the BOM, and the projection with it not negative |
| Edits.AllocsAcceptedIff | internal/service/service.go:1764-1783 | the planned lots of a record pass if and only if their ids and quantities are positive and no lot comes twice |
| Edits.RequestAcceptedIff | internal/service/service.go:1742-1785 | a list of records passes its check if and only if every record is well formed, plans no more than its use, and no batch and part comes twice |
| Edits.LotsAcceptedIff | internal/service/service.go:1848-1870 | the lot check passes if and only if every planned lot is there, is of the part, and has the planned quantity available |
| Edits.RecordAcceptedIff | internal/service/service.go:1800-1870 | a record is accepted if and only if its batch is open, its part known and not skipped unless temporary, and its lots pass |
| Edits.RecordedUse | internal/repository/trace_alloc.go:21-49 | recording leaves exactly one record of its batch and part, with the given use, and every other as it was |
| Edits.ForgottenUse | internal/repository/trace_alloc.go:182-196 | skipping a part or removing a temporary one forgets its record and its plan, and no other |
| Edits.StatusAcceptedIff | internal/service/service.go:861-1132 | a status change is accepted if and only if the batch is open, the status one of the four, and a completion goes through |
| Edits.RevokeAcceptedIff | internal/service/service.go:1134-1217 | a batch can be revoked once, open or completed, unless it was completed without a recorded consumption |
| Edits.CompletionRefusals | internal/service/service.go:887-1046 | a refused completion failed the first of plan, BOM, stock and records, and lists exactly the parts that are short or unrecorded |
| Edits.BomPartsAscend | internal/service/service.go:966-977 | the parts a completion takes for the BOM come in ascending order, and so do those a refusal lists |
| Edits.CountsAcceptedIff | internal/service/service.go:635-660 | a count passes its check if and only if each lot is named once, by a positive id and a count not negative |
| Edits.RecountWrites | internal/service/service.go:664-688 | each counted lot ends with its count, every other lot keeps what it had |
| Edits.RaisedStock | internal/service/service.go:589-627 | a count above the stock books the difference as one new lot at the time of the count |
| Edits.LoweredOldestFirst | internal/service/service.go:589-627 | a count below the stock empties the oldest lots first: a lot loses something only when every older one of the part is empty |
| Edits.RowGivenBack | internal/service/service.go:1157-1184 | giving one frozen row back returns all draws of the batch to its lots, and what the row has beyond them as a new lot, also when the draws cover only part of it; a row of nothing or of an unknown part gives nothing back |
| Frozen.StepKeepsClosed | internal/service/service.go:861-1880 | no transaction changes the records, plans, temporary or skipped parts or the frozen consumption of a completed or revoked batch; its status can only go from completed to revoked, and its draws go only then |
| Frozen.RunKeepsClosed | internal/service/service.go:861-1880 | the same over every run |
| Occurrences.RevocationLeavesExcess | internal/service/service.go:1157-1184 | a run from an empty ledger: two parts, one batch, completed and revoked, after which part 2 has 16.00 in its lots and 10.00 in stock |
| Occurrences.CountingRefused | internal/service/service.go:684-688 | continuing it, counting both lots of part 2 as empty is refused as a negative stock |
| Occurrences.OverplanningHappens | internal/service/service.go:1864-1868 | a run from an empty ledger in which recording twice plans 20.00 of a lot that holds 10.00 |
| Occurrences.SufficientLotRefused | internal/service/service.go:1048-1074 | a run from an empty ledger after which a batch needing 10.00 of a lot holding 10.00 passes every check and is refused, because 5.00 of it are planned |
| LedgerStore.Ledger.DeductPartInbound | internal/repository/part_inbound.go:117-185 | the two loops over plan and lots change lots and draw rows exactly as the specified draw, and fail exactly when it does |
| LedgerStore.Ledger.DrawPlanned | internal/repository/part_inbound.go:159-171 | the first pass together with the second pass's rest is the specified draw, each planned lot used once |
| LedgerStore.Ledger.DrawUnplanned | internal/repository/part_inbound.go:172-180 | the second pass takes from the lots the plan did not use, oldest first, until nothing is left to take |
| LedgerStore.Ledger.TakeFrom | internal/repository/part_inbound.go:132-157 | one take writes the remainder and the draw row from the snapshot read before the loops |
| LedgerStore.Ledger.RestorePartInboundDraws | internal/repository/part_inbound.go:189-213 | every lot a batch drew from gets its grouped sum back, the batch's draw rows go, and the total is returned |
| LedgerStore.Ledger.StockInPart | internal/service/service.go:456-499 | stock and a new full lot rise together, or nothing changes |
| LedgerStore.Ledger.AdjustStockTotal | internal/service/service.go:589-627 | the counted total replaces the stock and the lots follow by the same difference; an error changes nothing |
| LedgerStore.Ledger.AdjustLots | internal/service/service.go:635-708 | counts are written lot by lot and the stock moves by their total difference; any refusal undoes all |
| LedgerStore.Ledger.BomNeeds | internal/service/service.go:966-977 | the loop over the BOM yields each part's summed need in order of first mention |
| LedgerStore.Ledger.CollectNeeds | internal/service/service.go:945-994 | with the temporary parts added, each part's need is its whole demand |
| LedgerStore.Ledger.Shortages | internal/service/service.go:996-1020 | the shortage list names all parts the stock does not cover, and only those |
| LedgerStore.Ledger.MissingTraces | internal/service/service.go:1028-1046 | the list names all needed parts without a recorded use, and only those |
| LedgerStore.Ledger.TakeOne | internal/service/service.go:1048-1074 | one iteration lowers stock, lots and freezes the consumption, from the stock read before the loop |
| LedgerStore.Ledger.TakeAll | internal/service/service.go:1048-1088 | the whole loop is the specified sequence of takes; the snapshots stay valid because each part comes once |
| LedgerStore.Ledger.CheckBom | internal/service/service.go:892-900 | completion's BOM check holds exactly when every row of the product is valid |
| LedgerStore.Ledger.CompleteBatch | internal/service/service.go:887-1095 | completion refuses in the order of its checks and changes nothing, or takes every need and marks the batch |
| LedgerStore.Ledger.UpdateBatchStatus | internal/service/service.go:861-1132 | a status change follows the specified transaction, with no change on any refusal |
| LedgerStore.Ledger.GiveBack | internal/service/service.go:1157-1184 | one frozen row is given back to stock, all draws are restored, and any gap becomes a new lot |
| LedgerStore.Ledger.RevokeBatch | internal/service/service.go:1134-1217 | revocation follows the specified transaction over all frozen rows, with no change on any refusal |
| LedgerStore.Ledger.DeletePartTrace | internal/repository/trace_alloc.go:182-196 | the record of one batch and part goes together with its allocations, nothing else |
| LedgerStore.Ledger.SkipPart | internal/service/service.go:1642-1691 | a skipped part loses its recorded trace; an edit of a finished batch changes nothing |
| LedgerStore.Ledger.DropTempPart | internal/service/service.go:1329-1378 | removing a temporary part also removes its recorded trace |
| LedgerStore.Ledger.BatchConsumption | internal/service/projection.go:30-43 | the loop's map holds each part's summed BOM need |
| LedgerStore.Ledger.BatchDemand | internal/service/projection.go:86-106 | with temporary parts the map holds each part's demand, the same sum completion takes |
| LedgerStore.Ledger.Commitments | internal/service/projection.go:60-119 | the loops over open batches yield the committed quantity of every part |
| LedgerStore.Ledger.StockProjection | internal/service/projection.go:125-241 | the projected quantity of every listed part is its stock less all open demands and the preview; parts not listed have none |
| LedgerStore.Ledger.PutTempPart | internal/service/service.go:1235-1327 | adding a temporary part follows the specified transaction, with no change on any refusal |
| LedgerStore.Ledger.ReplacePartTrace | internal/repository/trace_alloc.go:21-49 | the deletes and inserts leave exactly the new record and its allocations in order |
| LedgerStore.Ledger.CheckInputs | internal/service/service.go:1742-1785 | the request check reports the first invalid record, or none |
| LedgerStore.Ledger.CheckSteps | internal/service/service.go:1764-1783 | the allocation check reports the first invalid step, or the total |
| LedgerStore.Ledger.CheckLots | internal/service/service.go:1848-1870 | the lot check reports the first lot that is missing, foreign or over-allocated |
| LedgerStore.Ledger.RecordTraceInputs | internal/service/service.go:1742-1878 | recording a list is all or nothing and follows the specified transaction, later records seeing earlier ones |
| Backfill.BackfillBalances | internal/migrate/inbound_remaining.go:103-174 | a part with an unfilled lot ends with none, and its remainders then sum to the larger of its stock and what the lots filled before held, so to its stock if and only if those held no more |
| Backfill.FillValue | internal/migrate/inbound_remaining.go:134-163 | each unfilled lot ends with what the lots before it left of the drain |
| Backfill.FillBounds | internal/migrate/inbound_remaining.go:134-163 | every filled lot ends between zero and its quantity |
| Backfill.OldestDrainedFirst | internal/migrate/inbound_remaining.go:134-163 | a lot keeps something only when every later unfilled lot keeps its whole quantity |
| Backfill.StoppedRunResumes | internal/migrate/inbound_remaining.go:103-174 | a run stopped after any number of lot updates and started again ends the same if and only if it was not stopped between the last update and a surplus lot still to be inserted |
| Backfill.StopLosesSurplus | internal/migrate/inbound_remaining.go:147-156 | one lot of 5.00 with 8.00 in stock: stopped before the surplus, the part keeps 5.00 in its lots for good |
| Backfill.MigrationBalances | internal/migrate/inbound_remaining.go:103-174 | after the whole migration no part has an unfilled lot, and each part that had one balances if and only if its lots filled before held no more than its stock |
| Backfill.SecondRunChangesNothing | internal/migrate/inbound_remaining.go:103-124 | running the whole migration again changes nothing, whatever the stocks are by then |
| Migrated.MigratedInvIff | internal/migrate/inbound_remaining.go:103-174 | the migrated tables meet the ledger's invariant if and only if no completed batch has frozen consumption and each part's stock, not negative, is what its lots end with less its excess |
| Migrated.FreshInvIff | internal/migrate/inbound_remaining.go:103-174 | where nothing was consumed yet: if and only if no stock is negative, parts with a lot to fill had at most their stock in filled ones, and the others had exactly their stock |
| Backfill.Migration.FillPart | internal/migrate/inbound_remaining.go:103-174 | one part's backfill is the specified one |
| Backfill.Migration.FillRows | internal/migrate/inbound_remaining.go:134-163 | the inner loop drains the unfilled lots as specified |
| Backfill.Migration.Run | internal/migrate/inbound_remaining.go:103-174 | the whole migration backfills every part once |
| Sessions.SweepingUnobservable | internal/api/session.go:211-245 | with a clock that never goes back, sweeping at any moments changes no answer of any run |
| Sessions.ApplyKeepsTableOk | internal/api/session.go:68-98 | each user has at most one session, and every session keeps the absolute limit it was issued with |
| Sessions.AdvanceKeepsTruth | internal/api/session.go:68-120 | every session tells the truth about when its token was issued and last used |
| Sessions.RunsAreJustified | internal/api/session.go:60-149 | in every run, swept at any moments, each user has at most one session and every accepted request follows a login within 24 hours that issued its token and a use of the token within 4 hours |
| Sessions.RequestsAcceptedIff | internal/api/session.go:60-149 | in every run with a clock that does not go back, swept at any moments, a request is accepted if and only if its token was issued at most 24 hours before, last used at most 4 hours before, and in between not ended by a logout, a revocation of its device or user, or another login of its user |
| Sessions.SweepDropsUseless | internal/api/session.go:211-222 | sweeping takes away exactly the sessions under which no later request could be accepted |
| Sessions.AcceptedIsRecent | internal/api/session.go:60-120 | an accepted token was issued at most 24 hours ago and last seen at most 4 hours ago |
| Sessions.LoginEndsOldTokensForGood | internal/api/session.go:82-87 | after a user logs in, no earlier token of that user is accepted in any later run that does not issue that very token again |
| Sessions.SessionTable.DeleteWhere | internal/api/session.go:211-222 | the delete loops remove exactly the matching sessions and count them |
| Sessions.SessionTable.IssueSession | internal/api/session.go:68-98 | a login replaces all sessions of its user by the new one |
| Sessions.SessionTable.TouchSession | internal/api/session.go:106-124 | a token is live, dropped or unknown as specified, and a live one says whether its device is due for a check |
| Sessions.SessionTable.SweepSessions | internal/api/session.go:211-222 | sweeping removes exactly the expired sessions |
| Sessions.SessionTable.RevokeDeviceSessions | internal/api/session.go:155-169 | exactly the sessions bound to the device go, none when no device is named |
| Sessions.SessionTable.RevokeUserSessions | internal/api/session.go:197-208 | exactly the user's sessions go |
| Devices.LoginAllowedIff | internal/service/lan.go:106-165 | a login is admitted if and only if the device is not revoked and is the host, or is licensed and is registered or finds a slot free; it then leaves an active row of its kind; otherwise the reason is the first of revoked, no licence, no slot |
| Devices.ChangeAllowedIff | internal/service/lan.go:304-371 | exactly a client's row can be revoked or deleted, and nothing else changes |
| Devices.SeenAgain | internal/repository/lan.go:220-247 | being seen again puts a revoked host back and leaves a revoked client revoked; no other row changes |
| Devices.LoginKeepsLimitIff | internal/service/lan.go:106-165 | from within the limit an admitted login stays within it, except exactly when it came under a stale host row with no slot free |
| Devices.StaleHostExceedsLimit | internal/service/lan.go:65-165 | for any three machines: after the program moved to another host, a client took the one licensed slot and the former host logs in, a run from an empty table ends with two clients under a limit of one |
| Devices.KnownClientAlwaysAdmitted | internal/repository/lan.go:194-218 | a registered client that is not revoked is admitted even when the limit is used up |
| Devices.HostAlwaysAdmitted | internal/service/lan.go:106-143 | the host needs no licence and no slot, and can be neither revoked nor deleted |
| Devices.OnlyDeletingFreesSlots | internal/repository/lan.go:249-270 | revoking frees no slot, deleting a client frees exactly one |
| Devices.RunKeepsLimit | internal/service/lan.go:106-367 | no run of logins, revocations and deletions without a stale-host login exceeds the limit |
| Devices.HostSurvives | internal/service/lan.go:304-367 | the host's row stays an active host row in every run |
| Devices.DeviceTable.SaveDeviceSeen | internal/repository/lan.go:220-247 | update-else-insert leaves one row per fingerprint, and reactivates only a host |
| Devices.DeviceTable.RegisterClientDevice | internal/repository/lan.go:194-218 | registration admits, refuses a revoked device or refuses over the limit as specified |
| Devices.DeviceTable.CheckLogin | internal/service/lan.go:106-165 | the checks come in order: revoked, host, licence, limit |
| Lan.StepKeepsChecked | internal/api/session.go:106-149 | no step of any party breaks the link from sessions and requests in flight to the database checks behind them |
| Lan.RunKeepsChecked | internal/api/session.go:106-149 | under every interleaving each session, request and acceptance stays backed by a recent enough check or by being the host's |
| Lan.AcceptedWasChecked | internal/api/session.go:128-146 | whatever the interleaving, an accepted request is the host's, or a database check less than a minute before it began and no later than its acceptance found its device registered and not revoked |
| Lan.OutWithinAMinute | internal/service/lan.go:185-205 | a device revoked or deleted by any process, and left so, has no request accepted that begins a minute later or more |
| Lan.RunKeepsFence | internal/service/lan.go:304-359 | in every run a fenced device is in the revoked set and no deletion of it is in flight |
| Lan.RevokedOutIff | internal/service/lan.go:304-333 | once a revocation is in the cache, some run without a deletion accepts a request of the device if and only if one of its requests had already passed the revoked set |
| Lan.RevokedStaysOut | internal/service/lan.go:304-333 | over every such run, each new acceptance of the device is by a request that had passed the revoked set before, and no further one gets past it |
| Lan.RevocationSticksIff | internal/service/lan.go:322-353 | a revocation that reaches the cache stays in the revoked set in every run until a deletion begins, if and only if no deletion of the device is in flight; one in flight takes the device out again |
| Lan.DeletionUndoesRevocation | internal/service/lan.go:322-353 | a run from the start in which the cache learns of a revocation and loses it again to a deletion already under way |
| Lan.InFlightRequestSlipsThrough | internal/api/session.go:128-146 | a request with nothing left to check when the revocation reaches the cache is accepted after the revocation is complete and the device's sessions are gone |
| Lan.RevokedRequestAccepted | internal/api/session.go:128-146 | a run from the start, with one device, one login, one request and one revocation, in which that happens |
| Admission.SessionsWereAdmitted | internal/api/session.go:68-149 | under every interleaving a session belongs to a user and a device that logged in when the device was not revoked and was the host, or licensed and registered, or found a slot free; and a request is accepted only for a device that so logged in |
| Ending.SessionEndsIff | internal/api/session.go:68-245 | under every interleaving a session ends exactly at its logout, at the end of its user's or its device's sessions, at another login of its user, or when found expired; from then on, in every run, no request begins under its token |
| Ending.OneSessionPerCheck | internal/api/session.go:68-98 | a login's device check is used up by the session it gives |
| Ending.HostRowStays | internal/service/lan.go:65-82 | once the host is registered its row is an active host row under every interleaving of this process's own steps |
| LanServer.RequestAloneIsRun | internal/api/session.go:106-149 | a request alone is its protocol steps run one after the other |
| LanServer.RequestAloneAcceptedIff | internal/api/session.go:106-149 | a request alone is let through if and only if its session is live, its device is the session's own and not in the revoked set, and was checked less than a minute ago, or is the host, or is an active row |
| LanServer.CheckHoldsForAMinute | internal/api/session.go:128-146 | a check that was due and succeeded holds for a minute: until then the session's requests are let through whatever has become of the row, unless the revoked set holds the device |
| LanServer.RevocationTakesEffect | internal/api/lan.go:246-290 | after a revocation the row says revoked, the cache knows, and exactly the device's sessions are gone |
| LanServer.Server.EnsureHostDevice | internal/service/lan.go:65-82 | registering the host is the protocol's start step |
| LanServer.Server.UserFromRequest | internal/api/session.go:106-149 | a request is let through exactly when its protocol steps, run alone, end in an acceptance; the session table agrees too |
| LanServer.Server.RevokeDevice | internal/service/lan.go:304-333 | the row, then the cache; the host, an unknown and an unnamed device are refused without change |
| LanServer.Server.DeleteDevice | internal/service/lan.go:336-359 | the row, then the cache; the host and an unknown device are refused without change |
| LanServer.Server.ChangeDevice | internal/api/lan.go:246-290 | row, cache and sessions end as the protocol's three administrative steps leave them |
| Outcome.ToldIsMarked | internal/service/operation_outcome.go:12-22 | the client is told exactly what the repository marked, however deep the mark sits, and 400 exactly for a rollback |
| Outcome.FirstMarkIsFound | internal/service/operation_outcome.go:12-22 | the marks read from an error chain are the first of each kind there is anywhere in it |
| Outcome.JoinKeepsMark | internal/repository/sqlite.go:157-160 | joining errors keeps the first mark there is |
| Outcome.MySQLOperation | internal/repository/repository.go:118-171 | committed, in doubt and error agree with what happened to the data, and no transaction stays open on a connection that is not marked unusable |
| Outcome.WithMySQLChecksDisabled | internal/repository/repository.go:118-171 | after the deferred restore a connection that is alive and unmarked has its old settings, and the error carries the true mark |
| Outcome.MySQLWithBulkLoad | internal/repository/repository.go:48-116 | under every fault of every statement: success or applied exactly when committed, rolled back only when the data is as before, unknown exactly when a needed rollback or the commit failed; a pooled connection has its checkout settings and no open transaction |
| Outcome.WithImmediateConn | internal/repository/sqlite.go:176-195 | a failed commit that can still be rolled back is a plain error; otherwise it is marked unknown |
| Outcome.SQLiteWithBulkLoad | internal/repository/sqlite.go:140-161 | success or applied exactly when committed, rolled back only when the data is as before, unknown exactly when in doubt; a connection clean at checkout goes back to the pool clean |
| Outcome.RestoreDatabase | internal/service/restore.go:57-157 | no error or applied means restored, for a dump exactly when one can be taken and the commit went through; rolled back means unchanged, unknown only for a failed file replacement or a commit or rollback in doubt |
| Outcome.ClearDatabase | internal/service/service.go:2547-2580 | for clearing, on both backends: no error or applied means cleared, exactly when the copy was taken and the commit went through; rolled back means unchanged, unknown only for a commit or rollback in doubt |
| Lines.SplitText | internal/service/restore.go:165-167 | splitting a text at newlines undoes joining its lines |
| Lines.BetweenSpaces | internal/service/restore.go:171-173 | trimming takes away the white space around a text and nothing of what is between |
| Dump.ReplayUndoesPrint | internal/service/restore.go:165-213 | replaying a printed dump executes exactly its statements of tables that are not preserved, in order, each without its blank and comment lines, and reports no error |
| Dump.VerbatimIff | internal/service/restore.go:171-174 | a statement is executed word for word if and only if none of its later lines is blank or a comment |
| Dump.BlankLineInValueIsLost | internal/service/restore.go:171-174 | a text value loses a line of white space of any kind, ideographic spaces too, in the statement that is executed |
| Dump.ReplaySucceedsIff | internal/service/restore.go:165-221 | the replay of a printed dump reports no error if and only if the server refuses none of its statements of tables that are not preserved |
| Dump.NameReadBack | internal/service/restore.go:225-264 | the name on a statement's first line, between back quotes or double quotes or bare, is read back as written, and counts as qualified if and only if a period follows it |
| Dump.PeriodIsQualified | internal/service/restore.go:225-243 | a bare name with a period in it is qualified |
| Dump.UnclosedNamesNone | internal/service/restore.go:245-264 | a quote not closed on the line names no table |
| Dump.StartsInsertIff | internal/service/restore.go:175-190 | a line opens a statement if and only if, after white space, it starts with the keyword in any case |
| Dump.EndsIff | internal/service/restore.go:175-207 | a line ends a statement if and only if its last visible character is a semicolon |
| Dump.SkipsIff | internal/service/restore.go:171-174 | a line is passed over if and only if it is white space or, after white space, starts a comment |
| Dump.FeedStatement | internal/service/restore.go:175-207 | one statement over any number of lines is executed once, when its last line ends it |
| Unfinished.QualifiedStopsReplay | internal/service/restore.go:175-213 | a statement naming another schema stops the replay: what came before it has been executed, nothing after it is, and the error says so |
| Unfinished.UnterminatedIsReported | internal/service/restore.go:175-213 | a last statement without its end is reported and not executed, and one of a preserved table is passed over |
| Targets.PrintedServerTarget | internal/service/restore.go:225-264 | a statement whose first line names its table, between back quotes or double quotes or bare, with plain text after it is written by the server to that table, whatever its later lines hold |
| Targets.NamedTarget | internal/service/restore.go:245-264 | in each of the three forms the server's target and the name the replay reads agree |
| Targets.ReplayOfAnyContent | internal/service/restore.go:165-264 | for any content, no executed statement whose first line names its table in one of the three forms is written to a preserved table or another schema |
| Targets.ReplayIsSafeIff | internal/service/restore.go:165-264 | the replay of a printed dump executes no statement that the server writes to a preserved table or another schema if and only if every such statement is caught by its first line |
| Restore.InsertAllRows | internal/service/restore.go:215-221 | replayed statements append to the table the server reads from the whole text and to no other |
| Restore.ClearRows | internal/service/tables.go:59-66 | clearing empties exactly the listed tables |
| Restore.RestoreLeaves | internal/service/restore.go:111-124 | for any table lists, each table ends with its old rows unless cleared, then the wanted statements that the server writes to it |
| Restore.UntouchedIff | internal/service/restore.go:111-124 | a table that is not cleared is untouched by a restore if and only if every statement of the dump that the server would write to it is caught by its first line |
| Restore.RestoreIsExactIff | internal/service/restore.go:111-124 | where every statement names its table on its first line, quoted or bare: a table that is not preserved ends with exactly the dump's rows if and only if it is cleared or was empty; a preserved one that is not cleared, and every other schema, is untouched |
| Restore.HiddenTarget | internal/service/restore.go:245-264 | for every plain name: with the keyword on one line and the name on the next, the server writes to that table |
| Restore.HiddenTableIsWritten | internal/service/restore.go:225-264 | for every plain name and every list of preserved tables, such a statement is replayed and the table gains its row |
| Restore.HiddenSchemaIsWritten | internal/service/restore.go:225-243 | for every schema and table: with the period on the second line, the statement is replayed and a table of that schema gains its row |
| Restore.UsersCanBeWritten | internal/service/tables.go:12-46 | so a dump of two lines adds to the preserved accounts table |
| Restore.SuccessIsRestored | internal/service/restore.go:111-124 | a restore that meets no error, whatever the server would refuse, leaves exactly those tables |
| Restore.Unlisted | internal/service/tables.go:12-46 | the lot, draw, allocation and temporary-part tables are on neither list |
| Restore.UnlistedTablesKeepOldRows | internal/service/tables.go:12-46 | a restore leaves the old rows of those tables in front of the dump's |
| Restore.Transaction.ExecRestoreStatement | internal/service/restore.go:215-221 | a statement is refused without effect or adds its rows to the table the server reads |
| Restore.Transaction.DeleteBusinessTables | internal/service/tables.go:59-66 | the loop clears every listed table or stops at the first refusal |
| Restore.Transaction.ReplayDumpInserts | internal/service/restore.go:165-213 | the line loop executes, counts and fails as specified, for any content and any refused statements |
| Restore.Transaction.ClearAndReplay | internal/service/restore.go:111-124 | clear, then replay; it succeeds exactly when neither meets an error |
| RestoreOutcome.RestoreDump | internal/service/restore.go:57-130 | for any content and every fault: the client is told done exactly when a dump can be taken, nothing was refused and the commit went through, and then finds the tables cleared and every wanted statement executed; told rolled back, it finds them as they were |
| RestoreOutcome.RestorePrinted | internal/service/restore.go:57-130 | for a printed dump, told done every table holds its old rows unless cleared and then its wanted statements; told rolled back nothing changed |
| RestoreOutcome.ClearTables | internal/service/service.go:2547-2580 | told done exactly the listed tables are empty and no other changed; told rolled back nothing changed |
| Inspect.InspectorCutsIff | internal/dbbackup/inspect.go:152-184 | the inspector cuts a printed dump into the statements a replay of all tables executes if and only if no statement holds a blank or comment line |
| Inspect.InspectorCutsAlike | internal/dbbackup/inspect.go:152-184 | on such dumps it sees every statement word for word, and those of tables not preserved are what the replay executes |
| Inspect.QuotesByLine | internal/dbbackup/inspect.go:190-205 | a text ends inside a quote exactly when an odd number of its lines, each read alone, does |
| Inspect.VerdictIsRightIff | internal/dbbackup/inspect.go:152-205 | a statement whose dropped lines do not end it is judged rightly for what the replay executes if and only if the dropped lines leave evenly many quotes open |
| Inspect.CommentChangesVerdict | internal/dbbackup/inspect.go:152-205 | a comment with an apostrophe makes the inspector flag a sound statement, and pass a broken one |
| Inspect.BackwardIsForward | internal/dbbackup/inspect.go:190-205 | an odd run of backslashes before a position is exactly a forward scan in which a backslash escapes the next character |
| Inspect.CountUnescapedQuotes | internal/dbbackup/inspect.go:190-205 | the count is odd exactly when the forward scan ends inside a quote |
| Inspect.CountUnclosedInserts | internal/dbbackup/inspect.go:152-184 | the result is the number of complete statements that end inside a quote |
| Update.StepKeeps | internal/update/update.go:374-414 | every file operation, success or failure, and every crash keeps the last confirmed version as the program or as .old, tasks beginning as guarded |
| Update.ConfirmedVersionKept | internal/update/update.go:374-414 | in every run with tasks beginning as guarded, under any failures and crashes, the last confirmed version is there as the program or as .old |
| Update.GuardIsExact | internal/update/update.go:374-414 | a task may begin if and only if no sequence of failing or succeeding file operations and crashes after it can lose the last confirmed version |
| Update.CalmStep | internal/update/pending.go:125-140 | where confirmations finish and a rollback can at least restore the current program, the guards hold by themselves |
| Update.CalmRunsKeepConfirmed | internal/update/pending.go:76-244 | in every run with updates started from the confirmed version and confirmations that finish, crashes and failures anywhere else never lose the confirmed version |
| Update.InterruptedConfirmLoses | internal/update/pending.go:125-195 | a confirmation cut short after the marker leads two starts later to an offered rollback away from the confirmed version, which then survives as .failed only |
| Update.RetriedUpdateLoses | internal/update/update.go:402-413 | updating again after the new process could not be started removes the confirmed version |
| Update.StrandedConfirmLoses | internal/update/pending.go:228-236 | confirming after a rollback that could neither replace nor restore removes every copy |
| Update.FirstStart | internal/update/update.go:374-414 | the state in which an interrupted confirmation or a failed rollback loses the version is the ordinary first start after an update |
| Update.StartRemovesNothing | internal/update/pending.go:166-195 | a start changes no file but the marker, and that only from absent when there is an .old |
| Update.FinishedConfirm | internal/update/pending.go:125-140 | a finished confirmation leaves the program and neither marker nor copies |
| Update.NoOfferUntilUpdate | internal/update/pending.go:166-195 | after a finished confirmation no start offers a rollback until the next update begins, whatever fails or crashes between |
| Update.UpdateThenRollback | internal/update/pending.go:213-244 | updating, starting and rolling back brings the old program back and keeps the new one as .failed |
| Update.UpdateOutcome | internal/update/update.go:374-414 | whatever of an update fails: the new program is in place if and only if the extraction, the marker and both renamings succeed; otherwise the old one is, unless the renaming back fails too, and then it is the .old copy; with what is left of every other file |
| Update.RollbackOutcome | internal/update/pending.go:213-244 | whatever of a rollback fails: the old program is back if and only if a .failed file, if any, can go and both renamings succeed; otherwise the running one is in place, unless the renaming back fails too; the copy is kept |
| Update.ConfirmOutcome | internal/update/pending.go:125-140 | whatever of a confirmation fails, marker, copy and .failed file each go exactly when their own removal succeeds |
| Update.Installation.WritePending | internal/update/pending.go:76-82 | the marker is written, left, or half-written |
| Update.Installation.PrepareStart | internal/update/pending.go:166-195 | an unmarked copy is marked, and a rollback is offered exactly when a readable marker and a copy were there |
| Update.Installation.ApplyAndRestart | internal/update/update.go:374-414 | the update's file operations in order, with every early return, are the protocol's |
| Update.Installation.ReplaceProgram | internal/update/update.go:397-406 | the program goes to .old and the new one takes its place, and every failure takes the protocol's way back |
| Update.Installation.ConfirmHealthy | internal/update/pending.go:125-140 | the confirmation's removals in order are the protocol's, going on after a failed one |
| Update.Installation.Rollback | internal/update/pending.go:213-244 | the rollback's file operations in order are the protocol's; on success the .old copy is the program and the replaced program is .failed |
| Update.Installation.PutOldBack | internal/update/pending.go:228-243 | the copy becomes the program, or the program moved away is put back |
| Pbkdf2.Pbkdf2 | internal/auth/auth.go:196-225 | the in-place computation is the derived key of section 5.2 of RFC 8018 over the given pseudorandom function, for every salt, iteration count and key length |
| Pbkdf2.FillBlock | internal/auth/auth.go:204-222 | one block of the output, mixed in place, is the exclusive or of U_1 to U_c, and the blocks before it are untouched |
| Pbkdf2.MixRounds | internal/auth/auth.go:210-222 | the rounds after the first mix U_2 to U_c into the block in place |
| Pbkdf2.MixIn | internal/auth/auth.go:214-221 | the slice of the output takes the next U by exclusive or while the buffer follows it |
| Pbkdf2.Int4Value | internal/auth/auth.go:206-209 | the four bytes are the block number's digits to base 256 |
| Pbkdf2.XorBit | internal/auth/auth.go:217-219 | a bit of the result is set if and only if it is set in exactly one of the two bytes |
| Pbkdf2.XorUndone | internal/auth/auth.go:217-219 | mixing the same bytes in twice changes nothing, and the order does not matter |
| Pbkdf2.TwoBlocks | internal/auth/auth.go:196-225 | two iterations and two blocks, written out from the definition of the standard |
| LogRotation.WriteDropsOldest | internal/logging/logging.go:78-103 | a write appends to what is kept, a rotation before it drops exactly the oldest file |
| LogRotation.RestartDropsOldest | internal/logging/logging.go:56-62 | a rotation at a start drops at most the oldest file |
| LogRotation.RestartMakesRoom | internal/logging/logging.go:56-62 | after a start the log is below the limit, and one that was is left as it is |
| LogRotation.KeptIsNewest | internal/logging/logging.go:78-150 | over any writes and restarts, what is kept, read from the oldest file to the newest, is a suffix of everything written |
| LogRotation.RunKeepsFit | internal/logging/logging.go:85-101 | over any writes and restarts, no file is over the limit unless a single write in it alone is |
| LogRotation.RotatesOnlyWhenFull | internal/logging/logging.go:56-101 | over any writes and restarts, a file is rolled only when it had reached the limit or had no room for the next write |
| LogRotation.RotatingWriter.RotateN | internal/logging/logging.go:130-150 | the renames move every file one place on and drop the oldest; a missing or small log is left alone |
| LogRotation.RotatingWriter.Write | internal/logging/logging.go:78-103 | a write rotates first exactly when it would overflow a log that is not empty, and appends |
| LogRotation.RotatingWriter.constructor | internal/logging/logging.go:37-67 | opening rotates a log already at the limit, and limits that are not positive fall back to 5 MiB and 3 |
| LogRotation.RotatingWriter.Open | internal/logging/logging.go:105-117 | opening changes no content and takes the size from the file |

## Left out

- Floating point: the source computes in 64-bit floats and rounds to hundredths; the model is exact, and its tolerances of 0.005 and 1e-9 vanish.
- SQL text, drivers, row locks and the differences between MySQL and SQLite, except where a fault of a statement matters (`Outcome`).
- Optimistic locking under concurrent writers: transactions run one after the other, so the version check of the batch status update cannot fail.
- Foreign-key actions: no delete of a row cascades in the model, and deleting a part is not modelled.
- Audit records, also the one written after a restore or a clearing, notes, suppliers, lot numbers, holders, shortage texts and all other display fields.
- Creating and editing parts, BOM rows, batches and skip marks: single-row writes, modelled on values in `Transactions` and part of every run, with no method of the class.
- Products: a batch's product is only the key of its BOM rows.
- Fields of a temporary part that record how its quantity was derived, and their validation.
- Not-a-number and infinite inputs, and inputs with more than two decimals: they are refused before anything is read.
- The cache of BOM rows inside one projection, and the order in which its rows are shown.
- Batches completed before draw rows existed: the ledger's runs start from tables that meet the invariant, and `Migrated.MigratedInvIff` says which migrated tables those are.
- The standalone form without device binding, bearer-token parsing, the 15-second caches of licence and quota, licence signatures and security events.
- The device fields other than kind and status; whether the licence is present and its limit are inputs of each login.
- Requests that are cancelled, and the time a single step takes: a step of `Lan` is atomic.
- Non-ASCII letters whose upper case is ASCII in the keyword of an INSERT; the SQL mode (a double-quoted name is read as a name, as in ANSI mode), the version numbers of version comments, and a server whose table names ignore case: `Targets` reads a name after the keyword, its schema, blanks and comments, and compares names exactly.
- A statement that names the current schema in front of its table: the model counts every named schema as another one.
- Line ends of two characters: a dump is read after they were replaced.
- Rejected statements other than by their text; what a row violates when old and restored rows collide.
- The connection pool beyond one connection: a connection that is dead is taken to be thrown away by the pool.
- The snapshot file replacement inside a SQLite restore, dump creation, safety copies and their retention: their outcomes are inputs.
- UTF-16 detection, the required-table check and the read window of the inspector.
- Download, signature and archive checks of an update, and the path of the program; a program file is a version number or half-written.
- HMAC-SHA-256 itself: `Pbkdf2` takes any function with a fixed output length; iteration counts below 1 behave as 1, as in the code.
- I/O errors of the log writer, log files with a higher number than the current count left by an older setting, and pruning by age.
- CSV export, statistics, permissions, configuration, the desktop shell and the web front end.
