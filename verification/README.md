# Banana harvest backend — a Dafny model of its bookkeeping

The harvest backend tracks banana harvests:

- A farm is inspected, and an approved inspection opens a **batch**.
- Every batch carries six box counters: allocated, harvested, remaining, actual, dispatched and gatePassRemaining.
- Daily harvest reports pack boxes into the batch. Gate passes dispatch boxes out of it, and the status follows the counters.
- Costs (materials, transport, labour) are rolled up into a per-batch **cost snapshot**, with per-box figures rounded to the cent HALF_UP.
- Inventory stock is reserved for batches. Each vendor has an append-only **ledger** of boxes issued, returned and damaged, and of labour cost and payments.
- Batches are sold. Reports derive vendor balances, per-sale profitability and dashboard totals.
- User accounts go through registration, approval and deactivation.

This project models the services that carry that logic, following the Java source method by method.

- **Entities changed in place are classes.** `Batch`, `BatchCost` (with its hand-written builder), `Farm`, `FarmInspection` and `InspectionRequest` are Dafny classes, and the service methods change their fields.
- **Repositories are sequence fields of one `Store.Database` object.** A row's id is its position. A failed `findById` is passed in as `null`.
- **Money is an integer number of hundredths.** `Money.DivHalfUp` is BigDecimal's `divide(…, 2, HALF_UP)`: nearest, ties away from zero, for every sign. Tax and margin percentages are in hundredths of a percent.
- **Operations that check and then write are methods.** Their `ensures` give the whole new state, stated through pure functions: `ApplyReport`, `ApplyGatePass`, `RollUp`/`SaveFigures`, `Balance` and the ledger entry functions, `SaleTotals`, `WithActive`. Lemmas state the properties of those functions: invariants kept, rounding, round trips and concrete runs.
- **Errors are `Result` values.** An error carries the numbers the Java message names, for example `HarvestLimitExceeded(remaining)` or `InsufficientStock(available, requested)`. Every method that ends in an error leaves the state unchanged, as the surrounding transaction does. The one exception is the rejection branch of `approveInspection`, which the code writes and then throws; see "Left out".
- **Clocks, counts and randomness are parameters.** `now()`, the number of stored rows used for running numbers, and the UUID text arrive as values.

Where the system's design description and its code disagree, the model follows the code:

- After a report, CREATED becomes IN_PROGRESS only when neither counter rule changed the status (the status is tested after those rules), not in addition to them.
- The HARVEST_COMPLETED guard of `updateBatchStatus` has an empty body, so that request is accepted from every status, including DELIVERED and CANCELLED.
- `updateBatchStatus` uses IN_TRANSIT and DELIVERED, but `BatchStatus.java` does not declare them. `Batches.DeclaredInEnum` marks the eight declared constants, and `BatchService.DeliveredSkipsTransit` states the discrepancy.
- The vendor balance shown by the report service does not subtract damaged boxes, while the reconciliation service does (`Reports.ReportPendingIgnoresDamage`).
- The storage round trip (`extractFileName` of `getPublicUrl`) is not guaranteed merely because the project URL does not contain the bucket's public key: the key can straddle the end of the project URL (`Storage.KeyStraddlingBaseBreaksRoundTrip`). The round trip is proved under `Storage.KeyFirstAfterBase`, which holds for every project URL without "/object/" in it (`Storage.PlainBaseUrlIsSafe`).

Behaviour of the code as written that the model states rather than hides:

- Negative report and gate pass sizes pass every check and break `0 <= dispatched <= harvested <= allocated`.
- The transport per-box division has no zero guard.
- A ".mov" link counts as a video but is stored as an IMAGE.
- Labour payments never lower the recomputed pending labour cost, so the overpayment guard lets the same cost be paid twice.
- Damaged-box entries can drive the stored balance negative.
- Payments accumulate with no cap.
- Phone formatting is not idempotent for ten-digit results.

## Model

| member | source | states |
|---|---|---|
| Harvest.NormalizeForReport | src/main/java/com/banana/harvest/service/HarvestService.java:51-59 | dispatched and allocated default to 0; a missing gatePassRemaining becomes harvested − dispatched; it fails exactly when both gatePassRemaining and harvested are null; no other field changes |
| Harvest.ReportStatus | src/main/java/com/banana/harvest/service/HarvestService.java:76-89 | 0 < harvested < allocated gives HARVEST_IN_PROGRESS, harvested ≥ allocated gives HARVEST_COMPLETED, otherwise CREATED becomes IN_PROGRESS and any other status stays; the result is never CREATED |
| Harvest.ApplyReport | src/main/java/com/banana/harvest/service/HarvestService.java:62-89 | refused with the remaining count exactly when packed > remaining; on acceptance harvested grows by packed, remaining = allocated − harvested, gatePassRemaining = harvested − dispatched, actual = harvested, status from ReportStatus, estimate and dates unchanged |
| Harvest.Resum | src/main/java/com/banana/harvest/service/HarvestService.java:122-127 | harvested and actual become the packed total over the batch's reports, remaining = allocated − that total, every other field unchanged |
| Harvest.LaborCostPerBox | src/main/java/com/banana/harvest/service/HarvestService.java:103-106 | fails with a division by zero exactly when no boxes were packed |
| Harvest.LaborCostPerBoxRounds | src/main/java/com/banana/harvest/service/HarvestService.java:104-106 | a successful labour per-box figure is labour cost / boxes packed rounded HALF_UP |
| Harvest.CheckReport | src/main/java/com/banana/harvest/service/HarvestService.java:62-106 | a report passes exactly when ApplyReport accepts it and, when it carries a positive labour cost, the packed count is not zero; the counter error comes first |
| Harvest.LaborRows | src/main/java/com/banana/harvest/service/HarvestService.java:103-120 | one PENDING, unpaid labour row carrying the report, batch, amount and rounded per-box cost when the labour cost is present and positive, none otherwise |
| Harvest.NormalizeForDispatch | src/main/java/com/banana/harvest/service/HarvestService.java:212-224 | harvested falls back to actual (or 0), dispatched and allocated to 0, gatePassRemaining to harvested − dispatched; other fields unchanged |
| Harvest.GatePassStatus | src/main/java/com/banana/harvest/service/HarvestService.java:237-249 | 0 < dispatched < harvested gives DISPATCH_IN_PROGRESS; dispatched ≥ harvested gives DISPATCH_COMPLETED when harvested ≥ allocated and HARVEST_IN_PROGRESS otherwise; else the status stays |
| Harvest.ApplyGatePass | src/main/java/com/banana/harvest/service/HarvestService.java:212-249 | refused with the available count exactly when total > gatePassRemaining (after normalisation); on acceptance dispatched grows by total, gatePassRemaining = harvested − dispatched, status from GatePassStatus, nothing else changes |
| Codes.FormatDate | src/main/java/com/banana/harvest/service/FarmService.java:370 | eight digits whose first four, next two and last two read back as the year, month and day |
| Codes.FormatDateInjective | src/main/java/com/banana/harvest/service/FarmService.java:370 | different dates never format alike |
| Codes.SequenceCodeParts | src/main/java/com/banana/harvest/service/FarmService.java:369-373 | the prefix, the date as yyyyMMdd whose digits read back as year, month and day, "-", then digits reading back as count + 1, exactly the given width long unless the number needs more |
| Codes.SequenceCodeInjective | src/main/java/com/banana/harvest/service/FarmService.java:369-373 | different counts give different codes for the same prefix, date and width |
| Harvest.GatePassNoParts | src/main/java/com/banana/harvest/service/HarvestService.java:412-416 | "GP-", the date as yyyyMMdd (its digits read back as year, month and day), "-", then the stored count + 1 padded to exactly four digits, more only when it needs more |
| Harvest.Received | src/main/java/com/banana/harvest/service/HarvestService.java:288-290 | receipt sets received boxes, time and receiver and nothing else on the gate pass |
| Harvest.TransportCostPerBox | src/main/java/com/banana/harvest/service/HarvestService.java:167-172 | fails with a division by zero exactly when the cost box count (actual if positive, else estimate) is 0 |
| Harvest.TransportCostPerBoxRounds | src/main/java/com/banana/harvest/service/HarvestService.java:167-172 | a successful transport per-box figure is the cost over the cost box count rounded HALF_UP |
| Harvest.RollUpSpec | src/main/java/com/banana/harvest/service/HarvestService.java:379-407 | the four totals pass through, total = material + outward + labour + inward, and each per-box figure is its total / box count rounded HALF_UP, or 0 when the box count is not positive |
| Harvest.SaveFigures | src/main/java/com/banana/harvest/service/HarvestService.java:359-409 | the batch's existing snapshot takes the new figures and time and keeps its id, batch and update time, all other rows unchanged; without one a new snapshot is appended under the next id |
| Harvest.SetFigures | src/main/java/com/banana/harvest/service/HarvestService.java:389-406 | the ten setter calls leave the snapshot with exactly the new figures and everything else as before |
| Harvest.RecalculateBatchCosts | src/main/java/com/banana/harvest/service/HarvestService.java:359-410 | the snapshot table becomes SaveFigures of the rolled-up figures of the batch's current allocations, transport and labour costs |
| Harvest.FillReportNulls | src/main/java/com/banana/harvest/service/HarvestService.java:51-59 | the batch's fields become NormalizeForReport of their old values |
| Harvest.WriteReportCounters | src/main/java/com/banana/harvest/service/HarvestService.java:69-89 | the batch's fields become ApplyReport of their old values |
| Harvest.WriteTotals | src/main/java/com/banana/harvest/service/HarvestService.java:122-127 | the batch's fields become Resum of their old values |
| Harvest.CreateDailyReport | src/main/java/com/banana/harvest/service/HarvestService.java:40-138 | null batch, unknown user or a failed CheckReport give that error with nothing changed; on success the report and its labour rows are appended, the batch is ApplyReport then Resum over the stored reports, and the costs are re-saved |
| Harvest.AddTransportCost | src/main/java/com/banana/harvest/service/HarvestService.java:154-198 | null batch, unknown user or a zero box count give that error with nothing changed; otherwise the cost row with its per-box share is appended and the costs re-saved |
| Harvest.FillDispatchNulls | src/main/java/com/banana/harvest/service/HarvestService.java:212-224 | the batch's fields become NormalizeForDispatch of their old values |
| Harvest.WriteDispatchCounters | src/main/java/com/banana/harvest/service/HarvestService.java:233-249 | the batch's fields become ApplyGatePass of their old values |
| Harvest.CreateGatePass | src/main/java/com/banana/harvest/service/HarvestService.java:200-271 | null batch, unknown user or a refused ApplyGatePass give that error with nothing changed; otherwise the batch is ApplyGatePass of its old state and a gate pass numbered by GatePassNo is appended |
| Harvest.ReceiveGatePass | src/main/java/com/banana/harvest/service/HarvestService.java:273-302 | unknown gate pass or receiver is an error with nothing changed; otherwise only that gate pass is replaced by its Received form, and no batch changes |
| HarvestLemmas.ReportKeepsConsistent | src/main/java/com/banana/harvest/service/HarvestService.java:62-74 | an accepted non-negative report keeps 0 ≤ dispatched ≤ harvested ≤ allocated and the derived counters in step |
| HarvestLemmas.NegativeReportBreaksInvariant | src/main/java/com/banana/harvest/service/HarvestService.java:62-74 | a report of −1 boxes is accepted and leaves harvested below dispatched |
| HarvestLemmas.GatePassKeepsConsistent | src/main/java/com/banana/harvest/service/HarvestService.java:227-235 | an accepted non-negative gate pass keeps the counter invariant |
| HarvestLemmas.NegativeGatePassBreaksInvariant | src/main/java/com/banana/harvest/service/HarvestService.java:227-235 | a gate pass of −1 boxes is accepted and drives dispatched below zero |
| HarvestLemmas.ResumMatchesIncrement | src/main/java/com/banana/harvest/service/HarvestService.java:122-127 | when harvested already equals the stored reports' total, the re-read after saving the report gives exactly the incremented counters |
| HarvestLemmas.DailyReportKeepsConsistent | src/main/java/com/banana/harvest/service/HarvestService.java:62-127 | the batch after a whole successful report (increment then re-read) keeps the counter invariant |
| HarvestLemmas.ResumCanLeaveGatePassStale | src/main/java/com/banana/harvest/service/HarvestService.java:122-127 | with a drifted harvested count the re-read leaves gatePassRemaining out of step with harvested − dispatched |
| HarvestLemmas.FullHarvestCompletes | src/main/java/com/banana/harvest/service/HarvestService.java:62-89 | packing all remaining boxes is accepted, completes the harvest and leaves nothing remaining |
| HarvestLemmas.ReportOnCounters | src/main/java/com/banana/harvest/service/HarvestService.java:62-89 | on consistent counters a report of up to allocated − harvested gives the incremented counters, a larger one is refused naming allocated − harvested |
| HarvestLemmas.GatePassOnCounters | src/main/java/com/banana/harvest/service/HarvestService.java:227-249 | on consistent counters a gate pass of up to harvested − dispatched gives the incremented counters, a larger one is refused naming harvested − dispatched |
| HarvestLemmas.EndToEndScenario | src/main/java/com/banana/harvest/service/HarvestService.java:62-249 | example: 100 boxes: 60 packed, 41 refused naming 40, 40 packed completes, a gate pass of 101 refused naming 100, one of 100 completes the dispatch |
| HarvestLemmas.DispatchCatchUpScenario | src/main/java/com/banana/harvest/service/HarvestService.java:237-249 | example: dispatching part of a partial harvest is DISPATCH_IN_PROGRESS; catching up returns to HARVEST_IN_PROGRESS |
| HarvestLemmas.CostScenario | src/main/java/com/banana/harvest/service/HarvestService.java:379-407 | example: 100.00 material, 100.00 outward and 300.00 labour over 100 boxes give 1.00, 1.00, 3.00 and 5.00 per box |
| HarvestLemmas.RollUpRoundsTieUp | src/main/java/com/banana/harvest/service/HarvestService.java:389-392 | example: 1.00 over 8 boxes rounds 0.125 up to 0.13 |
| HarvestLemmas.TransportPerBoxUnguarded | src/main/java/com/banana/harvest/service/HarvestService.java:167-172 | with a zero box count the roll-up reports 0 per box but the transport division fails |
| HarvestLemmas.FindCostRowAfterSave | src/main/java/com/banana/harvest/service/HarvestService.java:360-361 | after a save the batch's snapshot is found at its old position, or at the appended one |
| HarvestLemmas.RecalculateIdempotent | src/main/java/com/banana/harvest/service/HarvestService.java:359-410 | recalculating twice with the same figures equals one recalculation at the later time |
| HarvestLemmas.GatePassNoDistinct | src/main/java/com/banana/harvest/service/HarvestService.java:412-416 | the same day with different counts gives different gate pass numbers |
| HarvestLemmas.SumReceivedAfterReceive | src/main/java/com/banana/harvest/repository/GatePassRepository.java:22-23 | receiving a gate pass replaces its share of its batch's received total by the received count and moves no other batch's total |
| Batches.Batch.Build | src/main/java/com/banana/harvest/entity/Batch.java:45-81 | status defaults to CREATED and each counter to 0 when its builder setter is not called; estimate and code as given; dates unset |
| BatchCosts.BatchCost.constructor | src/main/java/com/banana/harvest/entity/BatchCost.java:20-77 | every field is taken from the given row |
| BatchCosts.BatchCost.SetId | src/main/java/com/banana/harvest/entity/BatchCost.java:176-178 | only the id changes |
| BatchCosts.BatchCost.SetBatch | src/main/java/com/banana/harvest/entity/BatchCost.java:184-186 | only the batch changes |
| BatchCosts.BatchCost.SetMaterialCostTotal | src/main/java/com/banana/harvest/entity/BatchCost.java:192-194 | only materialCostTotal changes |
| BatchCosts.BatchCost.SetMaterialCostPerBox | src/main/java/com/banana/harvest/entity/BatchCost.java:200-202 | only materialCostPerBox changes |
| BatchCosts.BatchCost.SetOutwardTransportCost | src/main/java/com/banana/harvest/entity/BatchCost.java:208-210 | only outwardTransportCost changes |
| BatchCosts.BatchCost.SetOutwardTransportPerBox | src/main/java/com/banana/harvest/entity/BatchCost.java:216-218 | only outwardTransportPerBox changes |
| BatchCosts.BatchCost.SetLaborCostTotal | src/main/java/com/banana/harvest/entity/BatchCost.java:224-226 | only laborCostTotal changes |
| BatchCosts.BatchCost.SetLaborCostPerBox | src/main/java/com/banana/harvest/entity/BatchCost.java:232-234 | only laborCostPerBox changes |
| BatchCosts.BatchCost.SetInwardTransportCost | src/main/java/com/banana/harvest/entity/BatchCost.java:240-242 | only inwardTransportCost changes |
| BatchCosts.BatchCost.SetInwardTransportPerBox | src/main/java/com/banana/harvest/entity/BatchCost.java:248-250 | only inwardTransportPerBox changes |
| BatchCosts.BatchCost.SetTotalCost | src/main/java/com/banana/harvest/entity/BatchCost.java:256-258 | only totalCost changes |
| BatchCosts.BatchCost.SetFinalCostPerBox | src/main/java/com/banana/harvest/entity/BatchCost.java:264-266 | only finalCostPerBox changes |
| BatchCosts.BatchCost.SetCalculatedAt | src/main/java/com/banana/harvest/entity/BatchCost.java:272-274 | only calculatedAt changes |
| BatchCosts.BatchCost.SetUpdatedAt | src/main/java/com/banana/harvest/entity/BatchCost.java:280-282 | only updatedAt changes |
| BatchCosts.BatchCostBuilder.constructor | src/main/java/com/banana/harvest/entity/BatchCost.java:85-97 | a new builder has no id, batch or time and all ten amounts zero |
| BatchCosts.BatchCostBuilder.Id | src/main/java/com/banana/harvest/entity/BatchCost.java:99-102 | only the builder's id changes |
| BatchCosts.BatchCostBuilder.Batch | src/main/java/com/banana/harvest/entity/BatchCost.java:104-107 | only the builder's batch changes |
| BatchCosts.BatchCostBuilder.MaterialCostTotal | src/main/java/com/banana/harvest/entity/BatchCost.java:109-112 | only the builder's materialCostTotal changes |
| BatchCosts.BatchCostBuilder.MaterialCostPerBox | src/main/java/com/banana/harvest/entity/BatchCost.java:114-117 | only the builder's materialCostPerBox changes |
| BatchCosts.BatchCostBuilder.OutwardTransportCost | src/main/java/com/banana/harvest/entity/BatchCost.java:119-122 | only the builder's outwardTransportCost changes |
| BatchCosts.BatchCostBuilder.OutwardTransportPerBox | src/main/java/com/banana/harvest/entity/BatchCost.java:124-127 | only the builder's outwardTransportPerBox changes |
| BatchCosts.BatchCostBuilder.LaborCostTotal | src/main/java/com/banana/harvest/entity/BatchCost.java:129-132 | only the builder's laborCostTotal changes |
| BatchCosts.BatchCostBuilder.LaborCostPerBox | src/main/java/com/banana/harvest/entity/BatchCost.java:134-137 | only the builder's laborCostPerBox changes |
| BatchCosts.BatchCostBuilder.InwardTransportCost | src/main/java/com/banana/harvest/entity/BatchCost.java:139-142 | only the builder's inwardTransportCost changes |
| BatchCosts.BatchCostBuilder.InwardTransportPerBox | src/main/java/com/banana/harvest/entity/BatchCost.java:144-147 | only the builder's inwardTransportPerBox changes |
| BatchCosts.BatchCostBuilder.TotalCost | src/main/java/com/banana/harvest/entity/BatchCost.java:149-152 | only the builder's totalCost changes |
| BatchCosts.BatchCostBuilder.FinalCostPerBox | src/main/java/com/banana/harvest/entity/BatchCost.java:154-157 | only the builder's finalCostPerBox changes |
| BatchCosts.BatchCostBuilder.CalculatedAt | src/main/java/com/banana/harvest/entity/BatchCost.java:159-162 | only the builder's calculatedAt changes |
| BatchCosts.BatchCostBuilder.Build | src/main/java/com/banana/harvest/entity/BatchCost.java:164-168 | a fresh snapshot with each builder field in the field of the same name and updatedAt unset |
| BatchCosts.NewForBatch | src/main/java/com/banana/harvest/service/HarvestService.java:360-361 | the snapshot a batch without one gets: its batch set, no id, all ten amounts zero, neither time set |
| BatchService.OwnershipCheck | src/main/java/com/banana/harvest/service/BatchService.java:53-59 | refused exactly when the caller is a VENDOR who is not the batch's vendor |
| BatchService.TransitionCheck | src/main/java/com/banana/harvest/service/BatchService.java:65-88 | IN_TRANSIT is refused unless from DISPATCH_COMPLETED, DELIVERED unless from IN_TRANSIT or DISPATCH_COMPLETED; every other request passes |
| BatchService.StatusUpdateCheck | src/main/java/com/banana/harvest/service/BatchService.java:53-88 | ownership is checked first and then the transition; it passes exactly when both pass |
| BatchService.StatusUpdated | src/main/java/com/banana/harvest/service/BatchService.java:90-95 | the status is exactly the requested one; startDate is set to today only for HARVEST_IN_PROGRESS when unset and never overwritten; nothing else changes |
| BatchService.ToResponse | src/main/java/com/banana/harvest/service/BatchService.java:104-132 | the stored fields are copied except actual boxes, which is the packed total over the reports |
| BatchService.ResponseIgnoresStoredActual | src/main/java/com/banana/harvest/service/BatchService.java:106-125 | batches differing only in the stored actual count give the same response |
| BatchService.UpdateBatchStatus | src/main/java/com/banana/harvest/service/BatchService.java:41-102 | null batch, unknown user or a failed check give that error with the batch unchanged; otherwise the batch becomes StatusUpdated and the response reflects it |
| BatchService.StatusUpdateKeepsConsistent | src/main/java/com/banana/harvest/service/BatchService.java:90-95 | a status update moves no counter, so the counter invariant is kept |
| BatchService.HarvestCompletedFromAnyStatus | src/main/java/com/banana/harvest/service/BatchService.java:65-74 | a HARVEST_COMPLETED request passes the transition check from every status |
| BatchService.DeliveredSkipsTransit | src/main/java/com/banana/harvest/service/BatchService.java:77-88 | DELIVERED is reachable straight from DISPATCH_COMPLETED, and neither IN_TRANSIT nor DELIVERED is a declared enum constant |
| FarmService.CountsPartition | src/main/java/com/banana/harvest/service/FarmService.java:140-150 | every link is counted exactly once, as a photo or a video |
| FarmService.NoVideosAllPhotos | src/main/java/com/banana/harvest/service/FarmService.java:140-150 | links that are none of them videos all count as photos |
| FarmService.CountMedia | src/main/java/com/banana/harvest/service/FarmService.java:140-150 | the loop's counts are the number of ".mp4"/".mov" links and of all other links, 0 and 0 for a missing list |
| FarmService.MediaCheck | src/main/java/com/banana/harvest/service/FarmService.java:140-152 | a missing link list fails with 0 photos; otherwise the check passes exactly when the photo count of the links is between 2 and 5 |
| FarmService.PhotoType | src/main/java/com/banana/harvest/service/FarmService.java:190 | "VIDEO" exactly for ".mp4" links, "IMAGE" otherwise |
| FarmService.MovCountedAsVideoStoredAsImage | src/main/java/com/banana/harvest/service/FarmService.java:143-190 | a ".mov" link is counted as a video but stored as IMAGE |
| FarmService.PhotoRows | src/main/java/com/banana/harvest/service/FarmService.java:185-195 | one row per link, in order, with the inspection, link, its photo type and the uploader |
| FarmService.SavePhotos | src/main/java/com/banana/harvest/service/FarmService.java:185-195 | the loop appends exactly PhotoRows of the links, none for a missing list |
| FarmService.LinkRequest | src/main/java/com/banana/harvest/service/FarmService.java:169-180 | a given request id is recorded on the inspection and an existing request becomes COMPLETED at now; otherwise nothing changes |
| FarmService.CreateInspection | src/main/java/com/banana/harvest/service/FarmService.java:113-204 | null farm, unknown vendor or a failed media check give that error with nothing changed; otherwise the farm becomes INSPECTION_PENDING and keeps its name and location, a PENDING inspection is stored, the request linked and the photo rows saved, and no other table of the store changes |
| FarmService.BatchCodeParts | src/main/java/com/banana/harvest/service/FarmService.java:369-373 | "BATCH-", the date as yyyyMMdd (its digits read back as year, month and day), "-", then the batch count + 1 padded to exactly four digits, more only when it needs more |
| FarmService.BatchCodesDistinct | src/main/java/com/banana/harvest/service/FarmService.java:369-373 | different batch counts give different codes on the same day |
| FarmService.ApprovedBatch | src/main/java/com/banana/harvest/service/FarmService.java:234-248 | CREATED; estimated = allocated = remaining = the inspection's estimate; harvested = dispatched = gatePassRemaining = 0; started today |
| FarmService.ApprovedBatchConsistent | src/main/java/com/banana/harvest/service/FarmService.java:234-248 | the new batch meets the counter invariant exactly when the estimate is not negative |
| FarmService.Decided | src/main/java/com/banana/harvest/service/FarmService.java:217-264 | APPROVED or REJECTED with the approver and time, and the reason recorded only on rejection |
| FarmService.RecordDecision | src/main/java/com/banana/harvest/service/FarmService.java:217-269 | the inspection becomes Decided and the farm READY_FOR_HARVEST on approval or INSPECTION_REJECTED on rejection |
| FarmService.ApproveInspection | src/main/java/com/banana/harvest/service/FarmService.java:206-279 | null inspection or unknown approver is an error with nothing changed; approval records the decision and appends ApprovedBatch under BatchCode; rejection records it, stores no batch and returns an error carrying the reason; either way the farm keeps its name and location |
| Farms.Farm.constructor | src/main/java/com/banana/harvest/entity/Farm.java:54-56 | a new farm is ACTIVE |
| Farms.FarmInspection.constructor | src/main/java/com/banana/harvest/entity/FarmInspection.java:58-70 | a new inspection is PENDING, unlinked and without approval |
| Farms.InspectionRequest.constructor | src/main/java/com/banana/harvest/entity/InspectionRequest.java:45-53 | a new request is PENDING and not completed |
| Inventory.RestockKeepsBalance | src/main/java/com/banana/harvest/service/InventoryService.java:78-80 | adding q keeps total = available + reserved, raises total and available by q, leaves reserved |
| Inventory.ReserveKeepsBalance | src/main/java/com/banana/harvest/service/InventoryService.java:103-105 | reserving q keeps the invariant and the total, moving q from available to reserved |
| Inventory.UpdateKeepsAllBalanced | src/main/java/com/banana/harvest/service/InventoryService.java:103-105 | replacing one balanced stock row keeps every row balanced |
| Inventory.GuardedReservation | src/main/java/com/banana/harvest/service/InventoryService.java:97-105 | past the guard a non-negative reservation leaves available ≥ 0; a negative one passes the guard and shrinks reserved |
| Inventory.AvailableStock | src/main/java/com/banana/harvest/service/InventoryService.java:135-140 | the item's stock row's available quantity, 0 with no row |
| Inventory.FindStockAfterUpdate | src/main/java/com/banana/harvest/repository/InventoryStockRepository.java:15 | rewriting the item's own row keeps it the row found for the item |
| Inventory.AllocationLowersAvailable | src/main/java/com/banana/harvest/service/InventoryService.java:103-105 | an allocation of q lowers the available stock later read by exactly q |
| Inventory.CreateItem | src/main/java/com/banana/harvest/service/InventoryService.java:41-68 | a taken code is refused with nothing stored; otherwise an active item and its stock row with total = available = reserved = 0 are appended |
| Inventory.AddStock | src/main/java/com/banana/harvest/service/InventoryService.java:70-81 | unknown item or stock row is an error; otherwise only that row is restocked by q |
| Inventory.IssueRows | src/main/java/com/banana/harvest/service/InventoryService.java:118-127 | one BOX_ISSUED ledger entry with the same quantity for a BOX item, none otherwise |
| Inventory.AllocationCheck | src/main/java/com/banana/harvest/service/InventoryService.java:83-100 | the lookups in order, then refused with available and requested exactly when available < requested |
| Inventory.AllocateInventory | src/main/java/com/banana/harvest/service/InventoryService.java:83-128 | a failed check changes nothing; otherwise the stock row reserves q, the allocation is appended and IssueRows appended to the ledger |
| Reconciliation.VendorEntries | src/main/java/com/banana/harvest/repository/VendorLedgerRepository.java:18 | the vendor's entries in ledger order, and only them |
| Reconciliation.SumDamagedIsLedgerSum | src/main/java/com/banana/harvest/service/InventoryReconciliationService.java:269-276 | the damaged total over the vendor's entries is the sum of BOX_DAMAGED quantities, nulls as 0 |
| Reconciliation.Balance | src/main/java/com/banana/harvest/service/InventoryReconciliationService.java:181-203 | issued, returned and damaged totals (0 with none), pending = issued − returned − damaged, pending labour = sum of LABOR_COST amounts |
| Reconciliation.BalanceSnoc | src/main/java/com/banana/harvest/service/InventoryReconciliationService.java:181-203 | appending an entry moves only its own vendor's balance, by the entry's box and labour deltas |
| Reconciliation.BoxEntriesRecordCurrentBalance | src/main/java/com/banana/harvest/service/InventoryReconciliationService.java:47-116 | issue, return and damaged entries store the pending count the ledger gives once they are appended |
| Reconciliation.LaborCostRecordsCurrentBalance | src/main/java/com/banana/harvest/service/InventoryReconciliationService.java:129-140 | a labour cost entry stores the recomputed pending labour cost after it |
| Reconciliation.PaymentsNeverLowerPending | src/main/java/com/banana/harvest/service/InventoryReconciliationService.java:163-173 | a payment leaves the recomputed pending labour cost unchanged, so its stored balance disagrees for a non-zero amount |
| Reconciliation.RepeatedPaymentPassesGuard | src/main/java/com/banana/harvest/service/InventoryReconciliationService.java:155-163 | after paying the whole pending cost, the same payment passes the overpayment guard again |
| Reconciliation.DamagedBalanceCanGoNegative | src/main/java/com/banana/harvest/service/InventoryReconciliationService.java:105-106 | a damaged entry on an empty ledger stores a balance of −1 |
| Reconciliation.RecordBoxIssuance | src/main/java/com/banana/harvest/service/InventoryReconciliationService.java:36-62 | unknown vendor is an error; otherwise the issue entry with balance = pending + quantity is appended with no check |
| Reconciliation.RecordBoxReturn | src/main/java/com/banana/harvest/service/InventoryReconciliationService.java:67-95 | refused with both counts exactly when quantity > pending; otherwise the return with balance = pending − quantity is appended |
| Reconciliation.RecordDamagedBoxes | src/main/java/com/banana/harvest/service/InventoryReconciliationService.java:100-119 | unknown vendor is an error; otherwise the damaged entry is appended with no check |
| Reconciliation.RecordLaborCost | src/main/java/com/banana/harvest/service/InventoryReconciliationService.java:124-143 | unknown vendor is an error; otherwise the LABOR_COST entry with balance = pending labour + amount is appended |
| Reconciliation.RecordLaborPayment | src/main/java/com/banana/harvest/service/InventoryReconciliationService.java:148-176 | refused with both amounts exactly when amount > pending labour cost; otherwise the payment with balance = pending − amount is appended |
| Reconciliation.ReconcileBatchInventory | src/main/java/com/banana/harvest/service/InventoryReconciliationService.java:232-267 | with BOX allocations − received − wasted ≤ 0 nothing is recorded; otherwise a return of the received count, then damaged boxes when wasted > 0, with a refused return recording nothing |
| Sales.SaleTotalsMeaning | src/main/java/com/banana/harvest/service/SalesService.java:63-72 | total = price × boxes; without a positive percentage tax is 0 and grand = total; otherwise tax is total × pct rounded HALF_UP to the cent and grand = total + tax |
| Sales.TaxExamples | src/main/java/com/banana/harvest/service/SalesService.java:65-72 | example: 18% of 1,000.00 is 180.00; 18% of 0.05 rounds up to 0.01 |
| Sales.InvoiceNumberParts | src/main/java/com/banana/harvest/service/SalesService.java:147-151 | "INV-", the date as yyyyMMdd (its digits read back as year, month and day), "-", then the sale count + 1 padded to exactly five digits, more only when it needs more |
| Sales.SaleCheck | src/main/java/com/banana/harvest/service/SalesService.java:40-60 | in order: batch found, status COMPLETED, no sale yet, boxes ≤ actual, user found; passes exactly when all hold |
| Sales.CreateSale | src/main/java/com/banana/harvest/service/SalesService.java:38-97 | a failed check stores nothing; otherwise a PENDING, unpaid sale with its totals, exchange rate 1 by default and the next invoice number is appended |
| Sales.SecondSaleRefused | src/main/java/com/banana/harvest/service/SalesService.java:49-52 | once a batch has a sale, a further sale of it is refused |
| Sales.PaymentsAccumulate | src/main/java/com/banana/harvest/service/SalesService.java:138-142 | two payments add both amounts, with no cap at the grand total |
| Sales.UpdatePaymentStatus | src/main/java/com/banana/harvest/service/SalesService.java:133-145 | unknown sale or status name is an error with nothing changed; otherwise only that sale's status and paid amount (plus a given amount) change |
| Reports.VendorBalanceReport | src/main/java/com/banana/harvest/service/ReportService.java:73-91 | issued and returned totals, pending = issued − returned, and the PENDING labour rows on the vendor's batches |
| Reports.ReportPendingIgnoresDamage | src/main/java/com/banana/harvest/service/ReportService.java:75-88 | the report's pending boxes exceed the reconciliation's by exactly the damaged boxes |
| Reports.DamageInvisibleToReport | src/main/java/com/banana/harvest/service/ReportService.java:75-88 | a damaged entry lowers the reconciliation's pending count by its quantity and leaves the report's unchanged |
| Reports.MarginMeaning | src/main/java/com/banana/harvest/service/ReportService.java:106-108 | 0 without positive revenue; otherwise net × 100 / revenue rounded HALF_UP to two decimals; a loss mirrors the equal profit |
| Reports.MarginExamples | src/main/java/com/banana/harvest/service/ReportService.java:106-108 | example: −0.005 on 1.00 of revenue is −0.50%; −1/3 of revenue is −33.33% |
| Reports.Profitability | src/main/java/com/banana/harvest/service/ReportService.java:93-125 | one line per sale, in order, each that sale's line |
| Reports.ProfitLinesTieUp | src/main/java/com/banana/harvest/service/ReportService.java:99-108 | cost = cost per box × boxes, revenue = grand total, profit + cost = revenue; cost per box is the snapshot's final figure, or 0 and all profit with no snapshot |
| Reports.CountStatus | src/main/java/com/banana/harvest/repository/BatchRepository.java:30-31 | a count of batches never above their number |
| Reports.Dashboard | src/main/java/com/banana/harvest/service/ReportService.java:31-64 | batch count, IN_PROGRESS and COMPLETED counts (together never above the batch count), stock, filled boxes, revenue, and profit = revenue − total of cost snapshots |
| Reports.EmptyDashboard | src/main/java/com/banana/harvest/service/ReportService.java:51-63 | with nothing stored every figure but the farm count is 0 |
| Reports.StatusCountsWithinTotal | src/main/java/com/banana/harvest/repository/BatchRepository.java:30-34 | the counts of two different statuses add up to at most the number of batches |
| Reports.NullActualAddsNothing | src/main/java/com/banana/harvest/repository/BatchRepository.java:36-37 | a batch that is not COMPLETED, or whose actual count is null, adds nothing to the filled boxes |
| Reports.NoCountedBatchNoFilledBoxes | src/main/java/com/banana/harvest/repository/BatchRepository.java:36-37 | when no COMPLETED batch has an actual count, the filled boxes are reported as 0 |
| Reports.SumGrandTotalSnoc | src/main/java/com/banana/harvest/repository/SaleRepository.java:30-31 | a stored sale adds its grand total to the revenue sum |
| Reports.SumTotalCostsUpdate | src/main/java/com/banana/harvest/repository/BatchCostRepository.java:24-25 | replacing one snapshot moves the cost sum by the change in that snapshot's total |
| Reports.SaveFiguresShiftsCostSum | src/main/java/com/banana/harvest/service/HarvestService.java:359-409 | saving a batch's new figures moves the cost sum by exactly the change in that batch's total cost, whether its snapshot is updated or created |
| Reports.SaleRaisesRevenueAndProfit | src/main/java/com/banana/harvest/service/ReportService.java:40-49 | after a stored sale that changes nothing else (the frame of Sales.CreateSale), sales, revenue and profit rise by its grand total and every other figure stays |
| Reports.RecalculationMovesOnlyProfit | src/main/java/com/banana/harvest/service/ReportService.java:47-49 | after a batch's snapshot is saved with nothing else changed (the frame of Harvest.RecalculateBatchCosts), profit falls by the rise in that batch's total cost and every other figure stays |
| Auth.NewAccount | src/main/java/com/banana/harvest/service/AuthService.java:92-103 | the given email, name and role, active exactly for SUPER_ADMIN |
| Auth.Register | src/main/java/com/banana/harvest/service/AuthService.java:82-108 | a registered email is refused with nothing stored; otherwise NewAccount is appended under the next id |
| Auth.RegisterKeepsEmailsUnique | src/main/java/com/banana/harvest/service/AuthService.java:86-89 | a stored registration keeps emails unique |
| Auth.WithActive | src/main/java/com/banana/harvest/service/AuthService.java:122 | only that account's active flag changes |
| Auth.ApproveUser | src/main/java/com/banana/harvest/service/AuthService.java:110-128 | unknown or already active is refused with nothing changed; otherwise the account becomes active |
| Auth.DeactivateUser | src/main/java/com/banana/harvest/service/AuthService.java:130-148 | unknown or already inactive is refused with nothing changed; otherwise the account becomes inactive |
| Auth.ApproveDeactivateInverse | src/main/java/com/banana/harvest/service/AuthService.java:117-142 | approving then deactivating (or the reverse) gives back the original accounts |
| Auth.LoginCheck | src/main/java/com/banana/harvest/service/AuthService.java:39-53 | succeeds exactly for a registered, active account with the right password, returning that account |
| Auth.LoginRefusesBeforePassword | src/main/java/com/banana/harvest/service/AuthService.java:39-45 | an unknown email or inactive account gets the same refusal whatever the password |
| Auth.ApprovalGovernsLogin | src/main/java/com/banana/harvest/service/AuthService.java:42-45 | with unique emails an approved account can log in and a deactivated one is refused |
| Auth.FindAfterActiveChange | src/main/java/com/banana/harvest/repository/UserRepository.java:19 | with unique emails an account is found by its email after its active flag changes |
| Auth.RefreshCheck | src/main/java/com/banana/harvest/service/AuthService.java:188-202 | succeeds exactly for a valid token naming an existing active account; an inactive one is Deactivated |
| Auth.DeactivationStopsRefresh | src/main/java/com/banana/harvest/service/AuthService.java:199-202 | a deactivated account cannot refresh, an approved one can |
| PhotoValidation.FormatAllowed | src/main/java/com/banana/harvest/service/PhotoValidationService.java:52-62 | true exactly when some allowed format equals the content type ignoring case |
| PhotoValidation.ValidateInspectionMedia | src/main/java/com/banana/harvest/service/PhotoValidationService.java:133-151 | fewer than 2 photos is INSUFFICIENT_PHOTOS, more than 5 TOO_MANY_PHOTOS, and the video minimum is checked last |
| PhotoValidation.VideosNeverRequired | src/main/java/com/banana/harvest/service/PhotoValidationService.java:146-150 | with no video required, the result depends on the photo count alone |
| PhotoValidation.ValidateNotScreenshot | src/main/java/com/banana/harvest/service/PhotoValidationService.java:156-164 | refused exactly when the lower-cased name contains "screenshot" or "screen_shot"; no name passes |
| PhotoValidation.ScreenshotCheckIgnoresCase | src/main/java/com/banana/harvest/service/PhotoValidationService.java:156-164 | the upper-cased name gets the same answer |
| PhotoValidation.ScreenshotPrefixRefused | src/main/java/com/banana/harvest/service/PhotoValidationService.java:156-164 | a name starting with "screenshot", and its upper-cased form, is refused |
| PhotoValidation.OrdinaryNamesPass | src/main/java/com/banana/harvest/service/PhotoValidationService.java:156-164 | example: an ordinary camera name and a missing name pass |
| PhotoValidation.ValidatePhotoUpload | src/main/java/com/banana/harvest/service/PhotoValidationService.java:41-62 | missing or empty, then over 10 MB, then a content type outside jpeg/jpg/png, in that order |
| PhotoValidation.ValidateCameraPhoto | src/main/java/com/banana/harvest/service/PhotoValidationService.java:41-71 | an upload failure wins; otherwise the metadata outcome decides |
| PhotoValidation.ValidateCameraVideo | src/main/java/com/banana/harvest/service/PhotoValidationService.java:76-98 | missing or empty, then over 50 MB, then a type other than video/mp4 or video/quicktime ignoring case, in that order |
| PhotoValidation.VideoTypeIgnoresCase | src/main/java/com/banana/harvest/service/PhotoValidationService.java:87-97 | upper-casing the content type never changes the verdict on a video |
| PhotoValidation.VideoExamples | src/main/java/com/banana/harvest/service/PhotoValidationService.java:77-97 | example: "video/mp4" passes; an absent type is refused as an invalid format; one byte over 50 MB is too large |
| InvoiceSharing.DigitsOnly | src/main/java/com/banana/harvest/service/InvoiceSharingService.java:264 | the result is all digits and no longer than the input |
| InvoiceSharing.DigitsOnlyOfDigits | src/main/java/com/banana/harvest/service/InvoiceSharingService.java:264 | a digit string is its own digits, so stripping is idempotent |
| InvoiceSharing.DigitsOnlyAppend | src/main/java/com/banana/harvest/service/InvoiceSharingService.java:264 | the digits of a concatenation are the concatenated digits |
| InvoiceSharing.FormatPhoneNumber | src/main/java/com/banana/harvest/service/InvoiceSharingService.java:262-279 | the result is all digits and starts with "91" |
| InvoiceSharing.FormatIgnoresNonDigits | src/main/java/com/banana/harvest/service/InvoiceSharingService.java:264 | only the digits of the input matter |
| InvoiceSharing.FormatKeepsNationalNumber | src/main/java/com/banana/harvest/service/InvoiceSharingService.java:267-278 | ten digits get "91" in front, a trunk 0 becomes "91", digits with "91" stay, others get "91" in front |
| InvoiceSharing.FormatIdempotentUnlessTenDigits | src/main/java/com/banana/harvest/service/InvoiceSharingService.java:262-279 | formatting twice is formatting once unless the result has ten digits, when "91" is added again |
| Paging.CeilDivLeast | src/main/java/com/banana/harvest/dto/common/PageResponse.java:20 | the page count is the least number of pages holding all elements, 0 exactly for none |
| Paging.PageOf | src/main/java/com/banana/harvest/dto/common/PageResponse.java:19-30 | content and paging parameters unchanged, totalPages the ceiling of elements / size, first iff page 0, last iff page ≥ totalPages − 1 |
| Paging.LastPageIsTheFinalOne | src/main/java/com/banana/harvest/dto/common/PageResponse.java:27-28 | among pages 0 .. totalPages−1 exactly the final one is last; an empty listing's page 0 is first and last |
| Paging.PageCountExamples | src/main/java/com/banana/harvest/dto/common/PageResponse.java:20 | example: ten items in pages of three make four pages, nine make three |
| Storage.PublicUrl | src/main/java/com/banana/harvest/service/SupabaseStorageService.java:157-164 | project URL, "/storage/v1", the bucket's public key and the file name, in that order |
| Storage.ExtractFileName | src/main/java/com/banana/harvest/service/SupabaseStorageService.java:298-323 | what follows the first public key, else what follows the first plain key; invalid exactly when neither occurs; the result ends the URL |
| Storage.ExtractPublicUrl | src/main/java/com/banana/harvest/service/SupabaseStorageService.java:157-164 | extracting from a public URL gives back the file name when the key first occurs where the URL puts it |
| Storage.PlainBaseUrlIsSafe | src/main/java/com/banana/harvest/service/SupabaseStorageService.java:157-164 | a project URL without "/object/" meets that condition |
| Storage.KeyStraddlingBaseBreaksRoundTrip | src/main/java/com/banana/harvest/service/SupabaseStorageService.java:300-306 | a project URL free of the key can still lose the round trip when the key straddles its end |
| Storage.Extension | src/main/java/com/banana/harvest/service/SupabaseStorageService.java:277-280 | a dot-free suffix of the original: what follows the last '.', or the whole name |
| Storage.GenerateFileName | src/main/java/com/banana/harvest/service/SupabaseStorageService.java:264-293 | folder, "/", user id, "_", the 14-digit timestamp, "_", the UUID's first eight characters, ".", the extension, each at its position |
| Storage.GeneratedNameKeepsExtension | src/main/java/com/banana/harvest/service/SupabaseStorageService.java:277-292 | the generated name's extension is the original's |
| Money.DivHalfUpRounds | src/main/java/com/banana/harvest/service/HarvestService.java:105 | the quotient is within half a unit of a / b, ties away from zero |
| Money.DivHalfUpUnique | src/main/java/com/banana/harvest/service/HarvestService.java:105 | no other integer meets those two rounding facts |
| Money.DivHalfUpOdd | src/main/java/com/banana/harvest/service/ReportService.java:106-108 | negating the dividend negates the quotient |
| Money.PerBoxRounds | src/main/java/com/banana/harvest/service/HarvestService.java:383-386 | a per-box figure is 0 without a positive box count and the rounded share otherwise |
| Store.SumBoxesPackedSnoc | src/main/java/com/banana/harvest/repository/DailyHarvestReportRepository.java:21-22 | appending a report adds its packed boxes to its own batch's sum only |
| Store.FindCostRow | src/main/java/com/banana/harvest/repository/BatchCostRepository.java:16 | the first snapshot of the batch, none exactly when there is none |
| Store.FindStock | src/main/java/com/banana/harvest/repository/InventoryStockRepository.java:15 | the first stock row of the item, none exactly when there is none |
| Store.FindUserByEmail | src/main/java/com/banana/harvest/repository/UserRepository.java:19 | the first user with the email, none exactly when there is none |

## Left out

- Persistence: JPA mapping, lazy loading and the `@Version` optimistic lock. Repositories are sequences, and the aggregate queries are sum functions that give 0 on no rows.
- JPA auditing timestamps are not modelled: the `@CreatedDate` and `@LastModifiedDate` fields (`createdAt`, `updatedAt`) that the auditing listener fills on save, for example BatchCost.java:75. The service code never writes them; where the model carries `updatedAt` (the cost snapshot), it only passes the stored value through.
- Transactions: rollback is modelled only as "an error changes nothing", by checking before writing. `FarmService.ApproveInspection`: on rejection the model keeps the decision writes and returns the error, as the code writes them before it throws. Whether they survive depends on rollback, which is outside a sequential model.
- Concurrency: the race between two callers taking the same running number (`count() + 1`) is out.
- Asynchronous notifications, logging, controllers, DTO mapping beyond `mapToBatchResponse`, the exception-to-HTTP mapping, and the schema repair runner are out.
- Security: password hashing, the authentication manager and JWT handling are out. Whether the password matches and whether a refresh token is valid arrive as booleans.
- Display names of users and farms in responses are not modelled.
- Photo validation: reading EXIF metadata is not part of this model. Its outcome is a parameter of `PhotoValidation.ValidateCameraPhoto`.
- GPS distance and coordinate checks (floating point), PDF rendering, and the WhatsApp and e-mail sending are out.
- The storage HTTP calls (uploading and deleting photos, videos and files) are out. Only URL building, name extraction and name generation are modelled.
- UUID parsing: ids are indices, so a malformed id is modelled as a not-found lookup. The code instead throws IllegalArgumentException from `UUID.fromString` before the lookup: FarmService.java:118 and :170, HarvestService.java:45, :160 and :206, InventoryService.java:85 and :88, and SalesService.java:40.
- `PaymentStatus.valueOf`: the parsed status arrives as an `Option`; an unknown name is the `None` case.
- Reports.Dashboard: does not model the two averages (price per box and cost per box) or the farm count query; the farm count is a parameter.
- Paging.PageOf: requires a positive page size. The double-precision ceiling and its int cast are modelled as exact integer ceiling division.
- Java `int` overflow in the counters and sums is not modelled; integers are unbounded.
- Case folding (`toLowerCase`, `equalsIgnoreCase`) is modelled on ASCII letters only.
- Reconciliation.RecordBoxIssuance: ignores the batch id. The service never attaches the batch to the entry, so neither does the model.
