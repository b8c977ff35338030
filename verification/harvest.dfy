/**
 * The harvest service: daily harvest reports, gate passes and their receipt,
 * transport costs, and the per-batch cost roll-up. The box counters of a
 * batch move as follows: a report packs boxes into `harvestedBoxes` within
 * `remainingBoxes`, a gate pass dispatches boxes within `gatePassRemaining`,
 * and the batch status follows the counters.
 *
 * Every operation runs in one transaction: when it ends in an error nothing it
 * wrote survives, so the methods check before they write.
 */
module Harvest {
  import opened Common
  import opened Money
  import opened Codes
  import opened Batches
  import opened BatchCosts
  import opened Store

  datatype HarvestError =
    | BatchNotFound
    | UserNotFound
    | GatePassNotFound
      /** A null counter was unboxed (a NullPointerException in the service). */
    | NullCounter
      /** "Limit exceeded. Only <remaining> boxes remaining for harvest in this batch." */
    | HarvestLimitExceeded(remaining: int)
      /** "Limit exceeded. Only <available> boxes available for dispatch in this batch." */
    | DispatchLimitExceeded(available: int)
      /** A BigDecimal division by a zero box count (an ArithmeticException). */
    | DivisionByZero

  /** Money in the requests is in hundredths. */
  datatype DailyHarvestRequest = DailyHarvestRequest(
    reportDate: Date,
    boxesPacked: int,
    boxesWasted: int,
    laborCount: int,
    notes: Option<string>,
    laborCost: Option<int>)

  datatype GatePassRequest = GatePassRequest(
    truckNumber: string,
    driverName: string,
    driverPhone: Option<string>,
    totalBoxes: int,
    dispatchDate: Date,
    notes: Option<string>)

  datatype TransportCostRequest = TransportCostRequest(
    costType: TransportType,
    vendorName: Option<string>,
    vehicleNumber: Option<string>,
    driverName: Option<string>,
    driverPhone: Option<string>,
    totalCost: int,
    distanceKm: Option<int>,
    notes: Option<string>)

  // ---------------------------------------------------------------------------
  // Daily harvest report: the batch counters and status.

  /**
   * Legacy null counters are filled in before a report: dispatched and allocated
   * become 0 and a missing gatePassRemaining becomes harvested - dispatched, which
   * fails when harvested is null as well.
   */
  function NormalizeForReport(s: BatchState): (r: Result<BatchState, HarvestError>)
    ensures r.Err? <==> s.gatePassRemaining.None? && s.harvestedBoxes.None?
    ensures r.Ok? ==> r.value.dispatchedBoxes == Some(s.dispatchedBoxes.GetOr(0))
    ensures r.Ok? ==> r.value.allocatedBoxes == Some(s.allocatedBoxes.GetOr(0))
    ensures r.Ok? && s.gatePassRemaining.Some? ==> r.value.gatePassRemaining == s.gatePassRemaining
    ensures r.Ok? && s.gatePassRemaining.None? ==>
      r.value.gatePassRemaining == Some(s.harvestedBoxes.value - s.dispatchedBoxes.GetOr(0))
    ensures r.Ok? ==> r.value.(dispatchedBoxes := s.dispatchedBoxes, allocatedBoxes := s.allocatedBoxes,
                               gatePassRemaining := s.gatePassRemaining) == s
  {
    var d := s.dispatchedBoxes.GetOr(0);
    if s.gatePassRemaining.None? && s.harvestedBoxes.None? then Err(NullCounter)
    else
      var gpr := if s.gatePassRemaining.Some? then s.gatePassRemaining.value else s.harvestedBoxes.value - d;
      Ok(s.(dispatchedBoxes := Some(d), gatePassRemaining := Some(gpr),
            allocatedBoxes := Some(s.allocatedBoxes.GetOr(0))))
  }

  /**
   * The status after a report, from the new harvested count: in progress while
   * 0 < harvested < alloc, completed once harvested reaches alloc, and a
   * CREATED batch that matched neither rule becomes IN_PROGRESS.
   */
  function ReportStatus(current: BatchStatus, harvested: int, alloc: int): (r: BatchStatus)
    ensures 0 < harvested < alloc ==> r == HarvestInProgress
    ensures harvested >= alloc ==> r == HarvestCompleted
    ensures harvested <= 0 && harvested < alloc ==> r == (if current == Created then InProgress else current)
    ensures r != Created
  {
    var s :=
      if harvested > 0 && harvested < alloc then HarvestInProgress
      else if harvested >= alloc then HarvestCompleted
      else current;
    if s == Created then InProgress else s
  }

  /**
   * What a report of `packed` boxes does to a batch before the totals are
   * re-read: it fails on a null counter or when `packed` exceeds the remaining
   * boxes, and otherwise adds `packed` to harvested and brings remaining,
   * gatePassRemaining, actual and the status in line with it.
   */
  function ApplyReport(s: BatchState, packed: int): (r: Result<BatchState, HarvestError>)
    ensures s.harvestedBoxes.Some? && s.remainingBoxes.Some? ==>
      (r.Err? <==> packed > s.remainingBoxes.value)
    ensures r.Err? && s.harvestedBoxes.Some? && s.remainingBoxes.Some? ==>
      r.error == HarvestLimitExceeded(s.remainingBoxes.value)
    ensures r.Ok? ==> s.harvestedBoxes.Some? && s.remainingBoxes.Some? && packed <= s.remainingBoxes.value
    ensures r.Ok? ==> r.value.harvestedBoxes == Some(s.harvestedBoxes.value + packed)
    ensures r.Ok? ==> r.value.allocatedBoxes == Some(s.allocatedBoxes.GetOr(0))
    ensures r.Ok? ==> r.value.dispatchedBoxes == Some(s.dispatchedBoxes.GetOr(0))
    ensures r.Ok? ==> r.value.remainingBoxes == Some(r.value.allocatedBoxes.value - r.value.harvestedBoxes.value)
    ensures r.Ok? ==> r.value.gatePassRemaining == Some(r.value.harvestedBoxes.value - r.value.dispatchedBoxes.value)
    ensures r.Ok? ==> r.value.actualBoxes == r.value.harvestedBoxes
    ensures r.Ok? ==> r.value.status == ReportStatus(s.status, r.value.harvestedBoxes.value, r.value.allocatedBoxes.value)
    ensures r.Ok? ==> r.value.estimatedBoxes == s.estimatedBoxes
    ensures r.Ok? ==> r.value.startDate == s.startDate && r.value.endDate == s.endDate
  {
    match NormalizeForReport(s)
    case Err(e) => Err(e)
    case Ok(n) =>
      if n.remainingBoxes.None? then Err(NullCounter)
      else if packed > n.remainingBoxes.value then Err(HarvestLimitExceeded(n.remainingBoxes.value))
      else if n.harvestedBoxes.None? then Err(NullCounter)
      else
        var h := n.harvestedBoxes.value + packed;
        var a := n.allocatedBoxes.value;
        Ok(n.(harvestedBoxes := Some(h), remainingBoxes := Some(a - h),
              gatePassRemaining := Some(h - n.dispatchedBoxes.value), actualBoxes := Some(h),
              status := ReportStatus(n.status, h, a)))
  }

  /**
   * After the report is stored, harvested and actual are reset to the total
   * packed over all reports of the batch and remaining to allocated minus that
   * total; gatePassRemaining and the status are left as they were.
   */
  function Resum(s: BatchState, totalPacked: int): (r: BatchState)
    requires s.allocatedBoxes.Some?
    ensures r.harvestedBoxes == Some(totalPacked) && r.actualBoxes == Some(totalPacked)
    ensures r.remainingBoxes == Some(s.allocatedBoxes.value - totalPacked)
    ensures r.(harvestedBoxes := s.harvestedBoxes, remainingBoxes := s.remainingBoxes,
               actualBoxes := s.actualBoxes) == s
  {
    s.(harvestedBoxes := Some(totalPacked), remainingBoxes := Some(s.allocatedBoxes.value - totalPacked),
       actualBoxes := Some(totalPacked))
  }

  /**
   * Labour cost per box of a report: the labour cost over the packed boxes at
   * two decimals HALF_UP; with no boxes packed the division fails.
   */
  function LaborCostPerBox(laborCost: int, boxesPacked: int): (r: Result<int, HarvestError>)
    ensures r.Err? <==> boxesPacked == 0
    ensures r.Err? ==> r.error == DivisionByZero
  {
    if boxesPacked == 0 then Err(DivisionByZero) else Ok(DivHalfUp(laborCost, boxesPacked))
  }

  /** A successful labour per-box figure is the labour cost over the packed boxes, rounded HALF_UP. */
  lemma LaborCostPerBoxRounds(laborCost: int, boxesPacked: int)
    ensures LaborCostPerBox(laborCost, boxesPacked).Ok? ==>
      RoundsHalfUp(laborCost, boxesPacked, LaborCostPerBox(laborCost, boxesPacked).value)
  {
    if boxesPacked != 0 {
      DivHalfUpRounds(laborCost, boxesPacked);
    }
  }

  /** A labour cost row is written only for a labour cost that is present and positive. */
  predicate HasLaborCost(req: DailyHarvestRequest)
  {
    req.laborCost.Some? && req.laborCost.value > 0
  }

  /**
   * The whole check of a daily report against a batch: the counter update of
   * `ApplyReport`, then, when there is a labour cost, its per-box division.
   */
  function CheckReport(s: BatchState, req: DailyHarvestRequest): (r: Result<BatchState, HarvestError>)
    ensures r.Ok? <==> ApplyReport(s, req.boxesPacked).Ok? &&
                       (HasLaborCost(req) ==> req.boxesPacked != 0)
    ensures r.Ok? ==> r == ApplyReport(s, req.boxesPacked)
    ensures ApplyReport(s, req.boxesPacked).Err? ==> r == ApplyReport(s, req.boxesPacked)
  {
    match ApplyReport(s, req.boxesPacked)
    case Err(e) => Err(e)
    case Ok(n) =>
      if HasLaborCost(req) && req.boxesPacked == 0 then Err(DivisionByZero) else Ok(n)
  }

  function ReportRow(batchId: Id, req: DailyHarvestRequest, userId: Id): DailyHarvestReport
  {
    DailyHarvestReport(batchId, req.reportDate, req.boxesPacked, req.boxesWasted, req.laborCount,
                       req.notes, userId)
  }

  /** The labour cost rows a report adds: one PENDING row when it carries a labour cost, else none. */
  function LaborRows(reportId: Id, batchId: Id, req: DailyHarvestRequest, userId: Id)
    : (rows: seq<LaborCost>)
    requires HasLaborCost(req) ==> req.boxesPacked != 0
    ensures |rows| == (if HasLaborCost(req) then 1 else 0)
    ensures HasLaborCost(req) ==>
      && rows[0].reportId == reportId && rows[0].batchId == batchId
      && rows[0].totalAmount == req.laborCost.value
      && rows[0].notes == None && rows[0].createdBy == userId
      && LaborCostPerBox(req.laborCost.value, req.boxesPacked) == Ok(rows[0].costPerBox)
      && rows[0].paymentStatus == PENDING && rows[0].paidAmount == 0
  {
    if HasLaborCost(req) then
      [LaborCost(reportId, batchId, req.laborCost.value,
                 LaborCostPerBox(req.laborCost.value, req.boxesPacked).value, PENDING, 0, None, userId)]
    else []
  }

  // ---------------------------------------------------------------------------
  // Gate pass: the dispatch counters and status.

  /**
   * Legacy null counters are filled in before a gate pass: harvested from actual
   * (or 0), dispatched and allocated as 0, gatePassRemaining as harvested -
   * dispatched. This never fails.
   */
  function NormalizeForDispatch(s: BatchState): (r: BatchState)
    ensures r.harvestedBoxes == Some(if s.harvestedBoxes.Some? then s.harvestedBoxes.value else s.actualBoxes.GetOr(0))
    ensures r.dispatchedBoxes == Some(s.dispatchedBoxes.GetOr(0))
    ensures r.gatePassRemaining == Some(s.gatePassRemaining.GetOr(r.harvestedBoxes.value - r.dispatchedBoxes.value))
    ensures r.allocatedBoxes == Some(s.allocatedBoxes.GetOr(0))
    ensures r.(harvestedBoxes := s.harvestedBoxes, dispatchedBoxes := s.dispatchedBoxes,
               gatePassRemaining := s.gatePassRemaining, allocatedBoxes := s.allocatedBoxes) == s
  {
    var h := if s.harvestedBoxes.Some? then s.harvestedBoxes.value else s.actualBoxes.GetOr(0);
    var d := s.dispatchedBoxes.GetOr(0);
    s.(harvestedBoxes := Some(h), dispatchedBoxes := Some(d),
       gatePassRemaining := Some(s.gatePassRemaining.GetOr(h - d)),
       allocatedBoxes := Some(s.allocatedBoxes.GetOr(0)))
  }

  /**
   * The status after a gate pass: dispatch in progress while 0 < dispatched <
   * harvested; once dispatch has caught up with harvest, DISPATCH_COMPLETED if
   * the harvest is complete and HARVEST_IN_PROGRESS if not; otherwise unchanged.
   */
  function GatePassStatus(current: BatchStatus, dispatched: int, harvested: int, alloc: int): (r: BatchStatus)
    ensures 0 < dispatched < harvested ==> r == DispatchInProgress
    ensures dispatched >= harvested && harvested >= alloc ==> r == DispatchCompleted
    ensures dispatched >= harvested && harvested < alloc ==> r == HarvestInProgress
    ensures dispatched <= 0 && dispatched < harvested ==> r == current
  {
    if dispatched > 0 && dispatched < harvested then DispatchInProgress
    else if dispatched >= harvested then
      (if harvested >= alloc then DispatchCompleted else HarvestInProgress)
    else current
  }

  /**
   * What a gate pass of `total` boxes does to a batch: it fails when `total`
   * exceeds the (normalised) gatePassRemaining, and otherwise adds `total` to
   * dispatched, recomputes gatePassRemaining and sets the status.
   */
  function ApplyGatePass(s: BatchState, total: int): (r: Result<BatchState, HarvestError>)
    ensures var n := NormalizeForDispatch(s);
      (r.Err? <==> total > n.gatePassRemaining.value) &&
      (r.Err? ==> r.error == DispatchLimitExceeded(n.gatePassRemaining.value))
    ensures r.Ok? ==> var n := NormalizeForDispatch(s);
      && r.value.dispatchedBoxes == Some(n.dispatchedBoxes.value + total)
      && r.value.gatePassRemaining == Some(n.harvestedBoxes.value - r.value.dispatchedBoxes.value)
      && r.value.status == GatePassStatus(s.status, r.value.dispatchedBoxes.value, n.harvestedBoxes.value,
                                           n.allocatedBoxes.value)
      && r.value.(dispatchedBoxes := n.dispatchedBoxes, gatePassRemaining := n.gatePassRemaining,
                  status := s.status) == n
  {
    var n := NormalizeForDispatch(s);
    if total > n.gatePassRemaining.value then Err(DispatchLimitExceeded(n.gatePassRemaining.value))
    else
      var d := n.dispatchedBoxes.value + total;
      var h := n.harvestedBoxes.value;
      Ok(n.(dispatchedBoxes := Some(d), gatePassRemaining := Some(h - d),
            status := GatePassStatus(n.status, d, h, n.allocatedBoxes.value)))
  }

  /** `generateGatePassNo`: "GP-" + yyyyMMdd + "-" + the next gate pass count as %04d. */
  function GatePassNo(today: Date, storedPasses: nat): string
  {
    SequenceCode("GP-", today, storedPasses, 4)
  }

  /**
   * A gate pass number reads back: "GP-", the year, month and day as
   * yyyyMMdd, a dash, and the count plus one padded to exactly four digits
   * (more only when it needs more).
   */
  lemma GatePassNoParts(today: Date, storedPasses: nat)
    ensures var no := GatePassNo(today, storedPasses);
      && |no| >= 16
      && no[..3] == "GP-"
      && no[3..11] == FormatDate(today)
      && AllDigits(no[3..7]) && DigitsValue(no[3..7]) == today.year
      && AllDigits(no[7..9]) && DigitsValue(no[7..9]) == today.month
      && AllDigits(no[9..11]) && DigitsValue(no[9..11]) == today.day
      && no[11] == '-'
      && AllDigits(no[12..])
      && DigitsValue(no[12..]) == storedPasses + 1
      && |no[12..]| == (if |Decimal(storedPasses + 1)| < 4 then 4 else |Decimal(storedPasses + 1)|)
  {
    SequenceCodeParts("GP-", today, storedPasses, 4);
  }

  function GatePassRow(batchId: Id, gatePassNo: string, req: GatePassRequest, userId: Id): GatePass
  {
    GatePass(batchId, gatePassNo, req.truckNumber, req.driverName, req.driverPhone, req.totalBoxes,
             StartOfDay(req.dispatchDate), req.notes, userId, None, None, None)
  }

  /** Receiving a gate pass fills in the three receipt fields and nothing else. */
  function Received(g: GatePass, receivedBoxes: int, receivedBy: Id, now: DateTime): (r: GatePass)
    ensures r.receivedBoxes == Some(receivedBoxes) && r.receivedBy == Some(receivedBy) && r.receivedAt == Some(now)
    ensures r.(receivedBoxes := g.receivedBoxes, receivedAt := g.receivedAt, receivedBy := g.receivedBy) == g
  {
    g.(receivedBoxes := Some(receivedBoxes), receivedAt := Some(now), receivedBy := Some(receivedBy))
  }

  // ---------------------------------------------------------------------------
  // Costs.

  /** The box count costs are spread over: actual boxes when positive, else the estimate. */
  function CostBoxCount(actualBoxes: Option<int>, estimatedBoxes: int): int
  {
    if actualBoxes.Some? && actualBoxes.value > 0 then actualBoxes.value else estimatedBoxes
  }

  /**
   * Transport cost per box: the total over the cost box count at two decimals
   * HALF_UP. Unlike the roll-up, nothing guards the division, so a zero box
   * count fails (a negative one divides).
   */
  function TransportCostPerBox(totalCost: int, actualBoxes: Option<int>, estimatedBoxes: int)
    : (r: Result<int, HarvestError>)
    ensures r.Err? <==> CostBoxCount(actualBoxes, estimatedBoxes) == 0
    ensures r.Err? ==> r.error == DivisionByZero
  {
    var n := CostBoxCount(actualBoxes, estimatedBoxes);
    if n == 0 then Err(DivisionByZero) else Ok(DivHalfUp(totalCost, n))
  }

  /** A successful transport per-box figure is the cost over the cost box count, rounded HALF_UP. */
  lemma TransportCostPerBoxRounds(totalCost: int, actualBoxes: Option<int>, estimatedBoxes: int)
    ensures var r := TransportCostPerBox(totalCost, actualBoxes, estimatedBoxes);
      r.Ok? ==> RoundsHalfUp(totalCost, CostBoxCount(actualBoxes, estimatedBoxes), r.value)
  {
    var n := CostBoxCount(actualBoxes, estimatedBoxes);
    if n != 0 {
      DivHalfUpRounds(totalCost, n);
    }
  }

  function TransportRow(batchId: Id, req: TransportCostRequest, costPerBox: int, userId: Id): TransportCost
  {
    TransportCost(batchId, req.costType, req.vendorName, req.vehicleNumber, req.driverName, req.driverPhone,
                  req.totalCost, costPerBox, req.distanceKm, req.notes, userId)
  }

  /**
   * The cost roll-up: the four totals, their sum, and each of them over the box
   * count. `RollUpSpec` states what the figures are.
   */
  function RollUp(material: int, outward: int, labor: int, inward: int, boxCount: int): CostFigures
  {
    var total := material + outward + labor + inward;
    CostFigures(material, PerBox(material, boxCount), outward, PerBox(outward, boxCount),
                labor, PerBox(labor, boxCount), inward, PerBox(inward, boxCount),
                total, PerBox(total, boxCount))
  }

  /**
   * The roll-up passes the four totals through and sums them; every per-box
   * figure is 0 when the box count is not positive, and otherwise its total over
   * the box count at two decimals HALF_UP.
   */
  lemma RollUpSpec(material: int, outward: int, labor: int, inward: int, boxCount: int)
    ensures var f := RollUp(material, outward, labor, inward, boxCount);
      && f.materialCostTotal == material && f.outwardTransportCost == outward
      && f.laborCostTotal == labor && f.inwardTransportCost == inward
      && f.totalCost == material + outward + labor + inward
    ensures var f := RollUp(material, outward, labor, inward, boxCount);
      boxCount <= 0 ==>
        f.materialCostPerBox == 0 && f.outwardTransportPerBox == 0 && f.laborCostPerBox == 0 &&
        f.inwardTransportPerBox == 0 && f.finalCostPerBox == 0
    ensures var f := RollUp(material, outward, labor, inward, boxCount);
      boxCount > 0 ==>
        && RoundsHalfUp(material, boxCount, f.materialCostPerBox)
        && RoundsHalfUp(outward, boxCount, f.outwardTransportPerBox)
        && RoundsHalfUp(labor, boxCount, f.laborCostPerBox)
        && RoundsHalfUp(inward, boxCount, f.inwardTransportPerBox)
        && RoundsHalfUp(f.totalCost, boxCount, f.finalCostPerBox)
  {
    PerBoxRounds(material, boxCount);
    PerBoxRounds(outward, boxCount);
    PerBoxRounds(labor, boxCount);
    PerBoxRounds(inward, boxCount);
    PerBoxRounds(material + outward + labor + inward, boxCount);
  }

  /** The figures of a batch from the current tables and the batch's box counts. */
  function BatchFigures(allocations: seq<InventoryAllocation>, items: seq<InventoryItem>,
                        transportCosts: seq<TransportCost>, laborCosts: seq<LaborCost>,
                        batchId: Id, actualBoxes: Option<int>, estimatedBoxes: int): CostFigures
    requires forall a :: a in allocations ==> a.itemId < |items|
  {
    RollUp(MaterialCost(allocations, items, batchId),
           SumTransportCost(transportCosts, batchId, Outward),
           SumLaborAmount(laborCosts, batchId),
           SumTransportCost(transportCosts, batchId, Inward),
           CostBoxCount(actualBoxes, estimatedBoxes))
  }

  /**
   * The snapshot table after a recalculation: the batch's snapshot, if it has
   * one, gets the new figures and calculation time and keeps its id, batch and
   * update time; otherwise a new snapshot is appended under the next id.
   */
  function SaveFigures(rows: seq<CostRow>, batchId: Id, f: CostFigures, now: DateTime): (r: seq<CostRow>)
    ensures FindCostRow(rows, batchId).Some? ==>
      var i := FindCostRow(rows, batchId).value;
      |r| == |rows| && r[i].figures == f && r[i].calculatedAt == Some(now) &&
      r[i].id == rows[i].id && r[i].batchId == rows[i].batchId && r[i].updatedAt == rows[i].updatedAt &&
      (forall j :: 0 <= j < |rows| && j != i ==> r[j] == rows[j])
    ensures FindCostRow(rows, batchId).None? ==>
      r == rows + [CostRow(Some(|rows|), Some(batchId), f, Some(now), None)]
  {
    match FindCostRow(rows, batchId)
    case Some(i) => rows[i := rows[i].(figures := f, calculatedAt := Some(now))]
    case None => rows + [CostRow(Some(|rows|), Some(batchId), f, Some(now), None)]
  }

  // ---------------------------------------------------------------------------
  // The service operations.

  /** The ten setter calls of a recalculation: the snapshot takes `f` and keeps everything else. */
  method SetFigures(cost: BatchCost, f: CostFigures)
    modifies cost
    ensures cost.Row() == old(cost.Row()).(figures := f)
  {
    cost.SetMaterialCostTotal(f.materialCostTotal);
    cost.SetMaterialCostPerBox(f.materialCostPerBox);
    cost.SetOutwardTransportCost(f.outwardTransportCost);
    cost.SetOutwardTransportPerBox(f.outwardTransportPerBox);
    cost.SetLaborCostTotal(f.laborCostTotal);
    cost.SetLaborCostPerBox(f.laborCostPerBox);
    cost.SetInwardTransportCost(f.inwardTransportCost);
    cost.SetInwardTransportPerBox(f.inwardTransportPerBox);
    cost.SetTotalCost(f.totalCost);
    cost.SetFinalCostPerBox(f.finalCostPerBox);
  }

  /**
   * `recalculateBatchCosts`: the batch's snapshot (or a fresh one from the
   * builder) gets the rolled-up figures through its setters, is stamped with the
   * calculation time, and is stored.
   */
  method RecalculateBatchCosts(db: Database, batch: Batch, now: DateTime)
    requires db.Valid()
    modifies db`batchCosts
    ensures db.batchCosts == SaveFigures(old(db.batchCosts), batch.id,
                                         BatchFigures(db.allocations, db.items, db.transportCosts, db.laborCosts,
                                                      batch.id, batch.actualBoxes, batch.estimatedBoxes), now)
  {
    var idx := FindCostRow(db.batchCosts, batch.id);
    var cost: BatchCost;
    if idx.Some? {
      cost := new BatchCost(db.batchCosts[idx.value]);
    } else {
      cost := NewForBatch(batch.id);
    }
    var material := MaterialCost(db.allocations, db.items, batch.id);
    var outward := SumTransportCost(db.transportCosts, batch.id, Outward);
    var inward := SumTransportCost(db.transportCosts, batch.id, Inward);
    var labor := SumLaborAmount(db.laborCosts, batch.id);
    var boxCount := CostBoxCount(batch.actualBoxes, batch.estimatedBoxes);
    var f := RollUp(material, outward, labor, inward, boxCount);
    SetFigures(cost, f);
    cost.SetCalculatedAt(Some(now));
    if idx.Some? {
      assert cost.Row() == db.batchCosts[idx.value].(figures := f, calculatedAt := Some(now));
      db.batchCosts := db.batchCosts[idx.value := cost.Row()];
    } else {
      cost.SetId(Some(|db.batchCosts|));
      assert cost.Row() == CostRow(Some(|db.batchCosts|), Some(batch.id), f, Some(now), None);
      db.batchCosts := db.batchCosts + [cost.Row()];
    }
  }

  /** The legacy null counters filled in before a report, in place. */
  method FillReportNulls(batch: Batch)
    requires NormalizeForReport(batch.State()).Ok?
    modifies batch
    ensures batch.State() == NormalizeForReport(old(batch.State())).value
  {
    if batch.dispatchedBoxes.None? {
      batch.dispatchedBoxes := Some(0);
    }
    if batch.gatePassRemaining.None? {
      batch.gatePassRemaining := Some(batch.harvestedBoxes.value - batch.dispatchedBoxes.value);
    }
    if batch.allocatedBoxes.None? {
      batch.allocatedBoxes := Some(0);
    }
  }

  /**
   * The in-place counter update of a report that passed its checks: legacy nulls
   * are filled in, `packed` is added to harvested, and remaining,
   * gatePassRemaining, actual and the status follow.
   */
  method WriteReportCounters(batch: Batch, packed: int)
    requires ApplyReport(batch.State(), packed).Ok?
    modifies batch
    ensures batch.State() == ApplyReport(old(batch.State()), packed).value
  {
    FillReportNulls(batch);
    var h, a := batch.harvestedBoxes.value + packed, batch.allocatedBoxes.value;
    batch.harvestedBoxes := Some(h);
    batch.remainingBoxes := Some(a - h);
    batch.gatePassRemaining := Some(h - batch.dispatchedBoxes.value);
    batch.actualBoxes := Some(h);
    if h > 0 && h < a {
      batch.status := HarvestInProgress;
    } else if h >= a {
      batch.status := HarvestCompleted;
    }
    if batch.status == Created {
      batch.status := InProgress;
    }
  }

  /** Harvested, remaining and actual re-read from the total packed over the stored reports. */
  method WriteTotals(batch: Batch, totalPacked: int)
    requires batch.allocatedBoxes.Some?
    modifies batch
    ensures batch.State() == Resum(old(batch.State()), totalPacked)
  {
    batch.harvestedBoxes := Some(totalPacked);
    batch.remainingBoxes := Some(batch.allocatedBoxes.value - totalPacked);
    batch.actualBoxes := Some(totalPacked);
  }

  /**
   * `createDailyReport`. On success: the report is stored, a PENDING labour
   * cost row is stored when the report carries a positive labour cost, the
   * batch goes through `ApplyReport` and then has its harvested, remaining and
   * actual counts re-read from the stored reports, and the costs are rolled up
   * again. On any error nothing changes.
   */
  method CreateDailyReport(db: Database, batch: Batch?, userId: Id, req: DailyHarvestRequest, now: DateTime)
    returns (r: Result<Id, HarvestError>)
    requires db.Valid()
    modifies batch, db`reports, db`laborCosts, db`batchCosts
    ensures db.Valid()
    ensures batch == null ==> r == Err(BatchNotFound)
    ensures batch != null && userId >= |db.users| ==> r == Err(UserNotFound)
    ensures batch != null && userId < |db.users| && CheckReport(old(batch.State()), req).Err? ==>
      r == Err(CheckReport(old(batch.State()), req).error)
    ensures r.Err? ==>
      db.reports == old(db.reports) && db.laborCosts == old(db.laborCosts) &&
      db.batchCosts == old(db.batchCosts) && (batch != null ==> batch.State() == old(batch.State()))
    ensures r.Ok? ==> batch != null && userId < |db.users| && CheckReport(old(batch.State()), req).Ok?
    ensures r.Ok? ==>
      var n := CheckReport(old(batch.State()), req).value;
      && r.value == |old(db.reports)|
      && db.reports == old(db.reports) + [ReportRow(batch.id, req, userId)]
      && db.laborCosts == old(db.laborCosts) + LaborRows(r.value, batch.id, req, userId)
      && batch.State() == Resum(n, SumBoxesPacked(db.reports, batch.id))
      && db.batchCosts == SaveFigures(old(db.batchCosts), batch.id,
                                      BatchFigures(db.allocations, db.items, db.transportCosts, db.laborCosts,
                                                      batch.id, batch.actualBoxes, batch.estimatedBoxes), now)
  {
    if batch == null {
      return Err(BatchNotFound);
    }
    if userId >= |db.users| {
      return Err(UserNotFound);
    }
    var check := CheckReport(batch.State(), req);
    if check.Err? {
      return Err(check.error);
    }
    WriteReportCounters(batch, req.boxesPacked);

    var reportId := |db.reports|;
    db.reports := db.reports + [ReportRow(batch.id, req, userId)];
    if HasLaborCost(req) {
      var costPerBox := LaborCostPerBox(req.laborCost.value, req.boxesPacked).value;
      db.laborCosts := db.laborCosts
        + [LaborCost(reportId, batch.id, req.laborCost.value, costPerBox, PENDING, 0, None, userId)];
    }

    var totalPacked := SumBoxesPacked(db.reports, batch.id);
    WriteTotals(batch, totalPacked);

    RecalculateBatchCosts(db, batch, now);
    r := Ok(reportId);
  }

  /**
   * `addTransportCost`: the cost is stored with its per-box share (a zero box
   * count fails the division) and the costs are rolled up again.
   */
  method AddTransportCost(db: Database, batch: Batch?, userId: Id, req: TransportCostRequest, now: DateTime)
    returns (r: Result<(), HarvestError>)
    requires db.Valid()
    modifies db`transportCosts, db`batchCosts
    ensures db.Valid()
    ensures batch == null ==> r == Err(BatchNotFound)
    ensures batch != null && userId >= |db.users| ==> r == Err(UserNotFound)
    ensures r.Err? ==> db.transportCosts == old(db.transportCosts) && db.batchCosts == old(db.batchCosts)
    ensures batch != null && userId < |db.users| ==>
      match TransportCostPerBox(req.totalCost, batch.actualBoxes, batch.estimatedBoxes)
      case Err(e) => r == Err(e)
      case Ok(perBox) =>
        && r == Ok(())
        && db.transportCosts == old(db.transportCosts) + [TransportRow(batch.id, req, perBox, userId)]
        && db.batchCosts == SaveFigures(old(db.batchCosts), batch.id,
                                        BatchFigures(db.allocations, db.items, db.transportCosts, db.laborCosts,
                                                      batch.id, batch.actualBoxes, batch.estimatedBoxes), now)
  {
    if batch == null {
      return Err(BatchNotFound);
    }
    if userId >= |db.users| {
      return Err(UserNotFound);
    }
    var boxCount := CostBoxCount(batch.actualBoxes, batch.estimatedBoxes);
    if boxCount == 0 {
      return Err(DivisionByZero);
    }
    var costPerBox := DivHalfUp(req.totalCost, boxCount);
    db.transportCosts := db.transportCosts + [TransportRow(batch.id, req, costPerBox, userId)];
    RecalculateBatchCosts(db, batch, now);
    r := Ok(());
  }

  /** The legacy null counters filled in before a gate pass, in place. */
  method FillDispatchNulls(batch: Batch)
    modifies batch
    ensures batch.State() == NormalizeForDispatch(old(batch.State()))
  {
    if batch.harvestedBoxes.None? {
      batch.harvestedBoxes := Some(batch.actualBoxes.GetOr(0));
    }
    if batch.dispatchedBoxes.None? {
      batch.dispatchedBoxes := Some(0);
    }
    if batch.gatePassRemaining.None? {
      batch.gatePassRemaining := Some(batch.harvestedBoxes.value - batch.dispatchedBoxes.value);
    }
    if batch.allocatedBoxes.None? {
      batch.allocatedBoxes := Some(0);
    }
  }

  /**
   * The in-place counter update of a gate pass that passed its check: legacy
   * nulls are filled in, `total` is added to dispatched, and gatePassRemaining
   * and the status follow.
   */
  method WriteDispatchCounters(batch: Batch, total: int)
    requires ApplyGatePass(batch.State(), total).Ok?
    modifies batch
    ensures batch.State() == ApplyGatePass(old(batch.State()), total).value
  {
    FillDispatchNulls(batch);
    var d, h := batch.dispatchedBoxes.value + total, batch.harvestedBoxes.value;
    batch.dispatchedBoxes := Some(d);
    batch.gatePassRemaining := Some(h - d);
    if d > 0 && d < h {
      batch.status := DispatchInProgress;
    } else if d >= h {
      if h >= batch.allocatedBoxes.value {
        batch.status := DispatchCompleted;
      } else {
        batch.status := HarvestInProgress;
      }
    }
  }

  /**
   * `createGatePass`: on success the batch goes through `ApplyGatePass` and a
   * gate pass numbered from today's date and the number of stored gate passes
   * is stored; the costs are not recalculated. On any error nothing changes.
   */
  method CreateGatePass(db: Database, batch: Batch?, userId: Id, req: GatePassRequest, today: Date)
    returns (r: Result<GatePass, HarvestError>)
    modifies batch, db`gatePasses
    ensures batch == null ==> r == Err(BatchNotFound)
    ensures batch != null && userId >= |db.users| ==> r == Err(UserNotFound)
    ensures r.Err? ==> db.gatePasses == old(db.gatePasses) && (batch != null ==> batch.State() == old(batch.State()))
    ensures batch != null && userId < |db.users| ==>
      match ApplyGatePass(old(batch.State()), req.totalBoxes)
      case Err(e) => r == Err(e)
      case Ok(n) =>
        && batch.State() == n
        && r == Ok(GatePassRow(batch.id, GatePassNo(today, |old(db.gatePasses)|), req, userId))
        && db.gatePasses == old(db.gatePasses) + [r.value]
  {
    if batch == null {
      return Err(BatchNotFound);
    }
    if userId >= |db.users| {
      return Err(UserNotFound);
    }
    var check := ApplyGatePass(batch.State(), req.totalBoxes);
    if check.Err? {
      return Err(check.error);
    }
    WriteDispatchCounters(batch, req.totalBoxes);

    var row := GatePassRow(batch.id, GatePassNo(today, |db.gatePasses|), req, userId);
    db.gatePasses := db.gatePasses + [row];
    r := Ok(row);
  }

  /**
   * `receiveGatePass`: records the received count, time and receiver on the gate
   * pass. The shortage against the dispatched count is only logged, and no
   * batch counter changes.
   */
  method ReceiveGatePass(db: Database, gatePassId: Id, receivedBoxes: int, receivedById: Id, now: DateTime)
    returns (r: Result<GatePass, HarvestError>)
    modifies db`gatePasses
    ensures gatePassId >= |old(db.gatePasses)| ==> r == Err(GatePassNotFound)
    ensures gatePassId < |old(db.gatePasses)| && receivedById >= |db.users| ==> r == Err(UserNotFound)
    ensures r.Err? ==> db.gatePasses == old(db.gatePasses)
    ensures gatePassId < |old(db.gatePasses)| && receivedById < |db.users| ==>
      && r == Ok(Received(old(db.gatePasses)[gatePassId], receivedBoxes, receivedById, now))
      && db.gatePasses == old(db.gatePasses)[gatePassId := r.value]
  {
    if gatePassId >= |db.gatePasses| {
      return Err(GatePassNotFound);
    }
    if receivedById >= |db.users| {
      return Err(UserNotFound);
    }
    var g := db.gatePasses[gatePassId];
    g := g.(receivedBoxes := Some(receivedBoxes));
    g := g.(receivedAt := Some(now));
    g := g.(receivedBy := Some(receivedById));
    db.gatePasses := db.gatePasses[gatePassId := g];
    r := Ok(g);
  }
}
