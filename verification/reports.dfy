/**
 * The read-only reports: a vendor's box and labour balance as the report
 * shows it, the profitability of each sale against its batch's cost per box,
 * and the dashboard totals.
 */
module Reports {
  import opened Common
  import opened Money
  import opened Batches
  import opened BatchCosts
  import opened Store
  import Reconciliation
  import Harvest

  // ---------------------------------------------------------------------------
  // Vendor balance.

  datatype ReportBalance = ReportBalance(
    vendorId: Id,
    boxesIssued: int,
    boxesReturned: int,
    boxesPending: int,
    pendingLaborCost: int)

  /**
   * `getVendorBalance`: boxes issued less boxes returned (0 when there are
   * none), without damaged boxes, and the labour cost rows still PENDING on
   * the vendor's batches.
   */
  function VendorBalanceReport(ledger: seq<VendorLedger>, laborCosts: seq<LaborCost>, batches: seq<Batch>,
                               vendorId: Id): (b: ReportBalance)
    reads set x | x in batches
    ensures b.boxesIssued == LedgerQuantity(ledger, vendorId, BoxIssued)
    ensures b.boxesReturned == LedgerQuantity(ledger, vendorId, BoxReturned)
    ensures b.boxesPending == b.boxesIssued - b.boxesReturned
    ensures b.pendingLaborCost == SumPendingLabor(laborCosts, batches, vendorId)
  {
    var issued := LedgerQuantity(ledger, vendorId, BoxIssued);
    var returned := LedgerQuantity(ledger, vendorId, BoxReturned);
    ReportBalance(vendorId, issued, returned, issued - returned, SumPendingLabor(laborCosts, batches, vendorId))
  }

  /**
   * The report and the reconciliation disagree on pending boxes by exactly the
   * damaged boxes: the report does not subtract them.
   */
  lemma ReportPendingIgnoresDamage(ledger: seq<VendorLedger>, laborCosts: seq<LaborCost>, batches: seq<Batch>,
                                   vendorId: Id)
    ensures VendorBalanceReport(ledger, laborCosts, batches, vendorId).boxesPending
         == Reconciliation.Balance(ledger, vendorId).boxesPending + Reconciliation.Balance(ledger, vendorId).boxesDamaged
  {
  }

  /** Recording damaged boxes lowers the reconciliation's pending count but not the report's. */
  lemma DamageInvisibleToReport(ledger: seq<VendorLedger>, laborCosts: seq<LaborCost>, batches: seq<Batch>,
                                vendorId: Id, quantity: int)
    ensures var x := Reconciliation.DamagedEntry(ledger, vendorId, quantity, None);
      && VendorBalanceReport(ledger + [x], laborCosts, batches, vendorId).boxesPending
         == VendorBalanceReport(ledger, laborCosts, batches, vendorId).boxesPending
      && Reconciliation.Balance(ledger + [x], vendorId).boxesPending
         == Reconciliation.Balance(ledger, vendorId).boxesPending - quantity
  {
    var x := Reconciliation.DamagedEntry(ledger, vendorId, quantity, None);
    assert (ledger + [x])[..|ledger|] == ledger;
    Reconciliation.BalanceSnoc(ledger, x, vendorId);
  }

  // ---------------------------------------------------------------------------
  // Profitability.

  /** One line of the profitability report; money in hundredths, the margin in hundredths of a percent. */
  datatype ProfitLine = ProfitLine(
    batchId: Id,
    totalBoxes: int,
    costPerBox: int,
    salePricePerBox: int,
    totalCost: int,
    totalRevenue: int,
    netProfit: int,
    profitMargin: int,
    saleDate: Date,
    buyerName: string)

  /** The batch's final cost per box, 0 when it has no cost snapshot. */
  function CostPerBox(costs: seq<CostRow>, batchId: Id): int
  {
    match FindCostRow(costs, batchId)
    case None => 0
    case Some(k) => costs[k].figures.finalCostPerBox
  }

  /**
   * The margin: net profit × 100 / revenue at two decimals HALF_UP when the
   * revenue is positive, else 0. In hundredths both ways this is
   * net × 10000 / revenue.
   */
  function Margin(netProfit: int, revenue: int): int
  {
    if revenue > 0 then DivHalfUp(netProfit * 10000, revenue) else 0
  }

  /** The margin is the rounded percentage for positive revenue, 0 otherwise, and a loss mirrors a profit. */
  lemma MarginMeaning(netProfit: int, revenue: int)
    ensures revenue <= 0 ==> Margin(netProfit, revenue) == 0
    ensures revenue > 0 ==> RoundsHalfUp(netProfit * 10000, revenue, Margin(netProfit, revenue))
    ensures Margin(-netProfit, revenue) == -Margin(netProfit, revenue)
  {
    if revenue > 0 {
      DivHalfUpRounds(netProfit * 10000, revenue);
      assert (-netProfit) * 10000 == -(netProfit * 10000);
      DivHalfUpOdd(netProfit * 10000, revenue);
    }
  }

  /** A loss of 0.005 on 1.00 of revenue is -0.5% exactly; -1/3 of the revenue is -33.33%. */
  lemma MarginExamples()
    ensures Margin(-50, 10000) == -50
    ensures Margin(-1, 3) == -3333
  {
    DivHalfUpExact(-50, 10000);
    DivHalfUpRounds(-10000, 3);
    DivHalfUpUnique(-10000, 3, -3333);
  }

  /** The profitability line of one sale. */
  function LineOf(s: Sale, costs: seq<CostRow>): ProfitLine
  {
    var costPerBox := CostPerBox(costs, s.batchId);
    var totalCost := costPerBox * s.totalBoxes;
    var netProfit := s.grandTotal - totalCost;
    ProfitLine(s.batchId, s.totalBoxes, costPerBox, s.pricePerBox, totalCost, s.grandTotal, netProfit,
               Margin(netProfit, s.grandTotal), s.saleDate, s.buyerName)
  }

  /** `getProfitabilityReport`: one line per sale, in order. */
  function Profitability(sales: seq<Sale>, costs: seq<CostRow>): (lines: seq<ProfitLine>)
    ensures |lines| == |sales|
    ensures forall i :: 0 <= i < |sales| ==> lines[i] == LineOf(sales[i], costs)
  {
    if |sales| == 0 then [] else Profitability(sales[..|sales| - 1], costs) + [LineOf(sales[|sales| - 1], costs)]
  }

  /**
   * Each line's figures tie up: the cost is cost per box times the boxes sold,
   * revenue is the sale's grand total, profit plus cost is the revenue, and a
   * batch without a cost snapshot is all profit.
   */
  lemma ProfitLinesTieUp(sales: seq<Sale>, costs: seq<CostRow>, i: nat)
    requires i < |sales|
    ensures var l := Profitability(sales, costs)[i];
      && l.totalRevenue == sales[i].grandTotal
      && l.totalCost == l.costPerBox * sales[i].totalBoxes
      && l.netProfit + l.totalCost == l.totalRevenue
      && (FindCostRow(costs, sales[i].batchId).None? ==> l.costPerBox == 0 && l.netProfit == l.totalRevenue)
      && (FindCostRow(costs, sales[i].batchId).Some? ==>
            l.costPerBox == costs[FindCostRow(costs, sales[i].batchId).value].figures.finalCostPerBox)
  {
  }

  // ---------------------------------------------------------------------------
  // Dashboard.

  datatype DashboardStats = DashboardStats(
    totalFarms: nat,
    totalBatches: nat,
    activeBatches: nat,
    completedBatches: nat,
    totalBoxesInStock: int,
    totalFilledBoxes: int,
    totalSales: int,
    totalRevenue: int,
    totalProfit: int)

  /** `countByStatus`. */
  function CountStatus(batches: seq<Batch>, status: BatchStatus): (n: nat)
    reads set b | b in batches
    ensures n <= |batches|
  {
    if |batches| == 0 then 0
    else CountStatus(batches[..|batches| - 1], status) + (if batches[|batches| - 1].status == status then 1 else 0)
  }

  /**
   * `getDashboardStats`, without the two averages. `farmCount` is the number of
   * farms. Active batches are those IN_PROGRESS; revenue is the sum of grand
   * totals and profit is revenue less the sum of all cost snapshots' totals.
   */
  function Dashboard(db: Database, farmCount: nat): (d: DashboardStats)
    reads db, set b | b in db.batches
    ensures d.totalBatches == |db.batches|
    ensures d.activeBatches == CountStatus(db.batches, InProgress)
    ensures d.completedBatches == CountStatus(db.batches, Completed)
    ensures d.activeBatches + d.completedBatches <= d.totalBatches
    ensures d.totalSales == d.totalRevenue == SumGrandTotal(db.sales)
    ensures d.totalProfit == SumGrandTotal(db.sales) - SumTotalCosts(db.batchCosts)
    ensures d.totalBoxesInStock == SumAvailable(db.stocks)
    ensures d.totalFilledBoxes == SumCompletedBoxes(db.batches)
  {
    StatusCountsWithinTotal(db.batches, InProgress, Completed);
    var revenue := SumGrandTotal(db.sales);
    DashboardStats(farmCount, |db.batches|, CountStatus(db.batches, InProgress), CountStatus(db.batches, Completed),
                   SumAvailable(db.stocks), SumCompletedBoxes(db.batches), revenue, revenue,
                   revenue - SumTotalCosts(db.batchCosts))
  }

  /** A batch has one status, so the counts of two different statuses never exceed the batch count. */
  lemma {:induction false} StatusCountsWithinTotal(batches: seq<Batch>, s1: BatchStatus, s2: BatchStatus)
    requires s1 != s2
    ensures CountStatus(batches, s1) + CountStatus(batches, s2) <= |batches|
  {
    if |batches| > 0 {
      StatusCountsWithinTotal(batches[..|batches| - 1], s1, s2);
    }
  }

  /** A batch that is not COMPLETED, or whose actual count is null, adds nothing to the filled boxes. */
  lemma NullActualAddsNothing(batches: seq<Batch>, b: Batch)
    requires b.status != Completed || b.actualBoxes.None?
    ensures SumCompletedBoxes(batches + [b]) == SumCompletedBoxes(batches)
  {
    assert (batches + [b])[..|batches|] == batches;
  }

  /** Where no COMPLETED batch has an actual count, the filled boxes are reported as 0. */
  lemma {:induction false} NoCountedBatchNoFilledBoxes(batches: seq<Batch>)
    requires forall i :: 0 <= i < |batches| && batches[i].status == Completed ==> batches[i].actualBoxes.None?
    ensures SumCompletedBoxes(batches) == 0
  {
    if |batches| > 0 {
      NoCountedBatchNoFilledBoxes(batches[..|batches| - 1]);
    }
  }

  /** A stored sale adds its grand total to the revenue sum. */
  lemma SumGrandTotalSnoc(sales: seq<Sale>, s: Sale)
    ensures SumGrandTotal(sales + [s]) == SumGrandTotal(sales) + s.grandTotal
  {
    assert (sales + [s])[..|sales|] == sales;
  }

  /** Replacing one snapshot moves the cost sum by the change in that snapshot's total. */
  lemma {:induction false} SumTotalCostsUpdate(rows: seq<CostRow>, i: nat, row: CostRow)
    requires i < |rows|
    ensures SumTotalCosts(rows[i := row]) == SumTotalCosts(rows) - rows[i].figures.totalCost + row.figures.totalCost
  {
    var n := |rows| - 1;
    if i < n {
      assert rows[i := row][..n] == rows[..n][i := row];
      SumTotalCostsUpdate(rows[..n], i, row);
    } else {
      assert rows[i := row][..n] == rows[..n];
    }
  }

  /** A batch's total cost before a recalculation: its snapshot's, or 0 when it has none. */
  function SnapshotTotal(rows: seq<CostRow>, batchId: Id): int
  {
    match FindCostRow(rows, batchId)
    case Some(i) => rows[i].figures.totalCost
    case None => 0
  }

  /**
   * Saving a batch's new figures moves the cost sum by exactly the change in
   * that batch's total cost, whether its snapshot is updated or created.
   */
  lemma SaveFiguresShiftsCostSum(rows: seq<CostRow>, batchId: Id, f: CostFigures, now: DateTime)
    ensures SumTotalCosts(Harvest.SaveFigures(rows, batchId, f, now))
         == SumTotalCosts(rows) - SnapshotTotal(rows, batchId) + f.totalCost
  {
    match FindCostRow(rows, batchId)
    case Some(i) =>
      SumTotalCostsUpdate(rows, i, rows[i].(figures := f, calculatedAt := Some(now)));
    case None =>
      var row := CostRow(Some(|rows|), Some(batchId), f, Some(now), None);
      assert (rows + [row])[..|rows|] == rows;
  }

  /**
   * The dashboard after a stored sale (`createSale` changes nothing else):
   * sales, revenue and profit rise by the sale's grand total and every other
   * figure stays.
   */
  twostate lemma SaleRaisesRevenueAndProfit(db: Database, farmCount: nat, s: Sale)
    requires db.sales == old(db.sales) + [s]
    requires db.batches == old(db.batches) && db.batchCosts == old(db.batchCosts) && db.stocks == old(db.stocks)
    requires forall b :: b in old(db.batches) ==> unchanged(b)
    ensures var d0 := old(Dashboard(db, farmCount));
      Dashboard(db, farmCount) == d0.(totalSales := d0.totalSales + s.grandTotal,
                                       totalRevenue := d0.totalRevenue + s.grandTotal,
                                       totalProfit := d0.totalProfit + s.grandTotal)
  {
    SumGrandTotalSnoc(old(db.sales), s);
  }

  /**
   * The dashboard after a cost recalculation of one batch (`recalculateBatchCosts`
   * changes only the snapshots): profit falls by the rise in that batch's total
   * cost and every other figure stays.
   */
  twostate lemma RecalculationMovesOnlyProfit(db: Database, farmCount: nat, batchId: Id, f: CostFigures, now: DateTime)
    requires db.batchCosts == Harvest.SaveFigures(old(db.batchCosts), batchId, f, now)
    requires db.batches == old(db.batches) && db.sales == old(db.sales) && db.stocks == old(db.stocks)
    requires forall b :: b in old(db.batches) ==> unchanged(b)
    ensures var d0 := old(Dashboard(db, farmCount));
      Dashboard(db, farmCount)
        == d0.(totalProfit := d0.totalProfit - (f.totalCost - SnapshotTotal(old(db.batchCosts), batchId)))
  {
    SaveFiguresShiftsCostSum(old(db.batchCosts), batchId, f, now);
  }

  /** With nothing stored every figure but the farm count is zero. */
  lemma EmptyDashboard(db: Database, farmCount: nat)
    requires db.batches == [] && db.sales == [] && db.batchCosts == [] && db.stocks == []
    ensures Dashboard(db, farmCount) == DashboardStats(farmCount, 0, 0, 0, 0, 0, 0, 0, 0)
  {
  }
}
