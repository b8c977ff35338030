/**
 * The persistent state the services share, as in-memory tables: one sequence
 * of rows per repository, where a row's id is its position in the table.
 * The aggregate queries of the repositories appear here as sums that are 0 on
 * an empty selection (their JPQL uses COALESCE(SUM(..), 0)), and the
 * single-row finders as searches for the first matching row.
 */
module Store {
  import opened Common
  import opened Batches
  import opened BatchCosts
  import opened Farms

  datatype UserRole = SuperAdmin | Manager | StoreKeeper | Vendor

  datatype User = User(email: string, fullName: string, role: UserRole, isActive: bool)

  /**
   * A payment status, by enum constant name (the enum itself is not part of
   * this model; PENDING is the default of every row that has one).
   */
  datatype PaymentStatus = PaymentStatus(name: string)

  const PENDING := PaymentStatus("PENDING")

  datatype TransportType = Inward | Outward

  datatype DailyHarvestReport = DailyHarvestReport(
    batchId: Id,
    reportDate: Date,
    boxesPacked: int,
    boxesWasted: int,
    laborCount: int,
    notes: Option<string>,
    createdBy: Id)

  /**
   * A labour cost row. It names no vendor: the pending-amount query reaches the
   * vendor through the row's batch.
   */
  datatype LaborCost = LaborCost(
    reportId: Id,
    batchId: Id,
    totalAmount: int,
    costPerBox: int,
    paymentStatus: PaymentStatus,
    paidAmount: int,
    notes: Option<string>,
    createdBy: Id)

  datatype TransportCost = TransportCost(
    batchId: Id,
    costType: TransportType,
    vendorName: Option<string>,
    vehicleNumber: Option<string>,
    driverName: Option<string>,
    driverPhone: Option<string>,
    totalCost: int,
    costPerBox: int,
    distanceKm: Option<int>,
    notes: Option<string>,
    createdBy: Id)

  datatype GatePass = GatePass(
    batchId: Id,
    gatePassNo: string,
    truckNumber: string,
    driverName: string,
    driverPhone: Option<string>,
    totalBoxes: int,
    dispatchDate: DateTime,
    notes: Option<string>,
    createdBy: Id,
    receivedBoxes: Option<int>,
    receivedAt: Option<DateTime>,
    receivedBy: Option<Id>)

  /** An inventory item; `category` is the name of its category constant. */
  datatype InventoryItem = InventoryItem(
    itemName: string,
    itemCode: string,
    category: string,
    unitOfMeasure: string,
    unitCost: int,
    isActive: bool)

  datatype InventoryStock = InventoryStock(
    itemId: Id,
    totalQuantity: int,
    availableQuantity: int,
    reservedQuantity: int)

  datatype InventoryAllocation = InventoryAllocation(
    batchId: Id,
    itemId: Id,
    quantity: int,
    allocatedBy: Id,
    notes: Option<string>)

  /** The five transaction-type strings the ledger is written with. */
  datatype TxType = BoxIssued | BoxReturned | BoxDamaged | LaborCostEntry | LaborPayment

  datatype VendorLedger = VendorLedger(
    vendorId: Option<Id>,
    batchId: Option<Id>,
    transactionType: TxType,
    quantity: Option<int>,
    amount: Option<int>,
    balanceBoxes: Option<int>,
    balanceAmount: Option<int>,
    notes: string)

  /** A sale type, by enum constant name (the enum is not part of this model). */
  datatype SaleType = SaleType(name: string)

  /**
   * A sale. Money is in hundredths, the tax percentage in hundredths of a
   * percent and the exchange rate in ten-thousandths, the scales of their
   * columns.
   */
  datatype Sale = Sale(
    batchId: Id,
    invoiceNumber: string,
    buyerName: string,
    buyerContact: Option<string>,
    buyerAddress: Option<string>,
    saleType: SaleType,
    totalBoxes: int,
    pricePerBox: int,
    currency: Option<string>,
    exchangeRate: int,
    totalAmount: int,
    taxAmount: int,
    taxPercentage: Option<int>,
    grandTotal: int,
    paymentStatus: PaymentStatus,
    paidAmount: int,
    saleDate: Date,
    createdBy: Id)

  datatype FarmPhoto = FarmPhoto(inspectionId: Id, photoUrl: string, photoType: string, uploadedBy: Id)

  class Database {
    var users: seq<User>
    var batches: seq<Batch>
    var inspections: seq<FarmInspection>
    var photos: seq<FarmPhoto>
    var reports: seq<DailyHarvestReport>
    var laborCosts: seq<LaborCost>
    var transportCosts: seq<TransportCost>
    var gatePasses: seq<GatePass>
    var items: seq<InventoryItem>
    var stocks: seq<InventoryStock>
    var allocations: seq<InventoryAllocation>
    var ledger: seq<VendorLedger>
    var batchCosts: seq<CostRow>
    var sales: seq<Sale>

    /** Referential integrity the cost roll-up relies on: every allocation names a stored item. */
    predicate Valid()
      reads this
    {
      forall a :: a in allocations ==> a.itemId < |items|
    }

    /** An empty store. */
    constructor ()
      ensures Valid()
      ensures users == [] && batches == [] && inspections == [] && photos == []
      ensures reports == [] && laborCosts == [] && transportCosts == [] && gatePasses == []
      ensures items == [] && stocks == [] && allocations == [] && ledger == []
      ensures batchCosts == [] && sales == []
    {
      users, batches, inspections, photos := [], [], [], [];
      reports, laborCosts, transportCosts, gatePasses := [], [], [], [];
      items, stocks, allocations, ledger := [], [], [], [];
      batchCosts, sales := [], [];
    }
  }

  // ---------------------------------------------------------------------------
  // Aggregate queries. Each sums over the rows of a table that match a
  // selection, recursing on the last row so that appending a row adds its
  // term.

  /** `sumBoxesPackedByBatch`. */
  function SumBoxesPacked(reports: seq<DailyHarvestReport>, batchId: Id): int
  {
    if |reports| == 0 then 0
    else
      var last := reports[|reports| - 1];
      SumBoxesPacked(reports[..|reports| - 1], batchId) + (if last.batchId == batchId then last.boxesPacked else 0)
  }

  /** Appending a report adds its packed boxes to its own batch's sum and nothing to another's. */
  lemma SumBoxesPackedSnoc(reports: seq<DailyHarvestReport>, r: DailyHarvestReport, batchId: Id)
    ensures SumBoxesPacked(reports + [r], batchId)
         == SumBoxesPacked(reports, batchId) + (if r.batchId == batchId then r.boxesPacked else 0)
  {
    assert (reports + [r])[..|reports|] == reports;
  }

  /** `sumBoxesWastedByBatch`. */
  function SumBoxesWasted(reports: seq<DailyHarvestReport>, batchId: Id): int
  {
    if |reports| == 0 then 0
    else
      var last := reports[|reports| - 1];
      SumBoxesWasted(reports[..|reports| - 1], batchId) + (if last.batchId == batchId then last.boxesWasted else 0)
  }

  /** `sumCostByBatchAndType`. */
  function SumTransportCost(costs: seq<TransportCost>, batchId: Id, costType: TransportType): int
  {
    if |costs| == 0 then 0
    else
      var last := costs[|costs| - 1];
      SumTransportCost(costs[..|costs| - 1], batchId, costType)
        + (if last.batchId == batchId && last.costType == costType then last.totalCost else 0)
  }

  /** `sumTotalAmountByBatch`. */
  function SumLaborAmount(costs: seq<LaborCost>, batchId: Id): int
  {
    if |costs| == 0 then 0
    else
      var last := costs[|costs| - 1];
      SumLaborAmount(costs[..|costs| - 1], batchId) + (if last.batchId == batchId then last.totalAmount else 0)
  }

  /**
   * `sumPendingAmountByVendor`: the total of PENDING labour cost rows whose
   * batch (looked up by id in `batches`) belongs to the vendor.
   */
  function SumPendingLabor(costs: seq<LaborCost>, batches: seq<Batch>, vendorId: Id): int
    reads set b | b in batches
  {
    if |costs| == 0 then 0
    else
      var last := costs[|costs| - 1];
      var ofVendor := last.batchId < |batches| && batches[last.batchId].vendorId == Some(vendorId);
      SumPendingLabor(costs[..|costs| - 1], batches, vendorId)
        + (if ofVendor && last.paymentStatus == PENDING then last.totalAmount else 0)
  }

  /** `sumReceivedBoxesByBatch`: gate passes not yet received contribute nothing. */
  function SumReceivedBoxes(passes: seq<GatePass>, batchId: Id): int
  {
    if |passes| == 0 then 0
    else
      var last := passes[|passes| - 1];
      SumReceivedBoxes(passes[..|passes| - 1], batchId)
        + (if last.batchId == batchId && last.receivedBoxes.Some? then last.receivedBoxes.value else 0)
  }

  /** The material cost of a batch: unit cost times quantity, summed over its allocations. */
  function MaterialCost(allocations: seq<InventoryAllocation>, items: seq<InventoryItem>, batchId: Id): int
    requires forall a :: a in allocations ==> a.itemId < |items|
  {
    if |allocations| == 0 then 0
    else
      var last := allocations[|allocations| - 1];
      MaterialCost(allocations[..|allocations| - 1], items, batchId)
        + (if last.batchId == batchId then items[last.itemId].unitCost * last.quantity else 0)
  }

  /** Quantities of a batch's allocations whose item is in the BOX category. */
  function BoxesAllocated(allocations: seq<InventoryAllocation>, items: seq<InventoryItem>, batchId: Id): int
    requires forall a :: a in allocations ==> a.itemId < |items|
  {
    if |allocations| == 0 then 0
    else
      var last := allocations[|allocations| - 1];
      BoxesAllocated(allocations[..|allocations| - 1], items, batchId)
        + (if last.batchId == batchId && items[last.itemId].category == "BOX" then last.quantity else 0)
  }

  /**
   * The ledger sums by vendor and transaction type: quantities of BOX_ISSUED or
   * BOX_RETURNED entries (SQL SUM skips nulls).
   */
  function LedgerQuantity(ledger: seq<VendorLedger>, vendorId: Id, t: TxType): int
  {
    if |ledger| == 0 then 0
    else
      var last := ledger[|ledger| - 1];
      LedgerQuantity(ledger[..|ledger| - 1], vendorId, t)
        + (if last.vendorId == Some(vendorId) && last.transactionType == t && last.quantity.Some?
           then last.quantity.value else 0)
  }

  /** `sumLaborCostByVendor` with the type as a parameter: amounts of the vendor's entries of type `t`. */
  function LedgerAmount(ledger: seq<VendorLedger>, vendorId: Id, t: TxType): int
  {
    if |ledger| == 0 then 0
    else
      var last := ledger[|ledger| - 1];
      LedgerAmount(ledger[..|ledger| - 1], vendorId, t)
        + (if last.vendorId == Some(vendorId) && last.transactionType == t && last.amount.Some?
           then last.amount.value else 0)
  }

  /** `sumTotalRevenue`: the grand totals of all sales. */
  function SumGrandTotal(sales: seq<Sale>): int
  {
    if |sales| == 0 then 0 else SumGrandTotal(sales[..|sales| - 1]) + sales[|sales| - 1].grandTotal
  }

  /** `sumTotalCosts`: the total costs of all cost snapshots. */
  function SumTotalCosts(rows: seq<CostRow>): int
  {
    if |rows| == 0 then 0 else SumTotalCosts(rows[..|rows| - 1]) + rows[|rows| - 1].figures.totalCost
  }

  /** `sumAvailableQuantity`: available quantities of all stock rows. */
  function SumAvailable(stocks: seq<InventoryStock>): int
  {
    if |stocks| == 0 then 0 else SumAvailable(stocks[..|stocks| - 1]) + stocks[|stocks| - 1].availableQuantity
  }

  /** `sumCompletedBoxes`: actual boxes of COMPLETED batches, null counters skipped. */
  function SumCompletedBoxes(batches: seq<Batch>): int
    reads set b | b in batches
  {
    if |batches| == 0 then 0
    else
      var last := batches[|batches| - 1];
      SumCompletedBoxes(batches[..|batches| - 1])
        + (if last.status == Completed && last.actualBoxes.Some? then last.actualBoxes.value else 0)
  }

  // ---------------------------------------------------------------------------
  // Single-row finders.
  //
  // Each derived query gets its own finder, named after it, rather than one
  // generic search taking a key function: a first-order match on the row's own
  // field keeps the contracts and the lemmas that use them free of function
  // values, so the verifier never has to reason about which function was passed.

  /** `findByBatchId` on the cost snapshots: the position of the first snapshot of the batch. */
  function FindCostRow(rows: seq<CostRow>, batchId: Id): (r: Option<nat>)
    ensures r.Some? ==> r.value < |rows| && rows[r.value].batchId == Some(batchId)
    ensures r.Some? ==> forall j :: 0 <= j < r.value ==> rows[j].batchId != Some(batchId)
    ensures r.None? ==> forall j :: 0 <= j < |rows| ==> rows[j].batchId != Some(batchId)
  {
    if |rows| == 0 then None
    else if rows[0].batchId == Some(batchId) then Some(0)
    else
      match FindCostRow(rows[1..], batchId)
      case None => None
      case Some(i) => Some(i + 1)
  }

  /** `findByItemId` on the stock rows: the position of the first stock row of the item. */
  function FindStock(stocks: seq<InventoryStock>, itemId: Id): (r: Option<nat>)
    ensures r.Some? ==> r.value < |stocks| && stocks[r.value].itemId == itemId
    ensures r.Some? ==> forall j :: 0 <= j < r.value ==> stocks[j].itemId != itemId
    ensures r.None? ==> forall j :: 0 <= j < |stocks| ==> stocks[j].itemId != itemId
  {
    if |stocks| == 0 then None
    else if stocks[0].itemId == itemId then Some(0)
    else
      match FindStock(stocks[1..], itemId)
      case None => None
      case Some(i) => Some(i + 1)
  }

  /** `findByEmail`: the position of the first user with the email. */
  function FindUserByEmail(users: seq<User>, email: string): (r: Option<nat>)
    ensures r.Some? ==> r.value < |users| && users[r.value].email == email
    ensures r.Some? ==> forall j :: 0 <= j < r.value ==> users[j].email != email
    ensures r.None? ==> forall j :: 0 <= j < |users| ==> users[j].email != email
  {
    if |users| == 0 then None
    else if users[0].email == email then Some(0)
    else
      match FindUserByEmail(users[1..], email)
      case None => None
      case Some(i) => Some(i + 1)
  }
}
