/**
 * Inventory stock: each item has one stock row holding the total, available
 * and reserved quantities. Adding stock raises the total and the available
 * quantity; allocating to a batch moves quantity from available to reserved,
 * records the allocation and, for boxes, issues them to the batch's vendor
 * in the ledger. Every operation keeps total = available + reserved.
 * Quantities are not range-checked.
 */
module Inventory {
  import opened Common
  import opened Batches
  import opened Store

  datatype InventoryError =
    | DuplicateItemCode
    | ItemNotFound
    | StockNotFound
    | BatchNotFound
    | UserNotFound
      /** "Insufficient stock available. Available: <available>, Requested: <requested>" */
    | InsufficientStock(available: int, requested: int)

  /** The stock invariant: everything in stock is either available or reserved. */
  predicate Balanced(s: InventoryStock)
  {
    s.totalQuantity == s.availableQuantity + s.reservedQuantity
  }

  predicate AllBalanced(stocks: seq<InventoryStock>)
  {
    forall i :: 0 <= i < |stocks| ==> Balanced(stocks[i])
  }

  /** `existsByItemCode`. */
  predicate CodeTaken(items: seq<InventoryItem>, itemCode: string)
  {
    exists i :: 0 <= i < |items| && items[i].itemCode == itemCode
  }

  /** A stock row after `quantity` is added. */
  function Restocked(s: InventoryStock, quantity: int): InventoryStock
  {
    s.(totalQuantity := s.totalQuantity + quantity, availableQuantity := s.availableQuantity + quantity)
  }

  /** A stock row after `quantity` is reserved for a batch. */
  function Reserved(s: InventoryStock, quantity: int): InventoryStock
  {
    s.(availableQuantity := s.availableQuantity - quantity, reservedQuantity := s.reservedQuantity + quantity)
  }

  /** Adding stock keeps the invariant, raises total and available by the quantity and leaves reserved alone. */
  lemma RestockKeepsBalance(s: InventoryStock, quantity: int)
    requires Balanced(s)
    ensures Balanced(Restocked(s, quantity))
    ensures Restocked(s, quantity).totalQuantity - s.totalQuantity == quantity
    ensures Restocked(s, quantity).availableQuantity - s.availableQuantity == quantity
    ensures Restocked(s, quantity).reservedQuantity == s.reservedQuantity
    ensures Restocked(s, quantity).itemId == s.itemId
  {
  }

  /** Reserving keeps the invariant and the total: it only moves quantity from available to reserved. */
  lemma ReserveKeepsBalance(s: InventoryStock, quantity: int)
    requires Balanced(s)
    ensures Balanced(Reserved(s, quantity))
    ensures Reserved(s, quantity).totalQuantity == s.totalQuantity
    ensures s.availableQuantity - Reserved(s, quantity).availableQuantity == quantity
    ensures Reserved(s, quantity).reservedQuantity - s.reservedQuantity == quantity
    ensures Reserved(s, quantity).itemId == s.itemId
  {
  }

  /** Replacing one balanced row keeps every row balanced. */
  lemma UpdateKeepsAllBalanced(stocks: seq<InventoryStock>, k: nat, s: InventoryStock)
    requires k < |stocks| && AllBalanced(stocks) && Balanced(s)
    ensures AllBalanced(stocks[k := s])
  {
  }

  /**
   * With the guard passed and a non-negative request, a reservation leaves a
   * non-negative available quantity; with a negative request the guard lets
   * it through and the reserved quantity shrinks.
   */
  lemma GuardedReservation(s: InventoryStock, quantity: int)
    requires s.availableQuantity >= quantity
    ensures Reserved(s, quantity).availableQuantity >= 0
    ensures quantity < 0 ==> Reserved(s, quantity).reservedQuantity < s.reservedQuantity
  {
  }

  /** `getAvailableStock`: the item's available quantity, 0 when it has no stock row. */
  function AvailableStock(stocks: seq<InventoryStock>, itemId: Id): (n: int)
    ensures FindStock(stocks, itemId).None? ==> n == 0
    ensures FindStock(stocks, itemId).Some? ==> n == stocks[FindStock(stocks, itemId).value].availableQuantity
  {
    match FindStock(stocks, itemId)
    case None => 0
    case Some(k) => stocks[k].availableQuantity
  }

  /** Rewriting the item's own stock row with the same item keeps it the row found. */
  lemma FindStockAfterUpdate(stocks: seq<InventoryStock>, itemId: Id, s: InventoryStock)
    requires FindStock(stocks, itemId).Some? && s.itemId == itemId
    ensures FindStock(stocks[FindStock(stocks, itemId).value := s], itemId) == FindStock(stocks, itemId)
  {
    var k := FindStock(stocks, itemId).value;
    var t := stocks[k := s];
    assert t[k].itemId == itemId;
    assert forall j :: 0 <= j < k ==> t[j] == stocks[j];
  }

  /** Allocating q of an item lowers its available stock, as later read, by exactly q. */
  lemma AllocationLowersAvailable(stocks: seq<InventoryStock>, itemId: Id, quantity: int)
    requires FindStock(stocks, itemId).Some?
    ensures var k := FindStock(stocks, itemId).value;
      AvailableStock(stocks[k := Reserved(stocks[k], quantity)], itemId) == AvailableStock(stocks, itemId) - quantity
  {
    var k := FindStock(stocks, itemId).value;
    FindStockAfterUpdate(stocks, itemId, Reserved(stocks[k], quantity));
  }

  /**
   * `createItem`: a taken item code is refused and nothing is stored;
   * otherwise an active item is stored with the next id, with an empty stock
   * row of its own.
   */
  method CreateItem(db: Database, itemName: string, itemCode: string, category: string,
                    unitOfMeasure: string, unitCost: int)
    returns (r: Result<Id, InventoryError>)
    modifies db`items, db`stocks
    ensures r.Err? <==> CodeTaken(old(db.items), itemCode)
    ensures r.Err? ==> r.error == DuplicateItemCode && db.items == old(db.items) && db.stocks == old(db.stocks)
    ensures r.Ok? ==>
      && r.value == |old(db.items)|
      && db.items == old(db.items) + [InventoryItem(itemName, itemCode, category, unitOfMeasure, unitCost, true)]
      && db.stocks == old(db.stocks) + [InventoryStock(r.value, 0, 0, 0)]
    ensures AllBalanced(old(db.stocks)) ==> AllBalanced(db.stocks)
  {
    if CodeTaken(db.items, itemCode) {
      return Err(DuplicateItemCode);
    }
    var id := |db.items|;
    db.items := db.items + [InventoryItem(itemName, itemCode, category, unitOfMeasure, unitCost, true)];
    db.stocks := db.stocks + [InventoryStock(id, 0, 0, 0)];
    r := Ok(id);
  }

  /** `addStock`: the item and its stock row must exist; the row is restocked and no other row changes. */
  method AddStock(db: Database, itemId: Id, quantity: int) returns (r: Result<(), InventoryError>)
    modifies db`stocks
    ensures itemId >= |db.items| ==> r == Err(ItemNotFound)
    ensures itemId < |db.items| && FindStock(old(db.stocks), itemId).None? ==> r == Err(StockNotFound)
    ensures r.Err? ==> db.stocks == old(db.stocks)
    ensures r.Ok? <==> itemId < |db.items| && FindStock(old(db.stocks), itemId).Some?
    ensures r.Ok? ==>
      var k := FindStock(old(db.stocks), itemId).value;
      db.stocks == old(db.stocks)[k := Restocked(old(db.stocks)[k], quantity)]
    ensures AllBalanced(old(db.stocks)) ==> AllBalanced(db.stocks)
  {
    if itemId >= |db.items| {
      return Err(ItemNotFound);
    }
    var found := FindStock(db.stocks, itemId);
    if found.None? {
      return Err(StockNotFound);
    }
    var k := found.value;
    if AllBalanced(db.stocks) {
      RestockKeepsBalance(db.stocks[k], quantity);
      UpdateKeepsAllBalanced(db.stocks, k, Restocked(db.stocks[k], quantity));
    }
    db.stocks := db.stocks[k := Restocked(db.stocks[k], quantity)];
    r := Ok(());
  }

  /** The ledger rows an allocation appends: a BOX_ISSUED entry to the batch's vendor for boxes, none otherwise. */
  function IssueRows(item: InventoryItem, batchId: Id, vendorId: Option<Id>, quantity: int): (rows: seq<VendorLedger>)
    ensures |rows| <= 1
    ensures |rows| == 1 <==> item.category == "BOX"
    ensures |rows| == 1 ==>
      && rows[0].transactionType == BoxIssued && rows[0].quantity == Some(quantity)
      && rows[0].vendorId == vendorId && rows[0].batchId == Some(batchId)
      && rows[0].amount == None && rows[0].balanceBoxes == None
  {
    if item.category == "BOX" then
      [VendorLedger(vendorId, Some(batchId), BoxIssued, Some(quantity), None, None, None, "Allocated " + item.itemName)]
    else []
  }

  /** The checks of `allocateInventory`, in the service's order, before anything is written. */
  function AllocationCheck(db: Database, batch: Batch?, itemId: Id, quantity: int, allocatedById: Id)
    : (r: Result<nat, InventoryError>)
    reads db
    ensures r.Ok? <==>
      && batch != null && itemId < |db.items| && allocatedById < |db.users|
      && FindStock(db.stocks, itemId).Some?
      && db.stocks[FindStock(db.stocks, itemId).value].availableQuantity >= quantity
    ensures r.Ok? ==> r.value == FindStock(db.stocks, itemId).value
    ensures batch == null ==> r == Err(BatchNotFound)
    ensures r.Err? && r.error.InsufficientStock? ==>
      r.error == InsufficientStock(AvailableStock(db.stocks, itemId), quantity)
  {
    if batch == null then Err(BatchNotFound)
    else if itemId >= |db.items| then Err(ItemNotFound)
    else if allocatedById >= |db.users| then Err(UserNotFound)
    else match FindStock(db.stocks, itemId)
      case None => Err(StockNotFound)
      case Some(k) =>
        if db.stocks[k].availableQuantity < quantity then Err(InsufficientStock(db.stocks[k].availableQuantity, quantity))
        else Ok(k)
  }

  /**
   * `allocateInventory`. `batch` is the batch looked up by id, null when not
   * found. After the checks the stock row reserves the quantity, the
   * allocation is recorded and, for a BOX item, the boxes are issued in the
   * ledger. On an error nothing changes.
   */
  method AllocateInventory(db: Database, batch: Batch?, itemId: Id, quantity: int, allocatedById: Id,
                           notes: Option<string>)
    returns (r: Result<(), InventoryError>)
    modifies db`stocks, db`allocations, db`ledger
    ensures r.Err? <==> old(AllocationCheck(db, batch, itemId, quantity, allocatedById)).Err?
    ensures r.Err? ==>
      && r.error == old(AllocationCheck(db, batch, itemId, quantity, allocatedById)).error
      && db.stocks == old(db.stocks) && db.allocations == old(db.allocations) && db.ledger == old(db.ledger)
    ensures r.Ok? ==>
      var k := old(AllocationCheck(db, batch, itemId, quantity, allocatedById)).value;
      && db.stocks == old(db.stocks)[k := Reserved(old(db.stocks)[k], quantity)]
      && db.allocations == old(db.allocations) + [InventoryAllocation(batch.id, itemId, quantity, allocatedById, notes)]
      && db.ledger == old(db.ledger) + IssueRows(db.items[itemId], batch.id, batch.vendorId, quantity)
    ensures AllBalanced(old(db.stocks)) ==> AllBalanced(db.stocks)
    ensures old(db.Valid()) ==> db.Valid()
  {
    var check := AllocationCheck(db, batch, itemId, quantity, allocatedById);
    if check.Err? {
      return Err(check.error);
    }
    var k := check.value;
    if AllBalanced(db.stocks) {
      ReserveKeepsBalance(db.stocks[k], quantity);
      UpdateKeepsAllBalanced(db.stocks, k, Reserved(db.stocks[k], quantity));
    }
    db.stocks := db.stocks[k := Reserved(db.stocks[k], quantity)];
    db.allocations := db.allocations + [InventoryAllocation(batch.id, itemId, quantity, allocatedById, notes)];
    db.ledger := db.ledger + IssueRows(db.items[itemId], batch.id, batch.vendorId, quantity);
    r := Ok(());
  }
}
