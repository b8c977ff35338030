/**
 * The vendor ledger. Every box and labour movement with a vendor is an
 * appended entry; a vendor's balance is recomputed from the entries: boxes
 * pending are those issued less those returned and damaged, and the pending
 * labour cost is the sum of LABOR_COST entries. Each recording operation
 * stores the balance it computes, guarding returns against more boxes than
 * are pending and payments against more than the pending labour cost.
 */
module Reconciliation {
  import opened Common
  import opened Codes
  import opened Store

  datatype LedgerError =
    | VendorNotFound
      /** "Cannot return <requested> boxes. Vendor only has <pending> boxes pending." (INSUFFICIENT_BOXES) */
    | InsufficientBoxes(requested: int, pending: int)
      /** "Payment amount (<amount>) exceeds pending labor cost (<pending>)" (OVERPAYMENT) */
    | Overpayment(amount: int, pending: int)

  datatype VendorBalance = VendorBalance(
    vendorId: Id,
    boxesIssued: int,
    boxesReturned: int,
    boxesDamaged: int,
    boxesPending: int,
    pendingLaborCost: int)

  // ---------------------------------------------------------------------------
  // Damaged boxes, as the stream over the vendor's entries computes them.

  /** `findByVendorId`: the vendor's entries, in ledger order. */
  function VendorEntries(ledger: seq<VendorLedger>, vendorId: Id): (es: seq<VendorLedger>)
    ensures |es| <= |ledger|
  {
    if |ledger| == 0 then []
    else (if ledger[0].vendorId == Some(vendorId) then [ledger[0]] else []) + VendorEntries(ledger[1..], vendorId)
  }

  /** The stream's filter and sum: quantities of BOX_DAMAGED entries, a missing quantity counting 0. */
  function DamagedQuantity(entries: seq<VendorLedger>): int
  {
    if |entries| == 0 then 0
    else
      (if entries[0].transactionType == BoxDamaged then entries[0].quantity.GetOr(0) else 0)
        + DamagedQuantity(entries[1..])
  }

  /** `sumDamagedBoxesByVendor`. */
  function SumDamagedBoxes(ledger: seq<VendorLedger>, vendorId: Id): int
  {
    DamagedQuantity(VendorEntries(ledger, vendorId))
  }

  lemma {:induction false} VendorEntriesSnoc(ledger: seq<VendorLedger>, x: VendorLedger, vendorId: Id)
    ensures VendorEntries(ledger + [x], vendorId)
         == VendorEntries(ledger, vendorId) + (if x.vendorId == Some(vendorId) then [x] else [])
  {
    if |ledger| > 0 {
      assert (ledger + [x])[1..] == ledger[1..] + [x];
      VendorEntriesSnoc(ledger[1..], x, vendorId);
    }
  }

  lemma {:induction false} DamagedQuantityAppend(a: seq<VendorLedger>, b: seq<VendorLedger>)
    ensures DamagedQuantity(a + b) == DamagedQuantity(a) + DamagedQuantity(b)
  {
    if |a| > 0 {
      assert (a + b)[1..] == a[1..] + b;
      DamagedQuantityAppend(a[1..], b);
    } else {
      assert a + b == b;
    }
  }

  /**
   * The stream over the vendor's entries gives the same damaged total as the
   * grouped sum over the whole ledger: the vendor's BOX_DAMAGED quantities,
   * nulls skipped.
   */
  lemma {:induction false} SumDamagedIsLedgerSum(ledger: seq<VendorLedger>, vendorId: Id)
    ensures SumDamagedBoxes(ledger, vendorId) == LedgerQuantity(ledger, vendorId, BoxDamaged)
  {
    if |ledger| > 0 {
      var init, x := ledger[..|ledger| - 1], ledger[|ledger| - 1];
      assert ledger == init + [x];
      SumDamagedIsLedgerSum(init, vendorId);
      VendorEntriesSnoc(init, x, vendorId);
      DamagedQuantityAppend(VendorEntries(init, vendorId), if x.vendorId == Some(vendorId) then [x] else []);
    }
  }

  // ---------------------------------------------------------------------------
  // Balances.

  /**
   * `calculateVendorBalance`: the issued, returned and damaged totals (0 when
   * there are none), the pending boxes as issued less returned less damaged,
   * and the pending labour cost as the sum of LABOR_COST amounts.
   */
  function Balance(ledger: seq<VendorLedger>, vendorId: Id): (b: VendorBalance)
    ensures b.vendorId == vendorId
    ensures b.boxesIssued == LedgerQuantity(ledger, vendorId, BoxIssued)
    ensures b.boxesReturned == LedgerQuantity(ledger, vendorId, BoxReturned)
    ensures b.boxesDamaged == LedgerQuantity(ledger, vendorId, BoxDamaged)
    ensures b.boxesPending == b.boxesIssued - b.boxesReturned - b.boxesDamaged
    ensures b.pendingLaborCost == LedgerAmount(ledger, vendorId, LaborCostEntry)
  {
    SumDamagedIsLedgerSum(ledger, vendorId);
    var issued := LedgerQuantity(ledger, vendorId, BoxIssued);
    var returned := LedgerQuantity(ledger, vendorId, BoxReturned);
    var damaged := SumDamagedBoxes(ledger, vendorId);
    VendorBalance(vendorId, issued, returned, damaged, issued - returned - damaged,
                  LedgerAmount(ledger, vendorId, LaborCostEntry))
  }

  /** How an entry moves its vendor's pending boxes. */
  function BoxDelta(x: VendorLedger): int
  {
    match x.transactionType
    case BoxIssued => x.quantity.GetOr(0)
    case BoxReturned => -x.quantity.GetOr(0)
    case BoxDamaged => -x.quantity.GetOr(0)
    case _ => 0
  }

  /** How an entry moves its vendor's pending labour cost: only LABOR_COST entries count. */
  function LaborDelta(x: VendorLedger): int
  {
    if x.transactionType == LaborCostEntry then x.amount.GetOr(0) else 0
  }

  /**
   * Appending an entry moves its own vendor's balance by the entry's deltas
   * and leaves every other vendor's balance alone.
   */
  lemma BalanceSnoc(ledger: seq<VendorLedger>, x: VendorLedger, vendorId: Id)
    ensures x.vendorId == Some(vendorId) ==>
      && Balance(ledger + [x], vendorId).boxesPending == Balance(ledger, vendorId).boxesPending + BoxDelta(x)
      && Balance(ledger + [x], vendorId).pendingLaborCost == Balance(ledger, vendorId).pendingLaborCost + LaborDelta(x)
    ensures x.vendorId != Some(vendorId) ==> Balance(ledger + [x], vendorId) == Balance(ledger, vendorId)
  {
    assert (ledger + [x])[..|ledger|] == ledger;
  }

  // ---------------------------------------------------------------------------
  // The entries each recording operation appends.

  /** The BOX_ISSUED entry: the balance is the pending count plus the quantity; no batch is attached. */
  function IssueEntry(ledger: seq<VendorLedger>, vendorId: Id, quantity: int, notes: Option<string>): VendorLedger
  {
    VendorLedger(Some(vendorId), None, BoxIssued, Some(quantity), None,
                 Some(Balance(ledger, vendorId).boxesPending + quantity), None, notes.GetOr("Boxes issued to vendor"))
  }

  function ReturnEntry(ledger: seq<VendorLedger>, vendorId: Id, quantity: int, notes: Option<string>): VendorLedger
  {
    VendorLedger(Some(vendorId), None, BoxReturned, Some(quantity), None,
                 Some(Balance(ledger, vendorId).boxesPending - quantity), None, notes.GetOr("Filled boxes returned"))
  }

  function DamagedEntry(ledger: seq<VendorLedger>, vendorId: Id, quantity: int, notes: Option<string>): VendorLedger
  {
    VendorLedger(Some(vendorId), None, BoxDamaged, Some(quantity), None,
                 Some(Balance(ledger, vendorId).boxesPending - quantity), None, notes.GetOr("Boxes damaged/wasted"))
  }

  function LaborCostEntryRow(ledger: seq<VendorLedger>, vendorId: Id, amount: int, notes: Option<string>): VendorLedger
  {
    VendorLedger(Some(vendorId), None, LaborCostEntry, None, Some(amount), None,
                 Some(Balance(ledger, vendorId).pendingLaborCost + amount), notes.GetOr("Labor cost added"))
  }

  function PaymentEntry(ledger: seq<VendorLedger>, vendorId: Id, amount: int, notes: Option<string>): VendorLedger
  {
    VendorLedger(Some(vendorId), None, LaborPayment, None, Some(amount), None,
                 Some(Balance(ledger, vendorId).pendingLaborCost - amount), notes.GetOr("Labor payment made"))
  }

  /**
   * Each box entry stores the balance that recomputing from the ledger gives
   * once it is appended.
   */
  lemma BoxEntriesRecordCurrentBalance(ledger: seq<VendorLedger>, vendorId: Id, quantity: int, notes: Option<string>)
    ensures var x := IssueEntry(ledger, vendorId, quantity, notes);
      Balance(ledger + [x], vendorId).boxesPending == x.balanceBoxes.value
    ensures var x := ReturnEntry(ledger, vendorId, quantity, notes);
      Balance(ledger + [x], vendorId).boxesPending == x.balanceBoxes.value
    ensures var x := DamagedEntry(ledger, vendorId, quantity, notes);
      Balance(ledger + [x], vendorId).boxesPending == x.balanceBoxes.value
  {
    BalanceSnoc(ledger, IssueEntry(ledger, vendorId, quantity, notes), vendorId);
    BalanceSnoc(ledger, ReturnEntry(ledger, vendorId, quantity, notes), vendorId);
    BalanceSnoc(ledger, DamagedEntry(ledger, vendorId, quantity, notes), vendorId);
  }

  /** A labour-cost entry stores the pending labour cost recomputed after it. */
  lemma LaborCostRecordsCurrentBalance(ledger: seq<VendorLedger>, vendorId: Id, amount: int, notes: Option<string>)
    ensures var x := LaborCostEntryRow(ledger, vendorId, amount, notes);
      Balance(ledger + [x], vendorId).pendingLaborCost == x.balanceAmount.value
  {
    BalanceSnoc(ledger, LaborCostEntryRow(ledger, vendorId, amount, notes), vendorId);
  }

  /**
   * A payment leaves the recomputed pending labour cost where it was: only
   * LABOR_COST entries are summed. Its stored balance therefore differs from
   * the recomputed one whenever the amount is not zero.
   */
  lemma PaymentsNeverLowerPending(ledger: seq<VendorLedger>, vendorId: Id, amount: int, notes: Option<string>)
    ensures var x := PaymentEntry(ledger, vendorId, amount, notes);
      && Balance(ledger + [x], vendorId).pendingLaborCost == Balance(ledger, vendorId).pendingLaborCost
      && (amount != 0 ==> Balance(ledger + [x], vendorId).pendingLaborCost != x.balanceAmount.value)
  {
    BalanceSnoc(ledger, PaymentEntry(ledger, vendorId, amount, notes), vendorId);
  }

  /**
   * So the overpayment guard does not stop paying the same cost twice: after
   * a payment of the whole pending cost, a second one passes the guard again.
   */
  lemma RepeatedPaymentPassesGuard(ledger: seq<VendorLedger>, vendorId: Id, notes: Option<string>)
    ensures var pending := Balance(ledger, vendorId).pendingLaborCost;
      var x := PaymentEntry(ledger, vendorId, pending, notes);
      !(pending > Balance(ledger + [x], vendorId).pendingLaborCost)
  {
    PaymentsNeverLowerPending(ledger, vendorId, Balance(ledger, vendorId).pendingLaborCost, notes);
  }

  /** Damaged boxes are not checked against the pending count, so the stored balance can go below zero. */
  lemma DamagedBalanceCanGoNegative(vendorId: Id)
    ensures DamagedEntry([], vendorId, 1, None).balanceBoxes == Some(-1)
  {
  }

  // ---------------------------------------------------------------------------
  // The recording operations.

  /** `recordBoxIssuance`: the vendor must exist; the BOX_ISSUED entry is appended with no check on the quantity. */
  method RecordBoxIssuance(db: Database, vendorId: Id, batchId: Option<Id>, quantity: int, notes: Option<string>)
    returns (r: Result<(), LedgerError>)
    modifies db`ledger
    ensures vendorId >= |db.users| ==> r == Err(VendorNotFound) && db.ledger == old(db.ledger)
    ensures vendorId < |db.users| ==> r.Ok? && db.ledger == old(db.ledger) + [IssueEntry(old(db.ledger), vendorId, quantity, notes)]
  {
    if vendorId >= |db.users| {
      return Err(VendorNotFound);
    }
    db.ledger := db.ledger + [IssueEntry(db.ledger, vendorId, quantity, notes)];
    r := Ok(());
  }

  /** `recordBoxReturn`: more boxes than are pending is refused with both counts; otherwise the return is appended. */
  method RecordBoxReturn(db: Database, vendorId: Id, batchId: Option<Id>, quantity: int, notes: Option<string>)
    returns (r: Result<(), LedgerError>)
    modifies db`ledger
    ensures vendorId >= |db.users| ==> r == Err(VendorNotFound)
    ensures vendorId < |db.users| && quantity > Balance(old(db.ledger), vendorId).boxesPending ==>
      r == Err(InsufficientBoxes(quantity, Balance(old(db.ledger), vendorId).boxesPending))
    ensures r.Ok? <==> vendorId < |db.users| && quantity <= Balance(old(db.ledger), vendorId).boxesPending
    ensures r.Err? ==> db.ledger == old(db.ledger)
    ensures r.Ok? ==> db.ledger == old(db.ledger) + [ReturnEntry(old(db.ledger), vendorId, quantity, notes)]
  {
    if vendorId >= |db.users| {
      return Err(VendorNotFound);
    }
    var balance := Balance(db.ledger, vendorId);
    if quantity > balance.boxesPending {
      return Err(InsufficientBoxes(quantity, balance.boxesPending));
    }
    db.ledger := db.ledger + [ReturnEntry(db.ledger, vendorId, quantity, notes)];
    r := Ok(());
  }

  /** `recordDamagedBoxes`: the vendor must exist; the entry is appended with no check on the quantity. */
  method RecordDamagedBoxes(db: Database, vendorId: Id, batchId: Option<Id>, quantity: int, notes: Option<string>)
    returns (r: Result<(), LedgerError>)
    modifies db`ledger
    ensures vendorId >= |db.users| ==> r == Err(VendorNotFound) && db.ledger == old(db.ledger)
    ensures vendorId < |db.users| ==> r.Ok? && db.ledger == old(db.ledger) + [DamagedEntry(old(db.ledger), vendorId, quantity, notes)]
  {
    if vendorId >= |db.users| {
      return Err(VendorNotFound);
    }
    db.ledger := db.ledger + [DamagedEntry(db.ledger, vendorId, quantity, notes)];
    r := Ok(());
  }

  /** `recordLaborCost`: the vendor must exist; the LABOR_COST entry is appended. */
  method RecordLaborCost(db: Database, vendorId: Id, batchId: Option<Id>, amount: int, notes: Option<string>)
    returns (r: Result<(), LedgerError>)
    modifies db`ledger
    ensures vendorId >= |db.users| ==> r == Err(VendorNotFound) && db.ledger == old(db.ledger)
    ensures vendorId < |db.users| ==>
      r.Ok? && db.ledger == old(db.ledger) + [LaborCostEntryRow(old(db.ledger), vendorId, amount, notes)]
  {
    if vendorId >= |db.users| {
      return Err(VendorNotFound);
    }
    db.ledger := db.ledger + [LaborCostEntryRow(db.ledger, vendorId, amount, notes)];
    r := Ok(());
  }

  /** `recordLaborPayment`: more than the pending labour cost is refused; otherwise the payment is appended. */
  method RecordLaborPayment(db: Database, vendorId: Id, amount: int, notes: Option<string>)
    returns (r: Result<(), LedgerError>)
    modifies db`ledger
    ensures vendorId >= |db.users| ==> r == Err(VendorNotFound)
    ensures vendorId < |db.users| && amount > Balance(old(db.ledger), vendorId).pendingLaborCost ==>
      r == Err(Overpayment(amount, Balance(old(db.ledger), vendorId).pendingLaborCost))
    ensures r.Ok? <==> vendorId < |db.users| && amount <= Balance(old(db.ledger), vendorId).pendingLaborCost
    ensures r.Err? ==> db.ledger == old(db.ledger)
    ensures r.Ok? ==> db.ledger == old(db.ledger) + [PaymentEntry(old(db.ledger), vendorId, amount, notes)]
  {
    if vendorId >= |db.users| {
      return Err(VendorNotFound);
    }
    var balance := Balance(db.ledger, vendorId);
    if amount > balance.pendingLaborCost {
      return Err(Overpayment(amount, balance.pendingLaborCost));
    }
    db.ledger := db.ledger + [PaymentEntry(db.ledger, vendorId, amount, notes)];
    r := Ok(());
  }

  // ---------------------------------------------------------------------------
  // Batch reconciliation.

  /** The batch's boxes not accounted for: BOX-category allocations less boxes received and wasted. */
  function BatchBoxesPending(db: Database, batchId: Id): int
    reads db
    requires db.Valid()
  {
    BoxesAllocated(db.allocations, db.items, batchId) - SumReceivedBoxes(db.gatePasses, batchId)
      - SumBoxesWasted(db.reports, batchId)
  }

  /**
   * `reconcileBatchInventory`. When the batch still has boxes pending, the
   * boxes received are recorded as returned by the vendor, and the boxes
   * wasted, if any, as damaged; a refused return records nothing. With no
   * boxes pending nothing is recorded.
   */
  method ReconcileBatchInventory(db: Database, batchId: Id, vendorId: Id) returns (r: Result<(), LedgerError>)
    requires db.Valid()
    modifies db`ledger
    ensures var received := SumReceivedBoxes(db.gatePasses, batchId);
      var wasted := SumBoxesWasted(db.reports, batchId);
      var returned := ReturnEntry(old(db.ledger), vendorId, received, Some("Auto-reconciliation: " + SignedDecimal(received) + " boxes received"));
      var damaged := DamagedEntry(old(db.ledger) + [returned], vendorId, wasted, Some("Auto-reconciliation: " + SignedDecimal(wasted) + " boxes damaged"));
      if BatchBoxesPending(db, batchId) <= 0 then r.Ok? && db.ledger == old(db.ledger)
      else if vendorId >= |db.users| then r == Err(VendorNotFound) && db.ledger == old(db.ledger)
      else if received > Balance(old(db.ledger), vendorId).boxesPending then
        r == Err(InsufficientBoxes(received, Balance(old(db.ledger), vendorId).boxesPending)) && db.ledger == old(db.ledger)
      else r.Ok? && db.ledger == old(db.ledger) + [returned] + (if wasted > 0 then [damaged] else [])
  {
    var boxes := BoxesAllocated(db.allocations, db.items, batchId);
    var received := SumReceivedBoxes(db.gatePasses, batchId);
    var wasted := SumBoxesWasted(db.reports, batchId);
    var pending := boxes - received - wasted;
    r := Ok(());
    if pending > 0 {
      r := RecordBoxReturn(db, vendorId, Some(batchId), received,
                           Some("Auto-reconciliation: " + SignedDecimal(received) + " boxes received"));
      if r.Err? {
        return;
      }
      if wasted > 0 {
        r := RecordDamagedBoxes(db, vendorId, Some(batchId), wasted,
                                Some("Auto-reconciliation: " + SignedDecimal(wasted) + " boxes damaged"));
      }
    }
  }
}
