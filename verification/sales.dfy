/**
 * Sales of a completed batch: one sale per batch, never more boxes than the
 * batch actually produced, the total as price times boxes, tax at a positive
 * percentage rounded half-up to the cent, and a dated running invoice
 * number. Payments are added to the paid amount without a cap.
 */
module Sales {
  import opened Common
  import opened Money
  import opened Codes
  import opened Batches
  import opened Store

  datatype SaleError =
    | BatchNotFound
      /** "Batch must be completed before creating a sale" */
    | NotCompleted
      /** "Sale already exists for this batch" */
    | SaleExists
      /** The batch has no actual box count to compare with (a NullPointerException in the service). */
    | NoActualBoxes
      /** "Sale quantity cannot exceed actual boxes harvested" */
    | ExceedsActualBoxes
    | UserNotFound
    | SaleNotFound
      /** A status name that is not a payment status constant (`valueOf` fails). */
    | UnknownPaymentStatus

  /** The money figures of a sale, in hundredths. */
  datatype Totals = Totals(totalAmount: int, taxAmount: int, grandTotal: int)

  /**
   * The totals of a sale. The price is in hundredths and the tax percentage in
   * hundredths of a percent, so the tax in hundredths is
   * total × percentage / 10000, rounded half-up.
   */
  function SaleTotals(pricePerBox: int, totalBoxes: int, taxPercentage: Option<int>): Totals
  {
    var total := pricePerBox * totalBoxes;
    if taxPercentage.Some? && taxPercentage.value > 0 then
      var tax := DivHalfUp(total * taxPercentage.value, 10000);
      Totals(total, tax, total + tax)
    else Totals(total, 0, total)
  }

  /**
   * The total is price times boxes; without a positive percentage there is no
   * tax and the grand total is the total; otherwise the tax is the total's
   * share rounded half-up to the cent and the grand total adds it.
   */
  lemma SaleTotalsMeaning(pricePerBox: int, totalBoxes: int, taxPercentage: Option<int>)
    ensures var t := SaleTotals(pricePerBox, totalBoxes, taxPercentage);
      && t.totalAmount == pricePerBox * totalBoxes
      && t.grandTotal == t.totalAmount + t.taxAmount
      && (taxPercentage.None? || taxPercentage.value <= 0 ==> t.taxAmount == 0)
      && (taxPercentage.Some? && taxPercentage.value > 0 ==>
            RoundsHalfUp(t.totalAmount * taxPercentage.value, 10000, t.taxAmount))
  {
    if taxPercentage.Some? && taxPercentage.value > 0 {
      DivHalfUpRounds(pricePerBox * totalBoxes * taxPercentage.value, 10000);
    }
  }

  /** 18% on 1,000.00 is 180.00; 18% on 0.05 is 0.009, rounded to 0.01. */
  lemma TaxExamples()
    ensures SaleTotals(100000, 1, Some(1800)) == Totals(100000, 18000, 118000)
    ensures SaleTotals(5, 1, Some(1800)) == Totals(5, 1, 6)
    ensures SaleTotals(5, 1, Some(-1800)) == Totals(5, 0, 5)
  {
    DivHalfUpExact(18000, 10000);
    DivHalfUpRounds(9000, 10000);
    DivHalfUpUnique(9000, 10000, 1);
  }

  /** `generateInvoiceNumber`: "INV-", today as yyyyMMdd, "-", and the sale count plus one in at least five digits. */
  function InvoiceNumber(today: Date, saleCount: nat): string
  {
    SequenceCode("INV-", today, saleCount, 5)
  }

  /**
   * An invoice number reads back: prefix, the year, month and day as yyyyMMdd,
   * a dash, and the count plus one padded to exactly five digits (more only
   * when it needs more).
   */
  lemma InvoiceNumberParts(today: Date, saleCount: nat)
    ensures var code := InvoiceNumber(today, saleCount);
      && |code| >= 18
      && code[..4] == "INV-"
      && code[4..12] == FormatDate(today)
      && AllDigits(code[4..8]) && DigitsValue(code[4..8]) == today.year && AllDigits(code[8..10]) && DigitsValue(code[8..10]) == today.month
      && AllDigits(code[10..12]) && DigitsValue(code[10..12]) == today.day
      && code[12] == '-'
      && AllDigits(code[13..])
      && DigitsValue(code[13..]) == saleCount + 1
      && |code[13..]| == (if |Decimal(saleCount + 1)| < 5 then 5 else |Decimal(saleCount + 1)|)
  {
    SequenceCodeParts("INV-", today, saleCount, 5);
  }

  /** `findByBatchId(...).isEmpty()` negated: the batch already has a sale. */
  predicate HasSale(sales: seq<Sale>, batchId: Id)
  {
    exists i :: 0 <= i < |sales| && sales[i].batchId == batchId
  }

  /** The checks of `createSale`, in the service's order. */
  function SaleCheck(db: Database, batch: Batch?, totalBoxes: int, userId: Id): (r: Result<(), SaleError>)
    reads db, batch
    ensures r.Ok? <==>
      && batch != null && batch.status == Completed && !HasSale(db.sales, batch.id)
      && batch.actualBoxes.Some? && totalBoxes <= batch.actualBoxes.value
      && userId < |db.users|
    ensures batch == null ==> r == Err(BatchNotFound)
    ensures batch != null && batch.status != Completed ==> r == Err(NotCompleted)
    ensures batch != null && batch.status == Completed && HasSale(db.sales, batch.id) ==> r == Err(SaleExists)
  {
    if batch == null then Err(BatchNotFound)
    else if batch.status != Completed then Err(NotCompleted)
    else if HasSale(db.sales, batch.id) then Err(SaleExists)
    else if batch.actualBoxes.None? then Err(NoActualBoxes)
    else if totalBoxes > batch.actualBoxes.value then Err(ExceedsActualBoxes)
    else if userId >= |db.users| then Err(UserNotFound)
    else Ok(())
  }

  /**
   * `createSale`. `batch` is the batch looked up by id, null when not found.
   * After the checks a PENDING, unpaid sale is stored with the next id, its
   * totals, an exchange rate of 1 (10000 ten-thousandths) when none is given,
   * and the next invoice number. On an error nothing is stored.
   */
  method CreateSale(db: Database, batch: Batch?, userId: Id, buyerName: string, buyerContact: Option<string>,
                    buyerAddress: Option<string>, saleType: SaleType, totalBoxes: int, pricePerBox: int,
                    currency: Option<string>, exchangeRate: Option<int>, taxPercentage: Option<int>,
                    saleDate: Date, today: Date)
    returns (r: Result<Id, SaleError>)
    modifies db`sales
    ensures r.Err? <==> old(SaleCheck(db, batch, totalBoxes, userId)).Err?
    ensures r.Err? ==> r.error == old(SaleCheck(db, batch, totalBoxes, userId)).error && db.sales == old(db.sales)
    ensures r.Ok? ==>
      var t := SaleTotals(pricePerBox, totalBoxes, taxPercentage);
      && r.value == |old(db.sales)|
      && db.sales == old(db.sales) + [Sale(batch.id, InvoiceNumber(today, |old(db.sales)|), buyerName,
                                            buyerContact, buyerAddress, saleType, totalBoxes, pricePerBox,
                                            currency, exchangeRate.GetOr(10000), t.totalAmount, t.taxAmount,
                                            taxPercentage, t.grandTotal, PENDING, 0, saleDate, userId)]
  {
    var check := SaleCheck(db, batch, totalBoxes, userId);
    if check.Err? {
      return Err(check.error);
    }
    var t := SaleTotals(pricePerBox, totalBoxes, taxPercentage);
    var id := |db.sales|;
    db.sales := db.sales + [Sale(batch.id, InvoiceNumber(today, id), buyerName, buyerContact, buyerAddress,
                                 saleType, totalBoxes, pricePerBox, currency, exchangeRate.GetOr(10000),
                                 t.totalAmount, t.taxAmount, taxPercentage, t.grandTotal, PENDING, 0,
                                 saleDate, userId)];
    r := Ok(id);
  }

  /** A stored sale's batch can never be sold again: the next sale for it is refused. */
  lemma SecondSaleRefused(db: Database, batch: Batch, totalBoxes: int, userId: Id, k: nat)
    requires k < |db.sales| && db.sales[k].batchId == batch.id && batch.status == Completed
    ensures SaleCheck(db, batch, totalBoxes, userId) == Err(SaleExists)
  {
  }

  /** A sale after a payment: the new status, and the amount, when given, added to what was paid. */
  function Paid(s: Sale, status: PaymentStatus, amount: Option<int>): Sale
  {
    s.(paymentStatus := status, paidAmount := s.paidAmount + amount.GetOr(0))
  }

  /**
   * Payments accumulate without a cap: two payments add both amounts, and the
   * paid amount can pass the grand total.
   */
  lemma PaymentsAccumulate(s: Sale, st1: PaymentStatus, st2: PaymentStatus, a1: int, a2: int)
    ensures Paid(Paid(s, st1, Some(a1)), st2, Some(a2)).paidAmount == s.paidAmount + a1 + a2
    ensures Paid(Paid(s, st1, Some(a1)), st2, Some(a2)).paymentStatus == st2
    ensures s.paidAmount == 0 && a1 > s.grandTotal ==> Paid(s, st1, Some(a1)).paidAmount > s.grandTotal
  {
  }

  /**
   * `updatePaymentStatus`. `status` is the parsed status name, none when the
   * name is not a constant. The sale's status is replaced and a given amount
   * added to the paid amount; nothing else about the sale, and no other sale,
   * changes.
   */
  method UpdatePaymentStatus(db: Database, saleId: Id, status: Option<PaymentStatus>, amount: Option<int>)
    returns (r: Result<(), SaleError>)
    modifies db`sales
    ensures saleId >= |old(db.sales)| ==> r == Err(SaleNotFound)
    ensures saleId < |old(db.sales)| && status.None? ==> r == Err(UnknownPaymentStatus)
    ensures r.Err? ==> db.sales == old(db.sales)
    ensures r.Ok? <==> saleId < |old(db.sales)| && status.Some?
    ensures r.Ok? ==>
      && db.sales == old(db.sales)[saleId := Paid(old(db.sales)[saleId], status.value, amount)]
      && db.sales[saleId].paidAmount == old(db.sales)[saleId].paidAmount + amount.GetOr(0)
  {
    if saleId >= |db.sales| {
      return Err(SaleNotFound);
    }
    if status.None? {
      return Err(UnknownPaymentStatus);
    }
    db.sales := db.sales[saleId := Paid(db.sales[saleId], status.value, amount)];
    r := Ok(());
  }
}
