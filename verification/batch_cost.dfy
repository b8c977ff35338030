/**
 * The BatchCost entity: one cost snapshot per batch, holding ten money figures
 * (in hundredths) and two timestamps, with a hand-written builder whose money
 * fields start at zero and per-field setters.
 */
module BatchCosts {
  import opened Common

  /** The ten money figures of a snapshot, each in hundredths of a rupee. */
  datatype CostFigures = CostFigures(
    materialCostTotal: int,
    materialCostPerBox: int,
    outwardTransportCost: int,
    outwardTransportPerBox: int,
    laborCostTotal: int,
    laborCostPerBox: int,
    inwardTransportCost: int,
    inwardTransportPerBox: int,
    totalCost: int,
    finalCostPerBox: int)

  /** Every figure zero: the builder's defaults. */
  const ZeroFigures := CostFigures(0, 0, 0, 0, 0, 0, 0, 0, 0, 0)

  /** A snapshot as the store keeps it. */
  datatype CostRow = CostRow(
    id: Option<Id>,
    batchId: Option<Id>,
    figures: CostFigures,
    calculatedAt: Option<DateTime>,
    updatedAt: Option<DateTime>)

  class BatchCost {
    var id: Option<Id>
    var batchId: Option<Id>
    var materialCostTotal: int
    var materialCostPerBox: int
    var outwardTransportCost: int
    var outwardTransportPerBox: int
    var laborCostTotal: int
    var laborCostPerBox: int
    var inwardTransportCost: int
    var inwardTransportPerBox: int
    var totalCost: int
    var finalCostPerBox: int
    var calculatedAt: Option<DateTime>
    var updatedAt: Option<DateTime>

    function Figures(): CostFigures
      reads this
    {
      CostFigures(materialCostTotal, materialCostPerBox, outwardTransportCost, outwardTransportPerBox,
                  laborCostTotal, laborCostPerBox, inwardTransportCost, inwardTransportPerBox,
                  totalCost, finalCostPerBox)
    }

    function Row(): CostRow
      reads this
    {
      CostRow(id, batchId, Figures(), calculatedAt, updatedAt)
    }

    /** The all-arguments constructor: every field is taken from `row`. */
    constructor (row: CostRow)
      ensures Row() == row
    {
      id := row.id;
      batchId := row.batchId;
      materialCostTotal := row.figures.materialCostTotal;
      materialCostPerBox := row.figures.materialCostPerBox;
      outwardTransportCost := row.figures.outwardTransportCost;
      outwardTransportPerBox := row.figures.outwardTransportPerBox;
      laborCostTotal := row.figures.laborCostTotal;
      laborCostPerBox := row.figures.laborCostPerBox;
      inwardTransportCost := row.figures.inwardTransportCost;
      inwardTransportPerBox := row.figures.inwardTransportPerBox;
      totalCost := row.figures.totalCost;
      finalCostPerBox := row.figures.finalCostPerBox;
      calculatedAt := row.calculatedAt;
      updatedAt := row.updatedAt;
    }

    method SetId(v: Option<Id>)
      modifies this`id
      ensures id == v
    {
      id := v;
    }

    method SetBatch(v: Option<Id>)
      modifies this`batchId
      ensures batchId == v
    {
      batchId := v;
    }

    method SetMaterialCostTotal(v: int)
      modifies this`materialCostTotal
      ensures materialCostTotal == v
    {
      materialCostTotal := v;
    }

    method SetMaterialCostPerBox(v: int)
      modifies this`materialCostPerBox
      ensures materialCostPerBox == v
    {
      materialCostPerBox := v;
    }

    method SetOutwardTransportCost(v: int)
      modifies this`outwardTransportCost
      ensures outwardTransportCost == v
    {
      outwardTransportCost := v;
    }

    method SetOutwardTransportPerBox(v: int)
      modifies this`outwardTransportPerBox
      ensures outwardTransportPerBox == v
    {
      outwardTransportPerBox := v;
    }

    method SetLaborCostTotal(v: int)
      modifies this`laborCostTotal
      ensures laborCostTotal == v
    {
      laborCostTotal := v;
    }

    method SetLaborCostPerBox(v: int)
      modifies this`laborCostPerBox
      ensures laborCostPerBox == v
    {
      laborCostPerBox := v;
    }

    method SetInwardTransportCost(v: int)
      modifies this`inwardTransportCost
      ensures inwardTransportCost == v
    {
      inwardTransportCost := v;
    }

    method SetInwardTransportPerBox(v: int)
      modifies this`inwardTransportPerBox
      ensures inwardTransportPerBox == v
    {
      inwardTransportPerBox := v;
    }

    method SetTotalCost(v: int)
      modifies this`totalCost
      ensures totalCost == v
    {
      totalCost := v;
    }

    method SetFinalCostPerBox(v: int)
      modifies this`finalCostPerBox
      ensures finalCostPerBox == v
    {
      finalCostPerBox := v;
    }

    method SetCalculatedAt(v: Option<DateTime>)
      modifies this`calculatedAt
      ensures calculatedAt == v
    {
      calculatedAt := v;
    }

    method SetUpdatedAt(v: Option<DateTime>)
      modifies this`updatedAt
      ensures updatedAt == v
    {
      updatedAt := v;
    }
  }

  /**
   * The hand-written builder: the money fields start at zero, the id, batch
   * and calculation time start unset, and each mutator replaces one field.
   */
  class BatchCostBuilder {
    var id: Option<Id>
    var batchId: Option<Id>
    var figures: CostFigures
    var calculatedAt: Option<DateTime>

    constructor ()
      ensures id == None && batchId == None
      ensures figures == ZeroFigures && calculatedAt == None
    {
      id := None;
      batchId := None;
      figures := ZeroFigures;
      calculatedAt := None;
    }

    method Id(v: Id)
      modifies this`id
      ensures id == Some(v)
    {
      id := Some(v);
    }

    method Batch(v: Id)
      modifies this`batchId
      ensures batchId == Some(v)
    {
      batchId := Some(v);
    }

    method MaterialCostTotal(v: int)
      modifies this`figures
      ensures figures == old(figures).(materialCostTotal := v)
    {
      figures := figures.(materialCostTotal := v);
    }

    method MaterialCostPerBox(v: int)
      modifies this`figures
      ensures figures == old(figures).(materialCostPerBox := v)
    {
      figures := figures.(materialCostPerBox := v);
    }

    method OutwardTransportCost(v: int)
      modifies this`figures
      ensures figures == old(figures).(outwardTransportCost := v)
    {
      figures := figures.(outwardTransportCost := v);
    }

    method OutwardTransportPerBox(v: int)
      modifies this`figures
      ensures figures == old(figures).(outwardTransportPerBox := v)
    {
      figures := figures.(outwardTransportPerBox := v);
    }

    method LaborCostTotal(v: int)
      modifies this`figures
      ensures figures == old(figures).(laborCostTotal := v)
    {
      figures := figures.(laborCostTotal := v);
    }

    method LaborCostPerBox(v: int)
      modifies this`figures
      ensures figures == old(figures).(laborCostPerBox := v)
    {
      figures := figures.(laborCostPerBox := v);
    }

    method InwardTransportCost(v: int)
      modifies this`figures
      ensures figures == old(figures).(inwardTransportCost := v)
    {
      figures := figures.(inwardTransportCost := v);
    }

    method InwardTransportPerBox(v: int)
      modifies this`figures
      ensures figures == old(figures).(inwardTransportPerBox := v)
    {
      figures := figures.(inwardTransportPerBox := v);
    }

    method TotalCost(v: int)
      modifies this`figures
      ensures figures == old(figures).(totalCost := v)
    {
      figures := figures.(totalCost := v);
    }

    method FinalCostPerBox(v: int)
      modifies this`figures
      ensures figures == old(figures).(finalCostPerBox := v)
    {
      figures := figures.(finalCostPerBox := v);
    }

    method CalculatedAt(v: DateTime)
      modifies this`calculatedAt
      ensures calculatedAt == Some(v)
    {
      calculatedAt := Some(v);
    }

    /**
     * `build()`: a new snapshot carrying every builder field into the field of
     * the same name; the update time is always left unset.
     */
    method Build() returns (c: BatchCost)
      ensures fresh(c)
      ensures c.Row() == CostRow(id, batchId, figures, calculatedAt, None)
    {
      c := new BatchCost(CostRow(id, batchId, figures, calculatedAt, None));
    }
  }

  /**
   * `BatchCost.builder().batch(batch).build()`, the snapshot a batch gets when
   * it has none yet: all ten figures zero, no id, and neither time set.
   */
  method NewForBatch(batchId: Id) returns (c: BatchCost)
    ensures fresh(c)
    ensures c.Row() == CostRow(None, Some(batchId), ZeroFigures, None, None)
  {
    var b := new BatchCostBuilder();
    b.Batch(batchId);
    c := b.Build();
  }
}
