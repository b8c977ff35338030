/**
 * The Batch entity: one harvest lot of a farm, with its status and the six box
 * counters the harvest and dispatch paths keep. Counters are nullable
 * `Integer` columns, so rows written before a column existed may hold null.
 */
module Batches {
  import opened Common

  /**
   * Batch status. IN_TRANSIT and DELIVERED are requested and compared by the
   * status-update path but are not constants of the Java enum, nor allowed by
   * the database CHECK constraint; `DeclaredInEnum` tells them apart.
   */
  datatype BatchStatus =
    | Created
    | InProgress
    | HarvestInProgress
    | HarvestCompleted
    | DispatchInProgress
    | DispatchCompleted
    | Completed
    | Cancelled
    | InTransit
    | Delivered

  /** The eight constants the Java enum and the status CHECK constraint list. */
  predicate DeclaredInEnum(s: BatchStatus)
  {
    !s.InTransit? && !s.Delivered?
  }

  /** The value of every field of a batch but its key, at one moment. */
  datatype BatchState = BatchState(
    batchCode: string,
    inspectionId: Option<Id>,
    farmId: Option<Id>,
    vendorId: Option<Id>,
    createdBy: Option<Id>,
    status: BatchStatus,
    estimatedBoxes: int,
    allocatedBoxes: Option<int>,
    harvestedBoxes: Option<int>,
    remainingBoxes: Option<int>,
    actualBoxes: Option<int>,
    dispatchedBoxes: Option<int>,
    gatePassRemaining: Option<int>,
    startDate: Option<Date>,
    endDate: Option<Date>)

  /**
   * The counter relationships the harvest and dispatch paths maintain: every
   * counter present, 0 <= dispatched <= harvested <= allocated, and the derived
   * counters in step with them.
   */
  predicate Consistent(s: BatchState)
  {
    && s.allocatedBoxes.Some? && s.harvestedBoxes.Some? && s.remainingBoxes.Some?
    && s.actualBoxes.Some? && s.dispatchedBoxes.Some? && s.gatePassRemaining.Some?
    && 0 <= s.dispatchedBoxes.value <= s.harvestedBoxes.value <= s.allocatedBoxes.value
    && s.remainingBoxes.value == s.allocatedBoxes.value - s.harvestedBoxes.value
    && s.gatePassRemaining.value == s.harvestedBoxes.value - s.dispatchedBoxes.value
    && s.actualBoxes.value == s.harvestedBoxes.value
  }

  class Batch {
    /** Surrogate key assigned by the store. */
    const id: Id
    /** Human-readable batch code (`batch_id`), non-null and unique. */
    var batchCode: string
    var inspectionId: Option<Id>
    var farmId: Option<Id>
    var vendorId: Option<Id>
    var status: BatchStatus
    var estimatedBoxes: int
    var allocatedBoxes: Option<int>
    var harvestedBoxes: Option<int>
    var remainingBoxes: Option<int>
    var actualBoxes: Option<int>
    var dispatchedBoxes: Option<int>
    var gatePassRemaining: Option<int>
    var startDate: Option<Date>
    var endDate: Option<Date>
    var createdBy: Option<Id>

    function State(): BatchState
      reads this
    {
      BatchState(batchCode, inspectionId, farmId, vendorId, createdBy, status, estimatedBoxes, allocatedBoxes, harvestedBoxes, remainingBoxes,
                 actualBoxes, dispatchedBoxes, gatePassRemaining, startDate, endDate)
    }

    /**
     * `Batch.builder()...build()`: an argument that is `None` stands for a builder
     * setter that was not called, so the field takes its `@Builder.Default`
     * (CREATED, or 0 for each counter); the dates have no default and stay unset.
     */
    constructor Build(id: Id, batchCode: string, estimatedBoxes: int,
                      status: Option<BatchStatus>,
                      allocatedBoxes: Option<int>, harvestedBoxes: Option<int>, remainingBoxes: Option<int>,
                      actualBoxes: Option<int>, dispatchedBoxes: Option<int>, gatePassRemaining: Option<int>,
                      startDate: Option<Date>, endDate: Option<Date>,
                      inspectionId: Option<Id>, farmId: Option<Id>, vendorId: Option<Id>,
                      createdBy: Option<Id>)
      ensures this.id == id
      ensures State() == BatchState(
        batchCode, inspectionId, farmId, vendorId, createdBy, status.GetOr(Created), estimatedBoxes,
        Some(allocatedBoxes.GetOr(0)), Some(harvestedBoxes.GetOr(0)), Some(remainingBoxes.GetOr(0)),
        Some(actualBoxes.GetOr(0)), Some(dispatchedBoxes.GetOr(0)), Some(gatePassRemaining.GetOr(0)),
        startDate, endDate)
    {
      this.id := id;
      this.batchCode := batchCode;
      this.inspectionId := inspectionId;
      this.farmId := farmId;
      this.vendorId := vendorId;
      this.status := status.GetOr(Created);
      this.estimatedBoxes := estimatedBoxes;
      this.allocatedBoxes := Some(allocatedBoxes.GetOr(0));
      this.harvestedBoxes := Some(harvestedBoxes.GetOr(0));
      this.remainingBoxes := Some(remainingBoxes.GetOr(0));
      this.actualBoxes := Some(actualBoxes.GetOr(0));
      this.dispatchedBoxes := Some(dispatchedBoxes.GetOr(0));
      this.gatePassRemaining := Some(gatePassRemaining.GetOr(0));
      this.startDate := startDate;
      this.endDate := endDate;
      this.createdBy := createdBy;
    }
  }
}
