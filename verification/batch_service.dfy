/**
 * The batch status update: the caller must own the batch when they are a
 * vendor, the two shipping statuses are guarded by the current status, the
 * requested status is then written as is, and the first entry into
 * HARVEST_IN_PROGRESS stamps the start date. The response carries the packed
 * total from the reports as its actual box count.
 */
module BatchService {
  import opened Common
  import opened Batches
  import opened Store

  datatype BatchError =
    | BatchNotFound
    | UserNotFound
      /** The batch has no vendor to compare with (a NullPointerException in the service). */
    | NoVendor
      /** "You are not authorized to update this batch." */
    | NotAuthorized
      /** "Batch must be in DISPATCH_COMPLETED status to transition to IN_TRANSIT." */
    | NotDispatchCompleted
      /** "Batch must be in IN_TRANSIT status to transition to DELIVERED." */
    | NotInTransit

  /**
   * Only a VENDOR is checked: they must be the batch's vendor. Other roles pass
   * whatever the batch's vendor is.
   */
  function OwnershipCheck(role: UserRole, vendorId: Option<Id>, userId: Id): (r: Result<(), BatchError>)
    ensures r.Ok? <==> role != Vendor || vendorId == Some(userId)
    ensures r.Err? && vendorId.None? ==> r.error == NoVendor
    ensures r.Err? && vendorId.Some? ==> r.error == NotAuthorized
  {
    if role == Vendor then
      if vendorId.None? then Err(NoVendor)
      else if vendorId.value != userId then Err(NotAuthorized)
      else Ok(())
    else Ok(())
  }

  /**
   * The transition guards: IN_TRANSIT only from DISPATCH_COMPLETED, DELIVERED
   * only from IN_TRANSIT or DISPATCH_COMPLETED. The HARVEST_COMPLETED guard has
   * an empty body, so every other request passes.
   */
  function TransitionCheck(current: BatchStatus, requested: BatchStatus): (r: Result<(), BatchError>)
    ensures requested == InTransit ==> (r.Ok? <==> current == DispatchCompleted)
    ensures requested == Delivered ==> (r.Ok? <==> current == InTransit || current == DispatchCompleted)
    ensures requested != InTransit && requested != Delivered ==> r.Ok?
    ensures r.Err? ==> r.error == (if requested == InTransit then NotDispatchCompleted else NotInTransit)
  {
    if requested == HarvestCompleted && current != HarvestInProgress && current != Created
       && current != InProgress && current != DispatchInProgress then
      // The permissive guard: nothing happens.
      Ok(())
    else if requested == InTransit && current != DispatchCompleted then Err(NotDispatchCompleted)
    else if requested == Delivered && current != InTransit && current != DispatchCompleted then Err(NotInTransit)
    else Ok(())
  }

  /** Both guards in the service's order: ownership first, then the transition. */
  function StatusUpdateCheck(role: UserRole, vendorId: Option<Id>, userId: Id, current: BatchStatus,
                             requested: BatchStatus): (r: Result<(), BatchError>)
    ensures OwnershipCheck(role, vendorId, userId).Err? ==> r == OwnershipCheck(role, vendorId, userId)
    ensures OwnershipCheck(role, vendorId, userId).Ok? ==> r == TransitionCheck(current, requested)
  {
    match OwnershipCheck(role, vendorId, userId)
    case Err(e) => Err(e)
    case Ok(_) => TransitionCheck(current, requested)
  }

  /**
   * The batch after an accepted update: the status is exactly the requested one,
   * the start date is stamped with today only on a request for
   * HARVEST_IN_PROGRESS when none is set, and nothing else changes.
   */
  function StatusUpdated(s: BatchState, requested: BatchStatus, today: Date): (r: BatchState)
    ensures r.status == requested
    ensures s.startDate.Some? ==> r.startDate == s.startDate
    ensures s.startDate.None? ==> (r.startDate == Some(today) <==> requested == HarvestInProgress)
    ensures s.startDate.None? && requested != HarvestInProgress ==> r.startDate == None
    ensures r.(status := s.status, startDate := s.startDate) == s
  {
    var t := s.(status := requested);
    if requested == HarvestInProgress && t.startDate.None? then t.(startDate := Some(today)) else t
  }

  /** The batch as the API returns it. */
  datatype BatchResponse = BatchResponse(
    id: Id,
    batchCode: string,
    inspectionId: Option<Id>,
    farmId: Option<Id>,
    vendorId: Option<Id>,
    status: BatchStatus,
    estimatedBoxes: int,
    allocatedBoxes: Option<int>,
    harvestedBoxes: Option<int>,
    remainingBoxes: Option<int>,
    actualBoxes: int,
    dispatchedBoxes: Option<int>,
    gatePassRemaining: Option<int>,
    startDate: Option<Date>,
    endDate: Option<Date>)

  /**
   * `mapToBatchResponse`: the stored fields are copied, except that the actual
   * box count is the packed total over the batch's reports (0 with none), not
   * the stored `actualBoxes`.
   */
  function ToResponse(id: Id, s: BatchState, packedTotal: int): (r: BatchResponse)
    ensures r.actualBoxes == packedTotal
    ensures r.status == s.status && r.startDate == s.startDate
    ensures r.allocatedBoxes == s.allocatedBoxes && r.harvestedBoxes == s.harvestedBoxes
    ensures r.remainingBoxes == s.remainingBoxes && r.dispatchedBoxes == s.dispatchedBoxes
    ensures r.gatePassRemaining == s.gatePassRemaining
  {
    BatchResponse(id, s.batchCode, s.inspectionId, s.farmId, s.vendorId, s.status, s.estimatedBoxes,
                  s.allocatedBoxes, s.harvestedBoxes, s.remainingBoxes, packedTotal, s.dispatchedBoxes,
                  s.gatePassRemaining, s.startDate, s.endDate)
  }

  /** The stored actual count never shows: two batches that differ only there give the same response. */
  lemma ResponseIgnoresStoredActual(id: Id, s: BatchState, actual: Option<int>, packedTotal: int)
    ensures ToResponse(id, s.(actualBoxes := actual), packedTotal) == ToResponse(id, s, packedTotal)
  {
  }

  /**
   * `updateBatchStatus`. On success the batch has the requested status (and the
   * start date rule applied) and the response reflects it; on any error the
   * batch is unchanged. No box counter moves.
   */
  method UpdateBatchStatus(db: Database, batch: Batch?, userId: Id, requested: BatchStatus, today: Date)
    returns (r: Result<BatchResponse, BatchError>)
    modifies batch
    ensures batch == null ==> r == Err(BatchNotFound)
    ensures batch != null && userId >= |db.users| ==> r == Err(UserNotFound)
    ensures batch != null && userId < |db.users| ==>
      match StatusUpdateCheck(db.users[userId].role, old(batch.vendorId), userId, old(batch.status), requested)
      case Err(e) => r == Err(e)
      case Ok(_) =>
        && batch.State() == StatusUpdated(old(batch.State()), requested, today)
        && r == Ok(ToResponse(batch.id, batch.State(), SumBoxesPacked(db.reports, batch.id)))
    ensures r.Err? && batch != null ==> batch.State() == old(batch.State())
  {
    if batch == null {
      return Err(BatchNotFound);
    }
    if userId >= |db.users| {
      return Err(UserNotFound);
    }
    var user := db.users[userId];
    if user.role == Vendor {
      if batch.vendorId.None? {
        return Err(NoVendor);
      }
      if batch.vendorId.value != userId {
        return Err(NotAuthorized);
      }
    }
    if requested == InTransit && batch.status != DispatchCompleted {
      return Err(NotDispatchCompleted);
    }
    if requested == Delivered && batch.status != InTransit && batch.status != DispatchCompleted {
      return Err(NotInTransit);
    }
    batch.status := requested;
    if requested == HarvestInProgress && batch.startDate.None? {
      batch.startDate := Some(today);
    }
    r := Ok(ToResponse(batch.id, batch.State(), SumBoxesPacked(db.reports, batch.id)));
  }

  /** A status update keeps the counter relationships: it touches no counter. */
  lemma StatusUpdateKeepsConsistent(s: BatchState, requested: BatchStatus, today: Date)
    requires Consistent(s)
    ensures Consistent(StatusUpdated(s, requested, today))
  {
  }

  /** HARVEST_COMPLETED is accepted from any status, even a delivered or cancelled batch. */
  lemma HarvestCompletedFromAnyStatus(current: BatchStatus)
    ensures TransitionCheck(current, HarvestCompleted).Ok?
  {
  }

  /**
   * DELIVERED can be reached straight from DISPATCH_COMPLETED, skipping
   * IN_TRANSIT, and neither shipping status is a constant of the declared enum.
   */
  lemma DeliveredSkipsTransit()
    ensures TransitionCheck(DispatchCompleted, Delivered).Ok?
    ensures TransitionCheck(DispatchCompleted, InTransit).Ok?
    ensures !DeclaredInEnum(InTransit) && !DeclaredInEnum(Delivered)
  {
  }
}
