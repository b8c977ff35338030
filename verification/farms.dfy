/**
 * The farm-side entities the inspection workflow updates in place: a farm,
 * an inspection of it, and a manager's request for an inspection.
 */
module Farms {
  import opened Common

  /** The farm statuses the inspection workflow assigns. */
  datatype FarmStatus = Active | InspectionPending | ReadyForHarvest | InspectionRejected

  datatype InspectionStatus = Pending | Approved | Rejected | Assigned | Requested | InProgress

  /** Status of a manager's inspection request; only these two values are assigned. */
  datatype RequestStatus = RequestPending | RequestCompleted

  class Farm {
    const id: Id
    var farmerName: string
    var location: string
    var status: FarmStatus

    /** A farm row as created: status defaults to ACTIVE. */
    constructor (id: Id, farmerName: string, location: string)
      ensures this.id == id && this.farmerName == farmerName && this.location == location
      ensures status == Active
    {
      this.id := id;
      this.farmerName := farmerName;
      this.location := location;
      status := Active;
    }
  }

  /** The fields of an inspection the workflow writes. */
  datatype InspectionState = InspectionState(
    estimatedBoxes: int,
    inspectionNotes: Option<string>,
    requestId: Option<string>,
    status: InspectionStatus,
    approvedBy: Option<Id>,
    approvedAt: Option<DateTime>,
    rejectionReason: Option<string>)

  class FarmInspection {
    const id: Id
    const farm: Farm
    const vendorId: Id
    var estimatedBoxes: int
    var inspectionNotes: Option<string>
    var requestId: Option<string>
    var status: InspectionStatus
    var approvedBy: Option<Id>
    var approvedAt: Option<DateTime>
    var rejectionReason: Option<string>

    function State(): InspectionState
      reads this
    {
      InspectionState(estimatedBoxes, inspectionNotes, requestId, status, approvedBy, approvedAt, rejectionReason)
    }

    /**
     * A new inspection as the builder makes it: PENDING, not linked to a
     * request, and with no approval recorded.
     */
    constructor (id: Id, farm: Farm, vendorId: Id, estimatedBoxes: int, inspectionNotes: Option<string>)
      ensures this.id == id && this.farm == farm && this.vendorId == vendorId
      ensures this.estimatedBoxes == estimatedBoxes && this.inspectionNotes == inspectionNotes
      ensures State() == InspectionState(estimatedBoxes, inspectionNotes, None, Pending, None, None, None)
    {
      this.id := id;
      this.farm := farm;
      this.vendorId := vendorId;
      this.estimatedBoxes := estimatedBoxes;
      this.inspectionNotes := inspectionNotes;
      requestId := None;
      status := Pending;
      approvedBy := None;
      approvedAt := None;
      rejectionReason := None;
    }
  }

  class InspectionRequest {
    const id: Id
    const farmId: Id
    const vendorId: Id
    var status: RequestStatus
    var completedAt: Option<DateTime>

    /** A new request: PENDING and not completed. */
    constructor (id: Id, farmId: Id, vendorId: Id)
      ensures this.id == id && this.farmId == farmId && this.vendorId == vendorId
      ensures status == RequestPending && completedAt == None
    {
      this.id := id;
      this.farmId := farmId;
      this.vendorId := vendorId;
      status := RequestPending;
      completedAt := None;
    }
  }
}
