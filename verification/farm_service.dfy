/**
 * The inspection workflow of the farm service. A vendor submits an inspection
 * of a farm with photo and video links: the links are counted and checked,
 * the farm waits for a decision, and a linked manager request is closed. A
 * manager then approves it, which opens a harvest batch with fresh counters
 * and a dated sequence code, or rejects it, which records the reason and
 * ends in an error.
 */
module FarmService {
  import opened Common
  import opened Text
  import opened Codes
  import opened Batches
  import opened Farms
  import opened Store
  import opened PhotoValidation

  datatype FarmError =
    | FarmNotFound
    | UserNotFound
    | InspectionNotFound
    | Media(error: MediaError)
      /** "Inspection rejected: <reason>" */
    | Rejection(reason: Option<string>)

  // ---------------------------------------------------------------------------
  // Media links.

  /** A link counts as a video when it ends in ".mp4" or ".mov". */
  predicate IsVideoUrl(url: string)
  {
    EndsWith(url, ".mp4") || EndsWith(url, ".mov")
  }

  /** The number of video links. */
  function CountVideos(urls: seq<string>): nat
  {
    if |urls| == 0 then 0
    else CountVideos(urls[..|urls| - 1]) + (if IsVideoUrl(urls[|urls| - 1]) then 1 else 0)
  }

  /** The number of photo links: every link that is not a video. */
  function CountPhotos(urls: seq<string>): nat
  {
    if |urls| == 0 then 0
    else CountPhotos(urls[..|urls| - 1]) + (if IsVideoUrl(urls[|urls| - 1]) then 0 else 1)
  }

  /** Every link is counted exactly once, as a photo or as a video. */
  lemma {:induction false} CountsPartition(urls: seq<string>)
    ensures CountPhotos(urls) + CountVideos(urls) == |urls|
  {
    if |urls| > 0 {
      CountsPartition(urls[..|urls| - 1]);
    }
  }

  /** A list of photo links only counts every link as a photo. */
  lemma {:induction false} NoVideosAllPhotos(urls: seq<string>)
    requires forall i :: 0 <= i < |urls| ==> !IsVideoUrl(urls[i])
    ensures CountPhotos(urls) == |urls| && CountVideos(urls) == 0
  {
    if |urls| > 0 {
      NoVideosAllPhotos(urls[..|urls| - 1]);
    }
  }

  /**
   * The counting loop of `createInspection`: a missing list counts nothing,
   * otherwise each link adds to the video or to the photo count.
   */
  method CountMedia(photoUrls: Option<seq<string>>) returns (photoCount: nat, videoCount: nat)
    ensures photoUrls.None? ==> photoCount == 0 && videoCount == 0
    ensures photoUrls.Some? ==>
      photoCount == CountPhotos(photoUrls.value) && videoCount == CountVideos(photoUrls.value)
    ensures photoUrls.Some? ==> photoCount + videoCount == |photoUrls.value|
  {
    photoCount, videoCount := 0, 0;
    if photoUrls.Some? {
      var urls := photoUrls.value;
      var i := 0;
      while i < |urls|
        invariant 0 <= i <= |urls|
        invariant photoCount == CountPhotos(urls[..i]) && videoCount == CountVideos(urls[..i])
      {
        assert urls[..i + 1][..i] == urls[..i];
        if IsVideoUrl(urls[i]) {
          videoCount := videoCount + 1;
        } else {
          photoCount := photoCount + 1;
        }
        i := i + 1;
      }
      assert urls[..i] == urls;
      CountsPartition(urls);
    }
  }

  /** The media check applied to a submitted list of links. */
  function MediaCheck(photoUrls: Option<seq<string>>): (r: Result<(), MediaError>)
    ensures photoUrls.None? ==> r == Err(InsufficientPhotos(0))
    ensures photoUrls.Some? ==> (r.Ok? <==> 2 <= CountPhotos(photoUrls.value) <= 5)
  {
    if photoUrls.None? then ValidateInspectionMedia(0, 0)
    else ValidateInspectionMedia(CountPhotos(photoUrls.value), CountVideos(photoUrls.value))
  }

  /** The stored photo type: "VIDEO" for an ".mp4" link only, "IMAGE" otherwise. */
  function PhotoType(url: string): (t: string)
    ensures t == "VIDEO" <==> EndsWith(url, ".mp4")
    ensures t == "VIDEO" || t == "IMAGE"
  {
    if EndsWith(url, ".mp4") then "VIDEO" else "IMAGE"
  }

  /** A ".mov" link is counted as a video but stored with the photo type "IMAGE". */
  lemma MovCountedAsVideoStoredAsImage(url: string)
    requires EndsWith(url, ".mov")
    ensures IsVideoUrl(url)
    ensures PhotoType(url) == "IMAGE"
  {
    assert url[|url| - 4..][2] == 'o';
  }

  /** The photo rows saved for the links, in order. */
  function PhotoRows(inspectionId: Id, urls: seq<string>, vendorId: Id): (rows: seq<FarmPhoto>)
    ensures |rows| == |urls|
    ensures forall i :: 0 <= i < |urls| ==>
      rows[i] == FarmPhoto(inspectionId, urls[i], PhotoType(urls[i]), vendorId)
  {
    if |urls| == 0 then []
    else
      var last := urls[|urls| - 1];
      PhotoRows(inspectionId, urls[..|urls| - 1], vendorId) + [FarmPhoto(inspectionId, last, PhotoType(last), vendorId)]
  }

  /** The photo-saving loop: one row per link, appended in order; a missing list saves none. */
  method SavePhotos(db: Database, inspectionId: Id, photoUrls: Option<seq<string>>, vendorId: Id)
    modifies db`photos
    ensures photoUrls.None? ==> db.photos == old(db.photos)
    ensures photoUrls.Some? ==> db.photos == old(db.photos) + PhotoRows(inspectionId, photoUrls.value, vendorId)
  {
    if photoUrls.Some? {
      var urls := photoUrls.value;
      var i := 0;
      while i < |urls|
        invariant 0 <= i <= |urls|
        invariant db.photos == old(db.photos) + PhotoRows(inspectionId, urls[..i], vendorId)
      {
        assert urls[..i + 1][..i] == urls[..i];
        db.photos := db.photos + [FarmPhoto(inspectionId, urls[i], PhotoType(urls[i]), vendorId)];
        i := i + 1;
      }
      assert urls[..i] == urls;
    }
  }

  // ---------------------------------------------------------------------------
  // Submitting an inspection.

  /** Whether a request id was given: present and not empty. */
  predicate HasRequestId(requestId: Option<string>)
  {
    requestId.Some? && requestId.value != ""
  }

  /**
   * The request link: a given request id is recorded on the inspection, and
   * the request it names, when it exists, becomes COMPLETED at `now`.
   */
  method LinkRequest(inspection: FarmInspection, requestId: Option<string>, linked: InspectionRequest?, now: DateTime)
    modifies inspection, linked
    ensures HasRequestId(requestId) ==> inspection.State() == old(inspection.State()).(requestId := requestId)
    ensures !HasRequestId(requestId) ==> inspection.State() == old(inspection.State())
    ensures linked != null && HasRequestId(requestId) ==>
      linked.status == RequestCompleted && linked.completedAt == Some(now)
    ensures linked != null && !HasRequestId(requestId) ==> unchanged(linked)
  {
    if HasRequestId(requestId) {
      inspection.requestId := requestId;
      if linked != null {
        linked.status := RequestCompleted;
        linked.completedAt := Some(now);
      }
    }
  }

  /**
   * `createInspection`. `farm` is the farm the request names and `linked` the
   * request its request id names, each null when not found. The farm and the
   * vendor must exist and the links must pass the media check; then the farm
   * waits for a decision, a PENDING inspection is stored with the next id,
   * the request is linked, and one photo row per link is saved. On an error
   * nothing changes.
   */
  method CreateInspection(db: Database, farm: Farm?, vendorId: Id, estimatedBoxes: int,
                          inspectionNotes: Option<string>, requestId: Option<string>,
                          photoUrls: Option<seq<string>>, linked: InspectionRequest?, now: DateTime)
    returns (r: Result<FarmInspection, FarmError>)
    modifies db`inspections, db`photos, farm, linked
    ensures farm == null ==> r == Err(FarmNotFound)
    ensures farm != null && vendorId >= |old(db.users)| ==> r == Err(UserNotFound)
    ensures farm != null && vendorId < |old(db.users)| && MediaCheck(photoUrls).Err? ==>
      r == Err(Media(MediaCheck(photoUrls).error))
    ensures r.Ok? <==> farm != null && vendorId < |old(db.users)| && MediaCheck(photoUrls).Ok?
    ensures r.Err? ==> unchanged(db) && (farm != null ==> unchanged(farm)) && (linked != null ==> unchanged(linked))
    ensures farm != null ==> farm.farmerName == old(farm.farmerName) && farm.location == old(farm.location)
    ensures r.Ok? ==>
      && fresh(r.value)
      && farm.status == InspectionPending
      && r.value.id == |old(db.inspections)| && r.value.farm == farm && r.value.vendorId == vendorId
      && r.value.State() == InspectionState(estimatedBoxes, inspectionNotes,
                                            if HasRequestId(requestId) then requestId else None,
                                            Pending, None, None, None)
      && db.inspections == old(db.inspections) + [r.value]
      && db.photos == old(db.photos) + PhotoRows(r.value.id, photoUrls.GetOr([]), vendorId)
      && db.batches == old(db.batches) && db.users == old(db.users)
    ensures r.Ok? && linked != null ==>
      if HasRequestId(requestId) then linked.status == RequestCompleted && linked.completedAt == Some(now)
      else unchanged(linked)
  {
    if farm == null {
      return Err(FarmNotFound);
    }
    if vendorId >= |db.users| {
      return Err(UserNotFound);
    }
    var photoCount, videoCount := CountMedia(photoUrls);
    var check := ValidateInspectionMedia(photoCount, videoCount);
    if check.Err? {
      return Err(Media(check.error));
    }
    farm.status := InspectionPending;
    var inspection := new FarmInspection(|db.inspections|, farm, vendorId, estimatedBoxes, inspectionNotes);
    LinkRequest(inspection, requestId, linked, now);
    db.inspections := db.inspections + [inspection];
    SavePhotos(db, inspection.id, photoUrls, vendorId);
    r := Ok(inspection);
  }

  // ---------------------------------------------------------------------------
  // Deciding an inspection.

  /** `generateBatchId`: "BATCH-", today as yyyyMMdd, "-", and the batch count plus one in at least four digits. */
  function BatchCode(today: Date, batchCount: nat): string
  {
    SequenceCode("BATCH-", today, batchCount, 4)
  }

  /**
   * A batch code reads back: the prefix, the year, month and day as yyyyMMdd,
   * a dash, and the count plus one padded to exactly four digits (more only
   * when it needs more).
   */
  lemma BatchCodeParts(today: Date, batchCount: nat)
    ensures var code := BatchCode(today, batchCount);
      && |code| >= 19
      && code[..6] == "BATCH-"
      && code[6..14] == FormatDate(today)
      && AllDigits(code[6..10]) && DigitsValue(code[6..10]) == today.year && AllDigits(code[10..12]) && DigitsValue(code[10..12]) == today.month
      && AllDigits(code[12..14]) && DigitsValue(code[12..14]) == today.day
      && code[14] == '-'
      && AllDigits(code[15..])
      && DigitsValue(code[15..]) == batchCount + 1
      && |code[15..]| == (if |Decimal(batchCount + 1)| < 4 then 4 else |Decimal(batchCount + 1)|)
  {
    SequenceCodeParts("BATCH-", today, batchCount, 4);
  }

  /** Two approvals made at different batch counts get different codes, even on the same day. */
  lemma BatchCodesDistinct(today: Date, c1: nat, c2: nat)
    requires c1 != c2
    ensures BatchCode(today, c1) != BatchCode(today, c2)
  {
    SequenceCodeInjective("BATCH-", today, c1, c2, 4);
  }

  /**
   * The batch an approval opens: CREATED, the estimate as estimated, allocated
   * and remaining boxes, nothing harvested, dispatched or awaiting a gate pass,
   * started today, created by the approver.
   */
  function ApprovedBatch(code: string, inspectionId: Id, farmId: Id, vendorId: Id, approverId: Id,
                         estimatedBoxes: int, today: Date): (s: BatchState)
    ensures s.status == Created && s.startDate == Some(today) && s.endDate == None
    ensures s.estimatedBoxes == estimatedBoxes
    ensures s.allocatedBoxes == Some(estimatedBoxes) && s.remainingBoxes == Some(estimatedBoxes)
    ensures s.harvestedBoxes == Some(0) && s.dispatchedBoxes == Some(0) && s.gatePassRemaining == Some(0)
    ensures s.actualBoxes == Some(0)
    ensures s.batchCode == code && s.createdBy == Some(approverId)
    ensures s.inspectionId == Some(inspectionId) && s.farmId == Some(farmId) && s.vendorId == Some(vendorId)
  {
    BatchState(code, Some(inspectionId), Some(farmId), Some(vendorId), Some(approverId), Created, estimatedBoxes,
               Some(estimatedBoxes), Some(0), Some(estimatedBoxes), Some(0), Some(0), Some(0), Some(today), None)
  }

  /** A new batch meets the counter relationships exactly when its estimate is not negative. */
  lemma ApprovedBatchConsistent(code: string, inspectionId: Id, farmId: Id, vendorId: Id, approverId: Id,
                                estimatedBoxes: int, today: Date)
    ensures Consistent(ApprovedBatch(code, inspectionId, farmId, vendorId, approverId, estimatedBoxes, today))
            <==> estimatedBoxes >= 0
  {
  }

  /** The inspection after a decision: the status, the approver and the time, and a reason only on rejection. */
  function Decided(s: InspectionState, approved: bool, approverId: Id, rejectionReason: Option<string>,
                   now: DateTime): (t: InspectionState)
    ensures t.status == (if approved then Approved else Rejected)
    ensures t.approvedBy == Some(approverId) && t.approvedAt == Some(now)
    ensures t.rejectionReason == (if approved then s.rejectionReason else rejectionReason)
    ensures t.estimatedBoxes == s.estimatedBoxes && t.requestId == s.requestId
    ensures t.inspectionNotes == s.inspectionNotes
  {
    var t := s.(status := if approved then Approved else Rejected, approvedBy := Some(approverId),
                approvedAt := Some(now));
    if approved then t else t.(rejectionReason := rejectionReason)
  }

  /** The decision's writes to the inspection and its farm. */
  method RecordDecision(inspection: FarmInspection, approved: bool, approverId: Id,
                        rejectionReason: Option<string>, now: DateTime)
    modifies inspection, inspection.farm
    ensures inspection.State() == Decided(old(inspection.State()), approved, approverId, rejectionReason, now)
    ensures inspection.farm.status == if approved then ReadyForHarvest else InspectionRejected
    ensures inspection.farm.farmerName == old(inspection.farm.farmerName)
    ensures inspection.farm.location == old(inspection.farm.location)
  {
    inspection.status := if approved then Approved else Rejected;
    inspection.approvedBy := Some(approverId);
    inspection.approvedAt := Some(now);
    if !approved {
      inspection.rejectionReason := rejectionReason;
    }
    inspection.farm.status := if approved then ReadyForHarvest else InspectionRejected;
  }

  /**
   * `approveInspection`. `inspection` is the inspection looked up by id, null
   * when not found. The approver must exist. Whatever the inspection's current
   * status, an approval records the decision, makes the farm ready for
   * harvest and stores a new batch built from the estimate; a rejection
   * records the decision and the reason, marks the farm rejected, stores no
   * batch and ends in an error that carries the reason.
   */
  method ApproveInspection(db: Database, inspection: FarmInspection?, approverId: Id, approved: bool,
                           rejectionReason: Option<string>, now: DateTime)
    returns (r: Result<Batch, FarmError>)
    modifies db`batches, if inspection != null then {inspection, inspection.farm} else {}
    ensures inspection == null ==> r == Err(InspectionNotFound) && db.batches == old(db.batches)
    ensures inspection != null && approverId >= |db.users| ==>
      r == Err(UserNotFound) && db.batches == old(db.batches)
      && unchanged(inspection) && unchanged(inspection.farm)
    ensures inspection != null && approverId < |db.users| ==>
      && inspection.State() == Decided(old(inspection.State()), approved, approverId, rejectionReason, now)
      && inspection.farm.status == (if approved then ReadyForHarvest else InspectionRejected)
      && inspection.farm.farmerName == old(inspection.farm.farmerName)
      && inspection.farm.location == old(inspection.farm.location)
    ensures inspection != null && approverId < |db.users| && !approved ==>
      r == Err(Rejection(rejectionReason)) && db.batches == old(db.batches)
    ensures inspection != null && approverId < |db.users| && approved ==>
      && r.Ok? && fresh(r.value)
      && r.value.id == |old(db.batches)|
      && db.batches == old(db.batches) + [r.value]
      && r.value.State() == ApprovedBatch(BatchCode(now.date, |old(db.batches)|), inspection.id,
                                          inspection.farm.id, inspection.vendorId, approverId,
                                          old(inspection.estimatedBoxes), now.date)
  {
    if inspection == null {
      return Err(InspectionNotFound);
    }
    if approverId >= |db.users| {
      return Err(UserNotFound);
    }
    RecordDecision(inspection, approved, approverId, rejectionReason, now);
    if !approved {
      return Err(Rejection(rejectionReason));
    }
    var est := inspection.estimatedBoxes;
    var batch := new Batch.Build(|db.batches|, BatchCode(now.date, |db.batches|), est,
                                 Some(Created), Some(est), Some(0), Some(est), None, Some(0), Some(0),
                                 Some(now.date), None,
                                 Some(inspection.id), Some(inspection.farm.id), Some(inspection.vendorId),
                                 Some(approverId));
    db.batches := db.batches + [batch];
    r := Ok(batch);
  }
}
