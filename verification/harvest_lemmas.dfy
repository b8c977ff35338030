/**
 * Properties of the harvest service: the counter invariant the report and
 * gate pass paths keep (and lose on negative sizes), how re-reading the totals
 * relates to the increment, a whole harvest run, the cost roll-up on concrete
 * numbers, and that a recalculation repeated changes nothing but its time.
 */
module HarvestLemmas {
  import opened Common
  import opened Money
  import opened Codes
  import opened Batches
  import opened BatchCosts
  import opened Store
  import opened Harvest

  /** A consistent batch with `a` boxes allocated, `h` harvested and `d` dispatched. */
  function Counters(status: BatchStatus, a: int, h: int, d: int): BatchState
  {
    BatchState("B", None, None, None, None, status, a, Some(a), Some(h), Some(a - h), Some(h), Some(d), Some(h - d),
               None, None)
  }

  /** An accepted report of a non-negative size keeps 0 <= dispatched <= harvested <= allocated. */
  lemma ReportKeepsConsistent(s: BatchState, packed: int)
    requires Consistent(s) && packed >= 0
    requires ApplyReport(s, packed).Ok?
    ensures Consistent(ApplyReport(s, packed).value)
  {
    var n := ApplyReport(s, packed).value;
    assert n.harvestedBoxes.value == s.harvestedBoxes.value + packed;
    assert packed <= s.remainingBoxes.value;
  }

  /** Nothing rejects a negative report: it passes the check and drives harvested below dispatched. */
  lemma NegativeReportBreaksInvariant()
    ensures Consistent(Counters(HarvestInProgress, 10, 5, 5))
    ensures ApplyReport(Counters(HarvestInProgress, 10, 5, 5), -1).Ok?
    ensures !Consistent(ApplyReport(Counters(HarvestInProgress, 10, 5, 5), -1).value)
  {
    var r := ApplyReport(Counters(HarvestInProgress, 10, 5, 5), -1);
    assert r.value.harvestedBoxes == Some(4);
  }

  /** An accepted gate pass of a non-negative size keeps 0 <= dispatched <= harvested <= allocated. */
  lemma GatePassKeepsConsistent(s: BatchState, total: int)
    requires Consistent(s) && total >= 0
    requires ApplyGatePass(s, total).Ok?
    ensures Consistent(ApplyGatePass(s, total).value)
  {
    var n := NormalizeForDispatch(s);
    assert n == s;
    assert total <= s.gatePassRemaining.value;
  }

  /** Nothing rejects a negative gate pass: it drives dispatched below zero. */
  lemma NegativeGatePassBreaksInvariant()
    ensures Consistent(Counters(HarvestInProgress, 10, 5, 0))
    ensures ApplyGatePass(Counters(HarvestInProgress, 10, 5, 0), -1).Ok?
    ensures !Consistent(ApplyGatePass(Counters(HarvestInProgress, 10, 5, 0), -1).value)
  {
    var s := Counters(HarvestInProgress, 10, 5, 0);
    assert NormalizeForDispatch(s) == s;
  }

  /**
   * When a batch's harvested count already equals the sum over its stored
   * reports, storing the new report and re-reading the totals gives back exactly
   * the incremented counters: the re-read is then a no-op.
   */
  lemma ResumMatchesIncrement(s: BatchState, req: DailyHarvestRequest, reports: seq<DailyHarvestReport>,
                              batchId: Id, userId: Id)
    requires CheckReport(s, req).Ok?
    requires s.harvestedBoxes == Some(SumBoxesPacked(reports, batchId))
    ensures var n := CheckReport(s, req).value;
      Resum(n, SumBoxesPacked(reports + [ReportRow(batchId, req, userId)], batchId)) == n
  {
    SumBoxesPackedSnoc(reports, ReportRow(batchId, req, userId), batchId);
  }

  /**
   * The batch a successful `CreateDailyReport` leaves behind is consistent when
   * the batch was consistent, in step with its stored reports, and the report
   * size is not negative.
   */
  lemma DailyReportKeepsConsistent(s: BatchState, req: DailyHarvestRequest, reports: seq<DailyHarvestReport>,
                                   batchId: Id, userId: Id)
    requires Consistent(s) && req.boxesPacked >= 0
    requires CheckReport(s, req).Ok?
    requires s.harvestedBoxes == Some(SumBoxesPacked(reports, batchId))
    ensures Consistent(Resum(CheckReport(s, req).value,
                             SumBoxesPacked(reports + [ReportRow(batchId, req, userId)], batchId)))
  {
    ResumMatchesIncrement(s, req, reports, batchId, userId);
    ReportKeepsConsistent(s, req.boxesPacked);
  }

  /**
   * When the stored harvested count has drifted from the reports (here a legacy
   * count of 5 with no report stored), the re-read resets harvested but leaves
   * gatePassRemaining computed from the drifted count.
   */
  lemma ResumCanLeaveGatePassStale()
    ensures var s := Counters(HarvestInProgress, 10, 5, 0);
      var req := DailyHarvestRequest(Date(2024, 1, 1), 1, 0, 1, None, None);
      && CheckReport(s, req).Ok?
      && var after := Resum(CheckReport(s, req).value, SumBoxesPacked([ReportRow(0, req, 0)], 0));
      && after.harvestedBoxes == Some(1)
      && after.gatePassRemaining == Some(6)
      && !Consistent(after)
  {
    var req := DailyHarvestRequest(Date(2024, 1, 1), 1, 0, 1, None, None);
    SumBoxesPackedSnoc([], ReportRow(0, req, 0), 0);
  }

  /** A report that fills the allocation completes the harvest. */
  lemma FullHarvestCompletes(s: BatchState)
    requires Consistent(s)
    ensures ApplyReport(s, s.remainingBoxes.value).Ok?
    ensures ApplyReport(s, s.remainingBoxes.value).value.status == HarvestCompleted
    ensures ApplyReport(s, s.remainingBoxes.value).value.remainingBoxes == Some(0)
  {
  }

  /** A report on consistent counters, accepted or refused, in terms of the counters alone. */
  lemma ReportOnCounters(status: BatchStatus, a: int, h: int, d: int, packed: int)
    ensures packed <= a - h ==>
      ApplyReport(Counters(status, a, h, d), packed) == Ok(Counters(ReportStatus(status, h + packed, a), a, h + packed, d))
    ensures packed > a - h ==>
      ApplyReport(Counters(status, a, h, d), packed) == Err(HarvestLimitExceeded(a - h))
  {
  }

  /** A gate pass on consistent counters, accepted or refused, in terms of the counters alone. */
  lemma GatePassOnCounters(status: BatchStatus, a: int, h: int, d: int, total: int)
    ensures total <= h - d ==>
      ApplyGatePass(Counters(status, a, h, d), total)
        == Ok(Counters(GatePassStatus(status, d + total, h, a), a, h, d + total))
    ensures total > h - d ==>
      ApplyGatePass(Counters(status, a, h, d), total) == Err(DispatchLimitExceeded(h - d))
  {
    assert NormalizeForDispatch(Counters(status, a, h, d)) == Counters(status, a, h, d);
  }

  /**
   * A whole run on a batch of 100 boxes: 60 packed, a report of 41 refused naming
   * the 40 left, the last 40 packed, a gate pass of 101 refused naming the 100
   * harvested, and one gate pass of all 100 completing the dispatch.
   */
  lemma EndToEndScenario()
    ensures ApplyReport(Counters(Created, 100, 0, 0), 60) == Ok(Counters(HarvestInProgress, 100, 60, 0))
    ensures ApplyReport(Counters(HarvestInProgress, 100, 60, 0), 41) == Err(HarvestLimitExceeded(40))
    ensures ApplyReport(Counters(HarvestInProgress, 100, 60, 0), 40) == Ok(Counters(HarvestCompleted, 100, 100, 0))
    ensures ApplyGatePass(Counters(HarvestCompleted, 100, 100, 0), 101) == Err(DispatchLimitExceeded(100))
    ensures ApplyGatePass(Counters(HarvestCompleted, 100, 100, 0), 100)
         == Ok(Counters(DispatchCompleted, 100, 100, 100))
  {
    ReportOnCounters(Created, 100, 0, 0, 60);
    ReportOnCounters(HarvestInProgress, 100, 60, 0, 41);
    ReportOnCounters(HarvestInProgress, 100, 60, 0, 40);
    GatePassOnCounters(HarvestCompleted, 100, 100, 0, 101);
    GatePassOnCounters(HarvestCompleted, 100, 100, 0, 100);
  }

  /** Dispatching part of a partial harvest moves to DISPATCH_IN_PROGRESS; catching up goes back to harvesting. */
  lemma DispatchCatchUpScenario()
    ensures ApplyGatePass(Counters(HarvestInProgress, 100, 60, 0), 20)
         == Ok(Counters(DispatchInProgress, 100, 60, 20))
    ensures ApplyGatePass(Counters(DispatchInProgress, 100, 60, 20), 40)
         == Ok(Counters(HarvestInProgress, 100, 60, 60))
  {
    GatePassOnCounters(HarvestInProgress, 100, 60, 0, 20);
    GatePassOnCounters(DispatchInProgress, 100, 60, 20, 40);
  }

  /**
   * Rolling up 100.00 of material, 100.00 of outward transport and 300.00 of
   * labour over 100 boxes gives 1.00, 1.00 and 3.00 per box and 5.00 in all.
   */
  lemma CostScenario()
    ensures RollUp(10000, 10000, 30000, 0, 100)
         == CostFigures(10000, 100, 10000, 100, 30000, 300, 0, 0, 50000, 500)
  {
    DivHalfUpExact(100, 100);
    DivHalfUpExact(300, 100);
    DivHalfUpExact(0, 100);
    DivHalfUpExact(500, 100);
  }

  /** HALF_UP in the roll-up: 1.00 over 8 boxes is 0.125, which rounds to 0.13. */
  lemma RollUpRoundsTieUp()
    ensures RollUp(100, 0, 0, 0, 8).materialCostPerBox == 13
  {
    RollUpSpec(100, 0, 0, 0, 8);
    DivHalfUpUnique(100, 8, 13);
  }

  /**
   * With no actual boxes and an estimate of 0 the box count is 0: the roll-up
   * guards that and reports zero per box, but the transport per-box division
   * does not and fails.
   */
  lemma TransportPerBoxUnguarded(totalCost: int)
    ensures CostBoxCount(None, 0) == 0
    ensures RollUp(0, totalCost, 0, 0, CostBoxCount(None, 0)).outwardTransportPerBox == 0
    ensures TransportCostPerBox(totalCost, None, 0) == Err(DivisionByZero)
  {
    RollUpSpec(0, totalCost, 0, 0, 0);
  }

  /** A snapshot table holds at most one snapshot for the batch once it has been saved to. */
  lemma FindCostRowAfterSave(rows: seq<CostRow>, batchId: Id, f: CostFigures, now: DateTime)
    ensures FindCostRow(SaveFigures(rows, batchId, f, now), batchId)
         == Some(if FindCostRow(rows, batchId).Some? then FindCostRow(rows, batchId).value else |rows|)
  {
    var r := SaveFigures(rows, batchId, f, now);
    var k := FindCostRow(r, batchId);
    var i := if FindCostRow(rows, batchId).Some? then FindCostRow(rows, batchId).value else |rows|;
    assert r[i].batchId == Some(batchId);
    assert forall j :: 0 <= j < i ==> r[j] == rows[j];
  }

  /**
   * Recalculating twice with the same figures leaves the table as one
   * recalculation at the later time would: the figures are the same and only
   * the calculation time moves.
   */
  lemma RecalculateIdempotent(rows: seq<CostRow>, batchId: Id, f: CostFigures, t1: DateTime, t2: DateTime)
    ensures SaveFigures(SaveFigures(rows, batchId, f, t1), batchId, f, t2) == SaveFigures(rows, batchId, f, t2)
  {
    FindCostRowAfterSave(rows, batchId, f, t1);
    var once := SaveFigures(rows, batchId, f, t1);
    var twice := SaveFigures(once, batchId, f, t2);
    var direct := SaveFigures(rows, batchId, f, t2);
    assert |twice| == |direct|;
    forall j | 0 <= j < |twice|
      ensures twice[j] == direct[j]
    {
    }
  }

  /** Gate passes numbered on the same day from different counts get different numbers. */
  lemma GatePassNoDistinct(today: Date, c1: nat, c2: nat)
    requires c1 != c2
    ensures GatePassNo(today, c1) != GatePassNo(today, c2)
  {
    SequenceCodeInjective("GP-", today, c1, c2, 4);
  }

  /** What one gate pass contributes to the received total of a batch. */
  function ReceivedShare(g: GatePass, batchId: Id): int
  {
    if g.batchId == batchId && g.receivedBoxes.Some? then g.receivedBoxes.value else 0
  }

  /**
   * Receiving gate pass `i` replaces its share of its batch's received total by
   * the received count; the totals of other batches do not move.
   */
  lemma {:induction false} SumReceivedAfterReceive(passes: seq<GatePass>, i: nat, rb: int, receiver: Id, now: DateTime,
                                                   batchId: Id)
    requires i < |passes|
    ensures SumReceivedBoxes(passes[i := Received(passes[i], rb, receiver, now)], batchId)
         == SumReceivedBoxes(passes, batchId) - ReceivedShare(passes[i], batchId)
            + (if passes[i].batchId == batchId then rb else 0)
  {
    var after := passes[i := Received(passes[i], rb, receiver, now)];
    var n := |passes| - 1;
    assert after[..n] == if i < n then passes[..n][i := Received(passes[i], rb, receiver, now)] else passes[..n];
    if i < n {
      SumReceivedAfterReceive(passes[..n], i, rb, receiver, now, batchId);
    }
  }
}
