/**
 * The Payment Approval screen over the "Service" sheet: services whose
 * payment is up for approval (`paymentApproval` set, `tallyEntry` empty)
 * and those already decided, and the submit that writes the timestamp to
 * column 22 and then the chosen status to column 24, stopping if the first
 * write fails.
 */
module PaymentApproval {
  import opened Wrappers
  import opened Seqs
  import opened Sheet
  import opened Clock
  import opened Search

  // ------------------------------------------------------------------ tasks

  /** A service row as this screen maps it. */
  datatype Task = Task(
    rowIndex: int,
    serviceNo: string, serviceChecker: string, machineName: string, vendorName: string,
    workDescription: string, serviceLocation: string, billCopyImage: string, remarks: string,
    quotation: string, quotationImage: string, totalAmount: string, tdsDeductionAmount: string,
    externalActual: string, partsName: string, partsAmount: string, partsBillCopy: string,
    partsRemarks: string, paymentApproval: string, tallyEntry: string, approvalStatusValue: string)

  /** One row to a task: cells 1 to 12, 14, 16 to 21 and 23, each `""` when absent. */
  function MapRow(row: Row, rowIndex: int): (t: Task)
    ensures t.rowIndex == rowIndex && t.serviceNo == Cell(row, 1)
    ensures t.paymentApproval == Cell(row, 20) && t.tallyEntry == Cell(row, 21)
    ensures t.approvalStatusValue == Cell(row, 23)
  {
    Task(
      rowIndex, Cell(row, 1), Cell(row, 2), Cell(row, 3), Cell(row, 4), Cell(row, 5),
      Cell(row, 6), Cell(row, 7), Cell(row, 8), Cell(row, 9), Cell(row, 10), Cell(row, 11),
      Cell(row, 12), Cell(row, 14), Cell(row, 16), Cell(row, 17), Cell(row, 18), Cell(row, 19),
      Cell(row, 20), Cell(row, 21), Cell(row, 23))
  }

  /** Six header rows skipped; record i comes from `rows[6 + i]`, which is sheet row i + 7. */
  function MapTasks(rows: Rows): (ts: seq<Task>)
    ensures |ts| == if |rows| <= 6 then 0 else |rows| - 6
    ensures forall i :: 0 <= i < |ts| ==> ts[i] == MapRow(rows[6 + i], i + 7)
  {
    MapRows(rows, 6, 7, MapRow)
  }

  /** A task's row number addresses the very row it was read from. */
  lemma RowIndexAddressesOwnRow(rows: Rows, i: nat, c: nat)
    requires i < |MapTasks(rows)|
    ensures CellAt(rows, MapTasks(rows)[i].rowIndex, c + 1) == Cell(rows[6 + i], c)
  {
    assert MapTasks(rows)[i].rowIndex == i + 7;
  }

  /** Up for approval and not yet entered. */
  predicate IsPending(t: Task)
  {
    t.paymentApproval != "" && t.tallyEntry == ""
  }

  /** Up for approval and entered. */
  predicate IsHistory(t: Task)
  {
    t.paymentApproval != "" && t.tallyEntry != ""
  }

  /** Never put up for approval: shown in neither tab. */
  predicate IsUnlisted(t: Task)
  {
    t.paymentApproval == ""
  }

  /** The two tabs: an order-preserving selection each, and no task in both. */
  function Stages(ts: seq<Task>): (r: (seq<Task>, seq<Task>))
    ensures forall k :: 0 <= k < |r.0| ==> IsPending(r.0[k]) && !IsHistory(r.0[k])
    ensures forall k :: 0 <= k < |r.1| ==> IsHistory(r.1[k]) && !IsPending(r.1[k])
    ensures forall k :: 0 <= k < |ts| ==> (IsPending(ts[k]) ==> ts[k] in r.0) && (IsHistory(ts[k]) ==> ts[k] in r.1)
    ensures IsSubsequence(r.0, ts) && IsSubsequence(r.1, ts)
  {
    FilterIsSubsequence(ts, IsPending);
    FilterIsSubsequence(ts, IsHistory);
    (Filter(ts, IsPending), Filter(ts, IsHistory))
  }

  /** Every task is pending, in history, or never put up for approval, and exactly one of them. */
  lemma StagesPartition(ts: seq<Task>)
    ensures |Stages(ts).0| + |Stages(ts).1| + |Filter(ts, IsUnlisted)| == |ts|
  {
    PartitionSizes(ts, IsPending, IsHistory, IsUnlisted);
  }

  // ----------------------------------------------------------------- search

  /** The fields the search box looks at. */
  function SearchFields(t: Task): seq<string>
  {
    [t.serviceNo, t.vendorName, t.serviceChecker, t.workDescription]
  }

  /** `filterTasks`: the tasks with a field containing the term, ignoring case, in order. */
  function FilterTasks(ts: seq<Task>, term: string): (r: seq<Task>)
    ensures IsSubsequence(r, ts)
    ensures forall i :: 0 <= i < |r| ==> AnyFieldMatches(SearchFields(r[i]), term)
    ensures forall i :: 0 <= i < |ts| && AnyFieldMatches(SearchFields(ts[i]), term) ==> ts[i] in r
  {
    SearchBy(ts, SearchFields, term)
  }

  /** An empty search box shows the whole tab. */
  lemma FilterEmptyTerm(ts: seq<Task>)
    ensures FilterTasks(ts, "") == ts
  {
    EmptyTermKeepsAll(ts, SearchFields);
  }

  // ---------------------------------------------------------------- approve

  /**
   * An accepted timestamp write fills the tally cell (index 21) and moves a
   * pending service to history; the approval cell is not written.
   */
  lemma ApprovalMovesToHistory(rows: Rows, i: nat, timestamp: string)
    requires i < |MapTasks(rows)| && timestamp != ""
    ensures MapTasks(rows)[i].rowIndex == i + 7
    ensures var after := SetCell(rows, i + 7, 22, timestamp);
      i < |MapTasks(after)| && MapTasks(after)[i].tallyEntry == timestamp
      && MapTasks(after)[i].paymentApproval == MapTasks(rows)[i].paymentApproval
      && !IsPending(MapTasks(after)[i])
      && (IsHistory(MapTasks(after)[i]) <==> MapTasks(rows)[i].paymentApproval != "")
  {
    var after := SetCell(rows, i + 7, 22, timestamp);
    SetCellFrame(rows, i + 7, 22, timestamp, i + 7, 21);
    assert MapTasks(after)[i] == MapRow(after[6 + i], i + 7);
    assert MapTasks(rows)[i] == MapRow(rows[6 + i], i + 7);
  }

  /** After both writes the status cell (index 23) holds exactly the chosen status, and the timestamp stays. */
  lemma StatusRecorded(rows: Rows, i: nat, timestamp: string, status: string)
    requires i < |MapTasks(rows)|
    ensures var after := SetCell(SetCell(rows, i + 7, 22, timestamp), i + 7, 24, status);
      i < |MapTasks(after)| && MapTasks(after)[i].approvalStatusValue == status
      && MapTasks(after)[i].tallyEntry == timestamp
  {
    var mid := SetCell(rows, i + 7, 22, timestamp);
    var after := SetCell(mid, i + 7, 24, status);
    SetCellFrame(mid, i + 7, 24, status, i + 7, 22);
    assert MapTasks(after)[i] == MapRow(after[6 + i], i + 7);
  }

  /** What a submit came to, as the user is told. */
  datatype Outcome =
    | NoStatus   // no service or no status chosen: "Please select a status", nothing written
    | Decided    // both writes went through; the form is cleared and the tasks re-fetched
    | Failed     // a write reported failure; the timestamp stays if it was the status that failed

  /**
   * The screen's state: the "Service" sheet it writes, the tasks it shows,
   * the service picked and the status chosen in the form.
   */
  class ApprovalDesk {
    const sheet: Spreadsheet
    var tasks: seq<Task>
    var selected: Option<Task>
    var approvalStatus: string

    constructor (sheet: Spreadsheet)
      ensures this.sheet == sheet && tasks == [] && selected == None && approvalStatus == ""
    {
      this.sheet := sheet;
      tasks := [];
      selected := None;
      approvalStatus := "";
    }

    /** `fetchTasks`: the tasks are recomputed from the sheet. */
    method FetchTasks()
      modifies this
      ensures tasks == MapTasks(sheet.rows)
      ensures selected == old(selected) && approvalStatus == old(approvalStatus)
    {
      tasks := MapTasks(sheet.rows);
    }

    /** `handleOpenModal`: pick a service, with no status chosen yet. */
    method OpenModal(t: Task)
      modifies this
      ensures selected == Some(t) && approvalStatus == "" && tasks == old(tasks)
    {
      selected := Some(t);
      approvalStatus := "";
    }

    /** The status select of the form. */
    method ChooseStatus(status: string)
      modifies this
      ensures approvalStatus == status && selected == old(selected) && tasks == old(tasks)
    {
      approvalStatus := status;
    }

    /**
     * `handleApproveSubmit`: nothing without a service and a status; then
     * the timestamp of `now` to column 22 and, only if that went through,
     * the status to column 24.
     */
    method Submit(now: Instant, first: Response, second: Response) returns (outcome: Outcome)
      requires now.Valid()
      requires selected.Some? ==> selected.value.rowIndex >= 1
      modifies this, sheet
      ensures old(selected).None? || old(approvalStatus) == "" ==> outcome == NoStatus && unchanged(this, sheet)
      ensures old(selected).Some? && old(approvalStatus) != "" ==>
        Decide(old(sheet.rows), old(selected).value.rowIndex, PaddedTimestamp(now), old(approvalStatus),
               first, second, old(tasks), old(selected), outcome, sheet.rows, tasks, selected, approvalStatus)
    {
      if selected.None? || approvalStatus == "" {
        return NoStatus;
      }
      var timestamp := PaddedTimestamp(now);
      outcome := Write(selected.value.rowIndex, timestamp, first, second);
    }

    /** The two ordered writes; a failed response throws before the next one. */
    method Write(r: nat, timestamp: string, first: Response, second: Response) returns (outcome: Outcome)
      requires r >= 1
      modifies this, sheet
      ensures Decide(old(sheet.rows), r, timestamp, old(approvalStatus), first, second,
                     old(tasks), old(selected), outcome, sheet.rows, tasks, selected, approvalStatus)
    {
      var result := sheet.UpdateCell(r, 22, timestamp, first);
      if !result.success {
        return Failed;
      }
      result := sheet.UpdateCell(r, 24, approvalStatus, second);
      if !result.success {
        return Failed;
      }
      selected := None;
      approvalStatus := "";
      FetchTasks();
      outcome := Decided;
    }
  }

  /**
   * The state after the two ordered writes to row `r`: a failed first write
   * changes nothing; a failed second one leaves only the timestamp; when
   * both go through the row holds both, the form is cleared and the tasks
   * are those of the new sheet.
   */
  predicate Decide(rows: Rows, r: nat, timestamp: string, status: string, first: Response, second: Response,
                   tasks: seq<Task>, selected: Option<Task>,
                   outcome: Outcome, rows': Rows, tasks': seq<Task>, selected': Option<Task>, status': string)
    requires r >= 1
  {
    if !first.success then
      outcome == Failed && rows' == rows && tasks' == tasks && selected' == selected && status' == status
    else if !second.success then
      outcome == Failed && rows' == SetCell(rows, r, 22, timestamp)
      && tasks' == tasks && selected' == selected && status' == status
    else
      outcome == Decided && rows' == SetCell(SetCell(rows, r, 22, timestamp), r, 24, status)
      && tasks' == MapTasks(rows') && selected' == None && status' == ""
  }
}
