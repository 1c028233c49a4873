/**
 * The Sent Machine screen: tasks of the "Repair System" sheet waiting to be
 * sent to a vendor (`actual` empty) and those already sent, and the submit
 * that records the dispatch in columns 18 and 20 to 27 of the task's row.
 */
module SentMachine {
  import opened Wrappers
  import opened Seqs
  import opened Sheet

  // ------------------------------------------------------------------ tasks

  /** A task row as this screen maps it, restricted to the fields the screen reads. */
  datatype Task = Task(
    rowIndex: int,
    taskNo: string, serialNo: string, machineName: string, machinePartName: string,
    doerName: string, taskStartDate: string, priority: string, department: string,
    planned: string, actual: string, vendorName: string, leadTimeToDeliverDays: string,
    transporterName: string, transportationCharges: string, weighmentSlip: string,
    transportingImageWithMachine: string, paymentType: string, howMuch: string)

  /** One row to a task: each field is its cell, `""` when the row is too short. */
  function MapRow(row: Row, rowIndex: int): (t: Task)
    ensures t.rowIndex == rowIndex
    ensures t.taskNo == Cell(row, 1) && t.machineName == Cell(row, 3)
    ensures t.planned == Cell(row, 16) && t.actual == Cell(row, 17)
    ensures t.vendorName == Cell(row, 19) && t.transportingImageWithMachine == Cell(row, 24)
    ensures t.paymentType == Cell(row, 25) && t.howMuch == Cell(row, 26)
  {
    Task(
      rowIndex, Cell(row, 1), Cell(row, 2), Cell(row, 3), Cell(row, 4), Cell(row, 6),
      Cell(row, 10), Cell(row, 12), Cell(row, 13), Cell(row, 16), Cell(row, 17),
      Cell(row, 19), Cell(row, 20), Cell(row, 21), Cell(row, 22), Cell(row, 23),
      Cell(row, 24), Cell(row, 25), Cell(row, 26))
  }

  /** Five header rows skipped; record i comes from `rows[5 + i]`, which is sheet row i + 6. */
  function MapTasks(rows: Rows): (ts: seq<Task>)
    ensures |ts| == if |rows| <= 5 then 0 else |rows| - 5
    ensures forall i :: 0 <= i < |ts| ==> ts[i] == MapRow(rows[5 + i], i + 6)
  {
    MapRows(rows, 5, 6, MapRow)
  }

  /** A task's row number addresses the very row it was read from. */
  lemma RowIndexAddressesOwnRow(rows: Rows, i: nat, c: nat)
    requires i < |MapTasks(rows)|
    ensures CellAt(rows, MapTasks(rows)[i].rowIndex, c + 1) == Cell(rows[5 + i], c)
  {
    assert MapTasks(rows)[i].rowIndex == i + 6;
  }

  /** Not sent yet; whether it was planned plays no part. */
  predicate IsPending(t: Task)
  {
    t.actual == ""
  }

  /** Sent, and planned. */
  predicate IsHistory(t: Task)
  {
    t.actual != "" && t.planned != ""
  }

  /** Sent without a plan: shown in neither tab. */
  predicate IsUnlisted(t: Task)
  {
    t.actual != "" && t.planned == ""
  }

  /** The two tabs: an order-preserving selection each, and no task in both. */
  function Stages(ts: seq<Task>): (r: (seq<Task>, seq<Task>))
    ensures forall k :: 0 <= k < |r.0| ==> IsPending(r.0[k]) && !IsHistory(r.0[k])
    ensures forall k :: 0 <= k < |r.1| ==> IsHistory(r.1[k]) && !IsPending(r.1[k])
    ensures forall k :: 0 <= k < |ts| ==> (IsPending(ts[k]) ==> ts[k] in r.0) && (IsHistory(ts[k]) ==> ts[k] in r.1)
    ensures IsSubsequence(r.0, ts) && IsSubsequence(r.1, ts)
  {
    FilterIsSubsequence(ts, IsPending);
    FilterIsSubsequence(ts, IsHistory);
    (Filter(ts, IsPending), Filter(ts, IsHistory))
  }

  /** Every task is pending, listed in history, or sent without a plan, and exactly one of them. */
  lemma StagesPartition(ts: seq<Task>)
    ensures |Stages(ts).0| + |Stages(ts).1| + |Filter(ts, IsUnlisted)| == |ts|
  {
    PartitionSizes(ts, IsPending, IsHistory, IsUnlisted);
  }

  // ----------------------------------------------------------------- submit

  /** The dispatch form; the transporting image is the upload, passed separately. */
  datatype SentForm = SentForm(
    vendorName: string, transporterName: string, transportationCharges: string,
    weighmentSlip: string, leadTimeToDeliver: string, paymentType: string, advancePayment: string)

  /** The how-much cell: the advance only for an advance payment. */
  function HowMuch(form: SentForm): (v: string)
    ensures form.paymentType == "Advance" ==> v == form.advancePayment
    ensures form.paymentType != "Advance" ==> v == ""
  {
    if form.paymentType == "Advance" then form.advancePayment else ""
  }

  /**
   * The image URL the submit goes on with. With no file attached it is `""`
   * and nothing is uploaded; a successful upload with a URL gives that URL.
   * Any other upload outcome never yields a value (the error branch calls a
   * `toast` that is not in scope, or the read failure rejects), so no update
   * is issued.
   */
  function ImageUrl(upload: Upload): (url: Option<string>)
    ensures upload == NoFile ==> url == Some("")
    ensures url.Some? && url.value != "" ==> upload.Responded? && upload.success && upload.fileUrl == url.value
    ensures upload.Responded? && upload.success && upload.fileUrl != "" ==> url == Some(upload.fileUrl)
    ensures upload.ReadFailed? || upload.NetworkError? || (upload.Responded? && !upload.success) ==> url.None?
  {
    match upload
    case NoFile => Some("")
    case Responded(success, fileUrl) => if success && fileUrl != "" then Some(fileUrl) else None
    case _ => None
  }

  /** Columns 18 and 20 to 27: the sent date, then the form fields in sheet order. */
  function Updates(actualDate: string, form: SentForm, imageUrl: string): (ws: seq<Write>)
    ensures |ws| == 9 && ValidColumns(ws) && DistinctColumns(ws)
    ensures forall k :: 0 <= k < 9 ==> ws[k].col == if k == 0 then 18 else 19 + k
    ensures ws[0].value == actualDate && ws[1].value == form.vendorName
    ensures ws[6].value == imageUrl && ws[7].value == form.paymentType && ws[8].value == HowMuch(form)
  {
    [Write(18, actualDate), Write(20, form.vendorName), Write(21, form.leadTimeToDeliver),
     Write(22, form.transporterName), Write(23, form.transportationCharges),
     Write(24, form.weighmentSlip), Write(25, imageUrl), Write(26, form.paymentType),
     Write(27, HowMuch(form))]
  }

  /** The delay column 19 is between the written ones and is never written. */
  lemma DelayNeverWritten(actualDate: string, form: SentForm, imageUrl: string)
    ensures !WritesColumn(Updates(actualDate, form, imageUrl), 19)
  {
    var ws := Updates(actualDate, form, imageUrl);
    forall k | 0 <= k < |ws| ensures ws[k].col != 19 {
    }
  }

  /**
   * An accepted date write empties the pending tab of the task; it lands in
   * history exactly when it was planned, since the planned column is not
   * written.
   */
  lemma SubmitLeavesPending(rows: Rows, i: nat, date: string, form: SentForm, url: string, rs: seq<Response>)
    requires i < |MapTasks(rows)| && date != "" && |rs| == 9 && rs[0].success
    ensures MapTasks(rows)[i].rowIndex == i + 6
    ensures var after := ApplyWrites(rows, i + 6, Accepted(Updates(date, form, url), rs));
      i < |MapTasks(after)| && MapTasks(after)[i].actual == date
      && MapTasks(after)[i].planned == MapTasks(rows)[i].planned
      && !IsPending(MapTasks(after)[i])
      && (IsHistory(MapTasks(after)[i]) <==> MapTasks(rows)[i].planned != "")
  {
    var after := ApplyWrites(rows, i + 6, Accepted(Updates(date, form, url), rs));
    DispatchCells(rows, i + 6, date, form, url, rs);
    SentRowStage(rows, after, i, date);
  }

  /** A row whose sent date is filled in, its planned date kept, is no longer pending. */
  lemma SentRowStage(rows: Rows, after: Rows, i: nat, date: string)
    requires i < |MapTasks(rows)| && date != "" && |after| == |rows|
    requires Cell(after[5 + i], 17) == date && Cell(after[5 + i], 16) == Cell(rows[5 + i], 16)
    ensures i < |MapTasks(after)| && MapTasks(after)[i].actual == date
    ensures MapTasks(after)[i].planned == MapTasks(rows)[i].planned
    ensures !IsPending(MapTasks(after)[i])
    ensures IsHistory(MapTasks(after)[i]) <==> MapTasks(rows)[i].planned != ""
  {
    assert MapTasks(after)[i] == MapRow(after[5 + i], i + 6);
    assert MapTasks(rows)[i] == MapRow(rows[5 + i], i + 6);
  }

  /** The date lands in the actual cell (index 17) and the planned cell (index 16) keeps its value. */
  lemma DispatchCells(rows: Rows, r: nat, date: string, form: SentForm, url: string, rs: seq<Response>)
    requires 1 <= r <= |rows| && |rs| == 9 && rs[0].success
    ensures var after := ApplyWrites(rows, r, Accepted(Updates(date, form, url), rs));
      |after| == |rows| && Cell(after[r - 1], 17) == date && Cell(after[r - 1], 16) == Cell(rows[r - 1], 16)
  {
    var ws := Updates(date, form, url);
    BatchSetsCell(rows, r, ws, rs, 0);
    assert !WritesColumn(ws, 17) by {
      forall k | 0 <= k < |ws| ensures ws[k].col != 17 {
      }
    }
    BatchKeepsCell(rows, r, ws, rs, r, 17);
  }

  /** The delay the sheet holds for the task survives any submit. */
  lemma SubmitKeepsDelay(rows: Rows, r: nat, date: string, form: SentForm, url: string, rs: seq<Response>)
    requires r >= 1 && |rs| == 9
    ensures CellAt(ApplyWrites(rows, r, Accepted(Updates(date, form, url), rs)), r, 19) == CellAt(rows, r, 19)
  {
    DelayNeverWritten(date, form, url);
    BatchKeepsCell(rows, r, Updates(date, form, url), rs, r, 19);
  }

  /** What a submit came to, as the user is told. */
  datatype Outcome =
    | Stalled                  // the upload did not yield a URL: no update issued
    | Updated                  // every update succeeded; the tabs are refreshed
    | PartlyFailed(text: string)  // `failed.message || failed.error` of the first failure

  /**
   * The screen's state: the task sheet it writes and the tabs it shows.
   */
  class SentDesk {
    var taskSheet: Rows
    var pending: seq<Task>
    var history: seq<Task>

    constructor (taskSheet: Rows)
      ensures this.taskSheet == taskSheet && pending == [] && history == []
    {
      this.taskSheet := taskSheet;
      pending := [];
      history := [];
    }

    /** `fetchAllTasks`: both tabs are recomputed from the task sheet. */
    method FetchAllTasks()
      modifies this
      ensures taskSheet == old(taskSheet)
      ensures (pending, history) == Stages(MapTasks(taskSheet))
    {
      var stages := Stages(MapTasks(taskSheet));
      pending := stages.0;
      history := stages.1;
    }

    /**
     * `handleSubmit`: the upload first, then the nine updates issued
     * together; the sheet keeps whatever was accepted, and the tabs are
     * refreshed only when every update succeeded.
     */
    method Submit(selected: Task, form: SentForm, upload: Upload, actualDate: string, rs: seq<Response>)
      returns (outcome: Outcome)
      requires selected.rowIndex >= 1 && |rs| == 9
      modifies this
      ensures ImageUrl(upload).None? ==> outcome == Stalled && unchanged(this)
      ensures ImageUrl(upload).Some? ==>
        taskSheet == ApplyWrites(old(taskSheet), selected.rowIndex,
                                 Accepted(Updates(actualDate, form, ImageUrl(upload).value), rs))
        && (FirstFailure(rs).None? ==> outcome == Updated && (pending, history) == Stages(MapTasks(taskSheet)))
        && (FirstFailure(rs).Some? ==> outcome == PartlyFailed(FailureText(FirstFailure(rs).value))
                                       && pending == old(pending) && history == old(history))
    {
      var url := ImageUrl(upload);
      if url.None? {
        return Stalled;
      }
      var ws := Updates(actualDate, form, url.value);
      taskSheet := ApplyWrites(taskSheet, selected.rowIndex, Accepted(ws, rs));
      var failed := FirstFailure(rs);
      if failed.None? {
        FetchAllTasks();
        outcome := Updated;
      } else {
        outcome := PartlyFailed(FailureText(failed.value));
      }
    }
  }
}
