/**
 * The Check Machine screen: tasks of the "Repair System" sheet planned for
 * checking (`planned1`) and not yet checked (`actual1`), the to-be-paid rule
 * (bill total less the advance already paid), and the submit that records
 * the check in columns 29 and 31 to 37 and patches the stored task.
 */
module CheckMachine {
  import opened Wrappers
  import opened Seqs
  import opened Text
  import opened Sheet

  // ------------------------------------------------------------------ tasks

  /** A task row as this screen maps it, restricted to the fields the screen reads. */
  datatype Task = Task(
    rowIndex: int,
    taskNo: string, serialNo: string, machineName: string, doerName: string,
    vendorName: string, leadTimeToDeliverDays: string, transportationCharges: string,
    paymentType: string, howMuch: string, planned1: string, actual1: string,
    tranporterName: string, billImage: string, billNo: string, typeOfBill: string,
    totalBillAmount: string, toBePaidAmount: string)

  /** One row to a task: each field is its cell, `""` when the row is too short. */
  function MapRow(row: Row, rowIndex: int): (t: Task)
    ensures t.rowIndex == rowIndex
    ensures t.taskNo == Cell(row, 1) && t.howMuch == Cell(row, 26)
    ensures t.planned1 == Cell(row, 27) && t.actual1 == Cell(row, 28)
    ensures t.tranporterName == Cell(row, 30) && t.billNo == Cell(row, 33)
    ensures t.totalBillAmount == Cell(row, 35) && t.toBePaidAmount == Cell(row, 36)
  {
    Task(
      rowIndex, Cell(row, 1), Cell(row, 2), Cell(row, 3), Cell(row, 6), Cell(row, 19),
      Cell(row, 20), Cell(row, 22), Cell(row, 25), Cell(row, 26), Cell(row, 27),
      Cell(row, 28), Cell(row, 30), Cell(row, 32), Cell(row, 33), Cell(row, 34),
      Cell(row, 35), Cell(row, 36))
  }

  /** Five header rows skipped; record i comes from `rows[5 + i]`, which is sheet row i + 6. */
  function MapTasks(rows: Rows): (ts: seq<Task>)
    ensures |ts| == if |rows| <= 5 then 0 else |rows| - 5
    ensures forall i :: 0 <= i < |ts| ==> ts[i] == MapRow(rows[5 + i], i + 6)
  {
    MapRows(rows, 5, 6, MapRow)
  }

  /** A task's row number addresses the very row it was read from. */
  lemma RowIndexAddressesOwnRow(rows: Rows, i: nat, c: nat)
    requires i < |MapTasks(rows)|
    ensures CellAt(rows, MapTasks(rows)[i].rowIndex, c + 1) == Cell(rows[5 + i], c)
  {
    assert MapTasks(rows)[i].rowIndex == i + 6;
  }

  /** Planned for checking and not checked yet. */
  predicate IsPending(t: Task)
  {
    t.planned1 != "" && t.actual1 == ""
  }

  /** Planned and checked. */
  predicate IsHistory(t: Task)
  {
    t.planned1 != "" && t.actual1 != ""
  }

  /** Not planned for checking: shown in neither tab. */
  predicate IsUnplanned(t: Task)
  {
    t.planned1 == ""
  }

  /** The two tabs: an order-preserving selection each, and no task in both. */
  function Stages(ts: seq<Task>): (r: (seq<Task>, seq<Task>))
    ensures forall k :: 0 <= k < |r.0| ==> IsPending(r.0[k]) && !IsHistory(r.0[k])
    ensures forall k :: 0 <= k < |r.1| ==> IsHistory(r.1[k]) && !IsPending(r.1[k])
    ensures forall k :: 0 <= k < |ts| ==> (IsPending(ts[k]) ==> ts[k] in r.0) && (IsHistory(ts[k]) ==> ts[k] in r.1)
    ensures IsSubsequence(r.0, ts) && IsSubsequence(r.1, ts)
  {
    FilterIsSubsequence(ts, IsPending);
    FilterIsSubsequence(ts, IsHistory);
    (Filter(ts, IsPending), Filter(ts, IsHistory))
  }

  /** Every task is pending, checked, or unplanned, and exactly one of them. */
  lemma StagesPartition(ts: seq<Task>)
    ensures |Stages(ts).0| + |Stages(ts).1| + |Filter(ts, IsUnplanned)| == |ts|
  {
    PartitionSizes(ts, IsPending, IsHistory, IsUnplanned);
  }

  // ------------------------------------------------------------- to be paid

  /**
   * The rule on the parsed amounts: the difference is kept only when the
   * total is filled in, both sides are numbers (`None` stands for NaN) and
   * the difference is no smaller than 0; `None` is the `""` the cell then
   * receives, a NaN comparing false.
   */
  function Remaining(total: string, t: Option<real>, h: Option<real>): (r: Option<real>)
    ensures r.Some? <==> total != "" && t.Some? && h.Some? && h.value <= t.value
    ensures r.Some? ==> r.value == t.value - h.value && r.value >= 0.0
  {
    if total != "" && t.Some? && h.Some? && t.value - h.value >= 0.0 then Some(t.value - h.value) else None
  }

  /** `parseFloat(total) - parseFloat(howMuch)`, under the rule above. */
  function ToBePaid(total: string, howMuch: string): (r: Option<real>)
    ensures r.Some? <==> total != "" && ParseFloat(total).Some? && ParseFloat(howMuch).Some?
                         && ParseFloat(howMuch).value <= ParseFloat(total).value
    ensures r.Some? ==> r.value == ParseFloat(total).value - ParseFloat(howMuch).value && r.value >= 0.0
  {
    Remaining(total, ParseFloat(total), ParseFloat(howMuch))
  }

  /** `parseFloat("")` is NaN. */
  lemma ParseFloatEmpty()
    ensures ParseFloat("").None?
  {
    assert TrimStart("") == "";
    assert SignAndBody("") == (1, "");
  }

  /** With no advance recorded the amount stays empty. */
  lemma NoAdvanceNoAmount(total: string)
    ensures ToBePaid(total, "").None?
  {
    ParseFloatEmpty();
  }

  /** With no bill total the amount stays empty, whatever the advance. */
  lemma NoTotalNoAmount(howMuch: string)
    ensures ToBePaid("", howMuch).None?
  {
  }

  /**
   * For whole amounts written as digits: the bill less the advance when
   * that is not negative, nothing otherwise.
   */
  lemma WholeAmounts(total: nat, advance: nat)
    ensures advance <= total ==> ToBePaid(NatText(total), NatText(advance)) == Some((total - advance) as real)
    ensures advance > total ==> ToBePaid(NatText(total), NatText(advance)) == None
  {
    ParseFloatNatText(total);
    ParseFloatNatText(advance);
    var r := ToBePaid(NatText(total), NatText(advance));
    if advance <= total {
      assert r.Some? && r.value == (total - advance) as real;
    } else {
      assert r.None?;
    }
  }

  /** A whole amount owed is written back as its digits. */
  lemma WholeAmountText(total: nat, advance: nat)
    requires advance <= total
    ensures ToBePaidText(ToBePaid(NatText(total), NatText(advance))) == NatText(total - advance)
  {
    ParseFloatNatText(total);
    ParseFloatNatText(advance);
    OwedText(NatText(total), NatText(advance), total, advance);
  }

  /** Whole amounts that parse back exactly leave their difference written as digits. */
  lemma OwedText(t: string, h: string, total: nat, advance: nat)
    requires ParseFloat(t) == Some(total as real) && ParseFloat(h) == Some(advance as real)
    requires advance <= total
    ensures ToBePaidText(ToBePaid(t, h)) == NatText(total - advance)
  {
    ParseFloatEmpty();
    assert t != "";
    RemainingWhole(t, ParseFloat(t), ParseFloat(h), total, advance);
  }

  lemma RemainingWhole(total: string, t: Option<real>, h: Option<real>, n: nat, m: nat)
    requires total != "" && t == Some(n as real) && h == Some(m as real) && m <= n
    ensures ToBePaidText(Remaining(total, t, h)) == NatText(n - m)
  {
    var x := (n - m) as real;
    assert Remaining(total, t, h) == Some(x);
    assert x.Floor == n - m;
  }

  /** The text the to-be-paid cell receives: `String(calculated)` or `""`. */
  function ToBePaidText(amount: Option<real>): (s: string)
    ensures amount.None? <==> s == ""
  {
    if amount.Some? then AmountText(amount.value) else ""
  }

  // ----------------------------------------------------------------- submit

  /** The check form; the bill image is the upload, passed separately. */
  datatype CheckForm = CheckForm(
    billNo: string, typeOfBill: string, totalBillAmount: string,
    transporterName: string, transportationAmount: string)

  /**
   * The bill image URL the submit goes on with: `""` with no file attached,
   * after a failed upload or a network error; `None` when the file could
   * not be read, which aborts the submit before any update.
   */
  function BillImageUrl(upload: Upload): (url: Option<string>)
    ensures url.None? <==> upload.ReadFailed?
    ensures url.Some? && url.value != "" ==> upload.Responded? && upload.success && upload.fileUrl == url.value
    ensures upload.Responded? && upload.success ==> url == Some(upload.fileUrl)
  {
    match upload
    case ReadFailed => None
    case Responded(success, fileUrl) => if success then Some(fileUrl) else Some("")
    case _ => Some("")
  }

  /** Columns 29 and 31 to 37: the check date, then the form and the computed amount. */
  function Updates(actual1Date: string, form: CheckForm, billImageUrl: string, toBePaid: string): (ws: seq<Write>)
    ensures |ws| == 8 && ValidColumns(ws) && DistinctColumns(ws)
    ensures forall k :: 0 <= k < 8 ==> ws[k].col == if k == 0 then 29 else 30 + k
    ensures ws[0].value == actual1Date && ws[1].value == form.transporterName
    ensures ws[3].value == billImageUrl && ws[7].value == toBePaid
  {
    [Write(29, actual1Date), Write(31, form.transporterName), Write(32, form.transportationAmount),
     Write(33, billImageUrl), Write(34, form.billNo), Write(35, form.typeOfBill),
     Write(36, form.totalBillAmount), Write(37, toBePaid)]
  }

  /** Column 30 and the planned column 28 lie outside the update set. */
  lemma UpdatesSkip(actual1Date: string, form: CheckForm, billImageUrl: string, toBePaid: string)
    ensures !WritesColumn(Updates(actual1Date, form, billImageUrl, toBePaid), 30)
    ensures !WritesColumn(Updates(actual1Date, form, billImageUrl, toBePaid), 28)
  {
    var ws := Updates(actual1Date, form, billImageUrl, toBePaid);
    forall k | 0 <= k < |ws| ensures ws[k].col != 30 && ws[k].col != 28 {
    }
  }

  /** The date lands in the actual1 cell (index 28); the planned1 cell (index 27) keeps its value. */
  lemma CheckCells(rows: Rows, r: nat, date: string, form: CheckForm, url: string, amount: string, rs: seq<Response>)
    requires 1 <= r <= |rows| && |rs| == 8 && rs[0].success
    ensures var after := ApplyWrites(rows, r, Accepted(Updates(date, form, url, amount), rs));
      |after| == |rows| && Cell(after[r - 1], 28) == date && Cell(after[r - 1], 27) == Cell(rows[r - 1], 27)
  {
    var ws := Updates(date, form, url, amount);
    BatchSetsCell(rows, r, ws, rs, 0);
    UpdatesSkip(date, form, url, amount);
    BatchKeepsCell(rows, r, ws, rs, r, 28);
  }

  /** An accepted check date moves a pending task to the history tab. */
  lemma SubmitMovesToHistory(rows: Rows, i: nat, date: string, form: CheckForm, url: string, amount: string, rs: seq<Response>)
    requires i < |MapTasks(rows)| && IsPending(MapTasks(rows)[i])
    requires date != "" && |rs| == 8 && rs[0].success
    ensures MapTasks(rows)[i].rowIndex == i + 6
    ensures var after := ApplyWrites(rows, i + 6, Accepted(Updates(date, form, url, amount), rs));
      i < |MapTasks(after)| && MapTasks(after)[i].actual1 == date
      && !IsPending(MapTasks(after)[i]) && IsHistory(MapTasks(after)[i])
  {
    var after := ApplyWrites(rows, i + 6, Accepted(Updates(date, form, url, amount), rs));
    CheckCells(rows, i + 6, date, form, url, amount, rs);
    CheckedRowInHistory(rows, after, i, date);
  }

  /** A row whose check date is filled in, its planned date kept, reads as a task in history. */
  lemma CheckedRowInHistory(rows: Rows, after: Rows, i: nat, date: string)
    requires i < |MapTasks(rows)| && IsPending(MapTasks(rows)[i]) && date != "" && |after| == |rows|
    requires Cell(after[5 + i], 28) == date && Cell(after[5 + i], 27) == Cell(rows[5 + i], 27)
    ensures i < |MapTasks(after)| && MapTasks(after)[i].actual1 == date
    ensures !IsPending(MapTasks(after)[i]) && IsHistory(MapTasks(after)[i])
  {
    assert MapTasks(after)[i] == MapRow(after[5 + i], i + 6);
    assert MapTasks(rows)[i] == MapRow(rows[5 + i], i + 6);
  }

  /**
   * `updateRepairTask(taskNo, {actual1, tranporterName})` on the stored
   * tasks: every task with that number gets the two fields, the rest are
   * untouched.
   */
  function Patched(ts: seq<Task>, taskNo: string, actual1: string, transporter: string): (r: seq<Task>)
    ensures |r| == |ts|
    ensures forall k :: 0 <= k < |ts| ==>
      if ts[k].taskNo == taskNo then r[k] == ts[k].(actual1 := actual1, tranporterName := transporter)
      else r[k] == ts[k]
  {
    seq(|ts|, k requires 0 <= k < |ts| =>
      if ts[k].taskNo == taskNo then ts[k].(actual1 := actual1, tranporterName := transporter) else ts[k])
  }

  /** After the patch no task with that number is pending, and the others keep their stage. */
  lemma PatchedLeavesPending(ts: seq<Task>, taskNo: string, actual1: string, transporter: string, k: nat)
    requires actual1 != "" && k < |ts|
    ensures var r := Patched(ts, taskNo, actual1, transporter);
      (ts[k].taskNo == taskNo ==> !IsPending(r[k]) && (IsHistory(r[k]) <==> ts[k].planned1 != ""))
      && (ts[k].taskNo != taskNo ==> (IsPending(r[k]) <==> IsPending(ts[k])))
  {
  }

  /** What a submit came to, as the user is told. */
  datatype Outcome =
    | Aborted                      // the bill image could not be read: no update issued
    | Updated                      // every update succeeded; the tabs are re-fetched
    | PartlyFailed(text: string)   // `failed.message || failed.error` of the first failure

  /**
   * The screen's state: the task sheet it writes, the stored tasks, and the
   * two tabs.
   */
  class CheckDesk {
    var taskSheet: Rows
    var repairTasks: seq<Task>
    var pending: seq<Task>
    var history: seq<Task>

    constructor (taskSheet: Rows)
      ensures this.taskSheet == taskSheet && repairTasks == [] && pending == [] && history == []
    {
      this.taskSheet := taskSheet;
      repairTasks := [];
      pending := [];
      history := [];
    }

    /** `fetchAllTasks`: the stored tasks and both tabs are recomputed from the task sheet. */
    method FetchAllTasks()
      modifies this
      ensures taskSheet == old(taskSheet)
      ensures repairTasks == MapTasks(taskSheet)
      ensures (pending, history) == Stages(repairTasks)
    {
      repairTasks := MapTasks(taskSheet);
      var stages := Stages(repairTasks);
      pending := stages.0;
      history := stages.1;
    }

    /**
     * `handleSubmit`: the upload first, then the eight updates issued
     * together; the sheet keeps whatever was accepted. Only when every
     * update succeeded is the stored task patched (Record) and then the
     * store and both tabs re-fetched from the new sheet; otherwise the store
     * and the tabs stay as they were.
     */
    method Submit(selected: Task, form: CheckForm, upload: Upload, actual1Date: string, rs: seq<Response>)
      returns (outcome: Outcome)
      requires selected.rowIndex >= 1 && |rs| == 8
      modifies this
      ensures BillImageUrl(upload).None? ==> outcome == Aborted && unchanged(this)
      ensures BillImageUrl(upload).Some? ==>
        var amount := ToBePaidText(ToBePaid(form.totalBillAmount, selected.howMuch));
        taskSheet == ApplyWrites(old(taskSheet), selected.rowIndex,
                                 Accepted(Updates(actual1Date, form, BillImageUrl(upload).value, amount), rs))
        && (FirstFailure(rs).None? ==>
              outcome == Updated
              && repairTasks == MapTasks(taskSheet) && (pending, history) == Stages(repairTasks))
        && (FirstFailure(rs).Some? ==>
              outcome == PartlyFailed(FailureText(FirstFailure(rs).value))
              && repairTasks == old(repairTasks) && pending == old(pending) && history == old(history))
    {
      var url := BillImageUrl(upload);
      if url.None? {
        return Aborted;
      }
      var amount := ToBePaidText(ToBePaid(form.totalBillAmount, selected.howMuch));
      outcome := Record(selected, actual1Date, form, url.value, amount, rs);
      if outcome == Updated {
        FetchAllTasks();
      }
    }

    /** The eight updates once the image URL and the amount are known, and what follows them. */
    method Record(selected: Task, actual1Date: string, form: CheckForm, url: string, amount: string, rs: seq<Response>)
      returns (outcome: Outcome)
      requires selected.rowIndex >= 1 && |rs| == 8
      modifies this
      ensures taskSheet == ApplyWrites(old(taskSheet), selected.rowIndex, Accepted(Updates(actual1Date, form, url, amount), rs))
      ensures pending == old(pending) && history == old(history)
      ensures FirstFailure(rs).None? ==>
        outcome == Updated && repairTasks == Patched(old(repairTasks), selected.taskNo, actual1Date, form.transporterName)
      ensures FirstFailure(rs).Some? ==>
        outcome == PartlyFailed(FailureText(FirstFailure(rs).value)) && repairTasks == old(repairTasks)
    {
      var ws := Updates(actual1Date, form, url, amount);
      taskSheet := ApplyWrites(taskSheet, selected.rowIndex, Accepted(ws, rs));
      var failed := FirstFailure(rs);
      if failed.None? {
        repairTasks := Patched(repairTasks, selected.taskNo, actual1Date, form.transporterName);
        outcome := Updated;
      } else {
        outcome := PartlyFailed(FailureText(failed.value));
      }
    }
  }
}
