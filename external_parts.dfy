/**
 * The External Parts screen over the "Service" sheet: services waiting for
 * their external parts details (`externalActual` empty) and those that have
 * them, and the submit that writes columns 15 and 17 to 20 of the service's
 * row one after another, stopping at the first failure.
 */
module ExternalParts {
  import opened Wrappers
  import opened Seqs
  import opened Text
  import opened Sheet
  import opened Clock
  import opened Search

  // ------------------------------------------------------------------ tasks

  /** A service row as this screen maps it. */
  datatype Task = Task(
    rowIndex: int,
    serviceNo: string, serviceChecker: string, machineName: string, vendorName: string,
    workDescription: string, serviceLocation: string, billCopyImage: string, remarks: string,
    quotation: string, quotationImage: string, totalAmount: string, tdsDeductionAmount: string,
    externalActual: string, partsName: string, partsAmount: string, partsBillCopy: string,
    partsRemarks: string)

  /** One row to a task: cells 1 to 12, 14 and 16 to 19, each `""` when absent. */
  function MapRow(row: Row, rowIndex: int): (t: Task)
    ensures t.rowIndex == rowIndex
    ensures t.serviceNo == Cell(row, 1) && t.vendorName == Cell(row, 4)
    ensures t.externalActual == Cell(row, 14) && t.partsName == Cell(row, 16)
    ensures t.partsRemarks == Cell(row, 19)
  {
    Task(
      rowIndex, Cell(row, 1), Cell(row, 2), Cell(row, 3), Cell(row, 4), Cell(row, 5),
      Cell(row, 6), Cell(row, 7), Cell(row, 8), Cell(row, 9), Cell(row, 10), Cell(row, 11),
      Cell(row, 12), Cell(row, 14), Cell(row, 16), Cell(row, 17), Cell(row, 18), Cell(row, 19))
  }

  /** Six header rows skipped; record i comes from `rows[6 + i]`, which is sheet row i + 7. */
  function MapTasks(rows: Rows): (ts: seq<Task>)
    ensures |ts| == if |rows| <= 6 then 0 else |rows| - 6
    ensures forall i :: 0 <= i < |ts| ==> ts[i] == MapRow(rows[6 + i], i + 7)
  {
    MapRows(rows, 6, 7, MapRow)
  }

  /** A task's row number addresses the very row it was read from. */
  lemma RowIndexAddressesOwnRow(rows: Rows, i: nat, c: nat)
    requires i < |MapTasks(rows)|
    ensures CellAt(rows, MapTasks(rows)[i].rowIndex, c + 1) == Cell(rows[6 + i], c)
  {
    assert MapTasks(rows)[i].rowIndex == i + 7;
  }

  predicate IsPending(t: Task)
  {
    t.externalActual == ""
  }

  predicate IsHistory(t: Task)
  {
    t.externalActual != ""
  }

  /** The two tabs: an order-preserving selection each, and no task in both. */
  function Stages(ts: seq<Task>): (r: (seq<Task>, seq<Task>))
    ensures forall k :: 0 <= k < |r.0| ==> IsPending(r.0[k]) && !IsHistory(r.0[k])
    ensures forall k :: 0 <= k < |r.1| ==> IsHistory(r.1[k]) && !IsPending(r.1[k])
    ensures forall k :: 0 <= k < |ts| ==> (IsPending(ts[k]) ==> ts[k] in r.0) && (IsHistory(ts[k]) ==> ts[k] in r.1)
    ensures IsSubsequence(r.0, ts) && IsSubsequence(r.1, ts)
  {
    FilterIsSubsequence(ts, IsPending);
    FilterIsSubsequence(ts, IsHistory);
    (Filter(ts, IsPending), Filter(ts, IsHistory))
  }

  /** Every task is in exactly one tab. */
  lemma StagesPartition(ts: seq<Task>)
    ensures |Stages(ts).0| + |Stages(ts).1| == |ts|
  {
    var never := (t: Task) => false;
    FilterNone(ts, never);
    PartitionSizes(ts, IsPending, IsHistory, never);
  }

  // ----------------------------------------------------------------- search

  /** The fields the search box looks at. */
  function SearchFields(t: Task): seq<string>
  {
    [t.serviceNo, t.vendorName, t.serviceChecker, t.workDescription, t.serviceLocation]
  }

  /** `filterTasks`: the tasks with a field containing the term, ignoring case, in order. */
  function FilterTasks(ts: seq<Task>, term: string): (r: seq<Task>)
    ensures IsSubsequence(r, ts)
    ensures forall i :: 0 <= i < |r| ==> AnyFieldMatches(SearchFields(r[i]), term)
    ensures forall i :: 0 <= i < |ts| && AnyFieldMatches(SearchFields(ts[i]), term) ==> ts[i] in r
  {
    SearchBy(ts, SearchFields, term)
  }

  /** An empty search box shows the whole tab. */
  lemma FilterEmptyTerm(ts: seq<Task>)
    ensures FilterTasks(ts, "") == ts
  {
    EmptyTermKeepsAll(ts, SearchFields);
  }

  // ----------------------------------------------------------------- submit

  /** The action form; the bill copy is the upload, passed separately. */
  datatype PartsForm = PartsForm(partsName: string, amount: string, remarks: string)

  const InitialForm := PartsForm("", "", "")

  /**
   * The bill copy URL: `result.fileUrl || ""`, so `""` with no file, when
   * the file cannot be read, when the response carries no URL or when the
   * request throws; the success flag of the response is not consulted.
   */
  function UploadUrl(upload: Upload): (url: string)
    ensures upload.Responded? ==> url == upload.fileUrl
    ensures !upload.Responded? ==> url == ""
  {
    if upload.Responded? then upload.fileUrl else ""
  }

  /** Columns 15, 17, 18, 19 and 20, in the order they are written. */
  function Updates(timestamp: string, form: PartsForm, billCopyUrl: string): (ws: seq<Write>)
    ensures |ws| == 5 && ValidColumns(ws) && DistinctColumns(ws)
    ensures ws[0] == Write(15, timestamp) && ws[1] == Write(17, form.partsName)
    ensures ws[2] == Write(18, form.amount) && ws[3] == Write(19, billCopyUrl)
    ensures ws[4] == Write(20, form.remarks)
  {
    [Write(15, timestamp), Write(17, form.partsName), Write(18, form.amount),
     Write(19, billCopyUrl), Write(20, form.remarks)]
  }

  /** The writes that went through before the loop stopped. */
  function Written(timestamp: string, form: PartsForm, billCopyUrl: string, rs: seq<Response>): (ws: seq<Write>)
    requires |rs| == 5
    ensures ValidColumns(ws) && |ws| == LeadingSuccesses(rs)
    ensures forall k :: 0 <= k < |ws| ==> ws[k] == Updates(timestamp, form, billCopyUrl)[k]
    ensures ws == Updates(timestamp, form, billCopyUrl)[..LeadingSuccesses(rs)]
  {
    var all := Updates(timestamp, form, billCopyUrl);
    var ws := all[..LeadingSuccesses(rs)];
    assert ValidColumns(ws) by {
      forall k | 0 <= k < |ws| ensures ws[k].col >= 1 {
        assert ws[k] == all[k];
      }
    }
    ws
  }

  /**
   * When the timestamp write went through, the service's actual cell holds
   * the timestamp and the service has moved to history, whatever became of
   * the later writes.
   */
  lemma SubmitMovesToHistory(rows: Rows, i: nat, timestamp: string, form: PartsForm, url: string, rs: seq<Response>)
    requires i < |MapTasks(rows)| && timestamp != "" && |rs| == 5 && rs[0].success
    ensures MapTasks(rows)[i].rowIndex == i + 7
    ensures var after := ApplyWrites(rows, i + 7, Written(timestamp, form, url, rs));
      i < |MapTasks(after)| && MapTasks(after)[i].externalActual == timestamp
      && IsHistory(MapTasks(after)[i]) && !IsPending(MapTasks(after)[i])
  {
    var after := ApplyWrites(rows, i + 7, Written(timestamp, form, url, rs));
    ActualCell(rows, i + 7, timestamp, form, url, rs);
    assert MapTasks(after)[i] == MapRow(after[6 + i], i + 7);
  }

  /** The timestamp lands in the actual cell (index 14) of the row. */
  lemma ActualCell(rows: Rows, r: nat, timestamp: string, form: PartsForm, url: string, rs: seq<Response>)
    requires 1 <= r <= |rows| && |rs| == 5 && rs[0].success
    ensures var after := ApplyWrites(rows, r, Written(timestamp, form, url, rs));
      |after| == |rows| && Cell(after[r - 1], 14) == timestamp
  {
    SubmitStopsAtFailure(rows, r, timestamp, form, url, rs, 0);
  }

  /** A failure on the first write leaves the sheet exactly as it was. */
  lemma FirstFailureWritesNothing(rows: Rows, r: nat, timestamp: string, form: PartsForm, url: string, rs: seq<Response>)
    requires r >= 1 && |rs| == 5 && !rs[0].success
    ensures ApplyWrites(rows, r, Written(timestamp, form, url, rs)) == rows
  {
  }

  /**
   * Earlier writes persist and later ones are never made: each column holds
   * its new value exactly when its write came before the first failure.
   */
  lemma SubmitStopsAtFailure(rows: Rows, r: nat, timestamp: string, form: PartsForm, url: string, rs: seq<Response>, k: nat)
    requires r >= 1 && |rs| == 5 && k < 5
    ensures var ws := Updates(timestamp, form, url);
      CellAt(ApplyWrites(rows, r, Written(timestamp, form, url, rs)), r, ws[k].col)
      == if k < LeadingSuccesses(rs) then ws[k].value else CellAt(rows, r, ws[k].col)
  {
    var ws := Updates(timestamp, form, url);
    assert Written(timestamp, form, url, rs) == ws[..LeadingSuccesses(rs)];
    SequentialOutcome(rows, r, ws, rs, k);
  }

  /** What a submit came to, as the user is told. */
  datatype Outcome =
    | NoTask      // no service selected: nothing happens
    | Submitted   // every write went through; the form is reset and the tasks re-fetched
    | Failed      // a write reported failure; the writes before it stay

  /**
   * The screen's state: the "Service" sheet it writes, the tasks it shows,
   * the service picked for the action and the action form.
   */
  class PartsDesk {
    const sheet: Spreadsheet
    var tasks: seq<Task>
    var selected: Option<Task>
    var form: PartsForm

    constructor (sheet: Spreadsheet)
      ensures this.sheet == sheet && tasks == [] && selected == None && form == InitialForm
    {
      this.sheet := sheet;
      tasks := [];
      selected := None;
      form := InitialForm;
    }

    /** `fetchTasks`: the tasks are recomputed from the sheet. */
    method FetchTasks()
      modifies this
      ensures tasks == MapTasks(sheet.rows)
      ensures selected == old(selected) && form == old(form)
    {
      tasks := MapTasks(sheet.rows);
    }

    /** `handleAction`: pick a service and start from an empty form. */
    method HandleAction(t: Task)
      modifies this
      ensures selected == Some(t) && form == InitialForm && tasks == old(tasks)
    {
      selected := Some(t);
      form := InitialForm;
    }

    /**
     * `handleActionSubmit`: the upload first, then the five writes in order
     * with the timestamp of `now`; see Write for the loop.
     */
    method Submit(upload: Upload, now: Instant, rs: seq<Response>) returns (outcome: Outcome)
      requires now.Valid() && |rs| == 5
      requires selected.Some? ==> selected.value.rowIndex >= 1
      modifies this, sheet
      ensures old(selected).None? ==> outcome == NoTask && unchanged(this, sheet)
      ensures old(selected).Some? ==>
        sheet.rows == ApplyWrites(old(sheet.rows), old(selected).value.rowIndex,
                                  Written(PaddedTimestamp(now), old(form), UploadUrl(upload), rs))
        && (LeadingSuccesses(rs) == 5 ==>
              outcome == Submitted && tasks == MapTasks(sheet.rows) && selected == None && form == InitialForm)
        && (LeadingSuccesses(rs) < 5 ==>
              outcome == Failed && tasks == old(tasks) && selected == old(selected) && form == old(form))
    {
      if selected.None? {
        return NoTask;
      }
      var url := UploadUrl(upload);
      var timestamp := PaddedTimestamp(now);
      outcome := Write(selected.value.rowIndex, timestamp, url, rs);
    }

    /** The `for` loop over the five writes: a failed response throws and ends it. */
    method Write(r: nat, timestamp: string, url: string, rs: seq<Response>) returns (outcome: Outcome)
      requires r >= 1 && |rs| == 5
      modifies this, sheet
      ensures sheet.rows == ApplyWrites(old(sheet.rows), r, Written(timestamp, old(form), url, rs))
      ensures LeadingSuccesses(rs) == 5 ==>
        outcome == Submitted && tasks == MapTasks(sheet.rows) && selected == None && form == InitialForm
      ensures LeadingSuccesses(rs) < 5 ==>
        outcome == Failed && tasks == old(tasks) && selected == old(selected) && form == old(form)
    {
      var ws := Updates(timestamp, form, url);
      var k := 0;
      while k < |ws|
        invariant 0 <= k <= |ws| && k <= LeadingSuccesses(rs)
        invariant ValidColumns(ws[..k])
        invariant sheet.rows == ApplyWrites(old(sheet.rows), r, ws[..k])
        invariant tasks == old(tasks) && selected == old(selected) && form == old(form)
      {
        var result := sheet.UpdateCell(r, ws[k].col, ws[k].value, rs[k]);
        if !result.success {
          assert LeadingSuccesses(rs) == k;
          return Failed;
        }
        ApplyWritesSnoc(old(sheet.rows), r, ws[..k], ws[k]);
        assert ws[..k + 1] == ws[..k] + [ws[k]];
        k := k + 1;
      }
      assert LeadingSuccesses(rs) == 5;
      selected := None;
      form := InitialForm;
      FetchTasks();
      outcome := Submitted;
    }
  }
}
