/**
 * The Service Indent screen over the "Service" sheet: the list of service
 * indents (no stage split, no row numbers), the search over it, and the
 * submit that uploads up to two images, inserts one 13-cell row and resets
 * the form only when the insert succeeds.
 */
module ServiceIndent {
  import opened Wrappers
  import opened Seqs
  import opened Sheet
  import opened Clock
  import opened Search

  // ------------------------------------------------------------------ tasks

  /** A service indent as this screen maps it. */
  datatype Task = Task(
    serviceNo: string, serviceChecker: string, machineName: string, vendorName: string,
    workDescription: string, serviceLocation: string, billCopyImage: string, remarks: string,
    quotation: string, quotationImage: string, totalAmount: string, tdsDeductionAmount: string)

  /** One row to a task: cells 1 to 12 in order, each `""` when absent; cell 0 is not read. */
  function MapRow(row: Row): (t: Task)
    ensures t.serviceNo == Cell(row, 1) && t.serviceChecker == Cell(row, 2)
    ensures t.vendorName == Cell(row, 4) && t.workDescription == Cell(row, 5)
    ensures t.serviceLocation == Cell(row, 6) && t.quotation == Cell(row, 9)
    ensures t.quotationImage == Cell(row, 10) && t.tdsDeductionAmount == Cell(row, 12)
  {
    Task(
      Cell(row, 1), Cell(row, 2), Cell(row, 3), Cell(row, 4), Cell(row, 5), Cell(row, 6),
      Cell(row, 7), Cell(row, 8), Cell(row, 9), Cell(row, 10), Cell(row, 11), Cell(row, 12))
  }

  /** Six header rows skipped; task i is row `rows[6 + i]`, and records no row number. */
  function MapTasks(rows: Rows): (ts: seq<Task>)
    ensures |ts| == if |rows| <= 6 then 0 else |rows| - 6
    ensures forall i :: 0 <= i < |ts| ==> ts[i] == MapRow(rows[6 + i])
  {
    MapRows(rows, 6, 0, (row, _) => MapRow(row))
  }

  /** Since no row number is kept, a task depends on its own row only: rows above the data never matter. */
  lemma MapTasksOfDataRows(rows: Rows, other: Rows)
    requires |rows| >= 6 && |other| >= 6 && rows[6..] == other[6..]
    ensures MapTasks(rows) == MapTasks(other)
  {
    assert forall i :: 0 <= i < |rows| - 6 ==> rows[6 + i] == rows[6..][i] && other[6 + i] == other[6..][i];
  }

  // ----------------------------------------------------------------- search

  /** The fields the search box looks at: vendor, checker, description and location. */
  function SearchFields(t: Task): seq<string>
  {
    [t.vendorName, t.serviceChecker, t.workDescription, t.serviceLocation]
  }

  /** `filteredTasks`: the tasks with a field containing the term, ignoring case, in order. */
  function FilterTasks(ts: seq<Task>, term: string): (r: seq<Task>)
    ensures IsSubsequence(r, ts)
    ensures forall i :: 0 <= i < |r| ==> AnyFieldMatches(SearchFields(r[i]), term)
    ensures forall i :: 0 <= i < |ts| && AnyFieldMatches(SearchFields(ts[i]), term) ==> ts[i] in r
  {
    SearchBy(ts, SearchFields, term)
  }

  /** An empty search box shows every task. */
  lemma FilterEmptyTerm(ts: seq<Task>)
    ensures FilterTasks(ts, "") == ts
  {
    EmptyTermKeepsAll(ts, SearchFields);
  }

  // ----------------------------------------------------------------- upload

  /** A file picked in the form. */
  datatype File = File(name: string, mimeType: string)

  /**
   * What reading and posting a picked file comes to: the reader fails (no
   * request is made), the server answers (an answer without `fileUrl` has
   * `fileUrl == ""`), or the request throws.
   */
  datatype Reply = Unreadable | Answered(fileUrl: string) | Thrown

  /** `uploadImage`: the URL it resolves to, `""` for no file and for every failure. */
  function UploadedUrl(file: Option<File>, reply: Reply): (url: string)
    ensures url != "" <==> file.Some? && reply.Answered? && reply.fileUrl != ""
    ensures url != "" ==> url == reply.fileUrl
  {
    if file.None? then ""
    else match reply
      case Answered(u) => u
      case _ => ""
  }

  /** The upload requests `uploadImage` sends: none without a file or when the reader fails. */
  function Requested(file: Option<File>, reply: Reply): (sent: seq<File>)
    ensures |sent| <= 1
    ensures sent != [] <==> file.Some? && !reply.Unreadable?
    ensures sent != [] ==> sent[0] == file.value
  {
    if file.Some? && !reply.Unreadable? then [file.value] else []
  }

  // ----------------------------------------------------------------- insert

  /** The form: the text fields and the two optional images. */
  datatype IndentForm = IndentForm(
    serviceChecker: string, machineName: string, vendorName: string, workDescription: string,
    serviceLocation: string, billCopyImage: Option<File>, remarks: string, quotation: string,
    quotationImage: Option<File>, totalAmount: string, tdsDeductionAmount: string)

  /** `initialFormData`: every text field empty and no image. */
  const InitialForm := IndentForm("", "", "", "", "", None, "", "", None, "", "")

  /** The quotation image URL is kept only when the quotation answer is exactly "Yes". */
  function QuotationImageUrl(quotation: string, url: string): (r: string)
    ensures quotation == "Yes" ==> r == url
    ensures quotation != "Yes" ==> r == ""
  {
    if quotation == "Yes" then url else ""
  }

  /**
   * `rowData`: the timestamp, a blank service number, the form's text
   * fields and the two URLs, thirteen cells in the column order A to M.
   */
  function RowData(timestamp: string, form: IndentForm, billCopyUrl: string, quotationUrl: string): (row: Row)
    ensures |row| == 13 && row[0] == timestamp && row[1] == ""
    ensures row[2] == form.serviceChecker && row[4] == form.vendorName && row[7] == billCopyUrl
    ensures row[9] == form.quotation && row[10] == QuotationImageUrl(form.quotation, quotationUrl)
    ensures row[11] == form.totalAmount && row[12] == form.tdsDeductionAmount
  {
    [timestamp, "", form.serviceChecker, form.machineName, form.vendorName, form.workDescription,
     form.serviceLocation, billCopyUrl, form.remarks, form.quotation,
     QuotationImageUrl(form.quotation, quotationUrl), form.totalAmount, form.tdsDeductionAmount]
  }

  /** The task the inserted row reads back as: the form's fields, the URLs, and no service number yet. */
  function Indented(form: IndentForm, billCopyUrl: string, quotationUrl: string): Task
  {
    Task("", form.serviceChecker, form.machineName, form.vendorName, form.workDescription,
      form.serviceLocation, billCopyUrl, form.remarks, form.quotation,
      QuotationImageUrl(form.quotation, quotationUrl), form.totalAmount, form.tdsDeductionAmount)
  }

  /** Reading the inserted row back gives exactly the submitted fields; the timestamp cell is not read. */
  lemma RowDataReadsBack(timestamp: string, form: IndentForm, billCopyUrl: string, quotationUrl: string)
    ensures MapRow(RowData(timestamp, form, billCopyUrl, quotationUrl)) == Indented(form, billCopyUrl, quotationUrl)
  {
    var row := RowData(timestamp, form, billCopyUrl, quotationUrl);
    assert Cell(row, 1) == "" && Cell(row, 3) == form.machineName && Cell(row, 5) == form.workDescription;
    assert Cell(row, 6) == form.serviceLocation && Cell(row, 8) == form.remarks && Cell(row, 11) == form.totalAmount;
    assert Cell(row, 7) == billCopyUrl && Cell(row, 10) == QuotationImageUrl(form.quotation, quotationUrl);
  }

  /** Below the six header rows, an appended row shows up as the last task, and the others stay as they were. */
  lemma InsertAppendsTask(rows: Rows, timestamp: string, form: IndentForm, billCopyUrl: string, quotationUrl: string)
    requires |rows| >= 6
    ensures MapTasks(rows + [RowData(timestamp, form, billCopyUrl, quotationUrl)])
            == MapTasks(rows) + [Indented(form, billCopyUrl, quotationUrl)]
  {
    var after := rows + [RowData(timestamp, form, billCopyUrl, quotationUrl)];
    RowDataReadsBack(timestamp, form, billCopyUrl, quotationUrl);
    assert MapTasks(after)[|rows| - 6] == MapRow(after[|rows|]);
  }

  /** What a submit came to, as the user is told. */
  datatype Outcome =
    | Submitted            // the insert succeeded: form reset, modal closed, tasks re-fetched
    | Rejected(text: string) // the server refused the insert: its message, or "Submission failed"
    | Broken               // the insert request threw: "Failed to submit"

  /** The toast for a refused insert: the server's message when it has one. */
  function RejectionText(r: Response): (t: string)
    ensures r.message.Some? && r.message.value != "" ==> t == r.message.value
    ensures !(r.message.Some? && r.message.value != "") ==> t == "Submission failed"
  {
    if r.message.Some? && r.message.value != "" then r.message.value else "Submission failed"
  }

  /**
   * The screen's state: the "Service" sheet it inserts into, the upload
   * requests it has sent, the tasks it shows, the form and whether the
   * modal is open.
   */
  class IndentDesk {
    var sheet: Rows
    var uploads: seq<File>
    var tasks: seq<Task>
    var form: IndentForm
    var modalOpen: bool

    constructor (sheet: Rows)
      ensures this.sheet == sheet && uploads == [] && tasks == [] && form == InitialForm && !modalOpen
    {
      this.sheet := sheet;
      uploads := [];
      tasks := [];
      form := InitialForm;
      modalOpen := false;
    }

    /** `fetchTasks`: the tasks are recomputed from the sheet. */
    method FetchTasks()
      modifies this
      ensures tasks == MapTasks(sheet)
      ensures sheet == old(sheet) && uploads == old(uploads) && form == old(form) && modalOpen == old(modalOpen)
    {
      tasks := MapTasks(sheet);
    }

    /** `uploadImage`: no file returns `""` at once; otherwise the reader, then at most one request. */
    method UploadImage(file: Option<File>, reply: Reply) returns (url: string)
      modifies this
      ensures url == UploadedUrl(file, reply)
      ensures uploads == old(uploads) + Requested(file, reply)
      ensures sheet == old(sheet) && tasks == old(tasks) && form == old(form) && modalOpen == old(modalOpen)
    {
      if file.None? {
        return "";
      }
      match reply
      case Unreadable =>
        url := "";
      case Answered(u) =>
        uploads := uploads + [file.value];
        url := u;
      case Thrown =>
        uploads := uploads + [file.value];
        url := "";
    }

    /**
     * `handleSubmit`: the bill copy and then the quotation image are
     * uploaded, whether or not a quotation was given; the row is inserted
     * with the timestamp of `now`; only a successful insert resets the form,
     * closes the modal and re-fetches. `insert` is the server's response, or
     * `None` when the request threw.
     */
    method Submit(now: Instant, billReply: Reply, quotationReply: Reply, insert: Option<Response>)
      returns (outcome: Outcome)
      requires now.Valid()
      modifies this
      ensures var billUrl := UploadedUrl(old(form).billCopyImage, billReply);
        var quotationUrl := UploadedUrl(old(form).quotationImage, quotationReply);
        var row := RowData(PaddedTimestamp(now), old(form), billUrl, quotationUrl);
        uploads == old(uploads) + Requested(old(form).billCopyImage, billReply)
                                + Requested(old(form).quotationImage, quotationReply)
        && Settle(old(sheet), row, insert, old(tasks), old(form), old(modalOpen), outcome, sheet, tasks, form, modalOpen)
    {
      var billUrl := UploadImage(form.billCopyImage, billReply);
      var quotationUrl := UploadImage(form.quotationImage, quotationReply);
      var row := RowData(PaddedTimestamp(now), form, billUrl, quotationUrl);
      outcome := Insert(row, insert);
    }

    /** The insert request and what follows it. */
    method Insert(row: Row, insert: Option<Response>) returns (outcome: Outcome)
      modifies this
      ensures uploads == old(uploads)
      ensures Settle(old(sheet), row, insert, old(tasks), old(form), old(modalOpen), outcome, sheet, tasks, form, modalOpen)
    {
      if insert.None? {
        return Broken;
      }
      var result := insert.value;
      if !result.success {
        return Rejected(RejectionText(result));
      }
      sheet := sheet + [row];
      form := InitialForm;
      modalOpen := false;
      FetchTasks();
      outcome := Submitted;
    }
  }

  /**
   * The state after the insert of `row`: a thrown or refused insert changes
   * nothing (the form keeps what was typed); an accepted one appends the
   * row, resets the form, closes the modal and shows the new sheet's tasks.
   */
  predicate Settle(sheet: Rows, row: Row, insert: Option<Response>, tasks: seq<Task>, form: IndentForm, modalOpen: bool,
                   outcome: Outcome, sheet': Rows, tasks': seq<Task>, form': IndentForm, modalOpen': bool)
  {
    if insert.None? then
      outcome == Broken && sheet' == sheet && tasks' == tasks && form' == form && modalOpen' == modalOpen
    else if !insert.value.success then
      outcome == Rejected(RejectionText(insert.value))
      && sheet' == sheet && tasks' == tasks && form' == form && modalOpen' == modalOpen
    else
      outcome == Submitted && sheet' == sheet + [row] && tasks' == MapTasks(sheet')
      && form' == InitialForm && !modalOpen'
  }

  /**
   * A successful submit onto a sheet with its headers lists the new indent
   * last, carrying the submitted fields; the quotation image URL is there
   * only for a "Yes" quotation.
   */
  lemma SubmittedIndentListed(sheet: Rows, row: Row, insert: Option<Response>, tasks: seq<Task>, form: IndentForm,
                              modalOpen: bool, outcome: Outcome, sheet': Rows, tasks': seq<Task>, form': IndentForm,
                              modalOpen': bool, timestamp: string, billUrl: string, quotationUrl: string)
    requires |sheet| >= 6 && row == RowData(timestamp, form, billUrl, quotationUrl)
    requires Settle(sheet, row, insert, tasks, form, modalOpen, outcome, sheet', tasks', form', modalOpen')
    requires outcome == Submitted
    ensures tasks' == MapTasks(sheet) + [Indented(form, billUrl, quotationUrl)]
    ensures tasks'[|tasks'| - 1].serviceNo == ""
    ensures tasks'[|tasks'| - 1].quotationImage == (if form.quotation == "Yes" then quotationUrl else "")
  {
    InsertAppendsTask(sheet, timestamp, form, billUrl, quotationUrl);
  }
}
