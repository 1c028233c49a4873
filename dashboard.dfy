/**
 * The Dashboard: a summary of every repair row of the "Repair System"
 * sheet, and the figures computed from them — the pending and completed
 * repairs, the total bill, the repairs per department, the bill per payment
 * type and the five costliest repairs with a vendor.
 */
module Dashboard {
  import opened Wrappers
  import opened Seqs
  import opened Text
  import opened Sheet
  import opened Tally

  // -------------------------------------------------------------- summaries

  /** What the dashboard keeps of a repair row; the text fields are trimmed. */
  datatype Summary = Summary(
    status: string, actual2: string, totalBillRepair: real,
    department: string, paymentType: string, vendorName: string)

  /** A data row counts when it has cells and a task number (index 1) or a machine name (index 3). */
  function KeepRow(row: Row): (keep: bool)
    ensures keep <==> (1 < |row| && row[1] != "") || (3 < |row| && row[3] != "")
    ensures keep ==> |row| >= 2
  {
    |row| > 0 && (Cell(row, 1) != "" || Cell(row, 3) != "")
  }

  /**
   * The bill cell as a number: absent or empty gives 0; otherwise every
   * character but digits, `.` and `-` is dropped and the rest parsed, NaN
   * giving 0.
   */
  function BillAmount(raw: string): (amount: real)
    ensures raw == "" ==> amount == 0.0
    ensures (forall i :: 0 <= i < |raw| ==> !IsDigit(raw[i])) ==> amount == 0.0
  {
    CleanedWithoutDigits(raw);
    if raw == "" then 0.0
    else
      match ParseFloat(StripNonNumeric(raw))
      case Some(v) => v
      case None => 0.0
  }

  /** A bill without a single digit still has none once cleaned, so it does not parse. */
  lemma CleanedWithoutDigits(raw: string)
    ensures (forall i :: 0 <= i < |raw| ==> !IsDigit(raw[i])) ==> ParseFloat(StripNonNumeric(raw)).None?
  {
    if forall i :: 0 <= i < |raw| ==> !IsDigit(raw[i]) {
      StripNonNumericNoDigits(raw);
      ParseFloatNoDigits(StripNonNumeric(raw));
    }
  }

  /** The amount does not depend on the characters the cleaning drops. */
  lemma BillIgnoresNonNumeric(raw: string)
    ensures BillAmount(StripNonNumeric(raw)) == BillAmount(raw)
  {
    StripNonNumericKeeps(raw);
    if raw != "" && StripNonNumeric(raw) == "" {
      ParseFloatNoDigits("");
    }
  }

  /** A currency sign, thousands separators or a unit around the digits do not change the amount. */
  lemma BillOfDecoratedDigits(prefix: string, n: nat, suffix: string)
    requires forall i :: 0 <= i < |prefix| ==> !IsNumericChar(prefix[i])
    requires forall i :: 0 <= i < |suffix| ==> !IsNumericChar(suffix[i])
    ensures BillAmount(prefix + NatText(n) + suffix) == n as real
  {
    var d := NatText(n);
    StripNonNumericAppend(prefix + d, suffix);
    StripNonNumericAppend(prefix, d);
    StripNonNumericKeeps(d);
    NothingNumeric(prefix);
    NothingNumeric(suffix);
    assert StripNonNumeric(prefix + d + suffix) == d;
    ParseFloatNatText(n);
  }

  /** A text without numeric characters cleans to nothing. */
  lemma {:induction false} NothingNumeric(s: string)
    requires forall i :: 0 <= i < |s| ==> !IsNumericChar(s[i])
    ensures StripNonNumeric(s) == ""
  {
    if s != [] {
      NothingNumeric(s[1..]);
    }
  }

  /** One kept row to its summary: status from index 46, actual from 44, bill from 35, department 13, payment type 25, vendor 19. */
  function MapRow(row: Row): (t: Summary)
    ensures Unpadded(t.status) && Unpadded(t.actual2) && Unpadded(t.department)
      && Unpadded(t.paymentType) && Unpadded(t.vendorName)
    ensures t.totalBillRepair == BillAmount(Cell(row, 35))
    ensures |row| <= 46 ==> t.status == "" && IsPending(t)
    ensures |row| <= 44 ==> !IsCompleted(t)
  {
    TrimEmpty("");
    Summary(Trim(Cell(row, 46)), Trim(Cell(row, 44)), BillAmount(Cell(row, 35)),
            Trim(Cell(row, 13)), Trim(Cell(row, 25)), Trim(Cell(row, 19)))
  }

  /** Six rows skipped, the empty ones dropped, each kept row summarised, in sheet order. */
  function Summaries(rows: Rows): (ts: seq<Summary>)
    ensures |ts| <= |Drop(rows, 6)|
  {
    var kept := Filter(Drop(rows, 6), KeepRow);
    seq(|kept|, i requires 0 <= i < |kept| => MapRow(kept[i]))
  }

  /**
   * Exactly the data rows that count are summarised: each summary comes
   * from a row past the six header rows that counts (this lemma), and each
   * such row has its summary (KeptRowsSummarised).
   */
  lemma SummariesFromKeptRows(rows: Rows)
    ensures var ts := Summaries(rows);
      forall i :: 0 <= i < |ts| ==> exists j :: 6 <= j < |rows| && KeepRow(rows[j]) && ts[i] == MapRow(rows[j])
  {
    var data := Drop(rows, 6);
    var kept := Filter(data, KeepRow);
    var ts := Summaries(rows);
    FilterFrom(data, KeepRow);
    forall i | 0 <= i < |ts| ensures exists j :: 6 <= j < |rows| && KeepRow(rows[j]) && ts[i] == MapRow(rows[j]) {
      var k :| 0 <= k < |data| && data[k] == kept[i];
      assert rows[6 + k] == kept[i];
    }
  }

  /** Each data row that counts has its summary. */
  lemma KeptRowsSummarised(rows: Rows)
    ensures var ts := Summaries(rows);
      forall j :: 6 <= j < |rows| && KeepRow(rows[j]) ==> MapRow(rows[j]) in ts
  {
    forall j | 6 <= j < |rows| && KeepRow(rows[j]) ensures MapRow(rows[j]) in Summaries(rows) {
      KeptRowSummarised(rows, j);
    }
  }

  lemma KeptRowSummarised(rows: Rows, j: int)
    requires 6 <= j < |rows| && KeepRow(rows[j])
    ensures MapRow(rows[j]) in Summaries(rows)
  {
    var data := Drop(rows, 6);
    var kept := Filter(data, KeepRow);
    assert data[j - 6] == rows[j];
    var k :| 0 <= k < |kept| && kept[k] == rows[j];
    assert Summaries(rows)[k] == MapRow(kept[k]);
  }

  // ---------------------------------------------------------------- figures

  /** Pending: a status that reads "pending" in any case, or none. */
  function IsPending(t: Summary): (pending: bool)
    ensures t.status == "" ==> pending
    ensures pending ==> |t.status| == 0 || |t.status| == 7
    ensures pending && t.status != "" ==> t.status[0] == 'p' || t.status[0] == 'P'
    ensures t.status == "Pending" || t.status == "PENDING" ==> pending
  {
    Lower(t.status) == "pending" || t.status == ""
  }

  /** Completed: the actual cell (index 44) is filled in. */
  function IsCompleted(t: Summary): (completed: bool)
    ensures completed <==> |t.actual2| > 0
  {
    t.actual2 != ""
  }

  /** A summarised row is completed exactly when its actual cell holds something other than white space. */
  lemma CompletedOfRow(row: Row)
    ensures IsCompleted(MapRow(row)) <==> !AllWhite(Cell(row, 44))
  {
    TrimEmpty(Cell(row, 44));
  }

  /** The status is compared without regard to case. */
  lemma PendingIgnoresCase(t: Summary, u: Summary)
    requires Lower(t.status) == Lower(u.status)
    ensures IsPending(t) <==> IsPending(u)
  {
    if t.status == "" {
      assert |u.status| == |Lower(u.status)| == 0;
    }
    if u.status == "" {
      assert |t.status| == |Lower(t.status)| == 0;
    }
  }

  function Bill(t: Summary): real
  {
    t.totalBillRepair
  }

  /** The total bill: `reduce((sum, t) => sum + t.totalBillRepair, 0)`. */
  function TotalBill(ts: seq<Summary>): (total: real)
    ensures ts == [] ==> total == 0.0
    ensures (forall i :: 0 <= i < |ts| ==> ts[i].totalBillRepair >= 0.0) ==>
      total >= 0.0 && forall i :: 0 <= i < |ts| ==> ts[i].totalBillRepair <= total
  {
    SumOfBounds(ts, Bill);
    SumOf(ts, Bill)
  }

  /** Departments: a task with an empty department is not counted. */
  function DepartmentKey(t: Summary): (key: Option<string>)
    ensures key.Some? <==> HasDepartment(t)
    ensures key.Some? ==> key.value == t.department && key.value != ""
  {
    if t.department == "" then None else Some(t.department)
  }

  function One(t: Summary): real
  {
    1.0
  }

  predicate HasDepartment(t: Summary)
  {
    t.department != ""
  }

  /**
   * The department counts: no empty department, a department is counted
   * exactly when some task has it, and the counts add up to the number of
   * tasks with a department (each count on its own is DepartmentCount).
   */
  lemma DepartmentCounts(ts: seq<Summary>)
    ensures var (keys, counts) := TallyOf(ts, DepartmentKey, One);
      "" !in counts
      && (forall d :: d in counts <==> exists i :: 0 <= i < |ts| && ts[i].department == d && d != "")
      && SumOver(keys, counts) == Count(ts, HasDepartment) as real
  {
    var (keys, counts) := TallyOf(ts, DepartmentKey, One);
    TallySum(ts, DepartmentKey, One);
    KeyedCount(ts);
    forall d ensures d in counts <==> exists i :: 0 <= i < |ts| && ts[i].department == d && d != "" {
      if d in counts {
        var i :| 0 <= i < |ts| && DepartmentKey(ts[i]) == Some(d);
      }
      if exists i :: 0 <= i < |ts| && ts[i].department == d && d != "" {
        var i :| 0 <= i < |ts| && ts[i].department == d && d != "";
        assert DepartmentKey(ts[i]) == Some(d);
      }
    }
  }

  /** The tasks of one department. */
  function InDepartment(d: string): Summary -> bool
  {
    (t: Summary) => t.department == d
  }

  /** Each department's count is the number of its tasks. */
  lemma DepartmentCount(ts: seq<Summary>, d: string)
    requires d in TallyOf(ts, DepartmentKey, One).1
    ensures TallyOf(ts, DepartmentKey, One).1[d] == Count(ts, InDepartment(d)) as real
  {
    DepartmentCounts(ts);
    TallyPerKey(ts, DepartmentKey, One, d);
    KeyedCountOf(ts, d);
  }

  lemma {:induction false} KeyedCountOf(ts: seq<Summary>, d: string)
    requires d != ""
    ensures Keyed(ts, DepartmentKey, One, d) == Count(ts, InDepartment(d)) as real
    decreases |ts|
  {
    if ts != [] {
      var prefix := ts[..|ts| - 1];
      KeyedCountOf(prefix, d);
      assert ts == prefix + [ts[|ts| - 1]];
      CountAppend(prefix, ts[|ts| - 1], InDepartment(d));
    }
  }

  /** Counting with weight 1 is counting. */
  lemma {:induction false} KeyedCount(ts: seq<Summary>)
    ensures KeyedTotal(ts, DepartmentKey, One) == Count(ts, HasDepartment) as real
    decreases |ts|
  {
    if ts != [] {
      var prefix := ts[..|ts| - 1];
      KeyedCount(prefix);
      assert ts == prefix + [ts[|ts| - 1]];
      CountAppend(prefix, ts[|ts| - 1], HasDepartment);
    }
  }

  /** Payment types: an empty or `"undefined"` type is filed under "Unknown". */
  function PaymentKey(t: Summary): (key: Option<string>)
    ensures key.Some? && key.value != "" && key.value != "undefined"
    ensures t.paymentType != "" && t.paymentType != "undefined" ==> key.value == t.paymentType
    ensures key.value == "Unknown" <==> t.paymentType == "" || t.paymentType == "undefined" || t.paymentType == "Unknown"
  {
    Some(if t.paymentType == "" || t.paymentType == "undefined" then "Unknown" else t.paymentType)
  }

  /** Every task's bill lands in exactly one bucket, so the buckets add up to the total bill. */
  lemma PaymentTotals(ts: seq<Summary>)
    ensures var (keys, totals) := TallyOf(ts, PaymentKey, Bill);
      "" !in totals && "undefined" !in totals
      && SumOver(keys, totals) == TotalBill(ts)
  {
    TallySum(ts, PaymentKey, Bill);
    KeyedBill(ts);
    assert forall i :: 0 <= i < |ts| ==> PaymentKey(ts[i]) != Some("") && PaymentKey(ts[i]) != Some("undefined");
  }

  /** Every task has a payment bucket, so the keyed total is the plain total. */
  lemma {:induction false} KeyedBill(ts: seq<Summary>)
    ensures KeyedTotal(ts, PaymentKey, Bill) == TotalBill(ts)
    decreases |ts|
  {
    if ts != [] {
      var prefix := ts[..|ts| - 1];
      KeyedBill(prefix);
      assert ts == prefix + [ts[|ts| - 1]];
      SumOfAppend(prefix, ts[|ts| - 1], Bill);
    }
  }

  /** The payment-type entries shown: all of them, but "Unknown" only with a positive total. */
  function PaymentData(keys: seq<string>, totals: map<string, real>): (es: seq<(string, real)>)
    requires forall i :: 0 <= i < |keys| ==> keys[i] in totals
    ensures forall i :: 0 <= i < |es| ==> es[i].0 in totals && es[i].1 == totals[es[i].0]
    ensures forall i :: 0 <= i < |es| && es[i].0 == "Unknown" ==> totals["Unknown"] > 0.0
    ensures forall i :: 0 <= i < |keys| && (keys[i] != "Unknown" || totals["Unknown"] > 0.0) ==> (keys[i], totals[keys[i]]) in es
  {
    var shown := (e: (string, real)) => e.0 != "Unknown" || ("Unknown" in totals && totals["Unknown"] > 0.0);
    var es := Entries(keys, totals);
    var r := Filter(es, shown);
    FilterFrom(es, shown);
    forall i | 0 <= i < |keys| && (keys[i] != "Unknown" || totals["Unknown"] > 0.0)
      ensures (keys[i], totals[keys[i]]) in r
    {
      assert es[i] == (keys[i], totals[keys[i]]);
    }
    r
  }

  predicate HasVendor(t: Summary)
  {
    t.vendorName != ""
  }

  /** `filter(vendor).sort(by cost, largest first).slice(0, 5)`. */
  function TopRepairs(ts: seq<Summary>): (top: seq<Summary>)
    ensures |top| <= 5
    ensures forall i :: 0 <= i < |top| ==> HasVendor(top[i]) && top[i] in ts
  {
    var vendors := Filter(ts, HasVendor);
    var sorted := SortDesc(vendors, Bill);
    FilterFrom(ts, HasVendor);
    assert forall i :: 0 <= i < |sorted| ==> sorted[i] in multiset(vendors);
    Take(SortDesc(Filter(ts, HasVendor), Bill), 5)
  }

  /**
   * At most five entries, each a task with a vendor and each task at most
   * once, costliest first.
   */
  lemma TopRepairsShape(ts: seq<Summary>)
    ensures var top := TopRepairs(ts); var vendors := Filter(ts, HasVendor);
      |top| == (if |vendors| < 5 then |vendors| else 5)
      && (forall i :: 0 <= i < |top| ==> HasVendor(top[i]))
      && SortedDesc(top, Bill)
      && multiset(top) <= multiset(vendors)
  {
    var vendors := Filter(ts, HasVendor);
    var sorted := SortDesc(vendors, Bill);
    var top := TopRepairs(ts);
    TakePrefix(sorted, 5, Bill);
    forall i | 0 <= i < |top| ensures HasVendor(top[i]) {
      assert top[i] in multiset(sorted);
    }
  }

  /** Every task with a vendor that is left out costs no more than any listed one. */
  lemma TopRepairsBeatRest(ts: seq<Summary>, t: Summary)
    requires t in multiset(Filter(ts, HasVendor)) - multiset(TopRepairs(ts))
    ensures forall i :: 0 <= i < |TopRepairs(ts)| ==> Bill(t) <= Bill(TopRepairs(ts)[i])
  {
    var vendors := Filter(ts, HasVendor);
    var sorted := SortDesc(vendors, Bill);
    assert multiset(sorted) == multiset(vendors);
    TakeBeatsRest(sorted, 5, Bill, t);
  }

  /** The bar chart's entries: vendor and cost of each top repair. */
  function VendorCosts(top: seq<Summary>): (es: seq<(string, real)>)
    ensures |es| == |top|
    ensures forall i :: 0 <= i < |es| ==> es[i] == (top[i].vendorName, top[i].totalBillRepair)
  {
    seq(|top|, i requires 0 <= i < |top| => (top[i].vendorName, top[i].totalBillRepair))
  }

  /** The department chart: each department met, in order, with its number of tasks. */
  function DepartmentChart(ts: seq<Summary>): seq<(string, real)>
  {
    var (keys, counts) := TallyOf(ts, DepartmentKey, One);
    Entries(keys, counts)
  }

  /** The payment-type chart: each bucket met, in order, with its total bill. */
  function PaymentChart(ts: seq<Summary>): seq<(string, real)>
  {
    var (keys, totals) := TallyOf(ts, PaymentKey, Bill);
    PaymentData(keys, totals)
  }

  /** `departmentCounts` filled by its loop, then listed as `Object.entries`. */
  method CountByDepartment(ts: seq<Summary>) returns (es: seq<(string, real)>)
    ensures es == DepartmentChart(ts)
  {
    var keys, counts := Accumulate(ts, DepartmentKey, One);
    es := Entries(keys, counts);
  }

  /** `paymentTypeTotals` filled by its loop, then listed with "Unknown" only when positive. */
  method TotalByPaymentType(ts: seq<Summary>) returns (es: seq<(string, real)>)
    ensures es == PaymentChart(ts)
  {
    var keys, totals := Accumulate(ts, PaymentKey, Bill);
    es := PaymentData(keys, totals);
  }

  // ------------------------------------------------------------------ state

  /** The figures on screen; each is replaced only by a fetch whose response reports success. */
  class Board {
    var tasks: seq<Summary>
    var pending: seq<Summary>
    var completed: seq<Summary>
    var totalRepairBill: real
    var departments: seq<(string, real)>
    var paymentTypes: seq<(string, real)>
    var vendorCosts: seq<(string, real)>

    constructor ()
      ensures tasks == [] && pending == [] && completed == [] && totalRepairBill == 0.0
      ensures departments == [] && paymentTypes == [] && vendorCosts == []
    {
      tasks, pending, completed := [], [], [];
      totalRepairBill := 0.0;
      departments, paymentTypes, vendorCosts := [], [], [];
    }

    /**
     * `fetchAllTasks`: a response without success changes nothing;
     * otherwise every figure is recomputed from the rows, the two tallies
     * by their accumulator loops.
     */
    method FetchAllTasks(success: bool, data: Rows)
      modifies this
      ensures !success ==> unchanged(this)
      ensures success ==>
        tasks == Summaries(data)
        && pending == Filter(tasks, IsPending) && completed == Filter(tasks, IsCompleted)
        && totalRepairBill == TotalBill(tasks)
        && departments == DepartmentChart(tasks) && paymentTypes == PaymentChart(tasks)
        && vendorCosts == VendorCosts(TopRepairs(tasks))
    {
      if !success {
        return;
      }
      var ts := Summaries(data);
      var departments' := CountByDepartment(ts);
      var paymentTypes' := TotalByPaymentType(ts);
      var vendorCosts' := VendorCosts(TopRepairs(ts));
      PublishCounts(ts);
      PublishCharts(departments', paymentTypes', vendorCosts');
    }

    /** The task list and the three metric cards. */
    method PublishCounts(ts: seq<Summary>)
      modifies this
      ensures tasks == ts && pending == Filter(ts, IsPending) && completed == Filter(ts, IsCompleted)
      ensures totalRepairBill == TotalBill(ts)
      ensures departments == old(departments) && paymentTypes == old(paymentTypes) && vendorCosts == old(vendorCosts)
    {
      tasks, pending, completed := ts, Filter(ts, IsPending), Filter(ts, IsCompleted);
      totalRepairBill := TotalBill(ts);
    }

    /** The three charts, as computed. */
    method PublishCharts(departments': seq<(string, real)>, paymentTypes': seq<(string, real)>,
                         vendorCosts': seq<(string, real)>)
      modifies this
      ensures departments == departments' && paymentTypes == paymentTypes' && vendorCosts == vendorCosts'
      ensures tasks == old(tasks) && pending == old(pending) && completed == old(completed)
      ensures totalRepairBill == old(totalRepairBill)
    {
      departments, paymentTypes, vendorCosts := departments', paymentTypes', vendorCosts';
    }
  }
}
