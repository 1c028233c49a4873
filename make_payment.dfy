/**
 * The Repair Advance screen: tasks of the "Repair System" sheet that are
 * planned for payment (`planned4`) but not yet paid (`actual4`), the payments
 * of the "Repair FMS Advance Payment" sheet, the `PN-` payment-number
 * allocator, and the submit that inserts a payment row, stamps the task row
 * and appends the new payment to the history list.
 */
module MakePayment {
  import opened Wrappers
  import opened Seqs
  import opened Text
  import opened Sheet
  import opened Clock

  // ------------------------------------------------------------------ tasks

  /**
   * A task row as this screen maps it, restricted to the fields the screen
   * reads; `rowIndex` addresses the writes of a submit.
   */
  datatype Task = Task(
    rowIndex: int,
    taskNo: string, serialNo: string, machineName: string, doerName: string,
    vendorName: string, leadTimeToDeliverDays: string, paymentType: string,
    howMuch: string, billImage: string, billNo: string, totalBillAmount: string,
    toBePaidAmount: string, planned4: string, actual4: string)

  /**
   * One row to a task: every field is its cell or `""` when the row is too
   * short, except that the payment type and the to-be-paid amount prefer the
   * later columns 46 and 47 over 25 and 36.
   */
  function MapRow(row: Row, rowIndex: int): (t: Task)
    ensures t.rowIndex == rowIndex
    ensures t.taskNo == Cell(row, 1) && t.serialNo == Cell(row, 2) && t.machineName == Cell(row, 3)
    ensures t.vendorName == Cell(row, 19) && t.billNo == Cell(row, 33) && t.totalBillAmount == Cell(row, 35)
    ensures t.planned4 == Cell(row, 43) && t.actual4 == Cell(row, 44)
    ensures t.paymentType == Or(Cell(row, 46), Cell(row, 25))
    ensures t.toBePaidAmount == Or(Cell(row, 47), Cell(row, 36))
  {
    Task(
      rowIndex, Cell(row, 1), Cell(row, 2), Cell(row, 3), Cell(row, 6), Cell(row, 19),
      Cell(row, 20), Or(Cell(row, 46), Cell(row, 25)), Cell(row, 26), Cell(row, 32),
      Cell(row, 33), Cell(row, 35), Or(Cell(row, 47), Cell(row, 36)), Cell(row, 43), Cell(row, 44))
  }

  /** The mapper as written: six rows skipped, but record i is given row number i + 6. */
  function MapTasksAsWritten(rows: Rows): (ts: seq<Task>)
    ensures |ts| == if |rows| <= 6 then 0 else |rows| - 6
    ensures forall i :: 0 <= i < |ts| ==> ts[i] == MapRow(rows[6 + i], i + 6)
  {
    MapRows(rows, 6, 6, MapRow)
  }

  /** The mapper as intended: record i comes from `rows[6 + i]`, which is sheet row i + 7. */
  function MapTasks(rows: Rows): (ts: seq<Task>)
    ensures |ts| == if |rows| <= 6 then 0 else |rows| - 6
    ensures forall i :: 0 <= i < |ts| ==> ts[i] == MapRow(rows[6 + i], i + 7)
  {
    MapRows(rows, 6, 7, MapRow)
  }

  /** With the intended numbering, a task's row number addresses the very row it was read from. */
  lemma RowIndexAddressesOwnRow(rows: Rows, i: nat, c: nat)
    requires i < |MapTasks(rows)|
    ensures CellAt(rows, MapTasks(rows)[i].rowIndex, c + 1) == Cell(rows[6 + i], c)
  {
    assert MapTasks(rows)[i].rowIndex == i + 7;
  }

  /** As written, a task's row number addresses the row above the one it was read from. */
  lemma AsWrittenAddressesRowAbove(rows: Rows, i: nat, c: nat)
    requires i < |MapTasksAsWritten(rows)|
    ensures CellAt(rows, MapTasksAsWritten(rows)[i].rowIndex, c + 1) == Cell(rows[5 + i], c)
  {
    assert MapTasksAsWritten(rows)[i].rowIndex == i + 6;
  }

  /** Waiting for payment: planned for it and not yet paid. */
  predicate IsPending(t: Task)
  {
    t.planned4 != "" && t.actual4 == ""
  }

  /** Paid. */
  predicate IsHistory(t: Task)
  {
    t.actual4 != ""
  }

  /** Neither planned nor paid: shown in no tab. */
  predicate IsUnplanned(t: Task)
  {
    t.planned4 == "" && t.actual4 == ""
  }

  /** The two tabs: an order-preserving selection each, and no task in both. */
  function Stages(ts: seq<Task>): (r: (seq<Task>, seq<Task>))
    ensures forall k :: 0 <= k < |r.0| ==> IsPending(r.0[k]) && !IsHistory(r.0[k])
    ensures forall k :: 0 <= k < |r.1| ==> IsHistory(r.1[k]) && !IsPending(r.1[k])
    ensures forall k :: 0 <= k < |ts| ==> (IsPending(ts[k]) ==> ts[k] in r.0) && (IsHistory(ts[k]) ==> ts[k] in r.1)
    ensures IsSubsequence(r.0, ts) && IsSubsequence(r.1, ts)
  {
    FilterIsSubsequence(ts, IsPending);
    FilterIsSubsequence(ts, IsHistory);
    (Filter(ts, IsPending), Filter(ts, IsHistory))
  }

  /** Every task is pending, paid, or unplanned, and exactly one of them. */
  lemma StagesPartition(ts: seq<Task>)
    ensures |Stages(ts).0| + |Stages(ts).1| + |Filter(ts, IsUnplanned)| == |ts|
  {
    PartitionSizes(ts, IsPending, IsHistory, IsUnplanned);
  }

  // --------------------------------------------------------------- payments

  /** A payment record; `billMatch` is present only on the optimistic entry. */
  datatype Payment = Payment(
    timestamp: string, paymentNo: string, repairTaskNo: string, serialNo: string,
    machineName: string, vendorName: string, billNo: string, totalBillAmount: string,
    paymentType: string, toBePaidAmount: string, billMatch: Option<string>)

  function PaymentFields(p: Payment): seq<string>
  {
    [p.timestamp, p.paymentNo, p.repairTaskNo, p.serialNo, p.machineName, p.vendorName,
     p.billNo, p.totalBillAmount, p.paymentType, p.toBePaidAmount]
  }

  /** The cells of a Visualization-API row: a cell may be null or carry no value. */
  type GvizRow = seq<Option<string>>

  /** `cells[k]?.v || ""`. */
  function GvizCell(cells: GvizRow, k: nat): (v: string)
    ensures k < |cells| && cells[k].Some? ==> v == cells[k].value
    ensures k >= |cells| || cells[k].None? ==> v == ""
  {
    if k < |cells| && cells[k].Some? then cells[k].value else ""
  }

  /** One payment row: the ten cells in order, each `""` when absent. */
  function MapPayment(cells: GvizRow): (p: Payment)
    ensures |PaymentFields(p)| == 10 && p.billMatch.None?
    ensures forall k :: 0 <= k < 10 ==> PaymentFields(p)[k] == GvizCell(cells, k)
  {
    Payment(GvizCell(cells, 0), GvizCell(cells, 1), GvizCell(cells, 2), GvizCell(cells, 3),
      GvizCell(cells, 4), GvizCell(cells, 5), GvizCell(cells, 6), GvizCell(cells, 7),
      GvizCell(cells, 8), GvizCell(cells, 9), None)
  }

  /** The payments sheet after its five header rows. */
  function MapPayments(rows: seq<GvizRow>): (ps: seq<Payment>)
    ensures |ps| == if |rows| <= 5 then 0 else |rows| - 5
    ensures forall i :: 0 <= i < |ps| ==> ps[i] == MapPayment(rows[5 + i])
  {
    if |rows| <= 5 then [] else seq(|rows| - 5, i requires 0 <= i < |rows| - 5 => MapPayment(rows[5 + i]))
  }

  // ----------------------------------------------------- payment numbers

  /** A payment number the allocator takes into account: `PN-` and a suffix `parseInt` reads. */
  predicate IsPaymentNo(id: string)
  {
    |id| >= 3 && id[..3] == "PN-" && ParseInt(id[3..]).Some?
  }

  function SuffixOf(id: string): int
    requires IsPaymentNo(id)
  {
    ParseInt(id[3..]).value
  }

  /** The parsed suffixes of the ids that are payment numbers, in order. */
  function Suffixes(ids: seq<string>): (ns: seq<int>)
    ensures |ns| <= |ids|
  {
    if ids == [] then []
    else if IsPaymentNo(ids[0]) then [SuffixOf(ids[0])] + Suffixes(ids[1..])
    else Suffixes(ids[1..])
  }

  /** Every payment number's suffix is among the suffixes. */
  lemma {:induction false} SuffixesContain(ids: seq<string>, k: nat)
    requires k < |ids| && IsPaymentNo(ids[k])
    ensures SuffixOf(ids[k]) in Suffixes(ids)
  {
    var x, xs := ids[0], ids[1..];
    assert ids == [x] + xs;
    SuffixesCons(x, xs);
    if k == 0 {
      assert Suffixes(ids) == [SuffixOf(x)] + Suffixes(xs);
    } else {
      SuffixesContain(xs, k - 1);
      assert xs[k - 1] == ids[k];
    }
  }

  /** Every suffix comes from an id that is a payment number. */
  lemma {:induction false} SuffixesSound(ids: seq<string>)
    ensures forall n :: n in Suffixes(ids) ==>
      exists k :: 0 <= k < |ids| && IsPaymentNo(ids[k]) && SuffixOf(ids[k]) == n
  {
    if ids != [] {
      assert ids == [ids[0]] + ids[1..];
      SuffixesCons(ids[0], ids[1..]);
      SuffixesSound(ids[1..]);
      forall n | n in Suffixes(ids)
        ensures exists k :: 0 <= k < |ids| && IsPaymentNo(ids[k]) && SuffixOf(ids[k]) == n
      {
        if IsPaymentNo(ids[0]) && n == SuffixOf(ids[0]) {
          assert 0 < |ids| && IsPaymentNo(ids[0]) && SuffixOf(ids[0]) == n;
        } else {
          assert n in Suffixes(ids[1..]);
          var j :| 0 <= j < |ids[1..]| && IsPaymentNo(ids[1..][j]) && SuffixOf(ids[1..][j]) == n;
          assert ids[j + 1] == ids[1..][j];
        }
      }
    }
  }

  /** The first element after sorting in descending order: the largest. */
  function Max(ns: seq<int>): (m: int)
    requires |ns| > 0
    ensures m in ns && forall k :: 0 <= k < |ns| ==> ns[k] <= m
  {
    if |ns| == 1 then ns[0]
    else
      var m := Max(ns[1..]);
      assert forall k :: 1 <= k < |ns| ==> ns[k] == ns[1..][k - 1];
      if ns[0] >= m then ns[0] else m
  }

  /** The largest suffix, or 0 when there is none (`[0] || 0`). */
  function LastPaymentNo(ids: seq<string>): (last: int)
    ensures Suffixes(ids) == [] ==> last == 0
    ensures Suffixes(ids) != [] ==> last in Suffixes(ids)
    ensures forall k :: 0 <= k < |Suffixes(ids)| ==> Suffixes(ids)[k] <= last
  {
    var ns := Suffixes(ids);
    if ns == [] then 0 else Max(ns)
  }

  /** No payment number has a suffix above the last one. */
  lemma LastPaymentNoBounds(ids: seq<string>)
    ensures forall k :: 0 <= k < |ids| && IsPaymentNo(ids[k]) ==> SuffixOf(ids[k]) <= LastPaymentNo(ids)
  {
    forall k | 0 <= k < |ids| && IsPaymentNo(ids[k])
      ensures SuffixOf(ids[k]) <= LastPaymentNo(ids)
    {
      SuffixesContain(ids, k);
    }
  }

  /** `padStart(3, "0")` of `String(n)` parses back to n, or for a short negative n to 0 (`"0-4"`). */
  lemma ParsePadded(n: int)
    ensures var r := ParseInt(PadStart(IntText(n), 3, '0'));
      r.Some? && r.value >= n && (n >= 0 ==> r.value == n)
  {
    var s := IntText(n);
    var p := PadStart(s, 3, '0');
    if n >= 0 {
      var z := p[..|p| - |s|];
      assert p == z + s;
      DigitsValueLeadingZeros(z, s);
      ParseIntDigits(p);
    } else if |s| >= 3 {
      assert p == s;
      ParseIntText(n);
    } else {
      assert p == "0" + s;
      assert p[0] == '0';
      assert !IsWhite(p[0]) && p[0] != '-' && p[0] != '+';
      assert TrimStart(p) == p;
      assert SignAndBody(p) == (1, p);
      DigitPrefixOfDigits("0", s);
      assert DigitsValue("0") == 0;
    }
  }

  /** `"PN-" + String(last + 1).padStart(3, "0")`. */
  function PaymentNoAfter(last: int): string
  {
    "PN-" + PadStart(IntText(last + 1), 3, '0')
  }

  /**
   * The number allocated next: a payment number whose suffix is greater
   * than that of every payment number already present.
   */
  function NextPaymentNo(ids: seq<string>): (no: string)
    ensures |no| >= 6 && no[..3] == "PN-"
  {
    PaymentNoAfter(LastPaymentNo(ids))
  }

  /** The allocated number is a payment number, and its suffix exceeds every existing one. */
  lemma NextPaymentNoExceeds(ids: seq<string>)
    ensures IsPaymentNo(NextPaymentNo(ids))
    ensures forall k :: 0 <= k < |ids| && IsPaymentNo(ids[k]) ==> SuffixOf(ids[k]) < SuffixOf(NextPaymentNo(ids))
  {
    var last := LastPaymentNo(ids);
    var no := NextPaymentNo(ids);
    LastPaymentNoBounds(ids);
    assert no[3..] == PadStart(IntText(last + 1), 3, '0');
    ParsePadded(last + 1);
  }

  /**
   * The number allocated next follows the largest existing suffix m
   * (`PN-` and m + 1 padded to three digits), whichever id carries it.
   */
  lemma NextPaymentNoFollowsMax(ids: seq<string>, k: nat)
    requires k < |ids| && IsPaymentNo(ids[k])
    requires forall j :: 0 <= j < |ids| && IsPaymentNo(ids[j]) ==> SuffixOf(ids[j]) <= SuffixOf(ids[k])
    ensures NextPaymentNo(ids) == PaymentNoAfter(SuffixOf(ids[k]))
  {
    LastPaymentNoIsMax(ids, k);
  }

  /** The last number is the suffix of an id that no other payment number exceeds. */
  lemma LastPaymentNoIsMax(ids: seq<string>, k: nat)
    requires k < |ids| && IsPaymentNo(ids[k])
    requires forall j :: 0 <= j < |ids| && IsPaymentNo(ids[j]) ==> SuffixOf(ids[j]) <= SuffixOf(ids[k])
    ensures LastPaymentNo(ids) == SuffixOf(ids[k])
  {
    SuffixesContain(ids, k);
    SuffixesSound(ids);
    var last := LastPaymentNo(ids);
    assert last in Suffixes(ids);
    var j :| 0 <= j < |ids| && IsPaymentNo(ids[j]) && SuffixOf(ids[j]) == last;
    LastPaymentNoBounds(ids);
    assert SuffixOf(ids[k]) <= last;
  }

  /** When no id is a payment number (`PN-xyz`, another prefix) the first number is PN-001. */
  lemma NoPaymentNoYet(ids: seq<string>)
    requires forall k :: 0 <= k < |ids| ==> !IsPaymentNo(ids[k])
    ensures NextPaymentNo(ids) == "PN-001"
  {
    SuffixesSound(ids);
    if Suffixes(ids) != [] {
      assert Suffixes(ids)[0] in Suffixes(ids);
    }
    FirstPaymentNo();
    assert LastPaymentNo(ids) == LastPaymentNo([]);
  }

  /** PN-001, PN-xyz and PN-007 are followed by PN-008: PN-xyz is skipped, 7 is the largest suffix. */
  lemma NextPaymentNoExample()
    ensures NextPaymentNo(["PN-001", "PN-xyz", "PN-007"]) == "PN-008"
  {
    assert "PN-00" + [DigitChar(1)] == "PN-001";
    assert "PN-00" + [DigitChar(7)] == "PN-007";
    assert "PN-00" + [DigitChar(8)] == "PN-008";
    NextPaymentNoAfterMixed(1, 7);
  }

  /** PN-00a, PN-xyz, PN-00b with a <= b < 9 are followed by PN-00(b + 1). */
  lemma NextPaymentNoAfterMixed(a: nat, b: nat)
    requires 1 <= a <= b <= 8
    ensures NextPaymentNo(["PN-00" + [DigitChar(a)], "PN-xyz", "PN-00" + [DigitChar(b)]]) == "PN-00" + [DigitChar(b + 1)]
  {
    var ids := ["PN-00" + [DigitChar(a)], "PN-xyz", "PN-00" + [DigitChar(b)]];
    MixedIds(ids, a, b);
    NextPaymentNoFollowsMax(ids, 2);
    PaymentNoAfterDigit(b);
  }

  lemma MixedIds(ids: seq<string>, a: nat, b: nat)
    requires 1 <= a <= b <= 8
    requires ids == ["PN-00" + [DigitChar(a)], "PN-xyz", "PN-00" + [DigitChar(b)]]
    ensures |ids| == 3 && IsPaymentNo(ids[0]) && !IsPaymentNo(ids[1]) && IsPaymentNo(ids[2])
    ensures SuffixOf(ids[0]) == a && SuffixOf(ids[2]) == b
    ensures forall j :: 0 <= j < |ids| && IsPaymentNo(ids[j]) ==> SuffixOf(ids[j]) <= SuffixOf(ids[2])
  {
    UnparsableSuffix();
    PaddedDigitSuffix(ids[0], a);
    PaddedDigitSuffix(ids[2], b);
    forall j | 0 <= j < |ids| && IsPaymentNo(ids[j])
      ensures SuffixOf(ids[j]) <= SuffixOf(ids[2])
    {
      assert j == 0 || j == 2;
    }
  }

  lemma PaddedDigitSuffix(id: string, d: nat)
    requires 1 <= d <= 9 && id == "PN-00" + [DigitChar(d)]
    ensures IsPaymentNo(id) && SuffixOf(id) == d
  {
    assert id == "PN-" + ("00" + [DigitChar(d)]);
    DigitsValueLeadingZeros("00", [DigitChar(d)]);
    DigitsSuffix(id, "00" + [DigitChar(d)]);
    assert [DigitChar(d)][..0] == [];
  }

  lemma DigitsSuffix(id: string, d: string)
    requires id == "PN-" + d && |d| >= 1 && AllDigits(d)
    ensures IsPaymentNo(id) && SuffixOf(id) == DigitsValue(d)
  {
    assert id[..3] == "PN-" && id[3..] == d;
    ParseIntDigits(d);
  }


  /** With no payment yet the first number is PN-001. */
  lemma FirstPaymentNo()
    ensures NextPaymentNo([]) == "PN-001"
  {
    NextPaymentNoDigit([], 1);
    assert DigitChar(1) == '1';
  }

  /** When the largest suffix is below 9 the next number has two padding zeros. */
  lemma NextPaymentNoDigit(ids: seq<string>, d: nat)
    requires 1 <= d <= 9 && LastPaymentNo(ids) == d - 1
    ensures NextPaymentNo(ids) == "PN-00" + [DigitChar(d)]
  {
    PaymentNoAfterDigit(d - 1);
  }

  lemma PaymentNoAfterDigit(last: nat)
    requires last < 9
    ensures PaymentNoAfter(last) == "PN-00" + [DigitChar(last + 1)]
  {
    var d := last + 1;
    assert IntText(d) == [DigitChar(d)];
    assert Repeat('0', 2) == ['0', '0'] by {
      assert Repeat('0', 1) == ['0'];
    }
  }

  /**
   * Ids that are not payment numbers (no `PN-` prefix, or a suffix `parseInt`
   * rejects, such as `PN-xyz`) are skipped wherever they stand.
   */
  lemma SkipsNonPaymentNo(ids: seq<string>, k: nat, id: string)
    requires k <= |ids| && !IsPaymentNo(id)
    ensures NextPaymentNo(ids[..k] + [id] + ids[k..]) == NextPaymentNo(ids)
  {
    SuffixesSkip(ids, k, id);
  }

  lemma {:induction false} SuffixesSkip(ids: seq<string>, k: nat, id: string)
    requires k <= |ids| && !IsPaymentNo(id)
    ensures Suffixes(ids[..k] + [id] + ids[k..]) == Suffixes(ids)
  {
    InsertAt(ids, k, id);
    if k == 0 {
      SuffixesCons(id, ids);
    } else {
      SuffixesSkip(ids[1..], k - 1, id);
      SuffixesCons(ids[0], ids[1..][..k - 1] + [id] + ids[1..][k - 1..]);
      SuffixesCons(ids[0], ids[1..]);
    }
  }

  /** Inserting at the front, or behind the head of the list. */
  lemma InsertAt<T>(xs: seq<T>, k: nat, x: T)
    requires k <= |xs|
    ensures k == 0 ==> xs[..k] + [x] + xs[k..] == [x] + xs
    ensures k > 0 ==> xs[..k] + [x] + xs[k..] == [xs[0]] + (xs[1..][..k - 1] + [x] + xs[1..][k - 1..])
    ensures k > 0 ==> xs == [xs[0]] + xs[1..]
  {
  }

  /** The suffixes of a list are those of its head, if a payment number, then those of its tail. */
  lemma SuffixesCons(x: string, xs: seq<string>)
    ensures Suffixes([x] + xs) == (if IsPaymentNo(x) then [SuffixOf(x)] else []) + Suffixes(xs)
  {
    assert ([x] + xs)[0] == x && ([x] + xs)[1..] == xs;
  }

  /** `PN-xyz` is not a payment number: `parseInt("xyz")` is NaN. */
  lemma UnparsableSuffix()
    ensures !IsPaymentNo("PN-xyz")
  {
    var z := "PN-xyz"[3..];
    assert z == "xyz";
    assert TrimStart(z) == z;
    assert SignAndBody(z) == (1, z);
  }

  /** Appending an allocated number makes the next allocation larger still: numbers are never reused. */
  lemma AllocationAdvances(ids: seq<string>)
    ensures var no := NextPaymentNo(ids); var next := NextPaymentNo(ids + [no]);
      IsPaymentNo(no) && IsPaymentNo(next) && SuffixOf(no) < SuffixOf(next)
  {
    var no := NextPaymentNo(ids);
    NextPaymentNoExceeds(ids);
    NextPaymentNoExceeds(ids + [no]);
    assert (ids + [no])[|ids|] == no;
  }

  // ------------------------------------------------------------------ submit

  /** The three editable fields of the payment form. */
  datatype PaymentForm = PaymentForm(totalBillAmount: string, paymentType: string, toBePaidAmount: string)

  /** The row inserted into the payments sheet: ten cells in the payment column order. */
  function PaymentRowData(formattedDate: string, no: string, t: Task, form: PaymentForm): (row: Row)
    ensures |row| == 10 && row[0] == formattedDate && row[1] == no && row[2] == t.taskNo
    ensures row[5] == t.vendorName && row[8] == form.paymentType && row[9] == form.toBePaidAmount
  {
    [formattedDate, no, t.taskNo, t.serialNo, t.machineName, t.vendorName, t.billNo,
     form.totalBillAmount, form.paymentType, form.toBePaidAmount]
  }

  /** The entry appended to the history list on success, marked `billMatch: "No"`. */
  function NewPayment(formattedDate: string, no: string, t: Task, form: PaymentForm): (p: Payment)
    ensures p.billMatch == Some("No") && p.paymentNo == no && p.repairTaskNo == t.taskNo
  {
    Payment(formattedDate, no, t.taskNo, t.serialNo, t.machineName, t.vendorName, t.billNo,
      form.totalBillAmount, form.paymentType, form.toBePaidAmount, Some("No"))
  }

  /** Reading the inserted row back gives the optimistic entry, without its `billMatch` mark. */
  lemma PaymentRowReadsBack(formattedDate: string, no: string, t: Task, form: PaymentForm)
    ensures var row := PaymentRowData(formattedDate, no, t, form);
      MapPayment(seq(10, k requires 0 <= k < 10 => Some(row[k])))
        == NewPayment(formattedDate, no, t, form).(billMatch := None)
  {
    var row := PaymentRowData(formattedDate, no, t, form);
    var cells := seq(10, k requires 0 <= k < 10 => Some(row[k]));
    var p := MapPayment(cells);
    var q := NewPayment(formattedDate, no, t, form).(billMatch := None);
    assert PaymentFields(p) == PaymentFields(q) by {
      forall k | 0 <= k < 10 ensures PaymentFields(p)[k] == PaymentFields(q)[k] {
        assert GvizCell(cells, k) == row[k];
      }
    }
    assert PaymentFields(p)[0] == p.timestamp && PaymentFields(q)[0] == q.timestamp;
  }

  /** Columns 45, 47 and 48: the paid date (read as `actual4`), the payment type and the amount. */
  function Updates(actual4Date: string, form: PaymentForm): (ws: seq<Write>)
    ensures |ws| == 3 && ValidColumns(ws) && DistinctColumns(ws)
    ensures ws[0].value == actual4Date
  {
    [Write(45, actual4Date), Write(47, form.paymentType), Write(48, form.toBePaidAmount)]
  }

  /** The submit succeeded: the insert and every update reported success. */
  function Succeeded(insert: Response, updates: seq<Response>): (ok: bool)
    ensures ok <==> insert.success && forall k :: 0 <= k < |updates| ==> updates[k].success
  {
    insert.success && FirstFailure(updates).None?
  }

  /** A sheet of the same height has the same tasks, each read from its own row. */
  lemma TaskOfSameSizeSheet(rows: Rows, after: Rows, i: nat)
    requires i < |MapTasks(rows)| && |after| == |rows|
    ensures i < |MapTasks(after)| && MapTasks(after)[i] == MapRow(after[6 + i], i + 7)
  {
  }

  /**
   * Addressing the intended row, an accepted date write moves the task out of
   * pending and into history.
   */
  lemma SubmitMovesTaskToHistory(rows: Rows, i: nat, date: string, form: PaymentForm, rs: seq<Response>)
    requires i < |MapTasks(rows)| && date != "" && |rs| == 3 && rs[0].success
    ensures MapTasks(rows)[i].rowIndex == i + 7
    ensures var after := ApplyWrites(rows, i + 7, Accepted(Updates(date, form), rs));
      i < |MapTasks(after)| && MapTasks(after)[i].actual4 == date
      && !IsPending(MapTasks(after)[i]) && IsHistory(MapTasks(after)[i])
  {
    var ws := Updates(date, form);
    var after := ApplyWrites(rows, i + 7, Accepted(ws, rs));
    BatchSetsCell(rows, i + 7, ws, rs, 0);
    TaskOfSameSizeSheet(rows, after, i);
    assert Cell(after[6 + i], 44) == date;
    assert MapTasks(after)[i].actual4 == date;
  }

  /**
   * An accepted payment type is what the task reads afterwards, in
   * preference to the older column 25.
   */
  lemma SubmitRecordsPaymentType(rows: Rows, i: nat, date: string, form: PaymentForm, rs: seq<Response>)
    requires i < |MapTasks(rows)| && |rs| == 3 && rs[1].success && form.paymentType != ""
    ensures var after := ApplyWrites(rows, i + 7, Accepted(Updates(date, form), rs));
      i < |MapTasks(after)| && MapTasks(after)[i].paymentType == form.paymentType
  {
    var ws := Updates(date, form);
    var after := ApplyWrites(rows, i + 7, Accepted(ws, rs));
    BatchSetsCell(rows, i + 7, ws, rs, 1);
    TaskOfSameSizeSheet(rows, after, i);
  }

  /**
   * An accepted to-be-paid amount is what the task reads afterwards, in
   * preference to the older column 36.
   */
  lemma SubmitRecordsAmount(rows: Rows, i: nat, date: string, form: PaymentForm, rs: seq<Response>)
    requires i < |MapTasks(rows)| && |rs| == 3 && rs[2].success && form.toBePaidAmount != ""
    ensures var after := ApplyWrites(rows, i + 7, Accepted(Updates(date, form), rs));
      i < |MapTasks(after)| && MapTasks(after)[i].toBePaidAmount == form.toBePaidAmount
  {
    var ws := Updates(date, form);
    var after := ApplyWrites(rows, i + 7, Accepted(ws, rs));
    BatchSetsCell(rows, i + 7, ws, rs, 2);
    TaskOfSameSizeSheet(rows, after, i);
  }

  /** A sheet whose only task, in row 7, is planned for payment and not paid. */
  function ExampleSheet(): Rows
  {
    seq(6, _ => []) + [seq(43, _ => "") + ["planned"]]
  }

  /**
   * As written, a fully successful submit on that task stamps the date into
   * row 6 (the last header row) and the task stays pending.
   */
  lemma AsWrittenSubmitMissesTask()
    ensures var rows := ExampleSheet();
      var t := MapTasksAsWritten(rows)[0];
      var after := ApplyWrites(rows, t.rowIndex, Updates("16/10/2026", PaymentForm("", "", "")));
      IsPending(t) && CellAt(after, 6, 45) == "16/10/2026" && IsPending(MapTasksAsWritten(after)[0])
  {
    var rows := ExampleSheet();
    var row := rows[6];
    assert row == seq(43, _ => "") + ["planned"];
    assert Cell(row, 43) == "planned" && Cell(row, 44) == "";
    var ws := Updates("16/10/2026", PaymentForm("", "", ""));
    ApplyWritesSets(rows, 6, ws, 0);
    var after := ApplyWrites(rows, 6, ws);
    ApplyWritesFrame(rows, 6, ws, 7, 44);
    ApplyWritesFrame(rows, 6, ws, 7, 45);
    assert |after| == 7;
    assert Cell(after[6], 43) == CellAt(after, 7, 44);
    assert Cell(after[6], 44) == CellAt(after, 7, 45);
  }

  /** What the history tab lists: tasks from the task sheet and payments appended on submit. */
  datatype HistoryEntry = TaskEntry(task: Task) | PaymentEntry(payment: Payment)

  function PaymentNumbers(ps: seq<Payment>): (ids: seq<string>)
    ensures |ids| == |ps| && forall k :: 0 <= k < |ps| ==> ids[k] == ps[k].paymentNo
  {
    seq(|ps|, k requires 0 <= k < |ps| => ps[k].paymentNo)
  }

  /**
   * The screen's state: the two sheets it writes, the payments the store
   * holds, and the two tabs.
   */
  class PaymentDesk {
    var taskSheet: Rows
    var paymentSheet: Rows
    var repairPayments: seq<Payment>
    var pending: seq<Task>
    var history: seq<HistoryEntry>

    constructor (taskSheet: Rows, paymentSheet: Rows, repairPayments: seq<Payment>)
      ensures this.taskSheet == taskSheet && this.paymentSheet == paymentSheet
      ensures this.repairPayments == repairPayments && pending == [] && history == []
    {
      this.taskSheet := taskSheet;
      this.paymentSheet := paymentSheet;
      this.repairPayments := repairPayments;
      pending := [];
      history := [];
    }

    /**
     * `fetchAllTasks`: both tabs are recomputed from the task sheet, with the
     * row numbers the code assigns (`MapTasksAsWritten`, one row too low).
     */
    method FetchAllTasks()
      modifies this
      ensures taskSheet == old(taskSheet) && paymentSheet == old(paymentSheet)
      ensures repairPayments == old(repairPayments)
      ensures pending == Stages(MapTasksAsWritten(taskSheet)).0
      ensures |history| == |Stages(MapTasksAsWritten(taskSheet)).1|
      ensures forall k :: 0 <= k < |history| ==> history[k] == TaskEntry(Stages(MapTasksAsWritten(taskSheet)).1[k])
    {
      var stages := Stages(MapTasksAsWritten(taskSheet));
      pending := stages.0;
      history := seq(|stages.1|, k requires 0 <= k < |stages.1| => TaskEntry(stages.1[k]));
    }

    /**
     * `handleSubmit`: without a selected task nothing happens. Otherwise the
     * payment row is inserted and the three updates are issued together; the
     * sheets keep whatever was accepted, and only when everything succeeded
     * is the new payment appended to the store and to the history tab.
     */
    method Submit(selected: Option<Task>, form: PaymentForm, now: Instant, actual4Date: string,
                  insert: Response, updates: seq<Response>) returns (outcome: Option<bool>)
      requires now.Valid() && |updates| == 3
      requires selected.Some? ==> selected.value.rowIndex >= 1
      modifies this
      ensures selected.None? ==> outcome.None? && unchanged(this)
      ensures selected.Some? ==>
        var t := selected.value;
        var no := NextPaymentNo(PaymentNumbers(old(repairPayments)));
        var date := PlainTimestamp(now);
        var p := NewPayment(date, no, t, form);
        outcome == Some(Succeeded(insert, updates))
        && taskSheet == ApplyWrites(old(taskSheet), t.rowIndex, Accepted(Updates(actual4Date, form), updates))
        && paymentSheet == (if insert.success then old(paymentSheet) + [PaymentRowData(date, no, t, form)] else old(paymentSheet))
        && pending == old(pending)
        && repairPayments == (if Succeeded(insert, updates) then old(repairPayments) + [p] else old(repairPayments))
        && history == (if Succeeded(insert, updates) then old(history) + [PaymentEntry(p)] else old(history))
    {
      if selected.None? {
        return None;
      }
      var date := PlainTimestamp(now);
      var no := NextPaymentNo(PaymentNumbers(repairPayments));
      var ok := Record(selected.value, date, no, form, actual4Date, insert, updates);
      outcome := Some(ok);
    }

    /** The writes of a submit once the date and the payment number are known. */
    method Record(t: Task, date: string, no: string, form: PaymentForm, actual4Date: string,
                  insert: Response, updates: seq<Response>) returns (ok: bool)
      requires |updates| == 3 && t.rowIndex >= 1
      modifies this
      ensures var p := NewPayment(date, no, t, form);
        ok == Succeeded(insert, updates)
        && taskSheet == ApplyWrites(old(taskSheet), t.rowIndex, Accepted(Updates(actual4Date, form), updates))
        && paymentSheet == (if insert.success then old(paymentSheet) + [PaymentRowData(date, no, t, form)] else old(paymentSheet))
        && pending == old(pending)
        && repairPayments == (if ok then old(repairPayments) + [p] else old(repairPayments))
        && history == (if ok then old(history) + [PaymentEntry(p)] else old(history))
    {
      if insert.success {
        paymentSheet := paymentSheet + [PaymentRowData(date, no, t, form)];
      }
      taskSheet := ApplyWrites(taskSheet, t.rowIndex, Accepted(Updates(actual4Date, form), updates));
      ok := Succeeded(insert, updates);
      if ok {
        var p := NewPayment(date, no, t, form);
        repairPayments := repairPayments + [p];
        history := history + [PaymentEntry(p)];
      }
    }
  }
}
