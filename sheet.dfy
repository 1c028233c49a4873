/**
 * The spreadsheet-backed store every screen reads and writes, seen from the
 * client: rows of string cells, the `updateCell` action that overwrites one
 * cell, the responses the server sends back, and file uploads.
 *
 * Addressing: `rows[k]` is sheet row k + 1 (the "Read rows" action returns the
 * sheet from its first row), and `updateCell` takes a 1-based row position and
 * a 1-based column, so the cell a mapper reads as `row[i]` is written as
 * column i + 1.
 */
module Sheet {
  import opened Wrappers

  type Row = seq<string>
  type Rows = seq<Row>

  /** `row[i] || ""`: the cell, or the empty string when the row is shorter. */
  function Cell(row: Row, i: nat): (v: string)
    ensures i < |row| ==> v == row[i]
    ensures |row| <= i ==> v == ""
  {
    if i < |row| then row[i] else ""
  }

  /** `a || b` on two strings: the first unless it is empty. */
  function Or(a: string, b: string): (r: string)
    ensures r == "" <==> a == "" && b == ""
    ensures r == a || r == b
    ensures a != "" ==> r == a
  {
    if a != "" then a else b
  }

  /** The cell at 1-based sheet row `r` and 1-based column `c`; empty outside the data. */
  function CellAt(rows: Rows, r: int, c: int): string
  {
    if 1 <= r <= |rows| && 1 <= c then Cell(rows[r - 1], c - 1) else ""
  }

  /**
   * `allRows.slice(skip).map((row, i) => f(row, i + offset))`: the mapper
   * shape every screen uses, with the sheet-row number it records.
   */
  function MapRows<R>(rows: Rows, skip: nat, offset: int, f: (Row, int) -> R): (out: seq<R>)
    ensures |out| == if |rows| <= skip then 0 else |rows| - skip
    ensures forall i :: 0 <= i < |out| ==> out[i] == f(rows[skip + i], i + offset)
  {
    if |rows| <= skip then [] else seq(|rows| - skip, i requires 0 <= i < |rows| - skip => f(rows[skip + i], i + offset))
  }

  /** The `updateCell` action: overwrite one cell, growing the sheet or row with blanks if needed. */
  function SetCell(rows: Rows, r: nat, c: nat, v: string): (out: Rows)
    requires r >= 1 && c >= 1
    ensures |out| == if |rows| < r then r else |rows|
    ensures CellAt(out, r, c) == v
  {
    var padded := if |rows| < r then rows + seq(r - |rows|, _ => []) else rows;
    var row := padded[r - 1];
    var row' := if c <= |row| then row[c - 1 := v] else row + seq(c - 1 - |row|, _ => "") + [v];
    padded[r - 1 := row']
  }

  /** `updateCell` leaves every other cell as it was. */
  lemma SetCellFrame(rows: Rows, r: nat, c: nat, v: string, r': int, c': int)
    requires r >= 1 && c >= 1 && (r' != r || c' != c)
    ensures CellAt(SetCell(rows, r, c, v), r', c') == CellAt(rows, r', c')
  {
  }

  /** One cell write of a transition: a 1-based column and the value written there. */
  datatype Write = Write(col: nat, value: string)

  predicate ValidColumns(ws: seq<Write>)
  {
    forall k :: 0 <= k < |ws| ==> ws[k].col >= 1
  }

  /** No column is written twice, so the writes may land in any order. */
  predicate DistinctColumns(ws: seq<Write>)
  {
    forall k, l :: 0 <= k < l < |ws| ==> ws[k].col != ws[l].col
  }

  predicate WritesColumn(ws: seq<Write>, c: int)
  {
    exists k :: 0 <= k < |ws| && ws[k].col == c
  }

  /** The writes applied one after another to row `r`. */
  function ApplyWrites(rows: Rows, r: nat, ws: seq<Write>): (out: Rows)
    requires r >= 1 && ValidColumns(ws)
    ensures |out| >= |rows| && (r <= |rows| ==> |out| == |rows|)
    decreases |ws|
  {
    if ws == [] then rows
    else ApplyWrites(SetCell(rows, r, ws[0].col, ws[0].value), r, ws[1..])
  }

  /** A cell no write addresses keeps its value. */
  lemma {:induction false} ApplyWritesFrame(rows: Rows, r: nat, ws: seq<Write>, r': int, c': int)
    requires r >= 1 && ValidColumns(ws) && (r' != r || !WritesColumn(ws, c'))
    ensures CellAt(ApplyWrites(rows, r, ws), r', c') == CellAt(rows, r', c')
    decreases |ws|
  {
    if ws != [] {
      assert WritesColumn(ws, ws[0].col) by { assert ws[0].col == ws[0].col; }
      var next := SetCell(rows, r, ws[0].col, ws[0].value);
      SetCellFrame(rows, r, ws[0].col, ws[0].value, r', c');
      if r' == r {
        assert !WritesColumn(ws[1..], c') by {
          forall k | 0 <= k < |ws| - 1 ensures ws[1..][k].col != c' {
            assert ws[1..][k] == ws[k + 1];
          }
        }
      }
      ApplyWritesFrame(next, r, ws[1..], r', c');
    }
  }

  /** With distinct columns, each write's value is what the row holds afterwards in its column. */
  lemma {:induction false} ApplyWritesSets(rows: Rows, r: nat, ws: seq<Write>, k: nat)
    requires r >= 1 && ValidColumns(ws) && DistinctColumns(ws) && k < |ws|
    ensures CellAt(ApplyWrites(rows, r, ws), r, ws[k].col) == ws[k].value
    decreases |ws|
  {
    var next := SetCell(rows, r, ws[0].col, ws[0].value);
    if k == 0 {
      assert !WritesColumn(ws[1..], ws[0].col) by {
        forall j | 0 <= j < |ws| - 1 ensures ws[1..][j].col != ws[0].col {
          assert ws[1..][j] == ws[j + 1];
        }
      }
      ApplyWritesFrame(next, r, ws[1..], r, ws[0].col);
    } else {
      assert ws[1..][k - 1] == ws[k];
      ApplyWritesSets(next, r, ws[1..], k - 1);
    }
  }

  /** The responses of a batch: the first one reporting failure, as `results.find(r => !r.success)`. */
  datatype Response = Response(success: bool, message: Option<string>, error: Option<string>)

  function FirstFailure(rs: seq<Response>): (f: Option<Response>)
    ensures f.None? <==> forall k :: 0 <= k < |rs| ==> rs[k].success
    ensures f.Some? ==> !f.value.success && f.value in rs
  {
    if rs == [] then None
    else if !rs[0].success then Some(rs[0])
    else FirstFailure(rs[1..])
  }

  /** `failed.message || failed.error` as the alert shows it (an absent error prints as "undefined"). */
  function FailureText(r: Response): (t: string)
    ensures r.message.Some? && r.message.value != "" ==> t == r.message.value
    ensures !(r.message.Some? && r.message.value != "") ==> t == (if r.error.Some? then r.error.value else "undefined")
  {
    if r.message.Some? && r.message.value != "" then r.message.value
    else if r.error.Some? then r.error.value
    else "undefined"
  }

  /** The writes of a concurrent batch that the server accepted, in issue order. */
  function Accepted(ws: seq<Write>, rs: seq<Response>): (out: seq<Write>)
    requires |rs| == |ws|
    ensures |out| <= |ws|
    ensures (forall k :: 0 <= k < |rs| ==> rs[k].success) ==> out == ws
    ensures ValidColumns(ws) ==> ValidColumns(out)
  {
    if ws == [] then []
    else
      var rest := Accepted(ws[1..], rs[1..]);
      assert ValidColumns(ws) ==> ValidColumns(ws[1..]) by {
        if ValidColumns(ws) {
          forall k | 0 <= k < |ws| - 1 ensures ws[1..][k].col >= 1 {
            assert ws[1..][k] == ws[k + 1];
          }
        }
      }
      if rs[0].success then [ws[0]] + rest else rest
  }

  /** Every accepted write is one of the batch whose response succeeded. */
  lemma {:induction false} AcceptedFrom(ws: seq<Write>, rs: seq<Response>, j: nat)
    requires |rs| == |ws| && j < |Accepted(ws, rs)|
    ensures exists i :: 0 <= i < |ws| && Accepted(ws, rs)[j] == ws[i] && rs[i].success
  {
    var rest := Accepted(ws[1..], rs[1..]);
    if rs[0].success && j == 0 {
      assert Accepted(ws, rs)[0] == ws[0];
    } else {
      var j' := if rs[0].success then j - 1 else j;
      assert Accepted(ws, rs)[j] == rest[j'];
      AcceptedFrom(ws[1..], rs[1..], j');
      var i :| 0 <= i < |ws| - 1 && rest[j'] == ws[1..][i] && rs[1..][i].success;
      assert ws[1..][i] == ws[i + 1] && rs[1..][i] == rs[i + 1];
    }
  }

  /** Every write whose response succeeded is accepted. */
  lemma {:induction false} AcceptedKeeps(ws: seq<Write>, rs: seq<Response>, k: nat)
    requires |rs| == |ws| && k < |ws| && rs[k].success
    ensures exists j :: 0 <= j < |Accepted(ws, rs)| && Accepted(ws, rs)[j] == ws[k]
  {
    var rest := Accepted(ws[1..], rs[1..]);
    if k == 0 {
      assert Accepted(ws, rs)[0] == ws[0];
    } else {
      assert ws[k] == ws[1..][k - 1] && rs[k] == rs[1..][k - 1];
      AcceptedKeeps(ws[1..], rs[1..], k - 1);
      var j :| 0 <= j < |rest| && rest[j] == ws[k];
      var j' := if rs[0].success then j + 1 else j;
      assert Accepted(ws, rs)[j'] == rest[j];
    }
  }

  lemma {:induction false} AcceptedDistinct(ws: seq<Write>, rs: seq<Response>)
    requires |rs| == |ws| && ValidColumns(ws) && DistinctColumns(ws)
    ensures DistinctColumns(Accepted(ws, rs))
  {
    if ws != [] {
      assert DistinctColumns(ws[1..]) by {
        forall k, l | 0 <= k < l < |ws| - 1 ensures ws[1..][k].col != ws[1..][l].col {
          assert ws[1..][k] == ws[k + 1] && ws[1..][l] == ws[l + 1];
        }
      }
      assert ValidColumns(ws[1..]) by {
        forall k | 0 <= k < |ws| - 1 ensures ws[1..][k].col >= 1 {
          assert ws[1..][k] == ws[k + 1];
        }
      }
      AcceptedDistinct(ws[1..], rs[1..]);
      var rest := Accepted(ws[1..], rs[1..]);
      forall j | 0 <= j < |rest| ensures rest[j].col != ws[0].col {
        AcceptedFrom(ws[1..], rs[1..], j);
        var i :| 0 <= i < |ws| - 1 && rest[j] == ws[1..][i] && rs[1..][i].success;
        assert rest[j] == ws[i + 1];
      }
    }
  }

  /**
   * A concurrent batch to distinct columns: each accepted write is in place
   * afterwards and each rejected one left its cell as it was; nothing is
   * rolled back.
   */
  lemma BatchOutcome(rows: Rows, r: nat, ws: seq<Write>, rs: seq<Response>, k: nat)
    requires r >= 1 && ValidColumns(ws) && DistinctColumns(ws) && |rs| == |ws| && k < |ws|
    ensures ValidColumns(Accepted(ws, rs))
    ensures CellAt(ApplyWrites(rows, r, Accepted(ws, rs)), r, ws[k].col)
            == if rs[k].success then ws[k].value else CellAt(rows, r, ws[k].col)
  {
    var acc := Accepted(ws, rs);
    AcceptedDistinct(ws, rs);
    if rs[k].success {
      AcceptedKeeps(ws, rs, k);
      var j :| 0 <= j < |acc| && acc[j] == ws[k];
      ApplyWritesSets(rows, r, acc, j);
    } else {
      assert !WritesColumn(acc, ws[k].col) by {
        forall j | 0 <= j < |acc| ensures acc[j].col != ws[k].col {
          AcceptedFrom(ws, rs, j);
          var i :| 0 <= i < |ws| && acc[j] == ws[i] && rs[i].success;
        }
      }
      ApplyWritesFrame(rows, r, acc, r, ws[k].col);
    }
  }

  /** An accepted write of a batch, read back through the row the screens map. */
  lemma BatchSetsCell(rows: Rows, r: nat, ws: seq<Write>, rs: seq<Response>, k: nat)
    requires 1 <= r <= |rows| && ValidColumns(ws) && DistinctColumns(ws) && |rs| == |ws| && k < |ws|
    requires rs[k].success
    ensures ValidColumns(Accepted(ws, rs))
    ensures var after := ApplyWrites(rows, r, Accepted(ws, rs));
      |after| == |rows| && Cell(after[r - 1], ws[k].col - 1) == ws[k].value
  {
    BatchOutcome(rows, r, ws, rs, k);
  }

  /** A column outside a batch is untouched by whatever part of it was accepted. */
  lemma BatchKeepsCell(rows: Rows, r: nat, ws: seq<Write>, rs: seq<Response>, r': int, c': int)
    requires r >= 1 && ValidColumns(ws) && |rs| == |ws| && !WritesColumn(ws, c')
    ensures ValidColumns(Accepted(ws, rs))
    ensures CellAt(ApplyWrites(rows, r, Accepted(ws, rs)), r', c') == CellAt(rows, r', c')
  {
    var acc := Accepted(ws, rs);
    assert !WritesColumn(acc, c') by {
      forall j | 0 <= j < |acc| ensures acc[j].col != c' {
        AcceptedFrom(ws, rs, j);
      }
    }
    ApplyWritesFrame(rows, r, acc, r', c');
  }

  // ---------------------------------------------------- sequential writes

  /**
   * How many writes of a sequential run go through: the responses before
   * the first one reporting failure, where the loop throws and stops.
   */
  function LeadingSuccesses(rs: seq<Response>): (n: nat)
    ensures n <= |rs|
    ensures forall k :: 0 <= k < n ==> rs[k].success
    ensures n < |rs| ==> !rs[n].success
  {
    if rs == [] || !rs[0].success then 0 else 1 + LeadingSuccesses(rs[1..])
  }

  /** Applying one more write after a run is applying the longer run. */
  lemma {:induction false} ApplyWritesSnoc(rows: Rows, r: nat, ws: seq<Write>, w: Write)
    requires r >= 1 && ValidColumns(ws) && w.col >= 1
    ensures ValidColumns(ws + [w])
    ensures ApplyWrites(rows, r, ws + [w]) == SetCell(ApplyWrites(rows, r, ws), r, w.col, w.value)
    decreases |ws|
  {
    assert ValidColumns(ws + [w]) by {
      forall k | 0 <= k < |ws| + 1 ensures (ws + [w])[k].col >= 1 {
      }
    }
    if ws == [] {
      assert ws + [w] == [w];
    } else {
      assert (ws + [w])[1..] == ws[1..] + [w];
      assert ValidColumns(ws[1..]) by {
        forall k | 0 <= k < |ws| - 1 ensures ws[1..][k].col >= 1 {
          assert ws[1..][k] == ws[k + 1];
        }
      }
      ApplyWritesSnoc(SetCell(rows, r, ws[0].col, ws[0].value), r, ws[1..], w);
    }
  }

  /**
   * After a sequential run stopped by its responses, a write that went
   * through holds its value, and a write at or after the failure left its
   * cell as it was.
   */
  lemma SequentialOutcome(rows: Rows, r: nat, ws: seq<Write>, rs: seq<Response>, k: nat)
    requires r >= 1 && ValidColumns(ws) && DistinctColumns(ws) && |rs| == |ws| && k < |ws|
    ensures ValidColumns(ws[..LeadingSuccesses(rs)])
    ensures var after := ApplyWrites(rows, r, ws[..LeadingSuccesses(rs)]);
      CellAt(after, r, ws[k].col) == if k < LeadingSuccesses(rs) then ws[k].value else CellAt(rows, r, ws[k].col)
  {
    var n := LeadingSuccesses(rs);
    var done := ws[..n];
    assert ValidColumns(done) by {
      forall j | 0 <= j < n ensures done[j].col >= 1 {
        assert done[j] == ws[j];
      }
    }
    if k < n {
      assert done[k] == ws[k];
      assert DistinctColumns(done) by {
        forall i, j | 0 <= i < j < n ensures done[i].col != done[j].col {
          assert done[i] == ws[i] && done[j] == ws[j];
        }
      }
      ApplyWritesSets(rows, r, done, k);
    } else {
      assert !WritesColumn(done, ws[k].col) by {
        forall j | 0 <= j < n ensures done[j].col != ws[k].col {
          assert done[j] == ws[j];
        }
      }
      ApplyWritesFrame(rows, r, done, r, ws[k].col);
    }
  }

  /** What a file upload came to: no file, the file could not be read, a response, or a thrown fetch. */
  datatype Upload = NoFile | ReadFailed | Responded(success: bool, fileUrl: string) | NetworkError

  /**
   * The remote sheet. Its one operation is the `updateCell` action; the
   * server's response is an input of the model, and the cell is overwritten
   * exactly when the server reports success.
   */
  class Spreadsheet {
    var rows: Rows

    constructor (initial: Rows)
      ensures rows == initial
    {
      rows := initial;
    }

    method UpdateCell(r: nat, c: nat, v: string, response: Response) returns (result: Response)
      requires r >= 1 && c >= 1
      modifies this
      ensures result == response
      ensures rows == if response.success then SetCell(old(rows), r, c, v) else old(rows)
    {
      if response.success {
        rows := SetCell(rows, r, c, v);
      }
      result := response;
    }
  }
}
