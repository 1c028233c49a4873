/**
 * `authenticateUser`: the login lookup in the "Repair Login" sheet. Row 0
 * is the header; each later row holds a username, a password, a role and a
 * comma-separated list of the pages the user may open.
 */
module Auth {
  import opened Wrappers
  import opened Text

  /** A login row as the sheet script returns it: as many cells as the row has. */
  type LoginRow = seq<string>

  /** `String(row[i])`: a cell past the end of the row is `undefined`, which prints as "undefined". */
  function Shown(row: LoginRow, i: nat): (s: string)
    ensures i < |row| ==> s == row[i]
    ensures i >= |row| ==> s == "undefined"
  {
    if i < |row| then row[i] else "undefined"
  }

  /** The row's trimmed username and password cells equal the inputs, which are compared as typed. */
  function Matches(row: LoginRow, username: string, password: string): (m: bool)
    ensures m ==> Unpadded(username) && Unpadded(password)
    ensures |row| >= 2 ==> (m <==> Trim(row[0]) == username && Trim(row[1]) == password)
  {
    TrimIsUnpadded(Shown(row, 0));
    TrimIsUnpadded(Shown(row, 1));
    Trim(Shown(row, 0)) == username && Trim(Shown(row, 1)) == password
  }

  /** An empty row matches exactly the username and password "undefined". */
  lemma EmptyRowMatches(row: LoginRow, username: string, password: string)
    requires |row| == 0
    ensures Matches(row, username, password) <==> username == "undefined" && password == "undefined"
  {
    ShownPastEndTrims(row, 0);
    ShownPastEndTrims(row, 1);
  }

  /** A cell past the end of the row reads "undefined" also once trimmed. */
  lemma ShownPastEndTrims(row: LoginRow, i: nat)
    ensures i >= |row| ==> Trim(Shown(row, i)) == "undefined"
  {
    if i >= |row| {
      var s := Shown(row, i);
      assert !IsWhite(s[0]) && !IsWhite(s[|s| - 1]);
      TrimUnpadded(s);
    }
  }

  /** `find` over the elements from `from` on: the position of the first that satisfies `p`, if any. */
  function FindFrom<T>(xs: seq<T>, from: nat, p: T -> bool): (r: Option<nat>)
    requires from <= |xs|
    ensures r.Some? ==> from <= r.value < |xs| && p(xs[r.value])
    ensures r.Some? ==> forall j :: from <= j < r.value ==> !p(xs[j])
    ensures r.None? <==> forall j :: from <= j < |xs| ==> !p(xs[j])
    decreases |xs| - from
  {
    if from == |xs| then None
    else if p(xs[from]) then Some(from)
    else FindFrom(xs, from + 1, p)
  }

  /** The search looks at the elements from `from` on and at nothing before them. */
  lemma {:induction false} FindFromTail<T>(xs: seq<T>, ys: seq<T>, from: nat, p: T -> bool)
    requires from <= |xs| == |ys| && xs[from..] == ys[from..]
    ensures FindFrom(xs, from, p) == FindFrom(ys, from, p)
    decreases |xs| - from
  {
    if from < |xs| {
      assert xs[from] == xs[from..][0] && ys[from] == ys[from..][0];
      assert xs[from + 1..] == xs[from..][1..];
      assert ys[from + 1..] == ys[from..][1..];
      FindFromTail(xs, ys, from + 1, p);
    }
  }

  /** The signed-in user: `id` and `name` are the username as typed. */
  datatype User = User(id: string, name: string, role: Option<string>, access: seq<string>)

  /** Every entry of the list, trimmed. */
  function Trims(parts: seq<string>): (r: seq<string>)
    ensures |r| == |parts| && forall k :: 0 <= k < |r| ==> r[k] == Trim(parts[k])
  {
    seq(|parts|, k requires 0 <= k < |parts| => Trim(parts[k]))
  }

  /** The page access list: none for an absent or empty cell 3, else its comma-separated entries, trimmed. */
  function AccessList(row: LoginRow): (access: seq<string>)
    ensures |row| <= 3 || row[3] == "" ==> access == []
    ensures |row| > 3 && row[3] != "" ==> |access| >= 1 && forall k :: 0 <= k < |access| ==> Unpadded(access[k])
  {
    if |row| <= 3 || row[3] == "" then [] else Trims(Split(row[3], ','))
  }

  /** The user a matching row signs in. */
  function UserOf(row: LoginRow, username: string): (u: User)
    ensures u.id == username && u.name == username
    ensures u.role == (if |row| > 2 then Some(row[2]) else None)
    ensures u.access == AccessList(row)
  {
    User(username, username, if |row| > 2 then Some(row[2]) else None, AccessList(row))
  }

  /** What the request for the login sheet came to. */
  datatype Reply =
    | Thrown(message: string)          // the fetch or the JSON parse threw: its error is passed on
    | NotOk                            // an HTTP error status
    | Json(data: Option<seq<LoginRow>>) // the parsed body; `data` is absent when the body has none

  /** Row `i` (past the header) is the first that matches. */
  predicate FirstMatchAt(rows: seq<LoginRow>, i: int, username: string, password: string)
  {
    1 <= i < |rows| && Matches(rows[i], username, password)
    && forall j :: 1 <= j < i ==> !Matches(rows[j], username, password)
  }

  /**
   * `authenticateUser`: the error the caller sees, or the user of the first
   * row after the header whose credentials match.
   */
  function Authenticate(reply: Reply, username: string, password: string): (r: Result<User, string>)
    ensures reply.Thrown? ==> r == Err(reply.message)
    ensures reply.NotOk? ==> r == Err("Network response was not ok")
    ensures reply.Json? && (reply.data.None? || |reply.data.value| < 2) ==> r == Err("No user data found")
    ensures reply.Json? && reply.data.Some? && |reply.data.value| >= 2 ==>
      var rows := reply.data.value;
      (r.Ok? <==> exists i :: 1 <= i < |rows| && Matches(rows[i], username, password))
      && (r.Err? ==> r.error == "Invalid credentials")
      && (r.Ok? ==> exists i :: FirstMatchAt(rows, i, username, password) && r.value == UserOf(rows[i], username))
  {
    match reply
    case Thrown(message) => Err(message)
    case NotOk => Err("Network response was not ok")
    case Json(data) =>
      if data.None? || |data.value| < 2 then Err("No user data found")
      else
        var rows := data.value;
        match FindFrom(rows, 1, row => Matches(row, username, password))
        case None => Err("Invalid credentials")
        case Some(i) =>
          assert FirstMatchAt(rows, i, username, password);
          Ok(UserOf(rows[i], username))
  }

  /** The header row is never a login: whatever it holds, the outcome is the same. */
  lemma HeaderNeverMatched(rows: seq<LoginRow>, header: LoginRow, username: string, password: string)
    requires |rows| >= 2
    ensures Authenticate(Json(Some([header] + rows[1..])), username, password)
         == Authenticate(Json(Some(rows)), username, password)
  {
    var other := [header] + rows[1..];
    assert other[1..] == rows[1..];
    FindFromTail(rows, other, 1, row => Matches(row, username, password));
  }

  /**
   * The username and password are compared untrimmed against trimmed
   * cells, so input with white space at either end never signs in.
   */
  lemma PaddedInputRejected(reply: Reply, username: string, password: string)
    requires (username != "" && (IsWhite(username[0]) || IsWhite(username[|username| - 1])))
          || (password != "" && (IsWhite(password[0]) || IsWhite(password[|password| - 1])))
    ensures Authenticate(reply, username, password).Err?
  {
    if reply.Json? && reply.data.Some? && |reply.data.value| >= 2 {
      var rows := reply.data.value;
      forall i | 1 <= i < |rows| ensures !Matches(rows[i], username, password) {
        if username != "" && (IsWhite(username[0]) || IsWhite(username[|username| - 1])) {
          TrimmedIsNot(Shown(rows[i], 0), username);
        } else {
          TrimmedIsNot(Shown(rows[i], 1), password);
        }
      }
    }
  }

  /** A trimmed cell never equals a text with white space at either end. */
  lemma TrimmedIsNot(cell: string, x: string)
    requires x != "" && (IsWhite(x[0]) || IsWhite(x[|x| - 1]))
    ensures Trim(cell) != x
  {
    TrimIsUnpadded(cell);
    PaddedIsNot(Trim(cell), x);
  }

  lemma PaddedIsNot(t: string, x: string)
    requires Unpadded(t)
    requires x != "" && (IsWhite(x[0]) || IsWhite(x[|x| - 1]))
    ensures t != x
  {
  }

  /**
   * A non-empty access cell gives one entry more than it has commas; each
   * entry is trimmed and holds no comma.
   */
  lemma AccessListShape(row: LoginRow)
    requires |row| > 3 && row[3] != ""
    ensures |AccessList(row)| == multiset(row[3])[','] + 1
    ensures forall k :: 0 <= k < |AccessList(row)| ==>
      Trim(AccessList(row)[k]) == AccessList(row)[k] && ',' !in AccessList(row)[k]
  {
    SplitCount(row[3], ',');
    var parts := Split(row[3], ',');
    forall k | 0 <= k < |parts| ensures Trim(Trims(parts)[k]) == Trims(parts)[k] && ',' !in Trims(parts)[k] {
      TrimIdempotent(parts[k]);
      var t := Trim(parts[k]);
      var i :| TrimmedAt(parts[k], t, i);
      assert forall c :: c in t ==> c in parts[k];
    }
  }

  /** When no entry is padded with white space, the access list joined by commas is the cell itself. */
  lemma AccessListJoins(row: LoginRow)
    requires |row| > 3 && row[3] != ""
    requires forall k :: 0 <= k < |Split(row[3], ',')| ==> Trim(Split(row[3], ',')[k]) == Split(row[3], ',')[k]
    ensures Join(AccessList(row), ',') == row[3]
  {
    var parts := Split(row[3], ',');
    TrimsOfTrimmed(parts);
  }

  /** Trimming entries that are already trimmed changes nothing. */
  lemma TrimsOfTrimmed(parts: seq<string>)
    requires forall k :: 0 <= k < |parts| ==> Trim(parts[k]) == parts[k]
    ensures Trims(parts) == parts
  {
    var access := Trims(parts);
    forall k | 0 <= k < |parts| ensures access[k] == parts[k] {
    }
  }
}
