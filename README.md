# Repair console — a Dafny model of its screens

The Repair console is a React front end for a spreadsheet-backed machine-repair
and service workflow. Every screen reads a Google Sheet tab through a web
script. The script returns the tab as a two-dimensional array of cells. The
screen turns data rows into tasks, splits them into a pending tab and a
history tab, and writes a step's results back. It writes back either one cell
at a time (`updateCell`, 1-based row and column) or by appending a row
(`insert`).

This project models these parts:

- **Sheet** (`sheet.dfy`): cells, 1-based addressing, and `updateCell`.
  - `Spreadsheet.UpdateCell` changes one cell on a success response.
  - `ApplyWrites` describes a batch of cell writes.
  - A batch sent together (`Promise.all`) keeps exactly the writes whose responses succeeded (`Accepted`).
  - A batch sent one write after another stops at the first refusal (`LeadingSuccesses`).
- **Text, Clock, Seqs, Tally, Search**: the JavaScript built-ins the screens rely on, each with its properties.
  - Text: `trim`, `toLowerCase`, `includes`, `split`, `String(n)`, `padStart`, `parseInt`, `parseFloat`.
  - Clock: the timestamp templates.
  - Seqs: `filter`, `sort` and `slice`.
  - Tally: the `reduce` into an object of per-key totals.
  - Search: the search box filters.
- **MakePayment**: the payment screen.
  - Task mapping and its tabs.
  - The `PN-###` payment number allocation.
  - The payment row insert.
  - The three task-sheet updates and the store update on success.
- **SentMachine**: the "sent to vendor" step, as nine concurrent cell updates.
- **CheckMachine**: the "check machine" step, as eight concurrent updates.
  - It includes the to-be-paid amount (bill total minus advance) and the local store patch.
- **ExternalParts**: the external-parts step, as five updates sent in sequence that stop at the first failure.
- **PaymentApproval**: the approval step, as a timestamp write followed by a status write.
- **ServiceIndent**: the new service indent.
  - Optional image uploads.
  - A 13-cell row insert.
  - The reset after success.
- **Dashboard**: the summary tiles and the three charts computed from the repair sheet.
- **Auth**: `authenticateUser` against the login tab.

Screens whose fields the code updates in place are classes:
`PaymentDesk`, `SentDesk`, `CheckDesk`, `PartsDesk`, `ApprovalDesk`, `IndentDesk`, `Board`, `Spreadsheet`.
Each such class has the screen's state variables as fields. Server responses,
upload outcomes, the current time and locale-formatted dates are parameters.

Some upload paths behave differently from what their names, messages and toasts suggest. The model follows what the code does:

- CheckMachine: a failed upload does not abort the submit. The upload helper resolves `""`, and the bill image column is written empty.
- ExternalParts and ServiceIndent: the upload helper resolves `fileUrl || ""` whatever the `success` flag says. A reader error also resolves `""`.
- SentMachine: the upload helper's failure branch calls `toast`, which that file never imports. The promise then never settles, so no update is sent. This is modelled as a submit that stalls with no state change.

## Model

| member | source | states |
|---|---|---|
| Sheet.Cell | src/components/SentMachine/SentMachine.jsx:92-122 | `row[i]` falling back to `""`: the cell when the row has one, `""` past the row's end |
| Sheet.Or | src/components/MakePayment/MakePayment.jsx:108 | JavaScript `or` on two strings: empty only when both are, otherwise the first non-empty one |
| Sheet.MapRows | src/components/SentMachine/SentMachine.jsx:83-123 | slicing off the header rows and mapping each data row with its row number: length and each element |
| Sheet.SetCell | src/components/SentMachine/SentMachine.jsx:237-258 | after an `updateCell` the addressed cell reads the new value; the sheet grows to the row if needed |
| Sheet.SetCellFrame | src/components/SentMachine/SentMachine.jsx:237-258 | every other cell is unchanged by an `updateCell` |
| Sheet.ApplyWrites | src/components/CheckMachine/CheckMachine.jsx:233-253 | a batch of cell writes on one row never shrinks the sheet, keeps its size when the row exists |
| Sheet.ApplyWritesFrame | src/components/CheckMachine/CheckMachine.jsx:233-253 | cells of other rows and of columns the batch does not write are unchanged |
| Sheet.ApplyWritesSets | src/components/CheckMachine/CheckMachine.jsx:233-253 | with distinct columns, each written cell ends with its write's value |
| Sheet.FirstFailure | src/components/SentMachine/SentMachine.jsx:261 | `results.find(r => !r.success)`: absent exactly when all succeeded, otherwise a failed response of the batch |
| Sheet.FailureText | src/components/SentMachine/SentMachine.jsx:269 | the failed response's message when it is non-empty; otherwise its error, or "undefined" when it has none |
| Sheet.Accepted | src/components/SentMachine/SentMachine.jsx:237-258 | the writes the server applied under `Promise.all`: a sub-batch, all of it when every response succeeded |
| Sheet.AcceptedFrom | src/components/SentMachine/SentMachine.jsx:237-258 | every applied write is a write of the batch whose response succeeded |
| Sheet.AcceptedKeeps | src/components/SentMachine/SentMachine.jsx:237-258 | every write whose response succeeded is applied |
| Sheet.AcceptedDistinct | src/components/SentMachine/SentMachine.jsx:237-258 | the applied writes still address distinct columns |
| Sheet.BatchOutcome | src/components/SentMachine/SentMachine.jsx:237-261 | after a concurrent batch each column holds its new value iff its own request succeeded, else its old value |
| Sheet.BatchSetsCell | src/components/SentMachine/SentMachine.jsx:237-261 | a succeeded write shows in the row's 0-based cell `col - 1` |
| Sheet.BatchKeepsCell | src/components/SentMachine/SentMachine.jsx:221-258 | a column the batch does not write keeps its value whatever the responses |
| Sheet.LeadingSuccesses | src/components/Service/ExternalPartsDetails.jsx:149-168 | how many writes of a sequential loop ran before the first refusal: all of them succeeded, and the next one was refused |
| Sheet.ApplyWritesSnoc | src/components/Service/ExternalPartsDetails.jsx:149-168 | one more write in the loop is one more `updateCell` on the sheet so far |
| Sheet.SequentialOutcome | src/components/Service/ExternalPartsDetails.jsx:149-168 | after the loop, each write before the first refusal is in the sheet; the refused write and every later one leave the old value |
| Sheet.Spreadsheet.UpdateCell | src/components/Service/PaymentApproval.jsx:95-107 | one `updateCell` request: the sheet changes only on a success response, and the response is returned |
| Text.TrimStart | src/services/authService.js:40 | the result is a suffix of the input, what was dropped is all whitespace, and it does not start with whitespace |
| Text.TrimEnd | src/services/authService.js:40 | the result is a prefix of the input, what was dropped is all whitespace, and it does not end with whitespace |
| Text.Trim | src/services/authService.js:40 | `trim()`: a slice of the input with only whitespace cut at both ends, and neither end whitespace. Whitespace is JavaScript's set: tab, VT, FF, BOM, every Zs space separator, and the line terminators |
| Text.TrimIdempotent | src/services/authService.js:50 | trimming twice is trimming once |
| Text.Lower | src/components/Service/ServiceIndent.jsx:192-195 | `toLowerCase()`: same length, each letter A–Z lowered, other characters kept |
| Text.TrimUnpadded | src/services/authService.js:40 | `trim` leaves a text without white space at either end unchanged |
| Text.TrimEmpty | src/components/Dashboard/Dashboard.jsx:84 | a text trims to "" exactly when it is all white space |
| Text.LowerIdempotent | src/components/Dashboard/Dashboard.jsx:95 | lowering twice is lowering once |
| Text.Includes | src/components/Service/ServiceIndent.jsx:192-195 | `includes`: true iff the term occurs at some position |
| Text.IncludesEmpty | src/components/Service/ServiceIndent.jsx:190-196 | every string includes the empty term |
| Text.Split | src/services/authService.js:50 | `split(",")`: at least one part, parts free of the separator, and joining them back gives the input |
| Text.SplitCount | src/services/authService.js:50 | the number of parts is one more than the number of separators |
| Text.NatText | src/components/MakePayment/MakePayment.jsx:214 | `String(n)` for a natural number: decimal digits whose value is `n`, no leading zero, one digit iff `n < 10` |
| Text.IntText | src/components/MakePayment/MakePayment.jsx:214 | `String(i)` for an integer: a minus sign before the digits of `-i` when negative |
| Text.PadStart | src/components/MakePayment/MakePayment.jsx:214 | `padStart(n, c)`: length the larger of `n` and the length of `s`, `s` at the end, `c` before it |
| Text.DigitPrefix | src/components/MakePayment/MakePayment.jsx:210 | the longest run of digits at the start of the text |
| Text.ParseInt | src/components/MakePayment/MakePayment.jsx:210-211 | `parseInt(s, 10)` is NaN exactly when no digit follows the optional sign and the leading whitespace (JavaScript's set) |
| Text.ParseIntDigits | src/components/MakePayment/MakePayment.jsx:210 | `parseInt` of a digit string is its decimal value |
| Text.ParseIntText | src/components/MakePayment/MakePayment.jsx:210-214 | `parseInt(String(i))` gives back `i` for every integer |
| Text.ParseFloat | src/components/CheckMachine/CheckMachine.jsx:216 | `parseFloat` is NaN only when no digit follows the optional sign; a sign followed by digits alone parses to the signed value. Leading whitespace is JavaScript's set |
| Text.ParseUnsigned | src/components/CheckMachine/CheckMachine.jsx:216 | what follows the sign is NaN only without a leading digit; a run of digits alone reads as its signed value |
| Text.ParseFloatDecimal | src/components/CheckMachine/CheckMachine.jsx:216 | a decimal `w.f` followed by anything but a digit parses to the value of `w` plus the fraction `0.f` |
| Text.ParseFloatNatText | src/components/CheckMachine/CheckMachine.jsx:216 | `parseFloat(String(n))` is `n` |
| Text.StripNonNumeric | src/components/Dashboard/Dashboard.jsx:80 | `replace(/[^0-9.-]/g, '')`: only digits, dots and minus signs remain, and it never grows |
| Text.StripNonNumericKeeps | src/components/Dashboard/Dashboard.jsx:80 | an already clean text is unchanged, and stripping is idempotent |
| Text.StripNonNumericAppend | src/components/Dashboard/Dashboard.jsx:80 | stripping distributes over concatenation |
| Text.ParseFloatNoDigits | src/components/Dashboard/Dashboard.jsx:80 | text without a digit parses to NaN |
| Text.AmountText | src/components/CheckMachine/CheckMachine.jsx:218 | a number sent as a cell value: a whole non-negative amount is written as its decimal digits |
| Clock.Pad2 | src/components/Service/ServiceIndent.jsx:140 | `toString().padStart(2, "0")` of a number below 100 is two digits reading as that number |
| Clock.Pad2IsPadStart | src/components/Service/ServiceIndent.jsx:140 | that two-digit text is exactly `padStart(String(n), 2, "0")` |
| Clock.DateText | src/components/Service/ServiceIndent.jsx:140 | `dd/mm/yyyy`: two-digit day, two-digit month (0-based month plus one), slashes, then the year |
| Clock.TimeText | src/components/Service/ServiceIndent.jsx:140 | `hh:mm:ss`: eight characters, colons at 2 and 5, each field two digits reading as its value |
| Clock.PaddedTimestamp | src/components/Service/ExternalPartsDetails.jsx:139 | the padded timestamp is the date, one space, then the time |
| Clock.PlainTimestamp | src/components/MakePayment/MakePayment.jsx:201 | the unpadded timestamp starts with the day's digits followed by `/` |
| Clock.PlainTimestampDay | src/components/MakePayment/MakePayment.jsx:201 | `parseInt` of that timestamp reads back the day |
| Seqs.Filter | src/components/Dashboard/Dashboard.jsx:94-102 | `filter`: every kept element passes, and every passing element is kept |
| Seqs.FilterIsSubsequence | src/components/Dashboard/Dashboard.jsx:94-102 | the filtered list keeps the original order |
| Seqs.FilterAll | src/components/Service/ServiceIndent.jsx:190-196 | a filter that everything passes returns the list unchanged |
| Seqs.FilterNone | src/components/Dashboard/Dashboard.jsx:75 | a filter nothing passes returns the empty list |
| Seqs.FilterFilter | src/components/MakePayment/MakePayment.jsx:209-211 | two filters in a row are one filter on the conjunction |
| Seqs.CountIsFilterLength | src/components/Dashboard/Dashboard.jsx:111-117 | counting the elements that pass is the length of the filtered list |
| Seqs.CountAppend | src/components/Dashboard/Dashboard.jsx:111-117 | appending one element adds one to the count iff it passes |
| Seqs.PartitionSizes | src/components/MakePayment/MakePayment.jsx:129-136 | three mutually exclusive, exhaustive filters split the list's length |
| Seqs.Take | src/components/Dashboard/Dashboard.jsx:152 | `slice(0, n)`: the first min(n, length) elements |
| Seqs.TakePrefix | src/components/Dashboard/Dashboard.jsx:151-152 | a prefix is a sub-multiset and stays sorted |
| Seqs.TakeBeatsRest | src/components/Dashboard/Dashboard.jsx:151-152 | after a descending sort, an element cut by the slice is no larger than any element kept |
| Seqs.Drop | src/components/Dashboard/Dashboard.jsx:72 | `slice(k)`: element `i` of the result is element `k + i` of the input |
| Seqs.SumOfBounds | src/components/Dashboard/Dashboard.jsx:105-107 | with no negative weight, `reduce` with `+` gives at least 0 and at least each single weight |
| Seqs.SumOfAppend | src/components/Dashboard/Dashboard.jsx:105-107 | the running sum of `reduce` adds the last element's weight |
| Seqs.InsertDesc | src/components/Dashboard/Dashboard.jsx:151 | inserting into a descending list keeps it descending and adds exactly that element |
| Seqs.SortDesc | src/components/Dashboard/Dashboard.jsx:151 | `sort((a, b) => b - a)`: descending by the key and a permutation of the input |
| Tally.Step | src/components/Dashboard/Dashboard.jsx:111-117 | one `reduce` step: the keys stay distinct and gain the element's key when it has one |
| Tally.TallyOf | src/components/Dashboard/Dashboard.jsx:111-117 | `reduce` into an object: the keys are exactly those some element carries, each once |
| Tally.Entries | src/components/Dashboard/Dashboard.jsx:119-124 | `Object.entries`: one pair per key, in insertion order, with its total |
| Tally.TallyPerKey | src/components/Dashboard/Dashboard.jsx:111-117 | each key's total is the sum of the weights of the elements carrying that key |
| Tally.KeyedAbsent | src/components/Dashboard/Dashboard.jsx:111-117 | a key not in the object has no element carrying it |
| Tally.TallySum | src/components/Dashboard/Dashboard.jsx:128-138 | the totals over all keys add up to the weight of all keyed elements |
| Tally.StepSum | src/components/Dashboard/Dashboard.jsx:133-136 | one step adds the element's weight to the grand total |
| Tally.Accumulate | src/components/Dashboard/Dashboard.jsx:111-117 | the loop over the rows computes the same keys and totals as the `reduce` |
| Search.SearchBy | src/components/Service/ExternalPartsDetails.jsx:188-194 | the search keeps, in order, exactly the tasks with some field that includes the lowered term |
| Search.EmptyTermKeepsAll | src/components/Service/ExternalPartsDetails.jsx:188-194 | an empty search term keeps every task |
| MakePayment.MapRow | src/components/MakePayment/MakePayment.jsx:78-127 | the task's fields are the row's cells (task no. col 1, actual 4 col 44, …); payment type is `row[46]` falling back to `row[25]`, to-be-paid `row[47]` falling back to `row[36]` |
| MakePayment.MapTasksAsWritten | src/components/MakePayment/MakePayment.jsx:76-80 | as written: data row `6 + i` is given row number `i + 6` |
| MakePayment.MapTasks | src/components/MakePayment/MakePayment.jsx:76-80 | corrected: data row `6 + i` gets row number `i + 7` |
| MakePayment.RowIndexAddressesOwnRow | src/components/MakePayment/MakePayment.jsx:76-80 | corrected: the task's row number addresses the row it was read from |
| MakePayment.AsWrittenAddressesRowAbove | src/components/MakePayment/MakePayment.jsx:76-80 | as written: the task's row number addresses the row above its own |
| MakePayment.Stages | src/components/MakePayment/MakePayment.jsx:129-136 | pending holds the planned tasks without actual 4, history those with both, each in sheet order, every such task present |
| MakePayment.StagesPartition | src/components/MakePayment/MakePayment.jsx:129-136 | pending, history and the unplanned tasks account for every task exactly once |
| MakePayment.GvizCell | src/components/MakePayment/MakePayment.jsx:160-176 | the cell's value falling back to `""`: the value when present, `""` when the cell or the value is missing |
| MakePayment.MapPayment | src/components/MakePayment/MakePayment.jsx:160-176 | a payment's ten fields are the row's first ten cells, with no bill-match mark |
| MakePayment.MapPayments | src/components/MakePayment/MakePayment.jsx:158-176 | the payments are the rows after the first five, in order |
| MakePayment.Suffixes | src/components/MakePayment/MakePayment.jsx:209-211 | the parsed numbers of the `PN-` ids never outnumber the ids |
| MakePayment.SuffixesSound | src/components/MakePayment/MakePayment.jsx:209-211 | every parsed number is the suffix of some well-formed `PN-` id |
| MakePayment.SuffixesContain | src/components/MakePayment/MakePayment.jsx:209-211 | every well-formed `PN-` id contributes its number |
| MakePayment.Max | src/components/MakePayment/MakePayment.jsx:212 | the first element after the descending sort is a maximum of the list |
| MakePayment.LastPaymentNo | src/components/MakePayment/MakePayment.jsx:208-212 | with no parsed number it is 0; otherwise it is one of the parsed numbers and none exceeds it |
| MakePayment.LastPaymentNoBounds | src/components/MakePayment/MakePayment.jsx:208-212 | no well-formed id carries a number above it |
| MakePayment.ParsePadded | src/components/MakePayment/MakePayment.jsx:210-214 | `parseInt` reads a zero-padded number back as at least that number, and exactly it when non-negative |
| MakePayment.NextPaymentNo | src/components/MakePayment/MakePayment.jsx:214 | the new id is `PN-` followed by at least three characters |
| MakePayment.LastPaymentNoIsMax | src/components/MakePayment/MakePayment.jsx:208-212 | the last number is the suffix of any well-formed id that no other well-formed id exceeds |
| MakePayment.NextPaymentNoFollowsMax | src/components/MakePayment/MakePayment.jsx:208-214 | the new id is `PN-` and the largest suffix plus one, padded to three digits |
| MakePayment.NoPaymentNoYet | src/components/MakePayment/MakePayment.jsx:209-214 | when no id is a parsable `PN-` id the new id is `PN-001` |
| MakePayment.NextPaymentNoAfterMixed | src/components/MakePayment/MakePayment.jsx:208-214 | after `PN-00a`, `PN-xyz`, `PN-00b` (a up to b, b below 9) the new id is `PN-00` and b + 1 |
| MakePayment.NextPaymentNoExample | src/components/MakePayment/MakePayment.jsx:208-214 | after `PN-001`, `PN-xyz`, `PN-007` the new id is `PN-008` |
| MakePayment.NextPaymentNoExceeds | src/components/MakePayment/MakePayment.jsx:208-214 | the new id is well formed and its number exceeds that of every existing `PN-` id |
| MakePayment.FirstPaymentNo | src/components/MakePayment/MakePayment.jsx:212-214 | with no payments the first id is `PN-001` |
| MakePayment.NextPaymentNoDigit | src/components/MakePayment/MakePayment.jsx:214 | after last number `d - 1` (d from 1 to 9) the id is `PN-00d` |
| MakePayment.PaymentNoAfterDigit | src/components/MakePayment/MakePayment.jsx:214 | the padded id of a one-digit successor is `PN-00` and that digit |
| MakePayment.SkipsNonPaymentNo | src/components/MakePayment/MakePayment.jsx:209-211 | an id that is not a parsable `PN-` id, wherever it sits, does not change the allocation |
| MakePayment.SuffixesSkip | src/components/MakePayment/MakePayment.jsx:209-211 | such an id does not change the parsed numbers |
| MakePayment.UnparsableSuffix | src/components/MakePayment/MakePayment.jsx:211 | `PN-xyz` is skipped as NaN |
| MakePayment.AllocationAdvances | src/components/MakePayment/MakePayment.jsx:208-290 | after the new payment is added to the store, the next allocation gives a strictly larger number |
| MakePayment.PaymentRowData | src/components/MakePayment/MakePayment.jsx:218-229 | the inserted row: ten cells, date, payment no., task no., vendor, payment type and amount in their columns |
| MakePayment.NewPayment | src/components/MakePayment/MakePayment.jsx:276-288 | the stored payment carries the new id, the task's number and bill match "No" |
| MakePayment.PaymentRowReadsBack | src/components/MakePayment/MakePayment.jsx:218-229 | reading the inserted row back as a payment gives the stored payment without its bill-match mark |
| MakePayment.Updates | src/components/MakePayment/MakePayment.jsx:238-242 | three writes to distinct valid columns, the first the actual 4 date |
| MakePayment.Succeeded | src/components/MakePayment/MakePayment.jsx:268-272 | success iff the insert and every update succeeded |
| MakePayment.SubmitMovesTaskToHistory | src/components/MakePayment/MakePayment.jsx:238-272 | corrected: once the actual 4 write succeeds, the task reads back with that date and is in history, not pending |
| MakePayment.SubmitRecordsPaymentType | src/components/MakePayment/MakePayment.jsx:238-242 | once the payment type write succeeds, the task reads back with the chosen type |
| MakePayment.SubmitRecordsAmount | src/components/MakePayment/MakePayment.jsx:238-242 | once the amount write succeeds, the task reads back with the entered amount |
| MakePayment.AsWrittenSubmitMissesTask | src/components/MakePayment/MakePayment.jsx:76-80 | as written: on a concrete sheet the first task's date lands on the header row and the task stays pending |
| MakePayment.PaymentNumbers | src/components/MakePayment/MakePayment.jsx:208-210 | the payment ids of the store, in order |
| MakePayment.PaymentDesk.constructor | src/components/MakePayment/MakePayment.jsx:19-33 | the two sheets and the store as given, both tabs empty |
| MakePayment.PaymentDesk.FetchAllTasks | src/components/MakePayment/MakePayment.jsx:65-145 | pending and history are the stages of the sheet's tasks, numbered as the code numbers them (`i + 6`, one row too low); sheets and store unchanged |
| MakePayment.PaymentDesk.Submit | src/components/MakePayment/MakePayment.jsx:194-298 | no selection: nothing changes. Otherwise: next payment no. allocated; row inserted if accepted; accepted updates applied; store and history grow iff all succeeded |
| MakePayment.PaymentDesk.Record | src/components/MakePayment/MakePayment.jsx:245-290 | the writes and store update of a submit for a given date and payment number |
| SentMachine.MapRow | src/components/SentMachine/SentMachine.jsx:85-123 | the task's fields are the row's cells (planned col 16, actual col 17, payment type col 25, how much col 26, …) |
| SentMachine.MapTasks | src/components/SentMachine/SentMachine.jsx:83-123 | data row `5 + i` gets row number `i + 6` |
| SentMachine.RowIndexAddressesOwnRow | src/components/SentMachine/SentMachine.jsx:83-93 | the task's row number addresses the row it was read from |
| SentMachine.Stages | src/components/SentMachine/SentMachine.jsx:128-136 | pending holds the tasks without an actual date, history the planned ones with it, in order, none lost |
| SentMachine.StagesPartition | src/components/SentMachine/SentMachine.jsx:128-136 | pending, history and the unlisted tasks account for every task exactly once |
| SentMachine.HowMuch | src/components/SentMachine/SentMachine.jsx:230 | the advance is written only for payment type "Advance", otherwise `""` |
| SentMachine.ImageUrl | src/components/SentMachine/SentMachine.jsx:149-199 | no file gives `""`; a successful upload with a URL gives that URL; every failure gives no URL (the submit stalls) |
| SentMachine.Updates | src/components/SentMachine/SentMachine.jsx:221-231 | nine writes to distinct columns 18 and 20–27 with the date, vendor, image URL, payment type and advance in place |
| SentMachine.DelayNeverWritten | src/components/SentMachine/SentMachine.jsx:221-231 | column 19 (the delay) is never written |
| SentMachine.SubmitLeavesPending | src/components/SentMachine/SentMachine.jsx:221-266 | once the actual date write succeeds, the task reads back with that date, leaves pending, and enters history iff it was planned |
| SentMachine.DispatchCells | src/components/SentMachine/SentMachine.jsx:221-258 | the actual cell holds the date and the planned cell is untouched |
| SentMachine.SubmitKeepsDelay | src/components/SentMachine/SentMachine.jsx:221-258 | the delay column keeps its value whatever the responses |
| SentMachine.SentDesk.constructor | src/components/SentMachine/SentMachine.jsx:20-23 | the sheet as given, both tabs empty |
| SentMachine.SentDesk.FetchAllTasks | src/components/SentMachine/SentMachine.jsx:69-137 | the tabs are the stages of the sheet's tasks |
| SentMachine.SentDesk.Submit | src/components/SentMachine/SentMachine.jsx:201-278 | a stalled upload changes nothing; otherwise the accepted writes are applied; all succeeded: tabs re-fetched; else the first failure's text |
| CheckMachine.MapRow | src/components/CheckMachine/CheckMachine.jsx:73-117 | the task's fields are the row's cells (how much col 26, planned 1 col 27, actual 1 col 28, total col 35, …) |
| CheckMachine.MapTasks | src/components/CheckMachine/CheckMachine.jsx:71-117 | data row `5 + i` gets row number `i + 6` |
| CheckMachine.RowIndexAddressesOwnRow | src/components/CheckMachine/CheckMachine.jsx:71-78 | the task's row number addresses the row it was read from |
| CheckMachine.Stages | src/components/CheckMachine/CheckMachine.jsx:121-130 | pending: planned without actual 1; history: both; in order, none lost |
| CheckMachine.StagesPartition | src/components/CheckMachine/CheckMachine.jsx:121-130 | pending, history and the unplanned tasks account for every task exactly once |
| CheckMachine.Remaining | src/components/CheckMachine/CheckMachine.jsx:214-220 | an amount exists iff the total is given, both parse and the advance does not exceed the total; it is their non-negative difference |
| CheckMachine.ToBePaid | src/components/CheckMachine/CheckMachine.jsx:214-220 | the same stated on the texts: `parseFloat(total) - parseFloat(howMuch)` when both parse and it is not negative |
| CheckMachine.ParseFloatEmpty | src/components/CheckMachine/CheckMachine.jsx:216 | `parseFloat("")` is NaN |
| CheckMachine.NoAdvanceNoAmount | src/components/CheckMachine/CheckMachine.jsx:215-219 | with an empty advance no amount is computed |
| CheckMachine.NoTotalNoAmount | src/components/CheckMachine/CheckMachine.jsx:215 | with an empty total no amount is computed |
| CheckMachine.WholeAmounts | src/components/CheckMachine/CheckMachine.jsx:214-220 | for whole numbers: the difference when the advance is at most the total, none otherwise |
| CheckMachine.WholeAmountText | src/components/CheckMachine/CheckMachine.jsx:214-230 | for whole numbers the written amount is the decimal text of the difference |
| CheckMachine.ToBePaidText | src/components/CheckMachine/CheckMachine.jsx:214-230 | the written amount is empty exactly when none was computed |
| CheckMachine.BillImageUrl | src/components/CheckMachine/CheckMachine.jsx:143-196 | only a reader error yields no URL; a failed or empty upload yields `""`; a success yields its URL |
| CheckMachine.Updates | src/components/CheckMachine/CheckMachine.jsx:222-231 | eight writes to distinct columns 29 and 31–37, with date, transporter, bill image and amount in place |
| CheckMachine.UpdatesSkip | src/components/CheckMachine/CheckMachine.jsx:222-231 | columns 28 (planned 1) and 30 are never written |
| CheckMachine.CheckCells | src/components/CheckMachine/CheckMachine.jsx:222-253 | the actual 1 cell holds the date and the planned 1 cell is untouched |
| CheckMachine.SubmitMovesToHistory | src/components/CheckMachine/CheckMachine.jsx:222-266 | once the date write succeeds, a pending task reads back with that date and is in history |
| CheckMachine.Patched | src/components/CheckMachine/CheckMachine.jsx:256-262 | the store patch: tasks with the number get the date and transporter, the others are unchanged |
| CheckMachine.PatchedLeavesPending | src/components/CheckMachine/CheckMachine.jsx:256-262 | a patched task leaves pending and is in history iff planned; other tasks keep their stage |
| CheckMachine.CheckDesk.constructor | src/components/CheckMachine/CheckMachine.jsx:20-33 | the sheet as given, store and tabs empty |
| CheckMachine.CheckDesk.FetchAllTasks | src/components/CheckMachine/CheckMachine.jsx:59-135 | the store holds the sheet's tasks and the tabs are their stages |
| CheckMachine.CheckDesk.Submit | src/components/CheckMachine/CheckMachine.jsx:188-275 | a reader error aborts with no change; otherwise the accepted writes are applied. All succeeded: store and both tabs re-fetched from the new sheet. Else the first failure's text, with store and tabs unchanged |
| CheckMachine.CheckDesk.Record | src/components/CheckMachine/CheckMachine.jsx:222-269 | the writes and store patch of a submit once the URL and amount are known |
| ExternalParts.MapRow | src/components/Service/ExternalPartsDetails.jsx:48-67 | the task's fields are the row's cells (service no. col 1, external actual col 14, parts col 16, …) |
| ExternalParts.MapTasks | src/components/Service/ExternalPartsDetails.jsx:46-67 | data row `6 + i` gets row number `i + 7` |
| ExternalParts.RowIndexAddressesOwnRow | src/components/Service/ExternalPartsDetails.jsx:46-49 | the task's row number addresses the row it was read from |
| ExternalParts.Stages | src/components/Service/ExternalPartsDetails.jsx:184-185 | pending: no external actual; history: with it; in order, none lost |
| ExternalParts.StagesPartition | src/components/Service/ExternalPartsDetails.jsx:184-185 | pending and history split the tasks |
| ExternalParts.FilterTasks | src/components/Service/ExternalPartsDetails.jsx:188-194 | exactly the tasks with a searched field including the term, in order |
| ExternalParts.FilterEmptyTerm | src/components/Service/ExternalPartsDetails.jsx:188-194 | an empty term keeps every task |
| ExternalParts.UploadUrl | src/components/Service/ExternalPartsDetails.jsx:83-113 | the answer's `fileUrl` falling back to `""` whatever the success flag, `""` for no file, reader error or network error |
| ExternalParts.Updates | src/components/Service/ExternalPartsDetails.jsx:141-147 | five writes: timestamp col 15, parts 17, amount 18, bill copy 19, remarks 20 |
| ExternalParts.Written | src/components/Service/ExternalPartsDetails.jsx:149-168 | the writes that reach the sheet are the prefix before the first refusal |
| ExternalParts.SubmitMovesToHistory | src/components/Service/ExternalPartsDetails.jsx:141-185 | once the timestamp write succeeds, the task reads back with it and is in history |
| ExternalParts.ActualCell | src/components/Service/ExternalPartsDetails.jsx:141-168 | the external actual cell holds the timestamp |
| ExternalParts.FirstFailureWritesNothing | src/components/Service/ExternalPartsDetails.jsx:149-168 | a refused first write leaves the sheet as it was |
| ExternalParts.SubmitStopsAtFailure | src/components/Service/ExternalPartsDetails.jsx:149-168 | each column holds its new value iff it came before the first refusal |
| ExternalParts.PartsDesk.constructor | src/components/Service/ExternalPartsDetails.jsx:15-34 | the sheet as given, no tasks, no selection, initial form |
| ExternalParts.PartsDesk.FetchTasks | src/components/Service/ExternalPartsDetails.jsx:37-70 | the tasks are read from the sheet |
| ExternalParts.PartsDesk.HandleAction | src/components/Service/ExternalPartsDetails.jsx:115-119 | selects the task and resets the form |
| ExternalParts.PartsDesk.Submit | src/components/Service/ExternalPartsDetails.jsx:130-181 | no selection: nothing; otherwise the written prefix is applied; all five: re-fetch, clear selection and form; else state kept |
| ExternalParts.PartsDesk.Write | src/components/Service/ExternalPartsDetails.jsx:149-176 | the sequential loop and what follows it, for a given row, timestamp and URL |
| PaymentApproval.MapRow | src/components/Service/PaymentApproval.jsx:39-61 | the task's fields are the row's cells (approval col 20, tally entry col 21, status col 23, …) |
| PaymentApproval.MapTasks | src/components/Service/PaymentApproval.jsx:37-61 | data row `6 + i` gets row number `i + 7` |
| PaymentApproval.RowIndexAddressesOwnRow | src/components/Service/PaymentApproval.jsx:37-40 | the task's row number addresses the row it was read from |
| PaymentApproval.Stages | src/components/Service/PaymentApproval.jsx:138-139 | pending: approval without tally entry; history: both; in order, none lost |
| PaymentApproval.StagesPartition | src/components/Service/PaymentApproval.jsx:138-139 | pending, history and the unlisted tasks account for every task exactly once |
| PaymentApproval.FilterTasks | src/components/Service/PaymentApproval.jsx:142-147 | exactly the tasks with a searched field including the term, in order |
| PaymentApproval.FilterEmptyTerm | src/components/Service/PaymentApproval.jsx:142-147 | an empty term keeps every task |
| PaymentApproval.ApprovalMovesToHistory | src/components/Service/PaymentApproval.jsx:95-139 | the timestamp write makes the task leave pending, and it is in history iff it had an approval |
| PaymentApproval.StatusRecorded | src/components/Service/PaymentApproval.jsx:95-122 | after both writes the task reads back with the timestamp and the chosen status |
| PaymentApproval.ApprovalDesk.constructor | src/components/Service/PaymentApproval.jsx:15-24 | the sheet as given, no tasks, no selection, no status |
| PaymentApproval.ApprovalDesk.FetchTasks | src/components/Service/PaymentApproval.jsx:28-70 | the tasks are read from the sheet |
| PaymentApproval.ApprovalDesk.OpenModal | src/components/Service/PaymentApproval.jsx:76-80 | selects the task and clears the status |
| PaymentApproval.ApprovalDesk.ChooseStatus | src/components/Service/PaymentApproval.jsx:82-87 | records the chosen status |
| PaymentApproval.ApprovalDesk.Submit | src/components/Service/PaymentApproval.jsx:82-135 | no selection or no status: nothing; otherwise timestamp then status, stopping at the first refusal |
| PaymentApproval.ApprovalDesk.Write | src/components/Service/PaymentApproval.jsx:95-134 | the two writes and what follows them |
| ServiceIndent.MapRow | src/components/Service/ServiceIndent.jsx:57-73 | the task's fields are the row's cells (service no. col 1, checker col 2, quotation col 9, …) |
| ServiceIndent.MapTasks | src/components/Service/ServiceIndent.jsx:57-73 | one task per row after the first six, in order |
| ServiceIndent.MapTasksOfDataRows | src/components/Service/ServiceIndent.jsx:58 | the tasks depend only on the data rows |
| ServiceIndent.FilterTasks | src/components/Service/ServiceIndent.jsx:190-196 | exactly the tasks with a searched field including the term, in order |
| ServiceIndent.FilterEmptyTerm | src/components/Service/ServiceIndent.jsx:190-196 | an empty term keeps every task |
| ServiceIndent.UploadedUrl | src/components/Service/ServiceIndent.jsx:98-128 | non-empty iff a file was given and the server answered with a URL, which it then is |
| ServiceIndent.Requested | src/components/Service/ServiceIndent.jsx:98-128 | one upload request iff a file was given and the reader succeeded |
| ServiceIndent.QuotationImageUrl | src/components/Service/ServiceIndent.jsx:142 | the quotation image URL is kept iff the quotation answer is "Yes" |
| ServiceIndent.RowData | src/components/Service/ServiceIndent.jsx:144-158 | thirteen cells: timestamp, blank service no., form fields and URLs in their columns |
| ServiceIndent.RowDataReadsBack | src/components/Service/ServiceIndent.jsx:144-158 | reading the inserted row back gives the submitted indent |
| ServiceIndent.InsertAppendsTask | src/components/Service/ServiceIndent.jsx:144-177 | appending the row appends exactly that indent to the task list |
| ServiceIndent.RejectionText | src/components/Service/ServiceIndent.jsx:180 | the server's message, falling back to "Submission failed" when it is missing or empty |
| ServiceIndent.IndentDesk.constructor | src/components/Service/ServiceIndent.jsx:16-41 | the sheet as given, nothing uploaded, no tasks, initial form, modal closed |
| ServiceIndent.IndentDesk.FetchTasks | src/components/Service/ServiceIndent.jsx:49-82 | the tasks are read from the sheet |
| ServiceIndent.IndentDesk.UploadImage | src/components/Service/ServiceIndent.jsx:98-128 | returns the uploaded URL and records the request it sent, if any |
| ServiceIndent.IndentDesk.Submit | src/components/Service/ServiceIndent.jsx:130-188 | both uploads run; the row with the padded timestamp is inserted; success appends, resets, closes and re-fetches; failure keeps the form |
| ServiceIndent.IndentDesk.Insert | src/components/Service/ServiceIndent.jsx:160-184 | the insert and what follows it |
| ServiceIndent.SubmittedIndentListed | src/components/Service/ServiceIndent.jsx:142-178 | after a successful submit the new indent is listed last, service no. blank, quotation image only for "Yes" |
| Dashboard.BillIgnoresNonNumeric | src/components/Dashboard/Dashboard.jsx:79-85 | stripping the bill first does not change its amount |
| Dashboard.BillOfDecoratedDigits | src/components/Dashboard/Dashboard.jsx:79-85 | a whole amount with non-numeric decoration around it counts as that amount |
| Dashboard.NothingNumeric | src/components/Dashboard/Dashboard.jsx:80 | a bill without numeric characters strips to nothing |
| Dashboard.KeepRow | src/components/Dashboard/Dashboard.jsx:75 | a data row counts exactly when its cell 1 (task number) or cell 3 (machine name) is present and non-empty, so it has at least two cells |
| Dashboard.BillAmount | src/components/Dashboard/Dashboard.jsx:79-85 | an empty bill cell counts as 0, and so does any bill without a single digit (NaN becomes 0) |
| Dashboard.CleanedWithoutDigits | src/components/Dashboard/Dashboard.jsx:80-85 | a bill without digits still has none after cleaning and parses to NaN |
| Dashboard.MapRow | src/components/Dashboard/Dashboard.jsx:76-90 | every text field of the summary is trimmed; the bill is the amount of cell 35; a row too short to have cell 46 has an empty status and is pending; one too short to have cell 44 is not completed |
| Dashboard.Summaries | src/components/Dashboard/Dashboard.jsx:71-90 | at most one summary per data row |
| Dashboard.SummariesFromKeptRows | src/components/Dashboard/Dashboard.jsx:71-90 | every summary is the summary of a data row past the six header rows that counts |
| Dashboard.KeptRowsSummarised | src/components/Dashboard/Dashboard.jsx:71-90 | every data row past the six header rows that counts is summarised |
| Dashboard.IsPending | src/components/Dashboard/Dashboard.jsx:94-96 | an empty status is pending; a pending status is empty or seven letters starting with p or P; "Pending" and "PENDING" are pending |
| Dashboard.IsCompleted | src/components/Dashboard/Dashboard.jsx:100-102 | completed exactly when the trimmed actual text has at least one character |
| Dashboard.CompletedOfRow | src/components/Dashboard/Dashboard.jsx:100-102 | a summarised row is completed exactly when its cell 44 is not all white space |
| Dashboard.TotalBill | src/components/Dashboard/Dashboard.jsx:105-107 | the total of no tasks is 0; with no negative bill, the total is at least 0 and at least every single bill |
| Dashboard.DepartmentKey | src/components/Dashboard/Dashboard.jsx:112-114 | a task is counted under a department exactly when it has one, and then under that non-empty department |
| Dashboard.PaymentKey | src/components/Dashboard/Dashboard.jsx:129-132 | every task gets a type that is neither empty nor "undefined"; a present type is kept; "Unknown" collects the empty, "undefined" and literal "Unknown" types |
| Dashboard.PendingIgnoresCase | src/components/Dashboard/Dashboard.jsx:94-96 | pending depends on the status only up to letter case |
| Dashboard.DepartmentCount | src/components/Dashboard/Dashboard.jsx:111-124 | each department's count is the number of tasks in that department |
| Dashboard.DepartmentCounts | src/components/Dashboard/Dashboard.jsx:111-124 | the keys are exactly the non-empty departments, and the counts add up to the tasks with one |
| Dashboard.KeyedCount | src/components/Dashboard/Dashboard.jsx:111-117 | counting per department adds up to the number of tasks with a department |
| Dashboard.PaymentTotals | src/components/Dashboard/Dashboard.jsx:128-138 | no empty or "undefined" key, and the per-type totals add up to the total bill |
| Dashboard.KeyedBill | src/components/Dashboard/Dashboard.jsx:128-138 | summing per payment type adds up to the total bill |
| Dashboard.PaymentData | src/components/Dashboard/Dashboard.jsx:140-145 | every entry is a key with its total; "Unknown" only with a positive total; every other key kept |
| Dashboard.TopRepairs | src/components/Dashboard/Dashboard.jsx:149-152 | at most five tasks, each with a vendor and each taken from the tasks |
| Dashboard.TopRepairsShape | src/components/Dashboard/Dashboard.jsx:149-152 | at most five tasks, all with a vendor, sorted by bill descending, drawn from the vendor tasks |
| Dashboard.TopRepairsBeatRest | src/components/Dashboard/Dashboard.jsx:149-152 | a vendor task left out costs no more than any task kept |
| Dashboard.VendorCosts | src/components/Dashboard/Dashboard.jsx:153-156 | one (vendor, cost) pair per top repair, in order |
| Dashboard.CountByDepartment | src/components/Dashboard/Dashboard.jsx:111-125 | the department chart data computed by a loop equals its specification |
| Dashboard.TotalByPaymentType | src/components/Dashboard/Dashboard.jsx:128-146 | the payment chart data computed by a loop equals its specification |
| Dashboard.Board.constructor | src/components/Dashboard/Dashboard.jsx:41-47 | every tile and chart empty or zero |
| Dashboard.Board.FetchAllTasks | src/components/Dashboard/Dashboard.jsx:54-164 | an unsuccessful reply changes nothing; otherwise tasks, pending, completed, total bill and the three charts are set from the rows |
| Dashboard.Board.PublishCounts | src/components/Dashboard/Dashboard.jsx:92-108 | sets the tasks, the two filtered lists and the total bill, charts untouched |
| Dashboard.Board.PublishCharts | src/components/Dashboard/Dashboard.jsx:119-157 | sets the three charts, the other fields untouched |
| Auth.Shown | src/services/authService.js:40 | `String(row[i])`: the cell, or "undefined" past the row's end |
| Auth.Matches | src/services/authService.js:39-41 | for a row with two cells, a match is trimmed username and password cells equal to the input; only input without white space at either end can match |
| Auth.EmptyRowMatches | src/services/authService.js:39-41 | an empty row matches exactly the username and password "undefined", since `String(undefined)` is "undefined" |
| Auth.ShownPastEndTrims | src/services/authService.js:40 | a missing cell reads "undefined", also after `trim` |
| Auth.FindFrom | src/services/authService.js:39-41 | `find`: the first index that matches, or none iff nothing matches |
| Auth.Trims | src/services/authService.js:50 | `map(item => item.trim())`: each part trimmed, same length |
| Auth.AccessList | src/services/authService.js:47-51 | no pages for an absent or empty cell 3; otherwise at least one entry, each without white space at either end |
| Auth.UserOf | src/services/authService.js:43-58 | id and name are the username; the role is column 2 when present; the page access is the row's access list |
| Auth.Authenticate | src/services/authService.js:5-66 | the thrown error, "Network response was not ok", "No user data found", or: a user iff some row after the header matches trimmed username and password, built from the first such row; else "Invalid credentials" |
| Auth.HeaderNeverMatched | src/services/authService.js:38-41 | the header row is never consulted |
| Auth.PaddedInputRejected | src/services/authService.js:39-41 | a username or password with whitespace at either end never signs in |
| Auth.AccessListShape | src/services/authService.js:47-51 | the access list has one entry more than the commas, each trimmed and comma-free |
| Auth.AccessListJoins | src/services/authService.js:47-51 | for an access cell with no spaces around the commas, the list joins back to the cell |
| Auth.TrimsOfTrimmed | src/services/authService.js:50 | trimming already trimmed parts changes nothing |

## Left out

- Task fields no modelled operation reads or writes. These include serial numbers, doer names, departments on the task screens and image links shown only in tables. They are display-only.
- Rendering, modals' layout, icons, toasts and `console` output: presentation only. Toast texts appear only where the model returns them as an outcome.
- Sheet.Cell: a cell is modelled as its text. The sheet can also hold numbers and booleans, and `row[i] || ""` turns a numeric `0` or `false` into `""`, while the text `"0"` stays. The model does not tell such falsy values apart from their text. For example, an advance stored as the number 0 reads as `""` at CheckMachine.jsx:106, so no to-be-paid amount is written; the model reads `"0"` and keeps the whole total. The same holds for `String(...)` in authService.js and Dashboard.jsx and for `toLocaleString` at CheckMachine.jsx:426.
- The web script and the sheets behind it are not part of this model. Every response is a parameter (`Response`, `Reply`, `Upload`). A sheet is a value.
- Network timing and interleaving: `Promise.all` is modelled by the set of writes whose responses succeeded. Two screens writing at once are not modelled.
- Floating point: amounts are exact reals. `parseInt` and `Number` results are exact integers, so the loss of precision above 2^53 is not modelled. This matters for payment-number suffixes and amounts that large.
- Seqs.SortDesc: the order among equal keys is not stated. `Array.prototype.sort` is stable, so vendors with equal bills keep their sheet order in the source.
- Text.ParseFloat: it reads an optional sign, digits and an optional fraction. Exponents (`1e3` reads as 1000 in JavaScript, 1 here) and `Infinity` are not read.
- `toLocaleDateString`/`toLocaleString` with the "en-GB" locale and the Asia/Kolkata zone are not modelled. These dates are parameters (`actualDate`, `actual1Date`, `actual4Date`).
- Text.Lower: letters outside A–Z are not lowered, because the model has no Unicode case tables.
- Text.AmountText: it states the text only for whole non-negative amounts. JavaScript's shortest round-trip formatting of fractions is not modelled.
- Tally.Entries: `Object.entries` orders integer-like keys first in a real object. The model keeps plain insertion order, and inherited `Object.prototype` keys are not modelled.
- MakePayment.PaymentDesk.Submit: the re-fetch of tasks and payments after success is not modelled. Only the optimistic store and history update is.
- ExternalParts.PartsDesk.Submit and PaymentApproval.ApprovalDesk.Submit: a request that throws is modelled as a refused response. The error text shown in the toast is not modelled.
- SentMachine.SentDesk.Submit: a request that throws, or a reply that is not JSON, sends `Promise.all` to the `catch` branch (SentMachine.jsx:272-275). The model treats it as a refused response. Writes the sheet accepted still count, and nothing is re-fetched. The outcome is `PartlyFailed` with the reply's text, not the generic "Something went wrong" alert.
- CheckMachine.CheckDesk.Submit: the same `catch` branch (CheckMachine.jsx:270-273) is modelled the same way, as a refused response with no patch and no re-fetch. The generic error text is not modelled.
- MakePayment.PaymentDesk.Submit: the same `catch` branch (MakePayment.jsx:300-302) is modelled the same way, as a refused response that leaves the store and history unchanged. The generic error text is not modelled.
- SentMachine.ImageUrl: the stall caused by the missing `toast` import is modelled as "no URL, no state change". The never-settling promise and the submit flag left on are not modelled.
- Form plumbing (`handleChange`, `handleInputChange`, file pickers) and the `loading`/`submitting` flags: they only move input into the form value the model takes as a parameter.
- The MakePayment payments read through the Google Visualization endpoint: its JSON wrapping and unwrapping is not part of this model. A payment row is a list of optional cell values.
- Sidebar.jsx and App.jsx routing and access checks are not part of this model.

## Findings

| source | as written | input that shows it | evidently intended | confidence | as-written member | corrected member |
|---|---|---|---|---|---|---|
| src/components/MakePayment/MakePayment.jsx:76-80 | the data rows are `allRows.slice(6)` but each task gets `rowIndex = index + 6`, so `updateCell` addresses the row above the task (the header row for the first task) | a sheet of six header rows and one pending task row: submitting it writes the date into row 6 and the task stays pending | `rowIndex = index + 7`, as the other screens that slice six rows use | not executed | MakePayment.AsWrittenSubmitMissesTask | MakePayment.SubmitMovesTaskToHistory |

MakePayment.PaymentDesk.FetchAllTasks keeps the row numbers as written (`MapTasksAsWritten`), so the screen's state is the one the code produces. The corrected mapper `MapTasks` is the one the intended property is proved for.
