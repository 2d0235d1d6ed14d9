# Resort finance and front desk, modelled in Dafny

This project models the core rules of a small-resort finance and
front-desk application, written in React/TypeScript. The model lifts those
rules out of the application's event handlers and memoised views and
restates them as pure Dafny functions over `seq<Booking>` and
`seq<Transaction>`. The current instant (`now`, in milliseconds), today's
date, fresh ids and the user's confirmations are passed in as parameters.

The modules follow the program's files:

| module | file | what it models |
|---|---|---|
| `Types` | `types.dfy` | transactions, bookings, guest data, the category and status enumerations (`types.ts`) |
| `Strings` | `strings.dfy` | what the code uses of JavaScript strings: `includes`, `localeCompare` as code-point order, ASCII case mapping, `trim`, `join`, decimal printing and `parseFloat` on signed whole numbers with an exponent |
| `Sorting` | `sorting.dfy` | a stable insertion sort, used for `Array.prototype.sort`, `Array.prototype.filter`, and order-preserving subsequences |
| `Ledger` | `ledger.dfy` | `addTransaction`, `deleteTransaction`, `toggleReconcile`, the income and expense totals and the category pie (`App.tsx`) |
| `Rooms` | `rooms.dfy` | the room catalogue, `getRoomTypeByNumber`, `calculateNights`, `calculateTotalAmount`, `calculateDeposit` (`config/rooms.ts`) |
| `Bookings` | `bookings.dfy` | the booking store: the lock-expiry sweep, quick-book locks, check-in reconciliation and the next-arrival and next-departure insights (`App.tsx`) |
| `App` | `app.dfy` | the application state and the handlers that touch both ledger and bookings: check-in, quick booking, the sweep tick and clear-all |
| `OtaImport` | `ota_import.dfy` | the bulk import: `parseDate`, `parseBookingRow` and the row partition with its error report (`components/OTAImport.tsx`) |
| `Pms` | `pms.dfy` | payment correlation, the quick payment entry, the lock countdown and the status badge and payment label (`components/PMSIntegration.tsx`) |
| `SystemReport` | `system_report.dfy` | the pending-approval widget (`components/SystemReport.tsx`) |
| `TransactionList` | `transaction_list.dfy` | the search and type filter (`components/TransactionList.tsx`) |
| `OcrUpload` | `ocr_upload.dfy` | receipt upload: category fallback and the per-file loop (`components/OCRUpload.tsx`) |
| `ManualEntry` | `manual_entry.dfy` | the manual entry form: category lists, type switch and submit guard (`components/ManualEntry.tsx`) |
| `FrontDesk` | `front_desk.dfy` | the check-in and quick-book guards, their payloads and the form reset (`components/FrontDesk.tsx`) |
| `SlipScanner` | `slip_scanner.dfy` | the slip save guard and the entry it builds, and the reset (`components/SlipScanner.tsx`) |
| `SlipApi` | `slip_api.dfy` | the slip-scanning endpoint: dispatch, data-URL strip, reply cleaning, amount validation, defaults (`api/scan-slip.js`) |
| `ExportCsv` | `export_csv.dfy` | the CSV exports of ledger and bookings, with a record reader as their inverse (`utils/exportCSV.ts`) |

Representation choices:

- Money is an `int`.
- JavaScript's `NaN` is the `NaN` case of `Types.Num`. The code produces it from `parseFloat` of a non-number and from date arithmetic on an invalid date.
- Instants are `int` milliseconds. `lockedUntil` is `Option<int>`, with `None` for an absent field. The ISO timestamp string is taken to stand for its instant.
- Calendar dates are `YYYY-MM-DD` strings. Comparisons and `localeCompare` use code-point order, which agrees with time order on such strings.

Behaviour of the code that the model keeps as written:

- The lock sweep demotes an expired lock to `pending` and keeps its `lockedUntil`: the spread at App.tsx:77 replaces only the status.
- The sweep's filter (App.tsx:82) removes every `pending` booking whose `lockedUntil` has passed, whether this sweep demoted it or it was pending before.
- A `locked` booking without `lockedUntil` never expires (App.tsx:75).
- Nothing ties `lockedUntil` to the `locked` status. A demoted booking keeps the field, so the model allows it on any booking.
- An in-place check-in keeps the booking's `totalAmount` and clears `lockedUntil` (App.tsx:168-176).

## Model

| member | source | states |
|---|---|---|
| Types.AllCategoriesComplete | types.ts:13-30 | the category enumeration has exactly thirteen members, each listed once |
| Types.CategoryLabelInjective | types.ts:13-30 | distinct categories carry distinct string values, so a category is recovered from its string |
| Strings.ContainsIff | components/PMSIntegration.tsx:35 | `includes` holds iff the substring occurs at some position |
| Strings.ContainsInfix | components/PMSIntegration.tsx:44 | a string built as prefix + s + suffix includes s |
| Strings.LexLeTotal | App.tsx:220 | code-point order relates any two strings |
| Strings.LexLeTransitive | App.tsx:220 | code-point order is transitive |
| Strings.LexLeAntisymmetric | App.tsx:220 | two strings ordered both ways are equal |
| Strings.LowerUpper | components/TransactionList.tsx:21-24 | lower-casing an upper-cased term gives the lower-cased term |
| Strings.TrimPadded | components/OTAImport.tsx:85 | trimming a value padded with single spaces gives the value |
| Strings.NatToStringRoundTrip | components/FrontDesk.tsx:81 | reading back the decimal text of n gives n |
| Strings.ParseFloatRoundTrip | components/ManualEntry.tsx:44 | `parseFloat` of the decimal text of any whole number, negative ones included, gives that number |
| Strings.ParseFloat | components/FrontDesk.tsx:81 | NaN exactly when the text, after leading white space, starts with neither a digit nor a sign and a digit; a leading minus never reads as a positive value and its absence never as a negative one |
| Strings.ParseFloatDigits | components/FrontDesk.tsx:101 | digits followed by a non-digit read as their value scaled by the exponent the rest of the text gives |
| Strings.ParseFloatExponent | components/ManualEntry.tsx:44 | `m` followed by `e` and `k` reads as m times ten to the k |
| Strings.ParseFloatSkipsSpace | components/ManualEntry.tsx:44 | a leading white-space character does not change the reading |
| Sorting.Sort | components/SystemReport.tsx:14 | the sort returns a sorted permutation of its input |
| Sorting.Filter | components/SystemReport.tsx:13 | the kept elements are exactly those that pass, each as often as in the input, in input order |
| Sorting.SortStable | components/SystemReport.tsx:14 | the sort is stable: elements with equal keys keep their input order |
| Sorting.FilterPrefix | components/SystemReport.tsx:15 | filtering a prefix gives a prefix of the filtered whole |
| Ledger.AddTransaction | App.tsx:102-109 | exactly one record is prepended with the fresh id; it is reconciled iff auto-reconcile is on or it came reconciled; the old records follow unchanged |
| Ledger.WithoutId | App.tsx:134 | the kept records are exactly those with another id, each as often as before, in order; the length drops by the number of matches |
| Ledger.DeleteTransaction | App.tsx:132-136 | without confirmation the ledger is unchanged; with it every record with that id goes and every other record stays, as often as before and in order |
| Ledger.ToggleReconcile | App.tsx:138-140 | only the flag of records with that id flips; every other field and record is unchanged |
| Ledger.ToggleTwice | App.tsx:138-140 | toggling the same id twice restores the ledger |
| Ledger.ToggleAbsent | App.tsx:138-140 | toggling an id no record carries changes nothing |
| Ledger.ComputeTotals | App.tsx:227-231 | income is the sum of the income entries, expense the sum of the expense entries, and net profit their difference; together they sum all amounts |
| Ledger.TotalsSplit | App.tsx:228-229 | every record counts in exactly one of the two totals |
| Ledger.AddTransactionTotals | App.tsx:227-231 | adding a record raises its own type's total by its amount and leaves the other total alone |
| Ledger.ToggleKeepsTotals | App.tsx:138-140 | reconciling or un-reconciling never changes a total |
| Ledger.OfTypeTotal | App.tsx:228-229 | filtering by type and summing gives that type's total |
| Ledger.Accumulate | App.tsx:251-254 | one reduce step adds the amount to exactly its category's slice and creates the slice if missing |
| Ledger.GroupFrom | App.tsx:251-254 | the reduce yields one slice per category used, holding that category's total |
| Ledger.GroupByCategory | App.tsx:250-256 | the groups have distinct names, cover the categories used, hold each category's total and sum to the overall sum |
| Ledger.ValueDescPreorder | App.tsx:257 | ordering slices by descending value is a total preorder |
| Ledger.CategoryPieData | App.tsx:249-258 | the pie is sorted by descending value and is a permutation of the category groups of the selected type; slices of equal value keep the groups' order |
| Ledger.PieSlices | App.tsx:249-258 | each pie slice is its category's total within the type, and the slices sum to that type's total |
| Ledger.ValueOfAt | App.tsx:252 | with distinct names, the slice at any position is the one looked up by its name |
| Rooms.FindType | config/rooms.ts:47-51 | the first type whose room list holds the room, or none exactly when no type holds it |
| Rooms.GetRoomTypeByNumber | config/rooms.ts:47-51 | a found type is in the catalogue and lists the room; nothing is found iff no type lists it |
| Rooms.CatalogDisjoint | config/rooms.ts:11-44 | no room number belongs to two room types |
| Rooms.LookupUnique | config/rooms.ts:11-51 | any type listing a room is the one the lookup returns |
| Rooms.CatalogPrices | config/rooms.ts:11-44 | Standard, Deluxe, Suite and Villa rooms cost 1500, 2500, 4000 and 6000 a night |
| Rooms.CatalogSize | config/rooms.ts:16-40 | the catalogue lists fourteen rooms |
| Rooms.UnknownRoom | config/rooms.ts:47-51 | lookup is exact: a room number with another first character is unknown |
| Rooms.ParseIsoDate | config/rooms.ts:55-56 | a parsed date-only string has the ISO shape and is a valid calendar date |
| Rooms.CeilDiv | config/rooms.ts:58 | the rounded-up quotient is the least multiple bound |
| Rooms.CalculateNights | config/rooms.ts:54-60 | the night count is NaN iff a date does not parse, and is never negative |
| Rooms.NightsSymmetric | config/rooms.ts:54-60 | swapping the dates does not change the count, and for dates it is the absolute day difference |
| Rooms.WholeDays | config/rooms.ts:58 | a whole number of days rounds up to itself |
| Rooms.NightsExample | config/rooms.ts:54-60 | 2025-01-10 to 2025-01-12 is two nights |
| Rooms.CalculateTotalAmount | config/rooms.ts:63-69 | an unknown room costs 0; otherwise the nightly price times the nights, NaN when the nights are |
| Rooms.TotalExample | config/rooms.ts:63-69 | room 101 for two nights costs 3000, and an unknown room costs 0 |
| Rooms.CalculateDeposit | config/rooms.ts:72-74 | the deposit is 30% rounded half up, lies between 0 and the total for a non-negative total, and NaN passes through |
| Rooms.DepositExample | config/rooms.ts:72-74 | the deposit on 3000 is 900, and a half unit rounds up |
| Bookings.DemoteAll | App.tsx:74-80 | exactly the locked bookings whose lock has passed turn pending; every other field, `lockedUntil` included, and every other booking stay as they were |
| Bookings.KeepLive | App.tsx:74-84 | the kept bookings are exactly the unexpired ones, each as often as before, in order |
| Bookings.DropDemoted | App.tsx:74-82 | demoting and then filtering removes exactly the expired locked and pending bookings |
| Bookings.SweepSpec | App.tsx:69-88 | the sweep keeps exactly the bookings that are not locked or pending with a passed lock, in order, and returns the very same list when nothing qualifies |
| Bookings.KeepLiveShorter | App.tsx:83 | if nothing was removed, nothing had expired |
| Bookings.KeepAll | App.tsx:84 | with nothing expired the list is returned unchanged |
| Bookings.SweepIdempotent | App.tsx:69-88 | a second sweep at the same instant changes nothing |
| Bookings.SweepLater | App.tsx:69-88 | a sweep followed by a later sweep equals the later sweep alone |
| Bookings.KeepLiveLater | App.tsx:75-82 | filtering at an instant and then at a later one equals filtering at the later one |
| Bookings.SweepKeeps | App.tsx:75-82 | a booking that is not locked or pending, has no lock instant, or whose lock has not passed (strict comparison) survives the sweep |
| Bookings.QuickBook | App.tsx:194-203 | exactly one locked booking is prepended, locked until one hour after now, carrying the request's fields; the others are unchanged and no overlap is checked |
| Bookings.QuickLockLifetime | App.tsx:69-88 | a quick lock survives every sweep within its hour and is gone after the first sweep past it |
| Bookings.FindActive | App.tsx:164 | the index of the first booking active for the room, or -1 iff there is none |
| Bookings.CheckInBookings | App.tsx:163-191 | with an active booking for the room, only the first such booking changes: it keeps its id and amount, becomes checked in with the new dates and guest, its lock cleared, length unchanged; otherwise exactly one new checked-in booking is prepended with the amount and no lock |
| Bookings.CheckInSettlesRoom | App.tsx:163-191 | after a check-in, some checked-in booking for the room has no active booking for that room before it |
| Bookings.FirstMin | App.tsx:218-223 | the first eligible booking of least key, i.e. the head of a stable ascending sort of the eligible ones |
| Bookings.NextArrival | App.tsx:218-220 | defined iff some confirmed, pending or locked booking arrives today or later; then it is the earliest such check-in, ties to the first in list order |
| Bookings.NextDeparture | App.tsx:221-223 | the same over checked-in bookings and check-out dates |
| App.Add | App.tsx:102-109 | adding an entry prepends one record, applies the auto-reconcile rule and leaves bookings and settings alone |
| App.CheckInEntry | App.tsx:151-161 | the check-in entry is reconciled room revenue of the paid amount, dated today, referencing the room, with the guest and customer type attached |
| App.HandleCheckIn | App.tsx:142-192 | a check-in prepends exactly one entry to the ledger and reconciles the bookings |
| App.CheckInRevenue | App.tsx:142-161 | a check-in raises income by exactly the amount and leaves expense unchanged |
| App.HandleQuickBooking | App.tsx:194-203 | a quick booking prepends one lock until one hour later and leaves the ledger alone |
| App.Tick | App.tsx:69-88 | a sweep tick leaves exactly the unexpired bookings, each as often as before and in order, and leaves the ledger alone |
| App.ClearData | App.tsx:206-214 | only a confirmed clear empties both ledger and bookings; otherwise nothing changes |
| App.ClearedDashboard | App.tsx:206-231 | after a clear the totals are zero and there is no next arrival or departure |
| OtaImport.FirstTruthyIndex | components/OTAImport.tsx:79-101 | the first synonym whose cell is truthy, or -1 iff none is |
| OtaImport.FirstTruthy | components/OTAImport.tsx:79-101 | the `a \|\| b \|\| c` chain: the cell of the first synonym whose cell is truthy, or none exactly when every synonym is falsy |
| OtaImport.ParseDate | components/OTAImport.tsx:50-75 | fails exactly on a non-zero serial number the decoder cannot read; otherwise never empty, a falsy value gives today and an ISO-shaped string comes back unchanged |
| OtaImport.TruthyNonEmpty | components/OTAImport.tsx:80-85 | a truthy cell prints as a non-empty string |
| OtaImport.AmountOf | components/OTAImport.tsx:113-118 | the first truthy amount column, otherwise the catalogue total of the stay |
| OtaImport.ParseBookingRow | components/OTAImport.tsx:77-148 | the row throws iff a serial date cannot be decoded; otherwise it is rejected iff it has no guest or its normalised room is empty; an accepted row takes each field from the first truthy synonym with the stated defaults, priced from the catalogue |
| OtaImport.DatesNeverReject | components/OTAImport.tsx:87-105 | a row with a guest and a room is never rejected: it is accepted unless a serial date cannot be decoded, and a missing check-in becomes today |
| OtaImport.ZeroAmountFallsBack | components/OTAImport.tsx:113-119 | an explicit 0 in every amount column falls back to the catalogue total, and the deposit follows it |
| OtaImport.RoomNormalised | components/OTAImport.tsx:80-128 | a room written " v1 " is not rejected, and when the row is accepted it becomes V1 priced as a Villa |
| OtaImport.NormaliseVilla | components/OTAImport.tsx:80-85 | upper-casing and trimming " v1 " gives V1 |
| OtaImport.Labels | components/OTAImport.tsx:176 | one error text per rejected row, in order, each naming the sheet row (index plus two) |
| OtaImport.LabelReadsBack | components/OTAImport.tsx:176 | the sheet row number reads back from the error text of any row index |
| OtaImport.PartitionCount | components/OTAImport.tsx:171-178 | when no row throws, accepted plus rejected rows make up all rows |
| OtaImport.RejectedExactly | components/OTAImport.tsx:171-178 | the rejected indices are exactly the rows the parser finds incomplete, in increasing order |
| OtaImport.AcceptedFromRows | components/OTAImport.tsx:171-178 | every accepted booking is the parse of some row |
| OtaImport.LabelInjective | components/OTAImport.tsx:176 | two rows never share an error label |
| OtaImport.Report | components/OTAImport.tsx:189-193 | no report without errors, a list for one to four errors, only a count from five on |
| OtaImport.PartitionRows | components/OTAImport.tsx:171-178 | the loop stops iff some row throws; otherwise it yields the accepted bookings and the rejected indices, together as many as the rows |
| OtaImport.Outcome | components/OTAImport.tsx:161-193 | an empty sheet and a sheet with no valid booking give no preview; otherwise the bookings with the error report; never a read failure |
| OtaImport.ImportRows | components/OTAImport.tsx:150-198 | the whole import: empty sheet; a read failure carrying the decoder's message iff some row's date cannot be decoded; no valid bookings; or a preview of the accepted bookings with the error report |
| OtaImport.SerialFailureAborts | components/OTAImport.tsx:171-198 | one row whose check-in serial cannot be decoded makes the whole sheet fail, whatever the other rows hold |
| Pms.IsPaidIff | components/PMSIntegration.tsx:34-36 | a booking is paid iff some income entry's description includes its id |
| Pms.QuickAdd | components/PMSIntegration.tsx:38-47 | the quick entry is reconciled room revenue of the booking's total, dated today, whose description includes the booking id |
| Pms.QuickAddPays | components/PMSIntegration.tsx:34-47 | after the quick entry is added the booking counts as paid |
| Pms.PaidStaysPaid | components/PMSIntegration.tsx:34-36 | adding any entry never makes a paid booking unpaid |
| Pms.CountdownOf | components/PMSIntegration.tsx:15-24 | "Expired" iff no time is left; otherwise minutes and seconds below 60 with mins·60000 + secs·1000 <= diff < that + 1000 |
| Pms.CountdownShape | components/PMSIntegration.tsx:21-23 | a running countdown never reads "Expired" and ends in a colon and two digits |
| Pms.StatusBadge | components/PMSIntegration.tsx:49-71 | a badge for locked, checked-in, confirmed and pending bookings, none for checked-out ones |
| Pms.PaymentLabel | components/PMSIntegration.tsx:124-126 | "paid" iff paid; otherwise "awaiting deposit" iff locked, else "outstanding" |
| Pms.RecordButtonGoesAway | components/PMSIntegration.tsx:129-144 | after recording the payment the button is gone and the label reads paid |
| SystemReport.Unreconciled | components/SystemReport.tsx:12-13 | exactly the unreconciled entries, each as often as in the ledger, in order |
| SystemReport.DateDescPreorder | components/SystemReport.tsx:14 | newest-first date order is a total preorder |
| SystemReport.PendingItems | components/SystemReport.tsx:12-17 | min(4, pending count) unreconciled entries drawn from the ledger without repeats, newest first, none left out newer than one shown; empty iff nothing is pending |
| SystemReport.Newest | components/SystemReport.tsx:14-15 | the first n of a newest-first sort: as many as asked or available, drawn from the input without repeats, sorted, none left out newer than one shown |
| SystemReport.PendingItemsStable | components/SystemReport.tsx:12-15 | the shown entries of any one date are a prefix of that date's unreconciled entries in ledger order |
| SystemReport.NonePending | components/SystemReport.tsx:17 | the pending count is zero iff every entry is reconciled |
| SystemReport.Panel | components/SystemReport.tsx:66-107 | the all-reviewed state shows iff every entry is reconciled; otherwise one to four pending items |
| TransactionList.Filtered | components/TransactionList.tsx:16-29 | exactly the entries matching search and type, each as often as in the ledger, in order |
| TransactionList.EmptySearchListsAll | components/TransactionList.tsx:20-27 | an empty search with no type filter lists the whole ledger |
| TransactionList.TypeFilterOnly | components/TransactionList.tsx:27 | a type filter with an empty search keeps exactly the entries of that type |
| TransactionList.SearchIgnoresCase | components/TransactionList.tsx:21-24 | the text search gives the same answer for a term and its upper-case form |
| TransactionList.IdSearchKeepsCase | components/TransactionList.tsx:25 | the ID-number search compares the raw term, so case matters |
| TransactionList.View | components/TransactionList.tsx:31-41 | an empty ledger shows the placeholder whatever the search; otherwise the filtered rows |
| OcrUpload.FindLabel | components/OCRUpload.tsx:59-60 | the category whose string is the raw value, or none iff no category has it |
| OcrUpload.LabelListed | components/OCRUpload.tsx:59-60 | every category string is found in the enumeration's values |
| OcrUpload.MapCategory | components/OCRUpload.tsx:59-66 | a valid category string is kept; anything else becomes other income for income and supplies otherwise |
| OcrUpload.MapCategoryKeeps | components/OCRUpload.tsx:60 | a category's own string maps back to it |
| OcrUpload.Emit | components/OCRUpload.tsx:68-76 | the draft is unreconciled, carries the full data URL and the scan's date, amount, type and description |
| OcrUpload.EmittedCount | components/OCRUpload.tsx:39-83 | one draft per successful file; none iff every file failed |
| OcrUpload.HandleFiles | components/OCRUpload.tsx:28-89 | drafts in file order; no error once some file succeeded; otherwise the last failure's message |
| ManualEntry.CategoriesPartition | components/ManualEntry.tsx:17-34 | the four income and nine expense categories split the thirteen, none in both |
| ManualEntry.Initial | components/ManualEntry.tsx:11-15 | the form opens as a supplies expense dated today, and is well formed |
| ManualEntry.SwitchType | components/ManualEntry.tsx:64-71 | switching to income resets to room revenue, to expense resets to supplies; nothing else changes |
| ManualEntry.SelectCategory | components/ManualEntry.tsx:103-110 | choosing an offered category keeps the form well formed and changes only the category |
| ManualEntry.Apply | components/ManualEntry.tsx:60-110 | every edit keeps the category among those offered for the type |
| ManualEntry.EditsKeepWellFormed | components/ManualEntry.tsx:11-108 | the category stays offered for the type under any sequence of edits from the opening form |
| ManualEntry.KeepWellFormed | components/ManualEntry.tsx:64-108 | any sequence of edits preserves the invariant |
| ManualEntry.Submit | components/ManualEntry.tsx:36-49 | submitted iff amount and description are filled and the amount reads as a number; a submission is unreconciled with the form's date, type, category, description and the amount `parseFloat` reads |
| ManualEntry.SubmitAmount | components/ManualEntry.tsx:38-44 | a typed whole amount, negative ones included, is submitted as that number |
| FrontDesk.ResetForm | components/FrontDesk.tsx:108-115 | guest, room, name and phone cleared, amount back to 1500 and type to check-in; description and dates kept |
| FrontDesk.CompleteCheckIn | components/FrontDesk.tsx:73-89 | sent iff guest, room, amount and both dates are filled; the payload's description ends in the room and both dates go through; the form resets |
| FrontDesk.SaveQuickBooking | components/FrontDesk.tsx:91-106 | sent iff name, room and amount are filled, dates unchecked; the payload carries name, room, dates, parsed amount and a guest with that name and phone |
| FrontDesk.QuickBookIgnoresDates | components/FrontDesk.tsx:74-92 | without a check-out date a quick lock is sent while a check-in is refused |
| FrontDesk.CheckInRequestOf | App.tsx:142-150 | a payload with a parsed amount becomes the store's check-in request, field for field |
| FrontDesk.QuickBookRequestOf | App.tsx:194 | a payload with a parsed amount becomes the store's quick-book request, field for field |
| FrontDesk.QuickBookReachesStore | components/FrontDesk.tsx:96-103 | a quick lock typed with a whole amount reaches the store as a lock for that room, guest, amount and dates |
| SlipScanner.ScanSucceeded | components/SlipScanner.tsx:64-66 | a successful scan keeps the slip and suggests a description naming payer and bank |
| SlipScanner.Save | components/SlipScanner.tsx:79-108 | refused without a slip or with an amount <= 0, leaving the screen; otherwise reconciled room revenue of the slip's amount and date with the fallback description, then the screen clears |
| SlipScanner.Reset | components/SlipScanner.tsx:110-115 | the image, slip and description are cleared |
| SlipScanner.SaveOnce | components/SlipScanner.tsx:103-106 | after a save there is nothing left to save |
| SlipScanner.ScanThenSave | components/SlipScanner.tsx:64-98 | a scan with a positive amount saved at once records the suggested description |
| SlipApi.WordRun | api/scan-slip.js:58 | the length of the leading `\w` run |
| SlipApi.StripDataUrlPrefix | api/scan-slip.js:58 | a string without the `data:image/` start is unchanged; otherwise the result is a suffix |
| SlipApi.StripRoundTrip | api/scan-slip.js:58 | stripping `data:image/<word>;base64,` + payload gives the payload |
| SlipApi.RemoveAllPlain | api/scan-slip.js:74-76 | text without backticks passes the marker removal untouched |
| SlipApi.CleanFencedReply | api/scan-slip.js:74-77 | a reply wrapped in a JSON code fence cleans to the wrapped text |
| SlipApi.TrimNewline | api/scan-slip.js:77 | a trailing newline is trimmed away |
| SlipApi.Fill | api/scan-slip.js:90-101 | a falsy text field becomes empty and a falsy date today; a non-empty text field is kept and a non-zero number printed in decimal; the amount is `parseFloat` of the field |
| SlipApi.Handle | api/scan-slip.js:9-110 | OPTIONS iff 200 with no body; other non-POST methods 405; a missing image 400; a missing key 500 with its message; a model or parse error the 500 failure with its message or the fallback; success only for POST with a key |
| SlipApi.EarlyRepliesSkipModel | api/scan-slip.js:21-31 | with no image or no key the reply does not depend on the model |
| SlipApi.ModelSeesPayload | api/scan-slip.js:58-72 | the model sees only the stripped image data |
| SlipApi.AmountValidation | api/scan-slip.js:83-101 | a falsy or zero amount gives 400 with success false; any other parsed reply gives 200 with the defaults filled |
| ExportCsv.Escape | utils/exportCSV.ts:25 | escaping never shortens the text |
| ExportCsv.Quote | utils/exportCSV.ts:25 | a quoted field starts and ends with a quote |
| ExportCsv.QuotedBody | utils/exportCSV.ts:25 | reading a quoted body consumes input |
| ExportCsv.PlainField | utils/exportCSV.ts:36 | an unquoted field is the text up to the next comma, the rest unchanged |
| ExportCsv.ParseField | utils/exportCSV.ts:36 | a field reading stops at a comma or the end |
| ExportCsv.QuotedBodyEscape | utils/exportCSV.ts:25 | an escaped value followed by the closing quote reads back as the value |
| ExportCsv.PlainFieldOf | utils/exportCSV.ts:36 | a value without comma or quote reads back as itself |
| ExportCsv.ParseRendered | utils/exportCSV.ts:25-36 | any written cell reads back as its text |
| ExportCsv.RecordRoundTrip | utils/exportCSV.ts:36 | reading a written line gives back every cell's text in order |
| ExportCsv.JoinAppend | utils/exportCSV.ts:34-37 | joining one more part appends the separator and the part |
| ExportCsv.DocumentGrows | utils/exportCSV.ts:33-41 | the document is the byte-order mark and header, and each record adds exactly one line at the end |
| ExportCsv.TransactionCells | utils/exportCSV.ts:20-31 | ten cells, one per header |
| ExportCsv.TransactionValues | utils/exportCSV.ts:6-31 | ten values in header order |
| ExportCsv.IntToStringPlain | utils/exportCSV.ts:24 | a printed amount holds no comma or quote |
| ExportCsv.CategoryLabelPlain | utils/exportCSV.ts:23 | no category string holds a comma or quote |
| ExportCsv.TransactionRowRoundTrip | utils/exportCSV.ts:20-31 | a ledger line reads back as date, type label, category, amount, description, reconcile label, guest name, id, phone and customer type, empty when absent |
| ExportCsv.ExportTransactions | utils/exportCSV.ts:4-41 | the ledger document starts with the byte-order mark |
| ExportCsv.ExportTransactionsGrows | utils/exportCSV.ts:33-41 | header only for an empty ledger; each entry adds exactly its own line |
| ExportCsv.BookingCells | utils/exportCSV.ts:65-73 | seven cells, one per header |
| ExportCsv.BookingRowRoundTrip | utils/exportCSV.ts:65-73 | a booking line reads back as id, guest, room, dates, amount and status |
| ExportCsv.ExportBookings | utils/exportCSV.ts:54-81 | the booking document starts with the byte-order mark |
| ExportCsv.ExportBookingsGrows | utils/exportCSV.ts:75-81 | header only for no bookings; each booking adds exactly its own line |
| ExportCsv.WrapAsWritten | utils/exportCSV.ts:27 | the name as written: between quotes, two characters longer |
| ExportCsv.WrapBreaks | utils/exportCSV.ts:27 | a name holding a quote makes the written cell unreadable, while the doubled form reads back |
| ExportCsv.GuestCellAsWritten | utils/exportCSV.ts:27 | the guest cell as the code writes it |
| ExportCsv.GuestCellBreaks | utils/exportCSV.ts:27 | for a first name ending in a quote the written guest cell cannot be read back |
| ExportCsv.BookingNameCellAsWritten | utils/exportCSV.ts:67 | the booking guest cell as the code writes it |
| ExportCsv.BookingNameCellBreaks | utils/exportCSV.ts:67 | for a guest name holding a quote the written booking cell cannot be read back |
| ExportCsv.EscapeNoQuote | utils/exportCSV.ts:25-27 | for names without quotes the written and the doubled cells agree |

## Left out

- Rendering, styling and charts are not modelled. This includes `monthlyChartData` (App.tsx:233-247), which depends on `Date` parsing and Thai-locale month labels.
- Persistence is left out: `localStorage`, the database service and the data endpoint are I/O.
- Timers are left out. The sweep interval and the countdown interval become explicit `now` arguments (`App.Tick`, `Pms.CountdownOf`).
- `window.confirm` becomes a boolean argument. `alert` and `toast` become the returned result codes and strings.
- Random ids are arguments. The model does not assume they are unique, because the code does not ensure it.
- The AI model, `JSON.parse`, `FileReader`, the camera and the request from the slip screen to the endpoint are outside the model. They appear as inputs or as function parameters (`SlipApi.Handle`).
- `handleQuickCameraCapture` (App.tsx:111-130) is not modelled. It casts the AI's category string to a category unchecked (App.tsx:119), so the ledger can hold a category outside the thirteen values. `Types.Category` is closed, so such an entry cannot be represented. The quick-capture entry is otherwise an ordinary `addTransaction`, which is modelled.
- `ExportCsv.TransactionRowRoundTrip` and `ExportCsv.CategoryLabelPlain` assume one of the thirteen listed categories. The code writes the category column raw (utils/exportCSV.ts:23), so an unlisted category holding a comma, as App.tsx:119 can store, would shift the columns.
- The printable documents, the cloud archive and the settings screen are not modelled. The only setting with behaviour, auto-reconcile, is covered by `Ledger.AddTransaction`.
- `OtaImport.ParseDate` does not model the spreadsheet serial-date decoder or free-form `new Date(value)`. Both are parameters (`DateSources`), and so is the printing of a date cell. The decoder may refuse a serial, which throws and fails the import; which serials the spreadsheet library refuses is not modelled.
- `OtaImport.CellAmount`, `OtaImport.AmountOf` and `OtaImport.ParseBookingRow`: a numeric amount cell is an integer. A text or date amount cell counts as not a number, so the total of such a row is NaN and so is its deposit. The code keeps the string as the total, and `Math.round("3000" * 0.3)` gives a deposit of 900.
- `Rooms.CalculateDeposit` uses integer half-up rounding, (3T+5) div 10. It ignores the floating-point error of `Math.round(T*0.3)`.
- `Rooms.CalculateNights` treats only `YYYY-MM-DD` strings as valid dates. Other strings that `new Date` accepts are NaN in the model. `Rooms.ParseIsoDate` also refuses a well-shaped but impossible date such as `2025-02-30`, which gives NaN; V8's `new Date` rolls it over to 2025-03-02, and other engines may differ.
- `Strings.Lower` and `Strings.Upper` map ASCII letters only. Thai has no case, but case mapping of other scripts is not modelled.
- `Strings.LexLe` stands in for `localeCompare` as code-point order. It matches on the ISO date strings the code sorts.
- `SystemReport.PendingItems` orders by code-point order of the date string. This agrees with `getTime()` order when every date is a `YYYY-MM-DD` string. Nothing checks the shape of ledger dates, which can come from the AI (components/OCRUpload.tsx:69, App.tsx:119). Other strings `new Date` accepts are ordered differently: `2025-1-15` sorts as newer than `2025-01-20`, and `2025-01-05T00:00` (local midnight) as newer than `2025-01-05` (UTC midnight). Invalid dates, whose time is NaN, are not modelled either.
- `ManualEntry.Submit` treats an amount that reads as NaN (such as `-` or `e5`) as no submission, because ledger amounts are integers. The code would add an entry whose amount is NaN.
- `Strings.ParseFloat` reads an optional sign, decimal digits and an optional non-negative exponent. A fraction, a fraction followed by an exponent, or a negative exponent is cut to the whole-number prefix (`1.5` and `1.5e3` both read as 1, where JavaScript gives 1.5 and 1500), `.5` and `Infinity` read as NaN, and double rounding and overflow are not modelled.
- `FrontDesk.CheckInRequestOf` and `FrontDesk.QuickBookRequestOf`: a NaN amount does not reach the booking store, because store and ledger amounts are integers.
- `SlipScanner.Save`: the slip amount is an integer, so the NaN amount the endpoint can return is not modelled.
- `OcrUpload.HandleFiles`: the scan result's type is one of the two transaction types. A raw type string outside them is not modelled.
- `SlipApi.Handle` does not model a request with no body at all, where destructuring would throw.
- `SlipApi.Fill` prints a numeric text field in decimal. Fractional amounts are not modelled.
- `ExportCsv.TransactionRowRoundTrip` and `ExportCsv.BookingRowRoundTrip` require the unquoted fields to hold no comma or quote. The code writes those fields raw, so a comma there would shift the columns.
- Fractional money, anywhere, is not modelled; amounts are whole numbers.

## Findings

| source | as written | input that shows it | evidently intended | confidence | as-written member | corrected member |
|---|---|---|---|---|---|---|
| utils/exportCSV.ts:27 | the guest name is put between quotes with its inner quotes left single | a guest whose first name is `a"` and last name is empty gives the cell `"a" "`, which a CSV reader cannot read | inner quotes doubled, as line 25 does for the description | medium, not executed | ExportCsv.GuestCellBreaks | ExportCsv.TransactionRowRoundTrip |
| utils/exportCSV.ts:67 | the booking's guest name is put between quotes with its inner quotes left single | a booking whose guest name is `a" ` gives the cell `"a" "`, which a CSV reader cannot read | inner quotes doubled, as line 25 does for the description | medium, not executed | ExportCsv.BookingNameCellBreaks | ExportCsv.BookingRowRoundTrip |

The model's exports (`ExportCsv.ExportTransactions`, `ExportCsv.ExportBookings`)
use the corrected cells, which double inner quotes.
`ExportCsv.EscapeNoQuote` shows that, for names without quotes, the
corrected cells are exactly what the code writes.
