# Sree Apparels EMS client: the page state machines

This project models the client-side logic of three pages of the Sree Apparels
employee-management web client, a browser UI over a REST backend:

- **Attendance** (`attendance.dfy`, module `Attendance`): the attendance sheet of a
  date and shift. It holds the staff list and a map from staff id to status. Loading
  builds the map from the server's reply. A reply of type "attendance" carries saved
  records. A reply of type "staff" carries a bare staff list, and everyone starts as
  "Absent". Clicking a member toggles "Present"/"Absent". "Submit All" builds one row
  per staff member.
- **Stitching** (`stitching.dfy`, module `Stitching`): the stitching count sheet. It
  holds the tailors loaded for a date and shift and a map from tailor id to count.
  Loading prefills the map with the truthy counts. Typing changes one entry. The
  single save and the bulk save send falsy counts as 0.
- **Piece tracking** (`piece_tracking.dfy`, module `PieceTracking`): the green, yellow
  or red colour of a trunk's row. It also covers the query parameters the two filters
  turn into, and the body posted for a newly received trunk, after which the form is
  cleared.

Each page's React state becomes a class whose fields are the state variables. Each
event handler becomes a method. Each `forEach` that fills a local dictionary becomes a
`while` loop, proved against a recursive specification function (`SavedStatuses`,
`AllAbsent`, `Prefilled`). The properties of those functions are proved as lemmas.
Payloads are values the methods return. Server replies are decoded datatype values
passed in. A request that throws is a `RequestFailed` reply (attendance and stitching
loads), a `None` reply (the trunk fetch), or a `false` `accepted` flag (adding a trunk).

The client contains no time-bucketed aggregation. `src/pages/Analysis.jsx:13` imports
`getISOWeek` and `format` but never calls them. Its `viewMode` (`src/pages/Analysis.jsx:21`)
only triggers a new fetch (`src/pages/Analysis.jsx:32`), and every total is computed by the
server. This model has no aggregator.

JavaScript values are modelled as follows:

- Truthiness of a count is the predicate `Stitching.Truthy`. A count is falsy when it
  is absent, the number 0 or the empty string.
- `x || 0` is `Stitching.OrZero`. `attendance[id] || "Absent"` is
  `Attendance.SubmittedStatus`.
- An absent `paymentAmount` is `None`. It makes both comparisons of the colour rule
  false, as `undefined >= n` and `undefined > 0` are.
- `Number("")` is 0. A number input is either blank or holds an integer (`Entry`).

## Model

| member | source | states |
|---|---|---|
| `Attendance.Toggled` | src/pages/AttendanceManagement.jsx:49-54 | the toggled id is Present exactly when it was not, ends up "Present" or "Absent" (a missing id is added as "Present"), and every other entry is unchanged |
| `Attendance.SubmittedStatus` | src/pages/AttendanceManagement.jsx:63 | the submitted status is never empty; a marked non-empty status is sent as it is; a member with no entry (or an empty one) is sent as "Absent" |
| `Attendance.Submission` | src/pages/AttendanceManagement.jsx:59-64 | one row per staff member, in list order, each with that member's id, the current date and shift, and its defaulted status |
| `Attendance.AllAbsentMarksEveryone` | src/pages/AttendanceManagement.jsx:31-38 | after a "staff" reply the map's keys are exactly the listed ids and every value is "Absent" |
| `Attendance.SavedStatusesLastWins` | src/pages/AttendanceManagement.jsx:23-30 | after an "attendance" reply the map's keys are exactly the records' staff ids, each mapped to the status of its last record |
| `Attendance.SavedAttendanceRoundTrip` | src/pages/AttendanceManagement.jsx:23-64 | submitting a freshly loaded saved attendance sends every record back with its own id and status, when ids are distinct and statuses non-empty |
| `Attendance.FreshSheetSubmitsAbsent` | src/pages/AttendanceManagement.jsx:31-64 | submitting a freshly loaded staff list sends every member as "Absent" |
| `Attendance.ToggleTwice` | src/pages/AttendanceManagement.jsx:52 | toggling an id twice restores the map exactly when its status was "Present" or "Absent"; otherwise the id ends "Absent" |
| `Attendance.ToggleFlipsSubmission` | src/pages/AttendanceManagement.jsx:49-64 | a toggle flips the toggled member's submitted status between "Present" and not "Present" and leaves every other row as it was |
| `Attendance.AttendanceSheet.constructor` | src/pages/AttendanceManagement.jsx:5-8 | the page starts with no date, no shift, no staff and an empty map |
| `Attendance.AttendanceSheet.SetDate` | src/pages/AttendanceManagement.jsx:104 | picking a date changes the date only |
| `Attendance.AttendanceSheet.SetShift` | src/pages/AttendanceManagement.jsx:110 | picking a shift changes the shift only |
| `Attendance.AttendanceSheet.LoadAttendance` | src/pages/AttendanceManagement.jsx:12-46 | refused with nothing changed when date or shift is empty; an "attendance" reply sets the staff list to the records' staff in order and the map to their statuses; a "staff" reply sets the list to the reply and the map to all "Absent"; any other reply type or a failed request changes nothing |
| `Attendance.AttendanceSheet.ToggleAttendance` | src/pages/AttendanceManagement.jsx:49-54 | the map becomes the toggled map; date, shift and staff list are unchanged |
| `Attendance.AttendanceSheet.SubmitAttendance` | src/pages/AttendanceManagement.jsx:57-66 | the payload has one row per staff member with its id, the date and shift, and "Absent" for a member with no entry |
| `Stitching.OrZero` | src/pages/StitchingManagement.jsx:50 | a truthy count is kept and a falsy one becomes the number 0 |
| `Stitching.SingleSave` | src/pages/StitchingManagement.jsx:44-52 | the single save carries the date, shift, tailor id and update flag, and the map's entry for that tailor when it is truthy, 0 when it is missing or falsy |
| `Stitching.BulkRecords` | src/pages/StitchingManagement.jsx:63-66 | one record per loaded tailor, in order, with its id and its count defaulted to 0 |
| `Stitching.PrefilledKeepsTruthyCounts` | src/pages/StitchingManagement.jsx:25-31 | the prefilled map's keys are exactly the tailors with a truthy count, each mapped to its last truthy count, and every value is truthy |
| `Stitching.BulkAgreesWithSingleSave` | src/pages/StitchingManagement.jsx:44-66 | the bulk save sends for each tailor the count a single save of that tailor would send |
| `Stitching.LoadThenBulkSaveResendsCounts` | src/pages/StitchingManagement.jsx:22-66 | saving right after a load sends every loaded count back unchanged, falsy ones as 0, when tailor ids are distinct |
| `Stitching.CountChangeIsLocal` | src/pages/StitchingManagement.jsx:39-50 | after typing into one tailor's input, its save sends the text (or 0 when cleared) and every other tailor's save is unchanged |
| `Stitching.StitchingSheet.constructor` | src/pages/StitchingManagement.jsx:7-10 | the page starts with no date, no shift, no tailors and an empty count map |
| `Stitching.StitchingSheet.SetDate` | src/pages/StitchingManagement.jsx:95 | picking a date changes the date only |
| `Stitching.StitchingSheet.SetShift` | src/pages/StitchingManagement.jsx:106 | picking a shift changes the shift only |
| `Stitching.StitchingSheet.LoadTailors` | src/pages/StitchingManagement.jsx:13-36 | refused with nothing changed when date or shift is empty; otherwise the tailor list becomes the reply and the count map is replaced wholesale by the prefilled map; a failed request changes nothing |
| `Stitching.StitchingSheet.HandleCountChange` | src/pages/StitchingManagement.jsx:39-41 | only the changed tailor's entry is updated, to the typed text |
| `Stitching.StitchingSheet.SaveCount` | src/pages/StitchingManagement.jsx:44-58 | the body posted is the single save of the current date, shift and counts |
| `Stitching.StitchingSheet.BulkSave` | src/pages/StitchingManagement.jsx:61-71 | the body carries the selected date and shift and one record per loaded tailor, in order, with its count defaulted to 0 |
| `PieceTracking.ColorOf` | src/pages/PieceTracking.jsx:82-88 | green exactly when paid at least the expected amount and dispatched; yellow exactly when 0 < paid < expected; red otherwise, including a fully paid undispatched trunk and a trunk with no payment amount |
| `PieceTracking.LowerCase` | src/pages/PieceTracking.jsx:25 | lower-casing keeps the length |
| `PieceTracking.LowerCaseLowers` | src/pages/PieceTracking.jsx:25 | lower-casing maps each character by itself and leaves no upper-case ASCII letter |
| `PieceTracking.CompletedOptionLowerCased` | src/pages/PieceTracking.jsx:125 | the payment option "Completed" is sent as "completed" |
| `PieceTracking.PartialOptionLowerCased` | src/pages/PieceTracking.jsx:126 | the payment option "Partial" is sent as "partial" |
| `PieceTracking.PendingOptionLowerCased` | src/pages/PieceTracking.jsx:127 | the payment option "Pending" is sent as "pending" |
| `PieceTracking.ReceivePayloadOf` | src/pages/PieceTracking.jsx:43-48 | the body copies the trunk number, sets the item type to "Trunk Pieces", and converts quantity and expected payment to numbers, a blank input being 0 |
| `PieceTracking.ReceivePayloadRoundTrip` | src/pages/PieceTracking.jsx:43-48 | a filled-in form can be read back from its body unchanged |
| `PieceTracking.PieceTrackingView.constructor` | src/pages/PieceTracking.jsx:7-16 | the page starts with no trunks, both filters at "All" and an empty form |
| `PieceTracking.PieceTrackingView.SetDispatchFilter` | src/pages/PieceTracking.jsx:104-106 | changing the dispatch filter changes that filter only |
| `PieceTracking.PieceTrackingView.SetPaymentFilter` | src/pages/PieceTracking.jsx:119-121 | changing the payment filter changes that filter only |
| `PieceTracking.PieceTrackingView.EditForm` | src/pages/PieceTracking.jsx:204-226 | typing into the form changes the form only |
| `PieceTracking.PieceTrackingView.FetchParams` | src/pages/PieceTracking.jsx:19-25 | a filter at "All" sends no parameter, so both at "All" send none; `isDispatched` is true exactly for "Dispatched" (so "Not Dispatched" sends false); `paymentStatus` is the selected label lower-cased |
| `PieceTracking.PieceTrackingView.ReceiveTrunks` | src/pages/PieceTracking.jsx:27-31 | a reply replaces the trunk list; a failed fetch leaves it |
| `PieceTracking.PieceTrackingView.AddTrunk` | src/pages/PieceTracking.jsx:40-55 | the body is built from the form; the form is reset to empty only after the post succeeds |

## Left out

- Network requests, `alert`, `prompt` and `console` calls are not modelled. Each reply is an input value; a request that throws is `RequestFailed` (attendance and stitching loads), `None` (`ReceiveTrunks`) or `accepted == false` (`AddTrunk`).
- The `loading` flag of the attendance page (src/pages/AttendanceManagement.jsx:9, 18, 44) is not modelled; it is set and cleared around the request.
- The reload after a successful submit (src/pages/AttendanceManagement.jsx:69) the trunk fetch on mount (src/pages/PieceTracking.jsx:34-37), the fetch of the Search button (src/pages/PieceTracking.jsx:131) and the re-fetch after adding a trunk (src/pages/PieceTracking.jsx:51) are separate calls of `LoadAttendance` and `FetchParams`/`ReceiveTrunks` by the caller.
- A reply whose shape does not match its type makes the page throw inside the `try` block. The model does not represent such replies. In the stitching page the tailor list is already set at that point (src/pages/StitchingManagement.jsx:22), which the model does not capture.
- `handleDispatch` and `handlePaymentUpdate` (src/pages/PieceTracking.jsx:58-79) are not modelled. They only send requests; the payment prompt's empty-input guard depends on a browser dialog.
- `PieceTracking.ReceivePayloadOf`: `Number(...)` of typed text (NaN, fractions, exponents) is not modelled; a number input is blank or an integer.
- `PieceTracking.LowerCase`: lower-cases ASCII letters only, not the full Unicode mapping of `toLowerCase`.
- `PieceTracking.ColorOf`: a `null` payment amount (which JavaScript compares as 0) is not modelled; an amount is present or absent.
- Rendering, avatars, styling and routing are not modelled, and neither are the pages for staff, staff details, login, salary and analysis. Their client-side logic is limited to view switching, projecting reply fields and a wall-clock default month; none of it is part of the three pages modelled here.
