# UPR surveillance console: a Dafny model

This project models the logic of a React console for attendance and
surveillance. A lecturer starts a live attendance session from a webcam. The
closed session is handed to a surveillance page. Admin pages then report on
the stored records and logs. The model covers five groups:

- **The resource store** (`ResourcesSlice`): the state record
  `{user, data, status, message, error}` and the transition every async-thunk
  outcome makes on it. This includes create, update and delete by `_id` on the
  lists kept under each resource key. It also covers the two request helpers:
  the error rule for replies and the choice between a JSON and a multipart
  body.
- **The two capture pages** (`LiveAttendance`, `Surveillance`): classes whose
  fields are the page's refs and state hooks.
  - `startStream` and `stopStream` are methods over abstract camera streams
    and peer connections (`Browser`).
  - Every awaited browser or network step is an input (`StartOracle`, a
    `Reply`, the answer to `window.confirm`).
  - The finished session passes from one page to the other through one local
    storage item, `"surv_session_info"`.
- **The table component** (`DataTable`): dotted-path lookup, the status, date
  and fallback cell rules, the row buttons and the Action column, the
  empty-table row with JavaScript's conversion in `tableData.length > 0`, and
  React's rules for cell values (booleans show nothing, objects throw).
- **The report and record pages** (`Records`, `AttendanceReport`,
  `CourseReports`, `StudentReports`, with the shared counters in
  `ReportCounts`): input guards, query and payload construction, record
  flattening, the `idle → loading → success | error` runs of `status` and
  `error`, and the present, absent, alert and unique-student counts.
- **The JavaScript semantics these depend on** (`JsValues`, `JsStrings`,
  `Http`):
  - values with truthiness, `||`, `??` and `?.`;
  - property reads, object spread and `JSON.stringify`;
  - `String.prototype.trim`, `split`, `parseInt` and `Number`;
  - the `fetch` / `response.json()` / `response.ok` sequence.

A TypeError the engine would throw is modelled explicitly, as a `Failure` or
an error state. Examples: reading a property of `null`, or calling `.map` on
something that is not an array.

## Model

| member | source | states |
|---|---|---|
| ResourcesSlice.HandleApiResponse | src/redux/slices/resourcesSLice.js:6-10 | a parsed reply fails exactly when it is not ok; the message is the body's truthy `message`, else "An error occurred"; a null body throws a TypeError; an unparsable body passes its parse error through |
| ResourcesSlice.ToFormPart | src/redux/slices/resourcesSLice.js:30-35 | `FormData.append` keeps a File as a file part and turns every other value into text |
| ResourcesSlice.FieldEntries | src/redux/slices/resourcesSLice.js:29-36 | one property gives one entry under its key; a file array instead gives one entry per element, in order, each under the same key |
| ResourcesSlice.FormEntriesPerKey | src/redux/slices/resourcesSLice.js:26-38 | with distinct keys, the entries the form holds under each key are exactly that property's entries |
| ResourcesSlice.NoEntriesForAbsentKey | src/redux/slices/resourcesSLice.js:26-38 | a key the body lacks gets no form entry |
| ResourcesSlice.AppendFileArray | src/redux/slices/resourcesSLice.js:31-33 | the inner `forEach` appends exactly the file array's entries to the form |
| ResourcesSlice.BuildForm | src/redux/slices/resourcesSLice.js:25-38 | the `for...in` loop builds exactly the per-property entries of the body, in property order |
| ResourcesSlice.PrepareRequestOptions | src/redux/slices/resourcesSLice.js:13-52 | the verb is passed through and credentials are "include"; JSON headers and a JSON body go together, exactly when no value is a File or a File array; otherwise a multipart body of the form entries with no headers; a null or undefined body is a TypeError |
| ResourcesSlice.HasFile | src/redux/slices/resourcesSLice.js:18-22 | the body holds a file or an array whose first element is a file; PrepareRequestOptions states what it decides |
| ResourcesSlice.FormEntries | src/redux/slices/resourcesSLice.js:26-38 | the form entries of the own properties, in order; stated by FormEntriesPerKey and NoEntriesForAbsentKey |
| ResourcesSlice.InitialState | src/redux/slices/resourcesSLice.js:243-251 | empty data, "idle", null message and error, and the stored user |
| ResourcesSlice.ByIdKey | src/redux/slices/resourcesSLice.js:359 | the fetch-by-id key is the resource name followed by "ById" |
| ResourcesSlice.UpdateItems | src/redux/slices/resourcesSLice.js:335-337 | the `map` succeeds exactly on a list without null items; it keeps the length and merges `data` into exactly the items whose `_id` matches |
| ResourcesSlice.RemoveItems | src/redux/slices/resourcesSLice.js:370-372 | the `filter` succeeds exactly on a list without null items; the result is no longer than the input and no kept item has the id |
| ResourcesSlice.RemoveItemsKeepsOthers | src/redux/slices/resourcesSLice.js:370-372 | every item without the id is kept as often as before, and every item with it is dropped |
| ResourcesSlice.RemoveItemsKeepsOrder | src/redux/slices/resourcesSLice.js:370-372 | the kept items are a subsequence of the original list |
| ResourcesSlice.Store.constructor | src/redux/slices/resourcesSLice.js:245-251 | the store starts in the initial state |
| ResourcesSlice.Store.Dispatch | src/redux/slices/resourcesSLice.js:257-374 | the field-by-field update yields exactly the reducer's next state; when a case throws, the store is unchanged |
| ResourcesSlice.Store.DispatchOther | src/redux/slices/resourcesSLice.js:258-365 | the register, committee, login, logout, fetch and fetch-by-id cases never throw and yield the reducer's state |
| ResourcesSlice.Store.DispatchEdit | src/redux/slices/resourcesSLice.js:314-373 | the create, update and delete cases yield the reducer's state, or throw and leave the store as it was |
| ResourcesSlice.Store.Create | src/redux/slices/resourcesSLice.js:318-323 | the in-place push yields the reducer's create state, or throws exactly when the reducer does |
| ResourcesSlice.Store.Update | src/redux/slices/resourcesSLice.js:330-350 | the in-place update yields the reducer's update state, or throws exactly when the reducer does |
| ResourcesSlice.Store.Delete | src/redux/slices/resourcesSLice.js:368-373 | the in-place delete yields the reducer's delete state, or throws exactly when the reducer does |
| ResourcesSlice.PendingSetsLoading | src/redux/slices/resourcesSLice.js:260-356 | every handled pending case sets "loading" and changes nothing else, except that fetch-by-id pending also clears `error` |
| ResourcesSlice.UnhandledActionsKeepState | src/redux/slices/resourcesSLice.js:257-374 | the outcomes without a case (login and logout pending, logout rejected, update and delete pending and rejected) leave the state as it is |
| ResourcesSlice.CreateAppends | src/redux/slices/resourcesSLice.js:318-322 | a missing or falsy list starts as `[]`; the new item is appended last and the earlier items are unchanged; status becomes "succeeded"; other keys are untouched |
| ResourcesSlice.CreateOntoNonListThrows | src/redux/slices/resourcesSLice.js:320-321 | pushing onto a truthy value that is not a list throws |
| ResourcesSlice.UpdateListMergesMatching | src/redux/slices/resourcesSLice.js:334-338 | on a list, the update keeps length and order, merges into exactly the matching items, and leaves `status` and other keys untouched |
| ResourcesSlice.UpdateListWithNullThrows | src/redux/slices/resourcesSLice.js:335-337 | a list with a null or undefined item makes the update throw |
| ResourcesSlice.UpdateObjectMerges | src/redux/slices/resourcesSLice.js:340-345 | on an object, the new fields win and the old fields are kept otherwise |
| ResourcesSlice.UpdateMissingSets | src/redux/slices/resourcesSLice.js:332-349 | on a missing key, a falsy value or any stored value that is neither a list nor a truthy object, the key is set to `data` |
| ResourcesSlice.DeleteRemovesId | src/redux/slices/resourcesSLice.js:368-372 | from a list of non-null items, delete leaves no item with the id; it keeps every other item, in order, without growing, and touches no other key and not `status` |
| ResourcesSlice.DeleteThrows | src/redux/slices/resourcesSLice.js:370-372 | delete throws exactly when the key holds no list or the list has a null item |
| ResourcesSlice.FetchStoresUnderKey | src/redux/slices/resourcesSLice.js:305-360 | fetch stores `data \|\| []` under the resource and sets "succeeded"; fetch-by-id stores `data` under `resource + "ById"` and nowhere else |
| ResourcesSlice.RejectedRecordsError | src/redux/slices/resourcesSLice.js:267-365 | each rejected case sets "failed" and stores the payload as the error (fetch-by-id: or "Something went wrong"), keeping data and user |
| ResourcesSlice.LoginAndLogout | src/redux/slices/resourcesSLice.js:286-300 | login stores the user, message and "succeeded"; logout clears the user and returns to "idle" |
| ResourcesSlice.Reduce | src/redux/slices/resourcesSLice.js:257-374 | the reducer cases, one per action; stated by the lemmas above and by Store.Dispatch |
| Http.ThrowUnlessOk | src/pages/admin/Attendance.jsx:43-45 | a parsed reply fails exactly when it is not ok, with its truthy `message` or the page's fallback text; a null error body is a TypeError |
| Http.FetchJson | src/pages/admin/Attendance.jsx:31-45 | a network failure carries its message; a reply goes through the ok check |
| Http.ReadJson | src/pages/admin/LiveAttendance.jsx:94-100 | the body is read with no look at `response.ok` |
| Http.OkReplyNeverFails | src/pages/admin/Attendance.jsx:43-45 | an ok reply with a JSON body always yields that body |
| Http.ErrorReplyMessage | src/pages/admin/Attendance.jsx:44-45 | a non-ok reply fails with its non-empty string `message`, or with the fallback when it has none |
| Browser.MediaStream.constructor | src/pages/admin/LiveAttendance.jsx:59-62 | a new camera stream has the given number of tracks, all live |
| Browser.MediaStream.StopTracks | src/pages/admin/LiveAttendance.jsx:118 | the `forEach` stops every track and keeps the track count |
| Browser.PeerConnection.constructor | src/pages/admin/LiveAttendance.jsx:52-54 | a new peer connection is open and sends nothing |
| Browser.PeerConnection.AddTracks | src/pages/admin/LiveAttendance.jsx:80 | the `forEach` adds one sender per track of the stream |
| Browser.PeerConnection.Close | src/pages/admin/LiveAttendance.jsx:138 | the connection is closed |
| Browser.Serialize | src/pages/admin/LiveAttendance.jsx:156-159 | `JSON.stringify` stores the JSON text of a value, and the non-JSON text "undefined" for undefined |
| Browser.Parse | src/pages/admin/Survelliance.jsx:27 | a JSON text parses to its value; any other text throws |
| Browser.StoredRoundTrip | src/pages/admin/Survelliance.jsx:25-27 | a stored value reads back as the value JSON carries, which is the value itself for JSON data; a stored undefined does not parse |
| Browser.LocalStorage.GetItem | src/pages/admin/Survelliance.jsx:25 | `getItem` gives the stored item exactly when the key is present |
| Browser.LocalStorage.SetItem | src/pages/admin/LiveAttendance.jsx:156-159 | `setItem` replaces exactly one item |
| LiveAttendance.SemesterFieldOfDigits | src/pages/admin/LiveAttendance.jsx:91 | `parseInt` turns a semester of decimal digits into the number it spells, and turns text it cannot read into NaN |
| LiveAttendance.PayloadCarriesForm | src/pages/admin/LiveAttendance.jsx:85-92 | the offer payload carries the SDP, its type and the four form fields verbatim |
| LiveAttendance.UnreadableSemesterSentAsNull | src/pages/admin/LiveAttendance.jsx:91-97 | an unreadable semester goes into the JSON body as null |
| LiveAttendance.SemesterField | src/pages/admin/LiveAttendance.jsx:91 | `parseInt(semester)`; stated by SemesterFieldOfDigits |
| LiveAttendance.OfferPayload | src/pages/admin/LiveAttendance.jsx:85-92 | the offer request body; stated by PayloadCarriesForm |
| LiveAttendance.StartFailure | src/pages/admin/LiveAttendance.jsx:58-110 | the first failing step of an accepted start, in the order the page awaits them, or none |
| LiveAttendance.AnswerFailure | src/pages/admin/LiveAttendance.jsx:100-107 | an unparsable reply fails with its error and a null body with a TypeError |
| LiveAttendance.StartSucceedsIff | src/pages/admin/LiveAttendance.jsx:58-110 | a start succeeds exactly when every browser step succeeds and the answer, ok or not, has a truthy `sdp`; an answer without `sdp` fails with "Invalid SDP from backend" |
| Browser.ErrorText | src/pages/admin/LiveAttendance.jsx:114 | `err.message \|\| fallback`: the shown error is never empty, is the thrown message when that is non-empty and the page's fallback otherwise ("Stream start failed" here, "Failed to start stream" at Survelliance.jsx:116) |
| LiveAttendance.OfferRequests | src/pages/admin/LiveAttendance.jsx:94-98 | exactly one offer request is posted, carrying the payload, once every earlier step succeeded |
| LiveAttendance.ResultsTableAsWritten | src/pages/admin/LiveAttendance.jsx:305-311 | the results table is shown exactly when the stop result is truthy |
| LiveAttendance.ErrorBodyBreaksResultsTable | src/pages/admin/LiveAttendance.jsx:305-311 | a truthy stop result without `attendance_data` makes the table throw |
| LiveAttendance.AttendanceRows | src/pages/admin/LiveAttendance.jsx:309 | the rows are always a list, and are `attendance_data` itself when that is a list |
| LiveAttendance.ResultsTable | src/pages/admin/LiveAttendance.jsx:305-311 | the guarded table is shown exactly when the stop result is truthy |
| LiveAttendance.ResultsTableShowsRows | src/pages/admin/LiveAttendance.jsx:305-311 | with the guard, a missing `attendance_data` shows the "No data available" row, and a list of records makes one four-cell row per record, shown unless a cell holds an object |
| LiveAttendance.AttendanceCapture.Results | src/pages/admin/LiveAttendance.jsx:305-311 | the page as written shows a results table exactly when it holds a truthy result; a result without `attendance_data` makes the table throw, and an empty list shows the "No data available" row |
| LiveAttendance.AttendanceCapture.constructor | src/pages/admin/LiveAttendance.jsx:20-36 | empty form, no refs, not streaming, "idle", no error, no result |
| LiveAttendance.AttendanceCapture.EditForm | src/pages/admin/LiveAttendance.jsx:204-228 | the four inputs set the four form fields and nothing else |
| LiveAttendance.AttendanceCapture.StartStream | src/pages/admin/LiveAttendance.jsx:41-123 | a start while streaming does nothing; an empty field only sets the fill-all-fields error; otherwise a fresh peer connection, the offer request, and either success (streaming, all tracks added, `track_id` kept, no error) or error (stream stopped and released, not streaming, the thrown message, track id kept); in both cases the fresh peer connection is left open in `pcRef`, so a failed start does not close it |
| LiveAttendance.AttendanceCapture.Launch | src/pages/admin/LiveAttendance.jsx:49-122 | after the guards: "loading" with no error, a fresh open peer connection in `pcRef`, then the `try` block's outcome or the `catch` block's cleanup, which stops the stream but leaves the connection open |
| LiveAttendance.AttendanceCapture.Abandon | src/pages/admin/LiveAttendance.jsx:111-122 | the `catch` block: "error" with the message, then the stream stopped and released and streaming off |
| LiveAttendance.AttendanceCapture.Negotiate | src/pages/admin/LiveAttendance.jsx:58-81 | camera, video element and playback; an acquired stream is held and streams while later steps run |
| LiveAttendance.AttendanceCapture.Exchange | src/pages/admin/LiveAttendance.jsx:80-110 | tracks added, offer, local description, offer request, then the answer |
| LiveAttendance.AttendanceCapture.ApplyAnswer | src/pages/admin/LiveAttendance.jsx:100-110 | `track_id` is kept and "success" set only when the answer has an `sdp` and its description is accepted |
| LiveAttendance.AttendanceCapture.StopStream | src/pages/admin/LiveAttendance.jsx:128-174 | always stops the tracks, closes the connection, drops both refs and ends "idle" and not streaming; posts the stop only with a truthy track id; on a parsed reply keeps its result and, when confirmed, stores its `session_info` in the hand-off slot and goes to "/surveillance"; a failure sets "Failed to stop session" |
| Surveillance.LoadedSession | src/pages/admin/Survelliance.jsx:23-40 | a missing or empty item loads nothing; an item that does not parse loads nothing; otherwise its parsed value |
| Surveillance.HandoffDelivers | src/pages/admin/Survelliance.jsx:25-27 | the page loads the `session_info` the attendance page stored, exactly for JSON data; a missing `session_info` loads nothing |
| Surveillance.HandedOverObjectIsTruthy | src/pages/admin/Survelliance.jsx:53 | a handed-over object passes the start's session guard |
| Surveillance.PayloadCopiesSession | src/pages/admin/Survelliance.jsx:88-96 | the offer payload carries the SDP, its type and the five session fields unchanged |
| Surveillance.OfferPayload | src/pages/admin/Survelliance.jsx:88-96 | the offer request body; stated by PayloadCopiesSession |
| Surveillance.StartFailure | src/pages/admin/Survelliance.jsx:69-111 | the first failing step of a start, in order; a missing video element is a TypeError |
| Surveillance.AnswerFailure | src/pages/admin/Survelliance.jsx:104-109 | an unparsable reply fails with its error and a null body with a TypeError; otherwise the start succeeds exactly when the description is accepted |
| Surveillance.StartSucceedsIff | src/pages/admin/Survelliance.jsx:69-113 | a start succeeds exactly when every browser step succeeds and the reply parses to a non-null body, even a non-ok one |
| Surveillance.OfferRequests | src/pages/admin/Survelliance.jsx:98-102 | exactly one offer request is posted once every earlier step succeeded |
| Surveillance.SurveillanceMonitor.constructor | src/pages/admin/Survelliance.jsx:7-15 | no refs, not streaming, "idle", no error, no session |
| Surveillance.SurveillanceMonitor.LoadSessionInfo | src/pages/admin/Survelliance.jsx:20-47 | the session becomes the loaded hand-off value when there is one and the page is still mounted; otherwise it is unchanged |
| Surveillance.SurveillanceMonitor.StartStream | src/pages/admin/Survelliance.jsx:52-125 | without a session only the missing-session error is set, checked before the streaming guard; a start while streaming does nothing; otherwise a fresh peer connection that stays open in `pcRef`, and success (streaming, `track_id` kept) or error (stream stopped and released, not streaming, connection not closed) |
| Surveillance.SurveillanceMonitor.Launch | src/pages/admin/Survelliance.jsx:60-124 | after the guards: "loading" with no error, a fresh open peer connection in `pcRef`, then the `try` block's outcome or the `catch` block's cleanup, which stops the stream but leaves the connection open |
| Surveillance.SurveillanceMonitor.Abandon | src/pages/admin/Survelliance.jsx:114-124 | the `catch` block: the message, "error", streaming off, and the stream stopped and released |
| Surveillance.SurveillanceMonitor.Negotiate | src/pages/admin/Survelliance.jsx:69-81 | camera, video element and playback; an acquired stream is held while later steps run |
| Surveillance.SurveillanceMonitor.Exchange | src/pages/admin/Survelliance.jsx:83-111 | tracks added, offer, local description, offer request, then the answer |
| Surveillance.SurveillanceMonitor.ApplyAnswer | src/pages/admin/Survelliance.jsx:104-113 | `track_id` is kept and "success" set only when the body parses and its description is accepted |
| Surveillance.SurveillanceMonitor.StopStream | src/pages/admin/Survelliance.jsx:130-168 | always releases the stream and the connection and ends "idle"; posts the stop only with a truthy track id; a parsed reply sends the page to "/admin/attendance"; a failure sets "Error stopping surveillance" |
| DataTable.FollowConcat | src/components/ui/DataTable.jsx:49 | following two key lists in a row is following their concatenation |
| DataTable.FollowNullish | src/components/ui/DataTable.jsx:49 | once null or undefined is reached, every further key gives undefined |
| DataTable.GetValueOneKey | src/components/ui/DataTable.jsx:48-51 | a path without a dot is one optional property read |
| DataTable.GetValueSteps | src/components/ui/DataTable.jsx:48-49 | `head.rest` reads `head` first, then follows `rest` |
| DataTable.GetValueStopsAtNullish | src/components/ui/DataTable.jsx:48-49 | a null or undefined first step makes the whole path undefined |
| DataTable.IsoDateStartIsPrefixTest | src/components/ui/DataTable.jsx:77 | the date test depends on the first eleven characters only |
| DataTable.RenderCell | src/components/ui/DataTable.jsx:54-96 | the status column is always a badge; a date cell holds the string it was given |
| DataTable.StatusCellRule | src/components/ui/DataTable.jsx:54-68 | a status cell is Active exactly for "active" and `true`, ahead of the date rule |
| DataTable.DateCellRule | src/components/ui/DataTable.jsx:75-86 | outside the status column, a cell is a date exactly for a string matching the ISO prefix |
| DataTable.PlainCellRule | src/components/ui/DataTable.jsx:94 | any other cell holds `value ?? "-"`: null and undefined show "-", 0 shows "0", "" and both booleans show nothing, a string shows itself, and an object or a file cannot be rendered |
| DataTable.ActionCellMatchesHeader | src/components/ui/DataTable.jsx:99 | a row has an action cell exactly when the header has the Action column; without `dynamicButtons` the row gets `buttons` |
| DataTable.HeaderCells | src/components/ui/DataTable.jsx:21-33 | one header cell per column, in order, plus "Action" exactly when buttons are given or `dynamicButtons` is |
| DataTable.RenderRow | src/components/ui/DataTable.jsx:39-115 | a null row throws; otherwise one cell per column, from that column's path, and an action cell exactly when the header has one |
| DataTable.RenderRows | src/components/ui/DataTable.jsx:39-117 | the row elements are created exactly when no row is null, one per item, in order |
| DataTable.RenderBody | src/components/ui/DataTable.jsx:38-127 | null or undefined table data throws; a `length` that fails `> 0` after conversion to a number shows the "No data available" row; a positive `length` on anything but a list throws at `map`; a list is shown only when every plain cell can be rendered |
| DataTable.EmptyTableRow | src/components/ui/DataTable.jsx:118-126 | an empty list shows exactly one row spanning every column plus one |
| DataTable.RowsAlignWithHeader | src/components/ui/DataTable.jsx:38-117 | a non-empty list without null rows makes one row per item, each as wide as the header, and the body shows them exactly when every plain cell can be rendered, else throws |
| DataTable.Mountable | src/components/ui/DataTable.jsx:89-96 | every plain cell of the created rows holds a value React can render |
| DataTable.ObjectCellBreaksBody | src/components/ui/DataTable.jsx:89-96 | an object or a file in any plain cell makes the whole body throw "Objects are not valid as a React child" |
| DataTable.StringLengthReachesMap | src/components/ui/DataTable.jsx:38-39 | an object whose `length` is the string "5" passes `length > 0` and throws at `map` |
| DataTable.IsChild | src/components/ui/DataTable.jsx:94 | the values React renders as a child: anything but objects and files, and arrays of such values |
| DataTable.ChildText | src/components/ui/DataTable.jsx:94 | the text React shows for a child; its cases are stated by PlainCellRule, ArrayOfOneChild and BooleansAroundChild |
| DataTable.ArrayOfOneChild | src/components/ui/DataTable.jsx:94 | a one-element array shows as its element |
| DataTable.BooleansAroundChild | src/components/ui/DataTable.jsx:94 | booleans inside an array show nothing |
| DataTable.ConcatAppend | src/components/ui/DataTable.jsx:94 | the text of two runs of children is the first run's text followed by the second's |
| DataTable.Follow | src/components/ui/DataTable.jsx:49 | the `reduce` over the keys; FollowConcat and FollowNullish state its properties |
| DataTable.GetValue | src/components/ui/DataTable.jsx:48-49 | `getValue`, stated by GetValueOneKey, GetValueSteps and GetValueStopsAtNullish |
| DataTable.IsIsoDateStart | src/components/ui/DataTable.jsx:77 | the regular expression, stated by IsoDateStartIsPrefixTest and DateCellRule |
| Records.ResourcePath | src/pages/admin/Records.jsx:13 | the store key is "chroma/records/", the session, "/" and the class |
| Records.ResourcePathSeparates | src/pages/admin/Records.jsx:13 | for sessions without '/', two keys are equal exactly when both session and class agree |
| Records.Records | src/pages/admin/Records.jsx:14 | the records are the stored value when truthy, `[]` when the key is missing |
| Records.MetadataField | src/pages/admin/Records.jsx:103-106 | a metadata column is a truthy field or "" |
| Records.FlattenRecordFields | src/pages/admin/Records.jsx:101-109 | a row copies `student_id` and `embedding_length`, defaults each metadata field and `root_folder` to ""; no metadata gives "" in all four |
| Records.FlattenRecord | src/pages/admin/Records.jsx:101-109 | one table row of a record; stated by FlattenRecordFields |
| Records.FlattenRecords | src/pages/admin/Records.jsx:101 | flattening a non-list or a null record is a TypeError |
| Records.FlattenKeepsOrder | src/pages/admin/Records.jsx:101-109 | flattening succeeds exactly on a list without null records, and keeps length and order |
| Records.UnfetchedShowsNothing | src/pages/admin/Records.jsx:14 | a collection the store does not hold shows no rows |
| Records.PayloadsCarryRow | src/pages/admin/Records.jsx:36-71 | both payloads carry the row's `student_id`, `session` and `class_name`; the update also carries the edited `root_folder` |
| Records.UpdatePayload | src/pages/admin/Records.jsx:36-41 | the update body; stated by PayloadsCarryRow |
| Records.DeletePayload | src/pages/admin/Records.jsx:67-71 | the delete body; stated by PayloadsCarryRow |
| Records.DeleteFailure | src/pages/admin/Records.jsx:74-90 | a network error fails with its message; otherwise the delete fails exactly when the reply is not ok |
| Records.DeleteFailureMessages | src/pages/admin/Records.jsx:87-90 | a validation error fails with `detail[0].msg`, or "Delete failed" when that is empty or `detail` is a string |
| Records.RecordPage.constructor | src/pages/admin/Records.jsx:10-20 | empty filters, no row, empty folder, both dialogs closed |
| Records.RecordPage.EditFilters | src/pages/admin/Records.jsx:143-150 | the two inputs set session and class |
| Records.RecordPage.HandleFetch | src/pages/admin/Records.jsx:22-25 | nothing is dispatched if a filter is empty; otherwise one fetch of the named collection |
| Records.RecordPage.OpenUpdateModal | src/pages/admin/Records.jsx:28-32 | the row is selected, the folder is `row.root_folder \|\| ""`, and the dialog opens |
| Records.RecordPage.EditRootFolder | src/pages/admin/Records.jsx:216 | the folder input sets the folder |
| Records.RecordPage.OpenDeleteModal | src/pages/admin/Records.jsx:59-62 | the row is selected and the dialog opens |
| Records.RecordPage.HandleUpdateSubmit | src/pages/admin/Records.jsx:34-56 | nothing happens without a row; otherwise one update is dispatched; success alerts, closes the dialog and re-fetches; failure alerts "Update failed: " and the reason |
| Records.RecordPage.HandleDeleteConfirm | src/pages/admin/Records.jsx:64-98 | nothing happens without a row; otherwise one DELETE with the row's identity; success alerts, closes the dialog and re-fetches; failure alerts "Delete failed: " and the reason |
| ReportCounts.CountStatus | src/pages/admin/Attendance.jsx:62-63 | a status count never exceeds the number of records |
| ReportCounts.StatusCount | src/pages/admin/Attendance.jsx:62-63 | the page's count succeeds exactly on a list of non-null records, and is the number with that exact status |
| ReportCounts.PresentAndAbsentBounded | src/pages/admin/Attendance.jsx:62-63 | present plus absent is at most the number of records |
| ReportCounts.CountStatusAll | src/pages/admin/Attendance.jsx:62-63 | a count reaches the number of records exactly when every record has that status |
| ReportCounts.CountStatusNone | src/pages/admin/Attendance.jsx:62-63 | a status that no record has counts zero |
| ReportCounts.CountAlerts | src/pages/admin/CourseReports.jsx:167 | the alert count is at most the number of logs |
| ReportCounts.CountAlertsAll | src/pages/admin/CourseReports.jsx:167 | every log counts exactly when every log's `alert_sent` is truthy |
| ReportCounts.AlertCount | src/pages/admin/CourseReports.jsx:167 | no logs gives 0; a list of logs gives the number of truthy `alert_sent`; anything else is a TypeError |
| ReportCounts.RollNumbers | src/pages/admin/CourseReports.jsx:185 | one `roll_no` per log, in order |
| ReportCounts.Distinct | src/pages/admin/CourseReports.jsx:185 | the set holds exactly the values of the list |
| ReportCounts.DistinctBounded | src/pages/admin/CourseReports.jsx:185 | at most as many distinct values as entries, and at least one for a non-empty list |
| ReportCounts.DistinctOfUnique | src/pages/admin/CourseReports.jsx:185 | a list without repeats has as many distinct values as entries |
| ReportCounts.UniqueStudents | src/pages/admin/CourseReports.jsx:185 | no logs gives 0; a list of logs gives the number of distinct roll numbers; anything else is a TypeError |
| ReportCounts.UniqueStudentsBounded | src/pages/admin/CourseReports.jsx:185 | the student count is at most the number of logs, and at least 1 when there are logs |
| AttendanceReport.SemesterNumberOfDigits | src/pages/admin/Attendance.jsx:38 | a semester `Number` reads as an integer (digits among them) is sent as that integer, and one it reads as NaN is sent as NaN |
| AttendanceReport.PayloadCarriesForm | src/pages/admin/Attendance.jsx:36-40 | the report request carries the class, the converted semester and the course |
| AttendanceReport.UnreadableSemesterSentAsNull | src/pages/admin/Attendance.jsx:36-40 | a semester `Number` reads as NaN or as an infinity goes into the JSON body as null |
| AttendanceReport.IntegerValuedSemesters | src/pages/admin/Attendance.jsx:38 | "2.0"-style and "1e3"-style semesters are sent as the integer they denote |
| AttendanceReport.SemesterNumber | src/pages/admin/Attendance.jsx:38 | `Number(semester)`, stated by SemesterNumberOfDigits and IntegerValuedSemesters |
| AttendanceReport.ReportPayload | src/pages/admin/Attendance.jsx:36-40 | the request body, stated by PayloadCarriesForm |
| AttendanceReport.CountsBounded | src/pages/admin/Attendance.jsx:62-63 | the present and absent counts together are at most the number of records |
| AttendanceReport.AttendanceReportPage.PresentCount | src/pages/admin/Attendance.jsx:62 | when it can be computed, the present count is over a list and at most its length |
| AttendanceReport.AttendanceReportPage.AbsentCount | src/pages/admin/Attendance.jsx:63 | when it can be computed, the absent count is over a list and at most its length |
| AttendanceReport.AttendanceReportPage.constructor | src/pages/admin/Attendance.jsx:15-22 | empty form, no result, no records, "idle", no error |
| AttendanceReport.AttendanceReportPage.EditForm | src/pages/admin/Attendance.jsx:89-102 | the three inputs set the three form fields |
| AttendanceReport.AttendanceReportPage.HandleFetch | src/pages/admin/Attendance.jsx:24-54 | an empty field sends nothing; otherwise one POST of the payload, then "success" with the result and `records \|\| []`, or "error" with the reply's message, the fallback, or a TypeError for a null body |
| AttendanceReport.AttendanceReportPage.Settle | src/pages/admin/Attendance.jsx:43-53 | a failure is shown as the error; a body is kept as the result; a null body is then a TypeError; otherwise its records are shown and the page succeeds |
| CourseReports.CourseQuery | src/pages/admin/CourseReports.jsx:22-25 | `course_name` always comes first; `semester` follows exactly when it is non-empty |
| CourseReports.CourseQueryKeys | src/pages/admin/CourseReports.jsx:22-25 | no key appears twice, and the semester pair is present exactly when the semester is non-empty |
| CourseReports.LogsRequest | src/pages/admin/CourseReports.jsx:27-33 | a GET of "/surveillance/courselogs" with that query |
| CourseReports.BlankCourseSendsNothing | src/pages/admin/CourseReports.jsx:16 | the trim guard rejects exactly the all-whitespace course names |
| CourseReports.CourseReportPage.Alerts | src/pages/admin/CourseReports.jsx:167 | no logs gives 0, and the alert count is at most the number of logs |
| CourseReports.CourseReportPage.Students | src/pages/admin/CourseReports.jsx:185 | no logs gives 0, and the student count is at most the number of logs |
| CourseReports.CourseReportPage.constructor | src/pages/admin/CourseReports.jsx:8-13 | empty form, no result, no logs, "idle", no error |
| CourseReports.CourseReportPage.EditForm | src/pages/admin/CourseReports.jsx:85-96 | the two inputs set course and semester |
| CourseReports.CourseReportPage.HandleFetch | src/pages/admin/CourseReports.jsx:15-45 | a blank course sends nothing; otherwise one GET with the query, then "success" with the result and `logs \|\| []`, or "error" with the reply's message, "Error fetching logs", or a TypeError for a null body |
| CourseReports.CourseReportPage.Settle | src/pages/admin/CourseReports.jsx:35-44 | a failure is shown as the error; a body is kept as the result; a null body is then a TypeError; otherwise its logs are shown and the page succeeds |
| StudentReports.StudentQuery | src/pages/admin/StudentReports.jsx:23-27 | `roll_no` always comes first; `course_name` and `semester` each appear exactly when non-empty, in that order |
| StudentReports.StudentQueryKeys | src/pages/admin/StudentReports.jsx:23-27 | no key appears twice; each optional key is present exactly when its field is non-empty |
| StudentReports.LogsRequest | src/pages/admin/StudentReports.jsx:29-35 | a GET of "/surveillance/studentlogs" with that query |
| StudentReports.BlankRollNumberSendsNothing | src/pages/admin/StudentReports.jsx:17 | the trim guard rejects exactly the all-whitespace roll numbers |
| StudentReports.DisplayNameFromFirstLog | src/pages/admin/StudentReports.jsx:142 | the name is the first log's truthy `user_name`; no logs, an empty list or a nameless first log shows "—" |
| StudentReports.DisplayName | src/pages/admin/StudentReports.jsx:142 | the name shown; stated by DisplayNameFromFirstLog |
| StudentReports.CourseShown | src/pages/admin/StudentReports.jsx:165 | the course is the reply's truthy `course_name`, else "All" |
| StudentReports.StudentReportPage.Alerts | src/pages/admin/StudentReports.jsx:183 | no logs gives 0, and the alert count is at most the number of logs |
| StudentReports.StudentReportPage.constructor | src/pages/admin/StudentReports.jsx:8-14 | empty form, no result, no logs, "idle", no error |
| StudentReports.StudentReportPage.EditForm | src/pages/admin/StudentReports.jsx:87-110 | the three inputs set roll number, course and semester |
| StudentReports.StudentReportPage.HandleFetch | src/pages/admin/StudentReports.jsx:16-47 | a blank roll number sends nothing; otherwise one GET with the query, then "success" with the result and `logs \|\| []`, or "error" with the reply's message, "Error fetching logs", or a TypeError for a null body |
| StudentReports.StudentReportPage.Settle | src/pages/admin/StudentReports.jsx:37-46 | a failure is shown as the error; a body is kept as the result; a null body is then a TypeError; otherwise its logs are shown and the page succeeds |
| JsStrings.TrimEmptyIffAllSpace | src/pages/admin/CourseReports.jsx:16 | `trim()` gives "" exactly for strings made only of whitespace |
| JsStrings.Split | src/components/ui/DataTable.jsx:49 | `split` gives at least one part, and none of the parts contains the separator |
| JsStrings.JoinSplit | src/components/ui/DataTable.jsx:49 | joining the parts of a split gives back the path |
| JsStrings.SplitJoin | src/components/ui/DataTable.jsx:49 | splitting a join of separator-free parts gives back the parts |
| JsStrings.SplitNoSeparator | src/components/ui/DataTable.jsx:49 | a string without the separator splits into itself |
| JsStrings.SplitConcat | src/components/ui/DataTable.jsx:49 | splitting `head.rest` gives `head` followed by the parts of `rest` |
| JsStrings.ParseIntAgreesWithNumberOnDigits | src/pages/admin/LiveAttendance.jsx:91 | on a string of decimal digits, `parseInt` and `Number` agree on the number it spells |
| JsStrings.ParseIntStopsWhereNumberFails | src/pages/admin/LiveAttendance.jsx:91 | on digits followed by text that starts with neither whitespace, a digit, '.', 'e' nor 'E', such as "3rd", `parseInt` reads the digits while `Number` gives NaN |
| JsStrings.ParseIntOfDecimal | src/pages/admin/LiveAttendance.jsx:91 | both conversions read back the decimal text of any natural number |
| JsValues.Or | src/pages/admin/Records.jsx:14 | `a \|\| b` is `a` when truthy and `b` otherwise |
| JsValues.Coalesce | src/components/ui/DataTable.jsx:94 | `a ?? b` is `b` exactly when `a` is null or undefined |
| JsValues.NumberValue | src/pages/admin/LiveAttendance.jsx:91 | a conversion that fails gives NaN, and one that succeeds gives its number |
| JsValues.OptGet | src/components/ui/DataTable.jsx:49 | `v?.[k]` is undefined on null and undefined, and `v[k]` otherwise |
| JsValues.GetIndex | src/pages/admin/StudentReports.jsx:142 | an array's element is read back by its decimal index, and `length` by its size |
| JsValues.StrictEqualsMeansEqualPrimitive | src/components/ui/DataTable.jsx:55 | `===` against a string or boolean holds exactly for that same value |
| JsValues.Merge | src/redux/slices/resourcesSLice.js:336 | an object spread keeps distinct keys |
| JsValues.GetMerge | src/redux/slices/resourcesSLice.js:344 | a key of the spread reads the second object's value when it has the key, and the first's otherwise |
| JsValues.OwnProps | src/redux/slices/resourcesSLice.js:26-27 | the own properties of an object, an array's indices with their elements, a string's indices with its characters, and nothing for other values |
| JsValues.Assign | src/redux/slices/resourcesSLice.js:344 | for keys that are not integer-like, setting one property keeps every existing key in place; a new key is added last exactly when no existing key equals it |
| JsValues.LookupAssign | src/redux/slices/resourcesSLice.js:344 | after setting a property, its key reads the new value and every other key reads as before |
| JsValues.Spread | src/redux/slices/resourcesSLice.js:336 | for keys that are not integer-like, `{...a, ...b}` keeps `a`'s keys first, in order |
| JsValues.LookupSpread | src/redux/slices/resourcesSLice.js:336 | a key of `{...a, ...b}` reads `b`'s value when `b` has the key, and `a`'s otherwise |
| JsValues.SpreadKeepsDistinct | src/redux/slices/resourcesSLice.js:336 | a spread of objects with distinct keys has distinct keys |
| JsValues.LookupFinds | src/components/ui/DataTable.jsx:49 | a property read finds a value exactly when some property has that key, and the value is that property's |
| JsValues.ArrayIndex | src/pages/admin/StudentReports.jsx:142 | a key names an array index only when it is a decimal numeral, and then names the number it spells |
| JsValues.ArrayIndexOfDecimal | src/pages/admin/StudentReports.jsx:142 | the decimal text of every index names that index |
| JsValues.DropUndefined | src/redux/slices/resourcesSLice.js:43 | `JSON.stringify` drops exactly the undefined properties: none remains, and an object without one is unchanged |
| JsValues.JsonifyKeepsJsonData | src/redux/slices/resourcesSLice.js:43 | a JSON round trip leaves JSON data unchanged |
| JsStrings.LeadingSpaces | src/pages/admin/CourseReports.jsx:16 | `trim()` drops exactly the leading run of whitespace |
| JsStrings.KeptLength | src/pages/admin/CourseReports.jsx:16 | `trim()` drops exactly the trailing run of whitespace |
| JsStrings.DigitPrefixLength | src/pages/admin/LiveAttendance.jsx:91 | `parseInt` reads the longest run of digits of the radix at the start |
| JsStrings.NatToDecimal | src/pages/admin/StudentReports.jsx:142 | the decimal text of a number is digits only, without a leading zero |
| JsStrings.DecimalRoundTrip | src/pages/admin/StudentReports.jsx:142 | the decimal text of a number reads back as that number |
| JsStrings.ParseIntStopsAtNonDigit | src/pages/admin/LiveAttendance.jsx:91 | `parseInt` of digits without a leading zero, followed by a non-digit, reads the digits alone |
| JsStrings.NumberRejectsTrailingText | src/pages/admin/Attendance.jsx:38 | `Number` of digits without a leading zero, followed by text that starts with neither whitespace, a digit, '.', 'e' nor 'E', is NaN |
| JsStrings.NumberOfPlainDigits | src/pages/admin/Attendance.jsx:38 | `Number` of decimal digits is the integer they spell |
| JsStrings.NumberOfZeroFraction | src/pages/admin/Attendance.jsx:38 | `Number` of digits, a point and zeros (such as "2.0") is the integer of the digits |
| JsStrings.NumberOfExponent | src/pages/admin/Attendance.jsx:38 | `Number` of digits, "e" and an exponent `k` is the digits' integer times ten to the `k` |
| JsStrings.NumberOfFraction | src/pages/admin/Attendance.jsx:38 | `Number` of digits, a point and one non-zero digit (such as "2.5") is a positive non-integer |
| JsStrings.ScaledDecimal | src/pages/admin/Attendance.jsx:38 | a digit string scaled by a power of ten is an integer or a non-integer, never NaN |
| JsStrings.ScaledExact | src/pages/admin/Attendance.jsx:38 | scaling up by `k` places and down again gives back the integer |
| JsStrings.Signed | src/pages/admin/Attendance.jsx:38 | the sign of a literal keeps an unsigned value unchanged, and keeps an integer an integer |
| JsStrings.MantissaRejects | src/pages/admin/Attendance.jsx:38 | after the integer digits, anything but '.', 'e', 'E' or the end is NaN |
| JsStrings.ExponentOfDigits | src/pages/admin/Attendance.jsx:38 | an unsigned exponent shifts the integer digits' value up |
| JsStrings.StringToNumber | src/pages/admin/Attendance.jsx:38 | `Number(s)` on a string; stated by the NumberOf lemmas, NumberRejectsTrailingText and ParseIntAgreesWithNumberOnDigits |
| JsStrings.ParseInt | src/pages/admin/LiveAttendance.jsx:91 | `parseInt(s)`; stated by ParseIntStopsAtNonDigit, ParseIntAgreesWithNumberOnDigits and ParseIntOfDecimal |
| JsStrings.Trim | src/pages/admin/CourseReports.jsx:16 | `trim()`; stated by TrimEmptyIffAllSpace, LeadingSpaces and KeptLength |
| JsValues.JsonifyIsJsonData | src/redux/slices/resourcesSLice.js:43 | `JSON.stringify` then parse always yields JSON data |
| JsValues.GetJsonified | src/redux/slices/resourcesSLice.js:43 | a field survives the JSON round trip, with NaN carried as null |
| JsValues.JsonifyIdempotent | src/redux/slices/resourcesSLice.js:43 | a second JSON round trip changes nothing |
| JsValues.LooseNumber | src/components/ui/DataTable.jsx:38 | the number a comparison such as `length > 0` converts a value to: a number is itself and a string is read by `Number` |
| JsValues.Get | src/components/ui/DataTable.jsx:49 | `v[k]`; stated by LookupFinds and GetIndex |
| JsValues.Jsonify | src/pages/admin/Attendance.jsx:36-40 | the JSON round trip of a request body; stated by JsonifyIsJsonData, GetJsonified and JsonifyIdempotent |
| JsValues.StrictEquals | src/components/ui/DataTable.jsx:55 | `===`; stated by StrictEqualsMeansEqualPrimitive |
| JsValues.ToJsString | src/redux/slices/resourcesSLice.js:35 | `String(v)`, as `FormData.append` and template literals apply it |

## Left out

- Networking, `fetch` headers and URLs, and JSON and URL text: a reply is an input. A body is a `Value` rather than its text. A query is a list of key and value pairs rather than its percent-encoded form.
- Numbers are unbounded integers (plus NaN), not IEEE doubles. The double range and precision are not modelled: there is no overflow to Infinity, no underflow to 0 and no rounding. `Number` of a string tells an integer, a non-integer and an infinity (the literal `Infinity` only) apart, with their signs, but carries no fraction's value. No path of the console computes with numbers other than the counts.
- JsStrings.StringToNumber: reads the decimal value exactly. JavaScript rounds it to a double, so "1e400" (Infinity in JavaScript) is an integer here, "1e-400" (0 in JavaScript) is a non-integer, and integers past 2^53 keep digits JavaScript drops.
- JsStrings.ScaledDecimal: the same exact reading. A scaled literal is always an integer or a non-integer here, where JavaScript may overflow to Infinity or underflow to 0.
- JsStrings.ExponentOfDigits: the same exact reading, with an exponent of any size shifting the value and never giving Infinity.
- JsStrings.NumberOfExponent: holds only while the value stays within the double range and below 2^53, because past that `Number` gives Infinity or a rounded value.
- JsStrings.ParseInt: reads any number of digits exactly, where JavaScript rounds past 2^53 and gives Infinity for 309 or more digits.
- LiveAttendance.SemesterField: inherits ParseInt's exact reading, so a huge semester is sent as its exact integer rather than as a rounded double or null.
- AttendanceReport.IntegerValuedSemesters: holds only while the semester's value stays within the double range and below 2^53. "1e400" is sent as 10^400 here, where the page sends Infinity, which JSON writes as null.
- AttendanceReport.SemesterNumber: a semester that `Number` reads as a fraction, such as "2.5", is sent as NaN (null in the JSON body), where the page sends 2.5. Integer forms ("2", "2.0", "1e3") are sent as the integer, as in the page. The double range is not modelled either (see StringToNumber): a semester past it is sent as an integer where the page sends null.
- AttendanceReport.SemesterNumberOfDigits: states integer and NaN semesters only, because fractional semesters are not carried (see the line above).
- AttendanceReport.AttendanceReportPage.HandleFetch: the request it records carries SemesterNumber, so a fractional semester is recorded as NaN (see above).
- JsValues.Assign: JavaScript lists integer-like keys ("0", "42") first, in numeric order, whatever order they were added in; the model keeps insertion order for every key. The console's keys are field names and `_id`s, never integer-like, and for those the model's order is JavaScript's.
- JsValues.Spread: the same key order as Assign, for the same reason.
- JsValues.Get: reads own properties only. Inherited properties and methods such as `constructor` and `toString` read as undefined where JavaScript finds the prototype's; the console reads only data fields.
- DataTable.ChildText: fractional numbers are not modelled (see above), so a number shows as its integer text.
- TypeError messages are one placeholder text. Their wording differs between browsers.
- The WebRTC and camera APIs: streams and peer connections are reduced to live-track flags, a closed flag and a sender count. Each awaited step succeeds or fails according to a `StartOracle`. SDP contents are not modelled.
- The 50 ms wait for the video element, `video.pause()` and `srcObject`: timing and rendering. The video element's presence after the wait is an oracle field.
- Async interleaving and React batching. Each handler runs to completion with its awaited outcomes given up front, and state setters take effect at once. Overlapping starts and stops are not modelled.
- `window.confirm` is a boolean input and `window.location.href` a recorded destination. `localStorage` is a map of stored items.
- The Redux Toolkit machinery (`createAsyncThunk`, immer drafts, `unwrap`): each reducer case is a transition on the state record, and a throwing case leaves the store unchanged. The thunks' requests are not modelled. The records page records which thunks it dispatches, and the outcome of the update thunk is an input.
- `formatDate` and the attendance percentage: date and locale formatting, and floating-point division. A date cell keeps the ISO text it would format.
- Rendering: JSX, CSS classes, headings and the modal dialogs' Cancel buttons, which only close a dialog.
- DataTable.RowButtons: `dynamicButtons` is a function that always returns a list of buttons. One that returned a non-array would throw at `rowButtons.length`, and the model cannot express that; the records page, the one caller that passes it, always returns an array.
- Strings are sequences of characters. UTF-16 code units are not modelled, so `length` and indices are per character.
- JavaScript objects with duplicate keys cannot arise from JSON or literals. Property lookup takes the first occurrence.
- Records.RecordPage.OpenUpdateModal: requires a non-null row. The table only passes rows that are objects. A null row would throw at `row.root_folder`, and that case is not modelled.
- ReportCounts.UniqueStudents: `new Set` compares objects and arrays by identity, while the model compares values structurally. This does not change the count for roll numbers that are strings or numbers.
- Surveillance.AnswerFailure: the browser's verdict on a description without an `sdp` is the `setRemote` oracle outcome. The model does not decide it.

## Findings

| source | as written | input that shows it | evidently intended | confidence | as-written member | corrected member |
|---|---|---|---|---|---|---|
| src/pages/admin/LiveAttendance.jsx:305-311 | the results table is handed `attendanceResult.attendance_data` unchecked, and the stop reply's JSON is stored whatever its status | a stop reply `{"detail": "Not Found"}`: the result is truthy with no `attendance_data`, so `tableData.length` throws | show the table over `attendance_data` when it is a list and over an empty list otherwise, as the report pages do with `records \|\| []` and `logs \|\| []` | not executed | LiveAttendance.ResultsTableAsWritten | LiveAttendance.ResultsTable |
