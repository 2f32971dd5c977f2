# HotelRover housekeeping: a verified model

HotelRover is a hotel-operations web application. It has an Express/Mongoose
server and a React client. This project models its cleaning-assignment
lifecycle in Dafny and proves properties of that model. The lifecycle is:

- a manager assigns a room to a housekeeper, which creates an assignment;
- the assignment is started, then completed; its minutes are recorded;
- the minutes are summed per housekeeper in a report.

The model covers both sides. Each member follows the code as written, except the handlers whose defects are listed under "## Findings". For each of those, a separate as-written member exhibits the defect, and the handler itself models the corrected behaviour: `AssignmentRoutes.AssignmentCollection.PatchStatus`, `RoomRoutes.RoomStore.Create`, `HotelsPage.HotelsBoard.UpdateHotel`, `HotelsPage.HotelsBoard.DeleteHotel` and `HotelsPage.HotelsBoard.AddRoom`. The parts covered are:

- **Server**:
  - the `/assignments` routes: create, status patch, start, complete, listing and the report fold;
  - the Assignment schema.
- **Client**:
  - the assignment board (`AssignmentsPage`): start/finish on the in-memory list, the active-flag map, the incremental report table and the button rules, over a list given to the board (as written the page never loads one; see "## Left out").
- **Record rules and list transforms around the lifecycle**:
  - the housekeeper panel that posts new assignments and edits housekeepers;
  - the housekeeper routes: a unique email on create, a dual Housekeeper+User insert, and an update that never touches the password;
  - the room routes and the Room schema;
  - the room panel, with its amenity checkboxes;
  - the Hotel schema;
  - the hotels page and the housekeepers page, with their searches and list updates.

Conventions used throughout:

- Times are integer milliseconds, and "now" is always a parameter.
- Ids are strings; `""` is JavaScript's falsy "no id".
- Ids the database would assign are parameters, with a freshness precondition.
- A database table is a class field: the assignments as a sequence in natural order, housekeepers and rooms as maps.
- A route is a method returning a `Reply`: a status code with a body, or a status code with an error message.
- A React handler is a method on a class holding the component's state fields. A service call it awaits becomes a parameter saying whether the call succeeded and what it returned.

Modules, one per source file, plus three shared ones:

- `Common`: ids, `Option`, `Reply`, `Math.round`/truncating division, `Array.prototype.filter`.
- `Durations`: minutes on the server and on the client.
- `Text`: `toLowerCase`, `includes`, `trim`.
- `AssignmentSchema`, `AssignmentReports`, `AssignmentRoutes`, `AssignmentsPage`, `HousekeeperManagement`, `HousekeeperRoutes`, `RoomSchema`, `RoomRoutes`, `RoomManagement`, `HotelSchema`, `HotelsPage`, `HousekeepersPage`.

## Where the code and the design description differ

The model follows the code in each case below.

- **Start and complete.** The design forbids starting anything but a "Dirty" assignment and finishing anything but an "In Progress" one. The routes check no status at all (`AssignmentCollection.Start`, `.Complete`).
- **Elapsed minutes.** The design rounds them to the nearest minute. The server does, but the client board drops the fraction: 47.5 minutes is 48 on the server and 47 on the client (`Durations.HalfMinuteExample`).
- **What the report counts.** The design counts "Clean" and "Inspected" work in a start-time window. The route counts only "Clean" rows, in a `createdAt` window.
- **Report order.** The design calls the report order-insensitive. The route lists housekeepers in first-seen order (`Object.values` of the accumulator), and the model keeps that order.

## Model

| member | source | states |
|---|---|---|
| Common.RoundDivBounds | project-main/server/routes/assignments.js:190-192 | the rounded quotient is the integer nearest to the true quotient, a half going up as Math.round does |
| Common.TruncDivBounds | project-main/project/src/pages/AssignmentsPage.tsx:64-67 | the truncated quotient times the divisor lies between 0 and the dividend and less than one divisor away from it, rounding towards zero |
| Durations.RoundedMinutesNearest | project-main/server/routes/assignments.js:138-140 | the server's minutes for a span are the nearest whole minute, halves rounding up |
| Durations.WholeMinutesTruncates | project-main/project/src/pages/AssignmentsPage.tsx:63-67 | the client's minutes for a span are the whole minutes in it, the fraction dropped towards zero |
| Durations.RoundedVersusWhole | project-main/server/routes/assignments.js:138-140 | when the end is not before the start, server minutes exceed client minutes by exactly 1 when at least half a minute is left over, else they agree |
| Durations.HalfMinuteExample | project-main/project/src/pages/AssignmentsPage.tsx:64-67 | 47 min 30 s gives 48 on the server and 47 on the client |
| AssignmentSchema.Instantiate | project-main/server/models/Assignment.js:3-42 | a document saves iff the three references and `task` are non-empty and the status, if given, is in the enum. The saved record is valid, takes the given fields, and defaults status to "Dirty", minutes to 0 and createdAt to now |
| AssignmentSchema.IndexOf | project-main/server/routes/assignments.js:131-135 | the lookup by id finds the first row with that id, and finds nothing iff no row has it |
| AssignmentReports.StepKeepsCoherent | project-main/server/routes/assignments.js:175-194 | one reducer call keeps the key order and the accumulator in step: each key once, each entry under its own id |
| AssignmentReports.AccumulateCoherent | project-main/server/routes/assignments.js:175-194 | the whole fold keeps that invariant |
| AssignmentReports.StepOnKey | project-main/server/routes/assignments.js:178-191 | a reducer call creates or updates only the current housekeeper's entry: count+1, minutes+current, average re-rounded |
| AssignmentReports.AccumulateMatchesCounts | project-main/server/routes/assignments.js:175-194 | a housekeeper has an entry iff some counted row is theirs. The entry's totalRooms is their row count, totalTime their minute sum, averageTime the rounded quotient; the divisor is never 0 |
| AssignmentReports.OwnerHasEntry | project-main/server/routes/assignments.js:175-194 | every owner of a counted row gets an entry |
| AssignmentReports.CountPositive | project-main/server/routes/assignments.js:187 | a row's owner has a positive count |
| AssignmentReports.Values | project-main/server/routes/assignments.js:196 | Object.values lists one entry per key, in key order |
| AssignmentReports.ValuesMatchCounts | project-main/server/routes/assignments.js:175-196 | the reply lists distinct housekeepers, each with count ≥ 1, minute sum and rounded average matching the rows, and lists every owner of a row |
| AssignmentReports.Reduce | project-main/server/routes/assignments.js:175-194 | the in-place reduce over the rows computes the left fold |
| AssignmentReports.Aggregate | project-main/server/routes/assignments.js:175-196 | the report equals Object.values of the fold, with the count/sum/average properties above |
| AssignmentRoutes.Fields | project-main/server/routes/assignments.js:62-71 | the built document defaults status to "Dirty", start to now and minutes to 0, and passes the end time through |
| AssignmentRoutes.CreateReply | project-main/server/routes/assignments.js:26-80 | 400 iff a required field is falsy. Then the first missing of housekeeper, room and hotel gives its 404. A status given but outside the enum gives 500 "Error creating assignment". Otherwise 201 with a valid record of the given fields and defaults |
| AssignmentRoutes.Started | project-main/server/routes/assignments.js:109-116 | start sets "In Progress" and start time now, whatever the prior status, and nothing else |
| AssignmentRoutes.Completed | project-main/server/routes/assignments.js:137-144 | complete sets "Clean", end time now and the rounded minutes since start, and nothing else |
| AssignmentRoutes.PatchedAsWritten | project-main/server/routes/assignments.js:85-94 | the status patch always sets the status (any string), and sets end time and minutes only when truthy; 0 minutes never overwrite |
| AssignmentRoutes.PatchAsWrittenLeavesEnum | project-main/server/routes/assignments.js:86-94 | as written, the patch turns a valid record into one whose status is outside the enum |
| AssignmentRoutes.PatchChecked | project-main/server/routes/assignments.js:86-102 | with validators the patch is refused iff the status is outside the enum, and otherwise keeps a valid record valid |
| AssignmentRoutes.AssignmentCollection.Create | project-main/server/routes/assignments.js:26-80 | replies CreateReply, inserts exactly one row on success and nothing otherwise, and keeps ids unique and rows valid |
| AssignmentRoutes.AssignmentCollection.Start | project-main/server/routes/assignments.js:107-126 | 404 "Assignment not found" with no write for an unknown id. Otherwise only that row becomes Started |
| AssignmentRoutes.AssignmentCollection.Complete | project-main/server/routes/assignments.js:129-151 | 404 with no write for an unknown id. Otherwise only that row becomes Completed, field by field |
| AssignmentRoutes.AssignmentCollection.PatchStatus | project-main/server/routes/assignments.js:83-104 | corrected handler (see ## Findings), with the enum enforced: 500 for a status outside the enum, 404 for an unknown id, otherwise only that row is patched |
| AssignmentRoutes.AssignmentCollection.List | project-main/server/routes/assignments.js:202-237 | 404 "No assignments found" iff no row matches. Otherwise exactly the matching rows, each as often as it is stored, in stored order. Each given parameter constrains; the start-time window applies only with both bounds |
| AssignmentRoutes.AssignmentCollection.Reports | project-main/server/routes/assignments.js:154-200 | the report over the "Clean" rows passing the query: one entry per housekeeper, none listed twice, with count, minute sum and rounded average; every counted owner is listed |
| AssignmentsPage.MarkStarted | project-main/project/src/pages/AssignmentsPage.tsx:44-55 | starting changes only entries with the id: "In Progress" and start now. Length and all other entries unchanged |
| AssignmentsPage.MarkFinished | project-main/project/src/pages/AssignmentsPage.tsx:69-81 | finishing changes only entries with the id: "Clean", end now and the given minutes |
| AssignmentsPage.Timed | project-main/project/src/pages/AssignmentsPage.tsx:90-94 | the housekeeper's entries that already carry minutes, each as often as it occurs in the list |
| AssignmentsPage.ReportAfterFinish | project-main/project/src/pages/AssignmentsPage.tsx:84-103 | the housekeeper's total grows by exactly the minutes, from 0 if absent. The average's divisor is their timed entries + 1 ≥ 1. Other housekeepers' entries are unchanged |
| AssignmentsPage.ButtonsFor | project-main/project/src/pages/AssignmentsPage.tsx:183-210 | Start shows iff not "Clean" and not active. Finish shows iff active. Completed shows iff "Clean". Start and Finish never show together |
| AssignmentsPage.AssignmentsBoard.StartCleaning | project-main/project/src/pages/AssignmentsPage.tsx:43-57 | the list becomes MarkStarted, the id's active flag becomes true, the reports stay |
| AssignmentsPage.FinishTarget | project-main/project/src/pages/AssignmentsPage.tsx:60-61 | the entry finished is the first with the id. There is none iff no entry has the id or that entry has no start time |
| AssignmentsPage.AssignmentsBoard.FinishCleaning | project-main/project/src/pages/AssignmentsPage.tsx:59-106 | a complete no-op when the id is absent or its first entry has no start time. Otherwise the list becomes MarkFinished with the whole minutes since start, the report becomes ReportAfterFinish, and the flag becomes false |
| AssignmentsPage.StartThenFinishButtons | project-main/project/src/pages/AssignmentsPage.tsx:183-210 | after Start only Finish shows; after Finish only Completed shows |
| AssignmentsPage.FinishVersusServerComplete | project-main/project/src/pages/AssignmentsPage.tsx:63-81 | the page's finished record equals the server's completed one except for the minutes. The server's minutes are one higher exactly when half a minute or more is left over |
| HousekeeperManagement.BlankForm | project-main/project/src/components/HousekeeperManagement.tsx:124-132 | the reset form has empty name, email, contact and password, is active, and has the hotel's id |
| HousekeeperManagement.Merged | project-main/project/src/components/HousekeeperManagement.tsx:84-87 | the form's fields over the edited record, keeping its `_id` |
| HousekeeperManagement.ReplaceById | project-main/project/src/components/HousekeeperManagement.tsx:94-100 | entries with the updated `_id` become the updated record. Length and other entries unchanged |
| HousekeeperManagement.FindById | project-main/project/src/components/HousekeeperManagement.tsx:397-401 | the first housekeeper with the id, or none iff no housekeeper has it |
| HousekeeperManagement.AsRequest | project-main/server/routes/assignments.js:28-37 | what the create route reads from the panel's payload: `_id` ignored, the empty end time as no end time |
| HousekeeperManagement.HousekeeperPanel.BeginEdit | project-main/project/src/components/HousekeeperManagement.tsx:342-353 | the record becomes the edited one and fills the form |
| HousekeeperManagement.HousekeeperPanel.Submit | project-main/project/src/components/HousekeeperManagement.tsx:79-133 | editing + success: replace by `_id` with the merged record and leave editing. Adding + success: append the created housekeeper. Failure: list and editing unchanged. In all cases the form resets |
| HousekeeperManagement.HousekeeperPanel.SelectHousekeeper | project-main/project/src/components/HousekeeperManagement.tsx:396-401 | the selection is FindById: the first listed housekeeper with that id, or none iff no housekeeper has it |
| HousekeeperManagement.HousekeeperPanel.AssignRoom | project-main/project/src/components/HousekeeperManagement.tsx:134-174 | a payload is posted iff housekeeper, room and hotel id are all set. It carries "Room Cleaning", "Dirty", start now, end "", 0 minutes and the three ids. Only after a successful post are the modal closed and the selections cleared |
| HousekeeperManagement.AssignRoomPayloadAccepted | project-main/project/src/components/HousekeeperManagement.tsx:140-150 | the server accepts the panel's payload iff the housekeeper, room and hotel exist. It then stores a "Dirty" assignment started at the client's clock, with no end and 0 minutes |
| HousekeeperRoutes.NewAccount | project-main/server/routes/housekeeperRoutes.js:22-46 | the saved record carries the bcrypt digest (cost 10) of the password, never the plaintext, plus role "Housekeeper" and the given fields |
| HousekeeperRoutes.Updated | project-main/server/routes/housekeeperRoutes.js:109-116 | the update replaces name, email, contact, hotel and isActive, and never touches the password or the role |
| HousekeeperRoutes.OfHotel | project-main/server/routes/housekeeperRoutes.js:72-74 | exactly the housekeepers of that hotel |
| HousekeeperRoutes.HousekeeperDirectory.Create | project-main/server/routes/housekeeperRoutes.js:8-54 | a taken email gives 400 with no write. Otherwise the same record is inserted into both tables and returned with 201 |
| HousekeeperRoutes.HousekeeperDirectory.ListByHotel | project-main/server/routes/housekeeperRoutes.js:67-89 | 404 iff no housekeeper has that hotel id, otherwise exactly that hotel's housekeepers |
| HousekeeperRoutes.HousekeeperDirectory.Update | project-main/server/routes/housekeeperRoutes.js:107-126 | 404 with no write for an unknown id. Otherwise only that record is Updated. Users are untouched |
| HousekeeperRoutes.HousekeeperDirectory.Delete | project-main/server/routes/housekeeperRoutes.js:129-143 | 404 with no write for an unknown id, otherwise the record is removed. The users record stays |
| HousekeeperRoutes.CreateKeepsEmailsDistinct | project-main/server/routes/housekeeperRoutes.js:14-35 | the duplicate check keeps housekeeper emails distinct |
| HousekeeperRoutes.UpdateCanDuplicateEmail | project-main/server/routes/housekeeperRoutes.js:109-116 | update checks nothing, so it can give two housekeepers the same email |
| RoomSchema.Instantiate | project-main/server/models/Room.js:3-49 | a room saves iff hotel and number are given, the type is in its enum, floor/capacity/price are given, capacity ≥ 1, price ≥ 0 and the status, if given, is in its enum. Defaults: "Available", no amenities, no housekeeper, created now |
| RoomRoutes.Fields | project-main/server/routes/rooms.js:56-65 | the built room holds exactly the body's fields |
| RoomRoutes.CreateReply | project-main/server/routes/rooms.js:22-88 | roles other than SuperAdmin/Admin/Manager are refused. Any falsy field gives 400 "Missing required fields", including price 0 and floor 0. A schema failure gives 400 "Validation failed". Otherwise 201 with exactly the body's fields |
| RoomRoutes.CreateAsWritten | project-main/server/routes/rooms.js:72-86 | as written, no reply iff the corrected route would answer "Validation failed"; otherwise the same reply |
| RoomRoutes.NegativePriceGetsNoReply | project-main/server/routes/rooms.js:43-80 | price -5 passes the falsy check and fails the schema; as written it gets no reply |
| RoomRoutes.FreeRoomValidButRefused | project-main/server/routes/rooms.js:43-53 | a price-0 room satisfies the schema, yet create refuses every body with price 0 |
| RoomRoutes.Patched | project-main/server/routes/rooms.js:97-100 | exactly the sent fields are replaced, the assigned housekeeper and creation time included, and a valid patch keeps a valid room valid |
| RoomRoutes.UpdateReassigns | project-main/server/routes/rooms.js:97-100 | a valid patch carrying only the housekeeper and the creation time reassigns (or clears) the housekeeper and back-dates the room, which stays valid |
| RoomRoutes.RoomStore.Create | project-main/server/routes/rooms.js:22-88 | corrected handler (see ## Findings): replies CreateReply, stores the room only on success, and keeps every stored room valid |
| RoomRoutes.RoomStore.Update | project-main/server/routes/rooms.js:91-109 | 403 for other roles. An invalid patch gives 500 before the lookup. An unknown id gives 404. Otherwise only that room is patched, and stored rooms stay valid |
| RoomRoutes.RoomStore.Delete | project-main/server/routes/rooms.js:112-127 | 403 for other roles; 404 with no change for an unknown id; otherwise exactly that room is removed |
| RoomRoutes.RoomStore.Assign | project-main/server/routes/rooms.js:130-152 | 403 for other roles; 404 for an unknown room; otherwise only assignedHousekeeper changes |
| RoomManagement.FormOf | project-main/project/src/components/RoomManagement.tsx:357-368 | the Edit button fills the form with the room's fields |
| RoomManagement.Toggle | project-main/project/src/components/RoomManagement.tsx:250-263 | checking appends the amenity at the end. Unchecking removes every copy and keeps the others in order with their multiplicities. The box shows checked afterwards iff it was checked |
| RoomManagement.ToggleRoundTrip | project-main/project/src/components/RoomManagement.tsx:249-263 | checking an unchecked amenity and unchecking it again restores the list |
| RoomManagement.AsBody | project-main/project/src/components/RoomManagement.tsx:60-63 | the create body is the form plus the hotel's id |
| RoomManagement.AsPatch | project-main/project/src/components/RoomManagement.tsx:60-68 | the update patch sends every form field plus the hotel's id, and neither the housekeeper nor the creation time |
| RoomManagement.FormEditKeepsAssignment | project-main/project/src/components/RoomManagement.tsx:60-68 | an edit from the room panel leaves the assigned housekeeper and the creation time as stored |
| RoomManagement.RoomPanel.BeginEdit | project-main/project/src/components/RoomManagement.tsx:357-368 | editing the room, with the form filled from it |
| RoomManagement.RoomPanel.CancelEdit | project-main/project/src/components/RoomManagement.tsx:285-296 | leaves editing and resets the form to the defaults |
| RoomManagement.RoomPanel.ToggleAmenity | project-main/project/src/components/RoomManagement.tsx:250-263 | only the form's amenities change, by Toggle; checked afterwards iff checked |
| RoomManagement.RoomPanel.Submit | project-main/project/src/components/RoomManagement.tsx:57-92 | update iff editing, else create. After success: editing cleared, form reset to "", Standard, floor 1, capacity 2, price 0, Available, no amenities, list reloaded. After failure nothing changes |
| RoomManagement.DefaultPriceRefused | project-main/project/src/components/RoomManagement.tsx:30-38 | a form whose price is left at its default 0 is never created by the server, whatever else it holds |
| Text.Lower | project-main/project/src/pages/HotelsPage.tsx:138-139 | an ASCII capital becomes its small letter, anything else stays |
| Text.LowerCase | project-main/project/src/pages/HotelsPage.tsx:138-139 | same length, each character lowered |
| Text.LowerCaseIdempotent | project-main/project/src/pages/HousekeepersPage.tsx:21-22 | lowering twice equals lowering once |
| Text.Includes | project-main/project/src/pages/HotelsPage.tsx:138-139 | true iff the term occurs at some position; the empty term occurs everywhere |
| Text.Trim | project-main/server/models/Hotel.js:4-8 | the slice between leading and trailing white space, with no white space at either end, empty iff all white space |
| Text.Leading | project-main/server/models/Hotel.js:7 | counts the leading white space, stopping at the first other character |
| Text.Trailing | project-main/server/models/Hotel.js:7 | counts the trailing white space, stopping at the last other character |
| Text.TrimIdempotent | project-main/server/models/Hotel.js:7 | trimming a stored name again changes nothing |
| HotelSchema.Instantiate | project-main/server/models/Hotel.js:3-51 | a hotel saves iff its name is not all white space, every other required string is given and totalRooms ≥ 1. The stored name is the trimmed one, and createdAt is now |
| HotelsPage.CanManageHotels | project-main/project/src/pages/HotelsPage.tsx:134 | true iff the user is a SuperAdmin or an Admin; every such user may also manage rooms |
| HotelsPage.FilteredHotels | project-main/project/src/pages/HotelsPage.tsx:136-140 | keeps a hotel iff its lower-cased name or address includes the lower-cased term. Order is preserved, and the empty term keeps all |
| HotelsPage.ReplaceAsWritten | project-main/project/src/pages/HotelsPage.tsx:82-84 | as written, the update keys on `hotel.id`, and leaves a loaded list unchanged |
| HotelsPage.RemoveAsWritten | project-main/project/src/pages/HotelsPage.tsx:94 | as written, the delete keeps exactly the hotels whose `id` property differs |
| HotelsPage.RemoveAsWrittenKeepsAll | project-main/project/src/pages/HotelsPage.tsx:94 | as written, deleting from a loaded list removes nothing |
| HotelsPage.ReplaceById | project-main/project/src/pages/HotelsPage.tsx:82-84 | hotels with that `_id` become the returned hotel, others stay |
| HotelsPage.RemoveById | project-main/project/src/pages/HotelsPage.tsx:94 | exactly the hotels with another `_id` remain, in order |
| HotelsPage.UpdateReachesLoadedHotel | project-main/project/src/pages/HotelsPage.tsx:82-84 | on a loaded hotel the as-written update changes nothing while the `_id`-keyed one does |
| HotelsPage.WithRoom | project-main/project/src/pages/HotelsPage.tsx:114-124 | the room is appended to the rooms of the hotel with that `_id` (missing rooms read as empty); other hotels and other fields stay |
| HotelsPage.HotelsBoard.AddHotel | project-main/project/src/pages/HotelsPage.tsx:65-74 | a created hotel is appended and the dialog closes; a failure changes nothing |
| HotelsPage.HotelsBoard.UpdateHotel | project-main/project/src/pages/HotelsPage.tsx:76-89 | corrected handler (see ## Findings): the list becomes ReplaceById on success, unchanged on failure |
| HotelsPage.HotelsBoard.DeleteHotel | project-main/project/src/pages/HotelsPage.tsx:91-99 | corrected handler (see ## Findings): the list becomes RemoveById on success, unchanged on failure |
| HotelsPage.HotelsBoard.AddRoom | project-main/project/src/pages/HotelsPage.tsx:101-132 | corrected handler (see ## Findings): the list becomes WithRoom when a room comes back; otherwise nothing changes |
| HotelsPage.CreateHotelReply | project-main/server/routes/hotels.js:18-28 | POST /hotels replies 201 with a schema-valid hotel iff the posted fields instantiate one; otherwise 500 "Error creating hotels" |
| HotelsPage.AddRoomAsWrittenRefused | project-main/project/src/pages/HotelsPage.tsx:110 | the request handleAddRoom sends as written builds a hotel with no fields, which fails validation, so the reply is the 500 and the list stays as it was |
| HousekeepersPage.FilteredHousekeepers | project-main/project/src/pages/HousekeepersPage.tsx:20-27 | keeps a housekeeper iff name or email includes the term case-insensitively and it passes the status choice. Order is preserved. An empty term with 'all' keeps the list unchanged |
| HousekeepersPage.ChoicesPartition | project-main/project/src/pages/HousekeepersPage.tsx:23-25 | for any search, the 'active' and 'inactive' results add up to the 'all' result |

## Left out

- HTTP and persistence plumbing is not modelled: the axios client, the Express/Mongo bootstrap, `populate`/`select`, and the 500 replies for database failures. Tables are in-memory.
- The `auth` and `checkRole` middleware are not part of this model. A refused role is a 403 reply whose message is not modelled.
- Mongoose's casting of malformed ids and dates (a CastError, which becomes a 500 reply) is not modelled. Ids and times are well-formed values.
- Numbers are whole numbers: fractional prices, floors and minutes are not modelled.
- The client's `averageTime` float division (and its display rounding) is kept as a numerator/denominator pair.
- bcrypt is a symbolic digest: it records the cost factor and the secret, and nothing of its cryptography.
- Each React handler is one sequential step. Render timing, state batching and stale closures are not modelled.
- Rendering and logging are not modelled.
- The `/housekeepers/:id` GET route is not modelled: it has the same path shape as `/housekeepers/:hotelId`, which Express matches first, so it is unreachable.
- The unfiltered GET routes are not modelled: `/housekeepers`, `/rooms/hotel/:hotelId` and `/assignments/housekeeper/:housekeeperId` (project-main/server/routes/assignments.js:12-24) are plain reads.
- `hotels.js` (plain CRUD) is not part of this model, apart from the create route's reply (`HotelsPage.CreateHotelReply`), which the add-room finding reaches. Neither are the hotel forms (float parsing of coordinates) or the hotels' latitude/longitude fields.
- `HousekeeperRoutes.HousekeeperDirectory.ListByHotel`: returns the hotel's housekeepers as a map, so the database's result order is not modelled.
- `HousekeeperRoutes.HousekeeperDirectory.Update`: assumes all five fields are sent. Mongoose's handling of fields left undefined is not modelled.
- The Housekeeper and User schemas are not part of this model. Their validators (and a possible unique index on email) are not modelled, so a users insert never fails here.
- `Text.Lower`: lowers only the ASCII letters. JavaScript's full Unicode case mapping is not modelled.
- `Text.Trim`: strips the ASCII white space, no-break space, the line and paragraph separators (U+2028, U+2029) and the byte-order mark. The other Unicode space separators (category Zs, such as U+1680 and U+2000-U+200A, U+202F, U+205F, U+3000) that `String.prototype.trim` also removes are not modelled.
- `AssignmentRoutes.AssignmentCollection.PatchStatus`: models the corrected route, which enforces the status enum. As written any string is stored as the status (`AssignmentRoutes.PatchAsWrittenLeavesEnum`, see ## Findings).
- `HotelsPage.HotelsBoard.UpdateHotel`: models the corrected handler, keyed on `_id`. As written the handler compares `hotel.id`, so a loaded list never changes (`HotelsPage.ReplaceAsWritten`, see ## Findings).
- `HotelsPage.HotelsBoard.DeleteHotel`: models the corrected handler, keyed on `_id`. As written the handler compares `hotel.id`, so it removes nothing from a loaded list (`HotelsPage.RemoveAsWrittenKeepsAll`, see ## Findings).
- `HotelsPage.HotelsBoard.AddRoom`: models the corrected handler, with the created room as a parameter. As written the request goes to hotel creation and always fails, so the list never changes (`HotelsPage.AddRoomAsWrittenRefused`, see ## Findings). The room panel also declares `onAddRoom` but never calls it, so this handler is not reached from the page.
- `AssignmentsPage.AssignmentsBoard`: the board starts from a `fetched` list given to its constructor, standing for assignments whose `housekeeperId` is a plain id. As written the page never loads a list: `setSelectedHousekeeperId` (project-main/project/src/pages/AssignmentsPage.tsx:20-22) is never called, so the effect at lines 35-39 never fetches and the list stays empty. Had it fetched, `getAllAssignments` requests GET `/api/assignments` (project-main/project/src/services/api.ts:113-116), a path the assignments router (mounted at `/api/assignments`, project-main/server/index.js:29) does not serve, since its listing is GET `/assignments` under that mount (project-main/server/routes/assignments.js:202). A list from that route would carry populated `housekeeperId` objects, so the report keys at AssignmentsPage.tsx:85-98 would not be plain ids. None of this loading is modelled.
- `RoomRoutes.RoomPatch`: the update body is limited to the room's own fields. Mongoose's strict mode drops unknown keys, and an `_id` key in the body (a change to an immutable path) is not modelled.
- `RoomRoutes.RoomStore.Create`: models the corrected handler, which replies 400 "Validation failed" on a schema failure. As written no reply is sent (`RoomRoutes.CreateAsWritten`, see ## Findings): under Express 4 the re-thrown ReferenceError is an unhandled promise rejection, which on Node 15 and later ends the server process. The Express version is not part of this model: under Express 5 the rejected handler would reach the error handler at project-main/server/index.js:33-36, which replies 500 "Something went wrong!".
- `AssignmentRoutes.AssignmentCollection.Reports`: keys the fold on the stored housekeeper id. The route keys it on `housekeeperId._id` after populating that field from the users collection (`ref: 'User'`), while assignments are created against Housekeeper documents, whose ids are separate. When the stored id names no user, the populate gives null, reading `_id` throws and the route replies 500 "Error generating reports". That failure is not modelled, because the User/Housekeeper id relation is not part of this model.
- The client's room service posts to `/rooms` while the create route is mounted at `/rooms/room`. Routing is not modelled: the room panel's calls are paired with the route's own model.

## Findings

| source | as written | input that shows it | evidently intended | confidence | as-written member | corrected member |
|---|---|---|---|---|---|---|
| project-main/server/routes/assignments.js:86-94 | the status patch uses `findByIdAndUpdate` without `runValidators`, so any string is stored as the status | PUT /:id/status with status "Done" on a valid assignment | the schema's status enum holds for stored assignments; a status outside it is refused | not executed; medium | AssignmentRoutes.PatchAsWrittenLeavesEnum | AssignmentRoutes.PatchChecked |
| project-main/server/routes/rooms.js:76 | the catch block tests `error instanceof mongoose.Error.ValidationError`, but `mongoose` is never imported. A save failure therefore throws again inside the catch and no reply is sent; under Express 4 this is an unhandled promise rejection, which on Node 15 and later ends the server process | POST /rooms/room by an Admin with price -5 and all other fields valid | reply 400 "Validation failed" | not executed; high | RoomRoutes.CreateAsWritten | RoomRoutes.CreateReply |
| project-main/project/src/pages/HotelsPage.tsx:83 | update and delete compare `hotel.id`, but hotels carry `_id`, so the list never changes | updating or deleting any hotel loaded from the server | update and delete the hotel with that `_id` | not executed; high | HotelsPage.ReplaceAsWritten | HotelsPage.ReplaceById |
| project-main/project/src/pages/HotelsPage.tsx:94 | delete compares `hotel.id`, so no hotel is removed | deleting any hotel loaded from the server | remove the hotel with that `_id` | not executed; high | HotelsPage.RemoveAsWrittenKeepsAll | HotelsPage.RemoveById |
| project-main/project/src/pages/HotelsPage.tsx:110 | handleAddRoom calls the one-argument hotel creation service with two arguments. Only the hotel id is posted to /hotels, the hotel built from it has no fields and fails validation, the route replies 500, and the room is never added | adding any room to any hotel from the hotels page | create the room through the room service and append it to that hotel's rooms | not executed; high | HotelsPage.AddRoomAsWrittenRefused | HotelsPage.WithRoom |
