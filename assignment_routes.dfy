/** The /assignments routes of the server: create with validation, the start
    and complete transitions, the status patch, the listing query and the
    report, over the assignment collection held as a sequence of rows in
    the database's natural order. */
module AssignmentRoutes {
  import opened Common
  import opened AssignmentSchema
  import opened AssignmentReports
  import opened Durations

  /** The body of POST /assignments. A missing or empty string is "", a
      missing or empty time is None, and a missing `totalMinutes` is 0 (the
      handler only ever reads these fields through `||`). */
  datatype CreateRequest = CreateRequest(
    housekeeperId: Id,
    roomId: Id,
    hotelId: Id,
    task: string,
    status: string,
    startTime: Option<int>,
    endTime: Option<int>,
    totalMinutes: int)

  /** The handler's required-field check: any of the four falsy. */
  predicate MissingRequired(req: CreateRequest) {
    req.housekeeperId == "" || req.roomId == "" || req.hotelId == "" || req.task == ""
  }

  /** The document the handler builds: status falls back to "Dirty", the
      start time to now, the end time to "" (stored as no date) and the
      minutes to 0. */
  function Fields(req: CreateRequest, now: int): (f: AssignmentFields)
    ensures f.status == Some(if req.status == "" then Dirty else req.status)
    ensures f.startTime.Some? && f.startTime.value == (if req.startTime.Some? then req.startTime.value else now)
    ensures f.endTime == req.endTime && f.totalMinutes == Some(req.totalMinutes)
  {
    AssignmentFields(req.housekeeperId, req.roomId, req.hotelId, req.task,
                     Some(if req.status == "" then Dirty else req.status),
                     Some(if req.startTime.Some? then req.startTime.value else now),
                     req.endTime, Some(req.totalMinutes))
  }

  /** The reply of POST /assignments given the ids that exist in the
      housekeeper, room and hotel collections, the id the database assigns
      and the clock. */
  function CreateReply(req: CreateRequest, housekeeperIds: set<Id>, roomIds: set<Id>,
                       hotelIds: set<Id>, newId: Id, now: int): (reply: Reply<Assignment>)
    ensures MissingRequired(req) <==> reply == Err(400, "Missing required fields")
    ensures !MissingRequired(req) && req.housekeeperId !in housekeeperIds ==>
      reply == Err(404, "Housekeeper not found")
    ensures !MissingRequired(req) && req.housekeeperId in housekeeperIds && req.roomId !in roomIds ==>
      reply == Err(404, "Room not found")
    ensures !MissingRequired(req) && req.housekeeperId in housekeeperIds && req.roomId in roomIds
            && req.hotelId !in hotelIds ==>
      reply == Err(404, "Hotel not found")
    ensures !MissingRequired(req) && req.housekeeperId in housekeeperIds && req.roomId in roomIds
            && req.hotelId in hotelIds && req.status != "" && !IsStatus(req.status) ==>
      reply == Err(500, "Error creating assignment")
    ensures reply.Ok? <==>
      !MissingRequired(req) && req.housekeeperId in housekeeperIds && req.roomId in roomIds
      && req.hotelId in hotelIds && (req.status == "" || IsStatus(req.status))
    ensures reply.Ok? ==>
      && reply.code == 201
      && SchemaValid(reply.body)
      && reply.body.id == newId && reply.body.createdAt == now
      && reply.body.housekeeperId == req.housekeeperId && reply.body.roomId == req.roomId
      && reply.body.hotelId == req.hotelId && reply.body.task == req.task
      && reply.body.status == (if req.status == "" then Dirty else req.status)
      && reply.body.startTime == Some(if req.startTime.Some? then req.startTime.value else now)
      && reply.body.endTime == req.endTime
      && reply.body.totalMinutes == req.totalMinutes
  {
    if MissingRequired(req) then Err(400, "Missing required fields")
    else if req.housekeeperId !in housekeeperIds then Err(404, "Housekeeper not found")
    else if req.roomId !in roomIds then Err(404, "Room not found")
    else if req.hotelId !in hotelIds then Err(404, "Hotel not found")
    else match Instantiate(Fields(req, now), newId, now)
      case None => Err(500, "Error creating assignment")
      case Some(a) => Ok(201, a)
  }

  /** PUT /:id/start applied to a stored assignment: whatever its status,
      it becomes "In Progress" and its start time becomes now. */
  function Started(a: Assignment, now: int): (r: Assignment)
    ensures r.status == InProgress && r.startTime == Some(now)
    ensures r.(status := a.status, startTime := a.startTime) == a
  {
    a.(status := InProgress, startTime := Some(now))
  }

  /** PUT /:id/complete applied to a stored assignment: status "Clean", end
      time now, and the rounded minutes since the start time. */
  function Completed(a: Assignment, now: int): (r: Assignment)
    requires a.startTime.Some?
    ensures r.status == Clean && r.endTime == Some(now)
    ensures r.totalMinutes == RoundedMinutes(now, a.startTime.value)
    ensures r.(status := a.status, endTime := a.endTime, totalMinutes := a.totalMinutes) == a
  {
    a.(status := Clean, endTime := Some(now), totalMinutes := RoundedMinutes(now, a.startTime.value))
  }

  /** The body of PUT /:id/status; a falsy `endTime` is None and a falsy
      `totalMinutes` is 0. */
  datatype StatusPatch = StatusPatch(status: string, endTime: Option<int>, totalMinutes: int)

  /** The update PUT /:id/status performs as written: `status` is always
      set, to whatever string was sent (findByIdAndUpdate runs no
      validators), and `endTime`/`totalMinutes` only when truthy. */
  function PatchedAsWritten(a: Assignment, p: StatusPatch): (r: Assignment)
    ensures r.status == p.status
    ensures r.endTime == (if p.endTime.Some? then p.endTime else a.endTime)
    ensures r.totalMinutes == (if p.totalMinutes != 0 then p.totalMinutes else a.totalMinutes)
    ensures r.(status := a.status, endTime := a.endTime, totalMinutes := a.totalMinutes) == a
  {
    a.(status := p.status,
       endTime := if p.endTime.Some? then p.endTime else a.endTime,
       totalMinutes := if p.totalMinutes != 0 then p.totalMinutes else a.totalMinutes)
  }

  /** The route as written stores a status outside the schema's enum. */
  lemma PatchAsWrittenLeavesEnum(a: Assignment)
    requires SchemaValid(a)
    ensures !SchemaValid(PatchedAsWritten(a, StatusPatch("Done", None, 0)))
  {
  }

  /** The same update with the schema's validators run on it (the effect of
      `runValidators: true`): a status outside the enum is refused, and a
      valid record stays valid. */
  function PatchChecked(a: Assignment, p: StatusPatch): (r: Option<Assignment>)
    ensures r.Some? <==> IsStatus(p.status)
    ensures r.Some? ==> r.value == PatchedAsWritten(a, p)
    ensures r.Some? && SchemaValid(a) ==> SchemaValid(r.value)
  {
    if IsStatus(p.status) then Some(PatchedAsWritten(a, p)) else None
  }

  /** Query-string parameters of GET /assignments/assignments; "" and None
      stand for a parameter not given. */
  datatype ListQuery = ListQuery(housekeeperId: Id, status: string, startDate: Option<int>, endDate: Option<int>)

  /** The Mongo query: each given parameter constrains, and the date window
      (on `startTime`, inclusive) only when both bounds are given. */
  predicate Listed(a: Assignment, q: ListQuery) {
    && (q.housekeeperId != "" ==> a.housekeeperId == q.housekeeperId)
    && (q.status != "" ==> a.status == q.status)
    && (q.startDate.Some? && q.endDate.Some? ==>
          a.startTime.Some? && q.startDate.value <= a.startTime.value <= q.endDate.value)
  }

  /** The assignment collection. */
  class AssignmentCollection {
    var rows: seq<Assignment>

    /** Ids are unique, every row passes the schema's validators, and every
        row has a start time (create defaults it, nothing removes it). */
    ghost predicate Valid()
      reads this
    {
      && (forall i, j :: 0 <= i < j < |rows| ==> rows[i].id != rows[j].id)
      && (forall i :: 0 <= i < |rows| ==> SchemaValid(rows[i]) && rows[i].startTime.Some?)
    }

    function Ids(): set<Id>
      reads this
    {
      set a | a in rows :: a.id
    }

    constructor()
      ensures Valid() && rows == []
    {
      rows := [];
    }

    /** POST /assignments: validation, the three existence checks in order,
        then exactly one insert. */
    method Create(req: CreateRequest, housekeeperIds: set<Id>, roomIds: set<Id>,
                  hotelIds: set<Id>, newId: Id, now: int) returns (reply: Reply<Assignment>)
      requires Valid() && newId !in Ids()
      modifies this
      ensures Valid()
      ensures reply == CreateReply(req, housekeeperIds, roomIds, hotelIds, newId, now)
      ensures rows == if reply.Ok? then old(rows) + [reply.body] else old(rows)
    {
      reply := CreateReply(req, housekeeperIds, roomIds, hotelIds, newId, now);
      if reply.Ok? {
        rows := rows + [reply.body];
      }
    }

    /** PUT /:id/start: no check of the current status. */
    method Start(id: Id, now: int) returns (reply: Reply<Assignment>)
      requires Valid()
      modifies this
      ensures Valid()
      ensures old(IndexOf(rows, id)).None? ==>
        reply == Err(404, "Assignment not found") && rows == old(rows)
      ensures old(IndexOf(rows, id)).Some? ==>
        var i := old(IndexOf(rows, id)).value;
        rows == old(rows)[i := Started(old(rows)[i], now)] && reply == Ok(200, rows[i])
    {
      var found := IndexOf(rows, id);
      if found.None? {
        return Err(404, "Assignment not found");
      }
      var i := found.value;
      rows := rows[i := Started(rows[i], now)];
      reply := Ok(200, rows[i]);
    }

    /** PUT /:id/complete: no check of the current status either; the loaded
        document is changed field by field and saved. */
    method Complete(id: Id, now: int) returns (reply: Reply<Assignment>)
      requires Valid()
      modifies this
      ensures Valid()
      ensures old(IndexOf(rows, id)).None? ==>
        reply == Err(404, "Assignment not found") && rows == old(rows)
      ensures old(IndexOf(rows, id)).Some? ==>
        var i := old(IndexOf(rows, id)).value;
        rows == old(rows)[i := Completed(old(rows)[i], now)] && reply == Ok(200, rows[i])
    {
      var found := IndexOf(rows, id);
      if found.None? {
        return Err(404, "Assignment not found");
      }
      var i := found.value;
      var doc := rows[i];
      var endTime := now;
      var totalMinutes := RoundedMinutes(endTime, doc.startTime.value);
      doc := doc.(status := Clean);
      doc := doc.(endTime := Some(endTime));
      doc := doc.(totalMinutes := totalMinutes);
      rows := rows[i := doc];
      reply := Ok(200, doc);
    }

    /** PUT /:id/status with the schema's validators run on the update: a
        status outside the enum is refused before the lookup; otherwise an
        unknown id is 404 and a known one gets PatchedAsWritten. */
    method PatchStatus(id: Id, p: StatusPatch) returns (reply: Reply<Assignment>)
      requires Valid()
      modifies this
      ensures Valid()
      ensures !IsStatus(p.status) ==>
        reply == Err(500, "Error updating assignment status") && rows == old(rows)
      ensures IsStatus(p.status) && old(IndexOf(rows, id)).None? ==>
        reply == Err(404, "Assignment not found") && rows == old(rows)
      ensures IsStatus(p.status) && old(IndexOf(rows, id)).Some? ==>
        var i := old(IndexOf(rows, id)).value;
        rows == old(rows)[i := PatchedAsWritten(old(rows)[i], p)] && reply == Ok(200, rows[i])
    {
      var found := IndexOf(rows, id);
      if !IsStatus(p.status) {
        return Err(500, "Error updating assignment status");
      }
      if found.None? {
        return Err(404, "Assignment not found");
      }
      var i := found.value;
      var patched := PatchChecked(rows[i], p);
      rows := rows[i := patched.value];
      reply := Ok(200, rows[i]);
    }

    /** GET /assignments/assignments: the matching rows in stored order, or
        404 when there are none. */
    function List(q: ListQuery): (reply: Reply<seq<Assignment>>)
      reads this
      ensures reply.Err? <==> forall a :: a in rows ==> !Listed(a, q)
      ensures reply.Err? ==> reply == Err(404, "No assignments found")
      ensures reply.Ok? ==>
        && reply.code == 200
        && IsSubsequence(reply.body, rows)
        && (forall a :: a in reply.body <==> a in rows && Listed(a, q))
        && forall a :: multiset(reply.body)[a] == if Listed(a, q) then multiset(rows)[a] else 0
    {
      var found := Filter(rows, a => Listed(a, q));
      FilterMultiplicities(rows, a => Listed(a, q));
      if |found| == 0 then Err(404, "No assignments found")
      else assert found[0] in found; Ok(200, found)
    }

    /** GET /assignments/reports: the counted rows folded into one summary
        per housekeeper. */
    method Reports(q: ReportQuery) returns (report: seq<Summary>)
      ensures report == Values(Accumulate(Filter(rows, a => Counted(a, q))))
      ensures forall i, j :: 0 <= i < j < |report| ==> report[i].housekeeperId != report[j].housekeeperId
      ensures forall k :: 0 <= k < |report| ==>
        var counted := Filter(rows, a => Counted(a, q));
        && report[k].totalRooms == Count(counted, report[k].housekeeperId) >= 1
        && report[k].totalTime == Minutes(counted, report[k].housekeeperId)
        && report[k].averageTime == RoundDiv(Minutes(counted, report[k].housekeeperId),
                                             Count(counted, report[k].housekeeperId))
      ensures forall a :: a in rows && Counted(a, q) ==>
        exists k :: 0 <= k < |report| && report[k].housekeeperId == a.housekeeperId
    {
      report := Aggregate(Filter(rows, a => Counted(a, q)));
    }
  }
}
