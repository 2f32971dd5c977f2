/** The Assignment record as the Mongoose schema declares it: the status enum,
    the required references and task, and the defaults applied when a
    document is built and saved. */
module AssignmentSchema {
  import opened Common

  const Dirty: string := "Dirty"
  const InProgress: string := "In Progress"
  const Clean: string := "Clean"
  const Inspected: string := "Inspected"

  /** The values the schema's `enum` admits for `status`. */
  predicate IsStatus(s: string) {
    s == Dirty || s == InProgress || s == Clean || s == Inspected
  }

  /** A stored assignment. Times are milliseconds since the epoch; an absent
      Date field is None. */
  datatype Assignment = Assignment(
    id: Id,
    housekeeperId: Id,
    roomId: Id,
    hotelId: Id,
    task: string,
    status: string,
    startTime: Option<int>,
    endTime: Option<int>,
    totalMinutes: int,
    createdAt: int)

  /** The values handed to `new Assignment({...})`; None is a field left undefined. */
  datatype AssignmentFields = AssignmentFields(
    housekeeperId: Id,
    roomId: Id,
    hotelId: Id,
    task: string,
    status: Option<string>,
    startTime: Option<int>,
    endTime: Option<int>,
    totalMinutes: Option<int>)

  /** The schema's validators: the three references and `task` are required
      (an empty string fails `required`), and status lies in the enum. */
  predicate SchemaValid(a: Assignment) {
    a.housekeeperId != "" && a.roomId != "" && a.hotelId != "" && a.task != ""
    && IsStatus(a.status)
  }

  /** Builds the document with the schema's defaults and validates it as `save`
      does; a failing validator is a ValidationError. */
  function Instantiate(f: AssignmentFields, id: Id, now: int): (r: Option<Assignment>)
    ensures r.Some? <==>
      f.housekeeperId != "" && f.roomId != "" && f.hotelId != "" && f.task != ""
      && (f.status.None? || IsStatus(f.status.value))
    ensures r.Some? ==> SchemaValid(r.value)
    ensures r.Some? ==> r.value.id == id && r.value.createdAt == now
    ensures r.Some? ==> r.value.housekeeperId == f.housekeeperId && r.value.roomId == f.roomId
                        && r.value.hotelId == f.hotelId && r.value.task == f.task
    ensures r.Some? && f.status.None? ==> r.value.status == Dirty
    ensures r.Some? && f.status.Some? ==> r.value.status == f.status.value
    ensures r.Some? && f.totalMinutes.None? ==> r.value.totalMinutes == 0
    ensures r.Some? && f.totalMinutes.Some? ==> r.value.totalMinutes == f.totalMinutes.value
    ensures r.Some? ==> r.value.startTime == f.startTime && r.value.endTime == f.endTime
  {
    var a := Assignment(
      id, f.housekeeperId, f.roomId, f.hotelId, f.task,
      if f.status.Some? then f.status.value else Dirty,
      f.startTime, f.endTime,
      if f.totalMinutes.Some? then f.totalMinutes.value else 0,
      now);
    if SchemaValid(a) then Some(a) else None
  }

  /** Position of the first assignment carrying `id` (a lookup by `_id`). */
  function IndexOf(rows: seq<Assignment>, id: Id): (r: Option<nat>)
    ensures r.Some? ==> r.value < |rows| && rows[r.value].id == id
    ensures r.Some? ==> forall k :: 0 <= k < r.value ==> rows[k].id != id
    ensures r.None? <==> forall k :: 0 <= k < |rows| ==> rows[k].id != id
  {
    if rows == [] then None
    else if rows[0].id == id then Some(0)
    else match IndexOf(rows[1..], id)
      case None => None
      case Some(k) => Some(k + 1)
  }
}
