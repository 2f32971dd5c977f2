/** The housekeeper panel of a hotel: the housekeeper list with its add/edit
    form, and the modal that assigns a room to a housekeeper by creating a
    cleaning assignment. */
module HousekeeperManagement {
  import opened Common
  import opened AssignmentSchema
  import opened AssignmentRoutes

  /** A housekeeper as the client holds it. */
  datatype Housekeeper = Housekeeper(
    id: Id,
    userId: string,
    name: string,
    email: string,
    password: string,
    contactNumber: string,
    hotelId: Id,
    isActive: bool)

  /** The add/edit form: a housekeeper without its `_id`. */
  datatype HousekeeperForm = HousekeeperForm(
    userId: string,
    name: string,
    email: string,
    contactNumber: string,
    hotelId: Id,
    isActive: bool,
    password: string)

  /** The empty form for the hotel, with a fresh user id. */
  function BlankForm(uuid: string, hotelId: Id): (f: HousekeeperForm)
    ensures f.name == "" && f.email == "" && f.contactNumber == "" && f.password == ""
    ensures f.isActive && f.hotelId == hotelId && f.userId == uuid
  {
    HousekeeperForm(uuid, "", "", "", hotelId, true, "")
  }

  /** `{...editing, ...form}`: the form's fields over the edited record, whose
      `_id` survives because the form has none. */
  function Merged(editing: Housekeeper, form: HousekeeperForm): (h: Housekeeper)
    ensures h.id == editing.id
    ensures h.userId == form.userId && h.name == form.name && h.email == form.email
    ensures h.password == form.password && h.contactNumber == form.contactNumber
    ensures h.hotelId == form.hotelId && h.isActive == form.isActive
  {
    Housekeeper(editing.id, form.userId, form.name, form.email, form.password,
                form.contactNumber, form.hotelId, form.isActive)
  }

  /** The `map` after an update: every entry with the updated record's `_id`
      becomes that record (spreading it over the old entry overrides every
      field), the others stay. */
  function ReplaceById(list: seq<Housekeeper>, updated: Housekeeper): (r: seq<Housekeeper>)
    ensures |r| == |list|
    ensures forall k :: 0 <= k < |list| && list[k].id != updated.id ==> r[k] == list[k]
    ensures forall k :: 0 <= k < |list| && list[k].id == updated.id ==> r[k] == updated
  {
    seq(|list|, k requires 0 <= k < |list| => if list[k].id == updated.id then updated else list[k])
  }

  /** `housekeepers.find(h => h._id === id) || null`. */
  function FindById(list: seq<Housekeeper>, id: Id): (r: Option<Housekeeper>)
    ensures r.Some? ==> r.value in list && r.value.id == id
    ensures r.Some? ==> exists k :: 0 <= k < |list| && list[k] == r.value
                                    && forall j :: 0 <= j < k ==> list[j].id != id
    ensures r.None? <==> forall h :: h in list ==> h.id != id
  {
    if list == [] then None
    else if list[0].id == id then Some(list[0])
    else
      var rest := FindById(list[1..], id);
      assert forall h :: h in list[1..] ==> h in list;
      rest
  }

  /** The body handleAssignRoom posts. */
  datatype AssignmentPayload = AssignmentPayload(
    id: string,
    housekeeperId: Id,
    roomId: Id,
    hotelId: Id,
    task: string,
    status: string,
    startTime: int,
    endTime: string,
    totalMinutes: int)

  /** What the create route reads from the body: `_id` is not among its
      fields, and the empty `endTime` means no end time. */
  function AsRequest(p: AssignmentPayload): (req: CreateRequest)
    ensures req.housekeeperId == p.housekeeperId && req.roomId == p.roomId
    ensures req.hotelId == p.hotelId && req.task == p.task && req.status == p.status
    ensures req.startTime == Some(p.startTime) && req.totalMinutes == p.totalMinutes
    ensures req.endTime == None
  {
    CreateRequest(p.housekeeperId, p.roomId, p.hotelId, p.task, p.status,
                  Some(p.startTime), None, p.totalMinutes)
  }

  class HousekeeperPanel {
    const hotelId: Id
    var housekeepers: seq<Housekeeper>
    var editing: Option<Housekeeper>
    var form: HousekeeperForm
    var selectedHousekeeper: Option<Housekeeper>
    var selectedRoom: Id
    var showAssignmentModal: bool

    constructor(hotelId: Id, fetched: seq<Housekeeper>, uuid: string)
      ensures this.hotelId == hotelId && housekeepers == fetched && editing == None
      ensures form == BlankForm(uuid, hotelId)
      ensures selectedHousekeeper == None && selectedRoom == "" && !showAssignmentModal
    {
      this.hotelId := hotelId;
      housekeepers := fetched;
      editing := None;
      form := BlankForm(uuid, hotelId);
      selectedHousekeeper := None;
      selectedRoom := "";
      showAssignmentModal := false;
    }

    /** The Edit button: the record becomes the edited one and fills the form. */
    method BeginEdit(h: Housekeeper)
      modifies this
      ensures editing == Some(h)
      ensures form == HousekeeperForm(h.userId, h.name, h.email, h.contactNumber, h.hotelId,
                                      h.isActive, h.password)
      ensures housekeepers == old(housekeepers) && selectedHousekeeper == old(selectedHousekeeper)
      ensures selectedRoom == old(selectedRoom) && showAssignmentModal == old(showAssignmentModal)
    {
      editing := Some(h);
      form := HousekeeperForm(h.userId, h.name, h.email, h.contactNumber, h.hotelId,
                              h.isActive, h.password);
    }

    /** handleSubmit. `succeeded` is whether the service call resolved, and
        `created` the housekeeper it returned when adding; `uuid` is the next
        random user id. When editing, a successful update replaces the entry
        by `_id` and leaves editing mode; when adding, a successful create
        appends. Either way, even after a failure, the form is reset. */
    method Submit(succeeded: bool, created: Housekeeper, uuid: string)
      modifies this
      ensures old(editing).Some? && succeeded ==>
        housekeepers == ReplaceById(old(housekeepers), Merged(old(editing).value, old(form)))
        && editing == None
      ensures old(editing).None? && succeeded ==>
        housekeepers == old(housekeepers) + [created] && editing == None
      ensures !succeeded ==> housekeepers == old(housekeepers) && editing == old(editing)
      ensures form == BlankForm(uuid, hotelId)
      ensures selectedHousekeeper == old(selectedHousekeeper) && selectedRoom == old(selectedRoom)
      ensures showAssignmentModal == old(showAssignmentModal)
    {
      if editing.Some? {
        var updated := Merged(editing.value, form);
        if succeeded {
          housekeepers := ReplaceById(housekeepers, updated);
          editing := None;
        }
      } else {
        if succeeded {
          housekeepers := housekeepers + [created];
        }
      }
      form := BlankForm(uuid, hotelId);
    }

    /** The housekeeper dropdown: the first listed housekeeper with that
        `_id`, or none. */
    method SelectHousekeeper(id: Id)
      modifies this
      ensures selectedHousekeeper == FindById(housekeepers, id)
      ensures selectedHousekeeper.Some? ==>
        selectedHousekeeper.value in housekeepers && selectedHousekeeper.value.id == id
      ensures selectedHousekeeper.None? <==> forall h :: h in housekeepers ==> h.id != id
      ensures housekeepers == old(housekeepers) && editing == old(editing) && form == old(form)
      ensures selectedRoom == old(selectedRoom) && showAssignmentModal == old(showAssignmentModal)
    {
      selectedHousekeeper := FindById(housekeepers, id);
    }

    /** handleAssignRoom. Without a selected housekeeper, a selected room and
        the hotel id nothing is posted and nothing changes. Otherwise the
        payload is built (`uuid` and `now` stand for crypto.randomUUID() and
        the clock) and posted; `succeeded` is whether the post resolved, and
        only then is the modal closed and both selections cleared. */
    method AssignRoom(uuid: string, now: int, succeeded: bool) returns (posted: Option<AssignmentPayload>)
      modifies this
      ensures posted.Some? <==> old(selectedHousekeeper).Some? && old(selectedRoom) != "" && hotelId != ""
      ensures posted.Some? ==> posted.value == AssignmentPayload(
        uuid, old(selectedHousekeeper).value.id, old(selectedRoom), hotelId,
        "Room Cleaning", Dirty, now, "", 0)
      ensures posted.Some? && succeeded ==>
        !showAssignmentModal && selectedHousekeeper == None && selectedRoom == ""
      ensures posted.None? || !succeeded ==>
        showAssignmentModal == old(showAssignmentModal)
        && selectedHousekeeper == old(selectedHousekeeper) && selectedRoom == old(selectedRoom)
      ensures housekeepers == old(housekeepers) && editing == old(editing) && form == old(form)
    {
      if selectedHousekeeper.Some? && selectedRoom != "" && hotelId != "" {
        posted := Some(AssignmentPayload(uuid, selectedHousekeeper.value.id, selectedRoom, hotelId,
                                         "Room Cleaning", Dirty, now, "", 0));
        if succeeded {
          showAssignmentModal := false;
          selectedHousekeeper := None;
          selectedRoom := "";
        }
      } else {
        posted := None;
      }
    }
  }

  /** The server accepts the panel's payload exactly when the housekeeper,
      room and hotel exist (the housekeeper's `_id` being non-empty), and then
      stores a "Dirty" assignment started at the client's clock, with no end
      time and no minutes. */
  lemma AssignRoomPayloadAccepted(uuid: string, hk: Housekeeper, room: Id, hotel: Id, clientNow: int,
                                  housekeeperIds: set<Id>, roomIds: set<Id>, hotelIds: set<Id>,
                                  newId: Id, serverNow: int)
    requires hk.id != "" && room != "" && hotel != ""
    ensures var reply := CreateReply(
        AsRequest(AssignmentPayload(uuid, hk.id, room, hotel, "Room Cleaning", Dirty, clientNow, "", 0)),
        housekeeperIds, roomIds, hotelIds, newId, serverNow);
      && (reply.Ok? <==> hk.id in housekeeperIds && room in roomIds && hotel in hotelIds)
      && (reply.Ok? ==>
            && reply.body.status == Dirty && reply.body.task == "Room Cleaning"
            && reply.body.startTime == Some(clientNow) && reply.body.endTime == None
            && reply.body.totalMinutes == 0 && reply.body.housekeeperId == hk.id)
  {
  }
}
