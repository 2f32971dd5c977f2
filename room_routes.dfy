/** The /rooms routes of the server that change the room table: create (with
    its falsy-field check), update (with the schema's validators), delete,
    and assigning a housekeeper. All four are open only to the roles
    SuperAdmin, Admin and Manager. */
module RoomRoutes {
  import opened Common
  import opened RoomSchema

  /** The roles `checkRole` lets through to the four routes. */
  predicate MayManageRooms(role: string) {
    role == "SuperAdmin" || role == "Admin" || role == "Manager"
  }

  /** The refusal of `checkRole` for any other role; its message is decided
      in the middleware, which is not part of this model. */
  const Denied: Reply<Room> := Err(403, "")

  /** The body of POST /rooms/room. A missing string is "", a missing number
      is 0 (both falsy, like the values themselves); `amenities` may be absent. */
  datatype RoomBody = RoomBody(
    hotelId: Id,
    number: string,
    roomType: string,
    floor: int,
    capacity: int,
    price: int,
    status: string,
    amenities: Option<seq<string>>)

  /** The handler's required-field check: any of the seven falsy. A price or
      floor of 0 counts as missing. */
  predicate MissingRequired(b: RoomBody) {
    b.hotelId == "" || b.number == "" || b.roomType == "" || b.floor == 0
    || b.capacity == 0 || b.price == 0 || b.status == ""
  }

  /** The document the handler builds: exactly the body's fields. */
  function Fields(b: RoomBody): (f: RoomFields)
    ensures f.hotelId == b.hotelId && f.number == b.number && f.roomType == b.roomType
    ensures f.floor == Some(b.floor) && f.capacity == Some(b.capacity) && f.price == Some(b.price)
    ensures f.status == Some(b.status) && f.amenities == b.amenities
  {
    RoomFields(b.hotelId, b.number, b.roomType, Some(b.floor), Some(b.capacity), Some(b.price),
               Some(b.status), b.amenities)
  }

  /** POST /rooms/room with the catch block's ValidationError branch handled:
      403 for other roles, 400 "Missing required fields" for a falsy field,
      400 "Validation failed" when `save` rejects the room, otherwise 201 with
      a room holding exactly the body's fields. */
  function CreateReply(role: string, b: RoomBody, newId: Id, now: int): (reply: Reply<Room>)
    ensures !MayManageRooms(role) ==> reply == Denied
    ensures MayManageRooms(role) && MissingRequired(b) ==> reply == Err(400, "Missing required fields")
    ensures reply.Ok? <==>
      && MayManageRooms(role) && !MissingRequired(b)
      && IsRoomType(b.roomType) && IsRoomStatus(b.status) && b.capacity >= 1 && b.price >= 0
    ensures MayManageRooms(role) && !MissingRequired(b) && !reply.Ok? ==>
      reply == Err(400, "Validation failed")
    ensures reply.Ok? ==>
      && reply.code == 201 && SchemaValid(reply.body)
      && reply.body == Room(newId, b.hotelId, b.number, b.roomType, b.floor, b.capacity, b.price,
                            b.status, if b.amenities.Some? then b.amenities.value else [], None, now)
  {
    if !MayManageRooms(role) then Denied
    else if MissingRequired(b) then Err(400, "Missing required fields")
    else match Instantiate(Fields(b), newId, now)
      case None => Err(400, "Validation failed")
      case Some(room) => Ok(201, room)
  }

  /** POST /rooms/room as written: the catch block tests
      `error instanceof mongoose.Error.ValidationError`, but the file never
      imports `mongoose`, so that test itself throws and no reply is sent
      (None). Everywhere else it answers as CreateReply does. */
  function CreateAsWritten(role: string, b: RoomBody, newId: Id, now: int): (reply: Option<Reply<Room>>)
    ensures reply.None? <==> CreateReply(role, b, newId, now) == Err(400, "Validation failed")
    ensures reply.Some? ==> reply.value == CreateReply(role, b, newId, now)
  {
    if !MayManageRooms(role) then Some(Denied)
    else if MissingRequired(b) then Some(Err(400, "Missing required fields"))
    else match Instantiate(Fields(b), newId, now)
      case None => None
      case Some(room) => Some(Ok(201, room))
  }

  /** A negative price passes the falsy check, fails the schema's minimum,
      and as written the client gets no reply at all. */
  lemma NegativePriceGetsNoReply()
    ensures CreateAsWritten("Admin", RoomBody("h1", "101", "Standard", 1, 2, -5, Available, None), "r1", 0)
            == None
    ensures CreateReply("Admin", RoomBody("h1", "101", "Standard", 1, 2, -5, Available, None), "r1", 0)
            == Err(400, "Validation failed")
  {
  }

  /** The falsy check is stricter than the schema: a free room (price 0) is a
      valid room, yet the route refuses to create it. */
  lemma FreeRoomValidButRefused(b: RoomBody, newId: Id, now: int)
    requires b.price == 0
    ensures !CreateReply("Admin", b, newId, now).Ok?
    ensures SchemaValid(Room(newId, "h1", "101", "Standard", 1, 2, 0, Available, [], None, now))
  {
  }

  /** The body of PUT /rooms/:id; None is a field not sent. The whole body
      reaches the update, so besides the form's fields it may carry the
      assigned housekeeper (Some(None) is `null`) and the creation time. */
  datatype RoomPatch = RoomPatch(
    hotelId: Option<Id>,
    number: Option<string>,
    roomType: Option<string>,
    floor: Option<int>,
    capacity: Option<int>,
    price: Option<int>,
    status: Option<string>,
    amenities: Option<seq<string>>,
    assignedHousekeeper: Option<Option<Id>>,
    createdAt: Option<int>)

  /** The update validators (`runValidators: true`) on the sent fields only. */
  predicate PatchValid(p: RoomPatch) {
    && (p.hotelId.Some? ==> p.hotelId.value != "")
    && (p.number.Some? ==> p.number.value != "")
    && (p.roomType.Some? ==> IsRoomType(p.roomType.value))
    && (p.capacity.Some? ==> p.capacity.value >= 1)
    && (p.price.Some? ==> p.price.value >= 0)
    && (p.status.Some? ==> IsRoomStatus(p.status.value))
  }

  /** A sent field's value, or the stored one when the field was not sent. */
  function Sent<T>(field: Option<T>, stored: T): T {
    if field.Some? then field.value else stored
  }

  /** The room with every sent field replaced; a valid patch keeps a valid
      room valid. */
  function Patched(r: Room, p: RoomPatch): (u: Room)
    ensures u.id == r.id
    ensures u.assignedHousekeeper == Sent(p.assignedHousekeeper, r.assignedHousekeeper)
    ensures u.createdAt == Sent(p.createdAt, r.createdAt)
    ensures u.hotelId == Sent(p.hotelId, r.hotelId) && u.number == Sent(p.number, r.number)
    ensures u.roomType == Sent(p.roomType, r.roomType) && u.floor == Sent(p.floor, r.floor)
    ensures u.capacity == Sent(p.capacity, r.capacity) && u.price == Sent(p.price, r.price)
    ensures u.status == Sent(p.status, r.status) && u.amenities == Sent(p.amenities, r.amenities)
    ensures SchemaValid(r) && PatchValid(p) ==> SchemaValid(u)
  {
    r.(hotelId := Sent(p.hotelId, r.hotelId), number := Sent(p.number, r.number),
       roomType := Sent(p.roomType, r.roomType), floor := Sent(p.floor, r.floor),
       capacity := Sent(p.capacity, r.capacity), price := Sent(p.price, r.price),
       status := Sent(p.status, r.status), amenities := Sent(p.amenities, r.amenities),
       assignedHousekeeper := Sent(p.assignedHousekeeper, r.assignedHousekeeper),
       createdAt := Sent(p.createdAt, r.createdAt))
  }

  /** The update is not limited to the form's fields: a valid room stays
      valid while a PUT hands it to another housekeeper or clears the
      housekeeper, and back-dates its creation. */
  lemma UpdateReassigns(r: Room, hk: Option<Id>, createdAt: int)
    requires SchemaValid(r)
    ensures var p := RoomPatch(None, None, None, None, None, None, None, None, Some(hk), Some(createdAt));
      && PatchValid(p)
      && Patched(r, p) == r.(assignedHousekeeper := hk, createdAt := createdAt)
      && SchemaValid(Patched(r, p))
  {
  }

  /** The room table, keyed by id. */
  class RoomStore {
    var rooms: map<Id, Room>

    /** Every room is stored under its own id and passes the schema. */
    ghost predicate Valid()
      reads this
    {
      forall id :: id in rooms ==> rooms[id].id == id && SchemaValid(rooms[id])
    }

    constructor()
      ensures rooms == map[] && Valid()
    {
      rooms := map[];
    }

    /** POST /rooms/room; `newId` is the id the database gives the room. */
    method Create(role: string, b: RoomBody, newId: Id, now: int) returns (reply: Reply<Room>)
      requires Valid() && newId !in rooms
      modifies this
      ensures reply == CreateReply(role, b, newId, now)
      ensures reply.Ok? ==> rooms == old(rooms)[newId := reply.body]
      ensures !reply.Ok? ==> rooms == old(rooms)
      ensures Valid()
    {
      reply := CreateReply(role, b, newId, now);
      if reply.Ok? {
        rooms := rooms[newId := reply.body];
      }
    }

    /** PUT /rooms/:id: 403 for other roles; the validators run before the
        lookup, so an invalid patch is 500 "Error updating room" even for an
        unknown id; then 404 for an unknown id; otherwise the patched room. */
    method Update(role: string, id: Id, p: RoomPatch) returns (reply: Reply<Room>)
      requires Valid()
      modifies this
      ensures !MayManageRooms(role) ==> reply == Denied
      ensures MayManageRooms(role) && !PatchValid(p) ==> reply == Err(500, "Error updating room")
      ensures MayManageRooms(role) && PatchValid(p) && id !in old(rooms) ==>
        reply == Err(404, "Room not found")
      ensures reply.Ok? <==> MayManageRooms(role) && PatchValid(p) && id in old(rooms)
      ensures reply.Ok? ==>
        reply == Ok(200, Patched(old(rooms)[id], p)) && rooms == old(rooms)[id := reply.body]
      ensures !reply.Ok? ==> rooms == old(rooms)
      ensures Valid()
    {
      if !MayManageRooms(role) {
        return Denied;
      }
      if !PatchValid(p) {
        return Err(500, "Error updating room");
      }
      if id !in rooms {
        return Err(404, "Room not found");
      }
      var room := Patched(rooms[id], p);
      rooms := rooms[id := room];
      reply := Ok(200, room);
    }

    /** DELETE /rooms/:id. */
    method Delete(role: string, id: Id) returns (reply: Reply<string>)
      requires Valid()
      modifies this
      ensures !MayManageRooms(role) ==> reply == Err(403, "") && rooms == old(rooms)
      ensures MayManageRooms(role) && id !in old(rooms) ==>
        reply == Err(404, "Room not found") && rooms == old(rooms)
      ensures MayManageRooms(role) && id in old(rooms) ==>
        reply == Ok(200, "Room deleted successfully") && rooms == old(rooms) - {id}
      ensures Valid()
    {
      if !MayManageRooms(role) {
        return Err(403, "");
      }
      if id !in rooms {
        return Err(404, "Room not found");
      }
      rooms := rooms - {id};
      reply := Ok(200, "Room deleted successfully");
    }

    /** POST /rooms/:id/assign: only `assignedHousekeeper` changes, to the id
        sent (None for null). */
    method Assign(role: string, id: Id, housekeeperId: Option<Id>) returns (reply: Reply<Room>)
      requires Valid()
      modifies this
      ensures !MayManageRooms(role) ==> reply == Denied && rooms == old(rooms)
      ensures MayManageRooms(role) && id !in old(rooms) ==>
        reply == Err(404, "Room not found") && rooms == old(rooms)
      ensures MayManageRooms(role) && id in old(rooms) ==>
        && reply == Ok(200, old(rooms)[id].(assignedHousekeeper := housekeeperId))
        && rooms == old(rooms)[id := reply.body]
      ensures Valid()
    {
      if !MayManageRooms(role) {
        return Denied;
      }
      if id !in rooms {
        return Err(404, "Room not found");
      }
      var room := rooms[id].(assignedHousekeeper := housekeeperId);
      rooms := rooms[id := room];
      reply := Ok(200, room);
    }
  }
}
