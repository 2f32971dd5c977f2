/** The Room record as the Mongoose schema declares it: the type and status
    enums, the capacity and price minimums, the required fields and the
    defaults applied when a document is built. */
module RoomSchema {
  import opened Common

  /** The values the schema's `enum` admits for `type`. */
  predicate IsRoomType(t: string) {
    t == "Standard" || t == "Deluxe" || t == "Suite" || t == "Presidential"
  }

  const Available: string := "Available"

  /** The values the schema's `enum` admits for `status`. */
  predicate IsRoomStatus(s: string) {
    s == Available || s == "Occupied" || s == "Maintenance"
  }

  /** A stored room. Numbers are whole; `assignedHousekeeper` is None for null. */
  datatype Room = Room(
    id: Id,
    hotelId: Id,
    number: string,
    roomType: string,
    floor: int,
    capacity: int,
    price: int,
    status: string,
    amenities: seq<string>,
    assignedHousekeeper: Option<Id>,
    createdAt: int)

  /** The values handed to `new Room({...})`; None is a field left undefined. */
  datatype RoomFields = RoomFields(
    hotelId: Id,
    number: string,
    roomType: string,
    floor: Option<int>,
    capacity: Option<int>,
    price: Option<int>,
    status: Option<string>,
    amenities: Option<seq<string>>)

  /** The schema's validators on a stored room: hotel and number given, the
      type and status in their enums, capacity at least 1, price at least 0.
      (`required` on a Number accepts 0, so the floor is unconstrained.) */
  predicate SchemaValid(r: Room) {
    && r.hotelId != "" && r.number != ""
    && IsRoomType(r.roomType) && IsRoomStatus(r.status)
    && r.capacity >= 1 && r.price >= 0
  }

  /** Builds the document with the schema's defaults (status "Available",
      no amenities, no housekeeper, created now) and validates it as `save`
      does; None is a ValidationError. */
  function Instantiate(f: RoomFields, id: Id, now: int): (r: Option<Room>)
    ensures r.Some? <==>
      && f.hotelId != "" && f.number != "" && IsRoomType(f.roomType)
      && f.floor.Some? && f.capacity.Some? && f.capacity.value >= 1
      && f.price.Some? && f.price.value >= 0
      && (f.status.None? || IsRoomStatus(f.status.value))
    ensures r.Some? ==> SchemaValid(r.value)
    ensures r.Some? ==>
      && r.value.id == id && r.value.createdAt == now && r.value.assignedHousekeeper == None
      && r.value.hotelId == f.hotelId && r.value.number == f.number && r.value.roomType == f.roomType
      && r.value.floor == f.floor.value && r.value.capacity == f.capacity.value
      && r.value.price == f.price.value
      && r.value.status == (if f.status.Some? then f.status.value else Available)
      && r.value.amenities == (if f.amenities.Some? then f.amenities.value else [])
  {
    if f.floor.None? || f.capacity.None? || f.price.None? then None
    else
      var room := Room(id, f.hotelId, f.number, f.roomType, f.floor.value, f.capacity.value,
                       f.price.value, if f.status.Some? then f.status.value else Available,
                       if f.amenities.Some? then f.amenities.value else [], None, now);
      if SchemaValid(room) then Some(room) else None
  }
}
