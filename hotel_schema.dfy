/** The Hotel record as the Mongoose schema declares it: the required
    fields, the trimmed name, the minimum room count and the creation date. */
module HotelSchema {
  import opened Common
  import opened Text

  /** A stored hotel (its coordinates are not part of this model). */
  datatype Hotel = Hotel(
    id: Id,
    name: string,
    address: string,
    logo: string,
    image: string,
    totalRooms: int,
    floors: string,
    secretKey: string,
    createdBy: Id,
    createdAt: int)

  /** The values handed to `new Hotel({...})`; "" is a string left out and
      None a room count left out. */
  datatype HotelFields = HotelFields(
    name: string,
    address: string,
    logo: string,
    image: string,
    totalRooms: Option<int>,
    floors: string,
    secretKey: string,
    createdBy: Id)

  /** The schema's validators on a stored hotel: every string given, the
      name already trimmed, and at least one room. */
  predicate SchemaValid(h: Hotel) {
    && h.name != "" && Trim(h.name) == h.name
    && h.address != "" && h.logo != "" && h.image != ""
    && h.totalRooms >= 1
    && h.floors != "" && h.secretKey != "" && h.createdBy != ""
  }

  /** Builds the document as the schema does (the name's `trim` setter runs
      first, so a name of white space alone fails `required`; `createdAt`
      defaults to now) and validates it; None is a ValidationError. */
  function Instantiate(f: HotelFields, id: Id, now: int): (r: Option<Hotel>)
    ensures r.Some? <==>
      && !AllSpace(f.name) && f.address != "" && f.logo != "" && f.image != ""
      && f.totalRooms.Some? && f.totalRooms.value >= 1
      && f.floors != "" && f.secretKey != "" && f.createdBy != ""
    ensures r.Some? ==> SchemaValid(r.value)
    ensures r.Some? ==>
      && r.value.id == id && r.value.createdAt == now
      && r.value.name == Trim(f.name) && !IsSpace(r.value.name[0])
      && !IsSpace(r.value.name[|r.value.name| - 1])
      && r.value.address == f.address && r.value.logo == f.logo && r.value.image == f.image
      && r.value.totalRooms == f.totalRooms.value && r.value.floors == f.floors
      && r.value.secretKey == f.secretKey && r.value.createdBy == f.createdBy
  {
    if f.totalRooms.None? then None
    else
      var h := Hotel(id, Trim(f.name), f.address, f.logo, f.image, f.totalRooms.value,
                     f.floors, f.secretKey, f.createdBy, now);
      TrimIdempotent(f.name);
      if SchemaValid(h) then Some(h) else None
  }
}
