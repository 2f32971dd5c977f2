/** The hotels page: the search over the loaded hotels, who may manage them,
    and the list updates after adding, updating and deleting a hotel and
    adding a room to one. */
module HotelsPage {
  import opened Common
  import opened Text
  import opened RoomSchema
  import opened RoomRoutes
  import HotelSchema

  /** A hotel as the page holds it. `id` is its `_id`; `plainId` is a
      property named `id`, which the hotels the server returns never carry
      (None). Fields the page only displays are not part of this model. */
  datatype HotelEntry = HotelEntry(
    id: Id,
    plainId: Option<Id>,
    name: string,
    address: string,
    rooms: Option<seq<Room>>)

  /** Hotels as loaded from the server. */
  predicate Loaded(hotels: seq<HotelEntry>) {
    forall h :: h in hotels ==> h.plainId == None
  }

  /** canManageHotels: only a SuperAdmin or an Admin (None is no user).
      Every such role may also manage rooms, while a Manager may manage
      rooms but not hotels. */
  function CanManageHotels(role: Option<string>): (b: bool)
    ensures b <==> role == Some("SuperAdmin") || role == Some("Admin")
    ensures b ==> MayManageRooms(role.value)
  {
    role.Some? && (role.value == "SuperAdmin" || role.value == "Admin")
  }

  /** The search: the lower-cased name or address includes the lower-cased
      term. */
  predicate MatchesSearch(h: HotelEntry, term: string) {
    Includes(LowerCase(h.name), LowerCase(term)) || Includes(LowerCase(h.address), LowerCase(term))
  }

  /** filteredHotels: the matching hotels in their order; the empty term
      matches every hotel. */
  function FilteredHotels(hotels: seq<HotelEntry>, term: string): (r: seq<HotelEntry>)
    ensures IsSubsequence(r, hotels)
    ensures forall h :: h in r <==> h in hotels && MatchesSearch(h, term)
    ensures term == "" ==> r == hotels
  {
    var keep := (h: HotelEntry) => MatchesSearch(h, term);
    if term == "" then
      FilterKeepsAll(hotels, keep);
      Filter(hotels, keep)
    else Filter(hotels, keep)
  }

  /** The `map` of handleUpdateHotel as written: it compares `hotel.id`,
      which loaded hotels do not have. */
  function ReplaceAsWritten(hotels: seq<HotelEntry>, hotelId: Id, updated: HotelEntry): (r: seq<HotelEntry>)
    ensures |r| == |hotels|
    ensures forall k :: 0 <= k < |hotels| ==>
      r[k] == if hotels[k].plainId == Some(hotelId) then updated else hotels[k]
    ensures Loaded(hotels) ==> r == hotels
  {
    seq(|hotels|, k requires 0 <= k < |hotels| =>
      if hotels[k].plainId == Some(hotelId) then updated else hotels[k])
  }

  /** The `filter` of handleDeleteHotel as written, comparing `hotel.id`. */
  function RemoveAsWritten(hotels: seq<HotelEntry>, hotelId: Id): (r: seq<HotelEntry>)
    ensures IsSubsequence(r, hotels)
    ensures forall h :: h in r <==> h in hotels && h.plainId != Some(hotelId)
  {
    Filter(hotels, (h: HotelEntry) => h.plainId != Some(hotelId))
  }

  /** As written, deleting a loaded hotel leaves the list as it was. */
  lemma {:induction false} RemoveAsWrittenKeepsAll(hotels: seq<HotelEntry>, hotelId: Id)
    requires Loaded(hotels)
    ensures RemoveAsWritten(hotels, hotelId) == hotels
  {
    FilterKeepsAll(hotels, (h: HotelEntry) => h.plainId != Some(hotelId));
  }

  /** The update keyed on `_id`: every hotel with that id becomes the
      returned hotel, the others stay. */
  function ReplaceById(hotels: seq<HotelEntry>, hotelId: Id, updated: HotelEntry): (r: seq<HotelEntry>)
    ensures |r| == |hotels|
    ensures forall k :: 0 <= k < |hotels| && hotels[k].id == hotelId ==> r[k] == updated
    ensures forall k :: 0 <= k < |hotels| && hotels[k].id != hotelId ==> r[k] == hotels[k]
  {
    seq(|hotels|, k requires 0 <= k < |hotels| => if hotels[k].id == hotelId then updated else hotels[k])
  }

  /** The delete keyed on `_id`: exactly the hotels with another id remain,
      in their order. */
  function RemoveById(hotels: seq<HotelEntry>, hotelId: Id): (r: seq<HotelEntry>)
    ensures IsSubsequence(r, hotels)
    ensures forall h :: h in r <==> h in hotels && h.id != hotelId
  {
    Filter(hotels, (h: HotelEntry) => h.id != hotelId)
  }

  /** Unlike the code as written, the corrected update does reach a loaded
      hotel carrying the id. */
  lemma UpdateReachesLoadedHotel(hotels: seq<HotelEntry>, k: nat, updated: HotelEntry)
    requires Loaded(hotels) && k < |hotels| && updated != hotels[k]
    ensures ReplaceAsWritten(hotels, hotels[k].id, updated) == hotels
    ensures ReplaceById(hotels, hotels[k].id, updated) != hotels
  {
    assert ReplaceById(hotels, hotels[k].id, updated)[k] == updated;
  }

  /** The `map` of handleAddRoom: the room is appended to the rooms of each
      hotel with that `_id` (a hotel without rooms gets a list of one), and
      every other hotel stays. */
  function WithRoom(hotels: seq<HotelEntry>, hotelId: Id, room: Room): (r: seq<HotelEntry>)
    ensures |r| == |hotels|
    ensures forall k :: 0 <= k < |hotels| && hotels[k].id != hotelId ==> r[k] == hotels[k]
    ensures forall k :: 0 <= k < |hotels| && hotels[k].id == hotelId ==>
      && r[k].rooms.Some?
      && r[k].rooms.value == (if hotels[k].rooms.Some? then hotels[k].rooms.value else []) + [room]
      && r[k].(rooms := hotels[k].rooms) == hotels[k]
  {
    seq(|hotels|, k requires 0 <= k < |hotels| =>
      if hotels[k].id == hotelId
      then hotels[k].(rooms := Some((if hotels[k].rooms.Some? then hotels[k].rooms.value else []) + [room]))
      else hotels[k])
  }

  /** POST /hotels: 201 with the saved hotel, or 500 when it does not save. */
  function CreateHotelReply(f: HotelSchema.HotelFields, id: Id, now: int): (r: Reply<HotelSchema.Hotel>)
    ensures r.Ok? <==> HotelSchema.Instantiate(f, id, now).Some?
    ensures r.Ok? ==> r.code == 201 && HotelSchema.SchemaValid(r.body) && r.body.id == id
    ensures r.Err? ==> r == Err(500, "Error creating hotels")
  {
    match HotelSchema.Instantiate(f, id, now)
    case Some(h) => Ok(201, h)
    case None => Err(500, "Error creating hotels")
  }

  /** The hotel the creation route builds when handleAddRoom calls the hotel
      service as written: that service takes one argument, so only the hotel
      id is posted, as a bare string the JSON body parser does not read, and
      the route adds the caller as `createdBy`. No hotel field is given. */
  function RoomPostedAsHotel(createdBy: Id): HotelSchema.HotelFields {
    HotelSchema.HotelFields("", "", "", "", None, "", "", createdBy)
  }

  /** As written, adding a room never succeeds: the hotel route refuses the
      document it builds with a 500, the service call rejects, and the catch
      of handleAddRoom leaves the list as it was (AddRoom with None). */
  lemma AddRoomAsWrittenRefused(createdBy: Id, id: Id, now: int)
    ensures HotelSchema.Instantiate(RoomPostedAsHotel(createdBy), id, now).None?
    ensures CreateHotelReply(RoomPostedAsHotel(createdBy), id, now) == Err(500, "Error creating hotels")
  {
  }

  /** The page's hotel list and its add-hotel dialog flag. */
  class HotelsBoard {
    var hotels: seq<HotelEntry>
    var showAddHotel: bool

    constructor(loaded: seq<HotelEntry>)
      ensures hotels == loaded && !showAddHotel
    {
      hotels := loaded;
      showAddHotel := false;
    }

    /** handleAddHotel; `created` is the service's hotel, None if it failed. */
    method AddHotel(created: Option<HotelEntry>)
      modifies this
      ensures created.Some? ==> hotels == old(hotels) + [created.value] && !showAddHotel
      ensures created.None? ==> hotels == old(hotels) && showAddHotel == old(showAddHotel)
    {
      if created.Some? {
        hotels := hotels + [created.value];
        showAddHotel := false;
      }
    }

    /** handleUpdateHotel, keyed on `_id`; `updated` is None if the service failed. */
    method UpdateHotel(hotelId: Id, updated: Option<HotelEntry>)
      modifies this
      ensures updated.Some? ==> hotels == ReplaceById(old(hotels), hotelId, updated.value)
      ensures updated.None? ==> hotels == old(hotels)
      ensures showAddHotel == old(showAddHotel)
    {
      if updated.Some? {
        hotels := ReplaceById(hotels, hotelId, updated.value);
      }
    }

    /** handleDeleteHotel, keyed on `_id`. */
    method DeleteHotel(hotelId: Id, succeeded: bool)
      modifies this
      ensures succeeded ==> hotels == RemoveById(old(hotels), hotelId)
      ensures !succeeded ==> hotels == old(hotels)
      ensures showAddHotel == old(showAddHotel)
    {
      if succeeded {
        hotels := RemoveById(hotels, hotelId);
      }
    }

    /** handleAddRoom; `created` is the service's room, None if it returned
      none or failed, in which case nothing changes. */
    method AddRoom(hotelId: Id, created: Option<Room>)
      modifies this
      ensures created.Some? ==> hotels == WithRoom(old(hotels), hotelId, created.value)
      ensures created.None? ==> hotels == old(hotels)
      ensures showAddHotel == old(showAddHotel)
    {
      if created.Some? {
        hotels := WithRoom(hotels, hotelId, created.value);
      }
    }
  }
}
