/** The room panel of a hotel: the add/edit form with its amenity
    checkboxes, and the submit that creates or updates a room and then
    reloads the hotel's rooms. */
module RoomManagement {
  import opened Common
  import opened RoomSchema
  import opened RoomRoutes

  /** The form: a room without its id. */
  datatype RoomForm = RoomForm(
    number: string,
    roomType: string,
    floor: int,
    capacity: int,
    price: int,
    status: string,
    amenities: seq<string>)

  /** The form the panel starts with and returns to after a submit or a
      cancelled edit. */
  const DefaultForm: RoomForm := RoomForm("", "Standard", 1, 2, 0, Available, [])

  /** The form filled from a room by its Edit button. */
  function FormOf(r: Room): (f: RoomForm)
    ensures f.number == r.number && f.roomType == r.roomType && f.floor == r.floor
    ensures f.capacity == r.capacity && f.price == r.price && f.status == r.status
    ensures f.amenities == r.amenities
  {
    RoomForm(r.number, r.roomType, r.floor, r.capacity, r.price, r.status, r.amenities)
  }

  /** A checkbox shows checked iff its amenity is in the list. */
  predicate IsChecked(amenities: seq<string>, amenity: string) {
    amenity in amenities
  }

  /** An amenity checkbox's onChange: checking appends the amenity at the
      end; unchecking removes every copy of it and keeps the others, with
      their multiplicities, in order. */
  function Toggle(amenities: seq<string>, amenity: string, checked: bool): (r: seq<string>)
    ensures checked ==> r == amenities + [amenity] && IsChecked(r, amenity)
    ensures !checked ==> !IsChecked(r, amenity) && IsSubsequence(r, amenities)
    ensures !checked ==> forall a :: a in r <==> a in amenities && a != amenity
    ensures !checked ==> multiset(r)[amenity] == 0
    ensures !checked ==> forall a :: a != amenity ==> multiset(r)[a] == multiset(amenities)[a]
  {
    if checked then amenities + [amenity]
    else
      var kept := Filter(amenities, (a: string) => a != amenity);
      FilterMultiplicity(amenities, (a: string) => a != amenity, amenity);
      assert forall a :: a != amenity ==> multiset(kept)[a] == multiset(amenities)[a] by {
        forall a | a != amenity ensures multiset(kept)[a] == multiset(amenities)[a] {
          FilterMultiplicity(amenities, (a: string) => a != amenity, a);
        }
      }
      kept
  }

  /** Checking an unchecked box and unchecking it again gives the list back. */
  lemma {:induction false} ToggleRoundTrip(amenities: seq<string>, amenity: string)
    requires !IsChecked(amenities, amenity)
    ensures Toggle(Toggle(amenities, amenity, true), amenity, false) == amenities
  {
    var keep := (a: string) => a != amenity;
    FilterAppend(amenities, [amenity], keep);
    FilterKeepsAll(amenities, keep);
    assert Filter([amenity], keep) == [];
  }

  /** The body the submit sends: the form's fields plus the hotel's id. */
  function AsBody(f: RoomForm, hotelId: Id): (b: RoomBody)
    ensures b.hotelId == hotelId && b.number == f.number && b.roomType == f.roomType
    ensures b.floor == f.floor && b.capacity == f.capacity && b.price == f.price
    ensures b.status == f.status && b.amenities == Some(f.amenities)
  {
    RoomBody(hotelId, f.number, f.roomType, f.floor, f.capacity, f.price, f.status, Some(f.amenities))
  }

  /** The same fields as a patch, for the update call. */
  function AsPatch(f: RoomForm, hotelId: Id): (p: RoomPatch)
    ensures p.hotelId == Some(hotelId) && p.number == Some(f.number) && p.roomType == Some(f.roomType)
    ensures p.floor == Some(f.floor) && p.capacity == Some(f.capacity) && p.price == Some(f.price)
    ensures p.status == Some(f.status) && p.amenities == Some(f.amenities)
    ensures p.assignedHousekeeper.None? && p.createdAt.None?
  {
    RoomPatch(Some(hotelId), Some(f.number), Some(f.roomType), Some(f.floor), Some(f.capacity),
              Some(f.price), Some(f.status), Some(f.amenities), None, None)
  }

  /** An edit from the room panel never changes who is assigned to the room
      or when it was created. */
  lemma FormEditKeepsAssignment(r: Room, f: RoomForm, hotelId: Id)
    ensures Patched(r, AsPatch(f, hotelId)).assignedHousekeeper == r.assignedHousekeeper
    ensures Patched(r, AsPatch(f, hotelId)).createdAt == r.createdAt
  {
  }

  /** The service call a submit makes. */
  datatype RoomCall = CreateRoom(body: RoomBody) | UpdateRoom(id: Id, patch: RoomPatch)

  class RoomPanel {
    const hotelId: Id
    var rooms: seq<Room>
    var editing: Option<Room>
    var form: RoomForm

    constructor(hotelId: Id, fetched: seq<Room>)
      ensures this.hotelId == hotelId && rooms == fetched && editing == None && form == DefaultForm
    {
      this.hotelId := hotelId;
      rooms := fetched;
      editing := None;
      form := DefaultForm;
    }

    /** The Edit button of a room. */
    method BeginEdit(r: Room)
      modifies this
      ensures editing == Some(r) && form == FormOf(r) && rooms == old(rooms)
    {
      editing := Some(r);
      form := FormOf(r);
    }

    /** The Cancel Edit button. */
    method CancelEdit()
      modifies this
      ensures editing == None && form == DefaultForm && rooms == old(rooms)
    {
      editing := None;
      form := DefaultForm;
    }

    /** An amenity checkbox's onChange; only the form's amenities change. */
    method ToggleAmenity(amenity: string, checked: bool)
      modifies this
      ensures form == old(form).(amenities := Toggle(old(form).amenities, amenity, checked))
      ensures IsChecked(form.amenities, amenity) <==> checked
      ensures editing == old(editing) && rooms == old(rooms)
    {
      form := form.(amenities := Toggle(form.amenities, amenity, checked));
    }

    /** handleSubmit. The call is an update of the edited room when editing,
        a create otherwise, with the form plus the hotel id. `succeeded` is
        whether that call resolved: only then are editing and the form reset,
        and the list replaced by the reloaded rooms when the reload (None if
        it failed) returns them. A failed call changes nothing. */
    method Submit(succeeded: bool, reloaded: Option<seq<Room>>) returns (call: RoomCall)
      modifies this
      ensures old(editing).Some? ==> call == UpdateRoom(old(editing).value.id, AsPatch(old(form), hotelId))
      ensures old(editing).None? ==> call == CreateRoom(AsBody(old(form), hotelId))
      ensures succeeded ==> editing == None && form == DefaultForm
      ensures succeeded && reloaded.Some? ==> rooms == reloaded.value
      ensures succeeded && reloaded.None? ==> rooms == old(rooms)
      ensures !succeeded ==> editing == old(editing) && form == old(form) && rooms == old(rooms)
    {
      if editing.Some? {
        call := UpdateRoom(editing.value.id, AsPatch(form, hotelId));
      } else {
        call := CreateRoom(AsBody(form, hotelId));
      }
      if succeeded {
        editing := None;
        form := DefaultForm;
        if reloaded.Some? {
          rooms := reloaded.value;
        }
      }
    }
  }

  /** The panel's price starts at 0, which the create route's falsy check
      refuses: a room created from a form whose price was left at its
      default is never stored, whatever else the form holds. */
  lemma DefaultPriceRefused(f: RoomForm, role: string, hotelId: Id, newId: Id, now: int)
    requires f.price == DefaultForm.price
    ensures !CreateReply(role, AsBody(f, hotelId), newId, now).Ok?
  {
  }
}
