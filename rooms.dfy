/**
 * The rooms view (src/components/Rooms/RoomsManagement.js): the three list filters,
 * the room types the type filter offers, the per-status counts, the room-type lookups,
 * the change-status menu, and the view state that loading, a status change and the
 * hotel selector change.
 */
module Rooms {
  import opened Wrappers
  import opened Seqs
  import opened Text
  import opened Records
  import Api

  const RoomStatuses: seq<StatusInfo> := [
    StatusInfo("AVAILABLE", "Available", "success"),
    StatusInfo("OCCUPIED", "Occupied", "danger"),
    StatusInfo("MAINTENANCE", "Maintenance", "warning"),
    StatusInfo("OUT_OF_ORDER", "Out of Order", "danger")
  ]

  const LoadError: string := "Error loading room data. Please try again."
  const UpdateSuccess: string := "Room status updated successfully!"
  const UpdateError: string := "Error updating room status. Please try again."

  /** The four room statuses are distinct strings. */
  lemma RoomStatusValues()
    ensures Values(RoomStatuses) == ["AVAILABLE", "OCCUPIED", "MAINTENANCE", "OUT_OF_ORDER"]
    ensures Distinct(Values(RoomStatuses))
  {
  }

  /** The filter of one room: each non-empty criterion must hold; ids compare as decimal strings. */
  predicate Matches(r: Room, hotel: string, status: string, roomType: string)
  {
    && (hotel == "" || IntToString(r.hotelId) == hotel)
    && (status == "" || r.status == status)
    && (roomType == "" || IntToString(r.roomTypeId) == roomType)
  }

  function Kept(hotel: string, status: string, roomType: string): Room -> bool
  {
    r => Matches(r, hotel, status, roomType)
  }

  /** filteredRooms: the rooms that pass every non-empty filter, in their original order. */
  function FilteredRooms(rooms: seq<Room>, hotel: string, status: string, roomType: string): (r: seq<Room>)
    ensures forall x :: x in r <==> x in rooms && Matches(x, hotel, status, roomType)
    ensures forall x :: multiset(r)[x] == if Matches(x, hotel, status, roomType) then multiset(rooms)[x] else 0
    ensures hotel == "" && status == "" && roomType == "" ==> r == rooms
  {
    FilterMultiset(rooms, Kept(hotel, status, roomType));
    if hotel == "" && status == "" && roomType == "" then
      FilterKeepsAll(rooms, Kept(hotel, status, roomType));
      Filter(rooms, Kept(hotel, status, roomType))
    else
      Filter(rooms, Kept(hotel, status, roomType))
  }

  /** The filtered list keeps the original order. */
  lemma FilteredRoomsIsSubsequence(rooms: seq<Room>, hotel: string, status: string, roomType: string)
    ensures IsSubsequence(FilteredRooms(rooms, hotel, status, roomType), rooms)
  {
    FilterIsSubsequence(rooms, Kept(hotel, status, roomType));
  }

  /** Choosing hotel `id` and room type `t` keeps exactly the rooms of that hotel and type. */
  lemma FilterSelectsHotelAndType(rooms: seq<Room>, id: int, t: int)
    ensures forall x :: x in FilteredRooms(rooms, IntToString(id), "", IntToString(t)) <==>
                          x in rooms && x.hotelId == id && x.roomTypeId == t
  {
    forall x: Room
      ensures IntToString(x.hotelId) == IntToString(id) <==> x.hotelId == id
      ensures IntToString(x.roomTypeId) == IntToString(t) <==> x.roomTypeId == t
    {
      IntToStringInjective(x.hotelId, id);
      IntToStringInjective(x.roomTypeId, t);
    }
  }

  function HotelOfType(rt: RoomType): string
  {
    IntToString(rt.hotelId)
  }

  /** availableRoomTypes: every type when no hotel is chosen, else the chosen hotel's types. */
  function AvailableRoomTypes(roomTypes: seq<RoomType>, hotel: string): (r: seq<RoomType>)
    ensures hotel == "" ==> r == roomTypes
    ensures hotel != "" ==> forall rt :: rt in r <==> rt in roomTypes && IntToString(rt.hotelId) == hotel
    ensures IsSubsequence(r, roomTypes)
  {
    if hotel == "" then
      assert IsEmbedding(roomTypes, roomTypes, seq(|roomTypes|, i => i));
      roomTypes
    else
      var matches := KeyIs(HotelOfType, hotel);
      forall rt ensures matches(rt) <==> IntToString(rt.hotelId) == hotel {
        KeyIsAt(HotelOfType, hotel, rt);
      }
      FilterIsSubsequence(roomTypes, matches);
      Filter(roomTypes, matches)
  }

  /** With hotel `id` chosen, the type filter offers exactly that hotel's room types. */
  lemma AvailableTypesOfHotel(roomTypes: seq<RoomType>, id: int)
    ensures forall rt :: rt in AvailableRoomTypes(roomTypes, IntToString(id)) <==> rt in roomTypes && rt.hotelId == id
  {
    forall rt: RoomType {
      IntToStringInjective(rt.hotelId, id);
    }
  }

  function RoomTypeIdOf(rt: RoomType): int
  {
    rt.id
  }

  /** The first room type with the id, if any. */
  function RoomTypeOf(roomTypes: seq<RoomType>, id: int): (r: Option<RoomType>)
    ensures r.None? <==> forall rt :: rt in roomTypes ==> rt.id != id
    ensures r.Some? ==> exists i :: 0 <= i < |roomTypes| && roomTypes[i] == r.value && roomTypes[i].id == id
                                    && forall j :: 0 <= j < i ==> roomTypes[j].id != id
  {
    var matches := KeyIs(RoomTypeIdOf, id);
    forall rt ensures matches(rt) <==> rt.id == id {
      KeyIsAt(RoomTypeIdOf, id, rt);
    }
    Find(roomTypes, matches)
  }

  /** The room type `id` is in the list and is its first entry with that id. */
  ghost predicate FirstWithId(roomTypes: seq<RoomType>, id: int, rt: RoomType)
  {
    exists i :: 0 <= i < |roomTypes| && roomTypes[i] == rt && rt.id == id
                && forall j :: 0 <= j < i ==> roomTypes[j].id != id
  }

  /** getRoomTypeName: the first matching type's name, else "Type " followed by the id. */
  function GetRoomTypeName(roomTypes: seq<RoomType>, id: int): (name: string)
    ensures (forall rt :: rt in roomTypes ==> rt.id != id) ==> name == "Type " + IntToString(id)
    ensures (exists rt :: rt in roomTypes && rt.id == id) ==>
              exists rt :: FirstWithId(roomTypes, id, rt) && name == rt.name
  {
    match RoomTypeOf(roomTypes, id)
    case Some(rt) => rt.name
    case None => "Type " + IntToString(id)
  }

  /** getRoomTypePrice: the first matching type's base price, else 0. */
  function GetRoomTypePrice(roomTypes: seq<RoomType>, id: int): (price: real)
    ensures (forall rt :: rt in roomTypes ==> rt.id != id) ==> price == 0.0
    ensures (exists rt :: rt in roomTypes && rt.id == id) ==>
              exists rt :: FirstWithId(roomTypes, id, rt) && price == rt.basePrice
  {
    match RoomTypeOf(roomTypes, id)
    case Some(rt) => rt.basePrice
    case None => 0.0
  }

  /** getRoomTypeCapacity: the first matching type's maximum occupancy, else 0. */
  function GetRoomTypeCapacity(roomTypes: seq<RoomType>, id: int): (capacity: int)
    ensures (forall rt :: rt in roomTypes ==> rt.id != id) ==> capacity == 0
    ensures (exists rt :: rt in roomTypes && rt.id == id) ==>
              exists rt :: FirstWithId(roomTypes, id, rt) && capacity == rt.maxOccupancy
  {
    match RoomTypeOf(roomTypes, id)
    case Some(rt) => rt.maxOccupancy
    case None => 0
  }

  /** getStatusInfo: the room table's row for the status, or a generic grey badge. */
  function GetStatusInfo(status: string): (r: StatusInfo)
    ensures r.value == status
    ensures status in Values(RoomStatuses) ==> r in RoomStatuses
    ensures status !in Values(RoomStatuses) ==> r == StatusInfo(status, status, "secondary")
  {
    StatusInfoIn(RoomStatuses, status)
  }

  /** The change-status menu of a room: every room status except its current one, in table order. */
  function StatusOptions(current: string): (options: seq<StatusInfo>)
    ensures forall info :: info in options <==> info in RoomStatuses && info.value != current
    ensures IsSubsequence(options, RoomStatuses)
    ensures current in Values(RoomStatuses) ==> |options| == 3
    ensures current !in Values(RoomStatuses) ==> options == RoomStatuses
  {
    RoomStatusValues();
    OtherStatusesSize(RoomStatuses, current);
    FilterIsSubsequence(RoomStatuses, (info: StatusInfo) => info.value != current);
    OtherStatuses(RoomStatuses, current)
  }

  function StatusOf(r: Room): string
  {
    r.status
  }

  datatype StatusCounts = StatusCounts(total: nat, available: nat, occupied: nat, maintenance: nat, outOfOrder: nat)

  /** getStatusCounts: the size of the filtered list and the number of its rooms in each status. */
  function GetStatusCounts(filtered: seq<Room>): (c: StatusCounts)
    ensures c.total == |filtered|
    ensures c.available <= c.total && c.occupied <= c.total && c.maintenance <= c.total && c.outOfOrder <= c.total
  {
    StatusCounts(
      |filtered|,
      |Filter(filtered, KeyIs(StatusOf, "AVAILABLE"))|,
      |Filter(filtered, KeyIs(StatusOf, "OCCUPIED"))|,
      |Filter(filtered, KeyIs(StatusOf, "MAINTENANCE"))|,
      |Filter(filtered, KeyIs(StatusOf, "OUT_OF_ORDER"))|)
  }

  /** When every room has one of the four statuses, the four counts add up to the total. */
  lemma CountsAddUp(filtered: seq<Room>)
    requires forall r :: r in filtered ==> r.status in Values(RoomStatuses)
    ensures var c := GetStatusCounts(filtered);
            c.available + c.occupied + c.maintenance + c.outOfOrder == c.total
  {
    var keys := Values(RoomStatuses);
    RoomStatusValues();
    assert forall x :: x in filtered ==> StatusOf(x) in keys;
    CountByKeysCoversAll(filtered, StatusOf, keys);
    var c := GetStatusCounts(filtered);
    var k1, k2, k3 := keys[1..], keys[2..], keys[3..];
    assert k1 == ["OCCUPIED", "MAINTENANCE", "OUT_OF_ORDER"] && k1[1..] == k2;
    assert k2 == ["MAINTENANCE", "OUT_OF_ORDER"] && k2[1..] == k3;
    assert k3 == ["OUT_OF_ORDER"] && k3[1..] == [];
    assert CountByKeys(filtered, StatusOf, k3) == c.outOfOrder;
    assert CountByKeys(filtered, StatusOf, k2) == c.maintenance + c.outOfOrder;
    assert CountByKeys(filtered, StatusOf, k1) == c.occupied + c.maintenance + c.outOfOrder;
  }

  /**
   * The body of a status change: the room spread with the new status, or, when the room
   * is not in the list (spreading undefined adds nothing), the status alone.
   */
  datatype RoomUpdate = FullRoom(room: Room) | StatusOnly(status: string)

  function RoomIdIs(id: int): Room -> bool
  {
    (r: Room) => r.id == id
  }

  /** The state of the rooms view. */
  class RoomsView {
    var rooms: seq<Room>
    var hotels: seq<Hotel>
    var roomTypes: seq<RoomType>
    var loading: bool
    var filterHotel: string
    var filterStatus: string
    var filterRoomType: string
    var message: Message
    var updatingRoom: Option<int>

    constructor()
      ensures rooms == [] && hotels == [] && roomTypes == [] && loading
      ensures filterHotel == "" && filterStatus == "" && filterRoomType == ""
      ensures message == NoMessage && updatingRoom == None
    {
      rooms, hotels, roomTypes, loading := [], [], [], true;
      filterHotel, filterStatus, filterRoomType := "", "", "";
      message, updatingRoom := NoMessage, None;
    }

    /** The list the grid shows. */
    function Filtered(): seq<Room>
      reads this
    {
      FilteredRooms(rooms, filterHotel, filterStatus, filterRoomType)
    }

    /** loadData: the three lists replace the old ones together, or an error banner appears; loading ends. */
    method LoadData(fetched: Api.Reply<(seq<Room>, seq<Hotel>, seq<RoomType>)>)
      modifies this
      ensures !loading
      ensures fetched.Ok? ==>
                rooms == fetched.value.0 && hotels == fetched.value.1 && roomTypes == fetched.value.2
                && message == old(message)
      ensures fetched.Fail? ==>
                rooms == old(rooms) && hotels == old(hotels) && roomTypes == old(roomTypes)
                && message == Message("error", LoadError)
      ensures filterHotel == old(filterHotel) && filterStatus == old(filterStatus) && filterRoomType == old(filterRoomType)
      ensures updatingRoom == old(updatingRoom)
    {
      loading := true;
      if fetched.Ok? {
        rooms, hotels, roomTypes := fetched.value.0, fetched.value.1, fetched.value.2;
      } else {
        message := Message("error", LoadError);
      }
      loading := false;
    }

    /**
     * updateRoomStatus: sends the room with its new status, reloads on success, and
     * always ends with no room marked as updating.
     */
    method UpdateRoomStatus(roomId: int, newStatus: string, reply: Api.Reply<()>,
                            reload: Api.Reply<(seq<Room>, seq<Hotel>, seq<RoomType>)>)
      returns (sent: Api.Call<RoomUpdate>)
      modifies this
      ensures sent.verb == Api.Put && sent.path == Api.RoomPath(roomId)
      ensures (forall r :: r in old(rooms) ==> r.id != roomId) ==> sent.body == Some(StatusOnly(newStatus))
      ensures (exists r :: r in old(rooms) && r.id == roomId) ==>
                exists i :: 0 <= i < |old(rooms)| && old(rooms)[i].id == roomId
                            && (forall j :: 0 <= j < i ==> old(rooms)[j].id != roomId)
                            && sent.body == Some(FullRoom(old(rooms)[i].(status := newStatus)))
      ensures updatingRoom == None
      ensures reply.Fail? ==>
                message == Message("error", UpdateError)
                && rooms == old(rooms) && hotels == old(hotels) && roomTypes == old(roomTypes) && loading == old(loading)
      ensures reply.Ok? ==>
                !loading
                && (reload.Ok? ==> rooms == reload.value.0 && hotels == reload.value.1 && roomTypes == reload.value.2
                                   && message == Message("success", UpdateSuccess))
                && (reload.Fail? ==> rooms == old(rooms) && hotels == old(hotels) && roomTypes == old(roomTypes)
                                     && message == Message("error", LoadError))
      ensures filterHotel == old(filterHotel) && filterStatus == old(filterStatus) && filterRoomType == old(filterRoomType)
    {
      updatingRoom := Some(roomId);
      var found := Find(rooms, RoomIdIs(roomId));
      assert forall r :: RoomIdIs(roomId)(r) <==> r.id == roomId;
      var body := if found.Some? then FullRoom(found.value.(status := newStatus)) else StatusOnly(newStatus);
      sent := Api.UpdateRoom(roomId, body);
      if found.Some? {
        FirstFound(rooms, roomId, found.value);
      }
      if reply.Ok? {
        message := Message("success", UpdateSuccess);
        LoadData(reload);
      } else {
        message := Message("error", UpdateError);
      }
      updatingRoom := None;
    }

    /** The "Clear Filters" button: all three filters empty, so the grid shows every room. */
    method ClearFilters()
      modifies this
      ensures filterHotel == "" && filterStatus == "" && filterRoomType == ""
      ensures Filtered() == rooms
      ensures rooms == old(rooms) && hotels == old(hotels) && roomTypes == old(roomTypes)
      ensures loading == old(loading) && message == old(message) && updatingRoom == old(updatingRoom)
    {
      filterHotel, filterStatus, filterRoomType := "", "", "";
    }

    /** The hotel selector: sets the hotel filter and clears the room-type filter. */
    method SelectHotel(value: string)
      modifies this
      ensures filterHotel == value && filterRoomType == ""
      ensures filterStatus == old(filterStatus)
      ensures rooms == old(rooms) && hotels == old(hotels) && roomTypes == old(roomTypes)
      ensures loading == old(loading) && message == old(message) && updatingRoom == old(updatingRoom)
    {
      filterHotel := value;
      filterRoomType := "";
    }
  }

  /** The room Find returns is the first room with the id. */
  lemma FirstFound(rooms: seq<Room>, id: int, r: Room)
    requires Find(rooms, RoomIdIs(id)) == Some(r)
    ensures exists i :: 0 <= i < |rooms| && rooms[i] == r && r.id == id
                        && forall j :: 0 <= j < i ==> rooms[j].id != id
  {
    var i :| 0 <= i < |rooms| && rooms[i] == r && RoomIdIs(id)(rooms[i])
             && forall j :: 0 <= j < i ==> !RoomIdIs(id)(rooms[j]);
  }

  /** After choosing a hotel, the grid shows that hotel's rooms in the chosen status, whatever type was chosen before. */
  lemma SelectHotelShowsHotel(rooms: seq<Room>, id: int, status: string)
    ensures forall x :: x in FilteredRooms(rooms, IntToString(id), status, "") <==>
                          x in rooms && x.hotelId == id && (status == "" || x.status == status)
  {
    forall x: Room {
      IntToStringInjective(x.hotelId, id);
    }
  }
}
