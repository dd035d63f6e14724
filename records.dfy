/**
 * The backend's records as the client holds them after a fetch, and the small
 * display tables the views share. Instants are milliseconds since the epoch; amounts
 * and ratings are reals.
 */
module Records {
  import opened Wrappers
  import opened Seqs
  import opened Text

  /** The signed-in principal, as returned by the login endpoint. */
  datatype User = User(id: int, firstName: Option<string>, lastName: Option<string>, email: string, role: string)

  datatype Hotel = Hotel(
    id: int,
    name: string,
    description: Option<string>,
    address: string,
    city: string,
    state: Option<string>,
    country: Option<string>,
    postalCode: Option<string>,
    phone: Option<string>,
    email: Option<string>,
    rating: Option<real>)

  datatype RoomType = RoomType(id: int, hotelId: int, name: string, basePrice: real, maxOccupancy: int)

  datatype Room = Room(id: int, hotelId: int, roomTypeId: int, roomNumber: string, floor: int, status: string)

  datatype Booking = Booking(
    id: int,
    hotelId: int,
    roomId: int,
    userId: int,
    checkInDate: int,
    checkOutDate: int,
    createdAt: int,
    adults: int,
    children: int,
    bookingStatus: string,
    paymentStatus: string,
    totalAmount: Option<real>)

  /** One recorded status transition of a booking. */
  datatype HistoryEntry = HistoryEntry(fromStatus: string, toStatus: string, changedBy: int, reason: string, changedAt: int)

  /** A row of a status table: the value, its label (`caption`, since `label` is a Dafny keyword) and its badge colour. */
  datatype StatusInfo = StatusInfo(value: string, caption: string, color: string)

  /** The banner a view shows; both fields empty means no banner. */
  datatype Message = Message(kind: string, text: string)

  const NoMessage := Message("", "")

  function ValueOf(info: StatusInfo): string
  {
    info.value
  }

  /** The values a status table lists, in table order. */
  function Values(table: seq<StatusInfo>): (vs: seq<string>)
    ensures |vs| == |table|
    ensures forall i :: 0 <= i < |table| ==> vs[i] == table[i].value
  {
    seq(|table|, i requires 0 <= i < |table| => table[i].value)
  }

  /**
   * The table row for `status`, or the generic {value, label, color} = {status, status, "secondary"}
   * row when the table does not list it.
   */
  function StatusInfoIn(table: seq<StatusInfo>, status: string): (r: StatusInfo)
    ensures r.value == status
    ensures status in Values(table) ==> r in table
    ensures status !in Values(table) ==> r == StatusInfo(status, status, "secondary")
  {
    var matches := KeyIs(ValueOf, status);
    forall info ensures matches(info) <==> info.value == status {
      KeyIsAt(ValueOf, status, info);
    }
    match Find(table, matches)
    case Some(info) => info
    case None =>
      StatusInfo(status, status, "secondary")
  }

  /** The rows of a table other than the one whose value is `current`, in table order. */
  function OtherStatuses(table: seq<StatusInfo>, current: string): (r: seq<StatusInfo>)
    ensures forall info :: info in r <==> info in table && info.value != current
  {
    Filter(table, (info: StatusInfo) => info.value != current)
  }

  /** A table whose values are distinct loses exactly one row to `current` when it lists it, and none otherwise. */
  lemma OtherStatusesSize(table: seq<StatusInfo>, current: string)
    requires Distinct(Values(table))
    ensures current in Values(table) ==> |OtherStatuses(table, current)| == |table| - 1
    ensures current !in Values(table) ==> OtherStatuses(table, current) == table
  {
    var p := (info: StatusInfo) => info.value != current;
    if current in Values(table) {
      var i :| 0 <= i < |table| && Values(table)[i] == current;
      FilterDropsOne(table, p, i);
    } else {
      FilterKeepsAll(table, p);
    }
  }

  function HotelIdOf(h: Hotel): int
  {
    h.id
  }

  /** getHotelName: the name of the first hotel with the id, else "Hotel " followed by the id. */
  function GetHotelName(hotels: seq<Hotel>, hotelId: int): (name: string)
    ensures (forall h :: h in hotels ==> h.id != hotelId) ==> name == "Hotel " + IntToString(hotelId)
    ensures (exists h :: h in hotels && h.id == hotelId) ==>
              exists i :: 0 <= i < |hotels| && hotels[i].id == hotelId && name == hotels[i].name
                          && forall j :: 0 <= j < i ==> hotels[j].id != hotelId
  {
    var matches := KeyIs(HotelIdOf, hotelId);
    forall h ensures matches(h) <==> h.id == hotelId {
      KeyIsAt(HotelIdOf, hotelId, h);
    }
    match Find(hotels, matches)
    case Some(h) => h.name
    case None => "Hotel " + IntToString(hotelId)
  }
}
