/**
 * The bookings view (src/components/Bookings/BookingsManagement.js): the three list
 * filters, the per-status counts, the status tables, the hotel-name lookup, day
 * arithmetic for check-in notices, the change-status menu, and the view state that
 * loading, status updates and the history modal change.
 */
module Bookings {
  import opened Wrappers
  import opened Seqs
  import opened Text
  import opened Records
  import Api

  /** Milliseconds in a day, 1000 * 60 * 60 * 24. */
  const Day: int := 86400000
  const Week: int := 7 * Day

  const BookingStatuses: seq<StatusInfo> := [
    StatusInfo("PENDING", "Pending", "warning"),
    StatusInfo("CONFIRMED", "Confirmed", "success"),
    StatusInfo("CHECKED_IN", "Checked In", "info"),
    StatusInfo("CHECKED_OUT", "Checked Out", "secondary"),
    StatusInfo("CANCELLED", "Cancelled", "danger")
  ]

  const PaymentStatuses: seq<StatusInfo> := [
    StatusInfo("PENDING", "Pending", "warning"),
    StatusInfo("PAID", "Paid", "success"),
    StatusInfo("REFUNDED", "Refunded", "info")
  ]

  const LoadError: string := "Error loading booking data. Please try again."
  const UpdateSuccess: string := "Booking status updated successfully!"
  const UpdateError: string := "Error updating booking status. Please try again."
  const HistoryError: string := "Error loading booking history. Please try again."

  /**
   * The time inputs of the date-range filter: the current instant, the instant
   * new Date(year, month + 1, day) denotes, and the local calendar day of an instant
   * (toDateString equality is equality of calendar days).
   */
  datatype Clock = Clock(now: int, nextMonth: int, dayOf: int -> int)

  /** The check-in date-range filter; the empty value and any unknown value keep everything. */
  predicate InDateRange(range: string, checkIn: int, clock: Clock)
  {
    if range == "" then true
    else if range == "today" then clock.dayOf(checkIn) == clock.dayOf(clock.now)
    else if range == "week" then clock.now <= checkIn <= clock.now + Week
    else if range == "month" then clock.now <= checkIn <= clock.nextMonth
    else if range == "past" then checkIn < clock.now
    else true
  }

  /** The filter of one booking: each non-empty criterion must hold. */
  predicate Matches(b: Booking, status: string, hotel: string, range: string, clock: Clock)
  {
    && (status == "" || b.bookingStatus == status)
    && (hotel == "" || IntToString(b.hotelId) == hotel)
    && InDateRange(range, b.checkInDate, clock)
  }

  function Kept(status: string, hotel: string, range: string, clock: Clock): Booking -> bool
  {
    b => Matches(b, status, hotel, range, clock)
  }

  /** filteredBookings: the bookings that pass every non-empty filter, in their original order. */
  function FilteredBookings(bookings: seq<Booking>, status: string, hotel: string, range: string, clock: Clock)
    : (r: seq<Booking>)
    ensures forall b :: b in r <==> b in bookings && Matches(b, status, hotel, range, clock)
    ensures forall b :: multiset(r)[b] == if Matches(b, status, hotel, range, clock) then multiset(bookings)[b] else 0
    ensures status == "" && hotel == "" && range == "" ==> r == bookings
  {
    FilterMultiset(bookings, Kept(status, hotel, range, clock));
    if status == "" && hotel == "" && range == "" then
      FilterKeepsAll(bookings, Kept(status, hotel, range, clock));
      Filter(bookings, Kept(status, hotel, range, clock))
    else
      Filter(bookings, Kept(status, hotel, range, clock))
  }

  /** The filtered list keeps the original order: it is a subsequence of the bookings. */
  lemma FilteredBookingsIsSubsequence(bookings: seq<Booking>, status: string, hotel: string, range: string, clock: Clock)
    ensures IsSubsequence(FilteredBookings(bookings, status, hotel, range, clock), bookings)
  {
    FilterIsSubsequence(bookings, Kept(status, hotel, range, clock));
  }

  /** Choosing hotel `id` in the hotel filter keeps exactly the bookings of hotel `id`. */
  lemma HotelFilterSelectsHotel(bookings: seq<Booking>, id: int, clock: Clock)
    ensures forall b :: b in FilteredBookings(bookings, "", IntToString(id), "", clock) <==> b in bookings && b.hotelId == id
  {
    forall b: Booking {
      IntToStringInjective(b.hotelId, id);
    }
  }

  /** A booking the week filter keeps is never one the past filter keeps. */
  lemma WeekAndPastDisjoint(checkIn: int, clock: Clock)
    ensures !(InDateRange("week", checkIn, clock) && InDateRange("past", checkIn, clock))
    ensures clock.now <= checkIn <= clock.now + Week ==> InDateRange("week", checkIn, clock) && !InDateRange("past", checkIn, clock)
  {
  }

  function StatusOf(b: Booking): string
  {
    b.bookingStatus
  }

  datatype BookingCounts = BookingCounts(total: nat, pending: nat, confirmed: nat, checkedIn: nat, checkedOut: nat, cancelled: nat)

  /** getBookingCounts: the size of the filtered list and the number of its bookings in each status. */
  function GetBookingCounts(filtered: seq<Booking>): (c: BookingCounts)
    ensures c.total == |filtered|
    ensures c.pending <= c.total && c.confirmed <= c.total && c.checkedIn <= c.total
    ensures c.checkedOut <= c.total && c.cancelled <= c.total
  {
    BookingCounts(
      |filtered|,
      |Filter(filtered, KeyIs(StatusOf, "PENDING"))|,
      |Filter(filtered, KeyIs(StatusOf, "CONFIRMED"))|,
      |Filter(filtered, KeyIs(StatusOf, "CHECKED_IN"))|,
      |Filter(filtered, KeyIs(StatusOf, "CHECKED_OUT"))|,
      |Filter(filtered, KeyIs(StatusOf, "CANCELLED"))|)
  }

  /** When every booking has one of the five statuses, the five counts add up to the total. */
  lemma CountsAddUp(filtered: seq<Booking>)
    requires forall b :: b in filtered ==> b.bookingStatus in Values(BookingStatuses)
    ensures var c := GetBookingCounts(filtered);
            c.pending + c.confirmed + c.checkedIn + c.checkedOut + c.cancelled == c.total
  {
    var keys := Values(BookingStatuses);
    BookingStatusValues();
    assert forall x :: x in filtered ==> StatusOf(x) in keys;
    CountByKeysCoversAll(filtered, StatusOf, keys);
    var c := GetBookingCounts(filtered);
    var k1, k2, k3, k4 := keys[1..], keys[2..], keys[3..], keys[4..];
    assert k1 == ["CONFIRMED", "CHECKED_IN", "CHECKED_OUT", "CANCELLED"] && k1[1..] == k2;
    assert k2 == ["CHECKED_IN", "CHECKED_OUT", "CANCELLED"] && k2[1..] == k3;
    assert k3 == ["CHECKED_OUT", "CANCELLED"] && k3[1..] == k4;
    assert k4 == ["CANCELLED"] && k4[1..] == [];
    assert CountByKeys(filtered, StatusOf, k4) == c.cancelled;
    assert CountByKeys(filtered, StatusOf, k3) == c.checkedOut + c.cancelled;
    assert CountByKeys(filtered, StatusOf, k2) == c.checkedIn + c.checkedOut + c.cancelled;
    assert CountByKeys(filtered, StatusOf, k1) == c.confirmed + c.checkedIn + c.checkedOut + c.cancelled;
  }

  /** The five booking statuses are distinct strings. */
  lemma BookingStatusValues()
    ensures Values(BookingStatuses) == ["PENDING", "CONFIRMED", "CHECKED_IN", "CHECKED_OUT", "CANCELLED"]
    ensures Distinct(Values(BookingStatuses))
  {
  }

  /** getStatusInfo: the booking table for "booking", the payment table for any other type. */
  function GetStatusInfo(status: string, statusType: string): (r: StatusInfo)
    ensures r.value == status
    ensures statusType == "booking" && status in Values(BookingStatuses) ==> r in BookingStatuses
    ensures statusType != "booking" && status in Values(PaymentStatuses) ==> r in PaymentStatuses
    ensures status !in Values(if statusType == "booking" then BookingStatuses else PaymentStatuses) ==>
              r == StatusInfo(status, status, "secondary")
  {
    StatusInfoIn(if statusType == "booking" then BookingStatuses else PaymentStatuses, status)
  }

  /** Math.ceil(ms / 86400000): the least whole number of days that covers `ms`. */
  function CeilDays(ms: int): (days: int)
    ensures (days - 1) * Day < ms <= days * Day
  {
    if ms % Day == 0 then ms / Day else ms / Day + 1
  }

  /** getDaysUntilCheckIn: whole days, rounded up, from now to the check-in instant. */
  function DaysUntilCheckIn(checkIn: int, now: int): (days: int)
    ensures checkIn <= now ==> days <= 0
    ensures checkIn > now ==> days >= 1
    ensures now <= checkIn <= now + Week ==> 0 <= days <= 7
  {
    CeilDays(checkIn - now)
  }

  /** The number of nights shown for a stay, rounded up. */
  function Nights(b: Booking): (n: int)
    ensures b.checkOutDate > b.checkInDate ==> n >= 1
  {
    CeilDays(b.checkOutDate - b.checkInDate)
  }

  /** The notice next to a check-in date: only for 0 to 7 days ahead. */
  function DaysNotice(days: int): (notice: Option<string>)
    ensures notice.Some? <==> 0 <= days <= 7
    ensures days == 0 ==> notice == Some("Today")
    ensures days == 1 ==> notice == Some("Tomorrow")
    ensures 2 <= days <= 7 ==> notice == Some(IntToString(days) + " days")
  {
    if 0 <= days <= 7 then
      Some(if days == 0 then "Today" else if days == 1 then "Tomorrow" else IntToString(days) + " days")
    else None
  }

  /** The change-status menu of a booking: every booking status except its current one, in table order. */
  function StatusOptions(current: string): (options: seq<StatusInfo>)
    ensures forall info :: info in options <==> info in BookingStatuses && info.value != current
    ensures IsSubsequence(options, BookingStatuses)
    ensures current in Values(BookingStatuses) ==> |options| == 4
    ensures current !in Values(BookingStatuses) ==> options == BookingStatuses
  {
    BookingStatusValues();
    OtherStatusesSize(BookingStatuses, current);
    FilterIsSubsequence(BookingStatuses, (info: StatusInfo) => info.value != current);
    OtherStatuses(BookingStatuses, current)
  }

  /** The state of the bookings view. */
  class BookingsView {
    var bookings: seq<Booking>
    var hotels: seq<Hotel>
    var loading: bool
    var filterStatus: string
    var filterHotel: string
    var filterDateRange: string
    var message: Message
    var showHistoryModal: bool
    var bookingHistory: seq<HistoryEntry>
    var selectedBookingId: Option<int>
    var updatingBooking: Option<int>

    constructor()
      ensures bookings == [] && hotels == [] && loading
      ensures filterStatus == "" && filterHotel == "" && filterDateRange == ""
      ensures message == NoMessage && !showHistoryModal && bookingHistory == []
      ensures selectedBookingId == None && updatingBooking == None
    {
      bookings, hotels, loading := [], [], true;
      filterStatus, filterHotel, filterDateRange := "", "", "";
      message, showHistoryModal, bookingHistory := NoMessage, false, [];
      selectedBookingId, updatingBooking := None, None;
    }

    /** The list the table shows. */
    function Filtered(clock: Clock): seq<Booking>
      reads this
    {
      FilteredBookings(bookings, filterStatus, filterHotel, filterDateRange, clock)
    }

    /** The "Clear Filters" button: all three filters empty, so the table lists every booking. */
    method ClearFilters()
      modifies this
      ensures filterStatus == "" && filterHotel == "" && filterDateRange == ""
      ensures forall clock :: Filtered(clock) == bookings
      ensures bookings == old(bookings) && hotels == old(hotels) && loading == old(loading) && message == old(message)
      ensures showHistoryModal == old(showHistoryModal) && bookingHistory == old(bookingHistory)
      ensures selectedBookingId == old(selectedBookingId) && updatingBooking == old(updatingBooking)
    {
      filterStatus, filterHotel, filterDateRange := "", "", "";
    }

    /** loadData: both lists replace the old ones together, or an error banner appears; loading ends. */
    method LoadData(fetched: Api.Reply<(seq<Booking>, seq<Hotel>)>)
      modifies this
      ensures !loading
      ensures fetched.Ok? ==> bookings == fetched.value.0 && hotels == fetched.value.1 && message == old(message)
      ensures fetched.Fail? ==> bookings == old(bookings) && hotels == old(hotels) && message == Message("error", LoadError)
      ensures filterStatus == old(filterStatus) && filterHotel == old(filterHotel) && filterDateRange == old(filterDateRange)
      ensures showHistoryModal == old(showHistoryModal) && bookingHistory == old(bookingHistory)
      ensures selectedBookingId == old(selectedBookingId) && updatingBooking == old(updatingBooking)
    {
      loading := true;
      if fetched.Ok? {
        bookings := fetched.value.0;
        hotels := fetched.value.1;
      } else {
        message := Message("error", LoadError);
      }
      loading := false;
    }

    /**
     * handleStatusUpdate: sends the new status with the admin's id and a fixed reason,
     * reloads on success, and always ends with no booking marked as updating. Reading the
     * id of an absent user throws before anything is sent.
     */
    method HandleStatusUpdate(bookingId: int, newStatus: string, user: Option<User>,
                              reply: Api.Reply<()>, reload: Api.Reply<(seq<Booking>, seq<Hotel>)>)
      returns (sent: Option<Api.Call<Api.StatusChange>>)
      modifies this
      ensures updatingBooking == None
      ensures user.None? ==> sent == None
      ensures user.Some? ==>
                sent == Some(Api.UpdateBookingStatus(bookingId, newStatus, user.value.id,
                                                      "Status updated by admin to " + newStatus))
      ensures user.None? || reply.Fail? ==>
                message == Message("error", UpdateError)
                && bookings == old(bookings) && hotels == old(hotels) && loading == old(loading)
      ensures user.Some? && reply.Ok? ==>
                !loading
                && (reload.Ok? ==> bookings == reload.value.0 && hotels == reload.value.1
                                   && message == Message("success", UpdateSuccess))
                && (reload.Fail? ==> bookings == old(bookings) && hotels == old(hotels)
                                     && message == Message("error", LoadError))
      ensures filterStatus == old(filterStatus) && filterHotel == old(filterHotel) && filterDateRange == old(filterDateRange)
      ensures showHistoryModal == old(showHistoryModal) && bookingHistory == old(bookingHistory)
      ensures selectedBookingId == old(selectedBookingId)
    {
      updatingBooking := Some(bookingId);
      if user.None? {
        sent := None;
        message := Message("error", UpdateError);
      } else {
        sent := Some(Api.UpdateBookingStatus(bookingId, newStatus, user.value.id,
                                             "Status updated by admin to " + newStatus));
        if reply.Ok? {
          message := Message("success", UpdateSuccess);
          LoadData(reload);
        } else {
          message := Message("error", UpdateError);
        }
      }
      updatingBooking := None;
    }

    /** viewBookingHistory: opens the modal on the fetched history, or shows an error banner. */
    method ViewBookingHistory(bookingId: int, fetched: Api.Reply<seq<HistoryEntry>>)
      modifies this
      ensures fetched.Ok? ==>
                bookingHistory == fetched.value && selectedBookingId == Some(bookingId)
                && showHistoryModal && message == old(message)
      ensures fetched.Fail? ==>
                bookingHistory == old(bookingHistory) && selectedBookingId == old(selectedBookingId)
                && showHistoryModal == old(showHistoryModal) && message == Message("error", HistoryError)
      ensures bookings == old(bookings) && hotels == old(hotels) && loading == old(loading)
      ensures updatingBooking == old(updatingBooking)
      ensures filterStatus == old(filterStatus) && filterHotel == old(filterHotel) && filterDateRange == old(filterDateRange)
    {
      match fetched
      case Ok(history) =>
        bookingHistory := history;
        selectedBookingId := Some(bookingId);
        showHistoryModal := true;
      case Fail(_) =>
        message := Message("error", HistoryError);
    }
  }
}
