/**
 * The persisted records of the hotel application (Hotel, Room, Booking), their
 * enumerations, and the table-level invariants the services rely on.
 * Dates are milliseconds since the epoch; prices are integers (cents).
 */
module Entities {
  import opened Wrappers
  import Seqs

  datatype RoomType = Single | Double | Suite | Family

  datatype BookingStatus = Pending | Confirmed | Cancelled

  datatype Order = Asc | Desc

  datatype Hotel = Hotel(id: string, name: string, description: string, amenities: seq<string>)

  datatype Room = Room(id: string, hotelId: string, roomNumber: string, roomType: RoomType,
                       pricePerNight: int, isAvailable: bool)

  datatype Booking = Booking(id: string, roomId: string, guestName: string, guestEmail: string,
                             checkIn: int, checkOut: int, status: BookingStatus, totalPrice: int)

  /** The spelling of a room type in requests and in the database. */
  function RoomTypeName(t: RoomType): string {
    match t
    case Single => "SINGLE"
    case Double => "DOUBLE"
    case Suite => "SUITE"
    case Family => "FAMILY"
  }

  /** Membership in ROOM_TYPES. */
  function ParseRoomType(s: string): (r: Option<RoomType>)
    ensures r.Some? <==> s in ["SINGLE", "DOUBLE", "SUITE", "FAMILY"]
    ensures r.Some? ==> RoomTypeName(r.value) == s
  {
    if s == "SINGLE" then Some(Single)
    else if s == "DOUBLE" then Some(Double)
    else if s == "SUITE" then Some(Suite)
    else if s == "FAMILY" then Some(Family)
    else None
  }

  lemma RoomTypeRoundTrip(t: RoomType)
    ensures ParseRoomType(RoomTypeName(t)) == Some(t)
  {
  }

  function StatusName(s: BookingStatus): string {
    match s
    case Pending => "PENDING"
    case Confirmed => "CONFIRMED"
    case Cancelled => "CANCELLED"
  }

  /** Membership in BOOKING_STATUS. */
  function ParseStatus(s: string): (r: Option<BookingStatus>)
    ensures r.Some? <==> s in ["PENDING", "CONFIRMED", "CANCELLED"]
    ensures r.Some? ==> StatusName(r.value) == s
  {
    if s == "PENDING" then Some(Pending)
    else if s == "CONFIRMED" then Some(Confirmed)
    else if s == "CANCELLED" then Some(Cancelled)
    else None
  }

  lemma StatusRoundTrip(s: BookingStatus)
    ensures ParseStatus(StatusName(s)) == Some(s)
  {
  }

  /** An active booking holds its room: PENDING or CONFIRMED. */
  predicate IsActive(s: BookingStatus) { s == Pending || s == Confirmed }

  // Lookups by primary key (findUnique). With unique ids the first match is the only one.

  function HotelIndex(hotels: seq<Hotel>, id: string): (r: Option<nat>)
    ensures r.Some? ==> r.value < |hotels| && hotels[r.value].id == id
    ensures r.None? <==> forall h :: h in hotels ==> h.id != id
  {
    Seqs.IndexOf(hotels, (h: Hotel) => h.id == id)
  }

  function RoomIndex(rooms: seq<Room>, id: string): (r: Option<nat>)
    ensures r.Some? ==> r.value < |rooms| && rooms[r.value].id == id
    ensures r.None? <==> forall x :: x in rooms ==> x.id != id
  {
    Seqs.IndexOf(rooms, (x: Room) => x.id == id)
  }

  function BookingIndex(bookings: seq<Booking>, id: string): (r: Option<nat>)
    ensures r.Some? ==> r.value < |bookings| && bookings[r.value].id == id
    ensures r.None? <==> forall b :: b in bookings ==> b.id != id
  {
    Seqs.IndexOf(bookings, (b: Booking) => b.id == id)
  }

  function FindRoom(rooms: seq<Room>, id: string): (r: Option<Room>)
    ensures r.Some? ==> r.value in rooms && r.value.id == id
    ensures r.None? <==> forall x :: x in rooms ==> x.id != id
  {
    match RoomIndex(rooms, id)
    case Some(k) => Some(rooms[k])
    case None => None
  }

  // Table invariants.

  predicate HotelIdsUnique(hotels: seq<Hotel>) {
    forall i, j :: 0 <= i < j < |hotels| ==> hotels[i].id != hotels[j].id
  }

  predicate RoomIdsUnique(rooms: seq<Room>) {
    forall i, j :: 0 <= i < j < |rooms| ==> rooms[i].id != rooms[j].id
  }

  predicate BookingIdsUnique(bookings: seq<Booking>) {
    forall i, j :: 0 <= i < j < |bookings| ==> bookings[i].id != bookings[j].id
  }

  /** A room number is used at most once per hotel. */
  predicate RoomNumbersUnique(rooms: seq<Room>) {
    forall i, j :: 0 <= i < j < |rooms| ==>
      !(rooms[i].hotelId == rooms[j].hotelId && rooms[i].roomNumber == rooms[j].roomNumber)
  }

  /** The stays [checkIn, checkOut) of two bookings intersect (half-open intervals). */
  predicate StaysIntersect(a: Booking, b: Booking) {
    a.checkIn < b.checkOut && b.checkIn < a.checkOut
  }

  /** No two active bookings of the same room hold intersecting stays. */
  predicate NoDoubleBooking(bookings: seq<Booking>) {
    forall i, j :: 0 <= i < j < |bookings| ==>
      !(bookings[i].roomId == bookings[j].roomId && IsActive(bookings[i].status)
        && IsActive(bookings[j].status) && StaysIntersect(bookings[i], bookings[j]))
  }
}
