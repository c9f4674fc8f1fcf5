/**
 * The booking engine: price computation, the availability query, and the
 * create, update, list and lookup operations over the booking table.
 */
module BookingService {
  import opened Wrappers
  import opened Entities
  import opened Arith
  import opened Seqs
  import opened Paging
  import opened Store

  const DAY_MS: int := 1000 * 60 * 60 * 24

  const ROOM_NOT_FOUND := "Room not found"
  const ROOM_NOT_BOOKABLE := "Room is not available for booking"
  const DATES_TAKEN := "Room is not available for the selected dates"
  const UPDATED_DATES_TAKEN := "Room is not available for the updated dates"
  const BOOKING_NOT_FOUND := "Booking not found"
  const HOTEL_NOT_FOUND := "Hotel not found"

  // ---------------------------------------------------------------- price

  /** Nights charged for a stay: the ceiling of its length in days (negative for an inverted stay). */
  function Nights(checkIn: int, checkOut: int): (n: int)
    ensures (n - 1) * DAY_MS < checkOut - checkIn <= n * DAY_MS
  {
    CeilDiv(checkOut - checkIn, DAY_MS)
  }

  /** calculateTotalPrice: the nightly rate times the nights charged. */
  function CalculateTotalPrice(pricePerNight: int, checkIn: int, checkOut: int): (p: int)
    ensures checkIn < checkOut ==> Nights(checkIn, checkOut) >= 1
    ensures checkIn < checkOut <= checkIn + DAY_MS ==> p == pricePerNight
  {
    assert checkIn < checkOut <= checkIn + DAY_MS ==> Nights(checkIn, checkOut) == 1 by {
      if checkIn < checkOut <= checkIn + DAY_MS {
        PartialDayIsWholeNight(checkIn, checkOut, 1);
      }
    }
    pricePerNight * Nights(checkIn, checkOut)
  }

  /** A stay of exactly `days` whole days costs `days` nights. */
  lemma TotalPriceWholeDays(pricePerNight: int, checkIn: int, days: int)
    ensures CalculateTotalPrice(pricePerNight, checkIn, checkIn + days * DAY_MS) == pricePerNight * days
  {
    CeilDivExact(days, DAY_MS);
    assert checkIn + days * DAY_MS - checkIn == days * DAY_MS;
  }

  /** Any started day is charged as a whole night. */
  lemma PartialDayIsWholeNight(checkIn: int, checkOut: int, days: int)
    requires (days - 1) * DAY_MS < checkOut - checkIn <= days * DAY_MS
    ensures Nights(checkIn, checkOut) == days
  {
    CeilDivUnique(checkOut - checkIn, DAY_MS, days);
  }

  /** Price 100 from 2024-01-01 to 2024-01-03 (UTC midnights) is 200. */
  lemma TwoNightsExample()
    ensures CalculateTotalPrice(100, 1704067200000, 1704240000000) == 200
  {
    TotalPriceWholeDays(100, 1704067200000, 2);
  }

  // ---------------------------------------------------------------- availability

  /** The three OR clauses of the conflict query, as written. */
  predicate OverlapClauses(e: Booking, checkIn: int, checkOut: int) {
    // the new stay starts during the existing one
    (e.checkIn <= checkIn && e.checkOut > checkIn)
    // the new stay ends during the existing one
    || (e.checkIn < checkOut && e.checkOut >= checkOut)
    // the new stay contains the existing one
    || (e.checkIn >= checkIn && e.checkOut <= checkOut)
  }

  /** For two non-empty stays the three clauses are the half-open intersection test. */
  lemma OverlapClausesIffIntersect(e: Booking, checkIn: int, checkOut: int)
    requires e.checkIn < e.checkOut && checkIn < checkOut
    ensures OverlapClauses(e, checkIn, checkOut) <==> e.checkIn < checkOut && e.checkOut > checkIn
  {
  }

  /** For a non-empty new stay, every intersecting existing stay is caught by a clause. */
  lemma IntersectionIsCaught(e: Booking, checkIn: int, checkOut: int)
    requires checkIn < checkOut
    requires e.checkIn < checkOut && e.checkOut > checkIn
    ensures OverlapClauses(e, checkIn, checkOut)
  {
  }

  /** Back-to-back stays, sharing only a changeover day, never conflict. */
  lemma BackToBackNeverConflicts(e: Booking, checkIn: int, checkOut: int)
    requires e.checkIn < e.checkOut && checkIn < checkOut
    requires e.checkOut == checkIn || e.checkIn == checkOut
    ensures !OverlapClauses(e, checkIn, checkOut)
  {
  }

  /** `id: excludeBookingId ? { not: excludeBookingId } : undefined` -- an empty id excludes nothing. */
  predicate Excluded(exclude: Option<string>, id: string) {
    exclude.Some? && exclude.value != "" && id == exclude.value
  }

  /** The `where` of the conflict query. */
  predicate Conflicts(b: Booking, roomId: string, checkIn: int, checkOut: int, exclude: Option<string>) {
    b.roomId == roomId && IsActive(b.status) && !Excluded(exclude, b.id) && OverlapClauses(b, checkIn, checkOut)
  }

  /** The conflict test for one requested stay, as a predicate on bookings. */
  function ConflictTest(roomId: string, checkIn: int, checkOut: int, exclude: Option<string>): Booking -> bool {
    (b: Booking) => Conflicts(b, roomId, checkIn, checkOut, exclude)
  }

  datatype Availability = Availability(available: bool, conflictingBookings: seq<Booking>)

  /** checkRoomAvailability: the room must exist and be bookable, then no booking may conflict. */
  function CheckRoomAvailability(rooms: seq<Room>, bookings: seq<Booking>, roomId: string,
                                 checkIn: int, checkOut: int, exclude: Option<string>): (r: Result<Availability>)
    ensures FindRoom(rooms, roomId).None? ==> r == Err(ROOM_NOT_FOUND)
    ensures FindRoom(rooms, roomId).Some? && !FindRoom(rooms, roomId).value.isAvailable ==> r == Err(ROOM_NOT_BOOKABLE)
    ensures r.Ok? <==> FindRoom(rooms, roomId).Some? && FindRoom(rooms, roomId).value.isAvailable
    ensures r.Ok? ==> forall b :: b in r.value.conflictingBookings <==>
                        b in bookings && Conflicts(b, roomId, checkIn, checkOut, exclude)
    ensures r.Ok? ==> (r.value.available <==>
                        forall b :: b in bookings ==> !Conflicts(b, roomId, checkIn, checkOut, exclude))
  {
    match FindRoom(rooms, roomId)
    case None => Err(ROOM_NOT_FOUND)
    case Some(room) =>
      if !room.isAvailable then Err(ROOM_NOT_BOOKABLE)
      else
        var conflicting := Filter(bookings, ConflictTest(roomId, checkIn, checkOut, exclude));
        assert |conflicting| > 0 ==> conflicting[0] in conflicting;
        Ok(Availability(|conflicting| == 0, conflicting))
  }

  /**
   * For a non-empty requested stay against non-empty stored stays, the answer is
   * "available" exactly when no other active booking of the room intersects it.
   */
  lemma AvailableIffNoIntersectingStay(rooms: seq<Room>, bookings: seq<Booking>, roomId: string,
                                       checkIn: int, checkOut: int, exclude: Option<string>)
    requires checkIn < checkOut
    requires forall b :: b in bookings ==> b.checkIn < b.checkOut
    requires CheckRoomAvailability(rooms, bookings, roomId, checkIn, checkOut, exclude).Ok?
    ensures CheckRoomAvailability(rooms, bookings, roomId, checkIn, checkOut, exclude).value.available <==>
      forall b :: b in bookings && b.roomId == roomId && IsActive(b.status) && !Excluded(exclude, b.id)
                  ==> !(b.checkIn < checkOut && b.checkOut > checkIn)
  {
    forall b | b in bookings {
      OverlapClausesIffIntersect(b, checkIn, checkOut);
    }
  }

  /** A booking C that is cancelled, of another room, or excluded cannot make a booking unavailable. */
  predicate Irrelevant(b: Booking, roomId: string, exclude: Option<string>) {
    b.roomId != roomId || b.status == Cancelled || Excluded(exclude, b.id)
  }

  /** Adding irrelevant bookings to the table never changes the answer. */
  lemma IrrelevantBookingsIgnored(rooms: seq<Room>, bookings: seq<Booking>, extra: seq<Booking>,
                                  roomId: string, checkIn: int, checkOut: int, exclude: Option<string>)
    requires forall b :: b in extra ==> Irrelevant(b, roomId, exclude)
    ensures CheckRoomAvailability(rooms, bookings + extra, roomId, checkIn, checkOut, exclude)
         == CheckRoomAvailability(rooms, bookings, roomId, checkIn, checkOut, exclude)
  {
    var p := ConflictTest(roomId, checkIn, checkOut, exclude);
    FilterConcat(bookings, extra, p);
    assert forall b :: b in extra ==> !p(b);
    FilterNone(extra, p);
    assert Filter(bookings + extra, p) == Filter(bookings, p);
  }

  // ---------------------------------------------------------------- create

  /** A create payload after createBookingSchema (status defaulted). */
  datatype BookingData = BookingData(roomId: string, guestName: string, guestEmail: string,
                                     checkIn: int, checkOut: int, status: BookingStatus)

  /** Appending a non-empty stay that conflicts with nothing keeps the table free of double bookings. */
  lemma AppendKeepsNoDoubleBooking(bookings: seq<Booking>, nb: Booking)
    requires NoDoubleBooking(bookings)
    requires nb.checkIn < nb.checkOut
    requires forall b :: b in bookings ==> !Conflicts(b, nb.roomId, nb.checkIn, nb.checkOut, None)
    ensures NoDoubleBooking(bookings + [nb])
  {
    var t := bookings + [nb];
    forall i, j | 0 <= i < j < |t|
      ensures !(t[i].roomId == t[j].roomId && IsActive(t[i].status) && IsActive(t[j].status) && StaysIntersect(t[i], t[j]))
    {
      if j == |bookings| {
        assert t[i] in bookings;
        if StaysIntersect(t[i], nb) { IntersectionIsCaught(t[i], nb.checkIn, nb.checkOut); }
      }
    }
  }

  /** createBooking: check availability, price the stay from the room's rate, store the booking. */
  method CreateBooking(db: Database, data: BookingData, newId: string) returns (r: Result<Booking>)
    requires forall b :: b in db.bookings ==> b.id != newId
    modifies db
    ensures db.hotels == old(db.hotels) && db.rooms == old(db.rooms)
    ensures var check := CheckRoomAvailability(old(db.rooms), old(db.bookings), data.roomId, data.checkIn, data.checkOut, None);
      && (check.Err? ==> r == Err(check.error))
      && (check.Ok? && !check.value.available ==> r == Err(DATES_TAKEN))
      && (check.Ok? && check.value.available ==> r.Ok?)
    ensures r.Err? ==> db.bookings == old(db.bookings)
    ensures r.Ok? ==> (
      && FindRoom(old(db.rooms), data.roomId).Some?
      && r.value == Booking(newId, data.roomId, data.guestName, data.guestEmail, data.checkIn, data.checkOut, data.status,
                            CalculateTotalPrice(FindRoom(old(db.rooms), data.roomId).value.pricePerNight, data.checkIn, data.checkOut))
      && db.bookings == old(db.bookings) + [r.value])
    ensures old(BookingIdsUnique(db.bookings)) ==> BookingIdsUnique(db.bookings)
    ensures old(NoDoubleBooking(db.bookings)) && data.checkIn < data.checkOut ==> NoDoubleBooking(db.bookings)
  {
    var availability := CheckRoomAvailability(db.rooms, db.bookings, data.roomId, data.checkIn, data.checkOut, None);
    if availability.Err? {
      return Err(availability.error);
    }
    if !availability.value.available {
      return Err(DATES_TAKEN);
    }
    var room := FindRoom(db.rooms, data.roomId).value;
    var totalPrice := CalculateTotalPrice(room.pricePerNight, data.checkIn, data.checkOut);
    var booking := Booking(newId, data.roomId, data.guestName, data.guestEmail, data.checkIn, data.checkOut,
                           data.status, totalPrice);
    if NoDoubleBooking(db.bookings) && data.checkIn < data.checkOut {
      AppendKeepsNoDoubleBooking(db.bookings, booking);
    }
    db.bookings := db.bookings + [booking];
    r := Ok(booking);
  }

  // ---------------------------------------------------------------- update

  /** An update payload: every field optional; totalPrice is written by the service itself. */
  datatype BookingPatch = BookingPatch(guestName: Option<string>, guestEmail: Option<string>,
                                       checkIn: Option<int>, checkOut: Option<int>,
                                       status: Option<BookingStatus>, totalPrice: Option<int>)

  /** `if (data.checkIn || data.checkOut)`. */
  predicate DatesGiven(p: BookingPatch) { p.checkIn.Some? || p.checkOut.Some? }

  /** prisma.booking.update: the given fields replace the stored ones. */
  function ApplyPatch(b: Booking, p: BookingPatch): (r: Booking)
    ensures r.id == b.id && r.roomId == b.roomId
  {
    Booking(b.id, b.roomId, p.guestName.GetOr(b.guestName), p.guestEmail.GetOr(b.guestEmail),
            p.checkIn.GetOr(b.checkIn), p.checkOut.GetOr(b.checkOut), p.status.GetOr(b.status),
            p.totalPrice.GetOr(b.totalPrice))
  }

  /** A booking rewritten with its stay and status unchanged keeps the table free of double bookings. */
  lemma SameStayKeepsNoDoubleBooking(bookings: seq<Booking>, k: nat, nb: Booking)
    requires NoDoubleBooking(bookings) && k < |bookings|
    requires nb.roomId == bookings[k].roomId && nb.status == bookings[k].status
    requires nb.checkIn == bookings[k].checkIn && nb.checkOut == bookings[k].checkOut
    ensures NoDoubleBooking(bookings[k := nb])
  {
    var t := bookings[k := nb];
    forall i, j | 0 <= i < j < |t|
      ensures !(t[i].roomId == t[j].roomId && IsActive(t[i].status) && IsActive(t[j].status) && StaysIntersect(t[i], t[j]))
    {
      assert StaysIntersect(t[i], t[j]) == StaysIntersect(bookings[i], bookings[j]);
    }
  }

  /**
   * A booking moved to a non-empty stay that conflicts with no booking other than
   * itself keeps the table free of double bookings.
   */
  lemma ReplaceKeepsNoDoubleBooking(bookings: seq<Booking>, k: nat, nb: Booking)
    requires NoDoubleBooking(bookings) && BookingIdsUnique(bookings) && k < |bookings|
    requires nb.id == bookings[k].id && nb.roomId == bookings[k].roomId
    requires nb.checkIn < nb.checkOut
    requires forall b :: b in bookings ==> !Conflicts(b, nb.roomId, nb.checkIn, nb.checkOut, Some(nb.id))
    ensures NoDoubleBooking(bookings[k := nb])
  {
    var t := bookings[k := nb];
    forall i, j | 0 <= i < j < |t|
      ensures !(t[i].roomId == t[j].roomId && IsActive(t[i].status) && IsActive(t[j].status) && StaysIntersect(t[i], t[j]))
    {
      if i == k || j == k {
        var o := if i == k then j else i;
        assert bookings[o] in bookings && bookings[o].id != nb.id;
        if StaysIntersect(bookings[o], nb) { IntersectionIsCaught(bookings[o], nb.checkIn, nb.checkOut); }
        assert StaysIntersect(t[i], t[j]) == StaysIntersect(bookings[o], nb);
      }
    }
  }

  /**
   * updateBooking: when a date is given, the stay is completed from the stored
   * booking, checked against every other booking and re-priced; then the patch is written.
   */
  method UpdateBooking(db: Database, id: string, data: BookingPatch) returns (r: Result<Booking>)
    modifies db
    ensures db.hotels == old(db.hotels) && db.rooms == old(db.rooms)
    ensures r.Err? ==> db.bookings == old(db.bookings)
    ensures BookingIndex(old(db.bookings), id).None? ==>
              r == Err(if DatesGiven(data) then BOOKING_NOT_FOUND else RECORD_TO_UPDATE_NOT_FOUND)
    ensures BookingIndex(old(db.bookings), id).Some? && !DatesGiven(data) ==>
      var k := BookingIndex(old(db.bookings), id).value;
      r == Ok(ApplyPatch(old(db.bookings)[k], data)) && db.bookings == old(db.bookings)[k := r.value]
    ensures BookingIndex(old(db.bookings), id).Some? && DatesGiven(data) ==>
      var k := BookingIndex(old(db.bookings), id).value;
      var existing := old(db.bookings)[k];
      var checkIn := data.checkIn.GetOr(existing.checkIn);
      var checkOut := data.checkOut.GetOr(existing.checkOut);
      var check := CheckRoomAvailability(old(db.rooms), old(db.bookings), existing.roomId, checkIn, checkOut, Some(id));
      && (check.Err? ==> r == Err(check.error))
      && (check.Ok? && !check.value.available ==> r == Err(UPDATED_DATES_TAKEN))
      && (check.Ok? && check.value.available ==>
            var price := CalculateTotalPrice(FindRoom(old(db.rooms), existing.roomId).value.pricePerNight, checkIn, checkOut);
            r == Ok(ApplyPatch(existing, data.(totalPrice := Some(price))))
            && db.bookings == old(db.bookings)[k := r.value])
    ensures old(BookingIdsUnique(db.bookings)) ==> BookingIdsUnique(db.bookings)
    ensures (old(NoDoubleBooking(db.bookings)) && old(BookingIdsUnique(db.bookings)) && r.Ok?
             && DatesGiven(data) && r.value.checkIn < r.value.checkOut) ==> NoDoubleBooking(db.bookings)
    ensures old(NoDoubleBooking(db.bookings)) && r.Ok? && !DatesGiven(data) && data.status.None?
            ==> NoDoubleBooking(db.bookings)
  {
    var data := data;
    var found := BookingIndex(db.bookings, id);
    if DatesGiven(data) {
      if found.None? {
        return Err(BOOKING_NOT_FOUND);
      }
      var existing := db.bookings[found.value];
      var checkIn := data.checkIn.GetOr(existing.checkIn);
      var checkOut := data.checkOut.GetOr(existing.checkOut);
      var availability := CheckRoomAvailability(db.rooms, db.bookings, existing.roomId, checkIn, checkOut, Some(id));
      if availability.Err? {
        return Err(availability.error);
      }
      if !availability.value.available {
        return Err(UPDATED_DATES_TAKEN);
      }
      var room := FindRoom(db.rooms, existing.roomId).value;
      data := data.(totalPrice := Some(CalculateTotalPrice(room.pricePerNight, checkIn, checkOut)));
    }
    if found.None? {
      return Err(RECORD_TO_UPDATE_NOT_FOUND);
    }
    var k := found.value;
    var updated := ApplyPatch(db.bookings[k], data);
    if NoDoubleBooking(db.bookings) {
      if !DatesGiven(data) && data.status.None? {
        SameStayKeepsNoDoubleBooking(db.bookings, k, updated);
      } else if DatesGiven(data) && BookingIdsUnique(db.bookings) && updated.checkIn < updated.checkOut {
        ReplaceKeepsNoDoubleBooking(db.bookings, k, updated);
      }
    }
    db.bookings := db.bookings[k := updated];
    r := Ok(updated);
  }

  /** A status-only update reactivating a cancelled booking is not checked, and can double-book a room. */
  lemma ReactivationCanDoubleBook()
    ensures var held := Booking("b1", "r1", "Ann", "ann@example.com", 0, 2 * DAY_MS, Confirmed, 200);
            var dropped := Booking("b2", "r1", "Bob", "bob@example.com", 0, 2 * DAY_MS, Cancelled, 200);
            var patch := BookingPatch(None, None, None, None, Some(Confirmed), None);
            && !DatesGiven(patch)
            && NoDoubleBooking([held, dropped])
            && !NoDoubleBooking([held, dropped][1 := ApplyPatch(dropped, patch)])
  {
    var held := Booking("b1", "r1", "Ann", "ann@example.com", 0, 2 * DAY_MS, Confirmed, 200);
    var dropped := Booking("b2", "r1", "Bob", "bob@example.com", 0, 2 * DAY_MS, Cancelled, 200);
    var patch := BookingPatch(None, None, None, None, Some(Confirmed), None);
    var t := [held, dropped][1 := ApplyPatch(dropped, patch)];
    assert t[0].roomId == t[1].roomId && IsActive(t[0].status) && IsActive(t[1].status) && StaysIntersect(t[0], t[1]);
  }

  // ---------------------------------------------------------------- listing

  datatype BookingFilters = BookingFilters(roomId: Option<string>, hotelId: Option<string>,
                                           status: Option<BookingStatus>, guestEmail: Option<string>,
                                           checkInFrom: Option<int>, checkInTo: Option<int>,
                                           page: Option<int>, limit: Option<int>)

  /** The `where` object getAllBookings assembles, one optional constraint per field. */
  datatype BookingWhere = BookingWhere(roomId: Option<string>, status: Option<BookingStatus>,
                                       guestEmail: Option<string>, checkInGte: Option<int>,
                                       checkInLte: Option<int>, roomHotelId: Option<string>)

  predicate Truthy(s: Option<string>) { s.Some? && s.value != "" }

  /** The booking belongs to a room of the given hotel (the `room: { hotelId }` relation filter). */
  predicate InHotel(rooms: seq<Room>, b: Booking, hotelId: string) {
    FindRoom(rooms, b.roomId).Some? && FindRoom(rooms, b.roomId).value.hotelId == hotelId
  }

  predicate WhereHolds(rooms: seq<Room>, w: BookingWhere, b: Booking) {
    && (w.roomId.Some? ==> b.roomId == w.roomId.value)
    && (w.status.Some? ==> b.status == w.status.value)
    && (w.guestEmail.Some? ==> b.guestEmail == w.guestEmail.value)
    && (w.checkInGte.Some? ==> b.checkIn >= w.checkInGte.value)
    && (w.checkInLte.Some? ==> b.checkIn <= w.checkInLte.value)
    && (w.roomHotelId.Some? ==> InHotel(rooms, b, w.roomHotelId.value))
  }

  /** Every filter that is supplied (and not an empty string) holds of the booking. */
  predicate MatchesFilters(rooms: seq<Room>, f: BookingFilters, b: Booking) {
    && (Truthy(f.roomId) ==> b.roomId == f.roomId.value)
    && (f.status.Some? ==> b.status == f.status.value)
    && (Truthy(f.guestEmail) ==> b.guestEmail == f.guestEmail.value)
    && (f.checkInFrom.Some? ==> f.checkInFrom.value <= b.checkIn)
    && (f.checkInTo.Some? ==> b.checkIn <= f.checkInTo.value)
    && (Truthy(f.hotelId) ==> InHotel(rooms, b, f.hotelId.value))
  }

  function FiltersTest(rooms: seq<Room>, f: BookingFilters): Booking -> bool {
    (b: Booking) => MatchesFilters(rooms, f, b)
  }

  function WhereTest(rooms: seq<Room>, w: BookingWhere): Booking -> bool {
    (b: Booking) => WhereHolds(rooms, w, b)
  }

  /** The matching bookings, newest first (`orderBy: { createdAt: 'desc' }` over a table kept in creation order). */
  function MatchingBookings(rooms: seq<Room>, bookings: seq<Booking>, f: BookingFilters): (r: seq<Booking>)
    ensures forall b :: b in r <==> b in bookings && MatchesFilters(rooms, f, b)
  {
    assert forall b :: b in Reverse(bookings) <==> b in multiset(Reverse(bookings));
    Filter(Reverse(bookings), FiltersTest(rooms, f))
  }

  datatype BookingPagination = BookingPagination(page: int, limit: int, total: int, totalPages: int,
                                                 hasNext: bool, hasPrev: bool)

  /** `filters.page || 1`, `filters.limit || 10`: an absent or zero value takes the default. */
  function OrDefault(n: Option<int>, default: int): (r: int)
    ensures n.Some? && n.value != 0 ==> r == n.value
    ensures (n.None? || n.value == 0) ==> r == default
  {
    if n.Some? && n.value != 0 then n.value else default
  }

  /** The `where` assembly of getAllBookings: only supplied, non-empty filters become constraints. */
  method BuildWhere(filters: BookingFilters) returns (w: BookingWhere)
    ensures forall rooms, b :: WhereHolds(rooms, w, b) == MatchesFilters(rooms, filters, b)
  {
    w := BookingWhere(None, None, None, None, None, None);
    if Truthy(filters.roomId) { w := w.(roomId := filters.roomId); }
    if filters.status.Some? { w := w.(status := filters.status); }
    if Truthy(filters.guestEmail) { w := w.(guestEmail := filters.guestEmail); }
    if filters.checkInFrom.Some? || filters.checkInTo.Some? {
      if filters.checkInFrom.Some? { w := w.(checkInGte := filters.checkInFrom); }
      if filters.checkInTo.Some? { w := w.(checkInLte := filters.checkInTo); }
    }
    if Truthy(filters.hotelId) { w := w.(roomHotelId := filters.hotelId); }
  }

  /** Querying with an assembled `where` that agrees with the filters selects the matching bookings. */
  lemma WhereSelectsMatching(rooms: seq<Room>, bookings: seq<Booking>, w: BookingWhere, f: BookingFilters)
    requires forall b :: WhereHolds(rooms, w, b) == MatchesFilters(rooms, f, b)
    ensures Filter(Reverse(bookings), WhereTest(rooms, w)) == MatchingBookings(rooms, bookings, f)
  {
    FilterEquivalent(Reverse(bookings), WhereTest(rooms, w), FiltersTest(rooms, f));
  }

  /** The findMany and count of getAllBookings: the bookings the assembled `where` selects, newest first. */
  method QueryBookings(db: Database, filters: BookingFilters) returns (matching: seq<Booking>)
    ensures matching == MatchingBookings(db.rooms, db.bookings, filters)
  {
    var w := BuildWhere(filters);
    matching := Filter(Reverse(db.bookings), WhereTest(db.rooms, w));
    WhereSelectsMatching(db.rooms, db.bookings, w, filters);
  }

  /** The pagination block of getAllBookings for a page holding `rows` of `total` matches. */
  function Pagination(page: int, limit: int, total: int, rows: int): (p: BookingPagination)
    requires page >= 1 && limit >= 1 && total >= 0
    requires rows == Min(limit, Max(0, total - (page - 1) * limit))
    ensures p.page == page && p.limit == limit && p.total == total
    ensures total == 0 ==> p.totalPages == 0
    ensures total > 0 ==> (p.totalPages - 1) * limit < total <= p.totalPages * limit
    ensures p.hasPrev <==> page > 1
    ensures p.hasNext <==> page < p.totalPages
    ensures p.hasNext <==> (page - 1) * limit + rows < total
  {
    var totalPages := CeilDiv(total, limit);
    CeilDivSign(total, limit);
    MoreRowsIffBeforeLastPage(page, limit, total, rows);
    BookingPagination(page, limit, total, totalPages, page < totalPages, page > 1)
  }

  /** getAllBookings: filtered, newest first, one page of it, and the page metadata. */
  method GetAllBookings(db: Database, filters: BookingFilters) returns (bookings: seq<Booking>, pagination: BookingPagination)
    requires filters.page.GetOr(1) >= 0 && filters.limit.GetOr(1) >= 0
    ensures var page := OrDefault(filters.page, 1);
            var limit := OrDefault(filters.limit, 10);
            var matching := MatchingBookings(db.rooms, db.bookings, filters);
            && bookings == PageSlice(matching, Skip(page, limit), limit)
            && pagination == Pagination(page, limit, |matching|, |bookings|)
    ensures |bookings| <= OrDefault(filters.limit, 10)
    ensures forall b :: b in bookings ==> b in db.bookings && MatchesFilters(db.rooms, filters, b)
  {
    var matching := QueryBookings(db, filters);
    var page := OrDefault(filters.page, 1);
    var limit := OrDefault(filters.limit, 10);
    var skip := Skip(page, limit);
    bookings := PageSlice(matching, skip, limit);
    assert forall b :: b in bookings ==> b in matching;
    pagination := Pagination(page, limit, |matching|, |bookings|);
  }

  // ---------------------------------------------------------------- lookups

  /** getBookingById. */
  function GetBookingById(bookings: seq<Booking>, id: string): (r: Result<Booking>)
    ensures r.Err? <==> forall b :: b in bookings ==> b.id != id
    ensures r.Err? ==> r.error == BOOKING_NOT_FOUND
    ensures r.Ok? ==> r.value in bookings && r.value.id == id
  {
    match BookingIndex(bookings, id)
    case Some(k) => Ok(bookings[k])
    case None => Err(BOOKING_NOT_FOUND)
  }

  predicate CheckInLe(a: Booking, b: Booking) { a.checkIn <= b.checkIn }

  /** `orderBy: { checkIn: 'asc' }`. */
  function ByCheckIn(bookings: seq<Booking>): (r: seq<Booking>)
    ensures multiset(r) == multiset(bookings)
    ensures forall i :: 0 < i < |r| ==> r[i - 1].checkIn <= r[i].checkIn
  {
    var le := (a: Booking, b: Booking) => CheckInLe(a, b);
    assert Total(le);
    SortBy(bookings, le)
  }

  /** `where: { roomId }`. */
  function OfRoom(roomId: string): Booking -> bool { (b: Booking) => b.roomId == roomId }

  /** `where: { room: { hotelId } }`. */
  function OfHotel(rooms: seq<Room>, hotelId: string): Booking -> bool { (b: Booking) => InHotel(rooms, b, hotelId) }

  datatype RoomBookings = RoomBookings(room: Room, bookings: seq<Booking>)

  /** getBookingsByRoom: the room's bookings by check-in date, or 'Room not found'. */
  function GetBookingsByRoom(rooms: seq<Room>, bookings: seq<Booking>, roomId: string): (r: Result<RoomBookings>)
    ensures r.Err? <==> forall x :: x in rooms ==> x.id != roomId
    ensures r.Err? ==> r.error == ROOM_NOT_FOUND
    ensures r.Ok? ==> r.value.room in rooms && r.value.room.id == roomId
    ensures r.Ok? ==> forall b :: b in r.value.bookings <==> b in bookings && b.roomId == roomId
    ensures r.Ok? ==> multiset(r.value.bookings) == multiset(Filter(bookings, OfRoom(roomId)))
    ensures r.Ok? ==> forall i :: 0 < i < |r.value.bookings| ==> r.value.bookings[i - 1].checkIn <= r.value.bookings[i].checkIn
  {
    match FindRoom(rooms, roomId)
    case None => Err(ROOM_NOT_FOUND)
    case Some(room) =>
      var mine := Filter(bookings, OfRoom(roomId));
      var sorted := ByCheckIn(mine);
      assert forall b :: b in sorted <==> b in multiset(mine);
      Ok(RoomBookings(room, sorted))
  }

  datatype HotelBookings = HotelBookings(hotelId: string, hotelName: string, bookings: seq<Booking>)

  /** getBookingsByHotel: the bookings of the hotel's rooms by check-in date, or 'Hotel not found'. */
  function GetBookingsByHotel(hotels: seq<Hotel>, rooms: seq<Room>, bookings: seq<Booking>, hotelId: string): (r: Result<HotelBookings>)
    ensures r.Err? <==> forall h :: h in hotels ==> h.id != hotelId
    ensures r.Err? ==> r.error == HOTEL_NOT_FOUND
    ensures r.Ok? ==> r.value.hotelId == hotelId
    ensures r.Ok? ==> forall b :: b in r.value.bookings <==> b in bookings && InHotel(rooms, b, hotelId)
    ensures r.Ok? ==> multiset(r.value.bookings) == multiset(Filter(bookings, OfHotel(rooms, hotelId)))
    ensures r.Ok? ==> forall i :: 0 < i < |r.value.bookings| ==> r.value.bookings[i - 1].checkIn <= r.value.bookings[i].checkIn
  {
    match HotelIndex(hotels, hotelId)
    case None => Err(HOTEL_NOT_FOUND)
    case Some(k) =>
      var theirs := Filter(bookings, OfHotel(rooms, hotelId));
      var sorted := ByCheckIn(theirs);
      assert forall b :: b in sorted <==> b in multiset(theirs);
      Ok(HotelBookings(hotels[k].id, hotels[k].name, sorted))
  }

  /** deleteBooking: prisma.booking.delete, which fails when no row has the id. */
  method DeleteBooking(db: Database, id: string) returns (r: Result<()>)
    modifies db
    ensures db.hotels == old(db.hotels) && db.rooms == old(db.rooms)
    ensures r.Err? <==> forall b :: b in old(db.bookings) ==> b.id != id
    ensures r.Err? ==> r.error == RECORD_TO_DELETE_NOT_FOUND && db.bookings == old(db.bookings)
    ensures r.Ok? ==> var k := BookingIndex(old(db.bookings), id).value;
                      db.bookings == old(db.bookings)[..k] + old(db.bookings)[k + 1..]
  {
    var found := BookingIndex(db.bookings, id);
    if found.None? {
      return Err(RECORD_TO_DELETE_NOT_FOUND);
    }
    var k := found.value;
    db.bookings := db.bookings[..k] + db.bookings[k + 1..];
    r := Ok(());
  }
}
