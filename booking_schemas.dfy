/**
 * The request validation for bookings: create, update, id, list query and
 * availability query. A result of None is a rejected request.
 * Dates arrive already parsed to milliseconds; e-mail syntax is not checked here.
 */
module BookingSchemas {
  import opened Wrappers
  import opened Entities
  import opened BookingService

  /** `guestName: z.string().min(2).max(100)`. */
  predicate ValidGuestName(s: string) { 2 <= |s| <= 100 }

  /** The raw fields of a booking request body. */
  datatype BookingInput = BookingInput(roomId: Option<string>, guestName: Option<string>, guestEmail: Option<string>,
                                       checkIn: Option<int>, checkOut: Option<int>, status: Option<string>)

  /** `status: z.enum(BOOKING_STATUS).default("PENDING")`: absent is PENDING, otherwise one of the three names. */
  function ParseStatusOrPending(s: Option<string>): (r: Option<BookingStatus>)
    ensures s.None? ==> r == Some(Pending)
    ensures s.Some? ==> r == ParseStatus(s.value)
  {
    match s
    case None => Some(Pending)
    case Some(v) => ParseStatus(v)
  }

  /**
   * createBookingSchema: the base fields, a check-out after the check-in, a
   * non-empty room id, and a check-in no earlier than the start of today.
   */
  function ParseCreateBooking(i: BookingInput, todayStart: int): (r: Option<BookingData>)
    ensures r.Some? ==> r.value.checkIn < r.value.checkOut && todayStart <= r.value.checkIn
    ensures r.Some? ==> |r.value.roomId| >= 1 && ValidGuestName(r.value.guestName)
    ensures r.Some? ==> Some(r.value.roomId) == i.roomId && Some(r.value.guestName) == i.guestName
                        && Some(r.value.guestEmail) == i.guestEmail
                        && Some(r.value.checkIn) == i.checkIn && Some(r.value.checkOut) == i.checkOut
    ensures r.Some? <==> i.roomId.Some? && |i.roomId.value| >= 1
                         && i.guestName.Some? && ValidGuestName(i.guestName.value) && i.guestEmail.Some?
                         && i.checkIn.Some? && i.checkOut.Some? && i.checkIn.value < i.checkOut.value
                         && todayStart <= i.checkIn.value && ParseStatusOrPending(i.status).Some?
    ensures r.Some? ==> r.value.status == ParseStatusOrPending(i.status).value
  {
    if i.roomId.None? || i.guestName.None? || i.guestEmail.None? || i.checkIn.None? || i.checkOut.None? then None
    else if !ValidGuestName(i.guestName.value) then None
    else match ParseStatusOrPending(i.status)
      case None => None
      case Some(status) =>
        if !(i.checkOut.value > i.checkIn.value) then None
        else if |i.roomId.value| < 1 then None
        else if !(i.checkIn.value >= todayStart) then None
        else Some(BookingData(i.roomId.value, i.guestName.value, i.guestEmail.value,
                              i.checkIn.value, i.checkOut.value, status))
  }

  /** The request body a client sends for a booking. */
  function CreateInput(d: BookingData): BookingInput {
    BookingInput(Some(d.roomId), Some(d.guestName), Some(d.guestEmail), Some(d.checkIn), Some(d.checkOut),
                 Some(StatusName(d.status)))
  }

  /** A valid booking survives the round trip through its request body. */
  lemma CreateRoundTrip(d: BookingData, todayStart: int)
    requires |d.roomId| >= 1 && ValidGuestName(d.guestName)
    requires todayStart <= d.checkIn < d.checkOut
    ensures ParseCreateBooking(CreateInput(d), todayStart) == Some(d)
  {
    StatusRoundTrip(d.status);
  }

  /** Leaving the status out books as PENDING. */
  lemma StatusDefaultsToPending(i: BookingInput, todayStart: int)
    requires i.status.None? && ParseCreateBooking(i, todayStart).Some?
    ensures ParseCreateBooking(i, todayStart).value.status == Pending
  {
  }

  /** A valid body without a status is accepted, as a PENDING booking. */
  lemma MissingStatusIsAccepted(d: BookingData, todayStart: int)
    requires |d.roomId| >= 1 && ValidGuestName(d.guestName)
    requires todayStart <= d.checkIn < d.checkOut
    ensures ParseCreateBooking(CreateInput(d).(status := None), todayStart) == Some(d.(status := Pending))
  {
  }

  /** A status other than the three names is rejected, whatever the rest of the body. */
  lemma UnknownStatusRejected(i: BookingInput, todayStart: int)
    requires i.status.Some? && i.status.value !in ["PENDING", "CONFIRMED", "CANCELLED"]
    ensures ParseCreateBooking(i, todayStart).None? && ParseUpdateBooking(i).None?
  {
  }

  /** updateBookingSchema: each field optional; the dates are compared only when both are given. */
  function ParseUpdateBooking(i: BookingInput): (r: Option<BookingPatch>)
    ensures r.Some? ==> r.value.totalPrice.None?
    ensures r.Some? ==> r.value.guestName == i.guestName && r.value.guestEmail == i.guestEmail
                        && r.value.checkIn == i.checkIn && r.value.checkOut == i.checkOut
    ensures r.Some? ==> (r.value.status.Some? <==> i.status.Some?)
    ensures r.Some? && i.status.Some? ==> Some(r.value.status.value) == ParseStatus(i.status.value)
    ensures r.Some? <==> (i.guestName.Some? ==> ValidGuestName(i.guestName.value))
                         && (i.status.Some? ==> ParseStatus(i.status.value).Some?)
                         && (i.checkIn.Some? && i.checkOut.Some? ==> i.checkIn.value < i.checkOut.value)
  {
    if i.guestName.Some? && !ValidGuestName(i.guestName.value) then None
    else if i.status.Some? && ParseStatus(i.status.value).None? then None
    else if i.checkIn.Some? && i.checkOut.Some? && !(i.checkOut.value > i.checkIn.value) then None
    else
      var status := if i.status.Some? then ParseStatus(i.status.value) else None;
      Some(BookingPatch(i.guestName, i.guestEmail, i.checkIn, i.checkOut, status, None))
  }

  /** A body naming at most one of the dates passes the date refine whatever that date is. */
  lemma SingleDateUpdatePasses(i: BookingInput)
    requires i.checkIn.None? || i.checkOut.None?
    requires i.guestName.Some? ==> ValidGuestName(i.guestName.value)
    requires i.status.Some? ==> ParseStatus(i.status.value).Some?
    ensures ParseUpdateBooking(i).Some?
    ensures ParseUpdateBooking(i).value.checkIn == i.checkIn && ParseUpdateBooking(i).value.checkOut == i.checkOut
  {
  }

  /** An empty update body is valid and changes nothing. */
  lemma EmptyUpdateIsNoOp(b: Booking)
    ensures var p := ParseUpdateBooking(BookingInput(None, None, None, None, None, None));
            p.Some? && ApplyPatch(b, p.value) == b
  {
  }

  /**
   * An update naming only a check-out before the stored check-in passes the schema
   * and the availability check, and the stored stay comes out inverted with a negative price.
   */
  lemma SingleDateUpdateCanInvertStay()
    ensures var room := Room("r1", "h1", "101", Single, 100, true);
            var existing := Booking("b1", "r1", "Ann", "ann@example.com", 10 * DAY_MS, 12 * DAY_MS, Confirmed, 200);
            var patch := ParseUpdateBooking(BookingInput(None, None, None, None, Some(5 * DAY_MS), None));
            && patch.Some? && DatesGiven(patch.value)
            && CheckRoomAvailability([room], [existing], "r1", 10 * DAY_MS, 5 * DAY_MS, Some("b1")) == Ok(Availability(true, []))
            && CalculateTotalPrice(100, 10 * DAY_MS, 5 * DAY_MS) == -500
            && ApplyPatch(existing, patch.value.(totalPrice := Some(-500))).checkOut
               < ApplyPatch(existing, patch.value.(totalPrice := Some(-500))).checkIn
  {
    var room := Room("r1", "h1", "101", Single, 100, true);
    var existing := Booking("b1", "r1", "Ann", "ann@example.com", 10 * DAY_MS, 12 * DAY_MS, Confirmed, 200);
    PartialDayIsWholeNight(10 * DAY_MS, 5 * DAY_MS, -5);
    var check := CheckRoomAvailability([room], [existing], "r1", 10 * DAY_MS, 5 * DAY_MS, Some("b1"));
    assert FindRoom([room], "r1") == Some(room);
    assert !Conflicts(existing, "r1", 10 * DAY_MS, 5 * DAY_MS, Some("b1"));
    assert check.value.conflictingBookings == [];
  }

  /** bookingIdSchema (and the room and hotel id schemas): a non-empty id. */
  function ParseId(id: Option<string>): (r: Option<string>)
    ensures r.Some? <==> id.Some? && id.value != ""
    ensures r.Some? ==> r == id
  {
    if id.Some? && |id.value| >= 1 then id else None
  }

  /** The raw fields of a booking list query. */
  datatype QueryInput = QueryInput(roomId: Option<string>, hotelId: Option<string>, status: Option<string>,
                                   guestEmail: Option<string>, checkInFrom: Option<int>, checkInTo: Option<int>,
                                   page: Option<int>, limit: Option<int>)

  /** bookingQuerySchema: page at least 1 (default 1), limit between 1 and 100 (default 10). */
  function ParseBookingQuery(q: QueryInput): (r: Option<BookingFilters>)
    ensures r.Some? ==> r.value.page.Some? && r.value.page.value >= 1
    ensures r.Some? ==> r.value.limit.Some? && 1 <= r.value.limit.value <= 100
    ensures r.Some? ==> r.value.page == Some(q.page.GetOr(1)) && r.value.limit == Some(q.limit.GetOr(10))
    ensures r.Some? ==> r.value.roomId == q.roomId && r.value.hotelId == q.hotelId && r.value.guestEmail == q.guestEmail
                        && r.value.checkInFrom == q.checkInFrom && r.value.checkInTo == q.checkInTo
    ensures r.Some? ==> r.value.status == (if q.status.Some? then ParseStatus(q.status.value) else None)
    ensures r.Some? <==> q.page.GetOr(1) >= 1 && 1 <= q.limit.GetOr(10) <= 100
                         && (q.status.Some? ==> ParseStatus(q.status.value).Some?)
  {
    var page := q.page.GetOr(1);
    var limit := q.limit.GetOr(10);
    if !(page >= 1) || !(1 <= limit <= 100) then None
    else if q.status.Some? && ParseStatus(q.status.value).None? then None
    else
      var status := if q.status.Some? then ParseStatus(q.status.value) else None;
      Some(BookingFilters(q.roomId, q.hotelId, status, q.guestEmail, q.checkInFrom, q.checkInTo, Some(page), Some(limit)))
  }

  /** A validated query meets getAllBookings' needs, and its `|| 1` and `|| 10` fallbacks never fire. */
  lemma ValidatedQueryNeedsNoFallback(q: QueryInput)
    requires ParseBookingQuery(q).Some?
    ensures var f := ParseBookingQuery(q).value;
            && f.page.GetOr(1) >= 0 && f.limit.GetOr(1) >= 0
            && OrDefault(f.page, 1) == q.page.GetOr(1) && OrDefault(f.limit, 10) == q.limit.GetOr(10)
  {
  }

  datatype AvailabilityQuery = AvailabilityQuery(roomId: string, checkIn: int, checkOut: int)

  /** roomAvailabilitySchema: a non-empty room id and a check-out after the check-in. */
  function ParseAvailabilityQuery(roomId: Option<string>, checkIn: Option<int>, checkOut: Option<int>): (r: Option<AvailabilityQuery>)
    ensures r.Some? <==> roomId.Some? && |roomId.value| >= 1 && checkIn.Some? && checkOut.Some?
                         && checkIn.value < checkOut.value
    ensures r.Some? ==> r.value == AvailabilityQuery(roomId.value, checkIn.value, checkOut.value)
  {
    if roomId.None? || checkIn.None? || checkOut.None? then None
    else if |roomId.value| < 1 then None
    else if !(checkOut.value > checkIn.value) then None
    else Some(AvailabilityQuery(roomId.value, checkIn.value, checkOut.value))
  }

  /**
   * For a validated availability query over stored non-empty stays, the answer is
   * "available" exactly when no active booking of the room intersects the stay.
   */
  lemma ValidatedQueryAnswersIntersection(rooms: seq<Room>, bookings: seq<Booking>,
                                          roomId: Option<string>, checkIn: Option<int>, checkOut: Option<int>)
    requires ParseAvailabilityQuery(roomId, checkIn, checkOut).Some?
    requires forall b :: b in bookings ==> b.checkIn < b.checkOut
    ensures var q := ParseAvailabilityQuery(roomId, checkIn, checkOut).value;
            var a := CheckRoomAvailability(rooms, bookings, q.roomId, q.checkIn, q.checkOut, None);
            a.Ok? ==> (a.value.available <==>
                        forall b :: b in bookings && b.roomId == q.roomId && IsActive(b.status)
                                    ==> !(b.checkIn < q.checkOut && b.checkOut > q.checkIn))
  {
    var q := ParseAvailabilityQuery(roomId, checkIn, checkOut).value;
    if CheckRoomAvailability(rooms, bookings, q.roomId, q.checkIn, q.checkOut, None).Ok? {
      AvailableIffNoIntersectingStay(rooms, bookings, q.roomId, q.checkIn, q.checkOut, None);
    }
  }
}
