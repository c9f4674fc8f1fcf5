/**
 * The request validation for rooms: create, update and list query.
 * A result of None is a rejected request.
 */
module RoomSchemas {
  import opened Wrappers
  import opened Entities
  import opened RoomService

  /** `roomNumber: z.string().min(1).max(10)`. */
  predicate ValidRoomNumber(s: string) { 1 <= |s| <= 10 }

  /** `pricePerNight: z.number().min(0)`. */
  predicate ValidPrice(p: int) { p >= 0 }

  /** The raw fields of a room request body. */
  datatype RoomInput = RoomInput(hotelId: Option<string>, roomNumber: Option<string>, roomType: Option<string>,
                                 pricePerNight: Option<int>, isAvailable: Option<bool>)

  /** createRoomSchema: the base fields with isAvailable defaulting to true, and a non-empty hotel id. */
  function ParseCreateRoom(i: RoomInput): (r: Option<RoomData>)
    ensures r.Some? <==> i.hotelId.Some? && |i.hotelId.value| >= 1
                         && i.roomNumber.Some? && ValidRoomNumber(i.roomNumber.value)
                         && i.roomType.Some? && ParseRoomType(i.roomType.value).Some?
                         && i.pricePerNight.Some? && ValidPrice(i.pricePerNight.value)
    ensures r.Some? ==> r.value.hotelId == i.hotelId.value && r.value.roomNumber == i.roomNumber.value
                        && RoomTypeName(r.value.roomType) == i.roomType.value
                        && r.value.pricePerNight == i.pricePerNight.value
                        && r.value.isAvailable == i.isAvailable.GetOr(true)
  {
    if i.hotelId.None? || i.roomNumber.None? || i.roomType.None? || i.pricePerNight.None? then None
    else if !ValidRoomNumber(i.roomNumber.value) || !ValidPrice(i.pricePerNight.value) then None
    else if |i.hotelId.value| < 1 then None
    else match ParseRoomType(i.roomType.value)
      case None => None
      case Some(t) => Some(RoomData(i.hotelId.value, i.roomNumber.value, t, i.pricePerNight.value, i.isAvailable.GetOr(true)))
  }

  /** The request body a client sends for a room. */
  function CreateInput(d: RoomData): RoomInput {
    RoomInput(Some(d.hotelId), Some(d.roomNumber), Some(RoomTypeName(d.roomType)), Some(d.pricePerNight), Some(d.isAvailable))
  }

  /** A valid room survives the round trip through its request body. */
  lemma CreateRoundTrip(d: RoomData)
    requires |d.hotelId| >= 1 && ValidRoomNumber(d.roomNumber) && ValidPrice(d.pricePerNight)
    ensures ParseCreateRoom(CreateInput(d)) == Some(d)
  {
    RoomTypeRoundTrip(d.roomType);
  }

  /**
   * updateRoomSchema (`roomBaseSchema.partial()`): every base field optional and
   * checked when present, no default for isAvailable, and hotelId, which the base
   * schema does not declare, stripped.
   */
  function ParseUpdateRoom(i: RoomInput): (r: Option<RoomPatch>)
    ensures r.Some? ==> r.value.hotelId.None?
    ensures r.Some? ==> r.value.roomNumber == i.roomNumber && r.value.pricePerNight == i.pricePerNight
                        && r.value.isAvailable == i.isAvailable
    ensures r.Some? ==> (r.value.roomType.Some? <==> i.roomType.Some?)
    ensures r.Some? && i.roomType.Some? ==> RoomTypeName(r.value.roomType.value) == i.roomType.value
    ensures r.Some? <==> (i.roomNumber.Some? ==> ValidRoomNumber(i.roomNumber.value))
                         && (i.roomType.Some? ==> ParseRoomType(i.roomType.value).Some?)
                         && (i.pricePerNight.Some? ==> ValidPrice(i.pricePerNight.value))
  {
    if i.roomNumber.Some? && !ValidRoomNumber(i.roomNumber.value) then None
    else if i.pricePerNight.Some? && !ValidPrice(i.pricePerNight.value) then None
    else if i.roomType.Some? && ParseRoomType(i.roomType.value).None? then None
    else
      var t := if i.roomType.Some? then ParseRoomType(i.roomType.value) else None;
      Some(RoomPatch(None, i.roomNumber, t, i.pricePerNight, i.isAvailable))
  }

  /**
   * Every validated update falls in a case where updateRoom keeps room numbers
   * unique: a non-empty new number is checked across all hotels, and the hotel never moves.
   */
  lemma ValidatedUpdateKeepsNumbersUnique(i: RoomInput)
    requires ParseUpdateRoom(i).Some?
    ensures var p := ParseUpdateRoom(i).value;
            Truthy(p.roomNumber) || (p.roomNumber.None? && p.hotelId.None?)
  {
  }

  /**
   * With hotelId stripped, updateRoom looks for the new number in every hotel: a
   * validated rename to a number that another room holds, in any hotel, is refused
   * as a duplicate (and UpdateRoom answers DUPLICATE_ROOM_NUMBER), even when that
   * room's hotel is not the renamed room's own.
   */
  lemma RenameClashesAcrossHotels(rooms: seq<Room>, id: string, i: RoomInput, x: Room)
    requires ParseUpdateRoom(i).Some? && x in rooms && x.id != id && i.roomNumber == Some(x.roomNumber)
    ensures NumberClash(rooms, id, ParseUpdateRoom(i).value)
  {
    var p := ParseUpdateRoom(i).value;
    assert Duplicate(x, id, p.hotelId, p.roomNumber.value);
  }

  /** Two rooms in different hotels: renaming r2 of h2 to r1's number "101" of h1 is refused. */
  lemma RenameToOtherHotelsNumberRefused()
    ensures var rooms := [Room("r1", "h1", "101", Single, 100, true), Room("r2", "h2", "102", Double, 150, true)];
            var i := RoomInput(Some("h2"), Some("101"), None, None, None);
            && ParseUpdateRoom(i).Some?
            && rooms[0].hotelId != rooms[1].hotelId
            && NumberClash(rooms, "r2", ParseUpdateRoom(i).value)
  {
    var rooms := [Room("r1", "h1", "101", Single, 100, true), Room("r2", "h2", "102", Double, 150, true)];
    RenameClashesAcrossHotels(rooms, "r2", RoomInput(Some("h2"), Some("101"), None, None, None), rooms[0]);
  }

  /** An update body without isAvailable leaves the stored flag alone. */
  lemma UpdateKeepsAvailabilityWhenAbsent(i: RoomInput, x: Room)
    requires i.isAvailable.None? && ParseUpdateRoom(i).Some?
    ensures ApplyPatch(x, ParseUpdateRoom(i).value).isAvailable == x.isAvailable
  {
  }

  /** The raw fields of a room list query. */
  datatype RoomQueryInput = RoomQueryInput(hotelId: Option<string>, roomType: Option<string>, isAvailable: Option<bool>,
                                           minPrice: Option<int>, maxPrice: Option<int>)

  /** roomQuerySchema: all optional; price bounds not negative. */
  function ParseRoomQuery(q: RoomQueryInput): (r: Option<RoomFilters>)
    ensures r.Some? <==> (q.roomType.Some? ==> ParseRoomType(q.roomType.value).Some?)
                         && (q.minPrice.Some? ==> q.minPrice.value >= 0)
                         && (q.maxPrice.Some? ==> q.maxPrice.value >= 0)
    ensures r.Some? ==> r.value.hotelId == q.hotelId && r.value.isAvailable == q.isAvailable
                        && r.value.minPrice == q.minPrice && r.value.maxPrice == q.maxPrice
    ensures r.Some? ==> (r.value.roomType.Some? <==> q.roomType.Some?)
    ensures r.Some? && q.roomType.Some? ==> RoomTypeName(r.value.roomType.value) == q.roomType.value
  {
    if q.minPrice.Some? && q.minPrice.value < 0 then None
    else if q.maxPrice.Some? && q.maxPrice.value < 0 then None
    else if q.roomType.Some? && ParseRoomType(q.roomType.value).None? then None
    else
      var t := if q.roomType.Some? then ParseRoomType(q.roomType.value) else None;
      Some(RoomFilters(q.hotelId, t, q.isAvailable, q.minPrice, q.maxPrice))
  }

  /** `maxPrice=0` passes validation and then filters nothing. */
  lemma ValidatedZeroMaxPriceIgnored(rooms: seq<Room>)
    ensures var f := ParseRoomQuery(RoomQueryInput(None, None, None, None, Some(0)));
            f.Some? && MatchingRooms(rooms, f.value) == MatchingRooms(rooms, RoomFilters(None, None, None, None, None))
  {
    var f := ParseRoomQuery(RoomQueryInput(None, None, None, None, Some(0))).value;
    ZeroMaxPriceIgnored(rooms, f);
  }

  /**
   * roomQuerySchema as the GET /rooms route applies it to the URL query, where every
   * value is a string: z.boolean() and z.number() refuse strings, so any
   * availability or price parameter makes the parse throw.
   */
  function ParseRoomQueryString(hotelId: Option<string>, roomType: Option<string>, isAvailable: Option<string>,
                                minPrice: Option<string>, maxPrice: Option<string>): (r: Option<RoomFilters>)
    ensures r.Some? <==> isAvailable.None? && minPrice.None? && maxPrice.None?
                         && (roomType.Some? ==> ParseRoomType(roomType.value).Some?)
    ensures r.Some? ==> r.value.hotelId == hotelId && r.value.isAvailable.None?
                        && r.value.minPrice.None? && r.value.maxPrice.None?
    ensures r.Some? && roomType.Some? ==> r.value.roomType == ParseRoomType(roomType.value)
  {
    if isAvailable.Some? || minPrice.Some? || maxPrice.Some? then None
    else ParseRoomQuery(RoomQueryInput(hotelId, roomType, None, None, None))
  }

  /** Through the route, `maxPrice=0` never reaches the service: the string "0" is not a number to zod. */
  lemma RouteRejectsPriceFilter(maxPrice: string)
    ensures ParseRoomQueryString(None, None, None, None, Some(maxPrice)).None?
    ensures ParseRoomQueryString(None, None, None, Some(maxPrice), None).None?
  {
  }
}
